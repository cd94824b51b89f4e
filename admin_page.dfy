/** The admin dashboard, src/pages/Admin.tsx: the access gate of its mount effect, the approve and
    reject handlers with the lists they reload, the user-name lookup and the status column. The
    calls it imports for moderation (`isAdmin`, `getAllUsers`, `getAllReports`,
    `updateReportStatus`) are not defined in the auth.ts of this model; they are parameters
    whose results the page receives. */
module AdminPage {
  import opened Records
  import Browser
  import Auth

  /** A report as the dashboard reads it. */
  datatype AdminReport = AdminReport(
    id: string, userId: string, kind: string, description: string, timestamp: string,
    status: string, imageUrl: Option<string>)

  /** What `getAllUsers()` and `getAllReports()` returned, when neither threw. */
  datatype Fetched = Fetched(users: seq<User>, reports: seq<AdminReport>)

  /** The lists a handler refreshes. */
  datatype Reload = ReportsList | UsersList

  datatype Badge = PendingBadge | ApprovedBadge | RejectedBadge

  /** Index of the first user with the given id, or `|users|` when there is none
      (`users.find(u => u.id === userId)`). */
  function FirstMatch(users: seq<User>, userId: string): (k: nat)
    ensures k <= |users|
    ensures k < |users| ==> users[k].id == userId
    ensures forall j :: 0 <= j < k ==> users[j].id != userId
  {
    if users == [] then 0
    else if users[0].id == userId then 0
    else 1 + FirstMatch(users[1..], userId)
  }

  /** `getUserName(userId)`: the name of the first user with that id, else 'Unknown User'. */
  function UserName(users: seq<User>, userId: string): (name: string)
    ensures (forall i :: 0 <= i < |users| ==> users[i].id != userId) ==> name == "Unknown User"
    ensures forall i :: (0 <= i < |users| && users[i].id == userId &&
                         (forall j :: 0 <= j < i ==> users[j].id != userId)) ==> name == users[i].name
  {
    var k := FirstMatch(users, userId);
    if k < |users| then users[k].name else "Unknown User"
  }

  /** The status column: anything other than 'pending' or 'approved' reads as Rejected. */
  function StatusBadge(status: string): (b: Badge)
    ensures b == PendingBadge <==> status == "pending"
    ensures b == ApprovedBadge <==> status == "approved"
    ensures b == RejectedBadge <==> status != "pending" && status != "approved"
  {
    if status == "pending" then PendingBadge
    else if status == "approved" then ApprovedBadge
    else RejectedBadge
  }

  /** Whether the Approve and Reject buttons are rendered for a report: exactly for the reports
      whose badge reads Pending. */
  function OffersDecision(r: AdminReport): (offered: bool)
    ensures offered <==> StatusBadge(r.status) == PendingBadge
  {
    r.status == "pending"
  }

  class AdminPage {
    var users: seq<User>
    var reports: seq<AdminReport>
    var loading: bool
    var route: Option<string>
    /** Titles of the toasts the page has opened, oldest first. */
    var notices: seq<string>

    constructor ()
      ensures users == [] && reports == [] && loading && route == None && notices == []
    {
      users, reports, loading, route, notices := [], [], true, None, [];
    }

    /** The mount effect. `isAdmin` is the result of the imported role check; `fetched` is what
        the two list calls returned, or the error one of them threw. */
    method Mount(st: Browser.LocalStorage, isAdmin: bool, fetched: Result<Fetched>)
      modifies this
      ensures !Auth.IsAuthenticated(st.items) ==>
        route == Some("/login") && notices == old(notices) + ["Authentication required"]
        && users == old(users) && reports == old(reports) && loading == old(loading)
      ensures Auth.IsAuthenticated(st.items) && (Auth.CurrentUser(st.items).None? || !isAdmin) ==>
        route == Some("/") && notices == old(notices) + ["Access denied"]
        && users == old(users) && reports == old(reports) && loading == old(loading)
      ensures Auth.IsAuthenticated(st.items) && Auth.CurrentUser(st.items).Some? && isAdmin ==>
        !loading && route == old(route)
        && (fetched.Success? ==> users == fetched.value.users && reports == fetched.value.reports
                                 && notices == old(notices))
        && (fetched.Failure? ==> users == old(users) && reports == old(reports)
                                 && notices == old(notices) + ["Error"])
    {
      if !Auth.IsAuthenticated(st.items) {
        notices := notices + ["Authentication required"];
        route := Some("/login");
        return;
      }
      var currentUser := Auth.CurrentUser(st.items);
      if currentUser.None? || !isAdmin {
        notices := notices + ["Access denied"];
        route := Some("/");
        return;
      }
      if fetched.Success? {
        users := fetched.value.users;
        reports := fetched.value.reports;
      } else {
        notices := notices + ["Error"];
      }
      loading := false;
    }

    /** `handleApproveReport`: on success both lists are reloaded, on failure nothing changes.
        `latestReports` and `latestUsers` are what the two list calls return afterwards. */
    method HandleApproveReport(reportId: string, updateReportStatus: (string, string) -> bool,
                               latestReports: seq<AdminReport>, latestUsers: seq<User>)
      returns (reloaded: set<Reload>)
      modifies this`reports, this`users, this`notices
      ensures updateReportStatus(reportId, "approved") ==>
        reloaded == {ReportsList, UsersList} && reports == latestReports && users == latestUsers
        && notices == old(notices) + ["Report approved"]
      ensures !updateReportStatus(reportId, "approved") ==>
        reloaded == {} && reports == old(reports) && users == old(users) && notices == old(notices)
    {
      reloaded := {};
      var success := updateReportStatus(reportId, "approved");
      if success {
        notices := notices + ["Report approved"];
        reports := latestReports;
        users := latestUsers;
        reloaded := {ReportsList, UsersList};
      }
    }

    /** `handleRejectReport`: on success only the report list is reloaded. */
    method HandleRejectReport(reportId: string, updateReportStatus: (string, string) -> bool,
                              latestReports: seq<AdminReport>)
      returns (reloaded: set<Reload>)
      modifies this`reports, this`notices
      ensures updateReportStatus(reportId, "rejected") ==>
        reloaded == {ReportsList} && reports == latestReports
        && notices == old(notices) + ["Report rejected"]
      ensures !updateReportStatus(reportId, "rejected") ==>
        reloaded == {} && reports == old(reports) && notices == old(notices)
    {
      reloaded := {};
      var success := updateReportStatus(reportId, "rejected");
      if success {
        notices := notices + ["Report rejected"];
        reports := latestReports;
        reloaded := {ReportsList};
      }
    }
  }
}
