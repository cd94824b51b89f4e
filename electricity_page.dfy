/** The electricity page, src/pages/Electricity.tsx: its component state, the mount effect and
    `handleSubmit`. The form itself (image, issue type, location, comment) lives in a child
    component that calls `handleSubmit` with the filled-in data, so this handler has no gate. */
module ElectricityPage {
  import opened Records
  import Browser
  import Auth
  import Reports

  /** What the report form hands to `handleSubmit`. */
  datatype ReportData = ReportData(image: string, issueType: string, location: Location, comment: string)

  class ElectricityPage {
    var authenticated: bool
    var route: Option<string>
    var user: Option<User>
    var reportedItems: seq<ReportedItem>
    var isSubmitting: bool

    constructor (st: Browser.LocalStorage)
      ensures user == Auth.CurrentUser(st.items)
      ensures !authenticated && route == None && reportedItems == [] && !isSubmitting
    {
      authenticated, route := false, None;
      user := Auth.CurrentUser(st.items);
      reportedItems, isSubmitting := [], false;
    }

    /** The mount effect: a visitor without a session is sent to /login and nothing is loaded. */
    method Mount(st: Browser.LocalStorage)
      modifies this
      ensures authenticated == Auth.IsAuthenticated(st.items)
      ensures !authenticated ==>
        route == Some("/login") && user == old(user) && reportedItems == old(reportedItems)
      ensures authenticated ==>
        route == old(route) && user == Auth.CurrentUser(st.items)
        && reportedItems == Reports.LoadedList(st.items, Reports.Electricity, old(reportedItems))
      ensures isSubmitting == old(isSubmitting)
    {
      authenticated := Auth.IsAuthenticated(st.items);
      if !authenticated {
        route := Some("/login");
        return;
      }
      user := Auth.CurrentUser(st.items);
      reportedItems := Reports.LoadedList(st.items, Reports.Electricity, reportedItems);
    }

    /** What a call of `handleSubmit` records: exactly one new report, prepended and persisted,
        and, for a page with a user, the report's points credited when the remote update succeeds. */
    twostate predicate Recorded(st: Browser.LocalStorage, data: ReportData, now: nat, timestamp: string,
                                remoteOk: bool, item: ReportedItem)
      reads this, st
    {
      var saved := old(st.items)[Reports.ListKey(Reports.Electricity) :=
                                 Browser.ItemsJson(Reports.Prepend(item, old(reportedItems)))];
      var signedIn := Auth.CurrentUser(old(st.items));
      && item == Reports.NewReport(Reports.Electricity, now, data.image, data.issueType, data.location,
                                   data.comment, timestamp)
      && reportedItems == Reports.Prepend(item, old(reportedItems))
      && if old(user).Some? && signedIn.Some? && remoteOk then
           var credited := Auth.Credited(signedIn.value, item.points);
           st.items == saved[Auth.UserKey := Browser.UserJson(credited)] && user == Some(credited)
         else
           st.items == saved && user == old(user)
    }

    /** `handleSubmit` up to the success toast; `isSubmitting` is raised first. */
    method RecordReport(st: Browser.LocalStorage, data: ReportData, now: nat, timestamp: string,
                        remoteOk: bool)
      returns (item: ReportedItem)
      modifies this, st
      ensures Recorded(st, data, now, timestamp, remoteOk, item)
      ensures isSubmitting
      ensures authenticated == old(authenticated) && route == old(route)
    {
      isSubmitting := true;
      item := Reports.NewReport(Reports.Electricity, now, data.image, data.issueType, data.location,
                                data.comment, timestamp);
      var updated := Reports.Prepend(item, reportedItems);
      reportedItems := updated;
      st.SetItem(Reports.ListKey(Reports.Electricity), Browser.ItemsJson(updated));
      if user.Some? {
        var credit := Auth.AddRewardPoints(st, item.points, remoteOk);
        if credit.Success? {
          user := Some(credit.value);
        }
      }
    }

    /** `handleSubmit` as intended: the button is enabled again when the handler completes. */
    method HandleSubmit(st: Browser.LocalStorage, data: ReportData, now: nat, timestamp: string,
                        remoteOk: bool)
      returns (item: ReportedItem)
      modifies this, st
      ensures Recorded(st, data, now, timestamp, remoteOk, item)
      ensures !isSubmitting
      ensures authenticated == old(authenticated) && route == old(route)
    {
      item := RecordReport(st, data, now, timestamp, remoteOk);
      isSubmitting := false;
    }

    /** `handleSubmit` as written: `toast`, which `useToast()` does not provide, throws before
        `setIsSubmitting(false)`, so the form's submit button stays disabled. */
    method HandleSubmitAsWritten(st: Browser.LocalStorage, data: ReportData, now: nat,
                                 timestamp: string, remoteOk: bool)
      returns (item: ReportedItem)
      modifies this, st
      ensures Recorded(st, data, now, timestamp, remoteOk, item)
      ensures isSubmitting
      ensures authenticated == old(authenticated) && route == old(route)
    {
      item := RecordReport(st, data, now, timestamp, remoteOk);
    }
  }
}
