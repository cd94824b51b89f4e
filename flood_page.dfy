/** The flood page, src/pages/Flood.tsx: its component state, the mount effect, the form
    setters and `handleSubmit`. Its recommendation table is the one in module
    FloodRecommendations. */
module FloodPage {
  import opened Records
  import Browser
  import Auth
  import Reports

  /** The page's `user` state. Besides a user or null it can hold the Promise that the handler
      stores when it does not await `addRewardPoints`. */
  datatype UserState = NoUser | Loaded(u: User) | PendingPromise

  function FromOption(o: Option<User>): (s: UserState)
    ensures o.None? <==> s == NoUser
    ensures o.Some? ==> s == Loaded(o.value)
  {
    if o.Some? then Loaded(o.value) else NoUser
  }

  class FloodPage {
    var authenticated: bool
    var route: Option<string>
    var user: UserState
    var image: Option<string>
    var floodType: Option<string>
    var location: Option<Location>
    var comment: string
    var reportedItems: seq<ReportedItem>
    var isSubmitting: bool

    constructor (st: Browser.LocalStorage)
      ensures user == FromOption(Auth.CurrentUser(st.items))
      ensures !authenticated && route == None
      ensures image == None && floodType == None && location == None && comment == ""
      ensures reportedItems == [] && !isSubmitting
    {
      authenticated, route := false, None;
      user := FromOption(Auth.CurrentUser(st.items));
      image, floodType, location, comment := None, None, None, "";
      reportedItems, isSubmitting := [], false;
    }

    predicate CanSubmit()
      reads this
    {
      !Reports.MissingInfo(image, floodType, location) && !isSubmitting
    }

    /** `user?.rewardPoints || 0`, the balance the navigation bar shows. */
    function NavbarPoints(): (p: int)
      reads this
      ensures user.Loaded? ==> p == user.u.rewardPoints
      ensures !user.Loaded? ==> p == 0
    {
      if user.Loaded? then user.u.rewardPoints else 0
    }

    /** `user?.name || ''`, the name the navigation bar shows. */
    function NavbarName(): (n: string)
      reads this
      ensures user.Loaded? ==> n == user.u.name
      ensures !user.Loaded? ==> n == ""
    {
      if user.Loaded? then user.u.name else ""
    }

    method Mount(st: Browser.LocalStorage)
      modifies this
      ensures authenticated == Auth.IsAuthenticated(st.items)
      ensures !authenticated ==>
        route == Some("/login") && user == old(user) && reportedItems == old(reportedItems)
      ensures authenticated ==>
        route == old(route) && user == FromOption(Auth.CurrentUser(st.items))
        && reportedItems == Reports.LoadedList(st.items, Reports.Flood, old(reportedItems))
      ensures image == old(image) && floodType == old(floodType) && location == old(location)
      ensures comment == old(comment) && isSubmitting == old(isSubmitting)
    {
      authenticated := Auth.IsAuthenticated(st.items);
      if !authenticated {
        route := Some("/login");
        return;
      }
      user := FromOption(Auth.CurrentUser(st.items));
      reportedItems := Reports.LoadedList(st.items, Reports.Flood, reportedItems);
    }

    method HandleImageProcessed(imageUrl: string, kind: string)
      modifies this`image, this`floodType
      ensures image == Some(imageUrl) && floodType == Some(kind)
    {
      image, floodType := Some(imageUrl), Some(kind);
    }

    method HandleLocationSelected(loc: Location)
      modifies this`location
      ensures location == Some(loc)
    {
      location := Some(loc);
    }

    method HandleCommentChange(text: string)
      modifies this`comment
      ensures comment == text
    {
      comment := text;
    }

    /** The report list and the browser store after a call of `handleSubmit`, from the state it
        started in. The credit reaches the store only for a page that holds a user (a stored
        Promise counts, being truthy) and only when the remote update succeeds. */
    twostate predicate Recorded(st: Browser.LocalStorage, now: nat, timestamp: string, remoteOk: bool,
                                outcome: Reports.SubmitOutcome)
      reads this, st
    {
      if Reports.MissingInfo(old(image), old(floodType), old(location)) then
        && outcome == Reports.MissingInformation
        && reportedItems == old(reportedItems) && st.items == old(st.items)
      else
        var item := Reports.NewReport(Reports.Flood, now, old(image).value, old(floodType).value,
                                      old(location).value, old(comment), timestamp);
        var saved := old(st.items)[Reports.ListKey(Reports.Flood) :=
                                   Browser.ItemsJson(Reports.Prepend(item, old(reportedItems)))];
        var signedIn := Auth.CurrentUser(old(st.items));
        && outcome == Reports.Submitted(item)
        && reportedItems == Reports.Prepend(item, old(reportedItems))
        && if old(user) != NoUser && signedIn.Some? && remoteOk then
             st.items == saved[Auth.UserKey := Browser.UserJson(Auth.Credited(signedIn.value, item.points))]
           else
             st.items == saved
    }

    /** The gate, the new report, and the list update with its persistence. */
    method RecordReport(st: Browser.LocalStorage, now: nat, timestamp: string)
      returns (outcome: Reports.SubmitOutcome)
      modifies this`isSubmitting, this`reportedItems, st
      ensures Reports.MissingInfo(old(image), old(floodType), old(location)) ==>
        outcome == Reports.MissingInformation && reportedItems == old(reportedItems)
        && st.items == old(st.items) && isSubmitting == old(isSubmitting)
      ensures !Reports.MissingInfo(old(image), old(floodType), old(location)) ==>
        var item := Reports.NewReport(Reports.Flood, now, image.value, floodType.value,
                                      location.value, comment, timestamp);
        && outcome == Reports.Submitted(item)
        && reportedItems == Reports.Prepend(item, old(reportedItems))
        && st.items == old(st.items)[Reports.ListKey(Reports.Flood) := Browser.ItemsJson(reportedItems)]
        && isSubmitting
    {
      if Reports.MissingInfo(image, floodType, location) {
        return Reports.MissingInformation;
      }
      isSubmitting := true;
      var item := Reports.NewReport(Reports.Flood, now, image.value, floodType.value,
                                    location.value, comment, timestamp);
      var updated := Reports.Prepend(item, reportedItems);
      reportedItems := updated;
      st.SetItem(Reports.ListKey(Reports.Flood), Browser.ItemsJson(updated));
      outcome := Reports.Submitted(item);
    }

    method ResetForm()
      modifies this`image, this`floodType, this`location, this`comment, this`isSubmitting
      ensures image == None && floodType == None && location == None && comment == ""
      ensures !isSubmitting
    {
      image, floodType, location, comment := None, None, None, "";
      isSubmitting := false;
    }

    /** `handleSubmit` as intended: the credit is awaited, a failure is swallowed, a success
        replaces the page's user; then the form is cleared and the button enabled. */
    method HandleSubmit(st: Browser.LocalStorage, now: nat, timestamp: string, remoteOk: bool)
      returns (outcome: Reports.SubmitOutcome)
      modifies this, st
      ensures Recorded(st, now, timestamp, remoteOk, outcome)
      ensures outcome.MissingInformation? ==>
        image == old(image) && floodType == old(floodType) && location == old(location)
        && comment == old(comment) && isSubmitting == old(isSubmitting) && user == old(user)
      ensures outcome.Submitted? ==>
        image == None && floodType == None && location == None && comment == "" && !isSubmitting
      ensures outcome.Submitted? ==>
        var signedIn := Auth.CurrentUser(old(st.items));
        if old(user) != NoUser && signedIn.Some? && remoteOk
        then user == Loaded(Auth.Credited(signedIn.value, outcome.item.points))
        else user == old(user)
      ensures authenticated == old(authenticated) && route == old(route)
    {
      outcome := RecordReport(st, now, timestamp);
      if outcome.MissingInformation? {
        return;
      }
      if user != NoUser {
        var credit := Auth.AddRewardPoints(st, outcome.item.points, remoteOk);
        if credit.Success? {
          user := Loaded(credit.value);
        }
      }
      ResetForm();
    }

    /** `handleSubmit` as written. `addRewardPoints` is not awaited, so the page's user becomes
        the returned Promise (the credit itself still reaches the store); then `toast`, which
        `useToast()` does not provide, throws, and the reset never runs. */
    method HandleSubmitAsWritten(st: Browser.LocalStorage, now: nat, timestamp: string, remoteOk: bool)
      returns (outcome: Reports.SubmitOutcome)
      modifies this, st
      ensures Recorded(st, now, timestamp, remoteOk, outcome)
      ensures image == old(image) && floodType == old(floodType) && location == old(location)
      ensures comment == old(comment)
      ensures outcome.MissingInformation? ==> user == old(user) && isSubmitting == old(isSubmitting)
      ensures outcome.Submitted? ==> isSubmitting && !CanSubmit()
      ensures outcome.Submitted? && old(user) != NoUser ==>
        user == PendingPromise && NavbarPoints() == 0 && NavbarName() == ""
      ensures outcome.Submitted? && old(user) == NoUser ==> user == NoUser
      ensures authenticated == old(authenticated) && route == old(route)
    {
      outcome := RecordReport(st, now, timestamp);
      if outcome.MissingInformation? {
        return;
      }
      if user != NoUser {
        var _ := Auth.AddRewardPoints(st, outcome.item.points, remoteOk);
        user := PendingPromise;
      }
    }
  }

  /** A signed-in user with 40 points files a flood report as written: the store is credited to
      55, yet the navigation bar shows 0 points and no name. */
  method NavbarLosesUserAsWritten() returns (page: FloodPage, st: Browser.LocalStorage)
    ensures Auth.CurrentUser(st.items).Some? && Auth.CurrentUser(st.items).value.rewardPoints == 55
    ensures page.NavbarPoints() == 0 && page.NavbarName() == ""
  {
    var rohan := User("u1", "Rohan", "rohan@example.com", "400001", "Marine Drive", 40, "2024-01-01");
    st := new Browser.LocalStorage(map[Auth.AuthTokenKey := Browser.Raw("t"),
                                       Auth.UserKey := Browser.UserJson(rohan)]);
    page := new FloodPage(st);
    page.HandleImageProcessed("photo", "Minor flooding");
    page.HandleLocationSelected(Location("Dadar", 19.01, 72.84));
    var outcome := page.HandleSubmitAsWritten(st, 7, "2024-01-15T00:00:00.000Z", true);
    assert Auth.CurrentUser(st.items) == Some(Auth.Credited(rohan, 15));
  }

  /** The same submission with the intended handler: the navigation bar shows 55 and the name. */
  method NavbarKeepsUser() returns (page: FloodPage, st: Browser.LocalStorage)
    ensures page.NavbarPoints() == 55 && page.NavbarName() == "Rohan"
  {
    var rohan := User("u1", "Rohan", "rohan@example.com", "400001", "Marine Drive", 40, "2024-01-01");
    st := new Browser.LocalStorage(map[Auth.AuthTokenKey := Browser.Raw("t"),
                                       Auth.UserKey := Browser.UserJson(rohan)]);
    page := new FloodPage(st);
    page.HandleImageProcessed("photo", "Minor flooding");
    page.HandleLocationSelected(Location("Dadar", 19.01, 72.84));
    var outcome := page.HandleSubmit(st, 7, "2024-01-15T00:00:00.000Z", true);
  }
}
