/** The waste page, src/pages/Waste.tsx: its component state, the mount effect, the form
    setters and `handleSubmit`. */
module WastePage {
  import opened Records
  import Browser
  import Auth
  import Reports

  class WastePage {
    var authenticated: bool
    /** The last `navigate(...)` target, if any. */
    var route: Option<string>
    var user: Option<User>
    var image: Option<string>
    var wasteType: Option<string>
    var location: Option<Location>
    var comment: string
    var reportedItems: seq<ReportedItem>
    var isSubmitting: bool

    /** The `useState` initial values; `user` starts as `getCurrentUser()`. */
    constructor (st: Browser.LocalStorage)
      ensures user == Auth.CurrentUser(st.items)
      ensures !authenticated && route == None
      ensures image == None && wasteType == None && location == None && comment == ""
      ensures reportedItems == [] && !isSubmitting
    {
      authenticated, route := false, None;
      user := Auth.CurrentUser(st.items);
      image, wasteType, location, comment := None, None, None, "";
      reportedItems, isSubmitting := [], false;
    }

    /** The submit button is rendered (all three inputs present) and enabled (not submitting). */
    predicate CanSubmit()
      reads this
    {
      !Reports.MissingInfo(image, wasteType, location) && !isSubmitting
    }

    /** The mount effect: redirect a visitor without a session to /login; otherwise refresh the
        user and load the stored list. */
    method Mount(st: Browser.LocalStorage)
      modifies this
      ensures authenticated == Auth.IsAuthenticated(st.items)
      ensures !authenticated ==>
        route == Some("/login") && user == old(user) && reportedItems == old(reportedItems)
      ensures authenticated ==>
        route == old(route) && user == Auth.CurrentUser(st.items)
        && reportedItems == Reports.LoadedList(st.items, Reports.Waste, old(reportedItems))
      ensures image == old(image) && wasteType == old(wasteType) && location == old(location)
      ensures comment == old(comment) && isSubmitting == old(isSubmitting)
    {
      authenticated := Auth.IsAuthenticated(st.items);
      if !authenticated {
        route := Some("/login");
        return;
      }
      user := Auth.CurrentUser(st.items);
      reportedItems := Reports.LoadedList(st.items, Reports.Waste, reportedItems);
    }

    /** The image uploader reports the picture and the label it was classified as. */
    method HandleImageProcessed(imageUrl: string, kind: string)
      modifies this`image, this`wasteType
      ensures image == Some(imageUrl) && wasteType == Some(kind)
    {
      image, wasteType := Some(imageUrl), Some(kind);
    }

    method HandleLocationSelected(loc: Location)
      modifies this`location
      ensures location == Some(loc)
    {
      location := Some(loc);
    }

    method HandleCommentChange(text: string)
      modifies this`comment
      ensures comment == text
    {
      comment := text;
    }

    /** What a call of `handleSubmit` records, from the state it started in: either nothing (the
        gate refused), or the new report prepended, the whole list persisted, and, when the page
        has a user, the report's own points credited if the remote update succeeds. */
    twostate predicate Recorded(st: Browser.LocalStorage, now: nat, timestamp: string, remoteOk: bool,
                                outcome: Reports.SubmitOutcome)
      reads this, st
    {
      if Reports.MissingInfo(old(image), old(wasteType), old(location)) then
        && outcome == Reports.MissingInformation
        && user == old(user) && reportedItems == old(reportedItems) && st.items == old(st.items)
      else
        var item := Reports.NewReport(Reports.Waste, now, old(image).value, old(wasteType).value,
                                      old(location).value, old(comment), timestamp);
        var saved := old(st.items)[Reports.ListKey(Reports.Waste) :=
                                   Browser.ItemsJson(Reports.Prepend(item, old(reportedItems)))];
        var signedIn := Auth.CurrentUser(old(st.items));
        && outcome == Reports.Submitted(item)
        && reportedItems == Reports.Prepend(item, old(reportedItems))
        && if old(user).Some? && signedIn.Some? && remoteOk then
             var credited := Auth.Credited(signedIn.value, item.points);
             st.items == saved[Auth.UserKey := Browser.UserJson(credited)] && user == Some(credited)
           else
             st.items == saved && user == old(user)
    }

    /** `handleSubmit` up to the success toast: the gate, the new report, the list update and
        its persistence, and the awaited credit whose failure is swallowed. */
    method SubmitReport(st: Browser.LocalStorage, now: nat, timestamp: string, remoteOk: bool)
      returns (outcome: Reports.SubmitOutcome)
      modifies this, st
      ensures Recorded(st, now, timestamp, remoteOk, outcome)
      ensures image == old(image) && wasteType == old(wasteType) && location == old(location)
      ensures comment == old(comment)
      ensures authenticated == old(authenticated) && route == old(route)
      ensures isSubmitting == (outcome.Submitted? || old(isSubmitting))
    {
      if Reports.MissingInfo(image, wasteType, location) {
        return Reports.MissingInformation;
      }
      isSubmitting := true;
      var item := Reports.NewReport(Reports.Waste, now, image.value, wasteType.value,
                                    location.value, comment, timestamp);
      var updated := Reports.Prepend(item, reportedItems);
      reportedItems := updated;
      st.SetItem(Reports.ListKey(Reports.Waste), Browser.ItemsJson(updated));
      if user.Some? {
        var credit := Auth.AddRewardPoints(st, item.points, remoteOk);
        if credit.Success? {
          user := Some(credit.value);
        }
      }
      outcome := Reports.Submitted(item);
    }

    /** The reset at the end of `handleSubmit`. */
    method ResetForm()
      modifies this`image, this`wasteType, this`location, this`comment, this`isSubmitting
      ensures image == None && wasteType == None && location == None && comment == ""
      ensures !isSubmitting
    {
      image, wasteType, location, comment := None, None, None, "";
      isSubmitting := false;
    }

    /** `handleSubmit` as intended: after recording, the form is cleared and the button enabled. */
    method HandleSubmit(st: Browser.LocalStorage, now: nat, timestamp: string, remoteOk: bool)
      returns (outcome: Reports.SubmitOutcome)
      modifies this, st
      ensures Recorded(st, now, timestamp, remoteOk, outcome)
      ensures outcome.MissingInformation? ==>
        image == old(image) && wasteType == old(wasteType) && location == old(location)
        && comment == old(comment) && isSubmitting == old(isSubmitting)
      ensures outcome.Submitted? ==>
        image == None && wasteType == None && location == None && comment == "" && !isSubmitting
      ensures authenticated == old(authenticated) && route == old(route)
    {
      outcome := SubmitReport(st, now, timestamp, remoteOk);
      if outcome.Submitted? {
        ResetForm();
      }
    }

    /** `handleSubmit` as written: `toast` is read from `useToast()`, which has no such member, so
        the call that should announce success throws and the reset after it never runs. The
        report stays recorded, the form keeps its values and `isSubmitting` stays true. */
    method HandleSubmitAsWritten(st: Browser.LocalStorage, now: nat, timestamp: string, remoteOk: bool)
      returns (outcome: Reports.SubmitOutcome)
      modifies this, st
      ensures Recorded(st, now, timestamp, remoteOk, outcome)
      ensures image == old(image) && wasteType == old(wasteType) && location == old(location)
      ensures comment == old(comment)
      ensures outcome.Submitted? ==> isSubmitting && !CanSubmit()
      ensures authenticated == old(authenticated) && route == old(route)
    {
      outcome := SubmitReport(st, now, timestamp, remoteOk);
    }
  }

  /** One submission as written, then a completely new report filled in: the button stays disabled. */
  method SecondReportBlockedAsWritten() returns (page: WastePage)
    ensures !Reports.MissingInfo(page.image, page.wasteType, page.location)
    ensures page.isSubmitting && !page.CanSubmit()
  {
    var st := new Browser.LocalStorage(map[]);
    page := new WastePage(st);
    page.HandleImageProcessed("photo-1", "Organic Waste");
    page.HandleLocationSelected(Location("Marine Drive", 18.94, 72.82));
    var first := page.HandleSubmitAsWritten(st, 1, "2024-01-01T00:00:00.000Z", true);
    assert first.Submitted?;
    page.HandleImageProcessed("photo-2", "E-Waste");
    page.HandleLocationSelected(Location("Dadar", 19.01, 72.84));
  }

  /** The same sequence with the intended handler: the second report can be submitted. */
  method SecondReportAllowed() returns (page: WastePage)
    ensures !Reports.MissingInfo(page.image, page.wasteType, page.location)
    ensures page.CanSubmit()
  {
    var st := new Browser.LocalStorage(map[]);
    page := new WastePage(st);
    page.HandleImageProcessed("photo-1", "Organic Waste");
    page.HandleLocationSelected(Location("Marine Drive", 18.94, 72.82));
    var first := page.HandleSubmit(st, 1, "2024-01-01T00:00:00.000Z", true);
    assert first.Submitted?;
    page.HandleImageProcessed("photo-2", "E-Waste");
    page.HandleLocationSelected(Location("Dadar", 19.01, 72.84));
  }
}
