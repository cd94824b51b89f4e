/** The static profile page script, profile.js: the report list filtered by category tab,
    `capitalizeFirstLetter`, and `updateProfile`, which overwrites the profile record in place.
    The sample records themselves are the page's initial state, passed to the constructor. */
module ProfileScript {
  import Text

  /** One entry of `reportsData`. */
  datatype SampleReport = SampleReport(id: int, title: string, location: string, date: string,
                                       category: string, image: string)

  /** The `userData` record. */
  datatype ProfileData = ProfileData(name: string, email: string, location: string,
                                     pincode: string, address: string, rewardPoints: int,
                                     totalReports: int)

  /** `reports.filter(report => report.category === category)`. */
  function WithCategory(reports: seq<SampleReport>, category: string): (r: seq<SampleReport>)
    ensures |r| <= |reports|
    ensures forall i :: 0 <= i < |r| ==> r[i].category == category
    ensures forall x :: x in r <==> x in reports && x.category == category
  {
    if reports == [] then []
    else if reports[0].category == category then [reports[0]] + WithCategory(reports[1..], category)
    else WithCategory(reports[1..], category)
  }

  /** The filter keeps the original order: it distributes over concatenation. */
  lemma {:induction false} WithCategoryConcat(a: seq<SampleReport>, b: seq<SampleReport>, category: string)
    ensures WithCategory(a + b, category) == WithCategory(a, category) + WithCategory(b, category)
  {
    if a == [] {
      assert a + b == b;
    } else {
      assert (a + b)[1..] == a[1..] + b;
      WithCategoryConcat(a[1..], b, category);
    }
  }

  /** A tab whose category every report has shows the whole list. */
  lemma {:induction false} WithCategoryKeepsMatching(reports: seq<SampleReport>, category: string)
    requires forall i :: 0 <= i < |reports| ==> reports[i].category == category
    ensures WithCategory(reports, category) == reports
  {
    if reports != [] {
      WithCategoryKeepsMatching(reports[1..], category);
    }
  }

  /** The reports a tab shows: all of them for 'all', else those of that category. */
  function Filtered(reports: seq<SampleReport>, category: string): (r: seq<SampleReport>)
    ensures category == "all" ==> r == reports
    ensures category != "all" ==> r == WithCategory(reports, category)
  {
    if category == "all" then reports else WithCategory(reports, category)
  }

  /** `capitalizeFirstLetter`: the first character upper-cased, the rest as it was. */
  function CapitalizeFirstLetter(s: string): (r: string)
    ensures |r| == |s|
    ensures s != "" ==> r[0] == Text.UpperChar(s[0]) && r[1..] == s[1..]
  {
    if s == "" then "" else [Text.UpperChar(s[0])] + s[1..]
  }

  /** Capitalising twice is capitalising once. */
  lemma CapitalizeIdempotent(s: string)
    ensures CapitalizeFirstLetter(CapitalizeFirstLetter(s)) == CapitalizeFirstLetter(s)
  {
    if s != "" {
      var c := CapitalizeFirstLetter(s);
      assert Text.UpperChar(c[0]) == c[0];
      assert c == [c[0]] + c[1..];
    }
  }

  class ProfilePage {
    var userData: ProfileData
    const reportsData: seq<SampleReport>
    /** The elements in the reports list, in order, and whether it holds the "No reports found
        for this category." message instead. */
    var reportElements: seq<SampleReport>
    var noReportsMessage: bool
    /** The texts of the `user-name` and `user-email` elements. */
    var shownName: string
    var shownEmail: string

    /** The `DOMContentLoaded` handler: `updateUserInfo()`, then `displayReports('all')`. */
    constructor (userData: ProfileData, reportsData: seq<SampleReport>)
      ensures this.userData == userData && this.reportsData == reportsData
      ensures reportElements == reportsData && (noReportsMessage <==> reportsData == [])
      ensures shownName == userData.name && shownEmail == userData.email
    {
      this.userData := userData;
      this.reportsData := reportsData;
      reportElements, noReportsMessage := [], false;
      shownName, shownEmail := userData.name, userData.email;
      new;
      DisplayReports("all");
    }

    /** `displayReports(category)`: clear the list, then either the empty message or one
        element per shown report, in order. */
    method DisplayReports(category: string)
      modifies this`reportElements, this`noReportsMessage
      ensures noReportsMessage <==> Filtered(reportsData, category) == []
      ensures reportElements == Filtered(reportsData, category)
    {
      reportElements, noReportsMessage := [], false;
      var filtered := if category == "all" then reportsData else WithCategory(reportsData, category);
      if |filtered| == 0 {
        noReportsMessage := true;
        return;
      }
      var i := 0;
      while i < |filtered|
        invariant 0 <= i <= |filtered|
        invariant reportElements == filtered[..i] && !noReportsMessage
      {
        reportElements := reportElements + [filtered[i]];
        i := i + 1;
      }
    }

    /** `updateProfile`: the four form values overwrite the record's name, email, pincode and
        address; every other field stays. The header shows the new name and email. */
    method UpdateProfile(name: string, email: string, pincode: string, address: string)
      modifies this`userData, this`shownName, this`shownEmail
      ensures userData == old(userData).(name := name, email := email, pincode := pincode,
                                         address := address)
      ensures userData.rewardPoints == old(userData).rewardPoints
      ensures userData.totalReports == old(userData).totalReports
      ensures userData.location == old(userData).location
      ensures shownName == name && shownEmail == email
    {
      userData := userData.(name := name);
      userData := userData.(email := email);
      userData := userData.(pincode := pincode);
      userData := userData.(address := address);
      shownName, shownEmail := name, email;
    }
  }
}
