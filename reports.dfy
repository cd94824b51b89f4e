/** What the three report pages (src/pages/Waste.tsx, Flood.tsx, Electricity.tsx) share: the
    report each submission builds, the list it is prepended to and persisted as, the
    "required information" gate, the mount-time load, and the two display rules of the
    "Your Recent Reports" card. */
module Reports {
  import opened Records
  import Text
  import Browser
  import Auth

  datatype Category = Waste | Flood | Electricity

  /** How a submission ended: stopped by the required-information gate, or recorded. */
  datatype SubmitOutcome = MissingInformation | Submitted(item: ReportedItem)

  /** Points a report of each category is worth, fixed at creation. */
  function PointsFor(c: Category): (p: int)
    ensures p > 0
    ensures c == Waste ==> p == 10
    ensures c == Flood ==> p == 15
    ensures c == Electricity ==> p == 12
  {
    match c
    case Waste => 10
    case Flood => 15
    case Electricity => 12
  }

  function IdPrefix(c: Category): string
  {
    match c
    case Waste => "waste_"
    case Flood => "flood_"
    case Electricity => "electricity_"
  }

  /** The browser-store key each page persists its whole list under. */
  function ListKey(c: Category): (k: string)
    ensures k != Auth.AuthTokenKey && k != Auth.UserKey
  {
    match c
    case Waste => "reported_waste_items"
    case Flood => "reported_flood_items"
    case Electricity => "reported_electricity_items"
  }

  lemma ListKeysDistinct(c: Category, d: Category)
    requires c != d
    ensures ListKey(c) != ListKey(d)
  {
  }

  /** The report a submission builds; `now` is `Date.now()` and `timestamp` the ISO time. */
  function NewReport(c: Category, now: nat, image: string, kind: string, location: Location,
                     comment: string, timestamp: string): (item: ReportedItem)
    ensures item.points == PointsFor(c)
    ensures |item.id| > |IdPrefix(c)| && item.id[..|IdPrefix(c)|] == IdPrefix(c)
    ensures item.id[|IdPrefix(c)|..] == Text.Decimal(now)
    ensures item.image == image && item.kind == kind && item.location == location
    ensures item.comment == comment && item.timestamp == timestamp
  {
    ReportedItem(IdPrefix(c) + Text.Decimal(now), image, kind, location, comment, timestamp,
                 PointsFor(c))
  }

  /** Reports built at different clock readings have different ids. */
  lemma NewReportIdsDiffer(c: Category, m: nat, n: nat,
                           i1: string, k1: string, l1: Location, c1: string, t1: string,
                           i2: string, k2: string, l2: Location, c2: string, t2: string)
    requires m != n
    ensures NewReport(c, m, i1, k1, l1, c1, t1).id != NewReport(c, n, i2, k2, l2, c2, t2).id
  {
    Text.PrefixedDecimalInjective(IdPrefix(c), m, n);
  }

  /** `[newItem, ...reportedItems]`. */
  function Prepend(item: ReportedItem, items: seq<ReportedItem>): (r: seq<ReportedItem>)
    ensures |r| == |items| + 1
    ensures r[0] == item
    ensures r[1..] == items
    ensures forall i :: 0 <= i < |items| ==> r[i + 1] == items[i]
  {
    [item] + items
  }

  /** `!image || !type || !location`: an absent value and the empty string are both missing. */
  predicate MissingInfo(image: Option<string>, kind: Option<string>, location: Option<Location>)
  {
    image.None? || image.value == "" || kind.None? || kind.value == "" || location.None?
  }

  /** The mount-time load: `if (items) setReportedItems(JSON.parse(items))`. A stored list
      replaces the current one; an absent key, or one holding no list, keeps it. */
  function LoadedList(items: Browser.Store, c: Category, current: seq<ReportedItem>): (r: seq<ReportedItem>)
    ensures ListKey(c) in items && items[ListKey(c)].ItemsJson? ==> r == items[ListKey(c)].items
    ensures ListKey(c) !in items ==> r == current
    ensures ListKey(c) in items && !items[ListKey(c)].ItemsJson? ==> r == current
  {
    if ListKey(c) in items && items[ListKey(c)].ItemsJson? then items[ListKey(c)].items else current
  }

  /** `reportedItems.slice(0, 3)`: the recent-reports card shows the first three, newest first. */
  function RecentReports(items: seq<ReportedItem>): (r: seq<ReportedItem>)
    ensures |r| <= 3
    ensures |r| == Text.Min(3, |items|)
    ensures forall i :: 0 <= i < |r| ==> r[i] == items[i]
  {
    Text.Prefix(items, 3)
  }

  /** A just-submitted report is the first one the recent-reports card shows. */
  lemma NewestShownFirst(item: ReportedItem, items: seq<ReportedItem>)
    ensures RecentReports(Prepend(item, items))[0] == item
    ensures RecentReports(Prepend(item, items))[1..] == RecentReports(items)[..Text.Min(2, |items|)]
  {
  }

  /** `comment.length > 50 ? comment.substring(0, 50) + '...' : comment`. */
  function ShownComment(comment: string): (r: string)
    ensures |comment| <= 50 ==> r == comment
    ensures |comment| > 50 ==> |r| == 53 && r[..50] == comment[..50] && r[50..] == "..."
    ensures |r| <= 53
  {
    if |comment| > 50 then Text.Prefix(comment, 50) + "..." else comment
  }
}
