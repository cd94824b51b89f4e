/** The waste classifier of src/utils/imageRecognition.ts: the nine labels, the label the mock
    recogniser picks, the "recyclable" test and the per-label recommendation table. */
module ImageRecognition {
  import opened Records
  import Text

  datatype WasteType =
    | RecyclablePaper | RecyclablePlastic | RecyclableGlass | RecyclableMetal
    | OrganicWaste | EWaste | HazardousWaste | NonRecyclableWaste | Unknown

  /** The label each type is shown and stored as. */
  function Label(t: WasteType): string
  {
    match t
    case RecyclablePaper => "Recyclable Paper"
    case RecyclablePlastic => "Recyclable Plastic"
    case RecyclableGlass => "Recyclable Glass"
    case RecyclableMetal => "Recyclable Metal"
    case OrganicWaste => "Organic Waste"
    case EWaste => "E-Waste"
    case HazardousWaste => "Hazardous Waste"
    case NonRecyclableWaste => "Non-recyclable Waste"
    case Unknown => "Unknown"
  }

  /** The type a label names, if any: the key lookup of the recommendation record. */
  function ParseLabel(s: string): (t: Option<WasteType>)
    ensures t.Some? ==> Label(t.value) == s
  {
    if s == "Recyclable Paper" then Some(RecyclablePaper)
    else if s == "Recyclable Plastic" then Some(RecyclablePlastic)
    else if s == "Recyclable Glass" then Some(RecyclableGlass)
    else if s == "Recyclable Metal" then Some(RecyclableMetal)
    else if s == "Organic Waste" then Some(OrganicWaste)
    else if s == "E-Waste" then Some(EWaste)
    else if s == "Hazardous Waste" then Some(HazardousWaste)
    else if s == "Non-recyclable Waste" then Some(NonRecyclableWaste)
    else if s == "Unknown" then Some(Unknown)
    else None
  }

  /** Every label is recognised as its own type. */
  lemma ParseLabelInvertsLabel(t: WasteType)
    ensures ParseLabel(Label(t)) == Some(t)
  {
  }

  /** The labels the mock recogniser chooses from, in table order. */
  const Identifiable: seq<WasteType> := [
    RecyclablePaper, RecyclablePlastic, RecyclableGlass, RecyclableMetal,
    OrganicWaste, EWaste, HazardousWaste, NonRecyclableWaste]

  /** `identifyWasteType`: one of the eight listed labels, never 'Unknown'. The delay and the
      random index are not modelled; the choice is left open. */
  method IdentifyWasteType() returns (t: WasteType)
    ensures t in Identifiable
    ensures t != Unknown
  {
    var i :| 0 <= i < |Identifiable|;
    t := Identifiable[i];
  }

  /** `wasteType.toLowerCase().includes('recyclable')`. */
  predicate IsRecyclable(name: string)
  {
    Text.Contains(Text.Lower(name), "recyclable")
  }

  /** A string without some character of `sub` cannot contain `sub`. */
  lemma MissingCharNoOccurrence(s: string, sub: string, k: nat)
    requires k < |sub|
    requires forall i :: 0 <= i < |s| ==> s[i] != sub[k]
    ensures !Text.Contains(s, sub)
  {
    forall i | 0 <= i <= |s| - |sub|
      ensures !Text.OccursAt(s, sub, i)
    {
      assert s[i..i + |sub|][k] == s[i + k] != sub[k];
    }
  }

  /** A label without 'y' in either case is not recyclable ("recyclable" has one). */
  lemma NoYNotRecyclable(name: string)
    requires forall i :: 0 <= i < |name| ==> name[i] != 'y' && name[i] != 'Y'
    ensures !IsRecyclable(name)
  {
    var lower := Text.Lower(name);
    forall i | 0 <= i < |lower|
      ensures lower[i] != 'y'
    {
      assert lower[i] == Text.LowerChar(name[i]);
    }
    MissingCharNoOccurrence(lower, "recyclable", 3);
  }

  /** A label holding a word that lower-cases to "recyclable" is recyclable, wherever it stands. */
  lemma WordMakesRecyclable(pre: string, word: string, post: string)
    requires |word| == 10
    requires forall i :: 0 <= i < 10 ==> Text.LowerChar(word[i]) == "recyclable"[i]
    ensures IsRecyclable(pre + word + post)
  {
    var s := pre + word + post;
    var lower := Text.Lower(s);
    forall i | 0 <= i < 10
      ensures lower[|pre| + i] == "recyclable"[i]
    {
      assert s[|pre| + i] == word[i];
    }
    assert lower[|pre|..|pre| + 10] == "recyclable";
    assert Text.OccursAt(lower, "recyclable", |pre|);
  }

  /** The four "Recyclable ..." labels are recyclable. */
  lemma RecyclableLabels(t: WasteType)
    requires t == RecyclablePaper || t == RecyclablePlastic || t == RecyclableGlass || t == RecyclableMetal
    ensures IsRecyclable(Label(t))
  {
    var rest := Label(t)[10..];
    assert Label(t) == "" + "Recyclable" + rest;
    WordMakesRecyclable("", "Recyclable", rest);
  }

  /** 'Non-recyclable Waste' also passes the test: its label contains the word. */
  lemma NonRecyclableCountsAsRecyclable()
    ensures IsRecyclable(Label(NonRecyclableWaste))
  {
    assert Label(NonRecyclableWaste) == "Non-" + "recyclable" + " Waste";
    WordMakesRecyclable("Non-", "recyclable", " Waste");
  }

  /** 'Organic Waste', 'E-Waste', 'Hazardous Waste' and 'Unknown' are not recyclable. */
  lemma OtherLabelsNotRecyclable(t: WasteType)
    requires t == OrganicWaste || t == EWaste || t == HazardousWaste || t == Unknown
    ensures !IsRecyclable(Label(t))
  {
    var s := Label(t);
    forall i | 0 <= i < |s|
      ensures s[i] != 'y' && s[i] != 'Y'
    {
    }
    NoYNotRecyclable(s);
  }

  /** The per-type table of `getWasteRecommendations`. */
  function Recommendations(t: WasteType): (r: seq<string>)
    ensures t == Unknown ==> |r| == 3
    ensures t != Unknown ==> |r| == 4
  {
    match t
    case RecyclablePaper => [
      "Remove any plastic or metal attachments",
      "Keep paper dry and clean",
      "Flatten cardboard boxes",
      "Check with local recycling center for specific guidelines"]
    case RecyclablePlastic => [
      "Rinse containers to remove food residue",
      "Remove caps and lids",
      "Check the recycling number (1-7) at the bottom",
      "Compress bottles to save space"]
    case RecyclableGlass => [
      "Rinse thoroughly",
      "Separate by color if required locally",
      "Remove lids and corks",
      "Don't break the glass - it's easier to recycle whole"]
    case RecyclableMetal => [
      "Rinse food cans",
      "Remove paper labels when possible",
      "Compress to save space",
      "Keep aerosol cans separate"]
    case OrganicWaste => [
      "Use for composting",
      "Remove any non-biodegradable wrappers",
      "Consider a home composting system",
      "Check for local municipal composting programs"]
    case EWaste => [
      "Never throw in regular trash",
      "Find authorized e-waste collection centers",
      "Wipe personal data before disposal",
      "Consider donating working electronics"]
    case HazardousWaste => [
      "Never mix with regular waste",
      "Store in original containers",
      "Take to designated hazardous waste facilities",
      "Follow local disposal guidelines carefully"]
    case NonRecyclableWaste => [
      "Reduce usage of non-recyclable items",
      "Look for recyclable alternatives",
      "Dispose according to local guidelines",
      "Consider reuse options before disposal"]
    case Unknown => [
      "Check with local waste management for proper disposal",
      "Consider if the item can be reused or repurposed",
      "Look for recycling symbols or markings on the item"]
  }

  /** `recommendations[wasteType] || recommendations['Unknown']`, for the label string the page
      holds: a known label gets its own list, any other string the 'Unknown' list. */
  function WasteRecommendations(name: string): (r: seq<string>)
    ensures ParseLabel(name).Some? ==> r == Recommendations(ParseLabel(name).value)
    ensures ParseLabel(name).None? ==> r == Recommendations(Unknown)
    ensures 3 <= |r| <= 4
  {
    match ParseLabel(name)
    case Some(t) => Recommendations(t)
    case None => Recommendations(Unknown)
  }

  /** Every type gets its own list back through its label. */
  lemma RecommendationsByLabel(t: WasteType)
    ensures WasteRecommendations(Label(t)) == Recommendations(t)
  {
    ParseLabelInvertsLabel(t);
  }
}
