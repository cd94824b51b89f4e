/** The electricity advice table of
    src/components/electricity/ElectricityRecommendations.tsx: three issue labels with their own
    advice, and a fixed default for every other label. */
module ElectricityRecommendations {
  const IssueIdentified := "Electricity issue identified"
  const PowerOutage := "Power outage"
  const DamagedInfrastructure := "Damaged infrastructure"

  /** The `recommendations` record. */
  const Table: map<string, seq<string>> := map[
    IssueIdentified := [
      "Stay away from fallen power lines",
      "Report the issue to your electricity provider",
      "Turn off appliances during power outages",
      "Use flashlights instead of candles during outages"],
    PowerOutage := [
      "Keep refrigerator and freezer doors closed",
      "Unplug electronic devices to protect from surges",
      "Check if neighbors are also affected",
      "Contact electricity provider for estimated restoration time"],
    DamagedInfrastructure := [
      "Do not approach damaged electrical equipment",
      "Keep a safe distance from fallen power lines",
      "Report immediately to emergency services",
      "Warn others to stay away from the area"]]

  /** The list after `||`, for any label the record does not hold. */
  const Default: seq<string> := [
    "Report the issue to your electricity provider",
    "Follow safety guidelines for electrical issues",
    "Keep emergency contact numbers handy",
    "Use battery-powered devices during outages"]

  /** `recommendations[type] || [...]`. */
  function ElectricityRecommendations(kind: string): (r: seq<string>)
    ensures kind in Table ==> r == Table[kind]
    ensures kind !in Table ==> r == Default
    ensures |r| == 4
  {
    if kind in Table then Table[kind] else Default
  }

  /** The record holds exactly the three known labels. */
  lemma KnownLabels(kind: string)
    ensures kind in Table <==> kind == IssueIdentified || kind == PowerOutage || kind == DamagedInfrastructure
  {
  }

  /** Each known label gets advice of its own, different from the other labels' and from the
      default, so the fallback never hides behind a known label. */
  lemma AdviceDistinguishesLabels(a: string, b: string)
    requires a in Table && b in Table && a != b
    ensures ElectricityRecommendations(a) != ElectricityRecommendations(b)
    ensures ElectricityRecommendations(a) != Default
  {
    assert ElectricityRecommendations(a)[0] != ElectricityRecommendations(b)[0];
    assert ElectricityRecommendations(a)[0] != Default[0];
  }
}
