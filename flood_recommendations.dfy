/** The flood advice table of src/components/flood/FloodRecommendations.tsx, repeated verbatim as
    `getFloodRecommendations` in src/pages/Flood.tsx: three labels with their own advice, and a
    fixed default for every other label. */
module FloodRecommendations {
  const FloodIdentified := "Flood area identified"
  const MinorFlooding := "Minor flooding"
  const SevereFlooding := "Severe flooding"

  /** The `recommendations` record. */
  const Table: map<string, seq<string>> := map[
    FloodIdentified := [
      "Stay away from flooded areas",
      "Do not attempt to walk or drive through flooded areas",
      "Move to higher ground if in danger",
      "Follow instructions from local authorities"],
    MinorFlooding := [
      "Avoid walking through moving water",
      "Be prepared to evacuate if necessary",
      "Keep important documents in waterproof containers",
      "Turn off electricity if water has entered your home"],
    SevereFlooding := [
      "Evacuate immediately if instructed",
      "Do not touch electrical equipment if wet",
      "Avoid contact with flood water as it may be contaminated",
      "Report broken utility lines to authorities"]]

  /** The list after `||`, for any label the record does not hold. */
  const Default: seq<string> := [
    "Report the flood to local authorities",
    "Stay informed about weather updates",
    "Prepare an emergency kit",
    "Follow evacuation routes if necessary"]

  /** `recommendations[type] || [...]`. */
  function FloodRecommendations(kind: string): (r: seq<string>)
    ensures kind in Table ==> r == Table[kind]
    ensures kind !in Table ==> r == Default
    ensures |r| == 4
  {
    if kind in Table then Table[kind] else Default
  }

  /** The record holds exactly the three known labels. */
  lemma KnownLabels(kind: string)
    ensures kind in Table <==> kind == FloodIdentified || kind == MinorFlooding || kind == SevereFlooding
  {
  }

  /** Each known label gets advice of its own, different from the other labels' and from the
      default, so the fallback never hides behind a known label. */
  lemma AdviceDistinguishesLabels(a: string, b: string)
    requires a in Table && b in Table && a != b
    ensures FloodRecommendations(a) != FloodRecommendations(b)
    ensures FloodRecommendations(a) != Default
  {
    assert FloodRecommendations(a)[0] != FloodRecommendations(b)[0];
    assert FloodRecommendations(a)[0] != Default[0];
  }
}
