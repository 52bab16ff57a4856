/** The GAD-7 anxiety questionnaire as both check-in programs use it: seven
    items scored 0 to 3, a total of 0 to 21, severity bands with cut-offs at
    5, 10 and 15, and the "highest-scoring item" chosen by first occurrence
    of the maximum. */
module Gad7 {
  import opened Sequences

  /** Number of questionnaire items. */
  const ItemCount: nat := 7

  /** Every item score lies in 0..3. */
  predicate ValidScores(scores: seq<int>) {
    forall i :: 0 <= i < |scores| ==> 0 <= scores[i] <= 3
  }

  /** The total of the item scores (`reduce((sum, score) => sum + score, 0)`,
      `total_score += score`). */
  function Sum(scores: seq<int>): (total: int)
    ensures ValidScores(scores) ==> 0 <= total <= 3 * |scores|
  {
    if scores == [] then 0 else Sum(scores[..|scores| - 1]) + scores[|scores| - 1]
  }

  lemma SumAppend(scores: seq<int>, x: int)
    ensures Sum(scores + [x]) == Sum(scores) + x
  {
    assert (scores + [x])[..|scores|] == scores;
  }

  datatype Severity = Minimal | Mild | Moderate | Severe

  /** The severity band of a total score. */
  function SeverityOf(total: int): (sev: Severity)
    ensures sev == Minimal <==> total <= 4
    ensures sev == Mild <==> 5 <= total <= 9
    ensures sev == Moderate <==> 10 <= total <= 14
    ensures sev == Severe <==> 15 <= total
  {
    if total <= 4 then Minimal
    else if total <= 9 then Mild
    else if total <= 14 then Moderate
    else Severe
  }

  /** The label both programs print for a band. */
  function SeverityName(sev: Severity): string {
    match sev
    case Minimal => "Minimal"
    case Mild => "Mild"
    case Moderate => "Moderate"
    case Severe => "Severe"
  }

  /** Position of a band in the order Minimal < Mild < Moderate < Severe. */
  function Rank(sev: Severity): nat {
    match sev
    case Minimal => 0
    case Mild => 1
    case Moderate => 2
    case Severe => 3
  }

  /** A higher total never falls into a lower band. */
  lemma SeverityMonotone(a: int, b: int)
    requires a <= b
    ensures Rank(SeverityOf(a)) <= Rank(SeverityOf(b))
  {
  }

  /** The professional-support advice is given for totals of 10 and above. */
  predicate RecommendsProfessionalSupport(total: int) {
    total >= 10
  }

  /** The advice is given exactly for the Moderate and Severe bands. */
  lemma AdviceIffModerateOrSevere(total: int)
    ensures RecommendsProfessionalSupport(total) <==> SeverityOf(total) in {Moderate, Severe}
  {
  }

  /** `Math.max(...scores)` / `max(scores)`. */
  function Max(scores: seq<int>): (m: int)
    requires |scores| > 0
    ensures m in scores
    ensures forall i :: 0 <= i < |scores| ==> scores[i] <= m
  {
    if |scores| == 1 then scores[0]
    else
      var rest := Max(scores[1..]);
      if scores[0] >= rest then scores[0] else rest
  }

  /** The item the personalised advice is about: the index of the maximum,
      taken at its first occurrence. */
  function HighestIndex(scores: seq<int>): (k: nat)
    requires |scores| > 0
    ensures k < |scores|
    ensures forall j :: 0 <= j < |scores| ==> scores[j] <= scores[k]
    ensures forall j :: 0 <= j < k ==> scores[j] < scores[k]
  {
    IndexOf(scores, Max(scores))
  }

  /** The first-occurrence rule decides ties: in [1,3,0,2,3,1,0] the maximum 3
      occurs at indexes 1 and 4, and index 1 is chosen. */
  lemma FirstOccurrenceWins()
    ensures HighestIndex([1, 3, 0, 2, 3, 1, 0]) == 1
  {
    var s := [1, 3, 0, 2, 3, 1, 0];
    var k := HighestIndex(s);
    assert s[1] <= s[k];
  }
}
