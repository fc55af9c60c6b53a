/**
 * `calculate_confidence_score`: a 0-100 estimate of how complete the slot set
 * is. Scores are exact reals; every weight, bonus and the 0.3 factor is exact
 * in tenths.
 */
module Confidence {
  import opened Slots
  import opened Phases

  /** Slot weights, in the order the source iterates them. */
  const Weights: seq<(string, real)> := [(Obiettivo, 35.0), (Contesto, 25.0), (Vincoli, 20.0), (OutputFormat, 10.0), (Role, 10.0)]

  /** A value longer than this earns the detail bonus of a fifth of its weight. */
  const DetailLength := 20

  predicate NonNegativeWeights(ws: seq<(string, real)>) {
    forall i :: 0 <= i < |ws| ==> ws[i].1 >= 0.0
  }

  /** The points one slot contributes: its weight if populated, plus 20% if detailed. */
  function SlotPoints(info: SlotSet, slot: string, weight: real): real {
    if Truthy(info, slot) then weight + (if |info[slot]| > DetailLength then weight * 0.2 else 0.0) else 0.0
  }

  /** The weighted sum over a list of weights, built up from the front as the source's loop does. */
  function WeightedPoints(info: SlotSet, ws: seq<(string, real)>): (r: real)
    requires NonNegativeWeights(ws)
    ensures r >= 0.0
  {
    if ws == [] then 0.0
    else WeightedPoints(info, ws[..|ws| - 1]) + SlotPoints(info, ws[|ws| - 1].0, ws[|ws| - 1].1)
  }

  /** The phases in which a missing objective cuts the score to 30%. */
  predicate AdvancedPhase(p: Phase) {
    p == Refine || p == Validate
  }

  /** +10 for four or more populated values, +5 for exactly three. */
  function CompletenessBonus(count: nat): real {
    if count >= 4 then 10.0 else if count >= 3 then 5.0 else 0.0
  }

  /** The score before the cap at 100. */
  function RawScore(info: SlotSet, phase: Phase): real {
    var base := WeightedPoints(info, Weights);
    var penalized := if AdvancedPhase(phase) && !Truthy(info, Obiettivo) then base * 0.3 else base;
    penalized + CompletenessBonus(PopulatedCount(info))
  }

  /** The confidence score of a slot set in a phase. */
  function Score(info: SlotSet, phase: Phase): (r: real)
    ensures 0.0 <= r <= 100.0
    ensures r == RawScore(info, phase) || (r == 100.0 && RawScore(info, phase) > 100.0)
  {
    var total := RawScore(info, phase);
    if total <= 100.0 then total else 100.0
  }

  /** `calculate_confidence_score`, accumulating the weights in a loop. */
  method CalculateConfidenceScore(info: SlotSet, phase: Phase) returns (score: real)
    ensures score == Score(info, phase)
  {
    score := 0.0;
    for i := 0 to |Weights|
      invariant score == WeightedPoints(info, Weights[..i])
    {
      var (key, weight) := Weights[i];
      assert Weights[..i + 1][..i] == Weights[..i];
      if Truthy(info, key) {
        score := score + weight;
        if |info[key]| > DetailLength {
          score := score + weight * 0.2;
        }
      }
    }
    assert Weights[..|Weights|] == Weights;
    if AdvancedPhase(phase) && !Truthy(info, Obiettivo) {
      score := score * 0.3;
    }
    var infoCount := PopulatedCount(info);
    if infoCount >= 4 {
      score := score + 10.0;
    } else if infoCount >= 3 {
      score := score + 5.0;
    }
    if score > 100.0 {
      score := 100.0;
    }
  }

  /** The weighted sum grows along `Extends`. */
  lemma {:induction false} WeightedPointsMonotone(a: SlotSet, b: SlotSet, ws: seq<(string, real)>)
    requires NonNegativeWeights(ws) && Extends(a, b)
    ensures WeightedPoints(a, ws) <= WeightedPoints(b, ws)
  {
    if ws != [] {
      WeightedPointsMonotone(a, b, ws[..|ws| - 1]);
    }
  }

  /**
   * Monotonicity: populating a slot or lengthening a value never lowers the
   * score in a fixed phase, the objective penalty included.
   */
  lemma ScoreMonotone(a: SlotSet, b: SlotSet, phase: Phase)
    requires Extends(a, b)
    ensures RawScore(a, phase) <= RawScore(b, phase)
    ensures Score(a, phase) <= Score(b, phase)
  {
    WeightedPointsMonotone(a, b, Weights);
    ExtendsCount(a, b);
  }

  /** The five weighted terms, written out. */
  lemma WeightedPointsOfWeights(info: SlotSet)
    ensures WeightedPoints(info, Weights) ==
      SlotPoints(info, Obiettivo, 35.0) + SlotPoints(info, Contesto, 25.0) + SlotPoints(info, Vincoli, 20.0)
      + SlotPoints(info, OutputFormat, 10.0) + SlotPoints(info, Role, 10.0)
  {
    var w := Weights;
    assert w[..5][..4] == w[..4] && w[..4][..3] == w[..3] && w[..3][..2] == w[..2] && w[..2][..1] == w[..1];
    assert w[..1][..0] == [];
    assert WeightedPoints(info, w[..1]) == SlotPoints(info, Obiettivo, 35.0);
    assert WeightedPoints(info, w[..2]) == WeightedPoints(info, w[..1]) + SlotPoints(info, Contesto, 25.0);
    assert WeightedPoints(info, w[..3]) == WeightedPoints(info, w[..2]) + SlotPoints(info, Vincoli, 20.0);
    assert WeightedPoints(info, w[..4]) == WeightedPoints(info, w[..3]) + SlotPoints(info, OutputFormat, 10.0);
    assert w == w[..5];
  }

  /** The empty slot set scores 0 in every phase: the starting score of a session. */
  lemma ScoreOfEmpty(phase: Phase)
    ensures Score(map[], phase) == 0.0
  {
    WeightedPointsOfWeights(map[]);
    assert Populated(map[]) == {};
  }

  /**
   * Without an objective, an advanced phase scores at most 33.4: the other
   * four slots give 78 points, 30% of that is 23.4, plus at most 10.
   */
  lemma NoObjectiveScoresBelowForceInterview(info: SlotSet, phase: Phase)
    requires AdvancedPhase(phase) && !Truthy(info, Obiettivo)
    ensures Score(info, phase) <= 33.4
  {
    WeightedPointsOfWeights(info);
  }

  /**
   * So a session whose stored score belongs to its phase never leaves
   * `refine` or `validate` forward without an objective: it returns to data collection.
   */
  lemma NoObjectiveReturnsToDataCollection(info: SlotSet, phase: Phase, n: nat, m: string)
    requires AdvancedPhase(phase) && !Truthy(info, Obiettivo)
    ensures NextPhase(phase, info, Score(info, phase), n, m) == DataCollection
  {
    NoObjectiveScoresBelowForceInterview(info, phase);
  }

  /** A single detailed objective scores 35 + 7 = 42 in analysis, which leads to data collection. */
  lemma SingleDetailedObjective(objective: string, m: string)
    requires |objective| > 20
    ensures Score(map[Obiettivo := objective], Analyze) == 42.0
    ensures NextPhase(Analyze, map[Obiettivo := objective], 42.0, 1, m) == DataCollection
  {
    var info := map[Obiettivo := objective];
    WeightedPointsOfWeights(info);
    assert Populated(info) == {Obiettivo};
  }

  /** Five detailed slots reach the cap; with an objective, refinement then moves to validation. */
  lemma AllSlotsDetailed(info: SlotSet, phase: Phase, m: string, n: nat)
    requires forall s :: s in SlotNames ==> s in info && |info[s]| > DetailLength
    ensures Score(info, phase) == 100.0
    ensures NextPhase(Refine, info, Score(info, Refine), n, m) == Validate
  {
    WeightedPointsOfWeights(info);
    assert Truthy(info, SlotNames[0]) && Truthy(info, SlotNames[1]) && Truthy(info, SlotNames[2]);
    assert Truthy(info, SlotNames[3]) && Truthy(info, SlotNames[4]);
  }
}
