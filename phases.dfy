/**
 * The phase state machine: `get_confidence_thresholds` and
 * `determine_next_phase`. A pure function of the phase, the slot set, the
 * stored confidence, the iteration count and the user's latest text.
 */
module Phases {
  import opened Slots
  import opened Text

  datatype Phase = Analyze | Interview | DataCollection | Refine | Validate | Complete

  /** The name a phase is stored and looked up under. */
  function PhaseName(p: Phase): string {
    match p
    case Analyze => "analyze"
    case Interview => "interview"
    case DataCollection => "data_collection"
    case Refine => "refine"
    case Validate => "validate"
    case Complete => "complete"
  }

  /** The table `get_confidence_thresholds` returns. */
  datatype Thresholds = Thresholds(
    interviewToRefine: real,
    refineToValidate: real,
    validateToComplete: real,
    forceInterview: real)

  /** `interviewToRefine` is part of the table but no rule reads it. */
  const ConfidenceThresholds := Thresholds(20.0, 65.0, 80.0, 40.0)

  /** Substrings of the lower-cased reply that count as a request for changes. */
  const RevisionKeywords: seq<string> := ["modifica", "cambia", "aggiungi", "togli", "migliora", "però", "ma"]

  /** Substrings of the lower-cased reply that count as approval. */
  const ApprovalKeywords: seq<string> := ["ok", "bene", "perfetto", "va bene", "si", "sì", "ottimo", "procedi"]

  predicate WantsChanges(userMessage: string) {
    ContainsAny(Lower(userMessage), RevisionKeywords)
  }

  predicate Approves(userMessage: string) {
    ContainsAny(Lower(userMessage), ApprovalKeywords)
  }

  /** `determine_next_phase`: the rules of each phase are tried top to bottom. */
  function NextPhase(phase: Phase, info: SlotSet, confidence: real, iterationCount: nat, userMessage: string): Phase {
    var t := ConfidenceThresholds;
    match phase
    case Analyze =>
      if iterationCount == 0 then Analyze
      else if confidence >= t.validateToComplete then Validate
      else if confidence >= t.refineToValidate then Refine
      else if confidence >= t.forceInterview && Truthy(info, Obiettivo) then DataCollection
      else Interview
    case Interview =>
      if Truthy(info, Obiettivo) && confidence < t.refineToValidate then DataCollection
      else if confidence >= t.refineToValidate then Refine
      else Interview
    case DataCollection => Refine
    case Refine =>
      if confidence < t.forceInterview then DataCollection
      else if confidence >= t.refineToValidate && Truthy(info, Obiettivo) then Validate
      else DataCollection
    case Validate =>
      if WantsChanges(userMessage) then DataCollection
      else if confidence >= t.validateToComplete then Complete
      else if Approves(userMessage) && confidence >= t.refineToValidate then Complete
      else DataCollection
    case Complete => Complete
  }

  /** The first turn always stays in analysis; afterwards the opening score picks the entry phase. */
  lemma AnalyzeTransitions(info: SlotSet, c: real, n: nat, m: string)
    ensures n == 0 ==> NextPhase(Analyze, info, c, n, m) == Analyze
    ensures n > 0 && c >= 80.0 ==> NextPhase(Analyze, info, c, n, m) == Validate
    ensures n > 0 && 65.0 <= c < 80.0 ==> NextPhase(Analyze, info, c, n, m) == Refine
    ensures n > 0 && 40.0 <= c < 65.0 && Truthy(info, Obiettivo) ==> NextPhase(Analyze, info, c, n, m) == DataCollection
    ensures n > 0 && c < 65.0 && (c < 40.0 || !Truthy(info, Obiettivo)) ==> NextPhase(Analyze, info, c, n, m) == Interview
  {
  }

  lemma InterviewTransitions(info: SlotSet, c: real, n: nat, m: string)
    ensures Truthy(info, Obiettivo) && c < 65.0 ==> NextPhase(Interview, info, c, n, m) == DataCollection
    ensures c >= 65.0 ==> NextPhase(Interview, info, c, n, m) == Refine
    ensures !Truthy(info, Obiettivo) && c < 65.0 ==> NextPhase(Interview, info, c, n, m) == Interview
  {
  }

  /** One round of data collection is always followed by refinement. */
  lemma DataCollectionTransitions(info: SlotSet, c: real, n: nat, m: string)
    ensures NextPhase(DataCollection, info, c, n, m) == Refine
  {
  }

  /** Refinement never repeats: it validates with 65 and an objective, else collects more data. */
  lemma RefineTransitions(info: SlotSet, c: real, n: nat, m: string)
    ensures c >= 65.0 && Truthy(info, Obiettivo) ==> NextPhase(Refine, info, c, n, m) == Validate
    ensures !(c >= 65.0 && Truthy(info, Obiettivo)) ==> NextPhase(Refine, info, c, n, m) == DataCollection
    ensures NextPhase(Refine, info, c, n, m) != Refine
  {
  }

  /** A revision keyword wins over any confidence; approval needs 65, no approval needs 80. */
  lemma ValidateTransitions(info: SlotSet, c: real, n: nat, m: string)
    ensures WantsChanges(m) ==> NextPhase(Validate, info, c, n, m) == DataCollection
    ensures !WantsChanges(m) && c >= 80.0 ==> NextPhase(Validate, info, c, n, m) == Complete
    ensures !WantsChanges(m) && Approves(m) && c >= 65.0 ==> NextPhase(Validate, info, c, n, m) == Complete
    ensures !WantsChanges(m) && c < 80.0 && !(Approves(m) && c >= 65.0) ==> NextPhase(Validate, info, c, n, m) == DataCollection
  {
  }

  /** `complete` has no rule of its own and is returned unchanged. */
  lemma CompleteIsAbsorbing(info: SlotSet, c: real, n: nat, m: string)
    ensures NextPhase(Complete, info, c, n, m) == Complete
  {
  }

  /** `complete` is entered only from `validate`, and `analyze` is never re-entered. */
  lemma {:induction false} EntryPoints(p: Phase, info: SlotSet, c: real, n: nat, m: string)
    ensures NextPhase(p, info, c, n, m) == Complete ==> p == Validate || p == Complete
    ensures NextPhase(p, info, c, n, m) == Analyze ==> p == Analyze && n == 0
    ensures NextPhase(p, info, c, n, m) == Validate ==> p == Analyze || p == Refine
  {
  }

  /** "ok" approves a prompt scored 70 in validation. */
  lemma ApprovalCompletes(info: SlotSet, n: nat)
    ensures NextPhase(Validate, info, 70.0, n, "ok") == Complete
  {
    LowerOfLowercase("ok");
    assert Contains("ok", ApprovalKeywords[0]);
    forall j | 0 <= j < |RevisionKeywords|
      ensures !Contains("ok", RevisionKeywords[j])
    {
      var w := RevisionKeywords[j];
      assert !StartsWith("ok", w) && !StartsWith("k", w) && !StartsWith("", w);
      assert "ok"[1..] == "k" && "k"[1..] == "";
    }
  }

  /** An explicit request for more material goes back to data collection, at any confidence. */
  lemma RevisionRequestGoesBack(info: SlotSet, c: real, n: nat, m: string)
    requires m == "Aggiungi un esempio"
    ensures NextPhase(Validate, info, c, n, m) == DataCollection
  {
    var low := Lower(m);
    assert low[..8] == "aggiungi" by {
      assert forall i :: 0 <= i < 8 ==> low[i] == "aggiungi"[i];
    }
    assert Contains(low, RevisionKeywords[2]);
  }

  /**
   * Revision keywords are matched as substrings, so the "ma" inside "formato"
   * turns an approving reply into a request for changes, even at confidence 90.
   */
  lemma SubstringRevision(info: SlotSet, n: nat, m: string)
    requires m == "Perfetto formato"
    ensures NextPhase(Validate, info, 90.0, n, m) == DataCollection
  {
    var low := Lower(m);
    assert low[12..14] == "ma" by {
      assert low[12] == 'm' && low[13] == 'a';
    }
    assert OccursAt(low, "ma", 12);
    ContainsIff(low, "ma");
    assert Contains(low, RevisionKeywords[6]);
  }
}
