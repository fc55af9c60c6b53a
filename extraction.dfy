/**
 * `extract_info_from_response` and `extract_info_fallback`: one user reply
 * updates the slot set, through the classifier's (category, value,
 * confidence) answer when it can be read, through keyword matching otherwise.
 */
module Extraction {
  import opened Wrappers
  import opened Text
  import opened Slots
  import opened Phases
  import opened Confidence

  /** Replies whose stripped text is shorter than this are not analysed. */
  const MinMessageLength := 5

  /** A classifier answer is applied only above this confidence. */
  const MinClassifierConfidence := 0.5

  /** The category the classifier uses for "no useful information". */
  const NoCategory := "nessuna"

  const Fence := "```"

  /**
   * The fields of the classifier's JSON object. A field is absent when the
   * object does not have it; a reply that is not an object with fields of these
   * types is a decoding failure.
   */
  datatype ReplyFields = ReplyFields(category: Option<string>, value: Option<string>, confidence: Option<real>)

  /** The text before the first "```" of `s` (all of `s` when there is none): `s.split('```')[0]`. */
  function BeforeFence(s: string): (r: string)
    ensures |r| <= |s| && r == s[..|r|]
    ensures |r| == |s| || StartsWith(s[|r|..], Fence)
    ensures forall i :: 0 <= i < |r| ==> !StartsWith(s[i..], Fence)
  {
    if s == [] || StartsWith(s, Fence) then []
    else
      var rest := BeforeFence(s[1..]);
      assert [s[0]] + rest == s[..|rest| + 1];
      assert s[|rest| + 1..] == s[1..][|rest|..];
      assert forall i :: 1 <= i <= |s| ==> s[i..] == s[1..][i - 1..];
      [s[0]] + rest
  }

  /** The text holds no backquote, so no fence can start inside it. */
  predicate NoBackquote(s: string) {
    s == [] || (s[0] != '`' && NoBackquote(s[1..]))
  }

  lemma {:induction false} NoBackquoteAppend(a: string, b: string)
    requires NoBackquote(a) && NoBackquote(b)
    ensures NoBackquote(a + b)
  {
    if a != [] {
      assert (a + b)[1..] == a[1..] + b;
      NoBackquoteAppend(a[1..], b);
    } else {
      assert a + b == b;
    }
  }

  /** A text without backquotes, followed by a fence, is cut just before the fence. */
  lemma {:induction false} BeforeFenceClosed(body: string)
    requires NoBackquote(body)
    ensures BeforeFence(body + Fence) == body
  {
    if body != [] {
      assert !StartsWith(body + Fence, Fence) by {
        assert (body + Fence)[0] == body[0];
      }
      assert (body + Fence)[1..] == body[1..] + Fence;
      BeforeFenceClosed(body[1..]);
    } else {
      assert StartsWith(Fence, Fence);
    }
  }

  /** The language tag a fenced block may open with. */
  const JsonTag := "json"

  /** Drops a leading "json" tag. */
  function DropTag(inner: string): string {
    if StartsWith(inner, JsonTag) then inner[|JsonTag|..] else inner
  }

  /** A text that opens a fence is replaced by what lies between the first two fences, untagged. */
  function Unfence(text: string): string {
    if StartsWith(text, Fence) then DropTag(BeforeFence(text[|Fence|..])) else text
  }

  /**
   * The clean-up of the classifier's reply before decoding: strip, and if
   * the text opens a code fence keep the text up to the next fence, without a
   * leading "json" tag; strip again.
   */
  function StripFence(reply: string): string {
    Strip(Unfence(Strip(reply)))
  }

  /** A reply that does not open a fence is only stripped. */
  lemma StripFencePlain(reply: string)
    requires !StartsWith(Strip(reply), Fence)
    ensures StripFence(reply) == Strip(reply)
  {
    StripIdempotent(reply);
  }

  /** A fenced text is left alone by `strip()`. */
  lemma FencedUnpadded(inner: string)
    ensures Strip(Fence + inner + Fence) == Fence + inner + Fence
  {
    var t := Fence + inner + Fence;
    assert t[0] == '`' && t[|t| - 1] == '`';
    StripUnpadded(t);
  }

  /** Without inner backquotes, a fenced text opens to exactly its inside. */
  lemma OpenFence(inner: string)
    requires NoBackquote(inner)
    ensures Unfence(Fence + inner + Fence) == DropTag(inner)
  {
    var t := Fence + inner + Fence;
    FenceParts(inner);
    BeforeFenceClosed(inner);
    assert StartsWith(t, Fence);
    assert BeforeFence(t[|Fence|..]) == inner;
  }

  /** A fenced text opens with the fence, followed by the inside and the closing fence. */
  lemma FenceParts(inner: string)
    ensures (Fence + inner + Fence)[..|Fence|] == Fence
    ensures (Fence + inner + Fence)[|Fence|..] == inner + Fence
  {
    var t := Fence + inner + Fence;
    assert t[..3] == Fence;
    assert t[3..] == inner + Fence;
  }

  /** A reply with nothing to strip is only unfenced and stripped once. */
  lemma StripFenceUnpadded(reply: string)
    requires Strip(reply) == reply
    ensures StripFence(reply) == Strip(Unfence(reply))
  {
  }

  /** The cleaned text of a fenced reply: its inside, without a leading "json" tag, stripped. */
  lemma FencedReply(inner: string)
    requires NoBackquote(inner)
    ensures StripFence(Fence + inner + Fence) == Strip(DropTag(inner))
  {
    FencedUnpadded(inner);
    StripFenceUnpadded(Fence + inner + Fence);
    OpenFence(inner);
  }

  /** A body wrapped in "```json ... ```" comes back as the stripped body. */
  lemma FencedReplyRoundTrip(body: string)
    requires NoBackquote(body)
    ensures StripFence(Fence + (JsonTag + body) + Fence) == Strip(body)
  {
    var tagged := JsonTag + body;
    assert NoBackquote(JsonTag) by {
      assert JsonTag[1..] == "son" && "son"[1..] == "on" && "on"[1..] == "n" && "n"[1..] == [];
    }
    NoBackquoteAppend(JsonTag, body);
    FencedReply(tagged);
    assert tagged[..4] == JsonTag;
    assert tagged[4..] == body;
  }

  /** A body in a bare fence comes back stripped, unless it happens to begin with "json". */
  lemma BareFenceRoundTrip(body: string)
    requires NoBackquote(body)
    ensures !StartsWith(body, JsonTag) ==> StripFence(Fence + body + Fence) == Strip(body)
    ensures StartsWith(body, JsonTag) ==> StripFence(Fence + body + Fence) == Strip(body[4..])
  {
    FencedReply(body);
  }

  /**
   * What the classifier call yields: `None` when the call failed, timed out,
   * returned no content or could not be decoded; a caller-supplied `parse`
   * stands for `json.loads` and the field reads.
   */
  function Decode(reply: Option<string>, parse: string -> Option<ReplyFields>): Option<ReplyFields> {
    match reply
    case None => None
    case Some(text) => parse(StripFence(text))
  }

  /** The classifier answer applied to the slot set, with the source's defaults for missing fields. */
  function ApplyReply(info: SlotSet, fields: ReplyFields): (r: SlotSet)
    ensures Extends(info, r)
  {
    var category := fields.category.GetOr(NoCategory);
    var value := fields.value.GetOr("");
    var confidence := fields.confidence.GetOr(0.0);
    if confidence > MinClassifierConfidence && IsSlot(category) then Merge(info, category, value) else info
  }

  /** The keyword groups of the fallback, one per slot. */
  function KeywordsFor(slot: string): seq<string> {
    if slot == Obiettivo then ["creare", "generare", "scrivere", "fare", "produrre", "voglio", "vorrei"]
    else if slot == Contesto then ["per", "studenti", "professionisti", "bambini", "utenti", "clienti", "pubblico"]
    else if slot == Vincoli then ["parole", "caratteri", "paragrafi", "breve", "lungo", "formale", "informale", "tecnico", "semplice"]
    else if slot == OutputFormat then ["lista", "elenco", "tabella", "json", "markdown", "html"]
    else if slot == Role then ["esperto", "tutor", "assistente", "consulente", "come"]
    else []
  }

  /** The lower-cased reply contains one of the slot's keywords. */
  predicate Mentions(userMessage: string, slot: string) {
    ContainsAny(Lower(userMessage), KeywordsFor(slot))
  }

  /** The slots whose keyword group occurs in the reply. */
  function MentionedSlots(userMessage: string): set<string> {
    set s | s in SlotNames && Mentions(userMessage, s)
  }

  lemma MentionedSlotsSlots(userMessage: string)
    ensures Obiettivo in MentionedSlots(userMessage) <==> Mentions(userMessage, Obiettivo)
    ensures Contesto in MentionedSlots(userMessage) <==> Mentions(userMessage, Contesto)
    ensures Vincoli in MentionedSlots(userMessage) <==> Mentions(userMessage, Vincoli)
    ensures OutputFormat in MentionedSlots(userMessage) <==> Mentions(userMessage, OutputFormat)
    ensures Role in MentionedSlots(userMessage) <==> Mentions(userMessage, Role)
  {
  }

  /** The fallback writes a mentioned slot when it is empty or is the constraints slot. */
  predicate FallbackWrites(hits: set<string>, info: SlotSet, slot: string) {
    slot in hits && (slot == Vincoli || !Truthy(info, slot))
  }

  /** The text the fallback stores in a slot it writes: the whole reply, appended to populated constraints. */
  function FallbackValue(userMessage: string, info: SlotSet, slot: string): string {
    if slot == Vincoli && Truthy(info, Vincoli) then info[Vincoli] + ConstraintSeparator + userMessage else userMessage
  }

  /**
   * The fallback over a list of slots, stated all at once: every listed slot
   * it writes receives its new text, and every other key keeps its value.
   */
  function FallbackOver(userMessage: string, info: SlotSet, hits: set<string>, slots: seq<string>): SlotSet {
    info + map s | s in slots && FallbackWrites(hits, info, s) :: FallbackValue(userMessage, info, s)
  }

  /**
   * The keyword fallback: every mentioned slot that is empty, and the
   * constraints slot when mentioned, receive the whole raw reply; nothing else changes.
   */
  function FallbackInfo(userMessage: string, info: SlotSet): SlotSet {
    FallbackOver(userMessage, info, MentionedSlots(userMessage), SlotNames)
  }

  /** The fallback, one key at a time. */
  lemma FallbackInfoAt(userMessage: string, info: SlotSet, k: string)
    ensures var r := FallbackInfo(userMessage, info);
      if IsSlot(k) && Mentions(userMessage, k) && (k == Vincoli || !Truthy(info, k)) then
        k in r && r[k] == FallbackValue(userMessage, info, k)
      else (k in r <==> k in info) && (k in info ==> r[k] == info[k])
  {
    assert k in MentionedSlots(userMessage) <==> IsSlot(k) && Mentions(userMessage, k);
  }

  /** One keyword test of the fallback, applied to the slot set built so far. */
  function FallbackStep(userMessage: string, current: SlotSet, slot: string, hit: bool): SlotSet {
    if hit && (slot == Vincoli || !Truthy(current, slot)) then current[slot := FallbackValue(userMessage, current, slot)]
    else current
  }

  /** The keyword tests for `slots`, run one after the other on a copy. */
  function FallbackThrough(userMessage: string, info: SlotSet, hits: set<string>, slots: seq<string>): SlotSet {
    if slots == [] then info
    else
      var last := slots[|slots| - 1];
      FallbackStep(userMessage, FallbackThrough(userMessage, info, hits, slots[..|slots| - 1]), last, last in hits)
  }

  predicate Distinct(slots: seq<string>) {
    forall i, j :: 0 <= i < j < |slots| ==> slots[i] != slots[j]
  }

  lemma SlotNamesDistinct()
    ensures Distinct(SlotNames)
  {
  }

  /**
   * Running the tests one after the other agrees with the simultaneous
   * description, as long as no slot is tested twice: a test never sees the
   * effect of an earlier one on its own slot.
   */
  lemma {:induction false} FallbackInOrder(userMessage: string, info: SlotSet, hits: set<string>, slots: seq<string>)
    requires Distinct(slots)
    ensures FallbackThrough(userMessage, info, hits, slots) == FallbackOver(userMessage, info, hits, slots)
  {
    if slots == [] {
      assert FallbackOver(userMessage, info, hits, slots) == info;
    } else {
      var init := slots[..|slots| - 1];
      var last := slots[|slots| - 1];
      FallbackInOrder(userMessage, info, hits, init);
      assert last !in init;
      assert init + [last] == slots;
      FallbackOverStep(userMessage, info, hits, init, last);
    }
  }

  /** One more test, on a slot not tested before, adds that slot to the simultaneous description. */
  lemma FallbackOverStep(userMessage: string, info: SlotSet, hits: set<string>, init: seq<string>, last: string)
    requires last !in init
    ensures FallbackStep(userMessage, FallbackOver(userMessage, info, hits, init), last, last in hits) ==
      FallbackOver(userMessage, info, hits, init + [last])
  {
    var after := FallbackStep(userMessage, FallbackOver(userMessage, info, hits, init), last, last in hits);
    var r := FallbackOver(userMessage, info, hits, init + [last]);
    forall k
      ensures (k in after <==> k in r) && (k in after ==> after[k] == r[k])
    {
      FallbackOverStepAt(userMessage, info, hits, init, last, k);
    }
  }

  /** The same, one key at a time. */
  lemma FallbackOverStepAt(userMessage: string, info: SlotSet, hits: set<string>, init: seq<string>, last: string, k: string)
    requires last !in init
    ensures var after := FallbackStep(userMessage, FallbackOver(userMessage, info, hits, init), last, last in hits);
      var r := FallbackOver(userMessage, info, hits, init + [last]);
      (k in after <==> k in r) && (k in after ==> after[k] == r[k])
  {
    var before := FallbackOver(userMessage, info, hits, init);
    assert (last in before <==> last in info) && (last in info ==> before[last] == info[last]);
    assert k in init + [last] <==> k in init || k == last;
  }

  /** The five tests in the source's order, written out. */
  lemma FallbackThroughSlotNames(userMessage: string, info: SlotSet, hits: set<string>)
    ensures FallbackThrough(userMessage, info, hits, SlotNames) ==
      FallbackStep(userMessage, FallbackStep(userMessage, FallbackStep(userMessage,
        FallbackStep(userMessage, FallbackStep(userMessage, info, Obiettivo, Obiettivo in hits),
        Contesto, Contesto in hits), Vincoli, Vincoli in hits), OutputFormat, OutputFormat in hits), Role, Role in hits)
  {
    var w := SlotNames;
    assert w[..5][..4] == w[..4] && w[..4][..3] == w[..3] && w[..3][..2] == w[..2] && w[..2][..1] == w[..1];
    assert w[..1][..0] == [];
    assert FallbackThrough(userMessage, info, hits, w[..1]) == FallbackStep(userMessage, info, Obiettivo, Obiettivo in hits);
    assert FallbackThrough(userMessage, info, hits, w[..2]) ==
      FallbackStep(userMessage, FallbackThrough(userMessage, info, hits, w[..1]), Contesto, Contesto in hits);
    assert FallbackThrough(userMessage, info, hits, w[..3]) ==
      FallbackStep(userMessage, FallbackThrough(userMessage, info, hits, w[..2]), Vincoli, Vincoli in hits);
    assert FallbackThrough(userMessage, info, hits, w[..4]) ==
      FallbackStep(userMessage, FallbackThrough(userMessage, info, hits, w[..3]), OutputFormat, OutputFormat in hits);
    assert w == w[..5];
  }

  /** The fallback is the five keyword tests in the source's order. */
  lemma FallbackInfoInOrder(userMessage: string, info: SlotSet)
    ensures FallbackInfo(userMessage, info) ==
      FallbackStep(userMessage, FallbackStep(userMessage, FallbackStep(userMessage,
        FallbackStep(userMessage, FallbackStep(userMessage, info, Obiettivo, Mentions(userMessage, Obiettivo)),
        Contesto, Mentions(userMessage, Contesto)), Vincoli, Mentions(userMessage, Vincoli)),
        OutputFormat, Mentions(userMessage, OutputFormat)), Role, Mentions(userMessage, Role))
  {
    var hits := MentionedSlots(userMessage);
    MentionedSlotsSlots(userMessage);
    FallbackThroughSlotNames(userMessage, info, hits);
    SlotNamesDistinct();
    FallbackInOrder(userMessage, info, hits, SlotNames);
  }

  /** `extract_info_fallback`: the five keyword tests run one after the other on a copy. */
  method ExtractInfoFallback(userMessage: string, info: SlotSet) returns (updated: SlotSet)
    ensures updated == FallbackInfo(userMessage, info)
  {
    updated := KeywordTests(userMessage, info, Mentions(userMessage, Obiettivo), Mentions(userMessage, Contesto),
      Mentions(userMessage, Vincoli), Mentions(userMessage, OutputFormat), Mentions(userMessage, Role));
    FallbackInfoInOrder(userMessage, info);
  }

  /** The five tests, given which keyword groups occur in the reply. */
  method KeywordTests(userMessage: string, info: SlotSet, objective: bool, context: bool, constraints: bool,
                      format: bool, role: bool) returns (updated: SlotSet)
    ensures updated ==
      FallbackStep(userMessage, FallbackStep(userMessage, FallbackStep(userMessage,
        FallbackStep(userMessage, FallbackStep(userMessage, info, Obiettivo, objective),
        Contesto, context), Vincoli, constraints), OutputFormat, format), Role, role)
  {
    updated := info;
    if objective {
      if !Truthy(updated, Obiettivo) {
        updated := updated[Obiettivo := userMessage];
      }
    }
    assert updated == FallbackStep(userMessage, info, Obiettivo, objective);
    ghost var i1 := updated;
    if context {
      if !Truthy(updated, Contesto) {
        updated := updated[Contesto := userMessage];
      }
    }
    assert updated == FallbackStep(userMessage, i1, Contesto, context);
    ghost var i2 := updated;
    if constraints {
      if !Truthy(updated, Vincoli) {
        updated := updated[Vincoli := userMessage];
      } else {
        updated := updated[Vincoli := updated[Vincoli] + ConstraintSeparator + userMessage];
      }
    }
    assert updated == FallbackStep(userMessage, i2, Vincoli, constraints);
    ghost var i3 := updated;
    if format {
      if !Truthy(updated, OutputFormat) {
        updated := updated[OutputFormat := userMessage];
      }
    }
    assert updated == FallbackStep(userMessage, i3, OutputFormat, format);
    if role {
      if !Truthy(updated, Role) {
        updated := updated[Role := userMessage];
      }
    }
  }

  /** A reply that mentions no keyword leaves the slot set as it was. */
  lemma FallbackNoMatch(userMessage: string, info: SlotSet)
    requires forall s :: s in SlotNames ==> !Mentions(userMessage, s)
    ensures FallbackInfo(userMessage, info) == info
  {
    var r := FallbackInfo(userMessage, info);
    assert r.Keys == info.Keys;
    assert forall k :: k in info ==> r[k] == info[k];
  }

  /**
   * Each keyword group is tested on its own, so one reply can fill several
   * slots; a populated slot other than constraints keeps its first value, the
   * constraints slot gets the reply appended, and keys outside the five stay.
   */
  lemma FallbackSlots(userMessage: string, info: SlotSet, slot: string)
    requires IsSlot(slot)
    ensures var r := FallbackInfo(userMessage, info);
      (Mentions(userMessage, slot) && !Truthy(info, slot) ==> r[slot] == userMessage) &&
      (slot != Vincoli && Truthy(info, slot) ==> r[slot] == info[slot]) &&
      (Mentions(userMessage, Vincoli) && Truthy(info, Vincoli) ==> r[Vincoli] == info[Vincoli] + " | " + userMessage) &&
      (!Mentions(userMessage, slot) ==> (slot in r <==> slot in info) && (slot in info ==> r[slot] == info[slot]))
  {
    FallbackInfoAt(userMessage, info, slot);
    FallbackInfoAt(userMessage, info, Vincoli);
  }

  lemma FallbackFrame(userMessage: string, info: SlotSet, k: string)
    requires !IsSlot(k)
    ensures var r := FallbackInfo(userMessage, info); (k in r <==> k in info) && (k in info ==> r[k] == info[k])
  {
  }

  /** The fallback only fills empty slots and lengthens constraints. */
  lemma FallbackExtends(userMessage: string, info: SlotSet)
    ensures Extends(info, FallbackInfo(userMessage, info))
  {
    var r := FallbackInfo(userMessage, info);
    forall k | Truthy(info, k)
      ensures Truthy(r, k) && |info[k]| <= |r[k]|
    {
      FallbackInfoAt(userMessage, info, k);
    }
  }

  /**
   * The slot set after one analysed reply: unchanged when the reply is too
   * short; the keyword fallback when the classifier answer cannot be had;
   * otherwise the classifier's answer merged in.
   */
  function ExtractedInfo(userMessage: string, info: SlotSet, reply: Option<string>, parse: string -> Option<ReplyFields>): SlotSet {
    if |Strip(userMessage)| < MinMessageLength then info
    else ClassifiedInfo(userMessage, info, Decode(reply, parse))
  }

  /** The slot set after a reply long enough to analyse, given the decoded classifier answer if any. */
  function ClassifiedInfo(userMessage: string, info: SlotSet, decoded: Option<ReplyFields>): SlotSet {
    match decoded
    case None => FallbackInfo(userMessage, info)
    case Some(fields) => ApplyReply(info, fields)
  }

  /** The classifier's answer read with defaults and merged into a copy of the slot set, as the source writes it. */
  method ApplyAnswer(info: SlotSet, fields: ReplyFields) returns (updated: SlotSet)
    ensures updated == ApplyReply(info, fields)
  {
    updated := info;
    var category := fields.category.GetOr(NoCategory);
    var value := fields.value.GetOr("");
    var confidence := fields.confidence.GetOr(0.0);
    if confidence > MinClassifierConfidence && IsSlot(category) {
      if category == Vincoli {
        if Truthy(updated, Vincoli) {
          updated := updated[Vincoli := updated[Vincoli] + ConstraintSeparator + value];
        } else {
          updated := updated[Vincoli := value];
        }
      } else if !Truthy(updated, category) || |value| > |updated[category]| {
        updated := updated[category := value];
      }
    }
  }

  /**
   * `extract_info_from_response`. `currentPhase` is passed by the caller but,
   * as in the source, takes no part in the result.
   */
  method ExtractInfoFromResponse(userMessage: string, currentPhase: Phase, info: SlotSet,
                                 reply: Option<string>, parse: string -> Option<ReplyFields>)
    returns (updated: SlotSet)
    ensures updated == ExtractedInfo(userMessage, info, reply, parse)
  {
    if |Strip(userMessage)| < MinMessageLength {
      return info;
    }
    var decoded := Decode(reply, parse);
    if decoded.None? {
      updated := ExtractInfoFallback(userMessage, info);
      return;
    }
    updated := ApplyAnswer(info, decoded.value);
  }

  /** A reply shorter than five characters after stripping changes nothing. */
  lemma ShortReplyUnchanged(userMessage: string, info: SlotSet, reply: Option<string>, parse: string -> Option<ReplyFields>)
    requires |Strip(userMessage)| < 5
    ensures ExtractedInfo(userMessage, info, reply, parse) == info
  {
  }

  /** A classifier answer at confidence 0.5 or below, or with an unknown category, changes nothing. */
  lemma WeakAnswerIgnored(userMessage: string, info: SlotSet, reply: Option<string>, parse: string -> Option<ReplyFields>)
    requires |Strip(userMessage)| >= 5 && Decode(reply, parse).Some?
    requires var f := Decode(reply, parse).value;
      f.confidence.GetOr(0.0) <= 0.5 || !IsSlot(f.category.GetOr(NoCategory))
    ensures ExtractedInfo(userMessage, info, reply, parse) == info
  {
  }

  /** Extraction, on either path, never loses information. */
  lemma ExtractionExtends(userMessage: string, info: SlotSet, reply: Option<string>, parse: string -> Option<ReplyFields>)
    ensures Extends(info, ExtractedInfo(userMessage, info, reply, parse))
  {
    FallbackExtends(userMessage, info);
  }

  /** Hence extraction never lowers the confidence score of a fixed phase. */
  lemma ExtractionNeverLowersScore(userMessage: string, info: SlotSet, reply: Option<string>,
                                   parse: string -> Option<ReplyFields>, phase: Phase)
    ensures Score(info, phase) <= Score(ExtractedInfo(userMessage, info, reply, parse), phase)
  {
    ExtractionExtends(userMessage, info, reply, parse);
    ScoreMonotone(info, ExtractedInfo(userMessage, info, reply, parse), phase);
  }
}
