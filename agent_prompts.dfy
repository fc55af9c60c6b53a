/**
 * `AGENT_PROMPTS` and `get_agent_prompt`: the instruction template of each
 * phase, and the `str.format` step that fills it from a context dictionary.
 * The prose of a template is not modelled; a template is its name and the
 * list of its replacement fields in the order they appear in the text.
 */
module AgentPrompts {
  import opened Wrappers
  import opened Slots
  import opened Phases

  /**
   * A `{...}` replacement field of a template: one of the six keyword
   * arguments `get_agent_prompt` supplies, or any other text, which names no argument.
   */
  datatype Field =
    | OriginalPromptField
    | IdentifiedIssuesField
    | CollectedInfoField
    | IterationCountField
    | RefinedPromptField
    | ConfidenceScoreField
    | OtherField(text: string)

  /** The six keyword arguments `get_agent_prompt` passes to `str.format`, by name. */
  const ArgumentNames: seq<string> :=
    ["original_prompt", "identified_issues", "collected_info", "iteration_count", "refined_prompt", "confidence_score"]

  /** The text of a field as written in the template. */
  function FieldName(f: Field): string {
    match f
    case OriginalPromptField => ArgumentNames[0]
    case IdentifiedIssuesField => ArgumentNames[1]
    case CollectedInfoField => ArgumentNames[2]
    case IterationCountField => ArgumentNames[3]
    case RefinedPromptField => ArgumentNames[4]
    case ConfidenceScoreField => ArgumentNames[5]
    case OtherField(text) => text
  }

  /** A field is read correctly when an other-field's text is indeed none of the six names. */
  predicate WellNamed(f: Field) {
    f.OtherField? ==> f.text !in ArgumentNames
  }

  /** A field is supplied by `str.format` exactly when its name is one of the six. */
  lemma FieldSupplied(f: Field)
    requires WellNamed(f)
    ensures !f.OtherField? <==> FieldName(f) in ArgumentNames
  {
  }

  /** A template: its key in the table and its replacement fields, in text order. */
  datatype Template = Template(name: string, fields: seq<Field>)

  /** `AGENT_PROMPTS.get(phase, '')` for a phase without an entry: the empty text, without fields. */
  const EmptyTemplate := Template("", [])

  /** The field the validation template writes as a Python expression; `str.format` reads it as one key. */
  const ConditionalField := OtherField("refined_prompt if refined_prompt else original_prompt")

  const AnalyzeTemplate := Template("analyze", [ConfidenceScoreField])
  const InterviewTemplate := Template("interview", [OriginalPromptField, IdentifiedIssuesField, CollectedInfoField])
  const DataCollectionTemplate :=
    Template("data_collection", [OriginalPromptField, IdentifiedIssuesField, CollectedInfoField, ConfidenceScoreField])
  const RefineTemplate := Template("refine",
    [OriginalPromptField, IdentifiedIssuesField, CollectedInfoField, IterationCountField, ConfidenceScoreField, IterationCountField])
  /** The validation template's fields before and after its conditional field. */
  const ValidateFieldsBefore: seq<Field> :=
    [OriginalPromptField, RefinedPromptField, CollectedInfoField, ConfidenceScoreField, IterationCountField, ConfidenceScoreField]
  const ValidateFieldsAfter: seq<Field> :=
    [ConfidenceScoreField, RefinedPromptField, ConfidenceScoreField, RefinedPromptField, ConfidenceScoreField, RefinedPromptField]
  const ValidateTemplate := Template("validate", ValidateFieldsBefore + [ConditionalField] + ValidateFieldsAfter)

  /** The table: five phases have a template; `complete` has none. */
  const Templates: map<string, Template> := map[
    "analyze" := AnalyzeTemplate,
    "interview" := InterviewTemplate,
    "data_collection" := DataCollectionTemplate,
    "refine" := RefineTemplate,
    "validate" := ValidateTemplate]

  /** The phases whose template is formatted when a context is given. */
  const FormattedPhases: seq<string> := ["interview", "data_collection", "refine", "validate"]

  /** The context dictionary; a field is `None` when the key is absent. */
  datatype Context = Context(
    originalPrompt: Option<string>,
    identifiedIssues: Option<seq<string>>,
    collectedInfo: Option<SlotSet>,
    iterationCount: Option<nat>,
    refinedPrompt: Option<string>,
    confidenceScore: Option<real>)

  /** The values handed to `str.format`, after the defaults are filled in. */
  datatype FormatArgs = FormatArgs(
    originalPrompt: string,
    identifiedIssues: seq<string>,
    collectedInfo: SlotSet,
    iterationCount: nat,
    refinedPrompt: string,
    confidenceScore: real)

  /** What `get_agent_prompt` returns: a template as stored, or a template with its fields filled. */
  datatype AgentPrompt = Raw(template: Template) | Formatted(template: Template, args: FormatArgs)

  /** `str.format` raises `KeyError` naming the first field it has no argument for. */
  datatype FormatError = KeyError(field: string)

  /** Python's `if context:` -- `None` and the empty dictionary are false. */
  predicate ContextGiven(context: Option<Context>) {
    context.Some? &&
    var c := context.value;
    c.originalPrompt.Some? || c.identifiedIssues.Some? || c.collectedInfo.Some? ||
    c.iterationCount.Some? || c.refinedPrompt.Some? || c.confidenceScore.Some?
  }

  /** The `context.get(key, default)` reads. */
  function ArgumentsOf(c: Context): FormatArgs {
    FormatArgs(
      c.originalPrompt.GetOr("N/A"),
      c.identifiedIssues.GetOr([]),
      c.collectedInfo.GetOr(map[]),
      c.iterationCount.GetOr(0),
      c.refinedPrompt.GetOr(""),
      c.confidenceScore.GetOr(0.0))
  }

  /** The first field that is not one of the arguments, if any. */
  function FirstUnknownField(fields: seq<Field>): (r: Option<string>)
    ensures r.Some? ==> exists i :: 0 <= i < |fields| && fields[i] == OtherField(r.value)
    ensures r.None? <==> forall i :: 0 <= i < |fields| ==> !fields[i].OtherField?
  {
    if fields == [] then None
    else if fields[0].OtherField? then Some(fields[0].text)
    else
      var r := FirstUnknownField(fields[1..]);
      assert r.Some? ==> exists i :: 0 < i < |fields| && fields[i] == OtherField(r.value) by {
        if r.Some? {
          var i :| 0 <= i < |fields[1..]| && fields[1..][i] == OtherField(r.value);
          assert fields[i + 1] == OtherField(r.value);
        }
      }
      r
  }

  /** The text of a template, selected by phase. */
  function TemplateOf(phase: string): Template {
    if phase in Templates then Templates[phase] else EmptyTemplate
  }

  /** `template.format(**args)`: a `KeyError` for the first field no argument supplies. */
  function Format(t: Template, args: FormatArgs): (r: Result<AgentPrompt, FormatError>)
    ensures r.Success? <==> forall i :: 0 <= i < |t.fields| ==> !t.fields[i].OtherField?
    ensures r.Success? ==> r.value == Formatted(t, args)
    ensures r.Failure? ==> exists i :: 0 <= i < |t.fields| && t.fields[i] == OtherField(r.error.field)
  {
    match FirstUnknownField(t.fields)
    case None => Success(Formatted(t, args))
    case Some(f) => Failure(KeyError(f))
  }

  /** `get_agent_prompt(phase, context)`. */
  function GetAgentPrompt(phase: string, context: Option<Context>): Result<AgentPrompt, FormatError> {
    var base := TemplateOf(phase);
    if ContextGiven(context) && phase in FormattedPhases then Format(base, ArgumentsOf(context.value))
    else Success(Raw(base))
  }

  /** The template of each phase, by phase rather than by name. */
  function PhaseTemplate(p: Phase): Template {
    match p
    case Analyze => AnalyzeTemplate
    case Interview => InterviewTemplate
    case DataCollection => DataCollectionTemplate
    case Refine => RefineTemplate
    case Validate => ValidateTemplate
    case Complete => EmptyTemplate
  }

  /** Looking a phase up by its name finds its template; the formatted phases are all but analysis and completion. */
  lemma TemplateOfPhase(p: Phase)
    ensures TemplateOf(PhaseName(p)) == PhaseTemplate(p)
    ensures PhaseName(p) in FormattedPhases <==> p != Analyze && p != Complete
  {
    match p
    case Analyze =>
    case Interview =>
    case DataCollection =>
    case Refine =>
    case Validate =>
    case Complete =>
  }

  /** The prompt of a phase, stated over phases. */
  function PhasePrompt(p: Phase, context: Option<Context>): Result<AgentPrompt, FormatError> {
    if ContextGiven(context) && p != Analyze && p != Complete then Format(PhaseTemplate(p), ArgumentsOf(context.value))
    else Success(Raw(PhaseTemplate(p)))
  }

  /** The lookup by name agrees with the definition over phases. */
  lemma PhasePromptAgrees(p: Phase, context: Option<Context>)
    ensures GetAgentPrompt(PhaseName(p), context) == PhasePrompt(p, context)
  {
    TemplateOfPhase(p);
  }

  /** A phase without a template gets the empty text, whatever the context. */
  lemma UnknownPhaseIsEmpty(phase: string, context: Option<Context>)
    requires phase !in Templates
    ensures GetAgentPrompt(phase, context) == Success(Raw(EmptyTemplate))
  {
  }

  /** `complete` is such a phase: its name has no entry, so it gets the empty text. */
  lemma CompleteHasNoTemplate(context: Option<Context>)
    ensures PhaseName(Complete) !in Templates
    ensures PhasePrompt(Complete, context) == Success(Raw(EmptyTemplate))
  {
  }

  /** Without a context the stored template comes back untouched. */
  lemma NoContextIsRaw(phase: string, context: Option<Context>)
    requires !ContextGiven(context)
    ensures GetAgentPrompt(phase, context) == Success(Raw(if phase in Templates then Templates[phase] else EmptyTemplate))
  {
  }

  /** The analysis template is never formatted, so its `{confidence_score}` field reaches the model as written. */
  lemma AnalyzeIsNeverFormatted(context: Option<Context>)
    ensures PhasePrompt(Analyze, context) == Success(Raw(AnalyzeTemplate))
    ensures ConfidenceScoreField in AnalyzeTemplate.fields
  {
  }

  /** Interview, data collection and refinement format without error whenever a context is given. */
  lemma FormattedPhasesSucceed(p: Phase, context: Option<Context>)
    requires p == Interview || p == DataCollection || p == Refine
    requires ContextGiven(context)
    ensures PhasePrompt(p, context) == Success(Formatted(PhaseTemplate(p), ArgumentsOf(context.value)))
  {
    PhasePromptFails(p, context);
  }

  /** The validation template cannot be formatted: its conditional field is a key no argument has. */
  lemma ValidateFormatFails(context: Option<Context>)
    requires ContextGiven(context)
    ensures PhasePrompt(Validate, context) == Failure(KeyError(ConditionalField.text))
    ensures ConditionalField.text !in ArgumentNames
  {
    ValidateTemplateFails(ArgumentsOf(context.value));
  }

  lemma ValidateTemplateFails(args: FormatArgs)
    ensures Format(ValidateTemplate, args) == Failure(KeyError(ConditionalField.text))
  {
    assert forall i :: 0 <= i < |ValidateFieldsBefore| ==> !ValidateFieldsBefore[i].OtherField?;
    FirstUnknownAfterKnown(ValidateFieldsBefore, ConditionalField.text, ValidateFieldsAfter);
  }

  /** Fields the arguments supply do not stop formatting: the first other field is the one reported. */
  lemma {:induction false} FirstUnknownAfterKnown(known: seq<Field>, text: string, rest: seq<Field>)
    requires forall i :: 0 <= i < |known| ==> !known[i].OtherField?
    ensures FirstUnknownField(known + [OtherField(text)] + rest) == Some(text)
  {
    var fields := known + [OtherField(text)] + rest;
    if known != [] {
      assert fields[1..] == known[1..] + [OtherField(text)] + rest;
      FirstUnknownAfterKnown(known[1..], text, rest);
    }
  }

  /** With a context, formatting fails exactly for validation. */
  lemma PhasePromptFails(p: Phase, context: Option<Context>)
    requires ContextGiven(context)
    ensures PhasePrompt(p, context).Failure? <==> p == Validate
  {
    var args := ArgumentsOf(context.value);
    match p
    case Validate => ValidateTemplateFails(args);
    case Interview => KnownFieldsFormat(InterviewTemplate, args);
    case DataCollection => KnownFieldsFormat(DataCollectionTemplate, args);
    case Refine => KnownFieldsFormat(RefineTemplate, args);
    case Analyze =>
    case Complete =>
  }

  /** A template that only uses the six arguments formats. */
  lemma KnownFieldsFormat(t: Template, args: FormatArgs)
    requires forall i :: 0 <= i < |t.fields| ==> !t.fields[i].OtherField?
    ensures Format(t, args) == Success(Formatted(t, args))
  {
  }

  /** Over the six phases, formatting with a context fails exactly for validation. */
  lemma FailsOnlyForValidate(p: Phase, context: Option<Context>)
    requires ContextGiven(context)
    ensures GetAgentPrompt(PhaseName(p), context).Failure? <==> p == Validate
  {
    PhasePromptAgrees(p, context);
    PhasePromptFails(p, context);
  }

  /** An empty context dictionary yields the documented defaults. */
  lemma Defaults()
    ensures ArgumentsOf(Context(None, None, None, None, None, None)) == FormatArgs("N/A", [], map[], 0, "", 0.0)
  {
  }

  /** The table has exactly the five phase names as keys. */
  lemma TemplateKeys()
    ensures Templates.Keys == {"analyze", "interview", "data_collection", "refine", "validate"}
    ensures forall p: Phase :: PhaseName(p) in Templates <==> p != Complete
  {
  }
}
