# Precettore: a verified model of the prompt-tutor orchestrator

Precettore is a Django application. It helps a user turn a vague request into
a well-structured prompt for a language model. A session moves through six
agent phases:

- `analyze`
- `interview`
- `data_collection`
- `refine`
- `validate`
- `complete`

On each turn the orchestrator does the following:

- it scores how complete the information collected so far is, as a confidence between 0 and 100;
- it picks the next phase from the current phase, the score, the iteration count and the user's words;
- it extracts a new piece of information from the user's reply, using a classifier model with a keyword fallback;
- it selects the phase's system prompt;
- it sends the conversation, together with the configuration's parameters and tools, to the model.

This project models that core in Dafny:

- `Slots`: the five-slot information set and its merge rule.
- `Confidence`: the weighted score.
- `Phases`: the phase policy.
- `Extraction`: the classifier reply decoding, code-fence stripping and merging, and the keyword fallback.
- `Draft`: the refined-prompt assembler.
- `AgentPrompts`: the template table and its dispatch.
- `Configuration`: the model-configuration record's request helpers and the default-flag rule on save.
- `Conversation`: the chat session object and one turn of the cycle.

`Text` and `Wrappers` hold string helpers (strip, lower-case, substring, join) and the
`Option`/`Result` types.

The model has the source's own shapes:

- Pure decisions are functions.
- Code that accumulates or updates in place is a method. Each such method is proved equal to a declarative function, and properties are proved about that function:
  - the score loop;
  - the dictionary copies updated key by key;
  - the section list;
  - the tool loop;
  - the parameter dictionary;
  - the bulk update in `save`.
- The session, whose fields a turn assigns one after the other, is a class. So is the configuration table.

Where the code and its documentation differ, the model follows the code:

- `complete` has no template. Its system message falls back to the configuration's context, and the policy returns `complete` unchanged.
- The `validate` template contains the replacement field `{refined_prompt if refined_prompt else original_prompt}`, which is not one of the six names `get_agent_prompt` supplies. Formatting it therefore always raises `KeyError`, so a turn that enters `validate` never reaches the model:
  - the phase, slots, score and iteration count have already been committed;
  - the user message has not been stored.
- The `interview_to_refine` threshold (20) is defined but never read.
- The revision keyword `ma` is matched as a substring, so an approving "Perfetto formato" counts as a revision request.
- The original prompt shown in the agent context is the first *stored* user message. The current message is stored after the context is built, so on the first turn the original prompt is `"N/A"`.
- A fresh session stays in `analyze` with score 0 on its first turn and always moves to `interview` on its second. This is because no information is extracted while the iteration count is 0. As a result, the shortcuts from `analyze` to `data_collection`, `refine` and `validate` are never taken from a fresh session.

## Model

| member | source | states |
|---|---|---|
| Slots.ExtendsCount | ai_tutor/home/views.py:57 | a slot set that extends another has at least as many populated values |
| Slots.Merge | ai_tutor/home/views.py:268-277 | a merge writes only the chosen slot, keeps every other key and never loses or shortens a populated slot |
| Slots.MergeConstraintsAppends | ai_tutor/home/views.py:268-273 | `vincoli` becomes old + " \| " + value when populated, otherwise value |
| Slots.MergeKeepsLonger | ai_tutor/home/views.py:275-277 | another slot takes the new value when empty or when the new value is strictly longer, and keeps the old one otherwise |
| Slots.MergeTwice | ai_tutor/home/views.py:268-277 | merging the same answer twice is idempotent for ordinary slots but appends twice for `vincoli` |
| Confidence.WeightedPoints | ai_tutor/home/views.py:43-50 | the weighted points are never negative |
| Confidence.Score | ai_tutor/home/views.py:31-64 | the score lies in [0, 100] and is the raw score, or 100 when the raw score exceeds 100 |
| Confidence.CalculateConfidenceScore | ai_tutor/home/views.py:20-64 | the loop over the weights, the penalty, the count bonus and the cap compute exactly `Score` |
| Confidence.WeightedPointsMonotone | ai_tutor/home/views.py:43-50 | more or longer slot values never give fewer weighted points |
| Confidence.ScoreMonotone | ai_tutor/home/views.py:31-64 | a slot set that extends another never scores lower, in any phase |
| Confidence.WeightedPointsOfWeights | ai_tutor/home/views.py:34-50 | the weighted points are the five slot terms with weights 35, 25, 20, 10, 10 |
| Confidence.ScoreOfEmpty | ai_tutor/home/views.py:31-64 | an empty slot set scores 0 in every phase |
| Confidence.NoObjectiveScoresBelowForceInterview | ai_tutor/home/views.py:53-54 | without an objective, refine and validate score at most 33.4, below the 40 threshold |
| Confidence.NoObjectiveReturnsToDataCollection | ai_tutor/home/views.py:53-54 | without an objective, the score of refine or validate always sends the session back to data collection |
| Confidence.SingleDetailedObjective | ai_tutor/home/views.py:31-64 | a single objective longer than 20 characters scores 42 in analysis, which routes to data collection |
| Confidence.AllSlotsDetailed | ai_tutor/home/views.py:31-64 | five detailed slots reach the cap of 100, and refine then moves to validate |
| Phases.AnalyzeTransitions | ai_tutor/home/views.py:105-127 | iteration 0 stays in analyze; otherwise 80 or more gives validate, 65 or more gives refine, 40 or more with an objective gives data collection, and anything else gives interview |
| Phases.InterviewTransitions | ai_tutor/home/views.py:130-139 | an objective below 65 gives data collection, 65 or more gives refine, otherwise the session stays in interview |
| Phases.DataCollectionTransitions | ai_tutor/home/views.py:142-143 | data collection always moves to refine |
| Phases.RefineTransitions | ai_tutor/home/views.py:146-158 | refine goes to validate exactly with 65 or more and an objective, otherwise to data collection, and never stays |
| Phases.ValidateTransitions | ai_tutor/home/views.py:161-181 | a revision keyword gives data collection; otherwise 80 or more, or approval with 65 or more, completes; otherwise data collection |
| Phases.CompleteIsAbsorbing | ai_tutor/home/views.py:183 | complete is returned unchanged |
| Phases.EntryPoints | ai_tutor/home/views.py:105-183 | complete is reached only from validate or complete, validate only from analyze or refine, and analyze only from analyze at iteration 0 |
| Phases.ApprovalCompletes | ai_tutor/home/views.py:174-178 | "ok" at confidence 70 during validation completes |
| Phases.RevisionRequestGoesBack | ai_tutor/home/views.py:163-167 | "Aggiungi un esempio" during validation goes back to data collection at any confidence |
| Phases.SubstringRevision | ai_tutor/home/views.py:163-167 | "Perfetto formato" at confidence 90 goes back to data collection, because "ma" occurs inside "formato" |
| Text.TrimStart | ai_tutor/home/views.py:201 | the result is a suffix of the input that does not start with white space |
| Text.TrimStartDropsSpaces | ai_tutor/home/views.py:201 | every dropped leading character is white space |
| Text.TrimEnd | ai_tutor/home/views.py:201 | the result is a prefix of the input that does not end with white space |
| Text.TrimEndDropsSpaces | ai_tutor/home/views.py:201 | every dropped trailing character is white space |
| Text.StripUnpadded | ai_tutor/home/views.py:248 | stripping a string without outer white space leaves it unchanged |
| Text.StripIdempotent | ai_tutor/home/views.py:257 | stripping twice is stripping once |
| Text.ContainsIff | ai_tutor/home/views.py:298 | the recursive substring test holds exactly when the word occurs at some index |
| Text.Lower | ai_tutor/home/views.py:295 | lower-casing keeps the length and maps each character |
| Text.LowerOfLowercase | ai_tutor/home/views.py:295 | a string with no upper-case letter is its own lower case |
| Text.JoinEmptyIff | ai_tutor/home/views.py:388 | a join with a non-empty separator is empty exactly for no parts or a single empty part |
| Extraction.BeforeFence | ai_tutor/home/views.py:253 | the text before the first fence is a prefix that holds no fence, and is followed by a fence or the end |
| Extraction.BeforeFenceClosed | ai_tutor/home/views.py:253 | the text before the closing fence of a body without backquotes is the body |
| Extraction.StripFencePlain | ai_tutor/home/views.py:248-257 | a reply that does not open with a fence is only stripped |
| Extraction.FencedUnpadded | ai_tutor/home/views.py:248 | a fenced reply has no outer white space |
| Extraction.OpenFence | ai_tutor/home/views.py:252-255 | opening a fenced body picks the body and drops a leading `json` tag |
| Extraction.StripFenceUnpadded | ai_tutor/home/views.py:248-257 | on a stripped reply, fence removal is the unfencing followed by a strip |
| Extraction.FencedReply | ai_tutor/home/views.py:248-257 | a fenced reply yields its body, with a leading `json` tag dropped, stripped |
| Extraction.FencedReplyRoundTrip | ai_tutor/home/views.py:248-257 | wrapping a body in a json-tagged fence and then removing it gives back the stripped body |
| Extraction.BareFenceRoundTrip | ai_tutor/home/views.py:248-257 | an untagged fence gives back the stripped body, and the first four characters are dropped only when the body starts with `json` |
| Extraction.ApplyReply | ai_tutor/home/views.py:260-277 | applying a classifier answer never loses or shortens a populated slot |
| Extraction.MentionedSlotsSlots | ai_tutor/home/views.py:298-321 | a slot is mentioned exactly when one of its keywords occurs in the lower-cased message |
| Extraction.FallbackInfoAt | ai_tutor/home/views.py:289-325 | each key of the fallback result is the fallback value when its slot is mentioned and writable, and the input's entry otherwise |
| Extraction.SlotNamesDistinct | ai_tutor/home/views.py:297-323 | the five tests are on five different slots |
| Extraction.FallbackInOrder | ai_tutor/home/views.py:297-323 | applying the tests one after the other equals the simultaneous rule, for distinct slots |
| Extraction.FallbackThroughSlotNames | ai_tutor/home/views.py:297-323 | the sequential fallback over the five slots is the five nested steps |
| Extraction.FallbackInfoInOrder | ai_tutor/home/views.py:289-325 | the fallback result is the five keyword tests in the source's order |
| Extraction.ExtractInfoFallback | ai_tutor/home/views.py:289-325 | the copy-and-update method computes exactly the fallback rule |
| Extraction.KeywordTests | ai_tutor/home/views.py:297-323 | the five independent tests, each on its own slot |
| Extraction.FallbackNoMatch | ai_tutor/home/views.py:289-325 | a message matching no keyword group leaves the slots equal to the input |
| Extraction.FallbackSlots | ai_tutor/home/views.py:297-323 | a mentioned empty slot receives the whole message, a populated slot other than `vincoli` is kept, `vincoli` appends with " \| ", and an unmentioned slot is untouched |
| Extraction.FallbackFrame | ai_tutor/home/views.py:294 | keys other than the five slots are untouched |
| Extraction.FallbackExtends | ai_tutor/home/views.py:289-325 | the fallback never loses or shortens a populated slot |
| Extraction.ApplyAnswer | ai_tutor/home/views.py:260-277 | the copy-and-update method computes exactly the merge rule |
| Extraction.ExtractInfoFromResponse | ai_tutor/home/views.py:186-286 | the method returns the short-message copy, the merged classifier answer, or the fallback on failure |
| Extraction.ShortReplyUnchanged | ai_tutor/home/views.py:200-202 | a message shorter than 5 characters after stripping leaves the slots unchanged, whatever the classifier says |
| Extraction.WeakAnswerIgnored | ai_tutor/home/views.py:262-267 | an answer with confidence at most 0.5 or an unknown category changes nothing |
| Extraction.ExtractionExtends | ai_tutor/home/views.py:186-286 | extraction never loses or shortens a populated slot |
| Extraction.ExtractionNeverLowersScore | ai_tutor/home/views.py:186-286 | extraction never lowers the confidence score of any phase |
| Draft.Section | ai_tutor/home/views.py:373-386 | each line starts with `**` and is not empty |
| Draft.Sections | ai_tutor/home/views.py:371-386 | at most one line per slot of the order |
| Draft.BuildRefinedPrompt | ai_tutor/home/views.py:358-388 | the appending method computes exactly the declarative draft |
| Draft.SectionsOfDraftOrder | ai_tutor/home/views.py:373-386 | the draft lines are Ruolo, Contesto, Obiettivo, Vincoli, Formato Output, each present exactly when its slot is populated |
| Draft.SectionsEmptyIff | ai_tutor/home/views.py:371-386 | no line is written exactly when no slot of the order is populated |
| Draft.SectionsComplete | ai_tutor/home/views.py:371-386 | every populated slot has its line |
| Draft.SectionsSound | ai_tutor/home/views.py:371-386 | every line belongs to a populated slot |
| Draft.DraftOrderCoversSlots | ai_tutor/home/views.py:373-386 | the draft reads exactly the five slots |
| Draft.RefinedPromptEmptyIff | ai_tutor/home/views.py:368-388 | the draft is empty exactly when none of the five slots is populated |
| Draft.DraftShowsEverySlot | ai_tutor/home/views.py:373-388 | every populated slot's `**Label**: value` line occurs in the draft |
| Draft.JoinContainsParts | ai_tutor/home/views.py:388 | every part occurs in the joined text |
| Draft.RoleComesFirst | ai_tutor/home/views.py:373-374 | a populated role opens the draft |
| Draft.JoinStartsWithFirst | ai_tutor/home/views.py:388 | a join begins with its first part |
| Draft.ObjectiveOnly | ai_tutor/home/views.py:379-380 | with only an objective, the draft is its single line |
| AgentPrompts.FieldSupplied | ai_tutor/home/agent_prompts.py:552-559 | a template field is supplied exactly when it is one of the six argument names |
| AgentPrompts.FirstUnknownField | ai_tutor/home/agent_prompts.py:552 | the reported field is an unknown field of the template, and there is none exactly when all fields are known |
| AgentPrompts.Format | ai_tutor/home/agent_prompts.py:552-559 | formatting succeeds exactly when every field is supplied, and otherwise fails with an unknown field of the template |
| AgentPrompts.TemplateOfPhase | ai_tutor/home/agent_prompts.py:548-550 | each phase's name selects its template, and the formatted phases are all but analyze and complete |
| AgentPrompts.PhasePromptAgrees | ai_tutor/home/agent_prompts.py:537-561 | dispatch by phase name agrees with the per-phase reference definition |
| AgentPrompts.UnknownPhaseIsEmpty | ai_tutor/home/agent_prompts.py:548 | a name with no entry gives the empty prompt |
| AgentPrompts.CompleteHasNoTemplate | ai_tutor/home/agent_prompts.py:548 | complete has no entry, and its prompt is empty with or without a context |
| AgentPrompts.NoContextIsRaw | ai_tutor/home/agent_prompts.py:550-561 | without a context (none or empty), every phase gets its raw template |
| AgentPrompts.AnalyzeIsNeverFormatted | ai_tutor/home/agent_prompts.py:550 | analyze is never formatted, although its template has a replacement field |
| AgentPrompts.FormattedPhasesSucceed | ai_tutor/home/agent_prompts.py:550-559 | interview, data collection and refine with a context are formatted from the context |
| AgentPrompts.ValidateFormatFails | ai_tutor/home/agent_prompts.py:404 | validate with a context fails with a KeyError on the conditional field, whose name is none of the six supplied |
| AgentPrompts.ValidateTemplateFails | ai_tutor/home/agent_prompts.py:369-404 | the validate template reaches its conditional field after six known fields, so formatting it fails on that field whatever the arguments |
| AgentPrompts.PhasePromptFails | ai_tutor/home/agent_prompts.py:537-561 | with a context, a phase's prompt fails exactly for validate |
| AgentPrompts.KnownFieldsFormat | ai_tutor/home/agent_prompts.py:552-559 | a template whose fields are all supplied is formatted |
| AgentPrompts.FailsOnlyForValidate | ai_tutor/home/agent_prompts.py:537-561 | with a context, dispatch by name fails exactly for validate |
| AgentPrompts.Defaults | ai_tutor/home/agent_prompts.py:553-558 | missing context keys default to "N/A", [], {}, 0, "" and 0 |
| AgentPrompts.TemplateKeys | ai_tutor/home/agent_prompts.py:12-534 | the table holds exactly analyze, interview, data_collection, refine and validate, which is every phase but complete |
| Configuration.FullContextCases | ai_tutor/home/models.py:177-188 | the full context is "", the system prompt, the heading and the context, or all three, joined by newlines |
| Configuration.FullContextEmptyIff | ai_tutor/home/models.py:177-188 | the full context is empty exactly when both parts are empty |
| Configuration.GetApiParameters | ai_tutor/home/models.py:190-210 | the update-in-place method computes exactly the declarative parameters |
| Configuration.ApiParametersCommon | ai_tutor/home/models.py:193-199 | model, temperature, max_tokens, top_p and stream are always present, with the record's values unless overridden |
| Configuration.PenaltiesOnlyForOpenAI | ai_tutor/home/models.py:202-204 | the penalties appear exactly for openai or when the model parameters name them |
| Configuration.ModelParametersOverride | ai_tutor/home/models.py:207-208 | every model-parameter entry overrides the earlier keys |
| Configuration.ApiParameterKeys | ai_tutor/home/models.py:190-210 | the keys are the five common ones, the penalties for openai, and the model parameters |
| Configuration.ClientConfigKeys | ai_tutor/home/models.py:212-222 | the client settings are api_key and timeout, plus base_url exactly when it is set |
| Configuration.ActiveTools | ai_tutor/home/models.py:226 | the active tools are exactly the linked tools marked active |
| Configuration.FormatToolShape | ai_tutor/home/models.py:238-256 | openai copies the configuration and adds type only when absent; anthropic writes name and type, then the configuration entries, which override them; other providers write type, then the configuration |
| Configuration.GetTools | ai_tutor/home/models.py:224-258 | the loop with its early return and `continue` computes exactly the declarative tool list |
| Configuration.ToolListAppend | ai_tutor/home/models.py:231-258 | the tool list of a concatenation is the concatenation of the tool lists, so iteration order is kept |
| Configuration.ToolListSound | ai_tutor/home/models.py:232-256 | every emitted tool comes from a compatible tool |
| Configuration.ToolListComplete | ai_tutor/home/models.py:232-256 | every compatible tool is emitted |
| Configuration.ToolsExactly | ai_tutor/home/models.py:224-258 | the emitted tools are exactly the active tools of the configuration's provider or universal, and none when no tool is active |
| Configuration.Demoted | ai_tutor/home/models.py:263 | the bulk update keeps the number of rows |
| Configuration.SaveDefaultIsUnique | ai_tutor/home/models.py:260-264 | after saving a default row, it is present and every default row has its key |
| Configuration.SaveDefaultDemotesOthers | ai_tutor/home/models.py:262-264 | saving a default row leaves every row with another key as it was, except that its default flag is cleared |
| Configuration.SaveNonDefaultLeavesOthers | ai_tutor/home/models.py:260-264 | saving a non-default row leaves every other row untouched |
| Configuration.UpsertKeyed | ai_tutor/home/models.py:264 | writing a keyed row keeps every key present and distinct |
| Configuration.UpsertOneDefault | ai_tutor/home/models.py:262-264 | writing a row that is the only possible default keeps one default at most |
| Configuration.SaveKeepsInvariant | ai_tutor/home/models.py:260-264 | a save keeps distinct keys and at most one default |
| Configuration.DemoteDefaults | ai_tutor/home/models.py:263 | the row-by-row loop computes the bulk update |
| Configuration.WriteRow | ai_tutor/home/models.py:264 | the search-and-write loop replaces the row with the saved key or appends the row |
| Configuration.ConfigurationStore.constructor | ai_tutor/home/models.py:66 | the table starts empty and valid |
| Configuration.ConfigurationStore.Save | ai_tutor/home/models.py:260-264 | the saved row receives its key, the table becomes the declarative saved table, and the invariant is kept |
| Conversation.FirstUserMessageIsFirst | ai_tutor/home/views.py:340-341 | the original prompt is the earliest stored user message, and there is none exactly when no user message is stored |
| Conversation.OriginalPromptStable | ai_tutor/home/views.py:340-341 | once a user message is stored, the original prompt never changes |
| Conversation.AgentContextArguments | ai_tutor/home/views.py:339-353 | the context is never empty and supplies the original prompt or "N/A", the issues, the slots, the iteration, the draft and the confidence |
| Conversation.FirstTurnHasNoOriginal | ai_tutor/home/views.py:341 | with no stored message, the original prompt is "N/A" |
| Conversation.Recent | ai_tutor/home/views.py:513-514 | the history window is the last six messages, or all of them, in chronological order |
| Conversation.SystemLines | ai_tutor/home/views.py:504-510 | the system message is the phase prompt when it is not empty, else the configuration's context when that is not empty, else there is none |
| Conversation.ChatLines | ai_tutor/home/views.py:515-516 | one request message per stored message |
| Conversation.ChatLinesAt | ai_tutor/home/views.py:515-516 | each request message copies its stored message's role and content |
| Conversation.BuildMessages | ai_tutor/home/views.py:501-519 | the appending method computes exactly the declarative message list |
| Conversation.AppendHistory | ai_tutor/home/views.py:515-516 | the loop appends each recent message in order |
| Conversation.RequestShape | ai_tutor/home/views.py:501-519 | for every history, the request has the optional system message first, one message per replayed message, and the user's message last |
| Conversation.RequestHistoryInOrder | ai_tutor/home/views.py:512-516 | right after the system message come the last six stored messages, oldest first, with their roles and contents |
| Conversation.BuildParameters | ai_tutor/home/views.py:529-535 | the method computes exactly the declarative request parameters |
| Conversation.ToolsOnlyWhenPresent | ai_tutor/home/views.py:533-535 | `tools` is set exactly when some tool is emitted, and every other parameter is unchanged |
| Conversation.ValidateNeverReachesModel | ai_tutor/home/views.py:493-496 | a turn in validate fails with the KeyError before any message is sent |
| Conversation.FailsExactlyInValidate | ai_tutor/home/views.py:493-496 | a turn's request fails exactly when the phase is validate |
| Conversation.FormattedPhasesSendPrompt | ai_tutor/home/views.py:493-505 | interview, data collection and refinement send their template formatted from the agent context as the system message |
| Conversation.AnalysisSendsRawTemplate | ai_tutor/home/views.py:496-505 | in analysis the raw template is sent as the system message |
| Conversation.CompleteUsesConfigurationContext | ai_tutor/home/views.py:504-510 | in complete, the configuration's context is the system message, or there is no system message when it is empty |
| Conversation.StoredMessages | ai_tutor/home/views.py:522-561 | a turn stores nothing if the request failed, else the user's message, then the answer's text when it is not empty |
| Conversation.Session.constructor | ai_tutor/home/models.py:280-311 | a new session is in analyze with no slots, no issues, iteration 0, confidence 0 and no messages |
| Conversation.Session.Advance | ai_tutor/home/views.py:459-480 | the next phase comes from the pre-turn state; extraction happens only after the first turn; the score is recomputed from the new slots and next phase; the iteration count grows by one |
| Conversation.Session.ComposeRequest | ai_tutor/home/views.py:493-535 | the request is the planned one from the committed state, and the user message is stored exactly when it was built |
| Conversation.Session.RecordAnswer | ai_tutor/home/views.py:555-561 | a non-empty answer is stored |
| Conversation.Session.Respond | ai_tutor/home/views.py:493-561 | the planned request, failing exactly in validate, with the messages it stores |
| Conversation.Session.Turn | ai_tutor/home/views.py:445-568 | one whole turn: the state update, the planned request that fails exactly in validate, and the stored messages |
| Conversation.FreshSessionOpening | ai_tutor/home/views.py:105-127 | a fresh session stays in analyze with score 0 on its first turn and moves to interview on its second |

## Left out

- HTTP handling and streaming are not modelled: `homepage`, request parsing and configuration/session lookup in `llm_api`, the server-sent-event framing, `get_configurations` and `get_session_history`.
- The model is never called. Its streamed answer is a parameter of `Session.Turn`: `None` when the call fails, otherwise the concatenated text.
- The classifier call and `json.loads` are abstract. The classifier's reply is a parameter (`None` when the call fails), and parsing is a function parameter `parse` that yields the three optional fields or nothing. Any failure leads to the keyword fallback, as in the source.
- The prose of the agent templates is left out. A template is its name and its replacement fields in text order, and formatting is modelled only as "all fields supplied, or a KeyError on the first unknown one". Python's general `str.format` and `get_orchestrator_prompt` are not modelled.
- `round(confidence, 1)` in the agent context is not modelled; the context carries the exact score.
- Conversation.AgentContextArguments: the confidence it states is the unrounded score, because the rounding is not modelled.
- Scores are exact reals instead of floats. Every weight and the 0.3 and 0.2 factors are exact in tenths, so the thresholds 40, 65 and 80 compare the same way.
- Text.Lower: only ASCII letters are lower-cased, so `"Però"` and `"Sì"` are matched as ASCII text.
- Text.Strip and Text.TrimStart: only ASCII white space is removed, with no Unicode semantics.
- Values in `collected_info` are strings. The classifier's value is taken to be a string: a list or object value, which the source stores unchanged in an empty slot and then scores by its `len`, is outside the model (`parse` yields `None` for such a reply).
- The completeness bonus counts every populated key of `collected_info`, as the source does, not only the five slots.
- The ORM is modelled as follows:
  - query sets are sequences in their query order;
  - the database's key assignment is the store's `nextPk` counter;
  - `save()` persistence of the session is the object's own fields.
- Logging is left out.
- The order of dictionary insertion is left out: parameter, client and tool objects are maps.
- `identified_issues` is never updated by the core, so it is carried along unchanged.
- Concurrency is left out: the source has no locking, and two requests on one session are outside the model.
- Exception messages in the error output of `stream()` are left out. A failed prompt is the `Failure` result with its unknown field name.
- Field validators, the `Meta` options and `__str__` methods of the records are left out. So are the admin and the seeding scripts.
