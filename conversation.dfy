/**
 * The orchestration of one chat turn: the session state a turn advances, the
 * context handed to the phase template, and the request sent to the model
 * (system message, recent history, the new user message, parameters, client
 * settings). The classifier's and the model's answers are parameters.
 */
module Conversation {
  import opened Wrappers
  import opened Slots
  import opened Phases
  import opened Confidence
  import opened Extraction
  import opened Draft
  import opened AgentPrompts
  import opened Configuration

  const UserRole := "user"
  const AssistantRole := "assistant"

  /** How many stored messages are replayed to the model. */
  const HistoryWindow := 6

  /** A stored message, in timestamp order. */
  datatype ChatMessage = ChatMessage(role: string, content: string)

  /** The system message is either the phase's instructions or the configuration's own context. */
  datatype SystemContent = AgentInstructions(prompt: AgentPrompt) | ConfigurationContext(text: string)

  /** One message of the request. */
  datatype RequestMessage = System(body: SystemContent) | Chat(role: string, content: string)

  /** What is sent to the model: the messages, the request parameters and the client settings. */
  datatype Request = Request(messages: seq<RequestMessage>, parameters: Object, client: Object)

  // ---------------------------------------------------------------- the agent context

  /** The content of the first stored user message: the original prompt. */
  function FirstUserMessage(history: seq<ChatMessage>): Option<string> {
    if history == [] then None
    else if history[0].role == UserRole then Some(history[0].content)
    else FirstUserMessage(history[1..])
  }

  /** It is the content of a user message with none before it, and absent exactly when no message is the user's. */
  lemma {:induction false} FirstUserMessageIsFirst(history: seq<ChatMessage>)
    ensures var r := FirstUserMessage(history);
      (r.None? <==> forall i :: 0 <= i < |history| ==> history[i].role != UserRole) &&
      (r.Some? ==> exists i :: (0 <= i < |history| && history[i] == ChatMessage(UserRole, r.value) &&
        forall j :: 0 <= j < i ==> history[j].role != UserRole))
  {
    if history != [] && history[0].role != UserRole {
      var tail := history[1..];
      FirstUserMessageIsFirst(tail);
      var r := FirstUserMessage(tail);
      assert forall j :: 0 < j < |history| ==> history[j] == tail[j - 1];
      if r.Some? {
        var i :| 0 <= i < |tail| && tail[i] == ChatMessage(UserRole, r.value) &&
          forall j :: 0 <= j < i ==> tail[j].role != UserRole;
        assert history[i + 1] == ChatMessage(UserRole, r.value);
      }
    } else if history != [] {
      assert history[0] == ChatMessage(UserRole, history[0].content);
    }
  }

  /** Later messages never change the original prompt once a user message is stored. */
  lemma {:induction false} OriginalPromptStable(history: seq<ChatMessage>, later: seq<ChatMessage>)
    requires FirstUserMessage(history).Some?
    ensures FirstUserMessage(history + later) == FirstUserMessage(history)
  {
    if history[0].role != UserRole {
      assert (history + later)[1..] == history[1..] + later;
      OriginalPromptStable(history[1..], later);
    }
  }

  /**
   * `build_agent_context`: the original prompt ("N/A" before any user message
   * is stored), the issues, the slots, the turn count, the draft and the score.
   */
  function AgentContext(history: seq<ChatMessage>, info: SlotSet, issues: seq<string>, iteration: nat, confidence: real): Context {
    Context(Some(FirstUserMessage(history).GetOr("N/A")), Some(issues), Some(info), Some(iteration), Some(RefinedPrompt(info)), Some(confidence))
  }

  /** The context is never empty, and formatting reads the session's values from it, with "N/A" as the only default used. */
  lemma AgentContextArguments(history: seq<ChatMessage>, info: SlotSet, issues: seq<string>, iteration: nat, confidence: real)
    ensures ContextGiven(Some(AgentContext(history, info, issues, iteration, confidence)))
    ensures ArgumentsOf(AgentContext(history, info, issues, iteration, confidence)) ==
      FormatArgs(FirstUserMessage(history).GetOr("N/A"), issues, info, iteration, RefinedPrompt(info), confidence)
  {
  }

  // ---------------------------------------------------------------- the request

  /** The last `HistoryWindow` stored messages, oldest first. */
  function Recent(history: seq<ChatMessage>): (r: seq<ChatMessage>)
    ensures |r| == if |history| < HistoryWindow then |history| else HistoryWindow
    ensures forall k :: 0 <= k < |r| ==> r[k] == history[|history| - |r| + k]
  {
    if |history| <= HistoryWindow then history else history[|history| - HistoryWindow..]
  }

  /** The system message: the phase prompt when it is not empty, else the configuration's context when that is not empty. */
  function SystemLines(prompt: AgentPrompt, config: LLMConfiguration): (r: seq<RequestMessage>)
    ensures |r| <= 1
    ensures r == [] <==> prompt.template == EmptyTemplate && FullContext(config) == ""
    ensures prompt.template != EmptyTemplate ==> r == [System(AgentInstructions(prompt))]
    ensures prompt.template == EmptyTemplate && FullContext(config) != "" ==>
      r == [System(ConfigurationContext(FullContext(config)))]
  {
    if prompt.template != EmptyTemplate then [System(AgentInstructions(prompt))]
    else if FullContext(config) != "" then [System(ConfigurationContext(FullContext(config)))]
    else []
  }

  /** Stored messages as request messages. */
  function ChatLines(history: seq<ChatMessage>): (r: seq<RequestMessage>)
    ensures |r| == |history|
  {
    if history == [] then []
    else ChatLines(history[..|history| - 1]) + [Chat(history[|history| - 1].role, history[|history| - 1].content)]
  }

  /** Each stored message keeps its place, role and content. */
  lemma {:induction false} ChatLinesAt(history: seq<ChatMessage>, k: int)
    requires 0 <= k < |history|
    ensures ChatLines(history)[k] == Chat(history[k].role, history[k].content)
  {
    if k < |history| - 1 {
      ChatLinesAt(history[..|history| - 1], k);
    }
  }

  /** The request messages: system message, recent history, then the new user message. */
  function RequestMessages(prompt: AgentPrompt, config: LLMConfiguration, history: seq<ChatMessage>, userPrompt: string): seq<RequestMessage> {
    SystemLines(prompt, config) + ChatLines(Recent(history)) + [Chat(UserRole, userPrompt)]
  }

  /** The message list is built by appending: the system message, the recent history, the user message. */
  method BuildMessages(prompt: AgentPrompt, config: LLMConfiguration, history: seq<ChatMessage>, userPrompt: string)
    returns (messages: seq<RequestMessage>)
    ensures messages == RequestMessages(prompt, config, history, userPrompt)
  {
    messages := [];
    if prompt.template != EmptyTemplate {
      messages := messages + [System(AgentInstructions(prompt))];
    } else {
      var fullContext := FullContext(config);
      if fullContext != "" {
        messages := messages + [System(ConfigurationContext(fullContext))];
      }
    }
    assert messages == SystemLines(prompt, config);
    messages := AppendHistory(messages, Recent(history));
    messages := messages + [Chat(UserRole, userPrompt)];
  }

  /** The loop over the replayed messages, each appended with its role and content. */
  method AppendHistory(head: seq<RequestMessage>, previous: seq<ChatMessage>) returns (messages: seq<RequestMessage>)
    ensures messages == head + ChatLines(previous)
  {
    messages := head;
    for i := 0 to |previous|
      invariant messages == head + ChatLines(previous[..i])
    {
      assert previous[..i + 1][..i] == previous[..i];
      messages := messages + [Chat(previous[i].role, previous[i].content)];
    }
    assert previous[..|previous|] == previous;
  }

  /**
   * The shape of the request: at most one system message first, then the
   * replayed history, then the new user message last.
   */
  lemma RequestShape(prompt: AgentPrompt, config: LLMConfiguration, history: seq<ChatMessage>, userPrompt: string)
    ensures var r := RequestMessages(prompt, config, history, userPrompt);
      var s := |SystemLines(prompt, config)|;
      |r| == s + |Recent(history)| + 1 && s <= 1 &&
      (s == 1 ==> r[0] == SystemLines(prompt, config)[0]) &&
      r[|r| - 1] == Chat(UserRole, userPrompt)
  {
  }

  /** The replayed messages sit right after the system message: the last six stored ones, oldest first. */
  lemma RequestHistoryInOrder(prompt: AgentPrompt, config: LLMConfiguration, history: seq<ChatMessage>, userPrompt: string)
    ensures var r := RequestMessages(prompt, config, history, userPrompt);
      var s := |SystemLines(prompt, config)|;
      var recent := Recent(history);
      forall k :: 0 <= k < |recent| ==>
        s + k < |r| && r[s + k] == Chat(recent[k].role, recent[k].content) && recent[k] == history[|history| - |recent| + k]
  {
    var recent := Recent(history);
    forall k | 0 <= k < |recent| {
      ChatLinesAt(recent, k);
    }
  }

  /** Tool objects as JSON values. */
  function ToolValues(tools: seq<Object>): seq<Value> {
    seq(|tools|, i requires 0 <= i < |tools| => VObject(tools[i]))
  }

  /** The API parameters, with the tool list under `tools` when there is one. */
  function RequestParameters(config: LLMConfiguration): Object {
    var tools := ToolsFor(config);
    if tools != [] then ApiParameters(config)["tools" := VList(ToolValues(tools))] else ApiParameters(config)
  }

  /** The parameters are those of the configuration, with `tools` set when the tool list is not empty. */
  method BuildParameters(config: LLMConfiguration) returns (params: Object)
    ensures params == RequestParameters(config)
  {
    params := GetApiParameters(config);
    var tools := GetTools(config);
    if |tools| > 0 {
      params := params["tools" := VList(ToolValues(tools))];
    }
  }

  /** The tool list is sent only when it is not empty, and nothing else of the parameters changes. */
  lemma ToolsOnlyWhenPresent(config: LLMConfiguration)
    ensures ToolsFor(config) != [] ==> RequestParameters(config)["tools"] == VList(ToolValues(ToolsFor(config)))
    ensures ToolsFor(config) == [] ==> RequestParameters(config) == ApiParameters(config)
    ensures forall k :: k != "tools" && k in ApiParameters(config) ==>
      k in RequestParameters(config) && RequestParameters(config)[k] == ApiParameters(config)[k]
  {
  }

  /** The request a session state leads to, or the formatting error that stops the turn. */
  function PlannedRequest(config: LLMConfiguration, phase: Phase, info: SlotSet, issues: seq<string>, iteration: nat,
                          confidence: real, history: seq<ChatMessage>, userPrompt: string): Result<Request, FormatError> {
    match PhasePrompt(phase, Some(AgentContext(history, info, issues, iteration, confidence)))
    case Failure(e) => Failure(e)
    case Success(prompt) =>
      Success(Request(RequestMessages(prompt, config, history, userPrompt), RequestParameters(config), ClientConfig(config)))
  }

  /** A turn that enters validation never reaches the model: its template cannot be formatted. */
  lemma ValidateNeverReachesModel(config: LLMConfiguration, info: SlotSet, issues: seq<string>, iteration: nat,
                                   confidence: real, history: seq<ChatMessage>, userPrompt: string)
    ensures PlannedRequest(config, Validate, info, issues, iteration, confidence, history, userPrompt) == Failure(KeyError(ConditionalField.text))
  {
    ValidateTemplateFails(ArgumentsOf(AgentContext(history, info, issues, iteration, confidence)));
  }

  /** Every other phase yields a request: the turn fails exactly when it enters validation. */
  lemma FailsExactlyInValidate(config: LLMConfiguration, phase: Phase, info: SlotSet, issues: seq<string>, iteration: nat,
                               confidence: real, history: seq<ChatMessage>, userPrompt: string)
    ensures PlannedRequest(config, phase, info, issues, iteration, confidence, history, userPrompt).Failure? <==> phase == Validate
  {
    AgentContextArguments(history, info, issues, iteration, confidence);
    PhasePromptFails(phase, Some(AgentContext(history, info, issues, iteration, confidence)));
  }

  /** Interview, data collection and refinement send their template, formatted from the agent context, as the system message. */
  lemma FormattedPhasesSendPrompt(config: LLMConfiguration, p: Phase, info: SlotSet, issues: seq<string>, iteration: nat,
                                  confidence: real, history: seq<ChatMessage>, userPrompt: string)
    requires p == Interview || p == DataCollection || p == Refine
    ensures var r := PlannedRequest(config, p, info, issues, iteration, confidence, history, userPrompt);
      r.Success? &&
      r.value.messages[0] == System(AgentInstructions(Formatted(PhaseTemplate(p), ArgumentsOf(AgentContext(history, info, issues, iteration, confidence)))))
  {
    var context := Some(AgentContext(history, info, issues, iteration, confidence));
    AgentContextArguments(history, info, issues, iteration, confidence);
    FormattedPhasesSucceed(p, context);
  }

  /** Analysis sends its template unformatted as the system message. */
  lemma AnalysisSendsRawTemplate(config: LLMConfiguration, info: SlotSet, issues: seq<string>, iteration: nat,
                                 confidence: real, history: seq<ChatMessage>, userPrompt: string)
    ensures var r := PlannedRequest(config, Analyze, info, issues, iteration, confidence, history, userPrompt);
      r.Success? && r.value.messages[0] == System(AgentInstructions(Raw(AnalyzeTemplate)))
  {
  }

  /**
   * A completed session has no template, so the system message falls back to
   * the configuration's context, and is left out when that is empty too.
   */
  lemma CompleteUsesConfigurationContext(config: LLMConfiguration, info: SlotSet, issues: seq<string>, iteration: nat,
                                         confidence: real, history: seq<ChatMessage>, userPrompt: string)
    ensures var r := PlannedRequest(config, Complete, info, issues, iteration, confidence, history, userPrompt);
      r.Success? &&
      (FullContext(config) != "" ==> r.value.messages[0] == System(ConfigurationContext(FullContext(config)))) &&
      (FullContext(config) == "" ==> forall i :: 0 <= i < |r.value.messages| ==> r.value.messages[i].Chat?)
  {
    if FullContext(config) == "" {
      var prompt := Raw(EmptyTemplate);
      var recent := Recent(history);
      forall i | 0 <= i < |RequestMessages(prompt, config, history, userPrompt)|
        ensures RequestMessages(prompt, config, history, userPrompt)[i].Chat?
      {
        if i < |recent| {
          ChatLinesAt(recent, i);
        }
      }
    }
  }

  /** Before the first user message is stored, the original prompt reads "N/A". */
  lemma FirstTurnHasNoOriginal(info: SlotSet, issues: seq<string>, iteration: nat, confidence: real)
    ensures ArgumentsOf(AgentContext([], info, issues, iteration, confidence)).originalPrompt == "N/A"
  {
  }

  // ---------------------------------------------------------------- the session

  /**
   * A chat session. The stored score always belongs to the stored slots and
   * phase, and so lies in [0, 100].
   */
  class Session {
    var phase: Phase
    var collectedInfo: SlotSet
    var identifiedIssues: seq<string>
    var iterationCount: nat
    var confidenceScore: real
    var messages: seq<ChatMessage>

    ghost predicate Valid()
      reads this
    {
      confidenceScore == Score(collectedInfo, phase) && 0.0 <= confidenceScore <= 100.0
    }

    /** A new session: analysis, no slots, no issues, no turns, score 0. */
    constructor()
      ensures Valid()
      ensures phase == Analyze && collectedInfo == map[] && identifiedIssues == []
      ensures iterationCount == 0 && confidenceScore == 0.0 && messages == []
    {
      phase := Analyze;
      collectedInfo := map[];
      identifiedIssues := [];
      iterationCount := 0;
      confidenceScore := 0.0;
      messages := [];
      ScoreOfEmpty(Analyze);
    }

    /**
     * The state update of a turn: the next phase from the state before the
     * turn, extraction only after the first turn, the score of the new slots
     * in the new phase, one more turn, and the new phase.
     */
    method Advance(userPrompt: string, reply: Option<string>, parse: string -> Option<ReplyFields>)
      requires Valid()
      modifies this
      ensures Valid()
      ensures phase == NextPhase(old(phase), old(collectedInfo), old(confidenceScore), old(iterationCount), userPrompt)
      ensures collectedInfo == if old(iterationCount) > 0 then ExtractedInfo(userPrompt, old(collectedInfo), reply, parse) else old(collectedInfo)
      ensures confidenceScore == Score(collectedInfo, phase)
      ensures iterationCount == old(iterationCount) + 1
      ensures identifiedIssues == old(identifiedIssues) && messages == old(messages)
    {
      var nextPhase := NextPhase(phase, collectedInfo, confidenceScore, iterationCount, userPrompt);
      if iterationCount > 0 {
        var updatedInfo := ExtractInfoFromResponse(userPrompt, phase, collectedInfo, reply, parse);
        collectedInfo := updatedInfo;
      }
      var confidence := CalculateConfidenceScore(collectedInfo, nextPhase);
      confidenceScore := confidence;
      iterationCount := iterationCount + 1;
      phase := nextPhase;
    }

    /**
     * The request of the turn, from the committed state; the user message is
     * stored only when the phase prompt could be built.
     */
    method ComposeRequest(config: LLMConfiguration, userPrompt: string) returns (r: Result<Request, FormatError>)
      modifies this
      ensures r == PlannedRequest(config, phase, collectedInfo, identifiedIssues, iterationCount, confidenceScore, old(messages), userPrompt)
      ensures messages == old(messages) + (if r.Success? then [ChatMessage(UserRole, userPrompt)] else [])
      ensures phase == old(phase) && collectedInfo == old(collectedInfo) && identifiedIssues == old(identifiedIssues)
      ensures iterationCount == old(iterationCount) && confidenceScore == old(confidenceScore)
    {
      var context := AgentContext(messages, collectedInfo, identifiedIssues, iterationCount, confidenceScore);
      var agentPrompt := GetAgentPrompt(PhaseName(phase), Some(context));
      PhasePromptAgrees(phase, Some(context));
      if agentPrompt.Failure? {
        return Failure(agentPrompt.error);
      }
      var requestMessages := BuildMessages(agentPrompt.value, config, messages, userPrompt);
      messages := messages + [ChatMessage(UserRole, userPrompt)];
      var params := BuildParameters(config);
      var clientConfig := ClientConfig(config);
      r := Success(Request(requestMessages, params, clientConfig));
    }

    /** The model's streamed answer is stored when it is not empty. */
    method RecordAnswer(content: string)
      modifies this
      ensures messages == old(messages) + (if content != "" then [ChatMessage(AssistantRole, content)] else [])
      ensures phase == old(phase) && collectedInfo == old(collectedInfo) && identifiedIssues == old(identifiedIssues)
      ensures iterationCount == old(iterationCount) && confidenceScore == old(confidenceScore)
    {
      if content != "" {
        messages := messages + [ChatMessage(AssistantRole, content)];
      }
    }

    /**
     * One turn. `reply` is the classifier's answer and `answer` the model's
     * (`None` when the call fails); a failed prompt or call ends the turn
     * after the state update.
     */
    method Turn(config: LLMConfiguration, userPrompt: string, reply: Option<string>, parse: string -> Option<ReplyFields>,
                answer: Option<string>) returns (r: Result<Request, FormatError>)
      requires Valid()
      modifies this
      ensures Valid()
      ensures phase == NextPhase(old(phase), old(collectedInfo), old(confidenceScore), old(iterationCount), userPrompt)
      ensures collectedInfo == if old(iterationCount) > 0 then ExtractedInfo(userPrompt, old(collectedInfo), reply, parse) else old(collectedInfo)
      ensures iterationCount == old(iterationCount) + 1 && identifiedIssues == old(identifiedIssues)
      ensures r == PlannedRequest(config, phase, collectedInfo, identifiedIssues, iterationCount, confidenceScore, old(messages), userPrompt)
      ensures r.Failure? <==> phase == Validate
      ensures messages == old(messages) + StoredMessages(r.Success?, userPrompt, answer)
    {
      Advance(userPrompt, reply, parse);
      r := Respond(config, userPrompt, answer);
    }

    /**
     * The second half of a turn, on the committed state: the request, then
     * the answer stored when the request was sent and the model replied.
     */
    method Respond(config: LLMConfiguration, userPrompt: string, answer: Option<string>) returns (r: Result<Request, FormatError>)
      modifies this
      ensures r == PlannedRequest(config, phase, collectedInfo, identifiedIssues, iterationCount, confidenceScore, old(messages), userPrompt)
      ensures r.Failure? <==> phase == Validate
      ensures messages == old(messages) + StoredMessages(r.Success?, userPrompt, answer)
      ensures phase == old(phase) && collectedInfo == old(collectedInfo) && identifiedIssues == old(identifiedIssues)
      ensures iterationCount == old(iterationCount) && confidenceScore == old(confidenceScore)
    {
      r := ComposeRequest(config, userPrompt);
      FailsExactlyInValidate(config, phase, collectedInfo, identifiedIssues, iterationCount, confidenceScore, old(messages), userPrompt);
      if r.Success? && answer.Some? {
        RecordAnswer(answer.value);
      }
    }
  }

  /**
   * The messages a turn stores: none when the request could not be built;
   * otherwise the user's message, then the model's answer when there is one
   * and it is not empty.
   */
  function StoredMessages(sent: bool, userPrompt: string, answer: Option<string>): (r: seq<ChatMessage>)
    ensures |r| <= 2
    ensures sent <==> r != []
    ensures sent ==> r[0] == ChatMessage(UserRole, userPrompt)
    ensures |r| == 2 <==> sent && answer.Some? && answer.value != ""
    ensures |r| == 2 ==> r[1] == ChatMessage(AssistantRole, answer.value)
  {
    if !sent then []
    else [ChatMessage(UserRole, userPrompt)] + (if answer.Some? && answer.value != "" then [ChatMessage(AssistantRole, answer.value)] else [])
  }

  /**
   * The opening of every session: the first turn stays in analysis with
   * score 0 and reads no slots out of the first message; the second turn
   * therefore always moves to the interview, so the analysis shortcuts to
   * data collection, refinement and validation are never taken.
   */
  method FreshSessionOpening(first: string, second: string, reply1: Option<string>, reply2: Option<string>,
                             parse: string -> Option<ReplyFields>)
    returns (phase1: Phase, score1: real, phase2: Phase, info2: SlotSet)
    ensures phase1 == Analyze && score1 == 0.0
    ensures phase2 == Interview
    ensures info2 == ExtractedInfo(second, map[], reply2, parse)
  {
    var session := new Session();
    session.Advance(first, reply1, parse);
    phase1, score1 := session.phase, session.confidenceScore;
    ScoreOfEmpty(Analyze);
    session.Advance(second, reply2, parse);
    phase2, info2 := session.phase, session.collectedInfo;
  }
}
