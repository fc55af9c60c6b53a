/**
 * The LLM configuration record and the helpers that turn it into the pieces
 * of a chat request: the system context, the API parameters, the client
 * settings and the tool list; and the rule that at most one configuration is
 * the default.
 */
module Configuration {
  import opened Wrappers
  import opened Text

  /** A JSON value, as stored in the JSON fields and sent to the API. */
  datatype Value =
    | VString(s: string)
    | VInt(i: int)
    | VReal(r: real)
    | VBool(b: bool)
    | VNull
    | VList(items: seq<Value>)
    | VObject(fields: map<string, Value>)

  /** A JSON object. */
  type Object = map<string, Value>

  /** A tool row: its name, the provider it is for, its API type and its extra configuration. */
  datatype Tool = Tool(name: string, provider: string, toolType: string, configuration: Object, isActive: bool)

  /**
   * A configuration row. `pk` is `None` before the first save; `tools` are the
   * linked tools in the tool table's order (provider, then display name).
   */
  datatype LLMConfiguration = LLMConfiguration(
    pk: Option<nat>,
    name: string,
    provider: string,
    modelName: string,
    apiKey: string,
    baseUrl: Option<string>,
    systemPrompt: string,
    additionalContext: string,
    temperature: real,
    maxTokens: int,
    topP: real,
    frequencyPenalty: real,
    presencePenalty: real,
    modelParameters: Object,
    stream: bool,
    timeout: int,
    isActive: bool,
    isDefault: bool,
    tools: seq<Tool>)

  const OpenAI := "openai"
  const Anthropic := "anthropic"
  const Universal := "universal"

  // ---------------------------------------------------------------- context

  /** The heading written before the additional context. */
  const ContextHeading := "\n\nInformazioni aggiuntive:"

  /** The parts `get_full_context` collects: the system prompt, then the heading and the additional context. */
  function ContextParts(c: LLMConfiguration): seq<string> {
    (if c.systemPrompt != "" then [c.systemPrompt] else []) +
    (if c.additionalContext != "" then [ContextHeading, c.additionalContext] else [])
  }

  /** `get_full_context`: the parts joined by newlines, or the empty text when there are none. */
  function FullContext(c: LLMConfiguration): string {
    var parts := ContextParts(c);
    if parts == [] then "" else Join(parts, "\n")
  }

  /** The four shapes of the full context. */
  lemma FullContextCases(c: LLMConfiguration)
    ensures c.systemPrompt == "" && c.additionalContext == "" ==> FullContext(c) == ""
    ensures c.systemPrompt != "" && c.additionalContext == "" ==> FullContext(c) == c.systemPrompt
    ensures c.systemPrompt == "" && c.additionalContext != "" ==>
      FullContext(c) == ContextHeading + "\n" + c.additionalContext
    ensures c.systemPrompt != "" && c.additionalContext != "" ==>
      FullContext(c) == c.systemPrompt + "\n" + ContextHeading + "\n" + c.additionalContext
  {
    var parts := ContextParts(c);
    if c.systemPrompt != "" && c.additionalContext != "" {
      assert parts == [c.systemPrompt, ContextHeading, c.additionalContext];
      assert parts[..2] == [c.systemPrompt, ContextHeading] && parts[..2][..1] == [c.systemPrompt];
      assert Join(parts[..2], "\n") == c.systemPrompt + "\n" + ContextHeading;
      assert Join(parts, "\n") == Join(parts[..2], "\n") + "\n" + c.additionalContext;
    } else if c.additionalContext != "" {
      assert parts == [ContextHeading, c.additionalContext];
      assert parts[..1] == [ContextHeading];
      assert Join(parts, "\n") == Join(parts[..1], "\n") + "\n" + c.additionalContext;
    }
  }

  /** The full context is empty exactly when both the system prompt and the additional context are. */
  lemma FullContextEmptyIff(c: LLMConfiguration)
    ensures FullContext(c) == "" <==> c.systemPrompt == "" && c.additionalContext == ""
  {
    FullContextCases(c);
    if c.additionalContext != "" {
      assert |FullContext(c)| >= |ContextHeading|;
    }
  }

  // ---------------------------------------------------------------- API parameters

  /** The five parameters every provider receives. */
  function BaseParameters(c: LLMConfiguration): Object {
    map[
      "model" := VString(c.modelName),
      "temperature" := VReal(c.temperature),
      "max_tokens" := VInt(c.maxTokens),
      "top_p" := VReal(c.topP),
      "stream" := VBool(c.stream)]
  }

  /** The base parameters, plus the two penalties for OpenAI. */
  function ProviderParameters(c: LLMConfiguration): Object {
    if c.provider == OpenAI then
      BaseParameters(c)["frequency_penalty" := VReal(c.frequencyPenalty)]["presence_penalty" := VReal(c.presencePenalty)]
    else BaseParameters(c)
  }

  /** The request parameters: the provider's parameters, overridden and extended by `model_parameters`. */
  function ApiParameters(c: LLMConfiguration): Object {
    ProviderParameters(c) + c.modelParameters
  }

  /** `get_api_parameters`: a dictionary built up and then updated in place. */
  method GetApiParameters(c: LLMConfiguration) returns (params: Object)
    ensures params == ApiParameters(c)
  {
    params := map[
      "model" := VString(c.modelName),
      "temperature" := VReal(c.temperature),
      "max_tokens" := VInt(c.maxTokens),
      "top_p" := VReal(c.topP),
      "stream" := VBool(c.stream)];
    if c.provider == OpenAI {
      params := params["frequency_penalty" := VReal(c.frequencyPenalty)];
      params := params["presence_penalty" := VReal(c.presencePenalty)];
    }
    if |c.modelParameters| > 0 {
      params := params + c.modelParameters;
    } else {
      assert c.modelParameters == map[];
      assert params + c.modelParameters == params;
    }
  }

  /** The five common keys are always present, with the record's values unless `model_parameters` overrides them. */
  lemma ApiParametersCommon(c: LLMConfiguration)
    ensures var r := ApiParameters(c);
      "model" in r && "temperature" in r && "max_tokens" in r && "top_p" in r && "stream" in r
    ensures "model" !in c.modelParameters ==> ApiParameters(c)["model"] == VString(c.modelName)
    ensures "temperature" !in c.modelParameters ==> ApiParameters(c)["temperature"] == VReal(c.temperature)
    ensures "max_tokens" !in c.modelParameters ==> ApiParameters(c)["max_tokens"] == VInt(c.maxTokens)
    ensures "top_p" !in c.modelParameters ==> ApiParameters(c)["top_p"] == VReal(c.topP)
    ensures "stream" !in c.modelParameters ==> ApiParameters(c)["stream"] == VBool(c.stream)
  {
  }

  /** The penalties are sent for OpenAI, and otherwise only when `model_parameters` names them. */
  lemma PenaltiesOnlyForOpenAI(c: LLMConfiguration)
    ensures "frequency_penalty" in ApiParameters(c) <==> c.provider == OpenAI || "frequency_penalty" in c.modelParameters
    ensures "presence_penalty" in ApiParameters(c) <==> c.provider == OpenAI || "presence_penalty" in c.modelParameters
    ensures c.provider == OpenAI && "frequency_penalty" !in c.modelParameters ==>
      ApiParameters(c)["frequency_penalty"] == VReal(c.frequencyPenalty)
  {
  }

  /** Every `model_parameters` entry is sent as given, whatever it overrides. */
  lemma ModelParametersOverride(c: LLMConfiguration, k: string)
    requires k in c.modelParameters
    ensures k in ApiParameters(c) && ApiParameters(c)[k] == c.modelParameters[k]
  {
  }

  /** No other key is sent. */
  lemma ApiParameterKeys(c: LLMConfiguration)
    ensures ApiParameters(c).Keys ==
      {"model", "temperature", "max_tokens", "top_p", "stream"} +
      (if c.provider == OpenAI then {"frequency_penalty", "presence_penalty"} else {}) +
      c.modelParameters.Keys
  {
  }

  // ---------------------------------------------------------------- client

  /** A base URL is set when it is present and not empty. */
  predicate BaseUrlSet(c: LLMConfiguration) {
    c.baseUrl.Some? && c.baseUrl.value != ""
  }

  /** `get_client_config`: the key and timeout, and the base URL only when set. */
  function ClientConfig(c: LLMConfiguration): Object {
    var config := map["api_key" := VString(c.apiKey), "timeout" := VInt(c.timeout)];
    if BaseUrlSet(c) then config["base_url" := VString(c.baseUrl.value)] else config
  }

  /** The client always has the key and the timeout, and the base URL exactly when one is set. */
  lemma ClientConfigKeys(c: LLMConfiguration)
    ensures var r := ClientConfig(c);
      r.Keys == {"api_key", "timeout"} + (if BaseUrlSet(c) then {"base_url"} else {}) &&
      r["api_key"] == VString(c.apiKey) && r["timeout"] == VInt(c.timeout) &&
      (BaseUrlSet(c) ==> r["base_url"] == VString(c.baseUrl.value))
  {
  }

  // ---------------------------------------------------------------- tools

  /** The linked tools that are active, in order: the `is_active=True` filter. */
  function ActiveTools(tools: seq<Tool>): (r: seq<Tool>)
    ensures |r| <= |tools|
    ensures forall t :: t in r <==> t in tools && t.isActive
  {
    if tools == [] then []
    else ActiveTools(tools[..|tools| - 1]) + (if tools[|tools| - 1].isActive then [tools[|tools| - 1]] else [])
  }

  /** A tool is emitted when it is for the configuration's provider or for every provider. */
  predicate Compatible(provider: string, t: Tool) {
    t.provider == provider || t.provider == Universal
  }

  /**
   * The API form of one tool. OpenAI: the tool's configuration, with `type`
   * added only when missing. Anthropic: name and type, overridden by the
   * configuration. Any other provider: type, overridden by the configuration.
   */
  function FormatTool(provider: string, t: Tool): Object {
    if provider == OpenAI then
      if "type" in t.configuration then t.configuration else t.configuration["type" := VString(t.toolType)]
    else if provider == Anthropic then
      map["name" := VString(t.name), "type" := VString(t.toolType)] + t.configuration
    else
      map["type" := VString(t.toolType)] + t.configuration
  }

  /**
   * Every configuration entry is kept as given; `type` is always present and
   * comes from the tool type unless the configuration sets it; Anthropic
   * tools also carry their name; no other key is added.
   */
  lemma FormatToolShape(provider: string, t: Tool)
    ensures var r := FormatTool(provider, t);
      "type" in r && ("type" !in t.configuration ==> r["type"] == VString(t.toolType)) &&
      (forall k :: k in t.configuration ==> k in r && r[k] == t.configuration[k]) &&
      (provider == OpenAI ==> r.Keys == t.configuration.Keys + {"type"}) &&
      (provider == Anthropic ==> r.Keys == t.configuration.Keys + {"name", "type"}) &&
      (provider == Anthropic && "name" !in t.configuration ==> r["name"] == VString(t.name)) &&
      (provider != OpenAI && provider != Anthropic ==> r.Keys == t.configuration.Keys + {"type"})
  {
  }

  /** The formatted compatible tools of a list, in list order. */
  function ToolList(provider: string, tools: seq<Tool>): seq<Object> {
    if tools == [] then []
    else
      var last := tools[|tools| - 1];
      ToolList(provider, tools[..|tools| - 1]) + (if Compatible(provider, last) then [FormatTool(provider, last)] else [])
  }

  /** What `get_tools` returns. */
  function ToolsFor(c: LLMConfiguration): seq<Object> {
    ToolList(c.provider, ActiveTools(c.tools))
  }

  /** `get_tools`: the active tools are walked in order and the compatible ones appended in their API form. */
  method GetTools(c: LLMConfiguration) returns (toolsList: seq<Object>)
    ensures toolsList == ToolsFor(c)
  {
    var activeTools := ActiveTools(c.tools);
    if |activeTools| == 0 {
      return [];
    }
    toolsList := [];
    for i := 0 to |activeTools|
      invariant toolsList == ToolList(c.provider, activeTools[..i])
    {
      var tool := activeTools[i];
      assert activeTools[..i + 1][..i] == activeTools[..i];
      if tool.provider != c.provider && tool.provider != Universal {
        continue;
      }
      var toolConfig: Object;
      if c.provider == OpenAI {
        toolConfig := tool.configuration;
        if "type" !in toolConfig {
          toolConfig := toolConfig["type" := VString(tool.toolType)];
        }
      } else if c.provider == Anthropic {
        toolConfig := map["name" := VString(tool.name), "type" := VString(tool.toolType)] + tool.configuration;
      } else {
        toolConfig := map["type" := VString(tool.toolType)] + tool.configuration;
      }
      toolsList := toolsList + [toolConfig];
    }
    assert activeTools[..|activeTools|] == activeTools;
  }

  /** The list of a concatenation is the concatenation of the lists: tool order is kept. */
  lemma {:induction false} ToolListAppend(provider: string, a: seq<Tool>, b: seq<Tool>)
    ensures ToolList(provider, a + b) == ToolList(provider, a) + ToolList(provider, b)
  {
    if b != [] {
      assert (a + b)[..|a + b| - 1] == a + b[..|b| - 1];
      ToolListAppend(provider, a, b[..|b| - 1]);
    } else {
      assert a + b == a;
    }
  }

  /** Every emitted entry is the API form of a compatible tool of the list. */
  lemma {:induction false} ToolListSound(provider: string, tools: seq<Tool>, o: Object)
    requires o in ToolList(provider, tools)
    ensures exists t :: t in tools && Compatible(provider, t) && o == FormatTool(provider, t)
  {
    var init := tools[..|tools| - 1];
    var last := tools[|tools| - 1];
    if o in ToolList(provider, init) {
      ToolListSound(provider, init, o);
      var t :| t in init && Compatible(provider, t) && o == FormatTool(provider, t);
      assert t in tools;
    } else {
      assert Compatible(provider, last) && o == FormatTool(provider, last);
    }
  }

  /** Every compatible tool of the list is emitted. */
  lemma {:induction false} ToolListComplete(provider: string, tools: seq<Tool>, t: Tool)
    requires t in tools && Compatible(provider, t)
    ensures FormatTool(provider, t) in ToolList(provider, tools)
  {
    var init := tools[..|tools| - 1];
    if t != tools[|tools| - 1] {
      assert t in init by {
        var i :| 0 <= i < |tools| && tools[i] == t;
        assert i < |tools| - 1 && init[i] == t;
      }
      ToolListComplete(provider, init, t);
    }
  }

  /** `get_tools` emits exactly the active compatible tools; with no active tool, nothing. */
  lemma ToolsExactly(c: LLMConfiguration, o: Object)
    ensures o in ToolsFor(c) <==> exists t :: t in c.tools && t.isActive && Compatible(c.provider, t) && o == FormatTool(c.provider, t)
    ensures (forall t :: t in c.tools ==> !t.isActive) ==> ToolsFor(c) == []
  {
    var active := ActiveTools(c.tools);
    if o in ToolsFor(c) {
      ToolListSound(c.provider, active, o);
    }
    if exists t :: t in c.tools && t.isActive && Compatible(c.provider, t) && o == FormatTool(c.provider, t) {
      var t :| t in c.tools && t.isActive && Compatible(c.provider, t) && o == FormatTool(c.provider, t);
      ToolListComplete(c.provider, active, t);
    }
    if forall t :: t in c.tools ==> !t.isActive {
      assert active == [];
    }
  }

  // ---------------------------------------------------------------- the default flag

  /** No two rows are the default. */
  predicate AtMostOneDefault(rows: seq<LLMConfiguration>) {
    forall i, j :: 0 <= i < |rows| && 0 <= j < |rows| && rows[i].isDefault && rows[j].isDefault ==> i == j
  }

  /** No two rows share a key: the primary key constraint. */
  predicate DistinctKeys(rows: seq<LLMConfiguration>) {
    forall i, j :: 0 <= i < j < |rows| ==> rows[i].pk != rows[j].pk
  }

  /** Every row has a key and no two rows share one. */
  predicate KeyedRows(rows: seq<LLMConfiguration>) {
    (forall i :: 0 <= i < |rows| ==> rows[i].pk.Some?) && DistinctKeys(rows)
  }

  /** `filter(is_default=True).exclude(pk=pk).update(is_default=False)`. */
  function Demoted(rows: seq<LLMConfiguration>, pk: Option<nat>): (r: seq<LLMConfiguration>)
    ensures |r| == |rows|
  {
    seq(|rows|, i requires 0 <= i < |rows| => if rows[i].isDefault && rows[i].pk != pk then rows[i].(isDefault := false) else rows[i])
  }

  /** Writing a row: it replaces the row with its key, or is appended when there is none. */
  function Upsert(rows: seq<LLMConfiguration>, row: LLMConfiguration): (r: seq<LLMConfiguration>) {
    if exists i :: 0 <= i < |rows| && rows[i].pk == row.pk then
      seq(|rows|, i requires 0 <= i < |rows| => if rows[i].pk == row.pk then row else rows[i])
    else rows + [row]
  }

  /** The key a saved row receives: its own, or the next free one. */
  function AssignedPk(c: LLMConfiguration, nextPk: nat): nat {
    if c.pk.Some? then c.pk.value else nextPk
  }

  /** The table after `save`. */
  function SavedRows(rows: seq<LLMConfiguration>, c: LLMConfiguration, nextPk: nat): seq<LLMConfiguration> {
    Upsert(if c.isDefault then Demoted(rows, c.pk) else rows, c.(pk := Some(AssignedPk(c, nextPk))))
  }

  /** Saving a default row leaves it the only default, and present. */
  lemma SaveDefaultIsUnique(rows: seq<LLMConfiguration>, c: LLMConfiguration, nextPk: nat)
    requires KeyedRows(rows) && c.isDefault
    requires c.pk.None? ==> forall i :: 0 <= i < |rows| ==> rows[i].pk.value < nextPk
    ensures var r := SavedRows(rows, c, nextPk);
      (exists i :: 0 <= i < |r| && r[i] == c.(pk := Some(AssignedPk(c, nextPk)))) &&
      (forall i :: 0 <= i < |r| && r[i].isDefault ==> r[i].pk == Some(AssignedPk(c, nextPk)))
  {
    var d := Demoted(rows, c.pk);
    var row := c.(pk := Some(AssignedPk(c, nextPk)));
    var r := SavedRows(rows, c, nextPk);
    if exists i :: 0 <= i < |d| && d[i].pk == row.pk {
      var i :| 0 <= i < |d| && d[i].pk == row.pk;
      assert r[i] == row;
    } else {
      assert r[|d|] == row;
    }
  }

  /** Saving a default row only clears the flag of every other row, and changes nothing else in it. */
  lemma SaveDefaultDemotesOthers(rows: seq<LLMConfiguration>, c: LLMConfiguration, nextPk: nat, i: int)
    requires KeyedRows(rows) && c.isDefault
    requires 0 <= i < |rows| && rows[i].pk != Some(AssignedPk(c, nextPk))
    ensures var r := SavedRows(rows, c, nextPk); i < |r| && r[i] == rows[i].(isDefault := false)
  {
  }

  /** Saving a non-default row changes no other row. */
  lemma SaveNonDefaultLeavesOthers(rows: seq<LLMConfiguration>, c: LLMConfiguration, nextPk: nat, i: int)
    requires !c.isDefault && 0 <= i < |rows| && rows[i].pk != Some(AssignedPk(c, nextPk))
    ensures var r := SavedRows(rows, c, nextPk); i < |r| && r[i] == rows[i]
  {
  }

  /** Writing a keyed row keeps every key present and distinct. */
  lemma UpsertKeyed(base: seq<LLMConfiguration>, row: LLMConfiguration)
    requires KeyedRows(base) && row.pk.Some?
    ensures KeyedRows(Upsert(base, row))
  {
    if !exists i :: 0 <= i < |base| && base[i].pk == row.pk {
      var r := base + [row];
      assert forall i :: 0 <= i < |base| ==> r[i] == base[i];
    }
  }

  /** Writing a row that is the default only where no other key is, keeps one default at most. */
  lemma UpsertOneDefault(base: seq<LLMConfiguration>, row: LLMConfiguration)
    requires DistinctKeys(base) && AtMostOneDefault(base)
    requires row.isDefault ==> forall i :: 0 <= i < |base| && base[i].isDefault ==> base[i].pk == row.pk
    ensures AtMostOneDefault(Upsert(base, row))
  {
    if !exists i :: 0 <= i < |base| && base[i].pk == row.pk {
      var r := base + [row];
      assert forall i :: 0 <= i < |base| ==> r[i] == base[i];
    }
  }

  /** The saved table keeps distinct keys and at most one default. */
  lemma SaveKeepsInvariant(rows: seq<LLMConfiguration>, c: LLMConfiguration, nextPk: nat)
    requires KeyedRows(rows) && AtMostOneDefault(rows)
    ensures KeyedRows(SavedRows(rows, c, nextPk)) && AtMostOneDefault(SavedRows(rows, c, nextPk))
  {
    var row := c.(pk := Some(AssignedPk(c, nextPk)));
    var base := if c.isDefault then Demoted(rows, c.pk) else rows;
    assert forall i :: 0 <= i < |base| ==> base[i].pk == rows[i].pk;
    assert forall i :: 0 <= i < |base| && base[i].isDefault ==> rows[i].isDefault;
    assert c.isDefault ==> forall i :: 0 <= i < |base| && base[i].isDefault ==> base[i].pk == c.pk;
    UpsertKeyed(base, row);
    UpsertOneDefault(base, row);
  }

  /** The bulk update of the default flag, row by row. */
  method DemoteDefaults(rows: seq<LLMConfiguration>, pk: Option<nat>) returns (r: seq<LLMConfiguration>)
    ensures r == Demoted(rows, pk)
  {
    r := rows;
    var i := 0;
    while i < |r|
      invariant 0 <= i <= |r| == |rows|
      invariant r[..i] == Demoted(rows, pk)[..i]
      invariant forall k :: i <= k < |r| ==> r[k] == rows[k]
    {
      if r[i].isDefault && r[i].pk != pk {
        r := r[i := r[i].(isDefault := false)];
      }
      assert r[..i + 1] == r[..i] + [r[i]];
      i := i + 1;
    }
    assert r == r[..i];
  }

  /** Writing a row: a search for its key, then an update in place or an insert. */
  method WriteRow(rows: seq<LLMConfiguration>, row: LLMConfiguration) returns (r: seq<LLMConfiguration>)
    requires DistinctKeys(rows)
    ensures r == Upsert(rows, row)
  {
    var j := 0;
    while j < |rows| && rows[j].pk != row.pk
      invariant 0 <= j <= |rows|
      invariant forall k :: 0 <= k < j ==> rows[k].pk != row.pk
    {
      j := j + 1;
    }
    if j < |rows| {
      r := rows[j := row];
      assert forall k :: 0 <= k < |rows| && k != j ==> rows[k].pk != rows[j].pk;
    } else {
      r := rows + [row];
    }
  }

  /**
   * The configuration table. `save` is the only writer, so the table always
   * has distinct keys below `nextPk` and at most one default row.
   */
  class ConfigurationStore {
    var rows: seq<LLMConfiguration>
    var nextPk: nat

    ghost predicate Valid()
      reads this
    {
      KeyedRows(rows) && AtMostOneDefault(rows) &&
      forall i :: 0 <= i < |rows| ==> rows[i].pk.value < nextPk
    }

    constructor()
      ensures Valid() && rows == [] && nextPk == 1
    {
      rows := [];
      nextPk := 1;
    }

    /** `save`: clear the other default rows when this one is the default, then write this row. */
    method Save(c: LLMConfiguration) returns (saved: LLMConfiguration)
      requires Valid()
      modifies this
      ensures Valid()
      ensures saved == c.(pk := Some(AssignedPk(c, old(nextPk))))
      ensures rows == SavedRows(old(rows), c, old(nextPk))
      ensures nextPk == if AssignedPk(c, old(nextPk)) >= old(nextPk) then AssignedPk(c, old(nextPk)) + 1 else old(nextPk)
    {
      var table := rows;
      if c.isDefault {
        table := DemoteDefaults(table, c.pk);
      }
      var newPk := if c.pk.Some? then c.pk.value else nextPk;
      saved := c.(pk := Some(newPk));
      table := WriteRow(table, saved);
      SaveKeepsInvariant(rows, c, nextPk);
      rows := table;
      if newPk >= nextPk {
        nextPk := newPk + 1;
      }
    }
  }
}
