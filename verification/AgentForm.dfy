/** The agent form: a flat draft built from a stored agent, and the config built back from it
    over the stored one. What JavaScript itself does (trimming, JSON and number conversion) is
    a parameter with the laws the form relies on. */
module AgentForm {
  import opened AttemptResults
  import opened HeaderText
  import opened Json
  import opened Lines
  import opened Scanning
  import Template = RequestTemplate

  datatype Host = Host(
    space: char -> bool,
    json: Value -> bool,
    pretty: Value -> string,
    compact: Value -> string,
    parse: string -> Option<Value>,
    show: Value -> string,
    number: string -> Option<real>)

  predicate ReadsBack(h: Host, n: int) {
    h.number(h.show(Number(n as real))) == Some(n as real) && Trim(h.space, h.show(Number(n as real))) != ""
  }

  /** A value JSON text can hold parses back from its text (`json` says which those are: a
      number, say, has to be a finite double), and a whole number as large as the form's
      fields allow converts to a string and back. */
  ghost predicate Lawful(h: Host) {
    && SpaceClass(h.space)
    && (forall v :: h.json(v) ==> h.parse(h.pretty(v)) == Some(v))
    && (forall n :: 0 <= n <= 120_000 ==> ReadsBack(h, n))
  }

  datatype Key =
    | AdapterType | Transport | Url | AllowPrivate | TimeoutMs | MaxRetries | Method | RequestTemplate | FollowRedirects
    | Output | ToolCalls | ToolName | ToolArguments | InputTokens | OutputTokens | TotalTokens
    | Other(name: string)

  /** A stored config: `headers` and `response` are objects of their own. A field the form does
      not know is an `Other`. */
  datatype Config = Config(fields: map<Key, Value>, headers: Option<seq<Header>>, response: Option<map<Key, Value>>)

  datatype Agent = Agent(name: string, adapterType: string, config: Config)

  datatype Draft = Draft(
    name: string,
    mcp: bool,
    url: string,
    allowPrivate: bool,
    headers: string,
    timeoutMs: string,
    maxRetries: string,
    verb: string,
    template: string,
    followRedirects: bool,
    output: string,
    toolCalls: string,
    toolName: string,
    toolArguments: string,
    inputTokens: string,
    outputTokens: string,
    totalTokens: string)

  datatype FormField = NameField | UrlField | HeadersField | TemplateField | TimeoutField | RetriesField

  datatype Built = Accepted(config: Config) | Refused(fields: set<FormField>)

  const DEFAULT_TEMPLATE := Object([Field("input", Text("{{input}}")), Field("documents", Text("{{documents}}"))])

  function Get(fields: map<Key, Value>, key: Key): Option<Value> {
    if key in fields then Some(fields[key]) else None
  }

  function Str(v: Option<Value>, fallback: string): string {
    if v.Some? && v.value.Text? then v.value.text else fallback
  }

  /** `??`. */
  function OrElse(v: Option<Value>, fallback: Value): Value {
    if v.None? || v.value.Null? then fallback else v.value
  }

  function MethodOf(v: Option<Value>): string {
    if v.Some? && v.value.Text? && v.value.text in ["POST", "PUT", "PATCH"] then v.value.text else "POST"
  }

  function DraftFrom(h: Host, agent: Agent): Draft {
    var c := agent.config.fields;
    var response := if agent.config.response.Some? then agent.config.response.value else map[];
    var headers := if agent.config.headers.Some? then agent.config.headers.value else [];
    Draft(
      name := agent.name,
      mcp := agent.adapterType == "mcp",
      url := Str(Get(c, Url), ""),
      allowPrivate := Get(c, AllowPrivate) == Some(Bool(true)),
      headers := PrintHeaders(headers),
      timeoutMs := h.show(OrElse(Get(c, TimeoutMs), Number(30000.0))),
      maxRetries := h.show(OrElse(Get(c, MaxRetries), Number(2.0))),
      verb := MethodOf(Get(c, Method)),
      template := h.pretty(OrElse(Get(c, RequestTemplate), DEFAULT_TEMPLATE)),
      followRedirects := Get(c, FollowRedirects) == Some(Bool(true)),
      output := Str(Get(response, Output), "$.output"),
      toolCalls := Str(Get(response, ToolCalls), ""),
      toolName := Str(Get(response, ToolName), "$.tool"),
      toolArguments := Str(Get(response, ToolArguments), "$.arguments"),
      inputTokens := Str(Get(response, InputTokens), ""),
      outputTokens := Str(Get(response, OutputTokens), ""),
      totalTokens := Str(Get(response, TotalTokens), ""))
  }

  function WholeNumber(h: Host, text: string, min: int, max: int): Option<int> {
    var n := h.number(text);
    if Trim(h.space, text) != "" && n.Some? && n.value.Floor as real == n.value && min <= n.value.Floor <= max
    then Some(n.value.Floor) else None
  }

  /** The draft of a new agent (`NEW`). */
  function NewDraft(h: Host): Draft {
    Draft(
      name := "", mcp := false, url := "", allowPrivate := true, headers := "", timeoutMs := "30000", maxRetries := "2",
      verb := "POST", template := h.pretty(DEFAULT_TEMPLATE), followRedirects := false, output := "$.output",
      toolCalls := "$.tool_calls", toolName := "$.tool", toolArguments := "$.arguments", inputTokens := "",
      outputTokens := "", totalTokens := "$.usage.total_tokens")
  }

  /** An agent of whose settings nothing is stored is shown as a new one, but for what a new one
      turns on: private addresses, and the demo agents' tool calls and token totals. */
  lemma UnsetIsNew(h: Host, agent: Agent)
    requires agent.adapterType == "http" && agent.config == Config(map[], None, None)
    requires h.show(Number(30000.0)) == "30000" && h.show(Number(2.0)) == "2"
    ensures DraftFrom(h, agent)
         == NewDraft(h).(name := agent.name, allowPrivate := false, toolCalls := "", totalTokens := "")
  {
  }

  predicate Contains(s: string, part: string) {
    part <= s || (s != "" && Contains(s[1..], part))
  }

  function TemplateOf(h: Host, draft: Draft): Option<Value> {
    if draft.mcp then Some(Null)
    else
      var template := h.parse(draft.template);
      if template.Some? && Contains(h.compact(template.value), "{{input}}") then template else None
  }

  function ParsedHeaders(h: Host, draft: Draft): Parsed {
    Parse(h.space, Split(draft.headers), 1, [])
  }

  function Errors(h: Host, draft: Draft): set<FormField> {
    (if Trim(h.space, draft.name) == "" then {NameField} else {})
    + (if Trim(h.space, draft.url) == "" then {UrlField} else {})
    + (if ParsedHeaders(h, draft).BadLine? then {HeadersField} else {})
    + (if WholeNumber(h, draft.timeoutMs, 1, 120_000).None? then {TimeoutField} else {})
    + (if WholeNumber(h, draft.maxRetries, 0, 5).None? then {RetriesField} else {})
    + (if TemplateOf(h, draft).None? then {TemplateField} else {})
  }

  function OrDefault(h: Host, s: string, fallback: string): Value {
    Text(if Trim(h.space, s) == "" then fallback else Trim(h.space, s))
  }

  function OrNull(h: Host, s: string): Value {
    if Trim(h.space, s) == "" then Null else Text(Trim(h.space, s))
  }

  /** The paths that have a default, and those that may be unset. */
  function PathUpdates(h: Host, draft: Draft): map<Key, Value> {
    map[
      Output := OrDefault(h, draft.output, "$.output"),
      ToolName := OrDefault(h, draft.toolName, "$.tool"),
      ToolArguments := OrDefault(h, draft.toolArguments, "$.arguments")]
  }

  function OptionalUpdates(h: Host, draft: Draft): map<Key, Value> {
    map[
      ToolCalls := OrNull(h, draft.toolCalls),
      InputTokens := OrNull(h, draft.inputTokens),
      OutputTokens := OrNull(h, draft.outputTokens),
      TotalTokens := OrNull(h, draft.totalTokens)]
  }

  function ResponseUpdates(h: Host, draft: Draft): map<Key, Value> {
    PathUpdates(h, draft) + OptionalUpdates(h, draft)
  }

  function CommonUpdates(h: Host, draft: Draft, timeout: int, retries: int): map<Key, Value> {
    map[
      Url := Text(Trim(h.space, draft.url)),
      TimeoutMs := Number(timeout as real),
      MaxRetries := Number(retries as real),
      AllowPrivate := Bool(draft.allowPrivate)]
  }

  function HttpUpdates(draft: Draft, template: Value): map<Key, Value> {
    map[Method := Text(draft.verb), RequestTemplate := template, FollowRedirects := Bool(draft.followRedirects)]
  }

  function Build(h: Host, draft: Draft, base: Config, headers: seq<Header>, timeout: int, retries: int,
                 template: Value): Config {
    var common := CommonUpdates(h, draft, timeout, retries);
    if draft.mcp then
      Config(base.fields + map[AdapterType := Text("mcp"), Transport := Text("http")] + common, Some(headers),
          base.response)
    else
      Config(
        base.fields + map[AdapterType := Text("http")] + common + HttpUpdates(draft, template),
        Some(headers),
        Some((if base.response.Some? then base.response.value else map[]) + ResponseUpdates(h, draft)))
  }

  lemma FilledIn(h: Host, draft: Draft)
    requires Errors(h, draft) == {}
    ensures WholeNumber(h, draft.timeoutMs, 1, 120_000).Some? && WholeNumber(h, draft.maxRetries, 0, 5).Some?
    ensures ParsedHeaders(h, draft).Headers? && TemplateOf(h, draft).Some?
  {
    assert TimeoutField !in Errors(h, draft) && RetriesField !in Errors(h, draft);
    assert HeadersField !in Errors(h, draft) && TemplateField !in Errors(h, draft);
  }

  /** Same adapter type: every stored field is kept under the form's. Another one: start clean. */
  function Base(draft: Draft, stored: Option<Agent>): Config {
    if stored.Some? && stored.value.adapterType == (if draft.mcp then "mcp" else "http") then stored.value.config
    else Config(map[], None, None)
  }

  function ConfigFrom(h: Host, draft: Draft, stored: Option<Agent>): Built {
    if Errors(h, draft) != {} then Refused(Errors(h, draft))
    else
      FilledIn(h, draft);
      Accepted(Build(
        h, draft, Base(draft, stored), ParsedHeaders(h, draft).headers,
        WholeNumber(h, draft.timeoutMs, 1, 120_000).value, WholeNumber(h, draft.maxRetries, 0, 5).value,
        TemplateOf(h, draft).value))
  }

  // --- what the form keeps --------------------------------------------------------------

  /** What a whole-number field of the form stands for. */
  predicate Reads(h: Host, text: string, v: Option<Value>, min: int, max: int) {
    && v.Some? && v.value.Number? && h.number(text) == Some(v.value.number)
    && IsWhole(v, min, max)
  }

  /** A path as typed, without outer spaces; left empty, it is the default. */
  predicate TypedOr(h: Host, typed: string, v: Option<Value>, otherwise: Value) {
    v == Some(if Trim(h.space, typed) == "" then otherwise else Text(Trim(h.space, typed)))
  }

  /** The settings both adapters have are those of the draft. */
  ghost predicate CommonFromDraft(h: Host, draft: Draft, config: Config) {
    && Get(config.fields, Url) == Some(Text(Trim(h.space, draft.url)))
    && Get(config.fields, AllowPrivate) == Some(Bool(draft.allowPrivate))
    && Reads(h, draft.timeoutMs, Get(config.fields, TimeoutMs), 1, 120_000)
    && Reads(h, draft.maxRetries, Get(config.fields, MaxRetries), 0, 5)
    && config.headers.Some? && ParsedHeaders(h, draft) == Headers(config.headers.value)
  }

  ghost predicate HttpFromDraft(h: Host, draft: Draft, config: Config) {
    && Get(config.fields, AdapterType) == Some(Text("http"))
    && Get(config.fields, Method) == Some(Text(draft.verb))
    && Get(config.fields, FollowRedirects) == Some(Bool(draft.followRedirects))
    && RequestTemplate in config.fields && h.parse(draft.template) == Some(config.fields[RequestTemplate])
    && config.response.Some? && ResponseFromDraft(h, draft, config.response.value)
  }

  predicate ResponseFromDraft(h: Host, draft: Draft, response: map<Key, Value>) {
    && TypedOr(h, draft.output, Get(response, Output), Text("$.output"))
    && TypedOr(h, draft.toolName, Get(response, ToolName), Text("$.tool"))
    && TypedOr(h, draft.toolArguments, Get(response, ToolArguments), Text("$.arguments"))
    && TypedOr(h, draft.toolCalls, Get(response, ToolCalls), Null)
    && TypedOr(h, draft.inputTokens, Get(response, InputTokens), Null)
    && TypedOr(h, draft.outputTokens, Get(response, OutputTokens), Null)
    && TypedOr(h, draft.totalTokens, Get(response, TotalTokens), Null)
  }

  ghost predicate McpFromDraft(config: Config) {
    Get(config.fields, AdapterType) == Some(Text("mcp")) && Get(config.fields, Transport) == Some(Text("http"))
  }

  /** Every field of the form reaches the config it builds, whatever was stored before. */
  lemma EditsReachTheConfig(h: Host, draft: Draft, stored: Option<Agent>)
    requires ConfigFrom(h, draft, stored).Accepted?
    ensures var config := ConfigFrom(h, draft, stored).config;
            CommonFromDraft(h, draft, config)
            && if draft.mcp then McpFromDraft(config) else HttpFromDraft(h, draft, config)
  {
    FilledIn(h, draft);
    var base, headers := Base(draft, stored), ParsedHeaders(h, draft).headers;
    var timeout := WholeNumber(h, draft.timeoutMs, 1, 120_000).value;
    var retries := WholeNumber(h, draft.maxRetries, 0, 5).value;
    var template := TemplateOf(h, draft).value;
    if draft.mcp {
      BuildsMcp(h, draft, base, headers, timeout, retries, template);
    } else {
      BuildsHttp(h, draft, base, headers, timeout, retries, template);
      BuildsResponse(h, draft, base, headers, timeout, retries, template);
    }
  }

  ghost predicate CommonIs(h: Host, draft: Draft, fields: map<Key, Value>, timeout: int, retries: int) {
    && Get(fields, Url) == Some(Text(Trim(h.space, draft.url)))
    && Get(fields, AllowPrivate) == Some(Bool(draft.allowPrivate))
    && Get(fields, TimeoutMs) == Some(Number(timeout as real))
    && Get(fields, MaxRetries) == Some(Number(retries as real))
  }

  lemma BuildsMcp(h: Host, draft: Draft, base: Config, headers: seq<Header>, timeout: int, retries: int,
                  template: Value)
    requires draft.mcp
    ensures var config := Build(h, draft, base, headers, timeout, retries, template);
            CommonIs(h, draft, config.fields, timeout, retries) && McpFromDraft(config)
            && config.headers == Some(headers)
  {
  }

  lemma MergeSets(fields: map<Key, Value>, updates: map<Key, Value>, key: Key)
    requires key in updates
    ensures Get(fields + updates, key) == Some(updates[key])
  {
  }

  lemma CommonSets(h: Host, draft: Draft, fields: map<Key, Value>, timeout: int, retries: int)
    ensures CommonIs(h, draft, fields + CommonUpdates(h, draft, timeout, retries), timeout, retries)
  {
    var common := CommonUpdates(h, draft, timeout, retries);
    MergeSets(fields, common, Url);
    MergeSets(fields, common, AllowPrivate);
    MergeSets(fields, common, TimeoutMs);
    MergeSets(fields, common, MaxRetries);
  }

  lemma HttpSets(h: Host, draft: Draft, fields: map<Key, Value>, template: Value, timeout: int, retries: int)
    requires CommonIs(h, draft, fields, timeout, retries)
    ensures var all := fields + HttpUpdates(draft, template);
            && CommonIs(h, draft, all, timeout, retries)
            && Get(all, AdapterType) == Get(fields, AdapterType)
            && Get(all, Method) == Some(Text(draft.verb))
            && Get(all, FollowRedirects) == Some(Bool(draft.followRedirects))
            && Get(all, RequestTemplate) == Some(template)
  {
    var http := HttpUpdates(draft, template);
    MergeKeeps(fields, http, Url);
    MergeKeeps(fields, http, AllowPrivate);
    MergeKeeps(fields, http, TimeoutMs);
    MergeKeeps(fields, http, MaxRetries);
    MergeKeeps(fields, http, AdapterType);
  }

  lemma BuildsHttp(h: Host, draft: Draft, base: Config, headers: seq<Header>, timeout: int, retries: int,
                   template: Value)
    requires !draft.mcp
    ensures var config := Build(h, draft, base, headers, timeout, retries, template);
            && CommonIs(h, draft, config.fields, timeout, retries) && config.headers == Some(headers)
            && Get(config.fields, AdapterType) == Some(Text("http"))
            && Get(config.fields, Method) == Some(Text(draft.verb))
            && Get(config.fields, FollowRedirects) == Some(Bool(draft.followRedirects))
            && Get(config.fields, RequestTemplate) == Some(template)
  {
    var types: map<Key, Value> := map[AdapterType := Text("http")];
    var common := CommonUpdates(h, draft, timeout, retries);
    MergeSets(base.fields, types, AdapterType);
    MergeKeeps(base.fields + types, common, AdapterType);
    CommonSets(h, draft, base.fields + types, timeout, retries);
    HttpSets(h, draft, base.fields + types + common, template, timeout, retries);
  }

  lemma PathsSet(h: Host, draft: Draft, response: map<Key, Value>)
    ensures var all := response + PathUpdates(h, draft);
            && TypedOr(h, draft.output, Get(all, Output), Text("$.output"))
            && TypedOr(h, draft.toolName, Get(all, ToolName), Text("$.tool"))
            && TypedOr(h, draft.toolArguments, Get(all, ToolArguments), Text("$.arguments"))
  {
  }

  lemma OptionalsSet(h: Host, draft: Draft, response: map<Key, Value>)
    ensures var all := response + OptionalUpdates(h, draft);
            && TypedOr(h, draft.toolCalls, Get(all, ToolCalls), Null)
            && TypedOr(h, draft.inputTokens, Get(all, InputTokens), Null)
            && TypedOr(h, draft.outputTokens, Get(all, OutputTokens), Null)
            && TypedOr(h, draft.totalTokens, Get(all, TotalTokens), Null)
            && Get(all, Output) == Get(response, Output) && Get(all, ToolName) == Get(response, ToolName)
            && Get(all, ToolArguments) == Get(response, ToolArguments)
  {
  }

  lemma ResponseSets(h: Host, draft: Draft, response: map<Key, Value>)
    ensures ResponseFromDraft(h, draft, response + ResponseUpdates(h, draft))
  {
    PathsSet(h, draft, response);
    OptionalsSet(h, draft, response + PathUpdates(h, draft));
    assert response + ResponseUpdates(h, draft) == response + PathUpdates(h, draft) + OptionalUpdates(h, draft);
  }

  lemma BuildsResponse(h: Host, draft: Draft, base: Config, headers: seq<Header>, timeout: int, retries: int,
                       template: Value)
    requires !draft.mcp
    ensures var config := Build(h, draft, base, headers, timeout, retries, template);
            config.response.Some? && ResponseFromDraft(h, draft, config.response.value)
  {
    ResponseSets(h, draft, if base.response.Some? then base.response.value else map[]);
  }

  /** What the form accepts, exactly. */
  lemma AcceptedExactly(h: Host, draft: Draft, stored: Option<Agent>)
    ensures ConfigFrom(h, draft, stored).Accepted?
       <==> && Trim(h.space, draft.name) != "" && Trim(h.space, draft.url) != ""
            && ParsedHeaders(h, draft).Headers?
            && WholeNumber(h, draft.timeoutMs, 1, 120_000).Some? && WholeNumber(h, draft.maxRetries, 0, 5).Some?
            && TemplateOf(h, draft).Some?
  {
    if ConfigFrom(h, draft, stored).Accepted? {
      assert NameField !in Errors(h, draft) && UrlField !in Errors(h, draft);
      FilledIn(h, draft);
    }
  }

  /** A field the form does not know survives any edit that keeps the adapter type. */
  lemma UnknownFieldsSurvive(h: Host, draft: Draft, stored: Agent, name: string)
    requires ConfigFrom(h, draft, Some(stored)).Accepted?
    requires stored.adapterType == if draft.mcp then "mcp" else "http"
    ensures var config := ConfigFrom(h, draft, Some(stored)).config;
            && Get(config.fields, Other(name)) == Get(stored.config.fields, Other(name))
            && (stored.config.response.Some? ==>
                  && config.response.Some?
                  && Get(config.response.value, Other(name)) == Get(stored.config.response.value, Other(name)))
  {
    FilledIn(h, draft);
    BuildKeepsOthers(
      h, draft, stored.config, ParsedHeaders(h, draft).headers,
      WholeNumber(h, draft.timeoutMs, 1, 120_000).value, WholeNumber(h, draft.maxRetries, 0, 5).value,
      TemplateOf(h, draft).value, name);
  }

  lemma BuildKeepsOthers(
      h: Host, draft: Draft, base: Config, headers: seq<Header>, timeout: int, retries: int, template: Value,
          name: string)
    ensures var config := Build(h, draft, base, headers, timeout, retries, template);
            && Get(config.fields, Other(name)) == Get(base.fields, Other(name))
            && (base.response.Some? ==>
                  && config.response.Some?
                  && Get(config.response.value, Other(name)) == Get(base.response.value, Other(name)))
  {
    var common, more := CommonUpdates(h, draft, timeout, retries), HttpUpdates(draft, template);
    NoOthers(h, draft, timeout, retries, template, name);
    if draft.mcp {
      var types: map<Key, Value> := map[AdapterType := Text("mcp"), Transport := Text("http")];
      MergeKeeps(base.fields, types, Other(name));
      MergeKeeps(base.fields + types, common, Other(name));
    } else {
      var types: map<Key, Value> := map[AdapterType := Text("http")];
      MergeKeeps(base.fields, types, Other(name));
      MergeKeeps(base.fields + types, common, Other(name));
      MergeKeeps(base.fields + types + common, more, Other(name));
      if base.response.Some? {
        MergeKeeps(base.response.value, ResponseUpdates(h, draft), Other(name));
      }
    }
  }

  lemma MergeKeeps(fields: map<Key, Value>, updates: map<Key, Value>, key: Key)
    requires key !in updates
    ensures Get(fields + updates, key) == Get(fields, key)
  {
  }

  lemma NoOthers(h: Host, draft: Draft, timeout: int, retries: int, template: Value, name: string)
    ensures Other(name) !in CommonUpdates(h, draft, timeout, retries)
    ensures Other(name) !in HttpUpdates(draft, template)
    ensures Other(name) !in ResponseUpdates(h, draft)
  {
  }

  predicate IsText(h: Host, v: Option<Value>) {
    v.Some? && v.value.Text? && v.value.text != "" && Trimmed(h.space, v.value.text)
  }

  predicate IsTextOrNull(h: Host, v: Option<Value>) {
    v == Some(Null) || IsText(h, v)
  }

  predicate IsWhole(v: Option<Value>, min: int, max: int) {
    v.Some? && v.value.Number? && v.value.number.Floor as real == v.value.number && min <= v.value.number.Floor <= max
  }

  predicate IsBool(v: Option<Value>) {
    v.Some? && v.value.Bool?
  }

  /** The settings both adapters have, as the server stores them: validated, every default
      written out, the adapter type kept beside the config. */
  ghost predicate Stored(h: Host, agent: Agent) {
    var c := agent.config.fields;
    && Trim(h.space, agent.name) != ""
    && AdapterType !in c
    && IsText(h, Get(c, Url)) && IsBool(Get(c, AllowPrivate))
    && IsWhole(Get(c, TimeoutMs), 1, 120_000) && IsWhole(Get(c, MaxRetries), 0, 5)
    && agent.config.headers.Some? && Storable(h.space, agent.config.headers.value)
  }

  ghost predicate StoredHttp(h: Host, agent: Agent) {
    var c := agent.config.fields;
    && agent.adapterType == "http" && Stored(h, agent)
    && Get(c, Method) in {Some(Text("POST")), Some(Text("PUT")), Some(Text("PATCH"))}
    && RequestTemplate in c && !c[RequestTemplate].Null? && h.json(c[RequestTemplate])
    && IsBool(Get(c, FollowRedirects))
    && agent.config.response.Some? && StoredResponse(h, agent.config.response.value)
  }

  predicate StoredResponse(h: Host, response: map<Key, Value>) {
    && IsText(h, Get(response, Output)) && IsText(h, Get(response, ToolName)) && IsText(h, Get(response, ToolArguments))
    && IsTextOrNull(h, Get(response, ToolCalls)) && IsTextOrNull(h, Get(response, InputTokens))
    && IsTextOrNull(h, Get(response, OutputTokens)) && IsTextOrNull(h, Get(response, TotalTokens))
  }

  ghost predicate StoredMcp(h: Host, agent: Agent) {
    agent.adapterType == "mcp" && Stored(h, agent) && Get(agent.config.fields, Transport) == Some(Text("http"))
  }

  lemma WholeRoundTrips(h: Host, v: Value, min: int, max: int)
    requires Lawful(h) && IsWhole(Some(v), min, max) && 0 <= min && max <= 120_000
    ensures WholeNumber(h, h.show(v), min, max) == Some(v.number.Floor)
  {
    assert ReadsBack(h, v.number.Floor);
    assert v == Number(v.number.Floor as real);
  }

  lemma TextRoundTrips(h: Host, v: Option<Value>, fallback: string)
    ensures IsText(h, v) ==> Trim(h.space, Str(v, fallback)) == v.value.text
    ensures IsText(h, v) ==> OrDefault(h, Str(v, fallback), fallback) == v.value
    ensures IsTextOrNull(h, v) ==> OrNull(h, Str(v, "")) == v.value
  {
    TrimIsTrimmed(h.space, Str(v, fallback));
    TrimIsTrimmed(h.space, Str(v, ""));
    assert Trim(h.space, "") == "";
  }

  /** The updates that change nothing. */
  ghost predicate Agrees(updates: map<Key, Value>, fields: map<Key, Value>) {
    forall k :: k in updates ==> k in fields && fields[k] == updates[k]
  }

  lemma ResponseAgrees(h: Host, agent: Agent)
    requires agent.config.response.Some? && StoredResponse(h, agent.config.response.value)
    ensures Agrees(ResponseUpdates(h, DraftFrom(h, agent)), agent.config.response.value)
  {
    var response := agent.config.response.value;
    DefaultAgrees(h, Get(response, Output), "$.output");
    DefaultAgrees(h, Get(response, ToolName), "$.tool");
    DefaultAgrees(h, Get(response, ToolArguments), "$.arguments");
    NullAgrees(h, Get(response, ToolCalls));
    NullAgrees(h, Get(response, InputTokens));
    NullAgrees(h, Get(response, OutputTokens));
    NullAgrees(h, Get(response, TotalTokens));
    UpdatesAgree(h, DraftFrom(h, agent), response);
  }

  lemma UpdatesAgree(h: Host, draft: Draft, response: map<Key, Value>)
    requires Get(response, Output) == Some(OrDefault(h, draft.output, "$.output"))
    requires Get(response, ToolName) == Some(OrDefault(h, draft.toolName, "$.tool"))
    requires Get(response, ToolArguments) == Some(OrDefault(h, draft.toolArguments, "$.arguments"))
    requires Get(response, ToolCalls) == Some(OrNull(h, draft.toolCalls))
    requires Get(response, InputTokens) == Some(OrNull(h, draft.inputTokens))
    requires Get(response, OutputTokens) == Some(OrNull(h, draft.outputTokens))
    requires Get(response, TotalTokens) == Some(OrNull(h, draft.totalTokens))
    ensures Agrees(ResponseUpdates(h, draft), response)
  {
    assert Agrees(PathUpdates(h, draft), response);
    assert Agrees(OptionalUpdates(h, draft), response);
  }

  lemma DefaultAgrees(h: Host, v: Option<Value>, fallback: string)
    requires IsText(h, v)
    ensures OrDefault(h, Str(v, fallback), fallback) == v.value
  {
    TextRoundTrips(h, v, fallback);
  }

  lemma NullAgrees(h: Host, v: Option<Value>)
    requires IsTextOrNull(h, v)
    ensures OrNull(h, Str(v, "")) == v.value
  {
    TextRoundTrips(h, v, "");
  }

  /** An unchanged draft has at most the template's error. */
  lemma UnchangedErrors(h: Host, agent: Agent)
    requires Lawful(h) && Stored(h, agent)
    ensures var draft := DraftFrom(h, agent);
            Errors(h, draft) == if TemplateOf(h, draft).None? then {TemplateField} else {}
    ensures ParsedHeaders(h, DraftFrom(h, agent)) == Headers(Reread(h.space, agent.config.headers.value))
  {
    var c := agent.config.fields;
    TextRoundTrips(h, Get(c, Url), "");
    WholeRoundTrips(h, c[TimeoutMs], 1, 120_000);
    WholeRoundTrips(h, c[MaxRetries], 0, 5);
    Rereads(h.space, agent.config.headers.value);
  }

  lemma UnchangedCommon(h: Host, agent: Agent)
    requires Lawful(h) && Stored(h, agent)
    ensures var c, draft := agent.config.fields, DraftFrom(h, agent);
            && WholeNumber(h, draft.timeoutMs, 1, 120_000) == Some(c[TimeoutMs].number.Floor)
            && WholeNumber(h, draft.maxRetries, 0, 5) == Some(c[MaxRetries].number.Floor)
            && Agrees(CommonUpdates(h, draft, c[TimeoutMs].number.Floor, c[MaxRetries].number.Floor), c)
  {
    var c := agent.config.fields;
    TextRoundTrips(h, Get(c, Url), "");
    WholeRoundTrips(h, c[TimeoutMs], 1, 120_000);
    WholeRoundTrips(h, c[MaxRetries], 0, 5);
  }

  lemma UpdatesChangeNothing(fields: map<Key, Value>, more: map<Key, Value>, updates: map<Key, Value>,
                             others: map<Key, Value>)
    requires Agrees(updates, fields) && Agrees(others, fields)
    requires forall k :: k in more ==> k !in updates && k !in others
    ensures fields + more + updates + others == fields + more
    ensures fields + more + updates == fields + more
  {
  }

  ghost predicate HeadersSurvive(h: Host, agent: Agent)
    requires agent.config.headers.Some?
  {
    forall i :: 0 <= i < |agent.config.headers.value| ==> Survives(h.space, agent.config.headers.value[i])
  }

  /** When nothing is wrong, the config is built from what was read. */
  lemma Builds(h: Host, draft: Draft, agent: Agent, headers: seq<Header>, timeout: int, retries: int, template: Value)
    requires Errors(h, draft) == {} && agent.adapterType == (if draft.mcp then "mcp" else "http")
    requires ParsedHeaders(h, draft) == Headers(headers) && TemplateOf(h, draft) == Some(template)
    requires WholeNumber(h, draft.timeoutMs, 1, 120_000) == Some(timeout)
    requires WholeNumber(h, draft.maxRetries, 0, 5) == Some(retries)
    ensures ConfigFrom(h, draft, Some(agent))
            == Accepted(Build(h, draft, agent.config, headers, timeout, retries, template))
  {
  }

  /** What saving an unchanged HTTP agent does: it is refused for its template, or everything
      stored comes back, with the headers as they reread. */
  lemma UnchangedHttp(h: Host, agent: Agent)
    requires Lawful(h) && StoredHttp(h, agent)
    ensures var c, headers := agent.config.fields, Reread(h.space, agent.config.headers.value);
            ConfigFrom(h, DraftFrom(h, agent), Some(agent))
            == if Contains(h.compact(c[RequestTemplate]), "{{input}}")
               then Accepted(Config(c[AdapterType := Text("http")], Some(headers), agent.config.response))
               else Refused({TemplateField})
  {
    var draft, c := DraftFrom(h, agent), agent.config.fields;
    var headers := Reread(h.space, agent.config.headers.value);
    UnchangedErrors(h, agent);
    HttpAgrees(h, agent);
    assert h.parse(draft.template) == Some(c[RequestTemplate]);
    if Contains(h.compact(c[RequestTemplate]), "{{input}}") {
      UnchangedCommon(h, agent);
      Builds(h, draft, agent, headers, c[TimeoutMs].number.Floor, c[MaxRetries].number.Floor, c[RequestTemplate]);
      BuildsStoredHttp(h, agent, headers);
    } else {
      assert TemplateField in Errors(h, draft);
    }
  }

  /** Saving an HTTP agent unchanged gives back every stored field, known or not, exactly when
      its headers survive and its template, as compact JSON, spells `{{input}}` without
      spaces. */
  lemma HttpRoundTripsExactly(h: Host, agent: Agent)
    requires Lawful(h) && StoredHttp(h, agent)
    ensures ConfigFrom(h, DraftFrom(h, agent), Some(agent))
            == Accepted(agent.config.(fields := agent.config.fields[AdapterType := Text("http")]))
       <==> HeadersSurvive(h, agent) && Contains(h.compact(agent.config.fields[RequestTemplate]), "{{input}}")
  {
    UnchangedHttp(h, agent);
    RereadExactly(h.space, agent.config.headers.value);
  }

  lemma BuildsStoredHttp(h: Host, agent: Agent, headers: seq<Header>)
    requires Lawful(h) && StoredHttp(h, agent)
    ensures var c := agent.config.fields;
            Build(h, DraftFrom(h, agent), agent.config, headers, c[TimeoutMs].number.Floor, c[MaxRetries].number.Floor,
                c[RequestTemplate])
            == Config(c[AdapterType := Text("http")], Some(headers), agent.config.response)
  {
    var c := agent.config.fields;
    UnchangedCommon(h, agent);
    ResponseAgrees(h, agent);
    HttpAgrees(h, agent);
    BuildsOver(h, DraftFrom(h, agent), agent.config, headers, c[TimeoutMs].number.Floor, c[MaxRetries].number.Floor,
        c[RequestTemplate]);
  }

  lemma HttpAgrees(h: Host, agent: Agent)
    requires StoredHttp(h, agent)
    ensures Agrees(HttpUpdates(DraftFrom(h, agent), agent.config.fields[RequestTemplate]), agent.config.fields)
    ensures !DraftFrom(h, agent).mcp
  {
  }

  lemma BuildsOver(h: Host, draft: Draft, base: Config, headers: seq<Header>, timeout: int, retries: int,
                   template: Value)
    requires !draft.mcp && AdapterType !in base.fields && base.response.Some?
    requires Agrees(CommonUpdates(h, draft, timeout, retries), base.fields)
    requires Agrees(HttpUpdates(draft, template), base.fields)
    requires Agrees(ResponseUpdates(h, draft), base.response.value)
    ensures Build(h, draft, base, headers, timeout, retries, template)
         == Config(base.fields[AdapterType := Text("http")], Some(headers), base.response)
  {
    var more: map<Key, Value> := map[AdapterType := Text("http")];
    UpdatesChangeNothing(base.fields, more, CommonUpdates(h, draft, timeout, retries), HttpUpdates(draft, template));
    assert base.response.value + ResponseUpdates(h, draft) == base.response.value;
    assert base.fields + more == base.fields[AdapterType := Text("http")];
  }

  lemma UnchangedMcp(h: Host, agent: Agent)
    requires Lawful(h) && StoredMcp(h, agent)
    ensures ConfigFrom(h, DraftFrom(h, agent), Some(agent))
         == Accepted(Config(
              agent.config.fields[AdapterType := Text("mcp")], Some(Reread(h.space, agent.config.headers.value)),
                  agent.config.response))
  {
    var draft, c := DraftFrom(h, agent), agent.config.fields;
    var headers := Reread(h.space, agent.config.headers.value);
    UnchangedErrors(h, agent);
    UnchangedCommon(h, agent);
    Builds(h, draft, agent, headers, c[TimeoutMs].number.Floor, c[MaxRetries].number.Floor, Null);
    BuildsStoredMcp(h, draft, agent.config, headers, c[TimeoutMs].number.Floor, c[MaxRetries].number.Floor);
  }

  lemma BuildsStoredMcp(h: Host, draft: Draft, base: Config, headers: seq<Header>, timeout: int, retries: int)
    requires draft.mcp && AdapterType !in base.fields && Get(base.fields, Transport) == Some(Text("http"))
    requires Agrees(CommonUpdates(h, draft, timeout, retries), base.fields)
    ensures Build(h, draft, base, headers, timeout, retries, Null)
         == Config(base.fields[AdapterType := Text("mcp")], Some(headers), base.response)
  {
    var more: map<Key, Value> := map[AdapterType := Text("mcp")];
    UpdatesChangeNothing(base.fields, more, CommonUpdates(h, draft, timeout, retries), map[]);
    assert base.fields + map[AdapterType := Text("mcp"), Transport := Text("http")] == base.fields + more;
    assert base.fields + more == base.fields[AdapterType := Text("mcp")];
  }

  /** An MCP agent, which has no template, loses at most headers. */
  lemma McpRoundTripsExactly(h: Host, agent: Agent)
    requires Lawful(h) && StoredMcp(h, agent)
    ensures ConfigFrom(h, DraftFrom(h, agent), Some(agent))
            == Accepted(agent.config.(fields := agent.config.fields[AdapterType := Text("mcp")]))
       <==> HeadersSurvive(h, agent)
  {
    UnchangedMcp(h, agent);
    RereadExactly(h.space, agent.config.headers.value);
  }

  /** A template the server accepts and the form refuses: its regular expression allows
      spaces inside the braces, the form's search does not. */
  lemma SpacedPlaceholderIsRefused(h: Host, c: Classes, agent: Agent)
    requires Lawful(h) && StoredHttp(h, agent) && Sane(c) && c.space(' ')
    requires forall ch :: ch in "input" ==> c.word(ch)
    requires agent.config.fields[RequestTemplate] == Text("{{ input }}")
    requires h.compact(Text("{{ input }}")) == "\"{{ input }}\""
    ensures Template.Validate(c, Text("{{ input }}")) == Template.Accepted
    ensures ConfigFrom(h, DraftFrom(h, agent), Some(agent)) == Refused({TemplateField})
  {
    SpacedIsAccepted(c);
    SpacedIsNotFound();
    UnchangedHttp(h, agent);
  }

  lemma SpacedIsAccepted(c: Classes)
    requires Sane(c) && c.space(' ') && forall ch :: ch in "input" ==> c.word(ch)
    ensures Template.Validate(c, Text("{{ input }}")) == Template.Accepted
  {
    var t := "{{ input }}";
    SpacedMatches(c, t);
    var hole := Template.Hole("input", t);
    Template.WholeIsOnePiece(c, t);
    assert [hole][0] == hole;
    assert Template.HoleNames([hole]) == {"input"};
  }

  lemma SpacedMatches(c: Classes, t: string)
    requires Sane(c) && c.space(' ') && (forall ch :: ch in "input" ==> c.word(ch)) && t == "{{ input }}"
    ensures Template.MatchHole(c, t) == Some(Template.Hole("input", t))
  {
    SpacedWord(c, t);
    RunEndsAt(c.space, t, 2, 3);
    RunEndsAt(c.word, t, 3, 8);
    RunEndsAt(c.space, t, 8, 9);
    assert t[3..8] == "input" && t[9..11] == "}}" && t[..11] == t && t[..2] == "{{";
  }

  lemma SpacedWord(c: Classes, t: string)
    requires Sane(c) && c.space(' ') && (forall ch :: ch in "input" ==> c.word(ch)) && t == "{{ input }}"
    ensures forall i :: 3 <= i < 8 ==> c.word(t[i]) && !c.space(t[i])
    ensures c.space(t[2]) && c.space(t[8]) && !c.word(t[8]) && !c.space(t[9])
  {
    assert forall i :: 3 <= i < 8 ==> t[i] == "input"[i - 3];
    assert '}' in ".[]'\"-{}$";
  }

  lemma SpacedIsNotFound()
    ensures !Contains("\"{{ input }}\"", "{{input}}")
  {
    var s := "\"{{ input }}\"";
    NotFound(s, 0);
    assert s[0..] == s;
  }

  lemma {:induction false} NotFound(s: string, from: nat)
    requires s == "\"{{ input }}\"" && from <= |s|
    ensures !Contains(s[from..], "{{input}}")
    decreases |s| - from
  {
    NotAt(s, from);
    if from < |s| {
      NotFound(s, from + 1);
      assert s[from..][1..] == s[from + 1..];
    }
  }

  lemma NotAt(s: string, from: nat)
    requires s == "\"{{ input }}\"" && from <= |s|
    ensures !("{{input}}" <= s[from..])
  {
    var part, t := "{{input}}", s[from..];
    assert part[0] == '{' && part[1] == '{' && part[2] == 'i';
    assert from + 2 < |s| ==> t[0] == s[from] && t[1] == s[from + 1] && t[2] == s[from + 2];
  }
}
