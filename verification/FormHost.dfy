/** A small host that meets every law the agent form relies on, and an agent stored under it:
    the form's theorems are about something. Its JSON holds strings only. */
module FormHost {
  import opened AgentForm
  import opened AttemptResults
  import opened HeaderText
  import opened Json
  import opened JsonPath
  import opened Scanning
  import Template = RequestTemplate

  predicate Lower(ch: char) {
    'a' <= ch <= 'z'
  }

  predicate Digit(ch: char) {
    '0' <= ch <= '9'
  }

  predicate Space(ch: char) {
    ch == ' ' || ch == '\n'
  }

  function Ascii(): Classes {
    Classes(ch => Lower(ch) || Digit(ch), ch => Digit(ch), ch => if Digit(ch) then (ch - '0') as nat else 0,
        ch => Space(ch))
  }

  function Show(v: Value): string {
    if v.Number? && v.number >= 0.0 then Decimal(v.number.Floor) else ""
  }

  predicate AllDigits(text: string) {
    forall i :: 0 <= i < |text| ==> Digit(text[i])
  }

  function ReadNumber(text: string): Option<real> {
    if text != "" && AllDigits(text) then Some(DigitsValue(Ascii(), text) as real) else None
  }

  function Quote(v: Value): string {
    if v.Text? then "\"" + v.text + "\"" else ""
  }

  function Unquote(text: string): Option<Value> {
    if |text| >= 2 then Some(Text(text[1..|text| - 1])) else None
  }

  function SmallHost(): Host {
    Host(ch => Space(ch), (v: Value) => v.Text?, v => Quote(v), v => Quote(v), t => Unquote(t), v => Show(v),
        t => ReadNumber(t))
  }

  lemma AsciiIsSane()
    ensures Sane(Ascii()) && Ascii().space(' ') && forall ch :: ch in "input" ==> Ascii().word(ch)
  {
  }

  lemma ShownReadsBack(n: nat)
    ensures ReadsBack(SmallHost(), n)
  {
    var h, digits := SmallHost(), Decimal(n);
    AsciiIsSane();
    DecimalReads(Ascii(), n);
    assert h.show(Number(n as real)) == digits;
    assert forall i :: 0 <= i < |digits| ==> Ascii().digit(digits[i]);
    NotBlank(h.space, digits, 0);
  }

  lemma SmallHostIsLawful()
    ensures Lawful(SmallHost())
  {
    var h := SmallHost();
    forall v | h.json(v)
      ensures h.parse(h.pretty(v)) == Some(v)
    {
      assert Quote(v)[1..|Quote(v)| - 1] == v.text;
    }
    forall n | 0 <= n <= 120_000
      ensures ReadsBack(h, n)
    {
      ShownReadsBack(n);
    }
  }

  /** Settings the server accepts. */
  function Settings(template: string): map<Key, Value> {
    map[
      Url := Text("u"), AllowPrivate := Bool(false), TimeoutMs := Number(30000.0), MaxRetries := Number(2.0),
      Method := Text("POST"), AgentForm.RequestTemplate := Text(template), FollowRedirects := Bool(false)]
  }

  function Mapping(): map<Key, Value> {
    map[
      Output := Text("$"), ToolName := Text("$"), ToolArguments := Text("$"), ToolCalls := Null,
      InputTokens := Null, OutputTokens := Null, TotalTokens := Null]
  }

  function SmallAgent(template: string): AgentForm.Agent {
    Agent.Agent("a", "http", Config(Settings(template), Some([]), Some(Mapping())))
  }

  lemma SmallAgentIsStored(template: string)
    ensures StoredHttp(SmallHost(), SmallAgent(template))
  {
    var h := SmallHost();
    NotBlank(h.space, "a", 0);
    assert 30000.0 == 30000 as real && 2.0 == 2 as real;
  }

  ghost predicate ComesBack(h: Host, agent: AgentForm.Agent) {
    Lawful(h) && StoredHttp(h, agent) && ConfigFrom(h, DraftFrom(h, agent), Some(agent)).Accepted?
  }

  /** The server's validator accepts the template, and saving the agent unchanged fails. */
  ghost predicate IsRefused(h: Host, c: Classes, agent: AgentForm.Agent) {
    && Lawful(h) && Sane(c) && StoredHttp(h, agent)
    && Template.Validate(c, agent.config.fields[AgentForm.RequestTemplate]) == Template.Accepted
    && ConfigFrom(h, DraftFrom(h, agent), Some(agent)) == Refused({TemplateField})
  }

  lemma FoundComesBack(h: Host, agent: AgentForm.Agent)
    requires Lawful(h) && StoredHttp(h, agent)
    requires Contains(h.compact(agent.config.fields[AgentForm.RequestTemplate]), "{{input}}")
    ensures ComesBack(h, agent)
  {
    UnchangedHttp(h, agent);
  }

  lemma Example(template: string) returns (h: Host, agent: AgentForm.Agent)
    ensures Lawful(h) && StoredHttp(h, agent) && agent.config.fields[AgentForm.RequestTemplate] == Text(template)
    ensures h.compact(Text(template)) == "\"" + template + "\""
  {
    h, agent := SmallHost(), SmallAgent(template);
    SmallHostIsLawful();
    SmallAgentIsStored(template);
  }

  /** Both outcomes of saving an unchanged agent occur: some agent comes back... */
  lemma SomeAgentComesBack() returns (h: Host, agent: AgentForm.Agent)
    ensures ComesBack(h, agent)
  {
    h, agent := Example("{{input}}");
    FoundInQuotes("{{input}}");
    FoundComesBack(h, agent);
  }

  /** ...and some agent whose template the server accepts is refused. */
  lemma SomeAgentIsRefused() returns (h: Host, c: Classes, agent: AgentForm.Agent)
    ensures IsRefused(h, c, agent)
  {
    h, agent := Example("{{ input }}");
    c := SomeClasses();
    SpacedPlaceholderIsRefused(h, c, agent);
  }

  lemma SomeClasses() returns (c: Classes)
    ensures Sane(c) && c.space(' ') && forall ch :: ch in "input" ==> c.word(ch)
  {
    c := Ascii();
    AsciiIsSane();
  }

  lemma FoundInQuotes(text: string)
    ensures Contains("\"" + text + "\"", text)
  {
    var quoted := "\"" + text + "\"";
    assert quoted[1..] == text + "\"";
  }
}
