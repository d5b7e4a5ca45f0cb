/** The JSONPath subset of the response mapping (of sections 2.3.1, 2.3.3 and 2.5.1 of
    RFC 9535): `$` followed by `.name`, `['name']`, `["name"]` and `[n]` segments. */
module JsonPath {
  import opened AttemptResults
  import opened Json
  import opened Scanning
  import opened Tiling

  datatype Segment = Name(name: string) | Index(index: int)

  /** One segment as written: which alternative of the pattern, and its group. */
  datatype Spelling =
    | Dotted(name: string)
    | Bracketed(negative: bool, digits: string)
    | Quoted(quote: char, name: string)

  datatype Compiled = Path(segments: seq<Segment>) | NotRooted | Unsupported(position: nat)

  predicate NameStart(ch: char) {
    'A' <= ch <= 'Z' || 'a' <= ch <= 'z' || ch == '_'
  }

  function NameChar(c: Classes): char -> bool {
    ch => c.word(ch) || ch == '-'
  }

  function OtherThan(quote: char): char -> bool {
    ch => ch != quote
  }

  function Source(s: Spelling): (text: string)
    ensures |text| >= 1
  {
    match s
    case Dotted(name) => "." + name
    case Bracketed(negative, digits) => "[" + (if negative then "-" else "") + digits + "]"
    case Quoted(quote, name) => "[" + [quote] + name + [quote] + "]"
  }

  predicate WellFormed(c: Classes, s: Spelling) {
    match s
    case Dotted(name) => name != "" && NameStart(name[0]) && forall i :: 1 <= i < |name| ==> NameChar(c)(name[i])
    case Bracketed(_, digits) => digits != "" && forall i :: 0 <= i < |digits| ==> c.digit(digits[i])
    case Quoted(quote, name) => (quote == '\'' || quote == '"') && forall i :: 0 <= i < |name| ==> name[i] != quote
  }

  function DigitsValue(c: Classes, digits: string): nat {
    if digits == "" then 0 else DigitsValue(c, digits[..|digits| - 1]) * 10 + c.digitValue(digits[|digits| - 1])
  }

  function Meaning(c: Classes, s: Spelling): Segment {
    match s
    case Dotted(name) => Name(name)
    case Bracketed(negative, digits) => Index(if negative then 0 - DigitsValue(c, digits) else DigitsValue(c, digits))
    case Quoted(_, name) => Name(name)
  }

  function Meanings(c: Classes, spellings: seq<Spelling>): seq<Segment> {
    seq(|spellings|, i requires 0 <= i < |spellings| => Meaning(c, spellings[i]))
  }

  /** The alternatives of the segment pattern, at the start of a text. */
  function MatchDotted(c: Classes, t: string): Option<Spelling> {
    if |t| >= 2 && t[0] == '.' && NameStart(t[1]) then Some(Dotted(t[1..RunEnd(NameChar(c), t, 2)])) else None
  }

  function MatchIndex(c: Classes, t: string): Option<Spelling> {
    if |t| < 2 || t[0] != '[' then None
    else
      var start := if t[1] == '-' then 2 else 1;
      var end := RunEnd(c.digit, t, start);
      if start < end < |t| && t[end] == ']' then Some(Bracketed(t[1] == '-', t[start..end])) else None
  }

  function MatchQuoted(t: string, quote: char): Option<Spelling> {
    if |t| < 2 || t[0] != '[' || t[1] != quote then None
    else
      var end := RunEnd(OtherThan(quote), t, 2);
      if end + 1 < |t| && t[end + 1] == ']' then Some(Quoted(quote, t[2..end])) else None
  }

  function Match(c: Classes, t: string): Option<Spelling> {
    var dotted, index, single := MatchDotted(c, t), MatchIndex(c, t), MatchQuoted(t, '\'');
    if dotted.Some? then dotted else if index.Some? then index else if single.Some? then single else MatchQuoted(t, '"')
  }

  lemma IndexSound(c: Classes, t: string)
    requires MatchIndex(c, t).Some?
    ensures var s := MatchIndex(c, t).value; WellFormed(c, s) && Source(s) <= t
  {
    var start := if t[1] == '-' then 2 else 1;
    var end := RunEnd(c.digit, t, start);
    assert t[..end + 1] == t[..start] + t[start..end] + [t[end]];
    assert t[..start] == "[" + (if t[1] == '-' then "-" else "");
  }

  lemma QuotedSound(c: Classes, t: string, quote: char)
    requires (quote == '\'' || quote == '"') && MatchQuoted(t, quote).Some?
    ensures var s := MatchQuoted(t, quote).value; WellFormed(c, s) && Source(s) <= t
  {
    var end := RunEnd(OtherThan(quote), t, 2);
    assert t[..end + 2] == t[..2] + t[2..end] + t[end..end + 2];
    assert t[..2] == "[" + [quote] && t[end..end + 2] == [quote] + "]";
  }

  lemma MatchSound(c: Classes, t: string)
    requires Match(c, t).Some?
    ensures var s := Match(c, t).value; WellFormed(c, s) && Source(s) <= t
  {
    if MatchDotted(c, t).Some? {
      var end := RunEnd(NameChar(c), t, 2);
      assert t[..end] == "." + t[1..end];
    } else if MatchIndex(c, t).Some? {
      IndexSound(c, t);
    } else if MatchQuoted(t, '\'').Some? {
      QuotedSound(c, t, '\'');
    } else {
      QuotedSound(c, t, '"');
    }
  }

  predicate StartsSegment(rest: string) {
    rest == "" || rest[0] == '.' || rest[0] == '['
  }

  lemma DottedComplete(c: Classes, name: string, rest: string)
    requires Sane(c) && WellFormed(c, Dotted(name)) && StartsSegment(rest)
    ensures MatchDotted(c, "." + name + rest) == Some(Dotted(name))
  {
    var t := "." + name + rest;
    assert t[1..1 + |name|] == name && t[1] == name[0];
    assert forall i :: 2 <= i < 1 + |name| ==> t[i] == name[i - 1];
    assert '.' in ".[]'\"-{}$" && '[' in ".[]'\"-{}$";
    RunEndsAt(NameChar(c), t, 2, 1 + |name|);
  }

  lemma IndexComplete(c: Classes, negative: bool, digits: string, rest: string)
    requires Sane(c) && WellFormed(c, Bracketed(negative, digits))
    ensures MatchIndex(c, "[" + (if negative then "-" else "") + digits + "]" + rest)
            == Some(Bracketed(negative, digits))
  {
    var front := "[" + (if negative then "-" else "");
    var t, start := front + digits + "]" + rest, |front|;
    var end := start + |digits|;
    assert t[start..end] == digits;
    assert forall i :: start <= i < end ==> t[i] == digits[i - start];
    assert t[end] == ']';
    assert ']' in ".[]'\"-{}$" && '-' in ".[]'\"-{}$";
    assert negative ==> t[1] == '-';
    assert !negative ==> t[1] == digits[0];
    RunEndsAt(c.digit, t, start, end);
  }

  lemma QuotedComplete(c: Classes, quote: char, name: string, rest: string)
    requires Sane(c) && WellFormed(c, Quoted(quote, name))
    ensures MatchQuoted("[" + [quote] + name + [quote] + "]" + rest, quote) == Some(Quoted(quote, name))
    ensures MatchIndex(c, "[" + [quote] + name + [quote] + "]" + rest).None?
  {
    var t, end := "[" + [quote] + name + [quote] + "]" + rest, 2 + |name|;
    assert t[2..end] == name;
    assert forall i :: 2 <= i < end ==> t[i] == name[i - 2];
    assert t[1] == quote && t[end] == quote && t[end + 1] == ']';
    assert '\'' in ".[]'\"-{}$" && '"' in ".[]'\"-{}$";
    assert !c.digit(quote);
    RunEndsAt(OtherThan(quote), t, 2, end);
  }

  /** A spelling followed by the start of another one, or by nothing, is what is matched. */
  lemma MatchComplete(c: Classes, s: Spelling, rest: string)
    requires Sane(c) && WellFormed(c, s) && StartsSegment(rest)
    ensures Match(c, Source(s) + rest) == Some(s)
  {
    match s
    case Dotted(name) => DottedComplete(c, name, rest);
    case Bracketed(negative, digits) => IndexComplete(c, negative, digits, rest);
    case Quoted(quote, name) => QuotedComplete(c, quote, name, rest);
  }

  // --- compiling ------------------------------------------------------------------------

  /** The segment pattern. */
  function Segments(c: Classes): Pattern<Spelling> {
    Pattern(t => Match(c, t), s => Source(s), s => WellFormed(c, s))
  }

  lemma SegmentsSound(c: Classes)
    ensures Sound(Segments(c))
  {
    forall t | Match(c, t).Some?
      ensures WellFormed(c, Match(c, t).value) && Source(Match(c, t).value) <= t
    {
      MatchSound(c, t);
    }
  }

  lemma SegmentsSeparate(c: Classes)
    requires Sane(c)
    ensures Separates(Segments(c))
  {
    var p := Segments(c);
    forall x, rest | WellFormed(c, x) && StartsSegment(rest)
      ensures p.first(p.source(x) + rest) == Some(x)
    {
      MatchComplete(c, x, rest);
    }
    forall x, rest | p.proper(x)
      ensures Follows(p, p.source(x) + rest)
    {
      assert StartsSegment(p.source(x) + rest);
    }
    assert StartsSegment("");
  }

  ghost function Compiles(c: Classes, outcome: Outcome<Spelling>): Compiled {
    match outcome
    case Tiled(spellings) => Path(Meanings(c, spellings))
    case Stuck(at) => Unsupported(at)
  }

  ghost function Compile(c: Classes, path: string): Compiled {
    if path == "" || path[0] != '$' then NotRooted
    else
      SegmentsSound(c);
      Compiles(c, Tiles(Segments(c), path, 1))
  }

  method CompilePath(c: Classes, path: string) returns (compiled: Compiled)
    ensures compiled == Compile(c, path)
  {
    if path == "" || path[0] != '$' {
      return NotRooted;
    }
    SegmentsSound(c);
    compiled := CompileSegments(c, Segments(c), path);
  }

  /** The loop of `compile_path`. */
  method CompileSegments(c: Classes, p: Pattern<Spelling>, path: string) returns (compiled: Compiled)
    requires Sound(p) && path != ""
    ensures compiled == Compiles(c, Tiles(p, path, 1))
  {
    var segments := [];
    ghost var spellings := [];
    var pos := 1;
    while pos < |path|
      invariant 1 <= pos <= |path|
      invariant segments == Meanings(c, spellings)
      invariant Tiles(p, path, 1) == After(spellings, Tiles(p, path, pos))
      decreases |path| - pos
    {
      var s := p.first(path[pos..]);
      if s.None? {
        return Unsupported(pos);
      }
      OneMore(spellings, s.value, Tiles(p, path, pos + |p.source(s.value)|));
      segments := segments + [Meaning(c, s.value)];
      spellings := spellings + [s.value];
      pos := pos + |p.source(s.value)|;
    }
    assert spellings + [] == spellings;
    return Path(segments);
  }

  /** A path as a row of segments as written. */
  ghost predicate Spells(c: Classes, path: string, spellings: seq<Spelling>) {
    Proper(Segments(c), spellings) && path == "$" + Sources(Segments(c), spellings)
  }

  /** What is accepted, exactly: `$` and then a row of segments as written, and the compiled
      path is what they mean, in that order. */
  lemma CompilesExactly(c: Classes, path: string, segments: seq<Segment>)
    requires Sane(c)
    ensures Compile(c, path) == Path(segments)
       <==> exists spellings :: Spells(c, path, spellings) && segments == Meanings(c, spellings)
  {
    var p := Segments(c);
    SegmentsSound(c);
    if path != "" && path[0] == '$' && Tiles(p, path, 1).Tiled? {
      TilesSound(p, path, 1);
      assert Spells(c, path, Tiles(p, path, 1).tiles);
    }
    forall spellings | Spells(c, path, spellings)
      ensures Compile(c, path) == Path(Meanings(c, spellings))
    {
      SpellingCompiles(c, path, spellings);
    }
  }

  lemma SpellingCompiles(c: Classes, path: string, spellings: seq<Spelling>)
    requires Sane(c) && Spells(c, path, spellings)
    ensures Compile(c, path) == Path(Meanings(c, spellings))
  {
    SegmentsSound(c);
    SegmentsSeparate(c);
    TilesComplete(Segments(c), "$", spellings);
  }

  /** No path can be cut into segments in two ways. */
  lemma SpellingIsUnique(c: Classes, path: string, a: seq<Spelling>, b: seq<Spelling>)
    requires Sane(c) && Spells(c, path, a) && Spells(c, path, b)
    ensures a == b
  {
    SegmentsSound(c);
    SegmentsSeparate(c);
    TilesComplete(Segments(c), "$", a);
    TilesComplete(Segments(c), "$", b);
  }

  /** The position in a refusal: no segment starts there, and all before it is accepted. */
  lemma RefusedWhereItBreaks(c: Classes, path: string)
    requires Sane(c) && Compile(c, path).Unsupported?
    ensures var at := Compile(c, path).position;
            1 <= at < |path| && Match(c, path[at..]).None? && Compile(c, path[..at]).Path?
  {
    var p, at := Segments(c), Compile(c, path).position;
    SegmentsSound(c);
    StuckAfterTiles(p, path, 1);
    var spellings: seq<Spelling> :| Proper(p, spellings) && path[1..at] == Sources(p, spellings);
    assert path[..at] == "$" + path[1..at];
    SpellingCompiles(c, path[..at], spellings);
  }

  // --- printing -------------------------------------------------------------------------

  function Decimal(n: nat): (digits: string)
    ensures digits != ""
  {
    (if n < 10 then "" else Decimal(n / 10)) + ["0123456789"[n % 10]]
  }

  lemma {:induction false} DecimalReads(c: Classes, n: nat)
    requires Sane(c)
    ensures forall i :: 0 <= i < |Decimal(n)| ==> c.digit(Decimal(n)[i])
    ensures DigitsValue(c, Decimal(n)) == n
  {
    LastDigit(c, n % 10);
    if n < 10 {
      DigitsSnoc(c, "", n % 10);
    } else {
      DecimalReads(c, n / 10);
      DigitsSnoc(c, Decimal(n / 10), n % 10);
    }
  }

  lemma DigitsSnoc(c: Classes, front: string, d: nat)
    requires Sane(c) && d < 10
    ensures DigitsValue(c, front + ["0123456789"[d]]) == DigitsValue(c, front) * 10 + d
  {
    LastDigit(c, d);
    assert (front + ["0123456789"[d]])[..|front|] == front;
  }

  lemma LastDigit(c: Classes, d: nat)
    requires Sane(c) && d < 10
    ensures c.digit("0123456789"[d]) && c.digitValue("0123456789"[d]) == d
  {
    assert "0123456789"[d] in "0123456789";
    assert ("0123456789"[d] - '0') as nat == d;
  }

  predicate Quotable(name: string) {
    '\'' !in name || '"' !in name
  }

  predicate Printable(segments: seq<Segment>) {
    forall i :: 0 <= i < |segments| && segments[i].Name? ==> Quotable(segments[i].name)
  }

  function Spell(segment: Segment): Spelling {
    match segment
    case Index(n) => Bracketed(n < 0, Decimal(if n < 0 then -n else n))
    case Name(name) => Quoted(if '\'' in name then '"' else '\'', name)
  }

  function Canonical(segments: seq<Segment>): seq<Spelling> {
    seq(|segments|, i requires 0 <= i < |segments| => Spell(segments[i]))
  }

  /** One way to write a path: every name in quotes. */
  function Print(c: Classes, segments: seq<Segment>): string {
    "$" + Sources(Segments(c), Canonical(segments))
  }

  lemma SpellReads(c: Classes, segment: Segment)
    requires Sane(c) && (segment.Name? ==> Quotable(segment.name))
    ensures WellFormed(c, Spell(segment)) && Meaning(c, Spell(segment)) == segment
  {
    if segment.Index? {
      DecimalReads(c, if segment.index < 0 then -segment.index else segment.index);
    }
  }

  /** Compiling undoes printing. */
  lemma RoundTrip(c: Classes, segments: seq<Segment>)
    requires Sane(c) && Printable(segments)
    ensures Compile(c, Print(c, segments)) == Path(segments)
  {
    forall i | 0 <= i < |segments|
      ensures WellFormed(c, Canonical(segments)[i]) && Meaning(c, Canonical(segments)[i]) == segments[i]
    {
      SpellReads(c, segments[i]);
    }
    assert Meanings(c, Canonical(segments)) == segments;
    SpellingCompiles(c, Print(c, segments), Canonical(segments));
  }

  /** Which paths the language can say, exactly: those whose names each avoid a quote. */
  lemma ExpressibleExactly(c: Classes, segments: seq<Segment>)
    requires Sane(c)
    ensures (exists path :: Compile(c, path) == Path(segments)) <==> Printable(segments)
  {
    if Printable(segments) {
      RoundTrip(c, segments);
    }
    forall path | Compile(c, path) == Path(segments)
      ensures Printable(segments)
    {
      CompilesExactly(c, path, segments);
      var spellings: seq<Spelling> :| Spells(c, path, spellings) && segments == Meanings(c, spellings);
      forall i | 0 <= i < |segments| && segments[i].Name?
        ensures Quotable(segments[i].name)
      {
        assert WellFormed(c, spellings[i]) && segments[i] == Meaning(c, spellings[i]);
        if spellings[i].Dotted? {
          DottedAvoidsQuotes(c, segments[i].name);
        }
      }
    }
  }

  lemma DottedAvoidsQuotes(c: Classes, name: string)
    requires Sane(c) && WellFormed(c, Dotted(name))
    ensures '"' !in name && '\'' !in name
  {
    forall i | 0 <= i < |name|
      ensures name[i] != '"' && name[i] != '\''
    {
      assert i == 0 ==> NameStart(name[i]);
      assert i >= 1 ==> NameChar(c)(name[i]);
      assert '"' in ".[]'\"-{}$" && '\'' in ".[]'\"-{}$";
    }
  }

  // --- resolving ------------------------------------------------------------------------

  function Select(segment: Segment, node: Value): Option<Value> {
    match segment
    case Index(n) =>
      if !node.List? || !(-|node.items| <= n < |node.items|) then None
      else Some(node.items[if n < 0 then |node.items| + n else n])
    case Name(name) =>
      if !node.Object? then None else Lookup(node.fields, name)
  }

  function Resolve(path: seq<Segment>, document: Value): Option<Value> {
    if path == [] then Some(document)
    else
      var node := Select(path[0], document);
      if node.None? then None else Resolve(path[1..], node.value)
  }

  /** The loop of `resolve_path`. */
  method ResolvePath(path: seq<Segment>, document: Value) returns (result: Option<Value>)
    ensures result == Resolve(path, document)
  {
    var node := document;
    var i := 0;
    while i < |path|
      invariant 0 <= i <= |path|
      invariant Resolve(path, document) == Resolve(path[i..], node)
    {
      var next := Select(path[i], node);
      assert path[i..][1..] == path[i + 1..];
      if next.None? {
        return None;
      }
      node := next.value;
      i := i + 1;
    }
    return Some(node);
  }

  /** A path followed by another resolves the second in what the first names. */
  lemma {:induction false} ResolveComposes(p: seq<Segment>, q: seq<Segment>, document: Value)
    ensures Resolve(p + q, document)
         == if Resolve(p, document).None? then None else Resolve(q, Resolve(p, document).value)
  {
    if p == [] {
      assert p + q == q;
    } else {
      assert (p + q)[1..] == p[1..] + q;
      var node := Select(p[0], document);
      if node.Some? {
        ResolveComposes(p[1..], q, node.value);
      }
    }
  }

  /** `[-k]` names the item `[n - k]` of a list of `n`, for `k` from 1 to `n`, and nothing
      else. */
  lemma NegativeCountsFromTheEnd(path: seq<Segment>, document: Value, items: seq<Value>, k: nat)
    requires Resolve(path, document) == Some(List(items)) && k >= 1
    ensures Resolve(path + [Index(0 - k)], document)
         == if k <= |items| then Resolve(path + [Index(|items| - k)], document) else None
  {
    ResolveComposes(path, [Index(0 - k)], document);
    ResolveComposes(path, [Index(|items| - k)], document);
  }

  /** `[n]` names the item at that place of a list, and nothing of any other value. */
  lemma IndexNamesItem(path: seq<Segment>, document: Value, node: Value, n: nat)
    requires Resolve(path, document) == Some(node)
    ensures node.List? && n < |node.items| ==> Resolve(path + [Index(n)], document) == Some(node.items[n])
    ensures !(node.List? && n < |node.items|) ==> Resolve(path + [Index(n)], document) == None
  {
    ResolveComposes(path, [Index(n)], document);
  }

  predicate FieldAt(fields: seq<Field>, name: string, value: Value, i: int) {
    0 <= i < |fields| && fields[i] == Field(name, value) && forall j :: 0 <= j < i ==> fields[j].key != name
  }

  /** The first field of that name; a parsed object has no other. */
  ghost predicate HasField(fields: seq<Field>, name: string, value: Value) {
    exists i :: FieldAt(fields, name, value, i)
  }

  lemma {:induction false} LookupIsFirst(fields: seq<Field>, name: string) returns (i: nat)
    requires Lookup(fields, name).Some?
    ensures FieldAt(fields, name, Lookup(fields, name).value, i)
  {
    if fields[0].key == name {
      i := 0;
    } else {
      var k := LookupIsFirst(fields[1..], name);
      assert forall j :: 0 < j <= k + 1 ==> fields[j] == fields[1..][j - 1];
      i := k + 1;
    }
  }

  lemma {:induction false} FirstIsLookup(fields: seq<Field>, name: string, value: Value, i: nat)
    requires FieldAt(fields, name, value, i)
    ensures Lookup(fields, name) == Some(value)
  {
    if i > 0 {
      assert forall j :: 0 <= j < i ==> fields[1..][j] == fields[j + 1];
      FirstIsLookup(fields[1..], name, value, i - 1);
    }
  }

  lemma LookupFinds(fields: seq<Field>, name: string, value: Value)
    ensures Lookup(fields, name) == Some(value) <==> HasField(fields, name, value)
  {
    if Lookup(fields, name) == Some(value) {
      var i := LookupIsFirst(fields, name);
    }
    if i :| FieldAt(fields, name, value, i) {
      FirstIsLookup(fields, name, value, i);
    }
  }

  /** A name names the field with that key of an object, and nothing of any other value. */
  lemma NameNamesField(path: seq<Segment>, document: Value, node: Value, name: string, value: Value)
    requires Resolve(path, document) == Some(node)
    ensures Resolve(path + [Name(name)], document) == Some(value)
       <==> node.Object? && HasField(node.fields, name, value)
  {
    ResolveComposes(path, [Name(name)], document);
    if node.Object? {
      LookupFinds(node.fields, name, value);
    }
  }

  lemma RowsCompileAlike(c: Classes, x: seq<Spelling>, y: seq<Spelling>)
    requires Sane(c) && Proper(Segments(c), x) && Proper(Segments(c), y) && Meanings(c, x) == Meanings(c, y)
    ensures Compile(c, "$" + Sources(Segments(c), x)) == Compile(c, "$" + Sources(Segments(c), y))
  {
    SpellingCompiles(c, "$" + Sources(Segments(c), x), x);
    SpellingCompiles(c, "$" + Sources(Segments(c), y), y);
  }

  lemma DottedMeansQuoted(c: Classes, name: string, quote: char)
    requires Sane(c) && WellFormed(c, Dotted(name)) && (quote == '\'' || quote == '"')
    ensures WellFormed(c, Quoted(quote, name)) && Meaning(c, Quoted(quote, name)) == Meaning(c, Dotted(name))
  {
    DottedAvoidsQuotes(c, name);
  }

  /** A dotted name says what the same name says in quotes, wherever it stands in a path. */
  lemma DottedIsQuoted(c: Classes, before: seq<Spelling>, name: string, quote: char, after: seq<Spelling>)
    requires Sane(c) && WellFormed(c, Dotted(name)) && (quote == '\'' || quote == '"')
    requires Proper(Segments(c), before) && Proper(Segments(c), after)
    ensures Compile(c, "$" + Sources(Segments(c), before + [Dotted(name)] + after))
         == Compile(c, "$" + Sources(Segments(c), before + [Quoted(quote, name)] + after))
  {
    DottedMeansQuoted(c, name, quote);
    var dotted, quoted := before + [Dotted(name)] + after, before + [Quoted(quote, name)] + after;
    forall i | 0 <= i < |dotted|
      ensures Meaning(c, dotted[i]) == Meaning(c, quoted[i])
    {
      assert i == |before| || dotted[i] == quoted[i];
    }
    assert Meanings(c, dotted) == Meanings(c, quoted);
    RowsCompileAlike(c, dotted, quoted);
  }

  /** A letter of the basic alphabet or an underscore, by its code. */
  predicate LetterCode(code: int) {
    65 <= code <= 90 || 97 <= code <= 122 || code == 95
  }

  /** Which names can be written after a dot, exactly: a letter or an underscore, then word
      characters and hyphens. */
  lemma DottedExactly(c: Classes, name: string)
    requires Sane(c)
    ensures Compile(c, "$." + name) == Path([Name(name)])
       <==> && name != "" && LetterCode(name[0] as int)
            && forall i :: 1 <= i < |name| ==> c.word(name[i]) || name[i] == '-'
  {
    if Compile(c, "$." + name) == Path([Name(name)]) {
      CompilesExactly(c, "$." + name, [Name(name)]);
      var row :| Spells(c, "$." + name, row) && [Name(name)] == Meanings(c, row);
      OnlyDotted(c, name, row);
    } else if WellFormed(c, Dotted(name)) {
      DottedCompiles(c, name);
    }
  }

  lemma OnlyDotted(c: Classes, name: string, row: seq<Spelling>)
    requires Spells(c, "$." + name, row) && Meanings(c, row) == [Name(name)]
    ensures WellFormed(c, Dotted(name))
  {
    assert |row| == 1 && Meanings(c, row)[0] == Meaning(c, row[0]);
    assert row[1..] == [] && Sources(Segments(c), row) == Source(row[0]) + "";
    assert ("$." + name)[1..] == "." + name && ("$" + Sources(Segments(c), row))[1..] == Source(row[0]);
    assert Source(row[0])[0] == '.';
    assert WellFormed(c, row[0]);
  }

  /** The shortest of such paths. */
  lemma DottedCompiles(c: Classes, name: string)
    requires Sane(c) && WellFormed(c, Dotted(name))
    ensures Compile(c, "$." + name) == Path([Name(name)])
  {
    var row := [Dotted(name)];
    assert row[1..] == [] && Sources(Segments(c), row) == "." + name + "";
    assert "$." + name == "$" + ("." + name + "");
    SpellingCompiles(c, "$." + name, row);
    assert Meanings(c, row) == [Name(name)];
  }
}
