/** The request template: placeholders are filled inside the parsed JSON, in one pass. `dumps`
    stands for the JSON encoder that documents are joined with. */
module RequestTemplate {
  import opened AttemptResults
  import opened Json
  import opened Scanning

  /** A template string is literal characters and placeholders, each as written. */
  datatype Piece = Literal(ch: char) | Hole(name: string, source: string)

  /** `{{`, spaces, a word, spaces, `}}` at the start of a text. */
  function MatchHole(c: Classes, t: string): (hole: Option<Piece>)
    ensures hole.Some? ==> hole.value.Hole? && hole.value.source != "" && hole.value.source <= t
  {
    if |t| < 2 || t[..2] != "{{" then None
    else
      var start := RunEnd(c.space, t, 2);
      var end := RunEnd(c.word, t, start);
      var close := RunEnd(c.space, t, end);
      if start < end && close + 2 <= |t| && t[close..close + 2] == "}}"
      then Some(Hole(t[start..end], t[..close + 2]))
      else None
  }

  /** Leftmost placeholders that do not overlap: what `sub` replaces and `finditer` finds. */
  function Pieces(c: Classes, t: string): seq<Piece>
    decreases |t|
  {
    if t == "" then []
    else
      var hole := MatchHole(c, t);
      if hole.Some? then [hole.value] + Pieces(c, t[|hole.value.source|..]) else [Literal(t[0])] + Pieces(c, t[1..])
  }

  /** `fullmatch`. */
  predicate Whole(c: Classes, t: string) {
    MatchHole(c, t).Some? && MatchHole(c, t).value.source == t
  }

  function Joined(dumps: Value -> string, documents: seq<Value>): string {
    if documents == [] then ""
    else
      (if documents[0].Text? then documents[0].text else dumps(documents[0]))
      + (if |documents| == 1 then "" else "\n\n" + Joined(dumps, documents[1..]))
  }

  function FillOne(piece: Piece, input: string, joined: string): string {
    match piece
    case Literal(ch) => [ch]
    case Hole(name, _) => if name == "input" then input else joined
  }

  function Fill(pieces: seq<Piece>, input: string, joined: string): string {
    if pieces == [] then "" else FillOne(pieces[0], input, joined) + Fill(pieces[1..], input, joined)
  }

  function Render(c: Classes, dumps: Value -> string, template: Value, input: string, documents: seq<Value>): Value {
    match template
    case Text(t) =>
      if Whole(c, t) then if MatchHole(c, t).value.name == "input" then Text(input) else List(documents)
      else Text(Fill(Pieces(c, t), input, Joined(dumps, documents)))
    case List(items) => List(seq(|items|, i requires 0 <= i < |items| => Render(c, dumps, items[i], input, documents)))
    case Object(fields) =>
      Object(seq(|fields|, i requires 0 <= i < |fields| =>
        Field(fields[i].key, Render(c, dumps, fields[i].value, input, documents))))
    case _ => template
  }

  // --- validation -----------------------------------------------------------------------

  function HoleNames(pieces: seq<Piece>): set<string> {
    set i | 0 <= i < |pieces| && pieces[i].Hole? :: pieces[i].name
  }

  /** The placeholder names in every string of a template; keys are not looked at. */
  function Names(c: Classes, template: Value): set<string> {
    match template
    case Text(t) => HoleNames(Pieces(c, t))
    case List(items) => set i, name | 0 <= i < |items| && name in Names(c, items[i]) :: name
    case Object(fields) => set i, name | 0 <= i < |fields| && name in Names(c, fields[i].value) :: name
    case _ => {}
  }

  datatype Validated = Accepted | UnknownPlaceholders(names: set<string>) | NoInput

  function Validate(c: Classes, template: Value): Validated {
    var names := Names(c, template);
    var unknown := names - {"input", "documents"};
    if unknown != {} then UnknownPlaceholders(unknown)
    else if "input" !in names then NoInput
    else Accepted
  }

  // --- strings --------------------------------------------------------------------------

  function Written(piece: Piece): string {
    match piece
    case Literal(ch) => [ch]
    case Hole(_, source) => source
  }

  function AllWritten(pieces: seq<Piece>): string {
    if pieces == [] then "" else Written(pieces[0]) + AllWritten(pieces[1..])
  }

  lemma WrittenCons(piece: Piece, rest: seq<Piece>)
    ensures AllWritten([piece] + rest) == Written(piece) + AllWritten(rest)
  {
    assert ([piece] + rest)[1..] == rest;
  }

  lemma Prefixed(prefix: string, t: string)
    requires prefix <= t
    ensures t == prefix + t[|prefix|..]
  {
  }

  /** The pieces spell the string: between the placeholders nothing is dropped or moved. */
  lemma {:induction false} PiecesSpell(c: Classes, t: string)
    ensures AllWritten(Pieces(c, t)) == t
    decreases |t|
  {
    if t != "" {
      var hole := MatchHole(c, t);
      if hole.Some? {
        var rest := t[|hole.value.source|..];
        PiecesSpell(c, rest);
        WrittenCons(hole.value, Pieces(c, rest));
        Prefixed(hole.value.source, t);
      } else {
        PiecesSpell(c, t[1..]);
        WrittenCons(Literal(t[0]), Pieces(c, t[1..]));
        assert t == [t[0]] + t[1..];
      }
    }
  }

  lemma WholeIsOnePiece(c: Classes, t: string)
    requires Whole(c, t)
    ensures Pieces(c, t) == [MatchHole(c, t).value]
  {
    assert t[|t|..] == "";
  }

  function InputHoles(pieces: seq<Piece>): nat {
    if pieces == [] then 0
    else (if pieces[0].Hole? && pieces[0].name == "input" then 1 else 0) + InputHoles(pieces[1..])
  }

  lemma {:induction false} InputIsAHole(pieces: seq<Piece>)
    ensures InputHoles(pieces) >= 1 <==> "input" in HoleNames(pieces)
  {
    if pieces != [] {
      InputIsAHole(pieces[1..]);
      assert forall i :: 1 <= i < |pieces| ==> pieces[i] == pieces[1..][i - 1];
      assert forall i :: 0 <= i < |pieces| - 1 ==> pieces[1..][i] == pieces[i + 1];
    }
  }

  /** Each placeholder is filled once, whatever the input holds: a placeholder inside the
      input adds nothing. */
  lemma {:induction false} FilledLength(pieces: seq<Piece>, input: string, joined: string)
    ensures |Fill(pieces, input, joined)| == |Fill(pieces, "", joined)| + InputHoles(pieces) * |input|
  {
    if pieces != [] {
      FilledLength(pieces[1..], input, joined);
      var more := InputHoles(pieces[1..]);
      assert (more + 1) * |input| == more * |input| + |input|;
    }
  }

  lemma {:induction false} SameLengthFills(pieces: seq<Piece>, a: string, b: string, joined: string)
    requires |a| == |b| && InputHoles(pieces) >= 1 && Fill(pieces, a, joined) == Fill(pieces, b, joined)
    ensures a == b
  {
    var x, y := FillOne(pieces[0], a, joined), FillOne(pieces[0], b, joined);
    var restA, restB := Fill(pieces[1..], a, joined), Fill(pieces[1..], b, joined);
    assert x == (x + restA)[..|x|] && y == (y + restB)[..|y|];
    assert restA == (x + restA)[|x|..] && restB == (y + restB)[|y|..];
    if !(pieces[0].Hole? && pieces[0].name == "input") {
      SameLengthFills(pieces[1..], a, b, joined);
    }
  }

  lemma FillIsInjective(pieces: seq<Piece>, a: string, b: string, joined: string)
    requires InputHoles(pieces) >= 1 && Fill(pieces, a, joined) == Fill(pieces, b, joined)
    ensures a == b
  {
    FilledLength(pieces, a, joined);
    FilledLength(pieces, b, joined);
    Cancel(InputHoles(pieces), |a|, |b|);
    SameLengthFills(pieces, a, b, joined);
  }

  lemma Cancel(k: nat, x: nat, y: nat)
    requires k >= 1 && k * x == k * y
    ensures x == y
  {
    assert k * (x - y) == 0;
  }

  lemma {:induction false} FillSplit(a: seq<Piece>, b: seq<Piece>, input: string, joined: string)
    ensures Fill(a + b, input, joined) == Fill(a, input, joined) + Fill(b, input, joined)
  {
    if a == [] {
      assert a + b == b;
    } else {
      assert (a + b)[1..] == a[1..] + b;
      FillSplit(a[1..], b, input, joined);
    }
  }

  /** Wherever `{{input}}` stood, the input stands verbatim, between what the pieces before
      and after it become. */
  lemma InputStandsVerbatim(pieces: seq<Piece>, k: nat, input: string, joined: string)
    requires k < |pieces| && pieces[k].Hole? && pieces[k].name == "input"
    ensures Fill(pieces, input, joined)
            == Fill(pieces[..k], input, joined) + input + Fill(pieces[k + 1..], input, joined)
  {
    assert pieces == pieces[..k] + pieces[k..];
    FillSplit(pieces[..k], pieces[k..], input, joined);
    assert pieces[k..][1..] == pieces[k + 1..];
  }

  lemma {:induction false} NoHoleNoInput(pieces: seq<Piece>, a: string, b: string, joined: string)
    requires InputHoles(pieces) == 0
    ensures Fill(pieces, a, joined) == Fill(pieces, b, joined)
  {
    if pieces != [] {
      NoHoleNoInput(pieces[1..], a, b, joined);
    }
  }

  // --- bodies ---------------------------------------------------------------------------

  lemma TextIsInjective(c: Classes, dumps: Value -> string, t: string, a: string, b: string, documents: seq<Value>)
    requires "input" in HoleNames(Pieces(c, t))
    requires Render(c, dumps, Text(t), a, documents) == Render(c, dumps, Text(t), b, documents)
    ensures a == b
  {
    InputIsAHole(Pieces(c, t));
    if Whole(c, t) {
      WholeIsOnePiece(c, t);
    } else {
      FillIsInjective(Pieces(c, t), a, b, Joined(dumps, documents));
    }
  }

  lemma {:induction false} RenderIsInjective(c: Classes, dumps: Value -> string, template: Value, a: string,
                                             b: string, documents: seq<Value>)
    requires "input" in Names(c, template)
    requires Render(c, dumps, template, a, documents) == Render(c, dumps, template, b, documents)
    ensures a == b
    decreases template
  {
    var x, y := Render(c, dumps, template, a, documents), Render(c, dumps, template, b, documents);
    match template
    case Text(t) => TextIsInjective(c, dumps, t, a, b, documents);
    case List(items) =>
      var i :| 0 <= i < |items| && "input" in Names(c, items[i]);
      assert x.items[i] == y.items[i];
      RenderIsInjective(c, dumps, items[i], a, b, documents);
    case Object(fields) =>
      var i :| 0 <= i < |fields| && "input" in Names(c, fields[i].value);
      assert x.fields[i] == y.fields[i];
      RenderIsInjective(c, dumps, fields[i].value, a, b, documents);
    case _ =>
  }

  lemma {:induction false} RenderIgnoresInput(c: Classes, dumps: Value -> string, template: Value, a: string,
                                              b: string, documents: seq<Value>)
    requires "input" !in Names(c, template)
    ensures Render(c, dumps, template, a, documents) == Render(c, dumps, template, b, documents)
    decreases template
  {
    match template
    case Text(t) =>
      InputIsAHole(Pieces(c, t));
      if Whole(c, t) {
        WholeIsOnePiece(c, t);
      } else {
        NoHoleNoInput(Pieces(c, t), a, b, Joined(dumps, documents));
      }
    case List(items) =>
      forall i | 0 <= i < |items|
        ensures Render(c, dumps, items[i], a, documents) == Render(c, dumps, items[i], b, documents)
      {
        RenderIgnoresInput(c, dumps, items[i], a, b, documents);
      }
    case Object(fields) =>
      forall i | 0 <= i < |fields|
        ensures Render(c, dumps, fields[i].value, a, documents) == Render(c, dumps, fields[i].value, b, documents)
      {
        RenderIgnoresInput(c, dumps, fields[i].value, a, b, documents);
      }
    case _ =>
  }

  ghost predicate TellsInputsApart(c: Classes, dumps: Value -> string, template: Value, documents: seq<Value>) {
    forall a, b :: Render(c, dumps, template, a, documents) == Render(c, dumps, template, b, documents) ==> a == b
  }

  /** Why the validator asks for `{{input}}`: different inputs give different bodies exactly
      when some string of the template has it. */
  lemma InjectiveExactly(c: Classes, dumps: Value -> string, template: Value, documents: seq<Value>)
    ensures TellsInputsApart(c, dumps, template, documents) <==> "input" in Names(c, template)
  {
    if "input" in Names(c, template) {
      forall a, b | Render(c, dumps, template, a, documents) == Render(c, dumps, template, b, documents)
        ensures a == b
      {
        RenderIsInjective(c, dumps, template, a, b, documents);
      }
    } else {
      RenderIgnoresInput(c, dumps, template, "", "x", documents);
    }
  }

  lemma AcceptedTemplatesAreInjective(c: Classes, dumps: Value -> string, template: Value, documents: seq<Value>)
    requires Validate(c, template) == Accepted
    ensures TellsInputsApart(c, dumps, template, documents)
  {
    InjectiveExactly(c, dumps, template, documents);
  }

  // --- shape ----------------------------------------------------------------------------

  predicate WholeDocuments(c: Classes, t: string) {
    Whole(c, t) && MatchHole(c, t).value.name != "input"
  }

  /** `body` has the template's shape: only a string that is exactly one documents
      placeholder stops being a string. */
  ghost predicate SameShape(c: Classes, template: Value, body: Value, documents: seq<Value>) {
    match template
    case Text(t) => if WholeDocuments(c, t) then body == List(documents) else body.Text?
    case List(items) =>
      body.List? && |body.items| == |items| && forall i :: 0 <= i < |items| ==>
          SameShape(c, items[i], body.items[i], documents)
    case Object(fields) =>
      && body.Object? && |body.fields| == |fields|
      && forall i :: 0 <= i < |fields| ==>
           body.fields[i].key == fields[i].key && SameShape(c, fields[i].value, body.fields[i].value, documents)
    case _ => body == template
  }

  /** No input, whatever quotes or braces it holds, changes the shape of the request. */
  lemma {:induction false} ShapeIsKept(c: Classes, dumps: Value -> string, template: Value, input: string,
                                       documents: seq<Value>)
    ensures SameShape(c, template, Render(c, dumps, template, input, documents), documents)
    decreases template
  {
    var body := Render(c, dumps, template, input, documents);
    match template
    case List(items) =>
      forall i | 0 <= i < |items|
        ensures SameShape(c, items[i], body.items[i], documents)
      {
        ShapeIsKept(c, dumps, items[i], input, documents);
      }
    case Object(fields) =>
      forall i | 0 <= i < |fields|
        ensures body.fields[i].key == fields[i].key && SameShape(c, fields[i].value, body.fields[i].value, documents)
      {
        ShapeIsKept(c, dumps, fields[i].value, input, documents);
      }
    case _ =>
  }

  // --- what a string becomes ------------------------------------------------------------

  predicate All(member: char -> bool, s: string) {
    forall i :: 0 <= i < |s| ==> member(s[i])
  }

  /** A placeholder as written: spaces may stand inside its braces. */
  function Braced(left: string, name: string, right: string): string {
    "{{" + left + name + right + "}}"
  }

  predicate IsPlaceholder(c: Classes, left: string, name: string, right: string) {
    All(c.space, left) && All(c.space, right) && name != "" && All(c.word, name)
  }

  lemma NoneIsBoth(c: Classes, ch: char)
    requires Sane(c)
    ensures c.word(ch) ==> !c.space(ch)
    ensures !c.word('}') && !c.space('}')
  {
    assert '}' in ".[]'\"-{}$";
  }

  lemma SpanEnds(member: char -> bool, before: string, part: string, after: string)
    requires All(member, part) && after != "" && !member(after[0])
    ensures RunEnd(member, before + (part + after), |before|) == |before| + |part|
  {
    RunEndsAt(member, before + (part + after), |before|, |before| + |part|);
  }

  lemma Shift(a: string, b: string, rest: string)
    ensures a + (b + rest) == (a + b) + rest
  {
  }

  /** Where the runs of the pattern end. */
  lemma HoleRuns(c: Classes, left: string, name: string, right: string, close: string, t: string)
    requires Sane(c) && IsPlaceholder(c, left, name, right) && close != "" && close[0] == '}'
    requires t == "{{" + (left + (name + (right + close)))
    ensures RunEnd(c.space, t, 2) == 2 + |left|
    ensures RunEnd(c.word, t, 2 + |left|) == 2 + |left| + |name|
    ensures RunEnd(c.space, t, 2 + |left| + |name|) == 2 + |left| + |name| + |right|
  {
    NoneIsBoth(c, name[0]);
    SpanEnds(c.space, "{{", left, name + (right + close));
    Shift("{{", left, name + (right + close));
    if right != "" {
      NoneIsBoth(c, right[0]);
    }
    SpanEnds(c.word, "{{" + left, name, right + close);
    Shift("{{" + left, name, right + close);
    SpanEnds(c.space, "{{" + left + name, right, close);
  }

  lemma HoleMatches(c: Classes, left: string, name: string, right: string, rest: string)
    requires Sane(c) && IsPlaceholder(c, left, name, right)
    ensures MatchHole(c, Braced(left, name, right) + rest) == Some(Hole(name, Braced(left, name, right)))
  {
    BracedSpells(left, name, right, rest);
    BracedParts(left, name, right, rest);
    HoleAt(c, left, name, right, "}}" + rest, Braced(left, name, right) + rest, Braced(left, name, right));
  }

  lemma HoleAt(c: Classes, left: string, name: string, right: string, after: string, t: string, source: string)
    requires Sane(c) && IsPlaceholder(c, left, name, right) && after != "" && after[0] == '}'
    requires t == "{{" + (left + (name + (right + after)))
    requires var start, end, close := 2 + |left|, 2 + |left| + |name|, 2 + |left| + |name| + |right|;
             && close + 2 <= |t| && t[..2] == "{{" && t[start..end] == name && t[close..close + 2] == "}}"
             && t[..close + 2] == source
    ensures MatchHole(c, t) == Some(Hole(name, source))
  {
    HoleRuns(c, left, name, right, after, t);
    HoleFrom(c, t, 2 + |left|, 2 + |left| + |name|, 2 + |left| + |name| + |right|);
  }

  lemma HoleFrom(c: Classes, t: string, start: nat, end: nat, close: nat)
    requires 2 <= start < end <= close && close + 2 <= |t| && t[..2] == "{{" && t[close..close + 2] == "}}"
    requires RunEnd(c.space, t, 2) == start && RunEnd(c.word, t, start) == end && RunEnd(c.space, t, end) == close
    ensures MatchHole(c, t) == Some(Hole(t[start..end], t[..close + 2]))
  {
  }

  lemma BracedSpells(left: string, name: string, right: string, rest: string)
    ensures Braced(left, name, right) + rest == "{{" + (left + (name + (right + ("}}" + rest))))
  {
  }

  lemma BracedParts(left: string, name: string, right: string, rest: string)
    ensures var t := Braced(left, name, right) + rest;
            var start, end, close := 2 + |left|, 2 + |left| + |name|, 2 + |left| + |name| + |right|;
            && close + 2 <= |t| && t[..2] == "{{" && t[start..end] == name && t[close..close + 2] == "}}"
            && t[..close + 2] == Braced(left, name, right)
  {
  }

  /** `source` is a placeholder as written, of that name. */
  ghost predicate Spelt(c: Classes, name: string, source: string) {
    exists left, right :: IsPlaceholder(c, left, name, right) && source == Braced(left, name, right)
  }

  lemma HoleSound(c: Classes, t: string)
    requires MatchHole(c, t).Some?
    ensures Spelt(c, MatchHole(c, t).value.name, MatchHole(c, t).value.source)
  {
    var start := RunEnd(c.space, t, 2);
    var end := RunEnd(c.word, t, start);
    var close := RunEnd(c.space, t, end);
    var left, name, right := t[2..start], t[start..end], t[end..close];
    assert t[..close + 2] == t[..2] + left + name + right + t[close..close + 2];
    assert IsPlaceholder(c, left, name, right) && t[..close + 2] == Braced(left, name, right);
  }

  /** What counts as a placeholder, exactly: a text starts with one if and only if it starts
      with braces around a word, with or without spaces beside it. */
  lemma HoleExactly(c: Classes, t: string, name: string, source: string)
    requires Sane(c)
    ensures MatchHole(c, t) == Some(Hole(name, source)) <==> Spelt(c, name, source) && source <= t
  {
    if MatchHole(c, t) == Some(Hole(name, source)) {
      HoleSound(c, t);
    }
    if Spelt(c, name, source) && source <= t {
      var left, right :| IsPlaceholder(c, left, name, right) && source == Braced(left, name, right);
      HoleMatches(c, left, name, right, t[|source|..]);
      assert source + t[|source|..] == t;
    }
  }

  /** A string that is one placeholder becomes what it stands for: the input as it is, or the
      list of documents. */
  lemma WholePlaceholder(c: Classes, dumps: Value -> string, left: string, name: string, right: string, input: string,
                         documents: seq<Value>)
    requires Sane(c) && IsPlaceholder(c, left, name, right)
    ensures Render(c, dumps, Text(Braced(left, name, right)), input, documents)
         == if name == "input" then Text(input) else List(documents)
  {
    HoleMatches(c, left, name, right, "");
    assert Braced(left, name, right) + "" == Braced(left, name, right);
  }

  /** What a placeholder becomes inside a longer string. */
  function Stands(dumps: Value -> string, name: string, input: string, documents: seq<Value>): string {
    if name == "input" then input else Joined(dumps, documents)
  }

  lemma LiteralFirst(c: Classes, ch: char, t: string)
    requires ch != '{'
    ensures MatchHole(c, [ch] + t).None? && Pieces(c, [ch] + t) == [Literal(ch)] + Pieces(c, t)
  {
    var u := [ch] + t;
    assert u[0] == ch && u[1..] == t;
    assert |u| >= 2 ==> u[..2][0] == ch;
    assert MatchHole(c, u).None?;
  }

  lemma {:induction false} NoBraces(c: Classes, a: string, t: string)
    requires '{' !in a
    ensures Pieces(c, a + t) == Literals(a) + Pieces(c, t)
    decreases |a|
  {
    if a == "" {
      assert a + t == t;
    } else {
      NoBraces(c, a[1..], t);
      LiteralFirst(c, a[0], a[1..] + t);
      OneLiteral(a);
      Uncons(a, t);
      Associates([Literal(a[0])], Literals(a[1..]), Pieces(c, t));
    }
  }

  lemma Uncons(a: string, t: string)
    requires a != ""
    ensures a + t == [a[0]] + (a[1..] + t)
  {
  }

  lemma OneLiteral(a: string)
    requires a != ""
    ensures Literals(a) == [Literal(a[0])] + Literals(a[1..])
  {
  }

  lemma Associates(x: seq<Piece>, y: seq<Piece>, z: seq<Piece>)
    ensures x + (y + z) == (x + y) + z
  {
  }

  function Literals(a: string): (pieces: seq<Piece>)
    ensures |pieces| == |a|
  {
    seq(|a|, i requires 0 <= i < |a| => Literal(a[i]))
  }

  lemma {:induction false} LiteralsFill(a: string, input: string, joined: string)
    ensures Fill(Literals(a), input, joined) == a
  {
    if a != "" {
      LiteralsFill(a[1..], input, joined);
      assert Literals(a)[1..] == Literals(a[1..]) && a == [a[0]] + a[1..];
    }
  }

  /** The text between the first placeholder and the next stands as it is, and the string goes
      on with what stands after it. */
  lemma PlaceholderInside(c: Classes, a: string, left: string, name: string, right: string, t: string, input: string,
                          joined: string)
    requires Sane(c) && IsPlaceholder(c, left, name, right) && '{' !in a
    ensures Fill(Pieces(c, a + (Braced(left, name, right) + t)), input, joined)
         == a + ((if name == "input" then input else joined) + Fill(Pieces(c, t), input, joined))
  {
    var source := Braced(left, name, right);
    HoleMatches(c, left, name, right, t);
    NoBraces(c, a, source + t);
    assert (source + t)[|source|..] == t;
    var hole := [Hole(name, source)];
    assert Pieces(c, source + t) == hole + Pieces(c, t);
    FillSplit(Literals(a), hole + Pieces(c, t), input, joined);
    FillSplit(hole, Pieces(c, t), input, joined);
    LiteralsFill(a, input, joined);
    assert hole[1..] == [];
  }

  lemma NotWhole(c: Classes, a: string, left: string, name: string, right: string, b: string)
    requires Sane(c) && IsPlaceholder(c, left, name, right) && '{' !in a && a + b != ""
    ensures !Whole(c, a + (Braced(left, name, right) + b))
  {
    var source := Braced(left, name, right);
    if a == "" {
      assert a + (source + b) == source + b;
      HoleMatches(c, left, name, right, b);
    } else {
      assert a + (source + b) == [a[0]] + (a[1..] + (source + b));
      LiteralFirst(c, a[0], a[1..] + (source + b));
    }
  }

  /** A string with one placeholder and something around it. */
  lemma OneAmongText(c: Classes, dumps: Value -> string, a: string, left: string, name: string, right: string,
                     b: string, input: string, documents: seq<Value>)
    requires Sane(c) && IsPlaceholder(c, left, name, right) && '{' !in a && '{' !in b && a + b != ""
    ensures Render(c, dumps, Text(a + (Braced(left, name, right) + b)), input, documents)
         == Text(a + (Stands(dumps, name, input, documents) + b))
  {
    var joined := Joined(dumps, documents);
    NotWhole(c, a, left, name, right, b);
    PlaceholderInside(c, a, left, name, right, b, input, joined);
    PlainText(c, b, input, joined);
  }

  lemma PlainText(c: Classes, b: string, input: string, joined: string)
    requires '{' !in b
    ensures Fill(Pieces(c, b), input, joined) == b
  {
    NoBraces(c, b, "");
    assert b + "" == b && Literals(b) + [] == Literals(b);
    LiteralsFill(b, input, joined);
  }

  /** The documents are joined by blank lines... */
  lemma {:induction false} JoinedSplits(dumps: Value -> string, a: seq<Value>, b: seq<Value>)
    requires a != [] && b != []
    ensures Joined(dumps, a + b) == Joined(dumps, a) + ("\n\n" + Joined(dumps, b))
  {
    JoinedOne(dumps, a[0]);
    JoinedCons(dumps, a[0], a[1..] + b);
    assert a + b == [a[0]] + (a[1..] + b) && a == [a[0]] + a[1..];
    if |a| == 1 {
      assert a[1..] + b == b;
    } else {
      JoinedSplits(dumps, a[1..], b);
      JoinedCons(dumps, a[0], a[1..]);
      Rejoin(Joined(dumps, [a[0]]), Joined(dumps, a[1..]), Joined(dumps, b));
    }
  }

  lemma Rejoin(x: string, y: string, z: string)
    ensures x + ("\n\n" + (y + ("\n\n" + z))) == (x + ("\n\n" + y)) + ("\n\n" + z)
  {
  }

  lemma JoinedCons(dumps: Value -> string, first: Value, rest: seq<Value>)
    requires rest != []
    ensures Joined(dumps, [first] + rest) == Joined(dumps, [first]) + ("\n\n" + Joined(dumps, rest))
  {
    assert ([first] + rest)[1..] == rest;
  }

  /** ...where a string stands as it is, and anything else as its JSON. */
  lemma JoinedOne(dumps: Value -> string, document: Value)
    ensures Joined(dumps, [document]) == if document.Text? then document.text else dumps(document)
    ensures Joined(dumps, []) == ""
  {
  }
}
