/** The agent form's header box: one `Name: value` per line, printed from the stored headers
    and parsed back. Headers are a JavaScript object, listed in its own key order. */
module HeaderText {
  import opened Lines

  datatype Header = Header(name: string, value: string)

  datatype Parsed = Headers(headers: seq<Header>) | BadLine(number: nat)

  /** `\s` for `trim()`. The space after the colon and the line break belong to it; nothing an
      RFC 9110 token is made of does. */
  ghost predicate SpaceClass(space: char -> bool) {
    space(' ') && space('\n') && !space(':')
  }

  function TrimStart(space: char -> bool, s: string): string {
    if s != "" && space(s[0]) then TrimStart(space, s[1..]) else s
  }

  function TrimEnd(space: char -> bool, s: string): string {
    if s != "" && space(s[|s| - 1]) then TrimEnd(space, s[..|s| - 1]) else s
  }

  function Trim(space: char -> bool, s: string): string {
    TrimEnd(space, TrimStart(space, s))
  }

  predicate Trimmed(space: char -> bool, s: string) {
    s == "" || (!space(s[0]) && !space(s[|s| - 1]))
  }

  function IndexOf(s: string, ch: char): (i: int)
    ensures -1 <= i < |s|
    ensures i >= 0 ==> s[i] == ch
  {
    if s == "" then -1
    else if s[0] == ch then 0
    else var i := IndexOf(s[1..], ch); if i < 0 then -1 else i + 1
  }

  /** Assignment to a property: in place if the key exists, else at the end. On an object
      literal, assigning a string to `__proto__` does nothing. */
  function Assign(headers: seq<Header>, name: string, value: string): seq<Header> {
    if name == "__proto__" then headers else Put(headers, name, value)
  }

  function Put(headers: seq<Header>, name: string, value: string): seq<Header> {
    if headers == [] then [Header(name, value)]
    else if headers[0].name == name then [Header(name, value)] + headers[1..]
    else [headers[0]] + Put(headers[1..], name, value)
  }

  function Line(h: Header): string {
    h.name + ": " + h.value
  }

  function LinesOf(headers: seq<Header>): seq<string> {
    seq(|headers|, i requires 0 <= i < |headers| => Line(headers[i]))
  }

  function PrintHeaders(headers: seq<Header>): string {
    Join(LinesOf(headers))
  }

  // --- parsing --------------------------------------------------------------------------

  /** What one line says. */
  datatype Reading = Blank | Malformed | Assigns(name: string, value: string)

  function ReadLine(space: char -> bool, line: string): Reading {
    if Trim(space, line) == "" then Blank
    else
      var colon := IndexOf(line, ':');
      if colon < 1 then Malformed
      else Assigns(Trim(space, line[..colon]), Trim(space, line[colon + 1..]))
  }

  function Parse(space: char -> bool, lines: seq<string>, number: nat, headers: seq<Header>): Parsed
    decreases |lines|
  {
    if lines == [] then Headers(headers)
    else
      match ReadLine(space, lines[0])
      case Blank => Parse(space, lines[1..], number + 1, headers)
      case Malformed => BadLine(number)
      case Assigns(name, value) => Parse(space, lines[1..], number + 1, Assign(headers, name, value))
  }

  /** The loop of `parseHeaders`. */
  method ParseHeaders(space: char -> bool, text: string) returns (parsed: Parsed)
    ensures parsed == Parse(space, Split(text), 1, [])
  {
    var lines := Split(text);
    var headers: seq<Header> := [];
    for i := 0 to |lines|
      invariant Parse(space, lines, 1, []) == Parse(space, lines[i..], i + 1, headers)
    {
      assert lines[i..][1..] == lines[i + 1..];
      match ReadLine(space, lines[i])
      case Blank =>
      case Malformed => return BadLine(i + 1);
      case Assigns(name, value) => headers := Assign(headers, name, value);
    }
    return Headers(headers);
  }

  /** Not blank, and no colon after its first character. */
  predicate IsBad(space: char -> bool, line: string) {
    Trim(space, line) != "" && (':' !in line || line[0] == ':')
  }

  lemma {:induction false} FirstColon(s: string)
    ensures IndexOf(s, ':') >= 1 <==> ':' in s && s[0] != ':'
    ensures IndexOf(s, ':') >= 0 ==> ':' !in s[..IndexOf(s, ':')]
    ensures IndexOf(s, ':') < 0 <==> ':' !in s
  {
    if s != "" && s[0] != ':' {
      FirstColon(s[1..]);
      assert s == [s[0]] + s[1..];
      var i := IndexOf(s[1..], ':');
      if i >= 0 {
        assert s[..i + 1] == [s[0]] + s[1..][..i];
      }
    }
  }

  lemma {:induction false} BadFrom(space: char -> bool, lines: seq<string>, number: nat, headers: seq<Header>, n: nat)
    ensures Parse(space, lines, number, headers) == BadLine(n)
       <==> number <= n < number + |lines| && IsBad(space, lines[n - number])
            && forall i :: 0 <= i < n - number ==> !IsBad(space, lines[i])
    decreases |lines|
  {
    if lines != [] {
      FirstColon(lines[0]);
      var tail := lines[1..];
      match ReadLine(space, lines[0])
      case Blank => BadFrom(space, tail, number + 1, headers, n);
      case Malformed =>
      case Assigns(name, value) => BadFrom(space, tail, number + 1, Assign(headers, name, value), n);
      assert forall i :: 0 < i < |lines| ==> lines[i] == tail[i - 1];
      assert forall i :: 0 <= i < |tail| ==> tail[i] == lines[i + 1];
    }
  }

  /** Which line is refused: the first, counted from 1, that is not blank and has no colon
      after its first character. */
  lemma BadLineExactly(space: char -> bool, text: string, n: nat)
    ensures Parse(space, Split(text), 1, []) == BadLine(n)
       <==> 1 <= n <= |Split(text)| && IsBad(space, Split(text)[n - 1])
            && forall i :: 0 <= i < n - 1 ==> !IsBad(space, Split(text)[i])
  {
    BadFrom(space, Split(text), 1, [], n);
  }

  // --- trimming -------------------------------------------------------------------------

  lemma {:induction false} TrimStartIsTrimmed(space: char -> bool, s: string)
    ensures var t := TrimStart(space, s); |t| <= |s| && t == s[|s| - |t|..] && (t == "" || !space(t[0]))
  {
    if s != "" && space(s[0]) {
      TrimStartIsTrimmed(space, s[1..]);
    }
  }

  lemma {:induction false} TrimEndIsTrimmed(space: char -> bool, s: string)
    ensures var t := TrimEnd(space, s); t <= s && (t == "" || !space(t[|t| - 1]))
  {
    if s != "" && space(s[|s| - 1]) {
      TrimEndIsTrimmed(space, s[..|s| - 1]);
    }
  }

  lemma TrimIsTrimmed(space: char -> bool, s: string)
    ensures Trimmed(space, Trim(space, s))
    ensures Trimmed(space, s) ==> Trim(space, s) == s
  {
    TrimStartIsTrimmed(space, s);
    TrimEndIsTrimmed(space, TrimStart(space, s));
  }

  lemma {:induction false} TrimEndDrops(space: char -> bool, s: string)
    ensures TrimEnd(space, s) <= s
    ensures forall i :: |TrimEnd(space, s)| <= i < |s| ==> space(s[i])
  {
    if s != "" && space(s[|s| - 1]) {
      TrimEndDrops(space, s[..|s| - 1]);
    }
  }

  lemma {:induction false} TrimStartDrops(space: char -> bool, s: string)
    ensures |TrimStart(space, s)| <= |s| && s[|s| - |TrimStart(space, s)|..] == TrimStart(space, s)
    ensures forall i :: 0 <= i < |s| - |TrimStart(space, s)| ==> space(s[i])
  {
    if s != "" && space(s[0]) {
      TrimStartDrops(space, s[1..]);
    }
  }

  /** Trimming takes spaces off both ends, and nothing else. */
  lemma TrimKeepsTheMiddle(space: char -> bool, s: string) returns (left: string, right: string)
    ensures s == left + Trim(space, s) + right
    ensures (forall i :: 0 <= i < |left| ==> space(left[i])) && forall i :: 0 <= i < |right| ==> space(right[i])
  {
    var started, trimmed := TrimStart(space, s), Trim(space, s);
    TrimStartDrops(space, s);
    TrimEndDrops(space, started);
    left, right := s[..|s| - |started|], started[|trimmed|..];
    assert s == left + started && started == trimmed + right;
  }

  lemma TrimSkipsASpace(space: char -> bool, s: string)
    requires space(' ')
    ensures Trim(space, " " + s) == Trim(space, s)
  {
    assert (" " + s)[1..] == s;
  }

  lemma {:induction false} NotBlank(space: char -> bool, s: string, i: nat)
    requires i < |s| && !space(s[i])
    ensures Trim(space, s) != ""
  {
    TrimStartIsTrimmed(space, s);
    var t := TrimStart(space, s);
    var k := i - (|s| - |t|);
    if k < 0 {
      TrimStartDropsSpace(space, s, i);
    }
    assert t[k] == s[i];
    TrimEndKeeps(space, t, k);
  }

  lemma {:induction false} TrimStartDropsSpace(space: char -> bool, s: string, i: nat)
    requires i < |s| - |TrimStart(space, s)|
    ensures space(s[i])
  {
    if s != "" && space(s[0]) && i > 0 {
      TrimStartDropsSpace(space, s[1..], i - 1);
    }
  }

  lemma {:induction false} TrimEndKeeps(space: char -> bool, s: string, k: nat)
    requires k < |s| && !space(s[k])
    ensures |TrimEnd(space, s)| > k
  {
    if space(s[|s| - 1]) {
      TrimEndKeeps(space, s[..|s| - 1], k);
    }
  }

  lemma {:induction false} IndexOfFirst(s: string, ch: char, rest: string)
    requires ch !in s
    ensures IndexOf(s + [ch] + rest, ch) == |s|
  {
    var t := s + [ch] + rest;
    if s != "" {
      assert t[0] == s[0] && t[1..] == s[1..] + [ch] + rest;
      IndexOfFirst(s[1..], ch, rest);
    }
  }

  // --- the round trip -------------------------------------------------------------------

  /** A name the server accepts: an RFC 9110 token, so neither empty nor with a space, a colon
      or a line break. */
  predicate Token(space: char -> bool, name: string) {
    name != "" && forall i :: 0 <= i < |name| ==> !space(name[i]) && name[i] != ':'
  }

  /** What the server stores: token names, each once, and no line break in a value. */
  ghost predicate Storable(space: char -> bool, headers: seq<Header>) {
    && (forall i :: 0 <= i < |headers| ==> Token(space, headers[i].name) && '\n' !in headers[i].value)
    && (forall i, j :: 0 <= i < j < |headers| ==> headers[i].name != headers[j].name)
  }

  predicate Survives(space: char -> bool, h: Header) {
    h.name != "__proto__" && Trimmed(space, h.value)
  }

  lemma LineReads(space: char -> bool, h: Header)
    requires SpaceClass(space) && Token(space, h.name)
    ensures ReadLine(space, Line(h)) == Assigns(h.name, Trim(space, h.value))
  {
    var line, n := Line(h), |h.name|;
    assert line[0] == h.name[0];
    NotBlank(space, line, 0);
    assert line == h.name + [':'] + (" " + h.value);
    IndexOfFirst(h.name, ':', " " + h.value);
    assert line[..n] == h.name && line[n + 1..] == " " + h.value;
    TrimIsTrimmed(space, h.name);
    TrimSkipsASpace(space, h.value);
  }

  /** What is left of a list of headers after printing and parsing. */
  function Reread(space: char -> bool, headers: seq<Header>): seq<Header> {
    if headers == [] then []
    else
      (if headers[0].name == "__proto__" then [] else [Header(headers[0].name, Trim(space, headers[0].value))])
      + Reread(space, headers[1..])
  }

  lemma {:induction false} PutAppends(headers: seq<Header>, name: string, value: string)
    requires forall i :: 0 <= i < |headers| ==> headers[i].name != name
    ensures Put(headers, name, value) == headers + [Header(name, value)]
  {
    if headers != [] {
      PutAppends(headers[1..], name, value);
    }
  }

  function Assigned(space: char -> bool, done: seq<Header>, headers: seq<Header>): seq<Header>
    decreases |headers|
  {
    if headers == [] then done
    else Assigned(space, Assign(done, headers[0].name, Trim(space, headers[0].value)), headers[1..])
  }

  lemma {:induction false} ParsesLines(space: char -> bool, headers: seq<Header>, number: nat, done: seq<Header>)
    requires SpaceClass(space) && forall i :: 0 <= i < |headers| ==> Token(space, headers[i].name)
    ensures Parse(space, LinesOf(headers), number, done) == Headers(Assigned(space, done, headers))
    decreases |headers|
  {
    if headers != [] {
      LineReads(space, headers[0]);
      assert LinesOf(headers)[1..] == LinesOf(headers[1..]);
      ParsesLines(space, headers[1..], number + 1, Assign(done, headers[0].name, Trim(space, headers[0].value)));
    }
  }

  ghost predicate Apart(done: seq<Header>, headers: seq<Header>) {
    && (forall i, j :: 0 <= i < |done| && 0 <= j < |headers| ==> done[i].name != headers[j].name)
    && (forall i, j :: 0 <= i < j < |headers| ==> headers[i].name != headers[j].name)
  }

  lemma ApartStep(done: seq<Header>, headers: seq<Header>, value: string)
    requires headers != [] && Apart(done, headers)
    ensures Apart(done, headers[1..]) && Apart(done + [Header(headers[0].name, value)], headers[1..])
  {
    var next, rest := done + [Header(headers[0].name, value)], headers[1..];
    forall i, j | 0 <= i < |next| && 0 <= j < |rest|
      ensures next[i].name != rest[j].name
    {
      assert rest[j] == headers[j + 1];
    }
  }

  lemma {:induction false} AssignedInOrder(space: char -> bool, done: seq<Header>, headers: seq<Header>)
    requires Apart(done, headers)
    ensures Assigned(space, done, headers) == done + Reread(space, headers)
    decreases |headers|
  {
    if headers == [] {
      assert done + [] == done;
    } else {
      var h, rest := headers[0], headers[1..];
      var kept := if h.name == "__proto__" then [] else [Header(h.name, Trim(space, h.value))];
      ApartStep(done, headers, Trim(space, h.value));
      AssignAppends(done, headers, Trim(space, h.value));
      if h.name == "__proto__" {
        assert done + kept == done;
      }
      AssignedInOrder(space, done + kept, rest);
      Regroup(done, kept, Reread(space, rest));
    }
  }

  lemma AssignAppends(done: seq<Header>, headers: seq<Header>, value: string)
    requires headers != [] && Apart(done, headers)
    ensures Assign(done, headers[0].name, value)
         == done + if headers[0].name == "__proto__" then [] else [Header(headers[0].name, value)]
  {
    PutAppends(done, headers[0].name, value);
  }

  lemma Regroup<T>(a: seq<T>, b: seq<T>, c: seq<T>)
    ensures (a + b) + c == a + (b + c)
  {
  }

  lemma BlankText(space: char -> bool)
    ensures Parse(space, Split(""), 1, []) == Headers([])
  {
    assert Split("") == [""];
    assert Trim(space, "") == "";
  }

  lemma Rereads(space: char -> bool, headers: seq<Header>)
    requires SpaceClass(space) && Storable(space, headers)
    ensures Parse(space, Split(PrintHeaders(headers)), 1, []) == Headers(Reread(space, headers))
  {
    if headers == [] {
      BlankText(space);
    } else {
      forall i | 0 <= i < |headers|
        ensures '\n' !in LinesOf(headers)[i]
      {
        assert Token(space, headers[i].name);
        assert LinesOf(headers)[i] == headers[i].name + ": " + headers[i].value;
      }
      SplitJoin(LinesOf(headers));
      ParsesLines(space, headers, 1, []);
      AssignedInOrder(space, [], headers);
    }
  }

  lemma {:induction false} RereadExactly(space: char -> bool, headers: seq<Header>)
    ensures |Reread(space, headers)| <= |headers|
    ensures Reread(space, headers) == headers <==> forall i :: 0 <= i < |headers| ==> Survives(space, headers[i])
  {
    if headers != [] {
      var h, rest := headers[0], headers[1..];
      RereadExactly(space, rest);
      TrimIsTrimmed(space, h.value);
      var again := Reread(space, headers);
      if h.name != "__proto__" {
        assert again[0] == Header(h.name, Trim(space, h.value)) && again[1..] == Reread(space, rest);
        assert headers == [h] + rest;
      }
      assert forall i :: 1 <= i < |headers| ==> headers[i] == rest[i - 1];
      if forall i :: 0 <= i < |headers| ==> Survives(space, headers[i]) {
        assert Survives(space, headers[0]);
        assert forall i :: 0 <= i < |rest| ==> Survives(space, rest[i]) by {
          assert forall i :: 0 <= i < |rest| ==> rest[i] == headers[i + 1];
        }
      }
    }
  }

  /** Parsing undoes printing, for stored headers, exactly when no value starts or ends with a
      space and no header is called `__proto__`. */
  lemma HeadersRoundTripExactly(space: char -> bool, headers: seq<Header>)
    requires SpaceClass(space) && Storable(space, headers)
    ensures Parse(space, Split(PrintHeaders(headers)), 1, []) == Headers(headers)
       <==> forall i :: 0 <= i < |headers| ==> Survives(space, headers[i])
  {
    Rereads(space, headers);
    RereadExactly(space, headers);
  }

  /** A header the server accepts and the form forgets. */
  lemma ProtoIsLost(space: char -> bool)
    requires SpaceClass(space) && Token(space, "__proto__")
    ensures Storable(space, [Header("__proto__", "1")])
    ensures Parse(space, Split(PrintHeaders([Header("__proto__", "1")])), 1, []) == Headers([])
  {
    Rereads(space, [Header("__proto__", "1")]);
  }
}
