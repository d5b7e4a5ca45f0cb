/** Lines of a text, as the web app splits and joins them. */
module Lines {
  /** `text.split("\n")`: always at least one line. */
  function Split(text: string): (lines: seq<string>)
    ensures lines != []
  {
    if text == [] then [[]]
    else
      var rest := Split(text[1..]);
      if text[0] == '\n' then [[]] + rest else [[text[0]] + rest[0]] + rest[1..]
  }

  function Join(lines: seq<string>): string {
    if lines == [] then []
    else if |lines| == 1 then lines[0]
    else lines[0] + ['\n'] + Join(lines[1..])
  }

  lemma {:induction false} JoinSplit(text: string)
    ensures Join(Split(text)) == text
    ensures forall l :: l in Split(text) ==> '\n' !in l
  {
    if text != [] {
      var rest := Split(text[1..]);
      JoinSplit(text[1..]);
      if text[0] == '\n' {
        assert Split(text)[1..] == rest;
      } else {
        assert Split(text)[1..] == rest[1..];
        assert '\n' !in rest[0];
      }
    }
  }

  /** Splitting undoes joining lines that hold no line break. */
  lemma {:induction false} SplitJoin(lines: seq<string>)
    requires lines != [] && forall i :: 0 <= i < |lines| ==> '\n' !in lines[i]
    ensures Split(Join(lines)) == lines
  {
    if |lines| == 1 {
      SplitLine(lines[0]);
    } else {
      SplitJoin(lines[1..]);
      SplitFirst(lines[0], Join(lines[1..]));
    }
  }

  lemma {:induction false} SplitLine(line: string)
    requires '\n' !in line
    ensures Split(line) == [line]
  {
    if line != [] {
      SplitLine(line[1..]);
      assert line[0] in line && [line[0]] + line[1..] == line;
    }
  }

  lemma {:induction false} SplitFirst(line: string, rest: string)
    requires '\n' !in line
    ensures Split(line + ['\n'] + rest) == [line] + Split(rest)
  {
    var text := line + ['\n'] + rest;
    if line == [] {
      assert text[1..] == rest;
    } else {
      SplitFirst(line[1..], rest);
      assert text[1..] == line[1..] + ['\n'] + rest;
      assert line[0] in line && [line[0]] + line[1..] == line;
    }
  }
}
