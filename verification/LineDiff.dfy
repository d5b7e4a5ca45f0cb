/** The line diff between two suite versions: a table of common-subsequence lengths of the
    suffixes, then a greedy walk. Proved to spell both texts and to keep as many lines as any
    diff can. */
module LineDiff {
  import opened AttemptResults
  import opened Lines

  datatype Kind = Same | Add | Del

  datatype DiffLine = DiffLine(kind: Kind, text: string)

  const MAX_CELLS := 4_000_000

  newtype uint32 = x: int | 0 <= x < 0x1_0000_0000

  // --- common subsequences --------------------------------------------------------------------

  ghost predicate IsSubsequence(s: seq<string>, a: seq<string>) {
    s == [] || (a != [] && ((s[0] == a[0] && IsSubsequence(s[1..], a[1..])) || IsSubsequence(s, a[1..])))
  }

  ghost predicate IsCommon(s: seq<string>, a: seq<string>, b: seq<string>) {
    IsSubsequence(s, a) && IsSubsequence(s, b)
  }

  function Lcs(a: seq<string>, b: seq<string>): nat
    decreases |a| + |b|
  {
    if a == [] || b == [] then 0
    else if a[0] == b[0] then Lcs(a[1..], b[1..]) + 1
    else Max(Lcs(a[1..], b), Lcs(a, b[1..]))
  }

  function Max(x: nat, y: nat): nat {
    if x >= y then x else y
  }

  lemma {:induction false} LcsBound(a: seq<string>, b: seq<string>)
    ensures Lcs(a, b) <= |a| && Lcs(a, b) <= |b|
    decreases |a| + |b|
  {
    if a != [] && b != [] {
      if a[0] == b[0] {
        LcsBound(a[1..], b[1..]);
      } else {
        LcsBound(a[1..], b);
        LcsBound(a, b[1..]);
      }
    }
  }

  lemma {:induction false} TailIsSubsequence(s: seq<string>, a: seq<string>)
    requires IsSubsequence(s, a) && s != []
    ensures a != [] && IsSubsequence(s[1..], a[1..])
    decreases |a|
  {
    if !(s[0] == a[0] && IsSubsequence(s[1..], a[1..])) {
      TailIsSubsequence(s, a[1..]);
      SkipHead(s[1..], a[1..]);
    }
  }

  lemma SkipHead(s: seq<string>, a: seq<string>)
    requires a != [] && IsSubsequence(s, a[1..])
    ensures IsSubsequence(s, a)
  {
  }

  /** No common subsequence is longer than the table's value. */
  lemma {:induction false} LcsIsLongest(s: seq<string>, a: seq<string>, b: seq<string>)
    requires IsCommon(s, a, b)
    ensures |s| <= Lcs(a, b)
    decreases |a| + |b|
  {
    if s != [] {
      TailIsSubsequence(s, a);
      TailIsSubsequence(s, b);
      if a[0] == b[0] {
        LcsIsLongest(s[1..], a[1..], b[1..]);
      } else if s[0] == a[0] {
        LcsIsLongest(s, a, b[1..]);
      } else {
        LcsIsLongest(s, a[1..], b);
      }
    }
  }

  // --- diffs ----------------------------------------------------------------------------------

  function Texts(diff: seq<DiffLine>, dropped: Kind): seq<string> {
    if diff == [] then []
    else (if diff[0].kind == dropped then [] else [diff[0].text]) + Texts(diff[1..], dropped)
  }

  function Kept(diff: seq<DiffLine>): seq<string> {
    if diff == [] then []
    else (if diff[0].kind == Same then [diff[0].text] else []) + Kept(diff[1..])
  }

  /** `same` and `del` lines spell `a`, `same` and `add` lines spell `b`. */
  ghost predicate IsDiff(diff: seq<DiffLine>, a: seq<string>, b: seq<string>) {
    Texts(diff, Add) == a && Texts(diff, Del) == b
  }

  lemma {:induction false} TextsSnoc(diff: seq<DiffLine>, line: DiffLine, dropped: Kind)
    ensures Texts(diff + [line], dropped) == Texts(diff, dropped) + if line.kind == dropped then [] else [line.text]
    ensures Kept(diff + [line]) == Kept(diff) + if line.kind == Same then [line.text] else []
  {
    if diff == [] {
      assert diff + [line] == [line];
    } else {
      assert (diff + [line])[1..] == diff[1..] + [line];
      TextsSnoc(diff[1..], line, dropped);
    }
  }

  lemma LineAdded(diff: seq<DiffLine>, line: DiffLine)
    ensures Texts(diff + [line], Add) == Texts(diff, Add) + if line.kind == Add then [] else [line.text]
    ensures Texts(diff + [line], Del) == Texts(diff, Del) + if line.kind == Del then [] else [line.text]
    ensures Kept(diff + [line]) == Kept(diff) + if line.kind == Same then [line.text] else []
  {
    TextsSnoc(diff, line, Add);
    TextsSnoc(diff, line, Del);
  }

  /** The lines any diff keeps are a common subsequence, and the more it keeps the shorter
      it is. */
  lemma {:induction false} KeptIsCommon(diff: seq<DiffLine>, a: seq<string>, b: seq<string>)
    requires IsDiff(diff, a, b)
    ensures IsCommon(Kept(diff), a, b)
    ensures |diff| == |a| + |b| - |Kept(diff)|
    decreases |diff|
  {
    if diff != [] {
      var rest := diff[1..];
      match diff[0].kind
      case Same =>
        assert a == [diff[0].text] + Texts(rest, Add) && b == [diff[0].text] + Texts(rest, Del);
        KeptIsCommon(rest, a[1..], b[1..]);
      case Add =>
        assert b == [diff[0].text] + Texts(rest, Del) && a == Texts(rest, Add);
        KeptIsCommon(rest, a, b[1..]);
        assert Kept(diff) == Kept(rest);
        SkipHead(Kept(diff), b);
      case Del =>
        assert a == [diff[0].text] + Texts(rest, Add) && b == Texts(rest, Del);
        KeptIsCommon(rest, a[1..], b);
        assert Kept(diff) == Kept(rest);
        SkipHead(Kept(diff), a);
    }
  }

  /** A diff that keeps the table's value of lines keeps as many as any, and is as short. */
  lemma OptimalDiff(diff: seq<DiffLine>, other: seq<DiffLine>, a: seq<string>, b: seq<string>)
    requires IsDiff(diff, a, b) && |Kept(diff)| == Lcs(a, b) && IsDiff(other, a, b)
    ensures |Kept(other)| <= |Kept(diff)| && |diff| <= |other|
  {
    KeptIsCommon(diff, a, b);
    KeptIsCommon(other, a, b);
    LcsIsLongest(Kept(other), a, b);
  }

  // --- the algorithm --------------------------------------------------------------------------

  ghost predicate Filled(lcs: array2<uint32>, a: seq<string>, b: seq<string>)
    reads lcs
  {
    && lcs.Length0 == |a| + 1 && lcs.Length1 == |b| + 1
    && forall i, j :: 0 <= i <= |a| && 0 <= j <= |b| ==> lcs[i, j] as int == Lcs(a[i..], b[j..])
  }

  lemma LcsStep(a: seq<string>, b: seq<string>, i: nat, j: nat)
    requires i < |a| && j < |b|
    ensures Lcs(a[i..], b[j..])
         == if a[i] == b[j] then Lcs(a[i + 1..], b[j + 1..]) + 1
             else Max(Lcs(a[i + 1..], b[j..]), Lcs(a[i..], b[j + 1..]))
  {
    assert a[i..][1..] == a[i + 1..] && b[j..][1..] == b[j + 1..];
  }

  /** The table: its last row and column are zero, the rest is filled from the end. */
  method FillTable(a: seq<string>, b: seq<string>) returns (lcs: array2<uint32>)
    requires |a| < 0xffff_ffff
    ensures fresh(lcs) && Filled(lcs, a, b)
  {
    lcs := new uint32[|a| + 1, |b| + 1]((_, _) => 0);
    for i := |a| downto 0
      invariant forall x, y :: 0 <= x <= |a| && 0 <= y <= |b| && (x >= i || y == |b|) ==>
                lcs[x, y] as int == Lcs(a[x..], b[y..])
    {
      for j := |b| downto 0
        invariant forall x, y :: 0 <= x <= |a| && 0 <= y <= |b| && (x > i || (x == i && y >= j) || y == |b|) ==>
                    lcs[x, y] as int == Lcs(a[x..], b[y..])
      {
        LcsStep(a, b, i, j);
        LcsBound(a[i..], b[j..]);
        lcs[i, j] := if a[i] == b[j] then lcs[i + 1, j + 1] + 1
                     else if lcs[i + 1, j] >= lcs[i, j + 1] then lcs[i + 1, j] else lcs[i, j + 1];
      }
    }
  }

  /** The walk's state: `out` spells what has been consumed, and keeps as much as is left. */
  ghost predicate Walked(out: seq<DiffLine>, a: seq<string>, b: seq<string>, i: nat, j: nat) {
    && i <= |a| && j <= |b|
    && Texts(out, Add) == a[..i] && Texts(out, Del) == b[..j]
    && |Kept(out)| + Lcs(a[i..], b[j..]) == Lcs(a, b)
  }

  lemma WalkStep(out: seq<DiffLine>, a: seq<string>, b: seq<string>, i: nat, j: nat)
    requires Walked(out, a, b, i, j) && i < |a| && j < |b|
    ensures a[i] == b[j] ==> Walked(out + [DiffLine(Same, a[i])], a, b, i + 1, j + 1)
    ensures a[i] != b[j] && Lcs(a[i + 1..], b[j..]) >= Lcs(a[i..], b[j + 1..]) ==>
            Walked(out + [DiffLine(Del, a[i])], a, b, i + 1, j)
    ensures a[i] != b[j] && Lcs(a[i + 1..], b[j..]) < Lcs(a[i..], b[j + 1..]) ==>
            Walked(out + [DiffLine(Add, b[j])], a, b, i, j + 1)
  {
    LcsStep(a, b, i, j);
    LineAdded(out, DiffLine(Same, a[i]));
    LineAdded(out, DiffLine(Del, a[i]));
    LineAdded(out, DiffLine(Add, b[j]));
    assert a[..i + 1] == a[..i] + [a[i]] && b[..j + 1] == b[..j] + [b[j]];
  }

  lemma RestStep(out: seq<DiffLine>, a: seq<string>, b: seq<string>, i: nat, j: nat)
    requires Walked(out, a, b, i, j) && (i == |a| || j == |b|)
    ensures i < |a| ==> Walked(out + [DiffLine(Del, a[i])], a, b, i + 1, j)
    ensures j < |b| ==> Walked(out + [DiffLine(Add, b[j])], a, b, i, j + 1)
  {
    if i < |a| {
      LineAdded(out, DiffLine(Del, a[i]));
      assert a[..i + 1] == a[..i] + [a[i]];
    }
    if j < |b| {
      LineAdded(out, DiffLine(Add, b[j]));
      assert b[..j + 1] == b[..j] + [b[j]];
    }
  }

  method Walk(a: seq<string>, b: seq<string>, lcs: array2<uint32>) returns (out: seq<DiffLine>)
    requires Filled(lcs, a, b)
    ensures Walked(out, a, b, |a|, |b|)
  {
    out := [];
    var i, j := 0, 0;
    assert a[0..] == a && b[0..] == b;
    while i < |a| && j < |b|
      invariant Walked(out, a, b, i, j)
      decreases |a| + |b| - i - j
    {
      WalkStep(out, a, b, i, j);
      var down, right := lcs[i + 1, j], lcs[i, j + 1];
      assert down as int == Lcs(a[i + 1..], b[j..]) && right as int == Lcs(a[i..], b[j + 1..]);
      if a[i] == b[j] {
        out := out + [DiffLine(Same, a[i])];
        i, j := i + 1, j + 1;
      } else if down >= right {
        out := out + [DiffLine(Del, a[i])];
        i := i + 1;
      } else {
        out := out + [DiffLine(Add, b[j])];
        j := j + 1;
      }
    }
    out := Rest(a, b, out, i, j);
  }

  method Rest(a: seq<string>, b: seq<string>, walked: seq<DiffLine>, x: nat, y: nat) returns (out: seq<DiffLine>)
    requires Walked(walked, a, b, x, y) && (x == |a| || y == |b|)
    ensures Walked(out, a, b, |a|, |b|)
  {
    var i, j := x, y;
    out := walked;
    while i < |a|
      invariant Walked(out, a, b, i, j) && (i == |a| || j == |b|)
    {
      RestStep(out, a, b, i, j);
      out := out + [DiffLine(Del, a[i])];
      i := i + 1;
    }
    while j < |b|
      invariant Walked(out, a, b, i, j) && i == |a|
    {
      RestStep(out, a, b, i, j);
      out := out + [DiffLine(Add, b[j])];
      j := j + 1;
    }
  }

  method Diff(a: seq<string>, b: seq<string>) returns (out: seq<DiffLine>)
    requires |a| < 0xffff_ffff
    ensures IsDiff(out, a, b)
    ensures |Kept(out)| == Lcs(a, b)
  {
    var lcs := FillTable(a, b);
    out := Walk(a, b, lcs);
    assert a[..|a|] == a && b[..|b|] == b;
  }

  /** Nothing when the table would be too large; otherwise a diff that gives back both texts
      and that keeps at least as many lines, and is at least as short, as any other. */
  method LineDiff(before: string, after: string) returns (diff: Option<seq<DiffLine>>)
    ensures diff.None? <==> |Split(before)| * |Split(after)| > MAX_CELLS
    ensures diff.Some? ==>
            && Join(Texts(diff.value, Add)) == before
            && Join(Texts(diff.value, Del)) == after
            && IsDiff(diff.value, Split(before), Split(after))
            && IsCommon(Kept(diff.value), Split(before), Split(after))
            && (forall s :: IsCommon(s, Split(before), Split(after)) ==> |s| <= |Kept(diff.value)|)
            && (forall other :: IsDiff(other, Split(before), Split(after)) ==> |diff.value| <= |other|)
  {
    var a, b := Split(before), Split(after);
    if |a| * |b| > MAX_CELLS {
      return None;
    }
    SideBound(|a|, |b|);
    var out := Diff(a, b);
    JoinSplit(before);
    JoinSplit(after);
    KeptIsCommon(out, a, b);
    forall s | IsCommon(s, a, b)
      ensures |s| <= |Kept(out)|
    {
      LcsIsLongest(s, a, b);
    }
    forall other | IsDiff(other, a, b)
      ensures |out| <= |other|
    {
      OptimalDiff(out, other, a, b);
    }
    diff := Some(out);
  }

  lemma SideBound(x: nat, y: nat)
    requires y >= 1
    ensures x <= x * y
  {
  }
}
