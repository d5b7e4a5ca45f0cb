/** Character classes and greedy runs: what the regular expressions of the adapter are made of.
    The classes are parameters, since `\w`, `\d` and `\s` go beyond ASCII. */
module Scanning {
  datatype Classes = Classes(word: char -> bool, digit: char -> bool, digitValue: char -> nat, space: char -> bool)

  /** What the engine's classes are known to do on the characters the syntaxes use. */
  ghost predicate Sane(c: Classes) {
    && (forall ch :: ch in "0123456789" ==> c.digit(ch) && c.digitValue(ch) == (ch - '0') as nat)
    && (forall ch :: c.digit(ch) ==> c.word(ch))
    && (forall ch :: c.word(ch) ==> !c.space(ch))
    && (forall ch :: ch in ".[]'\"-{}$" ==> !c.word(ch) && !c.space(ch))
  }

  /** Where the longest run of a class starting at `from` ends. */
  function RunEnd(member: char -> bool, s: string, from: nat): (end: nat)
    requires from <= |s|
    ensures from <= end <= |s|
    ensures forall i :: from <= i < end ==> member(s[i])
    ensures end < |s| ==> !member(s[end])
    decreases |s| - from
  {
    if from < |s| && member(s[from]) then RunEnd(member, s, from + 1) else from
  }

  /** A run of members followed by a non-member, or by nothing, is the whole run. */
  lemma {:induction false} RunEndsAt(member: char -> bool, s: string, from: nat, end: nat)
    requires from <= end <= |s|
    requires forall i :: from <= i < end ==> member(s[i])
    requires end < |s| ==> !member(s[end])
    ensures RunEnd(member, s, from) == end
    decreases end - from
  {
    if from < end {
      RunEndsAt(member, s, from + 1, end);
    }
  }

  function Concat(parts: seq<string>): string {
    if parts == [] then "" else parts[0] + Concat(parts[1..])
  }
}
