/** What the numbers, failures and consistency verdicts of a summary mean, said without the
    functions that compute them. */
module SummaryMeaning {
  import opened AttemptResults
  import opened RunSummary
  import opened Sorting
  import opened Suite

  // --- means and totals -------------------------------------------------------------------

  /** What an attempt adds to a sum, and whether it counts: unknown values do neither. */
  function Added(attempts: seq<AttemptResult>, of: AttemptResult -> Option<real>): real {
    if attempts == [] then 0.0
    else (if of(attempts[0]).Some? then of(attempts[0]).value else 0.0) + Added(attempts[1..], of)
  }

  function Counted(attempts: seq<AttemptResult>, of: AttemptResult -> Option<real>): nat {
    if attempts == [] then 0 else (if of(attempts[0]).Some? then 1 else 0) + Counted(attempts[1..], of)
  }

  lemma {:induction false} KnownIs(attempts: seq<AttemptResult>, of: AttemptResult -> Option<real>)
    ensures |Known(Map(attempts, of))| == Counted(attempts, of) <= |attempts|
    ensures Sum(Known(Map(attempts, of))) == Added(attempts, of)
    ensures None in Map(attempts, of) <==> Counted(attempts, of) < |attempts|
  {
    var values := Map(attempts, of);
    if attempts != [] {
      KnownIs(attempts[1..], of);
      assert values[1..] == Map(attempts[1..], of);
      assert values == [values[0]] + values[1..];
      KnownCons(values[0], values[1..]);
    }
  }

  lemma KnownCons(value: Option<real>, rest: seq<Option<real>>)
    ensures |Known([value] + rest)| == |Known(rest)| + if value.Some? then 1 else 0
    ensures Sum(Known([value] + rest)) == Sum(Known(rest)) + if value.Some? then value.value else 0.0
  {
    assert ([value] + rest)[1..] == rest;
    if value.Some? {
      assert ([value.value] + Known(rest))[1..] == Known(rest);
    } else {
      assert [] + Known(rest) == Known(rest);
    }
  }

  /** Some value is known exactly when there is a mean, and the known values add up to the mean
      times their number. */
  ghost predicate IsMean(mean: Option<real>, attempts: seq<AttemptResult>, of: AttemptResult -> Option<real>) {
    && (mean.Some? <==> Counted(attempts, of) > 0)
    && (mean.Some? ==> mean.value * Counted(attempts, of) as real == Added(attempts, of))
  }

  /** Every value is known, of at least one, exactly when there is a total, and it is their
      sum. */
  ghost predicate IsTotal(total: Option<real>, attempts: seq<AttemptResult>, of: AttemptResult -> Option<real>) {
    && (total.Some? <==> attempts != [] && Counted(attempts, of) == |attempts|)
    && (total.Some? ==> total.value == Added(attempts, of))
  }

  lemma MeanIsExact(attempts: seq<AttemptResult>, of: AttemptResult -> Option<real>)
    ensures IsMean(Mean(Map(attempts, of)), attempts, of)
  {
    KnownIs(attempts, of);
    if Counted(attempts, of) > 0 {
      Undone(Added(attempts, of), Counted(attempts, of) as real);
    }
  }

  lemma Undone(sum: real, n: real)
    requires n > 0.0
    ensures sum / n * n == sum
  {
  }

  lemma TotalIsExact(attempts: seq<AttemptResult>, of: AttemptResult -> Option<real>)
    ensures IsTotal(Total(Map(attempts, of)), attempts, of)
  {
    KnownIs(attempts, of);
  }

  function ScoreOf(): AttemptResult -> Option<real> {
    (r: AttemptResult) => r.score
  }

  function LatencyOf(): AttemptResult -> Option<real> {
    (r: AttemptResult) => r.latencyMs
  }

  function CostOf(): AttemptResult -> Option<real> {
    (r: AttemptResult) => r.costUsd
  }

  function JudgeCostOf(): AttemptResult -> Option<real> {
    (r: AttemptResult) => Some(r.judgeCostUsd)
  }

  /** A case's mean score and latency are the arithmetic means of those its attempts have, and
      its cost is the sum of theirs, known exactly when each is. */
  lemma CaseNumbers(attempts: seq<AttemptResult>)
    ensures IsMean(SummaryOfCase(attempts).meanScore, attempts, ScoreOf())
    ensures IsMean(SummaryOfCase(attempts).meanLatencyMs, attempts, LatencyOf())
    ensures IsTotal(SummaryOfCase(attempts).costUsd, attempts, CostOf())
  {
    MeanIsExact(attempts, ScoreOf());
    MeanIsExact(attempts, LatencyOf());
    TotalIsExact(attempts, CostOf());
    SameField(attempts);
  }

  lemma SameField(attempts: seq<AttemptResult>)
    ensures SummaryOfCase(attempts).meanScore == Mean(Map(attempts, ScoreOf()))
    ensures SummaryOfCase(attempts).meanLatencyMs == Mean(Map(attempts, LatencyOf()))
    ensures SummaryOfCase(attempts).costUsd == Total(Map(attempts, CostOf()))
  {
    assert Map(attempts, (r: AttemptResult) => r.score) == Map(attempts, ScoreOf());
    assert Map(attempts, (r: AttemptResult) => r.latencyMs) == Map(attempts, LatencyOf());
    assert Map(attempts, (r: AttemptResult) => r.costUsd) == Map(attempts, CostOf());
  }

  lemma {:induction false} InsertAdds(
      x: AttemptResult, s: seq<AttemptResult>, key: AttemptResult -> (int, int), of: AttemptResult -> Option<real>)
    ensures Added(Insert(x, s, key), of) == (if of(x).Some? then of(x).value else 0.0) + Added(s, of)
    ensures Counted(Insert(x, s, key), of) == (if of(x).Some? then 1 else 0) + Counted(s, of)
  {
    if s == [] || LessEq(key(x), key(s[0])) {
      assert Insert(x, s, key)[1..] == s;
    } else {
      assert Insert(x, s, key)[1..] == Insert(x, s[1..], key);
      InsertAdds(x, s[1..], key, of);
    }
  }

  lemma {:induction false} SortAdds(s: seq<AttemptResult>, key: AttemptResult -> (int, int),
                                    of: AttemptResult -> Option<real>)
    ensures Added(Sort(s, key), of) == Added(s, of) && Counted(Sort(s, key), of) == Counted(s, of)
  {
    if s != [] {
      SortAdds(s[1..], key, of);
      InsertAdds(s[0], Sort(s[1..], key), key, of);
    }
  }

  /** The run's costs are the sums over the results it was given. */
  lemma RunCosts(results: seq<AttemptResult>, cases: seq<Case>, judge: ConsistencyJudge)
    ensures IsTotal(SummaryOf(results, cases, judge).agentCostUsd, results, CostOf())
    ensures SummaryOf(results, cases, judge).judgeCostUsd == Added(results, JudgeCostOf())
  {
    var ordered := Sort(results, BySuite(cases));
    SortPermutes(results, BySuite(cases));
    SortAdds(results, BySuite(cases), CostOf());
    SortAdds(results, BySuite(cases), JudgeCostOf());
    TotalIsExact(ordered, CostOf());
    assert Map(ordered, (r: AttemptResult) => r.costUsd) == Map(ordered, CostOf());
    JudgeCosts(ordered);
  }

  lemma {:induction false} JudgeCosts(ordered: seq<AttemptResult>)
    ensures Sum(Map(ordered, (r: AttemptResult) => r.judgeCostUsd)) == Added(ordered, JudgeCostOf())
  {
    if ordered != [] {
      JudgeCosts(ordered[1..]);
      assert Map(ordered, (r: AttemptResult) => r.judgeCostUsd)[1..]
          == Map(ordered[1..], (r: AttemptResult) => r.judgeCostUsd);
    }
  }

  // --- failures ---------------------------------------------------------------------------

  /** Why an attempt counts as failing: its error, or a verdict that failed it. */
  ghost predicate IsReason(attempts: seq<AttemptResult>, x: string) {
    exists a :: a in attempts && (ErrorSays(a, x) || exists v :: v in a.judgments && VerdictSays(v, x))
  }

  predicate ErrorSays(a: AttemptResult, x: string) {
    a.error.Some? && x == KindName(a.error.value.kind) + " error: " + a.error.value.message
  }

  predicate VerdictSays(v: JudgeResult, x: string) {
    v.status == Fail && x == v.judge + ": " + v.reason
  }

  lemma {:induction false} FailedReasonMembers(verdicts: seq<JudgeResult>, x: string)
    ensures x in FailedReasons(verdicts) <==> exists v :: v in verdicts && VerdictSays(v, x)
  {
    if verdicts != [] {
      FailedReasonMembers(verdicts[1..], x);
      assert verdicts[0] in verdicts;
      assert forall v :: v in verdicts <==> v == verdicts[0] || v in verdicts[1..];
      assert x in FailedReasons(verdicts) <==> VerdictSays(verdicts[0], x) || x in FailedReasons(verdicts[1..]);
    }
  }

  lemma {:induction false} ReasonMembers(attempts: seq<AttemptResult>, x: string)
    ensures x in Reasons(attempts) <==> IsReason(attempts, x)
  {
    if attempts != [] {
      ReasonMembers(attempts[1..], x);
      FailedReasonMembers(attempts[0].judgments, x);
      assert forall a :: a in attempts <==> a == attempts[0] || a in attempts[1..];
    }
  }

  /** Where a string first occurs; past the end if it doesn't. */
  function FirstAt(s: seq<string>, x: string): (i: nat)
    ensures i <= |s| && (i < |s| <==> x in s) && (i < |s| ==> s[i] == x) && x !in s[..i]
  {
    if s == [] || s[0] == x then 0 else 1 + FirstAt(s[1..], x)
  }

  lemma {:induction false} FirstStays(s: seq<string>, last: string, x: string)
    ensures FirstAt(s + [last], x) == if x in s then FirstAt(s, x) else if x == last then |s| else |s| + 1
  {
    if s == [] {
      assert [] + [last] == [last] && [last][1..] == [];
    } else if s[0] != x {
      assert (s + [last])[1..] == s[1..] + [last];
      FirstStays(s[1..], last, x);
    }
  }

  lemma {:induction false} OnceInOrder(s: seq<string>, i: nat, j: nat)
    requires i < j < |Once(s)|
    ensures FirstAt(s, Once(s)[i]) < FirstAt(s, Once(s)[j])
  {
    var front, last := s[..|s| - 1], s[|s| - 1];
    assert s == front + [last];
    OnceMeans(front);
    FirstStays(front, last, Once(s)[i]);
    FirstStays(front, last, Once(s)[j]);
    if j < |Once(front)| {
      OnceInOrder(front, i, j);
    }
  }

  /** A case's failures are at most five distinct reasons, in the order in which they first
      occur, and every reason when there are no more than five. */
  lemma FailuresMean(attempts: seq<AttemptResult>)
    ensures var f := FailuresOf(attempts);
            && |f| <= MAX_FAILURE_REASONS && Distinct(f)
            && (forall x :: x in f ==> IsReason(attempts, x))
            && (|f| < MAX_FAILURE_REASONS ==> forall x :: IsReason(attempts, x) ==> x in f)
            && (forall i, j :: 0 <= i < j < |f| ==> FirstAt(Reasons(attempts), f[i]) < FirstAt(Reasons(attempts), f[j]))
            && (forall i, x :: 0 <= i < |f| && IsReason(attempts, x) && x !in f ==>
                  FirstAt(Reasons(attempts), f[i]) < FirstAt(Reasons(attempts), x))
  {
    var reasons, f := Reasons(attempts), FailuresOf(attempts);
    OnceMeans(reasons);
    assert forall i :: 0 <= i < |f| ==> f[i] == Once(reasons)[i];
    forall x
      ensures x in reasons <==> IsReason(attempts, x)
    {
      ReasonMembers(attempts, x);
    }
    forall i, j | 0 <= i < j < |f|
      ensures FirstAt(reasons, f[i]) < FirstAt(reasons, f[j])
    {
      OnceInOrder(reasons, i, j);
    }
    forall i, x | 0 <= i < |f| && IsReason(attempts, x) && x !in f
      ensures FirstAt(reasons, f[i]) < FirstAt(reasons, x)
    {
      var k :| 0 <= k < |Once(reasons)| && Once(reasons)[k] == x;
      assert k >= |f|;
      OnceInOrder(reasons, i, k);
    }
  }

  // --- consistency ------------------------------------------------------------------------

  predicate Answered(a: AttemptResult) {
    a.response.Some? && a.response.value.error.None?
  }

  ghost predicate IsOutput(attempts: seq<AttemptResult>, x: string) {
    exists a :: a in attempts && Answered(a) && a.response.value.output == x
  }

  lemma {:induction false} OutputsOf(attempts: seq<AttemptResult>)
    ensures Outputs(attempts) == [] <==> forall i :: 0 <= i < |attempts| ==> !Answered(attempts[i])
    ensures forall x :: x in Outputs(attempts) <==> IsOutput(attempts, x)
  {
    if attempts != [] {
      OutputsOf(attempts[1..]);
      assert forall a :: a in attempts <==> a == attempts[0] || a in attempts[1..];
      assert forall i :: 0 < i < |attempts| ==> attempts[i] == attempts[1..][i - 1];
    }
  }

  function ConsistencySpecs(specs: seq<JudgeSpec>): nat {
    if specs == [] then 0 else (if specs[0].judge == CONSISTENCY then 1 else 0) + ConsistencySpecs(specs[1..])
  }

  lemma {:induction false} ConsistencyCount(specs: seq<JudgeSpec>, outputs: seq<string>, judge: ConsistencyJudge)
    ensures |ConsistencyOf(specs, outputs, judge)| == if outputs == [] then 0 else ConsistencySpecs(specs)
    ensures forall v :: v in ConsistencyOf(specs, outputs, judge) ==>
              exists spec :: spec in specs && spec.judge == CONSISTENCY && v == judge(spec, outputs)
  {
    if specs != [] && outputs != [] {
      ConsistencyCount(specs[1..], outputs, judge);
      assert forall spec :: spec in specs <==> spec == specs[0] || spec in specs[1..];
    }
  }

  lemma {:induction false} InconsistencyMembers(verdicts: seq<JudgeResult>, x: string)
    ensures x in Inconsistencies(verdicts)
            <==> exists v :: v in verdicts && v.status != Pass && x == "consistency: " + v.reason
    ensures |Inconsistencies(verdicts)| <= |verdicts|
  {
    if verdicts != [] {
      InconsistencyMembers(verdicts[1..], x);
      assert forall v :: v in verdicts <==> v == verdicts[0] || v in verdicts[1..];
    }
  }

  /** A case is judged for consistency once by each such judge, over everything its attempts
      answered, and not at all if none answered; its failures are its attempts' and then the
      verdicts that are no pass. */
  lemma ConsistencyMeans(c: Case, attempts: seq<AttemptResult>, judge: ConsistencyJudge)
    ensures var r := ResultOfCase(c, attempts, judge);
            && r.caseId == c.id
            && |r.consistency| == (if exists i :: 0 <= i < |attempts| && Answered(attempts[i])
                then ConsistencySpecs(c.specs) else 0)
            && (forall v :: v in r.consistency ==>
                  exists spec :: spec in c.specs && spec.judge == CONSISTENCY && v == judge(spec, Outputs(attempts)))
            && FailuresOf(attempts) <= r.failures
            && (forall x :: x in r.failures[|FailuresOf(attempts)|..] <==>
                  exists v :: v in r.consistency && v.status != Pass && x == "consistency: " + v.reason)
  {
    var r := ResultOfCase(c, attempts, judge);
    OutputsOf(attempts);
    ConsistencyCount(c.specs, Outputs(attempts), judge);
    assert r.failures[|FailuresOf(attempts)|..] == Inconsistencies(r.consistency);
    forall x
      ensures x in Inconsistencies(r.consistency)
              <==> exists v :: v in r.consistency && v.status != Pass && x == "consistency: " + v.reason
    {
      InconsistencyMembers(r.consistency, x);
    }
  }
}
