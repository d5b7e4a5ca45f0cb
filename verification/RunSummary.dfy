/** `finalize_run` turns a run's attempts, in whatever order a query returned them, into its
    summary; `check_results` is the gate for attempts executed elsewhere. The consistency
    judge is a parameter: what it says of a case's answers. Statistics computed from the case
    summaries (rates, labels, intervals) are not part of this model. */
module RunSummary {
  import opened AttemptResults
  import opened Suite
  import opened Sorting

  datatype CaseSummary = CaseSummary(
    passes: nat,
    attempts: nat,
    errors: nat,
    meanScore: Option<real>,
    meanLatencyMs: Option<real>,
    costUsd: Option<real>)

  datatype CaseResult = CaseResult(caseId: string, summary: CaseSummary, consistency: seq<JudgeResult>,
      failures: seq<string>)

  datatype Summary = Summary(
    attempts: nat,
    errors: nat,
    infraErrors: nat,
    tokens: Option<int>,
    agentCostUsd: Option<real>,
    judgeCostUsd: real,
    startedAt: Option<int>,
    cases: seq<CaseResult>,
    results: seq<AttemptResult>)

  /** What the case-level judge `spec` says of the outputs a case's attempts answered with. */
  type ConsistencyJudge = (JudgeSpec, seq<string>) -> JudgeResult

  const MAX_FAILURE_REASONS: nat := 5

  // --- expressions ------------------------------------------------------------------------

  function CountStatus(results: seq<AttemptResult>, status: AttemptStatus): nat {
    if results == [] then 0
    else (if results[0].status == status then 1 else 0) + CountStatus(results[1..], status)
  }

  function CountInfra(results: seq<AttemptResult>): nat {
    if results == [] then 0
    else (if results[0].IsInfraError() then 1 else 0) + CountInfra(results[1..])
  }

  function Known(values: seq<Option<real>>): seq<real> {
    if values == [] then []
    else (if values[0].Some? then [values[0].value] else []) + Known(values[1..])
  }

  function Sum(values: seq<real>): real {
    if values == [] then 0.0 else values[0] + Sum(values[1..])
  }

  function Mean(values: seq<Option<real>>): Option<real> {
    var known := Known(values);
    if known == [] then None else Some(Sum(known) / (|known| as real))
  }

  /** The sum, or nothing unless every value is known. */
  function Total(values: seq<Option<real>>): Option<real> {
    if values == [] || None in values then None else Some(Sum(Known(values)))
  }

  function TokensOf(results: seq<AttemptResult>): Option<int> {
    if results == [] then None
    else
      var rest := TokensOf(results[1..]);
      match results[0].tokens
      case None => rest
      case Some(n) => Some(n + if rest.Some? then rest.value else 0)
  }

  function Map<A, B>(s: seq<A>, f: A -> B): (r: seq<B>)
    ensures |r| == |s| && forall i :: 0 <= i < |s| ==> r[i] == f(s[i])
  {
    seq(|s|, i requires 0 <= i < |s| => f(s[i]))
  }

  // --- one case ---------------------------------------------------------------------------

  function VerdictReason(verdict: JudgeResult): string {
    verdict.judge + ": " + verdict.reason
  }

  function FailedReasons(verdicts: seq<JudgeResult>): seq<string> {
    if verdicts == [] then []
    else (if verdicts[0].status == Fail then [VerdictReason(verdicts[0])] else []) + FailedReasons(verdicts[1..])
  }

  /** Every failure reason of the attempts, in order and with repetitions. */
  function Reasons(attempts: seq<AttemptResult>): seq<string> {
    if attempts == [] then []
    else
      (if attempts[0].error.Some? then [attempts[0].error.value.Reason()] else [])
      + FailedReasons(attempts[0].judgments)
      + Reasons(attempts[1..])
  }

  function AddOnce(s: seq<string>, x: string): seq<string> {
    if x in s then s else s + [x]
  }

  /** The distinct elements, each where it first occurs. */
  function Once(s: seq<string>): seq<string> {
    if s == [] then [] else AddOnce(Once(s[..|s| - 1]), s[|s| - 1])
  }

  lemma {:induction false} OnceMeans(s: seq<string>)
    ensures Distinct(Once(s))
    ensures forall x :: x in Once(s) <==> x in s
  {
    if s != [] {
      OnceMeans(s[..|s| - 1]);
      assert s == s[..|s| - 1] + [s[|s| - 1]];
    }
  }

  lemma OnceSnoc(s: seq<string>, x: string)
    ensures Once(s + [x]) == AddOnce(Once(s), x)
  {
    assert (s + [x])[..|s|] == s;
  }

  lemma {:induction false} ReasonsSplit(a: seq<AttemptResult>, b: seq<AttemptResult>)
    ensures Reasons(a + b) == Reasons(a) + Reasons(b)
  {
    if a == [] {
      assert a + b == b;
    } else {
      assert (a + b)[1..] == a[1..] + b;
      ReasonsSplit(a[1..], b);
    }
  }

  lemma {:induction false} FailedReasonsSplit(a: seq<JudgeResult>, b: seq<JudgeResult>)
    ensures FailedReasons(a + b) == FailedReasons(a) + FailedReasons(b)
  {
    if a == [] {
      assert a + b == b;
    } else {
      assert (a + b)[1..] == a[1..] + b;
      FailedReasonsSplit(a[1..], b);
    }
  }

  /** `_failures`: the first few distinct reasons. */
  method Failures(attempts: seq<AttemptResult>) returns (failures: seq<string>)
    ensures failures == FailuresOf(attempts)
  {
    var reasons: seq<string> := [];
    for i := 0 to |attempts|
      invariant reasons == Once(Reasons(attempts[..i]))
    {
      var attempt := attempts[i];
      ghost var seen := Reasons(attempts[..i]);
      ghost var head := if attempt.error.Some? then [attempt.error.value.Reason()] else [];
      if attempt.error.Some? {
        OnceSnoc(seen, attempt.error.value.Reason());
        reasons := AddOnce(reasons, attempt.error.value.Reason());
      } else {
        assert seen + head == seen;
      }
      reasons := AddFailed(reasons, seen + head, attempt.judgments);
      ReasonsSnoc(attempts, i);
    }
    assert attempts[..|attempts|] == attempts;
    failures := if |reasons| <= MAX_FAILURE_REASONS then reasons else reasons[..MAX_FAILURE_REASONS];
  }

  lemma ReasonsSnoc(attempts: seq<AttemptResult>, i: nat)
    requires i < |attempts|
    ensures Reasons(attempts[..i + 1])
         == Reasons(attempts[..i]) + (if attempts[i].error.Some? then [attempts[i].error.value.Reason()] else [])
            + FailedReasons(attempts[i].judgments)
  {
    assert attempts[..i + 1] == attempts[..i] + [attempts[i]];
    ReasonsSplit(attempts[..i], [attempts[i]]);
    assert Reasons([attempts[i]][1..]) == [];
  }

  method AddFailed(reasons: seq<string>, ghost seen: seq<string>, verdicts: seq<JudgeResult>) returns (all: seq<string>)
    requires reasons == Once(seen)
    ensures all == Once(seen + FailedReasons(verdicts))
  {
    all := reasons;
    assert seen + FailedReasons(verdicts[..0]) == seen;
    for j := 0 to |verdicts|
      invariant all == Once(seen + FailedReasons(verdicts[..j]))
    {
      ghost var before := FailedReasons(verdicts[..j]);
      assert verdicts[..j + 1] == verdicts[..j] + [verdicts[j]];
      FailedReasonsSplit(verdicts[..j], [verdicts[j]]);
      assert FailedReasons([verdicts[j]][1..]) == [];
      if verdicts[j].status == Fail {
        OnceSnoc(seen + before, VerdictReason(verdicts[j]));
        assert seen + FailedReasons(verdicts[..j + 1]) == seen + before + [VerdictReason(verdicts[j])];
        all := AddOnce(all, VerdictReason(verdicts[j]));
      } else {
        assert FailedReasons(verdicts[..j + 1]) == before;
      }
    }
    assert verdicts[..|verdicts|] == verdicts;
  }

  function FailuresOf(attempts: seq<AttemptResult>): seq<string> {
    var reasons := Once(Reasons(attempts));
    if |reasons| <= MAX_FAILURE_REASONS then reasons else reasons[..MAX_FAILURE_REASONS]
  }

  function Outputs(attempts: seq<AttemptResult>): seq<string> {
    if attempts == [] then []
    else
      var response := attempts[0].response;
      (if response.Some? && response.value.error.None? then [response.value.output] else []) + Outputs(attempts[1..])
  }

  function ConsistencyOf(specs: seq<JudgeSpec>, outputs: seq<string>, judge: ConsistencyJudge): seq<JudgeResult> {
    if specs == [] || outputs == [] then []
    else
      (if specs[0].judge == CONSISTENCY then [judge(specs[0], outputs)] else [])
      + ConsistencyOf(specs[1..], outputs, judge)
  }

  function Inconsistencies(verdicts: seq<JudgeResult>): seq<string> {
    if verdicts == [] then []
    else
      (if verdicts[0].status != Pass then ["consistency: " + verdicts[0].reason] else [])
      + Inconsistencies(verdicts[1..])
  }

  function SummaryOfCase(attempts: seq<AttemptResult>): CaseSummary {
    CaseSummary(
      CountStatus(attempts, AttemptPassed),
      |attempts|,
      CountStatus(attempts, AttemptErrored),
      Mean(Map(attempts, (r: AttemptResult) => r.score)),
      Mean(Map(attempts, (r: AttemptResult) => r.latencyMs)),
      Total(Map(attempts, (r: AttemptResult) => r.costUsd)))
  }

  function ResultOfCase(c: Case, attempts: seq<AttemptResult>, judge: ConsistencyJudge): CaseResult {
    var consistency := ConsistencyOf(c.specs, Outputs(attempts), judge);
    CaseResult(c.id, SummaryOfCase(attempts), consistency, FailuresOf(attempts) + Inconsistencies(consistency))
  }

  // --- the run ----------------------------------------------------------------------------

  function ByAttempt(): AttemptResult -> (int, int) {
    (r: AttemptResult) => (r.attempt, 0)
  }

  /** Suite order, then attempt index; unknown cases share the last place. */
  function BySuite(cases: seq<Case>): AttemptResult -> (int, int) {
    (r: AttemptResult) => (Rank(cases, r.caseId), r.attempt)
  }

  function OfCase(results: seq<AttemptResult>, id: string): seq<AttemptResult> {
    if results == [] then []
    else (if results[0].caseId == id then [results[0]] else []) + OfCase(results[1..], id)
  }

  /** The case results in suite order; a case without any attempt is left out. */
  function CaseResults(cases: seq<Case>, attempts: seq<AttemptResult>, judge: ConsistencyJudge): seq<CaseResult> {
    if cases == [] then []
    else
      var own := OfCase(attempts, cases[0].id);
      (if own == [] then [] else [ResultOfCase(cases[0], own, judge)]) + CaseResults(cases[1..], attempts, judge)
  }

  /** The run's totals over its results, in their final order. */
  function WithTotals(ordered: seq<AttemptResult>, cases: seq<CaseResult>): Summary {
    Summary(
      |ordered|,
      CountStatus(ordered, AttemptErrored),
      CountInfra(ordered),
      TokensOf(ordered),
      Total(Map(ordered, (r: AttemptResult) => r.costUsd)),
      Sum(Map(ordered, (r: AttemptResult) => r.judgeCostUsd)),
      if ordered == [] then None else Some(ordered[0].startedAt),
      cases,
      ordered)
  }

  function SummaryOf(results: seq<AttemptResult>, cases: seq<Case>, judge: ConsistencyJudge): Summary {
    WithTotals(Sort(results, BySuite(cases)), CaseResults(cases, Sort(results, ByAttempt()), judge))
  }

  lemma {:induction false} OfCaseSplit(a: seq<AttemptResult>, b: seq<AttemptResult>, id: string)
    ensures OfCase(a + b, id) == OfCase(a, id) + OfCase(b, id)
  {
    if a == [] {
      assert a + b == b;
    } else {
      assert (a + b)[1..] == a[1..] + b && (a + b)[0] == a[0];
      OfCaseSplit(a[1..], b, id);
      var first := if a[0].caseId == id then [a[0]] else [];
      assert first + (OfCase(a[1..], id) + OfCase(b, id)) == (first + OfCase(a[1..], id)) + OfCase(b, id);
    }
  }

  lemma {:induction false} CaseResultsSplit(a: seq<Case>, b: seq<Case>, attempts: seq<AttemptResult>,
                                            judge: ConsistencyJudge)
    ensures CaseResults(a + b, attempts, judge) == CaseResults(a, attempts, judge) + CaseResults(b, attempts, judge)
  {
    if a == [] {
      assert a + b == b;
    } else {
      assert (a + b)[1..] == a[1..] + b;
      CaseResultsSplit(a[1..], b, attempts, judge);
      var own := OfCase(attempts, a[0].id);
      var first := if own == [] then [] else [ResultOfCase(a[0], own, judge)];
      assert first + (CaseResults(a[1..], attempts, judge) + CaseResults(b, attempts, judge))
          == (first + CaseResults(a[1..], attempts, judge)) + CaseResults(b, attempts, judge);
    }
  }

  lemma {:induction false} ConsistencySplit(a: seq<JudgeSpec>, b: seq<JudgeSpec>, outputs: seq<string>,
                                            judge: ConsistencyJudge)
    ensures ConsistencyOf(a + b, outputs, judge) == ConsistencyOf(a, outputs, judge) + ConsistencyOf(b, outputs, judge)
  {
    if a == [] {
      assert a + b == b;
    } else {
      assert (a + b)[1..] == a[1..] + b;
      ConsistencySplit(a[1..], b, outputs, judge);
    }
  }

  ghost predicate Grouped(byCase: map<string, seq<AttemptResult>>, attempts: seq<AttemptResult>) {
    && (forall id :: id in byCase ==> byCase[id] != [] && byCase[id] == OfCase(attempts, id))
    && (forall id :: id !in byCase ==> OfCase(attempts, id) == [])
  }

  lemma GroupedStep(byCase: map<string, seq<AttemptResult>>, attempts: seq<AttemptResult>, one: AttemptResult)
    requires Grouped(byCase, attempts)
    ensures Grouped(byCase[one.caseId := (if one.caseId in byCase then byCase[one.caseId] else []) + [one]],
            attempts + [one])
  {
    forall id: string
      ensures OfCase(attempts + [one], id) == OfCase(attempts, id) + if one.caseId == id then [one] else []
    {
      OfCaseSplit(attempts, [one], id);
      assert [one][1..] == [];
    }
  }

  /** The attempts grouped by case, in attempt order. */
  method GroupByCase(results: seq<AttemptResult>) returns (byCase: map<string, seq<AttemptResult>>)
    ensures Grouped(byCase, Sort(results, ByAttempt()))
  {
    var sorted := Sort(results, ByAttempt());
    byCase := map[];
    for i := 0 to |sorted|
      invariant Grouped(byCase, sorted[..i])
    {
      var attempt := sorted[i];
      GroupedStep(byCase, sorted[..i], attempt);
      assert sorted[..i + 1] == sorted[..i] + [attempt];
      byCase := byCase[attempt.caseId := (if attempt.caseId in byCase then byCase[attempt.caseId] else []) + [attempt]];
    }
    assert sorted[..|sorted|] == sorted;
  }

  lemma CaseResultsSnoc(cases: seq<Case>, c: Case, attempts: seq<AttemptResult>, judge: ConsistencyJudge)
    ensures CaseResults(cases + [c], attempts, judge)
         == CaseResults(cases, attempts, judge)
            + if OfCase(attempts, c.id) == [] then [] else [ResultOfCase(c, OfCase(attempts, c.id), judge)]
  {
    CaseResultsSplit(cases, [c], attempts, judge);
    assert [c][1..] == [];
  }

  method FinalizeRun(results: seq<AttemptResult>, cases: seq<Case>, judge: ConsistencyJudge) returns (summary: Summary)
    ensures summary == SummaryOf(results, cases, judge)
  {
    var byCase := GroupByCase(results);
    ghost var sorted := Sort(results, ByAttempt());
    var caseResults: seq<CaseResult> := [];
    for i := 0 to |cases|
      invariant caseResults == CaseResults(cases[..i], sorted, judge)
    {
      var c := cases[i];
      assert cases[..i + 1] == cases[..i] + [c];
      CaseResultsSnoc(cases[..i], c, sorted, judge);
      if c.id in byCase {
        var result := SummarizeCase(c, byCase[c.id], judge);
        caseResults := caseResults + [result];
      }
    }
    assert cases[..|cases|] == cases;
    summary := WithTotals(Sort(results, BySuite(cases)), caseResults);
  }

  method SummarizeCase(c: Case, attempts: seq<AttemptResult>, judge: ConsistencyJudge) returns (result: CaseResult)
    ensures result == ResultOfCase(c, attempts, judge)
  {
    var outputs := Outputs(attempts);
    var consistency: seq<JudgeResult> := [];
    if outputs != [] {
      for j := 0 to |c.specs|
        invariant consistency == ConsistencyOf(c.specs[..j], outputs, judge)
      {
        var spec := c.specs[j];
        assert c.specs[..j + 1] == c.specs[..j] + [spec];
        ConsistencySplit(c.specs[..j], [spec], outputs, judge);
        assert ConsistencyOf([spec][1..], outputs, judge) == [];
        if spec.judge == CONSISTENCY {
          consistency := consistency + [judge(spec, outputs)];
        }
      }
      assert c.specs[..|c.specs|] == c.specs;
    }
    var failures := Failures(attempts);
    result := CaseResult(c.id, SummaryOfCase(attempts), consistency, failures + Inconsistencies(consistency));
  }
}
