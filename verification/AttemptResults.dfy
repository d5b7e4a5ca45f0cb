/** The values that attempts, judges and adapters exchange: what the run loop records and what
    the store keeps. Money, scores and times are reals; a value the source may leave unset is
    an `Option`. */
module AttemptResults {
  datatype Option<+T> = None | Some(value: T)

  datatype ErrorKind = Timeout | Agent | Unreachable | Judge | Budget | Internal

  /** The run itself is broken, not the agent's behaviour: one such attempt fails the run. */
  const INFRA_ERRORS: set<ErrorKind> := {Unreachable, Budget, Internal}

  function KindName(kind: ErrorKind): string {
    match kind
    case Timeout => "timeout"
    case Agent => "agent"
    case Unreachable => "unreachable"
    case Judge => "judge"
    case Budget => "budget"
    case Internal => "internal"
  }

  datatype AttemptError = AttemptError(kind: ErrorKind, message: string)
  {
    /** What a summary says of it, and a run that it fails. */
    function Reason(): string {
      KindName(kind) + " error: " + message
    }
  }

  datatype Verdict = Pass | Fail | CannotJudge

  datatype JudgeResult = JudgeResult(judge: string, status: Verdict, score: real, reason: string)

  datatype TraceStep =
    | MessageStep(role: string, content: string)
    | ToolCallStep(tool: string)
    | ToolResultStep(resultOf: string)
    | ErrorStep(message: string)

  datatype Response = Response(
    output: string,
    steps: seq<TraceStep>,
    latencyMs: real,
    error: Option<string>,
    retryable: bool)

  datatype AttemptStatus = AttemptPassed | AttemptFailed | AttemptErrored

  /** A planned attempt: a case and a 0-based attempt index. */
  datatype AttemptKey = AttemptKey(caseId: string, attempt: int)

  datatype AttemptResult = AttemptResult(
    caseId: string,
    attempt: int,
    status: AttemptStatus,
    response: Option<Response>,
    judgments: seq<JudgeResult>,
    error: Option<AttemptError>,
    score: Option<real>,
    latencyMs: Option<real>,
    tokens: Option<int>,
    costUsd: Option<real>,
    judgeCostUsd: real,
    startedAt: int)
  {
    function Key(): AttemptKey {
      AttemptKey(caseId, attempt)
    }

    predicate IsInfraError() {
      error.Some? && error.value.kind in INFRA_ERRORS
    }
  }

  /** Every (case, attempt index) a run executes, case by case. */
  function PlanAttempts(caseIds: seq<string>, runsPerCase: nat): (plan: seq<AttemptKey>)
  {
    if caseIds == [] then []
    else AttemptsOf(caseIds[0], runsPerCase) + PlanAttempts(caseIds[1..], runsPerCase)
  }

  function AttemptsOf(caseId: string, runsPerCase: nat): (keys: seq<AttemptKey>)
    ensures |keys| == runsPerCase
    ensures forall n :: 0 <= n < runsPerCase ==> keys[n] == AttemptKey(caseId, n)
  {
    seq(runsPerCase, n => AttemptKey(caseId, n))
  }

  /** The attempt each result is of. */
  function Keys(results: seq<AttemptResult>): (keys: seq<AttemptKey>)
    ensures |keys| == |results|
    ensures forall i :: 0 <= i < |results| ==> keys[i] == results[i].Key()
  {
    seq(|results|, i requires 0 <= i < |results| => results[i].Key())
  }

  predicate Distinct<T(==)>(s: seq<T>) {
    forall i, j :: 0 <= i < j < |s| ==> s[i] != s[j]
  }

  function Elements<T>(s: seq<T>): set<T> {
    set x | x in s
  }

  /** The plan holds exactly the pairs of a listed case with an index below the run count. */
  lemma {:induction false} PlanMembers(caseIds: seq<string>, runsPerCase: nat, k: AttemptKey)
    ensures k in PlanAttempts(caseIds, runsPerCase) <==> k.caseId in caseIds && 0 <= k.attempt < runsPerCase
  {
    if caseIds != [] {
      PlanMembers(caseIds[1..], runsPerCase, k);
      var first := AttemptsOf(caseIds[0], runsPerCase);
      if k.caseId == caseIds[0] && 0 <= k.attempt < runsPerCase {
        assert first[k.attempt] == k;
      }
      assert k in PlanAttempts(caseIds, runsPerCase) <==> k in first || k in PlanAttempts(caseIds[1..], runsPerCase);
      assert k.caseId in caseIds <==> k.caseId == caseIds[0] || k.caseId in caseIds[1..];
    }
  }

  /** With distinct case ids no attempt is planned twice, and the plan has cases x runs entries. */
  lemma {:induction false} PlanIsDistinct(caseIds: seq<string>, runsPerCase: nat)
    requires Distinct(caseIds)
    ensures Distinct(PlanAttempts(caseIds, runsPerCase))
    ensures |PlanAttempts(caseIds, runsPerCase)| == |caseIds| * runsPerCase
  {
    if caseIds != [] {
      var first := AttemptsOf(caseIds[0], runsPerCase);
      var rest := PlanAttempts(caseIds[1..], runsPerCase);
      PlanIsDistinct(caseIds[1..], runsPerCase);
      forall k | k in rest
        ensures k !in first
      {
        PlanMembers(caseIds[1..], runsPerCase, k);
      }
      var plan := first + rest;
      forall i, j | 0 <= i < j < |plan|
        ensures plan[i] != plan[j]
      {
        if i < |first| <= j {
          assert plan[j] in rest && plan[i] in first;
        }
      }
      assert (|caseIds| - 1) * runsPerCase + runsPerCase == |caseIds| * runsPerCase;
    }
  }

  lemma {:induction false} DistinctCardinality<T>(s: seq<T>)
    requires Distinct(s)
    ensures |Elements(s)| == |s|
  {
    if s != [] {
      DistinctCardinality(s[1..]);
      assert Elements(s) == {s[0]} + Elements(s[1..]);
      assert s[0] !in s[1..];
    }
  }

  lemma SubsetCardinality<T>(small: set<T>, big: set<T>)
    requires small <= big
    ensures |small| <= |big|
    ensures |small| == |big| ==> small == big
  {
    assert big == small + (big - small);
    assert |big| == |small| + |big - small|;
  }

  lemma {:induction false} CountDistinct<T>(s: seq<T>, x: T)
    requires Distinct(s)
    ensures multiset(s)[x] == if x in s then 1 else 0
  {
    if s != [] {
      assert s == [s[0]] + s[1..];
      CountDistinct(s[1..], x);
    }
  }

  /** Distinct sequences with the same members are permutations of each other. */
  lemma SameMembersPermute<T(!new)>(a: seq<T>, b: seq<T>)
    requires Distinct(a) && Distinct(b) && forall x :: x in a <==> x in b
    ensures multiset(a) == multiset(b)
  {
    forall x: T
      ensures multiset(a)[x] == multiset(b)[x]
    {
      CountDistinct(a, x);
      CountDistinct(b, x);
    }
  }
}
