/** Why the unordered query may feed `finalize_run`, and exactly when: what the summary of a
    run depends on, and what `check_results` guarantees of it. */
module SummaryOrder {
  import opened AttemptResults
  import opened Suite
  import opened Sorting
  import opened RunSummary
  import RunStore

  // --- the order of arrival -----------------------------------------------------------------

  lemma {:induction false} OfCaseMembers(s: seq<AttemptResult>, id: string, r: AttemptResult)
    ensures multiset(OfCase(s, id))[r] == if r.caseId == id then multiset(s)[r] else 0
  {
    if s != [] {
      assert s == [s[0]] + s[1..];
      OfCaseMembers(s[1..], id, r);
    }
  }

  lemma {:induction false} OfCaseIn(s: seq<AttemptResult>, id: string)
    ensures forall r :: r in OfCase(s, id) ==> r in s && r.caseId == id
  {
    if s != [] {
      OfCaseIn(s[1..], id);
    }
  }

  lemma {:induction false} OfCaseOrdered(s: seq<AttemptResult>, id: string)
    requires Ordered(s, ByAttempt())
    ensures Ordered(OfCase(s, id), ByAttempt())
  {
    if s != [] {
      OfCaseOrdered(s[1..], id);
      OfCaseIn(s[1..], id);
      if s[0].caseId == id {
        assert forall r :: r in s[1..] ==> LessEq(ByAttempt()(s[0]), ByAttempt()(r));
        ConsOrders(s[0], OfCase(s[1..], id), ByAttempt());
      }
    }
  }

  lemma {:induction false} OfCaseDistinct(s: seq<AttemptResult>, id: string, cases: seq<Case>)
    requires DistinctKeys(s, BySuite(cases))
    ensures DistinctKeys(OfCase(s, id), ByAttempt())
  {
    if s != [] {
      var rest := OfCase(s[1..], id);
      OfCaseDistinct(s[1..], id, cases);
      OfCaseIn(s[1..], id);
      forall j | 0 <= j < |rest| && s[0].caseId == id
        ensures ByAttempt()(s[0]) != ByAttempt()(rest[j])
      {
        assert rest[j] in s[1..];
        var k :| 0 <= k < |s[1..]| && s[1..][k] == rest[j];
        assert BySuite(cases)(s[0]) != BySuite(cases)(s[k + 1]);
      }
    }
  }

  /** A case's attempts come out the same whatever order the results arrived in. */
  lemma SameAttemptsOfCase(a: seq<AttemptResult>, b: seq<AttemptResult>, cases: seq<Case>, id: string)
    requires multiset(a) == multiset(b) && DistinctKeys(a, BySuite(cases))
    ensures OfCase(Sort(a, ByAttempt()), id) == OfCase(Sort(b, ByAttempt()), id)
  {
    var sa, sb := Sort(a, ByAttempt()), Sort(b, ByAttempt());
    SortPermutes(a, ByAttempt());
    SortPermutes(b, ByAttempt());
    SortOrders(a, ByAttempt());
    SortOrders(b, ByAttempt());
    forall r: AttemptResult
      ensures multiset(OfCase(sa, id))[r] == multiset(OfCase(sb, id))[r]
    {
      OfCaseMembers(sa, id, r);
      OfCaseMembers(sb, id, r);
    }
    OfCaseOrdered(sa, id);
    OfCaseOrdered(sb, id);
    DistinctKeysPermute(a, sa, BySuite(cases));
    OfCaseDistinct(sa, id, cases);
    OrderedIsUnique(OfCase(sa, id), OfCase(sb, id), ByAttempt());
  }

  lemma {:induction false} SameCaseResults(a: seq<AttemptResult>, b: seq<AttemptResult>, all: seq<Case>,
                                           cases: seq<Case>, judge: ConsistencyJudge)
    requires multiset(a) == multiset(b) && DistinctKeys(a, BySuite(all))
    ensures CaseResults(cases, Sort(a, ByAttempt()), judge) == CaseResults(cases, Sort(b, ByAttempt()), judge)
  {
    if cases != [] {
      SameAttemptsOfCase(a, b, all, cases[0].id);
      SameCaseResults(a, b, all, cases[1..], judge);
    }
  }

  lemma ArrivalDoesNotMatter(a: seq<AttemptResult>, b: seq<AttemptResult>, cases: seq<Case>, judge: ConsistencyJudge)
    requires multiset(a) == multiset(b) && DistinctKeys(a, BySuite(cases))
    ensures SummaryOf(a, cases, judge) == SummaryOf(b, cases, judge)
  {
    SortIgnoresArrival(a, b, BySuite(cases));
    SameCaseResults(a, b, cases, cases, judge);
  }

  /** Two results of cases the suite doesn't have, with the same attempt index. */
  predicate Tie(a: AttemptResult, b: AttemptResult, cases: seq<Case>) {
    a.caseId !in CaseIds(cases) && b.caseId !in CaseIds(cases) && a.attempt == b.attempt
  }

  ghost predicate StrangersTie(results: seq<AttemptResult>, cases: seq<Case>) {
    exists i, j :: 0 <= i < j < |results| && Tie(results[i], results[j], cases)
  }

  lemma TiesAreStrangers(results: seq<AttemptResult>, cases: seq<Case>)
    requires Distinct(Keys(results))
    ensures DistinctKeys(results, BySuite(cases)) <==> !StrangersTie(results, cases)
  {
    forall i, j | 0 <= i < j < |results|
      ensures BySuite(cases)(results[i]) == BySuite(cases)(results[j])
         <==> Tie(results[i], results[j], cases)
    {
      assert Keys(results)[i] != Keys(results)[j];
    }
  }

  /** For results of distinct attempts, the summary is the same for every order of arrival
      exactly when no two results of unknown cases share an attempt index. (They share the
      last place in the sort, so there the order of arrival shows.) */
  lemma ArrivalMattersExactly(results: seq<AttemptResult>, cases: seq<Case>, judge: ConsistencyJudge)
    requires Distinct(Keys(results))
    ensures (forall other :: multiset(other) == multiset(results) ==>
            SummaryOf(other, cases, judge) == SummaryOf(results, cases, judge))
       <==> !StrangersTie(results, cases)
  {
    TiesAreStrangers(results, cases);
    if DistinctKeys(results, BySuite(cases)) {
      forall other | multiset(other) == multiset(results)
        ensures SummaryOf(other, cases, judge) == SummaryOf(results, cases, judge)
      {
        ArrivalDoesNotMatter(results, other, cases, judge);
      }
    } else {
      var i, j :| 0 <= i < j < |results| && BySuite(cases)(results[i]) == BySuite(cases)(results[j]);
      forall p, q | 0 <= p < q < |results|
        ensures results[p] != results[q]
      {
        assert Keys(results)[p] != Keys(results)[q];
      }
      ReversalShows(results, BySuite(cases), i, j);
      assert SummaryOf(Backwards(results), cases, judge).results != SummaryOf(results, cases, judge).results;
    }
  }

  // --- check_results ------------------------------------------------------------------------

  datatype Verdict = Accepted | NotPlanned(index: nat) | Repeated(index: nat)

  /** Accepts exactly the results that are distinct attempts of the plan; otherwise it names
      the first result that is not planned or repeats an earlier one. */
  method CheckResults(cases: seq<Case>, runsPerCase: nat, results: seq<AttemptResult>) returns (verdict: Verdict)
    ensures verdict.Accepted? <==>
            Distinct(Keys(results)) && forall k :: k in Keys(results) ==>
                k.caseId in CaseIds(cases) && 0 <= k.attempt < runsPerCase
    ensures verdict.NotPlanned? ==>
            && verdict.index < |results|
            && results[verdict.index].Key() !in PlanAttempts(CaseIds(cases), runsPerCase)
            && GoodPrefix(cases, runsPerCase, results, verdict.index)
    ensures verdict.Repeated? ==>
            && verdict.index < |results|
            && results[verdict.index].Key() in PlanAttempts(CaseIds(cases), runsPerCase)
            && results[verdict.index].Key() in Keys(results[..verdict.index])
            && GoodPrefix(cases, runsPerCase, results, verdict.index)
  {
    var planned := PlanAttempts(CaseIds(cases), runsPerCase);
    var seen: set<AttemptKey> := {};
    forall k: AttemptKey
      ensures k in planned <==> k.caseId in CaseIds(cases) && 0 <= k.attempt < runsPerCase
    {
      PlanMembers(CaseIds(cases), runsPerCase, k);
    }
    for i := 0 to |results|
      invariant seen == Elements(Keys(results[..i]))
      invariant GoodPrefix(cases, runsPerCase, results, i)
    {
      var key := results[i].Key();
      assert Keys(results[..i + 1]) == Keys(results[..i]) + [key];
      assert Keys(results)[i] == key;
      if key !in planned {
        return NotPlanned(i);
      }
      if key in seen {
        var p :| 0 <= p < i && Keys(results[..i])[p] == key;
        assert Keys(results)[p] == Keys(results)[i];
        return Repeated(i);
      }
      seen := seen + {key};
    }
    assert results[..|results|] == results;
    verdict := Accepted;
  }

  ghost predicate GoodPrefix(cases: seq<Case>, runsPerCase: nat, results: seq<AttemptResult>, n: nat) {
    n <= |results| && Distinct(Keys(results[..n])) && forall k :: k in Keys(results[..n]) ==>
        k in PlanAttempts(CaseIds(cases), runsPerCase)
  }

  // --- the totals add up --------------------------------------------------------------------

  function Count(s: seq<AttemptResult>, which: Option<AttemptStatus>): nat {
    if which.Some? then CountStatus(s, which.value) else |s|
  }

  function CountOfCases(cases: seq<Case>, s: seq<AttemptResult>, which: Option<AttemptStatus>): nat {
    if cases == [] then 0 else Count(OfCase(s, cases[0].id), which) + CountOfCases(cases[1..], s, which)
  }

  lemma {:induction false} NoneOfCases(cases: seq<Case>, which: Option<AttemptStatus>)
    ensures CountOfCases(cases, [], which) == 0
  {
    if cases != [] {
      NoneOfCases(cases[1..], which);
    }
  }

  lemma CountCons(r: AttemptResult, s: seq<AttemptResult>, which: Option<AttemptStatus>)
    ensures Count([r] + s, which) == Count([r], which) + Count(s, which)
  {
    var t := [r] + s;
    assert t[0] == r && t[1..] == s && [r][1..] == [];
    if which.Some? {
      var one := if r.status == which.value then 1 else 0;
      assert CountStatus([r], which.value) == one + CountStatus([r][1..], which.value);
      assert CountStatus(t, which.value) == one + CountStatus(s, which.value);
    }
  }

  /** One more result counts once, in its own case. */
  lemma {:induction false} OneMore(cases: seq<Case>, r: AttemptResult, s: seq<AttemptResult>,
                                   which: Option<AttemptStatus>)
    requires Valid(cases)
    ensures CountOfCases(cases, [r] + s, which)
         == CountOfCases(cases, s, which) + if r.caseId in CaseIds(cases) then Count([r], which) else 0
  {
    if cases != [] {
      var own := OfCase(s, cases[0].id);
      assert CaseIds(cases) == [cases[0].id] + CaseIds(cases[1..]);
      OneMore(cases[1..], r, s, which);
      assert ([r] + s)[1..] == s;
      assert cases[0].id !in CaseIds(cases[1..]);
      if r.caseId == cases[0].id {
        assert OfCase([r] + s, cases[0].id) == [r] + own;
        CountCons(r, own, which);
      } else {
        assert OfCase([r] + s, cases[0].id) == own;
      }
    }
  }

  lemma {:induction false} CasesCountAll(cases: seq<Case>, s: seq<AttemptResult>, which: Option<AttemptStatus>)
    requires Valid(cases) && forall r :: r in s ==> r.caseId in CaseIds(cases)
    ensures CountOfCases(cases, s, which) == Count(s, which)
  {
    if s == [] {
      NoneOfCases(cases, which);
    } else {
      assert s == [s[0]] + s[1..];
      CasesCountAll(cases, s[1..], which);
      OneMore(cases, s[0], s[1..], which);
      CountCons(s[0], s[1..], which);
    }
  }

  function SumAttempts(cases: seq<CaseResult>): nat {
    if cases == [] then 0 else cases[0].summary.attempts + SumAttempts(cases[1..])
  }

  function SumPasses(cases: seq<CaseResult>): nat {
    if cases == [] then 0 else cases[0].summary.passes + SumPasses(cases[1..])
  }

  function SumErrors(cases: seq<CaseResult>): nat {
    if cases == [] then 0 else cases[0].summary.errors + SumErrors(cases[1..])
  }

  lemma {:induction false} CaseResultsCount(cases: seq<Case>, s: seq<AttemptResult>, judge: ConsistencyJudge)
    ensures SumAttempts(CaseResults(cases, s, judge)) == CountOfCases(cases, s, None)
    ensures SumPasses(CaseResults(cases, s, judge)) == CountOfCases(cases, s, Some(AttemptPassed))
    ensures SumErrors(CaseResults(cases, s, judge)) == CountOfCases(cases, s, Some(AttemptErrored))
  {
    if cases != [] {
      CaseResultsCount(cases[1..], s, judge);
      var rest := CaseResults(cases[1..], s, judge);
      if OfCase(s, cases[0].id) != [] {
        assert CaseResults(cases, s, judge)[1..] == rest;
      } else {
        assert [] + rest == rest;
      }
    }
  }

  lemma {:induction false} InsertCounts(x: AttemptResult, s: seq<AttemptResult>, key: AttemptResult -> (int, int),
                                        status: AttemptStatus)
    ensures CountStatus(Insert(x, s, key), status) == CountStatus([x], status) + CountStatus(s, status)
  {
    if s == [] || LessEq(key(x), key(s[0])) {
      assert Insert(x, s, key)[1..] == s;
    } else {
      assert Insert(x, s, key)[1..] == Insert(x, s[1..], key);
      InsertCounts(x, s[1..], key, status);
    }
  }

  lemma {:induction false} SortCounts(s: seq<AttemptResult>, key: AttemptResult -> (int, int), status: AttemptStatus)
    ensures CountStatus(Sort(s, key), status) == CountStatus(s, status)
  {
    if s != [] {
      SortCounts(s[1..], key, status);
      InsertCounts(s[0], Sort(s[1..], key), key, status);
    }
  }

  /** When every result is of a known case, as `check_results` demands, the per-case attempts,
      passes and errors add up to the run's. */
  lemma CasesAddUp(results: seq<AttemptResult>, cases: seq<Case>, judge: ConsistencyJudge)
    requires Valid(cases) && forall r :: r in results ==> r.caseId in CaseIds(cases)
    ensures var s := SummaryOf(results, cases, judge);
            && SumAttempts(s.cases) == s.attempts == |results|
            && SumPasses(s.cases) == CountStatus(results, AttemptPassed)
            && SumErrors(s.cases) == s.errors == CountStatus(results, AttemptErrored)
  {
    var sorted := Sort(results, ByAttempt());
    SortPermutes(results, ByAttempt());
    SameMembers(results, sorted);
    CaseResultsCount(cases, sorted, judge);
    SortPermutes(results, BySuite(cases));
    CasesCountAll(cases, sorted, None);
    CasesCountAll(cases, sorted, Some(AttemptPassed));
    CasesCountAll(cases, sorted, Some(AttemptErrored));
    SortCounts(results, ByAttempt(), AttemptPassed);
    SortCounts(results, ByAttempt(), AttemptErrored);
    SortCounts(results, BySuite(cases), AttemptErrored);
  }

  /** The summary lists the very results it was given, by case in suite order and then by
      attempt. */
  lemma ResultsInSuiteOrder(results: seq<AttemptResult>, cases: seq<Case>, judge: ConsistencyJudge)
    ensures var s := SummaryOf(results, cases, judge);
            multiset(s.results) == multiset(results) && Ordered(s.results, BySuite(cases))
  {
    SortPermutes(results, BySuite(cases));
    SortOrders(results, BySuite(cases));
  }

  // --- the store ----------------------------------------------------------------------------

  /** Any two readings of a run's saved rows, in whatever order the query returns them, give
      the same summary, and its cases add up: repeated `finalize` jobs agree. */
  lemma ReadingsAgree(rows: RunStore.Rows, cases: seq<Case>, runsPerCase: nat, a: seq<AttemptResult>,
                      b: seq<AttemptResult>, judge: ConsistencyJudge)
    requires Valid(cases) && forall k :: k in rows ==> k in PlanAttempts(CaseIds(cases), runsPerCase)
    requires forall k :: k in rows ==> rows[k].Key() == k
    requires RunStore.IsReading(a, rows) && RunStore.IsReading(b, rows)
    ensures SummaryOf(a, cases, judge) == SummaryOf(b, cases, judge)
    ensures SummaryOf(a, cases, judge).attempts == |rows| == SumAttempts(SummaryOf(a, cases, judge).cases)
  {
    ReadingIsKnown(rows, cases, runsPerCase, a);
    ReadingDistinct(rows, a);
    ReadingDistinct(rows, b);
    forall r
      ensures r in a <==> r in b
    {
      ReadingMembers(rows, a, r);
      ReadingMembers(rows, b, r);
    }
    SameMembersPermute(a, b);
    TiesAreStrangers(a, cases);
    assert forall i :: 0 <= i < |a| ==> a[i] in a;
    ArrivalDoesNotMatter(a, b, cases, judge);
    CasesAddUp(a, cases, judge);
    ReadingSize(rows, a);
  }

  lemma ReadingDistinct(rows: RunStore.Rows, a: seq<AttemptResult>)
    requires RunStore.IsReading(a, rows)
    ensures Distinct(a)
  {
    forall i, j | 0 <= i < j < |a|
      ensures a[i] != a[j]
    {
      assert Keys(a)[i] != Keys(a)[j];
    }
  }

  lemma ReadingMembers(rows: RunStore.Rows, a: seq<AttemptResult>, r: AttemptResult)
    requires RunStore.IsReading(a, rows)
    ensures r in a <==> r.Key() in rows && rows[r.Key()] == r
  {
  }

  lemma ReadingIsKnown(rows: RunStore.Rows, cases: seq<Case>, runsPerCase: nat, a: seq<AttemptResult>)
    requires forall k :: k in rows ==> k in PlanAttempts(CaseIds(cases), runsPerCase)
    requires RunStore.IsReading(a, rows)
    ensures forall r :: r in a ==> r.caseId in CaseIds(cases)
  {
    forall r | r in a
      ensures r.caseId in CaseIds(cases)
    {
      PlanMembers(CaseIds(cases), runsPerCase, r.Key());
    }
  }

  lemma ReadingSize(rows: RunStore.Rows, a: seq<AttemptResult>)
    requires RunStore.IsReading(a, rows) && forall k :: k in rows ==> rows[k].Key() == k
    ensures |a| == |rows|
  {
    DistinctCardinality(Keys(a));
    forall k | k in rows
      ensures k in Elements(Keys(a))
    {
      var i :| 0 <= i < |a| && a[i] == rows[k];
      assert Keys(a)[i] == k;
    }
    assert Elements(Keys(a)) == rows.Keys;
  }
}
