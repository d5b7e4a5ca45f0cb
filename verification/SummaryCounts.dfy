/** What a summary counts, said of the results it was given: how many attempts passed, erred or
    met an infrastructure error, in each case and in all; which cases it lists; what the tokens
    add up to; and when the run started. */
module SummaryCounts {
  import opened AttemptResults
  import opened RunSummary
  import opened SummaryOrder
  import opened Sorting
  import opened Suite

  type Test = AttemptResult -> bool

  /** The places of the results that pass a test. */
  function Places(results: seq<AttemptResult>, test: Test): set<int> {
    set i | 0 <= i < |results| && test(results[i])
  }

  function Any(): Test {
    (r: AttemptResult) => true
  }

  function HasStatus(status: AttemptStatus): Test {
    (r: AttemptResult) => r.status == status
  }

  function IsInfra(): Test {
    (r: AttemptResult) => r.error.Some? && r.error.value.kind in {Unreachable, Budget, Internal}
  }

  /** Of a case, and passing a test besides. */
  function InCase(id: string, test: Test): Test {
    (r: AttemptResult) => r.caseId == id && test(r)
  }

  /** How many do, which is the number of those places. */
  function Tally(s: seq<AttemptResult>, test: Test): nat {
    if s == [] then 0 else (if test(s[0]) then 1 else 0) + Tally(s[1..], test)
  }

  function PlacesFrom(s: seq<AttemptResult>, test: Test, k: nat): set<int> {
    set i | k <= i < |s| && test(s[i])
  }

  lemma {:induction false} TallyFrom(s: seq<AttemptResult>, test: Test, k: nat)
    requires k <= |s|
    ensures |PlacesFrom(s, test, k)| == Tally(s[k..], test)
    decreases |s| - k
  {
    if k < |s| {
      TallyFrom(s, test, k + 1);
      assert s[k..][1..] == s[k + 1..];
      var here := if test(s[k]) then {k as int} else {};
      assert PlacesFrom(s, test, k) == here + PlacesFrom(s, test, k + 1);
    }
  }

  lemma TallyIs(s: seq<AttemptResult>, test: Test)
    ensures |Places(s, test)| == Tally(s, test)
  {
    TallyFrom(s, test, 0);
    assert Places(s, test) == PlacesFrom(s, test, 0);
    assert s[0..] == s;
  }

  lemma {:induction false} TallyInsert(x: AttemptResult, s: seq<AttemptResult>, key: AttemptResult -> (int, int),
                                       test: Test)
    ensures Tally(Insert(x, s, key), test) == Tally(s, test) + if test(x) then 1 else 0
  {
    if s == [] || LessEq(key(x), key(s[0])) {
      assert Insert(x, s, key)[1..] == s;
    } else {
      assert Insert(x, s, key)[1..] == Insert(x, s[1..], key);
      TallyInsert(x, s[1..], key, test);
    }
  }

  lemma {:induction false} TallySort(s: seq<AttemptResult>, key: AttemptResult -> (int, int), test: Test)
    ensures Tally(Sort(s, key), test) == Tally(s, test)
  {
    if s != [] {
      TallySort(s[1..], key, test);
      TallyInsert(s[0], Sort(s[1..], key), key, test);
    }
  }

  lemma {:induction false} TallyOfCase(s: seq<AttemptResult>, id: string, test: Test)
    ensures Tally(OfCase(s, id), test) == Tally(s, InCase(id, test))
  {
    if s != [] {
      TallyOfCase(s[1..], id, test);
      var rest := OfCase(s[1..], id);
      if s[0].caseId == id {
        assert ([s[0]] + rest)[1..] == rest;
      } else {
        assert [] + rest == rest;
      }
    }
  }

  lemma {:induction false} StatusIsTally(s: seq<AttemptResult>, status: AttemptStatus)
    ensures CountStatus(s, status) == Tally(s, HasStatus(status))
  {
    if s != [] {
      StatusIsTally(s[1..], status);
    }
  }

  lemma {:induction false} InfraIsTally(s: seq<AttemptResult>)
    ensures CountInfra(s) == Tally(s, IsInfra())
  {
    if s != [] {
      InfraIsTally(s[1..]);
    }
  }

  lemma {:induction false} SizeIsTally(s: seq<AttemptResult>)
    ensures |s| == Tally(s, Any())
  {
    if s != [] {
      SizeIsTally(s[1..]);
    }
  }

  // --- the cases --------------------------------------------------------------------------------

  /** A case's numbers, and its name, are those of its own attempts. */
  ghost predicate CountsCase(result: CaseResult, results: seq<AttemptResult>) {
    && result.summary.attempts == |Places(results, InCase(result.caseId, Any()))|
    && result.summary.passes == |Places(results, InCase(result.caseId, HasStatus(AttemptPassed)))|
    && result.summary.errors == |Places(results, InCase(result.caseId, HasStatus(AttemptErrored)))|
    && result.summary.attempts > 0
  }

  lemma CaseCounts(c: Case, results: seq<AttemptResult>, key: AttemptResult -> (int, int), judge: ConsistencyJudge)
    requires OfCase(Sort(results, key), c.id) != []
    ensures CountsCase(ResultOfCase(c, OfCase(Sort(results, key), c.id), judge), results)
  {
    SizeIsTally(OfCase(Sort(results, key), c.id));
    StatusIsTally(OfCase(Sort(results, key), c.id), AttemptPassed);
    StatusIsTally(OfCase(Sort(results, key), c.id), AttemptErrored);
    CaseTally(results, key, c.id, Any());
    CaseTally(results, key, c.id, HasStatus(AttemptPassed));
    CaseTally(results, key, c.id, HasStatus(AttemptErrored));
  }

  lemma CaseTally(results: seq<AttemptResult>, key: AttemptResult -> (int, int), id: string, test: Test)
    ensures Tally(OfCase(Sort(results, key), id), test) == |Places(results, InCase(id, test))|
  {
    TallyOfCase(Sort(results, key), id, test);
    TallySort(results, key, InCase(id, test));
    TallyIs(results, InCase(id, test));
  }

  lemma {:induction false} CasesCount(cases: seq<Case>, results: seq<AttemptResult>,
                                      key: AttemptResult -> (int, int), judge: ConsistencyJudge)
    ensures forall cr :: cr in CaseResults(cases, Sort(results, key), judge) ==> CountsCase(cr, results)
  {
    if cases != [] {
      CasesCount(cases[1..], results, key, judge);
      if OfCase(Sort(results, key), cases[0].id) != [] {
        CaseCounts(cases[0], results, key, judge);
      }
    }
  }

  /** The ids of the cases that have an attempt, in suite order. */
  function Attempted(cases: seq<Case>, results: seq<AttemptResult>): seq<string> {
    if cases == [] then []
    else
      (if HasAttempt(results, cases[0].id) then [cases[0].id] else [])
      + Attempted(cases[1..], results)
  }

  function Listed(cases: seq<CaseResult>): (ids: seq<string>)
    ensures |ids| == |cases| && forall i :: 0 <= i < |cases| ==> ids[i] == cases[i].caseId
  {
    seq(|cases|, i requires 0 <= i < |cases| => cases[i].caseId)
  }

  lemma {:induction false} OfCaseEmpty(s: seq<AttemptResult>, id: string)
    ensures OfCase(s, id) != [] <==> exists r :: r in s && r.caseId == id
  {
    if s != [] {
      OfCaseEmpty(s[1..], id);
      assert forall r :: r in s <==> r == s[0] || r in s[1..];
    }
  }

  predicate HasAttempt(results: seq<AttemptResult>, id: string) {
    exists i :: 0 <= i < |results| && results[i].caseId == id
  }

  lemma OwnIsAttempted(results: seq<AttemptResult>, key: AttemptResult -> (int, int), id: string)
    ensures OfCase(Sort(results, key), id) != [] <==> HasAttempt(results, id)
  {
    OfCaseEmpty(Sort(results, key), id);
    SortPermutes(results, key);
    SameMembers(results, Sort(results, key));
    if r :| r in results && r.caseId == id {
      assert exists i :: 0 <= i < |results| && results[i] == r;
    }
  }

  lemma ListedCons(first: CaseResult, rest: seq<CaseResult>)
    ensures Listed([first] + rest) == [first.caseId] + Listed(rest)
  {
  }

  lemma {:induction false} CasesListed(cases: seq<Case>, results: seq<AttemptResult>,
                                       key: AttemptResult -> (int, int), judge: ConsistencyJudge)
    ensures Listed(CaseResults(cases, Sort(results, key), judge)) == Attempted(cases, results)
  {
    if cases != [] {
      var sorted := Sort(results, key);
      CasesListed(cases[1..], results, key, judge);
      OwnIsAttempted(results, key, cases[0].id);
      var own, rest := OfCase(sorted, cases[0].id), CaseResults(cases[1..], sorted, judge);
      if own != [] {
        ListedCons(ResultOfCase(cases[0], own, judge), rest);
      } else {
        assert [] + rest == rest;
      }
    }
  }

  lemma {:induction false} AttemptedMembers(cases: seq<Case>, results: seq<AttemptResult>, id: string)
    ensures id in Attempted(cases, results) <==> id in CaseIds(cases) && HasAttempt(results, id)
  {
    if cases != [] {
      assert CaseIds(cases) == [cases[0].id] + CaseIds(cases[1..]);
      AttemptedMembers(cases[1..], results, id);
    }
  }

  /** In a suite without repeated ids, `Attempted` is in suite order. */
  lemma {:induction false} AttemptedInOrder(cases: seq<Case>, results: seq<AttemptResult>, i: nat, j: nat)
    requires Valid(cases) && i < j < |Attempted(cases, results)|
    ensures Rank(cases, Attempted(cases, results)[i]) < Rank(cases, Attempted(cases, results)[j])
  {
    var ids, rest := Attempted(cases, results), Attempted(cases[1..], results);
    TailValid(cases);
    if HasAttempt(results, cases[0].id) {
      assert ids == [cases[0].id] + rest;
      assert ids[j] == rest[j - 1];
      RankOfRest(cases, results, j - 1);
      if i == 0 {
        assert Rank(cases, ids[0]) == 0;
      } else {
        assert ids[i] == rest[i - 1];
        RankOfRest(cases, results, i - 1);
        AttemptedInOrder(cases[1..], results, i - 1, j - 1);
      }
    } else {
      assert ids == rest;
      RankOfRest(cases, results, i);
      RankOfRest(cases, results, j);
      AttemptedInOrder(cases[1..], results, i, j);
    }
  }

  lemma RankOfRest(cases: seq<Case>, results: seq<AttemptResult>, i: nat)
    requires cases != [] && Valid(cases) && i < |Attempted(cases[1..], results)|
    ensures var id := Attempted(cases[1..], results)[i];
            Rank(cases, id) == 1 + Rank(cases[1..], id)
  {
    var id := Attempted(cases[1..], results)[i];
    AttemptedMembers(cases[1..], results, id);
    assert CaseIds(cases) == [cases[0].id] + CaseIds(cases[1..]);
    var k :| 0 <= k < |CaseIds(cases[1..])| && CaseIds(cases[1..])[k] == id;
    assert CaseIds(cases)[k + 1] == id && CaseIds(cases)[0] == cases[0].id;
  }

  lemma TailValid(cases: seq<Case>)
    requires cases != [] && Valid(cases)
    ensures Valid(cases[1..])
  {
    assert CaseIds(cases)[1..] == CaseIds(cases[1..]);
  }

  predicate IsListed(cases: seq<CaseResult>, id: string) {
    exists i :: 0 <= i < |cases| && cases[i].caseId == id
  }

  /** The summary's cases are those of the suite that have an attempt, in suite order, and each
      counts exactly its own attempts, those that passed, and those that erred. */
  lemma CasesAreCounted(results: seq<AttemptResult>, cases: seq<Case>, judge: ConsistencyJudge)
    requires Valid(cases)
    ensures var listed := SummaryOf(results, cases, judge).cases;
            && (forall i :: 0 <= i < |listed| ==> CountsCase(listed[i], results))
            && (forall i, j :: 0 <= i < j < |listed| ==> Rank(cases, listed[i].caseId) < Rank(cases, listed[j].caseId))
            && (forall id :: IsListed(listed, id) <==> id in CaseIds(cases) && HasAttempt(results, id))
  {
    var listed := SummaryOf(results, cases, judge).cases;
    CasesCount(cases, results, ByAttempt(), judge);
    CasesListed(cases, results, ByAttempt(), judge);
    var ids := Listed(listed);
    forall i, j | 0 <= i < j < |listed|
      ensures Rank(cases, listed[i].caseId) < Rank(cases, listed[j].caseId)
    {
      AttemptedInOrder(cases, results, i, j);
    }
    forall id
      ensures IsListed(listed, id) <==> id in CaseIds(cases) && HasAttempt(results, id)
    {
      AttemptedMembers(cases, results, id);
      if i :| 0 <= i < |listed| && listed[i].caseId == id {
        assert ids[i] == id;
      }
    }
  }

  // --- the run ----------------------------------------------------------------------------------

  function KnownTokens(s: seq<AttemptResult>): int {
    if s == [] then 0 else (if s[0].tokens.Some? then s[0].tokens.value else 0) + KnownTokens(s[1..])
  }

  lemma {:induction false} InsertTokens(x: AttemptResult, s: seq<AttemptResult>, key: AttemptResult -> (int, int))
    ensures KnownTokens(Insert(x, s, key)) == KnownTokens(s) + if x.tokens.Some? then x.tokens.value else 0
  {
    if s == [] || LessEq(key(x), key(s[0])) {
      assert Insert(x, s, key)[1..] == s;
    } else {
      assert Insert(x, s, key)[1..] == Insert(x, s[1..], key);
      InsertTokens(x, s[1..], key);
    }
  }

  lemma {:induction false} SortTokens(s: seq<AttemptResult>, key: AttemptResult -> (int, int))
    ensures KnownTokens(Sort(s, key)) == KnownTokens(s)
  {
    if s != [] {
      SortTokens(s[1..], key);
      InsertTokens(s[0], Sort(s[1..], key), key);
    }
  }

  lemma {:induction false} TokensAdd(s: seq<AttemptResult>)
    ensures TokensOf(s).Some? <==> exists r :: r in s && r.tokens.Some?
    ensures TokensOf(s).Some? ==> TokensOf(s).value == KnownTokens(s)
    ensures TokensOf(s).None? ==> KnownTokens(s) == 0
  {
    if s != [] {
      TokensAdd(s[1..]);
      assert forall r :: r in s <==> r == s[0] || r in s[1..];
    }
  }

  /** `first` comes before every other result in suite order; of several that tie, it arrived
      first. */
  ghost predicate IsFirst(results: seq<AttemptResult>, first: int, key: AttemptResult -> (int, int)) {
    && 0 <= first < |results|
    && forall i :: 0 <= i < |results| && i != first ==>
         LessEq(key(results[first]), key(results[i])) && (i < first ==> key(results[i]) != key(results[first]))
  }

  lemma {:induction false} SortStarts(s: seq<AttemptResult>, key: AttemptResult -> (int, int)) returns (first: int)
    requires s != []
    ensures IsFirst(s, first, key) && Sort(s, key) != [] && Sort(s, key)[0] == s[first]
  {
    var tail := s[1..];
    if tail == [] {
      first := 0;
    } else {
      var next := SortStarts(tail, key);
      assert s[next + 1] == tail[next] && forall i :: 0 < i < |s| ==> s[i] == tail[i - 1];
      first := if LessEq(key(s[0]), key(tail[next])) then 0 else next + 1;
    }
  }

  /** The run's own numbers: all results, those that erred, those an infrastructure error hit,
      and the sum of the known tokens. It started when its first attempt, in suite order, did. */
  lemma RunIsCounted(results: seq<AttemptResult>, cases: seq<Case>, judge: ConsistencyJudge)
    ensures var s := SummaryOf(results, cases, judge);
            && s.attempts == |results|
            && s.errors == |Places(results, HasStatus(AttemptErrored))|
            && s.infraErrors == |Places(results, IsInfra())|
            && (s.tokens.Some? <==> exists r :: r in results && r.tokens.Some?)
            && (s.tokens.Some? ==> s.tokens.value == KnownTokens(results))
            && (s.startedAt.Some? <==> results != [])
            && (results != [] ==>
                  exists first :: IsFirst(results, first, BySuite(cases))
                                  && s.startedAt == Some(results[first].startedAt))
  {
    var key := BySuite(cases);
    var ordered := Sort(results, key);
    SortPermutes(results, key);
    SameMembers(results, ordered);
    StatusIsTally(ordered, AttemptErrored);
    InfraIsTally(ordered);
    TallySort(results, key, HasStatus(AttemptErrored));
    TallySort(results, key, IsInfra());
    TallyIs(results, HasStatus(AttemptErrored));
    TallyIs(results, IsInfra());
    TokensAdd(ordered);
    SortTokens(results, key);
    if results != [] {
      var first := SortStarts(results, key);
    }
  }
}
