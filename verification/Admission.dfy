/** The rolling caps on new runs: each request begins a transaction, counts the rows of the last
    24 hours, and inserts its own row if the count leaves room. A row carries the time its
    transaction began. Requests interleave; a row exists once its request has inserted it. */
module Admission {
  const DAY := 86_400.0

  /** `None` caps and mock runs never get here: those requests are not refused. */
  datatype Policy = Runs(user: nat, most: nat) | LiveBudget(reserve: real, budget: real)

  datatype Request = Request(user: nat, mock: bool, began: real)

  /** `pending` holds the requests that passed every check and have not inserted yet. */
  datatype State = State(rows: seq<Request>, pending: seq<Request>)

  datatype Step = Check(request: Request, checked: real) | Insert(index: nat)

  /** What the deployment guarantees: the requests between their check and their insert at one
      time, and the time from a transaction's opening to its check. */
  datatype Load = Load(concurrent: nat, skew: real)

  predicate Counts(policy: Policy, request: Request) {
    match policy
    case Runs(user, _) => request.user == user
    case LiveBudget(_, _) => !request.mock
  }

  predicate Within(policy: Policy, count: int) {
    match policy
    case Runs(_, cap) => count <= cap
    case LiveBudget(reserve, cap) => count as real * reserve <= cap
  }

  predicate ValidPolicy(policy: Policy) {
    policy.LiveBudget? ==> policy.reserve >= 0.0 && policy.budget >= 0.0
  }

  /** The rows a policy counts that began between two times. */
  function Rows(policy: Policy, rows: seq<Request>, from: real, to: real): nat {
    if rows == [] then 0
    else (if Counts(policy, rows[0]) && from <= rows[0].began <= to then 1 else 0) + Rows(policy, rows[1..], from, to)
  }

  function Since(policy: Policy, rows: seq<Request>, from: real): nat {
    if rows == [] then 0
    else (if Counts(policy, rows[0]) && from <= rows[0].began then 1 else 0) + Since(policy, rows[1..], from)
  }

  /** `check_runs` refuses at `count >= cap`, `check_live_budget` at
      `(count + 1) * reserve > cap`. */
  predicate Admits(policy: Policy, rows: seq<Request>, checked: real) {
    var count := Since(policy, rows, checked - DAY);
    match policy
    case Runs(_, cap) => !(count >= cap)
    case LiveBudget(reserve, cap) => !((count + 1) as real * reserve > cap)
  }

  predicate Passes(policies: seq<Policy>, rows: seq<Request>, request: Request, checked: real) {
    forall p :: 0 <= p < |policies| && Counts(policies[p], request) ==> Admits(policies[p], rows, checked)
  }

  predicate Enabled(load: Load, s: State, step: Step) {
    match step
    case Check(request, checked) => |s.pending| < load.concurrent && request.began <= checked <= request.began
        + load.skew
    case Insert(index) => index < |s.pending|
  }

  function Do(policies: seq<Policy>, s: State, step: Step): State
    requires step.Insert? ==> step.index < |s.pending|
  {
    match step
    case Check(request, checked) =>
      if Passes(policies, s.rows, request, checked) then s.(pending := s.pending + [request]) else s
    case Insert(index) =>
      State(s.rows + [s.pending[index]], s.pending[..index] + s.pending[index + 1..])
  }

  ghost predicate IsRun(policies: seq<Policy>, load: Load, states: seq<State>, steps: seq<Step>) {
    && |states| == |steps| + 1
    && states[0] == State([], [])
    && (forall i :: 0 <= i < |steps| ==>
          Enabled(load, states[i], steps[i]) && states[i + 1] == Do(policies, states[i], steps[i]))
  }

  lemma {:induction false} RowsAppend(policy: Policy, a: seq<Request>, b: seq<Request>, from: real, to: real)
    ensures Rows(policy, a + b, from, to) == Rows(policy, a, from, to) + Rows(policy, b, from, to)
  {
    if a == [] {
      assert a + b == b;
    } else {
      assert (a + b)[1..] == a[1..] + b;
      RowsAppend(policy, a[1..], b, from, to);
    }
  }

  lemma {:induction false} RowsAreSince(policy: Policy, rows: seq<Request>, from: real, to: real, since: real)
    requires since <= from
    ensures Rows(policy, rows, from, to) <= Since(policy, rows, since)
  {
    if rows != [] {
      RowsAreSince(policy, rows[1..], from, to, since);
    }
  }

  lemma {:induction false} RowsAtMost(policy: Policy, rows: seq<Request>, from: real, to: real)
    ensures Rows(policy, rows, from, to) <= |rows|
  {
    if rows != [] {
      RowsAtMost(policy, rows[1..], from, to);
    }
  }

  // --- one check ------------------------------------------------------------------------

  /** The runs of a user, and the live runs of anyone, that began in the 24 hours before a
      check: their places among the rows. */
  function OwnRuns(rows: seq<Request>, user: nat, checked: real): set<int> {
    set i | 0 <= i < |rows| && rows[i].user == user && rows[i].began >= checked - 86_400.0
  }

  function LiveRuns(rows: seq<Request>, checked: real): set<int> {
    set i | 0 <= i < |rows| && !rows[i].mock && rows[i].began >= checked - 86_400.0
  }

  /** A cap that applies to the request and is reached, or would be overrun by it. */
  predicate Full(policy: Policy, rows: seq<Request>, request: Request, checked: real) {
    match policy
    case Runs(user, most) => request.user == user && |OwnRuns(rows, user, checked)| >= most
    case LiveBudget(reserve, budget) =>
      !request.mock && (|LiveRuns(rows, checked)| + 1) as real * reserve > budget
  }

  function RecentFrom(policy: Policy, rows: seq<Request>, from: real, k: nat): set<int> {
    set i | k <= i < |rows| && Counts(policy, rows[i]) && rows[i].began >= from
  }

  lemma {:induction false} SinceCounts(policy: Policy, rows: seq<Request>, from: real, k: nat)
    requires k <= |rows|
    ensures Since(policy, rows[k..], from) == |RecentFrom(policy, rows, from, k)|
    decreases |rows| - k
  {
    if k < |rows| {
      SinceCounts(policy, rows, from, k + 1);
      assert rows[k..][1..] == rows[k + 1..];
      var here := if Counts(policy, rows[k]) && from <= rows[k].began then {k as int} else {};
      assert RecentFrom(policy, rows, from, k) == here + RecentFrom(policy, rows, from, k + 1);
    }
  }

  lemma FullExactly(policy: Policy, rows: seq<Request>, request: Request, checked: real)
    ensures Full(policy, rows, request, checked) <==> Counts(policy, request) && !Admits(policy, rows, checked)
  {
    SinceCounts(policy, rows, checked - DAY, 0);
    assert rows[0..] == rows;
    match policy
    case Runs(user, _) => assert OwnRuns(rows, user, checked) == RecentFrom(policy, rows, checked - DAY, 0);
    case LiveBudget(_, _) => assert LiveRuns(rows, checked) == RecentFrom(policy, rows, checked - DAY, 0);
  }

  /** A request is refused, and leaves no trace, exactly if some cap is full: its user has had
      the runs of the last 24 hours, or one more live run beside those of the last 24 hours
      would overrun the budget. */
  lemma RefusedExactly(policies: seq<Policy>, s: State, request: Request, checked: real)
    ensures var t := Do(policies, s, Check(request, checked));
            && t.rows == s.rows
            && (t == s <==> exists p :: 0 <= p < |policies| && Full(policies[p], s.rows, request, checked))
            && (t != s ==> t.pending == s.pending + [request])
  {
    assert |s.pending + [request]| == |s.pending| + 1;
    forall p | 0 <= p < |policies|
      ensures Full(policies[p], s.rows, request, checked)
         <==> Counts(policies[p], request) && !Admits(policies[p], s.rows, checked)
    {
      FullExactly(policies[p], s.rows, request, checked);
    }
  }

  /** Rows and pending requests in a window, beyond what concurrency alone explains. */
  function Charged(policy: Policy, load: Load, s: State, from: real, to: real): int {
    var n := Rows(policy, s.rows, from, to) + Rows(policy, s.pending, from, to) - load.concurrent + 1;
    if n > 0 then n else 0
  }

  lemma Fewer(policy: Policy, less: int, more: int)
    requires ValidPolicy(policy) && 0 <= less <= more && Within(policy, more)
    ensures Within(policy, less)
  {
    if policy.LiveBudget? {
      Scaled(less as real, more as real, policy.reserve);
    }
  }

  lemma Scaled(less: real, more: real, factor: real)
    requires less <= more && factor >= 0.0
    ensures less * factor <= more * factor
  {
  }

  lemma CheckKeeps(policies: seq<Policy>, p: nat, load: Load, s: State, request: Request, checked: real, from: real)
    requires p < |policies| && ValidPolicy(policies[p]) && 0.0 <= load.skew
    requires Enabled(load, s, Check(request, checked))
    requires Within(policies[p], Charged(policies[p], load, s, from, from + DAY - load.skew))
    ensures Within(policies[p], Charged(policies[p], load, Do(policies, s, Check(request, checked)), from, from
            + DAY - load.skew))
  {
    var policy, to := policies[p], from + DAY - load.skew;
    if Passes(policies, s.rows, request, checked) {
      RowsAppend(policy, s.pending, [request], from, to);
      if Counts(policy, request) && from <= request.began <= to {
        var counted := Since(policy, s.rows, checked - DAY);
        RowsAreSince(policy, s.rows, from, to, checked - DAY);
        RowsAtMost(policy, s.pending, from, to);
        Fewer(policy, Charged(policy, load, Do(policies, s, Check(request, checked)), from, to), counted + 1);
      }
    }
  }

  lemma InsertKeeps(policies: seq<Policy>, policy: Policy, load: Load, s: State, index: nat, from: real, to: real)
    requires index < |s.pending|
    ensures Charged(policy, load, Do(policies, s, Insert(index)), from, to) == Charged(policy, load, s, from, to)
  {
    RowsAppend(policy, s.rows, [s.pending[index]], from, to);
    RowsWithout(policy, s.pending, index, from, to);
  }

  lemma RowsWithout(policy: Policy, rows: seq<Request>, index: nat, from: real, to: real)
    requires index < |rows|
    ensures Rows(policy, rows, from, to)
         == Rows(policy, rows[..index] + rows[index + 1..], from, to) + Rows(policy, [rows[index]], from, to)
  {
    var before, after := rows[..index], rows[index + 1..];
    assert rows == before + ([rows[index]] + after);
    RowsAppend(policy, before, [rows[index]] + after, from, to);
    RowsAppend(policy, [rows[index]], after, from, to);
    RowsAppend(policy, before, after, from, to);
  }

  lemma {:induction false} RunKeeps(policies: seq<Policy>, p: nat, load: Load, states: seq<State>, steps: seq<Step>,
                                    from: real)
    requires IsRun(policies, load, states, steps) && p < |policies| && ValidPolicy(policies[p]) && 0.0 <= load.skew
    requires load.concurrent >= 1
    ensures Within(policies[p], Charged(policies[p], load, states[|steps|], from, from + DAY - load.skew))
    decreases |steps|
  {
    if steps != [] {
      var k := |steps| - 1;
      RunKeeps(policies, p, load, states[..k + 1], steps[..k], from);
      match steps[k]
      case Check(request, checked) => CheckKeeps(policies, p, load, states[k], request, checked, from);
      case Insert(index) => InsertKeeps(policies, policies[p], load, states[k], index, from, from + DAY - load.skew);
    }
  }

  predicate WithinBy(policy: Policy, count: nat, extra: nat) {
    match policy
    case Runs(_, most) => count <= most + extra
    case LiveBudget(reserve, budget) => count as real * reserve <= budget + extra as real * reserve
  }

  lemma Overshoot(policy: Policy, count: nat, extra: nat)
    requires ValidPolicy(policy) && Within(policy, if count > extra then count - extra else 0)
    ensures WithinBy(policy, count, extra)
  {
    if policy.LiveBudget? {
      if count > extra {
        Split(count as real, extra as real, policy.reserve);
      } else {
        Scaled(count as real, extra as real, policy.reserve);
      }
    }
  }

  lemma Split(count: real, others: real, reserve: real)
    ensures count * reserve == (count - others) * reserve + others * reserve
  {
  }

  /** Every window of every history holds at most what the cap allows, and one more for each
      further request between its check and its insert, although each check only looks back
      from its own time. The windows are a day less the time a request takes to be checked. */
  lemma WindowsAreCapped(policies: seq<Policy>, p: nat, load: Load, states: seq<State>, steps: seq<Step>, from: real)
    requires IsRun(policies, load, states, steps) && p < |policies| && ValidPolicy(policies[p]) && 0.0 <= load.skew
    requires load.concurrent >= 1
    ensures WithinBy(policies[p], Rows(policies[p], states[|steps|].rows, from, from + DAY - load.skew),
            load.concurrent - 1)
  {
    var policy, s, to := policies[p], states[|steps|], from + DAY - load.skew;
    RunKeeps(policies, p, load, states, steps, from);
    LessThanCharged(policy, load, s, from, to);
    Overshoot(policy, Rows(policy, s.rows, from, to), load.concurrent - 1);
  }

  lemma LessThanCharged(policy: Policy, load: Load, s: State, from: real, to: real)
    requires ValidPolicy(policy) && load.concurrent >= 1 && Within(policy, Charged(policy, load, s, from, to))
    ensures var count, extra := Rows(policy, s.rows, from, to), load.concurrent - 1;
            Within(policy, if count > extra then count - extra else 0)
  {
    var count, extra := Rows(policy, s.rows, from, to), load.concurrent - 1;
    Fewer(policy, if count > extra then count - extra else 0, Charged(policy, load, s, from, to));
  }

  predicate Holds(policy: Policy, rows: seq<Request>, from: real, length: real) {
    Within(policy, Rows(policy, rows, from, from + length))
  }

  /** The guarantee: one request at a time, every window of this length within the cap. */
  ghost predicate Capped(policy: Policy, skew: real, length: real) {
    forall states: seq<State>, steps: seq<Step>, from: real ::
      IsRun([policy], Load(1, skew), states, steps) ==> Holds(policy, states[|steps|].rows, from, length)
  }

  lemma {:induction false} ShorterHoldsFewer(policy: Policy, rows: seq<Request>, from: real, to: real, later: real)
    requires to <= later
    ensures Rows(policy, rows, from, to) <= Rows(policy, rows, from, later)
  {
    if rows != [] {
      ShorterHoldsFewer(policy, rows[1..], from, to, later);
    }
  }

  lemma ShortIsCapped(policy: Policy, skew: real, length: real)
    requires ValidPolicy(policy) && 0.0 <= skew && length <= DAY - skew
    ensures Capped(policy, skew, length)
  {
    forall states: seq<State>, steps: seq<Step>, from: real | IsRun([policy], Load(1, skew), states, steps)
      ensures Holds(policy, states[|steps|].rows, from, length)
    {
      var rows, to := states[|steps|].rows, from + DAY - skew;
      RunKeeps([policy], 0, Load(1, skew), states, steps, from);
      LessThanCharged(policy, Load(1, skew), states[|steps|], from, to);
      ShorterHoldsFewer(policy, rows, from, from + length, to);
      Fewer(policy, Rows(policy, rows, from, from + length), Rows(policy, rows, from, to));
    }
  }

  // --- longer windows -----------------------------------------------------------------------

  /** A policy that lets something in, and not everything. */
  predicate Binds(policy: Policy) {
    Within(policy, 1) && (policy.LiveBudget? ==> policy.reserve > 0.0)
  }

  /** How many runs it lets in. */
  ghost predicate IsLimit(policy: Policy, limit: nat) {
    Within(policy, limit) && !Within(policy, limit + 1)
  }

  lemma LimitExists(policy: Policy) returns (limit: nat)
    requires ValidPolicy(policy) && Binds(policy)
    ensures limit >= 1 && IsLimit(policy, limit)
  {
    match policy
    case Runs(_, most) => limit := most;
    case LiveBudget(reserve, budget) =>
      limit := BudgetLimit(reserve, budget);
      assert limit as real * reserve <= budget < (limit + 1) as real * reserve;
  }

  lemma BudgetLimit(reserve: real, budget: real) returns (limit: nat)
    requires 0.0 < reserve <= budget
    ensures limit >= 1 && limit as real * reserve <= budget < (limit + 1) as real * reserve
  {
    var q := budget / reserve;
    assert q * reserve == budget;
    AtLeastOne(reserve, budget, q);
    limit := q.Floor;
    Bracketed(reserve, budget, q, limit as real, (limit + 1) as real);
  }

  lemma Bracketed(reserve: real, budget: real, q: real, below: real, above: real)
    requires reserve > 0.0 && q * reserve == budget && below <= q < above
    ensures below * reserve <= budget < above * reserve
  {
    Scaled(below, q, reserve);
    Above(q, above, reserve);
  }

  lemma AtLeastOne(reserve: real, budget: real, q: real)
    requires 0.0 < reserve <= budget && q * reserve == budget
    ensures q >= 1.0
  {
    if q < 1.0 {
      Above(q, 1.0, reserve);
    }
  }

  lemma Above(less: real, more: real, factor: real)
    requires less < more && factor > 0.0
    ensures less * factor < more * factor
  {
    var gap := more - less;
    var product := gap * factor;
    Quotient(gap, factor, product);
    Grows(less * factor, more * factor, product);
  }

  lemma Grows(a: real, b: real, product: real)
    requires b == a + product && product > 0.0
    ensures a < b
  {
  }

  lemma Quotient(x: real, y: real, product: real)
    requires y > 0.0 && product == x * y
    ensures product / y == x
  {
  }

  /** A request the policy counts. */
  function Counted(policy: Policy, began: real): (request: Request)
    ensures Counts(policy, request) && request.began == began
  {
    Request(if policy.Runs? then policy.user else 0, false, began)
  }

  /** The first `limit` requests begin and are checked at time 0, and the next begins at
      `began` and is checked at `checked`. */
  function Late(policy: Policy, limit: nat, began: real, checked: real, n: nat): (Request, real) {
    if n < limit then (Counted(policy, 0.0), 0.0) else (Counted(policy, began), checked)
  }

  function LateRows(policy: Policy, limit: nat, began: real, checked: real, n: nat): seq<Request> {
    seq(n, i requires 0 <= i < n => Late(policy, limit, began, checked, i).0)
  }

  function LateState(policy: Policy, limit: nat, began: real, checked: real, k: nat): State {
    State(
      LateRows(policy, limit, began, checked, k / 2),
      if k % 2 == 0 then [] else [Late(policy, limit, began, checked, k / 2).0])
  }

  function LateStep(policy: Policy, limit: nat, began: real, checked: real, k: nat): Step {
    var (request, at) := Late(policy, limit, began, checked, k / 2);
    if k % 2 == 0 then Check(request, at) else Insert(0)
  }

  lemma {:induction false} ZerosCounted(policy: Policy, rows: seq<Request>, from: real, to: real)
    requires forall i :: 0 <= i < |rows| ==> rows[i] == Counted(policy, 0.0)
    ensures Rows(policy, rows, from, to) == if from <= 0.0 <= to then |rows| else 0
    ensures Since(policy, rows, from) == if from <= 0.0 then |rows| else 0
  {
    if rows != [] {
      ZerosCounted(policy, rows[1..], from, to);
    }
  }

  lemma AdmitsWithin(policy: Policy, rows: seq<Request>, checked: real)
    ensures Admits(policy, rows, checked) <==> Within(policy, Since(policy, rows, checked - DAY) + 1)
  {
  }

  lemma LateAdmitted(policy: Policy, limit: nat, skew: real, began: real, n: nat)
    requires ValidPolicy(policy) && limit >= 1 && IsLimit(policy, limit)
    requires 0.0 < skew && 0.0 <= began <= DAY < began + skew && n <= limit
    ensures var rows, late := LateRows(policy, limit, began, began + skew, n),
            Late(policy, limit, began, began + skew, n);
            Admits(policy, rows, late.1)
  {
    var rows, at := LateRows(policy, limit, began, began + skew, n), Late(policy, limit, began, began + skew, n).1;
    ZerosCounted(policy, rows, at - DAY, at);
    AdmitsWithin(policy, rows, at);
    Fewer(policy, Since(policy, rows, at - DAY) + 1, limit);
  }

  lemma LateStepHolds(policy: Policy, limit: nat, skew: real, began: real, k: nat)
    requires ValidPolicy(policy) && limit >= 1 && IsLimit(policy, limit)
    requires 0.0 < skew && 0.0 <= began <= DAY < began + skew && k < 2 * limit + 2
    ensures var s, step := LateState(policy, limit, began, began + skew, k),
            LateStep(policy, limit, began, began + skew, k);
            Enabled(Load(1, skew), s, step) && LateState(policy, limit, began, began + skew, k + 1)
                == Do([policy], s, step)
  {
    var checked := began + skew;
    var s, n := LateState(policy, limit, began, checked, k), k / 2;
    var (request, at) := Late(policy, limit, began, checked, n);
    if k % 2 == 0 {
      LateAdmitted(policy, limit, skew, began, n);
      assert Passes([policy], s.rows, request, at);
      assert (k + 1) / 2 == n && (k + 1) % 2 == 1;
    } else {
      assert (k + 1) / 2 == n + 1 && (k + 1) % 2 == 0;
      assert LateRows(policy, limit, began, checked, n + 1) == s.rows + [request];
    }
  }

  lemma LateRunIsRun(policy: Policy, limit: nat, skew: real, began: real) returns (states: seq<State>, steps: seq<Step>)
    requires ValidPolicy(policy) && limit >= 1 && IsLimit(policy, limit)
    requires 0.0 < skew && 0.0 <= began <= DAY < began + skew
    ensures IsRun([policy], Load(1, skew), states, steps)
    ensures states[|steps|].rows == LateRows(policy, limit, began, began + skew, limit + 1)
  {
    var checked, k := began + skew, 2 * limit + 2;
    states := seq(k + 1, i requires 0 <= i < k + 1 => LateState(policy, limit, began, checked, i));
    steps := seq(k, i requires 0 <= i < k => LateStep(policy, limit, began, checked, i));
    forall i | 0 <= i < |steps|
      ensures Enabled(Load(1, skew), states[i], steps[i]) && states[i + 1] == Do([policy], states[i], steps[i])
    {
      LateStepHolds(policy, limit, skew, began, i);
    }
    assert states[0] == State([], []);
  }

  lemma LongIsNotCapped(policy: Policy, skew: real, length: real)
    requires ValidPolicy(policy) && Binds(policy)
    requires 0.0 < skew && 0.0 <= length <= DAY < length + skew
    ensures !Capped(policy, skew, length)
  {
    var limit := LimitExists(policy);
    var states, steps := LateRunIsRun(policy, limit, skew, length);
    var rows := states[|steps|].rows;
    var zeros := rows[..limit];
    assert rows == zeros + [Counted(policy, length)];
    RowsAppend(policy, zeros, [Counted(policy, length)], 0.0, length);
    ZerosCounted(policy, zeros, 0.0, length);
    OneRow(policy, length);
    assert !Holds(policy, rows, 0.0, length);
  }

  lemma OneRow(policy: Policy, length: real)
    requires length >= 0.0
    ensures Rows(policy, [Counted(policy, length)], 0.0, length) == 1
  {
    assert [Counted(policy, length)][1..] == [];
  }

  // --- a policy that lets nothing, or everything, in --------------------------------------------

  predicate NoneCounted(policy: Policy, rows: seq<Request>) {
    forall i :: 0 <= i < |rows| ==> !Counts(policy, rows[i])
  }

  lemma {:induction false} NoRows(policy: Policy, rows: seq<Request>, from: real, to: real)
    requires NoneCounted(policy, rows)
    ensures Rows(policy, rows, from, to) == 0
  {
    if rows != [] {
      NoRows(policy, rows[1..], from, to);
    }
  }

  lemma {:induction false} NothingAdmitted(policy: Policy, load: Load, states: seq<State>, steps: seq<Step>)
    requires ValidPolicy(policy) && !Within(policy, 1) && IsRun([policy], load, states, steps)
    ensures NoneCounted(policy, states[|steps|].rows) && NoneCounted(policy, states[|steps|].pending)
    decreases |steps|
  {
    if steps != [] {
      var k := |steps| - 1;
      NothingAdmitted(policy, load, states[..k + 1], steps[..k]);
      if steps[k].Check? && Counts(policy, steps[k].request) {
        var counted := Since(policy, states[k].rows, steps[k].checked - DAY);
        AdmitsWithin(policy, states[k].rows, steps[k].checked);
        if Within(policy, counted + 1) {
          Fewer(policy, 1, counted + 1);
        }
        assert !Passes([policy], states[k].rows, steps[k].request, steps[k].checked) by {
          assert Counts([policy][0], steps[k].request);
        }
      }
    }
  }

  lemma UnboundIsCapped(policy: Policy, skew: real, length: real)
    requires ValidPolicy(policy) && !Binds(policy)
    ensures Capped(policy, skew, length)
  {
    forall states: seq<State>, steps: seq<Step>, from: real | IsRun([policy], Load(1, skew), states, steps)
      ensures Holds(policy, states[|steps|].rows, from, length)
    {
      if !Within(policy, 1) {
        NothingAdmitted(policy, Load(1, skew), states, steps);
        NoRows(policy, states[|steps|].rows, from, from + length);
      }
    }
  }

  /** How long a window either check protects, exactly: a day less the time from a
      transaction's beginning, which dates the row, to its check. With no such delay it is the
      whole day. (A cap that lets nothing in, or a reserve of nothing, protects any.) */
  lemma ProtectedWindow(policy: Policy, skew: real, length: real)
    requires ValidPolicy(policy) && 0.0 <= skew && 0.0 <= length <= DAY
    ensures Capped(policy, skew, length) <==> (Binds(policy) ==> length <= DAY - skew)
  {
    if !Binds(policy) {
      UnboundIsCapped(policy, skew, length);
    } else if length <= DAY - skew {
      ShortIsCapped(policy, skew, length);
    } else {
      LongIsNotCapped(policy, skew, length);
    }
  }
}
