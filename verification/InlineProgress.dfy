/** An inline execution comes to an end, and unless the process shuts down the run ends with
    it: no schedule goes on for ever or gets stuck, and nothing is saved behind its back. */
module InlineProgress {
  import opened AttemptResults
  import opened RunStore
  import opened InlineRun
  import P = WorkerPool

  // --- termination ------------------------------------------------------------------------

  function RecordWeight(r: Record): nat {
    match r
    case Unsaved => 3
    case MustFail(_) => 2
    case MustStop => 1
    case Recorded => 0
  }

  function RecordsWeight(records: seq<Record>): nat {
    if records == [] then 0 else RecordWeight(records[0]) + RecordsWeight(records[1..])
  }

  /** How many steps a stage and those after it can take in a run of `n` planned attempts,
      the pool and its deliveries apart. */
  function StageWeight(n: nat, stage: Stage): nat {
    match stage
    case Claiming => 24 * n + 23
    case Rebuilding => 24 * n + 22
    case LoadingCompleted => 24 * n + 21
    case InSuite => 8
    case Completing(_) => 4
    case FinalizeLoading => 5
    case Finalizing(_) => 4
    case FailingRun(_) => 2
    case Over => 0
  }

  function PoolWeight(pool: Option<P.Pool>): nat {
    if pool.Some? then 4 * P.Measure(pool.value) else 0
  }

  function Measure(s: Inline): nat {
    StageWeight(|s.plan|, s.stage) + PoolWeight(s.pool) + RecordsWeight(s.records)
    + (if Live(s.run.status) then 1 else 0) + (if s.requested then 0 else 1)
  }

  lemma {:induction false} RecordsWeightAt(records: seq<Record>, i: nat, next: Record)
    requires i < |records|
    ensures RecordsWeight(records[i := next]) + RecordWeight(records[i]) == RecordsWeight(records) + RecordWeight(next)
  {
    if i == 0 {
      assert records[i := next][1..] == records[1..];
    } else {
      assert records[i := next][1..] == records[1..][i - 1 := next];
      RecordsWeightAt(records[1..], i - 1, next);
    }
  }

  lemma {:induction false} RecordsWeightGrows(records: seq<Record>)
    ensures RecordsWeight(records + [Unsaved]) == RecordsWeight(records) + 3
  {
    if records == [] {
      assert records + [Unsaved] == [Unsaved];
    } else {
      assert (records + [Unsaved])[1..] == records[1..] + [Unsaved];
      RecordsWeightGrows(records[1..]);
    }
  }

  lemma {:induction false} RemainingSize(plan: seq<AttemptKey>, completed: seq<AttemptResult>)
    ensures |P.Remaining(plan, completed)| <= |plan|
  {
    if plan != [] {
      RemainingSize(plan[1..], completed);
    }
  }

  lemma {:induction false} ReadyWeight(workers: seq<P.Worker>)
    requires forall w :: 0 <= w < |workers| ==> workers[w].Ready?
    ensures P.WorkersWeight(workers) == |workers|
  {
    if workers != [] {
      ReadyWeight(workers[1..]);
    }
  }

  lemma BeginWeight(plan: seq<AttemptKey>, completed: seq<AttemptResult>, concurrency: int)
    ensures PoolWeight(P.Begin(plan, completed, concurrency, true)) <= 24 * |plan| + 12
  {
    var pool := P.Begin(plan, completed, concurrency, true);
    if pool.Some? {
      RemainingSize(plan, completed);
      ReadyWeight(pool.value.workers);
      assert |pool.value.queue| <= |plan| && |pool.value.workers| <= |plan|;
      assert P.PendingCount(pool.value.deliveries) == 0;
    }
  }

  lemma PoolLowers(s: Inline, step: P.Step)
    requires Enabled(s, InPool(step))
    ensures Measure(Do(s, InPool(step))) < Measure(s)
  {
    P.StepsEnd(s.pool.value, step);
    if step.Answer? {
      RecordsWeightGrows(s.records);
    }
  }

  lemma DeliveryLowers(s: Inline, step: Step, index: nat)
    requires Enabled(s, step) && index < |s.records|
    requires step == StopFrom(index) || (step.Save? && step.index == index) || (step.FailFrom? && step.index == index)
    ensures Measure(Do(s, step)) < Measure(s)
  {
    RecordsWeightAt(s.records, index, Do(s, step).records[index]);
  }

  lemma LoadLowers(s: Inline, completed: seq<AttemptResult>, concurrency: int)
    requires Enabled(s, Load(completed, concurrency)) && s.pool.None? && s.records == []
    ensures Measure(Do(s, Load(completed, concurrency))) < Measure(s)
  {
    BeginWeight(s.plan, completed, concurrency);
  }

  /** Every step lowers the measure, cancels and failures included. */
  lemma StepLowers(s: Inline, step: Step)
    requires Enabled(s, step) && (s.stage.LoadingCompleted? ==> s.pool.None? && s.records == [])
    ensures Measure(Do(s, step)) < Measure(s)
  {
    match step
    case InPool(step) => PoolLowers(s, step);
    case Save(index, _) => DeliveryLowers(s, step, index);
    case FailFrom(index, _) => DeliveryLowers(s, step, index);
    case StopFrom(index) => DeliveryLowers(s, step, index);
    case Load(completed, concurrency) => LoadLowers(s, completed, concurrency);
    case _ =>
  }

  // --- no deadlock ------------------------------------------------------------------------

  /** The task is over and so is every delivery it left. */
  ghost predicate Settled(s: Inline) {
    s.stage.Over? && (s.pool.Some? ==> !P.SomePending(s.pool.value.deliveries))
  }

  /** Someone cancels, the process shuts down, or something fails. */
  predicate Disturbs(step: Step) {
    || step.UserCancel? || step.UserStop? || step.Abort? || step.Raise?
    || (step.InPool? && P.Disturbs(step.step))
    || (step.Rebuild? && step.error.Some?)
  }

  lemma DeliveryMoves(s: Inline, index: nat) returns (step: Step)
    requires Inv(s) && s.pool.Some? && index < |s.pool.value.deliveries| && s.pool.value.deliveries[index].Pending?
    ensures Enabled(s, step) && !Disturbs(step)
  {
    RecordedAlong(s, index);
    step := RecordGoesOn(s, index);
  }

  lemma RecordGoesOn(s: Inline, index: nat) returns (step: Step)
    requires Delivering(s, index) && P.Enabled(s.pool.value, P.FinishDelivery(index, true))
    ensures Enabled(s, step) && !Disturbs(step)
  {
    match s.records[index]
    case Unsaved => step := Save(index, 0);
    case MustFail(_) => step := FailFrom(index, 0);
    case MustStop => step := StopFrom(index);
    case Recorded => step := InPool(P.FinishDelivery(index, true));
  }

  lemma RecordedAlong(s: Inline, index: nat)
    requires Inv(s) && s.pool.Some? && index < |s.pool.value.deliveries| && s.pool.value.deliveries[index].Pending?
    ensures Delivering(s, index) && P.Enabled(s.pool.value, P.FinishDelivery(index, true))
  {
  }

  lemma SuiteMoves(s: Inline) returns (step: Step)
    requires Inv(s) && s.stage.InSuite?
    ensures Enabled(s, step) && !Disturbs(step)
  {
    if s.pool.value.phase.Returned? {
      step := Leave;
    } else {
      var poolStep := P.NeverStuck(s.pool.value);
      if poolStep.FinishDelivery? {
        step := DeliveryMoves(s, poolStep.index);
      } else {
        step := InPool(poolStep);
      }
    }
  }

  /** Some reading of the saved rows always exists. */
  lemma {:induction false} ReadingExists(rows: Rows) returns (results: seq<AttemptResult>)
    requires forall k :: k in rows ==> rows[k].Key() == k
    ensures IsReading(results, rows)
    decreases |rows|
  {
    if rows == map[] {
      results := [];
    } else {
      var k :| k in rows;
      var fewer := rows - {k};
      assert fewer.Keys == rows.Keys - {k};
      var rest := ReadingExists(fewer);
      results := rest + [rows[k]];
      ReadingGrows(rows, k, rest);
    }
  }

  lemma ReadingGrows(rows: Rows, k: AttemptKey, rest: seq<AttemptResult>)
    requires k in rows && rows[k].Key() == k && IsReading(rest, rows - {k})
    ensures IsReading(rest + [rows[k]], rows)
  {
    var results := rest + [rows[k]];
    forall i, j | 0 <= i < j < |results|
      ensures Keys(results)[i] != Keys(results)[j]
    {
      assert Keys(rest)[i] == results[i].Key();
      if j < |rest| {
        assert Keys(rest)[j] == results[j].Key();
      }
    }
    forall l | l in rows
      ensures rows[l] in results
    {
      if l == k {
        assert results[|rest|] == rows[k];
      } else {
        assert (rows - {k})[l] in rest;
      }
    }
  }

  /** Until the task and its deliveries are done, something can go on without anybody
      cancelling or failing. */
  lemma NeverStuck(s: Inline) returns (step: Step)
    requires Inv(s) && !Settled(s)
    ensures Enabled(s, step) && !Disturbs(step)
  {
    match s.stage
    case Claiming => step := ClaimRun(0);
    case Rebuilding => step := Rebuild(None);
    case LoadingCompleted => step := LoadingMoves(s);
    case InSuite => step := SuiteMoves(s);
    case Completing(_) => step := SaveSummary(0);
    case FinalizeLoading => step := LoadSaved;
    case Finalizing(_) => step := SaveSummary(0);
    case FailingRun(_) => step := FailRun(0);
    case Over => step := LateDeliveryMoves(s);
  }

  lemma LoadingMoves(s: Inline) returns (step: Step)
    requires Inv(s) && s.stage.LoadingCompleted?
    ensures Enabled(s, step) && !Disturbs(step)
  {
    var completed := ReadingExists(s.run.rows);
    step := Load(completed, 1);
  }

  lemma LateDeliveryMoves(s: Inline) returns (step: Step)
    requires Inv(s) && s.pool.Some? && P.SomePending(s.pool.value.deliveries)
    ensures Enabled(s, step) && !Disturbs(step)
  {
    var i: nat :| i < |s.pool.value.deliveries| && s.pool.value.deliveries[i].Pending?;
    step := DeliveryMoves(s, i);
  }

  // --- the theorems -----------------------------------------------------------------------

  lemma RecordsNeedPool(s: Inline, step: Step)
    requires Enabled(s, step) && (s.pool.None? ==> s.records == [])
    ensures Do(s, step).pool.None? ==> Do(s, step).records == []
  {
  }

  lemma LoadsOnce(s: Inline)
    requires Inv(s) && s.stage.LoadingCompleted?
    ensures s.pool.None?
  {
  }

  /** What every step lowers, and keeps for the next. */
  ghost predicate Lowers(s: Inline, t: Inline) {
    Measure(t) < Measure(s) && (t.pool.None? ==> t.records == [])
  }

  lemma LowersStep(s: Inline, step: Step, t: Inline)
    requires Inv(s) && Enabled(s, step) && t == Do(s, step) && (s.pool.None? ==> s.records == [])
    ensures Lowers(s, t)
  {
    if s.stage.LoadingCompleted? {
      LoadsOnce(s);
    }
    RecordsNeedPool(s, step);
    StepLowers(s, step);
  }

  lemma {:induction false} LowersChain(states: seq<Inline>, j: nat)
    requires j < |states| && (states[0].pool.None? ==> states[0].records == [])
    requires forall i :: 0 <= i < j && (states[i].pool.None? ==> states[i].records == []) ==>
             Lowers(states[i], states[i + 1])
    ensures Measure(states[j]) + j <= Measure(states[0])
    ensures states[j].pool.None? ==> states[j].records == []
  {
    if j > 0 {
      LowersChain(states, j - 1);
    }
  }

  lemma ExecutionLowers(states: seq<Inline>, steps: seq<Step>, i: nat)
    requires IsExecution(states, steps) && i < |states|
    ensures Measure(states[i]) + i <= Measure(states[0])
  {
    forall k | 0 <= k < i && (states[k].pool.None? ==> states[k].records == [])
      ensures Lowers(states[k], states[k + 1])
    {
      ExecutionInv(states, steps, k);
      LowersStep(states[k], steps[k], states[k + 1]);
    }
    LowersChain(states, i);
  }

  /** An inline execution is never longer than its measure and never stuck; and when it is
      over, the run has ended or the process was shutting down. */
  lemma ExecutionEnds(states: seq<Inline>, steps: seq<Step>)
    requires IsExecution(states, steps)
    ensures |steps| <= Measure(states[0])
    ensures !Settled(states[|steps|]) ==> exists step :: Enabled(states[|steps|], step) && !Disturbs(step)
    ensures states[|steps|].stage.Over? ==> states[|steps|].run.Ended() || states[|steps|].shutdown
  {
    ExecutionLowers(states, steps, |steps|);
    ExecutionInv(states, steps, |steps|);
    if !Settled(states[|steps|]) {
      var step := NeverStuck(states[|steps|]);
    }
  }

  /** The pool has returned, and no delivery it left can save anything. */
  ghost predicate Quiet(s: Inline) {
    Left(s) && (P.SomePending(s.pool.value.deliveries) ==> s.run.Ended())
  }

  /** What every step keeps from then on. */
  ghost predicate Keeps(s: Inline, t: Inline) {
    && Left(t)
    && (Quiet(s) ==> Quiet(t) && t.run.rows == s.run.rows)
  }

  lemma LeftIsQuiet(s: Inline)
    requires Inv(s) && Left(s) && !s.shutdown
    ensures Quiet(s)
  {
  }

  lemma LeftStays(s: Inline, step: Step, t: Inline)
    requires Inv(s) && Enabled(s, step) && Left(s) && t == Do(s, step)
    ensures Keeps(s, t)
  {
    if s.run.Ended() {
      EndedStays(s, step);
    }
    if step.InPool? {
      ReturnedOnlyDelivers(s.pool.value, step.step);
    } else if step.Save? && Quiet(s) {
      assert P.SomePending(s.pool.value.deliveries);
    }
  }

  lemma EndedStays(s: Inline, step: Step)
    requires Enabled(s, step) && s.run.Ended()
    ensures Do(s, step).run.Ended()
  {
  }

  lemma {:induction false} KeepsChain(states: seq<Inline>, j: nat)
    requires j < |states| && Left(states[0])
    requires forall i :: 0 <= i < j && Left(states[i]) ==> Keeps(states[i], states[i + 1])
    ensures Left(states[j]) && Keeps(states[0], states[j])
  {
    if j > 0 {
      KeepsChain(states, j - 1);
    }
  }

  lemma ExecutionKeeps(states: seq<Inline>, steps: seq<Step>, k: nat)
    requires IsExecution(states, steps) && k < |steps| && Left(states[k])
    ensures Keeps(states[k], states[k + 1])
  {
    ExecutionInv(states, steps, k);
    LeftStays(states[k], steps[k], states[k + 1]);
  }

  /** Once `run_suite` has returned or raised, no row is saved any more, not even by a delivery
      that outlives it, unless the task had been cancelled from outside by then: any such
      delivery finds the run ended. */
  lemma NoLateRows(states: seq<Inline>, steps: seq<Step>, i: nat, j: nat)
    requires IsExecution(states, steps) && i <= j < |states| && Left(states[i])
    ensures Left(states[j])
    ensures states[j].run.rows == states[i].run.rows || states[i].shutdown
    ensures P.SomePending(states[j].pool.value.deliveries) ==> states[j].run.Ended() || states[i].shutdown
  {
    var from := states[i..];
    forall k | 0 <= k < j - i && Left(from[k])
      ensures Keeps(from[k], from[k + 1])
    {
      ExecutionKeeps(states, steps, i + k);
    }
    KeepsChain(from, j - i);
    if !states[i].shutdown {
      ExecutionInv(states, steps, i);
      LeftIsQuiet(states[i]);
    }
  }
}
