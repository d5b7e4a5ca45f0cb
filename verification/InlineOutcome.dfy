/** What becomes of an inline run: `run_suite`'s ending decides what is stored, an
    infrastructure error fails the run and stops it, and undisturbed it completes. */
module InlineOutcome {
  import opened AttemptResults
  import opened RunStore
  import opened InlineRun
  import P = WorkerPool

  // --- what is stored ---------------------------------------------------------------------

  /** What the task still has to do, or has done, when the pool has returned. */
  ghost predicate Settles(s: Inline) {
    s.pool.Some? && s.pool.value.phase.Returned? && !s.stage.InSuite? ==>
      match s.pool.value.phase.ending
      case CancelledRun =>
        s.stage.FinalizeLoading? || s.stage.Finalizing? || (s.stage.Over? && s.run.summarized == Some(s.run.rows))
      case CompletedRun =>
        || s.stage.Completing?
        || (s.stage.Over? && s.run.summarized.Some? && s.run.summarized.value.Keys == Elements(s.plan))
      case RaisedRun => s.stage.FailingRun? || s.stage.Over?
      case AbortedRun => s.stage.Over?
  }

  /** A step that moves neither the stage nor the pool's phase. */
  lemma SettlesStill(s: Inline, t: Inline)
    requires Inv(s) && Settles(s) && t.stage == s.stage && t.plan == s.plan
    requires t.pool.Some? ==> s.pool.Some? && t.pool.value.phase == s.pool.value.phase
    requires s.run.Ended() ==> t.run.rows == s.run.rows && t.run.summarized == s.run.summarized
    ensures Settles(t)
  {
  }

  lemma SettlesInPool(s: Inline, step: P.Step)
    requires Inv(s) && Settles(s) && Enabled(s, InPool(step))
    ensures Settles(Do(s, InPool(step)))
  {
    if !s.stage.InSuite? {
      ReturnedOnlyDelivers(s.pool.value, step);
      SettlesStill(s, Do(s, InPool(step)));
    }
  }

  lemma SettlesLeave(s: Inline)
    requires Inv(s) && Enabled(s, Leave)
    ensures Settles(Do(s, Leave))
  {
  }

  lemma SettlesSummary(s: Inline, now: int)
    requires StageOk(s) && Settles(s) && Enabled(s, SaveSummary(now))
    ensures Settles(Do(s, SaveSummary(now)))
  {
    if s.stage.Completing? {
      assert s.stage.attempts.Keys == Elements(s.plan);
    }
  }

  lemma SettlesOn(s: Inline, step: Step)
    requires Inv(s) && Settles(s) && Enabled(s, step) && !step.Raise? && !step.Abort?
    ensures Settles(Do(s, step))
  {
    match step
    case InPool(step) => SettlesInPool(s, step);
    case Leave => SettlesLeave(s);
    case SaveSummary(now) => SettlesSummary(s, now);
    case Save(_, _) => SettlesStill(s, Do(s, step));
    case FailFrom(_, _) => SettlesStill(s, Do(s, step));
    case StopFrom(_) => SettlesStill(s, Do(s, step));
    case UserCancel(_) => SettlesStill(s, Do(s, step));
    case UserStop => SettlesStill(s, Do(s, step));
    case _ =>
  }

  lemma SettlesNext(states: seq<Inline>, steps: seq<Step>, k: nat)
    requires IsExecution(states, steps) && Plain(steps) && k < |steps| && Settles(states[k])
    ensures Settles(states[k + 1])
  {
    ExecutionInv(states, steps, k);
    SettlesOn(states[k], steps[k]);
  }

  lemma {:induction false} SettlesChain(states: seq<Inline>, j: nat)
    requires j < |states| && Settles(states[0])
    requires forall k :: 0 <= k < j && Settles(states[k]) ==> Settles(states[k + 1])
    ensures Settles(states[j])
  {
    if j > 0 {
      SettlesChain(states, j - 1);
    }
  }

  lemma ExecutionSettles(states: seq<Inline>, steps: seq<Step>, i: nat)
    requires IsExecution(states, steps) && Plain(steps) && i < |states|
    ensures Settles(states[i])
  {
    forall k | 0 <= k < i && Settles(states[k])
      ensures Settles(states[k + 1])
    {
      SettlesNext(states, steps, k);
    }
    SettlesChain(states, i);
  }

  /** Unless something outside `run_suite` fails or the task is cancelled there: when the task
      is over, a run whose `run_suite` returned a cancelled summary has a summary of exactly
      its saved rows, and one whose `run_suite` returned a completed summary has one of the
      whole plan. */
  lemma SummaryFollowsEnding(states: seq<Inline>, steps: seq<Step>, i: nat)
    requires IsExecution(states, steps) && Plain(steps) && i < |states|
    requires states[i].stage.Over? && states[i].pool.Some?
    ensures states[i].pool.value.phase == P.Returned(P.CancelledRun) ==>
              states[i].run.Ended() && states[i].run.summarized == Some(states[i].run.rows)
    ensures states[i].pool.value.phase == P.Returned(P.CompletedRun) ==>
              && states[i].run.Ended() && states[i].run.summarized.Some?
              && states[i].run.summarized.value.Keys == Elements(states[0].plan)
  {
    ExecutionSettles(states, steps, i);
    ExecutionInv(states, steps, i);
  }

  /** A task that fails after `run_suite` has begun fails with an exception. */
  ghost predicate FailsWell(s: Inline) {
    s.pool.Some? && s.stage.FailingRun? ==> s.stage.message == CRASHED
  }

  lemma NotLoaded(s: Inline)
    requires Inv(s) && (s.stage.Rebuilding? || s.stage.LoadingCompleted?)
    ensures s.pool.None?
  {
  }

  lemma FailsWellOn(s: Inline, step: Step)
    requires FailsWell(s) && Enabled(s, step) && (step.Rebuild? ==> s.pool.None?)
    ensures FailsWell(Do(s, step))
  {
  }

  lemma FailsWellNext(states: seq<Inline>, steps: seq<Step>, k: nat)
    requires IsExecution(states, steps) && k < |steps| && FailsWell(states[k])
    ensures FailsWell(states[k + 1])
  {
    ExecutionInv(states, steps, k);
    if steps[k].Rebuild? {
      NotLoaded(states[k]);
    }
    FailsWellOn(states[k], steps[k]);
  }

  lemma {:induction false} FailsWellChain(states: seq<Inline>, j: nat)
    requires j < |states| && FailsWell(states[0])
    requires forall k :: 0 <= k < j && FailsWell(states[k]) ==> FailsWell(states[k + 1])
    ensures FailsWell(states[j])
  {
    if j > 0 {
      FailsWellChain(states, j - 1);
    }
  }

  lemma FailingTells(states: seq<Inline>, steps: seq<Step>, i: nat)
    requires IsExecution(states, steps) && i < |states|
    ensures FailsWell(states[i])
  {
    forall k | 0 <= k < i && FailsWell(states[k])
      ensures FailsWell(states[k + 1])
    {
      FailsWellNext(states, steps, k);
    }
    FailsWellChain(states, i);
  }

  /** A task that fails ends the run: a live one as failed. */
  lemma RaisedIsRecorded(states: seq<Inline>, steps: seq<Step>, i: nat)
    requires IsExecution(states, steps) && i < |steps| && steps[i].FailRun?
    ensures states[i + 1].run.Ended() && states[i + 1].stage.Over?
    ensures Live(states[i].run.status) ==> states[i + 1].run.status == Failed
    ensures states[i + 1].run.rows == states[i].run.rows
    ensures Live(states[i].run.status) && states[i].pool.Some? ==> states[i + 1].run.error == Some(CRASHED)
  {
    FailingTells(states, steps, i);
  }

  // --- an infrastructure error ------------------------------------------------------------

  /** A delivery saves the row of an infrastructure error. */
  ghost predicate SavesInfraError(s: Inline, step: Step) {
    && step.Save? && Enabled(s, step) && s.run.status == Running
    && Result(s, step.index).IsInfraError() && Result(s, step.index).Key() !in s.run.rows
  }

  predicate Touches(step: Step, index: nat) {
    || (step.Save? && step.index == index) || (step.FailFrom? && step.index == index)
    || (step.StopFrom? && step.index == index)
    || (step.InPool? && step.step.FinishDelivery? && step.step.index == index)
  }

  /** Step `k` is what the delivery does next after step `i`: it does not fail there. */
  predicate GoesOn(steps: seq<Step>, index: nat, i: nat, k: nat) {
    && i < k < |steps| && Touches(steps[k], index)
    && !(steps[k].InPool? && steps[k].step.FinishDelivery? && !steps[k].step.ok)
    && forall j :: i < j < k ==> !Touches(steps[j], index)
  }

  ghost predicate Holds(s: Inline, index: nat, record: Record) {
    s.pool.Some? && index < |s.records| && s.records[index] == record
  }

  lemma LoadsOnce(s: Inline, step: Step)
    requires Inv(s) && Enabled(s, step) && s.pool.Some?
    ensures !step.Load?
  {
  }

  lemma OthersLeaveAlone(s: Inline, step: Step, index: nat, record: Record)
    requires Enabled(s, step) && Holds(s, index, record) && !Touches(step, index) && !step.Load?
    ensures Holds(Do(s, step), index, record)
  {
  }

  lemma HoldsNext(states: seq<Inline>, steps: seq<Step>, k: nat, index: nat, record: Record)
    requires IsExecution(states, steps) && k < |steps| && Holds(states[k], index, record) && !Touches(steps[k], index)
    ensures Holds(states[k + 1], index, record)
  {
    ExecutionInv(states, steps, k);
    LoadsOnce(states[k], steps[k]);
    OthersLeaveAlone(states[k], steps[k], index, record);
  }

  lemma {:induction false} HoldsChain(states: seq<Inline>, index: nat, record: Record, i: nat, k: nat)
    requires i < k < |states| && Holds(states[i + 1], index, record)
    requires forall j :: i < j < k && Holds(states[j], index, record) ==> Holds(states[j + 1], index, record)
    ensures Holds(states[k], index, record)
  {
    if i + 1 < k {
      HoldsChain(states, index, record, i, k - 1);
    }
  }

  lemma StaysPut(states: seq<Inline>, steps: seq<Step>, index: nat, i: nat, k: nat, record: Record)
    requires IsExecution(states, steps) && i < k < |states| && Holds(states[i + 1], index, record)
    requires forall j :: i < j < k ==> !Touches(steps[j], index)
    ensures Holds(states[k], index, record)
  {
    forall j | i < j < k && Holds(states[j], index, record)
      ensures Holds(states[j + 1], index, record)
    {
      HoldsNext(states, steps, j, index, record);
    }
    HoldsChain(states, index, record, i, k);
  }

  lemma SavingInfraError(s: Inline, step: Step)
    requires SavesInfraError(s, step)
    ensures Holds(Do(s, step), step.index, MustFail(Result(s, step.index).error.value.Reason()))
  {
  }

  lemma MustFailGoesOn(s: Inline, step: Step, index: nat, message: string)
    requires Enabled(s, step) && Holds(s, index, MustFail(message)) && Touches(step, index)
    requires !(step.InPool? && step.step.FinishDelivery? && !step.step.ok)
    ensures Do(s, step).run.Ended() && Do(s, step).run.rows == s.run.rows
    ensures Live(s.run.status) ==> Do(s, step).run.status == Failed && Do(s, step).run.error == Some(message)
    ensures Holds(Do(s, step), index, MustStop)
  {
  }

  lemma MustStopGoesOn(s: Inline, step: Step, index: nat)
    requires Enabled(s, step) && Holds(s, index, MustStop) && Touches(step, index)
    requires !(step.InPool? && step.step.FinishDelivery? && !step.step.ok)
    ensures Do(s, step).requested
  {
  }

  /** After the row of an infrastructure error is saved, and unless its delivery fails, the
      delivery's next step leaves no live run, and fails one that still was for that error;
      the one after that asks the pool to stop. */
  lemma InfraErrorFailsTheRun(states: seq<Inline>, steps: seq<Step>, i: nat, k: nat)
    requires IsExecution(states, steps) && i < |steps| && SavesInfraError(states[i], steps[i])
    requires GoesOn(steps, steps[i].index, i, k)
    ensures states[k + 1].run.Ended() && states[k + 1].run.rows == states[k].run.rows
    ensures Live(states[k].run.status) ==>
              && states[k + 1].run.status == Failed
              && states[k + 1].run.error == Some(Result(states[i], steps[i].index).error.value.Reason())
    ensures forall m: nat :: GoesOn(steps, steps[i].index, k, m) ==> states[m + 1].requested
  {
    var index, message := steps[i].index, Result(states[i], steps[i].index).error.value.Reason();
    SavingInfraError(states[i], steps[i]);
    StaysPut(states, steps, index, i, k, MustFail(message));
    MustFailGoesOn(states[k], steps[k], index, message);
    forall m: nat | GoesOn(steps, index, k, m)
      ensures states[m + 1].requested
    {
      StaysPut(states, steps, index, k, m, MustStop);
      MustStopGoesOn(states[m], steps[m], index);
    }
  }

  // --- undisturbed --------------------------------------------------------------------------

  /** Nobody cancels, nothing fails, and no attempt meets an infrastructure error. */
  predicate Smooth(step: Step) {
    match step
    case Rebuild(error) => error.None?
    case Load(_, concurrency) => concurrency >= 1
    case InPool(step) => !P.Disturbs(step) && (step.Answer? ==> !step.result.IsInfraError())
    case UserCancel(_) => false
    case UserStop => false
    case Raise => false
    case Abort => false
    case _ => true
  }

  /** No worker and no delivery has failed or been stopped. */
  ghost predicate SmoothPool(p: P.Pool) {
    && !p.aborting && P.Raised !in p.deliveries
    && P.Crashed !in p.workers && P.Stopped !in p.workers
    && (p.phase.Waiting? || p.phase == P.Settling(false, false) || p.phase == P.Returned(P.CompletedRun))
    && |p.completed| <= |p.results|
    && forall i :: |p.completed| <= i < |p.results| ==> !p.results[i].IsInfraError()
  }

  ghost predicate GoesWell(s: Inline) {
    && !s.requested && !s.shutdown
    && (forall i :: 0 <= i < |s.records| ==> s.records[i].Unsaved? || s.records[i].Recorded?)
    && (s.pool.Some? ==> SmoothPool(s.pool.value))
    && !s.stage.FinalizeLoading? && !s.stage.Finalizing? && !s.stage.FailingRun?
    && (if s.stage.Over? then s.run.status == Completed else Live(s.run.status))
  }

  lemma PoolGoesWell(p: P.Pool, step: P.Step)
    requires P.Inv(p) && SmoothPool(p) && P.Enabled(p, step) && !P.Disturbs(step)
    requires step.Answer? ==> !step.result.IsInfraError()
    ensures SmoothPool(P.Do(p, step))
  {
    var p' := P.Do(p, step);
    match step
    case Resume(w) =>
      assert p.deliveries[p.workers[w].index] in p.deliveries;
    case FinishDelivery(i, ok) =>
      assert forall j :: 0 <= j < |p'.deliveries| && j != i ==> p'.deliveries[j] in p.deliveries;
    case Next(w) =>
    case _ =>
  }

  lemma SaveGoesWell(s: Inline, index: nat, now: int)
    requires Inv(s) && GoesWell(s) && Enabled(s, Save(index, now))
    ensures GoesWell(Do(s, Save(index, now)))
  {
    assert !Result(s, index).IsInfraError();
  }

  lemma InPoolGoesWell(s: Inline, step: P.Step)
    requires s.pool.Some? && P.Inv(s.pool.value)
    requires GoesWell(s) && Enabled(s, InPool(step)) && Smooth(InPool(step))
    ensures GoesWell(Do(s, InPool(step)))
  {
    PoolGoesWell(s.pool.value, step);
  }

  lemma LoadGoesWell(s: Inline, completed: seq<AttemptResult>, concurrency: int)
    requires GoesWell(s) && Enabled(s, Load(completed, concurrency)) && concurrency >= 1
    ensures GoesWell(Do(s, Load(completed, concurrency)))
  {
    BeginShape(s.plan, completed, concurrency);
    assert forall w :: w in P.Begin(s.plan, completed, concurrency, true).value.workers ==> w == P.Ready;
  }

  lemma GoesOnWell(s: Inline, step: Step)
    requires Inv(s) && GoesWell(s) && Enabled(s, step) && Smooth(step)
    ensures GoesWell(Do(s, step))
  {
    match step
    case InPool(step) => InPoolGoesWell(s, step);
    case Load(completed, concurrency) => LoadGoesWell(s, completed, concurrency);
    case Save(index, now) => SaveGoesWell(s, index, now);
    case _ =>
  }

  lemma GoesWellNext(states: seq<Inline>, steps: seq<Step>, k: nat)
    requires IsExecution(states, steps) && k < |steps| && Smooth(steps[k]) && GoesWell(states[k])
    ensures GoesWell(states[k + 1])
  {
    ExecutionInv(states, steps, k);
    GoesOnWell(states[k], steps[k]);
  }

  lemma {:induction false} GoesWellChain(states: seq<Inline>, j: nat)
    requires j < |states| && GoesWell(states[0])
    requires forall k :: 0 <= k < j && GoesWell(states[k]) ==> GoesWell(states[k + 1])
    ensures GoesWell(states[j])
  {
    if j > 0 {
      GoesWellChain(states, j - 1);
    }
  }

  /** An execution of a live run that nothing disturbs keeps it running and completes it: when
      the task is over, every planned attempt is saved and counted, and summarized. */
  lemma UndisturbedCompletes(states: seq<Inline>, steps: seq<Step>)
    requires IsExecution(states, steps) && Live(states[0].run.status)
    requires forall k :: 0 <= k < |steps| ==> Smooth(steps[k])
    ensures states[|steps|].stage.Over? ==>
              var run := states[|steps|].run;
              && run.status == Completed
              && run.rows.Keys == Elements(states[0].plan)
              && run.attemptsDone == |states[0].plan|
              && run.summarized == Some(run.rows)
    ensures !states[|steps|].stage.Over? ==> Live(states[|steps|].run.status)
  {
    forall k | 0 <= k < |steps| && GoesWell(states[k])
      ensures GoesWell(states[k + 1])
    {
      GoesWellNext(states, steps, k);
    }
    GoesWellChain(states, |steps|);
    ExecutionInv(states, steps, |steps|);
    DistinctCardinality(states[0].plan);
    assert states[|steps|].run.status == Completed ==>
        states[|steps|].run.rows.Keys == Elements(states[0].plan);
  }

  // --- a cancelled execution ------------------------------------------------------------------

  function Stopping(result: AttemptResult, worker: P.Worker, delivery: P.Delivery, phase: P.Phase): P.Pool {
    OnePool(result.Key(), [], worker, [result], [delivery], [result.Key()]).(phase := phase)
  }

  lemma PoolStopsOne(result: AttemptResult)
    ensures var p := Stopping(result, P.Delivering(0), P.Delivered, P.Waiting);
            P.Do(p, P.Interrupt(false)) == Stopping(result, P.Delivering(0), P.Delivered, P.Stopping(false))
    ensures var p := Stopping(result, P.Delivering(0), P.Delivered, P.Stopping(false));
            P.Enabled(p, P.StopWorker(0))
            && P.Do(p, P.StopWorker(0)) == Stopping(result, P.Stopped, P.Delivered, P.Stopping(false))
    ensures var p := Stopping(result, P.Stopped, P.Delivered, P.Stopping(false));
            P.Enabled(p, P.Gather)
            && P.Do(p, P.Gather) == Stopping(result, P.Stopped, P.Delivered, P.Settling(true, false))
    ensures var p := Stopping(result, P.Stopped, P.Delivered, P.Settling(true, false));
            P.Enabled(p, P.Return)
            && P.Do(p, P.Return) == Stopping(result, P.Stopped, P.Delivered, P.Returned(P.CancelledRun))
  {
  }

  function CancelledOne(result: AttemptResult, pool: P.Pool): Inline {
    InSuiteWith(result.Key(), NewRun().Claimed(0).Saved(result, 0).Finished(Cancelled, None, 0), pool, [Recorded])
      .(requested := true)
  }

  lemma SaveOne(result: AttemptResult)
    requires !result.IsInfraError()
    ensures Reachable([result.Key()],
                      InSuiteWith(result.Key(), NewRun().Claimed(0).Saved(result, 0),
                                  Stopping(result, P.Delivering(0), P.Pending, P.Waiting), [Recorded]))
  {
    var key, run := result.Key(), NewRun().Claimed(0);
    var pool := Stopping(result, P.Delivering(0), P.Pending, P.Waiting);
    AnswerOne(result);
    var s := InSuiteWith(key, run, pool, [Unsaved]);
    Extend([key], s, Save(0, 0));
    assert Do(s, Save(0, 0)) == InSuiteWith(key, run.Saved(result, 0), pool, [Recorded]);
  }

  /** One attempt is saved, then a user cancels, and the pool hears of it. */
  lemma SaveAndCancelOne(result: AttemptResult)
    requires !result.IsInfraError()
    ensures Reachable([result.Key()],
                      CancelledOne(result, Stopping(result, P.Delivering(0), P.Delivered, P.Waiting)))
  {
    var plan, pool := [result.Key()], Stopping(result, P.Delivering(0), P.Pending, P.Waiting);
    SaveOne(result);
    var saved := InSuiteWith(result.Key(), NewRun().Claimed(0).Saved(result, 0), pool, [Recorded]);
    Extend(plan, saved, UserCancel(0));
    Extend(plan, Do(saved, UserCancel(0)), UserStop);
    ExtendPool(plan, CancelledOne(result, pool), P.FinishDelivery(0, true),
               Stopping(result, P.Delivering(0), P.Delivered, P.Waiting));
  }

  lemma StopOne(result: AttemptResult)
    requires !result.IsInfraError()
    ensures Reachable([result.Key()],
                      CancelledOne(result, Stopping(result, P.Stopped, P.Delivered, P.Returned(P.CancelledRun))))
  {
    var plan, delivered := [result.Key()], P.Delivered;
    SaveAndCancelOne(result);
    PoolStopsOne(result);
    var waiting := Stopping(result, P.Delivering(0), delivered, P.Waiting);
    var told := Stopping(result, P.Delivering(0), delivered, P.Stopping(false));
    var stopped := Stopping(result, P.Stopped, delivered, P.Stopping(false));
    var settling := Stopping(result, P.Stopped, delivered, P.Settling(true, false));
    ExtendPool(plan, CancelledOne(result, waiting), P.Interrupt(false), told);
    ExtendPool(plan, CancelledOne(result, told), P.StopWorker(0), stopped);
    ExtendPool(plan, CancelledOne(result, stopped), P.Gather, settling);
    ExtendPool(plan, CancelledOne(result, settling), P.Return,
               Stopping(result, P.Stopped, delivered, P.Returned(P.CancelledRun)));
  }

  /** There is such an execution: what was saved before the cancel is summarized. */
  lemma CancelledIsSummarized(result: AttemptResult) returns (s: Inline)
    requires !result.IsInfraError()
    ensures Reachable([result.Key()], s) && s.stage.Over?
    ensures s.pool.Some? && s.pool.value.phase == P.Returned(P.CancelledRun)
    ensures s.run.status == Cancelled && s.run.rows == map[result.Key() := result]
    ensures s.run.summarized == Some(s.run.rows)
  {
    var plan := [result.Key()];
    StopOne(result);
    var left := CancelledOne(result, Stopping(result, P.Stopped, P.Delivered, P.Returned(P.CancelledRun)));
    Extend(plan, left, Leave);
    Extend(plan, Do(left, Leave), LoadSaved);
    Extend(plan, Do(Do(left, Leave), LoadSaved), SaveSummary(0));
    s := Do(Do(Do(left, Leave), LoadSaved), SaveSummary(0));
  }
}
