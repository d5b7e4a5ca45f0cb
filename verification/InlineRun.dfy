/** The inline backend: one process claims the run, drives `run_suite` over it, records every
    delivered attempt in the store, and saves a summary, while users may cancel and the process
    may shut down at any moment. An execution may start from whatever an earlier, dead one
    left in the store. */
module InlineRun {
  import opened AttemptResults
  import opened RunStore
  import P = WorkerPool

  /** How far `on_result` has come with a delivered result. */
  datatype Record =
    | Unsaved       // about to `save_attempt`
    | MustFail(message: string) // saved an infrastructure error, about to `fail_run`
    | MustStop      // failed the run, about to set the cancel event
    | Recorded

  datatype Stage =
    | Claiming
    | Rebuilding
    | LoadingCompleted
    | InSuite
    | Completing(attempts: Rows)      // about to save `run_suite`'s own summary
    | FinalizeLoading                 // about to read the saved attempts
    | Finalizing(attempts: Rows)      // about to save their summary
    | FailingRun(message: string)     // about to `fail_run`
    | Over

  /** `requested` is the cancel event. `pool` is there from `run_suite` on, and stays: a
      delivery that outlives the call goes on. `shutdown` is a history: the task was cancelled
      from outside. */
  datatype Inline = Inline(
    plan: seq<AttemptKey>,
    run: Run,
    stage: Stage,
    pool: Option<P.Pool>,
    records: seq<Record>,
    requested: bool,
    shutdown: bool)

  datatype Step =
    | ClaimRun(now: int)
    | Rebuild(error: Option<string>)
    | Load(completed: seq<AttemptResult>, concurrency: int)
    | InPool(step: P.Step)
    | Save(index: nat, now: int)
    | FailFrom(index: nat, now: int)
    | StopFrom(index: nat)
    | Leave
    | LoadSaved
    | SaveSummary(now: int)
    | FailRun(now: int)
    | UserCancel(now: int)
    | UserStop
    | Raise       // anything outside `run_suite`, or its own summary, fails
    | Abort       // the task is cancelled there

  /** What a run that an exception fails says of it. */
  const CRASHED := "internal error"

  function RowsOf(results: seq<AttemptResult>): (rows: Rows)
    ensures forall k :: k in rows <==> k in Keys(results)
    ensures forall k :: k in rows ==> rows[k] in results && rows[k].Key() == k
  {
    if results == [] then map[]
    else
      var last := results[|results| - 1];
      assert Keys(results) == Keys(results[..|results| - 1]) + [last.Key()];
      RowsOf(results[..|results| - 1])[last.Key() := last]
  }

  function Begin(plan: seq<AttemptKey>, run: Run): Inline {
    Inline(plan, run, Claiming, None, [], false, false)
  }

  ghost predicate Enabled(s: Inline, step: Step) {
    match step
    case ClaimRun(_) => s.stage.Claiming?
    case Rebuild(_) => s.stage.Rebuilding?
    case Load(completed, _) => s.stage.LoadingCompleted? && IsReading(completed, s.run.rows)
    case InPool(step) =>
      && s.pool.Some? && (s.stage.InSuite? || step.FinishDelivery?) && P.Enabled(s.pool.value, step)
      && (step == P.Interrupt(false) ==> s.requested)
      && (step.FinishDelivery? && step.ok ==> step.index < |s.records| && s.records[step.index].Recorded?)
    case Save(index, _) => Delivering(s, index) && s.records[index].Unsaved?
    case FailFrom(index, _) => Delivering(s, index) && s.records[index].MustFail?
    case StopFrom(index) => Delivering(s, index) && s.records[index].MustStop?
    case Leave => s.stage.InSuite? && s.pool.Some? && s.pool.value.phase.Returned?
    case LoadSaved => s.stage.FinalizeLoading?
    case SaveSummary(_) => s.stage.Completing? || s.stage.Finalizing?
    case FailRun(_) => s.stage.FailingRun?
    case UserCancel(_) => Live(s.run.status)
    case UserStop => s.run.status == Cancelled && !s.requested
    case Raise => Outside(s) && !s.stage.FailingRun?
    case Abort => Outside(s)
  }

  /** Not over, and not inside the pool. */
  predicate Outside(s: Inline) {
    !s.stage.Over? && (s.stage.InSuite? ==> s.pool.Some? && s.pool.value.phase.Returned?)
  }

  ghost predicate Delivering(s: Inline, index: nat) {
    && s.pool.Some?
    && index < |s.records| && index < |s.pool.value.deliveries| && s.pool.value.deliveries[index].Pending?
    && |s.pool.value.completed| + index < |s.pool.value.results|
  }

  function Result(s: Inline, index: nat): AttemptResult
    requires s.pool.Some? && |s.pool.value.completed| + index < |s.pool.value.results|
  {
    s.pool.value.results[|s.pool.value.completed| + index]
  }

  ghost function Do(s: Inline, step: Step): Inline
    requires Enabled(s, step)
  {
    match step
    case ClaimRun(now) =>
      s.(run := s.run.Claimed(now), stage := if Live(s.run.status) then Rebuilding else Over)
    case Rebuild(error) => s.(stage := if error.None? then LoadingCompleted else FailingRun(error.value))
    case Load(completed, concurrency) =>
      var pool := P.Begin(s.plan, completed, concurrency, true);
      s.(pool := pool, records := [], stage := if pool.Some? then InSuite else FailingRun(CRASHED))
    case InPool(step) =>
      s.(pool := Some(P.Do(s.pool.value, step)),
         records := if step.Answer? then s.records + [Unsaved] else s.records,
         shutdown := s.shutdown || FromOutside(step))
    case Save(index, now) =>
      var result := Result(s, index);
      if s.run.status == Running && result.Key() !in s.run.rows
      then s.(run := s.run.Saved(result, now),
          records := s.records[index := if result.IsInfraError() then MustFail(result.error.value.Reason())
                                        else Recorded])
      else s.(records := s.records[index := Recorded])
    case FailFrom(index, now) =>
      s.(run := s.run.Finished(Failed, Some(s.records[index].message), now), records := s.records[index := MustStop])
    case StopFrom(index) => s.(requested := true, records := s.records[index := Recorded])
    case Leave =>
      s.(stage := match s.pool.value.phase.ending
                  case CompletedRun => Completing(RowsOf(s.pool.value.results))
                  case CancelledRun => FinalizeLoading
                  case RaisedRun => FailingRun(CRASHED)
                  case AbortedRun => Over)
    case LoadSaved => s.(stage := Finalizing(s.run.rows))
    case SaveSummary(now) => s.(run := s.run.Summarized(s.stage.attempts, now), stage := Over)
    case FailRun(now) => s.(run := s.run.Finished(Failed, Some(s.stage.message), now), stage := Over)
    case UserCancel(now) => s.(run := s.run.Finished(Cancelled, None, now))
    case UserStop => s.(requested := true)
    case Raise => s.(stage := FailingRun(CRASHED))
    case Abort => s.(stage := Over, shutdown := true)
  }

  predicate FromOutside(step: P.Step) {
    step == P.Interrupt(true) || step.Overtake? || step.Abandon?
  }

  // --- the invariant --------------------------------------------------------------------

  ghost predicate AllSaved(plan: seq<AttemptKey>, run: Run) {
    forall k :: k in plan ==> k in run.rows
  }

  ghost predicate StoreOk(plan: seq<AttemptKey>, run: Run) {
    && Consistent(run)
    && Distinct(plan)
    && (forall k :: k in run.rows ==> k in plan)
    && (run.status == Completed ==> AllSaved(plan, run) && run.summarized == Some(run.rows))
  }

  /** A result whose save has been tried is saved, unless the run had ended. */
  ghost predicate Kept(run: Run, result: AttemptResult) {
    run.Ended() || (result.Key() in run.rows && run.rows[result.Key()] == result)
  }

  ghost predicate PoolOk(plan: seq<AttemptKey>, pool: P.Pool) {
    && P.Inv(pool) && pool.reporting
    && pool.todo == P.Remaining(plan, pool.completed)
    && Distinct(Keys(pool.completed))
    && (forall k :: k in Keys(pool.completed) ==> k in plan)
  }

  /** Every saved row is one of the results, and the resumed results are saved. */
  ghost predicate RowsOk(run: Run, completed: seq<AttemptResult>, results: seq<AttemptResult>) {
    && (forall i :: 0 <= i < |completed| ==>
        completed[i].Key() in run.rows && run.rows[completed[i].Key()] == completed[i])
    && (forall k :: k in run.rows ==> run.rows[k] in results)
  }

  ghost predicate RecordsOk(run: Run, first: nat, results: seq<AttemptResult>, deliveries: seq<P.Delivery>,
                            records: seq<Record>) {
    && |records| == |deliveries| && |results| == first + |records|
    && (forall i :: 0 <= i < |records| ==>
          && (deliveries[i].Delivered? ==> records[i].Recorded?)
          && (!records[i].Unsaved? ==> Kept(run, results[first + i]))
          && (records[i].MustStop? ==> run.Ended()))
  }

  ghost predicate SuiteOk(
      plan: seq<AttemptKey>, run: Run, pool: P.Pool, records: seq<Record>, requested: bool, shutdown: bool)
  {
    && PoolOk(plan, pool)
    && run.status != Queued
    && RowsOk(run, pool.completed, pool.results)
    && RecordsOk(run, |pool.completed|, pool.results, pool.deliveries, records)
    && StopOk(pool.phase, pool.deliveries, requested, shutdown)
  }

  /** Why the pool was stopped, and why deliveries may outlive it. */
  ghost predicate StopOk(phase: P.Phase, deliveries: seq<P.Delivery>, requested: bool, shutdown: bool) {
    match phase
    case Stopping(outer) => if outer then shutdown else requested
    case Settling(stopped, outer) => (outer ==> shutdown) && (stopped && !outer ==> requested)
    case Returned(ending) =>
      && (ending.CancelledRun? ==> requested)
      && (ending.AbortedRun? ==> shutdown)
      && (P.SomePending(deliveries) ==> requested || shutdown)
    case Waiting => true
  }

  ghost predicate StageOk(s: Inline) {
    match s.stage
    case Claiming => s.pool.None?
    case Rebuilding | LoadingCompleted => s.pool.None? && Started(s.run)
    case InSuite => s.pool.Some? && Started(s.run)
    case Completing(attempts) =>
      && Started(s.run)
      && s.pool.Some? && !P.SomePending(s.pool.value.deliveries)
      && (Live(s.run.status) ==> AllSaved(s.plan, s.run) && s.run.rows == attempts)
      && (forall k :: k in attempts <==> k in s.plan)
      && forall k :: k in s.run.rows ==> k in attempts && attempts[k] == s.run.rows[k]
    case FinalizeLoading => Started(s.run) && s.run.Ended()
    case Finalizing(attempts) => Started(s.run) && s.run.Ended() && attempts == s.run.rows
    case FailingRun(_) => true
    case Over => s.run.Ended() || s.shutdown
  }

  predicate Started(run: Run) {
    run.status != Queued && run.status != Completed
  }

  /** Once the pool has returned. */
  predicate Left(s: Inline) {
    s.pool.Some? && s.pool.value.phase.Returned?
  }

  ghost predicate Inv(s: Inline) {
    && StoreOk(s.plan, s.run)
    && StageOk(s)
    && (s.requested ==> s.run.Ended())
    && (s.pool.Some? ==> SuiteOk(s.plan, s.run, s.pool.value, s.records, s.requested, s.shutdown))
    && (s.pool.Some? && !s.stage.InSuite? ==> Left(s))
  }

  lemma BeginInv(plan: seq<AttemptKey>, run: Run)
    requires StoreOk(plan, run)
    ensures Inv(Begin(plan, run))
  {
  }

  /** The results of the pool so far have distinct planned keys. */
  lemma ResultKeys(plan: seq<AttemptKey>, pool: P.Pool)
    requires PoolOk(plan, pool) && Distinct(plan)
    ensures Distinct(Keys(pool.results))
    ensures forall k :: k in Keys(pool.results) ==> k in plan
    ensures pool.phase == P.Returned(P.CompletedRun) ==> multiset(Keys(pool.results)) == multiset(plan) && P.Clean(pool)
  {
    P.PoolResults(pool, plan);
  }

  lemma SameKeySameResult(results: seq<AttemptResult>, a: AttemptResult, b: AttemptResult)
    requires Distinct(Keys(results)) && a in results && b in results && a.Key() == b.Key()
    ensures a == b
  {
    var i :| 0 <= i < |results| && results[i] == a;
    var j :| 0 <= j < |results| && results[j] == b;
    assert Keys(results)[i] == Keys(results)[j];
  }

  lemma ResultHasKey(results: seq<AttemptResult>, r: AttemptResult)
    requires r in results
    ensures r.Key() in Keys(results)
  {
    var i :| 0 <= i < |results| && results[i] == r;
    assert Keys(results)[i] == r.Key();
  }

  /** An update that saves no row keeps what is known of the deliveries. */
  lemma RecordsStay(run: Run, run': Run, first: nat, results: seq<AttemptResult>, deliveries: seq<P.Delivery>,
                    records: seq<Record>)
    requires RecordsOk(run, first, results, deliveries, records) && Forward(run, run')
    ensures RecordsOk(run', first, results, deliveries, records)
  {
    forall i | 0 <= i < |records| && !records[i].Unsaved?
      ensures Kept(run', results[first + i])
    {
      assert Kept(run, results[first + i]);
    }
  }

  lemma RecordMoves(run: Run, first: nat, results: seq<AttemptResult>, deliveries: seq<P.Delivery>,
                    records: seq<Record>,
                    index: nat, next: Record)
    requires RecordsOk(run, first, results, deliveries, records) && index < |records|
    requires !next.Unsaved? ==> Kept(run, results[first + index])
    requires next.MustStop? ==> run.Ended()
    requires deliveries[index].Delivered? ==> next.Recorded?
    ensures RecordsOk(run, first, results, deliveries, records[index := next])
  {
  }

  lemma EndedIsOk(s: Inline, outcome: Status, message: Option<string>, now: int)
    requires Inv(s) && (outcome == Failed || outcome == Cancelled)
    ensures StoreOk(s.plan, s.run.Finished(outcome, message, now))
    ensures Forward(s.run, s.run.Finished(outcome, message, now))
  {
  }

  lemma SaveRun(plan: seq<AttemptKey>, run: Run, completed: seq<AttemptResult>, results: seq<AttemptResult>,
                result: AttemptResult, now: int)
    requires StoreOk(plan, run) && run.status == Running && RowsOk(run, completed, results)
    requires result in results && result.Key() in plan && result.Key() !in run.rows
    ensures StoreOk(plan, run.Saved(result, now)) && RowsOk(run.Saved(result, now), completed, results)
    ensures Forward(run, run.Saved(result, now)) && Kept(run.Saved(result, now), result)
  {
    UpdatesKeepConsistent(run, result, map[], Failed, None, now);
    UpdatesMoveForward(run, result, map[], Failed, None, now);
  }

  /** The result a delivery carries has a planned key, and a row filed under that key is it. */
  lemma DeliveredResult(s: Inline, index: nat)
    requires Inv(s) && Delivering(s, index)
    ensures Result(s, index) in s.pool.value.results && Result(s, index).Key() in s.plan
    ensures Result(s, index).Key() in s.run.rows ==> s.run.rows[Result(s, index).Key()] == Result(s, index)
  {
    var result, pool := Result(s, index), s.pool.value;
    ResultKeys(s.plan, pool);
    ResultHasKey(pool.results, result);
    if result.Key() in s.run.rows {
      SameKeySameResult(pool.results, s.run.rows[result.Key()], result);
    }
  }

  /** A delivery's step: the pool and the stage stay, the run and one record move. */
  lemma DeliveryStepInv(s: Inline, s': Inline)
    requires Inv(s) && s.pool.Some? && P.SomePending(s.pool.value.deliveries)
    requires s' == s.(run := s'.run, records := s'.records)
    requires StoreOk(s.plan, s'.run) && Forward(s.run, s'.run)
    requires (s'.run.status == Completed ==> s.run.status == Completed)
    requires RowsOk(s'.run, s.pool.value.completed, s.pool.value.results)
    requires RecordsOk(s'.run, |s.pool.value.completed|, s.pool.value.results, s.pool.value.deliveries, s'.records)
    ensures Inv(s')
  {
  }

  lemma SaveInv(s: Inline, index: nat, now: int)
    requires Inv(s) && Enabled(s, Save(index, now))
    ensures Inv(Do(s, Save(index, now)))
    ensures Forward(s.run, Do(s, Save(index, now)).run)
  {
    var result, pool, s' := Result(s, index), s.pool.value, Do(s, Save(index, now));
    SavedRun(s, index, now);
    SaveShape(s, index, now);
    RecordsStay(s.run, s'.run, |pool.completed|, pool.results, pool.deliveries, s.records);
    RecordMoves(s'.run, |pool.completed|, pool.results, pool.deliveries, s.records, index, s'.records[index]);
    DeliveryStepInv(s, s');
  }

  lemma SavedRun(s: Inline, index: nat, now: int)
    requires Inv(s) && Enabled(s, Save(index, now))
    ensures var run' := Do(s, Save(index, now)).run;
            && StoreOk(s.plan, run') && Forward(s.run, run') && (run'.status == Completed ==> s.run.status == Completed)
            && RowsOk(run', s.pool.value.completed, s.pool.value.results)
            && Kept(run', Result(s, index))
  {
    DeliveredResult(s, index);
    if s.run.status == Running && Result(s, index).Key() !in s.run.rows {
      SaveRun(s.plan, s.run, s.pool.value.completed, s.pool.value.results, Result(s, index), now);
    } else {
      KeepsRun(s.run, Result(s, index));
    }
  }

  lemma KeepsRun(run: Run, result: AttemptResult)
    requires run.status != Queued
    requires run.status != Running || (result.Key() in run.rows && run.rows[result.Key()] == result)
    ensures Kept(run, result) && Forward(run, run)
  {
  }

  lemma SaveShape(s: Inline, index: nat, now: int)
    requires Enabled(s, Save(index, now))
    ensures var s' := Do(s, Save(index, now));
            s' == s.(run := s'.run, records := s'.records) && s'.records == s.records[index := s'.records[index]]
            && (s'.run == s.run || s'.run == s.run.Saved(Result(s, index), now))
            && !s'.records[index].Unsaved? && !s'.records[index].MustStop?
            && P.SomePending(s.pool.value.deliveries)
  {
  }

  lemma FailFromInv(s: Inline, index: nat, now: int)
    requires Inv(s) && Enabled(s, FailFrom(index, now))
    ensures Inv(Do(s, FailFrom(index, now)))
    ensures Forward(s.run, Do(s, FailFrom(index, now)).run)
  {
    var pool, s' := s.pool.value, Do(s, FailFrom(index, now));
    EndedIsOk(s, Failed, Some(s.records[index].message), now);
    RecordsStay(s.run, s'.run, |pool.completed|, pool.results, pool.deliveries, s.records);
    RecordMoves(s'.run, |pool.completed|, pool.results, pool.deliveries, s.records, index, MustStop);
    DeliveryStepInv(s, s');
  }

  lemma StopFromInv(s: Inline, index: nat)
    requires Inv(s) && Enabled(s, StopFrom(index))
    ensures Inv(Do(s, StopFrom(index)))
  {
    var pool := s.pool.value;
    RecordMoves(s.run, |pool.completed|, pool.results, pool.deliveries, s.records, index, Recorded);
  }

  /** An update of the run from outside the deliveries, which saves no row. */
  lemma UpdateInv(s: Inline, s': Inline)
    requires Inv(s)
    requires s' == s.(run := s'.run, stage := s'.stage)
    requires StoreOk(s.plan, s'.run) && Forward(s.run, s'.run) && s'.run.rows == s.run.rows
    requires StageOk(s') && (s'.stage.InSuite? ==> s.stage.InSuite?)
    requires s.pool.Some? && !s'.stage.InSuite? ==> Left(s)
    ensures Inv(s')
  {
    if s.pool.Some? {
      var pool := s.pool.value;
      RecordsStay(s.run, s'.run, |pool.completed|, pool.results, pool.deliveries, s.records);
    }
  }

  lemma UserCancelInv(s: Inline, now: int)
    requires Inv(s) && Enabled(s, UserCancel(now))
    ensures Inv(Do(s, UserCancel(now)))
    ensures Forward(s.run, Do(s, UserCancel(now)).run)
  {
    EndedIsOk(s, Cancelled, None, now);
    UpdateInv(s, Do(s, UserCancel(now)));
  }

  lemma FailRunInv(s: Inline, now: int)
    requires Inv(s) && Enabled(s, FailRun(now))
    ensures Inv(Do(s, FailRun(now)))
    ensures Forward(s.run, Do(s, FailRun(now)).run)
  {
    EndedIsOk(s, Failed, Some(s.stage.message), now);
    UpdateInv(s, Do(s, FailRun(now)));
  }

  lemma SummarizedOk(plan: seq<AttemptKey>, run: Run, attempts: Rows, now: int)
    requires StoreOk(plan, run) && Started(run)
    requires Live(run.status) ==> AllSaved(plan, run) && run.rows == attempts
    ensures var run' := run.Summarized(attempts, now); StoreOk(plan, run') && Forward(run, run') && run'.Ended()
  {
  }

  lemma SaveSummaryInv(s: Inline, now: int)
    requires Inv(s) && Enabled(s, SaveSummary(now))
    ensures Inv(Do(s, SaveSummary(now)))
    ensures Forward(s.run, Do(s, SaveSummary(now)).run)
  {
    SummarizedOk(s.plan, s.run, s.stage.attempts, now);
    UpdateInv(s, Do(s, SaveSummary(now)));
  }

  lemma LoadInv(s: Inline, completed: seq<AttemptResult>, concurrency: int)
    requires Inv(s) && Enabled(s, Load(completed, concurrency))
    ensures Inv(Do(s, Load(completed, concurrency)))
  {
    var pool := P.Begin(s.plan, completed, concurrency, true);
    if pool.Some? {
      P.BeginInv(s.plan, completed, concurrency, true);
      BeginShape(s.plan, completed, concurrency);
    }
  }

  lemma BeginShape(plan: seq<AttemptKey>, completed: seq<AttemptResult>, concurrency: int)
    requires P.Begin(plan, completed, concurrency, true).Some?
    ensures var pool := P.Begin(plan, completed, concurrency, true).value;
            pool.completed == pool.results == completed && pool.deliveries == [] && pool.phase.Waiting?
            && pool.reporting && pool.todo == P.Remaining(plan, completed)
  {
  }

  /** What a pool's step does to its results, deliveries and phase. */
  lemma PoolStepShape(pool: P.Pool, step: P.Step)
    requires P.Enabled(pool, step) && pool.reporting
    ensures var pool' := P.Do(pool, step);
            && pool'.results == (if step.Answer? then pool.results + [step.result] else pool.results)
            && pool'.deliveries == (match step
                                    case Answer(_, _) => pool.deliveries + [P.Pending]
                                    case FinishDelivery(i, ok) => pool.deliveries[i := if ok then P.Delivered
                                        else P.Raised]
                                    case _ => pool.deliveries)
            && pool'.phase == (match step
                               case Interrupt(outer) => P.Stopping(outer)
                               case Overtake => P.Settling(false, true)
                               case Gather => P.Gathered(pool)
                               case Abandon => P.Returned(P.AbortedRun)
                               case Return => P.Returned(P.EndingOf(pool))
                               case _ => pool.phase)
  {
  }

  lemma PoolStops(pool: P.Pool, step: P.Step, requested: bool, shutdown: bool)
    requires P.Enabled(pool, step) && pool.reporting && StopOk(pool.phase, pool.deliveries, requested, shutdown)
    requires step == P.Interrupt(false) ==> requested
    requires !pool.phase.Returned? || step.FinishDelivery?
    ensures StopOk(P.Do(pool, step).phase, P.Do(pool, step).deliveries, requested, shutdown || FromOutside(step))
  {
    PoolStepShape(pool, step);
    if step.FinishDelivery? {
      FinishedPending(pool.deliveries, step.index, if step.ok then P.Delivered else P.Raised);
    }
  }

  lemma FinishedPending(deliveries: seq<P.Delivery>, i: nat, next: P.Delivery)
    requires i < |deliveries| && !next.Pending?
    ensures P.SomePending(deliveries[i := next]) ==> P.SomePending(deliveries)
  {
    var after := deliveries[i := next];
    if j :| 0 <= j < |after| && after[j].Pending? {
      assert deliveries[j].Pending?;
    }
  }

  lemma InPoolInv(s: Inline, step: P.Step)
    requires Inv(s) && Enabled(s, InPool(step)) && (!s.pool.value.phase.Returned? || step.FinishDelivery?)
    ensures Inv(Do(s, InPool(step)))
  {
    var pool, pool', s' := s.pool.value, P.Do(s.pool.value, step), Do(s, InPool(step));
    assert PoolOk(s.plan, pool') && pool'.completed == pool.completed by {
      P.StepInv(pool, step);
    }
    PoolStepShape(pool, step);
    PoolStops(pool, step, s.requested, s.shutdown);
    PoolStepRecords(s, pool', s'.records, step);
    InPoolStage(s, step);
  }

  lemma InPoolStage(s: Inline, step: P.Step)
    requires Inv(s) && Enabled(s, InPool(step))
    ensures StageOk(Do(s, InPool(step)))
    ensures !s.stage.InSuite? ==> Left(Do(s, InPool(step)))
  {
    assert step.FinishDelivery? ==> P.SomePending(s.pool.value.deliveries);
  }

  /** After the pool has returned, only deliveries go on. */
  lemma ReturnedOnlyDelivers(pool: P.Pool, step: P.Step)
    requires P.Inv(pool) && pool.phase.Returned? && P.Enabled(pool, step)
    ensures step.FinishDelivery?
  {
  }

  lemma PoolStepInv(s: Inline, step: P.Step)
    requires Inv(s) && Enabled(s, InPool(step))
    ensures Inv(Do(s, InPool(step))) && Do(s, InPool(step)).run == s.run
  {
    if s.pool.value.phase.Returned? {
      ReturnedOnlyDelivers(s.pool.value, step);
    }
    InPoolInv(s, step);
  }

  lemma PoolStepRecords(s: Inline, pool': P.Pool, records: seq<Record>, step: P.Step)
    requires Inv(s) && Enabled(s, InPool(step))
    requires pool'.completed == s.pool.value.completed
    requires pool'.results == (if step.Answer? then s.pool.value.results + [step.result] else s.pool.value.results)
    requires pool'.deliveries == match step
                                 case Answer(_, _) => s.pool.value.deliveries + [P.Pending]
                                 case FinishDelivery(i, ok) => s.pool.value.deliveries[i := if ok then P.Delivered
                                     else P.Raised]
                                 case _ => s.pool.value.deliveries
    requires records == if step.Answer? then s.records + [Unsaved] else s.records
    ensures RecordsOk(s.run, |pool'.completed|, pool'.results, pool'.deliveries, records)
  {
    var first, pool := |pool'.completed|, s.pool.value;
    assert RecordsOk(s.run, first, pool.results, pool.deliveries, s.records);
    if step.Answer? {
      RecordsGrow(s.run, first, pool.results, pool.deliveries, s.records, step.result);
    }
  }

  lemma RecordsGrow(run: Run, first: nat, results: seq<AttemptResult>, deliveries: seq<P.Delivery>,
                    records: seq<Record>, result: AttemptResult)
    requires RecordsOk(run, first, results, deliveries, records)
    ensures RecordsOk(run, first, results + [result], deliveries + [P.Pending], records + [Unsaved])
  {
  }

  /** Live at a completed return: every result was saved by its delivery or before. */
  lemma AllKept(s: Inline)
    requires Inv(s) && s.stage.InSuite? && s.pool.value.phase == P.Returned(P.CompletedRun) && Live(s.run.status)
    ensures forall k :: k in Keys(s.pool.value.results) ==> k in s.run.rows
  {
    var pool := s.pool.value;
    ResultKeys(s.plan, pool);
    KeptAll(s.run, pool.completed, pool.results, pool.deliveries, s.records);
  }

  lemma KeptAll(run: Run, completed: seq<AttemptResult>, results: seq<AttemptResult>, deliveries: seq<P.Delivery>,
                records: seq<Record>)
    requires RowsOk(run, completed, results) && RecordsOk(run, |completed|, results, deliveries, records)
    requires completed <= results && Live(run.status)
    requires forall i :: 0 <= i < |deliveries| ==> deliveries[i].Delivered?
    ensures forall k :: k in Keys(results) ==> k in run.rows
  {
    forall k | k in Keys(results)
      ensures k in run.rows
    {
      var i :| 0 <= i < |results| && Keys(results)[i] == k;
      if i < |completed| {
        assert results[i] == completed[i];
      } else {
        var d := i - |completed|;
        assert deliveries[d].Delivered? && records[d].Recorded?;
        assert Kept(run, results[|completed| + d]);
      }
    }
  }

  /** The rows of a live run are exactly what a completed return summarizes. */
  lemma CompletedRows(s: Inline)
    requires Inv(s) && s.stage.InSuite? && s.pool.value.phase == P.Returned(P.CompletedRun)
    ensures forall k :: k in s.run.rows ==>
            k in RowsOf(s.pool.value.results) && RowsOf(s.pool.value.results)[k] == s.run.rows[k]
    ensures Live(s.run.status) ==> AllSaved(s.plan, s.run) && s.run.rows == RowsOf(s.pool.value.results)
    ensures forall k :: k in RowsOf(s.pool.value.results) <==> k in s.plan
  {
    var pool := s.pool.value;
    ResultKeys(s.plan, pool);
    if Live(s.run.status) {
      AllKept(s);
    }
    RowsOfPlan(s.plan, pool.results);
    RowsAreResults(s.plan, s.run, pool.results);
  }

  lemma SameMembers(plan: seq<AttemptKey>, keys: seq<AttemptKey>)
    requires multiset(keys) == multiset(plan)
    ensures forall k :: k in plan ==> k in keys
  {
    forall k | k in plan
      ensures k in keys
    {
      assert multiset(plan)[k] > 0;
      assert multiset(keys)[k] > 0;
    }
  }

  lemma RowsOfPlan(plan: seq<AttemptKey>, results: seq<AttemptResult>)
    requires multiset(Keys(results)) == multiset(plan)
    ensures forall k :: k in RowsOf(results) <==> k in plan
  {
    SameMembers(plan, Keys(results));
    SameMembers(Keys(results), plan);
  }

  lemma RowsAreResults(plan: seq<AttemptKey>, run: Run, results: seq<AttemptResult>)
    requires Distinct(Keys(results)) && Consistent(run) && forall k :: k in run.rows ==> run.rows[k] in results
    requires forall k :: k in RowsOf(results) <==> k in plan
    requires Live(run.status) ==> forall k :: k in Keys(results) ==> k in run.rows
    ensures forall k :: k in run.rows ==> k in RowsOf(results) && RowsOf(results)[k] == run.rows[k]
    ensures Live(run.status) ==> AllSaved(plan, run) && run.rows == RowsOf(results)
  {
    forall k | k in run.rows
      ensures k in RowsOf(results) && RowsOf(results)[k] == run.rows[k]
    {
      RowIsResult(results, run.rows[k]);
    }
    if Live(run.status) {
      SameRows(run.rows, RowsOf(results));
    }
  }

  lemma RowIsResult(results: seq<AttemptResult>, row: AttemptResult)
    requires Distinct(Keys(results)) && row in results
    ensures row.Key() in RowsOf(results) && RowsOf(results)[row.Key()] == row
  {
    ResultHasKey(results, row);
    SameKeySameResult(results, row, RowsOf(results)[row.Key()]);
  }

  lemma SameRows(a: Rows, b: Rows)
    requires forall k :: k in a ==> k in b && b[k] == a[k]
    requires forall k :: k in b ==> k in a
    ensures a == b
  {
    assert a.Keys == b.Keys;
  }

  lemma LeaveInv(s: Inline)
    requires Inv(s) && Enabled(s, Leave)
    ensures Inv(Do(s, Leave))
  {
    if s.pool.value.phase.ending.CompletedRun? {
      CompletedRows(s);
    }
  }

  /** The run row moves on through these steps only. */
  predicate Updates(step: Step) {
    step.ClaimRun? || step.Save? || step.FailFrom? || step.SaveSummary? || step.FailRun? || step.UserCancel?
  }

  lemma ClaimInv(s: Inline, now: int)
    requires Inv(s) && Enabled(s, ClaimRun(now))
    ensures Inv(Do(s, ClaimRun(now)))
    ensures Forward(s.run, Do(s, ClaimRun(now)).run)
  {
    UpdateInv(s, Do(s, ClaimRun(now)));
  }

  lemma UpdatingStepInv(s: Inline, step: Step)
    requires Inv(s) && Enabled(s, step) && Updates(step)
    ensures Inv(Do(s, step))
    ensures Forward(s.run, Do(s, step).run)
  {
    match step
    case ClaimRun(now) => ClaimInv(s, now);
    case Save(index, now) => SaveInv(s, index, now);
    case FailFrom(index, now) => FailFromInv(s, index, now);
    case UserCancel(now) => UserCancelInv(s, now);
    case FailRun(now) => FailRunInv(s, now);
    case SaveSummary(now) => SaveSummaryInv(s, now);
  }

  lemma QuietStepInv(s: Inline, step: Step)
    requires Inv(s) && Enabled(s, step) && !Updates(step)
    ensures Inv(Do(s, step)) && Do(s, step).run == s.run
  {
    match step
    case Load(completed, concurrency) => LoadInv(s, completed, concurrency);
    case InPool(step) => PoolStepInv(s, step);
    case Leave => LeaveInv(s);
    case StopFrom(index) => StopFromInv(s, index);
    case _ =>
  }

  lemma StepInv(s: Inline, step: Step)
    requires Inv(s) && Enabled(s, step)
    ensures Inv(Do(s, step))
    ensures Forward(s.run, Do(s, step).run)
  {
    if Updates(step) {
      UpdatingStepInv(s, step);
    } else {
      QuietStepInv(s, step);
    }
  }

  // --- whole executions -------------------------------------------------------------------

  /** One execution of a run, from whatever the store held when it started. */
  ghost predicate IsExecution(states: seq<Inline>, steps: seq<Step>) {
    && |states| == |steps| + 1
    && StoreOk(states[0].plan, states[0].run)
    && states[0] == Begin(states[0].plan, states[0].run)
    && forall i :: 0 <= i < |steps| ==> Enabled(states[i], steps[i]) && states[i + 1] == Do(states[i], steps[i])
  }

  lemma StepPlan(s: Inline, step: Step)
    requires Enabled(s, step)
    ensures Do(s, step).plan == s.plan
  {
  }

  lemma {:induction false} ExecutionInv(states: seq<Inline>, steps: seq<Step>, i: nat)
    requires IsExecution(states, steps) && i < |states|
    ensures Inv(states[i]) && states[i].plan == states[0].plan
  {
    if i == 0 {
      BeginInv(states[0].plan, states[0].run);
    } else {
      ExecutionInv(states, steps, i - 1);
      StepInv(states[i - 1], steps[i - 1]);
      StepPlan(states[i - 1], steps[i - 1]);
    }
  }

  lemma {:induction false} ExecutionForward(states: seq<Inline>, steps: seq<Step>, i: nat, j: nat)
    requires IsExecution(states, steps) && i <= j < |states|
    ensures Forward(states[i].run, states[j].run)
    decreases j - i
  {
    if i < j {
      ExecutionInv(states, steps, i);
      StepInv(states[i], steps[i]);
      ExecutionForward(states, steps, i + 1, j);
      ForwardIsTransitive(states[i].run, states[i + 1].run, states[j].run);
    }
  }

  /** A completed inline run has every planned attempt saved and a summary of exactly those
      rows; what an execution leaves is again a store an execution may start from. */
  lemma CompletedRunIsWhole(states: seq<Inline>, steps: seq<Step>, i: nat)
    requires IsExecution(states, steps) && i < |states|
    ensures StoreOk(states[0].plan, states[i].run)
    ensures states[i].run.status == Completed ==>
              && states[i].run.rows.Keys == Elements(states[0].plan)
              && states[i].run.summarized == Some(states[i].run.rows)
  {
    ExecutionInv(states, steps, i);
  }

  /** A cancelled or failed execution that goes through `finalize` summarizes exactly the rows
      that are saved then and ever after. */
  lemma FinalizedIsSaved(states: seq<Inline>, steps: seq<Step>, i: nat, j: nat)
    requires IsExecution(states, steps) && i < j < |states|
    requires states[i].stage.Finalizing? && steps[i].SaveSummary?
    ensures states[i + 1].run.summarized == Some(states[j].run.rows)
    ensures states[j].run.Ended()
  {
    ExecutionInv(states, steps, i);
    ExecutionForward(states, steps, i, j);
  }

  /** The summary `run_suite` computed in memory is the saved rows exactly when they are all
      of the plan: always for a live run, but not when a cancel dropped the last saves. */
  lemma MemorySummaryMatches(states: seq<Inline>, steps: seq<Step>, i: nat)
    requires IsExecution(states, steps) && i < |states| && states[i].stage.Completing?
    ensures states[i].stage.attempts == states[i].run.rows <==> AllSaved(states[0].plan, states[i].run)
    ensures Live(states[i].run.status) ==> states[i].stage.attempts == states[i].run.rows
  {
    ExecutionInv(states, steps, i);
    MemoryMatches(states[i].plan, states[i].run, states[i].stage.attempts);
  }

  lemma MemoryMatches(plan: seq<AttemptKey>, run: Run, attempts: Rows)
    requires forall k :: k in attempts <==> k in plan
    requires forall k :: k in run.rows ==> k in attempts && attempts[k] == run.rows[k]
    ensures attempts == run.rows <==> AllSaved(plan, run)
  {
    if AllSaved(plan, run) {
      assert attempts.Keys == run.rows.Keys;
    }
  }

  /** Nothing outside `run_suite` fails, and the task is not cancelled there. */
  predicate Plain(steps: seq<Step>) {
    forall i :: 0 <= i < |steps| ==> !steps[i].Raise? && !steps[i].Abort?
  }

  /** Some such execution of `plan` from a new run comes to `s`. */
  ghost predicate Reachable(plan: seq<AttemptKey>, s: Inline) {
    exists states, steps ::
      IsExecution(states, steps) && Plain(steps) && states[0] == Begin(plan, NewRun()) && states[|steps|] == s
  }

  lemma Extend(plan: seq<AttemptKey>, s: Inline, step: Step)
    requires Reachable(plan, s) && Enabled(s, step) && !step.Raise? && !step.Abort?
    ensures Reachable(plan, Do(s, step))
  {
    var states, steps :|
      IsExecution(states, steps) && Plain(steps) && states[0] == Begin(plan, NewRun()) && states[|steps|] == s;
    var states', steps' := states + [Do(s, step)], steps + [step];
    ExecutionGoesOn(states, steps, s, step);
    assert Plain(steps') && states'[|steps'|] == Do(s, step) && states'[0] == states[0];
  }

  lemma ExecutionGoesOn(states: seq<Inline>, steps: seq<Step>, s: Inline, step: Step)
    requires IsExecution(states, steps) && states[|steps|] == s && Enabled(s, step)
    ensures IsExecution(states + [Do(s, step)], steps + [step])
  {
    var states', steps' := states + [Do(s, step)], steps + [step];
    forall i | 0 <= i < |steps'|
      ensures Enabled(states'[i], steps'[i]) && states'[i + 1] == Do(states'[i], steps'[i])
    {
      if i < |steps| {
        assert states'[i] == states[i] && states'[i + 1] == states[i + 1] && steps'[i] == steps[i];
      }
    }
  }

  function OnePool(key: AttemptKey, queue: seq<AttemptKey>, worker: P.Worker, results: seq<AttemptResult>,
                   deliveries: seq<P.Delivery>, popped: seq<AttemptKey>): P.Pool
  {
    P.Pool([key], [], true, queue, [worker], results, deliveries, false, P.Waiting, popped, [])
  }

  lemma ExtendPool(plan: seq<AttemptKey>, s: Inline, step: P.Step, pool: P.Pool)
    requires Reachable(plan, s) && Enabled(s, InPool(step)) && P.Do(s.pool.value, step) == pool
    requires !step.Answer? && !FromOutside(step)
    ensures Reachable(plan, s.(pool := Some(pool)))
  {
    Extend(plan, s, InPool(step));
  }

  function InSuiteWith(key: AttemptKey, run: Run, pool: P.Pool, records: seq<Record>): Inline {
    Inline([key], run, InSuite, Some(pool), records, false, false)
  }

  lemma PoolBegins(key: AttemptKey)
    ensures P.Begin([key], [], 1, true) == Some(OnePool(key, [key], P.Ready, [], [], []))
  {
    assert [key][1..] == [];
    assert P.Remaining([key], []) == [key] && P.Reversed([key]) == [key];
    assert seq(1, _ => P.Ready) == [P.Ready];
  }

  lemma PoolTakes(key: AttemptKey)
    ensures P.Do(OnePool(key, [key], P.Ready, [], [], []), P.Next(0))
            == OnePool(key, [], P.Attempting(key), [], [], [key])
  {
    assert [key][..0] == [];
    assert [P.Ready][0 := P.Attempting(key)] == [P.Attempting(key)];
  }

  lemma PoolAnswers(key: AttemptKey, result: AttemptResult)
    requires key == result.Key()
    ensures var p := OnePool(key, [], P.Attempting(key), [], [], [key]);
            P.Enabled(p, P.Answer(0, result))
            && P.Do(p, P.Answer(0, result)) == OnePool(key, [], P.Delivering(0), [result], [P.Pending], [key])
  {
  }

  lemma PoolResumes(key: AttemptKey, result: AttemptResult)
    ensures var p := OnePool(key, [], P.Delivering(0), [result], [P.Delivered], [key]);
            P.Do(p, P.Resume(0)) == OnePool(key, [], P.Ready, [result], [P.Delivered], [key])
    ensures var p := OnePool(key, [], P.Ready, [result], [P.Delivered], [key]);
            P.Do(p, P.Next(0)) == OnePool(key, [], P.Finished, [result], [P.Delivered], [key])
  {
  }

  lemma PoolReturns(key: AttemptKey, result: AttemptResult)
    ensures var p := OnePool(key, [], P.Finished, [result], [P.Delivered], [key]);
            P.Do(p, P.Gather) == p.(phase := P.Settling(false, false))
            && P.Do(p.(phase := P.Settling(false, false)), P.Return) == p.(phase := P.Returned(P.CompletedRun))
  {
  }

  lemma LoadOne(key: AttemptKey)
    ensures Reachable([key], InSuiteWith(key, NewRun().Claimed(0), OnePool(key, [key], P.Ready, [], [], []), []))
  {
    var s0 := Begin([key], NewRun());
    assert Reachable([key], s0) by {
      assert IsExecution([s0], []) && Plain([]) && [s0][0] == s0;
    }
    Extend([key], s0, ClaimRun(0));
    var s1 := Do(s0, ClaimRun(0));
    Extend([key], s1, Rebuild(None));
    var s2 := Do(s1, Rebuild(None));
    PoolBegins(key);
    Extend([key], s2, Load([], 1));
  }

  /** A one-attempt run whose attempt has been answered but not saved. */
  lemma AnswerOne(result: AttemptResult)
    ensures var key := result.Key();
            Reachable([key],
                InSuiteWith(key, NewRun().Claimed(0), OnePool(key, [], P.Delivering(0), [result], [P.Pending], [key]),
                    [Unsaved]))
  {
    var key, run := result.Key(), NewRun().Claimed(0);
    LoadOne(key);
    var s0 := InSuiteWith(key, run, OnePool(key, [key], P.Ready, [], [], []), []);
    Extend([key], s0, InPool(P.Next(0)));
    var s1 := InSuiteWith(key, run, OnePool(key, [], P.Attempting(key), [], [], [key]), []);
    PoolTakes(key);
    assert Do(s0, InPool(P.Next(0))) == s1;
    PoolAnswers(key, result);
    Extend([key], s1, InPool(P.Answer(0, result)));
    assert [] + [Unsaved] == [Unsaved];
  }

  /** The user cancels, and the save that comes after it is dropped. */
  lemma DropOne(result: AttemptResult)
    ensures var key := result.Key();
            Reachable([key], InSuiteWith(key, NewRun().Claimed(0).Finished(Cancelled, None, 0),
                                         OnePool(key, [], P.Delivering(0), [result], [P.Pending], [key]), [Recorded]))
  {
    var key, run := result.Key(), NewRun().Claimed(0);
    AnswerOne(result);
    var pool := OnePool(key, [], P.Delivering(0), [result], [P.Pending], [key]);
    var s0 := InSuiteWith(key, run, pool, [Unsaved]);
    Extend([key], s0, UserCancel(0));
    var s1 := InSuiteWith(key, run.Finished(Cancelled, None, 0), pool, [Unsaved]);
    assert Do(s0, UserCancel(0)) == s1;
    Extend([key], s1, Save(0, 0));
  }

  /** The worker goes on, finds the list empty, and the call returns as completed. */
  lemma ReturnOne(key: AttemptKey, run: Run, result: AttemptResult)
    requires Reachable([key],
             InSuiteWith(key, run, OnePool(key, [], P.Delivering(0), [result], [P.Delivered], [key]), [Recorded]))
    ensures Reachable([key],
            InSuiteWith(key, run,
                OnePool(key, [], P.Finished, [result], [P.Delivered], [key]).(phase := P.Returned(P.CompletedRun)),
                    [Recorded]))
  {
    var ready := OnePool(key, [], P.Ready, [result], [P.Delivered], [key]);
    var finished := OnePool(key, [], P.Finished, [result], [P.Delivered], [key]);
    PoolResumes(key, result);
    PoolReturns(key, result);
    ExtendPool([key],
        InSuiteWith(key, run, OnePool(key, [], P.Delivering(0), [result], [P.Delivered], [key]), [Recorded]),
            P.Resume(0), ready);
    ExtendPool([key], InSuiteWith(key, run, ready, [Recorded]), P.Next(0), finished);
    ExtendPool([key], InSuiteWith(key, run, finished, [Recorded]), P.Gather,
        finished.(phase := P.Settling(false, false)));
    ExtendPool([key], InSuiteWith(key, run, finished.(phase := P.Settling(false, false)), [Recorded]), P.Return,
        finished.(phase := P.Returned(P.CompletedRun)));
  }

  /** A user's cancel that lands between the last answer and its save: the save is dropped,
      `run_suite` still returns a completed summary, and the cancelled run's stored summary
      covers an attempt that is not among its saved rows. */
  lemma CancelledSummaryCanExceedRows(result: AttemptResult) returns (s: Inline)
    ensures Reachable([result.Key()], s)
    ensures s.run.status == Cancelled && s.run.rows == map[] && s.run.summarized == Some(map[result.Key() := result])
  {
    var key, run := result.Key(), NewRun().Claimed(0).Finished(Cancelled, None, 0);
    DropOne(result);
    ExtendPool([key],
        InSuiteWith(key, run, OnePool(key, [], P.Delivering(0), [result], [P.Pending], [key]), [Recorded]),
               P.FinishDelivery(0, true), OnePool(key, [], P.Delivering(0), [result], [P.Delivered], [key]));
    ReturnOne(key, run, result);
    var pool := OnePool(key, [], P.Finished, [result], [P.Delivered], [key]).(phase := P.Returned(P.CompletedRun));
    var s0 := InSuiteWith(key, run, pool, [Recorded]);
    Extend([key], s0, Leave);
    assert [result][..0] == [];
    assert RowsOf([result]) == map[key := result];
    Extend([key], Do(s0, Leave), SaveSummary(0));
    s := Do(Do(s0, Leave), SaveSummary(0));
  }
}
