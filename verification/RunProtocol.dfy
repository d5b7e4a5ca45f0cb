/** The Redis backend as a state machine. One run row, its result rows, the queue of jobs, and
    any number of jobs and API calls in progress. Every database transaction and every kick is
    one atomic step; between two steps of a job anything else may happen, including a crash, a
    second delivery of the same message, or the loss of a message. */
module RunProtocol {
  import opened AttemptResults
  import opened RunStore

  datatype Message = StartRun | RunAttempt(key: AttemptKey) | FinalizeRun

  /** Where a job or an API call stands: what it is about to do next. */
  datatype Phase =
    | Done
    | Enqueueing                            // a route or `recover`, about to kick `start_run`
    | KickingCancelled                      // `cancel_run`, committed, about to kick `finalize`
    | Claiming                              // `start_run`
    | Rebuilding                            // `start_run`, claimed: plan, LLM and adapter
    | Reading                               // `start_run`, about to read the saved attempts
    | Kicking(missing: seq<AttemptKey>)     // `start_run`, about to kick these attempts
    | Checking(key: AttemptKey)             // `run_attempt`, about to read the run's status
    | Looking(key: AttemptKey)              // `run_attempt`, about to look for a saved row
    | Executing(key: AttemptKey)            // `run_attempt`, calling the agent
    | Inserting(result: AttemptResult)      // `save_attempt`, about to insert
    | Committing(result: AttemptResult)     // `save_attempt`, holding an uncommitted row
    | FailingRun(message: string, thenFinalize: bool) // about to `fail_run`
    | KickingFinalize                       // about to kick `finalize`
    | Loading                               // `finalize`, about to read the saved attempts
    | Summarizing(attempts: Rows)           // `finalize`, about to save the summary

  /** `source` is the message a worker's job was delivered for; an API call has none. */
  datatype Process = Process(source: Option<Message>, phase: Phase)

  /** `sent` and `completions` are histories: every message ever kicked, and how many saves
      reported that the run is complete. Finished processes keep their place. */
  datatype System = System(
    plan: seq<AttemptKey>,
    run: Run,
    queue: seq<Message>,
    sent: set<Message>,
    processes: seq<Process>,
    completions: nat)

  /** What a process meets at a step that has more than one outcome. */
  datatype Event = Proceed | Unrecoverable(message: string) | Answered(result: AttemptResult)

  datatype Step =
    | Deliver(index: nat)
    | Advance(pid: nat, event: Event, now: int)
    | Cancel(now: int)
    | Recover
    | Crash(pid: nat)
    | Redeliver(message: Message)
    | Lose(index: nat)

  // --- the machine ----------------------------------------------------------------------

  /** A run has been created and its route is about to enqueue it. */
  function Created(plan: seq<AttemptKey>): System {
    System(plan, NewRun(), [], {}, [Process(None, Enqueueing)], 0)
  }

  function InitialPhase(m: Message): Phase {
    match m
    case StartRun => Claiming
    case RunAttempt(key) => Checking(key)
    case FinalizeRun => Loading
  }

  function Kick(s: System, m: Message): System {
    s.(queue := s.queue + [m], sent := s.sent + {m})
  }

  function Move(s: System, pid: nat, phase: Phase): System
    requires pid < |s.processes|
  {
    s.(processes := s.processes[pid := s.processes[pid].(phase := phase)])
  }

  function Without<T>(q: seq<T>, index: nat): seq<T>
    requires index < |q|
  {
    q[..index] + q[index + 1..]
  }

  function Missing(plan: seq<AttemptKey>, rows: Rows): (missing: seq<AttemptKey>)
    ensures forall k :: k in missing <==> k in plan && k !in rows
    ensures |missing| <= |plan|
  {
    if plan == [] then []
    else if plan[0] in rows then Missing(plan[1..], rows)
    else [plan[0]] + Missing(plan[1..], rows)
  }

  predicate HoldsKey(p: Process, key: AttemptKey) {
    p.phase.Committing? && p.phase.result.Key() == key
  }

  /** An insert waits while another transaction holds an uncommitted row for the same key. */
  predicate InsertBlocked(s: System, key: AttemptKey) {
    exists q :: 0 <= q < |s.processes| && HoldsKey(s.processes[q], key)
  }

  predicate CanAdvance(s: System, pid: nat, event: Event) {
    && pid < |s.processes|
    && match s.processes[pid].phase
       case Done => false
       case Rebuilding | Checking(_) | Looking(_) | Loading => event.Proceed? || event.Unrecoverable?
       case Executing(key) => event.Answered? && event.result.Key() == key
       case Inserting(result) => event.Proceed? && !InsertBlocked(s, result.Key())
       case _ => event.Proceed?
  }

  predicate Enabled(s: System, step: Step) {
    match step
    case Deliver(index) => index < |s.queue|
    case Advance(pid, event, _) => CanAdvance(s, pid, event)
    case Cancel(_) => Live(s.run.status)
    case Recover => Live(s.run.status)
    case Crash(pid) => pid < |s.processes| && !s.processes[pid].phase.Done?
    case Redeliver(message) => message in s.sent
    case Lose(index) => index < |s.queue|
  }

  function Do(s: System, step: Step): System
    requires Enabled(s, step)
  {
    match step
    case Deliver(index) =>
      var m := s.queue[index];
      s.(queue := Without(s.queue, index), processes := s.processes + [Process(Some(m), InitialPhase(m))])
    case Advance(pid, event, now) => Act(s, pid, event, now)
    case Cancel(now) =>
      s.(run := s.run.Finished(Cancelled, None, now), processes := s.processes + [Process(None, KickingCancelled)])
    case Recover => s.(processes := s.processes + [Process(None, Enqueueing)])
    case Crash(pid) =>
      var source := s.processes[pid].source;
      Move(s, pid, Done).(queue := if source.Some? then s.queue + [source.value] else s.queue)
    case Redeliver(message) => s.(queue := s.queue + [message])
    case Lose(index) => s.(queue := Without(s.queue, index))
  }

  /** One step of process `pid`: its next transaction or kick, and where it goes from there. */
  function Act(s: System, pid: nat, event: Event, now: int): System
    requires CanAdvance(s, pid, event)
  {
    var phase := s.processes[pid].phase;
    var kicked := Kicks(phase);
    s.(run := NextRun(s.run, phase, now),
       queue := if kicked.Some? then s.queue + [kicked.value] else s.queue,
       sent := if kicked.Some? then s.sent + {kicked.value} else s.sent,
       processes := s.processes[pid := s.processes[pid].(phase := NextPhase(s, phase, event))],
       completions := if phase.Committing? && RecordOutcome(s, phase.result) == CompleteOutcome
                      then s.completions + 1 else s.completions)
  }

  /** The guarded update a phase commits, if any. */
  function NextRun(run: Run, phase: Phase, now: int): Run {
    match phase
    case Claiming => run.Claimed(now)
    case Committing(result) => run.Saved(result, now)
    case FailingRun(message, _) => run.Finished(Failed, Some(message), now)
    case Summarizing(attempts) => run.Summarized(attempts, now)
    case _ => run
  }

  /** The job a phase kicks, if any. */
  function Kicks(phase: Phase): Option<Message> {
    match phase
    case Enqueueing => Some(StartRun)
    case Kicking(missing) => if missing == [] then None else Some(RunAttempt(missing[0]))
    case KickingFinalize | KickingCancelled => Some(FinalizeRun)
    case _ => None
  }

  datatype Outcome = DroppedOutcome | FailedOutcome | CompleteOutcome | SavedOutcome

  /** `record_attempt`: an attempt the commit drops, one that fails the run, the one that
      reaches the total, or any other. */
  function RecordOutcome(s: System, result: AttemptResult): Outcome {
    if s.run.status != Running then DroppedOutcome
    else if result.IsInfraError() then FailedOutcome
    else if s.run.attemptsDone + 1 >= |s.plan| then CompleteOutcome
    else SavedOutcome
  }

  function NextPhase(s: System, phase: Phase, event: Event): Phase {
    match phase
    // start_run
    case Claiming => if Live(s.run.status) then Rebuilding else Done
    case Rebuilding => if event.Unrecoverable? then FailingRun(event.message, false) else Reading
    case Reading =>
      var missing := Missing(s.plan, s.run.rows);
      if missing == [] then KickingFinalize else Kicking(missing)
    case Kicking(missing) => if |missing| <= 1 then Done else Kicking(missing[1..])
    // run_attempt
    case Checking(key) =>
      if event.Unrecoverable? then FailingRun(event.message, true)
      else if s.run.status == Running then Looking(key)
      else Done
    case Looking(key) =>
      if key in s.run.rows then Done
      else if event.Unrecoverable? then FailingRun(event.message, true)
      else Executing(key)
    case Executing(_) => if event.Answered? then Inserting(event.result) else Done
    case Inserting(result) => if result.Key() in s.run.rows then Done else Committing(result)
    case Committing(result) =>
      (match RecordOutcome(s, result)
       case FailedOutcome => FailingRun(result.error.value.Reason(), true)
       case CompleteOutcome => KickingFinalize
       case _ => Done)
    // fail_run, finalize, and everything that ends with a kick
    case FailingRun(_, thenFinalize) => if thenFinalize then KickingFinalize else Done
    case Loading => if event.Unrecoverable? then FailingRun(event.message, false) else Summarizing(s.run.rows)
    case Summarizing(_) | KickingFinalize | KickingCancelled | Enqueueing | Done => Done
  }

  /** Nothing is left to do: no message waits and no process is in progress. */
  ghost predicate Quiescent(s: System) {
    s.queue == [] && forall p :: 0 <= p < |s.processes| ==> s.processes[p].phase.Done?
  }

  // --- the invariant --------------------------------------------------------------------

  ghost predicate AllSaved(s: System) {
    forall k :: k in s.plan ==> k in s.run.rows
  }

  /** No row can be saved any more. */
  ghost predicate Frozen(s: System) {
    s.run.Ended() || AllSaved(s)
  }

  ghost predicate MessageOk(s: System, m: Message) {
    match m
    case StartRun => true
    case RunAttempt(key) => key in s.plan && s.run.status != Queued
    case FinalizeRun => Frozen(s)
  }

  ghost predicate PhaseOk(s: System, phase: Phase) {
    match phase
    case Done | Enqueueing | Claiming | FailingRun(_, _) => true
    case KickingCancelled => s.run.Ended()
    case Rebuilding | Reading => s.run.status != Queued
    case Kicking(missing) =>
      s.run.status != Queued && missing != [] && forall k :: k in missing ==> k in s.plan
    case Checking(key) => s.run.status != Queued && key in s.plan
    case Looking(key) => s.run.status != Queued && key in s.plan
    case Executing(key) => s.run.status != Queued && key in s.plan
    case Inserting(result) => s.run.status != Queued && result.Key() in s.plan
    case Committing(result) =>
      s.run.status != Queued && result.Key() in s.plan && result.Key() !in s.run.rows
    case KickingFinalize | Loading => Frozen(s)
    case Summarizing(attempts) => Frozen(s) && attempts == s.run.rows
  }

  ghost predicate ProcessOk(s: System, p: Process) {
    PhaseOk(s, p.phase) && (p.source.Some? ==> p.source.value in s.sent)
  }

  ghost predicate StoreOk(s: System) {
    && Consistent(s.run)
    && Distinct(s.plan)
    && (forall k :: k in s.run.rows ==> k in s.plan)
    && (s.run.status == Completed ==> AllSaved(s))
    && (s.run.summarized.Some? ==> s.run.summarized.value == s.run.rows)
    && s.completions <= 1
    && (s.completions == 1 ==> s.run.attemptsDone == |s.plan|)
  }

  /** Two transactions never hold an uncommitted row for the same attempt. */
  ghost predicate Exclusive(processes: seq<Process>) {
    forall p, q :: 0 <= p < q < |processes| && processes[p].phase.Committing? && processes[q].phase.Committing? ==>
      processes[p].phase.result.Key() != processes[q].phase.result.Key()
  }

  ghost predicate Inv(s: System) {
    && StoreOk(s)
    && (forall i :: 0 <= i < |s.queue| ==> s.queue[i] in s.sent)
    && (forall m :: m in s.sent ==> MessageOk(s, m))
    && (forall p :: 0 <= p < |s.processes| ==> ProcessOk(s, s.processes[p]))
    && Exclusive(s.processes)
  }

  lemma CreatedInv(plan: seq<AttemptKey>)
    requires Distinct(plan)
    ensures Inv(Created(plan))
  {
  }

  /** Once no row can be saved, a forward move of the run leaves the rows as they are. */
  lemma FrozenRows(s: System, s': System)
    requires Frozen(s) && s'.plan == s.plan && Forward(s.run, s'.run)
    requires forall k :: k in s'.run.rows ==> k in s.plan
    ensures s'.run.rows == s.run.rows && Frozen(s')
  {
    if !s.run.Ended() {
      assert s'.run.rows.Keys == s.run.rows.Keys;
    }
  }

  /** What was known of a message or a process stays true while the run moves forward. */
  lemma StillOk(s: System, s': System)
    requires Inv(s)
    requires s'.plan == s.plan && s.sent <= s'.sent && Forward(s.run, s'.run)
    requires forall k :: k in s'.run.rows ==> k in s.plan
    ensures forall m :: m in s.sent ==> MessageOk(s', m)
    ensures forall p :: 0 <= p < |s.processes| ==>
              (s.processes[p].phase.Committing? ==> s.processes[p].phase.result.Key() !in s'.run.rows) ==>
              ProcessOk(s', s.processes[p])
  {
    if Frozen(s) {
      FrozenRows(s, s');
    }
    forall p | 0 <= p < |s.processes| && (s.processes[p].phase.Committing? ==>
        s.processes[p].phase.result.Key() !in s'.run.rows)
      ensures ProcessOk(s', s.processes[p])
    {
      assert ProcessOk(s, s.processes[p]);
    }
  }

  /** A process that moves on without touching the store. */
  lemma MoveInv(s: System, pid: nat, phase: Phase)
    requires Inv(s) && pid < |s.processes| && PhaseOk(s, phase)
    requires phase.Committing? ==> !InsertBlocked(s, phase.result.Key())
    ensures Inv(Move(s, pid, phase))
  {
    var s' := Move(s, pid, phase);
    StillOk(s, s');
    forall p | 0 <= p < |s'.processes|
      ensures ProcessOk(s', s'.processes[p])
    {
      assert ProcessOk(s, s.processes[p]);
    }
    forall p, q | 0 <= p < q < |s'.processes| && s'.processes[p].phase.Committing? && s'.processes[q].phase.Committing?
      ensures s'.processes[p].phase.result.Key() != s'.processes[q].phase.result.Key()
    {
      if phase.Committing? {
        assert !HoldsKey(s.processes[p], phase.result.Key()) && !HoldsKey(s.processes[q], phase.result.Key());
      }
    }
  }

  lemma KickInv(s: System, m: Message)
    requires Inv(s) && MessageOk(s, m)
    ensures Inv(Kick(s, m))
  {
    StillOk(s, Kick(s, m));
  }

  lemma StartProcessInv(s: System, p: Process)
    requires Inv(s) && ProcessOk(s, p) && !p.phase.Committing?
    ensures Inv(s.(processes := s.processes + [p]))
  {
    StillOk(s, s.(processes := s.processes + [p]));
  }

  /** An update of the run row that saves no new row. */
  lemma UpdateInv(s: System, run: Run)
    requires Inv(s)
    requires Consistent(run) && Forward(s.run, run) && run.rows == s.run.rows
    requires run.status == Completed ==> AllSaved(s)
    requires run.summarized.Some? ==> run.summarized.value == run.rows
    ensures Inv(s.(run := run))
  {
    StillOk(s, s.(run := run));
  }

  lemma FailInv(s: System, outcome: Status, message: Option<string>, now: int)
    requires Inv(s) && (outcome == Failed || outcome == Cancelled)
    ensures Inv(s.(run := s.run.Finished(outcome, message, now)))
    ensures s.run.Finished(outcome, message, now).Ended()
  {
    UpdateInv(s, s.run.Finished(outcome, message, now));
  }

  /** A row is committed: the one new row, counted, by the only process that could save it. */
  lemma SaveRowInv(s: System, result: AttemptResult, now: int, completions: nat)
    requires Inv(s) && s.run.status == Running
    requires result.Key() in s.plan && result.Key() !in s.run.rows && !InsertBlocked(s, result.Key())
    requires completions == s.completions
             || (completions == s.completions + 1 && s.run.attemptsDone + 1 >= |s.plan|)
    ensures Inv(s.(run := s.run.Saved(result, now), completions := completions))
  {
    var run := s.run.Saved(result, now);
    var s' := s.(run := run, completions := completions);
    UpdatesKeepConsistent(s.run, result, map[], Failed, None, now);
    UpdatesMoveForward(s.run, result, map[], Failed, None, now);
    CountBoundsPlan(s, run);
    StillOk(s, s');
    forall p | 0 <= p < |s'.processes|
      ensures ProcessOk(s', s'.processes[p])
    {
      assert !HoldsKey(s.processes[p], result.Key());
      assert ProcessOk(s, s.processes[p]);
    }
  }

  /** `save_attempt`'s commit, with everything `record_attempt` decides from it. */
  lemma CommitStepInv(s: System, pid: nat, event: Event, now: int)
    requires Inv(s) && CanAdvance(s, pid, event) && s.processes[pid].phase.Committing?
    ensures Inv(Act(s, pid, event, now))
  {
    var result := s.processes[pid].phase.result;
    assert PhaseOk(s, s.processes[pid].phase) by { assert ProcessOk(s, s.processes[pid]); }
    MoveInv(s, pid, Done);
    var released, s' := Move(s, pid, Done), Act(s, pid, event, now);
    if s.run.status == Running {
      assert !InsertBlocked(released, result.Key());
      SaveRowInv(released, result, now, s'.completions);
      var saved := released.(run := s'.run, completions := s'.completions);
      var phase := s'.processes[pid].phase;
      assert PhaseOk(saved, phase) by {
        CountBoundsPlan(saved, saved.run);
      }
      MoveInv(saved, pid, phase);
      assert s'.processes == Move(saved, pid, phase).processes;
    }
  }

  /** At most as many rows as planned attempts, and as many only when all are saved. */
  lemma CountBoundsPlan(s: System, run: Run)
    requires Distinct(s.plan) && Consistent(run) && forall k :: k in run.rows ==> k in s.plan
    ensures run.attemptsDone <= |s.plan|
    ensures run.attemptsDone == |s.plan| <==> forall k :: k in s.plan ==> k in run.rows
  {
    DistinctCardinality(s.plan);
    SubsetCardinality(run.rows.Keys, Elements(s.plan));
    if forall k :: k in s.plan ==> k in run.rows {
      assert run.rows.Keys == Elements(s.plan);
    }
    if run.attemptsDone == |s.plan| {
      assert forall k :: k in s.plan ==> k in Elements(s.plan);
    }
  }

  lemma KickStepInv(s: System, pid: nat, event: Event, now: int)
    requires Inv(s) && CanAdvance(s, pid, event)
    requires var phase := s.processes[pid].phase;
             phase.Enqueueing? || phase.KickingCancelled? || phase.KickingFinalize? || phase.Kicking?
    ensures Inv(Act(s, pid, event, now))
  {
    assert ProcessOk(s, s.processes[pid]);
    var phase := s.processes[pid].phase;
    var m := Kicks(phase).value;
    KickInv(s, m);
    MoveInv(Kick(s, m), pid, NextPhase(s, phase, event));
  }

  lemma UpdateStepInv(s: System, pid: nat, event: Event, now: int)
    requires Inv(s) && CanAdvance(s, pid, event)
    requires var phase := s.processes[pid].phase;
             phase.Claiming? || phase.FailingRun? || phase.Summarizing?
    ensures Inv(Act(s, pid, event, now))
  {
    assert ProcessOk(s, s.processes[pid]);
    var s' := Act(s, pid, event, now);
    UpdateInv(s, s'.run);
    MoveInv(s.(run := s'.run), pid, s'.processes[pid].phase);
  }

  lemma ReadStepInv(s: System, pid: nat, event: Event, now: int)
    requires Inv(s) && CanAdvance(s, pid, event)
    requires var phase := s.processes[pid].phase;
             phase.Rebuilding? || phase.Reading? || phase.Checking? || phase.Looking? || phase.Executing?
             || phase.Inserting? || phase.Loading?
    ensures Inv(Act(s, pid, event, now))
  {
    assert ProcessOk(s, s.processes[pid]);
    MoveInv(s, pid, Act(s, pid, event, now).processes[pid].phase);
  }

  lemma ActInv(s: System, pid: nat, event: Event, now: int)
    requires Inv(s) && CanAdvance(s, pid, event)
    ensures Inv(Act(s, pid, event, now))
  {
    match s.processes[pid].phase
    case Committing(_) => CommitStepInv(s, pid, event, now);
    case Enqueueing | KickingCancelled | KickingFinalize | Kicking(_) => KickStepInv(s, pid, event, now);
    case Claiming | FailingRun(_, _) | Summarizing(_) => UpdateStepInv(s, pid, event, now);
    case _ => ReadStepInv(s, pid, event, now);
  }

  /** Every step of every process, and every fault, keeps the invariant. */
  lemma StepInv(s: System, step: Step)
    requires Inv(s) && Enabled(s, step)
    ensures Inv(Do(s, step))
  {
    match step
    case Deliver(index) =>
      var m := s.queue[index];
      QueueInv(s, Without(s.queue, index));
      StartProcessInv(s.(queue := Without(s.queue, index)), Process(Some(m), InitialPhase(m)));
    case Advance(pid, event, now) => ActInv(s, pid, event, now);
    case Cancel(now) =>
      FailInv(s, Cancelled, None, now);
      StartProcessInv(s.(run := s.run.Finished(Cancelled, None, now)), Process(None, KickingCancelled));
    case Recover => StartProcessInv(s, Process(None, Enqueueing));
    case Crash(pid) =>
      assert ProcessOk(s, s.processes[pid]);
      MoveInv(s, pid, Done);
      QueueInv(Move(s, pid, Done), Do(s, step).queue);
    case Redeliver(message) => QueueInv(s, s.queue + [message]);
    case Lose(index) => QueueInv(s, Without(s.queue, index));
  }

  lemma QueueInv(s: System, queue: seq<Message>)
    requires Inv(s) && forall i :: 0 <= i < |queue| ==> queue[i] in s.sent
    ensures Inv(s.(queue := queue))
  {
    StillOk(s, s.(queue := queue));
  }

  /** Every step moves the run forward, and an ended run never moves again. */
  lemma StepForward(s: System, step: Step)
    requires Inv(s) && Enabled(s, step)
    ensures Forward(s.run, Do(s, step).run)
    ensures s.sent <= Do(s, step).sent && s.completions <= Do(s, step).completions
    ensures Do(s, step).plan == s.plan && |s.processes| <= |Do(s, step).processes|
  {
    if step.Advance? && s.processes[step.pid].phase.Committing? {
      assert ProcessOk(s, s.processes[step.pid]);
      UpdatesMoveForward(s.run, s.processes[step.pid].phase.result, map[], Failed, None, step.now);
    }
  }
}
