/** Recovery of the Redis backend: after `recover` has noticed a live run, every crash-free way
    of working off the jobs is finite, never gets stuck, and ends with the run ended. */
module RunRecovery {
  import opened AttemptResults
  import opened RunStore
  import opened RunProtocol

  /** Steps without a fault: deliveries, jobs making progress, and user cancels. */
  predicate CrashFree(step: Step) {
    step.Deliver? || step.Advance? || step.Cancel?
  }

  // --- termination ------------------------------------------------------------------------

  /** How many steps a message or a process can still cause, in a run of `n` planned attempts. */
  function MessageWeight(n: nat, m: Message): nat {
    match m
    case FinalizeRun => 3
    case RunAttempt(_) => 11
    case StartRun => 12 * n + 8
  }

  function PhaseWeight(n: nat, phase: Phase): nat {
    match phase
    case Done => 0
    case Enqueueing => 12 * n + 9
    case Claiming => 12 * n + 7
    case Rebuilding => 12 * n + 6
    case Reading => 12 * n + 5
    case Kicking(missing) => 12 * |missing| + 1
    case Checking(_) => 10
    case Looking(_) => 9
    case Executing(_) => 8
    case Inserting(_) => 7
    case Committing(_) => 6
    case FailingRun(_, thenFinalize) => if thenFinalize then 5 else 1
    case KickingFinalize | KickingCancelled => 4
    case Loading => 2
    case Summarizing(_) => 1
  }

  function QueueWeight(n: nat, queue: seq<Message>): nat {
    if queue == [] then 0 else MessageWeight(n, queue[0]) + QueueWeight(n, queue[1..])
  }

  function ProcessesWeight(n: nat, processes: seq<Process>): nat {
    if processes == [] then 0 else PhaseWeight(n, processes[0].phase) + ProcessesWeight(n, processes[1..])
  }

  function Measure(s: System): nat {
    QueueWeight(|s.plan|, s.queue) + ProcessesWeight(|s.plan|, s.processes) + if Live(s.run.status) then 6 else 0
  }

  lemma {:induction false} QueueWeightConcat(n: nat, a: seq<Message>, b: seq<Message>)
    ensures QueueWeight(n, a + b) == QueueWeight(n, a) + QueueWeight(n, b)
  {
    if a == [] {
      assert a + b == b;
    } else {
      assert (a + b)[1..] == a[1..] + b;
      QueueWeightConcat(n, a[1..], b);
    }
  }

  lemma {:induction false} ProcessesWeightConcat(n: nat, a: seq<Process>, b: seq<Process>)
    ensures ProcessesWeight(n, a + b) == ProcessesWeight(n, a) + ProcessesWeight(n, b)
  {
    if a == [] {
      assert a + b == b;
    } else {
      assert (a + b)[1..] == a[1..] + b;
      ProcessesWeightConcat(n, a[1..], b);
    }
  }

  lemma QueueWeightRemove(n: nat, queue: seq<Message>, index: nat)
    requires index < |queue|
    ensures QueueWeight(n, queue) == QueueWeight(n, Without(queue, index)) + MessageWeight(n, queue[index])
  {
    assert queue == queue[..index] + ([queue[index]] + queue[index + 1..]);
    QueueWeightConcat(n, queue[..index], [queue[index]] + queue[index + 1..]);
    QueueWeightConcat(n, [queue[index]], queue[index + 1..]);
    QueueWeightConcat(n, queue[..index], queue[index + 1..]);
  }

  lemma QueueWeightAppend(n: nat, queue: seq<Message>, m: Message)
    ensures QueueWeight(n, queue + [m]) == QueueWeight(n, queue) + MessageWeight(n, m)
  {
    QueueWeightConcat(n, queue, [m]);
  }

  lemma ProcessesWeightMove(n: nat, processes: seq<Process>, pid: nat, p: Process)
    requires pid < |processes|
    ensures ProcessesWeight(n, processes[pid := p]) + PhaseWeight(n, processes[pid].phase)
         == ProcessesWeight(n, processes) + PhaseWeight(n, p.phase)
  {
    var before, after := processes[..pid], processes[pid + 1..];
    assert processes == before + ([processes[pid]] + after);
    assert processes[pid := p] == before + ([p] + after);
    ProcessesWeightConcat(n, before, [processes[pid]] + after);
    ProcessesWeightConcat(n, before, [p] + after);
    ProcessesWeightConcat(n, [processes[pid]], after);
    ProcessesWeightConcat(n, [p], after);
  }

  /** Every crash-free step lowers the measure, a user's cancel included. */
  lemma CrashFreeStepsEnd(s: System, step: Step)
    requires Inv(s) && Enabled(s, step) && CrashFree(step)
    ensures Measure(Do(s, step)) < Measure(s)
  {
    var n := |s.plan|;
    match step
    case Deliver(index) =>
      var m := s.queue[index];
      QueueWeightRemove(n, s.queue, index);
      ProcessesWeightConcat(n, s.processes, [Process(Some(m), InitialPhase(m))]);
      assert ProcessesWeight(n, [Process(Some(m), InitialPhase(m))]) == PhaseWeight(n, InitialPhase(m));
    case Advance(pid, event, now) => ActLowers(s, pid, event, now);
    case Cancel(now) => ProcessesWeightConcat(n, s.processes, [Process(None, KickingCancelled)]);
  }

  /** A phase outweighs the phase it moves to together with the message it kicks. */
  lemma PhaseLowers(s: System, phase: Phase, event: Event)
    requires PhaseOk(s, phase) && !phase.Done?
    ensures PhaseWeight(|s.plan|, phase)
            > PhaseWeight(|s.plan|, NextPhase(s, phase, event))
              + if Kicks(phase).Some? then MessageWeight(|s.plan|, Kicks(phase).value) else 0
  {
  }

  lemma ActLowers(s: System, pid: nat, event: Event, now: int)
    requires Inv(s) && CanAdvance(s, pid, event)
    ensures Measure(Act(s, pid, event, now)) < Measure(s)
  {
    var n, s', phase := |s.plan|, Act(s, pid, event, now), s.processes[pid].phase;
    assert ProcessOk(s, s.processes[pid]);
    PhaseLowers(s, phase, event);
    ProcessesWeightMove(n, s.processes, pid, s'.processes[pid]);
    if Kicks(phase).Some? {
      QueueWeightAppend(n, s.queue, Kicks(phase).value);
    }
  }

  // --- no deadlock ------------------------------------------------------------------------

  /** Unless nothing is left to do, some crash-free step can be taken: a job waiting to insert
      is only ever held up by a job that can itself move. */
  lemma NeverStuck(s: System) returns (step: Step)
    requires Inv(s) && !Quiescent(s)
    ensures CrashFree(step) && Enabled(s, step) && UntroubledStep(step)
  {
    if s.queue != [] {
      step := Deliver(0);
    } else {
      var p: nat :| p < |s.processes| && !s.processes[p].phase.Done?;
      match s.processes[p].phase
      case Executing(key) => step := Advance(p, Answered(AnyResult(key)), 0);
      case Inserting(result) =>
        if InsertBlocked(s, result.Key()) {
          var q: nat :| q < |s.processes| && HoldsKey(s.processes[q], result.Key());
          step := Advance(q, Proceed, 0);
        } else {
          step := Advance(p, Proceed, 0);
        }
      case _ => step := Advance(p, Proceed, 0);
    }
  }

  function AnyResult(key: AttemptKey): AttemptResult {
    AttemptResult(key.caseId, key.attempt, AttemptPassed, None, [], None, None, None, None, None, 0.0, 0)
  }

  // --- what carries the run to its end ----------------------------------------------------

  /** A `start_run` that has not read the saved attempts yet. */
  ghost predicate StartPending(s: System) {
    || StartRun in s.queue
    || exists p :: 0 <= p < |s.processes| && StartPhase(s.processes[p].phase)
  }

  predicate StartPhase(phase: Phase) {
    phase.Enqueueing? || phase.Claiming? || phase.Rebuilding? || phase.Reading?
  }

  /** A message or a process that will save `key`, or see that it is saved. */
  ghost predicate Carried(s: System, key: AttemptKey) {
    || RunAttempt(key) in s.queue
    || exists p :: 0 <= p < |s.processes| && Carries(s.processes[p].phase, key)
  }

  predicate Carries(phase: Phase, key: AttemptKey) {
    match phase
    case Kicking(missing) => key in missing
    case Checking(k) => k == key
    case Looking(k) => k == key
    case Executing(k) => k == key
    case Inserting(result) => result.Key() == key
    case Committing(result) => result.Key() == key
    case _ => false
  }

  /** A message or a process that will end the run. */
  ghost predicate EndPending(s: System) {
    || FinalizeRun in s.queue
    || exists p :: 0 <= p < |s.processes| && EndPhase(s.processes[p].phase)
  }

  predicate EndPhase(phase: Phase) {
    phase.KickingFinalize? || phase.Loading? || phase.Summarizing? || phase.FailingRun?
  }

  /** The run has ended, or something in progress will end it. */
  ghost predicate Promised(s: System) {
    || s.run.Ended()
    || StartPending(s)
    || EndPending(s)
    || (!AllSaved(s) && forall k :: k in s.plan && k !in s.run.rows ==> Carried(s, k))
  }

  /** What carried the run at a process that did not move, or in the queue, still does. */
  lemma Undisturbed(s: System, pid: nat, event: Event, now: int)
    requires Inv(s) && CanAdvance(s, pid, event)
    ensures var s' := Act(s, pid, event, now);
            && (forall m :: m in s.queue ==> m in s'.queue)
            && (forall p :: 0 <= p < |s.processes| && p != pid ==> s'.processes[p] == s.processes[p])
            && (forall k :: k in s.run.rows ==> k in s'.run.rows)
            && (Kicks(s.processes[pid].phase).Some? ==> Kicks(s.processes[pid].phase).value in s'.queue)
  {
    StepForward(s, Advance(pid, event, now));
  }

  lemma StartKeepsPromise(s: System, pid: nat, event: Event, now: int)
    requires Inv(s) && CanAdvance(s, pid, event) && StartPending(s)
    ensures Promised(Act(s, pid, event, now))
  {
    Undisturbed(s, pid, event, now);
    var s', phase := Act(s, pid, event, now), s.processes[pid].phase;
    if StartRun !in s.queue {
      var p :| 0 <= p < |s.processes| && StartPhase(s.processes[p].phase);
      assert s'.processes[pid].phase == NextPhase(s, phase, event);
      if p != pid {
        assert StartPhase(s'.processes[p].phase);
      } else if phase.Reading? && !AllSaved(s) {
        assert Missing(s.plan, s.run.rows) != [];
        forall k | k in s'.plan && k !in s'.run.rows
          ensures Carried(s', k)
        {
          assert Carries(s'.processes[pid].phase, k);
        }
      } else {
        var missing := Missing(s.plan, s.run.rows);
        assert phase.Reading? && missing != [] ==> missing[0] in missing;
        var next := s'.processes[pid].phase;
        assert s'.run.Ended() || phase.Enqueueing? || StartPhase(next) || EndPhase(next);
      }
    }
  }

  lemma EndKeepsPromise(s: System, pid: nat, event: Event, now: int)
    requires Inv(s) && CanAdvance(s, pid, event) && EndPending(s)
    ensures Promised(Act(s, pid, event, now))
  {
    Undisturbed(s, pid, event, now);
    var s' := Act(s, pid, event, now);
    if FinalizeRun !in s.queue {
      var p :| 0 <= p < |s.processes| && EndPhase(s.processes[p].phase);
      assert s'.processes[pid].phase == NextPhase(s, s.processes[pid].phase, event);
      if p != pid {
        assert EndPhase(s'.processes[p].phase);
      }
    }
  }

  /** An unsaved attempt that something carried is still carried, or a failure is pending. */
  lemma CarriedKeepsPromise(s: System, pid: nat, event: Event, now: int, key: AttemptKey)
    requires Inv(s) && CanAdvance(s, pid, event) && Live(s.run.status) && Carried(s, key)
    requires key in s.plan && key !in Act(s, pid, event, now).run.rows
    ensures Carried(Act(s, pid, event, now), key) || EndPending(Act(s, pid, event, now))
  {
    Undisturbed(s, pid, event, now);
    var s' := Act(s, pid, event, now);
    if RunAttempt(key) !in s.queue {
      var p :| 0 <= p < |s.processes| && Carries(s.processes[p].phase, key);
      assert ProcessOk(s, s.processes[p]);
      assert s'.processes[pid].phase == NextPhase(s, s.processes[pid].phase, event);
      if p != pid {
        assert Carries(s'.processes[p].phase, key);
      } else {
        var next := s'.processes[pid].phase;
        assert Carries(next, key) || EndPhase(next) || RunAttempt(key) in s'.queue;
      }
    }
  }

  /** The save that leaves nothing unsaved makes its own job end the run. */
  lemma LastSaveEnds(s: System, pid: nat, event: Event, now: int)
    requires Inv(s) && CanAdvance(s, pid, event) && Live(s.run.status)
    requires !AllSaved(s) && AllSaved(Act(s, pid, event, now))
    ensures EndPending(Act(s, pid, event, now))
  {
    var s', phase := Act(s, pid, event, now), s.processes[pid].phase;
    assert phase.Committing? && s.run.status == Running;
    assert ProcessOk(s, s.processes[pid]);
    ActInv(s, pid, event, now);
    CountBoundsPlan(s', s'.run);
    assert EndPhase(s'.processes[pid].phase);
  }

  lemma ActKeepsPromise(s: System, pid: nat, event: Event, now: int)
    requires Inv(s) && CanAdvance(s, pid, event) && Promised(s)
    ensures Promised(Act(s, pid, event, now))
  {
    var s' := Act(s, pid, event, now);
    StepForward(s, Advance(pid, event, now));
    if s'.run.Ended() {
    } else if StartPending(s) {
      StartKeepsPromise(s, pid, event, now);
    } else if EndPending(s) {
      EndKeepsPromise(s, pid, event, now);
    } else if AllSaved(s') {
      LastSaveEnds(s, pid, event, now);
    } else if !EndPending(s') {
      forall k | k in s'.plan && k !in s'.run.rows
        ensures Carried(s', k)
      {
        CarriedKeepsPromise(s, pid, event, now, k);
      }
    }
  }

  lemma DeliverKeepsPromise(s: System, index: nat)
    requires Inv(s) && index < |s.queue| && Promised(s)
    ensures Promised(Do(s, Deliver(index)))
  {
    var s', m := Do(s, Deliver(index)), s.queue[index];
    var last := |s.processes|;
    assert s'.processes[last] == Process(Some(m), InitialPhase(m));
    assert forall p :: 0 <= p < last ==> s'.processes[p] == s.processes[p];
    forall o | o in s.queue && o != m
      ensures o in s'.queue
    {
      var i :| 0 <= i < |s.queue| && s.queue[i] == o;
      assert i < index ==> s'.queue[i] == o;
      assert i > index ==> s'.queue[i - 1] == o;
    }
    if !s.run.Ended() && !StartPending(s) && !EndPending(s) {
      forall k | k in s'.plan && k !in s'.run.rows
        ensures Carried(s', k)
      {
        assert Carried(s, k);
        assert m == RunAttempt(k) ==> Carries(s'.processes[last].phase, k);
      }
    }
  }

  lemma StepKeepsPromise(s: System, step: Step)
    requires Inv(s) && Enabled(s, step) && CrashFree(step) && Promised(s)
    ensures Promised(Do(s, step))
  {
    match step
    case Deliver(index) => DeliverKeepsPromise(s, index);
    case Advance(pid, event, now) => ActKeepsPromise(s, pid, event, now);
    case Cancel(now) =>
  }

  // --- the theorems -----------------------------------------------------------------------

  /** A crash-free history from `s`: any order of deliveries, jobs and cancels. */
  ghost predicate Drain(s: System, states: seq<System>, steps: seq<Step>) {
    && |states| == |steps| + 1
    && states[0] == s
    && forall i :: 0 <= i < |steps| ==>
         CrashFree(steps[i]) && Enabled(states[i], steps[i]) && states[i + 1] == Do(states[i], steps[i])
  }

  lemma {:induction false} DrainKeeps(s: System, states: seq<System>, steps: seq<Step>, i: nat)
    requires Inv(s) && Promised(s) && Drain(s, states, steps) && i < |states|
    ensures Inv(states[i]) && Promised(states[i])
    ensures Measure(states[i]) + i <= Measure(s)
  {
    if i > 0 {
      DrainKeeps(s, states, steps, i - 1);
      StepInv(states[i - 1], steps[i - 1]);
      StepKeepsPromise(states[i - 1], steps[i - 1]);
      CrashFreeStepsEnd(states[i - 1], steps[i - 1]);
    }
  }

  /** Noticing a live run is a promise to end it, whatever the crash left behind. */
  lemma RecoverPromises(s: System)
    requires Inv(s) && Live(s.run.status)
    ensures Inv(Do(s, Recover)) && Promised(Do(s, Recover))
  {
    StepInv(s, Recover);
    assert StartPhase(Do(s, Recover).processes[|s.processes|].phase);
  }

  /** From any state a crash may leave, once `recover` has noticed the run: a crash-free
      history is never longer than the measure, it can be continued until nothing is left to
      do, and when nothing is left to do the run has ended. */
  lemma RecoveryEndsTheRun(s: System, states: seq<System>, steps: seq<Step>)
    requires Inv(s) && Live(s.run.status) && Drain(Do(s, Recover), states, steps)
    ensures |steps| <= Measure(Do(s, Recover))
    ensures Quiescent(states[|steps|]) ==> states[|steps|].run.Ended()
    ensures !Quiescent(states[|steps|]) ==> exists step :: CrashFree(step) && Enabled(states[|steps|], step)
  {
    RecoverPromises(s);
    var last := states[|steps|];
    DrainKeeps(Do(s, Recover), states, steps, |steps|);
    if Quiescent(last) {
      QuiescentHasEnded(last);
    } else {
      var step := NeverStuck(last);
    }
  }

  lemma QuiescentHasEnded(s: System)
    requires Promised(s) && Quiescent(s)
    ensures s.run.Ended()
  {
  }

  /** So the run does end: any crash-free start can be drained to an ended run. */
  lemma {:induction false} CanBeDrained(s: System) returns (states: seq<System>, steps: seq<Step>)
    requires Inv(s) && Promised(s)
    ensures Drain(s, states, steps) && Quiescent(states[|steps|]) && states[|steps|].run.Ended()
    decreases Measure(s)
  {
    if Quiescent(s) {
      states, steps := [s], [];
      QuiescentHasEnded(s);
    } else {
      var step := NeverStuck(s);
      StepInv(s, step);
      StepKeepsPromise(s, step);
      CrashFreeStepsEnd(s, step);
      var rest, restSteps := CanBeDrained(Do(s, step));
      states, steps := [s] + rest, [step] + restSteps;
    }
  }

  /** A run that never meets a crash needs no recovery. */
  lemma CreationPromises(plan: seq<AttemptKey>)
    requires Distinct(plan)
    ensures Inv(Created(plan)) && Promised(Created(plan))
  {
    CreatedInv(plan);
    assert StartPhase(Created(plan).processes[0].phase);
  }

  /** Nothing that fails or cancels the run has happened or is under way. */
  ghost predicate Untroubled(s: System) {
    && s.run.status != Failed && s.run.status != Cancelled
    && forall p :: 0 <= p < |s.processes| ==> UntroubledPhase(s.processes[p].phase)
  }

  predicate UntroubledPhase(phase: Phase) {
    match phase
    case FailingRun(_, _) => false
    case Inserting(result) => !result.IsInfraError()
    case Committing(result) => !result.IsInfraError()
    case _ => true
  }

  predicate UntroubledStep(step: Step) {
    && !step.Cancel?
    && (step.Advance? && step.event.Answered? ==> !step.event.result.IsInfraError())
    && (step.Advance? ==> !step.event.Unrecoverable?)
  }

  lemma {:induction false} DrainStaysUntroubled(s: System, states: seq<System>, steps: seq<Step>, i: nat)
    requires Untroubled(s) && Drain(s, states, steps) && i < |states|
    requires forall k :: 0 <= k < |steps| ==> UntroubledStep(steps[k])
    ensures Untroubled(states[i])
  {
    if i > 0 {
      DrainStaysUntroubled(s, states, steps, i - 1);
    }
  }

  /** If no attempt meets an infrastructure error, nothing is unrecoverable and nobody
      cancels, a recovered run ends completed, with every planned attempt saved and counted,
      and with a summary of exactly those. */
  lemma RecoveryCompletesTheRun(s: System, states: seq<System>, steps: seq<Step>)
    requires Inv(s) && Live(s.run.status) && Untroubled(s)
    requires Drain(Do(s, Recover), states, steps) && Quiescent(states[|steps|])
    requires forall k :: 0 <= k < |steps| ==> UntroubledStep(steps[k])
    ensures var run := states[|steps|].run;
            && run.status == Completed
            && run.rows.Keys == Elements(s.plan)
            && run.attemptsDone == |s.plan|
            && run.summarized == Some(run.rows)
  {
    RecoverPromises(s);
    var last := states[|steps|];
    DrainKeeps(Do(s, Recover), states, steps, |steps|);
    DrainStaysUntroubled(Do(s, Recover), states, steps, |steps|);
    DrainPlan(Do(s, Recover), states, steps, |steps|);
    CountBoundsPlan(last, last.run);
  }

  lemma {:induction false} DrainPlan(s: System, states: seq<System>, steps: seq<Step>, i: nat)
    requires Inv(s) && Promised(s) && Drain(s, states, steps) && i < |states|
    ensures states[i].plan == s.plan
  {
    if i > 0 {
      DrainPlan(s, states, steps, i - 1);
      StepPlan(states[i - 1], steps[i - 1]);
    }
  }

  lemma StepPlan(s: System, step: Step)
    requires Enabled(s, step)
    ensures Do(s, step).plan == s.plan
  {
  }
}
