/** Where the Redis backend's guarantees end, exactly: when the agent can be called for an
    attempt once more, and when a live run is left with nothing that will end it. */
module RunLimits {
  import opened AttemptResults
  import opened RunStore
  import opened RunProtocol
  import opened RunSafety
  import opened RunRecovery

  /** A history from `s`, with any faults. */
  ghost predicate History(s: System, states: seq<System>, steps: seq<Step>) {
    && |states| == |steps| + 1
    && states[0] == s
    && forall i :: 0 <= i < |steps| ==> Enabled(states[i], steps[i]) && states[i + 1] == Do(states[i], steps[i])
  }

  ghost predicate Reaches(s: System, t: System) {
    exists states, steps :: History(s, states, steps) && states[|steps|] == t
  }

  lemma ReachesSelf(s: System)
    ensures Reaches(s, s)
  {
    assert History(s, [s], []);
  }

  lemma ReachesThen(s: System, t: System, step: Step)
    requires Reaches(s, t) && Enabled(t, step)
    ensures Reaches(s, Do(t, step))
  {
    var states, steps :| History(s, states, steps) && states[|steps|] == t;
    var states', steps' := states + [Do(t, step)], steps + [step];
    assert History(s, states', steps') && states'[|steps'|] == Do(t, step);
  }

  // --- calling the agent once more ------------------------------------------------------

  /** Some process that is not now calling the agent for `key`, or saving its answer, comes to
      call it. */
  ghost predicate CanBeCalledAgain(s: System, key: AttemptKey) {
    exists t, pid :: Reaches(s, t) && CallsAnew(s, t, key, pid)
  }

  ghost predicate CallsAnew(s: System, t: System, key: AttemptKey, pid: nat) {
    && pid < |t.processes| && t.processes[pid].phase == Executing(key)
    && (pid < |s.processes| ==> !WorksOn(s.processes[pid], key))
  }

  predicate LooksFor(s: System, key: AttemptKey) {
    exists p :: 0 <= p < |s.processes| && s.processes[p].phase == Looking(key)
  }

  /** A job that has passed the status check still looks for the row, even once the run has
      ended. */
  predicate StillCallable(s: System, key: AttemptKey) {
    key !in s.run.rows && (Live(s.run.status) || LooksFor(s, key))
  }

  lemma CallNeedsLookup(s: System, step: Step, key: AttemptKey, pid: nat)
    requires Enabled(s, step) && !StillCallable(s, key)
    requires pid < |Do(s, step).processes| && (pid < |s.processes| ==> !WorksOn(s.processes[pid], key))
    ensures !WorksOn(Do(s, step).processes[pid], key)
  {
    if pid < |s.processes| && s.processes[pid].phase == Looking(key) {
      assert LooksFor(s, key);
    }
  }

  lemma NotCallableStays(s: System, step: Step, key: AttemptKey)
    requires Inv(s) && Enabled(s, step) && !StillCallable(s, key)
    ensures !StillCallable(Do(s, step), key)
  {
    StepForward(s, step);
  }

  lemma {:induction false} NeverCalledAgain(s: System, states: seq<System>, steps: seq<Step>, i: nat, key: AttemptKey,
                                            pid: nat)
    requires Inv(s) && History(s, states, steps) && i < |states| && !StillCallable(s, key)
    requires pid < |s.processes| ==> !WorksOn(s.processes[pid], key)
    ensures Inv(states[i]) && !StillCallable(states[i], key) && |s.processes| <= |states[i].processes|
    ensures pid < |states[i].processes| ==> !WorksOn(states[i].processes[pid], key)
  {
    if i > 0 {
      NeverCalledAgain(s, states, steps, i - 1, key, pid);
      var t, step := states[i - 1], steps[i - 1];
      StepInv(t, step);
      StepForward(t, step);
      NotCallableStays(t, step, key);
      if pid < |states[i].processes| {
        CallNeedsLookup(t, step, key, pid);
      }
    }
  }

  /** Recovery reaches a state whose last process is reading what is saved. */
  lemma ReachesReading(s: System) returns (t: System)
    requires Inv(s) && Live(s.run.status)
    ensures Reaches(s, t) && Inv(t) && t.run.status == Running && t.run.rows == s.run.rows && t.plan == s.plan
    ensures |t.processes| > |s.processes| && t.processes[|t.processes| - 1].phase == Reading
  {
    ReachesSelf(s);
    var n := |s.processes|;
    var a := Do(s, Recover);
    StepInv(s, Recover);
    ReachesThen(s, s, Recover);
    t := ReachesEnqueued(s, a, n);
  }

  lemma ReachesEnqueued(s: System, a: System, pid: nat) returns (t: System)
    requires Reaches(s, a) && Inv(a) && Live(a.run.status)
    requires pid < |a.processes| && a.processes[pid].phase == Enqueueing
    ensures Reaches(s, t) && Inv(t) && t.run.status == Running && t.run.rows == a.run.rows && t.plan == a.plan
    ensures |t.processes| == |a.processes| + 1 && t.processes[|a.processes|].phase == Reading
  {
    var b := Do(a, Go(pid));
    StepInv(a, Go(pid));
    ReachesThen(s, a, Go(pid));
    t := ReachesStarted(s, b);
  }

  lemma ReachesStarted(s: System, b: System) returns (t: System)
    requires Reaches(s, b) && Inv(b) && Live(b.run.status) && b.queue != [] && b.queue[|b.queue| - 1] == StartRun
    ensures Reaches(s, t) && Inv(t) && t.run.status == Running && t.run.rows == b.run.rows && t.plan == b.plan
    ensures |t.processes| == |b.processes| + 1 && t.processes[|b.processes|].phase == Reading
  {
    var n, deliver := |b.processes|, Deliver(|b.queue| - 1);
    var c := Do(b, deliver);
    StepInv(b, deliver);
    ReachesThen(s, b, deliver);
    t := ReachesClaimed(s, c, n);
  }

  lemma ReachesClaimed(s: System, c: System, pid: nat) returns (t: System)
    requires Reaches(s, c) && Inv(c) && Live(c.run.status) && pid < |c.processes| && c.processes[pid].phase == Claiming
    ensures Reaches(s, t) && Inv(t) && t.run.status == Running && t.run.rows == c.run.rows && t.plan == c.plan
    ensures |t.processes| == |c.processes| && t.processes[pid].phase == Reading
  {
    var d := Do(c, Go(pid));
    StepInv(c, Go(pid));
    ReachesThen(s, c, Go(pid));
    t := Do(d, Go(pid));
    StepInv(d, Go(pid));
    ReachesThen(s, d, Go(pid));
  }

  /** The kicking job comes to the one attempt asked for. */
  lemma {:induction false} ReachesKicked(s: System, b: System, pid: nat, missing: seq<AttemptKey>,
                                         key: AttemptKey) returns (t: System)
    requires Reaches(s, b) && Inv(b) && pid < |b.processes| && b.processes[pid].phase == Kicking(missing)
    requires key in missing
    ensures Reaches(s, t) && Inv(t) && t.run == b.run && t.plan == b.plan && |t.processes| == |b.processes|
    ensures t.queue != [] && t.queue[|t.queue| - 1] == RunAttempt(key)
    decreases |missing|
  {
    var c := Do(b, Go(pid));
    StepInv(b, Go(pid));
    ReachesThen(s, b, Go(pid));
    if missing[0] == key {
      t := c;
    } else {
      t := ReachesKicked(s, c, pid, missing[1..], key);
    }
  }

  lemma ReachesCall(s: System, b: System, key: AttemptKey) returns (t: System)
    requires Reaches(s, b) && Inv(b) && b.run.status == Running && key !in b.run.rows
    requires b.queue != [] && b.queue[|b.queue| - 1] == RunAttempt(key)
    ensures Reaches(s, t) && |t.processes| == |b.processes| + 1 && t.processes[|b.processes|].phase == Executing(key)
  {
    var n, deliver := |b.processes|, Deliver(|b.queue| - 1);
    var c := Do(b, deliver);
    ReachesThen(s, b, deliver);
    var d := Do(c, Go(n));
    ReachesThen(s, c, Go(n));
    t := Do(d, Go(n));
    ReachesThen(s, d, Go(n));
  }

  lemma LiveIsCalled(s: System, key: AttemptKey)
    requires Inv(s) && Live(s.run.status) && key in s.plan && key !in s.run.rows
    ensures CanBeCalledAgain(s, key)
  {
    var a := ReachesReading(s);
    var pid := |a.processes| - 1;
    var b := Do(a, Go(pid));
    StepInv(a, Go(pid));
    ReachesThen(s, a, Go(pid));
    assert key in Missing(a.plan, a.run.rows);
    var c := ReachesKicked(s, b, pid, Missing(a.plan, a.run.rows), key);
    var t := ReachesCall(s, c, key);
    assert CallsAnew(s, t, key, |c.processes|);
  }

  lemma LookerCalls(s: System, key: AttemptKey)
    requires LooksFor(s, key) && key !in s.run.rows
    ensures CanBeCalledAgain(s, key)
  {
    var p: nat :| p < |s.processes| && s.processes[p].phase == Looking(key);
    ReachesSelf(s);
    ReachesThen(s, s, Go(p));
    assert CallsAnew(s, Do(s, Go(p)), key, p);
  }

  /** When the agent can be called for an attempt by a process that is not already at it, once
      more or for the first time: exactly while the attempt is unsaved and the run is live, or
      some job has passed the status check and not looked yet. How often it has been called
      before makes no difference. */
  lemma CalledAgainExactly(s: System, key: AttemptKey)
    requires Inv(s) && key in s.plan
    ensures CanBeCalledAgain(s, key) <==> StillCallable(s, key)
  {
    if StillCallable(s, key) {
      if Live(s.run.status) {
        LiveIsCalled(s, key);
      } else {
        LookerCalls(s, key);
      }
    } else if CanBeCalledAgain(s, key) {
      var t, pid: nat :| Reaches(s, t) && CallsAnew(s, t, key, pid);
      var states, steps :| History(s, states, steps) && states[|steps|] == t;
      NeverCalledAgain(s, states, steps, |steps|, key, pid);
      assert false;
    }
  }

  // --- stranded runs --------------------------------------------------------------------

  /** A live run that nothing will end stays one, whatever its jobs still do. */
  lemma StrandedStays(s: System, step: Step)
    requires Inv(s) && Untroubled(s) && Live(s.run.status) && !Promised(s)
    requires CrashFree(step) && UntroubledStep(step) && Enabled(s, step)
    ensures Live(Do(s, step).run.status) && !Promised(Do(s, step))
  {
    match step
    case Deliver(index) => StrandedDelivers(s, index);
    case Advance(pid, event, now) => StrandedActs(s, pid, event, now);
  }

  /** What makes a live run a stranded one: nothing starts or ends it, and everything is saved
      or some unsaved attempt has no job. */
  ghost predicate Idle(s: System) {
    && (forall i :: 0 <= i < |s.queue| ==> !s.queue[i].StartRun? && !s.queue[i].FinalizeRun?)
    && (forall p :: 0 <= p < |s.processes| ==> !StartPhase(s.processes[p].phase) && !EndPhase(s.processes[p].phase))
  }

  lemma StrandedIsIdle(s: System)
    ensures !Promised(s) <==>
            && Live(s.run.status) && Idle(s)
            && (AllSaved(s) || exists k :: k in s.plan && k !in s.run.rows && !Carried(s, k))
  {
    assert StartRun in s.queue <==> exists i :: 0 <= i < |s.queue| && s.queue[i].StartRun?;
    assert FinalizeRun in s.queue <==> exists i :: 0 <= i < |s.queue| && s.queue[i].FinalizeRun?;
  }

  lemma StrandedDelivers(s: System, index: nat)
    requires Inv(s) && Live(s.run.status) && !Promised(s) && index < |s.queue|
    ensures Live(Do(s, Deliver(index)).run.status) && !Promised(Do(s, Deliver(index)))
  {
    var t, m := Do(s, Deliver(index)), s.queue[index];
    StrandedIsIdle(s);
    StrandedIsIdle(t);
    assert forall i :: 0 <= i < |t.queue| ==> t.queue[i] in s.queue;
    if !AllSaved(s) {
      var k :| k in s.plan && k !in s.run.rows && !Carried(s, k);
      assert !Carried(t, k);
    }
  }

  lemma StrandedActs(s: System, pid: nat, event: Event, now: int)
    requires Inv(s) && Untroubled(s) && Live(s.run.status) && !Promised(s)
    requires CanAdvance(s, pid, event) && UntroubledStep(Advance(pid, event, now))
    ensures Live(Act(s, pid, event, now).run.status) && !Promised(Act(s, pid, event, now))
  {
    var t := Act(s, pid, event, now);
    StrandedIsIdle(s);
    StrandedIsIdle(t);
    IdleStays(s, pid, event, now);
    StepForward(s, Advance(pid, event, now));
    if !AllSaved(s) {
      var k :| k in s.plan && k !in s.run.rows && !Carried(s, k);
      UncarriedStays(s, pid, event, now, k);
    }
  }

  /** Only the save that completes the plan starts an end, and a stranded run has none. */
  lemma NotTheLast(s: System, pid: nat, event: Event, now: int)
    requires Inv(s) && Live(s.run.status) && !Promised(s)
    requires CanAdvance(s, pid, event) && s.processes[pid].phase.Committing? && s.run.status == Running
    ensures s.run.attemptsDone + 1 < |s.plan|
  {
    var t, result := Act(s, pid, event, now), s.processes[pid].phase.result;
    assert ProcessOk(s, s.processes[pid]);
    var k :| k in s.plan && k !in s.run.rows && !Carried(s, k);
    assert !Carries(s.processes[pid].phase, k);
    ActInv(s, pid, event, now);
    CountBoundsPlan(t, t.run);
    assert k !in t.run.rows;
  }

  lemma IdleStays(s: System, pid: nat, event: Event, now: int)
    requires Inv(s) && Untroubled(s) && Live(s.run.status) && !Promised(s) && Idle(s)
    requires CanAdvance(s, pid, event) && UntroubledStep(Advance(pid, event, now))
    ensures Live(Act(s, pid, event, now).run.status) && Idle(Act(s, pid, event, now))
  {
    var phase := s.processes[pid].phase;
    assert ProcessOk(s, s.processes[pid]);
    if phase.Committing? && s.run.status == Running {
      NotTheLast(s, pid, event, now);
    }
    var t := Act(s, pid, event, now);
    assert t.processes[pid].phase == NextPhase(s, phase, event);
  }

  lemma UncarriedStays(s: System, pid: nat, event: Event, now: int, k: AttemptKey)
    requires Inv(s) && Untroubled(s) && CanAdvance(s, pid, event) && UntroubledStep(Advance(pid, event, now))
    requires Idle(s) && k in s.plan && k !in s.run.rows && !Carried(s, k)
    ensures !Carried(Act(s, pid, event, now), k)
  {
    var t := Act(s, pid, event, now);
    assert !Carries(s.processes[pid].phase, k);
    assert !Carries(t.processes[pid].phase, k);
    assert RunAttempt(k) !in t.queue;
  }

  /** A crash-free history in which nothing fails or cancels the run. */
  ghost predicate QuietDrain(s: System, states: seq<System>, steps: seq<Step>) {
    Drain(s, states, steps) && forall k :: 0 <= k < |steps| ==> UntroubledStep(steps[k])
  }

  lemma {:induction false} StrandedForGood(s: System, states: seq<System>, steps: seq<Step>, i: nat)
    requires Inv(s) && Untroubled(s) && Live(s.run.status) && !Promised(s) && QuietDrain(s, states, steps)
    requires i < |states|
    ensures Inv(states[i]) && Live(states[i].run.status) && !Promised(states[i])
  {
    if i > 0 {
      StrandedForGood(s, states, steps, i - 1);
      DrainStaysUntroubled(s, states, steps, i - 1);
      StepInv(states[i - 1], steps[i - 1]);
      StrandedStays(states[i - 1], steps[i - 1]);
    }
  }

  /** Without a recovery a live run ends, if nothing fails or cancels it, exactly when
      something in progress has promised to end it: then every way of working off the jobs
      ends it, and otherwise none does. */
  lemma StrandedExactly(s: System, states: seq<System>, steps: seq<Step>)
    requires Inv(s) && Untroubled(s) && Live(s.run.status)
    requires QuietDrain(s, states, steps) && Quiescent(states[|steps|])
    ensures states[|steps|].run.Ended() <==> Promised(s)
  {
    if Promised(s) {
      DrainKeeps(s, states, steps, |steps|);
      QuiescentHasEnded(states[|steps|]);
    } else {
      StrandedForGood(s, states, steps, |steps|);
    }
  }

  lemma QuietDrainCons(s: System, step: Step, rest: seq<System>, restSteps: seq<Step>)
    requires CrashFree(step) && Enabled(s, step) && UntroubledStep(step) && QuietDrain(Do(s, step), rest, restSteps)
    ensures QuietDrain(s, [s] + rest, [step] + restSteps)
    ensures ([s] + rest)[|restSteps| + 1] == rest[|restSteps|]
  {
    var states, steps := [s] + rest, [step] + restSteps;
    forall i | 0 <= i < |steps|
      ensures CrashFree(steps[i]) && UntroubledStep(steps[i])
      ensures Enabled(states[i], steps[i]) && states[i + 1] == Do(states[i], steps[i])
    {
      if i > 0 {
        assert steps[i] == restSteps[i - 1] && states[i] == rest[i - 1] && states[i + 1] == rest[i];
      }
    }
  }

  /** There is always such a way to work off the jobs. */
  lemma {:induction false} QuietDrainExists(s: System) returns (states: seq<System>, steps: seq<Step>)
    requires Inv(s)
    ensures QuietDrain(s, states, steps) && Quiescent(states[|steps|])
    decreases Measure(s)
  {
    if Quiescent(s) {
      states, steps := [s], [];
    } else {
      var step := NeverStuck(s);
      StepInv(s, step);
      CrashFreeStepsEnd(s, step);
      var rest, restSteps := QuietDrainExists(Do(s, step));
      QuietDrainCons(s, step, rest, restSteps);
      states, steps := [s] + rest, [step] + restSteps;
    }
  }
}
