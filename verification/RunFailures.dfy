/** How a run of the Redis backend fails, and that what was saved is summarized all the same:
    an infrastructure error or an unrecoverable job fails the run and kicks `finalize`, and
    nothing but a `start_run` that is still on its way can get ahead of it. */
module RunFailures {
  import opened AttemptResults
  import opened RunStore
  import opened RunProtocol
  import opened RunSafety
  import opened RunRecovery
  import opened RunLimits

  // --- one process, step by step ----------------------------------------------------------

  predicate Touches(step: Step, pid: nat) {
    (step.Advance? && step.pid == pid) || (step.Crash? && step.pid == pid)
  }

  /** Step `k` is what process `pid` does next after step `i`: it does not crash. */
  ghost predicate GoesOn(steps: seq<Step>, pid: nat, i: nat, k: nat) {
    && i < k < |steps| && steps[k].Advance? && steps[k].pid == pid
    && forall j :: i < j < k ==> !Touches(steps[j], pid)
  }

  lemma OthersLeaveAlone(s: System, step: Step, pid: nat)
    requires Enabled(s, step) && pid < |s.processes| && !Touches(step, pid)
    ensures pid < |Do(s, step).processes| && Do(s, step).processes[pid] == s.processes[pid]
  {
  }

  lemma {:induction false} StaysPut(states: seq<System>, steps: seq<Step>, pid: nat, i: nat, k: nat)
    requires IsRun(states, steps) && i < k < |states| && pid < |states[i + 1].processes|
    requires forall j :: i < j < k ==> !Touches(steps[j], pid)
    ensures pid < |states[k].processes| && states[k].processes[pid] == states[i + 1].processes[pid]
  {
    if i + 1 < k {
      StaysPut(states, steps, pid, i, k - 1);
      OthersLeaveAlone(states[k - 1], steps[k - 1], pid);
    }
  }

  // --- failing ------------------------------------------------------------------------------

  /** A job commits the row of an infrastructure error while the run is running. */
  ghost predicate CommitsInfraError(s: System, step: Step) {
    && step.Advance? && Enabled(s, step) && s.run.status == Running
    && s.processes[step.pid].phase.Committing? && s.processes[step.pid].phase.result.IsInfraError()
  }

  /** A job cannot rebuild the plan, the LLM or the adapter. */
  ghost predicate GivesUp(s: System, step: Step) {
    step.Advance? && Enabled(s, step) && step.event.Unrecoverable?
  }

  /** `run_attempt` gives up, and not `start_run` or `finalize`. If it finds the row it looks
      for, it has no need of what it cannot rebuild. */
  ghost predicate AttemptGivesUp(s: System, step: Step) {
    && GivesUp(s, step)
    && (s.processes[step.pid].phase.Checking? || s.processes[step.pid].phase.Looking?)
    && (s.processes[step.pid].phase.Looking? ==> s.processes[step.pid].phase.key !in s.run.rows)
  }

  ghost predicate Fails(s: System, step: Step) {
    || CommitsInfraError(s, step)
    || AttemptGivesUp(s, step)
    || (GivesUp(s, step) && (s.processes[step.pid].phase.Rebuilding? || s.processes[step.pid].phase.Loading?))
  }

  ghost function Reason(s: System, step: Step): string
    requires Fails(s, step)
  {
    if CommitsInfraError(s, step)
    then s.processes[step.pid].phase.result.error.value.Reason()
    else step.event.message
  }

  /** The commit itself saves the row like any other, and does not count as the last one. */
  lemma InfraErrorIsSaved(s: System, step: Step)
    requires Inv(s) && CommitsInfraError(s, step)
    ensures var result, t := s.processes[step.pid].phase.result, Do(s, step);
            && t.run.rows == s.run.rows[result.Key() := result]
            && t.run.attemptsDone == s.run.attemptsDone + 1
            && t.run.status == Running
            && t.completions == s.completions
  {
  }

  /** Whatever fails a run, and whatever happens in between: unless the job that met it
      crashes, its next step leaves no live run, and one that was still live is failed for
      that reason. */
  lemma FailureIsRecorded(states: seq<System>, steps: seq<Step>, i: nat, k: nat)
    requires IsRun(states, steps) && i < |steps| && Fails(states[i], steps[i]) && GoesOn(steps, steps[i].pid, i, k)
    ensures states[k + 1].run.Ended()
    ensures Live(states[k].run.status) ==>
              states[k + 1].run.status == Failed && states[k + 1].run.error == Some(Reason(states[i], steps[i]))
    ensures states[k + 1].run.rows == states[k].run.rows
  {
    StaysPut(states, steps, steps[i].pid, i, k);
  }

  /** Then an attempt's job kicks `finalize`, and any other is done. */
  lemma FailureIsFinalized(states: seq<System>, steps: seq<Step>, i: nat, k: nat)
    requires IsRun(states, steps) && i < |steps| && Fails(states[i], steps[i]) && GoesOn(steps, steps[i].pid, i, k)
    ensures CommitsInfraError(states[i], steps[i]) || AttemptGivesUp(states[i], steps[i]) ==>
              forall m: nat :: GoesOn(steps, steps[i].pid, k, m) ==>
                states[m + 1].queue == states[m].queue + [FinalizeRun]
    ensures !(CommitsInfraError(states[i], steps[i]) || AttemptGivesUp(states[i], steps[i])) ==>
              states[k + 1].processes[steps[i].pid].phase.Done?
  {
    var pid := steps[i].pid;
    StaysPut(states, steps, pid, i, k);
    if CommitsInfraError(states[i], steps[i]) || AttemptGivesUp(states[i], steps[i]) {
      forall m: nat | GoesOn(steps, pid, k, m)
        ensures states[m + 1].queue == states[m].queue + [FinalizeRun]
      {
        StaysPut(states, steps, pid, k, m);
      }
    }
  }

  // --- an infrastructure error on the last attempt --------------------------------------------

  /** Nothing on its way can complete the run. */
  predicate NoFinalize(s: System) {
    && (forall i :: 0 <= i < |s.queue| ==> !s.queue[i].FinalizeRun?)
    && (forall p :: 0 <= p < |s.processes| ==>
          var phase := s.processes[p].phase;
          !phase.KickingFinalize? && !phase.KickingCancelled? && !phase.Loading? && !phase.Summarizing?)
  }

  predicate NoStart(s: System) {
    && (forall i :: 0 <= i < |s.queue| ==> !s.queue[i].StartRun?)
    && (forall p :: 0 <= p < |s.processes| ==> !StartPhase(s.processes[p].phase))
  }

  predicate SomeoneFails(s: System) {
    exists p :: 0 <= p < |s.processes| && s.processes[p].phase.FailingRun?
  }

  /** A run that can only fail. */
  ghost predicate Doomed(s: System) {
    || s.run.status == Failed
    || (s.run.status == Running && AllSaved(s) && NoStart(s) && NoFinalize(s) && SomeoneFails(s))
  }

  lemma NothingToCommit(s: System, p: nat)
    requires Inv(s) && AllSaved(s) && p < |s.processes|
    ensures !s.processes[p].phase.Committing?
  {
    assert ProcessOk(s, s.processes[p]);
  }

  lemma DoomedActs(s: System, pid: nat, event: Event, now: int)
    requires Inv(s) && Doomed(s) && CanAdvance(s, pid, event)
    ensures Doomed(Act(s, pid, event, now))
  {
    if s.run.status == Running && !s.processes[pid].phase.FailingRun? {
      NothingToCommit(s, pid);
      assert ProcessOk(s, s.processes[pid]);
      var t := Act(s, pid, event, now);
      assert t.processes[pid].phase == NextPhase(s, s.processes[pid].phase, event);
      var p :| 0 <= p < |s.processes| && s.processes[p].phase.FailingRun?;
      assert t.processes[p].phase.FailingRun?;
    }
  }

  lemma DoomedDelivers(s: System, index: nat)
    requires Doomed(s) && index < |s.queue|
    ensures Doomed(Do(s, Deliver(index)))
  {
    if s.run.status == Running {
      var t := Do(s, Deliver(index));
      assert forall i :: 0 <= i < |t.queue| ==> t.queue[i] in s.queue;
      var p :| 0 <= p < |s.processes| && s.processes[p].phase.FailingRun?;
      assert t.processes[p].phase.FailingRun?;
    }
  }

  /** A crash-free history in which no user cancels. */
  ghost predicate PlainDrain(s: System, states: seq<System>, steps: seq<Step>) {
    Drain(s, states, steps) && forall k :: 0 <= k < |steps| ==> !steps[k].Cancel?
  }

  lemma {:induction false} DoomedForGood(s: System, states: seq<System>, steps: seq<Step>, i: nat)
    requires Inv(s) && Doomed(s) && PlainDrain(s, states, steps) && i < |states|
    ensures Inv(states[i]) && Doomed(states[i])
  {
    if i > 0 {
      DoomedForGood(s, states, steps, i - 1);
      StepInv(states[i - 1], steps[i - 1]);
      match steps[i - 1]
      case Deliver(index) => DoomedDelivers(states[i - 1], index);
      case Advance(pid, event, now) => DoomedActs(states[i - 1], pid, event, now);
    }
  }

  lemma LastErrorDooms(s: System, step: Step)
    requires Inv(s) && CommitsInfraError(s, step) && AllSaved(Do(s, step)) && !StartPending(Do(s, step))
    ensures Doomed(Do(s, step))
  {
    var t := Do(s, step);
    assert ProcessOk(s, s.processes[step.pid]);
    assert !Frozen(s);
    forall p | 0 <= p < |t.processes|
      ensures var phase := t.processes[p].phase;
              !phase.KickingFinalize? && !phase.KickingCancelled? && !phase.Loading? && !phase.Summarizing?
    {
      assert ProcessOk(s, s.processes[p]);
    }
    forall i | 0 <= i < |t.queue|
      ensures !t.queue[i].FinalizeRun? && !t.queue[i].StartRun?
    {
      assert MessageOk(s, s.queue[i]);
    }
    assert t.processes[step.pid].phase.FailingRun?;
  }

  ghost predicate CanComplete(s: System) {
    exists states: seq<System>, steps: seq<Step> :: QuietDrain(s, states, steps) && Quiescent(states[|steps|])
                            && states[|steps|].run.status == Completed
  }

  lemma CompletesLater(s: System, step: Step)
    requires CrashFree(step) && Enabled(s, step) && UntroubledStep(step) && CanComplete(Do(s, step))
    ensures CanComplete(s)
  {
    var rest: seq<System>, restSteps: seq<Step> :| QuietDrain(Do(s, step), rest, restSteps)
                           && Quiescent(rest[|restSteps|])
                           && rest[|restSteps|].run.status == Completed;
    QuietDrainCons(s, step, rest, restSteps);
    var states, steps := [s] + rest, [step] + restSteps;
    assert Quiescent(states[|steps|]) && states[|steps|].run.status == Completed;
  }

  lemma {:induction false} CompletedStays(s: System, states: seq<System>, steps: seq<Step>, i: nat)
    requires Inv(s) && s.run.status == Completed && Drain(s, states, steps) && i < |states|
    ensures Inv(states[i]) && states[i].run.status == Completed
  {
    if i > 0 {
      CompletedStays(s, states, steps, i - 1);
      StepInv(states[i - 1], steps[i - 1]);
      StepForward(states[i - 1], steps[i - 1]);
    }
  }

  /** How far a process is from completing a run whose attempts are all saved. */
  function Distance(phase: Phase): nat {
    match phase
    case Summarizing(_) => 1
    case Loading => 2
    case KickingFinalize => 4
    case Reading => 5
    case Rebuilding => 6
    case Claiming => 7
    case _ => 9
  }

  predicate WouldComplete(phase: Phase) {
    StartPhase(phase) || phase.KickingFinalize? || phase.Loading? || phase.Summarizing?
  }

  lemma {:induction false} NothingMissing(plan: seq<AttemptKey>, rows: Rows)
    requires forall k :: k in plan ==> k in rows
    ensures Missing(plan, rows) == []
  {
    if plan != [] {
      NothingMissing(plan[1..], rows);
    }
  }

  lemma ComesNearer(s: System, p: nat)
    requires s.run.status == Running && AllSaved(s)
    requires p < |s.processes|
    requires var phase := s.processes[p].phase;
             phase.Claiming? || phase.Rebuilding? || phase.Reading? || phase.Loading?
    ensures var t := Do(s, Go(p));
            && t.run.status == Running && t.run.rows == s.run.rows && t.plan == s.plan
            && |t.processes| == |s.processes| && WouldComplete(t.processes[p].phase)
            && Distance(t.processes[p].phase) < Distance(s.processes[p].phase)
  {
    NothingMissing(s.plan, s.run.rows);
  }

  lemma {:induction false} ProcessCompletes(s: System, p: nat)
    requires Inv(s) && s.run.status == Running && AllSaved(s)
    requires p < |s.processes| && WouldComplete(s.processes[p].phase)
    ensures CanComplete(s)
    decreases Distance(s.processes[p].phase)
  {
    var phase, t := s.processes[p].phase, Do(s, Go(p));
    StepInv(s, Go(p));
    if phase.Summarizing? {
      var states, steps := QuietDrainExists(t);
      CompletedStays(t, states, steps, |steps|);
    } else if phase.KickingFinalize? || phase.Enqueueing? {
      MessageCompletes(t, |s.queue|, Distance(phase) - 1);
    } else {
      ComesNearer(s, p);
      ProcessCompletes(t, p);
    }
    CompletesLater(s, Go(p));
  }

  lemma {:induction false} MessageCompletes(s: System, index: nat, n: nat)
    requires Inv(s) && s.run.status == Running && AllSaved(s)
    requires index < |s.queue| && Distance(InitialPhase(s.queue[index])) < n
    requires s.queue[index].StartRun? || s.queue[index].FinalizeRun?
    ensures CanComplete(s)
    decreases n
  {
    var t := Do(s, Deliver(index));
    StepInv(s, Deliver(index));
    assert t.processes[|s.processes|].phase == InitialPhase(s.queue[index]);
    ProcessCompletes(t, |s.processes|);
    CompletesLater(s, Deliver(index));
  }

  /** After an infrastructure error on the last attempt to be saved: every way of working off
      the jobs, if nobody cancels and nothing crashes, ends with the run failed, exactly if no
      `start_run` is on its way. One that is finds nothing missing, and can have the run
      finalized as completed before the failure is recorded. */
  lemma LastErrorFailsExactly(s: System, step: Step)
    requires Inv(s) && CommitsInfraError(s, step) && AllSaved(Do(s, step))
    ensures (forall states: seq<System>, steps: seq<Step> ::
               PlainDrain(Do(s, step), states, steps) && Quiescent(states[|steps|]) ==>
               states[|steps|].run.status == Failed)
       <==> !StartPending(Do(s, step))
  {
    var t := Do(s, step);
    StepInv(s, step);
    if !StartPending(t) {
      LastErrorDooms(s, step);
      forall states: seq<System>, steps: seq<Step> | PlainDrain(t, states, steps) && Quiescent(states[|steps|])
        ensures states[|steps|].run.status == Failed
      {
        DoomedForGood(t, states, steps, |steps|);
      }
    } else {
      if i: nat :| i < |t.queue| && t.queue[i] == StartRun {
        MessageCompletes(t, i, 8);
      } else {
        var p: nat :| p < |t.processes| && StartPhase(t.processes[p].phase);
        ProcessCompletes(t, p);
      }
      var states: seq<System>, steps: seq<Step> :| QuietDrain(t, states, steps) && Quiescent(states[|steps|])
                           && states[|steps|].run.status == Completed;
      assert PlainDrain(t, states, steps);
    }
  }

  // --- what was saved is summarized ------------------------------------------------------------

  predicate SummaryPhase(phase: Phase) {
    || phase.KickingFinalize? || phase.KickingCancelled? || phase.Loading? || phase.Summarizing?
    || (phase.FailingRun? && phase.thenFinalize)
  }

  /** A summary is stored, or something on its way will store one. */
  ghost predicate SummaryPromised(s: System) {
    || s.run.summarized.Some?
    || FinalizeRun in s.queue
    || exists p :: 0 <= p < |s.processes| && SummaryPhase(s.processes[p].phase)
  }

  /** `finalize` can always load the plan. */
  ghost predicate FinalizeLoads(states: seq<System>, steps: seq<Step>)
    requires |states| == |steps| + 1
  {
    forall i :: 0 <= i < |steps| && GivesUp(states[i], steps[i]) ==> !states[i].processes[steps[i].pid].phase.Loading?
  }

  lemma SummaryJobGoesOn(s: System, pid: nat, event: Event, now: int)
    requires Inv(s) && CanAdvance(s, pid, event) && SummaryPhase(s.processes[pid].phase)
    requires event.Unrecoverable? ==> !s.processes[pid].phase.Loading?
    ensures SummaryPromised(Act(s, pid, event, now))
  {
    var t, phase := Act(s, pid, event, now), s.processes[pid].phase;
    assert t.processes[pid].phase == NextPhase(s, phase, event);
    if phase.KickingFinalize? || phase.KickingCancelled? {
      assert t.queue[|s.queue|] == FinalizeRun;
    }
  }

  lemma SummaryActs(s: System, pid: nat, event: Event, now: int)
    requires Inv(s) && SummaryPromised(s) && CanAdvance(s, pid, event)
    requires event.Unrecoverable? ==> !s.processes[pid].phase.Loading?
    ensures SummaryPromised(Act(s, pid, event, now))
  {
    var t := Act(s, pid, event, now);
    Undisturbed(s, pid, event, now);
    if SummaryPhase(s.processes[pid].phase) {
      SummaryJobGoesOn(s, pid, event, now);
    } else if p: nat :| p < |s.processes| && SummaryPhase(s.processes[p].phase) {
      assert t.processes[p] == s.processes[p];
    } else if s.run.summarized.Some? {
      StepForward(s, Advance(pid, event, now));
    }
  }

  lemma SummaryDelivers(s: System, index: nat)
    requires SummaryPromised(s) && index < |s.queue|
    ensures SummaryPromised(Do(s, Deliver(index)))
  {
    var t, m := Do(s, Deliver(index)), s.queue[index];
    assert t.processes[|s.processes|] == Process(Some(m), InitialPhase(m));
    if p: nat :| p < |s.processes| && SummaryPhase(s.processes[p].phase) {
      assert t.processes[p] == s.processes[p];
    } else if i: nat :| i < |s.queue| && s.queue[i] == FinalizeRun {
      assert i < index ==> t.queue[i] == FinalizeRun;
      assert i > index ==> t.queue[i - 1] == FinalizeRun;
    }
  }

  lemma SummaryStaysPromised(s: System, step: Step)
    requires Inv(s) && SummaryPromised(s) && CrashFree(step) && Enabled(s, step)
    requires GivesUp(s, step) ==> !s.processes[step.pid].phase.Loading?
    ensures SummaryPromised(Do(s, step))
  {
    match step
    case Deliver(index) => SummaryDelivers(s, index);
    case Advance(pid, event, now) => SummaryActs(s, pid, event, now);
    case Cancel(_) => assert SummaryPhase(Do(s, step).processes[|s.processes|].phase);
  }

  lemma {:induction false} DrainKeepsSummary(s: System, states: seq<System>, steps: seq<Step>, i: nat)
    requires Inv(s) && SummaryPromised(s) && Drain(s, states, steps) && FinalizeLoads(states, steps) && i < |states|
    ensures Inv(states[i]) && SummaryPromised(states[i])
  {
    if i > 0 {
      DrainKeepsSummary(s, states, steps, i - 1);
      StepInv(states[i - 1], steps[i - 1]);
      SummaryStaysPromised(states[i - 1], steps[i - 1]);
    }
  }

  /** A cancel, an attempt's failure, or the save of the last missing attempt. */
  ghost predicate CallsForSummary(s: System, step: Step) {
    || (step.Cancel? && Enabled(s, step))
    || CommitsInfraError(s, step)
    || AttemptGivesUp(s, step)
    || (Enabled(s, step) && Live(s.run.status) && !AllSaved(s) && AllSaved(Do(s, step)))
  }

  lemma SummaryIsPromised(s: System, step: Step)
    requires Inv(s) && CallsForSummary(s, step)
    ensures SummaryPromised(Do(s, step))
  {
    var t := Do(s, step);
    if step.Cancel? {
      assert SummaryPhase(t.processes[|s.processes|].phase);
    } else if CommitsInfraError(s, step) || AttemptGivesUp(s, step) {
      assert SummaryPhase(t.processes[step.pid].phase);
    } else {
      assert step.Advance?;
      assert ProcessOk(s, s.processes[step.pid]);
      StepInv(s, step);
      CountBoundsPlan(t, t.run);
      assert SummaryPhase(t.processes[step.pid].phase);
    }
  }

  /** However a run comes to its end, what was saved of it is summarized: after a cancel, an
      attempt's failure or the last save, working off the jobs, in any order and with whatever
      further cancels and failures, leaves a summary of exactly the saved rows, if `finalize`
      can load the plan and nothing crashes. */
  lemma WhatWasSavedIsSummarized(s: System, step: Step, states: seq<System>, steps: seq<Step>)
    requires Inv(s) && CallsForSummary(s, step)
    requires Drain(Do(s, step), states, steps) && FinalizeLoads(states, steps) && Quiescent(states[|steps|])
    ensures states[|steps|].run.summarized == Some(states[|steps|].run.rows)
    ensures states[|steps|].run.Ended()
  {
    StepInv(s, step);
    SummaryIsPromised(s, step);
    DrainKeepsSummary(Do(s, step), states, steps, |steps|);
    QuiescentIsSummarized(states[|steps|]);
  }

  lemma QuiescentIsSummarized(s: System)
    requires Inv(s) && SummaryPromised(s) && Quiescent(s)
    ensures s.run.summarized == Some(s.run.rows) && s.run.Ended()
  {
  }
}
