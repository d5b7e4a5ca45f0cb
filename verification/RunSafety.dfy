/** What holds over whole runs of the Redis backend, whatever the interleaving, however often a
    message is delivered, and wherever a process dies. */
module RunSafety {
  import opened AttemptResults
  import opened RunStore
  import opened RunProtocol

  /** `states` is what a created run goes through while `steps` are taken one after another. */
  ghost predicate IsRun(states: seq<System>, steps: seq<Step>) {
    && |states| == |steps| + 1
    && Distinct(states[0].plan)
    && states[0] == Created(states[0].plan)
    && forall i :: 0 <= i < |steps| ==> Enabled(states[i], steps[i]) && states[i + 1] == Do(states[i], steps[i])
  }

  lemma {:induction false} RunInv(states: seq<System>, steps: seq<Step>, i: nat)
    requires IsRun(states, steps) && i < |states|
    ensures Inv(states[i]) && states[i].plan == states[0].plan
  {
    if i == 0 {
      CreatedInv(states[0].plan);
    } else {
      RunInv(states, steps, i - 1);
      StepInv(states[i - 1], steps[i - 1]);
      StepForward(states[i - 1], steps[i - 1]);
    }
  }

  /** The count is the number of saved rows, every row is a planned attempt filed under its
      own key, an ended run and only an ended run has a finish time, and a completed run has
      every planned attempt. */
  lemma CountsAndRows(states: seq<System>, steps: seq<Step>, i: nat)
    requires IsRun(states, steps) && i < |states|
    ensures var s := states[i];
            && s.run.attemptsDone == |s.run.rows|
            && s.run.attemptsDone <= |s.plan|
            && (forall k :: k in s.run.rows ==> k in s.plan && s.run.rows[k].Key() == k)
            && (s.run.finishedAt.Some? <==> s.run.Ended())
            && (s.run.status == Completed ==> s.run.rows.Keys == Elements(s.plan))
  {
    RunInv(states, steps, i);
    CountBoundsPlan(states[i], states[i].run);
  }

  /** Between any two moments the run only moves forward: saved rows stay as they were saved,
      and a terminal status, its error and its finish time never change. */
  lemma {:induction false} RunForward(states: seq<System>, steps: seq<Step>, i: nat, j: nat)
    requires IsRun(states, steps) && i <= j < |states|
    ensures Forward(states[i].run, states[j].run)
    ensures states[i].sent <= states[j].sent && states[i].completions <= states[j].completions
    ensures |states[i].processes| <= |states[j].processes|
    decreases j - i
  {
    RunInv(states, steps, i);
    if i < j {
      RunForward(states, steps, i + 1, j);
      StepForward(states[i], steps[i]);
      ForwardIsTransitive(states[i].run, states[i + 1].run, states[j].run);
    }
  }

  ghost predicate FinalizeInvolved(s: System, pid: int) {
    0 <= pid < |s.processes| &&
    (s.processes[pid].phase.Loading? || s.processes[pid].phase.Summarizing? || s.processes[pid].phase.KickingFinalize?)
  }

  /** From the moment a `finalize` has been kicked, or is about to be, no row is ever saved
      again, so every delivery of it loads the same attempts. */
  lemma FinalizeSeesFrozenRows(states: seq<System>, steps: seq<Step>, i: nat, j: nat)
    requires IsRun(states, steps) && i <= j < |states|
    requires FinalizeRun in states[i].sent || exists pid :: FinalizeInvolved(states[i], pid)
    ensures states[i].run.Ended() || states[i].run.rows.Keys == Elements(states[i].plan)
    ensures states[j].run.rows == states[i].run.rows
    ensures forall pid :: 0 <= pid < |states[j].processes| && states[j].processes[pid].phase.Summarizing? ==>
              states[j].processes[pid].phase.attempts == states[i].run.rows
  {
    RunInv(states, steps, i);
    RunInv(states, steps, j);
    RunForward(states, steps, i, j);
    FinalizeMeansFrozen(states[i]);
    FrozenRows(states[i], states[j]);
    forall pid | 0 <= pid < |states[j].processes| && states[j].processes[pid].phase.Summarizing?
      ensures states[j].processes[pid].phase.attempts == states[i].run.rows
    {
      assert ProcessOk(states[j], states[j].processes[pid]);
    }
  }

  lemma FinalizeMeansFrozen(s: System)
    requires Inv(s)
    requires FinalizeRun in s.sent || exists pid :: FinalizeInvolved(s, pid)
    ensures Frozen(s) && (s.run.Ended() || s.run.rows.Keys == Elements(s.plan))
  {
    if FinalizeRun in s.sent {
      assert MessageOk(s, FinalizeRun);
    } else {
      var pid :| FinalizeInvolved(s, pid);
      assert ProcessOk(s, s.processes[pid]);
    }
  }

  /** A stored summary covers exactly the rows saved then and ever after, so repeated
      `finalize` jobs store a summary of the same attempts. */
  lemma OneSummary(states: seq<System>, steps: seq<Step>, i: nat, j: nat)
    requires IsRun(states, steps) && i <= j < |states|
    requires states[i].run.summarized.Some?
    ensures states[j].run.summarized == states[i].run.summarized == Some(states[j].run.rows)
    ensures states[i].run.Ended()
  {
    RunInv(states, steps, i);
    RunInv(states, steps, j);
    RunForward(states, steps, i, j);
  }

  /** The broker's own steps move messages, and nothing else: a delivery starts a job with what
      it takes from the queue, a crash puts its job's message back, and neither they nor a
      repeated or lost message touches the run. */
  lemma BrokerMovesMessages(s: System, step: Step)
    requires Enabled(s, step) && !step.Advance? && !step.Cancel?
    ensures var t := Do(s, step);
            && t.run == s.run && t.plan == s.plan && t.sent == s.sent && t.completions == s.completions
            && (step.Deliver? ==>
                  && multiset(t.queue) + multiset{s.queue[step.index]} == multiset(s.queue)
                  && |t.processes| == |s.processes| + 1 && t.processes[..|s.processes|] == s.processes
                  && t.processes[|s.processes|].source == Some(s.queue[step.index]))
            && (step.Crash? ==>
                  var source := s.processes[step.pid].source;
                  && t.queue == s.queue + (if source.Some? then [source.value] else [])
                  && t.processes == s.processes[step.pid := Process(source, Done)])
            && (step.Redeliver? ==> t == s.(queue := s.queue + [step.message]))
            && (step.Lose? ==>
                  && multiset(t.queue) + multiset{s.queue[step.index]} == multiset(s.queue)
                  && t.processes == s.processes)
            && (step.Recover? ==> t.queue == s.queue && t.processes == s.processes + [Process(None, Enqueueing)])
  {
    if step.Deliver? || step.Lose? {
      var q, i := s.queue, step.index;
      assert q == q[..i] + ([q[i]] + q[i + 1..]);
      assert multiset(q) == multiset(q[..i]) + (multiset{q[i]} + multiset(q[i + 1..]));
      assert multiset(Without(q, i)) == multiset(q[..i]) + multiset(q[i + 1..]);
    }
  }

  /** A step in which a job learns that its save was the last one. */
  ghost predicate ReportsComplete(s: System, step: Step) {
    && step.Advance?
    && Enabled(s, step)
    && s.processes[step.pid].phase.Committing?
    && s.run.status == Running
    && !s.processes[step.pid].phase.result.IsInfraError()
    && s.run.attemptsDone + 1 >= |s.plan|
  }

  /** A save reports the run complete exactly if it saves the last missing attempt, and that
      is no infrastructure error; no other step does. */
  lemma CompletesExactly(s: System, step: Step)
    requires Inv(s) && Enabled(s, step)
    ensures ReportsComplete(s, step) <==>
              && step.Advance? && s.processes[step.pid].phase.Committing?
              && !AllSaved(s) && AllSaved(Do(s, step))
              && !s.processes[step.pid].phase.result.IsInfraError()
    ensures Do(s, step).completions == s.completions + if ReportsComplete(s, step) then 1 else 0
  {
    StepInv(s, step);
    CountBoundsPlan(s, s.run);
    CountBoundsPlan(Do(s, step), Do(s, step).run);
    if step.Advance? {
      assert ProcessOk(s, s.processes[step.pid]);
    }
  }

  /** At most one save of a run ever reports it complete. */
  lemma OneSaveCompletes(states: seq<System>, steps: seq<Step>, i: nat, j: nat)
    requires IsRun(states, steps) && i < |steps| && j < |steps|
    requires ReportsComplete(states[i], steps[i]) && ReportsComplete(states[j], steps[j])
    ensures i == j
  {
    var a, b := if i <= j then i else j, if i <= j then j else i;
    if a < b {
      assert states[a + 1].completions == states[a].completions + 1;
      assert states[b + 1].completions == states[b].completions + 1;
      RunForward(states, steps, a + 1, b);
      RunInv(states, steps, b + 1);
      assert false;
    }
  }

  ghost predicate WorksOn(p: Process, key: AttemptKey) {
    || p.phase == Executing(key)
    || (p.phase.Inserting? && p.phase.result.Key() == key)
    || (p.phase.Committing? && p.phase.result.Key() == key)
  }

  lemma SavedStopsLookup(s: System, step: Step, key: AttemptKey, pid: nat)
    requires Enabled(s, step) && key in s.run.rows && pid < |Do(s, step).processes|
    requires pid < |s.processes| ==> !WorksOn(s.processes[pid], key)
    ensures !WorksOn(Do(s, step).processes[pid], key)
  {
  }

  /** Once an attempt is saved, no job that hasn't looked for it yet calls the agent for it:
      not a redelivered one, and not one that recovery kicks. */
  lemma {:induction false} SavedIsNotExecutedAgain(states: seq<System>, steps: seq<Step>, i: nat, j: nat,
                                                   key: AttemptKey, pid: nat)
    requires IsRun(states, steps) && i <= j < |states| && pid < |states[j].processes|
    requires key in states[i].run.rows
    requires pid < |states[i].processes| ==> !WorksOn(states[i].processes[pid], key)
    ensures !WorksOn(states[j].processes[pid], key)
    decreases j
  {
    if i < j {
      var s := states[j - 1];
      assert key in s.run.rows by {
        RunForward(states, steps, i, j - 1);
      }
      if pid < |s.processes| {
        assert i < j - 1 || s == states[i];
        SavedIsNotExecutedAgain(states, steps, i, j - 1, key, pid);
      }
      SavedStopsLookup(s, steps[j - 1], key, pid);
    }
  }

  // --- what the design does not give ----------------------------------------------------

  lemma Extend(states: seq<System>, steps: seq<Step>, step: Step) returns (states': seq<System>, steps': seq<Step>)
    requires IsRun(states, steps) && Enabled(states[|steps|], step)
    ensures IsRun(states', steps') && states'[|steps'|] == Do(states[|steps|], step)
  {
    states', steps' := states + [Do(states[|steps|], step)], steps + [step];
  }

  function Go(pid: nat): Step {
    Advance(pid, Proceed, 0)
  }

  /** A one-attempt run whose start job is done, with two deliveries of its attempt job. */
  function Scene(key: AttemptKey, run: Run, queue: seq<Message>, jobs: seq<Phase>, completions: nat := 0): System {
    System([key], run, queue, {StartRun, RunAttempt(key)},
           [Process(None, Done), Process(Some(StartRun), Done)]
           + seq(|jobs|, i requires 0 <= i < |jobs| => Process(Some(RunAttempt(key)), jobs[i])),
           completions)
  }

  lemma StartScene(key: AttemptKey) returns (states: seq<System>, steps: seq<Step>)
    ensures IsRun(states, steps)
    ensures states[|steps|] == Scene(key, NewRun().Claimed(0), [RunAttempt(key)], [])
  {
    states, steps := [Created([key])], [];
    states, steps := Extend(states, steps, Go(0));
    states, steps := Extend(states, steps, Deliver(0));
    states, steps := Extend(states, steps, Go(1));
    states, steps := Extend(states, steps, Go(1));
    assert Missing([key], map[]) == [key];
    states, steps := Extend(states, steps, Go(1));
    states, steps := Extend(states, steps, Go(1));
  }

  /** A job of the scene moves on without touching the store or the queue. */
  lemma SceneMove(key: AttemptKey, run: Run, queue: seq<Message>, jobs: seq<Phase>, completions: nat, job: nat,
                  phase: Phase)
    requires job < |jobs|
    ensures Move(Scene(key, run, queue, jobs, completions), job + 2, phase)
            == Scene(key, run, queue, jobs[job := phase], completions)
  {
    var s, s' := Move(Scene(key, run, queue, jobs, completions), job + 2, phase),
        Scene(key, run, queue, jobs[job := phase], completions);
    assert s.processes == s'.processes;
  }

  lemma SceneDeliver(key: AttemptKey, run: Run, jobs: seq<Phase>, completions: nat)
    ensures Do(Scene(key, run, [RunAttempt(key)], jobs, completions), Deliver(0))
            == Scene(key, run, [], jobs + [Checking(key)], completions)
  {
    var s := Do(Scene(key, run, [RunAttempt(key)], jobs, completions), Deliver(0));
    assert s.processes == Scene(key, run, [], jobs + [Checking(key)], completions).processes;
  }

  /** A job of the scene that reads: it checks the status, then looks for the saved row. */
  lemma SceneLook(states: seq<System>, steps: seq<Step>, key: AttemptKey, run: Run, jobs: seq<Phase>,
                  completions: nat, job: nat)
    returns (states': seq<System>, steps': seq<Step>)
    requires IsRun(states, steps) && states[|steps|] == Scene(key, run, [], jobs, completions)
    requires job < |jobs| && jobs[job] == Checking(key) && run.status == Running
    ensures IsRun(states', steps')
    ensures states'[|steps'|] == Scene(key, run, [], jobs[job := if key in run.rows then Done else Executing(key)],
            completions)
  {
    var found := if key in run.rows then Done else Executing(key);
    SceneMove(key, run, [], jobs, completions, job, Looking(key));
    states', steps' := Extend(states, steps, Go(job + 2));
    SceneMove(key, run, [], jobs[job := Looking(key)], completions, job, found);
    states', steps' := Extend(states', steps', Go(job + 2));
    assert jobs[job := Looking(key)][job := found] == jobs[job := found];
  }

  /** The scene's only job gets its answer, saves it as the last attempt, and dies. */
  lemma SceneSaveAndCrash(states: seq<System>, steps: seq<Step>, result: AttemptResult)
    returns (states': seq<System>, steps': seq<Step>)
    requires IsRun(states, steps) && !result.IsInfraError()
    requires states[|steps|] == Scene(result.Key(), NewRun().Claimed(0), [], [Executing(result.Key())])
    ensures IsRun(states', steps')
    ensures states'[|steps'|] == Scene(result.Key(), NewRun().Claimed(0).Saved(result, 0), [RunAttempt(result.Key())],
            [Done], 1)
  {
    var key, run := result.Key(), NewRun().Claimed(0);
    SceneMove(key, run, [], [Executing(key)], 0, 0, Inserting(result));
    states', steps' := Extend(states, steps, Advance(2, Answered(result), 0));
    assert states'[|steps'|] == Scene(key, run, [], [Inserting(result)]);
    SceneMove(key, run, [], [Inserting(result)], 0, 0, Committing(result));
    states', steps' := Extend(states', steps', Go(2));
    assert states'[|steps'|] == Scene(key, run, [], [Committing(result)]);
    var saved := run.Saved(result, 0);
    SceneMove(key, saved, [], [Committing(result)], 1, 0, KickingFinalize);
    states', steps' := Extend(states', steps', Go(2));
    assert states'[|steps'|] == Scene(key, saved, [], [KickingFinalize], 1);
    SceneMove(key, saved, [], [KickingFinalize], 1, 0, Done);
    states', steps' := Extend(states', steps', Crash(2));
  }

  /** The agent can be called twice for one attempt: two deliveries that overlap both look
      before either saves. (The design record says it never is. `SavedIsNotExecutedAgain`
      gives the condition that does hold, and only one of the two results can be saved.) */
  lemma OverlappingDeliveriesCallTwice(key: AttemptKey) returns (states: seq<System>, steps: seq<Step>)
    ensures IsRun(states, steps)
    ensures exists p, q :: 0 <= p < q < |states[|steps|].processes|
                           && states[|steps|].processes[p].phase == Executing(key)
                           && states[|steps|].processes[q].phase == Executing(key)
  {
    var run := NewRun().Claimed(0);
    states, steps := StartScene(key);
    SceneDeliver(key, run, [], 0);
    states, steps := Extend(states, steps, Deliver(0));
    assert [] + [Checking(key)] == [Checking(key)];
    states, steps := Extend(states, steps, Redeliver(RunAttempt(key)));
    SceneDeliver(key, run, [Checking(key)], 0);
    states, steps := Extend(states, steps, Deliver(0));
    states, steps := SceneLook(states, steps, key, run, [Checking(key), Checking(key)], 0, 0);
    states, steps := SceneLook(states, steps, key, run, [Executing(key), Checking(key)], 0, 1);
    var s := states[|steps|];
    assert s.processes[2].phase == Executing(key) && s.processes[3].phase == Executing(key);
  }

  /** Redelivery alone does not finish a run: when the job that saved the last attempt dies
      before it kicks `finalize`, its redelivery sees the saved row and stops, and the run
      stays running with nothing left to do. Startup recovery is what ends it. */
  lemma CrashBeforeFinalizeStrands(result: AttemptResult) returns (states: seq<System>, steps: seq<Step>)
    requires !result.IsInfraError()
    ensures IsRun(states, steps)
    ensures var s := states[|steps|]; Quiescent(s) && AllSaved(s) && s.run.status == Running
  {
    var key, run := result.Key(), NewRun().Claimed(0);
    states, steps := StartScene(key);
    SceneDeliver(key, run, [], 0);
    states, steps := Extend(states, steps, Deliver(0));
    assert [] + [Checking(key)] == [Checking(key)];
    states, steps := SceneLook(states, steps, key, run, [Checking(key)], 0, 0);
    states, steps := SceneSaveAndCrash(states, steps, result);
    SceneDeliver(key, run.Saved(result, 0), [Done], 1);
    states, steps := Extend(states, steps, Deliver(0));
    assert [Done] + [Checking(key)] == [Done, Checking(key)];
    states, steps := SceneLook(states, steps, key, run.Saved(result, 0), [Done, Checking(key)], 1, 1);
  }
}
