/** Deliveries that outlive their call of `run_suite`: from where that can still happen, and
    what must have happened when it has. */
module LateDeliveries {
  import opened AttemptResults
  import opened WorkerPool

  /** A worker that takes another attempt from the list, if one is left. */
  predicate Free(p: Pool, w: Worker) {
    w.Ready? || (w.Delivering? && w.index < |p.deliveries| && p.deliveries[w.index].Delivered?)
  }

  /** An agent call is running, or some worker is free to make one. */
  predicate CanAnswer(p: Pool) {
    exists w :: 0 <= w < |p.workers| && (p.workers[w].Attempting? || (p.queue != [] && Free(p, p.workers[w])))
  }

  /** A delivery is running, or one can still begin. */
  predicate MayDeliver(p: Pool) {
    SomePending(p.deliveries) || (p.reporting && CanAnswer(p))
  }

  ghost predicate CanLeaveRunning(p: Pool) {
    exists steps, p' :: Leads(p, steps, p') && p'.phase.Returned? && SomePending(p'.deliveries)
  }

  lemma DoneStaysDone(p: Pool, step: Step)
    requires !MayDeliver(p) && Enabled(p, step)
    ensures !MayDeliver(Do(p, step))
  {
  }

  lemma {:induction false} DoneLeavesNone(p: Pool, steps: seq<Step>, p': Pool)
    requires !MayDeliver(p) && Leads(p, steps, p')
    ensures !MayDeliver(p')
    decreases |steps|
  {
    if steps != [] {
      DoneStaysDone(p, steps[0]);
      DoneLeavesNone(Do(p, steps[0]), steps[1..], p');
    }
  }

  lemma LeavesSoon(p: Pool, step: Step)
    requires Enabled(p, step) && CanLeaveRunning(Do(p, step))
    ensures CanLeaveRunning(p)
  {
    var steps, p' :| Leads(Do(p, step), steps, p') && p'.phase.Returned? && SomePending(p'.deliveries);
    LeadsCons(p, step, steps, p');
  }

  /** Any running delivery can be the one that is left. */
  lemma PendingCanBeLeft(p: Pool)
    requires Inv(p) && SomePending(p.deliveries)
    ensures CanLeaveRunning(p)
  {
    match p.phase
    case Waiting =>
      var steps, p';
      if Crashed in p.workers {
        steps, p' := CancelLeavesRunning(p);
      } else {
        steps, p' := AbandonLeavesRunning(p, false);
      }
    case Stopping(_) =>
      var steps, ended := StopAll(p);
      LeadsOn(p, steps, ended, Gather);
      if Crashed !in p.workers {
        LeadsOn(p, steps + [Gather], Do(ended, Gather), Abandon);
      }
    case Settling(_, _) =>
      LeadsOn(p, [], p, Abandon);
    case Returned(_) =>
      assert Leads(p, [], p);
  }

  /** An answer of the agent begins a delivery. */
  lemma AnswerCanBeLeft(p: Pool, w: nat)
    requires Inv(p) && p.reporting && w < |p.workers| && p.workers[w].Attempting?
    ensures CanLeaveRunning(p)
  {
    var step := Answer(w, AnyResult(p.workers[w].key));
    var p' := Do(p, step);
    StepInv(p, step);
    assert p'.deliveries[|p.deliveries|].Pending?;
    PendingCanBeLeft(p');
    LeavesSoon(p, step);
  }

  lemma ReadyCanBeLeft(p: Pool, w: nat)
    requires Inv(p) && p.reporting && w < |p.workers| && p.workers[w].Ready? && p.queue != []
    ensures CanLeaveRunning(p)
  {
    StepInv(p, Next(w));
    AnswerCanBeLeft(Do(p, Next(w)), w);
    LeavesSoon(p, Next(w));
  }

  /** From where a call can still end with a delivery running, exactly: while one is running or
      can still begin. Whatever state the call is in, a cancel at the wrong moment is enough. */
  lemma CanLeaveRunningExactly(p: Pool)
    requires Inv(p)
    ensures CanLeaveRunning(p) <==> MayDeliver(p)
  {
    if SomePending(p.deliveries) {
      PendingCanBeLeft(p);
    } else if MayDeliver(p) {
      var w :| 0 <= w < |p.workers| && (p.workers[w].Attempting? || (p.queue != [] && Free(p, p.workers[w])));
      match p.workers[w]
      case Attempting(_) => AnswerCanBeLeft(p, w);
      case Ready => ReadyCanBeLeft(p, w);
      case Delivering(_) =>
        StepInv(p, Resume(w));
        ReadyCanBeLeft(Do(p, Resume(w)), w);
        LeavesSoon(p, Resume(w));
    } else if CanLeaveRunning(p) {
      var steps, p' :| Leads(p, steps, p') && p'.phase.Returned? && SomePending(p'.deliveries);
      DoneLeavesNone(p, steps, p');
      assert false;
    }
  }

  // --- what must have happened ----------------------------------------------------------

  predicate WasCancelled(steps: seq<Step>) {
    exists j :: 0 <= j < |steps| && steps[j].Interrupt?
  }

  predicate WasAbandoned(steps: seq<Step>) {
    exists j :: 0 <= j < |steps| && steps[j].Abandon?
  }

  predicate DeliveryFailed(steps: seq<Step>) {
    exists j :: 0 <= j < |steps| && steps[j].FinishDelivery? && !steps[j].ok
  }

  /** What a state tells of the steps before it. */
  ghost predicate Tells(p: Pool, steps: seq<Step>) {
    && (p.phase.Stopping? ==> WasCancelled(steps))
    && (Failed(p) ==> DeliveryFailed(steps))
    && (p.phase.Returned? && SomePending(p.deliveries) ==>
          WasAbandoned(steps) || (WasCancelled(steps) && DeliveryFailed(steps)))
  }

  predicate Failed(p: Pool) {
    Crashed in p.workers || Raised in p.deliveries
  }

  lemma HistoryGrows(steps: seq<Step>, step: Step)
    ensures WasCancelled(steps + [step]) <==> WasCancelled(steps) || step.Interrupt?
    ensures WasAbandoned(steps + [step]) <==> WasAbandoned(steps) || step.Abandon?
    ensures DeliveryFailed(steps + [step]) <==> DeliveryFailed(steps) || (step.FinishDelivery? && !step.ok)
  {
    var steps' := steps + [step];
    assert steps'[|steps|] == step && forall j :: 0 <= j < |steps| ==> steps'[j] == steps[j];
  }

  lemma FailedOn(p: Pool, step: Step)
    requires Enabled(p, step)
    ensures Failed(Do(p, step)) ==> Failed(p) || (step.FinishDelivery? && !step.ok)
  {
    if step.Resume? && !Failed(p) {
      assert p.deliveries[p.workers[step.worker].index] in p.deliveries;
    }
  }

  lemma LeftOn(p: Pool, step: Step)
    requires Inv(p) && Enabled(p, step) && Do(p, step).phase.Returned? && SomePending(Do(p, step).deliveries)
    ensures (p.phase.Returned? && SomePending(p.deliveries)) || step.Abandon? || (p.phase.Stopping? && Failed(p))
  {
    if p.phase.Returned? {
      var deliveries := Do(p, step).deliveries;
      var i :| 0 <= i < |deliveries| && deliveries[i].Pending?;
      assert p.deliveries[i].Pending?;
    } else {
      LeftRunningExactly(p, step);
    }
  }

  lemma TellsOn(p: Pool, steps: seq<Step>, step: Step)
    requires Inv(p) && Tells(p, steps) && Enabled(p, step)
    ensures Tells(Do(p, step), steps + [step])
  {
    HistoryGrows(steps, step);
    FailedOn(p, step);
    if Do(p, step).phase.Returned? && SomePending(Do(p, step).deliveries) {
      LeftOn(p, step);
    }
  }

  /** A call that nobody cancels leaves no delivery running; one that is cancelled does so only
      if a delivery has failed, or if the cancel came while it waited for deliveries. */
  lemma {:induction false} LeftRunningMeans(plan: seq<AttemptKey>, completed: seq<AttemptResult>, concurrency: int,
                                            reporting: bool, pools: seq<Pool>, steps: seq<Step>, i: nat)
    requires IsRun(plan, completed, concurrency, reporting, pools, steps) && i < |pools|
    ensures Tells(pools[i], steps[..i])
    ensures pools[i].phase.Returned? && SomePending(pools[i].deliveries) ==>
              WasAbandoned(steps[..i]) || (WasCancelled(steps[..i]) && DeliveryFailed(steps[..i]))
  {
    if i > 0 {
      LeftRunningMeans(plan, completed, concurrency, reporting, pools, steps, i - 1);
      RunInv(plan, completed, concurrency, reporting, pools, steps, i - 1);
      TellsOn(pools[i - 1], steps[..i - 1], steps[i - 1]);
      assert steps[..i] == steps[..i - 1] + [steps[i - 1]];
    }
  }
}
