/** The run loop of `run_suite`: workers drain one shared list, each finished attempt is
    appended and delivered to `on_result` behind a shield, and cancelling interrupts agent
    calls but never a delivery. Each step is what one task does between two awaits. A
    delivery is a task of its own: when the call ends without waiting for it, it goes on. */
module WorkerPool {
  import opened AttemptResults

  datatype Worker =
    | Ready                     // at the loop's head
    | Attempting(key: AttemptKey)
    | Delivering(index: nat)    // awaiting the shielded delivery
    | Finished                  // found the list empty
    | Stopped                   // cancelled
    | Crashed                   // re-raised a failed delivery

  datatype Delivery = Pending | Delivered | Raised

  datatype Ending = CompletedRun | CancelledRun | RaisedRun | AbortedRun

  /** `Waiting` for the workers or the cancel event, `Stopping` after cancelling the workers,
      `Settling` unfinished deliveries, or `Returned`: with a summary, or raising. `outer`
      says the call itself was cancelled. */
  datatype Phase = Waiting | Stopping(outer: bool) | Settling(stopped: bool, outer: bool) | Returned(ending: Ending)

  /** `todo` and `completed` are what the call started from. `popped` and `interrupted` are
      histories: the attempts taken from the list, and those whose agent call was cut off. */
  datatype Pool = Pool(
    todo: seq<AttemptKey>,
    completed: seq<AttemptResult>,
    reporting: bool,
    queue: seq<AttemptKey>,
    workers: seq<Worker>,
    results: seq<AttemptResult>,
    deliveries: seq<Delivery>,
    aborting: bool,
    phase: Phase,
    popped: seq<AttemptKey>,
    interrupted: seq<AttemptKey>)

  datatype Step =
    | Next(worker: nat)
    | Answer(worker: nat, result: AttemptResult)
    | FinishDelivery(index: nat, ok: bool)
    | Resume(worker: nat)
    | Interrupt(outer: bool)    // the cancel event, or a cancel of the call itself
    | Overtake                  // the call is cancelled just as the workers are done
    | StopWorker(worker: nat)
    | Gather                    // the workers' group is done
    | Abandon                   // the call is cancelled while it waits for deliveries
    | Return

  /** The planned attempts no completed result covers, in plan order. */
  function Remaining(plan: seq<AttemptKey>, completed: seq<AttemptResult>): (rest: seq<AttemptKey>)
    ensures forall k :: k in rest <==> k in plan && k !in Keys(completed)
  {
    if plan == [] then []
    else if plan[0] in Keys(completed) then Remaining(plan[1..], completed)
    else [plan[0]] + Remaining(plan[1..], completed)
  }

  function Reversed<T>(s: seq<T>): (r: seq<T>)
    ensures |r| == |s| && forall i :: 0 <= i < |s| ==> r[i] == s[|s| - 1 - i]
  {
    if s == [] then [] else Reversed(s[1..]) + [s[0]]
  }

  /** A call of `run_suite`, up to its first await. None: it raises before any agent call. */
  function Begin(plan: seq<AttemptKey>, completed: seq<AttemptResult>, concurrency: int,
                 reporting: bool): Option<Pool> {
    if concurrency < 1 then None
    else
      var todo := Remaining(plan, completed);
      var size := if concurrency < |todo| then concurrency else |todo|;
      var workers := seq(size, _ => Ready);
      Some(Pool(todo, completed, reporting, Reversed(todo), workers, completed, [], false, Waiting, [], []))
  }

  predicate Ended(w: Worker) {
    w.Finished? || w.Stopped? || w.Crashed?
  }

  predicate AllEnded(p: Pool) {
    forall w :: 0 <= w < |p.workers| ==> Ended(p.workers[w])
  }

  predicate SomePending(deliveries: seq<Delivery>) {
    exists i :: 0 <= i < |deliveries| && deliveries[i].Pending?
  }

  predicate Cancelling(p: Pool) {
    p.phase.Stopping? || p.aborting
  }

  predicate Enabled(p: Pool, step: Step) {
    match step
    case Next(w) => w < |p.workers| && p.workers[w].Ready?
    case Answer(w, result) => w < |p.workers| && p.workers[w] == Attempting(result.Key())
    case FinishDelivery(i, _) => i < |p.deliveries| && p.deliveries[i].Pending?
    case Resume(w) =>
      && w < |p.workers| && p.workers[w].Delivering?
      && p.workers[w].index < |p.deliveries| && !p.deliveries[p.workers[w].index].Pending?
    case Interrupt(_) => p.phase.Waiting?
    case Overtake => p.phase.Waiting? && AllEnded(p)
    case StopWorker(w) => w < |p.workers| && Cancelling(p) && !Ended(p.workers[w])
    case Gather => (p.phase.Waiting? || p.phase.Stopping?) && AllEnded(p)
    case Abandon => p.phase.Settling? && SomePending(p.deliveries)
    case Return => p.phase.Settling? && !SomePending(p.deliveries)
  }

  function Do(p: Pool, step: Step): Pool
    requires Enabled(p, step)
  {
    match step
    case Next(w) =>
      if p.queue == [] then p.(workers := p.workers[w := Finished])
      else
        var key := p.queue[|p.queue| - 1];
        p.(queue := p.queue[..|p.queue| - 1], popped := p.popped + [key], workers := p.workers[w := Attempting(key)])
    case Answer(w, result) =>
      if p.reporting
      then p.(results := p.results + [result], deliveries := p.deliveries + [Pending],
              workers := p.workers[w := Delivering(|p.deliveries|)])
      else p.(results := p.results + [result], workers := p.workers[w := Ready])
    case FinishDelivery(i, ok) => p.(deliveries := p.deliveries[i := if ok then Delivered else Raised])
    case Resume(w) =>
      if p.deliveries[p.workers[w].index].Delivered?
      then p.(workers := p.workers[w := Ready])
      else p.(workers := p.workers[w := Crashed], aborting := true)
    case Interrupt(outer) => p.(phase := Stopping(outer))
    case Overtake => p.(phase := Settling(false, true))
    case StopWorker(w) =>
      p.(workers := p.workers[w := Stopped],
         interrupted := if p.workers[w].Attempting? then p.interrupted + [p.workers[w].key] else p.interrupted)
    case Gather => p.(phase := Gathered(p))
    case Abandon => p.(phase := Returned(AbortedRun))
    case Return => p.(phase := Returned(EndingOf(p)))
  }

  /** Awaiting cancelled workers swallows their cancellation (and a cancel of the call that
      comes meanwhile), but if one had crashed the group's error comes out there, and
      deliveries are not waited for. */
  function Gathered(p: Pool): Phase
    requires p.phase.Waiting? || p.phase.Stopping?
  {
    if p.phase.Waiting? then Settling(false, false)
    else if Crashed in p.workers then Returned(RaisedRun)
    else Settling(true, p.phase.outer)
  }

  /** How the call ends: cancelled from outside, raising an `on_result` failure, with a
      cancelled summary, or with a completed one. */
  function EndingOf(p: Pool): Ending
    requires p.phase.Settling?
  {
    if p.phase.outer then AbortedRun
    else if Crashed in p.workers || Raised in p.deliveries then RaisedRun
    else if p.phase.stopped then CancelledRun
    else CompletedRun
  }

  // --- the invariant --------------------------------------------------------------------

  /** The attempt whose agent call a worker is waiting for. */
  function Call(w: Worker): multiset<AttemptKey> {
    if w.Attempting? then multiset{w.key} else multiset{}
  }

  function InFlight(workers: seq<Worker>): multiset<AttemptKey> {
    if workers == [] then multiset{} else Call(workers[0]) + InFlight(workers[1..])
  }

  function Fresh(p: Pool): seq<AttemptResult>
    requires |p.completed| <= |p.results|
  {
    p.results[|p.completed|..]
  }

  /** Where every planned attempt is: still listed, in flight, answered, or cut off. */
  ghost predicate Accounted(p: Pool) {
    && Distinct(p.todo)
    // The list is popped from its end, in plan order, and nothing else changes it.
    && p.popped + Reversed(p.queue) == p.todo
    && p.completed <= p.results
    && Balanced(multiset(p.popped), multiset(Keys(Fresh(p))), InFlight(p.workers), multiset(p.interrupted))
  }

  /** Every fresh result has its own delivery, and workers end early only when cancelled or
      crashed. */
  ghost predicate Orderly(p: Pool) {
    && p.completed <= p.results
    && |p.deliveries| == (if p.reporting then |p.results| - |p.completed| else 0)
    && (forall w :: 0 <= w < |p.workers| && p.workers[w].Delivering? ==> p.workers[w].index < |p.deliveries|)
    && (p.aborting ==> Crashed in p.workers)
    && (Crashed in p.workers ==> p.aborting)
    && (Stopped in p.workers ==> WasStopped(p) || p.aborting)
    && (p.interrupted != [] ==> Stopped in p.workers)
    && (Finished in p.workers ==> p.queue == [])
    && (p.workers == [] ==> p.todo == [])
    && (p.phase.Settling? || p.phase.Returned? ==> AllEnded(p))
    && (ReturnsSummary(p.phase) ==> AllDelivered(p.deliveries))
    && (p.phase == Returned(CompletedRun) ==> Clean(p))
    && (p.phase == Returned(RaisedRun) && SomePending(p.deliveries) ==> Crashed in p.workers)
  }

  /** The call returns, it does not raise. */
  predicate ReturnsSummary(phase: Phase) {
    phase == Returned(CompletedRun) || phase == Returned(CancelledRun)
  }

  predicate AllDelivered(deliveries: seq<Delivery>) {
    forall i :: 0 <= i < |deliveries| ==> deliveries[i].Delivered?
  }

  ghost predicate Inv(p: Pool) {
    Accounted(p) && Orderly(p)
  }

  predicate WasStopped(p: Pool) {
    p.phase.Stopping? || (p.phase.Settling? && p.phase.stopped) || (p.phase.Returned? && !p.phase.ending.CompletedRun?)
  }

  ghost predicate Clean(p: Pool) {
    && (forall w :: 0 <= w < |p.workers| ==> p.workers[w].Finished?)
    && AllDelivered(p.deliveries)
  }

  lemma {:induction false} RemainingDistinct(plan: seq<AttemptKey>, completed: seq<AttemptResult>)
    requires Distinct(plan)
    ensures Distinct(Remaining(plan, completed))
  {
    if plan != [] {
      RemainingDistinct(plan[1..], completed);
      assert plan[0] !in plan[1..];
    }
  }

  lemma {:induction false} ReversedTwice<T>(s: seq<T>)
    ensures Reversed(Reversed(s)) == s
  {
  }

  lemma {:induction false} NoneInFlight(workers: seq<Worker>)
    requires forall w :: 0 <= w < |workers| ==> !workers[w].Attempting?
    ensures InFlight(workers) == multiset{}
  {
    if workers != [] {
      NoneInFlight(workers[1..]);
    }
  }

  lemma {:induction false} InFlightAt(workers: seq<Worker>, w: nat, next: Worker)
    requires w < |workers|
    ensures InFlight(workers[w := next]) + Call(workers[w]) == InFlight(workers) + Call(next)
  {
    var tail := workers[1..];
    if w == 0 {
      assert workers[w := next][1..] == tail;
    } else {
      var tail' := tail[w - 1 := next];
      assert workers[w := next][1..] == tail';
      InFlightAt(tail, w - 1, next);
      Regroup(Call(workers[0]), InFlight(tail'), Call(workers[w]));
      Regroup(Call(workers[0]), InFlight(tail), Call(next));
    }
  }

  lemma Regroup(a: multiset<AttemptKey>, b: multiset<AttemptKey>, c: multiset<AttemptKey>)
    ensures (a + b) + c == a + (b + c)
    ensures (a + b) + c == (a + c) + b
  {
  }

  /** `popped` splits into the answered, the in-flight and the cut-off attempts. */
  ghost predicate Balanced(popped: multiset<AttemptKey>, answered: multiset<AttemptKey>,
                           flight: multiset<AttemptKey>, cut: multiset<AttemptKey>)
  {
    popped == answered + flight + cut
  }

  /** Moving calls between the in-flight part and its neighbours keeps the balance. */
  lemma Rebalance(popped: multiset<AttemptKey>, answered: multiset<AttemptKey>, flight: multiset<AttemptKey>,
                  flight': multiset<AttemptKey>, cut: multiset<AttemptKey>, left: multiset<AttemptKey>,
                      entered: multiset<AttemptKey>)
    requires Balanced(popped, answered, flight, cut)
    requires flight' + left == flight + entered
    ensures Balanced(popped + entered, answered + left, flight', cut)
    ensures Balanced(popped + entered, answered, flight', cut + left)
    ensures entered == multiset{} ==> popped + entered == popped
    ensures left == multiset{} ==> answered + left == answered
  {
    forall k: AttemptKey
      ensures flight'[k] + left[k] == flight[k] + entered[k]
    {
      assert (flight' + left)[k] == (flight + entered)[k];
    }
  }

  lemma {:induction false} InFlightBound(workers: seq<Worker>)
    ensures |InFlight(workers)| <= |workers|
  {
    if workers != [] {
      InFlightBound(workers[1..]);
    }
  }

  lemma BeginInv(plan: seq<AttemptKey>, completed: seq<AttemptResult>, concurrency: int, reporting: bool)
    requires Distinct(plan) && concurrency >= 1
    ensures Inv(Begin(plan, completed, concurrency, reporting).value)
    ensures |Begin(plan, completed, concurrency, reporting).value.workers| <= concurrency
  {
    var p := Begin(plan, completed, concurrency, reporting).value;
    BeginAccounted(p, plan, completed);
    BeginOrderly(p);
  }

  lemma BeginOrderly(p: Pool)
    requires (forall w :: 0 <= w < |p.workers| ==> p.workers[w] == Ready) && (p.workers == [] ==> p.todo == [])
    requires p.results == p.completed && p.deliveries == [] && !p.aborting && p.phase.Waiting? && p.interrupted == []
    ensures Orderly(p)
  {
  }

  lemma BeginAccounted(p: Pool, plan: seq<AttemptKey>, completed: seq<AttemptResult>)
    requires Distinct(plan) && p.todo == Remaining(plan, completed) && p.queue == Reversed(p.todo)
    requires p.completed == p.results && p.popped == [] && p.interrupted == []
    requires forall w :: 0 <= w < |p.workers| ==> p.workers[w] == Ready
    ensures Accounted(p)
  {
    RemainingDistinct(plan, completed);
    assert p.popped + Reversed(p.queue) == p.todo by {
      ReversedTwice(p.todo);
    }
    assert Balanced(multiset(p.popped), multiset(Keys(Fresh(p))), InFlight(p.workers), multiset(p.interrupted)) by {
      NoneInFlight(p.workers);
      assert |Keys(Fresh(p))| == 0;
    }
  }

  /** A worker that neither starts nor ends an agent call. */
  lemma SameFlight(workers: seq<Worker>, w: nat, next: Worker)
    requires w < |workers| && !workers[w].Attempting? && !next.Attempting?
    ensures InFlight(workers[w := next]) == InFlight(workers)
  {
    InFlightAt(workers, w, next);
    AddsNothing(InFlight(workers[w := next]));
    AddsNothing(InFlight(workers));
  }

  lemma AddsNothing(a: multiset<AttemptKey>)
    ensures a + multiset{} == a
  {
  }

  lemma WorkersAccounted(p: Pool, p': Pool)
    requires Accounted(p) && InFlight(p'.workers) == InFlight(p.workers)
    requires p' == p.(workers := p'.workers, aborting := p'.aborting)
    ensures Accounted(p')
  {
    assert Fresh(p') == Fresh(p);
  }

  lemma NextAccounted(p: Pool, w: nat)
    requires Accounted(p) && Enabled(p, Next(w))
    ensures Accounted(Do(p, Next(w)))
  {
    if p.queue == [] {
      SameFlight(p.workers, w, Finished);
      WorkersAccounted(p, Do(p, Next(w)));
    } else {
      PopAccounted(p, w, p.queue[..|p.queue| - 1], p.queue[|p.queue| - 1]);
    }
  }

  lemma PopAccounted(p: Pool, w: nat, queue: seq<AttemptKey>, key: AttemptKey)
    requires Accounted(p) && w < |p.workers| && p.workers[w].Ready? && p.queue == queue + [key]
    ensures Accounted(p.(queue := queue, popped := p.popped + [key], workers := p.workers[w := Attempting(key)]))
  {
    var p' := p.(queue := queue, popped := p.popped + [key], workers := p.workers[w := Attempting(key)]);
    ReversedSplit(queue, key);
    assert p.popped + ([key] + Reversed(queue)) == p'.popped + Reversed(queue);
    InFlightAt(p.workers, w, Attempting(key));
    assert Fresh(p') == Fresh(p);
    Rebalance(multiset(p.popped), multiset(Keys(Fresh(p))), InFlight(p.workers), InFlight(p'.workers),
        multiset(p.interrupted), multiset{}, multiset{key});
  }

  lemma FreshGrows(p: Pool, p': Pool, result: AttemptResult)
    requires p.completed <= p.results && p'.completed == p.completed && p'.results == p.results + [result]
    ensures p'.completed <= p'.results
    ensures multiset(Keys(Fresh(p'))) == multiset(Keys(Fresh(p))) + multiset{result.Key()}
  {
    assert Fresh(p') == Fresh(p) + [result];
    assert Keys(Fresh(p')) == Keys(Fresh(p)) + [result.Key()];
  }

  lemma AnswerAccounted(p: Pool, w: nat, result: AttemptResult)
    requires Accounted(p) && Enabled(p, Answer(w, result))
    ensures Accounted(Do(p, Answer(w, result)))
  {
    var p' := Do(p, Answer(w, result));
    FreshGrows(p, p', result);
    var answered, flight, flight' := multiset(Keys(Fresh(p))), InFlight(p.workers), InFlight(p'.workers);
    InFlightAt(p.workers, w, p'.workers[w]);
    assert Call(p'.workers[w]) == multiset{};
    Rebalance(multiset(p.popped), answered, flight, flight', multiset(p.interrupted), multiset{result.Key()},
        multiset{});
  }

  lemma StopAccounted(p: Pool, w: nat)
    requires Accounted(p) && Enabled(p, StopWorker(w))
    ensures Accounted(Do(p, StopWorker(w)))
  {
    var p' := Do(p, StopWorker(w));
    InFlightAt(p.workers, w, Stopped);
    Rebalance(multiset(p.popped), multiset(Keys(Fresh(p))), InFlight(p.workers), InFlight(p'.workers),
        multiset(p.interrupted), Call(p.workers[w]), multiset{});
    assert Fresh(p') == Fresh(p);
  }

  lemma ResumeAccounted(p: Pool, w: nat)
    requires Accounted(p) && Enabled(p, Resume(w))
    ensures Accounted(Do(p, Resume(w)))
  {
    var p' := Do(p, Resume(w));
    SameFlight(p.workers, w, p'.workers[w]);
    WorkersAccounted(p, p');
  }

  /** Every step balances the list, the results and the histories. */
  lemma StepAccounted(p: Pool, step: Step)
    requires Accounted(p) && Enabled(p, step)
    ensures Accounted(Do(p, step))
  {
    match step
    case Next(w) => NextAccounted(p, w);
    case Answer(w, result) => AnswerAccounted(p, w, result);
    case Resume(w) => ResumeAccounted(p, w);
    case StopWorker(w) => StopAccounted(p, w);
    case _ => assert Fresh(Do(p, step)) == Fresh(p);
  }

  lemma {:induction false} ReversedSplit<T>(s: seq<T>, last: T)
    ensures Reversed(s + [last]) == [last] + Reversed(s)
  {
    if s == [] {
      assert s + [last] == [last];
      assert Reversed([last]) == Reversed([last][1..]) + [last];
    } else {
      assert (s + [last])[1..] == s[1..] + [last];
      ReversedSplit(s[1..], last);
    }
  }

  lemma UpdateMembers(workers: seq<Worker>, w: nat, next: Worker)
    requires w < |workers|
    ensures forall o :: o in workers && o != workers[w] ==> o in workers[w := next]
    ensures forall o :: o in workers[w := next] ==> o in workers || o == next
    ensures next in workers[w := next]
  {
    forall o | o in workers && o != workers[w]
      ensures o in workers[w := next]
    {
      var i :| 0 <= i < |workers| && workers[i] == o;
      assert workers[w := next][i] == o;
    }
    assert workers[w := next][w] == next;
  }

  lemma WorkerOrderly(p: Pool, step: Step, w: nat)
    requires Orderly(p) && Enabled(p, step)
    requires step == Next(w) || step == Resume(w) || step == StopWorker(w)
    ensures Orderly(Do(p, step))
  {
    UpdateMembers(p.workers, w, Do(p, step).workers[w]);
  }

  lemma AnswerOrderly(p: Pool, w: nat, result: AttemptResult)
    requires Orderly(p) && Enabled(p, Answer(w, result))
    ensures Orderly(Do(p, Answer(w, result)))
  {
    UpdateMembers(p.workers, w, Do(p, Answer(w, result)).workers[w]);
  }

  lemma StepOrderly(p: Pool, step: Step)
    requires Orderly(p) && Enabled(p, step)
    ensures Orderly(Do(p, step))
  {
    match step
    case Next(w) => WorkerOrderly(p, step, w);
    case Resume(w) => WorkerOrderly(p, step, w);
    case StopWorker(w) => WorkerOrderly(p, step, w);
    case Answer(w, result) => AnswerOrderly(p, w, result);
    case Return => ReturnIsClean(p);
    case FinishDelivery(i, ok) => FinishOrderly(p, i, ok);
    case _ =>
  }

  lemma FinishOrderly(p: Pool, i: nat, ok: bool)
    requires Orderly(p) && Enabled(p, FinishDelivery(i, ok))
    ensures Orderly(Do(p, FinishDelivery(i, ok)))
  {
    var p' := Do(p, FinishDelivery(i, ok));
    if j :| 0 <= j < |p'.deliveries| && p'.deliveries[j].Pending? {
      assert p.deliveries[j].Pending?;
    }
  }

  /** Only a call that nothing stopped and nothing failed returns a completed summary, and a
      summary is returned only once everything has been delivered without a failure. */
  lemma ReturnIsClean(p: Pool)
    requires Orderly(p) && Enabled(p, Return)
    ensures EndingOf(p).CompletedRun? ==> Clean(p)
    ensures ReturnsSummary(Returned(EndingOf(p))) ==> AllDelivered(p.deliveries)
  {
    forall i | 0 <= i < |p.deliveries| && ReturnsSummary(Returned(EndingOf(p)))
      ensures p.deliveries[i].Delivered?
    {
      assert p.deliveries[i] in p.deliveries;
    }
    if EndingOf(p).CompletedRun? {
      forall w | 0 <= w < |p.workers|
        ensures p.workers[w].Finished?
      {
        assert p.workers[w] in p.workers && Ended(p.workers[w]);
      }
    }
  }

  lemma StepInv(p: Pool, step: Step)
    requires Inv(p) && Enabled(p, step)
    ensures Inv(Do(p, step))
    ensures SameCall(p, Do(p, step))
  {
    StepAccounted(p, step);
    StepOrderly(p, step);
    StepSameCall(p, step);
  }

  lemma StepSameCall(p: Pool, step: Step)
    requires Enabled(p, step)
    ensures SameCall(p, Do(p, step))
  {
  }

  /** What the call started from, and how many workers it has, never change. */
  ghost predicate SameCall(p: Pool, p': Pool) {
    p'.todo == p.todo && p'.completed == p.completed && p'.reporting == p.reporting && |p'.workers| == |p.workers|
  }

  // --- every schedule -------------------------------------------------------------------

  ghost predicate IsRun(plan: seq<AttemptKey>, completed: seq<AttemptResult>, concurrency: int, reporting: bool,
                        pools: seq<Pool>, steps: seq<Step>)
  {
    && |pools| == |steps| + 1
    && Distinct(plan)
    && Begin(plan, completed, concurrency, reporting) == Some(pools[0])
    && forall i :: 0 <= i < |steps| ==> Enabled(pools[i], steps[i]) && pools[i + 1] == Do(pools[i], steps[i])
  }

  lemma {:induction false} RunInv(plan: seq<AttemptKey>, completed: seq<AttemptResult>, concurrency: int,
                                  reporting: bool,
                                  pools: seq<Pool>, steps: seq<Step>, i: nat)
    requires IsRun(plan, completed, concurrency, reporting, pools, steps) && i < |pools|
    ensures Inv(pools[i])
    ensures pools[i].todo == Remaining(plan, completed) && pools[i].completed == completed
    ensures pools[i].reporting == reporting
    ensures |pools[i].workers| <= concurrency
  {
    if i == 0 {
      BeginInv(plan, completed, concurrency, reporting);
    } else {
      RunInv(plan, completed, concurrency, reporting, pools, steps, i - 1);
      StepInv(pools[i - 1], steps[i - 1]);
    }
  }

  /** Attempts start in plan order, each planned and not yet completed, none twice, and never
      more than `concurrency` are in flight. */
  lemma AttemptsStartOnce(plan: seq<AttemptKey>, completed: seq<AttemptResult>, concurrency: int, reporting: bool,
                          pools: seq<Pool>, steps: seq<Step>, i: nat)
    requires IsRun(plan, completed, concurrency, reporting, pools, steps) && i < |pools|
    ensures pools[i].popped <= Remaining(plan, completed)
    ensures Distinct(pools[i].popped)
    ensures forall k :: k in pools[i].popped ==> k in plan && k !in Keys(completed)
    ensures |InFlight(pools[i].workers)| <= concurrency
  {
    RunInv(plan, completed, concurrency, reporting, pools, steps, i);
    InFlightBound(pools[i].workers);
    var popped, todo := pools[i].popped, Remaining(plan, completed);
    assert forall j :: 0 <= j < |popped| ==> popped[j] == todo[j];
  }

  /** A summary is returned only when every fresh result has been delivered, each once, whole
      and without a failure. However the call ends, no agent call is left running, and every
      fresh result has its own delivery. */
  lemma DeliveriesAreWhole(plan: seq<AttemptKey>, completed: seq<AttemptResult>, concurrency: int,
                           pools: seq<Pool>, steps: seq<Step>, i: nat)
    requires IsRun(plan, completed, concurrency, true, pools, steps) && i < |pools| && pools[i].phase.Returned?
    ensures |pools[i].results| == |completed| + |pools[i].deliveries|
    ensures ReturnsSummary(pools[i].phase) ==> AllDelivered(pools[i].deliveries)
    ensures InFlight(pools[i].workers) == multiset{}
  {
    RunInv(plan, completed, concurrency, true, pools, steps, i);
    NoneInFlight(pools[i].workers);
  }

  /** When the call ends with deliveries still running, exactly: it raises, because it was
      stopped while a worker had already crashed, or cancelled while it waited for them. */
  lemma LeftRunningExactly(p: Pool, step: Step)
    requires Inv(p) && Enabled(p, step) && !p.phase.Returned? && Do(p, step).phase.Returned?
    ensures SomePending(Do(p, step).deliveries)
       <==> SomePending(p.deliveries) && (step.Abandon? || (step.Gather? && p.phase.Stopping? && Crashed in p.workers))
    ensures SomePending(Do(p, step).deliveries) ==>
              Do(p, step).phase == Returned(if step.Abandon? then AbortedRun else RaisedRun)
  {
  }

  /** Taking `steps` one after another leads from `p` to `p'`. */
  ghost predicate Leads(p: Pool, steps: seq<Step>, p': Pool)
    decreases |steps|
  {
    if steps == [] then p == p' else Enabled(p, steps[0]) && Leads(Do(p, steps[0]), steps[1..], p')
  }

  lemma LeadsCons(p: Pool, step: Step, rest: seq<Step>, p': Pool)
    requires Enabled(p, step) && Leads(Do(p, step), rest, p')
    ensures Leads(p, [step] + rest, p')
  {
    assert ([step] + rest)[1..] == rest;
  }

  lemma {:induction false} LeadsOn(p: Pool, steps: seq<Step>, p': Pool, step: Step)
    requires Leads(p, steps, p') && Enabled(p', step)
    ensures Leads(p, steps + [step], Do(p', step))
    decreases |steps|
  {
    if steps != [] {
      assert (steps + [step])[1..] == steps[1..] + [step];
      LeadsOn(Do(p, steps[0]), steps[1..], p', step);
    }
  }

  /** Cancelling ends every worker without touching a delivery. */
  lemma {:induction false} StopAll(p: Pool) returns (steps: seq<Step>, p': Pool)
    requires Cancelling(p)
    ensures Leads(p, steps, p') && AllEnded(p')
    ensures p'.phase == p.phase && p'.deliveries == p.deliveries && (Crashed in p'.workers <==> Crashed in p.workers)
    decreases WorkersWeight(p.workers)
  {
    if w: nat :| w < |p.workers| && !Ended(p.workers[w]) {
      WorkersWeightAt(p.workers, w, Stopped);
      UpdateMembers(p.workers, w, Stopped);
      var rest;
      rest, p' := StopAll(Do(p, StopWorker(w)));
      LeadsCons(p, StopWorker(w), rest, p');
      steps := [StopWorker(w)] + rest;
    } else {
      steps, p' := [], p;
    }
  }

  /** The cancel event can end the call with any delivery of now still running: it need only
      come when some worker has crashed. */
  lemma CancelLeavesRunning(p: Pool) returns (steps: seq<Step>, p': Pool)
    requires p.phase.Waiting? && Crashed in p.workers && SomePending(p.deliveries)
    ensures Leads(p, steps, p') && p'.phase == Returned(RaisedRun) && p'.deliveries == p.deliveries
  {
    var stopping := Do(p, Interrupt(false));
    var rest, ended := StopAll(stopping);
    LeadsCons(p, Interrupt(false), rest, ended);
    LeadsOn(p, [Interrupt(false)] + rest, ended, Gather);
    steps, p' := [Interrupt(false)] + rest + [Gather], Do(ended, Gather);
  }

  /** So can cancelling the call itself, a second time, once it waits for them. */
  lemma AbandonLeavesRunning(p: Pool, outer: bool) returns (steps: seq<Step>, p': Pool)
    requires p.phase.Waiting? && Crashed !in p.workers && SomePending(p.deliveries)
    ensures Leads(p, steps, p') && p'.phase == Returned(AbortedRun) && p'.deliveries == p.deliveries
  {
    var stopping := Do(p, Interrupt(outer));
    var rest, ended := StopAll(stopping);
    LeadsCons(p, Interrupt(outer), rest, ended);
    LeadsOn(p, [Interrupt(outer)] + rest, ended, Gather);
    LeadsOn(p, [Interrupt(outer)] + rest + [Gather], Do(ended, Gather), Abandon);
    steps, p' := [Interrupt(outer)] + rest + [Gather] + [Abandon], Do(Do(ended, Gather), Abandon);
  }

  /** Such a call is reachable: one of two deliveries has failed, the other still runs. */
  lemma TwoAnswered(a: AttemptResult, b: AttemptResult) returns (steps: seq<Step>, p: Pool)
    requires a.Key() != b.Key()
    ensures Leads(Begin([a.Key(), b.Key()], [], 2, true).value, steps, p)
    ensures p.phase.Waiting? && Crashed in p.workers && p.deliveries == [Raised, Pending]
  {
    TwoBegin(a.Key(), b.Key());
    var start := Begin([a.Key(), b.Key()], [], 2, true).value;
    var more, taken := TwoTaken(a.Key(), b.Key());
    var p3 := Do(taken, Answer(0, a));
    LeadsOn(start, more, taken, Answer(0, a));
    var p4 := Do(p3, Answer(1, b));
    LeadsOn(start, more + [Answer(0, a)], p3, Answer(1, b));
    var p5 := Do(p4, FinishDelivery(0, false));
    LeadsOn(start, more + [Answer(0, a)] + [Answer(1, b)], p4, FinishDelivery(0, false));
    p := Do(p5, Resume(0));
    LeadsOn(start, more + [Answer(0, a)] + [Answer(1, b)] + [FinishDelivery(0, false)], p5, Resume(0));
    steps := more + [Answer(0, a)] + [Answer(1, b)] + [FinishDelivery(0, false)] + [Resume(0)];
    assert p.workers[0] == Crashed;
  }

  lemma TwoTaken(a: AttemptKey, b: AttemptKey) returns (steps: seq<Step>, p: Pool)
    requires a != b
    ensures Begin([a, b], [], 2, true).Some? && Leads(Begin([a, b], [], 2, true).value, steps, p)
    ensures p == Pool([a, b], [], true, [], [Attempting(a), Attempting(b)], [], [], false, Waiting, [a, b], [])
  {
    TwoBegin(a, b);
    var start := Begin([a, b], [], 2, true).value;
    var p1 := Do(start, Next(0));
    LeadsOn(start, [], start, Next(0));
    p := Do(p1, Next(1));
    LeadsOn(start, [] + [Next(0)], p1, Next(1));
    steps := [] + [Next(0)] + [Next(1)];
  }

  lemma TwoBegin(a: AttemptKey, b: AttemptKey)
    requires a != b
    ensures Begin([a, b], [], 2, true)
         == Some(Pool([a, b], [], true, [b, a], [Ready, Ready], [], [], false, Waiting, [], []))
  {
    NothingDone([a, b]);
    var p := Begin([a, b], [], 2, true).value;
    assert p.queue == [b, a];
    assert |p.workers| == 2 && p.workers[0] == Ready && p.workers[1] == Ready;
    assert p.workers == [Ready, Ready];
  }

  lemma {:induction false} NothingDone(plan: seq<AttemptKey>)
    ensures Remaining(plan, []) == plan
  {
    if plan != [] {
      NothingDone(plan[1..]);
      assert plan[0] !in Keys([]);
    }
  }

  lemma {:induction false} AllTake(p: Pool, k: nat) returns (steps: seq<Step>, p': Pool)
    requires p.phase.Waiting? && k <= |p.workers| && |p.workers| - k <= |p.queue|
    requires forall w :: 0 <= w < k ==> p.workers[w].Attempting?
    requires forall w :: k <= w < |p.workers| ==> p.workers[w].Ready?
    ensures Leads(p, steps, p') && |p'.workers| == |p.workers|
    ensures forall w :: 0 <= w < |p'.workers| ==> p'.workers[w].Attempting?
    decreases |p.workers| - k
  {
    if k == |p.workers| {
      steps, p' := [], p;
    } else {
      var rest;
      rest, p' := AllTake(Do(p, Next(k)), k + 1);
      LeadsCons(p, Next(k), rest, p');
      steps := [Next(k)] + rest;
    }
  }

  lemma {:induction false} AllInFlight(workers: seq<Worker>)
    requires forall w :: 0 <= w < |workers| ==> workers[w].Attempting?
    ensures |InFlight(workers)| == |workers|
  {
    if workers != [] {
      AllInFlight(workers[1..]);
    }
  }

  /** As many agent calls do run at the same time as `concurrency` and the attempts left allow. */
  lemma UsesConcurrency(plan: seq<AttemptKey>, completed: seq<AttemptResult>, concurrency: int, reporting: bool)
    returns (steps: seq<Step>, p: Pool)
    requires concurrency >= 1
    ensures Begin(plan, completed, concurrency, reporting).Some?
    ensures Leads(Begin(plan, completed, concurrency, reporting).value, steps, p)
    ensures var left := |Remaining(plan, completed)|;
            |InFlight(p.workers)| == if concurrency < left then concurrency else left
  {
    var start := Begin(plan, completed, concurrency, reporting).value;
    steps, p := AllTake(start, 0);
    AllInFlight(p.workers);
  }

  /** However the call ends, its fresh results are of distinct planned attempts; when it
      returns a completed summary, together with what it resumed from they are the whole plan,
      each attempt exactly once. */
  lemma ResultsAreThePlan(plan: seq<AttemptKey>, completed: seq<AttemptResult>, concurrency: int, reporting: bool,
                          pools: seq<Pool>, steps: seq<Step>, i: nat)
    requires IsRun(plan, completed, concurrency, reporting, pools, steps) && i < |pools|
    requires Distinct(Keys(completed)) && forall k :: k in Keys(completed) ==> k in plan
    ensures completed <= pools[i].results
    ensures Distinct(Keys(pools[i].results)) && forall k :: k in Keys(pools[i].results) ==> k in plan
    ensures pools[i].phase == Returned(CompletedRun) ==> multiset(Keys(pools[i].results)) == multiset(plan)
  {
    RunInv(plan, completed, concurrency, reporting, pools, steps, i);
    PoolResults(pools[i], plan);
  }

  lemma PoolResults(p: Pool, plan: seq<AttemptKey>)
    requires Inv(p) && Distinct(plan) && p.todo == Remaining(plan, p.completed)
    requires Distinct(Keys(p.completed)) && forall k :: k in Keys(p.completed) ==> k in plan
    ensures Distinct(Keys(p.results)) && forall k :: k in Keys(p.results) ==> k in plan
    ensures p.phase == Returned(CompletedRun) ==> multiset(Keys(p.results)) == multiset(plan)
  {
    var answered := multiset(Keys(Fresh(p)));
    AllKeys(p);
    SplitPlan(plan, p.completed);
    assert multiset(Keys(p.results)) <= multiset(plan);
    SubmultisetDistinct(Keys(p.results), plan);
    if p.phase == Returned(CompletedRun) {
      CompletedIsWhole(p);
    }
  }

  lemma AllKeys(p: Pool)
    requires Inv(p)
    ensures multiset(Keys(p.results)) == multiset(Keys(p.completed)) + multiset(Keys(Fresh(p)))
    ensures multiset(Keys(Fresh(p))) <= multiset(p.todo)
  {
    assert p.results == p.completed + Fresh(p);
    KeysConcat(p.completed, Fresh(p));
    assert multiset(p.popped + Reversed(p.queue)) == multiset(p.popped) + multiset(Reversed(p.queue));
    Bounded(multiset(p.popped), multiset(Keys(Fresh(p))), InFlight(p.workers), multiset(p.interrupted));
  }

  lemma KeysConcat(a: seq<AttemptResult>, b: seq<AttemptResult>)
    ensures multiset(Keys(a + b)) == multiset(Keys(a)) + multiset(Keys(b))
  {
    assert Keys(a + b) == Keys(a) + Keys(b);
  }

  lemma Bounded(popped: multiset<AttemptKey>, answered: multiset<AttemptKey>, flight: multiset<AttemptKey>,
                cut: multiset<AttemptKey>)
    requires Balanced(popped, answered, flight, cut)
    ensures answered <= popped
  {
  }

  lemma CompletedIsWhole(p: Pool)
    requires Inv(p) && p.phase == Returned(CompletedRun)
    ensures multiset(Keys(Fresh(p))) == multiset(p.todo)
  {
    NoneInFlight(p.workers);
    assert Stopped !in p.workers;
    assert p.interrupted == [];
    if p.workers == [] {
      assert p.todo == [] && p.popped == [];
    } else {
      assert p.workers[0] in p.workers;
      assert p.queue == [];
    }
    assert p.popped == p.todo;
    assert multiset(p.popped) == multiset(Keys(Fresh(p))) + multiset{} + multiset{};
  }

  /** The completed attempts and the remaining ones make up the plan. */
  lemma SplitPlan(plan: seq<AttemptKey>, completed: seq<AttemptResult>)
    requires Distinct(plan) && Distinct(Keys(completed)) && forall k :: k in Keys(completed) ==> k in plan
    ensures multiset(Keys(completed)) + multiset(Remaining(plan, completed)) == multiset(plan)
  {
    RemainingDistinct(plan, completed);
    forall k: AttemptKey
      ensures multiset(Keys(completed))[k] + multiset(Remaining(plan, completed))[k] == multiset(plan)[k]
    {
      CountDistinct(plan, k);
      CountDistinct(Keys(completed), k);
      CountDistinct(Remaining(plan, completed), k);
    }
  }

  lemma SubmultisetDistinct(s: seq<AttemptKey>, t: seq<AttemptKey>)
    requires Distinct(t) && multiset(s) <= multiset(t)
    ensures Distinct(s) && forall k :: k in s ==> k in t
  {
    forall k | k in s
      ensures k in t
    {
      assert multiset(s)[k] > 0;
      CountDistinct(t, k);
    }
    forall i, j | 0 <= i < j < |s|
      ensures s[i] != s[j]
    {
      if s[i] == s[j] {
        assert s == s[..i] + ([s[i]] + (s[i + 1..j] + ([s[j]] + s[j + 1..])));
        assert multiset(s)[s[i]] >= 2;
        CountDistinct(t, s[i]);
      }
    }
  }

  // --- every schedule returns -------------------------------------------------------------

  function WorkerWeight(w: Worker): nat {
    match w
    case Attempting(_) => 4
    case Delivering(_) => 2
    case Ready => 1
    case _ => 0
  }

  function WorkersWeight(workers: seq<Worker>): nat {
    if workers == [] then 0 else WorkerWeight(workers[0]) + WorkersWeight(workers[1..])
  }

  function PendingCount(deliveries: seq<Delivery>): nat {
    if deliveries == [] then 0 else (if deliveries[0].Pending? then 1 else 0) + PendingCount(deliveries[1..])
  }

  function Measure(p: Pool): nat {
    5 * |p.queue| + WorkersWeight(p.workers) + PendingCount(p.deliveries)
    + match p.phase
      case Waiting => 3
      case Stopping(_) => 2
      case Settling(_, _) => 1
      case Returned(_) => 0
  }

  lemma {:induction false} WorkersWeightAt(workers: seq<Worker>, w: nat, next: Worker)
    requires w < |workers|
    ensures WorkersWeight(workers[w := next]) + WorkerWeight(workers[w]) == WorkersWeight(workers) + WorkerWeight(next)
  {
    if w == 0 {
      assert workers[w := next][1..] == workers[1..];
    } else {
      assert workers[w := next][1..] == workers[1..][w - 1 := next];
      WorkersWeightAt(workers[1..], w - 1, next);
    }
  }

  lemma {:induction false} PendingCountAt(deliveries: seq<Delivery>, i: nat, next: Delivery)
    requires i < |deliveries| && deliveries[i].Pending? && !next.Pending?
    ensures PendingCount(deliveries[i := next]) + 1 == PendingCount(deliveries)
  {
    if i == 0 {
      assert deliveries[i := next][1..] == deliveries[1..];
    } else {
      assert deliveries[i := next][1..] == deliveries[1..][i - 1 := next];
      PendingCountAt(deliveries[1..], i - 1, next);
    }
  }

  lemma {:induction false} PendingCountGrows(deliveries: seq<Delivery>)
    ensures PendingCount(deliveries + [Pending]) == PendingCount(deliveries) + 1
  {
    if deliveries == [] {
      assert deliveries + [Pending] == [Pending];
    } else {
      assert (deliveries + [Pending])[1..] == deliveries[1..] + [Pending];
      PendingCountGrows(deliveries[1..]);
    }
  }

  /** Every step lowers the measure, so no schedule goes on for ever. */
  lemma StepsEnd(p: Pool, step: Step)
    requires Enabled(p, step)
    ensures Measure(Do(p, step)) < Measure(p)
  {
    match step
    case Next(w) => NextEnds(p, w);
    case Answer(w, result) => AnswerEnds(p, w, result);
    case FinishDelivery(i, ok) => PendingCountAt(p.deliveries, i, if ok then Delivered else Raised);
    case Resume(w) => WorkersWeightAt(p.workers, w, Do(p, step).workers[w]);
    case StopWorker(w) => WorkersWeightAt(p.workers, w, Stopped);
    case _ =>
  }

  lemma NextEnds(p: Pool, w: nat)
    requires Enabled(p, Next(w))
    ensures Measure(Do(p, Next(w))) < Measure(p)
  {
    WorkersWeightAt(p.workers, w, Do(p, Next(w)).workers[w]);
  }

  lemma AnswerEnds(p: Pool, w: nat, result: AttemptResult)
    requires Enabled(p, Answer(w, result))
    ensures Measure(Do(p, Answer(w, result))) < Measure(p)
  {
    WorkersWeightAt(p.workers, w, Do(p, Answer(w, result)).workers[w]);
    PendingCountGrows(p.deliveries);
  }

  /** A cancel, or a delivery that fails. */
  predicate Disturbs(step: Step) {
    step.Interrupt? || step.Overtake? || step.Abandon? || step.StopWorker? || (step.FinishDelivery? && !step.ok)
  }

  function AnyResult(key: AttemptKey): AttemptResult {
    AttemptResult(key.caseId, key.attempt, AttemptPassed, None, [], None, None, None, None, None, 0.0, 0)
  }

  /** Until the call returns, some task can go on, without anybody cancelling: a worker, the
      agent it waits for, a delivery, or the call itself. So the call always returns. */
  lemma NeverStuck(p: Pool) returns (step: Step)
    requires Inv(p) && !p.phase.Returned?
    ensures Enabled(p, step) && !Disturbs(step)
  {
    if w: nat :| w < |p.workers| && !Ended(p.workers[w]) {
      match p.workers[w]
      case Ready => step := Next(w);
      case Attempting(key) => step := Answer(w, AnyResult(key));
      case Delivering(i) => step := if p.deliveries[i].Pending? then FinishDelivery(i, true) else Resume(w);
    } else if p.phase.Settling? {
      if i: nat :| i < |p.deliveries| && p.deliveries[i].Pending? {
        step := FinishDelivery(i, true);
      } else {
        step := Return;
      }
    } else {
      step := Gather;
    }
  }
}
