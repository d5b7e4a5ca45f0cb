/** Live progress of one run: processes commit status changes and later publish what they read
    back; any number of streams subscribe, take a snapshot, and forward events until the first
    terminal one. Every interleaving is a run of this machine. */
module Progress {
  import opened AttemptResults
  import opened EventBus
  import opened RunStore

  /** A process between its commit (or its reason to report) and its publish. */
  datatype Writer = Committed | Holding(event: Event) | Done

  datatype Phase = Opening | Streaming | Ended | Gone

  /** `from` counts the events published before the subscription; `sent` are the events
      forwarded after the snapshot. */
  datatype Stream = Stream(phase: Phase, from: Option<nat>, snapshot: Option<Status>, sent: seq<Event>,
      queue: seq<Event>)

  /** `published` is a history. `crashed` says some process died before its publish. */
  datatype System = System(status: Status, writers: seq<Writer>, streams: seq<Stream>, published: seq<Event>,
      crashed: bool)

  datatype Step =
    | Commit(to: Status)
    | Report
    | ReportAttempt(key: AttemptKey)
    | ReadBack(writer: nat)
    | Publish(writer: nat)
    | Crash(writer: nat)
    | Connect
    | Subscribe(stream: nat)
    | TakeSnapshot(stream: nat)
    | Next(stream: nat)
    | Disconnect(stream: nat)

  predicate Terminal(event: Event) {
    event.StatusEvent? && !Live(event.status)
  }

  predicate Subscribed(s: Stream) {
    s.from.Some? && (s.phase.Opening? || s.phase.Streaming?)
  }

  /** `subscribeFirst` is how `stream_run` orders its two reads; without it, the other order. */
  predicate Enabled(subscribeFirst: bool, s: System, step: Step) {
    match step
    case Commit(to) => Live(s.status) && to != Queued
    case Report => true
    case ReportAttempt(_) => true
    case ReadBack(writer) => writer < |s.writers| && s.writers[writer].Committed?
    case Publish(writer) => writer < |s.writers| && s.writers[writer].Holding?
    case Crash(writer) => writer < |s.writers| && !s.writers[writer].Done?
    case Connect => true
    case Subscribe(stream) =>
      && stream < |s.streams| && s.streams[stream].phase.Opening? && s.streams[stream].from.None?
      && (subscribeFirst || s.streams[stream].snapshot.Some?)
    case TakeSnapshot(stream) =>
      && stream < |s.streams| && s.streams[stream].phase.Opening? && s.streams[stream].snapshot.None?
      && (subscribeFirst ==> s.streams[stream].from.Some?)
    case Next(stream) => stream < |s.streams| && s.streams[stream].phase.Streaming? && s.streams[stream].queue != []
    case Disconnect(stream) =>
        stream < |s.streams| && (s.streams[stream].phase.Opening? || s.streams[stream].phase.Streaming?)
  }

  /** Both reads done, the snapshot goes out, and a terminal one ends the stream. */
  function Opened(s: Stream): Stream {
    if s.from.None? || s.snapshot.None? then s
    else s.(phase := if Live(s.snapshot.value) then Streaming else Ended)
  }

  function Receive(s: Stream): Stream
    requires s.queue != []
  {
    s.(sent := s.sent + [s.queue[0]], queue := s.queue[1..], phase := if Terminal(s.queue[0]) then Ended else s.phase)
  }

  function Deliver(s: Stream, event: Event): Stream {
    if Subscribed(s) then s.(queue := s.queue + [event]) else s
  }

  function DeliverAll(streams: seq<Stream>, event: Event): seq<Stream> {
    seq(|streams|, i requires 0 <= i < |streams| => Deliver(streams[i], event))
  }

  function Do(s: System, step: Step): System
    requires Enabled(true, s, step) || Enabled(false, s, step)
  {
    match step
    case Commit(to) => s.(status := to, writers := s.writers + [Committed])
    case Report => s.(writers := s.writers + [Committed])
    case ReportAttempt(key) => s.(writers := s.writers + [Holding(AttemptEvent(key))])
    case ReadBack(writer) => s.(writers := s.writers[writer := Holding(StatusEvent(s.status))])
    case Publish(writer) =>
      var event := s.writers[writer].event;
      s.(writers := s.writers[writer := Done], published := s.published + [event],
          streams := DeliverAll(s.streams, event))
    case Crash(writer) => s.(writers := s.writers[writer := Done], crashed := true)
    case Connect => s.(streams := s.streams + [Stream(Opening, None, None, [], [])])
    case Subscribe(stream) =>
        s.(streams := s.streams[stream := Opened(s.streams[stream].(from := Some(|s.published|)))])
    case TakeSnapshot(stream) =>
        s.(streams := s.streams[stream := Opened(s.streams[stream].(snapshot := Some(s.status)))])
    case Next(stream) => s.(streams := s.streams[stream := Receive(s.streams[stream])])
    case Disconnect(stream) => s.(streams := s.streams[stream := s.streams[stream].(phase := Gone)])
  }

  ghost predicate IsRun(subscribeFirst: bool, states: seq<System>, steps: seq<Step>) {
    && |states| == |steps| + 1
    && states[0] == System(Queued, [], [], [], false)
    && (forall i :: 0 <= i < |steps| ==>
          Enabled(subscribeFirst, states[i], steps[i]) && states[i + 1] == Do(states[i], steps[i]))
  }

  // --- invariants -----------------------------------------------------------------------

  /** Nothing is lost, repeated or reordered between the bus and one stream, and a stream has
      ended exactly when it has shown a terminal status, which is the last thing it showed. */
  ghost predicate StreamInv(s: Stream, status: Status, published: seq<Event>) {
    && (s.from.None? ==> s.sent == [] && s.queue == [] && !s.phase.Streaming? && !s.phase.Ended?)
    && (s.from.Some? ==> s.from.value <= |published| && s.sent + s.queue <= published[s.from.value..])
    && (Subscribed(s) ==> s.sent + s.queue == published[s.from.value..])
    && (s.snapshot.Some? && !Live(s.snapshot.value) ==> s.snapshot.value == status)
    && (s.phase.Opening? ==> s.sent == [])
    && (s.phase.Streaming? ==> s.snapshot.Some? && Live(s.snapshot.value) && forall i :: 0 <= i < |s.sent| ==>
        !Terminal(s.sent[i]))
    && (s.phase.Ended? ==> EndedWell(s))
  }

  ghost predicate EndedWell(s: Stream) {
    && s.snapshot.Some?
    && (!Live(s.snapshot.value) ==> s.sent == [])
    && (Live(s.snapshot.value) ==>
          && s.sent != [] && Terminal(s.sent[|s.sent| - 1])
          && forall i :: 0 <= i < |s.sent| - 1 ==> !Terminal(s.sent[i]))
  }

  /** Having subscribed after a terminal event, a stream sees the end in its snapshot. */
  ghost predicate LateSeesEnd(s: Stream, published: seq<Event>) {
    && (s.snapshot.Some? ==> s.from.Some?)
    && (s.snapshot.Some? && Live(s.snapshot.value) ==>
          forall j :: 0 <= j < s.from.value && j < |published| ==> !Terminal(published[j]))
  }

  /** A terminal status that anyone holds or has published is the run's. */
  ghost predicate Truthful(status: Status, writers: seq<Writer>, published: seq<Event>) {
    && (forall j :: 0 <= j < |published| && Terminal(published[j]) ==> published[j].status == status)
    && (forall w :: 0 <= w < |writers| && writers[w].Holding? && Terminal(writers[w].event) ==>
        writers[w].event.status == status)
  }

  predicate Owes(w: Writer) {
    w.Committed? || (w.Holding? && Terminal(w.event))
  }

  /** An ended run has been announced, or someone alive still has to, or someone died. */
  ghost predicate Announced(s: System) {
    !Live(s.status) && !s.crashed ==>
      || (exists j :: 0 <= j < |s.published| && Terminal(s.published[j]))
      || (exists w :: 0 <= w < |s.writers| && Owes(s.writers[w]))
  }

  ghost predicate Inv(subscribeFirst: bool, s: System) {
    && (forall i :: 0 <= i < |s.streams| ==> StreamInv(s.streams[i], s.status, s.published))
    && (subscribeFirst ==> forall i :: 0 <= i < |s.streams| ==> LateSeesEnd(s.streams[i], s.published))
    && Truthful(s.status, s.writers, s.published)
    && Announced(s)
  }

  lemma DeliverKeeps(s: Stream, status: Status, published: seq<Event>, event: Event)
    requires StreamInv(s, status, published)
    ensures StreamInv(Deliver(s, event), status, published + [event])
  {
    if s.from.Some? {
      var k := s.from.value;
      assert (published + [event])[k..] == published[k..] + [event];
      if Subscribed(s) {
        assert s.sent + (s.queue + [event]) == (s.sent + s.queue) + [event];
      }
    }
  }

  lemma ReceiveKeeps(s: Stream, status: Status, published: seq<Event>)
    requires StreamInv(s, status, published) && s.phase.Streaming? && s.queue != []
    ensures StreamInv(Receive(s), status, published)
  {
    assert (s.sent + [s.queue[0]]) + s.queue[1..] == s.sent + s.queue;
  }

  lemma OpenKeeps(s: Stream, status: Status, published: seq<Event>)
    requires StreamInv(s, status, published) && s.phase.Opening?
    ensures s.from.None? ==> StreamInv(Opened(s.(from := Some(|published|))), status, published)
    ensures s.snapshot.None? ==> StreamInv(Opened(s.(snapshot := Some(status))), status, published)
  {
    assert published[|published|..] == [];
  }

  lemma StatusKeeps(s: Stream, status: Status, to: Status, published: seq<Event>)
    requires StreamInv(s, status, published) && Live(status)
    ensures StreamInv(s, to, published)
  {
  }

  lemma StepKeepsStream(subscribeFirst: bool, s: System, step: Step, i: nat)
    requires Inv(subscribeFirst, s) && Enabled(subscribeFirst, s, step) && i < |Do(s, step).streams|
    ensures StreamInv(Do(s, step).streams[i], Do(s, step).status, Do(s, step).published)
  {
    if i < |s.streams| {
      assert StreamInv(s.streams[i], s.status, s.published);
      match step
      case Commit(to) => StatusKeeps(s.streams[i], s.status, to, s.published);
      case Publish(writer) => DeliverKeeps(s.streams[i], s.status, s.published, s.writers[writer].event);
      case Subscribe(stream) => if stream == i { OpenKeeps(s.streams[i], s.status, s.published); }
      case TakeSnapshot(stream) => if stream == i { OpenKeeps(s.streams[i], s.status, s.published); }
      case Next(stream) => if stream == i { ReceiveKeeps(s.streams[i], s.status, s.published); }
      case _ =>
    }
  }

  lemma StepKeepsLate(s: System, step: Step, i: nat)
    requires Inv(true, s) && Enabled(true, s, step) && i < |Do(s, step).streams|
    ensures LateSeesEnd(Do(s, step).streams[i], Do(s, step).published)
  {
    if i < |s.streams| {
      assert LateSeesEnd(s.streams[i], s.published) && StreamInv(s.streams[i], s.status, s.published);
    }
  }

  lemma StepKeepsTruthful(subscribeFirst: bool, s: System, step: Step)
    requires Inv(subscribeFirst, s) && Enabled(subscribeFirst, s, step)
    ensures Truthful(Do(s, step).status, Do(s, step).writers, Do(s, step).published)
  {
  }

  lemma StepKeepsAnnounced(subscribeFirst: bool, s: System, step: Step)
    requires Inv(subscribeFirst, s) && Enabled(subscribeFirst, s, step)
    ensures Announced(Do(s, step))
  {
    var t := Do(s, step);
    if !Live(t.status) && !t.crashed {
      match step
      case Commit(_) => assert Owes(t.writers[|s.writers|]);
      case Publish(writer) =>
        assert t.published[|s.published|] == s.writers[writer].event;
        KeepsAnnouncement(s, t, writer);
      case ReadBack(writer) =>
        assert Owes(t.writers[writer]);
      case Crash(_) =>
      case _ => KeepsAnnouncement(s, t, |s.writers|);
    }
  }

  lemma KeepsAnnouncement(s: System, t: System, w: nat)
    requires Announced(s) && !Live(s.status) && !s.crashed
    requires |s.writers| <= |t.writers| && forall v :: 0 <= v < |s.writers| && v != w ==> t.writers[v] == s.writers[v]
    requires s.published <= t.published
    requires w < |s.writers| && Owes(s.writers[w]) ==> exists j :: 0 <= j < |t.published| && Terminal(t.published[j])
    ensures Announced(t)
  {
    if j :| 0 <= j < |s.published| && Terminal(s.published[j]) {
      assert Terminal(t.published[j]);
    } else {
      var v :| 0 <= v < |s.writers| && Owes(s.writers[v]);
      if v != w {
        assert Owes(t.writers[v]);
      }
    }
  }

  lemma {:induction false} RunInv(subscribeFirst: bool, states: seq<System>, steps: seq<Step>, k: nat)
    requires IsRun(subscribeFirst, states, steps) && k <= |steps|
    ensures Inv(subscribeFirst, states[k])
  {
    if k > 0 {
      RunInv(subscribeFirst, states, steps, k - 1);
      var s, step := states[k - 1], steps[k - 1];
      forall i: nat | i < |states[k].streams|
        ensures StreamInv(states[k].streams[i], states[k].status, states[k].published)
        ensures subscribeFirst ==> LateSeesEnd(states[k].streams[i], states[k].published)
      {
        StepKeepsStream(subscribeFirst, s, step, i);
        if subscribeFirst {
          StepKeepsLate(s, step, i);
        }
      }
      StepKeepsTruthful(subscribeFirst, s, step);
      StepKeepsAnnounced(subscribeFirst, s, step);
    }
  }

  // --- what clients may rely on -----------------------------------------------------------

  /** A stream forwards what was published since it subscribed: all of it, once, in order. */
  lemma NothingIsMissed(subscribeFirst: bool, states: seq<System>, steps: seq<Step>, k: nat, i: nat)
    requires IsRun(subscribeFirst, states, steps) && k <= |steps| && i < |states[k].streams|
    requires Subscribed(states[k].streams[i])
    ensures var s := states[k].streams[i];
            s.from.value <= |states[k].published| && s.sent + s.queue == states[k].published[s.from.value..]
  {
    RunInv(subscribeFirst, states, steps, k);
    assert StreamInv(states[k].streams[i], states[k].status, states[k].published);
  }

  predicate HoldsOrHeld(s: System, w: nat, event: Event) {
    w < |s.writers| && (s.writers[w] == Holding(event) || s.writers[w].Done?)
  }

  lemma HoldsOn(subscribeFirst: bool, s: System, step: Step, w: nat, event: Event)
    requires Enabled(subscribeFirst, s, step) && HoldsOrHeld(s, w, event)
    ensures HoldsOrHeld(Do(s, step), w, event)
  {
  }

  lemma {:induction false} HeldSince(subscribeFirst: bool, states: seq<System>, steps: seq<Step>, k: nat, m: nat,
                                     w: nat, event: Event)
    requires IsRun(subscribeFirst, states, steps) && k <= m <= |steps| && HoldsOrHeld(states[k], w, event)
    ensures HoldsOrHeld(states[m], w, event)
    decreases m - k
  {
    if k < m {
      HeldSince(subscribeFirst, states, steps, k, m - 1, w, event);
      HoldsOn(subscribeFirst, states[m - 1], steps[m - 1], w, event);
    }
  }

  /** A saved attempt that a process reports is what it publishes, to every stream that has
      subscribed by then, at the end of what it already holds. */
  lemma ReportedAttemptIsSent(subscribeFirst: bool, states: seq<System>, steps: seq<Step>, k: nat, m: nat)
    requires IsRun(subscribeFirst, states, steps) && k < m < |steps|
    requires steps[k].ReportAttempt? && steps[m] == Publish(|states[k].writers|)
    ensures states[m + 1].published == states[m].published + [AttemptEvent(steps[k].key)]
    ensures |states[m + 1].streams| == |states[m].streams|
    ensures forall i :: 0 <= i < |states[m].streams| && Subscribed(states[m].streams[i]) ==>
              states[m + 1].streams[i].queue == states[m].streams[i].queue + [AttemptEvent(steps[k].key)]
  {
    HeldSince(subscribeFirst, states, steps, k + 1, m, |states[k].writers|, AttemptEvent(steps[k].key));
  }

  /** The status a stream showed last: its snapshot's, or that of its last status event. */
  function LastShown(snapshot: Status, sent: seq<Event>): Status {
    if sent == [] then snapshot
    else if sent[|sent| - 1].StatusEvent? then sent[|sent| - 1].status
    else LastShown(snapshot, sent[..|sent| - 1])
  }

  /** Every stream that ended showed the run's real, final status last and no terminal status
      before it; so all streams of a run agree on its outcome. */
  lemma EndedStreamsAgree(subscribeFirst: bool, states: seq<System>, steps: seq<Step>, k: nat, i: nat)
    requires IsRun(subscribeFirst, states, steps) && k <= |steps| && i < |states[k].streams|
    requires states[k].streams[i].phase.Ended?
    ensures var s := states[k].streams[i];
            && s.snapshot.Some? && !Live(states[k].status)
            && LastShown(s.snapshot.value, s.sent) == states[k].status
            && forall j :: 0 <= j < |s.sent| - 1 ==> !Terminal(s.sent[j])
  {
    RunInv(subscribeFirst, states, steps, k);
    var s := states[k].streams[i];
    assert StreamInv(s, states[k].status, states[k].published);
    if s.sent != [] {
      var last, from := |s.sent| - 1, s.from.value;
      assert (s.sent + s.queue)[last] == s.sent[last];
      assert states[k].published[from..][last] == states[k].published[from + last];
    }
  }

  /** No terminal event is lost: once it is published, every stream that is still open holds
      it in its queue. */
  lemma TerminalIsQueued(states: seq<System>, steps: seq<Step>, k: nat, i: nat, j: nat)
    requires IsRun(true, states, steps) && k <= |steps| && i < |states[k].streams|
    requires states[k].streams[i].phase.Streaming?
    requires j < |states[k].published| && Terminal(states[k].published[j])
    ensures exists q :: 0 <= q < |states[k].streams[i].queue| && Terminal(states[k].streams[i].queue[q])
  {
    RunInv(true, states, steps, k);
    var s := states[k].streams[i];
    assert StreamInv(s, states[k].status, states[k].published) && LateSeesEnd(s, states[k].published);
    var from := s.from.value;
    var at := j - from;
    assert (s.sent + s.queue)[at] == states[k].published[from..][at] == states[k].published[j];
    assert at >= |s.sent|;
    assert Terminal(s.queue[at - |s.sent|]);
  }

  /** A stream left to receive on its own. */
  function Drained(s: Stream): Stream
    decreases |s.queue|
  {
    if s.phase.Streaming? && s.queue != [] then Drained(Receive(s)) else s
  }

  lemma {:induction false} DrainingEnds(s: Stream, q: nat)
    requires s.phase.Streaming? && q < |s.queue| && Terminal(s.queue[q])
    ensures Drained(s).phase.Ended?
    decreases |s.queue|
  {
    if q > 0 && !Terminal(s.queue[0]) {
      DrainingEnds(Receive(s), q - 1);
    }
  }

  /** Once a run has ended and every process that had to announce something has done so, none
      having died, each open stream ends by receiving what it already holds. */
  lemma EveryStreamEnds(states: seq<System>, steps: seq<Step>, k: nat, i: nat)
    requires IsRun(true, states, steps) && k <= |steps| && i < |states[k].streams|
    requires states[k].streams[i].phase.Streaming?
    requires !Live(states[k].status) && !states[k].crashed
    requires forall w :: 0 <= w < |states[k].writers| ==> states[k].writers[w].Done?
    ensures Drained(states[k].streams[i]).phase.Ended?
  {
    RunInv(true, states, steps, k);
    var j :| 0 <= j < |states[k].published| && Terminal(states[k].published[j]);
    TerminalIsQueued(states, steps, k, i, j);
    var q :| 0 <= q < |states[k].streams[i].queue| && Terminal(states[k].streams[i].queue[q]);
    DrainingEnds(states[k].streams[i], q);
  }

  /** Taking `steps` one after another, without a new announcement of the status, leads from
      `s` to `s'`. */
  ghost predicate Leads(subscribeFirst: bool, s: System, steps: seq<Step>, s': System)
    decreases |steps|
  {
    if steps == [] then s == s'
    else Enabled(subscribeFirst, s, steps[0]) && !steps[0].Report?
         && Leads(subscribeFirst, Do(s, steps[0]), steps[1..], s')
  }

  ghost predicate CanEnd(subscribeFirst: bool, s: System, i: nat) {
    exists steps, s' :: Leads(subscribeFirst, s, steps, s') && i < |s'.streams| && s'.streams[i].phase.Ended?
  }

  predicate HoldsEnd(s: Stream) {
    exists q :: 0 <= q < |s.queue| && Terminal(s.queue[q])
  }

  predicate SomeoneOwes(s: System) {
    exists w :: 0 <= w < |s.writers| && Owes(s.writers[w])
  }

  lemma EndsLater(subscribeFirst: bool, s: System, step: Step, i: nat)
    requires Enabled(subscribeFirst, s, step) && !step.Report? && CanEnd(subscribeFirst, Do(s, step), i)
    ensures CanEnd(subscribeFirst, s, i)
  {
    var steps, s' :| Leads(subscribeFirst, Do(s, step), steps, s') && i < |s'.streams| && s'.streams[i].phase.Ended?;
    assert ([step] + steps)[1..] == steps;
    assert Leads(subscribeFirst, s, [step] + steps, s');
  }

  lemma {:induction false} HolderCanEnd(subscribeFirst: bool, s: System, i: nat, q: nat)
    requires i < |s.streams| && s.streams[i].phase.Streaming?
    requires q < |s.streams[i].queue| && Terminal(s.streams[i].queue[q])
    ensures CanEnd(subscribeFirst, s, i)
    decreases |s.streams[i].queue|
  {
    var s' := Do(s, Next(i));
    if Terminal(s.streams[i].queue[0]) {
      assert Leads(subscribeFirst, s', [], s');
    } else {
      HolderCanEnd(subscribeFirst, s', i, q - 1);
    }
    EndsLater(subscribeFirst, s, Next(i), i);
  }

  lemma PublishedCanEnd(subscribeFirst: bool, s: System, i: nat, w: nat)
    requires i < |s.streams| && s.streams[i].phase.Streaming? && s.streams[i].from.Some?
    requires w < |s.writers| && s.writers[w].Holding? && Terminal(s.writers[w].event)
    ensures CanEnd(subscribeFirst, s, i)
  {
    var s' := Do(s, Publish(w));
    assert s'.streams[i] == Deliver(s.streams[i], s.writers[w].event);
    HolderCanEnd(subscribeFirst, s', i, |s.streams[i].queue|);
    EndsLater(subscribeFirst, s, Publish(w), i);
  }

  lemma OwedCanEnd(subscribeFirst: bool, s: System, i: nat, w: nat)
    requires !Live(s.status) && i < |s.streams| && s.streams[i].phase.Streaming? && s.streams[i].from.Some?
    requires w < |s.writers| && Owes(s.writers[w])
    ensures CanEnd(subscribeFirst, s, i)
  {
    if s.writers[w].Committed? {
      PublishedCanEnd(subscribeFirst, Do(s, ReadBack(w)), i, w);
      EndsLater(subscribeFirst, s, ReadBack(w), i);
    } else {
      PublishedCanEnd(subscribeFirst, s, i, w);
    }
  }

  /** A stream that nothing on its way will end. */
  ghost predicate Waits(s: System, i: nat) {
    && !Live(s.status) && !SomeoneOwes(s) && i < |s.streams|
    && (s.streams[i].phase.Streaming? || s.streams[i].phase.Gone?) && !HoldsEnd(s.streams[i])
  }

  lemma NobodyOwes(s: System, t: System, w: nat)
    requires !SomeoneOwes(s) && |s.writers| <= |t.writers|
    requires forall v :: 0 <= v < |t.writers| && v != w ==> v < |s.writers| && t.writers[v] == s.writers[v]
    requires w < |t.writers| ==> !Owes(t.writers[w])
    ensures !SomeoneOwes(t)
  {
  }

  lemma WaitsOn(subscribeFirst: bool, s: System, step: Step, i: nat)
    requires Waits(s, i) && Enabled(subscribeFirst, s, step) && !step.Report?
    ensures Waits(Do(s, step), i)
  {
    var t := Do(s, step);
    match step
    case Publish(writer) =>
      NobodyOwes(s, t, writer);
      assert t.streams[i] == Deliver(s.streams[i], s.writers[writer].event);
    case ReadBack(writer) => assert Owes(s.writers[writer]);
    case Crash(writer) => NobodyOwes(s, t, writer);
    case ReportAttempt(_) => NobodyOwes(s, t, |s.writers|);
    case Next(stream) =>
      if stream == i {
        assert s.streams[i].queue[0] in s.streams[i].queue;
      }
    case _ =>
  }

  lemma {:induction false} WaitsForEver(subscribeFirst: bool, s: System, steps: seq<Step>, s': System, i: nat)
    requires Waits(s, i) && Leads(subscribeFirst, s, steps, s')
    ensures Waits(s', i)
    decreases |steps|
  {
    if steps != [] {
      WaitsOn(subscribeFirst, s, steps[0], i);
      WaitsForEver(subscribeFirst, Do(s, steps[0]), steps[1..], s', i);
    }
  }

  /** Which open streams of an ended run can still end, unless its status is announced anew:
      exactly those that hold a terminal event, or all of them while someone has one to
      publish. Whoever died in between, or in what order the reads are, makes no other
      difference. */
  lemma CanEndExactly(subscribeFirst: bool, states: seq<System>, steps: seq<Step>, k: nat, i: nat)
    requires IsRun(subscribeFirst, states, steps) && k <= |steps| && i < |states[k].streams|
    requires states[k].streams[i].phase.Streaming? && !Live(states[k].status)
    ensures CanEnd(subscribeFirst, states[k], i) <==> HoldsEnd(states[k].streams[i]) || SomeoneOwes(states[k])
  {
    var s := states[k];
    RunInv(subscribeFirst, states, steps, k);
    assert StreamInv(s.streams[i], s.status, s.published);
    if q: nat :| q < |s.streams[i].queue| && Terminal(s.streams[i].queue[q]) {
      HolderCanEnd(subscribeFirst, s, i, q);
    } else if w: nat :| w < |s.writers| && Owes(s.writers[w]) {
      OwedCanEnd(subscribeFirst, s, i, w);
    } else if CanEnd(subscribeFirst, s, i) {
      var more, s' :| Leads(subscribeFirst, s, more, s') && i < |s'.streams| && s'.streams[i].phase.Ended?;
      WaitsForEver(subscribeFirst, s, more, s', i);
      assert false;
    }
  }

  /** Even with the right order of reads a stream can be left waiting: the process that ended
      the run dies before it announces it. */
  lemma CrashLeavesWaiting() returns (states: seq<System>, steps: seq<Step>)
    ensures IsRun(true, states, steps)
    ensures var s := states[|steps|];
            s.status == Completed && |s.streams| == 1 && s.streams[0].phase.Streaming? && !CanEnd(true, s, 0)
  {
    steps := [Connect, Subscribe(0), TakeSnapshot(0), Commit(Completed), Crash(0)];
    var s0 := System(Queued, [], [], [], false);
    var s1 := Do(s0, steps[0]);
    var s2 := Do(s1, steps[1]);
    var s3 := Do(s2, steps[2]);
    var s4 := Do(s3, steps[3]);
    states := [s0, s1, s2, s3, s4, Do(s4, steps[4])];
    CanEndExactly(true, states, steps, 5, 0);
  }

  /** The order of the two reads matters: with the snapshot first, a run can end and be
      announced between them, and the stream then waits for ever. */
  lemma SnapshotFirstWaitsForever() returns (states: seq<System>, steps: seq<Step>)
    ensures IsRun(false, states, steps)
    ensures var s := states[|steps|];
            && s.status == Completed && !s.crashed && s.writers == [Done] && s.published == [StatusEvent(Completed)]
            && |s.streams| == 1 && s.streams[0].phase.Streaming? && s.streams[0].queue == []
  {
    steps := [Connect, TakeSnapshot(0), Commit(Completed), ReadBack(0), Publish(0), Subscribe(0)];
    var s0 := System(Queued, [], [], [], false);
    var s1 := Do(s0, steps[0]);
    var s2 := Do(s1, steps[1]);
    var s3 := Do(s2, steps[2]);
    var s4 := Do(s3, steps[3]);
    var s5 := Do(s4, steps[4]);
    states := [s0, s1, s2, s3, s4, s5, Do(s5, steps[5])];
  }
}
