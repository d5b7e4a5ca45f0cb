/** The bus carries the streams: while the subscriptions of a run mirror its streams, what the
    in-process bus does to them is what the progress machine does to the streams. */
module ProgressBus {
  import opened AttemptResults
  import opened EventBus
  import opened Progress
  import opened RunStore

  /** Each stream that is subscribed has its own open subscription, holding what the stream has
      still to receive, and no other subscription of the run is open. */
  ghost predicate Mirrors(bus: InProcessBus, run: RunId, subs: seq<QueueSubscription?>, streams: seq<Stream>)
    reads bus, subs
  {
    && bus.Valid()
    && |subs| == |streams|
    && (forall i, j :: 0 <= i < j < |subs| && subs[i] != null ==> subs[i] != subs[j])
    && (forall i :: 0 <= i < |subs| && Subscribed(streams[i]) ==>
          subs[i] != null && subs[i] in bus.Of(run) && subs[i].queue == streams[i].queue)
    && (forall i :: 0 <= i < |subs| && subs[i] != null && subs[i] in bus.Of(run) ==> Subscribed(streams[i]))
    && (forall s :: s in bus.Of(run) ==> s in subs)
  }

  /** Publishing on the bus is delivering to every stream. */
  method PublishEvent(bus: InProcessBus, run: RunId, event: Event, ghost subs: seq<QueueSubscription?>,
                      ghost streams: seq<Stream>)
    requires Mirrors(bus, run, subs, streams)
    modifies bus.Of(run)
    ensures Mirrors(bus, run, subs, DeliverAll(streams, event))
  {
    bus.Publish(run, event);
  }

  /** Opening a subscription is a stream's `Subscribe`, before its snapshot. */
  method OpenStream(bus: InProcessBus, run: RunId, ghost subs: seq<QueueSubscription?>, ghost streams: seq<Stream>,
                    ghost i: nat, ghost published: nat)
    returns (subscription: QueueSubscription)
    requires Mirrors(bus, run, subs, streams)
    requires i < |streams| && streams[i].phase.Opening? && streams[i].from.None? && streams[i].queue == []
    modifies bus
    ensures Mirrors(bus, run, subs[i := subscription], streams[i := streams[i].(from := Some(published))])
  {
    subscription := bus.Subscribe(run);
    ghost var subs' := subs[i := subscription];
    forall s | s in bus.Of(run)
      ensures s in subs'
    {
      if s == subscription {
        assert subs'[i] == s;
      } else {
        var k :| 0 <= k < |subs| && subs[k] == s;
        assert subs'[k] == s;
      }
    }
  }

  /** One turn of the event loop: the next event is forwarded, and a terminal one closes the
      subscription. */
  method ForwardNext(bus: InProcessBus, run: RunId, subscription: QueueSubscription,
                     ghost subs: seq<QueueSubscription?>, ghost streams: seq<Stream>, ghost i: nat)
    returns (event: Option<Event>, ended: bool)
    requires Mirrors(bus, run, subs, streams)
    requires i < |streams| && streams[i].phase.Streaming? && streams[i].from.Some? && subs[i] == subscription
    modifies bus, subscription
    ensures event.None? <==> streams[i].queue == []
    ensures event.None? ==> !ended && Mirrors(bus, run, subs, streams)
    ensures event.Some? ==> event.value == streams[i].queue[0] && (ended <==> Receive(streams[i]).phase.Ended?)
    ensures event.Some? ==> Mirrors(bus, run, subs, streams[i := Receive(streams[i])])
  {
    event := subscription.Next();
    ended := event.Some? && event.value.StatusEvent? && !Live(event.value.status);
    if ended {
      bus.Unsubscribe(run, subscription);
    }
  }
}
