/** The in-process progress bus: each subscription of a run holds its own queue, and a published
    event is put on the queue of every subscription open at that moment. */
module EventBus {
  import opened AttemptResults
  import opened RunStore

  type RunId = nat

  datatype Event =
    | StatusEvent(status: Status)
    | AttemptEvent(key: AttemptKey)

  class QueueSubscription {
    var queue: seq<Event>

    constructor ()
      ensures queue == []
    {
      queue := [];
    }

    /** The next event, or none when none arrives in time. */
    method Next() returns (event: Option<Event>)
      modifies this
      ensures event.Some? <==> old(queue) != []
      ensures event.Some? ==> old(queue) == [event.value] + queue
      ensures event.None? ==> queue == old(queue)
    {
      if queue == [] {
        return None;
      }
      event := Some(queue[0]);
      queue := queue[1..];
    }
  }

  class InProcessBus {
    var subscribers: map<RunId, set<QueueSubscription>>

    /** No run is left with an empty set, and no subscription serves two runs. */
    ghost predicate Valid()
      reads this
    {
      && (forall run :: run in subscribers ==> subscribers[run] != {})
      && (forall a, b :: a in subscribers && b in subscribers && a != b ==> subscribers[a] !! subscribers[b])
    }

    function Of(run: RunId): set<QueueSubscription>
      reads this
    {
      if run in subscribers then subscribers[run] else {}
    }

    constructor ()
      ensures Valid() && subscribers == map[]
    {
      subscribers := map[];
    }

    /** Every subscription of the run gets the event once, behind what it already holds; no
        other subscription is touched. */
    method Publish(run: RunId, event: Event)
      requires Valid()
      modifies Of(run)
      ensures Valid() && subscribers == old(subscribers)
      ensures forall s :: s in Of(run) ==> s.queue == old(s.queue) + [event]
    {
      var rest := Of(run);
      while rest != {}
        invariant rest <= Of(run)
        invariant forall s :: s in rest ==> s.queue == old(s.queue)
        invariant forall s :: s in Of(run) - rest ==> s.queue == old(s.queue) + [event]
        decreases |rest|
      {
        var s :| s in rest;
        s.queue := s.queue + [event];
        rest := rest - {s};
      }
    }

    method Subscribe(run: RunId) returns (subscription: QueueSubscription)
      requires Valid()
      modifies this
      ensures Valid()
      ensures fresh(subscription) && subscription.queue == []
      ensures Of(run) == old(Of(run)) + {subscription}
      ensures forall other :: other != run ==> Of(other) == old(Of(other))
    {
      subscription := new QueueSubscription();
      subscribers := subscribers[run := Of(run) + {subscription}];
    }

    method Unsubscribe(run: RunId, subscription: QueueSubscription)
      requires Valid()
      modifies this
      ensures Valid()
      ensures Of(run) == old(Of(run)) - {subscription}
      ensures forall other :: other != run ==> Of(other) == old(Of(other))
      ensures run in subscribers <==> Of(run) != {}
    {
      var left := Of(run) - {subscription};
      subscribers := subscribers[run := left];
      if left == {} {
        subscribers := subscribers - {run};
      }
    }

    /** `aclose`. */
    method Close()
      modifies this
      ensures Valid() && subscribers == map[]
    {
      subscribers := map[];
    }
  }
}
