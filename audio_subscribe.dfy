/**
 * `subscribe` (src/audio.rs): libpulse's subscription callback pushes each
 * (facility, operation, index) notification into a bounded channel of
 * capacity 32 with `try_send`, so a notification that finds the channel full
 * is dropped rather than blocking the loop thread; the audio task pulls them in order.
 */
module Subscription {
  import opened Prelude

  const CHANNEL_CAPACITY: nat := 32

  /** libpulse's subscription facilities. */
  datatype Facility = Sink | Source | SinkInput | SourceOutput | Module | Client | SampleCache | Server | Card

  /** libpulse's subscription operations. */
  datatype EventOp = New | Changed | Removed

  datatype SubscriptionEvent = SubscriptionEvent(facility: Facility, op: EventOp, index: uint32)

  function Min(a: nat, b: nat): nat {
    if a <= b then a else b
  }

  /** `tx.try_send(ev)`: the new queue, and whether `ev` was accepted. */
  function TrySend(queue: seq<SubscriptionEvent>, ev: SubscriptionEvent): (seq<SubscriptionEvent>, bool) {
    if |queue| < CHANNEL_CAPACITY then (queue + [ev], true) else (queue, false)
  }

  /** A burst of notifications delivered before the audio task pulls any. */
  function SendAll(queue: seq<SubscriptionEvent>, burst: seq<SubscriptionEvent>): seq<SubscriptionEvent>
    decreases |burst|
  {
    if burst == [] then queue else SendAll(TrySend(queue, burst[0]).0, burst[1..])
  }

  /**
   * Drop-on-full keeps the OLDEST notifications: after a burst the queue holds
   * what was queued before followed by the first notifications of the burst,
   * up to the capacity, in order; the rest of the burst is lost.
   */
  lemma {:induction false} BurstKeepsOldest(queue: seq<SubscriptionEvent>, burst: seq<SubscriptionEvent>)
    requires |queue| <= CHANNEL_CAPACITY
    ensures SendAll(queue, burst) == (queue + burst)[..Min(CHANNEL_CAPACITY, |queue| + |burst|)]
    decreases |burst|
  {
    if burst == [] {
      assert queue + burst == queue;
    } else {
      var next := TrySend(queue, burst[0]).0;
      BurstKeepsOldest(next, burst[1..]);
      if |queue| < CHANNEL_CAPACITY {
        assert next + burst[1..] == queue + burst;
      } else {
        assert SendAll(next, burst[1..]) == queue by {
          assert (next + burst[1..])[..CHANNEL_CAPACITY] == queue;
        }
        assert (queue + burst)[..CHANNEL_CAPACITY] == queue;
      }
    }
  }

  /** The channel between the subscription callback and the audio task. */
  class EventFeed {
    var queue: seq<SubscriptionEvent>

    ghost predicate Valid()
      reads this
    {
      |queue| <= CHANNEL_CAPACITY
    }

    /** The channel `flume::bounded(32)` creates. */
    constructor ()
      ensures Valid() && queue == []
    {
      queue := [];
    }

    /** The subscription callback, invoked by libpulse for one notification. */
    method Notify(ev: SubscriptionEvent) returns (accepted: bool)
      requires Valid()
      modifies this
      ensures Valid()
      ensures (queue, accepted) == TrySend(old(queue), ev)
    {
      accepted := |queue| < CHANNEL_CAPACITY;
      if accepted {
        queue := queue + [ev];
      }
    }

    /** One poll of `events.next()`: the oldest queued notification, or `None` while nothing is queued. */
    method Next() returns (ev: Option<SubscriptionEvent>)
      requires Valid()
      modifies this
      ensures Valid()
      ensures old(queue) == [] ==> ev == None && queue == []
      ensures old(queue) != [] ==> ev == Some(old(queue)[0]) && queue == old(queue)[1..]
    {
      if queue == [] {
        ev := None;
      } else {
        ev := Some(queue[0]);
        queue := queue[1..];
      }
    }
  }
}
