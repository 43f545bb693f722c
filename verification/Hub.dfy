/**
 * The broadcast hub: a ring buffer with one position per receiver, refining the full history of what
 * was emitted.
 */
module Hub {
  import opened Tables

  datatype Item = Message(event: StoredEvent) | Lagged(missed: nat) | Closed | Empty

  class BroadcastSink {
    /** The messages still held, oldest first. */
    var ring: seq<StoredEvent>
    /** How many messages have ever been emitted. */
    var tail: nat
    var closed: bool
    const capacity: nat
    /** Every message ever emitted: what the ring is a window on. */
    var sent: seq<StoredEvent>

    ghost predicate Valid()
      reads this
    {
      && capacity > 0
      && tail == |sent| && |ring| <= |sent| && |ring| <= capacity
      && ring == sent[|sent| - |ring|..]
      && (|ring| < capacity ==> |ring| == |sent|)
    }

    constructor (capacity: nat)
      requires capacity > 0
      ensures Valid() && sent == [] && this.capacity == capacity && !closed
    {
      this.capacity := capacity;
      ring, tail, closed, sent := [], 0, false, [];
    }

    /** Never blocks: the oldest message makes room. */
    method Emit(event: StoredEvent)
      requires Valid()
      modifies this
      ensures Valid() && sent == old(sent) + [event] && closed == old(closed)
    {
      ring := ring + [event];
      if |ring| > capacity {
        ring := ring[1..];
      }
      tail := tail + 1;
      sent := sent + [event];
    }

    method Close()
      requires Valid()
      modifies this
      ensures Valid() && sent == old(sent) && closed
    {
      closed := true;
    }
  }

  /** One subscriber: how many messages lie behind it. */
  class Receiver {
    var next: nat

    /** From this moment on. */
    constructor (hub: BroadcastSink)
      requires hub.Valid()
      ensures next == |hub.sent|
    {
      next := hub.tail;
    }

    /** The next message, or a lag when messages it had not read are gone. */
    method Recv(hub: BroadcastSink) returns (item: Item)
      requires hub.Valid() && next <= |hub.sent|
      modifies this
      ensures old(next) <= next <= |hub.sent|
      ensures item.Message? ==> old(next) < |hub.sent| && item.event == hub.sent[old(next)] && next == old(next) + 1
      ensures item.Lagged? ==> next == old(next) + item.missed && item.missed > 0 && |hub.sent| - next == hub.capacity
      ensures item.Empty? ==> !hub.closed && next == old(next) == |hub.sent|
      ensures item.Closed? ==> hub.closed && next == old(next) == |hub.sent|
      // A receiver that keeps within the capacity never lags.
      ensures item.Lagged? <==> |hub.sent| - old(next) > hub.capacity
    {
      var oldest := hub.tail - |hub.ring|;
      if next < oldest {
        item := Lagged(oldest - next);
        next := oldest;
      } else if next < hub.tail {
        item := Message(hub.ring[next - oldest]);
        next := next + 1;
      } else {
        item := if hub.closed then Closed else Empty;
      }
    }
  }
}
