/**
 * The listener registry's queries: which listeners hear an event (a filter
 * by the interfaces they implement), which listeners a tag owns, and the
 * log records of event deliveries.
 */
module Listeners {
  import opened BleTypes

  /** The listeners an event of capability `c` is delivered to. */
  function Recipients(ls: set<Listener>, c: Capability): (r: set<Listener>)
    ensures forall l :: l in r <==> l in ls && c in l.caps
  {
    set l | l in ls && c in l.caps
  }

  /** The listeners registered under a tag (the same tag object). */
  function Tagged(ls: set<Listener>, t: Tag): (r: set<Listener>)
    ensures forall l :: l in r <==> l in ls && l.tag == t
  {
    set l | l in ls && l.tag == t
  }

  /** One delivery: the event and the listeners implementing its interface at that moment. */
  function Deliver(e: Event, ls: set<Listener>): Delivery
  {
    Delivery(e, Recipients(ls, CapabilityOf(e)))
  }

  /** The deliveries of a sequence of events to the registered listeners, in order. */
  function Deliveries(es: seq<Event>, ls: set<Listener>): (d: seq<Delivery>)
    ensures |d| == |es|
  {
    if es == [] then [] else Deliveries(es[..|es| - 1], ls) + [Deliver(es[|es| - 1], ls)]
  }

  /** Each event is delivered once, in order, to the listeners implementing its interface. */
  lemma {:induction false} DeliveriesSpec(es: seq<Event>, ls: set<Listener>)
    ensures forall i :: 0 <= i < |es| ==>
      Deliveries(es, ls)[i].event == es[i]
      && (forall l :: l in Deliveries(es, ls)[i].recipients <==> l in ls && CapabilityOf(es[i]) in l.caps)
  {
    if es != [] {
      DeliveriesSpec(es[..|es| - 1], ls);
    }
  }

  /** Delivering two runs of events one after the other is delivering their concatenation. */
  lemma {:induction false} DeliveriesAppend(a: seq<Event>, b: seq<Event>, ls: set<Listener>)
    ensures Deliveries(a + b, ls) == Deliveries(a, ls) + Deliveries(b, ls)
  {
    if b == [] {
      assert a + b == a;
    } else {
      assert (a + b)[..|a + b| - 1] == a + b[..|b| - 1];
      DeliveriesAppend(a, b[..|b| - 1], ls);
    }
  }

  /** A log that recorded the deliveries of `a` and then those of `b` recorded the deliveries of `a + b`. */
  lemma LogExtends(log0: seq<Delivery>, a: seq<Event>, b: seq<Event>, ls: set<Listener>)
    ensures (log0 + Deliveries(a, ls)) + Deliveries(b, ls) == log0 + Deliveries(a + b, ls)
  {
    DeliveriesAppend(a, b, ls);
  }

  /**
   * After the listeners of a tag are removed, no event reaches any of them,
   * and every other listener hears exactly what it heard before.
   */
  lemma CancelledTagNeverReached(ls: set<Listener>, t: Tag, c: Capability)
    ensures Recipients(ls - Tagged(ls, t), c) == Recipients(ls, c) - Tagged(ls, t)
    ensures forall l :: l in Recipients(ls - Tagged(ls, t), c) ==> l.tag != t
  {
  }
}
