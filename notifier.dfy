/** The graph notifier: an ordered registry of subscribed callbacks, and the
    two wrappers that surround a graph mutation with a before-snapshot and an
    after-notification.

    Callbacks are identified by numbers; calling one is recorded as a
    `Delivery` in the notifier's log, so what `notify` does is visible as
    state. The graph is a map from item ids to elements, and every read,
    mutation and notification done by a wrapper is recorded in the graph's
    trace. */
module GraphNotifier {
  import opened Wrappers

  type ItemId = string

  /** A graph element: a vertex or an edge, with its properties. */
  datatype Element =
    | VertexElement(id: ItemId, properties: map<string, string>)
    | EdgeElement(id: ItemId, properties: map<string, string>)

  /** The arguments of one `notify` call. */
  datatype Notification = Notification(before: Option<Element>, after: Option<Element>, isVertex: bool)

  /** A subscribed function, by identity. */
  type Callback = nat

  /** One call of a subscribed function. */
  datatype Delivery = Delivery(callback: Callback, notification: Notification)

  /** The calls `notify` makes: each subscription once, in order. */
  function Deliveries(subscriptions: seq<Callback>, n: Notification): seq<Delivery>
    decreases |subscriptions|
  {
    if |subscriptions| == 0 then []
    else [Delivery(subscriptions[0], n)] + Deliveries(subscriptions[1..], n)
  }

  /** The callbacks called, in the order of the calls. */
  function CallbacksOf(ds: seq<Delivery>): (cs: seq<Callback>)
    ensures |cs| == |ds|
    ensures forall i :: 0 <= i < |ds| ==> cs[i] == ds[i].callback
  {
    seq(|ds|, i requires 0 <= i < |ds| => ds[i].callback)
  }

  /** Every subscribed function is called exactly once per subscription, in
      registration order, and every call gets the same arguments. */
  lemma {:induction false} DeliveriesMeaning(subscriptions: seq<Callback>, n: Notification)
    ensures |Deliveries(subscriptions, n)| == |subscriptions|
    ensures forall i :: 0 <= i < |subscriptions| ==>
              Deliveries(subscriptions, n)[i] == Delivery(subscriptions[i], n)
    decreases |subscriptions|
  {
    if |subscriptions| > 0 {
      DeliveriesMeaning(subscriptions[1..], n);
    }
  }

  /** The callbacks called are exactly the subscriptions, in order. */
  lemma DeliveriesFollowSubscriptions(subscriptions: seq<Callback>, n: Notification)
    ensures CallbacksOf(Deliveries(subscriptions, n)) == subscriptions
    ensures forall d :: d in Deliveries(subscriptions, n) ==> d.notification == n
  {
    DeliveriesMeaning(subscriptions, n);
  }

  /** Notifying a longer list first notifies its prefix. */
  lemma DeliveriesAppend(subscriptions: seq<Callback>, f: Callback, n: Notification)
    ensures Deliveries(subscriptions + [f], n) == Deliveries(subscriptions, n) + [Delivery(f, n)]
  {
    DeliveriesMeaning(subscriptions + [f], n);
    DeliveriesMeaning(subscriptions, n);
  }

  /** `Notifier`: the subscription list and the calls made so far. */
  class Notifier {
    var subscriptions: seq<Callback>
    var log: seq<Delivery>

    constructor()
      ensures subscriptions == [] && log == []
    {
      subscriptions := [];
      log := [];
    }

    /** `subscribe`: append, nothing else changes. */
    method Subscribe(f: Callback)
      modifies this
      ensures subscriptions == old(subscriptions) + [f]
      ensures log == old(log)
      ensures IsSubscribed()
    {
      subscriptions := subscriptions + [f];
    }

    /** `is_subscribed`: some function is subscribed. */
    function IsSubscribed(): (b: bool)
      reads this
      ensures b <==> exists f :: f in subscriptions
    {
      assert |subscriptions| != 0 ==> subscriptions[0] in subscriptions;
      |subscriptions| != 0
    }

    /** `notify`: call every subscription with the same arguments. */
    method Notify(n: Notification)
      modifies this
      ensures subscriptions == old(subscriptions)
      ensures log == old(log) + Deliveries(subscriptions, n)
    {
      var i := 0;
      while i < |subscriptions|
        invariant 0 <= i <= |subscriptions|
        invariant subscriptions == old(subscriptions)
        invariant log == old(log) + Deliveries(subscriptions[..i], n)
      {
        DeliveriesAppend(subscriptions[..i], subscriptions[i], n);
        assert subscriptions[..i + 1] == subscriptions[..i] + [subscriptions[i]];
        log := log + [Delivery(subscriptions[i], n)];
        i := i + 1;
      }
      assert subscriptions[..i] == subscriptions;
    }
  }

  /** What a wrapper does to the graph, in order. */
  datatype Step = Read(item: ItemId) | Mutate(item: ItemId) | Notified(n: Notification)

  /** `graph.get_item`: the element, or None when there is none. */
  function Lookup(items: map<ItemId, Element>, item: ItemId): (e: Option<Element>)
    ensures e.Some? <==> item in items
    ensures e.Some? ==> e.value == items[item]
  {
    if item in items then Some(items[item]) else None
  }

  /** `isinstance(element, Vertex)`; None is not a vertex. */
  predicate IsVertex(e: Option<Element>)
  {
    e.Some? && e.value.VertexElement?
  }

  /** The notification sent after a mutation of `item`. */
  function AfterNotification(before: Option<Element>, items: map<ItemId, Element>, item: ItemId): (n: Notification)
    ensures n.before == before
    ensures n.after == Lookup(items, item)
    ensures n.isVertex <==> item in items && items[item].VertexElement?
  {
    Notification(before, Lookup(items, item), IsVertex(Lookup(items, item)))
  }

  /** A graph that notifies on mutation. */
  class Graph {
    var items: map<ItemId, Element>
    var trace: seq<Step>
    const notifier: Notifier

    constructor(notifier: Notifier)
      ensures this.notifier == notifier
      ensures items == map[] && trace == []
    {
      this.notifier := notifier;
      items := map[];
      trace := [];
    }

    /** `get_item`. */
    method GetItem(item: ItemId) returns (e: Option<Element>)
      modifies this
      ensures e == Lookup(items, item)
      ensures items == old(items)
      ensures trace == old(trace) + [Read(item)]
    {
      trace := trace + [Read(item)];
      e := Lookup(items, item);
    }

    /** The wrapped mutation `func(graph, item, ...)`. */
    method Apply(item: ItemId, mutation: map<ItemId, Element> -> map<ItemId, Element>)
      modifies this
      ensures items == mutation(old(items))
      ensures trace == old(trace) + [Mutate(item)]
    {
      trace := trace + [Mutate(item)];
      items := mutation(items);
    }

    /** `_before_func`: the item before the mutation, read only when someone
        is subscribed. */
    method BeforeFunc(item: ItemId) returns (before: Option<Element>)
      modifies this
      ensures items == old(items)
      ensures notifier.IsSubscribed() ==> before == Lookup(items, item) && trace == old(trace) + [Read(item)]
      ensures !notifier.IsSubscribed() ==> before == None && trace == old(trace)
    {
      if !notifier.IsSubscribed() {
        return None;
      }
      before := GetItem(item);
    }

    /** `_after_func`: read the item twice (once to classify it, once as the
        after-value) and notify every subscription. */
    method AfterFunc(item: ItemId, before: Option<Element>)
      modifies this, notifier
      ensures items == old(items)
      ensures notifier.subscriptions == old(notifier.subscriptions)
      ensures old(notifier.IsSubscribed()) ==>
                && trace == old(trace) + [Read(item), Read(item), Notified(AfterNotification(before, items, item))]
                && notifier.log == old(notifier.log)
                                   + Deliveries(notifier.subscriptions, AfterNotification(before, items, item))
      ensures !old(notifier.IsSubscribed()) ==> trace == old(trace) && notifier.log == old(notifier.log)
    {
      if !notifier.IsSubscribed() {
        return;
      }
      var element := GetItem(item);
      var isVertex := element.Some? && element.value.VertexElement?;
      var after := GetItem(item);
      var n := Notification(before, after, isVertex);
      trace := trace + [Notified(n)];
      notifier.Notify(n);
    }

    /** `update_notify`: snapshot, mutate once, then notify with the
        snapshot as the before-value. */
    method UpdateNotify(item: ItemId, mutation: map<ItemId, Element> -> map<ItemId, Element>)
      modifies this, notifier
      ensures items == mutation(old(items))
      ensures notifier.subscriptions == old(notifier.subscriptions)
      ensures old(notifier.IsSubscribed()) ==>
                var n := AfterNotification(Lookup(old(items), item), items, item);
                && trace == old(trace) + [Read(item), Mutate(item), Read(item), Read(item), Notified(n)]
                && notifier.log == old(notifier.log) + Deliveries(notifier.subscriptions, n)
      ensures !old(notifier.IsSubscribed()) ==>
                trace == old(trace) + [Mutate(item)] && notifier.log == old(notifier.log)
    {
      var before := BeforeFunc(item);
      Apply(item, mutation);
      AfterFunc(item, before);
    }

    /** `add_notify`: mutate once, then notify with no before-value. */
    method AddNotify(item: ItemId, mutation: map<ItemId, Element> -> map<ItemId, Element>)
      modifies this, notifier
      ensures items == mutation(old(items))
      ensures notifier.subscriptions == old(notifier.subscriptions)
      ensures old(notifier.IsSubscribed()) ==>
                var n := AfterNotification(None, items, item);
                && trace == old(trace) + [Mutate(item), Read(item), Read(item), Notified(n)]
                && notifier.log == old(notifier.log) + Deliveries(notifier.subscriptions, n)
      ensures !old(notifier.IsSubscribed()) ==>
                trace == old(trace) + [Mutate(item)] && notifier.log == old(notifier.log)
    {
      Apply(item, mutation);
      AfterFunc(item, None);
    }
  }
}
