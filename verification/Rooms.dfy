/**
 The relay's room subscriptions: who watches whom (kept twice, one index inverse to the other), who
 asked to watch whom, and the steps by which subscribers and allow-list pushes change both.
 */
module Rooms {
  import opened Base

  type Id = string

  /** `(m, y)`: `y` watches `m`. */
  type Edge = (Id, Id)

  predicate Has(index: map<Id, set<Id>>, k: Id, v: Id) {
    k in index && v in index[k]
  }

  /** An index with one more entry, the set made if need be. */
  function Added(index: map<Id, set<Id>>, k: Id, v: Id): (r: map<Id, set<Id>>)
    ensures forall a, b :: Has(r, a, b) <==> (Has(index, a, b) || (a == k && b == v))
  {
    index[k := SetAt(index, k) + {v}]
  }

  /** An index with one entry less; the emptied set stays. */
  function Removed(index: map<Id, set<Id>>, k: Id, v: Id): (r: map<Id, set<Id>>)
    ensures forall a, b :: Has(r, a, b) <==> (Has(index, a, b) && !(a == k && b == v))
  {
    if k in index then index[k := index[k] - {v}] else index
  }

  ghost function Edges(subscribersOf: map<Id, set<Id>>): set<Edge> {
    set m, y | m in subscribersOf && y in subscribersOf[m] :: (m, y)
  }

  lemma EdgesAre(subscribersOf: map<Id, set<Id>>)
    ensures forall m, y :: (m, y) in Edges(subscribersOf) <==> Has(subscribersOf, m, y)
  {
  }

  ghost predicate Inverse(subscribersOf: map<Id, set<Id>>, subscriptionsBy: map<Id, set<Id>>) {
    forall m, y :: Has(subscribersOf, m, y) <==> Has(subscriptionsBy, y, m)
  }

  // ── What each call does to the edges ──────────────────────────────────────

  ghost function Dropped(edges: set<Edge>, y: Id): set<Edge> {
    set e | e in edges && e.1 != y
  }

  /** The subscriber's whole list is replaced. */
  ghost function AfterSubscribe(edges: set<Edge>, y: Id, peers: set<Id>): set<Edge> {
    Dropped(edges, y) + (set m | m in peers :: (m, y))
  }

  ghost function AfterUnsubscribe(edges: set<Edge>, y: Id, peers: set<Id>): set<Edge> {
    set e | e in edges && !(e.1 == y && e.0 in peers)
  }

  ghost function AfterReconcile(edges: set<Edge>, requested: map<Id, set<Id>>, m: Id, allowed: set<Id>): set<Edge> {
    (set e | e in edges && e.0 != m) + (set y | y in requested && m in requested[y] && y in allowed :: (m, y))
  }

  function Requested(requested: map<Id, set<Id>>, y: Id, peers: set<Id>): map<Id, set<Id>> {
    if peers == {} then requested - {y} else requested[y := peers]
  }

  class RoomManager {
    var subscribersOf: map<Id, set<Id>>
    var subscriptionsBy: map<Id, set<Id>>
    var requestedBy: map<Id, set<Id>>

    ghost predicate Valid()
      reads this
    {
      Inverse(subscribersOf, subscriptionsBy)
    }

    constructor ()
      ensures Valid() && Edges(subscribersOf) == {} && requestedBy == map[]
    {
      subscribersOf, subscriptionsBy, requestedBy := map[], map[], map[];
    }

    method DropFrom(peers: set<Id>, subscriber: Id)
      modifies this`subscribersOf
      ensures forall m, y :: Has(subscribersOf, m, y) <==> (
                Has(old(subscribersOf), m, y) && !(m in peers && y == subscriber))
    {
      var todo := peers;
      while todo != {}
        invariant todo <= peers
        invariant forall m, y :: Has(subscribersOf, m, y) <==> (
                    Has(old(subscribersOf), m, y) && !(m in peers - todo && y == subscriber))
      {
        var peer :| peer in todo;
        subscribersOf := Removed(subscribersOf, peer, subscriber);
        todo := todo - {peer};
      }
    }

    method AddTo(peers: set<Id>, subscriber: Id)
      modifies this`subscribersOf
      ensures forall m, y :: Has(subscribersOf, m, y) <==> (
                Has(old(subscribersOf), m, y) || (m in peers && y == subscriber))
    {
      var todo := peers;
      while todo != {}
        invariant todo <= peers
        invariant forall m, y :: Has(subscribersOf, m, y) <==> (
                    Has(old(subscribersOf), m, y) || (m in peers - todo && y == subscriber))
      {
        var peer :| peer in todo;
        subscribersOf := Added(subscribersOf, peer, subscriber);
        todo := todo - {peer};
      }
    }

    method Subscribe(subscriber: Id, peers: seq<Id>)
      requires Valid()
      modifies this`subscribersOf, this`subscriptionsBy
      ensures Valid()
      ensures Edges(subscribersOf) == AfterSubscribe(old(Edges(subscribersOf)), subscriber, set p | p in peers)
    {
      if subscriber in subscriptionsBy {
        var was := subscriptionsBy[subscriber];
        subscriptionsBy := subscriptionsBy - {subscriber};
        DropFrom(was, subscriber);
      }
      assert forall m, y :: Has(subscribersOf, m, y) <==> (Has(old(subscribersOf), m, y) && y != subscriber);
      var newSet := set p | p in peers;
      AddTo(newSet, subscriber);
      if newSet != {} {
        subscriptionsBy := subscriptionsBy[subscriber := newSet];
      }
      assert forall m, y :: Has(subscriptionsBy, y, m) <==>
        (if y == subscriber then m in newSet else Has(old(subscriptionsBy), y, m));
      EdgesAre(subscribersOf);
      EdgesAre(old(subscribersOf));
    }

    method Unsubscribe(subscriber: Id, peers: seq<Id>)
      requires Valid()
      modifies this`subscribersOf, this`subscriptionsBy
      ensures Valid()
      ensures Edges(subscribersOf) == AfterUnsubscribe(old(Edges(subscribersOf)), subscriber, set p | p in peers)
    {
      for i := 0 to |peers|
        invariant forall m, y :: Has(subscribersOf, m, y) <==> (
                    Has(old(subscribersOf), m, y) && !(y == subscriber && m in peers[..i]))
        invariant forall m, y :: Has(subscriptionsBy, y, m) <==> (
                    Has(old(subscriptionsBy), y, m) && !(y == subscriber && m in peers[..i]))
      {
        var peer := peers[i];
        assert forall m :: m in peers[..i + 1] <==> m in peers[..i] || m == peer;
        subscribersOf := Removed(subscribersOf, peer, subscriber);
        subscriptionsBy := Removed(subscriptionsBy, subscriber, peer);
      }
      assert peers[..|peers|] == peers;
      EdgesAre(subscribersOf);
      EdgesAre(old(subscribersOf));
    }

    method UnsubscribeAll(subscriber: Id)
      requires Valid()
      modifies this
      ensures Valid()
      ensures Edges(subscribersOf) == Dropped(old(Edges(subscribersOf)), subscriber)
      ensures requestedBy == old(requestedBy) - {subscriber}
    {
      requestedBy := requestedBy - {subscriber};
      if subscriber in subscriptionsBy {
        var peers := subscriptionsBy[subscriber];
        subscriptionsBy := subscriptionsBy - {subscriber};
        DropFrom(peers, subscriber);
      }
      assert forall m, y :: Has(subscribersOf, m, y) <==> (Has(old(subscribersOf), m, y) && y != subscriber);
      EdgesAre(subscribersOf);
      EdgesAre(old(subscribersOf));
    }

    method SetRequested(subscriber: Id, peers: seq<Id>)
      modifies this`requestedBy
      ensures requestedBy == Requested(old(requestedBy), subscriber, set p | p in peers)
    {
      var asked := set p | p in peers;
      if asked == {} {
        requestedBy := requestedBy - {subscriber};
      } else {
        requestedBy := requestedBy[subscriber := asked];
      }
    }

    method ReconcileSubscribers(machine: Id, allowed: set<Id>)
      requires Valid()
      modifies this`subscribersOf, this`subscriptionsBy
      ensures Valid()
      ensures Edges(subscribersOf)
           == AfterReconcile(old(Edges(subscribersOf)), requestedBy, machine, allowed)
    {
      var desired := set y | y in requestedBy && machine in requestedBy[y] && y in allowed;
      var current := SetAt(subscribersOf, machine);
      var todo := desired - current;
      while todo != {}
        invariant todo <= desired - current
        invariant forall m, y :: Has(subscribersOf, m, y) <==> (
                    Has(old(subscribersOf), m, y) || (m == machine && y in desired - current - todo))
        invariant forall m, y :: Has(subscriptionsBy, y, m) <==> (
                    Has(old(subscriptionsBy), y, m) || (m == machine && y in desired - current - todo))
      {
        var sub :| sub in todo;
        subscribersOf := Added(subscribersOf, machine, sub);
        subscriptionsBy := Added(subscriptionsBy, sub, machine);
        todo := todo - {sub};
      }
      todo := current - desired;
      while todo != {}
        invariant todo <= current - desired
        invariant forall m, y :: Has(subscribersOf, m, y) <==> (
                    if m == machine then y in desired + todo else Has(old(subscribersOf), m, y))
        invariant forall m, y :: Has(subscriptionsBy, y, m) <==> (
                    if m == machine then y in desired + todo else Has(old(subscriptionsBy), y, m))
      {
        var sub :| sub in todo;
        subscribersOf := Removed(subscribersOf, machine, sub);
        subscriptionsBy := Removed(subscriptionsBy, sub, machine);
        todo := todo - {sub};
      }
      EdgesAre(subscribersOf);
      EdgesAre(old(subscribersOf));
    }

    /** Everyone who watches `peer`, which is what the edges say. */
    method SubscribersOf(peer: Id) returns (all: set<Id>)
      requires Valid()
      ensures forall y :: y in all <==> (peer, y) in Edges(subscribersOf)
      ensures forall y :: y in all <==> Has(subscriptionsBy, y, peer)
    {
      EdgesAre(subscribersOf);
      assert forall y :: y in SetAt(subscribersOf, peer) <==> Has(subscribersOf, peer, y);
      all := SetAt(subscribersOf, peer);
    }
  }
}
