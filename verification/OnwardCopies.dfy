/**
 From the relay object to the flood: with one connection per neighbour, the connections a handler
 sends an update on are exactly one for each copy that `Flooding` puts in flight.
 */
module OnwardCopies {
  import opened Base
  import opened PeeringRelay
  import Flooding

  /** The relay `r` of the network knows each neighbour by one link, with one connection, its own. */
  ghost predicate OneWireEach(g: Flooding.Graph, r: string, senders: map<string, seq<nat>>, wire: string -> nat) {
    && r in g && senders.Keys == (set n | n in g[r])
    && (forall n :: n in g[r] ==> senders[n] == [wire(n)])
    && (forall a, b :: a in g[r] && b in g[r] && wire(a) == wire(b) ==> a == b)
  }

  lemma {:induction false} ChannelsAre(senders: map<string, seq<nat>>, order: seq<string>, c: nat)
    requires NoDup(order)
    ensures c in Channels(senders, order) <==> exists l :: l in order && c in ListAt(senders, l)
  {
    if order != [] {
      var front, last := order[..|order| - 1], order[|order| - 1];
      ChannelsAre(senders, front, c);
      assert forall l :: l in order <==> l in front || l == last;
    }
  }

  lemma {:induction false} EachChannelOnce(senders: map<string, seq<nat>>, order: seq<string>)
    requires NoDup(order)
    requires forall l :: l in senders ==> NoDup(senders[l])
    requires forall l, k, c :: l in senders && k in senders && c in senders[l] && c in senders[k] ==> l == k
    ensures NoDup(Channels(senders, order))
  {
    if order != [] {
      var front, last := order[..|order| - 1], order[|order| - 1];
      EachChannelOnce(senders, front);
      forall c | c in Channels(senders, front) ensures c !in ListAt(senders, last) {
        ChannelsAre(senders, front, c);
        assert last !in front;
      }
      JoinedOnce(Channels(senders, front), ListAt(senders, last));
    }
  }

  lemma JoinedOnce<T(!new)>(a: seq<T>, b: seq<T>)
    requires NoDup(a) && NoDup(b) && forall x :: x in a ==> x !in b
    ensures NoDup(a + b)
  {
    forall i, j | 0 <= i < j < |a + b| ensures (a + b)[i] != (a + b)[j] {
      if i < |a| <= j {
        assert a[i] in a && b[j - |a|] in b;
      }
    }
  }

  /**
   An update goes out on exactly the channels of the links it may go to: every one of them, and once if no
   channel is registered twice.
   */
  lemma SentOnAllOthers(senders: map<string, seq<nat>>, except: set<string>, outs: seq<nat>, c: nat)
    requires IsOnward(senders, except, outs)
    ensures c in outs <==> exists l :: l in senders && l !in except && c in senders[l]
    ensures (forall l :: l in senders ==> NoDup(senders[l]))
            && (forall l, k, d :: l in senders && k in senders && d in senders[l] && d in senders[k] ==> l == k)
            ==> NoDup(outs)
  {
    var order: seq<string> :| NoDup(order) && (forall l :: l in order <==> l in senders && l !in except)
                              && outs == Channels(senders, order);
    ChannelsAre(senders, order, c);
    if (forall l :: l in senders ==> NoDup(senders[l]))
       && (forall l, k, d :: l in senders && k in senders && d in senders[l] && d in senders[k] ==> l == k) {
      EachChannelOnce(senders, order);
    }
  }

  function Wires(order: seq<string>, wire: string -> nat): (conns: seq<nat>)
    ensures |conns| == |order|
    ensures forall i :: 0 <= i < |order| ==> conns[i] == wire(order[i])
  {
    seq(|order|, i requires 0 <= i < |order| => wire(order[i]))
  }

  lemma {:induction false} ChannelsAreWires(senders: map<string, seq<nat>>, order: seq<string>, wire: string -> nat)
    requires forall n :: n in order ==> n in senders && senders[n] == [wire(n)]
    ensures Channels(senders, order) == Wires(order, wire)
  {
    if order != [] {
      ChannelsAreWires(senders, order[..|order| - 1], wire);
      assert order[|order| - 1] in order;
    }
  }

  /** Two repeat-free sequences with the same elements are equally long. */
  lemma SameElementsSameLength(a: seq<string>, b: seq<string>)
    requires NoDup(a) && NoDup(b) && forall x :: x in a <==> x in b
    ensures |a| == |b|
  {
    NoDupFits(a, set x | x in b);
    NoDupFits(b, set x | x in a);
    Cardinality(a);
    Cardinality(b);
  }

  lemma {:induction false} Cardinality(a: seq<string>)
    ensures |set x | x in a| <= |a|
  {
    if a == [] {
      assert (set x | x in a) == {};
    } else {
      Cardinality(a[1..]);
      assert (set x | x in a) == (set x | x in a[1..]) + {a[0]};
    }
  }

  /** `outs` serves each of the copies `more` of a frame, once. */
  ghost predicate Serves(outs: seq<nat>, more: seq<Flooding.Walk>, wire: string -> nat) {
    && |outs| == |more|
    && (forall i, j :: 0 <= i < j < |outs| ==> outs[i] != outs[j])
    && (forall q :: q in more ==> q != [] && wire(Flooding.Last(q)) in outs)
  }

  /**
   What a handler sends, as its contract gives it for an update of origin `o` that arrived from the
   walk's last but one relay, serves exactly the copies the flood puts in flight.
   */
  lemma HandlersFlood(g: Flooding.Graph, o: string, p: Flooding.Walk, senders: map<string, seq<nat>>,
                      wire: string -> nat, outs: seq<nat>)
    requires Flooding.GraphOk(g) && Flooding.FloodWalk(g, o, p)
    requires OneWireEach(g, Flooding.Last(p), senders, wire)
    requires if Flooding.Last(p) == o then outs == [] else IsOnward(senders, {p[|p| - 2]}, outs)
    ensures Serves(outs, Flooding.Onward(g, o, p), wire)
  {
    if Flooding.Last(p) != o {
      var order: seq<string> :| NoDup(order) && (forall l :: l in order <==> l in senders && l !in {p[|p| - 2]})
                                && outs == Channels(senders, order);
      ChannelsAreWires(senders, order, wire);
      OrderServes(g, p, order, wire);
    }
  }

  /** The neighbours in any order, each on its own wire, serve the copies. */
  lemma OrderServes(g: Flooding.Graph, p: Flooding.Walk, order: seq<string>, wire: string -> nat)
    requires |p| >= 2 && Flooding.Last(p) in g && NoDup(g[Flooding.Last(p)]) && NoDup(order)
    requires forall l :: l in order <==> l in g[Flooding.Last(p)] && l != p[|p| - 2]
    requires forall a, b :: a in order && b in order && wire(a) == wire(b) ==> a == b
    ensures Serves(Wires(order, wire), Flooding.Copies(p, Without(g[Flooding.Last(p)], {p[|p| - 2]})), wire)
  {
    var r, prev, outs := Flooding.Last(p), p[|p| - 2], Wires(order, wire);
    var nbrs := Without(g[r], {prev});
    var more := Flooding.Copies(p, nbrs);
    WithoutKeepsNoDup(g[r], {prev});
    SameElementsSameLength(order, nbrs);
    Flooding.CopiesFacts(p, nbrs);
    forall q | q in more ensures q != [] && wire(Flooding.Last(q)) in outs {
      assert Flooding.Last(q) in order;
      var i :| 0 <= i < |order| && order[i] == Flooding.Last(q);
      assert outs[i] == wire(order[i]);
    }
    forall i, j | 0 <= i < j < |outs| ensures outs[i] != outs[j] {
      assert order[i] in order && order[j] in order;
    }
  }
}
