/**
 Incremental updates flood: every relay that handles one, other than its origin, sends it on to
 every neighbour but the one it came from. There is no duplicate check, so whether a flood ever
 ends is a question about the shape of the network.

 Each neighbour is reached by one connection and known by one link name. A frame in flight is
 written as the whole walk it has taken; only its last two relays matter to what happens next.
 */
module Flooding {
  import opened Base

  type Name = string
  type Graph = map<Name, seq<Name>>
  type Walk = seq<Name>

  ghost predicate GraphOk(g: Graph) {
    forall r :: r in g ==>
      && NoDup(g[r]) && r !in g[r]
      && forall x :: x in g[r] ==> x in g && r in g[x]
  }

  function Last(p: Walk): Name
    requires p != []
  {
    p[|p| - 1]
  }

  function Front(p: Walk): Walk
    requires p != []
  {
    p[..|p| - 1]
  }

  ghost predicate Linked(g: Graph, p: Walk) {
    forall i :: 0 <= i < |p| - 1 ==> p[i] in g && p[i + 1] in g[p[i]]
  }

  /** A walk from the origin that never turns straight back and does not go on past the origin. */
  ghost predicate FloodWalk(g: Graph, o: Name, p: Walk) {
    && |p| >= 2 && p[0] == o && Linked(g, p)
    && (forall i :: 0 < i < |p| - 1 ==> p[i] != o)
    && (forall i, j :: 0 <= i && j == i + 2 && j < |p| ==> p[i] != p[j])
  }

  // ── The flood ─────────────────────────────────────────────────────────────

  datatype Flood = Flood(flight: seq<Walk>, handled: seq<Walk>)

  /** One copy of the frame per neighbour. */
  function Copies(p: Walk, nbrs: seq<Name>): seq<Walk> {
    if nbrs == [] then [] else [p + [nbrs[0]]] + Copies(p, nbrs[1..])
  }

  /** The origin ignores its own update; any other relay sends it on, never back. */
  function Onward(g: Graph, o: Name, p: Walk): seq<Walk>
    requires |p| >= 2
  {
    if Last(p) == o || Last(p) !in g then [] else Copies(p, Without(g[Last(p)], {p[|p| - 2]}))
  }

  function Start(g: Graph, o: Name): Flood {
    Flood(if o in g then Copies([o], g[o]) else [], [])
  }

  function Deliver(g: Graph, o: Name, s: Flood, k: nat): Flood {
    if k < |s.flight| && |s.flight[k]| >= 2 then
      var p := s.flight[k];
      Flood(s.flight[..k] + s.flight[k + 1..] + Onward(g, o, p), s.handled + [p])
    else s
  }

  ghost predicate Legal(g: Graph, o: Name, s: Flood, run: seq<nat>)
    decreases |run|
  {
    run == [] || (run[0] < |s.flight| && Legal(g, o, Deliver(g, o, s, run[0]), run[1..]))
  }

  function After(g: Graph, o: Name, s: Flood, run: seq<nat>): Flood
    decreases |run|
  {
    if run == [] then s else After(g, o, Deliver(g, o, s, run[0]), run[1..])
  }

  // ── Which walks the flood takes ───────────────────────────────────────────

  lemma {:induction false} CopiesFacts(p: Walk, nbrs: seq<Name>)
    ensures |Copies(p, nbrs)| == |nbrs|
    ensures forall i :: 0 <= i < |nbrs| ==> Copies(p, nbrs)[i] == p + [nbrs[i]]
    ensures forall q :: q in Copies(p, nbrs) <==> q != [] && Front(q) == p && Last(q) in nbrs
    ensures NoDup(nbrs) ==> NoDup(Copies(p, nbrs))
  {
    if nbrs != [] {
      CopiesFacts(p, nbrs[1..]);
      assert Front(p + [nbrs[0]]) == p;
      forall q ensures q in Copies(p, nbrs) <==> q != [] && Front(q) == p && Last(q) in nbrs {
        if q != [] && Front(q) == p {
          assert q == p + [Last(q)];
        }
      }
      if NoDup(nbrs) {
        assert NoDup(nbrs[1..]) && nbrs[0] !in nbrs[1..];
      }
    }
  }

  /** The copies of a frame are exactly the ways its walk can go on. */
  lemma OnwardFacts(g: Graph, o: Name, p: Walk)
    requires GraphOk(g) && FloodWalk(g, o, p)
    ensures forall q :: q in Onward(g, o, p) <==> FloodWalk(g, o, q) && Front(q) == p
    ensures NoDup(Onward(g, o, p))
    ensures |Onward(g, o, p)| <= |g|
  {
    var u, prev := Last(p), p[|p| - 2];
    assert u in g[prev] && u in g;
    if u != o {
      var nbrs := Without(g[u], {prev});
      CopiesFacts(p, nbrs);
      WithoutKeepsNoDup(g[u], {prev});
      NoDupFits(nbrs, g.Keys);
      forall q | q in Onward(g, o, p) ensures FloodWalk(g, o, q) {
        assert q == p + [Last(q)];
      }
      forall q | FloodWalk(g, o, q) && Front(q) == p ensures q in Onward(g, o, p) {
        assert q[|p| - 1] == u && q[|p| - 2] == prev && q[|p|] == Last(q);
      }
    } else {
      forall q | |q| == |p| + 1 && Front(q) == p ensures !FloodWalk(g, o, q) {
        assert q[|p| - 1] == o;
      }
    }
  }

  ghost predicate AllWalks(g: Graph, o: Name, s: Flood) {
    forall p :: p in s.flight || p in s.handled ==> FloodWalk(g, o, p)
  }

  lemma StartWalks(g: Graph, o: Name)
    requires GraphOk(g)
    ensures forall p :: p in Start(g, o).flight <==> FloodWalk(g, o, p) && |p| == 2
    ensures NoDup(Start(g, o).flight)
  {
    if o in g {
      CopiesFacts([o], g[o]);
      forall p | |p| == 2 && p[0] == o ensures Front(p) == [o] && Last(p) == p[1] {
      }
    }
  }

  lemma FlightAfter(g: Graph, o: Name, s: Flood, k: nat)
    requires k < |s.flight| && |s.flight[k]| >= 2
    ensures forall q :: q in Deliver(g, o, s, k).flight ==> q in s.flight || q in Onward(g, o, s.flight[k])
    ensures forall q :: q in s.flight && q != s.flight[k] ==> q in Deliver(g, o, s, k).flight
    ensures forall q :: q in Onward(g, o, s.flight[k]) ==> q in Deliver(g, o, s, k).flight
    ensures forall q :: q in Deliver(g, o, s, k).handled <==> q in s.handled || q == s.flight[k]
  {
    assert s.flight == s.flight[..k] + [s.flight[k]] + s.flight[k + 1..];
  }

  lemma DeliverKeepsWalks(g: Graph, o: Name, s: Flood, k: nat)
    requires GraphOk(g) && AllWalks(g, o, s) && k < |s.flight|
    ensures AllWalks(g, o, Deliver(g, o, s, k))
  {
    assert s.flight[k] in s.flight;
    OnwardFacts(g, o, s.flight[k]);
    FlightAfter(g, o, s, k);
  }

  // ── Termination ───────────────────────────────────────────────────────────

  /** Every walk the flood can take visits each relay at most once, except for ending back at the origin. */
  ghost predicate WalksAreSimple(g: Graph, o: Name) {
    forall p :: FloodWalk(g, o, p) ==> NoDup(Front(p)) && (Last(p) != o ==> NoDup(p))
  }

  function Pow(b: nat, e: nat): nat {
    if e == 0 then 1 else b * Pow(b, e - 1)
  }

  /** How many deliveries one frame can still lead to, itself included, when walks are short. */
  function Weight(g: Graph, p: Walk): nat {
    if |p| > |g| + 1 then 1 else Pow(|g| + 1, |g| + 2 - |p|)
  }

  function Potential(g: Graph, flight: seq<Walk>): nat {
    if flight == [] then 0 else Weight(g, flight[0]) + Potential(g, flight[1..])
  }

  lemma {:induction false} PotentialSum(g: Graph, a: seq<Walk>, b: seq<Walk>)
    ensures Potential(g, a + b) == Potential(g, a) + Potential(g, b)
  {
    if a == [] {
      assert a + b == b;
    } else {
      assert (a + b)[1..] == a[1..] + b;
      PotentialSum(g, a[1..], b);
    }
  }

  lemma {:induction false} PotentialOfEqual(g: Graph, flight: seq<Walk>, w: nat)
    requires forall p :: p in flight ==> Weight(g, p) == w
    ensures Potential(g, flight) == |flight| * w
  {
    if flight != [] {
      PotentialOfEqual(g, flight[1..], w);
      OneMore(|flight|, w);
    }
  }

  lemma OneMore(n: nat, w: nat)
    requires n > 0
    ensures n * w == w + (n - 1) * w
  {
  }

  lemma {:induction false} PowPositive(b: nat, e: nat)
    requires b > 0
    ensures Pow(b, e) > 0
  {
    if e > 0 {
      PowPositive(b, e - 1);
      Product(b, Pow(b, e - 1));
    }
  }

  lemma Product(a: nat, b: nat)
    requires a > 0 && b > 0
    ensures a * b > 0
  {
  }

  /** A simple walk weighs more than all the copies it gives rise to. */
  lemma OnwardIsLighter(g: Graph, o: Name, p: Walk)
    requires GraphOk(g) && WalksAreSimple(g, o) && FloodWalk(g, o, p)
    ensures Potential(g, Onward(g, o, p)) < Weight(g, p)
  {
    var more := Onward(g, o, p);
    WeightPositive(g, p);
    if more != [] {
      WalkFits(g, o, p);
      OnwardFacts(g, o, p);
      assert forall q :: q in more ==> |q| == |p| + 1;
      CopiesAreLighter(g, p, more);
    }
  }

  lemma WeightPositive(g: Graph, p: Walk)
    ensures Weight(g, p) > 0
  {
    if |p| <= |g| + 1 {
      PowPositive(|g| + 1, |g| + 2 - |p|);
    }
  }

  lemma CopiesAreLighter(g: Graph, p: Walk, more: seq<Walk>)
    requires |p| <= |g| && |more| <= |g| && forall q :: q in more ==> |q| == |p| + 1
    ensures Potential(g, more) < Weight(g, p)
  {
    var w := Pow(|g| + 1, |g| + 1 - |p|);
    PowPositive(|g| + 1, |g| + 1 - |p|);
    PotentialOfEqual(g, more, w);
    Fewer(|more|, |g|, w);
  }

  lemma Fewer(n: nat, m: nat, w: nat)
    requires n <= m && w > 0
    ensures n * w < (m + 1) * w
  {
    OneMore(m + 1, w);
    assert m * w == n * w + (m - n) * w;
  }

  lemma WalkFits(g: Graph, o: Name, p: Walk)
    requires GraphOk(g) && WalksAreSimple(g, o) && FloodWalk(g, o, p) && Onward(g, o, p) != []
    ensures |p| <= |g|
  {
    assert Last(p) != o && NoDup(p);
    forall x | x in p ensures x in g.Keys {
      var i :| 0 <= i < |p| && p[i] == x;
      assert i > 0 ==> p[i] in g[p[i - 1]];
    }
    NoDupFits(p, g.Keys);
  }

  lemma DeliverIsLighter(g: Graph, o: Name, s: Flood, k: nat)
    requires GraphOk(g) && WalksAreSimple(g, o) && AllWalks(g, o, s) && k < |s.flight|
    ensures Potential(g, Deliver(g, o, s, k).flight) < Potential(g, s.flight)
  {
    assert s.flight[k] in s.flight;
    OnwardIsLighter(g, o, s.flight[k]);
    PotentialSwaps(g, s.flight, k, Onward(g, o, s.flight[k]));
  }

  lemma PotentialSwaps(g: Graph, flight: seq<Walk>, k: nat, more: seq<Walk>)
    requires k < |flight|
    ensures Potential(g, flight[..k] + flight[k + 1..] + more)
         == Potential(g, flight) - Weight(g, flight[k]) + Potential(g, more)
  {
    var p := flight[k];
    assert flight == flight[..k] + ([p] + flight[k + 1..]);
    PotentialSum(g, flight[..k], [p] + flight[k + 1..]);
    PotentialSum(g, [p], flight[k + 1..]);
    assert [p][1..] == [];
    assert Potential(g, [p]) == Weight(g, p);
    PotentialSum(g, flight[..k], flight[k + 1..]);
    PotentialSum(g, flight[..k] + flight[k + 1..], more);
  }

  lemma {:induction false} RunsAreShort(g: Graph, o: Name, s: Flood, run: seq<nat>)
    requires GraphOk(g) && WalksAreSimple(g, o) && AllWalks(g, o, s) && Legal(g, o, s, run)
    ensures |run| <= Potential(g, s.flight)
    decreases |run|
  {
    if run != [] {
      DeliverKeepsWalks(g, o, s, run[0]);
      DeliverIsLighter(g, o, s, run[0]);
      RunsAreShort(g, o, Deliver(g, o, s, run[0]), run[1..]);
    }
  }

  // ── Cycles that avoid the origin ──────────────────────────────────────────

  /** A simple cycle of links through three relays or more, none of them the origin. */
  ghost predicate AvoidingCycle(g: Graph, o: Name, c: seq<Name>) {
    && |c| >= 3 && NoDup(c) && o !in c && Linked(g, c)
    && Last(c) in g && c[0] in g[Last(c)]
  }

  /** The flood can reach some cycle that avoids its origin. */
  ghost predicate CycleInReach(g: Graph, o: Name) {
    exists c, p :: AvoidingCycle(g, o, c) && FloodWalk(g, o, p) && Last(p) in c
  }

  /** A walk that comes back to a relay it has visited contains a cycle that avoids the origin. */
  lemma {:induction false} RepeatMakesCycle(g: Graph, o: Name, p: Walk)
    requires GraphOk(g) && FloodWalk(g, o, p) && Last(p) != o && !NoDup(p)
    ensures CycleInReach(g, o)
    decreases |p|
  {
    var q := Front(p);
    assert |p| > 2;
    assert FloodWalk(g, o, q) && Last(q) == p[|p| - 2];
    if !NoDup(q) {
      RepeatMakesCycle(g, o, q);
    } else {
      var i :| 0 <= i < |q| && q[i] == Last(p);
      var c := q[i..];
      ClosesCycle(g, o, p, i);
      PrefixWalk(g, o, q, i + 1);
      assert Last(q[..i + 1]) == c[0] && c[0] in c;
    }
  }

  lemma PrefixWalk(g: Graph, o: Name, p: Walk, n: nat)
    requires FloodWalk(g, o, p) && 2 <= n <= |p|
    ensures FloodWalk(g, o, p[..n])
  {
  }

  lemma ClosesCycle(g: Graph, o: Name, p: Walk, i: nat)
    requires GraphOk(g) && FloodWalk(g, o, p) && |p| > 2 && Last(p) != o && NoDup(Front(p))
    requires 0 < i < |p| - 1 && p[i] == Last(p)
    ensures AvoidingCycle(g, o, Front(p)[i..])
  {
    var q := Front(p);
    var c := q[i..];
    assert Last(p) in g[p[|p| - 2]];
    assert i != |p| - 2;
    assert p[|p| - 1] != p[|p| - 3];
    assert i != |p| - 3;
    assert forall j :: 0 <= j < |c| ==> c[j] == p[i + j];
    assert forall j :: 0 < j < |p| - 1 ==> p[j] != o;
  }

  lemma NoCycleMeansSimple(g: Graph, o: Name)
    requires GraphOk(g) && !CycleInReach(g, o)
    ensures WalksAreSimple(g, o)
  {
    forall p | FloodWalk(g, o, p) ensures NoDup(Front(p)) && (Last(p) != o ==> NoDup(p)) {
      if Last(p) != o {
        if !NoDup(p) {
          RepeatMakesCycle(g, o, p);
        }
      } else if |p| > 2 {
        PrefixWalk(g, o, p, |p| - 1);
        if !NoDup(Front(p)) {
          RepeatMakesCycle(g, o, Front(p));
        }
      }
    }
  }

  // ── With such a cycle, the flood never has to end ─────────────────────────

  /** The frame is crossing a link of the cycle, in the cycle's own direction. */
  ghost predicate OnCycle(c: seq<Name>, p: Walk) {
    |p| >= 2 && Crosses(c, p[|p| - 2], Last(p))
  }

  ghost predicate Crosses(c: seq<Name>, u: Name, v: Name) {
    exists i :: CycleHop(c, i, u, v)
  }

  predicate CycleHop(c: seq<Name>, i: int, u: Name, v: Name) {
    0 <= i < |c| && u == c[i] && v == c[(i + 1) % |c|]
  }

  lemma CycleStep(g: Graph, o: Name, c: seq<Name>, p: Walk)
    requires GraphOk(g) && AvoidingCycle(g, o, c) && OnCycle(c, p)
    ensures exists q :: q in Onward(g, o, p) && OnCycle(c, q)
  {
    var i :| CycleHop(c, i, p[|p| - 2], Last(p));
    var j, k := (i + 1) % |c|, (i + 2) % |c|;
    CycleIndex(|c|, i);
    assert c[k] in g[c[j]] by {
      if j == |c| - 1 {
        assert k == 0 && Last(c) == c[j];
      } else {
        assert k == j + 1;
      }
    }
    assert c[j] in c && c[k] in c && c[k] != c[i];
    assert c[j] in g;
    var nbrs := Without(g[Last(p)], {p[|p| - 2]});
    CopiesFacts(p, nbrs);
    var q := p + [c[k]];
    assert CycleHop(c, j, q[|q| - 2], Last(q));
    assert Front(q) == p;
  }

  lemma CycleIndex(n: nat, i: nat)
    requires n >= 3 && i < n
    ensures (i + 1) % n != i && (i + 2) % n != i && (i + 1) % n != (i + 2) % n
    ensures ((i + 1) % n + 1) % n == (i + 2) % n
    ensures (i + 1) % n == if i + 1 == n then 0 else i + 1
    ensures (i + 2) % n == if i + 2 >= n then i + 2 - n else i + 2
  {
    Wraps(n, i + 1);
    Wraps(n, i + 2);
    Wraps(n, (i + 1) % n + 1);
  }

  lemma Wraps(n: nat, k: nat)
    requires 0 < n && k < 2 * n
    ensures k % n == if k >= n then k - n else k
  {
  }

  /** Once a frame is crossing the cycle, every schedule keeps one crossing it: the flood cannot die out. */
  lemma {:induction false} CyclingNeverDies(g: Graph, o: Name, c: seq<Name>, s: Flood, run: seq<nat>)
    requires GraphOk(g) && AvoidingCycle(g, o, c) && Legal(g, o, s, run)
    requires forall p :: p in s.flight ==> |p| >= 2
    requires exists p :: p in s.flight && OnCycle(c, p)
    ensures exists p :: p in After(g, o, s, run).flight && OnCycle(c, p)
    decreases |run|
  {
    if run != [] {
      CyclingSurvives(g, o, c, s, run[0]);
      CyclingNeverDies(g, o, c, Deliver(g, o, s, run[0]), run[1..]);
    }
  }

  lemma CyclingSurvives(g: Graph, o: Name, c: seq<Name>, s: Flood, k: nat)
    requires GraphOk(g) && AvoidingCycle(g, o, c) && k < |s.flight|
    requires forall p :: p in s.flight ==> |p| >= 2
    requires exists p :: p in s.flight && OnCycle(c, p)
    ensures forall p :: p in Deliver(g, o, s, k).flight ==> |p| >= 2
    ensures exists p :: p in Deliver(g, o, s, k).flight && OnCycle(c, p)
  {
    var p :| p in s.flight && OnCycle(c, p);
    assert s.flight[k] in s.flight;
    FlightAfter(g, o, s, k);
    if p == s.flight[k] {
      CycleStep(g, o, c, p);
      var q :| q in Onward(g, o, p) && OnCycle(c, q);
    }
    OnwardIsLonger(g, o, s.flight[k]);
  }

  lemma OnwardIsLonger(g: Graph, o: Name, p: Walk)
    requires |p| >= 2
    ensures forall q :: q in Onward(g, o, p) ==> |q| == |p| + 1
  {
    if Last(p) in g {
      CopiesFacts(p, Without(g[Last(p)], {p[|p| - 2]}));
    }
  }

  lemma {:induction false} AfterSplits(g: Graph, o: Name, s: Flood, a: seq<nat>, b: seq<nat>)
    requires Legal(g, o, s, a) && Legal(g, o, After(g, o, s, a), b)
    ensures Legal(g, o, s, a + b) && After(g, o, s, a + b) == After(g, o, After(g, o, s, a), b)
    decreases |a|
  {
    if a == [] {
      assert a + b == b;
    } else {
      assert (a + b)[1..] == a[1..] + b && (a + b)[0] == a[0];
      AfterSplits(g, o, Deliver(g, o, s, a[0]), a[1..], b);
    }
  }

  /** Any walk the flood can take, some schedule takes, one delivery a step. */
  lemma {:induction false} SomeRunTakes(g: Graph, o: Name, p: Walk) returns (run: seq<nat>)
    requires GraphOk(g) && FloodWalk(g, o, p)
    ensures Legal(g, o, Start(g, o), run) && |run| == |p| - 2
    ensures p in After(g, o, Start(g, o), run).flight && AllWalks(g, o, After(g, o, Start(g, o), run))
    decreases |p|
  {
    if |p| == 2 {
      StartWalks(g, o);
      run := [];
    } else {
      PrefixWalk(g, o, p, |p| - 1);
      var most := SomeRunTakes(g, o, Front(p));
      var k := SomeDeliveryExtends(g, o, After(g, o, Start(g, o), most), p);
      run := most + [k];
      AfterSplits(g, o, Start(g, o), most, [k]);
      OneDelivery(g, o, After(g, o, Start(g, o), most), k);
    }
  }

  lemma OneDelivery(g: Graph, o: Name, s: Flood, k: nat)
    ensures After(g, o, s, [k]) == Deliver(g, o, s, k)
  {
    assert [k][1..] == [];
  }

  lemma SomeDeliveryExtends(g: Graph, o: Name, s: Flood, p: Walk) returns (k: nat)
    requires GraphOk(g) && FloodWalk(g, o, p) && FloodWalk(g, o, Front(p)) && Front(p) in s.flight && AllWalks(g, o, s)
    ensures k < |s.flight| && Legal(g, o, s, [k])
    ensures p in Deliver(g, o, s, k).flight && AllWalks(g, o, Deliver(g, o, s, k))
  {
    k :| 0 <= k < |s.flight| && s.flight[k] == Front(p);
    OnwardFacts(g, o, Front(p));
    FlightAfter(g, o, s, k);
    DeliverKeepsWalks(g, o, s, k);
    assert [k][1..] == [];
  }

  /** A frame arriving at the cycle goes on along it unless it came from the next relay on it. */
  lemma GoesOn(g: Graph, o: Name, c: seq<Name>, p: Walk, i: nat)
    requires GraphOk(g) && AvoidingCycle(g, o, c) && FloodWalk(g, o, p) && i < |c| && c[i] == Last(p)
    requires p[|p| - 2] != c[(i + 1) % |c|]
    ensures var q := p + [c[(i + 1) % |c|]]; FloodWalk(g, o, q) && OnCycle(c, q)
  {
    CycleIndex(|c|, i);
    var next := c[(i + 1) % |c|];
    var q := p + [next];
    assert next in g[c[i]] && c[i] in g by {
      assert i == |c| - 1 ==> c[i] == Last(c);
    }
    assert c[i] in c && c[i] != o;
    assert CycleHop(c, i, q[|q| - 2], Last(q));
  }

  /** So it goes on around it in at least one direction. */
  lemma EntersCycle(g: Graph, o: Name, c: seq<Name>, p: Walk) returns (d: seq<Name>, q: Walk)
    requires GraphOk(g) && AvoidingCycle(g, o, c) && FloodWalk(g, o, p) && Last(p) in c
    ensures AvoidingCycle(g, o, d) && FloodWalk(g, o, q) && OnCycle(d, q)
  {
    var n := |c|;
    var i :| 0 <= i < n && c[i] == Last(p);
    CycleIndex(n, i);
    if p[|p| - 2] != c[(i + 1) % n] {
      GoesOn(g, o, c, p, i);
      d, q := c, p + [c[(i + 1) % n]];
    } else {
      d := Reversed(c);
      ReversedCycle(g, o, c);
      var j := n - 1 - i;
      CycleIndex(n, j);
      assert d[(j + 1) % n] == c[if i == 0 then n - 1 else i - 1];
      assert d[(j + 1) % n] != c[(i + 1) % n];
      GoesOn(g, o, d, p, j);
      q := p + [d[(j + 1) % n]];
    }
  }

  function Reversed(c: seq<Name>): (d: seq<Name>)
    ensures |d| == |c| && forall i :: 0 <= i < |c| ==> d[i] == c[|c| - 1 - i]
  {
    seq(|c|, i requires 0 <= i < |c| => c[|c| - 1 - i])
  }

  lemma ReversedCycle(g: Graph, o: Name, c: seq<Name>)
    requires GraphOk(g) && AvoidingCycle(g, o, c)
    ensures AvoidingCycle(g, o, Reversed(c))
  {
    var d, n := Reversed(c), |c|;
    forall i | 0 <= i < n - 1 ensures d[i] in g && d[i + 1] in g[d[i]] {
      assert c[n - 2 - i] in g && c[n - 1 - i] in g[c[n - 2 - i]];
    }
    assert Last(d) == c[0] && d[0] == Last(c);
    assert c[0] in g[Last(c)];
    forall x | x in d ensures x in c {
      var i :| 0 <= i < n && d[i] == x;
      assert x == c[n - 1 - i];
    }
  }

  /** From such a state a schedule of any length can be run. */
  lemma {:induction false} RunsAreUnbounded(g: Graph, o: Name, c: seq<Name>, s: Flood, n: nat) returns (run: seq<nat>)
    requires GraphOk(g) && AvoidingCycle(g, o, c) && AllWalks(g, o, s)
    requires exists p :: p in s.flight && OnCycle(c, p)
    ensures Legal(g, o, s, run) && |run| == n
    decreases n
  {
    if n == 0 {
      run := [];
    } else {
      DeliverKeepsWalks(g, o, s, 0);
      CyclingNeverDies(g, o, c, s, [0]);
      assert After(g, o, s, [0]) == Deliver(g, o, s, 0);
      var rest := RunsAreUnbounded(g, o, c, Deliver(g, o, s, 0), n - 1);
      run := [0] + rest;
    }
  }

  /** No schedule runs for more than `bound` deliveries. */
  ghost predicate EndsWithin(g: Graph, o: Name, bound: nat) {
    forall run :: Legal(g, o, Start(g, o), run) ==> |run| <= bound
  }

  /** An update's flood is sure to end exactly when no cycle that avoids its origin is in its reach. */
  lemma FloodEndsIffNoCycle(g: Graph, o: Name)
    requires GraphOk(g)
    ensures (exists bound :: EndsWithin(g, o, bound)) <==> !CycleInReach(g, o)
  {
    StartWalks(g, o);
    if CycleInReach(g, o) {
      forall bound: nat ensures !EndsWithin(g, o, bound) {
        var run := LongRun(g, o, bound + 1);
      }
    } else {
      NoCycleMeansSimple(g, o);
      var bound := Potential(g, Start(g, o).flight);
      forall run | Legal(g, o, Start(g, o), run) ensures |run| <= bound {
        RunsAreShort(g, o, Start(g, o), run);
      }
      assert EndsWithin(g, o, bound);
    }
  }

  lemma LongRun(g: Graph, o: Name, n: nat) returns (run: seq<nat>)
    requires GraphOk(g) && CycleInReach(g, o)
    ensures Legal(g, o, Start(g, o), run) && |run| >= n
  {
    var c, p :| AvoidingCycle(g, o, c) && FloodWalk(g, o, p) && Last(p) in c;
    var d, q := EntersCycle(g, o, c, p);
    var first := SomeRunTakes(g, o, q);
    var s := After(g, o, Start(g, o), first);
    var rest := RunsAreUnbounded(g, o, d, s, n);
    AfterSplits(g, o, Start(g, o), first, rest);
    run := first + rest;
  }

  // ── On a tree ─────────────────────────────────────────────────────────────

  ghost predicate SimplePath(g: Graph, a: Name, b: Name, p: Walk) {
    p != [] && p[0] == a && Last(p) == b && NoDup(p) && Linked(g, p)
  }

  /** Exactly one simple path leads from the origin to each relay: what being a tree means for it. */
  ghost predicate TreeFrom(g: Graph, o: Name) {
    && (forall r :: r in g ==> exists p :: SimplePath(g, o, r, p))
    && (forall r, p, q :: SimplePath(g, o, r, p) && SimplePath(g, o, r, q) ==> p == q)
  }

  /** A walk that came back would give the relay before last two different simple paths. */
  lemma ReturnGivesTwoPaths(g: Graph, o: Name, p: Walk, i: nat)
    requires GraphOk(g) && FloodWalk(g, o, p) && |p| > 2 && NoDup(Front(p)) && i < |p| - 1 && p[i] == Last(p)
    ensures SimplePath(g, o, p[|p| - 2], Front(p))
    ensures var short := p[..i + 1] + [p[|p| - 2]]; SimplePath(g, o, p[|p| - 2], short) && |short| < |p| - 1
  {
    var q, u, r := Front(p), p[|p| - 2], Last(p);
    assert r in g[u] && u in g[r] && u == q[|q| - 1];
    assert i != |q| - 1;
    assert p[|p| - 3] != p[|p| - 1];
    assert i != |q| - 2;
    var short := p[..i + 1] + [u];
    assert forall j :: 0 <= j <= i ==> short[j] == q[j] && q[j] != u;
    assert Linked(g, q);
  }

  /** On a tree the flood takes only simple paths, and never comes back to its origin. */
  lemma {:induction false} TreeWalksAreSimple(g: Graph, o: Name, p: Walk)
    requires GraphOk(g) && TreeFrom(g, o) && FloodWalk(g, o, p)
    ensures NoDup(p)
    decreases |p|
  {
    if |p| == 2 {
      assert p[0] != p[1];
    } else {
      PrefixWalk(g, o, p, |p| - 1);
      TreeWalksAreSimple(g, o, Front(p));
      forall i | 0 <= i < |p| - 1 ensures p[i] != Last(p) {
        if p[i] == Last(p) {
          ReturnGivesTwoPaths(g, o, p, i);
        }
      }
    }
  }

  lemma SimplePathIsWalk(g: Graph, o: Name, r: Name, p: Walk)
    requires SimplePath(g, o, r, p) && r != o
    ensures FloodWalk(g, o, p)
  {
  }

  /** Every walk is on its way or done, none twice, and what has been handled has been sent on. */
  ghost predicate Ledger(g: Graph, o: Name, s: Flood) {
    && AllWalks(g, o, s)
    && NoDup(s.flight) && NoDup(s.handled) && (forall p :: p in s.flight ==> p !in s.handled)
    && (forall p :: p in s.flight || p in s.handled ==> |p| == 2 || Front(p) in s.handled)
    && (forall p :: FloodWalk(g, o, p) && (|p| == 2 || Front(p) in s.handled) ==> p in s.flight || p in s.handled)
  }

  lemma StartLedger(g: Graph, o: Name)
    requires GraphOk(g)
    ensures Ledger(g, o, Start(g, o))
  {
    StartWalks(g, o);
  }

  /** Handling `p` moves it and puts its continuations in flight: the ledger stays balanced. */
  lemma LedgerMoves(g: Graph, o: Name, s: Flood, m: Flood, p: Walk, more: seq<Walk>)
    requires Ledger(g, o, s) && p in s.flight
    requires forall q :: q in more <==> FloodWalk(g, o, q) && Front(q) == p
    requires forall q :: q in m.flight <==> (q in s.flight && q != p) || q in more
    requires forall q :: q in m.handled <==> q in s.handled || q == p
    requires NoDup(m.flight) && NoDup(m.handled)
    ensures Ledger(g, o, m)
  {
    forall q | q in m.flight ensures q !in m.handled {
      assert q in more ==> |q| > 2 && Front(q) == p && p !in s.handled;
    }
  }

  lemma DeliverKeepsLedger(g: Graph, o: Name, s: Flood, k: nat)
    requires GraphOk(g) && Ledger(g, o, s) && k < |s.flight|
    ensures Ledger(g, o, Deliver(g, o, s, k))
  {
    var p := s.flight[k];
    assert p in s.flight;
    OnwardFacts(g, o, p);
    DeliverIsNew(g, o, s, k);
    LedgerMoves(g, o, s, Deliver(g, o, s, k), p, Onward(g, o, p));
  }

  lemma DeliverIsNew(g: Graph, o: Name, s: Flood, k: nat)
    requires k < |s.flight| && |s.flight[k]| >= 2 && NoDup(s.flight) && NoDup(s.handled) && s.flight[k] !in s.handled
    requires forall p :: p in s.flight ==> p != [] && (|p| == 2 || Front(p) in s.handled)
    requires NoDup(Onward(g, o, s.flight[k]))
    requires forall q :: q in Onward(g, o, s.flight[k]) ==> |q| > 2 && Front(q) == s.flight[k]
    ensures var m, p := Deliver(g, o, s, k), s.flight[k];
            && NoDup(m.flight) && NoDup(m.handled)
            && (forall q :: q in m.flight <==> (q in s.flight && q != p) || q in Onward(g, o, p))
            && (forall q :: q in m.handled <==> q in s.handled || q == p)
  {
    RemovedOnce(s.flight, k);
    Joined(s.flight[..k] + s.flight[k + 1..], Onward(g, o, s.flight[k]));
    Joined(s.handled, [s.flight[k]]);
  }

  lemma Joined(a: seq<Walk>, b: seq<Walk>)
    requires NoDup(a) && NoDup(b) && forall q :: q in b ==> q !in a
    ensures NoDup(a + b) && forall q :: q in a + b <==> q in a || q in b
  {
    forall i, j | 0 <= i < j < |a + b| ensures (a + b)[i] != (a + b)[j] {
      assert i < |a| ==> (a + b)[i] in a;
      assert j >= |a| ==> (a + b)[j] in b;
    }
  }

  lemma RemovedOnce(flight: seq<Walk>, k: nat)
    requires NoDup(flight) && k < |flight|
    ensures var rest := flight[..k] + flight[k + 1..];
            NoDup(rest) && forall q :: q in rest <==> q in flight && q != flight[k]
  {
    var rest := flight[..k] + flight[k + 1..];
    assert flight == flight[..k] + [flight[k]] + flight[k + 1..];
    forall i | 0 <= i < |rest| ensures rest[i] == flight[if i < k then i else i + 1] {
    }
  }

  lemma {:induction false} RunKeepsLedger(g: Graph, o: Name, s: Flood, run: seq<nat>)
    requires GraphOk(g) && Ledger(g, o, s) && Legal(g, o, s, run)
    ensures Ledger(g, o, After(g, o, s, run))
    decreases |run|
  {
    if run != [] {
      DeliverKeepsLedger(g, o, s, run[0]);
      RunKeepsLedger(g, o, Deliver(g, o, s, run[0]), run[1..]);
    }
  }

  lemma {:induction false} QuietMeansAllHandled(g: Graph, o: Name, s: Flood, p: Walk)
    requires Ledger(g, o, s) && s.flight == [] && FloodWalk(g, o, p)
    ensures p in s.handled
    decreases |p|
  {
    if |p| > 2 {
      PrefixWalk(g, o, p, |p| - 1);
      QuietMeansAllHandled(g, o, s, Front(p));
    }
  }

  function HandledAt(handled: seq<Walk>, r: Name): nat {
    if handled == [] then 0
    else (if handled[0] != [] && Last(handled[0]) == r then 1 else 0) + HandledAt(handled[1..], r)
  }

  lemma {:induction false} CountOne(handled: seq<Walk>, r: Name, p: Walk)
    requires NoDup(handled) && p != [] && Last(p) == r
    requires forall q :: q in handled && q != [] && Last(q) == r ==> q == p
    ensures HandledAt(handled, r) == if p in handled then 1 else 0
  {
    if handled != [] {
      assert NoDup(handled[1..]) && handled[0] !in handled[1..];
      CountOne(handled[1..], r, p);
    }
  }

  lemma {:induction false} CountNone(handled: seq<Walk>, r: Name)
    requires forall q :: q in handled && q != [] ==> Last(q) != r
    ensures HandledAt(handled, r) == 0
  {
    if handled != [] {
      CountNone(handled[1..], r);
    }
  }

  lemma TreeMeansSimple(g: Graph, o: Name)
    requires GraphOk(g) && TreeFrom(g, o)
    ensures WalksAreSimple(g, o) && forall p :: FloodWalk(g, o, p) ==> NoDup(p) && Last(p) != o
  {
    forall p | FloodWalk(g, o, p) ensures NoDup(p) && Last(p) != o && NoDup(Front(p)) {
      TreeWalksAreSimple(g, o, p);
      assert p[0] == o;
    }
  }

  lemma QuietTreeHandledOnce(g: Graph, o: Name, s: Flood, r: Name)
    requires TreeFrom(g, o) && Ledger(g, o, s) && s.flight == [] && r in g
    requires forall p :: FloodWalk(g, o, p) ==> NoDup(p) && Last(p) != o
    ensures HandledAt(s.handled, r) == if r == o then 0 else 1
  {
    if r == o {
      CountNone(s.handled, r);
    } else {
      var p :| SimplePath(g, o, r, p);
      SimplePathIsWalk(g, o, r, p);
      QuietMeansAllHandled(g, o, s, p);
      forall q | q in s.handled && q != [] && Last(q) == r ensures q == p {
        assert FloodWalk(g, o, q) && SimplePath(g, o, r, q);
      }
      CountOne(s.handled, r, p);
    }
  }

  /**
   On a tree every schedule ends, and when nothing is left in flight every relay but the origin
   has handled the update exactly once, and the origin has never been sent it back.
   */
  lemma TreeFloodIsExactlyOnce(g: Graph, o: Name, run: seq<nat>, r: Name)
    requires GraphOk(g) && TreeFrom(g, o) && Legal(g, o, Start(g, o), run) && r in g
    ensures |run| <= Potential(g, Start(g, o).flight)
    ensures After(g, o, Start(g, o), run).flight == [] ==>
              HandledAt(After(g, o, Start(g, o), run).handled, r) == if r == o then 0 else 1
  {
    TreeMeansSimple(g, o);
    StartLedger(g, o);
    RunsAreShort(g, o, Start(g, o), run);
    RunKeepsLedger(g, o, Start(g, o), run);
    if After(g, o, Start(g, o), run).flight == [] {
      QuietTreeHandledOnce(g, o, After(g, o, Start(g, o), run), r);
    }
  }
}
