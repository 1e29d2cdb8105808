/** What callers rely on: one token per forward, the path home, and exactly one answer. */
module ForwardDelivery {
  import opened Base
  import opened PeeringModel
  import opened BacklinkQueue
  import opened ForwardNetwork

  lemma InitIsGood(t: Topology, n: Net)
    requires Init(t, n)
    ensures Inv(t, n)
  {
  }

  lemma {:induction false} RunKeepsInv(t: Topology, n: Net, run: seq<Label>)
    requires WellFormed(t) && Inv(t, n) && Legal(t, n, run)
    ensures Inv(t, After(t, n, run))
    decreases |run|
  {
    if run != [] {
      StepKeepsInv(t, n, run[0]);
      RunKeepsInv(t, Next(t, n, run[0]), run[1..]);
    }
  }

  /** In every run, a forward is never in flight twice: one frame, a forward or an ack, or none. */
  lemma OneLiveToken(t: Topology, n: Net, run: seq<Label>, p: Packet, q: Packet)
    requires WellFormed(t) && Init(t, n) && Legal(t, n, run)
    requires p in After(t, n, run).flight && q in After(t, n, run).flight && IdOf(p) == IdOf(q)
    ensures p == q && After(t, n, run).flight[p] == 1
  {
    RunKeepsInv(t, n, run);
  }

  /**
   While a forward is in flight its `visited` names each relay once, so it has taken fewer hops
   than there are relays; and every backlink for it anywhere sits at a visited relay after the
   first and leads to the relay visited just before.
   */
  lemma VisitedIsThePath(t: Topology, n: Net, run: seq<Label>, p: Packet)
    requires WellFormed(t) && Init(t, n) && Legal(t, n, run)
    requires p in After(t, n, run).flight && p.frame.ForwardFrame?
    ensures var m, visited := After(t, n, run), p.frame.fwd.visited;
            && NoDup(visited) && 1 <= |visited| <= |t.keys|
            && (forall r :: r in visited ==> r in m.relays)
            && (forall r, e :: r in m.relays && e in m.relays[r].backlinks && e.id == IdOf(p) ==>
                  exists j :: 0 <= j < |visited| && visited[j] == r && JoinsPredecessor(t, visited, j, e.conn))
  {
    RunKeepsInv(t, n, run);
    TokenIsOnItsPath(t, After(t, n, run), p);
  }

  lemma TokenIsOnItsPath(t: Topology, m: Net, p: Packet)
    requires RelaysOk(t, m) && TrailsOk(t, m) && BacklinksOk(t, m) && TokenOk(t, m, p) && p.frame.ForwardFrame?
    ensures var visited := p.frame.fwd.visited;
            && NoDup(visited) && 1 <= |visited| <= |t.keys|
            && (forall r :: r in visited ==> r in m.relays)
            && (forall r, e :: r in m.relays && e in m.relays[r].backlinks && e.id == IdOf(p) ==>
                  exists j :: 0 <= j < |visited| && visited[j] == r && JoinsPredecessor(t, visited, j, e.conn))
  {
    var visited := p.frame.fwd.visited;
    assert TrailOk(t, visited);
    NoDupFits(visited, t.keys.Keys);
    forall r, e | r in m.relays && e in m.relays[r].backlinks && e.id == IdOf(p)
      ensures exists j :: 0 <= j < |visited| && visited[j] == r && JoinsPredecessor(t, visited, j, e.conn)
    {
      assert BacklinkOk(t, m, r, e);
    }
  }

  /**
   Handling a forward replaces its one frame by one other: an ack if this relay has handled it
   before, and if it hops, the same payload with `visited` grown by this relay.
   */
  lemma HopMakesProgress(t: Topology, n: Net, p: Packet, local: Local, now: int) returns (q: Packet)
    requires WellFormed(t) && RelaysOk(t, n) && TrailsOk(t, n)
    requires p in n.flight && TokenOk(t, n, p) && p.frame.ForwardFrame?
    ensures AfterForward(t, n, p, local, now).flight == n.flight - multiset{p} + multiset{q} && IdOf(q) == IdOf(p)
    ensures p.to in p.frame.fwd.visited ==> q.frame.AckFrame?
    ensures q.frame.ForwardFrame? ==>
      && q.frame.fwd.visited == p.frame.fwd.visited + [p.to] && |q.frame.fwd.visited| <= |t.keys|
      && q.frame.fwd.payload == p.frame.fwd.payload && q.frame.fwd.target == p.frame.fwd.target
  {
    var g, x := ForwardShape(t, n, p, local, now);
    q := x;
    GrownVisitedFits(t, n, p);
  }

  lemma GrownVisitedFits(t: Topology, n: Net, p: Packet)
    requires TrailsOk(t, n) && TokenOk(t, n, p) && p.frame.ForwardFrame? && p.to in t.keys
    ensures p.to !in p.frame.fwd.visited ==> |p.frame.fwd.visited + [p.to]| <= |t.keys|
  {
    var visited := p.frame.fwd.visited;
    assert TrailOk(t, n.trail[IdOf(p)]);
    if p.to !in visited {
      NoDupFits(visited + [p.to], t.keys.Keys);
    }
  }

  /** An ack at the `j`-th relay of the path moves, unchanged, to the relay before it or nowhere. */
  lemma AckRetraces(t: Topology, n: Net, p: Packet, local: Local, now: int, j: nat)
    requires WellFormed(t) && Inv(t, n) && p in n.flight && p.frame.AckFrame? && p.conn !in n.closed
    requires IdOf(p) in n.trail && j < |n.trail[IdOf(p)]| && n.trail[IdOf(p)][j] == p.to
    ensures forall q :: q in Next(t, n, Deliver(p, local, now)).flight && IdOf(q) == IdOf(p) ==>
              j > 0 && q.to == n.trail[IdOf(p)][j - 1] && q.frame == p.frame
  {
    assert TokenOk(t, n, p);
    var f := n.relays[p.to];
    TakeFacts(f.backlinks, p.frame.id, now);
    var (back, rest) := TakeBacklink(f.backlinks, p.frame.id, now);
    if back.Some? {
      var e :| e in f.backlinks && e.id == p.frame.id && e.conn == back.value;
      EntryLeadsBack(t, n, p.to, e, j);
    }
    AckLeaves(t, n, p, local, now);
  }

  lemma EntryLeadsBack(t: Topology, n: Net, r: Name, e: Backlink, j: nat)
    requires TrailsOk(t, n) && BacklinkOk(t, n, r, e) && j < |n.trail[e.id]| && n.trail[e.id][j] == r
    ensures j > 0 && IsEnd(t, e.conn, r) && Other(t, e.conn, r) == n.trail[e.id][j - 1]
  {
    assert TrailOk(t, n.trail[e.id]);
  }

  /** After an ack is handled, the frame it gave rise to is the only one left for its forward. */
  lemma AckLeaves(t: Topology, n: Net, p: Packet, local: Local, now: int)
    requires RelaysOk(t, n) && OneToken(n)
    requires p in n.flight && p.frame.AckFrame? && IsEnd(t, p.conn, p.to) && p.to in n.relays
    ensures var (back, rest) := TakeBacklink(n.relays[p.to].backlinks, p.frame.id, now);
            forall q :: q in Next(t, n, Deliver(p, local, now)).flight && IdOf(q) == IdOf(p) ==>
              back.Some? && IsEnd(t, back.value, p.to)
              && q == Packet(back.value, Other(t, back.value, p.to), p.frame)
  {
    var m := Next(t, n, Deliver(p, local, now));
    forall q | q in m.flight && IdOf(q) == IdOf(p) ensures q !in n.flight || (q == p && n.flight[p] == 1) {
    }
  }

  lemma ForwardTrails(t: Topology, n: Net, p: Packet, local: Local, now: int)
    requires p.frame.ForwardFrame? && p.to in n.relays && p.to in t.keys && IsEnd(t, p.conn, p.to)
    ensures var after := AfterForward(t, n, p, local, now).trail;
            after == n.trail || after == n.trail[IdOf(p) := ListAt(n.trail, IdOf(p)) + [p.to]]
  {
  }

  lemma AckTrails(t: Topology, n: Net, p: Packet, now: int)
    requires p.frame.AckFrame? && p.to in n.relays
    ensures AfterAck(t, n, p, now).trail == n.trail
  {
  }

  lemma DeliverTrails(t: Topology, n: Net, p: Packet, local: Local, now: int)
    ensures var after := Next(t, n, Deliver(p, local, now)).trail;
            after == n.trail || after == n.trail[IdOf(p) := ListAt(n.trail, IdOf(p)) + [p.to]]
  {
    if p.to in n.relays && p.to in t.keys && IsEnd(t, p.conn, p.to) {
      if p.frame.ForwardFrame? {
        ForwardTrails(t, n, p, local, now);
      } else {
        AckTrails(t, n, p, now);
      }
    }
  }

  lemma IssueTrails(t: Topology, n: Net, l: Label)
    requires l.Issue?
    ensures Next(t, n, l).trail == n.trail || Next(t, n, l).trail == n.trail[l.id := [l.relay]]
  {
  }

  lemma OtherTrails(t: Topology, n: Net, l: Label)
    requires !l.Issue? && !l.Deliver?
    ensures Next(t, n, l).trail == n.trail
  {
  }

  /** A step adds at most one relay to the end of one trail; a new trail is its issuer alone. */
  lemma StepTrails(t: Topology, n: Net, l: Label, id: ReqId)
    requires Enabled(t, n, l) && FlightOk(t, n) && id in Next(t, n, l).trail
    ensures id in n.trail ==> n.trail[id] <= Next(t, n, l).trail[id]
    ensures id !in n.trail ==> l.Issue? && l.id == id && Next(t, n, l).trail[id] == [l.relay]
  {
    match l
    case Deliver(p, local, now) =>
      assert TokenOk(t, n, p);
      DeliverTrails(t, n, p, local, now);
    case Issue(_, _, _, _, _) =>
      IssueTrails(t, n, l);
    case _ =>
      OtherTrails(t, n, l);
  }

  lemma StepKnows(t: Topology, n: Net, l: Label, id: ReqId)
    requires id in n.trail
    ensures id in Next(t, n, l).trail
  {
    match l
    case Deliver(p, local, now) => DeliverTrails(t, n, p, local, now);
    case Issue(_, _, _, _, _) => IssueTrails(t, n, l);
    case _ => OtherTrails(t, n, l);
  }

  /** Every trail starts at the relay that issued its forward. */
  lemma {:induction false} TrailsStartAtIssuers(t: Topology, n: Net, run: seq<Label>, id: ReqId)
    requires WellFormed(t) && Inv(t, n) && Legal(t, n, run)
    requires id in After(t, n, run).trail && id !in n.trail
    ensures exists l :: l in run && l.Issue? && l.id == id && After(t, n, run).trail[id] != []
                     && l.relay == After(t, n, run).trail[id][0]
    decreases |run|
  {
    var m := Next(t, n, run[0]);
    StepKeepsInv(t, n, run[0]);
    if id in m.trail {
      StepTrails(t, n, run[0], id);
      RunExtends(t, m, run[1..], id);
    } else {
      TrailsStartAtIssuers(t, m, run[1..], id);
      var trail := After(t, n, run).trail[id];
      var l :| l in run[1..] && l.Issue? && l.id == id && trail != [] && l.relay == trail[0];
      assert l in run;
    }
  }

  lemma {:induction false} RunExtends(t: Topology, n: Net, run: seq<Label>, id: ReqId)
    requires WellFormed(t) && Inv(t, n) && Legal(t, n, run) && id in n.trail
    ensures id in After(t, n, run).trail && n.trail[id] <= After(t, n, run).trail[id]
    decreases |run|
  {
    if run != [] {
      StepKeepsInv(t, n, run[0]);
      StepKnows(t, n, run[0], id);
      StepTrails(t, n, run[0], id);
      RunExtends(t, Next(t, n, run[0]), run[1..], id);
    }
  }

  /**
   Over every run a forward is answered at most once: at the relay that issued it, with the
   status of the one relay that judged it, and nothing of it is left in flight or pending.
   */
  lemma AnsweredAtMostOnce(t: Topology, n: Net, run: seq<Label>, i: nat)
    requires WellFormed(t) && Init(t, n) && Legal(t, n, run) && i < |After(t, n, run).resolved|
    ensures var m := After(t, n, run); var res := m.resolved[i];
            && (forall j :: 0 <= j < |m.resolved| && j != i ==> m.resolved[j].id != res.id)
            && (exists l :: l in run && l.Issue? && l.id == res.id && l.relay == res.relay)
            && res.id in m.verdict && res.status == m.verdict[res.id].status
            && (forall p :: p in m.flight ==> IdOf(p) != res.id)
            && (forall r :: r in m.relays ==> res.id !in m.relays[r].pending)
  {
    RunKeepsInv(t, n, run);
    InitIsGood(t, n);
    TrailsStartAtIssuers(t, n, run, After(t, n, run).resolved[i].id);
  }

  // ── Exactly once, when nothing of the forward is lost ─────────────────────

  ghost predicate NotExpired(q: seq<Backlink>, id: ReqId, now: int) {
    forall e :: e in q && e.id == id ==> Live(e, now)
  }

  /** The relay sends the forward on, and so records a backlink for it. */
  ghost predicate SendsOn(t: Topology, n: Net, p: Packet, local: Local, now: int)
    requires p.frame.ForwardFrame? && p.to in n.relays && p.to in t.keys && IsEnd(t, p.conn, p.to)
  {
    HandleForward(n.relays[p.to], t.keys[p.to], LinkAt(t, p.conn, p.to), p.conn, p.frame.fwd, local, n.closed, now)
    .1.1.ForwardFrame?
  }

  /**
   The step drops no frame, backlink or pending entry of forward `id`. A delivery can only drop a
   backlink of its relay: an ack drops what has expired, and a forward sent on what is evicted too.
   */
  ghost predicate Spares(t: Topology, n: Net, l: Label, id: ReqId) {
    match l
    case Lose(p) => IdOf(p) != id
    case Cancel(_, x) => x != id
    case Deliver(p, local, now) =>
      p.to in n.relays && p.to in t.keys && IsEnd(t, p.conn, p.to) ==>
        if p.frame.AckFrame? then NotExpired(n.relays[p.to].backlinks, id, now)
        else SendsOn(t, n, p, local, now) ==> NotEvicted(n.relays[p.to].backlinks, id, now)
    case _ => true
  }

  ghost predicate SparesAll(t: Topology, n: Net, run: seq<Label>, id: ReqId)
    decreases |run|
  {
    run == [] || (Spares(t, n, run[0], id) && SparesAll(t, Next(t, n, run[0]), run[1..], id))
  }

  /** Backlinks for `id` exist exactly at the first `k` relays after the issuer. */
  ghost predicate BackedUpTo(n: Net, id: ReqId, k: int) {
    id in n.trail && forall j :: 1 <= j < |n.trail[id]| && n.trail[id][j] in n.relays ==>
      (Has(n.relays[n.trail[id][j]].backlinks, id) <==> j <= k)
  }

  /** The frame of `id` is at the `k`-th relay's door, with the way home intact behind it. */
  ghost predicate Carried(n: Net, id: ReqId, p: Packet, k: int) {
    && p in n.flight && IdOf(p) == id && id in n.trail && 0 <= k < |n.trail[id]|
    && BackedUpTo(n, id, k)
    && (p.frame.ForwardFrame? ==> k == |n.trail[id]| - 1)
    && (p.frame.AckFrame? ==> n.trail[id][k] == p.to)
    && n.trail[id][0] in n.relays && id in n.relays[n.trail[id][0]].pending
  }

  ghost predicate Answered(n: Net, id: ReqId) {
    exists i :: 0 <= i < |n.resolved| && n.resolved[i].id == id
  }

  /** Where a forward stands, and how many deliveries can still happen before its answer. */
  ghost predicate Stands(t: Topology, n: Net, id: ReqId, rank: int) {
    || (id !in n.trail && rank == 2 * |t.keys|)
    || (exists p, k :: Carried(n, id, p, k) && rank == (if p.frame.ForwardFrame? then 2 * |t.keys| - k else k + 1))
    || (id in n.trail && Answered(n, id) && BackedUpTo(n, id, 0) && rank == 0)
  }

  function Deliveries(run: seq<Label>, id: ReqId): nat {
    if run == [] then 0
    else (if run[0].Deliver? && IdOf(run[0].packet) == id then 1 else 0) + Deliveries(run[1..], id)
  }

  ghost predicate Delivers(l: Label, id: ReqId) {
    l.Deliver? && IdOf(l.packet) == id
  }

  /** A step about anything else leaves this forward's trail, frame, backlinks and pending entry alone. */
  ghost predicate Untouched(n: Net, m: Net, id: ReqId) {
    && m.relays.Keys == n.relays.Keys
    && (forall r :: r in n.relays ==>
         && (Has(m.relays[r].backlinks, id) <==> Has(n.relays[r].backlinks, id))
         && (id in m.relays[r].pending <==> id in n.relays[r].pending))
    && id in n.trail && id in m.trail && m.trail[id] == n.trail[id]
    && (forall p :: IdOf(p) == id ==> (p in m.flight <==> p in n.flight))
    && n.resolved <= m.resolved
  }

  lemma OtherHopSpares(t: Topology, n: Net, m: Net, p: Packet, q: Packet, g: Fed, now: int, id: ReqId)
    requires Hops(t, n, m, p, q, g, now) && BacklinksOk(t, n) && TokenOk(t, n, p)
    requires IdOf(p) != id && id in n.trail && NotEvicted(n.relays[p.to].backlinks, id, now)
    ensures Untouched(n, m, id)
  {
    HopQueue(t, n, m, p, g, now);
    RecordSparesIff(n.relays[p.to].backlinks, IdOf(p), now, p.conn, id);
  }

  lemma OtherTurnSpares(t: Topology, n: Net, m: Net, p: Packet, q: Packet, g: Fed, id: ReqId)
    requires Turns(t, n, m, p, q, g) && IdOf(p) != id && id in n.trail
    ensures Untouched(n, m, id)
  {
  }

  lemma OtherAckSpares(t: Topology, n: Net, m: Net, p: Packet, g: Fed, out: Option<Packet>, now: int, id: ReqId)
    requires Passes(t, n, m, p, g, out) && BacklinksOk(t, n)
    requires g.backlinks == TakeBacklink(n.relays[p.to].backlinks, IdOf(p), now).1
    requires IdOf(p) != id && id in n.trail && NotExpired(n.relays[p.to].backlinks, id, now)
    ensures Untouched(n, m, id)
  {
    TakeSpares(n.relays[p.to].backlinks, IdOf(p), now, id);
    assert Has(g.backlinks, id) <==> Has(n.relays[p.to].backlinks, id);
    assert id in g.pending <==> id in n.relays[p.to].pending;
    assert out.Some? ==> IdOf(out.value) == IdOf(p);
  }

  lemma HopsSendOn(t: Topology, n: Net, p: Packet, q: Packet, g: Fed, local: Local, now: int)
    requires p.frame.ForwardFrame? && p.to in n.relays && p.to in t.keys && IsEnd(t, p.conn, p.to)
    requires Hops(t, n, AfterForward(t, n, p, local, now), p, q, g, now)
    ensures SendsOn(t, n, p, local, now)
  {
    var id := IdOf(p);
    assert |AfterForward(t, n, p, local, now).trail[id]| == |n.trail[id]| + 1;
  }

  lemma OtherDeliverySpares(t: Topology, n: Net, p: Packet, local: Local, now: int, id: ReqId)
    requires WellFormed(t) && RelaysOk(t, n) && BacklinksOk(t, n) && p in n.flight && TokenOk(t, n, p)
    requires Spares(t, n, Deliver(p, local, now), id) && id in n.trail && IdOf(p) != id
    ensures Untouched(n, Next(t, n, Deliver(p, local, now)), id)
  {
    if p.frame.AckFrame? {
      var g, out := AckShape(t, n, p, now);
      OtherAckSpares(t, n, AfterAck(t, n, p, now), p, g, out, now, id);
    } else {
      var g, q := ForwardShape(t, n, p, local, now);
      if q.frame.ForwardFrame? {
        HopsSendOn(t, n, p, q, g, local, now);
        OtherHopSpares(t, n, AfterForward(t, n, p, local, now), p, q, g, now, id);
      } else {
        OtherTurnSpares(t, n, AfterForward(t, n, p, local, now), p, q, g, id);
      }
    }
  }

  lemma IssueSpares(t: Topology, n: Net, l: Label, id: ReqId)
    requires l.Issue? && l.relay in n.relays && l.relay in t.keys && l.id != id && id in n.trail
    ensures Untouched(n, Next(t, n, l), id)
  {
    var (g, out) := Originate(n.relays[l.relay], t.keys[l.relay], l.id, l.from, l.target, l.payload, n.closed);
    if out.Some? {
      var more := Post(t, l.relay, out.value.0, out.value.1);
      assert Next(t, n, l).flight == n.flight + more;
      assert forall p :: p in more ==> IdOf(p) == l.id;
    }
  }

  lemma QuietStepSpares(t: Topology, n: Net, l: Label, id: ReqId)
    requires n.relays.Keys == t.keys.Keys && Enabled(t, n, l) && Spares(t, n, l, id) && id in n.trail && !l.Deliver?
    ensures Untouched(n, Next(t, n, l), id)
  {
    if l.Issue? {
      IssueSpares(t, n, l, id);
    }
  }

  lemma OtherStepSpares(t: Topology, n: Net, l: Label, id: ReqId)
    requires WellFormed(t) && Inv(t, n) && Enabled(t, n, l) && Spares(t, n, l, id) && id in n.trail && !Delivers(l, id)
    ensures Untouched(n, Next(t, n, l), id)
  {
    if l.Deliver? {
      assert TokenOk(t, n, l.packet);
      OtherDeliverySpares(t, n, l.packet, l.local, l.now, id);
    } else {
      QuietStepSpares(t, n, l, id);
    }
  }

  lemma UntouchedStands(t: Topology, n: Net, m: Net, id: ReqId, rank: int)
    requires Untouched(n, m, id) && Stands(t, n, id, rank)
    ensures Stands(t, m, id, rank)
  {
    if p, k :| Carried(n, id, p, k) && rank == (if p.frame.ForwardFrame? then 2 * |t.keys| - k else k + 1) {
      assert Carried(m, id, p, k);
    } else {
      var i :| 0 <= i < |n.resolved| && n.resolved[i].id == id;
      assert m.resolved[i].id == id;
    }
  }

  lemma OwnHopMoves(t: Topology, n: Net, m: Net, p: Packet, q: Packet, g: Fed, now: int, k: int)
    requires Hops(t, n, m, p, q, g, now) && BacklinksOk(t, n) && TrailsOk(t, n) && RelaysOk(t, n) && TokenOk(t, n, p)
    requires Carried(n, IdOf(p), p, k)
    ensures Carried(m, IdOf(p), q, k + 1)
  {
    var id, trail := IdOf(p), n.trail[IdOf(p)];
    HopQueue(t, n, m, p, g, now);
    RecordFacts(n.relays[p.to].backlinks, id, now, p.conn);
    assert m.trail[id] == trail + [p.to] && TrailOk(t, trail);
    assert Has(g.backlinks, id);
    forall j | 1 <= j < |m.trail[id]| && m.trail[id][j] in m.relays
      ensures Has(m.relays[m.trail[id][j]].backlinks, id) <==> j <= k + 1
    {
      assert j < |trail| ==> m.trail[id][j] == trail[j] && trail[j] != p.to;
    }
    assert m.trail[id][0] == trail[0];
  }

  lemma OwnTurnMoves(t: Topology, n: Net, m: Net, p: Packet, q: Packet, g: Fed, k: int)
    requires Turns(t, n, m, p, q, g) && TokenOk(t, n, p) && Carried(n, IdOf(p), p, k)
    ensures Carried(m, IdOf(p), q, k)
  {
  }

  lemma OwnAckMoves(t: Topology, n: Net, m: Net, p: Packet, g: Fed, q: Packet, now: int, k: int)
    requires Passes(t, n, m, p, g, Some(q)) && BacklinksOk(t, n) && TrailsOk(t, n)
    requires TokenOk(t, n, p) && Carried(n, IdOf(p), p, k)
    requires g.backlinks == TakeBacklink(n.relays[p.to].backlinks, IdOf(p), now).1
    requires exists e :: e in n.relays[p.to].backlinks && e.id == IdOf(p) && e.conn == q.conn
    ensures k > 0 && Carried(m, IdOf(p), q, k - 1)
  {
    var id, trail := IdOf(p), n.trail[IdOf(p)];
    var e :| e in n.relays[p.to].backlinks && e.id == id && e.conn == q.conn;
    assert BacklinkOk(t, n, p.to, e);
    EntryLeadsBack(t, n, p.to, e, k);
    TakeFacts(n.relays[p.to].backlinks, id, now);
    assert TrailOk(t, trail);
    forall j | 1 <= j < |trail| && trail[j] in m.relays
      ensures Has(m.relays[trail[j]].backlinks, id) <==> j <= k - 1
    {
      assert j != k ==> trail[j] != p.to;
    }
  }

  /** With the way home intact, an ack is stopped only at the issuer, where it is the answer. */
  lemma OwnAckEnds(t: Topology, n: Net, m: Net, p: Packet, g: Fed, now: int, k: int)
    requires Passes(t, n, m, p, g, None) && BacklinksOk(t, n) && TrailsOk(t, n)
    requires TokenOk(t, n, p) && Carried(n, IdOf(p), p, k)
    requires g.backlinks == TakeBacklink(n.relays[p.to].backlinks, IdOf(p), now).1
    requires forall e :: e in n.relays[p.to].backlinks ==> e.id != IdOf(p)
    ensures k == 0 && Answered(m, IdOf(p)) && BackedUpTo(m, IdOf(p), 0)
  {
    var id, trail := IdOf(p), n.trail[IdOf(p)];
    assert TrailOk(t, trail);
    assert !Has(n.relays[p.to].backlinks, id);
    assert k == 0;
    TakeFacts(n.relays[p.to].backlinks, id, now);
    assert m.resolved[|n.resolved|].id == id;
    forall j | 1 <= j < |trail| && trail[j] in m.relays ensures !Has(m.relays[trail[j]].backlinks, id) {
      assert trail[j] != p.to;
    }
  }

  /** Every delivery of the forward's own frame brings its answer strictly nearer. */
  lemma OwnStepMoves(t: Topology, n: Net, l: Label, k: int) returns (after: int)
    requires WellFormed(t) && Inv(t, n) && Enabled(t, n, l) && l.Deliver? && Spares(t, n, l, IdOf(l.packet))
    requires Carried(n, IdOf(l.packet), l.packet, k)
    ensures Stands(t, Next(t, n, l), IdOf(l.packet), after)
    ensures after < if l.packet.frame.ForwardFrame? then 2 * |t.keys| - k else k + 1
  {
    var p, now, m := l.packet, l.now, Next(t, n, l);
    assert TokenOk(t, n, p);
    if p.frame.ForwardFrame? {
      var g, q := ForwardShape(t, n, p, l.local, now);
      if q.frame.ForwardFrame? {
        OwnHopMoves(t, n, m, p, q, g, now, k);
        after := 2 * |t.keys| - (k + 1);
      } else {
        OwnTurnMoves(t, n, m, p, q, g, k);
        assert TrailOk(t, n.trail[IdOf(p)]);
        NoDupFits(n.trail[IdOf(p)], t.keys.Keys);
        after := k + 1;
      }
    } else {
      var g, out := AckShape(t, n, p, now);
      if out.Some? {
        OwnAckMoves(t, n, m, p, g, out.value, now, k);
        after := k;
      } else {
        OwnAckEnds(t, n, m, p, g, now, k);
        after := 0;
      }
    }
  }

  lemma StepMoves(t: Topology, n: Net, l: Label, id: ReqId, rank: int) returns (after: int)
    requires WellFormed(t) && Inv(t, n) && Enabled(t, n, l) && Spares(t, n, l, id) && Stands(t, n, id, rank)
    ensures Stands(t, Next(t, n, l), id, after)
    ensures after + (if Delivers(l, id) then 1 else 0) <= rank
  {
    assert l.Deliver? ==> TokenOk(t, n, l.packet);
    if id !in n.trail {
      after := rank;
      if id in Next(t, n, l).trail {
        StepTrails(t, n, l, id);
        IssueStands(t, n, l);
      }
    } else if Delivers(l, id) {
      var k := StandsAt(t, n, l.packet, rank);
      after := OwnStepMoves(t, n, l, k);
    } else {
      OtherStepSpares(t, n, l, id);
      UntouchedStands(t, n, Next(t, n, l), id, rank);
      after := rank;
    }
  }

  lemma StandsAt(t: Topology, n: Net, p: Packet, rank: int) returns (k: int)
    requires OneToken(n) && ResolvedOk(n) && p in n.flight && IdOf(p) in n.trail && Stands(t, n, IdOf(p), rank)
    ensures Carried(n, IdOf(p), p, k) && rank == if p.frame.ForwardFrame? then 2 * |t.keys| - k else k + 1
  {
    assert !Answered(n, IdOf(p));
    var q, j :| Carried(n, IdOf(p), q, j) && rank == (if q.frame.ForwardFrame? then 2 * |t.keys| - j else j + 1);
    k := j;
  }

  lemma IssueStands(t: Topology, n: Net, l: Label)
    requires WellFormed(t) && Inv(t, n) && Enabled(t, n, l) && l.Issue? && l.id in Next(t, n, l).trail
    ensures Stands(t, Next(t, n, l), l.id, 2 * |t.keys|)
  {
    var f, m := n.relays[l.relay], Next(t, n, l);
    PickRouteIsOpen(f, ListAt(f.routes, l.target), {}, None, n.closed);
    var (g, out) := Originate(f, t.keys[l.relay], l.id, l.from, l.target, l.payload, n.closed);
    var p := Packet(out.value.0, Other(t, out.value.0, l.relay), out.value.1);
    assert p in m.flight;
    assert Carried(m, l.id, p, 0);
  }

  lemma {:induction false} RunMoves(t: Topology, n: Net, run: seq<Label>, id: ReqId, rank: int) returns (after: int)
    requires WellFormed(t) && Inv(t, n) && Legal(t, n, run) && SparesAll(t, n, run, id) && Stands(t, n, id, rank)
    ensures Stands(t, After(t, n, run), id, after) && after + Deliveries(run, id) <= rank
    decreases |run|
  {
    if run == [] {
      after := rank;
    } else {
      StepKeepsInv(t, n, run[0]);
      var mid := StepMoves(t, n, run[0], id, rank);
      after := RunMoves(t, Next(t, n, run[0]), run[1..], id, mid);
    }
  }

  /**
   In a run that drops nothing of forward `id`, once issued it is either still carried by exactly
   one frame, with backlinks exactly along its path, or has been answered, once; its frames are
   delivered at most twice per relay in all, so delivering them to the end answers it.
   */
  lemma AnsweredExactlyOnce(t: Topology, n: Net, run: seq<Label>, id: ReqId)
    requires WellFormed(t) && Init(t, n) && Legal(t, n, run) && SparesAll(t, n, run, id)
    requires id in After(t, n, run).trail
    ensures var m := After(t, n, run);
            && ((exists p, k :: Carried(m, id, p, k)) <==> !Answered(m, id))
            && Deliveries(run, id) <= 2 * |t.keys|
            && (Deliveries(run, id) == 2 * |t.keys| ==> Answered(m, id))
  {
    InitIsGood(t, n);
    RunKeepsInv(t, n, run);
    var after := RunMoves(t, n, run, id, 2 * |t.keys|);
    StandsOneWay(t, After(t, n, run), id, after);
  }

  /** A forward stands in exactly one way, and only an answered one has no way left to go. */
  lemma StandsOneWay(t: Topology, m: Net, id: ReqId, rank: int)
    requires TrailsOk(t, m) && ResolvedOk(m) && id in m.trail && Stands(t, m, id, rank)
    ensures (exists p, k :: Carried(m, id, p, k)) <==> !Answered(m, id)
    ensures 0 <= rank && (rank == 0 ==> Answered(m, id))
  {
    if p, k :| Carried(m, id, p, k) && rank == (if p.frame.ForwardFrame? then 2 * |t.keys| - k else k + 1) {
      assert TrailOk(t, m.trail[id]);
      NoDupFits(m.trail[id], t.keys.Keys);
    }
  }
}
