/**
 Forwards and their acks over any finite set of uniquely named relays.

 A run is a sequence of labels: a relay issues a forward under a fresh id, a frame in flight
 is delivered in any order, a connection dies and loses what it carried, a caller gives up, or
 any other operation rewrites a relay's routing tables. `trail`, `verdict` and `resolved` only
 record history; no relay reads them.
 */
module ForwardNetwork {
  import opened Base
  import opened PeeringModel
  import opened BacklinkQueue

  /** One connection and the link name each end knows it by. */
  datatype Wire = Wire(a: Name, linkAtA: Name, b: Name, linkAtB: Name)

  datatype Topology = Topology(wires: map<Conn, Wire>, keys: map<Name, Keys>)

  ghost predicate WellFormed(t: Topology) {
    forall c :: c in t.wires ==> t.wires[c].a in t.keys && t.wires[c].b in t.keys && t.wires[c].a != t.wires[c].b
  }

  predicate IsEnd(t: Topology, c: Conn, r: Name) {
    c in t.wires && (r == t.wires[c].a || r == t.wires[c].b)
  }

  function Other(t: Topology, c: Conn, r: Name): Name
    requires IsEnd(t, c, r)
  {
    if r == t.wires[c].a then t.wires[c].b else t.wires[c].a
  }

  function LinkAt(t: Topology, c: Conn, r: Name): Name
    requires IsEnd(t, c, r)
  {
    if r == t.wires[c].a then t.wires[c].linkAtA else t.wires[c].linkAtB
  }

  datatype Packet = Packet(conn: Conn, to: Name, frame: Frame)

  function IdOf(p: Packet): ReqId {
    match p.frame
    case ForwardFrame(fwd) => fwd.id
    case AckFrame(id, _) => id
  }

  datatype Verdict = Verdict(judge: Name, status: Status)
  datatype Resolution = Resolution(relay: Name, id: ReqId, status: Status)

  datatype Net = Net(
    relays: map<Name, Fed>,
    flight: multiset<Packet>,
    closed: set<Conn>,
    trail: map<ReqId, seq<Name>>,
    verdict: map<ReqId, Verdict>,
    resolved: seq<Resolution>)

  datatype Label =
    | Issue(relay: Name, id: ReqId, from: Epk, target: Epk, payload: string)
    | Deliver(packet: Packet, local: Local, now: int)
    | Lose(lost: Packet)
    | LinkDown(conn: Conn)
    | Cancel(canceller: Name, cancelled: ReqId)
    | Reroute(rerouted: Name, fed: Fed)

  /** Every channel a relay holds is an end of one of its own connections. */
  ghost predicate OwnSenders(t: Topology, r: Name, f: Fed) {
    f.own == r && forall link, c :: link in f.senders && c in f.senders[link] ==> IsEnd(t, c, r)
  }

  ghost predicate Init(t: Topology, n: Net) {
    && n.relays.Keys == t.keys.Keys
    && (forall r :: r in n.relays ==>
         OwnSenders(t, r, n.relays[r]) && n.relays[r].pending == {} && n.relays[r].backlinks == [])
    && n.flight == multiset{} && n.trail == map[] && n.verdict == map[] && n.resolved == []
  }

  /** Every operation but a forward, an ack or a cancel leaves these two tables alone. */
  predicate RoutingOnly(f: Fed, g: Fed) {
    g.own == f.own && g.pending == f.pending && g.backlinks == f.backlinks
  }

  ghost predicate Enabled(t: Topology, n: Net, l: Label) {
    match l
    case Issue(r, id, _, _, _) => r in n.relays && id !in n.trail
    case Deliver(p, _, _) => p in n.flight && p.conn !in n.closed
    case Lose(p) => p in n.flight && p.conn in n.closed
    case LinkDown(_) => true
    case Cancel(r, _) => r in n.relays
    case Reroute(r, f) => r in n.relays && RoutingOnly(n.relays[r], f) && OwnSenders(t, r, f)
  }

  function Post(t: Topology, r: Name, c: Conn, frame: Frame): multiset<Packet> {
    if IsEnd(t, c, r) then multiset{Packet(c, Other(t, c, r), frame)} else multiset{}
  }

  function AfterIssue(t: Topology, n: Net, r: Name, id: ReqId, from: Epk, target: Epk, payload: string): Net
    requires r in n.relays && r in t.keys
  {
    var (f, out) := Originate(n.relays[r], t.keys[r], id, from, target, payload, n.closed);
    if out.None? then n
    else n.(relays := n.relays[r := f],
            flight := n.flight + Post(t, r, out.value.0, out.value.1),
            trail := n.trail[id := [r]])
  }

  function AfterForward(t: Topology, n: Net, p: Packet, local: Local, now: int): Net
    requires p.frame.ForwardFrame? && p.to in n.relays && p.to in t.keys && IsEnd(t, p.conn, p.to)
  {
    var fwd := p.frame.fwd;
    var (f, (c, out)) :=
      HandleForward(n.relays[p.to], t.keys[p.to], LinkAt(t, p.conn, p.to), p.conn, fwd, local, n.closed, now);
    var m := n.(relays := n.relays[p.to := f], flight := n.flight - multiset{p} + Post(t, p.to, c, out));
    match out
    case ForwardFrame(_) => m.(trail := n.trail[fwd.id := ListAt(n.trail, fwd.id) + [p.to]])
    case AckFrame(_, status) => m.(verdict := n.verdict[fwd.id := Verdict(p.to, status)])
  }

  function AfterAck(t: Topology, n: Net, p: Packet, now: int): Net
    requires p.frame.AckFrame? && p.to in n.relays
  {
    var (f, out, resolves) := HandleAck(n.relays[p.to], p.frame.id, p.frame.status, now);
    n.(relays := n.relays[p.to := f],
       flight := n.flight - multiset{p} + (if out.Some? then Post(t, p.to, out.value.0, out.value.1) else multiset{}),
       resolved := n.resolved + (if resolves then [Resolution(p.to, p.frame.id, p.frame.status)] else []))
  }

  function Next(t: Topology, n: Net, l: Label): Net {
    match l
    case Issue(r, id, from, target, payload) =>
      if r in n.relays && r in t.keys then AfterIssue(t, n, r, id, from, target, payload) else n
    case Deliver(p, local, now) =>
      if !(p.to in n.relays && p.to in t.keys && IsEnd(t, p.conn, p.to)) then n
      else if p.frame.ForwardFrame? then AfterForward(t, n, p, local, now)
      else AfterAck(t, n, p, now)
    case Lose(p) => n.(flight := n.flight - multiset{p})
    case LinkDown(c) => n.(closed := n.closed + {c})
    case Cancel(r, id) =>
      if r in n.relays then n.(relays := n.relays[r := n.relays[r].(pending := n.relays[r].pending - {id})]) else n
    case Reroute(r, f) => n.(relays := n.relays[r := f])
  }

  ghost predicate Legal(t: Topology, n: Net, run: seq<Label>)
    decreases |run|
  {
    run == [] || (Enabled(t, n, run[0]) && Legal(t, Next(t, n, run[0]), run[1..]))
  }

  function After(t: Topology, n: Net, run: seq<Label>): Net
    decreases |run|
  {
    if run == [] then n else After(t, Next(t, n, run[0]), run[1..])
  }

  // ── The invariant ─────────────────────────────────────────────────────────

  ghost predicate RelaysOk(t: Topology, n: Net) {
    n.relays.Keys == t.keys.Keys && forall r :: r in n.relays ==> OwnSenders(t, r, n.relays[r])
  }

  ghost predicate TrailsOk(t: Topology, n: Net) {
    && n.verdict.Keys <= n.trail.Keys
    && forall id :: id in n.trail ==> TrailOk(t, n.trail[id])
  }

  ghost predicate TrailOk(t: Topology, trail: seq<Name>) {
    trail != [] && NoDup(trail) && forall r :: r in trail ==> r in t.keys
  }

  /** `c` joins the `j`-th relay of the trail to the one before it. */
  ghost predicate JoinsPredecessor(t: Topology, trail: seq<Name>, j: nat, c: Conn) {
    1 <= j < |trail| && IsEnd(t, c, trail[j]) && Other(t, c, trail[j]) == trail[j - 1]
  }

  ghost predicate TokenOk(t: Topology, n: Net, p: Packet) {
    && IsEnd(t, p.conn, p.to)
    && IdOf(p) in n.trail && n.trail[IdOf(p)] != []
    && match p.frame
       case ForwardFrame(fwd) =>
         && fwd.id !in n.verdict
         && fwd.visited == n.trail[fwd.id]
         && Other(t, p.conn, p.to) == n.trail[fwd.id][|n.trail[fwd.id]| - 1]
       case AckFrame(id, status) =>
         id in n.verdict && status == n.verdict[id].status && p.to in n.trail[id]
  }

  ghost predicate FlightOk(t: Topology, n: Net) {
    && (forall p :: p in n.flight ==> TokenOk(t, n, p))
    && OneToken(n)
  }

  ghost predicate OneToken(n: Net) {
    && (forall p :: p in n.flight ==> n.flight[p] == 1)
    && (forall p, q :: p in n.flight && q in n.flight && IdOf(p) == IdOf(q) ==> p == q)
  }

  ghost predicate BacklinkOk(t: Topology, n: Net, r: Name, e: Backlink) {
    && e.id in n.trail
    && exists j :: 0 <= j < |n.trail[e.id]| && n.trail[e.id][j] == r && JoinsPredecessor(t, n.trail[e.id], j, e.conn)
  }

  ghost predicate BacklinksOk(t: Topology, n: Net) {
    forall r :: r in n.relays ==>
      DistinctIds(n.relays[r].backlinks) && forall e :: e in n.relays[r].backlinks ==> BacklinkOk(t, n, r, e)
  }

  ghost predicate PendingOk(n: Net) {
    forall r, id :: r in n.relays && id in n.relays[r].pending ==>
      id in n.trail && n.trail[id] != [] && r == n.trail[id][0]
  }

  ghost predicate ResolvedOk(n: Net) {
    && (forall k :: 0 <= k < |n.resolved| ==>
         var res := n.resolved[k];
         && res.id in n.verdict && res.status == n.verdict[res.id].status
         && res.id in n.trail && n.trail[res.id] != [] && res.relay == n.trail[res.id][0]
         && (forall p :: p in n.flight ==> IdOf(p) != res.id)
         && (forall r :: r in n.relays ==> res.id !in n.relays[r].pending))
    && (forall i, j :: 0 <= i < j < |n.resolved| ==> n.resolved[i].id != n.resolved[j].id)
  }

  ghost predicate Inv(t: Topology, n: Net) {
    RelaysOk(t, n) && TrailsOk(t, n) && FlightOk(t, n) && BacklinksOk(t, n) && PendingOk(n) && ResolvedOk(n)
  }

  // ── What one relay does ───────────────────────────────────────────────────

  ghost predicate OwnChannel(f: Fed, c: Conn) {
    exists link :: link in f.senders && c in f.senders[link]
  }

  lemma {:induction false} FirstSenderIsOpen(f: Fed, links: seq<Name>, exclude: Option<Name>, closed: set<Conn>)
    ensures var c := FirstSender(f.senders, links, exclude, closed);
            c.Some? ==> c.value !in closed && OwnChannel(f, c.value)
  {
    if links != [] {
      FirstOpenIsOpen(ListAt(f.senders, links[0]), closed);
      FirstSenderIsOpen(f, links[1..], exclude, closed);
    }
  }

  lemma {:induction false} FirstOpenIsOpen(conns: seq<Conn>, closed: set<Conn>)
    ensures var c := FirstOpen(conns, closed); c.Some? ==> c.value !in closed && c.value in conns
  {
    if conns != [] {
      FirstOpenIsOpen(conns[1..], closed);
    }
  }

  lemma {:induction false} PickRouteIsOpen(f: Fed, candidates: seq<Name>, skip: set<Name>, exclude: Option<Name>,
                                           closed: set<Conn>)
    ensures var route := PickRoute(f, candidates, skip, exclude, closed);
            route.Some? ==> route.value.1 !in closed && OwnChannel(f, route.value.1)
  {
    if candidates != [] {
      FirstSenderIsOpen(f, [candidates[0]] + ListAt(f.via, candidates[0]), exclude, closed);
      PickRouteIsOpen(f, candidates[1..], skip, exclude, closed);
    }
  }

  /**
   A relay answers every forward with exactly one frame on one of its own connections: the
   forward itself, grown by the relay's name and with a backlink recorded, only when it has not
   handled it before; otherwise an ack straight back to the sender.
   */
  lemma HandleForwardFacts(t: Topology, r: Name, f: Fed, keys: Keys, link: Name, conn: Conn, fwd: Forward,
                           local: Local, closed: set<Conn>, now: int)
    requires OwnSenders(t, r, f) && IsEnd(t, conn, r)
    ensures var (g, (c, out)) := HandleForward(f, keys, link, conn, fwd, local, closed, now);
            && OwnSenders(t, r, g) && g.pending == f.pending && IsEnd(t, c, r)
            && (out.ForwardFrame? ==>
                  && r !in fwd.visited && c !in closed
                  && out.fwd.id == fwd.id && out.fwd.visited == fwd.visited + [r]
                  && out.fwd.from == fwd.from && out.fwd.target == fwd.target && out.fwd.payload == fwd.payload
                  && g.backlinks == RecordBacklink(f.backlinks, fwd.id, now, conn))
            && (out.AckFrame? ==> c == conn && out.id == fwd.id && g.backlinks == f.backlinks)
  {
    var g := LearnRoute(f, fwd.from, link);
    PickRouteIsOpen(g, ListAt(g.routes, fwd.target), {link} + (set n | n in fwd.visited), Some(link), closed);
  }

  // ── What a step may change ────────────────────────────────────────────────

  /** Histories only grow: trails at their end, verdicts by new ids. */
  ghost predicate Extends(n: Net, m: Net) {
    && (forall id :: id in n.trail ==> id in m.trail && n.trail[id] <= m.trail[id])
    && (forall id :: id in n.verdict ==> id in m.verdict && m.verdict[id] == n.verdict[id])
  }

  /** Nothing recorded about any forward but `id` changes. */
  ghost predicate SameElsewhere(n: Net, m: Net, id: ReqId) {
    && (forall x :: x != id ==> (x in m.trail <==> x in n.trail) && (x in m.verdict <==> x in n.verdict))
    && (forall x :: x != id && x in n.trail ==> m.trail[x] == n.trail[x])
    && (forall x :: x != id && x in n.verdict ==> m.verdict[x] == n.verdict[x])
  }

  /** The token of `id` is replaced: at most one frame for `id` afterwards, all others as before. */
  lemma FlightKept(t: Topology, n: Net, m: Net, gone: multiset<Packet>, out: multiset<Packet>, id: ReqId)
    requires FlightOk(t, n) && SameElsewhere(n, m, id)
    requires gone <= n.flight && m.flight == n.flight - gone + out
    requires forall p :: p in n.flight && IdOf(p) == id ==> p in gone
    requires |out| <= 1 && forall p :: p in out ==> IdOf(p) == id && TokenOk(t, m, p)
    ensures FlightOk(t, m)
  {
    SwapKeepsOne(n.flight, gone, out, m.flight, id);
    forall p | p in m.flight ensures TokenOk(t, m, p) {
      if p !in out {
        TokenStays(t, n, m, p, id);
      }
    }
  }

  lemma TokenStays(t: Topology, n: Net, m: Net, p: Packet, id: ReqId)
    requires TokenOk(t, n, p) && IdOf(p) != id && SameElsewhere(n, m, id)
    ensures TokenOk(t, m, p)
  {
  }

  /** Of a bag with one frame for each forward, the frame of `id` is swapped for at most one other. */
  lemma SwapKeepsOne(before: multiset<Packet>, gone: multiset<Packet>, out: multiset<Packet>,
                     after: multiset<Packet>, id: ReqId)
    requires forall p :: p in before ==> before[p] == 1
    requires forall p, q :: p in before && q in before && IdOf(p) == IdOf(q) ==> p == q
    requires gone <= before && after == before - gone + out && |out| <= 1
    requires forall p :: p in before && IdOf(p) == id ==> p in gone
    requires forall p :: p in out ==> IdOf(p) == id
    ensures forall p :: p in after ==> p in out || (p in before && IdOf(p) != id)
    ensures forall p :: p in after ==> after[p] == 1
    ensures forall p, q :: p in after && q in after && IdOf(p) == IdOf(q) ==> p == q
  {
    OnlyOne(out);
    forall p | p in after ensures (p in out || (p in before && IdOf(p) != id)) && after[p] == 1 {
      assert after[p] == before[p] - gone[p] + out[p];
      assert p in before && IdOf(p) == id ==> p in gone && gone[p] >= 1;
    }
  }

  lemma OnlyOne(out: multiset<Packet>)
    requires |out| <= 1
    ensures forall p, q :: p in out && q in out ==> p == q
    ensures forall p :: p in out ==> out[p] == 1
  {
    forall p, q | p in out && q in out ensures p == q && out[p] == 1 {
      var rest := out - multiset{p};
      assert |rest| == 0;
      assert out == rest + multiset{p};
    }
  }

  /** One relay's queue changes: old entries stay justified, new ones must be. */
  lemma BacklinksKept(t: Topology, n: Net, m: Net, r: Name, g: Fed)
    requires BacklinksOk(t, n) && Extends(n, m) && r in n.relays && m.relays == n.relays[r := g]
    requires DistinctIds(g.backlinks)
    requires forall e :: e in g.backlinks ==> e in n.relays[r].backlinks || BacklinkOk(t, m, r, e)
    ensures BacklinksOk(t, m)
  {
    forall s | s in m.relays
      ensures DistinctIds(m.relays[s].backlinks)
      ensures forall e :: e in m.relays[s].backlinks ==> BacklinkOk(t, m, s, e)
    {
      forall e | e in m.relays[s].backlinks ensures BacklinkOk(t, m, s, e) {
        if e in n.relays[s].backlinks {
          BacklinkStays(t, n, m, s, e);
        }
      }
    }
  }

  lemma BacklinkStays(t: Topology, n: Net, m: Net, r: Name, e: Backlink)
    requires BacklinkOk(t, n, r, e) && Extends(n, m)
    ensures BacklinkOk(t, m, r, e)
  {
    var before, after := n.trail[e.id], m.trail[e.id];
    var j :| 0 <= j < |before| && before[j] == r && JoinsPredecessor(t, before, j, e.conn);
    assert after[j] == before[j] && after[j - 1] == before[j - 1];
    assert JoinsPredecessor(t, after, j, e.conn);
  }

  /** One relay's pending set changes: every entry kept or added is its own issue. */
  lemma PendingKept(n: Net, m: Net, r: Name, g: Fed)
    requires PendingOk(n) && Extends(n, m) && r in n.relays && m.relays == n.relays[r := g]
    requires forall id :: id in g.pending ==>
      id in n.relays[r].pending || (id in m.trail && m.trail[id] != [] && m.trail[id][0] == r)
    ensures PendingOk(m)
  {
    forall s, id | s in m.relays && id in m.relays[s].pending
      ensures id in m.trail && m.trail[id] != [] && s == m.trail[id][0]
    {
      if id in n.relays[s].pending {
        assert n.trail[id] <= m.trail[id];
      }
    }
  }

  /** Nothing is resolved by this step, and no new frame or pending entry has a resolved id. */
  lemma ResolvedKept(n: Net, m: Net, r: Name, g: Fed, id: ReqId)
    requires ResolvedOk(n) && Extends(n, m) && m.resolved == n.resolved && r in n.relays && m.relays == n.relays[r := g]
    requires forall x :: x in g.pending ==> x in n.relays[r].pending || x == id
    requires forall p :: p in m.flight ==> p in n.flight || IdOf(p) == id
    requires (exists p :: p in n.flight && IdOf(p) == id) || id !in n.trail
    ensures ResolvedOk(m)
  {
    forall k | 0 <= k < |m.resolved|
      ensures var res := m.resolved[k];
         && res.id in m.verdict && res.status == m.verdict[res.id].status
         && res.id in m.trail && m.trail[res.id] != [] && res.relay == m.trail[res.id][0]
         && (forall p :: p in m.flight ==> IdOf(p) != res.id)
         && (forall s :: s in m.relays ==> res.id !in m.relays[s].pending)
    {
      var res := n.resolved[k];
      assert res.id != id;
      assert n.trail[res.id] <= m.trail[res.id];
    }
  }

  // ── Every step keeps the invariant ────────────────────────────────────────

  function Bag(p: Option<Packet>): multiset<Packet> {
    if p.Some? then multiset{p.value} else multiset{}
  }

  /** The step of relay `r` on forward `id`, seen from outside: one relay, at most one frame each way. */
  ghost predicate OneRelayStep(t: Topology, n: Net, m: Net, r: Name, g: Fed, gone: Option<Packet>,
                               out: Option<Packet>, id: ReqId)
  {
    && r in n.relays && m.relays == n.relays[r := g] && OwnSenders(t, r, g)
    && m.flight == n.flight - Bag(gone) + Bag(out)
    && (if gone.Some? then gone.value in n.flight && IdOf(gone.value) == id else id !in n.trail)
    && (out.Some? ==> IdOf(out.value) == id && TokenOk(t, m, out.value))
    && Extends(n, m) && SameElsewhere(n, m, id)
  }

  ghost predicate QueueStep(t: Topology, n: Net, m: Net, r: Name, g: Fed) {
    && r in n.relays && DistinctIds(g.backlinks)
    && forall e :: e in g.backlinks ==> e in n.relays[r].backlinks || BacklinkOk(t, m, r, e)
  }

  ghost predicate PendingStep(n: Net, m: Net, r: Name, g: Fed, id: ReqId) {
    && r in n.relays
    && forall x :: x in g.pending ==>
      x in n.relays[r].pending || (x == id && id in m.trail && m.trail[id] != [] && m.trail[id][0] == r)
  }

  /** Issuing, hopping, turning and relaying an ack all keep the invariant for the same reasons. */
  lemma OneRelayStepKeepsInv(t: Topology, n: Net, m: Net, r: Name, g: Fed, gone: Option<Packet>, out: Option<Packet>,
                             id: ReqId)
    requires Inv(t, n) && OneRelayStep(t, n, m, r, g, gone, out, id) && TrailsOk(t, m)
    requires QueueStep(t, n, m, r, g) && PendingStep(n, m, r, g, id)
    requires m.resolved == n.resolved || ResolvedOk(m)
    ensures Inv(t, m)
  {
    StepKeepsFlight(t, n, m, r, g, gone, out, id);
    StepKeepsTables(t, n, m, r, g, id);
    if m.resolved == n.resolved {
      StepKeepsResolved(t, n, m, r, g, gone, out, id);
    }
  }

  lemma StepKeepsTables(t: Topology, n: Net, m: Net, r: Name, g: Fed, id: ReqId)
    requires RelaysOk(t, n) && BacklinksOk(t, n) && PendingOk(n) && Extends(n, m)
    requires r in n.relays && m.relays == n.relays[r := g] && OwnSenders(t, r, g)
    requires QueueStep(t, n, m, r, g) && PendingStep(n, m, r, g, id)
    ensures RelaysOk(t, m) && BacklinksOk(t, m) && PendingOk(m)
  {
    BacklinksKept(t, n, m, r, g);
    PendingKept(n, m, r, g);
  }

  lemma StepKeepsFlight(t: Topology, n: Net, m: Net, r: Name, g: Fed, gone: Option<Packet>, out: Option<Packet>,
                        id: ReqId)
    requires FlightOk(t, n) && OneRelayStep(t, n, m, r, g, gone, out, id)
    ensures FlightOk(t, m)
  {
    forall p | p in n.flight && IdOf(p) == id ensures p in Bag(gone) {
      assert TokenOk(t, n, p);
    }
    FlightKept(t, n, m, Bag(gone), Bag(out), id);
  }

  lemma StepKeepsResolved(t: Topology, n: Net, m: Net, r: Name, g: Fed, gone: Option<Packet>, out: Option<Packet>,
                          id: ReqId)
    requires ResolvedOk(n) && OneRelayStep(t, n, m, r, g, gone, out, id) && PendingStep(n, m, r, g, id)
    requires m.resolved == n.resolved
    ensures ResolvedOk(m)
  {
    assert gone.Some? ==> gone.value in n.flight && IdOf(gone.value) == id;
    forall p | p in m.flight ensures p in n.flight || IdOf(p) == id {
      assert p in n.flight || p in Bag(out);
    }
    ResolvedKept(n, m, r, g, id);
  }

  lemma IssueKeepsInv(t: Topology, n: Net, l: Label)
    requires WellFormed(t) && Inv(t, n) && Enabled(t, n, l) && l.Issue?
    ensures Inv(t, Next(t, n, l))
  {
    var Issue(r, id, from, target, payload) := l;
    var f, m := n.relays[r], Next(t, n, l);
    PickRouteIsOpen(f, ListAt(f.routes, target), {}, None, n.closed);
    var (g, out) := Originate(f, t.keys[r], id, from, target, payload, n.closed);
    if out.Some? {
      var p := Packet(out.value.0, Other(t, out.value.0, r), out.value.1);
      IssueShape(t, n, m, r, g, p, id);
      OneRelayStepKeepsInv(t, n, m, r, g, None, Some(p), id);
    }
  }

  lemma IssueShape(t: Topology, n: Net, m: Net, r: Name, g: Fed, p: Packet, id: ReqId)
    requires RelaysOk(t, n) && TrailsOk(t, n) && BacklinksOk(t, n) && r in n.relays && id !in n.trail
    requires IsEnd(t, p.conn, p.to) && Other(t, p.conn, p.to) == r
    requires p.frame.ForwardFrame? && p.frame.fwd.id == id && p.frame.fwd.visited == [r]
    requires g == n.relays[r].(pending := n.relays[r].pending + {id})
    requires m == n.(relays := n.relays[r := g], flight := n.flight + multiset{p}, trail := n.trail[id := [r]])
    ensures OneRelayStep(t, n, m, r, g, None, Some(p), id) && TrailsOk(t, m)
    ensures QueueStep(t, n, m, r, g) && PendingStep(n, m, r, g, id)
  {
    assert id !in n.verdict;
    TrailStarts(t, n, m, id, r);
    assert TokenOk(t, m, p);
    assert DistinctIds(n.relays[r].backlinks);
  }

  lemma TrailStarts(t: Topology, n: Net, m: Net, id: ReqId, r: Name)
    requires TrailsOk(t, n) && id !in n.trail && r in t.keys
    requires m.trail == n.trail[id := [r]] && m.verdict == n.verdict
    ensures TrailsOk(t, m) && Extends(n, m) && SameElsewhere(n, m, id)
  {
    assert TrailOk(t, [r]);
  }

  /** A forward taken over by a relay not yet on its trail. */
  lemma HopKeepsInv(t: Topology, n: Net, m: Net, p: Packet, q: Packet, g: Fed, now: int)
    requires Inv(t, n) && p in n.flight && TokenOk(t, n, p) && Hops(t, n, m, p, q, g, now)
    ensures Inv(t, m)
  {
    TrailGrows(t, n, m, IdOf(p), p.to);
    HopQueue(t, n, m, p, g, now);
    OneRelayStepKeepsInv(t, n, m, p.to, g, Some(p), Some(q), IdOf(p));
  }

  lemma TrailGrows(t: Topology, n: Net, m: Net, id: ReqId, me: Name)
    requires TrailsOk(t, n) && id in n.trail && me !in n.trail[id] && me in t.keys
    requires m.trail == n.trail[id := n.trail[id] + [me]] && m.verdict == n.verdict
    ensures TrailsOk(t, m) && Extends(n, m) && SameElsewhere(n, m, id)
  {
    assert TrailOk(t, n.trail[id]);
    assert TrailOk(t, n.trail[id] + [me]);
  }

  /** A relay new to the trail has no entry for the forward, so the one it records is its only one. */
  lemma HopQueue(t: Topology, n: Net, m: Net, p: Packet, g: Fed, now: int)
    requires BacklinksOk(t, n) && TokenOk(t, n, p) && p.frame.ForwardFrame? && p.to !in n.trail[IdOf(p)]
    requires m.trail == n.trail[IdOf(p) := n.trail[IdOf(p)] + [p.to]]
    requires p.to in n.relays && g.backlinks == RecordBacklink(n.relays[p.to].backlinks, IdOf(p), now, p.conn)
    ensures !Has(n.relays[p.to].backlinks, IdOf(p)) && QueueStep(t, n, m, p.to, g)
  {
    var me, id := p.to, IdOf(p);
    forall e | e in n.relays[me].backlinks ensures e.id != id {
      assert BacklinkOk(t, n, me, e);
    }
    RecordFacts(n.relays[me].backlinks, id, now, p.conn);
    var trail := m.trail[id];
    assert JoinsPredecessor(t, trail, |trail| - 1, p.conn);
    assert BacklinkOk(t, m, me, Backlink(id, now, p.conn));
  }

  /** A forward answered: its relay judges it once, and the ack starts back. */
  lemma TurnKeepsInv(t: Topology, n: Net, m: Net, p: Packet, q: Packet, g: Fed)
    requires WellFormed(t) && Inv(t, n) && p in n.flight && TokenOk(t, n, p) && Turns(t, n, m, p, q, g)
    ensures Inv(t, m)
  {
    TurnShape(t, n, m, p, q, g);
    OneRelayStepKeepsInv(t, n, m, p.to, g, Some(p), Some(q), IdOf(p));
  }

  lemma TurnShape(t: Topology, n: Net, m: Net, p: Packet, q: Packet, g: Fed)
    requires WellFormed(t) && TrailsOk(t, n) && BacklinksOk(t, n)
    requires p in n.flight && TokenOk(t, n, p) && Turns(t, n, m, p, q, g)
    ensures OneRelayStep(t, n, m, p.to, g, Some(p), Some(q), IdOf(p)) && TrailsOk(t, m)
    ensures QueueStep(t, n, m, p.to, g) && PendingStep(n, m, p.to, g, IdOf(p))
    ensures m.resolved == n.resolved
  {
    VerdictGrows(t, n, m, IdOf(p), Verdict(p.to, q.frame.status));
    TurnedToken(t, n, m, p, q, g);
    assert DistinctIds(n.relays[p.to].backlinks);
  }

  lemma VerdictGrows(t: Topology, n: Net, m: Net, id: ReqId, v: Verdict)
    requires TrailsOk(t, n) && id in n.trail && id !in n.verdict
    requires m.trail == n.trail && m.verdict == n.verdict[id := v]
    ensures TrailsOk(t, m) && Extends(n, m) && SameElsewhere(n, m, id)
  {
  }

  lemma TurnedToken(t: Topology, n: Net, m: Net, p: Packet, q: Packet, g: Fed)
    requires WellFormed(t) && TokenOk(t, n, p) && Turns(t, n, m, p, q, g)
    ensures TokenOk(t, m, q)
  {
  }

  /** A forward handed over: `q` is the same forward at the next door, and `g` can send its ack back. */
  ghost predicate Hops(t: Topology, n: Net, m: Net, p: Packet, q: Packet, g: Fed, now: int) {
    && p.to in n.relays && p.frame.ForwardFrame? && p.to !in p.frame.fwd.visited
    && OwnSenders(t, p.to, g) && g.pending == n.relays[p.to].pending
    && g.backlinks == RecordBacklink(n.relays[p.to].backlinks, IdOf(p), now, p.conn)
    && IsEnd(t, q.conn, q.to) && Other(t, q.conn, q.to) == p.to
    && q.frame.ForwardFrame? && IdOf(q) == IdOf(p) && q.frame.fwd.visited == p.frame.fwd.visited + [p.to]
    && q.frame.fwd.from == p.frame.fwd.from && q.frame.fwd.target == p.frame.fwd.target
    && q.frame.fwd.payload == p.frame.fwd.payload && IdOf(p) in n.trail
    && m == n.(relays := n.relays[p.to := g], flight := n.flight - multiset{p} + multiset{q},
               trail := n.trail[IdOf(p) := n.trail[IdOf(p)] + [p.to]])
  }

  /** A forward answered: `q` is the ack, on the connection the forward came by. */
  ghost predicate Turns(t: Topology, n: Net, m: Net, p: Packet, q: Packet, g: Fed) {
    && p.to in n.relays && p.frame.ForwardFrame? && IsEnd(t, p.conn, p.to)
    && OwnSenders(t, p.to, g) && g.pending == n.relays[p.to].pending && g.backlinks == n.relays[p.to].backlinks
    && q.conn == p.conn && q.to == Other(t, p.conn, p.to) && q.frame.AckFrame? && IdOf(q) == IdOf(p)
    && m == n.(relays := n.relays[p.to := g], flight := n.flight - multiset{p} + multiset{q},
               verdict := n.verdict[IdOf(p) := Verdict(p.to, q.frame.status)])
  }

  lemma ForwardShape(t: Topology, n: Net, p: Packet, local: Local, now: int) returns (g: Fed, q: Packet)
    requires WellFormed(t) && RelaysOk(t, n) && p in n.flight && p.frame.ForwardFrame? && TokenOk(t, n, p)
    ensures q.frame.ForwardFrame? ==> Hops(t, n, AfterForward(t, n, p, local, now), p, q, g, now)
    ensures q.frame.AckFrame? ==> Turns(t, n, AfterForward(t, n, p, local, now), p, q, g)
  {
    var f, link := n.relays[p.to], LinkAt(t, p.conn, p.to);
    HandleForwardFacts(t, p.to, f, t.keys[p.to], link, p.conn, p.frame.fwd, local, n.closed, now);
    var (h, (c, out)) := HandleForward(f, t.keys[p.to], link, p.conn, p.frame.fwd, local, n.closed, now);
    g, q := h, Packet(c, Other(t, c, p.to), out);
    assert Post(t, p.to, c, out) == multiset{q};
    assert p.frame.fwd.visited == n.trail[IdOf(p)] && ListAt(n.trail, IdOf(p)) == n.trail[IdOf(p)];
  }

  lemma ForwardKeepsInv(t: Topology, n: Net, p: Packet, local: Local, now: int)
    requires WellFormed(t) && Inv(t, n) && p in n.flight && p.frame.ForwardFrame? && TokenOk(t, n, p)
    ensures Inv(t, AfterForward(t, n, p, local, now))
  {
    var g, q := ForwardShape(t, n, p, local, now);
    if q.frame.ForwardFrame? {
      HopKeepsInv(t, n, AfterForward(t, n, p, local, now), p, q, g, now);
    } else {
      TurnKeepsInv(t, n, AfterForward(t, n, p, local, now), p, q, g);
    }
  }

  /** An ack handled: sent on along its backlink, or found to answer a pending forward, or dropped. */
  ghost predicate Passes(t: Topology, n: Net, m: Net, p: Packet, g: Fed, out: Option<Packet>) {
    && p.to in n.relays && p.frame.AckFrame? && OwnSenders(t, p.to, g)
    && (if out.Some? then
          && m.resolved == n.resolved && g.pending == n.relays[p.to].pending
          && out.value.frame == p.frame
          && IsEnd(t, out.value.conn, p.to) && out.value.to == Other(t, out.value.conn, p.to)
        else
          && g.pending == n.relays[p.to].pending - {IdOf(p)}
          && m.resolved == n.resolved
               + (if IdOf(p) in n.relays[p.to].pending then [Resolution(p.to, IdOf(p), p.frame.status)] else []))
    && m == n.(relays := n.relays[p.to := g], flight := n.flight - multiset{p} + Bag(out), resolved := m.resolved)
  }

  lemma AckShape(t: Topology, n: Net, p: Packet, now: int) returns (g: Fed, out: Option<Packet>)
    requires WellFormed(t) && RelaysOk(t, n) && BacklinksOk(t, n)
    requires p in n.flight && p.frame.AckFrame? && TokenOk(t, n, p)
    ensures Passes(t, n, AfterAck(t, n, p, now), p, g, out)
    ensures g.backlinks == TakeBacklink(n.relays[p.to].backlinks, IdOf(p), now).1
    ensures var back := TakeBacklink(n.relays[p.to].backlinks, IdOf(p), now).0;
            out == if back.Some? && IsEnd(t, back.value, p.to)
                   then Some(Packet(back.value, Other(t, back.value, p.to), p.frame)) else None
    ensures out.Some? ==> exists e :: e in n.relays[p.to].backlinks && e.id == IdOf(p) && e.conn == out.value.conn
    ensures out.None? ==> forall e :: e in n.relays[p.to].backlinks && e.id == IdOf(p) ==> !Live(e, now)
  {
    var f := n.relays[p.to];
    TakeFacts(f.backlinks, p.frame.id, now);
    var (h, reply, resolves) := HandleAck(f, p.frame.id, p.frame.status, now);
    g, out := h, None;
    if reply.Some? {
      var e :| e in f.backlinks && e.id == p.frame.id && e.conn == reply.value.0;
      assert BacklinkOk(t, n, p.to, e);
      out := Some(Packet(e.conn, Other(t, e.conn, p.to), reply.value.1));
    }
  }

  lemma AckKeepsInv(t: Topology, n: Net, p: Packet, now: int)
    requires WellFormed(t) && Inv(t, n) && p in n.flight && p.frame.AckFrame? && TokenOk(t, n, p)
    ensures Inv(t, AfterAck(t, n, p, now))
  {
    var g, out := AckShape(t, n, p, now);
    var m := AfterAck(t, n, p, now);
    TakeFacts(n.relays[p.to].backlinks, p.frame.id, now);
    if out.Some? {
      var e :| e in n.relays[p.to].backlinks && e.id == IdOf(p) && e.conn == out.value.conn;
      BackIsOk(t, n, m, p, out.value, e);
    } else if IdOf(p) in n.relays[p.to].pending {
      Resolves(t, n, m, p, g);
    }
    AckStepKeepsInv(t, n, m, p, g, out);
  }

  lemma BackIsOk(t: Topology, n: Net, m: Net, p: Packet, q: Packet, e: Backlink)
    requires WellFormed(t) && BacklinksOk(t, n) && p.to in n.relays && e in n.relays[p.to].backlinks && e.id == IdOf(p)
    requires TokenOk(t, n, p) && p.frame.AckFrame? && m.trail == n.trail && m.verdict == n.verdict
    requires q.frame == p.frame && q.conn == e.conn && IsEnd(t, e.conn, p.to) && q.to == Other(t, e.conn, p.to)
    ensures TokenOk(t, m, q)
  {
    assert BacklinkOk(t, n, p.to, e);
  }

  lemma AckStepKeepsInv(t: Topology, n: Net, m: Net, p: Packet, g: Fed, out: Option<Packet>)
    requires Inv(t, n) && p in n.flight && p.frame.AckFrame? && TokenOk(t, n, p)
    requires m.relays == n.relays[p.to := g] && m.flight == n.flight - multiset{p} + Bag(out)
    requires m.trail == n.trail && m.verdict == n.verdict
    requires m.resolved == n.resolved || ResolvedOk(m)
    requires p.to in n.relays && OwnSenders(t, p.to, g) && g.pending <= n.relays[p.to].pending
    requires DistinctIds(g.backlinks) && forall e :: e in g.backlinks ==> e in n.relays[p.to].backlinks
    requires out.Some? ==> out.value.frame == p.frame && TokenOk(t, m, out.value)
    ensures Inv(t, m)
  {
    OneRelayStepKeepsInv(t, n, m, p.to, g, Some(p), out, IdOf(p));
  }

  /** An ack that finds its id pending is at the issuer, and is the first to resolve it. */
  lemma Resolves(t: Topology, n: Net, m: Net, p: Packet, g: Fed)
    requires ResolvedOk(n) && OneToken(n) && PendingOk(n) && p in n.flight && p.frame.AckFrame? && TokenOk(t, n, p)
    requires p.to in n.relays && p.frame.id in n.relays[p.to].pending
    requires m == n.(relays := n.relays[p.to := g], flight := n.flight - multiset{p},
                     resolved := n.resolved + [Resolution(p.to, p.frame.id, p.frame.status)])
    requires g.pending == n.relays[p.to].pending - {p.frame.id}
    ensures ResolvedOk(m)
  {
    var id := p.frame.id;
    assert p.to == n.trail[id][0];
    forall q | q in m.flight ensures q in n.flight && IdOf(q) != id {
      assert IdOf(q) == id && q in n.flight ==> q == p && n.flight[p] == 1;
    }
    forall r | r in m.relays ensures id !in m.relays[r].pending {
      assert r in n.relays && id in n.relays[r].pending ==> r == n.trail[id][0];
    }
  }

  lemma StepKeepsInv(t: Topology, n: Net, l: Label)
    requires WellFormed(t) && Inv(t, n) && Enabled(t, n, l)
    ensures Inv(t, Next(t, n, l))
  {
    match l
    case Issue(_, _, _, _, _) => IssueKeepsInv(t, n, l);
    case Deliver(p, local, now) =>
      assert TokenOk(t, n, p);
      if p.frame.ForwardFrame? {
        ForwardKeepsInv(t, n, p, local, now);
      } else {
        AckKeepsInv(t, n, p, now);
      }
    case Lose(p) =>
      LoseKeepsInv(t, n, p);
    case LinkDown(c) =>
      ClosingKeepsInv(t, n, c);
    case Cancel(r, id) =>
      QuietKeepsInv(t, n, Next(t, n, l), r, n.relays[r].(pending := n.relays[r].pending - {id}));
    case Reroute(r, g) =>
      QuietKeepsInv(t, n, Next(t, n, l), r, g);
  }

  lemma ClosingKeepsInv(t: Topology, n: Net, c: Conn)
    requires Inv(t, n)
    ensures Inv(t, n.(closed := n.closed + {c}))
  {
    SameTables(t, n, n.(closed := n.closed + {c}));
  }

  lemma LoseKeepsInv(t: Topology, n: Net, p: Packet)
    requires Inv(t, n) && p in n.flight
    ensures Inv(t, n.(flight := n.flight - multiset{p}))
  {
    LoseKeepsFlight(t, n, p);
    LoseKeepsResolved(n, p);
  }

  lemma LoseKeepsFlight(t: Topology, n: Net, p: Packet)
    requires FlightOk(t, n) && p in n.flight
    ensures FlightOk(t, n.(flight := n.flight - multiset{p}))
  {
    assert TokenOk(t, n, p);
    FlightKept(t, n, n.(flight := n.flight - multiset{p}), multiset{p}, multiset{}, IdOf(p));
  }

  lemma LoseKeepsResolved(n: Net, p: Packet)
    requires ResolvedOk(n)
    ensures ResolvedOk(n.(flight := n.flight - multiset{p}))
  {
  }

  /** No frame, trail, verdict or resolution changes: the flight stays good. */
  lemma SameTables(t: Topology, n: Net, m: Net)
    requires FlightOk(t, n) && m.flight == n.flight && m.trail == n.trail && m.verdict == n.verdict
    ensures FlightOk(t, m)
  {
    forall p | p in m.flight ensures TokenOk(t, m, p) {
      assert TokenOk(t, n, p);
    }
  }

  lemma QuietKeepsInv(t: Topology, n: Net, m: Net, r: Name, g: Fed)
    requires Inv(t, n) && r in n.relays && m == n.(relays := n.relays[r := g])
    requires OwnSenders(t, r, g) && g.backlinks == n.relays[r].backlinks && g.pending <= n.relays[r].pending
    ensures Inv(t, m)
  {
    SameTables(t, n, m);
    BacklinksKept(t, n, m, r, g);
    PendingKept(n, m, r, g);
    QuietKeepsResolved(n, m, r, g);
  }

  lemma QuietKeepsResolved(n: Net, m: Net, r: Name, g: Fed)
    requires ResolvedOk(n) && r in n.relays && m == n.(relays := n.relays[r := g]) && g.pending <= n.relays[r].pending
    ensures ResolvedOk(m)
  {
    forall k, s | 0 <= k < |m.resolved| && s in m.relays ensures m.resolved[k].id !in m.relays[s].pending {
      assert n.resolved[k].id !in n.relays[s].pending;
    }
  }
}
