/**
 What a forward says and what its answer means: over every run it carries what its issuer was asked to
 send, validly signed, and it is answered "forwarded" exactly if some relay delivered it to a machine of
 its own.
 */
module ForwardContents {
  import opened Base
  import opened PeeringModel
  import opened RouteChoice
  import opened ForwardNetwork
  import opened ForwardDelivery

  // ── One relay ─────────────────────────────────────────────────────────────

  /** A signature made with these keys passes their own check. */
  ghost predicate Signs(keys: Keys) {
    forall m :: keys.check(keys.pubkey, m, keys.sign(m))
  }

  /** What is issued is what was asked for, signed, with the issuer as the one relay visited. */
  lemma IssuedIsAsked(f: Fed, keys: Keys, id: ReqId, from: Epk, target: Epk, payload: string, closed: set<Conn>)
    requires Signs(keys)
    ensures var out := Originate(f, keys, id, from, target, payload, closed).1;
            out.Some? ==>
              && out.value.1.ForwardFrame?
              && var fwd := out.value.1.fwd;
                 && fwd.id == id && fwd.from == from && fwd.target == target && fwd.payload == payload
                 && fwd.visited == [f.own] && SigValid(keys, fwd)
  {
  }

  /** A forward is for this relay to judge: new here and signed. */
  predicate Accepts(f: Fed, keys: Keys, fwd: Forward) {
    f.own !in fwd.visited && SigValid(keys, fwd)
  }

  /**
   A relay answers "forwarded" exactly for a new, signed forward it has delivered itself; it sends on
   exactly a new, signed one for a machine elsewhere with an open route; all others it refuses.
   */
  lemma AnswerMeans(f: Fed, keys: Keys, link: Name, conn: Conn, fwd: Forward, local: Local, closed: set<Conn>, now: int)
    ensures var out := HandleForward(f, keys, link, conn, fwd, local, closed, now).1.1;
            var g := LearnRoute(f, fwd.from, link);
            var skip := {link} + (set n | n in fwd.visited);
            var route := HasRoute(g, ListAt(g.routes, fwd.target), skip, Some(link), closed);
            && (out == AckFrame(fwd.id, Forwarded) <==> Accepts(f, keys, fwd) && local == Here(true))
            && (out.ForwardFrame? <==> Accepts(f, keys, fwd) && local == Elsewhere && route)
            && (out == AckFrame(fwd.id, UnknownPeer)
                <==> !Accepts(f, keys, fwd) || local == Here(false) || (local == Elsewhere && !route))
  {
    if Accepts(f, keys, fwd) && local.Elsewhere? {
      RefusedIffNoRoute(f, keys, link, conn, fwd, closed, now);
    }
  }

  /** If only signed messages pass the check, what was not signed just as it stands is refused and changes nothing. */
  lemma UnsignedIsRefused(f: Fed, keys: Keys, link: Name, conn: Conn, fwd: Forward, local: Local, closed: set<Conn>,
                          now: int, signed: set<SigMsg>)
    requires forall key, m, sig :: keys.check(key, m, sig) ==> m in signed
    requires SigMsg(fwd.id, fwd.from, fwd.target, fwd.visited) !in signed
    ensures HandleForward(f, keys, link, conn, fwd, local, closed, now) == (f, (conn, AckFrame(fwd.id, UnknownPeer)))
  {
  }

  predicate IsRoute(f: Fed, epk: Epk, name: Name) {
    epk in f.routes && name in f.routes[epk]
  }

  /** A forward teaches its sender's way back, behind the routes known before; a refused one teaches nothing. */
  lemma ForwardsTeachTheWayBack(f: Fed, keys: Keys, link: Name, conn: Conn, fwd: Forward, local: Local,
                                closed: set<Conn>, now: int)
    ensures var g := HandleForward(f, keys, link, conn, fwd, local, closed, now).0;
            && (forall e, n :: IsRoute(g, e, n)
                  <==> IsRoute(f, e, n) || (Accepts(f, keys, fwd) && e == fwd.from && n == link))
            && (forall e :: e in f.routes ==> e in g.routes && f.routes[e] <= g.routes[e])
            && (!Accepts(f, keys, fwd) ==> g == f)
  {
    HandledTables(f, keys, link, conn, fwd, local, closed, now);
    LearntRoute(f, fwd.from, link);
  }

  lemma HandledTables(f: Fed, keys: Keys, link: Name, conn: Conn, fwd: Forward, local: Local, closed: set<Conn>,
                      now: int)
    ensures var g := HandleForward(f, keys, link, conn, fwd, local, closed, now).0;
            && (Accepts(f, keys, fwd) ==> g.routes == LearnRoute(f, fwd.from, link).routes && g.via == f.via
                                          && g.senders == f.senders && g.own == f.own)
            && (!Accepts(f, keys, fwd) ==> g == f)
  {
  }

  lemma LearntRoute(f: Fed, epk: Epk, link: Name)
    ensures forall e, n :: IsRoute(LearnRoute(f, epk, link), e, n) <==> IsRoute(f, e, n) || (e == epk && n == link)
    ensures forall e :: e in f.routes ==> e in LearnRoute(f, epk, link).routes
                                          && f.routes[e] <= LearnRoute(f, epk, link).routes[e]
  {
  }

  /** So a relay that has taken a forward in over an open link can send its sender an answer of its own. */
  lemma SenderCanBeAnswered(f: Fed, keys: Keys, link: Name, conn: Conn, fwd: Forward, local: Local, closed: set<Conn>,
                            now: int, id: ReqId, payload: string)
    requires Accepts(f, keys, fwd) && OpenLink(f, link, None, closed)
    ensures var g := HandleForward(f, keys, link, conn, fwd, local, closed, now).0;
            Originate(g, keys, id, fwd.target, fwd.from, payload, closed).1.Some?
  {
    var g := HandleForward(f, keys, link, conn, fwd, local, closed, now).0;
    HandledTables(f, keys, link, conn, fwd, local, closed, now);
    LearntRoute(f, fwd.from, link);
    assert IsRoute(g, fwd.from, link);
    var c :| c in ListAt(f.senders, link) && c !in closed;
    assert Leads(g, link, link, None, closed, c);
    IssuedIffRoute(g, keys, id, fwd.target, fwd.from, payload, closed);
  }

  // ── Over runs ─────────────────────────────────────────────────────────────

  /** Every relay's check accepts what any relay signs. */
  ghost predicate KeysAgree(t: Topology) {
    forall a, b, m :: a in t.keys && b in t.keys ==> Passes(t.keys[a], t.keys[b], m)
  }

  ghost predicate Passes(signer: Keys, reader: Keys, m: SigMsg) {
    reader.check(signer.pubkey, m, signer.sign(m))
  }

  /** The issue that set each forward on its way. */
  function Asks(t: Topology, n: Net, run: seq<Label>, known: map<ReqId, Label>): map<ReqId, Label>
    decreases |run|
  {
    if run == [] then known else Asks(t, Next(t, n, run[0]), run[1..], NextAsks(t, n, run[0], known))
  }

  function NextAsks(t: Topology, n: Net, l: Label, known: map<ReqId, Label>): map<ReqId, Label> {
    if l.Issue? && l.id !in n.trail && l.id in Next(t, n, l).trail then known[l.id := l] else known
  }

  ghost predicate Says(l: Label, fwd: Forward) {
    && l.Issue? && l.id == fwd.id
    && l.from == fwd.from && l.target == fwd.target && l.payload == fwd.payload
  }

  ghost predicate Carries(t: Topology, asks: map<ReqId, Label>, p: Packet) {
    p.frame.ForwardFrame? ==>
      && p.frame.fwd.id in asks && Says(asks[p.frame.fwd.id], p.frame.fwd)
      && p.to in t.keys && SigValid(t.keys[p.to], p.frame.fwd)
  }

  /** Every forward in flight is the one its issuer was asked for, and its next relay accepts its signature. */
  ghost predicate Faithful(t: Topology, n: Net, asks: map<ReqId, Label>) {
    && asks.Keys == n.trail.Keys
    && (forall p :: p in n.flight ==> Carries(t, asks, p))
  }

  lemma StampPasses(t: Topology, signer: Name, reader: Name, fwd: Forward)
    requires KeysAgree(t) && signer in t.keys && reader in t.keys
    ensures SigValid(t.keys[reader], Stamp(signer, t.keys[signer], fwd))
  {
    assert Passes(t.keys[signer], t.keys[reader], Stamp(signer, t.keys[signer], fwd).Msg());
  }

  /** One frame more, which says what was asked: all of them do. */
  lemma OneMoreFrame(t: Topology, before: multiset<Packet>, after: multiset<Packet>, asks: map<ReqId, Label>,
                     more: map<ReqId, Label>, q: Packet)
    requires forall p :: p in before ==> Carries(t, asks, p)
    requires forall id :: id in asks ==> id in more && more[id] == asks[id]
    requires forall p :: p in after ==> p in before || p == q
    requires Carries(t, more, q)
    ensures forall p :: p in after ==> Carries(t, more, p)
  {
    forall p | p in after ensures Carries(t, more, p) {
      if p != q {
        assert Carries(t, asks, p);
      }
    }
  }

  lemma IssueIsFaithful(t: Topology, n: Net, l: Label, asks: map<ReqId, Label>)
    requires WellFormed(t) && KeysAgree(t) && RelaysOk(t, n) && Faithful(t, n, asks) && Enabled(t, n, l) && l.Issue?
    ensures Faithful(t, Next(t, n, l), NextAsks(t, n, l, asks))
  {
    var r, m, more := l.relay, Next(t, n, l), NextAsks(t, n, l, asks);
    var out := Originate(n.relays[r], t.keys[r], l.id, l.from, l.target, l.payload, n.closed).1;
    if out.Some? {
      var c := out.value.0;
      PickRouteIsOpen(n.relays[r], ListAt(n.relays[r].routes, l.target), {}, None, n.closed);
      assert IsEnd(t, c, r);
      var q := Packet(c, Other(t, c, r), out.value.1);
      IssuedFrame(n.relays[r], t.keys[r], l.id, l.from, l.target, l.payload, n.closed);
      StampPasses(t, r, q.to, Forward(l.id, l.from, l.target, l.payload, [], None, None));
      assert more == asks[l.id := l];
      assert Carries(t, more, q);
      OneMoreFrame(t, n.flight, m.flight, asks, more, q);
    }
  }

  lemma IssuedFrame(f: Fed, keys: Keys, id: ReqId, from: Epk, target: Epk, payload: string, closed: set<Conn>)
    ensures var out := Originate(f, keys, id, from, target, payload, closed).1;
            out.Some? ==>
              out.value.1 == ForwardFrame(Stamp(f.own, keys, Forward(id, from, target, payload, [], None, None)))
  {
  }

  lemma HandledFrame(f: Fed, keys: Keys, link: Name, conn: Conn, fwd: Forward, local: Local, closed: set<Conn>,
                     now: int)
    ensures var out := HandleForward(f, keys, link, conn, fwd, local, closed, now).1.1;
            out.ForwardFrame? ==> out == ForwardFrame(Stamp(f.own, keys, fwd))
  {
  }

  lemma ForwardIsFaithful(t: Topology, n: Net, p: Packet, local: Local, now: int, asks: map<ReqId, Label>)
    requires WellFormed(t) && KeysAgree(t) && RelaysOk(t, n) && Faithful(t, n, asks)
    requires p in n.flight && p.frame.ForwardFrame? && TokenOk(t, n, p)
    ensures Faithful(t, AfterForward(t, n, p, local, now), asks)
  {
    var f, keys, link := n.relays[p.to], t.keys[p.to], LinkAt(t, p.conn, p.to);
    HandleForwardFacts(t, p.to, f, keys, link, p.conn, p.frame.fwd, local, n.closed, now);
    var out := HandleForward(f, keys, link, p.conn, p.frame.fwd, local, n.closed, now).1;
    var q := Packet(out.0, Other(t, out.0, p.to), out.1);
    ForwardTrails(t, n, p, local, now);
    HandledFrame(f, keys, link, p.conn, p.frame.fwd, local, n.closed, now);
    assert Carries(t, asks, p);
    HopCarries(t, asks, p, q, f.own);
    assert Post(t, p.to, out.0, out.1) == multiset{q};
    OneMoreFrame(t, n.flight, AfterForward(t, n, p, local, now).flight, asks, asks, q);
  }

  lemma HopCarries(t: Topology, asks: map<ReqId, Label>, p: Packet, q: Packet, r: Name)
    requires KeysAgree(t) && r in t.keys && q.to in t.keys && p.frame.ForwardFrame? && Carries(t, asks, p)
    requires q.frame.ForwardFrame? ==> q.frame == ForwardFrame(Stamp(r, t.keys[r], p.frame.fwd))
    ensures Carries(t, asks, q)
  {
    StampPasses(t, r, q.to, p.frame.fwd);
  }

  lemma AckIsFaithful(t: Topology, n: Net, p: Packet, now: int, asks: map<ReqId, Label>)
    requires Faithful(t, n, asks) && p.frame.AckFrame? && p.to in n.relays
    ensures Faithful(t, AfterAck(t, n, p, now), asks)
  {
    var m := AfterAck(t, n, p, now);
    forall q | q in m.flight ensures Carries(t, asks, q) {
      if q in n.flight {
        assert Carries(t, asks, q);
      }
    }
  }

  lemma OtherIsFaithful(t: Topology, n: Net, l: Label, asks: map<ReqId, Label>)
    requires Faithful(t, n, asks) && !l.Issue? && !l.Deliver?
    ensures Faithful(t, Next(t, n, l), asks)
  {
    var m := Next(t, n, l);
    forall q | q in m.flight ensures Carries(t, asks, q) {
      assert q in n.flight;
    }
  }

  lemma StepIsFaithful(t: Topology, n: Net, l: Label, asks: map<ReqId, Label>)
    requires WellFormed(t) && KeysAgree(t) && Inv(t, n) && Faithful(t, n, asks) && Enabled(t, n, l)
    ensures Faithful(t, Next(t, n, l), NextAsks(t, n, l, asks))
  {
    match l
    case Issue(_, _, _, _, _) =>
      IssueIsFaithful(t, n, l, asks);
    case Deliver(p, local, now) =>
      assert TokenOk(t, n, p);
      if p.frame.ForwardFrame? {
        ForwardIsFaithful(t, n, p, local, now, asks);
      } else {
        AckIsFaithful(t, n, p, now, asks);
      }
    case _ =>
      OtherIsFaithful(t, n, l, asks);
  }

  lemma {:induction false} RunIsFaithful(t: Topology, n: Net, run: seq<Label>, asks: map<ReqId, Label>)
    requires WellFormed(t) && KeysAgree(t) && Inv(t, n) && Faithful(t, n, asks) && Legal(t, n, run)
    ensures Faithful(t, After(t, n, run), Asks(t, n, run, asks))
    decreases |run|
  {
    if run != [] {
      StepIsFaithful(t, n, run[0], asks);
      StepKeepsInv(t, n, run[0]);
      RunIsFaithful(t, Next(t, n, run[0]), run[1..], NextAsks(t, n, run[0], asks));
    }
  }

  /**
   In every run from an idle network each forward in flight, at whatever hop, has the sender, target and
   payload of the issue that set it on its way, and its signature passes the check of the relay it is for.
   */
  lemma ForwardsSayWhatWasAsked(t: Topology, n: Net, run: seq<Label>, p: Packet)
    requires WellFormed(t) && KeysAgree(t) && Init(t, n) && Legal(t, n, run)
    requires p in After(t, n, run).flight && p.frame.ForwardFrame?
    ensures var asks := Asks(t, n, run, map[]);
            && IdOf(p) in asks && asks[IdOf(p)] in run && Says(asks[IdOf(p)], p.frame.fwd)
            && p.to in t.keys && SigValid(t.keys[p.to], p.frame.fwd)
  {
    InitIsGood(t, n);
    RunIsFaithful(t, n, run, map[]);
    AsksAreLabels(t, n, run, map[], IdOf(p));
    assert Carries(t, Asks(t, n, run, map[]), p);
  }

  lemma {:induction false} AsksAreLabels(t: Topology, n: Net, run: seq<Label>, known: map<ReqId, Label>, id: ReqId)
    requires id in Asks(t, n, run, known)
    ensures Asks(t, n, run, known)[id] in run || (id in known && Asks(t, n, run, known)[id] == known[id])
    decreases |run|
  {
    if run != [] {
      AsksAreLabels(t, Next(t, n, run[0]), run[1..], NextAsks(t, n, run[0], known), id);
    }
  }

  // ── What an answer means ──────────────────────────────────────────────────

  /** A relay not on the forward's path hands it to one of its own machines. */
  predicate DeliversHere(l: Label, id: ReqId) {
    && l.Deliver? && l.local == Here(true) && l.packet.frame.ForwardFrame?
    && l.packet.frame.fwd.id == id && l.packet.to !in l.packet.frame.fwd.visited
  }

  lemma ForwardJudged(t: Topology, n: Net, p: Packet, local: Local, now: int, asks: map<ReqId, Label>)
    requires WellFormed(t) && Inv(t, n) && Faithful(t, n, asks)
    requires p in n.flight && p.frame.ForwardFrame? && TokenOk(t, n, p)
    ensures var m := AfterForward(t, n, p, local, now);
            && (forall id :: id in m.verdict && id != IdOf(p) ==> id in n.verdict)
            && (forall id :: id in n.verdict ==> id in m.verdict && m.verdict[id] == n.verdict[id])
            && (IdOf(p) in m.verdict ==> m.verdict[IdOf(p)].judge == p.to)
            && (IdOf(p) in m.verdict && m.verdict[IdOf(p)].status == Forwarded
                <==> DeliversHere(Deliver(p, local, now), IdOf(p)))
  {
    assert Carries(t, asks, p);
    AnswerMeans(n.relays[p.to], t.keys[p.to], LinkAt(t, p.conn, p.to), p.conn, p.frame.fwd, local, n.closed, now);
    var g, q := ForwardShape(t, n, p, local, now);
  }

  lemma OthersJudgeNothing(t: Topology, n: Net, l: Label)
    requires l.Deliver? ==> l.packet.frame.AckFrame?
    ensures Next(t, n, l).verdict == n.verdict
  {
  }

  lemma StepJudges(t: Topology, n: Net, l: Label, asks: map<ReqId, Label>, id: ReqId)
    requires WellFormed(t) && Inv(t, n) && Faithful(t, n, asks) && Enabled(t, n, l)
    ensures var m := Next(t, n, l);
            && (id in n.verdict ==> id in m.verdict && m.verdict[id] == n.verdict[id] && !DeliversHere(l, id))
            && (id !in n.verdict ==>
                  (id in m.verdict && m.verdict[id].status == Forwarded <==> DeliversHere(l, id)))
            && (DeliversHere(l, id) ==> id in m.verdict && m.verdict[id].judge == l.packet.to)
  {
    if l.Deliver? && l.packet.frame.ForwardFrame? {
      assert TokenOk(t, n, l.packet);
      ForwardJudged(t, n, l.packet, l.local, l.now, asks);
    } else {
      OthersJudgeNothing(t, n, l);
    }
  }

  ghost predicate Judged(n: Net, id: ReqId, judge: Name) {
    id in n.verdict && n.verdict[id].status == Forwarded && n.verdict[id].judge == judge
  }

  lemma {:induction false} VerdictsAreDeliveries(t: Topology, n: Net, run: seq<Label>, asks: map<ReqId, Label>,
                                                 id: ReqId)
    requires WellFormed(t) && KeysAgree(t) && Inv(t, n) && Faithful(t, n, asks) && Legal(t, n, run)
    ensures id in n.verdict ==>
              && id in After(t, n, run).verdict && After(t, n, run).verdict[id] == n.verdict[id]
              && !exists l :: l in run && DeliversHere(l, id)
    ensures id !in n.verdict ==>
              (id in After(t, n, run).verdict && After(t, n, run).verdict[id].status == Forwarded
               <==> exists l :: l in run && DeliversHere(l, id))
    ensures forall l :: l in run && DeliversHere(l, id) ==> Judged(After(t, n, run), id, l.packet.to)
    decreases |run|
  {
    if run != [] {
      var m := Next(t, n, run[0]);
      StepIsFaithful(t, n, run[0], asks);
      StepKeepsInv(t, n, run[0]);
      StepJudges(t, n, run[0], asks, id);
      VerdictsAreDeliveries(t, m, run[1..], NextAsks(t, n, run[0], asks), id);
      assert forall l :: l in run <==> l == run[0] || l in run[1..];
    }
  }

  /**
   In every run from an idle network a request is answered "forwarded" exactly if some relay handed it to
   one of its own machines, which is then the relay that judged it, and no second one did.
   */
  lemma ForwardedIffDelivered(t: Topology, n: Net, run: seq<Label>, k: nat)
    requires WellFormed(t) && KeysAgree(t) && Init(t, n) && Legal(t, n, run)
    requires k < |After(t, n, run).resolved|
    ensures var m := After(t, n, run);
            var res := m.resolved[k];
            && (res.status == Forwarded <==> exists l :: l in run && DeliversHere(l, res.id))
            && res.id in m.verdict
            && (forall l :: l in run && DeliversHere(l, res.id) ==> l.packet.to == m.verdict[res.id].judge)
  {
    InitIsGood(t, n);
    RunKeepsInv(t, n, run);
    var res := After(t, n, run).resolved[k];
    VerdictsAreDeliveries(t, n, run, map[], res.id);
  }
}
