/** The advertisement exchange: what one relay sends down a link, and what the other end then holds. */
module Advertisement {
  import opened Base
  import opened PeeringModel
  import opened RouteDatabase
  import opened OwnerSets

  const FED_PROTO := 2

  datatype Seg = Seg(origin: Name, rooms: map<Epk, seq<Room>>, claims: seq<Claim>)

  function RoomsOf(f: Fed, origin: Name): map<Epk, seq<Room>> {
    map e | e in (set k | k in f.sessions && k.0 == origin :: k.1) :: f.sessions[(origin, e)]
  }

  /** The machines whose owner sets belong to `origin` and did not arrive on `link`. */
  function MachinesOf(f: Fed, origin: Name, link: Name): set<Epk> {
    set m | m in f.pairings && f.pairings[m].origin == origin && f.pairings[m].source != link
  }

  predicate Shared(f: Fed, link: Name, peer: Name, origin: Name) {
    && origin != f.own && origin != link && origin != peer
    && link !in ListAt(f.via, origin)
    && (RoomsOf(f, origin) != map[] || MachinesOf(f, origin, link) != {})
  }

  /** The claims of exactly these machines, one each, in any order. */
  ghost predicate ClaimsOf(f: Fed, machines: set<Epk>, claims: seq<Claim>) {
    && (forall i, j :: 0 <= i < j < |claims| ==> claims[i].machine != claims[j].machine)
    && (forall c :: c in claims ==> c.machine in f.pairings && c == ClaimOf(c.machine, f.pairings[c.machine]))
    && (set c | c in claims :: c.machine) == machines
  }

  /** What a relay may say about one origin. */
  ghost predicate IsTransit(f: Fed, link: Name, peer: Name, s: Seg) {
    && Shared(f, link, peer, s.origin)
    && s.rooms == RoomsOf(f, s.origin)
    && ClaimsOf(f, MachinesOf(f, s.origin, link), s.claims)
  }

  /** One segment for every shareable origin in `scope` and for no other, in any order. */
  ghost predicate TransitSegs(f: Fed, link: Name, peer: Name, scope: set<Name>, segs: seq<Seg>) {
    && (forall i, j :: 0 <= i < j < |segs| ==> segs[i].origin != segs[j].origin)
    && (forall s :: s in segs ==> s.origin in scope && IsTransit(f, link, peer, s))
    && (forall o :: o in scope && Shared(f, link, peer, o) ==> exists s :: s in segs && s.origin == o)
  }

  ghost predicate Covers(f: Fed, link: Name, peer: Name, scope: set<Name>) {
    forall o :: Shared(f, link, peer, o) ==> o in scope
  }

  /** An advertisement: this relay's own segment first, then one per origin it may share. */
  ghost predicate IsAdvertisement(f: Fed, localRooms: map<Epk, seq<Room>>, localClaims: seq<Claim>, link: Name,
                                  peer: Name, segs: seq<Seg>)
  {
    && segs != [] && segs[0] == Seg(f.own, localRooms, localClaims)
    && exists scope :: TransitSegs(f, link, peer, scope, segs[1..]) && Covers(f, link, peer, scope)
  }

  lemma AdvertisementFacts(f: Fed, localRooms: map<Epk, seq<Room>>, localClaims: seq<Claim>, link: Name, peer: Name,
                           segs: seq<Seg>)
    requires IsAdvertisement(f, localRooms, localClaims, link, peer, segs)
    ensures forall i, j :: 0 <= i < j < |segs| ==> segs[i].origin != segs[j].origin
    ensures forall i :: 1 <= i < |segs| ==> IsTransit(f, link, peer, segs[i])
    ensures forall o :: Shared(f, link, peer, o) ==> exists i :: 1 <= i < |segs| && segs[i].origin == o
  {
    var scope :| TransitSegs(f, link, peer, scope, segs[1..]) && Covers(f, link, peer, scope);
    forall i | 1 <= i < |segs| ensures segs[1..][i - 1] == segs[i] && IsTransit(f, link, peer, segs[i]) {
      assert segs[1..][i - 1] in segs[1..];
    }
    forall o | Shared(f, link, peer, o) ensures exists i :: 1 <= i < |segs| && segs[i].origin == o {
      var s :| s in segs[1..] && s.origin == o;
      var i :| 0 <= i < |segs[1..]| && segs[1..][i] == s;
      assert segs[i + 1].origin == o;
    }
  }

  /**
   Past its own segment a relay tells a peer of exactly the origins that are neither of the two nor the link,
   were not learnt over the link, and have a machine here or an owner set that came by another link.
   */
  lemma WhoIsAdvertised(f: Fed, localRooms: map<Epk, seq<Room>>, localClaims: seq<Claim>, link: Name, peer: Name,
                        segs: seq<Seg>, o: Name)
    requires IsAdvertisement(f, localRooms, localClaims, link, peer, segs)
    ensures (exists i :: 1 <= i < |segs| && segs[i].origin == o)
       <==> (&& o != f.own && o != link && o != peer
             && (o in f.via ==> link !in f.via[o])
             && ((exists e :: (o, e) in f.sessions)
                 || (exists m :: m in f.pairings && f.pairings[m].origin == o && f.pairings[m].source != link)))
    ensures segs[0].origin == f.own && segs[0].rooms == localRooms && segs[0].claims == localClaims
  {
    AdvertisementFacts(f, localRooms, localClaims, link, peer, segs);
    HasDataIff(f, o, link);
    if Shared(f, link, peer, o) {
      var j :| 1 <= j < |segs| && segs[j].origin == o;
    }
    if i :| 1 <= i < |segs| && segs[i].origin == o {
      assert IsTransit(f, link, peer, segs[i]);
    }
  }

  lemma HasDataIff(f: Fed, o: Name, link: Name)
    ensures RoomsOf(f, o) != map[] <==> exists e :: (o, e) in f.sessions
    ensures MachinesOf(f, o, link) != {}
       <==> exists m :: m in f.pairings && f.pairings[m].origin == o && f.pairings[m].source != link
  {
    if e :| (o, e) in f.sessions {
      assert e in RoomsOf(f, o);
    }
    if RoomsOf(f, o) != map[] {
      var e :| e in RoomsOf(f, o).Keys;
      assert (o, e) in f.sessions;
    }
    if m :| m in f.pairings && f.pairings[m].origin == o && f.pairings[m].source != link {
      assert m in MachinesOf(f, o, link);
    }
  }

  /** Each owner set of such an origin that came by another link is told once, as it was stored, and no other. */
  lemma WhichSetsAreTold(f: Fed, localRooms: map<Epk, seq<Room>>, localClaims: seq<Claim>, link: Name, peer: Name,
                         segs: seq<Seg>, i: nat, m: Epk)
    requires IsAdvertisement(f, localRooms, localClaims, link, peer, segs) && 1 <= i < |segs|
    ensures (exists c :: c in segs[i].claims && c.machine == m)
       <==> m in f.pairings && f.pairings[m].origin == segs[i].origin && f.pairings[m].source != link
    ensures forall c :: c in segs[i].claims && c.machine == m ==>
              c.version == f.pairings[m].version && c.envelope == f.pairings[m].envelope
  {
    AdvertisementFacts(f, localRooms, localClaims, link, peer, segs);
    assert IsTransit(f, link, peer, segs[i]);
    var machines := set c | c in segs[i].claims :: c.machine;
    assert machines == MachinesOf(f, segs[i].origin, link);
    if c :| c in segs[i].claims && c.machine == m {
      assert c.machine in machines;
    }
    if m in f.pairings && f.pairings[m].origin == segs[i].origin && f.pairings[m].source != link {
      assert m in machines;
    }
  }

  /** On the wire: every segment with a last-one marker, or only the first for an older peer. */
  function Sent(segs: seq<Seg>, proto: nat): seq<(Seg, Option<bool>)> {
    if proto >= FED_PROTO then seq(|segs|, i requires 0 <= i < |segs| => (segs[i], Some(i + 1 == |segs|)))
    else if segs == [] then []
    else [(segs[0], None)]
  }

  /**
   What reaches the receiver while it waits for the advertisement: a segment with its marker, or anything
   else that changes its tables, be it a frame interleaved on this link or an event of another link.
   */
  datatype Arriving = Listed(seg: Seg, done: Option<bool>) | Other(op: Op)

  /** Segments are learnt until the marked last one, or a single one from an older peer; the rest as it comes. */
  function Receive(g: Fed, verify: Verifier, link: Name, frames: seq<Arriving>, proto: nat): Fed
    decreases |frames|
  {
    if frames == [] then g
    else
      match frames[0]
      case Other(op) => Receive(Apply(g, verify, op), verify, link, frames[1..], proto)
      case Listed(s, done) =>
        var h := LearnSegment(g, verify, link, s.origin, s.rooms, s.claims);
        if done == Some(true) || proto < FED_PROTO then h else Receive(h, verify, link, frames[1..], proto)
  }

  /** The advertisement in what arrives, in order. */
  function Listing(frames: seq<Arriving>): seq<(Seg, Option<bool>)> {
    if frames == [] then []
    else (if frames[0].Listed? then [(frames[0].seg, frames[0].done)] else []) + Listing(frames[1..])
  }

  function SegOp(link: Name, s: Seg): Op {
    Segment(link, s.origin, s.rooms, s.claims)
  }

  /** The operations of an exchange: all that arrives up to the last of these segments, in order. */
  ghost predicate Weaves(ops: seq<Op>, link: Name, segs: seq<Seg>, frames: seq<Arriving>)
    decreases |frames|
  {
    if segs == [] then ops == []
    else
      && frames != [] && ops != []
      && match frames[0]
         case Other(op) => ops[0] == op && Weaves(ops[1..], link, segs, frames[1..])
         case Listed(s, _) => s == segs[0] && ops[0] == SegOp(link, s) && Weaves(ops[1..], link, segs[1..], frames[1..])
  }

  lemma SentTail(segs: seq<Seg>)
    requires |segs| > 1
    ensures Sent(segs, FED_PROTO)[1..] == Sent(segs[1..], FED_PROTO)
  {
  }

  /**
   However other frames and events interleave, a current peer learns every segment sent, in order, and an
   older one exactly the sender's own.
   */
  lemma {:induction false} ReceiverLearnsAll(g: Fed, verify: Verifier, link: Name, segs: seq<Seg>,
                                             frames: seq<Arriving>, proto: nat)
    returns (ops: seq<Op>)
    requires segs != [] && Listing(frames) == Sent(segs, proto)
    ensures Receive(g, verify, link, frames, proto) == Replay(g, verify, ops)
    ensures Weaves(ops, link, if proto >= 2 then segs else segs[..1], frames)
    decreases |frames|
  {
    if frames[0].Other? {
      var op := frames[0].op;
      assert Listing(frames) == Listing(frames[1..]);
      var rest := ReceiverLearnsAll(Apply(g, verify, op), verify, link, segs, frames[1..], proto);
      ops := [op] + rest;
    } else {
      assert Listing(frames)[0] == (frames[0].seg, frames[0].done) && Listing(frames)[1..] == Listing(frames[1..]);
      assert frames[0].seg == segs[0];
      var h := Apply(g, verify, SegOp(link, segs[0]));
      if proto >= FED_PROTO && |segs| > 1 {
        assert Sent(segs, proto) == Sent(segs, FED_PROTO);
        SentTail(segs);
        var rest := ReceiverLearnsAll(h, verify, link, segs[1..], frames[1..], proto);
        ops := [SegOp(link, segs[0])] + rest;
      } else {
        ops := [SegOp(link, segs[0])];
        assert segs[..1][1..] == [] && ops[1..] == [] && (|segs| == 1 ==> segs[1..] == []);
        assert Replay(h, verify, []) == h;
      }
    }
  }

  /** Each operation of an exchange is one of the segments or one of the others, and no segment is missing. */
  lemma {:induction false} WovenFrom(ops: seq<Op>, link: Name, segs: seq<Seg>, frames: seq<Arriving>)
    requires Weaves(ops, link, segs, frames)
    ensures forall op :: op in ops ==> Other(op) in frames || exists i :: 0 <= i < |segs| && op == SegOp(link, segs[i])
    ensures forall i :: 0 <= i < |segs| ==> SegOp(link, segs[i]) in ops
    decreases |frames|
  {
    if segs != [] {
      if frames[0].Other? {
        WovenFrom(ops[1..], link, segs, frames[1..]);
      } else {
        WovenFrom(ops[1..], link, segs[1..], frames[1..]);
        forall op | op in ops ensures Other(op) in frames || exists i :: 0 <= i < |segs| && op == SegOp(link, segs[i]) {
          if op != ops[0] && Other(op) !in frames {
            var i :| 0 <= i < |segs[1..]| && op == SegOp(link, segs[1..][i]);
            assert op == SegOp(link, segs[i + 1]);
          }
        }
        forall i | 0 <= i < |segs| ensures SegOp(link, segs[i]) in ops {
          assert i > 0 ==> segs[1..][i - 1] == segs[i];
        }
      }
    }
  }

  /** The sessions stored for `origin` are exactly these rooms. */
  ghost predicate Holds(f: Fed, origin: Name, rooms: map<Epk, seq<Room>>) {
    forall e :: ((origin, e) in f.sessions <==> e in rooms) && (e in rooms ==> f.sessions[(origin, e)] == rooms[e])
  }

  ghost predicate SameSessions(f: Fed, g: Fed, origin: Name) {
    forall e :: ((origin, e) in f.sessions <==> (origin, e) in g.sessions)
                && ((origin, e) in f.sessions ==> f.sessions[(origin, e)] == g.sessions[(origin, e)])
  }

  lemma RoomsOfHolds(f: Fed, origin: Name)
    ensures Holds(f, origin, RoomsOf(f, origin))
  {
  }

  /** May change the sessions stored for `o`. */
  predicate Concerns(op: Op, o: Name) {
    match op
    case Segment(_, origin, _, _) => origin == o
    case RoomAdded(_, origin, _, _) => origin == o
    case RoomRemoved(_, origin, _, _) => origin == o
    case LinkDied(_) => true
    case _ => false
  }

  lemma OthersLeaveSessions(g: Fed, verify: Verifier, op: Op, o: Name)
    requires !Concerns(op, o) || (op.Segment? && op.origin == g.own)
    ensures SameSessions(Apply(g, verify, op), g, o)
  {
    match op
    case Segment(link, origin, rooms, claims) =>
      if origin != g.own {
        SegmentSets(g, verify, link, Seg(origin, rooms, claims), o);
      }
    case RoomAdded(link, origin, epk, room) =>
      LearnViaFacts(g, origin, link);
    case _ =>
  }

  lemma SegmentSets(g: Fed, verify: Verifier, link: Name, s: Seg, o: Name)
    requires s.origin != g.own
    ensures var h := LearnSegment(g, verify, link, s.origin, s.rooms, s.claims);
            && (s.origin == o ==> Holds(h, o, s.rooms))
            && (s.origin != o ==> SameSessions(h, g, o))
  {
    SegmentSessions(LearnVia(g, s.origin, link), s.origin, s.rooms);
  }

  lemma {:induction false} UnconcernedSessions(g: Fed, verify: Verifier, ops: seq<Op>, o: Name)
    requires forall op :: op in ops ==> !Concerns(op, o) || (op.Segment? && op.origin == g.own)
    ensures SameSessions(Replay(g, verify, ops), g, o)
    decreases |ops|
  {
    if ops != [] {
      OthersLeaveSessions(g, verify, ops[0], o);
      OpsOnlyReroute(g, verify, ops[0]);
      UnconcernedSessions(Apply(g, verify, ops[0]), verify, ops[1..], o);
    }
  }

  /** The one operation that concerns an origin decides its sessions: exactly the rooms of that segment. */
  lemma {:induction false} LearnedSessions(g: Fed, verify: Verifier, link: Name, ops: seq<Op>, s: Seg)
    requires s.origin != g.own && SegOp(link, s) in ops
    requires forall op :: op in ops && Concerns(op, s.origin) ==> op == SegOp(link, s)
    ensures Holds(Replay(g, verify, ops), s.origin, s.rooms)
    decreases |ops|
  {
    var h := Apply(g, verify, ops[0]);
    OpsOnlyReroute(g, verify, ops[0]);
    if SegOp(link, s) in ops[1..] {
      LearnedSessions(h, verify, link, ops[1..], s);
    } else {
      SegmentSets(g, verify, link, s, s.origin);
      UnconcernedSessions(h, verify, ops[1..], s.origin);
    }
  }

  /** Nothing that arrives beside the advertisement may change the sessions stored for `o`. */
  ghost predicate Undisturbed(frames: seq<Arriving>, o: Name) {
    forall op :: Other(op) in frames ==> !Concerns(op, o)
  }

  /**
   The exchange is a round trip: after `g` learns what `f` sent it, it holds for every origin in the
   advertisement exactly what `f` held, and every other origin is untouched; so for each origin that no
   frame in between concerns.
   */
  lemma ExchangeIsARoundTrip(f: Fed, g: Fed, verify: Verifier, localRooms: map<Epk, seq<Room>>, localClaims: seq<Claim>,
                             sendLink: Name, arriveLink: Name, peer: Name, segs: seq<Seg>,
                             frames: seq<Arriving>, o: Name)
    requires IsAdvertisement(f, localRooms, localClaims, sendLink, peer, segs) && g.own != f.own
    requires Listing(frames) == Sent(segs, FED_PROTO) && Undisturbed(frames, o)
    ensures var h := Receive(g, verify, arriveLink, frames, FED_PROTO);
            && (o == f.own ==> Holds(h, o, localRooms))
            && (Shared(f, sendLink, peer, o) && o != g.own ==> SameSessions(h, f, o))
            && (o == g.own || (!Shared(f, sendLink, peer, o) && o != f.own) ==> SameSessions(h, g, o))
  {
    AdvertisementFacts(f, localRooms, localClaims, sendLink, peer, segs);
    var ops := ReceiverLearnsAll(g, verify, arriveLink, segs, frames, FED_PROTO);
    WovenFrom(ops, arriveLink, segs, frames);
    assert segs[0].origin == f.own;
    if o == g.own || (!Shared(f, sendLink, peer, o) && o != f.own) {
      forall op | op in ops && Concerns(op, o) ensures op.Segment? && op.origin == g.own {
        var i :| 0 <= i < |segs| && op == SegOp(arriveLink, segs[i]);
        assert segs[i].origin == o;
      }
      UnconcernedSessions(g, verify, ops, o);
    } else {
      var i :| 0 <= i < |segs| && segs[i].origin == o;
      forall op | op in ops && Concerns(op, o) ensures op == SegOp(arriveLink, segs[i]) {
        var j :| 0 <= j < |segs| && op == SegOp(arriveLink, segs[j]);
        assert segs[j].origin == o;
      }
      LearnedSessions(g, verify, arriveLink, ops, segs[i]);
      RoomsOfHolds(f, o);
    }
  }

  // ── Split horizon ─────────────────────────────────────────────────────────

  lemma ApplyKeepsViaLink(g: Fed, verify: Verifier, op: Op, o: Name, link: Name)
    requires op != LinkDied(link)
    ensures link in ListAt(g.via, o) ==> link in ListAt(Apply(g, verify, op).via, o)
    ensures op.Segment? && op.link == link && op.origin == o && link != "" && o != "" && o != g.own
            ==> link in ListAt(Apply(g, verify, op).via, o)
  {
    match op
    case LinkDied(dead) =>
      if link in ListAt(g.via, o) {
        assert link in Without(g.via[o], {dead});
      }
    case _ =>
  }

  ghost predicate Heard(ops: seq<Op>, link: Name, o: Name) {
    exists op :: op in ops && op.Segment? && op.link == link && op.origin == o
  }

  lemma {:induction false} LearnedVia(g: Fed, verify: Verifier, link: Name, ops: seq<Op>, o: Name)
    requires LinkDied(link) !in ops
    ensures var h := Replay(g, verify, ops);
            && h.own == g.own
            && (link in ListAt(g.via, o) ==> link in ListAt(h.via, o))
            && (Heard(ops, link, o) && link != "" && o != "" && o != g.own ==> link in ListAt(h.via, o))
    decreases |ops|
  {
    if ops != [] {
      ApplyKeepsViaLink(g, verify, ops[0], o, link);
      OpsOnlyReroute(g, verify, ops[0]);
      LearnedVia(Apply(g, verify, ops[0]), verify, link, ops[1..], o);
    }
  }

  /** Split horizon: while the link lives, nothing a relay has just learned over it is shareable back down it. */
  lemma NothingEchoes(g: Fed, verify: Verifier, link: Name, segs: seq<Seg>, frames: seq<Arriving>, peer: Name, i: nat)
    requires Listing(frames) == Sent(segs, FED_PROTO) && Other(LinkDied(link)) !in frames
    requires link != "" && i < |segs| && segs[i].origin != ""
    ensures !Shared(Receive(g, verify, link, frames, FED_PROTO), link, peer, segs[i].origin)
  {
    var ops := ReceiverLearnsAll(g, verify, link, segs, frames, FED_PROTO);
    WovenFrom(ops, link, segs, frames);
    LearnedVia(g, verify, link, ops, segs[i].origin);
    assert SegOp(link, segs[i]) in ops;
  }

  // ── Owner sets across the exchange ────────────────────────────────────────

  lemma {:induction false} BatchReaches(pairings: map<Epk, Pairing>, verify: Verifier, link: Name, origin: Name,
                                        cs: seq<Claim>)
    ensures var after := LearnPairings(pairings, verify, link, origin, cs);
            && (forall m :: m in pairings ==> m in after && pairings[m].version <= after[m].version)
            && (forall m :: m in pairings && after[m].version == pairings[m].version ==> after[m] == pairings[m])
            && (forall c :: c in cs && Accepted(verify, c).Some? ==>
                  c.machine in after && Accepted(verify, c).value.version <= after[c.machine].version)
    decreases |cs|
  {
    if cs != [] {
      BatchReaches(LearnPairing(pairings, verify, link, origin, cs[0]), verify, link, origin, cs[1..]);
    }
  }

  /** A claim that verifies is stored, unless something at least as new is. */
  ghost predicate Reached(after: map<Epk, Pairing>, verify: Verifier, c: Claim) {
    Accepted(verify, c).Some? ==> c.machine in after && Accepted(verify, c).value.version <= after[c.machine].version
  }

  ghost predicate NoOlder(before: map<Epk, Pairing>, after: map<Epk, Pairing>) {
    forall m :: m in before ==> m in after && before[m].version <= after[m].version
  }

  lemma ApplyReaches(g: Fed, verify: Verifier, op: Op)
    requires !op.LinkDied?
    ensures NoOlder(g.pairings, Apply(g, verify, op).pairings)
    ensures op.Segment? && op.origin != g.own ==>
              forall c :: c in op.claims ==> Reached(Apply(g, verify, op).pairings, verify, c)
  {
    match op
    case Segment(link, origin, rooms, claims) =>
      BatchReaches(g.pairings, verify, link, origin, claims);
      if origin != g.own {
        SegmentPairings(g, verify, link, origin, rooms, claims);
      }
    case PairingPushed(link, origin, claim) => BatchReaches(g.pairings, verify, link, origin, [claim]);
    case LocalPairing(claim) => BatchReaches(g.pairings, verify, g.own, g.own, [claim]);
    case _ =>
  }

  lemma {:induction false} ReplayReaches(g: Fed, verify: Verifier, ops: seq<Op>, s: Op, c: Claim)
    requires forall op :: op in ops ==> !op.LinkDied?
    ensures var after := Replay(g, verify, ops).pairings;
            && NoOlder(g.pairings, after)
            && (s in ops && s.Segment? && s.origin != g.own && c in s.claims ==> Reached(after, verify, c))
    decreases |ops|
  {
    if ops != [] {
      ApplyReaches(g, verify, ops[0]);
      OpsOnlyReroute(g, verify, ops[0]);
      ReplayReaches(Apply(g, verify, ops[0]), verify, ops[1..], s, c);
    }
  }

  /** A machine signs at most one owner set per version. */
  ghost predicate SignsOncePerVersion(verify: Verifier) {
    forall d, e | verify(d).Some? && verify(e).Some? ::
      verify(d).value.machine == verify(e).value.machine && verify(d).value.version == verify(e).value.version
      ==> verify(d) == verify(e)
  }

  /**
   A shared owner set survives transit: its envelope is re-sent verbatim, so the receiver accepts it as the
   machine's own and, if no link dies meanwhile, ends up at least as recent as the sender, with the same
   owners when the versions agree and the machine signs one set per version.
   */
  lemma TransitKeepsOwnerSets(f: Fed, g: Fed, verify: Verifier, localRooms: map<Epk, seq<Room>>,
                              localClaims: seq<Claim>, sendLink: Name, arriveLink: Name, peer: Name,
                              segs: seq<Seg>, frames: seq<Arriving>, m: Epk)
    requires IsAdvertisement(f, localRooms, localClaims, sendLink, peer, segs)
    requires Listing(frames) == Sent(segs, FED_PROTO) && forall op :: Other(op) in frames ==> !op.LinkDied?
    requires Authentic(verify, f.pairings) && Authentic(verify, g.pairings) && SignsOncePerVersion(verify)
    requires m in f.pairings && f.pairings[m].source != sendLink
    requires Shared(f, sendLink, peer, f.pairings[m].origin) && f.pairings[m].origin != g.own
    ensures var after := Receive(g, verify, arriveLink, frames, FED_PROTO).pairings;
            && m in after && f.pairings[m].version <= after[m].version
            && (after[m].version == f.pairings[m].version ==> after[m].owners == f.pairings[m].owners)
  {
    var i, c := ClaimIsSent(f, localRooms, localClaims, sendLink, peer, segs, m);
    var ops := ReceiverLearnsAll(g, verify, arriveLink, segs, frames, FED_PROTO);
    WovenFrom(ops, arriveLink, segs, frames);
    ReplayReaches(g, verify, ops, SegOp(arriveLink, segs[i]), c);
    ReplayKeepsAuthentic(g, verify, ops);
    var after := Replay(g, verify, ops).pairings;
    assert Reached(after, verify, c);
    ReachedClaimsAgree(verify, f.pairings[m], after, m);
  }

  lemma ReachedClaimsAgree(verify: Verifier, p: Pairing, after: map<Epk, Pairing>, m: Epk)
    requires Authentic(verify, after) && SignsOncePerVersion(verify)
    requires verify(p.envelope) == Some(PairingDoc(m, p.version, p.owners)) && Reached(after, verify, ClaimOf(m, p))
    ensures m in after && p.version <= after[m].version
    ensures after[m].version == p.version ==> after[m].owners == p.owners
  {
    assert Accepted(verify, ClaimOf(m, p)) == Some(PairingDoc(m, p.version, p.owners));
    assert verify(after[m].envelope) == Some(PairingDoc(m, after[m].version, after[m].owners));
  }

  lemma ClaimIsSent(f: Fed, localRooms: map<Epk, seq<Room>>, localClaims: seq<Claim>, link: Name, peer: Name,
                    segs: seq<Seg>, m: Epk)
    returns (i: nat, c: Claim)
    requires IsAdvertisement(f, localRooms, localClaims, link, peer, segs)
    requires m in f.pairings && f.pairings[m].source != link && Shared(f, link, peer, f.pairings[m].origin)
    ensures i < |segs| && segs[i].origin == f.pairings[m].origin
    ensures c in segs[i].claims && c == ClaimOf(m, f.pairings[m])
  {
    AdvertisementFacts(f, localRooms, localClaims, link, peer, segs);
    var o := f.pairings[m].origin;
    i :| 1 <= i < |segs| && segs[i].origin == o;
    assert m in MachinesOf(f, o, link);
    c :| c in segs[i].claims && c.machine == m;
  }

  lemma {:induction false} ReplayKeepsAuthentic(g: Fed, verify: Verifier, ops: seq<Op>)
    requires Authentic(verify, g.pairings)
    ensures Authentic(verify, Replay(g, verify, ops).pairings)
    decreases |ops|
  {
    if ops != [] {
      ApplyKeepsAuthentic(verify, g, ops[0]);
      ReplayKeepsAuthentic(Apply(g, verify, ops[0]), verify, ops[1..]);
    }
  }
}
