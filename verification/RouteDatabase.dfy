/**
 What the routing database keeps over any sequence of frames, local pushes and link deaths:
 the route index refines the session table, every session has a way back to its origin, and a
 dead link takes with it exactly what rode it.
 */
module RouteDatabase {
  import opened Base
  import opened PeeringModel

  datatype Op =
    | Segment(link: Name, origin: Name, rooms: map<Epk, seq<Room>>, claims: seq<Claim>)
    | RoomAdded(link: Name, origin: Name, epk: Epk, room: Room)
    | RoomRemoved(link: Name, origin: Name, epk: Epk, roomId: string)
    | PairingPushed(link: Name, origin: Name, claim: Claim)
    | RouteSeen(epk: Epk, link: Name)
    | LocalPairing(claim: Claim)
    | LinkDied(link: Name)

  /** Advertisements and updates naming this relay itself are ignored. */
  function LearnSegment(f: Fed, verify: Verifier, link: Name, origin: Name, rooms: map<Epk, seq<Room>>,
                        claims: seq<Claim>): Fed
  {
    if origin == f.own then f
    else
      var g := SetPeerRooms(LearnVia(f, origin, link), origin, rooms);
      g.(pairings := LearnPairings(g.pairings, verify, link, origin, claims))
  }

  function Apply(f: Fed, verify: Verifier, op: Op): Fed {
    match op
    case Segment(link, origin, rooms, claims) => LearnSegment(f, verify, link, origin, rooms, claims)
    case RoomAdded(link, origin, epk, room) =>
      if origin == f.own then f else AddRoom(LearnVia(f, origin, link), origin, epk, room)
    case RoomRemoved(_, origin, epk, roomId) =>
      if origin == f.own then f else RemoveRoom(f, origin, epk, roomId)
    case PairingPushed(link, origin, claim) =>
      if origin == f.own then f
      else LearnVia(f.(pairings := LearnPairings(f.pairings, verify, link, origin, [claim])), origin, link)
    case RouteSeen(epk, link) => LearnRoute(f, epk, link)
    case LocalPairing(claim) => f.(pairings := LearnPairings(f.pairings, verify, f.own, f.own, [claim]))
    case LinkDied(link) => ClearPeer(f, link)
  }

  function Run(own: Name, verify: Verifier, ops: seq<Op>): Fed {
    if ops == [] then Empty(own) else Apply(Run(own, verify, ops[..|ops| - 1]), verify, ops[|ops| - 1])
  }

  /** The same operations from any state, first to last. */
  function Replay(f: Fed, verify: Verifier, ops: seq<Op>): Fed
    decreases |ops|
  {
    if ops == [] then f else Replay(Apply(f, verify, ops[0]), verify, ops[1..])
  }

  /** A (machine, link) pair some verified forward taught as a route. */
  ghost predicate Seen(ops: seq<Op>, epk: Epk, link: Name) {
    RouteSeen(epk, link) in ops
  }

  // ── The route index refines the session table ─────────────────────────────

  ghost predicate Indexed(f: Fed) {
    forall k :: k in f.sessions ==> k.1 in f.routes && k.0 in f.routes[k.1]
  }

  ghost predicate TidyLists<K(!new)>(m: map<K, seq<Name>>) {
    forall k :: k in m ==> m[k] != [] && NoDup(m[k])
  }

  ghost predicate Explained(f: Fed, ops: seq<Op>) {
    forall e, n :: e in f.routes && n in f.routes[e] ==> (n, e) in f.sessions || Seen(ops, e, n)
  }

  lemma DropNamesTidy<K(!new)>(m: map<K, seq<Name>>, gone: set<Name>)
    requires TidyLists(m)
    ensures TidyLists(DropNames(m, gone))
    ensures forall k, x :: k in m && x in m[k] && x !in gone ==> k in DropNames(m, gone) && x in DropNames(m, gone)[k]
    ensures forall k, x :: k in DropNames(m, gone) && x in DropNames(m, gone)[k] ==> k in m && x in m[k] && x !in gone
  {
    forall k | k in DropNames(m, gone) ensures NoDup(DropNames(m, gone)[k]) {
      WithoutKeepsNoDup(m[k], gone);
    }
    forall k, x | k in m && x in m[k] && x !in gone ensures k in DropNames(m, gone) {
      assert x in Without(m[k], gone);
    }
  }

  lemma PushNewTidy(m: map<Name, seq<Name>>, k: Name, x: Name)
    requires TidyLists(m)
    ensures TidyLists(m[k := PushNew(ListAt(m, k), x)])
  {
  }

  lemma SegmentSessions(f: Fed, peer: Name, rooms: map<Epk, seq<Room>>)
    ensures var g := SetPeerRooms(f, peer, rooms);
            && (forall k :: k in g.sessions <==> if k.0 == peer then k.1 in rooms else k in f.sessions)
            && (forall k :: k in g.sessions ==> g.sessions[k] == if k.0 == peer then rooms[k.1] else f.sessions[k])
  {
  }

  lemma SegmentRoutes(f: Fed, peer: Name, rooms: map<Epk, seq<Room>>)
    requires TidyLists(f.routes)
    ensures var g := SetPeerRooms(f, peer, rooms);
            && TidyLists(g.routes)
            && (forall e, n :: (e in g.routes && n in g.routes[e])
                           <==> if n == peer then e in rooms else e in f.routes && n in f.routes[e])
  {
    DropNamesTidy(f.routes, {peer});
    RoutesWithTidy(DropNames(f.routes, {peer}), peer, rooms.Keys);
  }

  lemma RoutesWithTidy(kept: map<Epk, seq<Name>>, peer: Name, epks: set<Epk>)
    requires TidyLists(kept) && forall e :: e in kept ==> peer !in kept[e]
    ensures var m := RoutesWith(kept, peer, epks);
            && TidyLists(m)
            && (forall e, n :: (e in m && n in m[e]) <==> if n == peer then e in epks else e in kept && n in kept[e])
  {
    var m := RoutesWith(kept, peer, epks);
    forall e | e in m ensures m[e] != [] && NoDup(m[e]) {
      assert e in kept ==> peer !in kept[e];
    }
  }

  lemma SegmentKeepsIndex(f: Fed, peer: Name, rooms: map<Epk, seq<Room>>, ops: seq<Op>)
    requires IndexOk(f, ops)
    ensures IndexOk(SetPeerRooms(f, peer, rooms), ops)
  {
    SegmentSessions(f, peer, rooms);
    SegmentRoutes(f, peer, rooms);
  }

  lemma ClearKeepsIndex(f: Fed, link: Name, ops: seq<Op>)
    requires IndexOk(f, ops)
    ensures IndexOk(ClearPeer(f, link), ops)
  {
    DropNamesTidy(f.routes, {link} + PurgedOrigins(f.via, link));
    DropNamesTidy(f.via, {link});
  }

  lemma RemoveKeepsIndex(f: Fed, peer: Name, epk: Epk, roomId: string, ops: seq<Op>)
    requires IndexOk(f, ops)
    ensures IndexOk(RemoveRoom(f, peer, epk, roomId), ops)
  {
    if epk in f.routes {
      WithoutKeepsNoDup(f.routes[epk], {peer});
    }
  }

  lemma AddKeepsIndex(f: Fed, peer: Name, epk: Epk, room: Room, ops: seq<Op>)
    requires IndexOk(f, ops)
    ensures IndexOk(AddRoom(f, peer, epk, room), ops)
  {
    PushNewTidy(f.routes, epk, peer);
  }

  lemma ViaKeepsIndex(f: Fed, origin: Name, link: Name, ops: seq<Op>)
    requires IndexOk(f, ops)
    ensures IndexOk(LearnVia(f, origin, link), ops)
  {
    PushNewTidy(f.via, origin, link);
  }

  lemma RouteKeepsIndex(f: Fed, epk: Epk, link: Name, ops: seq<Op>)
    requires IndexOk(f, ops) && Seen(ops, epk, link)
    ensures IndexOk(LearnRoute(f, epk, link), ops)
  {
    PushNewTidy(f.routes, epk, link);
  }

  ghost predicate IndexOk(f: Fed, ops: seq<Op>) {
    Indexed(f) && TidyLists(f.routes) && TidyLists(f.via) && Explained(f, ops)
  }

  lemma ApplyKeepsIndex(f: Fed, verify: Verifier, ops: seq<Op>, op: Op)
    requires IndexOk(f, ops)
    ensures IndexOk(Apply(f, verify, op), ops + [op])
  {
    var all := ops + [op];
    assert IndexOk(f, all) by {
      assert forall e, n :: Seen(ops, e, n) ==> Seen(all, e, n);
    }
    match op
    case Segment(link, origin, rooms, claims) =>
      ViaKeepsIndex(f, origin, link, all);
      SegmentKeepsIndex(LearnVia(f, origin, link), origin, rooms, all);
    case RoomAdded(link, origin, epk, room) =>
      ViaKeepsIndex(f, origin, link, all);
      AddKeepsIndex(LearnVia(f, origin, link), origin, epk, room, all);
    case RoomRemoved(_, origin, epk, roomId) =>
      RemoveKeepsIndex(f, origin, epk, roomId, all);
    case PairingPushed(link, origin, claim) =>
      ViaKeepsIndex(f.(pairings := LearnPairings(f.pairings, verify, link, origin, [claim])), origin, link, all);
    case RouteSeen(epk, link) =>
      assert Seen(all, epk, link);
      RouteKeepsIndex(f, epk, link, all);
    case LocalPairing(_) =>
    case LinkDied(link) =>
      ClearKeepsIndex(f, link, all);
  }

  /** After any operations: hosted machines are routable, route lists are tidy, and every name is accounted for. */
  lemma {:induction false} RouteIndexRefinesSessions(own: Name, verify: Verifier, ops: seq<Op>)
    ensures var f := Run(own, verify, ops);
            && (forall o, e :: (o, e) in f.sessions ==> e in f.routes && o in f.routes[e])
            && (forall e :: e in f.routes ==> f.routes[e] != [] && NoDup(f.routes[e]))
            && (forall e, n :: e in f.routes && n in f.routes[e] ==> (n, e) in f.sessions || RouteSeen(e, n) in ops)
            && IndexOk(f, ops)
  {
    if ops != [] {
      var front := ops[..|ops| - 1];
      RouteIndexRefinesSessions(own, verify, front);
      ApplyKeepsIndex(Run(own, verify, front), verify, front, ops[|ops| - 1]);
      assert front + [ops[|ops| - 1]] == ops;
    }
  }

  // ── Via links and link death ──────────────────────────────────────────────

  /** This relay is never an origin or a via key, and no via list names an unnamed link. */
  ghost predicate ViaNamed(f: Fed) {
    && f.own !in f.via && "" !in f.via
    && (forall o :: o in f.via ==> "" !in f.via[o])
    && (forall k :: k in f.sessions ==> k.0 != f.own)
  }

  /** Every session of a named origin has a via link for it. */
  ghost predicate HasWayBack(f: Fed) {
    forall k :: k in f.sessions ==> k.0 in f.via || k.0 == ""
  }

  /** Stores a session of a named origin with no via link, over a link that has not named itself yet. */
  predicate Strays(f: Fed, op: Op) {
    match op
    case Segment(link, origin, rooms, _) => link == "" && origin !in {"", f.own} && origin !in f.via && rooms != map[]
    case RoomAdded(link, origin, _, _) => link == "" && origin !in {"", f.own} && origin !in f.via
    case _ => false
  }

  lemma LearnViaFacts(f: Fed, origin: Name, link: Name)
    ensures var g := LearnVia(f, origin, link);
            && g.own == f.own && g.sessions == f.sessions
            && (forall o :: o in g.via <==> o in f.via || (o == origin && origin != "" && link != ""))
            && (forall o :: o in g.via && "" in g.via[o] ==> o in f.via && "" in f.via[o])
  {
  }

  lemma AddRoomFacts(f: Fed, peer: Name, epk: Epk, room: Room)
    ensures var g := AddRoom(f, peer, epk, room);
            && g.own == f.own && g.via == f.via
            && (forall k :: k in g.sessions <==> k == (peer, epk) || k in f.sessions)
  {
  }

  lemma RemoveRoomFacts(f: Fed, peer: Name, epk: Epk, roomId: string)
    ensures var g := RemoveRoom(f, peer, epk, roomId);
            && g.own == f.own && g.via == f.via
            && (forall k :: k in g.sessions ==> k in f.sessions)
  {
  }

  /** `g` is `f` with a via link for `origin`, if both are named, and sessions of `origin` for `added`. */
  ghost predicate Gains(f: Fed, g: Fed, origin: Name, link: Name, added: set<Epk>) {
    && g.own == f.own
    && (forall o :: o in g.via <==> o in f.via || (o == origin && origin != "" && link != ""))
    && (forall o :: o in g.via && "" in g.via[o] ==> o in f.via && "" in f.via[o])
    && (forall k :: k in g.sessions ==> k.0 == origin || k in f.sessions)
    && (forall e :: e in added ==> (origin, e) in g.sessions)
    && (added == {} ==> forall k :: k in g.sessions ==> k in f.sessions)
  }

  lemma GainKeepsNamed(f: Fed, g: Fed, origin: Name, link: Name, added: set<Epk>)
    requires ViaNamed(f) && Gains(f, g, origin, link, added) && origin != f.own
    ensures ViaNamed(g)
  {
  }

  lemma GainKeepsWayBackIff(f: Fed, g: Fed, origin: Name, link: Name, added: set<Epk>)
    requires HasWayBack(f) && Gains(f, g, origin, link, added)
    ensures HasWayBack(g) <==> !(link == "" && origin != "" && origin !in f.via && added != {})
  {
    if added != {} {
      var e :| e in added;
      assert (origin, e) in g.sessions;
    }
  }

  lemma SegmentGains(f: Fed, verify: Verifier, link: Name, origin: Name, rooms: map<Epk, seq<Room>>, claims: seq<Claim>)
    requires origin != f.own
    ensures Gains(f, LearnSegment(f, verify, link, origin, rooms, claims), origin, link, rooms.Keys)
  {
    LearnViaFacts(f, origin, link);
    SegmentSessions(LearnVia(f, origin, link), origin, rooms);
  }

  lemma RoomGains(f: Fed, link: Name, origin: Name, epk: Epk, room: Room)
    ensures Gains(f, AddRoom(LearnVia(f, origin, link), origin, epk, room), origin, link, {epk})
  {
    LearnViaFacts(f, origin, link);
    AddRoomFacts(LearnVia(f, origin, link), origin, epk, room);
  }

  lemma PairingGains(f: Fed, verify: Verifier, link: Name, origin: Name, claim: Claim)
    requires origin != f.own
    ensures Gains(f, Apply(f, verify, PairingPushed(link, origin, claim)), origin, link, {})
  {
    LearnViaFacts(f.(pairings := LearnPairings(f.pairings, verify, link, origin, [claim])), origin, link);
  }

  lemma ClearKeepsNamed(f: Fed, link: Name)
    requires ViaNamed(f) && TidyLists(f.via)
    ensures ViaNamed(ClearPeer(f, link))
  {
    DropNamesTidy(f.via, {link});
  }

  lemma ClearKeepsWayBack(f: Fed, link: Name)
    requires HasWayBack(f)
    ensures HasWayBack(ClearPeer(f, link))
  {
    forall k | k in ClearPeer(f, link).sessions ensures k.0 in ClearPeer(f, link).via || k.0 == "" {
      assert k in f.sessions && k.0 !in PurgedOrigins(f.via, link);
    }
  }

  lemma ApplyKeepsNamed(f: Fed, verify: Verifier, op: Op)
    requires ViaNamed(f) && TidyLists(f.via)
    ensures ViaNamed(Apply(f, verify, op)) && Apply(f, verify, op).own == f.own
  {
    var g := Apply(f, verify, op);
    match op
    case Segment(link, origin, rooms, claims) =>
      if origin != f.own {
        SegmentGains(f, verify, link, origin, rooms, claims);
        GainKeepsNamed(f, g, origin, link, rooms.Keys);
      }
    case RoomAdded(link, origin, epk, room) =>
      if origin != f.own {
        RoomGains(f, link, origin, epk, room);
        GainKeepsNamed(f, g, origin, link, {epk});
      }
    case RoomRemoved(_, origin, epk, roomId) =>
      RemoveRoomFacts(f, origin, epk, roomId);
    case PairingPushed(link, origin, claim) =>
      if origin != f.own {
        PairingGains(f, verify, link, origin, claim);
        GainKeepsNamed(f, g, origin, link, {});
      }
    case RouteSeen(_, _) =>
    case LocalPairing(_) =>
    case LinkDied(link) =>
      ClearKeepsNamed(f, link);
  }

  /** An operation leaves every named origin with a way back if and only if it is not one of the straying ones. */
  lemma ApplyKeepsWayBackIff(f: Fed, verify: Verifier, op: Op)
    requires HasWayBack(f)
    ensures HasWayBack(Apply(f, verify, op)) <==> !Strays(f, op)
  {
    var g := Apply(f, verify, op);
    match op
    case Segment(link, origin, rooms, claims) =>
      if origin != f.own {
        SegmentGains(f, verify, link, origin, rooms, claims);
        GainKeepsWayBackIff(f, g, origin, link, rooms.Keys);
        assert rooms != map[] <==> rooms.Keys != {};
      }
    case RoomAdded(link, origin, epk, room) =>
      if origin != f.own {
        RoomGains(f, link, origin, epk, room);
        GainKeepsWayBackIff(f, g, origin, link, {epk});
      }
    case RoomRemoved(_, origin, epk, roomId) =>
      RemoveRoomFacts(f, origin, epk, roomId);
    case PairingPushed(link, origin, claim) =>
      if origin != f.own {
        PairingGains(f, verify, link, origin, claim);
        GainKeepsWayBackIff(f, g, origin, link, {});
      }
    case RouteSeen(_, _) =>
    case LocalPairing(_) =>
    case LinkDied(link) =>
      ClearKeepsWayBack(f, link);
  }

  ghost predicate AlwaysAWayBack(own: Name, verify: Verifier, ops: seq<Op>) {
    HasWayBack(Run(own, verify, ops)) && (ops != [] ==> AlwaysAWayBack(own, verify, ops[..|ops| - 1]))
  }

  predicate NeverStrays(own: Name, verify: Verifier, ops: seq<Op>) {
    ops != [] ==>
      !Strays(Run(own, verify, ops[..|ops| - 1]), ops[|ops| - 1]) && NeverStrays(own, verify, ops[..|ops| - 1])
  }

  /** This relay is never an origin or a via key, whatever the links are called. */
  lemma {:induction false} NeverItsOwnPeer(own: Name, verify: Verifier, ops: seq<Op>)
    ensures var f := Run(own, verify, ops);
            && f.own == own && own !in f.via && (forall o, e :: (o, e) in f.sessions ==> o != own)
            && ViaNamed(f)
  {
    if ops != [] {
      var front := ops[..|ops| - 1];
      NeverItsOwnPeer(own, verify, front);
      RouteIndexRefinesSessions(own, verify, front);
      ApplyKeepsNamed(Run(own, verify, front), verify, ops[|ops| - 1]);
    }
  }

  /** All through a run every named origin has a way back, if and only if no operation of the run strays. */
  lemma {:induction false} WayBackIff(own: Name, verify: Verifier, ops: seq<Op>)
    ensures AlwaysAWayBack(own, verify, ops) <==> NeverStrays(own, verify, ops)
  {
    if ops != [] {
      var front := ops[..|ops| - 1];
      WayBackIff(own, verify, front);
      NeverItsOwnPeer(own, verify, front);
      if AlwaysAWayBack(own, verify, front) {
        ApplyKeepsWayBackIff(Run(own, verify, front), verify, ops[|ops| - 1]);
      }
    }
  }

  /** The link had a name when it brought a session. */
  predicate LinkNamed(op: Op) {
    match op
    case Segment(link, _, _, _) => link != ""
    case RoomAdded(link, _, _, _) => link != ""
    case _ => true
  }

  lemma {:induction false} NamedLinksNeverStray(own: Name, verify: Verifier, ops: seq<Op>)
    requires forall op :: op in ops ==> LinkNamed(op)
    ensures NeverStrays(own, verify, ops)
  {
    if ops != [] {
      NamedLinksNeverStray(own, verify, ops[..|ops| - 1]);
      assert LinkNamed(ops[|ops| - 1]);
    }
  }

  /**
   When every link that brings a session is named, a session's origin has a via link exactly when the
   origin itself is named; via lists are nonempty and duplicate-free.
   */
  lemma SessionsHaveAWayBack(own: Name, verify: Verifier, ops: seq<Op>)
    requires forall op :: op in ops ==> LinkNamed(op)
    ensures var f := Run(own, verify, ops);
            && (forall o, e :: (o, e) in f.sessions ==> o != own && (o in f.via <==> o != ""))
            && (forall o :: o in f.via ==> o != own && f.via[o] != [] && NoDup(f.via[o]))
  {
    RouteIndexRefinesSessions(own, verify, ops);
    NamedLinksNeverStray(own, verify, ops);
    WayBackIff(own, verify, ops);
    NeverItsOwnPeer(own, verify, ops);
  }

  /** A room of a named origin that arrives before its link has named itself is stored with no way back. */
  lemma UnnamedLinkLeavesNoWayBack(own: Name, verify: Verifier, origin: Name, epk: Epk, room: Room, dead: Name)
    requires origin != own && origin != "" && dead != origin
    ensures var f := Run(own, verify, [RoomAdded("", origin, epk, room)]);
            (origin, epk) in f.sessions && origin !in f.via && (origin, epk) in ClearPeer(f, dead).sessions
  {
    assert [RoomAdded("", origin, epk, room)][..0] == [];
  }

  /** The link is the only one this origin's data came by. */
  ghost predicate OnlyVia(f: Fed, origin: Name, link: Name) {
    origin in f.via && forall l :: l in f.via[origin] ==> l == link
  }

  /**
   A link's death removes exactly what rode it: its name from every list, the sessions of origins
   named by it or reachable by no other link, and the owner sets that came by it or from them.
   */
  lemma ClearPeerIsExact(f: Fed, link: Name)
    requires TidyLists(f.via) && TidyLists(f.routes)
    ensures var g := ClearPeer(f, link);
            && TidyLists(g.via) && TidyLists(g.routes)
            && (forall o, l :: (o in g.via && l in g.via[o]) <==> (o in f.via && l in f.via[o] && l != link))
            && (forall k :: k in g.sessions <==> k in f.sessions && k.0 != link && !OnlyVia(f, k.0, link))
            && (forall k :: k in g.sessions ==> g.sessions[k] == f.sessions[k])
            && (forall e, n :: (e in g.routes && n in g.routes[e])
                           <==> (e in f.routes && n in f.routes[e] && n != link && !OnlyVia(f, n, link)))
            && (forall m :: m in g.pairings <==> m in f.pairings && f.pairings[m].source != link
                                                 && !OnlyVia(f, f.pairings[m].origin, link))
            && (forall m :: m in g.pairings ==> g.pairings[m] == f.pairings[m])
  {
    var purged := PurgedOrigins(f.via, link);
    forall o ensures o in purged <==> OnlyVia(f, o, link) {
      if o in f.via {
        assert f.via[o][0] in f.via[o];
        if Without(f.via[o], {link}) == [] {
          assert forall l :: l in f.via[o] && l != link ==> l in Without(f.via[o], {link});
        } else {
          var x := Without(f.via[o], {link})[0];
          assert x in Without(f.via[o], {link}) && x in f.via[o] && x != link;
        }
      }
    }
    DropNamesTidy(f.via, {link});
    DropNamesTidy(f.routes, {link} + purged);
  }

  // ── Owner sets of this relay's own machines ───────────────────────────────

  /** Owner sets of other origins did not come by a link that bears this relay's own name. */
  predicate ForeignLink(op: Op, own: Name) {
    match op
    case Segment(link, _, _, _) => link != own
    case PairingPushed(link, _, _) => link != own
    case _ => true
  }

  ghost predicate OwnAreOwn(own: Name, pairings: map<Epk, Pairing>) {
    forall m :: m in pairings && pairings[m].source == own ==> pairings[m].origin == own
  }

  lemma {:induction false} LearnKeepsOwn(own: Name, pairings: map<Epk, Pairing>, verify: Verifier, link: Name,
                                         origin: Name, cs: seq<Claim>)
    requires OwnAreOwn(own, pairings) && (link == own ==> origin == own)
    ensures OwnAreOwn(own, LearnPairings(pairings, verify, link, origin, cs))
    decreases |cs|
  {
    if cs != [] {
      LearnKeepsOwn(own, LearnPairing(pairings, verify, link, origin, cs[0]), verify, link, origin, cs[1..]);
    }
  }

  lemma SegmentPairings(f: Fed, verify: Verifier, link: Name, origin: Name, rooms: map<Epk, seq<Room>>,
                        claims: seq<Claim>)
    requires origin != f.own
    ensures LearnSegment(f, verify, link, origin, rooms, claims).pairings
         == LearnPairings(f.pairings, verify, link, origin, claims)
  {
    assert LearnVia(f, origin, link).pairings == f.pairings;
  }

  lemma ApplyKeepsOwn(f: Fed, verify: Verifier, op: Op)
    requires OwnAreOwn(f.own, f.pairings) && ForeignLink(op, f.own)
    ensures OwnAreOwn(f.own, Apply(f, verify, op).pairings)
  {
    match op
    case Segment(link, origin, rooms, claims) =>
      if origin != f.own {
        LearnKeepsOwn(f.own, f.pairings, verify, link, origin, claims);
        SegmentPairings(f, verify, link, origin, rooms, claims);
      }
    case PairingPushed(link, origin, claim) =>
      LearnKeepsOwn(f.own, f.pairings, verify, link, origin, [claim]);
    case LocalPairing(claim) =>
      LearnKeepsOwn(f.own, f.pairings, verify, f.own, f.own, [claim]);
    case _ =>
  }

  lemma {:induction false} OwnStayOwn(own: Name, verify: Verifier, ops: seq<Op>)
    requires forall op :: op in ops ==> ForeignLink(op, own)
    ensures OwnAreOwn(own, Run(own, verify, ops).pairings)
  {
    if ops != [] {
      var front := ops[..|ops| - 1];
      OwnStayOwn(own, verify, front);
      NeverItsOwnPeer(own, verify, front);
      ApplyKeepsOwn(Run(own, verify, front), verify, ops[|ops| - 1]);
    }
  }

  /** Owner sets pushed by this relay's own machines outlive every other link. */
  lemma OwnPairingsSurvive(own: Name, verify: Verifier, ops: seq<Op>, link: Name, m: Epk)
    requires forall op :: op in ops ==> ForeignLink(op, own)
    requires link != own
    requires var f := Run(own, verify, ops); m in f.pairings && f.pairings[m].source == own
    ensures var f := Run(own, verify, ops);
            m in ClearPeer(f, link).pairings && ClearPeer(f, link).pairings[m] == f.pairings[m]
  {
    OwnStayOwn(own, verify, ops);
    NeverItsOwnPeer(own, verify, ops);
  }

  /** A segment from an unnamed origin is stored with no way back, and no named link's death removes it. */
  lemma UnnamedOriginOutlivesItsLink(f: Fed, verify: Verifier, link: Name, rooms: map<Epk, seq<Room>>,
                                     claims: seq<Claim>, dead: Name, e: Epk)
    requires f.own != "" && "" !in f.via && e in rooms && dead != ""
    ensures var g := Apply(f, verify, Segment(link, "", rooms, claims));
            ("", e) in g.sessions && "" !in g.via && ("", e) in ClearPeer(g, dead).sessions
  {
    SegmentSessions(LearnVia(f, "", link), "", rooms);
  }

  // ── Other operations never touch forwards in progress ─────────────────────

  /** Channels, backlinks and pending forwards are the same in both. */
  predicate SameTraffic(f: Fed, g: Fed) {
    g.own == f.own && g.senders == f.senders && g.pending == f.pending && g.backlinks == f.backlinks
  }

  lemma SegmentsOnlyReroute(f: Fed, verify: Verifier, link: Name, origin: Name, rooms: map<Epk, seq<Room>>,
                            claims: seq<Claim>)
    ensures SameTraffic(f, LearnSegment(f, verify, link, origin, rooms, claims))
  {
    var via := LearnVia(f, origin, link);
    assert SameTraffic(f, via);
    var g := SetPeerRooms(via, origin, rooms);
    assert SameTraffic(via, g);
  }

  lemma RoomsOnlyReroute(f: Fed, link: Name, origin: Name, epk: Epk, room: Room, roomId: string)
    ensures SameTraffic(f, AddRoom(LearnVia(f, origin, link), origin, epk, room))
    ensures SameTraffic(f, RemoveRoom(f, origin, epk, roomId))
  {
  }

  lemma DeathOnlyReroutes(f: Fed, link: Name)
    ensures SameTraffic(f, ClearPeer(f, link))
  {
  }

  /** Learning, forgetting and link death leave channels, backlinks and pending forwards alone. */
  lemma OpsOnlyReroute(f: Fed, verify: Verifier, op: Op)
    ensures SameTraffic(f, Apply(f, verify, op))
  {
    match op
    case Segment(link, origin, rooms, claims) => SegmentsOnlyReroute(f, verify, link, origin, rooms, claims);
    case RoomAdded(link, origin, epk, room) => RoomsOnlyReroute(f, link, origin, epk, room, room.roomId);
    case RoomRemoved(link, origin, epk, roomId) =>
      RoomsOnlyReroute(f, link, origin, epk, Room(roomId, false, roomId), roomId);
    case LinkDied(link) => DeathOnlyReroutes(f, link);
    case _ =>
  }
}
