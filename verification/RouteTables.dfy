/**
 What every operation does to each table of the routing database, entry by entry, and what the tables
 therefore hold: which call taught an entry, and that no later one took it back.
 */
module RouteTables {
  import opened Base
  import opened PeeringModel
  import opened RouteDatabase
  import opened PeerRooms
  import opened OwnerSets
  import opened Advertisement

  // ── Via links ─────────────────────────────────────────────────────────────

  predicate IsVia(f: Fed, origin: Name, link: Name) {
    link in ListAt(f.via, origin)
  }

  /** The operation is heard on the link and is about data of the origin, both named and neither this relay. */
  predicate TeachesVia(own: Name, op: Op, o: Name, l: Name) {
    && o != "" && l != "" && o != own
    && match op
       case Segment(link, origin, _, _) => link == l && origin == o
       case RoomAdded(link, origin, _, _) => link == l && origin == o
       case PairingPushed(link, origin, _) => link == l && origin == o
       case _ => false
  }

  lemma LearnedViaIs(f: Fed, origin: Name, link: Name, o: Name, l: Name)
    ensures IsVia(LearnVia(f, origin, link), o, l)
       <==> IsVia(f, o, l) || (o == origin && l == link && origin != "" && link != "")
  {
  }

  /** The one via link an operation may teach. */
  function Taught(own: Name, op: Op): Option<(Name, Name)> {
    match op
    case Segment(link, origin, _, _) => if origin == own then None else Some((origin, link))
    case RoomAdded(link, origin, _, _) => if origin == own then None else Some((origin, link))
    case PairingPushed(link, origin, _) => if origin == own then None else Some((origin, link))
    case _ => None
  }

  /** An operation's effect on the via links: it teaches one, or drops a dead one, or leaves them alone. */
  lemma ViaEffect(f: Fed, verify: Verifier, op: Op)
    ensures Apply(f, verify, op).via
         == if Taught(f.own, op).Some? then LearnVia(f, Taught(f.own, op).value.0, Taught(f.own, op).value.1).via
            else if op.LinkDied? then DropNames(f.via, {op.link})
            else f.via
  {
    match op
    case RoomRemoved(_, origin, epk, roomId) => RemoveRoomFacts(f, origin, epk, roomId);
    case _ =>
  }

  lemma ApplyVia(f: Fed, verify: Verifier, op: Op, o: Name, l: Name)
    ensures IsVia(Apply(f, verify, op), o, l)
       <==> (IsVia(f, o, l) && op != LinkDied(l)) || TeachesVia(f.own, op, o, l)
  {
    ViaEffect(f, verify, op);
    if Taught(f.own, op).Some? {
      LearnedViaIs(f, Taught(f.own, op).value.0, Taught(f.own, op).value.1, o, l);
    } else if op.LinkDied? {
      DroppedList(f.via, {op.link}, o);
    }
  }

  /** Some call taught the via link, and the link has not died since. */
  ghost predicate TaughtSince(own: Name, ops: seq<Op>, o: Name, l: Name) {
    exists i :: 0 <= i < |ops| && TaughtAt(own, ops, o, l, i)
  }

  ghost predicate TaughtAt(own: Name, ops: seq<Op>, o: Name, l: Name, i: nat)
    requires i < |ops|
  {
    TeachesVia(own, ops[i], o, l) && forall j :: i < j < |ops| ==> ops[j] != LinkDied(l)
  }

  lemma TaughtSnoc(own: Name, ops: seq<Op>, o: Name, l: Name)
    requires ops != []
    ensures var last := ops[|ops| - 1];
            TaughtSince(own, ops, o, l)
            <==> TeachesVia(own, last, o, l) || (TaughtSince(own, ops[..|ops| - 1], o, l) && last != LinkDied(l))
  {
    var n := |ops| - 1;
    if TeachesVia(own, ops[n], o, l) {
      assert TaughtAt(own, ops, o, l, n);
    }
    if TaughtSince(own, ops[..n], o, l) && ops[n] != LinkDied(l) {
      var i :| 0 <= i < n && TaughtAt(own, ops[..n], o, l, i);
      assert forall j :: i < j < n ==> ops[..n][j] == ops[j];
      assert TaughtAt(own, ops, o, l, i);
    }
    if TaughtSince(own, ops, o, l) && !TeachesVia(own, ops[n], o, l) {
      var i :| 0 <= i < |ops| && TaughtAt(own, ops, o, l, i);
      assert forall j :: i < j < n ==> ops[..n][j] == ops[j];
      assert TaughtAt(own, ops[..n], o, l, i);
    }
  }

  /** After any operations a link is a way back to an origin exactly if one taught it so and it has lived since. */
  lemma {:induction false} ViaIsHistory(own: Name, verify: Verifier, ops: seq<Op>, o: Name, l: Name)
    ensures IsVia(Run(own, verify, ops), o, l) <==> TaughtSince(own, ops, o, l)
  {
    if ops != [] {
      var front := ops[..|ops| - 1];
      ViaIsHistory(own, verify, front, o, l);
      NeverItsOwnPeer(own, verify, front);
      ApplyVia(Run(own, verify, front), verify, ops[|ops| - 1], o, l);
      TaughtSnoc(own, ops, o, l);
    }
  }

  // ── Rooms ─────────────────────────────────────────────────────────────────

  predicate Stores(f: Fed, o: Name, e: Epk, r: Room) {
    r in ListAt(f.sessions, (o, e))
  }

  ghost predicate NoneTwice(f: Fed) {
    forall k :: k in f.sessions ==> DistinctRooms(f.sessions[k])
  }

  /** The room is stored afterwards, given that it was or was not before. */
  ghost predicate StoresAfter(f: Fed, op: Op, o: Name, e: Epk, r: Room) {
    match op
    case Segment(_, origin, rooms, _) =>
      if origin == o && o != f.own then r in ListAt(rooms, e) else Stores(f, o, e, r)
    case RoomAdded(_, origin, epk, room) =>
      if origin == o && o != f.own && epk == e then r == room || (Stores(f, o, e, r) && r.roomId != room.roomId)
      else Stores(f, o, e, r)
    case RoomRemoved(_, origin, epk, roomId) =>
      Stores(f, o, e, r) && !(origin == o && o != f.own && epk == e && r.roomId == roomId)
    case LinkDied(link) =>
      Stores(f, o, e, r) && o != link && !OnlyVia(f, o, link)
    case _ => Stores(f, o, e, r)
  }

  lemma AddedIs(f: Fed, origin: Name, epk: Epk, room: Room, o: Name, e: Epk, r: Room)
    requires DistinctRooms(ListAt(f.sessions, (origin, epk)))
    ensures Stores(AddRoom(f, origin, epk, room), o, e, r)
       <==> if (o, e) == (origin, epk) then r == room || (Stores(f, o, e, r) && r.roomId != room.roomId)
            else Stores(f, o, e, r)
  {
    UpsertIsExact(ListAt(f.sessions, (origin, epk)), room);
  }

  lemma RemovedIs(f: Fed, origin: Name, epk: Epk, roomId: string, o: Name, e: Epk, r: Room)
    ensures Stores(RemoveRoom(f, origin, epk, roomId), o, e, r)
       <==> Stores(f, o, e, r) && !((o, e) == (origin, epk) && r.roomId == roomId)
  {
    DropIsExact(ListAt(f.sessions, (origin, epk)), roomId);
  }

  /** Every operation leaves exactly these rooms, of distinct ids as long as those it brings are. */
  lemma ApplyStores(f: Fed, verify: Verifier, op: Op, o: Name, e: Epk, r: Room)
    requires NoneTwice(f) && TidyLists(f.via) && TidyLists(f.routes)
    ensures Stores(Apply(f, verify, op), o, e, r) <==> StoresAfter(f, op, o, e, r)
  {
    match op
    case Segment(link, origin, rooms, claims) =>
      if origin != f.own {
        LearnViaFacts(f, origin, link);
        SegmentSessions(LearnVia(f, origin, link), origin, rooms);
      }
    case RoomAdded(link, origin, epk, room) =>
      if origin != f.own {
        LearnViaFacts(f, origin, link);
        AddedIs(LearnVia(f, origin, link), origin, epk, room, o, e, r);
      }
    case RoomRemoved(_, origin, epk, roomId) => RemovedIs(f, origin, epk, roomId, o, e, r);
    case LinkDied(link) => ClearPeerIsExact(f, link);
    case _ =>
  }

  lemma {:induction false} DropKeepsDistinct(rooms: seq<Room>, roomId: string)
    requires DistinctRooms(rooms)
    ensures DistinctRooms(DropRoom(rooms, roomId))
  {
    if rooms != [] {
      DropKeepsDistinct(rooms[1..], roomId);
      DropIsExact(rooms[1..], roomId);
      var rest := DropRoom(rooms[1..], roomId);
      assert forall k :: 0 <= k < |rest| ==> rest[k] in rest && rest[k] in rooms[1..];
    }
  }

  /** The segment lists no room twice. */
  ghost predicate ListsOnce(op: Op) {
    op.Segment? ==> forall e :: e in op.rooms ==> DistinctRooms(op.rooms[e])
  }

  lemma ApplyKeepsDistinct(f: Fed, verify: Verifier, op: Op)
    requires NoneTwice(f) && ListsOnce(op)
    ensures NoneTwice(Apply(f, verify, op))
  {
    match op
    case Segment(link, origin, rooms, claims) =>
      if origin != f.own {
        LearnViaFacts(f, origin, link);
        SegmentSessions(LearnVia(f, origin, link), origin, rooms);
      }
    case RoomAdded(link, origin, epk, room) =>
      UpsertIsExact(ListAt(f.sessions, (origin, epk)), room);
    case RoomRemoved(_, origin, epk, roomId) =>
      DropKeepsDistinct(ListAt(f.sessions, (origin, epk)), roomId);
    case _ =>
  }

  /** If no segment lists a room twice, no room is ever stored twice for a machine of an origin. */
  lemma {:induction false} NoRoomIsStoredTwice(own: Name, verify: Verifier, ops: seq<Op>)
    requires forall op :: op in ops ==> ListsOnce(op)
    ensures NoneTwice(Run(own, verify, ops))
  {
    if ops != [] {
      NoRoomIsStoredTwice(own, verify, ops[..|ops| - 1]);
      assert ops[|ops| - 1] in ops;
      ApplyKeepsDistinct(Run(own, verify, ops[..|ops| - 1]), verify, ops[|ops| - 1]);
    }
  }

  /** The last operation of a run decides, room by room, what is stored after it. */
  lemma RunStores(own: Name, verify: Verifier, ops: seq<Op>, op: Op, o: Name, e: Epk, r: Room)
    requires forall x :: x in ops ==> ListsOnce(x)
    ensures Stores(Run(own, verify, ops + [op]), o, e, r) <==> StoresAfter(Run(own, verify, ops), op, o, e, r)
  {
    assert (ops + [op])[..|ops|] == ops;
    NoRoomIsStoredTwice(own, verify, ops);
    RouteIndexRefinesSessions(own, verify, ops);
    ApplyStores(Run(own, verify, ops), verify, op, o, e, r);
  }

  // ── Routes ────────────────────────────────────────────────────────────────

  predicate IsRoute(f: Fed, e: Epk, n: Name) {
    n in ListAt(f.routes, e)
  }

  /** Removing the room leaves the machine none at the origin. */
  ghost predicate Empties(f: Fed, origin: Name, epk: Epk, roomId: string) {
    (origin, epk) in f.sessions && forall r :: r in f.sessions[(origin, epk)] ==> r.roomId == roomId
  }

  ghost predicate RouteAfter(f: Fed, op: Op, e: Epk, n: Name) {
    match op
    case Segment(_, origin, rooms, _) => if n == origin && origin != f.own then e in rooms else IsRoute(f, e, n)
    case RoomAdded(_, origin, epk, _) => IsRoute(f, e, n) || (origin != f.own && n == origin && e == epk)
    case RoomRemoved(_, origin, epk, roomId) =>
      IsRoute(f, e, n) && !(origin != f.own && n == origin && e == epk && Empties(f, origin, epk, roomId))
    case RouteSeen(epk, link) => IsRoute(f, e, n) || (e == epk && n == link)
    case LinkDied(link) => IsRoute(f, e, n) && n != link && !OnlyVia(f, n, link)
    case _ => IsRoute(f, e, n)
  }

  lemma RemovedRoute(f: Fed, origin: Name, epk: Epk, roomId: string, e: Epk, n: Name)
    ensures IsRoute(RemoveRoom(f, origin, epk, roomId), e, n)
       <==> IsRoute(f, e, n) && !(n == origin && e == epk && Empties(f, origin, epk, roomId))
  {
    if (origin, epk) in f.sessions {
      var rooms := f.sessions[(origin, epk)];
      DropIsExact(rooms, roomId);
      if DropRoom(rooms, roomId) != [] {
        assert DropRoom(rooms, roomId)[0] in DropRoom(rooms, roomId);
      } else {
        assert Empties(f, origin, epk, roomId);
        assert epk in f.routes ==>
          forall x :: x in Without(f.routes[epk], {origin}) <==> x in f.routes[epk] && x != origin;
      }
    }
  }

  lemma SegmentRoute(f: Fed, link: Name, origin: Name, rooms: map<Epk, seq<Room>>, claims: seq<Claim>, verify: Verifier,
                     e: Epk, n: Name)
    requires TidyLists(f.routes) && origin != f.own
    ensures IsRoute(LearnSegment(f, verify, link, origin, rooms, claims), e, n)
       <==> if n == origin then e in rooms else IsRoute(f, e, n)
  {
    assert LearnVia(f, origin, link).routes == f.routes;
    SegmentRoutes(LearnVia(f, origin, link), origin, rooms);
  }

  lemma PushedRoute(routes: map<Epk, seq<Name>>, epk: Epk, name: Name, e: Epk, n: Name)
    ensures n in ListAt(routes[epk := PushNew(ListAt(routes, epk), name)], e)
       <==> n in ListAt(routes, e) || (e == epk && n == name)
  {
  }

  /** Every operation leaves exactly these routes. */
  lemma ApplyRoutes(f: Fed, verify: Verifier, op: Op, e: Epk, n: Name)
    requires TidyLists(f.via) && TidyLists(f.routes)
    ensures IsRoute(Apply(f, verify, op), e, n) <==> RouteAfter(f, op, e, n)
  {
    match op
    case Segment(link, origin, rooms, claims) =>
      if origin != f.own {
        SegmentRoute(f, link, origin, rooms, claims, verify, e, n);
      }
    case RoomAdded(link, origin, epk, room) =>
      AddedRoutes(f, link, origin, epk, room);
      PushedRoute(f.routes, epk, origin, e, n);
    case RoomRemoved(_, origin, epk, roomId) => RemovedRoute(f, origin, epk, roomId, e, n);
    case RouteSeen(epk, link) => PushedRoute(f.routes, epk, link, e, n);
    case LinkDied(link) => ClearPeerIsExact(f, link);
    case _ =>
  }

  /** The list is an older one with names taken out and at most one put behind. */
  ghost predicate KeepsOrder(before: seq<Name>, after: seq<Name>) {
    exists gone: set<Name>, more: seq<Name> :: OlderFirst(before, after, gone, more)
  }

  ghost predicate OlderFirst(before: seq<Name>, after: seq<Name>, gone: set<Name>, more: seq<Name>) {
    after == Without(before, gone) + more && |more| <= 1
  }

  lemma SameOrder(list: seq<Name>)
    ensures KeepsOrder(list, list)
  {
    WithoutNothing(list, {});
    assert OlderFirst(list, list, {}, []);
  }

  lemma PushedOrder(list: seq<Name>, x: Name)
    ensures KeepsOrder(list, PushNew(list, x))
  {
    WithoutNothing(list, {});
    assert OlderFirst(list, PushNew(list, x), {}, if x in list then [] else [x]);
  }

  lemma ThinnedOrder(list: seq<Name>, gone: set<Name>, more: seq<Name>)
    requires |more| <= 1
    ensures KeepsOrder(list, Without(list, gone) + more)
  {
    assert OlderFirst(list, Without(list, gone) + more, gone, more);
  }

  lemma DroppedList<K(!new)>(m: map<K, seq<Name>>, gone: set<Name>, k: K)
    ensures ListAt(DropNames(m, gone), k) == Without(ListAt(m, k), gone)
  {
  }

  lemma SegmentOrder(f: Fed, peer: Name, rooms: map<Epk, seq<Room>>, e: Epk)
    ensures KeepsOrder(ListAt(f.routes, e), ListAt(SetPeerRooms(f, peer, rooms).routes, e))
  {
    var list := ListAt(f.routes, e);
    var more := if e in rooms then [peer] else [];
    DroppedList(f.routes, {peer}, e);
    ThinnedOrder(list, {peer}, more);
    RouteListWith(DropNames(f.routes, {peer}), peer, rooms.Keys, e);
  }

  lemma RouteListWith(routes: map<Epk, seq<Name>>, peer: Name, epks: set<Epk>, e: Epk)
    ensures ListAt(RoutesWith(routes, peer, epks), e) == ListAt(routes, e) + if e in epks then [peer] else []
  {
  }

  lemma DropRouteOrder(routes: map<Epk, seq<Name>>, epk: Epk, peer: Name, e: Epk)
    ensures KeepsOrder(ListAt(routes, e), ListAt(DropRoute(routes, epk, peer), e))
  {
    var list := ListAt(routes, e);
    SameOrder(list);
    ThinnedOrder(list, {peer}, []);
    assert Without(list, {peer}) + [] == Without(list, {peer});
  }

  lemma RemovedRoutes(f: Fed, peer: Name, epk: Epk, roomId: string)
    ensures var g := RemoveRoom(f, peer, epk, roomId);
            g.routes == f.routes || g.routes == DropRoute(f.routes, epk, peer)
  {
  }

  lemma RemoveOrder(f: Fed, peer: Name, epk: Epk, roomId: string, e: Epk)
    ensures KeepsOrder(ListAt(f.routes, e), ListAt(RemoveRoom(f, peer, epk, roomId).routes, e))
  {
    SameOrder(ListAt(f.routes, e));
    DropRouteOrder(f.routes, epk, peer, e);
    RemovedRoutes(f, peer, epk, roomId);
  }

  /** `routes` with at most one name pushed behind one list. */
  lemma PushOrder(routes: map<Epk, seq<Name>>, epk: Epk, peer: Name, e: Epk)
    ensures KeepsOrder(ListAt(routes, e), ListAt(routes[epk := PushNew(ListAt(routes, epk), peer)], e))
  {
    SameOrder(ListAt(routes, e));
    PushedOrder(ListAt(routes, e), peer);
  }

  lemma AddedRoutes(f: Fed, link: Name, peer: Name, epk: Epk, room: Room)
    ensures AddRoom(LearnVia(f, peer, link), peer, epk, room).routes
         == f.routes[epk := PushNew(ListAt(f.routes, epk), peer)]
  {
  }

  lemma ClearOrder(f: Fed, link: Name, e: Epk)
    ensures KeepsOrder(ListAt(f.routes, e), ListAt(ClearPeer(f, link).routes, e))
  {
    var list, gone := ListAt(f.routes, e), {link} + PurgedOrigins(f.via, link);
    DroppedList(f.routes, gone, e);
    ThinnedOrder(list, gone, []);
    assert Without(list, gone) + [] == Without(list, gone);
  }

  /** Whatever is learnt or forgotten, routes known earlier keep their order and stay ahead of new ones. */
  lemma RoutesKeepOrder(f: Fed, verify: Verifier, op: Op, e: Epk)
    ensures KeepsOrder(ListAt(f.routes, e), ListAt(Apply(f, verify, op).routes, e))
  {
    SameOrder(ListAt(f.routes, e));
    match op
    case Segment(link, origin, rooms, claims) =>
      if origin != f.own {
        assert LearnVia(f, origin, link).routes == f.routes;
        SegmentOrder(LearnVia(f, origin, link), origin, rooms, e);
      }
    case RoomAdded(link, origin, epk, room) =>
      if origin != f.own {
        AddedRoutes(f, link, origin, epk, room);
        PushOrder(f.routes, epk, origin, e);
      }
    case RoomRemoved(_, origin, epk, roomId) =>
      if origin != f.own {
        RemoveOrder(f, origin, epk, roomId, e);
      }
    case RouteSeen(epk, link) =>
      PushOrder(f.routes, epk, link, e);
    case LinkDied(link) =>
      ClearOrder(f, link, e);
    case _ =>
  }

  lemma LearnedViaOrder(f: Fed, origin: Name, link: Name, o: Name)
    ensures KeepsOrder(ListAt(f.via, o), ListAt(LearnVia(f, origin, link).via, o))
  {
    SameOrder(ListAt(f.via, o));
    PushedOrder(ListAt(f.via, o), link);
  }

  /** The same for via links. */
  lemma ViaKeepsOrder(f: Fed, verify: Verifier, op: Op, o: Name)
    ensures KeepsOrder(ListAt(f.via, o), ListAt(Apply(f, verify, op).via, o))
  {
    ViaEffect(f, verify, op);
    SameOrder(ListAt(f.via, o));
    if Taught(f.own, op).Some? {
      LearnedViaOrder(f, Taught(f.own, op).value.0, Taught(f.own, op).value.1, o);
    } else if op.LinkDied? {
      DroppedList(f.via, {op.link}, o);
      ThinnedOrder(ListAt(f.via, o), {op.link}, []);
      assert Without(ListAt(f.via, o), {op.link}) + [] == Without(ListAt(f.via, o), {op.link});
    }
  }

  // ── Owner sets ────────────────────────────────────────────────────────────

  /** The claims an operation brings, unless they are of this relay and come back. */
  function ClaimsIn(own: Name, op: Op): seq<Claim> {
    match op
    case Segment(_, origin, _, claims) => if origin == own then [] else claims
    case PairingPushed(_, origin, claim) => if origin == own then [] else [claim]
    case LocalPairing(claim) => [claim]
    case _ => []
  }

  function OriginOf(own: Name, op: Op): Name {
    if op.Segment? || op.PairingPushed? then op.origin else own
  }

  function SourceOf(own: Name, op: Op): Name {
    if op.Segment? || op.PairingPushed? then op.link else own
  }

  /** The entry is a claim of this operation, with its origin and its arrival link. */
  ghost predicate Brought(own: Name, verify: Verifier, op: Op, m: Epk, p: Pairing) {
    exists c :: c in ClaimsIn(own, op) && IsClaim(verify, c, m, p)
                && p.origin == OriginOf(own, op) && p.source == SourceOf(own, op)
  }

  ghost predicate IsClaim(verify: Verifier, c: Claim, m: Epk, p: Pairing) {
    c.machine == m && c.envelope == p.envelope && Accepted(verify, c) == Some(PairingDoc(m, p.version, p.owners))
  }

  lemma {:induction false} BatchBrings(pairings: map<Epk, Pairing>, verify: Verifier, link: Name, origin: Name,
                                       cs: seq<Claim>, m: Epk)
    ensures var after := LearnPairings(pairings, verify, link, origin, cs);
            m in after ==>
              || (m in pairings && after[m] == pairings[m])
              || (after[m].origin == origin && after[m].source == link
                  && exists c :: c in cs && IsClaim(verify, c, m, after[m]))
    decreases |cs|
  {
    if cs != [] {
      var mid := LearnPairing(pairings, verify, link, origin, cs[0]);
      var after := LearnPairings(pairings, verify, link, origin, cs);
      BatchBrings(mid, verify, link, origin, cs[1..], m);
      if m in after && !(m in pairings && after[m] == pairings[m]) {
        if m in mid && after[m] == mid[m] {
          assert IsClaim(verify, cs[0], m, after[m]);
        } else {
          var c :| c in cs[1..] && IsClaim(verify, c, m, after[m]);
          assert c in cs;
        }
      }
    }
  }

  /** An operation's effect on the owner sets: it offers its claims, or a dead link takes some along. */
  lemma PairingsEffect(f: Fed, verify: Verifier, op: Op)
    ensures var after := Apply(f, verify, op).pairings;
            if op.LinkDied? then forall m :: m in after ==> m in f.pairings && after[m] == f.pairings[m]
            else after == LearnPairings(f.pairings, verify, SourceOf(f.own, op), OriginOf(f.own, op),
                                        ClaimsIn(f.own, op))
  {
    match op
    case Segment(link, origin, rooms, claims) =>
      if origin != f.own {
        SegmentPairings(f, verify, link, origin, rooms, claims);
      }
    case RoomRemoved(_, origin, epk, roomId) =>
      assert RemoveRoom(f, origin, epk, roomId).pairings == f.pairings;
    case _ =>
  }

  /** An operation stores an owner set only as its own claim, and each valid claim or something as new. */
  lemma ApplyPairings(f: Fed, verify: Verifier, op: Op, m: Epk)
    ensures var after := Apply(f, verify, op).pairings;
            && (m in after ==> (m in f.pairings && after[m] == f.pairings[m])
                               || Brought(f.own, verify, op, m, after[m]))
            && (forall c :: c in ClaimsIn(f.own, op) ==> Reached(after, verify, c))
  {
    PairingsEffect(f, verify, op);
    if !op.LinkDied? {
      BatchBrings(f.pairings, verify, SourceOf(f.own, op), OriginOf(f.own, op), ClaimsIn(f.own, op), m);
      BatchReaches(f.pairings, verify, SourceOf(f.own, op), OriginOf(f.own, op), ClaimsIn(f.own, op));
    }
  }

  /** Every stored owner set is a claim some operation brought, stored under its origin and its arrival link. */
  lemma {:induction false} OwnerSetsWereBrought(own: Name, verify: Verifier, ops: seq<Op>, m: Epk)
    requires m in Run(own, verify, ops).pairings
    ensures exists op :: op in ops && Brought(own, verify, op, m, Run(own, verify, ops).pairings[m])
  {
    var front, last := ops[..|ops| - 1], ops[|ops| - 1];
    var p := Run(own, verify, ops).pairings[m];
    NeverItsOwnPeer(own, verify, front);
    ApplyPairings(Run(own, verify, front), verify, last, m);
    if Brought(own, verify, last, m, p) {
      assert last in ops;
    } else {
      OwnerSetsWereBrought(own, verify, front, m);
      var op :| op in front && Brought(own, verify, op, m, p);
      assert op in ops;
    }
  }
}
