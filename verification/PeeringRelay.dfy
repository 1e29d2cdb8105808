/** The relay's in-place routing database: each operation is proved against its function. */
module PeeringRelay {
  import opened Base
  import opened PeeringModel
  import RouteDatabase
  import opened OwnerSets
  import opened Advertisement

  /** Frames for every channel of every link but one, link by link in some order. */
  ghost predicate IsOnward(senders: map<Name, seq<Conn>>, except: set<Name>, outs: seq<Conn>) {
    exists order: seq<Name> :: NoDup(order) && (forall l :: l in order <==> l in senders && l !in except)
                               && outs == Channels(senders, order)
  }

  function Channels(senders: map<Name, seq<Conn>>, links: seq<Name>): seq<Conn> {
    if links == [] then [] else Channels(senders, links[..|links| - 1]) + ListAt(senders, links[|links| - 1])
  }

  class FederatedSessions {
    const own: Name
    const verify: Verifier
    const keys: Keys
    var sessions: map<(Name, Epk), seq<Room>>
    var routes: map<Epk, seq<Name>>
    var senders: map<Name, seq<Conn>>
    var pending: set<ReqId>
    var pairings: map<Epk, Pairing>
    var via: map<Name, seq<Name>>
    var backlinks: seq<Backlink>

    function State(): Fed
      reads this
    {
      Fed(own, sessions, routes, senders, pending, pairings, via, backlinks)
    }

    constructor (own: Name, verify: Verifier, keys: Keys)
      ensures State() == Empty(own) && this.verify == verify && this.keys == keys
    {
      this.own, this.verify, this.keys := own, verify, keys;
      sessions, routes, senders, pending := map[], map[], map[], {};
      pairings, via, backlinks := map[], map[], [];
    }

    method LearnRoute(epk: Epk, relay: Name)
      modifies this`routes
      ensures State() == PeeringModel.LearnRoute(old(State()), epk, relay)
    {
      var entry := ListAt(routes, epk);
      if relay !in entry {
        entry := entry + [relay];
      }
      routes := routes[epk := entry];
    }

    method LearnVia(origin: Name, link: Name)
      modifies this`via
      ensures State() == PeeringModel.LearnVia(old(State()), origin, link)
    {
      if origin == "" || link == "" {
        return;
      }
      var entry := ListAt(via, origin);
      if link !in entry {
        entry := entry + [link];
      }
      via := via[origin := entry];
    }

    method SetPeerRooms(peer: Name, rooms: map<Epk, seq<Room>>)
      modifies this`sessions, this`routes
      ensures State() == PeeringModel.SetPeerRooms(old(State()), peer, rooms)
    {
      sessions := SessionsWithout(sessions, {peer});
      routes := DropNames(routes, {peer});
      ghost var keptSessions, keptRoutes, done := sessions, routes, {};
      NothingHosted(keptRoutes, peer, rooms);
      var todo := rooms.Keys;
      while todo != {}
        invariant todo !! done && todo + done == rooms.Keys
        invariant sessions == keptSessions + Hosted(peer, rooms, done)
        invariant routes == RoutesWith(keptRoutes, peer, done)
      {
        var epk :| epk in todo;
        HostedGrows(keptSessions, peer, rooms, done, epk);
        RoutesGrow(keptRoutes, peer, done, epk);
        sessions := sessions[(peer, epk) := rooms[epk]];
        routes := routes[epk := ListAt(routes, epk) + [peer]];
        todo, done := todo - {epk}, done + {epk};
      }
      assert done == rooms.Keys;
    }

    method AddRoom(peer: Name, epk: Epk, room: Room)
      modifies this`sessions, this`routes
      ensures State() == PeeringModel.AddRoom(old(State()), peer, epk, room)
    {
      var key := (peer, epk);
      sessions := sessions[key := Upsert(ListAt(sessions, key), room)];
      var relays := ListAt(routes, epk);
      if peer !in relays {
        relays := relays + [peer];
      }
      routes := routes[epk := relays];
    }

    method RemoveRoom(peer: Name, epk: Epk, roomId: string)
      modifies this`sessions, this`routes
      ensures State() == PeeringModel.RemoveRoom(old(State()), peer, epk, roomId)
    {
      var key := (peer, epk);
      if key in sessions {
        var left := DropRoom(sessions[key], roomId);
        if left == [] {
          sessions := sessions - {key};
          if epk in routes {
            var relays := Without(routes[epk], {peer});
            if relays == [] {
              routes := routes - {epk};
            } else {
              routes := routes[epk := relays];
            }
          }
        } else {
          sessions := sessions[key := left];
        }
      }
    }

    method LearnMachinePairings(link: Name, origin: Name, claims: seq<Claim>)
      modifies this`pairings
      ensures State() == old(State()).(pairings := LearnPairings(old(pairings), verify, link, origin, claims))
    {
      var i := 0;
      while i < |claims|
        invariant i <= |claims|
        invariant LearnPairings(pairings, verify, link, origin, claims[i..])
               == LearnPairings(old(pairings), verify, link, origin, claims)
      {
        var c := claims[i];
        assert claims[i..][0] == c && claims[i..][1..] == claims[i + 1..];
        i := i + 1;
        var checked := verify(c.envelope);
        if checked.None? || checked.value.machine != c.machine {
          continue;
        }
        var doc := checked.value;
        if c.machine in pairings && pairings[c.machine].version >= doc.version {
          continue;
        }
        pairings := pairings[c.machine := Pairing(doc.version, doc.owners, c.envelope, origin, link)];
      }
    }

    method ClearPeer(link: Name)
      modifies this`via, this`sessions, this`routes, this`pairings
      ensures State() == PeeringModel.ClearPeer(old(State()), link)
    {
      var purged := set o | o in via && Without(via[o], {link}) == [];
      via := DropNames(via, {link});
      sessions := SessionsWithout(sessions, {link} + purged);
      routes := DropNames(routes, {link} + purged);
      pairings := PairingsWithout(pairings, link, purged);
    }

    method RegisterSender(link: Name, conn: Conn)
      modifies this`senders
      ensures State() == PeeringModel.RegisterSender(old(State()), link, conn)
    {
      senders := senders[link := ListAt(senders, link) + [conn]];
    }

    method UnregisterSender(link: Name, closed: set<Conn>)
      modifies this`senders
      ensures State() == PeeringModel.UnregisterSender(old(State()), link, closed)
    {
      if link in senders {
        senders := senders[link := Without(senders[link], closed)];
      }
    }

    /** The first open channel of a direct link or, failing that, of the origin's via links. */
    method SenderForCandidate(candidate: Name, exclude: Option<Name>, closed: set<Conn>) returns (conn: Option<Conn>)
      ensures conn == SenderFor(State(), candidate, exclude, closed)
    {
      var links := [candidate] + ListAt(via, candidate);
      var i := 0;
      while i < |links|
        invariant i <= |links|
        invariant FirstSender(senders, links, exclude, closed) == FirstSender(senders, links[i..], exclude, closed)
      {
        var link := links[i];
        assert links[i..][1..] == links[i + 1..];
        if exclude != Some(link) && link in senders {
          var alive := FirstOpen(senders[link], closed);
          if alive.Some? {
            return alive;
          }
        }
        i := i + 1;
      }
      return None;
    }

    method ResolveRoute(candidates: seq<Name>, skip: set<Name>, exclude: Option<Name>, closed: set<Conn>)
      returns (route: Option<(Name, Conn)>)
      ensures route == PickRoute(State(), candidates, skip, exclude, closed)
    {
      var i := 0;
      while i < |candidates|
        invariant i <= |candidates|
        invariant PickRoute(State(), candidates, skip, exclude, closed)
               == PickRoute(State(), candidates[i..], skip, exclude, closed)
      {
        assert candidates[i..][1..] == candidates[i + 1..];
        if candidates[i] !in skip {
          var conn := SenderForCandidate(candidates[i], exclude, closed);
          if conn.Some? {
            return Some((candidates[i], conn.value));
          }
        }
        i := i + 1;
      }
      return None;
    }

    method RecordHopBacklink(id: ReqId, now: int, conn: Conn)
      modifies this`backlinks
      ensures backlinks == RecordBacklink(old(backlinks), id, now, conn)
    {
      backlinks := Unexpired(backlinks, now);
      ghost var live := backlinks;
      ghost var popped := 0;
      while |backlinks| >= HOP_BACKLINK_MAX
        invariant popped <= |live| && backlinks == live[popped..]
        invariant popped > 0 ==> |backlinks| >= HOP_BACKLINK_MAX - 1
      {
        backlinks := backlinks[1..];
        popped := popped + 1;
      }
      backlinks := backlinks + [Backlink(id, now, conn)];
    }

    method TakeHopBacklink(id: ReqId, now: int) returns (conn: Option<Conn>)
      modifies this`backlinks
      ensures (conn, backlinks) == TakeBacklink(old(backlinks), id, now)
    {
      backlinks := Unexpired(backlinks, now);
      var k := Position(backlinks, id);
      if k == |backlinks| {
        return None;
      }
      conn := Some(backlinks[k].conn);
      backlinks := backlinks[..k] + backlinks[k + 1..];
    }

    /** Sends a new forward; the fresh `id` is then pending until its ack or a cancel. */
    method ForwardToFederated(id: ReqId, from: Epk, target: Epk, payload: string, closed: set<Conn>)
      returns (out: Option<(Conn, Frame)>)
      modifies this`pending
      ensures (State(), out) == Originate(old(State()), keys, id, from, target, payload, closed)
    {
      var route := ResolveRoute(ListAt(routes, target), {}, None, closed);
      if route.None? {
        return None;
      }
      pending := pending + {id};
      out := Some((route.value.1, ForwardFrame(Stamp(own, keys, Forward(id, from, target, payload, [], None, None)))));
    }

    method CancelForward(id: ReqId)
      modifies this`pending
      ensures State() == old(State()).(pending := old(pending) - {id})
    {
      pending := pending - {id};
    }

    method HandleRelayForward(link: Name, conn: Conn, fwd: Forward, local: Local, closed: set<Conn>, now: int)
      returns (out: (Conn, Frame))
      modifies this`routes, this`backlinks
      ensures (State(), out) == HandleForward(old(State()), keys, link, conn, fwd, local, closed, now)
    {
      out := (conn, AckFrame(fwd.id, UnknownPeer));
      if own in fwd.visited || !SigValid(keys, fwd) {
        return;
      }
      LearnRoute(fwd.from, link);
      if local.Here? {
        return (conn, AckFrame(fwd.id, if local.delivered then Forwarded else UnknownPeer));
      }
      var route := ResolveRoute(ListAt(routes, fwd.target), {link} + (set n | n in fwd.visited), Some(link), closed);
      if route.Some? {
        RecordHopBacklink(fwd.id, now, conn);
        out := (route.value.1, ForwardFrame(Stamp(own, keys, fwd)));
      }
    }

    /** `resolved` says whether the ack answered a pending forward of this relay. */
    method HandleForwardAck(id: ReqId, status: Status, now: int)
      returns (out: Option<(Conn, Frame)>, resolved: bool)
      modifies this`backlinks, this`pending
      ensures (State(), out, resolved) == HandleAck(old(State()), id, status, now)
    {
      var back := TakeHopBacklink(id, now);
      if back.Some? {
        return Some((back.value, AckFrame(id, status))), false;
      }
      resolved := id in pending;
      pending := pending - {id};
      out := None;
    }

    /** Sends one frame on every channel of every link outside `except`. */
    method SendToLinks(except: set<Name>) returns (outs: seq<Conn>)
      ensures IsOnward(senders, except, outs)
    {
      outs := [];
      ghost var order: seq<Name> := [];
      var todo := senders.Keys - except;
      while todo != {}
        invariant todo <= senders.Keys - except
        invariant NoDup(order) && forall l :: l in order <==> l in senders && l !in except && l !in todo
        invariant outs == Channels(senders, order)
      {
        var link :| link in todo;
        todo := todo - {link};
        assert (order + [link])[..|order|] == order;
        outs, order := outs + senders[link], order + [link];
      }
    }

    method LearnPeerListSegment(link: Name, segment: Seg)
      modifies this`via, this`sessions, this`routes, this`pairings
      ensures State()
           == RouteDatabase.LearnSegment(old(State()), verify, link, segment.origin, segment.rooms, segment.claims)
    {
      if segment.origin == own {
        return;
      }
      LearnVia(segment.origin, link);
      SetPeerRooms(segment.origin, segment.rooms);
      LearnMachinePairings(link, segment.origin, segment.claims);
    }

    /** A room opened or changed at `origin`: stored, and sent on to every link but the arrival. */
    method HandleRoomAdded(link: Name, origin: Name, epk: Epk, room: Room) returns (outs: seq<Conn>)
      modifies this`via, this`sessions, this`routes
      ensures State() == RouteDatabase.Apply(old(State()), verify, RouteDatabase.RoomAdded(link, origin, epk, room))
      ensures if origin == own then outs == [] else IsOnward(senders, {link}, outs)
    {
      if origin == own {
        return [];
      }
      LearnVia(origin, link);
      AddRoom(origin, epk, room);
      outs := SendToLinks({link});
    }

    method HandleRoomRemoved(link: Name, origin: Name, epk: Epk, roomId: string) returns (outs: seq<Conn>)
      modifies this`sessions, this`routes
      ensures State() == RouteDatabase.Apply(old(State()), verify, RouteDatabase.RoomRemoved(link, origin, epk, roomId))
      ensures if origin == own then outs == [] else IsOnward(senders, {link}, outs)
    {
      if origin == own {
        return [];
      }
      RemoveRoom(origin, epk, roomId);
      outs := SendToLinks({link});
    }

    /** An absent origin means the sending relay itself, named by the arrival link. */
    method HandlePairingUpdate(link: Name, tag: Option<Name>, claim: Claim) returns (outs: seq<Conn>)
      modifies this`via, this`pairings
      ensures var origin := if tag.Some? then tag.value else link;
              && State() == RouteDatabase.Apply(old(State()), verify, RouteDatabase.PairingPushed(link, origin, claim))
              && if origin == own then outs == [] else IsOnward(senders, {link}, outs)
    {
      var origin := if tag.Some? then tag.value else link;
      if origin == own {
        return [];
      }
      LearnMachinePairings(link, origin, [claim]);
      LearnVia(origin, link);
      outs := SendToLinks({link});
    }

    /** A machine pushed its owner set over its own connection. */
    method LearnLocalMachinePairing(claim: Claim)
      modifies this`pairings
      ensures State() == RouteDatabase.Apply(old(State()), verify, RouteDatabase.LocalPairing(claim))
    {
      LearnMachinePairings(own, own, [claim]);
    }

    /** The claims to share for `origin`: every stored set of its machines that did not come by `link`. */
    method SharedClaims(origin: Name, link: Name) returns (claims: seq<Claim>)
      ensures ClaimsOf(State(), MachinesOf(State(), origin, link), claims)
    {
      claims := [];
      var todo := pairings.Keys;
      while todo != {}
        invariant todo <= pairings.Keys
        invariant ClaimsOf(State(), MachinesOf(State(), origin, link) - todo, claims)
      {
        var m :| m in todo;
        ghost var told := MachinesOf(State(), origin, link) - todo;
        if pairings[m].origin == origin && pairings[m].source != link {
          OneMoreClaim(State(), told, claims, m);
          claims := claims + [ClaimOf(m, pairings[m])];
          assert MachinesOf(State(), origin, link) - (todo - {m}) == told + {m};
        } else {
          assert MachinesOf(State(), origin, link) - (todo - {m}) == told;
        }
        todo := todo - {m};
      }
      assert MachinesOf(State(), origin, link) - {} == MachinesOf(State(), origin, link);
    }

    /** Everything this relay may tell one peer: its own rooms first, then one segment per origin it may share. */
    method AdvertisementSegments(localRooms: map<Epk, seq<Room>>, localClaims: seq<Claim>, link: Name, peer: Name)
      returns (segs: seq<Seg>)
      ensures IsAdvertisement(State(), localRooms, localClaims, link, peer, segs)
    {
      var transit: seq<Seg> := [];
      var origins := (set k | k in sessions :: k.0) + (set m | m in pairings :: pairings[m].origin);
      var todo := origins;
      while todo != {}
        invariant todo <= origins
        invariant TransitSegs(State(), link, peer, origins - todo, transit)
      {
        var origin :| origin in todo;
        ghost var seen := origins - todo;
        todo := todo - {origin};
        assert origins - todo == seen + {origin};
        if origin == own || origin == link || origin == peer || link in ListAt(via, origin) {
          continue;
        }
        var rooms := RoomsOf(State(), origin);
        var claims := SharedClaims(origin, link);
        NonemptyIsShared(State(), link, peer, origin, claims);
        if rooms == map[] && claims == [] {
          continue;
        }
        OneMoreSegment(State(), link, peer, seen, transit, Seg(origin, rooms, claims));
        transit := transit + [Seg(origin, rooms, claims)];
      }
      segs := [Seg(own, localRooms, localClaims)] + transit;
      forall o | Shared(State(), link, peer, o) ensures o in origins - {} {
        SharedIsKnown(State(), link, peer, o);
      }
      assert segs[1..] == transit && Covers(State(), link, peer, origins - {});
    }
  }

  lemma OneMoreClaim(f: Fed, machines: set<Epk>, claims: seq<Claim>, m: Epk)
    requires ClaimsOf(f, machines, claims) && m in f.pairings && m !in machines
    ensures ClaimsOf(f, machines + {m}, claims + [ClaimOf(m, f.pairings[m])])
  {
    var more := claims + [ClaimOf(m, f.pairings[m])];
    assert forall c :: c in claims ==> c.machine in machines;
    assert forall c :: c in more <==> c in claims || c == ClaimOf(m, f.pairings[m]);
    assert (set c | c in more :: c.machine) == (set c | c in claims :: c.machine) + {m};
  }

  lemma OneMoreSegment(f: Fed, link: Name, peer: Name, scope: set<Name>, segs: seq<Seg>, s: Seg)
    requires TransitSegs(f, link, peer, scope, segs) && s.origin !in scope && IsTransit(f, link, peer, s)
    ensures TransitSegs(f, link, peer, scope + {s.origin}, segs + [s])
  {
    OneMoreOrigin(scope, segs, s);
    forall o | o in scope + {s.origin} && Shared(f, link, peer, o) ensures HasOrigin(segs + [s], o) {
      if o != s.origin {
        assert HasOrigin(segs, o);
      }
    }
    assert forall x :: x in segs + [s] ==> IsTransit(f, link, peer, x);
  }

  ghost predicate HasOrigin(segs: seq<Seg>, o: Name) {
    exists x :: x in segs && x.origin == o
  }

  /** A segment of a new origin joins: origins stay distinct, and those present are one more. */
  lemma OneMoreOrigin(scope: set<Name>, segs: seq<Seg>, s: Seg)
    requires forall i, j :: 0 <= i < j < |segs| ==> segs[i].origin != segs[j].origin
    requires s.origin !in scope && forall x :: x in segs ==> x.origin in scope
    ensures var more := segs + [s];
            && (forall x :: x in more <==> x in segs || x == s)
            && (forall i, j :: 0 <= i < j < |more| ==> more[i].origin != more[j].origin)
            && (forall x :: x in more ==> x.origin in scope + {s.origin})
            && (forall o :: HasOrigin(segs, o) || o == s.origin ==> HasOrigin(more, o))
  {
    var more := segs + [s];
    assert forall i :: 0 <= i < |segs| ==> more[i] == segs[i] && segs[i] in segs;
    assert more[|segs|] == s;
    forall o | HasOrigin(segs, o) || o == s.origin ensures HasOrigin(more, o) {
      if HasOrigin(segs, o) {
        var x :| x in segs && x.origin == o;
        assert x in more;
      } else {
        assert s in more;
      }
    }
  }

  lemma NonemptyIsShared(f: Fed, link: Name, peer: Name, origin: Name, claims: seq<Claim>)
    requires origin != f.own && origin != link && origin != peer && link !in ListAt(f.via, origin)
    requires ClaimsOf(f, MachinesOf(f, origin, link), claims)
    ensures Shared(f, link, peer, origin) <==> RoomsOf(f, origin) != map[] || claims != []
  {
    assert claims != [] ==> claims[0] in claims && claims[0].machine in MachinesOf(f, origin, link);
  }

  lemma SharedIsKnown(f: Fed, link: Name, peer: Name, origin: Name)
    requires Shared(f, link, peer, origin)
    ensures || (exists k :: k in f.sessions && k.0 == origin)
            || (exists m :: m in f.pairings && f.pairings[m].origin == origin)
  {
    if RoomsOf(f, origin) != map[] {
      var e :| e in RoomsOf(f, origin).Keys;
      assert (origin, e) in f.sessions;
    }
  }

  /** One more machine hosted: the session map gains exactly its entry. */
  lemma HostedGrows(kept: map<(Name, Epk), seq<Room>>, peer: Name, rooms: map<Epk, seq<Room>>, done: set<Epk>, epk: Epk)
    requires done <= rooms.Keys && epk in rooms
    ensures kept + Hosted(peer, rooms, done + {epk})
         == (kept + Hosted(peer, rooms, done))[(peer, epk) := rooms[epk]]
  {
    var grown := set e | e in done + {epk} :: (peer, e);
    assert grown == (set e | e in done :: (peer, e)) + {(peer, epk)};
  }

  /** One more machine hosted: the route index gains the peer in exactly its list. */
  lemma RoutesGrow(routes: map<Epk, seq<Name>>, peer: Name, done: set<Epk>, epk: Epk)
    requires epk !in done
    ensures RoutesWith(routes, peer, done + {epk})
         == RoutesWith(routes, peer, done)[epk := ListAt(RoutesWith(routes, peer, done), epk) + [peer]]
  {
    var before, after := RoutesWith(routes, peer, done), RoutesWith(routes, peer, done + {epk});
    assert after.Keys == before.Keys + {epk};
    assert ListAt(before, epk) == ListAt(routes, epk);
    forall e | e in before && e != epk ensures after[e] == before[e] {
    }
  }

  lemma NothingHosted(routes: map<Epk, seq<Name>>, peer: Name, rooms: map<Epk, seq<Room>>)
    ensures Hosted(peer, rooms, {}) == map[] && RoutesWith(routes, peer, {}) == routes
  {
    assert RoutesWith(routes, peer, {}).Keys == routes.Keys;
    assert forall e :: e in routes ==> ListAt(routes, e) + [] == routes[e];
  }
}
