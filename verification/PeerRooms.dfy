/** Single rooms of a peer relay coming and going. */
module PeerRooms {
  import opened Base
  import opened PeeringModel
  import opened RouteDatabase

  ghost predicate DistinctRooms(rooms: seq<Room>) {
    forall i, j :: 0 <= i < j < |rooms| ==> rooms[i].roomId != rooms[j].roomId
  }

  /** A room replaces the one of its id and no other. */
  lemma {:induction false} UpsertIsExact(rooms: seq<Room>, room: Room)
    requires DistinctRooms(rooms)
    ensures DistinctRooms(Upsert(rooms, room))
    ensures forall r :: r in Upsert(rooms, room) <==> r == room || (r in rooms && r.roomId != room.roomId)
  {
    if rooms != [] {
      var rest := rooms[1..];
      assert forall k :: 0 <= k < |rest| ==> rest[k] == rooms[k + 1] && rest[k].roomId != rooms[0].roomId;
      assert forall r :: r in rooms <==> r == rooms[0] || r in rest;
      if rooms[0].roomId == room.roomId {
        assert forall r :: r in Upsert(rooms, room) <==> r == room || r in rest;
      } else {
        UpsertIsExact(rest, room);
        var more := Upsert(rest, room);
        assert forall k :: 0 <= k < |more| ==> more[k] in more;
      }
    }
  }

  ghost predicate FirstOfId(rooms: seq<Room>, id: string, i: nat)
    requires i < |rooms|
  {
    rooms[i].roomId == id && forall j :: 0 <= j < i ==> rooms[j].roomId != id
  }

  /** A room takes the place of the first of its id; the others stay where they are. */
  lemma {:induction false} UpsertReplaces(rooms: seq<Room>, room: Room, i: nat)
    requires i < |rooms| && FirstOfId(rooms, room.roomId, i)
    ensures Upsert(rooms, room) == rooms[i := room]
  {
    if i > 0 {
      var rest := rooms[1..];
      assert forall j :: 0 <= j < i - 1 ==> rest[j] == rooms[j + 1];
      assert rooms[0].roomId != room.roomId;
      UpsertReplaces(rest, room, i - 1);
      assert rooms[i := room][1..] == rest[i - 1 := room];
    }
  }

  /** One of a new id goes to the end. */
  lemma {:induction false} UpsertAppends(rooms: seq<Room>, room: Room)
    requires forall r :: r in rooms ==> r.roomId != room.roomId
    ensures Upsert(rooms, room) == rooms + [room]
  {
    if rooms != [] {
      UpsertAppends(rooms[1..], room);
      assert rooms[0] in rooms;
      assert rooms[1..] + [room] == (rooms + [room])[1..];
    }
  }

  /** Dropping goes through the list in order. */
  lemma {:induction false} DropSnoc(rooms: seq<Room>, room: Room, roomId: string)
    ensures DropRoom(rooms + [room], roomId) == DropRoom(rooms, roomId) + if room.roomId == roomId then [] else [room]
  {
    if rooms == [] {
      assert rooms + [room] == [room] && [room][1..] == [];
    } else {
      assert (rooms + [room])[1..] == rooms[1..] + [room];
      DropSnoc(rooms[1..], room, roomId);
      Assoc(if rooms[0].roomId == roomId then [] else [rooms[0]], DropRoom(rooms[1..], roomId),
            if room.roomId == roomId then [] else [room]);
    }
  }

  /** Every room of the id goes, and no other. */
  lemma {:induction false} DropIsExact(rooms: seq<Room>, roomId: string)
    ensures forall r :: r in DropRoom(rooms, roomId) <==> r in rooms && r.roomId != roomId
  {
    if rooms != [] {
      DropIsExact(rooms[1..], roomId);
      assert forall r :: r in rooms <==> r == rooms[0] || r in rooms[1..];
    }
  }

  lemma {:induction false} DropUndoesUpsert(rooms: seq<Room>, room: Room)
    requires forall r :: r in rooms ==> r.roomId != room.roomId
    ensures DropRoom(Upsert(rooms, room), room.roomId) == rooms
  {
    if rooms == [] {
      assert [room][1..] == [];
    } else {
      DropUndoesUpsert(rooms[1..], room);
      assert Upsert(rooms, room)[1..] == Upsert(rooms[1..], room);
    }
  }

  /** Dropping the name just pushed restores the list, if it was not there before. */
  lemma DropUndoesPush(list: seq<Name>, peer: Name)
    requires peer !in list
    ensures Without(PushNew(list, peer), {peer}) == list
  {
    WithoutSnoc(list, peer, {peer});
    WithoutNothing(list, {peer});
  }

  /**
   Removing a room just added under a new id restores the whole database, if and only if the machine
   was hosted by the peer before, or the peer was not already a route to it: a route that some
   forward taught is lost with the room.
   */
  lemma RemoveUndoesAddIff(f: Fed, peer: Name, epk: Epk, room: Room)
    requires Indexed(f) && TidyLists(f.routes)
    requires (peer, epk) in f.sessions ==> f.sessions[(peer, epk)] != []
    requires forall r :: r in ListAt(f.sessions, (peer, epk)) ==> r.roomId != room.roomId
    ensures RemoveRoom(AddRoom(f, peer, epk, room), peer, epk, room.roomId) == f
       <==> (peer, epk) in f.sessions || peer !in ListAt(f.routes, epk)
  {
    var key, rooms := (peer, epk), ListAt(f.sessions, (peer, epk));
    var g := AddRoom(f, peer, epk, room);
    var h := RemoveRoom(g, peer, epk, room.roomId);
    DropUndoesUpsert(rooms, room);
    if key in f.sessions {
      assert h.sessions == f.sessions;
      assert g.routes == f.routes;
    } else {
      assert h.sessions == f.sessions;
      var list := ListAt(f.routes, epk);
      if peer in list {
        assert epk in f.routes && g.routes == f.routes;
        assert epk in h.routes ==> peer !in h.routes[epk];
      } else {
        DropUndoesPush(list, peer);
        assert h.routes == f.routes;
      }
    }
  }
}
