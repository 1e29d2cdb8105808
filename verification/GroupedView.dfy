/** The one grouping behind both read paths: federated rooms by machine, each room once. */
module GroupedView {
  import opened Base
  import opened PeerRooms
  import opened PeeringModel
  import opened RouteDatabase

  type Sessions = map<(Name, Epk), seq<Room>>

  ghost predicate Listed(room: Room, skipDaemon: bool) {
    !(skipDaemon && room.isDaemon)
  }

  /** A listed room stored for the machine under one of these keys. */
  ghost predicate Stored(sessions: Sessions, keys: set<(Name, Epk)>, epk: Epk, skipDaemon: bool, room: Room) {
    exists k :: k in keys && k in sessions && k.1 == epk && room in sessions[k] && Listed(room, skipDaemon)
  }

  ghost predicate HasId(rooms: seq<Room>, id: string) {
    exists r :: r in rooms && r.roomId == id
  }

  /** One machine's entry covers exactly the room ids stored for it under these keys, each once. */
  ghost predicate EntryOk(sessions: Sessions, keys: set<(Name, Epk)>, epk: Epk, skipDaemon: bool, relay: Name,
                          rooms: seq<Room>)
  {
    && (relay, epk) in keys
    && DistinctRooms(rooms)
    && (forall r :: r in rooms ==> Stored(sessions, keys, epk, skipDaemon, r))
    && (forall r :: Stored(sessions, keys, epk, skipDaemon, r) ==> HasId(rooms, r.roomId))
  }

  ghost predicate GroupingOk(sessions: Sessions, keys: set<(Name, Epk)>, skipDaemon: bool,
                             grouped: map<Epk, (Name, seq<Room>)>)
  {
    && (forall e :: e in grouped <==> exists k :: k in keys && k.1 == e)
    && (forall e :: e in grouped ==> EntryOk(sessions, keys, e, skipDaemon, grouped[e].0, grouped[e].1))
  }

  /** Adds one origin's rooms to a machine's entry, first occurrence of an id winning. */
  method MergeRooms(rooms: seq<Room>, more: seq<Room>, skipDaemon: bool) returns (merged: seq<Room>)
    requires DistinctRooms(rooms)
    ensures DistinctRooms(merged) && rooms <= merged
    ensures forall r :: r in merged ==> r in rooms || (r in more && Listed(r, skipDaemon))
    ensures forall r :: r in more && Listed(r, skipDaemon) ==> HasId(merged, r.roomId)
  {
    merged := rooms;
    var seen := set r | r in rooms :: r.roomId;
    var i := 0;
    while i < |more|
      invariant i <= |more|
      invariant DistinctRooms(merged) && rooms <= merged
      invariant forall id :: id in seen <==> HasId(merged, id)
      invariant forall r :: r in merged ==> r in rooms || (r in more && Listed(r, skipDaemon))
      invariant forall j :: 0 <= j < i && Listed(more[j], skipDaemon) ==> more[j].roomId in seen
    {
      var room := more[i];
      if room.roomId !in seen && !(skipDaemon && room.isDaemon) {
        ghost var before := merged;
        seen := seen + {room.roomId};
        merged := merged + [room];
        assert forall r :: r in merged <==> r in before || r == room;
        assert forall r :: r in before ==> HasId(before, r.roomId);
        forall id ensures id in seen <==> HasId(merged, id) {
          assert id == room.roomId ==> room in merged && HasId(merged, id);
          if id != room.roomId && HasId(before, id) {
            var r :| r in before && r.roomId == id;
            assert r in merged;
          }
        }
      }
      i := i + 1;
    }
    forall r | r in more && Listed(r, skipDaemon) ensures HasId(merged, r.roomId) {
      var j :| 0 <= j < |more| && more[j] == r;
    }
  }

  lemma OtherEntryKept(sessions: Sessions, done: set<(Name, Epk)>, key: (Name, Epk), epk: Epk, skipDaemon: bool,
                       relay: Name, rooms: seq<Room>)
    requires EntryOk(sessions, done, epk, skipDaemon, relay, rooms) && key.1 != epk
    ensures EntryOk(sessions, done + {key}, epk, skipDaemon, relay, rooms)
  {
    forall r
      ensures Stored(sessions, done + {key}, epk, skipDaemon, r) <==> Stored(sessions, done, epk, skipDaemon, r)
    {
      if Stored(sessions, done, epk, skipDaemon, r) {
        var k :| k in done && k in sessions && k.1 == epk && r in sessions[k];
        assert k in done + {key};
      }
    }
  }

  lemma EntryGrown(sessions: Sessions, done: set<(Name, Epk)>, key: (Name, Epk), skipDaemon: bool, relay: Name,
                   rooms: seq<Room>, merged: seq<Room>)
    requires key in sessions && (relay, key.1) in done + {key}
    requires DistinctRooms(merged) && rooms <= merged
    requires forall r :: r in rooms ==> Stored(sessions, done, key.1, skipDaemon, r)
    requires forall r :: Stored(sessions, done, key.1, skipDaemon, r) ==> HasId(rooms, r.roomId)
    requires forall r :: r in merged ==> r in rooms || (r in sessions[key] && Listed(r, skipDaemon))
    requires forall r :: r in sessions[key] && Listed(r, skipDaemon) ==> HasId(merged, r.roomId)
    ensures EntryOk(sessions, done + {key}, key.1, skipDaemon, relay, merged)
  {
    forall r | r in merged ensures Stored(sessions, done + {key}, key.1, skipDaemon, r) {
      if r in rooms {
        var k :| k in done && k in sessions && k.1 == key.1 && r in sessions[k];
        assert k in done + {key};
      } else {
        assert key in done + {key};
      }
    }
    forall r | Stored(sessions, done + {key}, key.1, skipDaemon, r) ensures HasId(merged, r.roomId) {
      var k :| k in done + {key} && k in sessions && k.1 == key.1 && r in sessions[k];
      if k != key {
        assert Stored(sessions, done, key.1, skipDaemon, r);
        var x :| x in rooms && x.roomId == r.roomId;
        assert x in merged;
      }
    }
  }

  /** Groups by machine in whatever order the table yields its entries. */
  method GroupSessionsByEpk(sessions: Sessions, skipDaemon: bool) returns (grouped: map<Epk, (Name, seq<Room>)>)
    ensures GroupingOk(sessions, sessions.Keys, skipDaemon, grouped)
  {
    grouped := map[];
    ghost var done: set<(Name, Epk)> := {};
    var todo := sessions.Keys;
    while todo != {}
      invariant todo !! done && todo + done == sessions.Keys
      invariant GroupingOk(sessions, done, skipDaemon, grouped)
    {
      var key :| key in todo;
      var (relay, rooms) := if key.1 in grouped then grouped[key.1] else (key.0, []);
      var merged := MergeRooms(rooms, sessions[key], skipDaemon);
      ghost var before := grouped;
      NewEntry(sessions, done, key, skipDaemon, grouped, relay, rooms);
      EntryGrown(sessions, done, key, skipDaemon, relay, rooms, merged);
      grouped := grouped[key.1 := (relay, merged)];
      GroupingGrown(sessions, done, key, skipDaemon, before, relay, merged);
      todo, done := todo - {key}, done + {key};
    }
    assert done == sessions.Keys;
  }

  lemma NewEntry(sessions: Sessions, done: set<(Name, Epk)>, key: (Name, Epk), skipDaemon: bool,
                 grouped: map<Epk, (Name, seq<Room>)>, relay: Name, rooms: seq<Room>)
    requires GroupingOk(sessions, done, skipDaemon, grouped) && key in sessions
    requires (relay, rooms) == if key.1 in grouped then grouped[key.1] else (key.0, [])
    ensures (relay, key.1) in done + {key} && DistinctRooms(rooms)
    ensures forall r :: r in rooms ==> Stored(sessions, done, key.1, skipDaemon, r)
    ensures forall r :: Stored(sessions, done, key.1, skipDaemon, r) ==> HasId(rooms, r.roomId)
  {
    if key.1 in grouped {
      assert EntryOk(sessions, done, key.1, skipDaemon, relay, rooms);
    }
  }

  lemma GroupingGrown(sessions: Sessions, done: set<(Name, Epk)>, key: (Name, Epk), skipDaemon: bool,
                      before: map<Epk, (Name, seq<Room>)>, relay: Name, merged: seq<Room>)
    requires GroupingOk(sessions, done, skipDaemon, before)
    requires EntryOk(sessions, done + {key}, key.1, skipDaemon, relay, merged)
    ensures GroupingOk(sessions, done + {key}, skipDaemon, before[key.1 := (relay, merged)])
  {
    var after := before[key.1 := (relay, merged)];
    forall e ensures e in after <==> exists k :: k in done + {key} && k.1 == e {
      if e in before {
        var k :| k in done && k.1 == e;
        assert k in done + {key};
      }
      assert key in done + {key};
    }
    forall e | e in after && e != key.1 ensures EntryOk(sessions, done + {key}, e, skipDaemon, after[e].0, after[e].1) {
      OtherEntryKept(sessions, done, key, e, skipDaemon, after[e].0, after[e].1);
    }
  }

  /** Whatever order was used, a machine appears exactly when it has sessions, and then it is routable. */
  lemma GroupedMachinesAreRoutable(own: Name, verify: Verifier, ops: seq<Op>, skipDaemon: bool,
                                   grouped: map<Epk, (Name, seq<Room>)>, e: Epk)
    requires var f := Run(own, verify, ops); GroupingOk(f.sessions, f.sessions.Keys, skipDaemon, grouped)
    ensures var f := Run(own, verify, ops);
            && (e in grouped <==> exists o :: (o, e) in f.sessions)
            && (e in grouped ==> e in f.routes && grouped[e].0 in f.routes[e])
  {
    RouteIndexRefinesSessions(own, verify, ops);
    var f := Run(own, verify, ops);
    if e in grouped {
      assert EntryOk(f.sessions, f.sessions.Keys, e, skipDaemon, grouped[e].0, grouped[e].1);
    }
  }

  /** A grouping that skips daemon rooms lists the stored others and no daemon; one that does not lists all. */
  lemma DaemonsAreSkipped(sessions: Sessions, skipDaemon: bool, grouped: map<Epk, (Name, seq<Room>)>, o: Name, e: Epk,
                          r: Room)
    requires GroupingOk(sessions, sessions.Keys, skipDaemon, grouped)
    ensures (o, e) in sessions && r in sessions[(o, e)] && !(skipDaemon && r.isDaemon) ==>
              e in grouped && exists x :: x in grouped[e].1 && x.roomId == r.roomId
    ensures e in grouped && r in grouped[e].1 ==>
              (skipDaemon ==> !r.isDaemon) && exists n :: (n, e) in sessions && r in sessions[(n, e)]
  {
    if e in grouped {
      assert EntryOk(sessions, sessions.Keys, e, skipDaemon, grouped[e].0, grouped[e].1);
      if r in grouped[e].1 {
        var k :| k in sessions && k.1 == e && r in sessions[k] && Listed(r, skipDaemon);
        assert (k.0, e) == k;
      }
    }
    if (o, e) in sessions && r in sessions[(o, e)] && !(skipDaemon && r.isDaemon) {
      assert Stored(sessions, sessions.Keys, e, skipDaemon, r);
    }
  }

  /** Two groupings of the same table list the same room ids for every machine: iteration order cannot show. */
  lemma GroupingsAgree(sessions: Sessions, skipDaemon: bool, one: map<Epk, (Name, seq<Room>)>,
                       two: map<Epk, (Name, seq<Room>)>, e: Epk, id: string)
    requires GroupingOk(sessions, sessions.Keys, skipDaemon, one)
    requires GroupingOk(sessions, sessions.Keys, skipDaemon, two)
    ensures e in one <==> e in two
    ensures e in one ==> (HasId(one[e].1, id) <==> HasId(two[e].1, id)) && |one[e].1| == |two[e].1|
  {
    if e in one {
      SameIds(sessions, skipDaemon, e, one[e], two[e]);
      SameIds(sessions, skipDaemon, e, two[e], one[e]);
      NoLonger(one[e].1, two[e].1);
      NoLonger(two[e].1, one[e].1);
    }
  }

  lemma SameIds(sessions: Sessions, skipDaemon: bool, e: Epk, one: (Name, seq<Room>), two: (Name, seq<Room>))
    requires EntryOk(sessions, sessions.Keys, e, skipDaemon, one.0, one.1)
    requires EntryOk(sessions, sessions.Keys, e, skipDaemon, two.0, two.1)
    ensures forall id :: HasId(one.1, id) ==> HasId(two.1, id)
  {
    forall id | HasId(one.1, id) ensures HasId(two.1, id) {
      var r :| r in one.1 && r.roomId == id;
      assert Stored(sessions, sessions.Keys, e, skipDaemon, r);
    }
  }

  lemma NoLonger(one: seq<Room>, two: seq<Room>)
    requires DistinctRooms(one) && forall id :: HasId(one, id) ==> HasId(two, id)
    ensures |one| <= |two|
  {
    var ids := seq(|one|, i requires 0 <= i < |one| => one[i].roomId);
    var domain := set r | r in two :: r.roomId;
    forall x | x in ids ensures x in domain {
      var i :| 0 <= i < |one| && one[i].roomId == x;
      assert one[i] in one && HasId(one, x);
    }
    NoDupFits(ids, domain);
    ImageNoLarger(two);
  }

  lemma {:induction false} ImageNoLarger(rooms: seq<Room>)
    ensures |set r | r in rooms :: r.roomId| <= |rooms|
  {
    if rooms != [] {
      ImageNoLarger(rooms[1..]);
      assert (set r | r in rooms :: r.roomId) == {rooms[0].roomId} + (set r | r in rooms[1..] :: r.roomId);
    } else {
      assert (set r | r in rooms :: r.roomId) == {};
    }
  }
}
