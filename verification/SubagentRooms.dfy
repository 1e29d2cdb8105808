/** The subagent controller, in place, proved against the events of `SubagentModel`. */
module SubagentRooms {
  import opened Base
  import opened SubagentModel

  class Controller {
    const hash: Sid -> RoomId
    var unbound: seq<Sid>
    var tagged: set<Sid>
    var bound: map<RecordId, Sid>
    var files: map<Sid, File>
    var panel: map<Sid, RoomId>
    var children: map<Sid, RoomId>
    var building: set<Sid>
    var inProcess: set<Sid>
    var released: set<Sid>
    var builds: map<nat, Build>
    var nextBuild: nat
    var disposed: bool

    ghost function View(): State
      reads this
    {
      State(unbound, tagged, bound, files, panel, children, building, inProcess, released, builds, nextBuild, disposed)
    }

    constructor (roomIdForSession: Sid -> RoomId)
      ensures View() == START && hash == roomIdForSession
    {
      hash := roomIdForSession;
      unbound, tagged, bound, files, panel := [], {}, map[], map[], map[];
      children, building, inProcess, released := map[], {}, {}, {};
      builds, nextBuild, disposed := map[], 0, false;
    }

    /** Takes the first entry of `sid` out of the queue. */
    method Unqueue(sid: Sid)
      modifies this`unbound
      ensures unbound == Unqueued(old(unbound), sid)
    {
      var i := 0;
      while i < |unbound| && unbound[i] != sid
        invariant i <= |unbound|
        invariant Unqueued(unbound, sid) == unbound[..i] + Unqueued(unbound[i..], sid)
      {
        assert unbound[i..][1..] == unbound[i + 1..];
        assert unbound[..i + 1] == unbound[..i] + [unbound[i]];
        i := i + 1;
      }
      if i < |unbound| {
        assert unbound[i..][1..] == unbound[i + 1..];
        unbound := unbound[..i] + unbound[i + 1..];
      } else {
        assert unbound[..i] + unbound[i..] == unbound;
      }
    }

    method BindRecord(id: RecordId, sid: Sid)
      modifies this`bound, this`unbound
      ensures View() == SubagentModel.BindRecord(old(View()), id, sid)
    {
      bound := bound[id := sid];
      Unqueue(sid);
    }

    method FindByFile(file: File) returns (sid: Option<Sid>)
      ensures sid == FirstWithFile(unbound, files, file)
    {
      var i := 0;
      while i < |unbound|
        invariant i <= |unbound| && FirstWithFile(unbound, files, file) == FirstWithFile(unbound[i..], files, file)
      {
        if unbound[i] in files && files[unbound[i]] == file {
          return Some(unbound[i]);
        }
        assert unbound[i..][1..] == unbound[i + 1..];
        i := i + 1;
      }
      sid := None;
    }

    method FindTagged() returns (sid: Option<Sid>)
      ensures sid == FirstTagged(unbound, tagged)
    {
      var i := 0;
      while i < |unbound|
        invariant i <= |unbound| && FirstTagged(unbound, tagged) == FirstTagged(unbound[i..], tagged)
      {
        if unbound[i] in tagged {
          return Some(unbound[i]);
        }
        assert unbound[i..][1..] == unbound[i + 1..];
        i := i + 1;
      }
      sid := None;
    }

    /** The record's session file is that of a waiting session: an exact match. */
    method BindByServiceMatch(id: RecordId, file: Option<File>)
      modifies this`bound, this`unbound, this`tagged
      ensures View() == SubagentModel.BindByServiceMatch(old(View()), id, file)
    {
      if file.None? {
        return;
      }
      var sid := FindByFile(file.value);
      if sid.None? {
        return;
      }
      tagged := tagged - {sid.value};
      BindRecord(id, sid.value);
    }

    method EnsureChildRoom(sid: Sid, candidate: RoomId)
      modifies this`building, this`builds, this`nextBuild
      ensures View() == SubagentModel.EnsureChildRoom(old(View()), hash, sid, candidate)
    {
      if sid in children || sid in building {
        return;
      }
      building := building + {sid};
      builds := builds[nextBuild := Build(sid, Normalize(hash, sid, Some(candidate)))];
      nextBuild := nextBuild + 1;
    }

    method OnChildMarker(sid: Sid, record: Option<RecordId>, parentUp: bool)
      modifies this
      ensures View() == Step(old(View()), hash, Marker(sid, record, parentUp))
    {
      if disposed {
        return;
      }
      ghost var was := View();
      var room := Normalize(hash, sid, if sid in panel then Some(panel[sid]) else None);
      panel := panel[sid := room];
      assert View() == Listed(was, hash, sid);
      if record.Some? {
        BindRecord(record.value, sid);
      } else if sid !in bound.Values && sid !in unbound {
        unbound := unbound + [sid];
      }
      assert View() == QueueFromMarker(Listed(was, hash, sid), sid, record);
      if parentUp {
        EnsureChildRoom(sid, room);
      }
    }

    method OnChildSession(sid: Sid, file: Option<File>, parentUp: bool)
      modifies this
      ensures View() == Step(old(View()), hash, SessionStart(sid, file, parentUp))
    {
      if disposed {
        return;
      }
      ghost var was := View();
      inProcess := inProcess + {sid};
      released := released - {sid};
      if file.Some? {
        files := files[sid := file.value];
      }
      assert View() == Seen(was, sid, file);
      if !parentUp {
        return;
      }
      if sid !in bound.Values {
        if sid !in unbound {
          unbound := unbound + [sid];
        }
        tagged := tagged + {sid};
      }
      assert View() == QueueFromStart(Seen(was, sid, file), sid);
      var room := Normalize(hash, sid, if sid in panel then Some(panel[sid]) else None);
      panel := panel[sid := room];
      assert View() == Listed(QueueFromStart(Seen(was, sid, file), sid), hash, sid);
      EnsureChildRoom(sid, room);
    }

    method OnRecord(id: RecordId, status: Status, payloadSid: Option<Sid>, serviceFile: Option<File>)
      modifies this
      ensures View() == Step(old(View()), hash, Record(id, status, payloadSid, serviceFile))
    {
      if disposed {
        return;
      }
      if id !in bound {
        if payloadSid.Some? && payloadSid.value in panel {
          BindRecord(id, payloadSid.value);
        } else {
          BindByServiceMatch(id, serviceFile);
        }
      }
      if status == Started || status == Resumed {
        if id !in bound {
          var sid := FindTagged();
          if sid.Some? {
            tagged := tagged - {sid.value};
            BindRecord(id, sid.value);
          }
        }
      }
    }

    method ReleaseRoom(sid: Sid)
      modifies this`released, this`children, this`building
      ensures View() == Release(old(View()), sid)
    {
      released := released + {sid};
      children := children - {sid};
      building := building - {sid};
    }

    method OnChildDisposed(sid: Sid)
      modifies this
      ensures View() == Step(old(View()), hash, Disposed(sid))
    {
      if disposed || sid in inProcess {
        return;
      }
      ReleaseRoom(sid);
    }

    /** Says whether the session was released. */
    method TerminateChildRoom(sid: Sid, roomId: RoomId, allowed: bool) returns (ok: bool)
      modifies this
      ensures View() == Step(old(View()), hash, Terminate(sid, roomId, allowed))
      ensures ok ==> sid in released && sid !in children
    {
      if !allowed || (sid in children && children[sid] != roomId) {
        return false;
      }
      ReleaseRoom(sid);
      ok := true;
    }

    /** The continuation of a room build. */
    method OnBuilt(build: nat)
      modifies this
      ensures View() == Step(old(View()), hash, BuildDone(build))
    {
      if build !in builds {
        return;
      }
      var sid, roomId := builds[build].sid, builds[build].roomId;
      builds := builds - {build};
      building := building - {sid};
      if disposed || sid in released {
        return;
      }
      children := children[sid := roomId];
    }

    /** A room's connection has closed. */
    method OnRoomClosed(sid: Sid)
      modifies this
      ensures View() == Step(old(View()), hash, RoomClosed(sid))
    {
      children := children - {sid};
    }

    method Dispose()
      modifies this
      ensures View() == Step(old(View()), hash, DisposeAll)
    {
      disposed := true;
      children := map[];
    }
  }
}
