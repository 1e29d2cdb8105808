/**
 Which session a record is bound to, told by places in the queue, and that sessions announced while the
 parent is open get a room while those closed lose theirs.
 */
module SubagentMatching {
  import opened Base
  import opened SubagentModel

  // ── The session a record belongs to ───────────────────────────────────────

  predicate HasFile(s: State, sid: Sid, file: Option<File>) {
    file.Some? && sid in s.files && s.files[sid] == file.value
  }

  /** The first session in the queue whose file is the one the service names. */
  ghost predicate FirstOfFile(s: State, file: Option<File>, k: nat) {
    k < |s.unbound| && HasFile(s, s.unbound[k], file) && forall j :: 0 <= j < k ==> !HasFile(s, s.unbound[j], file)
  }

  /** The first session in the queue that has started. */
  ghost predicate FirstStarted(s: State, k: nat) {
    k < |s.unbound| && s.unbound[k] in s.tagged && forall j :: 0 <= j < k ==> s.unbound[j] !in s.tagged
  }

  ghost predicate NoneOfFile(s: State, file: Option<File>) {
    forall sid :: sid in s.unbound ==> !HasFile(s, sid, file)
  }

  ghost predicate NoneStarted(s: State) {
    forall sid :: sid in s.unbound ==> sid !in s.tagged
  }

  /** The record gets the `k`-th session of the queue, which leaves it; the others keep their places. */
  ghost predicate GetsPlace(s: State, t: State, id: RecordId, k: nat) {
    && k < |s.unbound|
    && t.bound == s.bound[id := s.unbound[k]]
    && t.unbound == s.unbound[..k] + s.unbound[k + 1..]
    && t.tagged == s.tagged - {s.unbound[k]}
  }

  lemma {:induction false} UnqueuedAt(queue: seq<Sid>, k: nat)
    requires NoDup(queue) && k < |queue|
    ensures Unqueued(queue, queue[k]) == queue[..k] + queue[k + 1..]
  {
    if k > 0 {
      assert queue[0] != queue[k] && queue[1..][k - 1] == queue[k];
      assert forall j :: 0 <= j < |queue[1..]| ==> queue[1..][j] == queue[j + 1];
      UnqueuedAt(queue[1..], k - 1);
      assert [queue[0]] + (queue[1..][..k - 1] + queue[1..][k..]) == queue[..k] + queue[k + 1..];
    }
  }

  lemma {:induction false} FileIsFirst(queue: seq<Sid>, files: map<Sid, File>, file: File) returns (k: nat)
    ensures k <= |queue| && forall j :: 0 <= j < k ==> !(queue[j] in files && files[queue[j]] == file)
    ensures k < |queue| ==> queue[k] in files && files[queue[k]] == file
    ensures FirstWithFile(queue, files, file) == if k < |queue| then Some(queue[k]) else None
  {
    if queue == [] || (queue[0] in files && files[queue[0]] == file) {
      k := 0;
    } else {
      k := FileIsFirst(queue[1..], files, file);
      k := k + 1;
    }
  }

  lemma {:induction false} TagIsFirst(queue: seq<Sid>, tagged: set<Sid>) returns (k: nat)
    ensures k <= |queue| && forall j :: 0 <= j < k ==> queue[j] !in tagged
    ensures k < |queue| ==> queue[k] in tagged
    ensures FirstTagged(queue, tagged) == if k < |queue| then Some(queue[k]) else None
  {
    if queue == [] || queue[0] in tagged {
      k := 0;
    } else {
      k := TagIsFirst(queue[1..], tagged);
      k := k + 1;
    }
  }

  lemma TakesPlace(s: State, id: RecordId, k: nat)
    requires NoDup(s.unbound) && k < |s.unbound|
    ensures GetsPlace(s, Take(s, id, Some(s.unbound[k])), id, k)
  {
    UnqueuedAt(s.unbound, k);
  }

  /** The record of an event that names no session, or one the panel does not know. */
  ghost predicate Unnamed(s: State, payloadSid: Option<Sid>) {
    payloadSid.Some? ==> payloadSid.value !in s.panel
  }

  lemma MatchedByFile(s: State, id: RecordId, status: Status, payloadSid: Option<Sid>, file: Option<File>, k: nat)
    requires id !in s.bound && Unnamed(s, payloadSid) && NoDup(s.unbound)
    requires file.Some? && FirstOfFile(s, file, k)
    ensures GetsPlace(s, OnRecord(s, id, status, payloadSid, file), id, k)
  {
    var i := FileIsFirst(s.unbound, s.files, file.value);
    assert i == k by {
      if i < k {
        assert HasFile(s, s.unbound[i], file);
      }
    }
    TakesPlace(s, id, k);
    assert OnRecord(s, id, status, payloadSid, file) == Take(s, id, Some(s.unbound[k]));
  }

  lemma MatchedByNone(s: State, id: RecordId, file: Option<File>)
    requires NoneOfFile(s, file)
    ensures BindByServiceMatch(s, id, file) == s
  {
    if file.Some? {
      var i := FileIsFirst(s.unbound, s.files, file.value);
      if i < |s.unbound| {
        assert s.unbound[i] in s.unbound && HasFile(s, s.unbound[i], file);
      }
    }
  }

  lemma MatchedByStart(s: State, id: RecordId, status: Status, payloadSid: Option<Sid>, file: Option<File>, k: nat)
    requires id !in s.bound && Unnamed(s, payloadSid) && NoDup(s.unbound)
    requires NoneOfFile(s, file) && (status == Started || status == Resumed) && FirstStarted(s, k)
    ensures GetsPlace(s, OnRecord(s, id, status, payloadSid, file), id, k)
  {
    MatchedByNone(s, id, file);
    var i := TagIsFirst(s.unbound, s.tagged);
    assert i == k;
    TakesPlace(s, id, k);
    assert OnRecord(s, id, status, payloadSid, file) == Take(s, id, Some(s.unbound[k]));
  }

  /**
   The session a record not yet bound is bound to: the one it names, if the panel has it; else the first in
   the queue whose file the service names; else, once it has started or resumed, the first in the queue that
   has started. A record bound before changes nothing, nor does one for which there is none of these.
   */
  lemma WhichSession(s: State, hash: Sid -> RoomId, id: RecordId, status: Status, payloadSid: Option<Sid>,
                     file: Option<File>, k: nat)
    requires !s.disposed && NoDup(s.unbound)
    ensures var t := Step(s, hash, Record(id, status, payloadSid, file));
            var on := status == Started || status == Resumed;
            && (id in s.bound ==> t == s)
            && (id !in s.bound && !Unnamed(s, payloadSid) ==> t.bound == s.bound[id := payloadSid.value])
            && (id !in s.bound && Unnamed(s, payloadSid) && FirstOfFile(s, file, k) ==> GetsPlace(s, t, id, k))
            && (id !in s.bound && Unnamed(s, payloadSid) && NoneOfFile(s, file) && on && FirstStarted(s, k)
                ==> GetsPlace(s, t, id, k))
            && (id !in s.bound && Unnamed(s, payloadSid) && NoneOfFile(s, file) && (on ==> NoneStarted(s)) ==> t == s)
  {
    if id !in s.bound && Unnamed(s, payloadSid) {
      if file.Some? && FirstOfFile(s, file, k) {
        MatchedByFile(s, id, status, payloadSid, file, k);
        assert !NoneOfFile(s, file) by {
          assert s.unbound[k] in s.unbound;
        }
      } else if NoneOfFile(s, file) {
        MatchedByNone(s, id, file);
        if (status == Started || status == Resumed) && FirstStarted(s, k) {
          MatchedByStart(s, id, status, payloadSid, file, k);
          assert s.unbound[k] in s.unbound;
        } else if NoneStarted(s) {
          var i := TagIsFirst(s.unbound, s.tagged);
        }
      }
    }
  }

  /** So a record whose file some waiting session has is bound to a session of that file. */
  lemma FileDecides(s: State, hash: Sid -> RoomId, id: RecordId, status: Status, file: File, x: Sid)
    requires !s.disposed && id !in s.bound && NoDup(s.unbound)
    requires x in s.unbound && x in s.files && s.files[x] == file
    ensures var t := Step(s, hash, Record(id, status, None, Some(file)));
            id in t.bound && t.bound[id] in s.unbound && HasFile(s, t.bound[id], Some(file))
  {
    var k := FileIsFirst(s.unbound, s.files, file);
    assert FirstOfFile(s, Some(file), k);
    WhichSession(s, hash, id, status, None, Some(file), k);
  }

  // ── Waiting for a record ──────────────────────────────────────────────────

  /** The queue once a session has been announced: at the end, unless it waits already or is bound. */
  function Announced(s: State, sid: Sid): seq<Sid> {
    if sid in s.bound.Values || sid in s.unbound then s.unbound else s.unbound + [sid]
  }

  /** A marker without a record's id puts its session in the queue, and on the panel, and no more. */
  lemma MarkerAnnounces(s: State, hash: Sid -> RoomId, sid: Sid, parentUp: bool)
    requires !s.disposed
    ensures var t := Step(s, hash, Marker(sid, None, parentUp));
            && t.unbound == Announced(s, sid) && t.bound == s.bound && t.tagged == s.tagged && t.files == s.files
            && (forall x :: x in t.panel <==> x in s.panel || x == sid)
            && (!parentUp ==> t.builds == s.builds && t.building == s.building)
  {
    var listed := Listed(s, hash, sid);
    assert QueueFromMarker(listed, sid, None) == listed.(unbound := Announced(s, sid));
  }

  /**
   A session start remembers the session's file; while the parent is open it also puts the session in the
   queue, as started unless it is bound, and on the panel.
   */
  lemma StartAnnounces(s: State, hash: Sid -> RoomId, sid: Sid, file: Option<File>, parentUp: bool)
    requires !s.disposed
    ensures var t := Step(s, hash, SessionStart(sid, file, parentUp));
            && t.bound == s.bound && sid in t.inProcess && sid !in t.released
            && (forall x :: x in t.files <==> x in s.files || (x == sid && file.Some?))
            && (file.Some? ==> t.files[sid] == file.value)
            && (forall x :: x in s.files && !(x == sid && file.Some?) ==> t.files[x] == s.files[x])
            && t.unbound == (if parentUp then Announced(s, sid) else s.unbound)
            && t.tagged == s.tagged + (if parentUp && sid !in s.bound.Values then {sid} else {})
            && (forall x :: x in t.panel <==> x in s.panel || (parentUp && x == sid))
            && (!parentUp ==> t.builds == s.builds && t.building == s.building)
  {
    var seen := Seen(s, sid, file);
    var queued := QueueFromStart(seen, sid);
    assert queued == seen.(unbound := Announced(s, sid), tagged := queued.tagged);
  }

  /** A room goes by its session's own id whatever id is put forward; only an empty one is left as it is. */
  lemma OnlyOwnRoomIds(hash: Sid -> RoomId, sid: Sid, candidate: Option<RoomId>)
    ensures Normalize(hash, sid, candidate) == if candidate == Some("") then "" else hash(sid)
  {
  }

  // ── Getting a room ────────────────────────────────────────────────────────

  /** Every room on the way has a build that will finish, under a number not given out again. */
  ghost predicate BuildsRight(s: State) {
    && (forall sid :: sid in s.building ==> exists b :: b in s.builds && s.builds[b].sid == sid)
    && (forall b :: b in s.builds ==> b < s.nextBuild)
  }

  lemma EnsureKeepsBuilds(s: State, hash: Sid -> RoomId, sid: Sid, candidate: RoomId)
    requires BuildsRight(s)
    ensures BuildsRight(EnsureChildRoom(s, hash, sid, candidate))
  {
    var t := EnsureChildRoom(s, hash, sid, candidate);
    forall x | x in t.building ensures exists b :: b in t.builds && t.builds[b].sid == x {
      if x in s.building {
        var b :| b in s.builds && s.builds[b].sid == x;
        assert b in t.builds && t.builds[b] == s.builds[b];
      } else {
        assert s.nextBuild in t.builds && t.builds[s.nextBuild].sid == x;
      }
    }
  }

  /** Nothing about builds under way is different. */
  lemma SameBuilds(s: State, t: State)
    requires BuildsRight(s) && t.building <= s.building && t.builds == s.builds && t.nextBuild == s.nextBuild
    ensures BuildsRight(t)
  {
  }

  lemma DoneKeepsBuilds(s: State, b: nat)
    requires BuildsRight(s)
    ensures BuildsRight(OnBuildDone(s, b))
  {
    var t := OnBuildDone(s, b);
    forall x | x in t.building ensures exists c :: c in t.builds && t.builds[c].sid == x {
      var c :| c in s.builds && s.builds[c].sid == x;
      assert c in t.builds;
    }
  }

  lemma StepKeepsBuilds(s: State, hash: Sid -> RoomId, e: Event)
    requires BuildsRight(s)
    ensures BuildsRight(Step(s, hash, e))
  {
    match e
    case Marker(sid, id, parentUp) =>
      var queued := QueueFromMarker(Listed(s, hash, sid), sid, id);
      SameBuilds(s, queued);
      EnsureKeepsBuilds(queued, hash, sid, Normalize(hash, sid, RowOf(s, sid)));
    case SessionStart(sid, file, parentUp) =>
      var seen := Seen(s, sid, file);
      SameBuilds(s, seen);
      var listed := Listed(QueueFromStart(seen, sid), hash, sid);
      SameBuilds(seen, listed);
      EnsureKeepsBuilds(listed, hash, sid, Normalize(hash, sid, RowOf(s, sid)));
    case Record(id, status, payloadSid, file) => SameBuilds(s, Step(s, hash, e));
    case BuildDone(b) => DoneKeepsBuilds(s, b);
    case _ => SameBuilds(s, Step(s, hash, e));
  }

  lemma {:induction false} RunKeepsBuilds(s: State, hash: Sid -> RoomId, es: seq<Event>)
    requires BuildsRight(s)
    ensures BuildsRight(Run(s, hash, es))
    decreases |es|
  {
    if es != [] {
      StepKeepsBuilds(s, hash, es[0]);
      RunKeepsBuilds(Step(s, hash, es[0]), hash, es[1..]);
    }
  }

  /** The event announces the session while the parent is open. */
  predicate Announces(e: Event, sid: Sid) {
    match e
    case Marker(x, _, parentUp) => x == sid && parentUp
    case SessionStart(x, _, parentUp) => x == sid && parentUp
    case _ => false
  }

  lemma EnsureGivesABuild(s: State, hash: Sid -> RoomId, sid: Sid, candidate: RoomId)
    requires BuildsRight(s)
    ensures GainsABuild(s, EnsureChildRoom(s, hash, sid, candidate), sid)
  {
  }

  ghost predicate GainsABuild(s: State, t: State, sid: Sid) {
    && (sid in t.children || sid in t.building) && t.children == s.children
    && (sid in s.children || sid in s.building ==> t.builds == s.builds)
    && (forall b :: b in s.builds ==> b in t.builds && t.builds[b] == s.builds[b])
  }

  /** A session so announced has a room or one on the way; one more build is under way only if it had neither. */
  lemma AnnouncedGetsABuild(s: State, hash: Sid -> RoomId, e: Event, sid: Sid)
    requires !s.disposed && Announces(e, sid) && BuildsRight(s)
    ensures GainsABuild(s, Step(s, hash, e), sid)
  {
    match e
    case Marker(_, id, _) =>
      var queued := QueueFromMarker(Listed(s, hash, sid), sid, id);
      EnsureGivesABuild(queued, hash, sid, Normalize(hash, sid, RowOf(s, sid)));
    case SessionStart(_, file, _) =>
      var listed := Listed(QueueFromStart(Seen(s, sid, file), sid), hash, sid);
      EnsureGivesABuild(listed, hash, sid, Normalize(hash, sid, RowOf(s, sid)));
  }

  /** A finished build opens its session's room, unless all or the session has been closed meanwhile. */
  lemma FinishedBuildOpens(s: State, hash: Sid -> RoomId, b: nat)
    requires b in s.builds
    ensures var t, sid := Step(s, hash, BuildDone(b)), s.builds[b].sid;
            && t.children == (if s.disposed || sid in s.released then s.children
                              else s.children[sid := s.builds[b].roomId])
            && b !in t.builds
  {
  }

  /** After any events a session that starts while the parent is open has its room, or gets it from some build. */
  lemma StartedSessionsGetRooms(hash: Sid -> RoomId, es: seq<Event>, sid: Sid, file: Option<File>)
    requires !Run(START, hash, es).disposed
    ensures var s := Run(START, hash, es + [SessionStart(sid, file, true)]);
            || (sid in s.children && s.children[sid] == hash(sid))
            || exists b :: b in s.builds && OpensRoom(s, hash, b, sid)
  {
    var e := SessionStart(sid, file, true);
    var was := Run(START, hash, es);
    RunSnoc(START, hash, es, e);
    RunKeepsBuilds(START, hash, es);
    RunKeepsRooms(START, hash, es);
    StepKeepsBuilds(was, hash, e);
    StepKeepsRooms(was, hash, e);
    AnnouncedGetsABuild(was, hash, e, sid);
    StartAnnounces(was, hash, sid, file, true);
    var s := Step(was, hash, e);
    if sid !in s.children {
      var b :| b in s.builds && s.builds[b].sid == sid;
      FinishedBuildOpens(s, hash, b);
      assert OpensRoom(s, hash, b, sid);
    }
  }

  ghost predicate OpensRoom(s: State, hash: Sid -> RoomId, b: nat, sid: Sid) {
    var t := Step(s, hash, BuildDone(b));
    sid in t.children && t.children[sid] == hash(sid)
  }

  // ── Losing it ─────────────────────────────────────────────────────────────

  /** The session is closed for good: no room, none on the way, and no build of it will be registered. */
  ghost predicate Closed(s: State, t: State, sid: Sid) {
    && sid in t.released && sid !in t.children && sid !in t.building
    && t == s.(released := s.released + {sid}, children := s.children - {sid}, building := s.building - {sid})
  }

  /**
   A disposed session is closed unless it started in this process; a close from the app closes it exactly if
   the gate allows and the room named is not another's; and a room that closes takes along only itself.
   */
  lemma WhatCloses(s: State, hash: Sid -> RoomId, sid: Sid, roomId: RoomId, allowed: bool)
    ensures var t := Step(s, hash, SubagentModel.Disposed(sid));
            if s.disposed || sid in s.inProcess then t == s else Closed(s, t, sid)
    ensures var t := Step(s, hash, Terminate(sid, roomId, allowed));
            if allowed && (sid in s.children ==> s.children[sid] == roomId) then Closed(s, t, sid) else t == s
    ensures var t := Step(s, hash, RoomClosed(sid));
            t == s.(children := t.children) && forall x :: x in t.children <==> x in s.children && x != sid
  {
  }

  /** After teardown there is no room, and no event brings one or binds a record. */
  lemma {:induction false} TornDownForGood(s: State, hash: Sid -> RoomId, es: seq<Event>)
    requires s.disposed && s.children == map[]
    ensures var t := Run(s, hash, es);
            && t.disposed && t.children == map[] && t.bound == s.bound && t.unbound == s.unbound
    decreases |es|
  {
    if es != [] {
      var t := Step(s, hash, es[0]);
      assert t.disposed && t.bound == s.bound && t.unbound == s.unbound;
      assert forall x :: x !in t.children;
      TornDownForGood(t, hash, es[1..]);
    }
  }

  lemma TeardownClearsRooms(hash: Sid -> RoomId, before: seq<Event>, after: seq<Event>)
    ensures var t := Run(Run(START, hash, before + [DisposeAll]), hash, after);
            t.disposed && t.children == map[]
  {
    RunSnoc(START, hash, before, DisposeAll);
    TornDownForGood(Run(START, hash, before + [DisposeAll]), hash, after);
  }
}
