/**
 Subagent sessions and the records that announce them: which record is bound to which session, and
 which sessions have a room, over every order of events and room builds.
 */
module SubagentModel {
  import opened Base

  /** Ids and paths are only ever compared. */
  type Sid(==, !new)
  type RecordId(==, !new)
  type File(==, !new)
  type RoomId = string

  /** A room being opened for a session; it is registered, or closed again, when it is up. */
  datatype Build = Build(sid: Sid, roomId: RoomId)

  datatype State = State(
    unbound: seq<Sid>,
    tagged: set<Sid>,
    bound: map<RecordId, Sid>,
    files: map<Sid, File>,
    panel: map<Sid, RoomId>,
    children: map<Sid, RoomId>,
    building: set<Sid>,
    inProcess: set<Sid>,
    released: set<Sid>,
    builds: map<nat, Build>,
    nextBuild: nat,
    disposed: bool)

  const START := State([], {}, map[], map[], map[], map[], {}, {}, {}, map[], 0, false)

  datatype Status = Created | Started | Resumed | OtherStatus(name: string)

  /**
   `parentUp`: whether the parent room is open. `serviceFile`: the session file the subagent service
   knows for the record, if it is there to be asked.
   */
  datatype Event =
    | Marker(sid: Sid, record: Option<RecordId>, parentUp: bool)
    | SessionStart(sid: Sid, file: Option<File>, parentUp: bool)
    | Record(id: RecordId, status: Status, payloadSid: Option<Sid>, serviceFile: Option<File>)
    | Disposed(sid: Sid)
    | Terminate(sid: Sid, roomId: RoomId, allowed: bool)
    | BuildDone(build: nat)
    | RoomClosed(sid: Sid)
    | DisposeAll

  // ── Pieces ────────────────────────────────────────────────────────────────

  /** A foreign room id is refused; an empty one is not, and stays empty. */
  function Normalize(hash: Sid -> RoomId, sid: Sid, candidate: Option<RoomId>): RoomId {
    match candidate
    case None => hash(sid)
    case Some(c) => if c != "" && c != hash(sid) then hash(sid) else c
  }

  /** The queue without the first entry of `sid`. */
  function Unqueued(queue: seq<Sid>, sid: Sid): seq<Sid> {
    if queue == [] then []
    else if queue[0] == sid then queue[1..]
    else [queue[0]] + Unqueued(queue[1..], sid)
  }

  function BindRecord(s: State, id: RecordId, sid: Sid): State {
    s.(bound := s.bound[id := sid], unbound := Unqueued(s.unbound, sid))
  }

  /** The first queued session whose file is `file`. */
  function FirstWithFile(queue: seq<Sid>, files: map<Sid, File>, file: File): Option<Sid> {
    if queue == [] then None
    else if queue[0] in files && files[queue[0]] == file then Some(queue[0])
    else FirstWithFile(queue[1..], files, file)
  }

  function FirstTagged(queue: seq<Sid>, tagged: set<Sid>): Option<Sid> {
    if queue == [] then None
    else if queue[0] in tagged then Some(queue[0])
    else FirstTagged(queue[1..], tagged)
  }

  /** Only who waits and who is bound differs. */
  ghost predicate OnlyBindings(s: State, t: State) {
    t == s.(unbound := t.unbound, tagged := t.tagged, bound := t.bound)
  }

  function Take(s: State, id: RecordId, sid: Option<Sid>): (t: State)
    ensures OnlyBindings(s, t)
  {
    match sid
    case None => s
    case Some(x) => BindRecord(s.(tagged := s.tagged - {x}), id, x)
  }

  function BindByServiceMatch(s: State, id: RecordId, file: Option<File>): (t: State)
    ensures OnlyBindings(s, t)
  {
    match file
    case None => s
    case Some(f) => Take(s, id, FirstWithFile(s.unbound, s.files, f))
  }

  /** A child that has a room, or one on the way, gets no other. */
  function EnsureChildRoom(s: State, hash: Sid -> RoomId, sid: Sid, candidate: RoomId): (t: State)
    ensures t == s.(building := t.building, builds := t.builds, nextBuild := t.nextBuild)
  {
    if sid in s.children || sid in s.building then s
    else s.(building := s.building + {sid},
            builds := s.builds[s.nextBuild := Build(sid, Normalize(hash, sid, Some(candidate)))],
            nextBuild := s.nextBuild + 1)
  }

  function RowOf(s: State, sid: Sid): Option<RoomId> {
    if sid in s.panel then Some(s.panel[sid]) else None
  }

  // ── The events ────────────────────────────────────────────────────────────

  /** The panel has a row for the session, under its own room id. */
  function Listed(s: State, hash: Sid -> RoomId, sid: Sid): State {
    s.(panel := s.panel[sid := Normalize(hash, sid, RowOf(s, sid))])
  }

  function QueueFromMarker(s: State, sid: Sid, record: Option<RecordId>): State {
    if record.Some? then BindRecord(s, record.value, sid)
    else if sid !in s.bound.Values && sid !in s.unbound then s.(unbound := s.unbound + [sid])
    else s
  }

  function OnMarker(s: State, hash: Sid -> RoomId, sid: Sid, record: Option<RecordId>, parentUp: bool): State {
    var queued := QueueFromMarker(Listed(s, hash, sid), sid, record);
    if parentUp then EnsureChildRoom(queued, hash, sid, Normalize(hash, sid, RowOf(s, sid))) else queued
  }

  function Seen(s: State, sid: Sid, file: Option<File>): State {
    s.(inProcess := s.inProcess + {sid}, released := s.released - {sid},
       files := if file.Some? then s.files[sid := file.value] else s.files)
  }

  function QueueFromStart(s: State, sid: Sid): State {
    if sid in s.bound.Values then s
    else s.(unbound := PushNew(s.unbound, sid), tagged := s.tagged + {sid})
  }

  function OnSession(s: State, hash: Sid -> RoomId, sid: Sid, file: Option<File>, parentUp: bool): State {
    var seen := Seen(s, sid, file);
    if !parentUp then seen
    else EnsureChildRoom(Listed(QueueFromStart(seen, sid), hash, sid), hash, sid, Normalize(hash, sid, RowOf(s, sid)))
  }

  function OnRecord(s: State, id: RecordId, status: Status, payloadSid: Option<Sid>,
                    serviceFile: Option<File>): (t: State)
    ensures OnlyBindings(s, t)
  {
    var matched :=
      if id in s.bound then s
      else if payloadSid.Some? && payloadSid.value in s.panel then BindRecord(s, id, payloadSid.value)
      else BindByServiceMatch(s, id, serviceFile);
    if (status == Started || status == Resumed) && id !in matched.bound
    then Take(matched, id, FirstTagged(matched.unbound, matched.tagged))
    else matched
  }

  /** Closes the session's room for good: builds still under way are not registered. */
  function Release(s: State, sid: Sid): State {
    s.(released := s.released + {sid}, children := s.children - {sid}, building := s.building - {sid})
  }

  /** A room is up: it is registered unless the session, or everything, was closed meanwhile. */
  function OnBuildDone(s: State, b: nat): State {
    if b !in s.builds then s
    else
      var sid, roomId := s.builds[b].sid, s.builds[b].roomId;
      var done := s.(builds := s.builds - {b}, building := s.building - {sid});
      if s.disposed || sid in s.released then done
      else done.(children := s.children[sid := roomId])
  }

  function Step(s: State, hash: Sid -> RoomId, e: Event): State {
    match e
    case Marker(sid, id, parentUp) => if s.disposed then s else OnMarker(s, hash, sid, id, parentUp)
    case SessionStart(sid, file, parentUp) => if s.disposed then s else OnSession(s, hash, sid, file, parentUp)
    case Record(id, status, payloadSid, file) => if s.disposed then s else OnRecord(s, id, status, payloadSid, file)
    case Disposed(sid) => if s.disposed || sid in s.inProcess then s else Release(s, sid)
    case Terminate(sid, roomId, allowed) =>
      if !allowed || (sid in s.children && s.children[sid] != roomId) then s else Release(s, sid)
    case BuildDone(b) => OnBuildDone(s, b)
    case RoomClosed(sid) => s.(children := s.children - {sid})
    case DisposeAll => s.(disposed := true, children := map[])
  }

  function Run(s: State, hash: Sid -> RoomId, es: seq<Event>): State
    decreases |es|
  {
    if es == [] then s else Run(Step(s, hash, es[0]), hash, es[1..])
  }

  // ── Rooms ─────────────────────────────────────────────────────────────────

  /** No released session has a room, and every room is the one its session names. */
  ghost predicate RoomsRight(s: State, hash: Sid -> RoomId) {
    && (forall sid :: sid in s.released ==> sid !in s.children)
    && (forall sid :: sid in s.children ==> s.children[sid] == hash(sid))
    && (forall sid :: sid in s.panel ==> s.panel[sid] == hash(sid))
    && (forall b :: b in s.builds ==> s.builds[b].roomId == hash(s.builds[b].sid))
    && (s.disposed ==> s.children == map[])
  }

  lemma EnsureKeepsRooms(s: State, hash: Sid -> RoomId, sid: Sid)
    requires RoomsRight(s, hash)
    ensures RoomsRight(EnsureChildRoom(s, hash, sid, hash(sid)), hash)
  {
    assert Normalize(hash, sid, Some(hash(sid))) == hash(sid);
  }

  lemma ListedKeepsRooms(s: State, hash: Sid -> RoomId, sid: Sid)
    requires RoomsRight(s, hash)
    ensures Normalize(hash, sid, RowOf(s, sid)) == hash(sid)
    ensures RoomsRight(Listed(s, hash, sid), hash)
  {
  }

  lemma MarkerKeepsRooms(s: State, hash: Sid -> RoomId, sid: Sid, record: Option<RecordId>, parentUp: bool)
    requires RoomsRight(s, hash)
    ensures RoomsRight(OnMarker(s, hash, sid, record, parentUp), hash)
  {
    ListedKeepsRooms(s, hash, sid);
    var queued := QueueFromMarker(Listed(s, hash, sid), sid, record);
    OnlyBindingsKeepsRooms(Listed(s, hash, sid), queued, hash);
    EnsureKeepsRooms(queued, hash, sid);
  }

  lemma SeenKeepsRooms(s: State, hash: Sid -> RoomId, sid: Sid, file: Option<File>)
    requires RoomsRight(s, hash)
    ensures RoomsRight(Seen(s, sid, file), hash)
  {
  }

  lemma SessionKeepsRooms(s: State, hash: Sid -> RoomId, sid: Sid, file: Option<File>, parentUp: bool)
    requires RoomsRight(s, hash)
    ensures RoomsRight(OnSession(s, hash, sid, file, parentUp), hash)
  {
    var seen := Seen(s, sid, file);
    SeenKeepsRooms(s, hash, sid, file);
    var queued := QueueFromStart(seen, sid);
    OnlyBindingsKeepsRooms(seen, queued, hash);
    ListedKeepsRooms(s, hash, sid);
    ListedKeepsRooms(queued, hash, sid);
    EnsureKeepsRooms(Listed(queued, hash, sid), hash, sid);
  }

  lemma ReleaseKeepsRooms(s: State, hash: Sid -> RoomId, sid: Sid)
    requires RoomsRight(s, hash)
    ensures RoomsRight(Release(s, sid), hash)
  {
  }

  lemma OnlyBindingsKeepsRooms(s: State, t: State, hash: Sid -> RoomId)
    requires RoomsRight(s, hash) && OnlyBindings(s, t)
    ensures RoomsRight(t, hash)
  {
  }

  lemma BuildDoneKeepsRooms(s: State, hash: Sid -> RoomId, b: nat)
    requires RoomsRight(s, hash)
    ensures RoomsRight(OnBuildDone(s, b), hash)
  {
  }

  lemma StepKeepsRooms(s: State, hash: Sid -> RoomId, e: Event)
    requires RoomsRight(s, hash)
    ensures RoomsRight(Step(s, hash, e), hash)
  {
    match e
    case Marker(sid, id, parentUp) => MarkerKeepsRooms(s, hash, sid, id, parentUp);
    case SessionStart(sid, file, parentUp) => SessionKeepsRooms(s, hash, sid, file, parentUp);
    case Record(id, status, payloadSid, file) =>
      OnlyBindingsKeepsRooms(s, OnRecord(s, id, status, payloadSid, file), hash);
    case Disposed(sid) => ReleaseKeepsRooms(s, hash, sid);
    case Terminate(sid, _, _) => ReleaseKeepsRooms(s, hash, sid);
    case BuildDone(b) => BuildDoneKeepsRooms(s, hash, b);
    case RoomClosed(_) =>
    case DisposeAll =>
  }

  /** However builds and releases interleave, a released session never has a room. */
  lemma {:induction false} RunKeepsRooms(s: State, hash: Sid -> RoomId, es: seq<Event>)
    requires RoomsRight(s, hash)
    ensures RoomsRight(Run(s, hash, es), hash)
    decreases |es|
  {
    if es != [] {
      StepKeepsRooms(s, hash, es[0]);
      RunKeepsRooms(Step(s, hash, es[0]), hash, es[1..]);
    }
  }

  /** So closing a session's own room is never refused as foreign. */
  lemma OwnRoomIsNeverForeign(hash: Sid -> RoomId, es: seq<Event>, sid: Sid)
    ensures sid in Run(START, hash, es + [Terminate(sid, hash(sid), true)]).released
    ensures sid !in Run(START, hash, es + [Terminate(sid, hash(sid), true)]).children
  {
    var last := Terminate(sid, hash(sid), true);
    RunKeepsRooms(START, hash, es);
    RunSnoc(START, hash, es, last);
  }

  lemma {:induction false} RunSnoc(s: State, hash: Sid -> RoomId, es: seq<Event>, e: Event)
    ensures Run(s, hash, es + [e]) == Step(Run(s, hash, es), hash, e)
    decreases |es|
  {
    if es == [] {
      assert [e][1..] == [] && es + [e] == [e];
      assert Run(Step(s, hash, e), hash, []) == Step(s, hash, e);
    } else {
      assert (es + [e])[0] == es[0] && (es + [e])[1..] == es[1..] + [e];
      RunSnoc(Step(s, hash, es[0]), hash, es[1..], e);
    }
  }

  // ── Bindings ──────────────────────────────────────────────────────────────

  /** No session waits twice, or waits while it is bound. */
  ghost predicate QueueRight(s: State) {
    NoDup(s.unbound) && forall sid :: sid in s.unbound ==> sid !in s.bound.Values
  }

  ghost predicate Injective(bound: map<RecordId, Sid>) {
    forall a, b :: a in bound && b in bound && bound[a] == bound[b] ==> a == b
  }

  /** Only sessions that have started are tagged, have a file, or are bound. */
  ghost predicate OnlyStarted(s: State) {
    && (forall sid :: sid in s.tagged ==> sid in s.inProcess)
    && (forall sid :: sid in s.files ==> sid in s.inProcess)
    && (forall id :: id in s.bound ==> s.bound[id] in s.inProcess)
  }

  lemma {:induction false} UnqueuedRemoves(queue: seq<Sid>, sid: Sid)
    requires NoDup(queue)
    ensures NoDup(Unqueued(queue, sid))
    ensures forall x :: x in Unqueued(queue, sid) <==> x in queue && x != sid
  {
    if queue != [] {
      assert forall k :: 0 <= k < |queue[1..]| ==> queue[1..][k] == queue[k + 1];
      assert queue[0] !in queue[1..];
      UnqueuedRemoves(queue[1..], sid);
      assert queue == [queue[0]] + queue[1..];
    }
  }

  lemma {:induction false} FirstIsQueued(queue: seq<Sid>, files: map<Sid, File>, file: File)
    ensures FirstWithFile(queue, files, file).Some? ==>
              var x := FirstWithFile(queue, files, file).value; x in queue && x in files && files[x] == file
  {
    if queue != [] {
      FirstIsQueued(queue[1..], files, file);
    }
  }

  lemma {:induction false} FirstTaggedIsQueued(queue: seq<Sid>, tagged: set<Sid>)
    ensures FirstTagged(queue, tagged).Some? ==>
              var x := FirstTagged(queue, tagged).value; x in queue && x in tagged
  {
    if queue != [] {
      FirstTaggedIsQueued(queue[1..], tagged);
    }
  }

  lemma BindKeepsQueue(s: State, id: RecordId, sid: Sid)
    requires QueueRight(s)
    ensures QueueRight(BindRecord(s, id, sid))
  {
    UnqueuedRemoves(s.unbound, sid);
    var t := BindRecord(s, id, sid);
    forall x | x in t.unbound ensures x !in t.bound.Values {
      assert x != sid && x !in s.bound.Values;
    }
  }

  lemma PushKeepsNoDup(queue: seq<Sid>, sid: Sid)
    requires NoDup(queue)
    ensures NoDup(PushNew(queue, sid))
  {
  }

  lemma SameQueueKeepsRight(s: State, t: State)
    requires QueueRight(s) && t.unbound == s.unbound && t.bound == s.bound
    ensures QueueRight(t)
  {
  }

  lemma QueueFromMarkerKeepsQueue(s: State, sid: Sid, record: Option<RecordId>)
    requires QueueRight(s)
    ensures QueueRight(QueueFromMarker(s, sid, record))
  {
    if record.Some? {
      BindKeepsQueue(s, record.value, sid);
    }
  }

  lemma MarkerKeepsQueue(s: State, hash: Sid -> RoomId, sid: Sid, record: Option<RecordId>, parentUp: bool)
    requires QueueRight(s)
    ensures QueueRight(OnMarker(s, hash, sid, record, parentUp))
  {
    var listed := Listed(s, hash, sid);
    SameQueueKeepsRight(s, listed);
    QueueFromMarkerKeepsQueue(listed, sid, record);
    SameQueueKeepsRight(QueueFromMarker(listed, sid, record), OnMarker(s, hash, sid, record, parentUp));
  }

  lemma QueueFromStartKeepsQueue(s: State, sid: Sid)
    requires QueueRight(s)
    ensures QueueRight(QueueFromStart(s, sid))
  {
    PushKeepsNoDup(s.unbound, sid);
  }

  lemma SessionKeepsQueue(s: State, hash: Sid -> RoomId, sid: Sid, file: Option<File>, parentUp: bool)
    requires QueueRight(s)
    ensures QueueRight(OnSession(s, hash, sid, file, parentUp))
  {
    var seen := Seen(s, sid, file);
    SameQueueKeepsRight(s, seen);
    QueueFromStartKeepsQueue(seen, sid);
    if parentUp {
      SameQueueKeepsRight(QueueFromStart(seen, sid), OnSession(s, hash, sid, file, parentUp));
    }
  }

  lemma TakeKeepsQueue(s: State, id: RecordId, sid: Option<Sid>)
    requires QueueRight(s)
    ensures QueueRight(Take(s, id, sid))
  {
    if sid.Some? {
      BindKeepsQueue(s, id, sid.value);
    }
  }

  lemma RecordKeepsQueue(s: State, id: RecordId, status: Status, payloadSid: Option<Sid>, file: Option<File>)
    requires QueueRight(s)
    ensures QueueRight(OnRecord(s, id, status, payloadSid, file))
  {
    var matched :=
      if id in s.bound then s
      else if payloadSid.Some? && payloadSid.value in s.panel then BindRecord(s, id, payloadSid.value)
      else BindByServiceMatch(s, id, file);
    assert QueueRight(matched) by {
      if payloadSid.Some? {
        BindKeepsQueue(s, id, payloadSid.value);
      }
      if file.Some? {
        TakeKeepsQueue(s, id, FirstWithFile(s.unbound, s.files, file.value));
      }
    }
    TakeKeepsQueue(matched, id, FirstTagged(matched.unbound, matched.tagged));
  }

  /** Whatever events carry, no session waits twice or waits while bound. */
  lemma StepKeepsQueue(s: State, hash: Sid -> RoomId, e: Event)
    requires QueueRight(s)
    ensures QueueRight(Step(s, hash, e))
  {
    match e
    case Marker(sid, id, parentUp) => MarkerKeepsQueue(s, hash, sid, id, parentUp);
    case SessionStart(sid, file, parentUp) => SessionKeepsQueue(s, hash, sid, file, parentUp);
    case Record(id, status, payloadSid, file) => RecordKeepsQueue(s, id, status, payloadSid, file);
    case _ =>
  }

  /** The event names no pair of its own: a marker without an id, a record without a session. */
  predicate Unpaired(e: Event) {
    match e
    case Marker(_, id, _) => id.None?
    case Record(_, _, payloadSid, _) => payloadSid.None?
    case _ => true
  }

  /** Bindings grow one session and one record at a time, and are never taken back. */
  ghost predicate Extends(s: State, t: State) {
    || t.bound == s.bound
    || exists id, sid :: BindsOne(s, t, id, sid)
  }

  ghost predicate BindsOne(s: State, t: State, id: RecordId, sid: Sid) {
    id !in s.bound && sid in s.unbound && sid in s.inProcess && t.bound == s.bound[id := sid]
  }

  lemma RecordExtends(s: State, id: RecordId, status: Status, file: Option<File>)
    requires OnlyStarted(s)
    ensures Extends(s, OnRecord(s, id, status, None, file))
  {
    var t := OnRecord(s, id, status, None, file);
    if id !in s.bound {
      var byFile := if file.Some? then FirstWithFile(s.unbound, s.files, file.value) else None;
      var byTag := FirstTagged(s.unbound, s.tagged);
      if file.Some? {
        FirstIsQueued(s.unbound, s.files, file.value);
      }
      FirstTaggedIsQueued(s.unbound, s.tagged);
      if byFile.Some? {
        assert t == Take(s, id, byFile);
        assert BindsOne(s, t, id, byFile.value);
      } else if (status == Started || status == Resumed) && byTag.Some? {
        assert t == Take(s, id, byTag);
        assert BindsOne(s, t, id, byTag.value);
      }
    }
  }

  /** Markers and session starts bind nothing; only a session start marks a session as started. */
  lemma MarkersBindNothing(s: State, hash: Sid -> RoomId, sid: Sid, parentUp: bool)
    ensures var t := OnMarker(s, hash, sid, None, parentUp);
            t.bound == s.bound && t.inProcess == s.inProcess && t.tagged == s.tagged && t.files == s.files
  {
    var listed := Listed(s, hash, sid);
    var queued := QueueFromMarker(listed, sid, None);
    assert queued == listed.(unbound := queued.unbound);
  }

  lemma StartsBindNothing(s: State, hash: Sid -> RoomId, sid: Sid, file: Option<File>, parentUp: bool)
    ensures var t := OnSession(s, hash, sid, file, parentUp);
            && t.bound == s.bound && t.inProcess == s.inProcess + {sid} && t.tagged <= s.tagged + {sid}
            && t.files == Seen(s, sid, file).files
  {
    var seen := Seen(s, sid, file);
    var queued := QueueFromStart(seen, sid);
    assert queued == seen.(unbound := queued.unbound, tagged := queued.tagged);
  }

  lemma StepExtends(s: State, hash: Sid -> RoomId, e: Event)
    requires OnlyStarted(s) && Unpaired(e)
    ensures Extends(s, Step(s, hash, e))
  {
    match e
    case Marker(sid, _, parentUp) => MarkersBindNothing(s, hash, sid, parentUp);
    case SessionStart(sid, file, parentUp) => StartsBindNothing(s, hash, sid, file, parentUp);
    case Record(id, status, payloadSid, file) => RecordExtends(s, id, status, file);
    case _ =>
  }

  ghost predicate BindingsRight(s: State) {
    QueueRight(s) && Injective(s.bound) && OnlyStarted(s)
  }

  lemma ExtendsKeepsInjective(s: State, t: State)
    requires QueueRight(s) && Injective(s.bound) && Extends(s, t)
    ensures Injective(t.bound)
    ensures forall id :: id in s.bound ==> id in t.bound && t.bound[id] == s.bound[id]
  {
    if t.bound != s.bound {
      var id, sid :| BindsOne(s, t, id, sid);
      forall a | a in s.bound ensures s.bound[a] != sid {
        assert s.bound[a] in s.bound.Values;
      }
    }
  }

  /** A session keeps having started; what is tagged or has a file has started too. */
  lemma StepKeepsStarted(s: State, hash: Sid -> RoomId, e: Event)
    requires OnlyStarted(s) && Unpaired(e)
    ensures OnlyStarted(Step(s, hash, e))
  {
    var t := Step(s, hash, e);
    StepExtends(s, hash, e);
    StepStarts(s, hash, e);
    if t.bound != s.bound {
      var id, sid :| BindsOne(s, t, id, sid);
      assert forall a :: a in t.bound ==> t.bound[a] == sid || (a in s.bound && t.bound[a] == s.bound[a]);
    }
  }

  lemma StepStarts(s: State, hash: Sid -> RoomId, e: Event)
    requires Unpaired(e)
    ensures var t, more := Step(s, hash, e), if e.SessionStart? && !s.disposed then {e.sid} else {};
            && t.inProcess == s.inProcess + more
            && t.tagged <= s.tagged + more
            && t.files.Keys <= s.files.Keys + more
  {
    match e
    case Marker(sid, _, parentUp) => MarkersBindNothing(s, hash, sid, parentUp);
    case SessionStart(sid, file, parentUp) => StartsBindNothing(s, hash, sid, file, parentUp);
    case Record(id, status, payloadSid, file) => RecordTags(s, id, status, payloadSid, file);
    case _ =>
  }

  lemma RecordTags(s: State, id: RecordId, status: Status, payloadSid: Option<Sid>, file: Option<File>)
    ensures OnRecord(s, id, status, payloadSid, file).tagged <= s.tagged
  {
  }

  lemma StepKeepsBindings(s: State, hash: Sid -> RoomId, e: Event)
    requires BindingsRight(s) && Unpaired(e)
    ensures BindingsRight(Step(s, hash, e))
    ensures forall id :: id in s.bound ==> id in Step(s, hash, e).bound && Step(s, hash, e).bound[id] == s.bound[id]
  {
    StepKeepsQueue(s, hash, e);
    StepExtends(s, hash, e);
    ExtendsKeepsInjective(s, Step(s, hash, e));
    StepKeepsStarted(s, hash, e);
  }

  /**
   While no event names a pair of its own, records and sessions are bound one to one, only to
   sessions that have started, and for good.
   */
  lemma {:induction false} RunKeepsBindings(s: State, hash: Sid -> RoomId, es: seq<Event>)
    requires BindingsRight(s) && forall e :: e in es ==> Unpaired(e)
    ensures BindingsRight(Run(s, hash, es))
    ensures forall id :: id in s.bound ==> id in Run(s, hash, es).bound && Run(s, hash, es).bound[id] == s.bound[id]
    decreases |es|
  {
    if es != [] {
      assert es[0] in es;
      StepKeepsBindings(s, hash, es[0]);
      RunKeepsBindings(Step(s, hash, es[0]), hash, es[1..]);
    }
  }

  /** No record but `id` is bound to `sid`. */
  predicate Unclaimed(s: State, id: RecordId, sid: Sid) {
    forall other :: other in s.bound && s.bound[other] == sid ==> other == id
  }

  /** A marker that names its record keeps bindings one to one exactly when no other record has the session. */
  lemma NamedMarkerKeepsInjectiveIff(s: State, hash: Sid -> RoomId, sid: Sid, id: RecordId, parentUp: bool)
    requires Injective(s.bound) && !s.disposed
    ensures Injective(Step(s, hash, Marker(sid, Some(id), parentUp)).bound) <==> Unclaimed(s, id, sid)
  {
    var t := Step(s, hash, Marker(sid, Some(id), parentUp)).bound;
    assert t == s.bound[id := sid];
    BindingIsInjectiveIff(s, id, sid);
  }

  lemma BindingIsInjectiveIff(s: State, id: RecordId, sid: Sid)
    requires Injective(s.bound)
    ensures Injective(s.bound[id := sid]) <==> Unclaimed(s, id, sid)
  {
    var t := s.bound[id := sid];
    if Injective(t) {
      forall other | other in s.bound && s.bound[other] == sid ensures other == id {
        assert other in t && t[other] == t[id];
      }
    }
  }

  /** The same for a record that names its session. */
  lemma NamedRecordKeepsInjectiveIff(s: State, hash: Sid -> RoomId, id: RecordId, status: Status, sid: Sid,
                                     file: Option<File>)
    requires Injective(s.bound) && !s.disposed && id !in s.bound && sid in s.panel
    ensures Injective(Step(s, hash, Record(id, status, Some(sid), file)).bound) <==> Unclaimed(s, id, sid)
  {
    assert Step(s, hash, Record(id, status, Some(sid), file)).bound == s.bound[id := sid];
    BindingIsInjectiveIff(s, id, sid);
  }

  /** Two markers that name different records can share a session. */
  lemma TwoMarkersShareASession(hash: Sid -> RoomId, sid: Sid, a: RecordId, b: RecordId)
    requires a != b
    ensures !Injective(Run(START, hash, [Marker(sid, Some(a), false), Marker(sid, Some(b), false)]).bound)
  {
    var first, second := Marker(sid, Some(a), false), Marker(sid, Some(b), false);
    assert [first, second] == [first] + [second];
    RunSnoc(START, hash, [first], second);
    assert [first] == [] + [first];
    RunSnoc(START, hash, [], first);
    var s := Run(START, hash, [first]);
    assert s.bound == map[a := sid];
    NamedMarkerKeepsInjectiveIff(s, hash, sid, b, false);
    assert a in s.bound && s.bound[a] == sid;
  }

  /** In every run from the start the queue is right, whatever the events carry. */
  lemma {:induction false} RunKeepsQueue(s: State, hash: Sid -> RoomId, es: seq<Event>)
    requires QueueRight(s)
    ensures QueueRight(Run(s, hash, es))
    decreases |es|
  {
    if es != [] {
      StepKeepsQueue(s, hash, es[0]);
      RunKeepsQueue(Step(s, hash, es[0]), hash, es[1..]);
    }
  }
}
