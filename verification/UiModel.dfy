/**
 Dialogs that both the local terminal and the remote app may answer: which of the two wins, and what
 the caller and the app are told, over every order of answers, expiries and closings.
 */
module UiModel {
  import opened Base

  /** Ids are only ever compared. */
  type Id(==, !new)

  datatype Request =
    | Select(title: string, options: seq<string>)
    | Confirm(title: string, message: string)
    | Input(title: string, placeholder: Option<string>)
    | Editor(title: string, prefill: Option<string>)

  datatype Dialog = Dialog(id: Id, request: Request)

  datatype Value = Undefined | Text(text: string) | Flag(flag: bool)

  /** The fields an answer from the app may carry. */
  datatype Response = Response(cancelled: Option<bool>, value: Option<string>, confirmed: Option<bool>)

  function StockValueOf(r: Response): Value {
    if r.cancelled == Some(true) then Undefined
    else if r.value.Some? then Text(r.value.value)
    else if r.confirmed.Some? then Flag(r.confirmed.value)
    else Undefined
  }

  /** What the app is sent. */
  datatype Frame = Shown(dialog: Dialog) | Notice(id: Id, expired: bool)

  /** An answer on its way to the caller. */
  datatype Wake = Wake(id: Id, value: Value, remote: bool)

  /** How a dialog left the pending ones. */
  datatype How = Answered(value: Value) | Dismissed | Expired | Cancelled | TornDown

  datatype Exit = Exit(id: Id, how: How)

  /**
   `live` are the timeouts that may still fire. `queue` holds answers whose continuations have not
   run yet; `outcome` is what the caller has been given, `aborted` the local dialogs closed by it.
   The last five fields record what has happened.
   */
  datatype State = State(
    pending: seq<Dialog>,
    timers: map<Id, nat>,
    live: map<nat, Id>,
    nextHandle: nat,
    queue: seq<Wake>,
    outcome: map<Id, Value>,
    aborted: set<Id>,
    frames: seq<Frame>,
    known: set<Id>,
    left: seq<Exit>,
    answers: seq<Wake>,
    heard: seq<Wake>)

  const START := State([], map[], map[], 0, [], map[], {}, [], {}, [], [], [])

  datatype Event =
    | Open(id: Id, request: Request)
    | Respond(id: Id, response: Response)
    | LocalAnswer(id: Id, value: Value)
    | Fire(handle: nat)
    | CancelAll
    | Replay
    | Dispose
    | Continue

  // ── Pieces ────────────────────────────────────────────────────────────────

  predicate IsPending(s: State, id: Id) {
    exists k :: 0 <= k < |s.pending| && s.pending[k].id == id
  }

  function Removed(pending: seq<Dialog>, id: Id): seq<Dialog> {
    if pending == [] then []
    else (if pending[0].id == id then [] else [pending[0]]) + Removed(pending[1..], id)
  }

  function Notices(how: How, id: Id): seq<Frame> {
    match how
    case Dismissed => [Notice(id, false)]
    case Expired => [Notice(id, true)]
    case Cancelled => [Notice(id, false)]
    case Answered(_) => []
    case TornDown => []
  }

  function Resolves(how: How, id: Id): seq<Wake> {
    match how
    case Answered(v) => [Wake(id, v, true)]
    case Cancelled => [Wake(id, Undefined, true)]
    case TornDown => [Wake(id, Undefined, true)]
    case Dismissed => []
    case Expired => []
  }

  function ClearTimer(s: State, id: Id): State {
    if id in s.timers then s.(live := s.live - {s.timers[id]}, timers := s.timers - {id}) else s
  }

  function ArmTimer(s: State, id: Id): State {
    var c := ClearTimer(s, id);
    c.(timers := c.timers[id := c.nextHandle], live := c.live[c.nextHandle := id], nextHandle := c.nextHandle + 1)
  }

  function Opening(s: State, d: Dialog): State {
    s.(pending := s.pending + [d], frames := s.frames + [Shown(d)], known := s.known + {d.id})
  }

  /** A dialog stops being pending: its timer goes, and caller and app hear of it or not. */
  function Leave(s: State, id: Id, how: How): State {
    var c := ClearTimer(s, id);
    c.(pending := Removed(c.pending, id),
       frames := c.frames + Notices(how, id),
       queue := c.queue + Resolves(how, id),
       answers := c.answers + Resolves(how, id),
       left := c.left + [Exit(id, how)])
  }

  function LeaveAll(s: State, dialogs: seq<Dialog>, how: How): State
    decreases |dialogs|
  {
    if dialogs == [] then s else LeaveAll(Leave(s, dialogs[0].id, how), dialogs[1..], how)
  }

  function ArmAll(s: State, dialogs: seq<Dialog>): State
    decreases |dialogs|
  {
    if dialogs == [] then s else ArmAll(ArmTimer(s, dialogs[0].id), dialogs[1..])
  }

  function Dismiss(s: State, id: Id): State {
    if IsPending(s, id) then Leave(s, id, Dismissed) else s
  }

  /** A promise keeps the first value it is given. */
  function Settle(outcome: map<Id, Value>, id: Id, value: Value): map<Id, Value> {
    if id in outcome then outcome else outcome[id := value]
  }

  function Queued(s: State, w: Wake): State {
    s.(queue := s.queue + [w], answers := s.answers + [w])
  }

  /** The continuation of the first queued answer runs; one from the app closes the local dialog. */
  function Delivered(s: State): State
    requires s.queue != []
  {
    var w := s.queue[0];
    s.(queue := s.queue[1..], heard := s.heard + [w], outcome := Settle(s.outcome, w.id, w.value),
       aborted := if w.remote then s.aborted + {w.id} else s.aborted)
  }

  // ── The events ────────────────────────────────────────────────────────────

  predicate Legal(s: State, e: Event) {
    match e
    case Open(id, _) => id !in s.known
    case Respond(_, _) => true
    case LocalAnswer(id, _) =>
      id in s.known && forall k :: 0 <= k < |s.answers| && s.answers[k].id == id ==> s.answers[k].remote
    case Fire(h) => h in s.live
    case CancelAll => true
    case Replay => true
    case Dispose => true
    case Continue => s.queue != []
  }

  function Step(s: State, e: Event): State
    requires Legal(s, e)
  {
    match e
    case Open(id, request) =>
      ArmTimer(Opening(s, Dialog(id, request)), id)
    case Respond(id, response) =>
      if IsPending(s, id) then Leave(s, id, Answered(StockValueOf(response))) else s
    case LocalAnswer(id, value) => Queued(s, Wake(id, value, false))
    case Fire(h) =>
      var id := s.live[h];
      if IsPending(s, id) then Leave(s, id, Expired) else s.(live := s.live - {h})
    case CancelAll => LeaveAll(s, s.pending, Cancelled)
    case Replay => ArmAll(s, s.pending)
    case Dispose => LeaveAll(s, s.pending, TornDown)
    case Continue =>
      if s.queue[0].remote then Delivered(s) else Dismiss(Delivered(s), s.queue[0].id)
  }

  predicate LegalRun(s: State, es: seq<Event>)
    decreases |es|
  {
    es == [] || (Legal(s, es[0]) && LegalRun(Step(s, es[0]), es[1..]))
  }

  function Run(s: State, es: seq<Event>): State
    requires LegalRun(s, es)
    decreases |es|
  {
    if es == [] then s else Run(Step(s, es[0]), es[1..])
  }

  // ── Every dialog leaves once ──────────────────────────────────────────────

  ghost predicate UniqueIds(pending: seq<Dialog>) {
    forall j, k :: 0 <= j < k < |pending| ==> pending[j].id != pending[k].id
  }

  ghost predicate HasLeft(left: seq<Exit>, id: Id) {
    exists k :: 0 <= k < |left| && left[k].id == id
  }

  ghost predicate LeftOnce(left: seq<Exit>) {
    forall j, k :: 0 <= j < k < |left| ==> left[j].id != left[k].id
  }

  /** An known dialog is pending or has left, not both, and leaves at most once. */
  ghost predicate OnceEach(s: State) {
    && UniqueIds(s.pending) && LeftOnce(s.left)
    && (forall id :: IsPending(s, id) ==> !HasLeft(s.left, id))
    && (forall id :: id in s.known <==> IsPending(s, id) || HasLeft(s.left, id))
  }

  /** Timers run for exactly the pending dialogs, one each, and no cleared timeout can fire. */
  ghost predicate TimersMatch(s: State) {
    && (forall id :: id in s.timers <==> IsPending(s, id))
    && (forall id :: id in s.timers ==> s.timers[id] in s.live && s.live[s.timers[id]] == id)
    && (forall h :: h in s.live ==> h < s.nextHandle && s.live[h] in s.timers && s.timers[s.live[h]] == h)
  }

  function ToldApp(left: seq<Exit>): seq<Frame> {
    if left == [] then []
    else ToldApp(left[..|left| - 1]) + Notices(left[|left| - 1].how, left[|left| - 1].id)
  }

  function ToldCaller(left: seq<Exit>): seq<Wake> {
    if left == [] then []
    else ToldCaller(left[..|left| - 1]) + Resolves(left[|left| - 1].how, left[|left| - 1].id)
  }

  function OnlyNotices(frames: seq<Frame>): seq<Frame> {
    if frames == [] then []
    else OnlyNotices(frames[..|frames| - 1])
         + if frames[|frames| - 1].Notice? then [frames[|frames| - 1]] else []
  }

  function OnlyRemote(answers: seq<Wake>): seq<Wake> {
    if answers == [] then []
    else OnlyRemote(answers[..|answers| - 1])
         + if answers[|answers| - 1].remote then [answers[|answers| - 1]] else []
  }

  /** What app and caller were told is what the exits say, in order. */
  ghost predicate ToldRight(s: State) {
    OnlyNotices(s.frames) == ToldApp(s.left) && OnlyRemote(s.answers) == ToldCaller(s.left)
  }

  /** The first answer for `id`. */
  function FirstAnswer(answers: seq<Wake>, id: Id): Option<Value> {
    if answers == [] then None
    else
      var before := FirstAnswer(answers[..|answers| - 1], id);
      if before.Some? then before
      else if answers[|answers| - 1].id == id then Some(answers[|answers| - 1].value)
      else None
  }

  /** The caller has the value of whoever answered first, once that answer's turn has come. */
  ghost predicate FirstWins(s: State) {
    && s.answers == s.heard + s.queue
    && forall id ::
         var first := FirstAnswer(s.heard, id);
         (id in s.outcome <==> first.Some?) && (id in s.outcome ==> s.outcome[id] == first.value)
  }

  // ── Proofs: leaving ───────────────────────────────────────────────────────

  lemma {:induction false} RemovedIs(pending: seq<Dialog>, id: Id)
    requires UniqueIds(pending)
    ensures UniqueIds(Removed(pending, id))
    ensures forall d :: d in Removed(pending, id) <==> d in pending && d.id != id
  {
    if pending != [] {
      assert forall k :: 0 <= k < |pending[1..]| ==> pending[1..][k] == pending[k + 1];
      RemovedIs(pending[1..], id);
      assert pending == [pending[0]] + pending[1..];
      var rest := Removed(pending[1..], id);
      assert forall k :: 0 <= k < |rest| ==> rest[k] in rest && rest[k].id != pending[0].id;
    }
  }

  lemma PendingIn(s: State, id: Id)
    ensures IsPending(s, id) <==> exists d :: d in s.pending && d.id == id
  {
    if IsPending(s, id) {
      var k :| 0 <= k < |s.pending| && s.pending[k].id == id;
      assert s.pending[k] in s.pending;
    }
  }

  lemma LeavePending(s: State, t: State, id: Id)
    requires UniqueIds(s.pending) && t.pending == Removed(s.pending, id)
    ensures UniqueIds(t.pending)
    ensures forall x :: IsPending(t, x) <==> IsPending(s, x) && x != id
  {
    RemovedIs(s.pending, id);
    forall x ensures IsPending(t, x) <==> IsPending(s, x) && x != id {
      PendingIn(s, x);
      PendingIn(t, x);
    }
  }

  lemma ExitSnoc(left: seq<Exit>, id: Id, how: How)
    ensures forall x :: HasLeft(left + [Exit(id, how)], x) <==> HasLeft(left, x) || x == id
  {
    var more := left + [Exit(id, how)];
    forall x ensures HasLeft(more, x) <==> HasLeft(left, x) || x == id {
      if HasLeft(left, x) {
        var k :| 0 <= k < |left| && left[k].id == x;
        assert more[k].id == x;
      }
      assert more[|left|].id == id;
    }
  }

  lemma LeaveKeepsOnce(s: State, id: Id, how: How)
    requires OnceEach(s) && IsPending(s, id)
    ensures OnceEach(Leave(s, id, how))
  {
    var t := Leave(s, id, how);
    LeavePending(s, t, id);
    ExitSnoc(s.left, id, how);
  }

  lemma LeaveKeepsTimers(s: State, id: Id, how: How)
    requires OnceEach(s) && TimersMatch(s) && IsPending(s, id)
    ensures TimersMatch(Leave(s, id, how))
  {
    LeavePending(s, Leave(s, id, how), id);
  }

  lemma {:induction false} OnlyRemoteConcat(a: seq<Wake>, b: seq<Wake>)
    ensures OnlyRemote(a + b) == OnlyRemote(a) + OnlyRemote(b)
  {
    if b == [] {
      assert a + b == a;
    } else {
      assert (a + b)[..|a + b| - 1] == a + b[..|b| - 1];
      OnlyRemoteConcat(a, b[..|b| - 1]);
    }
  }

  lemma {:induction false} OnlyNoticesConcat(a: seq<Frame>, b: seq<Frame>)
    ensures OnlyNotices(a + b) == OnlyNotices(a) + OnlyNotices(b)
  {
    if b == [] {
      assert a + b == a;
    } else {
      assert (a + b)[..|a + b| - 1] == a + b[..|b| - 1];
      OnlyNoticesConcat(a, b[..|b| - 1]);
    }
  }

  lemma OnlyOne(how: How, id: Id)
    ensures OnlyRemote(Resolves(how, id)) == Resolves(how, id)
    ensures OnlyNotices(Notices(how, id)) == Notices(how, id)
  {
    assert OnlyRemote([]) == [] && OnlyNotices([]) == [];
    assert Resolves(how, id) != [] ==> Resolves(how, id)[..0] == [];
    assert Notices(how, id) != [] ==> Notices(how, id)[..0] == [];
  }

  lemma LeaveKeepsTold(s: State, id: Id, how: How)
    requires ToldRight(s)
    ensures ToldRight(Leave(s, id, how))
  {
    OnlyRemoteConcat(s.answers, Resolves(how, id));
    OnlyNoticesConcat(s.frames, Notices(how, id));
    OnlyOne(how, id);
    assert (s.left + [Exit(id, how)])[..|s.left|] == s.left;
  }

  lemma LeaveKeepsFirst(s: State, id: Id, how: How)
    requires FirstWins(s)
    ensures FirstWins(Leave(s, id, how))
  {
    assert s.heard + s.queue + Resolves(how, id) == s.heard + (s.queue + Resolves(how, id));
  }

  ghost predicate Inv(s: State) {
    OnceEach(s) && TimersMatch(s) && ToldRight(s) && FirstWins(s)
  }

  lemma LeaveKeepsInv(s: State, id: Id, how: How)
    requires Inv(s) && IsPending(s, id)
    ensures Inv(Leave(s, id, how))
  {
    LeaveKeepsOnce(s, id, how);
    LeaveKeepsTimers(s, id, how);
    LeaveKeepsTold(s, id, how);
    LeaveKeepsFirst(s, id, how);
  }

  /** Closing them all, oldest first, leaves none. */
  lemma {:induction false} LeaveAllKeepsInv(s: State, how: How)
    requires Inv(s)
    ensures Inv(LeaveAll(s, s.pending, how)) && LeaveAll(s, s.pending, how).pending == []
    decreases |s.pending|
  {
    if s.pending != [] {
      var id := s.pending[0].id;
      assert IsPending(s, id);
      LeaveKeepsInv(s, id, how);
      RemovedFirst(s.pending);
      LeaveAllKeepsInv(Leave(s, id, how), how);
    }
  }

  lemma RemovedFirst(pending: seq<Dialog>)
    requires UniqueIds(pending) && pending != []
    ensures Removed(pending, pending[0].id) == pending[1..]
  {
    RemovedNone(pending[1..], pending[0].id);
  }

  lemma {:induction false} RemovedNone(pending: seq<Dialog>, id: Id)
    requires forall k :: 0 <= k < |pending| ==> pending[k].id != id
    ensures Removed(pending, id) == pending
  {
    if pending != [] {
      RemovedNone(pending[1..], id);
    }
  }

  // ── Proofs: timers ────────────────────────────────────────────────────────

  /** The timers match but for that of `id`, which may be missing. */
  ghost predicate TimersMatchBut(s: State, id: Id) {
    && (forall x :: x in s.timers ==> IsPending(s, x))
    && (forall x :: IsPending(s, x) && x != id ==> x in s.timers)
    && (forall x :: x in s.timers ==> s.timers[x] in s.live && s.live[s.timers[x]] == x)
    && (forall h :: h in s.live ==> h < s.nextHandle && s.live[h] in s.timers && s.timers[s.live[h]] == h)
  }

  lemma ClearMatchesBut(s: State, id: Id)
    requires TimersMatchBut(s, id)
    ensures TimersMatchBut(ClearTimer(s, id), id) && id !in ClearTimer(s, id).timers
  {
    assert forall x :: IsPending(ClearTimer(s, id), x) == IsPending(s, x);
  }

  lemma ArmMatches(s: State, id: Id)
    requires TimersMatchBut(s, id) && IsPending(s, id)
    ensures TimersMatch(ArmTimer(s, id))
  {
    ClearMatchesBut(s, id);
    NewTimerMatches(ClearTimer(s, id), id);
  }

  lemma NewTimerMatches(c: State, id: Id)
    requires TimersMatchBut(c, id) && IsPending(c, id) && id !in c.timers
    ensures TimersMatch(c.(timers := c.timers[id := c.nextHandle], live := c.live[c.nextHandle := id],
                           nextHandle := c.nextHandle + 1))
  {
    var t := c.(timers := c.timers[id := c.nextHandle], live := c.live[c.nextHandle := id],
                nextHandle := c.nextHandle + 1);
    assert forall x :: IsPending(t, x) == IsPending(c, x);
    assert c.nextHandle !in c.live;
  }

  /** The clocks are no part of what else holds. */
  lemma ClocksAside(s: State, t: State)
    requires t == s.(timers := t.timers, live := t.live, nextHandle := t.nextHandle)
    ensures forall x :: IsPending(t, x) == IsPending(s, x)
    ensures OnceEach(s) ==> OnceEach(t)
    ensures ToldRight(s) ==> ToldRight(t)
    ensures FirstWins(s) ==> FirstWins(t)
  {
    assert forall x :: IsPending(t, x) == IsPending(s, x);
  }

  /** Arming changes only the timer of `id`, which is a new one. */
  lemma ArmKeepsInv(s: State, id: Id)
    requires Inv(s) && IsPending(s, id)
    ensures Inv(ArmTimer(s, id)) && ArmTimer(s, id).pending == s.pending
  {
    ArmMatches(s, id);
    ClocksAside(s, ArmTimer(s, id));
  }

  lemma {:induction false} ArmAllKeepsInv(s: State, dialogs: seq<Dialog>)
    requires Inv(s) && forall d :: d in dialogs ==> d in s.pending
    ensures Inv(ArmAll(s, dialogs)) && ArmAll(s, dialogs).pending == s.pending
    decreases |dialogs|
  {
    if dialogs != [] {
      PendingIn(s, dialogs[0].id);
      assert dialogs[0] in dialogs;
      ArmKeepsInv(s, dialogs[0].id);
      ArmAllKeepsInv(ArmTimer(s, dialogs[0].id), dialogs[1..]);
    }
  }

  // ── Proofs: steps ─────────────────────────────────────────────────────────

  lemma OpeningIsPending(s: State, d: Dialog)
    ensures forall x :: IsPending(Opening(s, d), x) <==> IsPending(s, x) || x == d.id
  {
    forall x ensures IsPending(Opening(s, d), x) <==> IsPending(s, x) || x == d.id {
      PendingIn(s, x);
      PendingIn(Opening(s, d), x);
    }
  }

  lemma OpeningKeepsOnce(s: State, d: Dialog)
    requires OnceEach(s) && d.id !in s.known
    ensures OnceEach(Opening(s, d))
  {
    OpeningIsPending(s, d);
    assert forall k :: 0 <= k < |s.pending| ==> IsPending(s, s.pending[k].id);
  }

  lemma OpeningKeepsRest(s: State, d: Dialog)
    requires OnceEach(s) && TimersMatch(s) && d.id !in s.known
    ensures ToldRight(s) ==> ToldRight(Opening(s, d))
    ensures FirstWins(s) ==> FirstWins(Opening(s, d))
    ensures TimersMatchBut(Opening(s, d), d.id)
  {
    OpeningIsPending(s, d);
    assert Opening(s, d).frames[..|s.frames|] == s.frames;
  }

  lemma OpenKeepsInv(s: State, id: Id, request: Request)
    requires Inv(s) && id !in s.known
    ensures Inv(Step(s, Open(id, request)))
  {
    var n := Opening(s, Dialog(id, request));
    OpeningIsPending(s, Dialog(id, request));
    OpeningKeepsOnce(s, Dialog(id, request));
    OpeningKeepsRest(s, Dialog(id, request));
    ArmMatches(n, id);
    ClocksAside(n, ArmTimer(n, id));
  }

  lemma {:induction false} FirstAnswerSnoc(answers: seq<Wake>, w: Wake, id: Id)
    ensures FirstAnswer(answers + [w], id)
         == if FirstAnswer(answers, id).Some? then FirstAnswer(answers, id)
            else if w.id == id then Some(w.value) else None
  {
    assert (answers + [w])[..|answers|] == answers;
  }

  lemma LocalKeepsInv(s: State, id: Id, value: Value)
    requires Inv(s)
    ensures Inv(Queued(s, Wake(id, value, false)))
  {
    var w := Wake(id, value, false);
    var t := Queued(s, w);
    assert forall x :: IsPending(t, x) == IsPending(s, x);
    assert OnceEach(t) && TimersMatch(t);
    OnlyRemoteConcat(s.answers, [w]);
    assert [w][..0] == [];
    assert OnlyRemote([w]) == [];
    assert s.heard + s.queue + [w] == s.heard + (s.queue + [w]);
  }

  lemma DeliverKeepsFirst(s: State)
    requires FirstWins(s) && s.queue != []
    ensures FirstWins(Delivered(s))
  {
    var w := s.queue[0];
    assert s.heard + s.queue == s.heard + [w] + s.queue[1..];
    forall id
      ensures FirstAnswer(s.heard + [w], id)
           == if FirstAnswer(s.heard, id).Some? then FirstAnswer(s.heard, id)
              else if w.id == id then Some(w.value) else None
    {
      FirstAnswerSnoc(s.heard, w, id);
    }
  }

  lemma DeliverKeepsInv(s: State)
    requires Inv(s) && s.queue != []
    ensures Inv(Delivered(s))
  {
    DeliverKeepsFirst(s);
    var t := Delivered(s);
    assert forall x :: IsPending(t, x) == IsPending(s, x);
    assert OnceEach(t);
    assert TimersMatch(t);
    assert ToldRight(t);
  }

  lemma ContinueKeepsInv(s: State)
    requires Inv(s) && s.queue != []
    ensures Inv(Step(s, Continue))
  {
    var t := Delivered(s);
    DeliverKeepsInv(s);
    if !s.queue[0].remote && IsPending(t, s.queue[0].id) {
      LeaveKeepsInv(t, s.queue[0].id, Dismissed);
    }
  }

  lemma StepKeepsInv(s: State, e: Event)
    requires Inv(s) && Legal(s, e)
    ensures Inv(Step(s, e))
  {
    match e
    case Open(id, request) => OpenKeepsInv(s, id, request);
    case Respond(id, response) =>
      if IsPending(s, id) {
        LeaveKeepsInv(s, id, Answered(StockValueOf(response)));
      }
    case LocalAnswer(id, value) => LocalKeepsInv(s, id, value);
    case Fire(h) => LeaveKeepsInv(s, s.live[h], Expired);
    case CancelAll => LeaveAllKeepsInv(s, Cancelled);
    case Replay => ArmAllKeepsInv(s, s.pending);
    case Dispose => LeaveAllKeepsInv(s, TornDown);
    case Continue => ContinueKeepsInv(s);
  }

  lemma {:induction false} RunKeepsInv(s: State, es: seq<Event>)
    requires Inv(s) && LegalRun(s, es)
    ensures Inv(Run(s, es))
    decreases |es|
  {
    if es != [] {
      StepKeepsInv(s, es[0]);
      RunKeepsInv(Step(s, es[0]), es[1..]);
    }
  }

  // ── What every run keeps ──────────────────────────────────────────────────

  ghost predicate Told(frames: seq<Frame>, id: Id) {
    exists k :: 0 <= k < |frames| && frames[k].Notice? && frames[k].id == id
  }

  ghost predicate Resolved(wakes: seq<Wake>, id: Id) {
    exists k :: 0 <= k < |wakes| && wakes[k].id == id
  }

  /** How a dialog left decides whether the app got a notice and the bridge resolved the caller. */
  lemma {:induction false} ExitDecides(left: seq<Exit>, k: nat)
    requires LeftOnce(left) && k < |left|
    ensures Told(ToldApp(left), left[k].id) <==> Notices(left[k].how, left[k].id) != []
    ensures Resolved(ToldCaller(left), left[k].id) <==> Resolves(left[k].how, left[k].id) != []
    decreases |left|
  {
    var front, last, id := left[..|left| - 1], left[|left| - 1], left[k].id;
    ToldConcat(ToldApp(front), Notices(last.how, last.id), id);
    ResolvedConcat(ToldCaller(front), Resolves(last.how, last.id), id);
    OneTold(last, id);
    NotLeftNotTold(front, id);
    if k < |front| {
      assert front[k] == left[k];
      ExitDecides(front, k);
    } else {
      assert !HasLeft(front, id);
    }
  }

  lemma OneTold(e: Exit, id: Id)
    ensures Told(Notices(e.how, e.id), id) <==> id == e.id && Notices(e.how, e.id) != []
    ensures Resolved(Resolves(e.how, e.id), id) <==> id == e.id && Resolves(e.how, e.id) != []
  {
    if id == e.id && Notices(e.how, e.id) != [] {
      assert Notices(e.how, e.id)[0].id == id;
    }
    if id == e.id && Resolves(e.how, e.id) != [] {
      assert Resolves(e.how, e.id)[0].id == id;
    }
  }

  lemma NotLeftNotTold(left: seq<Exit>, id: Id)
    ensures !HasLeft(left, id) ==> !Told(ToldApp(left), id) && !Resolved(ToldCaller(left), id)
  {
    ToldOnlyLeft(left);
  }

  lemma ToldConcat(a: seq<Frame>, b: seq<Frame>, id: Id)
    ensures Told(a + b, id) <==> Told(a, id) || Told(b, id)
  {
    if Told(a, id) {
      var k :| 0 <= k < |a| && a[k].Notice? && a[k].id == id;
      assert (a + b)[k] == a[k];
    }
    if Told(b, id) {
      var k :| 0 <= k < |b| && b[k].Notice? && b[k].id == id;
      assert (a + b)[|a| + k] == b[k];
    }
  }

  lemma ResolvedConcat(a: seq<Wake>, b: seq<Wake>, id: Id)
    ensures Resolved(a + b, id) <==> Resolved(a, id) || Resolved(b, id)
  {
    if Resolved(a, id) {
      var k :| 0 <= k < |a| && a[k].id == id;
      assert (a + b)[k] == a[k];
    }
    if Resolved(b, id) {
      var k :| 0 <= k < |b| && b[k].id == id;
      assert (a + b)[|a| + k] == b[k];
    }
  }

  lemma {:induction false} ToldOnlyLeft(left: seq<Exit>)
    ensures forall j :: 0 <= j < |ToldApp(left)| ==> ToldApp(left)[j].Notice? && HasLeft(left, ToldApp(left)[j].id)
    ensures forall j :: 0 <= j < |ToldCaller(left)| ==> HasLeft(left, ToldCaller(left)[j].id)
  {
    if left != [] {
      var front, last := left[..|left| - 1], left[|left| - 1];
      ToldOnlyLeft(front);
      assert left == front + [last];
      ExitSnoc(front, last.id, last.how);
    }
  }

  lemma {:induction false} ToldAtMostOnce(left: seq<Exit>)
    requires LeftOnce(left)
    ensures forall j :: 0 <= j < |ToldApp(left)| ==> ToldApp(left)[j].Notice?
    ensures forall j, k :: 0 <= j < k < |ToldApp(left)| ==> ToldApp(left)[j].id != ToldApp(left)[k].id
    ensures forall j, k :: 0 <= j < k < |ToldCaller(left)| ==> ToldCaller(left)[j].id != ToldCaller(left)[k].id
  {
    if left != [] {
      var front, last := left[..|left| - 1], left[|left| - 1];
      ToldAtMostOnce(front);
      ToldOnlyLeft(front);
      assert !HasLeft(front, last.id);
    }
  }

  /**
   Every dialog that has left: the app was told so, once, unless it gave the answer itself or all was
   torn down; the bridge resolved the caller, once, if the app answered or the dialog was cancelled or
   torn down, and not if it expired or the terminal answered.
   */
  lemma WhoHearsWhat(es: seq<Event>, k: nat)
    requires LegalRun(START, es) && k < |Run(START, es).left|
    ensures var s := Run(START, es);
            var id, how := s.left[k].id, s.left[k].how;
            && (Told(OnlyNotices(s.frames), id) <==> how.Dismissed? || how.Expired? || how.Cancelled?)
            && (Resolved(OnlyRemote(s.answers), id) <==> how.Answered? || how.Cancelled? || how.TornDown?)
    ensures var notices := OnlyNotices(Run(START, es).frames);
            forall i, j :: 0 <= i < j < |notices| ==>
              notices[i].Notice? && notices[j].Notice? && notices[i].id != notices[j].id
    ensures var resolved := OnlyRemote(Run(START, es).answers);
            forall i, j :: 0 <= i < j < |resolved| ==> resolved[i].id != resolved[j].id
  {
    StartIsRight();
    RunKeepsInv(START, es);
    var s := Run(START, es);
    ExitDecides(s.left, k);
    ToldAtMostOnce(s.left);
    ToldOnlyLeft(s.left);
  }

  lemma StartIsRight()
    ensures Inv(START)
  {
    assert forall x :: !IsPending(START, x) && !HasLeft(START.left, x);
  }

  /** Once every continuation has run, each caller has the first answer given, from either side. */
  lemma CallerGetsTheFirstAnswer(es: seq<Event>, id: Id)
    requires LegalRun(START, es) && Run(START, es).queue == []
    ensures var s := Run(START, es);
            var first := FirstAnswer(s.answers, id);
            (id in s.outcome <==> first.Some?) && (id in s.outcome ==> s.outcome[id] == first.value)
  {
    StartIsRight();
    RunKeepsInv(START, es);
    var s := Run(START, es);
    assert s.heard + [] == s.heard;
  }

  // ── Exits are final ───────────────────────────────────────────────────────

  lemma {:induction false} LeaveAllAppends(s: State, dialogs: seq<Dialog>, how: How)
    ensures s.left <= LeaveAll(s, dialogs, how).left
    decreases |dialogs|
  {
    if dialogs != [] {
      LeaveAllAppends(Leave(s, dialogs[0].id, how), dialogs[1..], how);
    }
  }

  lemma {:induction false} ArmAllLeavesNone(s: State, dialogs: seq<Dialog>)
    ensures ArmAll(s, dialogs).left == s.left
    decreases |dialogs|
  {
    if dialogs != [] {
      ArmAllLeavesNone(ArmTimer(s, dialogs[0].id), dialogs[1..]);
    }
  }

  lemma StepAppends(s: State, e: Event)
    requires Legal(s, e)
    ensures s.left <= Step(s, e).left
  {
    match e
    case CancelAll => LeaveAllAppends(s, s.pending, Cancelled);
    case Dispose => LeaveAllAppends(s, s.pending, TornDown);
    case Replay => ArmAllLeavesNone(s, s.pending);
    case _ =>
  }

  lemma {:induction false} RunAppends(s: State, es: seq<Event>)
    requires LegalRun(s, es)
    ensures s.left <= Run(s, es).left
    decreases |es|
  {
    if es != [] {
      StepAppends(s, es[0]);
      RunAppends(Step(s, es[0]), es[1..]);
    }
  }

  /** A dialog that expired is never resolved, whatever happens later: only the terminal can answer its caller. */
  lemma ExpiredNeverResolves(s: State, es: seq<Event>, k: nat)
    requires Inv(s) && LegalRun(s, es) && k < |s.left| && s.left[k].how == Expired
    ensures !Resolved(OnlyRemote(Run(s, es).answers), s.left[k].id)
  {
    RunKeepsInv(s, es);
    RunAppends(s, es);
    ExitDecides(Run(s, es).left, k);
  }
}
