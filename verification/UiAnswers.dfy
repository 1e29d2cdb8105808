/**
 The dialogs told from their events: what was shown, who closed each dialog and why, what the app and the
 caller were told of it, and whose answer the caller has.
 */
module UiAnswers {
  import opened Base
  import opened UiModel

  // ── The app's answer ──────────────────────────────────────────────────────

  /** How the app sends a value: a cancel, a text or a decision. */
  function Sent(v: Value): Response {
    match v
    case Undefined => Response(Some(true), None, None)
    case Text(text) => Response(None, Some(text), None)
    case Flag(flag) => Response(None, None, Some(flag))
  }

  /** What the app sends arrives; a cancel overrides all else, a false one nothing, and a text a decision. */
  lemma AnswersArrive(v: Value, r: Response)
    ensures StockValueOf(Sent(v)) == v
    ensures StockValueOf(r.(cancelled := Some(true))) == Undefined
    ensures StockValueOf(r.(cancelled := Some(false))) == StockValueOf(r.(cancelled := None))
    ensures r.cancelled != Some(true) && r.value.Some? ==> StockValueOf(r) == Text(r.value.value)
    ensures r.value.None? && r.confirmed.None? ==> StockValueOf(r) == Undefined
  {
  }

  // ── What is shown ─────────────────────────────────────────────────────────

  function OpenedIn(es: seq<Event>): seq<Dialog> {
    if es == [] then []
    else (if es[0].Open? then [Dialog(es[0].id, es[0].request)] else []) + OpenedIn(es[1..])
  }

  function ShownIn(frames: seq<Frame>): seq<Dialog> {
    if frames == [] then []
    else ShownIn(frames[..|frames| - 1])
         + if frames[|frames| - 1].Shown? then [frames[|frames| - 1].dialog] else []
  }

  lemma ShownSnoc(frames: seq<Frame>, f: Frame)
    ensures ShownIn(frames + [f]) == ShownIn(frames) + if f.Shown? then [f.dialog] else []
  {
    assert (frames + [f])[..|frames|] == frames;
  }

  lemma LeavingShowsNothing(s: State, id: Id, how: How)
    ensures ShownIn(Leave(s, id, how).frames) == ShownIn(s.frames)
  {
    if Notices(how, id) != [] {
      ShownSnoc(s.frames, Notices(how, id)[0]);
      assert s.frames + Notices(how, id) == s.frames + [Notices(how, id)[0]];
    } else {
      assert s.frames + [] == s.frames;
    }
  }

  lemma {:induction false} LeavingAllShowsNothing(s: State, dialogs: seq<Dialog>, how: How)
    ensures ShownIn(LeaveAll(s, dialogs, how).frames) == ShownIn(s.frames)
    decreases |dialogs|
  {
    if dialogs != [] {
      LeavingShowsNothing(s, dialogs[0].id, how);
      LeavingAllShowsNothing(Leave(s, dialogs[0].id, how), dialogs[1..], how);
    }
  }

  /** Arming touches the clocks only. */
  lemma {:induction false} ArmingTouchesClocks(s: State, dialogs: seq<Dialog>)
    ensures var t := ArmAll(s, dialogs);
            t == s.(timers := t.timers, live := t.live, nextHandle := t.nextHandle)
    decreases |dialogs|
  {
    if dialogs != [] {
      ArmingTouchesClocks(ArmTimer(s, dialogs[0].id), dialogs[1..]);
    }
  }

  lemma StepShows(s: State, e: Event)
    requires Legal(s, e)
    ensures ShownIn(Step(s, e).frames) == ShownIn(s.frames) + if e.Open? then [Dialog(e.id, e.request)] else []
  {
    assert ShownIn(s.frames) + [] == ShownIn(s.frames);
    match e
    case Open(id, request) => ShownSnoc(s.frames, Shown(Dialog(id, request)));
    case Respond(id, response) => LeavingShowsNothing(s, id, Answered(StockValueOf(response)));
    case Fire(h) => LeavingShowsNothing(s, s.live[h], Expired);
    case CancelAll => LeavingAllShowsNothing(s, s.pending, Cancelled);
    case Replay => ArmingTouchesClocks(s, s.pending);
    case Dispose => LeavingAllShowsNothing(s, s.pending, TornDown);
    case Continue => LeavingShowsNothing(Delivered(s), s.queue[0].id, Dismissed);
    case LocalAnswer(_, _) =>
  }

  /** The app is shown exactly the dialogs opened, as they were asked for, each once and in order. */
  lemma {:induction false} ShownAsOpened(s: State, es: seq<Event>)
    requires LegalRun(s, es)
    ensures ShownIn(Run(s, es).frames) == ShownIn(s.frames) + OpenedIn(es)
    decreases |es|
  {
    if es == [] {
      assert ShownIn(s.frames) + [] == ShownIn(s.frames);
    } else {
      StepShows(s, es[0]);
      ShownAsOpened(Step(s, es[0]), es[1..]);
      Assoc(ShownIn(s.frames), if es[0].Open? then [Dialog(es[0].id, es[0].request)] else [], OpenedIn(es[1..]));
    }
  }

  // ── Who leaves, and why ───────────────────────────────────────────────────

  function Exits(dialogs: seq<Dialog>, how: How): seq<Exit> {
    seq(|dialogs|, i requires 0 <= i < |dialogs| => Exit(dialogs[i].id, how))
  }

  /**
   The dialogs an event closes: one the app answers, one whose timeout fires, one the terminal has answered
   when its continuation runs; all of them when they are cancelled or the bridge is torn down.
   */
  ghost function ExitsOf(s: State, e: Event): seq<Exit>
    requires Legal(s, e)
  {
    match e
    case Respond(id, r) => if IsPending(s, id) then [Exit(id, Answered(StockValueOf(r)))] else []
    case Fire(h) => [Exit(s.live[h], Expired)]
    case CancelAll => Exits(s.pending, Cancelled)
    case Dispose => Exits(s.pending, TornDown)
    case Continue =>
      if !s.queue[0].remote && IsPending(s, s.queue[0].id) then [Exit(s.queue[0].id, Dismissed)] else []
    case _ => []
  }

  lemma {:induction false} AllLeave(s: State, dialogs: seq<Dialog>, how: How)
    ensures LeaveAll(s, dialogs, how).left == s.left + Exits(dialogs, how)
    decreases |dialogs|
  {
    if dialogs == [] {
      assert s.left + [] == s.left;
    } else {
      AllLeave(Leave(s, dialogs[0].id, how), dialogs[1..], how);
      assert Exits(dialogs, how) == [Exit(dialogs[0].id, how)] + Exits(dialogs[1..], how);
      Assoc(s.left, [Exit(dialogs[0].id, how)], Exits(dialogs[1..], how));
    }
  }

  /** Each event closes exactly these. */
  lemma WhoLeaves(s: State, e: Event)
    requires TimersMatch(s) && Legal(s, e)
    ensures Step(s, e).left == s.left + ExitsOf(s, e)
  {
    assert s.left + [] == s.left;
    match e
    case CancelAll => AllLeave(s, s.pending, Cancelled);
    case Dispose => AllLeave(s, s.pending, TornDown);
    case Replay => ArmingTouchesClocks(s, s.pending);
    case _ =>
  }

  /** The dialogs that have not left, in order. */
  ghost function StillOpen(dialogs: seq<Dialog>, left: seq<Exit>): seq<Dialog> {
    if dialogs == [] then []
    else (if HasLeft(left, dialogs[0].id) then [] else [dialogs[0]]) + StillOpen(dialogs[1..], left)
  }

  lemma {:induction false} RemovedConcat(a: seq<Dialog>, b: seq<Dialog>, id: Id)
    ensures Removed(a + b, id) == Removed(a, id) + Removed(b, id)
  {
    if a == [] {
      assert a + b == b;
    } else {
      assert (a + b)[1..] == a[1..] + b;
      RemovedConcat(a[1..], b, id);
      Assoc(if a[0].id == id then [] else [a[0]], Removed(a[1..], id), Removed(b, id));
    }
  }

  lemma {:induction false} OneLessOpen(dialogs: seq<Dialog>, left: seq<Exit>, id: Id, how: How)
    ensures StillOpen(dialogs, left + [Exit(id, how)]) == Removed(StillOpen(dialogs, left), id)
  {
    if dialogs != [] {
      OneLessOpen(dialogs[1..], left, id, how);
      ExitSnoc(left, id, how);
      RemovedConcat(if HasLeft(left, dialogs[0].id) then [] else [dialogs[0]], StillOpen(dialogs[1..], left), id);
      assert [dialogs[0]][1..] == [];
    }
  }

  lemma {:induction false} OneMoreOpen(dialogs: seq<Dialog>, d: Dialog, left: seq<Exit>)
    requires !HasLeft(left, d.id)
    ensures StillOpen(dialogs + [d], left) == StillOpen(dialogs, left) + [d]
  {
    if dialogs == [] {
      assert dialogs + [d] == [d] && [d][1..] == [];
    } else {
      assert (dialogs + [d])[1..] == dialogs[1..] + [d];
      OneMoreOpen(dialogs[1..], d, left);
      Assoc(if HasLeft(left, dialogs[0].id) then [] else [dialogs[0]], StillOpen(dialogs[1..], left), [d]);
    }
  }

  /** The pending dialogs are those of `asked` that have not left. */
  ghost predicate PendingIs(s: State, asked: seq<Dialog>) {
    s.pending == StillOpen(asked, s.left)
  }

  lemma LeavingKeepsPending(s: State, asked: seq<Dialog>, id: Id, how: How)
    requires PendingIs(s, asked)
    ensures PendingIs(Leave(s, id, how), asked)
  {
    OneLessOpen(asked, s.left, id, how);
  }

  lemma {:induction false} LeavingAllKeepsPending(s: State, asked: seq<Dialog>, dialogs: seq<Dialog>, how: How)
    requires PendingIs(s, asked)
    ensures PendingIs(LeaveAll(s, dialogs, how), asked)
    decreases |dialogs|
  {
    if dialogs != [] {
      LeavingKeepsPending(s, asked, dialogs[0].id, how);
      LeavingAllKeepsPending(Leave(s, dialogs[0].id, how), asked, dialogs[1..], how);
    }
  }

  lemma OpeningKeepsPending(s: State, asked: seq<Dialog>, d: Dialog)
    requires OnceEach(s) && d.id !in s.known && PendingIs(s, asked)
    ensures PendingIs(ArmTimer(Opening(s, d), d.id), asked + [d])
  {
    assert !HasLeft(s.left, d.id);
    OneMoreOpen(asked, d, s.left);
  }

  lemma ContinuingKeepsPending(s: State, asked: seq<Dialog>)
    requires s.queue != [] && PendingIs(s, asked)
    ensures PendingIs(Step(s, Continue), asked)
  {
    var t := Delivered(s);
    assert PendingIs(t, asked);
    LeavingKeepsPending(t, asked, s.queue[0].id, Dismissed);
  }

  lemma StepKeepsPending(s: State, asked: seq<Dialog>, e: Event)
    requires OnceEach(s) && Legal(s, e) && PendingIs(s, asked)
    ensures PendingIs(Step(s, e), asked + if e.Open? then [Dialog(e.id, e.request)] else [])
  {
    assert asked + [] == asked;
    match e
    case Open(id, request) => OpeningKeepsPending(s, asked, Dialog(id, request));
    case Respond(id, response) => LeavingKeepsPending(s, asked, id, Answered(StockValueOf(response)));
    case Fire(h) => LeavingKeepsPending(s, asked, s.live[h], Expired);
    case CancelAll => LeavingAllKeepsPending(s, asked, s.pending, Cancelled);
    case Replay => ArmingTouchesClocks(s, s.pending);
    case Dispose => LeavingAllKeepsPending(s, asked, s.pending, TornDown);
    case Continue => ContinuingKeepsPending(s, asked);
    case LocalAnswer(_, _) =>
  }

  lemma {:induction false} RunKeepsPending(s: State, asked: seq<Dialog>, es: seq<Event>)
    requires Inv(s) && LegalRun(s, es) && PendingIs(s, asked)
    ensures PendingIs(Run(s, es), asked + OpenedIn(es))
    decreases |es|
  {
    if es == [] {
      assert asked + [] == asked;
    } else {
      var more := if es[0].Open? then [Dialog(es[0].id, es[0].request)] else [];
      StepKeepsPending(s, asked, es[0]);
      StepKeepsInv(s, es[0]);
      RunKeepsPending(Step(s, es[0]), asked + more, es[1..]);
      Assoc(asked, more, OpenedIn(es[1..]));
    }
  }

  /** In every run the pending dialogs are the opened ones that have not left, oldest first. */
  lemma PendingAsOpened(es: seq<Event>)
    requires LegalRun(START, es)
    ensures Run(START, es).pending == StillOpen(OpenedIn(es), Run(START, es).left)
  {
    StartIsRight();
    RunKeepsPending(START, [], es);
    assert [] + OpenedIn(es) == OpenedIn(es);
  }

  // ── What app and caller are told ──────────────────────────────────────────

  lemma NotToldBefore(left: seq<Exit>, f: Frame, w: Wake)
    requires f.Notice? && !HasLeft(left, f.id) && !HasLeft(left, w.id)
    ensures f !in ToldApp(left) && w !in ToldCaller(left)
  {
    ToldOnlyLeft(left);
  }

  lemma {:induction false} OnlyItsExitTells(left: seq<Exit>, k: nat, f: Frame, w: Wake)
    requires LeftOnce(left) && k < |left|
    requires f.Notice? && f.id == left[k].id && w.id == left[k].id
    ensures f in ToldApp(left) <==> f in Notices(left[k].how, left[k].id)
    ensures w in ToldCaller(left) <==> w in Resolves(left[k].how, left[k].id)
    decreases |left|
  {
    var front, last := left[..|left| - 1], left[|left| - 1];
    ToldOnlyLeft(front);
    if k < |front| {
      assert front[k] == left[k];
      OnlyItsExitTells(front, k, f, w);
    } else {
      NotToldBefore(front, f, w);
    }
  }

  /**
   A dialog that expired is told the app as expired, one dismissed or cancelled as resolved, and one answered
   by the app or torn down not at all; the bridge gives the caller the app's own answer, or none if all were
   cancelled or torn down, and nothing if the dialog expired or the terminal answered.
   */
  lemma WhatIsTold(es: seq<Event>, k: nat, expired: bool, v: Value)
    requires LegalRun(START, es) && k < |Run(START, es).left|
    ensures var s := Run(START, es);
            var id, how := s.left[k].id, s.left[k].how;
            && (Notice(id, expired) in OnlyNotices(s.frames)
                <==> if expired then how == Expired else how == Dismissed || how == Cancelled)
            && (Wake(id, v, true) in OnlyRemote(s.answers)
                <==> how == Answered(v) || (v == Undefined && (how == Cancelled || how == TornDown)))
  {
    StartIsRight();
    RunKeepsInv(START, es);
    var s := Run(START, es);
    OnlyItsExitTells(s.left, k, Notice(s.left[k].id, expired), Wake(s.left[k].id, v, true));
    OneExitTells(s.left[k].how, s.left[k].id, expired, v);
  }

  lemma OneExitTells(how: How, id: Id, expired: bool, v: Value)
    ensures Notice(id, expired) in Notices(how, id)
       <==> if expired then how == Expired else how == Dismissed || how == Cancelled
    ensures Wake(id, v, true) in Resolves(how, id)
       <==> how == Answered(v) || (v == Undefined && (how == Cancelled || how == TornDown))
  {
  }

  // ── Whose answer the caller has ───────────────────────────────────────────

  lemma {:induction false} LeavingAllKeepsAnswers(s: State, dialogs: seq<Dialog>, how: How)
    ensures s.answers <= LeaveAll(s, dialogs, how).answers
    decreases |dialogs|
  {
    if dialogs != [] {
      LeavingAllKeepsAnswers(Leave(s, dialogs[0].id, how), dialogs[1..], how);
    }
  }

  lemma StepKeepsAnswers(s: State, e: Event)
    requires Legal(s, e)
    ensures s.answers <= Step(s, e).answers
  {
    match e
    case CancelAll => LeavingAllKeepsAnswers(s, s.pending, Cancelled);
    case Dispose => LeavingAllKeepsAnswers(s, s.pending, TornDown);
    case Replay => ArmingTouchesClocks(s, s.pending);
    case _ =>
  }

  lemma {:induction false} RunKeepsAnswers(s: State, es: seq<Event>)
    requires LegalRun(s, es)
    ensures s.answers <= Run(s, es).answers
    decreases |es|
  {
    if es != [] {
      StepKeepsAnswers(s, es[0]);
      RunKeepsAnswers(Step(s, es[0]), es[1..]);
    }
  }

  lemma {:induction false} FirstAnswerStays(a: seq<Wake>, b: seq<Wake>, id: Id)
    requires a <= b && FirstAnswer(a, id).Some?
    ensures FirstAnswer(b, id) == FirstAnswer(a, id)
    decreases |b|
  {
    if |a| < |b| {
      FirstAnswerStays(a, b[..|b| - 1], id);
    } else {
      assert a == b;
    }
  }

  /** Nobody has answered the dialog. */
  predicate Unanswered(s: State, id: Id) {
    FirstAnswer(s.answers, id).None?
  }

  /** The event answers the dialog with this value: the app or the terminal does, or it is closed with the others. */
  ghost predicate Answers(s: State, e: Event, id: Id, v: Value) {
    match e
    case Respond(x, r) => x == id && IsPending(s, id) && v == StockValueOf(r)
    case LocalAnswer(x, local) => x == id && v == local
    case CancelAll => IsPending(s, id) && v == Undefined
    case Dispose => IsPending(s, id) && v == Undefined
    case _ => false
  }

  lemma {:induction false} AllAnswered(s: State, dialogs: seq<Dialog>, how: How, id: Id)
    requires Unanswered(s, id) && (how == Cancelled || how == TornDown)
    requires exists k :: 0 <= k < |dialogs| && dialogs[k].id == id
    ensures FirstAnswer(LeaveAll(s, dialogs, how).answers, id) == Some(Undefined)
    decreases |dialogs|
  {
    var x := dialogs[0].id;
    var t := Leave(s, x, how);
    assert t.answers == s.answers + [Wake(x, Undefined, true)];
    FirstAnswerSnoc(s.answers, Wake(x, Undefined, true), id);
    if x == id {
      LeavingAllKeepsAnswers(t, dialogs[1..], how);
      FirstAnswerStays(t.answers, LeaveAll(t, dialogs[1..], how).answers, id);
    } else {
      var k :| 0 <= k < |dialogs| && dialogs[k].id == id;
      assert dialogs[1..][k - 1].id == id;
      AllAnswered(t, dialogs[1..], how, id);
    }
  }

  lemma StepAnswers(s: State, e: Event, id: Id, v: Value)
    requires Legal(s, e) && Unanswered(s, id) && Answers(s, e, id, v)
    ensures FirstAnswer(Step(s, e).answers, id) == Some(v)
  {
    match e
    case Respond(_, r) => FirstAnswerSnoc(s.answers, Wake(id, v, true), id);
    case LocalAnswer(_, _) => FirstAnswerSnoc(s.answers, Wake(id, v, false), id);
    case CancelAll => AllAnswered(s, s.pending, Cancelled, id);
    case Dispose => AllAnswered(s, s.pending, TornDown, id);
  }

  lemma {:induction false} RunConcat(s: State, a: seq<Event>, b: seq<Event>)
    ensures LegalRun(s, a + b) <==> LegalRun(s, a) && LegalRun(Run(s, a), b)
    ensures LegalRun(s, a + b) ==> Run(s, a + b) == Run(Run(s, a), b)
    decreases |a|
  {
    if a == [] {
      assert a + b == b;
    } else {
      assert (a + b)[0] == a[0] && (a + b)[1..] == a[1..] + b;
      if Legal(s, a[0]) {
        RunConcat(Step(s, a[0]), a[1..], b);
      }
    }
  }

  /**
   Whoever is first to answer a dialog, the app, the terminal or a cancel of all, decides what its caller
   gets, whatever is answered later.
   */
  lemma FirstToAnswerDecides(a: seq<Event>, e: Event, b: seq<Event>, id: Id, v: Value)
    requires LegalRun(START, a + ([e] + b)) && Run(START, a + ([e] + b)).queue == []
    requires LegalRun(START, a) && Unanswered(Run(START, a), id) && Answers(Run(START, a), e, id, v)
    ensures var outcome := Run(START, a + ([e] + b)).outcome; id in outcome && outcome[id] == v
  {
    var s := Run(START, a);
    RunConcat(START, a, [e] + b);
    assert ([e] + b)[1..] == b;
    StepAnswers(s, e, id, v);
    RunKeepsAnswers(Step(s, e), b);
    FirstAnswerStays(Step(s, e).answers, Run(Step(s, e), b).answers, id);
    CallerGetsTheFirstAnswer(a + ([e] + b), id);
  }

  // ── Closing the terminal's dialog ─────────────────────────────────────────

  ghost predicate HeardRemote(heard: seq<Wake>, id: Id) {
    exists k :: 0 <= k < |heard| && heard[k].id == id && heard[k].remote
  }

  ghost predicate AbortsRight(s: State) {
    forall id :: id in s.aborted <==> HeardRemote(s.heard, id)
  }

  lemma HeardSnoc(heard: seq<Wake>, w: Wake, id: Id)
    ensures HeardRemote(heard + [w], id) <==> HeardRemote(heard, id) || (w.id == id && w.remote)
  {
    if HeardRemote(heard, id) {
      var k :| 0 <= k < |heard| && heard[k].id == id && heard[k].remote;
      assert (heard + [w])[k] == heard[k];
    }
    assert (heard + [w])[|heard|] == w;
  }

  lemma {:induction false} LeavingAllAbortsNone(s: State, dialogs: seq<Dialog>, how: How)
    ensures LeaveAll(s, dialogs, how).aborted == s.aborted && LeaveAll(s, dialogs, how).heard == s.heard
    decreases |dialogs|
  {
    if dialogs != [] {
      LeavingAllAbortsNone(Leave(s, dialogs[0].id, how), dialogs[1..], how);
    }
  }

  lemma StepKeepsAborts(s: State, e: Event)
    requires AbortsRight(s) && Legal(s, e)
    ensures AbortsRight(Step(s, e))
  {
    match e
    case CancelAll => LeavingAllAbortsNone(s, s.pending, Cancelled);
    case Dispose => LeavingAllAbortsNone(s, s.pending, TornDown);
    case Replay => ArmingTouchesClocks(s, s.pending);
    case Continue =>
      forall id ensures HeardRemote(s.heard + [s.queue[0]], id)
                   <==> HeardRemote(s.heard, id) || (s.queue[0].id == id && s.queue[0].remote)
      {
        HeardSnoc(s.heard, s.queue[0], id);
      }
    case _ =>
  }

  /** In every run the terminal's dialogs closed by the race are exactly those whose caller the bridge resolved. */
  lemma {:induction false} RunKeepsAborts(s: State, es: seq<Event>)
    requires AbortsRight(s) && LegalRun(s, es)
    ensures AbortsRight(Run(s, es))
    decreases |es|
  {
    if es != [] {
      StepKeepsAborts(s, es[0]);
      RunKeepsAborts(Step(s, es[0]), es[1..]);
    }
  }

  // ── A joining app ─────────────────────────────────────────────────────────

  predicate Among(dialogs: seq<Dialog>, id: Id) {
    exists k :: 0 <= k < |dialogs| && dialogs[k].id == id
  }

  lemma {:induction false} ArmingIsFresh(s: State, dialogs: seq<Dialog>, from: nat, id: Id)
    requires from <= s.nextHandle
    ensures var t := ArmAll(s, dialogs);
            && (id in t.timers <==> id in s.timers || Among(dialogs, id))
            && (id in t.timers && (Among(dialogs, id) || (id in s.timers && s.timers[id] >= from))
                ==> t.timers[id] >= from)
    decreases |dialogs|
  {
    if dialogs != [] {
      var t := ArmTimer(s, dialogs[0].id);
      ArmingIsFresh(t, dialogs[1..], from, id);
      if k :| 0 <= k < |dialogs| && dialogs[k].id == id {
        assert k > 0 ==> dialogs[1..][k - 1].id == id;
      }
      if k :| 0 <= k < |dialogs[1..]| && dialogs[1..][k].id == id {
        assert dialogs[k + 1].id == id;
      }
    }
  }

  /** After a replay every pending dialog has a new timeout, and none from before can fire any more. */
  lemma ReplayRestartsTheClocks(s: State)
    requires Inv(s)
    ensures var t := Step(s, Replay);
            && (forall id :: IsPending(t, id) <==> IsPending(s, id))
            && (forall id :: IsPending(t, id) ==> id in t.timers && t.timers[id] >= s.nextHandle)
            && (forall h :: h in t.live ==> h >= s.nextHandle)
  {
    var t := Step(s, Replay);
    StepKeepsInv(s, Replay);
    ArmingTouchesClocks(s, s.pending);
    forall id | IsPending(t, id) ensures t.timers[id] >= s.nextHandle {
      ArmingIsFresh(s, s.pending, s.nextHandle, id);
    }
  }
}
