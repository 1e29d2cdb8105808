/** The dialog bridge and the race around it, in place, proved against the events of `UiModel`. */
module UiBridge {
  import opened Base
  import opened UiModel

  /** What tearing down tells the callers, and records. */
  function TornWakes(dialogs: seq<Dialog>): seq<Wake> {
    if dialogs == [] then [] else [Wake(dialogs[0].id, Undefined, true)] + TornWakes(dialogs[1..])
  }

  function TornExits(dialogs: seq<Dialog>): seq<Exit> {
    if dialogs == [] then [] else [Exit(dialogs[0].id, TornDown)] + TornExits(dialogs[1..])
  }

  lemma {:induction false} TornDownAtOnce(s: State, dialogs: seq<Dialog>)
    ensures var t := LeaveAll(s, dialogs, TornDown);
            && t.nextHandle == s.nextHandle && t.outcome == s.outcome && t.aborted == s.aborted
            && t.frames == s.frames && t.known == s.known && t.heard == s.heard
            && t.queue == s.queue + TornWakes(dialogs) && t.answers == s.answers + TornWakes(dialogs)
            && t.left == s.left + TornExits(dialogs)
    decreases |dialogs|
  {
    if dialogs != [] {
      var id, rest := dialogs[0].id, dialogs[1..];
      TornDownAtOnce(Leave(s, id, TornDown), rest);
      Assoc(s.queue, [Wake(id, Undefined, true)], TornWakes(rest));
      Assoc(s.answers, [Wake(id, Undefined, true)], TornWakes(rest));
      Assoc(s.left, [Exit(id, TornDown)], TornExits(rest));
    }
  }

  class Bridge {
    var pending: seq<Dialog>
    var timers: map<Id, nat>
    var live: map<nat, Id>
    var nextHandle: nat
    var queue: seq<Wake>
    var outcome: map<Id, Value>
    var aborted: set<Id>
    var frames: seq<Frame>
    ghost var known: set<Id>
    ghost var left: seq<Exit>
    ghost var answers: seq<Wake>
    ghost var heard: seq<Wake>

    ghost function View(): State
      reads this
    {
      State(pending, timers, live, nextHandle, queue, outcome, aborted, frames, known, left, answers, heard)
    }

    constructor ()
      ensures View() == START
    {
      pending, timers, live, nextHandle := [], map[], map[], 0;
      queue, outcome, aborted, frames := [], map[], {}, [];
      known, left, answers, heard := {}, [], [], [];
    }

    method ClearStockTtl(id: Id)
      modifies this`timers, this`live
      ensures View() == ClearTimer(old(View()), id)
    {
      if id in timers {
        live := live - {timers[id]};
        timers := timers - {id};
      }
    }

    method ArmStockTtl(id: Id)
      modifies this`timers, this`live, this`nextHandle
      ensures View() == ArmTimer(old(View()), id)
    {
      ClearStockTtl(id);
      timers := timers[id := nextHandle];
      live := live[nextHandle := id];
      nextHandle := nextHandle + 1;
    }

    /** `id` is a fresh random one. */
    method OpenStock(id: Id, request: Request)
      requires id !in known
      modifies this
      ensures View() == Step(old(View()), Open(id, request))
    {
      pending := pending + [Dialog(id, request)];
      frames := frames + [Shown(Dialog(id, request))];
      known := known + {id};
      ArmStockTtl(id);
    }

    predicate Awaits(id: Id)
      reads this`pending
    {
      exists k :: 0 <= k < |pending| && pending[k].id == id
    }

    /** The terminal answered: no effect if the app did before. */
    method DismissStock(id: Id)
      modifies this
      ensures View() == Dismiss(old(View()), id)
    {
      if !Awaits(id) {
        return;
      }
      pending := Removed(pending, id);
      ClearStockTtl(id);
      frames := frames + [Notice(id, false)];
      left := left + [Exit(id, Dismissed)];
      assert queue + [] == queue && answers + [] == answers;
    }

    /** The app answered: the caller is resolved, and the app needs no notice. */
    method Respond(id: Id, response: Response)
      modifies this
      ensures View() == Step(old(View()), UiModel.Respond(id, response))
    {
      if !Awaits(id) {
        return;
      }
      var value := StockValueOf(response);
      pending := Removed(pending, id);
      ClearStockTtl(id);
      queue := queue + [Wake(id, value, true)];
      answers := answers + [Wake(id, value, true)];
      left := left + [Exit(id, Answered(value))];
      assert frames + [] == frames;
    }

    /** A timeout fires; the dialog goes, and only the app is told. */
    method OnTimeout(handle: nat)
      requires TimersMatch(View()) && handle in live
      modifies this
      ensures View() == Step(old(View()), Fire(handle))
    {
      var id := live[handle];
      assert timers[id] == handle;
      live := live - {handle};
      if !Awaits(id) {
        return;
      }
      pending := Removed(pending, id);
      timers := timers - {id};
      frames := frames + [Notice(id, true)];
      left := left + [Exit(id, Expired)];
      assert queue + [] == queue && answers + [] == answers;
    }

    method CancelOne(id: Id)
      modifies this
      ensures View() == Leave(old(View()), id, Cancelled)
    {
      pending := Removed(pending, id);
      ClearStockTtl(id);
      queue := queue + [Wake(id, Undefined, true)];
      answers := answers + [Wake(id, Undefined, true)];
      frames := frames + [Notice(id, false)];
      left := left + [Exit(id, Cancelled)];
    }

    method CancelAllPending() returns (n: nat)
      requires UniqueIds(pending)
      modifies this
      ensures View() == Step(old(View()), CancelAll)
      ensures n == |old(pending)| && pending == []
    {
      n := 0;
      ghost var goal := LeaveAll(View(), pending, Cancelled);
      while pending != []
        invariant UniqueIds(pending) && n + |pending| == |old(pending)|
        invariant LeaveAll(View(), pending, Cancelled) == goal
        decreases |pending|
      {
        RemovedFirst(pending);
        assert UniqueIds(pending[1..]);
        CancelOne(pending[0].id);
        n := n + 1;
      }
    }

    /** What a joining app is shown, oldest first; each dialog gets a fresh window. */
    method PendingRequests() returns (replayed: seq<Dialog>)
      modifies this
      ensures View() == Step(old(View()), Replay)
      ensures replayed == old(pending)
    {
      ghost var goal := ArmAll(View(), pending);
      var i := 0;
      assert pending[0..] == pending;
      while i < |pending|
        invariant i <= |pending| && pending == old(pending)
        invariant ArmAll(View(), pending[i..]) == goal
      {
        assert pending[i..][1..] == pending[i + 1..];
        ArmStockTtl(pending[i].id);
        i := i + 1;
      }
      replayed := pending;
    }

    method ResolveAll()
      modifies this`queue, this`answers
      ensures queue == old(queue) + TornWakes(pending) && answers == old(answers) + TornWakes(pending)
    {
      for i := 0 to |pending|
        invariant queue == old(queue) + TornWakes(pending[..i]) && answers == old(answers) + TornWakes(pending[..i])
      {
        assert pending[..i + 1] == pending[..i] + [pending[i]];
        TornWakesSnoc(pending[..i], pending[i]);
        queue := queue + [Wake(pending[i].id, Undefined, true)];
        answers := answers + [Wake(pending[i].id, Undefined, true)];
      }
      assert pending[..|pending|] == pending;
    }

    /** Teardown resolves every caller, and tells the app nothing. */
    method Dispose()
      requires Inv(View())
      modifies this
      ensures View() == Step(old(View()), UiModel.Dispose)
      ensures pending == [] && timers == map[] && live == map[] && frames == old(frames)
    {
      TornDownIs(View());
      timers, live := map[], map[];
      ResolveAll();
      left := left + TornExits(pending);
      pending := [];
    }

    /** The continuation of an answer in the race around a dialog. */
    method RunContinuation()
      requires queue != []
      modifies this
      ensures View() == Step(old(View()), Continue)
    {
      var w := queue[0];
      queue := queue[1..];
      heard := heard + [w];
      outcome := Settle(outcome, w.id, w.value);
      if w.remote {
        aborted := aborted + {w.id};
      } else {
        DismissStock(w.id);
      }
    }
  }

  lemma TornDownIs(s: State)
    requires Inv(s)
    ensures LeaveAll(s, s.pending, TornDown)
         == s.(pending := [], timers := map[], live := map[], queue := s.queue + TornWakes(s.pending),
               answers := s.answers + TornWakes(s.pending), left := s.left + TornExits(s.pending))
  {
    TornDownAtOnce(s, s.pending);
    LeaveAllKeepsInv(s, TornDown);
    NoDialogsNoTimers(LeaveAll(s, s.pending, TornDown));
  }

  lemma NoDialogsNoTimers(s: State)
    requires TimersMatch(s) && s.pending == []
    ensures s.timers == map[] && s.live == map[]
  {
    assert forall id :: !IsPending(s, id);
    assert forall id :: id !in s.timers;
    assert forall h :: h !in s.live;
  }

  lemma {:induction false} TornWakesSnoc(dialogs: seq<Dialog>, d: Dialog)
    ensures TornWakes(dialogs + [d]) == TornWakes(dialogs) + [Wake(d.id, Undefined, true)]
  {
    if dialogs == [] {
      assert dialogs + [d] == [d] && [d][1..] == [];
    } else {
      assert (dialogs + [d])[1..] == dialogs[1..] + [d];
      TornWakesSnoc(dialogs[1..], d);
    }
  }
}
