/**
 Delivery of agent-network messages to the agent: a queue drained by a microtask when the agent's run
 flag is down, as a system of the steps the event loop can take.
 */
module MeshModel {
  import opened Base

  datatype Envelope = Envelope(id: string, sender: string, body: string)

  /** A batch being handed over: how many of its messages the agent has taken. */
  datatype Drain = Drain(batch: seq<Envelope>, delivered: nat)

  /** A message handed over, and whether it asks for a turn. */
  datatype Sent = Sent(env: Envelope, triggerTurn: bool)

  /**
   The module's variables, then what has happened: messages taken in and handed over, finished
   drains, whether the agent is running, and whether it owes the turn a batch asked for: a batch that
   ends while the agent runs is a follow-up to that run. `timers` holds the generations whose runs have
   ended but not settled.
   */
  datatype Mesh = Mesh(
    bound: bool,
    pending: seq<Envelope>,
    scheduled: bool,
    active: bool,
    generation: nat,
    timers: set<nat>,
    drain: Option<Drain>,
    received: seq<Envelope>,
    sent: seq<Sent>,
    drains: seq<Drain>,
    running: bool,
    owed: bool,
    failed: bool)

  const START := Mesh(false, [], false, false, 0, {}, None, [], [], [], false, false, false)

  datatype Label =
    | Bind
    | Receive(env: Envelope)
    | AgentStart
    | AgentEnd
    | Settle(ended: nat)
    | Microtask
    | Send
    | Throw
    | Finish

  /** The microtask is queued unless it is already, or there is nothing to hand over. */
  function Scheduled(m: Mesh): Mesh {
    if m.scheduled || m.pending == [] then m else m.(scheduled := true, failed := false)
  }

  /**
   What may happen next. Timers and microtasks wait for a drain to return, but a run may start or end
   inside a send, also inside one that then throws. The agent's runs do not overlap.
   */
  predicate Legal(m: Mesh, l: Label) {
    match l
    case Bind => true
    case Receive(_) => true
    case AgentStart => !m.running
    case AgentEnd => m.running
    case Settle(g) => m.drain.None? && g in m.timers
    case Microtask => m.drain.None? && m.scheduled
    case Send => m.drain.Some? && m.drain.value.delivered < |m.drain.value.batch|
    case Throw => m.drain.Some? && m.drain.value.delivered < |m.drain.value.batch|
    case Finish => m.drain.Some? && m.drain.value.delivered == |m.drain.value.batch|
  }

  function Step(m: Mesh, l: Label): Mesh
    requires Legal(m, l)
  {
    match l
    case Bind => m.(bound := true)
    case Receive(env) =>
      if !m.bound then m
      else Scheduled(m.(pending := m.pending + [env], received := m.received + [env]))
    case AgentStart => m.(active := true, generation := m.generation + 1, running := true, owed := false)
    case AgentEnd => m.(timers := m.timers + {m.generation}, running := false)
    case Settle(ended) =>
      var n := m.(timers := m.timers - {ended});
      if n.generation != ended then n else Scheduled(n.(active := false))
    case Microtask =>
      var n := m.(scheduled := false);
      if n.active || !n.bound || n.pending == [] then n
      else n.(pending := [], active := true, drain := Some(Drain(n.pending, 0)))
    case Send =>
      var d := m.drain.value;
      var last := d.delivered == |d.batch| - 1;
      m.(sent := m.sent + [Sent(d.batch[d.delivered], last)],
         drain := Some(d.(delivered := d.delivered + 1)),
         owed := m.owed || (last && !m.running))
    case Throw =>
      var d := m.drain.value;
      m.(active := false, pending := d.batch[d.delivered..] + m.pending,
         drain := None, drains := m.drains + [d], failed := !m.scheduled)
    case Finish =>
      m.(drain := None, drains := m.drains + [m.drain.value])
  }

  predicate LegalRun(m: Mesh, ls: seq<Label>)
    decreases |ls|
  {
    ls == [] || (Legal(m, ls[0]) && LegalRun(Step(m, ls[0]), ls[1..]))
  }

  function Run(m: Mesh, ls: seq<Label>): Mesh
    requires LegalRun(m, ls)
    decreases |ls|
  {
    if ls == [] then m else Run(Step(m, ls[0]), ls[1..])
  }

  // ── Nothing is lost, repeated or reordered ────────────────────────────────

  function Envelopes(sent: seq<Sent>): seq<Envelope> {
    seq(|sent|, i requires 0 <= i < |sent| => sent[i].env)
  }

  function Undelivered(m: Mesh): seq<Envelope>
    requires m.drain.Some? ==> m.drain.value.delivered <= |m.drain.value.batch|
  {
    if m.drain.None? then [] else m.drain.value.batch[m.drain.value.delivered..]
  }

  ghost predicate Conserved(m: Mesh) {
    && (m.drain.Some? ==> m.drain.value.delivered <= |m.drain.value.batch|)
    && m.received == Envelopes(m.sent) + Undelivered(m) + m.pending
  }

  lemma TakingConserves(m: Mesh)
    requires Conserved(m) && Legal(m, Microtask)
    ensures Conserved(Step(m, Microtask))
  {
    var e := Envelopes(m.sent);
    assert m.pending[0..] == m.pending;
    assert e + [] == e && e + m.pending + [] == e + m.pending;
  }

  lemma EnvelopesSnoc(sent: seq<Sent>, x: Sent)
    ensures Envelopes(sent + [x]) == Envelopes(sent) + [x.env]
  {
  }

  lemma FirstOfTheRest<T>(s: seq<T>, i: nat)
    requires i < |s|
    ensures s[i..] == [s[i]] + s[i + 1..]
  {
  }

  lemma SendingConserves(m: Mesh)
    requires Conserved(m) && Legal(m, Send)
    ensures Conserved(Step(m, Send))
  {
    var d := m.drain.value;
    EnvelopesSnoc(m.sent, Sent(d.batch[d.delivered], d.delivered == |d.batch| - 1));
    FirstOfTheRest(d.batch, d.delivered);
    Assoc(Envelopes(m.sent), [d.batch[d.delivered]], d.batch[d.delivered + 1..]);
  }

  lemma RefusingConserves(m: Mesh)
    requires Conserved(m) && Legal(m, Throw)
    ensures Conserved(Step(m, Throw))
  {
    Assoc(Envelopes(m.sent), Undelivered(m), m.pending);
    assert Envelopes(m.sent) + [] == Envelopes(m.sent);
  }

  /** Whatever happens next, nothing received is lost, repeated or reordered. */
  lemma StepConserves(m: Mesh, l: Label)
    requires Conserved(m) && Legal(m, l)
    ensures Conserved(Step(m, l))
  {
    match l
    case Receive(env) =>
      Assoc(Envelopes(m.sent) + Undelivered(m), m.pending, [env]);
    case Microtask => TakingConserves(m);
    case Send => SendingConserves(m);
    case Throw => RefusingConserves(m);
    case Finish => assert Undelivered(m) == [];
    case _ =>
  }

  // ── Which messages ask for a turn ─────────────────────────────────────────

  /** The first `n` messages of a batch as they are handed over: only the last of the batch asks for a turn. */
  function Handed(d: Drain): seq<Sent>
    requires d.delivered <= |d.batch|
  {
    seq(d.delivered, i requires 0 <= i < d.delivered => Sent(d.batch[i], i == |d.batch| - 1))
  }

  ghost predicate Whole(d: Drain) {
    d.delivered <= |d.batch| && d.batch != []
  }

  ghost predicate AllWhole(drains: seq<Drain>) {
    forall k :: 0 <= k < |drains| ==> Whole(drains[k])
  }

  ghost function AllHanded(drains: seq<Drain>): seq<Sent>
    requires AllWhole(drains)
  {
    if drains == [] then []
    else AllHanded(drains[..|drains| - 1]) + Handed(drains[|drains| - 1])
  }

  /** What was sent is what the drains handed over, batch by batch. */
  ghost predicate SentByBatch(m: Mesh) {
    && AllWhole(m.drains)
    && (m.drain.Some? ==> Whole(m.drain.value))
    && m.sent == AllHanded(m.drains) + (if m.drain.Some? then Handed(m.drain.value) else [])
  }

  lemma AllHandedSnoc(drains: seq<Drain>, d: Drain)
    requires AllWhole(drains) && Whole(d)
    ensures AllWhole(drains + [d]) && AllHanded(drains + [d]) == AllHanded(drains) + Handed(d)
  {
    assert (drains + [d])[..|drains|] == drains;
  }

  lemma HandOne(d: Drain)
    requires d.delivered < |d.batch|
    ensures Handed(d.(delivered := d.delivered + 1))
         == Handed(d) + [Sent(d.batch[d.delivered], d.delivered == |d.batch| - 1)]
  {
  }

  lemma SendingExtendsTheBatch(m: Mesh)
    requires SentByBatch(m) && Legal(m, Send)
    ensures SentByBatch(Step(m, Send))
  {
    var d := m.drain.value;
    HandOne(d);
    Assoc(AllHanded(m.drains), Handed(d), [Sent(d.batch[d.delivered], d.delivered == |d.batch| - 1)]);
  }

  /** A drain that returns, or fails, becomes the last of the finished ones. */
  lemma EndingKeepsBatches(m: Mesh, l: Label)
    requires SentByBatch(m) && Legal(m, l) && (l.Throw? || l.Finish?)
    ensures SentByBatch(Step(m, l))
  {
    AllHandedSnoc(m.drains, m.drain.value);
    var n := Step(m, l);
    assert AllHanded(n.drains) + [] == AllHanded(n.drains);
  }

  lemma StepSendsByBatch(m: Mesh, l: Label)
    requires SentByBatch(m) && Legal(m, l)
    ensures SentByBatch(Step(m, l))
  {
    match l
    case Microtask =>
      assert m.sent + [] == m.sent;
    case Send =>
      SendingExtendsTheBatch(m);
    case Throw =>
      EndingKeepsBatches(m, l);
    case Finish =>
      EndingKeepsBatches(m, l);
    case _ =>
  }

  function Turns(sent: seq<Sent>): nat {
    if sent == [] then 0 else Turns(sent[..|sent| - 1]) + if sent[|sent| - 1].triggerTurn then 1 else 0
  }

  /** How many batches were handed over completely. */
  function Complete(drains: seq<Drain>): nat {
    if drains == [] then 0
    else
      var d := drains[|drains| - 1];
      Complete(drains[..|drains| - 1]) + if d.delivered == |d.batch| then 1 else 0
  }

  lemma {:induction false} TurnsConcat(a: seq<Sent>, b: seq<Sent>)
    ensures Turns(a + b) == Turns(a) + Turns(b)
  {
    if b == [] {
      assert a + b == a;
    } else {
      assert (a + b)[..|a + b| - 1] == a + b[..|b| - 1];
      TurnsConcat(a, b[..|b| - 1]);
    }
  }

  lemma {:induction false} TurnsOfBatch(d: Drain)
    requires Whole(d)
    ensures Turns(Handed(d)) == if d.delivered == |d.batch| then 1 else 0
    decreases d.delivered
  {
    if d.delivered > 0 {
      var less := d.(delivered := d.delivered - 1);
      TurnsOfBatch(less);
      HandOne(less);
      assert Handed(d)[..|Handed(d)| - 1] == Handed(less);
    }
  }

  /** A batch asks for one turn if it is handed over completely, with its last message, and else for none. */
  lemma {:induction false} OneTurnPerCompleteBatch(drains: seq<Drain>)
    requires AllWhole(drains)
    ensures Turns(AllHanded(drains)) == Complete(drains)
  {
    if drains != [] {
      var d := drains[|drains| - 1];
      OneTurnPerCompleteBatch(drains[..|drains| - 1]);
      TurnsOfBatch(d);
      TurnsConcat(AllHanded(drains[..|drains| - 1]), Handed(d));
    }
  }

  // ── What the run flag means ───────────────────────────────────────────────

  /** The agent runs, owes the turn a batch asked for, or has this generation's run left to settle. */
  predicate Busy(m: Mesh) {
    m.running || m.owed || m.generation in m.timers
  }

  /** The flag is up exactly while the agent is busy or is being handed a batch. */
  predicate FlagIsExact(m: Mesh) {
    m.active <==> Busy(m) || m.drain.Some?
  }

  /** What holds of the flag in every run: it is never up without a cause. */
  ghost predicate FlagHasCause(m: Mesh) {
    && (m.active ==> Busy(m) || m.drain.Some?)
    && (m.drain.Some? ==> m.active && Whole(m.drain.value))
    && (m.drain.Some? && m.drain.value.delivered == |m.drain.value.batch| ==> Busy(m))
    && (forall g :: g in m.timers ==> g <= m.generation)
    && (m.running ==> !m.owed && m.generation !in m.timers)
  }

  lemma StepKeepsFlag(m: Mesh, l: Label)
    requires FlagHasCause(m) && Legal(m, l)
    ensures FlagHasCause(Step(m, l))
  {
  }

  /**
   The steps that take the flag down too early: a send that throws after the agent has become busy, and
   the settling of a run that ended inside a drain, when that drain has then asked for a turn.
   */
  predicate Undercuts(m: Mesh, l: Label) {
    match l
    case Throw => Busy(m)
    case Settle(ended) => ended == m.generation && m.owed
    case _ => false
  }

  /** A step keeps the flag exact if and only if it is not one of those. */
  lemma StepKeepsFlagIff(m: Mesh, l: Label)
    requires FlagHasCause(m) && FlagIsExact(m) && Legal(m, l)
    ensures FlagIsExact(Step(m, l)) <==> !Undercuts(m, l)
  {
  }

  /** A nonempty queue is scheduled, behind the run flag, or left by a drain that failed. */
  ghost predicate NeverForgotten(m: Mesh) {
    && (m.pending != [] || m.drain.Some? ==> m.bound)
    && (m.pending != [] ==> m.scheduled || m.active || m.failed)
    && (m.failed ==> m.pending != [] && !m.scheduled)
  }

  lemma StepForgetsNothing(m: Mesh, l: Label)
    requires NeverForgotten(m) && Legal(m, l)
    ensures NeverForgotten(Step(m, l))
  {
  }

  // ── Over whole runs ───────────────────────────────────────────────────────

  ghost predicate Inv(m: Mesh) {
    Conserved(m) && SentByBatch(m) && FlagHasCause(m) && NeverForgotten(m)
  }

  lemma {:induction false} RunKeepsInv(m: Mesh, ls: seq<Label>)
    requires Inv(m) && LegalRun(m, ls)
    ensures Inv(Run(m, ls))
    decreases |ls|
  {
    if ls != [] {
      StepConserves(m, ls[0]);
      StepSendsByBatch(m, ls[0]);
      StepKeepsFlag(m, ls[0]);
      StepForgetsNothing(m, ls[0]);
      RunKeepsInv(Step(m, ls[0]), ls[1..]);
    }
  }

  /** The messages that have arrived, told from the events alone: those after the agent was bound, in order. */
  function Arrived(bound: bool, ls: seq<Label>): seq<Envelope>
    decreases |ls|
  {
    if ls == [] then []
    else (if bound && ls[0].Receive? then [ls[0].env] else []) + Arrived(bound || ls[0].Bind?, ls[1..])
  }

  lemma StepTakesIn(m: Mesh, l: Label)
    requires Legal(m, l)
    ensures var n := Step(m, l);
            && n.received == m.received + (if m.bound && l.Receive? then [l.env] else [])
            && n.bound == (m.bound || l.Bind?)
  {
    assert m.received + [] == m.received;
  }

  lemma {:induction false} RunTakesInAll(m: Mesh, ls: seq<Label>)
    requires LegalRun(m, ls)
    ensures Run(m, ls).received == m.received + Arrived(m.bound, ls)
    decreases |ls|
  {
    if ls == [] {
      assert m.received + [] == m.received;
    } else {
      StepTakesIn(m, ls[0]);
      RunTakesInAll(Step(m, ls[0]), ls[1..]);
      Assoc(m.received, if m.bound && ls[0].Receive? then [ls[0].env] else [],
            Arrived(m.bound || ls[0].Bind?, ls[1..]));
    }
  }

  /**
   In every run: what was handed over, is being handed over or waits is exactly what has arrived, in order;
   turns are asked for batch by batch, and no queue is forgotten.
   */
  lemma EveryRunDelivers(ls: seq<Label>)
    requires LegalRun(START, ls)
    ensures var m := Run(START, ls);
            Inv(m) && Envelopes(m.sent) + Undelivered(m) + m.pending == Arrived(false, ls)
    ensures var m := Run(START, ls);
            m.pending != [] ==> m.scheduled || Busy(m) || m.drain.Some? || m.failed
    ensures var m := Run(START, ls); m.drain.None? ==> Turns(m.sent) == Complete(m.drains)
  {
    assert Envelopes([]) == [];
    RunKeepsInv(START, ls);
    RunTakesInAll(START, ls);
    assert [] + Arrived(false, ls) == Arrived(false, ls);
    var m := Run(START, ls);
    OneTurnPerCompleteBatch(m.drains);
    assert m.drain.None? ==> m.sent == AllHanded(m.drains);
  }

  ghost predicate ExactThroughout(m: Mesh, ls: seq<Label>)
    requires LegalRun(m, ls)
    decreases |ls|
  {
    FlagIsExact(m) && (ls != [] ==> ExactThroughout(Step(m, ls[0]), ls[1..]))
  }

  predicate NeverUndercut(m: Mesh, ls: seq<Label>)
    requires LegalRun(m, ls)
    decreases |ls|
  {
    ls == [] || (!Undercuts(m, ls[0]) && NeverUndercut(Step(m, ls[0]), ls[1..]))
  }

  lemma {:induction false} ExactFromHereIff(m: Mesh, ls: seq<Label>)
    requires FlagHasCause(m) && FlagIsExact(m) && LegalRun(m, ls)
    ensures ExactThroughout(m, ls) <==> NeverUndercut(m, ls)
    decreases |ls|
  {
    if ls != [] {
      var n := Step(m, ls[0]);
      StepKeepsFlag(m, ls[0]);
      StepKeepsFlagIff(m, ls[0]);
      if FlagIsExact(n) {
        ExactFromHereIff(n, ls[1..]);
      } else {
        assert !ExactThroughout(n, ls[1..]);
      }
    }
  }

  /** The flag is exact all through a run if and only if no step of it takes the flag down too early. */
  lemma FlagIsExactIff(ls: seq<Label>)
    requires LegalRun(START, ls)
    ensures ExactThroughout(START, ls) <==> NeverUndercut(START, ls)
  {
    ExactFromHereIff(START, ls);
  }

  /** While no step has taken the flag down too early, a drain starts only before an idle agent. */
  lemma {:induction false} DrainsStartIdle(m: Mesh, ls: seq<Label>)
    requires FlagHasCause(m) && FlagIsExact(m) && LegalRun(m, ls) && NeverUndercut(m, ls)
    requires Legal(Run(m, ls), Microtask) && Step(Run(m, ls), Microtask).drain.Some?
    ensures !Busy(Run(m, ls))
    decreases |ls|
  {
    if ls != [] {
      StepKeepsFlag(m, ls[0]);
      StepKeepsFlagIff(m, ls[0]);
      DrainsStartIdle(Step(m, ls[0]), ls[1..]);
    }
  }

  /** The agent is bound, a message arrives, and the agent is about to be handed it. */
  lemma FirstDrain(a: Envelope)
    ensures var ls := [Bind, Receive(a), Microtask];
            && LegalRun(START, ls)
            && Run(START, ls)
            == Mesh(true, [], false, true, 0, {}, Some(Drain([a], 0)), [a], [], [], false, false, false)
  {
    var m := Step(Step(START, Bind), Receive(a));
    assert m.pending == [a] && m.received == [a];
    var n := Step(m, Microtask);
    assert LegalRun(n, []);
    RunCons(m, Microtask, []);
    assert [Microtask] + [] == [Microtask];
    RunCons(Step(START, Bind), Receive(a), [Microtask]);
    assert [Receive(a)] + [Microtask] == [Receive(a), Microtask];
    RunCons(START, Bind, [Receive(a), Microtask]);
    assert [Bind] + [Receive(a), Microtask] == [Bind, Receive(a), Microtask];
  }

  /** A send that starts a run and then throws leaves the flag down, and the next batch reaches a busy agent. */
  lemma ThrowBesideARun(a: Envelope, b: Envelope)
    ensures var ls := [Bind, Receive(a), Microtask] + [AgentStart, Throw, Receive(b)];
            && LegalRun(START, ls) && Busy(Run(START, ls)) && !FlagIsExact(Run(START, ls))
            && Legal(Run(START, ls), Microtask) && Step(Run(START, ls), Microtask).drain.Some?
  {
    FirstDrain(a);
    var m := Run(START, [Bind, Receive(a), Microtask]);
    var n := Step(m, AgentStart);
    var t := Step(n, Throw);
    assert LegalRun(Step(t, Receive(b)), []);
    RunCons(t, Receive(b), []);
    assert [Receive(b)] + [] == [Receive(b)];
    RunCons(n, Throw, [Receive(b)]);
    assert [Throw] + [Receive(b)] == [Throw, Receive(b)];
    RunCons(m, AgentStart, [Throw, Receive(b)]);
    assert [AgentStart] + [Throw, Receive(b)] == [AgentStart, Throw, Receive(b)];
    RunConcat(START, [Bind, Receive(a), Microtask], [AgentStart, Throw, Receive(b)]);
  }

  // ── A scheduled queue is delivered ────────────────────────────────────────

  function Sends(n: nat): seq<Label> {
    if n == 0 then [Finish] else [Send] + Sends(n - 1)
  }

  lemma {:induction false} RunConcat(m: Mesh, a: seq<Label>, b: seq<Label>)
    ensures LegalRun(m, a + b) <==> LegalRun(m, a) && LegalRun(Run(m, a), b)
    ensures LegalRun(m, a + b) ==> Run(m, a + b) == Run(Run(m, a), b)
    decreases |a|
  {
    if a == [] {
      assert a + b == b;
    } else {
      assert (a + b)[0] == a[0] && (a + b)[1..] == a[1..] + b;
      if Legal(m, a[0]) {
        RunConcat(Step(m, a[0]), a[1..], b);
      }
    }
  }

  lemma RunCons(m: Mesh, l: Label, ls: seq<Label>)
    requires Legal(m, l) && LegalRun(Step(m, l), ls)
    ensures LegalRun(m, [l] + ls) && Run(m, [l] + ls) == Run(Step(m, l), ls)
  {
    assert ([l] + ls)[1..] == ls;
  }

  lemma {:induction false} SendsEmptyTheBatch(m: Mesh)
    requires Inv(m) && m.drain.Some?
    ensures var n := |m.drain.value.batch| - m.drain.value.delivered;
            && LegalRun(m, Sends(n))
            && Run(m, Sends(n)).drain.None? && Run(m, Sends(n)).pending == m.pending
            && Run(m, Sends(n)).received == m.received
    decreases |m.drain.value.batch| - m.drain.value.delivered
  {
    var d := m.drain.value;
    if d.delivered == |d.batch| {
      assert LegalRun(Step(m, Finish), []);
      RunCons(m, Finish, []);
      assert [Finish] + [] == [Finish];
    } else {
      StepConserves(m, Send);
      StepSendsByBatch(m, Send);
      StepKeepsFlag(m, Send);
      StepForgetsNothing(m, Send);
      SendsEmptyTheBatch(Step(m, Send));
      RunCons(m, Send, Sends(|d.batch| - d.delivered - 1));
    }
  }

  /** From any reachable state, a scheduled queue before an idle agent is handed over whole. */
  lemma ScheduledQueueIsDelivered(m: Mesh)
    requires Inv(m) && m.scheduled && m.pending != [] && !m.active
    ensures var ls := [Microtask] + Sends(|m.pending|);
            LegalRun(m, ls) && Envelopes(Run(m, ls).sent) == m.received && Run(m, ls).pending == []
  {
    var n := Step(m, Microtask);
    StepConserves(m, Microtask);
    StepSendsByBatch(m, Microtask);
    StepKeepsFlag(m, Microtask);
    StepForgetsNothing(m, Microtask);
    SendsEmptyTheBatch(n);
    RunCons(m, Microtask, Sends(|m.pending|));
    RunKeepsInv(m, [Microtask] + Sends(|m.pending|));
    var t := Run(m, [Microtask] + Sends(|m.pending|));
    assert Envelopes(t.sent) + [] + [] == Envelopes(t.sent);
  }

  /** A queue behind a run, or left by a failed drain, is scheduled once a run has ended and settled. */
  lemma SettlingReschedules(m: Mesh)
    requires Inv(m) && m.drain.None? && m.pending != [] && (m.running || (!m.active && m.failed))
    ensures var ls := if m.running then [AgentEnd, Settle(m.generation)]
                      else [AgentStart, AgentEnd, Settle(m.generation + 1)];
            LegalRun(m, ls) && Run(m, ls).scheduled && !Run(m, ls).active && Run(m, ls).pending == m.pending
  {
    var g := if m.running then m.generation else m.generation + 1;
    var a := if m.running then m else Step(m, AgentStart);
    var b := Step(a, AgentEnd);
    var c := Step(b, Settle(g));
    assert LegalRun(c, []);
    RunCons(b, Settle(g), []);
    RunCons(a, AgentEnd, [Settle(g)] + []);
    if m.running {
      assert [AgentEnd] + ([Settle(g)] + []) == [AgentEnd, Settle(g)];
    } else {
      RunCons(m, AgentStart, [AgentEnd] + ([Settle(g)] + []));
      assert [AgentStart] + ([AgentEnd] + ([Settle(g)] + [])) == [AgentStart, AgentEnd, Settle(g)];
    }
  }
}
