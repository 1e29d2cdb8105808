/** The module that delivers mesh messages, in place, proved against the steps of `MeshModel`. */
module MeshDelivery {
  import opened Base
  import opened MeshModel

  /** What may reach the module while the agent is being handed a message. */
  datatype Event = Received(env: Envelope) | Started | Ended

  /** The agent's answer to one message: it is taken or refused, and events arrive meanwhile. */
  datatype Attempt = Attempt(throws: bool, during: seq<Event>)

  function EventLabel(e: Event): Label {
    match e
    case Received(env) => Receive(env)
    case Started => AgentStart
    case Ended => AgentEnd
  }

  function EventLabels(events: seq<Event>): seq<Label> {
    if events == [] then [] else [EventLabel(events[0])] + EventLabels(events[1..])
  }

  function AttemptLabels(a: Attempt): seq<Label> {
    if a.throws then EventLabels(a.during) + [Throw] else [Send] + EventLabels(a.during)
  }

  /** The steps of handing over `n` messages: to the end of the batch, or to the first refusal. */
  function DrainLabels(n: nat, script: seq<Attempt>): seq<Label>
    requires n <= |script|
    decreases n
  {
    if n == 0 then [Finish]
    else if script[0].throws then AttemptLabels(script[0])
    else AttemptLabels(script[0]) + DrainLabels(n - 1, script[1..])
  }

  /** The whole microtask: it returns at once, or hands the queue over. */
  function MicrotaskLabels(m: Mesh, script: seq<Attempt>): seq<Label>
    requires |m.pending| <= |script|
  {
    if m.active || !m.bound || m.pending == [] then [Microtask]
    else [Microtask] + DrainLabels(|m.pending|, script)
  }

  /** From `m` on, the answers to the messages of a batch of `n` from the `i`-th on lead to `goal`. */
  ghost predicate LeadsTo(m: Mesh, n: nat, script: seq<Attempt>, i: nat, goal: Mesh) {
    && i <= n <= |script|
    && LegalRun(m, DrainLabels(n - i, script[i..]))
    && Run(m, DrainLabels(n - i, script[i..])) == goal
  }

  lemma NextAttempt(m: Mesh, n: nat, script: seq<Attempt>, i: nat, goal: Mesh)
    requires LeadsTo(m, n, script, i, goal) && i < n
    ensures LegalRun(m, AttemptLabels(script[i]))
    ensures var after := Run(m, AttemptLabels(script[i]));
            if script[i].throws then after == goal else LeadsTo(after, n, script, i + 1, goal)
  {
    assert script[i..][0] == script[i] && script[i..][1..] == script[i + 1..];
    RunConcat(m, AttemptLabels(script[i]), DrainLabels(n - i - 1, script[i + 1..]));
  }

  lemma LastAttempt(m: Mesh, n: nat, script: seq<Attempt>, goal: Mesh)
    requires LeadsTo(m, n, script, n, goal)
    ensures Legal(m, Finish) && Step(m, Finish) == goal
  {
    assert [Finish][1..] == [];
  }

  class Delivery {
    var bound: bool
    var pending: seq<Envelope>
    var scheduled: bool
    var active: bool
    var generation: nat
    var sent: seq<Sent>
    ghost var timers: set<nat>
    ghost var drain: Option<Drain>
    ghost var received: seq<Envelope>
    ghost var drains: seq<Drain>
    ghost var running: bool
    ghost var owed: bool
    ghost var failed: bool

    ghost function View(): Mesh
      reads this
    {
      Mesh(bound, pending, scheduled, active, generation, timers, drain, received, sent, drains, running, owed, failed)
    }

    constructor ()
      ensures View() == START
    {
      bound, pending, scheduled, active, generation, sent := false, [], false, false, 0, [];
      timers, drain, received, drains, running, owed, failed := {}, None, [], [], false, false, false;
    }

    method BindAgent()
      modifies this
      ensures View() == Step(old(View()), Bind)
    {
      bound := true;
    }

    method ScheduleMeshMessageDrain()
      modifies this
      ensures View() == Scheduled(old(View()))
    {
      if scheduled || |pending| == 0 {
        return;
      }
      scheduled := true;
      failed := false;
    }

    method DeliverMeshMessageToAgent(env: Envelope)
      modifies this
      ensures View() == Step(old(View()), Receive(env))
    {
      if !bound {
        return;
      }
      received := received + [env];
      pending := pending + [env];
      ScheduleMeshMessageDrain();
    }

    method OnAgentStart()
      requires Legal(View(), AgentStart)
      modifies this
      ensures View() == Step(old(View()), AgentStart)
    {
      active := true;
      generation := generation + 1;
      running, owed := true, false;
    }

    /** Hands back the generation whose settling has been put off to the next tick. */
    method OnAgentEnd() returns (endedGeneration: nat)
      requires Legal(View(), AgentEnd)
      modifies this
      ensures View() == Step(old(View()), AgentEnd) && endedGeneration == old(generation)
    {
      endedGeneration := generation;
      timers, running := timers + {generation}, false;
    }

    method SettleRun(endedGeneration: nat)
      requires Legal(View(), Settle(endedGeneration))
      modifies this
      ensures View() == Step(old(View()), Settle(endedGeneration))
    {
      timers := timers - {endedGeneration};
      if generation != endedGeneration {
        return;
      }
      active := false;
      ScheduleMeshMessageDrain();
    }

    method Play(events: seq<Event>)
      requires LegalRun(View(), EventLabels(events))
      modifies this
      ensures View() == Run(old(View()), EventLabels(events)) && drain == old(drain)
      decreases |events|
    {
      if events == [] {
        return;
      }
      ghost var rest := EventLabels(events[1..]);
      assert EventLabels(events)[1..] == rest;
      match events[0] {
        case Received(env) => DeliverMeshMessageToAgent(env);
        case Started => OnAgentStart();
        case Ended => var _ := OnAgentEnd();
      }
      Play(events[1..]);
    }

    /** The agent takes a message. */
    method HandOver(batch: seq<Envelope>, delivered: nat)
      requires drain == Some(Drain(batch, delivered)) && delivered < |batch|
      modifies this
      ensures View() == Step(old(View()), Send)
    {
      var isLast := delivered == |batch| - 1;
      sent := sent + [Sent(batch[delivered], isLast)];
      owed := owed || (isLast && !running);
      drain := Some(Drain(batch, delivered + 1));
    }

    /** The agent refuses a message: it and those after it go back to the front of the queue. */
    method PutBack(batch: seq<Envelope>, delivered: nat)
      requires drain == Some(Drain(batch, delivered)) && delivered < |batch|
      modifies this
      ensures View() == Step(old(View()), Throw)
    {
      active := false;
      pending := batch[delivered..] + pending;
      drains, drain, failed := drains + [Drain(batch, delivered)], None, !scheduled;
    }

    /** One message: it is taken, then events arrive; or they arrive and it is refused. */
    method SendMessage(batch: seq<Envelope>, delivered: nat, attempt: Attempt)
      requires drain == Some(Drain(batch, delivered)) && delivered < |batch|
      requires LegalRun(View(), AttemptLabels(attempt))
      modifies this
      ensures View() == Run(old(View()), AttemptLabels(attempt))
      ensures drain == if attempt.throws then None else Some(Drain(batch, delivered + 1))
    {
      if attempt.throws {
        RunConcat(View(), EventLabels(attempt.during), [Throw]);
        Play(attempt.during);
        PutBack(batch, delivered);
      } else {
        assert ([Send] + EventLabels(attempt.during))[1..] == EventLabels(attempt.during);
        HandOver(batch, delivered);
        Play(attempt.during);
      }
    }

    /** The queued microtask; `script` is how the agent answers each message in turn. */
    method RunMicrotask(script: seq<Attempt>)
      requires |pending| <= |script|
      requires LegalRun(View(), MicrotaskLabels(View(), script))
      modifies this
      ensures View() == Run(old(View()), MicrotaskLabels(old(View()), script))
      ensures drain.None?
    {
      ghost var labels := MicrotaskLabels(View(), script);
      scheduled := false;
      if active || !bound || |pending| == 0 {
        assert labels[1..] == [];
        return;
      }
      assert labels[1..] == DrainLabels(|pending|, script);
      var batch := pending;
      pending := [];
      active := true;
      drain := Some(Drain(batch, 0));
      SendBatch(batch, script);
    }

    method SendBatch(batch: seq<Envelope>, script: seq<Attempt>)
      requires |batch| <= |script| && drain == Some(Drain(batch, 0))
      requires LegalRun(View(), DrainLabels(|batch|, script))
      modifies this
      ensures View() == Run(old(View()), DrainLabels(|batch|, script))
      ensures drain.None?
    {
      ghost var goal := Run(View(), DrainLabels(|batch|, script));
      var delivered := 0;
      assert script[0..] == script;
      while delivered < |batch|
        invariant delivered <= |batch| && drain == Some(Drain(batch, delivered))
        invariant LeadsTo(View(), |batch|, script, delivered, goal)
      {
        NextAttempt(View(), |batch|, script, delivered, goal);
        SendMessage(batch, delivered, script[delivered]);
        if script[delivered].throws {
          return;
        }
        delivered := delivered + 1;
      }
      LastAttempt(View(), |batch|, script, goal);
      drains, drain := drains + [Drain(batch, delivered)], None;
    }
  }
}
