/**
 Subscribers and allow-list pushes interleaved lock by lock. A subscribe request records what was
 asked, is filtered by the allow-lists, and is then applied; a push changes an allow-list and is
 then reconciled. Other connections may step in between.
 */
module RoomSteps {
  import opened Base
  import opened Rooms

  type Conn = nat

  /** A subscribe request under way: who asks for what, and what the filter has let through. */
  datatype Draft = Draft(y: Id, asked: set<Id>, granted: Option<set<Id>>)

  datatype Push = Push(machine: Id, owners: set<Id>)

  datatype State = State(
    edges: set<Edge>,
    requested: map<Id, set<Id>>,
    allowed: map<Id, set<Id>>,
    drafts: map<Conn, Draft>,
    pushes: map<Conn, Push>)

  datatype Label =
    | Ask(c: Conn, y: Id, peers: set<Id>)
    | Filter(c: Conn)
    | Apply(c: Conn)
    | SetAllowed(c: Conn, m: Id, owners: set<Id>)
    | Reconcile(c: Conn)
    | Leave(y: Id)
    | Cancel(y: Id, peers: set<Id>)

  ghost const INIT := State({}, map[], map[], map[], map[])

  ghost predicate Legal(s: State, l: Label) {
    match l
    case Ask(c, _, _) => c !in s.drafts
    case Filter(c) => c in s.drafts && s.drafts[c].granted.None?
    case Apply(c) => c in s.drafts && s.drafts[c].granted.Some?
    case SetAllowed(c, _, _) => c !in s.pushes
    case Reconcile(c) => c in s.pushes
    case Leave(_) => true
    case Cancel(_, _) => true
  }

  ghost function Granted(s: State, d: Draft): set<Id> {
    set m | m in d.asked && Has(s.allowed, m, d.y)
  }

  ghost function Step(s: State, l: Label): State
    requires Legal(s, l)
  {
    match l
    case Ask(c, y, peers) =>
      s.(requested := Requested(s.requested, y, peers), drafts := s.drafts[c := Draft(y, peers, None)])
    case Filter(c) =>
      s.(drafts := s.drafts[c := s.drafts[c].(granted := Some(Granted(s, s.drafts[c])))])
    case Apply(c) =>
      s.(edges := AfterSubscribe(s.edges, s.drafts[c].y, s.drafts[c].granted.value), drafts := s.drafts - {c})
    case SetAllowed(c, m, owners) =>
      s.(allowed := s.allowed[m := owners], pushes := s.pushes[c := Push(m, owners)])
    case Reconcile(c) =>
      var p := s.pushes[c];
      s.(edges := AfterReconcile(s.edges, s.requested, p.machine, p.owners), pushes := s.pushes - {c})
    case Leave(y) =>
      s.(edges := Dropped(s.edges, y), requested := s.requested - {y})
    case Cancel(y, peers) =>
      s.(edges := AfterUnsubscribe(s.edges, y, peers))
  }

  ghost predicate LegalRun(s: State, ls: seq<Label>)
    decreases |ls|, 0
  {
    ls == [] || (LegalRun(s, ls[..|ls| - 1]) && Legal(Run(s, ls[..|ls| - 1]), ls[|ls| - 1]))
  }

  ghost function Run(s: State, ls: seq<Label>): State
    requires LegalRun(s, ls)
    decreases |ls|, 1
  {
    if ls == [] then s else Step(Run(s, ls[..|ls| - 1]), ls[|ls| - 1])
  }

  lemma RunSnoc(s: State, ls: seq<Label>, l: Label)
    requires LegalRun(s, ls) && Legal(Run(s, ls), l)
    ensures LegalRun(s, ls + [l]) && Run(s, ls + [l]) == Step(Run(s, ls), l)
  {
    assert (ls + [l])[..|ls|] == ls;
  }

  lemma {:induction false} PrefixIsLegal(s: State, ls: seq<Label>, k: nat)
    requires LegalRun(s, ls) && k <= |ls|
    ensures LegalRun(s, ls[..k])
  {
    if k < |ls| {
      assert ls[..|ls| - 1][..k] == ls[..k];
      PrefixIsLegal(s, ls[..|ls| - 1], k);
    } else {
      assert ls[..k] == ls;
    }
  }

  /** What is on record is what each subscriber last asked for, and never an empty wish. */
  ghost predicate IntentsRight(requested: map<Id, set<Id>>, said: map<Id, set<Id>>) {
    forall y :: (y in requested <==> y in said && said[y] != {}) && (y in requested ==> requested[y] == said[y])
  }

  /** What each subscriber last said: asking, or leaving, which says nothing is wanted. */
  ghost function Said(ls: seq<Label>): map<Id, set<Id>> {
    if ls == [] then map[]
    else
      var before := Said(ls[..|ls| - 1]);
      match ls[|ls| - 1]
      case Ask(_, y, peers) => before[y := peers]
      case Leave(y) => before[y := {}]
      case _ => before
  }

  lemma {:induction false} IntentsAreSaid(ls: seq<Label>)
    requires LegalRun(INIT, ls)
    ensures IntentsRight(Run(INIT, ls).requested, Said(ls))
  {
    if ls != [] {
      IntentsAreSaid(ls[..|ls| - 1]);
    }
  }

  // ── What the edges should be ──────────────────────────────────────────────

  /** `y` asked for `m`, and `m` allows it. */
  ghost predicate Wanted(s: State, m: Id, y: Id) {
    Has(s.requested, y, m) && Has(s.allowed, m, y)
  }

  ghost predicate Asking(s: State, y: Id) {
    exists c :: c in s.drafts && s.drafts[c].y == y
  }

  ghost predicate Pushing(s: State, m: Id) {
    exists c :: c in s.pushes && s.pushes[c].machine == m
  }

  /** Watching is exactly asking and being allowed, wherever no request or push is under way. */
  ghost predicate Exact(s: State) {
    forall m, y :: !Asking(s, y) && !Pushing(s, m) ==> ((m, y) in s.edges <==> Wanted(s, m, y))
  }

  /** The list holds what the subscriber wants, wherever no push is under way. */
  ghost predicate UpToDate(s: State, y: Id, list: set<Id>) {
    forall m :: !Pushing(s, m) ==> (m in list <==> Wanted(s, m, y))
  }

  /** Of those who asked for `m` and are not asking again, the owners are those `m` now allows. */
  ghost predicate OwnersStand(s: State, m: Id, owners: set<Id>) {
    forall y :: !Asking(s, y) && Has(s.requested, y, m) ==> (y in owners <==> Has(s.allowed, m, y))
  }

  /** None of the peers is one the subscriber asked for and may watch. */
  ghost predicate CancelsNothing(s: State, y: Id, peers: set<Id>) {
    forall m :: m in peers && !Pushing(s, m) ==> !Wanted(s, m, y)
  }

  /**
   What a step writes is right, unless a later write of the same kind is already under way: the list
   applied, the owners reconciled, and the edges cancelled.
   */
  ghost predicate Current(s: State, l: Label)
    requires Legal(s, l)
  {
    match l
    case Apply(c) => Asking(Step(s, l), s.drafts[c].y) || UpToDate(s, s.drafts[c].y, s.drafts[c].granted.value)
    case Reconcile(c) =>
      Pushing(Step(s, l), s.pushes[c].machine) || OwnersStand(s, s.pushes[c].machine, s.pushes[c].owners)
    case Cancel(y, peers) => Asking(s, y) || CancelsNothing(s, y, peers)
    case _ => true
  }

  ghost predicate CurrentRun(s: State, ls: seq<Label>)
    requires LegalRun(s, ls)
  {
    ls == [] || (CurrentRun(s, ls[..|ls| - 1]) && Current(Run(s, ls[..|ls| - 1]), ls[|ls| - 1]))
  }

  lemma OthersStillAsk(s: State, t: State, c: Conn, y: Id)
    requires c in s.drafts && s.drafts[c].y != y && t.drafts == s.drafts - {c}
    ensures Asking(t, y) == Asking(s, y)
  {
    if Asking(s, y) {
      var d :| d in s.drafts && s.drafts[d].y == y;
      assert d in t.drafts;
    }
  }

  lemma OthersStillPush(s: State, t: State, c: Conn, m: Id)
    requires c in s.pushes && s.pushes[c].machine != m && t.pushes == s.pushes - {c}
    ensures Pushing(t, m) == Pushing(s, m)
  {
    if Pushing(s, m) {
      var d :| d in s.pushes && s.pushes[d].machine == m;
      assert d in t.pushes;
    }
  }

  lemma MoreAsk(s: State, t: State, c: Conn, y: Id)
    requires forall d :: d in s.drafts && d != c ==> d in t.drafts && t.drafts[d] == s.drafts[d]
    requires c in s.drafts ==> c in t.drafts && t.drafts[c].y == s.drafts[c].y
    ensures Asking(s, y) ==> Asking(t, y)
  {
    if Asking(s, y) {
      var d :| d in s.drafts && s.drafts[d].y == y;
      assert d in t.drafts && t.drafts[d].y == y;
    }
  }

  lemma MorePush(s: State, t: State, c: Conn, m: Id)
    requires c !in s.pushes && c in t.pushes && s.pushes == t.pushes - {c}
    ensures Pushing(s, m) ==> Pushing(t, m)
  {
    if Pushing(s, m) {
      var d :| d in s.pushes && s.pushes[d].machine == m;
      assert d in t.pushes && t.pushes[d] == s.pushes[d];
    }
  }

  lemma NowAsking(t: State, c: Conn)
    requires c in t.drafts
    ensures Asking(t, t.drafts[c].y)
  {
  }

  lemma NowPushing(t: State, c: Conn)
    requires c in t.pushes
    ensures Pushing(t, t.pushes[c].machine)
  {
  }

  lemma ApplyAt(s: State, c: Conn, m: Id, y: Id)
    requires Legal(s, Apply(c))
    ensures var t := Step(s, Apply(c));
            && (y != s.drafts[c].y ==>
                  ((m, y) in t.edges <==> (m, y) in s.edges) && Asking(t, y) == Asking(s, y))
            && (y == s.drafts[c].y ==> ((m, y) in t.edges <==> m in s.drafts[c].granted.value))
            && Pushing(t, m) == Pushing(s, m) && Wanted(t, m, y) == Wanted(s, m, y)
  {
    if y != s.drafts[c].y {
      OthersStillAsk(s, Step(s, Apply(c)), c, y);
    }
  }

  lemma ReconcileAt(s: State, c: Conn, m: Id, y: Id)
    requires Legal(s, Reconcile(c))
    ensures var t, p := Step(s, Reconcile(c)), s.pushes[c];
            && (m != p.machine ==> ((m, y) in t.edges <==> (m, y) in s.edges) && Pushing(t, m) == Pushing(s, m))
            && (m == p.machine ==> ((m, y) in t.edges <==> Has(s.requested, y, m) && y in p.owners))
            && Asking(t, y) == Asking(s, y) && Wanted(t, m, y) == Wanted(s, m, y)
  {
    if m != s.pushes[c].machine {
      OthersStillPush(s, Step(s, Reconcile(c)), c, m);
    }
  }

  lemma CancelAt(s: State, y: Id, peers: set<Id>, m: Id, z: Id)
    ensures var t := Step(s, Cancel(y, peers));
            && ((m, z) in t.edges <==> (m, z) in s.edges && !(z == y && m in peers))
            && Asking(t, z) == Asking(s, z) && Pushing(t, m) == Pushing(s, m) && Wanted(t, m, z) == Wanted(s, m, z)
  {
  }

  lemma StepKeepsExact(s: State, l: Label)
    requires Exact(s) && Legal(s, l) && Current(s, l)
    ensures Exact(Step(s, l))
  {
    var t := Step(s, l);
    forall m, y | !Asking(t, y) && !Pushing(t, m)
      ensures (m, y) in t.edges <==> Wanted(t, m, y)
    {
      match l
      case Ask(c, z, peers) =>
        MoreAsk(s, t, c, y);
        NowAsking(t, c);
      case Filter(c) =>
        MoreAsk(s, t, c, y);
      case Apply(c) =>
        ApplyAt(s, c, m, y);
      case SetAllowed(c, n, owners) =>
        MorePush(s, t, c, m);
        NowPushing(t, c);
      case Reconcile(c) =>
        ReconcileAt(s, c, m, y);
      case Leave(z) =>
        assert Asking(t, y) == Asking(s, y) && Pushing(t, m) == Pushing(s, m);
      case Cancel(z, peers) =>
        CancelAt(s, z, peers, m, y);
    }
  }

  /** Any step that leaves watching exact wrote what was right. */
  lemma ExactStepsAreCurrent(s: State, l: Label)
    requires Exact(s) && Legal(s, l) && Exact(Step(s, l))
    ensures Current(s, l)
  {
    var t := Step(s, l);
    match l
    case Apply(c) =>
      var y, list := s.drafts[c].y, s.drafts[c].granted.value;
      if !Asking(t, y) {
        forall m | !Pushing(s, m) ensures m in list <==> Wanted(s, m, y) {
          ApplyAt(s, c, m, y);
          assert (m, y) in t.edges <==> Wanted(t, m, y);
        }
      }
    case Reconcile(c) =>
      var m, owners := s.pushes[c].machine, s.pushes[c].owners;
      if !Pushing(t, m) {
        forall y | !Asking(s, y) && Has(s.requested, y, m) ensures y in owners <==> Has(s.allowed, m, y) {
          ReconcileAt(s, c, m, y);
          assert (m, y) in t.edges <==> Wanted(t, m, y);
        }
      }
    case Cancel(y, peers) =>
      if !Asking(s, y) {
        forall m | m in peers && !Pushing(s, m) ensures !Wanted(s, m, y) {
          CancelAt(s, y, peers, m, y);
          assert (m, y) in t.edges <==> Wanted(t, m, y);
        }
      }
    case _ =>
  }

  ghost predicate ExactThroughout(s: State, ls: seq<Label>)
    requires LegalRun(s, ls)
  {
    Exact(Run(s, ls)) && (ls == [] || ExactThroughout(s, ls[..|ls| - 1]))
  }

  /** Watching stays exact through a run if and only if every write of the run was right when made. */
  lemma {:induction false} RunIsExactIff(s: State, ls: seq<Label>)
    requires Exact(s) && LegalRun(s, ls)
    ensures ExactThroughout(s, ls) <==> CurrentRun(s, ls)
  {
    if ls != [] {
      var front, last := ls[..|ls| - 1], ls[|ls| - 1];
      RunIsExactIff(s, front);
      if CurrentRun(s, ls) {
        StepKeepsExact(Run(s, front), last);
      }
      if ExactThroughout(s, ls) {
        ExactNow(s, front);
        ExactStepsAreCurrent(Run(s, front), last);
      }
    }
  }

  lemma ExactNow(s: State, ls: seq<Label>)
    requires LegalRun(s, ls) && ExactThroughout(s, ls)
    ensures Exact(Run(s, ls))
  {
  }

  /** Once nothing is under way, the watchers are exactly those who asked and are allowed. */
  lemma QuietIsExact(t: State)
    requires Exact(t) && t.drafts == map[] && t.pushes == map[]
    ensures forall m, y :: (m, y) in t.edges <==> Wanted(t, m, y)
  {
    assert forall y :: !Asking(t, y);
    assert forall m :: !Pushing(t, m);
  }

  // ── Exactly when a call keeps it so ───────────────────────────────────────

  /** Applying a list leaves watching exact if and only if the list is still what the filter would give. */
  lemma ApplyIsExactIff(s: State, c: Conn)
    requires Exact(s) && Legal(s, Apply(c))
    requires !Asking(Step(s, Apply(c)), s.drafts[c].y)
    ensures Exact(Step(s, Apply(c))) <==> UpToDate(s, s.drafts[c].y, s.drafts[c].granted.value)
  {
    if UpToDate(s, s.drafts[c].y, s.drafts[c].granted.value) {
      StepKeepsExact(s, Apply(c));
    } else if Exact(Step(s, Apply(c))) {
      ExactStepsAreCurrent(s, Apply(c));
    }
  }

  /**
   Reconciling a push leaves watching exact if and only if, among those who asked for the machine, the
   push names exactly the ones the machine allows by then.
   */
  lemma ReconcileIsExactIff(s: State, c: Conn)
    requires Exact(s) && Legal(s, Reconcile(c))
    requires !Pushing(Step(s, Reconcile(c)), s.pushes[c].machine)
    ensures Exact(Step(s, Reconcile(c))) <==> OwnersStand(s, s.pushes[c].machine, s.pushes[c].owners)
  {
    if OwnersStand(s, s.pushes[c].machine, s.pushes[c].owners) {
      StepKeepsExact(s, Reconcile(c));
    } else if Exact(Step(s, Reconcile(c))) {
      ExactStepsAreCurrent(s, Reconcile(c));
    }
  }

  /** The separate cancel call keeps watching exact if and only if it cancels nothing in force. */
  lemma CancelIsExactIff(s: State, y: Id, peers: set<Id>)
    requires Exact(s) && !Asking(s, y)
    ensures Exact(Step(s, Cancel(y, peers))) <==> CancelsNothing(s, y, peers)
  {
    if CancelsNothing(s, y, peers) {
      StepKeepsExact(s, Cancel(y, peers));
    } else if Exact(Step(s, Cancel(y, peers))) {
      ExactStepsAreCurrent(s, Cancel(y, peers));
    }
  }

  // ── How a write goes stale ────────────────────────────────────────────────

  /**
   A grant that lands between a subscriber's filter and its subscribe is lost: the reconcile runs
   first, and the stale list then replaces what it did.
   */
  lemma GrantInTheGapIsLost(m: Id, y: Id)
    ensures var run := [Ask(0, y, {m}), Filter(0), SetAllowed(1, m, {y}), Reconcile(1), Apply(0)];
            && LegalRun(INIT, run)
            && Run(INIT, run).drafts == map[] && Run(INIT, run).pushes == map[]
            && Wanted(Run(INIT, run), m, y) && (m, y) !in Run(INIT, run).edges
  {
    RunSnoc(INIT, [], Ask(0, y, {m}));
    RunSnoc(INIT, [] + [Ask(0, y, {m})], Filter(0));
    var two := [] + [Ask(0, y, {m})] + [Filter(0)];
    assert Run(INIT, two).drafts[0].granted.value == {};
    RunSnoc(INIT, two, SetAllowed(1, m, {y}));
    RunSnoc(INIT, two + [SetAllowed(1, m, {y})], Reconcile(1));
    RunSnoc(INIT, two + [SetAllowed(1, m, {y})] + [Reconcile(1)], Apply(0));
    assert two + [SetAllowed(1, m, {y})] + [Reconcile(1)] + [Apply(0)]
        == [Ask(0, y, {m}), Filter(0), SetAllowed(1, m, {y}), Reconcile(1), Apply(0)];
  }

  /**
   Two pushes of one machine, over two of its connections, may be reconciled the other way round: the
   owner the second push revokes then watches again.
   */
  lemma RevokedOwnerWatchesAgain(m: Id, y: Id)
    ensures var run := [Ask(0, y, {m}), Filter(0), Apply(0), SetAllowed(1, m, {y}), SetAllowed(2, m, {}),
                        Reconcile(2), Reconcile(1)];
            && LegalRun(INIT, run)
            && Run(INIT, run).drafts == map[] && Run(INIT, run).pushes == map[]
            && !Wanted(Run(INIT, run), m, y) && (m, y) in Run(INIT, run).edges
  {
    RunSnoc(INIT, [], Ask(0, y, {m}));
    RunSnoc(INIT, [] + [Ask(0, y, {m})], Filter(0));
    var two := [] + [Ask(0, y, {m})] + [Filter(0)];
    RunSnoc(INIT, two, Apply(0));
    var three := two + [Apply(0)];
    var s := Run(INIT, three);
    assert s.drafts == map[] && s.pushes == map[] && s.requested == map[y := {m}];
    PushesCross(s, m, y);
    RunSnoc(INIT, three, SetAllowed(1, m, {y}));
    RunSnoc(INIT, three + [SetAllowed(1, m, {y})], SetAllowed(2, m, {}));
    var five := three + [SetAllowed(1, m, {y})] + [SetAllowed(2, m, {})];
    RunSnoc(INIT, five, Reconcile(2));
    RunSnoc(INIT, five + [Reconcile(2)], Reconcile(1));
    assert five + [Reconcile(2)] + [Reconcile(1)]
        == [Ask(0, y, {m}), Filter(0), Apply(0),
            SetAllowed(1, m, {y}), SetAllowed(2, m, {}), Reconcile(2), Reconcile(1)];
  }

  /** The same from any quiet state in which the owner has asked. */
  lemma PushesCross(s: State, m: Id, y: Id)
    requires s.drafts == map[] && s.pushes == map[] && Has(s.requested, y, m)
    ensures Legal(s, SetAllowed(1, m, {y}))
    ensures Legal(Step(s, SetAllowed(1, m, {y})), SetAllowed(2, m, {}))
    ensures var p := Step(Step(s, SetAllowed(1, m, {y})), SetAllowed(2, m, {}));
            && Legal(p, Reconcile(2)) && Legal(Step(p, Reconcile(2)), Reconcile(1))
            && var t := Step(Step(p, Reconcile(2)), Reconcile(1));
               t.drafts == map[] && t.pushes == map[] && !Wanted(t, m, y) && (m, y) in t.edges
  {
    var p := Step(Step(s, SetAllowed(1, m, {y})), SetAllowed(2, m, {}));
    assert p.pushes == map[1 := Push(m, {y}), 2 := Push(m, {})];
    var q := Step(p, Reconcile(2));
    assert q.pushes == map[1 := Push(m, {y})] && q.requested == s.requested;
    var t := Step(q, Reconcile(1));
    assert t.pushes == map[] && t.allowed[m] == {};
  }
}
