/**
 When subscriptions come out right, told from the order of the calls alone: which calls came between
 which, never what they wrote.
 */
module RoomOrder {
  import opened Base
  import opened Rooms
  import opened RoomSteps

  // ── The last call of a kind ───────────────────────────────────────────────

  datatype Kind =
    | Asks(c: Conn)
    | Filters(c: Conn)
    | Applies(c: Conn)
    | EndsFilter(c: Conn)
    | Pushes(c: Conn)
    | Reconciles(c: Conn)
    | Speaks(y: Id)
    | PushesFor(m: Id)
    | Never

  /**
   `EndsFilter`: a filter is done with once its request is applied or a new one is asked. `Speaks`: the
   subscriber says what it wants, by asking anew or leaving.
   */
  predicate Is(l: Label, k: Kind) {
    match k
    case Asks(c) => l.Ask? && l.c == c
    case Filters(c) => l.Filter? && l.c == c
    case Applies(c) => l.Apply? && l.c == c
    case EndsFilter(c) => (l.Ask? || l.Apply?) && l.c == c
    case Pushes(c) => l.SetAllowed? && l.c == c
    case Reconciles(c) => l.Reconcile? && l.c == c
    case Speaks(y) => (l.Ask? || l.Leave?) && l.y == y
    case PushesFor(m) => l.SetAllowed? && l.m == m
    case Never => false
  }

  /** The last call that opens something, if none that closes it has come since. */
  function Latest(ls: seq<Label>, opens: Kind, closes: Kind): Option<nat> {
    if ls == [] then None
    else if Is(ls[|ls| - 1], opens) then Some(|ls| - 1)
    else if Is(ls[|ls| - 1], closes) then None
    else Latest(ls[..|ls| - 1], opens, closes)
  }

  /** The request of a connection that has not been applied yet. */
  function OpenAsk(ls: seq<Label>, c: Conn): Option<nat> {
    Latest(ls, Asks(c), Applies(c))
  }

  function OpenFilter(ls: seq<Label>, c: Conn): Option<nat> {
    Latest(ls, Filters(c), EndsFilter(c))
  }

  /** The push of a connection that has not been reconciled yet. */
  function OpenPush(ls: seq<Label>, c: Conn): Option<nat> {
    Latest(ls, Pushes(c), Reconciles(c))
  }

  // ── Orderly runs ──────────────────────────────────────────────────────────

  /** The request `c` applies next is the oldest open one of its subscriber. */
  ghost predicate OldestAsk(ls: seq<Label>, c: Conn, a: nat)
    requires a < |ls| && ls[a].Ask?
  {
    forall d, b ::
      d != c && OpenAsk(ls, d) == Some(b) && b < |ls| && ls[b].Ask? && ls[b].y == ls[a].y ==> a < b
  }

  ghost predicate OldestPush(ls: seq<Label>, c: Conn, p: nat)
    requires p < |ls| && ls[p].SetAllowed?
  {
    forall d, q ::
      d != c && OpenPush(ls, d) == Some(q) && q < |ls| && ls[q].SetAllowed? && ls[q].m == ls[p].m ==> p < q
  }

  /** The subscriber has not left since call `a`. */
  ghost predicate Stayed(ls: seq<Label>, y: Id, a: nat) {
    forall j :: a < j < |ls| ==> ls[j] != Leave(y)
  }

  /** Every push since call `f` for a machine asked for is still to be reconciled. */
  ghost predicate PushesWait(ls: seq<Label>, asked: set<Id>, f: nat) {
    forall j :: f < j < |ls| && ls[j].SetAllowed? && ls[j].m in asked ==> OpenPush(ls, ls[j].c) == Some(j)
  }

  /**
   Requests of one subscriber are applied in the order they were asked, and pushes of one machine are
   reconciled in the order they were made. Between asking and applying the subscriber does not leave,
   and a machine pushed for between filtering and applying is reconciled only after. No call cancels.
   */
  ghost predicate OrderlyNext(ls: seq<Label>, l: Label) {
    match l
    case Apply(c) =>
      var a, f := OpenAsk(ls, c), OpenFilter(ls, c);
      a.Some? && f.Some? && a.value < |ls| && ls[a.value].Ask? ==>
        && OldestAsk(ls, c, a.value)
        && Stayed(ls, ls[a.value].y, a.value)
        && PushesWait(ls, ls[a.value].peers, f.value)
    case Reconcile(c) =>
      var p := OpenPush(ls, c);
      p.Some? && p.value < |ls| && ls[p.value].SetAllowed? ==> OldestPush(ls, c, p.value)
    case Cancel(_, _) => false
    case _ => true
  }

  ghost predicate Orderly(ls: seq<Label>) {
    forall n :: 0 <= n < |ls| ==> OrderlyNext(ls[..n], ls[n])
  }

  // ── Finding the last call ─────────────────────────────────────────────────

  ghost predicate SilentSince(ls: seq<Label>, a: nat, opens: Kind, closes: Kind) {
    forall j :: a < j < |ls| ==> !Is(ls[j], opens) && !Is(ls[j], closes)
  }

  lemma SilentSnoc(ls: seq<Label>, a: nat, opens: Kind, closes: Kind)
    requires a < |ls| - 1
    ensures SilentSince(ls, a, opens, closes)
       <==> (&& SilentSince(ls[..|ls| - 1], a, opens, closes)
             && !Is(ls[|ls| - 1], opens) && !Is(ls[|ls| - 1], closes))
  {
    var front := ls[..|ls| - 1];
    assert forall j :: a < j < |front| ==> front[j] == ls[j];
  }

  lemma {:induction false} LatestIff(ls: seq<Label>, opens: Kind, closes: Kind, a: nat)
    ensures Latest(ls, opens, closes) == Some(a)
       <==> a < |ls| && Is(ls[a], opens) && SilentSince(ls, a, opens, closes)
  {
    if ls != [] {
      LatestIff(ls[..|ls| - 1], opens, closes, a);
      if a < |ls| - 1 {
        SilentSnoc(ls, a, opens, closes);
      }
    }
  }

  lemma LatestIs(ls: seq<Label>, opens: Kind, closes: Kind)
    ensures Latest(ls, opens, closes).Some? ==>
              var a := Latest(ls, opens, closes).value;
              a < |ls| && Is(ls[a], opens) && SilentSince(ls, a, opens, closes)
  {
    if Latest(ls, opens, closes).Some? {
      LatestIff(ls, opens, closes, Latest(ls, opens, closes).value);
    }
  }

  lemma LatestSnoc(ls: seq<Label>, l: Label, opens: Kind, closes: Kind)
    ensures Latest(ls + [l], opens, closes)
         == if Is(l, opens) then Some(|ls|) else if Is(l, closes) then None else Latest(ls, opens, closes)
  {
    assert (ls + [l])[..|ls|] == ls;
  }

  /** What is open now has been open ever since. */
  lemma OpenBefore(ls: seq<Label>, opens: Kind, closes: Kind, a: nat, k: nat)
    requires Latest(ls, opens, closes) == Some(a) && a < k <= |ls|
    ensures Latest(ls[..k], opens, closes) == Some(a)
  {
    LatestIff(ls, opens, closes, a);
    LatestIff(ls[..k], opens, closes, a);
  }

  /** What was opened and is no longer the latest was succeeded or closed at some call. */
  lemma {:induction false} EndsSomewhere(ls: seq<Label>, opens: Kind, closes: Kind, w: nat) returns (j: nat)
    requires w < |ls| && Is(ls[w], opens) && Latest(ls, opens, closes) != Some(w)
    ensures w < j < |ls| && (Is(ls[j], opens) || Is(ls[j], closes)) && Latest(ls[..j], opens, closes) == Some(w)
  {
    var front := ls[..|ls| - 1];
    if w < |front| && Latest(front, opens, closes) != Some(w) {
      j := EndsSomewhere(front, opens, closes, w);
      assert front[..j] == ls[..j];
    } else {
      j := |ls| - 1;
    }
  }

  // ── The calls and the state agree ─────────────────────────────────────────

  /** A request is under way exactly while its Ask is open, and is the one that was asked. */
  lemma {:induction false} DraftTracked(ls: seq<Label>, c: Conn)
    requires LegalRun(INIT, ls)
    ensures var s := Run(INIT, ls);
            && (c in s.drafts <==> OpenAsk(ls, c).Some?)
            && (c in s.drafts ==>
                  var a := OpenAsk(ls, c).value;
                  a < |ls| && ls[a] == Ask(c, s.drafts[c].y, s.drafts[c].asked))
  {
    if ls != [] {
      DraftTracked(ls[..|ls| - 1], c);
    }
  }

  /** What a request was granted is what the allow-lists said at its open Filter. */
  ghost predicate FilterStands(ls: seq<Label>, c: Conn)
    requires LegalRun(INIT, ls)
  {
    var s := Run(INIT, ls);
    c in s.drafts && s.drafts[c].granted.Some? ==>
      && OpenFilter(ls, c).Some? && OpenAsk(ls, c).Some?
      && var f := OpenFilter(ls, c).value;
         && OpenAsk(ls, c).value < f < |ls| && ls[f] == Filter(c) && LegalRun(INIT, ls[..f])
         && s.drafts[c].granted.value == Granted(Run(INIT, ls[..f]), s.drafts[c])
  }

  lemma {:induction false} FilterTracked(ls: seq<Label>, c: Conn)
    requires LegalRun(INIT, ls)
    ensures FilterStands(ls, c)
  {
    if ls != [] {
      var front, l := ls[..|ls| - 1], ls[|ls| - 1];
      FilterTracked(front, c);
      assert ls == front + [l];
      LatestSnoc(front, l, Filters(c), EndsFilter(c));
      LatestSnoc(front, l, Asks(c), Applies(c));
      if l == Filter(c) {
        DraftTracked(front, c);
        assert ls[..|front|] == front;
      } else if OpenFilter(front, c).Some? {
        LatestIs(front, Filters(c), EndsFilter(c));
        assert front[..OpenFilter(front, c).value] == ls[..OpenFilter(front, c).value];
      }
    }
  }

  /** A push is under way exactly while its SetAllowed is open, and is the one that was made. */
  lemma {:induction false} PushTracked(ls: seq<Label>, c: Conn)
    requires LegalRun(INIT, ls)
    ensures var s := Run(INIT, ls);
            && (c in s.pushes <==> OpenPush(ls, c).Some?)
            && (c in s.pushes ==>
                  var p := OpenPush(ls, c).value;
                  p < |ls| && ls[p] == SetAllowed(c, s.pushes[c].machine, s.pushes[c].owners))
  {
    if ls != [] {
      PushTracked(ls[..|ls| - 1], c);
    }
  }

  /** The owners the last of these calls names, if there is one. */
  function OwnersSaid(ls: seq<Label>, m: Id): set<Id> {
    var j := Latest(ls, PushesFor(m), Never);
    if j.Some? && j.value < |ls| && ls[j.value].SetAllowed? then ls[j.value].owners else {}
  }

  function PeersSaid(ls: seq<Label>, y: Id): set<Id> {
    var j := Latest(ls, Speaks(y), Never);
    if j.Some? && j.value < |ls| && ls[j.value].Ask? then ls[j.value].peers else {}
  }

  lemma OwnersSaidSnoc(ls: seq<Label>, l: Label, m: Id)
    ensures OwnersSaid(ls + [l], m) == if Is(l, PushesFor(m)) then l.owners else OwnersSaid(ls, m)
  {
    LatestSnoc(ls, l, PushesFor(m), Never);
    LatestIs(ls, PushesFor(m), Never);
  }

  lemma PeersSaidSnoc(ls: seq<Label>, l: Label, y: Id)
    ensures PeersSaid(ls + [l], y)
         == if Is(l, Speaks(y)) then (if l.Ask? then l.peers else {}) else PeersSaid(ls, y)
  {
    LatestSnoc(ls, l, Speaks(y), Never);
    LatestIs(ls, Speaks(y), Never);
  }

  lemma StepSays(s: State, l: Label, m: Id, y: Id)
    requires Legal(s, l)
    ensures SetAt(Step(s, l).allowed, m) == if Is(l, PushesFor(m)) then l.owners else SetAt(s.allowed, m)
    ensures SetAt(Step(s, l).requested, y)
         == if Is(l, Speaks(y)) then (if l.Ask? then l.peers else {}) else SetAt(s.requested, y)
  {
  }

  /** A machine allows whom it last said, and a subscriber wants what it last said. */
  lemma {:induction false} WordsTracked(ls: seq<Label>, m: Id, y: Id)
    requires LegalRun(INIT, ls)
    ensures SetAt(Run(INIT, ls).allowed, m) == OwnersSaid(ls, m)
    ensures SetAt(Run(INIT, ls).requested, y) == PeersSaid(ls, y)
  {
    if ls != [] {
      var front, l := ls[..|ls| - 1], ls[|ls| - 1];
      WordsTracked(front, m, y);
      StepSays(Run(INIT, front), l, m, y);
      assert ls == front + [l];
      OwnersSaidSnoc(front, l, m);
      PeersSaidSnoc(front, l, y);
    }
  }

  lemma StepWasLegal(ls: seq<Label>, j: nat)
    requires LegalRun(INIT, ls) && j < |ls|
    ensures LegalRun(INIT, ls[..j]) && Legal(Run(INIT, ls[..j]), ls[j])
  {
    PrefixIsLegal(INIT, ls, j + 1);
    assert ls[..j + 1][..j] == ls[..j];
  }

  lemma {:induction false} SomeLatest(ls: seq<Label>, opens: Kind, a: nat)
    requires a < |ls| && Is(ls[a], opens)
    ensures Latest(ls, opens, Never).Some? && a <= Latest(ls, opens, Never).value < |ls|
    ensures Is(ls[Latest(ls, opens, Never).value], opens)
  {
    if !Is(ls[|ls| - 1], opens) {
      SomeLatest(ls[..|ls| - 1], opens, a);
    }
  }

  // ── Order is enough ───────────────────────────────────────────────────────

  /** What ends an open request is its Apply, and it has been filtered by then. */
  lemma AskEndsByApply(front: seq<Label>, l: Label, d: Conn)
    requires LegalRun(INIT, front) && Legal(Run(INIT, front), l)
    requires OpenAsk(front, d).Some? && (Is(l, Asks(d)) || Is(l, Applies(d)))
    ensures l == Apply(d) && OpenFilter(front, d).Some?
  {
    DraftTracked(front, d);
    FilterTracked(front, d);
  }

  lemma PushEndsByReconcile(front: seq<Label>, l: Label, d: Conn)
    requires LegalRun(INIT, front) && Legal(Run(INIT, front), l)
    requires OpenPush(front, d).Some? && (Is(l, Pushes(d)) || Is(l, Reconciles(d)))
    ensures l == Reconcile(d)
  {
    PushTracked(front, d);
  }

  /** An orderly run applies the older of two open requests of a subscriber first. */
  lemma OlderAskFirst(front: seq<Label>, c: Conn, d: Conn, a: nat, w: nat)
    requires OrderlyNext(front, Apply(d)) && OpenFilter(front, d).Some? && d != c
    requires OpenAsk(front, c) == Some(a) && OpenAsk(front, d) == Some(w)
    requires a < |front| && w < |front| && front[a].Ask? && front[w].Ask? && front[a].y == front[w].y
    ensures w < a
  {
    assert OldestAsk(front, d, w);
  }

  lemma OlderPushFirst(front: seq<Label>, c: Conn, d: Conn, p: nat, q: nat)
    requires OrderlyNext(front, Reconcile(d)) && d != c
    requires OpenPush(front, c) == Some(p) && OpenPush(front, d) == Some(q)
    requires p < |front| && q < |front| && front[p].SetAllowed? && front[q].SetAllowed? && front[p].m == front[q].m
    ensures q < p
  {
    assert OldestPush(front, d, q);
  }

  /** While a request is open, no later one of the same subscriber has been applied. */
  lemma LaterAskIsOpen(ls: seq<Label>, c: Conn, d: Conn, a: nat, w: nat)
    requires LegalRun(INIT, ls) && Orderly(ls) && d != c
    requires OpenAsk(ls, c) == Some(a) && a < w < |ls| && ls[a].Ask? && ls[w].Ask?
    requires ls[w].c == d && ls[w].y == ls[a].y
    ensures OpenAsk(ls, d) == Some(w)
  {
    if OpenAsk(ls, d) != Some(w) {
      var j := EndsSomewhere(ls, Asks(d), Applies(d), w);
      StepWasLegal(ls, j);
      AskEndsByApply(ls[..j], ls[j], d);
      OpenBefore(ls, Asks(c), Applies(c), a, j);
      OlderAskFirst(ls[..j], c, d, a, w);
    }
  }

  lemma LaterPushIsOpen(ls: seq<Label>, c: Conn, d: Conn, p: nat, q: nat)
    requires LegalRun(INIT, ls) && Orderly(ls) && d != c
    requires OpenPush(ls, c) == Some(p) && p < q < |ls| && ls[p].SetAllowed? && ls[q].SetAllowed?
    requires ls[q].c == d && ls[q].m == ls[p].m
    ensures OpenPush(ls, d) == Some(q)
  {
    if OpenPush(ls, d) != Some(q) {
      var j := EndsSomewhere(ls, Pushes(d), Reconciles(d), q);
      StepWasLegal(ls, j);
      PushEndsByReconcile(ls[..j], ls[j], d);
      OpenBefore(ls, Pushes(c), Reconciles(c), p, j);
      OlderPushFirst(ls[..j], c, d, p, q);
    }
  }

  /** The last request applied is what the subscriber last said. */
  lemma AppliedIsSaid(ls: seq<Label>, c: Conn)
    requires LegalRun(INIT, ls) && Orderly(ls) && OrderlyNext(ls, Apply(c))
    requires Legal(Run(INIT, ls), Apply(c))
    requires !Asking(Step(Run(INIT, ls), Apply(c)), Run(INIT, ls).drafts[c].y)
    ensures var d := Run(INIT, ls).drafts[c]; SetAt(Run(INIT, ls).requested, d.y) == d.asked
  {
    DraftTracked(ls, c);
    FilterTracked(ls, c);
    var s := Run(INIT, ls);
    var y, a := s.drafts[c].y, OpenAsk(ls, c).value;
    LatestIs(ls, Asks(c), Applies(c));
    SomeLatest(ls, Speaks(y), a);
    WordsTracked(ls, y, y);
    var w := Latest(ls, Speaks(y), Never).value;
    if w > a && ls[w].Ask? {
      LaterAskIsOpen(ls, c, ls[w].c, a, w);
      DraftTracked(ls, ls[w].c);
      NowAsking(Step(s, Apply(c)), ls[w].c);
    }
    assert w == a;
  }

  /** The last push reconciled is what the machine last said. */
  lemma ReconciledIsSaid(ls: seq<Label>, c: Conn)
    requires LegalRun(INIT, ls) && Orderly(ls) && OrderlyNext(ls, Reconcile(c))
    requires Legal(Run(INIT, ls), Reconcile(c))
    requires !Pushing(Step(Run(INIT, ls), Reconcile(c)), Run(INIT, ls).pushes[c].machine)
    ensures var p := Run(INIT, ls).pushes[c]; SetAt(Run(INIT, ls).allowed, p.machine) == p.owners
  {
    PushTracked(ls, c);
    var s := Run(INIT, ls);
    var m, p := s.pushes[c].machine, OpenPush(ls, c).value;
    LatestIs(ls, Pushes(c), Reconciles(c));
    SomeLatest(ls, PushesFor(m), p);
    WordsTracked(ls, m, m);
    var q := Latest(ls, PushesFor(m), Never).value;
    if q > p {
      LaterPushIsOpen(ls, c, ls[q].c, p, q);
      PushTracked(ls, ls[q].c);
      NowPushing(Step(s, Reconcile(c)), ls[q].c);
    }
    assert q == p;
  }

  /** A machine asked for, with no push under way, allows whom it allowed at the filter. */
  lemma AllowedSinceFilter(ls: seq<Label>, asked: set<Id>, f: nat, m: Id)
    requires LegalRun(INIT, ls) && f < |ls| && ls[f].Filter? && LegalRun(INIT, ls[..f])
    requires PushesWait(ls, asked, f) && m in asked && !Pushing(Run(INIT, ls), m)
    ensures SetAt(Run(INIT, ls).allowed, m) == SetAt(Run(INIT, ls[..f]).allowed, m)
  {
    WordsTracked(ls, m, m);
    WordsTracked(ls[..f], m, m);
    forall j | f < j < |ls| ensures !Is(ls[j], PushesFor(m)) {
      if ls[j].SetAllowed? && ls[j].m == m {
        PushTracked(ls, ls[j].c);
      }
    }
    SilentTail(ls, f, PushesFor(m));
    LatestIs(ls[..f], PushesFor(m), Never);
  }

  lemma {:induction false} SilentTail(ls: seq<Label>, f: nat, opens: Kind)
    requires f <= |ls| && forall j :: f <= j < |ls| ==> !Is(ls[j], opens)
    ensures Latest(ls, opens, Never) == Latest(ls[..f], opens, Never)
  {
    if f < |ls| {
      assert ls[..|ls| - 1][..f] == ls[..f];
      SilentTail(ls[..|ls| - 1], f, opens);
    } else {
      assert ls[..f] == ls;
    }
  }

  lemma OrderlyApplyIsUpToDate(ls: seq<Label>, c: Conn)
    requires LegalRun(INIT, ls) && Orderly(ls) && OrderlyNext(ls, Apply(c))
    requires Legal(Run(INIT, ls), Apply(c))
    requires !Asking(Step(Run(INIT, ls), Apply(c)), Run(INIT, ls).drafts[c].y)
    ensures var d := Run(INIT, ls).drafts[c]; UpToDate(Run(INIT, ls), d.y, d.granted.value)
  {
    DraftTracked(ls, c);
    FilterTracked(ls, c);
    var s := Run(INIT, ls);
    var d, f := s.drafts[c], OpenFilter(ls, c).value;
    AppliedIsSaid(ls, c);
    forall m | !Pushing(s, m) ensures m in d.granted.value <==> Wanted(s, m, d.y) {
      assert Has(s.requested, d.y, m) <==> m in d.asked;
      if m in d.asked {
        AllowedSinceFilter(ls, d.asked, f, m);
        assert Has(s.allowed, m, d.y) <==> Has(Run(INIT, ls[..f]).allowed, m, d.y);
      }
    }
  }

  /** In an orderly run every write is right when made. */
  lemma {:induction false} OrderlyIsCurrent(ls: seq<Label>)
    requires LegalRun(INIT, ls) && Orderly(ls)
    ensures CurrentRun(INIT, ls)
  {
    if ls != [] {
      var front, l := ls[..|ls| - 1], ls[|ls| - 1];
      OrderlyFront(ls);
      OrderlyIsCurrent(front);
      var s := Run(INIT, front);
      match l
      case Apply(c) =>
        if !Asking(Step(s, l), s.drafts[c].y) {
          OrderlyApplyIsUpToDate(front, c);
        }
      case Reconcile(c) =>
        if !Pushing(Step(s, l), s.pushes[c].machine) {
          ReconciledIsSaid(front, c);
        }
      case _ =>
    }
  }

  lemma OrderlyFront(ls: seq<Label>)
    requires ls != [] && Orderly(ls)
    ensures Orderly(ls[..|ls| - 1]) && OrderlyNext(ls[..|ls| - 1], ls[|ls| - 1])
  {
    var front := ls[..|ls| - 1];
    forall n | 0 <= n < |front| ensures OrderlyNext(front[..n], front[n]) {
      assert front[..n] == ls[..n];
    }
  }

  /**
   In every orderly run, whatever it asks and pushes, watching is exactly asking and being allowed
   wherever nothing is under way; and when nothing is under way at all, it is so everywhere.
   */
  lemma OrderlyRunsAreExact(ls: seq<Label>)
    requires LegalRun(INIT, ls) && Orderly(ls)
    ensures var t := Run(INIT, ls);
            && Exact(t)
            && (t.drafts == map[] && t.pushes == map[] ==> forall m, y :: (m, y) in t.edges <==> Wanted(t, m, y))
  {
    OrderlyIsCurrent(ls);
    RunIsExactIff(INIT, ls);
    ExactNow(INIT, ls);
    if Run(INIT, ls).drafts == map[] && Run(INIT, ls).pushes == map[] {
      QuietIsExact(Run(INIT, ls));
    }
  }

  /** Nothing is under way exactly when every request has been applied and every push reconciled. */
  lemma QuietIff(ls: seq<Label>)
    requires LegalRun(INIT, ls)
    ensures var t := Run(INIT, ls);
            t.drafts == map[] && t.pushes == map[] <==> forall c :: OpenAsk(ls, c).None? && OpenPush(ls, c).None?
  {
    var t := Run(INIT, ls);
    forall c ensures (c in t.drafts <==> OpenAsk(ls, c).Some?) && (c in t.pushes <==> OpenPush(ls, c).Some?) {
      DraftTracked(ls, c);
      PushTracked(ls, c);
    }
  }
}
