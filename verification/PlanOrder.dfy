/** What the order of the plan and its sections mean, item by item. */
module PlanOrder {
  import opened Base
  import opened PlanGraph
  import opened StableSort
  import opened Plan

  // ── Who blocks whom ───────────────────────────────────────────────────────

  /** The last listed item of an id, the one that stands for it. */
  ghost predicate Stands(items: seq<Item>, id: string, item: Item) {
    exists k :: 0 <= k < |items| && items[k] == item && LastOf(items, id, k)
  }

  ghost predicate LastOf(items: seq<Item>, id: string, k: nat)
    requires k < |items|
  {
    items[k].id == id && forall j :: k < j < |items| ==> items[j].id != id
  }

  lemma {:induction false} LastIs(items: seq<Item>, id: string) returns (k: nat)
    requires id in ById(items)
    ensures k < |items| && items[k] == ById(items)[id] && LastOf(items, id, k)
  {
    var n := |items| - 1;
    ByIdStep(items, id);
    if items[n].id == id {
      k := n;
    } else {
      k := LastIs(items[..n], id);
      LastOfLonger(items, id, k);
    }
  }

  lemma ByIdStep(items: seq<Item>, id: string)
    requires id in ById(items)
    ensures items != []
    ensures var n := |items| - 1;
            if items[n].id == id then ById(items)[id] == items[n]
            else id in ById(items[..n]) && ById(items)[id] == ById(items[..n])[id]
  {
  }

  lemma LastOfLonger(items: seq<Item>, id: string, k: nat)
    requires items != [] && items[|items| - 1].id != id
    requires k < |items| - 1 && LastOf(items[..|items| - 1], id, k)
    ensures LastOf(items, id, k)
  {
    forall j | k < j < |items| ensures items[j].id != id {
      assert j < |items| - 1 ==> items[..|items| - 1][j] == items[j];
    }
  }

  lemma LastStands(items: seq<Item>, id: string)
    requires id in ById(items)
    ensures Stands(items, id, ById(items)[id])
  {
    var k := LastIs(items, id);
  }

  lemma OneStands(items: seq<Item>, id: string, a: Item, b: Item)
    requires Stands(items, id, a) && Stands(items, id, b)
    ensures a == b
  {
  }

  /** An item in this state holds up those that depend on it. */
  predicate HoldsUp(item: Item) {
    || (item.kind == Design && item.tainted)
    || ((item.kind.PlanItem? || item.kind.OtherKind?) && !item.done)
  }

  /**
   One item blocks another exactly if the other names it among its dependencies, it is another one, it is on
   the list, and it holds up: a plan, or anything of an unknown kind, until it is done; a design while
   tainted, done or not; a note never.
   */
  lemma WhoBlocks(items: seq<Item>, a: Item, b: Item)
    requires Stands(items, a.id, a) && Stands(items, b.id, b)
    ensures b.id in ListAt(BlockerGraph(items), a.id) <==> b.id in a.deps && b.id != a.id && HoldsUp(b)
  {
    assert a in items && b in items;
    LastStands(items, a.id);
    LastStands(items, b.id);
    OneStands(items, a.id, a, ById(items)[a.id]);
    OneStands(items, b.id, b, ById(items)[b.id]);
  }

  /** Which of the first `n` listed dependencies block, a repeated one as often as it is listed. */
  ghost function Blocking(items: seq<Item>, id: string, deps: seq<string>, n: nat): set<nat>
    requires n <= |deps|
  {
    set k | 0 <= k < n && Blocks(items, id, deps[k])
  }

  ghost predicate Blocks(items: seq<Item>, id: string, dep: string) {
    dep != id && exists b :: Stands(items, dep, b) && HoldsUp(b)
  }

  lemma BlocksIff(items: seq<Item>, id: string, dep: string)
    ensures Blocks(items, id, dep) <==> dep in ById(items) && dep != id && !IsSatisfied(ById(items)[dep])
  {
    if dep in ById(items) {
      LastStands(items, dep);
      if b :| Stands(items, dep, b) && HoldsUp(b) {
        OneStands(items, dep, b, ById(items)[dep]);
      }
    }
  }

  lemma {:induction false} UnsatisfiedSnoc(byId: map<string, Item>, id: string, deps: seq<string>, dep: string)
    ensures Unsatisfied(byId, id, deps + [dep])
         == Unsatisfied(byId, id, deps)
            + (if dep in byId && dep != id && !IsSatisfied(byId[dep]) then [dep] else [])
  {
    var last := if dep in byId && dep != id && !IsSatisfied(byId[dep]) then [dep] else [];
    if deps == [] {
      assert deps + [dep] == [dep] && [dep][1..] == [];
    } else {
      assert (deps + [dep])[1..] == deps[1..] + [dep];
      UnsatisfiedSnoc(byId, id, deps[1..], dep);
      var head := if deps[0] in byId && deps[0] != id && !IsSatisfied(byId[deps[0]]) then [deps[0]] else [];
      Assoc(head, Unsatisfied(byId, id, deps[1..]), last);
    }
  }

  lemma {:induction false} CountsBlocking(items: seq<Item>, id: string, deps: seq<string>, n: nat)
    requires n <= |deps|
    ensures |Unsatisfied(ById(items), id, deps[..n])| == |Blocking(items, id, deps, n)|
  {
    if n == 0 {
      assert Blocking(items, id, deps, 0) == {};
    } else {
      CountsBlocking(items, id, deps, n - 1);
      assert deps[..n] == deps[..n - 1] + [deps[n - 1]];
      UnsatisfiedSnoc(ById(items), id, deps[..n - 1], deps[n - 1]);
      BlocksIff(items, id, deps[n - 1]);
      OneMoreBlocks(items, id, deps, n);
    }
  }

  lemma OneMoreBlocks(items: seq<Item>, id: string, deps: seq<string>, n: nat)
    requires 0 < n <= |deps|
    ensures |Blocking(items, id, deps, n)|
         == |Blocking(items, id, deps, n - 1)| + if Blocks(items, id, deps[n - 1]) then 1 else 0
  {
    var head: set<nat> := if Blocks(items, id, deps[n - 1]) then {n - 1} else {};
    assert Blocking(items, id, deps, n) == Blocking(items, id, deps, n - 1) + head;
  }

  lemma BlockersOf(items: seq<Item>, id: string, item: Item)
    requires Stands(items, id, item)
    ensures ListAt(BlockerGraph(items), id) == Unsatisfied(ById(items), id, item.deps)
  {
    assert id in ById(items) by {
      var k :| 0 <= k < |items| && items[k] == item && LastOf(items, id, k);
      assert items[k] in items;
    }
    LastStands(items, id);
    OneStands(items, id, item, ById(items)[id]);
  }

  /** The count a row shows is the number of dependencies that block its item, as often as each is listed. */
  lemma BlockedCountCounts(items: seq<Item>, collate: Collation, wave: Waves, rows: seq<Row>, i: nat, item: Item)
    requires IsOrdered(items, collate, wave, rows) && i < |rows|
    requires Stands(items, rows[i].item.id, item)
    ensures rows[i].blockedCount == |Blocking(items, item.id, item.deps, |item.deps|)|
  {
    RowsAreRowOf(items, collate, wave, rows, i);
    BlockersOf(items, rows[i].item.id, item);
    CountIs(items, item);
    assert rows[i].blockedCount == |ListAt(BlockerGraph(items), rows[i].item.id)|;
  }

  lemma CountIs(items: seq<Item>, item: Item)
    ensures |Unsatisfied(ById(items), item.id, item.deps)| == |Blocking(items, item.id, item.deps, |item.deps|)|
  {
    assert item.deps[..|item.deps|] == item.deps;
    CountsBlocking(items, item.id, item.deps, |item.deps|);
  }

  // ── The order ─────────────────────────────────────────────────────────────

  /** Plans, then designs, then notes, then anything else. */
  ghost predicate KindInOrder(a: Kind, b: Kind) {
    match a
    case PlanItem => true
    case Design => !b.PlanItem?
    case Note => b.Note? || b.OtherKind?
    case OtherKind(_) => b.OtherKind?
  }

  ghost predicate SameKind(a: Kind, b: Kind) {
    KindInOrder(a, b) && KindInOrder(b, a)
  }

  ghost predicate WaveInOrder(a: Option<nat>, b: Option<nat>) {
    b.Some? ==> a.Some? && a.value <= b.value
  }

  /**
   Of two rows the earlier is not done unless the later is too; of two alike in that, it is in no later wave,
   the circular ones last; of two in one wave its kind comes no later; and of one kind, its id.
   */
  ghost predicate Earlier(collate: Collation, a: Row, b: Row) {
    && (a.item.done ==> b.item.done)
    && (a.item.done == b.item.done ==> WaveInOrder(a.wave, b.wave))
    && (a.item.done == b.item.done && a.wave == b.wave ==> KindInOrder(a.item.kind, b.item.kind))
    && (a.item.done == b.item.done && a.wave == b.wave && SameKind(a.item.kind, b.item.kind)
        ==> collate(a.item.id) <= collate(b.item.id))
  }

  lemma ComparingMeans(collate: Collation, a: Row, b: Row)
    requires Compare(collate, a, b) <= 0
    ensures Earlier(collate, a, b)
  {
  }

  lemma WhatComesFirst(items: seq<Item>, collate: Collation, wave: Waves, rows: seq<Row>, i: nat, j: nat)
    requires IsOrdered(items, collate, wave, rows) && i < j < |rows|
    ensures Earlier(collate, rows[i], rows[j])
  {
    InOrder(collate, rows, i, j);
    ComparingMeans(collate, rows[i], rows[j]);
  }

  lemma InOrder(collate: Collation, rows: seq<Row>, i: nat, j: nat)
    requires Sorted(Comparator(collate), rows) && i < j < |rows|
    ensures Compare(collate, rows[i], rows[j]) <= 0
  {
    assert Comparator(collate)(rows[i], rows[j]) <= 0;
  }

  // ── The sections ──────────────────────────────────────────────────────────

  ghost predicate Placed(sections: seq<Section>, s: nat, row: Row) {
    s < |sections| && row in sections[s].rows
  }

  /**
   A section holds just the rows of one sort: the done ones under "done"; of the rest, the circular ones
   under "cycle", those of the first wave under "available now" and those of the n-th wave under "wave n".
   */
  ghost predicate Belongs(title: Title, row: Row) {
    match title
    case Done => row.item.done
    case Cycle => !row.item.done && row.circular
    case AvailableNow => !row.item.done && row.wave == Some(0)
    case Wave(n) => !row.item.done && row.wave == Some(n) && n > 0
  }

  lemma BucketMeans(row: Row)
    requires row.circular <==> row.wave.None?
    ensures Belongs(Bucket(row), row)
  {
  }

  lemma CircularHasNoWave(items: seq<Item>, collate: Collation, wave: Waves, rows: seq<Row>, row: Row)
    requires IsOrdered(items, collate, wave, rows) && row in rows
    ensures row.circular <==> row.wave.None?
  {
    var i :| 0 <= i < |rows| && rows[i] == row;
    RowsAreRowOf(items, collate, wave, rows, i);
  }

  lemma WhatASectionHolds(items: seq<Item>, collate: Collation, wave: Waves, rows: seq<Row>, sections: seq<Section>,
                          s: nat, row: Row)
    requires IsOrdered(items, collate, wave, rows) && GoodSections(sections) && Concat(sections) == rows
    requires Placed(sections, s, row)
    ensures Belongs(sections[s].title, row)
  {
    RowsOfSections(sections, s, row);
    CircularHasNoWave(items, collate, wave, rows, row);
    BucketMeans(row);
  }

  lemma {:induction false} RowsOfSections(sections: seq<Section>, s: nat, row: Row)
    requires Placed(sections, s, row)
    ensures row in Concat(sections)
  {
    var n := |sections| - 1;
    if s < n {
      RowsOfSections(sections[..n], s, row);
    }
  }

  lemma {:induction false} SectionsInOrder(sections: seq<Section>, s: nat, t: nat, a: Row, b: Row)
    returns (i: nat, j: nat)
    requires s < t && Placed(sections, s, a) && Placed(sections, t, b)
    ensures i < j < |Concat(sections)| && Concat(sections)[i] == a && Concat(sections)[j] == b
  {
    var n := |sections| - 1;
    var front := Concat(sections[..n]);
    if t < n {
      i, j := SectionsInOrder(sections[..n], s, t, a, b);
    } else {
      RowsOfSections(sections[..n], s, a);
      i :| 0 <= i < |front| && front[i] == a;
      var k :| 0 <= k < |sections[n].rows| && sections[n].rows[k] == b;
      j := |front| + k;
    }
  }

  /** Available now, then the waves in order, then the cycle, then what is done. */
  ghost predicate TitleBefore(a: Title, b: Title) {
    match a
    case AvailableNow => b != AvailableNow
    case Wave(n) => (b.Wave? && n < b.n) || b == Cycle || b == Done
    case Cycle => b == Done
    case Done => false
  }

  lemma TitlesFollowRows(collate: Collation, p: Title, q: Title, a: Row, b: Row)
    requires p != q && Belongs(p, a) && Belongs(q, b) && Earlier(collate, a, b)
    requires (a.circular <==> a.wave.None?) && (b.circular <==> b.wave.None?)
    ensures TitleBefore(p, q)
  {
  }

  lemma SortedSections(collate: Collation, rows: seq<Row>, sections: seq<Section>, s: nat, t: nat)
    requires Sorted(Comparator(collate), rows) && forall r :: r in rows ==> (r.circular <==> r.wave.None?)
    requires GoodSections(sections) && Concat(sections) == rows && s < t < |sections|
    ensures TitleBefore(sections[s].title, sections[t].title)
  {
    var a, b := sections[s].rows[0], sections[t].rows[0];
    assert Placed(sections, s, a) && Placed(sections, t, b);
    var i, j := SectionsInOrder(sections, s, t, a, b);
    assert a in rows && b in rows;
    InOrder(collate, rows, i, j);
    ComparingMeans(collate, a, b);
    assert Bucket(a) == sections[s].title && Bucket(b) == sections[t].title;
    BucketMeans(a);
    BucketMeans(b);
    TitlesFollowRows(collate, sections[s].title, sections[t].title, a, b);
  }

  /** The sections come in that order. */
  lemma SectionOrder(items: seq<Item>, collate: Collation, wave: Waves, rows: seq<Row>, sections: seq<Section>,
                     s: nat, t: nat)
    requires IsOrdered(items, collate, wave, rows) && GoodSections(sections) && Concat(sections) == rows
    requires s < t < |sections|
    ensures TitleBefore(sections[s].title, sections[t].title)
  {
    forall r | r in rows ensures r.circular <==> r.wave.None? {
      CircularHasNoWave(items, collate, wave, rows, r);
    }
    SortedSections(collate, rows, sections, s, t);
  }
}
