/** Plan rows and sections: layering, the multi-key sort, and regrouping by title. */
module Plan {
  import opened Base
  import opened PlanGraph
  import opened StableSort

  datatype Kind = PlanItem | Design | Note | OtherKind(name: string)

  /** `done` is the status "done"; any other status is not. */
  datatype Item = Item(id: string, kind: Kind, done: bool, deps: seq<string>, tainted: bool)

  /** A note never blocks; a design blocks while tainted; anything else until it is done. */
  predicate IsSatisfied(item: Item) {
    match item.kind
    case Note => true
    case Design => !item.tainted
    case _ => item.done
  }

  function KindRank(kind: Kind): nat {
    match kind
    case PlanItem => 0
    case Design => 1
    case Note => 2
    case OtherKind(_) => 3
  }

  /** Items by id; a later item with the same id replaces an earlier one. */
  function ById(items: seq<Item>): (byId: map<string, Item>)
    ensures forall id :: id in byId <==> exists it :: it in items && it.id == id
    ensures forall id :: id in byId ==> byId[id].id == id && byId[id] in items
  {
    if items == [] then map[]
    else
      var last := items[|items| - 1];
      assert items == items[..|items| - 1] + [last];
      ById(items[..|items| - 1])[last.id := last]
  }

  /** The deps of `id` that exist, are not itself, and are not satisfied, one per listing. */
  function Unsatisfied(byId: map<string, Item>, id: string, deps: seq<string>): (r: seq<string>)
    ensures forall b :: b in r <==> b in deps && b in byId && b != id && !IsSatisfied(byId[b])
  {
    if deps == [] then []
    else (if deps[0] in byId && deps[0] != id && !IsSatisfied(byId[deps[0]]) then [deps[0]] else [])
         + Unsatisfied(byId, id, deps[1..])
  }

  function BlockerGraph(items: seq<Item>): Graph {
    var byId := ById(items);
    map id | id in byId :: Unsatisfied(byId, id, byId[id].deps)
  }

  lemma BlockersAreKnown(items: seq<Item>)
    ensures Closed(BlockerGraph(items))
  {
  }

  // ── The layering loop ─────────────────────────────────────────────────────

  function Unplaced(items: seq<Item>, placed: set<string>): (r: seq<Item>)
    ensures forall it :: it in r <==> it in items && it.id !in placed
    ensures (exists it :: it in items && it.id in placed) ==> |r| < |items|
    ensures |r| <= |items|
  {
    if items == [] then []
    else (if items[0].id in placed then [] else [items[0]]) + Unplaced(items[1..], placed)
  }

  function Ready(g: Graph, remaining: seq<Item>, placed: set<string>): (r: seq<Item>)
    ensures forall it :: it in r <==> it in remaining && forall b :: b in ListAt(g, it.id) ==> b in placed
  {
    if remaining == [] then []
    else (if forall b | b in ListAt(g, remaining[0].id) :: b in placed then [remaining[0]] else [])
         + Ready(g, remaining[1..], placed)
  }

  /** What is still to be placed, as items or as ids, is the same thing. */
  ghost predicate Pending(items: seq<Item>, remaining: seq<Item>, placed: set<string>) {
    forall it :: it in remaining <==> it in items && it.id !in placed
  }

  lemma ReadyIsReady(items: seq<Item>, wave: Waves, remaining: seq<Item>)
    requires Pending(items, remaining, wave.Keys)
    ensures var g := BlockerGraph(items);
            IsReady(g, wave, IdsOf(Ready(g, remaining, wave.Keys)))
  {
    var g := BlockerGraph(items);
    var ready := Ready(g, remaining, wave.Keys);
    var ids := IdsOf(ready);
    forall x | x in g && x !in wave && forall b :: b in g[x] ==> b in wave ensures x in ids {
      var it :| it in items && it.id == x;
      assert it in ready;
    }
  }

  /** Kahn's layering, pass by pass; whatever is never ready stays out. */
  method Layer(items: seq<Item>) returns (wave: Waves)
    ensures IsLayering(BlockerGraph(items), wave)
  {
    var blockers := BlockerGraph(items);
    wave := map[];
    var placed: set<string> := {};
    var remaining := items;
    var waveNum := 0;
    while remaining != []
      invariant placed == wave.Keys && Pending(items, remaining, placed)
      invariant Frontier(blockers, wave, waveNum)
      decreases |remaining|
    {
      var ready := Ready(blockers, remaining, placed);
      if ready == [] {
        NoneReady(items, wave, remaining);
        return;
      }
      ReadyIsReady(items, wave, remaining);
      NextWave(blockers, wave, waveNum, IdsOf(ready));
      assert ready[0] in remaining && ready[0].id in IdsOf(ready);
      wave, placed := Place(wave, placed, ready, waveNum);
      remaining := Unplaced(remaining, placed);
      waveNum := waveNum + 1;
    }
    AllPlaced(items, wave);
  }

  method Place(wave: Waves, placed: set<string>, ready: seq<Item>, waveNum: nat)
    returns (wave': Waves, placed': set<string>)
    requires placed == wave.Keys
    ensures wave' == AddWave(wave, IdsOf(ready), waveNum) && placed' == wave'.Keys
  {
    wave', placed' := wave, placed;
    var i := 0;
    while i < |ready|
      invariant i <= |ready|
      invariant wave' == AddWave(wave, IdsOf(ready[..i]), waveNum) && placed' == wave'.Keys
    {
      IdsGrow(ready, i);
      wave', placed' := wave'[ready[i].id := waveNum], placed' + {ready[i].id};
      i := i + 1;
    }
    assert ready[..i] == ready;
  }

  lemma AllPlaced(items: seq<Item>, wave: Waves)
    requires Pending(items, [], wave.Keys)
    ensures Stuck(BlockerGraph(items), wave)
  {
    assert forall it :: it in items ==> it.id in wave;
  }

  ghost function IdsOf(items: seq<Item>): set<string> {
    set it | it in items :: it.id
  }

  lemma IdsGrow(ready: seq<Item>, i: nat)
    requires i < |ready|
    ensures IdsOf(ready[..i + 1]) == IdsOf(ready[..i]) + {ready[i].id}
  {
    assert ready[..i + 1] == ready[..i] + [ready[i]];
  }

  lemma NoneReady(items: seq<Item>, wave: Waves, remaining: seq<Item>)
    requires Pending(items, remaining, wave.Keys) && Ready(BlockerGraph(items), remaining, wave.Keys) == []
    ensures Stuck(BlockerGraph(items), wave)
  {
    var g := BlockerGraph(items);
    forall x | x in g && x !in wave ensures exists b :: b in g[x] && b !in wave {
      var it :| it in items && it.id == x;
      assert it !in Ready(g, remaining, wave.Keys);
    }
  }

  // ── Rows ──────────────────────────────────────────────────────────────────

  /** `wave` is None for circular items. */
  datatype Row = Row(item: Item, wave: Option<nat>, blockedCount: nat, circular: bool, actionable: bool)

  function RowOf(g: Graph, wave: Waves, item: Item): Row {
    var w := if item.id in wave then Some(wave[item.id]) else None;
    Row(item, w, |ListAt(g, item.id)|, item.id !in wave, item.kind.PlanItem? && !item.done && w == Some(0))
  }

  function Rows(g: Graph, wave: Waves, items: seq<Item>): (r: seq<Row>)
    ensures |r| == |items| && forall i :: 0 <= i < |items| ==> r[i] == RowOf(g, wave, items[i])
  {
    if items == [] then [] else [RowOf(g, wave, items[0])] + Rows(g, wave, items[1..])
  }

  /** An item is actionable exactly when it is a plan, not done, with no unsatisfied blocker. */
  lemma ActionableIffFree(items: seq<Item>, wave: Waves, item: Item)
    requires IsLayering(BlockerGraph(items), wave) && item in items
    ensures RowOf(BlockerGraph(items), wave, item).actionable
       <==> item.kind.PlanItem? && !item.done && BlockerGraph(items)[item.id] == []
  {
    var g := BlockerGraph(items);
    if g[item.id] == [] {
      assert item.id in wave;
      assert Settled(g, wave, item.id);
    } else if item.id in wave {
      assert Settled(g, wave, item.id);
      assert g[item.id][0] in g[item.id];
    }
  }

  /** `collate` is the locale's ordering of ids, as a rank. */
  type Collation = string -> int

  function Compare(collate: Collation, a: Row, b: Row): int {
    var ad, bd := if a.item.done then 1 else 0, if b.item.done then 1 else 0;
    if ad != bd then ad - bd
    else if a.wave.Some? && b.wave.Some? && a.wave != b.wave then a.wave.value - b.wave.value
    else if a.wave.None? && b.wave.Some? then 1
    else if a.wave.Some? && b.wave.None? then -1
    else if KindRank(a.item.kind) != KindRank(b.item.kind) then KindRank(a.item.kind) - KindRank(b.item.kind)
    else collate(a.item.id) - collate(b.item.id)
  }

  function Comparator(collate: Collation): (Row, Row) -> int {
    (a, b) => Compare(collate, a, b)
  }

  /** The row comparator is a total preorder, so sorting by it means something. */
  lemma ComparatorIsAnOrder(collate: Collation)
    ensures IsOrder(Comparator(collate))
  {
  }

  /** The ordered view of a plan: every item's row, once, sorted by done, wave, kind and id. */
  ghost predicate IsOrdered(items: seq<Item>, collate: Collation, wave: Waves, rows: seq<Row>) {
    && IsLayering(BlockerGraph(items), wave)
    && multiset(rows) == multiset(Rows(BlockerGraph(items), wave, items))
    && Sorted(Comparator(collate), rows)
  }

  method WaveOrder(items: seq<Item>, collate: Collation) returns (rows: seq<Row>, ghost wave: Waves)
    ensures IsOrdered(items, collate, wave, rows)
  {
    var layers := Layer(items);
    var unsorted := Rows(BlockerGraph(items), layers, items);
    ComparatorIsAnOrder(collate);
    SortSorts(Comparator(collate), unsorted);
    SortPermutes(Comparator(collate), unsorted);
    rows, wave := Sort(Comparator(collate), unsorted), layers;
  }

  lemma RowsAreRowOf(items: seq<Item>, collate: Collation, wave: Waves, rows: seq<Row>, i: nat)
    requires IsOrdered(items, collate, wave, rows) && i < |rows|
    ensures rows[i].item in items && rows[i] == RowOf(BlockerGraph(items), wave, rows[i].item)
  {
    assert rows[i] in multiset(rows);
    assert rows[i] in Rows(BlockerGraph(items), wave, items);
  }

  /**
   A row is right about its item: circular exactly when its chains of unsatisfied blockers run
   into a cycle, otherwise in the wave of its longest such chain, and actionable exactly when it
   is a plan, not done, with no unsatisfied blocker.
   */
  ghost predicate Right(g: Graph, row: Row) {
    && (row.circular <==> ReachesCycle(g, row.item.id))
    && (row.circular <==> row.wave.None?)
    && (row.wave.Some? ==> LongestChain(g, row.item.id, row.wave.value))
    && (row.actionable <==> row.item.kind.PlanItem? && !row.item.done && ListAt(g, row.item.id) == [])
  }

  ghost predicate ReachesCycle(g: Graph, id: string) {
    exists c :: Chain(g, c) && c[0] == id && Cycles(c)
  }

  ghost predicate LongestChain(g: Graph, id: string, n: nat) {
    && (forall c :: Chain(g, c) && c[0] == id ==> |c| - 1 <= n)
    && (exists c :: Chain(g, c) && c[0] == id && |c| - 1 == n)
  }

  lemma RowOfIsRight(items: seq<Item>, wave: Waves, item: Item)
    requires IsLayering(BlockerGraph(items), wave) && item in items
    ensures Right(BlockerGraph(items), RowOf(BlockerGraph(items), wave, item))
  {
    var g := BlockerGraph(items);
    assert item.id in g;
    BlockersAreKnown(items);
    CircularIffCycle(g, wave, item.id);
    ActionableIffFree(items, wave, item);
    if item.id in wave {
      WaveIsLongestChain(g, wave, item.id);
    }
  }

  lemma EveryRowIsRight(items: seq<Item>, collate: Collation, wave: Waves, rows: seq<Row>, i: nat)
    requires IsOrdered(items, collate, wave, rows) && i < |rows|
    ensures rows[i].item in items && Right(BlockerGraph(items), rows[i])
  {
    RowsAreRowOf(items, collate, wave, rows, i);
    RowOfIsRight(items, wave, rows[i].item);
  }

  /** In the order, every not-done blocker of a placed, not-done item comes before it. */
  lemma BlockersComeFirst(items: seq<Item>, collate: Collation, wave: Waves, rows: seq<Row>, i: nat, j: nat)
    requires IsOrdered(items, collate, wave, rows) && i < |rows| && j < |rows|
    requires !rows[i].item.done && !rows[i].circular && !rows[j].item.done
    requires rows[j].item.id in ListAt(BlockerGraph(items), rows[i].item.id)
    ensures j < i
  {
    RowsAreRowOf(items, collate, wave, rows, i);
    RowsAreRowOf(items, collate, wave, rows, j);
    BlockerSortsFirst(BlockerGraph(items), collate, wave, rows[i], rows[j]);
    SortedPair(Comparator(collate), rows, i, j);
  }

  lemma SortedPair(cmp: (Row, Row) -> int, rows: seq<Row>, i: nat, j: nat)
    requires Sorted(cmp, rows) && i < |rows| && j < |rows| && cmp(rows[i], rows[j]) > 0 && i != j
    ensures j < i
  {
  }

  lemma BlockerSortsFirst(g: Graph, collate: Collation, wave: Waves, a: Row, b: Row)
    requires Layered(g, wave) && a == RowOf(g, wave, a.item) && b == RowOf(g, wave, b.item)
    requires !a.item.done && !b.item.done && !a.circular && b.item.id in ListAt(g, a.item.id)
    ensures Comparator(collate)(a, b) > 0 && a != b
  {
    BlockerIsEarlier(g, wave, a.item.id, b.item.id);
  }

  lemma BlockerIsEarlier(g: Graph, wave: Waves, x: string, b: string)
    requires Layered(g, wave) && x in wave && b in g[x]
    ensures b in wave && wave[b] < wave[x]
  {
    assert Settled(g, wave, x);
  }

  // ── Satisfying items only helps ───────────────────────────────────────────

  /** The same items with, at most, more of them satisfied. */
  ghost predicate MoreSatisfied(before: seq<Item>, after: seq<Item>) {
    && |before| == |after|
    && forall k :: 0 <= k < |before| ==>
         && before[k].id == after[k].id && before[k].deps == after[k].deps
         && (IsSatisfied(before[k]) ==> IsSatisfied(after[k]))
  }

  lemma {:induction false} ByIdKept(before: seq<Item>, after: seq<Item>)
    requires MoreSatisfied(before, after)
    ensures ById(before).Keys == ById(after).Keys
    ensures forall id :: id in ById(before) ==>
      ById(before)[id].deps == ById(after)[id].deps && (IsSatisfied(ById(before)[id]) ==> IsSatisfied(ById(after)[id]))
  {
    if before != [] {
      ByIdKept(before[..|before| - 1], after[..|after| - 1]);
    }
  }

  /** Satisfying items never raises another item's wave and never makes it circular. */
  lemma SatisfyingNeverHurts(before: seq<Item>, after: seq<Item>, wave: Waves, wave': Waves, x: string)
    requires MoreSatisfied(before, after)
    requires IsLayering(BlockerGraph(before), wave) && IsLayering(BlockerGraph(after), wave')
    requires x in wave
    ensures x in wave' && wave'[x] <= wave[x]
  {
    ByIdKept(before, after);
    FewerBlockersNeverHurt(BlockerGraph(before), BlockerGraph(after), wave, wave', x);
  }

  // ── Sections ──────────────────────────────────────────────────────────────

  datatype Title = AvailableNow | Wave(n: nat) | Cycle | Done

  datatype Section = Section(title: Title, rows: seq<Row>)

  function Bucket(row: Row): Title {
    if row.item.done then Done
    else if row.circular || row.wave.None? then Cycle
    else if row.wave.value == 0 then AvailableNow
    else Wave(row.wave.value)
  }

  function Concat(sections: seq<Section>): seq<Row> {
    if sections == [] then [] else Concat(sections[..|sections| - 1]) + sections[|sections| - 1].rows
  }

  ghost predicate GoodSections(sections: seq<Section>) {
    && (forall i, j :: 0 <= i < j < |sections| ==> sections[i].title != sections[j].title)
    && (forall i :: 0 <= i < |sections| ==>
         sections[i].rows != [] && forall r :: r in sections[i].rows ==> Bucket(r) == sections[i].title)
  }

  /** Rows of one section stand together: between two of them nothing else can sort. */
  lemma BucketsAreContiguous(collate: Collation, a: Row, b: Row, c: Row)
    requires Compare(collate, a, b) <= 0 && Compare(collate, b, c) <= 0 && Bucket(a) == Bucket(c)
    requires (a.circular <==> a.wave.None?) && (b.circular <==> b.wave.None?) && (c.circular <==> c.wave.None?)
    ensures Bucket(b) == Bucket(a)
  {
  }

  function Listed(order: seq<Title>, grouped: map<Title, seq<Row>>): seq<Section> {
    if order == [] then []
    else Listed(order[..|order| - 1], grouped) + [Section(order[|order| - 1], ListAt(grouped, order[|order| - 1]))]
  }

  lemma {:induction false} ListedFacts(order: seq<Title>, grouped: map<Title, seq<Row>>)
    ensures |Listed(order, grouped)| == |order|
    ensures forall i :: 0 <= i < |order| ==> Listed(order, grouped)[i] == Section(order[i], ListAt(grouped, order[i]))
  {
    if order != [] {
      ListedFacts(order[..|order| - 1], grouped);
    }
  }

  /** Adding to the last group changes only the last section. */
  lemma {:induction false} ListedElsewhere(order: seq<Title>, grouped: map<Title, seq<Row>>, key: Title, rows: seq<Row>)
    requires key !in order
    ensures Listed(order, grouped[key := rows]) == Listed(order, grouped)
  {
    if order != [] {
      ListedElsewhere(order[..|order| - 1], grouped, key, rows);
    }
  }


  lemma OpenSection(order: seq<Title>, grouped: map<Title, seq<Row>>, key: Title)
    requires key !in order
    ensures Concat(Listed(order + [key], grouped[key := []])) == Concat(Listed(order, grouped))
  {
    ListedElsewhere(order, grouped, key, []);
    var more := order + [key];
    assert more[..|more| - 1] == order;
    var sections := Listed(more, grouped[key := []]);
    assert sections == Listed(order, grouped) + [Section(key, [])];
    assert sections[..|sections| - 1] == Listed(order, grouped);
  }

  lemma ExtendLastSection(order: seq<Title>, grouped: map<Title, seq<Row>>, key: Title, row: Row)
    requires NoDup(order) && order != [] && order[|order| - 1] == key && key in grouped
    ensures Concat(Listed(order, grouped[key := grouped[key] + [row]])) == Concat(Listed(order, grouped)) + [row]
  {
    var front := order[..|order| - 1];
    ListedElsewhere(front, grouped, key, grouped[key] + [row]);
    var one, two := Listed(order, grouped), Listed(order, grouped[key := grouped[key] + [row]]);
    assert one[..|one| - 1] == Listed(front, grouped) && two[..|two| - 1] == Listed(front, grouped);
    assert Concat(two) == Concat(Listed(front, grouped)) + (grouped[key] + [row]);
  }

  /** Every title so far has rows of its own, all of them already seen. */
  ghost predicate GroupsOk(order: seq<Title>, grouped: map<Title, seq<Row>>, seen: seq<Row>) {
    && NoDup(order) && (forall t :: t in order <==> t in grouped)
    && (forall t :: t in grouped ==> grouped[t] != [])
    && (forall t, r :: t in grouped && r in grouped[t] ==> Bucket(r) == t && r in seen)
    && (if seen == [] then order == [] else order != [] && order[|order| - 1] == Bucket(seen[|seen| - 1]))
  }

  /** In sorted rows, a title met again can only be the one being filled. */
  lemma MetAgainIsLast(collate: Collation, order: seq<Title>, grouped: map<Title, seq<Row>>, rows: seq<Row>, i: nat)
    requires Sorted(Comparator(collate), rows) && i < |rows|
    requires GroupsOk(order, grouped, rows[..i]) && Bucket(rows[i]) in grouped
    requires forall r :: r in rows ==> (r.circular <==> r.wave.None?)
    ensures order != [] && order[|order| - 1] == Bucket(rows[i])
  {
    var key := Bucket(rows[i]);
    var r := grouped[key][0];
    assert r in grouped[key] && r in rows[..i];
    var j :| 0 <= j < i && rows[j] == r;
    assert rows[..i][|rows[..i]| - 1] == rows[i - 1];
    assert rows[j] in rows && rows[i - 1] in rows && rows[i] in rows;
    if j < i - 1 {
      assert Comparator(collate)(rows[j], rows[i - 1]) <= 0 && Comparator(collate)(rows[i - 1], rows[i]) <= 0;
      BucketsAreContiguous(collate, rows[j], rows[i - 1], rows[i]);
    }
  }

  lemma RowKeepsGroups(order: seq<Title>, grouped: map<Title, seq<Row>>, seen: seq<Row>, row: Row)
    requires GroupsOk(order, grouped, seen)
    requires Bucket(row) in grouped ==> order != [] && order[|order| - 1] == Bucket(row)
    ensures var key := Bucket(row);
            GroupsOk(if key in grouped then order else order + [key],
                     grouped[key := ListAt(grouped, key) + [row]], seen + [row])
  {
    var key := Bucket(row);
    var after := grouped[key := ListAt(grouped, key) + [row]];
    forall t, r | t in after && r in after[t] ensures Bucket(r) == t && r in seen + [row] {
      assert r == row || (t in grouped && r in grouped[t]);
    }
  }

  lemma RowExtends(order: seq<Title>, grouped: map<Title, seq<Row>>, row: Row)
    requires NoDup(order) && forall t :: t in order <==> t in grouped
    requires Bucket(row) in grouped ==> order != [] && order[|order| - 1] == Bucket(row)
    ensures var key := Bucket(row);
            Concat(Listed(if key in grouped then order else order + [key],
                          grouped[key := ListAt(grouped, key) + [row]]))
            == Concat(Listed(order, grouped)) + [row]
  {
    var key := Bucket(row);
    if key in grouped {
      ExtendLastSection(order, grouped, key, row);
    } else {
      OpenSection(order, grouped, key);
      ExtendLastSection(order + [key], grouped[key := []], key, row);
      assert grouped[key := []][key := [] + [row]] == grouped[key := ListAt(grouped, key) + [row]];
    }
  }

  ghost predicate SectionsSoFar(order: seq<Title>, grouped: map<Title, seq<Row>>, seen: seq<Row>) {
    GroupsOk(order, grouped, seen) && Concat(Listed(order, grouped)) == seen
  }

  lemma NextRow(collate: Collation, order: seq<Title>, grouped: map<Title, seq<Row>>, rows: seq<Row>, i: nat)
    requires Sorted(Comparator(collate), rows) && i < |rows| && SectionsSoFar(order, grouped, rows[..i])
    requires forall r :: r in rows ==> (r.circular <==> r.wave.None?)
    ensures var key := Bucket(rows[i]);
            SectionsSoFar(if key in grouped then order else order + [key],
                          grouped[key := ListAt(grouped, key) + [rows[i]]], rows[..i + 1])
  {
    if Bucket(rows[i]) in grouped {
      MetAgainIsLast(collate, order, grouped, rows, i);
    }
    assert rows[..i + 1] == rows[..i] + [rows[i]];
    RowKeepsGroups(order, grouped, rows[..i], rows[i]);
    RowExtends(order, grouped, rows[i]);
  }

  method SectionRows(ordered: seq<Row>, ghost collate: Collation) returns (sections: seq<Section>)
    requires Sorted(Comparator(collate), ordered) && forall r :: r in ordered ==> (r.circular <==> r.wave.None?)
    ensures GoodSections(sections) && Concat(sections) == ordered
  {
    var order: seq<Title> := [];
    var grouped: map<Title, seq<Row>> := map[];
    var i := 0;
    while i < |ordered|
      invariant i <= |ordered|
      invariant SectionsSoFar(order, grouped, ordered[..i])
    {
      var key := Bucket(ordered[i]);
      NextRow(collate, order, grouped, ordered, i);
      if key !in grouped {
        order := order + [key];
      }
      grouped := grouped[key := ListAt(grouped, key) + [ordered[i]]];
      i := i + 1;
    }
    assert ordered[..i] == ordered;
    sections := Listed(order, grouped);
    SectionsAreGood(order, grouped, ordered);
  }

  /** Cuts the order into titled sections without moving a row. */
  method WaveSections(items: seq<Item>, collate: Collation)
    returns (sections: seq<Section>, ghost rows: seq<Row>, ghost wave: Waves)
    ensures IsOrdered(items, collate, wave, rows)
    ensures GoodSections(sections) && Concat(sections) == rows
  {
    var ordered;
    ordered, wave := WaveOrder(items, collate);
    rows := ordered;
    forall r | r in ordered ensures r.circular <==> r.wave.None? {
      var i :| 0 <= i < |ordered| && ordered[i] == r;
      RowsAreRowOf(items, collate, wave, ordered, i);
    }
    sections := SectionRows(ordered, collate);
  }

  lemma SectionsAreGood(order: seq<Title>, grouped: map<Title, seq<Row>>, seen: seq<Row>)
    requires GroupsOk(order, grouped, seen)
    ensures GoodSections(Listed(order, grouped))
  {
    ListedFacts(order, grouped);
  }
}
