/** Sorting by a comparator, as the language's own sort promises it: ordered, and nothing lost. */
module StableSort {

  /** Where one more element goes: after everything it does not come before. */
  function Insert<T>(cmp: (T, T) -> int, sorted: seq<T>, x: T): seq<T> {
    if sorted == [] then [x]
    else if cmp(sorted[|sorted| - 1], x) <= 0 then sorted + [x]
    else Insert(cmp, sorted[..|sorted| - 1], x) + [sorted[|sorted| - 1]]
  }

  function Sort<T>(cmp: (T, T) -> int, s: seq<T>): seq<T> {
    if s == [] then [] else Insert(cmp, Sort(cmp, s[..|s| - 1]), s[|s| - 1])
  }

  predicate Bridges<T>(cmp: (T, T) -> int, a: T, b: T, c: T) {
    cmp(a, b) <= 0 && cmp(b, c) <= 0 ==> cmp(a, c) <= 0
  }

  /** The comparator is total and transitive. */
  ghost predicate IsOrder<T(!new)>(cmp: (T, T) -> int) {
    && (forall a, b :: cmp(a, b) <= 0 || cmp(b, a) <= 0)
    && (forall a, b, c :: Bridges(cmp, a, b, c))
  }

  ghost predicate Sorted<T>(cmp: (T, T) -> int, s: seq<T>) {
    forall i, j :: 0 <= i < j < |s| ==> cmp(s[i], s[j]) <= 0
  }

  lemma {:induction false} InsertPermutes<T>(cmp: (T, T) -> int, s: seq<T>, x: T)
    ensures multiset(Insert(cmp, s, x)) == multiset(s) + multiset{x}
  {
    if s != [] {
      InsertPermutes(cmp, s[..|s| - 1], x);
      SnocMultiset(s);
    }
  }

  lemma {:induction false} InsertSorts<T(!new)>(cmp: (T, T) -> int, s: seq<T>, x: T)
    requires IsOrder(cmp) && Sorted(cmp, s)
    ensures Sorted(cmp, Insert(cmp, s, x))
  {
    if s != [] {
      var last, front := s[|s| - 1], s[..|s| - 1];
      if cmp(last, x) <= 0 {
        forall i | 0 <= i < |s| ensures cmp(s[i], x) <= 0 {
          assert Bridges(cmp, s[i], last, x);
        }
      } else {
        InsertSorts(cmp, front, x);
        InsertPermutes(cmp, front, x);
        var r := Insert(cmp, front, x);
        forall i | 0 <= i < |r| ensures cmp(r[i], last) <= 0 {
          assert r[i] in multiset(r);
          assert r[i] == x || r[i] in front;
        }
      }
    }
  }

  lemma {:induction false} SortPermutes<T>(cmp: (T, T) -> int, s: seq<T>)
    ensures multiset(Sort(cmp, s)) == multiset(s)
  {
    if s != [] {
      var front, last := s[..|s| - 1], s[|s| - 1];
      SortPermutes(cmp, front);
      InsertPermutes(cmp, Sort(cmp, front), last);
      SnocMultiset(s);
    }
  }

  lemma SnocMultiset<T>(s: seq<T>)
    requires s != []
    ensures multiset(s) == multiset(s[..|s| - 1]) + multiset{s[|s| - 1]}
  {
    assert s == s[..|s| - 1] + [s[|s| - 1]];
  }

  lemma {:induction false} SortSorts<T(!new)>(cmp: (T, T) -> int, s: seq<T>)
    requires IsOrder(cmp)
    ensures Sorted(cmp, Sort(cmp, s))
  {
    if s != [] {
      SortSorts(cmp, s[..|s| - 1]);
      InsertSorts(cmp, Sort(cmp, s[..|s| - 1]), s[|s| - 1]);
    }
  }

  // ── Stability ─────────────────────────────────────────────────────────────

  predicate Tied<T>(cmp: (T, T) -> int, a: T, b: T) {
    cmp(a, b) <= 0 && cmp(b, a) <= 0
  }

  /** The elements the comparator does not tell from `a`, in order. */
  function TiedWith<T>(cmp: (T, T) -> int, s: seq<T>, a: T): seq<T> {
    if s == [] then []
    else TiedWith(cmp, s[..|s| - 1], a) + if Tied(cmp, s[|s| - 1], a) then [s[|s| - 1]] else []
  }

  lemma TiedWithSnoc<T>(cmp: (T, T) -> int, s: seq<T>, x: T, a: T)
    ensures TiedWith(cmp, s + [x], a) == TiedWith(cmp, s, a) + if Tied(cmp, x, a) then [x] else []
  {
    assert (s + [x])[..|s|] == s;
  }

  lemma TiedOrder<T(!new)>(cmp: (T, T) -> int, x: T, y: T, a: T)
    requires IsOrder(cmp) && Tied(cmp, x, a) && Tied(cmp, y, a)
    ensures cmp(x, y) <= 0
  {
    assert Bridges(cmp, x, a, y);
  }

  lemma {:induction false} InsertIsStable<T(!new)>(cmp: (T, T) -> int, s: seq<T>, x: T, a: T)
    requires IsOrder(cmp)
    ensures TiedWith(cmp, Insert(cmp, s, x), a) == TiedWith(cmp, s, a) + if Tied(cmp, x, a) then [x] else []
  {
    if s == [] || cmp(s[|s| - 1], x) <= 0 {
      assert s == [] ==> s + [x] == [x];
      TiedWithSnoc(cmp, s, x, a);
    } else {
      var last, front := s[|s| - 1], s[..|s| - 1];
      InsertIsStable(cmp, front, x, a);
      TiedWithSnoc(cmp, Insert(cmp, front, x), last, a);
      if Tied(cmp, last, a) && Tied(cmp, x, a) {
        TiedOrder(cmp, last, x, a);
      }
    }
  }

  /** Elements the comparator does not tell apart keep their order. */
  lemma {:induction false} SortIsStable<T(!new)>(cmp: (T, T) -> int, s: seq<T>, a: T)
    requires IsOrder(cmp)
    ensures TiedWith(cmp, Sort(cmp, s), a) == TiedWith(cmp, s, a)
  {
    if s != [] {
      SortIsStable(cmp, s[..|s| - 1], a);
      InsertIsStable(cmp, Sort(cmp, s[..|s| - 1]), s[|s| - 1], a);
    }
  }
}
