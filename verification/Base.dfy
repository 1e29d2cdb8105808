/** Small facts about sequences and maps shared by every module. */
module Base {

  datatype Option<+T> = None | Some(value: T)

  /** No element occurs twice. */
  ghost predicate NoDup<T(!new)>(s: seq<T>) {
    forall i, j :: 0 <= i < j < |s| ==> s[i] != s[j]
  }

  /** The elements of `s` that are not in `gone`, in order. */
  function Without<T(==, !new)>(s: seq<T>, gone: set<T>): (r: seq<T>)
    ensures forall x :: x in r <==> x in s && x !in gone
  {
    if s == [] then []
    else (if s[0] in gone then [] else [s[0]]) + Without(s[1..], gone)
  }

  /** Appends `x` unless it is there already. */
  function PushNew<T(==)>(s: seq<T>, x: T): seq<T> {
    if x in s then s else s + [x]
  }

  function ListAt<K(==), V>(m: map<K, seq<V>>, k: K): seq<V> {
    if k in m then m[k] else []
  }

  function SetAt<K(==), V>(m: map<K, set<V>>, k: K): set<V> {
    if k in m then m[k] else {}
  }

  function Max(a: int, b: int): int {
    if a < b then b else a
  }

  function Min(a: int, b: int): int {
    if a < b then a else b
  }

  lemma Assoc<T>(a: seq<T>, b: seq<T>, c: seq<T>)
    ensures a + (b + c) == (a + b) + c
  {
  }

  lemma {:induction false} WithoutKeepsNoDup<T(!new)>(s: seq<T>, gone: set<T>)
    requires NoDup(s)
    ensures NoDup(Without(s, gone))
  {
    if s != [] {
      WithoutKeepsNoDup(s[1..], gone);
      assert s[0] !in s[1..];
    }
  }

  lemma {:induction false} WithoutNothing<T(!new)>(s: seq<T>, gone: set<T>)
    requires forall x :: x in s ==> x !in gone
    ensures Without(s, gone) == s
  {
    if s != [] {
      WithoutNothing(s[1..], gone);
    }
  }

  /** A left-to-right pass may build `Without` one element at a time. */
  lemma {:induction false} WithoutSnoc<T(!new)>(s: seq<T>, x: T, gone: set<T>)
    ensures Without(s + [x], gone) == Without(s, gone) + (if x in gone then [] else [x])
  {
    if s == [] {
      assert s + [x] == [x];
      assert [x][1..] == [];
    } else {
      assert (s + [x])[1..] == s[1..] + [x];
      WithoutSnoc(s[1..], x, gone);
      var head, last := if s[0] in gone then [] else [s[0]], if x in gone then [] else [x];
      Assoc(head, Without(s[1..], gone), last);
    }
  }

  /** Pigeonhole: a repeat-free sequence is no longer than the set it draws from. */
  lemma {:induction false} NoDupFits<T(!new)>(s: seq<T>, domain: set<T>)
    requires NoDup(s)
    requires forall x :: x in s ==> x in domain
    ensures |s| <= |domain|
  {
    if s != [] {
      var last := s[|s| - 1];
      var front := s[..|s| - 1];
      assert forall x :: x in front ==> x in domain - {last};
      NoDupFits(front, domain - {last});
    }
  }

  /** Pigeonhole the other way: a sequence longer than its domain repeats an element. */
  lemma LongRepeats<T(!new)>(s: seq<T>, domain: set<T>) returns (i: nat, j: nat)
    requires forall x :: x in s ==> x in domain
    requires |domain| < |s|
    ensures i < j < |s| && s[i] == s[j]
  {
    if NoDup(s) {
      NoDupFits(s, domain);
      assert false;
    }
    i, j :| 0 <= i < j < |s| && s[i] == s[j];
  }
}
