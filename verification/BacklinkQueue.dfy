/** What the bounded, expiring backlink queue keeps and drops. */
module BacklinkQueue {
  import opened Base
  import opened PeeringModel

  ghost predicate DistinctIds(q: seq<Backlink>) {
    forall i, j :: 0 <= i < j < |q| ==> q[i].id != q[j].id
  }

  ghost predicate Has(q: seq<Backlink>, id: ReqId) {
    exists e :: e in q && e.id == id
  }

  predicate Live(e: Backlink, now: int) {
    now - e.at < HOP_BACKLINK_TTL
  }

  lemma {:induction false} UnexpiredFacts(q: seq<Backlink>, now: int)
    ensures forall e :: e in Unexpired(q, now) <==> e in q && Live(e, now)
    ensures DistinctIds(q) ==> DistinctIds(Unexpired(q, now))
    ensures |Unexpired(q, now)| <= |q|
  {
    if q != [] {
      UnexpiredFacts(q[1..], now);
      if DistinctIds(q) {
        assert DistinctIds(q[1..]);
        assert forall e :: e in q[1..] ==> e.id != q[0].id;
      }
    }
  }

  /** Recording keeps ids distinct, adds one entry and invents nothing else. */
  lemma RecordFacts(q: seq<Backlink>, id: ReqId, now: int, conn: Conn)
    requires DistinctIds(q) && !Has(q, id)
    ensures var r := RecordBacklink(q, id, now, conn);
            && DistinctIds(r)
            && (forall e :: e in r ==> e in q || e == Backlink(id, now, conn))
            && Backlink(id, now, conn) in r
            && |r| <= HOP_BACKLINK_MAX
            && (|Unexpired(q, now)| < HOP_BACKLINK_MAX ==> forall e :: e in q && Live(e, now) ==> e in r)
  {
    UnexpiredFacts(q, now);
    var live := Unexpired(q, now);
    var kept := Evicted(live);
    assert DistinctIds(kept) && forall e :: e in kept ==> e in live;
    assert forall e :: e in kept ==> e.id != id;
  }

  lemma WithoutEntry(q: seq<Backlink>, k: nat)
    requires DistinctIds(q) && k < |q|
    ensures var rest := q[..k] + q[k + 1..];
            && DistinctIds(rest) && !Has(rest, q[k].id)
            && (forall e :: e in rest ==> e in q) && (forall e :: e in q && e.id != q[k].id ==> e in rest)
  {
    var rest := q[..k] + q[k + 1..];
    assert q == q[..k] + [q[k]] + q[k + 1..];
    forall i | 0 <= i < |rest| ensures rest[i].id != q[k].id {
      assert rest[i] == if i < k then q[i] else q[i + 1];
    }
  }

  /** Taking removes at most the one entry for `id`, and misses it only if it has expired. */
  lemma TakeFacts(q: seq<Backlink>, id: ReqId, now: int)
    requires DistinctIds(q)
    ensures var (back, rest) := TakeBacklink(q, id, now);
            && DistinctIds(rest)
            && !Has(rest, id)
            && (forall e :: e in rest ==> e in q)
            && (forall e :: e in q && Live(e, now) && e.id != id ==> e in rest)
            && (back.Some? ==> exists e :: e in q && e.id == id && e.conn == back.value)
            && (back.None? ==> forall e :: e in q && e.id == id ==> !Live(e, now))
  {
    UnexpiredFacts(q, now);
    var live := Unexpired(q, now);
    var k := Position(live, id);
    if k < |live| {
      WithoutEntry(live, k);
      assert live[k] in q;
    } else {
      assert forall e :: e in live ==> e.id != id;
    }
  }

  /** Taking one id's entry leaves every other id that has not expired as it was. */
  lemma TakeSpares(q: seq<Backlink>, id: ReqId, now: int, other: ReqId)
    requires DistinctIds(q) && other != id && forall e :: e in q && e.id == other ==> Live(e, now)
    ensures Has(TakeBacklink(q, id, now).1, other) <==> Has(q, other)
  {
    TakeFacts(q, id, now);
    var rest := TakeBacklink(q, id, now).1;
    forall e | e in q && e.id == other ensures e in rest {
    }
  }

  /** Room for one more entry is made without dropping an entry of `id`. */
  ghost predicate NotEvicted(q: seq<Backlink>, id: ReqId, now: int) {
    forall e :: e in q && e.id == id ==> e in Evicted(Unexpired(q, now))
  }

  /** Recording leaves another id as it was, if and only if its entry is neither expired nor evicted. */
  lemma RecordSparesIff(q: seq<Backlink>, id: ReqId, now: int, conn: Conn, other: ReqId)
    requires DistinctIds(q) && !Has(q, id) && other != id
    ensures (Has(RecordBacklink(q, id, now, conn), other) <==> Has(q, other)) <==> NotEvicted(q, other, now)
  {
    var r, kept := RecordBacklink(q, id, now, conn), Evicted(Unexpired(q, now));
    RecordFacts(q, id, now, conn);
    assert forall e :: e in r <==> e in kept || e == Backlink(id, now, conn);
    if Has(q, other) {
      var e :| e in q && e.id == other;
      assert forall x :: x in q && x.id == other ==> x == e;
      assert Has(r, other) <==> e in kept;
    }
  }

  /** Expiry keeps the order of what is left. */
  lemma {:induction false} ExpiryKeepsOrder(q: seq<Backlink>, e: Backlink, now: int)
    ensures Unexpired(q + [e], now) == Unexpired(q, now) + if now - e.at < 30_000 then [e] else []
  {
    if q == [] {
      assert q + [e] == [e] && [e][1..] == [];
    } else {
      assert (q + [e])[1..] == q[1..] + [e];
      ExpiryKeepsOrder(q[1..], e, now);
      var head := if now - q[0].at < HOP_BACKLINK_TTL then [q[0]] else [];
      Assoc(head, Unexpired(q[1..], now), if now - e.at < HOP_BACKLINK_TTL then [e] else []);
    }
  }

  /** An unexpired entry makes room for the new one only if at least 1023 unexpired ones were recorded after it. */
  lemma OldestMakeRoom(q: seq<Backlink>, id: ReqId, now: int, conn: Conn, i: nat)
    requires DistinctIds(q) && !Has(q, id) && i < |Unexpired(q, now)|
    ensures Unexpired(q, now)[i] in RecordBacklink(q, id, now, conn) <==> |Unexpired(q, now)| - i - 1 < 1023
  {
    UnexpiredFacts(q, now);
    var live := Unexpired(q, now);
    var kept := Evicted(live);
    var from := |live| - |kept|;
    assert kept == live[from..];
    if i >= from {
      assert kept[i - from] == live[i];
    } else {
      forall k | 0 <= k < |kept| ensures kept[k] != live[i] {
        assert kept[k] == live[from + k];
      }
    }
    assert live[i] in q && live[i].id != id;
  }
}
