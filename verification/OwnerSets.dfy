/**
 Machine-signed owner sets: what a relay stores is what the machine signed, however many relays
 carried it, and the stored version does not depend on the order of arrival.
 */
module OwnerSets {
  import opened Base
  import opened PeeringModel
  import opened RouteDatabase

  /** The stored entry is exactly the document its own envelope verifies to, for this machine. */
  ghost predicate Authentic(verify: Verifier, pairings: map<Epk, Pairing>) {
    forall m :: m in pairings ==>
      verify(pairings[m].envelope) == Some(PairingDoc(m, pairings[m].version, pairings[m].owners))
  }

  lemma {:induction false} LearnKeepsAuthentic(verify: Verifier, pairings: map<Epk, Pairing>, link: Name,
                                               origin: Name, cs: seq<Claim>)
    requires Authentic(verify, pairings)
    ensures Authentic(verify, LearnPairings(pairings, verify, link, origin, cs))
    decreases |cs|
  {
    if cs != [] {
      LearnKeepsAuthentic(verify, LearnPairing(pairings, verify, link, origin, cs[0]), link, origin, cs[1..]);
    }
  }

  lemma ApplyKeepsAuthentic(verify: Verifier, f: Fed, op: Op)
    requires Authentic(verify, f.pairings)
    ensures Authentic(verify, Apply(f, verify, op).pairings)
  {
    match op
    case Segment(link, origin, rooms, claims) =>
      LearnKeepsAuthentic(verify, f.pairings, link, origin, claims);
      if origin != f.own {
        SegmentPairings(f, verify, link, origin, rooms, claims);
      }
    case PairingPushed(link, origin, claim) => LearnKeepsAuthentic(verify, f.pairings, link, origin, [claim]);
    case LocalPairing(claim) => LearnKeepsAuthentic(verify, f.pairings, f.own, f.own, [claim]);
    case _ =>
  }

  /**
   Whatever frames arrive, forged ones included: if only a machine can make envelopes that verify
   for it, every stored owner set is one that machine signed, at the stored version.
   */
  lemma {:induction false} StoredSetsWereSigned(own: Name, verify: Verifier, ops: seq<Op>, signed: set<PairingDoc>)
    requires forall e :: verify(e).Some? ==> verify(e).value in signed
    ensures var pairings := Run(own, verify, ops).pairings;
            && Authentic(verify, pairings)
            && (forall m :: m in pairings ==> PairingDoc(m, pairings[m].version, pairings[m].owners) in signed)
  {
    if ops != [] {
      var f, op := Run(own, verify, ops[..|ops| - 1]), ops[|ops| - 1];
      StoredSetsWereSigned(own, verify, ops[..|ops| - 1], signed);
      ApplyKeepsAuthentic(verify, f, op);
      var pairings := Run(own, verify, ops).pairings;
      forall m | m in pairings ensures PairingDoc(m, pairings[m].version, pairings[m].owners) in signed {
        assert verify(pairings[m].envelope).Some?;
      }
    }
  }

  /** The claim a relay re-advertises for a stored entry: machine, version and the envelope verbatim. */
  function ClaimOf(m: Epk, p: Pairing): Claim {
    Claim(m, p.version, p.envelope)
  }

  // ── Order of arrival ──────────────────────────────────────────────────────

  datatype Arrival = Arrival(link: Name, origin: Name, claim: Claim)

  function LearnAll(pairings: map<Epk, Pairing>, verify: Verifier, arrivals: seq<Arrival>): map<Epk, Pairing>
    decreases |arrivals|
  {
    if arrivals == [] then pairings
    else
      var a := arrivals[0];
      LearnAll(LearnPairing(pairings, verify, a.link, a.origin, a.claim), verify, arrivals[1..])
  }

  /** A document on offer for `m`: stored already or carried by an arriving claim that verifies. */
  ghost predicate Offered(pairings: map<Epk, Pairing>, verify: Verifier, arrivals: seq<Arrival>, doc: PairingDoc) {
    || (doc.machine in pairings
        && doc == PairingDoc(doc.machine, pairings[doc.machine].version, pairings[doc.machine].owners))
    || (exists a :: a in arrivals && Accepted(verify, a.claim) == Some(doc))
  }

  /** The stored entry is the offered document of the highest version. */
  lemma {:induction false} HighestVersionWins(pairings: map<Epk, Pairing>, verify: Verifier, arrivals: seq<Arrival>,
                                              m: Epk)
    ensures var after := LearnAll(pairings, verify, arrivals);
            && (m in after ==> Offered(pairings, verify, arrivals, PairingDoc(m, after[m].version, after[m].owners)))
            && (forall doc :: Offered(pairings, verify, arrivals, doc) && doc.machine == m ==>
                  m in after && doc.version <= after[m].version)
    decreases |arrivals|
  {
    if arrivals != [] {
      var a := arrivals[0];
      var mid := LearnPairing(pairings, verify, a.link, a.origin, a.claim);
      HighestVersionWins(mid, verify, arrivals[1..], m);
      var after := LearnAll(pairings, verify, arrivals);
      forall doc | Offered(pairings, verify, arrivals, doc) && doc.machine == m
        ensures m in after && doc.version <= after[m].version
      {
        if !(exists b :: b in arrivals[1..] && Accepted(verify, b.claim) == Some(doc)) {
          var best := PairingDoc(m, mid[m].version, mid[m].owners);
          assert Offered(mid, verify, arrivals[1..], best) && doc.version <= best.version;
        } else {
          assert Offered(mid, verify, arrivals[1..], doc);
        }
      }
      if m in after {
        var doc := PairingDoc(m, after[m].version, after[m].owners);
        assert Offered(mid, verify, arrivals[1..], doc);
        if b :| b in arrivals[1..] && Accepted(verify, b.claim) == Some(doc) {
          assert b in arrivals;
        } else {
          assert a in arrivals;
        }
      }
    }
  }

  /** A machine signs at most one owner set per version. */
  ghost predicate OneSetPerVersion(pairings: map<Epk, Pairing>, verify: Verifier, arrivals: seq<Arrival>) {
    forall d, e | Offered(pairings, verify, arrivals, d) && Offered(pairings, verify, arrivals, e) ::
      d.machine == e.machine && d.version == e.version ==> d == e
  }

  /**
   Between purges, the same claims in any order, over any links and any number of times, leave
   every machine with the same version and owners.
   */
  lemma ArrivalOrderIsIrrelevant(pairings: map<Epk, Pairing>, verify: Verifier, first: seq<Arrival>,
                                 second: seq<Arrival>, m: Epk)
    requires OneSetPerVersion(pairings, verify, first)
    requires (set a | a in first :: a.claim) == (set a | a in second :: a.claim)
    ensures var x, y := LearnAll(pairings, verify, first), LearnAll(pairings, verify, second);
            && (m in x <==> m in y)
            && (m in x ==> x[m].version == y[m].version && x[m].owners == y[m].owners)
  {
    SameOffers(pairings, verify, first, second);
    SameOffers(pairings, verify, second, first);
    HighestVersionWins(pairings, verify, first, m);
    HighestVersionWins(pairings, verify, second, m);
  }

  lemma SameOffers(pairings: map<Epk, Pairing>, verify: Verifier, first: seq<Arrival>, second: seq<Arrival>)
    requires (set a | a in first :: a.claim) <= (set a | a in second :: a.claim)
    ensures forall doc :: Offered(pairings, verify, first, doc) ==> Offered(pairings, verify, second, doc)
  {
    var some, all := set a | a in first :: a.claim, set b | b in second :: b.claim;
    assert some <= all;
    forall doc, a | a in first && Accepted(verify, a.claim) == Some(doc)
      ensures exists b :: b in second && Accepted(verify, b.claim) == Some(doc)
    {
      assert a.claim in some && a.claim in all;
      var b :| b in second && b.claim == a.claim;
      assert Accepted(verify, b.claim) == Some(doc);
    }
  }

  /** A batch from one link is a run of single arrivals. */
  lemma {:induction false} BatchIsArrivals(pairings: map<Epk, Pairing>, verify: Verifier, link: Name, origin: Name,
                                           cs: seq<Claim>)
    ensures LearnPairings(pairings, verify, link, origin, cs)
         == LearnAll(pairings, verify, seq(|cs|, i requires 0 <= i < |cs| => Arrival(link, origin, cs[i])))
    decreases |cs|
  {
    if cs != [] {
      var arrivals := seq(|cs|, i requires 0 <= i < |cs| => Arrival(link, origin, cs[i]));
      BatchIsArrivals(LearnPairing(pairings, verify, link, origin, cs[0]), verify, link, origin, cs[1..]);
      assert arrivals[1..] == seq(|cs[1..]|, i requires 0 <= i < |cs[1..]| => Arrival(link, origin, cs[1..][i]));
    }
  }
}
