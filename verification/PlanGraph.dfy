/** Layerings of a blocker graph that may have cycles: what waves and circularity mean. */
module PlanGraph {
  import opened Base

  /** Each item's unsatisfied blockers, by id. */
  type Graph = map<string, seq<string>>
  type Waves = map<string, nat>

  ghost predicate Closed(g: Graph) {
    forall x, b :: x in g && b in g[x] ==> b in g
  }

  /** Placed items sit one above their highest blocker. */
  ghost predicate Layered(g: Graph, wave: Waves) {
    forall x :: x in wave ==> x in g && Settled(g, wave, x)
  }

  ghost predicate Settled(g: Graph, wave: Waves, x: string)
    requires x in wave && x in g
  {
    && (forall b :: b in g[x] ==> b in wave && wave[b] < wave[x])
    && (wave[x] > 0 ==> exists b :: b in g[x] && b in wave && wave[b] == wave[x] - 1)
  }

  /** Unplaced items all wait for another unplaced one. */
  ghost predicate Stuck(g: Graph, wave: Waves) {
    forall x :: x in g && x !in wave ==> exists b :: b in g[x] && b !in wave
  }

  ghost predicate IsLayering(g: Graph, wave: Waves) {
    Layered(g, wave) && Stuck(g, wave)
  }

  /** Each element is a blocker of the one before. */
  ghost predicate Chain(g: Graph, c: seq<string>) {
    c != [] && c[0] in g && forall i :: 0 <= i < |c| - 1 ==> c[i] in g && c[i + 1] in g[c[i]]
  }

  lemma {:induction false} ChainFalls(g: Graph, wave: Waves, c: seq<string>, i: nat)
    requires Layered(g, wave) && Chain(g, c) && c[0] in wave && i < |c|
    ensures c[i] in wave && wave[c[i]] + i <= wave[c[0]]
  {
    if i > 0 {
      ChainFalls(g, wave, c, i - 1);
      assert Settled(g, wave, c[i - 1]);
      assert c[i - 1 + 1] in g[c[i - 1]];
    }
  }

  lemma ChainTail(g: Graph, c: seq<string>, i: nat)
    requires Closed(g) && Chain(g, c) && i < |c|
    ensures Chain(g, c[i..])
  {
    if i > 0 {
      assert c[i - 1 + 1] in g[c[i - 1]];
    }
    forall j | 0 <= j < |c[i..]| - 1 ensures c[i..][j] in g && c[i..][j + 1] in g[c[i..][j]] {
      assert c[i..][j] == c[i + j] && c[i..][j + 1] == c[i + j + 1];
    }
  }

  lemma ChainCons(g: Graph, x: string, d: seq<string>)
    requires x in g && Chain(g, d) && d[0] in g[x]
    ensures Chain(g, [x] + d)
  {
    var c := [x] + d;
    forall i | 0 <= i < |c| - 1 ensures c[i] in g && c[i + 1] in g[c[i]] {
      assert i > 0 ==> c[i] == d[i - 1] && c[i + 1] == d[i - 1 + 1];
    }
  }

  lemma {:induction false} ChainOfWave(g: Graph, wave: Waves, x: string) returns (c: seq<string>)
    requires Layered(g, wave) && x in wave
    ensures Chain(g, c) && c[0] == x && |c| == wave[x] + 1
    decreases wave[x]
  {
    if wave[x] == 0 {
      c := [x];
    } else {
      assert Settled(g, wave, x);
      var b :| b in g[x] && b in wave && wave[b] == wave[x] - 1;
      var d := ChainOfWave(g, wave, b);
      ChainCons(g, x, d);
      c := [x] + d;
    }
  }

  /** A placed item's wave is exactly the length of its longest chain of unsatisfied blockers. */
  lemma WaveIsLongestChain(g: Graph, wave: Waves, x: string)
    requires IsLayering(g, wave) && x in wave
    ensures forall c :: Chain(g, c) && c[0] == x ==> |c| - 1 <= wave[x]
    ensures exists c :: Chain(g, c) && c[0] == x && |c| - 1 == wave[x]
  {
    forall c | Chain(g, c) && c[0] == x ensures |c| - 1 <= wave[x] {
      ChainFalls(g, wave, c, |c| - 1);
    }
    var c := ChainOfWave(g, wave, x);
  }

  lemma {:induction false} StuckChain(g: Graph, wave: Waves, x: string, n: nat) returns (c: seq<string>)
    requires Closed(g) && Stuck(g, wave) && x in g && x !in wave
    ensures Chain(g, c) && c[0] == x && |c| == n + 1
    decreases n
  {
    if n == 0 {
      c := [x];
    } else {
      var b :| b in g[x] && b !in wave;
      var d := StuckChain(g, wave, b, n - 1);
      ChainCons(g, x, d);
      c := [x] + d;
    }
  }

  /** The chain comes back to an item it has passed. */
  ghost predicate Cycles(c: seq<string>) {
    exists i, j :: 0 <= i < j < |c| && c[i] == c[j]
  }

  /** An item stays unplaced exactly when some chain of its unsatisfied blockers runs into a cycle. */
  lemma CircularIffCycle(g: Graph, wave: Waves, x: string)
    requires Closed(g) && IsLayering(g, wave) && x in g
    ensures x !in wave <==> exists c :: Chain(g, c) && c[0] == x && Cycles(c)
  {
    if x in wave {
      forall c | Chain(g, c) && c[0] == x ensures !Cycles(c) {
        forall i, j | 0 <= i < j < |c| ensures c[i] != c[j] {
          ChainFalls(g, wave, c, i);
          ChainTail(g, c, i);
          ChainFalls(g, wave, c[i..], j - i);
        }
      }
    } else {
      var c := StuckChain(g, wave, x, |g.Keys|);
      forall y | y in c ensures y in g.Keys {
        var i :| 0 <= i < |c| && c[i] == y;
        ChainTail(g, c, i);
      }
      var i, j := LongRepeats(c, g.Keys);
      assert Cycles(c);
    }
  }

  lemma SamePlaced(g: Graph, one: Waves, two: Waves, x: string)
    requires Closed(g) && IsLayering(g, one) && IsLayering(g, two) && x in one
    ensures x in two && one[x] == two[x]
  {
    assert x in g;
    CircularIffCycle(g, one, x);
    CircularIffCycle(g, two, x);
    WaveIsLongestChain(g, one, x);
    WaveIsLongestChain(g, two, x);
  }

  /** So the layering is determined by the graph alone. */
  lemma LayeringIsUnique(g: Graph, one: Waves, two: Waves)
    requires Closed(g) && IsLayering(g, one) && IsLayering(g, two)
    ensures one == two
  {
    forall x | x in one ensures x in two && one[x] == two[x] {
      SamePlaced(g, one, two, x);
    }
    forall x | x in two ensures x in one {
      SamePlaced(g, two, one, x);
    }
    assert one.Keys == two.Keys;
  }

  /** Removing blockers never raises a wave and never makes an item circular. */
  lemma FewerBlockersNeverHurt(g: Graph, h: Graph, wave: Waves, wave': Waves, x: string)
    requires Closed(g) && Closed(h) && IsLayering(g, wave) && IsLayering(h, wave') && g.Keys == h.Keys
    requires forall y, b :: y in h && b in h[y] ==> b in g[y]
    requires x in wave
    ensures x in wave' && wave'[x] <= wave[x]
  {
    forall c | Chain(h, c) ensures Chain(g, c) {
    }
    CircularIffCycle(g, wave, x);
    CircularIffCycle(h, wave', x);
    WaveIsLongestChain(g, wave, x);
    WaveIsLongestChain(h, wave', x);
  }

  // ── Growing a layering wave by wave ───────────────────────────────────────

  /** Every unplaced item waits for something in the last wave or still unplaced. */
  ghost predicate Frontier(g: Graph, wave: Waves, n: nat) {
    && Layered(g, wave) && (forall x :: x in wave ==> wave[x] < n)
    && (n > 0 ==> forall x :: x in g && x !in wave ==> exists b :: b in g[x] && (b !in wave || wave[b] == n - 1))
  }

  /** `ready` is exactly the set of unplaced items whose blockers are all placed. */
  ghost predicate IsReady(g: Graph, wave: Waves, ready: set<string>) {
    forall x :: x in ready <==> x in g && x !in wave && forall b :: b in g[x] ==> b in wave
  }

  function AddWave(wave: Waves, ready: set<string>, n: nat): Waves {
    map x | x in wave.Keys + ready :: if x in ready then n else wave[x]
  }

  /** Placing a whole ready set keeps the layering and moves the frontier up by one. */
  lemma NextWave(g: Graph, wave: Waves, n: nat, ready: set<string>)
    requires Frontier(g, wave, n) && IsReady(g, wave, ready)
    ensures Frontier(g, AddWave(wave, ready, n), n + 1)
  {
    var next := AddWave(wave, ready, n);
    forall x | x in next ensures x in g && Settled(g, next, x) {
      if x in wave {
        assert Settled(g, wave, x);
      }
    }
    forall x | x in g && x !in next ensures exists b :: b in g[x] && (b !in next || next[b] == n) {
      var b :| b in g[x] && b !in wave;
      assert b !in next || next[b] == n;
    }
  }
}
