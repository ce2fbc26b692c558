/** Dependency relations: chains, cycles, and the levels Kahn's algorithm peels off.

    A relation maps every node name to the set of names it directly depends on. The
    reference notion is the dependency chain; everything the scheduler computes is
    measured against chains.
 */
module Relation {
  import opened Names

  type Deps = map<string, set<string>>

  /** No dangling endpoint: dependencies are nodes too. */
  ghost predicate Closed(d: Deps) {
    forall n | n in d :: d[n] <= d.Keys
  }

  /** A chain follows dependency edges: each entry depends on the next one. */
  ghost predicate Chain(d: Deps, p: seq<string>) {
    && |p| > 0
    && (forall i | 0 <= i < |p| :: p[i] in d)
    && (forall i | 0 <= i < |p| - 1 :: p[i + 1] in d[p[i]])
  }

  /** A closed walk of genuine dependency edges. */
  ghost predicate Cycle(d: Deps, p: seq<string>) {
    Chain(d, p) && |p| >= 2 && p[0] == p[|p| - 1]
  }

  /** A cycle that visits no node twice before closing. */
  ghost predicate SimpleCycle(d: Deps, p: seq<string>) {
    && Cycle(d, p)
    && (forall i, j | 0 <= i < j < |p| - 1 :: p[i] != p[j])
  }

  ghost predicate Acyclic(d: Deps) {
    forall p :: !Cycle(d, p)
  }

  /** `d` has the same nodes as `e` and no edge that `e` lacks. */
  ghost predicate SubRelation(d: Deps, e: Deps) {
    d.Keys == e.Keys && forall n | n in d :: d[n] <= e[n]
  }

  // ---- Levels -------------------------------------------------------------

  /** The nodes that can run once `done` has run. */
  function Ready(d: Deps, done: set<string>): set<string> {
    set n | n in d && n !in done && d[n] <= done
  }

  /** Every name placed in one of the waves. */
  function Settled(waves: seq<seq<string>>): set<string> {
    if waves == [] then {} else Settled(waves[..|waves| - 1]) + Elems(waves[|waves| - 1])
  }

  /** Wave `i` holds, in name order, exactly the nodes first runnable after waves `0..i`. */
  ghost predicate Layered(d: Deps, waves: seq<seq<string>>) {
    forall i | 0 <= i < |waves| :: Ascending(waves[i]) && Elems(waves[i]) == Ready(d, Settled(waves[..i]))
  }

  /** The finished schedule: non-empty layers covering every node. */
  ghost predicate IsWaves(d: Deps, waves: seq<seq<string>>) {
    && Layered(d, waves)
    && (forall i | 0 <= i < |waves| :: waves[i] != [])
    && Settled(waves) == d.Keys
  }

  lemma {:induction false} SettledMember(waves: seq<seq<string>>, n: string)
    ensures n in Settled(waves) <==> exists i :: 0 <= i < |waves| && n in waves[i]
  {
    if waves != [] {
      var front := waves[..|waves| - 1];
      SettledMember(front, n);
      if n in Settled(front) {
        var i :| 0 <= i < |front| && n in front[i];
        assert n in waves[i];
      }
      if i :| 0 <= i < |waves| && n in waves[i] && i < |front| {
        assert n in front[i];
      }
    }
  }

  /** Being settled after `i` waves means sitting in one of the first `i`. */
  lemma SettledPrefix(waves: seq<seq<string>>, i: nat, n: string)
    requires i <= |waves|
    ensures n in Settled(waves[..i]) <==> exists j :: 0 <= j < i && n in waves[j]
  {
    SettledMember(waves[..i], n);
    if j :| 0 <= j < i && n in waves[j] {
      assert n in waves[..i][j];
    }
    if j :| 0 <= j < |waves[..i]| && n in waves[..i][j] {
      assert n in waves[j];
    }
  }

  /** Membership in a wave, unfolded: not placed before, all dependencies placed before. */
  lemma LayerMember(d: Deps, waves: seq<seq<string>>, i: nat, n: string)
    requires Layered(d, waves) && i < |waves|
    ensures n in waves[i] <==>
            n in d && n !in Settled(waves[..i]) && d[n] <= Settled(waves[..i])
  {
    assert n in waves[i] <==> n in Elems(waves[i]);
  }

  lemma NotInEarlierWave(d: Deps, waves: seq<seq<string>>, i: nat, j: nat, n: string)
    requires Layered(d, waves) && i < j < |waves| && n in waves[j]
    ensures n !in waves[i]
  {
    LayerMember(d, waves, j, n);
    SettledPrefix(waves, j, n);
  }

  /** The waves are disjoint. */
  lemma WavesDisjoint(d: Deps, waves: seq<seq<string>>, i: nat, j: nat, n: string)
    requires Layered(d, waves) && i < |waves| && j < |waves|
    requires n in waves[i] && n in waves[j]
    ensures i == j
  {
    if i < j {
      NotInEarlierWave(d, waves, i, j, n);
    } else if j < i {
      NotInEarlierWave(d, waves, j, i, n);
    }
  }

  /** A dependency always sits in a strictly earlier wave. */
  lemma DependencyEarlier(d: Deps, waves: seq<seq<string>>, i: nat, n: string, dep: string)
    returns (j: nat)
    requires Layered(d, waves) && i < |waves| && n in waves[i] && n in d && dep in d[n]
    ensures j < i && dep in waves[j]
  {
    LayerMember(d, waves, i, n);
    SettledPrefix(waves, i, dep);
    j :| 0 <= j < i && dep in waves[j];
  }

  lemma SettledStep(waves: seq<seq<string>>, i: nat)
    requires i < |waves|
    ensures Settled(waves[..i + 1]) == Settled(waves[..i]) + Elems(waves[i])
  {
    assert waves[..i + 1][..i] == waves[..i];
  }

  /** A node beyond the first wave has a dependency in the wave right before it. */
  lemma DependencyJustBefore(d: Deps, waves: seq<seq<string>>, i: nat, n: string)
    returns (dep: string)
    requires Layered(d, waves) && 0 < i < |waves| && n in waves[i]
    ensures n in d && dep in d[n] && dep in waves[i - 1]
  {
    LayerMember(d, waves, i, n);
    LayerMember(d, waves, i - 1, n);
    SettledStep(waves, i - 1);
    dep :| dep in d[n] && dep !in Settled(waves[..i - 1]);
  }

  // ---- Wave index = longest dependency chain ------------------------------

  lemma {:induction false} ChainFitsLevel(d: Deps, waves: seq<seq<string>>, i: nat, p: seq<string>)
    requires Layered(d, waves) && i < |waves|
    requires Chain(d, p) && p[0] in waves[i]
    ensures |p| <= i + 1
    decreases i
  {
    if |p| > 1 {
      var j := DependencyEarlier(d, waves, i, p[0], p[1]);
      ChainFitsLevel(d, waves, j, p[1..]);
    }
  }

  lemma {:induction false} ChainOfLevel(d: Deps, waves: seq<seq<string>>, i: nat, n: string)
    returns (p: seq<string>)
    requires Layered(d, waves) && i < |waves| && n in waves[i]
    ensures Chain(d, p) && p[0] == n && |p| == i + 1
    decreases i
  {
    LayerMember(d, waves, i, n);
    if i == 0 {
      p := [n];
    } else {
      var dep := DependencyJustBefore(d, waves, i, n);
      var q := ChainOfLevel(d, waves, i - 1, dep);
      p := [n] + q;
      assert forall k | 0 < k < |p| :: p[k] == q[k - 1];
    }
  }

  /** Wave index = number of edges on the longest dependency chain below the node. */
  ghost predicate LongestChainFrom(d: Deps, n: string, edges: nat) {
    && (forall p :: Chain(d, p) && p[0] == n ==> |p| <= edges + 1)
    && (exists p :: Chain(d, p) && p[0] == n && |p| == edges + 1)
  }

  lemma WaveIndexIsLongestChain(d: Deps, waves: seq<seq<string>>, i: nat, n: string)
    requires Layered(d, waves) && i < |waves| && n in waves[i]
    ensures LongestChainFrom(d, n, i)
  {
    forall p | Chain(d, p) && p[0] == n ensures |p| <= i + 1 {
      ChainFitsLevel(d, waves, i, p);
    }
    var p := ChainOfLevel(d, waves, i, n);
  }

  /** A relation that can be fully layered has no cycle. */
  lemma LayeredIsAcyclic(d: Deps, waves: seq<seq<string>>)
    requires Layered(d, waves) && Settled(waves) == d.Keys
    ensures Acyclic(d)
  {
    forall p ensures !Cycle(d, p) {
      if Cycle(d, p) {
        SettledMember(waves, p[0]);
        var i :| 0 <= i < |waves| && p[0] in waves[i];
        var j := DependencyEarlier(d, waves, i, p[0], p[1]);
        ChainDescends(d, waves, j, p[1..]);
        var k :| 0 <= k <= j && p[1..][|p| - 2] in waves[k];
        WavesDisjoint(d, waves, i, k, p[0]);
      }
    }
  }

  lemma {:induction false} ChainDescends(d: Deps, waves: seq<seq<string>>, i: nat, p: seq<string>)
    requires Layered(d, waves) && i < |waves|
    requires Chain(d, p) && p[0] in waves[i]
    ensures exists k :: 0 <= k <= i && p[|p| - 1] in waves[k]
    decreases |p|
  {
    if |p| > 1 {
      var j := DependencyEarlier(d, waves, i, p[0], p[1]);
      ChainDescends(d, waves, j, p[1..]);
      var k :| 0 <= k <= j && p[1..][|p[1..]| - 1] in waves[k];
      assert p[|p| - 1] in waves[k];
    }
  }

  // ---- No schedule is shorter ---------------------------------------------

  /** Any way of running nodes in batches so that dependencies run in earlier batches. */
  ghost predicate Schedule(d: Deps, batches: seq<set<string>>) {
    && (forall n | n in d :: exists k :: 0 <= k < |batches| && n in batches[k])
    && (forall n, k | n in d && 0 <= k < |batches| && n in batches[k] ::
          forall dep | dep in d[n] :: exists j :: 0 <= j < k && dep in batches[j])
  }

  /** A schedule can never run a node before its wave. */
  lemma {:induction false} NeverBeforeItsWave(
    d: Deps, waves: seq<seq<string>>, batches: seq<set<string>>, i: nat, k: nat, n: string)
    requires Layered(d, waves) && Schedule(d, batches)
    requires i < |waves| && n in waves[i] && k < |batches| && n in batches[k]
    ensures i <= k
    decreases i
  {
    if i > 0 {
      var dep := DependencyJustBefore(d, waves, i, n);
      var j :| 0 <= j < k && dep in batches[j];
      LayerMember(d, waves, i - 1, dep);
      NeverBeforeItsWave(d, waves, batches, i - 1, j, dep);
    }
  }

  lemma FewestWaves(d: Deps, waves: seq<seq<string>>, batches: seq<set<string>>)
    requires IsWaves(d, waves) && Schedule(d, batches)
    ensures |waves| <= |batches|
  {
    if waves != [] {
      var i := |waves| - 1;
      var n := waves[i][0];
      LayerMember(d, waves, i, n);
      var k :| 0 <= k < |batches| && n in batches[k];
      NeverBeforeItsWave(d, waves, batches, i, k, n);
    }
  }

  /** Layerings that agree on the waves before agree on the next. */
  lemma NextWaveAgrees(d: Deps, v: seq<seq<string>>, w: seq<seq<string>>, i: nat)
    requires Layered(d, v) && Layered(d, w) && i < |v| && i < |w| && v[..i] == w[..i]
    ensures v[i] == w[i]
  {
    assert Elems(v[i]) == Elems(w[i]);
    AscendingUnique(v[i], w[i]);
  }

  lemma {:induction false} WavesAgree(d: Deps, v: seq<seq<string>>, w: seq<seq<string>>, i: nat)
    requires Layered(d, v) && Layered(d, w) && i <= |v| && i <= |w|
    ensures v[..i] == w[..i]
  {
    if i > 0 {
      WavesAgree(d, v, w, i - 1);
      NextWaveAgrees(d, v, w, i - 1);
      assert v[..i] == v[..i - 1] + [v[i - 1]];
      assert w[..i] == w[..i - 1] + [w[i - 1]];
    }
  }

  lemma LayerLeavesSome(d: Deps, waves: seq<seq<string>>, i: nat)
    requires IsWaves(d, waves) && i < |waves|
    ensures Settled(waves[..i]) != d.Keys
  {
    LayerMember(d, waves, i, waves[i][0]);
  }

  lemma NotLonger(d: Deps, v: seq<seq<string>>, w: seq<seq<string>>)
    requires IsWaves(d, v) && IsWaves(d, w)
    ensures |v| <= |w|
  {
    assert w[..|w|] == w;
    if |w| < |v| {
      LayerLeavesSome(d, v, |w|);
      WavesAgree(d, v, w, |w|);
    }
  }

  /** The schedule is a function of the relation alone. */
  lemma WavesUnique(d: Deps, v: seq<seq<string>>, w: seq<seq<string>>)
    requires IsWaves(d, v) && IsWaves(d, w)
    ensures v == w
  {
    NotLonger(d, v, w);
    NotLonger(d, w, v);
    WavesAgree(d, v, w, |v|);
    assert v[..|v|] == v && w[..|w|] == w;
  }

  // ---- Residual of a stuck Kahn run ---------------------------------------

  /** Depth-first finishing order of the unsettled nodes: each one's unsettled
      dependencies finish before it. It exists exactly when those nodes have no cycle. */
  ghost predicate FinishOrder(d: Deps, settled: set<string>, order: seq<string>) {
    && (forall n :: n in d && n !in settled ==> n in order)
    && FinishesInOrder(d, settled, order)
  }

  ghost predicate FinishesInOrder(d: Deps, settled: set<string>, order: seq<string>) {
    forall i | 0 <= i < |order| :: order[i] in d && order[i] !in settled &&
                                   d[order[i]] <= settled + Elems(order[..i])
  }

  /** A finishing order leaves no cycle among the unsettled nodes. */
  lemma FinishOrderNoCycle(d: Deps, settled: set<string>, order: seq<string>, p: seq<string>)
    requires FinishOrder(d, settled, order) && Cycle(d, p)
    ensures exists j :: 0 <= j < |p| && p[j] in settled
  {
    if forall j | 0 <= j < |p| :: p[j] !in settled {
      assert p[0] in order;
      var i :| 0 <= i < |order| && order[i] == p[0];
      CycleNeverFinishes(d, settled, order, p, i, 0);
    }
  }

  /** Walking the cycle from `p[k]` would have to finish ever earlier. */
  lemma {:induction false} CycleNeverFinishes(
    d: Deps, settled: set<string>, order: seq<string>, p: seq<string>, i: nat, k: nat)
    requires FinishesInOrder(d, settled, order) && i < |order|
    requires Cycle(d, p) && forall j | 0 <= j < |p| :: p[j] !in settled
    requires k < |p| && p[k] == order[i]
    ensures false
    decreases i
  {
    var next := if k < |p| - 1 then k + 1 else 1;
    assert p[next] in d[order[i]];
    assert p[next] in order[..i];
    var j :| 0 <= j < i && order[j] == p[next];
    CycleNeverFinishes(d, settled, order, p, j, next);
  }

  /** Nodes that each still wait for one another cannot all finish: the first to finish
      would wait for nobody. */
  lemma ResidueHasNoFinishOrder(d: Deps, settled: set<string>, order: seq<string>)
    requires exists n :: n in d && n !in settled
    requires forall n | n in d && n !in settled :: !(d[n] <= settled)
    ensures !FinishOrder(d, settled, order)
  {
    if order != [] && order[0] in d && order[0] !in settled {
      assert settled + Elems(order[..0]) == settled;
    }
  }
}
