/** Content-addressed node keys and the transitive walk that computes them.

    A node's key hashes its own inputs together with the keys of its content
    dependencies. Hashing belongs to the node, so the walk is stated for an arbitrary
    key function; the fold the shipped node kinds use is modelled below it.
 */
module CacheKeys {
  import opened Names
  import opened Relation
  import opened BuildGraph

  /** A node's key from its name and its content dependencies' keys. */
  type KeyFunction = (string, map<string, string>) -> string

  type Keys = map<string, string>

  /** The keys a node is handed: one per content dependency. */
  function HandedDown(g: Graph, keys: Keys, n: string): Keys
    requires g.ContentDependencies(n) <= keys.Keys
  {
    map d | d in g.ContentDependencies(n) :: keys[d]
  }

  /** The recursive key equation, at the nodes keyed so far. */
  ghost predicate SolvesSoFar(g: Graph, f: KeyFunction, keys: Keys) {
    forall n | n in keys ::
      g.ContentDependencies(n) <= keys.Keys && keys[n] == f(n, HandedDown(g, keys, n))
  }

  /** The recursive key equation, at every node. */
  ghost predicate Solves(g: Graph, f: KeyFunction, keys: Keys) {
    keys.Keys == Elems(g.nodes) && SolvesSoFar(g, f, keys)
  }

  // ---- Topological order --------------------------------------------------

  lemma {:induction false} FlattenMembers(waves: seq<seq<string>>)
    ensures Elems(Flatten(waves)) == Settled(waves)
  {
    if waves != [] {
      FlattenMembers(waves[..|waves| - 1]);
    }
  }

  /** Every dependency of the k-th node of the order comes before position k, and the node
      itself does not. */
  lemma {:induction false} OrderRespectsDeps(d: Deps, waves: seq<seq<string>>, k: nat)
    requires Layered(d, waves) && k < |Flatten(waves)|
    ensures var order := Flatten(waves);
            order[k] in d && d[order[k]] <= Elems(order[..k]) && order[k] !in order[..k]
  {
    var last := |waves| - 1;
    var front := waves[..last];
    var head := Flatten(front);
    var order := Flatten(waves);
    assert Layered(d, front) by {
      forall i | 0 <= i < |front|
        ensures Ascending(front[i]) && Elems(front[i]) == Ready(d, Settled(front[..i]))
      {
        assert front[..i] == waves[..i];
      }
    }
    if k < |head| {
      OrderRespectsDeps(d, front, k);
      assert order[..k] == head[..k];
    } else {
      FlattenMembers(front);
      assert order[k] in Elems(waves[last]);
      assert head <= order[..k];
      assert Elems(head) <= Elems(order[..k]);
      assert order[..k] == head + waves[last][..k - |head|];
    }
  }

  lemma ContentIsDependency(g: Graph, n: string)
    requires g.Valid() && n in g.nodes
    ensures n in g.deps && g.ContentDependencies(n) <= g.deps[n] <= Elems(g.nodes)
  {
    assert n in Elems(g.nodes);
  }

  // ---- compute_cache_keys -------------------------------------------------

  /** Each node's content dependencies come before it, and no node comes twice. */
  ghost predicate KeyOrder(g: Graph, order: seq<string>) {
    forall k | 0 <= k < |order| ::
      g.ContentDependencies(order[k]) <= Elems(order[..k]) && order[k] !in order[..k]
  }

  method WalkKeys(g: Graph, f: KeyFunction, order: seq<string>) returns (keys: Keys)
    requires KeyOrder(g, order)
    ensures keys.Keys == Elems(order) && SolvesSoFar(g, f, keys)
  {
    keys := map[];
    for k := 0 to |order|
      invariant keys.Keys == Elems(order[..k])
      invariant SolvesSoFar(g, f, keys)
    {
      var n := order[k];
      assert g.ContentDependencies(n) <= keys.Keys && n !in keys;
      NewKeyKeepsOld(g, f, keys, n);
      keys := keys[n := f(n, HandedDown(g, keys, n))];
      assert order[..k + 1] == order[..k] + [n];
    }
    assert order[..|order|] == order;
  }

  /** Serial walk in topological order. It never reads a key that is not there yet, and
      the result solves the key equation at every node. */
  method ComputeCacheKeys(g: Graph, f: KeyFunction) returns (keys: Keys)
    requires g.Valid()
    ensures Solves(g, f, keys)
  {
    TopologicalOrderIsKeyOrder(g);
    keys := WalkKeys(g, f, g.TopologicalOrder());
  }

  lemma TopologicalOrderIsKeyOrder(g: Graph)
    requires g.Valid()
    ensures KeyOrder(g, g.TopologicalOrder()) && Elems(g.TopologicalOrder()) == Elems(g.nodes)
  {
    FlattenMembers(g.waves);
    forall k | 0 <= k < |g.TopologicalOrder()| {
      NextIsComputable(g, k);
    }
  }

  lemma NextIsComputable(g: Graph, k: nat)
    requires g.Valid() && k < |g.TopologicalOrder()|
    ensures var order := g.TopologicalOrder();
            g.ContentDependencies(order[k]) <= Elems(order[..k]) && order[k] !in order[..k]
  {
    FlattenMembers(g.waves);
    assert g.TopologicalOrder()[k] in Elems(g.TopologicalOrder());
    OrderRespectsDeps(g.deps, g.waves, k);
    ContentIsDependency(g, g.TopologicalOrder()[k]);
  }

  /** A key, once computed, is final: later keys are not among its inputs. */
  lemma NewKeyKeepsOld(g: Graph, f: KeyFunction, keys: Keys, n: string)
    requires SolvesSoFar(g, f, keys) && n !in keys && g.ContentDependencies(n) <= keys.Keys
    ensures SolvesSoFar(g, f, keys[n := f(n, HandedDown(g, keys, n))])
  {
    var keys' := keys[n := f(n, HandedDown(g, keys, n))];
    forall m | m in keys'
      ensures g.ContentDependencies(m) <= keys'.Keys && keys'[m] == f(m, HandedDown(g, keys', m))
    {
      assert HandedDown(g, keys', m) == HandedDown(g, keys, m);
    }
  }

  // ---- One solution -------------------------------------------------------

  /** Solutions that agree on a node's content dependencies agree on the node. */
  lemma SolutionsAgreeAt(g: Graph, f: KeyFunction, a: Keys, b: Keys, n: string)
    requires SolvesSoFar(g, f, a) && SolvesSoFar(g, f, b) && n in a && n in b
    requires forall d | d in g.ContentDependencies(n) && d in a && d in b :: a[d] == b[d]
    ensures a[n] == b[n]
  {
    assert HandedDown(g, a, n) == HandedDown(g, b, n);
  }

  /** Two solutions agree along any key order. */
  lemma {:induction false} SolutionsAgree(
    g: Graph, f: KeyFunction, a: Keys, b: Keys, order: seq<string>, k: nat)
    requires SolvesSoFar(g, f, a) && SolvesSoFar(g, f, b)
    requires KeyOrder(g, order) && a.Keys == b.Keys == Elems(order) && k <= |order|
    ensures forall n | n in order[..k] :: n in a && a[n] == b[n]
  {
    if k > 0 {
      SolutionsAgree(g, f, a, b, order, k - 1);
      var n := order[k - 1];
      assert n in Elems(order);
      DependenciesCome(g, order, k - 1);
      SolutionsAgreeAt(g, f, a, b, n);
      assert order[..k] == order[..k - 1] + [n];
    }
  }

  lemma DependenciesCome(g: Graph, order: seq<string>, k: nat)
    requires KeyOrder(g, order) && k < |order|
    ensures forall d | d in g.ContentDependencies(order[k]) :: d in order[..k]
  {
  }

  /** The key equation has exactly one solution on a frozen graph, whatever dependency
      order the keys are computed in. */
  lemma KeysUnique(g: Graph, f: KeyFunction, a: Keys, b: Keys)
    requires g.Valid() && Solves(g, f, a) && Solves(g, f, b)
    ensures a == b
  {
    TopologicalOrderIsKeyOrder(g);
    KeysUniqueAlong(g, f, a, b, g.TopologicalOrder());
  }

  lemma KeysUniqueAlong(g: Graph, f: KeyFunction, a: Keys, b: Keys, order: seq<string>)
    requires SolvesSoFar(g, f, a) && SolvesSoFar(g, f, b)
    requires KeyOrder(g, order) && a.Keys == b.Keys == Elems(order)
    ensures a == b
  {
    SolutionsAgree(g, f, a, b, order, |order|);
    assert order[..|order|] == order;
    forall n | n in a ensures a[n] == b[n] {
      assert n in Elems(order);
    }
  }

  // ---- Placement is not invalidation --------------------------------------

  /** `h` has the nodes of `g` and the same cacheable dependencies; ordering edges are free
      to differ, in number, position and endpoints. */
  ghost predicate SameContent(g: Graph, h: Graph) {
    && Elems(g.nodes) == Elems(h.nodes)
    && (forall e: Edge | e.AffectsCacheKey() :: e in g.edges <==> e in h.edges)
  }

  /** Ordering edges change no key and no content wave. In particular an ordering edge laid
      beside a cacheable one does not weaken it. */
  lemma OrderingEdgesDoNotInvalidate(g: Graph, h: Graph, f: KeyFunction, a: Keys, b: Keys)
    requires g.Valid() && h.Valid() && SameContent(g, h)
    requires Solves(g, f, a) && Solves(h, f, b)
    ensures a == b
    ensures g.contentWaves == h.contentWaves
  {
    SolvesBoth(g, h, f, b);
    KeysUnique(g, f, a, b);
    SameContentDeps(g, h);
    WavesUnique(ContentDepsOf(Elems(g.nodes), g.edges), g.contentWaves, h.contentWaves);
  }

  lemma SolvesBoth(g: Graph, h: Graph, f: KeyFunction, keys: Keys)
    requires SameContent(g, h) && Solves(h, f, keys)
    ensures Solves(g, f, keys)
  {
    forall n | n in keys
      ensures g.ContentDependencies(n) <= keys.Keys && keys[n] == f(n, HandedDown(g, keys, n))
    {
      SameTargets(g, h, n);
      SameTargets(h, g, n);
      assert HandedDown(g, keys, n) == HandedDown(h, keys, n);
    }
  }

  lemma SameContentDeps(g: Graph, h: Graph)
    requires SameContent(g, h)
    ensures ContentDepsOf(Elems(g.nodes), g.edges) == ContentDepsOf(Elems(h.nodes), h.edges)
  {
    forall n | n in Elems(g.nodes) ensures ContentTargets(g.edges, n) == ContentTargets(h.edges, n) {
      SameTargets(g, h, n);
      SameTargets(h, g, n);
    }
  }

  lemma SameTargets(g: Graph, h: Graph, n: string)
    requires SameContent(g, h)
    ensures ContentTargets(g.edges, n) <= ContentTargets(h.edges, n)
  {
    forall d | d in ContentTargets(g.edges, n) ensures d in ContentTargets(h.edges, n) {
      var e :| e in g.edges && e.dependent == n && e.AffectsCacheKey() && e.dependency == d;
      assert e in h.edges;
    }
  }

  // ---- The shipped fold ---------------------------------------------------

  const KEY_LENGTH := 16

  /** What is hashed after the node's own key: `NUL name = key` per dependency, by name. */
  function FoldTail(names: seq<string>, keys: Keys): string
    requires forall n | n in names :: n in keys
  {
    if names == [] then ""
    else "\0" + names[0] + "=" + keys[names[0]] + FoldTail(names[1..], keys)
  }

  function FoldInput(own: string, keys: Keys): string {
    var names := Sorted(keys.Keys);
    assert forall n | n in names :: n in Elems(names);
    own + FoldTail(names, keys)
  }

  /** `_fold_dependency_keys`: without content dependencies the key is the own-inputs key. */
  function Fold(digest: string -> string, own: string, keys: Keys): string {
    if keys == map[] then own else digest(FoldInput(own, keys))
  }

  function NodeKey(digest: string -> string, own: string -> string): KeyFunction {
    (n: string, keys: Keys) => Fold(digest, own(n), keys)
  }

  /** A graph with only ordering edges: every key is the node's own-inputs key, and
      everything builds in a single wave. */
  lemma OrderingOnlyGraph(g: Graph, digest: string -> string, own: string -> string, keys: Keys)
    requires g.Valid() && Solves(g, NodeKey(digest, own), keys)
    requires forall e | e in g.edges :: !e.AffectsCacheKey()
    ensures forall n | n in keys :: keys[n] == own(n)
    ensures g.nodes != [] ==> g.contentWaves == [Sorted(Elems(g.nodes))]
  {
    OwnKeysOnly(g, digest, own, keys);
    if g.nodes != [] {
      assert g.nodes[0] in Elems(g.nodes);
      OneWave(Elems(g.nodes), g.edges);
      WavesUnique(ContentDepsOf(Elems(g.nodes), g.edges), g.contentWaves, [Sorted(Elems(g.nodes))]);
    }
  }

  lemma OwnKeysOnly(g: Graph, digest: string -> string, own: string -> string, keys: Keys)
    requires Solves(g, NodeKey(digest, own), keys)
    requires forall e | e in g.edges :: !e.AffectsCacheKey()
    ensures forall n | n in keys :: keys[n] == own(n)
  {
    forall n | n in keys ensures keys[n] == own(n) {
      assert HandedDown(g, keys, n) == map[];
    }
  }

  lemma OneWave(nodes: set<string>, edges: seq<Edge>)
    requires nodes != {} && forall e | e in edges :: !e.AffectsCacheKey()
    ensures IsWaves(ContentDepsOf(nodes, edges), [Sorted(nodes)])
  {
    var d, w := ContentDepsOf(nodes, edges), [Sorted(nodes)];
    var n :| n in nodes;
    assert n in Elems(w[0]);
    assert w[..0] == [] && Ready(d, {}) == nodes;
    assert Settled(w) == Settled([]) + Elems(w[0]);
  }

  // ---- A changed dependency invalidates its dependents ---------------------

  ghost predicate FixedLength(keys: Keys) {
    forall n | n in keys :: |keys[n]| == KEY_LENGTH
  }

  /** Fixed-length keys make the folded text readable back, dependency by dependency. */
  lemma {:induction false} FoldTailInjective(names: seq<string>, a: Keys, b: Keys)
    requires forall n | n in names :: n in a && n in b
    requires FixedLength(a) && FixedLength(b)
    requires FoldTail(names, a) == FoldTail(names, b)
    ensures forall n | n in names :: a[n] == b[n]
  {
    if names != [] {
      var head := "\0" + names[0] + "=";
      var ka, kb := a[names[0]], b[names[0]];
      var ta, tb := FoldTail(names[1..], a), FoldTail(names[1..], b);
      assert FoldTail(names, a) == head + (ka + ta) && FoldTail(names, b) == head + (kb + tb);
      SplitEqual(head, ka + ta, head, kb + tb);
      SplitEqual(ka, ta, kb, tb);
      FoldTailInjective(names[1..], a, b);
      assert names == [names[0]] + names[1..];
    }
  }

  lemma SplitEqual(x: string, y: string, u: string, v: string)
    requires x + y == u + v && |x| == |u|
    ensures x == u && y == v
  {
    assert x == (x + y)[..|x|] && u == (u + v)[..|u|];
    assert y == (x + y)[|x|..] && v == (u + v)[|u|..];
  }

  /** With the dependency names known, the hashed text determines every key. */
  lemma FoldKeysInjective(own: string, own': string, a: Keys, b: Keys)
    requires a.Keys == b.Keys && FixedLength(a) && FixedLength(b) && |own| == |own'|
    requires FoldInput(own, a) == FoldInput(own', b)
    ensures own == own' && a == b
  {
    var names := Sorted(a.Keys);
    forall n | n in names ensures n in a && n in b {
      assert n in Elems(names);
    }
    SplitEqual(own, FoldTail(names, a), own', FoldTail(names, b));
    FoldTailInjective(names, a, b);
    forall n | n in a ensures a[n] == b[n] {
      assert n in Elems(names);
    }
  }

  predicate NulFree(s: string) {
    forall i | 0 <= i < |s| :: s[i] != '\0'
  }

  /** Empty, or led by the separator. */
  predicate Separated(s: string) {
    s == [] || s[0] == '\0'
  }

  lemma SplitAtNul(x: string, r: string, y: string, s: string)
    requires NulFree(x) && NulFree(y) && Separated(r) && Separated(s) && x + r == y + s
    ensures x == y && r == s
  {
    var t := x + r;
    assert forall i | 0 <= i < |x| :: t[i] == x[i];
    assert forall i | 0 <= i < |y| :: (y + s)[i] == y[i];
    assert |x| < |t| ==> t[|x|] == '\0';
    assert |y| < |t| ==> (y + s)[|y|] == '\0';
    assert |x| == |y|;
    SplitEqual(x, r, y, s);
  }

  ghost predicate Readable(keys: Keys) {
    FixedLength(keys) && forall n | n in keys :: NulFree(n) && NulFree(keys[n])
  }

  /** One dependency of the hashed text, between separators. */
  function Entry(n: string, key: string): string {
    n + "=" + key
  }

  lemma EntryReads(n: string, ka: string, m: string, kb: string)
    requires |ka| == |kb| && Entry(n, ka) == Entry(m, kb)
    ensures n == m && ka == kb
  {
    SplitEqual(n + "=", ka, m + "=", kb);
    SplitEqual(n, "=", m, "=");
  }

  lemma {:induction false} FoldTailReads(na: seq<string>, a: Keys, nb: seq<string>, b: Keys)
    requires Readable(a) && Readable(b)
    requires (forall n | n in na :: n in a) && (forall n | n in nb :: n in b)
    requires FoldTail(na, a) == FoldTail(nb, b)
    ensures na == nb && forall n | n in na :: a[n] == b[n]
    decreases |na|
  {
    if na != [] && nb != [] {
      var ra, rb := FoldTail(na[1..], a), FoldTail(nb[1..], b);
      var ea, eb := Entry(na[0], a[na[0]]), Entry(nb[0], b[nb[0]]);
      assert FoldTail(na, a) == "\0" + (ea + ra) && FoldTail(nb, b) == "\0" + (eb + rb);
      SplitEqual("\0", ea + ra, "\0", eb + rb);
      assert NulFree(ea) && NulFree(eb);
      SplitAtNul(ea, ra, eb, rb);
      EntryReads(na[0], a[na[0]], nb[0], b[nb[0]]);
      FoldTailReads(na[1..], a, nb[1..], b);
      assert na == [na[0]] + na[1..] && nb == [nb[0]] + nb[1..];
    }
  }

  /** What is hashed determines the own key, every dependency name and every dependency key,
      when names and keys hold no NUL. */
  lemma FoldInputInjective(own: string, own': string, a: Keys, b: Keys)
    requires Readable(a) && Readable(b) && |own| == |own'|
    requires FoldInput(own, a) == FoldInput(own', b)
    ensures own == own' && a == b
  {
    var na, nb := Sorted(a.Keys), Sorted(b.Keys);
    forall n | n in na ensures n in a {
      assert n in Elems(na);
    }
    forall n | n in nb ensures n in b {
      assert n in Elems(nb);
    }
    SplitEqual(own, FoldTail(na, a), own', FoldTail(nb, b));
    FoldTailReads(na, a, nb, b);
    assert a.Keys == Elems(na) == Elems(nb) == b.Keys;
    forall n | n in a ensures a[n] == b[n] {
      assert n in Elems(na);
    }
  }

  /** Two keyings of one graph, before and after some nodes' own inputs changed, for which
      the digest happens not to collide. */
  ghost predicate Rekeyed(
    g: Graph, digest: string -> string, own: string -> string, own': string -> string, a: Keys, b: Keys)
  {
    && Solves(g, NodeKey(digest, own), a) && Solves(g, NodeKey(digest, own'), b)
    && FixedLength(a) && FixedLength(b)
    && (forall n | n in a ::
          && |own(n)| == |own'(n)|
          && (var x := FoldInput(own(n), HandedDown(g, a, n));
              var y := FoldInput(own'(n), HandedDown(g, b, n));
              digest(x) == digest(y) ==> x == y))
  }

  /** Equal keys at one node mean equal own inputs and equal keys one content edge down. */
  lemma KeyDeterminesInputs(
    g: Graph, digest: string -> string, own: string -> string, own': string -> string, a: Keys, b: Keys, n: string)
    requires Rekeyed(g, digest, own, own', a, b) && n in a && a[n] == b[n]
    ensures own(n) == own'(n) && forall d | d in g.ContentDependencies(n) :: d in a && a[d] == b[d]
  {
    var x, y := HandedDown(g, a, n), HandedDown(g, b, n);
    assert x.Keys == y.Keys == g.ContentDependencies(n);
    if x == map[] {
      assert g.ContentDependencies(n) == {};
      assert y == map[];
    } else {
      FoldKeysInjective(own(n), own'(n), x, y);
      forall d | d in g.ContentDependencies(n) ensures a[d] == b[d] {
        assert x[d] == y[d];
      }
    }
  }

  /** If a node's own inputs change, the key of everything that transitively bakes it in
      changes too, however long the content chain from it. */
  lemma {:induction false} ChangePropagates(
    g: Graph, digest: string -> string, own: string -> string, own': string -> string,
    a: Keys, b: Keys, chain: seq<string>)
    requires Rekeyed(g, digest, own, own', a, b)
    requires Chain(ContentDepsOf(Elems(g.nodes), g.edges), chain)
    requires var changed := chain[|chain| - 1]; own(changed) != own'(changed)
    ensures chain[0] in a && chain[0] in b && a[chain[0]] != b[chain[0]]
    decreases |chain|
  {
    ChainKeyed(g, digest, own, own', a, b, chain);
    if |chain| > 1 {
      ChangePropagates(g, digest, own, own', a, b, chain[1..]);
      assert chain[1] in g.ContentDependencies(chain[0]);
    }
    KeyDiffers(g, digest, own, own', a, b, chain[0], if |chain| > 1 then chain[1] else chain[0]);
  }

  lemma ChainKeyed(
    g: Graph, digest: string -> string, own: string -> string, own': string -> string,
    a: Keys, b: Keys, chain: seq<string>)
    requires Rekeyed(g, digest, own, own', a, b)
    requires Chain(ContentDepsOf(Elems(g.nodes), g.edges), chain)
    ensures forall i | 0 <= i < |chain| :: chain[i] in a && chain[i] in b
  {
  }

  /** A changed own key, or a changed key one content edge down, changes the key. */
  lemma KeyDiffers(
    g: Graph, digest: string -> string, own: string -> string, own': string -> string,
    a: Keys, b: Keys, n: string, d: string)
    requires Rekeyed(g, digest, own, own', a, b) && n in a && n in b && d in a && d in b
    requires own(n) != own'(n) || (d in g.ContentDependencies(n) && a[d] != b[d])
    ensures a[n] != b[n]
  {
    if a[n] == b[n] {
      KeyDeterminesInputs(g, digest, own, own', a, b, n);
    }
  }
}
