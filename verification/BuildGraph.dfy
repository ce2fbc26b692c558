/** The frozen build graph: validation, topological waves, cycle reporting.

    Construction rejects duplicate names, self and dangling edges, and cycles; it then
    precomputes the waves the executor runs and the content waves the build runs.
 */
module BuildGraph {
  import opened Wrappers
  import opened Names
  import opened Relation

  datatype Cacheability = Ordering | Bake | Replay

  /** `dependent` needs `dependency`; only non-ordering edges fold into cache keys. */
  datatype Edge = Edge(dependent: string, dependency: string, cacheability: Cacheability) {
    predicate AffectsCacheKey() {
      !cacheability.Ordering?
    }
  }

  datatype GraphError =
    | EmptyName
    | DuplicateNode(node: string)
    | SelfDependency(node: string)
    | DanglingDependency(edge: Edge, endpoint: string)
    | DependencyCycle(path: seq<string>)

  datatype Graph = Graph(
    name: string,
    nodes: seq<string>,
    edges: seq<Edge>,
    deps: Deps,
    dependents: Deps,
    waves: seq<seq<string>>,
    contentWaves: seq<seq<string>>)
  {
    /** What construction promises: indices match the edges, both schedules are the levels. */
    ghost predicate Valid() {
      && Distinct(nodes)
      && deps == DepsOf(Elems(nodes), edges)
      && Converse(deps, dependents)
      && Closed(deps)
      && Acyclic(deps)
      && IsWaves(deps, waves)
      && IsWaves(ContentDepsOf(Elems(nodes), edges), contentWaves)
    }

    /** Waves flattened. */
    function TopologicalOrder(): seq<string> {
      Flatten(waves)
    }

    /** Dependencies whose keys fold into the node's key: some connecting edge is cacheable. */
    function ContentDependencies(n: string): set<string> {
      ContentTargets(edges, n)
    }
  }

  // ---- The relations behind the edges -------------------------------------

  function Targets(edges: seq<Edge>, n: string): set<string> {
    set e | e in edges && e.dependent == n :: e.dependency
  }

  function ContentTargets(edges: seq<Edge>, n: string): set<string> {
    set e | e in edges && e.dependent == n && e.AffectsCacheKey() :: e.dependency
  }

  function DepsOf(nodes: set<string>, edges: seq<Edge>): Deps {
    map n | n in nodes :: Targets(edges, n)
  }

  function ContentDepsOf(nodes: set<string>, edges: seq<Edge>): Deps {
    map n | n in nodes :: ContentTargets(edges, n)
  }

  /** `inv` is `d` turned around. */
  ghost predicate Converse(d: Deps, inv: Deps) {
    && d.Keys == inv.Keys
    && Closed(inv)
    && (forall n, f | n in d && f in d :: n in inv[f] <==> f in d[n])
  }

  ghost predicate Distinct(s: seq<string>) {
    forall i, j | 0 <= i < j < |s| :: s[i] != s[j]
  }

  function Flatten(waves: seq<seq<string>>): seq<string> {
    if waves == [] then [] else Flatten(waves[..|waves| - 1]) + waves[|waves| - 1]
  }

  lemma {:induction false} DistinctSize(s: seq<string>)
    requires Distinct(s)
    ensures |Elems(s)| == |s|
  {
    if s != [] {
      var last := |s| - 1;
      DistinctSize(s[..last]);
      assert Elems(s) == Elems(s[..last]) + {s[last]};
    }
  }

  lemma {:induction false} SubsetSize(a: set<string>, b: set<string>)
    requires a <= b
    ensures |a| <= |b| && (|a| == |b| ==> a == b)
  {
    assert b == a + (b - a);
  }

  // ---- _find_cycle --------------------------------------------------------

  /** One explicit-stack frame: a node and the dependencies its iterator still holds. */
  datatype Frame = Frame(node: string, rest: seq<string>)

  function Nodes(frames: seq<Frame>): (p: seq<string>)
    ensures |p| == |frames|
    ensures forall i | 0 <= i < |p| :: p[i] == frames[i].node
  {
    seq(|frames|, i requires 0 <= i < |frames| => frames[i].node)
  }

  /** The live stack is a simple chain of grey nodes; every dependency an iterator has
      passed is settled, black, or the frame right above. */
  ghost predicate Walking(d: Deps, settled: set<string>, black: set<string>, frames: seq<Frame>) {
    && (forall i | 0 <= i < |frames| :: frames[i].node in d && frames[i].node !in settled + black)
    && (forall i | 0 <= i < |frames| - 1 :: frames[i + 1].node in d[frames[i].node])
    && (forall i, j | 0 <= i < j < |frames| :: frames[i].node != frames[j].node)
    && (forall i | 0 <= i < |frames| :: Elems(frames[i].rest) <= d[frames[i].node])
    && (forall i, dep | 0 <= i < |frames| && dep in d[frames[i].node] ::
          || dep in frames[i].rest
          || dep in settled + black
          || (i + 1 < |frames| && dep == frames[i + 1].node))
  }

  method SkipClosed(rest: seq<string>, closed: set<string>) returns (i: nat)
    ensures i <= |rest|
    ensures forall j | 0 <= j < i :: rest[j] in closed
    ensures i < |rest| ==> rest[i] !in closed
  {
    i := 0;
    while i < |rest| && rest[i] in closed
      invariant i <= |rest|
      invariant forall j | 0 <= j < i :: rest[j] in closed
    {
      i := i + 1;
    }
  }

  method IndexOf(path: seq<string>, n: string) returns (i: nat)
    requires n in path
    ensures i < |path| && path[i] == n && n !in path[..i]
  {
    i := 0;
    while path[i] != n
      invariant i < |path| && n !in path[..i] && n in path[i..]
      decreases |path| - i
    {
      i := i + 1;
    }
  }

  /** Everything before the open dependency is closed; what is not is still ahead. */
  lemma PassedOver(rest: seq<string>, i: nat, closed: set<string>, x: string)
    requires i < |rest| && forall j | 0 <= j < i :: rest[j] in closed
    ensures x in rest ==> x in closed || x == rest[i] || x in rest[i + 1..]
  {
    if x in rest {
      var j :| 0 <= j < |rest| && rest[j] == x;
      if j > i {
        assert x == rest[i + 1..][j - i - 1];
      }
    }
  }

  /** Descending pushes the open dependency. */
  lemma DescendKeeps(d: Deps, settled: set<string>, black: set<string>, frames: seq<Frame>, i: nat)
    requires Closed(d) && Walking(d, settled, black, frames) && frames != []
    requires i < |frames[|frames| - 1].rest|
    requires var top := frames[|frames| - 1];
             && top.rest[i] !in settled + black
             && (forall j | 0 <= j < i :: top.rest[j] in settled + black)
             && top.rest[i] !in Nodes(frames)
    ensures var t := |frames| - 1;
            var dep := frames[t].rest[i];
            && dep in d
            && Walking(d, settled, black,
                       frames[t := Frame(frames[t].node, frames[t].rest[i + 1..])] + [Frame(dep, Sorted(d[dep]))])
  {
    var t := |frames| - 1;
    var top := frames[t];
    var dep := top.rest[i];
    assert dep in Elems(top.rest);
    var next := frames[t := Frame(top.node, top.rest[i + 1..])] + [Frame(dep, Sorted(d[dep]))];
    forall k, x | 0 <= k < |next| && x in d[next[k].node]
      ensures x in next[k].rest || x in settled + black || (k + 1 < |next| && x == next[k + 1].node)
    {
      if k == t {
        PassedOver(top.rest, i, settled + black, x);
      } else if k == t + 1 {
        assert x in Elems(next[k].rest);
      } else {
        assert next[k] == frames[k];
      }
    }
    forall k, l | 0 <= k < l < |next| ensures next[k].node != next[l].node {
      if l == t + 1 {
        assert Nodes(frames)[k] == next[k].node;
      }
    }
    forall k | 0 <= k < |next| ensures Elems(next[k].rest) <= d[next[k].node] {
      if k == t {
        assert Elems(next[k].rest) <= Elems(top.rest);
      }
    }
  }

  /** Retreating blackens a node all of whose dependencies are closed. */
  lemma RetreatKeeps(d: Deps, settled: set<string>, black: set<string>, frames: seq<Frame>, order: seq<string>)
    requires Closed(d) && Walking(d, settled, black, frames) && frames != []
    requires forall x | x in frames[|frames| - 1].rest :: x in settled + black
    requires Elems(order) == black && FinishesInOrder(d, settled, order)
    ensures var node := frames[|frames| - 1].node;
            && Walking(d, settled, black + {node}, frames[..|frames| - 1])
            && Elems(order + [node]) == black + {node}
            && FinishesInOrder(d, settled, order + [node])
  {
    var t := |frames| - 1;
    var node := frames[t].node;
    assert d[node] <= settled + black;
    var order' := order + [node];
    forall i | 0 <= i < |order'|
      ensures order'[i] in d && order'[i] !in settled && d[order'[i]] <= settled + Elems(order'[..i])
    {
      if i < |order| {
        assert order'[..i] == order[..i];
      } else {
        assert order'[..i] == order;
      }
    }
  }

  /** The back edge closes a simple cycle. */
  lemma BackEdgeCloses(d: Deps, settled: set<string>, black: set<string>, frames: seq<Frame>, k: nat, dep: string)
    requires Walking(d, settled, black, frames) && frames != [] && k < |frames|
    requires dep in frames[|frames| - 1].rest && frames[k].node == dep
    ensures var c := Nodes(frames)[k..] + [dep];
            SimpleCycle(d, c) && forall n | n in c :: n !in settled
  {
    var c := Nodes(frames)[k..] + [dep];
    var t := |frames| - 1;
    assert dep in Elems(frames[t].rest);
    forall i | 0 <= i < |c| - 1 ensures c[i + 1] in d[c[i]] && c[i] == frames[k + i].node {
      if i + 1 < |c| - 1 {
        assert c[i + 1] == frames[k + i + 1].node;
      }
    }
  }

  lemma PathPushed(frames: seq<Frame>, rest: seq<string>, dep: string, more: seq<string>)
    requires frames != []
    ensures var t := |frames| - 1;
            Nodes(frames[t := Frame(frames[t].node, rest)] + [Frame(dep, more)]) == Nodes(frames) + [dep]
    ensures Elems(Nodes(frames) + [dep]) == Elems(Nodes(frames)) + {dep}
  {
  }

  lemma PathPopped(d: Deps, settled: set<string>, black: set<string>, frames: seq<Frame>)
    requires Walking(d, settled, black, frames) && frames != []
    ensures var t, path := |frames| - 1, Nodes(frames);
            && Nodes(frames[..t]) == path[..t] && path[t] == frames[t].node
            && Elems(path[..t]) == Elems(path) - {path[t]} && path[t] in d && path[t] !in black
  {
    var t, path := |frames| - 1, Nodes(frames);
    assert path == path[..t] + [path[t]];
  }

  /** One turn of the search loop: close a cycle, descend, or retreat. */
  method SearchStep(d: Deps, settled: set<string>, black: set<string>, frames: seq<Frame>,
                    path: seq<string>, onPath: set<string>, ghost order: seq<string>)
    returns (found: Option<seq<string>>, frames': seq<Frame>, path': seq<string>, onPath': set<string>,
             black': set<string>, ghost order': seq<string>)
    requires Closed(d) && Walking(d, settled, black, frames) && frames != []
    requires path == Nodes(frames) && onPath == Elems(path)
    requires Elems(order) == black && FinishesInOrder(d, settled, order)
    ensures found.Some? ==> SimpleCycle(d, found.value) && forall n | n in found.value :: n !in settled
    ensures Walking(d, settled, black', frames')
    ensures path' == Nodes(frames') && onPath' == Elems(path')
    ensures Elems(order') == black' && FinishesInOrder(d, settled, order')
    ensures found.None? ==>
              || (black' == black && |frames'| == |frames| + 1 && frames'[0].node == frames[0].node &&
                  exists dep :: dep in d && dep !in onPath && onPath' == onPath + {dep})
              || (path[|path| - 1] in d && path[|path| - 1] !in black && black' == black + {path[|path| - 1]} &&
                  path' == path[..|path| - 1])
  {
    var t := |frames| - 1;
    var node, rest := frames[t].node, frames[t].rest;
    found, frames', path', onPath', black', order' := None, frames, path, onPath, black, order;
    var i := SkipClosed(rest, settled + black);
    if i < |rest| {
      var dep := rest[i];
      if dep in onPath {
        var at := IndexOf(path, dep);
        BackEdgeCloses(d, settled, black, frames, at, dep);
        found := Some(path[at..] + [dep]);
      } else {
        DescendKeeps(d, settled, black, frames, i);
        PathPushed(frames, rest[i + 1..], dep, Sorted(d[dep]));
        frames' := frames[t := Frame(node, rest[i + 1..])] + [Frame(dep, Sorted(d[dep]))];
        path' := path + [dep];
        onPath' := onPath + {dep};
      }
    } else {
      RetreatKeeps(d, settled, black, frames, order);
      PathPopped(d, settled, black, frames);
      frames' := frames[..t];
      path' := path[..t];
      onPath' := onPath - {node};
      black' := black + {node};
      order' := order + [node];
    }
  }

  /** Search from one root until a cycle shows up or the root is black. */
  method SearchFrom(root: string, d: Deps, settled: set<string>, black: set<string>, ghost order: seq<string>)
    returns (found: Option<seq<string>>, black': set<string>, ghost order': seq<string>)
    requires Closed(d) && root in d && root !in settled + black
    requires Elems(order) == black && FinishesInOrder(d, settled, order)
    ensures found.Some? ==> SimpleCycle(d, found.value) && forall n | n in found.value :: n !in settled
    ensures found.None? ==> root in black' && black <= black'
    ensures Elems(order') == black' && FinishesInOrder(d, settled, order')
  {
    black', order', found := black, order, None;
    var frames := [Frame(root, Sorted(d[root]))];
    var path := [root];
    var onPath := {root};
    while frames != []
      invariant Walking(d, settled, black', frames)
      invariant path == Nodes(frames) && onPath == Elems(path)
      invariant Elems(order') == black' && FinishesInOrder(d, settled, order')
      invariant black <= black' && found.None?
      invariant if frames == [] then root in black' else path[0] == root
      decreases d.Keys - black', d.Keys - onPath
    {
      found, frames, path, onPath, black', order' :=
        SearchStep(d, settled, black', frames, path, onPath, order');
      if found.Some? {
        return;
      }
    }
  }

  /** Depth-first search for a cycle among the unsettled nodes, on an explicit stack.
      It answers with a simple cycle of unsettled nodes, or not at all exactly when those
      nodes can be put in a finishing order; so it always terminates and it never
      overlooks a cycle. */
  method FindCycle(names: seq<string>, d: Deps, settled: set<string>) returns (r: Option<seq<string>>)
    requires Closed(d) && Elems(names) == d.Keys
    ensures r.Some? ==> SimpleCycle(d, r.value) && forall n | n in r.value :: n !in settled
    ensures r.None? ==> exists order :: FinishOrder(d, settled, order)
    ensures r.Some? <==> exists p :: Cycle(d, p) && forall j | 0 <= j < |p| :: p[j] !in settled
  {
    var black: set<string> := {};
    ghost var order: seq<string> := [];
    for k := 0 to |names|
      invariant Elems(order) == black && FinishesInOrder(d, settled, order)
      invariant forall j | 0 <= j < k :: names[j] in settled + black
    {
      var root := names[k];
      if root in settled || root in black {
        continue;
      }
      assert root in Elems(names);
      r, black, order := SearchFrom(root, d, settled, black, order);
      if r.Some? {
        return;
      }
    }
    forall n | n in d && n !in settled ensures n in order {
      assert n in Elems(names);
      assert n in Elems(order);
    }
    assert FinishOrder(d, settled, order);
    forall p | Cycle(d, p) ensures exists j :: 0 <= j < |p| && p[j] in settled {
      FinishOrderNoCycle(d, settled, order, p);
    }
    return None;
  }

  // ---- _compute_waves -----------------------------------------------------

  /** Kahn's inner loops: the dependents of the wave just finished that became runnable.
      They are all the runnable nodes there are. */
  method NextWave(d: Deps, inv: Deps, ghost before: set<string>, current: seq<string>, done: set<string>)
    returns (nxt: set<string>)
    requires Closed(d) && Converse(d, inv)
    requires Elems(current) == Ready(d, before) && done == before + Elems(current)
    ensures nxt == Ready(d, done)
  {
    nxt := {};
    for i := 0 to |current|
      invariant forall n | n in nxt :: n in Ready(d, done)
      invariant forall n, k | n in Ready(d, done) && 0 <= k < i && current[k] in d[n] :: n in nxt
    {
      var finished := current[i];
      assert finished in Elems(current);
      nxt := nxt + set n | n in inv[finished] && n !in done && d[n] <= done;
    }
    BecameReady(d, before, current, done);
  }

  /** A newly runnable node depends on something in the wave just finished. */
  lemma BecameReady(d: Deps, before: set<string>, current: seq<string>, done: set<string>)
    requires Elems(current) == Ready(d, before) && done == before + Elems(current)
    ensures forall n | n in Ready(d, done) :: exists k :: 0 <= k < |current| && current[k] in d[n]
  {
    forall n | n in Ready(d, done) ensures exists k :: 0 <= k < |current| && current[k] in d[n] {
      var f :| f in d[n] && f !in before;
      assert f in Elems(current);
    }
  }

  /** Kahn's algorithm by levels over `d`. Stuck nodes are reported as a concrete cycle of
      the graph's full relation `all`. */
  method ComputeWaves(names: seq<string>, all: Deps, d: Deps, inv: Deps)
    returns (r: Result<seq<seq<string>>, seq<string>>)
    requires Closed(all) && SubRelation(d, all) && Converse(d, inv)
    requires Distinct(names) && Elems(names) == all.Keys
    ensures r.Ok? ==> IsWaves(d, r.value)
    ensures r.Err? ==> SimpleCycle(all, r.error)
  {
    var done, waves := Levels(d, inv);
    DistinctSize(names);
    SubsetSize(done, d.Keys);
    if |done| != |names| {
      var cycle := FindCycle(names, all, done);
      ResidueStuck(all, d, done);
      if cycle.Some? {
        return Err(cycle.value);
      }
      assert false;
    }
    return Ok(waves);
  }

  /** The loop of Kahn's algorithm: peel off levels until nothing is runnable. */
  method Levels(d: Deps, inv: Deps) returns (done: set<string>, waves: seq<seq<string>>)
    requires Closed(d) && Converse(d, inv)
    ensures Layered(d, waves) && (forall i | 0 <= i < |waves| :: waves[i] != [])
    ensures done == Settled(waves) && done <= d.Keys && Ready(d, done) == {}
  {
    done, waves := {}, [];
    var current := SortNames(set n | n in d && d[n] == {});
    assert (set n | n in d && d[n] == {}) == Ready(d, {});
    while current != []
      invariant Layered(d, waves) && done == Settled(waves) && done <= d.Keys
      invariant forall i | 0 <= i < |waves| :: waves[i] != []
      invariant Ascending(current) && Elems(current) == Ready(d, done)
      decreases d.Keys - done
    {
      ghost var before := done;
      assert current[0] in Elems(current);
      waves := ExtendLayers(d, waves, current);
      done := done + Elems(current);
      var nxt := NextWave(d, inv, before, current, done);
      current := SortNames(nxt);
    }
  }

  method ExtendLayers(ghost d: Deps, waves: seq<seq<string>>, wave: seq<string>)
    returns (r: seq<seq<string>>)
    requires Layered(d, waves) && Ascending(wave) && Elems(wave) == Ready(d, Settled(waves))
    ensures r == waves + [wave]
    ensures Layered(d, r) && Settled(r) == Settled(waves) + Elems(wave)
  {
    r := waves + [wave];
    assert r[..|waves|] == waves;
    forall i | 0 <= i < |r| ensures Ascending(r[i]) && Elems(r[i]) == Ready(d, Settled(r[..i])) {
      if i < |waves| {
        assert r[..i] == waves[..i];
      }
    }
  }

  /** When Kahn's loop is stuck, the leftover nodes cannot be finished in any order. */
  lemma ResidueStuck(all: Deps, d: Deps, done: set<string>)
    requires SubRelation(d, all) && Ready(d, done) == {} && done <= d.Keys && done != d.Keys
    ensures forall order :: !FinishOrder(all, done, order)
  {
    assert exists n :: n in all && n !in done;
    forall n | n in all && n !in done ensures !(all[n] <= done) {
      assert n !in Ready(d, done);
    }
    forall order ensures !FinishOrder(all, done, order) {
      ResidueHasNoFinishOrder(all, done, order);
    }
  }

  // ---- Construction -------------------------------------------------------

  /** An edge the graph accepts: two different known endpoints. */
  predicate GoodEdge(nodes: set<string>, e: Edge) {
    e.dependent != e.dependency && e.dependent in nodes && e.dependency in nodes
  }

  ghost predicate AllGood(nodes: set<string>, edges: seq<Edge>) {
    forall e | e in edges :: GoodEdge(nodes, e)
  }

  /** Exactly the inputs construction accepts. */
  ghost predicate Acceptable(name: string, nodes: seq<string>, edges: seq<Edge>) {
    && name != ""
    && Distinct(nodes)
    && AllGood(Elems(nodes), edges)
    && Acyclic(DepsOf(Elems(nodes), edges))
  }

  /** The error names the first offence, in the order construction looks for them. */
  ghost predicate Explains(name: string, nodes: seq<string>, edges: seq<Edge>, error: GraphError) {
    match error
    case EmptyName => name == ""
    case DuplicateNode(n) =>
      exists i :: 0 <= i < |nodes| && nodes[i] == n && n in nodes[..i] && Distinct(nodes[..i])
    case SelfDependency(n) =>
      && Distinct(nodes)
      && exists i :: 0 <= i < |edges| && AllGood(Elems(nodes), edges[..i]) &&
                     edges[i].dependent == n == edges[i].dependency
    case DanglingDependency(e, endpoint) =>
      && Distinct(nodes)
      && e.dependent != e.dependency
      && endpoint !in nodes
      && (endpoint == e.dependent || (e.dependent in nodes && endpoint == e.dependency))
      && exists i :: 0 <= i < |edges| && AllGood(Elems(nodes), edges[..i]) && edges[i] == e
    case DependencyCycle(path) =>
      && Distinct(nodes)
      && AllGood(Elems(nodes), edges)
      && SimpleCycle(DepsOf(Elems(nodes), edges), path)
  }

  /** Whatever the error explains really makes the input unacceptable. */
  lemma ExplainedIsUnacceptable(name: string, nodes: seq<string>, edges: seq<Edge>, error: GraphError)
    requires Explains(name, nodes, edges, error)
    ensures !Acceptable(name, nodes, edges)
  {
    match error
    case EmptyName =>
    case DuplicateNode(n) =>
      var i :| 0 <= i < |nodes| && nodes[i] == n && n in nodes[..i];
      var j :| 0 <= j < i && nodes[..i][j] == n;
      assert nodes[j] == nodes[i];
    case SelfDependency(n) =>
      var i :| 0 <= i < |edges| && edges[i].dependent == n == edges[i].dependency;
      assert edges[i] in edges;
    case DanglingDependency(e, endpoint) =>
      assert e in edges;
    case DependencyCycle(path) =>
  }

  /** Register every node, refusing a repeated name. */
  method IndexNodes(nodes: seq<string>) returns (r: Result<set<string>, GraphError>)
    ensures r.Ok? ==> r.value == Elems(nodes) && Distinct(nodes)
    ensures r.Err? ==> forall name, edges :: Explains(name, nodes, edges, r.error)
  {
    var byName: set<string> := {};
    for i := 0 to |nodes|
      invariant byName == Elems(nodes[..i]) && Distinct(nodes[..i])
    {
      if nodes[i] in byName {
        return Err(DuplicateNode(nodes[i]));
      }
      assert nodes[..i + 1] == nodes[..i] + [nodes[i]];
      byName := byName + {nodes[i]};
    }
    assert nodes[..|nodes|] == nodes;
    return Ok(byName);
  }

  /** Check every edge in order. */
  method CheckEdges(nodes: seq<string>, byName: set<string>, edges: seq<Edge>) returns (r: Option<GraphError>)
    requires Distinct(nodes) && byName == Elems(nodes)
    ensures r.None? ==> AllGood(byName, edges)
    ensures r.Some? ==> forall name :: Explains(name, nodes, edges, r.value)
  {
    for i := 0 to |edges|
      invariant AllGood(byName, edges[..i])
    {
      var e := edges[i];
      if e.dependent == e.dependency {
        return Some(SelfDependency(e.dependent));
      }
      if e.dependent !in byName {
        return Some(DanglingDependency(e, e.dependent));
      }
      if e.dependency !in byName {
        return Some(DanglingDependency(e, e.dependency));
      }
      assert edges[..i + 1] == edges[..i] + [e];
    }
    assert edges[..|edges|] == edges;
    return None;
  }

  lemma TargetsAppend(edges: seq<Edge>, e: Edge, n: string)
    ensures Targets(edges + [e], n) ==
            Targets(edges, n) + (if e.dependent == n then {e.dependency} else {})
    ensures ContentTargets(edges + [e], n) ==
            ContentTargets(edges, n) + (if e.dependent == n && e.AffectsCacheKey() then {e.dependency} else {})
  {
  }

  lemma ConverseAdd(d: Deps, inv: Deps, a: string, b: string)
    requires Closed(d) && Converse(d, inv) && a in d && b in d
    ensures Closed(d[a := d[a] + {b}]) && Converse(d[a := d[a] + {b}], inv[b := inv[b] + {a}])
  {
  }

  /** `d` is the relation of the edges seen so far. */
  ghost predicate Reflects(d: Deps, byName: set<string>, edges: seq<Edge>, contentOnly: bool) {
    d.Keys == byName &&
    forall n | n in byName :: d[n] == if contentOnly then ContentTargets(edges, n) else Targets(edges, n)
  }

  lemma ReflectsAppend(d: Deps, byName: set<string>, edges: seq<Edge>, e: Edge, contentOnly: bool)
    requires Reflects(d, byName, edges, contentOnly) && GoodEdge(byName, e)
    ensures var d' := if !contentOnly || e.AffectsCacheKey()
                      then d[e.dependent := d[e.dependent] + {e.dependency}] else d;
            Reflects(d', byName, edges + [e], contentOnly)
  {
    forall n | n in byName {
      TargetsAppend(edges, e, n);
    }
  }

  /** Fill an adjacency map and its converse, one edge at a time. With `contentOnly`, edges
      that only order are skipped. */
  method Adjacency(byName: set<string>, edges: seq<Edge>, contentOnly: bool) returns (d: Deps, inv: Deps)
    requires AllGood(byName, edges)
    ensures d == if contentOnly then ContentDepsOf(byName, edges) else DepsOf(byName, edges)
    ensures Closed(d) && Converse(d, inv)
  {
    d := map n | n in byName :: {};
    inv := d;
    for i := 0 to |edges|
      invariant Reflects(d, byName, edges[..i], contentOnly)
      invariant Closed(d) && Converse(d, inv)
    {
      var e := edges[i];
      assert edges[..i + 1] == edges[..i] + [e];
      assert GoodEdge(byName, e);
      ReflectsAppend(d, byName, edges[..i], e, contentOnly);
      if !contentOnly || e.AffectsCacheKey() {
        ConverseAdd(d, inv, e.dependent, e.dependency);
        d := d[e.dependent := d[e.dependent] + {e.dependency}];
        inv := inv[e.dependency := inv[e.dependency] + {e.dependent}];
      }
    }
    assert edges[..|edges|] == edges;
  }

  /** Freeze nodes and edges into a graph. Succeeds exactly on acceptable input; the
      content schedule can never fail, because it orders a sub-relation. */
  method Build(name: string, nodes: seq<string>, edges: seq<Edge>) returns (r: Result<Graph, GraphError>)
    ensures r.Ok? <==> Acceptable(name, nodes, edges)
    ensures r.Ok? ==> r.value.Valid() && r.value.nodes == nodes && r.value.edges == edges && r.value.name == name
    ensures r.Err? ==> Explains(name, nodes, edges, r.error)
  {
    if name == "" {
      return Err(EmptyName);
    }
    var indexed := IndexNodes(nodes);
    if indexed.Err? {
      ExplainedIsUnacceptable(name, nodes, edges, indexed.error);
      return Err(indexed.error);
    }
    var byName := indexed.value;
    var bad := CheckEdges(nodes, byName, edges);
    if bad.Some? {
      ExplainedIsUnacceptable(name, nodes, edges, bad.value);
      return Err(bad.value);
    }
    var deps, dependents := Adjacency(byName, edges, false);
    var waves := ComputeWaves(nodes, deps, deps, dependents);
    if waves.Err? {
      return Err(DependencyCycle(waves.error));
    }
    LayeredIsAcyclic(deps, waves.value);
    var contentDeps, contentDependents := Adjacency(byName, edges, true);
    var contentWaves := ComputeWaves(nodes, deps, contentDeps, contentDependents);
    assert contentWaves.Ok?;
    r := Ok(Graph(name, nodes, edges, deps, dependents, waves.value, contentWaves.value));
  }

  /** In a frozen graph every edge points to a strictly earlier wave. */
  lemma EdgeGoesToEarlierWave(g: Graph, e: Edge) returns (i: nat, j: nat)
    requires g.Valid() && e in g.edges && e.dependent in g.nodes
    ensures j < i < |g.waves| && e.dependent in g.waves[i] && e.dependency in g.waves[j]
  {
    SettledMember(g.waves, e.dependent);
    assert e.dependent in g.deps && e.dependency in g.deps[e.dependent];
    i :| 0 <= i < |g.waves| && e.dependent in g.waves[i];
    j := DependencyEarlier(g.deps, g.waves, i, e.dependent, e.dependency);
  }
}
