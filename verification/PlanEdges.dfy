/** The edges of a frozen plan, by what the plan declares. */
module PlanEdges {
  import opened Names
  import opened BuildGraph
  import opened Plans

  // ---- What needs what ------------------------------------------------------------------------

  /** Some declared switch of that name has a sidecar. */
  ghost predicate HasSidecar(plan: Plan, switch: string) {
    exists s :: s in plan.switches && s.name == switch && s.NeedsSidecar()
  }

  /** A VM needs the pool of each of its disks, the fabric behind each of its NICs, and the
      sidecar serving there. */
  ghost predicate VmNeeds(plan: Plan, v: Vm, y: string) {
    || y == PoolNode(v.osPool)
    || (exists i :: 0 <= i < |v.dataPools| && y == PoolNode(v.dataPools[i]))
    || (exists nic :: nic in v.nics && y == NetworkNode(nic.switch))
    || (exists nic :: nic in v.nics && y == SidecarNode(nic.switch) && HasSidecar(plan, nic.switch))
  }

  /** A sidecar needs its fabric and the first declared pool. */
  ghost predicate SidecarNeeds(plan: Plan, s: Switch, y: string) {
    s.NeedsSidecar() && plan.pools != [] && (y == NetworkNode(s.name) || y == PoolNode(plan.pools[0]))
  }

  /** Everything a plan makes `x` wait for. */
  ghost predicate Needs(plan: Plan, x: string, y: string) {
    || (exists v :: v in plan.vms && x == VmNode(v.name) && VmNeeds(plan, v, y))
    || (exists s :: s in plan.switches && x == SidecarNode(s.name) && SidecarNeeds(plan, s, y))
    || (x, y) in plan.explicitEdges
  }

  // ---- Edge by edge -------------------------------------------------------------------------------

  lemma {:induction false} SwitchEdgesAre(plan: Plan, switches: seq<Switch>, x: string, y: string)
    ensures (x, y) in SwitchEdges(plan, switches) <==>
            exists s :: s in switches && x == SidecarNode(s.name) && SidecarNeeds(plan, s, y)
  {
    if switches != [] {
      var front, last := switches[..|switches| - 1], switches[|switches| - 1];
      SwitchEdgesAre(plan, front, x, y);
      assert forall s :: s in switches <==> s in front || s == last;
      assert (x, y) in EdgesOfSwitch(plan, last) <==> x == SidecarNode(last.name) && SidecarNeeds(plan, last, y);
    }
  }

  ghost predicate NicNeeds(plan: Plan, nic: Nic, y: string) {
    y == NetworkNode(nic.switch) || (y == SidecarNode(nic.switch) && HasSidecar(plan, nic.switch))
  }

  ghost predicate UniqueSwitches(plan: Plan) {
    forall s, t | s in plan.switches && t in plan.switches && s.name == t.name :: s == t
  }

  lemma NicEdgeIs(plan: Plan, v: Vm, nic: Nic, x: string, y: string)
    requires UniqueSwitches(plan)
    ensures (x, y) in EdgesOfNic(plan, v, nic) <==> x == VmNode(v.name) && NicNeeds(plan, nic, y)
  {
    var behind := SwitchBehind(plan.switches, nic.switch);
    assert behind.Some? && behind.value.NeedsSidecar() <==> HasSidecar(plan, nic.switch);
  }

  lemma {:induction false} NicEdgesAre(plan: Plan, v: Vm, nics: seq<Nic>, x: string, y: string)
    requires UniqueSwitches(plan)
    ensures (x, y) in NicEdges(plan, v, nics) <==>
            x == VmNode(v.name) && exists nic :: nic in nics && NicNeeds(plan, nic, y)
  {
    if nics != [] {
      var front, last := nics[..|nics| - 1], nics[|nics| - 1];
      NicEdgesAre(plan, v, front, x, y);
      NicEdgeIs(plan, v, last, x, y);
      assert forall nic :: nic in nics <==> nic in front || nic == last;
    }
  }

  lemma VmEdgeIs(plan: Plan, v: Vm, x: string, y: string)
    requires UniqueSwitches(plan)
    ensures (x, y) in EdgesOfVm(plan, v) <==> x == VmNode(v.name) && VmNeeds(plan, v, y)
  {
    NicEdgesAre(plan, v, v.nics, x, y);
    DiskEdgesAre(v, v.dataPools, x, y);
    assert (exists nic :: nic in v.nics && NicNeeds(plan, nic, y)) <==>
           || (exists nic :: nic in v.nics && y == NetworkNode(nic.switch))
           || (exists nic :: nic in v.nics && y == SidecarNode(nic.switch) && HasSidecar(plan, nic.switch));
  }

  lemma DiskEdgesAre(v: Vm, pools: seq<string>, x: string, y: string)
    ensures (x, y) in DiskEdges(v, pools) <==>
            x == VmNode(v.name) && exists i :: 0 <= i < |pools| && y == PoolNode(pools[i])
  {
    var es := DiskEdges(v, pools);
    if x == VmNode(v.name) && exists i :: 0 <= i < |pools| && y == PoolNode(pools[i]) {
      var i :| 0 <= i < |pools| && y == PoolNode(pools[i]);
      assert es[i] == (x, y);
    }
  }

  lemma {:induction false} VmEdgesAre(plan: Plan, vms: seq<Vm>, x: string, y: string)
    requires UniqueSwitches(plan)
    ensures (x, y) in VmEdges(plan, vms) <==>
            exists v :: v in vms && x == VmNode(v.name) && VmNeeds(plan, v, y)
  {
    if vms != [] {
      var front, last := vms[..|vms| - 1], vms[|vms| - 1];
      VmEdgesAre(plan, front, x, y);
      VmEdgeIs(plan, last, x, y);
      assert forall v :: v in vms <==> v in front || v == last;
    }
  }

  // ---- The graph's edges ----------------------------------------------------------------------------

  /** Distinct nodes are distinct declarations. */
  lemma {:induction false} SwitchesDistinct(switches: seq<Switch>, s: Switch, t: Switch)
    requires Distinct(SwitchNodes(switches)) && s in switches && t in switches && s.name == t.name
    ensures s == t
  {
    var front, last := switches[..|switches| - 1], switches[|switches| - 1];
    var nodes := SwitchNodes(front);
    assert SwitchNodes(switches) == nodes + NodesOfSwitch(last);
    assert SwitchNodes(switches)[|nodes|] == NetworkNode(last.name);
    assert Distinct(nodes) by {
      assert forall i | 0 <= i < |nodes| :: nodes[i] == SwitchNodes(switches)[i];
    }
    forall u | u in front ensures u.name != last.name {
      SwitchNodesContain(front, u);
      var i :| 0 <= i < |nodes| && nodes[i] == NetworkNode(u.name);
      assert SwitchNodes(switches)[i] == NetworkNode(u.name);
    }
    assert forall u | u in switches :: u in front || u == last;
    if s in front && t in front {
      SwitchesDistinct(front, s, t);
    }
  }

  lemma FrozenSwitchesUnique(plan: Plan)
    requires Distinct(NodesOf(plan))
    ensures UniqueSwitches(plan)
  {
    var first, mid := PoolNodes(plan.pools), SwitchNodes(plan.switches);
    assert Distinct(mid) by {
      assert forall i | 0 <= i < |mid| :: mid[i] == NodesOf(plan)[|first| + i];
    }
    forall s, t | s in plan.switches && t in plan.switches && s.name == t.name ensures s == t {
      SwitchesDistinct(plan.switches, s, t);
    }
  }

  /** The frozen graph has an edge exactly where the plan makes one node wait for another:
      once each, ordering only. */
  lemma GraphEdgesAre(plan: Plan, g: Graph, x: string, y: string)
    requires Freezes(plan, g)
    ensures Edge(x, y, Ordering) in g.edges <==> Needs(plan, x, y)
    ensures forall e | e in g.edges :: e.cacheability == Ordering
    ensures forall i, j | 0 <= i < j < |g.edges| :: g.edges[i] != g.edges[j]
  {
    var pairs :| Deduplicates(pairs, EdgesOf(plan)) && g.edges == OrderingEdges(pairs);
    FrozenSwitchesUnique(plan);
    SwitchEdgesAre(plan, plan.switches, x, y);
    VmEdgesAre(plan, plan.vms, x, y);
    assert (x, y) in EdgesOf(plan) <==> Needs(plan, x, y);
    assert (x, y) in EdgesOf(plan) <==> (x, y) in Elems(pairs);
    EdgeOfPair(pairs, x, y);
    forall i, j | 0 <= i < j < |g.edges| ensures g.edges[i] != g.edges[j] {
      assert pairs[i] != pairs[j];
    }
  }

  lemma EdgeOfPair(pairs: seq<Pair>, x: string, y: string)
    ensures Edge(x, y, Ordering) in OrderingEdges(pairs) <==> (x, y) in pairs
  {
    if (x, y) in pairs {
      var i :| 0 <= i < |pairs| && pairs[i] == (x, y);
      assert OrderingEdges(pairs)[i] == Edge(x, y, Ordering);
    }
  }

  /** And so a node's dependencies in the graph are exactly what the plan makes it wait for. */
  lemma DependenciesAre(plan: Plan, g: Graph, x: string, y: string)
    requires Freezes(plan, g) && x in g.nodes
    ensures x in g.deps && (y in g.deps[x] <==> Needs(plan, x, y))
  {
    GraphEdgesAre(plan, g, x, y);
    assert x in Elems(g.nodes);
    if y in Targets(g.edges, x) {
      var e :| e in g.edges && e.dependent == x && e.dependency == y;
    }
  }
}
