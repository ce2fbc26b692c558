/** A declared plan and the build graph it freezes into. */
module Plans {
  import opened Wrappers
  import opened Names
  import opened Relation
  import opened BuildGraph

  // ---- What a plan declares --------------------------------------------------------

  datatype Sidecar = Sidecar(dhcp: bool, dns: bool, masquerades: bool)

  datatype Switch = Switch(name: string, networks: seq<string>, sidecar: Option<Sidecar>) {
    predicate NeedsSidecar() {
      sidecar.Some?
    }

    predicate Nat() {
      sidecar.Some? && sidecar.value.masquerades
    }
  }

  /** A NIC holds the handle of a network, which carries its owning switch. */
  datatype Nic = Nic(network: string, switch: string, dhcp: bool)

  datatype Vm = Vm(
    name: string,
    osPool: string,
    dataPools: seq<string>,
    nics: seq<Nic>,
    installer: bool,        // boots an install medium instead of a base image
    seeded: bool)           // the builder renders a seed medium

  datatype Plan = Plan(
    name: string,
    pools: seq<string>,
    switches: seq<Switch>,
    vms: seq<Vm>,
    explicitEdges: seq<(string, string)>,   // recorded by `.needs()`
    buildSwitch: Switch)

  // ---- Node identities ---------------------------------------------------------------

  function PoolNode(pool: string): string { "pool:" + pool }
  function NetworkNode(switch: string): string { "network:" + switch }
  function SidecarNode(switch: string): string { "sidecar:" + switch }
  function VmNode(vm: string): string { "vm:" + vm }

  /** Kind-qualified names never collide. */
  lemma NodeNamesApart(a: string, b: string)
    ensures PoolNode(a) != NetworkNode(b) && PoolNode(a) != SidecarNode(b) && PoolNode(a) != VmNode(b)
    ensures NetworkNode(a) != SidecarNode(b) && NetworkNode(a) != VmNode(b) && SidecarNode(a) != VmNode(b)
    ensures PoolNode(a) == PoolNode(b) ==> a == b
    ensures NetworkNode(a) == NetworkNode(b) ==> a == b
    ensures SidecarNode(a) == SidecarNode(b) ==> a == b
    ensures VmNode(a) == VmNode(b) ==> a == b
  {
    assert PoolNode(a)[0] == 'p' && NetworkNode(a)[0] == 'n' && SidecarNode(a)[0] == 's' && VmNode(a)[0] == 'v';
    assert NetworkNode(b)[0] == 'n' && SidecarNode(b)[0] == 's' && VmNode(b)[0] == 'v';
    assert PoolNode(a)[5..] == a && PoolNode(b)[5..] == b;
    assert NetworkNode(a)[8..] == a && NetworkNode(b)[8..] == b;
    assert SidecarNode(a)[8..] == a && SidecarNode(b)[8..] == b;
    assert VmNode(a)[3..] == a && VmNode(b)[3..] == b;
  }

  // ---- Nodes and edges of a plan ---------------------------------------------------------

  function PoolNodes(pools: seq<string>): (r: seq<string>)
    ensures |r| == |pools| && forall i | 0 <= i < |r| :: r[i] == PoolNode(pools[i])
  {
    seq(|pools|, i requires 0 <= i < |pools| => PoolNode(pools[i]))
  }

  /** A switch is one node, and its sidecar another. */
  function NodesOfSwitch(s: Switch): seq<string> {
    [NetworkNode(s.name)] + (if s.NeedsSidecar() then [SidecarNode(s.name)] else [])
  }

  function SwitchNodes(switches: seq<Switch>): seq<string> {
    if switches == [] then [] else SwitchNodes(switches[..|switches| - 1]) + NodesOfSwitch(switches[|switches| - 1])
  }

  function VmNodes(vms: seq<Vm>): (r: seq<string>)
    ensures |r| == |vms| && forall i | 0 <= i < |r| :: r[i] == VmNode(vms[i].name)
  {
    seq(|vms|, i requires 0 <= i < |vms| => VmNode(vms[i].name))
  }

  function NodesOf(plan: Plan): seq<string> {
    PoolNodes(plan.pools) + SwitchNodes(plan.switches) + VmNodes(plan.vms)
  }

  type Pair = (string, string)

  /** The sidecar reads the switch's networks; its disk lands in the first declared pool. */
  function EdgesOfSwitch(plan: Plan, s: Switch): seq<Pair> {
    if s.NeedsSidecar() && plan.pools != [] then
      [(SidecarNode(s.name), NetworkNode(s.name)), (SidecarNode(s.name), PoolNode(plan.pools[0]))]
    else []
  }

  function SwitchEdges(plan: Plan, switches: seq<Switch>): seq<Pair> {
    if switches == [] then []
    else SwitchEdges(plan, switches[..|switches| - 1]) + EdgesOfSwitch(plan, switches[|switches| - 1])
  }

  function DiskEdges(v: Vm, pools: seq<string>): (r: seq<Pair>)
    ensures |r| == |pools| && forall i | 0 <= i < |r| :: r[i] == (VmNode(v.name), PoolNode(pools[i]))
  {
    seq(|pools|, i requires 0 <= i < |pools| => (VmNode(v.name), PoolNode(pools[i])))
  }

  /** The switch registered under a network node name: the last one declared. */
  function SwitchBehind(switches: seq<Switch>, name: string): (r: Option<Switch>)
    ensures r.Some? ==> r.value in switches && r.value.name == name
    ensures r.None? ==> forall s | s in switches :: s.name != name
  {
    if switches == [] then None
    else if switches[|switches| - 1].name == name then Some(switches[|switches| - 1])
    else SwitchBehind(switches[..|switches| - 1], name)
  }

  /** A NIC needs its fabric, and the sidecar serving there. */
  function EdgesOfNic(plan: Plan, v: Vm, nic: Nic): seq<Pair> {
    var behind := SwitchBehind(plan.switches, nic.switch);
    [(VmNode(v.name), NetworkNode(nic.switch))] +
    (if behind.Some? && behind.value.NeedsSidecar() then [(VmNode(v.name), SidecarNode(behind.value.name))] else [])
  }

  function NicEdges(plan: Plan, v: Vm, nics: seq<Nic>): seq<Pair> {
    if nics == [] then [] else NicEdges(plan, v, nics[..|nics| - 1]) + EdgesOfNic(plan, v, nics[|nics| - 1])
  }

  function EdgesOfVm(plan: Plan, v: Vm): seq<Pair> {
    [(VmNode(v.name), PoolNode(v.osPool))] + DiskEdges(v, v.dataPools) + NicEdges(plan, v, v.nics)
  }

  function VmEdges(plan: Plan, vms: seq<Vm>): seq<Pair> {
    if vms == [] then [] else VmEdges(plan, vms[..|vms| - 1]) + EdgesOfVm(plan, vms[|vms| - 1])
  }

  function EdgesOf(plan: Plan): seq<Pair> {
    SwitchEdges(plan, plan.switches) + VmEdges(plan, plan.vms) + plan.explicitEdges
  }

  // ---- assemble_graph ---------------------------------------------------------------------

  datatype AssembleError = NoPoolForSidecar(switch: string) | BadGraph(error: GraphError)

  function OrderingEdges(pairs: seq<Pair>): (r: seq<Edge>)
    ensures |r| == |pairs| && forall i | 0 <= i < |r| :: r[i] == Edge(pairs[i].0, pairs[i].1, Ordering)
  {
    seq(|pairs|, i requires 0 <= i < |pairs| => Edge(pairs[i].0, pairs[i].1, Ordering))
  }

  ghost predicate NoRepeats(pairs: seq<Pair>) {
    forall i, j | 0 <= i < j < |pairs| :: pairs[i] != pairs[j]
  }

  /** `kept` holds each wanted pair once. */
  ghost predicate Deduplicates(kept: seq<Pair>, wanted: seq<Pair>) {
    NoRepeats(kept) && Elems(kept) == Elems(wanted)
  }

  /** `edges.setdefault`, one pair after the other. */
  method AddEdges(kept: seq<Pair>, more: seq<Pair>, ghost wanted: seq<Pair>) returns (r: seq<Pair>)
    requires Deduplicates(kept, wanted)
    ensures Deduplicates(r, wanted + more)
  {
    r := kept;
    for i := 0 to |more|
      invariant Deduplicates(r, wanted + more[..i])
    {
      ghost var before := wanted + more[..i];
      assert wanted + more[..i + 1] == before + [more[i]];
      assert Elems(before + [more[i]]) == Elems(before) + {more[i]};
      if more[i] !in r {
        assert Elems(r + [more[i]]) == Elems(r) + {more[i]};
        r := r + [more[i]];
      } else {
        assert more[i] in Elems(r);
      }
    }
    assert more[..|more|] == more;
  }

  /** A plan whose sidecars have nowhere to live. */
  ghost predicate Homeless(plan: Plan) {
    plan.pools == [] && exists s :: s in plan.switches && s.NeedsSidecar()
  }

  method CollectSwitches(plan: Plan) returns (r: Result<(seq<string>, seq<Pair>), AssembleError>)
    ensures r.Err? <==> Homeless(plan)
    ensures r.Err? ==> r.error.NoPoolForSidecar?
    ensures r.Ok? ==>
              && r.value.0 == SwitchNodes(plan.switches)
              && Deduplicates(r.value.1, SwitchEdges(plan, plan.switches))
  {
    var nodes: seq<string>, pairs: seq<Pair> := [], [];
    for i := 0 to |plan.switches|
      invariant nodes == SwitchNodes(plan.switches[..i])
      invariant Deduplicates(pairs, SwitchEdges(plan, plan.switches[..i]))
      invariant plan.pools == [] ==> forall j | 0 <= j < i :: !plan.switches[j].NeedsSidecar()
    {
      var s := plan.switches[i];
      if s.NeedsSidecar() && plan.pools == [] {
        return Err(NoPoolForSidecar(s.name));
      }
      assert plan.switches[..i + 1][..i] == plan.switches[..i];
      nodes := nodes + NodesOfSwitch(s);
      pairs := AddEdges(pairs, EdgesOfSwitch(plan, s), SwitchEdges(plan, plan.switches[..i]));
    }
    assert plan.switches[..|plan.switches|] == plan.switches;
    return Ok((nodes, pairs));
  }

  method CollectVms(plan: Plan, kept: seq<Pair>, ghost wanted: seq<Pair>) returns (pairs: seq<Pair>)
    requires Deduplicates(kept, wanted)
    ensures Deduplicates(pairs, wanted + VmEdges(plan, plan.vms))
  {
    pairs := kept;
    assert wanted + VmEdges(plan, plan.vms[..0]) == wanted;
    for i := 0 to |plan.vms|
      invariant Deduplicates(pairs, wanted + VmEdges(plan, plan.vms[..i]))
    {
      var v := plan.vms[i];
      assert plan.vms[..i + 1][..i] == plan.vms[..i];
      ghost var before := VmEdges(plan, plan.vms[..i]);
      assert wanted + VmEdges(plan, plan.vms[..i + 1]) == (wanted + before) + EdgesOfVm(plan, v);
      pairs := AddEdges(pairs, EdgesOfVm(plan, v), wanted + before);
    }
    assert plan.vms[..|plan.vms|] == plan.vms;
  }

  /** The frozen graph of a plan: one node per declaration, in order, and each inferred or
      explicit edge exactly once, ordering only. */
  ghost predicate Freezes(plan: Plan, g: Graph) {
    && g.Valid() && g.nodes == NodesOf(plan) && !Homeless(plan)
    && exists pairs :: Deduplicates(pairs, EdgesOf(plan)) && g.edges == OrderingEdges(pairs)
  }

  /** The plan's edges, listed once each, do not make an acceptable graph. */
  ghost predicate Unfreezable(plan: Plan) {
    exists pairs :: Deduplicates(pairs, EdgesOf(plan)) && !Acceptable(plan.name, NodesOf(plan), OrderingEdges(pairs))
  }

  /** Freeze the plan. It fails only when a sidecar has no pool to live in or the plan's
      nodes and edges are not an acceptable graph. */
  method AssembleGraph(plan: Plan) returns (r: Result<Graph, AssembleError>)
    ensures r.Err? && r.error.NoPoolForSidecar? <==> Homeless(plan)
    ensures r.Ok? ==> Freezes(plan, r.value)
    ensures r.Err? && r.error.BadGraph? ==> Unfreezable(plan)
  {
    var switches := CollectSwitches(plan);
    if switches.Err? {
      return Err(switches.error);
    }
    var nodes := PoolNodes(plan.pools) + switches.value.0 + VmNodes(plan.vms);
    var pairs := CollectVms(plan, switches.value.1, SwitchEdges(plan, plan.switches));
    pairs := AddEdges(pairs, plan.explicitEdges, SwitchEdges(plan, plan.switches) + VmEdges(plan, plan.vms));
    var built := Build(plan.name, nodes, OrderingEdges(pairs));
    if built.Ok? {
      return Ok(built.value);
    }
    ExplainedIsUnacceptable(plan.name, NodesOf(plan), OrderingEdges(pairs), built.error);
    return Err(BadGraph(built.error));
  }

  // ---- What the graph of a plan contains -------------------------------------------------------

  lemma EdgeInGraph(plan: Plan, g: Graph, a: string, b: string)
    requires Freezes(plan, g) && (a, b) in EdgesOf(plan) && a in g.nodes
    ensures a in g.deps && b in g.deps[a] && b in g.deps
  {
    var pairs :| Deduplicates(pairs, EdgesOf(plan)) && g.edges == OrderingEdges(pairs);
    assert (a, b) in Elems(pairs);
    var i :| 0 <= i < |pairs| && pairs[i] == (a, b);
    assert g.edges[i] == Edge(a, b, Ordering);
    assert g.edges[i] in g.edges;
    assert a in Elems(g.nodes);
    assert b in Targets(g.edges, a);
  }

  lemma {:induction false} SwitchEdgesContain(plan: Plan, switches: seq<Switch>, s: Switch)
    requires s in switches
    ensures forall e | e in EdgesOfSwitch(plan, s) :: e in SwitchEdges(plan, switches)
  {
    var n := |switches| - 1;
    if s != switches[n] {
      assert s in switches[..n];
      SwitchEdgesContain(plan, switches[..n], s);
    }
  }

  lemma {:induction false} VmEdgesContain(plan: Plan, vms: seq<Vm>, v: Vm)
    requires v in vms
    ensures forall e | e in EdgesOfVm(plan, v) :: e in VmEdges(plan, vms)
  {
    var n := |vms| - 1;
    if v != vms[n] {
      assert v in vms[..n];
      VmEdgesContain(plan, vms[..n], v);
    }
  }

  lemma {:induction false} NicEdgesContain(plan: Plan, v: Vm, nics: seq<Nic>, nic: Nic)
    requires nic in nics
    ensures forall e | e in EdgesOfNic(plan, v, nic) :: e in NicEdges(plan, v, nics)
  {
    var n := |nics| - 1;
    if nic != nics[n] {
      assert nic in nics[..n];
      NicEdgesContain(plan, v, nics[..n], nic);
    }
  }

  lemma {:induction false} SwitchNodesContain(switches: seq<Switch>, s: Switch)
    requires s in switches
    ensures NetworkNode(s.name) in SwitchNodes(switches)
    ensures s.NeedsSidecar() ==> SidecarNode(s.name) in SwitchNodes(switches)
  {
    var n := |switches| - 1;
    if s != switches[n] {
      assert s in switches[..n];
      SwitchNodesContain(switches[..n], s);
    }
  }

  /** Every node of the graph stands for a declaration, and the other way round. */
  lemma {:induction false} SwitchNodesOnly(switches: seq<Switch>, n: string)
    requires n in SwitchNodes(switches)
    ensures exists s :: s in switches && (n == NetworkNode(s.name) || (s.NeedsSidecar() && n == SidecarNode(s.name)))
  {
    var k := |switches| - 1;
    if n in SwitchNodes(switches[..k]) {
      SwitchNodesOnly(switches[..k], n);
      var s :| s in switches[..k] && (n == NetworkNode(s.name) || (s.NeedsSidecar() && n == SidecarNode(s.name)));
      assert s in switches;
    } else {
      assert switches[k] in switches;
    }
  }

  lemma DeclaredNodes(plan: Plan)
    ensures forall p | p in plan.pools :: PoolNode(p) in NodesOf(plan)
    ensures forall s | s in plan.switches :: NetworkNode(s.name) in NodesOf(plan)
    ensures forall s | s in plan.switches && s.NeedsSidecar() :: SidecarNode(s.name) in NodesOf(plan)
    ensures forall v | v in plan.vms :: VmNode(v.name) in NodesOf(plan)
  {
    forall p | p in plan.pools ensures PoolNode(p) in NodesOf(plan) {
      var i :| 0 <= i < |plan.pools| && plan.pools[i] == p;
      assert PoolNodes(plan.pools)[i] == PoolNode(p);
    }
    forall s | s in plan.switches
      ensures NetworkNode(s.name) in NodesOf(plan) && (s.NeedsSidecar() ==> SidecarNode(s.name) in NodesOf(plan))
    {
      SwitchNodesContain(plan.switches, s);
    }
    forall v | v in plan.vms ensures VmNode(v.name) in NodesOf(plan) {
      var i :| 0 <= i < |plan.vms| && plan.vms[i] == v;
      assert VmNodes(plan.vms)[i] == VmNode(v.name);
    }
  }

  // ---- Only `.needs()` can close a cycle ------------------------------------------------------------

  /** VMs above sidecars above fabrics and pools. */
  function Tier(n: string): nat {
    if n == [] then 0 else if n[0] == 'v' then 2 else if n[0] == 's' then 1 else 0
  }

  ghost predicate Downhill(pairs: seq<Pair>) {
    forall i | 0 <= i < |pairs| :: Tier(pairs[i].1) < Tier(pairs[i].0)
  }

  lemma {:induction false} SwitchEdgesDownhill(plan: Plan, switches: seq<Switch>)
    ensures Downhill(SwitchEdges(plan, switches))
  {
    if switches != [] {
      SwitchEdgesDownhill(plan, switches[..|switches| - 1]);
    }
  }

  lemma {:induction false} NicEdgesDownhill(plan: Plan, v: Vm, nics: seq<Nic>)
    ensures Downhill(NicEdges(plan, v, nics))
  {
    if nics != [] {
      NicEdgesDownhill(plan, v, nics[..|nics| - 1]);
      assert Downhill(EdgesOfNic(plan, v, nics[|nics| - 1]));
    }
  }

  lemma {:induction false} VmEdgesDownhill(plan: Plan, vms: seq<Vm>)
    ensures Downhill(VmEdges(plan, vms))
  {
    if vms != [] {
      VmEdgesDownhill(plan, vms[..|vms| - 1]);
      var v := vms[|vms| - 1];
      NicEdgesDownhill(plan, v, v.nics);
      assert Downhill(DiskEdges(v, v.dataPools));
      assert Downhill(EdgesOfVm(plan, v));
    }
  }

  /** `.needs()` is a method of VM handles, so explicit edges start at VMs. */
  ghost predicate VmsNeed(plan: Plan) {
    forall i | 0 <= i < |plan.explicitEdges| :: Tier(plan.explicitEdges[i].0) == 2
  }

  lemma EdgeTiers(plan: Plan, e: Pair)
    requires VmsNeed(plan) && e in EdgesOf(plan)
    ensures Tier(e.1) <= Tier(e.0)
    ensures e in plan.explicitEdges || Tier(e.1) < Tier(e.0)
  {
    SwitchEdgesDownhill(plan, plan.switches);
    VmEdgesDownhill(plan, plan.vms);
  }

  lemma DependencyIsEdge(plan: Plan, pairs: seq<Pair>, n: string, m: string)
    requires Deduplicates(pairs, EdgesOf(plan)) && m in Targets(OrderingEdges(pairs), n)
    ensures (n, m) in EdgesOf(plan)
  {
    var es := OrderingEdges(pairs);
    var e :| e in es && e.dependent == n && e.dependency == m;
    var i :| 0 <= i < |es| && es[i] == e;
    assert pairs[i] in Elems(pairs);
  }

  lemma {:induction false} ChainGoesDown(plan: Plan, d: Deps, p: seq<string>, i: nat)
    requires VmsNeed(plan) && Chain(d, p) && i < |p|
    requires forall n, m | n in d && m in d[n] :: (n, m) in EdgesOf(plan)
    ensures Tier(p[i]) <= Tier(p[0]) && Tier(p[|p| - 1]) <= Tier(p[i])
    decreases |p|
  {
    if |p| > 1 {
      EdgeTiers(plan, (p[0], p[1]));
      ChainGoesDown(plan, d, p[1..], if i == 0 then 0 else i - 1);
    }
  }

  /** Whatever a plan declares, a dependency cycle runs through VMs only, and every one of
      its steps was asked for with `.needs()`: inferred edges never close a cycle. */
  lemma CyclesAreExplicit(plan: Plan, pairs: seq<Pair>, p: seq<string>, i: nat)
    requires VmsNeed(plan) && Deduplicates(pairs, EdgesOf(plan))
    requires Cycle(DepsOf(Elems(NodesOf(plan)), OrderingEdges(pairs)), p) && i + 1 < |p|
    ensures Tier(p[i]) == 2 && (p[i], p[i + 1]) in plan.explicitEdges
  {
    var d := DepsOf(Elems(NodesOf(plan)), OrderingEdges(pairs));
    forall n, m | n in d && m in d[n] ensures (n, m) in EdgesOf(plan) {
      DependencyIsEdge(plan, pairs, n, m);
    }
    ChainGoesDown(plan, d, p, i);
    ChainGoesDown(plan, d, p, i + 1);
    EdgeTiers(plan, (p[i], p[i + 1]));
    var j :| 0 <= j < |plan.explicitEdges| && plan.explicitEdges[j] == (p[i], p[i + 1]);
  }
}
