/** What a VM finds in place when its bring-up starts, in every run of every plan; and the one
    lookup that a resumed run can get wrong, with its exact condition.
 */
module PlanStart {
  import opened Wrappers
  import opened Ledger
  import opened Actions
  import opened RunSystem
  import opened RunSafety
  import opened RunOrder
  import opened RunLookups
  import opened BuildGraph
  import opened Plans
  import opened Hooks
  import opened HookEffects
  import opened PlanRuns
  import opened PlanLookups

  // ---- What hooks create -------------------------------------------------------------------

  lemma PoolCreates(naming: Naming, pool: string)
    ensures Creates(PoolUp(naming, pool)) == {naming(Slot(false, Pool, pool, 0))}
  {
    PoolProfile(naming, pool);
    HasMeans(PoolUp(naming, pool), Profile({naming(Slot(false, Pool, pool, 0))}, {}, {PoolKey(pool)}));
  }

  lemma FabricCreates(naming: Naming, s: Switch)
    ensures Creates(FabricUp(naming, false, s)) == FabricNames(naming, false, s)
  {
    FabricProfile(naming, false, s);
    HasMeans(FabricUp(naming, false, s), Profile(FabricNames(naming, false, s), {}, FabricKeys(s)));
  }

  lemma SidecarCreates(naming: Naming, pool: string, s: Switch)
    requires s.networks != []
    ensures Creates(SidecarRealize(naming, pool, s)) == SidecarNames(naming, false, s)
  {
    SidecarProfile(naming, pool, s);
    HasMeans(SidecarRealize(naming, pool, s), Profile(SidecarNames(naming, false, s),
             {PoolKey(pool), NetworkKey(s.networks[0]), SidecarKey(s.name)} + UplinkKeys(s),
             {SidecarKey(s.name), ServingKey(s.name)}));
  }

  lemma MachineCreates(plan: Plan, naming: Naming, v: Vm)
    ensures Creates(MachineRealize(plan, naming, v)) == MachineNames(naming, false, v)
  {
    MachineProfile(plan, naming, v);
    HasMeans(MachineRealize(plan, naming, v),
             Profile(MachineNames(naming, false, v), MachineKeys(v) + LeaseKeys(plan, v.nics), {}));
  }

  // ---- When a VM starts -----------------------------------------------------------------------

  /** A node whose realize hook runs or waits to run. */
  ghost predicate AboutToRealize(w: World, n: string) {
    w.phase.Realizing? && (n in w.pending || Worker(n) in w.threads)
  }

  /** A direct dependency has finished, is known, and on a fresh run exists. */
  lemma DependencyReady(plan: Plan, naming: Naming, g: Graph, jobs: Option<int>, s: State, events: seq<Event>, w: World,
                        n: string, m: string)
    requires Reaches(plan, naming, g, jobs, s, events, w) && AboutToRealize(w, n)
    requires n in g.nodes && (n, m) in EdgesOf(plan)
    ensures m in w.up && Left(plan, naming, Attached(w), m) <= w.keys
    ensures !w.resume ==> Creates(RealizeOf(plan, naming, m)) <= w.live
  {
    PlanIsWellFormed(plan, naming, g, jobs);
    PlanKeysFit(plan, naming, g, jobs);
    EdgeInGraph(plan, g, n, m);
    var c := ConfigOf(plan, naming, g, jobs);
    EveryNodeHooked(plan, naming, g, jobs, m);
    DirectDependencyReady(c, g, s, events, w, n, m);
  }

  lemma EveryNodeHooked(plan: Plan, naming: Naming, g: Graph, jobs: Option<int>, m: string)
    requires g.Valid() && m in g.deps
    ensures var c := ConfigOf(plan, naming, g, jobs);
            && m in c.realize && m in c.reattach
            && c.realize[m] == RealizeOf(plan, naming, m) && c.reattach[m] == ReattachOf(plan, m)
  {
  }

  lemma DirectDependencyReady(c: Config, g: Graph, s: State, events: seq<Event>, w: World, n: string, m: string)
    requires Follows(c, g) && KeysFit(c) && FreshState(s) && After(c, s, events) == Some(w) && AboutToRealize(w, n)
    requires n in g.deps && m in g.deps[n] && m in g.deps && m in c.realize && m in c.reattach
    ensures m in w.up && (if m in Attached(w) then Puts(c.reattach[m]) else Puts(c.realize[m])) <= w.keys
    ensures !w.resume ==> Creates(c.realize[m]) <= w.live
  {
    DependenciesExist(c, g, s, events, [n, m]);
  }

  lemma PoolReady(plan: Plan, naming: Naming, g: Graph, jobs: Option<int>, s: State, events: seq<Event>, w: World,
                  n: string, pool: string)
    requires Reaches(plan, naming, g, jobs, s, events, w) && AboutToRealize(w, n)
    requires n in g.nodes && (n, PoolNode(pool)) in EdgesOf(plan) && pool in plan.pools && !w.resume
    ensures naming(Slot(false, Pool, pool, 0)) in w.live
  {
    DependencyReady(plan, naming, g, jobs, s, events, w, n, PoolNode(pool));
    HooksOf(plan, naming, PoolNode(pool), PoolDecl(pool));
    PoolCreates(naming, pool);
  }

  /** Every pool of a VM exists when its bring-up starts in a fresh run. */
  lemma VmPoolsExist(plan: Plan, naming: Naming, g: Graph, jobs: Option<int>, s: State, events: seq<Event>, w: World,
      v: Vm)
    requires Reaches(plan, naming, g, jobs, s, events, w) && v in plan.vms && AboutToRealize(w, VmNode(v.name)) &&
             !w.resume
    ensures naming(Slot(false, Pool, v.osPool, 0)) in w.live
    ensures forall i | 0 <= i < |v.dataPools| :: naming(Slot(false, Pool, v.dataPools[i], 0)) in w.live
  {
    DeclaredNodes(plan);
    DiskEdgesIn(plan, v);
    assert Minted(plan, v);
    PoolReady(plan, naming, g, jobs, s, events, w, VmNode(v.name), v.osPool);
    forall i | 0 <= i < |v.dataPools| ensures naming(Slot(false, Pool, v.dataPools[i], 0)) in w.live {
      PoolReady(plan, naming, g, jobs, s, events, w, VmNode(v.name), v.dataPools[i]);
    }
  }

  /** For each NIC of a VM about to come up: on a fresh run its switch and network exist; and
      if the switch carries a sidecar, this process has seen it serving. */
  lemma VmNetworksServe(plan: Plan, naming: Naming, g: Graph, jobs: Option<int>, s: State, events: seq<Event>, w: World,
                        v: Vm, nic: Nic)
    requires Reaches(plan, naming, g, jobs, s, events, w) && v in plan.vms && AboutToRealize(w, VmNode(v.name)) &&
             nic in v.nics
    ensures !w.resume ==>
              && naming(Slot(false, Fabric, nic.switch, 0)) in w.live
              && naming(Slot(false, Segment, nic.network, 0)) in w.live
    ensures forall sw | sw in plan.switches && sw.name == nic.switch && sw.NeedsSidecar() ::
              && SidecarNode(sw.name) in w.up && ServingKey(sw.name) in w.keys
              && (!w.resume ==> naming(Slot(false, SidecarVm, sw.name, 0)) in w.live)
  {
    DeclaredNodes(plan);
    var sw := NicSwitch(plan, v, nic);
    NetworkReady(plan, naming, g, jobs, s, events, w, VmNode(v.name), sw, nic.network);
    if sw.NeedsSidecar() {
      SidecarServes(plan, naming, g, jobs, s, events, w, VmNode(v.name), sw);
    }
  }

  lemma NetworkReady(plan: Plan, naming: Naming, g: Graph, jobs: Option<int>, s: State, events: seq<Event>, w: World,
                     n: string, sw: Switch, network: string)
    requires Reaches(plan, naming, g, jobs, s, events, w) && AboutToRealize(w, n) && n in g.nodes
    requires (n, NetworkNode(sw.name)) in EdgesOf(plan) && sw in plan.switches && network in sw.networks
    ensures !w.resume ==>
              && naming(Slot(false, Fabric, sw.name, 0)) in w.live
              && naming(Slot(false, Segment, network, 0)) in w.live
  {
    DependencyReady(plan, naming, g, jobs, s, events, w, n, NetworkNode(sw.name));
    HooksOf(plan, naming, NetworkNode(sw.name), FabricDecl(sw));
    FabricCreates(naming, sw);
  }

  lemma SidecarServes(plan: Plan, naming: Naming, g: Graph, jobs: Option<int>, s: State, events: seq<Event>, w: World,
                      n: string, sw: Switch)
    requires Reaches(plan, naming, g, jobs, s, events, w) && AboutToRealize(w, n) && n in g.nodes
    requires (n, SidecarNode(sw.name)) in EdgesOf(plan) && sw in plan.switches && sw.NeedsSidecar() && sw.networks != []
    ensures SidecarNode(sw.name) in w.up && ServingKey(sw.name) in w.keys
    ensures !w.resume ==> naming(Slot(false, SidecarVm, sw.name, 0)) in w.live
  {
    DependencyReady(plan, naming, g, jobs, s, events, w, n, SidecarNode(sw.name));
    assert plan.pools != [];
    SidecarNodePuts(plan, naming, sw);
    HooksOf(plan, naming, SidecarNode(sw.name), SidecarDecl(sw));
    SidecarCreates(naming, plan.pools[0], sw);
  }

  /** Every `.needs()` target has finished realizing in this process. */
  lemma NeededNodesAreUp(plan: Plan, naming: Naming, g: Graph, jobs: Option<int>, s: State, events: seq<Event>,
                         w: World, n: string, m: string)
    requires Reaches(plan, naming, g, jobs, s, events, w) && AboutToRealize(w, n)
    requires n in g.nodes && (n, m) in plan.explicitEdges
    ensures m in w.up
  {
    DependencyReady(plan, naming, g, jobs, s, events, w, n, m);
  }
}
