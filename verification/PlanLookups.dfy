/** Lookup safety of a plan's own runs: exactly when every dictionary lookup of its hooks is
    defined, and what a VM finds in place when its bring-up starts.
 */
module PlanLookups {
  import opened Wrappers
  import opened Names
  import opened Ledger
  import opened Actions
  import opened RunSystem
  import opened RunSafety
  import opened RunLookups
  import opened Relation
  import opened BuildGraph
  import opened Plans
  import opened Hooks
  import opened HookSafety
  import opened HookKeys
  import opened PlanRuns

  // ---- The build walk ---------------------------------------------------------------------

  lemma VmMaterializeFits(plan: Plan, naming: Naming, v: Vm)
    requires NoDrops(MachineBuild(naming, v))
    ensures Puts(BuiltPuts(v, 0)) <= Puts(MachineBuild(naming, v))
    ensures Defined(MachineBuild(naming, v), {}) && Defined(BuiltPuts(v, 0), {})
    ensures Drops(InfraGone(naming, plan.buildSwitch)) !! Puts(BuiltPuts(v, 0))
  {
    MachineBuildKeys(naming, v);
    BuiltPutsAre(v, 0);
    BuiltPutsLocal(v, 0);
    LooksSuffice(MachineBuild(naming, v), {});
    LooksSuffice(BuiltPuts(v, 0), {});
    InfraDrops(naming, plan.buildSwitch);
  }

  lemma NodeMaterializeFits(plan: Plan, naming: Naming, n: string, d: Decl)
    requires Registered(plan) && StandsFor(plan, n, d)
    requires NoDrops(MaterializeOf(plan, naming, n))
    ensures Puts(WarmOf(plan, n)) <= Puts(MaterializeOf(plan, naming, n))
    ensures Defined(MaterializeOf(plan, naming, n), {}) && Defined(WarmOf(plan, n), {})
    ensures Drops(InfraGone(naming, plan.buildSwitch)) !! Puts(WarmOf(plan, n))
  {
    HooksOf(plan, naming, n, d);
    if d.VmDecl? {
      VmMaterializeFits(plan, naming, d.vm);
    }
  }

  lemma NodeKeysFit(plan: Plan, naming: Naming, n: string)
    requires Registered(plan) && !Homeless(plan) && n in NodesOf(plan)
    ensures Puts(WarmOf(plan, n)) <= Puts(MaterializeOf(plan, naming, n))
    ensures Defined(MaterializeOf(plan, naming, n), {}) && Defined(WarmOf(plan, n), {})
    ensures Drops(InfraGone(naming, plan.buildSwitch)) !! Puts(WarmOf(plan, n))
    ensures NoDrops(MaterializeOf(plan, naming, n)) && Constructive(RealizeOf(plan, naming, n))
  {
    EveryNodeSound(plan, naming, n);
    HasDecl(plan, n);
    var d :| StandsFor(plan, n, d);
    NodeMaterializeFits(plan, naming, n, d);
  }

  lemma InfraKeysFit(plan: Plan, naming: Naming)
    ensures NoDrops(InfraUp(naming, plan.buildSwitch)) && Defined(InfraUp(naming, plan.buildSwitch), {})
    ensures OnlyRemoves(InfraGone(naming, plan.buildSwitch))
  {
    InfraUpSound(plan, naming);
    InfraDefined(naming, plan.buildSwitch);
    InfraGoneSound(plan, naming, plan.buildSwitch);
  }

  lemma PlanKeysFit(plan: Plan, naming: Naming, g: Graph, jobs: Option<int>)
    requires Registered(plan) && Freezes(plan, g)
    ensures KeysFit(ConfigOf(plan, naming, g, jobs))
  {
    var c := ConfigOf(plan, naming, g, jobs);
    forall n | n in Elems(g.nodes) ensures MaterializeFits(c, n) && Constructive(c.realize[n]) {
      NodeKeysFit(plan, naming, n);
    }
    InfraKeysFit(plan, naming);
  }

  // ---- The realize walk ------------------------------------------------------------------------

  /** A process that reattaches to a NAT switch's fabric must also reattach to its sidecar
      `n`: reattaching does not rebuild the uplink entry a new sidecar would look up. */
  ghost predicate ResumeSafe(plan: Plan, seed: set<string>, n: string) {
    forall s | s in plan.switches && n == SidecarNode(s.name) && s.Nat() && s.networks != [] &&
        NetworkNode(s.name) in seed ::
      n in seed
  }

  /** What the realize hook of `m` leaves behind in this process. */
  ghost function Left(plan: Plan, naming: Naming, seed: set<string>, m: string): set<Key> {
    if m in seed then Puts(ReattachOf(plan, m)) else Puts(RealizeOf(plan, naming, m))
  }

  /** Everything the direct dependencies of `n` leave behind is known. */
  ghost predicate DepsKnown(plan: Plan, naming: Naming, seed: set<string>, keys: set<Key>, n: string) {
    forall m | (n, m) in EdgesOf(plan) :: Left(plan, naming, seed, m) <= keys
  }

  lemma ProvidedWith(
    g: Graph, hooks: NodeHooks, up: Program, down: Program, rank: map<string, nat>, jobs: Option<int>,
        seed: set<string>, m: string)
    requires m in Elems(g.nodes)
    ensures var c := ConfigWith(g, hooks, up, down, rank, jobs);
            && m in c.level && c.level[m] == LevelOf(g.waves, m)
            && Provided(c, seed, m) == if m in seed then Puts(hooks.reattach(m)) else Puts(hooks.realize(m))
  {
  }

  lemma ProvidedIsLeft(plan: Plan, naming: Naming, g: Graph, jobs: Option<int>, seed: set<string>, m: string)
    requires m in Elems(g.nodes)
    ensures var c := ConfigOf(plan, naming, g, jobs);
            m in c.level && c.level[m] == LevelOf(g.waves, m) && Provided(c, seed, m) == Left(plan, naming, seed, m)
  {
    ProvidedWith(g, HooksFor(plan, naming), InfraUp(naming, plan.buildSwitch), InfraGone(naming, plan.buildSwitch),
                 RanksOf(plan, naming, g.waves, Elems(g.nodes)), jobs, seed, m);
  }

  lemma ProvidedBelow(c: Config, seed: set<string>, level: nat, keys: set<Key>, m: string)
    requires Suffices(c, seed, level, keys) && m in c.level && c.level[m] < level
    ensures Provided(c, seed, m) <= keys
  {
  }

  lemma DependencyLeft(plan: Plan, naming: Naming, g: Graph, jobs: Option<int>, seed: set<string>, keys: set<Key>,
                       n: string, m: string)
    requires m in Elems(g.nodes) && LevelOf(g.waves, m) < LevelOf(g.waves, n)
    requires Suffices(ConfigOf(plan, naming, g, jobs), seed, LevelOf(g.waves, n), keys)
    ensures Left(plan, naming, seed, m) <= keys
  {
    ProvidedIsLeft(plan, naming, g, jobs, seed, m);
    ProvidedBelow(ConfigOf(plan, naming, g, jobs), seed, LevelOf(g.waves, n), keys, m);
  }

  lemma DependencyLower(plan: Plan, g: Graph, n: string, m: string)
    requires Freezes(plan, g) && n in g.nodes && (n, m) in EdgesOf(plan)
    ensures m in Elems(g.nodes) && LevelOf(g.waves, m) < LevelOf(g.waves, n)
  {
    EdgeInGraph(plan, g, n, m);
    LowerLevel(g, n, m);
  }

  lemma DependenciesKnown(plan: Plan, naming: Naming, g: Graph, jobs: Option<int>, seed: set<string>, keys: set<Key>,
      n: string)
    requires Freezes(plan, g) && n in g.nodes
    requires Suffices(ConfigOf(plan, naming, g, jobs), seed, LevelOf(g.waves, n), keys)
    ensures DepsKnown(plan, naming, seed, keys, n)
  {
    forall m | (n, m) in EdgesOf(plan) ensures Left(plan, naming, seed, m) <= keys {
      DependencyLower(plan, g, n, m);
      DependencyLeft(plan, naming, g, jobs, seed, keys, n, m);
    }
  }

  lemma LowerLevel(g: Graph, n: string, m: string)
    requires g.Valid() && n in g.deps && m in g.deps[n]
    ensures m in Elems(g.nodes) && LevelOf(g.waves, m) < LevelOf(g.waves, n)
  {
    EachInAWave(g.deps, g.waves, n);
    var j := DependencyEarlier(g.deps, g.waves, LevelOf(g.waves, n), n, m);
    LevelIs(g.deps, g.waves, j, m);
  }

  lemma {:induction false} SegmentsAgainLook(networks: seq<string>)
    ensures Looks(SegmentsAgain(networks), {})
  {
    if networks != [] {
      SegmentsAgainLook(networks[1..]);
    }
  }

  /** What a pool, fabric or sidecar leaves behind, created or reattached. */
  lemma PoolPuts(plan: Plan, naming: Naming, pool: string)
    requires Registered(plan) && pool in plan.pools
    ensures PoolKey(pool) in Puts(RealizeOf(plan, naming, PoolNode(pool)))
    ensures PoolKey(pool) in Puts(ReattachOf(plan, PoolNode(pool)))
  {
    HooksOf(plan, naming, PoolNode(pool), PoolDecl(pool));
    var up, again := PoolUp(naming, pool), [Put(PoolKey(pool))];
    assert up[3] == Put(PoolKey(pool)) && up[3] in up && again[0] in again;
  }

  lemma SwitchPuts(plan: Plan, naming: Naming, s: Switch)
    requires Registered(plan) && s in plan.switches
    ensures forall n | n in s.networks ::
              NetworkKey(n) in Puts(RealizeOf(plan, naming, NetworkNode(s.name))) &&
              NetworkKey(n) in Puts(ReattachOf(plan, NetworkNode(s.name)))
    ensures s.Nat() ==> NetworkKey(UplinkName(s.name)) in Puts(RealizeOf(plan, naming, NetworkNode(s.name)))
  {
    HooksOf(plan, naming, NetworkNode(s.name), FabricDecl(s));
    FabricPuts(naming, false, s);
  }

  lemma SidecarNodePuts(plan: Plan, naming: Naming, s: Switch)
    requires Registered(plan) && s in plan.switches && s.NeedsSidecar() && plan.pools != []
    ensures ServingKey(s.name) in Puts(RealizeOf(plan, naming, SidecarNode(s.name)))
    ensures ServingKey(s.name) in Puts(ReattachOf(plan, SidecarNode(s.name)))
    ensures s.networks != [] ==> SidecarKey(s.name) in Puts(RealizeOf(plan, naming, SidecarNode(s.name)))
    ensures SidecarKey(s.name) in Puts(ReattachOf(plan, SidecarNode(s.name)))
  {
    HooksOf(plan, naming, SidecarNode(s.name), SidecarDecl(s));
    SidecarPuts(naming, plan.pools[0], s);
  }

  lemma PoolKnown(plan: Plan, naming: Naming, seed: set<string>, keys: set<Key>, n: string, pool: string)
    requires Registered(plan) && DepsKnown(plan, naming, seed, keys, n)
    requires (n, PoolNode(pool)) in EdgesOf(plan) && pool in plan.pools
    ensures PoolKey(pool) in keys
  {
    PoolPuts(plan, naming, pool);
    assert Left(plan, naming, seed, PoolNode(pool)) <= keys;
  }

  lemma FabricKnown(plan: Plan, naming: Naming, seed: set<string>, keys: set<Key>, n: string, s: Switch)
    requires Registered(plan) && DepsKnown(plan, naming, seed, keys, n)
    requires (n, NetworkNode(s.name)) in EdgesOf(plan) && s in plan.switches
    ensures forall net | net in s.networks :: NetworkKey(net) in keys
    ensures s.Nat() && NetworkNode(s.name) !in seed ==> NetworkKey(UplinkName(s.name)) in keys
  {
    SwitchPuts(plan, naming, s);
    assert Left(plan, naming, seed, NetworkNode(s.name)) <= keys;
  }

  lemma SidecarKnown(plan: Plan, naming: Naming, seed: set<string>, keys: set<Key>, n: string, s: Switch)
    requires Registered(plan) && DepsKnown(plan, naming, seed, keys, n) && plan.pools != []
    requires (n, SidecarNode(s.name)) in EdgesOf(plan)
    requires s in plan.switches && s.NeedsSidecar() && s.networks != []
    ensures SidecarKey(s.name) in keys && ServingKey(s.name) in keys
  {
    SidecarNodePuts(plan, naming, s);
    assert Left(plan, naming, seed, SidecarNode(s.name)) <= keys;
  }

  lemma SidecarEdgesIn(plan: Plan, s: Switch)
    requires Declares(plan, SidecarDecl(s))
    ensures (SidecarNode(s.name), NetworkNode(s.name)) in EdgesOf(plan)
    ensures (SidecarNode(s.name), PoolNode(plan.pools[0])) in EdgesOf(plan)
  {
    SwitchEdgesContain(plan, plan.switches, s);
    var e := EdgesOfSwitch(plan, s);
    assert e[0] in e && e[1] in e;
  }

  lemma SidecarKeysReady(plan: Plan, naming: Naming, seed: set<string>, keys: set<Key>, s: Switch)
    requires Registered(plan) && DepsKnown(plan, naming, seed, keys, SidecarNode(s.name)) &&
             Declares(plan, SidecarDecl(s))
    requires s.Nat() && s.networks != [] ==> NetworkNode(s.name) !in seed
    ensures PoolKey(plan.pools[0]) in keys && (s.networks != [] ==> SidecarKeysKnown(s, keys))
  {
    var n := SidecarNode(s.name);
    SidecarEdgesIn(plan, s);
    PoolKnown(plan, naming, seed, keys, n, plan.pools[0]);
    FabricKnown(plan, naming, seed, keys, n, s);
  }

  lemma SidecarNodeFits(plan: Plan, naming: Naming, seed: set<string>, keys: set<Key>, s: Switch)
    requires Registered(plan) && DepsKnown(plan, naming, seed, keys, SidecarNode(s.name)) &&
             Declares(plan, SidecarDecl(s))
    requires s.Nat() && s.networks != [] ==> NetworkNode(s.name) !in seed
    ensures Defined(SidecarRealize(naming, plan.pools[0], s), keys)
  {
    SidecarKeysReady(plan, naming, seed, keys, s);
    if s.networks == [] {
      SidecarAborts(naming, plan.pools[0], s, keys);
    } else {
      assert SwitchUsed(plan, false, s);
      SidecarUpSound(plan, naming, Realize(SidecarNode(s.name)), false, s);
      SidecarDefined(naming, plan.pools[0], s, keys);
    }
  }

  lemma SidecarAborts(naming: Naming, pool: string, s: Switch, keys: set<Key>)
    requires s.networks == [] && PoolKey(pool) in keys
    ensures Defined(SidecarRealize(naming, pool, s), keys)
  {
    var p := SidecarRealize(naming, pool, s);
    assert p[0] == Get(PoolKey(pool)) && p[1..][0] == Abort;
  }

  /** Every artifact of a VM is known. */
  ghost predicate ArtifactsKnown(v: Vm, keys: set<Key>) {
    BuiltKey(v.name, None) in keys && forall i: nat | i < |v.dataPools| :: BuiltKey(v.name, Some(i)) in keys
  }

  lemma InAContentWave(g: Graph, n: string) returns (i: nat)
    requires g.Valid() && n in g.nodes
    ensures i < |g.contentWaves| && n in g.contentWaves[i]
  {
    var d := ContentDepsOf(Elems(g.nodes), g.edges);
    EachInAWave(d, g.contentWaves, n);
    i := LevelOf(g.contentWaves, n);
  }

  lemma VmWarm(plan: Plan, naming: Naming, v: Vm, keys: set<Key>)
    requires Registered(plan) && v in plan.vms && Puts(WarmOf(plan, VmNode(v.name))) <= keys
    ensures ArtifactsKnown(v, keys)
  {
    HooksOf(plan, naming, VmNode(v.name), VmDecl(v));
    BuiltPutsAre(v, 0);
  }

  lemma BuiltKnown(plan: Plan, naming: Naming, g: Graph, jobs: Option<int>, keys: set<Key>, v: Vm)
    requires Registered(plan) && Freezes(plan, g) && v in plan.vms
    requires AllBuilt(ConfigOf(plan, naming, g, jobs), |g.contentWaves|, keys)
    ensures ArtifactsKnown(v, keys)
  {
    DeclaredNodes(plan);
    var i := InAContentWave(g, VmNode(v.name));
    assert VmNode(v.name) in Elems(g.nodes);
    VmWarm(plan, naming, v, keys);
  }

  lemma VmEdgeIn(plan: Plan, v: Vm, e: Pair)
    requires v in plan.vms && e in EdgesOfVm(plan, v)
    ensures e in EdgesOf(plan)
  {
    VmEdgesContain(plan, plan.vms, v);
  }

  lemma DiskEdgesIn(plan: Plan, v: Vm)
    requires v in plan.vms
    ensures (VmNode(v.name), PoolNode(v.osPool)) in EdgesOf(plan)
    ensures forall i | 0 <= i < |v.dataPools| :: (VmNode(v.name), PoolNode(v.dataPools[i])) in EdgesOf(plan)
  {
    var es := EdgesOfVm(plan, v);
    assert es[0] == (VmNode(v.name), PoolNode(v.osPool)) && es[0] in es;
    VmEdgeIn(plan, v, es[0]);
    forall i | 0 <= i < |v.dataPools| ensures (VmNode(v.name), PoolNode(v.dataPools[i])) in EdgesOf(plan) {
      assert es[i + 1] == DiskEdges(v, v.dataPools)[i] && es[i + 1] in es;
      VmEdgeIn(plan, v, es[i + 1]);
    }
  }

  /** The switch a NIC's handle was minted for, and the VM's edges to it. */
  lemma NicSwitch(plan: Plan, v: Vm, nic: Nic) returns (s: Switch)
    requires Registered(plan) && v in plan.vms && nic in v.nics
    ensures s in plan.switches && s.name == nic.switch && nic.network in s.networks
    ensures SwitchOwning(plan.switches, nic.network) == Some(s)
    ensures (VmNode(v.name), NetworkNode(s.name)) in EdgesOf(plan)
    ensures s.NeedsSidecar() ==> (VmNode(v.name), SidecarNode(s.name)) in EdgesOf(plan)
  {
    assert Minted(plan, v);
    s :| s in plan.switches && s.name == nic.switch && nic.network in s.networks;
    OwningSwitch(plan, s, nic.network);
    NicEdgesContain(plan, v, v.nics, nic);
    var es := EdgesOfNic(plan, v, nic);
    assert SwitchBehind(plan.switches, nic.switch) == Some(s);
    assert es[0] in es;
    VmEdgeIn(plan, v, es[0]);
    if s.NeedsSidecar() {
      assert es[1] in es;
      VmEdgeIn(plan, v, es[1]);
    }
  }

  lemma VmDisksKnown(plan: Plan, naming: Naming, seed: set<string>, keys: set<Key>, v: Vm)
    requires Registered(plan) && DepsKnown(plan, naming, seed, keys, VmNode(v.name))
    requires v in plan.vms && ArtifactsKnown(v, keys)
    ensures DisksKnown(v, keys)
  {
    DiskEdgesIn(plan, v);
    assert Minted(plan, v);
    PoolKnown(plan, naming, seed, keys, VmNode(v.name), v.osPool);
    forall i | 0 <= i < |v.dataPools| ensures PoolKey(v.dataPools[i]) in keys {
      PoolKnown(plan, naming, seed, keys, VmNode(v.name), v.dataPools[i]);
    }
  }

  lemma NicKnown(plan: Plan, naming: Naming, seed: set<string>, keys: set<Key>, v: Vm, nic: Nic)
    requires Registered(plan) && !Homeless(plan) && DepsKnown(plan, naming, seed, keys, VmNode(v.name))
    requires v in plan.vms && nic in v.nics
    ensures NetworkKey(nic.network) in keys && Looks(LeaseWait(plan, nic), keys)
  {
    var s := NicSwitch(plan, v, nic);
    FabricKnown(plan, naming, seed, keys, VmNode(v.name), s);
    if s.NeedsSidecar() {
      SidecarKnown(plan, naming, seed, keys, VmNode(v.name), s);
    }
  }

  lemma VmNicsKnown(plan: Plan, naming: Naming, seed: set<string>, keys: set<Key>, v: Vm)
    requires Registered(plan) && !Homeless(plan) && DepsKnown(plan, naming, seed, keys, VmNode(v.name)) && v in plan.vms
    ensures NicsKnown(v, keys) && LeasesKnown(plan, v.nics, keys)
  {
    forall nic | nic in v.nics ensures NetworkKey(nic.network) in keys && Looks(LeaseWait(plan, nic), keys) {
      NicKnown(plan, naming, seed, keys, v, nic);
    }
  }

  lemma VmHookDefined(plan: Plan, naming: Naming, v: Vm, keys: set<Key>)
    requires v in plan.vms && DisksKnown(v, keys) && NicsKnown(v, keys) && LeasesKnown(plan, v.nics, keys)
    ensures Defined(MachineReady(plan, v), keys) && Defined(MachineRealize(plan, naming, v), keys)
  {
    MachineLooks(plan, naming, v, keys);
    MachineReadyLocal(plan, v);
    LooksSuffice(MachineReady(plan, v), keys);
    MachineRealizeSound(plan, naming, v);
    LooksSuffice(MachineRealize(plan, naming, v), keys);
  }

  lemma QuietHookDefined(plan: Plan, naming: Naming, n: string, d: Decl, keys: set<Key>)
    requires Registered(plan) && StandsFor(plan, n, d) && (d.PoolDecl? || d.FabricDecl?)
    ensures Defined(ReattachHook(plan, d), keys) && Defined(RealizeHook(plan, naming, d), keys)
  {
    ReattachLocal(plan, d);
    RealizeSound(plan, naming, d);
    if d.FabricDecl? {
      FabricLooks(naming, false, d.switch);
      SegmentsAgainLook(d.switch.networks);
    }
    LooksSuffice(ReattachHook(plan, d), keys);
    LooksSuffice(RealizeHook(plan, naming, d), keys);
  }

  /** The hook of a declaration only looks up what its dependencies and the build left. */
  lemma DeclFits(plan: Plan, naming: Naming, seed: set<string>, keys: set<Key>, n: string, d: Decl)
    requires Registered(plan) && !Homeless(plan) && StandsFor(plan, n, d) && ResumeSafe(plan, seed, n)
    requires DepsKnown(plan, naming, seed, keys, n) && (d.VmDecl? ==> ArtifactsKnown(d.vm, keys))
    ensures Defined(if n in seed then ReattachHook(plan, d) else RealizeHook(plan, naming, d), keys)
  {
    match d
    case SidecarDecl(s) =>
      if n in seed {
        SidecarPuts(naming, plan.pools[0], s);
        DefinedMore(SidecarAgain(s), {}, keys);
      } else {
        SidecarNodeFits(plan, naming, seed, keys, s);
      }
    case VmDecl(v) =>
      VmDisksKnown(plan, naming, seed, keys, v);
      VmNicsKnown(plan, naming, seed, keys, v);
      VmHookDefined(plan, naming, v, keys);
    case PoolDecl(_) => QuietHookDefined(plan, naming, n, d, keys);
    case FabricDecl(_) => QuietHookDefined(plan, naming, n, d, keys);
  }

  lemma DeclaredFits(plan: Plan, naming: Naming, seed: set<string>, keys: set<Key>, n: string)
    requires Registered(plan) && !Homeless(plan) && n in NodesOf(plan) && ResumeSafe(plan, seed, n)
    requires DepsKnown(plan, naming, seed, keys, n) && forall v | v in plan.vms :: ArtifactsKnown(v, keys)
    ensures Defined(if n in seed then ReattachOf(plan, n) else RealizeOf(plan, naming, n), keys)
  {
    HasDecl(plan, n);
    var d :| StandsFor(plan, n, d);
    HooksOf(plan, naming, n, d);
    DeclFits(plan, naming, seed, keys, n, d);
  }

  lemma NodeFits(plan: Plan, naming: Naming, g: Graph, jobs: Option<int>, seed: set<string>, keys: set<Key>, n: string)
    requires Registered(plan) && Freezes(plan, g) && ResumeSafe(plan, seed, n) && n in g.nodes
    requires Suffices(ConfigOf(plan, naming, g, jobs), seed, LevelOf(g.waves, n), keys)
    ensures Defined(if n in seed then ReattachOf(plan, n) else RealizeOf(plan, naming, n), keys)
  {
    DependenciesKnown(plan, naming, g, jobs, seed, keys, n);
    forall v | v in plan.vms ensures ArtifactsKnown(v, keys) {
      BuiltKnown(plan, naming, g, jobs, keys, v);
    }
    DeclaredFits(plan, naming, seed, keys, n);
  }

  /** On a fresh run, and on every resume that is safe in this sense, each realize hook only
      looks up what its dependencies left behind. */
  lemma PlanLookupsFit(plan: Plan, naming: Naming, g: Graph, jobs: Option<int>, seed: set<string>, n: string)
    requires Registered(plan) && Freezes(plan, g) && n in g.nodes && ResumeSafe(plan, seed, n)
    ensures LookupsFit(ConfigOf(plan, naming, g, jobs), seed, n)
  {
    var c := ConfigOf(plan, naming, g, jobs);
    forall keys | Suffices(c, seed, c.level[n], keys)
      ensures Defined(if n in seed then c.reattach[n] else c.realize[n], keys)
    {
      NodeFits(plan, naming, g, jobs, seed, keys, n);
    }
  }

  // ---- Every run of every plan -----------------------------------------------------------------

  /** A state some run of the plan can be in. */
  ghost predicate Reaches(plan: Plan, naming: Naming, g: Graph, jobs: Option<int>, s: State, events: seq<Event>,
      w: World) {
    && Registered(plan) && NamesApart(plan, naming) && Freezes(plan, g) && FreshState(s)
    && After(ConfigOf(plan, naming, g, jobs), s, events) == Some(w)
  }

  /** In every state of every run of every plan, what exists on the backend is recorded. */
  lemma PlanRunIsSafe(plan: Plan, naming: Naming, g: Graph, jobs: Option<int>, s: State, events: seq<Event>, w: World)
    requires Reaches(plan, naming, g, jobs, s, events, w)
    ensures w.live <= (if w.ledger.Some? then NamesOf(w.ledger.value.resources) else {})
  {
    PlanIsWellFormed(plan, naming, g, jobs);
    EveryRunIsSafe(ConfigOf(plan, naming, g, jobs), s, events);
  }

  /** Whatever a hook of a plan is about to look up is there: always while building and on
      a fresh run, and on a resume unless a NAT sidecar is created on a reattached fabric. */
  lemma PlanLookupSucceeds(plan: Plan, naming: Naming, g: Graph, jobs: Option<int>, s: State, events: seq<Event>,
      w: World, t: Tid)
    requires Reaches(plan, naming, g, jobs, s, events, w)
    requires t in w.threads && (w.threads[t].infra != [] || w.threads[t].own != []) && Head(w.threads[t]).Get?
    requires w.phase.Realizing? && t.Worker? ==> ResumeSafe(plan, Attached(w), t.node)
    ensures Head(w.threads[t]).key in w.keys
  {
    var c := ConfigOf(plan, naming, g, jobs);
    PlanIsWellFormed(plan, naming, g, jobs);
    PlanKeysFit(plan, naming, g, jobs);
    EveryRunIsSafe(c, s, events);
    assert MayRun(c, w.phase, w.pending, t);
    if w.phase.Realizing? && t.Worker? {
      WorkerInMap(c, w.phase, t.node);
      PlanLookupsFit(plan, naming, g, jobs, Attached(w), t.node);
    }
    LookupsSucceed(c, s, events, t);
  }
}
