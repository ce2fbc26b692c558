/** A plan's own runs: its hooks on its frozen graph meet every condition of the whole-run
    results, so those results hold for every plan.
 */
module PlanRuns {
  import opened Wrappers
  import opened Names
  import opened Actions
  import opened RunSystem
  import opened RunOrder
  import opened Relation
  import opened BuildGraph
  import opened Plans
  import opened Hooks
  import opened HookSafety

  // ---- Accepted plans -------------------------------------------------------------------

  /** Registration keeps names unique; handles were minted by the plan's own hypervisor. */
  ghost predicate Registered(plan: Plan) {
    && (forall s, t | s in plan.switches && t in plan.switches && s.name == t.name :: s == t)
    && (forall s, t, n | s in plan.switches && t in plan.switches && n in s.networks && n in t.networks :: s == t)
    && (forall v, u | v in plan.vms && u in plan.vms && v.name == u.name :: v == u)
    && (forall v | v in plan.vms :: Minted(plan, v))
  }

  ghost predicate Minted(plan: Plan, v: Vm) {
    && v.osPool in plan.pools
    && (forall i | 0 <= i < |v.dataPools| :: v.dataPools[i] in plan.pools)
    && (forall nic | nic in v.nics ::
          exists s :: s in plan.switches && s.name == nic.switch && nic.network in s.networks)
  }

  // ---- The configuration of a plan ----------------------------------------------------------

  /** The declaration a node stands for. */
  ghost predicate StandsFor(plan: Plan, n: string, d: Decl) {
    Declares(plan, d) && NodeOf(d) == n
  }

  ghost function RealizeOf(plan: Plan, naming: Naming, n: string): Program {
    if d :| StandsFor(plan, n, d) then RealizeHook(plan, naming, d) else []
  }

  ghost function ReattachOf(plan: Plan, n: string): Program {
    if d :| StandsFor(plan, n, d) then ReattachHook(plan, d) else []
  }

  ghost function MaterializeOf(plan: Plan, naming: Naming, n: string): Program {
    if d :| StandsFor(plan, n, d) then MaterializeHook(naming, d) else []
  }

  ghost function WarmOf(plan: Plan, n: string): Program {
    if d :| StandsFor(plan, n, d) then WarmHook(d) else []
  }

  ghost function LevelOf(waves: seq<seq<string>>, n: string): nat {
    if i: nat :| i < |waves| && n in waves[i] then i else 0
  }

  /** Backend names of the run phase, and the node that brings each up. */
  ghost function RunNames(plan: Plan, naming: Naming, nodes: set<string>): set<string> {
    set n, x | n in nodes && x in Mentions(RealizeOf(plan, naming, n)) :: x
  }

  ghost function NodeBehind(plan: Plan, naming: Naming, nodes: set<string>, x: string): string {
    if n :| n in nodes && x in Mentions(RealizeOf(plan, naming, n)) then n else ""
  }

  ghost function RanksOf(plan: Plan, naming: Naming, waves: seq<seq<string>>, nodes: set<string>): map<string, nat> {
    map x | x in RunNames(plan, naming, nodes) :: LevelOf(waves, NodeBehind(plan, naming, nodes, x))
  }

  /** The four hooks of every node. */
  datatype NodeHooks = NodeHooks(
    materialize: string -> Program,
    warm: string -> Program,
    realize: string -> Program,
    reattach: string -> Program)

  ghost function HooksFor(plan: Plan, naming: Naming): NodeHooks {
    NodeHooks(
      n => MaterializeOf(plan, naming, n),
      n => WarmOf(plan, n),
      n => RealizeOf(plan, naming, n),
      n => ReattachOf(plan, n))
  }

  ghost function ConfigWith(
    g: Graph, hooks: NodeHooks, up: Program, down: Program, rank: map<string, nat>, jobs: Option<int>): Config
  {
    var nodes := Elems(g.nodes);
    Config(
      g.contentWaves,
      g.waves,
      map n | n in nodes :: hooks.materialize(n),
      map n | n in nodes :: hooks.warm(n),
      map n | n in nodes :: hooks.realize(n),
      map n | n in nodes :: hooks.reattach(n),
      up,
      down,
      map n | n in nodes :: LevelOf(g.waves, n),
      rank,
      jobs)
  }

  ghost function ConfigOf(plan: Plan, naming: Naming, g: Graph, jobs: Option<int>): Config {
    ConfigWith(g, HooksFor(plan, naming), InfraUp(naming, plan.buildSwitch), InfraGone(naming, plan.buildSwitch),
               RanksOf(plan, naming, g.waves, Elems(g.nodes)), jobs)
  }

  // ---- Nodes and declarations -------------------------------------------------------------------

  lemma StandsForOne(plan: Plan, n: string, d: Decl, e: Decl)
    requires Registered(plan) && StandsFor(plan, n, d) && StandsFor(plan, n, e)
    ensures d == e
  {
    NodeNamesApart(NameOf(d), NameOf(e));
    NodeNamesApart(NameOf(e), NameOf(d));
  }

  function NameOf(d: Decl): string {
    match d
    case PoolDecl(p) => p
    case FabricDecl(s) => s.name
    case SidecarDecl(s) => s.name
    case VmDecl(v) => v.name
  }

  lemma HasDecl(plan: Plan, n: string)
    requires n in NodesOf(plan) && !Homeless(plan)
    ensures exists d :: StandsFor(plan, n, d)
  {
    if n in PoolNodes(plan.pools) {
      var i :| 0 <= i < |plan.pools| && PoolNodes(plan.pools)[i] == n;
      assert StandsFor(plan, n, PoolDecl(plan.pools[i]));
    } else if n in SwitchNodes(plan.switches) {
      SwitchNodesOnly(plan.switches, n);
      var s :| s in plan.switches && (n == NetworkNode(s.name) || (s.NeedsSidecar() && n == SidecarNode(s.name)));
      if n == NetworkNode(s.name) {
        assert StandsFor(plan, n, FabricDecl(s));
      } else {
        assert StandsFor(plan, n, SidecarDecl(s));
      }
    } else {
      assert n in VmNodes(plan.vms);
      var i :| 0 <= i < |plan.vms| && VmNodes(plan.vms)[i] == n;
      assert StandsFor(plan, n, VmDecl(plan.vms[i]));
    }
  }

  /** A node's hooks are those of its declaration. */
  lemma HooksOf(plan: Plan, naming: Naming, n: string, d: Decl)
    requires Registered(plan) && StandsFor(plan, n, d)
    ensures RealizeOf(plan, naming, n) == RealizeHook(plan, naming, d)
    ensures ReattachOf(plan, n) == ReattachHook(plan, d)
    ensures MaterializeOf(plan, naming, n) == MaterializeHook(naming, d)
    ensures WarmOf(plan, n) == WarmHook(d)
  {
    forall e | StandsFor(plan, n, e) ensures e == d {
      StandsForOne(plan, n, d, e);
    }
  }

  // ---- Soundness of every hook --------------------------------------------------------------------

  lemma OwningSwitch(plan: Plan, s: Switch, network: string)
    requires Registered(plan) && s in plan.switches && network in s.networks
    ensures SwitchOwning(plan.switches, network) == Some(s)
  {
  }

  lemma RealizeSound(plan: Plan, naming: Naming, d: Decl)
    requires Registered(plan) && Declares(plan, d)
    ensures Sound(plan, naming, Realize(NodeOf(d)), RealizeHook(plan, naming, d))
  {
    match d
    case PoolDecl(p) => PoolUpSound(plan, naming, p);
    case FabricDecl(s) =>
      var owner := Realize(NetworkNode(s.name));
      assert SwitchUsed(plan, false, s);
      assert OwnedBy(plan, owner, Slot(false, Fabric, s.name, 0));
      forall n | n in s.networks ensures OwnedBy(plan, owner, Slot(false, Segment, n, 0)) {
        OwningSwitch(plan, s, n);
      }
      FabricUpSound(plan, naming, owner, false, s);
    case SidecarDecl(s) => SidecarRealizeSound(plan, naming, plan.pools[0], s);
    case VmDecl(v) => MachineRealizeSound(plan, naming, v);
  }

  lemma {:induction false} SegmentsAgainLocal(networks: seq<string>)
    ensures Local(SegmentsAgain(networks))
  {
    if networks != [] {
      SegmentsAgainLocal(networks[1..]);
    }
  }

  lemma ReattachLocal(plan: Plan, d: Decl)
    ensures Local(ReattachHook(plan, d)) && Local(WarmHook(d))
  {
    match d
    case PoolDecl(p) =>
    case FabricDecl(s) => SegmentsAgainLocal(s.networks);
    case SidecarDecl(s) =>
    case VmDecl(v) =>
      MachineReadyLocal(plan, v);
      BuiltPutsLocal(v, 0);
  }

  lemma MaterializeSound(plan: Plan, naming: Naming, d: Decl)
    requires Declares(plan, d)
    ensures SoundBuild(plan, naming, Materialize(NodeOf(d)), MaterializeHook(naming, d))
  {
    if d.VmDecl? {
      MachineBuildSound(plan, naming, d.vm);
    } else {
      LocalBasic(plan, naming, Materialize(NodeOf(d)), []);
    }
  }

  /** Everything about the hooks of one node. */
  ghost predicate NodeSound(plan: Plan, naming: Naming, n: string) {
    && Sound(plan, naming, Realize(n), RealizeOf(plan, naming, n))
    && SoundBuild(plan, naming, Materialize(n), MaterializeOf(plan, naming, n))
    && Local(ReattachOf(plan, n)) && Local(WarmOf(plan, n))
  }

  lemma EveryNodeSound(plan: Plan, naming: Naming, n: string)
    requires Registered(plan) && !Homeless(plan) && n in NodesOf(plan)
    ensures NodeSound(plan, naming, n)
  {
    HasDecl(plan, n);
    var d :| StandsFor(plan, n, d);
    HooksOf(plan, naming, n, d);
    RealizeSound(plan, naming, d);
    MaterializeSound(plan, naming, d);
    ReattachLocal(plan, d);
  }

  // ---- The configuration is well formed ---------------------------------------------------------------

  lemma LevelIs(d: Deps, waves: seq<seq<string>>, i: nat, n: string)
    requires Layered(d, waves) && i < |waves| && n in waves[i]
    ensures LevelOf(waves, n) == i
  {
    WavesDisjoint(d, waves, i, LevelOf(waves, n), n);
  }

  lemma EachInAWave(d: Deps, waves: seq<seq<string>>, n: string)
    requires IsWaves(d, waves) && n in d
    ensures LevelOf(waves, n) < |waves| && n in waves[LevelOf(waves, n)]
  {
    SettledMember(waves, n);
  }

  lemma WavesHoldNodes(d: Deps, waves: seq<seq<string>>, i: nat, n: string)
    requires IsWaves(d, waves) && i < |waves| && n in waves[i]
    ensures n in d
  {
    SettledMember(waves, n);
  }

  lemma LevelsWith(g: Graph, hooks: NodeHooks, up: Program, down: Program, rank: map<string, nat>, jobs: Option<int>)
    requires IsWaves(g.deps, g.waves) && g.deps.Keys == Elems(g.nodes)
    ensures LevelsFit(ConfigWith(g, hooks, up, down, rank, jobs))
  {
    var c := ConfigWith(g, hooks, up, down, rank, jobs);
    forall i, n | 0 <= i < |g.waves| && n in g.waves[i] ensures n in c.level && c.level[n] == i {
      WavesHoldNodes(g.deps, g.waves, i, n);
      LevelIs(g.deps, g.waves, i, n);
    }
    forall n | n in c.level ensures c.level[n] < |g.waves| && n in g.waves[c.level[n]] {
      EachInAWave(g.deps, g.waves, n);
    }
  }

  lemma PlanLevels(plan: Plan, naming: Naming, g: Graph, jobs: Option<int>)
    requires g.Valid()
    ensures LevelsFit(ConfigOf(plan, naming, g, jobs))
  {
    assert g.deps.Keys == Elems(g.nodes);
    LevelsWith(g, HooksFor(plan, naming), InfraUp(naming, plan.buildSwitch), InfraGone(naming, plan.buildSwitch),
               RanksOf(plan, naming, g.waves, Elems(g.nodes)), jobs);
  }

  lemma LocalHooks(plan: Plan, naming: Naming, n: string)
    requires NodeSound(plan, naming, n)
    ensures Local(ReattachOf(plan, n)) && Local(WarmOf(plan, n))
  {
  }

  lemma ContentWavesHoldNodes(g: Graph)
    requires g.Valid()
    ensures forall i, n | 0 <= i < |g.contentWaves| && n in g.contentWaves[i] :: n in Elems(g.nodes)
  {
    var d := ContentDepsOf(Elems(g.nodes), g.edges);
    assert d.Keys == Elems(g.nodes) && IsWaves(d, g.contentWaves);
    forall i, n | 0 <= i < |g.contentWaves| && n in g.contentWaves[i] ensures n in Elems(g.nodes) {
      WavesHoldNodes(d, g.contentWaves, i, n);
    }
  }

  lemma PlanHooksKnown(plan: Plan, naming: Naming, g: Graph, jobs: Option<int>)
    requires AllSound(plan, naming, Elems(g.nodes))
    requires forall i, n | 0 <= i < |g.contentWaves| && n in g.contentWaves[i] :: n in Elems(g.nodes)
    ensures HooksKnown(ConfigOf(plan, naming, g, jobs))
  {
    var c := ConfigOf(plan, naming, g, jobs);
    forall n | n in Elems(g.nodes) ensures Local(ReattachOf(plan, n)) && Local(WarmOf(plan, n)) {
      LocalHooks(plan, naming, n);
    }
  }

  ghost predicate AllSound(plan: Plan, naming: Naming, nodes: set<string>) {
    forall n | n in nodes :: NodeSound(plan, naming, n)
  }

  lemma HooksApart(plan: Plan, naming: Naming, m: string, n: string)
    requires NamesApart(plan, naming) && NodeSound(plan, naming, m) && NodeSound(plan, naming, n)
    ensures m != n ==> Mentions(RealizeOf(plan, naming, m)) !! Mentions(RealizeOf(plan, naming, n))
    ensures m != n ==> Mentions(MaterializeOf(plan, naming, m)) !! Mentions(MaterializeOf(plan, naming, n))
    ensures Mentions(MaterializeOf(plan, naming, m)) !! Mentions(RealizeOf(plan, naming, n))
    ensures Mentions(MaterializeOf(plan, naming, m)) !! Mentions(InfraUp(naming, plan.buildSwitch))
    ensures Mentions(RealizeOf(plan, naming, m)) !! Mentions(InfraUp(naming, plan.buildSwitch))
  {
    var rm, rn := RealizeOf(plan, naming, m), RealizeOf(plan, naming, n);
    var bm, bn := MaterializeOf(plan, naming, m), MaterializeOf(plan, naming, n);
    var infra := InfraUp(naming, plan.buildSwitch);
    InfraUpSound(plan, naming);
    OwnersApart(plan, naming, Realize(m), rm, Realize(n), rn);
    OwnersApart(plan, naming, Materialize(m), bm, Materialize(n), bn);
    OwnersApart(plan, naming, Materialize(m), bm, Realize(n), rn);
    OwnersApart(plan, naming, Materialize(m), bm, Infra, infra);
    OwnersApart(plan, naming, Realize(m), rm, Infra, infra);
  }

  lemma RankIsLevel(plan: Plan, naming: Naming, nodes: set<string>, n: string, x: string)
    requires NamesApart(plan, naming) && AllSound(plan, naming, nodes) && n in nodes &&
             x in Mentions(RealizeOf(plan, naming, n))
    ensures x in RunNames(plan, naming, nodes) && NodeBehind(plan, naming, nodes, x) == n
  {
    var m := NodeBehind(plan, naming, nodes, x);
    assert m in nodes && x in Mentions(RealizeOf(plan, naming, m));
    HooksApart(plan, naming, m, n);
  }

  lemma BuildNamesUnranked(plan: Plan, naming: Naming, nodes: set<string>, x: string)
    requires NamesApart(plan, naming) && AllSound(plan, naming, nodes) && x in RunNames(plan, naming, nodes)
    ensures x !in Mentions(InfraUp(naming, plan.buildSwitch))
    ensures forall m | m in nodes :: x !in Mentions(MaterializeOf(plan, naming, m))
  {
    var n :| n in nodes && x in Mentions(RealizeOf(plan, naming, n));
    HooksApart(plan, naming, n, n);
    forall m | m in nodes ensures x !in Mentions(MaterializeOf(plan, naming, m)) {
      HooksApart(plan, naming, m, n);
    }
  }

  lemma PlanRanks(plan: Plan, naming: Naming, g: Graph, jobs: Option<int>)
    requires NamesApart(plan, naming) && AllSound(plan, naming, Elems(g.nodes))
    ensures RanksFit(ConfigOf(plan, naming, g, jobs))
  {
    var c, nodes := ConfigOf(plan, naming, g, jobs), Elems(g.nodes);
    forall n, x | n in nodes && x in Mentions(RealizeOf(plan, naming, n))
      ensures x in c.rank && c.rank[x] == c.level[n]
    {
      RankIsLevel(plan, naming, nodes, n, x);
    }
    forall x | x in RunNames(plan, naming, nodes)
      ensures x !in Mentions(c.infra) && forall m | m in nodes :: x !in Mentions(MaterializeOf(plan, naming, m))
    {
      BuildNamesUnranked(plan, naming, nodes, x);
    }
  }

  lemma InfraNotEmpty(naming: Naming, s: Switch)
    ensures InfraUp(naming, s) != []
  {
    assert |Bring(naming, BUILD_POOL)| == 3;
  }

  lemma PlanHooksSafe(plan: Plan, naming: Naming, g: Graph, jobs: Option<int>)
    requires AllSound(plan, naming, Elems(g.nodes))
    ensures HooksSafe(ConfigOf(plan, naming, g, jobs))
  {
    InfraUpSound(plan, naming);
    InfraGoneSound(plan, naming, plan.buildSwitch);
    InfraNotEmpty(naming, plan.buildSwitch);
    var c := ConfigOf(plan, naming, g, jobs);
    forall n | n in Elems(g.nodes)
      ensures Disciplined(c.materialize[n]) && NoStamps(c.materialize[n]) && Disciplined(c.realize[n]) &&
              NoStamps(c.realize[n])
    {
      assert NodeSound(plan, naming, n);
    }
  }

  lemma PlanHooksSeparate(plan: Plan, naming: Naming, g: Graph, jobs: Option<int>)
    requires NamesApart(plan, naming) && AllSound(plan, naming, Elems(g.nodes))
    ensures HooksSeparate(ConfigOf(plan, naming, g, jobs))
  {
    InfraGoneSound(plan, naming, plan.buildSwitch);
    var c := ConfigOf(plan, naming, g, jobs);
    forall m, n | m in Elems(g.nodes) && n in Elems(g.nodes)
      ensures m != n ==> Mentions(c.realize[m]) !! Mentions(c.realize[n])
      ensures m != n ==> Mentions(c.materialize[m]) !! Mentions(c.materialize[n])
      ensures Mentions(c.materialize[m]) !! Mentions(c.infra)
    {
      HooksApart(plan, naming, m, n);
    }
  }

  /** A plan's own hooks, on its frozen graph, make a well-formed configuration: everything
      proved about runs holds of the runs of every plan. */
  lemma PlanIsWellFormed(plan: Plan, naming: Naming, g: Graph, jobs: Option<int>)
    requires Registered(plan) && NamesApart(plan, naming) && Freezes(plan, g)
    ensures Follows(ConfigOf(plan, naming, g, jobs), g)
  {
    forall n | n in Elems(g.nodes) ensures NodeSound(plan, naming, n) {
      EveryNodeSound(plan, naming, n);
    }
    PlanLevels(plan, naming, g, jobs);
    ContentWavesHoldNodes(g);
    PlanHooksKnown(plan, naming, g, jobs);
    PlanRanks(plan, naming, g, jobs);
    PlanHooksSafe(plan, naming, g, jobs);
    PlanHooksSeparate(plan, naming, g, jobs);
  }
}
