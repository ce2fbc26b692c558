/** What a plan's run has once it is up: every declared resource, and nothing of the build
    infra but two leftover volumes.
 */
module PlanUp {
  import opened Wrappers
  import opened Names
  import opened Ledger
  import opened Actions
  import opened RunSystem
  import opened RunLookups
  import opened RunUp
  import opened BuildGraph
  import opened Plans
  import opened Hooks
  import opened HookSafety
  import opened HookEffects
  import opened PlanRuns
  import opened PlanLookups
  import opened PlanStart

  // ---- Everything declared is there ---------------------------------------------------------

  /** Once a plan's run is up, every node has completed in this process and is stamped; in a
      process that has not resumed, whatever its realize hook creates exists and is recorded. */
  lemma UpNode(plan: Plan, naming: Naming, g: Graph, jobs: Option<int>, s: State, events: seq<Event>, w: World,
               n: string)
    requires Reaches(plan, naming, g, jobs, s, events, w) && w.phase.Up? && n in NodesOf(plan)
    ensures !w.failed && w.ledger.Some? && n in w.up && n in Realized(w.ledger.value.nodes)
    ensures !w.resume ==> Creates(RealizeOf(plan, naming, n)) <= w.live * NamesOf(w.ledger.value.resources)
  {
    PlanIsWellFormed(plan, naming, g, jobs);
    PlanKeysFit(plan, naming, g, jobs);
    var c := ConfigOf(plan, naming, g, jobs);
    EveryNodeHooked(plan, naming, g, jobs, n);
    UpMeansAllRealized(c, s, events);
    UpMeansAllCreated(c, s, events, n);
  }

  /** The names a declaration's realize hook brings up. */
  ghost function NamesOfDecl(naming: Naming, d: Decl): set<string> {
    match d
    case PoolDecl(p) => {naming(Slot(false, Pool, p, 0))}
    case FabricDecl(s) => FabricNames(naming, false, s)
    case SidecarDecl(s) => if s.networks == [] then {} else SidecarNames(naming, false, s)
    case VmDecl(v) => MachineNames(naming, false, v)
  }

  lemma DeclCreates(plan: Plan, naming: Naming, d: Decl)
    requires Declares(plan, d)
    ensures Creates(RealizeHook(plan, naming, d)) == NamesOfDecl(naming, d)
  {
    match d
    case PoolDecl(p) => PoolCreates(naming, p);
    case FabricDecl(s) => FabricCreates(naming, s);
    case SidecarDecl(s) =>
      SidecarProfile(naming, plan.pools[0], s);
      if s.networks != [] {
        SidecarCreates(naming, plan.pools[0], s);
      }
    case VmDecl(v) => MachineCreates(plan, naming, v);
  }

  /** Once a fresh run of a plan is up, everything it declares exists and is recorded: its
      pools; its switches with all their networks; their sidecars; and every VM with its OS
      disk and each of its data disks. */
  lemma UpPlanExists(plan: Plan, naming: Naming, g: Graph, jobs: Option<int>, s: State, events: seq<Event>, w: World,
                     d: Decl)
    requires Reaches(plan, naming, g, jobs, s, events, w) && w.phase.Up? && !w.resume && Declares(plan, d)
    ensures w.ledger.Some? && NamesOfDecl(naming, d) <= w.live * NamesOf(w.ledger.value.resources)
  {
    DeclaredNodes(plan);
    assert NodeOf(d) in NodesOf(plan);
    UpNode(plan, naming, g, jobs, s, events, w, NodeOf(d));
    HooksOf(plan, naming, NodeOf(d), d);
    DeclCreates(plan, naming, d);
  }

  // ---- Which hook a VM's worker runs --------------------------------------------------------------

  /** The four hooks of a VM's node. */
  ghost predicate RunsVm(c: Config, plan: Plan, naming: Naming, v: Vm) {
    var n := VmNode(v.name);
    && n in c.materialize && n in c.warm && n in c.realize && n in c.reattach
    && c.materialize[n] == MachineBuild(naming, v) && c.warm[n] == BuiltPuts(v, 0)
    && c.realize[n] == MachineRealize(plan, naming, v) && c.reattach[n] == MachineReady(plan, v)
  }

  lemma VmHooked(plan: Plan, naming: Naming, g: Graph, jobs: Option<int>, v: Vm)
    requires Registered(plan) && Freezes(plan, g) && v in plan.vms
    ensures RunsVm(ConfigOf(plan, naming, g, jobs), plan, naming, v)
  {
    DeclaredNodes(plan);
    assert VmNode(v.name) in Elems(g.nodes);
    HooksOf(plan, naming, VmNode(v.name), VmDecl(v));
  }

  /** Building: on a cache hit the worker touches no resource, on a miss it brings up and
      captures; either way it enters the VM's built disks. Realizing: a reattached VM is only
      waited for, any other is created. */
  lemma VmHooksDo(c: Config, plan: Plan, naming: Naming, v: Vm, wave: nat, hit: bool, again: bool)
    requires RunsVm(c, plan, naming, v)
    ensures var p := HookOf(c, Materializing(wave), again, VmNode(v.name), hit);
            && Creates(p) == (if hit then {} else BuildNames(naming, v)) && (hit ==> Mentions(p) == {})
            && Puts(p) == BuiltKeys(v, 0)
    ensures var p := HookOf(c, Realizing(wave), again, VmNode(v.name), hit);
            Creates(p) == (if again then {} else MachineNames(naming, false, v)) && (again ==> Mentions(p) == {})
  {
    MachineCreates(plan, naming, v);
    WarmDoes(v);
    BuildDoes(naming, v);
    MachineReadyLocal(plan, v);
    LocalIsHarmless(MachineReady(plan, v), {}, {});
  }

  lemma WarmDoes(v: Vm)
    ensures Mentions(BuiltPuts(v, 0)) == {} && Creates(BuiltPuts(v, 0)) == {}
    ensures Puts(BuiltPuts(v, 0)) == BuiltKeys(v, 0)
  {
    BuiltPutsLocal(v, 0);
    LocalIsHarmless(BuiltPuts(v, 0), {}, {});
    BuiltPutsProfile(v, 0);
    HasMeans(BuiltPuts(v, 0), Profile({}, {}, BuiltKeys(v, 0)));
  }

  lemma BuildDoes(naming: Naming, v: Vm)
    ensures Creates(MachineBuild(naming, v)) == BuildNames(naming, v)
    ensures Puts(MachineBuild(naming, v)) == BuiltKeys(v, 0)
  {
    BuildParts(naming, v);
    BuildPartsDo(BuildUp(naming, v), BuiltPuts(v, 0), BuildDown(naming, v), BuildNames(naming, v), BuiltKeys(v, 0));
  }

  lemma BuildPartsDo(up: Program, puts: Program, down: Program, names: set<string>, keys: set<Key>)
    requires Parts(up, puts, down, names, keys)
    ensures var p := ([EnsureInfra] + up) + (([Work] + puts) + down); Creates(p) == names && Puts(p) == keys
  {
    var first, p := ([EnsureInfra] + up) + ([Work] + puts), ([EnsureInfra] + up) + (([Work] + puts) + down);
    CaptureProfile(up, puts, down, names, keys);
    HasMeans(first, Profile(names, {}, keys));
    assert p == first + down;
    assert forall a :: a in p <==> a in first || a in down;
  }

  // ---- The build infra is gone ----------------------------------------------------------------

  lemma {:induction false} SegmentsDismantle(naming: Naming, networks: seq<string>)
    ensures OnlyDismantles(SegmentsDown(naming, networks))
  {
    if networks != [] {
      SegmentsDismantle(naming, networks[1..]);
    }
  }

  lemma InfraDismantles(naming: Naming, s: Switch)
    ensures OnlyDismantles(InfraGone(naming, s))
  {
    SegmentsDismantle(naming, s.networks);
  }

  lemma DismantledNames(p: Program, names: set<string>)
    requires OnlyDismantles(p) && Clears(p, names)
    ensures Destroys(p) == names && Forgets(p) == names
  {
    assert Destroys(p) == Taken(p) && Forgets(p) == Erased(p);
  }

  lemma {:induction false} BuildsMention(p: Program)
    requires Builds(p)
    ensures Mentions(p) == TallyOf(p).records + TallyOf(p).creates + TallyOf(p).confirms
  {
    if p != [] {
      assert p[0] in p;
      BuildsMention(p[1..]);
    }
  }

  lemma InfraMentions(naming: Naming, s: Switch)
    requires s.networks != []
    ensures Mentions(InfraUp(naming, s)) == InfraNames(naming, s)
  {
    InfraProfile(naming, s);
    InfraBuilds(naming, s);
    BuildsMention(InfraUp(naming, s));
  }

  /** In a run of a plan that has not resumed and in which nothing has failed: from the start
      of the realize walk on, nothing of the build infra exists or is recorded but the two
      volumes of its sidecar. */
  lemma BuildInfraIsGone(plan: Plan, naming: Naming, g: Graph, jobs: Option<int>, s: State, events: seq<Event>,
                         w: World)
    requires Reaches(plan, naming, g, jobs, s, events, w) && !w.resume && !w.failed
    requires (w.phase.Realizing? || w.phase.Up?) && plan.buildSwitch.networks != []
    ensures w.ledger.Some?
    ensures w.live * InfraNames(naming, plan.buildSwitch) <= InfraVolumes(naming, plan.buildSwitch)
    ensures NamesOf(w.ledger.value.resources) * InfraNames(naming, plan.buildSwitch) <=
            InfraVolumes(naming, plan.buildSwitch)
  {
    var c, b := ConfigOf(plan, naming, g, jobs), plan.buildSwitch;
    PlanIsWellFormed(plan, naming, g, jobs);
    InfraDismantles(naming, b);
    InfraIsGone(c, s, events);
    InfraMentions(naming, b);
    InfraClears(naming, b);
    DismantledNames(InfraGone(naming, b), InfraRemoved(naming, b));
    VolumesApart(plan, naming);
  }
}
