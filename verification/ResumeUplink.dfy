/** The one lookup a resumed run can get wrong. Reattaching to a switch's fabric does not
    rebuild the `__uplink__<switch>` entry, so a NAT sidecar that still has to be created
    finds it missing; the exact condition is proved for every run of every plan.
 */
module ResumeUplink {
  import opened Wrappers
  import opened Names
  import opened Ledger
  import opened Actions
  import opened RunSystem
  import opened RunSafety
  import opened RunLookups
  import opened BuildGraph
  import opened Plans
  import opened Hooks
  import opened HookKeys
  import opened PlanRuns
  import opened PlanLookups

  // ---- Keys no hook of the process writes -------------------------------------------------

  /** No hook this process runs writes `k`, and what the build infra writes it takes back. */
  ghost predicate NeverPut(c: Config, seed: set<string>, k: Key) {
    && (forall n | n in c.materialize && n in c.warm :: k !in Puts(c.materialize[n]) && k !in Puts(c.warm[n]))
    && (forall n | n in c.realize && n in c.reattach :: k !in Provided(c, seed, n))
    && (k in Puts(c.infra) ==> k in Drops(c.infraDown))
  }

  /** A worker's own part does not write `k`; its infra part writes what the infra writes. */
  ghost predicate WorkerNeverPuts(c: Config, k: Key, th: Thread) {
    k !in Puts(th.own) && (k in Puts(th.infra) ==> k in Puts(c.infra))
  }

  ghost predicate Absent(c: Config, w: World, k: Key) {
    && (w.phase.Materializing? || w.phase.Realizing? ==>
          forall t | t in w.threads && t.Worker? :: WorkerNeverPuts(c, k, w.threads[t]))
    && (w.phase.Materializing? && k in w.keys ==>
          k in Puts(c.infra) && (w.failed || w.infraActive || w.infraHolder.Some?))
    && (w.phase.InfraDown? && k in w.keys ==> w.failed || (Main in w.threads && k in Drops(w.threads[Main].own)))
    && (w.phase.Realizing? ==> k !in w.keys)
  }

  ghost predicate Missing(c: Config, w: World, k: Key) {
    NeverPut(c, Attached(w), k) ==> Absent(c, w, k)
  }

  // ---- The invariant is kept ----------------------------------------------------------------

  lemma StartMisses(c: Config, w: World, n: string, hit: bool, k: Key)
    requires NeverPut(c, Attached(w), k) && Absent(c, w, k) && StepStart(c, w, n, hit).Some?
    ensures Absent(c, StepStart(c, w, n, hit).value, k)
  {
    var p := HookOf(c, w.phase, Reattaches(w, n), n, hit);
    StampedPuts(p, n, w.phase.Realizing?, {});
    assert w.phase.Realizing? ==> Provided(c, Attached(w), n) == Puts(p);
    assert k !in Puts(ProgramOf(c, w, n, hit));
  }

  lemma RestPuts(p: Program, o: Outcome, k: Key)
    requires p != []
    ensures k in Puts(Rest(p, o)) ==> k in Puts(p)
    ensures p[0] == Put(k) ==> k in Puts(p)
    ensures k in Drops(p) && p[0] != Drop(k) ==> k in Drops(Rest(p, o))
  {
    assert p[0] in p;
    assert forall a | a in p :: a == p[0] || a in p[1..];
    if p[0].BestEffortDelete? && o.Succeeds? {
      assert forall a :: a in Rest(p, o) <==> a == Forget(p[0].name) || a in p[1..];
    }
  }

  lemma WorkerMisses(c: Config, w: World, t: Tid, o: Outcome, now: string, k: Key)
    requires Absent(c, w, k) && StepExec(c, w, t, o, now).Some? && t.Worker? &&
             (w.phase.Materializing? || w.phase.Realizing?)
    requires !Head(w.threads[t]).EnsureInfra?
    requires w.threads[t].infra != [] <==> w.infraHolder == Some(t.node)
    requires w.phase.Realizing? ==> w.threads[t].infra == []
    ensures Absent(c, StepExec(c, w, t, o, now).value, k)
  {
    var th := w.threads[t];
    var part := if th.infra != [] then th.infra else th.own;
    assert WorkerNeverPuts(c, k, th);
    RestPuts(part, o, k);
    assert WorkerNeverPuts(c, k, AfterHead(th, o));
    var a, s := Head(th), w.ledger.value;
    var w1 := Effected(w, a, o, now);
    assert Absent(c, w1, k);
    if RaisesOut(a, o, s, w.keys) {
      RaiseMisses(c, w1, t, k);
    } else {
      ContinueMisses(c, w1, t, AfterHead(th, o), a, th.infra != [], k);
    }
  }

  lemma RaiseMisses(c: Config, w: World, t: Tid, k: Key)
    requires Absent(c, w, k) && t.Worker? && (w.phase.Materializing? || w.phase.Realizing?)
    ensures Absent(c, Raise(w, t), k)
  {
  }

  lemma ContinueMisses(c: Config, w: World, t: Tid, th: Thread, a: Action, wasInfra: bool, k: Key)
    requires Absent(c, w, k) && t.Worker? && WorkerNeverPuts(c, k, th) && (w.phase.Materializing? || w.phase.Realizing?)
    requires wasInfra <==> w.infraHolder == Some(t.node)
    requires w.phase.Realizing? ==> !wasInfra
    requires a == Put(k) ==> wasInfra && k in Puts(c.infra)
    ensures Absent(c, Continue(w, t, th, a, wasInfra), k)
  {
  }

  lemma EnsureMisses(c: Config, w: World, t: Tid, k: Key)
    requires Absent(c, w, k) && t in w.threads
    requires var th := w.threads[t];
             (th.infra != [] || th.own != []) && Head(th).EnsureInfra? && StepEnsureInfra(c, w, t, th).Some?
    ensures Absent(c, StepEnsureInfra(c, w, t, w.threads[t]).value, k)
  {
    var th := w.threads[t];
    assert WorkerNeverPuts(c, k, th);
    RestPuts(th.own, Succeeds, k);
    var w' := StepEnsureInfra(c, w, t, th).value;
    forall u | u in w'.threads && u.Worker? ensures WorkerNeverPuts(c, k, w'.threads[u]) {
      assert u != t ==> WorkerNeverPuts(c, k, w.threads[u]);
    }
  }

  lemma MainMisses(c: Config, w: World, o: Outcome, now: string, k: Key)
    requires Absent(c, w, k) && StepExec(c, w, Main, o, now).Some? && w.phase.InfraDown?
    requires w.threads[Main].infra == [] && OnlyRemoves(w.threads[Main].own) && !Head(w.threads[Main]).EnsureInfra?
    ensures Absent(c, StepExec(c, w, Main, o, now).value, k)
  {
    var own := w.threads[Main].own;
    RestPuts(own, o, k);
    assert own[0] in own;
    assert Drops([]) == {};
  }

  lemma ExecMisses(c: Config, w: World, t: Tid, o: Outcome, now: string, k: Key)
    requires Safety(c, w) && Lookups(c, w) && Absent(c, w, k) && StepExec(c, w, t, o, now).Some?
    ensures Absent(c, StepExec(c, w, t, o, now).value, k)
  {
    assert MayRun(c, w.phase, w.pending, t);
    assert ThreadKnows(c, w.phase, Attached(w), w.resume, w.keys, w.live, t, w.threads[t]);
    assert ThreadSafe(c, w.phase, w.infraHolder, NamesOf(w.ledger.value.resources), w.live, t, w.threads[t]);
    if Head(w.threads[t]).EnsureInfra? {
      EnsureMisses(c, w, t, k);
    } else if t.Worker? {
      WorkerMisses(c, w, t, o, now, k);
    } else {
      MainMisses(c, w, o, now, k);
    }
  }

  lemma AdvanceMisses(c: Config, w: World, buildOnly: bool, k: Key)
    requires NeverPut(c, Attached(w), k) && Staffed(c, w) && Absent(c, w, k) && StepAdvance(c, w, buildOnly).Some?
    ensures Absent(c, StepAdvance(c, w, buildOnly).value, k)
  {
    assert Drops([]) == {};
  }

  lemma NextMisses(c: Config, w: World, e: Event, k: Key)
    requires Safety(c, w) && Lookups(c, w) && Missing(c, w, k) && Next(c, w, e).Some?
    ensures Missing(c, Next(c, w, e).value, k)
  {
    if e.Resume? {
      NobodyRuns(c, w);
    } else {
      SameAttached(c, w, e);
      if NeverPut(c, Attached(w), k) {
        match e
        case Start(n, hit) => StartMisses(c, w, n, hit, k);
        case Exec(t, o, now) => ExecMisses(c, w, t, o, now, k);
        case Advance(buildOnly) => AdvanceMisses(c, w, buildOnly, k);
        case _ => QuietMisses(c, w, e, k);
      }
    }
  }

  lemma QuietMisses(c: Config, w: World, e: Event, k: Key)
    requires Absent(c, w, k) && Next(c, w, e).Some? && !e.Start? && !e.Exec? && !e.Advance? && !e.Resume?
    ensures Absent(c, Next(c, w, e).value, k)
  {
  }

  /** Only a resume changes which nodes are reattached. */
  lemma SameAttached(c: Config, w: World, e: Event)
    requires Next(c, w, e).Some? && !e.Resume?
    ensures Attached(Next(c, w, e).value) == Attached(w)
  {
  }

  lemma {:induction false} EveryRunMisses(c: Config, s: State, events: seq<Event>, k: Key)
    requires WellFormed(c) && KeysFit(c) && FreshState(s) && After(c, s, events).Some?
    ensures Missing(c, After(c, s, events).value, k)
  {
    if events != [] {
      var before := events[..|events| - 1];
      EveryRunKnows(c, s, before);
      EveryRunMisses(c, s, before, k);
      NextMisses(c, After(c, s, before).value, events[|events| - 1], k);
    }
  }

  // ---- Which hooks write network entries -------------------------------------------------------

  /** Every network entry the program writes is one of `keys`. */
  ghost predicate NetworkPuts(p: Program, keys: set<Key>) {
    forall a | a in p && a.Put? && a.key.NetworkKey? :: a.key in keys
  }

  function KeysOf(networks: seq<string>): (r: set<Key>)
    ensures forall n | n in networks :: NetworkKey(n) in r
  {
    set n | n in networks :: NetworkKey(n)
  }

  lemma {:induction false} SegmentsWrite(naming: Naming, build: bool, networks: seq<string>)
    ensures NetworkPuts(SegmentsUp(naming, build, networks), KeysOf(networks))
    ensures NetworkPuts(SegmentsAgain(networks), KeysOf(networks))
  {
    if networks != [] {
      SegmentsWrite(naming, build, networks[1..]);
      assert NetworkPuts(SegmentUp(naming, build, networks[0]), KeysOf(networks));
    }
  }

  ghost function UplinkKeys(s: Switch): set<Key> {
    if s.Nat() then {NetworkKey(UplinkName(s.name))} else {}
  }

  lemma FabricWrites(naming: Naming, build: bool, s: Switch)
    ensures NetworkPuts(FabricUp(naming, build, s), KeysOf(s.networks) + UplinkKeys(s))
    ensures NetworkPuts(FabricAgain(s), KeysOf(s.networks))
  {
    SegmentsWrite(naming, build, s.networks);
    assert NetworkPuts(UplinkPut(s), UplinkKeys(s));
  }

  lemma SidecarWrites(naming: Naming, build: bool, s: Switch)
    ensures NetworkPuts(SidecarUp(naming, build, s), {})
  {
    if s.networks != [] {
      var disks := Bring(naming, Slot(build, SidecarDisk, s.name, 0)) +
          Bring(naming, Slot(build, SidecarConfig, s.name, 0));
      var vm := Bring(naming, Slot(build, SidecarVm, s.name, 0)) + [Work, Put(SidecarKey(s.name))];
      assert NetworkPuts(disks, {}) && NetworkPuts(SidecarLookups(s), {}) && NetworkPuts(vm, {});
    }
  }

  lemma {:induction false} DataDisksWrite(naming: Naming, v: Vm, i: nat)
    requires i <= |v.dataPools|
    ensures NetworkPuts(DataDisksUp(naming, v, i), {})
    ensures NetworkPuts(BuildDataUp(naming, v, i), {}) && NetworkPuts(BuildDataDown(naming, v, i), {})
    decreases |v.dataPools| - i
  {
    if i < |v.dataPools| {
      DataDisksWrite(naming, v, i + 1);
      assert NetworkPuts(DataDiskUp(naming, v, i), {});
    }
  }

  lemma {:induction false} NicsWrite(plan: Plan, nics: seq<Nic>)
    ensures NetworkPuts(NicLookups(nics), {}) && NetworkPuts(LeaseWaits(plan, nics), {})
  {
    if nics != [] {
      NicsWrite(plan, nics[1..]);
      assert NetworkPuts(LeaseWait(plan, nics[0]), {});
    }
  }

  lemma MachineWrites(plan: Plan, naming: Naming, v: Vm)
    ensures NetworkPuts(MachineRealize(plan, naming, v), {}) && NetworkPuts(MachineReady(plan, v), {})
  {
    DataDisksWrite(naming, v, 0);
    NicsWrite(plan, v.nics);
    assert NetworkPuts(OsDiskUp(naming, v), {});
    assert NetworkPuts(MachineUp(naming, v), {});
  }

  lemma BuiltPutsWrite(v: Vm)
    ensures NetworkPuts(BuiltPuts(v, 0), {})
  {
    BuiltPutsAre(v, 0);
    forall a | a in BuiltPuts(v, 0) && a.Put? ensures !a.key.NetworkKey? {
      assert a.key in Puts(BuiltPuts(v, 0));
    }
  }

  lemma WritesConcat(p: Program, q: Program)
    requires NetworkPuts(p, {}) && NetworkPuts(q, {})
    ensures NetworkPuts(p + q, {})
  {
  }

  lemma BuildWrites(naming: Naming, v: Vm)
    ensures NetworkPuts(MachineBuild(naming, v), {}) && NetworkPuts(BuiltPuts(v, 0), {})
  {
    DataDisksWrite(naming, v, 0);
    BuiltPutsWrite(v);
    assert NetworkPuts(BuildUp(naming, v), {});
    assert NetworkPuts(BuildDown(naming, v), {});
    WritesConcat([EnsureInfra], BuildUp(naming, v));
    WritesConcat([Work], BuiltPuts(v, 0));
    WritesConcat([Work] + BuiltPuts(v, 0), BuildDown(naming, v));
    WritesConcat([EnsureInfra] + BuildUp(naming, v), ([Work] + BuiltPuts(v, 0)) + BuildDown(naming, v));
  }

  lemma InfraWrites(naming: Naming, s: Switch)
    requires s.networks != []
    ensures forall k | k in Puts(InfraUp(naming, s)) && k.NetworkKey? :: k in Drops(InfraGone(naming, s))
  {
    FabricWrites(naming, true, s);
    SidecarWrites(naming, true, s);
    InfraDrops(naming, s);
    assert NetworkPuts(Bring(naming, BUILD_POOL), {});
    assert NetworkPuts(InfraUp(naming, s), KeysOf(s.networks) + UplinkKeys(s));
  }

  // ---- The uplink entry ---------------------------------------------------------------------------

  /** Names starting with two underscores are reserved for internals. */
  ghost predicate Reserved(plan: Plan) {
    forall s, n | s in plan.switches && n in s.networks :: !("__" <= n)
  }

  lemma UplinkNames(a: string, b: string)
    ensures "__" <= UplinkName(a)
    ensures UplinkName(a) == UplinkName(b) ==> a == b
  {
    assert UplinkName(a)[10..] == a && UplinkName(b)[10..] == b;
  }

  lemma NotPut(p: Program, keys: set<Key>, k: Key)
    requires NetworkPuts(p, keys) && k.NetworkKey? && k !in keys
    ensures k !in Puts(p)
  {
  }

  lemma FabricNeverWrites(plan: Plan, naming: Naming, s: Switch, f: Switch)
    requires Reserved(plan) && f in plan.switches
    ensures var k := NetworkKey(UplinkName(s.name));
            k !in Puts(FabricAgain(f)) && (f.name != s.name ==> k !in Puts(FabricUp(naming, false, f)))
  {
    FabricWrites(naming, false, f);
    UplinkNames(s.name, f.name);
    NotPut(FabricAgain(f), KeysOf(f.networks), NetworkKey(UplinkName(s.name)));
    if f.name != s.name {
      NotPut(FabricUp(naming, false, f), KeysOf(f.networks) + UplinkKeys(f), NetworkKey(UplinkName(s.name)));
    }
  }

  lemma SidecarNeverWrites(naming: Naming, pool: string, f: Switch, k: Key)
    requires k.NetworkKey?
    ensures k !in Puts(SidecarRealize(naming, pool, f)) && k !in Puts(SidecarAgain(f))
  {
    SidecarWrites(naming, false, f);
    assert NetworkPuts(SidecarReady(f), {}) && NetworkPuts([Get(PoolKey(pool))] + SidecarUp(naming, false, f), {});
    NotPut(SidecarRealize(naming, pool, f), {}, k);
    NotPut(SidecarAgain(f), {}, k);
  }

  lemma MachineNeverWrites(plan: Plan, naming: Naming, v: Vm, k: Key)
    requires k.NetworkKey?
    ensures k !in Puts(MachineRealize(plan, naming, v)) && k !in Puts(MachineReady(plan, v))
    ensures k !in Puts(MachineBuild(naming, v)) && k !in Puts(BuiltPuts(v, 0))
  {
    MachineWrites(plan, naming, v);
    BuildWrites(naming, v);
    NotPut(MachineRealize(plan, naming, v), {}, k);
    NotPut(MachineReady(plan, v), {}, k);
    NotPut(MachineBuild(naming, v), {}, k);
    NotPut(BuiltPuts(v, 0), {}, k);
  }

  /** No declaration writes the uplink entry of a switch whose fabric is reattached. */
  lemma DeclNeverWrites(plan: Plan, naming: Naming, seed: set<string>, s: Switch, d: Decl)
    requires Reserved(plan) && NetworkNode(s.name) in seed && Declares(plan, d)
    ensures var k := NetworkKey(UplinkName(s.name));
            && k !in Puts(MaterializeHook(naming, d)) && k !in Puts(WarmHook(d)) && k !in Puts(ReattachHook(plan, d))
            && (NodeOf(d) !in seed ==> k !in Puts(RealizeHook(plan, naming, d)))
  {
    var k := NetworkKey(UplinkName(s.name));
    match d
    case PoolDecl(p) =>
      NotPut(PoolUp(naming, p), {}, k);
    case FabricDecl(f) => FabricNeverWrites(plan, naming, s, f);
    case SidecarDecl(f) => SidecarNeverWrites(naming, plan.pools[0], f, k);
    case VmDecl(v) => MachineNeverWrites(plan, naming, v, k);
  }

  ghost predicate NodeAvoids(plan: Plan, naming: Naming, seed: set<string>, n: string, k: Key) {
    k !in Puts(MaterializeOf(plan, naming, n)) && k !in Puts(WarmOf(plan, n)) && k !in Left(plan, naming, seed, n)
  }

  lemma NeverPutWith(
    g: Graph, hooks: NodeHooks, up: Program, down: Program, rank: map<string, nat>, jobs: Option<int>,
        seed: set<string>, k: Key)
    requires forall n | n in Elems(g.nodes) ::
               && k !in Puts(hooks.materialize(n)) && k !in Puts(hooks.warm(n))
               && k !in if n in seed then Puts(hooks.reattach(n)) else Puts(hooks.realize(n))
    requires k in Puts(up) ==> k in Drops(down)
    ensures NeverPut(ConfigWith(g, hooks, up, down, rank, jobs), seed, k)
  {
  }

  lemma AvoidedIsNeverPut(plan: Plan, naming: Naming, g: Graph, jobs: Option<int>, seed: set<string>, k: Key)
    requires forall n | n in Elems(g.nodes) :: NodeAvoids(plan, naming, seed, n, k)
    requires k in Puts(InfraUp(naming, plan.buildSwitch)) ==> k in Drops(InfraGone(naming, plan.buildSwitch))
    ensures NeverPut(ConfigOf(plan, naming, g, jobs), seed, k)
  {
    var hooks := HooksFor(plan, naming);
    forall n | n in Elems(g.nodes)
      ensures k !in Puts(hooks.materialize(n)) && k !in Puts(hooks.warm(n))
      ensures k !in if n in seed then Puts(hooks.reattach(n)) else Puts(hooks.realize(n))
    {
      assert NodeAvoids(plan, naming, seed, n, k);
    }
    NeverPutWith(g, hooks, InfraUp(naming, plan.buildSwitch), InfraGone(naming, plan.buildSwitch),
                 RanksOf(plan, naming, g.waves, Elems(g.nodes)), jobs, seed, k);
  }

  lemma NodeNeverWrites(plan: Plan, naming: Naming, seed: set<string>, s: Switch, n: string)
    requires Registered(plan) && Reserved(plan) && !Homeless(plan) && n in NodesOf(plan)
    requires s in plan.switches && NetworkNode(s.name) in seed
    ensures NodeAvoids(plan, naming, seed, n, NetworkKey(UplinkName(s.name)))
  {
    HasDecl(plan, n);
    var d :| StandsFor(plan, n, d);
    HooksOf(plan, naming, n, d);
    DeclNeverWrites(plan, naming, seed, s, d);
  }

  lemma UplinkNeverPut(plan: Plan, naming: Naming, g: Graph, jobs: Option<int>, seed: set<string>, s: Switch)
    requires Registered(plan) && Reserved(plan) && Freezes(plan, g) && plan.buildSwitch.networks != []
    requires s in plan.switches && NetworkNode(s.name) in seed
    ensures NeverPut(ConfigOf(plan, naming, g, jobs), seed, NetworkKey(UplinkName(s.name)))
  {
    InfraWrites(naming, plan.buildSwitch);
    var k := NetworkKey(UplinkName(s.name));
    forall n | n in Elems(g.nodes) ensures NodeAvoids(plan, naming, seed, n, k) {
      NodeNeverWrites(plan, naming, seed, s, n);
    }
    AvoidedIsNeverPut(plan, naming, g, jobs, seed, k);
  }

  /** In every run of every plan, a NAT sidecar about to look up its uplink finds it if and
      only if this process created the switch's fabric itself rather than reattaching to
      it. The build switch has a network, as building any VM demands. */
  lemma UplinkLookupExact(plan: Plan, naming: Naming, g: Graph, jobs: Option<int>, st: State, events: seq<Event>,
      w: World, s: Switch)
    requires Reaches(plan, naming, g, jobs, st, events, w) && Reserved(plan) && plan.buildSwitch.networks != []
    requires s in plan.switches && w.phase.Realizing?
    requires var t := Worker(SidecarNode(s.name));
             && t in w.threads && (w.threads[t].infra != [] || w.threads[t].own != [])
             && Head(w.threads[t]) == Get(NetworkKey(UplinkName(s.name)))
    ensures NetworkKey(UplinkName(s.name)) in w.keys <==> NetworkNode(s.name) !in Attached(w)
  {
    var c, k := ConfigOf(plan, naming, g, jobs), NetworkKey(UplinkName(s.name));
    if NetworkNode(s.name) in Attached(w) {
      PlanIsWellFormed(plan, naming, g, jobs);
      PlanKeysFit(plan, naming, g, jobs);
      UplinkNeverPut(plan, naming, g, jobs, Attached(w), s);
      EveryRunMisses(c, st, events, k);
    } else {
      NodeNamesAgree(plan, s, Attached(w));
      PlanLookupSucceeds(plan, naming, g, jobs, st, events, w, Worker(SidecarNode(s.name)));
    }
  }

  lemma NodeNamesAgree(plan: Plan, s: Switch, seed: set<string>)
    requires NetworkNode(s.name) !in seed
    ensures ResumeSafe(plan, seed, SidecarNode(s.name))
  {
    forall f | f in plan.switches && SidecarNode(s.name) == SidecarNode(f.name) ensures NetworkNode(f.name) !in seed {
      NodeNamesApart(s.name, f.name);
    }
  }
}
