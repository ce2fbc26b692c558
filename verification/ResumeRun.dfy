/** A run that hits the missing uplink entry: one pool, one NAT switch, a crash between the
    fabric and the sidecar, a resume.
 */
module ResumeRun {
  import opened Wrappers
  import opened Names
  import opened Ledger
  import opened Actions
  import opened RunSystem
  import opened RunSafety
  import opened RunLookups
  import opened Relation
  import opened BuildGraph
  import opened Plans
  import opened Hooks
  import opened HookSafety
  import opened HookKeys
  import opened PlanRuns
  import opened PlanLookups
  import opened PlanStart
  import opened Recovery
  import opened ResumeUplink
  import opened DriverNames

  // ---- Running a program to its end ---------------------------------------------------------

  /** Every step of the program goes on when it succeeds. */
  ghost predicate Proceeds(p: Program, s: State, keys: set<Key>) {
    if p == [] then true
    else
      && !p[0].EnsureInfra? && !p[0].BestEffortDelete? && !RaisesOut(p[0], Succeeds, s, keys)
      && Proceeds(p[1..], LedgerAfter(p[0], Succeeds, s, ""), KeysAfter(p[0], keys))
  }

  ghost predicate NoAborts(p: Program) {
    forall a | a in p :: !a.Abort?
  }

  /** Hooks that only build up, record before they confirm and look up what is known. */
  lemma {:induction false} BuildingProceeds(p: Program, s: State, live: set<string>, keys: set<Key>)
    requires Constructive(p) && NoAborts(p) && Safe(p, NamesOf(s.resources), live) && Defined(p, keys)
    ensures Proceeds(p, s, keys)
    decreases |p|
  {
    if p != [] {
      assert p[0] in p;
      var s' := LedgerAfter(p[0], Succeeds, s, "");
      LedgerNamesAfter(p[0], Succeeds, s, "");
      BuildingProceeds(p[1..], s', LiveAfter(p[0], Succeeds, live), KeysAfter(p[0], keys));
    }
  }

  /** Nodes the program stamps realized. */
  ghost function StampedBy(p: Program): set<string> {
    set a | a in p && a.Stamp? && a.realized :: a.node
  }

  /** Everything but the ledger, the backend and what is known is as before. */
  ghost predicate SameWalk(w: World, w': World) {
    && w'.phase == w.phase && w'.pending == w.pending && w'.failed == w.failed && w'.resume == w.resume
    && w'.seed == w.seed && w'.infraHolder == w.infraHolder && w'.infraActive == w.infraActive
  }

  ghost predicate LedgerHas(w: World, realized: set<string>) {
    w.ledger.Some? && UniqueNodes(w.ledger.value.nodes) && Realized(w.ledger.value.nodes) == realized
  }

  lemma LedgerSteps(s: State, a: Action)
    requires UniqueNodes(s.nodes)
    ensures var s' := LedgerAfter(a, Succeeds, s, "");
            UniqueNodes(s'.nodes) && Realized(s'.nodes) == Realized(s.nodes) + StampedBy([a])
  {
    if a.Stamp? {
      StampRealizedEffect(s, a.node, "");
      StampMaterializedEffect(s, a.node, "");
    }
    assert StampedBy([a]) == if a.Stamp? && a.realized then {a.node} else {};
  }

  /** One step of the only thread. */
  ghost function Stepped(w: World, n: string, p: Program): World
    requires w.ledger.Some? && p != []
  {
    w.(ledger := Some(LedgerAfter(p[0], Succeeds, w.ledger.value, "")),
       live := LiveAfter(p[0], Succeeds, w.live),
       threads := if |p| == 1 then map[] else map[Worker(n) := Thread([], p[1..])],
       up := if p[0].Stamp? && p[0].realized then w.up + {p[0].node} else w.up,
       keys := KeysAfter(p[0], w.keys))
  }

  lemma ThreadSteps(c: Config, w: World, n: string, p: Program)
    requires w.ledger.Some? && p != [] && w.threads == map[Worker(n) := Thread([], p)]
    requires !p[0].EnsureInfra? && !p[0].BestEffortDelete? && !RaisesOut(p[0], Succeeds, w.ledger.value, w.keys)
    ensures Next(c, w, Exec(Worker(n), Succeeds, "")) == Some(Stepped(w, n, p))
  {
    assert w.threads - {Worker(n)} == map[];
    assert w.threads[Worker(n) := Thread([], p[1..])] == map[Worker(n) := Thread([], p[1..])];
  }

  /** The only thread runs `p` and has `q` left. */
  lemma {:induction false} ThreadRuns(c: Config, w: World, n: string, p: Program, q: Program, realized: set<string>)
    returns (events: seq<Event>, w': World)
    requires LedgerHas(w, realized) && p + q != [] && w.threads == map[Worker(n) := Thread([], p + q)]
    requires Proceeds(p, w.ledger.value, w.keys)
    ensures Steps(c, w, events) == Some(w') && SameWalk(w, w') && LedgerHas(w', realized + StampedBy(p))
    ensures w'.threads == if q == [] then map[] else map[Worker(n) := Thread([], q)]
    decreases |p|
  {
    if p == [] {
      assert p + q == q;
      return [], w;
    }
    assert (p + q)[0] == p[0] && (p + q)[1..] == p[1..] + q;
    var w1 := Stepped(w, n, p + q);
    ThreadSteps(c, w, n, p + q);
    LedgerSteps(w.ledger.value, p[0]);
    var first := [Exec(Worker(n), Succeeds, "")];
    StepsOne(c, w, first[0]);
    assert StampedBy(p) == StampedBy([p[0]]) + StampedBy(p[1..]) by {
      assert forall a :: a in p <==> a == p[0] || a in p[1..];
    }
    if |p + q| == 1 {
      assert p == [p[0]];
      return first, w1;
    }
    var more, w2 := ThreadRuns(c, w1, n, p[1..], q, realized + StampedBy([p[0]]));
    StepsConcat(c, w, first, more);
    return first + more, w2;
  }

  lemma StepsOne(c: Config, w: World, e: Event)
    ensures Steps(c, w, [e]) == Next(c, w, e)
  {
    assert Steps(c, w, []) == Some(w);
    assert [e][..0] == [];
  }

  // ---- One node after the other ------------------------------------------------------------------

  /** Between two nodes of a walk: nobody runs. */
  ghost predicate Between(w: World, phase: Phase, pending: set<string>, realized: set<string>) {
    && w.phase == phase && w.pending == pending && w.threads == map[] && !w.failed
    && w.infraHolder.None? && !w.infraActive && LedgerHas(w, realized)
  }

  /** A hook that can be run to its end. */
  ghost predicate Runnable(p: Program, keys: set<Key>) {
    Constructive(p) && NoAborts(p) && NoStamps(p) && Disciplined(p) && Defined(p, keys)
  }

  lemma StampedProceeds(p: Program, n: string, realizes: bool, s: State, live: set<string>, keys: set<Key>)
    requires Runnable(p, keys)
    ensures Proceeds(p + [Stamp(n, realizes)], s, keys)
    ensures StampedBy(p + [Stamp(n, realizes)]) == if realizes then {n} else {}
  {
    var stamp := [Stamp(n, realizes)];
    StampedPuts(p, n, realizes, keys);
    assert stamp[1..] == [];
    assert Mentions(stamp) == {} && Safe(stamp, {}, {});
    assert Disciplined(stamp);
    DisciplinedIsSafe(p, NamesOf(s.resources), live);
    SafeThen(p, stamp, NamesOf(s.resources), live);
    assert forall a :: a in p + stamp <==> a in p || a == stamp[0];
    BuildingProceeds(p + stamp, s, live, keys);
  }

  lemma NodeStarts(c: Config, w: World, n: string, hit: bool, pending: set<string>, realized: set<string>)
    requires Between(w, w.phase, pending, realized) && n in pending && n in CurrentWave(c, w.phase)
    requires n in c.materialize && n in c.warm && n in c.realize && n in c.reattach
    ensures Next(c, w, Start(n, hit)) ==
            Some(w.(pending := pending - {n}, threads := map[Worker(n) := Thread([], ProgramOf(c, w, n, hit))]))
  {
    assert |w.threads| == 0;
    assert w.threads[Worker(n) := Thread([], ProgramOf(c, w, n, hit))] ==
        map[Worker(n) := Thread([], ProgramOf(c, w, n, hit))];
  }

  lemma NodeRuns(c: Config, w: World, n: string, hit: bool, pending: set<string>, realized: set<string>)
    returns (events: seq<Event>, w': World)
    requires Between(w, w.phase, pending, realized) && n in pending && n in CurrentWave(c, w.phase)
    requires n in c.materialize && n in c.warm && n in c.realize && n in c.reattach
    requires Runnable(HookOf(c, w.phase, Reattaches(w, n), n, hit), w.keys)
    ensures Steps(c, w, events) == Some(w') && w'.resume == w.resume && w'.seed == w.seed
    ensures Between(w', w.phase, pending - {n}, realized + (if w.phase.Realizing? then {n} else {}))
  {
    NodeStarts(c, w, n, hit, pending, realized);
    var p := ProgramOf(c, w, n, hit);
    var w1 := w.(pending := pending - {n}, threads := map[Worker(n) := Thread([], p)]);
    StepsOne(c, w, Start(n, hit));
    StampedProceeds(HookOf(c, w.phase, Reattaches(w, n), n, hit), n, w.phase.Realizing?, w.ledger.value, w.live,
        w.keys);
    assert p + [] == p;
    var more;
    more, w' := ThreadRuns(c, w1, n, p, [], realized);
    StepsConcat(c, w, [Start(n, hit)], more);
    events := [Start(n, hit)] + more;
  }

  // ---- The plan and its graph -------------------------------------------------------------------

  const LAN := Switch("lan", ["net"], Some(Sidecar(true, true, true)))
  const BUILD := Switch("__build", ["build"], Some(Sidecar(true, true, false)))
  const DEMO := Plan("demo", ["disk"], [LAN], [], [], BUILD)

  const POOL_NODE := "pool:disk"
  const FABRIC_NODE := "network:lan"
  const SIDECAR_NODE := "sidecar:lan"

  const DEMO_GRAPH := Graph(
    "demo",
    [POOL_NODE, FABRIC_NODE, SIDECAR_NODE],
    [Edge(SIDECAR_NODE, FABRIC_NODE, Ordering), Edge(SIDECAR_NODE, POOL_NODE, Ordering)],
    map[POOL_NODE := {}, FABRIC_NODE := {}, SIDECAR_NODE := {FABRIC_NODE, POOL_NODE}],
    map[POOL_NODE := {SIDECAR_NODE}, FABRIC_NODE := {SIDECAR_NODE}, SIDECAR_NODE := {}],
    [[FABRIC_NODE, POOL_NODE], [SIDECAR_NODE]],
    [[FABRIC_NODE, POOL_NODE, SIDECAR_NODE]])

  lemma DemoNames()
    ensures POOL_NODE == PoolNode("disk") && FABRIC_NODE == NetworkNode("lan") && SIDECAR_NODE == SidecarNode("lan")
    ensures POOL_NODE != FABRIC_NODE && POOL_NODE != SIDECAR_NODE && FABRIC_NODE != SIDECAR_NODE
    ensures Leq(FABRIC_NODE, POOL_NODE) && Leq(POOL_NODE, SIDECAR_NODE) && Leq(FABRIC_NODE, SIDECAR_NODE)
  {
    assert POOL_NODE[0] == 'p' && FABRIC_NODE[0] == 'n' && SIDECAR_NODE[0] == 's';
  }

  lemma DemoNodes()
    ensures NodesOf(DEMO) == DEMO_GRAPH.nodes && !Homeless(DEMO)
    ensures Elems(DEMO_GRAPH.nodes) == {POOL_NODE, FABRIC_NODE, SIDECAR_NODE}
  {
    DemoNames();
    assert PoolNodes(DEMO.pools) == [POOL_NODE];
    assert DEMO.switches[..0] == [];
    assert SwitchNodes([LAN]) == SwitchNodes([]) + NodesOfSwitch(LAN) by {
      assert [LAN][..0] == [];
    }
    assert VmNodes(DEMO.vms) == [];
  }

  lemma DemoEdges()
    ensures EdgesOf(DEMO) == [(SIDECAR_NODE, FABRIC_NODE), (SIDECAR_NODE, POOL_NODE)]
    ensures DEMO_GRAPH.edges == OrderingEdges(EdgesOf(DEMO)) && Deduplicates(EdgesOf(DEMO), EdgesOf(DEMO))
  {
    DemoNames();
    assert [LAN][..0] == [];
    assert SwitchEdges(DEMO, [LAN]) == SwitchEdges(DEMO, []) + EdgesOfSwitch(DEMO, LAN);
    assert VmEdges(DEMO, []) == [];
  }

  lemma StarTargets(s: string, f: string, p: string, n: string)
    requires s != f && s != p && f != p
    ensures var es := [Edge(s, f, Ordering), Edge(s, p, Ordering)];
            Targets(es, n) == (if n == s then {f, p} else {}) && ContentTargets(es, n) == {}
  {
    var es := [Edge(s, f, Ordering), Edge(s, p, Ordering)];
    assert es[0] in es && es[1] in es;
    assert forall e | e in es :: e == es[0] || e == es[1];
  }

  lemma StarRelation(s: string, f: string, p: string)
    requires s != f && s != p && f != p
    ensures var es := [Edge(s, f, Ordering), Edge(s, p, Ordering)];
            && DepsOf({p, f, s}, es) == map[p := {}, f := {}, s := {f, p}]
            && ContentDepsOf({p, f, s}, es) == map[p := {}, f := {}, s := {}]
  {
    forall n | n in {p, f, s} {
      StarTargets(s, f, p, n);
    }
  }

  lemma StarConverse(s: string, f: string, p: string)
    requires s != f && s != p && f != p
    ensures var d := map[p := {}, f := {}, s := {f, p}];
            Closed(d) && Converse(d, map[p := {s}, f := {s}, s := {}])
  {
  }

  lemma DemoRelation()
    ensures var nodes := Elems(DEMO_GRAPH.nodes);
            && DEMO_GRAPH.deps == DepsOf(nodes, DEMO_GRAPH.edges)
            && ContentDepsOf(nodes, DEMO_GRAPH.edges) == map[POOL_NODE := {}, FABRIC_NODE := {}, SIDECAR_NODE := {}]
            && Closed(DEMO_GRAPH.deps) && Converse(DEMO_GRAPH.deps, DEMO_GRAPH.dependents)
  {
    DemoNames();
    DemoNodes();
    StarRelation(SIDECAR_NODE, FABRIC_NODE, POOL_NODE);
    StarConverse(SIDECAR_NODE, FABRIC_NODE, POOL_NODE);
  }

  lemma DemoWaves()
    ensures IsWaves(DEMO_GRAPH.deps, DEMO_GRAPH.waves)
  {
    DemoNames();
    var d, w := DEMO_GRAPH.deps, DEMO_GRAPH.waves;
    assert w[..0] == [] && w[..1] == [w[0]] && [w[0]][..0] == [];
    assert Settled(w[..0]) == {} && Elems(w[0]) == {FABRIC_NODE, POOL_NODE} && Elems(w[1]) == {SIDECAR_NODE};
    assert Settled(w[..1]) == Settled([]) + Elems(w[0]);
    assert Ready(d, {}) == {FABRIC_NODE, POOL_NODE};
    assert Ready(d, {FABRIC_NODE, POOL_NODE}) == {SIDECAR_NODE};
    assert Settled(w) == Settled(w[..1]) + Elems(w[1]);
  }

  lemma DemoContentWaves()
    ensures IsWaves(map[POOL_NODE := {}, FABRIC_NODE := {}, SIDECAR_NODE := {}], DEMO_GRAPH.contentWaves)
  {
    DemoNames();
    var d, w := map[POOL_NODE := {}, FABRIC_NODE := {}, SIDECAR_NODE := {}], DEMO_GRAPH.contentWaves;
    assert w[..0] == [] && Settled([]) == {};
    assert Elems(w[0]) == {FABRIC_NODE, POOL_NODE, SIDECAR_NODE};
    assert Ready(d, {}) == {FABRIC_NODE, POOL_NODE, SIDECAR_NODE};
    assert Settled(w) == Settled(w[..0]) + Elems(w[0]);
  }

  lemma DemoFreezes()
    ensures Freezes(DEMO, DEMO_GRAPH)
  {
    DemoNames();
    DemoNodes();
    DemoEdges();
    DemoRelation();
    DemoWaves();
    DemoContentWaves();
    LayeredIsAcyclic(DEMO_GRAPH.deps, DEMO_GRAPH.waves);
  }

  lemma DemoRegistered(run: string)
    ensures Registered(DEMO) && ResumeUplink.Reserved(DEMO) && NamesApart(DEMO, DriverNaming(run))
  {
    assert "net"[0] == 'n' && !("__" <= "net");
    DotFreeNamesApart(DEMO, run);
  }

  // ---- The run -----------------------------------------------------------------------------------

  ghost function DemoConfig(run: string): Config {
    ConfigOf(DEMO, DriverNaming(run), DEMO_GRAPH, None)
  }

  lemma NodeHooked(run: string, n: string, d: Decl)
    requires StandsFor(DEMO, n, d) && n in Elems(DEMO_GRAPH.nodes) && !d.VmDecl?
    ensures var c := DemoConfig(run);
            && Hooked(c, n) && c.realize[n] == RealizeHook(DEMO, DriverNaming(run), d)
            && c.reattach[n] == ReattachHook(DEMO, d)
  {
    DemoRegistered(run);
    HooksOf(DEMO, DriverNaming(run), n, d);
  }

  /** The hooks of the three nodes. */
  lemma DemoHooks(run: string)
    ensures var c, naming := DemoConfig(run), DriverNaming(run);
            && Hooked(c, POOL_NODE) && Hooked(c, FABRIC_NODE) && Hooked(c, SIDECAR_NODE)
            && c.realize[POOL_NODE] == PoolUp(naming, "disk")
            && c.realize[FABRIC_NODE] == FabricUp(naming, false, LAN) && c.reattach[FABRIC_NODE] == FabricAgain(LAN)
            && c.realize[SIDECAR_NODE] == SidecarRealize(naming, "disk", LAN)
  {
    PoolHooked(run);
    FabricHooked(run);
    SidecarHooked(run);
  }

  lemma PoolHooked(run: string)
    ensures Hooked(DemoConfig(run), POOL_NODE)
    ensures DemoConfig(run).realize[POOL_NODE] == PoolUp(DriverNaming(run), "disk")
  {
    DemoNames();
    DemoNodes();
    NodeHooked(run, POOL_NODE, PoolDecl("disk"));
  }

  lemma FabricHooked(run: string)
    ensures var c := DemoConfig(run);
            && Hooked(c, FABRIC_NODE) && c.reattach[FABRIC_NODE] == FabricAgain(LAN)
            && c.realize[FABRIC_NODE] == FabricUp(DriverNaming(run), false, LAN)
  {
    DemoNames();
    DemoNodes();
    NodeHooked(run, FABRIC_NODE, FabricDecl(LAN));
  }

  lemma SidecarHooked(run: string)
    ensures Hooked(DemoConfig(run), SIDECAR_NODE)
    ensures DemoConfig(run).realize[SIDECAR_NODE] == SidecarRealize(DriverNaming(run), "disk", LAN)
  {
    DemoNames();
    DemoNodes();
    NodeHooked(run, SIDECAR_NODE, SidecarDecl(LAN));
  }

  lemma DemoConfigWaves(run: string)
    ensures DemoConfig(run).waves == DEMO_GRAPH.waves && DemoConfig(run).contentWaves == DEMO_GRAPH.contentWaves
  {
  }

  lemma EmptyRunnable(keys: set<Key>)
    ensures Runnable([], keys)
  {
  }

  lemma QuietRunnable(p: Program, naming: Naming, owner: Owner, keys: set<Key>)
    requires Sound(DEMO, naming, owner, p) && NoAborts(p) && Looks(p, keys)
    ensures Runnable(p, keys)
  {
    LooksSuffice(p, keys);
  }

  lemma FabricHasNoAborts(naming: Naming)
    ensures NoAborts(FabricUp(naming, false, LAN)) && NoAborts(FabricAgain(LAN))
  {
    assert SegmentsUp(naming, false, ["net"]) == SegmentUp(naming, false, "net") + [];
    assert SegmentsAgain(["net"]) == [Put(NetworkKey("net"))] + [];
  }

  lemma FabricRunnable(naming: Naming, keys: set<Key>)
    ensures Runnable(FabricUp(naming, false, LAN), keys)
  {
    RealizeSound(DEMO, naming, FabricDecl(LAN));
    FabricLooks(naming, false, LAN);
    FabricHasNoAborts(naming);
    QuietRunnable(FabricUp(naming, false, LAN), naming, Realize(NetworkNode("lan")), keys);
  }

  lemma FabricAgainRunnable(naming: Naming, keys: set<Key>)
    ensures Runnable(FabricAgain(LAN), keys)
  {
    ReattachLocal(DEMO, FabricDecl(LAN));
    LocalBasic(DEMO, naming, Infra, FabricAgain(LAN));
    SegmentsAgainLook(LAN.networks);
    FabricHasNoAborts(naming);
    QuietRunnable(FabricAgain(LAN), naming, Infra, keys);
  }

  lemma PoolRunnable(naming: Naming, keys: set<Key>)
    ensures Runnable(PoolUp(naming, "disk"), keys)
  {
    PoolUpSound(DEMO, naming, "disk");
    QuietRunnable(PoolUp(naming, "disk"), naming, Realize(PoolNode("disk")), keys);
  }

  /** A node with nothing to build. */
  lemma NothingToBuild(c: Config, w: World, n: string, pending: set<string>, realized: set<string>)
    returns (events: seq<Event>, w': World)
    requires Between(w, Materializing(0), pending, realized) && n in pending && n in WaveAt(c.contentWaves, 0)
    requires n in c.materialize && n in c.warm && n in c.realize && n in c.reattach && c.materialize[n] == []
    ensures Steps(c, w, events) == Some(w') && w'.resume == w.resume && w'.seed == w.seed
    ensures Between(w', Materializing(0), pending - {n}, realized)
  {
    EmptyRunnable(w.keys);
    events, w' := NodeRuns(c, w, n, false, pending, realized);
  }

  /** From the end of a one-wave build walk to the first realize wave. */
  lemma WalkOn(c: Config, w: World, realized: set<string>) returns (w': World)
    requires Between(w, Materializing(0), {}, realized) && |c.contentWaves| == 1
    ensures Steps(c, w, [Advance(false), Advance(false)]) == Some(w') && w'.resume == w.resume && w'.seed == w.seed
    ensures Between(w', Realizing(0), WaveAt(c.waves, 0), realized)
  {
    var w1 := w.(phase := InfraDown);
    assert Next(c, w, Advance(false)) == Some(w1);
    w' := w1.(phase := Realizing(0), pending := WaveAt(c.waves, 0));
    assert Next(c, w1, Advance(false)) == Some(w');
    StepsOne(c, w, Advance(false));
    StepsSnoc(c, w, [Advance(false)], Advance(false));
    assert [Advance(false)] + [Advance(false)] == [Advance(false), Advance(false)];
  }

  lemma StepsOn(c: Config, w: World, first: seq<Event>, mid: World, second: seq<Event>, last: World)
    requires Steps(c, w, first) == Some(mid) && Steps(c, mid, second) == Some(last)
    ensures Steps(c, w, first + second) == Some(last)
  {
    StepsConcat(c, w, first, second);
  }

  // ---- Any plan of that shape ------------------------------------------------------------------

  /** A hook that needs nothing to run to its end. */
  ghost predicate Independent(p: Program) {
    forall keys :: Runnable(p, keys)
  }

  /** A node whose hook needs nothing. */
  lemma FreeNodeRuns(c: Config, w: World, n: string, p: Program, pending: set<string>, realized: set<string>)
    returns (events: seq<Event>, w': World)
    requires Between(w, w.phase, pending, realized) && w.phase.Realizing? && n in pending &&
             n in WaveAt(c.waves, w.phase.wave)
    requires Hooked(c, n) && Independent(p) && p == (if Reattaches(w, n) then c.reattach[n] else c.realize[n])
    ensures Steps(c, w, events) == Some(w') && w'.resume == w.resume && w'.seed == w.seed
    ensures Between(w', w.phase, pending - {n}, realized + {n})
  {
    assert Runnable(p, w.keys);
    events, w' := NodeRuns(c, w, n, false, pending, realized);
  }

  ghost predicate Hooked(c: Config, n: string) {
    n in c.materialize && n in c.warm && n in c.realize && n in c.reattach && c.materialize[n] == []
  }

  /** A fabric `f` and a pool `p` first, then a sidecar `s`; nothing to build. */
  ghost predicate Shaped(c: Config, f: string, p: string, s: string) {
    && f != p && f != s && p != s && Hooked(c, f) && Hooked(c, p) && Hooked(c, s)
    && |c.contentWaves| == 1 && WaveAt(c.contentWaves, 0) == {f, p, s}
    && |c.waves| == 2 && WaveAt(c.waves, 0) == {f, p} && WaveAt(c.waves, 1) == {s}
    && Independent(c.realize[p]) && Independent(c.realize[f]) && Independent(c.reattach[f])
  }

  /** A whole build walk: three stamps. */
  lemma BuildWalk(c: Config, f: string, p: string, s: string, w: World, realized: set<string>)
    returns (events: seq<Event>, w': World)
    requires Shaped(c, f, p, s) && Between(w, Materializing(0), {f, p, s}, realized)
    ensures Steps(c, w, events) == Some(w') && w'.resume == w.resume && w'.seed == w.seed
    ensures Between(w', Realizing(0), {f, p}, realized)
  {
    var e1, w1 := NothingToBuild(c, w, p, {f, p, s}, realized);
    assert {f, p, s} - {p} == {f, s} && {f, s} - {f} == {s} && {s} - {s} == {};
    var e2, w2 := NothingToBuild(c, w1, f, {f, s}, realized);
    StepsOn(c, w, e1, w1, e2, w2);
    var e3, w3 := NothingToBuild(c, w2, s, {s}, realized);
    StepsOn(c, w, e1 + e2, w2, e3, w3);
    w' := WalkOn(c, w3, realized);
    StepsOn(c, w, e1 + e2 + e3, w3, [Advance(false), Advance(false)], w');
    events := e1 + e2 + e3 + [Advance(false), Advance(false)];
  }

  /** The first process: it builds, creates the fabric, and dies. */
  lemma FirstProcess(c: Config, f: string, p: string, s: string, st: State) returns (events: seq<Event>, w: World)
    requires Shaped(c, f, p, s) && FreshState(st)
    ensures After(c, st, events) == Some(w) && w.phase.Dead? && w.threads == map[] && LedgerHas(w, {f})
    ensures w.pending == {} && !w.failed && w.infraHolder.None? && !w.infraActive
  {
    var w0 := Initial(c, st);
    var e1, w1 := BuildWalk(c, f, p, s, w0, {});
    var e2, w2 := FreeNodeRuns(c, w1, f, c.realize[f], {f, p}, {});
    assert {} + {f} == {f};
    StepsOn(c, w0, e1, w1, e2, w2);
    w := Died(w2);
    StepsOne(c, w2, Crash);
    StepsOn(c, w0, e1 + e2, w2, [Crash], w);
    events := e1 + e2 + [Crash];
  }

  lemma RealizeFirstWave(c: Config, f: string, p: string, s: string, w: World) returns (events: seq<Event>, w': World)
    requires Shaped(c, f, p, s) && Between(w, Realizing(0), {f, p}, {f}) && w.resume && w.seed == {f}
    ensures Steps(c, w, events) == Some(w') && w'.resume && w'.seed == {f}
    ensures Between(w', Realizing(1), {s}, {f, p})
  {
    var e1, w1 := FreeNodeRuns(c, w, f, c.reattach[f], {f, p}, {f});
    assert {f, p} - {f} == {p} && {p} - {p} == {} && {f} + {f} == {f} && {f} + {p} == {f, p};
    var e2, w2 := FreeNodeRuns(c, w1, p, c.realize[p], {p}, {f});
    StepsOn(c, w, e1, w1, e2, w2);
    w' := SecondWave(c, w2, {f, p});
    StepsOn(c, w, e1 + e2, w2, [Advance(false)], w');
    events := e1 + e2 + [Advance(false)];
  }

  lemma SecondWave(c: Config, w: World, realized: set<string>) returns (w': World)
    requires Between(w, Realizing(0), {}, realized) && |c.waves| == 2
    ensures Steps(c, w, [Advance(false)]) == Some(w') && w'.resume == w.resume && w'.seed == w.seed
    ensures Between(w', Realizing(1), WaveAt(c.waves, 1), realized)
  {
    w' := w.(phase := Realizing(1), pending := WaveAt(c.waves, 1));
    assert Next(c, w, Advance(false)) == Some(w');
    StepsOne(c, w, Advance(false));
  }

  /** The second process: it resumes, builds, reattaches to the fabric and creates the pool;
      the sidecar is next. */
  lemma SecondProcess(c: Config, f: string, p: string, s: string, st: State) returns (events: seq<Event>, w: World)
    requires Shaped(c, f, p, s) && FreshState(st)
    ensures After(c, st, events) == Some(w)
    ensures Between(w, Realizing(1), {s}, {f, p}) && w.resume && w.seed == {f}
  {
    var e0, dead := FirstProcess(c, f, p, s, st);
    var w0 := dead.(phase := Materializing(0), resume := true, seed := {f}, up := {}, keys := {}, pending := {f, p, s});
    assert Next(c, dead, Resume) == Some(w0);
    StepsOne(c, dead, Resume);
    var e1, w1 := BuildWalk(c, f, p, s, w0, {f});
    StepsOn(c, dead, [Resume], w0, e1, w1);
    var e2;
    e2, w := RealizeFirstWave(c, f, p, s, w1);
    StepsOn(c, dead, [Resume] + e1, w1, e2, w);
    StepsOn(c, Initial(c, st), e0, dead, [Resume] + e1 + e2, w);
    events := e0 + ([Resume] + e1 + e2);
  }

  // ---- The sidecar of the demo plan ----------------------------------------------------------------

  lemma DemoWavesAre()
    ensures WaveAt(DEMO_GRAPH.waves, 0) == {FABRIC_NODE, POOL_NODE} && WaveAt(DEMO_GRAPH.waves, 1) == {SIDECAR_NODE}
    ensures WaveAt(DEMO_GRAPH.contentWaves, 0) == {FABRIC_NODE, POOL_NODE, SIDECAR_NODE}
  {
  }

  lemma DemoIndependent(naming: Naming)
    ensures Independent(PoolUp(naming, "disk"))
    ensures Independent(FabricUp(naming, false, LAN)) && Independent(FabricAgain(LAN))
  {
    forall keys ensures Runnable(PoolUp(naming, "disk"), keys) {
      PoolRunnable(naming, keys);
    }
    forall keys ensures Runnable(FabricUp(naming, false, LAN), keys) && Runnable(FabricAgain(LAN), keys) {
      FabricRunnable(naming, keys);
      FabricAgainRunnable(naming, keys);
    }
  }

  lemma DemoShaped(run: string)
    ensures Shaped(DemoConfig(run), FABRIC_NODE, POOL_NODE, SIDECAR_NODE)
  {
    DemoNames();
    DemoHooks(run);
    DemoConfigWaves(run);
    DemoWavesAre();
    DemoIndependent(DriverNaming(run));
    ShapedIs(DemoConfig(run), FABRIC_NODE, POOL_NODE, SIDECAR_NODE);
  }

  lemma ShapedIs(c: Config, f: string, p: string, s: string)
    requires f != p && f != s && p != s && Hooked(c, f) && Hooked(c, p) && Hooked(c, s)
    requires |c.contentWaves| == 1 && WaveAt(c.contentWaves, 0) == {f, p, s}
    requires |c.waves| == 2 && WaveAt(c.waves, 0) == {f, p} && WaveAt(c.waves, 1) == {s}
    requires Independent(c.realize[p]) && Independent(c.realize[f]) && Independent(c.reattach[f])
    ensures Shaped(c, f, p, s)
  {
  }

  /** The sidecar's hook up to the lookup of its uplink, and the rest. */
  function BeforeUplink(naming: Naming): Program {
    ([Get(PoolKey("disk"))]
     + (Bring(naming, Slot(false, SidecarDisk, "lan", 0)) + Bring(naming, Slot(false, SidecarConfig, "lan", 0))))
    + [Get(NetworkKey("net"))]
  }

  function FromUplink(naming: Naming): Program {
    [Get(NetworkKey(UplinkName("lan")))]
    + ((Bring(naming, Slot(false, SidecarVm, "lan", 0)) + [Work, Put(SidecarKey("lan"))]) + SidecarReady(LAN))
  }

  lemma SidecarSplits(naming: Naming)
    ensures SidecarRealize(naming, "disk", LAN) == BeforeUplink(naming) + FromUplink(naming)
  {
  }

  lemma {:induction false} SafePrefix(p: Program, q: Program, recorded: set<string>, live: set<string>)
    requires Safe(p + q, recorded, live)
    ensures Safe(p, recorded, live)
    decreases |p|
  {
    if p != [] {
      assert (p + q)[0] == p[0] && (p + q)[1..] == p[1..] + q;
      match p[0] {
        case Record(r) => SafePrefix(p[1..], q, recorded + {r.backendName}, live);
        case Create(x) => SafePrefix(p[1..], q, recorded, live + {x});
        case Destroy(x) => SafePrefix(p[1..], q, recorded, live - {x});
        case Forget(x) => SafePrefix(p[1..], q, recorded - {x}, live);
        case BestEffortDelete(x) => SafePrefix(p[1..], q, recorded - {x}, live);
        case _ => SafePrefix(p[1..], q, recorded, live);
      }
    }
  }

  lemma BeforeUplinkIs(naming: Naming, keys: set<Key>)
    requires PoolKey("disk") in keys && NetworkKey("net") in keys
    ensures var p := BeforeUplink(naming);
            Looks(p, keys) && NoDrops(p) && NoAborts(p) && Constructive(p)
  {
  }

  lemma BeforeUplinkProceeds(run: string, s: State, live: set<string>, keys: set<Key>)
    requires PoolKey("disk") in keys && NetworkKey("net") in keys
    ensures Proceeds(BeforeUplink(DriverNaming(run)), s, keys)
  {
    var naming := DriverNaming(run);
    var p, q := BeforeUplink(naming), FromUplink(naming);
    SidecarRealizeSound(DEMO, naming, "disk", LAN);
    SidecarSplits(naming);
    DisciplinedIsSafe(p + q, NamesOf(s.resources), live);
    SafePrefix(p, q, NamesOf(s.resources), live);
    BeforeUplinkIs(naming, keys);
    LooksSuffice(p, keys);
    BuildingProceeds(p, s, live, keys);
  }

  lemma DemoReaches(run: string, st: State, events: seq<Event>, w: World)
    requires FreshState(st) && After(DemoConfig(run), st, events) == Some(w)
    ensures Reaches(DEMO, DriverNaming(run), DEMO_GRAPH, None, st, events, w)
  {
    DemoRegistered(run);
    DemoFreezes();
  }

  /** What the sidecar looks up before its uplink is known when it starts. */
  lemma PoolIsKnown(run: string, st: State, events: seq<Event>, w: World)
    requires Reaches(DEMO, DriverNaming(run), DEMO_GRAPH, None, st, events, w) && AboutToRealize(w, SIDECAR_NODE)
    ensures PoolKey("disk") in w.keys
  {
    DemoNames();
    SidecarEdgesIn(DEMO, LAN);
    DependencyReady(DEMO, DriverNaming(run), DEMO_GRAPH, None, st, events, w, SIDECAR_NODE, POOL_NODE);
    PoolPuts(DEMO, DriverNaming(run), "disk");
  }

  lemma NetworkIsKnown(run: string, st: State, events: seq<Event>, w: World)
    requires Reaches(DEMO, DriverNaming(run), DEMO_GRAPH, None, st, events, w) && AboutToRealize(w, SIDECAR_NODE)
    ensures NetworkKey("net") in w.keys
  {
    DemoNames();
    SidecarEdgesIn(DEMO, LAN);
    DependencyReady(DEMO, DriverNaming(run), DEMO_GRAPH, None, st, events, w, SIDECAR_NODE, FABRIC_NODE);
    SwitchPuts(DEMO, DriverNaming(run), LAN);
    assert "net" in LAN.networks;
  }

  /** A node starts its realize hook and runs the first part of it. */
  lemma RunsUpTo(c: Config, w: World, n: string, p: Program, q: Program, realized: set<string>)
    returns (events: seq<Event>, w': World)
    requires Between(w, Realizing(1), {n}, realized) && n in WaveAt(c.waves, 1) && Hooked(c, n) && !Reattaches(w, n)
    requires c.realize[n] == p + q && q != [] && Proceeds(p, w.ledger.value, w.keys)
    ensures Steps(c, w, events) == Some(w') && w'.phase == Realizing(1) && w'.resume == w.resume && w'.seed == w.seed
    ensures w'.ledger.Some? && w'.threads == map[Worker(n) := Thread([], q + [Stamp(n, true)])]
  {
    NodeStarts(c, w, n, false, {n}, realized);
    StepsOne(c, w, Start(n, false));
    var rest := q + [Stamp(n, true)];
    assert ProgramOf(c, w, n, false) == p + rest;
    var w1 := w.(pending := {n} - {n}, threads := map[Worker(n) := Thread([], p + rest)]);
    var more;
    more, w' := ThreadRuns(c, w1, n, p, rest, realized);
    StepsOn(c, w, [Start(n, false)], w1, more, w');
    events := [Start(n, false)] + more;
  }

  /** The sidecar's hook starts and runs up to the lookup. */
  lemma SidecarGetsThere(run: string, st: State, before: seq<Event>, w: World) returns (events: seq<Event>, w': World)
    requires FreshState(st) && After(DemoConfig(run), st, before) == Some(w)
    requires Between(w, Realizing(1), {SIDECAR_NODE}, {FABRIC_NODE, POOL_NODE}) && w.seed == {FABRIC_NODE}
    ensures After(DemoConfig(run), st, events) == Some(w') && w'.phase == Realizing(1)
    ensures w'.resume == w.resume && w'.seed == w.seed && w'.ledger.Some?
    ensures w'.threads ==
            map[Worker(SIDECAR_NODE) := Thread([], FromUplink(DriverNaming(run)) + [Stamp(SIDECAR_NODE, true)])]
  {
    var c, naming := DemoConfig(run), DriverNaming(run);
    DemoNames();
    SidecarIsNext(run);
    SidecarProceeds(run, st, before, w);
    var more;
    more, w' := RunsUpTo(c, w, SIDECAR_NODE, BeforeUplink(naming), FromUplink(naming), {FABRIC_NODE, POOL_NODE});
    StepsOn(c, Initial(c, st), before, w, more, w');
    events := before + more;
  }

  lemma SidecarIsNext(run: string)
    ensures Hooked(DemoConfig(run), SIDECAR_NODE) && SIDECAR_NODE in WaveAt(DemoConfig(run).waves, 1)
    ensures DemoConfig(run).realize[SIDECAR_NODE] == BeforeUplink(DriverNaming(run)) + FromUplink(DriverNaming(run))
  {
    SidecarHooked(run);
    DemoConfigWaves(run);
    DemoWavesAre();
    SidecarSplits(DriverNaming(run));
  }

  lemma SidecarProceeds(run: string, st: State, events: seq<Event>, w: World)
    requires FreshState(st) && After(DemoConfig(run), st, events) == Some(w) && w.ledger.Some?
    requires AboutToRealize(w, SIDECAR_NODE)
    ensures Proceeds(BeforeUplink(DriverNaming(run)), w.ledger.value, w.keys)
  {
    DemoReaches(run, st, events, w);
    PoolIsKnown(run, st, events, w);
    NetworkIsKnown(run, st, events, w);
    BeforeUplinkProceeds(run, w.ledger.value, w.live, w.keys);
  }

  /** A thread at a lookup of a missing key raises. */
  lemma MissRaises(c: Config, w: World, n: string, q: Program, k: Key)
    requires w.ledger.Some? && w.threads == map[Worker(n) := Thread([], q)] && q != [] && q[0] == Get(k) && k !in w.keys
    ensures Next(c, w, Exec(Worker(n), Succeeds, "")).Some?
    ensures var w' := Next(c, w, Exec(Worker(n), Succeeds, "")).value;
            w'.failed && Worker(n) !in w'.threads
  {
  }

  lemma ReachesUplink(run: string, st: State) returns (events: seq<Event>, w: World)
    requires FreshState(st)
    ensures After(DemoConfig(run), st, events) == Some(w) && w.phase == Realizing(1)
    ensures w.resume && w.seed == {FABRIC_NODE} && w.ledger.Some?
    ensures w.threads ==
            map[Worker(SIDECAR_NODE) := Thread([], FromUplink(DriverNaming(run)) + [Stamp(SIDECAR_NODE, true)])]
  {
    DemoShaped(run);
    var before, ready := SecondProcess(DemoConfig(run), FABRIC_NODE, POOL_NODE, SIDECAR_NODE, st);
    events, w := SidecarGetsThere(run, st, before, ready);
  }

  /** The failing lookup is reached: the first process creates the fabric and dies before the
      sidecar; the second reattaches to the fabric, starts the sidecar and finds no uplink,
      so its hook raises. */
  lemma ResumeMissesUplink(run: string, st: State) returns (events: seq<Event>, w: World)
    requires FreshState(st)
    ensures Reaches(DEMO, DriverNaming(run), DEMO_GRAPH, None, st, events, w) && w.phase.Realizing?
    ensures Worker(SIDECAR_NODE) in w.threads && w.threads[Worker(SIDECAR_NODE)].own != []
    ensures Head(w.threads[Worker(SIDECAR_NODE)]) == Get(NetworkKey(UplinkName("lan")))
    ensures NetworkKey(UplinkName("lan")) !in w.keys
    ensures var next := Next(DemoConfig(run), w, Exec(Worker(SIDECAR_NODE), Succeeds, ""));
            next.Some? && next.value.failed && Worker(SIDECAR_NODE) !in next.value.threads
  {
    events, w := ReachesUplink(run, st);
    DemoReaches(run, st, events, w);
    UplinkIsMissing(run, st, events, w);
    MissRaises(DemoConfig(run), w, SIDECAR_NODE, FromUplink(DriverNaming(run)) + [Stamp(SIDECAR_NODE, true)],
               NetworkKey(UplinkName("lan")));
  }

  lemma UplinkIsMissing(run: string, st: State, events: seq<Event>, w: World)
    requires Reaches(DEMO, DriverNaming(run), DEMO_GRAPH, None, st, events, w) && w.phase.Realizing?
    requires w.resume && w.seed == {FABRIC_NODE}
    requires w.threads ==
             map[Worker(SIDECAR_NODE) := Thread([], FromUplink(DriverNaming(run)) + [Stamp(SIDECAR_NODE, true)])]
    ensures NetworkKey(UplinkName("lan")) !in w.keys
  {
    DemoNames();
    DemoRegistered(run);
    UplinkLookupExact(DEMO, DriverNaming(run), DEMO_GRAPH, None, st, events, w, LAN);
  }
}
