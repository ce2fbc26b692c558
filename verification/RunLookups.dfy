/** Every dictionary lookup a hook makes is defined, and what a node depends on exists by
    the time its hook starts: consequences of the wave gating, in every run.
 */
module RunLookups {
  import opened Ledger
  import opened Actions
  import opened RunSystem
  import opened RunSafety
  import opened RunOrder
  import opened Relation
  import opened BuildGraph

  // ---- What programs look up and leave behind ----------------------------------------

  ghost function Puts(p: Program): set<Key> {
    set a | a in p && a.Put? :: a.key
  }

  ghost function Drops(p: Program): set<Key> {
    set a | a in p && a.Drop? :: a.key
  }

  ghost function Creates(p: Program): set<string> {
    set a | a in p && a.Create? :: a.name
  }

  /** Every lookup the program gets to succeeds when it starts out knowing `keys`. */
  ghost predicate Defined(p: Program, keys: set<Key>) {
    if p == [] || p[0].Abort? then true
    else (p[0].Get? ==> p[0].key in keys) && Defined(p[1..], KeysAfter(p[0], keys))
  }

  lemma {:induction false} DefinedMore(p: Program, keys: set<Key>, keys': set<Key>)
    requires Defined(p, keys) && keys <= keys'
    ensures Defined(p, keys')
  {
    if p != [] && !p[0].Abort? {
      DefinedMore(p[1..], KeysAfter(p[0], keys), KeysAfter(p[0], keys'));
    }
  }

  lemma {:induction false} DefinedConcat(p: Program, q: Program, keys: set<Key>, known: set<Key>)
    requires Defined(p, keys) && NoDrops(p) && Defined(q, known) && known <= keys + Puts(p)
    ensures Defined(p + q, keys)
  {
    if p == [] {
      assert p + q == q;
      DefinedMore(q, known, keys);
    } else if !p[0].Abort? {
      assert (p + q)[1..] == p[1..] + q;
      assert p[0] in p;
      assert forall a | a in p :: a == p[0] || a in p[1..];
      DefinedConcat(p[1..], q, KeysAfter(p[0], keys), known);
    }
  }

  /** Only builds up: nothing is destroyed, forgotten or dropped. */
  ghost predicate Constructive(p: Program) {
    forall a | a in p ::
      a.Record? || a.Create? || a.Confirm? || a.Work? || a.Put? || a.Get? || a.Abort? || a.Stamp?
  }

  ghost predicate NoDrops(p: Program) {
    forall a | a in p :: !a.Drop?
  }

  ghost predicate OnlyRemoves(p: Program) {
    forall a | a in p :: !a.Put? && !a.Get?
  }

  // ---- Conditions on the plan's programs ------------------------------------------------

  /** Keys a materialize hook leaves behind, on a hit as on a miss. */
  ghost predicate MaterializeFits(c: Config, n: string)
    requires n in c.materialize && n in c.warm
  {
    && NoDrops(c.materialize[n]) && Puts(c.warm[n]) <= Puts(c.materialize[n])
    && Defined(c.materialize[n], {}) && Defined(c.warm[n], {})
    && Drops(c.infraDown) !! Puts(c.warm[n])
  }

  ghost predicate KeysFit(c: Config) {
    && (forall n | n in c.materialize && n in c.warm :: MaterializeFits(c, n))
    && NoDrops(c.infra) && Defined(c.infra, {}) && OnlyRemoves(c.infraDown)
    && (forall n | n in c.realize :: Constructive(c.realize[n]))
  }

  /** What the realize hook of `m` leaves behind, given the nodes it is reattached for. */
  ghost function Provided(c: Config, seed: set<string>, m: string): set<Key> {
    if m !in c.realize || m !in c.reattach then {}
    else if m in seed then Puts(c.reattach[m]) else Puts(c.realize[m])
  }

  /** The artifacts of every content wave before `k` are known. */
  ghost predicate AllBuilt(c: Config, k: nat, keys: set<Key>) {
    forall i, n | 0 <= i < k && i < |c.contentWaves| && n in c.contentWaves[i] && n in c.warm :: Puts(c.warm[n]) <= keys
  }

  /** What wave gating guarantees before a node of that level starts. */
  ghost predicate Suffices(c: Config, seed: set<string>, level: nat, keys: set<Key>) {
    && AllBuilt(c, |c.contentWaves|, keys)
    && (forall m | m in c.level && c.level[m] < level :: Provided(c, seed, m) <= keys)
  }

  /** A node's realize hook only looks up what wave gating guarantees. */
  ghost predicate LookupsFit(c: Config, seed: set<string>, n: string) {
    n in c.level && n in c.realize && n in c.reattach &&
    forall keys | Suffices(c, seed, c.level[n], keys) ::
      Defined(if n in seed then c.reattach[n] else c.realize[n], keys)
  }

  /** The nodes this process reattaches to. */
  ghost function Attached(w: World): set<string> {
    if w.resume then w.seed else {}
  }

  // ---- The invariant -----------------------------------------------------------------------

  ghost predicate WorkerKnows(
    c: Config, phase: Phase, seed: set<string>, resume: bool, keys: set<Key>, live: set<string>, n: string, th: Thread)
  {
    && NoDrops(th.own) && NoDrops(th.infra) && Defined(th.infra, keys)
    && (phase.Materializing? ==>
          Defined(th.own, keys) && (n in c.warm ==> Puts(c.warm[n]) <= keys + Puts(th.own)))
    && (phase.Realizing? ==>
          && th.infra == [] && Constructive(th.own)
          && (LookupsFit(c, seed, n) ==> Defined(th.own, keys))
          && Provided(c, seed, n) <= keys + Puts(th.own)
          && (!resume && n in c.realize ==> Creates(c.realize[n]) <= live + Creates(th.own)))
  }

  ghost predicate ThreadKnows(
    c: Config, phase: Phase, seed: set<string>, resume: bool, keys: set<Key>, live: set<string>, t: Tid, th: Thread)
  {
    match t
    case Main => phase.InfraDown? && th.infra == [] && OnlyRemoves(th.own) && Drops(th.own) <= Drops(c.infraDown)
    case Worker(n) => !phase.InfraDown? && WorkerKnows(c, phase, seed, resume, keys, live, n, th)
  }

  ghost predicate WaveBuilt(c: Config, w: World, k: nat) {
    forall n | n in WaveAt(c.contentWaves, k) && n in c.warm ::
      w.failed || n in w.pending || Worker(n) in w.threads || Puts(c.warm[n]) <= w.keys
  }

  /** What every completed realize hook left behind. */
  ghost predicate UpKnown(c: Config, seed: set<string>, resume: bool, keys: set<Key>, live: set<string>,
      up: set<string>) {
    forall m | m in up ::
      Provided(c, seed, m) <= keys && (!resume && m in c.realize ==> Creates(c.realize[m]) <= live)
  }

  ghost predicate WalkKnows(c: Config, w: World) {
    match w.phase
    case Materializing(k) => w.up == {} && AllBuilt(c, k, w.keys) && WaveBuilt(c, w, k)
    case InfraDown => w.up == {} && (w.failed || AllBuilt(c, |c.contentWaves|, w.keys))
    case Realizing(k) =>
      AllBuilt(c, |c.contentWaves|, w.keys) && UpKnown(c, Attached(w), w.resume, w.keys, w.live, w.up)
    case Up => UpKnown(c, Attached(w), w.resume, w.keys, w.live, w.up)
    case _ => true
  }

  ghost predicate ThreadsKnow(c: Config, w: World) {
    forall t | t in w.threads :: ThreadKnows(c, w.phase, Attached(w), w.resume, w.keys, w.live, t, w.threads[t])
  }

  ghost predicate Lookups(c: Config, w: World) {
    WalkKnows(c, w) && ThreadsKnow(c, w)
  }

  // ---- Knowing more does not hurt ----------------------------------------------------------

  lemma WorkerKnowsMore(
    c: Config, phase: Phase, seed: set<string>, resume: bool, keys: set<Key>, live: set<string>,
    keys': set<Key>, live': set<string>, n: string, th: Thread)
    requires WorkerKnows(c, phase, seed, resume, keys, live, n, th)
    requires keys <= keys' && (phase.Realizing? ==> live <= live')
    ensures WorkerKnows(c, phase, seed, resume, keys', live', n, th)
  {
    DefinedMore(th.infra, keys, keys');
    if Defined(th.own, keys) {
      DefinedMore(th.own, keys, keys');
    }
  }

  // ---- Starting ------------------------------------------------------------------------------

  lemma StampedPuts(p: Program, n: string, realized: bool, keys: set<Key>)
    ensures var q := p + [Stamp(n, realized)];
            && Puts(q) == Puts(p) && Creates(q) == Creates(p)
            && (NoDrops(p) ==> NoDrops(q)) && (Constructive(p) ==> Constructive(q))
            && (Defined(p, keys) && NoDrops(p) ==> Defined(q, keys))
  {
    var s := [Stamp(n, realized)];
    assert forall a :: a in p + s <==> a in p || a == s[0];
    if Defined(p, keys) && NoDrops(p) {
      assert Defined(s, {});
      DefinedConcat(p, s, keys, {});
    }
  }

  lemma LocalConstructs(p: Program)
    requires Local(p)
    ensures Constructive(p) && NoDrops(p)
  {
  }

  lemma HookKnows(c: Config, phase: Phase, seed: set<string>, resume: bool, keys: set<Key>, live: set<string>,
      n: string, hit: bool)
    requires KeysFit(c) && (phase.Materializing? || phase.Realizing?)
    requires phase.Materializing? ==> n in c.materialize && n in c.warm && Local(c.warm[n])
    requires phase.Realizing? ==> n in c.realize && n in c.reattach && Local(c.reattach[n])
    requires phase.Realizing? ==> n in c.level && c.level[n] == phase.wave && Suffices(c, seed, phase.wave, keys)
    requires !resume ==> seed == {}
    ensures WorkerKnows(c, phase, seed, resume, keys, live, n, Thread([], HookOf(c, phase, n in seed, n, hit)))
  {
    var p := HookOf(c, phase, n in seed, n, hit);
    if phase.Materializing? {
      assert MaterializeFits(c, n);
      LocalConstructs(c.warm[n]);
      DefinedMore(p, {}, keys);
    } else {
      LocalConstructs(c.reattach[n]);
    }
  }

  lemma StampedKnows(
    c: Config, phase: Phase, seed: set<string>, resume: bool, keys: set<Key>, live: set<string>, n: string, p: Program)
    requires WorkerKnows(c, phase, seed, resume, keys, live, n, Thread([], p))
    ensures WorkerKnows(c, phase, seed, resume, keys, live, n, Thread([], p + [Stamp(n, phase.Realizing?)]))
  {
    StampedPuts(p, n, phase.Realizing?, keys);
  }

  lemma WaitingSuffices(c: Config, w: World)
    requires LevelsFit(c) && Order(c, w) && WalkKnows(c, w) && w.ledger.Some? && w.phase.Realizing?
    ensures Suffices(c, Attached(w), w.phase.wave, w.keys)
  {
  }

  lemma StartKnows(c: Config, w: World, n: string, hit: bool)
    requires WellFormed(c) && KeysFit(c) && Safety(c, w) && Order(c, w) && Lookups(c, w)
    requires StepStart(c, w, n, hit).Some?
    ensures Lookups(c, StepStart(c, w, n, hit).value)
  {
    WorkerInMap(c, w.phase, n);
    if w.phase.Realizing? {
      WaitingSuffices(c, w);
    }
    HookKnows(c, w.phase, Attached(w), w.resume, w.keys, w.live, n, hit);
    StampedKnows(c, w.phase, Attached(w), w.resume, w.keys, w.live, n, HookOf(c, w.phase, Reattaches(w, n), n, hit));
    NewWorkerKnows(c, w, n, ProgramOf(c, w, n, hit));
  }

  lemma NewWorkerKnows(c: Config, w: World, n: string, p: Program)
    requires Lookups(c, w) && n in w.pending && !w.phase.InfraDown?
    requires WorkerKnows(c, w.phase, Attached(w), w.resume, w.keys, w.live, n, Thread([], p))
    ensures Lookups(c, w.(pending := w.pending - {n}, threads := w.threads[Worker(n) := Thread([], p)]))
  {
  }

  // ---- Running a step ---------------------------------------------------------------------------

  lemma RestKnows(p: Program, o: Outcome, keys: set<Key>)
    requires p != [] && NoDrops(p)
    ensures NoDrops(Rest(p, o)) && Puts(p) <= Puts(Rest(p, o)) + KeysAfter(p[0], {})
    ensures keys <= KeysAfter(p[0], keys)
    ensures Defined(p, keys) && !p[0].Abort? ==> Defined(Rest(p, o), KeysAfter(p[0], keys))
  {
    assert p[0] in p;
    assert forall a | a in p :: a == p[0] || a in p[1..];
    if p[0].BestEffortDelete? && o.Succeeds? {
      assert Rest(p, o)[1..] == p[1..];
      assert forall a :: a in Rest(p, o) <==> a == Forget(p[0].name) || a in p[1..];
    }
  }

  /** In a constructive program a step that goes on has taken effect. */
  lemma RestCreates(p: Program, o: Outcome, s: State, keys: set<Key>, live: set<string>)
    requires p != [] && Constructive(p)
    ensures live <= LiveAfter(p[0], o, live)
    ensures !RaisesOut(p[0], o, s, keys) ==>
              Constructive(Rest(p, o)) && Creates(p) <= Creates(Rest(p, o)) + LiveAfter(p[0], o, live)
  {
    assert p[0] in p;
    assert forall a | a in p :: a == p[0] || a in p[1..];
  }

  /** The stepping worker. */
  lemma SelfKnows(
    c: Config, phase: Phase, seed: set<string>, resume: bool, keys: set<Key>, live: set<string>, s: State,
    n: string, th: Thread, o: Outcome)
    requires WorkerKnows(c, phase, seed, resume, keys, live, n, th) && (th.infra != [] || th.own != [])
    ensures var a := Head(th);
            && keys <= KeysAfter(a, keys) && (phase.Realizing? ==> live <= LiveAfter(a, o, live))
            && (!RaisesOut(a, o, s, keys) ==>
                  WorkerKnows(c, phase, seed, resume, KeysAfter(a, keys), LiveAfter(a, o, live), n, AfterHead(th, o)))
  {
    var a := Head(th);
    if th.infra != [] {
      RestKnows(th.infra, o, keys);
      if Defined(th.own, keys) {
        DefinedMore(th.own, keys, KeysAfter(a, keys));
      }
    } else {
      RestKnows(th.own, o, keys);
      if phase.Realizing? {
        RestCreates(th.own, o, s, keys, live);
      }
    }
  }

  /** The walk and the other workers when a worker's step has taken effect. */
  lemma OthersKnow(c: Config, w: World, w': World)
    requires Lookups(c, w) && (w.phase.Materializing? || w.phase.Realizing?)
    requires w.keys <= w'.keys && (w.phase.Realizing? ==> w.live <= w'.live)
    requires w' == w.(ledger := w'.ledger, keys := w'.keys, live := w'.live)
    ensures Lookups(c, w')
  {
    forall t | t in w'.threads
      ensures ThreadKnows(c, w'.phase, Attached(w'), w'.resume, w'.keys, w'.live, t, w'.threads[t])
    {
      assert ThreadKnows(c, w.phase, Attached(w), w.resume, w.keys, w.live, t, w.threads[t]);
      WorkerKnowsMore(c, w.phase, Attached(w), w.resume, w.keys, w.live, w'.keys, w'.live, t.node, w.threads[t]);
    }
  }

  lemma RaiseKnows(c: Config, w: World, t: Tid)
    requires Lookups(c, w)
    ensures Lookups(c, Raise(w, t))
  {
    var w' := Raise(w, t);
    assert forall u | u in w'.threads :: ThreadKnows(c, w.phase, Attached(w), w.resume, w.keys, w.live, u,
        w.threads[u]);
  }

  /** A worker goes on. `w` already has the keys and the backend after its step. */
  lemma WorkerContinues(c: Config, w: World, n: string, th: Thread, a: Action, wasInfra: bool)
    requires Lookups(c, w) && !w.phase.InfraDown? && Worker(n) in w.threads && KeysAfter(a, w.keys) == w.keys
    requires WorkerKnows(c, w.phase, Attached(w), w.resume, w.keys, w.live, n, th)
    requires a.Stamp? ==> th.own == [] && a.node == n && a.realized == w.phase.Realizing?
    ensures Lookups(c, Continue(w, Worker(n), th, a, wasInfra))
  {
    var w' := Continue(w, Worker(n), th, a, wasInfra);
    forall t | t in w'.threads
      ensures ThreadKnows(c, w'.phase, Attached(w'), w'.resume, w'.keys, w'.live, t, w'.threads[t])
    {
      if t != Worker(n) {
        assert ThreadKnows(c, w.phase, Attached(w), w.resume, w.keys, w.live, t, w.threads[t]);
      }
    }
  }

  lemma EffectIsIdempotent(w: World, t: Tid, th: Thread, a: Action, wasInfra: bool)
    ensures Continue(w, t, th, a, wasInfra) == Continue(w.(keys := KeysAfter(a, w.keys)), t, th, a, wasInfra)
  {
  }

  lemma WorkerExecKnows(c: Config, w: World, n: string, o: Outcome, now: string)
    requires Lookups(c, w) && w.ledger.Some? && Worker(n) in w.threads
    requires w.phase.Materializing? || w.phase.Realizing?
    requires var th := w.threads[Worker(n)];
             && (th.infra != [] || th.own != []) && !Head(th).EnsureInfra?
             && (Head(th).Stamp? ==> th.infra == [] && th.own == [Stamp(n, w.phase.Realizing?)])
    ensures StepExec(c, w, Worker(n), o, now).Some? && Lookups(c, StepExec(c, w, Worker(n), o, now).value)
  {
    var t, th := Worker(n), w.threads[Worker(n)];
    var a, s := Head(th), w.ledger.value;
    assert ThreadKnows(c, w.phase, Attached(w), w.resume, w.keys, w.live, t, th);
    SelfKnows(c, w.phase, Attached(w), w.resume, w.keys, w.live, s, n, th, o);
    var w1 := Effected(w, a, o, now);
    if RaisesOut(a, o, s, w.keys) {
      OthersKnow(c, w, w1);
      RaiseKnows(c, w1, t);
    } else {
      OthersKnow(c, w, w1.(keys := KeysAfter(a, w.keys)));
      GoesOn(c, w1, n, AfterHead(th, o), a, th.infra != []);
    }
  }

  lemma GoesOn(c: Config, w: World, n: string, th: Thread, a: Action, wasInfra: bool)
    requires !w.phase.InfraDown? && Worker(n) in w.threads
    requires var keys := KeysAfter(a, w.keys);
             && Lookups(c, w.(keys := keys))
             && WorkerKnows(c, w.phase, Attached(w), w.resume, keys, w.live, n, th)
    requires a.Stamp? ==> th.own == [] && a.node == n && a.realized == w.phase.Realizing?
    ensures Lookups(c, Continue(w, Worker(n), th, a, wasInfra))
  {
    EffectIsIdempotent(w, Worker(n), th, a, wasInfra);
    WorkerContinues(c, w.(keys := KeysAfter(a, w.keys)), n, th, a, wasInfra);
  }

  /** The main thread taking the build infra down drops no artifact. */
  lemma MainExecKnows(c: Config, w: World, o: Outcome, now: string)
    requires Lookups(c, w) && w.ledger.Some? && Main in w.threads && w.phase.InfraDown?
    requires w.threads.Keys == {Main}
    requires w.threads[Main].own != [] && !Head(w.threads[Main]).EnsureInfra? && !Head(w.threads[Main]).Stamp?
    requires var keys := KeysAfter(Head(w.threads[Main]), w.keys);
             AllBuilt(c, |c.contentWaves|, w.keys) ==> AllBuilt(c, |c.contentWaves|, keys)
    ensures StepExec(c, w, Main, o, now).Some? && Lookups(c, StepExec(c, w, Main, o, now).value)
  {
    var th := w.threads[Main];
    assert ThreadKnows(c, w.phase, Attached(w), w.resume, w.keys, w.live, Main, th);
    RestRemoves(th.own, o);
  }

  lemma MainDropsInfraOnly(c: Config, w: World)
    requires Lookups(c, w) && Main in w.threads && w.threads[Main].own != []
    ensures w.threads[Main].infra == [] && (Head(w.threads[Main]).Drop? ==>
            Head(w.threads[Main]).key in Drops(c.infraDown))
  {
    var th := w.threads[Main];
    assert ThreadKnows(c, w.phase, Attached(w), w.resume, w.keys, w.live, Main, th);
    assert th.own[0] in th.own;
  }

  lemma DropKeepsBuilt(c: Config, a: Action, keys: set<Key>)
    requires KeysFit(c) && (forall i, n | 0 <= i < |c.contentWaves| && n in c.contentWaves[i] :: n in c.materialize)
    requires AllBuilt(c, |c.contentWaves|, keys) && (a.Drop? ==> a.key in Drops(c.infraDown))
    ensures AllBuilt(c, |c.contentWaves|, KeysAfter(a, keys))
  {
    forall i, n | 0 <= i < |c.contentWaves| && n in c.contentWaves[i] && n in c.warm
      ensures Puts(c.warm[n]) <= KeysAfter(a, keys)
    {
      assert MaterializeFits(c, n);
    }
  }

  lemma RestRemoves(p: Program, o: Outcome)
    requires p != [] && OnlyRemoves(p)
    ensures OnlyRemoves(Rest(p, o)) && Drops(Rest(p, o)) <= Drops(p)
  {
    if p[0].BestEffortDelete? && o.Succeeds? {
      assert forall a :: a in Rest(p, o) <==> a == Forget(p[0].name) || a in p[1..];
    }
  }

  lemma EnsureInfraKnows(c: Config, w: World, t: Tid)
    requires KeysFit(c) && Lookups(c, w) && w.ledger.Some? && t in w.threads
    requires var th := w.threads[t];
             (th.infra != [] || th.own != []) && Head(th).EnsureInfra? && StepEnsureInfra(c, w, t, th).Some?
    ensures Lookups(c, StepEnsureInfra(c, w, t, w.threads[t]).value)
  {
    var th := w.threads[t];
    assert ThreadKnows(c, w.phase, Attached(w), w.resume, w.keys, w.live, t, th);
    RestKnows(th.own, Succeeds, w.keys);
    DefinedMore(c.infra, {}, w.keys);
    if w.infraActive {
      WorkerContinues(c, w, t.node, th.(own := th.own[1..]), EnsureInfra, false);
    } else {
      var own := th.own[1..];
      assert Puts(th.own) <= Puts(own);
      assert WorkerKnows(c, w.phase, Attached(w), w.resume, w.keys, w.live, t.node, Thread(c.infra, own));
    }
  }

  // ---- The other steps -----------------------------------------------------------------------

  lemma WaveDone(c: Config, w: World, k: nat)
    requires w.threads == map[] && w.pending == {} && !w.failed && AllBuilt(c, k, w.keys) && WaveBuilt(c, w, k)
    ensures AllBuilt(c, k + 1, w.keys)
  {
    forall i, n | 0 <= i < k + 1 && i < |c.contentWaves| && n in c.contentWaves[i] && n in c.warm
      ensures Puts(c.warm[n]) <= w.keys
    {
      if i == k {
        assert n in WaveAt(c.contentWaves, k);
      }
    }
  }

  lemma AdvanceKnows(c: Config, w: World, buildOnly: bool)
    requires KeysFit(c) && Lookups(c, w) && StepAdvance(c, w, buildOnly).Some?
    ensures Lookups(c, StepAdvance(c, w, buildOnly).value)
  {
    if w.phase.Materializing? {
      MaterializeAdvanceKnows(c, w, buildOnly);
    }
  }

  lemma MaterializeAdvanceKnows(c: Config, w: World, buildOnly: bool)
    requires KeysFit(c) && Lookups(c, w) && w.phase.Materializing? && StepAdvance(c, w, buildOnly).Some?
    ensures Lookups(c, StepAdvance(c, w, buildOnly).value)
  {
    if !w.failed {
      WaveDone(c, w, w.phase.wave);
    }
  }

  lemma NextKnows(c: Config, w: World, e: Event)
    requires WellFormed(c) && KeysFit(c) && Safety(c, w) && Order(c, w) && Lookups(c, w) && Next(c, w, e).Some?
    ensures Lookups(c, Next(c, w, e).value)
  {
    match e
    case Start(n, hit) => StartKnows(c, w, n, hit);
    case Exec(t, o, now) => ExecKnows(c, w, t, o, now);
    case Advance(buildOnly) => AdvanceKnows(c, w, buildOnly);
    case Resume => NobodyRuns(c, w);
    case _ => QuietKnows(c, w, e);
  }

  lemma QuietKnows(c: Config, w: World, e: Event)
    requires Safety(c, w) && Lookups(c, w) && Next(c, w, e).Some?
    requires !e.Start? && !e.Exec? && !e.Advance? && !e.Resume?
    ensures Lookups(c, Next(c, w, e).value)
  {
    if !w.phase.Materializing? && !w.phase.Realizing? && !w.phase.InfraDown? {
      NobodyRuns(c, w);
    }
  }

  lemma ExecKnows(c: Config, w: World, t: Tid, o: Outcome, now: string)
    requires WellFormed(c) && KeysFit(c) && Safety(c, w) && Order(c, w) && Lookups(c, w) &&
             StepExec(c, w, t, o, now).Some?
    ensures Lookups(c, StepExec(c, w, t, o, now).value)
  {
    var th := w.threads[t];
    assert MayRun(c, w.phase, w.pending, t);
    assert ThreadKnows(c, w.phase, Attached(w), w.resume, w.keys, w.live, t, th);
    if Head(th).EnsureInfra? {
      EnsureInfraKnows(c, w, t);
    } else {
      assert WorkerInOrder(w.phase, Realized(w.ledger.value.nodes), t, th);
      SelfInOrder(w.phase, Realized(w.ledger.value.nodes), t, th, o);
      if t.Worker? {
        WorkerExecKnows(c, w, t.node, o, now);
      } else {
        assert w.threads.Keys == {Main} by {
          forall u | u in w.threads ensures u == Main {
            assert ThreadKnows(c, w.phase, Attached(w), w.resume, w.keys, w.live, u, w.threads[u]);
          }
        }
        MainDropsInfraOnly(c, w);
        if AllBuilt(c, |c.contentWaves|, w.keys) {
          DropKeepsBuilt(c, Head(th), w.keys);
        }
        MainExecKnows(c, w, o, now);
      }
    }
  }

  // ---- Every run ---------------------------------------------------------------------------------

  lemma {:induction false} EveryRunKnows(c: Config, s: State, events: seq<Event>)
    requires WellFormed(c) && KeysFit(c) && FreshState(s) && After(c, s, events).Some?
    ensures var w := After(c, s, events).value;
            Safety(c, w) && Order(c, w) && Lookups(c, w)
  {
    EveryRunIsOrdered(c, s, events);
    if events != [] {
      var before := events[..|events| - 1];
      EveryRunKnows(c, s, before);
      NextKnows(c, After(c, s, before).value, events[|events| - 1]);
    }
  }

  /** In every state of every run, a hook about to look something up finds it, provided the
      hooks only look up what their dependencies leave behind in this process. */
  lemma LookupsSucceed(c: Config, s: State, events: seq<Event>, t: Tid)
    requires WellFormed(c) && KeysFit(c) && FreshState(s) && After(c, s, events).Some?
    requires var w := After(c, s, events).value;
             && t in w.threads && (w.threads[t].infra != [] || w.threads[t].own != []) && Head(w.threads[t]).Get?
             && (w.phase.Realizing? && t.Worker? ==> LookupsFit(c, Attached(w), t.node))
    ensures var w := After(c, s, events).value;
            Head(w.threads[t]).key in w.keys
  {
    EveryRunKnows(c, s, events);
    var w := After(c, s, events).value;
    assert ThreadKnows(c, w.phase, Attached(w), w.resume, w.keys, w.live, t, w.threads[t]);
    assert MayRun(c, w.phase, w.pending, t);
    var th := w.threads[t];
    RemovesOnly(th.own);
  }

  lemma RemovesOnly(p: Program)
    ensures OnlyRemoves(p) && p != [] ==> !p[0].Get?
  {
    assert p != [] ==> p[0] in p;
  }

  /** When a node's realize hook starts in a fresh run, everything each of its (transitive)
      dependencies created exists on the backend, and everything it left behind is known. */
  lemma DependenciesExist(c: Config, g: Graph, s: State, events: seq<Event>, p: seq<string>)
    requires Follows(c, g) && KeysFit(c) && FreshState(s) && After(c, s, events).Some?
    requires Chain(g.deps, p) && |p| >= 2 && p[|p| - 1] in c.realize && p[|p| - 1] in c.reattach
    requires var w := After(c, s, events).value;
             w.phase.Realizing? && (p[0] in w.pending || Worker(p[0]) in w.threads)
    ensures var w, m := After(c, s, events).value, p[|p| - 1];
            && m in w.up && Provided(c, Attached(w), m) <= w.keys
            && (!w.resume ==> Creates(c.realize[m]) <= w.live && Puts(c.realize[m]) <= w.keys)
  {
    EveryRunKnows(c, s, events);
    StartsAfterDependencies(c, g, s, events, p);
  }
}
