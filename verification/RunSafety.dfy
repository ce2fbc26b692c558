/** Nothing exists on the backend that the ledger does not name: an invariant of every run,
    with any number of concurrent workers and a crash between any two steps.
 */
module RunSafety {
  import opened Wrappers
  import opened Ledger
  import opened Actions
  import opened RunSystem

  // ---- The invariant ------------------------------------------------------------

  /** Everything live is recorded; the ledger disappears only when nothing is left. */
  ghost predicate Recorded(w: World) {
    && (w.ledger.None? <==> w.phase.Ended?)
    && (w.ledger.None? ==> w.live == {})
    && (w.ledger.Some? ==> w.live <= NamesOf(w.ledger.value.resources) && UniqueNodes(w.ledger.value.nodes))
    && (w.phase.Destroying? && w.phase.gone ==> w.phase.todo != [] && w.phase.todo[0].backendName !in w.live)
  }

  /** The wave the pool is working on. */
  ghost function CurrentWave(c: Config, phase: Phase): set<string> {
    match phase
    case Materializing(k) => WaveAt(c.contentWaves, k)
    case Realizing(k) => WaveAt(c.waves, k)
    case _ => {}
  }

  /** Who may be running: workers of the current wave, or the main thread taking the build
      infra down; nobody in any other phase. */
  ghost predicate MayRun(c: Config, phase: Phase, pending: set<string>, t: Tid) {
    match t
    case Worker(n) => n in CurrentWave(c, phase) && n !in pending
    case Main => phase.InfraDown?
  }

  ghost predicate Staffed(c: Config, w: World) {
    && w.pending <= CurrentWave(c, w.phase)
    && (forall t | t in w.threads :: MayRun(c, w.phase, w.pending, t))
    && (w.infraHolder.Some? ==> w.phase.Materializing? && Worker(w.infraHolder.value) in w.threads)
  }

  /** The names a thread's own part may touch. */
  ghost function OwnNames(c: Config, phase: Phase, t: Tid): set<string> {
    match t
    case Main => Mentions(c.infra)
    case Worker(n) =>
      if phase.Materializing? && n in c.materialize then Mentions(c.materialize[n])
      else if phase.Realizing? && n in c.realize then Mentions(c.realize[n])
      else {}
  }

  /** A thread keeps to its names and is safe to go on. */
  ghost predicate ThreadSafe(
    c: Config, phase: Phase, holder: Option<string>, recorded: set<string>, live: set<string>, t: Tid, th: Thread)
  {
    && Mentions(th.own) <= OwnNames(c, phase, t)
    && Mentions(th.infra) <= Mentions(c.infra)
    && (th.infra != [] <==> t.Worker? && holder == Some(t.node))
    && Safe(th.own, recorded, live)
    && Safe(th.infra, recorded, live)
  }

  ghost predicate Guarded(c: Config, w: World) {
    w.ledger.Some? ==>
      forall t | t in w.threads ::
        ThreadSafe(c, w.phase, w.infraHolder, NamesOf(w.ledger.value.resources), w.live, t, w.threads[t])
  }

  ghost predicate Safety(c: Config, w: World) {
    Recorded(w) && Staffed(c, w) && Guarded(c, w)
  }

  // ---- Starting a worker ----------------------------------------------------------

  lemma WorkerInMap(c: Config, phase: Phase, n: string)
    requires WellFormed(c) && n in CurrentWave(c, phase)
    ensures phase.Materializing? ==> n in c.materialize && n in c.warm
    ensures phase.Realizing? ==> n in c.realize && n in c.reattach && n in c.level && c.level[n] == phase.wave
  {
  }

  lemma HookIsSafe(c: Config, phase: Phase, reattaches: bool, n: string, hit: bool, recorded: set<string>,
      live: set<string>)
    requires WellFormed(c)
    requires phase.Materializing? ==> n in c.materialize && n in c.warm
    requires phase.Realizing? ==> n in c.realize && n in c.reattach
    ensures Safe(HookOf(c, phase, reattaches, n, hit), recorded, live)
    ensures Mentions(HookOf(c, phase, reattaches, n, hit)) <= OwnNames(c, phase, Worker(n))
  {
    var p := HookOf(c, phase, reattaches, n, hit);
    if (phase.Materializing? && hit) || (phase.Realizing? && reattaches) || p == [] {
      LocalIsHarmless(p, recorded, live);
    } else {
      DisciplinedIsSafe(p, recorded, live);
    }
  }

  lemma ProgramIsSafe(c: Config, w: World, n: string, hit: bool, recorded: set<string>, live: set<string>)
    requires WellFormed(c)
    requires w.phase.Materializing? ==> n in c.materialize && n in c.warm
    requires w.phase.Realizing? ==> n in c.realize && n in c.reattach
    ensures Safe(ProgramOf(c, w, n, hit), recorded, live)
    ensures Mentions(ProgramOf(c, w, n, hit)) <= OwnNames(c, w.phase, Worker(n))
  {
    var p, stamp := HookOf(c, w.phase, Reattaches(w, n), n, hit), [Stamp(n, w.phase.Realizing?)];
    HookIsSafe(c, w.phase, Reattaches(w, n), n, hit, recorded, live);
    MentionsConcat(p, stamp);
    assert Mentions(stamp) == {} && Safe(stamp, recorded, live);
    SafeConcat(p, stamp, recorded, live);
  }

  lemma StartKeeps(c: Config, w: World, n: string, hit: bool)
    requires WellFormed(c) && Safety(c, w) && StepStart(c, w, n, hit).Some?
    ensures Safety(c, StepStart(c, w, n, hit).value)
  {
    WorkerInMap(c, w.phase, n);
    var p := ProgramOf(c, w, n, hit);
    if w.ledger.Some? {
      ProgramIsSafe(c, w, n, hit, NamesOf(w.ledger.value.resources), w.live);
    } else {
      ProgramIsSafe(c, w, n, hit, {}, {});
    }
    NewWorkerFits(c, w, n, p);
  }

  lemma NewWorkerFits(c: Config, w: World, n: string, p: Program)
    requires Safety(c, w) && n in w.pending && Mentions(p) <= OwnNames(c, w.phase, Worker(n))
    requires w.ledger.Some? ==> Safe(p, NamesOf(w.ledger.value.resources), w.live)
    ensures Safety(c, w.(pending := w.pending - {n}, threads := w.threads[Worker(n) := Thread([], p)]))
  {
    assert Worker(n) !in w.threads by {
      assert Worker(n) in w.threads ==> MayRun(c, w.phase, w.pending, Worker(n));
    }
  }

  // ---- Running a step ---------------------------------------------------------------

  /** The names the part of a thread that runs next may touch. */
  ghost function ActiveNames(c: Config, phase: Phase, t: Tid, th: Thread): set<string> {
    if th.infra != [] then Mentions(c.infra) else OwnNames(c, phase, t)
  }

  /** Names of different threads, and of the two parts of one thread, do not meet. */
  lemma PartsApart(c: Config, w: World, t: Tid, u: Tid, recorded: set<string>)
    requires WellFormed(c) && Staffed(c, w) && t in w.threads && u in w.threads
    requires ThreadSafe(c, w.phase, w.infraHolder, recorded, w.live, t, w.threads[t])
    requires ThreadSafe(c, w.phase, w.infraHolder, recorded, w.live, u, w.threads[u])
    ensures t != u ==>
              ActiveNames(c, w.phase, t, w.threads[t]) !! Mentions(w.threads[u].own) + Mentions(w.threads[u].infra)
    ensures w.threads[t].infra != [] ==> Mentions(c.infra) !! Mentions(w.threads[t].own)
  {
    assert MayRun(c, w.phase, w.pending, t) && MayRun(c, w.phase, w.pending, u);
    if t.Worker? {
      WorkerInMap(c, w.phase, t.node);
    }
    if u.Worker? {
      WorkerInMap(c, w.phase, u.node);
    }
  }

  /** The stepping thread itself stays safe, and everything live stays recorded. */
  lemma SelfStaysSafe(c: Config, phase: Phase, holder: Option<string>, s: State, live: set<string>,
                      t: Tid, th: Thread, o: Outcome, now: string, keys: set<Key>)
    requires th.infra != [] || th.own != []
    requires ThreadSafe(c, phase, holder, NamesOf(s.resources), live, t, th) && live <= NamesOf(s.resources)
    requires th.infra != [] ==> Mentions(c.infra) !! Mentions(th.own)
    ensures var a := Head(th);
            var recorded' := NamesOf(LedgerAfter(a, o, s, now).resources);
            var live' := LiveAfter(a, o, live);
            && NamesIn(a) <= ActiveNames(c, phase, t, th)
            && live' <= recorded'
            && (!RaisesOut(a, o, s, keys) ==>
                  && Safe(AfterHead(th, o).own, recorded', live')
                  && Safe(AfterHead(th, o).infra, recorded', live')
                  && Mentions(AfterHead(th, o).own) <= OwnNames(c, phase, t)
                  && Mentions(AfterHead(th, o).infra) <= Mentions(c.infra))
  {
    var p := if th.infra != [] then th.infra else th.own;
    StepSafe(p, o, s, live, now, keys);
    RestMentions(p, o);
    if th.infra != [] {
      StepFrames(th.own, Head(th), o, s, live, now);
    }
  }

  /** A step of one thread leaves another one safe. */
  lemma OtherStaysSafe(c: Config, phase: Phase, holder: Option<string>, s: State, live: set<string>,
                       u: Tid, th: Thread, a: Action, o: Outcome, now: string)
    requires ThreadSafe(c, phase, holder, NamesOf(s.resources), live, u, th)
    requires NamesIn(a) !! Mentions(th.own) + Mentions(th.infra)
    ensures ThreadSafe(c, phase, holder, NamesOf(LedgerAfter(a, o, s, now).resources), LiveAfter(a, o, live), u, th)
  {
    StepFrames(th.own, a, o, s, live, now);
    StepFrames(th.infra, a, o, s, live, now);
  }

  lemma LedgerStaysUnique(a: Action, o: Outcome, s: State, now: string)
    requires UniqueNodes(s.nodes)
    ensures UniqueNodes(LedgerAfter(a, o, s, now).nodes)
  {
    if a.Stamp? {
      StampRealizedEffect(s, a.node, now);
      StampMaterializedEffect(s, a.node, now);
    }
  }

  /** The world right after the effect of a step, before the thread moves on. */
  ghost function Effected(w: World, a: Action, o: Outcome, now: string): World
    requires w.ledger.Some?
  {
    w.(ledger := Some(LedgerAfter(a, o, w.ledger.value, now)), live := LiveAfter(a, o, w.live))
  }

  /** All threads but `t` are safe in `w`. */
  ghost predicate OthersGuarded(c: Config, w: World, t: Tid) {
    w.ledger.Some? && forall u | u in w.threads && u != t ::
      ThreadSafe(c, w.phase, w.infraHolder, NamesOf(w.ledger.value.resources), w.live, u, w.threads[u])
  }

  /** What the thread holds before its step: the lock exactly while it runs the infra part. */
  ghost predicate HoldsLock(w: World, t: Tid) {
    t in w.threads && (w.threads[t].infra != [] <==> t.Worker? && w.infraHolder == Some(t.node))
  }

  lemma RaiseKeeps(c: Config, w: World, t: Tid)
    requires Recorded(w) && Staffed(c, w) && OthersGuarded(c, w, t) && HoldsLock(w, t)
    ensures Safety(c, Raise(w, t))
  {
    var w' := Raise(w, t);
    forall u | u in w'.threads
      ensures ThreadSafe(c, w'.phase, w'.infraHolder, NamesOf(w.ledger.value.resources), w'.live, u, w'.threads[u])
    {
      assert ThreadSafe(c, w.phase, w.infraHolder, NamesOf(w.ledger.value.resources), w.live, u, w.threads[u]);
    }
  }

  lemma ContinueKeeps(c: Config, w: World, t: Tid, th: Thread, a: Action, wasInfra: bool)
    requires Recorded(w) && Staffed(c, w) && OthersGuarded(c, w, t) && HoldsLock(w, t)
    requires wasInfra == (w.threads[t].infra != []) && (th.infra != [] ==> wasInfra)
    requires var recorded := NamesOf(w.ledger.value.resources);
             Safe(th.own, recorded, w.live) && Safe(th.infra, recorded, w.live)
    requires Mentions(th.own) <= OwnNames(c, w.phase, t) && Mentions(th.infra) <= Mentions(c.infra)
    ensures Safety(c, Continue(w, t, th, a, wasInfra))
  {
    var w' := Continue(w, t, th, a, wasInfra);
    forall u | u in w'.threads
      ensures ThreadSafe(c, w'.phase, w'.infraHolder, NamesOf(w.ledger.value.resources), w'.live, u, w'.threads[u])
    {
      if u != t {
        assert ThreadSafe(c, w.phase, w.infraHolder, NamesOf(w.ledger.value.resources), w.live, u, w.threads[u]);
      }
    }
  }

  lemma EnsureStepped(p: Program, recorded: set<string>, live: set<string>)
    requires p != [] && p[0].EnsureInfra? && Safe(p, recorded, live)
    ensures Safe(p[1..], recorded, live) && Mentions(p[1..]) <= Mentions(p)
  {
  }

  lemma EnsureInfraKeeps(c: Config, w: World, t: Tid)
    requires Disciplined(c.infra) && c.infra != [] && Safety(c, w) && w.ledger.Some? && t in w.threads
    requires var th := w.threads[t];
             (th.infra != [] || th.own != []) && Head(th).EnsureInfra? && StepEnsureInfra(c, w, t, th).Some?
    ensures Safety(c, StepEnsureInfra(c, w, t, w.threads[t]).value)
  {
    var th, recorded := w.threads[t], NamesOf(w.ledger.value.resources);
    assert ThreadSafe(c, w.phase, w.infraHolder, recorded, w.live, t, th);
    EnsureStepped(th.own, recorded, w.live);
    if w.infraActive {
      ContinueKeeps(c, w, t, th.(own := th.own[1..]), EnsureInfra, false);
    } else {
      DisciplinedIsSafe(c.infra, recorded, w.live);
      TakeLockKeeps(c, w, t, th.own[1..]);
    }
  }

  lemma TakeLockKeeps(c: Config, w: World, t: Tid, own: Program)
    requires Safety(c, w) && w.ledger.Some? && t in w.threads && t.Worker? && w.phase.Materializing? &&
             w.infraHolder.None?
    requires c.infra != [] && Mentions(own) <= OwnNames(c, w.phase, t)
    requires Safe(own, NamesOf(w.ledger.value.resources), w.live)
    requires Safe(c.infra, NamesOf(w.ledger.value.resources), w.live)
    ensures Safety(c, w.(threads := w.threads[t := Thread(c.infra, own)], infraHolder := Some(t.node)))
  {
    var w' := w.(threads := w.threads[t := Thread(c.infra, own)], infraHolder := Some(t.node));
    forall u | u in w'.threads
      ensures ThreadSafe(c, w'.phase, w'.infraHolder, NamesOf(w.ledger.value.resources), w'.live, u, w'.threads[u])
    {
      assert ThreadSafe(c, w.phase, w.infraHolder, NamesOf(w.ledger.value.resources), w.live, u, w.threads[u]);
    }
  }

  /** The effect of one thread's step keeps the ledger ahead of the backend and every other
      thread safe. */
  lemma EffectKeeps(c: Config, w: World, t: Tid, o: Outcome, now: string)
    requires WellFormed(c) && Safety(c, w) && w.ledger.Some? && t in w.threads
    requires w.threads[t].infra != [] || w.threads[t].own != []
    ensures var a := Head(w.threads[t]);
            var w1 := Effected(w, a, o, now);
            Recorded(w1) && OthersGuarded(c, w1, t) && HoldsLock(w1, t)
    ensures var th, a := w.threads[t], Head(w.threads[t]);
            var w1 := Effected(w, a, o, now);
            var recorded := NamesOf(w1.ledger.value.resources);
            !RaisesOut(a, o, w.ledger.value, w.keys) ==>
              && Safe(AfterHead(th, o).own, recorded, w1.live) && Safe(AfterHead(th, o).infra, recorded, w1.live)
              && Mentions(AfterHead(th, o).own) <= OwnNames(c, w.phase, t)
              && Mentions(AfterHead(th, o).infra) <= Mentions(c.infra)
  {
    var th, s := w.threads[t], w.ledger.value;
    var a, recorded := Head(th), NamesOf(s.resources);
    assert ThreadSafe(c, w.phase, w.infraHolder, recorded, w.live, t, th);
    assert MayRun(c, w.phase, w.pending, t);
    PartsApart(c, w, t, t, recorded);
    SelfStaysSafe(c, w.phase, w.infraHolder, s, w.live, t, th, o, now, w.keys);
    LedgerStaysUnique(a, o, s, now);
    forall u | u in w.threads && u != t
      ensures ThreadSafe(c, w.phase, w.infraHolder, NamesOf(LedgerAfter(a, o, s, now).resources),
                         LiveAfter(a, o, w.live), u, w.threads[u])
    {
      assert ThreadSafe(c, w.phase, w.infraHolder, recorded, w.live, u, w.threads[u]);
      PartsApart(c, w, t, u, recorded);
      OtherStaysSafe(c, w.phase, w.infraHolder, s, w.live, u, w.threads[u], a, o, now);
    }
  }

  lemma ExecKeeps(c: Config, w: World, t: Tid, o: Outcome, now: string)
    requires WellFormed(c) && Safety(c, w) && StepExec(c, w, t, o, now).Some?
    ensures Safety(c, StepExec(c, w, t, o, now).value)
  {
    var th := w.threads[t];
    var a := Head(th);
    if a.EnsureInfra? {
      EnsureInfraKeeps(c, w, t);
    } else {
      EffectKeeps(c, w, t, o, now);
      var w1 := Effected(w, a, o, now);
      assert Staffed(c, w1);
      if RaisesOut(a, o, w.ledger.value, w.keys) {
        RaiseKeeps(c, w1, t);
      } else {
        ContinueKeeps(c, w1, t, AfterHead(th, o), a, th.infra != []);
      }
    }
  }

  // ---- The other steps ------------------------------------------------------------

  lemma AdvanceKeeps(c: Config, w: World, buildOnly: bool)
    requires WellFormed(c) && Safety(c, w) && StepAdvance(c, w, buildOnly).Some?
    ensures Safety(c, StepAdvance(c, w, buildOnly).value)
  {
    if w.ledger.Some? {
      DisciplinedIsSafe(c.infraDown, NamesOf(w.ledger.value.resources), w.live);
    }
    DrainedKeeps(c, w, buildOnly);
  }

  lemma DrainedKeeps(c: Config, w: World, buildOnly: bool)
    requires Safety(c, w) && StepAdvance(c, w, buildOnly).Some? && Mentions(c.infraDown) <= Mentions(c.infra)
    requires w.ledger.Some? ==> Safe(c.infraDown, NamesOf(w.ledger.value.resources), w.live)
    ensures Safety(c, StepAdvance(c, w, buildOnly).value)
  {
    if w.phase.Materializing? {
      BuildDrainedKeeps(c, w, buildOnly);
    }
  }

  lemma BuildDrainedKeeps(c: Config, w: World, buildOnly: bool)
    requires Safety(c, w) && StepAdvance(c, w, buildOnly).Some? && Mentions(c.infraDown) <= Mentions(c.infra)
    requires w.ledger.Some? ==> Safe(c.infraDown, NamesOf(w.ledger.value.resources), w.live)
    requires w.phase.Materializing?
    ensures Safety(c, StepAdvance(c, w, buildOnly).value)
  {
    assert Mentions([]) == {};
  }

  lemma DestroyKeeps(c: Config, w: World, o: Outcome)
    requires Safety(c, w) && StepDestroy(w, o).Some?
    ensures Safety(c, StepDestroy(w, o).value)
  {
    NobodyRuns(c, w);
  }

  lemma ForgetKeeps(c: Config, w: World, ok: bool)
    requires Safety(c, w) && StepForget(w, ok).Some?
    ensures Safety(c, StepForget(w, ok).value)
  {
    NobodyRuns(c, w);
    RemovedNames(w.ledger.value.resources, w.phase.todo[0].backendName);
  }

  lemma FinishKeeps(c: Config, w: World, removes: bool)
    requires Safety(c, w) && StepFinish(w, removes).Some?
    ensures Safety(c, StepFinish(w, removes).value)
  {
    NobodyRuns(c, w);
  }

  /** `parallel_map` joins its workers: outside the two walks and the infra teardown no
      thread is running and nothing is waiting to start. */
  lemma NobodyRuns(c: Config, w: World)
    requires Staffed(c, w) && !w.phase.Materializing? && !w.phase.Realizing? && !w.phase.InfraDown?
    ensures w.threads == map[] && w.pending == {} && w.infraHolder.None?
  {
    assert w.threads.Keys == {};
  }

  lemma NextKeeps(c: Config, w: World, e: Event)
    requires WellFormed(c) && Safety(c, w) && Next(c, w, e).Some?
    ensures Safety(c, Next(c, w, e).value)
  {
    match e
    case Start(n, hit) => StartKeeps(c, w, n, hit);
    case Exec(t, o, now) => ExecKeeps(c, w, t, o, now);
    case Advance(buildOnly) => AdvanceKeeps(c, w, buildOnly);
    case DestroyHead(o) => DestroyKeeps(c, w, o);
    case ForgetHead(ok) => ForgetKeeps(c, w, ok);
    case FinishDestroy(removes) => FinishKeeps(c, w, removes);
    case Cancel =>
    case Interrupt =>
    case Exit => NobodyRuns(c, w);
    case Leak =>
    case Crash =>
    case Resume => NobodyRuns(c, w);
    case Cleanup => NobodyRuns(c, w);
  }

  // ---- Every run --------------------------------------------------------------------

  /** What the events lead to, if they can all happen. */
  function Steps(c: Config, w: World, events: seq<Event>): Option<World> {
    if events == [] then Some(w)
    else
      match Steps(c, w, events[..|events| - 1])
      case None => None
      case Some(w') => Next(c, w', events[|events| - 1])
  }

  /** What the events lead to from a fresh start. */
  function After(c: Config, s: State, events: seq<Event>): Option<World> {
    Steps(c, Initial(c, s), events)
  }

  /** In every state of every run, whatever was interleaved, failed, crashed or resumed:
      each live backend resource is named in the ledger, and once the ledger is gone no
      resource is left. */
  lemma {:induction false} EveryRunIsSafe(c: Config, s: State, events: seq<Event>)
    requires WellFormed(c) && FreshState(s) && After(c, s, events).Some?
    ensures Safety(c, After(c, s, events).value)
    ensures var w := After(c, s, events).value;
            w.live <= (if w.ledger.Some? then NamesOf(w.ledger.value.resources) else {})
  {
    if events != [] {
      var before := events[..|events| - 1];
      EveryRunIsSafe(c, s, before);
      NextKeeps(c, After(c, s, before).value, events[|events| - 1]);
    }
  }

  /** After teardown or cleanup removed the ledger the run is over for good: the backend is
      empty, nobody runs, and no further step of the run exists. */
  lemma RemovedLedgerIsFinal(c: Config, s: State, events: seq<Event>, e: Event)
    requires WellFormed(c) && FreshState(s) && After(c, s, events).Some?
    requires After(c, s, events).value.ledger.None?
    ensures var w := After(c, s, events).value;
            w.live == {} && w.threads == map[] && w.pending == {} && Next(c, w, e).None?
  {
    EveryRunIsSafe(c, s, events);
    NobodyRuns(c, After(c, s, events).value);
  }

  // ---- The worker pool is bounded -----------------------------------------------------

  ghost predicate Bounded(c: Config, w: World) {
    w.phase.Materializing? || w.phase.Realizing? ==>
      |w.threads| <= ResolveWorkers(|CurrentWave(c, w.phase)|, c.jobs)
  }

  lemma FewerThreads(threads: map<Tid, Thread>, t: Tid, th: Thread)
    ensures |threads - {t}| <= |threads|
    ensures t in threads ==> |threads[t := th]| == |threads|
    ensures t !in threads ==> |threads[t := th]| == |threads| + 1
  {
    assert (threads - {t}).Keys == threads.Keys - {t};
    assert threads[t := th].Keys == threads.Keys + {t};
  }

  /** A step of a thread changes that thread alone. */
  lemma ExecThreads(c: Config, w: World, t: Tid, o: Outcome, now: string)
    requires StepExec(c, w, t, o, now).Some?
    ensures var w' := StepExec(c, w, t, o, now).value;
            && t in w.threads && w'.phase == w.phase
            && (w'.threads == w.threads - {t} || (t in w'.threads && w'.threads == w.threads[t := w'.threads[t]]))
  {
  }

  lemma ExecBounded(c: Config, w: World, t: Tid, o: Outcome, now: string)
    requires Bounded(c, w) && StepExec(c, w, t, o, now).Some?
    ensures Bounded(c, StepExec(c, w, t, o, now).value)
  {
    ExecThreads(c, w, t, o, now);
    ThreadsBounded(c, w, StepExec(c, w, t, o, now).value, t);
  }

  lemma ThreadsBounded(c: Config, w: World, w': World, t: Tid)
    requires Bounded(c, w) && t in w.threads && w'.phase == w.phase
    requires w'.threads == w.threads - {t} || (t in w'.threads && w'.threads == w.threads[t := w'.threads[t]])
    ensures Bounded(c, w')
  {
    FewerThreads(w.threads, t, if t in w'.threads then w'.threads[t] else w.threads[t]);
  }

  lemma NextBounded(c: Config, w: World, e: Event)
    requires Staffed(c, w) && Bounded(c, w) && Next(c, w, e).Some?
    ensures Bounded(c, Next(c, w, e).value)
  {
    match e
    case Start(n, hit) =>
      FewerThreads(w.threads, Worker(n), Next(c, w, e).value.threads[Worker(n)]);
    case Exec(t, o, now) => ExecBounded(c, w, t, o, now);
    case Resume => NobodyRuns(c, w);
    case _ =>
  }

  /** In every state of every run no more workers are in flight than the cap allows: one at
      least, never more than the wave has nodes, and at most `jobs` or the default. */
  lemma {:induction false} PoolIsBounded(c: Config, s: State, events: seq<Event>)
    requires WellFormed(c) && FreshState(s) && After(c, s, events).Some?
    ensures Bounded(c, After(c, s, events).value)
  {
    if events != [] {
      var before := events[..|events| - 1];
      EveryRunIsSafe(c, s, before);
      PoolIsBounded(c, s, before);
      NextBounded(c, After(c, s, before).value, events[|events| - 1]);
    }
  }
}
