/** Whole runs: the wave-gated executor, its worker pool, crashes, resumes, teardown and
    cleanup, as one transition system over the durable ledger and the backend.

    Every ledger write is one atomic step and every backend call is one step; workers
    interleave freely; the process can die between any two steps. Nondeterminism lives in
    the event, so a run is a sequence of events.
 */
module RunSystem {
  import opened Wrappers
  import opened Names
  import opened Ledger
  import opened Actions

  // ---- What a run is made of -------------------------------------------------

  /** The schedules and hook programs of one plan. `level` is the realize wave of a node;
      `rank` is the level of the node whose realize hook owns a backend name. */
  datatype Config = Config(
    contentWaves: seq<seq<string>>,
    waves: seq<seq<string>>,
    materialize: map<string, Program>,      // build and capture
    warm: map<string, Program>,             // the same hook on a cache hit
    realize: map<string, Program>,          // create
    reattach: map<string, Program>,         // the same hook on a node realized before a resume
    infra: Program,
    infraDown: Program,
    level: map<string, nat>,
    rank: map<string, nat>,
    jobs: Option<int>)

  const DEFAULT_MAX_WORKERS := 8

  function AtLeastOne(n: int): int {
    if n < 1 then 1 else n
  }

  /** `resolve_workers`: as many workers as cap and items both allow, and always one. */
  function ResolveWorkers(items: nat, jobs: Option<int>): (workers: int)
    ensures var cap := if jobs.None? then DEFAULT_MAX_WORKERS else jobs.value;
            && workers <= AtLeastOne(cap) && workers <= AtLeastOne(items)
            && (workers == AtLeastOne(cap) || workers == AtLeastOne(items))
  {
    if items <= 1 then 1
    else
      var cap := if jobs.None? then DEFAULT_MAX_WORKERS else jobs.value;
      var atLeastOne := if cap < 1 then 1 else cap;
      if atLeastOne < items then atLeastOne else items
  }

  ghost predicate WellFormed(c: Config) {
    LevelsFit(c) && HooksKnown(c) && HooksSafe(c) && HooksSeparate(c) && RanksFit(c)
  }

  /** Every scheduled node has its hooks. */
  ghost predicate HooksKnown(c: Config) {
    && (forall n | n in c.level :: n in c.realize)
    && (forall i, n | 0 <= i < |c.contentWaves| && n in c.contentWaves[i] :: n in c.materialize)
    && (forall n | n in c.materialize :: n in c.warm && Local(c.warm[n]))
    && (forall n | n in c.realize :: n in c.reattach && Local(c.reattach[n]))
  }

  ghost predicate HooksSafe(c: Config) {
    && Disciplined(c.infra) && c.infra != [] && Disciplined(c.infraDown) && NoStamps(c.infra) && NoStamps(c.infraDown)
    && (forall n | n in c.materialize :: Disciplined(c.materialize[n]) && NoStamps(c.materialize[n]))
    && (forall n | n in c.realize :: Disciplined(c.realize[n]) && NoStamps(c.realize[n]))
  }

  /** Different hooks touch different resources. */
  ghost predicate HooksSeparate(c: Config) {
    && Mentions(c.infraDown) <= Mentions(c.infra)
    && (forall n | n in c.materialize :: Mentions(c.materialize[n]) !! Mentions(c.infra))
    && (forall m, n | m in c.materialize && n in c.materialize && m != n ::
          Mentions(c.materialize[m]) !! Mentions(c.materialize[n]))
    && (forall m, n | m in c.realize && n in c.realize && m != n :: Mentions(c.realize[m]) !! Mentions(c.realize[n]))
  }

  /** A node's level is its wave. */
  ghost predicate LevelsFit(c: Config) {
    && (forall i, n | 0 <= i < |c.waves| && n in c.waves[i] :: n in c.level && c.level[n] == i)
    && (forall n | n in c.level :: c.level[n] < |c.waves| && n in c.waves[c.level[n]])
  }

  /** Hooks do not stamp; the executor does, after the hook returned. */
  ghost predicate NoStamps(p: Program) {
    forall a | a in p :: !a.Stamp?
  }

  /** A run-phase name ranks as its node; a build-phase name has no rank. */
  ghost predicate RanksFit(c: Config) {
    && (forall n, x | n in c.realize && x in Mentions(c.realize[n]) ::
          n in c.level && x in c.rank && c.rank[x] == c.level[n])
    && (forall x | x in Mentions(c.infra) :: x !in c.rank)
    && (forall n, x | n in c.materialize && x in Mentions(c.materialize[n]) :: x !in c.rank)
  }

  /** A pool thread, or the main thread while it tears the build infra down. While a worker
      holds the infra lock it runs the infra part first. */
  datatype Tid = Worker(node: string) | Main

  datatype Thread = Thread(infra: Program, own: Program)

  datatype Phase =
    | Dead                                              // no process; the ledger is on disk
    | Materializing(wave: nat)
    | InfraDown
    | Realizing(wave: nat)
    | Up
    | Destroying(todo: seq<Resource>, gone: bool)       // gone: head destroyed, not yet forgotten
    | Ended                                             // the ledger has been removed

  datatype World = World(
    ledger: Option<State>,
    live: set<string>,
    phase: Phase,
    resume: bool,
    seed: set<string>,        // nodes stamped realized when this process started
    up: set<string>,          // nodes whose realize hook completed in this process
    keys: set<Key>,           // what this process knows
    threads: map<Tid, Thread>,
    pending: set<string>,
    failed: bool,
    infraHolder: Option<string>,
    infraActive: bool)

  datatype Event =
    | Start(node: string, hit: bool)
    | Exec(tid: Tid, outcome: Outcome, now: string)
    | Cancel
    | Interrupt
    | Advance(buildOnly: bool)
    | Exit
    | Leak
    | DestroyHead(outcome: Outcome)
    | ForgetHead(ok: bool)
    | FinishDestroy(removes: bool)
    | Crash
    | Resume
    | Cleanup

  function WaveAt(waves: seq<seq<string>>, k: nat): set<string> {
    if k < |waves| then Elems(waves[k]) else {}
  }

  function Initial(c: Config, s: State): World {
    World(Some(s), {}, Materializing(0), false, {}, {}, {}, map[], WaveAt(c.contentWaves, 0), false, None, false)
  }

  ghost predicate FreshState(s: State) {
    s.resources == [] && s.nodes == []
  }

  // ---- Steps ------------------------------------------------------------------

  /** The hook a worker runs in this phase. */
  function HookOf(c: Config, phase: Phase, reattaches: bool, n: string, hit: bool): Program
    requires phase.Materializing? ==> n in c.materialize && n in c.warm
    requires phase.Realizing? ==> n in c.realize && n in c.reattach
  {
    if phase.Materializing? then (if hit then c.warm[n] else c.materialize[n])
    else if phase.Realizing? then (if reattaches then c.reattach[n] else c.realize[n])
    else []
  }

  /** Does this process reattach to the node rather than create it? */
  predicate Reattaches(w: World, n: string) {
    w.resume && n in w.seed
  }

  /** The hook, then the executor's completion stamp. */
  function ProgramOf(c: Config, w: World, n: string, hit: bool): Program
    requires w.phase.Materializing? ==> n in c.materialize && n in c.warm
    requires w.phase.Realizing? ==> n in c.realize && n in c.reattach
  {
    HookOf(c, w.phase, Reattaches(w, n), n, hit) + [Stamp(n, w.phase.Realizing?)]
  }

  function StepStart(c: Config, w: World, n: string, hit: bool): Option<World> {
    var wave := if w.phase.Materializing? then WaveAt(c.contentWaves, w.phase.wave)
                else if w.phase.Realizing? then WaveAt(c.waves, w.phase.wave) else {};
    if n !in w.pending || n !in wave || |w.threads| >= ResolveWorkers(|wave|, c.jobs) then None
    else if w.phase.Materializing? && (n !in c.materialize || n !in c.warm) then None
    else if w.phase.Realizing? && (n !in c.realize || n !in c.reattach) then None
    else
      Some(w.(pending := w.pending - {n},
              threads := w.threads[Worker(n) := Thread([], ProgramOf(c, w, n, hit))]))
  }

  function Head(th: Thread): Action
    requires th.infra != [] || th.own != []
  {
    if th.infra != [] then th.infra[0] else th.own[0]
  }

  function AfterHead(th: Thread, o: Outcome): Thread
    requires th.infra != [] || th.own != []
  {
    if th.infra != [] then th.(infra := Rest(th.infra, o)) else th.(own := Rest(th.own, o))
  }

  /** Run the next step of one thread. */
  function StepExec(c: Config, w: World, tid: Tid, o: Outcome, now: string): Option<World> {
    if tid !in w.threads || w.ledger.None? then None
    else
      var th := w.threads[tid];
      if th.infra == [] && th.own == [] then None
      else
        var a := Head(th);
        if a.EnsureInfra? then StepEnsureInfra(c, w, tid, th)
        else
          var s := w.ledger.value;
          var w1 := w.(ledger := Some(LedgerAfter(a, o, s, now)), live := LiveAfter(a, o, w.live));
          if RaisesOut(a, o, s, w.keys) then Some(Raise(w1, tid))
          else Some(Continue(w1, tid, AfterHead(th, o), a, th.infra != []))
  }

  /** `ensure_build_infra`: use the infra if it is up, else take the lock and bring it up. */
  function StepEnsureInfra(c: Config, w: World, tid: Tid, th: Thread): Option<World>
    requires tid in w.threads && th == w.threads[tid] && (th.infra != [] || th.own != [])
  {
    if th.infra != [] || !tid.Worker? || !w.phase.Materializing? then None
    else if w.infraActive then Some(Continue(w, tid, th.(own := th.own[1..]), EnsureInfra, false))
    else if w.infraHolder.Some? then None
    else
      Some(w.(threads := w.threads[tid := Thread(c.infra, th.own[1..])], infraHolder := Some(tid.node)))
  }

  /** The hook raised: the worker is gone, the walk fails, a held lock is released. */
  function Raise(w: World, tid: Tid): World {
    w.(threads := w.threads - {tid},
       failed := true,
       infraHolder := if tid.Worker? && w.infraHolder == Some(tid.node) then None else w.infraHolder)
  }

  /** The step succeeded; a finished infra part activates the infra, a finished program
      ends the thread. */
  function Continue(w: World, tid: Tid, th: Thread, a: Action, wasInfra: bool): World {
    var infraDone := wasInfra && th.infra == [];
    w.(threads := if th.infra == [] && th.own == [] then w.threads - {tid} else w.threads[tid := th],
       infraActive := w.infraActive || infraDone,
       infraHolder := if infraDone then None else w.infraHolder,
       up := if a.Stamp? && a.realized then w.up + {a.node} else w.up,
       keys := KeysAfter(a, w.keys))
  }

  /** The pool is drained: the next wave, the next walk, or teardown. */
  function StepAdvance(c: Config, w: World, buildOnly: bool): Option<World> {
    if w.threads != map[] || w.pending != {} then None
    else
      match w.phase
      case Materializing(k) =>
        if !w.failed && k + 1 < |c.contentWaves| then
          Some(w.(phase := Materializing(k + 1), pending := WaveAt(c.contentWaves, k + 1)))
        else
          Some(w.(phase := InfraDown, infraActive := false,
                  threads := if w.infraActive && c.infraDown != [] then map[Main := Thread([], c.infraDown)]
                             else map[]))
      case InfraDown =>
        if w.failed || buildOnly then BeginDestroy(w)
        else Some(w.(phase := Realizing(0), pending := WaveAt(c.waves, 0)))
      case Realizing(k) =>
        if w.failed then BeginDestroy(w)
        else if k + 1 < |c.waves| then Some(w.(phase := Realizing(k + 1), pending := WaveAt(c.waves, k + 1)))
        else Some(w.(phase := Up))
      case _ => None
  }

  function Reversed(rs: seq<Resource>): (out: seq<Resource>)
    ensures |out| == |rs| && forall i | 0 <= i < |rs| :: out[i] == rs[|rs| - 1 - i]
  {
    seq(|rs|, i requires 0 <= i < |rs| => rs[|rs| - 1 - i])
  }

  function BeginDestroy(w: World): Option<World> {
    if w.ledger.None? then None
    else Some(w.(phase := Destroying(Reversed(w.ledger.value.resources), false), failed := false))
  }

  function StepDestroy(w: World, o: Outcome): Option<World> {
    if !w.phase.Destroying? || w.phase.todo == [] || w.phase.gone then None
    else
      var x := w.phase.todo[0].backendName;
      var live := LiveAfter(Destroy(x), o, w.live);
      if o.Succeeds? then Some(w.(live := live, phase := w.phase.(gone := true)))
      else Some(w.(live := live, phase := w.phase.(todo := w.phase.todo[1..])))
  }

  function StepForget(w: World, ok: bool): Option<World> {
    if !w.phase.Destroying? || w.phase.todo == [] || !w.phase.gone || w.ledger.None? then None
    else
      var s := w.ledger.value;
      Some(w.(ledger := Some(if ok then s.RemoveResource(w.phase.todo[0].backendName) else s),
              phase := Destroying(w.phase.todo[1..], false)))
  }

  /** With nothing left recorded the ledger goes, unless that last bookkeeping fails. */
  function StepFinish(w: World, removes: bool): Option<World> {
    if !w.phase.Destroying? || w.phase.todo != [] || w.ledger.None? then None
    else if w.ledger.value.resources == [] && removes then Some(w.(ledger := None, phase := Ended))
    else Some(Died(w))
  }

  function Died(w: World): World {
    w.(phase := Dead, threads := map[], pending := {}, failed := false, infraHolder := None, infraActive := false)
  }

  function Next(c: Config, w: World, e: Event): Option<World> {
    match e
    case Start(n, hit) => StepStart(c, w, n, hit)
    case Exec(tid, o, now) => StepExec(c, w, tid, o, now)
    case Cancel => if w.failed && (w.phase.Materializing? || w.phase.Realizing?) then Some(w.(pending := {})) else None
    case Interrupt => if w.phase.Materializing? || w.phase.Realizing? then Some(w.(failed := true)) else None
    case Advance(buildOnly) => StepAdvance(c, w, buildOnly)
    case Exit => if w.phase.Up? then BeginDestroy(w) else None
    case Leak => if w.phase.Up? then Some(Died(w)) else None
    case DestroyHead(o) => StepDestroy(w, o)
    case ForgetHead(ok) => StepForget(w, ok)
    case FinishDestroy(removes) => StepFinish(w, removes)
    case Crash => if w.phase.Ended? then None else Some(Died(w))
    case Resume =>
      if w.phase.Dead? && w.ledger.Some? then
        Some(w.(phase := Materializing(0), resume := true, seed := Realized(w.ledger.value.nodes), up := {}, keys := {},
                pending := WaveAt(c.contentWaves, 0)))
      else None
    case Cleanup => if w.phase.Dead? then BeginDestroy(w) else None
  }
}
