/** Runs that come up: what holds once they do, when they can, and what is left of the build
    infra by then.
 */
module RunUp {
  import opened Ledger
  import opened Actions
  import opened RunSystem
  import opened RunSafety
  import opened RunOrder
  import opened RunLookups

  // ---- Coming up ----------------------------------------------------------------------------

  /** A run is up only when every scheduled node's realize hook has completed in this very
      process and is stamped in the ledger, nothing has failed and nobody is at work. */
  lemma UpMeansAllRealized(c: Config, s: State, events: seq<Event>)
    requires WellFormed(c) && FreshState(s) && After(c, s, events).Some? && After(c, s, events).value.phase.Up?
    ensures var w := After(c, s, events).value;
            && !w.failed && w.threads == map[] && w.pending == {} && w.ledger.Some?
            && (forall n | n in c.level :: n in w.up && n in Realized(w.ledger.value.nodes))
  {
    EveryRunIsOrdered(c, s, events);
    NobodyRuns(c, After(c, s, events).value);
  }

  /** And in a process that has not resumed, everything the realize hooks create exists and
      is recorded; everything they leave in the dictionaries is there. */
  lemma UpMeansAllCreated(c: Config, s: State, events: seq<Event>, n: string)
    requires WellFormed(c) && KeysFit(c) && FreshState(s) && After(c, s, events).Some?
    requires After(c, s, events).value.phase.Up? && n in c.level && n in c.realize && n in c.reattach
    ensures var w := After(c, s, events).value;
            && Provided(c, Attached(w), n) <= w.keys
            && (!w.resume ==> w.ledger.Some? && Creates(c.realize[n]) <= w.live * NamesOf(w.ledger.value.resources))
  {
    EveryRunKnows(c, s, events);
    UpMeansAllRealized(c, s, events);
    EveryRunIsSafe(c, s, events);
  }

  /** The pool of a realize walk is empty: a walk that failed is torn down, back to front; one
      that did not goes on to the next wave, and past the last wave the run is up. */
  lemma DrainedWalk(c: Config, w: World, buildOnly: bool)
    requires w.phase.Realizing? && w.threads == map[] && w.pending == {} && w.ledger.Some?
    ensures StepAdvance(c, w, buildOnly).Some?
    ensures var phase := StepAdvance(c, w, buildOnly).value.phase;
            if w.failed then phase == Destroying(Reversed(w.ledger.value.resources), false)
            else if w.phase.wave + 1 < |c.waves| then phase == Realizing(w.phase.wave + 1)
            else phase == Up
  {
  }

  /** A walk has failed, or the run is already being torn down or over. */
  ghost predicate Doomed(w: World) {
    match w.phase
    case Materializing(_) => w.failed
    case InfraDown => w.failed
    case Realizing(_) => w.failed
    case Up => false
    case _ => true
  }

  lemma StaysDoomed(c: Config, w: World, e: Event)
    requires Doomed(w) && Next(c, w, e).Some? && e != Resume
    ensures Doomed(Next(c, w, e).value)
  {
  }

  /** Once a walk has failed, or a build-only run has built, this process never comes up,
      whatever happens: only a resume can start over. */
  lemma {:induction false} FailedRunNeverComesUp(c: Config, w: World, events: seq<Event>)
    requires Doomed(w) && Steps(c, w, events).Some? && Resume !in events
    ensures Doomed(Steps(c, w, events).value) && !Steps(c, w, events).value.phase.Up?
  {
    if events != [] {
      var before, e := events[..|events| - 1], events[|events| - 1];
      assert e in events;
      FailedRunNeverComesUp(c, w, before);
      StaysDoomed(c, Steps(c, w, before).value, e);
    }
  }

  lemma BuildOnlyIsDoomed(c: Config, w: World)
    requires w.phase.InfraDown? && StepAdvance(c, w, true).Some?
    ensures Doomed(StepAdvance(c, w, true).value)
  {
  }

  // ---- The build infra is gone before anything is realized ------------------------------------

  ghost function Destroys(p: Program): set<string> {
    set a | a in p && a.Destroy? :: a.name
  }

  ghost function Forgets(p: Program): set<string> {
    set a | a in p && a.Forget? :: a.name
  }

  /** Names of the infra that its teardown does not destroy, or does not forget. */
  ghost function Undestroyed(c: Config): set<string> {
    Mentions(c.infra) - Destroys(c.infraDown)
  }

  ghost function Unforgotten(c: Config): set<string> {
    Mentions(c.infra) - Forgets(c.infraDown)
  }

  /** What the main thread still has to do. */
  ghost function MainLeft(w: World): Program {
    if Main in w.threads then w.threads[Main].own else []
  }

  /** Of the infra's names, only those in `live` exist and only those in `recorded` are recorded. */
  ghost predicate AtMost(c: Config, w: World, live: set<string>, recorded: set<string>) {
    && w.live * Mentions(c.infra) <= live
    && (w.ledger.Some? ==> NamesOf(w.ledger.value.resources) * Mentions(c.infra) <= recorded)
  }

  ghost predicate InfraSettled(c: Config, w: World) {
    match w.phase
    case Materializing(_) => w.infraActive || w.infraHolder.Some? || AtMost(c, w, {}, {})
    case InfraDown =>
      AtMost(c, w, Undestroyed(c) + Destroys(MainLeft(w)), Unforgotten(c) + Forgets(MainLeft(w)))
    case Realizing(_) => AtMost(c, w, Undestroyed(c), Unforgotten(c))
    case Up => AtMost(c, w, Undestroyed(c), Unforgotten(c))
    case _ => true
  }

  ghost predicate InfraInvariant(c: Config, w: World) {
    w.resume || w.failed || InfraSettled(c, w)
  }

  /** A step touches no name outside itself. */
  lemma StepKeepsAtMost(c: Config, w: World, a: Action, o: Outcome, now: string, live: set<string>,
                        recorded: set<string>)
    requires w.ledger.Some? && AtMost(c, w, live, recorded) && NamesIn(a) !! Mentions(c.infra)
    ensures AtMost(c, Effected(w, a, o, now), live, recorded)
  {
    LedgerNamesAfter(a, o, w.ledger.value, now);
  }

  lemma SameInfraNames(c: Config, w: World, w': World, live: set<string>, recorded: set<string>)
    requires AtMost(c, w, live, recorded) && w'.live == w.live && w'.ledger == w.ledger
    ensures AtMost(c, w', live, recorded)
  {
  }

  /** What a hook touches is not the infra's. */
  lemma HookApart(c: Config, phase: Phase, n: string)
    requires HooksSeparate(c) && RanksFit(c)
    ensures OwnNames(c, phase, Worker(n)) !! Mentions(c.infra)
  {
  }

  lemma OwnPartApart(c: Config, w: World, t: Tid)
    requires HooksSeparate(c) && RanksFit(c) && Guarded(c, w) && w.ledger.Some? && t in w.threads && t.Worker?
    requires w.threads[t].infra == [] && w.threads[t].own != []
    ensures NamesIn(Head(w.threads[t])) !! Mentions(c.infra)
  {
    var th := w.threads[t];
    assert ThreadSafe(c, w.phase, w.infraHolder, NamesOf(w.ledger.value.resources), w.live, t, th);
    HookApart(c, w.phase, t.node);
    assert NamesIn(th.own[0]) <= Mentions(th.own);
  }

  lemma WorkerExecSettled(c: Config, w: World, t: Tid, o: Outcome, now: string)
    requires HooksSeparate(c) && RanksFit(c) && Safety(c, w) && w.ledger.Some? && t in w.threads && t.Worker?
    requires w.threads[t].infra == [] && w.threads[t].own != [] && !Head(w.threads[t]).EnsureInfra?
    requires InfraInvariant(c, w) && StepExec(c, w, t, o, now).Some?
    ensures InfraInvariant(c, StepExec(c, w, t, o, now).value)
  {
    OwnPartApart(c, w, t);
    assert MayRun(c, w.phase, w.pending, t);
    var live := if w.phase.Realizing? then Undestroyed(c) else {};
    var recorded := if w.phase.Realizing? then Unforgotten(c) else {};
    if AtMost(c, w, live, recorded) {
      ExecKeepsAtMost(c, w, t, o, now, live, recorded);
    }
  }

  lemma ExecKeepsAtMost(c: Config, w: World, t: Tid, o: Outcome, now: string, live: set<string>,
                        recorded: set<string>)
    requires t in w.threads && w.ledger.Some? && StepExec(c, w, t, o, now).Some?
    requires AtMost(c, w, live, recorded) && NamesIn(Head(w.threads[t])) !! Mentions(c.infra)
    ensures AtMost(c, StepExec(c, w, t, o, now).value, live, recorded)
  {
    var a, w' := Head(w.threads[t]), StepExec(c, w, t, o, now).value;
    StepKeepsAtMost(c, w, a, o, now, live, recorded);
    if !a.EnsureInfra? {
      SameInfraNames(c, Effected(w, a, o, now), w', live, recorded);
    }
  }

  /** While a worker brings the infra up it holds the lock; then the infra is active, or the
      walk has failed. */
  lemma InfraExecSettled(c: Config, w: World, t: Tid, o: Outcome, now: string)
    requires Safety(c, w) && w.ledger.Some? && t in w.threads
    requires w.threads[t].infra != [] && StepExec(c, w, t, o, now).Some?
    ensures InfraInvariant(c, StepExec(c, w, t, o, now).value)
  {
    assert ThreadSafe(c, w.phase, w.infraHolder, NamesOf(w.ledger.value.resources), w.live, t, w.threads[t]);
  }

  /** Only destroys, forgets and dictionary pops. */
  ghost predicate OnlyDismantles(p: Program) {
    forall a | a in p :: a.Destroy? || a.Forget? || a.Drop?
  }

  ghost predicate Dismantling(w: World) {
    Main in w.threads ==> w.threads[Main].infra == [] && OnlyDismantles(w.threads[Main].own)
  }

  /** One step of a teardown that goes on. */
  lemma DismantleStep(p: Program, o: Outcome)
    requires p != [] && OnlyDismantles(p)
    ensures OnlyDismantles(p[1..]) && Rest(p, o) == p[1..]
    ensures Destroys(p) <= Destroys(p[1..]) + (if p[0].Destroy? then {p[0].name} else {})
    ensures Forgets(p) <= Forgets(p[1..]) + (if p[0].Forget? then {p[0].name} else {})
  {
    assert p[0] in p && forall b | b in p :: b == p[0] || b in p[1..];
  }

  lemma DismantleKeepsAtMost(c: Config, w: World, p: Program, now: string, live: set<string>, recorded: set<string>)
    requires w.ledger.Some? && p != [] && OnlyDismantles(p)
    requires AtMost(c, w, live + Destroys(p), recorded + Forgets(p))
    ensures AtMost(c, Effected(w, p[0], Succeeds, now), live + Destroys(p[1..]), recorded + Forgets(p[1..]))
  {
    DismantleStep(p, Succeeds);
    assert p[0] in p;
    LedgerNamesAfter(p[0], Succeeds, w.ledger.value, now);
    var w1 := Effected(w, p[0], Succeeds, now);
    assert w1.live == w.live - (if p[0].Destroy? then {p[0].name} else {});
    forall x | x in w1.live * Mentions(c.infra) ensures x in live + Destroys(p[1..]) {
      assert x in w.live * Mentions(c.infra);
    }
    forall x | x in NamesOf(w1.ledger.value.resources) * Mentions(c.infra) ensures x in recorded + Forgets(p[1..]) {
      assert x in NamesOf(w.ledger.value.resources) * Mentions(c.infra);
    }
  }

  /** The main thread takes the next piece of the infra down, or the run fails. */
  lemma MainExecSettled(c: Config, w: World, o: Outcome, now: string)
    requires w.phase.InfraDown? && w.ledger.Some? && Main in w.threads && w.threads[Main].infra == []
    requires InfraInvariant(c, w) && StepExec(c, w, Main, o, now).Some? && OnlyDismantles(w.threads[Main].own)
    ensures InfraInvariant(c, StepExec(c, w, Main, o, now).value) && Dismantling(StepExec(c, w, Main, o, now).value)
  {
    var p, w' := w.threads[Main].own, StepExec(c, w, Main, o, now).value;
    assert p[0] in p;
    DismantleStep(p, o);
    if o.Succeeds? && !w.resume && !w.failed {
      DismantleKeepsAtMost(c, w, p, now, Undestroyed(c), Unforgotten(c));
      assert MainLeft(w') == p[1..];
      SameInfraNames(c, Effected(w, p[0], o, now), w', Undestroyed(c) + Destroys(p[1..]),
                     Unforgotten(c) + Forgets(p[1..]));
    }
  }

  lemma ExecSettled(c: Config, w: World, t: Tid, o: Outcome, now: string)
    requires WellFormed(c) && Safety(c, w) && InfraInvariant(c, w) && Dismantling(w)
    requires StepExec(c, w, t, o, now).Some?
    ensures InfraInvariant(c, StepExec(c, w, t, o, now).value) && Dismantling(StepExec(c, w, t, o, now).value)
  {
    var th := w.threads[t];
    assert ThreadSafe(c, w.phase, w.infraHolder, NamesOf(w.ledger.value.resources), w.live, t, th);
    assert MayRun(c, w.phase, w.pending, t);
    ExecThreads(c, w, t, o, now);
    if t == Main {
      MainExecSettled(c, w, o, now);
    } else if th.infra != [] {
      InfraExecSettled(c, w, t, o, now);
    } else if !Head(th).EnsureInfra? {
      WorkerExecSettled(c, w, t, o, now);
    }
  }

  lemma AdvanceSettled(c: Config, w: World, buildOnly: bool)
    requires Safety(c, w) && OnlyDismantles(c.infraDown) && InfraInvariant(c, w) && StepAdvance(c, w, buildOnly).Some?
    ensures InfraInvariant(c, StepAdvance(c, w, buildOnly).value) && Dismantling(StepAdvance(c, w, buildOnly).value)
  {
    if w.phase.Materializing? {
      assert w.infraHolder.None?;
    }
    assert Destroys([]) == {} && Forgets([]) == {};
  }

  lemma NextSettled(c: Config, w: World, e: Event)
    requires WellFormed(c) && OnlyDismantles(c.infraDown) && Safety(c, w) && InfraInvariant(c, w) && Dismantling(w)
    requires Next(c, w, e).Some?
    ensures InfraInvariant(c, Next(c, w, e).value) && Dismantling(Next(c, w, e).value)
  {
    match e
    case Exec(t, o, now) => ExecSettled(c, w, t, o, now);
    case Advance(buildOnly) => AdvanceSettled(c, w, buildOnly);
    case _ => QuietSettled(c, w, e);
  }

  lemma QuietSettled(c: Config, w: World, e: Event)
    requires InfraInvariant(c, w) && Dismantling(w) && Next(c, w, e).Some? && !e.Exec? && !e.Advance?
    ensures InfraInvariant(c, Next(c, w, e).value) && Dismantling(Next(c, w, e).value)
  {
  }

  lemma {:induction false} EveryRunSettles(c: Config, s: State, events: seq<Event>)
    requires WellFormed(c) && OnlyDismantles(c.infraDown) && FreshState(s) && After(c, s, events).Some?
    ensures InfraInvariant(c, After(c, s, events).value) && Dismantling(After(c, s, events).value)
  {
    if events != [] {
      var before := events[..|events| - 1];
      EveryRunSettles(c, s, before);
      EveryRunIsSafe(c, s, before);
      NextSettled(c, After(c, s, before).value, events[|events| - 1]);
    }
  }

  /** In a run that has not been resumed, as long as nothing has failed: when the realize walk
      runs or the run is up, the build infra is gone from the backend and from the ledger, but
      for what its teardown does not destroy or forget. */
  lemma InfraIsGone(c: Config, s: State, events: seq<Event>)
    requires WellFormed(c) && OnlyDismantles(c.infraDown) && FreshState(s) && After(c, s, events).Some?
    requires var w := After(c, s, events).value;
             !w.resume && !w.failed && (w.phase.Realizing? || w.phase.Up?)
    ensures var w := After(c, s, events).value;
            && w.live * Mentions(c.infra) <= Mentions(c.infra) - Destroys(c.infraDown)
            && w.ledger.Some?
            && NamesOf(w.ledger.value.resources) * Mentions(c.infra) <= Mentions(c.infra) - Forgets(c.infraDown)
  {
    EveryRunSettles(c, s, events);
    EveryRunIsSafe(c, s, events);
  }
}
