/** The ledger lists resources in dependency order, in every run and across any chain of
    crashes and resumes; so destroying it back to front destroys dependents first.
 */
module RunOrder {
  import opened Wrappers
  import opened Ledger
  import opened Actions
  import opened RunSystem
  import opened RunSafety
  import opened Relation
  import opened BuildGraph

  // ---- The invariant --------------------------------------------------------------

  /** An earlier record never ranks above a later one. */
  ghost function InRank(c: Config): (Resource, Resource) -> bool {
    (x: Resource, y: Resource) =>
      x.backendName in c.rank && y.backendName in c.rank ==> c.rank[x.backendName] <= c.rank[y.backendName]
  }

  ghost function OutOfRank(c: Config): (Resource, Resource) -> bool {
    (x: Resource, y: Resource) =>
      x.backendName in c.rank && y.backendName in c.rank ==> c.rank[y.backendName] <= c.rank[x.backendName]
  }

  /** Whatever ranks below a recorded resource has been stamped realized. */
  ghost predicate Backed(c: Config, rs: seq<Resource>, realized: set<string>) {
    forall r, m | r in rs && r.backendName in c.rank && m in c.level && c.level[m] < c.rank[r.backendName] ::
      m in realized
  }

  ghost predicate Ordered(c: Config, s: State) {
    Pairwise(InRank(c), s.resources) && Backed(c, s.resources, Realized(s.nodes))
  }

  /** A worker's program ends with its own completion stamp and has no other. */
  ghost predicate EndsWithStamp(p: Program, n: string, realized: bool) {
    && p != [] && p[|p| - 1] == Stamp(n, realized)
    && NoStamps(p[..|p| - 1])
  }

  /** A worker stamps only its own node; one whose node is already realized records nothing. */
  ghost predicate WorkerInOrder(phase: Phase, realized: set<string>, t: Tid, th: Thread) {
    && NoStamps(th.infra)
    && (match t
        case Main => NoStamps(th.own)
        case Worker(n) =>
          && EndsWithStamp(th.own, n, phase.Realizing?)
          && (phase.Realizing? && n in realized ==> NoRecords(th.own)))
  }

  /** How far the realize walk has come. */
  ghost predicate WalkInOrder(c: Config, w: World, realized: set<string>) {
    && (!w.resume ==> w.seed == {})
    && (w.phase.Materializing? || w.phase.InfraDown? ==> realized == w.seed)
    && (w.phase.Realizing? ==>
          && (forall m | m in c.level && c.level[m] < w.phase.wave :: m in realized && m in w.up)
          && (forall n | n in WaveAt(c.waves, w.phase.wave) ::
                w.failed || n in w.pending || Worker(n) in w.threads || (n in realized && n in w.up))
          && (forall n | n in realized ::
                n in w.seed || (n in c.level && c.level[n] <= w.phase.wave && n !in w.pending &&
                    Worker(n) !in w.threads)))
    && (w.phase.Up? ==> !w.failed && forall m | m in c.level :: m in realized && m in w.up)
  }

  ghost predicate Order(c: Config, w: World) {
    && (w.ledger.Some? ==>
          && Ordered(c, w.ledger.value)
          && WalkInOrder(c, w, Realized(w.ledger.value.nodes))
          && (forall t | t in w.threads :: WorkerInOrder(w.phase, Realized(w.ledger.value.nodes), t, w.threads[t])))
    && (w.phase.Destroying? ==> Pairwise(OutOfRank(c), w.phase.todo))
  }

  // ---- One ledger step ---------------------------------------------------------------

  /** A record may be appended if it ranks at least as high as what is there and everything
      ranking below it is realized. */
  lemma RecordKeepsOrdered(c: Config, s: State, r: Resource)
    requires Ordered(c, s)
    requires r.backendName in c.rank ==>
               && (forall x | x in s.resources && x.backendName in c.rank ::
                     c.rank[x.backendName] <= c.rank[r.backendName])
               && (forall m | m in c.level && c.level[m] < c.rank[r.backendName] :: m in Realized(s.nodes))
    ensures Ordered(c, s.WithResource(r))
  {
    var rs := s.resources + [r];
    forall i, j | 0 <= i < j < |rs| ensures InRank(c)(rs[i], rs[j]) {
      if j < |s.resources| {
        assert InRank(c)(s.resources[i], s.resources[j]);
      } else {
        assert rs[i] in s.resources;
      }
    }
  }

  lemma ConfirmKeepsOrdered(c: Config, s: State, name: string, r: Resource)
    requires Ordered(c, s) && r.backendName == name
    ensures Ordered(c, s.ReplaceResource(name, r))
  {
    ReplacedNames(s.resources, name, r);
    var rs := Replaced(s.resources, name, r);
    forall i, j | 0 <= i < j < |rs| ensures InRank(c)(rs[i], rs[j]) {
      assert InRank(c)(s.resources[i], s.resources[j]);
    }
    forall x, m | x in rs && x.backendName in c.rank && m in c.level && c.level[m] < c.rank[x.backendName]
      ensures m in Realized(s.nodes)
    {
      var i :| 0 <= i < |rs| && rs[i] == x;
      assert s.resources[i] in s.resources;
    }
  }

  lemma ForgetKeepsOrdered(c: Config, s: State, name: string)
    requires Ordered(c, s)
    ensures Ordered(c, s.RemoveResource(name))
  {
    RemovedPairwise(InRank(c), s.resources, name);
    RemovedMembers(s.resources, name);
  }

  lemma StampKeepsOrdered(c: Config, s: State, n: string, realized: bool, now: string)
    requires Ordered(c, s) && UniqueNodes(s.nodes)
    ensures var s' := if realized then StampRealized(s, n, now) else StampMaterialized(s, n, now);
            Ordered(c, s') && Realized(s'.nodes) == Realized(s.nodes) + (if realized then {n} else {})
  {
    StampRealizedEffect(s, n, now);
    StampMaterializedEffect(s, n, now);
  }

  /** The ledger after any step a worker may take. */
  lemma LedgerStepOrdered(c: Config, s: State, a: Action, o: Outcome, now: string)
    requires Ordered(c, s) && UniqueNodes(s.nodes) && RecordFits(c, s, a)
    ensures var s' := LedgerAfter(a, o, s, now);
            && Ordered(c, s')
            && Realized(s'.nodes) == Realized(s.nodes) +
                (if o.Succeeds? && a.Stamp? && a.realized then {a.node} else {})
  {
    if o.Succeeds? {
      match a {
        case Record(r) => RecordKeepsOrdered(c, s, r);
        case Confirm(x, extra) =>
          var found := FirstResource(s.resources, x);
          if found.Some? {
            ConfirmKeepsOrdered(c, s, x, found.value.WithOutcome(now, extra));
          }
        case Forget(x) => ForgetKeepsOrdered(c, s, x);
        case Stamp(n, realized) => StampKeepsOrdered(c, s, n, realized, now);
        case _ =>
      }
    }
  }

  // ---- Running a step ------------------------------------------------------------------

  /** A record about to be written may be appended to the ledger. */
  ghost predicate RecordFits(c: Config, s: State, a: Action) {
    a.Record? && a.r.backendName in c.rank ==>
      && (forall x | x in s.resources && x.backendName in c.rank :: c.rank[x.backendName] <= c.rank[a.r.backendName])
      && (forall m | m in c.level && c.level[m] < c.rank[a.r.backendName] :: m in Realized(s.nodes))
  }

  /** What a worker records in the realize walk ranks exactly at the current wave. */
  lemma RecordAllowed(c: Config, w: World, t: Tid)
    requires WellFormed(c) && Safety(c, w) && Order(c, w) && w.ledger.Some? && t in w.threads
    requires var th := w.threads[t]; (th.infra != [] || th.own != []) && Head(th).Record?
    ensures RecordFits(c, w.ledger.value, Head(w.threads[t]))
  {
    var th, s := w.threads[t], w.ledger.value;
    var x := Head(th).r.backendName;
    assert ThreadSafe(c, w.phase, w.infraHolder, NamesOf(s.resources), w.live, t, th);
    assert MayRun(c, w.phase, w.pending, t);
    assert WorkerInOrder(w.phase, Realized(s.nodes), t, th);
    if t.Worker? {
      WorkerInMap(c, w.phase, t.node);
    }
    HeadName(c, w.phase, w.infraHolder, NamesOf(s.resources), w.live, t, th);
    RankOfRecord(c, w.phase, t, th, x);
    if w.phase.Realizing? {
      assert t.node !in Realized(s.nodes) by {
        assert th.own[0] in th.own;
      }
    }
  }

  lemma HeadName(c: Config, phase: Phase, holder: Option<string>, recorded: set<string>, live: set<string>, t: Tid,
      th: Thread)
    requires ThreadSafe(c, phase, holder, recorded, live, t, th)
    requires (th.infra != [] || th.own != []) && Head(th).Record?
    ensures Head(th).r.backendName in if th.infra != [] then Mentions(c.infra) else OwnNames(c, phase, t)
  {
    assert NamesIn(Head(th)) <= Mentions(if th.infra != [] then th.infra else th.own);
  }

  lemma RankOfRecord(c: Config, phase: Phase, t: Tid, th: Thread, x: string)
    requires RanksFit(c) && x in if th.infra != [] then Mentions(c.infra) else OwnNames(c, phase, t)
    ensures x in c.rank ==>
              && th.infra == [] && t.Worker? && phase.Realizing?
              && t.node in c.level && c.rank[x] == c.level[t.node]
  {
  }

  /** A program that ends with its stamp still does after a step, until the stamp itself. */
  lemma RestEndsWithStamp(p: Program, n: string, realized: bool, o: Outcome)
    requires EndsWithStamp(p, n, realized)
    ensures p[0].Stamp? ==> p == [Stamp(n, realized)]
    ensures !p[0].Stamp? ==> EndsWithStamp(Rest(p, o), n, realized)
    ensures NoRecords(p) ==> NoRecords(Rest(p, o))
  {
    RestMentions(p, o);
    var last := |p| - 1;
    assert last > 0 ==> p[0] == p[..last][0];
    if !p[0].Stamp? {
      var q := Rest(p, o);
      forall a | a in q[..|q| - 1] ensures !a.Stamp? {
        if a in p[1..last] {
          assert a in p[..last];
        }
      }
    }
  }

  /** The stepping worker stays in order; only the realize walk stamps realizations, and
      only at the very end of a worker. */
  lemma SelfInOrder(phase: Phase, realized: set<string>, t: Tid, th: Thread, o: Outcome)
    requires WorkerInOrder(phase, realized, t, th) && (th.infra != [] || th.own != [])
    ensures var a := Head(th);
            a.Stamp? ==> t.Worker? && th.infra == [] && th.own == [Stamp(t.node, phase.Realizing?)]
    ensures !Head(th).Stamp? ==>
              WorkerInOrder(phase, realized, t, AfterHead(th, o)) && (t.Worker? ==> AfterHead(th, o).own != [])
  {
    if th.infra != [] {
      assert Head(th) in th.infra;
      RestStamps(th.infra, o);
    } else if t.Worker? {
      RestEndsWithStamp(th.own, t.node, phase.Realizing?, o);
    } else {
      assert Head(th) in th.own;
      RestStamps(th.own, o);
    }
  }

  lemma RestStamps(p: Program, o: Outcome)
    requires p != [] && NoStamps(p)
    ensures NoStamps(Rest(p, o))
  {
    forall a | a in Rest(p, o) ensures !a.Stamp? {
      if a in p[1..] {
        assert a in p;
      }
    }
  }

  /** The walk after a worker raised. */
  lemma RaiseInOrder(c: Config, w: World, t: Tid, realized: set<string>)
    requires WalkInOrder(c, w, realized) && !w.phase.Up?
    ensures WalkInOrder(c, Raise(w, t), realized)
  {
  }

  /** The walk after a worker stepped on without stamping. */
  lemma StepInOrder(c: Config, w: World, t: Tid, th: Thread, a: Action, wasInfra: bool, realized: set<string>)
    requires WalkInOrder(c, w, realized) && t in w.threads && !a.Stamp? && (t.Worker? ==> th.own != [])
    ensures WalkInOrder(c, Continue(w, t, th, a, wasInfra), realized)
  {
  }

  /** The walk after a worker stamped its node. */
  lemma StampInOrder(c: Config, w: World, n: string, th: Thread, realized: set<string>)
    requires WalkInOrder(c, w, realized) && MayRun(c, w.phase, w.pending, Worker(n))
    requires th.infra == [] && th.own == [] && Worker(n) in w.threads
    requires w.phase.Realizing? ==> n in c.level && c.level[n] == w.phase.wave
    ensures var stamps := w.phase.Realizing?;
            WalkInOrder(c, Continue(w, Worker(n), th, Stamp(n, stamps), false),
                        if stamps then realized + {n} else realized)
  {
  }

  ghost predicate WorkersInOrder(w: World, realized: set<string>) {
    forall t | t in w.threads :: WorkerInOrder(w.phase, realized, t, w.threads[t])
  }

  /** Another node's stamp does not concern a worker. */
  lemma OthersStayInOrder(w: World, n: string, realized: set<string>)
    requires WorkersInOrder(w, realized)
    ensures WorkersInOrder(w.(threads := w.threads - {Worker(n)}), realized + {n})
  {
    var w' := w.(threads := w.threads - {Worker(n)});
    forall t | t in w'.threads ensures WorkerInOrder(w.phase, realized + {n}, t, w'.threads[t]) {
      assert WorkerInOrder(w.phase, realized, t, w.threads[t]);
    }
  }

  lemma EnsureInfraOrder(c: Config, w: World, t: Tid)
    requires NoStamps(c.infra) && Order(c, w) && w.ledger.Some? && t in w.threads
    requires var th := w.threads[t];
             (th.infra != [] || th.own != []) && Head(th).EnsureInfra? && StepEnsureInfra(c, w, t, th).Some?
    ensures Order(c, StepEnsureInfra(c, w, t, w.threads[t]).value)
  {
    var th, realized := w.threads[t], Realized(w.ledger.value.nodes);
    assert WorkerInOrder(w.phase, realized, t, th);
    SelfInOrder(w.phase, realized, t, th, Succeeds);
    var th' := th.(own := th.own[1..]);
    assert AfterHead(th, Succeeds) == th';
    if w.infraActive {
      StepInOrder(c, w, t, th', EnsureInfra, false, realized);
    }
  }

  /** `w` is in order but for the thread `t`, whose step has just taken effect. */
  ghost predicate OrderBefore(c: Config, w: World, realized: set<string>) {
    && w.ledger.Some? && !w.phase.Destroying? && !w.phase.Up? && Ordered(c, w.ledger.value)
    && WalkInOrder(c, w, realized) && WorkersInOrder(w, realized)
  }

  lemma RaiseOrder(c: Config, w: World, t: Tid)
    requires w.ledger.Some? && OrderBefore(c, w, Realized(w.ledger.value.nodes))
    ensures Order(c, Raise(w, t))
  {
    RaiseInOrder(c, w, t, Realized(w.ledger.value.nodes));
  }

  lemma StepOrder(c: Config, w: World, t: Tid, th: Thread, a: Action, wasInfra: bool)
    requires w.ledger.Some? && OrderBefore(c, w, Realized(w.ledger.value.nodes))
    requires t in w.threads && !a.Stamp? && WorkerInOrder(w.phase, Realized(w.ledger.value.nodes), t, th)
    requires t.Worker? ==> th.own != []
    ensures Order(c, Continue(w, t, th, a, wasInfra))
  {
    StepInOrder(c, w, t, th, a, wasInfra, Realized(w.ledger.value.nodes));
  }

  lemma StampOrder(c: Config, w: World, n: string, th: Thread, realized: set<string>)
    requires OrderBefore(c, w, realized) && Worker(n) in w.threads && MayRun(c, w.phase, w.pending, Worker(n))
    requires th.infra == [] && th.own == []
    requires w.phase.Realizing? ==> n in c.level && c.level[n] == w.phase.wave
    requires Realized(w.ledger.value.nodes) == if w.phase.Realizing? then realized + {n} else realized
    ensures Order(c, Continue(w, Worker(n), th, Stamp(n, w.phase.Realizing?), false))
  {
    StampInOrder(c, w, n, th, realized);
    OthersStayInOrder(w, n, realized);
  }

  /** What is known about a thread before it steps. */
  ghost predicate MayStep(c: Config, w: World, t: Tid) {
    && w.ledger.Some? && UniqueNodes(w.ledger.value.nodes) && t in w.threads
    && (w.threads[t].infra != [] || w.threads[t].own != [])
    && !w.phase.Destroying? && !w.phase.Up? && MayRun(c, w.phase, w.pending, t)
    && RecordFits(c, w.ledger.value, Head(w.threads[t]))
    && (t.Worker? && w.phase.Realizing? ==> t.node in c.level && c.level[t.node] == w.phase.wave)
  }

  lemma ThreadMayStep(c: Config, w: World, t: Tid)
    requires WellFormed(c) && Safety(c, w) && Order(c, w) && w.ledger.Some? && t in w.threads
    requires w.threads[t].infra != [] || w.threads[t].own != []
    ensures MayStep(c, w, t)
  {
    assert MayRun(c, w.phase, w.pending, t);
    if t.Worker? {
      WorkerInMap(c, w.phase, t.node);
    }
    if Head(w.threads[t]).Record? {
      RecordAllowed(c, w, t);
    }
  }

  lemma EffectInOrder(c: Config, w: World, t: Tid, o: Outcome, now: string)
    requires Order(c, w) && MayStep(c, w, t)
    ensures var s, a := w.ledger.value, Head(w.threads[t]);
            var w1 := Effected(w, a, o, now);
            && OrderBefore(c, w1, Realized(s.nodes))
            && Realized(w1.ledger.value.nodes) ==
               Realized(s.nodes) + (if o.Succeeds? && a.Stamp? && a.realized then {a.node} else {})
  {
    LedgerStepOrdered(c, w.ledger.value, Head(w.threads[t]), o, now);
  }

  /** Raise or go on, once the step has taken effect. */
  lemma AfterEffect(c: Config, w: World, t: Tid, o: Outcome, realized: set<string>, raises: bool)
    requires OrderBefore(c, w, realized) && t in w.threads && MayRun(c, w.phase, w.pending, t)
    requires w.threads[t].infra != [] || w.threads[t].own != []
    requires t.Worker? && w.phase.Realizing? ==> t.node in c.level && c.level[t.node] == w.phase.wave
    requires var a := Head(w.threads[t]);
             && (raises ==> o.Raises? || !a.Stamp?) && (!raises && a.Stamp? ==> o.Succeeds?)
             && Realized(w.ledger.value.nodes) ==
                realized + (if o.Succeeds? && a.Stamp? && a.realized then {a.node} else {})
    ensures var th := w.threads[t];
            Order(c, if raises then Raise(w, t) else Continue(w, t, AfterHead(th, o), Head(th), th.infra != []))
  {
    var th := w.threads[t];
    SelfInOrder(w.phase, realized, t, th, o);
    if raises {
      RaiseOrder(c, w, t);
    } else if Head(th).Stamp? {
      StampOrder(c, w, t.node, AfterHead(th, o), realized);
    } else {
      StepOrder(c, w, t, AfterHead(th, o), Head(th), th.infra != []);
    }
  }

  lemma ExecOrder(c: Config, w: World, t: Tid, o: Outcome, now: string)
    requires WellFormed(c) && Safety(c, w) && Order(c, w) && StepExec(c, w, t, o, now).Some?
    ensures Order(c, StepExec(c, w, t, o, now).value)
  {
    if Head(w.threads[t]).EnsureInfra? {
      EnsureInfraOrder(c, w, t);
    } else {
      ThreadMayStep(c, w, t);
      PlainExecOrder(c, w, t, o, now);
    }
  }

  lemma PlainExecOrder(c: Config, w: World, t: Tid, o: Outcome, now: string)
    requires Order(c, w) && MayStep(c, w, t) && !Head(w.threads[t]).EnsureInfra?
    ensures StepExec(c, w, t, o, now).Some? && Order(c, StepExec(c, w, t, o, now).value)
  {
    EffectInOrder(c, w, t, o, now);
    var s, a := w.ledger.value, Head(w.threads[t]);
    AfterEffect(c, Effected(w, a, o, now), t, o, Realized(s.nodes), RaisesOut(a, o, s, w.keys));
  }

  // ---- The other steps -------------------------------------------------------------------

  lemma HookInOrder(c: Config, phase: Phase, reattaches: bool, n: string, hit: bool)
    requires WellFormed(c)
    requires phase.Materializing? ==> n in c.materialize && n in c.warm
    requires phase.Realizing? ==> n in c.realize && n in c.reattach
    ensures NoStamps(HookOf(c, phase, reattaches, n, hit))
    ensures phase.Realizing? && reattaches ==> NoRecords(HookOf(c, phase, reattaches, n, hit))
  {
  }

  lemma ProgramInOrder(c: Config, w: World, n: string, hit: bool, realized: set<string>)
    requires WellFormed(c) && WalkInOrder(c, w, realized) && n in w.pending
    requires w.phase.Materializing? ==> n in c.materialize && n in c.warm
    requires w.phase.Realizing? ==> n in c.realize && n in c.reattach
    ensures WorkerInOrder(w.phase, realized, Worker(n), Thread([], ProgramOf(c, w, n, hit)))
  {
    HookInOrder(c, w.phase, Reattaches(w, n), n, hit);
    StampedHook(HookOf(c, w.phase, Reattaches(w, n), n, hit), n, w.phase.Realizing?);
  }

  lemma StampedHook(p: Program, n: string, realized: bool)
    requires NoStamps(p)
    ensures EndsWithStamp(p + [Stamp(n, realized)], n, realized)
    ensures NoRecords(p) ==> NoRecords(p + [Stamp(n, realized)])
  {
    var program := p + [Stamp(n, realized)];
    assert program[..|program| - 1] == p;
  }

  lemma StartOrder(c: Config, w: World, n: string, hit: bool)
    requires WellFormed(c) && Safety(c, w) && Order(c, w) && StepStart(c, w, n, hit).Some?
    ensures Order(c, StepStart(c, w, n, hit).value)
  {
    WorkerInMap(c, w.phase, n);
    if w.ledger.Some? {
      ProgramInOrder(c, w, n, hit, Realized(w.ledger.value.nodes));
    }
    NewWorkerInOrder(c, w, n, ProgramOf(c, w, n, hit));
  }

  lemma NewWorkerInOrder(c: Config, w: World, n: string, p: Program)
    requires Order(c, w) && n in w.pending
    requires w.ledger.Some? ==> WorkerInOrder(w.phase, Realized(w.ledger.value.nodes), Worker(n), Thread([], p))
    ensures Order(c, w.(pending := w.pending - {n}, threads := w.threads[Worker(n) := Thread([], p)]))
  {
  }

  lemma BeginDestroyOrder(c: Config, w: World)
    requires Order(c, w) && BeginDestroy(w).Some? && w.threads == map[]
    ensures Order(c, BeginDestroy(w).value)
  {
    var rs := w.ledger.value.resources;
    var todo := Reversed(rs);
    forall i, j | 0 <= i < j < |todo| ensures OutOfRank(c)(todo[i], todo[j]) {
      assert InRank(c)(rs[|rs| - 1 - j], rs[|rs| - 1 - i]);
    }
  }

  /** The next wave: everything before it has been stamped and is up. */
  lemma NextWaveOrder(c: Config, w: World, realized: set<string>)
    requires LevelsFit(c) && WalkInOrder(c, w, realized) && w.phase.Realizing? && !w.failed
    requires w.threads == map[] && w.pending == {}
    ensures w.phase.wave + 1 < |c.waves| ==>
              WalkInOrder(c, w.(phase := Realizing(w.phase.wave + 1), pending := WaveAt(c.waves, w.phase.wave + 1)),
                          realized)
    ensures w.phase.wave + 1 >= |c.waves| ==> WalkInOrder(c, w.(phase := Up), realized)
  {
    var k := w.phase.wave;
    forall m | m in c.level && c.level[m] < k + 1 ensures m in realized && m in w.up {
      if c.level[m] == k {
        assert m in c.waves[k];
        assert m in WaveAt(c.waves, k);
      }
    }
  }

  lemma AdvanceOrder(c: Config, w: World, buildOnly: bool)
    requires LevelsFit(c) && NoStamps(c.infraDown) && Order(c, w) && StepAdvance(c, w, buildOnly).Some?
    ensures Order(c, StepAdvance(c, w, buildOnly).value)
  {
    if w.phase.Materializing? {
      MaterializeAdvanceOrder(c, w, buildOnly);
    } else if w.phase.InfraDown? {
      if w.failed || buildOnly {
        BeginDestroyOrder(c, w);
      } else {
        FirstWaveOrder(c, w);
      }
    } else if w.failed {
      BeginDestroyOrder(c, w);
    } else if w.ledger.Some? {
      NextWaveOrder(c, w, Realized(w.ledger.value.nodes));
    }
  }

  lemma MaterializeAdvanceOrder(c: Config, w: World, buildOnly: bool)
    requires Order(c, w) && w.phase.Materializing? && StepAdvance(c, w, buildOnly).Some? && NoStamps(c.infraDown)
    ensures Order(c, StepAdvance(c, w, buildOnly).value)
  {
  }

  lemma FirstWaveOrder(c: Config, w: World)
    requires Order(c, w) && w.phase.InfraDown? && w.threads == map[] && w.pending == {}
    ensures Order(c, w.(phase := Realizing(0), pending := WaveAt(c.waves, 0)))
  {
  }

  lemma DestroyOrder(c: Config, w: World, o: Outcome)
    requires Safety(c, w) && Order(c, w) && StepDestroy(w, o).Some?
    ensures Order(c, StepDestroy(w, o).value)
  {
    NobodyRuns(c, w);
    TailPairwise(OutOfRank(c), w.phase.todo);
  }

  lemma ForgetOrder(c: Config, w: World, ok: bool)
    requires Safety(c, w) && Order(c, w) && StepForget(w, ok).Some?
    ensures Order(c, StepForget(w, ok).value)
  {
    NobodyRuns(c, w);
    TailPairwise(OutOfRank(c), w.phase.todo);
    ForgetKeepsOrdered(c, w.ledger.value, w.phase.todo[0].backendName);
  }

  lemma TailPairwise(p: (Resource, Resource) -> bool, rs: seq<Resource>)
    requires rs != [] && Pairwise(p, rs)
    ensures Pairwise(p, rs[1..])
  {
  }

  lemma DiedOrder(c: Config, w: World)
    requires Order(c, w)
    ensures Order(c, Died(w))
  {
  }

  lemma NextOrder(c: Config, w: World, e: Event)
    requires WellFormed(c) && Safety(c, w) && Order(c, w) && Next(c, w, e).Some?
    ensures Order(c, Next(c, w, e).value)
  {
    match e
    case Start(n, hit) => StartOrder(c, w, n, hit);
    case Exec(t, o, now) => ExecOrder(c, w, t, o, now);
    case Advance(buildOnly) => AdvanceOrder(c, w, buildOnly);
    case DestroyHead(o) => DestroyOrder(c, w, o);
    case ForgetHead(ok) => ForgetOrder(c, w, ok);
    case FinishDestroy(removes) => DiedOrder(c, w);
    case Cancel => CancelOrder(c, w);
    case Interrupt => CancelOrder(c, w);
    case Exit => NobodyRuns(c, w); BeginDestroyOrder(c, w);
    case Leak => DiedOrder(c, w);
    case Crash => DiedOrder(c, w);
    case Resume => NobodyRuns(c, w);
    case Cleanup => NobodyRuns(c, w); BeginDestroyOrder(c, w);
  }

  lemma CancelOrder(c: Config, w: World)
    requires Order(c, w) && (w.phase.Materializing? || w.phase.Realizing?)
    ensures Order(c, w.(failed := true))
    ensures w.failed ==> Order(c, w.(pending := {}))
  {
  }

  // ---- Every run -------------------------------------------------------------------------

  lemma {:induction false} EveryRunIsOrdered(c: Config, s: State, events: seq<Event>)
    requires WellFormed(c) && FreshState(s) && After(c, s, events).Some?
    ensures Safety(c, After(c, s, events).value) && Order(c, After(c, s, events).value)
  {
    EveryRunIsSafe(c, s, events);
    if events != [] {
      var before := events[..|events| - 1];
      EveryRunIsOrdered(c, s, before);
      NextOrder(c, After(c, s, before).value, events[|events| - 1]);
    }
  }

  // ---- Dependencies first, dependents last -------------------------------------------------

  /** The run follows the schedules of a frozen graph. */
  ghost predicate Follows(c: Config, g: Graph) {
    WellFormed(c) && g.Valid() && c.waves == g.waves && c.contentWaves == g.contentWaves
  }

  /** Along dependency edges waves go strictly down. */
  lemma ChainLowersWave(d: Deps, waves: seq<seq<string>>, p: seq<string>) returns (i: nat, k: nat)
    requires Layered(d, waves) && Settled(waves) == d.Keys && Chain(d, p) && |p| >= 2
    ensures k < i < |waves| && p[0] in waves[i] && p[|p| - 1] in waves[k]
  {
    SettledMember(waves, p[0]);
    i :| 0 <= i < |waves| && p[0] in waves[i];
    var j := DependencyEarlier(d, waves, i, p[0], p[1]);
    ChainDescends(d, waves, j, p[1..]);
    k :| 0 <= k <= j && p[1..][|p[1..]| - 1] in waves[k];
  }

  /** Names of a dependency's resources rank strictly below those of its dependent. */
  lemma ChainLowersRank(c: Config, g: Graph, p: seq<string>, x: string, y: string)
    requires Follows(c, g) && Chain(g.deps, p) && |p| >= 2 && p[0] in c.realize && p[|p| - 1] in c.realize
    requires x in Mentions(c.realize[p[|p| - 1]]) && y in Mentions(c.realize[p[0]])
    ensures x in c.rank && y in c.rank && c.rank[x] < c.rank[y]
  {
    var i, k := ChainLowersWave(g.deps, g.waves, p);
    RankByWave(c, p[0], i, y);
    RankByWave(c, p[|p| - 1], k, x);
  }

  lemma RankByWave(c: Config, n: string, i: nat, x: string)
    requires LevelsFit(c) && RanksFit(c) && i < |c.waves| && n in c.waves[i] && n in c.realize
    requires x in Mentions(c.realize[n])
    ensures x in c.rank && c.rank[x] == i
  {
  }

  lemma LowerRankFirst(c: Config, rs: seq<Resource>, i: nat, j: nat)
    requires Pairwise(InRank(c), rs) && i < |rs| && j < |rs|
    requires rs[i].backendName in c.rank && rs[j].backendName in c.rank
    requires c.rank[rs[i].backendName] < c.rank[rs[j].backendName]
    ensures i < j
  {
  }

  lemma LowerRankLast(c: Config, rs: seq<Resource>, i: nat, j: nat)
    requires Pairwise(OutOfRank(c), rs) && i < |rs| && j < |rs|
    requires rs[i].backendName in c.rank && rs[j].backendName in c.rank
    requires c.rank[rs[i].backendName] < c.rank[rs[j].backendName]
    ensures j < i
  {
  }

  /** In every state of every run, each ledger record of a (transitive) dependency's realize
      hook comes before each record of its dependent's. `p` leads from the dependent to the
      dependency. */
  lemma DependencyRecordedFirst(
    c: Config, g: Graph, s: State, events: seq<Event>, p: seq<string>, i: nat, j: nat)
    requires Follows(c, g) && FreshState(s) && After(c, s, events).Some?
    requires Chain(g.deps, p) && |p| >= 2 && p[0] in c.realize && p[|p| - 1] in c.realize
    requires After(c, s, events).value.ledger.Some?
    requires var rs := After(c, s, events).value.ledger.value.resources;
             && i < |rs| && rs[i].backendName in Mentions(c.realize[p[|p| - 1]])
             && j < |rs| && rs[j].backendName in Mentions(c.realize[p[0]])
    ensures i < j
  {
    EveryRunIsOrdered(c, s, events);
    var rs := After(c, s, events).value.ledger.value.resources;
    ChainLowersRank(c, g, p, rs[i].backendName, rs[j].backendName);
    LowerRankFirst(c, rs, i, j);
  }

  /** In every state of every teardown or cleanup, the resources of a dependent that are
      still to be destroyed are ahead of those of its dependencies. */
  lemma DependentDestroyedFirst(
    c: Config, g: Graph, s: State, events: seq<Event>, p: seq<string>, i: nat, j: nat)
    requires Follows(c, g) && FreshState(s) && After(c, s, events).Some?
    requires Chain(g.deps, p) && |p| >= 2 && p[0] in c.realize && p[|p| - 1] in c.realize
    requires After(c, s, events).value.phase.Destroying?
    requires var todo := After(c, s, events).value.phase.todo;
             && i < |todo| && todo[i].backendName in Mentions(c.realize[p[|p| - 1]])
             && j < |todo| && todo[j].backendName in Mentions(c.realize[p[0]])
    ensures j < i
  {
    EveryRunIsOrdered(c, s, events);
    var todo := After(c, s, events).value.phase.todo;
    ChainLowersRank(c, g, p, todo[i].backendName, todo[j].backendName);
    LowerRankLast(c, todo, i, j);
  }

  /** A node's realize hook runs, or waits to run, only when the hooks of everything it
      depends on have completed in this very process. */
  lemma StartsAfterDependencies(c: Config, g: Graph, s: State, events: seq<Event>, p: seq<string>)
    requires Follows(c, g) && FreshState(s) && After(c, s, events).Some?
    requires Chain(g.deps, p) && |p| >= 2
    requires var w := After(c, s, events).value;
             w.phase.Realizing? && (p[0] in w.pending || Worker(p[0]) in w.threads)
    ensures p[|p| - 1] in After(c, s, events).value.up
  {
    EveryRunIsOrdered(c, s, events);
    var i, k := ChainLowersWave(g.deps, g.waves, p);
    WaitingMeansBelowIsUp(c, After(c, s, events).value, p[0], i, p[|p| - 1], k);
  }

  lemma WaitingMeansBelowIsUp(c: Config, w: World, n: string, i: nat, m: string, k: nat)
    requires LevelsFit(c) && Staffed(c, w) && Order(c, w) && w.ledger.Some? && w.phase.Realizing?
    requires n in w.pending || Worker(n) in w.threads
    requires k < i < |c.waves| && n in c.waves[i] && m in c.waves[k]
    ensures m in w.up
  {
    assert Worker(n) in w.threads ==> MayRun(c, w.phase, w.pending, Worker(n));
    assert n in WaveAt(c.waves, w.phase.wave);
  }
}
