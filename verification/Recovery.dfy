/** What a destroy pass leaves behind, and that cleanup recovers every crashed run.

    The pass of `Cleanup` is tied to the whole-run machine: it is one of its runs, so
    whatever holds of every run holds across any number of cleanups.
 */
module Recovery {
  import opened Wrappers
  import opened Ledger
  import opened Actions
  import opened RunSystem
  import opened RunSafety
  import opened Cleanup

  // ---- What is left in the ledger ------------------------------------------------

  /** The records whose name is not in `gone`, in their order. */
  function Without(rs: seq<Resource>, gone: set<string>): seq<Resource> {
    if rs == [] then []
    else (if rs[0].backendName in gone then [] else [rs[0]]) + Without(rs[1..], gone)
  }

  /** Names among the first `k` of the pass whose destroy and forget both worked. */
  function GoneAfter(todo: seq<Resource>, attempts: seq<Attempt>, k: nat): set<string>
    requires k <= |todo| == |attempts|
  {
    if k == 0 then {}
    else GoneAfter(todo, attempts, k - 1) + (if attempts[k - 1].Succeeds() then {todo[k - 1].backendName} else {})
  }

  lemma {:induction false} WithoutNothing(rs: seq<Resource>)
    ensures Without(rs, {}) == rs
  {
    if rs != [] {
      WithoutNothing(rs[1..]);
    }
  }

  lemma {:induction false} RemovedWithout(rs: seq<Resource>, gone: set<string>, name: string)
    ensures Removed(Without(rs, gone), name) == Without(rs, gone + {name})
  {
    if rs != [] {
      RemovedWithout(rs[1..], gone, name);
      var rest := Without(rs[1..], gone);
      if rs[0].backendName in gone {
        assert Without(rs, gone) == rest;
      } else {
        assert ([rs[0]] + rest)[1..] == rest;
      }
    }
  }

  lemma {:induction false} WithoutMembers(rs: seq<Resource>, gone: set<string>)
    ensures forall r :: r in Without(rs, gone) <==> r in rs && r.backendName !in gone
  {
    if rs != [] {
      WithoutMembers(rs[1..], gone);
      assert forall r :: r in rs <==> r == rs[0] || r in rs[1..];
    }
  }

  lemma {:induction false} GoneIsDestroyed(todo: seq<Resource>, attempts: seq<Attempt>, k: nat)
    requires k <= |todo| == |attempts|
    ensures forall x :: x in GoneAfter(todo, attempts, k) <==>
              exists i :: 0 <= i < k && attempts[i].Succeeds() && todo[i].backendName == x
  {
    if k > 0 {
      GoneIsDestroyed(todo, attempts, k - 1);
    }
  }

  /** Whatever the pattern of failures and repeated names: the ledger keeps exactly the
      records of the names never successfully destroyed, in order, and its node stamps. */
  lemma {:induction false} PassLeaves(s: State, live: set<string>, todo: seq<Resource>, attempts: seq<Attempt>, k: nat)
    requires k <= |todo| == |attempts|
    ensures var p := AttemptFirst(Pass(s, live, [], []), todo, attempts, k);
            p.state == s.(resources := Without(s.resources, GoneAfter(todo, attempts, k)))
  {
    if k == 0 {
      WithoutNothing(s.resources);
    } else {
      PassLeaves(s, live, todo, attempts, k - 1);
      var gone := GoneAfter(todo, attempts, k - 1);
      RemovedWithout(s.resources, gone, todo[k - 1].backendName);
      assert gone + {} == gone;
    }
  }

  /** The backend only shrinks, and every successfully destroyed name is off it. */
  lemma {:induction false} PassShrinksBackend(s: State, live: set<string>, todo: seq<Resource>,
      attempts: seq<Attempt>, k: nat)
    requires k <= |todo| == |attempts|
    ensures var p := AttemptFirst(Pass(s, live, [], []), todo, attempts, k);
            p.live <= live - GoneAfter(todo, attempts, k)
    ensures var p := AttemptFirst(Pass(s, live, [], []), todo, attempts, k);
            live - NamesOf(todo) <= p.live
    ensures var p := AttemptFirst(Pass(s, live, [], []), todo, attempts, k);
            p.errors == [] <==> forall i | 0 <= i < k :: attempts[i].Succeeds()
  {
    if k > 0 {
      PassShrinksBackend(s, live, todo, attempts, k - 1);
    }
  }

  /** The destroy call of that attempt took effect, whether or not it raised. */
  predicate TookEffect(a: Attempt) {
    a.destroy.Succeeds? || a.destroy.applied
  }

  /** Exactly the names for which some destroy call took effect have left the backend. */
  lemma {:induction false} PassBackendExactly(s: State, live: set<string>, todo: seq<Resource>,
      attempts: seq<Attempt>, k: nat, x: string)
    requires k <= |todo| == |attempts|
    ensures var p := AttemptFirst(Pass(s, live, [], []), todo, attempts, k);
            x in p.live <==>
              x in live && !exists i :: 0 <= i < k && todo[i].backendName == x && TookEffect(attempts[i])
  {
    if k > 0 {
      PassBackendExactly(s, live, todo, attempts, k - 1, x);
    }
  }

  /** `names` are those of the first `k` resources of the pass that fared that way, in the
      order of the pass; `at` says where each was. */
  ghost predicate Lists(names: seq<string>, todo: seq<Resource>, attempts: seq<Attempt>, k: nat, succeeded: bool,
                        at: seq<nat>)
    requires k <= |todo| == |attempts|
  {
    && |at| == |names| && (forall i, j | 0 <= i < j < |at| :: at[i] < at[j])
    && (forall i | 0 <= i < |at| :: at[i] < k && names[i] == todo[at[i]].backendName)
    && (forall j: nat | j < k :: j in at <==> attempts[j].Succeeds() == succeeded)
  }

  lemma ListsMore(names: seq<string>, todo: seq<Resource>, attempts: seq<Attempt>, k: nat, succeeded: bool,
                  at: seq<nat>, names': seq<string>)
    returns (at': seq<nat>)
    requires k < |todo| == |attempts| && Lists(names, todo, attempts, k, succeeded, at)
    requires names' == names + (if attempts[k].Succeeds() == succeeded then [todo[k].backendName] else [])
    ensures Lists(names', todo, attempts, k + 1, succeeded, at')
  {
    at' := if attempts[k].Succeeds() == succeeded then at + [k] else at;
    assert forall j: nat :: j in at + [k] <==> j in at || j == k;
    assert forall j: nat | j in at :: j < k;
  }

  /** The names a pass reports as destroyed, or as errors. */
  function Report(p: Pass, succeeded: bool): seq<string> {
    if succeeded then p.destroyed else p.errors
  }

  lemma ReportGrows(start: Pass, todo: seq<Resource>, attempts: seq<Attempt>, k: nat, succeeded: bool)
    requires k < |todo| == |attempts|
    ensures Report(AttemptFirst(start, todo, attempts, k + 1), succeeded) ==
            Report(AttemptFirst(start, todo, attempts, k), succeeded) +
            (if attempts[k].Succeeds() == succeeded then [todo[k].backendName] else [])
  {
  }

  /** The report of a pass: `destroyed` lists, in pass order, each resource whose destroy and
      forget both worked, and `errors` each of the others. */
  lemma {:induction false} PassReports(s: State, live: set<string>, todo: seq<Resource>, attempts: seq<Attempt>, k: nat,
                                       succeeded: bool)
    returns (at: seq<nat>)
    requires k <= |todo| == |attempts|
    ensures Lists(Report(AttemptFirst(Pass(s, live, [], []), todo, attempts, k), succeeded),
                  todo, attempts, k, succeeded, at)
  {
    if k == 0 {
      at := [];
    } else {
      var start := Pass(s, live, [], []);
      ReportGrows(start, todo, attempts, k - 1, succeeded);
      at := PassReports(s, live, todo, attempts, k - 1, succeeded);
      at := ListsMore(Report(AttemptFirst(start, todo, attempts, k - 1), succeeded), todo, attempts, k - 1, succeeded,
                      at, Report(AttemptFirst(start, todo, attempts, k), succeeded));
    }
  }

  // ---- A partly failing pass -------------------------------------------------------

  ghost predicate UniqueNames(rs: seq<Resource>) {
    forall i, j | 0 <= i < j < |rs| :: rs[i].backendName != rs[j].backendName
  }

  /** The resources whose attempt failed, in ledger order; the pass runs back to front. */
  function Failed(rs: seq<Resource>, attempts: seq<Attempt>): seq<Resource>
    requires |attempts| == |rs|
  {
    if rs == [] then []
    else
      (if attempts[|rs| - 1].Succeeds() then [] else [rs[0]]) + Failed(rs[1..], attempts[..|rs| - 1])
  }

  lemma {:induction false} WithoutIsFailed(rs: seq<Resource>, attempts: seq<Attempt>, gone: set<string>)
    requires |attempts| == |rs|
    requires forall i | 0 <= i < |rs| :: rs[i].backendName in gone <==> attempts[|rs| - 1 - i].Succeeds()
    ensures Without(rs, gone) == Failed(rs, attempts)
  {
    if rs != [] {
      assert rs[0].backendName in gone <==> attempts[|rs| - 1 - 0].Succeeds();
      forall i | 0 <= i < |rs[1..]|
        ensures rs[1..][i].backendName in gone <==> attempts[..|rs| - 1][|rs[1..]| - 1 - i].Succeeds()
      {
        assert rs[1..][i] == rs[i + 1];
      }
      WithoutIsFailed(rs[1..], attempts[..|rs| - 1], gone);
    }
  }

  /** Records of one name fare alike: all are destroyed and forgotten, or none is. */
  ghost predicate NamesFareAlike(rs: seq<Resource>, attempts: seq<Attempt>)
    requires |attempts| == |rs|
  {
    forall i, j | 0 <= i < |rs| && 0 <= j < |rs| && rs[i].backendName == rs[j].backendName ::
      attempts[|rs| - 1 - i].Succeeds() <==> attempts[|rs| - 1 - j].Succeeds()
  }

  /** What succeeded is gone, so at most the failed records are left; all of them only if
      none of their names is gone. */
  lemma {:induction false} WithoutWithinFailed(rs: seq<Resource>, attempts: seq<Attempt>, gone: set<string>)
    requires |attempts| == |rs|
    requires forall i | 0 <= i < |rs| :: attempts[|rs| - 1 - i].Succeeds() ==> rs[i].backendName in gone
    ensures |Without(rs, gone)| <= |Failed(rs, attempts)|
    ensures |Without(rs, gone)| == |Failed(rs, attempts)| ==>
              forall i | 0 <= i < |rs| :: rs[i].backendName in gone ==> attempts[|rs| - 1 - i].Succeeds()
  {
    if rs != [] {
      var front := attempts[..|rs| - 1];
      assert attempts[|rs| - 1 - 0].Succeeds() ==> rs[0].backendName in gone;
      forall i | 0 <= i < |rs[1..]|
        ensures rs[1..][i] == rs[i + 1] && front[|rs[1..]| - 1 - i] == attempts[|rs| - 1 - (i + 1)]
      {
      }
      WithoutWithinFailed(rs[1..], front, gone);
      if |Without(rs, gone)| == |Failed(rs, attempts)| {
        forall i | 0 <= i < |rs| && rs[i].backendName in gone ensures attempts[|rs| - 1 - i].Succeeds() {
          if i > 0 {
            assert rs[1..][i - 1] == rs[i];
          }
        }
      }
    }
  }

  lemma GoneIfSucceeds(rs: seq<Resource>, attempts: seq<Attempt>, i: nat)
    requires |attempts| == |rs| && i < |rs| && attempts[|rs| - 1 - i].Succeeds()
    ensures rs[i].backendName in GoneAfter(Reversed(rs), attempts, |rs|)
  {
    GoneMember(Reversed(rs), attempts, |rs|, |rs| - 1 - i);
  }

  lemma GoneMeansSucceeded(rs: seq<Resource>, attempts: seq<Attempt>, x: string) returns (j: nat)
    requires |attempts| == |rs| && x in GoneAfter(Reversed(rs), attempts, |rs|)
    ensures j < |rs| && rs[j].backendName == x && attempts[|rs| - 1 - j].Succeeds()
  {
    GoneIsDestroyed(Reversed(rs), attempts, |rs|);
    var k :| 0 <= k < |rs| && attempts[k].Succeeds() && Reversed(rs)[k].backendName == x;
    j := |rs| - 1 - k;
  }

  /** A partly failing pass leaves exactly the failed resources, in their original order, if
      and only if records of one name fare alike. */
  lemma PassLeavesFailedExactly(s: State, live: set<string>, attempts: seq<Attempt>)
    requires |attempts| == |s.resources|
    ensures DestroyPass(s, live, attempts).state.resources == Failed(s.resources, attempts) <==>
            NamesFareAlike(s.resources, attempts)
  {
    var rs := s.resources;
    PassLeaves(s, live, Reversed(rs), attempts, |rs|);
    if NamesFareAlike(rs, attempts) {
      AlikeLeavesFailed(rs, attempts);
    }
    if Without(rs, GoneAfter(Reversed(rs), attempts, |rs|)) == Failed(rs, attempts) {
      LeftFailedIsAlike(rs, attempts);
    }
  }

  lemma AlikeLeavesFailed(rs: seq<Resource>, attempts: seq<Attempt>)
    requires |attempts| == |rs| && NamesFareAlike(rs, attempts)
    ensures Without(rs, GoneAfter(Reversed(rs), attempts, |rs|)) == Failed(rs, attempts)
  {
    var gone := GoneAfter(Reversed(rs), attempts, |rs|);
    forall i | 0 <= i < |rs| ensures rs[i].backendName in gone <==> attempts[|rs| - 1 - i].Succeeds() {
      if attempts[|rs| - 1 - i].Succeeds() {
        GoneIfSucceeds(rs, attempts, i);
      } else if rs[i].backendName in gone {
        var j := GoneMeansSucceeded(rs, attempts, rs[i].backendName);
      }
    }
    WithoutIsFailed(rs, attempts, gone);
  }

  lemma LeftFailedIsAlike(rs: seq<Resource>, attempts: seq<Attempt>)
    requires |attempts| == |rs| && Without(rs, GoneAfter(Reversed(rs), attempts, |rs|)) == Failed(rs, attempts)
    ensures NamesFareAlike(rs, attempts)
  {
    var gone := GoneAfter(Reversed(rs), attempts, |rs|);
    forall i | 0 <= i < |rs| ensures attempts[|rs| - 1 - i].Succeeds() ==> rs[i].backendName in gone {
      if attempts[|rs| - 1 - i].Succeeds() {
        GoneIfSucceeds(rs, attempts, i);
      }
    }
    WithoutWithinFailed(rs, attempts, gone);
  }

  /** In particular with unique names. */
  lemma PartialPassLeavesFailed(s: State, live: set<string>, attempts: seq<Attempt>)
    requires |attempts| == |s.resources| && UniqueNames(s.resources)
    ensures DestroyPass(s, live, attempts).state.resources == Failed(s.resources, attempts)
  {
    PassLeavesFailedExactly(s, live, attempts);
  }

  /** Without uniqueness it can leave less: a resource recorded again by a resumed run whose
      newer record fails and whose older one succeeds is gone from the ledger altogether. */
  lemma RepeatedNameLeavesLess(s: State, r: Resource, live: set<string>)
    requires s.resources == [r, r]
    ensures var attempts := [Attempt(Raises(false), true), Attempt(Succeeds, true)];
            && DestroyPass(s, live, attempts).state.resources == []
            && Failed(s.resources, attempts) == [r]
            && r.backendName !in DestroyPass(s, live, attempts).live
  {
    var attempts := [Attempt(Raises(false), true), Attempt(Succeeds, true)];
    var todo, start := Reversed(s.resources), Pass(s, live, [], []);
    assert AttemptFirst(start, todo, attempts, 1) == AttemptOne(AttemptFirst(start, todo, attempts, 0), r, attempts[0]);
    assert AttemptFirst(start, todo, attempts, 2) == AttemptOne(AttemptFirst(start, todo, attempts, 1), r, attempts[1]);
    assert [r, r][1..] == [r];
    assert Removed([r], r.backendName) == [];
    assert Failed([r], attempts[..1]) == [] + [r] by {
      assert Failed([], attempts[..1][..0]) == [];
      assert attempts[..1] == [Attempt(Raises(false), true)];
    }
  }

  /** A pass that starts with everything live recorded ends so, whatever fails; so a teardown
      whose second read works removes the ledger only from an empty backend. */
  lemma {:induction false} PassStaysRecorded(
    s: State, live: set<string>, todo: seq<Resource>, attempts: seq<Attempt>, k: nat)
    requires k <= |todo| == |attempts| && live <= NamesOf(s.resources)
    ensures var p := AttemptFirst(Pass(s, live, [], []), todo, attempts, k);
            p.live <= NamesOf(p.state.resources) && (p.state.resources == [] ==> p.live == {})
  {
    if k > 0 {
      PassStaysRecorded(s, live, todo, attempts, k - 1);
      AttemptKeepsRecorded(AttemptFirst(Pass(s, live, [], []), todo, attempts, k - 1), todo[k - 1], attempts[k - 1]);
    }
  }

  lemma AttemptKeepsRecorded(p: Pass, r: Resource, a: Attempt)
    requires p.live <= NamesOf(p.state.resources)
    ensures AttemptOne(p, r, a).live <= NamesOf(AttemptOne(p, r, a).state.resources)
  {
    RemovedNames(p.state.resources, r.backendName);
  }

  /** One whose second read fails may not: a failed destroy leaves the resource live while
      the ledger that names it is removed. */
  lemma BlindRemovalLeaks(s: State, r: Resource)
    requires s.resources == [r]
    ensures var p := DestroyPass(s, {r.backendName}, [Attempt(Raises(false), true)]);
            p.state.resources == [r] && p.live == {r.backendName}
  {
    var todo, attempts := Reversed(s.resources), [Attempt(Raises(false), true)];
    var start := Pass(s, {r.backendName}, [], []);
    assert AttemptFirst(start, todo, attempts, 1) == AttemptOne(AttemptFirst(start, todo, attempts, 0), r, attempts[0]);
  }

  // ---- A flawless pass ---------------------------------------------------------------

  ghost predicate AllSucceed(attempts: seq<Attempt>) {
    forall i | 0 <= i < |attempts| :: attempts[i].Succeeds()
  }

  lemma {:induction false} GoneMember(todo: seq<Resource>, attempts: seq<Attempt>, k: nat, i: nat)
    requires i < k <= |todo| == |attempts| && attempts[i].Succeeds()
    ensures todo[i].backendName in GoneAfter(todo, attempts, k)
  {
    if i < k - 1 {
      GoneMember(todo, attempts, k - 1, i);
    }
  }

  lemma GoneWhenAllSucceed(rs: seq<Resource>, attempts: seq<Attempt>)
    requires |attempts| == |rs| && AllSucceed(attempts)
    ensures NamesOf(rs) <= GoneAfter(Reversed(rs), attempts, |rs|)
  {
    var gone := GoneAfter(Reversed(rs), attempts, |rs|);
    forall i | 0 <= i < |rs| ensures rs[i].backendName in gone {
      GoneMember(Reversed(rs), attempts, |rs|, |rs| - 1 - i);
    }
  }

  lemma {:induction false} WithoutAll(rs: seq<Resource>, gone: set<string>)
    requires NamesOf(rs) <= gone
    ensures Without(rs, gone) == []
  {
    if rs != [] {
      WithoutAll(rs[1..], gone);
    }
  }

  lemma ReversedNames(rs: seq<Resource>)
    ensures NamesOf(Reversed(rs)) <= NamesOf(rs)
  {
    var todo := Reversed(rs);
    forall r | r in todo ensures r in rs {
      var i :| 0 <= i < |todo| && todo[i] == r;
      assert r == rs[|rs| - 1 - i];
    }
  }

  /** A flawless pass empties the ledger and takes every recorded name off the backend,
      and nothing else. */
  lemma FlawlessPass(s: State, live: set<string>, attempts: seq<Attempt>)
    requires |attempts| == |s.resources| && AllSucceed(attempts)
    ensures var p := DestroyPass(s, live, attempts);
            p.state.resources == [] && p.errors == [] && p.live == live - NamesOf(s.resources)
  {
    var rs, todo, n := s.resources, Reversed(s.resources), |s.resources|;
    PassLeaves(s, live, todo, attempts, n);
    PassShrinksBackend(s, live, todo, attempts, n);
    GoneWhenAllSucceed(rs, attempts);
    WithoutAll(rs, GoneAfter(todo, attempts, n));
    ReversedNames(rs);
  }

  // ---- The pass as a run of the machine ------------------------------------------------

  lemma StepsSnoc(c: Config, w: World, events: seq<Event>, e: Event)
    requires Steps(c, w, events).Some?
    ensures Steps(c, w, events + [e]) == Next(c, Steps(c, w, events).value, e)
  {
    assert (events + [e])[..|events + [e]| - 1] == events;
  }

  /** The machine's events for the first `k` resources of a pass. */
  function PassEvents(attempts: seq<Attempt>, k: nat): seq<Event>
    requires k <= |attempts|
  {
    if k == 0 then [Cleanup]
    else
      PassEvents(attempts, k - 1) + AttemptEvents(attempts[k - 1])
  }

  /** The machine in the middle of a pass. */
  ghost function MidPass(w: World, todo: seq<Resource>, p: Pass): World {
    w.(ledger := Some(p.state), live := p.live, phase := Destroying(todo, false), failed := false)
  }

  /** The events of one resource take the machine past it. */
  function AttemptEvents(a: Attempt): seq<Event> {
    [DestroyHead(a.destroy)] + (if a.destroy.Succeeds? then [ForgetHead(a.forgets)] else [])
  }

  lemma AttemptIsARun(c: Config, w: World, todo: seq<Resource>, p: Pass, a: Attempt)
    requires todo != []
    ensures Steps(c, MidPass(w, todo, p), AttemptEvents(a)) == Some(MidPass(w, todo[1..], AttemptOne(p, todo[0], a)))
  {
    var mid := MidPass(w, todo, p);
    assert Steps(c, mid, []) == Some(mid);
    assert [] + [DestroyHead(a.destroy)] == [DestroyHead(a.destroy)];
    StepsSnoc(c, mid, [], DestroyHead(a.destroy));
    if a.destroy.Succeeds? {
      StepsSnoc(c, mid, [DestroyHead(a.destroy)], ForgetHead(a.forgets));
    } else {
      assert AttemptEvents(a) == [DestroyHead(a.destroy)];
    }
  }

  lemma {:induction false} StepsConcat(c: Config, w: World, first: seq<Event>, second: seq<Event>)
    requires Steps(c, w, first).Some?
    ensures Steps(c, w, first + second) == Steps(c, Steps(c, w, first).value, second)
  {
    if second == [] {
      assert first + second == first;
    } else {
      var n := |second| - 1;
      StepsConcat(c, w, first, second[..n]);
      assert (first + second)[..|first + second| - 1] == first + second[..n];
    }
  }

  lemma CleanupBegins(c: Config, w: World)
    requires w.phase.Dead? && w.ledger.Some?
    ensures var s := w.ledger.value;
            Steps(c, w, [Cleanup]) == Some(MidPass(w, Reversed(s.resources)[0..], Pass(s, w.live, [], [])))
  {
    assert Steps(c, w, []) == Some(w);
    StepsSnoc(c, w, [], Cleanup);
    assert [] + [Cleanup] == [Cleanup];
  }

  lemma {:induction false} PassIsARun(c: Config, w: World, attempts: seq<Attempt>, k: nat)
    requires w.phase.Dead? && w.ledger.Some? && |attempts| == |w.ledger.value.resources| && k <= |attempts|
    ensures var s := w.ledger.value;
            var todo := Reversed(s.resources);
            Steps(c, w, PassEvents(attempts, k)) ==
              Some(MidPass(w, todo[k..], AttemptFirst(Pass(s, w.live, [], []), todo, attempts, k)))
  {
    var s := w.ledger.value;
    var todo, start := Reversed(s.resources), Pass(s, w.live, [], []);
    if k == 0 {
      CleanupBegins(c, w);
    } else {
      PassIsARun(c, w, attempts, k - 1);
      var a, p := attempts[k - 1], AttemptFirst(start, todo, attempts, k - 1);
      var rest := todo[k - 1..];
      assert rest[0] == todo[k - 1] && rest[1..] == todo[k..];
      StepsConcat(c, w, PassEvents(attempts, k - 1), AttemptEvents(a));
      AttemptIsARun(c, w, rest, p, a);
    }
  }

  /** The phase label does not influence a pass. */
  lemma {:induction false} PhaseIsOnlyALabel(
    s: State, live: set<string>, todo: seq<Resource>, attempts: seq<Attempt>, k: nat, to: string)
    requires k <= |todo| == |attempts|
    ensures var p := AttemptFirst(Pass(s, live, [], []), todo, attempts, k);
            AttemptFirst(Pass(s.(phase := to), live, [], []), todo, attempts, k) == p.(state := p.state.(phase := to))
  {
    if k > 0 {
      PhaseIsOnlyALabel(s, live, todo, attempts, k - 1, to);
    }
  }

  /** What a cleanup leaves of a dead run's world. */
  ghost function CleanupEvents(s: State, live: set<string>, attempts: seq<Attempt>): seq<Event>
    requires |attempts| == |s.resources|
  {
    PassEvents(attempts, |attempts|) + [FinishDestroy(DestroyPass(s, live, attempts).errors == [])]
  }

  /** Every cleanup, failing in whatever way, is a run of the machine: its world afterwards
      has the ledger records and the backend that `CleanupRun` promises. */
  lemma CleanupIsARun(c: Config, w: World, attempts: seq<Attempt>)
    requires w.phase.Dead? && w.ledger.Some? && |attempts| == |w.ledger.value.resources|
    ensures var s := w.ledger.value;
            var p := DestroyPass(s.(phase := PHASE_CLEANUP), w.live, attempts);
            var after := Steps(c, w, CleanupEvents(s, w.live, attempts));
            && after.Some? && after.value.live == p.live
            && (after.value.ledger.None? <==> p.state.resources == [] && p.errors == [])
            && (after.value.ledger.Some? ==>
                  && after.value.phase.Dead?
                  && after.value.ledger.value.resources == p.state.resources
                  && after.value.ledger.value.nodes == p.state.nodes)
  {
    var s, n := w.ledger.value, |attempts|;
    var todo := Reversed(s.resources);
    PhaseIsOnlyALabel(s, w.live, todo, attempts, n, PHASE_CLEANUP);
    PassIsARun(c, w, attempts, n);
    assert todo[n..] == [];
    StepsSnoc(c, w, PassEvents(attempts, n), FinishDestroy(DestroyPass(s, w.live, attempts).errors == []));
  }

  /** Crash anywhere, resume or clean up as often as you like with cleanups that crash or
      partly fail: from every dead run one cleanup whose destroys all succeed leaves an
      empty backend and no ledger. */
  lemma CleanupRecovers(c: Config, s: State, events: seq<Event>, attempts: seq<Attempt>)
    requires WellFormed(c) && FreshState(s) && After(c, s, events).Some?
    requires After(c, s, events).value.phase.Dead?
    requires After(c, s, events).value.ledger.Some? ==>
               |attempts| == |After(c, s, events).value.ledger.value.resources| && AllSucceed(attempts)
    ensures var w := After(c, s, events).value;
            && w.ledger.Some?
            && var p := DestroyPass(w.ledger.value.(phase := PHASE_CLEANUP), w.live, attempts);
               p.live == {} && p.state.resources == [] && p.errors == []
    ensures var w := After(c, s, events).value;
            w.ledger.Some? &&
            var after := After(c, s, events + CleanupEvents(w.ledger.value, w.live, attempts));
            after.Some? && after.value.phase.Ended? && after.value.ledger.None? && after.value.live == {}
  {
    EveryRunIsSafe(c, s, events);
    var w := After(c, s, events).value;
    FlawlessPass(w.ledger.value.(phase := PHASE_CLEANUP), w.live, attempts);
    CleanupIsARun(c, w, attempts);
    var more := CleanupEvents(w.ledger.value, w.live, attempts);
    StepsConcat(c, Initial(c, s), events, more);
    EveryRunIsSafe(c, s, events + more);
  }
}
