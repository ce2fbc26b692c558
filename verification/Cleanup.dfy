/** Teardown and crash recovery: destroying a run from its ledger, newest resource first.

    The loops of `teardown` and `cleanup_run` are proved against one specification of what
    a destroy pass leaves behind, for any pattern of failing destroys and failing ledger
    writes.
 */
module Cleanup {
  import opened Wrappers
  import opened Ledger
  import opened Actions
  import opened RunSystem

  const PHASE_CLEANUP := "cleanup"
  const PHASE_DONE := "done"

  /** Every record of the name now carries the outcome time, and the first one's other fields
      with the new metadata merged over its own; everything else is in place, unchanged. */
  ghost predicate ConfirmedIn(
    before: seq<Resource>, after: seq<Resource>, name: string, now: string, extra: map<string, string>)
  {
    && |after| == |before|
    && (forall i | 0 <= i < |after| :: before[i].backendName != name ==> after[i] == before[i])
    && (forall i | 0 <= i < |after| && before[i].backendName == name ::
          && after[i].backendName == name && after[i].outcomeAt == Some(now)
          && (forall k | k in extra :: k in after[i].metadata && after[i].metadata[k] == extra[k]))
    && (forall i | 0 <= i < |after| && before[i].backendName == name && FirstOf(before, i) ::
          forall j | 0 <= j < |after| && before[j].backendName == name ::
            && after[j].kind == before[i].kind && after[j].planName == before[i].planName
            && after[j].intentAt == before[i].intentAt && after[j].metadata == before[i].metadata + extra)
  }

  /** Record `i` is the first of its name. */
  predicate FirstOf(rs: seq<Resource>, i: nat)
    requires i < |rs|
  {
    forall j | 0 <= j < i :: rs[j].backendName != rs[i].backendName
  }

  lemma {:induction false} FirstResourceIs(rs: seq<Resource>, i: nat)
    requires i < |rs| && FirstOf(rs, i)
    ensures FirstResource(rs, rs[i].backendName) == Some(rs[i])
  {
    if i > 0 {
      assert rs[0].backendName != rs[i].backendName;
      assert forall j | 0 <= j < i - 1 :: rs[1..][j] == rs[j + 1];
      FirstResourceIs(rs[1..], i - 1);
    }
  }

  lemma ConfirmedReplaces(rs: seq<Resource>, name: string, r: Resource, now: string, extra: map<string, string>)
    requires FirstResource(rs, name) == Some(r) && r.backendName == name
    ensures ConfirmedIn(rs, Replaced(rs, name, r.WithOutcome(now, extra)), name, now, extra)
  {
    forall i | 0 <= i < |rs| && rs[i].backendName == name && FirstOf(rs, i) ensures rs[i] == r {
      FirstResourceIs(rs, i);
    }
  }

  // ---- The store and the backend ----------------------------------------------

  /** One run directory: `state.json`, and whether a live process holds its lock. */
  class StateStore {
    var state: Option<State>
    var ownedElsewhere: bool

    constructor (state: Option<State>, ownedElsewhere: bool)
      ensures this.state == state && this.ownedElsewhere == ownedElsewhere
    {
      this.state, this.ownedElsewhere := state, ownedElsewhere;
    }

    /** Appends the record, before the backend is asked to create anything. */
    method RecordIntent(r: Resource) returns (ok: bool)
      modifies this`state
      ensures ok <==> old(state).Some?
      ensures state == if ok then Some(old(state).value.WithResource(r)) else None
      ensures ok ==> NamesOf(state.value.resources) == NamesOf(old(state).value.resources) + {r.backendName}
    {
      ok := state.Some?;
      if ok {
        AppendNames(state.value.resources, r);
        state := Some(state.value.WithResource(r));
      }
    }

    /** Marks the first record of that name as confirmed, in place; the set of recorded
        names and their order do not change. Fails if there is none. */
    method Confirm(name: string, now: string, extra: map<string, string>) returns (ok: bool)
      modifies this`state
      ensures ok <==> old(state).Some? && name in NamesOf(old(state).value.resources)
      ensures !ok ==> state == old(state)
      ensures ok ==>
                && state.Some?
                && state.value.phase == old(state).value.phase && state.value.nodes == old(state).value.nodes
                && ConfirmedIn(old(state).value.resources, state.value.resources, name, now, extra)
    {
      ok := false;
      if state.Some? {
        var s := state.value;
        var found := FirstResource(s.resources, name);
        if found.Some? {
          ConfirmedReplaces(s.resources, name, found.value, now, extra);
          state := Some(s.ReplaceResource(name, found.value.WithOutcome(now, extra)));
          ok := true;
        }
      }
    }

    /** Drops every record of that name and keeps the others in order. */
    method Forget(name: string) returns (ok: bool)
      modifies this`state
      ensures ok <==> old(state).Some?
      ensures state == if ok then Some(old(state).value.RemoveResource(name)) else None
      ensures ok ==> NamesOf(state.value.resources) == NamesOf(old(state).value.resources) - {name}
    {
      ok := state.Some?;
      if ok {
        RemovedNames(state.value.resources, name);
        state := Some(state.value.RemoveResource(name));
      }
    }

    method SetPhase(phase: string)
      modifies this`state
      ensures state == if old(state).Some? then Some(old(state).value.(phase := phase)) else None
    {
      if state.Some? {
        state := Some(state.value.(phase := phase));
      }
    }

    method Remove()
      modifies this`state
      ensures state.None?
    {
      state := None;
    }
  }

  /** The backend: the set of names that exist on it. */
  class Driver {
    var live: set<string>

    constructor (live: set<string>)
      ensures this.live == live
    {
      this.live := live;
    }

    /** Destroying an absent resource succeeds; a destroy that raises may have worked. */
    method Destroy(name: string, o: Outcome) returns (raised: bool)
      modifies this
      ensures raised == o.Raises?
      ensures live == LiveAfter(Actions.Destroy(name), o, old(live))
    {
      raised := o.Raises?;
      if !raised || o.applied {
        live := live - {name};
      }
    }
  }

  // ---- What a destroy pass does --------------------------------------------------

  /** How one resource fares: the destroy call, then the ledger write after it. */
  datatype Attempt = Attempt(destroy: Outcome, forgets: bool) {
    predicate Succeeds() {
      destroy.Succeeds? && forgets
    }
  }

  datatype Pass = Pass(state: State, live: set<string>, destroyed: seq<string>, errors: seq<string>)

  /** One resource of the pass. */
  function AttemptOne(p: Pass, r: Resource, a: Attempt): Pass {
    var x := r.backendName;
    var live := LiveAfter(Actions.Destroy(x), a.destroy, p.live);
    if a.Succeeds() then Pass(p.state.RemoveResource(x), live, p.destroyed + [x], p.errors)
    else Pass(p.state, live, p.destroyed, p.errors + [x])
  }

  /** The first `k` resources of the pass. */
  function AttemptFirst(start: Pass, todo: seq<Resource>, attempts: seq<Attempt>, k: nat): Pass
    requires k <= |todo| == |attempts|
  {
    if k == 0 then start
    else AttemptOne(AttemptFirst(start, todo, attempts, k - 1), todo[k - 1], attempts[k - 1])
  }

  function DestroyPass(s: State, live: set<string>, attempts: seq<Attempt>): Pass
    requires |attempts| == |s.resources|
  {
    AttemptFirst(Pass(s, live, [], []), Reversed(s.resources), attempts, |attempts|)
  }

  /** The loop shared by teardown and cleanup: destroy, forget on success, never stop early. */
  method DestroyAll(store: StateStore, driver: Driver, attempts: seq<Attempt>)
    returns (destroyed: seq<string>, errors: seq<string>)
    requires store.state.Some? && |attempts| == |store.state.value.resources|
    modifies store, driver
    ensures store.ownedElsewhere == old(store.ownedElsewhere)
    ensures var p := DestroyPass(old(store.state).value, old(driver.live), attempts);
            store.state == Some(p.state) && driver.live == p.live && destroyed == p.destroyed && errors == p.errors
  {
    var s := store.state.value;
    ghost var start := Pass(s, driver.live, [], []);
    var todo := Reversed(s.resources);
    destroyed, errors := [], [];
    for k := 0 to |todo|
      invariant AttemptFirst(start, todo, attempts, k) == Pass(
                  if store.state.Some? then store.state.value else s, driver.live, destroyed, errors)
      invariant store.state.Some? && store.ownedElsewhere == old(store.ownedElsewhere)
    {
      var x, a := todo[k].backendName, attempts[k];
      var raised := driver.Destroy(x, a.destroy);
      if !raised && a.forgets {
        var forgotten := store.Forget(x);
        destroyed := destroyed + [x];
      } else {
        errors := errors + [x];
      }
    }
  }

  // ---- teardown ---------------------------------------------------------------------

  /** Which of the ledger accesses around the pass work: marking the phase, the read before,
      the read after, and the final bookkeeping. */
  datatype Access = Access(marks: bool, readable: bool, rereadable: bool, removes: bool)

  /** LIFO teardown. Without a readable ledger it does nothing. After the pass the ledger is
      removed, if that works, when nothing is left recorded or the second read fails; the
      code takes a failing second read for an empty ledger. */
  method Teardown(store: StateStore, driver: Driver, access: Access, attempts: seq<Attempt>)
    requires store.state.Some? ==> |attempts| == |store.state.value.resources|
    modifies store, driver
    ensures old(store.state).None? || !access.readable ==>
              && driver.live == old(driver.live) && (store.state.None? <==> old(store.state).None?)
              && (store.state.Some? ==>
                    && store.state.value.resources == old(store.state).value.resources
                    && store.state.value.nodes == old(store.state).value.nodes)
    ensures old(store.state).Some? && access.readable ==>
              var before := old(store.state).value;
              var start := if access.marks then before.(phase := PHASE_CLEANUP) else before;
              var p := DestroyPass(start, old(driver.live), attempts);
              && driver.live == p.live
              && (store.state.None? <==> access.removes && (p.state.resources == [] || !access.rereadable))
              && (store.state.Some? ==>
                    store.state.value.resources == p.state.resources && store.state.value.nodes == p.state.nodes)
  {
    if access.marks {
      store.SetPhase(PHASE_CLEANUP);
    }
    if store.state.None? || !access.readable {
      return;
    }
    var destroyed, errors := DestroyAll(store, driver, attempts);
    var remaining := if access.rereadable then store.state.value.resources else [];
    if remaining == [] && access.removes {
      store.SetPhase(PHASE_DONE);
      store.Remove();
    }
  }

  // ---- cleanup_run --------------------------------------------------------------------

  datatype CleanupError = NoState | Locked | DriverUnreachable | LedgerUnwritable | DisconnectFailed

  datatype CleanupResult = CleanupResult(destroyed: seq<string>, skipped: seq<string>, errors: seq<string>)

  function NamesInOrder(rs: seq<Resource>): (names: seq<string>)
    ensures |names| == |rs| && forall i | 0 <= i < |rs| :: names[i] == rs[i].backendName
  {
    seq(|rs|, i requires 0 <= i < |rs| => rs[i].backendName)
  }

  /** Recover one run. Refuses a missing ledger and a live owner; a dry run only lists; a
      drained ledger is finalised without the backend; otherwise one destroy pass, and the
      run directory goes only if that pass was flawless. A phase mark that cannot be written
      stops it before anything is destroyed, a failing disconnect right after the pass. */
  method CleanupRun(
    store: StateStore, driver: Driver, dryRun: bool, connects: bool, writes: bool, disconnects: bool,
    attempts: seq<Attempt>)
    returns (r: Result<CleanupResult, CleanupError>)
    requires store.state.Some? ==> |attempts| == |store.state.value.resources|
    modifies store, driver
    ensures r == Err(NoState) <==> old(store.state).None?
    ensures r == Err(Locked) <==> old(store.state).Some? && old(store.ownedElsewhere)
    ensures (r.Err? && r.error != DisconnectFailed) || dryRun ==>
              store.state == old(store.state) && driver.live == old(driver.live)
    ensures r.Ok? && dryRun ==>
              r.value == CleanupResult([], NamesInOrder(Reversed(old(store.state).value.resources)), [])
    ensures r.Ok? && !dryRun ==>
              var p := DestroyPass(old(store.state).value.(phase := PHASE_CLEANUP), old(driver.live), attempts);
              && r.value == CleanupResult(p.destroyed, [], p.errors)
              && driver.live == p.live
              && (store.state.None? <==> p.state.resources == [] && p.errors == [])
              && (store.state.Some? ==>
                    store.state.value.resources == p.state.resources && store.state.value.nodes == p.state.nodes)
    ensures r == Err(DisconnectFailed) ==>
              var p := DestroyPass(old(store.state).value.(phase := PHASE_CLEANUP), old(driver.live), attempts);
              store.state == Some(p.state) && driver.live == p.live
    ensures var acts := old(store.state).Some? && !old(store.ownedElsewhere) && !dryRun;
            var drained := acts && old(store.state).value.resources == [];
            && (r == Err(DriverUnreachable) <==> acts && !drained && !connects)
            && (r == Err(LedgerUnwritable) <==> acts && (drained || connects) && !writes)
            && (r == Err(DisconnectFailed) <==> acts && !drained && connects && writes && !disconnects)
  {
    if store.state.None? {
      return Err(NoState);
    }
    if store.ownedElsewhere {
      return Err(Locked);
    }
    var s := store.state.value;
    if dryRun {
      return Ok(CleanupResult([], NamesInOrder(Reversed(s.resources)), []));
    }
    if s.resources == [] {
      if !writes {
        return Err(LedgerUnwritable);
      }
      store.SetPhase(PHASE_DONE);
      store.Remove();
      return Ok(CleanupResult([], [], []));
    }
    if !connects {
      return Err(DriverUnreachable);
    }
    if !writes {
      return Err(LedgerUnwritable);
    }
    store.SetPhase(PHASE_CLEANUP);
    var destroyed, errors := DestroyAll(store, driver, attempts);
    if !disconnects {
      return Err(DisconnectFailed);
    }
    if store.state.value.resources == [] && errors == [] {
      store.SetPhase(PHASE_DONE);
      store.Remove();
    } else if store.state.value.resources == [] {
      store.SetPhase(PHASE_DONE);
    }
    return Ok(CleanupResult(destroyed, [], errors));
  }
}
