/** Deletes and purges of the local cache: what they have removed when they end, whatever runs
    beside them.
 */
module LocalRemoval {
  import opened Wrappers
  import opened Names
  import opened LocalCache

  // ---- One removal, from taking the lock to giving it back -------------------------------------

  /** The bytes the event puts in place, if any: an add's copy or a materialize's fetch. */
  function Installs(d: Disk, e: Event): set<string> {
    if e.Step? && e.id in d.threads && (d.threads[e.id].Copy? || d.threads[e.id].Fetch?) then {d.threads[e.id].sha}
    else {}
  }

  /** Everything installed in the course of the events. */
  function Installed(d: Disk, events: seq<Event>): set<string> {
    if events == [] || Run(d, events[..|events| - 1]).None? then {}
    else
      var front, e := events[..|events| - 1], events[|events| - 1];
      Installed(d, front) + Installs(Run(d, front).value, e)
  }

  /** Thread `id` has worked through the first `k` of `shas` since `before`: their sidecars are
      gone, and that of the next one if it has come that far; no other sidecar has changed. Their
      bytes are gone unless installed again; no other bytes are gone. */
  ghost predicate Removed(before: Disk, d: Disk, id: nat, shas: seq<string>, k: nat, installed: set<string>) {
    && k <= |shas| && id in d.threads && d.threads[id].Unlink? && d.threads[id].shas == shas[k..]
    && (d.threads[id].sidecarGone ==> k < |shas|)
    && d.sidecars == before.sidecars - Elems(shas[..if d.threads[id].sidecarGone then k + 1 else k])
    && before.bins - Elems(shas[..k]) <= d.bins <= (before.bins - Elems(shas[..k])) + installed
  }

  /** The lock holder takes one sidecar or one file away. */
  lemma RemoverSteps(before: Disk, d: Disk, id: nat, shas: seq<string>, k: nat, installed: set<string>)
    returns (k': nat)
    requires Removed(before, d, id, shas, k, installed) && StepJob(d, id).Some? && id in StepJob(d, id).value.threads
    ensures Removed(before, StepJob(d, id).value, id, shas, k', installed) && k <= k' <= k + 1
    ensures k < k' ==> shas[k] !in StepJob(d, id).value.bins && shas[k] !in StepJob(d, id).value.sidecars
  {
    var d' := StepJob(d, id).value;
    assert shas[..k + 1] == shas[..k] + [shas[k]];
    assert Elems(shas[..k + 1]) == Elems(shas[..k]) + {shas[k]};
    if d.threads[id].sidecarGone {
      assert shas[k..][1..] == shas[k + 1..];
      k' := k + 1;
    } else {
      assert d'.sidecars == before.sidecars - Elems(shas[..k + 1]);
      k' := k;
    }
  }

  /** Meanwhile the others change no sidecar and take no bytes away. */
  lemma OthersDoNotRemove(d: Disk, e: Event, id: nat)
    requires Mutex(d) && d.lock == Some(id) && Next(d, e).Some? && !e.Crash? && e != Step(id)
    ensures var d' := Next(d, e).value;
            && d'.sidecars == d.sidecars && d'.bins == d.bins + Installs(d, e)
            && id in d'.threads && d'.threads[id] == d.threads[id]
  {
  }

  lemma StepProgresses(before: Disk, d: Disk, e: Event, id: nat, shas: seq<string>, k: nat, installed: set<string>)
    returns (k': nat)
    requires Mutex(d) && d.lock == Some(id) && Removed(before, d, id, shas, k, installed) && Next(d, e).Some?
    requires Next(d, e).value.lock == Some(id)
    ensures Removed(before, Next(d, e).value, id, shas, k', installed + Installs(d, e)) && k <= k' <= k + 1
    ensures k < k' ==> shas[k] !in Next(d, e).value.bins && shas[k] !in Next(d, e).value.sidecars
  {
    if e == Step(id) {
      MutexStep(d, e);
      k' := RemoverSteps(before, d, id, shas, k, installed);
      assert installed + Installs(d, e) == installed;
    } else {
      OthersDoNotRemove(d, e, id);
      k' := k;
    }
  }

  /** The lock has been held by `id` all along. */
  ghost predicate HeldThroughout(d: Disk, events: seq<Event>, id: nat) {
    forall i | 0 <= i <= |events| :: Run(d, events[..i]).Some? && Run(d, events[..i]).value.lock == Some(id)
  }

  lemma {:induction false} MutexRun(d: Disk, events: seq<Event>)
    requires Mutex(d) && Run(d, events).Some?
    ensures Mutex(Run(d, events).value)
  {
    if events != [] {
      MutexRun(d, events[..|events| - 1]);
      MutexStep(Run(d, events[..|events| - 1]).value, events[|events| - 1]);
    }
  }

  /** At some moment of the run neither file of `sha` was there. */
  ghost predicate TakenOut(d: Disk, events: seq<Event>, sha: string) {
    exists j :: 0 <= j <= |events| && GoneAt(d, events[..j], sha)
  }

  ghost predicate GoneAt(d: Disk, events: seq<Event>, sha: string) {
    Run(d, events).Some? && sha !in Run(d, events).value.bins && sha !in Run(d, events).value.sidecars
  }

  lemma TakenOutStays(d: Disk, events: seq<Event>, e: Event, sha: string)
    requires TakenOut(d, events, sha)
    ensures TakenOut(d, events + [e], sha)
  {
    var j :| 0 <= j <= |events| && GoneAt(d, events[..j], sha);
    assert (events + [e])[..j] == events[..j];
  }

  lemma TakenOutNow(d: Disk, events: seq<Event>, sha: string)
    requires GoneAt(d, events, sha)
    ensures TakenOut(d, events, sha)
  {
    assert events[..|events|] == events;
  }

  lemma HeldBefore(d: Disk, events: seq<Event>, e: Event, id: nat)
    requires HeldThroughout(d, events + [e], id)
    ensures HeldThroughout(d, events, id) && Run(d, events).Some? && Run(d, events).value.lock == Some(id)
    ensures Run(d, events + [e]).Some? && Run(d, events + [e]).value.lock == Some(id)
  {
    forall i | 0 <= i <= |events| ensures (events + [e])[..i] == events[..i] {
    }
    assert events[..|events|] == events && (events + [e])[..|events| + 1] == events + [e];
  }

  /** As long as the remover holds the lock, whatever else happens: it works through its list
      in order, and each sha it is done with was, at some moment since, without both files. */
  lemma {:induction false} RemovalProgresses(before: Disk, d: Disk, events: seq<Event>, id: nat, shas: seq<string>)
    returns (k: nat)
    requires Mutex(d) && Removed(before, d, id, shas, 0, {}) && HeldThroughout(d, events, id)
    ensures Run(d, events).Some? && Removed(before, Run(d, events).value, id, shas, k, Installed(d, events))
    ensures forall i | 0 <= i < k :: TakenOut(d, events, shas[i])
  {
    if events == [] {
      k := 0;
    } else {
      var front, e := events[..|events| - 1], events[|events| - 1];
      assert events == front + [e];
      HeldBefore(d, front, e, id);
      var j := RemovalProgresses(before, d, front, id, shas);
      MutexRun(d, front);
      k := StepProgresses(before, Run(d, front).value, e, id, shas, j, Installed(d, front));
      forall i | 0 <= i < j ensures TakenOut(d, events, shas[i]) {
        TakenOutStays(d, front, e, shas[i]);
      }
      if j < k {
        TakenOutNow(d, events, shas[j]);
      }
    }
  }

  // ---- Every removal of every run ------------------------------------------------------------------

  /** At event `m` of the run, thread `id` took the lock to remove `shas`. */
  ghost predicate GrabsAt(start: Disk, events: seq<Event>, m: nat, id: nat, shas: seq<string>) {
    && m < |events| && events[m] == Step(id) && Run(start, events[..m]).Some?
    && (var d := Run(start, events[..m]).value;
        d.lock.None? && id in d.threads && d.threads[id] == WaitUnlink(shas))
  }

  /** Thread `id` has held the lock ever since. */
  ghost predicate HeldSince(start: Disk, events: seq<Event>, m: nat, id: nat) {
    forall i | m < i <= |events| :: Run(start, events[..i]).Some? && Run(start, events[..i]).value.lock == Some(id)
  }

  /** A thread that removes has taken the lock for it and kept it. */
  lemma {:induction false} RemoverGrabbed(start: Disk, events: seq<Event>, id: nat) returns (m: nat, shas: seq<string>)
    requires start.threads == map[] && start.lock.None? && Run(start, events).Some?
    requires id in Run(start, events).value.threads && Run(start, events).value.threads[id].Unlink?
    ensures GrabsAt(start, events, m, id, shas) && HeldSince(start, events, m, id)
  {
    var n := |events| - 1;
    var front, e := events[..n], events[n];
    MutexRun(start, events);
    var d := Run(start, front).value;
    forall i | 0 <= i <= n ensures front[..i] == events[..i] {
    }
    assert events[..|events|] == events && front[..n] == front;
    if id in d.threads && d.threads[id].Unlink? {
      m, shas := RemoverGrabbed(start, front, id);
      assert HeldSince(start, events, m, id) by {
        forall i | m < i <= |events|
          ensures Run(start, events[..i]).Some? && Run(start, events[..i]).value.lock == Some(id)
        {
          if i <= n {
            assert Run(start, front[..i]).value.lock == Some(id);
          }
        }
      }
    } else {
      assert e == Step(id) && d.threads[id].WaitUnlink?;
      m, shas := n, d.threads[id].shas;
    }
  }

  /** In every run, when a delete or purge ends: it was started for some list; since it took
      the lock exactly the sidecars of that list have gone; each listed content was at some
      moment without both its files; no bytes outside the list have gone, and bytes of the list
      are there again only if someone installed them in between. */
  lemma RemovalCompletes(start: Disk, events: seq<Event>, id: nat) returns (m: nat, shas: seq<string>)
    requires start.threads == map[] && start.lock.None? && Run(start, events).Some?
    requires id in Run(start, events).value.threads && Run(start, events).value.threads[id].Unlink?
    requires Next(Run(start, events).value, Step(id)).Some?
    requires id !in Next(Run(start, events).value, Step(id)).value.threads
    ensures GrabsAt(start, events, m, id, shas) && HeldSince(start, events, m, id)
    ensures Run(start, events[..m + 1]).Some?
    ensures var before, d := Run(start, events[..m]).value, Next(Run(start, events).value, Step(id)).value;
            var grabbed := Run(start, events[..m + 1]).value;
            && d.sidecars == before.sidecars - Elems(shas)
            && before.bins - Elems(shas) <= d.bins
            && d.bins <= (before.bins - Elems(shas)) + Installed(grabbed, events[m + 1..])
            && (forall sha | sha in shas :: TakenOut(grabbed, events[m + 1..], sha))
  {
    m, shas := RemoverGrabbed(start, events, id);
    var before, since := Run(start, events[..m]).value, events[m + 1..];
    assert events[..m + 1] == events[..m] + [Step(id)];
    RunConcat(start, events[..m], [Step(id)]);
    RunOne(before, Step(id));
    var grabbed := Run(start, events[..m + 1]).value;
    MutexRun(start, events[..m + 1]);
    assert Removed(before, grabbed, id, shas, 0, {});
    SinceGrabbed(start, events, m, id);
    var k := RemovalProgresses(before, grabbed, since, id, shas);
    assert events == events[..m + 1] + since;
    RunConcat(start, events[..m + 1], since);
    assert k == |shas| && shas[..k] == shas;
  }

  lemma SinceGrabbed(start: Disk, events: seq<Event>, m: nat, id: nat)
    requires m < |events| && Run(start, events[..m + 1]).Some? && HeldSince(start, events, m, id)
    ensures HeldThroughout(Run(start, events[..m + 1]).value, events[m + 1..], id)
  {
    var since := events[m + 1..];
    forall i | 0 <= i <= |since|
      ensures Run(Run(start, events[..m + 1]).value, since[..i]) == Run(start, events[..m + 1 + i])
    {
      assert events[..m + 1 + i] == events[..m + 1] + since[..i];
      RunConcat(start, events[..m + 1], since[..i]);
    }
  }

  // ---- A removal on its own ---------------------------------------------------------------------------

  /** The remover alone, to its end. */
  lemma {:induction false} RemoverAlone(d: Disk, id: nat) returns (events: seq<Event>)
    requires id in d.threads && d.threads[id].Unlink? && (d.threads[id].sidecarGone ==> d.threads[id].shas != [])
    ensures var shas := Elems(d.threads[id].shas);
            Run(d, events) == Some(d.(bins := d.bins - shas,
                                      sidecars := d.sidecars - (if d.threads[id].sidecarGone then
                                                                  Elems(d.threads[id].shas[1..]) else shas),
                                      threads := d.threads - {id}, lock := None))
    decreases |d.threads[id].shas|, !d.threads[id].sidecarGone
  {
    var shas, gone := d.threads[id].shas, d.threads[id].sidecarGone;
    var d1 := Next(d, Step(id)).value;
    RunOne(d, Step(id));
    if shas == [] {
      assert Elems(shas) == {} && d.sidecars - Elems(shas) == d.sidecars && d.bins - Elems(shas) == d.bins;
      return [Step(id)];
    }
    var more := RemoverAlone(d1, id);
    RunConcat(d, [Step(id)], more);
    events := [Step(id)] + more;
    assert Elems(shas) == {shas[0]} + Elems(shas[1..]);
    assert d1.threads - {id} == d.threads - {id};
    if gone {
      assert d.bins - {shas[0]} - Elems(shas[1..]) == d.bins - Elems(shas);
    } else {
      assert d.sidecars - {shas[0]} - Elems(shas[1..]) == d.sidecars - Elems(shas);
    }
  }

  /** From an idle cache, a purge that runs alone to its end removes exactly the entries it was
      given, both files of each; given every entry there is, it leaves none. */
  lemma PurgeAlone(d: Disk, id: nat, shas: seq<string>) returns (events: seq<Event>)
    requires Idle(d)
    ensures Run(d, [Spawn(id, WaitUnlink(shas)), Step(id)] + events) ==
            Some(d.(bins := d.bins - Elems(shas), sidecars := d.sidecars - Elems(shas)))
    ensures d.sidecars.Keys <= Elems(shas) && d.bins <= Elems(shas) ==>
              Run(d, [Spawn(id, WaitUnlink(shas)), Step(id)] + events) == Some(d.(bins := {}, sidecars := map[]))
  {
    var first := [Spawn(id, WaitUnlink(shas)), Step(id)];
    RunTwo(d, first[0], first[1]);
    var d1 := d.(threads := map[id := Unlink(shas, false)], lock := Some(id));
    assert d.threads[id := WaitUnlink(shas)][id := Unlink(shas, false)] == d1.threads;
    events := RemoverAlone(d1, id);
    RunConcat(d, first, events);
    assert d1.threads - {id} == map[];
    if d.sidecars.Keys <= Elems(shas) && d.bins <= Elems(shas) {
      assert d.bins - Elems(shas) == {} && d.sidecars - Elems(shas) == map[];
    }
  }
}
