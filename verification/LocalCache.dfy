/** The local cache tier: `<sha>.bin` and its sidecar `<sha>.json`, written by concurrent
    threads of one process that can die between any two file operations.

    Sidecar read-modify-writes hold the write lock; copying bytes does not.
 */
module LocalCache {
  import opened Wrappers
  import opened Names

  // ---- Alias lists --------------------------------------------------------------------

  datatype Request = Add(name: Option<string>) | Materialize(names: seq<string>)

  function Asked(q: Request): seq<string> {
    match q
    case Add(None) => []
    case Add(Some(n)) => [n]
    case Materialize(ns) => ns
  }

  /** `dict.fromkeys`: first occurrences, in order. */
  function Dedup(s: seq<string>): seq<string> {
    if s == [] then []
    else
      var front, last := Dedup(s[..|s| - 1]), s[|s| - 1];
      if last in front then front else front + [last]
  }

  /** The alias list after a request on an existing sidecar. */
  function Merge(existing: seq<string>, q: Request): seq<string> {
    match q
    case Add(None) => existing
    case Add(Some(n)) => if n in existing then existing else existing + [n]
    case Materialize(ns) => Dedup(existing + ns)
  }

  /** The alias list after a request, whether or not there was a sidecar. */
  function Served(current: Option<seq<string>>, q: Request): seq<string> {
    if current.Some? then Merge(current.value, q) else Asked(q)
  }

  ghost predicate Unique(s: seq<string>) {
    forall i, j | 0 <= i < j < |s| :: s[i] != s[j]
  }

  lemma {:induction false} DedupIs(s: seq<string>)
    ensures Unique(Dedup(s)) && Elems(Dedup(s)) == Elems(s)
  {
    if s != [] {
      var front, last := s[..|s| - 1], s[|s| - 1];
      DedupIs(front);
      assert s == front + [last];
      assert Elems(s) == Elems(front) + {last};
      assert last in Dedup(front) <==> last in Elems(Dedup(front));
      assert Elems(Dedup(front) + [last]) == Elems(Dedup(front)) + {last};
    }
  }

  lemma {:induction false} DedupKeepsPrefix(s: seq<string>, t: seq<string>)
    requires Unique(s)
    ensures s <= Dedup(s + t)
  {
    if t == [] {
      assert s + t == s;
      DedupUnique(s);
    } else {
      DedupKeepsPrefix(s, t[..|t| - 1]);
      assert (s + t)[..|s + t| - 1] == s + t[..|t| - 1];
    }
  }

  lemma {:induction false} DedupUnique(s: seq<string>)
    requires Unique(s)
    ensures Dedup(s) == s
  {
    if s != [] {
      var front := s[..|s| - 1];
      DedupUnique(front);
      assert s == front + [s[|s| - 1]];
    }
  }

  /** One request: everything asked for is added to what was there and nothing else; a
      duplicate-free prior list stays in front; and the result is duplicate-free exactly
      when a list was merged or what was kept or written was. */
  lemma ServedIsUnion(current: Option<seq<string>>, q: Request)
    ensures var before := if current.Some? then current.value else [];
            var after := Served(current, q);
            && Elems(after) == Elems(before) + Elems(Asked(q))
            && (Unique(before) ==> before <= after)
            && (Unique(after) <==>
                  (current.Some? && q.Materialize?) || Unique(if current.Some? then before else Asked(q)))
  {
    if current.Some? {
      var e := current.value;
      match q {
        case Add(None) =>
        case Add(Some(n)) =>
          assert Elems(e + [n]) == Elems(e) + Elems([n]);
          if n !in e {
            UniqueSnoc(e, n);
          }
        case Materialize(ns) =>
          DedupIs(e + ns);
          assert Elems(e + ns) == Elems(e) + Elems(ns);
          if Unique(e) {
            DedupKeepsPrefix(e, ns);
          }
      }
    }
  }

  lemma UniqueSnoc(s: seq<string>, n: string)
    requires n !in s
    ensures Unique(s + [n]) <==> Unique(s)
  {
    assert forall i | 0 <= i < |s| :: (s + [n])[i] == s[i];
  }

  /** Only a first materialize can bring duplicates in: it writes its list as it came. */
  lemma FirstMaterializeKeepsDuplicates(a: string)
    ensures Served(None, Materialize([a, a])) == [a, a] && !Unique([a, a])
    ensures Served(Some([a]), Materialize([a, a])) == [a]
  {
    assert [a, a][0] == [a, a][1];
    assert [a] + [a, a] == [a, a, a] && [a, a, a][..2] == [a, a] && [a, a][..1] == [a] && [a][..0] == [];
    assert Dedup([]) == [] && Dedup([a]) == [a] && Dedup([a, a]) == [a] && Dedup([a, a, a]) == [a];
  }

  function Serve(current: Option<seq<string>>, qs: seq<Request>): Option<seq<string>> {
    if qs == [] then current
    else Some(Served(Serve(current, qs[..|qs| - 1]), qs[|qs| - 1]))
  }

  function AskedIn(qs: seq<Request>): set<string> {
    if qs == [] then {} else AskedIn(qs[..|qs| - 1]) + Elems(Asked(qs[|qs| - 1]))
  }

  /** The first list: the prior one, or the one the first request writes. */
  function FirstList(current: Option<seq<string>>, qs: seq<Request>): seq<string> {
    if current.Some? then current.value else if qs == [] then [] else Asked(qs[0])
  }

  /** Request `i` is a materialize that finds a sidecar to merge with. */
  predicate MergesAt(current: Option<seq<string>>, qs: seq<Request>, i: nat) {
    i < |qs| && qs[i].Materialize? && (current.Some? || i > 0)
  }

  /** Any number of requests, in whatever order the lock admits them: the union of what was
      there and what was asked for, prior order first. */
  lemma {:induction false} AliasesAreUnion(current: Option<seq<string>>, qs: seq<Request>)
    ensures var before := if current.Some? then current.value else [];
            var after := Serve(current, qs);
            && (after.None? <==> current.None? && qs == [])
            && (after.Some? ==> Elems(after.value) == Elems(before) + AskedIn(qs))
            && (after.Some? && Unique(before) ==> before <= after.value)
  {
    if qs != [] {
      var front := qs[..|qs| - 1];
      AliasesAreUnion(current, front);
      ServedIsUnion(Serve(current, front), qs[|qs| - 1]);
      AliasesStayUnique(current, front);
    }
  }

  /** The final list is free of duplicates if and only if the first list was or a later
      materialize merged. */
  lemma {:induction false} AliasesStayUnique(current: Option<seq<string>>, qs: seq<Request>)
    ensures Serve(current, qs).Some? ==>
              (Unique(Serve(current, qs).value) <==>
               Unique(FirstList(current, qs)) || exists i: nat :: MergesAt(current, qs, i))
  {
    if qs != [] {
      var n := |qs| - 1;
      var front := qs[..n];
      AliasesStayUnique(current, front);
      ServedIsUnion(Serve(current, front), qs[n]);
      ServeNone(current, front);
      assert forall i: nat | i < n :: MergesAt(current, front, i) <==> MergesAt(current, qs, i);
      assert MergesAt(current, qs, n) <==> qs[n].Materialize? && Serve(current, front).Some?;
      assert front != [] ==> front[0] == qs[0];
    }
  }

  lemma ServeNone(current: Option<seq<string>>, qs: seq<Request>)
    ensures Serve(current, qs).None? <==> current.None? && qs == []
  {
  }

  // ---- The threads and the disk ------------------------------------------------------------

  /** Where a thread is. `Read`, `Write` and `Unlink` hold the lock. */
  datatype Job =
    | Check(sha: string, name: Option<string>)                // add: is the .bin there?
    | Copy(sha: string, name: Option<string>)                 // add: no, so copy the bytes
    | Fetch(sha: string, names: seq<string>)                  // materialize: install verified bytes
    | Wait(sha: string, request: Request)
    | Read(sha: string, request: Request)
    | Write(sha: string, request: Request, names: seq<string>)
    | WaitUnlink(shas: seq<string>)                           // delete and purge
    | Unlink(shas: seq<string>, sidecarGone: bool)

  predicate Holds(j: Job) {
    j.Read? || j.Write? || j.Unlink?
  }

  predicate Starts(j: Job) {
    j.Check? || j.Fetch? || j.WaitUnlink?
  }

  datatype Disk = Disk(
    bins: set<string>,
    sidecars: map<string, seq<string>>,
    lock: Option<nat>,
    threads: map<nat, Job>,
    served: seq<(string, Request)>)

  datatype Event = Spawn(id: nat, job: Job) | Step(id: nat) | Crash

  function SidecarOf(d: Disk, sha: string): Option<seq<string>> {
    if sha in d.sidecars then Some(d.sidecars[sha]) else None
  }

  function Finish(d: Disk, id: nat): Disk {
    d.(threads := d.threads - {id}, lock := None)
  }

  function Grab(d: Disk, id: nat, j: Job): Option<Disk> {
    if d.lock.Some? then None else Some(d.(lock := Some(id), threads := d.threads[id := j]))
  }

  /** The locked look at the sidecar: nothing to do, a new list to write, or (for an add
      whose bytes were deleted meanwhile) the failing `stat`. */
  function StepRead(d: Disk, id: nat, sha: string, q: Request): Disk {
    if sha in d.sidecars then
      if Merge(d.sidecars[sha], q) == d.sidecars[sha] then Finish(d, id).(served := d.served + [(sha, q)])
      else d.(threads := d.threads[id := Write(sha, q, Merge(d.sidecars[sha], q))])
    else if q.Add? && sha !in d.bins then Finish(d, id)
    else d.(threads := d.threads[id := Write(sha, q, Asked(q))])
  }

  function StepJob(d: Disk, id: nat): Option<Disk>
    requires id in d.threads
  {
    match d.threads[id]
    case Check(sha, name) =>
      Some(d.(threads := d.threads[id := if sha in d.bins then Wait(sha, Add(name)) else Copy(sha, name)]))
    case Copy(sha, name) => Some(d.(bins := d.bins + {sha}, threads := d.threads[id := Wait(sha, Add(name))]))
    case Fetch(sha, names) =>
      Some(d.(bins := d.bins + {sha}, threads := d.threads[id := Wait(sha, Materialize(names))]))
    case Wait(sha, q) => Grab(d, id, Read(sha, q))
    case Read(sha, q) => Some(StepRead(d, id, sha, q))
    case Write(sha, q, names) =>
      Some(Finish(d, id).(sidecars := d.sidecars[sha := names], served := d.served + [(sha, q)]))
    case WaitUnlink(shas) => Grab(d, id, Unlink(shas, false))
    case Unlink(shas, gone) =>
      if shas == [] then Some(Finish(d, id))
      else if !gone then Some(d.(sidecars := d.sidecars - {shas[0]}, threads := d.threads[id := Unlink(shas, true)]))
      else Some(d.(bins := d.bins - {shas[0]}, threads := d.threads[id := Unlink(shas[1..], false)]))
  }

  function Next(d: Disk, e: Event): Option<Disk> {
    match e
    case Spawn(id, j) => if id in d.threads || !Starts(j) then None else Some(d.(threads := d.threads[id := j]))
    case Step(id) => if id in d.threads then StepJob(d, id) else None
    case Crash => Some(d.(threads := map[], lock := None))
  }

  function Run(d: Disk, events: seq<Event>): Option<Disk> {
    if events == [] then Some(d)
    else
      match Run(d, events[..|events| - 1])
      case None => None
      case Some(d') => Next(d', events[|events| - 1])
  }

  // ---- Every visible sidecar has its bytes -----------------------------------------------------

  ghost predicate Visible(d: Disk) {
    forall sha | sha in d.sidecars :: sha in d.bins
  }

  /** Exactly the lock holder is in its critical section. */
  ghost predicate Mutex(d: Disk) {
    && (forall id | id in d.threads :: Holds(d.threads[id]) <==> d.lock == Some(id))
    && (d.lock.Some? ==> d.lock.value in d.threads)
  }

  lemma MutexStep(d: Disk, e: Event)
    requires Mutex(d) && Next(d, e).Some?
    ensures Mutex(Next(d, e).value)
  {
  }

  /** What the lock holder relies on. */
  ghost predicate Locked(d: Disk) {
    && Mutex(d)
    && (forall id | id in d.threads && d.threads[id].Write? && d.threads[id].request.Add? ::
          d.threads[id].sha in d.bins)
    && (forall id | id in d.threads && d.threads[id].Unlink? && d.threads[id].sidecarGone ::
          d.threads[id].shas != [] && d.threads[id].shas[0] !in d.sidecars)
  }

  /** A sidecar about to be written for bytes that are gone. */
  ghost predicate Dangling(d: Disk, e: Event) {
    e.Step? && e.id in d.threads && d.threads[e.id].Write? && d.threads[e.id].sha !in d.bins
  }

  lemma StepKeepsLocked(d: Disk, e: Event)
    requires Visible(d) && Locked(d) && Next(d, e).Some?
    ensures Locked(Next(d, e).value)
  {
    MutexStep(d, e);
    var d' := Next(d, e).value;
    forall id | id in d'.threads && d'.threads[id].Write? && d'.threads[id].request.Add?
      ensures d'.threads[id].sha in d'.bins
    {
    }
  }

  /** A step keeps every sidecar's bytes in place if and only if it does not write a sidecar
      for bytes that a concurrent delete has removed; no other step can break it. */
  lemma StepKeepsVisible(d: Disk, e: Event)
    requires Visible(d) && Locked(d) && Next(d, e).Some?
    ensures Visible(Next(d, e).value) <==> !Dangling(d, e)
  {
    if Dangling(d, e) {
      assert d.threads[e.id].sha in Next(d, e).value.sidecars;
    }
  }

  /** Only a materialize can dangle. */
  lemma OnlyMaterializeDangles(d: Disk, e: Event)
    requires Locked(d) && Dangling(d, e)
    ensures d.threads[e.id].request.Materialize?
  {
  }

  ghost predicate NoMaterialize(d: Disk) {
    forall id | id in d.threads ::
      !d.threads[id].Fetch? && (d.threads[id].Wait? || d.threads[id].Read? || d.threads[id].Write? ==>
          d.threads[id].request.Add?)
  }

  /** Under any interleaving of adds, deletes and purges, and a crash at any step, every
      visible sidecar has its bytes. */
  lemma {:induction false} SidecarsHaveBytes(d: Disk, events: seq<Event>)
    requires Visible(d) && d.threads == map[] && d.lock.None? && Run(d, events).Some?
    requires forall i | 0 <= i < |events| && events[i].Spawn? :: !events[i].job.Fetch?
    ensures var d' := Run(d, events).value;
            Visible(d') && Locked(d') && NoMaterialize(d')
  {
    if events != [] {
      var front, e := events[..|events| - 1], events[|events| - 1];
      SidecarsHaveBytes(d, front);
      var d1 := Run(d, front).value;
      StepKeepsLocked(d1, e);
      StepKeepsVisible(d1, e);
      NoMaterializeStep(d1, e);
    }
  }

  lemma NoMaterializeStep(d: Disk, e: Event)
    requires Locked(d) && NoMaterialize(d) && Next(d, e).Some? && (e.Spawn? ==> !e.job.Fetch?)
    ensures NoMaterialize(Next(d, e).value) && !Dangling(d, e)
  {
  }

  // ---- With materializes: exactly when a delete may overlap ------------------------------------

  /** A materialize that has installed the bytes of `sha` and not yet written its sidecar. */
  ghost predicate Materializing(d: Disk, sha: string) {
    exists id :: id in d.threads && HasFetched(d.threads[id], sha)
  }

  predicate HasFetched(j: Job, sha: string) {
    (j.Wait? || j.Read? || j.Write?) && j.request.Materialize? && j.sha == sha
  }

  /** The event takes away the bytes of `sha`: the second half of a delete or of a purge. */
  predicate RemovesBytes(d: Disk, e: Event, sha: string) {
    && e.Step? && e.id in d.threads && d.threads[e.id].Unlink? && d.threads[e.id].sidecarGone
    && d.threads[e.id].shas != [] && d.threads[e.id].shas[0] == sha
  }

  /** A delete or purge of some content while it is being materialized. */
  ghost predicate Overlaps(d: Disk, e: Event) {
    exists sha :: RemovesBytes(d, e, sha) && Materializing(d, sha)
  }

  ghost predicate NoOverlap(d: Disk, events: seq<Event>) {
    forall i | 0 <= i < |events| && Run(d, events[..i]).Some? :: !Overlaps(Run(d, events[..i]).value, events[i])
  }

  /** Whoever has fetched still has its bytes. */
  ghost predicate FetchedHeld(d: Disk) {
    forall id | id in d.threads && MaterializeWaits(d.threads[id]) :: d.threads[id].sha in d.bins
  }

  predicate MaterializeWaits(j: Job) {
    (j.Wait? || j.Read? || j.Write?) && j.request.Materialize?
  }

  lemma FetchedHeldStep(d: Disk, e: Event)
    requires Locked(d) && FetchedHeld(d) && Next(d, e).Some? && !Overlaps(d, e)
    ensures FetchedHeld(Next(d, e).value) && !Dangling(d, e)
  {
    var d' := Next(d, e).value;
    forall id | id in d'.threads && MaterializeWaits(d'.threads[id]) ensures d'.threads[id].sha in d'.bins {
      if id in d.threads {
        OverlapSeen(d, e, id, d'.threads[id].sha);
      }
    }
  }

  lemma OverlapSeen(d: Disk, e: Event, id: nat, sha: string)
    requires id in d.threads
    ensures HasFetched(d.threads[id], sha) && RemovesBytes(d, e, sha) ==> Overlaps(d, e)
  {
    if HasFetched(d.threads[id], sha) {
      assert Materializing(d, sha);
    }
  }

  /** Under any interleaving of adds, materializes, deletes and purges, and a crash at any
      step: as long as no delete or purge of some content overlaps its materializing, every
      visible sidecar has its bytes. */
  lemma {:induction false} UndisturbedSidecarsHaveBytes(d: Disk, events: seq<Event>)
    requires Visible(d) && d.threads == map[] && d.lock.None? && Run(d, events).Some? && NoOverlap(d, events)
    ensures var d' := Run(d, events).value;
            Visible(d') && Locked(d') && FetchedHeld(d')
  {
    if events != [] {
      var n := |events| - 1;
      var front, e := events[..n], events[n];
      forall i | 0 <= i < n ensures front[..i] == events[..i] {
      }
      UndisturbedSidecarsHaveBytes(d, front);
      var d1 := Run(d, front).value;
      assert !Overlaps(d1, e);
      StepKeepsLocked(d1, e);
      FetchedHeldStep(d1, e);
      StepKeepsVisible(d1, e);
    }
  }

  /** The lock holder works off what it has left to unlink. */
  lemma {:induction false} UnlinkFinishes(d: Disk, id: nat, sha: string, m: nat) returns (events: seq<Event>)
    requires Mutex(d) && id in d.threads && d.threads[id].Unlink? && m != id
    requires m in d.threads && HasFetched(d.threads[m], sha) && sha !in d.bins && sha !in d.sidecars
    ensures Run(d, events).Some?
    ensures var d' := Run(d, events).value;
            && d'.lock.None? && m in d'.threads && d'.threads[m] == d.threads[m]
            && sha !in d'.bins && sha !in d'.sidecars
    decreases |d.threads[id].shas|, !d.threads[id].sidecarGone
  {
    var d1 := Next(d, Step(id)).value;
    RunOne(d, Step(id));
    if d.threads[id].shas == [] {
      return [Step(id)];
    }
    MutexStep(d, Step(id));
    var more := UnlinkFinishes(d1, id, sha, m);
    RunConcat(d, [Step(id)], more);
    return [Step(id)] + more;
  }

  /** The condition is needed: whenever a delete or purge does take the bytes away under a
      materialize, the run can go on to a state with a visible sidecar and no bytes. */
  lemma OverlapCanDangle(d: Disk, e: Event, sha: string) returns (events: seq<Event>)
    requires Visible(d) && Locked(d) && Next(d, e).Some? && RemovesBytes(d, e, sha) && Materializing(d, sha)
    ensures Run(d, events).Some? && !Visible(Run(d, events).value)
  {
    var d1 := Next(d, e).value;
    var m :| m in d.threads && HasFetched(d.threads[m], sha);
    assert !Holds(d.threads[m]);
    MutexStep(d, e);
    RunOne(d, e);
    var drain := UnlinkFinishes(d1, e.id, sha, m);
    RunConcat(d, [e], drain);
    var d2 := Run(d1, drain).value;
    var write := LateSidecar(d2, sha, m);
    RunConcat(d, [e] + drain, write);
    events := [e] + drain + write;
  }

  /** A materialize whose bytes are gone takes the lock, finds no sidecar and writes one. */
  lemma LateSidecar(d: Disk, sha: string, m: nat) returns (events: seq<Event>)
    requires d.lock.None? && m in d.threads && d.threads[m].Wait? && HasFetched(d.threads[m], sha)
    requires sha !in d.bins && sha !in d.sidecars
    ensures Run(d, events).Some? && !Visible(Run(d, events).value)
  {
    var q := d.threads[m].request;
    var d1 := d.(lock := Some(m), threads := d.threads[m := Read(sha, q)]);
    var d2 := d1.(threads := d1.threads[m := Write(sha, q, Asked(q))]);
    var d3 := Finish(d2, m).(sidecars := d2.sidecars[sha := Asked(q)], served := d2.served + [(sha, q)]);
    assert Next(d, Step(m)) == Some(d1) && Next(d1, Step(m)) == Some(d2) && Next(d2, Step(m)) == Some(d3);
    RunTwo(d, Step(m), Step(m));
    RunConcat(d, [Step(m), Step(m)], [Step(m)]);
    RunOne(d2, Step(m));
    assert sha in d3.sidecars && sha !in d3.bins;
    events := [Step(m), Step(m)] + [Step(m)];
  }

  lemma {:induction false} RunConcat(d: Disk, first: seq<Event>, second: seq<Event>)
    requires Run(d, first).Some?
    ensures Run(d, first + second) == Run(Run(d, first).value, second)
  {
    if second == [] {
      assert first + second == first;
    } else {
      RunConcat(d, first, second[..|second| - 1]);
      assert (first + second)[..|first + second| - 1] == first + second[..|second| - 1];
    }
  }

  lemma RunOne(d: Disk, e: Event)
    ensures Run(d, [e]) == Next(d, e)
  {
    assert [e][..0] == [] && Run(d, []) == Some(d);
  }

  lemma RunTwo(d: Disk, e: Event, f: Event)
    requires Next(d, e).Some?
    ensures Run(d, [e, f]) == Next(Next(d, e).value, f)
  {
    RunOne(d, e);
    RunConcat(d, [e], [f]);
    RunOne(Next(d, e).value, f);
    assert [e] + [f] == [e, f];
  }

  function Waiting(sha: string, name: string): map<nat, Job> {
    map[0 := Wait(sha, Materialize([name]))]
  }

  lemma DeleteGrabs(sha: string, name: string)
    ensures Run(Disk({sha}, map[sha := [name]], None, Waiting(sha, name), []),
            [Spawn(1, WaitUnlink([sha])), Step(1)]) ==
            Some(Disk({sha}, map[sha := [name]], Some(1), Waiting(sha, name)[1 := Unlink([sha], false)], []))
  {
    var d := Disk({sha}, map[sha := [name]], None, Waiting(sha, name), []);
    RunTwo(d, Spawn(1, WaitUnlink([sha])), Step(1));
    assert d.threads[1 := WaitUnlink([sha])][1 := Unlink([sha], false)] == d.threads[1 := Unlink([sha], false)];
  }

  lemma DeleteUnlinks(sha: string, name: string)
    ensures Run(Disk({sha}, map[sha := [name]], Some(1), Waiting(sha, name)[1 := Unlink([sha], false)], []),
            [Step(1), Step(1)]) ==
            Some(Disk({}, map[], Some(1), Waiting(sha, name)[1 := Unlink([], false)], []))
  {
    var d := Disk({sha}, map[sha := [name]], Some(1), Waiting(sha, name)[1 := Unlink([sha], false)], []);
    RunTwo(d, Step(1), Step(1));
    assert map[sha := [name]] - {sha} == map[] && {sha} - {sha} == {} && [sha][1..] == [];
    assert d.threads[1 := Unlink([sha], true)][1 := Unlink([], false)] == Waiting(sha, name)[1 := Unlink([], false)];
  }

  lemma MaterializeReads(sha: string, name: string)
    ensures Run(Disk({}, map[], Some(1), Waiting(sha, name)[1 := Unlink([], false)], []), [Step(1), Step(0)]) ==
            Some(Disk({}, map[], Some(0), map[0 := Read(sha, Materialize([name]))], []))
  {
    var d := Disk({}, map[], Some(1), Waiting(sha, name)[1 := Unlink([], false)], []);
    RunTwo(d, Step(1), Step(0));
    assert d.threads - {1} == Waiting(sha, name);
    assert Waiting(sha, name)[0 := Read(sha, Materialize([name]))] == map[0 := Read(sha, Materialize([name]))];
  }

  lemma MaterializeWrites(sha: string, name: string)
    ensures Run(Disk({}, map[], Some(0), map[0 := Read(sha, Materialize([name]))], []), [Step(0), Step(0)]) ==
            Some(Disk({}, map[sha := [name]], None, map[], [(sha, Materialize([name]))]))
  {
    var q := Materialize([name]);
    var d := Disk({}, map[], Some(0), map[0 := Read(sha, q)], []);
    RunTwo(d, Step(0), Step(0));
    assert d.threads[0 := Write(sha, q, [name])] == map[0 := Write(sha, q, [name])];
    assert map[0 := Write(sha, q, [name])] - {0} == map[];
    assert Next(d, Step(0)) == Some(Disk({}, map[], Some(0), map[0 := Write(sha, q, [name])], []));
    assert d.sidecars[sha := [name]] == map[sha := [name]] && d.served + [(sha, q)] == [(sha, q)];
  }

  lemma MaterializeFetches(sha: string, name: string)
    ensures Run(Disk({sha}, map[sha := [name]], None, map[], []), [Spawn(0, Fetch(sha, [name])), Step(0)]) ==
            Some(Disk({sha}, map[sha := [name]], None, Waiting(sha, name), []))
  {
    var d := Disk({sha}, map[sha := [name]], None, map[], []);
    RunTwo(d, Spawn(0, Fetch(sha, [name])), Step(0));
    assert {sha} + {sha} == {sha};
    assert map[0 := Fetch(sha, [name])][0 := Wait(sha, Materialize([name]))] == Waiting(sha, name);
  }

  /** A materialize can lose the race, from an idle cache: it fetches, a delete of the same
      content removes both files, and its sidecar is then written for bytes that are gone. */
  lemma MaterializeRacesDelete(sha: string, name: string)
    ensures var d := Disk({sha}, map[sha := [name]], None, map[], []);
            var events := [Spawn(0, Fetch(sha, [name])), Step(0)]
                          + ([Spawn(1, WaitUnlink([sha])), Step(1)]
                             + ([Step(1), Step(1)] + ([Step(1), Step(0)] + [Step(0), Step(0)])));
            && Visible(d) && Run(d, events).Some?
            && sha in Run(d, events).value.sidecars && sha !in Run(d, events).value.bins
  {
    var idle := Disk({sha}, map[sha := [name]], None, map[], []);
    MaterializeFetches(sha, name);
    RunConcat(idle, [Spawn(0, Fetch(sha, [name])), Step(0)],
              [Spawn(1, WaitUnlink([sha])), Step(1)] + ([Step(1), Step(1)] +
                  ([Step(1), Step(0)] + [Step(0), Step(0)])));
    var d := Disk({sha}, map[sha := [name]], None, Waiting(sha, name), []);
    DeleteGrabs(sha, name);
    DeleteUnlinks(sha, name);
    MaterializeReads(sha, name);
    MaterializeWrites(sha, name);
    RunConcat(d, [Spawn(1, WaitUnlink([sha])), Step(1)], [Step(1), Step(1)] +
        ([Step(1), Step(0)] + [Step(0), Step(0)]));
    var d1 := Disk({sha}, map[sha := [name]], Some(1), Waiting(sha, name)[1 := Unlink([sha], false)], []);
    RunConcat(d1, [Step(1), Step(1)], [Step(1), Step(0)] + [Step(0), Step(0)]);
    var d2 := Disk({}, map[], Some(1), Waiting(sha, name)[1 := Unlink([], false)], []);
    RunConcat(d2, [Step(1), Step(0)], [Step(0), Step(0)]);
  }

  // ---- Aliases are merged, never clobbered ---------------------------------------------------------

  function RequestsFor(served: seq<(string, Request)>, sha: string): seq<Request> {
    if served == [] then []
    else
      var front, last := RequestsFor(served[..|served| - 1], sha), served[|served| - 1];
      if last.0 == sha then front + [last.1] else front
  }

  ghost predicate NoRemovals(d: Disk) {
    forall id | id in d.threads :: !d.threads[id].WaitUnlink? && !d.threads[id].Unlink?
  }

  /** The sidecar is what serving the finished requests one after the other gives; the list
      a lock holder is about to write is what serving its request next gives. */
  ghost predicate Serial(start: Disk, d: Disk) {
    && (forall sha :: SidecarOf(d, sha) == Serve(SidecarOf(start, sha), RequestsFor(d.served, sha)))
    && (forall id | id in d.threads && d.threads[id].Write? ::
          d.threads[id].names == Served(SidecarOf(d, d.threads[id].sha), d.threads[id].request))
  }

  lemma ServedOne(served: seq<(string, Request)>, sha: string, q: Request, other: string)
    ensures RequestsFor(served + [(sha, q)], other) ==
            RequestsFor(served, other) + (if other == sha then [q] else [])
  {
    assert (served + [(sha, q)])[..|served + [(sha, q)]| - 1] == served;
  }

  lemma ServeOne(current: Option<seq<string>>, qs: seq<Request>, q: Request)
    ensures Serve(current, qs + [q]) == Some(Served(Serve(current, qs), q))
  {
    assert (qs + [q])[..|qs + [q]| - 1] == qs;
  }

  /** Serving one more request. */
  lemma SerialServe(start: Disk, d: Disk, sha: string, q: Request, d': Disk)
    requires Serial(start, d) && d'.served == d.served + [(sha, q)]
    requires d'.sidecars == d.sidecars[sha := Served(SidecarOf(d, sha), q)]
    requires forall id | id in d'.threads :: !d'.threads[id].Write?
    ensures Serial(start, d')
  {
    forall other ensures SidecarOf(d', other) == Serve(SidecarOf(start, other), RequestsFor(d'.served, other)) {
      ServedOne(d.served, sha, q, other);
      ServeOne(SidecarOf(start, sha), RequestsFor(d.served, sha), q);
      assert RequestsFor(d.served, other) + [] == RequestsFor(d.served, other);
    }
  }

  lemma OthersDoNotWrite(d: Disk, id: nat)
    requires Mutex(d) && id in d.threads && Holds(d.threads[id])
    ensures forall u | u in d.threads && u != id :: !d.threads[u].Write?
  {
  }

  /** Nothing was served; whoever is about to write has planned the right list. */
  lemma SerialSame(start: Disk, d: Disk, d': Disk)
    requires Serial(start, d) && d'.served == d.served && d'.sidecars == d.sidecars
    requires forall id | id in d'.threads && d'.threads[id].Write? ::
               || (id in d.threads && d'.threads[id] == d.threads[id])
               || d'.threads[id].names == Served(SidecarOf(d, d'.threads[id].sha), d'.threads[id].request)
    ensures Serial(start, d')
  {
    forall sha ensures SidecarOf(d', sha) == Serve(SidecarOf(start, sha), RequestsFor(d'.served, sha)) {
      assert SidecarOf(d, sha) == Serve(SidecarOf(start, sha), RequestsFor(d.served, sha));
    }
  }

  lemma HolderKeepsSerial(start: Disk, d: Disk, id: nat)
    requires Mutex(d) && NoRemovals(d) && Serial(start, d) && id in d.threads && Holds(d.threads[id])
    ensures StepJob(d, id).Some? && NoRemovals(StepJob(d, id).value) && Serial(start, StepJob(d, id).value)
  {
    OthersDoNotWrite(d, id);
    var j, d' := d.threads[id], StepJob(d, id).value;
    if j.Write? || (j.sha in d.sidecars && Merge(d.sidecars[j.sha], j.request) == d.sidecars[j.sha]) {
      SerialServe(start, d, j.sha, j.request, d');
    } else {
      SerialSame(start, d, d');
    }
  }

  lemma StepKeepsSerial(start: Disk, d: Disk, e: Event)
    requires Mutex(d) && NoRemovals(d) && Serial(start, d) && Next(d, e).Some?
    requires e.Spawn? ==> !e.job.WaitUnlink?
    ensures NoRemovals(Next(d, e).value) && Serial(start, Next(d, e).value)
  {
    if e.Step? && Holds(d.threads[e.id]) {
      HolderKeepsSerial(start, d, e.id);
    } else {
      SerialSame(start, d, Next(d, e).value);
    }
  }

  /** Nobody at work, nothing logged. */
  ghost predicate Idle(d: Disk) {
    d.threads == map[] && d.lock.None? && d.served == []
  }

  /** Under any interleaving of adds and materializes, and a crash at any step, the sidecar
      of each content is the result of serving the completed requests one at a time. */
  lemma {:induction false} AliasesAreSerial(start: Disk, events: seq<Event>)
    requires Idle(start) && Run(start, events).Some?
    requires forall i | 0 <= i < |events| && events[i].Spawn? :: !events[i].job.WaitUnlink?
    ensures var d := Run(start, events).value;
            Mutex(d) && NoRemovals(d) && Serial(start, d)
  {
    if events != [] {
      var front, e := events[..|events| - 1], events[|events| - 1];
      AliasesAreSerial(start, front);
      var d := Run(start, front).value;
      MutexStep(d, e);
      StepKeepsSerial(start, d, e);
    }
  }

  // ---- Every request is served exactly once ----------------------------------------------------

  /** The request a thread was started for. */
  function RequestOf(j: Job): Option<(string, Request)> {
    match j
    case Check(sha, name) => Some((sha, Add(name)))
    case Copy(sha, name) => Some((sha, Add(name)))
    case Fetch(sha, names) => Some((sha, Materialize(names)))
    case Wait(sha, q) => Some((sha, q))
    case Read(sha, q) => Some((sha, q))
    case Write(sha, q, _) => Some((sha, q))
    case _ => None
  }

  /** Everything callers asked for, in the order they called. */
  function Requested(events: seq<Event>): seq<(string, Request)> {
    if events == [] then []
    else
      var front, e := Requested(events[..|events| - 1]), events[|events| - 1];
      if e.Spawn? && RequestOf(e.job).Some? then front + [RequestOf(e.job).value] else front
  }

  /** The threads still working on a request. */
  ghost function InFlight(d: Disk, x: (string, Request)): set<nat> {
    set id | id in d.threads && RequestOf(d.threads[id]) == Some(x)
  }

  /** Nothing removed, so whoever has its bytes keeps them. */
  ghost predicate BytesHeld(d: Disk) {
    forall id | id in d.threads && (d.threads[id].Wait? || d.threads[id].Read? || d.threads[id].Write?) ::
      d.threads[id].sha in d.bins
  }

  /** Each request asked for is served or in flight, and counted once. */
  ghost predicate Balanced(asked: seq<(string, Request)>, d: Disk) {
    forall x :: multiset(asked)[x] == multiset(d.served)[x] + |InFlight(d, x)|
  }

  lemma SpawnBalances(asked: seq<(string, Request)>, d: Disk, id: nat, j: Job)
    requires Balanced(asked, d) && id !in d.threads
    ensures var d' := d.(threads := d.threads[id := j]);
            Balanced(if RequestOf(j).Some? then asked + [RequestOf(j).value] else asked, d')
  {
    var d' := d.(threads := d.threads[id := j]);
    forall x ensures InFlight(d', x) == InFlight(d, x) + (if RequestOf(j) == Some(x) then {id} else {}) {
    }
  }

  /** A thread moves on with its request. */
  lemma MoveBalances(asked: seq<(string, Request)>, d: Disk, id: nat, d': Disk)
    requires Balanced(asked, d) && id in d.threads && d'.served == d.served
    requires d'.threads.Keys == d.threads.Keys
    requires forall u | u in d.threads :: RequestOf(d'.threads[u]) == RequestOf(d.threads[u])
    ensures Balanced(asked, d')
  {
    forall x ensures InFlight(d', x) == InFlight(d, x) {
    }
  }

  /** A thread ends, its request served. */
  lemma ServeBalances(asked: seq<(string, Request)>, d: Disk, id: nat, q: (string, Request), d': Disk)
    requires Balanced(asked, d) && id in d.threads && RequestOf(d.threads[id]) == Some(q)
    requires d'.threads == d.threads - {id} && d'.served == d.served + [q]
    ensures Balanced(asked, d')
  {
    forall x ensures InFlight(d', x) == InFlight(d, x) - (if x == q then {id} else {}) {
    }
  }

  lemma StepBalances(asked: seq<(string, Request)>, d: Disk, id: nat)
    requires Balanced(asked, d) && NoRemovals(d) && BytesHeld(d) && id in d.threads && StepJob(d, id).Some?
    ensures Balanced(asked, StepJob(d, id).value) && BytesHeld(StepJob(d, id).value)
  {
    var j, d' := d.threads[id], StepJob(d, id).value;
    if id in d'.threads {
      MoveBalances(asked, d, id, d');
    } else {
      ServeBalances(asked, d, id, (j.sha, j.request), d');
    }
  }

  lemma NextBalances(asked: seq<(string, Request)>, d: Disk, e: Event)
    requires Balanced(asked, d) && NoRemovals(d) && BytesHeld(d) && Next(d, e).Some? && !e.Crash?
    ensures var asked' := if e.Spawn? && RequestOf(e.job).Some? then asked + [RequestOf(e.job).value] else asked;
            Balanced(asked', Next(d, e).value)
    ensures BytesHeld(Next(d, e).value)
  {
    if e.Spawn? {
      SpawnBalances(asked, d, e.id, e.job);
    } else {
      StepBalances(asked, d, e.id);
    }
  }

  /** Callers only add and materialize, and the process lives on. */
  ghost predicate OnlyRequests(events: seq<Event>) {
    forall i | 0 <= i < |events| :: !events[i].Crash? && (events[i].Spawn? ==> !events[i].job.WaitUnlink?)
  }

  lemma IdleBalances(d: Disk)
    requires Idle(d)
    ensures Balanced([], d) && BytesHeld(d)
  {
    forall x ensures InFlight(d, x) == {} {
    }
  }

  lemma {:induction false} RunBalances(start: Disk, events: seq<Event>)
    requires Idle(start) && Run(start, events).Some? && OnlyRequests(events)
    ensures Balanced(Requested(events), Run(start, events).value) && BytesHeld(Run(start, events).value)
  {
    if events == [] {
      IdleBalances(start);
    } else {
      var front, e := events[..|events| - 1], events[|events| - 1];
      assert OnlyRequests(front) && !e.Crash?;
      RunBalances(start, front);
      AliasesAreSerial(start, front);
      NextBalances(Requested(front), Run(start, front).value, e);
    }
  }

  /** Without deletes and crashes: whatever the interleaving, every request made is served
      exactly once or still in flight; when no thread is left, all have been served. */
  lemma EveryRequestIsServed(start: Disk, events: seq<Event>)
    requires Idle(start) && Run(start, events).Some? && OnlyRequests(events)
    ensures Balanced(Requested(events), Run(start, events).value)
    ensures Run(start, events).value.threads == map[] ==>
              multiset(Requested(events)) == multiset(Run(start, events).value.served)
  {
    RunBalances(start, events);
    AllServed(Requested(events), Run(start, events).value);
  }

  lemma AllServed(asked: seq<(string, Request)>, d: Disk)
    requires Balanced(asked, d)
    ensures d.threads == map[] ==> multiset(asked) == multiset(d.served)
  {
    if d.threads == map[] {
      forall x ensures multiset(asked)[x] == multiset(d.served)[x] {
        assert InFlight(d, x) == {};
      }
    }
  }

  // ---- The final alias list ----------------------------------------------------------------------

  /** Every name asked for on `sha`. */
  ghost function NamesAsked(asked: seq<(string, Request)>, sha: string): set<string> {
    set x, n | x in asked && x.0 == sha && n in Asked(x.1) :: n
  }

  lemma {:induction false} AskedInIs(served: seq<(string, Request)>, sha: string)
    ensures AskedIn(RequestsFor(served, sha)) == NamesAsked(served, sha)
    ensures RequestsFor(served, sha) == [] <==> forall x | x in served :: x.0 != sha
  {
    if served != [] {
      var front, last := served[..|served| - 1], served[|served| - 1];
      AskedInIs(front, sha);
      assert served == front + [last];
      var qs := RequestsFor(front, sha);
      assert (qs + [last.1])[..|qs + [last.1]| - 1] == qs;
      assert NamesAsked(served, sha) == NamesAsked(front, sha) + (if last.0 == sha then Elems(Asked(last.1)) else {});
    }
  }

  lemma SameRequests(a: seq<(string, Request)>, b: seq<(string, Request)>, sha: string)
    requires multiset(a) == multiset(b)
    ensures NamesAsked(a, sha) == NamesAsked(b, sha)
    ensures (exists x :: x in a && x.0 == sha) <==> exists x :: x in b && x.0 == sha
  {
    assert forall x :: x in a <==> x in multiset(a);
    assert forall x :: x in b <==> x in multiset(b);
  }

  /** When all threads have finished, whatever their interleaving: the alias list of each
      content is the union of what it had and of every name anyone asked for; the prior
      list, if free of duplicates, comes first. */
  lemma AliasesMerge(start: Disk, events: seq<Event>, sha: string)
    requires Idle(start) && Run(start, events).Some? && OnlyRequests(events)
    requires Run(start, events).value.threads == map[]
    ensures var d := Run(start, events).value;
            var prior := if sha in start.sidecars then start.sidecars[sha] else [];
            && (sha in d.sidecars <==> sha in start.sidecars || exists x :: x in Requested(events) && x.0 == sha)
            && (sha in d.sidecars ==>
                  && Elems(d.sidecars[sha]) == Elems(prior) + NamesAsked(Requested(events), sha)
                  && (Unique(prior) ==> prior <= d.sidecars[sha]))
  {
    AliasesAreSerial(start, events);
    EveryRequestIsServed(start, events);
    var d := Run(start, events).value;
    SameRequests(Requested(events), d.served, sha);
    AskedInIs(d.served, sha);
    AliasesAreUnion(SidecarOf(start, sha), RequestsFor(d.served, sha));
    assert SidecarOf(d, sha) == Serve(SidecarOf(start, sha), RequestsFor(d.served, sha));
  }

  /** And it is free of duplicates if and only if the prior list, or the list the first
      request wrote where there was none, was, or some materialize merged with a sidecar. */
  lemma AliasesUniqueExactly(start: Disk, events: seq<Event>, sha: string)
    requires Idle(start) && Run(start, events).Some?
    requires forall i | 0 <= i < |events| && events[i].Spawn? :: !events[i].job.WaitUnlink?
    ensures var d := Run(start, events).value;
            var qs := RequestsFor(d.served, sha);
            sha in d.sidecars ==>
              (Unique(d.sidecars[sha]) <==>
               Unique(FirstList(SidecarOf(start, sha), qs)) || exists i: nat :: MergesAt(SidecarOf(start, sha), qs, i))
  {
    AliasesAreSerial(start, events);
    var d := Run(start, events).value;
    AliasesStayUnique(SidecarOf(start, sha), RequestsFor(d.served, sha));
    assert SidecarOf(d, sha) == Serve(SidecarOf(start, sha), RequestsFor(d.served, sha));
  }
}
