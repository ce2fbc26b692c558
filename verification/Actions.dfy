/** Hook programs: the atomic steps node hooks take against the ledger and the backend.

    Every hook of the repository is a straight-line sequence of such steps. A program is
    safe when a resource is recorded before it is created and destroyed before it is
    forgotten, whatever fails in between.
 */
module Actions {
  import opened Wrappers
  import opened Ledger

  /** What a process knows: an entry of one of its in-memory ledger dictionaries, or that a
      switch's sidecar has been seen serving. */
  datatype Key =
    | PoolKey(pool: string)
    | SwitchKey(switch: string)
    | NetworkKey(network: string)
    | SidecarKey(switch: string)
    | ServingKey(switch: string)
    | BuiltKey(vm: string, disk: Option<nat>)   // no number: the OS disk

  datatype Action =
    | Record(r: Resource)                                       // store.record_intent
    | Create(name: string)                                      // a driver create or upload
    | Confirm(name: string, extra: map<string, string>)         // store.confirm
    | Work                                                      // start, wait, poll, capture
    | Destroy(name: string)                                     // a driver destroy that may raise
    | Forget(name: string)                                      // store.forget
    | BestEffortDelete(name: string)                            // destroy, then forget only on success
    | EnsureInfra                                               // the shared build infra
    | Stamp(node: string, realized: bool)                       // completion stamp
    | Put(key: Key)                                             // dictionary write
    | Get(key: Key)                                             // dictionary lookup, raises on a missing key
    | Drop(key: Key)                                            // dictionary pop
    | Abort                                                     // a check of the hook that always raises here

  type Program = seq<Action>

  /** How a step ends. A backend call that raises may or may not have taken effect. */
  datatype Outcome = Succeeds | Raises(applied: bool)

  function NamesIn(a: Action): set<string> {
    match a
    case Record(r) => {r.backendName}
    case Create(x) => {x}
    case Confirm(x, _) => {x}
    case Destroy(x) => {x}
    case Forget(x) => {x}
    case BestEffortDelete(x) => {x}
    case _ => {}
  }

  function Mentions(p: Program): set<string> {
    if p == [] then {} else NamesIn(p[0]) + Mentions(p[1..])
  }

  ghost predicate NoRecords(p: Program) {
    forall a | a in p :: !a.Record?
  }

  /** Touches neither the ledger nor what exists on the backend. */
  ghost predicate Local(p: Program) {
    forall a | a in p :: a.Put? || a.Get? || a.Work? || a.Abort?
  }

  lemma {:induction false} LocalIsHarmless(p: Program, recorded: set<string>, live: set<string>)
    requires Local(p)
    ensures Mentions(p) == {} && Safe(p, recorded, live)
  {
    if p != [] {
      assert p[0] in p;
      LocalIsHarmless(p[1..], recorded, live);
    }
  }

  /** Safe to run when the ledger names `recorded` and the backend holds `live`. */
  ghost predicate Safe(p: Program, recorded: set<string>, live: set<string>) {
    if p == [] then true
    else
      match p[0]
      case Record(r) => Safe(p[1..], recorded + {r.backendName}, live)
      case Create(x) => x in recorded && Safe(p[1..], recorded, live + {x})
      case Confirm(x, _) => x in recorded && Safe(p[1..], recorded, live)
      case Destroy(x) => Safe(p[1..], recorded, live - {x})
      case Forget(x) => x !in live && Safe(p[1..], recorded - {x}, live)
      case BestEffortDelete(x) => Safe(p[1..], recorded - {x}, live)
      case _ => Safe(p[1..], recorded, live)
  }

  /** Safety only looks at the names the program mentions; more records and fewer live
      resources never hurt. */
  lemma {:induction false} SafeFrame(
    p: Program, recorded: set<string>, live: set<string>, recorded': set<string>, live': set<string>)
    requires Safe(p, recorded, live)
    requires recorded * Mentions(p) <= recorded' && live' * Mentions(p) <= live
    ensures Safe(p, recorded', live')
    decreases |p|
  {
    if p != [] {
      var x := NamesIn(p[0]);
      match p[0] {
        case Record(r) => SafeFrame(p[1..], recorded + x, live, recorded' + x, live');
        case Create(_) => SafeFrame(p[1..], recorded, live + x, recorded', live' + x);
        case Confirm(_, _) => SafeFrame(p[1..], recorded, live, recorded', live');
        case Destroy(_) => SafeFrame(p[1..], recorded, live - x, recorded', live' - x);
        case Forget(_) => SafeFrame(p[1..], recorded - x, live, recorded' - x, live');
        case BestEffortDelete(_) => SafeFrame(p[1..], recorded - x, live, recorded' - x, live');
        case _ => SafeFrame(p[1..], recorded, live, recorded', live');
      }
    }
  }

  /** Safe from any starting point: nothing recorded yet, everything possibly left over. */
  ghost predicate Disciplined(p: Program) {
    Safe(p, {}, Mentions(p))
  }

  lemma DisciplinedIsSafe(p: Program, recorded: set<string>, live: set<string>)
    requires Disciplined(p)
    ensures Safe(p, recorded, live)
  {
    SafeFrame(p, {}, Mentions(p), recorded, live);
  }

  // ---- The effect of one step ----------------------------------------------

  /** Does the step end by raising out of the hook? */
  predicate RaisesOut(a: Action, o: Outcome, s: State, keys: set<Key>) {
    && !a.BestEffortDelete?
    && (o.Raises? || a.Abort? || (a.Get? && a.key !in keys) || (a.Confirm? && FirstResource(s.resources, a.name).None?))
  }

  function KeysAfter(a: Action, keys: set<Key>): set<Key> {
    match a
    case Put(k) => keys + {k}
    case Drop(k) => keys - {k}
    case _ => keys
  }

  function LedgerAfter(a: Action, o: Outcome, s: State, now: string): State {
    if o.Raises? then s
    else
      match a
      case Record(r) => s.WithResource(r)
      case Confirm(x, extra) =>
        (match FirstResource(s.resources, x)
         case Some(r) => s.ReplaceResource(x, r.WithOutcome(now, extra))
         case None => s)
      case Forget(x) => s.RemoveResource(x)
      case Stamp(n, realized) => if realized then StampRealized(s, n, now) else StampMaterialized(s, n, now)
      case _ => s
  }

  function LiveAfter(a: Action, o: Outcome, live: set<string>): set<string> {
    if o.Raises? && !o.applied then live
    else
      match a
      case Create(x) => live + {x}
      case Destroy(x) => live - {x}
      case BestEffortDelete(x) => live - {x}
      case _ => live
  }

  /** What is left of the program after a step that did not raise out. */
  function Rest(p: Program, o: Outcome): Program
    requires p != []
  {
    if p[0].BestEffortDelete? && o.Succeeds? then [Forget(p[0].name)] + p[1..] else p[1..]
  }

  lemma LedgerNamesAfter(a: Action, o: Outcome, s: State, now: string)
    ensures var before, after := NamesOf(s.resources), NamesOf(LedgerAfter(a, o, s, now).resources);
            if o.Raises? then after == before
            else if a.Record? then after == before + {a.r.backendName}
            else if a.Forget? then after == before - {a.name}
            else after == before
  {
    if o.Succeeds? {
      match a {
        case Record(r) => AppendNames(s.resources, r);
        case Confirm(x, extra) =>
          var found := FirstResource(s.resources, x);
          if found.Some? {
            ReplacedNames(s.resources, x, found.value.WithOutcome(now, extra));
          }
        case Forget(x) => RemovedNames(s.resources, x);
        case _ =>
      }
    }
  }

  /** One step of a safe program: everything live stays recorded, and what is left of the
      program is still safe. */
  lemma StepSafe(p: Program, o: Outcome, s: State, live: set<string>, now: string, keys: set<Key>)
    requires p != [] && Safe(p, NamesOf(s.resources), live) && live <= NamesOf(s.resources)
    ensures LiveAfter(p[0], o, live) <= NamesOf(LedgerAfter(p[0], o, s, now).resources)
    ensures !RaisesOut(p[0], o, s, keys) ==>
              Safe(Rest(p, o), NamesOf(LedgerAfter(p[0], o, s, now).resources), LiveAfter(p[0], o, live))
  {
    var a := p[0];
    LedgerNamesAfter(a, o, s, now);
    if a.BestEffortDelete? {
      var recorded := NamesOf(s.resources);
      SafeFrame(p[1..], recorded - {a.name}, live, recorded, LiveAfter(a, o, live));
      SafeFrame(p[1..], recorded - {a.name}, live, recorded - {a.name}, LiveAfter(a, o, live));
      if o.Succeeds? {
        assert Rest(p, o)[1..] == p[1..];
      }
    }
  }

  /** A step touches no name outside itself, so it cannot disturb a program that mentions
      none of its names. */
  lemma StepFrames(q: Program, a: Action, o: Outcome, s: State, live: set<string>, now: string)
    requires Safe(q, NamesOf(s.resources), live) && NamesIn(a) !! Mentions(q)
    ensures Safe(q, NamesOf(LedgerAfter(a, o, s, now).resources), LiveAfter(a, o, live))
  {
    LedgerNamesAfter(a, o, s, now);
    SafeFrame(q, NamesOf(s.resources), live,
              NamesOf(LedgerAfter(a, o, s, now).resources), LiveAfter(a, o, live));
  }

  lemma RestMentions(p: Program, o: Outcome)
    requires p != []
    ensures Mentions(Rest(p, o)) <= Mentions(p)
    ensures NoRecords(p) ==> NoRecords(Rest(p, o))
  {
    if p[0].BestEffortDelete? && o.Succeeds? {
      assert Rest(p, o)[1..] == p[1..];
    }
  }

  lemma {:induction false} MentionsConcat(p: Program, q: Program)
    ensures Mentions(p + q) == Mentions(p) + Mentions(q)
  {
    if p == [] {
      assert p + q == q;
    } else {
      MentionsConcat(p[1..], q);
      assert (p + q)[1..] == p[1..] + q;
    }
  }

  /** Two safe programs about different resources are safe one after the other. */
  lemma {:induction false} SafeConcat(p: Program, q: Program, recorded: set<string>, live: set<string>)
    requires Safe(p, recorded, live) && Safe(q, recorded, live) && Mentions(p) !! Mentions(q)
    ensures Safe(p + q, recorded, live)
    decreases |p|, 0
  {
    if p == [] {
      assert p + q == q;
    } else {
      var x := NamesIn(p[0]);
      assert (p + q)[1..] == p[1..] + q;
      match p[0] {
        case Record(_) => ContinueSafe(p[1..], q, recorded, live, recorded + x, live);
        case Create(_) => ContinueSafe(p[1..], q, recorded, live, recorded, live + x);
        case Destroy(_) => ContinueSafe(p[1..], q, recorded, live, recorded, live - x);
        case Forget(_) => ContinueSafe(p[1..], q, recorded, live, recorded - x, live);
        case BestEffortDelete(_) => ContinueSafe(p[1..], q, recorded, live, recorded - x, live);
        case _ => ContinueSafe(p[1..], q, recorded, live, recorded, live);
      }
    }
  }

  lemma {:induction false} ContinueSafe(
    p: Program, q: Program, recorded: set<string>, live: set<string>, recorded': set<string>, live': set<string>)
    requires Safe(p, recorded', live') && Safe(q, recorded, live) && Mentions(p) !! Mentions(q)
    requires recorded * Mentions(q) <= recorded' && live' * Mentions(q) <= live
    ensures Safe(p + q, recorded', live')
    decreases |p|, 1
  {
    SafeFrame(q, recorded, live, recorded', live');
    SafeConcat(p, q, recorded', live');
  }
}
