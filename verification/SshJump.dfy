/** The SSH jump gateway: a lazily dialled bastion client and local forwards, shared by
    deliberate callers, forward threads and closers. Each locked section is one step;
    any interleaving of threads is a sequence of steps.
 */
module SshJump {
  import opened Wrappers
  import opened Names

  datatype GatewayError = Closed | DialFailed | BindFailed

  /** Clients and listeners are numbered as they are made. */
  datatype Gate = Gate(
    client: Option<nat>,          // the tracked bastion client
    listeners: seq<nat>,          // the registered listeners
    generation: nat,
    dialled: nat,                 // clients ever dialled
    taken: set<nat>,              // taken out by a close that has yet to close them
    closed: set<nat>,
    bound: nat,                   // listeners ever bound
    open: set<nat>,               // listeners still accepting
    spawned: map<nat, nat>)       // the generation each listener's thread carries

  // ---- The locked sections, on values ------------------------------------------------------

  function EnsuredJump(g: Gate, connects: bool): Result<Gate, GatewayError> {
    if g.client.Some? then Ok(g)
    else if !connects then Err(DialFailed)
    else Ok(g.(client := Some(g.dialled), dialled := g.dialled + 1))
  }

  /** A dial on behalf of a forward thread carries its generation; a deliberate one does not. */
  function Channelled(g: Gate, generation: Option<nat>, connects: bool): Result<Gate, GatewayError> {
    if generation.Some? && generation.value != g.generation then Err(Closed) else EnsuredJump(g, connects)
  }

  function Forwarded(g: Gate, connects: bool, binds: bool): (Gate, Result<nat, GatewayError>) {
    match EnsuredJump(g, connects)
    case Err(e) => (g, Err(e))
    case Ok(g1) =>
      if !binds then (g1, Err(BindFailed))
      else
        var l := g1.bound;
        (g1.(bound := l + 1, open := g1.open + {l}, listeners := g1.listeners + [l],
             spawned := g1.spawned[l := g1.generation]),
         Ok(l))
  }

  function CloseBegun(g: Gate): Gate {
    g.(generation := g.generation + 1, open := g.open - Elems(g.listeners), listeners := [], client := None,
       taken := g.taken + (if g.client.Some? then {g.client.value} else {}))
  }

  function CloseEnded(g: Gate, c: nat): Gate {
    g.(taken := g.taken - {c}, closed := g.closed + {c})
  }

  // ---- The gateway object -----------------------------------------------------------------------

  class SshJumpGateway {
    var client: Option<nat>
    var listeners: seq<nat>
    var generation: nat
    var dialled: nat
    var bound: nat
    var open: set<nat>
    ghost var taken: set<nat>
    ghost var closed: set<nat>
    ghost var spawned: map<nat, nat>

    ghost function Value(): Gate
      reads this
    {
      Gate(client, listeners, generation, dialled, taken, closed, bound, open, spawned)
    }

    constructor ()
      ensures Value() == Gate(None, [], 0, 0, {}, {}, 0, {}, map[])
    {
      client, listeners, generation, dialled, bound, open := None, [], 0, 0, 0, {};
      taken, closed, spawned := {}, {}, map[];
    }

    method EnsureJump(connects: bool) returns (r: Result<nat, GatewayError>)
      modifies this
      ensures r.Ok? <==> EnsuredJump(old(Value()), connects).Ok?
      ensures r.Ok? ==> Value() == EnsuredJump(old(Value()), connects).value && client == Some(r.value)
      ensures r.Err? ==> Value() == old(Value()) && r == Err(DialFailed)
      ensures Accounted(old(Value())) && Current(old(Value())) ==> Accounted(Value()) && Current(Value())
    {
      if client.Some? {
        return Ok(client.value);
      }
      if !connects {
        return Err(DialFailed);
      }
      client := Some(dialled);
      dialled := dialled + 1;
      return Ok(client.value);
    }

    method ChannelTo(from: Option<nat>, connects: bool) returns (r: Result<nat, GatewayError>)
      modifies this
      ensures r.Ok? <==> Channelled(old(Value()), from, connects).Ok?
      ensures r.Ok? ==> Value() == Channelled(old(Value()), from, connects).value && client == Some(r.value)
      ensures r.Err? ==> Value() == old(Value())
      ensures Accounted(old(Value())) && Current(old(Value())) ==> Accounted(Value()) && Current(Value())
    {
      if from.Some? && from.value != generation {
        return Err(Closed);
      }
      r := EnsureJump(connects);
    }

    method OpenLocalForward(connects: bool, binds: bool) returns (r: Result<nat, GatewayError>)
      modifies this
      ensures (Value(), r) == Forwarded(old(Value()), connects, binds)
      ensures Accounted(old(Value())) && Current(old(Value())) ==> Accounted(Value()) && Current(Value())
    {
      if Accounted(Value()) && Current(Value()) {
        NextKeeps(Value(), Forward(connects, binds));
      }
      var jump := EnsureJump(connects);
      if jump.Err? {
        return Err(jump.error);
      }
      if !binds {
        return Err(BindFailed);
      }
      var l := bound;
      bound := bound + 1;
      open := open + {l};
      listeners := listeners + [l];
      spawned := spawned[l := generation];
      return Ok(l);
    }

    /** The locked half of `close`: bump the generation, close every listener, take the
        client out. Returns the client this caller now has to close. */
    method BeginClose() returns (mine: Option<nat>)
      modifies this
      ensures Value() == CloseBegun(old(Value())) && mine == old(client)
      ensures Accounted(old(Value())) && Current(old(Value())) ==> Accounted(Value()) && Current(Value())
    {
      if Accounted(Value()) && Current(Value()) {
        NextKeeps(Value(), Event.BeginClose);
      }
      generation := generation + 1;
      var registered := listeners;
      for i := 0 to |registered|
        invariant open == old(open) - Elems(registered[..i])
        invariant listeners == old(listeners) && client == old(client) && generation == old(generation) + 1
        invariant dialled == old(dialled) && bound == old(bound)
        invariant taken == old(taken) && closed == old(closed) && spawned == old(spawned)
      {
        assert registered[..i + 1] == registered[..i] + [registered[i]];
        assert Elems(registered[..i] + [registered[i]]) == Elems(registered[..i]) + {registered[i]};
        open := open - {registered[i]};
      }
      assert registered[..|registered|] == registered;
      listeners := [];
      mine, client := client, None;
      taken := taken + (if mine.Some? then {mine.value} else {});
    }

    method EndClose(mine: nat)
      modifies this
      ensures Value() == CloseEnded(old(Value()), mine)
      ensures Accounted(old(Value())) && Current(old(Value())) && mine in old(taken) ==>
                Accounted(Value()) && Current(Value())
    {
      taken, closed := taken - {mine}, closed + {mine};
    }
  }

  // ---- Every interleaving --------------------------------------------------------------------------

  datatype Event =
    | Open(connects: bool)                                // open_socket
    | Forward(connects: bool, binds: bool)
    | Dial(listener: nat, connects: bool)                 // a forward thread that accepted a connection
    | BeginClose
    | EndClose(client: nat)

  function Next(g: Gate, e: Event): Option<Gate> {
    match e
    case Open(connects) =>
      (match Channelled(g, None, connects) case Ok(g') => Some(g') case Err(_) => Some(g))
    case Forward(connects, binds) => Some(Forwarded(g, connects, binds).0)
    case Dial(l, connects) =>
      if l !in g.spawned then None
      else (match Channelled(g, Some(g.spawned[l]), connects) case Ok(g') => Some(g') case Err(_) => Some(g))
    case BeginClose => Some(CloseBegun(g))
    case EndClose(c) => if c in g.taken then Some(CloseEnded(g, c)) else None
  }

  function Run(g: Gate, events: seq<Event>): Option<Gate> {
    if events == [] then Some(g)
    else
      match Run(g, events[..|events| - 1])
      case None => None
      case Some(g') => Next(g', events[|events| - 1])
  }

  /** Every client ever dialled is the tracked one, or was taken out by a close that closes
      it; never two of these. */
  ghost predicate Accounted(g: Gate) {
    && (g.client.Some? ==> g.client.value < g.dialled && g.client.value !in g.taken && g.client.value !in g.closed)
    && (forall c | c in g.taken :: c < g.dialled && c !in g.closed)
    && (forall c | c in g.closed :: c < g.dialled)
    && (forall c: nat | c < g.dialled :: g.client == Some(c) || c in g.taken || c in g.closed)
  }

  /** Exactly the registered listeners accept, and their threads carry the current generation. */
  ghost predicate Current(g: Gate) {
    && g.open == Elems(g.listeners)
    && (forall l | l in g.spawned :: l < g.bound && g.spawned[l] <= g.generation)
    && (forall l | l in g.open :: l in g.spawned && g.spawned[l] == g.generation)
  }

  lemma NextKeeps(g: Gate, e: Event)
    requires Accounted(g) && Current(g) && Next(g, e).Some?
    ensures Accounted(Next(g, e).value) && Current(Next(g, e).value)
  {
    if e.Forward? {
      var listeners := g.listeners;
      assert Elems(listeners + [g.bound]) == Elems(listeners) + {g.bound};
    }
  }

  /** In every interleaving no bastion client is ever lost and no listener outlives a close. */
  lemma {:induction false} EveryInterleaving(events: seq<Event>)
    requires Run(Gate(None, [], 0, 0, {}, {}, 0, {}, map[]), events).Some?
    ensures var g := Run(Gate(None, [], 0, 0, {}, {}, 0, {}, map[]), events).value;
            Accounted(g) && Current(g)
  {
    if events != [] {
      var front := events[..|events| - 1];
      EveryInterleaving(front);
      NextKeeps(Run(Gate(None, [], 0, 0, {}, {}, 0, {}, map[]), front).value, events[|events| - 1]);
    }
  }

  /** A forward thread of an older generation changes nothing: it never dials. */
  lemma StaleThreadNeverDials(g: Gate, l: nat, connects: bool)
    requires l in g.spawned && g.spawned[l] != g.generation
    ensures Next(g, Dial(l, connects)) == Some(g)
  {
  }

  /** Once a listener has been closed its thread is stale for good, so whatever happens
      afterwards it never dials. */
  lemma {:induction false} ClosedForwardStaysStale(g: Gate, l: nat, events: seq<Event>)
    requires Current(g) && Accounted(g) && l in g.spawned && l < g.bound && Run(CloseBegun(g), events).Some?
    ensures var g' := Run(CloseBegun(g), events).value;
            l in g'.spawned && g'.spawned[l] < g'.generation && l < g'.bound && l !in g'.open
    ensures Accounted(Run(CloseBegun(g), events).value) && Current(Run(CloseBegun(g), events).value)
  {
    NextKeeps(g, BeginClose);
    if events != [] {
      var front := events[..|events| - 1];
      ClosedForwardStaysStale(g, l, front);
      NextKeeps(Run(CloseBegun(g), front).value, events[|events| - 1]);
      StaleStep(Run(CloseBegun(g), front).value, l, events[|events| - 1]);
    }
  }

  lemma StaleStep(g: Gate, l: nat, e: Event)
    requires l in g.spawned && g.spawned[l] < g.generation && l < g.bound && l !in g.open && Next(g, e).Some?
    ensures var g' := Next(g, e).value;
            l in g'.spawned && g'.spawned[l] < g'.generation && l < g'.bound && l !in g'.open
  {
  }

  /** When the last close has finished, every client ever dialled has been closed. */
  lemma NothingLeaks(events: seq<Event>)
    requires Run(Gate(None, [], 0, 0, {}, {}, 0, {}, map[]), events).Some?
    requires var g := Run(Gate(None, [], 0, 0, {}, {}, 0, {}, map[]), events).value;
             g.client.None? && g.taken == {}
    ensures var g := Run(Gate(None, [], 0, 0, {}, {}, 0, {}, map[]), events).value;
            forall c: nat :: c in g.closed <==> c < g.dialled
  {
    EveryInterleaving(events);
  }
}
