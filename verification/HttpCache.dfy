/** The shared HTTP cache tier: content, sidecars and name links on a plain file server,
    changed by one client that can stop between any two requests.
 */
module HttpCache {
  import opened Wrappers
  import opened Names
  import opened Bytes

  type Content = seq<Byte>

  datatype Store = Store(
    bins: map<string, Content>,               // /isos/<sha>.bin
    sidecars: map<string, seq<string>>,       // /isos/<sha>.json, its alias list
    links: map<string, string>)            // /names/<name>, a sha

  /** Every name link leads to a sidecar and every sidecar to its bytes. */
  ghost predicate Consistent(s: Store) {
    && (forall n | n in s.links :: s.links[n] in s.sidecars)
    && (forall sha | sha in s.sidecars :: sha in s.bins)
  }

  // ---- What each operation leaves, stopped after `budget` requests --------------------------

  function PutNames(s: Store, sha: string, names: seq<string>, budget: nat): Store
    decreases |names|
  {
    if names == [] || budget == 0 then s
    else PutNames(s.(links := s.links[names[0] := sha]), sha, names[1..], budget - 1)
  }

  /** Content first, then the sidecar, then the links. */
  function Pushed(s: Store, sha: string, body: Content, names: seq<string>, budget: nat): Store {
    if budget == 0 then s
    else
      var s1 := s.(bins := s.bins[sha := body]);
      if budget == 1 then s1
      else PutNames(s1.(sidecars := s1.sidecars[sha := names]), sha, names, budget - 2)
  }

  function DropNames(s: Store, names: seq<string>, budget: nat): Store
    decreases |names|
  {
    if names == [] || budget == 0 then s
    else DropNames(s.(links := s.links - {names[0]}), names[1..], budget - 1)
  }

  /** Links first, then the sidecar, then the content. */
  function Deleted(s: Store, sha: string, names: seq<string>, budget: nat): Store {
    var s1 := DropNames(s, names, budget);
    if budget <= |names| then s1
    else
      var s2 := s1.(sidecars := s1.sidecars - {sha});
      if budget == |names| + 1 then s2 else s2.(bins := s2.bins - {sha})
  }

  /** Sidecar first, then the link; refused without a sidecar. */
  function NameAdded(s: Store, sha: string, name: string, budget: nat): Store {
    if sha !in s.sidecars || budget == 0 then s
    else if name in s.sidecars[sha] then s.(links := s.links[name := sha])
    else
      var s1 := s.(sidecars := s.sidecars[sha := s.sidecars[sha] + [name]]);
      if budget == 1 then s1 else s1.(links := s1.links[name := sha])
  }

  function Without(names: seq<string>, name: string): seq<string> {
    if names == [] then [] else (if names[0] == name then [] else [names[0]]) + Without(names[1..], name)
  }

  /** Link first, then the sidecar without the alias. */
  function NameForgotten(s: Store, name: string, budget: nat): Store {
    if name !in s.links || budget == 0 then s
    else
      var sha, s1 := s.links[name], s.(links := s.links - {name});
      if sha !in s1.sidecars || budget == 1 then s1
      else s1.(sidecars := s1.sidecars[sha := Without(s1.sidecars[sha], name)])
  }

  /** The alias list with the name in it, once more only if it was not there. */
  function WithName(names: seq<string>, name: string): seq<string> {
    if name in names then names else names + [name]
  }

  /** The alias list of an entry; empty without a sidecar. */
  function Aliases(s: Store, sha: string): seq<string> {
    if sha in s.sidecars then s.sidecars[sha] else []
  }

  predicate LinksTo(s: Store, name: string, sha: string) {
    name in s.links && s.links[name] == sha
  }

  // ---- The client ------------------------------------------------------------------------------

  class Client {
    var bins: map<string, Content>
    var sidecars: map<string, seq<string>>
    var links: map<string, string>

    ghost function Value(): Store
      reads this
    {
      Store(bins, sidecars, links)
    }

    constructor ()
      ensures Value() == Store(map[], map[], map[])
    {
      bins, sidecars, links := map[], map[], map[];
    }

    method Push(sha: string, body: Content, names: seq<string>, budget: nat)
      modifies this
      ensures Value() == Pushed(old(Value()), sha, body, names, budget)
      ensures Consistent(old(Value())) ==> Consistent(Value())
    {
      if Consistent(Value()) {
        PushKeeps(Value(), sha, body, names, budget);
      }
      if budget == 0 {
        return;
      }
      bins := bins[sha := body];
      if budget == 1 {
        return;
      }
      sidecars := sidecars[sha := names];
      ghost var start := Value();
      var i := 0;
      while i < |names| && i < budget - 2
        invariant 0 <= i <= |names| && i <= budget - 2
        invariant PutNames(Value(), sha, names[i..], budget - 2 - i) == PutNames(start, sha, names, budget - 2)
      {
        links := links[names[i] := sha];
        assert names[i..][1..] == names[i + 1..];
        i := i + 1;
      }
    }

    method Delete(sha: string, names: seq<string>, budget: nat)
      modifies this
      ensures Value() == Deleted(old(Value()), sha, names, budget)
      ensures budget >= |names| + 2 ==>
                && bins == old(bins) - {sha} && sidecars == old(sidecars) - {sha}
                && links == old(links) - Elems(names)
      ensures Consistent(old(Value())) ==>
                (Consistent(Value()) <==> budget <= |names| || ListsAll(old(Value()), sha, names))
    {
      DeleteEffect(Value(), sha, names, budget);
      if Consistent(Value()) {
        DeleteKeepsExactly(Value(), sha, names, budget);
      }
      var i := 0;
      while i < |names| && i < budget
        invariant 0 <= i <= |names| && i <= budget
        invariant DropNames(Value(), names[i..], budget - i) == DropNames(old(Value()), names, budget)
      {
        links := links - {names[i]};
        assert names[i..][1..] == names[i + 1..];
        i := i + 1;
      }
      if budget > |names| {
        sidecars := sidecars - {sha};
        if budget > |names| + 1 {
          bins := bins - {sha};
        }
      }
    }

    method AddName(sha: string, name: string, budget: nat) returns (found: bool)
      modifies this
      ensures found <==> sha in old(sidecars)
      ensures Value() == NameAdded(old(Value()), sha, name, budget)
      ensures found && budget >= 2 ==>
                && links == old(links)[name := sha] && bins == old(bins)
                && sidecars == old(sidecars)[sha := WithName(old(sidecars)[sha], name)]
      ensures !found ==> Value() == old(Value())
      ensures Consistent(old(Value())) ==> Consistent(Value())
    {
      NameAddedEffect(Value(), sha, name, budget);
      if Consistent(Value()) {
        NameAddedKeeps(Value(), sha, name, budget);
      }
      found := sha in sidecars;
      if !found || budget == 0 {
        return;
      }
      if name !in sidecars[sha] {
        sidecars := sidecars[sha := sidecars[sha] + [name]];
        if budget == 1 {
          return;
        }
      }
      links := links[name := sha];
    }

    method ForgetName(name: string, budget: nat)
      modifies this
      ensures Value() == NameForgotten(old(Value()), name, budget)
      ensures budget >= 2 ==>
                && links == old(links) - {name} && bins == old(bins)
                && (forall sha :: Aliases(Value(), sha) ==
                      if LinksTo(old(Value()), name, sha) then Without(Aliases(old(Value()), sha), name)
                      else Aliases(old(Value()), sha))
      ensures Consistent(old(Value())) ==> Consistent(Value())
    {
      NameForgottenEffect(Value(), name, budget);
      if Consistent(Value()) {
        NameForgottenKeeps(Value(), name, budget);
      }
      if name !in links || budget == 0 {
        return;
      }
      var sha := links[name];
      links := links - {name};
      if sha in sidecars && budget > 1 {
        sidecars := sidecars[sha := Without(sidecars[sha], name)];
      }
    }
  }

  // ---- Stopping anywhere leaves a consistent server -----------------------------------------------

  lemma {:induction false} PutNamesKeeps(s: Store, sha: string, names: seq<string>, budget: nat)
    requires Consistent(s) && sha in s.sidecars
    ensures Consistent(PutNames(s, sha, names, budget))
    decreases |names|
  {
    if names != [] && budget > 0 {
      PutNamesKeeps(s.(links := s.links[names[0] := sha]), sha, names[1..], budget - 1);
    }
  }

  lemma PushKeeps(s: Store, sha: string, body: Content, names: seq<string>, budget: nat)
    requires Consistent(s)
    ensures Consistent(Pushed(s, sha, body, names, budget))
  {
    if budget >= 2 {
      var s1 := s.(bins := s.bins[sha := body], sidecars := s.sidecars[sha := names]);
      PutNamesKeeps(s1, sha, names, budget - 2);
    }
  }

  lemma {:induction false} PutNamesEffect(s: Store, sha: string, names: seq<string>, budget: nat)
    requires |names| <= budget
    ensures var s' := PutNames(s, sha, names, budget);
            && s'.bins == s.bins && s'.sidecars == s.sidecars
            && (forall n | n in names :: n in s'.links && s'.links[n] == sha)
            && (forall n | n !in names :: (n in s'.links <==> n in s.links) &&
                  (n in s.links ==> s'.links[n] == s.links[n]))
    decreases |names|
  {
    if names != [] {
      PutNamesEffect(s.(links := s.links[names[0] := sha]), sha, names[1..], budget - 1);
    }
  }

  /** A push that is not stopped makes the entry resolvable by sha and by each of its names,
      and touches no other entry. */
  lemma PushResolves(s: Store, sha: string, body: Content, names: seq<string>, budget: nat)
    requires budget >= |names| + 2
    ensures var s' := Pushed(s, sha, body, names, budget);
            && s'.bins == s.bins[sha := body] && s'.sidecars == s.sidecars[sha := names]
            && (forall n | n in names :: n in s'.links && s'.links[n] == sha)
            && (forall n | n !in names :: (n in s'.links <==> n in s.links) &&
                  (n in s.links ==> s'.links[n] == s.links[n]))
  {
    PutNamesEffect(s.(bins := s.bins[sha := body], sidecars := s.sidecars[sha := names]), sha, names, budget - 2);
  }

  lemma {:induction false} DropNamesEffect(s: Store, names: seq<string>, budget: nat)
    ensures var s' := DropNames(s, names, budget);
            && s'.bins == s.bins && s'.sidecars == s.sidecars && s'.links.Keys <= s.links.Keys
            && (forall n | n in s'.links :: s'.links[n] == s.links[n])
            && (budget >= |names| ==> forall n :: n in s'.links <==> n in s.links && n !in names)
    decreases |names|
  {
    if names != [] && budget > 0 {
      DropNamesEffect(s.(links := s.links - {names[0]}), names[1..], budget - 1);
    }
  }

  /** The names the caller hands over include every link to that sha. */
  ghost predicate ListsAll(s: Store, sha: string, names: seq<string>) {
    forall n | n in s.links && s.links[n] == sha :: n in names
  }

  /** A delete leaves the server consistent if and only if it stops before the sidecar or was
      given every link to that sha. */
  lemma DeleteKeepsExactly(s: Store, sha: string, names: seq<string>, budget: nat)
    requires Consistent(s)
    ensures Consistent(Deleted(s, sha, names, budget)) <==> budget <= |names| || ListsAll(s, sha, names)
  {
    DropNamesEffect(s, names, budget);
    var s' := Deleted(s, sha, names, budget);
    if budget > |names| && !ListsAll(s, sha, names) {
      var n :| n in s.links && s.links[n] == sha && n !in names;
      assert n in s'.links && s'.links[n] !in s'.sidecars;
    }
  }

  lemma NameAddedKeeps(s: Store, sha: string, name: string, budget: nat)
    requires Consistent(s)
    ensures Consistent(NameAdded(s, sha, name, budget))
  {
  }

  lemma NameForgottenKeeps(s: Store, name: string, budget: nat)
    requires Consistent(s)
    ensures Consistent(NameForgotten(s, name, budget))
    ensures budget > 0 ==> name !in NameForgotten(s, name, budget).links
  {
  }

  // ---- What a completed operation does -----------------------------------------------------------------

  /** A delete that is not stopped removes the entry and exactly the links it was given. */
  lemma DeleteEffect(s: Store, sha: string, names: seq<string>, budget: nat)
    ensures var s' := Deleted(s, sha, names, budget);
            budget >= |names| + 2 ==>
              s' == Store(s.bins - {sha}, s.sidecars - {sha}, s.links - Elems(names))
  {
    if budget >= |names| + 2 {
      DropNamesEffect(s, names, budget);
      var s' := Deleted(s, sha, names, budget);
      assert s'.links == s.links - Elems(names);
    }
  }

  /** An alias that is not stopped resolves to its entry from then on and is listed there,
      once; no other link, list or content changes. Without a sidecar nothing happens. */
  lemma NameAddedEffect(s: Store, sha: string, name: string, budget: nat)
    ensures var s' := NameAdded(s, sha, name, budget);
            if sha !in s.sidecars then s' == s
            else budget >= 2 ==>
                   s' == Store(s.bins, s.sidecars[sha := WithName(s.sidecars[sha], name)], s.links[name := sha])
  {
    if sha in s.sidecars && budget >= 2 && name in s.sidecars[sha] {
      assert s.sidecars[sha := WithName(s.sidecars[sha], name)] == s.sidecars;
    }
  }

  /** Forgetting an alias, not stopped: its link is gone and its entry no longer lists it; no
      other link, list or content changes. */
  lemma NameForgottenEffect(s: Store, name: string, budget: nat)
    ensures var s' := NameForgotten(s, name, budget);
            budget >= 2 ==>
              && s'.bins == s.bins && s'.links == s.links - {name} && s'.sidecars.Keys == s.sidecars.Keys
              && (forall sha :: Aliases(s', sha) ==
                    if LinksTo(s, name, sha) then Without(Aliases(s, sha), name) else Aliases(s, sha))
  {
    if name !in s.links {
      assert s.links - {name} == s.links;
    }
  }

  /** What is left of a list is the rest of it in its order. */
  lemma {:induction false} WithoutIs(names: seq<string>, name: string)
    ensures name !in Without(names, name)
    ensures forall n | n != name :: multiset(Without(names, name))[n] == multiset(names)[n]
    ensures name !in names ==> Without(names, name) == names
  {
    if names != [] {
      WithoutIs(names[1..], name);
      assert names == [names[0]] + names[1..];
      assert Without(names, name) == (if names[0] == name then [] else [names[0]]) + Without(names[1..], name);
      assert multiset(names) == multiset{names[0]} + multiset(names[1..]);
    }
  }

  lemma {:induction false} WithoutConcat(a: seq<string>, b: seq<string>, name: string)
    ensures Without(a + b, name) == Without(a, name) + Without(b, name)
  {
    if a == [] {
      assert a + b == b;
    } else {
      assert (a + b)[0] == a[0] && (a + b)[1..] == a[1..] + b;
      WithoutConcat(a[1..], b, name);
    }
  }

  /** Forgetting a new alias undoes adding it. */
  lemma ForgetUndoesAdd(s: Store, sha: string, name: string, more: nat, more': nat)
    requires sha in s.sidecars && name !in s.links && name !in s.sidecars[sha]
    ensures NameForgotten(NameAdded(s, sha, name, 2 + more), name, 2 + more') == s
  {
    var added := NameAdded(s, sha, name, 2 + more);
    var aliases := s.sidecars[sha];
    NameAddedEffect(s, sha, name, 2 + more);
    WithoutConcat(aliases, [name], name);
    WithoutIs(aliases, name);
    assert Without([name], name) == [] by {
      assert [name][1..] == [];
    }
    assert aliases + [] == aliases;
    assert added.sidecars[sha := aliases] == s.sidecars;
    assert added.links - {name} == s.links;
  }

  /** Deleting a new entry by its own list undoes pushing it. */
  lemma DeleteUndoesPush(s: Store, sha: string, body: Content, names: seq<string>, budget: nat)
    requires sha !in s.bins && sha !in s.sidecars && (forall n | n in names :: n !in s.links)
    requires budget >= |names| + 2
    ensures Deleted(Pushed(s, sha, body, names, budget), sha, names, budget) == s
  {
    var pushed := Pushed(s, sha, body, names, budget);
    PushResolves(s, sha, body, names, budget);
    DeleteEffect(pushed, sha, names, budget);
    assert pushed.bins - {sha} == s.bins && pushed.sidecars - {sha} == s.sidecars;
    assert pushed.links - Elems(names) == s.links;
  }

  // ---- Any sequence of operations ---------------------------------------------------------------------

  datatype Op =
    | Push(sha: string, body: Content, names: seq<string>, budget: nat)
    | Delete(sha: string, names: seq<string>, budget: nat)
    | AddName(sha: string, name: string, budget: nat)
    | ForgetName(name: string, budget: nat)

  function Apply(s: Store, op: Op): Store {
    match op
    case Push(sha, body, names, budget) => Pushed(s, sha, body, names, budget)
    case Delete(sha, names, budget) => Deleted(s, sha, names, budget)
    case AddName(sha, name, budget) => NameAdded(s, sha, name, budget)
    case ForgetName(name, budget) => NameForgotten(s, name, budget)
  }

  function ApplyAll(s: Store, ops: seq<Op>): Store {
    if ops == [] then s else Apply(ApplyAll(s, ops[..|ops| - 1]), ops[|ops| - 1])
  }

  /** Each delete that reached the sidecar was given every link there was. */
  ghost predicate InformedDeletes(s: Store, ops: seq<Op>) {
    forall i | 0 <= i < |ops| && ops[i].Delete? ::
      ops[i].budget <= |ops[i].names| || ListsAll(ApplyAll(s, ops[..i]), ops[i].sha, ops[i].names)
  }

  /** Any sequence of operations, each stopped after any number of requests, leaves every
      link leading to a sidecar and every sidecar to its bytes. */
  lemma {:induction false} ServerStaysConsistent(s: Store, ops: seq<Op>)
    requires Consistent(s) && InformedDeletes(s, ops)
    ensures Consistent(ApplyAll(s, ops))
  {
    if ops != [] {
      var n := |ops| - 1;
      forall i | 0 <= i < n ensures ops[..n][..i] == ops[..i] {
      }
      ServerStaysConsistent(s, ops[..n]);
      var mid := ApplyAll(s, ops[..n]);
      match ops[n] {
        case Push(sha, body, names, budget) => PushKeeps(mid, sha, body, names, budget);
        case Delete(sha, names, budget) => DeleteKeepsExactly(mid, sha, names, budget);
        case AddName(sha, name, budget) => NameAddedKeeps(mid, sha, name, budget);
        case ForgetName(name, budget) => NameForgottenKeeps(mid, name, budget);
      }
    }
  }

  /** The condition is needed: push the same content under one name, push it again under
      another, delete by what the second push said; the first name dangles. */
  lemma StaleInfoDangles(sha: string, a: string, b: string, body: Content)
    requires a != b
    ensures var s := Pushed(Pushed(Store(map[], map[], map[]), sha, body, [a], 3), sha, body, [b], 3);
            && Consistent(s) && sha in s.sidecars && s.sidecars[sha] == [b]
            && !Consistent(Deleted(s, sha, s.sidecars[sha], 3))
  {
    var s0 := Store(map[], map[], map[]);
    var s1 := Pushed(s0, sha, body, [a], 3);
    var s2 := Pushed(s1, sha, body, [b], 3);
    PushKeeps(s0, sha, body, [a], 3);
    PushKeeps(s1, sha, body, [b], 3);
    PushResolves(s0, sha, body, [a], 3);
    PushResolves(s1, sha, body, [b], 3);
    assert a in [a] && a !in [b];
    assert s2.links[a] == sha;
    DeleteKeepsExactly(s2, sha, [b], 3);
  }

  // ---- fetch ----------------------------------------------------------------------------------------------

  function Joined(chunks: seq<Content>): Content {
    if chunks == [] then [] else Joined(chunks[..|chunks| - 1]) + chunks[|chunks| - 1]
  }

  datatype FetchError = Missing | Refused | Corrupt | Interrupted

  /** The local `isos/` directory, and the digest its names are made of. */
  class Isos {
    var bins: map<string, Content>
    const digest: Content -> string

    constructor (digest: Content -> string)
      ensures this.digest == digest && bins == map[] && Certified()
    {
      this.digest := digest;
      bins := map[];
    }

    /** Every file hashes to the name it is stored under. */
    ghost predicate Certified()
      reads this
    {
      forall sha | sha in bins :: digest(bins[sha]) == sha
    }

    /** Streams the body, hashing it as it comes; `arrived` chunks come before the connection
        drops, if it does. Only a complete body that hashes to `sha` is installed. */
    method Fetch(sha: string, status: nat, chunks: seq<Content>, arrived: nat) returns (r: Result<(), FetchError>)
      requires Certified()
      modifies this
      ensures Certified()
      ensures r.Ok? <==> status < 400 && arrived >= |chunks| && digest(Joined(chunks)) == sha
      ensures bins == if r.Ok? then old(bins)[sha := Joined(chunks)] else old(bins)
    {
      if status == 404 {
        return Err(Missing);
      }
      if status >= 400 {
        return Err(Refused);
      }
      var tmp: Content := [];
      for i := 0 to |chunks|
        invariant tmp == Joined(chunks[..i]) && i <= arrived
      {
        if i == arrived {
          return Err(Interrupted);
        }
        assert chunks[..i + 1][..i] == chunks[..i];
        if chunks[i] != [] {
          tmp := tmp + chunks[i];
        }
      }
      assert chunks[..|chunks|] == chunks;
      if digest(tmp) != sha {
        return Err(Corrupt);
      }
      bins := bins[sha := tmp];
      return Ok(());
    }
  }
}
