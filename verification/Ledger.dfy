/** The durable run ledger, `state.json`: the pure update algebra of its schema. */
module Ledger {
  import opened Wrappers

  datatype Resource = Resource(
    kind: string,
    backendName: string,
    planName: Option<string>,
    intentAt: string,
    outcomeAt: Option<string>,
    metadata: map<string, string>)
  {
    function WithOutcome(at: string, extra: map<string, string>): Resource {
      this.(outcomeAt := Some(at), metadata := metadata + extra)
    }
  }

  datatype NodeRecord = NodeRecord(name: string, materializedAt: Option<string>, realizedAt: Option<string>)

  datatype State = State(phase: string, resources: seq<Resource>, nodes: seq<NodeRecord>) {

    function WithResource(r: Resource): State {
      this.(resources := resources + [r])
    }

    /** Replace every record of that name; the caller has seen one. */
    function ReplaceResource(name: string, r: Resource): State {
      this.(resources := Replaced(resources, name, r))
    }

    function RemoveResource(name: string): State {
      this.(resources := Removed(resources, name))
    }

    /** Upsert: the node's old entry goes, the new one is appended. */
    function WithNodeRecord(record: NodeRecord): State {
      this.(nodes := WithoutNode(nodes, record.name) + [record])
    }

    function NodeRecordOf(name: string): Option<NodeRecord> {
      FirstNode(nodes, name)
    }
  }

  function Replaced(rs: seq<Resource>, name: string, r: Resource): (out: seq<Resource>)
    ensures |out| == |rs|
    ensures forall i | 0 <= i < |rs| :: out[i] == if rs[i].backendName == name then r else rs[i]
  {
    seq(|rs|, i requires 0 <= i < |rs| => if rs[i].backendName == name then r else rs[i])
  }

  function Removed(rs: seq<Resource>, name: string): seq<Resource> {
    if rs == [] then []
    else (if rs[0].backendName == name then [] else [rs[0]]) + Removed(rs[1..], name)
  }

  function WithoutNode(ns: seq<NodeRecord>, name: string): seq<NodeRecord> {
    if ns == [] then []
    else (if ns[0].name == name then [] else [ns[0]]) + WithoutNode(ns[1..], name)
  }

  function FirstNode(ns: seq<NodeRecord>, name: string): Option<NodeRecord> {
    if ns == [] then None
    else if ns[0].name == name then Some(ns[0])
    else FirstNode(ns[1..], name)
  }

  function FirstResource(rs: seq<Resource>, name: string): (r: Option<Resource>)
    ensures r.Some? ==> r.value in rs && r.value.backendName == name
    ensures r.None? ==> name !in NamesOf(rs)
  {
    if rs == [] then None
    else if rs[0].backendName == name then Some(rs[0])
    else FirstResource(rs[1..], name)
  }

  // ---- What the ledger names ----------------------------------------------

  function NamesOf(rs: seq<Resource>): (names: set<string>)
    ensures forall i | 0 <= i < |rs| :: rs[i].backendName in names
  {
    set r | r in rs :: r.backendName
  }

  /** Nodes whose realize completion is stamped. */
  function Realized(ns: seq<NodeRecord>): set<string> {
    set n | n in ns && n.realizedAt.Some? :: n.name
  }

  lemma ConcatNames(a: seq<Resource>, b: seq<Resource>)
    ensures NamesOf(a + b) == NamesOf(a) + NamesOf(b)
  {
    assert forall r :: r in a + b <==> r in a || r in b;
  }

  lemma {:induction false} RemovedMembers(rs: seq<Resource>, name: string)
    ensures forall r :: r in Removed(rs, name) <==> r in rs && r.backendName != name
  {
    if rs != [] {
      RemovedMembers(rs[1..], name);
      assert forall r :: r in rs <==> r == rs[0] || r in rs[1..];
    }
  }

  lemma RemovedNames(rs: seq<Resource>, name: string)
    ensures NamesOf(Removed(rs, name)) == NamesOf(rs) - {name}
  {
    RemovedMembers(rs, name);
  }

  /** Every earlier record stands in relation `p` to every later one. */
  ghost predicate Pairwise(p: (Resource, Resource) -> bool, rs: seq<Resource>) {
    forall i, j | 0 <= i < j < |rs| :: p(rs[i], rs[j])
  }

  /** Removing records keeps whatever held between earlier and later ones: what is left
      keeps its order. */
  lemma {:induction false} RemovedPairwise(p: (Resource, Resource) -> bool, rs: seq<Resource>, name: string)
    requires Pairwise(p, rs)
    ensures Pairwise(p, Removed(rs, name))
  {
    if rs != [] {
      var rest := Removed(rs[1..], name);
      RemovedPairwise(p, rs[1..], name);
      RemovedMembers(rs[1..], name);
      forall j | 0 <= j < |rest| ensures p(rs[0], rest[j]) {
        assert rest[j] in rs[1..];
        var k :| 0 <= k < |rs[1..]| && rs[1..][k] == rest[j];
        assert rs[k + 1] == rest[j];
      }
    }
  }

  lemma AppendNames(rs: seq<Resource>, r: Resource)
    ensures NamesOf(rs + [r]) == NamesOf(rs) + {r.backendName}
  {
    ConcatNames(rs, [r]);
  }

  lemma SameNames(a: seq<Resource>, b: seq<Resource>)
    requires |a| == |b| && forall i | 0 <= i < |a| :: a[i].backendName == b[i].backendName
    ensures NamesOf(a) <= NamesOf(b)
  {
  }

  lemma ReplacedNames(rs: seq<Resource>, name: string, r: Resource)
    requires r.backendName == name
    ensures NamesOf(Replaced(rs, name, r)) == NamesOf(rs)
    ensures forall i | 0 <= i < |rs| :: Replaced(rs, name, r)[i].backendName == rs[i].backendName
  {
    var out := Replaced(rs, name, r);
    SameNames(out, rs);
    SameNames(rs, out);
  }

  lemma WithoutNodeRealized(ns: seq<NodeRecord>, name: string)
    ensures Realized(WithoutNode(ns, name)) == Realized(ns) - {name}
  {
    WithoutNodeMembers(ns, name);
  }

  // ---- Stamping -----------------------------------------------------------

  function PriorRecord(s: State, node: string): NodeRecord {
    match s.NodeRecordOf(node)
    case Some(record) => record
    case None => NodeRecord(node, None, None)
  }

  /** `mark_node_realized` */
  function StampRealized(s: State, node: string, now: string): State {
    s.WithNodeRecord(PriorRecord(s, node).(realizedAt := Some(now)))
  }

  /** `mark_node_materialized` */
  function StampMaterialized(s: State, node: string, now: string): State {
    s.WithNodeRecord(PriorRecord(s, node).(materializedAt := Some(now)))
  }

  lemma {:induction false} FirstNodeFound(ns: seq<NodeRecord>, name: string)
    ensures FirstNode(ns, name).Some? ==> FirstNode(ns, name).value in ns && FirstNode(ns, name).value.name == name
    ensures FirstNode(ns, name).None? ==> forall n | n in ns :: n.name != name
  {
    if ns != [] && ns[0].name != name {
      FirstNodeFound(ns[1..], name);
    }
  }

  /** Node names are unique in the ledger, because entries are upserted. */
  ghost predicate UniqueNodes(ns: seq<NodeRecord>) {
    forall i, j | 0 <= i < j < |ns| :: ns[i].name != ns[j].name
  }

  lemma {:induction false} WithoutNodeMembers(ns: seq<NodeRecord>, name: string)
    ensures forall n :: n in WithoutNode(ns, name) <==> n in ns && n.name != name
    ensures UniqueNodes(ns) ==> UniqueNodes(WithoutNode(ns, name))
  {
    if ns != [] {
      WithoutNodeMembers(ns[1..], name);
      var out, rest := WithoutNode(ns, name), WithoutNode(ns[1..], name);
      if UniqueNodes(ns) && ns[0].name != name {
        assert out == [ns[0]] + rest;
        forall j | 0 <= j < |rest| ensures ns[0].name != rest[j].name {
          assert rest[j] in rest;
          assert rest[j] in ns[1..];
        }
      }
    }
  }

  lemma {:induction false} FirstWithout(ns: seq<NodeRecord>, record: NodeRecord, other: string)
    ensures FirstNode(WithoutNode(ns, record.name) + [record], other) ==
            if other == record.name then Some(record) else FirstNode(ns, other)
  {
    var rest := WithoutNode(ns, record.name);
    if ns == [] {
      assert rest + [record] == [record] && [record][1..] == [];
    } else {
      FirstWithout(ns[1..], record, other);
      var tail := WithoutNode(ns[1..], record.name);
      if ns[0].name == record.name {
        assert rest == tail;
      } else {
        assert (rest + [record])[0] == ns[0] && (rest + [record])[1..] == tail + [record];
      }
    }
  }

  /** Stamping a realization adds that node to the realized ones, dated, keeps its materialize
      stamp, and touches no other entry and no resource. */
  lemma StampRealizedEffect(s: State, node: string, now: string)
    requires UniqueNodes(s.nodes)
    ensures var s' := StampRealized(s, node, now);
            && s'.resources == s.resources && s'.phase == s.phase && UniqueNodes(s'.nodes)
            && Realized(s'.nodes) == Realized(s.nodes) + {node}
            && s'.NodeRecordOf(node) == Some(NodeRecord(node, PriorRecord(s, node).materializedAt, Some(now)))
            && (forall m | m != node :: s'.NodeRecordOf(m) == s.NodeRecordOf(m))
  {
    forall m ensures var s' := StampRealized(s, node, now);
                     s'.NodeRecordOf(m) == if m == node then Some(s'.nodes[|s'.nodes| - 1]) else s.NodeRecordOf(m) {
      FirstNodeFound(s.nodes, node);
      FirstWithout(s.nodes, PriorRecord(s, node).(realizedAt := Some(now)), m);
    }
    var s' := StampRealized(s, node, now);
    FirstNodeFound(s.nodes, node);
    WithoutNodeMembers(s.nodes, node);
    WithoutNodeRealized(s.nodes, node);
    var rest := WithoutNode(s.nodes, node);
    assert s'.nodes == rest + [s'.nodes[|rest|]];
    RealizedAppend(rest, s'.nodes[|rest|]);
  }

  /** Stamping a materialization dates it, changes no realization, and touches no other entry
      and no resource. */
  lemma StampMaterializedEffect(s: State, node: string, now: string)
    requires UniqueNodes(s.nodes)
    ensures var s' := StampMaterialized(s, node, now);
            && s'.resources == s.resources && s'.phase == s.phase && UniqueNodes(s'.nodes)
            && Realized(s'.nodes) == Realized(s.nodes)
            && s'.NodeRecordOf(node) == Some(NodeRecord(node, Some(now), PriorRecord(s, node).realizedAt))
            && (forall m | m != node :: s'.NodeRecordOf(m) == s.NodeRecordOf(m))
  {
    forall m ensures var s' := StampMaterialized(s, node, now);
                     s'.NodeRecordOf(m) == if m == node then Some(s'.nodes[|s'.nodes| - 1]) else s.NodeRecordOf(m) {
      FirstNodeFound(s.nodes, node);
      FirstWithout(s.nodes, PriorRecord(s, node).(materializedAt := Some(now)), m);
    }
    var s' := StampMaterialized(s, node, now);
    FirstNodeFound(s.nodes, node);
    WithoutNodeMembers(s.nodes, node);
    WithoutNodeRealized(s.nodes, node);
    var rest := WithoutNode(s.nodes, node);
    assert s'.nodes == rest + [s'.nodes[|rest|]];
    RealizedAppend(rest, s'.nodes[|rest|]);
    OnlyRecord(s.nodes, node);
  }

  lemma RealizedAppend(ns: seq<NodeRecord>, record: NodeRecord)
    ensures Realized(ns + [record]) == Realized(ns) + (if record.realizedAt.Some? then {record.name} else {})
  {
  }

  lemma OnlyRecord(ns: seq<NodeRecord>, node: string)
    requires UniqueNodes(ns)
    ensures node in Realized(ns) <==> FirstNode(ns, node).Some? && FirstNode(ns, node).value.realizedAt.Some?
  {
    FirstNodeFound(ns, node);
  }
}
