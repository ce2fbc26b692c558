/** ESXi fabrics: one isolated vSwitch per switch, and one uplink vSwitch per physical NIC
    shared by every NAT switch on it, which goes when its last portgroup goes.
 */
module EsxiNet {
  import opened Wrappers

  // ---- Host objects ------------------------------------------------------------------------

  /** `trs-`, `trp-`, `trm-`, `tru-` and `trx-`, each followed by a short digest of a backend
      name or a physical NIC. The digests are taken not to collide, so a name stands for
      what it digests. */
  datatype Name =
    | SwitchV(backend: string)
    | NetworkPg(backend: string)
    | MgmtPg(backend: string)
    | UplinkV(pnic: string)
    | UplinkPg(backend: string)
    | Foreign(name: string)

  predicate TrNamed(n: Name) {
    !n.Foreign? || "tr" <= n.name
  }

  datatype Host = Host(
    vswitches: set<Name>,
    portgroups: map<Name, Name>,      // portgroup to its vSwitch
    vmks: set<Name>)                  // portgroups carrying a VMkernel NIC

  /** A switch as the driver sees it: `pnic` is the resolved uplink of a NAT switch. */
  datatype Spec = Spec(mgmt: bool, pnic: Option<string>)

  // ---- The operations, on values -----------------------------------------------------------

  function WithPortgroup(h: Host, pg: Name, vs: Name): Host {
    if pg in h.portgroups then h else h.(portgroups := h.portgroups[pg := vs])
  }

  function SwitchCreated(h: Host, b: string, spec: Spec): Host {
    var vs := SwitchV(b);
    var h1 := h.(vswitches := h.vswitches + {vs});
    var h2 := if !spec.mgmt then h1
              else WithPortgroup(h1, MgmtPg(b), vs).(vmks := h1.vmks + {MgmtPg(b)});
    if spec.pnic.None? then h2
    else
      var up := UplinkV(spec.pnic.value);
      WithPortgroup(h2.(vswitches := h2.vswitches + {up}), UplinkPg(b), up)
  }

  /** Adding a portgroup to a vSwitch that does not exist is refused by the host. */
  function NetworkCreated(h: Host, n: string, b: string): Option<Host> {
    if NetworkPg(n) in h.portgroups then Some(h)
    else if SwitchV(b) !in h.vswitches then None
    else Some(WithPortgroup(h, NetworkPg(n), SwitchV(b)))
  }

  function NetworkDestroyed(h: Host, n: string): Host {
    h.(portgroups := h.portgroups - {NetworkPg(n)})
  }

  function MgmtRemoved(h: Host, pg: Name): Host {
    if pg in h.portgroups then h.(vmks := h.vmks - {pg}, portgroups := h.portgroups - {pg}) else h
  }

  predicate InUse(h: Host, vs: Name) {
    exists g :: g in h.portgroups && h.portgroups[g] == vs && TrNamed(g)
  }

  /** The uplink portgroup goes; the shared vSwitch goes with its last portgroup. */
  function UplinkRemoved(h: Host, pg: Name): Host {
    if pg !in h.portgroups then h
    else
      var up, h1 := h.portgroups[pg], h.(portgroups := h.portgroups - {pg});
      if InUse(h1, up) then h1 else h1.(vswitches := h1.vswitches - {up})
  }

  function SwitchEmptied(h: Host, vs: Name): Host {
    h.(portgroups := map g | g in h.portgroups && h.portgroups[g] != vs :: h.portgroups[g],
       vswitches := h.vswitches - {vs})
  }

  function SwitchDestroyed(h: Host, b: string): Host {
    SwitchEmptied(UplinkRemoved(MgmtRemoved(h, MgmtPg(b)), UplinkPg(b)), SwitchV(b))
  }

  // ---- The host object --------------------------------------------------------------------------

  class EsxiHost {
    var vswitches: set<Name>
    var portgroups: map<Name, Name>
    var vmks: set<Name>

    ghost function Value(): Host
      reads this
    {
      Host(vswitches, portgroups, vmks)
    }

    constructor (vswitches: set<Name>, portgroups: map<Name, Name>, vmks: set<Name>)
      ensures Value() == Host(vswitches, portgroups, vmks)
    {
      this.vswitches, this.portgroups, this.vmks := vswitches, portgroups, vmks;
    }

    method AddPortgroup(pg: Name, vs: Name)
      modifies this
      ensures Value() == WithPortgroup(old(Value()), pg, vs)
    {
      if pg !in portgroups {
        portgroups := portgroups[pg := vs];
      }
    }

    method CreateSwitch(b: string, spec: Spec) returns (uplink: Option<Name>)
      modifies this
      ensures Value() == SwitchCreated(old(Value()), b, spec)
      ensures uplink == if spec.pnic.Some? then Some(UplinkPg(b)) else None
      ensures forall l: Live | Matches(old(Value()), l) && (b in l.switches ==> l.switches[b] == spec) ::
                Matches(Value(), Track(l, Op.CreateSwitch(b, spec)))
    {
      EveryApplyMatches(Value(), Op.CreateSwitch(b, spec));
      var vs := SwitchV(b);
      vswitches := vswitches + {vs};
      if spec.mgmt {
        AddPortgroup(MgmtPg(b), vs);
        vmks := vmks + {MgmtPg(b)};
      }
      if spec.pnic.None? {
        return None;
      }
      var up := UplinkV(spec.pnic.value);
      vswitches := vswitches + {up};
      AddPortgroup(UplinkPg(b), up);
      return Some(UplinkPg(b));
    }

    method CreateNetwork(n: string, b: string) returns (ok: bool)
      modifies this
      ensures ok <==> NetworkCreated(old(Value()), n, b).Some?
      ensures Value() == if ok then NetworkCreated(old(Value()), n, b).value else old(Value())
      ensures forall l: Live | Matches(old(Value()), l) :: Matches(Value(), Track(l, Op.CreateNetwork(n, b)))
    {
      EveryApplyMatches(Value(), Op.CreateNetwork(n, b));
      if NetworkPg(n) !in portgroups {
        if SwitchV(b) !in vswitches {
          return false;
        }
        AddPortgroup(NetworkPg(n), SwitchV(b));
      }
      return true;
    }

    method DestroyNetwork(n: string)
      modifies this
      ensures Value() == NetworkDestroyed(old(Value()), n)
      ensures forall l: Live | Matches(old(Value()), l) :: Matches(Value(), Track(l, Op.DestroyNetwork(n)))
    {
      EveryApplyMatches(Value(), Op.DestroyNetwork(n));
      portgroups := portgroups - {NetworkPg(n)};
    }

    /** Drop every portgroup left on a vSwitch, then the vSwitch. */
    method EmptySwitch(vs: Name)
      modifies this
      ensures Value() == SwitchEmptied(old(Value()), vs)
    {
      var todo := set g | g in portgroups && portgroups[g] == vs;
      while todo != {}
        invariant todo <= portgroups.Keys && vswitches == old(vswitches) && vmks == old(vmks)
        invariant forall g | g in portgroups :: g in old(portgroups) && portgroups[g] == old(portgroups)[g]
        invariant forall g | g in old(portgroups) :: g in portgroups || old(portgroups)[g] == vs
        invariant forall g | g in portgroups && portgroups[g] == vs :: g in todo
        invariant forall g | g in todo :: portgroups[g] == vs
        decreases todo
      {
        var g :| g in todo;
        portgroups := portgroups - {g};
        todo := todo - {g};
      }
      vswitches := vswitches - {vs};
      assert portgroups == SwitchEmptied(old(Value()), vs).portgroups;
    }

    method DestroySwitch(b: string)
      modifies this
      ensures Value() == SwitchDestroyed(old(Value()), b)
      ensures forall l: Live | Matches(old(Value()), l) :: Matches(Value(), Track(l, Op.DestroySwitch(b)))
    {
      EveryApplyMatches(Value(), Op.DestroySwitch(b));
      var mgmt, uplink := MgmtPg(b), UplinkPg(b);
      if mgmt in portgroups {
        vmks := vmks - {mgmt};
        portgroups := portgroups - {mgmt};
      }
      if uplink in portgroups {
        var up := portgroups[uplink];
        portgroups := portgroups - {uplink};
        var remaining := set g | g in portgroups && portgroups[g] == up && TrNamed(g);
        assert remaining == {} <==> !InUse(Value(), up) by {
          assert remaining != {} ==> exists g :: g in remaining;
        }
        if remaining == {} {
          vswitches := vswitches - {up};
        }
      }
      EmptySwitch(SwitchV(b));
    }
  }

  // ---- Any sequence of operations -----------------------------------------------------------------

  /** The live switches, and the switch each live network belongs to. */
  datatype Live = Live(switches: map<string, Spec>, networks: map<string, string>)

  datatype Op =
    | CreateSwitch(b: string, spec: Spec)
    | CreateNetwork(n: string, b: string)
    | DestroyNetwork(n: string)
    | DestroySwitch(b: string)

  function Apply(h: Host, op: Op): Host {
    match op
    case CreateSwitch(b, spec) => SwitchCreated(h, b, spec)
    case CreateNetwork(n, b) => (match NetworkCreated(h, n, b) case Some(h') => h' case None => h)
    case DestroyNetwork(n) => NetworkDestroyed(h, n)
    case DestroySwitch(b) => SwitchDestroyed(h, b)
  }

  /** What the caller means by it. A network dies with its switch. */
  function Track(l: Live, op: Op): Live {
    match op
    case CreateSwitch(b, spec) => l.(switches := l.switches[b := spec])
    case CreateNetwork(n, b) => if n in l.networks || b !in l.switches then l else l.(networks := l.networks[n := b])
    case DestroyNetwork(n) => l.(networks := l.networks - {n})
    case DestroySwitch(b) => Live(l.switches - {b}, map n | n in l.networks && l.networks[n] != b :: l.networks[n])
  }

  function ApplyAll(h: Host, ops: seq<Op>): Host {
    if ops == [] then h else Apply(ApplyAll(h, ops[..|ops| - 1]), ops[|ops| - 1])
  }

  function TrackAll(ops: seq<Op>): Live {
    if ops == [] then Live(map[], map[]) else Track(TrackAll(ops[..|ops| - 1]), ops[|ops| - 1])
  }

  /** A backend name always comes with the same spec. */
  ghost predicate FixedSpecs(specs: map<string, Spec>, ops: seq<Op>) {
    forall i | 0 <= i < |ops| && ops[i].CreateSwitch? :: ops[i].b in specs && specs[ops[i].b] == ops[i].spec
  }

  // ---- The host holds exactly what is live ------------------------------------------------------------

  ghost predicate Uses(l: Live, b: string, p: string) {
    b in l.switches && l.switches[b].pnic == Some(p)
  }

  /** Some live NAT switch uses the physical NIC. */
  ghost predicate Used(l: Live, p: string) {
    exists b :: Uses(l, b, p)
  }

  ghost predicate SwitchesMatch(h: Host, l: Live) {
    && (forall b :: SwitchV(b) in h.vswitches <==> b in l.switches)
    && (forall p :: UplinkV(p) in h.vswitches <==> Used(l, p))
  }

  ghost predicate MgmtMatch(h: Host, l: Live) {
    && (forall b :: MgmtPg(b) in h.portgroups <==> b in l.switches && l.switches[b].mgmt)
    && (forall b | MgmtPg(b) in h.portgroups :: h.portgroups[MgmtPg(b)] == SwitchV(b))
  }

  ghost predicate UplinksMatch(h: Host, l: Live) {
    && (forall b :: UplinkPg(b) in h.portgroups <==> b in l.switches && l.switches[b].pnic.Some?)
    && (forall b | UplinkPg(b) in h.portgroups && b in l.switches && l.switches[b].pnic.Some? ::
          h.portgroups[UplinkPg(b)] == UplinkV(l.switches[b].pnic.value))
    && (forall g | g in h.portgroups && h.portgroups[g].UplinkV? :: g.UplinkPg?)
  }

  ghost predicate NetworksMatch(h: Host, l: Live) {
    && (forall n | n in l.networks :: l.networks[n] in l.switches)
    && (forall n :: NetworkPg(n) in h.portgroups <==> n in l.networks)
    && (forall n | n in l.networks && NetworkPg(n) in h.portgroups ::
          h.portgroups[NetworkPg(n)] == SwitchV(l.networks[n]))
  }

  ghost predicate Matches(h: Host, l: Live) {
    SwitchesMatch(h, l) && MgmtMatch(h, l) && UplinksMatch(h, l) && NetworksMatch(h, l)
  }

  /** A host none of whose objects carries one of the run's names. */
  ghost predicate Clean(h: Host) {
    && (forall v | v in h.vswitches :: v.Foreign?)
    && (forall g | g in h.portgroups :: g.Foreign? && h.portgroups[g].Foreign?)
  }

  lemma CleanMatches(h: Host)
    requires Clean(h)
    ensures Matches(h, Live(map[], map[]))
  {
  }

  // Creating a switch.

  lemma CreatedEffect(h: Host, b: string, spec: Spec)
    ensures var h' := SwitchCreated(h, b, spec);
            && h'.vswitches == h.vswitches + {SwitchV(b)} + (if spec.pnic.Some? then {UplinkV(spec.pnic.value)} else {})
            && (forall g :: g in h'.portgroups <==>
                  g in h.portgroups || (spec.mgmt && g == MgmtPg(b)) || (spec.pnic.Some? && g == UplinkPg(b)))
            && (forall g | g in h.portgroups :: h'.portgroups[g] == h.portgroups[g])
            && (forall g | g in h'.portgroups && g !in h.portgroups ::
                  if g.MgmtPg? then h'.portgroups[g] == SwitchV(b)
                  else spec.pnic.Some? && h'.portgroups[g] == UplinkV(spec.pnic.value))
  {
  }

  lemma CreateSwitches(h: Host, l: Live, b: string, spec: Spec)
    requires SwitchesMatch(h, l) && (b in l.switches ==> l.switches[b] == spec)
    ensures SwitchesMatch(SwitchCreated(h, b, spec), Track(l, Op.CreateSwitch(b, spec)))
  {
    var l' := Track(l, Op.CreateSwitch(b, spec));
    CreatedEffect(h, b, spec);
    forall p ensures Used(l', p) <==> Used(l, p) || spec.pnic == Some(p) {
      assert Uses(l', b, p) <==> spec.pnic == Some(p);
      assert forall c | c != b :: Uses(l', c, p) <==> Uses(l, c, p);
    }
  }

  lemma CreateMgmt(h: Host, l: Live, b: string, spec: Spec)
    requires MgmtMatch(h, l) && (b in l.switches ==> l.switches[b] == spec)
    ensures MgmtMatch(SwitchCreated(h, b, spec), Track(l, Op.CreateSwitch(b, spec)))
  {
    CreatedEffect(h, b, spec);
  }

  lemma CreateUplinks(h: Host, l: Live, b: string, spec: Spec)
    requires UplinksMatch(h, l) && (b in l.switches ==> l.switches[b] == spec)
    ensures UplinksMatch(SwitchCreated(h, b, spec), Track(l, Op.CreateSwitch(b, spec)))
  {
    CreatedEffect(h, b, spec);
    UplinksAfter(h, SwitchCreated(h, b, spec), l, b, spec);
  }

  lemma UplinksAfter(h: Host, h': Host, l: Live, b: string, spec: Spec)
    requires UplinksMatch(h, l) && (b in l.switches ==> l.switches[b] == spec)
    requires forall g :: g in h'.portgroups <==>
               g in h.portgroups || (spec.mgmt && g == MgmtPg(b)) || (spec.pnic.Some? && g == UplinkPg(b))
    requires forall g | g in h.portgroups :: h'.portgroups[g] == h.portgroups[g]
    requires forall g | g in h'.portgroups && g !in h.portgroups ::
               if g.MgmtPg? then h'.portgroups[g] == SwitchV(b)
               else spec.pnic.Some? && h'.portgroups[g] == UplinkV(spec.pnic.value)
    ensures UplinksMatch(h', Track(l, Op.CreateSwitch(b, spec)))
  {
  }

  lemma CreateKeepsNetworks(h: Host, l: Live, b: string, spec: Spec)
    requires NetworksMatch(h, l)
    ensures NetworksMatch(SwitchCreated(h, b, spec), Track(l, Op.CreateSwitch(b, spec)))
  {
    CreatedEffect(h, b, spec);
  }

  // Destroying a switch.

  /** Another live switch uses the NIC. */
  ghost predicate Shared(l: Live, b: string, p: string) {
    exists c :: c != b && Uses(l, c, p)
  }

  lemma InUseMeansShared(h: Host, l: Live, b: string, p: string)
    requires UplinksMatch(h, l)
    ensures InUse(h.(portgroups := h.portgroups - {UplinkPg(b)}), UplinkV(p)) <==> Shared(l, b, p)
  {
    var h1, up := h.(portgroups := h.portgroups - {UplinkPg(b)}), UplinkV(p);
    if InUse(h1, up) {
      var g :| g in h1.portgroups && h1.portgroups[g] == up && TrNamed(g);
      assert g == UplinkPg(g.backend) && Uses(l, g.backend, p);
    }
    if Shared(l, b, p) {
      var c :| c != b && Uses(l, c, p);
      assert UplinkPg(c) in h1.portgroups && h1.portgroups[UplinkPg(c)] == up;
    }
  }

  /** The management portgroup is not on an uplink vSwitch. */
  lemma MgmtRemovedKeeps(h: Host, l: Live, b: string)
    requires UplinksMatch(h, l)
    ensures UplinksMatch(MgmtRemoved(h, MgmtPg(b)), l)
  {
  }

  lemma UplinkRemovedEffect(h: Host, l: Live, b: string)
    requires UplinksMatch(h, l)
    ensures var h' := UplinkRemoved(h, UplinkPg(b));
            && h'.portgroups == h.portgroups - {UplinkPg(b)}
            && h'.vswitches == h.vswitches -
                 (if b in l.switches && l.switches[b].pnic.Some? && !Shared(l, b, l.switches[b].pnic.value)
                  then {UplinkV(l.switches[b].pnic.value)} else {})
  {
    if b in l.switches && l.switches[b].pnic.Some? {
      InUseMeansShared(h, l, b, l.switches[b].pnic.value);
    }
  }

  /** What a destroy removes: the switch's own portgroups and vSwitch, and the uplink vSwitch
      when no other live switch uses it. */
  lemma DestroyedEffect(h: Host, l: Live, b: string)
    requires UplinksMatch(h, l)
    ensures var h' := SwitchDestroyed(h, b);
            && (forall g :: g in h'.portgroups <==>
                  g in h.portgroups && g != MgmtPg(b) && g != UplinkPg(b) && h.portgroups[g] != SwitchV(b))
            && (forall g | g in h'.portgroups :: h'.portgroups[g] == h.portgroups[g])
            && h'.vswitches == h.vswitches -
                 (if b in l.switches && l.switches[b].pnic.Some? && !Shared(l, b, l.switches[b].pnic.value)
                  then {UplinkV(l.switches[b].pnic.value)} else {}) - {SwitchV(b)}
  {
    MgmtRemovedKeeps(h, l, b);
    UplinkRemovedEffect(MgmtRemoved(h, MgmtPg(b)), l, b);
  }

  lemma DestroySwitches(h: Host, l: Live, b: string)
    requires SwitchesMatch(h, l) && UplinksMatch(h, l)
    ensures SwitchesMatch(SwitchDestroyed(h, b), Track(l, Op.DestroySwitch(b)))
  {
    var l' := Track(l, Op.DestroySwitch(b));
    DestroyedEffect(h, l, b);
    forall p ensures Used(l', p) <==> Shared(l, b, p) {
      assert forall c :: Uses(l', c, p) <==> c != b && Uses(l, c, p);
    }
    forall p ensures Used(l, p) <==> Shared(l, b, p) || Uses(l, b, p) {
    }
  }

  lemma DestroyMgmt(h: Host, l: Live, b: string)
    requires MgmtMatch(h, l) && UplinksMatch(h, l)
    ensures MgmtMatch(SwitchDestroyed(h, b), Track(l, Op.DestroySwitch(b)))
  {
    DestroyedEffect(h, l, b);
  }

  lemma DestroyUplinks(h: Host, l: Live, b: string)
    requires UplinksMatch(h, l)
    ensures UplinksMatch(SwitchDestroyed(h, b), Track(l, Op.DestroySwitch(b)))
  {
    DestroyedEffect(h, l, b);
  }

  lemma DestroyNetworks(h: Host, l: Live, b: string)
    requires UplinksMatch(h, l) && NetworksMatch(h, l)
    ensures NetworksMatch(SwitchDestroyed(h, b), Track(l, Op.DestroySwitch(b)))
  {
    DestroyedEffect(h, l, b);
    NetworksAfter(h, SwitchDestroyed(h, b), l, b);
  }

  lemma NetworksAfter(h: Host, h': Host, l: Live, b: string)
    requires NetworksMatch(h, l)
    requires forall g :: g in h'.portgroups <==>
               g in h.portgroups && g != MgmtPg(b) && g != UplinkPg(b) && h.portgroups[g] != SwitchV(b)
    requires forall g | g in h'.portgroups :: h'.portgroups[g] == h.portgroups[g]
    ensures NetworksMatch(h', Track(l, Op.DestroySwitch(b)))
  {
  }

  // Networks.

  lemma NetworkKeepsSwitches(h: Host, l: Live, op: Op)
    requires SwitchesMatch(h, l) && MgmtMatch(h, l) && UplinksMatch(h, l) && (op.CreateNetwork? || op.DestroyNetwork?)
    ensures var h', l' := Apply(h, op), Track(l, op);
            SwitchesMatch(h', l') && MgmtMatch(h', l') && UplinksMatch(h', l')
  {
    var l' := Track(l, op);
    assert l'.switches == l.switches;
    forall p ensures Used(l', p) <==> Used(l, p) {
      assert forall c :: Uses(l', c, p) <==> Uses(l, c, p);
    }
  }

  lemma NetworkMatches(h: Host, l: Live, op: Op)
    requires SwitchesMatch(h, l) && NetworksMatch(h, l) && (op.CreateNetwork? || op.DestroyNetwork?)
    ensures NetworksMatch(Apply(h, op), Track(l, op))
  {
  }

  lemma ApplyMatches(h: Host, l: Live, op: Op)
    requires Matches(h, l) && (op.CreateSwitch? && op.b in l.switches ==> l.switches[op.b] == op.spec)
    ensures Matches(Apply(h, op), Track(l, op))
  {
    match op
    case CreateSwitch(b, spec) =>
      CreateSwitches(h, l, b, spec);
      CreateMgmt(h, l, b, spec);
      CreateUplinks(h, l, b, spec);
      CreateKeepsNetworks(h, l, b, spec);
    case DestroySwitch(b) =>
      DestroySwitches(h, l, b);
      DestroyMgmt(h, l, b);
      DestroyUplinks(h, l, b);
      DestroyNetworks(h, l, b);
    case CreateNetwork(_, _) =>
      NetworkKeepsSwitches(h, l, op);
      NetworkMatches(h, l, op);
    case DestroyNetwork(_) =>
      NetworkKeepsSwitches(h, l, op);
      NetworkMatches(h, l, op);
  }

  lemma EveryApplyMatches(h: Host, op: Op)
    ensures forall l: Live |
              Matches(h, l) && (op.CreateSwitch? && op.b in l.switches ==> l.switches[op.b] == op.spec) ::
              Matches(Apply(h, op), Track(l, op))
  {
    forall l: Live | Matches(h, l) && (op.CreateSwitch? && op.b in l.switches ==> l.switches[op.b] == op.spec)
      ensures Matches(Apply(h, op), Track(l, op))
    {
      ApplyMatches(h, l, op);
    }
  }

  /** After any sequence of completed operations on a clean host, the host holds exactly what
      the live switches and networks need. */
  lemma {:induction false} HostMatches(specs: map<string, Spec>, h: Host, ops: seq<Op>)
    requires Clean(h) && FixedSpecs(specs, ops)
    ensures Matches(ApplyAll(h, ops), TrackAll(ops))
    ensures forall b | b in TrackAll(ops).switches :: b in specs && specs[b] == TrackAll(ops).switches[b]
  {
    if ops == [] {
      CleanMatches(h);
    } else {
      var front := ops[..|ops| - 1];
      HostMatches(specs, h, front);
      ApplyMatches(ApplyAll(h, front), TrackAll(front), ops[|ops| - 1]);
    }
  }

  /** The shared uplink vSwitch of a physical NIC exists exactly while some live NAT switch
      uses that NIC. */
  lemma UplinkSwitchExactly(specs: map<string, Spec>, h: Host, ops: seq<Op>, p: string)
    requires Clean(h) && FixedSpecs(specs, ops)
    ensures UplinkV(p) in ApplyAll(h, ops).vswitches <==> Used(TrackAll(ops), p)
  {
    HostMatches(specs, h, ops);
  }

  /** Destroying one switch leaves every other live switch's vSwitch, uplink vSwitch, uplink
      and management portgroups and networks alone, and every object that is not the run's. */
  lemma DestroyFramesOthers(specs: map<string, Spec>, h: Host, ops: seq<Op>, b: string, c: string)
    requires Clean(h) && FixedSpecs(specs, ops) && c in TrackAll(ops).switches && c != b
    ensures Framed(ApplyAll(h, ops), SwitchDestroyed(ApplyAll(h, ops), b), TrackAll(ops), b, c)
  {
    HostMatches(specs, h, ops);
    FrameAll(ApplyAll(h, ops), TrackAll(ops), b, c);
  }

  lemma FrameAll(h: Host, l: Live, b: string, c: string)
    requires SwitchesMatch(h, l) && UplinksMatch(h, l) && c in l.switches && c != b
    ensures Framed(h, SwitchDestroyed(h, b), l, b, c)
  {
    FrameSwitches(h, l, b, c);
    DestroyedEffect(h, l, b);
  }

  ghost predicate Framed(before: Host, after: Host, l: Live, b: string, c: string) {
    && SwitchV(c) in after.vswitches
    && (c in l.switches && l.switches[c].pnic.Some? ==> UplinkV(l.switches[c].pnic.value) in after.vswitches)
    && (forall v | v in before.vswitches && v.Foreign? :: v in after.vswitches)
    && (forall g | g in before.portgroups && g != MgmtPg(b) && g != UplinkPg(b) && before.portgroups[g] != SwitchV(b) ::
          g in after.portgroups && after.portgroups[g] == before.portgroups[g])
  }

  lemma FrameSwitches(h: Host, l: Live, b: string, c: string)
    requires SwitchesMatch(h, l) && UplinksMatch(h, l) && c in l.switches && c != b
    ensures var after := SwitchDestroyed(h, b);
            && SwitchV(c) in after.vswitches
            && (l.switches[c].pnic.Some? ==> UplinkV(l.switches[c].pnic.value) in after.vswitches)
  {
    DestroySwitches(h, l, b);
    var l' := Track(l, Op.DestroySwitch(b));
    assert c in l'.switches;
    if l.switches[c].pnic.Some? {
      assert Uses(l', c, l.switches[c].pnic.value);
    }
  }
}
