/** Static-address validation: every NIC of a plan against the switch that owns its network. */
module Addressing {
  import opened Wrappers

  const SIDECAR_OFFSET := 1
  const MGMT_OFFSET := 2
  const DHCP_RANGE_LO := 10
  const DHCP_RANGE_HI := 99

  /** An IPv4 address as its number. */
  type Ip = nat

  datatype Sidecar = Sidecar(dhcp: bool, dns: bool, masquerades: bool)

  /** `size` is the number of addresses in the subnet; a /24 or larger has at least 256. */
  datatype Switch = Switch(
    name: string, networks: seq<string>, network: Ip, size: nat, mgmt: bool, sidecar: Option<Sidecar>)
  {
    predicate Contains(a: Ip) {
      network <= a < network + size
    }

    function Broadcast(): int {
      network + size - 1
    }

    predicate ServesDhcp() {
      sidecar.Some? && sidecar.value.dhcp
    }

    /** The `dhcp-range` written for dnsmasq. */
    function DhcpRange(): (int, int) {
      (network + DHCP_RANGE_LO, network + DHCP_RANGE_HI)
    }
  }

  datatype Addr = Unconfigured | Dhcp | Static(host: Ip)

  datatype Nic = Nic(network: string, addr: Addr)

  datatype Vm = Vm(name: string, nics: seq<Nic>)

  /** Where a NIC was declared. */
  datatype Origin = Origin(vm: string, index: nat, nic: Nic)

  datatype Reason =
    | UnknownNetwork | NotInSubnet | NetworkAddress | BroadcastAddress
    | SidecarSlot | MgmtSlot | InDhcpPool | Duplicate(prior: Origin)

  datatype Problem = Problem(origin: Origin, reason: Reason)

  /** `switch_for`: the first declared switch with that network. */
  function SwitchFor(switches: seq<Switch>, network: string): Option<Switch> {
    if switches == [] then None
    else if network in switches[0].networks then Some(switches[0])
    else SwitchFor(switches[1..], network)
  }

  /** What is wrong with a static address on its own. */
  function Fault(s: Switch, a: Ip): Option<Reason> {
    if !s.Contains(a) then Some(NotInSubnet)
    else if a == s.network then Some(NetworkAddress)
    else if a == s.Broadcast() then Some(BroadcastAddress)
    else if s.sidecar.Some? && a == s.network + SIDECAR_OFFSET then Some(SidecarSlot)
    else if s.mgmt && a == s.network + MGMT_OFFSET then Some(MgmtSlot)
    else if s.ServesDhcp() && s.DhcpRange().0 <= a <= s.DhcpRange().1 then Some(InDhcpPool)
    else None
  }

  /** Which reason is given for which address: offset 1 for a sidecar, 2 for management and 10
      to 99 for DHCP leases; the subnet and its two end addresses come first. */
  lemma FaultIs(s: Switch, a: Ip)
    ensures var inside := s.network <= a < s.network + s.size;
            var host := inside && a != s.network && a != s.network + s.size - 1;
            var fault := Fault(s, a);
            && (fault == Some(NotInSubnet) <==> !inside)
            && (fault == Some(NetworkAddress) <==> inside && a == s.network)
            && (fault == Some(BroadcastAddress) <==> inside && a != s.network && a == s.network + s.size - 1)
            && (fault == Some(SidecarSlot) <==> host && s.sidecar.Some? && a == s.network + 1)
            && (fault == Some(MgmtSlot) <==> host && s.mgmt && a == s.network + 2)
            && (fault == Some(InDhcpPool) <==>
                  host && s.sidecar.Some? && s.sidecar.value.dhcp && s.network + 10 <= a <= s.network + 99)
            && (fault.None? <==>
                  && host && !(s.sidecar.Some? && a == s.network + 1) && !(s.mgmt && a == s.network + 2)
                  && !(s.sidecar.Some? && s.sidecar.value.dhcp && s.network + 10 <= a <= s.network + 99))
  {
  }

  // ---- The walk, on values -------------------------------------------------------------------

  /** Addresses taken so far, by switch name. */
  type Seen = map<(string, Ip), Origin>

  datatype Walked = Walked(problems: seq<Problem>, seen: Seen)

  function Visit(switches: seq<Switch>, w: Walked, o: Origin): Walked {
    var s := SwitchFor(switches, o.nic.network);
    if s.None? then w.(problems := w.problems + [Problem(o, UnknownNetwork)])
    else if !o.nic.addr.Static? then w
    else
      var a := o.nic.addr.host;
      var fault, key := Fault(s.value, a), (s.value.name, a);
      if fault.Some? then w.(problems := w.problems + [Problem(o, fault.value)])
      else if key in w.seen then w.(problems := w.problems + [Problem(o, Duplicate(w.seen[key]))])
      else w.(seen := w.seen[key := o])
  }

  function Walk(switches: seq<Switch>, os: seq<Origin>): Walked {
    if os == [] then Walked([], map[])
    else Visit(switches, Walk(switches, os[..|os| - 1]), os[|os| - 1])
  }

  function NicsFrom(v: Vm, count: nat): (os: seq<Origin>)
    requires count <= |v.nics|
    ensures |os| == count && forall i | 0 <= i < count :: os[i] == Origin(v.name, i, v.nics[i])
  {
    seq(count, i requires 0 <= i < count => Origin(v.name, i, v.nics[i]))
  }

  /** Every NIC of the plan, in declaration order. */
  function AllNics(vms: seq<Vm>): seq<Origin> {
    if vms == [] then [] else AllNics(vms[..|vms| - 1]) + NicsFrom(vms[|vms| - 1], |vms[|vms| - 1].nics|)
  }

  lemma WalkSnoc(switches: seq<Switch>, os: seq<Origin>, o: Origin)
    ensures Walk(switches, os + [o]) == Visit(switches, Walk(switches, os), o)
  {
    assert (os + [o])[..|os + [o]| - 1] == os;
  }

  method CheckNic(switches: seq<Switch>, before: seq<Problem>, taken: Seen, o: Origin)
    returns (problems: seq<Problem>, seen: Seen)
    ensures Walked(problems, seen) == Visit(switches, Walked(before, taken), o)
  {
    problems, seen := before, taken;
    var owner := SwitchFor(switches, o.nic.network);
    if owner.None? {
      problems := problems + [Problem(o, UnknownNetwork)];
      return;
    }
    if !o.nic.addr.Static? {
      return;
    }
    var a := o.nic.addr.host;
    var fault := Fault(owner.value, a);
    if fault.Some? {
      problems := problems + [Problem(o, fault.value)];
      return;
    }
    var key := (owner.value.name, a);
    if key in seen {
      problems := problems + [Problem(o, Duplicate(seen[key]))];
      return;
    }
    seen := seen[key := o];
  }

  /** Collects every problem of the plan in one pass; the plan is accepted when there is none. */
  method ValidateAddressing(switches: seq<Switch>, vms: seq<Vm>) returns (problems: seq<Problem>)
    ensures problems == Walk(switches, AllNics(vms)).problems
    ensures problems == [] <==> AllFine(switches, AllNics(vms))
  {
    problems := [];
    var seen: Seen := map[];
    for v := 0 to |vms|
      invariant Walked(problems, seen) == Walk(switches, AllNics(vms[..v]))
    {
      var vm := vms[v];
      ghost var before := AllNics(vms[..v]);
      assert before + NicsFrom(vm, 0) == before;
      for i := 0 to |vm.nics|
        invariant Walked(problems, seen) == Walk(switches, before + NicsFrom(vm, i))
      {
        var o := Origin(vm.name, i, vm.nics[i]);
        assert before + NicsFrom(vm, i + 1) == (before + NicsFrom(vm, i)) + [o];
        WalkSnoc(switches, before + NicsFrom(vm, i), o);
        problems, seen := CheckNic(switches, problems, seen, o);
      }
      assert vms[..v + 1][..v] == vms[..v];
    }
    assert vms[..|vms|] == vms;
    WalkExactly(switches, AllNics(vms));
  }

  // ---- Exactly what is accepted -------------------------------------------------------------------

  /** A static address that is free for guests on its switch. */
  predicate Allowed(s: Switch, a: Ip) {
    && s.Contains(a) && a != s.network && a != s.Broadcast()
    && (s.sidecar.Some? ==> a != s.network + SIDECAR_OFFSET)
    && (s.mgmt ==> a != s.network + MGMT_OFFSET)
    && (s.ServesDhcp() ==> a < s.DhcpRange().0 || s.DhcpRange().1 < a)
  }

  ghost predicate NicFine(switches: seq<Switch>, o: Origin) {
    var s := SwitchFor(switches, o.nic.network);
    s.Some? && (o.nic.addr.Static? ==> Allowed(s.value, o.nic.addr.host))
  }

  /** Two statics that would meet on one wire, as the validator tells wires apart. */
  ghost predicate Collide(switches: seq<Switch>, o: Origin, p: Origin) {
    var s, t := SwitchFor(switches, o.nic.network), SwitchFor(switches, p.nic.network);
    s.Some? && t.Some? && s.value.name == t.value.name && o.nic.addr.Static? && p.nic.addr == o.nic.addr
  }

  ghost predicate AllFine(switches: seq<Switch>, os: seq<Origin>) {
    && (forall i | 0 <= i < |os| :: NicFine(switches, os[i]))
    && (forall i, j | 0 <= i < j < |os| :: !Collide(switches, os[i], os[j]))
  }

  ghost predicate Taken(switches: seq<Switch>, os: seq<Origin>, key: (string, Ip)) {
    exists i :: 0 <= i < |os| && Occupies(switches, os[i], key)
  }

  ghost predicate Occupies(switches: seq<Switch>, o: Origin, key: (string, Ip)) {
    var s := SwitchFor(switches, o.nic.network);
    s.Some? && s.value.name == key.0 && o.nic.addr == Static(key.1)
  }

  lemma VisitOnce(switches: seq<Switch>, w: Walked, o: Origin)
    ensures w.problems != [] ==> Visit(switches, w, o).problems != []
    ensures w.problems == [] ==>
              (Visit(switches, w, o).problems == [] <==>
               && NicFine(switches, o)
               && (o.nic.addr.Static? ==> (SwitchFor(switches, o.nic.network).value.name, o.nic.addr.host) !in w.seen))
  {
  }

  lemma {:induction false} WalkExactly(switches: seq<Switch>, os: seq<Origin>)
    ensures Walk(switches, os).problems == [] <==> AllFine(switches, os)
    ensures AllFine(switches, os) ==> forall key :: key in Walk(switches, os).seen <==> Taken(switches, os, key)
  {
    if os != [] {
      var front, o := os[..|os| - 1], os[|os| - 1];
      var w := Walk(switches, front);
      WalkExactly(switches, front);
      VisitOnce(switches, w, o);
      assert os == front + [o];
      if AllFine(switches, os) {
        FrontFine(switches, os);
        NewKeyFree(switches, front, o);
        SeenGrows(switches, front, o);
      } else if AllFine(switches, front) && NicFine(switches, o) {
        var i :| 0 <= i < |front| && Collide(switches, front[i], o);
        var key := (SwitchFor(switches, o.nic.network).value.name, o.nic.addr.host);
        assert Occupies(switches, front[i], key);
      }
    }
  }

  lemma FrontFine(switches: seq<Switch>, os: seq<Origin>)
    requires os != [] && AllFine(switches, os)
    ensures AllFine(switches, os[..|os| - 1]) && NicFine(switches, os[|os| - 1])
    ensures forall i | 0 <= i < |os| - 1 :: !Collide(switches, os[i], os[|os| - 1])
  {
  }

  lemma NewKeyFree(switches: seq<Switch>, front: seq<Origin>, o: Origin)
    requires NicFine(switches, o) && forall i | 0 <= i < |front| :: !Collide(switches, front[i], o)
    ensures o.nic.addr.Static? ==>
              !Taken(switches, front, (SwitchFor(switches, o.nic.network).value.name, o.nic.addr.host))
  {
    if o.nic.addr.Static? {
      var key := (SwitchFor(switches, o.nic.network).value.name, o.nic.addr.host);
      forall i | 0 <= i < |front| ensures !Occupies(switches, front[i], key) {
        assert !Collide(switches, front[i], o);
      }
    }
  }

  lemma SeenGrows(switches: seq<Switch>, front: seq<Origin>, o: Origin)
    ensures forall key ::
              Taken(switches, front + [o], key) <==> Taken(switches, front, key) || Occupies(switches, o, key)
  {
    var os := front + [o];
    forall key ensures Taken(switches, os, key) <==> Taken(switches, front, key) || Occupies(switches, o, key) {
      if Taken(switches, front, key) {
        var i :| 0 <= i < |front| && Occupies(switches, front[i], key);
        assert Occupies(switches, os[i], key);
      }
      if Occupies(switches, o, key) {
        assert Occupies(switches, os[|front|], key);
      }
      if Taken(switches, os, key) && !Occupies(switches, o, key) {
        var i :| 0 <= i < |os| && Occupies(switches, os[i], key);
        assert Occupies(switches, front[i], key);
      }
    }
  }

  // ---- Exactly what is reported -----------------------------------------------------------------

  /** NIC `i` rightfully holds that address: on a switch of that name, with no fault of its own. */
  ghost predicate Claims(switches: seq<Switch>, o: Origin, key: (string, Ip)) {
    Occupies(switches, o, key) && Fault(SwitchFor(switches, o.nic.network).value, key.1).None?
  }

  ghost predicate FirstClaim(switches: seq<Switch>, os: seq<Origin>, i: nat, key: (string, Ip)) {
    i < |os| && Claims(switches, os[i], key) && forall j | 0 <= j < i :: !Claims(switches, os[j], key)
  }

  /** What the walk remembers is who claimed an address first. */
  lemma {:induction false} SeenIsFirstClaim(switches: seq<Switch>, os: seq<Origin>, key: (string, Ip))
    ensures var seen := Walk(switches, os).seen;
            && (key in seen <==> exists i: nat :: FirstClaim(switches, os, i, key))
            && (forall i: nat | FirstClaim(switches, os, i, key) :: seen[key] == os[i])
  {
    if os != [] {
      var n := |os| - 1;
      var front, o := os[..n], os[n];
      SeenIsFirstClaim(switches, front, key);
      assert forall i: nat | i < n ::
          FirstClaim(switches, front, i, key) <==> FirstClaim(switches, os, i, key);
      if key in Walk(switches, front).seen {
        var i: nat :| FirstClaim(switches, front, i, key);
        assert FirstClaim(switches, os, i, key);
      } else {
        NobodyClaims(switches, front, key);
        assert FirstClaim(switches, os, n, key) <==> Claims(switches, o, key);
      }
    }
  }

  lemma {:induction false} NobodyClaims(switches: seq<Switch>, os: seq<Origin>, key: (string, Ip))
    requires forall i: nat :: !FirstClaim(switches, os, i, key)
    ensures forall j | 0 <= j < |os| :: !Claims(switches, os[j], key)
  {
    if os != [] {
      var n := |os| - 1;
      assert forall i: nat | i < n ::
          FirstClaim(switches, os[..n], i, key) <==> FirstClaim(switches, os, i, key);
      NobodyClaims(switches, os[..n], key);
      assert !FirstClaim(switches, os, n, key);
    }
  }

  /** The complaint about the NIC declared after `front`, if there is one: an unknown network,
      a fault of its own, or the first NIC that claimed its address before. */
  ghost predicate Complaint(switches: seq<Switch>, front: seq<Origin>, o: Origin, reason: Reason) {
    var s := SwitchFor(switches, o.nic.network);
    if s.None? then reason == UnknownNetwork
    else if !o.nic.addr.Static? then false
    else if Fault(s.value, o.nic.addr.host).Some? then reason == Fault(s.value, o.nic.addr.host).value
    else
      exists i: nat ::
        FirstClaim(switches, front, i, (s.value.name, o.nic.addr.host)) && reason == Duplicate(front[i])
  }

  /** The walk adds one problem for the next NIC exactly when there is a complaint about it,
      and that complaint is its reason. */
  lemma WalkReports(switches: seq<Switch>, front: seq<Origin>, o: Origin)
    ensures var before, after := Walk(switches, front).problems, Walk(switches, front + [o]).problems;
            && (forall reason | Complaint(switches, front, o, reason) :: after == before + [Problem(o, reason)])
            && ((forall reason :: !Complaint(switches, front, o, reason)) ==> after == before)
  {
    WalkSnoc(switches, front, o);
    var s := SwitchFor(switches, o.nic.network);
    if s.Some? && o.nic.addr.Static? {
      var key := (s.value.name, o.nic.addr.host);
      SeenIsFirstClaim(switches, front, key);
      if Fault(s.value, o.nic.addr.host).None? && key in Walk(switches, front).seen {
        var i: nat :| FirstClaim(switches, front, i, key);
        assert Complaint(switches, front, o, Duplicate(front[i]));
      } else if Fault(s.value, o.nic.addr.host).Some? {
        assert Complaint(switches, front, o, Fault(s.value, o.nic.addr.host).value);
      }
    } else if s.None? {
      assert Complaint(switches, front, o, UnknownNetwork);
    }
  }

  ghost predicate UniqueNames(switches: seq<Switch>) {
    forall s, t | s in switches && t in switches && s.name == t.name :: s == t
  }

  /** Two statics on one switch, whatever its networks, with the same address. */
  ghost predicate SameWire(switches: seq<Switch>, o: Origin, p: Origin) {
    && SwitchFor(switches, o.nic.network).Some?
    && SwitchFor(switches, o.nic.network) == SwitchFor(switches, p.nic.network)
    && o.nic.addr.Static? && p.nic.addr == o.nic.addr
  }

  lemma {:induction false} SwitchForFound(switches: seq<Switch>, network: string)
    ensures SwitchFor(switches, network).Some? ==>
              SwitchFor(switches, network).value in switches && network in SwitchFor(switches, network).value.networks
    ensures SwitchFor(switches, network).None? ==> forall s | s in switches :: network !in s.networks
  {
    if switches != [] && network !in switches[0].networks {
      SwitchForFound(switches[1..], network);
    }
  }

  /** With unique switch names: accepted exactly when every NIC is on a declared network,
      every static address is in its subnet and is not the network, broadcast, active
      sidecar or active management address nor in an active DHCP range, and no two statics
      on one switch are equal. */
  lemma AcceptedExactly(switches: seq<Switch>, vms: seq<Vm>)
    requires UniqueNames(switches)
    ensures var os := AllNics(vms);
            Walk(switches, os).problems == [] <==>
              && (forall i | 0 <= i < |os| :: NicFine(switches, os[i]))
              && (forall i, j | 0 <= i < j < |os| :: !SameWire(switches, os[i], os[j]))
  {
    var os := AllNics(vms);
    WalkExactly(switches, os);
    forall i, j | 0 <= i < j < |os| ensures Collide(switches, os[i], os[j]) <==> SameWire(switches, os[i], os[j]) {
      SwitchForFound(switches, os[i].nic.network);
      SwitchForFound(switches, os[j].nic.network);
    }
  }

  /** No accepted static falls in the `dhcp-range` that is rendered for its switch, and the
      whole range lies inside the subnet. */
  lemma NoStaticInDhcpRange(switches: seq<Switch>, vms: seq<Vm>, i: nat)
    requires Walk(switches, AllNics(vms)).problems == [] && i < |AllNics(vms)| && AllNics(vms)[i].nic.addr.Static?
    ensures var s := SwitchFor(switches, AllNics(vms)[i].nic.network);
            && s.Some?
            && (s.value.ServesDhcp() ==>
                  var a := AllNics(vms)[i].nic.addr.host;
                  !(s.value.DhcpRange().0 <= a <= s.value.DhcpRange().1))
            && (s.value.size >= 256 ==>
                  s.value.Contains(s.value.DhcpRange().0) && s.value.Contains(s.value.DhcpRange().1))
  {
    WalkExactly(switches, AllNics(vms));
    assert NicFine(switches, AllNics(vms)[i]);
  }

  /** Without unique switch names two different wires are taken for one. */
  lemma SharedNameRefusesTwoWires(name: string, net: Ip)
    ensures var a := Switch(name, ["a"], net, 256, false, None);
            var b := Switch(name, ["b"], net, 256, false, None);
            var os := [Origin("x", 0, Nic("a", Static(net + 100))), Origin("y", 0, Nic("b", Static(net + 100)))];
            && SwitchFor([a, b], "a") != SwitchFor([a, b], "b")
            && Walk([a, b], os).problems != []
  {
    var a, b := Switch(name, ["a"], net, 256, false, None), Switch(name, ["b"], net, 256, false, None);
    var os := [Origin("x", 0, Nic("a", Static(net + 100))), Origin("y", 0, Nic("b", Static(net + 100)))];
    assert [a, b][1..] == [b];
    assert "a" in a.networks && "b" in b.networks && "b" !in a.networks;
    WalkExactly([a, b], os);
    assert Collide([a, b], os[0], os[1]);
  }
}
