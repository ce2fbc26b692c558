/** What each hook does, exactly: the resources it records, creates and confirms, the entries
    it looks up and leaves behind; and what the build phase leaves on the backend and in the
    ledger when no call fails.
 */
module HookEffects {
  import opened Wrappers
  import opened Ledger
  import opened Actions
  import opened RunLookups
  import opened Plans
  import opened Hooks
  import opened HookSafety

  // ---- Profiles ---------------------------------------------------------------------------

  /** The resources a program brings up, the keys it looks up and the keys it enters. */
  datatype Profile = Profile(names: set<string>, gets: set<Key>, puts: set<Key>)

  const NOTHING := Profile({}, {}, {})

  function Join(f: Profile, g: Profile): Profile {
    Profile(f.names + g.names, f.gets + g.gets, f.puts + g.puts)
  }

  /** The same, step by step. */
  datatype Tally = Tally(
    records: set<string>, creates: set<string>, confirms: set<string>, gets: set<Key>, puts: set<Key>)

  function TallyOne(a: Action): Tally {
    Tally(if a.Record? then {a.r.backendName} else {}, if a.Create? then {a.name} else {},
          if a.Confirm? then {a.name} else {}, if a.Get? then {a.key} else {}, if a.Put? then {a.key} else {})
  }

  function Add(s: Tally, t: Tally): Tally {
    Tally(s.records + t.records, s.creates + t.creates, s.confirms + t.confirms, s.gets + t.gets, s.puts + t.puts)
  }

  function TallyOf(p: Program): Tally {
    if p == [] then Tally({}, {}, {}, {}, {}) else Add(TallyOne(p[0]), TallyOf(p[1..]))
  }

  lemma AddAssociates(s: Tally, t: Tally, u: Tally)
    ensures Add(s, Add(t, u)) == Add(Add(s, t), u)
  {
  }

  lemma AddNothing(t: Tally)
    ensures Add(Tally({}, {}, {}, {}, {}), t) == t
  {
  }

  lemma {:induction false} TallyConcat(p: Program, q: Program)
    ensures TallyOf(p + q) == Add(TallyOf(p), TallyOf(q))
  {
    if p == [] {
      assert p + q == q;
      AddNothing(TallyOf(q));
    } else {
      assert (p + q)[0] == p[0] && (p + q)[1..] == p[1..] + q;
      TallyConcat(p[1..], q);
      AddAssociates(TallyOne(p[0]), TallyOf(p[1..]), TallyOf(q));
    }
  }

  ghost function Records(p: Program): set<string> {
    set a | a in p && a.Record? :: a.r.backendName
  }

  ghost function Confirms(p: Program): set<string> {
    set a | a in p && a.Confirm? :: a.name
  }

  ghost function Gets(p: Program): set<Key> {
    set a | a in p && a.Get? :: a.key
  }

  lemma {:induction false} TallyIs(p: Program)
    ensures TallyOf(p) == Tally(Records(p), Creates(p), Confirms(p), Gets(p), Puts(p))
  {
    if p != [] {
      TallyIs(p[1..]);
      assert p[0] in p && forall a :: a in p <==> a == p[0] || a in p[1..];
      assert Records(p) == TallyOne(p[0]).records + Records(p[1..]);
      assert Creates(p) == TallyOne(p[0]).creates + Creates(p[1..]);
      assert Confirms(p) == TallyOne(p[0]).confirms + Confirms(p[1..]);
      assert Gets(p) == TallyOne(p[0]).gets + Gets(p[1..]);
      assert Puts(p) == TallyOne(p[0]).puts + Puts(p[1..]);
    }
  }

  /** Every resource of the profile is recorded, created and confirmed, and no other; exactly
      its keys are looked up and entered. */
  ghost predicate Has(p: Program, f: Profile) {
    TallyOf(p) == Tally(f.names, f.names, f.names, f.gets, f.puts)
  }

  lemma HasMeans(p: Program, f: Profile)
    requires Has(p, f)
    ensures Records(p) == f.names && Creates(p) == f.names && Confirms(p) == f.names
    ensures Gets(p) == f.gets && Puts(p) == f.puts
  {
    TallyIs(p);
  }

  lemma HasConcat(p: Program, f: Profile, q: Program, g: Profile)
    requires Has(p, f) && Has(q, g)
    ensures Has(p + q, Join(f, g))
  {
    TallyConcat(p, q);
  }

  lemma HasEmpty()
    ensures Has([], NOTHING)
  {
  }

  function Of(a: Action): Profile {
    match a
    case Get(k) => Profile({}, {k}, {})
    case Put(k) => Profile({}, {}, {k})
    case _ => NOTHING
  }

  lemma HasOne(a: Action)
    requires !a.Record? && !a.Create? && !a.Confirm?
    ensures Has([a], Of(a))
  {
    assert TallyOf([a]) == Add(TallyOne(a), TallyOf([]));
  }

  lemma HasTwo(a: Action, b: Action)
    requires !a.Record? && !a.Create? && !a.Confirm? && !b.Record? && !b.Create? && !b.Confirm?
    ensures Has([a, b], Join(Of(a), Of(b)))
  {
    HasOne(a);
    HasOne(b);
    HasConcat([a], Of(a), [b], Of(b));
    assert [a] + [b] == [a, b];
  }

  function Only(x: string): Profile {
    Profile({x}, {}, {})
  }

  lemma HasBring(naming: Naming, s: Slot)
    ensures Has(Bring(naming, s), Only(naming(s)))
  {
    var p := Bring(naming, s);
    assert p[1..] == [p[1], p[2]] && p[1..][1..] == [p[2]] && [p[2]][1..] == [];
    assert TallyOf([p[2]]) == Add(TallyOne(p[2]), TallyOf([]));
    assert TallyOf(p[1..]) == Add(TallyOne(p[1]), TallyOf([p[2]]));
  }

  lemma HasBringAfter(naming: Naming, s: Slot, lookups: Program, f: Profile)
    requires Has(lookups, f) && f.names == {}
    ensures Has(BringAfter(naming, s, lookups), Profile({naming(s)}, f.gets, f.puts))
  {
    var p := Bring(naming, s);
    HasBring(naming, s);
    assert p == [p[0]] + [p[1], p[2]];
    TallyConcat([p[0]], [p[1], p[2]]);
    TallyConcat(lookups, [p[1], p[2]]);
    TallyConcat([p[0]], lookups + [p[1], p[2]]);
    Interpose(TallyOf([p[0]]), TallyOf([p[1], p[2]]), naming(s), f.gets, f.puts);
  }

  lemma Interpose(a: Tally, b: Tally, x: string, gets: set<Key>, puts: set<Key>)
    requires Add(a, b) == Tally({x}, {x}, {x}, {}, {})
    ensures Add(a, Add(Tally({}, {}, {}, gets, puts), b)) == Tally({x}, {x}, {x}, gets, puts)
  {
  }

  // ---- Pools, fabrics, sidecars ----------------------------------------------------------------

  lemma PoolProfile(naming: Naming, pool: string)
    ensures Has(PoolUp(naming, pool), Profile({naming(Slot(false, Pool, pool, 0))}, {}, {PoolKey(pool)}))
  {
    HasBring(naming, Slot(false, Pool, pool, 0));
    HasOne(Put(PoolKey(pool)));
    HasConcat(Bring(naming, Slot(false, Pool, pool, 0)), Only(naming(Slot(false, Pool, pool, 0))),
              [Put(PoolKey(pool))], Of(Put(PoolKey(pool))));
  }

  ghost function SegmentNames(naming: Naming, build: bool, networks: seq<string>): set<string> {
    set n | n in networks :: naming(Slot(build, Segment, n, 0))
  }

  ghost function NetworkKeys(networks: seq<string>): set<Key> {
    set n | n in networks :: NetworkKey(n)
  }

  lemma {:induction false} SegmentsProfile(naming: Naming, build: bool, networks: seq<string>)
    ensures Has(SegmentsUp(naming, build, networks),
                Profile(SegmentNames(naming, build, networks), {}, NetworkKeys(networks)))
  {
    if networks == [] {
      HasEmpty();
    } else {
      var s, put := Slot(build, Segment, networks[0], 0), Put(NetworkKey(networks[0]));
      HasBring(naming, s);
      HasOne(put);
      HasConcat(Bring(naming, s), Only(naming(s)), [put], Of(put));
      SegmentsProfile(naming, build, networks[1..]);
      HasConcat(SegmentUp(naming, build, networks[0]), Join(Only(naming(s)), Of(put)),
                SegmentsUp(naming, build, networks[1..]),
                Profile(SegmentNames(naming, build, networks[1..]), {}, NetworkKeys(networks[1..])));
      FirstSegment(naming, build, networks);
      JoinThree(naming(s), put.key, SegmentNames(naming, build, networks[1..]), NetworkKeys(networks[1..]), {});
    }
  }

  lemma FirstSegment(naming: Naming, build: bool, networks: seq<string>)
    requires networks != []
    ensures SegmentNames(naming, build, networks) ==
            {naming(Slot(build, Segment, networks[0], 0))} + SegmentNames(naming, build, networks[1..])
    ensures NetworkKeys(networks) == {NetworkKey(networks[0])} + NetworkKeys(networks[1..])
  {
    assert forall n :: n in networks <==> n == networks[0] || n in networks[1..];
  }

  /** A resource with its entry, then more resources with theirs, then more entries. */
  lemma JoinThree(x: string, k: Key, names: set<string>, keys: set<Key>, more: set<Key>)
    ensures Join(Join(Only(x), Profile({}, {}, {k})), Join(Profile(names, {}, keys), Profile({}, {}, more))) ==
            Profile({x} + names, {}, {k} + keys + more)
    ensures Join(Profile(names, {}, keys), Profile({}, {}, {})) == Profile(names, {}, keys)
    ensures {k} + keys + {} == {k} + keys
  {
  }

  ghost function FabricNames(naming: Naming, build: bool, s: Switch): set<string> {
    {naming(Slot(build, Fabric, s.name, 0))} + SegmentNames(naming, build, s.networks)
  }

  ghost function UplinkKeys(s: Switch): set<Key> {
    if s.Nat() then {NetworkKey(UplinkName(s.name))} else {}
  }

  ghost function FabricKeys(s: Switch): set<Key> {
    {SwitchKey(s.name)} + NetworkKeys(s.networks) + UplinkKeys(s)
  }

  /** A fabric hook brings up the switch and each of its networks. */
  lemma FabricProfile(naming: Naming, build: bool, s: Switch)
    ensures Has(FabricUp(naming, build, s), Profile(FabricNames(naming, build, s), {}, FabricKeys(s)))
  {
    var fabric, put := Slot(build, Fabric, s.name, 0), Put(SwitchKey(s.name));
    HasBring(naming, fabric);
    HasOne(put);
    HasConcat(Bring(naming, fabric), Only(naming(fabric)), [put], Of(put));
    SegmentsProfile(naming, build, s.networks);
    HasEmpty();
    HasOne(Put(NetworkKey(UplinkName(s.name))));
    var segments, uplink := SegmentsUp(naming, build, s.networks), UplinkPut(s);
    var f, g := Profile(SegmentNames(naming, build, s.networks), {}, NetworkKeys(s.networks)),
        Profile({}, {}, UplinkKeys(s));
    HasConcat(segments, f, uplink, g);
    HasConcat(Bring(naming, fabric) + [put], Join(Only(naming(fabric)), Of(put)), segments + uplink, Join(f, g));
    JoinThree(naming(fabric), put.key, SegmentNames(naming, build, s.networks), NetworkKeys(s.networks),
              UplinkKeys(s));
  }

  ghost function SidecarNames(naming: Naming, build: bool, s: Switch): set<string> {
    SidecarVolumes(naming, build, s) + {naming(Slot(build, SidecarVm, s.name, 0))}
  }

  ghost function SidecarVolumes(naming: Naming, build: bool, s: Switch): set<string> {
    {naming(Slot(build, SidecarDisk, s.name, 0)), naming(Slot(build, SidecarConfig, s.name, 0))}
  }

  lemma JoinSidecar(disk: string, config: string, vm: string, network: Key, uplink: set<Key>, entry: Key)
    ensures Join(Only(disk), Only(config)) == Profile({disk, config}, {}, {})
    ensures Join(Only(vm), Join(NOTHING, Profile({}, {}, {entry}))) == Profile({vm}, {}, {entry})
    ensures Join(Profile({}, {network}, {}), Profile({}, uplink, {})) == Profile({}, {network} + uplink, {})
    ensures Join(Profile({disk, config}, {}, {}),
                 Join(Profile({}, {network} + uplink, {}), Profile({vm}, {}, {entry}))) ==
            Profile({disk, config} + {vm}, {network} + uplink, {entry})
  {
  }

  lemma SidecarLookupsProfile(s: Switch)
    requires s.networks != []
    ensures Has(SidecarLookups(s), Profile({}, {NetworkKey(s.networks[0])} + UplinkKeys(s), {}))
  {
    var get, uplink := Get(NetworkKey(s.networks[0])), Get(NetworkKey(UplinkName(s.name)));
    HasOne(get);
    HasOne(uplink);
    HasEmpty();
    HasConcat([get], Of(get), if s.Nat() then [uplink] else [], Profile({}, UplinkKeys(s), {}));
    JoinSidecar("", "", "", get.key, UplinkKeys(s), get.key);
  }

  lemma SidecarUpProfile(naming: Naming, build: bool, s: Switch)
    requires s.networks != []
    ensures Has(SidecarUp(naming, build, s), Profile(SidecarNames(naming, build, s),
                {NetworkKey(s.networks[0])} + UplinkKeys(s), {SidecarKey(s.name)}))
  {
    var disk, config, vm := Slot(build, SidecarDisk, s.name, 0), Slot(build, SidecarConfig, s.name, 0),
        Slot(build, SidecarVm, s.name, 0);
    HasBring(naming, disk);
    HasBring(naming, config);
    HasBring(naming, vm);
    HasConcat(Bring(naming, disk), Only(naming(disk)), Bring(naming, config), Only(naming(config)));
    var tail := [Work, Put(SidecarKey(s.name))];
    HasTwo(Work, Put(SidecarKey(s.name)));
    HasConcat(Bring(naming, vm), Only(naming(vm)), tail, Join(NOTHING, Of(Put(SidecarKey(s.name)))));
    SidecarLookupsProfile(s);
    JoinSidecar(naming(disk), naming(config), naming(vm), NetworkKey(s.networks[0]), UplinkKeys(s),
                SidecarKey(s.name));
    var lookups := Profile({}, {NetworkKey(s.networks[0])} + UplinkKeys(s), {});
    var machine := Profile({naming(vm)}, {}, {SidecarKey(s.name)});
    HasConcat(SidecarLookups(s), lookups, Bring(naming, vm) + tail, machine);
    HasConcat(Bring(naming, disk) + Bring(naming, config), Profile(SidecarVolumes(naming, build, s), {}, {}),
              SidecarLookups(s) + (Bring(naming, vm) + tail), Join(lookups, machine));
  }

  lemma JoinServing(names: set<string>, pool: Key, network: Key, uplink: set<Key>, entry: Key, serving: Key)
    ensures Join(Profile({}, {entry}, {}), Join(NOTHING, Profile({}, {}, {serving}))) ==
            Profile({}, {entry}, {serving})
    ensures Join(Join(Profile({}, {pool}, {}), Profile(names, {network} + uplink, {entry})),
                 Profile({}, {entry}, {serving})) ==
            Profile(names, {pool, network, entry} + uplink, {entry, serving})
  {
  }

  lemma ReadyProfile(s: Switch)
    ensures Has(SidecarReady(s), Profile({}, {SidecarKey(s.name)}, {ServingKey(s.name)}))
  {
    var ready := SidecarReady(s);
    HasOne(ready[0]);
    HasTwo(ready[1], ready[2]);
    HasConcat([ready[0]], Of(ready[0]), [ready[1], ready[2]], Join(Of(ready[1]), Of(ready[2])));
    assert ready == [ready[0]] + [ready[1], ready[2]];
    JoinServing({}, SidecarKey(""), SidecarKey(""), {}, SidecarKey(s.name), ServingKey(s.name));
  }

  /** A sidecar hook brings up two volumes and a VM; on a switch without networks, nothing. */
  lemma SidecarProfile(naming: Naming, pool: string, s: Switch)
    ensures s.networks != [] ==>
              Has(SidecarRealize(naming, pool, s), Profile(SidecarNames(naming, false, s),
                  {PoolKey(pool), NetworkKey(s.networks[0]), SidecarKey(s.name)} + UplinkKeys(s),
                  {SidecarKey(s.name), ServingKey(s.name)}))
    ensures s.networks == [] ==> Creates(SidecarRealize(naming, pool, s)) == {}
  {
    if s.networks != [] {
      var get := Get(PoolKey(pool));
      var up := Profile(SidecarNames(naming, false, s), {NetworkKey(s.networks[0])} + UplinkKeys(s),
                        {SidecarKey(s.name)});
      SidecarUpProfile(naming, false, s);
      ReadyProfile(s);
      HasOne(get);
      HasConcat([get], Of(get), SidecarUp(naming, false, s), up);
      HasConcat([get] + SidecarUp(naming, false, s), Join(Of(get), up), SidecarReady(s),
                Profile({}, {SidecarKey(s.name)}, {ServingKey(s.name)}));
      JoinServing(SidecarNames(naming, false, s), get.key, NetworkKey(s.networks[0]), UplinkKeys(s),
                  SidecarKey(s.name), ServingKey(s.name));
    }
  }

  // ---- Machines ----------------------------------------------------------------------------------

  /** The names of a VM's data disks from number `from` on. */
  ghost function DataNames(naming: Naming, build: bool, v: Vm, from: nat): set<string> {
    set i: nat | from <= i < |v.dataPools| :: naming(Slot(build, DataDisk, v.name, i))
  }

  ghost function DataKeys(v: Vm, from: nat): set<Key> {
    (set i: nat | from <= i < |v.dataPools| :: BuiltKey(v.name, Some(i)))
    + (set i: nat | from <= i < |v.dataPools| :: PoolKey(v.dataPools[i]))
  }

  lemma FirstDataDisk(naming: Naming, build: bool, v: Vm, i: nat)
    requires i < |v.dataPools|
    ensures DataNames(naming, build, v, i) ==
            {naming(Slot(build, DataDisk, v.name, i))} + DataNames(naming, build, v, i + 1)
    ensures DataKeys(v, i) == {BuiltKey(v.name, Some(i)), PoolKey(v.dataPools[i])} + DataKeys(v, i + 1)
  {
  }

  lemma {:induction false} DataDisksProfile(naming: Naming, v: Vm, i: nat)
    requires i <= |v.dataPools|
    ensures Has(DataDisksUp(naming, v, i), Profile(DataNames(naming, false, v, i), DataKeys(v, i), {}))
    decreases |v.dataPools| - i
  {
    if i == |v.dataPools| {
      HasEmpty();
    } else {
      var s, pool, built := Slot(false, DataDisk, v.name, i), Get(PoolKey(v.dataPools[i])),
          Get(BuiltKey(v.name, Some(i)));
      HasOne(pool);
      HasOne(built);
      HasBringAfter(naming, s, [built], Of(built));
      var disk := Profile({naming(s)}, {BuiltKey(v.name, Some(i))}, {});
      HasConcat([pool], Of(pool), BringAfter(naming, s, [built]), disk);
      DataDisksProfile(naming, v, i + 1);
      HasConcat(DataDiskUp(naming, v, i), Join(Of(pool), disk), DataDisksUp(naming, v, i + 1),
                Profile(DataNames(naming, false, v, i + 1), DataKeys(v, i + 1), {}));
      FirstDataDisk(naming, false, v, i);
    }
  }

  ghost function NicKeys(nics: seq<Nic>): set<Key> {
    set nic | nic in nics :: NetworkKey(nic.network)
  }

  lemma {:induction false} NicsProfile(nics: seq<Nic>)
    ensures Has(NicLookups(nics), Profile({}, NicKeys(nics), {}))
  {
    if nics == [] {
      HasEmpty();
    } else {
      var get := Get(NetworkKey(nics[0].network));
      HasOne(get);
      NicsProfile(nics[1..]);
      HasConcat([get], Of(get), NicLookups(nics[1..]), Profile({}, NicKeys(nics[1..]), {}));
      assert forall nic | nic in nics :: nic == nics[0] || nic in nics[1..];
      assert NicKeys(nics) == {get.key} + NicKeys(nics[1..]);
    }
  }

  /** The switch whose sidecar leases an address to this NIC. */
  ghost predicate LeasedBy(plan: Plan, nic: Nic, switch: string) {
    && nic.dhcp && SwitchOwning(plan.switches, nic.network).Some?
    && SwitchOwning(plan.switches, nic.network).value.NeedsSidecar()
    && SwitchOwning(plan.switches, nic.network).value.name == switch
  }

  ghost predicate Leased(plan: Plan, nic: Nic) {
    LeasedBy(plan, nic, if SwitchOwning(plan.switches, nic.network).Some? then
                          SwitchOwning(plan.switches, nic.network).value.name else "")
  }

  ghost function LeaseKey(plan: Plan, nic: Nic): Key
    requires Leased(plan, nic)
  {
    SidecarKey(SwitchOwning(plan.switches, nic.network).value.name)
  }

  ghost function LeaseKeys(plan: Plan, nics: seq<Nic>): set<Key> {
    set nic | nic in nics && Leased(plan, nic) :: LeaseKey(plan, nic)
  }

  /** A DHCP NIC that no sidecar can lease an address to. */
  ghost predicate Unleasable(plan: Plan, nics: seq<Nic>) {
    exists nic :: nic in nics && nic.dhcp && !Leased(plan, nic)
  }

  lemma LeaseProfile(plan: Plan, nic: Nic)
    ensures Has(LeaseWait(plan, nic), Profile({}, if Leased(plan, nic) then {LeaseKey(plan, nic)} else {}, {}))
    ensures Abort in LeaseWait(plan, nic) <==> nic.dhcp && !Leased(plan, nic)
  {
    HasEmpty();
    HasOne(Abort);
    if Leased(plan, nic) {
      HasTwo(Get(LeaseKey(plan, nic)), Work);
    }
  }

  lemma {:induction false} LeasesProfile(plan: Plan, nics: seq<Nic>)
    ensures Has(LeaseWaits(plan, nics), Profile({}, LeaseKeys(plan, nics), {}))
    ensures Abort in LeaseWaits(plan, nics) <==> Unleasable(plan, nics)
  {
    if nics == [] {
      HasEmpty();
    } else {
      LeaseProfile(plan, nics[0]);
      LeasesProfile(plan, nics[1..]);
      var first := if Leased(plan, nics[0]) then {LeaseKey(plan, nics[0])} else {};
      HasConcat(LeaseWait(plan, nics[0]), Profile({}, first, {}), LeaseWaits(plan, nics[1..]),
                Profile({}, LeaseKeys(plan, nics[1..]), {}));
      assert forall nic :: nic in nics <==> nic == nics[0] || nic in nics[1..];
      assert LeaseKeys(plan, nics) == first + LeaseKeys(plan, nics[1..]);
    }
  }

  ghost function MachineNames(naming: Naming, build: bool, v: Vm): set<string> {
    {naming(Slot(build, OsDisk, v.name, 0)), naming(Slot(build, Machine, v.name, 0))}
    + DataNames(naming, build, v, 0)
  }

  /** Everything a VM's hook looks up before it waits for leases. */
  ghost function MachineKeys(v: Vm): set<Key> {
    {BuiltKey(v.name, None), PoolKey(v.osPool)} + DataKeys(v, 0) + NicKeys(v.nics)
  }

  lemma JoinMachine(os: string, vm: string, built: Key, pool: Key, data: set<string>, dataKeys: set<Key>,
                    nicKeys: set<Key>)
    ensures Join(Join(Profile({}, {built}, {}), Profile({}, {pool}, {})), Only(os)) == Profile({os}, {built, pool}, {})
    ensures Join(Profile({vm}, nicKeys, {}), NOTHING) == Profile({vm}, nicKeys, {})
    ensures Join(Profile({os}, {built, pool}, {}), Join(Profile(data, dataKeys, {}), Profile({vm}, nicKeys, {}))) ==
            Profile({os, vm} + data, {built, pool} + dataKeys + nicKeys, {})
  {
  }

  lemma OsDiskProfile(naming: Naming, v: Vm)
    ensures Has(OsDiskUp(naming, v), Profile({naming(Slot(false, OsDisk, v.name, 0))},
                {BuiltKey(v.name, None), PoolKey(v.osPool)}, {}))
  {
    var os, built, pool := Slot(false, OsDisk, v.name, 0), Get(BuiltKey(v.name, None)), Get(PoolKey(v.osPool));
    HasTwo(built, pool);
    HasBring(naming, os);
    HasConcat([built, pool], Join(Of(built), Of(pool)), Bring(naming, os), Only(naming(os)));
    JoinMachine(naming(os), "", built.key, pool.key, {}, {}, {});
  }

  lemma MachineUpProfile(naming: Naming, v: Vm)
    ensures Has(MachineUp(naming, v), Profile({naming(Slot(false, Machine, v.name, 0))}, NicKeys(v.nics), {}))
  {
    var vm := Slot(false, Machine, v.name, 0);
    NicsProfile(v.nics);
    HasBringAfter(naming, vm, NicLookups(v.nics), Profile({}, NicKeys(v.nics), {}));
    HasOne(Work);
    HasConcat(BringAfter(naming, vm, NicLookups(v.nics)), Profile({naming(vm)}, NicKeys(v.nics), {}), [Work], NOTHING);
    JoinMachine("", naming(vm), BuiltKey("", None), BuiltKey("", None), {}, {}, NicKeys(v.nics));
  }

  lemma MachineCreateProfile(naming: Naming, v: Vm)
    ensures Has(MachineCreate(naming, v), Profile(MachineNames(naming, false, v), MachineKeys(v), {}))
  {
    var os, vm := naming(Slot(false, OsDisk, v.name, 0)), naming(Slot(false, Machine, v.name, 0));
    var disk, machine := Profile({os}, {BuiltKey(v.name, None), PoolKey(v.osPool)}, {}),
        Profile({vm}, NicKeys(v.nics), {});
    var data := Profile(DataNames(naming, false, v, 0), DataKeys(v, 0), {});
    OsDiskProfile(naming, v);
    DataDisksProfile(naming, v, 0);
    MachineUpProfile(naming, v);
    HasConcat(DataDisksUp(naming, v, 0), data, MachineUp(naming, v), machine);
    HasConcat(OsDiskUp(naming, v), disk, DataDisksUp(naming, v, 0) + MachineUp(naming, v), Join(data, machine));
    JoinMachine(os, vm, BuiltKey(v.name, None), PoolKey(v.osPool), DataNames(naming, false, v, 0), DataKeys(v, 0),
                NicKeys(v.nics));
  }

  /** A VM's hook brings up its OS disk, each data disk and the machine; it looks up its built
      disks, their pools, its networks and the sidecar of each NIC that leases an address, and
      raises for a DHCP NIC without one. */
  lemma MachineProfile(plan: Plan, naming: Naming, v: Vm)
    ensures Has(MachineRealize(plan, naming, v),
                Profile(MachineNames(naming, false, v), MachineKeys(v) + LeaseKeys(plan, v.nics), {}))
    ensures Abort in MachineReady(plan, v) <==> Unleasable(plan, v.nics)
  {
    MachineCreateProfile(naming, v);
    MachineReadyProfile(plan, v);
    JoinLeases(MachineNames(naming, false, v), MachineKeys(v), LeaseKeys(plan, v.nics));
    HasConcat(MachineCreate(naming, v), Profile(MachineNames(naming, false, v), MachineKeys(v), {}),
              MachineReady(plan, v), Profile({}, LeaseKeys(plan, v.nics), {}));
  }

  lemma MachineReadyProfile(plan: Plan, v: Vm)
    ensures Has(MachineReady(plan, v), Profile({}, LeaseKeys(plan, v.nics), {}))
    ensures Abort in MachineReady(plan, v) <==> Unleasable(plan, v.nics)
  {
    var leases := Profile({}, LeaseKeys(plan, v.nics), {});
    LeasesProfile(plan, v.nics);
    HasOne(Work);
    JoinLeases({}, {}, LeaseKeys(plan, v.nics));
    HasConcat(LeaseWaits(plan, v.nics), leases, [Work], NOTHING);
    HasConcat([Work], NOTHING, LeaseWaits(plan, v.nics) + [Work], leases);
  }

  lemma JoinLeases(names: set<string>, keys: set<Key>, leases: set<Key>)
    ensures Join(Profile({}, leases, {}), NOTHING) == Join(NOTHING, Profile({}, leases, {})) == Profile({}, leases, {})
    ensures Join(Profile(names, keys, {}), Profile({}, leases, {})) == Profile(names, keys + leases, {})
  {
  }

  // ---- Reattaching ----------------------------------------------------------------------------------

  lemma {:induction false} SegmentsAgainProfile(networks: seq<string>)
    ensures Has(SegmentsAgain(networks), Profile({}, {}, NetworkKeys(networks)))
  {
    if networks == [] {
      HasEmpty();
    } else {
      var put := Put(NetworkKey(networks[0]));
      HasOne(put);
      SegmentsAgainProfile(networks[1..]);
      HasConcat([put], Of(put), SegmentsAgain(networks[1..]), Profile({}, {}, NetworkKeys(networks[1..])));
      FirstSegment(s => "", false, networks);
    }
  }

  /** Reattaching brings nothing up. It enters what the first realize did, but for the uplink
      of a fabric, and waits for a sidecar and for leases as the first realize does. */
  lemma ReattachProfiles(plan: Plan, s: Switch, v: Vm)
    ensures Has(FabricAgain(s), Profile({}, {}, {SwitchKey(s.name)} + NetworkKeys(s.networks)))
    ensures Has(SidecarAgain(s), Profile({}, {SidecarKey(s.name)}, {SidecarKey(s.name), ServingKey(s.name)}))
    ensures Has(MachineReady(plan, v), Profile({}, LeaseKeys(plan, v.nics), {}))
  {
    var put, again := Put(SwitchKey(s.name)), Put(SidecarKey(s.name));
    HasOne(put);
    HasOne(again);
    SegmentsAgainProfile(s.networks);
    HasConcat([put], Of(put), SegmentsAgain(s.networks), Profile({}, {}, NetworkKeys(s.networks)));
    ReadyProfile(s);
    HasConcat([again], Of(again), SidecarReady(s), Profile({}, {SidecarKey(s.name)}, {ServingKey(s.name)}));
    MachineReadyProfile(plan, v);
  }

  // ---- The build phase -------------------------------------------------------------------------------

  ghost function OptionalName(wanted: bool, x: string): set<string> {
    if wanted then {x} else {}
  }

  /** Everything a VM's build brings up. */
  ghost function BuildNames(naming: Naming, v: Vm): set<string> {
    MachineNames(naming, true, v)
    + OptionalName(v.installer, naming(Slot(true, BootMedia, v.name, 0)))
    + OptionalName(v.seeded, naming(Slot(true, Seed, v.name, 0)))
  }

  lemma OptionalProfile(naming: Naming, wanted: bool, s: Slot)
    ensures Has(Optional(wanted, Bring(naming, s)), Profile(OptionalName(wanted, naming(s)), {}, {}))
  {
    HasBring(naming, s);
    HasEmpty();
  }

  lemma {:induction false} BuildDataProfile(naming: Naming, v: Vm, i: nat)
    requires i <= |v.dataPools|
    ensures Has(BuildDataUp(naming, v, i), Profile(DataNames(naming, true, v, i), {}, {}))
    decreases |v.dataPools| - i
  {
    if i == |v.dataPools| {
      HasEmpty();
    } else {
      var s := Slot(true, DataDisk, v.name, i);
      HasBring(naming, s);
      BuildDataProfile(naming, v, i + 1);
      HasConcat(Bring(naming, s), Only(naming(s)), BuildDataUp(naming, v, i + 1),
                Profile(DataNames(naming, true, v, i + 1), {}, {}));
      FirstDataDisk(naming, true, v, i);
    }
  }

  /** Five parts, in the order of bringing up and in that of taking down. */
  lemma JoinParts(os: string, vm: string, boot: set<string>, data: set<string>, seed: set<string>)
    ensures Join(Join(Only(os), Profile(boot, {}, {})),
                 Join(Profile(data, {}, {}), Join(Profile(seed, {}, {}), Only(vm)))) ==
            Profile({os, vm} + data + boot + seed, {}, {})
    ensures {vm} + seed + (boot + (data + {os})) == {os, vm} + data + boot + seed
  {
  }

  lemma BuildProfile(naming: Naming, v: Vm)
    ensures Has(BuildUp(naming, v), Profile(BuildNames(naming, v), {}, {}))
  {
    var os, vm := Slot(true, OsDisk, v.name, 0), Slot(true, Machine, v.name, 0);
    var boot, seed := Slot(true, BootMedia, v.name, 0), Slot(true, Seed, v.name, 0);
    HasBring(naming, os);
    HasBring(naming, vm);
    OptionalProfile(naming, v.installer, boot);
    OptionalProfile(naming, v.seeded, seed);
    BuildDataProfile(naming, v, 0);
    var b, d, e := OptionalName(v.installer, naming(boot)), DataNames(naming, true, v, 0),
        OptionalName(v.seeded, naming(seed));
    var first := Bring(naming, os) + Optional(v.installer, Bring(naming, boot));
    var last := Optional(v.seeded, Bring(naming, seed)) + Bring(naming, vm);
    HasConcat(Bring(naming, os), Only(naming(os)), Optional(v.installer, Bring(naming, boot)), Profile(b, {}, {}));
    HasConcat(Optional(v.seeded, Bring(naming, seed)), Profile(e, {}, {}), Bring(naming, vm), Only(naming(vm)));
    HasConcat(BuildDataUp(naming, v, 0), Profile(d, {}, {}), last, Join(Profile(e, {}, {}), Only(naming(vm))));
    HasConcat(first, Join(Only(naming(os)), Profile(b, {}, {})), BuildDataUp(naming, v, 0) + last,
              Join(Profile(d, {}, {}), Join(Profile(e, {}, {}), Only(naming(vm)))));
    JoinParts(naming(os), naming(vm), b, d, e);
  }

  ghost function InfraNames(naming: Naming, s: Switch): set<string> {
    {naming(BUILD_POOL)} + FabricNames(naming, true, s)
    + (if s.NeedsSidecar() then SidecarNames(naming, true, s) else {})
  }

  /** The shared build infra: a pool, the build switch with its networks, and its sidecar. */
  lemma InfraProfile(naming: Naming, s: Switch)
    requires s.networks != []
    ensures Has(InfraUp(naming, s), Profile(InfraNames(naming, s),
                {NetworkKey(s.networks[0])} + UplinkKeys(s),
                FabricKeys(s) + (if s.NeedsSidecar() then {SidecarKey(s.name)} else {})))
  {
    HasBring(naming, BUILD_POOL);
    FabricProfile(naming, true, s);
    var fabric := Profile(FabricNames(naming, true, s), {}, FabricKeys(s));
    HasConcat(Bring(naming, BUILD_POOL), Only(naming(BUILD_POOL)), FabricUp(naming, true, s), fabric);
    var get := Get(NetworkKey(s.networks[0]));
    HasOne(get);
    HasEmpty();
    SidecarUpProfile(naming, true, s);
    var sidecar := if s.NeedsSidecar() then Profile(SidecarNames(naming, true, s), {get.key} + UplinkKeys(s),
        {SidecarKey(s.name)}) else NOTHING;
    HasConcat([get], Of(get), Optional(s.NeedsSidecar(), SidecarUp(naming, true, s)), sidecar);
    HasConcat(Bring(naming, BUILD_POOL) + FabricUp(naming, true, s), Join(Only(naming(BUILD_POOL)), fabric),
              [get] + Optional(s.NeedsSidecar(), SidecarUp(naming, true, s)), Join(Of(get), sidecar));
    assert Join(Of(get), sidecar).gets == {get.key} + UplinkKeys(s);
  }

  // ---- Taking down --------------------------------------------------------------------------------------

  /** Removes exactly `names`: each is destroyed and then forgotten, and nothing is brought up. */
  ghost predicate Clears(p: Program, names: set<string>) {
    && (forall a | a in p :: a.Destroy? || a.Forget? || a.BestEffortDelete? || a.Drop?)
    && Taken(p) == names && Erased(p) == names
  }

  ghost function Taken(p: Program): set<string> {
    set a | a in p && (a.Destroy? || a.BestEffortDelete?) :: a.name
  }

  ghost function Erased(p: Program): set<string> {
    set a | a in p && (a.Forget? || a.BestEffortDelete?) :: a.name
  }

  lemma ClearsConcat(p: Program, xs: set<string>, q: Program, ys: set<string>)
    requires Clears(p, xs) && Clears(q, ys)
    ensures Clears(p + q, xs + ys)
  {
    assert forall a :: a in p + q <==> a in p || a in q;
    assert Taken(p + q) == Taken(p) + Taken(q) && Erased(p + q) == Erased(p) + Erased(q);
  }

  lemma ClearsRemove(naming: Naming, s: Slot)
    ensures Clears(Remove(naming, s), {naming(s)})
    ensures Clears([BestEffortDelete(naming(s))], {naming(s)})
  {
    var p, q := Remove(naming, s), [BestEffortDelete(naming(s))];
    assert p[0] in p && p[1] in p && q[0] in q;
  }

  lemma ClearsDrops(p: Program)
    requires forall a | a in p :: a.Drop?
    ensures Clears(p, {})
  {
  }

  lemma {:induction false} BuildDataClears(naming: Naming, v: Vm, i: nat)
    requires i <= |v.dataPools|
    ensures Clears(BuildDataDown(naming, v, i), DataNames(naming, true, v, i))
    decreases |v.dataPools| - i
  {
    if i == |v.dataPools| {
      ClearsDrops([]);
    } else {
      var s := Slot(true, DataDisk, v.name, i);
      ClearsRemove(naming, s);
      BuildDataClears(naming, v, i + 1);
      ClearsConcat([BestEffortDelete(naming(s))], {naming(s)}, BuildDataDown(naming, v, i + 1),
                   DataNames(naming, true, v, i + 1));
      FirstDataDisk(naming, true, v, i);
    }
  }

  lemma OptionalClears(naming: Naming, wanted: bool, s: Slot)
    ensures Clears(Optional(wanted, [BestEffortDelete(naming(s))]), OptionalName(wanted, naming(s)))
  {
    ClearsRemove(naming, s);
    ClearsDrops([]);
  }

  lemma BuildClears(naming: Naming, v: Vm)
    ensures Clears(BuildDown(naming, v), BuildNames(naming, v))
  {
    var os, vm := Slot(true, OsDisk, v.name, 0), Slot(true, Machine, v.name, 0);
    var boot, seed := Slot(true, BootMedia, v.name, 0), Slot(true, Seed, v.name, 0);
    ClearsRemove(naming, os);
    ClearsRemove(naming, vm);
    OptionalClears(naming, v.installer, boot);
    OptionalClears(naming, v.seeded, seed);
    BuildDataClears(naming, v, 0);
    var b, d, e := OptionalName(v.installer, naming(boot)), DataNames(naming, true, v, 0),
        OptionalName(v.seeded, naming(seed));
    var noBoot, noSeed := Optional(v.installer, [BestEffortDelete(naming(boot))]),
        Optional(v.seeded, [BestEffortDelete(naming(seed))]);
    var noOs, noVm, noData := [BestEffortDelete(naming(os))], [BestEffortDelete(naming(vm))],
        BuildDataDown(naming, v, 0);
    ClearsConcat(noVm, {naming(vm)}, noSeed, e);
    ClearsConcat(noData, d, noOs, {naming(os)});
    ClearsConcat(noBoot, b, noData + noOs, d + {naming(os)});
    ClearsConcat(noVm + noSeed, {naming(vm)} + e, noBoot + (noData + noOs), b + (d + {naming(os)}));
    JoinParts(naming(os), naming(vm), b, d, e);
  }

  lemma {:induction false} SegmentsClear(naming: Naming, networks: seq<string>)
    ensures Clears(SegmentsDown(naming, networks), SegmentNames(naming, true, networks))
  {
    if networks == [] {
      ClearsDrops([]);
    } else {
      var s, drop := Slot(true, Segment, networks[0], 0), [Drop(NetworkKey(networks[0]))];
      ClearsDrops(drop);
      ClearsRemove(naming, s);
      ClearsConcat(drop, {}, Remove(naming, s), {naming(s)});
      SegmentsClear(naming, networks[1..]);
      ClearsConcat(drop + Remove(naming, s), {} + {naming(s)}, SegmentsDown(naming, networks[1..]),
                   SegmentNames(naming, true, networks[1..]));
      assert forall n | n in networks :: n == networks[0] || n in networks[1..];
      assert SegmentNames(naming, true, networks) == {naming(s)} + SegmentNames(naming, true, networks[1..]);
    }
  }

  /** The infra names its teardown removes: all but the sidecar's two volumes. */
  ghost function InfraRemoved(naming: Naming, s: Switch): set<string> {
    {naming(BUILD_POOL)} + FabricNames(naming, true, s)
    + (if s.NeedsSidecar() then {naming(Slot(true, SidecarVm, s.name, 0))} else {})
  }

  lemma InfraClears(naming: Naming, s: Switch)
    requires s.networks != []
    ensures Clears(InfraGone(naming, s), InfraRemoved(naming, s))
  {
    var vm, fabric := Slot(true, SidecarVm, s.name, 0), Slot(true, Fabric, s.name, 0);
    var drop, drops := [Drop(SidecarKey(s.name))], [Drop(NetworkKey(UplinkName(s.name))), Drop(SwitchKey(s.name))];
    ClearsDrops([]);
    ClearsDrops(drop);
    ClearsDrops(drops);
    ClearsRemove(naming, vm);
    ClearsRemove(naming, fabric);
    ClearsRemove(naming, BUILD_POOL);
    SegmentsClear(naming, s.networks);
    ClearsConcat(drop, {}, Remove(naming, vm), {naming(vm)});
    var first := Optional(s.NeedsSidecar(), drop + Remove(naming, vm));
    var x := if s.NeedsSidecar() then {naming(vm)} else {};
    assert {} + {naming(vm)} == {naming(vm)};
    ClearsConcat(first, x, SegmentsDown(naming, s.networks), SegmentNames(naming, true, s.networks));
    ClearsConcat(drops, {}, Remove(naming, fabric), {naming(fabric)});
    ClearsConcat(drops + Remove(naming, fabric), {} + {naming(fabric)}, Remove(naming, BUILD_POOL),
                 {naming(BUILD_POOL)});
    ClearsConcat(first + SegmentsDown(naming, s.networks), x + SegmentNames(naming, true, s.networks),
                 (drops + Remove(naming, fabric)) + Remove(naming, BUILD_POOL),
                 {} + {naming(fabric)} + {naming(BUILD_POOL)});
    RegroupInfra(naming(BUILD_POOL), naming(fabric), SegmentNames(naming, true, s.networks), x);
  }

  lemma RegroupInfra(pool: string, fabric: string, segments: set<string>, sidecar: set<string>)
    ensures sidecar + segments + ({} + {fabric} + {pool}) == {pool} + ({fabric} + segments) + sidecar
  {
  }

  // ---- A program in which no call fails --------------------------------------------------------------

  /** How many steps the program takes; a best-effort delete takes two. */
  function StepsOf(p: Program): nat {
    if p == [] then 0 else (if p[0].BestEffortDelete? then 2 else 1) + StepsOf(p[1..])
  }

  lemma RestIsShorter(p: Program)
    requires p != []
    ensures StepsOf(Rest(p, Succeeds)) < StepsOf(p)
  {
    if p[0].BestEffortDelete? {
      assert Rest(p, Succeeds)[1..] == p[1..];
    }
  }

  /** Ledger and backend after the program has run, each step succeeding. */
  ghost function Played(p: Program, s: State, live: set<string>): (State, set<string>)
    decreases StepsOf(p)
  {
    if p == [] then (s, live)
    else
      RestIsShorter(p);
      Played(Rest(p, Succeeds), LedgerAfter(p[0], Succeeds, s, ""), LiveAfter(p[0], Succeeds, live))
  }

  lemma {:induction false} PlayedConcat(p: Program, q: Program, s: State, live: set<string>)
    ensures Played(p + q, s, live) == Played(q, Played(p, s, live).0, Played(p, s, live).1)
    decreases StepsOf(p)
  {
    if p == [] {
      assert p + q == q;
    } else {
      RestIsShorter(p);
      assert Rest(p + q, Succeeds) == Rest(p, Succeeds) + q;
      PlayedConcat(Rest(p, Succeeds), q, LedgerAfter(p[0], Succeeds, s, ""), LiveAfter(p[0], Succeeds, live));
    }
  }

  /** Only builds up, once the shared infra is there. */
  ghost predicate Builds(p: Program) {
    forall a | a in p :: a.EnsureInfra? || a.Record? || a.Create? || a.Confirm? || a.Work? || a.Put? || a.Get?
  }

  lemma TallySplits(p: Program)
    requires p != []
    ensures TallyOf(p).creates == TallyOf(p[1..]).creates + (if p[0].Create? then {p[0].name} else {})
    ensures TallyOf(p).records == TallyOf(p[1..]).records + (if p[0].Record? then {p[0].r.backendName} else {})
  {
  }

  /** What a program that builds up leaves. */
  lemma {:induction false} BringsUp(p: Program, s: State, live: set<string>)
    requires Builds(p)
    ensures var (s', live') := Played(p, s, live);
            && live' == live + TallyOf(p).creates
            && NamesOf(s'.resources) == NamesOf(s.resources) + TallyOf(p).records
    decreases |p|
  {
    if p != [] {
      assert p[0] in p;
      LedgerNamesAfter(p[0], Succeeds, s, "");
      BringsUp(p[1..], LedgerAfter(p[0], Succeeds, s, ""), LiveAfter(p[0], Succeeds, live));
      TallySplits(p);
    }
  }

  /** What a program that removes leaves. */
  lemma {:induction false} TakesDown(p: Program, s: State, live: set<string>)
    requires forall a | a in p :: a.Destroy? || a.Forget? || a.BestEffortDelete? || a.Drop?
    ensures var (s', live') := Played(p, s, live);
            live' == live - Taken(p) && NamesOf(s'.resources) == NamesOf(s.resources) - Erased(p)
    decreases StepsOf(p)
  {
    if p != [] {
      var q := Rest(p, Succeeds);
      assert p[0] in p;
      assert forall a :: a in q <==> a in p[1..] || (p[0].BestEffortDelete? && a == Forget(p[0].name));
      RestIsShorter(p);
      LedgerNamesAfter(p[0], Succeeds, s, "");
      TakesDown(q, LedgerAfter(p[0], Succeeds, s, ""), LiveAfter(p[0], Succeeds, live));
      TakenSplits(p, q);
    }
  }

  lemma TakenSplits(p: Program, q: Program)
    requires p != [] && q == Rest(p, Succeeds)
    ensures Taken(p) == Taken(q) + (if p[0].Destroy? || p[0].BestEffortDelete? then {p[0].name} else {})
    ensures Erased(p) == Erased(q) + (if p[0].Forget? then {p[0].name} else {})
  {
    assert p[0] in p && forall a | a in p :: a == p[0] || a in p[1..];
    assert forall a :: a in q <==> a in p[1..] || (p[0].BestEffortDelete? && a == Forget(p[0].name));
  }

  /** Bring up, then take down. */
  lemma UpThenDown(up: Program, f: Profile, down: Program, gone: set<string>, s: State, live: set<string>)
    requires Builds(up) && Has(up, f) && Clears(down, gone)
    ensures var (s', live') := Played(up + down, s, live);
            live' == live + f.names - gone && NamesOf(s'.resources) == NamesOf(s.resources) + f.names - gone
  {
    PlayedConcat(up, down, s, live);
    BringsUp(up, s, live);
    TakesDown(down, Played(up, s, live).0, Played(up, s, live).1);
  }

  // ---- What is there when a resource is created ---------------------------------------------------------

  ghost predicate TakesNothing(p: Program) {
    forall a | a in p :: !a.Destroy? && !a.BestEffortDelete?
  }

  lemma {:induction false} LiveGrows(p: Program, s: State, live: set<string>)
    requires TakesNothing(p)
    ensures live <= Played(p, s, live).1
    decreases |p|
  {
    if p != [] {
      assert p[0] in p;
      LiveGrows(p[1..], LedgerAfter(p[0], Succeeds, s, ""), LiveAfter(p[0], Succeeds, live));
    }
  }

  /** A resource created by the second of two parts is created once everything the first part
      creates exists. */
  lemma CreatedAfter(p: Program, f: Profile, q: Program, x: string, s: State, live: set<string>, k: nat)
    requires Builds(p) && Has(p, f) && TakesNothing(q) && x !in f.names
    requires k < |p + q| && (p + q)[k] == Create(x)
    ensures f.names <= Played((p + q)[..k], s, live).1
  {
    HasMeans(p, f);
    assert forall i | 0 <= i < |p| :: (p + q)[i] in p;
    assert forall a | a in p && a.Create? :: a.name in Creates(p);
    assert k >= |p|;
    var done := q[..k - |p|];
    assert (p + q)[..k] == p + done;
    PlayedConcat(p, done, s, live);
    BringsUp(p, s, live);
    assert TakesNothing(done) by {
      assert forall a | a in done :: a in q;
    }
    LiveGrows(done, Played(p, s, live).0, Played(p, s, live).1);
  }

  lemma ConstructiveTakesNothing(p: Program)
    requires Constructive(p)
    ensures TakesNothing(p)
  {
  }

  /** The names of a VM's disks. */
  ghost function DiskNames(naming: Naming, v: Vm): set<string> {
    {naming(Slot(false, OsDisk, v.name, 0))} + DataNames(naming, false, v, 0)
  }

  lemma MachineApart(plan: Plan, naming: Naming, v: Vm)
    requires NamesApart(plan, naming) && v in plan.vms
    ensures naming(Slot(false, Machine, v.name, 0)) !in DiskNames(naming, v)
  {
    var vm, os := Slot(false, Machine, v.name, 0), Slot(false, OsDisk, v.name, 0);
    assert VmUses(v, vm) && VmUses(v, os);
    assert Used(plan, vm) && Used(plan, os);
    forall i: nat | i < |v.dataPools| ensures naming(Slot(false, DataDisk, v.name, i)) != naming(vm) {
      assert VmUses(v, Slot(false, DataDisk, v.name, i));
      assert Used(plan, Slot(false, DataDisk, v.name, i));
    }
  }

  lemma {:induction false} DataDisksBuild(naming: Naming, v: Vm, i: nat)
    requires i <= |v.dataPools|
    ensures Builds(DataDisksUp(naming, v, i))
    decreases |v.dataPools| - i
  {
    if i < |v.dataPools| {
      DataDisksBuild(naming, v, i + 1);
    }
  }

  lemma JoinDisks(os: string, built: Key, pool: Key, data: set<string>, keys: set<Key>)
    ensures Join(Profile({os}, {built, pool}, {}), Profile(data, keys, {})) ==
            Profile({os} + data, {built, pool} + keys, {})
  {
  }

  lemma DisksProfile(naming: Naming, v: Vm)
    ensures var p := OsDiskUp(naming, v) + DataDisksUp(naming, v, 0);
            Builds(p) &&
            Has(p, Profile(DiskNames(naming, v), {BuiltKey(v.name, None), PoolKey(v.osPool)} + DataKeys(v, 0), {}))
  {
    OsDiskProfile(naming, v);
    DataDisksProfile(naming, v, 0);
    DataDisksBuild(naming, v, 0);
    HasConcat(OsDiskUp(naming, v), Profile({naming(Slot(false, OsDisk, v.name, 0))},
              {BuiltKey(v.name, None), PoolKey(v.osPool)}, {}),
              DataDisksUp(naming, v, 0), Profile(DataNames(naming, false, v, 0), DataKeys(v, 0), {}));
    JoinDisks(naming(Slot(false, OsDisk, v.name, 0)), BuiltKey(v.name, None), PoolKey(v.osPool),
              DataNames(naming, false, v, 0), DataKeys(v, 0));
  }

  lemma Regroup(a: Program, b: Program, c: Program, d: Program)
    ensures (a + (b + c)) + d == (a + b) + (c + d)
  {
  }

  lemma MachineTakesNothing(plan: Plan, naming: Naming, v: Vm)
    requires v in plan.vms
    ensures TakesNothing(MachineUp(naming, v) + MachineReady(plan, v))
  {
    MachineUpSound(plan, naming, v);
    ConstructiveTakesNothing(MachineUp(naming, v));
    MachineReadyLocal(plan, v);
  }

  /** A VM is created once all its disks exist. */
  lemma DisksBeforeMachine(plan: Plan, naming: Naming, v: Vm, s: State, live: set<string>, k: nat)
    requires NamesApart(plan, naming) && v in plan.vms
    requires k < |MachineRealize(plan, naming, v)|
    requires MachineRealize(plan, naming, v)[k] == Create(naming(Slot(false, Machine, v.name, 0)))
    ensures DiskNames(naming, v) <= Played(MachineRealize(plan, naming, v)[..k], s, live).1
  {
    Regroup(OsDiskUp(naming, v), DataDisksUp(naming, v, 0), MachineUp(naming, v), MachineReady(plan, v));
    DisksProfile(naming, v);
    MachineApart(plan, naming, v);
    MachineTakesNothing(plan, naming, v);
    CreatedAfter(OsDiskUp(naming, v) + DataDisksUp(naming, v, 0),
                 Profile(DiskNames(naming, v), {BuiltKey(v.name, None), PoolKey(v.osPool)} + DataKeys(v, 0), {}),
                 MachineUp(naming, v) + MachineReady(plan, v), naming(Slot(false, Machine, v.name, 0)), s, live, k);
  }

  lemma {:induction false} SegmentsTakeNothing(naming: Naming, build: bool, networks: seq<string>)
    ensures TakesNothing(SegmentsUp(naming, build, networks))
  {
    if networks != [] {
      SegmentsTakeNothing(naming, build, networks[1..]);
    }
  }

  /** A network is created once its switch exists. */
  lemma FabricBeforeSegments(plan: Plan, naming: Naming, build: bool, sw: Switch, n: string, s: State,
                             live: set<string>, k: nat)
    requires NamesApart(plan, naming) && SwitchUsed(plan, build, sw) && n in sw.networks
    requires k < |FabricUp(naming, build, sw)|
    requires FabricUp(naming, build, sw)[k] == Create(naming(Slot(build, Segment, n, 0)))
    ensures naming(Slot(build, Fabric, sw.name, 0)) in Played(FabricUp(naming, build, sw)[..k], s, live).1
  {
    var fabric, segment, put := Slot(build, Fabric, sw.name, 0), Slot(build, Segment, n, 0), Put(SwitchKey(sw.name));
    assert Used(plan, fabric) && Used(plan, segment);
    HasBring(naming, fabric);
    HasOne(put);
    HasConcat(Bring(naming, fabric), Only(naming(fabric)), [put], Of(put));
    SegmentsTakeNothing(naming, build, sw.networks);
    CreatedAfter(Bring(naming, fabric) + [put], Join(Only(naming(fabric)), Of(put)),
                 SegmentsUp(naming, build, sw.networks) + UplinkPut(sw), naming(segment), s, live, k);
  }

  lemma SidecarApart(plan: Plan, naming: Naming, build: bool, sw: Switch)
    requires NamesApart(plan, naming) && SwitchUsed(plan, build, sw) && sw.NeedsSidecar()
    ensures naming(Slot(build, SidecarVm, sw.name, 0)) !in SidecarVolumes(naming, build, sw)
  {
    assert Used(plan, Slot(build, SidecarDisk, sw.name, 0)) && Used(plan, Slot(build, SidecarConfig, sw.name, 0));
    assert Used(plan, Slot(build, SidecarVm, sw.name, 0));
  }

  /** A sidecar VM is created once both its volumes exist. */
  lemma VolumesBeforeSidecar(plan: Plan, naming: Naming, build: bool, sw: Switch, s: State, live: set<string>, k: nat)
    requires NamesApart(plan, naming) && SwitchUsed(plan, build, sw) && sw.NeedsSidecar() && sw.networks != []
    requires k < |SidecarUp(naming, build, sw)|
    requires SidecarUp(naming, build, sw)[k] == Create(naming(Slot(build, SidecarVm, sw.name, 0)))
    ensures SidecarVolumes(naming, build, sw) <= Played(SidecarUp(naming, build, sw)[..k], s, live).1
  {
    var disk, config, vm := Slot(build, SidecarDisk, sw.name, 0), Slot(build, SidecarConfig, sw.name, 0),
        Slot(build, SidecarVm, sw.name, 0);
    SidecarApart(plan, naming, build, sw);
    HasBring(naming, disk);
    HasBring(naming, config);
    HasConcat(Bring(naming, disk), Only(naming(disk)), Bring(naming, config), Only(naming(config)));
    CreatedAfter(Bring(naming, disk) + Bring(naming, config), Join(Only(naming(disk)), Only(naming(config))),
                 SidecarLookups(sw) + (Bring(naming, vm) + [Work, Put(SidecarKey(sw.name))]), naming(vm), s, live, k);
  }

  // ---- What the build phase leaves ---------------------------------------------------------------------

  ghost function BuiltKeys(v: Vm, from: nat): set<Key> {
    {BuiltKey(v.name, None)} + (set i: nat | from <= i < |v.dataPools| :: BuiltKey(v.name, Some(i)))
  }

  lemma {:induction false} BuiltPutsProfile(v: Vm, i: nat)
    requires i <= |v.dataPools|
    ensures Has(BuiltPuts(v, i), Profile({}, {}, BuiltKeys(v, i))) && Builds(BuiltPuts(v, i))
    decreases |v.dataPools| - i
  {
    if i == |v.dataPools| {
      HasOne(Put(BuiltKey(v.name, None)));
      assert BuiltKeys(v, i) == {BuiltKey(v.name, None)};
    } else {
      var put := Put(BuiltKey(v.name, Some(i)));
      HasOne(put);
      BuiltPutsProfile(v, i + 1);
      HasConcat([put], Of(put), BuiltPuts(v, i + 1), Profile({}, {}, BuiltKeys(v, i + 1)));
      assert BuiltKeys(v, i) == {put.key} + BuiltKeys(v, i + 1);
    }
  }

  lemma {:induction false} BuildDataBuilds(naming: Naming, v: Vm, i: nat)
    requires i <= |v.dataPools|
    ensures Builds(BuildDataUp(naming, v, i))
    decreases |v.dataPools| - i
  {
    if i < |v.dataPools| {
      BuildDataBuilds(naming, v, i + 1);
    }
  }

  lemma BuildsConcat(p: Program, q: Program)
    requires Builds(p) && Builds(q)
    ensures Builds(p + q)
  {
  }

  lemma BuildUpBuilds(naming: Naming, v: Vm)
    ensures Builds(BuildUp(naming, v))
  {
    BuildDataBuilds(naming, v, 0);
  }

  lemma JoinCapture(names: set<string>, keys: set<Key>)
    ensures Join(NOTHING, Profile(names, {}, {})) == Profile(names, {}, {})
    ensures Join(NOTHING, Profile({}, {}, keys)) == Profile({}, {}, keys)
    ensures Join(Profile(names, {}, {}), Profile({}, {}, keys)) == Profile(names, {}, keys)
  {
  }

  /** A build made of `up`, which brings up `names`; `puts`, which captures `keys`; and `down`,
      which takes everything down again. */
  ghost predicate Parts(up: Program, puts: Program, down: Program, names: set<string>, keys: set<Key>) {
    && Builds(up) && Has(up, Profile(names, {}, {}))
    && Builds(puts) && Has(puts, Profile({}, {}, keys))
    && Clears(down, names)
  }

  lemma BuildParts(naming: Naming, v: Vm)
    ensures Parts(BuildUp(naming, v), BuiltPuts(v, 0), BuildDown(naming, v), BuildNames(naming, v), BuiltKeys(v, 0))
  {
    BuildProfile(naming, v);
    BuildUpBuilds(naming, v);
    BuiltPutsProfile(v, 0);
    BuildClears(naming, v);
  }

  /** The build up to and including the capture of every disk. */
  lemma CaptureProfile(up: Program, puts: Program, down: Program, names: set<string>, keys: set<Key>)
    requires Parts(up, puts, down, names, keys)
    ensures Builds([EnsureInfra] + up) && Has([EnsureInfra] + up, Profile(names, {}, {}))
    ensures var p := ([EnsureInfra] + up) + ([Work] + puts);
            Builds(p) && Has(p, Profile(names, {}, keys))
  {
    HasOne(EnsureInfra);
    HasOne(Work);
    JoinCapture(names, keys);
    HasConcat([EnsureInfra], NOTHING, up, Profile(names, {}, {}));
    HasConcat([Work], NOTHING, puts, Profile({}, {}, keys));
    HasConcat([EnsureInfra] + up, Profile(names, {}, {}), [Work] + puts, Profile({}, {}, keys));
    BuildsConcat([EnsureInfra], up);
    BuildsConcat([Work], puts);
    BuildsConcat([EnsureInfra] + up, [Work] + puts);
  }

  lemma ClearsPutsNothing(p: Program, names: set<string>, q: Program, keys: set<Key>)
    requires Clears(p, names) && Puts(q) == keys
    ensures Puts(q + p) == keys
  {
    assert forall a :: a in q + p <==> a in q || a in p;
  }

  /** A build in which no call fails leaves nothing of its own on the backend or in the
      ledger, touches no other name, and has captured every disk of the VM. */
  lemma MachineBuildLeaves(naming: Naming, v: Vm, s: State, live: set<string>)
    ensures var (s', live') := Played(MachineBuild(naming, v), s, live);
            && live' == live - BuildNames(naming, v)
            && NamesOf(s'.resources) == NamesOf(s.resources) - BuildNames(naming, v)
    ensures Puts(MachineBuild(naming, v)) == BuiltKeys(v, 0)
  {
    BuildParts(naming, v);
    WholeBuild(BuildUp(naming, v), BuiltPuts(v, 0), BuildDown(naming, v), BuildNames(naming, v), BuiltKeys(v, 0), s,
               live);
  }

  lemma WholeBuild(up: Program, puts: Program, down: Program, names: set<string>, keys: set<Key>, s: State,
                   live: set<string>)
    requires Parts(up, puts, down, names, keys)
    ensures var p := ([EnsureInfra] + up) + (([Work] + puts) + down);
            var (s', live') := Played(p, s, live);
            live' == live - names && NamesOf(s'.resources) == NamesOf(s.resources) - names && Puts(p) == keys
  {
    var first := ([EnsureInfra] + up) + ([Work] + puts);
    assert ([EnsureInfra] + up) + (([Work] + puts) + down) == first + down;
    CaptureProfile(up, puts, down, names, keys);
    UpThenDown(first, Profile(names, {}, keys), down, names, s, live);
    HasMeans(first, Profile(names, {}, keys));
    ClearsPutsNothing(down, names, first, keys);
  }

  /** Every disk is captured while everything the build brought up still exists. */
  lemma CapturesWhileLive(naming: Naming, v: Vm, s: State, live: set<string>, k: nat)
    requires k < |MachineBuild(naming, v)| && MachineBuild(naming, v)[k].Put?
    ensures BuildNames(naming, v) <= Played(MachineBuild(naming, v)[..k], s, live).1
  {
    BuildParts(naming, v);
    CapturesBetween(BuildUp(naming, v), BuiltPuts(v, 0), BuildDown(naming, v), BuildNames(naming, v), BuiltKeys(v, 0),
                    s, live, k);
  }

  lemma CapturesBetween(up: Program, puts: Program, down: Program, names: set<string>, keys: set<Key>, s: State,
                        live: set<string>, k: nat)
    requires Parts(up, puts, down, names, keys)
    requires var p := ([EnsureInfra] + up) + (([Work] + puts) + down); k < |p| && p[k].Put?
    ensures var p := ([EnsureInfra] + up) + (([Work] + puts) + down); names <= Played(p[..k], s, live).1
  {
    var first, mid := [EnsureInfra] + up, [Work] + puts;
    var p := first + (mid + down);
    CaptureProfile(up, puts, down, names, keys);
    HasMeans(first, Profile(names, {}, {}));
    assert forall a | a in first && a.Put? :: a.key in Puts(first);
    assert forall i | 0 <= i < |first| :: p[i] in first;
    assert forall i | |first| + |mid| <= i < |p| :: p[i] in down;
    assert |first| <= k < |first| + |mid|;
    var done := mid[..k - |first|];
    assert p[..k] == first + done;
    assert Builds(done) by {
      assert forall a | a in done :: a in mid;
    }
    PlayedConcat(first, done, s, live);
    BringsUp(first, s, live);
    BringsUp(done, Played(first, s, live).0, Played(first, s, live).1);
  }

  /** The two sidecar volumes of the build switch, if it has a sidecar. */
  ghost function InfraVolumes(naming: Naming, s: Switch): set<string> {
    if s.NeedsSidecar() then SidecarVolumes(naming, true, s) else {}
  }

  /** A sidecar volume of the build switch is none of the names its teardown removes. */
  lemma VolumeStays(plan: Plan, naming: Naming, part: Part)
    requires NamesApart(plan, naming) && plan.buildSwitch.NeedsSidecar() && (part.SidecarDisk? || part.SidecarConfig?)
    ensures naming(Slot(true, part, plan.buildSwitch.name, 0)) !in InfraRemoved(naming, plan.buildSwitch)
  {
    var s := plan.buildSwitch;
    var volume, vm, fabric := Slot(true, part, s.name, 0), Slot(true, SidecarVm, s.name, 0),
        Slot(true, Fabric, s.name, 0);
    assert SwitchUsed(plan, true, s);
    assert Used(plan, volume) && Used(plan, vm) && Used(plan, BUILD_POOL) && Used(plan, fabric);
    forall n | n in s.networks ensures naming(Slot(true, Segment, n, 0)) != naming(volume) {
      assert Used(plan, Slot(true, Segment, n, 0));
    }
  }

  lemma VolumesApart(plan: Plan, naming: Naming)
    requires NamesApart(plan, naming)
    ensures InfraVolumes(naming, plan.buildSwitch) !! InfraRemoved(naming, plan.buildSwitch)
    ensures InfraNames(naming, plan.buildSwitch) ==
            InfraRemoved(naming, plan.buildSwitch) + InfraVolumes(naming, plan.buildSwitch)
  {
    var s := plan.buildSwitch;
    if s.NeedsSidecar() {
      VolumeStays(plan, naming, SidecarDisk);
      VolumeStays(plan, naming, SidecarConfig);
    }
  }

  lemma {:induction false} SegmentsBuild(naming: Naming, build: bool, networks: seq<string>)
    ensures Builds(SegmentsUp(naming, build, networks))
  {
    if networks != [] {
      SegmentsBuild(naming, build, networks[1..]);
    }
  }

  lemma InfraBuilds(naming: Naming, s: Switch)
    requires s.networks != []
    ensures Builds(InfraUp(naming, s))
  {
    SegmentsBuild(naming, true, s.networks);
    assert Builds(FabricUp(naming, true, s)) && Builds(SidecarUp(naming, true, s));
  }

  /** Bringing the build infra up and taking it down again, no call failing, leaves of it the
      two volumes of its sidecar, recorded, and nothing else; no other name is touched. */
  lemma InfraLeaves(plan: Plan, naming: Naming, s: State, live: set<string>)
    requires NamesApart(plan, naming) && plan.buildSwitch.networks != []
    ensures var infra, volumes := InfraNames(naming, plan.buildSwitch), InfraVolumes(naming, plan.buildSwitch);
            var (s', live') := Played(InfraUp(naming, plan.buildSwitch) + InfraGone(naming, plan.buildSwitch), s, live);
            && live' == live - infra + volumes
            && NamesOf(s'.resources) == NamesOf(s.resources) - infra + volumes
  {
    var b := plan.buildSwitch;
    InfraProfile(naming, b);
    InfraBuilds(naming, b);
    InfraClears(naming, b);
    VolumesApart(plan, naming);
    LessVolumes(live, InfraRemoved(naming, b), InfraVolumes(naming, b));
    LessVolumes(NamesOf(s.resources), InfraRemoved(naming, b), InfraVolumes(naming, b));
    UpThenDown(InfraUp(naming, b), Profile(InfraNames(naming, b), {NetworkKey(b.networks[0])} + UplinkKeys(b),
               FabricKeys(b) + (if b.NeedsSidecar() then {SidecarKey(b.name)} else {})),
               InfraGone(naming, b), InfraRemoved(naming, b), s, live);
  }

  lemma LessVolumes(names: set<string>, removed: set<string>, volumes: set<string>)
    requires volumes !! removed
    ensures names + (removed + volumes) - removed == names - (removed + volumes) + volumes
  {
  }
}
