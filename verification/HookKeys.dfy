/** What each hook looks up in the process's dictionaries and what it leaves in them. */
module HookKeys {
  import opened Wrappers
  import opened Actions
  import opened RunLookups
  import opened Plans
  import opened Hooks

  /** Every lookup of the program is of a key in `keys`. */
  ghost predicate Looks(p: Program, keys: set<Key>) {
    forall a | a in p && a.Get? :: a.key in keys
  }

  lemma {:induction false} LooksSuffice(p: Program, keys: set<Key>)
    requires Looks(p, keys) && NoDrops(p)
    ensures Defined(p, keys)
  {
    if p != [] && !p[0].Abort? {
      assert p[0] in p;
      assert Looks(p[1..], KeysAfter(p[0], keys));
      LooksSuffice(p[1..], KeysAfter(p[0], keys));
    }
  }

  lemma PutsConcat(p: Program, q: Program)
    ensures Puts(p + q) == Puts(p) + Puts(q) && Drops(p + q) == Drops(p) + Drops(q)
  {
    assert forall a :: a in p + q <==> a in p || a in q;
  }

  // ---- Fabrics -----------------------------------------------------------------------

  lemma {:induction false} SegmentsPut(naming: Naming, build: bool, networks: seq<string>)
    ensures Looks(SegmentsUp(naming, build, networks), {})
    ensures forall n | n in networks :: NetworkKey(n) in Puts(SegmentsUp(naming, build, networks))
    ensures forall n | n in networks :: NetworkKey(n) in Puts(SegmentsAgain(networks))
  {
    if networks != [] {
      SegmentsPut(naming, build, networks[1..]);
      var first, rest := SegmentUp(naming, build, networks[0]), SegmentsUp(naming, build, networks[1..]);
      PutsConcat(first, rest);
      assert first[3] == Put(NetworkKey(networks[0])) && first[3] in first;
      var again := [Put(NetworkKey(networks[0]))];
      PutsConcat(again, SegmentsAgain(networks[1..]));
      assert again[0] in again;
    }
  }

  lemma FabricLooks(naming: Naming, build: bool, s: Switch)
    ensures Looks(FabricUp(naming, build, s), {})
  {
    SegmentsPut(naming, build, s.networks);
    var first := Bring(naming, Slot(build, Fabric, s.name, 0)) + [Put(SwitchKey(s.name))];
    assert Looks(first, {}) && Looks(SegmentsUp(naming, build, s.networks) + UplinkPut(s), {});
  }

  lemma FabricPuts(naming: Naming, build: bool, s: Switch)
    ensures Puts(SegmentsUp(naming, build, s.networks) + UplinkPut(s)) <= Puts(FabricUp(naming, build, s))
    ensures forall n | n in s.networks ::
              NetworkKey(n) in Puts(FabricUp(naming, build, s)) && NetworkKey(n) in Puts(FabricAgain(s))
    ensures s.Nat() ==> NetworkKey(UplinkName(s.name)) in Puts(FabricUp(naming, build, s))
  {
    SegmentsPut(naming, build, s.networks);
    var first := Bring(naming, Slot(build, Fabric, s.name, 0)) + [Put(SwitchKey(s.name))];
    var segments, uplink := SegmentsUp(naming, build, s.networks), UplinkPut(s);
    PutsConcat(segments, uplink);
    PutsConcat(first, segments + uplink);
    PutsConcat([Put(SwitchKey(s.name))], SegmentsAgain(s.networks));
    assert s.Nat() ==> uplink[0] in uplink;
  }

  // ---- Sidecars --------------------------------------------------------------------------

  ghost predicate SidecarKeysKnown(s: Switch, keys: set<Key>) {
    && (s.networks != [] ==> NetworkKey(s.networks[0]) in keys)
    && (s.Nat() ==> NetworkKey(UplinkName(s.name)) in keys)
  }

  lemma SidecarLooks(naming: Naming, build: bool, s: Switch, keys: set<Key>)
    requires SidecarKeysKnown(s, keys)
    ensures Looks(SidecarUp(naming, build, s), keys)
    ensures s.networks != [] ==> SidecarKey(s.name) in Puts(SidecarUp(naming, build, s))
  {
    if s.networks != [] {
      var disks := Bring(naming, Slot(build, SidecarDisk, s.name, 0)) +
          Bring(naming, Slot(build, SidecarConfig, s.name, 0));
      var vm, tail := Bring(naming, Slot(build, SidecarVm, s.name, 0)), [Work, Put(SidecarKey(s.name))];
      assert tail[1] in tail;
      PutsConcat(vm, tail);
      PutsConcat(SidecarLookups(s), vm + tail);
      PutsConcat(disks, SidecarLookups(s) + (vm + tail));
      assert Looks(SidecarLookups(s), keys);
    }
  }

  lemma SidecarDefined(naming: Naming, pool: string, s: Switch, keys: set<Key>)
    requires PoolKey(pool) in keys && SidecarKeysKnown(s, keys) && NoDrops(SidecarUp(naming, false, s))
    ensures Defined(SidecarRealize(naming, pool, s), keys)
  {
    var get, up, ready := [Get(PoolKey(pool))], SidecarUp(naming, false, s), SidecarReady(s);
    SidecarLooks(naming, false, s, keys);
    if s.networks == [] {
      var p := (get + up) + ready;
      assert p[0] == get[0] && p[1..][0] == Abort;
    } else {
      LooksSuffice(get + up, keys);
      PutsConcat(get, up);
      LooksSuffice(ready, {SidecarKey(s.name)});
      DefinedConcat(get + up, ready, keys, {SidecarKey(s.name)});
    }
  }

  lemma SidecarPuts(naming: Naming, pool: string, s: Switch)
    ensures s.networks != [] ==> SidecarKey(s.name) in Puts(SidecarRealize(naming, pool, s))
    ensures SidecarKey(s.name) in Puts(SidecarAgain(s))
    ensures ServingKey(s.name) in Puts(SidecarRealize(naming, pool, s)) && ServingKey(s.name) in Puts(SidecarAgain(s))
    ensures Defined(SidecarAgain(s), {})
  {
    var get, up, ready := [Get(PoolKey(pool))], SidecarUp(naming, false, s), SidecarReady(s);
    SidecarLooks(naming, false, s, (if s.networks != [] then {NetworkKey(s.networks[0])} else {}) +
        {NetworkKey(UplinkName(s.name))});
    PutsConcat(get, up);
    PutsConcat(get + up, ready);
    var again := [Put(SidecarKey(s.name))];
    PutsConcat(again, ready);
    assert again[0] in again && ready[2] in ready;
    LooksSuffice(again, {});
    LooksSuffice(ready, {SidecarKey(s.name)});
    DefinedConcat(again, ready, {}, {SidecarKey(s.name)});
  }

  // ---- Machines ---------------------------------------------------------------------------

  ghost predicate DisksKnown(v: Vm, keys: set<Key>) {
    && BuiltKey(v.name, None) in keys && PoolKey(v.osPool) in keys
    && (forall i | 0 <= i < |v.dataPools| :: BuiltKey(v.name, Some(i)) in keys && PoolKey(v.dataPools[i]) in keys)
  }

  ghost predicate NicsKnown(v: Vm, keys: set<Key>) {
    forall nic | nic in v.nics :: NetworkKey(nic.network) in keys
  }

  ghost predicate LeasesKnown(plan: Plan, nics: seq<Nic>, keys: set<Key>) {
    forall nic | nic in nics :: Looks(LeaseWait(plan, nic), keys)
  }

  lemma {:induction false} DataDisksLook(naming: Naming, v: Vm, i: nat, keys: set<Key>)
    requires DisksKnown(v, keys) && i <= |v.dataPools|
    ensures Looks(DataDisksUp(naming, v, i), keys)
    decreases |v.dataPools| - i
  {
    if i < |v.dataPools| {
      DataDisksLook(naming, v, i + 1, keys);
      assert Looks(DataDiskUp(naming, v, i), keys);
    }
  }

  lemma {:induction false} NicsLook(nics: seq<Nic>, keys: set<Key>)
    requires forall nic | nic in nics :: NetworkKey(nic.network) in keys
    ensures Looks(NicLookups(nics), keys)
  {
    if nics != [] {
      NicsLook(nics[1..], keys);
    }
  }

  lemma {:induction false} LeasesLook(plan: Plan, nics: seq<Nic>, keys: set<Key>)
    requires LeasesKnown(plan, nics, keys)
    ensures Looks(LeaseWaits(plan, nics), keys)
  {
    if nics != [] {
      LeasesLook(plan, nics[1..], keys);
    }
  }

  lemma MachineLooks(plan: Plan, naming: Naming, v: Vm, keys: set<Key>)
    requires LeasesKnown(plan, v.nics, keys)
    ensures Looks(MachineReady(plan, v), keys)
    ensures DisksKnown(v, keys) && NicsKnown(v, keys) ==> Looks(MachineRealize(plan, naming, v), keys)
  {
    LeasesLook(plan, v.nics, keys);
    if DisksKnown(v, keys) && NicsKnown(v, keys) {
      DataDisksLook(naming, v, 0, keys);
      NicsLook(v.nics, keys);
      assert Looks(OsDiskUp(naming, v), keys);
      assert Looks(MachineUp(naming, v), keys);
    }
  }

  // ---- Building -------------------------------------------------------------------------------

  lemma {:induction false} BuiltPutsAre(v: Vm, i: nat)
    requires i <= |v.dataPools|
    ensures BuiltKey(v.name, None) in Puts(BuiltPuts(v, i))
    ensures forall j: nat | i <= j < |v.dataPools| :: BuiltKey(v.name, Some(j)) in Puts(BuiltPuts(v, i))
    ensures forall k | k in Puts(BuiltPuts(v, i)) :: k.BuiltKey?
    ensures Looks(BuiltPuts(v, i), {})
    decreases |v.dataPools| - i
  {
    if i == |v.dataPools| {
      assert BuiltPuts(v, i)[0] == Put(BuiltKey(v.name, None));
    } else {
      BuiltPutsAre(v, i + 1);
      PutsConcat([Put(BuiltKey(v.name, Some(i)))], BuiltPuts(v, i + 1));
      assert [Put(BuiltKey(v.name, Some(i)))][0] == Put(BuiltKey(v.name, Some(i)));
    }
  }

  lemma {:induction false} BuildDataQuiet(naming: Naming, v: Vm, i: nat)
    requires i <= |v.dataPools|
    ensures Looks(BuildDataUp(naming, v, i), {}) && Looks(BuildDataDown(naming, v, i), {})
    decreases |v.dataPools| - i
  {
    if i < |v.dataPools| {
      BuildDataQuiet(naming, v, i + 1);
    }
  }

  lemma MachineBuildKeys(naming: Naming, v: Vm)
    ensures Looks(MachineBuild(naming, v), {}) && Puts(BuiltPuts(v, 0)) <= Puts(MachineBuild(naming, v))
  {
    BuildDataQuiet(naming, v, 0);
    BuiltPutsAre(v, 0);
    assert Looks(BuildUp(naming, v), {}) && Looks(BuildDown(naming, v), {});
    var first, puts, down := [EnsureInfra] + BuildUp(naming, v), [Work] + BuiltPuts(v, 0), BuildDown(naming, v);
    PutsConcat([Work], BuiltPuts(v, 0));
    PutsConcat(puts, down);
    PutsConcat(first, puts + down);
  }

  lemma InfraDefined(naming: Naming, s: Switch)
    requires NoDrops(InfraUp(naming, s))
    ensures Defined(InfraUp(naming, s), {})
  {
    var first := Bring(naming, BUILD_POOL) + FabricUp(naming, true, s);
    var get := if s.networks == [] then [Abort] else [Get(NetworkKey(s.networks[0]))];
    var sidecar := Optional(s.NeedsSidecar(), SidecarUp(naming, true, s));
    FabricPuts(naming, true, s);
    FabricLooks(naming, true, s);
    PutsConcat(Bring(naming, BUILD_POOL), FabricUp(naming, true, s));
    var known := Puts(first);
    assert NoDrops(first) && NoDrops(get + sidecar) by {
      assert forall a :: a in InfraUp(naming, s) <==> a in first || a in get + sidecar;
    }
    LooksSuffice(first, {});
    SidecarLooks(naming, true, s, known);
    LooksSuffice(get + sidecar, known);
    DefinedConcat(first, get + sidecar, {}, known);
  }

  lemma {:induction false} SegmentsDrop(naming: Naming, networks: seq<string>)
    ensures forall k | k in Drops(SegmentsDown(naming, networks)) :: !k.BuiltKey?
    ensures forall n | n in networks :: NetworkKey(n) in Drops(SegmentsDown(naming, networks))
  {
    if networks != [] {
      SegmentsDrop(naming, networks[1..]);
      var first := [Drop(NetworkKey(networks[0]))] + Remove(naming, Slot(true, Segment, networks[0], 0));
      assert first[0] in first;
      PutsConcat(first, SegmentsDown(naming, networks[1..]));
    }
  }

  ghost predicate NoArtifacts(p: Program) {
    forall k | k in Drops(p) :: !k.BuiltKey?
  }

  lemma ArtifactsConcat(p: Program, q: Program)
    requires NoArtifacts(p) && NoArtifacts(q)
    ensures NoArtifacts(p + q) && Drops(p) <= Drops(p + q) && Drops(q) <= Drops(p + q)
  {
    PutsConcat(p, q);
  }

  lemma FabricDrops(naming: Naming, s: Switch)
    ensures var p := ([Drop(NetworkKey(UplinkName(s.name))), Drop(SwitchKey(s.name))] +
            Remove(naming, Slot(true, Fabric, s.name, 0)))
                     + Remove(naming, BUILD_POOL);
            NoArtifacts(p) && NetworkKey(UplinkName(s.name)) in Drops(p)
  {
    var drops := [Drop(NetworkKey(UplinkName(s.name))), Drop(SwitchKey(s.name))];
    var fabric, pool := Remove(naming, Slot(true, Fabric, s.name, 0)), Remove(naming, BUILD_POOL);
    assert drops[0] in drops;
    ArtifactsConcat(drops, fabric);
    ArtifactsConcat(drops + fabric, pool);
  }

  /** Taking the infra down drops no build artifact, and every network entry it made. */
  lemma InfraDrops(naming: Naming, s: Switch)
    ensures forall k | k in Drops(InfraGone(naming, s)) :: !k.BuiltKey?
    ensures s.networks != [] ==> NetworkKey(UplinkName(s.name)) in Drops(InfraGone(naming, s))
    ensures forall n | n in s.networks :: NetworkKey(n) in Drops(InfraGone(naming, s))
  {
    if s.networks != [] {
      SegmentsDrop(naming, s.networks);
      FabricDrops(naming, s);
      var first := Optional(s.NeedsSidecar(), [Drop(SidecarKey(s.name))] +
          Remove(naming, Slot(true, SidecarVm, s.name, 0)));
      var segments := SegmentsDown(naming, s.networks);
      var rest := ([Drop(NetworkKey(UplinkName(s.name))), Drop(SwitchKey(s.name))] +
          Remove(naming, Slot(true, Fabric, s.name, 0)))
                  + Remove(naming, BUILD_POOL);
      ArtifactsConcat(first, segments);
      ArtifactsConcat(first + segments, rest);
    }
  }
}
