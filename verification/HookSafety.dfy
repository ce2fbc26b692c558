/** Every hook of a plan is safe: it records a resource before creating it, destroys before
    forgetting, and touches only resources that belong to its node.
 */
module HookSafety {
  import opened Wrappers
  import opened Ledger
  import opened Actions
  import opened RunSystem
  import opened RunLookups
  import opened Plans
  import opened Hooks

  // ---- Who owns a resource --------------------------------------------------------------------

  datatype Owner = Infra | Materialize(node: string) | Realize(node: string)

  function OwnerOf(plan: Plan, s: Slot): Owner {
    match s.part
    case Pool => if s.build then Infra else Realize(PoolNode(s.name))
    case Fabric => if s.build then Infra else Realize(NetworkNode(s.name))
    case Segment =>
      if s.build then Infra
      else
        var owner := SwitchOwning(plan.switches, s.name);
        Realize(NetworkNode(if owner.Some? then owner.value.name else ""))
    case SidecarDisk => if s.build then Infra else Realize(SidecarNode(s.name))
    case SidecarConfig => if s.build then Infra else Realize(SidecarNode(s.name))
    case SidecarVm => if s.build then Infra else Realize(SidecarNode(s.name))
    case _ => if s.build then Materialize(VmNode(s.name)) else Realize(VmNode(s.name))
  }

  /** The resources a plan can ever ask for; only data disks are numbered. */
  ghost predicate Used(plan: Plan, s: Slot) {
    match s.part
    case Pool => s.index == 0 && if s.build then s == BUILD_POOL else s.name in plan.pools
    case Fabric => s.index == 0 && exists sw :: SwitchUsed(plan, s.build, sw) && sw.name == s.name
    case Segment =>
      && s.index == 0
      && if s.build then s.name in plan.buildSwitch.networks else SwitchOwning(plan.switches, s.name).Some?
    case SidecarDisk => s.index == 0 && SidecarUsed(plan, s)
    case SidecarConfig => s.index == 0 && SidecarUsed(plan, s)
    case SidecarVm => s.index == 0 && SidecarUsed(plan, s)
    case _ => exists v :: v in plan.vms && v.name == s.name && VmUses(v, s)
  }

  ghost predicate SwitchUsed(plan: Plan, build: bool, sw: Switch) {
    if build then sw == plan.buildSwitch else sw in plan.switches
  }

  ghost predicate SidecarUsed(plan: Plan, s: Slot) {
    exists sw :: SwitchUsed(plan, s.build, sw) && sw.name == s.name && sw.NeedsSidecar()
  }

  /** Which of a VM's possible resources it has. */
  ghost predicate VmUses(v: Vm, s: Slot) {
    match s.part
    case OsDisk => s.index == 0
    case Machine => s.index == 0
    case DataDisk => s.index < |v.dataPools|
    case BootMedia => s.index == 0 && s.build && v.installer
    case Seed => s.index == 0 && s.build && v.seeded
    case _ => false
  }

  /** Distinct resources of the run have distinct backend names. */
  ghost predicate NamesApart(plan: Plan, naming: Naming) {
    forall a, b | Used(plan, a) && Used(plan, b) && naming(a) == naming(b) :: a == b
  }

  /** `x` names a resource of that owner. */
  ghost predicate Claims(plan: Plan, naming: Naming, owner: Owner, x: string) {
    exists s :: naming(s) == x && Used(plan, s) && OwnerOf(plan, s) == owner
  }

  ghost predicate KeepsTo(plan: Plan, naming: Naming, owner: Owner, p: Program) {
    forall x | x in Mentions(p) :: Claims(plan, naming, owner, x)
  }

  /** Programs of different owners touch different resources. */
  lemma OwnersApart(plan: Plan, naming: Naming, a: Owner, p: Program, b: Owner, q: Program)
    requires NamesApart(plan, naming) && KeepsTo(plan, naming, a, p) && KeepsTo(plan, naming, b, q)
    ensures a == b || Mentions(p) !! Mentions(q)
  {
    forall x | x in Mentions(p) && x in Mentions(q) ensures a == b {
      var s :| naming(s) == x && Used(plan, s) && OwnerOf(plan, s) == a;
      var t :| naming(t) == x && Used(plan, t) && OwnerOf(plan, t) == b;
    }
  }

  // ---- Composing programs ----------------------------------------------------------------------

  /** Disciplined, unstamped, and within the owner's resources. */
  ghost predicate Basic(plan: Plan, naming: Naming, owner: Owner, p: Program) {
    Disciplined(p) && NoStamps(p) && KeepsTo(plan, naming, owner, p)
  }

  lemma {:induction false} SafeThen(p: Program, q: Program, recorded: set<string>, live: set<string>)
    requires Safe(p, recorded, live) && Disciplined(q)
    ensures Safe(p + q, recorded, live)
    decreases |p|
  {
    if p == [] {
      assert p + q == q;
      DisciplinedIsSafe(q, recorded, live);
    } else {
      assert (p + q)[0] == p[0] && (p + q)[1..] == p[1..] + q;
      match p[0] {
        case Record(r) => SafeThen(p[1..], q, recorded + {r.backendName}, live);
        case Create(x) => SafeThen(p[1..], q, recorded, live + {x});
        case Destroy(x) => SafeThen(p[1..], q, recorded, live - {x});
        case Forget(x) => SafeThen(p[1..], q, recorded - {x}, live);
        case BestEffortDelete(x) => SafeThen(p[1..], q, recorded - {x}, live);
        case _ => SafeThen(p[1..], q, recorded, live);
      }
    }
  }

  lemma DisciplinedConcat(p: Program, q: Program)
    requires Disciplined(p) && Disciplined(q)
    ensures Disciplined(p + q)
  {
    DisciplinedIsSafe(p, {}, Mentions(p + q));
    SafeThen(p, q, {}, Mentions(p + q));
  }

  lemma BasicConcat(plan: Plan, naming: Naming, owner: Owner, p: Program, q: Program)
    requires Basic(plan, naming, owner, p) && Basic(plan, naming, owner, q)
    ensures Basic(plan, naming, owner, p + q)
  {
    DisciplinedConcat(p, q);
    MentionsConcat(p, q);
  }

  lemma LocalBasic(plan: Plan, naming: Naming, owner: Owner, p: Program)
    requires Local(p)
    ensures Basic(plan, naming, owner, p) && NoDrops(p) && Constructive(p)
  {
    LocalIsHarmless(p, {}, Mentions(p));
  }

  /** A slot of the owner. */
  ghost predicate OwnedBy(plan: Plan, owner: Owner, s: Slot) {
    Used(plan, s) && OwnerOf(plan, s) == owner
  }

  lemma ClaimsSlot(plan: Plan, naming: Naming, owner: Owner, p: Program, s: Slot)
    requires OwnedBy(plan, owner, s) && Mentions(p) <= {naming(s)}
    ensures KeepsTo(plan, naming, owner, p)
  {
    assert Claims(plan, naming, owner, naming(s));
  }

  lemma BringBasic(plan: Plan, naming: Naming, owner: Owner, s: Slot)
    requires OwnedBy(plan, owner, s)
    ensures Basic(plan, naming, owner, Bring(naming, s)) && NoDrops(Bring(naming, s)) && Constructive(Bring(naming, s))
  {
    var x := naming(s);
    var p := Bring(naming, s);
    BringSafe(p[0].r, x);
    ClaimsSlot(plan, naming, owner, p, s);
  }

  lemma BringSafe(r: Resource, x: string)
    requires r.backendName == x
    ensures var p := [Record(r), Create(x), Confirm(x, map[])];
            Mentions(p) == {x} && Disciplined(p)
  {
    var p, last := [Record(r), Create(x), Confirm(x, map[])], [Confirm(x, map[])];
    assert p[1..] == [Create(x)] + last && p[1..][1..] == last && last[1..] == [];
    assert Mentions(last) == {x} && Mentions(p[1..]) == {x};
    assert {} + {x} == {x} + {x} == {x};
    assert Safe(last, {x}, {x}) && Safe(p[1..], {x}, {x});
  }

  lemma MentionsTwo(a: Action, b: Action)
    ensures Mentions([a, b]) == NamesIn(a) + NamesIn(b)
  {
    assert [a, b][1..] == [b] && [b][1..] == [];
    assert Mentions([b]) == NamesIn(b) + Mentions([]);
  }

  lemma RemoveSafe(x: string)
    ensures var p := [Destroy(x), Forget(x)];
            Mentions(p) == {x} && Disciplined(p)
  {
    var p := [Destroy(x), Forget(x)];
    MentionsTwo(Destroy(x), Forget(x));
    assert p[1..] == [Forget(x)] && p[1..][1..] == [];
    assert {x} + {x} == {x} && Safe([Forget(x)], {}, {x} - {x});
  }

  lemma DeleteBasic(plan: Plan, naming: Naming, owner: Owner, s: Slot)
    requires OwnedBy(plan, owner, s)
    ensures Basic(plan, naming, owner, [BestEffortDelete(naming(s))])
  {
    var p := [BestEffortDelete(naming(s))];
    assert p[1..] == [] && Mentions(p) == {naming(s)};
    assert Safe([], {} - {naming(s)}, {naming(s)}) && Safe(p, {}, {naming(s)});
    ClaimsSlot(plan, naming, owner, p, s);
  }

  /** A program with no names in it, such as dictionary pops. */
  lemma {:induction false} NamelessBasic(plan: Plan, naming: Naming, owner: Owner, p: Program)
    requires forall a | a in p :: a.Drop? || a.EnsureInfra? || a.Work?
    ensures Basic(plan, naming, owner, p)
  {
    if p != [] {
      assert p[0] in p;
      NamelessBasic(plan, naming, owner, p[1..]);
      assert Mentions(p) == Mentions(p[1..]);
      assert NoStamps(p) by {
        assert forall a | a in p :: !a.Stamp?;
      }
    }
  }

  /** Sound programs of hooks that build up. */
  ghost predicate Sound(plan: Plan, naming: Naming, owner: Owner, p: Program) {
    Basic(plan, naming, owner, p) && Constructive(p)
  }

  lemma SoundConcat(plan: Plan, naming: Naming, owner: Owner, p: Program, q: Program)
    requires Sound(plan, naming, owner, p) && Sound(plan, naming, owner, q)
    ensures Sound(plan, naming, owner, p + q)
  {
    BasicConcat(plan, naming, owner, p, q);
  }

  // ---- Every hook is sound ------------------------------------------------------------------------

  lemma PoolUpSound(plan: Plan, naming: Naming, pool: string)
    requires pool in plan.pools
    ensures Sound(plan, naming, Realize(PoolNode(pool)), PoolUp(naming, pool))
  {
    var owner := Realize(PoolNode(pool));
    BringBasic(plan, naming, owner, Slot(false, Pool, pool, 0));
    LocalBasic(plan, naming, owner, [Put(PoolKey(pool))]);
    SoundConcat(plan, naming, owner, Bring(naming, Slot(false, Pool, pool, 0)), [Put(PoolKey(pool))]);
  }

  lemma {:induction false} SegmentsUpSound(plan: Plan, naming: Naming, owner: Owner, build: bool, networks: seq<string>)
    requires forall n | n in networks :: OwnedBy(plan, owner, Slot(build, Segment, n, 0))
    ensures Sound(plan, naming, owner, SegmentsUp(naming, build, networks))
  {
    if networks == [] {
      LocalBasic(plan, naming, owner, []);
    } else {
      var s, put := Slot(build, Segment, networks[0], 0), [Put(NetworkKey(networks[0]))];
      BringBasic(plan, naming, owner, s);
      LocalBasic(plan, naming, owner, put);
      SoundConcat(plan, naming, owner, Bring(naming, s), put);
      SegmentsUpSound(plan, naming, owner, build, networks[1..]);
      SoundConcat(plan, naming, owner, SegmentUp(naming, build, networks[0]), SegmentsUp(naming, build, networks[1..]));
    }
  }

  lemma FabricUpSound(plan: Plan, naming: Naming, owner: Owner, build: bool, s: Switch)
    requires OwnedBy(plan, owner, Slot(build, Fabric, s.name, 0))
    requires forall n | n in s.networks :: OwnedBy(plan, owner, Slot(build, Segment, n, 0))
    ensures Sound(plan, naming, owner, FabricUp(naming, build, s))
  {
    var fabric, put := Slot(build, Fabric, s.name, 0), [Put(SwitchKey(s.name))];
    BringBasic(plan, naming, owner, fabric);
    LocalBasic(plan, naming, owner, put);
    SoundConcat(plan, naming, owner, Bring(naming, fabric), put);
    SegmentsUpSound(plan, naming, owner, build, s.networks);
    LocalBasic(plan, naming, owner, UplinkPut(s));
    SoundConcat(plan, naming, owner, SegmentsUp(naming, build, s.networks), UplinkPut(s));
    SoundConcat(plan, naming, owner, Bring(naming, fabric) + put, SegmentsUp(naming, build, s.networks) + UplinkPut(s));
  }

  lemma SidecarUpSound(plan: Plan, naming: Naming, owner: Owner, build: bool, s: Switch)
    requires OwnedBy(plan, owner, Slot(build, SidecarDisk, s.name, 0))
    requires OwnedBy(plan, owner, Slot(build, SidecarConfig, s.name, 0))
    requires OwnedBy(plan, owner, Slot(build, SidecarVm, s.name, 0))
    ensures Sound(plan, naming, owner, SidecarUp(naming, build, s))
  {
    if s.networks == [] {
      LocalBasic(plan, naming, owner, [Abort]);
    } else {
      var disk, config := Bring(naming, Slot(build, SidecarDisk, s.name, 0)),
          Bring(naming, Slot(build, SidecarConfig, s.name, 0));
      var vm, tail := Bring(naming, Slot(build, SidecarVm, s.name, 0)), [Work, Put(SidecarKey(s.name))];
      BringBasic(plan, naming, owner, Slot(build, SidecarDisk, s.name, 0));
      BringBasic(plan, naming, owner, Slot(build, SidecarConfig, s.name, 0));
      BringBasic(plan, naming, owner, Slot(build, SidecarVm, s.name, 0));
      LocalBasic(plan, naming, owner, tail);
      LocalBasic(plan, naming, owner, SidecarLookups(s));
      SoundConcat(plan, naming, owner, disk, config);
      SoundConcat(plan, naming, owner, vm, tail);
      SoundConcat(plan, naming, owner, SidecarLookups(s), vm + tail);
      SoundConcat(plan, naming, owner, disk + config, SidecarLookups(s) + (vm + tail));
    }
  }

  lemma SidecarRealizeSound(plan: Plan, naming: Naming, pool: string, s: Switch)
    requires s in plan.switches && s.NeedsSidecar()
    ensures Sound(plan, naming, Realize(SidecarNode(s.name)), SidecarRealize(naming, pool, s))
  {
    var owner := Realize(SidecarNode(s.name));
    assert SwitchUsed(plan, false, s);
    SidecarUpSound(plan, naming, owner, false, s);
    LocalBasic(plan, naming, owner, [Get(PoolKey(pool))]);
    LocalBasic(plan, naming, owner, SidecarReady(s));
    SoundConcat(plan, naming, owner, [Get(PoolKey(pool))], SidecarUp(naming, false, s));
    SoundConcat(plan, naming, owner, [Get(PoolKey(pool))] + SidecarUp(naming, false, s), SidecarReady(s));
  }

  /** Lookups between recording and creating do no harm. */
  lemma BringAfterSound(plan: Plan, naming: Naming, owner: Owner, s: Slot, lookups: Program)
    requires OwnedBy(plan, owner, s) && Local(lookups)
    ensures Sound(plan, naming, owner, BringAfter(naming, s, lookups))
  {
    AroundLookups(Intend(naming, s).r, naming(s), lookups);
    ClaimsSlot(plan, naming, owner, BringAfter(naming, s, lookups), s);
  }

  lemma AroundLookups(r: Resource, x: string, lookups: Program)
    requires r.backendName == x && Local(lookups)
    ensures var p := [Record(r)] + (lookups + [Create(x), Confirm(x, map[])]);
            Mentions(p) == {x} && Disciplined(p) && NoStamps(p) && Constructive(p)
  {
    var last := [Create(x), Confirm(x, map[])];
    assert last[1..] == [Confirm(x, map[])] && last[1..][1..] == [];
    MentionsTwo(Create(x), Confirm(x, map[]));
    assert {} + {x} == {x} + {x} == {x};
    assert Safe(last[1..], {x}, {x}) && Safe(last, {x}, {x});
    LocalIsHarmless(lookups, {x}, {x});
    MentionsConcat(lookups, last);
    SafeConcat(lookups, last, {x}, {x});
    var p := [Record(r)] + (lookups + last);
    assert p[0] == Record(r) && p[1..] == lookups + last;
  }

  lemma DataDiskUpSound(plan: Plan, naming: Naming, v: Vm, i: nat)
    requires v in plan.vms && i < |v.dataPools|
    ensures Sound(plan, naming, Realize(VmNode(v.name)), DataDiskUp(naming, v, i))
  {
    var owner, s := Realize(VmNode(v.name)), Slot(false, DataDisk, v.name, i);
    var pool, built := [Get(PoolKey(v.dataPools[i]))], [Get(BuiltKey(v.name, Some(i)))];
    assert OwnedBy(plan, owner, s);
    LocalBasic(plan, naming, owner, pool);
    BringAfterSound(plan, naming, owner, s, built);
    SoundConcat(plan, naming, owner, pool, BringAfter(naming, s, built));
  }

  lemma {:induction false} DataDisksUpSound(plan: Plan, naming: Naming, v: Vm, i: nat)
    requires v in plan.vms && i <= |v.dataPools|
    ensures Sound(plan, naming, Realize(VmNode(v.name)), DataDisksUp(naming, v, i))
    decreases |v.dataPools| - i
  {
    if i == |v.dataPools| {
      LocalBasic(plan, naming, Realize(VmNode(v.name)), []);
    } else {
      DataDiskUpSound(plan, naming, v, i);
      DataDisksUpSound(plan, naming, v, i + 1);
      SoundConcat(plan, naming, Realize(VmNode(v.name)), DataDiskUp(naming, v, i), DataDisksUp(naming, v, i + 1));
    }
  }

  lemma {:induction false} NicLookupsLocal(nics: seq<Nic>)
    ensures Local(NicLookups(nics))
  {
    if nics != [] {
      NicLookupsLocal(nics[1..]);
    }
  }

  lemma {:induction false} LeaseWaitsLocal(plan: Plan, nics: seq<Nic>)
    ensures Local(LeaseWaits(plan, nics))
  {
    if nics != [] {
      LeaseWaitsLocal(plan, nics[1..]);
    }
  }

  lemma MachineUpSound(plan: Plan, naming: Naming, v: Vm)
    requires v in plan.vms
    ensures Sound(plan, naming, Realize(VmNode(v.name)), MachineUp(naming, v))
  {
    var owner, s := Realize(VmNode(v.name)), Slot(false, Machine, v.name, 0);
    NicLookupsLocal(v.nics);
    assert OwnedBy(plan, owner, s);
    BringAfterSound(plan, naming, owner, s, NicLookups(v.nics));
    LocalBasic(plan, naming, owner, [Work]);
    SoundConcat(plan, naming, owner, BringAfter(naming, s, NicLookups(v.nics)), [Work]);
  }

  lemma OsDiskUpSound(plan: Plan, naming: Naming, v: Vm)
    requires v in plan.vms
    ensures Sound(plan, naming, Realize(VmNode(v.name)), OsDiskUp(naming, v))
  {
    var owner, s := Realize(VmNode(v.name)), Slot(false, OsDisk, v.name, 0);
    var gets := [Get(BuiltKey(v.name, None)), Get(PoolKey(v.osPool))];
    assert OwnedBy(plan, owner, s);
    LocalBasic(plan, naming, owner, gets);
    BringBasic(plan, naming, owner, s);
    SoundConcat(plan, naming, owner, gets, Bring(naming, s));
  }

  lemma MachineReadyLocal(plan: Plan, v: Vm)
    ensures Local(MachineReady(plan, v))
  {
    LeaseWaitsLocal(plan, v.nics);
  }

  lemma MachineRealizeSound(plan: Plan, naming: Naming, v: Vm)
    requires v in plan.vms
    ensures Sound(plan, naming, Realize(VmNode(v.name)), MachineRealize(plan, naming, v))
  {
    var owner := Realize(VmNode(v.name));
    OsDiskUpSound(plan, naming, v);
    DataDisksUpSound(plan, naming, v, 0);
    MachineUpSound(plan, naming, v);
    SoundConcat(plan, naming, owner, DataDisksUp(naming, v, 0), MachineUp(naming, v));
    SoundConcat(plan, naming, owner, OsDiskUp(naming, v), DataDisksUp(naming, v, 0) + MachineUp(naming, v));
    MachineReadyLocal(plan, v);
    LocalBasic(plan, naming, owner, MachineReady(plan, v));
    SoundConcat(plan, naming, owner, MachineCreate(naming, v), MachineReady(plan, v));
  }

  // ---- The build phase is sound -----------------------------------------------------------------

  /** Sound for the build phase: nothing is dropped from the dictionaries. */
  ghost predicate SoundBuild(plan: Plan, naming: Naming, owner: Owner, p: Program) {
    Basic(plan, naming, owner, p) && NoDrops(p)
  }

  lemma BuildConcat(plan: Plan, naming: Naming, owner: Owner, p: Program, q: Program)
    requires SoundBuild(plan, naming, owner, p) && SoundBuild(plan, naming, owner, q)
    ensures SoundBuild(plan, naming, owner, p + q)
  {
    BasicConcat(plan, naming, owner, p, q);
  }

  lemma OptionalBuild(plan: Plan, naming: Naming, owner: Owner, wanted: bool, p: Program)
    requires wanted ==> SoundBuild(plan, naming, owner, p)
    ensures SoundBuild(plan, naming, owner, Optional(wanted, p))
  {
    LocalBasic(plan, naming, owner, []);
  }

  lemma {:induction false} BuildDataSound(plan: Plan, naming: Naming, v: Vm, i: nat)
    requires v in plan.vms && i <= |v.dataPools|
    ensures SoundBuild(plan, naming, Materialize(VmNode(v.name)), BuildDataUp(naming, v, i))
    ensures SoundBuild(plan, naming, Materialize(VmNode(v.name)), BuildDataDown(naming, v, i))
    decreases |v.dataPools| - i
  {
    var owner := Materialize(VmNode(v.name));
    if i == |v.dataPools| {
      LocalBasic(plan, naming, owner, []);
    } else {
      var s := Slot(true, DataDisk, v.name, i);
      assert OwnedBy(plan, owner, s);
      BringBasic(plan, naming, owner, s);
      DeleteBasic(plan, naming, owner, s);
      BuildDataSound(plan, naming, v, i + 1);
      BuildConcat(plan, naming, owner, Bring(naming, s), BuildDataUp(naming, v, i + 1));
      BuildConcat(plan, naming, owner, [BestEffortDelete(naming(s))], BuildDataDown(naming, v, i + 1));
    }
  }

  lemma BuildPartSound(plan: Plan, naming: Naming, v: Vm, part: Part)
    requires v in plan.vms && VmUses(v, Slot(true, part, v.name, 0)) && !part.DataDisk?
    ensures var owner, s := Materialize(VmNode(v.name)), Slot(true, part, v.name, 0);
            && SoundBuild(plan, naming, owner, Bring(naming, s))
            && SoundBuild(plan, naming, owner, [BestEffortDelete(naming(s))])
  {
    var owner, s := Materialize(VmNode(v.name)), Slot(true, part, v.name, 0);
    assert OwnedBy(plan, owner, s);
    BringBasic(plan, naming, owner, s);
    DeleteBasic(plan, naming, owner, s);
  }

  lemma BuildUpSound(plan: Plan, naming: Naming, v: Vm)
    requires v in plan.vms
    ensures SoundBuild(plan, naming, Materialize(VmNode(v.name)), BuildUp(naming, v))
  {
    var owner := Materialize(VmNode(v.name));
    BuildPartSound(plan, naming, v, OsDisk);
    BuildPartSound(plan, naming, v, Machine);
    if v.installer {
      BuildPartSound(plan, naming, v, BootMedia);
    }
    if v.seeded {
      BuildPartSound(plan, naming, v, Seed);
    }
    BuildDataSound(plan, naming, v, 0);
    var os, vm := Bring(naming, Slot(true, OsDisk, v.name, 0)), Bring(naming, Slot(true, Machine, v.name, 0));
    var boot := Optional(v.installer, Bring(naming, Slot(true, BootMedia, v.name, 0)));
    var seed := Optional(v.seeded, Bring(naming, Slot(true, Seed, v.name, 0)));
    var data := BuildDataUp(naming, v, 0);
    OptionalBuild(plan, naming, owner, v.installer, Bring(naming, Slot(true, BootMedia, v.name, 0)));
    OptionalBuild(plan, naming, owner, v.seeded, Bring(naming, Slot(true, Seed, v.name, 0)));
    BuildConcat(plan, naming, owner, os, boot);
    BuildConcat(plan, naming, owner, seed, vm);
    BuildConcat(plan, naming, owner, data, seed + vm);
    BuildConcat(plan, naming, owner, os + boot, data + (seed + vm));
  }

  lemma BuildDownSound(plan: Plan, naming: Naming, v: Vm)
    requires v in plan.vms
    ensures SoundBuild(plan, naming, Materialize(VmNode(v.name)), BuildDown(naming, v))
  {
    var owner := Materialize(VmNode(v.name));
    BuildPartSound(plan, naming, v, OsDisk);
    BuildPartSound(plan, naming, v, Machine);
    if v.installer {
      BuildPartSound(plan, naming, v, BootMedia);
    }
    if v.seeded {
      BuildPartSound(plan, naming, v, Seed);
    }
    BuildDataSound(plan, naming, v, 0);
    var os, vm := [BestEffortDelete(naming(Slot(true, OsDisk, v.name, 0)))],
        [BestEffortDelete(naming(Slot(true, Machine, v.name, 0)))];
    var boot := Optional(v.installer, [BestEffortDelete(naming(Slot(true, BootMedia, v.name, 0)))]);
    var seed := Optional(v.seeded, [BestEffortDelete(naming(Slot(true, Seed, v.name, 0)))]);
    var data := BuildDataDown(naming, v, 0);
    OptionalBuild(plan, naming, owner, v.installer, [BestEffortDelete(naming(Slot(true, BootMedia, v.name, 0)))]);
    OptionalBuild(plan, naming, owner, v.seeded, [BestEffortDelete(naming(Slot(true, Seed, v.name, 0)))]);
    BuildConcat(plan, naming, owner, vm, seed);
    BuildConcat(plan, naming, owner, data, os);
    BuildConcat(plan, naming, owner, boot, data + os);
    BuildConcat(plan, naming, owner, vm + seed, boot + (data + os));
  }

  lemma {:induction false} BuiltPutsLocal(v: Vm, i: nat)
    requires i <= |v.dataPools|
    ensures Local(BuiltPuts(v, i))
    decreases |v.dataPools| - i
  {
    if i < |v.dataPools| {
      BuiltPutsLocal(v, i + 1);
    }
  }

  lemma MachineBuildSound(plan: Plan, naming: Naming, v: Vm)
    requires v in plan.vms
    ensures SoundBuild(plan, naming, Materialize(VmNode(v.name)), MachineBuild(naming, v))
  {
    var owner := Materialize(VmNode(v.name));
    var up, down, puts := BuildUp(naming, v), BuildDown(naming, v), [Work] + BuiltPuts(v, 0);
    BuildUpSound(plan, naming, v);
    BuildDownSound(plan, naming, v);
    BuiltPutsLocal(v, 0);
    LocalBasic(plan, naming, owner, puts);
    NamelessBasic(plan, naming, owner, [EnsureInfra]);
    BuildConcat(plan, naming, owner, [EnsureInfra], up);
    BuildConcat(plan, naming, owner, puts, down);
    BuildConcat(plan, naming, owner, [EnsureInfra] + up, puts + down);
  }

  lemma InfraFabricSound(plan: Plan, naming: Naming)
    ensures SoundBuild(plan, naming, Infra, Bring(naming, BUILD_POOL) + FabricUp(naming, true, plan.buildSwitch))
  {
    BringBasic(plan, naming, Infra, BUILD_POOL);
    assert SwitchUsed(plan, true, plan.buildSwitch);
    FabricUpSound(plan, naming, Infra, true, plan.buildSwitch);
    BuildConcat(plan, naming, Infra, Bring(naming, BUILD_POOL), FabricUp(naming, true, plan.buildSwitch));
  }

  lemma InfraSidecarSound(plan: Plan, naming: Naming, get: Program)
    requires Local(get)
    ensures SoundBuild(plan, naming, Infra,
                       get + Optional(plan.buildSwitch.NeedsSidecar(), SidecarUp(naming, true, plan.buildSwitch)))
  {
    var s := plan.buildSwitch;
    LocalBasic(plan, naming, Infra, get);
    if s.NeedsSidecar() {
      assert SwitchUsed(plan, true, s);
      SidecarUpSound(plan, naming, Infra, true, s);
    }
    OptionalBuild(plan, naming, Infra, s.NeedsSidecar(), SidecarUp(naming, true, s));
    BuildConcat(plan, naming, Infra, get, Optional(s.NeedsSidecar(), SidecarUp(naming, true, s)));
  }

  lemma InfraUpSound(plan: Plan, naming: Naming)
    ensures SoundBuild(plan, naming, Infra, InfraUp(naming, plan.buildSwitch))
  {
    var s := plan.buildSwitch;
    var get := if s.networks == [] then [Abort] else [Get(NetworkKey(s.networks[0]))];
    InfraFabricSound(plan, naming);
    InfraSidecarSound(plan, naming, get);
    BuildConcat(plan, naming, Infra, Bring(naming, BUILD_POOL) + FabricUp(naming, true, s),
                get + Optional(s.NeedsSidecar(), SidecarUp(naming, true, s)));
  }

  /** Taking the infra down only removes, and only what the infra brought up. */
  ghost predicate SoundDown(plan: Plan, naming: Naming, up: Program, p: Program) {
    Disciplined(p) && NoStamps(p) && OnlyRemoves(p) && Mentions(p) <= Mentions(up)
  }

  lemma DownConcat(plan: Plan, naming: Naming, up: Program, p: Program, q: Program)
    requires SoundDown(plan, naming, up, p) && SoundDown(plan, naming, up, q)
    ensures SoundDown(plan, naming, up, p + q)
  {
    DisciplinedConcat(p, q);
    MentionsConcat(p, q);
  }

  lemma DropsDown(plan: Plan, naming: Naming, up: Program, p: Program)
    requires forall a | a in p :: a.Drop?
    ensures SoundDown(plan, naming, up, p)
  {
    NamelessBasic(plan, naming, Infra, p);
    DropsMentionNothing(p);
  }

  lemma {:induction false} DropsMentionNothing(p: Program)
    requires forall a | a in p :: a.Drop?
    ensures Mentions(p) == {}
  {
    if p != [] {
      assert p[0] in p;
      DropsMentionNothing(p[1..]);
    }
  }

  lemma RemoveDown(plan: Plan, naming: Naming, up: Program, s: Slot)
    requires naming(s) in Mentions(up)
    ensures SoundDown(plan, naming, up, Remove(naming, s))
  {
    var x := naming(s);
    var p := Remove(naming, s);
    RemoveSafe(x);
  }

  lemma {:induction false} SegmentsDownSound(plan: Plan, naming: Naming, up: Program, networks: seq<string>)
    requires forall n | n in networks :: naming(Slot(true, Segment, n, 0)) in Mentions(up)
    ensures SoundDown(plan, naming, up, SegmentsDown(naming, networks))
  {
    if networks == [] {
      DropsDown(plan, naming, up, []);
    } else {
      var drop, remove := [Drop(NetworkKey(networks[0]))], Remove(naming, Slot(true, Segment, networks[0], 0));
      DropsDown(plan, naming, up, drop);
      RemoveDown(plan, naming, up, Slot(true, Segment, networks[0], 0));
      DownConcat(plan, naming, up, drop, remove);
      SegmentsDownSound(plan, naming, up, networks[1..]);
      DownConcat(plan, naming, up, drop + remove, SegmentsDown(naming, networks[1..]));
    }
  }

  lemma BringMentions(naming: Naming, s: Slot)
    ensures Mentions(Bring(naming, s)) == {naming(s)}
  {
    BringSafe(Intend(naming, s).r, naming(s));
  }

  lemma {:induction false} SegmentsUpMention(naming: Naming, build: bool, networks: seq<string>, n: string)
    requires n in networks
    ensures naming(Slot(build, Segment, n, 0)) in Mentions(SegmentsUp(naming, build, networks))
  {
    var s := Slot(build, Segment, networks[0], 0);
    BringMentions(naming, s);
    MentionsConcat(Bring(naming, s), [Put(NetworkKey(networks[0]))]);
    MentionsConcat(SegmentUp(naming, build, networks[0]), SegmentsUp(naming, build, networks[1..]));
    if n != networks[0] {
      SegmentsUpMention(naming, build, networks[1..], n);
    }
  }

  lemma FabricUpMentions(naming: Naming, build: bool, s: Switch)
    ensures naming(Slot(build, Fabric, s.name, 0)) in Mentions(FabricUp(naming, build, s))
    ensures forall n | n in s.networks :: naming(Slot(build, Segment, n, 0)) in Mentions(FabricUp(naming, build, s))
  {
    var fabric, put := Bring(naming, Slot(build, Fabric, s.name, 0)), [Put(SwitchKey(s.name))];
    BringMentions(naming, Slot(build, Fabric, s.name, 0));
    MentionsConcat(fabric, put);
    var segments := SegmentsUp(naming, build, s.networks);
    MentionsConcat(segments, UplinkPut(s));
    MentionsConcat(fabric + put, segments + UplinkPut(s));
    forall n | n in s.networks ensures naming(Slot(build, Segment, n, 0)) in Mentions(segments) {
      SegmentsUpMention(naming, build, s.networks, n);
    }
  }

  lemma SidecarUpMentions(naming: Naming, build: bool, s: Switch)
    requires s.networks != []
    ensures naming(Slot(build, SidecarVm, s.name, 0)) in Mentions(SidecarUp(naming, build, s))
  {
    var disks := Bring(naming, Slot(build, SidecarDisk, s.name, 0)) +
        Bring(naming, Slot(build, SidecarConfig, s.name, 0));
    var vm, tail := Bring(naming, Slot(build, SidecarVm, s.name, 0)), [Work, Put(SidecarKey(s.name))];
    BringMentions(naming, Slot(build, SidecarVm, s.name, 0));
    MentionsConcat(vm, tail);
    MentionsConcat(SidecarLookups(s), vm + tail);
    MentionsConcat(disks, SidecarLookups(s) + (vm + tail));
  }

  lemma InfraUpMentions(naming: Naming, s: Switch)
    ensures var up := Mentions(InfraUp(naming, s));
            && naming(BUILD_POOL) in up && Mentions(FabricUp(naming, true, s)) <= up
            && (s.NeedsSidecar() && s.networks != [] ==> naming(Slot(true, SidecarVm, s.name, 0)) in up)
  {
    var get := if s.networks == [] then [Abort] else [Get(NetworkKey(s.networks[0]))];
    var sidecar := Optional(s.NeedsSidecar(), SidecarUp(naming, true, s));
    BringMentions(naming, BUILD_POOL);
    MentionsConcat(Bring(naming, BUILD_POOL), FabricUp(naming, true, s));
    MentionsConcat(get, sidecar);
    MentionsConcat(Bring(naming, BUILD_POOL) + FabricUp(naming, true, s), get + sidecar);
    if s.NeedsSidecar() && s.networks != [] {
      SidecarUpMentions(naming, true, s);
    }
  }

  /** A build switch that came up had a network, so its sidecar, if any, was brought up. */
  lemma InfraGoneSound(plan: Plan, naming: Naming, s: Switch)
    ensures SoundDown(plan, naming, InfraUp(naming, s), InfraGone(naming, s))
  {
    var up := InfraUp(naming, s);
    if s.networks == [] {
      DropsDown(plan, naming, up, []);
      return;
    }
    var sidecar, fabric := Slot(true, SidecarVm, s.name, 0), Slot(true, Fabric, s.name, 0);
    var drops := [Drop(NetworkKey(UplinkName(s.name))), Drop(SwitchKey(s.name))];
    InfraUpMentions(naming, s);
    FabricUpMentions(naming, true, s);
    DropsDown(plan, naming, up, []);
    DropsDown(plan, naming, up, drops);
    DropsDown(plan, naming, up, [Drop(SidecarKey(s.name))]);
    if s.NeedsSidecar() {
      RemoveDown(plan, naming, up, sidecar);
      DownConcat(plan, naming, up, [Drop(SidecarKey(s.name))], Remove(naming, sidecar));
    }
    SegmentsDownSound(plan, naming, up, s.networks);
    RemoveDown(plan, naming, up, fabric);
    RemoveDown(plan, naming, up, BUILD_POOL);
    DownConcat(plan, naming, up, drops, Remove(naming, fabric));
    DownConcat(plan, naming, up, drops + Remove(naming, fabric), Remove(naming, BUILD_POOL));
    var first := Optional(s.NeedsSidecar(), [Drop(SidecarKey(s.name))] + Remove(naming, sidecar));
    DownConcat(plan, naming, up, first, SegmentsDown(naming, s.networks));
    DownConcat(plan, naming, up, first + SegmentsDown(naming, s.networks),
               (drops + Remove(naming, fabric)) + Remove(naming, BUILD_POOL));
  }
}
