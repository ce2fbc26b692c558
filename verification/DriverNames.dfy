/** The names drivers give a run's resources, and exactly when they are all different.

    The libvirt and ESXi drivers compose `tr-<kind>-<run>-<name>` and leave a composed name
    alone when it is short and made of safe characters; the orchestrator appends a disk
    marker and a suffix for volumes. Nothing keeps a plan name from ending like a suffix.
 */
module DriverNames {
  import opened Wrappers
  import opened Ledger
  import opened Plans
  import opened Hooks
  import opened HookSafety
  import opened PlanRuns
  import opened PlanLookups
  import opened RunSystem
  import RunSafety
  import BuildGraph
  import VmNames

  // ---- Composed names ----------------------------------------------------------------------

  /** The part of a plan a resource is named after. */
  datatype Family = Pools | Fabrics | Segments | Sidecars | Vms

  function FamilyOf(p: Part): Family {
    match p
    case Pool => Pools
    case Fabric => Fabrics
    case Segment => Segments
    case SidecarDisk => Sidecars
    case SidecarConfig => Sidecars
    case SidecarVm => Sidecars
    case _ => Vms
  }

  function FamilyKind(f: Family): string {
    match f
    case Pools => "pool"
    case Fabrics => "switch"
    case Segments => "network"
    case Sidecars => "sidecar_vm"
    case Vms => "vm"
  }

  /** The kind inside the composed name. */
  function ComposedKind(s: Slot): string {
    (if s.build then "build_" else "") + FamilyKind(FamilyOf(s.part))
  }

  /** What is appended to the composed name of the VM or sidecar a volume belongs to. */
  function Extension(p: Part, index: nat): string {
    match p
    case SidecarDisk => ".qcow2"
    case SidecarConfig => "-cfg.iso"
    case OsDisk => ".qcow2"
    case DataDisk => "-data" + VmNames.Decimal(index) + ".qcow2"
    case BootMedia => "-bootmedia.iso"
    case Seed => "-seed.iso"
    case _ => ""
  }

  function Tail(s: Slot): string {
    s.name + Extension(s.part, s.index)
  }

  function DriverName(run: string, s: Slot): string {
    "tr-" + ComposedKind(s) + "-" + run + "-" + Tail(s)
  }

  function DriverNaming(run: string): Naming {
    s => DriverName(run, s)
  }

  // ---- Kind and tail are determined ------------------------------------------------------------

  predicate DashFree(s: string) {
    forall i | 0 <= i < |s| :: s[i] != '-'
  }

  lemma {:induction false} SplitAtDash(a: string, x: string, b: string, y: string)
    requires DashFree(a) && DashFree(b) && a + "-" + x == b + "-" + y
    ensures a == b && x == y
  {
    var s := a + "-" + x;
    assert s[|a|] == '-' && s == b + "-" + y;
    assert forall i | 0 <= i < |b| :: s[i] == b[i];
    assert forall i | 0 <= i < |a| :: s[i] == a[i];
    assert (b + "-" + y)[|b|] == '-';
    assert |a| == |b|;
    assert a == s[..|a|] && x == s[|a| + 1..] && y == (b + "-" + y)[|b| + 1..];
  }

  lemma KindDashFree(s: Slot)
    ensures DashFree(ComposedKind(s))
  {
    var k, f := FamilyKind(FamilyOf(s.part)), if s.build then "build_" else "";
    assert DashFree(k) && DashFree(f);
  }

  lemma KindDetermines(s: Slot, t: Slot)
    requires ComposedKind(s) == ComposedKind(t)
    ensures s.build == t.build && FamilyOf(s.part) == FamilyOf(t.part)
  {
    var a, b := ComposedKind(s), ComposedKind(t);
    assert s.build ==> a[0] == 'b' && a[6..] == FamilyKind(FamilyOf(s.part));
    assert t.build ==> b[0] == 'b' && b[6..] == FamilyKind(FamilyOf(t.part));
    assert !s.build ==> a == FamilyKind(FamilyOf(s.part)) && a[0] != 'b';
    assert !t.build ==> b == FamilyKind(FamilyOf(t.part)) && b[0] != 'b';
    FamilyDetermined(FamilyOf(s.part), FamilyOf(t.part));
  }

  lemma FamilyDetermined(f: Family, g: Family)
    ensures FamilyKind(f) == FamilyKind(g) ==> f == g
  {
    var a, b := FamilyKind(f), FamilyKind(g);
    assert a == b ==> a[0] == b[0] && (a[0] == 's' ==> a[1] == b[1]);
  }

  lemma ComposedDetermines(run: string, a: string, x: string, b: string, y: string)
    requires DashFree(a) && DashFree(b)
    requires "tr-" + a + "-" + run + "-" + x == "tr-" + b + "-" + run + "-" + y
    ensures a == b && x == y
  {
    var p, q := run + "-" + x, run + "-" + y;
    var s, t := "tr-" + a + "-" + run + "-" + x, "tr-" + b + "-" + run + "-" + y;
    assert s[3..] == a + "-" + p && t[3..] == b + "-" + q;
    SplitAtDash(a, p, b, q);
    assert x == p[|run| + 1..] && y == q[|run| + 1..];
  }

  lemma NameDetermines(run: string, s: Slot, t: Slot)
    requires DriverName(run, s) == DriverName(run, t)
    ensures s.build == t.build && FamilyOf(s.part) == FamilyOf(t.part) && Tail(s) == Tail(t)
  {
    KindDashFree(s);
    KindDashFree(t);
    ComposedDetermines(run, ComposedKind(s), Tail(s), ComposedKind(t), Tail(t));
    KindDetermines(s, t);
  }

  // ---- When tails coincide -----------------------------------------------------------------------

  /** A plan name that is another one with an extension. */
  predicate Extends(a: string, b: string, p: Part, index: nat) {
    a == b + Extension(p, index)
  }

  lemma SameEnd(a: string, x: string, b: string, y: string)
    requires |x| == |y| && a + x == b + y
    ensures a == b && x == y
  {
    var s := a + x;
    assert |a| == |b|;
    assert a == s[..|a|] && x == s[|a|..] && b == (b + y)[..|b|] && y == (b + y)[|b|..];
  }

  /** The last `k` characters of a tail with an extension at least that long. */
  lemma TailEnd(s: Slot, k: nat)
    requires k <= |Extension(s.part, s.index)|
    ensures var e := Extension(s.part, s.index);
            k <= |Tail(s)| && Tail(s)[|Tail(s)| - k..] == e[|e| - k..]
  {
  }

  predicate Whole(p: Part) {
    Extension(p, 0) == ""
  }

  /** Volumes of different parts: the suffix, or what precedes it, tells them apart. */
  lemma VolumePartsDiffer(s: Slot, t: Slot)
    requires FamilyOf(s.part) == FamilyOf(t.part) && Tail(s) == Tail(t) && !Whole(s.part) && !Whole(t.part)
    ensures s.part == t.part || (s.part.OsDisk? && t.part.DataDisk?) || (s.part.DataDisk? && t.part.OsDisk?)
  {
    TailEnd(s, 1);
    TailEnd(t, 1);
    var e, f := Extension(s.part, s.index), Extension(t.part, t.index);
    assert e[|e| - 1] == f[|f| - 1] by {
      assert e[|e| - 1..][0] == f[|f| - 1..][0];
    }
    if s.part.BootMedia? || s.part.Seed? {
      LastNine(s, t);
    }
  }

  lemma LastNine(s: Slot, t: Slot)
    requires Tail(s) == Tail(t) && (s.part.BootMedia? || s.part.Seed?) && (t.part.BootMedia? || t.part.Seed?)
    ensures s.part == t.part
  {
    TailEnd(s, 9);
    TailEnd(t, 9);
    var e, f := Extension(s.part, s.index), Extension(t.part, t.index);
    assert e[|e| - 9..][0] == f[|f| - 9..][0];
    assert "-bootmedia.iso"[5] == 'm' && "-seed.iso"[0] == '-';
  }

  lemma SamePartSameSlot(s: Slot, t: Slot)
    requires Tail(s) == Tail(t) && s.part == t.part && (s.part.DataDisk? || s.index == t.index)
    ensures s.name == t.name && s.index == t.index
  {
    if s.part.DataDisk? {
      var a, b := s.name + "-data" + VmNames.Decimal(s.index), t.name + "-data" + VmNames.Decimal(t.index);
      assert Tail(s) == a + ".qcow2" && Tail(t) == b + ".qcow2";
      SameEnd(a, ".qcow2", b, ".qcow2");
      VmNames.DataDiskInjective(s.name, s.index, t.name, t.index);
    } else {
      SameEnd(s.name, Extension(s.part, s.index), t.name, Extension(t.part, t.index));
    }
  }

  lemma OsDiskIsMarked(s: Slot, t: Slot)
    requires Tail(s) == Tail(t) && s.part.OsDisk? && t.part.DataDisk?
    ensures exists k: nat :: VmNames.MatchesAt(s.name, k)
  {
    var b := t.name + "-data" + VmNames.Decimal(t.index);
    assert Tail(t) == b + ".qcow2";
    SameEnd(s.name, ".qcow2", b, ".qcow2");
    VmNames.DataDiskIsMarked(t.name, t.index);
  }

  /** Two used resources with one name, one of which is named by its bare tail. */
  lemma WholeExtends(s: Slot, t: Slot)
    requires Tail(s) == Tail(t) && Whole(s.part)
    ensures Extends(s.name, t.name, t.part, t.index)
  {
    assert Extension(s.part, s.index) == "";
    assert Tail(s) == s.name;
  }

  // ---- Exactly when all names are different ----------------------------------------------------------

  /** No VM is named like a volume of a VM, no sidecar switch like a volume of a sidecar. */
  ghost predicate NoClash(plan: Plan) {
    && (forall a, b, p, i: nat |
          a in plan.vms && b in plan.vms && !Whole(p) && VmUses(b, Slot(true, p, b.name, i)) ::
          !Extends(a.name, b.name, p, i))
    && (forall a, b, p |
          a in plan.switches && b in plan.switches && a.NeedsSidecar() && b.NeedsSidecar() &&
          (p == SidecarDisk || p == SidecarConfig) ::
          !Extends(a.name, b.name, p, 0))
  }

  /** What the VM validator guarantees about every name it accepts. */
  ghost predicate Unmarked(plan: Plan) {
    forall v, k: nat | v in plan.vms :: !VmNames.MatchesAt(v.name, k)
  }

  lemma VmSlotsApart(plan: Plan, s: Slot, t: Slot)
    requires NoClash(plan) && Unmarked(plan) && Used(plan, s) && Used(plan, t)
    requires s.build == t.build && FamilyOf(s.part) == Vms == FamilyOf(t.part) && Tail(s) == Tail(t)
    ensures s == t
  {
    var v :| v in plan.vms && v.name == s.name && VmUses(v, s);
    var u :| u in plan.vms && u.name == t.name && VmUses(u, t);
    if Whole(s.part) && !Whole(t.part) {
      WholeExtends(s, t);
      assert VmUses(u, Slot(true, t.part, u.name, t.index));
      assert false;
    } else if !Whole(s.part) && Whole(t.part) {
      WholeExtends(t, s);
      assert VmUses(v, Slot(true, s.part, v.name, s.index));
      assert false;
    } else {
      VmPartsAgree(plan, s, t);
      SamePartSameSlot(s, t);
    }
  }

  lemma VmPartsAgree(plan: Plan, s: Slot, t: Slot)
    requires Unmarked(plan) && (exists v :: v in plan.vms && v.name == s.name)
    requires exists u :: u in plan.vms && u.name == t.name
    requires FamilyOf(s.part) == Vms == FamilyOf(t.part) && Tail(s) == Tail(t) && Whole(s.part) == Whole(t.part)
    ensures s.part == t.part
  {
    if !Whole(s.part) {
      VolumePartsDiffer(s, t);
      if s.part.OsDisk? && t.part.DataDisk? {
        OsDiskIsMarked(s, t);
        assert false;
      } else if s.part.DataDisk? && t.part.OsDisk? {
        OsDiskIsMarked(t, s);
        assert false;
      }
    }
  }

  lemma SidecarSlotsApart(plan: Plan, s: Slot, t: Slot)
    requires NoClash(plan) && Used(plan, s) && Used(plan, t)
    requires s.build == t.build && FamilyOf(s.part) == Sidecars == FamilyOf(t.part) && Tail(s) == Tail(t)
    ensures s == t
  {
    var v :| SwitchUsed(plan, s.build, v) && v.name == s.name && v.NeedsSidecar();
    var u :| SwitchUsed(plan, t.build, u) && u.name == t.name && u.NeedsSidecar();
    if Whole(s.part) && !Whole(t.part) {
      WholeExtends(s, t);
      assert false;
    } else if !Whole(s.part) && Whole(t.part) {
      WholeExtends(t, s);
      assert false;
    } else {
      if !Whole(s.part) {
        VolumePartsDiffer(s, t);
      }
      SamePartSameSlot(s, t);
    }
  }

  lemma SlotsApart(plan: Plan, run: string, s: Slot, t: Slot)
    requires NoClash(plan) && Unmarked(plan) && Used(plan, s) && Used(plan, t)
    requires DriverName(run, s) == DriverName(run, t)
    ensures s == t
  {
    NameDetermines(run, s, t);
    match FamilyOf(s.part)
    case Vms => VmSlotsApart(plan, s, t);
    case Sidecars => SidecarSlotsApart(plan, s, t);
    case _ => SamePartSameSlot(s, t);
  }

  lemma ClashCollides(plan: Plan, run: string, s: Slot, t: Slot)
    requires NamesApart(plan, DriverNaming(run)) && Used(plan, s) && Used(plan, t) && s.part != t.part
    requires s.build == t.build && FamilyOf(s.part) == FamilyOf(t.part) && Whole(s.part)
    ensures !Extends(s.name, t.name, t.part, t.index)
  {
    if Extends(s.name, t.name, t.part, t.index) {
      ExtendedNameIsShared(run, s, t);
    }
  }

  /** A VM or sidecar named like a volume shares that volume's backend name. */
  lemma ExtendedNameIsShared(run: string, s: Slot, t: Slot)
    requires s.build == t.build && FamilyOf(s.part) == FamilyOf(t.part) && Whole(s.part)
    requires Extends(s.name, t.name, t.part, t.index)
    ensures DriverNaming(run)(s) == DriverNaming(run)(t)
  {
    assert Extension(s.part, s.index) == "";
    assert Tail(s) == Tail(t);
  }

  /** For every plan whose VM names passed validation: the resources of a run all
      get different names if and only if no VM or sidecar switch is named like a volume of
      another one. */
  lemma NamesApartExactly(plan: Plan, run: string)
    requires Unmarked(plan)
    ensures NamesApart(plan, DriverNaming(run)) <==> NoClash(plan)
  {
    if NoClash(plan) {
      forall s, t | Used(plan, s) && Used(plan, t) && DriverNaming(run)(s) == DriverNaming(run)(t) ensures s == t {
        SlotsApart(plan, run, s, t);
      }
    }
    if NamesApart(plan, DriverNaming(run)) {
      forall a, b, p, i: nat |
        a in plan.vms && b in plan.vms && !Whole(p) && VmUses(b, Slot(true, p, b.name, i))
        ensures !Extends(a.name, b.name, p, i)
      {
        assert VmUses(a, Slot(true, Machine, a.name, 0));
        ClashCollides(plan, run, Slot(true, Machine, a.name, 0), Slot(true, p, b.name, i));
      }
      forall a, b, p |
        a in plan.switches && b in plan.switches && a.NeedsSidecar() && b.NeedsSidecar() &&
        (p == SidecarDisk || p == SidecarConfig)
        ensures !Extends(a.name, b.name, p, 0)
      {
        assert SwitchUsed(plan, false, a) && SwitchUsed(plan, false, b);
        ClashCollides(plan, run, Slot(false, SidecarVm, a.name, 0), Slot(false, p, b.name, 0));
      }
    }
  }

  predicate DotFree(s: string) {
    forall i | 0 <= i < |s| :: s[i] != '.'
  }

  lemma ExtensionHasDot(p: Part, index: nat)
    requires !Whole(p)
    ensures exists i :: 0 <= i < |Extension(p, index)| && Extension(p, index)[i] == '.'
  {
    var e := Extension(p, index);
    if p.DataDisk? {
      assert e[|e| - 6] == '.';
    } else if p.OsDisk? || p.SidecarDisk? {
      assert e[0] == '.';
    } else {
      assert e[|e| - 4] == '.';
    }
  }

  lemma DotFreeDoesNotExtend(a: string, b: string, p: Part, index: nat)
    requires DotFree(a) && !Whole(p)
    ensures !Extends(a, b, p, index)
  {
    ExtensionHasDot(p, index);
    var e := Extension(p, index);
    var i :| 0 <= i < |e| && e[i] == '.';
    assert (b + e)[|b| + i] == '.';
  }

  /** Names without a dot are enough: every such plan's resources get different names. */
  lemma DotFreeNamesApart(plan: Plan, run: string)
    requires Unmarked(plan)
    requires forall v | v in plan.vms :: DotFree(v.name)
    requires forall s | s in plan.switches :: DotFree(s.name)
    ensures NamesApart(plan, DriverNaming(run))
  {
    forall a, b, p, i: nat |
      a in plan.vms && b in plan.vms && !Whole(p) && VmUses(b, Slot(true, p, b.name, i))
      ensures !Extends(a.name, b.name, p, i)
    {
      DotFreeDoesNotExtend(a.name, b.name, p, i);
    }
    forall a, b, p |
      a in plan.switches && b in plan.switches && a.NeedsSidecar() && b.NeedsSidecar() &&
      (p == SidecarDisk || p == SidecarConfig)
      ensures !Extends(a.name, b.name, p, 0)
    {
      DotFreeDoesNotExtend(a.name, b.name, p, 0);
    }
    NamesApartExactly(plan, run);
  }

  /** The VM validator gives what the names need. */
  lemma ValidatedIsUnmarked(plan: Plan, vms: seq<VmNames.Vm>)
    requires VmNames.ValidateVmPlan(vms, plan.pools).None? && |vms| == |plan.vms|
    requires forall i | 0 <= i < |vms| :: vms[i].name == plan.vms[i].name
    ensures Unmarked(plan)
  {
    VmNames.AcceptedExactly(vms, plan.pools);
  }

  /** So for every such plan, in every state of every run under these names, what exists is
      recorded. */
  lemma DriverRunIsSafe(
    plan: Plan, run: string, g: BuildGraph.Graph, jobs: Option<int>, s: State, events: seq<Event>, w: World)
    requires Unmarked(plan) && NoClash(plan) && Registered(plan) && Freezes(plan, g) && FreshState(s)
    requires RunSafety.After(ConfigOf(plan, DriverNaming(run), g, jobs), s, events) == Some(w)
    ensures w.live <= (if w.ledger.Some? then NamesOf(w.ledger.value.resources) else {})
  {
    NamesApartExactly(plan, run);
    PlanRunIsSafe(plan, DriverNaming(run), g, jobs, s, events, w);
  }

  /** The condition can fail for accepted VMs: "web" and "web.qcow2" pass validation, the
      second VM is named like the first one's OS disk, and forgetting either record drops
      both from the ledger. */
  lemma SuffixedVmClashes(run: string, disk: Resource, vm: Resource)
    requires disk.backendName == DriverName(run, Slot(false, OsDisk, "web", 0))
    requires vm.backendName == DriverName(run, Slot(false, Machine, "web.qcow2", 0))
    ensures VmNames.ValidateVmPlan([VmNames.Vm("web", "p"), VmNames.Vm("web.qcow2", "p")], ["p"]).None?
    ensures disk.backendName == vm.backendName && Removed([disk, vm], disk.backendName) == []
  {
    SuffixedVmAccepted();
    SuffixedVmShares(run);
    assert [disk, vm][1..] == [vm] && [vm][1..] == [];
    assert Removed([vm], vm.backendName) == [];
  }

  lemma SuffixedVmAccepted()
    ensures VmNames.ValidateVmPlan([VmNames.Vm("web", "p"), VmNames.Vm("web.qcow2", "p")], ["p"]).None?
  {
    var vms := [VmNames.Vm("web", "p"), VmNames.Vm("web.qcow2", "p")];
    forall i, k: nat | 0 <= i < |vms| ensures !VmNames.MatchesAt(vms[i].name, k) {
      assert "web.qcow2"[7] == 'w' && "web"[2] == 'b';
    }
    VmNames.AcceptedExactly(vms, ["p"]);
  }

  lemma SuffixedVmShares(run: string)
    ensures DriverName(run, Slot(false, Machine, "web.qcow2", 0)) == DriverName(run, Slot(false, OsDisk, "web", 0))
  {
    ExtendedNameIsShared(run, Slot(false, Machine, "web.qcow2", 0), Slot(false, OsDisk, "web", 0));
  }
}
