/** The hook programs of a plan's nodes: which ledger writes, backend calls and dictionary
    accesses each hook makes, in order.
 */
module Hooks {
  import opened Wrappers
  import opened Ledger
  import opened Actions
  import opened Plans

  // ---- Backend resources of a run ---------------------------------------------------

  datatype Part =
    | Pool | Fabric | Segment | SidecarDisk | SidecarConfig | SidecarVm
    | OsDisk | DataDisk | Machine | BootMedia | Seed

  /** One resource of the run or of its build phase. */
  datatype Slot = Slot(build: bool, part: Part, name: string, index: nat)

  /** How the driver names resources; `compose_resource_name` plus the volume suffixes. */
  type Naming = Slot -> string

  function KindOf(s: Slot): string {
    match s.part
    case Pool => if s.build then "build_pool" else "pool"
    case Fabric => if s.build then "build_switch" else "switch"
    case Segment => if s.build then "build_network" else "network"
    case SidecarDisk => "sidecar_disk"
    case SidecarConfig => "sidecar_config"
    case SidecarVm => "sidecar_vm"
    case OsDisk => if s.build then "build_disk" else "run_disk"
    case DataDisk => "data_disk"
    case Machine => if s.build then "build_vm" else "vm"
    case BootMedia => "boot_iso"
    case Seed => "build_seed"
  }

  /** What a driver can destroy, by recorded kind; `None` is the kind no driver knows. */
  datatype Family = AnyPool | AnySwitch | AnyNetwork | AnyVm | AnyVolume

  function Dispatch(kind: string): Option<Family> {
    if kind in {"network", "build_network"} then Some(AnyNetwork)
    else if kind in {"pool", "build_pool"} then Some(AnyPool)
    else if kind in {"vm", "build_vm", "sidecar_vm"} then Some(AnyVm)
    else if kind in {"build_disk", "build_seed", "boot_iso", "run_disk", "data_disk", "base_image", "volume",
                     "sidecar_disk", "sidecar_config"} then Some(AnyVolume)
    else if kind in {"switch", "build_switch"} then Some(AnySwitch)
    else None
  }

  /** What the hooks create for each part. */
  function FamilyOf(part: Part): Family {
    match part
    case Pool => AnyPool
    case Fabric => AnySwitch
    case Segment => AnyNetwork
    case SidecarVm => AnyVm
    case Machine => AnyVm
    case _ => AnyVolume
  }

  /** Teardown knows every kind the hooks record and destroys with it what was created. */
  lemma EveryKindDispatches(s: Slot)
    ensures Dispatch(KindOf(s)) == Some(FamilyOf(s.part))
  {
  }

  /** `record_intent`, before the backend is touched; the build pool has no name in the plan. */
  function Intend(naming: Naming, s: Slot): Action {
    Record(Resource(KindOf(s), naming(s), if s == BUILD_POOL then None else Some(s.name), "", None, map[]))
  }

  /** Record, create, confirm. */
  function Bring(naming: Naming, s: Slot): Program {
    [Intend(naming, s), Create(naming(s)), Confirm(naming(s), map[])]
  }

  /** The same, with lookups made between recording and creating. */
  function BringAfter(naming: Naming, s: Slot, lookups: Program): Program {
    [Intend(naming, s)] + (lookups + [Create(naming(s)), Confirm(naming(s), map[])])
  }

  /** Destroy, then forget. */
  function Remove(naming: Naming, s: Slot): Program {
    [Destroy(naming(s)), Forget(naming(s))]
  }

  // ---- Pools, fabrics, sidecars --------------------------------------------------------

  const BUILD_POOL := Slot(true, Pool, "build", 0)

  function UplinkName(switch: string): string {
    "__uplink__" + switch
  }

  /** `create_pool_backend` */
  function PoolUp(naming: Naming, pool: string): Program {
    Bring(naming, Slot(false, Pool, pool, 0)) + [Put(PoolKey(pool))]
  }

  function SegmentUp(naming: Naming, build: bool, network: string): Program {
    Bring(naming, Slot(build, Segment, network, 0)) + [Put(NetworkKey(network))]
  }

  function SegmentsUp(naming: Naming, build: bool, networks: seq<string>): Program {
    if networks == [] then []
    else SegmentUp(naming, build, networks[0]) + SegmentsUp(naming, build, networks[1..])
  }

  function UplinkPut(s: Switch): Program {
    if s.Nat() then [Put(NetworkKey(UplinkName(s.name)))] else []
  }

  /** `provision_switch`: the fabric, its networks, and the uplink segment it came with. */
  function FabricUp(naming: Naming, build: bool, s: Switch): Program {
    (Bring(naming, Slot(build, Fabric, s.name, 0)) + [Put(SwitchKey(s.name))])
    + (SegmentsUp(naming, build, s.networks) + UplinkPut(s))
  }

  /** The networks a sidecar's NICs attach to. */
  function SidecarLookups(s: Switch): Program {
    (if s.networks == [] then [Abort] else [Get(NetworkKey(s.networks[0]))])
    + (if s.Nat() then [Get(NetworkKey(UplinkName(s.name)))] else [])
  }

  /** `materialize_sidecar_for`, once its pool is known. A switch without networks cannot
      place a sidecar NIC. */
  function SidecarUp(naming: Naming, build: bool, s: Switch): Program {
    if s.networks == [] then [Abort]
    else
      (Bring(naming, Slot(build, SidecarDisk, s.name, 0)) + Bring(naming, Slot(build, SidecarConfig, s.name, 0)))
      + (SidecarLookups(s)
         + (Bring(naming, Slot(build, SidecarVm, s.name, 0)) + [Work, Put(SidecarKey(s.name))]))
  }

  /** `wait_sidecar_ready`: the sidecar has been seen serving. */
  function SidecarReady(s: Switch): Program {
    [Get(SidecarKey(s.name)), Work, Put(ServingKey(s.name))]
  }

  /** Sidecar realize; its disk lands in the first declared pool. */
  function SidecarRealize(naming: Naming, pool: string, s: Switch): Program {
    ([Get(PoolKey(pool))] + SidecarUp(naming, false, s)) + SidecarReady(s)
  }

  // ---- Machines ---------------------------------------------------------------------------

  function DataDiskUp(naming: Naming, v: Vm, i: nat): Program
    requires i < |v.dataPools|
  {
    [Get(PoolKey(v.dataPools[i]))]
    + BringAfter(naming, Slot(false, DataDisk, v.name, i), [Get(BuiltKey(v.name, Some(i)))])
  }

  function DataDisksUp(naming: Naming, v: Vm, i: nat): Program
    requires i <= |v.dataPools|
    decreases |v.dataPools| - i
  {
    if i == |v.dataPools| then [] else DataDiskUp(naming, v, i) + DataDisksUp(naming, v, i + 1)
  }

  function NicLookups(nics: seq<Nic>): Program {
    if nics == [] then [] else [Get(NetworkKey(nics[0].network))] + NicLookups(nics[1..])
  }

  /** The last stretch of `bring_up_vm`: the driver resolves every NIC's network. */
  function MachineUp(naming: Naming, v: Vm): Program {
    BringAfter(naming, Slot(false, Machine, v.name, 0), NicLookups(v.nics)) + [Work]
  }

  function OsDiskUp(naming: Naming, v: Vm): Program {
    [Get(BuiltKey(v.name, None)), Get(PoolKey(v.osPool))] + Bring(naming, Slot(false, OsDisk, v.name, 0))
  }

  /** `bring_up_vm` */
  function MachineCreate(naming: Naming, v: Vm): Program {
    OsDiskUp(naming, v) + (DataDisksUp(naming, v, 0) + MachineUp(naming, v))
  }

  function SwitchOwning(switches: seq<Switch>, network: string): (r: Option<Switch>)
    ensures r.Some? ==> r.value in switches && network in r.value.networks
    ensures r.None? ==> forall s | s in switches :: network !in s.networks
  {
    if switches == [] then None
    else if network in switches[0].networks then Some(switches[0])
    else SwitchOwning(switches[1..], network)
  }

  /** Each DHCP NIC polls the lease file of its switch's sidecar; without one it raises. */
  function LeaseWait(plan: Plan, nic: Nic): Program {
    if !nic.dhcp then []
    else
      var owner := SwitchOwning(plan.switches, nic.network);
      if owner.Some? && owner.value.NeedsSidecar() then [Get(SidecarKey(owner.value.name)), Work] else [Abort]
  }

  function LeaseWaits(plan: Plan, nics: seq<Nic>): Program {
    if nics == [] then [] else LeaseWait(plan, nics[0]) + LeaseWaits(plan, nics[1..])
  }

  /** Bind and wait until the guest answers; all a reattached VM does. */
  function MachineReady(plan: Plan, v: Vm): Program {
    [Work] + (LeaseWaits(plan, v.nics) + [Work])
  }

  function MachineRealize(plan: Plan, naming: Naming, v: Vm): Program {
    MachineCreate(naming, v) + MachineReady(plan, v)
  }

  // ---- Building ----------------------------------------------------------------------------

  function BuiltPuts(v: Vm, i: nat): Program
    requires i <= |v.dataPools|
    decreases |v.dataPools| - i
  {
    if i == |v.dataPools| then [Put(BuiltKey(v.name, None))]
    else [Put(BuiltKey(v.name, Some(i)))] + BuiltPuts(v, i + 1)
  }

  function BuildDataUp(naming: Naming, v: Vm, i: nat): Program
    requires i <= |v.dataPools|
    decreases |v.dataPools| - i
  {
    if i == |v.dataPools| then []
    else Bring(naming, Slot(true, DataDisk, v.name, i)) + BuildDataUp(naming, v, i + 1)
  }

  function BuildDataDown(naming: Naming, v: Vm, i: nat): Program
    requires i <= |v.dataPools|
    decreases |v.dataPools| - i
  {
    if i == |v.dataPools| then []
    else [BestEffortDelete(naming(Slot(true, DataDisk, v.name, i)))] + BuildDataDown(naming, v, i + 1)
  }

  function Optional(wanted: bool, p: Program): Program {
    if wanted then p else []
  }

  function BuildUp(naming: Naming, v: Vm): Program {
    (Bring(naming, Slot(true, OsDisk, v.name, 0))
     + Optional(v.installer, Bring(naming, Slot(true, BootMedia, v.name, 0))))
    + (BuildDataUp(naming, v, 0)
       + (Optional(v.seeded, Bring(naming, Slot(true, Seed, v.name, 0)))
          + Bring(naming, Slot(true, Machine, v.name, 0))))
  }

  function BuildDown(naming: Naming, v: Vm): Program {
    ([BestEffortDelete(naming(Slot(true, Machine, v.name, 0)))]
     + Optional(v.seeded, [BestEffortDelete(naming(Slot(true, Seed, v.name, 0)))]))
    + (Optional(v.installer, [BestEffortDelete(naming(Slot(true, BootMedia, v.name, 0)))])
       + (BuildDataDown(naming, v, 0)
          + [BestEffortDelete(naming(Slot(true, OsDisk, v.name, 0)))]))
  }

  /** `build_one_vm`: bring up, run to completion, capture every disk, delete. */
  function MachineBuild(naming: Naming, v: Vm): Program {
    ([EnsureInfra] + BuildUp(naming, v)) + (([Work] + BuiltPuts(v, 0)) + BuildDown(naming, v))
  }

  /** `ensure_build_infra`, under its lock. */
  function InfraUp(naming: Naming, s: Switch): Program {
    (Bring(naming, BUILD_POOL) + FabricUp(naming, true, s))
    + ((if s.networks == [] then [Abort] else [Get(NetworkKey(s.networks[0]))])
       + Optional(s.NeedsSidecar(), SidecarUp(naming, true, s)))
  }

  function SegmentsDown(naming: Naming, networks: seq<string>): Program {
    if networks == [] then []
    else ([Drop(NetworkKey(networks[0]))] + Remove(naming, Slot(true, Segment, networks[0], 0)))
         + SegmentsDown(naming, networks[1..])
  }

  /** `teardown_build_infra`. The sidecar's two volumes go with the pool, but their ledger
      records stay behind. Infra on a switch without networks never comes up. */
  function InfraGone(naming: Naming, s: Switch): Program {
    if s.networks == [] then [] else
    (Optional(s.NeedsSidecar(), [Drop(SidecarKey(s.name))] + Remove(naming, Slot(true, SidecarVm, s.name, 0)))
     + SegmentsDown(naming, s.networks))
    + (([Drop(NetworkKey(UplinkName(s.name))), Drop(SwitchKey(s.name))] + Remove(naming, Slot(true, Fabric, s.name, 0)))
       + Remove(naming, BUILD_POOL))
  }

  // ---- Reattaching after a resume ---------------------------------------------------------------

  function SegmentsAgain(networks: seq<string>): Program {
    if networks == [] then [] else [Put(NetworkKey(networks[0]))] + SegmentsAgain(networks[1..])
  }

  /** A reattached fabric rebuilds the switch and network entries, not the uplink's. */
  function FabricAgain(s: Switch): Program {
    [Put(SwitchKey(s.name))] + SegmentsAgain(s.networks)
  }

  function SidecarAgain(s: Switch): Program {
    [Put(SidecarKey(s.name))] + SidecarReady(s)
  }

  // ---- The hooks of a node ----------------------------------------------------------------------

  datatype Decl = PoolDecl(pool: string) | FabricDecl(switch: Switch) | SidecarDecl(switch: Switch) | VmDecl(vm: Vm)

  function NodeOf(d: Decl): string {
    match d
    case PoolDecl(p) => PoolNode(p)
    case FabricDecl(s) => NetworkNode(s.name)
    case SidecarDecl(s) => SidecarNode(s.name)
    case VmDecl(v) => VmNode(v.name)
  }

  predicate Declares(plan: Plan, d: Decl) {
    match d
    case PoolDecl(p) => p in plan.pools
    case FabricDecl(s) => s in plan.switches
    case SidecarDecl(s) => s in plan.switches && s.NeedsSidecar() && plan.pools != []
    case VmDecl(v) => v in plan.vms
  }

  function RealizeHook(plan: Plan, naming: Naming, d: Decl): Program
    requires Declares(plan, d)
  {
    match d
    case PoolDecl(p) => PoolUp(naming, p)
    case FabricDecl(s) => FabricUp(naming, false, s)
    case SidecarDecl(s) => SidecarRealize(naming, plan.pools[0], s)
    case VmDecl(v) => MachineRealize(plan, naming, v)
  }

  function ReattachHook(plan: Plan, d: Decl): Program {
    match d
    case PoolDecl(p) => [Put(PoolKey(p))]
    case FabricDecl(s) => FabricAgain(s)
    case SidecarDecl(s) => SidecarAgain(s)
    case VmDecl(v) => MachineReady(plan, v)
  }

  function MaterializeHook(naming: Naming, d: Decl): Program {
    if d.VmDecl? then MachineBuild(naming, d.vm) else []
  }

  function WarmHook(d: Decl): Program {
    if d.VmDecl? then BuiltPuts(d.vm, 0) else []
  }
}
