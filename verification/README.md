# TestRange, modelled and proved

TestRange freezes a plan of storage pools, switches and VMs into a dependency graph, walks
the graph in parallel waves, keeps a durable ledger of every backend resource it asks for,
and destroys the resources newest first from that ledger. This project models that core in
Dafny and proves what it promises over every input, every interleaving and every reachable
state. `dafny verify dfyconfig.toml` checks all of it.

## What is here

| file | models |
|---|---|
| `Relation`, `BuildGraph` | dependency relations; graph validation, Kahn waves, the explicit-stack cycle search |
| `CacheKeys` | the transitive cache-key walk and the key fold |
| `Ledger`, `Actions` | the ledger algebra; hooks as sequences of atomic ledger, backend and dictionary steps |
| `RunSystem` | whole runs as one transition system: worker pool, waves, failures, interrupts, crash, resume, teardown, cleanup |
| `RunSafety`, `RunOrder`, `RunLookups` | three invariants of every run: backend within ledger, dependency order, lookups defined |
| `RunUp` | when a run comes up, what it has then, and that the build infra is gone by then |
| `Cleanup`, `Recovery` | the teardown and cleanup loops on the ledger and the backend, and what they leave |
| `Plans`, `PlanEdges`, `Hooks`, `HookEffects` | plan declarations, graph assembly and its exact edges, the steps each node hook takes and exactly what they do |
| `HookSafety`, `HookKeys`, `PlanRuns`, `PlanLookups`, `PlanStart`, `PlanUp` | that a plan's own hooks on its own graph meet every condition of the run results, and what follows for its VMs |
| `DriverNames` | the names drivers give a run's resources and exactly when they are all different |
| `ResumeUplink`, `ResumeRun` | the one lookup a resumed run can get wrong: its exact condition, and a run that gets there |
| `Bytes`, `Base64`, `SerialResult`, `SerialReading`, `SerialLog` | the build-result parser on a growing serial buffer, its tolerant base64 decoder, and the failure log end to end |
| `LocalCache`, `LocalRemoval`, `HttpCache` | the two cache tiers under interleaving, crashes and stopping clients |
| `EsxiNet`, `SshJump`, `Toml`, `Addressing`, `VmNames` | shared uplink vSwitch, generation-guarded jump gateway, TOML escaping, static addresses, reserved VM names |

## How it is modelled

A run is a sequence of events over one `World`: the ledger, the set of live backend names,
the phase, the worker threads and what the process knows. Every ledger write and every
backend call is one step. A backend call that raises may or may not have taken effect, a
worker may raise anywhere, the process may die between any two steps, and a later process
may resume, tear down or clean up. So a statement about `After(c, s, events)` for all
`events` is a statement about every interleaving with any chain of crashes and resumes.

`RunSafety`, `RunOrder` and `RunLookups` assume a well-formed configuration;
`PlanRuns.PlanIsWellFormed`, `PlanLookups.PlanKeysFit` and `PlanLookups.PlanLookupsFit`
prove that every registered plan has one, so the results carry over to every plan
(`PlanLookups.PlanRunIsSafe`, `PlanLookups.PlanLookupSucceeds`, `PlanStart`). What is
assumed about a driver is that destroying an absent resource succeeds and that distinct
resources of a run get distinct backend names (`HookSafety.NamesApart`);
`DriverNames.NamesApartExactly` says for which plans the composed names do.

Five promises are false as they stand; each has a concrete failing input and the exact
condition under which the code keeps it:

* The outcome of reading a build result does not depend on chunking: fails when a marker
  line with another token than ok or fail is last at a chunk boundary and a later marker
  would have decided otherwise (`SerialReading.ChunkingCanMatter`); exact condition in
  `SerialReading.ChunkingExact`.
* Every lookup of a hook is defined: fails on a resume that creates a NAT sidecar on a
  fabric it reattached to (`ResumeRun.ResumeMissesUplink`); exact condition in
  `ResumeUplink.UplinkLookupExact`.
* A visible cache sidecar has its bytes: fails when a delete slips between fetching and
  recording a materialized entry (`LocalCache.MaterializeRacesDelete`); it holds over every
  run without such an overlap (`LocalCache.UndisturbedSidecarsHaveBytes`), and every overlap
  can break it (`LocalCache.OverlapCanDangle`).
* Distinct resources have distinct names: fails for VMs "web" and "web.qcow2", which pass
  validation (`DriverNames.SuffixedVmClashes`); exact condition in
  `DriverNames.NamesApartExactly`.
* A server name leads to an entry: fails after a delete that was not told about every name
  (`HttpCache.StaleInfoDangles`); exact condition in `HttpCache.DeleteKeepsExactly`.

`cache/local.py:69-72` says that the `*_name` methods take the write lock; the code at
296-332 does not, and they are not part of the model.

## Model

| member | source | states |
|---|---|---|
| `Relation.WaveIndexIsLongestChain` | testrange/graph/build_graph.py:149-161 | a node sits in wave `i` exactly when its longest dependency chain has `i` edges |
| `Relation.FewestWaves` | testrange/graph/build_graph.py:255-263 | no schedule that respects the dependencies has fewer batches than there are waves |
| `Relation.NeverBeforeItsWave` | testrange/graph/build_graph.py:149-161 | in any such schedule a node comes no earlier than its wave |
| `Relation.WavesUnique` | testrange/graph/build_graph.py:138-170 | the waves are determined by the relation alone |
| `Relation.WavesDisjoint` | testrange/graph/build_graph.py:149-161 | no node is in two waves |
| `Relation.LayeredIsAcyclic` | testrange/graph/build_graph.py:163-170 | a relation whose nodes are all placed in waves has no cycle |
| `Relation.ResidueHasNoFinishOrder` | testrange/graph/build_graph.py:172-211 | when every leftover node has a leftover dependency, they cannot be finished in any order |
| `Relation.FinishOrderNoCycle` | testrange/graph/build_graph.py:184-205 | nodes blackened in finishing order lie on no cycle |
| `BuildGraph.SearchStep` | testrange/graph/build_graph.py:186-208 | one turn of the stack loop closes a genuine simple cycle, descends, or blackens a node, and keeps the grey/black invariant |
| `BuildGraph.SearchFrom` | testrange/graph/build_graph.py:184-210 | from one root the loop terminates with a simple cycle of unsettled nodes or with the root black |
| `BuildGraph.FindCycle` | testrange/graph/build_graph.py:172-211 | terminates; answers with a closed walk of genuine edges through unsettled nodes with no interior repeat, and fails to only if those nodes can be finished in some order |
| `BuildGraph.Levels` | testrange/graph/build_graph.py:149-162 | Kahn's loop yields exactly the levels and stops only when nothing is runnable |
| `BuildGraph.NextWave` | testrange/graph/build_graph.py:155-161 | scanning only the dependents of the last wave finds everything that became runnable |
| `BuildGraph.ComputeWaves` | testrange/graph/build_graph.py:138-170 | either the complete waves or a simple cycle of the full relation |
| `BuildGraph.IndexNodes` | testrange/graph/build_graph.py:76-83 | the index holds every name, or the first repeated name is reported |
| `BuildGraph.CheckEdges` | testrange/graph/build_graph.py:97-108 | every edge has two different known endpoints, or the first offender is reported |
| `BuildGraph.Adjacency` | testrange/graph/build_graph.py:95-135 | both adjacency maps are the edge relation and its converse, for all edges or the content edges |
| `BuildGraph.Build` | testrange/graph/build_graph.py:69-136 | construction succeeds exactly on distinct names, good edges and an acyclic relation; otherwise the error explains the first offence; the content waves never fail |
| `BuildGraph.ExplainedIsUnacceptable` | testrange/graph/build_graph.py:76-136 | an explained error really rules the input out |
| `BuildGraph.EdgeGoesToEarlierWave` | testrange/graph/build_graph.py:255-278 | every edge of a frozen graph points to a strictly earlier wave |
| `CacheKeys.ComputeCacheKeys` | testrange/graph/keys.py:29-43 | the walk never misses a key and yields a solution of the recursive key equation |
| `CacheKeys.WalkKeys` | testrange/graph/keys.py:37-43 | the same along any order that lists dependencies first |
| `CacheKeys.KeysUnique` | testrange/graph/keys.py:37-43 | the key equation has one solution, so the order does not matter |
| `CacheKeys.OrderingEdgesDoNotInvalidate` | testrange/graph/build_graph.py:237-274 | graphs with the same content edges have the same keys and content waves, whatever ordering edges they add |
| `CacheKeys.OrderingOnlyGraph` | testrange/nodes.py:78-94 | with ordering edges only, every key is the node's own key and one content wave holds all nodes |
| `CacheKeys.FoldInputInjective` | testrange/nodes.py:86-94 | for names and keys without NUL, what is hashed determines the own key and every dependency name and key |
| `CacheKeys.ChangePropagates` | testrange/nodes.py:78-94 | a changed own key changes the key of every content dependent, provided the digest does not collide on the inputs involved |
| `Ledger.StampRealizedEffect` | testrange/state/store.py:331-337 | a stamp dates exactly that node's realization, keeps its materialize stamp, and leaves resources and other entries alone |
| `Ledger.StampMaterializedEffect` | testrange/state/store.py:323-329 | a materialize stamp is dated, changes no realization, and leaves resources and other entries alone |
| `Ledger.RemovedMembers` | testrange/state/schema.py:141-145 | removing a name keeps exactly the other records |
| `Ledger.RemovedPairwise` | testrange/state/schema.py:141-145 | removal keeps whatever held between earlier and later records |
| `Ledger.ReplacedNames` | testrange/state/schema.py:133-139 | replacing keeps the recorded names position by position |
| `Actions.SafeFrame` | testrange/state/store.py:270-317 | safety of a hook depends only on the names it mentions |
| `Actions.StepSafe` | testrange/orchestrator/vm_build.py:578-602 | after any step, failed or not, everything live is recorded and the rest of the hook is still safe |
| `RunSafety.EveryRunIsSafe` | testrange/state/store.py:270-317 | in every state of every run, each live backend resource is named in the ledger, and without a ledger nothing is live |
| `RunSafety.NextKeeps` | testrange/orchestrator/executor.py:73-134 | every single step keeps the ledger ahead of the backend and every running hook safe |
| `RunSafety.NobodyRuns` | testrange/orchestrator/_parallel.py:80-95 | when the walk returns or raises no worker is running and none can start |
| `RunSystem.ResolveWorkers` | testrange/orchestrator/_parallel.py:45-54 | the largest number both the cap (or the default) and the item count allow, never below one |
| `RunSafety.PoolIsBounded` | testrange/orchestrator/_parallel.py:80-95 | in every state of every run no more hooks are in flight than that |
| `RunSafety.RemovedLedgerIsFinal` | testrange/orchestrator/teardown.py:59-72 | once the ledger is removed the backend is empty, nobody runs and no step of the run is left |
| `RunSafety.PartsApart` | testrange/orchestrator/vm_build.py:318-355 | concurrent hooks and the shared infra bring-up touch disjoint resources |
| `RunOrder.EveryRunIsOrdered` | testrange/orchestrator/executor.py:98-134 | in every run the ledger lists run-phase records by wave and everything below a record is stamped realized |
| `RunOrder.NextOrder` | testrange/orchestrator/executor.py:98-134 | every single step keeps that order, and takes the run up only when every scheduled node is realized and nothing failed |
| `RunOrder.DependencyRecordedFirst` | testrange/orchestrator/executor.py:26-29 | every record of a transitive dependency precedes every record of its dependent, across crashes and resumes |
| `RunOrder.DependentDestroyedFirst` | testrange/orchestrator/teardown.py:31-44 | teardown and cleanup destroy a dependent's resources before any of its dependency's |
| `RunOrder.StartsAfterDependencies` | testrange/orchestrator/executor.py:98-106 | a realize hook runs or waits only when everything it depends on completed in this process |
| `RunLookups.EveryRunKnows` | testrange/orchestrator/executor.py:73-134 | in every run the artifacts of finished builds and the entries of finished nodes are known |
| `RunLookups.LookupsSucceed` | testrange/orchestrator/executor.py:98-106 | a hook that only looks up what its dependencies leave behind never hits a missing key |
| `RunLookups.DependenciesExist` | testrange/orchestrator/executor.py:98-106 | when a hook starts in a fresh run, all that its dependencies created is live |
| `RunUp.UpMeansAllRealized` | testrange/orchestrator/executor.py:98-134 | whenever a run is up, every scheduled node completed in this process and is stamped realized, nothing failed and nobody is at work |
| `RunUp.UpMeansAllCreated` | testrange/orchestrator/executor.py:98-134 | and, if it has not resumed, everything the realize hooks create exists and is recorded |
| `RunUp.DrainedWalk` | testrange/orchestrator/runtime.py:251-267 | a drained realize walk that failed is torn down newest first; one that did not goes on to the next wave, and up after the last |
| `RunUp.FailedRunNeverComesUp` | testrange/orchestrator/runtime.py:251-269 | once a walk has failed, no continuation without a resume comes up |
| `RunUp.InfraIsGone` | testrange/orchestrator/vm_build.py:358-394 | in every fresh run without failure, from the realize walk on, nothing of the build infra is live or recorded beyond what its teardown leaves out |
| `Cleanup.StateStore.RecordIntent` | testrange/state/store.py:270-299 | appends the record; the recorded names grow by exactly that name |
| `Cleanup.StateStore.Confirm` | testrange/state/store.py:301-312 | fails without such a record; otherwise dates the outcome, merges the metadata over the first record's, and keeps every other record in its place |
| `Cleanup.StateStore.Forget` | testrange/state/store.py:314-317 | drops every record of the name and keeps the others in order |
| `Cleanup.Driver.Destroy` | testrange/drivers/esxi/_net.py:157-163 | an absent resource is destroyed without error; a failing destroy may have worked |
| `Cleanup.DestroyAll` | testrange/orchestrator/teardown.py:38-55 | the loop visits every resource newest first, never stops early, and leaves what the specification of a pass says |
| `Cleanup.Teardown` | testrange/orchestrator/teardown.py:12-72 | nothing without a readable ledger; otherwise one pass, after which the ledger goes, if that works, exactly when nothing is left recorded or the second read fails |
| `Cleanup.CleanupRun` | testrange/state/cleanup.py:134-204 | refuses a missing ledger or a live owner, lists on a dry run, finalises a drained ledger without the backend, removes the run only after a flawless pass, and says what a failing connection, phase write or disconnect leaves |
| `Recovery.PassLeaves` | testrange/state/cleanup.py:175-186 | whatever fails and however names repeat, the ledger keeps exactly the records of names never successfully destroyed, in order |
| `Recovery.PassShrinksBackend` | testrange/state/cleanup.py:175-186 | a pass takes every successfully destroyed name off the backend and touches no other run's |
| `Recovery.PassBackendExactly` | testrange/state/cleanup.py:175-186 | exactly the names for which some destroy call took effect have left the backend |
| `Recovery.PassReports` | testrange/state/cleanup.py:175-186 | the report lists, in pass order, exactly the resources destroyed and forgotten as destroyed and exactly the others as errors |
| `Recovery.PassStaysRecorded` | testrange/orchestrator/teardown.py:38-63 | a pass keeps everything live recorded, so a ledger found empty is removed from an empty backend |
| `Recovery.BlindRemovalLeaks` | testrange/orchestrator/teardown.py:59-63 | a failed destroy leaves its resource live, and a failing second read then removes the ledger that names it |
| `Recovery.PassLeavesFailedExactly` | testrange/state/cleanup.py:175-202 | a partly failing pass leaves exactly the failed resources in their original order if and only if records of one name fare alike |
| `Recovery.PartialPassLeavesFailed` | testrange/state/cleanup.py:175-202 | so it does with unique names |
| `Recovery.RepeatedNameLeavesLess` | testrange/state/schema.py:141-145 | with a repeated name it can leave less than the failed ones |
| `Recovery.FlawlessPass` | testrange/state/cleanup.py:175-193 | a flawless pass empties the ledger and removes exactly the recorded names from the backend |
| `Recovery.CleanupIsARun` | testrange/state/cleanup.py:134-204 | every cleanup, failing however it may, is a run of the machine with the promised ledger and backend |
| `Recovery.CleanupRecovers` | testrange/state/cleanup.py:134-204 | from every dead run, after any crashes and partial cleanups, one cleanup whose destroys succeed leaves no resource and no ledger |
| `Plans.NodeNamesApart` | testrange/handles.py:44-52 | kind-qualified node names never collide |
| `Plans.CollectSwitches` | testrange/nodes.py:372-390 | one node per switch and per sidecar with the sidecar's edges once each, or the missing-pool error exactly when a sidecar has no pool |
| `Plans.CollectVms` | testrange/nodes.py:391-408 | every disk, network and sidecar edge of every VM, once; which those are, `PlanEdges.GraphEdgesAre` says by declarations |
| `Plans.AssembleGraph` | testrange/nodes.py:349-412 | the graph has one node per declaration in order and every inferred or explicit edge exactly once; it fails only without a pool for a sidecar or on an unacceptable graph |
| `PlanEdges.GraphEdgesAre` | testrange/nodes.py:359-412 | the frozen graph has an edge exactly from a VM to the pools of its disks, the fabrics of its NICs and their sidecars, from a sidecar to its fabric and the first pool, and where `.needs()` asked for one |
| `PlanEdges.DependenciesAre` | testrange/nodes.py:359-412 | and so are the dependencies of each node |
| `Plans.EdgeInGraph` | testrange/nodes.py:389-410 | every edge of the plan is a dependency of the frozen graph |
| `Plans.CyclesAreExplicit` | testrange/nodes.py:359-412 | a dependency cycle runs through VMs only and each step was asked for with `.needs()`; inferred edges never close one |
| `HookSafety.SegmentsUpSound` | testrange/orchestrator/provision.py:105-115 | every network of a switch, however many, is recorded before it is created and belongs to the switch's node |
| `HookSafety.FabricUpSound` | testrange/orchestrator/provision.py:68-123 | provisioning a switch is safe from any starting point and stays within its node's resources |
| `HookSafety.SidecarRealizeSound` | testrange/orchestrator/provision.py:126-219 | so is bringing up a sidecar |
| `HookSafety.MachineRealizeSound` | testrange/orchestrator/vm_run.py:52-105 | so is bringing up a VM with any number of data disks and NICs; what it brings up, `HookEffects.MachineProfile` says |
| `HookSafety.PoolUpSound` | testrange/orchestrator/vm_run.py:42-49 | so is creating a pool |
| `HookSafety.MachineBuildSound` | testrange/orchestrator/vm_build.py:410-575 | so is building a VM, with its best-effort deletes |
| `HookSafety.InfraUpSound` | testrange/orchestrator/vm_build.py:318-355 | so is the shared build infra |
| `HookSafety.InfraGoneSound` | testrange/orchestrator/vm_build.py:358-394 | taking it down destroys before forgetting and touches only what bringing it up did |
| `HookSafety.OwnersApart` | testrange/orchestrator/provision.py:94-219 | hooks of different owners touch disjoint resources |
| `Hooks.EveryKindDispatches` | testrange/drivers/base.py:513-544 | the kind recorded for every resource is one a driver can destroy, as what was created |
| `HookEffects.PoolProfile` | testrange/orchestrator/vm_run.py:42-49 | a pool hook records, creates and confirms exactly its pool and enters it |
| `HookEffects.FabricProfile` | testrange/orchestrator/provision.py:94-123 | a fabric hook brings up exactly the switch and each of its networks, and enters them and, with NAT, the uplink |
| `HookEffects.SidecarProfile` | testrange/orchestrator/provision.py:126-219 | a sidecar hook brings up exactly two volumes and a VM; its exact lookups and entries |
| `HookEffects.MachineProfile` | testrange/orchestrator/vm_run.py:52-336 | a VM hook brings up exactly the OS disk, each data disk and the machine; its exact lookups; it raises exactly when a DHCP NIC has no serving sidecar |
| `HookEffects.ReattachProfiles` | testrange/nodes.py:190-346 | reattaching brings nothing up and enters what the first realize did, but for a fabric's uplink |
| `HookEffects.BuildProfile` | testrange/orchestrator/vm_build.py:437-535 | a build brings up exactly the OS disk, each data disk, the machine, and the boot medium and seed where there are any |
| `HookEffects.InfraProfile` | testrange/orchestrator/vm_build.py:318-355 | the build infra is exactly a pool, the build switch with its networks, and its sidecar |
| `HookEffects.MachineBuildLeaves` | testrange/orchestrator/vm_build.py:410-575 | a build in which no call fails leaves nothing of its own live or recorded, touches no other name, and has captured every disk |
| `HookEffects.CapturesWhileLive` | testrange/orchestrator/vm_build.py:536-575 | each disk is captured while everything the build brought up exists |
| `HookEffects.InfraLeaves` | testrange/orchestrator/vm_build.py:358-394 | the infra brought up and taken down without failure leaves exactly its sidecar's two volumes, and their records |
| `HookEffects.DisksBeforeMachine` | testrange/orchestrator/vm_run.py:62-103 | a VM is created only once all its disks exist |
| `HookEffects.FabricBeforeSegments` | testrange/orchestrator/provision.py:94-115 | a network is created only once its switch exists |
| `HookEffects.VolumesBeforeSidecar` | testrange/orchestrator/provision.py:165-219 | a sidecar VM is created only once both its volumes exist |
| `HookKeys.InfraDefined` | testrange/orchestrator/vm_build.py:330-355 | every lookup while bringing the build infra up is defined by its own earlier steps |
| `HookKeys.InfraDrops` | testrange/orchestrator/vm_build.py:372-387 | taking it down drops every network entry it made and no build artifact |
| `HookKeys.SidecarDefined` | testrange/orchestrator/provision.py:150-219 | a sidecar's lookups need only its pool, its first network and, with NAT, its uplink |
| `HookKeys.MachineLooks` | testrange/orchestrator/vm_run.py:56-101 | a VM's lookups need only its artifacts, pools, networks and the sidecars it leases from |
| `PlanRuns.PlanIsWellFormed` | testrange/orchestrator/executor.py:73-134 | every registered plan's hooks on its frozen graph meet all conditions of the run results |
| `PlanRuns.HooksApart` | testrange/nodes.py:106-346 | hooks of different nodes, builds and the infra never share a resource |
| `PlanLookups.PlanKeysFit` | testrange/orchestrator/vm_build.py:318-394 | every plan's build walk meets the lookup conditions |
| `PlanLookups.PlanLookupsFit` | testrange/nodes.py:349-412 | every realize hook of a plan only looks up what its graph dependencies and the build leave behind |
| `PlanLookups.PlanRunIsSafe` | testrange/state/store.py:270-317 | for every plan, in every state of every run, what is live is recorded |
| `PlanLookups.PlanLookupSucceeds` | testrange/orchestrator/provision.py:150-202 | for every plan, every dictionary lookup of every hook is defined in fresh runs, and in resumed ones outside the excepted case |
| `PlanStart.VmPoolsExist` | testrange/orchestrator/vm_run.py:62-79 | when a VM's bring-up starts in a fresh run all its pools exist |
| `PlanStart.VmNetworksServe` | testrange/nodes.py:397-408 | its networks exist, and every sidecar on its switches has been seen serving by this process |
| `PlanStart.NeededNodesAreUp` | testrange/nodes.py:409-412 | every `.needs()` target has finished realizing in this process |
| `PlanUp.UpNode` | testrange/orchestrator/executor.py:98-134 | for every plan: when its run is up every node is, and what its hook creates is there |
| `PlanUp.UpPlanExists` | testrange/orchestrator/runtime.py:233-269 | a fresh run that is up has every declared pool, switch, network, sidecar and VM with all its disks, live and recorded |
| `PlanUp.BuildInfraIsGone` | testrange/orchestrator/vm_build.py:358-394 | and nothing of the build infra but the two volumes of its sidecar |
| `PlanUp.VmHooksDo` | testrange/nodes.py:320-346 | a cache hit touches no resource and a miss builds; a reattached VM is only waited for and any other is created |
| `ResumeUplink.EveryRunMisses` | testrange/nodes.py:190-204 | a key no hook of the process writes is never known in its realize walk, whatever the build infra wrote before |
| `ResumeUplink.UplinkLookupExact` | testrange/orchestrator/provision.py:117-123 | a NAT sidecar finds its uplink entry if and only if this process created the fabric itself |
| `ResumeRun.ResumeMissesUplink` | testrange/nodes.py:190-204 | a concrete plan and run: fabric created, crash, resume, sidecar started, uplink entry missing, hook raises |
| `ResumeRun.BuildingProceeds` | testrange/orchestrator/provision.py:94-219 | a hook that records before it confirms and looks up what is known runs to its end when no call fails |
| `DriverNames.NamesApartExactly` | testrange/drivers/libvirt/_naming.py:38-58 | for validated VM names, a run's resources all get different composed names if and only if no VM or sidecar switch is named like a volume of another |
| `DriverNames.DotFreeNamesApart` | testrange/drivers/esxi/_naming.py:52-74 | names without a dot are enough |
| `DriverNames.SuffixedVmClashes` | testrange/orchestrator/vm_run.py:57-63 | two accepted VMs one of which is named like the other's OS disk, so forgetting either drops both records |
| `DriverNames.DriverRunIsSafe` | testrange/state/store.py:270-317 | under those names, for every such plan and every run, what is live is recorded |
| `Base64.TolerantDecodes` | testrange/orchestrator/vm_build.py:763-787 | decoding never fails and yields exactly the whole bytes of the alphabet characters |
| `Base64.RoundTrip` | testrange/orchestrator/vm_build.py:754-787 | encode by section 4 of RFC 4648, insert any foreign bytes anywhere, decode: the original comes back |
| `Base64.CutRoundTrip` | testrange/orchestrator/vm_build.py:754-787 | cut anywhere, decoding gives a prefix whose length is fixed by the number of characters kept |
| `Base64.AlphabetIsTheTable` | testrange/orchestrator/vm_build.py:754-756 | the 64 groups are written as table 1 of RFC 4648 says |
| `SerialResult.ParseBuildResult` | testrange/orchestrator/vm_build.py:676-751 | the two loops over marker offsets compute the first decisive judgement of the specification, whose answers `SerialLog` states |
| `SerialReading.VerdictStable` | testrange/orchestrator/vm_build.py:721-743 | a non-final ok, or a fail with a complete log frame, is unchanged by any further bytes |
| `SerialReading.WaitForBuildResult` | testrange/orchestrator/vm_build.py:903-936 | the loop over chunks returns what reading the growing buffer specifies, or times out, if and only if the deadline passed at a chunk up to which nothing was decided |
| `SerialReading.ChunkingExact` | testrange/orchestrator/vm_build.py:744-750 | the outcome is the same for every chunking if and only if no stray token can decide early |
| `SerialReading.ChunkingIndependent` | testrange/orchestrator/vm_build.py:903-936 | without stray tokens every chunking gives the verdict of the whole stream |
| `SerialReading.ChunkingCanMatter` | testrange/orchestrator/vm_build.py:744-750 | a concrete stream that two chunkings decide differently |
| `SerialReading.SuccessNeedsOk` | testrange/orchestrator/vm_build.py:964-969 | reading succeeds only if some marker's first token is ok |
| `SerialLog.DecisiveAnswers` | testrange/orchestrator/vm_build.py:706-739 | while the stream is open, the first marker with a complete ok line, or a complete fail line and frame, is the answer: success, or the line's code and command and the decoded frame |
| `SerialLog.UndecidedAnswers` | testrange/orchestrator/vm_build.py:737-751 | with no such marker there is an answer only if the last marker's complete line says something else, and it is that line |
| `SerialLog.FinalAnswers` | testrange/orchestrator/vm_build.py:716-751 | once closed, the first marker that says ok or fail is the answer, with an empty log if its frame is unfinished; else the last marker's line; else none |
| `SerialLog.UnfinishedLogIsEmpty` | testrange/orchestrator/vm_build.py:683-686 | a fail line without its finished frame is reported with an empty log |
| `SerialLog.FailureLogArrives` | testrange/orchestrator/vm_build.py:726-736 | end to end: whatever decides nothing before, and whatever foreign bytes are between the characters, the host reports the fail line's code and command and exactly the log the guest encoded |
| `SerialLog.FailureLogIsRead` | testrange/orchestrator/vm_build.py:903-936 | the same through the reading loop, for chunks of any size |
| `SerialLog.CutLogIsRecovered` | testrange/orchestrator/vm_build.py:810-827 | a frame cut short yields the prefix of the log whose length the characters received fix |
| `SerialLog.FallbackIs` | testrange/orchestrator/vm_build.py:810-828 | otherwise the log is the last 4096 bytes, or all there are |
| `SerialLog.SilentGuestFails` | testrange/orchestrator/vm_build.py:924-936 | a stream without any marker fails with that log, however it was cut |
| `SerialLog.StripIs` | testrange/orchestrator/vm_build.py:721-722 | stripping removes the blanks at both ends and nothing else |
| `SerialLog.TokenIs` | testrange/orchestrator/vm_build.py:722-722 | the token is what precedes the first blank |
| `LocalCache.StepKeepsVisible` | testrange/cache/local.py:129-194 | a step leaves a sidecar without bytes if and only if it writes one whose bytes a delete removed |
| `LocalCache.SidecarsHaveBytes` | testrange/cache/local.py:262-294 | under any interleaving and crash of adds, deletes and purges every visible sidecar has its bytes; that a removal removes, `LocalRemoval` says |
| `LocalCache.UndisturbedSidecarsHaveBytes` | testrange/cache/local.py:129-294 | with materializes too, as long as no delete or purge of some content overlaps its materializing |
| `LocalCache.OverlapCanDangle` | testrange/cache/local.py:166-194 | every such overlap can be continued to a visible sidecar without bytes |
| `LocalCache.MaterializeRacesDelete` | testrange/cache/local.py:166-194 | a concrete run from an idle cache in which a materialize loses that race |
| `LocalRemoval.RemovalCompletes` | testrange/cache/local.py:262-294 | in every run, when a delete or purge ends: exactly its sidecars are gone since it took the lock, each of its contents was at some moment without both files, and no bytes outside its list are gone |
| `LocalRemoval.RemovalProgresses` | testrange/cache/local.py:285-291 | while it holds the lock, whatever else runs, it works through its list in order |
| `LocalRemoval.PurgeAlone` | testrange/cache/local.py:277-294 | from an idle cache a lone purge removes exactly what it was given, and all there is if given every entry |
| `LocalCache.ServedIsUnion` | testrange/cache/local.py:145-152 | one request adds exactly what was asked, keeps a duplicate-free prior list in front, and yields duplicates exactly when nothing was merged and what it kept or wrote had some |
| `LocalCache.AliasesAreSerial` | testrange/cache/local.py:142-194 | under any interleaving the alias list is that of serving the finished requests one at a time |
| `LocalCache.EveryRequestIsServed` | testrange/cache/local.py:104-194 | without deletes and crashes every request made is served exactly once or still in flight |
| `LocalCache.AliasesMerge` | testrange/cache/local.py:142-194 | when all threads have finished the list is the union of what was there and of every name anyone requested, prior order first |
| `LocalCache.AliasesUniqueExactly` | testrange/cache/local.py:166-194 | it is free of duplicates if and only if the first list was or some materialize merged |
| `LocalCache.FirstMaterializeKeepsDuplicates` | testrange/cache/local.py:193-194 | only a first materialize can bring duplicates in |
| `HttpCache.Client.Push` | testrange/cache/http.py:199-226 | content, sidecar, links, in that order, wherever it stops |
| `HttpCache.Client.Delete` | testrange/cache/http.py:228-240 | links, sidecar, content, in that order, wherever it stops; not stopped, exactly the entry and the given links are gone |
| `HttpCache.Client.AddName` | testrange/cache/http.py:242-266 | sidecar before link; refused without a sidecar; not stopped, the name leads to the entry, is listed once, and nothing else changed |
| `HttpCache.Client.ForgetName` | testrange/cache/http.py:268-293 | link before sidecar; not stopped, the name leads nowhere, its entry no longer lists it, and nothing else changed |
| `HttpCache.PushResolves` | testrange/cache/http.py:199-226 | a completed push makes the entry resolvable by sha and every name and touches nothing else |
| `HttpCache.DeleteEffect` | testrange/cache/http.py:228-240 | the whole server after a completed delete |
| `HttpCache.NameAddedEffect` | testrange/cache/http.py:242-266 | the whole server after a completed alias |
| `HttpCache.NameForgottenEffect` | testrange/cache/http.py:268-293 | the whole server after a completed forget |
| `HttpCache.WithoutIs` | testrange/cache/http.py:282-282 | the rewritten list has no copy of the name and as many of every other |
| `HttpCache.ForgetUndoesAdd` | testrange/cache/http.py:242-293 | forgetting a new alias restores the server |
| `HttpCache.DeleteUndoesPush` | testrange/cache/http.py:199-240 | deleting a new entry by its own list restores the server |
| `HttpCache.PushKeeps` | testrange/cache/http.py:199-226 | a push stopped anywhere leaves every link leading to a sidecar and every sidecar to its bytes |
| `HttpCache.DeleteKeepsExactly` | testrange/cache/http.py:228-240 | a delete does so if and only if it stops before the sidecar or was given every link to the sha |
| `HttpCache.ServerStaysConsistent` | testrange/cache/http.py:199-293 | any sequence of operations stopped anywhere, with informed deletes, leaves the server consistent |
| `HttpCache.StaleInfoDangles` | testrange/cache/http.py:228-240 | a concrete delete by stale information that leaves a dangling name |
| `HttpCache.Isos.Fetch` | testrange/cache/http.py:157-197 | installs exactly a complete body that hashes to the requested sha, and otherwise nothing |
| `EsxiNet.EsxiHost.CreateSwitch` | testrange/drivers/esxi/_net.py:104-134 | adds the isolated vSwitch, the management portgroup and the uplink segment, each only if missing |
| `EsxiNet.EsxiHost.CreateNetwork` | testrange/drivers/esxi/_net.py:137-154 | adds the portgroup on the switch's vSwitch |
| `EsxiNet.EsxiHost.DestroySwitch` | testrange/drivers/esxi/_net.py:173-213 | removes the switch's fabric and collects the shared vSwitch when its last portgroup went |
| `EsxiNet.HostMatches` | testrange/drivers/esxi/_net.py:104-213 | after any sequence of operations the host holds exactly what the live switches and networks need |
| `EsxiNet.UplinkSwitchExactly` | testrange/drivers/esxi/_net.py:194-205 | the uplink vSwitch of a physical NIC exists exactly while a live NAT switch uses that NIC |
| `EsxiNet.DestroyFramesOthers` | testrange/drivers/esxi/_net.py:173-213 | destroying one switch removes no other switch's vSwitch or portgroup |
| `SshJump.SshJumpGateway.EnsureJump` | testrange/gateways/ssh_jump.py:87-115 | reuses the tracked client or dials one and tracks it |
| `SshJump.SshJumpGateway.ChannelTo` | testrange/gateways/ssh_jump.py:117-135 | refuses a stale generation without dialling |
| `SshJump.SshJumpGateway.OpenLocalForward` | testrange/gateways/ssh_jump.py:147-166 | registers the listener with the current generation in the same locked section |
| `SshJump.SshJumpGateway.BeginClose` | testrange/gateways/ssh_jump.py:201-209 | bumps the generation, closes every registered listener and takes the client out |
| `SshJump.EveryInterleaving` | testrange/gateways/ssh_jump.py:87-215 | in every interleaving each client ever dialled is tracked, being closed or closed, and every open listener is of the current generation |
| `SshJump.ClosedForwardStaysStale` | testrange/gateways/ssh_jump.py:169-182 | after a close its forward threads never dial again, whatever follows |
| `SshJump.StaleThreadNeverDials` | testrange/gateways/ssh_jump.py:120-130 | a forward thread of an older generation changes nothing |
| `SshJump.NothingLeaks` | testrange/gateways/ssh_jump.py:201-215 | when the last close has finished every client ever dialled is closed |
| `Toml.ChainIsEscape` | testrange/builders/proxmox.py:604-606 | the ordered chain of replacements is one simultaneous per-character escape |
| `Toml.TomlRoundTrip` | testrange/builders/proxmox.py:591-607 | for every string, reading the literal as a TOML basic string gives the original back |
| `Toml.TomlHasNoControls` | testrange/builders/proxmox.py:594-600 | the literal holds no raw control character |
| `Addressing.ValidateAddressing` | testrange/networks/validate.py:120-207 | reports the problems of one ordered pass, none exactly when every NIC is fine and no two statics collide |
| `Addressing.AcceptedExactly` | testrange/networks/validate.py:126-207 | with unique switch names, the exact condition on every static address and pair of statics |
| `Addressing.FaultIs` | testrange/networks/validate.py:165-194 | which reason is given for which address, with the reserved offsets spelt out |
| `Addressing.WalkReports` | testrange/networks/validate.py:141-203 | each NIC adds one problem exactly when there is a complaint about it; a duplicate names the first NIC that claimed the address |
| `Addressing.NoStaticInDhcpRange` | testrange/networks/sidecar.py:194-198 | no accepted static falls in the rendered dhcp-range, which lies inside the subnet |
| `Addressing.SharedNameRefusesTwoWires` | testrange/networks/validate.py:135-139 | without unique switch names two different wires are taken for one |
| `VmNames.AcceptedExactly` | testrange/vms/validate.py:33-72 | the exact condition under which VM declarations pass |
| `VmNames.MarkedIsThePattern` | testrange/vms/validate.py:30-30 | scanning back over trailing digits finds exactly the reserved pattern |
| `VmNames.VolumeNamesDistinct` | testrange/vms/validate.py:21-65 | for every accepted plan, any driver prefix and any number of disks, volumes with the same name are the same volume |
| `VmNames.UnmarkedRuleNeeded` | testrange/vms/validate.py:21-29 | without the rule an OS disk and another VM's data disk share a name |

## Left out

- Driver SDK calls, HTTP, SSH and image tools: a driver is a set of live names with create and an absence-tolerant destroy.
- Wall-clock timeouts and polling: a wait is a step that may raise.
- Hashes and digests: SHA-256 is a function parameter, assumed not to collide only where a member says so; the ESXi short names are taken not to collide.
- Text decoding and line splitting of the serial log: parameters of the parser; the fallback log's formatting is not modelled.
- RunSystem.Next: whole runs assume that reading the ledger does not fail transiently; `Cleanup.Teardown` models the failing second read, which the code takes for an empty ledger.
- `forget_run`, file locks between processes, process ids and signals: a run has one owner by contract.
- Ledger writes: each is one atomic step that either happens or raises; the temporary-file protocol under it is not modelled.
- DriverNames.NamesApartExactly: names that a driver's sanitiser changes or shortens, which then end in a digest, are not modelled; Proxmox changes every name with a dot or an underscore.
- HookSafety.SidecarUpSound: the driver-owned uplink segment is part of its switch, as it is in the ledger.
- Hooks.Intend: the pool a volume lies in, which its record keeps as metadata, is not modelled.
- Hooks.MachineReady: the SSH address lookup of a VM is one of the same sidecar lookups and is not repeated.
- LocalCache: `add_name`, `forget_name` and `resolve`; sizes, origins and descriptions of entries.
- HttpCache: several clients at once.
- EsxiNet: addresses of management adapters; operations are taken as completed.
- SshJump: the byte pumps and channel failures.
- The console streamer, dashboard, command line, profiles, preflight and device checks: presentation and simple field checks.
- Cloud-init, kickstart and answer-file text beyond TOML strings: text assembly.
