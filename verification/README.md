# Proofs about the KubeVirt Redfish bridge

The bridge lets Redfish clients manage KubeVirt virtual machines. It keeps almost no state of its own: what a
boot override, an ISO import or a deferred power command still has to do is written on the VM as labels and
annotations, and watcher goroutines act on them later. This project models that controller, the patches it
sends, its task manager, caches, system names and login limiter, and proves what holds over whole runs of them.

Code that changes state step by step is modelled by classes and methods with loops (`Controller`, `Media`,
`Namespace`, `Machine`, `WatcherSet`, `Node`, `PriorityQueue`, `TaskManager`, `Engine`, `Cache`, `AdvancedCache`,
`RateLimiter`). Each method is proved equal to a specification function, and the results are lemmas about those
functions. Protocols that interleave are state machines: a `Run` is a sequence of states and the events between
them, and the main results quantify over every run. Where the code reads, prepares a change and sends it later, or
holds a lock for part of an operation only, the parts are separate events.

| File | Covers |
|---|---|
| `BootOrder.dfy`, `BootOnceVm.dfy`, `BootOnce.dfy` | boot orders, snapshots, the boot-once state and its patches, the protocol with uninterrupted operations |
| `BootOnceOverlap.dfy`, `BootOnceLife.dfy`, `BootOnceLosses.dfy` | the same protocol with reads and patches apart, in any overlap, inserts and ejects included |
| `VirtualMedia.dfy` | insert and eject, the claims and import sources that hold the images |
| `ImportLabels.dfy`, `ImportOwnership.dfy` | importing labels, their handlers, the three sweeps, runs of all of them |
| `DeferredPower.dfy`, `CommandFate.dfy`, `Watchers.dfy` | power commands parked during an import, what becomes of each, how many watchers there are |
| `JsonMergePatch.dfy`, `JsonPointer.dfy`, `MockObjects.dfy` | RFC 7396 and RFC 6901 as the mock client and the computed patches use them |
| `PriorityQueue.dfy`, `Tasks.dfy`, `TaskProtocol.dfy`, `TaskEngine.dfy` | the task manager: its data structures, its runs, and the goroutine loops whose steps the runs interleave |
| `ResponseCache.dfy`, `AdvancedCache.dfy`, `CacheRuns.dfy` | the single-tier and the three-tier cache, and the latter with its locks apart |
| `SystemNaming.dfy` | configuration checks, listing and resolving systems |
| `LoginLimiter.dfy`, `LoginOverlap.dfy` | the per-client login limiter, and its runs with the check and the update of a request apart |

## Assumptions

- UIDs of VM instances and names of pods and claims are never reused; no two VMs of a namespace share a name.
- Task IDs are clock readings in nanoseconds. The runs of the task manager take them to be new; `CollidingIdIff` says
  exactly what a collision breaks.
- A failed API call has no effect; a successful one is atomic. In a record of call outcomes (`Calls`,
  `InsertCalls`, `EjectCalls`) a call that an execution does not make counts as successful.
- A label handler's read, check and removal of an importing label are one step. For the parked power command
  they are separate steps.
- In `BootOnce` the operations of a run do not overlap. In `BootOnceOverlap` they do; there a cleanup's reads of the
  VM and of its instance are one step. The methods of `Controller` take the VM that their patch meets as a parameter.
- Of disks that share a name the last one counts in the configured order of `BootOnceOverlap`; the results about whole
  boot orders ask for unique names.
- In `AdvancedCaching` lookups and invalidations are uninterrupted; `CacheRuns` takes them apart, a lookup tier by tier.
  A promotion's store and its removal from the tier below, which happen under the lock of the upper tier, are one step
  there.
- `ResponseCache.Cache.Get` is a lookup that nothing interrupts. The code gives up the read lock before it deletes an
  expired entry, so `LookUp` and `Delete` are methods of their own: every method may come in between, and the deletion
  takes an entry stored meanwhile with it.
- In `LoginLimiter` a request's check and update are one step with one clock reading; `LoginOverlap` takes them apart.
- Inserts and ejects of one VM come one after the other.
- JSON encoding and decoding are inverses, up to Go's omission of empty maps, which is modelled where it matters.
- Clock readings never go backwards, and one method reads the clock once.
- Map iteration order is arbitrary: loops over maps and over listed objects choose any remaining element.

## Where the code does less than its comments say

Each of these is a lemma with the exact condition or a concrete input.

- Operations that write the disk list or the boot-once state overlap. If a cleanup lands between the read and the patch
  of an arming, an eject or an insert that read the armed VM, the VM ends up with the override on its disks, no label
  and no snapshot (`RearmDuringCleanup`, `EjectDuringCleanup`, `InsertDuringCleanup`, each with the exact condition on
  the VM under which the configured order is lost). Without further overlaps a lost place stays lost until the order is
  set again or the disk is ejected; the next arming saves the override as the original (`LostOrderIsNeverRestored`).
  `ConfiguredOrderKeptIff` gives the exact condition for every operation, a cleanup whose override equalled the
  configured order, a first arming that overlaps a change, and a disk list that drops a newer disk included, and
  `LosingTheOrderTakesAnOverlap` what each has met.
- Two armings overlap. The UID on record is that of the one that lands last, unless that one found it already there;
  if it had read the VM while it was off, the next handler run removes both overrides without a reboot
  (`LateArmingEndsBoth`, `ArmingMatchesIff`). `ArmingTakesIff`, `ArmingLastsIff` and `ArmingInForceIff` say when an
  arming is lost otherwise.
- A patch computed after deleting the last label or annotation nulls the whole map (`NewEntrySurvivesIff`). The
  boot-once cleanup of a VM whose only label was the boot-once label wipes labels written since its read, an importing
  label or a parked power command included; a command wiped that way is never issued (`WipedCommandIsNeverIssued`).
  `LabelIsClearedByItsOwner` names this as the one way besides the intended ones in which an importing label goes away.
  A cleanup can likewise wipe the image URL, after which every insert request is a conflict
  (`WipedUrlReadsAsConflict`), and an eject can wipe a snapshot, leaving a label that no handler run acts on
  (`WipingEjectStrands`, `StrandedUntilArmed`).
- Two chassis on one namespace start two watchers, and then one parked command can be issued twice
  (`DeferredCommandsNeverRepeatIff`); the validation accepts such a configuration (`AcceptedConfigMayShareNamespace`).
- A power command that was accepted as deferred can be dropped: it is issued exactly if a watcher reads it, with no
  import under way, before another command replaces it and before the label is cleared, and then removes the label
  (`CommandIssuedIff`). A command parked between a handler's read and its removal is lost that way
  (`WriteBetweenReadAndRemovalIsLost`).
- A helper pod that is deleted while its label stays leaves a label that no completion and no sweep clears
  (`OrphanedLabelStays`). That happens exactly if the pod is handled before its label is set, or is deleted by someone
  else, or its completion handler deletes it and then fails to read the VM or to patch it (`LabelOrphanedIff`).
- If the instance lookup fails while a running VM is armed, the override is removed without a reboot
  (`SameInstanceKeepsOverrideIff`). A disk added while armed keeps the override's order (`AddedDiskKeepsOverride`),
  the CD-ROM of a later insert among them (`InsertedCdRomStaysBootable`).
- After an insert that failed behind its VM patch, the same request reads "ready" (`RepeatedRequestSees`).
- The mock client's merge differs from RFC 7396 for nulls inside new objects (`MergedIsMergePatchIff`).
- Invalidation patterns that are no hex strings of at most 64 digits never match the response cache's hashed keys (`HashedKeysEscapeIff`),
  and an empty key that is strictly the least recently used one can keep a full tier from evicting
  (`ScanFindsOldestIff`, `NoCandidateMeansEmptyOldest`).
- A promotion can store an entry in a tier that an invalidation has already purged, even one whole lookup between two
  purges of one invalidation, and a later lookup then hands out invalidated data (`PromotionServesInvalidatedIff`,
  `PromotionBetweenPurges`).
- The completed and failed counts of the task statistics include creations and single attempts, and the number of
  created tasks is always reported as zero (`ReportedStatistics`, `CountsFollowOutcomes`). The queue size is reported
  from the queue itself; the counter kept beside it, which nothing reads, drifts with each retry
  (`QueueCounterDriftsIff`).
- An order set while boot-once state is present is accepted and then undone by the next cleanup, unless it is the saved
  one (`OrderSetWhileArmedLastsIff` in `BootOnce` for whole orders, in `BootOnceOverlap` disk by disk and under overlap).
- The login limiter checks a request and counts its failure under two separate locks. If the cleanup of another client's
  request comes in between, failures are forgotten: `TablesAgreeIff` says exactly when, `FirstFailureForgotten` is such
  a run, and a client can tell, in some run, exactly if a block takes more than one failure and has a duration
  (`CleanupVisibleIff`). Failures that follow each other within the window are not affected
  (`FailuresCountUntilBlocked`).
- Under the legacy convention a listed VM whose name has a dot does not resolve (`LegacyIdsResolveIff`).

## Model

| member | source | states |
|---|---|---|
| BootOrder.ModifyBootOrder | pkg/kubevirt/client.go:2265-2329 | the in-place loops leave every disk with the order that its rank among disks of its kind gives it, CDs ahead of HDDs for target Cd |
| BootOrder.BootableIff | pkg/kubevirt/client.go:2271-2329 | which disks get an order: under target Cd those of cdrom volumes, data volumes and container disks, under target Hdd the latter only, else none; names and devices stay |
| BootOrder.OverrideSoundForUniqueNames | pkg/kubevirt/client.go:2265-2329 | with unique disk names all orders are positive and distinct, and under target Cd every CD boots before every HDD, whatever the volumes |
| BootOrder.OrdersDistinctIff | pkg/kubevirt/client.go:2265-2329 | for any names, orders collide exactly when HDDs exist and CD disks outnumber counted cdrom volumes |
| BootOrder.OrdersContiguousIff | pkg/kubevirt/client.go:2265-2329 | the orders are exactly 1..n unless a cdrom volume without its disk leaves a gap below the HDDs |
| BootOrder.CdDisksFitCdVolumes | pkg/kubevirt/client.go:2271-2290 | pigeonhole: uniquely named CD disks never outnumber the cdrom volumes that are counted ahead |
| BootOrder.OverrideIgnoresEarlierOrders | pkg/kubevirt/client.go:2292-2329 | the assignment depends on disks and volumes only, not on the orders found there |
| BootOrder.CaptureBootOrder | pkg/kubevirt/client.go:2995-3018 | the snapshot lists every disk's name and order, in disk order |
| BootOrder.RestoreBootOrder | pkg/kubevirt/client.go:3021-3056 | each disk gets the order of the last snapshot entry of its name; disks without an entry stay |
| BootOrder.RestoreUndoesIff | pkg/kubevirt/client.go:2995-3056 | restoring a snapshot undoes any change of orders exactly if equally named disks had equal orders |
| BootOrder.RestoreUndoesOverride | pkg/kubevirt/client.go:2265-2329 | in particular it undoes the override, under the same and no weaker condition |
| BootOnceVm.Controller.SetBootOnce | pkg/kubevirt/client.go:2333-2433 | the patch prepared from the VM as read lands on whatever the VM has become; if nobody wrote it the VM has the label, the UID read, the snapshot of the order before the override (kept if that UID was on record), the override on its disks and its three annotations with their values, and every other annotation and volume as before; nothing if a call fails |
| BootOnceVm.Controller.SetBootOrder | pkg/kubevirt/client.go:2219-2263 | the new orders as computed from the VM as read, and nothing else, land on whatever the VM has become; label, snapshot, UID, annotations and volumes stay |
| BootOnceVm.Controller.RecordBootOptions | pkg/kubevirt/client.go:1416-1476 | the override annotations that a request gives, and no others, land on whatever the VM has become |
| BootOnceVm.PatchOfOwnRead | pkg/kubevirt/client.go:143-161 | on the VM it was computed from a patch gives the modified copy, the nulling of an emptied annotation map included |
| BootOnceVm.Controller.HandleVMUpdate | pkg/kubevirt/client.go:3225-3313 | a cleanup is sent exactly when another instance than the recorded one runs; it lands on whatever the VM has become, and if nobody wrote the order is restored, all boot-once state is gone, and every annotation besides the three of the override is as before |
| BootOnceOverlap.LandedNotes | pkg/kubevirt/client.go:143-161 | under overlap, what each operation's patch makes of each annotation: its own it writes or deletes as far as it found them different, every other it leaves as it is now |
| BootOnceOverlap.NullsIff | pkg/kubevirt/client.go:3271-3306 | the patches that null the annotation map instead are exactly the cleanups that read no annotations besides boot-once ones and the ejects that read only their URL |
| BootOnce.SnapshotIsTheOrderBeforeArming | pkg/kubevirt/client.go:2358-2411 | over every run of uninterrupted operations, a snapshot while present is the order just before the first arming since the last cleanup; arming never captures its own override |
| BootOnce.RecordedUidOrigin | pkg/kubevirt/client.go:2366-2396 | the recorded UID is what some arming read, with the snapshot kept ever since |
| BootOnce.CleanupFollowsANewBoot | pkg/kubevirt/client.go:3247-3313 | a cleanup happens only while an instance runs that booted after the recording, brings back the order before the first arming, and a second handler run changes nothing |
| BootOnce.HandlerCleansUpAfterBoot | pkg/kubevirt/client.go:3247-3313 | whenever another instance runs, one handler run removes all boot-once state |
| BootOnce.OrderSetWhileArmedLastsIff | pkg/server/server.go:1286-1326 | in every run: an order set while a snapshot is present leaves label and snapshot alone and survives the next cleanup exactly if it equals the saved one on every disk |
| BootOnce.ArmingLastsUntilABoot | pkg/kubevirt/client.go:2366-2396 | uninterrupted, an arming, also one after an unhandled reboot, is not lost before the next boot |
| BootOnce.SameInstanceKeepsOverrideIff | pkg/kubevirt/client.go:3059-3066 | the handler leaves a fresh arming alone exactly if the instance lookup worked or the VM was off |
| BootOnce.AddedDiskKeepsOverride | pkg/kubevirt/client.go:3038-3056 | a disk added after the snapshot comes back exactly if it already had the place that target and kind give it behind the disks of its kind |
| BootOnce.InsertedCdRomStaysBootable | pkg/kubevirt/client.go:1766-1776 | a cdrom0 added by an insert while armed stays bootable after the cleanup |
| BootOnceOverlap.ConfiguredOrderKeptIff | pkg/kubevirt/client.go:2333-2433 | over every run of overlapping armings, cleanups, order changes, inserts, ejects, edits and boots: at every moment each configured disk is there and its place is in the snapshot, or without one on the disk, exactly if no patch lands that meets its operation's condition on what it read, what it writes and what is there now; for a cleanup, and for an arming that writes its snapshot, that condition is the next state's order computed from its parts: what causes a loss is said by LosingTheOrderTakesAnOverlap and the runs of BootOnceLosses |
| BootOnceOverlap.KeptSnapshotIsTheOrderBeforeArming | pkg/kubevirt/client.go:2358-2411 | then a snapshot gives each configured disk its place just before the first arming since the last cleanup landed |
| BootOnceOverlap.OrderSetWhileArmedLastsIff | pkg/kubevirt/client.go:2219-2263 | in every run, under overlap: the place that an order change gives a disk while a snapshot is present is still there after a cleanup that keeps the configured order exactly if it is the one in the snapshot that the change met |
| BootOnceOverlap.LosingTheOrderTakesAnOverlap | pkg/kubevirt/client.go:2411-2425 | the first loss has met, between read and patch, an order change, insert or eject, or a cleanup if it read an armed VM, or any patch if it is a cleanup, or an arming if it is an eject |
| BootOnceOverlap.UninterruptedOperationsKeepTheOrder | pkg/kubevirt/client.go:2411-2425 | without overlap nothing is lost in any run of these operations |
| BootOnceOverlap.UninterruptedIsAtomic | pkg/kubevirt/client.go:143-161 | a patch of any operation that meets the VM it was computed from is the whole operation |
| BootOnceLosses.RearmDuringCleanup | pkg/kubevirt/client.go:2366-2425 | on any VM: arm, reboot, arm again with the cleanup landing in between loses label and snapshot, and the order exactly if the second override is neither the configured order nor the first override |
| BootOnceLosses.EjectDuringCleanup | pkg/kubevirt/client.go:2443-2518 | on any VM: arm, reboot, eject a disk with the cleanup landing in between loses label and snapshot, and the order exactly if the override moved another disk |
| BootOnceLosses.InsertDuringCleanup | pkg/kubevirt/client.go:1745-1837 | on any VM without the CD-ROM: arm, reboot, insert with the cleanup landing in between loses label and snapshot, and the order exactly if the override moved a disk |
| BootOnceLosses.SomeRunLosesTheOrder | pkg/kubevirt/client.go:2443-2518 | a concrete run that loses it |
| BootOnceLosses.LateArmingEndsBoth | pkg/kubevirt/client.go:2388-2396 | on any VM: an arming that read the VM while it was off and lands after one that read it running lets the next handler run remove the override without a reboot |
| BootOnceLife.LostOrderIsNeverRestored | pkg/kubevirt/client.go:3236-3306 | without further overlaps a disk's lost place stays lost in every run, through armings, cleanups, boots, inserts and ejects of other disks, until the order is set without boot-once state or the disk is ejected |
| BootOnceLife.ArmingTakesIff | pkg/kubevirt/client.go:2366-2425 | an arming's patch leaves label and snapshot exactly if it writes each of them or finds it still there |
| BootOnceLife.ArmingMatchesIff | pkg/kubevirt/client.go:2366-2396 | the UID that an arming leaves is that of the running instance exactly if its own is, or, where it found its own on record and left it alone, the one there now; if it is not, the next handler run cleans up |
| BootOnceLife.ArmingLastsIff | pkg/kubevirt/client.go:3264-3306 | until the next arming lands, label and snapshot stay exactly until a cleanup lands or an eject wipes them |
| BootOnceLife.ArmingInForceIff | pkg/kubevirt/client.go:3264-3306 | and the override's disk list with them, exactly if the last disk list written since, if any, is the same |
| BootOnceLife.OnlyStaleOperationsEndAnArming | pkg/kubevirt/client.go:3247-3262 | once an arming has landed whose recorded UID is that of the running instance, before the next boot and the next arming only operations that had read the VM before it landed can end it |
| BootOnceLife.ArmingDuringCleanupIsLost | pkg/kubevirt/client.go:3264-3306 | a cleanup computed from an earlier read takes an arming made since with it |
| BootOnceLife.WipingEjectStrands | pkg/kubevirt/client.go:2471-2518 | an eject that deletes the last annotation it read wipes the snapshot of an arming made since and leaves the label; the override stays unless the eject writes the disk list, as it read it, without its disk |
| BootOnceLife.StrandedUntilArmed | pkg/kubevirt/client.go:3236-3245 | a label without a snapshot stays so in every run until the next arming or a cleanup already under way lands: no handler run acts on it |
| VirtualMedia.Media.InsertVirtualMedia | pkg/kubevirt/client.go:1700-2014 | the state after an insert for every combination of failing calls, the patch being retried up to three times on conflicts |
| VirtualMedia.InsertPutsMedia | pkg/kubevirt/client.go:1745-2014 | a successful insert mounts the claim, records URL and label, and has made the claim with the helper pod or import source that fills it; other disks, volumes, URLs, labels and pods stay; a failed one sets no label |
| VirtualMedia.PatchedIff | pkg/kubevirt/client.go:1745-1837 | the update loop succeeds exactly if some attempt applies and all before it met conflicts |
| VirtualMedia.Media.EjectVirtualMedia | pkg/kubevirt/client.go:2436-2595 | the state after an eject for every combination of failing calls |
| VirtualMedia.EjectClearsMedia | pkg/kubevirt/client.go:2471-2544 | an applied eject leaves no disk, volume or URL of the device, no importing label unless its removal failed and not the pod it named unless its deletion failed; everything of other devices stays; a request about any image then finds none |
| ImportOwnership.EjectTakesTheseSteps | pkg/kubevirt/client.go:2533-2545 | on labels and pods an eject is the deletion of the pod its label names and the removal of the label, as far as the calls succeed; other VMs stay |
| VirtualMedia.NoImageClaimLeaks | pkg/kubevirt/client.go:1857-1875 | over every sequence of inserts and ejects with any failures, each image claim and each import source that exists belongs to the claim mounted as cdrom0, or a delete of it failed |
| VirtualMedia.InsertKeepsNoLeak | pkg/kubevirt/client.go:1741-1875 | one insert, wherever it stops, keeps that |
| VirtualMedia.EjectKeepsNoLeak | pkg/kubevirt/client.go:2449-2573 | one eject of any device keeps that, the fallback claim name included |
| VirtualMedia.EjectUndoesInsertIff | pkg/kubevirt/client.go:2471-2506 | eject after insert restores disks and volumes exactly if a template without any cdrom0 was there |
| VirtualMedia.RepeatedRequestSees | pkg/kubevirt/client.go:1645-1680 | a repeated request reads "importing" exactly if the insert succeeded, "ready" exactly if it failed behind the VM patch |
| VirtualMedia.WipedUrlReadsAsConflict | pkg/kubevirt/client.go:1645-1680 | once a boot-once cleanup has wiped the image URL, a request for any image reads as a conflict, through any failed inserts and other ejects, until an insert gets its patch through or the CD-ROM is ejected |
| ImportTags.PodNamesAreNoCdiTags | pkg/kubevirt/client.go:2927-2935 | truncation keeps the prefix: no helper pod name is a CDI tag, for any claim, time and digest |
| ImportLabels.Namespace.HandleImportPodCompleted | pkg/kubevirt/client.go:3557-3615 | a label goes exactly if it is the one of the pod's VM and device, names this pod, and both calls succeed; the pod goes exactly if its delete succeeds; all other labels, commands, pods and claims stay |
| ImportLabels.Namespace.HandleCdiPvcBound | pkg/kubevirt/client.go:3801-3838 | a label goes exactly if it is the one of the claim's VM and device, is the CDI tag of this claim, and both calls succeed; everything else stays |
| ImportLabels.Namespace.ReconcileClaims | pkg/kubevirt/client.go:3840-3863 | in any list order and with any calls failing, the sweep clears exactly the labels whose own labelled claim is bound and whose calls succeed |
| ImportLabels.Namespace.ReconcilePods | pkg/kubevirt/client.go:3641-3667 | in any list order and with any calls failing, exactly the labels that name an ended helper pod and whose calls succeed go, and exactly the ended helper pods whose delete succeeds; CDI's pods stay |
| ImportLabels.Namespace.HandleVmUpdate | pkg/kubevirt/client.go:3207-3235 | the parked command is issued and its label goes exactly if nothing is imported and the calls succeed; importing labels, other VMs, pods and claims stay |
| ImportLabels.Namespace.ReconcileVms | pkg/kubevirt/client.go:3363-3421 | the handler runs exactly once for each VM that carries either label, and for no other; after a failing first list for none, after a failing second list for the boot-once VMs only |
| ImportLabels.SweepsClearExactlyTheDone | pkg/kubevirt/client.go:3641-3667 | after both label sweeps exactly the labels of imports not finished, or with failing calls, remain, unchanged |
| ImportLabels.VmSweepIssuesOnce | pkg/kubevirt/client.go:3363-3421 | a VM sweep issues a VM's parked command once if it handles the VM and nothing is imported, and not at all otherwise |
| ImportLabels.MissedEventsAreRecovered | pkg/kubevirt/client.go:2960-2963 | whatever events were lost, one round of sweeps issues the parked command once exactly if every import waited for is done and the calls for it and for the VM succeed; otherwise it stays parked |
| ImportLabels.LabelSweepsCommute | pkg/kubevirt/client.go:3840-3863 | the claim sweep and the pod sweep give the same result in either order |
| ImportOwnership.LabelIsClearedByItsOwner | pkg/kubevirt/client.go:3551-3615 | over every run, a label is removed or replaced only by the completion of the import that set it, a newer import, an eject, or a boot-once cleanup that read a VM without other labels before the label was set |
| ImportOwnership.LabelOrigin | pkg/kubevirt/client.go:2148-2167 | every label present was set by the latest insert step of its device and has not changed since |
| ImportOwnership.PrimeClaimsClearNothing | pkg/kubevirt/client.go:3790-3838 | the binding of CDI's own claims, which carry the same labels, never clears a label |
| ImportOwnership.OrphanedLabelStays | pkg/kubevirt/client.go:3557-3615 | a label whose pod is gone outlives every completion and sweep, until an eject, a newer import or a wiping cleanup |
| ImportOwnership.LabelOrphanedIff | pkg/kubevirt/client.go:3587-3615 | a helper pod's label still in place is orphaned exactly if the pod was gone before the label was set, or was deleted by someone else, or by its own completion handler before that failed |
| DeferredPower.Machine.HandlePowerAction | pkg/server/server.go:1568-1650 | each reply with its exact condition on command, import and call outcomes: refused, accepted exactly if parked, completed exactly if issued at once with success; what is parked and what is issued |
| DeferredPower.Machine.HandlePowerAfterImport | pkg/kubevirt/client.go:3317-3359 | the undisturbed handler is read, remove, issue |
| DeferredPower.ExecutionComesFromAQuietMachine | pkg/kubevirt/client.go:3317-3359 | in every run with any number of watchers, a deferred command was read from a machine without importing labels, was then the last one written, and was removed before it was issued |
| DeferredPower.OneWatcherAlternates | pkg/kubevirt/client.go:3340-3359 | with one watcher, reads and removals of successive executions alternate and each read follows a new write |
| DeferredPower.AtMostOncePerWriteIff | pkg/kubevirt/client.go:3317-3359 | executions never exceed writes and no write is issued twice, in every run, exactly if at most one watcher serves the namespace |
| Watchers.WatcherSet.StartWatchers | pkg/server/server.go:370-379 | after a start or reload each namespace has as many watchers as chassis name it |
| Watchers.DeferredCommandsNeverRepeatIff | pkg/kubevirt/client.go:3075-3089 | no deferred command of any VM is issued twice in any run exactly if no two chassis share a namespace |
| Watchers.AcceptedConfigMayShareNamespace | pkg/config/config.go:472-481 | the validation accepts a configuration in which two do |
| CommandFate.CommandIssuedIff | pkg/kubevirt/client.go:3317-3359 | in every run with any number of watchers, a command that was parked is issued exactly if some watcher reads it with no import under way before another command replaces it and before anything clears the label, then removes the label, and then issues it |
| CommandFate.ParkedUntilClearedIff | pkg/kubevirt/client.go:2185-2203 | a command that no later one replaces stays parked exactly until a wipe or a removal clears the label |
| DeferredPower.WriteBetweenReadAndRemovalIsLost | pkg/server/server.go:1594-1606 | a write between read and removal is never issued |
| DeferredPower.WipedCommandIsNeverIssued | pkg/kubevirt/client.go:3271-3306 | in every run with any number of watchers, a command whose label a cleanup wipes while no handler is at work is never issued |
| DeferredPower.UninterruptedHandlerIsAtomic | pkg/kubevirt/client.go:3317-3359 | without interleaving the three steps are the one step that the sweeps are stated with |
| JsonMergePatch.MergedIsMergePatchIff | pkg/kubevirt/mock_dynamic_client.go:415-453 | the mock's merge is MergePatch of section 2 of RFC 7396 exactly if no object placed over a non-object holds a null |
| JsonMergePatch.MergedIdempotentIff | pkg/kubevirt/mock_dynamic_client.go:415-453 | merging twice equals merging once under the same and no weaker condition |
| JsonMergePatch.DiffRoundTripIff | pkg/kubevirt/client.go:143-161 | a computed patch applied to its own snapshot gives the modified object exactly for changes that add no null |
| JsonMergePatch.PatchActsOnItsPaths | pkg/kubevirt/client.go:143-161 | any patch over any object: untouched paths keep the object's value, written paths get the patch's |
| JsonMergePatch.StalePatchRevertsNothing | pkg/kubevirt/client.go:3222-3306 | a patch computed from a stale snapshot sets what the modification changed and keeps the newer value of all the snapshot had and the modification left |
| JsonMergePatch.NewEntrySurvivesIff | pkg/kubevirt/client.go:3271-3306 | a label or annotation added meanwhile survives the removal of others exactly if the snapshot had entries besides the removed ones |
| JsonPointer.TwoPassesDecode | pkg/kubevirt/mock_dynamic_client.go:478-500 | the two replacements, in the code's order, decode every segment as the single pass of section 4 of RFC 6901 does |
| JsonPointer.OrderOfPassesMattersIff | pkg/kubevirt/mock_dynamic_client.go:478-500 | in the other order exactly the segments that hold a tilde-one would be misread |
| JsonPointer.ParsePath | pkg/kubevirt/mock_dynamic_client.go:478-500 | the loop decodes each segment between slashes |
| JsonPointer.ParsePrint | pkg/kubevirt/mock_dynamic_client.go:478-500 | any non-empty list of segments is read back from its printed pointer |
| JsonPointer.SetLaws | pkg/kubevirt/mock_dynamic_client.go:503-523 | a set value is read back with all below it; apart paths keep their values; intermediates become objects |
| JsonPointer.RemoveLaws | pkg/kubevirt/mock_dynamic_client.go:526-544 | a removed path is absent with all below it; apart paths keep their values; removing an absent path changes nothing |
| MockObjects.Node.Merge | pkg/kubevirt/mock_dynamic_client.go:419-438 | the in-place merge, keys in any order, leaves the tree with the merged value and shares nothing with the patch |
| MockObjects.Node.CopyOf | pkg/kubevirt/mock_dynamic_client.go:441-453 | the copy has the same value and only new maps |
| MockObjects.Node.SetNested | pkg/kubevirt/mock_dynamic_client.go:503-523 | the in-place set has the value the laws are about; siblings and their maps are untouched |
| MockObjects.Node.RemoveNested | pkg/kubevirt/mock_dynamic_client.go:526-544 | the same for the in-place removal |
| MockObjects.Node.ApplyPatchOp | pkg/kubevirt/mock_dynamic_client.go:478-500 | add and replace set, remove removes, at the decoded path; other operations do nothing |
| PriorityQueues.PriorityQueue.Push | pkg/server/task_manager.go:122-134 | one pass of swaps puts the job behind all of at least its priority and ahead of the rest |
| PriorityQueues.PriorityQueue.Pop | pkg/server/task_manager.go:137-148 | the front job leaves, or nothing happens on an empty queue |
| PriorityQueues.InsertedKeepsSortedPermutation | pkg/server/task_manager.go:122-134 | pushing keeps the queue sorted and adds exactly the job |
| PriorityQueues.QueueRefinesStablePriority | pkg/server/task_manager.go:115-148 | every run of pushes and pops hands out the earliest job of the highest priority |
| PriorityQueues.PutBackStaysAmongEquals | pkg/server/task_manager.go:486-495 | a job put back moves behind the jobs of its own priority and no further |
| TaskTable.TaskManager.UpdateTaskState | pkg/server/task_manager.go:592-624 | the task's state, its end time on terminal states, and the one count that rises |
| TaskTable.TaskManager.UpdateStats | pkg/server/task_manager.go:655-669 | the counts and the average, given a positive divisor |
| TaskTable.TaskManager.CleanupOldTasks | pkg/server/task_manager.go:700-716 | exactly the tasks that ended longer ago than the age go |
| TaskTable.GetAvailableWorker | pkg/server/task_manager.go:502-513 | the first worker with room in its channel |
| TaskEngine.Engine.CreateTask | pkg/server/task_manager.go:516-580 | without interleaving the creation is the protocol's four creation steps, whatever ID the clock gives |
| TaskEngine.Engine.Dispatch | pkg/server/task_manager.go:457-499 | one round of the dispatcher is its pop, choice and send steps, or the put-back |
| TaskEngine.Engine.Send | pkg/server/task_manager.go:479-489 | the non-blocking send appends the job to the channel if that has room and puts it back if not |
| TaskEngine.Engine.GetStats | pkg/server/task_manager.go:679-697 | without interleaving the report holds the counts of the statistics, the number of tasks kept and the length of the queue |
| TaskEngine.Engine.ProcessJob | pkg/server/task_manager.go:213-288 | one job processed is the worker's five steps; on a task on record: success completes it, a failure with retries left leaves it running and starts a timer for the next attempt, the last failure fails it, each with the counts it raises |
| TaskEngine.Engine.FireTimer | pkg/server/task_manager.go:262-274 | a retry timer moves its job back to the queue |
| TaskProtocol.JobsConserved | pkg/server/task_manager.go:213-288 | any measure summed over all jobs changes only by creation, retry and resolution: no step duplicates or drops a job |
| TaskProtocol.EachUnfinishedTaskHasOneJob | pkg/server/task_manager.go:457-580 | in every run an unfinished task has exactly one job among queue, dispatcher, channels, workers and timers, any other none; end times are set exactly on ended tasks |
| TaskProtocol.TerminalIsForever | pkg/server/task_manager.go:592-652 | a completed or failed task never changes again, although no guard protects it |
| TaskProtocol.CleanupSparesLiveTasks | pkg/server/task_manager.go:700-716 | the cleanup never drops a task that still has a job |
| TaskProtocol.EachTaskHasAtMostFourAttempts | pkg/server/task_manager.go:258-288 | in every run, for each single task: attempts resolved and attempts left make four while it is not ended, a failed task has had exactly four, a completed one at least one, and none ever more than four |
| TaskProtocol.StateFollowsOutcomes | pkg/server/task_manager.go:213-288 | in every run a task is completed exactly if its last resolved attempt succeeded, failed exactly if four attempts were resolved and the last of them failed, and pending exactly if no worker has run it |
| TaskProtocol.CountsFollowOutcomes | pkg/server/task_manager.go:655-669 | in every run the completed count is that of creations, successful attempts and completed tasks, the failed count that of failed attempts and failed tasks |
| TaskProtocol.JobsAreAsCreated | pkg/server/task_manager.go:258-274 | in every run each job has the priority and the retry limit of its creation |
| TaskProtocol.AttemptsAreBounded | pkg/server/task_manager.go:258-288 | the termination measure: attempts left, summed over all jobs, fall with each resolution and rise only with a creation, so that attempts never exceed four times the creations |
| TaskProtocol.AverageNeverDividesByZero | pkg/server/task_manager.go:568-572 | in every interleaving a count exists before a worker records a duration |
| TaskProtocol.PickedWorkerHasRoom | pkg/server/task_manager.go:457-513 | the channel the dispatcher picked still has room when it sends |
| TaskProtocol.ReportedStatistics | pkg/server/task_manager.go:679-697 | with counts, tasks and queue read in three states of a run: no created tasks; completed and failed each count what raises them, together creations, attempts and ended tasks; the active count is unfinished plus kept ended tasks; the queue size is all jobs created or requeued and neither sent nor in hand |
| TaskProtocol.QueueCounterDriftsIff | pkg/server/task_manager.go:672-676 | the queue size counter, which nothing reads, agrees with the queue exactly if no retry was queued |
| TaskProtocol.CollidingIdIff | pkg/server/task_manager.go:516-580 | in every reachable state, a creation leaves one job per unfinished task exactly if its clock reading is not the ID of an unfinished task |
| ResponseCache.Cache.Get | pkg/server/cache.go:88-113 | uninterrupted, a hit is unexpired and what the latest Set of the key stored, with no matching invalidation since; an expired entry goes |
| ResponseCache.Cache.LookUp | pkg/server/cache.go:89-112 | under the read lock: the same hit, and an expired entry is reported and left in place |
| ResponseCache.Cache.Delete | pkg/server/cache.go:98-106 | under the write lock, after any other calls: what is stored under the key by then goes, expired or not, and hits stay right |
| ResponseCache.Cache.Set | pkg/server/cache.go:116-144 | the entry is stored, other entries stay or were least recently used, the limit holds |
| ResponseCache.Cache.Invalidate | pkg/server/cache.go:147-162 | exactly the entries whose key contains the pattern go |
| ResponseCache.Cache.CleanupExpired | pkg/server/cache.go:195-212 | exactly the expired entries go |
| ResponseCache.LatestIsTheLastPut | pkg/server/cache.go:88-162 | the history function that hits agree with is the last Set neither replaced nor invalidated |
| ResponseCache.HashedKeysEscapeIff | pkg/server/cache.go:80-85 | an invalidation removes nothing from any table of 64-digit keys exactly if its pattern is not a hex string of at most 64 digits |
| Eviction.EvictOldest | pkg/server/cache.go:165-180 | for any order of visits the victim is a least recently used key, whenever a non-empty key is one |
| Eviction.ScanFindsOldestIff | pkg/server/advanced_cache.go:481-532 | the scan ends with a non-empty least recently used key in every order exactly if there is such a key |
| Eviction.NoCandidateMeansEmptyOldest | pkg/server/advanced_cache.go:481-496 | there is none exactly if the empty key is strictly the least recently used, and then some order evicts nothing |
| AdvancedCaching.AdvancedCache.Get | pkg/server/advanced_cache.go:207-250 | uninterrupted, a hit comes from some Set of that key, is unexpired and not invalidated since; the first tier with a fresh copy answers; promotion thresholds and tiers afterwards |
| AdvancedCaching.AdvancedCache.Set | pkg/server/advanced_cache.go:253-297 | the policy's tier stores the entry after making room; other tiers stay |
| AdvancedCaching.AdvancedCache.Invalidate | pkg/server/advanced_cache.go:300-400 | uninterrupted, in each tier exactly the entries with a named tag or a matching key go |
| AdvancedCaching.InvalidationLeaves | pkg/server/advanced_cache.go:324-400 | what an invalidation leaves in a tier: exactly the entries that carry none of the tags and match none of the patterns, unchanged |
| AdvancedCaching.AdvancedCache.CleanupExpired | pkg/server/advanced_cache.go:712-753 | in each tier exactly the expired entries go |
| AdvancedCaching.CleanupLeaves | pkg/server/advanced_cache.go:712-753 | what it leaves in a tier: exactly the entries not past their expiry, unchanged |
| AdvancedCaching.AdvancedCache.PromoteToL1 | pkg/server/advanced_cache.go:403-421 | the entry moves up, one least recently used entry leaving a full tier |
| CacheRuns.CleanUnlessOvertaken | pkg/server/advanced_cache.go:207-250 | over every path of Sets, lookups tier by tier, promotions, evictions and purges, no tier ever holds an entry that has slipped through an invalidation exactly if no promotion stores its entry in a tier after the last purge there by an invalidation that hits it and was started after its Set |
| CacheRuns.HitsAreBacked | pkg/server/advanced_cache.go:207-250 | in a run without such a promotion no hit returns what a finished invalidation, started after its Set, should have removed |
| CacheRuns.PromotionServesInvalidatedIff | pkg/server/advanced_cache.go:403-442 | a promotion lets an invalidated entry be handed out later, without any further promotion, exactly if it is such a promotion; the lookup that hands it out passes each tier above without finding the key |
| CacheRuns.PromotionBetweenPurges | pkg/server/advanced_cache.go:207-250 | nine lookups of an entry of L2, and the tenth with its promotion between two purges of one invalidation, end in such a hit |
| CacheRuns.EntriesComeFromSets | pkg/server/advanced_cache.go:253-297 | every entry held was stored by a Set of its key |
| CacheRuns.UninterruptedInvalidation | pkg/server/advanced_cache.go:300-317 | without interleaving, the purges leave in each tier what the atomic invalidation leaves |
| SystemNaming.ValidateConfig | pkg/config/config.go:248-296 | accepted exactly if every chassis, user and convention check and both uniqueness checks pass |
| SystemNaming.ValidateUnique | pkg/config/config.go:472-493 | the map of names seen finds a duplicate exactly if there is one |
| SystemNaming.IsValidNamespace | pkg/config/config.go:508-518 | 1 to 63 characters, all lower-case letters, digits or hyphens, so never a dot |
| SystemNaming.ListVMsWithSelector | pkg/kubevirt/client.go:441-506 | exactly the selected VMs, in order |
| SystemNaming.SystemsCollection | pkg/server/server.go:719-741 | the IDs of all listed VMs of the user's chassis, skipping those whose listing failed |
| SystemNaming.EveryListedVmIsAMember | pkg/server/server.go:723-741 | completeness and order: each VM that the selector of a configured chassis of the user lists, unless that listing failed, has its ID right behind those of the earlier chassis and the earlier listed VMs |
| SystemNaming.MembersCounted | pkg/server/server.go:723-741 | and there are no other members |
| SystemNaming.IdsByConvention | pkg/config/config.go:460-469 | namespace, dot and name under "enhanced", the name alone otherwise |
| SystemNaming.ResolveSystem | pkg/server/server.go:2085-2139 | the loop finds what the specification's lookup finds among the chassis whose VM lookup is answered; no user, no system |
| SystemNaming.ResolvedAmongAnswering | pkg/server/server.go:2097-2139 | failing lookups are passed over: no system is found exactly if no chassis whose lookup is answered admits the VM |
| SystemNaming.ResolvesToFirstAdmitting | pkg/server/server.go:2097-2139 | the lookup takes the first of the user's chassis that admits the VM and fails exactly if none does |
| SystemNaming.SelectorsAgreeIff | pkg/kubevirt/client.go:554-582 | the lookup accepts all the listing selects, and more exactly for missing labels wanted empty: it reads a VM as if it carried those with empty values |
| SystemNaming.EnhancedIdsResolveExactly | pkg/config/config.go:460-469 | under "enhanced" every listed ID resolves to its own namespace and VM, dots in the name included |
| SystemNaming.LegacyIdsResolveIff | pkg/server/server.go:2145-2156 | under "legacy" a listed ID resolves to a VM of that name exactly if it has no dot |
| SystemNaming.ResolvedIsAccessible | pkg/server/server.go:2097-2139 | whatever resolves lies in one of the user's chassis and matches its selector |
| LoginLimiter.RateLimiter.Authenticate | pkg/auth/enhanced_middleware.go:135-271 | the limiter calls in their order, none for the open service root: decision, and table after the update, which meets whatever others have made of it since the check and reads the clock again |
| LoginLimiter.RateLimiter.IsRateLimited | pkg/auth/enhanced_middleware.go:412-440 | blocked exactly within a block; counters reset after a quiet window |
| LoginLimiter.RateLimiter.UpdateRateLimit | pkg/auth/enhanced_middleware.go:448-481 | a success forgives the failures and leaves a block as it is; a failure counts one more and starts a block exactly if that reaches the limit; other clients stay |
| LoginLimiter.RateLimiter.CleanupRateLimits | pkg/auth/enhanced_middleware.go:485-499 | exactly the entries quiet for a window and no longer blocked go |
| LoginLimiter.CleanupIsInvisible | pkg/auth/enhanced_middleware.go:412-499 | for any timed sequence of requests whose check and update nothing interrupts, the decisions with the cleanup equal those without it |
| LoginOverlap.TablesAgreeIff | pkg/auth/enhanced_middleware.go:171-217 | over every run with checks and updates apart: the table with the cleanup and one without say the same at every moment exactly if no failed update comes after the cleanup of another request has deleted its client's failures, with nothing of the client in between |
| LoginOverlap.CheckedBefore | pkg/auth/enhanced_middleware.go:171-217 | the request behind such an update was checked before that deletion |
| LoginOverlap.DecidedAlikeUnlessForgotten | pkg/auth/enhanced_middleware.go:412-440 | up to the first such update every request is decided as if nothing were ever deleted |
| LoginOverlap.FirstFailureForgotten | pkg/auth/enhanced_middleware.go:412-481 | a run, for any window, in which another client's request between check and update costs a client a failure |
| LoginOverlap.CleanupVisibleIff | pkg/auth/enhanced_middleware.go:412-499 | some run decides a request differently than without the cleanup exactly if a block takes at least two failures and has a positive duration |
| LoginOverlap.BlockLasts | pkg/auth/enhanced_middleware.go:448-481 | in every run a block refuses every request of the client until it ends, whatever others send and whatever is still under way for the client |
| LoginOverlap.RefusedIff | pkg/auth/enhanced_middleware.go:412-481 | in every run a request is refused exactly if, less than the block duration ago, an update of its client failed that was at least the limit-th failure since the client's last success and since its failures were last forgotten |
| LoginOverlap.FailuresAreTheStreak | pkg/auth/enhanced_middleware.go:412-481 | in every run the failures on record are those since the client's last success and since a check last found it quiet and forgot them |
| LoginOverlap.FailuresCountUntilBlocked | pkg/auth/enhanced_middleware.go:448-481 | in every run, failures of a client that was not on record, each within the window of the one before, all count, whatever requests of anyone come in between; the one that reaches the limit, and each after it, starts the block |
| LoginOverlap.UninterruptedRequestIsAtomic | pkg/auth/enhanced_middleware.go:171-217 | a check followed at once by its update is the uninterrupted request |

## Left out

- SetNested: the walk down the path is a loop over a cursor in the code and a recursion here, because the tree
  invariant of every map on the path has to be re-established on the way back, and the value is stored as new
  maps where the code stores the decoded value itself; RemoveNested the same for the walk.
- MergedIsMergePatchIff: arrays are values, so sharing of array elements between patch and object is not captured.
- DiffRoundTripIff: the patch library is modelled by the contract of its CreateMergePatch, not by its code.
- InsertVirtualMedia: the reuse or re-creation of a claim that exists already, which a fresh name rules out, and the
  storage profile that chooses between helper pod and CDI; the choice and the outcome of each call are parameters.
- ConfiguredOrderKeptIff: a disk inserted while a snapshot is present has no configured place; AddedDiskKeepsOverride
  says what becomes of it. Edits by other clients keep the disks and change their orders or the volumes.
- ReconcilePods: a failing list call, after which the sweep does nothing, is not modelled; ReconcileClaims the same.
- ReportedStatistics: average times and progress are not part of the state machine, only of UpdateStats.
- AverageNeverDividesByZero: Stop, which drops jobs, and the order in which GetStats takes its locks are not modelled.
- AdvancedCache.Get: compression, size and hit counters are left out.
- CleanUnlessOvertaken: capacities, access counts and expiry times do not occur in these runs; an eviction or expiry may
  come at any time, and a lookup may promote or not.
- ValidateConfig: server, KubeVirt and DataVolume settings are checked separately from names and not modelled.
- PodNamesAreNoCdiTags: the digest is any five characters; that different names get different digests is not claimed.
- SetVMPowerState and the power state of the VM itself: a command issued is an entry in a log.
- Watch connections, reconnection, backoff, JSON and YAML encoding, TLS, ISO download and HTTP responses.
- TokenBucket, circuit breaker, retry mechanism, memory and connection pools, memory monitor, response optimizer
  and the Redfish field validators.
- A helper pod name taken twice within one second, and VM names long enough to truncate claim names.
