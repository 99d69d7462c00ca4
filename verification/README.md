# Local volumes: capacity, lifecycle and controller, modelled in Dafny

The system gives Kubernetes pods volumes carved from one LVM volume group per node. Four programs
share that group and one `LocalVolume` status record per node, and none of them holds a lock:

- the scheduler extender admits a pod if its request fits the recorded free size minus the
  reservations, and then writes the pod's reservations into the record;
- the node driver carves, formats, mounts and tags the volume when the pod starts;
- the agent refreshes the recorded sizes and drops the reservations whose volumes are bound;
- the garbage collector removes the logical volume and then its finalizer.

This project models that protocol, and the worker loop that drives agent and collector, as state
machines over their steps, and proves what holds in every run. The loops of the programs are methods
proved against specification functions; the machines are built from the same functions.

| module | what it holds |
|---|---|
| `Wrappers`, `Sums` | options and results; sums over finite maps |
| `Keys` | claim keys and their codec |
| `Rounding` | the float64 ceiling, the driver's floor, extents, the agent's floor |
| `Scheduler`, `FilterScore` | request, reservations and free size; filter and scores |
| `Volumes`, `Routing` | volumes of a node; from a volume event to a queue key to a reconcile |
| `Queues`, `WorkQueue`, `Controller` | client-go's queue as a value and as an object; N workers on it |
| `LocalVolumes`, `Ledger` | the record, bind and reconcile; concurrent writers with stale copies |
| `Reservation`, `Interleaving` | capacity runs with atomic steps; the same with callers at their own pace |
| `AsWritten`, `Overcommit`, `Races` | the bind loop as written; runs with atomic steps, and interleavings, that fail |
| `Quiescence`, `Rest` | how a carve reaches the record; that a node left alone comes to rest |
| `Devices`, `Driver`, `Lifecycle` | file system detection; publish, unpublish, collect; a volume's whole life |

## Main results

1. **Reservation safety** (`Interleaving.InterleavedSafety`, with atomic steps
   `Reservation.ReservationSafety`). If binds insert the claim keys, then in every run the reserved
   sizes are at most the recorded free size, the scheduler's uint64 subtraction never wraps around,
   and all volumes still due to admitted claims fit the real free space together, in bytes and after
   rounding up to extents. A bind may write any time after its filter, and the agent measures, lists
   from a cache and writes at three different moments.
2. **Exactly when each step is safe** (`Reservation.StepIsSafeExactlyWhenAssumed`,
   `Interleaving.StepIsSafeExactlyWhenAssumed`). Result 1 assumes a condition of each step, which the
   code does not check, and every step keeps the invariant if and only if it meets its condition: a bind,
   if there is room when it writes; a sync, measured and listed whenever, if it lands well; deleting a
   claim, and using a name in the ledger again, if the recorded free size allows it, now and once a
   pending write has landed. For each there is a run in which that one step breaks its condition and
   the node is overcommitted or the subtraction wraps around (`Overcommit`, `Races`).
3. **The bind loop as written** reserves nothing (`AsWritten.AsWrittenExactly`,
   `InterleavedAsWrittenExactly`). No state of a run is overcommitted if and only if, at every bind, what
   it adds fits the free space beside what is due already; nothing in the code sees to that, and a run
   that meets every assumption of result 1 overcommits (`Overcommit.AsWrittenOvercommits`).
4. **Optimistic concurrency** (`Ledger`). With caches that hold any past record, an accepted write acts
   on the record as stored, a reservation stays until an accepted agent write whose own list showed its
   claim bound on this node, and a pod is bound only by a call whose own write stored its keys.
5. **Quiescent agreement** (`Quiescence.QuiescentAgreement`). Whenever a node comes to rest, the
   recorded free size is the group's, if the group could be read since a worker last started on the
   node's key. The agent machine is proved to refine the controller machine.
6. **A node comes to rest** (`Rest.NodeComesToRest`, `RestFollowsEveryRun`). Left alone, with a cache that
   has caught up whenever the record is copied, it goes through at most a computed number of events,
   in any order, and at rest the record is right. With a cache that stays behind, a worker can go round
   for ever (`Rest.StaleCacheSpins`).
7. **Controller** (`Controller.NoLostWakeup`, `NeverHeldTwice`, `ShutdownDrains`). For any number of
   workers and every interleaving; after stop the number of worker events left is exact, so `Run`
   returns, and each dirty key is started on exactly once more.
8. **Data survival** (`Lifecycle.DataSurvives`, `RemovedOnlyAfterRelease`, `FinalizerGuardsVolume`).
   Publishes die anywhere, also inside mkfs, the policy changes, and the collector works on stale copies;
   still a published volume is never created or formatted again, and it goes only after it was stored as
   released with the policy to delete. It may go against the policy of the moment: exactly when
   the policy was changed since, and not changed back.
9. **Crash and retry** (`Driver.PublishRetriesConverge`, `Driver.RetryConvergesExactly`). Publishing again
   after any number of attempts that die, at a stage or inside mkfs, ends as one uninterrupted publish
   would if and only if every format that died left a device that is taken for blank or is whole. For a
   first publish it also takes, from the creation on, a capacity for which the size comparison is
   right. What a dying format leaves is not in the code's hands: a volume can get stuck for ever
   (`Lifecycle.HalfFormatGetsStuck`, `StuckForEver`) or be taken over half made (`Driver.HalfFormatRetry`).
10. **Conservation over a volume's life** (`Driver.PublishKeepsSpace`, `CollectExactly`,
   `PublishThenCollect`). No publish, however far it gets, and no collection loses or makes a byte of the
   group or touches what is not theirs on the object; a new volume that is published, released and
   collected leaves no trace. A volume that grew is published if and only if the growth fits
   (`GrownVolumeIsPublishedExactlyWhenItFits`).
11. **Float ceiling** (`Rounding.FloatCeilingBound`). The float64 computation gives the exact ceiling or
   one less, and exactly when which.

## Assumptions

- The work queue keeps the contract of client-go v0.17.0: a FIFO, a dirty set, a processing set, a set
  of keys that wait for a delay; `Add` is ignored after shutdown and `Get` reports shutdown only when
  the FIFO is empty. `Queues` states it, `WorkQueue` shows the class that meets it.
- The API server accepts a status update only at the version it was read at, and a deep copy carries
  the version. Informers deliver events and move forward.
- Names hold no slash, and claim names are not empty. Sizes are int64, and a pod has fewer than 2^31
  volumes.
- Capacity runs: the conditions of `Reservation.Assumed` and `Interleaving.Assumed`, proved exact for every
  step; only volumes of admitted claims are carved; volumes do not expand.
- Group sizes are counted in MiB. Volumes are linear, on extents of 4 MiB.
- Lifecycle runs: a volume's publishes happen one at a time and are over before its release, phases do
  not go back, and others leave the collector's finalizer alone. The reclaim policy changes freely.
- Quiescence runs: whoever changes the group writes the volume object afterwards. A carve happens only
  for a volume without the annotation (`Lifecycle.CarvedOnlyUntagged`), so the tag is still to be
  written; a collection ends in an update of the finalizers.
- A mkfs that succeeds leaves a device that `file` does not call plain data and whose first type in
  `blkid`'s output is the one made. `lvextend` refuses a size that is not larger.
- Foreign calls (commands, API calls, random draws) are parameters or events with any outcome.

## Where the code differs from what it is for

- `bind` ranges over the values of the map of claim names, which are all empty
  (`pkg/scheduler/bind.go:55-57`, `pkg/scheduler/utils.go:62`): it records the key `""`, which names no
  claim. `Ledger.AsWrittenLedger`, `AsWritten` and `Overcommit.AsWrittenOvercommits` are about this loop,
  everything else about any inserted keys or about the claim keys that the readers expect; the member
  says which.
- The agent drops a reservation when the volume is bound, but the driver carves it later
  (`pkg/agent/agent_reconciler.go:89-95`, `119`): `Reservation.SyncIsSafeExactlyWhenCarved`,
  `Overcommit.SyncBeforeCarveOvercommits`. It measures first and lists second, from a cache (`68`, `89`):
  `Reservation.OldMeasurementIsSafeExactlyWhen`, `Races.MeasuredBeforeCarveListedAfter`,
  `Races.ListedBeforeBindMeasuredAfter`.
- A bind re-reads the record and does not repeat the filter: `Reservation.BindIsSafeExactlyWhenRoom`,
  `Races.FilterBeforeBothBindsWraps`.
- A failed pod binding leaves the reservations (`pkg/scheduler/bind.go:27-31`): accounting is one-sided.
- `vgs` is asked for SI megabytes, and the number is divided by 1024 as if it were MiB
  (`pkg/common/lvm/exec.go:18`): from 21 recorded units on the record always claims more than there is
  (`Rounding.SIReportFits`).
- Resize compares the number of `lvdisplay` without its unit (`pkg/driver/nodeserver.go:359-376`):
  publishing a volume again fails from one TiB on and from 1021 MiB to one GiB
  (`Driver.RepublishSucceedsExactly`).
- A group that cannot be read ends the reconcile without an error, so nothing is requeued
  (`Quiescence.UnreadableGroupIsNotRetried`). A failed `lvremove` is dropped the same way
  (`pkg/agent/gc_reconciler.go:68-78`): a collection converges when it happens again, but no retry is
  promised.
- The collector decides on a cached copy and removes the device before any version is compared, so a
  policy changed to Retain in between does not save the volume (`Lifecycle.RetainIgnored`).
- A publish after the collection finds the annotation and adds no finalizer, so its volume is never
  collected (`Lifecycle.LatePublishIsUnguardedExactlyWhen`).
- A format that dies leaves a device nobody looks after: if `blkid`'s output does not parse, every later
  publish fails in the check (`pkg/driver/nodeserver.go:148-151`), and if it names a type already, the
  next publish mounts a file system that was never finished (`Driver.HalfFormatRetry`,
  `Lifecycle.HalfFormatGetsStuck`).
- The scheduler dereferences the storage class of a claim that has none (`pkg/scheduler/utils.go:25`,
  `56`): filter, scores and bind panic exactly for pods that name such a claim (`Scheduler.Panics`).
- The filter never reports failed nodes, since `predicate` returns no error
  (`pkg/scheduler/predicate.go:40-56`). When `IsMounted` fails on an existing target, publish
  dereferences a nil error (`pkg/driver/nodeserver.go:144`), here one of the points where it dies.

## Model

| member | source | states |
|---|---|---|
| `Interleaving.InterleavedSafety` | pkg/scheduler/utils.go:69-91 | in every run with late binds, pods filtered on any record, old measurements and cached lists, reservations fit the recorded free size, the subtraction does not wrap, and all volumes still due fit the real free space together |
| `Interleaving.StepIsSafeExactlyWhenAssumed` | pkg/scheduler/bind.go:39-63 | every step keeps the invariant of stored state and pending write if and only if it meets its condition |
| `Interleaving.PendingBindIsSafeExactlyWhenSpared` | pkg/scheduler/bind.go:55-60 | a bind that adds no key leaves a pending agent write safe if and only if that write prunes none of its claims before it is carved |
| `Interleaving.ListLandsExactly` | pkg/agent/agent_reconciler.go:68-95 | for a measurement at one step and a list at a later one, a list with every carved reserved claim, as the present one is, gives a safe write if and only if every admitted claim on it is carved and the group is still as free as measured, in whole GiB |
| `Interleaving.VerdictLasts` | pkg/scheduler/predicate.go:40-56 | a pod that passed the filter has room at every later moment at which the record has the same version, unless a claim it names was created or a ledger name used again |
| `Interleaving.PendingWriteCommutes` | pkg/agent/agent_reconciler.go:65-103 | every step that leaves the record alone can happen before or after a pending agent write, with the same result |
| `Interleaving.MeasureKeepsInv` | pkg/agent/agent_reconciler.go:68-82 | whenever the agent measures, what is reserved and not carved fits the measurement |
| `Interleaving.RunKeepsInv` | pkg/scheduler/bind.go:39-63 | the invariant of stored state and pending write holds in every reachable state |
| `Reservation.ReservationSafety` | pkg/scheduler/utils.go:69-91 | the same safety for runs of atomic schedule, sync, carve, bind, delete and collect steps |
| `Reservation.SyncIsSafeExactlyWhenCarved` | pkg/agent/agent_reconciler.go:74-103 | an atomic sync keeps the invariant if and only if the bound volume of every admitted claim is carved |
| `Reservation.WriteIsSafeExactlyWhenItLands` | pkg/agent/agent_reconciler.go:65-103 | a write from any measurement and any list keeps the invariant if and only if it prunes nothing uncarved, what stays reserved fits the measurement, and the measurement is backed |
| `Reservation.OldMeasurementIsSafeExactlyWhen` | pkg/agent/agent_reconciler.go:68-95 | an old measurement with the present list is safe if and only if admitted bound claims are carved, the rest fits it, and the group is still as free in whole GiB |
| `Reservation.BindIsSafeExactlyWhenRoom` | pkg/scheduler/bind.go:46-60 | a bind on any record leaves a safe node if and only if the pod's keys and the present reservations fit the recorded free size |
| `Reservation.DeleteIsSafeExactlyWhenSpare` | pkg/scheduler/utils.go:78-81 | deleting a claim keeps the invariant if and only if the recorded free size can do without the volume carved for its lingering key |
| `Reservation.CreateIsSafeExactlyWhenCovered` | pkg/scheduler/utils.go:76-88 | creating a claim keeps the invariant if and only if what its name reserves already is covered |
| `Reservation.StepIsSafeExactlyWhenAssumed` | pkg/agent/agent_reconciler.go:74-103 | every atomic step of the protocol keeps links, backing and cover if and only if it meets its condition |
| `Reservation.UncarvedFits` | pkg/scheduler/utils.go:75-90 | reservations without a carved volume fit the real free bytes together |
| `Reservation.ScheduleReserves` | pkg/scheduler/predicate.go:48-54 | a pod that passes the filter has room for all its keys beside the present reservations |
| `Reservation.CarveKeepsBacked` | pkg/driver/nodeserver.go:319-354 | a carve moves space from free to carved-and-still-reserved, so the recorded free size stays backed |
| `Reservation.DueFits` | pkg/driver/nodeserver.go:319-354 | what all admitted claims still have to get fits the group |
| `AsWritten.AsWrittenExactly` | pkg/scheduler/bind.go:55-57 | as written, for binds at any time and any recorded status: no state so far is overcommitted if and only if at every bind what it adds fits the free space beside what is due |
| `AsWritten.InterleavedAsWrittenExactly` | pkg/scheduler/bind.go:39-63 | the same for the runs in which filter, bind, measuring, listing and writing are steps of their own |
| `AsWritten.BindAddsToDue` | pkg/scheduler/bind.go:20-31 | a bind adds to what is due exactly the pod's claims that are neither admitted nor carved |
| `AsWritten.AsWrittenSafety` | pkg/scheduler/bind.go:55-57 | for instance, if at every admission all admitted claims were carved and the recorded free size was there; and then nothing wraps |
| `Overcommit.AsWrittenOvercommits` | pkg/scheduler/bind.go:55-57 | as written, a run that meets every assumption admits two pods that each need the whole node |
| `Overcommit.SyncBeforeCarveOvercommits` | pkg/agent/agent_reconciler.go:119-120 | with claim keys, a run in which only a sync between bind and carve breaks its condition ends overcommitted |
| `Overcommit.DeleteWhileKeyLingersOvercommits` | pkg/scheduler/utils.go:78-81 | a run in which only deleting a carved claim whose key lingers breaks its condition ends overcommitted |
| `Overcommit.NameUsedAgainWraps` | pkg/scheduler/utils.go:76-90 | a run in which only a claim created under a name in the ledger breaks its condition takes the subtraction to 2^64 - 10 |
| `Races.FilterBeforeBothBindsWraps` | pkg/scheduler/utils.go:90 | a run in which two pods are filtered before either is bound takes the subtraction to 2^64 - 10; only the second bind breaks its condition |
| `Races.MeasuredBeforeCarveListedAfter` | pkg/agent/agent_reconciler.go:68-95 | a run with a carve between measuring and listing ends overcommitted; only the list breaks its condition |
| `Races.ListedBeforeBindMeasuredAfter` | pkg/agent/agent_reconciler.go:82-95 | a run with an old list and a new measurement takes the subtraction to 2^64 - 10; only the list breaks its condition |
| `Ledger.AcceptedWriteIsAtomic` | pkg/scheduler/bind.go:46-60 | an accepted write was computed from exactly the record that is stored at that moment |
| `Ledger.RunKeepsInv` | pkg/scheduler/bind.go:46-60 | versions identify records in every run, whatever caches hold |
| `Ledger.KeyStaysUntilPruned` | pkg/agent/agent_reconciler.go:51-103 | for any inserted keys, a stored key stays until an accepted agent write, and the read of that very sync listed a volume bound on this node to its claim |
| `Ledger.PruningIsComplete` | pkg/agent/agent_reconciler.go:89-103 | after an accepted agent write exactly those reservations are left that no volume of the sync's own list shows bound on this node |
| `Ledger.PodBoundAfterReservation` | pkg/scheduler/bind.go:10-37 | a pod is bound only in a step of a call that stored all of its own keys before, in its own accepted write |
| `Ledger.BindsForGood` | pkg/scheduler/bind.go:27-31 | a successful bind binds its pod, for the rest of the run |
| `Ledger.BindAndSync` | pkg/agent/agent_reconciler.go:97-103 | a run with a bind, a sync that conflicts with it, the pod bound, and a sync that prunes the key |
| `Ledger.AsWrittenLedger` | pkg/scheduler/bind.go:52-57 | as written, the ledger stays within the empty key, which is never removed, and the free size is always the recorded one, without wrap-around |
| `LocalVolumes.Bind` | pkg/scheduler/bind.go:39-63 | succeeds exactly when pod and record are cached, no named claim lacks a class and the copy is current; then the stored ledger is the copy's plus the keys, else nothing changes |
| `LocalVolumes.BindHandler` | pkg/scheduler/bind.go:10-37 | reservations first, then the pod; a failed pod binding leaves the reservations |
| `LocalVolumes.Reconcile` | pkg/agent/agent_reconciler.go:36-108 | writes exactly the refreshed status, only for this node, only a change, only on the version read, and fails exactly on a conflict |
| `LocalVolumes.AgentFixpoint` | pkg/agent/agent_reconciler.go:65-103 | a second reconcile computes no change; there is none if and only if sizes agree and no reserved claim is bound |
| `LocalVolumes.ApiServer.Register` | pkg/agent/agent.go:67-80 | creates an empty record once, leaves an existing one alone, and does nothing when a call fails |
| `LocalVolumes.ApiServer.UpdateStatus` | pkg/agent/agent_reconciler.go:98-103 | a write is accepted exactly on the stored version, and moves it on |
| `Quiescence.QuiescentAgreement` | pkg/agent/agent_reconciler.go:65-103 | whenever publishes, events, key and workers are at rest, the recorded free size is the group's, rounded down, if the group could be read since some start on the node's key or since the beginning |
| `Quiescence.AgreesOrOwes` | pkg/common/controller/controller.go:300-340 | from such a start on, in every state, the record agrees or something still owes a reconcile |
| `Quiescence.AgentRefinesController` | pkg/common/controller/controller.go:300-340 | every step of the agent is a step of the controller or invisible to it |
| `Quiescence.StepKeepsOwing` | pkg/driver/nodeserver.go:184-188 | after every step the record agrees, or something still owes a reconcile |
| `Quiescence.WriteKeepsOwing` | pkg/agent/agent_reconciler.go:97-103 | a write leaves the record right, the cache behind, the key marked, or an error that requeues |
| `Quiescence.UnreadableGroupIsNotRetried` | pkg/agent/agent_reconciler.go:68-72 | an unreadable group lets the node come to rest with a wrong record |
| `Rest.NodeComesToRest` | pkg/common/controller/controller.go:300-356 | left alone, the node goes through at most the computed number of events in any order, can go on until it is at rest, and then the record is right |
| `Rest.RestFollowsEveryRun` | pkg/agent/agent_reconciler.go:65-103 | the same after every run in which the group could be read since a start on the node's key |
| `Rest.GroupChangeIsRecorded` | pkg/driver/nodeserver.go:184-188 | whatever the agent was doing when the group changed, at rest the record has the group's new free size |
| `Rest.StepCounts` | pkg/agent/agent_reconciler.go:97-103 | every event of the agent on its own lowers the measure, conflicts, requeues and self-triggered updates included |
| `Rest.QuietProgress` | pkg/common/controller/controller.go:286-288 | short of rest some event is possible |
| `Rest.StaleCacheSpins` | pkg/common/controller/controller.go:342-356 | with a cache that stays behind, seven events of the agent alone lead back to the same state |
| `Controller.NeverHeldTwice` | pkg/common/controller/controller.go:300-340 | in every run no key is held by two workers |
| `Controller.NoLostWakeup` | pkg/common/controller/controller.go:253-256 | before shutdown, a key enqueued since its latest reconcile began is queued, waiting, or re-marked under its one holder |
| `Controller.QueueIsItsHistory` | pkg/common/controller/controller.go:328-356 | on an open queue exactly those keys wait, and exactly those are to be started on, that the history says; neither a success nor a permanent error puts a key back |
| `Controller.FirstInFirstOut` | vendor/k8s.io/client-go/util/workqueue/queue.go:108-160 | of two queued keys the one queued first is started on first, in every run |
| `Controller.NewKeyComesLast` | vendor/k8s.io/client-go/util/workqueue/queue.go:120-126 | a key that is neither queued nor held is queued behind every other |
| `Controller.ShutdownDrains` | pkg/common/controller/controller.go:268-296 | after stop some worker can always move, `Run` returns after exactly the measured number of worker events, each dirty key is started once, no other key is, none is requeued |
| `Controller.NoWorkerNoDrain` | pkg/common/controller/controller.go:272-277 | without workers `Run` returns if and only if the queue was empty at stop |
| `Controller.RunKeepsInv` | pkg/common/controller/controller.go:282-289 | processing keys and holding workers correspond one to one in every run |
| `Controller.TurnIsThreeSteps` | pkg/common/controller/controller.go:300-340 | an uninterrupted turn of a worker is the three steps take, reconcile and done |
| `Queues.OperationsKeepValid` | vendor/k8s.io/client-go/util/workqueue/queue.go:108-186 | every queue operation keeps the FIFO equal to the dirty keys nobody processes, once each |
| `WorkQueue.SharedQueue.Add` | vendor/k8s.io/client-go/util/workqueue/queue.go:108-127 | the object's `Add` is the queue function |
| `WorkQueue.SharedQueue.Get` | vendor/k8s.io/client-go/util/workqueue/queue.go:141-160 | takes the first key, or reports shutdown exactly when the FIFO is empty |
| `WorkQueue.SharedQueue.Done` | vendor/k8s.io/client-go/util/workqueue/queue.go:165-176 | ends processing and queues a key re-marked meanwhile |
| `WorkQueue.SharedQueue.ShutDown` | vendor/k8s.io/client-go/util/workqueue/delaying_queue.go:142-148 | closes the queue and drops the waiting keys |
| `WorkQueue.SharedQueue.HandleErr` | pkg/common/controller/controller.go:342-356 | requeues with a delay exactly after a transient error on an open queue |
| `WorkQueue.SharedQueue.ProcessNextWorkItem` | pkg/common/controller/controller.go:300-340 | one turn takes the first key, handles its outcome and marks it done; it ends the worker exactly when the FIFO is empty at shutdown |
| `Routing.EnqueueLocalVolumePV` | pkg/agent/agent.go:93-123 | the nested loops add the keys of all nodes the volume names, in order |
| `Routing.RoutingAgreement` | pkg/agent/agent.go:82-123 | the handler marks a node's key if and only if the volume is on that node |
| `Routing.AddAllInOrder` | pkg/agent/agent.go:110-121 | nodes new to the queue are queued in the order in which the volume names them |
| `Routing.ReconcilerSplitsTheQueuedKey` | pkg/common/controller/controller.go:513-518 | a reconciler gets back the queued namespace and name if and only if they are free of slashes |
| `Routing.SplitsExactly` | vendor/k8s.io/client-go/tools/cache/store.go:95-107 | a key splits if and only if it has at most one slash, into parts that make it up |
| `Routing.OtherNodesKeyIsNoConcern` | pkg/agent/agent_reconciler.go:45-48 | a queued node key concerns that node's agent and no other |
| `Volumes.GetMyNodeBoundedPVCList` | pkg/agent/agent_reconciler.go:110-125 | the keys of exactly the claims bound on the node; none if listing fails |
| `Volumes.BoundKeysExactly` | pkg/agent/agent_reconciler.go:118-122 | a key is listed if and only if some volume of the list, at any place, is bound on the node to its claim |
| `Volumes.IsPVInMyNodeExactly` | pkg/common/types/types.go:47-73 | a volume is on a node if and only if some expression of some term lists the node under the topology key |
| `Volumes.BoundKeysHoldASlash` | pkg/common/types/types.go:35-37 | the agent never prunes the empty key |
| `Keys.SplitInvertsMake` | pkg/common/types/types.go:35-45 | a made key splits back if and only if both parts are free of slashes |
| `Keys.MakeInvertsSplit` | pkg/common/types/types.go:39-45 | a key with one slash is the key made from its parts |
| `Keys.MakeIsInjective` | pkg/common/types/types.go:35-37 | keys of slash-free namespaces are equal only for equal claims |
| `Keys.OtherKeysSplitToNothing` | pkg/common/types/types.go:39-45 | a key with any other number of slashes splits into the pair that names no claim |
| `Scheduler.GetPodLocalVolumeRequestSize` | pkg/scheduler/utils.go:11-40 | the uint64 sum of the driver claims' float64 ceilings, claims that cannot be found skipped; a panic exactly when a named claim has no class |
| `Scheduler.GetPodLocalVolumePVCNames` | pkg/scheduler/utils.go:42-67 | the keys of the pod's driver claims, each with an empty value; a panic exactly when a named claim has no class |
| `Scheduler.GetNodeFreeSize` | pkg/scheduler/utils.go:69-91 | recorded free size minus the sizes of reserved live claims, modulo 2^64; 0 without a record |
| `Scheduler.RequestCoversReservation` | pkg/scheduler/utils.go:11-91 | reserving a pod's keys lowers the free size by at most its request, and by exactly that if and only if the claims of positive size are named once and are new |
| `Scheduler.RequestDoesNotWrap` | pkg/scheduler/utils.go:33-34 | the request stays below 2^33 per volume |
| `Scheduler.DriverKeysMembers` | pkg/scheduler/utils.go:42-67 | a key is collected if and only if some volume names that driver claim |
| `Scheduler.OtherClaimsCountNothing` | pkg/scheduler/utils.go:18-36 | a volume whose claim or class is missing, or is another provisioner's, changes neither request nor keys, at any place |
| `Scheduler.DriverClaimCounts` | pkg/scheduler/utils.go:30-35 | a volume of this driver's claim adds its size and its key |
| `FilterScore.PredicateHandler` | pkg/scheduler/predicate.go:9-56 | returns the fitting nodes, or panics exactly when there is a node and a named claim has no class |
| `FilterScore.FilterSeesTheRecord` | pkg/scheduler/predicate.go:40-56 | with a record, a node is kept if and only if the pod passes the filter that the capacity runs are about, reservations included; without one, if and only if the request is 0 |
| `FilterScore.FittingIsTheSubsequence` | pkg/scheduler/predicate.go:16-24 | filtering works part by part and keeps exactly the nodes that fit, in order |
| `FilterScore.FittingKeepsOccurrences` | pkg/scheduler/predicate.go:16-24 | a fitting node is kept as often as it was given, any other not at all; a list of one is kept or dropped |
| `FilterScore.Prioritize` | pkg/scheduler/prioritize.go:17-48 | one score per node, in host order, each within what its case allows |
| `FilterScore.PositiveScoreHasRoom` | pkg/scheduler/prioritize.go:39-40 | on a node with a safe record a positive score means room beside the reservations, and more than room if the request is positive |
| `FilterScore.RandInt64Range` | pkg/scheduler/prioritize.go:59-64 | any value of the range, or the upper end in the guarded cases |
| `FilterScore.FilterAndScoreAgree` | pkg/scheduler/prioritize.go:33-57 | a positive score passes the filter, the only admitted zero is an exact fit of a non-zero request, other scores are the free size modulo 10 or in the range of their draw, and a score leaves 0..10 exactly when a free size beyond int64 was converted |
| `Rounding.RealSizeClosedForm` | pkg/scheduler/utils.go:33 | the float64 computation equals the quotient plus one if the remainder is over half a float64 step |
| `Rounding.FloatCeilingBound` | pkg/scheduler/utils.go:87 | exact up to 2^53; above, exact if and only if the remainder is zero or over half a step, and else one less |
| `Rounding.FloatCeilingCanBeOneLess` | pkg/scheduler/utils.go:33 | a size for which it is one less |
| `Rounding.RoundingsLineUp` | pkg/driver/nodeserver.go:403-418 | asked <= capacity, asked <= carved <= reserved for every capacity, and gaps under one GiB |
| `Rounding.CarveLowersFreeByAtMostReserved` | pkg/agent/agent_reconciler.go:82 | a carve lowers the floored free size by at most the reserved amount |
| `Rounding.SIReportFits` | pkg/common/lvm/exec.go:18 | when a record from SI megabytes fits the group, exactly, and never from 21 units on |
| `Devices.ScanFindsFirstType` | pkg/driver/utils.go:55-65 | the scan yields a type if and only if the first TYPE line names it and only pairs precede it |
| `Devices.BlankExactlyWhen` | pkg/driver/utils.go:36-66 | a device is taken for blank if and only if `file` sees plain data or blkid's first type is empty |
| `Devices.TrimSpaceExactly` | pkg/driver/utils.go:47-57 | spaces around a text go, and nothing else does |
| `Devices.DataIsBlank` | pkg/driver/utils.go:43-49 | a device for which `file` prints data among any spaces is blank, whatever `blkid` says |
| `Devices.FormattedIsRecognised` | pkg/driver/utils.go:28-66 | whatever `file` and `blkid` print, if it is not plain data and the first type is named, that type is found |
| `Devices.ExportNamesType` | pkg/driver/utils.go:50-65 | blkid's export output with the device first and the type second names the type |
| `Devices.DisplayComparesExactly` | pkg/driver/nodeserver.go:359-376 | a carved volume seems large enough if and only if its capacity is below 1021 MiB or from one GiB up to one TiB |
| `Driver.SliceRemoveString` | pkg/common/utils/util.go:55-63 | the loop removes every occurrence |
| `Driver.WithoutKeepsOrder` | pkg/common/utils/util.go:55-63 | removal works part by part, leaves none, and removes nothing else |
| `Driver.TagThenRemove` | pkg/driver/nodeserver.go:213-216 | collecting gives back the finalizers there were before publishing |
| `Driver.Node.CreateVolume` | pkg/driver/nodeserver.go:319-354 | carves the extent-rounded floor of the capacity or fails without a trace; an unknown type makes nothing |
| `Driver.Node.ResizeVolume` | pkg/driver/nodeserver.go:356-389 | extends to whole extents exactly when the displayed number is below the size asked for, the new size is larger and it fits |
| `Driver.ResizeGrows` | pkg/driver/nodeserver.go:374-385 | a device that seems too small and can grow gets the carved size, keeps its contents, and takes the growth from the group |
| `Driver.GrownVolumeIsPublishedExactlyWhenItFits` | pkg/driver/nodeserver.go:356-389 | a recognised volume whose capacity was raised, from one GiB up to one TiB, is published, at its new size and with its data, if and only if the growth fits |
| `Driver.Node.UpdatePVPublishSuccessTag` | pkg/driver/nodeserver.go:193-237 | annotation and finalizer together, once, or nothing when a call fails |
| `Driver.Node.NodePublishVolume` | pkg/driver/nodeserver.go:106-191 | world and verdict after a publish that dies at any given stage, or inside mkfs with anything left on the device |
| `Driver.Node.NodeUnpublishVolume` | pkg/driver/nodeserver.go:239-263 | unmounts and changes nothing else; done already is no error, a failed mount check or unmount is |
| `Driver.Node.CollectVolume` | pkg/agent/gc_reconciler.go:61-98 | device first, finalizer second, only for a released volume with policy and finalizer; a failed removal is no error |
| `Driver.CollectExactly` | pkg/agent/gc_reconciler.go:61-79 | a collection changes something only for a released volume with the policy to delete and the finalizer; then the device's bytes go back to the group, that finalizer goes, and nothing else changes |
| `Driver.PublishRetryConverges` | pkg/driver/nodeserver.go:106-191 | publishing again after a death at the beginning of any stage ends as one uninterrupted publish |
| `Driver.PublishRetriesConverge` | pkg/driver/nodeserver.go:106-191 | after any number of attempts that die at a stage or inside mkfs, publishing again ends as one uninterrupted publish if and only if every format that died left the device blank or whole |
| `Driver.StageDeathsConverge` | pkg/driver/nodeserver.go:106-191 | if none died inside mkfs, the result is the same in every detail, also where an uninterrupted publish fails |
| `Driver.HalfFormatRetry` | pkg/driver/utils.go:28-66 | after a format that died, publishing again succeeds if and only if a type or its absence can be told, and converges if and only if what was left is blank or whole |
| `Driver.RetryConvergesExactly` | pkg/driver/nodeserver.go:148-182 | for a first publish: a retry after a death before the creation converges; at each later stage if and only if the displayed number compares right; inside mkfs if and only if, besides, what was left is blank or whole |
| `Driver.FirstPublishSucceedsExactly` | pkg/driver/nodeserver.go:125-191 | a first publish succeeds if and only if something is to be carved, it fits, and the new volume's type can be told or made |
| `Driver.RepublishSucceedsExactly` | pkg/driver/nodeserver.go:356-389 | a carved volume, whatever is on it, can be published if and only if its type can be told or made and the displayed number compares right |
| `Driver.UnpublishThenPublish` | pkg/driver/nodeserver.go:239-263 | unpublishing and publishing again gives back the same world |
| `Driver.CollectRetryConverges` | pkg/agent/gc_reconciler.go:81-98 | collecting again after a crash or failed removal ends as one uninterrupted collection, and then there is nothing left to collect |
| `Driver.PublishKeepsSpace` | pkg/driver/nodeserver.go:106-191 | however far a publish gets, no byte of the group is lost or made, and the object keeps capacity, phase, policy and other finalizers in order |
| `Driver.PublishLeaves` | pkg/driver/nodeserver.go:148-191 | a publish that succeeds leaves a recognised, mounted and tagged device |
| `Driver.PublishThenCollect` | pkg/agent/gc_reconciler.go:61-98 | publishing a new volume, releasing and collecting it gives the group its bytes and the object its finalizers back |
| `Lifecycle.DataSurvives` | pkg/driver/nodeserver.go:125-157 | in every run a published volume is never created or formatted again, keeps its contents, and is there as long as no state so far was released with policy to delete |
| `Lifecycle.RemovedOnlyAfterRelease` | pkg/agent/gc_reconciler.go:64-76 | only a collection removes a device; its copy was the stored volume of an earlier state, released with policy to delete; the policy is Retain by now if and only if it was set so since that state and not set back |
| `Lifecycle.PolicyIsTheLastOneSet` | pkg/agent/gc_reconciler.go:64-66 | between any two states of a run, a policy to delete has become Retain if and only if some step set it and none after set it back |
| `Lifecycle.RetainComesTooLate` | pkg/agent/gc_reconciler.go:61-76 | from every reachable state in which the collector has decided, a change to Retain leaves the removal enabled |
| `Lifecycle.RetainIgnored` | pkg/agent/gc_reconciler.go:61-76 | a run that removes the device of a published volume whose policy is Retain |
| `Lifecycle.CarvedOnlyUntagged` | pkg/driver/nodeserver.go:184-216 | a device is created only for a volume without the annotation, so the tag is still to be written |
| `Lifecycle.FinalizerGuardsVolume` | pkg/driver/nodeserver.go:204-229 | a published volume with a device has the finalizer; it goes only in an update that finds the device gone, and the others stay in order |
| `Lifecycle.CollectorStepsAreCollect` | pkg/agent/gc_reconciler.go:61-98 | the collector's steps on an up-to-date copy are one call of the collector, step by step, and do not begin where that call does nothing |
| `Lifecycle.PublishGuardsExactly` | pkg/driver/nodeserver.go:204-216 | from every stage on, a publish leaves the volume guarded if and only if it was untagged or still had the finalizer |
| `Lifecycle.LatePublishIsUnguardedExactlyWhen` | pkg/driver/nodeserver.go:204-216 | a whole publish leaves an unguarded volume, which no collection removes, if and only if the object was tagged and had lost the finalizer |
| `Lifecycle.UnguardedVolume` | pkg/driver/nodeserver.go:204-216 | a collected volume that is published again and left unguarded |
| `Lifecycle.RunKeepsInv` | pkg/agent/gc_reconciler.go:61-79 | what stale copies may say of a volume, and how far a publish in flight has brought the device, in every reachable state |
| `Lifecycle.StuckForEver` | pkg/driver/nodeserver.go:148-151 | once a format has left something that cannot be parsed, no publish of the run ever succeeds and the device stays as it is until collected |
| `Lifecycle.HalfFormatGetsStuck` | pkg/driver/utils.go:50-65 | a run that gets there, of a publish that would have succeeded |

## Left out

- Driver.Node.CreateVolume: striped volumes, whose size LVM rounds up per stripe.
- Driver.Node.ResizeVolume: growing the file system after `lvextend`, and a volume object that cannot be read, whose size then counts as 0.
- Driver.Node.UpdatePVPublishSuccessTag: other writers between the read and the patch; the patch only adds, and others leave the collector's finalizer alone.
- FilterScore.RandInt64Range: the distribution of the draw.
- Volume expansion in the capacity runs: it takes space without reserving it and sends no tag event.
- Capacity runs of several nodes: every node has its own group and record, and a machine here is one node.
- Shell commands, mounting, `vgs` JSON, `CreateVG` and device probing: only their effect on group, device and mount is kept.
- HTTP, JSON and gRPC plumbing, generated clients and informers, logging, signals.
- Preemption, which always answers with an empty map.
- `CreateVolume` of the controller server, which checks the request and passes its capacity on with the picked node; `pickNodeID`, which takes the node of the first preferred, or else the first requisite, topology that names one; `DeleteVolume`, which does nothing to the group.
- Lengths of rate-limiter delays and resyncs: a delay is a set of waiting keys that shutdown drops.
