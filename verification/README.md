# Cluster API Provider Oxide: a verified model of its two controllers

The provider runs two reconcilers. One creates an Oxide instance for every OxideMachine object and
tears it down again; the other keeps a cluster's floating IP attached to one of its control plane
instances. Both are level triggered and hold no state of their own: what they know is what the last
patch wrote, and any call, answer or patch can be lost.

The model follows the code call by call. A reconcile in flight is an automaton that reacts to the
answers it gets; users, the cloud and other parties may move between any two of its calls; it may
crash at any point; a request may be served, served with its answer lost, or dropped; and the spec
half and the status half of a patch may each be lost. Statements hold for every run of these systems,
of any length and in any interleaving, unless they say what they assume of the run.

| file | contents |
|---|---|
| `Basics.dfy`, `Cloud.dfy`, `Text.dfy` | answers, Oxide objects and condition reasons, string operations |
| `Naming.dfy` | resource names: length, shape, which names can and cannot collide |
| `ProviderId.dfy`, `Addresses.dfy` | provider IDs and address lists |
| `MachineModel.dfy` | one OxideMachine with its instance and boot disk as a transition system |
| `MachineInvariants.dfy`, `MachineRuns.dfy` | what its steps keep, and what its runs guarantee |
| `MachineAnswers.dfy` | what each answer leads to, and what a reconcile may ask for when |
| `MachineBuildup.dfy`, `MachineTeardown.dfy` | that building up and tearing down come to an end |
| `MachineController.dfy` | the OxideMachine reconciler as imperative code, each call a step of the model |
| `Attachment.dfy` | the decision where the floating IP belongs, against a specification without scans |
| `ClusterModel.dfy`, `ClusterRuns.dfy` | one OxideCluster with its floating IP, and its runs |
| `ClusterController.dfy` | the OxideCluster reconciler as imperative code, with its two scans |
| `TwoControllers.dfy` | all machines and the cluster together: no flapping, and what the controllers owe each other |

## What was found false, and exactly when it holds

* Deleting a machine (or a cluster) is not always clean. The finalizer is added in memory before
  anything is created but reaches the API server only with the patch at the end of the reconcile.
  An object deleted before that leaves its instance, disk or IP behind. `DeletionIsCleanIff` gives
  the exact condition in both controllers.
* Resource names are not unique within a namespace, whatever the hash: a name that is truncated
  shares its result with the short name spelled like that result. `LongNameHasShortTwinIff` says
  exactly which names have such a twin: those whose cut falls right after the namespace, or inside
  the name behind a character other than a dot. `CollisionIff` lists all collisions.
* A resource name, and with it the host name, is not always a host name label, because object names
  may contain dots (`DottedNameIsNoLabel`). It is one exactly when no dot stays in front of the cut
  (`ResourceNameIsLabelIff`).
* Attachment does not always settle. If the target shares its instance with a deleting machine
  earlier in the list, every reconcile detaches and re-attaches the IP (`SettlesIff`,
  `ShadowedTargetFlaps`). With one instance per machine that never happens
  (`ListedIdsAreDistinct`).
* The deletion of a cluster does not always end. Its controller never detaches the IP, and an
  attached IP cannot be deleted: `DeletionEndsIff`. Nor does every machine come to run: a boot disk
  left behind, or an instance lost after its ID was recorded, stops it for good
  (`CanProgressIff`).
* A host the user asked for is overwritten when an IP of that name already exists with another
  address, and only then (`AdoptionOverwritesHostIff`, `EndpointStaysIff`).
* Teardown and create-or-adopt are not proof against others who act between a look and the step
  that relies on it: `IntruderIsLeft`, `MeddlingRecreates`. `FinalizerDropIsSafe` and `ExactlyOnce`
  say what others may do.
* A machine can be recorded as provisioned without a provider ID (`StatusHalfAlone`). It has its ID
  throughout a run exactly when no patch of the run splits: the status half that first provisions
  it lands and the spec half with the ID does not (`AlwaysIdentifiedIff`).

## Assumptions

* At most one reconcile is in flight per object, and reading the object up to constructing the
  Oxide client is one atomic step; a list request shows the objects as they are at that moment.
* The cloud gives every instance a fresh id, allocates the address an explicit request names, does
  not delete an attached IP or attach an attached one, destroys only stopped or failed instances,
  and answers a create request with a conflict if the instance or its boot disk exists.
* A request whose answer is lost has taken effect before the caller goes on.
* Machines that exist at the same time have different instance and boot disk names; `CollisionIff`
  says when. An object made under the name of a deleted one finds what that one left behind.
* Out-of-band changes (instances, disks and IPs of the controllers' names made or removed by others)
  are steps of the models; the statements that need their absence say so.

## Model

| member | source | states |
|---|---|---|
| TwoControllers.NoFlapping | internal/controller/oxidecluster_controller.go:199-302 | In any interleaving of both controllers, users, cloud and failures, objects remade under the name of deleted ones included, the IP is detached at most once per machine whose deletion was requested plus once per attachment made by others, one from before the start included. |
| TwoControllers.DetachmentIsPaid | internal/controller/oxidecluster_controller.go:258-301 | Each single detach is paid by a machine charged for the first time or by an attachment others made. |
| TwoControllers.InvStep | internal/controller/oxidecluster_controller.go:178-302 | Every step of either controller keeps: instance ids of machines are disjoint, the chosen holder is a recorded, provisioned, never charged machine, and an own holder is about to be detached only after its deletion was requested. |
| TwoControllers.LeftMachineWasAsked | internal/controller/oxidecluster_controller.go:226-256 | If the decision moves the IP off the machine the controller had chosen, that machine's deletion was requested; while it is still listed there is somewhere to move to. |
| TwoControllers.ListedIdsAreDistinct | internal/controller/oxidemachine_controller.go:331 | No list ever shows two machines with the same instance, so an attachment settles. |
| TwoControllers.HolderIsProvisioned | internal/controller/oxidecluster_controller.go:224-243 | Although the holder scan never tests it, in any run a listed machine holding the IP is provisioned, unless it was others who attached the IP to it. |
| TwoControllers.OwnHolderIsNotAbandoned | internal/controller/oxidecluster_controller.go:240-283 | In any run, whenever the IP really is detached from a machine the controller put it on that is still present, draining or not, there is another machine to attach it to. |
| TwoControllers.SystemRecovers | internal/controller/oxidecluster_controller.go:178-323 | From any reachable state of the combined system, while machines and their reconciles go on: a cluster reconcile whose calls are answered and during which nobody else moves the IP can end only without an error, with the IP on the declared holder: on a machine if the list showed a candidate, never taken off a listed one. |
| TwoControllers.SystemSettles | internal/controller/oxidecluster_controller.go:226-302 | A reconcile during which nobody else moves the IP makes no detach or attach call, whatever fails, if an earlier decision on the same list put the IP where it is. |
| TwoControllers.ListedIsSound | internal/controller/oxidecluster_controller.go:216-235 | No list any run shows has a shadowed target, and each is readable if the UUID library accepts the ids of all instances. |
| TwoControllers.MachineIsRemade | internal/controller/oxidemachine_controller.go:234-332 | A new object that takes over what an uncleanly deleted namesake left behind keeps the invariant of both controllers: what is left was never recorded, so it is no holder the controller chose. |
| Attachment.DecideIsSpec | internal/controller/oxidecluster_controller.go:199-256 | With readable provider IDs the two scans leave the IP exactly when an own machine holds it that is live or has no replacement, and otherwise move it to the first candidate, or to nothing without one. |
| Attachment.FreeIpGoesToFirstFit | internal/controller/oxidecluster_controller.go:199-222 | An unattached IP goes to the first machine that has a provider ID, is provisioned and not being deleted, whatever else is in the list. |
| Attachment.HeldIpStaysOrMoves | internal/controller/oxidecluster_controller.go:226-256 | An IP stays on a listed machine not being deleted, and moves from one that is to the first fit one; machines without a provider ID are passed over. |
| Attachment.HeldIpIsKept | internal/controller/oxidecluster_controller.go:240-253 | Without a fit machine it stays on a listed one, draining or not. |
| Attachment.BlockedIff | internal/controller/oxidecluster_controller.go:216-235 | Exactly which unreadable provider ID stops the whole attachment: the first candidate's, or one the holder scan reaches before a match. |
| Attachment.SettlesIff | internal/controller/oxidecluster_controller.go:226-302 | After a successful move the next reconcile makes no call, unless a deleting machine earlier in the list has the target's instance; then it moves the IP to the same place again. Distinct ids exclude that. |
| Attachment.SharedInstanceIsShadowed | internal/controller/oxidecluster_controller.go:226-256 | A list of two machines for which that happens. |
| Attachment.NeverAbandoned | internal/controller/oxidecluster_controller.go:239-253 | If a listed machine holds the IP, draining or not, the decision never leaves it unattached. |
| Attachment.DecisionSettles | internal/controller/oxidecluster_controller.go:226-256 | Where a decision puts the IP, the next decision on the same list makes no call, unreadable provider IDs or not, unless the target is shadowed. |
| Attachment.CandidateMeansWellPlaced | internal/controller/oxidecluster_controller.go:199-256 | With a candidate in the list, a decision that is not blocked puts the IP on a listed machine not being deleted, unless the target is shadowed. |
| ClusterController.FindTarget | internal/controller/oxidecluster_controller.go:199-222 | The first scan returns the id of the first provisioned machine not being deleted, nothing if there is none, or its parse error. |
| ClusterController.ShouldAttach | internal/controller/oxidecluster_controller.go:224-256 | The second scan, with the first one's target, comes to the decision the specification describes, parse errors included. |
| ClusterController.ReconcileFloatingIPAttachment | internal/controller/oxidecluster_controller.go:178-323 | Its list, detach and attach calls are steps of the model under any interference; it ends with the model's in-memory object, unchanged on an error. |
| ClusterController.EnsureFloatingIPExists | internal/controller/oxidecluster_controller.go:362-394 | Views the IP or creates it with the allocator for the recorded host; any other answer is an error. |
| ClusterController.EnsureFloatingIPDeleted | internal/controller/oxidecluster_controller.go:397-412 | Deleting succeeds if the IP is deleted or already gone, and only then. |
| ClusterController.ReconcileObject | internal/controller/oxidecluster_controller.go:129-172 | Deletion, owner deletion, endpoint, readiness and attachment happen as in the model, to the same in-memory object and verdict. |
| ClusterController.Reconcile | internal/controller/oxidecluster_controller.go:72-173 | A reconcile is a run of the model ending in a patch of its own, with its verdict or an error if the patch was lost, or it stops before any change. |
| ClusterRuns.CallsInOrder | internal/controller/oxidecluster_controller.go:258-302 | Within a reconcile no call comes twice: one list request, then at most one detach, then at most one attach. |
| ClusterRuns.ReconcilePlacesIp | internal/controller/oxidecluster_controller.go:144-172 | However a reconcile is interleaved with users and whichever calls fail: if nobody else moves the IP meanwhile and it ends without an error, the IP, newly created if need be, is on the declared holder, and endpoint and FloatingIPAttached in the copy match. With all calls answered only an unreadable provider ID makes it fail, and then the IP stays. |
| ClusterRuns.ReconcileRecordsIp | internal/controller/oxidecluster_controller.go:146-166 | What of it is on record after a patch either half of which may be lost. If the spec half lands: finalizer, address, and port, 6443 unless the user set one. If the status half lands: provisioned, ready, and FloatingIPAttached true exactly when the IP is attached, else false, waiting for a control plane machine. |
| ClusterRuns.ProvisionedStays | internal/controller/oxidecluster_controller.go:157-166 | Between any two moments of any run, whoever moves the IP, a provisioned cluster stays provisioned and a ready one ready. |
| ClusterRuns.CreatedIpIsProper | internal/controller/oxidecluster_controller.go:325-394 | In any run an IP the controller creates has the host on record for its address; without one it comes from the pool of the spec, and without that from a default pool, of the IP type of the spec if it has one. |
| ClusterRuns.FailedCallEndsReconcile | internal/controller/oxidecluster_controller.go:372-412 | A call that is not answered, or refused, ends the reconcile with an error, and what it knows so far is kept. |
| ClusterRuns.HeldBackReconcile | internal/controller/oxidecluster_controller.go:119-142 | While the owner of a live cluster is being deleted, or without a client, a reconcile makes no call from start to patch and changes nothing. |
| ClusterRuns.ReconcileNeverAbandons | internal/controller/oxidecluster_controller.go:239-301 | If a listed machine holds the IP, draining or not, a reconcile never ends with it unattached, unless one of its calls fails. |
| ClusterRuns.ReconcileAttaches | internal/controller/oxidecluster_controller.go:239-301 | However the IP came to be unattached or missing, the first reconcile that ends without an error and saw a candidate leaves it attached. |
| ClusterRuns.PlacedIpStays | internal/controller/oxidecluster_controller.go:226-302 | Where a decision put the IP, reconciles that see the same machines leave it, without a detach or attach call, in any interleaving with users, whatever fails, unreadable provider IDs or not, unless the target is shadowed. |
| ClusterRuns.CleanPassPlacesIp | internal/controller/oxidecluster_controller.go:144-172 | The whole state an undisturbed reconcile leaves behind, with or without an IP to begin with. |
| ClusterRuns.CleanPassExists | internal/controller/oxidecluster_controller.go:144-172 | Such a reconcile is possible from every state, unless a provider ID is unreadable. |
| ClusterRuns.CleanPassAttaches | internal/controller/oxidecluster_controller.go:239-301 | An undisturbed reconcile that sees a candidate, none shadowing it, puts the IP on a live machine and records it, and the next one that sees the same machines makes no detach or attach call. |
| ClusterRuns.CleanPassNeverAbandons | internal/controller/oxidecluster_controller.go:239-301 | An undisturbed reconcile never takes the IP off an own machine without putting it on another. |
| ClusterRuns.RefusedDetachesRepeat | internal/controller/oxidecluster_controller.go:271-283 | Detach calls that fail have no bound: for every number a run that makes as many and moves nothing. |
| ClusterRuns.ShadowedTargetFlaps | internal/controller/oxidecluster_controller.go:226-302 | With a shadowed target every reconcile detaches and attaches the IP again: for every number a run with as many detachments. |
| ClusterRuns.EndpointIsFixed | internal/controller/oxidecluster_controller.go:146-155 | After the first reconcile that ends without an error and whose spec half lands, host and port never change in any run, whatever came before and whether the IP was found or created, even if it disappears and is recreated, as long as others do not replace it by one with another address. |
| ClusterRuns.EndpointStaysIff | internal/controller/oxidecluster_controller.go:146-155 | Between reconciles, a recorded host or port is safe in every continuation without such a replacement exactly when the IP, if there is one, has the recorded address. |
| ClusterRuns.EndpointIsStable | internal/controller/oxidecluster_controller.go:146-155 | Between any two moments of a run, in mid-reconcile too, a recorded host or port does not change, if an IP that was there at the start had the address the user asked for, if any, and others never replace it by one with another address. |
| ClusterRuns.AdoptionOverwritesHostIff | internal/controller/oxidecluster_controller.go:146-150 | A host on record is overwritten by a reconcile that ends without an error exactly when the IP was already there with another address, however users interleave. |
| ClusterRuns.DeletionIsCleanIff | internal/controller/oxidecluster_controller.go:129-144 | In any run, deleting a cluster never leaves its IP behind, as long as nobody else makes one afterwards, exactly when the finalizer is on record, or there is no IP and no reconcile about to create one. |
| ClusterRuns.FinalizerDropIsSafe | internal/controller/oxidecluster_controller.go:129-139 | The finalizer goes only when there is no IP of the cluster's name, in every run in which nobody else makes one behind the back of the reconcile that drops it. |
| ClusterRuns.DeletionPassEndsIff | internal/controller/oxidecluster_controller.go:397-412 | A reconcile of a deletion, in any interleaving with users, whose calls are answered succeeds exactly when the IP is missing or unattached, and its patch then takes the object away after the IP; otherwise it changes nothing. |
| ClusterRuns.DeletionEndsIff | internal/controller/oxidecluster_controller.go:129-144 | The controller alone can bring the deletion of a cluster to its end exactly when the IP is missing or unattached: it never detaches it. |
| MachineRuns.ExactlyOnce | internal/controller/oxidemachine_controller.go:234-332 | Under crashes, lost answers and lost patches at most one create takes effect, none if there was an instance to adopt, and a recorded provider ID is that of the one instance. Assumes that others neither take the instance away while it could be created again nor make a second one; the disk, a first instance, and an instance whose ID is on record are theirs to touch. |
| MachineRuns.MeddlingRecreates | internal/controller/oxidemachine_controller.go:234-332 | Otherwise there is no bound: for every number a run with as many creations. |
| MachineRuns.FieldsMoveOneWay | internal/controller/oxidemachine_controller.go:183-216 | In any run a provider ID once set never changes, provisioned stays true, non-empty addresses stay, a deletion mark stays. |
| MachineRuns.NeverRecreated | internal/controller/oxidemachine_controller.go:234-243 | With a provider ID on record nothing is created again, even if the instance vanishes out of band. |
| MachineRuns.AdoptionRecovers | internal/controller/oxidemachine_controller.go:314-332 | However many patches were lost, wholly or by half, one undisturbed reconcile adopts the instance and records its id: a running one as provisioned and ready, with its addresses unless known, a stopped one as started but not ready, any other as not ready. |
| MachineRuns.ReconcileRecordsInstance | internal/controller/oxidemachine_controller.go:162-219 | In any run, a reconcile of a live machine that ends without an error and whose patch lands leaves finalizer and provider ID on record, unless it awaits bootstrap data; without a requeue the machine is provisioned and ready. |
| MachineRuns.FinalizerDropIsSafe | internal/controller/oxidemachine_controller.go:369-414 | The finalizer goes only when the instance and the boot disk are both gone, in every run in which others make none behind the back of the reconcile that drops it; they may remove things at any time and make them at any other. |
| MachineRuns.IntruderIsLeft | internal/controller/oxidemachine_controller.go:369-414 | If they do, the finalizer goes over a live instance. |
| MachineRuns.FinishedForGood | internal/controller/oxidemachine_controller.go:138-147 | After that nothing is ever there again, unless others make it. |
| MachineRuns.DeletionIsCleanIff | internal/controller/oxidemachine_controller.go:113-149 | After any run, deleting a machine leaves nothing behind in any continuation in which others make nothing, exactly when the finalizer is on record, or nothing exists and no reconcile is about to create. |
| MachineRuns.BuildThenDestroy | internal/controller/oxidemachine_controller.go:138-162 | In every run all create and start requests come before all stop and delete requests. |
| MachineRuns.DiskDeleteIsJustified | internal/controller/oxidemachine_controller.go:395-510 | Every disk delete follows, in the same reconcile, an answer that the instance is gone and an answered view of the disk as detached or faulted. |
| MachineAnswers.CreateIsJustified | internal/controller/oxidemachine_controller.go:245-312 | In every run each create request follows, in the same reconcile, bootstrap data that was set and could be read. |
| MachineAnswers.BootstrapDecides | internal/controller/oxidemachine_controller.go:245-269 | In every run a reconcile whose bootstrap data is not set ends waiting for it, and one whose data cannot be read ends with an error; neither makes a call to the cloud from start to patch. |
| MachineAnswers.CallsFollow | internal/controller/oxidemachine_controller.go:234-527 | Which call comes next at each point: a machine begins with the instance on record, or with bootstrap data to create one, and adopts only what is in the way of that. |
| MachineAnswers.InstanceDecides | internal/controller/oxidemachine_controller.go:162-219 | A live machine's reconcile records a running instance as provisioned and ready and looks up unknown addresses, starts a stopped one, and waits on any other, saying in the Ready reason what it saw. |
| MachineAnswers.InstanceViewDecides | internal/controller/oxidemachine_controller.go:430-470 | A deletion stops a running instance, destroys a stopped or failed one, waits on any other saying in what state it is, and goes on to the disk without one. |
| MachineAnswers.RequestDecides | internal/controller/oxidemachine_controller.go:440-477 | After its request a deletion waits and says for what, or goes on to the disk if there was nothing left to stop or destroy. |
| MachineAnswers.DiskViewDecides | internal/controller/oxidemachine_controller.go:489-527 | A disk seen detached or faulted is deleted next; on one in any other state the deletion waits without another call; without one the finalizer comes off. |
| MachineAnswers.DiskDeleteDecides | internal/controller/oxidemachine_controller.go:503-527 | A delete request for a disk that could be deleted or was gone by then lets the finalizer go. |
| MachineAnswers.FailedCallEndsReconcile | internal/controller/oxidemachine_controller.go:234-527 | A call that is not answered, or refused, ends the reconcile with an error, and what it knows so far is kept. |
| MachineAnswers.PatchHalves | internal/controller/oxidemachine_controller.go:113-117 | Which fields each half of a patch writes. |
| MachineRuns.SteadyIsFixpoint | internal/controller/oxidemachine_controller.go:162-219 | Reconciling a running, fully recorded machine, whatever fails, sends no mutating request and changes nothing. |
| MachineRuns.AlwaysIdentifiedIff | internal/controller/oxidemachine_controller.go:113-117 | In a run a provisioned machine always has its provider ID exactly when no patch of the run splits. |
| MachineRuns.IdLostIff | internal/controller/oxidemachine_controller.go:113-117 | Exactly which step makes a machine provisioned without a provider ID: the status half that provisions it lands without the spec half that has the ID. |
| MachineRuns.IdRegainedIff | internal/controller/oxidemachine_controller.go:113-117 | Exactly which step repairs it: a spec half that has the ID lands, or the object goes. |
| MachineRuns.SpecWithStatusKeepsIds | internal/controller/oxidemachine_controller.go:113-117 | If no status half lands without its spec half, a provisioned machine always has its provider ID. |
| MachineRuns.StatusHalfAlone | internal/controller/oxidemachine_controller.go:113-117 | A run after which a machine is provisioned without a provider ID, because only the status half of a patch landed. |
| MachineRuns.ExternalOnlyWithPool | internal/controller/oxidemachine_controller.go:204-214 | Without an IP pool in its spec a machine never records an external address. |
| MachineInvariants.InvStep | internal/controller/oxidemachine_controller.go:69-220 | Every step, out-of-band ones included, keeps: the in-memory copy is faithful up to the deletion mark, provider IDs name instances of this machine, the two paths of a reconcile never mix. |
| MachineInvariants.SoleStep | internal/controller/oxidemachine_controller.go:234-332 | Every step but those assumed away for `ExactlyOnce` keeps: one instance id at most, and after the first no gap in which another could be created. |
| MachineInvariants.ClearStep | internal/controller/oxidemachine_controller.go:377-413 | Every step but making an instance or disk behind a deletion's back keeps: at the disk the instance is gone, and with the finalizer off the copy both are. |
| MachineInvariants.GuardedStep | internal/controller/oxidemachine_controller.go:377-413 | Every step, out-of-band ones included, keeps: a recorded provider ID comes with a recorded finalizer, and a reconcile about to drop the finalizer has seen the recorded instance gone. |
| MachineInvariants.RecordOutlivesInstance | internal/controller/oxidemachine_controller.go:377-413 | An object goes only after the instance it recorded, which never comes back. |
| MachineTeardown.RankBoundsRequests | internal/controller/oxidemachine_controller.go:440-527 | A deletion without setbacks never rises in rank, and its effective stop, delete and disk delete requests are bounded by how far it has come down, whatever fails. |
| MachineTeardown.ProductiveReconcilesEndDeletion | internal/controller/oxidemachine_controller.go:369-527 | In every run of a deletion without setbacks, whatever crashes or is lost, and even if others stop and delete things as well: each reconcile that succeeds and does not just wait takes the machine a stage down, so that three at most remove instance, boot disk and object. |
| MachineTeardown.SettledPassIsProductive | internal/controller/oxidemachine_controller.go:369-527 | An undisturbed reconcile that finds things settled is possible, and such a one. |
| MachineTeardown.DeletionTerminates | internal/controller/oxidemachine_controller.go:369-527 | With any stretches without setbacks in between, failing and crashing reconciles and removals by others included, three undisturbed reconciles at most that find things settled remove instance, boot disk and object. |
| MachineBuildup.ProductiveReconcilesEndBuildup | internal/controller/oxidemachine_controller.go:149-219 | In every run of a live machine without setbacks, whatever crashes or is lost: each reconcile that succeeds and does not just wait gets the machine a stage further, so that after two at most its instance runs and is on record, and with an address nothing is left to do. |
| MachineBuildup.SettledMachineProgresses | internal/controller/oxidemachine_controller.go:149-219 | Such a reconcile is possible from every settled state in which something is left to do. |
| MachineBuildup.CanProgressIff | internal/controller/oxidemachine_controller.go:234-365 | Without help from others a live machine gets any further exactly when it has an instance that is not destroyed, or none and neither a boot disk nor a recorded ID of one. |
| MachineController.EnsureInstance | internal/controller/oxidemachine_controller.go:224-333 | View, create and adopt calls are the model's under any interference, with the same branches and errors; the provider ID is that of the instance returned. |
| MachineController.EnsureInstanceRunning | internal/controller/oxidemachine_controller.go:340-365 | Starts exactly a stopped instance; reports running only for a running one. |
| MachineController.EnsureInstanceDeleted | internal/controller/oxidemachine_controller.go:416-478 | Stops a running, destroys a stopped or failed instance and waits on others; "not found" at any call means gone. |
| MachineController.EnsureDiskDeleted | internal/controller/oxidemachine_controller.go:480-528 | Deletes a detached or faulted disk and waits on others; "not found" means gone. |
| MachineController.HandleDelete | internal/controller/oxidemachine_controller.go:369-414 | Goes on to the disk only without an instance, and drops the finalizer only without both. |
| MachineController.ReconcileObject | internal/controller/oxidemachine_controller.go:138-219 | Between reading and patching, the calls and the in-memory object are the model's. |
| MachineController.Reconcile | internal/controller/oxidemachine_controller.go:69-220 | A reconcile is a run of the model ending in a patch of its own, with its verdict or an error if the patch was lost, or it stops before any change. |
| Naming.HashTruncateName | internal/controller/naming.go:21-31 | Computes the truncated, lower-cased, trimmed name the lemmas below are about. |
| Naming.NineIsEnough | internal/controller/naming.go:22-26 | The unpadded hash has one to eight digits, so the slice is in range for every length limit of at least nine, and not for eight when the hash is full width. |
| Naming.LengthBound | internal/controller/naming.go:21-31 | No result exceeds the limit, and a truncated one has exactly that length. |
| Naming.InstanceNameSpelledOut | internal/controller/naming.go:33-42 | Instance names of up to 63 characters are spelled out, prefix, namespace and name; others have 63. |
| Naming.BootDiskNameSpelledOut | internal/controller/naming.go:44-46 | The same for boot disks. |
| Naming.DataDiskNameSpelledOut | internal/controller/naming.go:56-58 | The same for data disks, with the index in decimal. |
| Naming.OneDashIsTrimmed | internal/controller/naming.go:28-30 | A short name that ends with dashes loses one of them, and no other loses anything. |
| Text.DigitsReadBack | internal/controller/naming.go:25 | Reading the printed hash or index back gives the number; there are no leading zeros. |
| Text.LowerCharMakesSmall | internal/controller/naming.go:28 | Capital letters, all of them and nothing else, become small. |
| Naming.ResourceNameIsLabelIff | internal/controller/naming.go:33-58 | A resource name is a host name label of at most 63 characters exactly when no dot of the full name stays in front of the cut. |
| Naming.ResourceNameIsLabel | internal/controller/naming.go:33-58 | For namespaces and names without dots every resource name is a label. |
| Naming.DottedNameIsNoLabel | internal/controller/naming.go:40-42 | A machine whose instance name is no label, although Kubernetes admits its name. |
| Naming.LateDotIsCutOff | internal/controller/naming.go:21-42 | A dot beyond the cut does no harm. |
| Naming.DataDisksDiffer | internal/controller/naming.go:56-58 | Data disks with different indices never share a name, across all machines and namespaces, truncated or not. |
| Naming.BootDiskDiffersFromDataDisk | internal/controller/naming.go:44-58 | No boot disk shares a name with any data disk. |
| Naming.DisksFromOxideMachine | internal/controller/oxidemachine_controller.go:650-670 | One attachment per data disk in order, with its size and block size and with pairwise distinct names, none the boot disk's. |
| Naming.TruncatedNamesDecode | internal/controller/naming.go:22-31 | For every text and limit, two truncated names agree exactly when their hash texts agree and the characters kept before them agree up to case. |
| Naming.CollisionIff | internal/controller/naming.go:21-58 | Exactly when two objects of one namespace, with dots in their names or not, get the same resource name. |
| Naming.LongNameHasShortTwinIff | internal/controller/naming.go:21-38 | Whatever the hash, an over-long name collides with some short one exactly when the cut falls right after the namespace, or inside the name behind a character other than a dot. |
| ProviderId.ParseInvertsPrint | internal/cloud/provider.go:12-33 | Parsing returns an id exactly for the text printing that id gives, and only for ids the UUID library accepts. |
| ProviderId.RefusalIsExplained | internal/cloud/provider.go:16-33 | Exactly which provider IDs are refused for which reason. |
| ProviderId.HolderMatchIsIdEquality | internal/cloud/provider.go:12-33 | A machine's recorded id matches the holder exactly when it is the holder's id. |
| Addresses.MachineAddressesFromNICs | internal/controller/oxidemachine_controller.go:580-614 | An error exactly when some stack is unknown; otherwise each interface has its addresses right after those of the interfaces before it, for a dual stack IPv4 and then IPv6, and there are no others. |
| Addresses.OfStacksConcat | internal/controller/oxidemachine_controller.go:580-614 | Flattening keeps the order of the interfaces. |
| Addresses.ExternalAreTheEphemeral | internal/controller/oxidemachine_controller.go:634-648 | The external addresses are exactly the ephemeral IPs. |
| Addresses.ExternalInOrder | internal/controller/oxidemachine_controller.go:634-648 | Each once, and in order. |
| Cloud.SameReasonIff | internal/controller/oxidemachine_controller.go:569-578 | When two instances give the same Ready reason. |

## Left out

- MachineController.Reconcile: reading the object, its owners and the pause gate up to constructing the client is one atomic step, and the gate's verdict is left open, since these lookups touch no cloud resource.
- ClusterController.Reconcile: the same atomic step; the owner's deletion mark is read with it.
- TwoControllers.NoFlapping: counts detach calls that take effect; calls that fail can be repeated without bound (`RefusedDetachesRepeat`).
- TwoControllers.ListedIdsAreDistinct: takes different instance names for granted; machines whose names collide would share an instance.
- TwoControllers.MachineIsRemade: the new object appears only once no reconcile of the old one is in flight, whose patch could otherwise land on it.
- TwoControllers.SystemRecovers: during the reconcile nobody else moves the IP, the cloud letting go of a destroyed holder included.
- MachineTeardown.DeletionTerminates: that things settle is assumed; an instance that never leaves a state in between keeps the finalizer for ever. A setback is a restart, an attachment of the disk, or an instance or disk made by others.
- MachineBuildup.ProductiveReconcilesEndBuildup: a setback is a deletion request, or an instance that stops, fails or goes away after it got further.
- The FNV-1a hash and the UUID library: parameters; every statement holds for all hash functions, and for all UUID checks, at most required to refuse the empty text.
- The patch helper is two writes, spec and status; its separate write of the conditions is part of the status.
- Data disks are named but not tracked: the controllers never delete them.
- The sizes, images, groups, keys and user data of a create request, and the lookups of project, VPC and subnet.
- The start-up, client construction, watches and request mapping of `cmd/main.go` and the `SetupWithManager` functions, including `oxideMachineToOxideCluster`.
- Answers that take effect only after the caller has gone on, and cached reads that lag behind.
- Names of objects in different namespaces: they can be ambiguous, since the parts are joined by the dash they may contain.
- Log messages, including the list of skipped machines, and condition timestamps.
