# kube-baremetal: verified models of its controllers

kube-baremetal lets instances be placed on bare metal machines: a scheduler gives an instance a
piece of hardware, a provisioner claims the hardware, has its NICs networked and an image written
by an agent that runs on the machine, and has the disks cleaned when the instance is deleted. These
Dafny modules model the controllers, the webhooks they rely on, the agent and the discovery
server's `/ready` handler, and prove what holds in every run of them.

## How the model is built

**Objects and the API server.** `Objects` and `Endpoints` hold the API objects as values. `Store`
and `Endpoints` hold the API server: every object has a version, a write carries the version that
was read and is refused when the stored object moved on, and a deleting object goes away with its
last finalizer. A write of the main resource of an instance or of hardware (`Update` in the code)
passes the webhook of its kind as well, `InstanceWebhook` or `HardwareWebhook`, and so does the
create of an endpoint (`EndpointWebhook`); a write of the status (`Status().Update`) does not.
`ApiServer` and `EndpointServer` are the clients as classes.

**One pass of a controller.** Every controller is written twice. A function `Decide` says what a
pass does with the objects it read, and asks for the next read when it needs one. A class has the
reconcile method as the controller runs it, with its loops, early returns and writes, proved equal
to `Decide` applied to the store.

**Runs.** `Lifecycle` (instances, hardware, agents, `/ready`, users) and `EndpointRuns` (endpoints,
networks, the provisioner's loop over the NICs, users) are transition systems. A reconcile is not
atomic there: every read, lock, listing, question to an agent and write is an event of its own, and
runs of different controllers and keys interleave freely; a controller has at most one run per key.
`LifecycleRefinement`, `ProvisionerRefinement` and `EndpointRefinement` show that an uninterrupted
reconcile method is a sequence of these events. Where a run is said to be continued without users,
`Unaided` says that no event of a user follows. The invariants are in
`LifecycleInvariant` and `EndpointInvariant`; the files with `Writes`, `Steps`, `Tenancy` and `Frames`
in their names prove them step by step.
`NetworkedInstances` puts the two systems together: a joint run is a run of each, and the answer
that all NICs are addressed is one event of both.

**History.** `Lifecycle.State.dirty` records whose image was last accepted on a machine and not
cleaned off since. `bound` records the hardware object `/ready` last found for a machine.
`EndpointRuns.State.home` records which instance a UID was given to.

**Numbers.** `Addresses` models IP addresses as Go's `net` package has them, byte slices of length 4
or 16 (section 2.5.5.2 of RFC 4291 for the IPv4-mapped form, section 3.1 of RFC 4632 for prefixes),
and `Value` is the number a slice stands for. Increment, comparison, masks and blocks are proved
against `Value`.

## Assumptions

- A read returns what is stored at that moment; a stale client cache is not modelled.
- Finalizers of the repository are removed only by its controllers, and nobody but the controllers
  and `/ready` writes a status. Webhooks see creates and updates of the main resource only; deletes
  and status writes pass them by (config/webhook/manifests.yaml).
- An agent IP identifies the machine, and what answers on it is the machine's current boot.
- The name a hardware object is assigned by is not empty, and UIDs are never given out twice.
- Endpoints made by the provisioner keep their labels and owner references, and endpoints of other
  origin do not name an instance as their owner.
- `Get` fills in the kind of a network, so that the index of `network.go` lists its endpoints.
- An address that is printed and parsed again is the same address.

## Results the code does not meet everywhere

- The scheduler stores pointers to its loop variable. With the language version of `go.mod` they all
  denote the last listed object. The model assigns the intended object. `Scheduler.AliasedChoiceIsRightIff`
  says when the aliased choice is acceptable, `Scheduler.AliasedAssignmentIsExclusiveIff` exactly when
  it keeps assignments exclusive, and `Scheduler.AliasedChoiceIsNotExclusive` gives a store where it does not.
- A range that ends at the greatest address makes the address scan go on from zero.
  `Allocator.ScanLeavesRange` shows an admitted network for which an address outside the range is handed out;
  `Allocator.ScanStaysInRangeIff` says exactly when that happens.
- Two kinds of deleting endpoints are never let go: those without a phase, and those whose network is
  of another group or kind and which are not yet `Deleted`. `EndpointSafety.DeletionMovesIff` says
  that these are all, `EndpointSafety.SkippedForGood` that they stay for good,
  `EndpointReachability.DeletedIsReached` that every other deletion can end, and
  `EndpointSafety.DeletedTooSoon` and `EndpointSafety.DeletedElsewhere` are runs that lead to each.
- `Contains` denies IPv4-mapped addresses inside an IPv6 block; `Networks.RangeIsInCidr` says for
  which addresses of a range that happens, and `Allocator.ContainsDeniesInRange` is an admitted network with one.
- The finalizer of a terminated instance is taken off with a write of the main resource, and the
  instance webhook refuses every such write while an agent is recorded outside of provisioning and
  cleaning. The provisioner takes the agent off when the cleaning is found done, but not when it finds
  the hardware gone. `LifecycleLingeringRun.LingeringAgentHappens` is a run in which the hardware is
  deleted between the two; `LifecycleLingering.LingeringAgentStays` shows that the instance then never
  goes away. `LifecycleLingering.DeletionEndsIff` says exactly which deletions can end, with users and
  without.
- The schema admits hardware with an empty system UUID, and `/ready` refuses to look for it. The
  deletion of an instance that claimed such hardware and has no agent never ends:
  `LifecycleIdentity.NamelessDeletionNeverEnds`, and `LifecycleNameless.NamelessDeletionHappens` is a run
  that leads there. With a UUID that several objects have it waits as long as that is so
  (`LifecycleIdentity.SharedDeletionWaits`).
- Discovered hardware is stored with status writes, past the webhook that checks it, and once it is
  stored unfit, the webhook refuses every write of taints and finalizers. `MacAddresses.PrintedParsesIff`
  says which interfaces the agent reports pass; one without an address does not.
  `HardwareConvergence.HardwareSettlesIff` gives the exact condition for the reconcile to settle,
  `HardwareConvergence.UnaddressedNeverSettles` an object that never does,
  `LifecycleUnfit.UnfitHardwareIsFrozen` that such hardware keeps its not-ready taint and its finalizers
  in every continuation, and `LifecycleUnfit.UnfitHardwareHappens` runs that lead there.
- A bond whose interfaces share a MAC address, or that lists one twice, never gets its endpoint, as the
  webhook refuses the create (`Networking.EndpointIsAdmittedIff`).
- A bond without interfaces has no MAC address to take the first of (`Networking.EmptyBondHasNoMac`);
  the API schema excludes it.

## Model

| member | source | states |
|---|---|---|
| Conditions.StatusConditions.GetCondition | apis/condition/v1/condition.go:30-38 | the loop returns the first condition of the type, or nothing |
| Conditions.StatusConditions.SetCondition | apis/condition/v1/condition.go:44-69 | refuses exactly the conditions that are not fully formed, and otherwise stores in place or appends what Upsert says |
| Conditions.UpsertReads | apis/condition/v1/condition.go:49-68 | after a set, the type reads back as set with its old transition time if the status is the same, and every other type reads as before |
| Conditions.SetIsMapUpdate | apis/condition/v1/condition.go:30-69 | the list stands for a map and a set is an update of that map, from any list |
| Conditions.SetAllReadsLast | apis/condition/v1/condition.go:30-69 | over any sequence of sets a reader sees the last well-formed set of its type, stamped with the time its status was first set without interruption |
| Conditions.SetAllKeepsTypes | apis/condition/v1/condition.go:44-69 | from distinct types, any sequence of sets keeps them distinct and in place, and adds exactly the types that were set |
| Conditions.TransitionTimeMovesWithStatus | apis/condition/v1/condition.go:56-60 | the transition time of a condition changes only in a set that changes its status |
| Agent.Manager.DoAction | pkg/agent/manager.go:89-100 | a request is accepted exactly when the boot has no action yet, and then becomes its action |
| Agent.OneActionPerBoot | pkg/agent/manager.go:89-111 | in any history of a boot the first request is the only accepted one, and the status is of that request from then on |
| Agent.Manager.CurrentStatus | pkg/agent/manager.go:102-111 | the status tells the history of the boot: none means nothing was requested, and otherwise it is of the first request, done exactly if its work ended, and failed as that end did |
| Agent.StatusTells | pkg/agent/manager.go:89-111 | the same of every history of requests and ends |
| Scheduler.InstanceScheduler.CheckTaints | controllers/baremetalinstance/scheduler.go:210-231 | the loops answer whether every repelling taint is tolerated |
| Scheduler.InstanceScheduler.Classify | controllers/baremetalinstance/scheduler.go:164-239 | the loop puts every listed object into the one slice its verdict names, in order |
| Scheduler.InstanceScheduler.Reconcile | controllers/baremetalinstance/scheduler.go:39-283 | the reconcile as it runs does to the store what one pass decides |
| Scheduler.AssignsAcceptableHardware | controllers/baremetalinstance/scheduler.go:152-276 | assigned hardware was undeleted, unowned, assigned to nobody, provisionable, selected and tolerated when listed, and nothing is assigned exactly when there is none |
| Scheduler.SlicesAddUp | controllers/baremetalinstance/scheduler.go:177-251 | every listed object is counted in exactly one slice |
| Scheduler.AliasedChoiceIsRightIff | controllers/baremetalinstance/scheduler.go:177-238 | through the shared loop variable the choice is acceptable exactly when the last listed object is |
| Scheduler.AliasedAssignmentIsExclusiveIff | controllers/baremetalinstance/scheduler.go:177-276 | through the shared loop variable assignments stay exclusive exactly when nothing listed is acceptable or nobody is assigned to the last listed object |
| Scheduler.AliasedChoiceIsNotExclusive | controllers/baremetalinstance/scheduler.go:177-276 | an exclusive store with two machines in which the shared loop variable assigns the one that is taken |
| InstanceController.Controller.Reconcile | controllers/baremetalinstance/controller.go:20-57 | sets the first phase with a status write; asks to drop the finalizer of a terminated instance with a write of the main resource, which lands exactly if the webhook admits it; and does nothing else |
| HardwareController.HardwareReconciler.FindAllNics | controllers/baremetalhardware_controller.go:294-336 | the nested loops answer whether every NIC and every bond interface was discovered |
| HardwareController.HardwareReconciler.Reconcile | controllers/baremetalhardware_controller.go:54-534 | the reconcile as it runs, in all its branches, does to the store what one pass decides; its writes of taints and finalizers land exactly if the webhook admits them |
| HardwareController.LookupOnDemand | controllers/baremetalhardware_controller.go:94-131 | a pass that looks the tenant up late decides as one that knew it |
| HardwareConvergence.ReconcileIsPass | controllers/baremetalhardware_controller.go:142-534 | a reconcile writes at most the one object, and writes nothing exactly when the object is settled or the webhook refuses the write |
| HardwareConvergence.WriteLowersMeasure | controllers/baremetalhardware_controller.go:142-531 | a pass that changes the object lowers the measure of remaining work and taint distance, duplicates counted |
| HardwareConvergence.HardwareConverges | controllers/baremetalhardware_controller.go:142-531 | from any object the loop comes to rest after 7 writes per taint and 14 more: it is settled there, or its write is refused on every pass |
| HardwareConvergence.SettledMeans | controllers/baremetalhardware_controller.go:142-242 | on settled hardware the not-ready taint is there exactly when hardware is unknown, a NIC, bond interface or all NICs are missing, or the drive is missing; the unschedulable taint exactly when it may not be provisioned |
| HardwareConvergence.HardwareSettlesRight | controllers/baremetalhardware_controller.go:142-531 | from any object with an admitted NIC list whose final discovery is fit, repeated passes settle with the two taints exactly where spec and discovery call for them, and all other taints in order |
| HardwareConvergence.HardwareSettlesIff | webhooks/baremetalhardware_webhook.go:166-218 | from any object as runs leave them, the loop settles exactly unless the final discovery is unfit and nothing is missing; the not-ready taint is there in the end exactly when something is missing or unfit |
| HardwareConvergence.UnaddressedNeverSettles | webhooks/baremetaldiscovery_webhook.go:65-70 | an object with everything its spec asks for and a NIC without an address keeps the not-ready taint after any number of passes |
| HardwareConvergence.ReconcilesConverge | controllers/baremetalhardware_controller.go:54-534 | the reconcile repeated on the versioned store comes to rest after 7 reconciles per taint and 14 more, from any object, and with the taints the spec and discovery call for if the NIC list is admitted and the final discovery fit |
| HardwareConvergence.ReconcilesSettleIff | controllers/baremetalhardware_controller.go:54-534 | the exact condition of HardwareSettlesIff on the store |
| LifecycleConditions.QuietHardwareMeans | controllers/baremetalhardware_controller.go:190-242 | in every run, hardware a reconcile leaves alone, settled or refused, carries the not-ready taint exactly when something its spec needs is missing or it was found unfit, and the unschedulable taint exactly when it may not be provisioned |
| LifecycleUnfit.UnfitHardwareIsFrozen | webhooks/baremetalhardware_webhook.go:193-205 | hardware stored with an unfit discovery stays stored in every continuation, also when deleted, with its spec, taints and finalizers, and carries the not-ready taint |
| LifecycleUnfit.UnfitHardwareHappens | controllers/baremetalhardware_controller.go:498-531 | for new hardware and any unfit discovery with everything its spec asks for, a run to where the reconcile leaves it alone with the not-ready taint |
| Provisioner.AnswerTells | controllers/baremetalinstance/provisioner.go:733-763 | an idle answer means the boot was never asked, a busy one is about its first request, and only an idle agent takes a request and reports on it from then on |
| ProvisionerController.ProvisionerReconciler.ReconcileDeleting | controllers/baremetalinstance/provisioner.go:61-271 | the deletion path with its dialogue with the agent does what one pass decides |
| ProvisionerController.ProvisionerReconciler.Image | controllers/baremetalinstance/provisioner.go:465-728 | the imaging path gives up before the agent is told anything when the network data cannot be made; an idle agent is sent the image drive, UID, name and the data of the endpoints of this instance |
| ProvisionerController.ProvisionerReconciler.Reconcile | controllers/baremetalinstance/provisioner.go:42-731 | the whole reconcile over store, agents, image requests and endpoints does what one pass decides about everything it could read |
| Discovery.Server.Ready | pkg/discovery/server.go:214-335 | an agent is bound exactly when its machine has a system UUID and one hardware object whose instance exists under the same UID and is being provisioned or cleaned; an empty UUID is a bad request |
| LifecycleSafety.NextKeepsInv | controllers/baremetalinstance/provisioner.go:42-731 | every event of every controller, machine, user and request keeps the invariant of the life cycle |
| LifecycleSafety.OwnershipAgrees | controllers/baremetalinstance/provisioner.go:139-152 | in every run an instanceRef names an existing, scheduled instance with that hardware name that is provisioned, running or cleaned |
| LifecycleSafety.ProvisionerSeesNoOtherTenant | controllers/baremetalinstance/provisioner.go:298-323 | in every run the branches for hardware of another instance are unreachable, also for reads that are out of date |
| LifecycleSafety.StaleClearingNeverLands | controllers/baremetalhardware_controller.go:244-272 | in every run the write that clears a stale reference is refused |
| LifecycleSafety.AssignmentIsExclusive | controllers/baremetalinstance/scheduler.go:152-276 | in every run no two instances have the same non-empty hardware name, and no two hardware objects the same instance |
| LifecycleAssignment.AssignedHardwareIsFree | controllers/baremetalinstance/scheduler.go:152-276 | in every run, assigned hardware was undeleted, unowned, provisionable, selected and fully tolerated as stored at a moment since which the lock is held, and at the assignment no instance has its name and it names no instance |
| LifecycleSafety.RunningMeans | controllers/baremetalinstance/provisioner.go:466-496 | in every run a running instance is scheduled and networked, has no agent, and sits on hardware that names it and carries an image accepted for it; how the image got there is stated by the next row |
| LifecycleImaged.ImagedInstanceHasImage | controllers/baremetalinstance/provisioner.go:466-728 | in every run, before an instance is imaged or runs, the machine of its hardware accepted an image for its UID, and in the same boot that imaging ended without an error |
| LifecycleNetworked.NetworkedWasAnswered | controllers/baremetalinstance/provisioner.go:441-461 | in every run an instance with the networked condition had an earlier answer, for its UID, that all NICs are addressed |
| NetworkedInstances.NetworkedInstancesAreAddressed | controllers/baremetalinstance/provisioner.go:343-496 | in every joint run, before an instance is networked or runs, every NIC of its hardware had exactly one endpoint of it, addressed, at a moment of the pass that found them all addressed |
| LifecycleSafety.CleanBeforeReuse | controllers/baremetalinstance/provisioner.go:155-268 | in every run, between images accepted on one machine for two instances, a clean action ended there without error |
| LifecycleSafety.FreeMeansClean | controllers/baremetalinstance/provisioner.go:257-268 | in every run a machine without a tenant carries nobody's image |
| LifecycleProgress.PhasesOnlyMoveForward | controllers/baremetalinstance/scheduler.go:48-150 | in every run the phase of an instance never goes back, and a deleting instance stays deleting |
| LifecycleDeletion.NextLowersRank | controllers/baremetalinstance/provisioner.go:61-271 | no event raises the rank of a deleting instance, and every write for its deletion that gets through lowers it |
| LifecycleDeletion.DeletionTakesFewWrites | controllers/baremetalinstance/provisioner.go:61-271 | in every run the deletion of an instance takes at most eight writes of its controllers |
| LifecycleDeletion.MovesUnlessHeldUp | controllers/baremetalinstance/provisioner.go:98-181 | in every run some controller would change something for a deleting instance exactly unless they are done with it, its cleaning failed, its agent did not report the end of one, or it is terminated with an agent, so that the webhook refuses |
| LifecycleReachability.DeletionMovesOn | controllers/baremetalinstance/provisioner.go:61-271 | every run with a deletion that is not done and not held up in one of these ways can be continued, whatever is in flight and without users, so that a write for it gets through and lowers its rank, and leaves no agent behind |
| LifecycleReachability.DeletionComesToRest | controllers/baremetalinstance/provisioner.go:61-271 | every run can be continued without users until the instance is gone, done with, or held up: failed, waiting, or terminated with an agent |
| LifecycleReachability.TerminatedIsReached | controllers/baremetalinstance/scheduler.go:48-99 | once the cleaning succeeded and if no agent was left behind, every run can be continued without users until the instance is gone or terminated without the finalizer of its controllers |
| LifecycleCleaning.DeletionCanEnd | controllers/baremetalinstance/provisioner.go:61-271 | the same from every moment of a deletion whose cleaning did not fail and that left no agent behind, also while it waits, if its agent is known or its hardware has a UUID of its own |
| LifecycleLingering.DeletionEndsIff | webhooks/baremetalinstance_webhook.go:150-164 | under the same condition on agent and UUID, a deletion can be continued to its end exactly if its cleaning did not fail and it is not past it with an agent; without users exactly if, in addition, it did not lose its hardware with an agent on it, unless a pass in flight saw the hardware free |
| LifecycleLingering.LingeringAgentStays | webhooks/baremetalinstance_webhook.go:150-164 | an instance that is past its cleaning with an agent keeps the agent and its finalizer in every continuation, whatever users do |
| LifecycleLingering.LostHardwareStaysLost | controllers/baremetalinstance/provisioner.go:139-151 | an instance in cleaning with an agent whose hardware is gone keeps an agent in every continuation without users, unless a pass in flight saw the hardware free |
| LifecycleLingeringRun.LingeringAgentHappens | controllers/baremetalinstance/provisioner.go:139-151 | a run to a terminating instance with an agent: its hardware is released, deleted and gone before the provisioner looks again |
| LifecycleCleaning.FailedCleaningIsFinal | controllers/baremetalinstance/provisioner.go:91-96 | once the cleaning failed, and until somebody steps in by hand, the instance stays stored, deleting, not past its cleaning and with the failed condition in every continuation |
| LifecycleIdentity.NamelessDeletionNeverEnds | pkg/discovery/server.go:214-260 | a deleting instance without an agent on hardware with an empty system UUID stays as it is on that hardware in every continuation |
| LifecycleNameless.NamelessDeletionHappens | pkg/discovery/server.go:214-260 | a run that leads there |
| LifecycleIdentity.SharedDeletionWaits | pkg/discovery/server.go:214-260 | the same while other hardware has the UUID, unless a request that found the hardware before is in flight |
| LifecycleRefinement.HardwareReconcileInSteps | controllers/baremetalhardware_controller.go:54-534 | the hardware reconcile is a sequence of events |
| LifecycleRefinement.SchedulerReconcileInSteps | controllers/baremetalinstance/scheduler.go:39-283 | the scheduler's reconcile is a sequence of events, with listing, check and assignment under the lock |
| ProvisionerRefinement.ProvisionerReconcileInSteps | controllers/baremetalinstance/provisioner.go:42-731 | the provisioner's reconcile is a sequence of events, asking only for what it needs |
| LifecycleRefinement.ControllerReconcileInSteps | controllers/baremetalinstance/controller.go:20-57 | the instance controller's reconcile is a sequence of events |
| LifecycleRefinement.ReadyInSteps | pkg/discovery/server.go:214-335 | a /ready request that binds an agent is a sequence of events |
| Addresses.Inc | controllers/baremetalendpoint/network.go:254-261 | the loop increments the slice in place, with carry |
| Addresses.IncrementAddsOne | controllers/baremetalendpoint/network.go:254-261 | the increment adds one modulo the number of addresses of that length |
| Addresses.Compare | controllers/baremetalendpoint/network.go:189 | the byte comparison the scan and the webhook use, in both directions |
| Addresses.LexIsNumeric | controllers/baremetalendpoint/network.go:189 | comparing bytes compares the numbers |
| Addresses.EqualIsSame16 | controllers/baremetalendpoint/network.go:191-214 | two addresses are Equal exactly when their 16-byte forms are the same |
| Addresses.BlockIsInterval | controllers/baremetalendpoint/network.go:175-186 | the addresses that share a prefix are those between the network address and the network address with all host bits set |
| Networks.BlockIsRange | controllers/baremetalendpoint/network.go:175-186 | a block of either family is the interval of numbers from network to broadcast address |
| Networks.ContainsIsInBlock | webhooks/baremetalnetwork_webhook.go:94-126 | Contains says that an address is in the block and of the family of the network |
| Networks.NetworkWebhook.ValidateCreate | webhooks/baremetalnetwork_webhook.go:71-166 | reports every violation and nothing else; no error exactly for networks with parsed start < end and gateway inside, and distinct nameservers of the right version |
| Networks.NetworkWebhook.ValidateUpdate | webhooks/baremetalnetwork_webhook.go:169-191 | a spec never changes |
| Networks.RangeIsInCidr | webhooks/baremetalnetwork_webhook.go:88-117 | everything between start and end of an admitted network is in its block, and exactly when Contains agrees |
| Allocator.BroadcastOf | controllers/baremetalendpoint/network.go:182-186 | the loop computes the network address with all host bits set |
| Allocator.Taken | controllers/baremetalendpoint/network.go:195-219 | the loops answer whether a nameserver or a listed endpoint holds the address |
| Allocator.FindNext | controllers/baremetalendpoint/network.go:171-228 | the scan ends and finds the least free address from start, going on from zero only past the greatest address |
| Allocator.ScanFindsLeastFree | controllers/baremetalendpoint/network.go:188-234 | below the greatest address, the scan returns the least free address of the range, and none exactly when there is none |
| Allocator.ScanStaysInRangeIff | controllers/baremetalendpoint/network.go:188-228 | the result is in the range exactly when the range stops short of the greatest address or has a free address |
| Allocator.ScanLeavesRange | controllers/baremetalendpoint/network.go:188-228 | an admitted network whose scan leaves its range |
| Allocator.AllocationCannotFailEarly | controllers/baremetalendpoint/network.go:188-234 | more addresses in the range than 3 + nameservers + addressed endpoints, and the scan finds one |
| Allocator.AllocatedIsUsable | controllers/baremetalendpoint/network.go:171-228 | an allocated address is no network, broadcast, gateway or nameserver address, nor held by a listed endpoint; with start and end in the CIDR it is in range and block unless the scan ran past the greatest address |
| Allocator.ContainsDeniesInRange | webhooks/baremetalnetwork_webhook.go:94-126 | an admitted IPv6 network, and an address in its range and block that Contains denies |
| Endpoints.Network.Reconcile | controllers/baremetalendpoint/network.go:47-250 | the reconcile as it runs does what one pass decides, with the scan over the listed addresses |
| Endpoints.Controller.Reconcile | controllers/baremetalendpoint/controller.go:36-77 | sets the first phase, and drops the finalizer of a deleted endpoint, and nothing else |
| EndpointSteps.NextKeepsInv | controllers/baremetalendpoint/network.go:160-248 | every event keeps the invariant of endpoints, listings and passes over NICs |
| EndpointSafety.NoDuplicateAddresses | controllers/baremetalendpoint/network.go:160-248 | in every run two endpoints of one network never hold equal addresses |
| EndpointSafety.AddressedHasAddress | controllers/baremetalendpoint/network.go:129-142 | in every run an addressed, undeleted endpoint has an address, and no address is one its network reserves |
| EndpointBlocks.AddressesAreInTheirBlocks | controllers/baremetalendpoint/network.go:160-248 | in every run of networks that stop short of the greatest address, every stored address is in its block, and Contains says so for its family |
| EndpointSafety.AssignedFromCompleteListing | controllers/baremetalendpoint/network.go:160-228 | in every run an address comes from the scan of an admitted network against all other endpoints of it |
| EndpointSafety.DeletionTakesThreeWrites | controllers/baremetalendpoint/network.go:90-127 | in every run a deleting endpoint with a phase is through after at most three writes, whatever happens to its network; the next two rows say that it gets there |
| EndpointReachability.DeletionMovesOn | controllers/baremetalendpoint/network.go:90-127 | every run with a deleting endpoint that is not skipped and not done can be continued, whatever is in flight, so that a write for it gets through and lowers its rank |
| EndpointReachability.DeletedIsReached | controllers/baremetalendpoint/controller.go:49-65 | every such run can be continued until the endpoint is gone, or Deleted without an address and without the finalizer of its controllers |
| EndpointSafety.DeletionMovesIff | controllers/baremetalendpoint/controller.go:49-65 | exactly which deleting endpoints no controller would change, and that those that are skipped hold no address |
| EndpointSafety.SkippedForGood | controllers/baremetalendpoint/network.go:62-127 | a deleting endpoint without a phase, or of a foreign network and not yet deleted, stays stored and deleting, with its phase and its network, in every continuation |
| EndpointSafety.DeletedTooSoon | controllers/baremetalendpoint/controller.go:49-65 | a run of two events to a deleting endpoint without a phase |
| EndpointSafety.DeletedElsewhere | controllers/baremetalendpoint/network.go:62-88 | a run of four events to a deleting endpoint of a foreign network |
| EndpointRefinement.NetworkReconcileInSteps | controllers/baremetalendpoint/network.go:47-250 | the reconcile of Network is a sequence of events, with listing and assignment under the lock |
| Networking.CollectMacs | controllers/baremetalinstance/provisioner.go:397-412 | the loops collect the MAC addresses Macs says |
| Networking.BondCollectsItsInterfaces | controllers/baremetalinstance/provisioner.go:405-411 | with unique hardware NIC names a bond collects exactly the MAC addresses of its interfaces |
| Networking.MacsAreFoundIff | controllers/baremetalinstance/provisioner.go:397-414 | a first MAC address exists exactly when an interface of the NIC was discovered |
| Networking.ReadyHardwareHasMacs | controllers/baremetalinstance/provisioner.go:397-420 | on settled hardware without the not-ready taint every NIC has a first MAC address, and a bond those of its interfaces |
| Networking.EmptyBondHasNoMac | controllers/baremetalinstance/provisioner.go:413-414 | without interfaces a bond has none |
| Networking.InstanceNetworking.EnsureEndpoints | controllers/baremetalinstance/provisioner.go:343-439 | the loop asks for an endpoint for the first NIC that has none after NICs that are addressed, which is stored exactly if the endpoint webhook admits it, and reports all addressed exactly when every NIC has one endpoint, addressed |
| Networking.EndpointIsAdmittedIff | webhooks/baremetalendpoint_webhook.go:85-111 | on hardware that was found fit, the endpoint of a NIC is admitted exactly unless it is a bond whose interfaces share a MAC address or which lists one twice |
| EndpointSafety.OneEndpointPerNic | controllers/baremetalinstance/provisioner.go:369-438 | in every run an instance has at most one endpoint per NIC |
| EndpointSafety.ListingShowsOneEndpoint | controllers/baremetalinstance/provisioner.go:434-437 | the branch for multiple endpoints is unreachable for every listing a pass holds |
| EndpointPasses.SeenWasAddressed | controllers/baremetalinstance/provisioner.go:369-441 | in every run, each endpoint a pass counts as seen was, at a moment of that pass, the only endpoint of its NIC, and addressed |
| EndpointPasses.NetworkedMeans | controllers/baremetalinstance/provisioner.go:441-461 | when the networked condition turns true, every NIC had exactly one endpoint, addressed, at a moment of the pass, and whatever endpoint it has now is that one, addressed unless it is being deleted |
| EndpointRefinement.EnsureEndpointsInSteps | controllers/baremetalinstance/provisioner.go:343-463 | the loop over the NICs is a sequence of events, and reaches the networking of the instance exactly when it reports all addressed |
| NetworkData.BuildNetworkData | controllers/baremetalinstance/provisioner.go:528-598 | the loop builds links and networks of the instance's endpoints in order, with search domains and bond monitoring |
| NetworkData.NoDataIff | controllers/baremetalinstance/provisioner.go:573-576 | no data exactly when an endpoint of the instance has no usable address |
| NetworkData.LinksResolve | controllers/baremetalinstance/provisioner.go:541-596 | every network names a link, and every member of a bond names a physical link |
| NetworkData.OnePrimaryNetwork | controllers/baremetalinstance/provisioner.go:583-596 | with one endpoint per NIC of an admitted, non-empty list, exactly one network carries a gateway |
| EndpointData.NetworkedHasOnePerNic | controllers/baremetalinstance/provisioner.go:343-463 | in every run, from the moment an instance is networked, with flags unedited and endpoints undeleted, its listed endpoints are one per NIC with the NIC's primary flag, each with address and gateway |
| EndpointData.NetworkedInstanceHasData | controllers/baremetalinstance/provisioner.go:528-598 | so network data can be made of them, every name in it resolves, and for an admitted, non-empty list exactly one network carries the gateway |
| HardwareWebhook.BareMetalHardwareWebhook.ValidateNICs | webhooks/baremetalhardware_webhook.go:79-115 | reports every fault and nothing else; no error exactly for an empty list or distinct names with one primary NIC |
| HardwareWebhook.BareMetalHardwareWebhook.ValidateCreate | webhooks/baremetalhardware_webhook.go:118-163 | a create is refused for exactly these errors: a failing list, a listed object with the UUID, discovered hardware or an instanceRef in it, and NIC faults |
| HardwareWebhook.BareMetalHardwareWebhook.ValidateHardware | webhooks/baremetaldiscovery_webhook.go:43-82 | discovered hardware is unfit for exactly these errors: no CPUs or memory, a MAC that does not parse, and names of storage or NICs that came before; it is fit exactly without one |
| HardwareWebhook.BareMetalHardwareWebhook.ValidateUpdate | webhooks/baremetalhardware_webhook.go:166-218 | an update is refused for exactly these errors: a condition type that is gone, another UUID, other or unfit discovered hardware, and NIC faults; it is admitted exactly without one |
| Networking.FitHardwareHasDistinctNames | webhooks/baremetaldiscovery_webhook.go:65-79 | hardware that passes the check has distinct NIC names, which the collected MAC addresses rely on |
| HardwareWebhook.BareMetalHardwareWebhook.Default | webhooks/baremetalhardware_webhook.go:54-75 | an object that is not being deleted gets the finalizer, and the bond mode where it is empty; a deleting one is left alone |
| InstanceWebhook.BareMetalInstanceWebhook.ValidateCreate | webhooks/baremetalinstance_webhook.go:72-100 | a create is refused for exactly these errors: a hardware name or an agent in it |
| InstanceWebhook.BareMetalInstanceWebhook.ValidateUpdate | webhooks/baremetalinstance_webhook.go:103-183 | an update is refused for exactly these errors: an emptied phase, a condition that is gone, another selector, toleration list or, before deletion, hardware name, and an agent outside of provisioning and cleaning; it is admitted exactly without one |
| EndpointWebhook.BareMetalEndpointWebhook.ValidateCreate | webhooks/baremetalendpoint_webhook.go:72-119 | a create is refused for exactly these errors: an address in it, a MAC that does not parse, and bond MACs that do not parse or repeat; it is admitted exactly without one |
| MacAddresses.PrintedParsesIff | pkg/agent/hardware.go:96-112 | the text the agent reports for an interface parses as a MAC address exactly if the address has 6, 8 or 20 bytes |
| HardwareWebhook.DefaultKeepsAllowed | webhooks/baremetalhardware_webhook.go:54-115 | defaulting never makes a NIC list admitted or refused |

## Left out

- The condition list is kept as a map from type to status (and reason, for hardware) in the objects of the transition systems; `Conditions` shows the list to be such a map, and times and messages are only there.
- Scheduler.InstanceScheduler.CheckTaints: whether one toleration tolerates one taint is a parameter, as it is Kubernetes library code.
- LifecycleSafety.CleanBeforeReuse: a machine is identified by its system UUID; an image written outside the agent is not seen.
- LifecycleDeletion.DeletionTakesFewWrites: counts writes, not retries after a refused write or waiting for the agent.
- HardwareWebhook.BareMetalHardwareWebhook.ValidateCreate: the listing of objects with the UUID, or that it failed, is a parameter. No lock is held from listing to create, so two objects can get one UUID; the life cycle does not rely on it, because `/ready` refuses a UUID with several hardware objects.
- InstanceWebhook.BareMetalInstanceWebhook.ValidateUpdate: the check that the agent's IP parses is not there, as an agent is modelled by its machine; no controller writes the main resource of an instance in a phase in which an agent is allowed.
- NetworkData.BuildNetworkData: the JSON and base64 encoding is not modelled.
- ProvisionerController.ProvisionerReconciler.Image: the image URL and the user data are fixed in the code and not part of the request here, nor is the text of the metadata around UID and name.
- LifecycleIdentity.SharedDeletionWaits: whether the other hardware with the UUID goes away is up to users and its own tenants, and not followed further.
- LifecycleCleaning.DeletionCanEnd: says that an end can be reached with an agent that cleans, not that the agent does; fairness of the controllers is not modelled.
- NetworkedInstances.NetworkedInstancesAreAddressed: the two systems agree on the answer about the NICs only; that both know the same instances otherwise is not asked for, which allows more.
- Allocator.FindNext: assumes fewer reserved and held addresses than there are 16-byte addresses when the range ends at the greatest one; otherwise the scan of the code does not end.
- EndpointSafety.NoDuplicateAddresses: one process holds the address lock; leader election is not modelled.
- Reads that fail with an error other than not found, failing lists and failing requests end a pass like any abort.
- HTTP serving, JSON, iPXE scripts, the disk work of the agent's actions, system probing, event messages, requeue delays, metadata and user data.
- The `discover` handler and the rest of the discovery webhook.
- The endpoint webhook's checks of updates: the only such write of a controller takes the finalizer off an endpoint that is Deleted, and in every run that one has no address the webhook could object to; users may edit and release more here than the webhook lets them.
- Parsing and printing of addresses; networks start from what the parser returned.
