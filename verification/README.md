# Verified model of the metal operator

The metal operator manages bare-metal servers from Kubernetes. This project models its two intricate parts in Dafny and
proves what they promise:

- **`metalctl move`** copies custom resources from one cluster to another: it selects what the target lacks, arranges it in
  an owner forest built of pointers, creates owners before what they own, rewrites owner UIDs, copies status, and takes
  everything back when something fails.
- **The reservation of servers.** The claim controller and the server controller share servers, claims and boot
  configurations through an API server, by field-level patches without locking. Around them: the registry that probes report
  to, the boot order, and the discovery of servers by BMCs.

`dafny verify dfyconfig.toml` checks the whole project.

## How it is built

`Resources` is the target cluster of a move, a class whose calls may fail at any time; a ghost counter `faults` counts the
failures, and `stages` records the set of objects present after every write. `OwnerForest` builds the pointer graph and says
which forest it is, `Creation` creates it recursively, `MoveCommand` is the command.

The reservation protocol is modelled twice, each time as finely as its properties need. `Interleaving` takes single API
calls as steps: each worker acts on the copies it has read, and users and other workers step in between; `Naming` says when
users may name a server. `World` takes whole
reconciles: a reconcile is the list of its writes, its *plan*, computed from the state it starts in, and since every error
ends a reconcile, one that fails performs a prefix of its plan. `Reservation` proves what every prefix of every plan keeps,
`PowerCommands` when machines are switched on, `Progress` what repeated reconciles reach, `Convergence` that a claim gets
its server also while servers are reconciled in between and calls fail, `Serving` that its machine then follows, `Startup`
that new servers become Available; `Unbinding` builds a run in which a claim loses its server. `Refinement` shows that every
run of `World` is a run of `Interleaving`. `ApiServer`, `ClaimController` and `ServerController` are the reconcilers themselves, call by call and with calls
that fail, proved to perform exactly those prefixes; `Operator` concludes that whatever is scheduled and whichever calls
fail, an execution is a run of `World`, in its states and in its writes and commands, so that what is proved of runs holds of
the code. `Registry` is the registry server, and `Reports` links it to the registry of a run. `Metal` holds the objects and
the search for a server.

## What the proofs show about the code

- A failed move restores the target exactly if the deletions succeed; each failed deletion leaves one object
  (docs/usage/metalctl.md:48-51 promises restoration without that condition).
- A rollback deletes in the order of creation, so while it lasts an object can be there without its owner.
- The forest holds the CRs whose first-owner chain leaves the set. CRs on or below an ownership cycle are silently left
  behind by a move that reports success.
- Running `move` a second time changes nothing, but reports an error if and only if the first run rewrote an owner reference:
  owner UIDs are not among the fields that the comparison ignores. That comparison covers labels, annotations and status,
  not only the specification, as the documentation says.
- Finalising a claim clears the claim reference of the server it names, whoever that server belongs to. Bound claims stay
  coherent exactly as long as no claim is finalised against a server that a live Bound claim names.
- A claim whose `serverRef` is unset releases nothing when it is finalised: a server it already holds stays claimed.
- A claim is not reconciled while the machine it names runs, because a server named by reference must be off: whoever edits
  the power or the image of a claim whose machine is on changes nothing until the machine is off for another reason.
- Clean-up drops the boot reference unless name *and* namespace differ from the claim's, so a reference to another
  configuration in the claim's namespace is dropped too.
- Naming a server for a claim is harmless if and only if the claim holds no other server and the worker is not about to take
  another one or to choose: a claim that holds nothing also ends up with a server it does not name if its user names one
  while the worker has already chosen another. What a user can check is whether the claim has no finalizer yet, or holds the
  server already.
- A server created with `power: On` is switched on in Initial before any boot configuration was looked at. It is the only way
  to be switched on without a configuration seen Ready.
- The documentation describes a Cleanup state after Reserved (docs/concepts/servers.md:59-60); the code goes from Reserved
  back to Available.
- `applyBootOrder` panics if and only if the BMC reports fewer boot entries than the spec has. Calling it twice issues no
  second command if entries of equal priority name the same device; otherwise the outcome depends on how ties are broken.

## Model

| member | source | states |
|---|---|---|
| `OwnerForest.OwnerReferenceTrees` | cmdutils/move.go:103-119 | the two loops over shared, mutable nodes yield one node per CR, as roots the CRs without an owner in the set and, as each node's children, the CRs it is first owner of, in list order |
| `OwnerForest.NewNodes` | cmdutils/move.go:104-108 | one fresh childless node per CR, found by its UID |
| `OwnerForest.HangUp` | cmdutils/move.go:111-116 | one turn of the second loop: the CR becomes a root or is appended to its owner's children, and no other node changes |
| `OwnerForest.PointersFormForest` | cmdutils/move.go:103-119 | with distinct UIDs, even for cyclic ownership, no node is a child twice, no root is a child and no root is listed twice |
| `OwnerForest.ChainsUnique` | cmdutils/move.go:111-115 | a CR is reached from the roots along at most one chain of first owners |
| `OwnerForest.BelowIsOffPath` | cmdutils/move.go:131-177 | what hangs below a chain of owners is not on it, so the recursion ends |
| `OwnerForest.GraphModelsForest` | cmdutils/move.go:98-119 | the pointer graph below every chain is the finite forest of the specification |
| `OwnerForest.ForestMembers` | cmdutils/move.go:103-119 | the forest below a chain holds exactly the CRs that some longer chain ends in |
| `OwnerForest.ForestNoDuplicates` | cmdutils/move.go:103-119 | it holds each of them once |
| `OwnerForest.ForestHoldsRooted` | cmdutils/move.go:103-119 | the forest holds each CR whose first-owner chain leaves the set exactly once, and no other |
| `OwnerForest.AcyclicIsComplete` | cmdutils/move.go:103-119 | without ownership cycles it holds every CR |
| `OwnerForest.UnrootedHasUnrootedOwner` | cmdutils/move.go:110-117 | a CR that is left out has an owner in the set that is left out too |
| `Creation.CreateLevel` | cmdutils/move.go:139-152 | the first loop creates a prefix of the level, all of it on success; what is new is exactly what it returns, with owner references rewritten |
| `Creation.CreateOne` | cmdutils/move.go:140-151 | one create: either nothing changed, or one new object with a fresh UID, the given body and no status |
| `Creation.CopyStatus` | cmdutils/move.go:179-192 | on success the object's status is the source's, and nothing else of it but its version changed |
| `Creation.Await` | cmdutils/move.go:155-160 | bounded polling returns the object as stored, and gives up only on a failure |
| `Creation.MoveBelow` | cmdutils/move.go:155-170 | status and everything below one CR; on failure the objects created so far are reported, each once |
| `Creation.MoveCrs` | cmdutils/move.go:131-177 | whatever fails at whatever depth, the returned list is a prefix of the creation order and holds exactly the new objects, once each; existing objects are unchanged; success creates the whole forest with every child's reference on its parent's new UID; failure without a failing call means that an object was in the way |
| `Creation.ForestOwnersFirst` | cmdutils/move.go:139-169 | in the creation order an owner precedes what it owns |
| `Creation.StagesHoldOwners` | cmdutils/move.go:139-169 | at every intermediate point an object that has been created has its tree parent there |
| `MoveCommand.LandedAlong` | cmdutils/move.go:139-174 | a created forest reaches the end of every owner chain, with the UID of the owner before it |
| `MoveCommand.LandedIsFaithful` | cmdutils/move.go:139-192 | every moved CR has the source's body and status; a single reference to a moved owner is to its new UID, other references are unchanged |
| `MoveCommand.Cleanup` | cmdutils/move.go:121-129 | deleting what was created leaves the earlier objects unchanged and one object per failed deletion; all its writes are deletions; without failures the target is as before and the deletions came in the order of creation |
| `MoveCommand.RollbackOrphans` | cmdutils/move.go:121-129 | during a rollback without failures an owner is gone while what it owns is still there |
| `Resources.ClearFieldsIsContent` | cmdutils/move.go:53-67 | two objects are equal after clearing if and only if key, owners, content, status fields and, one by one, kind and value of the conditions agree |
| `MoveCommand.GetCrsToBeMoved` | cmdutils/move.go:69-96 | selects exactly the CRs the target lacks, in order, if every other one agrees with the target's object in owners, content and status; fails only on a failing call or on an object that does not |
| `MoveCommand.MissingMembers` | cmdutils/move.go:74-81 | the selection holds the absent CRs and no others, and stays free of duplicates |
| `MoveCommand.MoveMissing` | cmdutils/move.go:214-226 | the command after the selection: it completes or rolls back, and rolls back only after a failing call |
| `MoveCommand.Move` | cmdutils/move.go:194-229 | all or nothing: earlier objects are never changed, a failed move takes back what it created, success moves exactly the CRs whose chain leaves the set, faithfully, and leaves nothing to move; owners are present at every stage until a rollback starts, and from then on there are only deletions; a dry run and a conflict write nothing; without failing calls the outcome is determined |
| `MoveCommand.MovedLeavesNothing` | cmdutils/move.go:194-229 | after a successful move no missing CR is a root of what is missing |
| `MoveCommand.EmptyForest` | cmdutils/move.go:110-117 | there is nothing to create if and only if each missing CR waits for an owner that is missing too |
| `MoveCommand.ConflictAfterMove` | cmdutils/move.go:53-96 | after a successful move source and target differ in more than the cleared fields if and only if a reference was rewritten to a different UID |
| `MoveCommand.MoveAgain` | cmdutils/move.go:194-229 | a run after a successful one leaves every object as it is and writes nothing; without failing calls it reports an error exactly if the successful one rewrote a reference |
| `MoveCommand.MoveTwice` | cmdutils/move.go:194-229 | after a successful run and another one the target still holds exactly the CRs to be moved, faithfully copied, and what it held before; the second outcome is determined |
| `MoveCommand.CycleStaysBehind` | cmdutils/move.go:110-117 | two CRs that own each other are never moved, and leave nothing to move |
| `Metal.BySelectorPicks` | internal/controller/serverclaim_controller.go:357-384 | the selector strategy returns a matching, claimable server if there is one among those listed, and nothing otherwise |
| `Metal.PreviouslyUsedIsOwn` | internal/controller/serverclaim_controller.go:386-396 | a previously used server is one that refers to this claim by name, namespace and UID; none is missed |
| `Metal.FirstFreeIsFree` | internal/controller/serverclaim_controller.go:408-419 | the first best server is unclaimed and Available; none is missed |
| `Metal.CandidateIsFreeOrOwn` | internal/controller/serverclaim_controller.go:295-420 | whatever the strategy, the server chosen is free or the claim's own and a free one is in a claimable state; a claim with a reference gets the server it names; with a reference or a selector the server is Available or Reserved, is off, and matches the selector; a claim with neither gets its own server or an Available free one, and a free one only if it holds none |
| `Metal.NoCandidateNoServer` | internal/controller/serverclaim_controller.go:295-420 | a claim that gets no server could not have had one: the named server, or each server, lacks something the strategy asks for |
| `Metal.SelectorOperators` | internal/controller/serverclaim_controller.go:346-353 | what the four selector operators mean for a label that is there and for one that is not |
| `Metal.SelectorsConjoin` | internal/controller/serverclaim_controller.go:359-366 | all requirements of a selector must be met |
| `Interleaving.ClaimsAreExclusive` | internal/controller/serverclaim_controller.go:181-202 | in every interleaving of API calls a server's claim reference goes only from nil to a claim and from a claim to nil, although each write is an unlocked patch after an earlier read; a claimed server is Available or Reserved |
| `Refinement.StepRefines` | internal/controller/serverclaim_controller.go:129-179 | a reconcile of a claim or of a server, failing or not, and every step of the environment, is a sequence of single calls and patches from rest to rest |
| `Refinement.RunIsInterleaved` | internal/controller/serverclaim_controller.go:425-427 | every run of reconciles is a run of single calls |
| `Interleaving.NextIsSafe` | internal/controller/serverclaim_controller.go:325-420 | what every call of every worker keeps: server workers know the current state, the claim worker the current claim reference of its server |
| `Interleaving.LifecycleIsRegular` | internal/controller/server_controller.go:142-170 | in every run a server's state history is a prefix of Initial (Discovery Initial)* Discovery Available (Reserved Available)* |
| `Interleaving.ClaimsHoldOneServer` | internal/controller/serverclaim_controller.go:231-246 | at every point, also between taking a server and naming it, a claim without a selector holds at most one server, and none but the one it names, if users name servers only where that is harmless |
| `Interleaving.NamingAnotherServerTakesTwo` | internal/controller/serverclaim_controller.go:325-355 | naming another free server for a claim that holds one leads, in four steps, to its holding both |
| `Naming.HarmIsReal` | internal/controller/serverclaim_controller.go:295-323 | the condition on users is exact: from every state in which naming is not harmless, also if the claim holds nothing yet, it leads to a claim with more than the server it names |
| `Naming.MayNameIsExact` | internal/controller/serverclaim_controller.go:143-160 | in terms of the objects alone: naming is harmless wherever the worker may be if and only if the claim holds no other server and has no finalizer yet or holds this one |
| `Naming.CarefulUsersGetOneServer` | internal/controller/serverclaim_controller.go:231-246 | one server per claim in every run in which users go by what they can check |
| `Naming.TwoServersInARun` | internal/controller/serverclaim_controller.go:325-355 | a run from the initial state in which a claim ends up holding two servers |
| `Reservation.ClaimKeeps` | internal/controller/serverclaim_controller.go:64-179 | every write of every claim reconcile, also of one that fails midway, keeps the invariant |
| `Reservation.ServerKeeps` | internal/controller/server_controller.go:135-409 | every write of every server reconcile, also of one that fails midway, keeps the invariant |
| `Reservation.StepKeeps` | internal/controller/serverclaim_controller.go:129-179 | every step of the controllers and of their environment keeps the invariant |
| `Reservation.BoundIsCoherent` | internal/controller/serverclaim_controller.go:129-179 | in every run in which no claim is finalised against a server that a live Bound claim names, a live Bound claim has a server, the server carries the claim's UID, and its boot reference names an existing configuration for that claim and server |
| `Reservation.FinalisingUnbindsOthers` | internal/controller/serverclaim_controller.go:83-118 | that condition is exact: finalising a claim against a server that another live Bound claim names breaks the other's coherence |
| `Reservation.NicsComeFromTheProbe` | internal/controller/server_controller.go:336-356 | every server in Available or Reserved carries the network interfaces of some registration made earlier in the run for its system UUID |
| `Unbinding.LosesItsServer` | internal/controller/serverclaim_controller.go:83-118 | a run from the beginning in which a Bound claim is coherent up to the finalisation of another claim that names its server, and is not afterwards |
| `PowerCommands.PowerOnIsJustified` | internal/controller/server_controller.go:242-290 | every PowerOn command is issued by a reconcile that looked at the server's boot configuration before and found it Ready; or in Initial, after an earlier reconcile of the same run did or because the server was created with PowerOn |
| `PowerCommands.NoPowerBeforeReady` | internal/controller/server_controller.go:242-290 | a server not created with PowerOn is not switched on before some reconcile has looked at its boot configuration and found it Ready |
| `PowerCommands.CreatedOnIsSwitchedOn` | internal/controller/server_controller.go:242-251 | a server created with PowerOn is switched on by its third reconcile, with no boot configuration in existence |
| `PowerCommands.ObserveMeansReady` | internal/controller/server_controller.go:649-658 | only a reconcile of the server looks at its boot configuration, and what it takes for Ready is Ready |
| `PowerCommands.ObservedEarlier` | internal/controller/server_controller.go:649-658 | what a run has recorded as seen Ready was looked at by some earlier step |
| `Reports.RegistryIsReplay` | internal/controller/server_controller.go:686-723 | the registry of a run is the registry server's store after the run's registrations and deletions |
| `Reports.ReportIsLastWord` | internal/controller/server_controller.go:686-723 | the interfaces a reconcile stores are those last registered for the server's system UUID and not deleted since |
| `Progress.ClaimConverges` | internal/controller/serverclaim_controller.go:129-179 | six reconciles bring a servable claim to a fixpoint: Bound, references coherent, its configuration with its image and ignition, the server's power the claim's; further reconciles change nothing |
| `Convergence.ClaimArrives` | internal/controller/serverclaim_controller.go:129-246 | with reconciles of servers in use, failing reconciles of the claim, boot configurations that change state and changing list orders in between: once six reconciles of the claim have succeeded it is Bound and coherent, its configuration carries its image and ignition, the server has the claim's power, and reconciling the claim changes nothing |
| `Convergence.FailedReconcile` | internal/controller/serverclaim_controller.go:248-273 | a reconcile of the claim that fails, wherever it fails, loses nothing |
| `Convergence.ServerStepIsMild` | internal/controller/server_controller.go:359-409 | any part of a reconcile of an Available or Reserved server leaves other servers, the claim's configuration, the server's claim and its calm as they are |
| `Serving.ReservedResult` | internal/controller/server_controller.go:386-409 | a reconcile of a reserved server with a Ready boot configuration brings its machine to the desired power, On or Off; without one it commands nothing; the status shows what the machine was |
| `Serving.BecomesReserved` | internal/controller/server_controller.go:152-162 | a claimed server gets its finalizer, then becomes Reserved |
| `Serving.MachineFollows` | internal/controller/server_controller.go:386-409 | once a claim has arrived, three reconciles of its server without a failing call, while its configuration is Ready, bring the machine to the power the claim asks for or on its way there, whatever came in between |
| `Startup.FirstResults` | internal/controller/server_controller.go:142-155 | a server gets its first state, then its finalizer |
| `Startup.WaitResult` | internal/controller/server_controller.go:608-632 | Initial only sets the desired power to Off if it was unset with the machine off, or if the machine is on, the first boot is enforced and Off is not desired yet |
| `Startup.InitialResult` | internal/controller/server_controller.go:242-267 | otherwise it brings the machine to the desired power, puts the configuration of the probe in place and goes to Discovery; with the first boot enforced a machine that was on is off by then |
| `Startup.DiscoveryResult` | internal/controller/server_controller.go:269-357 | with a Ready configuration the machine is switched on; late, the server goes back to Initial and keeps the report; otherwise the report becomes the status, leaves the registry, and the server is Available; without a report it stays |
| `Startup.NewServerIsReadyForUse` | internal/controller/server_controller.go:227-384 | from wherever it is before Available and whatever its desired power, a server with a BMC becomes Available with the probe's report within five fault-free reconciles if the probe boots and reports in time; four more and it is off, without boot reference and ready to be claimed |
| `Progress.AvailableResult` | internal/controller/server_controller.go:359-384 | after the reconcile of an Available server its machine is off and Off is desired unless it was off before; an internal boot configuration is deleted and its reference unset, any other is left |
| `Progress.TakesWithFinalizer` | internal/controller/serverclaim_controller.go:143-153 | a claim takes a server only with its finalizer in place, in its own name, and only a free one |
| `Progress.IgnoredIsLeftAlone` | internal/controller/server_controller.go:137-140 | objects marked to be ignored are left alone, except that a claim is still finalised |
| `Progress.EditsWait` | internal/controller/serverclaim_controller.go:339-342 | while the status says that the named machine is not off, no edit of the claim has any effect |
| `Progress.Progresses` | internal/controller/serverclaim_controller.go:129-246 | every reconcile that is not at the fixpoint comes closer to it |
| `Progress.FourRounds` | internal/controller/server_controller.go:158-170 | four fault-free reconciles bring a freed server to Available, Off and unclaimed, and it has no boot reference if and only if it had none or an internal one that exists |
| `Progress.CleanupResult` | internal/controller/serverclaim_controller.go:64-120 | finalising removes the claim and its configuration and frees its server; it drops the boot reference and sets power to Off if the reference has the claim's name or namespace, and leaves both otherwise |
| `Progress.ServerIsReleased` | internal/controller/serverclaim_controller.go:64-120 | once the holder is finalised, four fault-free server reconciles reach Available, Off and unclaimed; the boot reference is gone if and only if it was nil, one that clean-up drops, or an existing internal one |
| `Progress.UnnamedServerIsNotReleased` | internal/controller/serverclaim_controller.go:83-86 | a claim finalised without a server reference leaves every server as it was, its own too |
| `ClaimController.CheckForPrevUsedServer` | internal/controller/serverclaim_controller.go:386-396 | the loop finds the first listed server that refers to the claim, or there is none |
| `ClaimController.FindFirstFree` | internal/controller/serverclaim_controller.go:408-419 | the loop finds the first listed server that is unclaimed and Available, or there is none |
| `ClaimController.FindBySelector` | internal/controller/serverclaim_controller.go:367-383 | the loop finds the first listed server that matches, is free or the claim's, is Available or Reserved, and is off, or there is none |
| `ClaimController.ClaimReconciler.ClaimServerByReference` | internal/controller/serverclaim_controller.go:325-355 | the named server if and only if it exists, is free or carries the claim's UID, is Available or Reserved, is off, and matches the selector; an error if and only if it does not exist |
| `ClaimController.ClaimReconciler.FindServer` | internal/controller/serverclaim_controller.go:295-312 | the three strategies in their order; without a failing call an error means that there is no candidate |
| `ClaimController.ClaimReconciler.EnsureObjectRefForServer` | internal/controller/serverclaim_controller.go:181-202 | writes the claim reference exactly if there is none |
| `ClaimController.ClaimReconciler.CreateOrPatchConfiguration` | internal/controller/serverclaim_controller.go:249-262 | on success the configuration has the claim's server, image, ignition and UID, and an existing one keeps its state and its kind; one controlled by something else is refused |
| `ClaimController.ClaimReconciler.ApplyBootConfiguration` | internal/controller/serverclaim_controller.go:248-273 | configuration first, boot reference second, each only if it changes; on success the configuration carries what the claim asks for and the server refers to it; a configuration controlled by something else stops it before any write |
| `ClaimController.ClaimReconciler.EnsurePowerStateForServer` | internal/controller/serverclaim_controller.go:204-217 | writes the power of a claimed server exactly if it differs |
| `ClaimController.ClaimReconciler.Bind` | internal/controller/serverclaim_controller.go:162-175 | boot configuration, then the phase if it changes, else the power |
| `ClaimController.ClaimReconciler.RemoveClaimRefFromServer` | internal/controller/serverclaim_controller.go:88-100 | clears the claim reference of a server that exists and has one |
| `ClaimController.ClaimReconciler.RemoveBootConfigRefFromServerAndPowerOff` | internal/controller/serverclaim_controller.go:281-293 | unsets boot reference and power together, unless name and namespace both differ |
| `ClaimController.ClaimReconciler.CleanupAndShutdownServer` | internal/controller/serverclaim_controller.go:83-120 | claim reference, configuration, boot reference, in this order, up to the first failing call |
| `ClaimController.ClaimReconciler.Delete` | internal/controller/serverclaim_controller.go:64-81 | clean-up first; the finalizer goes only if all of it succeeded |
| `ClaimController.ClaimReconciler.Reconcile` | internal/controller/serverclaim_controller.go:129-179 | performs the claim's plan, up to the first failing call |
| `ClaimController.ClaimReconciler.ReconcileRequest` | internal/controller/serverclaim_controller.go:47-62 | the new state is the old one after the plan cut off at the number of writes made; nothing is cut off without a failing call |
| `ServerController.ServerReconciler.PatchServerState` | internal/controller/server_controller.go:725-735 | writes the state exactly if it differs |
| `ServerController.ServerReconciler.EnsureServerPowerState` | internal/controller/server_controller.go:737-806 | commands the BMC exactly if the desired power is set and neither reached nor under way; needing a command without a BMC is an error |
| `ServerController.ServerReconciler.SetAndPatchServerPower` | internal/controller/server_controller.go:634-647 | writes the power exactly if it differs, and says whether it did |
| `ServerController.ServerReconciler.ServerBootConfigurationIsReady` | internal/controller/server_controller.go:649-658 | says Ready exactly if the referenced configuration exists and is Ready |
| `ServerController.ServerReconciler.EnsureInitialConditions` | internal/controller/server_controller.go:608-632 | stops the handler exactly if the power had to be set to Off |
| `ServerController.ServerReconciler.ApplyBootConfigurationForDiscovery` | internal/controller/server_controller.go:476-496 | the probe's configuration, then the reference to it, each only if it changes |
| `ServerController.ServerReconciler.PxeBootAndDiscover` | internal/controller/server_controller.go:257-265 | a server with a BMC goes to Discovery; one without is an error |
| `ServerController.ServerReconciler.HandleInitialState` | internal/controller/server_controller.go:242-267 | performs the plan of Initial, up to the first failing call |
| `ServerController.ServerReconciler.ExtractServerDetailsFromRegistry` | internal/controller/server_controller.go:686-723 | stores the registered interfaces; not ready exactly if there is no registration |
| `ServerController.ServerReconciler.EndDiscovery` | internal/controller/server_controller.go:328-356 | back to Initial when late; otherwise the report is stored, then the registration deleted, then the state set to Available |
| `ServerController.ServerReconciler.HandleDiscoveryState` | internal/controller/server_controller.go:269-357 | performs the plan of Discovery, up to the first failing call; nothing unless the boot configuration is Ready |
| `ServerController.ServerReconciler.EnsureInitialBootConfigurationIsDeleted` | internal/controller/server_controller.go:813-839 | deletes the configuration and unsets the reference exactly if it is an internal one |
| `ServerController.ServerReconciler.HandleAvailableState` | internal/controller/server_controller.go:359-384 | shuts the server down, then drops the internal boot configuration, up to the first failing call |
| `ServerController.ServerReconciler.HandleReservedState` | internal/controller/server_controller.go:386-409 | commands the BMC only if the boot configuration is Ready |
| `ServerController.ServerReconciler.EnsureServerStateTransition` | internal/controller/server_controller.go:227-240 | performs the plan of the server's state |
| `ServerController.ServerReconciler.UpdateServerStatus` | internal/controller/server_controller.go:423-474 | the power state in the status becomes the one the BMC reports |
| `ServerController.ServerReconciler.Reconcile` | internal/controller/server_controller.go:135-193 | performs the server's plan, up to the first failing call |
| `ServerController.ServerReconciler.ReconcileRequest` | internal/controller/server_controller.go:94-109 | the new state is the old one after the plan cut off at the number of writes made; nothing is cut off without a failing call |
| `ApiServer.RanBoth` | internal/controller/serverclaim_controller.go:129-179 | an operation that succeeded followed by another performs the one plan after the other |
| `ApiServer.RanIsCut` | internal/controller/serverclaim_controller.go:129-179 | what an operation has performed is its plan cut off after as many effects as there were writes |
| `Operator.Operate` | internal/controller/serverclaim_controller.go:423-427 | whatever is scheduled and whichever calls fail, what the reconcilers do is a run, and what they have written and commanded is what the run performs; no machine is switched on before its boot configuration was seen Ready, unless its server was created to be on |
| `Operator.CommandsAreJustified` | internal/controller/server_controller.go:242-290 | in the sequence of all effects of a run, a PowerOn command comes after an observation of that server's boot configuration as Ready, or the server was created with PowerOn |
| `Registry.StoreHoldsLastWord` | internal/registry/server.go:51-121 | the store holds details for a system if and only if they are the last registered for it and not deleted since |
| `Registry.RegistryServer.RegisterHandler` | internal/registry/server.go:51-67 | stores exactly what it was given, and only for a POST whose body decodes; the status codes otherwise |
| `Registry.RegistryServer.SystemsHandler` | internal/registry/server.go:70-96 | changes nothing and answers with the store as it was at one moment while the request was served |
| `Registry.RegistryServer.DeleteHandler` | internal/registry/server.go:99-121 | among concurrent requests, 404 only if the system was unknown at some moment, 200 only if it was known and its last act removed it |
| `Registry.KnownHasLastWord` | internal/registry/server.go:51-121 | a system is in the store if and only if there is a last registration of it that was not deleted since |
| `Registry.RegistryServer.Serve` | internal/registry/server.go:44-48 | /register answers 405, 400 or 201, and with 201 what was sent is the last word on its system; below /delete/ 200 comes exactly if the system was known and means that it has been removed; below /systems/ a GET answers 200 with the last payload registered and not deleted since, or 404 if there is none; no other request writes |
| `BootOrder.SortByPriority` | internal/controller/server_controller.go:881-883 | in place: non-decreasing priority and the same entries |
| `BootOrder.Compare` | internal/controller/server_controller.go:884-891 | the devices in order, and a change exactly if they are not what the machine's order starts with |
| `BootOrder.ApplyBootOrder` | internal/controller/server_controller.go:866-897 | success leaves the machine's order starting with the spec's devices in non-decreasing priority; an order that starts so already is left alone if ties do not matter; panics exactly when the machine reports fewer entries than the spec has |
| `BootOrder.SameDevices` | internal/controller/server_controller.go:881-891 | two sorts of such a spec give the same devices |
| `BootOrder.DeterminedIsExact` | internal/controller/server_controller.go:881-891 | all sorts of a spec give the same devices if and only if entries of equal priority name the same device; distinct priorities are enough |
| `ServerDiscovery.DecimalDenotes` | internal/bmcutils/bmcutils.go:175-177 | reading the index in a name back gives the index |
| `ServerDiscovery.ServerNameInjective` | internal/bmcutils/bmcutils.go:175-177 | the name tells BMC and index apart, whatever the BMC is called |
| `ServerDiscovery.ToLower` | internal/controller/bmc_controller.go:169-170 | capital letters become small ones, and nothing else changes |
| `ServerDiscovery.Desired` | internal/controller/bmc_controller.go:168-172 | the BMC's labels beside the server's others, its UUID in small letters, its reference and its UID as controller |
| `ServerDiscovery.Store.CreateOrPatch` | internal/controller/bmc_controller.go:167-173 | the server becomes what the BMC wants, keeping other labels; refused if something else controls it |
| `ServerDiscovery.Store.DiscoverServers` | internal/controller/bmc_controller.go:163-181 | the first systems, all on success, have their server with what was there before; every other server is untouched |
| `ServerDiscovery.DiscoveriesNeverContend` | internal/controller/bmc_controller.go:163-178 | however discoveries interleave between their reads and writes, no two BMCs write the same server, and a server written for a BMC carries its reference ever after |

## Left out

- Redfish clients, BMC sessions and waiting for a power state: a BMC is its power state, its boot order and calls that may fail; the forced power-off after a graceful one that times out is part of the same call.
- BIOS settings: they change nothing else in the model; a failure there ends the reconcile like any other.
- Deletion of servers: in runs of the controllers servers are created and not deleted, and neither are they in discovery.
- Kubernetes behaviour beyond single calls: stale informer caches, watches and requeueing, garbage collection by owner, finalizers on configurations, calls that take effect but report an error.
- Writers other than the two controllers of `status.state`, `serverClaimRef`, `spec.power` and `bootConfigurationRef`, and users who create or delete boot configurations.
- The boot configuration reconciler: any configuration may take any state at any time.
- Ignition, secrets, SSH keys and storages: they affect no other field of the model.
- Operation annotations and the indicator LED.
- HTTP, JSON and the parsing of IP addresses: requests are decoded values or a decoding failure; a panic on a malformed address counts as a failed reconcile.
- The clock: whether discovery is late is a parameter of a server reconcile.
- Invalid label selectors: a selector is a list of well-formed requirements.
- `bootConfigurationRef` is a name and a namespace: its UID is not modelled.
- Endpoint and BMCSecret controllers, webhooks, command-line handling.
- Listing the source cluster (cmdutils/move.go:30-51): the listed CRs are a parameter, with distinct UIDs and keys, as a cluster provides.
- Interleaving.ClaimsHoldOneServer: for claims without a selector, because the selector strategy may pick a second server before the first is named; and for users who name a server only where that is harmless, which is exactly what it takes.
- Reservation.BoundIsCoherent: reconciles are atomic here; claims are outside the manager's namespace.
- Progress.ClaimConverges: for claims without a selector while the environment is quiet and the servers in question are Off.
- Convergence.ClaimArrives: no other claim is reconciled and no server is in Initial or Discovery being reconciled, because either may change which servers are free; the servers in reach are not desired to be on.
- Operator.Operate: one reconcile runs at a time; interleavings of single calls are the subject of Interleaving.
