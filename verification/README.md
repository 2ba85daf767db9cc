# Verification of the Waldur infrastructure provider

A Dafny model of the Cluster API infrastructure provider for Waldur: the WaldurMachine and
WaldurCluster controllers as programs and as step machines over an unreliable world, the cloud-init
rewriting that feeds VM creation, the capacity limits tenants are ordered with, and the merge patches
and deep copies the status writes rest on. `dafny verify dfyconfig.toml` checks all of it.

## What is modelled

**Controllers.** `MachineController.dfy` and `ClusterController.dfy` are the reconcilers as classes
whose methods update the object in memory, take snapshots, call services and return early, in the
order the Go code does. Each method is proved equal to a function of the state before it and the
replies it received (`MachineSpec.dfy`, `ClusterSpec.dfy`). A reply is arbitrary: a call may fail, a
write may be refused, stored, or stored although the caller is told it failed, and an order may be
accepted although no reply arrives. The theorems are about runs of such passes, interleaved with any
steps of others (orders advance, other parties order, projects come and go, the key-value store
changes) and with the deletion request. They are quantified over all runs, all replies and all map
iteration orders.

**The ledger.** The world keeps track of what no controller can see: `mine`, the orders accepted from
this object's controller, and `recorded`, those whose record has ever reached the stored status. The
difference is the set of *lost* orders. Every accounting theorem is stated with it, and the lost
orders are counted exactly by the faults that lose one: an order accepted without a record in memory,
or with one whose status write is not stored.

**The slot.** A machine has one slot (resource and current order), a cluster one per offering slug.
`Waldur.SlotOk` says what a stored slot promises about the marketplace; both controllers keep it, and
both deletion proofs go through one lexicographic measure on it (`Deletion.dfy`).

**Writes.** Status goes through the status subresource, so the write of the ProviderID to the main
resource stores metadata and spec, and the status in memory is the stored one again afterwards
(controllers decode the server's reply into the object). A field that the reply omits would stay in
memory, but it is then also in the new snapshot, so the status patch that follows does not write it;
the state, from which the condition is made, is present in the store of every recorded machine.
`MergePatch.dfy` is section 2 of RFC 7396 on JSON documents; `DeepCopy.dfy` is the pointer structure
of the status types with cells on the heap.

**User data.** `BlockYaml.dfy` prints and parses block mappings (section 8.2.2 of YAML 1.2.2)
character by character, because the boot script appends a raw line to printed text. `CloudInit.dfy`
holds the transformations and a small boot interpreter: boot commands, files in order, then commands
in order, where everything but the two fetch scripts has an arbitrary effect on the files.

**Layout.** Types and protocol: `Prelude`, `Waldur`, `ApiTypes`, `Clients`. Machine: `MachineSpec`,
`MachineController`, then the theorems in `MachineProofs` (invariant), `MachineTheorems`,
`MachineContract`, `MachineGates` (when orders are sent), `MachineOutcomes` (what is stored and what
Reconcile returns), `MachineSecrets`, `MachineDeletion`, `MachineLifetime` (one whole run). Cluster:
`ClusterSpec`, `ClusterController`, `ClusterProofs` (invariant), `ClusterTheorems`, `ClusterLedger`,
`ClusterReadiness`, `ClusterAnswers` (what is stored and what Reconcile returns), `ClusterProjects`,
`ClusterProjectRuns`, `ClusterDeletion`. Both: `Deletion` (the measure), `FairDeletions` (behaviours
that meet the deletion theorems' assumptions), `JointPlacement`. User data: `BlockYaml`, `TokenText`,
`AppendedToken`, `CloudInit`, `CloudInitTheorems`, `VaultToken`, `VaultTokenPasses`. The rest:
`Capacity`, `MergePatch`, `StatusPatches`, `StatusDocuments`, `DeepCopy`.

## Where the code and its promises part

- A secret_id is revoked when merging fails and on a status other than 201, but not when the order
  payload cannot be built or the order call gets no reply; the comment at lines 622-624 of
  `internal/controller/waldurmachine_controller.go` asks for revocation whenever creation fails.
  `MachineSecrets.SecretsConserved` counts these exits exactly.
- Provisioned implies a ProviderID exactly as long as no pass reads OK from an instance with no uuid
  known (`MachineContract.AnnouncedOverRuns`).
- Stripping and re-adding the token keeps the RKE2 config exactly when the bootstrap data has one entry
  for it, the config has another key, and the token reads back from a bare line
  (`CloudInitTheorems.MeaningPreserved`): the script appends to the last config entry, while only the
  first one was stripped.
- Bootstrap data without an RKE2 config entry strips to an empty token, which is stored and which the
  fetch script rejects (`VaultToken.EmptyTokenFails`).
- A cluster whose datacenters repeat a slug never becomes ready (`ClusterReadiness.ReadinessIsExact`).
- The limits reserve vSAN disks, which VM orders never ask for, and 20 GiB per system disk, which a
  machine may exceed (`Capacity.FullClusterFitsExactly`).
- A createTenant that fails after getting or creating its project, or whose reply to creating it is
  lost, leaves the project to nobody, and it outlives the cluster
  (`ClusterProjectRuns.ProjectLeftBehind`); deletion removes exactly the projects the tenants stored at
  its beginning name (`ClusterProjectRuns.ProjectsLeft`, for projects nobody else touches).

## Assumptions

- One worker per object, and reads are fresh: a pass starts from the stored object. Steps of others
  fall between passes. Inside a pass only the order's state is read from the marketplace, and the
  theorems allow any progress of it, so moving such a step before the pass, or behind it for an order
  already read, loses nothing. The
  Vault path is the exception, and `VaultToken.dfy` interleaves its calls.
- Terminal order states are absorbing, and the marketplace never reuses an order uuid.
- Replies carry the fields the code dereferences; a 201 has a body.
- Nobody edits the spec or the finalizers of an existing object, and each object has one finalizer.
- Objects start without status, as created by the API server.
- Secret_ids returned by Vault are fresh; an empty one is an error.
- The YAML around the represented cloud-init fields round-trips.

## Model

| member | source | states |
|---|---|---|
| Waldur.TerminalRecordIsFinal | internal/controller/waldur_helpers.go:190-195 | A recorded terminal state (done, erred, canceled) is the final state of that order in the marketplace |
| Waldur.RefreshKeepsRecordOk | internal/controller/waldur_helpers.go:138-159 | Refreshing an accurate order record keeps it accurate: same order, kind and resource, a state the order has been in; a terminal state does not change |
| Waldur.SlotOkGrows | internal/controller/waldur_helpers.go:138-159 | What a stored slot says of its orders stays true while the marketplace moves on and accepts further, unrecorded orders |
| Waldur.SlotOkTerminating | internal/controller/waldur_helpers.go:161-188 | Replacing a failed or missing termination by the record of a new one keeps the slot accurate: one create order, and no other recorded termination still open |
| Waldur.SlotOkCreated | internal/controller/waldurmachine_controller.go:253-266 | Storing the record of an accepted create order in an empty slot makes it the one create order ever recorded for the slot |
| Waldur.DoneSlotIsCleared | internal/controller/waldurmachine_controller.go:497-507 | A slot with nothing provisioned or a termination recorded as done has its recorded resource terminated in the marketplace and no recorded termination still open |
| Waldur.CreateAccounting | internal/controller/waldurmachine_controller.go:137-148 | Accepted create orders of a slot are exactly the lost ones plus one if the slot names a resource |
| Waldur.TerminationAccounting | internal/controller/waldur_helpers.go:161-188 | At most one termination order of a slot that is still open in the marketplace is not a lost one |
| MachineController.MachineReconciler.Reconcile | internal/controller/waldurmachine_controller.go:72-172 | A pass, statement by statement over the mutable object, its snapshot and the services, has exactly the effect and result of the pass function the theorems are about |
| MachineController.MachineReconciler.CreateVM | internal/controller/waldurmachine_controller.go:174-266 | createVM: user data, readiness checks, order, revocation on a status other than 201, and the three status fields set on success |
| MachineController.MachineReconciler.BuildOrderPayload | internal/controller/waldurmachine_controller.go:271-300 | The payload is built exactly when the tenant of the offering exists, is OK, has a project slug and a uuid, and every lookup succeeds |
| MachineController.MachineReconciler.PrepareUserData | internal/controller/waldurmachine_controller.go:177-234 | Which of the three user-data paths is taken, what it needs, and what it does to Vault |
| MachineController.MachineReconciler.BuildUserDataWithVault | internal/controller/waldurmachine_controller.go:625-672 | The token is written only when the path does not exist; nothing is issued when stripping, the check or the write fails |
| MachineController.MachineReconciler.GenerateAndMerge | internal/controller/waldurmachine_controller.go:594-614 | A secret_id is issued once and revoked when assembling the user data fails |
| MachineController.MachineReconciler.RefreshVM | internal/controller/waldurmachine_controller.go:409-468 | refreshVM in place: what each failing call leaves of the status, and Provisioned set whenever the state is OK |
| MachineController.MachineReconciler.ReconcileDelete | internal/controller/waldurmachine_controller.go:470-553 | The deletion branches in order: nothing provisioned, termination in flight, done, VM still running, submit |
| MachineController.MachineReconciler.SetReadyCondition | internal/controller/waldurmachine_controller.go:702-726 | The Ready condition as a function of the state, nothing else changed |
| MachineController.ApiServer.Patch | internal/controller/waldurmachine_controller.go:150-160 | A patch of the main resource stores the ProviderID only and reloads the status in memory from the store |
| MachineController.ApiServer.StatusPatch | internal/controller/waldurmachine_controller.go:162-166 | A status patch writes what differs from the snapshot and nothing else |
| Clients.WaldurClient.OrdersCreate | internal/controller/waldurmachine_controller.go:241-253 | A create order is accepted by a 201 and possibly by a call that got no reply |
| Clients.WaldurClient.SubmitTerminationOrder | internal/controller/waldur_helpers.go:161-188 | The marketplace effect of a termination request and the record built from its reply |
| Clients.WaldurClient.Refresh | internal/controller/waldur_helpers.go:138-159 | The record after reading the order: current state, backend uuid if reported, nothing when the read fails |
| MachineProofs.PassInv | internal/controller/waldurmachine_controller.go:72-172 | Every pass, with any replies, failures and lost acknowledgements, keeps the stored slot accurate and the finalizer ahead of the first order |
| MachineProofs.RunInv | internal/controller/waldurmachine_controller.go:72-172 | So does every run of passes, steps of others and deletion requests |
| MachineTheorems.NoOrphans | internal/controller/waldurmachine_controller.go:470-553 | Once the object is gone, every accepted create order is a lost one (never recorded) or its resource is terminated in the marketplace |
| MachineTheorems.CreateVMAdds | internal/controller/waldurmachine_controller.go:236-266 | createVM adds to the ledger exactly the order it got accepted, and writes it into the status exactly when the reply was a 201 |
| MachineTheorems.PassAdds | internal/controller/waldurmachine_controller.go:72-172 | Every pass leaves orders, ledger and record unchanged except for exactly the one order it got accepted, recorded exactly when a reply arrived and the status write was stored |
| MachineTheorems.PassLoses | internal/controller/waldurmachine_controller.go:162-166 | A pass loses exactly the order it got accepted without its record being stored |
| MachineTheorems.LostAreFaults | internal/controller/waldurmachine_controller.go:72-172 | Over a run, the lost orders of a kind are exactly as many as the passes that got one accepted and did not store its record |
| MachineTheorems.AtMostOneVM | internal/controller/waldurmachine_controller.go:137-148 | Accepted create orders per machine: at most 1 plus the faults, which are exactly the lost ones; while the object exists exactly the faults plus the recorded one |
| MachineTheorems.ResourceIsWriteOnce | internal/controller/waldurmachine_controller.go:253-266 | A stored marketplace resource uuid never changes |
| MachineTheorems.CreationSkipsProviderID | internal/controller/waldurmachine_controller.go:150-160 | A pass that creates stores CREATING with the resource of the accepted order and leaves the ProviderID alone |
| MachineTheorems.RecordNeverAhead | internal/controller/waldurmachine_controller.go:412-420 | In every reachable state the stored order exists in the marketplace with that kind and resource, in a state it has been in; a terminal one is final |
| MachineTheorems.TerminalRecordStays | internal/controller/waldurmachine_controller.go:412-428 | A terminal record changes only by being replaced with a fresh termination order |
| MachineTheorems.TerminationFollowsShutoff | internal/controller/waldurmachine_controller.go:509-548 | A termination is accepted only while deleting, with none recorded or only one that ended Erred or Canceled, when this pass read SHUTOFF, ERROR or no runtime state or no VM uuid is recorded, and for the recorded resource |
| MachineTheorems.CreationFollowsGates | internal/controller/waldurmachine_controller.go:271-300 | A create order is accepted only for a live object with the finalizer and no resource, through a tenant that passed every readiness check |
| MachineTheorems.LiveTerminationsBounded | internal/controller/waldurmachine_controller.go:484-552 | Open termination orders: at most 1 plus the faults, and only lost ones once the object is gone |
| MachineGates.TerminationExactly | internal/controller/waldurmachine_controller.go:509-552 | A termination the marketplace is willing to accept is accepted if and only if it is due: deleting, a resource, no termination under way or done, and the VM without uuid or reported SHUTOFF, ERROR or without runtime state |
| MachineGates.TerminationIsStored | internal/controller/waldurmachine_controller.go:538-552 | With its reply and a stored status the object then holds that record as pending-provider, and nothing else changed |
| MachineGates.RunningVMWaits | internal/controller/waldurmachine_controller.go:523-535 | A VM reported in any other state is stopped and waited for: the pass changes nothing and comes back, with an error when the query or the stop got no reply |
| MachineGates.TerminationsFollowShutoff | internal/controller/waldurmachine_controller.go:509-541 | Over a run every accepted termination was due in the pass that sent it |
| MachineGates.RunningVMIsKept | internal/controller/waldurmachine_controller.go:509-535 | As long as every pass is told that the VM runs, or nothing, object and terminations stay as they are |
| MachineGates.CreationExactly | internal/controller/waldurmachine_controller.go:174-251 | A create order the marketplace is willing to accept is accepted if and only if the object is live, finalized and without a resource, the gates of one of four cases are open (no Vault, Rancher agent, first RKE2 node with the token written and acknowledged, further RKE2 node with the path there), the tenant is OK with project and uuid, and the lookups succeed |
| MachineGates.CreatedOrder | internal/controller/waldurmachine_controller.go:236-251 | The accepted order is for that resource and carries the secret_id of this pass exactly when there is a Vault |
| MachineGates.CreationIsStored | internal/controller/waldurmachine_controller.go:253-266 | With a 201 and a stored status the object then holds the resource, CREATING, the record and the Ready condition of a machine being provisioned |
| MachineGates.NoCreationChangesReadyOnly | internal/controller/waldurmachine_controller.go:137-166 | A creation that is not due, turned down or unanswered changes at most the Ready condition |
| MachineGates.TokenWrittenExactly | internal/controller/waldurmachine_controller.go:638-652 | A pass writes the join token to the key-value store exactly for an RKE2 node that gets that far and finds the path absent, unless the write is refused, and writes nothing else |
| MachineOutcomes.RefreshFields | internal/controller/waldurmachine_controller.go:409-468 | Field by field, refreshVM takes over what an answered call reported and keeps the rest, however far it gets |
| MachineOutcomes.RefreshIsStored | internal/controller/waldurmachine_controller.go:144-166 | A pass over a recorded live machine stores exactly that, with the Ready condition of the state; or, when the ProviderID is due, the ProviderID and the Ready condition of the state stored before |
| MachineOutcomes.ReadyMatchesState | internal/controller/waldurmachine_controller.go:702-726 | In every reachable live state the Ready condition says what the stored state is, and a recorded machine has one |
| MachineOutcomes.IdleExactly | internal/controller/waldurmachine_controller.go:72-172 | A pass ends with neither error nor requeue exactly when the object is not there or has just gone, the finalizer was just stored, or the owner is awaited |
| MachineOutcomes.WorkIsResumed | internal/controller/waldurmachine_controller.go:137-171 | Whenever work is left the pass fails or requeues: after 300 seconds exactly when the stored live machine is OK, after 10 exactly while the bootstrap data is awaited, after 15 otherwise |
| MachineOutcomes.LiveFailure | internal/controller/waldurmachine_controller.go:99-166 | A live pass fails only over the API server: an unreachable owner or a write that is not acknowledged |
| MachineOutcomes.DeletingOutcome | internal/controller/waldurmachine_controller.go:470-553 | What a deleting pass answers: removal, polling, and a request without a usable reply |
| MachineOutcomes.NeverForgotten | internal/controller/waldurmachine_controller.go:72-172 | Over a run no pass that leaves work ends without asking for the next one |
| MachineOutcomes.DeletionIsDriven | internal/controller/waldurmachine_controller.go:470-553 | The rounds that the termination theorem counts on are asked for by the controller itself until the object is gone |
| MachineLifetime.ProvisioningReachable | internal/controller/waldurmachine_controller.go:72-266 | A legal run from a fresh object to a settled machine on the RKE2 path, with the token in Vault and the secret_id in the order |
| MachineLifetime.RemovalReachable | internal/controller/waldurmachine_controller.go:470-553 | It goes on through a stop and a termination to the end of the object, with the VM terminated |
| MachineContract.ProvisionedImpliesProviderID | internal/controller/waldurmachine_controller.go:150-166 | In every reachable live state Provisioned implies the VmUuid and the ProviderID made from it, when instances report one fixed uuid with OK |
| MachineContract.StepContract | internal/controller/waldurmachine_controller.go:150-166 | A stored ProviderID never changes and a stored Provisioned never reverts |
| MachineContract.AnnouncedExactly | internal/controller/waldurmachine_controller.go:151-166 | Any step keeps a live object from announcing OK or Provisioned without a ProviderID, except exactly a pass that reads OK from the instance with no uuid in reply or store |
| MachineContract.AnnouncedOverRuns | internal/controller/waldurmachine_controller.go:144-166 | Over a run, no state announces without a ProviderID if and only if no pass reads OK with no uuid known |
| MachineContract.UuidlessOKIsAnnounced | internal/controller/waldurmachine_controller.go:448-465 | An instance reported OK without uuid leads to Provisioned stored without a ProviderID |
| MachineContract.TwoPassesSettle | internal/controller/waldurmachine_controller.go:144-171 | Two error-free passes with a stable instance end with State, VmUuid, ProviderID, Provisioned and Ready stored and agreeing |
| MachineContract.ReachableSettles | internal/controller/waldurmachine_controller.go:144-171 | That holds from every reachable recorded state of a live machine |
| MachineContract.OnePassDoesNotSettle | internal/controller/waldurmachine_controller.go:156-159 | One pass is never enough from a state without ProviderID, because that write does not carry the status |
| MachineContract.SettledIsFixed | internal/controller/waldurmachine_controller.go:162-171 | A settled machine with a terminal order is a fixed point, visited every 300 seconds |
| MachineSecrets.BuildIssues | internal/controller/waldurmachine_controller.go:594-614 | Building user data issues at most one fresh secret_id and either hands it on or has it revoked |
| MachineSecrets.PassSecrets | internal/controller/waldurmachine_controller.go:174-250 | Each pass issues at most one secret_id, which ends in exactly one class; older ids keep theirs |
| MachineSecrets.SecretsConserved | internal/controller/waldurmachine_controller.go:180-250 | Over a run every issued id is embedded in exactly one accepted order, or handed to revocation, or left behind; the last are counted exactly by the payload failures and unanswered, unaccepted orders |
| MachineSecrets.UnreadyTenantLeavesSecret | internal/controller/waldurmachine_controller.go:236-239 | A tenant that is not ready leaves the issued secret_id unrevoked, contrary to the comment at lines 622-624 |
| Deletion.RoundDecreases | internal/controller/waldurcluster_controller.go:376-412 | Every deletion round strictly decreases (failing orders left, stage, rounds left in the stage) |
| Deletion.SlotTerminates | internal/controller/waldur_helpers.go:161-195 | Hence every fair sequence of rounds reaches a termination recorded as done |
| MachineDeletion.PassSlot | internal/controller/waldurmachine_controller.go:482-552 | What a deleting pass with successful calls does to the order record: poll, wait, submit or finish |
| MachineDeletion.MachineDeletionTerminates | internal/controller/waldurmachine_controller.go:470-553 | In every fair behaviour, infinite in length, the finalizer of a deleted machine is removed after finitely many rounds |
| FairDeletions.FairMachineDeletion | internal/controller/waldurmachine_controller.go:470-553 | Some behaviour meets those assumptions and deletes a machine with a VM: submit, poll, remove |
| ClusterController.ClusterReconciler.Reconcile | internal/controller/waldurcluster_controller.go:466-548 | A cluster pass over mutable tenants, snapshot and services has exactly the effect and result of the pass function |
| ClusterController.ClusterReconciler.ReconcileTenants | internal/controller/waldurcluster_controller.go:509-547 | Snapshot, loop, readiness, status patch, endpoint and requeue of a live pass |
| ClusterController.ClusterReconciler.UpdateTenants | internal/controller/waldurcluster_controller.go:511-531 | The loop over the datacenters refreshes a tenant in place or creates it, skipping what fails |
| ClusterController.ClusterReconciler.RefreshTenant | internal/controller/waldurcluster_controller.go:176-236 | refreshTenant in place: what each failing call leaves of the tenant |
| ClusterController.ClusterReconciler.GetOrCreateProject | internal/controller/waldurcluster_controller.go:56-88 | The project is there after a reply, and also after a failed call that created it; only a reply tells its slug |
| ClusterController.ClusterReconciler.CreateTenant | internal/controller/waldurcluster_controller.go:239-295 | createTenant, including the accepted order it forgets when the backend tenant cannot be read and the project it creates without a reply |
| ClusterController.ClusterReconciler.SetReadyCondition | internal/controller/waldurcluster_controller.go:550-585 | Readiness and Provisioned as decided from sizes and tenant states |
| ClusterController.ClusterReconciler.PendingTenant | internal/controller/waldurcluster_controller.go:596-603 | The scan finds a pending tenant exactly when there is one |
| ClusterController.ClusterReconciler.ErredTenant | internal/controller/waldurcluster_controller.go:587-594 | The scan finds an erred tenant exactly when there is one |
| ClusterController.ClusterReconciler.ReconcileDelete | internal/controller/waldurcluster_controller.go:367-443 | Termination loop, status patch, project loop and finalizer removal, for every order the runtime ranges over the maps in |
| ClusterController.ClusterReconciler.TerminateTenants | internal/controller/waldurcluster_controller.go:376-412 | The loop visits every tenant once and reports all done exactly when every stored tenant was finished |
| ClusterController.ClusterReconciler.TerminateTenant | internal/controller/waldurcluster_controller.go:377-411 | One iteration changes its own tenant only |
| ClusterController.ClusterReconciler.DestroyProjects | internal/controller/waldurcluster_controller.go:423-433 | The project loop stops at the first error; for some order of the tenants that is what it deleted |
| ClusterController.ClusterReconciler.DeleteProject | internal/controller/waldurcluster_controller.go:337-365 | A project already gone counts as deleted |
| ClusterController.ClusterReconciler.ReconcileControlPlaneEndpoint | internal/controller/waldurcluster_controller.go:626-688 | The endpoint is written once, only while unset |
| ClusterController.MergeOntoSnapshot | internal/controller/waldurcluster_controller.go:536-538 | Patching the status the snapshot was taken of stores the tenants in memory, removals included |
| ClusterProofs.RefreshTenantKeeps | internal/controller/waldurcluster_controller.go:176-236 | A refresh, complete or not, keeps the slot accurate and the resource, project and order uuid unchanged |
| ClusterProofs.VisitDatacentersOk | internal/controller/waldurcluster_controller.go:516-531 | After any number of iterations every tenant in memory has an accurate slot and a slug of the spec, whichever calls failed and even if slugs repeat |
| ClusterProofs.VisitAllDeletingOk | internal/controller/waldurcluster_controller.go:376-412 | The same for the deletion loop, in any order |
| ClusterProofs.RunClusterInv | internal/controller/waldurcluster_controller.go:466-548 | Every run keeps all stored slots accurate and the finalizer ahead of the first order |
| ClusterTheorems.NoOrphanTenants | internal/controller/waldurcluster_controller.go:376-442 | Once the object is gone, every accepted tenant order is a lost one or its resource is terminated, and no recorded termination is open |
| ClusterTheorems.TenantRecordNeverAhead | internal/controller/waldurcluster_controller.go:179-205 | Per slug, the stored order is accurate, a terminal one is final, and open terminations are at most one plus the lost ones |
| ClusterLedger.CreationAdds | internal/controller/waldurcluster_controller.go:516-531 | An iteration of the datacenter loop adds to the ledger exactly the create order it got accepted, and memory records it exactly unless no reply came or the tenant could not be read afterwards |
| ClusterLedger.TerminationAdds | internal/controller/waldurcluster_controller.go:377-411 | An iteration of the deletion loop adds exactly the termination order it got accepted, recorded exactly when the reply carried a uuid |
| ClusterLedger.StepLoses | internal/controller/waldurcluster_controller.go:466-548 | A step loses exactly the orders its iterations got accepted and that are forgotten or whose status write was not stored |
| ClusterLedger.LostTenantsAreFaults | internal/controller/waldurcluster_controller.go:466-548 | Over a run the lost orders of a slug and kind, creations and terminations alike, are exactly as many as those faults |
| ClusterLedger.AtMostOneTenant | internal/controller/waldurcluster_controller.go:516-538 | Accepted tenant orders per slug: at most 1 plus the faults, which are exactly the lost ones; while the object exists exactly the faults plus the recorded one |
| ClusterLedger.OpenTerminationsBounded | internal/controller/waldurcluster_controller.go:376-442 | Open termination orders per slug: at most 1 plus the faults, and no more than the faults once the object is gone |
| ClusterTheorems.LoopKeepsTenant | internal/controller/waldurcluster_controller.go:516-531 | The datacenter loop never drops a stored tenant or changes its order uuid, resource or project |
| ClusterReadiness.ReadyExactly | internal/controller/waldurcluster_controller.go:550-603 | Comparing sizes suffices: Provisioned and Ready are set exactly when slugs are distinct, the tenant keys are the slugs and every tenant is OK |
| ClusterReadiness.ReadinessIsExact | internal/controller/waldurcluster_controller.go:533-538 | In every reachable live state a stored Provisioned flag equals that condition and the Ready condition agrees; duplicate slugs never become ready |
| ClusterAnswers.RefreshFields | internal/controller/waldurcluster_controller.go:176-236 | Field by field, refreshTenant takes over what an answered call reported and keeps the rest, however far it gets |
| ClusterAnswers.KnownTenantTells | internal/controller/waldurcluster_controller.go:516-523 | After the loop a stored tenant has the state, name, uuid and resource state reported to it in this pass, or the old ones |
| ClusterAnswers.NewTenantExactly | internal/controller/waldurcluster_controller.go:239-295 | After the loop a new slug has a tenant exactly when its order came through, and it is the tenant of that order in the project the call named |
| ClusterAnswers.ReadinessFollowsReports | internal/controller/waldurcluster_controller.go:533-585 | A live pass that stores its status announces the cluster exactly when slugs are distinct and every tenant is told OK, and failure exactly when all have ended and one is told ERRED |
| ClusterAnswers.ReadinessOfReported | internal/controller/waldurcluster_controller.go:224-226 | With a backend state reported to every tenant, Provisioned is stored as true exactly when slugs are distinct and every reported state is OK |
| ClusterAnswers.DeletingTenantTells | internal/controller/waldurcluster_controller.go:376-412 | After the deletion loop, in any order, a finished tenant is as it was, one being terminated has been refreshed, and any other holds the record of its new termination if a usable reply came and is otherwise as it was |
| ClusterAnswers.DeletingTenantsStored | internal/controller/waldurcluster_controller.go:414-417 | A deleting pass stores exactly those tenants, or nothing when the write is refused |
| ClusterAnswers.EndpointExactly | internal/controller/waldurcluster_controller.go:626-684 | A pass sets the endpoint exactly when none is set, an address was found and both writes went through, and to that address |
| ClusterAnswers.EndpointIsWriteOnce | internal/controller/waldurcluster_controller.go:627-629 | Over any run an endpoint that is set never changes |
| ClusterAnswers.ClusterIdleExactly | internal/controller/waldurcluster_controller.go:466-548 | A pass ends with neither error nor requeue exactly when the object is not there or has just gone, the finalizer was just stored, or the owner is awaited |
| ClusterAnswers.ClusterWorkIsResumed | internal/controller/waldurcluster_controller.go:536-547 | Whenever work is left the pass fails or requeues: after 300 seconds exactly when every tenant of the stored live cluster is OK or ERRED, after 15 otherwise |
| ClusterAnswers.ClusterFailure | internal/controller/waldurcluster_controller.go:414-422 | A live pass fails exactly when its status write is not acknowledged; a deleting pass waits exactly when it is and some stored tenant is unfinished |
| ClusterAnswers.ClusterNeverForgotten | internal/controller/waldurcluster_controller.go:466-548 | Over a run no pass that leaves work ends without asking for the next one |
| ClusterReadiness.PlacementIsStable | internal/controller/waldurmachine_controller.go:277-307 | Any two moments of a cluster at which an offering passes the readiness checks resolve it to the same tenant resource and project, each with resource state OK |
| JointPlacement.OnePlacePerOffering | internal/controller/waldurmachine_controller.go:277-307 | In every joint run of a cluster and its machines, any two accepted VM orders of one offering went through the same tenant resource and project |
| ClusterReadiness.RunKeepsPlacement | internal/controller/waldurcluster_controller.go:189-192 | A stored tenant's slug, resource and project are write-once over live and deleting passes |
| ClusterProjects.DeleteProjectsExact | internal/controller/waldurcluster_controller.go:423-433 | Deleting projects removes nothing but the tenants' projects, and all of them on success |
| ClusterProjects.DeleteProjectsStops | internal/controller/waldurcluster_controller.go:423-433 | On failure the loop has stopped at one tenant: the projects before it are gone, those behind it untouched |
| ClusterProjects.DeletePassProjects | internal/controller/waldurcluster_controller.go:414-442 | A deleting pass touches projects only when every stored tenant is finished, and the object goes only after all its projects |
| ClusterProjects.ProjectsGoLast | internal/controller/waldurcluster_controller.go:419-433 | A project disappears, unless others remove it, only when every stored tenant is finished, it belongs to one of them and every recorded tenant is released in the marketplace |
| ClusterProjects.ProjectsRestartable | internal/controller/waldurcluster_controller.go:423-439 | Through any failures and restarts, a project that others leave alone is left at the end exactly when it was there at the beginning and no tenant names it, shared or not |
| ClusterProjectRuns.ProjectsLeft | internal/controller/waldurcluster_controller.go:239-292 | Over a whole life, once the object is gone, a project that others leave alone is there exactly when it was there at the start or got or created since, with or without a reply, and no tenant stored at the beginning of the deletion names it |
| ClusterProjectRuns.ProjectWithoutTenant | internal/controller/waldurcluster_controller.go:240-253 | A createTenant whose offering lookup fails, or whose project was created by a call that got no reply, has that project and returns no tenant |
| ClusterProjectRuns.ProjectLeftBehind | internal/controller/waldurcluster_controller.go:239-253 | A run of four steps that ends with the object gone and such a project left |
| ClusterDeletion.LoopSteps | internal/controller/waldurcluster_controller.go:376-412 | Every tenant takes its own step of the protocol in every pass, whatever the visiting order |
| ClusterDeletion.ClusterSlotRound | internal/controller/waldurcluster_controller.go:376-412 | A cluster pass is a round of the slot protocol for every tenant at once |
| ClusterDeletion.ClusterDeletionTerminates | internal/controller/waldurcluster_controller.go:367-443 | In every fair behaviour a deleted cluster's finalizer is removed after finitely many rounds |
| FairDeletions.FairClusterDeletion | internal/controller/waldurcluster_controller.go:367-443 | Some behaviour meets those assumptions and deletes a cluster with a tenant and a project |
| VaultToken.TokenInPlace | internal/controller/waldurmachine_controller.go:638-648 | For every interleaving of checks, writes, orders and restarts of many machines with one token, lost acknowledgements included, the path is absent or holds it, and no order is accepted before it is there |
| VaultToken.DifferentTokensFail | internal/controller/waldurmachine_controller.go:639-648 | Two machines with different tokens have an interleaving in which one node fetches the other's token |
| VaultToken.EmptyTokenFails | internal/controller/cloudinit.go:76-100 | Bootstrap data without a config entry stores the empty token, which the fetch script rejects |
| VaultToken.SafeExactly | internal/controller/waldurmachine_controller.go:638-648 | All interleavings are safe if and only if the machines' tokens agree and are not empty |
| VaultTokenPasses.PassIsCalls | internal/controller/waldurmachine_controller.go:625-672 | Every creating pass on the RKE2 path is a sequence of those actions: the path, the acceptance and whether the machine starts over come out the same |
| BlockYaml.PrintedReadsBack | internal/controller/cloudinit.go:80-95 | A printed config parses back to the map, for every order of its keys and every choice of plain, single-quoted or double-quoted style for its strings, whatever characters they hold |
| BlockYaml.PrintedThen | internal/controller/cloudinit.go:268-269 | A printed config with any text behind it parses as its entries merged with what that text says |
| TokenText.InjectExactly | internal/controller/cloudinit.go:268-269 | A token line behind a printed token-free config gives that config with the token if and only if the config is not empty and the token is a plain scalar that reads as a string |
| TokenText.InjectNeedsStrip | internal/controller/cloudinit.go:90-90 | Behind a config that still has its token the line is a duplicate key and the text does not parse |
| TokenText.TypedTokenChangesType | internal/controller/cloudinit.go:268-269 | A token that reads as a number, boolean or null comes back as one |
| TokenText.EmptyConfigFails | internal/controller/cloudinit.go:91-95 | A config with nothing but the token prints as an empty flow map, behind which the line does not parse |
| TokenText.ConfigIsValid | internal/controller/cloudinit.go:80-83 | Whatever parses can be printed again, with or without its token |
| AppendedToken.InjectChanges | internal/controller/cloudinit.go:268-269 | Behind any text that parses, printed or hand-written, with or without a final line break, a token line changes what it says or breaks it |
| AppendedToken.ConcatParses | internal/controller/cloudinit.go:268-269 | Lines behind lines that parse add their entries, and fail on a repeated key |
| CloudInit.StripRKE2Token | internal/controller/cloudinit.go:70-101 | The scan rewrites the first config entry in place and stops; it fails exactly when the input or that entry does not parse or has no non-empty string token |
| CloudInit.Marshal | internal/controller/cloudinit.go:91-95 | The printed text is the map's entries in some order and some choice of styles |
| CloudInit.MergeCloudInit | internal/controller/cloudinit.go:213-289 | Static before bootstrap, Vault files and the fetch command in front; failure exactly when an input does not parse |
| CloudInit.BuildRancherAgentUserData | internal/controller/cloudinit.go:132-201 | Credentials, script and agent start in front of the static template |
| CloudInitTheorems.MeaningPreserved | internal/controller/cloudinit.go:213-289 | Booting the merged data: before any template or bootstrap command runs, all files but the script are as without Vault, the credentials are gone, and the RKE2 config reads as the original if and only if there is one config entry, the config has a key besides the token and the token reads back; then the same commands follow |
| CloudInitTheorems.BootPreserved | internal/controller/cloudinit.go:203-212 | With commands that read the config by its meaning, the whole boot ends alike with and without Vault |
| CloudInitTheorems.StripTwice | internal/controller/cloudinit.go:76-100 | Stripping reports an empty token exactly when there is no config entry, and a second strip fails exactly when there is one |
| CloudInitTheorems.StripFailsExactly | internal/controller/cloudinit.go:76-101 | Stripping fails exactly when the first config entry does not parse or has no non-empty string token; otherwise it returns that token, or the data unchanged when there is no entry |
| CloudInitTheorems.TokensLeft | internal/controller/cloudinit.go:76-97 | Entry by entry, a token survives stripping exactly in config entries after the first |
| CloudInitTheorems.SecondConfigBreaks | internal/controller/cloudinit.go:90-96 | With a later config entry that carries a token and ends its last line the booted node's config does not parse at all |
| CloudInitTheorems.RancherMeaning | internal/controller/cloudinit.go:122-201 | The agent's config reads as the token and the url, the credentials are gone and every other file is the template's, before the agent is started |
| Capacity.CalculateLimits | internal/controller/waldurcluster_controller.go:100-126 | The loop returns the reserved share plus the sum over all nodes, and fails exactly when some flavor cannot be found |
| Capacity.FullClusterUsesLimits | internal/controller/waldurcluster_controller.go:94-126 | The machines of a full cluster with 20 GiB system disks ask for exactly the limits less 14 cores, 28 GiB of ram, four 20 GiB disks and the vSAN disks |
| Capacity.LimitsPermute | internal/controller/waldurcluster_controller.go:105-119 | The limits do not depend on the order of the node groups |
| Capacity.LimitsSplit | internal/controller/waldurcluster_controller.go:105-119 | Nor on splitting a group's count over two groups |
| Capacity.LimitsCoverDemand | internal/controller/waldurmachine_controller.go:379-386 | Any machines within their groups' counts, flavors and data disks, with system disks up to 20 GiB, ask for no more than the limits less the controllers' and load balancer's share |
| Capacity.FullClusterFitsExactly | internal/controller/waldurcluster_controller.go:105-119 | A full cluster with a given system disk stays within its share if and only if the excess over 20 GiB per node fits in the vSAN space, which no order requests |
| Capacity.WithoutVsan | internal/controller/waldurcluster_controller.go:98-98 | Without vSAN disks that limit is exactly 20 GiB |
| MergePatch.PatchArrivesExactly | internal/controller/waldurcluster_controller.go:536-538 | Applying the difference of two documents gives the second one if and only if no null in it is new |
| MergePatch.PatchStoresEverything | api/v1beta2/waldurmachine_types.go:60-96 | The machine status document never contains null, so a patch against a snapshot of the stored status stores the whole status in memory |
| MergePatch.ClusterPatchStoresEverything | api/v1beta2/waldurcluster_types.go:151-174 | The same for a cluster status, removed tenants included |
| StatusPatches.MachinePatch | internal/controller/waldurmachine_controller.go:162-166 | The field-by-field status write is the merge patch of the documents, onto any stored status whose order is the snapshot's or that the pass leaves alone |
| StatusPatches.ClusterPatch | internal/controller/waldurcluster_controller.go:536-538 | The same for a cluster status written onto its snapshot |
| StatusDocuments.MachineReadsBack | api/v1beta2/waldurmachine_types.go:60-96 | Reading the document of a machine status back gives that status, order included |
| StatusDocuments.ClusterReadsBack | api/v1beta2/waldurcluster_types.go:151-240 | The same for a cluster status with all its tenants |
| StatusDocuments.MachineDocumentsDiffer | api/v1beta2/waldurmachine_types.go:60-96 | Two machine statuses have the same document if and only if they are equal |
| StatusDocuments.ClusterDocumentsDiffer | api/v1beta2/waldurcluster_types.go:151-240 | Two cluster statuses have the same document if and only if they are equal, so a changed order is never an empty patch |
| StatusDocuments.MachinePatchReads | internal/controller/waldurmachine_controller.go:162-166 | Read back after the status patch, the stored document is the status merged field by field |
| StatusDocuments.ClusterPatchReads | internal/controller/waldurcluster_controller.go:536-538 | Read back after the status patch, the stored document of a cluster is the status in memory |
| DeepCopy.CopyCluster | api/v1beta2/zz_generated.deepcopy.go:261-282 | The copy has an equal value and consists of new cells only; its tenants share none with each other |
| DeepCopy.CopyMachine | api/v1beta2/zz_generated.deepcopy.go:409-433 | The same for a machine status |
| DeepCopy.CopyTenant | api/v1beta2/zz_generated.deepcopy.go:77-94 | The same for one tenant: uuid, project and order are new cells |
| DeepCopy.CopyOrder | api/v1beta2/zz_generated.deepcopy.go:537-544 | The same for an order and its backend uuid |
| DeepCopy.CopyEntries | api/v1beta2/zz_generated.deepcopy.go:275-281 | The map loop copies every entry, with pairwise disjoint cells |
| DeepCopy.RefreshOrder | internal/controller/waldur_helpers.go:150-156 | The refresh writes the state through the pointer and puts a reported backend uuid in a new cell |
| DeepCopy.SnapshotThenRefreshMachine | internal/controller/waldurmachine_controller.go:135-148 | A refresh after the snapshot leaves the snapshot at the old value, and the merge patch between the two documents makes the stored one the new one |
| DeepCopy.SnapshotThenRefreshTenant | internal/controller/waldurcluster_controller.go:509-523 | Refreshing one tenant in place leaves the snapshot and every other tenant alone |
| DeepCopy.ShallowThenRefresh | internal/controller/waldurcluster_controller.go:511-514 | Copying the struct values without their pointers would let the refresh show in the snapshot, and the merge patch would change nothing |

## Left out

- Lookups of flavors, images, offerings, customers, subnets, security groups and volume types: each is a reply that is a value or an error.
- HTTP, JSON decoding, uuid parsing, Vault login and re-login: plumbing behind the calls.
- Uuids are non-empty strings and an empty one is `None`; an unparsable stored uuid counts as a failed call.
- Condition timestamps, messages, transition rules and the list of other conditions: only status and reason of Ready are kept.
- Choosing the control-plane endpoint among machines: the address found is a reply, the set-once guard is modelled.
- Stale caches, leader changes, concurrent edits and resource-version conflicts, except that any write may be refused.
- Top-level cloud-init keys other than write_files, runcmd and bootcmd: the code's struct does not hold them, so nothing is claimed about them.
- BlockYaml.PrintedReadsBack: covers block mappings with one-line keys, values that are empty or plain, single-quoted or double-quoted scalars on their line, and nested values kept as indented lines; comments, anchors, tabs, literal and folded blocks as strings, flow values other than the empty map and keys that begin with `-`, `?` or `.` are not parsed. Of the escapes it reads those of quotes, backslashes, line breaks, tabs and carriage returns.
- CloudInit.Marshal: prints those forms only, with nested values line by line as they were, where the library may indent them anew, and a string with line breaks in double quotes, where the library may print a literal block.
- CloudInitTheorems.MeaningPreserved: needs the last config entry of the bootstrap data to be unencoded and no entry to clash with the three Vault paths; the encoded case is not covered because the code parses encoded text as YAML.
- Shell details of the fetch scripts (curl, grep, sed, exit codes): login and read succeed as a whole or nothing happens; a token with a double quote or backslash, which grep would cut, is treated as if read whole.
- Capacity.CalculateLimits: counts and sizes are unbounded naturals; 64-bit overflow is out of reach of the CRD's values.
- MachineDeletion.MachineDeletionTerminates: assumes the status and finalizer writes, order reads and termination requests succeed from the start of the behaviour; failures before that only restart it. `FairDeletions.FairMachineDeletion` exhibits such a behaviour.
- ClusterDeletion.ClusterDeletionTerminates: the same assumption for every tenant and for the calls for the tenants' projects. `FairDeletions.FairClusterDeletion` exhibits such a behaviour.
- DeepCopy.CopyCluster: metadata, spec and list types are copied by the same generated pattern and are not modelled.
- MergePatch.PatchStoresEverything: list members are values replaced as a whole, as the RFC has it; the list of conditions is one such value.
- StatusDocuments.MachineDocumentsDiffer: a state without a name of its own must not spell a named one; the source's states are strings, where the two are the same.
- MachineController.ApiServer.StatusPatch: writes an order as a whole; when another writer changed the stored order since the snapshot, the RFC would mix the members of the two (`StatusPatches.MachinePatch` says exactly when the two agree).
- JointPlacement.OnePlacePerOffering: each controller has its own view of the marketplace; orders of the other controllers are steps of others in it.
- Command-line setup, logging, metrics, RBAC, CRD manifests, webhooks and watches.
