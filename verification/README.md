# A model of the KubeVirt machine provider

The provider keeps the Machines and Nodes of a *tenant* cluster in step with the VirtualMachines of
an *infra* cluster. Two controllers share that state: the machine actuator (`pkg/actuator`,
`pkg/kubevirt`, `pkg/machinescope`) creates, updates, deletes and looks up the VM of a Machine and
records the VM in the Machine; the node controller (`pkg/controller/nodeupdate`) removes a Node
whose VM is gone, waits for one whose VM is not ready, and otherwise stamps the Node with its
provider ID. Every operation is a sequence of separate API calls, and between any two of them
another replica, the other controller, or anybody else may act.

## How the model is built

- **Values.** `JsonValue`, `Resources` and `MachineScope` hold the objects and the builders: the
  desired VM, its data volume, the ignition secret, the names, the address list, the provider
  status. `MergePatch` is the JSON merge patch of RFC 7396, section 2, with the diff that goes with
  it; `MachineDocument` ties it to Machines.
- **Servers.** `Cluster` states what is assumed of the two API servers, one function per call: a
  create fails if the key is taken, a VM update needs the stored resource version, the version
  moves exactly when the content does, the main Machine resource ignores the status, the default
  machine type is filled in on every VM write. A call is delivered, dropped on the way, or does its
  work and loses the reply.
- **Operations.** `Protocol.Step` is one API call of one operation together with the local
  computation up to the next call. The classes `Kubevirt.Manager`, `Actuator.Actuator`,
  `NodeUpdate.Reconciler` and `MachineScope.Scope` are the imperative code, field updates, loops and
  early returns included; each method is proved to do exactly what the step function says, error
  paths and panics included.
- **Runs.** `Interleaving` lets any number of operations, started at any time, advance call by call
  in any order, among seventeen kinds of events caused by others, which may write any field of any
  object but a UID. An operation that is never advanced again has been interrupted. The other
  modules prove what holds over all such runs.
- **Results.** `Answers` says, for each operation, exactly when it returns what, in terms of the state of
  the clusters and the fate of each call and without its steps.

Inputs that the code gets from elsewhere are parameters: the fate of each call, the UID and status
that the server gives a new VM, whether a deletion takes effect at once, and what the resolver
returns (`Choice`); the infra namespace, infra ID, default machine type and the set of valid
quantities (`Config`).

## What turned out

- **Create does not create "if it does not exist".** The interface comment (pkg/kubevirt/kubevirt.go:27)
  promises that; the code takes the ignition secret first, before the provider spec is validated,
  and nothing ever deletes that secret. So the secret is a latch. That is why a VM is created at most
  once per name (`Latch.OneShotCreation`), and also why a name whose secret is there and whose VM is
  not can never get a VM again. `Absorbing.RevivableExactly` gives the exact condition; a rejected
  provider spec, a lost reply and an ordinary Delete all lead into that state.
- **Updates of one Machine must take turns.** The desired VM is built from what the last sync recorded.
  As long as an Update makes no more calls once the next one of its Machine has started, the number of
  VM writes is bounded, whatever else happens between any two calls (`Quiescence.BoundedWrites`).
  Without that there is no bound at all, with nobody else writing anything
  (`Overlap.OverlapBreaksTheBound`).
- **A nil error does not promise that the Machine records the VM.** A field that sync found already
  right is not in the patch; if someone removes it meanwhile it stays away, and the operation still
  succeeds (`TwoPhasePatch.RemovedAnnotationStaysAway`). `Success.SuccessIsReal` carries the exact
  condition.
- **Names, not Machines.** The Machine's namespace is not part of the VM's key; the operations act on
  a set of Machines exactly if names are unique across namespaces
  (`SetRefinement.LiftsExactlyForUniqueNames`).
- **User data.** A document that is not an object, has a non-object `storage`, or already has
  `files`, makes the code panic, even when `files` is a list (`UserData.AddHostnameToUserData`).
- **A host name with a percent sign** does not survive the data URL (`Hostnames.SecretsAlwaysName`);
  DNS names hold none.
- **Null members.** A merge patch reproduces the modified document exactly if no null is new in it
  (`MergePatch.RoundTrip`); what sync writes is always free of nulls.

## Model

| member | source | states |
|---|---|---|
| UserData.AddHostnameToUserData | pkg/kubevirt/kubevirt.go:85-109 | The in-place edit returns exactly for objects whose `storage` is absent or an object without `files`, and panics on everything else |
| UserData.HostnameFrame | pkg/kubevirt/kubevirt.go:88-103 | `storage.files` becomes the one host name file; every path beside it, at any depth, keeps its value |
| UserData.NeverTwice | pkg/kubevirt/kubevirt.go:92-103 | The result is outside the domain: applying the edit twice always panics |
| UserData.PercentFree | pkg/kubevirt/kubevirt.go:101 | Percent decoding is the identity on texts without a percent sign and shortens every other text it accepts |
| UserData.HostnameRoundTrip | pkg/kubevirt/kubevirt.go:95-103 | The one file is /etc/hostname on the root filesystem with mode 420; decoding its source as a data URL gives the machine's name back if and only if the name has no percent sign |
| Hostnames.SecretsAlwaysName | pkg/machinescope/machine_scope.go:289-306 | In every reachable state the ignition secret stored for a DNS-safe name carries exactly that host name, whatever the tenants' user data was, unless others write ignition secrets themselves |
| Hostnames.StepNamed | pkg/kubevirt/kubevirt.go:50-64 | No call of any operation stores a secret under one machine's secret name that names another machine |
| Resources.ProviderIDInjective | pkg/kubevirt/kubevirt.go:233-238 | For namespaces without a slash, provider IDs are equal if and only if namespace and name are |
| Resources.ProviderIDReadsBack | pkg/kubevirt/kubevirt.go:236-238 | Read as scheme, namespace up to the first slash, and name, a provider ID gives back the VM it was made from, if and only if the namespace has no slash |
| MachineScope.ReadsProviderSpec | pkg/machinescope/machine_scope_creator.go:26-29 | A provider spec written under the API's field names, empty fields omitted, reads back as itself: each field comes from its own member |
| MachineScope.OpensWithSpec | pkg/machinescope/machine_scope_creator.go:20-41 | Such a Machine opens with that spec if and only if its cluster label is there and not empty |
| MachineScope.Scope.CreateVirtualMachineFromMachine | pkg/machinescope/machine_scope.go:82-144 | Exactly when a VM is built and when a quantity panics; the VM has the Machine's name, annotations, cluster name and, whatever the order of the label loop, its labels over the owner label; data volume, network, interface binding, memory, CPU, storage, access mode and volumes are those of the provider spec, with each default |
| MachineScope.BuildOutcomes | pkg/machinescope/machine_scope.go:83-108 | A bad memory quantity panics before the access mode is looked at, a bad storage quantity only after it; missing parameters never panic |
| MachineScope.Scope.CreateIgnitionSecretFromMachine | pkg/machinescope/machine_scope.go:289-306 | The secret is in the infra namespace under the machine's name, carries the owner label and holds the user data and nothing else |
| MachineScope.RequestDeterminesSpec | pkg/machinescope/machine_scope.go:88-125 | Two Machines get the same VM spec if and only if they have the same name and their provider specs, defaults filled in, agree on every field the VM uses |
| MachineScope.Scope.SyncMachine | pkg/machinescope/machine_scope.go:347-354 | The four in-place updates together make exactly the synced Machine, which records UID, state text, type and provider ID of the VM; addresses move only with an instance |
| MachineScope.Scope.SyncProviderID | pkg/machinescope/machine_scope.go:356-367 | Whether or not the early return is taken, the Machine ends with the given provider ID and nothing else changed |
| MachineScope.Scope.SyncMachineAnnotationsAndLabels | pkg/machinescope/machine_scope.go:369-392 | The state annotation tells not created, ready and created but not ready apart by the three texts; UID and, if the VM has a template, type are recorded; every other entry is kept |
| MachineScope.SyncedRecordsVM | pkg/machinescope/machine_scope.go:378-390 | The same of the Machine that any sync yields |
| MachineScope.Scope.SyncNetworkAddresses | pkg/machinescope/machine_scope.go:406-419 | The loop over the resolved addresses stores the list of AddressesInOrder |
| MachineScope.Scope.SyncProviderStatus | pkg/machinescope/machine_scope.go:394-404 | The raw status stored determines the VM status: it is the encoding of that status and of no other; nothing else changes |
| MachineScope.AddressesInOrder | pkg/machinescope/machine_scope.go:406-417 | The list is the DNS name and then exactly the addresses with an IPv4 form, in order and with multiplicity; after a failed lookup it is the DNS name alone |
| MachineScope.DottedReadsBack | pkg/machinescope/machine_scope.go:409-413 | Four bytes, or their sixteen-byte form, become an internal IP address whose text reads back as those four numbers in order |
| MachineScope.AddressesOfLastInstance | pkg/machinescope/machine_scope.go:350-352 | Over any run of syncs the addresses are those of the last sync that had an instance |
| MachineScope.SyncIdempotent | pkg/machinescope/machine_scope.go:347-354 | Syncing again with the same VM changes nothing |
| MachineScope.EncodeStatusInjective | pkg/machinescope/machine_scope.go:394-402 | The raw provider status determines the VM status it was made from, although false flags and empty lists are omitted |
| MergePatch.RoundTrip | pkg/clients/tenantcluster/client.go:60-66 | Applying the computed patch to the original gives the modified document if and only if it holds no null that is new |
| MergePatch.PatchIsFaithful | pkg/clients/tenantcluster/client.go:60-66 | On a document others changed meanwhile: untouched paths keep their value, changed leaves get the new one, dropped paths are gone |
| MergePatch.DiffEmpty | pkg/clients/tenantcluster/client.go:60-66 | A patch is empty if and only if the two documents are equal |
| MergePatch.ApplyIdempotent | pkg/clients/tenantcluster/client.go:60-66 | Delivering a patch a second time changes nothing |
| MachineDocument.DecodeEncode | pkg/clients/tenantcluster/client.go:60-66 | Reading back a Machine's document gives the Machine |
| MachineDocument.PatchMergesFields | pkg/clients/tenantcluster/client.go:60-66 | The merge patch of the documents is the field-wise three-way merge of the Machines, whatever is stored by now |
| TwoPhasePatch.BothPatchesStoreTarget | pkg/actuator/actuator.go:220-238 | With nothing written in between the two patches store exactly the synced Machine, although the first response overwrites the status in memory |
| TwoPhasePatch.MetaChangesArrive | pkg/actuator/actuator.go:224-228 | Every metadata and spec field sync changed is stored by the first patch, whatever others wrote |
| TwoPhasePatch.StatusChangesArrive | pkg/actuator/actuator.go:225-235 | Every status field sync changed is stored by the second patch: the addresses, each leaf of the provider status, and the removal of each member it now omits, whatever the first response and others' writes were |
| TwoPhasePatch.OthersSurviveMeta | pkg/actuator/actuator.go:224-228 | The first patch keeps the whole stored status, the provider spec and every label and annotation sync does not own |
| TwoPhasePatch.OthersSurviveStatus | pkg/actuator/actuator.go:230-235 | The second patch keeps everything outside the status, the phase, the addresses if there was no instance, and every provider status path sync left alone |
| TwoPhasePatch.WithoutRestoreStatusIsLost | pkg/actuator/actuator.go:225-230 | Why the status is saved: a status patch computed from the first response would change nothing |
| TwoPhasePatch.MetaPatchCarries | pkg/actuator/actuator.go:224-228 | After the first patch the stored Machine records provider ID, UID, state and type of the VM if and only if sync changed each of them or it was stored already |
| TwoPhasePatch.StatusPatchCarries | pkg/actuator/actuator.go:230-235 | After the second it records the VM's status and addresses if and only if what sync left alone is still stored |
| TwoPhasePatch.RemovedAnnotationStaysAway | pkg/actuator/actuator.go:224-235 | The failing input: an annotation that was right when read and is removed before the patch stays away, and the operation returns nil |
| Cluster.VersionMovesWithContent | pkg/kubevirt/kubevirt.go:165-176 | Assumed of the server: a put moves the version if and only if it changes the content, and never UID, status or another VM |
| Cluster.OneWriterPerVersion | pkg/kubevirt/kubevirt.go:165-173 | Of two puts under the same version the second is refused if the first changed anything, whatever became of the calls |
| Cluster.OneCreatorPerKey | pkg/kubevirt/kubevirt.go:60-64 | Of two creates of a secret at most one is answered; once one has arrived, reply lost or not, the other changes nothing |
| Cluster.PatchesCommute | pkg/clients/tenantcluster/client.go:60-66 | The main patch and the status patch share no field: in either order they store the whole merge |
| MachineSafety.MachinesAreSafe | pkg/actuator/actuator.go:220-238 | In every interleaving no step of any operation adds or removes a Machine or changes a stored one outside the fields sync owns; an ID it writes is that of the VM of the Machine's name |
| Kubevirt.Manager.Create | pkg/kubevirt/kubevirt.go:50-83 | The code makes the calls of the Create steps with their effect and result: secret first, validation after it, then VM and sync; errors and panics included |
| Kubevirt.Manager.Update | pkg/kubevirt/kubevirt.go:148-189 | The code is the Update steps: desired VM under the version just read, a write reported exactly on a version change |
| Kubevirt.Manager.SyncMachine | pkg/kubevirt/kubevirt.go:191-211 | The instance is read exactly if the VM is ready; if that fails the Machine stays as it was |
| Kubevirt.Manager.Delete | pkg/kubevirt/kubevirt.go:111-146 | Success exactly if the provider spec is accepted, the lookup was answered, and there is no VM or its deletion was answered; otherwise an error, or the panic of a bad quantity |
| Kubevirt.Manager.Exists | pkg/kubevirt/kubevirt.go:213-227 | Yes or no exactly if the lookup was answered, and then whether the key is there; an unanswered lookup is an error |
| Actuator.Actuator.Create | pkg/actuator/actuator.go:112-161 | Exactly when it returns nil, the not-ready error and a panic, in terms of the clusters and the fate of each call; the VM and the secret it leaves are the wanted ones |
| Actuator.Actuator.Update | pkg/actuator/actuator.go:171-201 | Exactly when it returns nil, the not-ready error and a panic |
| Actuator.Actuator.Finish | pkg/actuator/actuator.go:129-143 | Both patches are attempted even after a failed infra part; a patch error takes the place of its error |
| Actuator.Actuator.PatchMachine | pkg/actuator/actuator.go:220-238 | Save status, patch, restore status, patch status; ends at the first error |
| Actuator.Actuator.Delete | pkg/actuator/actuator.go:203-218 | Exactly when it returns nil and when it panics; the Machine is not patched |
| Actuator.Actuator.Exists | pkg/actuator/actuator.go:163-169 | Yes or no exactly if answered, for the infra namespace and the Machine's name, whatever the Machine's namespace or spec |
| NodeUpdate.Reconciler.Reconcile | pkg/controller/nodeupdate/nodeupdate_controller.go:50-109 | Exactly when it returns nil and when it asks to be called later; every other outcome is an error |
| NodeUpdate.Reconciler.FollowVM | pkg/controller/nodeupdate/nodeupdate_controller.go:79-108 | Nil means that the node is gone with its VM or has an ID next to a ready VM; later exactly on a VM that is not ready; an unanswered lookup is an error and writes nothing |
| Answers.ReconcileSuccessSettles | pkg/controller/nodeupdate/nodeupdate_controller.go:82-108 | A Reconcile that returns nil leaves nothing to do for the node, whatever its calls met, and one without errors never fails |
| Answers.ReconcileAnswer | pkg/controller/nodeupdate/nodeupdate_controller.go:50-109 | The result for every state and every fate of the calls |
| Answers.ExistsAnswer | pkg/kubevirt/kubevirt.go:213-227 | An unanswered lookup is never read as absence |
| Answers.DeleteAnswer | pkg/kubevirt/kubevirt.go:111-146 | Result and whole effect of a Delete; an absent VM is success |
| Answers.UpdateAnswer | pkg/actuator/actuator.go:171-201 | Nil, not-ready, panic or error of an Update, for every state and every fate of the calls |
| Answers.CreateAnswer | pkg/actuator/actuator.go:112-161 | The same of a Create, with the secret and the VM it leaves |
| Protocol.RunSplits | pkg/actuator/actuator.go:128-143 | Every operation ends, and is its infra part followed by the patches |
| Interleaving.AlwaysOk | pkg/kubevirt/kubevirt.go:148-176 | In every reachable state, a VM or node an operation has read is the stored one if the version still is, and what it will patch is its origin synced with that VM or its origin unchanged |
| Interleaving.AlwaysEvolves | pkg/kubevirt/kubevirt.go:165-176 | Between any two moments of a run every stored VM and node is unchanged or carries a newer version |
| UpdateSafety.NoLostUpdate | pkg/kubevirt/kubevirt.go:158-176 | A put that takes effect had no other write to that VM since its own lookup; it leaves the desired content with defaults, keeps UID and status, and reports a write exactly if the content changed |
| Latch.OneShotCreation | pkg/kubevirt/kubevirt.go:58-77 | Over every interleaving of any number of operations, as long as nobody deletes the name's secret, at most one attempt is made to create its VM, whatever others do |
| Latch.UidIsForever | pkg/kubevirt/kubevirt.go:58-77 | The UID of the VM of a name, once there, is the same at any two moments of any run |
| Latch.SealedForever | pkg/kubevirt/kubevirt.go:58-71 | From a taken latch nobody holds, no run adds or replaces the VM |
| Latch.LatchStep | pkg/kubevirt/kubevirt.go:58-77 | The step invariant: latches are never released, a process gains one only by creating the secret, and only its holder can create the VM |
| Latch.SecretNamesDiffer | pkg/machinescope/machine_scope.go:281-287 | Different machine names have different secret and boot volume names |
| Absorbing.RevivableExactly | pkg/kubevirt/kubevirt.go:27-28 | Some run brings the missing VM of a usable Machine into being if and only if its latch is free or held by a Create in flight |
| Absorbing.RejectedSpecSeals | pkg/machinescope/machine_scope.go:146-157 | After a Create whose provider spec is rejected no run whatsoever gives the name a VM |
| Absorbing.LostCallSeals | pkg/kubevirt/kubevirt.go:60-78 | Nor after a Create that lost the reply to the secret or whose VM call did not arrive |
| Absorbing.DeleteSeals | pkg/kubevirt/kubevirt.go:111-146 | Nor after an ordinary Delete |
| Absorbing.CreateDoesNotCreate | pkg/kubevirt/kubevirt.go:27-28 | A concrete Machine without a VM whose first Create, every call answered, loses the name for good |
| WholeRuns.CreateRun | pkg/kubevirt/kubevirt.go:50-83 | Exactly when one Create leaves the secret, and exactly when the VM |
| WholeRuns.UpdateRun | pkg/kubevirt/kubevirt.go:148-189 | An Update never adds or removes a VM or secret |
| WholeRuns.DeleteRun | pkg/kubevirt/kubevirt.go:111-146 | A Delete removes at most the VM of its key; if it succeeds and does not linger the VM is gone; the secret stays |
| SetRefinement.CallsRefineSet | pkg/kubevirt/kubevirt.go:213-227 | Create, Update, Delete and Exists refine add, keep, remove and member on the set of names with a VM |
| SetRefinement.LiftsExactlyForUniqueNames | pkg/machinescope/machine_scope.go:134-137 | The refinement lifts from names to Machines if and only if no two Machines share a name |
| Identity.IdentitiesAgree | pkg/controller/nodeupdate/nodeupdate_controller.go:73-104 | In every reachable state a Machine and a Node that both have a provider ID have the same one if and only if they have the same name |
| Identity.AlwaysId | pkg/kubevirt/kubevirt.go:203-205 | The invariant behind it: every stored or in-flight ID is the one of its own name in the infra namespace |
| Closure.AlwaysClosed | pkg/machinescope/machine_scope.go:176-257 | In every reachable state each VM's ignition secret exists, its boot volume is its own data volume template, every disk names a volume and every interface a network |
| Closure.StepClosed | pkg/kubevirt/kubevirt.go:58-73 | Every single call of every operation preserves that |
| Success.SuccessIsReal | pkg/actuator/actuator.go:128-143 | Behind every nil return of Create or Update: the server returned that VM, ready and stored; its instance was read; both patches arrived; and the Machine carries ID, UID, state, type, status and addresses of it if and only if each was changed by sync or stored already |
| Success.OnlyTheLastPatchSucceeds | pkg/actuator/actuator.go:182-200 | Success and the not-ready error both come only from the answered last patch of an operation that met no error, and differ in whether the VM was ready |
| Success.FailuresStillPatch | pkg/actuator/actuator.go:128-135 | Whatever fails in the infra cluster, Create and Update go on to patch the Machine |
| Quiescence.BoundedWrites | pkg/kubevirt/kubevirt.go:165-176 | In every interleaving in which Updates of the Machine take turns, with anything happening between any two calls, Updates stopping anywhere and calls lost: the VM writes are at most two plus the cost of what others do |
| Quiescence.WritesWithinChanges | pkg/kubevirt/kubevirt.go:148-189 | If others only change the VM's status or content or edit the Machine without touching labels and annotations, at any moment: at most two plus the number of changes |
| Quiescence.UpdaterPays | pkg/machinescope/machine_scope.go:127-141 | No call of an Update writes for free: each lowers the potential by what it writes, and no outcome of one raises it |
| Quiescence.StoppingIsFree | pkg/actuator/actuator.go:182-189 | An Update abandoned at any point leaves no more owed than it had |
| Quiescence.EventCosts | pkg/machinescope/machine_scope.go:369-392 | What each kind of event can add to the potential, also in the middle of an Update |
| Quiescence.MergedOwes | pkg/actuator/actuator.go:224-228 | Merging what sync recorded into a Machine others have edited leaves owed at most one write for the edit and one for what was stale |
| Overlap.OverlapBreaksTheBound | pkg/kubevirt/kubevirt.go:148-189 | When Updates of one Machine overlap, a run with nobody else writing makes any number of VM writes |
| Settling.ThirdUpdateIsIdle | pkg/machinescope/machine_scope.go:127-141 | With no change the second Update leaves the Machine alone and the third leaves everything alone; the first writes if and only if the VM differed, the second if and only if the record was stale |
| Settling.RepairAfterInterruptions | pkg/actuator/actuator.go:182-189 | After any number of Updates cut short anywhere, one that goes through leaves the tenant cluster as that Update alone would have |
| UpdateRuns.WholeUpdate | pkg/actuator/actuator.go:171-201 | Wherever an Update stops, the Machine is as before, or has the synced metadata, or all of it, and the VM is exactly the put's |
| NodeSafety.NodesAreSafe | pkg/controller/nodeupdate/nodeupdate_controller.go:79-108 | In every interleaving a node is removed only after its own lookup found no VM, and changed only from an empty ID to the ID of a VM its own lookup found ready |
| NodeSafety.RequeueExactly | pkg/controller/nodeupdate/nodeupdate_controller.go:91-94 | Requeue-later is returned exactly on an observed VM that is not ready |
| NodeConvergence.Converges | pkg/controller/nodeupdate/nodeupdate_controller.go:55-108 | After one Reconcile without errors no later one writes anything, whatever happens to its calls |
| NodeConvergence.DeleteThenReconcile | pkg/controller/nodeupdate/nodeupdate_controller.go:79-87 | Once an actuator Delete has taken effect, the next Reconcile removes the node |
| NodeConvergence.WholeRun | pkg/controller/nodeupdate/nodeupdate_controller.go:50-109 | A settled node is left alone, an error-free Reconcile settles it, and removes it exactly if its VM is absent |

## Left out

- Settling.RepairAfterInterruptions: the other writers stand still, as the repaired result is compared with an undisturbed one; interleaved writers are the subject of TwoPhasePatch and Quiescence.
- Kubevirt.Manager.Create: the Machine behind the scope is a value in a field, so aliasing with the caller's object, and the sharing of the annotation map with the desired VM, are not captured; neither map is written between building and sending the VM.
- JSON and YAML as text: parsed trees are modelled, so number precision, key order, duplicate and differently-cased keys are not; nil and empty maps or lists are one value.
- Nulls inside arrays: the patch library prunes some of them; the model follows section 2 of RFC 7396, which takes arrays whole.
- Quantity parsing: `Config.isQuantity` stands for it, and a failing `MustParse` is a panic; the decimal text of the CPU count always parses.
- Metadata the code neither reads nor writes on Machines and VMs (finalizers, owner references, generation), and the cluster name being omitted when empty.
- The resource version of Machines: the first patch, computed against the original copy, does not send it; the second sends that of the first response if the first patch changed anything, so the server refuses it when somebody wrote in between. In the model that refusal is a status patch that did not arrive.
- The grace period of a deletion; a deletion that takes effect later is a `lingers` choice followed by a removal event.
- Name resolution: the resolver's answer is a parameter.
- `UpdateAllowed` (pkg/machinescope/machine_scope.go:274-279): depends on the clock and no controller calls it.
- `New` of the actuator (pkg/actuator/actuator.go:64-91), which returns neither an actuator nor an error when the config map cannot be read; the settings are parameters.
- Events, log texts and error wording; errors keep only their kind.
- The machine controller that drives the actuator: any sequence of operations may happen, and hypotheses are stated where they are needed.
- `cmd/`, controller registration, leader election, the client constructors, generated code, mocks and build scripts: wiring.
