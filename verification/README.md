# Evroc Cluster API infrastructure provider, modelled in Dafny

This project models the core of a Cluster API infrastructure provider for the
evroc cloud. It has two Kubernetes reconcilers and the cloud service they
drive:

- The **EvrocCluster reconciler** creates a cluster's VPC and subnets. It then
  creates a public IP for the control plane. Once the provider gives that IP an
  address, it points the owner Cluster's control-plane endpoint at
  `address:6443`. On deletion it tears the network down.
- The **EvrocMachine reconciler** waits until the cluster infrastructure and
  the bootstrap data are ready. It then creates the machine's public IP (or
  reuses the cluster's control-plane IP), its boot disk, and its VM. The
  bootstrap data goes into the VM as base64 cloud-init user data. Once the VM
  reports Running, the reconciler records the provider ID and the addresses.
  On deletion it removes the VM, the disk and the IP.
- The **error classification** separates transient errors (requeue after 30 s)
  from terminal ones.

Cloud resources live in a store: a map from (kind, project, name) to a
resource. Every cloud call is a Get, Create or Delete on that store, applied
through `CloudApi.Api`. Each call is appended to a trace (`seq<Call>`) that
records its outcome. Failures come from a fault schedule `faults: map<nat, Error>`
indexed by a call counter. A failure can therefore be injected at any call,
and "no failures" is the predicate `NoFaultsAhead`.

Each reconciler pass is a pure function. It takes the API state and the
objects the pass reads, and it returns:

- the new API state;
- the object as the deferred patch would write it;
- the controller result `(requeueAfter, error)`;
- the call trace.

Modules, one file each:

| module | file | models |
|---|---|---|
| `Text` | text.dfy | substring search |
| `Errors` | errors.dfy | `internal/cloud/evroc/errors.go` |
| `Conditions` | conditions.dfy | Cluster API condition setters used by the reconcilers |
| `Types` | types.dfy | the EvrocCluster / EvrocMachine / Cluster / Machine fields the core reads and writes |
| `Base64` | base64.dfy | standard base64 encoding of bootstrap data |
| `CloudApi` | cloudapi.dfy | the Kubernetes client against the evroc API: Get/Create/Delete, faults, traces |
| `Network` | network.dfy | `internal/cloud/evroc/network.go` |
| `Machines` | machine.dfy | `internal/cloud/evroc/machine.go` |
| `ClusterController` | clusterctl.dfy | `internal/controller/evroccluster_controller.go` |
| `MachineController` | machinectl.dfy | `internal/controller/evrocmachine_controller.go` |

Where the code and its documentation differ, the model follows the code:

- **VMReady before Running.** The VMReady condition is documented as "provisioned
  and running". The machine reconciler nevertheless sets it, together with Ready
  and `status.ready`, whenever `ReconcileMachine` returns no error. That includes
  a VM that is not yet Running (see Findings). `MachineController.MachineNormal`
  and `MachineController.ReconcileEvrocMachine` model that code as written.
  `MachineController.MachineNormalCorrected` is the corrected counterpart, which
  waits for Running.
- **Forbidden on delete.** Network teardown steps over a Forbidden reply only for
  subnets and the VPC. A Forbidden reply for the control-plane public IP stops the
  teardown, and so does one for any machine resource.
- **Name clash.** A machine named `<cluster>-cp` that asks for a public IP gets
  the same IP name as the cluster's control-plane IP. Deleting that machine
  deletes the cluster's IP.
- **Deletion before finalizer.** The deletion branch runs before the finalizer
  check. A deleting object therefore has its cloud resources removed whether or
  not it carries the finalizer.
- **Failed status patch.** When the VM is Running but the inner status patch of
  `ReconcileMachine` fails, the pass returns the error with Ready False. The
  machine it leaves for the deferred patch nevertheless has `status.ready` true.

## Model

| member | source | states |
|---|---|---|
| Text.ContainsIffMentions | internal/cloud/evroc/errors.go:49-52 | the substring test used on error messages holds exactly when the fragment occurs at some offset of the message |
| Errors.IsTransientError | internal/cloud/evroc/errors.go:39-80 | an error is transient iff it is present and either has a network, service-unavailable, timeout, server-timeout or too-many-requests kind or its message contains one of the six transient fragments; no error is not transient |
| Errors.IsTerminalError | internal/cloud/evroc/errors.go:83-111 | an error is terminal iff it is present and of an invalid, bad-request, forbidden, unauthorized, not-found or conflict kind; a generic error never is |
| Errors.IsNotFoundError | internal/cloud/evroc/errors.go:114-116 | true exactly for a not-found error, and every such error is also terminal |
| Errors.HandleError | internal/cloud/evroc/errors.go:119-136 | no error gives an empty result; a transient error gives a 30-second requeue and no error; any other error is returned wrapped with the caller's message and no requeue; an error comes back iff the input was a non-transient error |
| Errors.TransientWinsOverTerminal | internal/cloud/evroc/errors.go:125-135 | a not-found error whose message mentions a timeout is terminal, yet HandleError requeues it after 30 seconds without an error, because the transient test runs first |
| Errors.MarkersAreTransient | internal/cloud/evroc/errors.go:49-79 | any message containing a transient fragment makes the error transient whatever its kind, and HandleError then returns no error |
| Base64.Encode | internal/cloud/evroc/machine.go:113 | the encoding of n bytes has 4·⌈n/3⌉ characters, all from the base64 alphabet or the padding character |
| Base64.DecodeBlockEncodeBlock | internal/cloud/evroc/machine.go:113 | decoding the four characters that encode one to three bytes returns those bytes |
| Base64.DecodeEncode | internal/cloud/evroc/machine.go:113 | decoding the encoding of any bootstrap data returns that data |
| Base64.EncodeInjective | internal/cloud/evroc/machine.go:113 | distinct bootstrap data never yield the same user data |
| CloudApi.GetOrCreate | internal/cloud/evroc/network.go:50-61 | the get-then-create step: one Get, then a Create only after a not-found reply; on success the key is stored, and an existing resource is kept untouched with no Create; on error the store is unchanged; with no failures it succeeds |
| CloudApi.DeleteStep | internal/cloud/evroc/network.go:175-185 | one Delete of the key; it succeeds exactly when the reply is tolerated for that kind; afterwards the key is gone or the store is unchanged, and with no failures the key is gone |
| Network.SubnetStatuses | internal/cloud/evroc/network.go:99-108 | one status per spec subnet, in spec order, carrying that subnet's name and CIDR and marked ready |
| Network.ReconcileSubnets | internal/cloud/evroc/network.go:70-106 | subnets are fetched in spec order, each created only after a not-found reply; the store only grows; on success every spec subnet is stored and the statuses are reported; the first error stops the loop; with no failures it succeeds |
| Network.SubnetsCreateOnlySpec | internal/cloud/evroc/network.go:70-97 | every resource the subnet loop adds is a spec subnet, referencing the VPC and carrying its spec CIDR |
| Network.SubnetsIdempotent | internal/cloud/evroc/network.go:86-97 | with every spec subnet already stored and no failures, the loop creates nothing and changes nothing |
| Network.ReconcileNetwork | internal/cloud/evroc/network.go:33-111 | the VPC and then each subnet are fetched in that order, and only those; each is created only after a not-found reply; success stores them all and sets the VPC status and the subnet statuses; an error leaves the status as it was or with only the VPC marked; with no failures it succeeds |
| Network.NetworkCreatesOnlyPlan | internal/cloud/evroc/network.go:43-97 | everything the network pass adds is the VPC or a spec subnet with its CIDR and the VPC reference |
| Network.NetworkIdempotent | internal/cloud/evroc/network.go:50-108 | a second network pass after a successful one succeeds, creates nothing, changes nothing in the store and reports the same status |
| Network.NetworkSettled | internal/cloud/evroc/network.go:50-108 | over a store already holding the VPC and every subnet, a pass with no failures succeeds, creates nothing and leaves the store as it was |
| Network.ReconcileControlPlanePublicIP | internal/cloud/evroc/network.go:116-157 | gets or creates the IP named `<cluster>-cp-publicip` and reads it back after a create; on success it returns that name and the stored address; a freshly created IP has no address; an existing one is left untouched; on error the name and the address are empty |
| Network.ControlPlanePublicIPStable | internal/cloud/evroc/network.go:130-156 | once the provider has written an address into the control-plane IP, a pass with no failures returns that name and address and creates nothing |
| Network.DeleteSubnets | internal/cloud/evroc/network.go:168-188 | deletes the spec subnets in order and nothing else; not-found and forbidden replies are stepped over; any other failure stops at that subnet; other resources are kept; with no failures none of the subnets remains |
| Network.DeleteControlPlaneIPAndVpc | internal/cloud/evroc/network.go:192-228 | deletes the control-plane IP and then the VPC; not-found is tolerated for both, forbidden only for the VPC; with no failures neither remains |
| Network.DeleteNetwork | internal/cloud/evroc/network.go:163-231 | deletes the subnets, the control-plane IP and the VPC in that order; success means every call on that plan was tolerated; an error means the last call was not; resources outside the plan are kept |
| Network.NetworkRoundTrip | internal/cloud/evroc/network.go:33-231 | starting from a store with none of the cluster's network resources, reconciling the network and the control-plane IP and then deleting the network, all with no failures, gives back the original store |
| Network.NetworkAddsOnlyPlan | internal/cloud/evroc/network.go:43-97 | every key the network pass adds is on the network's deletion plan |
| Network.SubnetForbiddenSteppedOver | internal/cloud/evroc/network.go:175-181 | a forbidden reply to a subnet's delete does not fail the teardown, and that subnet stays in the store |
| Network.ControlPlaneIPForbiddenStops | internal/cloud/evroc/network.go:199-201 | a forbidden reply to the control-plane IP's delete fails the teardown after that one call, so the VPC is never deleted |
| Machines.DesiredVM | internal/cloud/evroc/machine.go:113-166 | the VM spec is running, boots from `<machine>-bootdisk`, references the chosen public IP and the resources profile, and carries user data that decodes to the bootstrap data; SSH keys are set iff a non-empty key is given, and security groups iff any are listed |
| Machines.ChoosePublicIP | internal/cloud/evroc/machine.go:43-76 | no public IP asked for means no call and an empty name; a control-plane machine reuses the cluster's IP name without a call once the cluster has one; otherwise `<machine>-publicip` is fetched and created only after a not-found reply |
| Machines.ChoosePublicIPCreates | internal/cloud/evroc/machine.go:55-74 | the only resource the IP step can add is the machine's own public IP, with no address; an existing IP is left as it was |
| Machines.ProvisionDiskAndVM | internal/cloud/evroc/machine.go:79-179 | gets or creates the boot disk and then the VM; success leaves both stored and returns the stored VM; the store only grows; with no failures it succeeds |
| Machines.ProvisionDiskAndVMCalls | internal/cloud/evroc/machine.go:99-179 | calls touch only the boot disk and then the VM, in that order, each created only after a not-found reply |
| Machines.ProvisionDiskAndVMCreates | internal/cloud/evroc/machine.go:79-179 | what the step adds is the boot disk as the spec asks and the VM as asked, with no status yet |
| Machines.ProvisionDiskAndVMIdempotent | internal/cloud/evroc/machine.go:99-179 | with both present and no failures, the step creates nothing, changes nothing and returns the stored VM |
| Machines.RecordRunning | internal/cloud/evroc/machine.go:192-198 | the machine gets provider ID `evroc://<project>/<machine>`, is marked ready, and its addresses are the VM's private address then its public address; metadata and conditions are unchanged |
| Machines.UpdateStatus | internal/cloud/evroc/machine.go:181-201 | a VM not Running leaves the machine as it was with no error; for a Running VM, a failed patch helper returns its error with the machine unchanged, and a failed patch returns its error with the running status already recorded |
| Machines.ReconcileMachine | internal/cloud/evroc/machine.go:39-207 | touches only the machine's planned keys, each created only after a not-found reply; when a VM is obtained every planned key was fetched and the status is recorded as UpdateStatus prescribes; otherwise an error is returned with the machine unchanged; with no failures a VM is obtained |
| Machines.ReconcileMachineStores | internal/cloud/evroc/machine.go:62-179 | once a VM is obtained, the boot disk, the VM and any owned public IP are all stored |
| Machines.MachineCreatesOnlyDesired | internal/cloud/evroc/machine.go:43-179 | everything the pass adds is the machine's own public IP with no address, its boot disk as the spec asks, or its VM as DesiredVM describes with no status |
| Machines.MachineSettled | internal/cloud/evroc/machine.go:43-185 | with the disk, the VM and any owned IP stored and no failures, a pass creates nothing, changes nothing and observes the stored VM |
| Machines.MachineIdempotent | internal/cloud/evroc/machine.go:39-207 | a second pass after one with no failures creates nothing, changes nothing, observes the same VM and records the same machine and error |
| Machines.DeleteVMAndDisk | internal/cloud/evroc/machine.go:216-235 | deletes the VM then the boot disk, tolerating only not-found; other resources are kept; with no failures neither remains |
| Machines.DeleteMachine | internal/cloud/evroc/machine.go:212-252 | deletes the VM, the disk and, if asked for, `<machine>-publicip`, in that order; success means every call was tolerated; an error means the last call was not; resources outside the plan are kept |
| Machines.MachineAddsOnlyPlan | internal/cloud/evroc/machine.go:43-179 | every key the machine pass adds is on the machine's deletion plan |
| Machines.MachineRoundTrip | internal/cloud/evroc/machine.go:39-252 | from a store with none of the machine's resources, a reconcile followed by a delete, both with no failures, gives back the original store |
| Machines.PublicIPNameClash | internal/cloud/evroc/machine.go:58 | a machine's public IP key equals the cluster's control-plane IP key exactly when the machine is named `<cluster>-cp` |
| Machines.DeleteMachineSparesClusterIP | internal/cloud/evroc/machine.go:239-249 | deleting a machine touches the cluster's control-plane IP exactly when the machine asks for a public IP and is named `<cluster>-cp`; otherwise that IP stays as it was |
| Machines.ReusedIPUntouched | internal/cloud/evroc/machine.go:47-53 | a control-plane machine that reuses the cluster's IP issues no call on any public IP |
| Machines.DeleteMachineForbiddenStops | internal/cloud/evroc/machine.go:223-225 | a forbidden reply to the VM's delete fails the teardown after that one call with nothing removed |
| ClusterController.ReconcileControlPlaneEndpoint | internal/controller/evroccluster_controller.go:204-233 | an endpoint already at `address:6443` needs nothing; otherwise a successful patch sets exactly that endpoint; a failed helper or a failed patch returns its wrapped error and sets nothing |
| ClusterController.EndpointSettles | internal/controller/evroccluster_controller.go:208-211 | once the endpoint has been set, the next pass finds it equal and does nothing, whatever the patch would do |
| ClusterController.FinishWithAddress | internal/controller/evroccluster_controller.go:180-201 | an owner lookup error is returned as is; with no owner the cluster is marked ready with no patch; an endpoint failure is returned wrapped and leaves the cluster unchanged; success marks Ready True and `status.ready` |
| ClusterController.AfterNetwork | internal/controller/evroccluster_controller.go:160-201 | after the network, NetworkReady is True and only Gets and Creates on the control-plane IP are issued, each Create right after a not-found Get; no address means a 5-second requeue with the IP name recorded; readiness is gained only with NoAction and a non-empty address; an error never makes the cluster ready; with no failures, an owner found and a successful patch, it returns no error |
| ClusterController.NetworkFailed | internal/controller/evroccluster_controller.go:142-158 | on a network error, NetworkReady becomes False with reason NetworkReconciliationFailed, severity Error and the message `Failed to reconcile network: ...`; Ready becomes False with reason NetworkNotReady; the other conditions are kept |
| ClusterController.ClusterNormal | internal/controller/evroccluster_controller.go:131-202 | a missing finalizer is added and the pass stops with no call; only Gets and Creates, on the network plan and the control-plane IP, each Create right after a not-found Get; a network error records NetworkReady and Ready False, leaves readiness unchanged, and issues no IP or endpoint calls; the network status is what the network pass reported; becoming ready requires NoAction and an allocated address |
| ClusterController.ClusterDelete | internal/controller/evroccluster_controller.go:235-249 | the network teardown succeeds exactly when every delete on the deletion plan was tolerated; then the finalizer is removed; on failure the error is wrapped and the cluster is unchanged; with no failures none of the network remains |
| ClusterController.ReconcileCluster | internal/controller/evroccluster_controller.go:56-129 | a missing cluster gives no action and any other fetch error is returned; an owner lookup error is returned; a paused cluster gives no action and no call; a client that cannot be built gives a 5-second requeue when not-found and otherwise a wrapped error; past those guards a deleting cluster is the deletion pass and any other cluster the normal pass; calls are issued only past the guards; a deleting cluster only deletes, any other cluster only gets and creates |
| ClusterController.ClusterReadyNeedsAddress | internal/controller/evroccluster_controller.go:170-198 | a pass that makes an unready cluster ready is a normal (not deleting) pass that returns no action and finds an address on the control-plane IP |
| ClusterController.ClusterWaitsForAddress | internal/controller/evroccluster_controller.go:164-176 | the first pass over a fresh cluster with no failures creates the whole network and an IP with no address, records the IP name, leaves readiness unchanged and requeues after 5 seconds |
| ClusterController.ClusterReadyOnceAllocated | internal/controller/evroccluster_controller.go:178-201 | once the IP has an address and the network exists, a pass with no failures creates nothing, sets the owner's endpoint to `address:6443` unless it is already there, and marks the cluster ready |
| ClusterController.ClusterBecomesReady | internal/controller/evroccluster_controller.go:164-198 | from scratch, a first pass waits; after the provider allocates an address, the next pass sets the endpoint and marks the cluster ready without creating anything |
| MachineController.GetBootstrapData | internal/controller/evrocmachine_controller.go:282-302 | the data is returned iff the secret name is set, the secret is found and it has a `value` key; the three failures carry their own messages, and the result counts as not-found exactly when the secret lookup did |
| MachineController.BootstrapFailed | internal/controller/evrocmachine_controller.go:214-229 | a failed bootstrap lookup sets BootstrapDataReady False with reason BootstrapDataUnavailable and the message `Failed to get bootstrap data: ...`, and sets Ready False with reason BootstrapDataNotReady; the other conditions are kept |
| MachineController.BootstrapGate | internal/controller/evrocmachine_controller.go:160-234 | the pass proceeds with the data iff the cluster infrastructure is ready and the data can be read; each wait (infrastructure, control plane, bootstrap secret missing or not found) sets its own Info reason and requeues after 5 seconds; any other lookup error is returned after both conditions are set False |
| MachineController.VMFailed | internal/controller/evrocmachine_controller.go:237-251 | a failed machine reconcile sets VMReady False with reason VMReconciliationFailed and the message `Failed to reconcile machine: ...`, and sets Ready False with reason VMNotReady; the other conditions are kept |
| MachineController.MarkMachineReady | internal/controller/evrocmachine_controller.go:256-260 | VMReady and Ready become True and the machine is marked ready; the other conditions, the spec and the addresses are kept |
| MachineController.RecordProvision | internal/controller/evrocmachine_controller.go:236-263 | as written: an error from the machine reconcile records VMFailed and is returned wrapped; otherwise the machine is marked ready with no requeue |
| MachineController.MachineNormal | internal/controller/evrocmachine_controller.go:150-264 | as written: a missing finalizer is added with no call; otherwise a stop at the bootstrap gate is committed with the gate's conditions and outcome and no call, and a pass through it provisions and records the result with the as-written tail; only Gets and Creates on the machine's planned keys, each Create right after a not-found Get; any call at all means the finalizer was present, the infrastructure ready and the bootstrap data read |
| MachineController.MachineReadyBeforeRunning | internal/controller/evrocmachine_controller.go:233-263 | as written, the first provisioning pass of a machine with the finalizer, ready infrastructure, readable bootstrap data, no VM yet and no failures returns no requeue and marks the machine ready with VMReady and Ready True, while the VM it created is not Running |
| MachineController.MachineNormalCorrected | internal/controller/evrocmachine_controller.go:150-264 | the corrected counterpart of reconcileNormal: identical to the as-written pass whenever the finalizer is missing or the bootstrap gate stops; only Gets and Creates on the machine's planned keys |
| MachineController.CorrectedNormalReadyOnlyWhenRunning | api/v1beta1/evrocmachine_types.go:27-28 | with the corrected tail, a normal pass makes an unready machine ready only when the VM stored under its key reports Running |
| MachineController.RecordProvisionCorrected | internal/cloud/evroc/machine.go:181-185 | the corrected tail: a VM not yet Running leaves the machine as it was and requeues after 5 seconds; readiness is gained only from a Running VM |
| MachineController.ReadyBeforeRunning | internal/controller/evrocmachine_controller.go:255-263 | as written, the first pass over a machine whose VM does not exist yet, with no failures, marks the machine ready with VMReady and Ready True while the VM it just created is not Running |
| MachineController.WaitsWhileNotRunning | internal/cloud/evroc/machine.go:181-185 | under the corrected tail, that same pass requeues and leaves the machine unchanged |
| MachineController.CorrectedReadyOnlyWhenRunning | api/v1beta1/evrocmachine_types.go:27-28 | under the corrected tail, a pass makes the machine ready, or VMReady True, only when the VM stored under its key reports Running |
| MachineController.ReadyDespiteFailedStatusPatch | internal/cloud/evroc/machine.go:188-201 | as written, a Running VM whose status patch fails yields an error with Ready False, yet the machine left for the deferred patch is marked ready |
| MachineController.MachineDelete | internal/controller/evrocmachine_controller.go:266-280 | the machine teardown succeeds exactly when every delete on its plan was tolerated; then the finalizer is removed; on failure the error is wrapped and the machine is unchanged; with no failures none of its resources remains |
| MachineController.ReconcileEvrocMachine | internal/controller/evrocmachine_controller.go:57-148 | a missing machine gives no action and any other fetch error is returned; an owner lookup error is returned; no owner, or a cluster or EvrocCluster that cannot be read, gives no action; a paused machine gives no action; a client that cannot be built gives a 5-second requeue when not-found and otherwise a wrapped error; past those guards a deleting machine is the deletion pass and any other machine is the as-written normal pass; calls are issued only past the guards; a deleting machine only deletes, any other machine only gets and creates |
| MachineController.ReconcileReadyBeforeRunning | internal/controller/evrocmachine_controller.go:57-148 | as written, at the top level: a machine that passes every guard and reaches provisioning for the first time with no failures is committed ready with no requeue while its new VM is not Running |

## Left out

- CloudApi.GetOrCreate: a Create or Delete whose reply is an error is taken not to have been applied. Against a real API server, a call whose reply timed out or whose connection reset may already have taken effect. The model keeps the store unchanged on every failed call, so "on error the store is unchanged" holds only under that assumption.
- CloudApi.DeleteStep: for the same reason, "the key is gone or the store is unchanged" assumes that a failed Delete was not applied.
- Network.ReconcileControlPlanePublicIP: the provider assigns addresses only between passes (AllocateAddress), never while a pass runs. So the Get that follows a Create always reads an empty address, and "a newly created IP has no address" holds only under that assumption. Against the real provider, that Get may already see an address, and the pass would then return the name, the address and no error (internal/cloud/evroc/network.go:139-148).
- ClusterController.ClusterWaitsForAddress: "the first pass requeues after 5 seconds" rests on the same assumption. If an address were assigned before the re-Get, that first pass would go on to set the endpoint and mark the cluster ready.
- ClusterController.ClusterBecomesReady: its first-pass wait rests on the same assumption. Readiness on the very first pass is not modelled.
- Logging, RBAC markers, `SetupWithManager`, and the unused `containsString` helper: none affects the outcome of a pass.
- Building the evroc client (`internal/cloud/evroc/service.go`, `evroc.New`): its result is an input to the pass, either no error or an error, because it reads credentials from cluster secrets. service.go is not part of this model.
- The deferred patch of the EvrocCluster / EvrocMachine at the end of a pass, and the errors it can add to `rerr`: the model returns the object the patch would write. Creating the patch helper for these objects is assumed to succeed. Only the patch of the owner Cluster's endpoint and the machine's inner status patch have modelled outcomes (`PatchOutcome`).
- The lookups of the owner Cluster / Machine, the Cluster from metadata, the EvrocCluster and the bootstrap secret: each is an input with its result. The cluster reconciler's second owner lookup is a separate input, so the two may differ, as they can between two API reads.
- Go error wrapping with `%w` and `errors.As`: `Errors.Wrap` prefixes the message and keeps the kind. A network error becomes generic once wrapped, because `net.Error` is matched on the outer value.
- `time.Duration`: requeue delays are whole seconds (`nat`).
- The owned-resource conditions DiskReady, PublicIPReady, VPCReady and SubnetsReady: they are declared in the API types, but the core never sets them.
- CRD validation markers and defaults: specs are taken as given.
- Concurrency, watches, optimistic-locking conflicts and the controller runtime's own requeue on error: one pass is one function application.
- The Kubernetes object fields the core does not read (labels other than the control-plane label, resource versions, owner references): omitted from `Types`.
- The controller test files are not modelled; the lemmas state the behaviours those tests exercise.

## Findings

| source | as written | input that shows it | evidently intended | confidence | as-written member | corrected member |
|---|---|---|---|---|---|---|
| internal/controller/evrocmachine_controller.go:255-263 | `ReconcileMachine` returns nil for a VM that is not yet Running (internal/cloud/evroc/machine.go:182-185, commented "Requeue and check again later"). The reconciler then marks VMReady and Ready True and sets `status.ready`, with no requeue | the first pass over a new machine with no API failures: the VM has just been created and has no state yet | VMReady means "provisioned and running" (api/v1beta1/evrocmachine_types.go:27). A VM not yet Running should leave the machine unready and requeue | medium; not executed | MachineController.ReadyBeforeRunning | MachineController.CorrectedReadyOnlyWhenRunning |
