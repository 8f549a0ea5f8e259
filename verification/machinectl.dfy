/**
 * The EvrocMachine reconciler (internal/controller/evrocmachine_controller.go)
 * as a guard chain. The objects it reads, the bootstrap secret, the service
 * factory and the patch of the machine's status are inputs; the EvrocMachine
 * it hands back is what the deferred patch commits at exit.
 */
module MachineController {
  import opened Errors
  import opened Types
  import opened Conditions
  import opened CloudApi
  import opened Machines
  import Base64

  const MachineFinalizer := "evrocmachine.infrastructure.evroc.com"

  /** The key of the bootstrap secret's data that holds the bootstrap script. */
  const BootstrapValueKey := "value"

  /** What one pass reads: the EvrocMachine, its owner Machine, the Cluster
      named by the Machine's labels, the EvrocCluster that Cluster points at,
      whether the service could be built, the bootstrap secret's data and how
      the status patch inside ReconcileMachine goes. */
  datatype MachineInputs = MachineInputs(
    fetched: Result<EvrocMachine>,
    owner: Result<Option<Machine>>,
    cluster: Result<Cluster>,
    infraCluster: Result<EvrocCluster>,
    service: Option<Error>,
    secret: Result<map<string, seq<Base64.byte>>>,
    statusPatch: PatchOutcome)

  /** One branch of a pass on an EvrocMachine that was found: the machine as
      it will be committed. */
  datatype MStep = MStep(api: Api, machine: EvrocMachine, outcome: Outcome, calls: seq<Call>)

  /** `infra` is the EvrocMachine as committed; None: it was not found. */
  datatype MachineCtlPass = MachineCtlPass(api: Api, infra: Option<EvrocMachine>, outcome: Outcome, calls: seq<Call>)

  const NoAction := Outcome(EmptyResult, None)

  const Wait := Outcome(CtrlResult(BootstrapDataRetryDelay), None)

  function Fail(e: Error): Outcome {
    Outcome(EmptyResult, Some(e))
  }

  /** The machine with its conditions replaced. */
  function WithConditions(m: EvrocMachine, cs: Conditions): (r: EvrocMachine)
    ensures r.meta == m.meta && r.spec == m.spec && r.status.ready == m.status.ready
    ensures r.status.addresses == m.status.addresses && r.status.conditions == cs
  {
    m.(status := m.status.(conditions := cs))
  }

  /**
   * getBootstrapData: the "value" entry of the Machine's bootstrap secret.
   * Fails when the Machine names no secret, when the secret cannot be read
   * (a NotFound stays recognisable through the wrapper) and when the entry is
   * missing.
   */
  function GetBootstrapData(secretName: Option<string>, secret: Result<map<string, seq<Base64.byte>>>)
    : (r: Result<seq<Base64.byte>>)
    ensures r.Ok? <==> secretName.Some? && secret.Ok? && BootstrapValueKey in secret.value
    ensures r.Ok? ==> r.value == secret.value[BootstrapValueKey]
    ensures secretName.None? ==> r == Err(Error(Generic, "bootstrap data secret is not set"))
    ensures secretName.Some? && secret.Err? ==>
              r.Err? && r.error.kind == (if secret.error.kind == Network then Generic else secret.error.kind) &&
              r.error.msg == "failed to get bootstrap data secret: " + secret.error.msg
    ensures IsNotFoundError(if r.Err? then Some(r.error) else None) <==>
              secretName.Some? && secret.Err? && secret.error.kind == NotFound
  {
    if secretName.None? then Err(Error(Generic, "bootstrap data secret is not set"))
    else if secret.Err? then Err(Wrap(secret.error, "failed to get bootstrap data secret"))
    else if BootstrapValueKey !in secret.value then
      Err(Error(Generic, "bootstrap data secret does not contain 'value' key"))
    else Ok(secret.value[BootstrapValueKey])
  }

  const WaitingForInfraReason := "WaitingForClusterInfrastructure"

  const WaitingForControlPlaneReason := "WaitingForControlPlane"

  const WaitingForBootstrapReason := "WaitingForBootstrapData"

  const SecretNotFoundReason := "BootstrapDataSecretNotFound"

  const BootstrapUnavailableReason := "BootstrapDataUnavailable"

  const BootstrapNotReadyReason := "BootstrapDataNotReady"

  const VMFailedReason := "VMReconciliationFailed"

  const VMNotReadyReason := "VMNotReady"

  /** A wait recorded on the machine: condition `t` goes False with an
      informational reason, nothing else changes. */
  function WaitOn(m: EvrocMachine, t: string, reason: string, message: string): (r: EvrocMachine)
    ensures r.meta == m.meta && r.spec == m.spec && r.status.ready == m.status.ready
    ensures IsFalseWith(r.status.conditions, t, reason) && r.status.conditions[t].severity == SeverityInfo
    ensures OnlyChanged(m.status.conditions, r.status.conditions, t)
  {
    WithConditions(m, MarkFalse(m.status.conditions, t, reason, SeverityInfo, message))
  }

  /** How reconcileNormal records bootstrap data it cannot read: BootstrapDataReady
      and Ready go False, with the error in BootstrapDataReady's message. */
  function BootstrapFailed(m: EvrocMachine, e: Error): (r: EvrocMachine)
    ensures r.meta == m.meta && r.spec == m.spec && r.status.ready == m.status.ready
    ensures IsFalseWith(r.status.conditions, BootstrapDataReady, BootstrapUnavailableReason)
    ensures r.status.conditions[BootstrapDataReady].message == "Failed to get bootstrap data: " + e.msg
    ensures IsFalseWith(r.status.conditions, Ready, BootstrapNotReadyReason)
    ensures forall t :: t in m.status.conditions && t != BootstrapDataReady && t != Ready ==>
              t in r.status.conditions && r.status.conditions[t] == m.status.conditions[t]
  {
    var cs1 := MarkFalse(m.status.conditions, BootstrapDataReady, BootstrapUnavailableReason, SeverityError,
                         "Failed to get bootstrap data: " + e.msg);
    WithConditions(m, MarkFalse(cs1, Ready, BootstrapNotReadyReason, SeverityError, "Bootstrap data is not available"))
  }

  /** Where the bootstrap gate leaves a pass: carry on with the data, or stop. */
  datatype Gate = Proceed(machine: EvrocMachine, data: seq<Base64.byte>) | Stop(machine: EvrocMachine, outcome: Outcome)

  /** A worker Machine waits for the control plane before its bootstrap data. */
  predicate WaitsForControlPlane(cl: Cluster, owner: Machine) {
    !owner.controlPlane && !cl.controlPlaneInitialized
  }

  /**
   * The guards of reconcileNormal before any cloud call: the cluster
   * infrastructure must be ready, the Machine must name its bootstrap secret
   * (a worker first waits for the control plane), and the secret must hold the
   * data. Each wait is recorded as a False condition and requeued; a failure
   * to read the data other than NotFound is returned as an error.
   */
  function BootstrapGate(cl: Cluster, owner: Machine, m: EvrocMachine, secret: Result<map<string, seq<Base64.byte>>>)
    : (r: Gate)
    ensures r.machine.meta == m.meta && r.machine.spec == m.spec && r.machine.status.ready == m.status.ready
    ensures r.Proceed? <==> cl.infrastructureReady && GetBootstrapData(owner.bootstrapDataSecretName, secret).Ok?
    ensures r.Proceed? ==>
              r.data == GetBootstrapData(owner.bootstrapDataSecretName, secret).value &&
              IsTrue(r.machine.status.conditions, BootstrapDataReady) &&
              OnlyChanged(m.status.conditions, r.machine.status.conditions, BootstrapDataReady)
    ensures !cl.infrastructureReady ==>
              r.Stop? && r.outcome == Wait && IsFalseWith(r.machine.status.conditions, Ready, WaitingForInfraReason) &&
              OnlyChanged(m.status.conditions, r.machine.status.conditions, Ready)
    ensures cl.infrastructureReady && owner.bootstrapDataSecretName.None? ==>
              r.Stop? && r.outcome == Wait &&
              (if WaitsForControlPlane(cl, owner)
               then IsFalseWith(r.machine.status.conditions, Ready, WaitingForControlPlaneReason) &&
                    OnlyChanged(m.status.conditions, r.machine.status.conditions, Ready)
               else IsFalseWith(r.machine.status.conditions, BootstrapDataReady, WaitingForBootstrapReason) &&
                    OnlyChanged(m.status.conditions, r.machine.status.conditions, BootstrapDataReady))
    ensures cl.infrastructureReady && owner.bootstrapDataSecretName.Some? && secret.Err? && secret.error.kind == NotFound ==>
              r.Stop? && r.outcome == Wait && IsFalseWith(r.machine.status.conditions, BootstrapDataReady, SecretNotFoundReason) &&
              OnlyChanged(m.status.conditions, r.machine.status.conditions, BootstrapDataReady)
    ensures r.Stop? && r.outcome.err.Some? ==>
              r.outcome.result == EmptyResult &&
              r.outcome.err == Some(GetBootstrapData(owner.bootstrapDataSecretName, secret).error) &&
              IsFalseWith(r.machine.status.conditions, BootstrapDataReady, BootstrapUnavailableReason) &&
              IsFalseWith(r.machine.status.conditions, Ready, BootstrapNotReadyReason)
    ensures r.Stop? ==> r.outcome == Wait || r.outcome.err.Some?
  {
    if !cl.infrastructureReady then
      Stop(WaitOn(m, Ready, WaitingForInfraReason, "Waiting for cluster infrastructure to be ready"), Wait)
    else if owner.bootstrapDataSecretName.None? then
      if WaitsForControlPlane(cl, owner) then
        Stop(WaitOn(m, Ready, WaitingForControlPlaneReason, "Waiting for control plane to be initialized"), Wait)
      else
        Stop(WaitOn(m, BootstrapDataReady, WaitingForBootstrapReason, "Waiting for bootstrap data secret to be set"), Wait)
    else
      var data := GetBootstrapData(owner.bootstrapDataSecretName, secret);
      if data.Err? then
        if IsNotFoundError(Some(data.error)) then
          Stop(WaitOn(m, BootstrapDataReady, SecretNotFoundReason, "Bootstrap data secret not found yet"), Wait)
        else
          Stop(BootstrapFailed(m, data.error), Fail(data.error))
      else
        Proceed(WithConditions(m, MarkTrue(m.status.conditions, BootstrapDataReady)), data.value)
  }

  /** How reconcileNormal records a failed ReconcileMachine: VMReady and Ready
      go False, with the error in VMReady's message. */
  function VMFailed(m: EvrocMachine, e: Error): (r: EvrocMachine)
    ensures r.meta == m.meta && r.spec == m.spec && r.status.ready == m.status.ready
    ensures IsFalseWith(r.status.conditions, VMReady, VMFailedReason)
    ensures r.status.conditions[VMReady].message == "Failed to reconcile machine: " + e.msg
    ensures IsFalseWith(r.status.conditions, Ready, VMNotReadyReason)
    ensures forall t :: t in m.status.conditions && t != VMReady && t != Ready ==>
              t in r.status.conditions && r.status.conditions[t] == m.status.conditions[t]
  {
    var cs1 := MarkFalse(m.status.conditions, VMReady, VMFailedReason, SeverityError, "Failed to reconcile machine: " + e.msg);
    WithConditions(m, MarkFalse(cs1, Ready, VMNotReadyReason, SeverityError, "Machine reconciliation failed"))
  }

  /** How reconcileNormal records a ReconcileMachine that returned no error:
      VMReady and Ready go True and the machine is ready. */
  function MarkMachineReady(m: EvrocMachine): (r: EvrocMachine)
    ensures r.meta == m.meta && r.spec == m.spec && r.status.addresses == m.status.addresses
    ensures r.status.ready && IsTrue(r.status.conditions, VMReady) && IsTrue(r.status.conditions, Ready)
    ensures forall t :: t in m.status.conditions && t != VMReady && t != Ready ==>
              t in r.status.conditions && r.status.conditions[t] == m.status.conditions[t]
  {
    var cs := MarkTrue(MarkTrue(m.status.conditions, VMReady), Ready);
    m.(status := m.status.(ready := true, conditions := cs))
  }

  /**
   * The last step of reconcileNormal, as written, given what ReconcileMachine
   * did: on an error mark VMReady and Ready False and return it wrapped;
   * otherwise mark VMReady and Ready True and the machine ready, whatever
   * state the VM is in.
   */
  function RecordProvision(p: MachinePass): (r: MStep)
    ensures r.api == p.api && r.calls == p.calls && r.machine.spec == p.machine.spec
    ensures r.outcome.err.None? <==> p.err.None?
    ensures p.err.None? ==>
              r.outcome == NoAction && r.machine.status.ready &&
              IsTrue(r.machine.status.conditions, VMReady) && IsTrue(r.machine.status.conditions, Ready)
    ensures p.err.Some? ==>
              r.outcome.result == EmptyResult && r.machine.status.ready == p.machine.status.ready &&
              r.outcome.err.value.msg == "failed to reconcile machine: " + p.err.value.msg &&
              IsFalseWith(r.machine.status.conditions, VMReady, VMFailedReason) &&
              IsFalseWith(r.machine.status.conditions, Ready, VMNotReadyReason)
  {
    if p.err.Some? then MStep(p.api, VMFailed(p.machine, p.err.value), Fail(Wrap(p.err.value, "failed to reconcile machine")), p.calls)
    else MStep(p.api, MarkMachineReady(p.machine), NoAction, p.calls)
  }

  /**
   * reconcileNormal, as written: add the finalizer and stop if it is missing;
   * pass the bootstrap gate; then provision and record the result with
   * RecordProvision, which marks the machine ready whatever state the VM is in.
   */
  function MachineNormal(api: Api, ec: EvrocCluster, cl: Cluster, owner: Machine, m: EvrocMachine,
                         secret: Result<map<string, seq<Base64.byte>>>, patch: PatchOutcome): (r: MStep)
    ensures Follows(api, r.api, r.calls)
    ensures OnlyKeys(r.calls, MachinePlan(ec, m, owner)) && GetsAndCreates(r.calls)
    ensures MachineFinalizer !in m.meta.finalizers ==>
              r == MStep(api, m.(meta := m.meta.(finalizers := m.meta.finalizers + {MachineFinalizer})), NoAction, [])
    ensures MachineFinalizer in m.meta.finalizers && BootstrapGate(cl, owner, m, secret).Stop? ==>
              var g := BootstrapGate(cl, owner, m, secret);
              r == MStep(api, g.machine, g.outcome, [])
    ensures MachineFinalizer in m.meta.finalizers && BootstrapGate(cl, owner, m, secret).Proceed? ==>
              var g := BootstrapGate(cl, owner, m, secret);
              r == RecordProvision(ReconcileMachine(api, ec, g.machine, owner, g.data, patch))
    ensures r.calls != [] ==>
              MachineFinalizer in m.meta.finalizers && cl.infrastructureReady &&
              GetBootstrapData(owner.bootstrapDataSecretName, secret).Ok?
  {
    if MachineFinalizer !in m.meta.finalizers then
      MStep(api, m.(meta := m.meta.(finalizers := m.meta.finalizers + {MachineFinalizer})), NoAction, [])
    else
      match BootstrapGate(cl, owner, m, secret)
      case Stop(m1, outcome) => MStep(api, m1, outcome, [])
      case Proceed(m1, data) =>
        assert MachinePlan(ec, m1, owner) == MachinePlan(ec, m, owner);
        RecordProvision(ReconcileMachine(api, ec, m1, owner, data, patch))
  }

  /**
   * As written, the first provisioning pass over a machine (finalizer in
   * place, cluster infrastructure ready, bootstrap data readable, no VM yet,
   * no failures) marks it ready with VMReady and Ready True and no requeue,
   * while the VM it has just created is not Running.
   */
  lemma MachineReadyBeforeRunning(api: Api, ec: EvrocCluster, cl: Cluster, owner: Machine, m: EvrocMachine,
                                  secret: Result<map<string, seq<Base64.byte>>>, patch: PatchOutcome)
    requires MachineFinalizer in m.meta.finalizers && cl.infrastructureReady
    requires GetBootstrapData(owner.bootstrapDataSecretName, secret).Ok?
    requires NoFaultsAhead(api) && VMKey(ec, m) !in api.store
    ensures var r := MachineNormal(api, ec, cl, owner, m, secret, patch);
            r.outcome == NoAction && r.machine.status.ready &&
            IsTrue(r.machine.status.conditions, VMReady) && IsTrue(r.machine.status.conditions, Ready) &&
            VMKey(ec, m) in r.api.store && StatusOf(r.api.store[VMKey(ec, m)]).state != Running
  {
    var g := BootstrapGate(cl, owner, m, secret);
    assert VMKey(ec, g.machine) == VMKey(ec, m);
    ReadyBeforeRunning(api, ec, owner, g.machine, g.data, patch);
  }

  /** reconcileNormal with the corrected tail: the same guards, but a VM that
      is not yet Running is waited for (RecordProvisionCorrected). */
  function MachineNormalCorrected(api: Api, ec: EvrocCluster, cl: Cluster, owner: Machine, m: EvrocMachine,
                                  secret: Result<map<string, seq<Base64.byte>>>, patch: PatchOutcome): (r: MStep)
    ensures Follows(api, r.api, r.calls)
    ensures OnlyKeys(r.calls, MachinePlan(ec, m, owner)) && GetsAndCreates(r.calls)
    ensures MachineFinalizer !in m.meta.finalizers || BootstrapGate(cl, owner, m, secret).Stop? ==>
              r == MachineNormal(api, ec, cl, owner, m, secret, patch)
  {
    if MachineFinalizer !in m.meta.finalizers then
      MStep(api, m.(meta := m.meta.(finalizers := m.meta.finalizers + {MachineFinalizer})), NoAction, [])
    else
      match BootstrapGate(cl, owner, m, secret)
      case Stop(m1, outcome) => MStep(api, m1, outcome, [])
      case Proceed(m1, data) =>
        assert MachinePlan(ec, m1, owner) == MachinePlan(ec, m, owner);
        RecordProvisionCorrected(ReconcileMachine(api, ec, m1, owner, data, patch))
  }

  /**
   * The last step of reconcileNormal as the VMReady condition describes it:
   * a VM that is not yet running is waited for, and neither VMReady nor
   * Ready nor the machine's readiness is touched until it is.
   */
  function RecordProvisionCorrected(p: MachinePass): (r: MStep)
    ensures r.api == p.api && r.calls == p.calls
    ensures p.err.None? && (p.vm.None? || StatusOf(p.vm.value).state != Running) ==>
              r.outcome == Wait && r.machine == p.machine
    ensures r.machine.status.ready && !p.machine.status.ready ==>
              r.outcome == NoAction && p.vm.Some? && StatusOf(p.vm.value).state == Running
    ensures IsTrue(r.machine.status.conditions, VMReady) && !IsTrue(p.machine.status.conditions, VMReady) ==>
              p.vm.Some? && StatusOf(p.vm.value).state == Running
  {
    if p.err.Some? then MStep(p.api, VMFailed(p.machine, p.err.value), Fail(Wrap(p.err.value, "failed to reconcile machine")), p.calls)
    else if p.vm.None? || StatusOf(p.vm.value).state != Running then MStep(p.api, p.machine, Wait, p.calls)
    else MStep(p.api, MarkMachineReady(p.machine), NoAction, p.calls)
  }

  /** With the corrected tail, a normal pass makes the machine ready only when
      the VM stored under its key reports Running. */
  lemma CorrectedNormalReadyOnlyWhenRunning(api: Api, ec: EvrocCluster, cl: Cluster, owner: Machine, m: EvrocMachine,
                                            secret: Result<map<string, seq<Base64.byte>>>, patch: PatchOutcome)
    ensures var r := MachineNormalCorrected(api, ec, cl, owner, m, secret, patch);
            r.machine.status.ready && !m.status.ready ==>
              VMKey(ec, m) in r.api.store && StatusOf(r.api.store[VMKey(ec, m)]).state == Running
  {
    if MachineFinalizer in m.meta.finalizers {
      match BootstrapGate(cl, owner, m, secret)
      case Stop(_, _) =>
      case Proceed(m1, data) =>
        assert VMKey(ec, m1) == VMKey(ec, m);
        var p := ReconcileMachine(api, ec, m1, owner, data, patch);
        if p.vm.Some? {
          assert p.machine.status.ready && !m1.status.ready ==> StatusOf(p.vm.value).state == Running;
        }
    }
  }

  /**
   * As written, a pass with no failures over a machine whose VM is new marks
   * the EvrocMachine ready, with VMReady and Ready True, while the VM it just
   * created has not reported Running.
   */
  lemma ReadyBeforeRunning(api: Api, ec: EvrocCluster, owner: Machine, m: EvrocMachine,
                           data: seq<Base64.byte>, patch: PatchOutcome)
    requires NoFaultsAhead(api) && VMKey(ec, m) !in api.store
    ensures var r := RecordProvision(ReconcileMachine(api, ec, m, owner, data, patch));
            r.outcome == NoAction && r.machine.status.ready &&
            IsTrue(r.machine.status.conditions, VMReady) && IsTrue(r.machine.status.conditions, Ready) &&
            VMKey(ec, m) in r.api.store && StatusOf(r.api.store[VMKey(ec, m)]).state != Running
  {
    var p := ReconcileMachine(api, ec, m, owner, data, patch);
    MachineCreatesOnlyDesired(api, ec, m, owner, data, patch);
    assert p.api.store[VMKey(ec, m)].VMRes? && p.api.store[VMKey(ec, m)].status == NoVMStatus;
  }

  /** Corrected, the same pass waits and leaves the machine as it was. */
  lemma WaitsWhileNotRunning(api: Api, ec: EvrocCluster, owner: Machine, m: EvrocMachine,
                             data: seq<Base64.byte>, patch: PatchOutcome)
    requires NoFaultsAhead(api) && VMKey(ec, m) !in api.store
    ensures var r := RecordProvisionCorrected(ReconcileMachine(api, ec, m, owner, data, patch));
            r.outcome == Wait && r.machine == m
  {
    var p := ReconcileMachine(api, ec, m, owner, data, patch);
    MachineCreatesOnlyDesired(api, ec, m, owner, data, patch);
    assert p.api.store[VMKey(ec, m)].VMRes? && p.api.store[VMKey(ec, m)].status == NoVMStatus;
  }

  /** Corrected, a pass marks the machine ready, or VMReady True, only when the
      VM stored under its key reports Running. */
  lemma CorrectedReadyOnlyWhenRunning(api: Api, ec: EvrocCluster, owner: Machine, m: EvrocMachine,
                                      data: seq<Base64.byte>, patch: PatchOutcome)
    ensures var r := RecordProvisionCorrected(ReconcileMachine(api, ec, m, owner, data, patch));
            (r.machine.status.ready && !m.status.ready) ||
            (IsTrue(r.machine.status.conditions, VMReady) && !IsTrue(m.status.conditions, VMReady)) ==>
              VMKey(ec, m) in r.api.store && StatusOf(r.api.store[VMKey(ec, m)]).state == Running
  {
    var p := ReconcileMachine(api, ec, m, owner, data, patch);
    if p.vm.Some? {
      var st := StatusOf(p.vm.value);
      assert st.state != Running ==> p.machine == m;
    }
  }

  /**
   * As written, when the VM is running but patching the recorded status
   * fails, the pass returns the error with Ready False, yet the machine it
   * hands to the deferred patch is marked ready: ReconcileMachine set the
   * flag before its own patch failed.
   */
  lemma ReadyDespiteFailedStatusPatch(api: Api, ec: EvrocCluster, owner: Machine, m: EvrocMachine,
                                      data: seq<Base64.byte>, e: Error)
    requires NoFaultsAhead(api)
    requires BootDiskKey(ec, m) in api.store && VMKey(ec, m) in api.store
    requires OwnsPublicIP(ec, m, owner) ==> MachinePublicIPKey(ec, m) in api.store
    requires StatusOf(api.store[VMKey(ec, m)]).state == Running
    ensures var r := RecordProvision(ReconcileMachine(api, ec, m, owner, data, PatchFails(e)));
            r.outcome.err.Some? && r.machine.status.ready && IsFalseWith(r.machine.status.conditions, Ready, VMNotReadyReason)
  {
    MachineSettled(api, ec, m, owner, data, PatchFails(e));
  }

  /** reconcileDelete: delete the machine's cloud resources; only when that
      succeeds is the finalizer removed. */
  function MachineDelete(api: Api, ec: EvrocCluster, m: EvrocMachine): (r: MStep)
    ensures Follows(api, r.api, r.calls)
    ensures OnlyDeletes(r.calls) && Keys(r.calls) <= MachineDeletionPlan(ec, m)
    ensures r.outcome.err.None? <==> AllTolerated(r.calls, MachineForbiddenOk) && Keys(r.calls) == MachineDeletionPlan(ec, m)
    ensures r.outcome.err.None? ==>
              r.outcome == NoAction && r.machine == m.(meta := m.meta.(finalizers := m.meta.finalizers - {MachineFinalizer}))
    ensures r.outcome.err.Some? ==> r.machine == m && r.outcome.result == EmptyResult
    ensures NoFaultsAhead(api) ==> r.outcome.err.None? && NoneStored(r.api.store, MachineDeletionPlan(ec, m))
  {
    var d := DeleteMachine(api, ec, m);
    if d.err.Some? then
      StopsAtLastNotAll(d.calls, MachineForbiddenOk);
      MStep(d.api, m, Fail(Wrap(d.err.value, "failed to delete machine")), d.calls)
    else
      MStep(d.api, m.(meta := m.meta.(finalizers := m.meta.finalizers - {MachineFinalizer})), NoAction, d.calls)
  }

  /** The pass as committed, for an EvrocMachine that was found. */
  function FoundMachine(s: MStep): MachineCtlPass {
    MachineCtlPass(s.api, Some(s.machine), s.outcome, s.calls)
  }

  /** Everything Reconcile needs before it may act on the machine is there:
      the owner Machine, its Cluster and that Cluster's EvrocCluster. */
  predicate Linked(inputs: MachineInputs) {
    inputs.fetched.Ok? && inputs.owner.Ok? && inputs.owner.value.Some? && inputs.cluster.Ok? && inputs.infraCluster.Ok?
  }

  /** Reconcile reaches the deletion or normal branch: everything is linked,
      nothing is paused and the service was built. */
  predicate Routed(inputs: MachineInputs) {
    Linked(inputs) && !IsPaused(inputs.cluster.value, inputs.fetched.value.meta) && inputs.service.None?
  }

  /**
   * Reconcile: fetch the EvrocMachine (gone: nothing to do); without an owner
   * Machine, its Cluster or the EvrocCluster there is nothing to do yet (only
   * an error reading the owner is returned); stop while paused; build the
   * service (a missing identity secret is waited for); then route to deletion
   * or to normal reconciliation.
   */
  function ReconcileEvrocMachine(api: Api, inputs: MachineInputs): (r: MachineCtlPass)
    ensures Follows(api, r.api, r.calls)
    ensures r.calls == [] ==> r.api == api
    ensures inputs.fetched.Err? && inputs.fetched.error.kind == NotFound ==> r == MachineCtlPass(api, None, NoAction, [])
    ensures inputs.fetched.Err? && inputs.fetched.error.kind != NotFound ==>
              r == MachineCtlPass(api, None, Fail(inputs.fetched.error), [])
    ensures inputs.fetched.Ok? && inputs.owner.Err? ==> r == MachineCtlPass(api, Some(inputs.fetched.value), Fail(inputs.owner.error), [])
    ensures inputs.fetched.Ok? && !Linked(inputs) ==>
              r.calls == [] && r.infra == Some(inputs.fetched.value) &&
              (r.outcome.err.Some? <==> inputs.owner.Err?)
    ensures inputs.fetched.Ok? && inputs.owner.Ok? && !Linked(inputs) ==>
              r == MachineCtlPass(api, Some(inputs.fetched.value), NoAction, [])
    ensures Linked(inputs) && IsPaused(inputs.cluster.value, inputs.fetched.value.meta) ==>
              r == MachineCtlPass(api, Some(inputs.fetched.value), NoAction, [])
    ensures Linked(inputs) && !IsPaused(inputs.cluster.value, inputs.fetched.value.meta) && inputs.service.Some? ==>
              r.calls == [] && r.infra == Some(inputs.fetched.value) &&
              (if IsNotFoundError(inputs.service) then r.outcome == Wait
               else r.outcome.err.Some? && r.outcome.err.value.msg == "failed to create evroc client: " + inputs.service.value.msg)
    ensures Routed(inputs) && inputs.fetched.value.meta.deleting ==>
              r == FoundMachine(MachineDelete(api, inputs.infraCluster.value, inputs.fetched.value))
    ensures Routed(inputs) && !inputs.fetched.value.meta.deleting ==>
              r == FoundMachine(MachineNormal(api, inputs.infraCluster.value, inputs.cluster.value, inputs.owner.value.value,
                                              inputs.fetched.value, inputs.secret, inputs.statusPatch))
    ensures r.calls != [] ==> Routed(inputs)
    ensures inputs.fetched.Ok? && inputs.fetched.value.meta.deleting ==> OnlyDeletes(r.calls)
    ensures inputs.fetched.Ok? && !inputs.fetched.value.meta.deleting ==> GetsAndCreates(r.calls)
  {
    if inputs.fetched.Err? then
      MachineCtlPass(api, None, if inputs.fetched.error.kind == NotFound then NoAction else Fail(inputs.fetched.error), [])
    else
      var m := inputs.fetched.value;
      if inputs.owner.Err? then MachineCtlPass(api, Some(m), Fail(inputs.owner.error), [])
      else if inputs.owner.value.None? || inputs.cluster.Err? || inputs.infraCluster.Err? then
        MachineCtlPass(api, Some(m), NoAction, [])
      else if IsPaused(inputs.cluster.value, m.meta) then MachineCtlPass(api, Some(m), NoAction, [])
      else if inputs.service.Some? then
        MachineCtlPass(api, Some(m),
                       if IsNotFoundError(inputs.service) then Wait
                       else Fail(Wrap(inputs.service.value, "failed to create evroc client")), [])
      else if m.meta.deleting then FoundMachine(MachineDelete(api, inputs.infraCluster.value, m))
      else
        FoundMachine(MachineNormal(api, inputs.infraCluster.value, inputs.cluster.value, inputs.owner.value.value,
                                   m, inputs.secret, inputs.statusPatch))
  }

  /**
   * As written, at the top level: a machine whose pass reaches provisioning
   * for the first time, with no failures, is committed ready with no requeue
   * while its newly created VM is not Running.
   */
  lemma ReconcileReadyBeforeRunning(api: Api, inputs: MachineInputs)
    requires Routed(inputs) && !inputs.fetched.value.meta.deleting
    requires MachineFinalizer in inputs.fetched.value.meta.finalizers && inputs.cluster.value.infrastructureReady
    requires GetBootstrapData(inputs.owner.value.value.bootstrapDataSecretName, inputs.secret).Ok?
    requires NoFaultsAhead(api) && VMKey(inputs.infraCluster.value, inputs.fetched.value) !in api.store
    ensures var r := ReconcileEvrocMachine(api, inputs);
            var key := VMKey(inputs.infraCluster.value, inputs.fetched.value);
            r.outcome == NoAction && r.infra.Some? && r.infra.value.status.ready &&
            key in r.api.store && StatusOf(r.api.store[key]).state != Running
  {
    MachineReadyBeforeRunning(api, inputs.infraCluster.value, inputs.cluster.value, inputs.owner.value.value,
                              inputs.fetched.value, inputs.secret, inputs.statusPatch);
  }
}
