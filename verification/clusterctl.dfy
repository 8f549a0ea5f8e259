/**
 * The EvrocCluster reconciler (internal/controller/evroccluster_controller.go)
 * as a guard chain. The objects it reads, the service factory and the Cluster
 * patch are inputs; the EvrocCluster it hands back is what the deferred patch
 * commits at exit.
 */
module ClusterController {
  import opened Errors
  import opened Types
  import opened Conditions
  import opened CloudApi
  import opened Network

  const ClusterFinalizer := "evroccluster.infrastructure.evroc.com"

  /** The port every control-plane endpoint is given. */
  const ApiServerPort := 6443

  /** What one pass reads: the EvrocCluster, its owner Cluster (at the start,
      and again before the endpoint step), whether the service could be built,
      and how the Cluster patch goes. */
  datatype ClusterInputs = ClusterInputs(
    fetched: Result<EvrocCluster>,
    owner: Result<Option<Cluster>>,
    service: Option<Error>,
    ownerForEndpoint: Result<Option<Cluster>>,
    endpointPatch: PatchOutcome)

  /** `infra` is the EvrocCluster as committed (None: it was not found);
      `endpoint` the control-plane endpoint patched into the Cluster, if any. */
  datatype ClusterPass = ClusterPass(
    api: Api,
    infra: Option<EvrocCluster>,
    endpoint: Option<ApiEndpoint>,
    outcome: Outcome,
    calls: seq<Call>)

  /** One branch of a pass on an EvrocCluster that was found: the cluster as
      it will be committed, the endpoint patched into the owner, if any. */
  datatype Step = Step(api: Api, cluster: EvrocCluster, endpoint: Option<ApiEndpoint>, outcome: Outcome, calls: seq<Call>)

  /** The address the store holds for the control-plane public IP; empty when
      there is none yet. */
  function CPAddress(store: Store, c: EvrocCluster): string {
    var key := ControlPlanePublicIPKey(c);
    if key in store then AddressOf(store[key]) else ""
  }

  const NoAction := Outcome(EmptyResult, None)

  const Wait := Outcome(CtrlResult(BootstrapDataRetryDelay), None)

  function Fail(e: Error): Outcome {
    Outcome(EmptyResult, Some(e))
  }

  /**
   * reconcileControlPlaneEndpoint: nothing to do when the Cluster already
   * points at the address on the API server port; otherwise patch the
   * endpoint in, reporting a patch-helper or patch failure as an error.
   * Returns the endpoint written, if any.
   */
  function ReconcileControlPlaneEndpoint(cl: Cluster, address: string, patch: PatchOutcome): (r: (Option<ApiEndpoint>, Option<Error>))
    ensures cl.controlPlaneEndpoint == ApiEndpoint(address, ApiServerPort) ==> r == (None, None)
    ensures r.0.Some? ==> r.0.value == ApiEndpoint(address, ApiServerPort) && r.1.None?
    ensures r.1.None? && r.0.None? ==> cl.controlPlaneEndpoint == ApiEndpoint(address, ApiServerPort)
    ensures r.1.Some? ==> r.0.None? && !patch.Patched?
    ensures r.1.Some? && patch.HelperFails? ==>
              r.1.value.msg == "failed to create patch helper for cluster: " + patch.helperError.msg
    ensures r.1.Some? && patch.PatchFails? ==>
              r.1.value.msg == "failed to patch cluster with control plane endpoint: " + patch.patchError.msg
  {
    if cl.controlPlaneEndpoint.host == address && cl.controlPlaneEndpoint.port == ApiServerPort then (None, None)
    else
      match patch
      case HelperFails(e) => (None, Some(Wrap(e, "failed to create patch helper for cluster")))
      case PatchFails(e) => (None, Some(Wrap(e, "failed to patch cluster with control plane endpoint")))
      case Patched => (Some(ApiEndpoint(address, ApiServerPort)), None)
  }

  /** Once the endpoint has been patched in, the next pass leaves the Cluster alone. */
  lemma EndpointSettles(cl: Cluster, address: string, patch: PatchOutcome, later: PatchOutcome)
    ensures var r := ReconcileControlPlaneEndpoint(cl, address, patch);
            r.0.Some? ==> ReconcileControlPlaneEndpoint(cl.(controlPlaneEndpoint := r.0.value), address, later) == (None, None)
  {
  }

  /**
   * The tail of reconcileNormal once the control-plane address is known:
   * point the owner Cluster (if there is one yet) at it, then mark the
   * EvrocCluster Ready.
   */
  function FinishWithAddress(c: EvrocCluster, address: string, owner: Result<Option<Cluster>>, patch: PatchOutcome)
    : (r: (EvrocCluster, Option<ApiEndpoint>, Outcome))
    ensures owner.Err? ==> r == (c, None, Fail(owner.error))
    ensures r.2.err.None? ==>
              r.2 == NoAction && r.0.status.ready && IsTrue(r.0.status.conditions, Ready) &&
              r.0 == c.(status := r.0.status) &&
              r.0.status == c.status.(ready := true, conditions := r.0.status.conditions) &&
              OnlyChanged(c.status.conditions, r.0.status.conditions, Ready)
    ensures r.2.err.Some? ==> r.0 == c && r.2.result == EmptyResult && r.1.None?
    ensures owner == Ok(None) ==> r.1.None? && r.2 == NoAction
    ensures r.1.Some? ==> r.1.value == ApiEndpoint(address, ApiServerPort)
    ensures owner.Ok? && owner.value.Some? && owner.value.value.controlPlaneEndpoint != ApiEndpoint(address, ApiServerPort) ==>
              (r.1.Some? <==> patch.Patched?)
  {
    if owner.Err? then (c, None, Fail(owner.error))
    else
      var e := if owner.value.Some? then ReconcileControlPlaneEndpoint(owner.value.value, address, patch) else (None, None);
      if e.1.Some? then (c, None, Fail(Wrap(e.1.value, "failed to reconcile control plane endpoint")))
      else
        var done := c.(status := c.status.(ready := true, conditions := MarkTrue(c.status.conditions, Ready)));
        (done, e.0, NoAction)
  }

  /**
   * The part of reconcileNormal after the network: mark the network ready,
   * reconcile the control-plane public IP and record its name, wait while it
   * has no address, then finish.
   */
  function AfterNetwork(api: Api, c: EvrocCluster, owner: Result<Option<Cluster>>, patch: PatchOutcome): (r: Step)
    ensures Follows(api, r.api, r.calls)
    ensures OnlyKeys(r.calls, [ControlPlanePublicIPKey(c)]) && GetsAndCreates(r.calls) && 0 < |r.calls|
    ensures r.cluster.meta == c.meta && r.cluster.spec == c.spec && r.cluster.status.network == c.status.network
    ensures IsTrue(r.cluster.status.conditions, NetworkReady)
    ensures r.outcome.err.None? ==>
              r.cluster.status.controlPlanePublicIPName == ControlPlanePublicIPName(c) &&
              ControlPlanePublicIPKey(c) in r.api.store
    ensures r.outcome.err.None? && CPAddress(r.api.store, c) == "" ==>
              r.outcome == Wait && r.cluster.status.ready == c.status.ready
    ensures r.cluster.status.ready && !c.status.ready ==> r.outcome == NoAction && CPAddress(r.api.store, c) != ""
    ensures r.outcome.err.Some? ==> r.outcome.result == EmptyResult && r.cluster.status.ready == c.status.ready
    ensures r.endpoint.Some? ==> r.outcome == NoAction && r.endpoint.value == ApiEndpoint(CPAddress(r.api.store, c), ApiServerPort)
    ensures NoFaultsAhead(api) && owner.Ok? && patch.Patched? ==> r.outcome.err.None?
  {
    var marked := c.(status := c.status.(conditions := MarkTrue(c.status.conditions, NetworkReady)));
    var p := ReconcileControlPlanePublicIP(api, c);
    if p.err.Some? then
      Step(p.api, marked, None, Fail(Wrap(p.err.value, "failed to reconcile control plane PublicIP")), p.calls)
    else
      var named := marked.(status := marked.status.(controlPlanePublicIPName := p.name));
      if p.address == "" then Step(p.api, named, None, Wait, p.calls)
      else
        var f := FinishWithAddress(named, p.address, owner, patch);
        Step(p.api, f.0, f.1, f.2, p.calls)
  }

  const NetworkFailedReason := "NetworkReconciliationFailed"

  const NetworkNotReadyReason := "NetworkNotReady"

  /** How reconcileNormal records a failed network reconciliation: both
      NetworkReady and Ready go False, with the error in NetworkReady's message. */
  function NetworkFailed(c: EvrocCluster, status: NetworkStatus, e: Error): (r: EvrocCluster)
    ensures r.meta == c.meta && r.spec == c.spec
    ensures r.status == c.status.(network := status, conditions := r.status.conditions)
    ensures IsFalseWith(r.status.conditions, NetworkReady, NetworkFailedReason)
    ensures r.status.conditions[NetworkReady].severity == SeverityError
    ensures r.status.conditions[NetworkReady].message == "Failed to reconcile network: " + e.msg
    ensures IsFalseWith(r.status.conditions, Ready, NetworkNotReadyReason)
    ensures r.status.conditions[Ready].severity == SeverityError
    ensures forall t :: t in c.status.conditions && t != NetworkReady && t != Ready ==>
              t in r.status.conditions && r.status.conditions[t] == c.status.conditions[t]
  {
    var cs := MarkFalse(c.status.conditions, NetworkReady, NetworkFailedReason, SeverityError,
                        "Failed to reconcile network: " + e.msg);
    var cs2 := MarkFalse(cs, Ready, NetworkNotReadyReason, SeverityError, "Network reconciliation failed");
    c.(status := c.status.(network := status, conditions := cs2))
  }

  /**
   * reconcileNormal: add the finalizer and stop if it is missing; otherwise
   * reconcile the network, and on failure mark NetworkReady and Ready False
   * and stop before the control-plane public IP; otherwise carry on.
   */
  function ClusterNormal(api: Api, c: EvrocCluster, owner: Result<Option<Cluster>>, patch: PatchOutcome): (r: Step)
    ensures Follows(api, r.api, r.calls)
    ensures ClusterFinalizer !in c.meta.finalizers ==>
              r == Step(api, c.(meta := c.meta.(finalizers := c.meta.finalizers + {ClusterFinalizer})), None, NoAction, [])
    ensures r.cluster.spec == c.spec && (ClusterFinalizer in c.meta.finalizers ==> r.cluster.meta == c.meta)
    ensures OnlyKeys(r.calls, NetworkPlan(c) + [ControlPlanePublicIPKey(c)]) && GetsAndCreates(r.calls)
    ensures ClusterFinalizer in c.meta.finalizers && ReconcileNetwork(api, c).err.Some? ==>
              r.outcome.err.Some? && r.outcome.result == EmptyResult && r.endpoint.None? &&
              OnlyKeys(r.calls, NetworkPlan(c)) && r.cluster.status.ready == c.status.ready &&
              IsFalseWith(r.cluster.status.conditions, NetworkReady, NetworkFailedReason) &&
              IsFalseWith(r.cluster.status.conditions, Ready, NetworkNotReadyReason)
    ensures ClusterFinalizer in c.meta.finalizers ==> r.cluster.status.network == ReconcileNetwork(api, c).status
    ensures ClusterFinalizer in c.meta.finalizers && ReconcileNetwork(api, c).err.None? ==>
              IsTrue(r.cluster.status.conditions, NetworkReady)
    ensures r.cluster.status.ready && !c.status.ready ==> r.outcome == NoAction && CPAddress(r.api.store, c) != ""
  {
    if ClusterFinalizer !in c.meta.finalizers then
      Step(api, c.(meta := c.meta.(finalizers := c.meta.finalizers + {ClusterFinalizer})), None, NoAction, [])
    else
      var n := ReconcileNetwork(api, c);
      if n.err.Some? then
        ConcatKeys(n.calls, [], NetworkPlan(c), [ControlPlanePublicIPKey(c)]);
        assert n.calls + [] == n.calls;
        Step(n.api, NetworkFailed(c, n.status, n.err.value), None, Fail(Wrap(n.err.value, "failed to reconcile network")), n.calls)
      else
        var a := AfterNetwork(n.api, c.(status := c.status.(network := n.status)), owner, patch);
        ConcatKeys(n.calls, a.calls, NetworkPlan(c), [ControlPlanePublicIPKey(c)]);
        ConcatCreates(n.calls, a.calls);
        var calls := n.calls + a.calls;
        assert |calls| == |n.calls| + |a.calls|;
        Step(a.api, a.cluster, a.endpoint, a.outcome, calls)
  }

  /** reconcileDelete: tear the network down; only when that succeeds is the
      finalizer removed. */
  function ClusterDelete(api: Api, c: EvrocCluster): (r: Step)
    ensures Follows(api, r.api, r.calls) && r.endpoint.None?
    ensures OnlyDeletes(r.calls) && Keys(r.calls) <= DeletionPlan(c)
    ensures r.outcome.err.None? <==> AllTolerated(r.calls, NetworkForbiddenOk) && Keys(r.calls) == DeletionPlan(c)
    ensures r.outcome.err.None? ==>
              r.outcome == NoAction && r.cluster == c.(meta := c.meta.(finalizers := c.meta.finalizers - {ClusterFinalizer}))
    ensures r.outcome.err.Some? ==> r.cluster == c && r.outcome.result == EmptyResult
    ensures NoFaultsAhead(api) ==> r.outcome.err.None? && NoneStored(r.api.store, DeletionPlan(c))
  {
    var d := DeleteNetwork(api, c);
    if d.err.Some? then
      StopsAtLastNotAll(d.calls, NetworkForbiddenOk);
      Step(d.api, c, None, Fail(Wrap(d.err.value, "failed to delete network")), d.calls)
    else
      Step(d.api, c.(meta := c.meta.(finalizers := c.meta.finalizers - {ClusterFinalizer})), None, NoAction, d.calls)
  }

  /** The pass as committed, for an EvrocCluster that was found. */
  function Found(s: Step): ClusterPass {
    ClusterPass(s.api, Some(s.cluster), s.endpoint, s.outcome, s.calls)
  }

  /** Reconcile reaches the deletion or normal branch: the EvrocCluster was
      fetched, its owner lookup did not fail, it is not paused and the service
      was built. */
  predicate Routed(inputs: ClusterInputs) {
    inputs.fetched.Ok? && inputs.owner.Ok? &&
    !(inputs.owner.value.Some? && IsPaused(inputs.owner.value.value, inputs.fetched.value.meta)) &&
    inputs.service.None?
  }

  /**
   * Reconcile: fetch the EvrocCluster (gone: nothing to do), its owner Cluster
   * (optional, but an error is returned), stop while paused, build the
   * service (a missing identity secret is waited for), then route to deletion
   * or to normal reconciliation.
   */
  function ReconcileCluster(api: Api, inputs: ClusterInputs): (r: ClusterPass)
    ensures Follows(api, r.api, r.calls)
    ensures inputs.fetched.Err? && inputs.fetched.error.kind == NotFound ==>
              r == ClusterPass(api, None, None, NoAction, [])
    ensures inputs.fetched.Err? && inputs.fetched.error.kind != NotFound ==>
              r == ClusterPass(api, None, None, Fail(inputs.fetched.error), [])
    ensures inputs.fetched.Ok? && inputs.owner.Err? ==>
              r == ClusterPass(api, Some(inputs.fetched.value), None, Fail(inputs.owner.error), [])
    ensures inputs.fetched.Ok? && inputs.owner.Ok? && inputs.owner.value.Some? && IsPaused(inputs.owner.value.value, inputs.fetched.value.meta) ==>
              r == ClusterPass(api, Some(inputs.fetched.value), None, NoAction, [])
    ensures r.calls == [] ==> r.api == api
    ensures inputs.fetched.Ok? && inputs.owner.Ok? && !(inputs.owner.value.Some? && IsPaused(inputs.owner.value.value, inputs.fetched.value.meta)) &&
            inputs.service.Some? ==>
              r.calls == [] && r.infra == Some(inputs.fetched.value) &&
              (if IsNotFoundError(inputs.service) then r.outcome == Wait
               else r.outcome.err.Some? && r.outcome.err.value.msg == "failed to create evroc client: " + inputs.service.value.msg)
    ensures Routed(inputs) && inputs.fetched.value.meta.deleting ==>
              r == Found(ClusterDelete(api, inputs.fetched.value))
    ensures Routed(inputs) && !inputs.fetched.value.meta.deleting ==>
              r == Found(ClusterNormal(api, inputs.fetched.value, inputs.ownerForEndpoint, inputs.endpointPatch))
    ensures r.calls != [] ==> Routed(inputs)
    ensures inputs.fetched.Ok? && inputs.fetched.value.meta.deleting ==> OnlyDeletes(r.calls)
    ensures inputs.fetched.Ok? && !inputs.fetched.value.meta.deleting ==> GetsAndCreates(r.calls)
  {
    if inputs.fetched.Err? then
      ClusterPass(api, None, None, if inputs.fetched.error.kind == NotFound then NoAction else Fail(inputs.fetched.error), [])
    else
      var c := inputs.fetched.value;
      if inputs.owner.Err? then ClusterPass(api, Some(c), None, Fail(inputs.owner.error), [])
      else if inputs.owner.value.Some? && IsPaused(inputs.owner.value.value, c.meta) then ClusterPass(api, Some(c), None, NoAction, [])
      else if inputs.service.Some? then
        ClusterPass(api, Some(c), None,
                    if IsNotFoundError(inputs.service) then Wait else Fail(Wrap(inputs.service.value, "failed to create evroc client")), [])
      else if c.meta.deleting then Found(ClusterDelete(api, c))
      else Found(ClusterNormal(api, c, inputs.ownerForEndpoint, inputs.endpointPatch))
  }

  /** A pass marks the EvrocCluster ready only on the normal path and only
      once the store holds an address for its control-plane public IP. */
  lemma ClusterReadyNeedsAddress(api: Api, inputs: ClusterInputs)
    requires inputs.fetched.Ok? && !inputs.fetched.value.status.ready
    ensures var r := ReconcileCluster(api, inputs);
            r.infra.Some? && r.infra.value.status.ready ==>
              !inputs.fetched.value.meta.deleting && r.outcome == NoAction &&
              CPAddress(r.api.store, inputs.fetched.value) != ""
  {
  }

  /** With no failures ahead, the network pass over a cluster that has none of
      its resources yet succeeds and leaves the control-plane public IP absent. */
  lemma NetworkLeavesIPFree(api: Api, c: EvrocCluster)
    requires NoFaultsAhead(api) && NoneStored(api.store, DeletionPlan(c))
    ensures var n := ReconcileNetwork(api, c);
            n.err.None? && NoFaultsAhead(n.api) && AllStored(n.api.store, NetworkPlan(c)) &&
            ControlPlanePublicIPKey(c) !in n.api.store
  {
    var key := ControlPlanePublicIPKey(c);
    assert key in DeletionPlan(c);
    NetworkCreatesOnlyPlan(api, c);
    assert forall s :: SubnetKey(c.spec.project, s) != key;
  }

  /** Past the finalizer and a successful network pass, reconcileNormal ends
      as the steps after the network end. */
  lemma NormalEndsAsAfterNetwork(api: Api, c: EvrocCluster, owner: Result<Option<Cluster>>, patch: PatchOutcome)
    requires ClusterFinalizer in c.meta.finalizers && ReconcileNetwork(api, c).err.None?
    ensures var n := ReconcileNetwork(api, c);
            var a := AfterNetwork(n.api, c.(status := c.status.(network := n.status)), owner, patch);
            var r := ClusterNormal(api, c, owner, patch);
            r.api == a.api && r.cluster == a.cluster && r.endpoint == a.endpoint && r.outcome == a.outcome
  {
  }

  /** With no failures ahead and no control-plane public IP yet, the steps
      after the network create that IP with an empty address and wait. */
  lemma AfterNetworkCreatesIP(api: Api, c: EvrocCluster, owner: Result<Option<Cluster>>, patch: PatchOutcome)
    requires NoFaultsAhead(api) && ControlPlanePublicIPKey(c) !in api.store
    ensures var a := AfterNetwork(api, c, owner, patch);
            a.outcome == Wait && a.cluster.status.ready == c.status.ready && a.endpoint.None? &&
            a.cluster.status.controlPlanePublicIPName == ControlPlanePublicIPName(c) &&
            NoFaultsAhead(a.api) && a.api.store == api.store[ControlPlanePublicIPKey(c) := PublicIPRes("")]
  {
    var p := ReconcileControlPlanePublicIP(api, c);
    assert p.err.None? && p.address == "";
    assert p.api.store == api.store[ControlPlanePublicIPKey(c) := PublicIPRes("")];
  }

  /** The first pass over a fresh cluster with the finalizer in place and no
      failures: the network and the control-plane public IP are created, and
      the reconciler waits for the provider to allocate an address. */
  lemma ClusterWaitsForAddress(api: Api, c: EvrocCluster, owner: Result<Option<Cluster>>, patch: PatchOutcome)
    requires NoFaultsAhead(api) && NoneStored(api.store, DeletionPlan(c))
    requires ClusterFinalizer in c.meta.finalizers
    ensures var r := ClusterNormal(api, c, owner, patch);
            var key := ControlPlanePublicIPKey(c);
            r.outcome == Wait && r.cluster.status.ready == c.status.ready && r.endpoint.None? &&
            r.cluster.status.controlPlanePublicIPName == ControlPlanePublicIPName(c) &&
            NoFaultsAhead(r.api) && AllStored(r.api.store, NetworkPlan(c)) &&
            key in r.api.store && r.api.store[key] == PublicIPRes("")
  {
    var n := ReconcileNetwork(api, c);
    NetworkLeavesIPFree(api, c);
    var c1 := c.(status := c.status.(network := n.status));
    AfterNetworkCreatesIP(n.api, c1, owner, patch);
    NormalEndsAsAfterNetwork(api, c, owner, patch);
  }

  /** Once the control-plane public IP has an address, a pass with no
      failures over an existing network creates nothing, points the owner
      Cluster at the address unless it already does, and marks the
      EvrocCluster Ready. */
  lemma ClusterReadyOnceAllocated(api: Api, c: EvrocCluster, owner: Cluster)
    requires NoFaultsAhead(api) && AllStored(api.store, NetworkPlan(c))
    requires ClusterFinalizer in c.meta.finalizers && CPAddress(api.store, c) != ""
    ensures var r := ClusterNormal(api, c, Ok(Some(owner)), Patched);
            var endpoint := ApiEndpoint(CPAddress(api.store, c), ApiServerPort);
            r.outcome == NoAction && r.cluster.status.ready && IsTrue(r.cluster.status.conditions, Ready) &&
            r.api.store == api.store && NoCreates(r.calls) &&
            (if owner.controlPlaneEndpoint == endpoint then r.endpoint.None? else r.endpoint == Some(endpoint))
  {
    var key := ControlPlanePublicIPKey(c);
    NetworkSettled(api, c);
    var n := ReconcileNetwork(api, c);
    var g := GetOrCreate(n.api, key, PublicIPRes(""), "PublicIP");
    assert NoCreates(g.calls);
    ConcatNoCreates(n.calls, g.calls);
  }

  /**
   * From scratch, with no failures: the pass that finds the control-plane
   * public IP without an address waits; once the provider allocates one, the
   * next pass points the owner Cluster at it and marks the EvrocCluster Ready.
   */
  lemma ClusterBecomesReady(api: Api, c: EvrocCluster, owner: Cluster, address: string)
    requires NoFaultsAhead(api) && NoneStored(api.store, DeletionPlan(c))
    requires ClusterFinalizer in c.meta.finalizers && address != ""
    requires owner.controlPlaneEndpoint != ApiEndpoint(address, ApiServerPort)
    ensures var r1 := ClusterNormal(api, c, Ok(Some(owner)), Patched);
            var key := ControlPlanePublicIPKey(c);
            r1.outcome == Wait && r1.endpoint.None? &&
            key in r1.api.store && r1.api.store[key].PublicIPRes? &&
            var r2 := ClusterNormal(AllocateAddress(r1.api, key, address), r1.cluster, Ok(Some(owner)), Patched);
            r2.outcome == NoAction && r2.cluster.status.ready && IsTrue(r2.cluster.status.conditions, Ready) &&
            r2.endpoint == Some(ApiEndpoint(address, ApiServerPort)) && NoCreates(r2.calls)
  {
    var key := ControlPlanePublicIPKey(c);
    ClusterWaitsForAddress(api, c, Ok(Some(owner)), Patched);
    var r1 := ClusterNormal(api, c, Ok(Some(owner)), Patched);
    var api2 := AllocateAddress(r1.api, key, address);
    assert NetworkPlan(r1.cluster) == NetworkPlan(c) && ControlPlanePublicIPKey(r1.cluster) == key;
    ClusterReadyOnceAllocated(api2, r1.cluster, owner);
  }
}
