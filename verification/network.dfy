/**
 * Network provisioning and teardown for an EvrocCluster
 * (internal/cloud/evroc/network.go): the VPC, the spec's subnets and the
 * control-plane public IP, all under deterministic names in the cluster's project.
 */
module Network {
  import opened Errors
  import opened Types
  import opened CloudApi

  /** The VPC's name: the spec's, or the cluster's own name when the spec leaves it empty. */
  function VpcName(c: EvrocCluster): string {
    if c.spec.network.vpcName == "" then c.meta.name else c.spec.network.vpcName
  }

  function VpcKey(c: EvrocCluster): Key {
    Key(Vpc, c.spec.project, VpcName(c))
  }

  function SubnetKey(project: string, s: SubnetSpec): Key {
    Key(Subnet, project, s.name)
  }

  /** The spec subnets' keys, in spec order. */
  function SubnetKeys(project: string, subnets: seq<SubnetSpec>): (ks: seq<Key>)
    ensures |ks| == |subnets|
    ensures forall i :: 0 <= i < |subnets| ==> ks[i] == SubnetKey(project, subnets[i])
  {
    if |subnets| == 0 then [] else [SubnetKey(project, subnets[0])] + SubnetKeys(project, subnets[1..])
  }

  /** The deterministic name of the control-plane public IP. */
  function ControlPlanePublicIPName(c: EvrocCluster): string {
    c.meta.name + "-cp-publicip"
  }

  function ControlPlanePublicIPKey(c: EvrocCluster): Key {
    Key(PublicIP, c.spec.project, ControlPlanePublicIPName(c))
  }

  /** The resources ReconcileNetwork provisions, in the order it provisions them. */
  function NetworkPlan(c: EvrocCluster): seq<Key> {
    [VpcKey(c)] + SubnetKeys(c.spec.project, c.spec.network.subnets)
  }

  /** The resources DeleteNetwork removes, in the order it removes them. */
  function DeletionPlan(c: EvrocCluster): seq<Key> {
    SubnetKeys(c.spec.project, c.spec.network.subnets) + [ControlPlanePublicIPKey(c), VpcKey(c)]
  }

  /** The status entry a reconciled spec subnet gets. */
  function SubnetReady(s: SubnetSpec): SubnetStatus {
    SubnetStatus(s.name, s.name, s.cidrBlock, true)
  }

  /** The status entries of a fully reconciled subnet list, in spec order. */
  function SubnetStatuses(subnets: seq<SubnetSpec>): (ss: seq<SubnetStatus>)
    ensures |ss| == |subnets|
    ensures forall i :: 0 <= i < |subnets| ==> ss[i] == SubnetReady(subnets[i])
  {
    if |subnets| == 0 then [] else [SubnetReady(subnets[0])] + SubnetStatuses(subnets[1..])
  }

  /** A public IP's allocated address; empty while the provider has not assigned one. */
  function AddressOf(r: Resource): string {
    if r.PublicIPRes? then r.address else ""
  }

  /** `res`, stored under `k`, is a subnet of the spec created in `vpc` with its CIDR block. */
  ghost predicate CreatedSubnet(k: Key, res: Resource, project: string, vpc: string, subnets: seq<SubnetSpec>) {
    exists s :: s in subnets && k == SubnetKey(project, s) && res == SubnetRes(vpc, s.cidrBlock)
  }

  /** Every resource in `after` but not in `before` is a spec subnet created in `vpc`. */
  ghost predicate OnlySubnetsCreated(before: Store, after: Store, project: string, vpc: string, subnets: seq<SubnetSpec>) {
    forall k :: k in after && k !in before ==> CreatedSubnet(k, after[k], project, vpc, subnets)
  }

  /** One iteration of the subnet loop keeps OnlySubnetsCreated. */
  lemma OnlySubnetsCreatedStep(before: Store, mid: Store, after: Store, project: string, vpc: string, subnets: seq<SubnetSpec>)
    requires |subnets| > 0
    requires mid == before || mid == before[SubnetKey(project, subnets[0]) := SubnetRes(vpc, subnets[0].cidrBlock)]
    requires Grows(mid, after)
    requires OnlySubnetsCreated(mid, after, project, vpc, subnets[1..])
    ensures OnlySubnetsCreated(before, after, project, vpc, subnets)
  {
    forall k | k in after && k !in before ensures CreatedSubnet(k, after[k], project, vpc, subnets) {
      if k in mid {
        assert k == SubnetKey(project, subnets[0]) && after[k] == SubnetRes(vpc, subnets[0].cidrBlock);
      } else {
        var t :| t in subnets[1..] && k == SubnetKey(project, t) && after[k] == SubnetRes(vpc, t.cidrBlock);
        assert t in subnets;
      }
    }
  }

  datatype SubnetsPass = SubnetsPass(api: Api, statuses: seq<SubnetStatus>, err: Option<Error>, calls: seq<Call>)

  /** The subnet loop of ReconcileNetwork: get-or-create each spec subnet in
      order, stopping at the first error. */
  function ReconcileSubnets(api: Api, project: string, vpc: string, subnets: seq<SubnetSpec>): (r: SubnetsPass)
    decreases |subnets|
    ensures Follows(api, r.api, r.calls)
    ensures Gets(r.calls) <= SubnetKeys(project, subnets)
    ensures r.err.None? ==> Gets(r.calls) == SubnetKeys(project, subnets)
    ensures OnlyKeys(r.calls, SubnetKeys(project, subnets))
    ensures GetsAndCreates(r.calls)
    ensures r.err.Some? ==> EndsInError(r.calls)
    ensures Grows(api.store, r.api.store)
    ensures r.err.None? ==> r.statuses == SubnetStatuses(subnets)
    ensures r.err.None? ==> AllStored(r.api.store, SubnetKeys(project, subnets))
    ensures NoFaultsAhead(api) ==> r.err.None?
  {
    if |subnets| == 0 then SubnetsPass(api, [], None, [])
    else
      var s := subnets[0];
      var key := SubnetKey(project, s);
      var g := GetOrCreate(api, key, SubnetRes(vpc, s.cidrBlock), "Subnet");
      if g.res.Err? then
        ConcatKeys(g.calls, [], [key], SubnetKeys(project, subnets[1..]));
        assert g.calls + [] == g.calls;
        PrefixCons([key], [], SubnetKeys(project, subnets[1..]));
        assert [key] + [] == [key];
        SubnetsPass(g.api, [], Some(g.res.error), g.calls)
      else
        var rest := ReconcileSubnets(g.api, project, vpc, subnets[1..]);
        GetsAppend(g.calls, rest.calls);
        GrowsTrans(api.store, g.api.store, rest.api.store);
        ConcatKeys(g.calls, rest.calls, [key], SubnetKeys(project, subnets[1..]));
        ConcatCreates(g.calls, rest.calls);
        ConcatError(g.calls, rest.calls);
        PrefixCons([key], Gets(rest.calls), SubnetKeys(project, subnets[1..]));
        SubnetsPass(rest.api, if rest.err.None? then [SubnetReady(s)] + rest.statuses else [], rest.err,
                    g.calls + rest.calls)
  }

  /** The subnet loop creates nothing but spec subnets, each in the given VPC
      with its spec CIDR block. */
  lemma {:induction false} SubnetsCreateOnlySpec(api: Api, project: string, vpc: string, subnets: seq<SubnetSpec>)
    ensures OnlySubnetsCreated(api.store, ReconcileSubnets(api, project, vpc, subnets).api.store, project, vpc, subnets)
    decreases |subnets|
  {
    if |subnets| > 0 {
      var s := subnets[0];
      var g := GetOrCreate(api, SubnetKey(project, s), SubnetRes(vpc, s.cidrBlock), "Subnet");
      if g.res.Ok? {
        var rest := ReconcileSubnets(g.api, project, vpc, subnets[1..]);
        SubnetsCreateOnlySpec(g.api, project, vpc, subnets[1..]);
        OnlySubnetsCreatedStep(api.store, g.api.store, rest.api.store, project, vpc, subnets);
      }
    }
  }

  /** With every spec subnet already present and no failures, the loop is
      read-only: it issues no Create and leaves the store as it was. */
  lemma {:induction false} SubnetsIdempotent(api: Api, project: string, vpc: string, subnets: seq<SubnetSpec>)
    requires NoFaultsAhead(api) && AllStored(api.store, SubnetKeys(project, subnets))
    ensures var r := ReconcileSubnets(api, project, vpc, subnets);
            r.api.store == api.store && NoCreates(r.calls)
    decreases |subnets|
  {
    if |subnets| > 0 {
      var s := subnets[0];
      var g := GetOrCreate(api, SubnetKey(project, s), SubnetRes(vpc, s.cidrBlock), "Subnet");
      var rest := ReconcileSubnets(g.api, project, vpc, subnets[1..]);
      SubnetsIdempotent(g.api, project, vpc, subnets[1..]);
      ConcatNoCreates(g.calls, rest.calls);
    }
  }

  datatype NetworkPass = NetworkPass(api: Api, status: NetworkStatus, err: Option<Error>, calls: seq<Call>)

  /**
   * ReconcileNetwork: get-or-create the VPC and mark it ready in the status,
   * then get-or-create every spec subnet in the VPC. The subnet statuses are
   * replaced only when the whole loop succeeds. Returns the new network status.
   */
  function ReconcileNetwork(api: Api, c: EvrocCluster): (r: NetworkPass)
    ensures Follows(api, r.api, r.calls)
    ensures Gets(r.calls) <= NetworkPlan(c)
    ensures r.err.None? ==> Gets(r.calls) == NetworkPlan(c)
    ensures OnlyKeys(r.calls, NetworkPlan(c))
    ensures GetsAndCreates(r.calls)
    ensures r.err.Some? ==> EndsInError(r.calls)
    ensures Grows(api.store, r.api.store)
    ensures r.err.None? ==> AllStored(r.api.store, NetworkPlan(c))
    ensures r.err.None? ==>
              r.status == NetworkStatus(VpcStatus(VpcName(c), true), SubnetStatuses(c.spec.network.subnets))
    ensures r.err.Some? ==>
              r.status == c.status.network || r.status == c.status.network.(vpc := VpcStatus(VpcName(c), true))
    ensures NoFaultsAhead(api) ==> r.err.None?
  {
    var key := VpcKey(c);
    var subnetKeys := SubnetKeys(c.spec.project, c.spec.network.subnets);
    var g := GetOrCreate(api, key, VpcRes, "VPC");
    if g.res.Err? then
      ConcatKeys(g.calls, [], [key], subnetKeys);
      assert g.calls + [] == g.calls;
      PrefixCons([key], [], subnetKeys);
      assert [key] + [] == [key];
      NetworkPass(g.api, c.status.network, Some(g.res.error), g.calls)
    else
      var status := c.status.network.(vpc := VpcStatus(VpcName(c), true));
      var s := ReconcileSubnets(g.api, c.spec.project, VpcName(c), c.spec.network.subnets);
      GetsAppend(g.calls, s.calls);
      GrowsTrans(api.store, g.api.store, s.api.store);
      ConcatKeys(g.calls, s.calls, [key], subnetKeys);
      ConcatCreates(g.calls, s.calls);
      ConcatError(g.calls, s.calls);
      PrefixCons([key], Gets(s.calls), subnetKeys);
      NetworkPass(s.api, if s.err.None? then status.(subnets := s.statuses) else status, s.err, g.calls + s.calls)
  }

  /** ReconcileNetwork creates nothing but the VPC and the spec subnets, each
      subnet in that VPC with its spec CIDR block. */
  lemma NetworkCreatesOnlyPlan(api: Api, c: EvrocCluster)
    ensures var r := ReconcileNetwork(api, c);
            forall k :: k in r.api.store && k !in api.store ==>
              (k == VpcKey(c) && r.api.store[k] == VpcRes) ||
              CreatedSubnet(k, r.api.store[k], c.spec.project, VpcName(c), c.spec.network.subnets)
  {
    var g := GetOrCreate(api, VpcKey(c), VpcRes, "VPC");
    if g.res.Ok? {
      SubnetsCreateOnlySpec(g.api, c.spec.project, VpcName(c), c.spec.network.subnets);
    }
  }

  /** A second ReconcileNetwork after a successful one, with no failures and
      nothing deleted in between, creates nothing, changes nothing in the
      store, and reports the same status. */
  lemma NetworkIdempotent(api: Api, c: EvrocCluster, c2: EvrocCluster)
    requires NoFaultsAhead(api)
    requires c2.meta == c.meta && c2.spec == c.spec
    ensures var r := ReconcileNetwork(api, c);
            var r2 := ReconcileNetwork(r.api, c2);
            r2.err.None? && r2.status == r.status && r2.api.store == r.api.store && NoCreates(r2.calls)
  {
    var r := ReconcileNetwork(api, c);
    var g := GetOrCreate(r.api, VpcKey(c), VpcRes, "VPC");
    assert forall k :: k in SubnetKeys(c.spec.project, c.spec.network.subnets) ==> k in NetworkPlan(c);
    SubnetsIdempotent(g.api, c.spec.project, VpcName(c), c.spec.network.subnets);
    var s := ReconcileSubnets(g.api, c.spec.project, VpcName(c), c.spec.network.subnets);
    ConcatNoCreates(g.calls, s.calls);
  }

  /** With the VPC and every spec subnet present and no failures ahead,
      ReconcileNetwork is read-only, whatever happened in between. */
  lemma NetworkSettled(api: Api, c: EvrocCluster)
    requires NoFaultsAhead(api) && AllStored(api.store, NetworkPlan(c))
    ensures var r := ReconcileNetwork(api, c);
            r.err.None? && r.api.store == api.store && NoCreates(r.calls) && NoFaultsAhead(r.api)
  {
    var g := GetOrCreate(api, VpcKey(c), VpcRes, "VPC");
    assert forall k :: k in SubnetKeys(c.spec.project, c.spec.network.subnets) ==> k in NetworkPlan(c);
    SubnetsIdempotent(g.api, c.spec.project, VpcName(c), c.spec.network.subnets);
    var s := ReconcileSubnets(g.api, c.spec.project, VpcName(c), c.spec.network.subnets);
    ConcatNoCreates(g.calls, s.calls);
  }

  datatype PublicIPPass = PublicIPPass(api: Api, name: string, address: string, err: Option<Error>, calls: seq<Call>)

  /**
   * ReconcileControlPlanePublicIP: get-or-create `<cluster>-cp-publicip`; right
   * after creating it, Get it again to read the address. Returns the name and
   * the address, which is empty while the provider has not allocated one; on
   * any failed call, neither.
   */
  function ReconcileControlPlanePublicIP(api: Api, c: EvrocCluster): (r: PublicIPPass)
    ensures Follows(api, r.api, r.calls)
    ensures 0 < |r.calls| <= 3
    ensures OnlyKeys(r.calls, [ControlPlanePublicIPKey(c)])
    ensures GetsAndCreates(r.calls)
    ensures r.err.Some? ==> r.name == "" && r.address == "" && EndsInError(r.calls)
    ensures r.err.None? ==> r.name == ControlPlanePublicIPName(c) && ControlPlanePublicIPKey(c) in r.api.store &&
                            r.address == AddressOf(r.api.store[ControlPlanePublicIPKey(c)])
    ensures ControlPlanePublicIPKey(c) in api.store ==> r.api.store == api.store
    ensures ControlPlanePublicIPKey(c) !in api.store ==>
              (r.address == "" &&
               (r.api.store == api.store || r.api.store == api.store[ControlPlanePublicIPKey(c) := PublicIPRes("")]))
    ensures NoFaultsAhead(api) ==> r.err.None?
  {
    var key := ControlPlanePublicIPKey(c);
    var g := GetOrCreate(api, key, PublicIPRes(""), "PublicIP");
    if g.res.Err? then PublicIPPass(g.api, "", "", Some(g.res.error), g.calls)
    else if key in api.store then PublicIPPass(g.api, key.name, AddressOf(g.res.value), None, g.calls)
    else
      // Just created: read it back for the address.
      var g2 := GetResource(g.api, key);
      ConcatSameKeys(g.calls, g2.calls, [key]);
      ConcatCreates(g.calls, g2.calls);
      ConcatError(g.calls, g2.calls);
      if g2.res.Err? then
        PublicIPPass(g2.api, "", "", Some(Wrap(g2.res.error, "failed to get PublicIP after creation " + key.name)),
                     g.calls + g2.calls)
      else
        PublicIPPass(g2.api, key.name, AddressOf(g2.res.value), None, g.calls + g2.calls)
  }

  /** Once the provider has allocated an address to the control-plane public
      IP, every later pass with no failures reports that same name and
      address, and creates nothing. */
  lemma ControlPlanePublicIPStable(api: Api, c: EvrocCluster, address: string)
    requires NoFaultsAhead(api) && WellKinded(api.store)
    ensures var r := ReconcileControlPlanePublicIP(api, c);
            var key := ControlPlanePublicIPKey(c);
            key in r.api.store && r.api.store[key].PublicIPRes? &&
            var r2 := ReconcileControlPlanePublicIP(AllocateAddress(r.api, key, address), c);
            r2.err.None? && r2.name == ControlPlanePublicIPName(c) && r2.address == address && NoCreates(r2.calls)
  {
    var key := ControlPlanePublicIPKey(c);
    if key in api.store {
      assert ResKind(api.store[key]) == PublicIP;
    }
  }

  /** The kinds whose Forbidden delete reply DeleteNetwork steps over: subnets
      and the VPC. For the control-plane public IP only NotFound is tolerated. */
  const NetworkForbiddenOk: set<Kind> := {Subnet, Vpc}

  /** The subnet loop of DeleteNetwork. */
  function DeleteSubnets(api: Api, project: string, subnets: seq<SubnetSpec>): (r: Done)
    decreases |subnets|
    ensures Follows(api, r.api, r.calls)
    ensures OnlyDeletes(r.calls)
    ensures Keys(r.calls) <= SubnetKeys(project, subnets)
    ensures r.err.None? ==> Keys(r.calls) == SubnetKeys(project, subnets)
    ensures r.err.None? ==> AllTolerated(r.calls, NetworkForbiddenOk)
    ensures r.err.Some? ==> StopsAtLast(r.calls, NetworkForbiddenOk)
    ensures Grows(r.api.store, api.store)
    ensures KeepsOthers(api.store, r.api.store, SubnetKeys(project, subnets))
    ensures NoFaultsAhead(api) ==> r.err.None? && NoneStored(r.api.store, SubnetKeys(project, subnets))
  {
    if |subnets| == 0 then Done(api, None, [])
    else
      var key := SubnetKey(project, subnets[0]);
      var d := DeleteStep(api, key, NetworkForbiddenOk, "Subnet");
      assert Keys(d.calls) == [key];
      if d.err.Some? then
        PrefixCons([key], [], SubnetKeys(project, subnets[1..]));
        assert [key] + [] == [key];
        assert d.calls[..0] == [];
        d
      else
        var rest := DeleteSubnets(d.api, project, subnets[1..]);
        KeysAppend(d.calls, rest.calls);
        GrowsTrans(rest.api.store, d.api.store, api.store);
        KeepsOthersTrans(api.store, d.api.store, rest.api.store, [key], SubnetKeys(project, subnets[1..]));
        ConcatDeletes(d.calls, rest.calls);
        ConcatTolerated(d.calls, rest.calls, NetworkForbiddenOk);
        PrefixCons([key], Keys(rest.calls), SubnetKeys(project, subnets[1..]));
        Done(rest.api, rest.err, d.calls + rest.calls)
  }

  /** The last two steps of DeleteNetwork: the control-plane public IP, then the VPC. */
  function DeleteControlPlaneIPAndVpc(api: Api, c: EvrocCluster): (r: Done)
    ensures Follows(api, r.api, r.calls)
    ensures OnlyDeletes(r.calls)
    ensures Keys(r.calls) <= [ControlPlanePublicIPKey(c), VpcKey(c)]
    ensures r.err.None? ==> Keys(r.calls) == [ControlPlanePublicIPKey(c), VpcKey(c)] && AllTolerated(r.calls, NetworkForbiddenOk)
    ensures r.err.Some? ==> StopsAtLast(r.calls, NetworkForbiddenOk)
    ensures Grows(r.api.store, api.store)
    ensures KeepsOthers(api.store, r.api.store, [ControlPlanePublicIPKey(c), VpcKey(c)])
    ensures NoFaultsAhead(api) ==> r.err.None? && NoneStored(r.api.store, [ControlPlanePublicIPKey(c), VpcKey(c)])
  {
    var ipKey := ControlPlanePublicIPKey(c);
    var d := DeleteStep(api, ipKey, NetworkForbiddenOk, "control plane PublicIP");
    if d.err.Some? then
      assert d.calls[..0] == [];
      d
    else
      var v := DeleteStep(d.api, VpcKey(c), NetworkForbiddenOk, "VPC");
      KeysAppend(d.calls, v.calls);
      ConcatDeletes(d.calls, v.calls);
      ConcatTolerated(d.calls, v.calls, NetworkForbiddenOk);
      assert v.calls[..0] == [];
      Done(v.api, v.err, d.calls + v.calls)
  }

  /**
   * DeleteNetwork: delete the spec subnets in order, then the control-plane
   * public IP, then the VPC (under the same effective name ReconcileNetwork
   * uses). Stops at the first outcome it does not tolerate.
   */
  function DeleteNetwork(api: Api, c: EvrocCluster): (r: Done)
    ensures Follows(api, r.api, r.calls)
    ensures OnlyDeletes(r.calls)
    ensures Keys(r.calls) <= DeletionPlan(c)
    ensures r.err.None? ==> Keys(r.calls) == DeletionPlan(c) && AllTolerated(r.calls, NetworkForbiddenOk)
    ensures r.err.Some? ==> StopsAtLast(r.calls, NetworkForbiddenOk)
    ensures Grows(r.api.store, api.store)
    ensures KeepsOthers(api.store, r.api.store, DeletionPlan(c))
    ensures NoFaultsAhead(api) ==> r.err.None? && NoneStored(r.api.store, DeletionPlan(c))
  {
    var subnetKeys := SubnetKeys(c.spec.project, c.spec.network.subnets);
    var tail := [ControlPlanePublicIPKey(c), VpcKey(c)];
    var s := DeleteSubnets(api, c.spec.project, c.spec.network.subnets);
    if s.err.Some? then
      PrefixLonger(Keys(s.calls), subnetKeys, tail);
      assert KeepsOthers(api.store, s.api.store, subnetKeys + tail);
      s
    else
      var t := DeleteControlPlaneIPAndVpc(s.api, c);
      KeysAppend(s.calls, t.calls);
      ConcatDeletes(s.calls, t.calls);
      ConcatTolerated(s.calls, t.calls, NetworkForbiddenOk);
      GrowsTrans(t.api.store, s.api.store, api.store);
      KeepsOthersTrans(api.store, s.api.store, t.api.store, subnetKeys, tail);
      PrefixCons(subnetKeys, Keys(t.calls), tail);
      Done(t.api, t.err, s.calls + t.calls)
  }

  lemma SubnetKeyListed(project: string, s: SubnetSpec, subnets: seq<SubnetSpec>)
    requires s in subnets
    ensures SubnetKey(project, s) in SubnetKeys(project, subnets)
  {
    var i :| 0 <= i < |subnets| && subnets[i] == s;
    assert SubnetKeys(project, subnets)[i] == SubnetKey(project, s);
  }

  /** Provisioning the network and the control-plane public IP and then
      deleting the network, with no failures and none of the cluster's network
      resources there beforehand, leaves the store exactly as it was. */
  lemma NetworkRoundTrip(api: Api, c: EvrocCluster)
    requires NoFaultsAhead(api) && NoneStored(api.store, DeletionPlan(c))
    ensures var n := ReconcileNetwork(api, c);
            var p := ReconcileControlPlanePublicIP(n.api, c);
            var d := DeleteNetwork(p.api, c);
            n.err.None? && p.err.None? && d.err.None? && d.api.store == api.store
  {
    var n := ReconcileNetwork(api, c);
    var p := ReconcileControlPlanePublicIP(n.api, c);
    var d := DeleteNetwork(p.api, c);
    NetworkAddsOnlyPlan(api, c);
    assert AddsOnly(api.store, p.api.store, DeletionPlan(c));
    AddThenRemove(api.store, p.api.store, d.api.store, DeletionPlan(c));
  }

  /** What ReconcileNetwork adds to the store is on the deletion plan. */
  lemma NetworkAddsOnlyPlan(api: Api, c: EvrocCluster)
    ensures AddsOnly(api.store, ReconcileNetwork(api, c).api.store, DeletionPlan(c))
  {
    var n := ReconcileNetwork(api, c);
    NetworkCreatesOnlyPlan(api, c);
    forall k | k in n.api.store && k !in api.store ensures k in DeletionPlan(c) {
      if k != VpcKey(c) {
        var s :| s in c.spec.network.subnets && k == SubnetKey(c.spec.project, s) &&
                 n.api.store[k] == SubnetRes(VpcName(c), s.cidrBlock);
        SubnetKeyListed(c.spec.project, s, c.spec.network.subnets);
      }
    }
  }

  /** A Forbidden reply to a subnet's Delete is stepped over: with one spec
      subnet and only that reply failing, DeleteNetwork succeeds and the subnet
      stays in the store. */
  lemma SubnetForbiddenSteppedOver(api: Api, c: EvrocCluster, msg: string)
    requires |c.spec.network.subnets| == 1
    requires api.faults == map[api.clock := Error(Forbidden, msg)]
    ensures var r := DeleteNetwork(api, c);
            var key := SubnetKey(c.spec.project, c.spec.network.subnets[0]);
            r.err.None? && (key in api.store ==> key in r.api.store)
  {
    var key := SubnetKey(c.spec.project, c.spec.network.subnets[0]);
    var s := DeleteSubnets(api, c.spec.project, c.spec.network.subnets);
    var d := DeleteStep(api, key, NetworkForbiddenOk, "Subnet");
    var rest := DeleteSubnets(d.api, c.spec.project, c.spec.network.subnets[1..]);
    assert NoFaultsAhead(rest.api);
  }

  /** A Forbidden reply to the control-plane public IP's Delete is not stepped
      over: with no spec subnets, DeleteNetwork fails after that one call and
      the VPC is never deleted. */
  lemma ControlPlaneIPForbiddenStops(api: Api, c: EvrocCluster, msg: string)
    requires |c.spec.network.subnets| == 0
    requires NextFault(api) == Some(Error(Forbidden, msg))
    ensures var r := DeleteNetwork(api, c);
            r.err.Some? && |r.calls| == 1 && r.calls[0].key == ControlPlanePublicIPKey(c) && r.api.store == api.store
  {
  }
}
