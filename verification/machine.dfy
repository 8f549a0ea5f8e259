/**
 * Machine provisioning and teardown for an EvrocMachine
 * (internal/cloud/evroc/machine.go): a public IP when the spec asks for one,
 * the boot disk, and the virtual machine, all under names derived from the
 * machine's name in the cluster's project.
 */
module Machines {
  import opened Errors
  import opened Types
  import opened CloudApi
  import opened Network
  import Base64

  function MachinePublicIPName(m: EvrocMachine): string {
    m.meta.name + "-publicip"
  }

  function BootDiskName(m: EvrocMachine): string {
    m.meta.name + "-bootdisk"
  }

  function MachinePublicIPKey(c: EvrocCluster, m: EvrocMachine): Key {
    Key(PublicIP, c.spec.project, MachinePublicIPName(m))
  }

  function BootDiskKey(c: EvrocCluster, m: EvrocMachine): Key {
    Key(Disk, c.spec.project, BootDiskName(m))
  }

  /** The VM carries the machine's own name. */
  function VMKey(c: EvrocCluster, m: EvrocMachine): Key {
    Key(VirtualMachine, c.spec.project, m.meta.name)
  }

  /** A control-plane machine that wants a public IP takes the cluster's
      pre-allocated one, once the cluster status names it. */
  predicate ReusesControlPlaneIP(c: EvrocCluster, m: EvrocMachine, machine: Machine) {
    m.spec.publicIP && machine.controlPlane && c.status.controlPlanePublicIPName != ""
  }

  /** The machine gets (or creates) a public IP of its own. */
  predicate OwnsPublicIP(c: EvrocCluster, m: EvrocMachine, machine: Machine) {
    m.spec.publicIP && !ReusesControlPlaneIP(c, m, machine)
  }

  /** The public IP name the VM is given. */
  function PublicIPNameFor(c: EvrocCluster, m: EvrocMachine, machine: Machine): string {
    if !m.spec.publicIP then ""
    else if ReusesControlPlaneIP(c, m, machine) then c.status.controlPlanePublicIPName
    else MachinePublicIPName(m)
  }

  /** The public IP ReconcileMachine provisions, if any. */
  function IPPlan(c: EvrocCluster, m: EvrocMachine, machine: Machine): seq<Key> {
    if OwnsPublicIP(c, m, machine) then [MachinePublicIPKey(c, m)] else []
  }

  /** The resources ReconcileMachine provisions, in the order it provisions them. */
  function MachinePlan(c: EvrocCluster, m: EvrocMachine, machine: Machine): seq<Key> {
    IPPlan(c, m, machine) + [BootDiskKey(c, m), VMKey(c, m)]
  }

  /** The resources DeleteMachine removes, in the order it removes them. */
  function MachineDeletionPlan(c: EvrocCluster, m: EvrocMachine): seq<Key> {
    [VMKey(c, m), BootDiskKey(c, m)] + (if m.spec.publicIP then [MachinePublicIPKey(c, m)] else [])
  }

  /** The boot disk a machine asks for: its spec's image, size in GB and storage class. */
  function DesiredDisk(m: EvrocMachine): DiskSpec {
    DiskSpec(m.spec.bootDisk.imageName, m.spec.bootDisk.sizeGB, "GB", m.spec.bootDisk.storageClass)
  }

  /** SSH settings are sent only for a present, non-empty key. */
  function SshSettings(key: Option<string>): Option<seq<string>> {
    if key.Some? && key.value != "" then Some([key.value]) else None
  }

  /** Security-group settings are sent only for a non-empty list. */
  function SecurityGroupSettings(groups: seq<string>): Option<seq<string>> {
    if |groups| > 0 then Some(groups) else None
  }

  /**
   * The VM a machine asks for: running, booting from its boot disk, with the
   * bootstrap data base64-encoded as cloud-init user data, the chosen public
   * IP as its static address, and SSH and security-group settings when the
   * spec has any.
   */
  function DesiredVM(m: EvrocMachine, bootstrap: seq<Base64.byte>, publicIPName: string): (v: VMSpec)
    ensures v.running && v.virtualResourcesRef == m.spec.virtualResourcesRef
    ensures v.diskRefs == [DiskRef(BootDiskName(m), true)]
    ensures Base64.Decode(v.cloudInitUserData) == Some(bootstrap)
    ensures |v.cloudInitUserData| == 4 * ((|bootstrap| + 2) / 3)
    ensures v.publicIPRef == publicIPName
    ensures v.sshAuthorizedKeys.Some? <==> m.spec.sshKey.Some? && m.spec.sshKey.value != ""
    ensures v.sshAuthorizedKeys.Some? ==> v.sshAuthorizedKeys.value == [m.spec.sshKey.value]
    ensures v.securityGroups.Some? <==> |m.spec.securityGroups| > 0
    ensures v.securityGroups.Some? ==> v.securityGroups.value == m.spec.securityGroups
  {
    Base64.DecodeEncode(bootstrap);
    VMSpec(true, m.spec.virtualResourcesRef, [DiskRef(BootDiskName(m), true)], Base64.Encode(bootstrap),
           SshSettings(m.spec.sshKey), publicIPName, SecurityGroupSettings(m.spec.securityGroups))
  }

  datatype IPChoice = IPChoice(api: Api, name: string, err: Option<Error>, calls: seq<Call>)

  /**
   * The public-IP step of ReconcileMachine: none when the spec does not ask
   * for one; the cluster's pre-allocated control-plane IP, without any call,
   * for a control-plane machine once the cluster status names it; otherwise
   * get-or-create `<machine>-publicip`.
   */
  function ChoosePublicIP(api: Api, c: EvrocCluster, m: EvrocMachine, machine: Machine): (r: IPChoice)
    ensures Follows(api, r.api, r.calls)
    ensures Gets(r.calls) == IPPlan(c, m, machine) && OnlyKeys(r.calls, IPPlan(c, m, machine))
    ensures GetsAndCreates(r.calls)
    ensures !OwnsPublicIP(c, m, machine) ==> r.api == api && r.calls == [] && r.err.None?
    ensures r.err.None? ==> r.name == PublicIPNameFor(c, m, machine)
    ensures OwnsPublicIP(c, m, machine) && r.err.None? ==> MachinePublicIPKey(c, m) in r.api.store
    ensures r.err.Some? ==> r.api.store == api.store && EndsInError(r.calls)
    ensures Grows(api.store, r.api.store)
    ensures NoFaultsAhead(api) ==> r.err.None?
  {
    if !m.spec.publicIP then IPChoice(api, "", None, [])
    else if ReusesControlPlaneIP(c, m, machine) then IPChoice(api, c.status.controlPlanePublicIPName, None, [])
    else
      var key := MachinePublicIPKey(c, m);
      var g := GetOrCreate(api, key, PublicIPRes(""), "PublicIP");
      if g.res.Err? then IPChoice(g.api, "", Some(g.res.error), g.calls)
      else IPChoice(g.api, key.name, None, g.calls)
  }

  /** The public-IP step creates at most the machine's own public IP, empty,
      and with no failures and that IP present it creates nothing. */
  lemma ChoosePublicIPCreates(api: Api, c: EvrocCluster, m: EvrocMachine, machine: Machine)
    ensures var r := ChoosePublicIP(api, c, m, machine);
            r.api.store == api.store ||
            (OwnsPublicIP(c, m, machine) && MachinePublicIPKey(c, m) !in api.store &&
             r.api.store == api.store[MachinePublicIPKey(c, m) := PublicIPRes("")])
    ensures var r := ChoosePublicIP(api, c, m, machine);
            NoFaultsAhead(api) && AllStored(api.store, IPPlan(c, m, machine)) ==>
              NoCreates(r.calls) && r.api.store == api.store
  {
  }

  /** The disk-and-VM part of ReconcileMachine: get-or-create the boot disk,
      then the VM; on success, the VM as observed. */
  function ProvisionDiskAndVM(api: Api, c: EvrocCluster, m: EvrocMachine, vm: VMSpec): (r: Fetched)
    ensures Follows(api, r.api, r.calls)
    ensures r.res.Err? ==> EndsInError(r.calls)
    ensures r.res.Ok? ==> VMKey(c, m) in r.api.store && r.api.store[VMKey(c, m)] == r.res.value
    ensures r.res.Ok? ==> BootDiskKey(c, m) in r.api.store
    ensures Grows(api.store, r.api.store)
    ensures NoFaultsAhead(api) ==> r.res.Ok?
  {
    var d := GetOrCreate(api, BootDiskKey(c, m), DiskRes(DesiredDisk(m)), "Disk");
    if d.res.Err? then d
    else
      var v := GetOrCreate(d.api, VMKey(c, m), VMRes(vm, NoVMStatus), "VirtualMachine");
      GrowsTrans(api.store, d.api.store, v.api.store);
      ConcatError(d.calls, v.calls);
      Fetched(v.api, v.res, d.calls + v.calls)
  }

  /** ProvisionDiskAndVM gets the boot disk and then the VM, creating each only
      after a NotFound, and stops at the first failure. */
  lemma ProvisionDiskAndVMCalls(api: Api, c: EvrocCluster, m: EvrocMachine, vm: VMSpec)
    ensures var r := ProvisionDiskAndVM(api, c, m, vm);
            Gets(r.calls) <= [BootDiskKey(c, m), VMKey(c, m)] &&
            (r.res.Ok? ==> Gets(r.calls) == [BootDiskKey(c, m), VMKey(c, m)]) &&
            OnlyKeys(r.calls, [BootDiskKey(c, m), VMKey(c, m)]) &&
            GetsAndCreates(r.calls)
  {
    var diskKey, vmKey := BootDiskKey(c, m), VMKey(c, m);
    var d := GetOrCreate(api, diskKey, DiskRes(DesiredDisk(m)), "Disk");
    if d.res.Err? {
      ConcatKeys(d.calls, [], [diskKey], [vmKey]);
      assert d.calls + [] == d.calls;
      PrefixCons([diskKey], [], [vmKey]);
      assert [diskKey] + [] == [diskKey];
    } else {
      var v := GetOrCreate(d.api, vmKey, VMRes(vm, NoVMStatus), "VirtualMachine");
      GetsAppend(d.calls, v.calls);
      ConcatKeys(d.calls, v.calls, [diskKey], [vmKey]);
      ConcatCreates(d.calls, v.calls);
      PrefixCons([diskKey], Gets(v.calls), [vmKey]);
    }
  }

  /** The state a VM reports once it is up. */
  const Running := "Running"

  /** The VM's status as observed; a resource of another kind reports nothing. */
  function StatusOf(r: Resource): VMStatus {
    if r.VMRes? then r.status else NoVMStatus
  }

  function ProviderID(c: EvrocCluster, m: EvrocMachine): string {
    "evroc://" + c.spec.project + "/" + m.meta.name
  }

  /** The machine as recorded for a running VM: provider ID, Ready and its two addresses. */
  function RecordRunning(c: EvrocCluster, m: EvrocMachine, st: VMStatus): (m2: EvrocMachine)
    ensures m2.meta == m.meta && m2.status.conditions == m.status.conditions
    ensures m2.spec == m.spec.(providerID := Some(ProviderID(c, m)))
    ensures m2.status.ready
    ensures m2.status.addresses == [NodeAddress(InternalIP, st.privateIPv4), NodeAddress(ExternalIP, st.publicIPv4)]
  {
    m.(spec := m.spec.(providerID := Some(ProviderID(c, m))),
       status := m.status.(ready := true,
                           addresses := [NodeAddress(InternalIP, st.privateIPv4), NodeAddress(ExternalIP, st.publicIPv4)]))
  }

  /**
   * The running gate and the status record: a VM not yet Running leaves the
   * machine untouched and is no error; for a running one the provider ID,
   * readiness and addresses are recorded, unless the patch helper cannot be
   * created. A failing patch is returned as the error, the changes already made.
   */
  function UpdateStatus(c: EvrocCluster, m: EvrocMachine, st: VMStatus, patch: PatchOutcome): (r: (EvrocMachine, Option<Error>))
    ensures st.state != Running ==> r == (m, None)
    ensures st.state == Running ==>
              (match patch
               case Patched => r == (RecordRunning(c, m, st), None)
               case HelperFails(e) => r == (m, Some(e))
               case PatchFails(e) => r == (RecordRunning(c, m, st), Some(e)))
    ensures r.0.status.ready && !m.status.ready ==> st.state == Running
  {
    if st.state != Running then (m, None)
    else
      match patch
      case HelperFails(e) => (m, Some(e))
      case PatchFails(e) => (RecordRunning(c, m, st), Some(e))
      case Patched => (RecordRunning(c, m, st), None)
  }

  /** `vm` is the VM as this pass observed it; None when a step failed before. */
  datatype MachinePass = MachinePass(api: Api, machine: EvrocMachine, err: Option<Error>, calls: seq<Call>,
                                     vm: Option<Resource>)

  /**
   * ReconcileMachine: the public IP (if any), the boot disk, then the VM, each
   * get-or-create and stopping at the first failure; then the running gate and
   * the status record.
   */
  function ReconcileMachine(api: Api, c: EvrocCluster, m: EvrocMachine, machine: Machine,
                            bootstrap: seq<Base64.byte>, patch: PatchOutcome): (r: MachinePass)
    ensures Follows(api, r.api, r.calls)
    ensures Gets(r.calls) <= MachinePlan(c, m, machine)
    ensures OnlyKeys(r.calls, MachinePlan(c, m, machine))
    ensures GetsAndCreates(r.calls)
    ensures Grows(api.store, r.api.store)
    ensures r.vm.None? ==> r.err.Some? && r.machine == m && EndsInError(r.calls)
    ensures r.vm.Some? ==>
              Gets(r.calls) == MachinePlan(c, m, machine) &&
              VMKey(c, m) in r.api.store && r.api.store[VMKey(c, m)] == r.vm.value
    ensures r.vm.Some? ==> (r.machine, r.err) == UpdateStatus(c, m, StatusOf(r.vm.value), patch)
    ensures NoFaultsAhead(api) ==> r.vm.Some?
  {
    var ipKeys := IPPlan(c, m, machine);
    var rest := [BootDiskKey(c, m), VMKey(c, m)];
    var ip := ChoosePublicIP(api, c, m, machine);
    if ip.err.Some? then
      PrefixLonger(Gets(ip.calls), ipKeys, rest);
      ConcatKeys(ip.calls, [], ipKeys, rest);
      assert ip.calls + [] == ip.calls;
      MachinePass(ip.api, m, ip.err, ip.calls, None)
    else
      var p := ProvisionDiskAndVM(ip.api, c, m, DesiredVM(m, bootstrap, ip.name));
      ProvisionDiskAndVMCalls(ip.api, c, m, DesiredVM(m, bootstrap, ip.name));
      var calls := ip.calls + p.calls;
      GetsAppend(ip.calls, p.calls);
      GrowsTrans(api.store, ip.api.store, p.api.store);
      ConcatKeys(ip.calls, p.calls, ipKeys, rest);
      ConcatCreates(ip.calls, p.calls);
      ConcatError(ip.calls, p.calls);
      PrefixCons(ipKeys, Gets(p.calls), rest);
      if p.res.Err? then MachinePass(p.api, m, Some(p.res.error), calls, None)
      else
        var u := UpdateStatus(c, m, StatusOf(p.res.value), patch);
        MachinePass(p.api, u.0, u.1, calls, Some(p.res.value))
  }

  /** ReconcileMachine leaves every planned resource in the store once it has observed the VM. */
  lemma ReconcileMachineStores(api: Api, c: EvrocCluster, m: EvrocMachine, machine: Machine,
                               bootstrap: seq<Base64.byte>, patch: PatchOutcome)
    ensures var r := ReconcileMachine(api, c, m, machine, bootstrap, patch);
            r.vm.Some? ==>
              BootDiskKey(c, m) in r.api.store && VMKey(c, m) in r.api.store &&
              (OwnsPublicIP(c, m, machine) ==> MachinePublicIPKey(c, m) in r.api.store)
  {
    var ip := ChoosePublicIP(api, c, m, machine);
    if ip.err.None? {
      var p := ProvisionDiskAndVM(ip.api, c, m, DesiredVM(m, bootstrap, ip.name));
      assert p.res.Ok? ==> Grows(ip.api.store, p.api.store);
    }
  }

  /** What ProvisionDiskAndVM adds to the store: the boot disk and the VM as asked for. */
  lemma ProvisionDiskAndVMCreates(api: Api, c: EvrocCluster, m: EvrocMachine, vm: VMSpec)
    ensures var r := ProvisionDiskAndVM(api, c, m, vm);
            forall k :: k in r.api.store && k !in api.store ==>
              (k == BootDiskKey(c, m) && r.api.store[k] == DiskRes(DesiredDisk(m))) ||
              (k == VMKey(c, m) && r.api.store[k] == VMRes(vm, NoVMStatus))
  {
  }

  /** With the disk and the VM present and no failures, ProvisionDiskAndVM
      issues no Create and changes nothing. */
  lemma ProvisionDiskAndVMIdempotent(api: Api, c: EvrocCluster, m: EvrocMachine, vm: VMSpec)
    requires NoFaultsAhead(api) && BootDiskKey(c, m) in api.store && VMKey(c, m) in api.store
    ensures var r := ProvisionDiskAndVM(api, c, m, vm);
            r.api.store == api.store && NoCreates(r.calls) && r.res == Ok(api.store[VMKey(c, m)])
  {
    var d := GetOrCreate(api, BootDiskKey(c, m), DiskRes(DesiredDisk(m)), "Disk");
    var v := GetOrCreate(d.api, VMKey(c, m), VMRes(vm, NoVMStatus), "VirtualMachine");
    ConcatNoCreates(d.calls, v.calls);
  }

  /**
   * ReconcileMachine creates nothing but the machine's own public IP (empty,
   * for the provider to allocate), its boot disk as the spec asks, and its VM
   * as the spec asks, wired to the chosen public IP and carrying the bootstrap data.
   */
  lemma MachineCreatesOnlyDesired(api: Api, c: EvrocCluster, m: EvrocMachine, machine: Machine,
                                  bootstrap: seq<Base64.byte>, patch: PatchOutcome)
    ensures var r := ReconcileMachine(api, c, m, machine, bootstrap, patch);
            forall k :: k in r.api.store && k !in api.store ==>
              (k == MachinePublicIPKey(c, m) && OwnsPublicIP(c, m, machine) && r.api.store[k] == PublicIPRes("")) ||
              (k == BootDiskKey(c, m) && r.api.store[k] == DiskRes(DesiredDisk(m))) ||
              (k == VMKey(c, m) &&
               r.api.store[k] == VMRes(DesiredVM(m, bootstrap, PublicIPNameFor(c, m, machine)), NoVMStatus))
  {
    var ip := ChoosePublicIP(api, c, m, machine);
    if ip.err.None? {
      var vm := DesiredVM(m, bootstrap, ip.name);
      var p := ProvisionDiskAndVM(ip.api, c, m, vm);
      ChoosePublicIPCreates(api, c, m, machine);
      ProvisionDiskAndVMCreates(ip.api, c, m, vm);
      forall k | k in p.api.store && k !in api.store
        ensures (k == MachinePublicIPKey(c, m) && OwnsPublicIP(c, m, machine) && p.api.store[k] == PublicIPRes("")) ||
                (k == BootDiskKey(c, m) && p.api.store[k] == DiskRes(DesiredDisk(m))) ||
                (k == VMKey(c, m) && p.api.store[k] == VMRes(vm, NoVMStatus))
      {
        if k in ip.api.store {
          assert k == MachinePublicIPKey(c, m);
        }
      }
    }
  }

  /** With the machine's resources present and no failures, ReconcileMachine
      creates nothing, changes nothing, and observes the stored VM. */
  lemma MachineSettled(api: Api, c: EvrocCluster, m: EvrocMachine, machine: Machine,
                       bootstrap: seq<Base64.byte>, patch: PatchOutcome)
    requires NoFaultsAhead(api)
    requires BootDiskKey(c, m) in api.store && VMKey(c, m) in api.store
    requires OwnsPublicIP(c, m, machine) ==> MachinePublicIPKey(c, m) in api.store
    ensures var r := ReconcileMachine(api, c, m, machine, bootstrap, patch);
            r.vm == Some(api.store[VMKey(c, m)]) && r.api.store == api.store && NoCreates(r.calls)
  {
    var ip := ChoosePublicIP(api, c, m, machine);
    ChoosePublicIPCreates(api, c, m, machine);
    var vm := DesiredVM(m, bootstrap, ip.name);
    ProvisionDiskAndVMIdempotent(ip.api, c, m, vm);
    var p := ProvisionDiskAndVM(ip.api, c, m, vm);
    ConcatNoCreates(ip.calls, p.calls);
  }

  /** A second ReconcileMachine after one with no failures, nothing deleted in
      between, creates nothing, changes nothing, observes the same VM and
      records the same outcome. */
  lemma MachineIdempotent(api: Api, c: EvrocCluster, m: EvrocMachine, machine: Machine,
                          bootstrap: seq<Base64.byte>, patch: PatchOutcome)
    requires NoFaultsAhead(api)
    ensures var r := ReconcileMachine(api, c, m, machine, bootstrap, patch);
            var r2 := ReconcileMachine(r.api, c, m, machine, bootstrap, patch);
            r2.vm == r.vm && r2.api.store == r.api.store && NoCreates(r2.calls) &&
            r2.machine == r.machine && r2.err == r.err
  {
    var r := ReconcileMachine(api, c, m, machine, bootstrap, patch);
    ReconcileMachineStores(api, c, m, machine, bootstrap, patch);
    MachineSettled(r.api, c, m, machine, bootstrap, patch);
  }

  /** The machine's resources are left alone by the provider's Forbidden: only
      NotFound is stepped over. */
  const MachineForbiddenOk: set<Kind> := {}

  /** The first two steps of DeleteMachine: the VM, then the boot disk. */
  function DeleteVMAndDisk(api: Api, c: EvrocCluster, m: EvrocMachine): (r: Done)
    ensures Follows(api, r.api, r.calls)
    ensures OnlyDeletes(r.calls)
    ensures Keys(r.calls) <= [VMKey(c, m), BootDiskKey(c, m)]
    ensures r.err.None? ==> Keys(r.calls) == [VMKey(c, m), BootDiskKey(c, m)] && AllTolerated(r.calls, MachineForbiddenOk)
    ensures r.err.Some? ==> StopsAtLast(r.calls, MachineForbiddenOk)
    ensures Grows(r.api.store, api.store)
    ensures KeepsOthers(api.store, r.api.store, [VMKey(c, m), BootDiskKey(c, m)])
    ensures NoFaultsAhead(api) ==> r.err.None? && NoneStored(r.api.store, [VMKey(c, m), BootDiskKey(c, m)])
  {
    var d := DeleteStep(api, VMKey(c, m), MachineForbiddenOk, "VirtualMachine");
    if d.err.Some? then
      assert d.calls[..0] == [];
      d
    else
      var k := DeleteStep(d.api, BootDiskKey(c, m), MachineForbiddenOk, "Disk");
      KeysAppend(d.calls, k.calls);
      ConcatDeletes(d.calls, k.calls);
      ConcatTolerated(d.calls, k.calls, MachineForbiddenOk);
      assert k.calls[..0] == [];
      Done(k.api, k.err, d.calls + k.calls)
  }

  /**
   * DeleteMachine: delete the VM, then the boot disk, then — when the spec
   * asks for a public IP — `<machine>-publicip`. Only NotFound is stepped
   * over; any other error, Forbidden included, stops the teardown.
   */
  function DeleteMachine(api: Api, c: EvrocCluster, m: EvrocMachine): (r: Done)
    ensures Follows(api, r.api, r.calls)
    ensures OnlyDeletes(r.calls)
    ensures Keys(r.calls) <= MachineDeletionPlan(c, m)
    ensures r.err.None? ==> Keys(r.calls) == MachineDeletionPlan(c, m) && AllTolerated(r.calls, MachineForbiddenOk)
    ensures r.err.Some? ==> StopsAtLast(r.calls, MachineForbiddenOk)
    ensures Grows(r.api.store, api.store)
    ensures KeepsOthers(api.store, r.api.store, MachineDeletionPlan(c, m))
    ensures NoFaultsAhead(api) ==> r.err.None? && NoneStored(r.api.store, MachineDeletionPlan(c, m))
  {
    var head := [VMKey(c, m), BootDiskKey(c, m)];
    var tail: seq<Key> := if m.spec.publicIP then [MachinePublicIPKey(c, m)] else [];
    var s := DeleteVMAndDisk(api, c, m);
    if s.err.Some? || !m.spec.publicIP then
      PrefixLonger(Keys(s.calls), head, tail);
      assert KeepsOthers(api.store, s.api.store, head + tail);
      assert !m.spec.publicIP ==> head + tail == head;
      s
    else
      var d := DeleteStep(s.api, MachinePublicIPKey(c, m), MachineForbiddenOk, "PublicIP");
      KeysAppend(s.calls, d.calls);
      ConcatDeletes(s.calls, d.calls);
      ConcatTolerated(s.calls, d.calls, MachineForbiddenOk);
      GrowsTrans(d.api.store, s.api.store, api.store);
      KeepsOthersTrans(api.store, s.api.store, d.api.store, head, tail);
      assert d.calls[..0] == [];
      Done(d.api, d.err, s.calls + d.calls)
  }

  /** What ReconcileMachine adds to the store is on the machine's deletion plan. */
  lemma MachineAddsOnlyPlan(api: Api, c: EvrocCluster, m: EvrocMachine, machine: Machine,
                            bootstrap: seq<Base64.byte>, patch: PatchOutcome)
    ensures AddsOnly(api.store, ReconcileMachine(api, c, m, machine, bootstrap, patch).api.store, MachineDeletionPlan(c, m))
  {
    MachineCreatesOnlyDesired(api, c, m, machine, bootstrap, patch);
  }

  /** Provisioning a machine and then deleting it, with no failures and none of
      the machine's resources there beforehand, leaves the store exactly as it was. */
  lemma MachineRoundTrip(api: Api, c: EvrocCluster, m: EvrocMachine, machine: Machine,
                         bootstrap: seq<Base64.byte>, patch: PatchOutcome)
    requires NoFaultsAhead(api) && NoneStored(api.store, MachineDeletionPlan(c, m))
    ensures var r := ReconcileMachine(api, c, m, machine, bootstrap, patch);
            var d := DeleteMachine(r.api, c, m);
            r.vm.Some? && d.err.None? && d.api.store == api.store
  {
    var r := ReconcileMachine(api, c, m, machine, bootstrap, patch);
    var d := DeleteMachine(r.api, c, m);
    MachineAddsOnlyPlan(api, c, m, machine, bootstrap, patch);
    AddThenRemove(api.store, r.api.store, d.api.store, MachineDeletionPlan(c, m));
  }

  /** A machine's public IP is the cluster's control-plane public IP exactly
      when the machine is named `<cluster>-cp`. */
  lemma PublicIPNameClash(c: EvrocCluster, m: EvrocMachine)
    ensures MachinePublicIPKey(c, m) == ControlPlanePublicIPKey(c) <==> m.meta.name == c.meta.name + "-cp"
  {
    var a, b := m.meta.name, c.meta.name;
    assert (b + "-cp") + "-publicip" == b + "-cp-publicip";
    if a + "-publicip" == b + "-cp-publicip" {
      assert |a| == |b| + 3;
      calc {
        a;
        (a + "-publicip")[..|a|];
        (b + "-cp-publicip")[..|b| + 3];
        b + "-cp";
      }
    }
  }

  /** DeleteMachine removes the cluster's control-plane public IP only for a
      machine that asks for a public IP and is named `<cluster>-cp`. */
  lemma DeleteMachineSparesClusterIP(api: Api, c: EvrocCluster, m: EvrocMachine)
    ensures var key := ControlPlanePublicIPKey(c);
            key in MachineDeletionPlan(c, m) <==> m.spec.publicIP && m.meta.name == c.meta.name + "-cp"
    ensures var key := ControlPlanePublicIPKey(c);
            var r := DeleteMachine(api, c, m);
            key in api.store && !(m.spec.publicIP && m.meta.name == c.meta.name + "-cp") ==>
              key in r.api.store && r.api.store[key] == api.store[key]
  {
    PublicIPNameClash(c, m);
  }

  /** A control-plane machine that reuses the cluster's public IP issues no call
      for any public IP. */
  lemma ReusedIPUntouched(api: Api, c: EvrocCluster, m: EvrocMachine, machine: Machine,
                          bootstrap: seq<Base64.byte>, patch: PatchOutcome)
    requires ReusesControlPlaneIP(c, m, machine)
    ensures var r := ReconcileMachine(api, c, m, machine, bootstrap, patch);
            forall i :: 0 <= i < |r.calls| ==> r.calls[i].key.kind != PublicIP
  {
    var r := ReconcileMachine(api, c, m, machine, bootstrap, patch);
    assert MachinePlan(c, m, machine) == [BootDiskKey(c, m), VMKey(c, m)];
  }

  /** A Forbidden reply to the first Delete stops the machine's teardown there,
      with nothing removed. */
  lemma DeleteMachineForbiddenStops(api: Api, c: EvrocCluster, m: EvrocMachine, msg: string)
    requires NextFault(api) == Some(Error(Forbidden, msg))
    ensures var r := DeleteMachine(api, c, m);
            r.err.Some? && |r.calls| == 1 && r.api.store == api.store
  {
  }
}
