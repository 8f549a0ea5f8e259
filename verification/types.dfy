/**
 * The declarative objects the reconcilers read and write: the provider's own
 * EvrocCluster and EvrocMachine (api/v1beta1) and the parts of the Cluster API
 * Cluster and Machine objects they consult. Plain data; the schema's
 * validation markers are not enforced by the reconcilers and are not modelled.
 */
module Types {
  import opened Errors
  import opened Conditions

  /** Object metadata the reconcilers look at. `deleting` is a non-zero deletion
      timestamp; `pausedAnnotation` is the cluster.x-k8s.io/paused annotation. */
  datatype Meta = Meta(name: string, finalizers: set<string>, deleting: bool, pausedAnnotation: bool)

  // ----- EvrocCluster -----

  datatype SubnetSpec = SubnetSpec(name: string, cidrBlock: string)

  /** `vpcName` may be empty: the cluster's own name is used then. */
  datatype NetworkSpec = NetworkSpec(vpcName: string, subnets: seq<SubnetSpec>)

  datatype ClusterSpec = ClusterSpec(region: string, project: string, identitySecretName: string, network: NetworkSpec)

  datatype VpcStatus = VpcStatus(name: string, ready: bool)

  datatype SubnetStatus = SubnetStatus(name: string, id: string, cidrBlock: string, ready: bool)

  datatype NetworkStatus = NetworkStatus(vpc: VpcStatus, subnets: seq<SubnetStatus>)

  datatype ClusterStatus = ClusterStatus(
    ready: bool,
    network: NetworkStatus,
    controlPlanePublicIPName: string,
    conditions: Conditions)

  datatype EvrocCluster = EvrocCluster(meta: Meta, spec: ClusterSpec, status: ClusterStatus)

  // ----- EvrocMachine -----

  datatype BootDiskSpec = BootDiskSpec(imageName: string, storageClass: string, sizeGB: int)

  datatype MachineSpec = MachineSpec(
    providerID: Option<string>,
    virtualResourcesRef: string,
    bootDisk: BootDiskSpec,
    sshKey: Option<string>,
    subnetName: string,
    securityGroups: seq<string>,
    publicIP: bool)

  datatype AddressType = InternalIP | ExternalIP

  datatype NodeAddress = NodeAddress(kind: AddressType, address: string)

  datatype MachineStatus = MachineStatus(ready: bool, addresses: seq<NodeAddress>, conditions: Conditions)

  datatype EvrocMachine = EvrocMachine(meta: Meta, spec: MachineSpec, status: MachineStatus)

  // ----- Cluster API objects (read, and for the Cluster, patched) -----

  datatype ApiEndpoint = ApiEndpoint(host: string, port: int)

  /** `controlPlaneInitialized` is the ControlPlaneInitialized condition being True;
      `infrastructureRefName` names the EvrocCluster. */
  datatype Cluster = Cluster(
    name: string,
    paused: bool,
    infrastructureReady: bool,
    controlPlaneInitialized: bool,
    controlPlaneEndpoint: ApiEndpoint,
    infrastructureRefName: string)

  /** `controlPlane` is the presence of the control-plane machine label. */
  datatype Machine = Machine(name: string, controlPlane: bool, bootstrapDataSecretName: Option<string>)

  /** What a patch helper does: it may fail to be created, before any change is
      made, or fail to patch, after the changes have been made in memory. */
  datatype PatchOutcome = Patched | HelperFails(helperError: Error) | PatchFails(patchError: Error)

  /** `annotations.IsPaused`: the Cluster is paused or the object carries the annotation. */
  predicate IsPaused(c: Cluster, m: Meta) {
    c.paused || m.pausedAnnotation
  }
}
