/** The fields of the cluster objects that the no-proxy merge reads, the
    foreign calls it makes, and the errors it reports. */
module ProxyConfig {
  import opened Wrappers

  /** `defaultCIDR`: the catch-all range, which the machine steps never add. */
  const DefaultCIDR: string := "0.0.0.0/0"

  /** Key of the install-config document in the cluster config map. */
  const InstallConfigKey: string := "install-config"

  /** Environment variable through which a hosted control plane opts out of
      the internal API server step. */
  const ProxyInternalAPIServerAddress: string := "PROXY_INTERNAL_APISERVER_ADDRESS"

  // Platform type names (configv1.PlatformType values).
  const AWSPlatformType: string := "AWS"
  const GCPPlatformType: string := "GCP"
  const AzurePlatformType: string := "Azure"
  const OpenStackPlatformType: string := "OpenStack"

  // Azure cloud environment names (configv1.AzureCloudEnvironment values).
  const AzurePublicCloud: string := "AzurePublicCloud"
  const AzureStackCloud: string := "AzureStackCloud"

  /** `Proxy.Spec`: the user's comma-separated exclusions. */
  datatype Proxy = Proxy(noProxy: string)

  datatype AWSPlatformStatus = AWSPlatformStatus(region: string)

  datatype AzurePlatformStatus = AzurePlatformStatus(cloudName: string, armEndpoint: string)

  /** `Infrastructure.Status.PlatformStatus`; the per-platform parts are
      pointers in the source, so each may be absent. */
  datatype PlatformStatus = PlatformStatus(
    platformType: string,
    aws: Option<AWSPlatformStatus>,
    azure: Option<AzurePlatformStatus>)

  datatype Infrastructure = Infrastructure(
    name: string,
    apiServerInternalURL: string,
    platformStatus: Option<PlatformStatus>)

  datatype ClusterNetworkEntry = ClusterNetworkEntry(cidr: string)

  /** `Network.Status`: service networks are plain strings, cluster
      networks are records holding a CIDR. */
  datatype Network = Network(
    name: string,
    serviceNetwork: seq<string>,
    clusterNetwork: seq<ClusterNetworkEntry>)

  /** The config map passed as `cluster`: raw documents by key. */
  datatype ConfigMap = ConfigMap(data: map<string, string>)

  datatype MachineNetworkEntry = MachineNetworkEntry(cidr: string)

  /** The `networking` part of the unmarshalled install-config. */
  datatype InstallConfig = InstallConfig(machineCIDR: string, machineNetwork: seq<MachineNetworkEntry>)

  /** What the merge learns from outside its inputs: the environment
      reader, `net.ParseCIDR` success, `url.Parse` success together with
      `Hostname()` and `yaml.Unmarshal` into the install-config shape, each
      as an uninterpreted function, and the HyperShift mode flag as a
      boolean. */
  datatype Environment = Environment(
    getEnv: string -> string,
    hyperShiftEnabled: bool,
    parseCIDR: string -> bool,
    parseURL: string -> Option<string>,
    unmarshalInstallConfig: string -> Option<InstallConfig>)

  /** One value per `return "", fmt.Errorf(...)` of the merge, carrying
      the data its message names. */
  datatype Error =
    | MissingInstallConfig
    | InvalidInstallConfig(data: string)
    | InvalidMachineCIDR(cidr: string)
    | InvalidMachineNetworkCIDR(cidr: string)
    | InvalidAPIServerInternalURL
    | MissingAPIServerInternalURL(infrastructureName: string)
    | MissingServiceNetwork(networkName: string)
    | MissingClusterNetwork(networkName: string)

  /** The source dereferences the AWS status on the AWS platform and the
      Azure status on Azure without a nil check. */
  predicate PlatformStatusComplete(infra: Infrastructure)
  {
    infra.platformStatus.Some? ==>
      && (infra.platformStatus.value.platformType == AWSPlatformType ==> infra.platformStatus.value.aws.Some?)
      && (infra.platformStatus.value.platformType == AzurePlatformType ==> infra.platformStatus.value.azure.Some?)
  }
}
