/** What `mergeUserSystemNoProxy` computes, stated without its loops: the
    error that the first failing check reports, and otherwise the union of
    what each step contributes. The lemmas state the promises of each step
    about this specification. */
module NoProxySpec {
  import opened Wrappers
  import opened Strings
  import opened SortedStrings
  import opened ProxyConfig

  /** Entries every result starts from. */
  const Baseline: set<string> := {"127.0.0.1", "localhost", ".svc", ".cluster.local"}

  /** Domain added when the HyperShift mode is enabled. */
  const HyperShiftDomain: string := ".hypershift.local"

  /** Link-local instance metadata address of AWS, GCP, Azure and OpenStack. */
  const MetadataAddress: string := "169.254.169.254"

  /** Azure's platform address, needed outside the public cloud. */
  const AzureWireServer: string := "168.63.129.16"

  /** GCP metadata server names, including the fully-qualified form. */
  const GCPMetadataHosts: set<string> := {"metadata", "metadata.google.internal", "metadata.google.internal."}

  /** The merge's separators: between user tokens and between output entries. */
  const Comma: char := ','

  /** The install-config document, if the key is present and it unmarshals. */
  function ParsedInstallConfig(cluster: ConfigMap, env: Environment): (ic: Option<InstallConfig>)
    ensures InstallConfigKey !in cluster.data ==> ic.None?
    ensures ic.Some? <==>
      InstallConfigKey in cluster.data && env.unmarshalInstallConfig(cluster.data[InstallConfigKey]).Some?
  {
    if InstallConfigKey in cluster.data then env.unmarshalInstallConfig(cluster.data[InstallConfigKey]) else None
  }

  /** The machine CIDR is looked at only when set and not the catch-all. */
  predicate MachineCIDRConsidered(cidr: string)
  {
    cidr != "" && cidr != DefaultCIDR
  }

  /** A machine CIDR or machine-network CIDR that fails validation; the
      catch-all is never validated. */
  predicate Rejected(cidr: string, parseCIDR: string -> bool)
  {
    cidr != DefaultCIDR && !parseCIDR(cidr)
  }

  /** Index of the first rejected machine-network entry, or the length of
      the list when there is none. */
  function FirstRejected(entries: seq<MachineNetworkEntry>, parseCIDR: string -> bool): (k: nat)
    ensures k <= |entries|
    ensures forall j :: 0 <= j < k ==> !Rejected(entries[j].cidr, parseCIDR)
    ensures k < |entries| ==> Rejected(entries[k].cidr, parseCIDR)
    decreases |entries|
  {
    if |entries| == 0 then 0
    else if Rejected(entries[0].cidr, parseCIDR) then 0
    else 1 + FirstRejected(entries[1..], parseCIDR)
  }

  /** Both machine validation steps pass. */
  predicate MachineChecksPass(ic: InstallConfig, parseCIDR: string -> bool)
  {
    && !(MachineCIDRConsidered(ic.machineCIDR) && !parseCIDR(ic.machineCIDR))
    && FirstRejected(ic.machineNetwork, parseCIDR) == |ic.machineNetwork|
  }

  function HyperShiftEntries(env: Environment): (r: set<string>)
  {
    if env.hyperShiftEnabled then {HyperShiftDomain} else {}
  }

  /** Machine-network CIDRs other than the catch-all. */
  function MachineNetworkCIDRs(entries: seq<MachineNetworkEntry>): (r: set<string>)
  {
    set e | e in entries && e.cidr != DefaultCIDR :: e.cidr
  }

  /** What the two machine steps contribute. */
  function MachineEntries(ic: InstallConfig): (r: set<string>)
    ensures DefaultCIDR !in r
  {
    (if MachineCIDRConsidered(ic.machineCIDR) then {ic.machineCIDR} else {})
    + MachineNetworkCIDRs(ic.machineNetwork)
  }

  /** The environment toggle that switches the API server step off. */
  predicate APIServerStepSkipped(env: Environment)
  {
    env.getEnv(ProxyInternalAPIServerAddress) == "true"
  }

  /** What the internal API server step contributes, or its error. */
  function APIServerEntries(infra: Infrastructure, env: Environment): (r: Result<set<string>, Error>)
    ensures APIServerStepSkipped(env) ==> r == Ok({})
    ensures !APIServerStepSkipped(env) && infra.apiServerInternalURL == "" ==>
      r == Err(MissingAPIServerInternalURL(infra.name))
    ensures r.Err? ==> r.error == MissingAPIServerInternalURL(infra.name) || r.error == InvalidAPIServerInternalURL
    ensures r.Ok? ==> forall h :: h in r.value ==> env.parseURL(infra.apiServerInternalURL) == Some(h)
    ensures r.Ok? && !APIServerStepSkipped(env) ==>
      env.parseURL(infra.apiServerInternalURL).Some? && env.parseURL(infra.apiServerInternalURL).value in r.value
  {
    if APIServerStepSkipped(env) then Ok({})
    else if |infra.apiServerInternalURL| == 0 then Err(MissingAPIServerInternalURL(infra.name))
    else match env.parseURL(infra.apiServerInternalURL)
      case None => Err(InvalidAPIServerInternalURL)
      case Some(host) => Ok({host})
  }

  /** The AWS node DNS suffix: the legacy `.ec2.internal` for us-east-1 and
      `.<region>.compute.internal` for every other region. */
  function AWSNodeDomain(region: string): (suffix: string)
    ensures suffix == ".ec2.internal" <==> region == "us-east-1"
    ensures region != "us-east-1" ==>
      && |suffix| == |region| + 18
      && suffix[..1] == "."
      && suffix[1..|region| + 1] == region
      && suffix[|region| + 1..] == ".compute.internal"
  {
    if region == "us-east-1" then ".ec2.internal" else "." + region + ".compute.internal"
  }

  /** The platform types whose instances reach the link-local metadata address. */
  predicate IsMetadataPlatform(platformType: string)
  {
    platformType in {AWSPlatformType, GCPPlatformType, AzurePlatformType, OpenStackPlatformType}
  }

  /** What the platform step contributes: the metadata address for the four
      cloud platforms, and independently of it the node domain for AWS, the
      platform address and ARM endpoint for non-public Azure clouds, and the
      metadata host names for GCP. */
  function PlatformEntries(infra: Infrastructure): (r: set<string>)
    requires PlatformStatusComplete(infra)
    ensures infra.platformStatus.None? ==> r == {}
    ensures MetadataAddress in r <==>
      infra.platformStatus.Some? && IsMetadataPlatform(infra.platformStatus.value.platformType)
    ensures r != {} <==>
      infra.platformStatus.Some? && IsMetadataPlatform(infra.platformStatus.value.platformType)
    ensures infra.platformStatus.Some? && infra.platformStatus.value.platformType == AWSPlatformType ==>
      r == {MetadataAddress, AWSNodeDomain(infra.platformStatus.value.aws.value.region)}
    ensures infra.platformStatus.Some? && infra.platformStatus.value.platformType == AzurePlatformType ==>
      var azure := infra.platformStatus.value.azure.value;
      r == {MetadataAddress}
           + (if azure.cloudName != AzurePublicCloud then {AzureWireServer} else {})
           + (if azure.cloudName == AzureStackCloud then {azure.armEndpoint} else {})
    ensures infra.platformStatus.Some? && infra.platformStatus.value.platformType == GCPPlatformType ==>
      r == {MetadataAddress} + GCPMetadataHosts
    ensures infra.platformStatus.Some? && infra.platformStatus.value.platformType == OpenStackPlatformType ==>
      r == {MetadataAddress}
  {
    match infra.platformStatus
    case None => {}
    case Some(ps) =>
      (if IsMetadataPlatform(ps.platformType) then {MetadataAddress} else {})
      + (if ps.platformType == AWSPlatformType then {AWSNodeDomain(ps.aws.value.region)} else {})
      + (if ps.platformType == AzurePlatformType && ps.azure.value.cloudName != AzurePublicCloud
         then {AzureWireServer} else {})
      + (if ps.platformType == AzurePlatformType && ps.azure.value.cloudName == AzureStackCloud
         then {ps.azure.value.armEndpoint} else {})
      + (if ps.platformType == GCPPlatformType then GCPMetadataHosts else {})
  }

  function ServiceNetworkEntries(network: Network): (r: set<string>)
  {
    set s | s in network.serviceNetwork
  }

  function ClusterNetworkEntries(network: Network): (r: set<string>)
  {
    set e | e in network.clusterNetwork :: e.cidr
  }

  /** The user's entries: the non-empty comma-separated tokens, verbatim. */
  function UserEntries(noProxy: string): (r: set<string>)
    ensures "" !in r
    ensures forall t :: t in r ==> Comma !in t
  {
    set t | t in Split(noProxy, Comma) && t != ""
  }

  /** The merge's outcome as a set: the first failing check's error, or the
      union of every step's contribution. */
  function Expected(proxy: Proxy, infra: Infrastructure, network: Network, cluster: ConfigMap, env: Environment)
    : (r: Result<set<string>, Error>)
    requires PlatformStatusComplete(infra)
  {
    if InstallConfigKey !in cluster.data then Err(MissingInstallConfig)
    else
      var data := cluster.data[InstallConfigKey];
      match env.unmarshalInstallConfig(data)
      case None => Err(InvalidInstallConfig(data))
      case Some(ic) =>
        var k := FirstRejected(ic.machineNetwork, env.parseCIDR);
        if MachineCIDRConsidered(ic.machineCIDR) && !env.parseCIDR(ic.machineCIDR) then
          Err(InvalidMachineCIDR(ic.machineCIDR))
        else if k < |ic.machineNetwork| then
          Err(InvalidMachineNetworkCIDR(ic.machineNetwork[k].cidr))
        else match APIServerEntries(infra, env)
          case Err(e) => Err(e)
          case Ok(api) =>
            if |network.serviceNetwork| == 0 then Err(MissingServiceNetwork(network.name))
            else if |network.clusterNetwork| == 0 then Err(MissingClusterNetwork(network.name))
            else Ok(Baseline + HyperShiftEntries(env) + MachineEntries(ic) + api
                    + ServiceNetworkEntries(network) + PlatformEntries(infra)
                    + ClusterNetworkEntries(network) + UserEntries(proxy.noProxy))
  }

  /** The merge's outcome as the source returns it: the sorted entries
      joined with commas. */
  ghost function ExpectedNoProxy(proxy: Proxy, infra: Infrastructure, network: Network, cluster: ConfigMap, env: Environment)
    : (r: Result<string, Error>)
    requires PlatformStatusComplete(infra)
    ensures r.Ok? <==> Expected(proxy, infra, network, cluster, env).Ok?
    ensures r.Err? ==> r.error == Expected(proxy, infra, network, cluster, env).error
  {
    match Expected(proxy, infra, network, cluster, env)
    case Err(e) => Err(e)
    case Ok(entries) => Ok(Join(SortSet(entries), [Comma]))
  }
}
