/** `mergeUserSystemNoProxy`: builds the no-proxy set step by step,
    returning early at the first failing check, and renders the set as its
    sorted, comma-joined listing. Each insertion loop of the source is a
    method of its own that adds to the set built so far. */
module NoProxy {
  import opened Wrappers
  import opened Strings
  import opened SortedStrings
  import opened ProxyConfig
  import opened NoProxySpec

  /** The machine-network loop: skips the catch-all, stops at the first
      entry that is not a valid CIDR, and otherwise inserts each entry. */
  method InsertMachineNetwork(entries: set<string>, machineNetwork: seq<MachineNetworkEntry>, parseCIDR: string -> bool)
    returns (r: Result<set<string>, Error>)
    ensures var k := FirstRejected(machineNetwork, parseCIDR);
      if k < |machineNetwork| then r == Err(InvalidMachineNetworkCIDR(machineNetwork[k].cidr))
      else r == Ok(entries + MachineNetworkCIDRs(machineNetwork))
  {
    var acc := entries;
    for i := 0 to |machineNetwork|
      invariant forall j :: 0 <= j < i ==> !Rejected(machineNetwork[j].cidr, parseCIDR)
      invariant acc == entries + MachineNetworkCIDRs(machineNetwork[..i])
    {
      var mc := machineNetwork[i];
      assert machineNetwork[..i + 1] == machineNetwork[..i] + [mc];
      if mc.cidr == DefaultCIDR {
        continue;
      }
      if !parseCIDR(mc.cidr) {
        return Err(InvalidMachineNetworkCIDR(mc.cidr));
      }
      acc := acc + {mc.cidr};
    }
    assert machineNetwork[..|machineNetwork|] == machineNetwork;
    return Ok(acc);
  }

  /** The service-network loop: every entry verbatim. */
  method InsertServiceNetwork(entries: set<string>, serviceNetwork: seq<string>) returns (r: set<string>)
    ensures r == entries + (set s | s in serviceNetwork)
  {
    r := entries;
    for i := 0 to |serviceNetwork|
      invariant r == entries + (set s | s in serviceNetwork[..i])
    {
      assert serviceNetwork[..i + 1] == serviceNetwork[..i] + [serviceNetwork[i]];
      r := r + {serviceNetwork[i]};
    }
    assert serviceNetwork[..|serviceNetwork|] == serviceNetwork;
  }

  /** The cluster-network loop: every entry's CIDR verbatim. */
  method InsertClusterNetwork(entries: set<string>, clusterNetwork: seq<ClusterNetworkEntry>) returns (r: set<string>)
    ensures r == entries + (set e | e in clusterNetwork :: e.cidr)
  {
    r := entries;
    for i := 0 to |clusterNetwork|
      invariant r == entries + (set e | e in clusterNetwork[..i] :: e.cidr)
    {
      assert clusterNetwork[..i + 1] == clusterNetwork[..i] + [clusterNetwork[i]];
      r := r + {clusterNetwork[i].cidr};
    }
    assert clusterNetwork[..|clusterNetwork|] == clusterNetwork;
  }

  /** The user step: when the user list is non-empty, every non-empty
      comma-separated token verbatim. */
  method InsertUserEntries(entries: set<string>, noProxy: string) returns (r: set<string>)
    ensures r == entries + UserEntries(noProxy)
  {
    r := entries;
    if |noProxy| > 0 {
      var tokens := Split(noProxy, Comma);
      for i := 0 to |tokens|
        invariant r == entries + (set t | t in tokens[..i] && t != "")
      {
        assert tokens[..i + 1] == tokens[..i] + [tokens[i]];
        if tokens[i] != "" {
          r := r + {tokens[i]};
        }
      }
      assert tokens[..|tokens|] == tokens;
    } else {
      assert Split(noProxy, Comma) == [""];
    }
  }

  /** The platform step: the metadata address for the four cloud
      platforms, then the platform's own node domain or metadata hosts. */
  method InsertPlatformEntries(entries: set<string>, infra: Infrastructure) returns (r: set<string>)
    requires PlatformStatusComplete(infra)
    ensures r == entries + PlatformEntries(infra)
  {
    r := entries;
    if infra.platformStatus.Some? {
      var ps := infra.platformStatus.value;
      if ps.platformType == AWSPlatformType || ps.platformType == GCPPlatformType
         || ps.platformType == AzurePlatformType || ps.platformType == OpenStackPlatformType {
        r := r + {MetadataAddress};
      }

      if ps.platformType == AWSPlatformType {
        r := r + {AWSNodeDomain(ps.aws.value.region)};
      } else if ps.platformType == AzurePlatformType {
        var cloudName := ps.azure.value.cloudName;
        if cloudName != AzurePublicCloud {
          r := r + {AzureWireServer};
          if cloudName == AzureStackCloud {
            r := r + {ps.azure.value.armEndpoint};
          }
        }
      } else if ps.platformType == GCPPlatformType {
        r := r + GCPMetadataHosts;
      }
    }
  }

  /** The whole merge, with the environment reader and the foreign parsers
      taken from `env`. */
  method MergeUserSystemNoProxy(proxy: Proxy, infra: Infrastructure, network: Network, cluster: ConfigMap, env: Environment)
    returns (r: Result<string, Error>)
    requires PlatformStatusComplete(infra)
    ensures r == ExpectedNoProxy(proxy, infra, network, cluster, env)
  {
    if InstallConfigKey !in cluster.data {
      return Err(MissingInstallConfig);
    }
    var data := cluster.data[InstallConfigKey];
    var parsed := env.unmarshalInstallConfig(data);
    if parsed.None? {
      return Err(InvalidInstallConfig(data));
    }
    var ic := parsed.value;

    var entries := Baseline;
    if env.hyperShiftEnabled {
      entries := entries + {HyperShiftDomain};
    }

    if ic.machineCIDR != "" && ic.machineCIDR != DefaultCIDR {
      if !env.parseCIDR(ic.machineCIDR) {
        return Err(InvalidMachineCIDR(ic.machineCIDR));
      }
      entries := entries + {ic.machineCIDR};
    }

    var machine := InsertMachineNetwork(entries, ic.machineNetwork, env.parseCIDR);
    if machine.Err? {
      return Err(machine.error);
    }
    entries := machine.value;
    ghost var api: set<string> := {};

    if env.getEnv(ProxyInternalAPIServerAddress) != "true" {
      if |infra.apiServerInternalURL| > 0 {
        var internalAPIServer := env.parseURL(infra.apiServerInternalURL);
        if internalAPIServer.None? {
          return Err(InvalidAPIServerInternalURL);
        }
        entries := entries + {internalAPIServer.value};
        api := {internalAPIServer.value};
      } else {
        return Err(MissingAPIServerInternalURL(infra.name));
      }
    }
    assert APIServerEntries(infra, env) == Ok(api);
    assert entries == Baseline + HyperShiftEntries(env) + MachineEntries(ic) + api;

    if |network.serviceNetwork| > 0 {
      entries := InsertServiceNetwork(entries, network.serviceNetwork);
    } else {
      return Err(MissingServiceNetwork(network.name));
    }

    entries := InsertPlatformEntries(entries, infra);

    if |network.clusterNetwork| > 0 {
      entries := InsertClusterNetwork(entries, network.clusterNetwork);
    } else {
      return Err(MissingClusterNetwork(network.name));
    }

    entries := InsertUserEntries(entries, proxy.noProxy);
    assert Expected(proxy, infra, network, cluster, env) == Ok(entries);

    var list := SortedList(entries);
    return Ok(Join(list, [Comma]));
  }
}
