/** The promises of each step of the merge, proved about its specification
    `Expected` (which the merge method is proved to compute). */
module NoProxyProperties {
  import opened Wrappers
  import opened Strings
  import opened SortedStrings
  import opened ProxyConfig
  import opened NoProxySpec

  /** A successful merge always holds the baseline, and the HyperShift
      domain whenever that mode is enabled. */
  lemma BaselineAlwaysPresent(proxy: Proxy, infra: Infrastructure, network: Network, cluster: ConfigMap, env: Environment)
    requires PlatformStatusComplete(infra)
    requires Expected(proxy, infra, network, cluster, env).Ok?
    ensures Baseline <= Expected(proxy, infra, network, cluster, env).value
    ensures env.hyperShiftEnabled ==> HyperShiftDomain in Expected(proxy, infra, network, cluster, env).value
  {
  }

  /** A missing or unparseable install-config is reported before any
      CIDR, URL or network error. */
  lemma InstallConfigChecksComeFirst(proxy: Proxy, infra: Infrastructure, network: Network, cluster: ConfigMap, env: Environment)
    requires PlatformStatusComplete(infra)
    ensures InstallConfigKey !in cluster.data ==>
      Expected(proxy, infra, network, cluster, env) == Err(MissingInstallConfig)
    ensures InstallConfigKey in cluster.data && env.unmarshalInstallConfig(cluster.data[InstallConfigKey]).None? ==>
      Expected(proxy, infra, network, cluster, env) == Err(InvalidInstallConfig(cluster.data[InstallConfigKey]))
  {
  }

  /** The merge succeeds exactly when every check passes. */
  lemma SucceedsExactlyWhenChecksPass(proxy: Proxy, infra: Infrastructure, network: Network, cluster: ConfigMap, env: Environment)
    requires PlatformStatusComplete(infra)
    ensures Expected(proxy, infra, network, cluster, env).Ok? <==>
      && ParsedInstallConfig(cluster, env).Some?
      && MachineChecksPass(ParsedInstallConfig(cluster, env).value, env.parseCIDR)
      && APIServerEntries(infra, env).Ok?
      && |network.serviceNetwork| > 0
      && |network.clusterNetwork| > 0
  {
  }

  /** On success every machine CIDR and machine-network CIDR other than the
      catch-all passed validation and is in the result verbatim. */
  lemma MachineEntriesValidatedAndKept(proxy: Proxy, infra: Infrastructure, network: Network, cluster: ConfigMap,
                                       env: Environment, ic: InstallConfig)
    requires PlatformStatusComplete(infra)
    requires ParsedInstallConfig(cluster, env) == Some(ic)
    requires Expected(proxy, infra, network, cluster, env).Ok?
    ensures MachineCIDRConsidered(ic.machineCIDR) ==>
      env.parseCIDR(ic.machineCIDR) && ic.machineCIDR in Expected(proxy, infra, network, cluster, env).value
    ensures forall e :: e in ic.machineNetwork && e.cidr != DefaultCIDR ==>
      env.parseCIDR(e.cidr) && e.cidr in Expected(proxy, infra, network, cluster, env).value
  {
    var entries := Expected(proxy, infra, network, cluster, env).value;
    forall e | e in ic.machineNetwork && e.cidr != DefaultCIDR
      ensures env.parseCIDR(e.cidr) && e.cidr in entries
    {
      var j :| 0 <= j < |ic.machineNetwork| && ic.machineNetwork[j] == e;
      assert !Rejected(ic.machineNetwork[j].cidr, env.parseCIDR);
      assert e.cidr in MachineNetworkCIDRs(ic.machineNetwork);
    }
  }

  /** An invalid machine CIDR fails the merge with that CIDR. */
  lemma InvalidMachineCIDRFails(proxy: Proxy, infra: Infrastructure, network: Network, cluster: ConfigMap,
                                env: Environment, ic: InstallConfig)
    requires PlatformStatusComplete(infra)
    requires ParsedInstallConfig(cluster, env) == Some(ic)
    requires MachineCIDRConsidered(ic.machineCIDR) && !env.parseCIDR(ic.machineCIDR)
    ensures Expected(proxy, infra, network, cluster, env) == Err(InvalidMachineCIDR(ic.machineCIDR))
  {
  }

  /** An invalid machine-network entry fails the merge; when the machine
      CIDR and the entries before it pass, the error names that entry. */
  lemma InvalidMachineNetworkEntryFails(proxy: Proxy, infra: Infrastructure, network: Network, cluster: ConfigMap,
                                        env: Environment, ic: InstallConfig, i: nat)
    requires PlatformStatusComplete(infra)
    requires ParsedInstallConfig(cluster, env) == Some(ic)
    requires i < |ic.machineNetwork| && Rejected(ic.machineNetwork[i].cidr, env.parseCIDR)
    ensures Expected(proxy, infra, network, cluster, env).Err?
    ensures !(MachineCIDRConsidered(ic.machineCIDR) && !env.parseCIDR(ic.machineCIDR))
            && (forall j :: 0 <= j < i ==> !Rejected(ic.machineNetwork[j].cidr, env.parseCIDR)) ==>
      Expected(proxy, infra, network, cluster, env) == Err(InvalidMachineNetworkCIDR(ic.machineNetwork[i].cidr))
  {
    var k := FirstRejected(ic.machineNetwork, env.parseCIDR);
    assert k <= i;
    if forall j :: 0 <= j < i ==> !Rejected(ic.machineNetwork[j].cidr, env.parseCIDR) {
      assert k == i;
    }
  }

  lemma {:induction false} FirstRejectedIgnoresCatchAll(entries: seq<MachineNetworkEntry>, p: string -> bool, q: string -> bool)
    requires forall c :: c != DefaultCIDR ==> p(c) == q(c)
    ensures FirstRejected(entries, p) == FirstRejected(entries, q)
    decreases |entries|
  {
    if |entries| > 0 {
      FirstRejectedIgnoresCatchAll(entries[1..], p, q);
    }
  }

  /** An empty machine CIDR is skipped: it is neither validated nor added,
      so the machine CIDR check cannot fail and the machine steps
      contribute only the machine-network CIDRs. */
  lemma EmptyMachineCIDRSkipped(proxy: Proxy, infra: Infrastructure, network: Network, cluster: ConfigMap,
                                env: Environment, ic: InstallConfig)
    requires PlatformStatusComplete(infra)
    requires ParsedInstallConfig(cluster, env) == Some(ic)
    requires ic.machineCIDR == ""
    ensures forall c :: Expected(proxy, infra, network, cluster, env) != Err(InvalidMachineCIDR(c))
    ensures MachineEntries(ic) == MachineNetworkCIDRs(ic.machineNetwork)
  {
  }

  /** Unlike the machine CIDR, an empty machine-network entry is validated:
      when `net.ParseCIDR` rejects the empty string, such an entry fails the
      merge, and names the empty CIDR when nothing earlier failed. */
  lemma EmptyMachineNetworkEntryValidated(proxy: Proxy, infra: Infrastructure, network: Network, cluster: ConfigMap,
                                          env: Environment, ic: InstallConfig, i: nat)
    requires PlatformStatusComplete(infra)
    requires ParsedInstallConfig(cluster, env) == Some(ic)
    requires i < |ic.machineNetwork| && ic.machineNetwork[i].cidr == "" && !env.parseCIDR("")
    ensures Expected(proxy, infra, network, cluster, env).Err?
    ensures !(MachineCIDRConsidered(ic.machineCIDR) && !env.parseCIDR(ic.machineCIDR))
            && (forall j :: 0 <= j < i ==> !Rejected(ic.machineNetwork[j].cidr, env.parseCIDR)) ==>
      Expected(proxy, infra, network, cluster, env) == Err(InvalidMachineNetworkCIDR(""))
  {
    InvalidMachineNetworkEntryFails(proxy, infra, network, cluster, env, ic, i);
  }

  /** The catch-all is never validated: how `net.ParseCIDR` would judge
      `0.0.0.0/0` does not change the outcome, and no machine error ever
      names it. */
  lemma CatchAllNeverValidated(proxy: Proxy, infra: Infrastructure, network: Network, cluster: ConfigMap,
                               env: Environment, parseCIDR: string -> bool)
    requires PlatformStatusComplete(infra)
    requires forall c :: c != DefaultCIDR ==> parseCIDR(c) == env.parseCIDR(c)
    ensures Expected(proxy, infra, network, cluster, env.(parseCIDR := parseCIDR))
         == Expected(proxy, infra, network, cluster, env)
    ensures Expected(proxy, infra, network, cluster, env) != Err(InvalidMachineCIDR(DefaultCIDR))
    ensures Expected(proxy, infra, network, cluster, env) != Err(InvalidMachineNetworkCIDR(DefaultCIDR))
  {
    var env' := env.(parseCIDR := parseCIDR);
    assert ParsedInstallConfig(cluster, env') == ParsedInstallConfig(cluster, env);
    if ParsedInstallConfig(cluster, env).Some? {
      var ic := ParsedInstallConfig(cluster, env).value;
      FirstRejectedIgnoresCatchAll(ic.machineNetwork, parseCIDR, env.parseCIDR);
    }
  }

  /** The machine steps filter out the catch-all, so `0.0.0.0/0` reaches a
      successful result only through a step that does not filter it: the
      API server, service network, platform, cluster network or user step. */
  lemma CatchAllOrigin(proxy: Proxy, infra: Infrastructure, network: Network, cluster: ConfigMap, env: Environment)
    requires PlatformStatusComplete(infra)
    requires Expected(proxy, infra, network, cluster, env).Ok?
    ensures DefaultCIDR in Expected(proxy, infra, network, cluster, env).value ==>
      DefaultCIDR in APIServerEntries(infra, env).value + ServiceNetworkEntries(network) + PlatformEntries(infra)
                     + ClusterNetworkEntries(network) + UserEntries(proxy.noProxy)
  {
    var ic := ParsedInstallConfig(cluster, env).value;
    assert Expected(proxy, infra, network, cluster, env).value
        == Baseline + HyperShiftEntries(env) + MachineEntries(ic) + APIServerEntries(infra, env).value
           + ServiceNetworkEntries(network) + PlatformEntries(infra)
           + ClusterNetworkEntries(network) + UserEntries(proxy.noProxy);
    assert DefaultCIDR !in Baseline + HyperShiftEntries(env) + MachineEntries(ic);
  }

  /** With the toggle set to "true" the API server step adds nothing and
      cannot fail: the outcome does not depend on the internal URL or on
      how it would parse. */
  lemma APIServerToggleSkipsStep(proxy: Proxy, infra: Infrastructure, network: Network, cluster: ConfigMap,
                                 env: Environment, url: string, parseURL: string -> Option<string>)
    requires PlatformStatusComplete(infra)
    requires APIServerStepSkipped(env)
    ensures Expected(proxy, infra.(apiServerInternalURL := url), network, cluster, env.(parseURL := parseURL))
         == Expected(proxy, infra, network, cluster, env)
  {
    var env' := env.(parseURL := parseURL);
    assert ParsedInstallConfig(cluster, env') == ParsedInstallConfig(cluster, env);
    assert APIServerEntries(infra.(apiServerInternalURL := url), env') == Ok({});
    assert APIServerEntries(infra, env) == Ok({});
  }

  /** Without the toggle, once the install-config checks pass: an empty
      internal URL and an unparseable one are errors, and a parseable one
      contributes exactly its host name. */
  lemma APIServerStepOutcome(proxy: Proxy, infra: Infrastructure, network: Network, cluster: ConfigMap,
                             env: Environment, ic: InstallConfig)
    requires PlatformStatusComplete(infra)
    requires ParsedInstallConfig(cluster, env) == Some(ic) && MachineChecksPass(ic, env.parseCIDR)
    requires !APIServerStepSkipped(env)
    ensures |infra.apiServerInternalURL| == 0 ==>
      Expected(proxy, infra, network, cluster, env) == Err(MissingAPIServerInternalURL(infra.name))
    ensures |infra.apiServerInternalURL| > 0 && env.parseURL(infra.apiServerInternalURL).None? ==>
      Expected(proxy, infra, network, cluster, env) == Err(InvalidAPIServerInternalURL)
    ensures |infra.apiServerInternalURL| > 0 && env.parseURL(infra.apiServerInternalURL).Some? ==>
      APIServerEntries(infra, env) == Ok({env.parseURL(infra.apiServerInternalURL).value})
    ensures Expected(proxy, infra, network, cluster, env).Ok? ==>
      |infra.apiServerInternalURL| > 0 && env.parseURL(infra.apiServerInternalURL).Some? &&
      env.parseURL(infra.apiServerInternalURL).value in Expected(proxy, infra, network, cluster, env).value
  {
  }

  /** Once the earlier checks pass, an empty service network and then an
      empty cluster network are the only ways left to fail. */
  lemma NetworkChecks(proxy: Proxy, infra: Infrastructure, network: Network, cluster: ConfigMap,
                      env: Environment, ic: InstallConfig)
    requires PlatformStatusComplete(infra)
    requires ParsedInstallConfig(cluster, env) == Some(ic) && MachineChecksPass(ic, env.parseCIDR)
    requires APIServerEntries(infra, env).Ok?
    ensures |network.serviceNetwork| == 0 ==>
      Expected(proxy, infra, network, cluster, env) == Err(MissingServiceNetwork(network.name))
    ensures |network.serviceNetwork| > 0 && |network.clusterNetwork| == 0 ==>
      Expected(proxy, infra, network, cluster, env) == Err(MissingClusterNetwork(network.name))
    ensures |network.serviceNetwork| > 0 && |network.clusterNetwork| > 0 ==>
      Expected(proxy, infra, network, cluster, env).Ok?
  {
  }

  /** On success every service-network string and every cluster-network
      CIDR is in the result verbatim, the catch-all included. */
  lemma NetworksKeptVerbatim(proxy: Proxy, infra: Infrastructure, network: Network, cluster: ConfigMap, env: Environment)
    requires PlatformStatusComplete(infra)
    requires Expected(proxy, infra, network, cluster, env).Ok?
    ensures forall i :: 0 <= i < |network.serviceNetwork| ==>
      network.serviceNetwork[i] in Expected(proxy, infra, network, cluster, env).value
    ensures forall i :: 0 <= i < |network.clusterNetwork| ==>
      network.clusterNetwork[i].cidr in Expected(proxy, infra, network, cluster, env).value
  {
    var entries := Expected(proxy, infra, network, cluster, env).value;
    forall i | 0 <= i < |network.clusterNetwork|
      ensures network.clusterNetwork[i].cidr in entries
    {
      assert network.clusterNetwork[i] in network.clusterNetwork;
    }
  }

  /** On success the platform step's entries are in the result. */
  lemma PlatformEntriesKept(proxy: Proxy, infra: Infrastructure, network: Network, cluster: ConfigMap, env: Environment)
    requires PlatformStatusComplete(infra)
    requires Expected(proxy, infra, network, cluster, env).Ok?
    ensures PlatformEntries(infra) <= Expected(proxy, infra, network, cluster, env).value
  {
  }

  /** On success every non-empty comma-separated user token is in the
      result verbatim, untrimmed and unvalidated. */
  lemma UserTokensKept(proxy: Proxy, infra: Infrastructure, network: Network, cluster: ConfigMap, env: Environment)
    requires PlatformStatusComplete(infra)
    requires Expected(proxy, infra, network, cluster, env).Ok?
    ensures forall i :: 0 <= i < |Split(proxy.noProxy, Comma)| && Split(proxy.noProxy, Comma)[i] != "" ==>
      Split(proxy.noProxy, Comma)[i] in Expected(proxy, infra, network, cluster, env).value
  {
    var tokens := Split(proxy.noProxy, Comma);
    forall i | 0 <= i < |tokens| && tokens[i] != ""
      ensures tokens[i] in UserEntries(proxy.noProxy)
    {
      assert tokens[i] in tokens;
    }
  }

  /** The output string is fixed by the set of entries alone: any sorted
      listing of them joins to it, whatever order they were inserted in. */
  lemma OutputDeterminedByEntries(proxy: Proxy, infra: Infrastructure, network: Network, cluster: ConfigMap,
                                  env: Environment, listing: seq<string>)
    requires PlatformStatusComplete(infra)
    requires Expected(proxy, infra, network, cluster, env).Ok?
    requires StrictlySorted(listing) && Elements(listing) == Expected(proxy, infra, network, cluster, env).value
    ensures ExpectedNoProxy(proxy, infra, network, cluster, env) == Ok(Join(listing, [Comma]))
  {
    SortedListingUnique(listing, SortSet(Expected(proxy, infra, network, cluster, env).value));
  }

  /** Splitting the comma-joined sorted listing of a non-empty set of
      comma-free strings gives back that listing. */
  lemma SortedListingSplits(entries: set<string>)
    requires entries != {}
    requires forall x :: x in entries ==> Comma !in x
    ensures Split(Join(SortSet(entries), [Comma]), Comma) == SortSet(entries)
  {
    var listing := SortSet(entries);
    var x :| x in entries;
    assert x in Elements(listing);
    forall i | 0 <= i < |listing| ensures Comma !in listing[i] {
      assert listing[i] in Elements(listing);
    }
    SplitJoin(listing, Comma);
  }

  /** When no entry holds a comma, splitting the output on commas gives
      back the entries, sorted and without duplicates. */
  lemma OutputSplitsIntoEntries(proxy: Proxy, infra: Infrastructure, network: Network, cluster: ConfigMap, env: Environment)
    requires PlatformStatusComplete(infra)
    requires Expected(proxy, infra, network, cluster, env).Ok?
    requires forall x :: x in Expected(proxy, infra, network, cluster, env).value ==> Comma !in x
    ensures ExpectedNoProxy(proxy, infra, network, cluster, env).Ok?
    ensures var parts := Split(ExpectedNoProxy(proxy, infra, network, cluster, env).value, Comma);
      && StrictlySorted(parts)
      && Elements(parts) == Expected(proxy, infra, network, cluster, env).value
      && (forall i, j :: 0 <= i < j < |parts| ==> parts[i] != parts[j])
  {
    var entries := Expected(proxy, infra, network, cluster, env).value;
    BaselineAlwaysPresent(proxy, infra, network, cluster, env);
    assert "localhost" in entries;
    assert ExpectedNoProxy(proxy, infra, network, cluster, env) == Ok(Join(SortSet(entries), [Comma]));
    SortedListingSplits(entries);
    StrictlySortedHasNoDuplicates(SortSet(entries));
  }
}
