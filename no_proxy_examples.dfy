/** Worked examples of the merge on concrete inputs, with concrete stand-ins
    for the foreign parsers. */
module NoProxyExamples {
  import opened Wrappers
  import opened Strings
  import opened ProxyConfig
  import opened NoProxySpec

  /** Placeholder for the install-config document's text. What it unmarshals
      to is chosen by each example, through the stand-in unmarshaller of
      `ExampleEnvironment`. */
  const ExampleDocument: string := "install-config document"

  const ExampleURL: string := "https://api-int.example.com:6443"

  /** The toggle's value, the machine CIDR the document unmarshals to, a
      CIDR parser that accepts the example's own ranges, and a URL parser
      that knows the example URL. */
  function ExampleEnvironment(toggle: string, machineCIDR: string): (env: Environment)
  {
    Environment(
      (name: string) => if name == ProxyInternalAPIServerAddress then toggle else "",
      false,
      (c: string) => c == "10.0.0.0/16" || c == "10.128.0.0/14",
      (u: string) => if u == ExampleURL then Some("api-int.example.com") else None,
      (d: string) => if d == ExampleDocument then Some(InstallConfig(machineCIDR, [])) else None)
  }

  function ExampleInfrastructure(region: string, url: string): (infra: Infrastructure)
  {
    Infrastructure("cluster", url,
      Some(PlatformStatus(AWSPlatformType, Some(AWSPlatformStatus(region)), None)))
  }

  const ExampleNetwork: Network :=
    Network("cluster", ["172.30.0.0/16"], [ClusterNetworkEntry("10.128.0.0/14")])

  const ExampleConfigMap: ConfigMap := ConfigMap(map[InstallConfigKey := ExampleDocument])

  /** With the example's inputs the install-config checks pass and each
      step contributes the entries listed. */
  lemma ExampleSteps(region: string, url: string, toggle: string, machineCIDR: string)
    requires machineCIDR == "" || machineCIDR == "10.0.0.0/16"
    ensures ParsedInstallConfig(ExampleConfigMap, ExampleEnvironment(toggle, machineCIDR))
         == Some(InstallConfig(machineCIDR, []))
    ensures MachineChecksPass(InstallConfig(machineCIDR, []), ExampleEnvironment(toggle, machineCIDR).parseCIDR)
    ensures MachineEntries(InstallConfig(machineCIDR, [])) == (if machineCIDR == "" then {} else {machineCIDR})
    ensures ServiceNetworkEntries(ExampleNetwork) == {"172.30.0.0/16"}
    ensures ClusterNetworkEntries(ExampleNetwork) == {"10.128.0.0/14"}
    ensures PlatformEntries(ExampleInfrastructure(region, url)) == {MetadataAddress, AWSNodeDomain(region)}
    ensures HyperShiftEntries(ExampleEnvironment(toggle, machineCIDR)) == {}
  {
    assert MachineNetworkCIDRs([]) == {};
    assert ExampleNetwork.clusterNetwork[0] in ExampleNetwork.clusterNetwork;
  }

  // Facts about the example's literals, kept apart from the merge so that
  // the solver sees only the strings involved.

  lemma UserEntriesOfPair(a: string, b: string)
    requires Comma !in a && Comma !in b && a != "" && b != ""
    ensures UserEntries(a + [Comma] + b) == {a, b}
  {
    SplitAtSeparator(a, b, Comma);
    SplitWithoutSeparator(b, Comma);
    assert Split(a + [Comma] + b, Comma) == [a, b];
  }

  lemma ExampleUserEntries()
    ensures UserEntries("my.internal,10.1.0.0/16") == {"my.internal", "10.1.0.0/16"}
  {
    assert "my.internal,10.1.0.0/16" == "my.internal" + [Comma] + "10.1.0.0/16";
    UserEntriesOfPair("my.internal", "10.1.0.0/16");
  }

  lemma EuWestDomain()
    ensures AWSNodeDomain("eu-west-1") == ".eu-west-1.compute.internal"
  {
    assert "eu-west-1"[0] != "us-east-1"[0];
    assert "." + "eu-west-1" + ".compute.internal" == ".eu-west-1.compute.internal";
  }

  lemma EndToEndEntries()
    ensures Baseline + {} + {"10.0.0.0/16"} + {"api-int.example.com"} + {"172.30.0.0/16"}
            + {"169.254.169.254", ".ec2.internal"} + {"10.128.0.0/14"} + {"my.internal", "10.1.0.0/16"}
         == {"127.0.0.1", "localhost", ".svc", ".cluster.local", "10.0.0.0/16", "api-int.example.com",
             "172.30.0.0/16", "169.254.169.254", ".ec2.internal", "10.128.0.0/14",
             "my.internal", "10.1.0.0/16"}
  {
    var actual := Baseline + {} + {"10.0.0.0/16"} + {"api-int.example.com"} + {"172.30.0.0/16"}
                  + {"169.254.169.254", ".ec2.internal"} + {"10.128.0.0/14"} + {"my.internal", "10.1.0.0/16"};
    var expected := {"127.0.0.1", "localhost", ".svc", ".cluster.local", "10.0.0.0/16", "api-int.example.com",
                     "172.30.0.0/16", "169.254.169.254", ".ec2.internal", "10.128.0.0/14",
                     "my.internal", "10.1.0.0/16"};
    assert forall x :: x in expected ==> x in actual;
    assert forall x :: x in actual ==> x in expected;
  }

  lemma OtherRegionEntries()
    ensures Baseline + {} + {} + {"api-int.example.com"} + {"172.30.0.0/16"}
            + {"169.254.169.254", ".eu-west-1.compute.internal"} + {"10.128.0.0/14"} + {}
         == {"127.0.0.1", "localhost", ".svc", ".cluster.local", "api-int.example.com",
             "172.30.0.0/16", "169.254.169.254", ".eu-west-1.compute.internal", "10.128.0.0/14"}
  {
    var actual := Baseline + {} + {} + {"api-int.example.com"} + {"172.30.0.0/16"}
                  + {"169.254.169.254", ".eu-west-1.compute.internal"} + {"10.128.0.0/14"} + {};
    var expected := {"127.0.0.1", "localhost", ".svc", ".cluster.local", "api-int.example.com",
                     "172.30.0.0/16", "169.254.169.254", ".eu-west-1.compute.internal", "10.128.0.0/14"};
    assert forall x :: x in expected ==> x in actual;
    assert forall x :: x in actual ==> x in expected;
  }

  lemma ToggleEntries()
    ensures Baseline + {} + {} + {} + {"172.30.0.0/16"}
            + {"169.254.169.254", ".ec2.internal"} + {"10.128.0.0/14"} + {}
         == {"127.0.0.1", "localhost", ".svc", ".cluster.local",
             "172.30.0.0/16", "169.254.169.254", ".ec2.internal", "10.128.0.0/14"}
  {
    var actual := Baseline + {} + {} + {} + {"172.30.0.0/16"}
                  + {"169.254.169.254", ".ec2.internal"} + {"10.128.0.0/14"} + {};
    var expected := {"127.0.0.1", "localhost", ".svc", ".cluster.local",
                     "172.30.0.0/16", "169.254.169.254", ".ec2.internal", "10.128.0.0/14"};
    assert forall x :: x in expected ==> x in actual;
    assert forall x :: x in actual ==> x in expected;
  }

  /** AWS in us-east-1 with a machine CIDR, one service and one cluster
      network, and two user entries: exactly twelve entries. */
  lemma EndToEnd()
    ensures Expected(Proxy("my.internal,10.1.0.0/16"), ExampleInfrastructure("us-east-1", ExampleURL),
                     ExampleNetwork, ExampleConfigMap, ExampleEnvironment("", "10.0.0.0/16"))
         == Ok({"127.0.0.1", "localhost", ".svc", ".cluster.local", "10.0.0.0/16", "api-int.example.com",
                "172.30.0.0/16", "169.254.169.254", ".ec2.internal", "10.128.0.0/14",
                "my.internal", "10.1.0.0/16"})
  {
    ExampleSteps("us-east-1", ExampleURL, "", "10.0.0.0/16");
    var env := ExampleEnvironment("", "10.0.0.0/16");
    var infra := ExampleInfrastructure("us-east-1", ExampleURL);
    assert APIServerEntries(infra, env) == Ok({"api-int.example.com"});
    ExampleUserEntries();
    var ic := InstallConfig("10.0.0.0/16", []);
    assert Expected(Proxy("my.internal,10.1.0.0/16"), infra, ExampleNetwork, ExampleConfigMap, env)
        == Ok(Baseline + HyperShiftEntries(env) + MachineEntries(ic) + {"api-int.example.com"}
              + ServiceNetworkEntries(ExampleNetwork) + PlatformEntries(infra)
              + ClusterNetworkEntries(ExampleNetwork) + UserEntries("my.internal,10.1.0.0/16"));
    assert AWSNodeDomain("us-east-1") == ".ec2.internal";
    var actual := Baseline + {} + {"10.0.0.0/16"} + {"api-int.example.com"} + {"172.30.0.0/16"}
                  + {"169.254.169.254", ".ec2.internal"} + {"10.128.0.0/14"} + {"my.internal", "10.1.0.0/16"};
    assert Expected(Proxy("my.internal,10.1.0.0/16"), infra, ExampleNetwork, ExampleConfigMap, env) == Ok(actual);
    EndToEndEntries();
  }

  /** Another AWS region gets the regional compute domain instead. */
  lemma OtherAWSRegion()
    ensures Expected(Proxy(""), ExampleInfrastructure("eu-west-1", ExampleURL),
                     ExampleNetwork, ExampleConfigMap, ExampleEnvironment("", ""))
         == Ok({"127.0.0.1", "localhost", ".svc", ".cluster.local", "api-int.example.com",
                "172.30.0.0/16", "169.254.169.254", ".eu-west-1.compute.internal", "10.128.0.0/14"})
  {
    ExampleSteps("eu-west-1", ExampleURL, "", "");
    var env := ExampleEnvironment("", "");
    var infra := ExampleInfrastructure("eu-west-1", ExampleURL);
    assert APIServerEntries(infra, env) == Ok({"api-int.example.com"});
    assert UserEntries("") == {};
    var ic := InstallConfig("", []);
    assert Expected(Proxy(""), infra, ExampleNetwork, ExampleConfigMap, env)
        == Ok(Baseline + HyperShiftEntries(env) + MachineEntries(ic) + {"api-int.example.com"}
              + ServiceNetworkEntries(ExampleNetwork) + PlatformEntries(infra)
              + ClusterNetworkEntries(ExampleNetwork) + UserEntries(""));
    EuWestDomain();
    var actual := Baseline + {} + {} + {"api-int.example.com"} + {"172.30.0.0/16"}
                  + {"169.254.169.254", ".eu-west-1.compute.internal"} + {"10.128.0.0/14"} + {};
    assert Expected(Proxy(""), infra, ExampleNetwork, ExampleConfigMap, env) == Ok(actual);
    OtherRegionEntries();
  }

  /** A machine CIDR that does not parse fails the merge. */
  lemma MalformedMachineCIDR()
    ensures Expected(Proxy(""), ExampleInfrastructure("us-east-1", ExampleURL),
                     ExampleNetwork, ExampleConfigMap, ExampleEnvironment("", "not-a-cidr"))
         == Err(InvalidMachineCIDR("not-a-cidr"))
  {
  }

  /** Without the toggle an empty internal URL fails the merge; with the
      toggle set to "true" it does not, and no host name is added. */
  lemma ToggleAndEmptyURL()
    ensures Expected(Proxy(""), ExampleInfrastructure("us-east-1", ""),
                     ExampleNetwork, ExampleConfigMap, ExampleEnvironment("", ""))
         == Err(MissingAPIServerInternalURL("cluster"))
    ensures Expected(Proxy(""), ExampleInfrastructure("us-east-1", ""),
                     ExampleNetwork, ExampleConfigMap, ExampleEnvironment("true", ""))
         == Ok({"127.0.0.1", "localhost", ".svc", ".cluster.local",
                "172.30.0.0/16", "169.254.169.254", ".ec2.internal", "10.128.0.0/14"})
  {
    ExampleSteps("us-east-1", "", "", "");
    ExampleSteps("us-east-1", "", "true", "");
    var infra := ExampleInfrastructure("us-east-1", "");
    assert APIServerEntries(infra, ExampleEnvironment("", "")) == Err(MissingAPIServerInternalURL("cluster"));
    assert APIServerEntries(infra, ExampleEnvironment("true", "")) == Ok({});
    assert UserEntries("") == {};
    var env := ExampleEnvironment("true", "");
    var ic := InstallConfig("", []);
    assert Expected(Proxy(""), infra, ExampleNetwork, ExampleConfigMap, env)
        == Ok(Baseline + HyperShiftEntries(env) + MachineEntries(ic) + {}
              + ServiceNetworkEntries(ExampleNetwork) + PlatformEntries(infra)
              + ClusterNetworkEntries(ExampleNetwork) + UserEntries(""));
    assert AWSNodeDomain("us-east-1") == ".ec2.internal";
    var actual := Baseline + {} + {} + {} + {"172.30.0.0/16"}
                  + {"169.254.169.254", ".ec2.internal"} + {"10.128.0.0/14"} + {};
    assert Expected(Proxy(""), infra, ExampleNetwork, ExampleConfigMap, env) == Ok(actual);
    ToggleEntries();
  }
}
