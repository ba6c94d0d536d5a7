# No-proxy list merge of the cluster network operator

This project models how the cluster network operator builds the cluster's
no-proxy list: the hosts, domains and CIDRs that must bypass the HTTP proxy.
`mergeUserSystemNoProxy` (`pkg/util/proxyconfig/no_proxy.go`) reads the
install-config document from the config map passed as `cluster`, the
`Infrastructure` and `Network` status and the user's `Proxy` spec. It fills a
string set in a fixed order of steps, returning at the first failing check,
and returns the set's sorted members joined with commas.

The model has these modules:

- `ProxyConfig` (`proxy_config.dfy`): the input fields the merge reads, the
  constants it compares against, the error values, and `Environment`. That
  record holds the merge's foreign calls as plain functions: the environment
  reader, `net.ParseCIDR` success (CIDR notation as in section 3.1 of
  RFC 4632 and section 2.3 of RFC 4291), `url.Parse` success with
  `Hostname()` (the host of section 3.2.2 of RFC 3986), and `yaml.Unmarshal`
  into the install-config shape. It holds the HyperShift mode flag as a
  boolean.
- `NoProxy` (`no_proxy.dfy`): the merge itself, as imperative methods over a
  local `set<string>`. Each insertion loop of the source is its own method.
  `MergeUserSystemNoProxy` has the source's early returns, in the source's
  order.
- `NoProxySpec` (`no_proxy_spec.dfy`): what the merge computes, without
  loops. `Expected` returns the error of the first failing check, or the union
  of what each step contributes. `ExpectedNoProxy` is `Expected` rendered as
  the sorted, comma-joined string.
- `NoProxyProperties` (`no_proxy_properties.dfy`): each step's promises,
  proved about `Expected`. The merge method is proved to compute `Expected`.
- `SortedStrings` (`sorted_strings.dfy`): `sets.String.List()`. It orders
  strings the way Go's `<` does, and proves that a set has exactly one
  strictly sorted listing. So the output depends only on which entries were
  inserted, not on the order the set yields them.
- `Strings` (`strings.dfy`): `strings.Split` with a one-character separator
  and `strings.Join`, with both round-trip lemmas.
- `NoProxyExamples` (`no_proxy_examples.dfy`): worked examples on concrete
  inputs.
- `Wrappers` (`wrappers.dfy`): `Option` and `Result`.

Some of the code's behaviour is easy to get wrong, and the model follows the code exactly:

- User tokens are inserted as they are, without trimming.
- `0.0.0.0/0` is left out only by the machine-CIDR and machine-network
  steps. A service network, a cluster network or a user token equal to it is
  inserted. `NetworksKeptVerbatim` and `UserTokensKept` state this.
- Service-network and cluster-network strings are inserted without CIDR
  validation. Only the machine steps validate.
- The output order is ascending by Go's string comparison. Go's map iteration
  order plays no part in it.
- The Azure Stack branch inserts the ARM endpoint even when it is the empty
  string. `PlatformEntries` states this.

## Model

| member | source | states |
|---|---|---|
| `NoProxy.MergeUserSystemNoProxy` | pkg/util/proxyconfig/no_proxy.go:28-153 | The merge returns exactly `ExpectedNoProxy`: the first failing check's error, in the source's check order, or the sorted, comma-joined set of every step's entries. |
| `NoProxy.InsertMachineNetwork` | pkg/util/proxyconfig/no_proxy.go:70-78 | Fails with the first machine-network entry that is not the catch-all and not a valid CIDR. Otherwise adds every entry except the catch-all. |
| `NoProxy.InsertServiceNetwork` | pkg/util/proxyconfig/no_proxy.go:96-99 | Adds every service-network string to the set built so far. Adds nothing else. |
| `NoProxy.InsertPlatformEntries` | pkg/util/proxyconfig/no_proxy.go:104-134 | The two platform switches add exactly `PlatformEntries`. |
| `NoProxy.InsertClusterNetwork` | pkg/util/proxyconfig/no_proxy.go:136-139 | Adds every cluster-network CIDR to the set built so far. Adds nothing else. |
| `NoProxy.InsertUserEntries` | pkg/util/proxyconfig/no_proxy.go:144-150 | Guarded by a non-empty user string, adds exactly the non-empty comma-separated tokens. The guard changes nothing, because the empty string splits into one empty token. |
| `NoProxySpec.ParsedInstallConfig` | pkg/util/proxyconfig/no_proxy.go:44-51 | An install-config exists exactly when the `install-config` key is present and its text unmarshals. A missing key gives none. |
| `NoProxySpec.APIServerEntries` | pkg/util/proxyconfig/no_proxy.go:84-94 | With the toggle `"true"` the step adds nothing. An empty URL fails with `MissingAPIServerInternalURL(infra.name)`. Any other error is that one or `InvalidAPIServerInternalURL`. On success the step adds the parsed host name, and nothing that is not it. |
| `NoProxySpec.Expected` | pkg/util/proxyconfig/no_proxy.go:44-150 | The loop-free outcome of the merge as a set: the error of the first failing check in source order (install-config key, unmarshal, machine CIDR, machine network, API server, service network, cluster network), or the union of every step's contribution. Its properties are the `NoProxyProperties` lemmas. |
| `NoProxySpec.ExpectedNoProxy` | pkg/util/proxyconfig/no_proxy.go:44-152 | It succeeds exactly when `Expected` does, and reports the same error. On success it is the sorted listing of `Expected`'s entries joined with commas, as line 152 returns. |
| `NoProxySpec.FirstRejected` | pkg/util/proxyconfig/no_proxy.go:70-78 | The index of the first machine-network entry that is neither the catch-all nor a valid CIDR, or the list's length when there is none. |
| `NoProxySpec.MachineEntries` | pkg/util/proxyconfig/no_proxy.go:17-78 | The catch-all `0.0.0.0/0` is never among the machine steps' entries. |
| `NoProxySpec.AWSNodeDomain` | pkg/util/proxyconfig/no_proxy.go:113-119 | The suffix is `.ec2.internal` exactly when the region is `us-east-1`. Any other region gives exactly `.` + region + `.compute.internal`, stated as its three pieces. |
| `NoProxySpec.PlatformEntries` | pkg/util/proxyconfig/no_proxy.go:104-134 | A nil platform status adds nothing. `169.254.169.254` is added, and the step adds anything at all, exactly for AWS, GCP, Azure and OpenStack. Per platform it gives the exact entries: the AWS node domain, and for a non-public Azure cloud `168.63.129.16` plus, for Azure Stack, the ARM endpoint verbatim. For GCP it gives the three metadata host names. |
| `NoProxySpec.UserEntries` | pkg/util/proxyconfig/no_proxy.go:144-150 | User entries are never empty and never contain a comma. |
| `NoProxyProperties.BaselineAlwaysPresent` | pkg/util/proxyconfig/no_proxy.go:53-61 | On success the result holds `127.0.0.1`, `localhost`, `.svc` and `.cluster.local`, and also `.hypershift.local` when HyperShift is enabled. |
| `NoProxyProperties.InstallConfigChecksComeFirst` | pkg/util/proxyconfig/no_proxy.go:44-51 | A missing `install-config` key, then an unmarshal failure, is reported regardless of every other input. |
| `NoProxyProperties.SucceedsExactlyWhenChecksPass` | pkg/util/proxyconfig/no_proxy.go:44-142 | The merge succeeds if and only if the install-config is present and parses, the machine checks pass, the API server step passes, and both network lists are non-empty. |
| `NoProxyProperties.MachineEntriesValidatedAndKept` | pkg/util/proxyconfig/no_proxy.go:63-78 | On success every non-empty, non-catch-all machine CIDR and machine-network CIDR passed `net.ParseCIDR` and appears verbatim. |
| `NoProxyProperties.InvalidMachineCIDRFails` | pkg/util/proxyconfig/no_proxy.go:63-66 | A non-empty, non-catch-all machine CIDR that does not parse fails the merge with that CIDR. |
| `NoProxyProperties.InvalidMachineNetworkEntryFails` | pkg/util/proxyconfig/no_proxy.go:70-76 | Any invalid non-catch-all machine-network entry fails the merge. When the machine CIDR and all earlier entries pass, the error names that entry. |
| `NoProxyProperties.FirstRejectedIgnoresCatchAll` | pkg/util/proxyconfig/no_proxy.go:71-73 | Which machine-network entry is rejected first does not depend on how `0.0.0.0/0` would be judged. |
| `NoProxyProperties.CatchAllNeverValidated` | pkg/util/proxyconfig/no_proxy.go:63-78 | Changing `net.ParseCIDR`'s verdict on `0.0.0.0/0` changes nothing, so the catch-all is never validated. No `InvalidMachineCIDR` or `InvalidMachineNetworkCIDR` error ever names it. |
| `NoProxyProperties.EmptyMachineCIDRSkipped` | pkg/util/proxyconfig/no_proxy.go:63-68 | An empty machine CIDR is neither validated nor inserted. The merge never fails with a machine-CIDR error, and the machine steps contribute only the machine-network CIDRs. |
| `NoProxyProperties.EmptyMachineNetworkEntryValidated` | pkg/util/proxyconfig/no_proxy.go:70-78 | An empty machine-network entry is not skipped. If `net.ParseCIDR` rejects `""`, the merge fails, with `InvalidMachineNetworkCIDR("")` when nothing earlier failed. |
| `NoProxyProperties.CatchAllOrigin` | pkg/util/proxyconfig/no_proxy.go:63-147 | If a successful result holds `0.0.0.0/0`, it came from the API server, service network, platform, cluster network or user step, never from the baseline or the machine steps. |
| `NoProxyProperties.APIServerToggleSkipsStep` | pkg/util/proxyconfig/no_proxy.go:84 | With `PROXY_INTERNAL_APISERVER_ADDRESS` equal to `"true"`, the outcome is the same whatever the internal URL is and however it would parse. |
| `NoProxyProperties.APIServerStepOutcome` | pkg/util/proxyconfig/no_proxy.go:84-94 | With the toggle off, an empty URL is `MissingAPIServerInternalURL` with the infrastructure's name, and an unparseable one is `InvalidAPIServerInternalURL`. A parseable URL contributes exactly its host name, and success implies that host name is in the result. |
| `NoProxyProperties.NetworkChecks` | pkg/util/proxyconfig/no_proxy.go:96-142 | After the earlier checks, an empty service network fails first, then an empty cluster network. With both non-empty the merge succeeds. |
| `NoProxyProperties.NetworksKeptVerbatim` | pkg/util/proxyconfig/no_proxy.go:96-139 | On success every service-network string and every cluster-network CIDR appears verbatim. |
| `NoProxyProperties.PlatformEntriesKept` | pkg/util/proxyconfig/no_proxy.go:104-134 | On success every platform entry is in the result. |
| `NoProxyProperties.UserTokensKept` | pkg/util/proxyconfig/no_proxy.go:144-150 | On success every non-empty comma-separated user token appears verbatim. |
| `NoProxyProperties.OutputDeterminedByEntries` | pkg/util/proxyconfig/no_proxy.go:152 | Any strictly sorted listing of the entries joins to the output string, so equal entry sets give equal output. |
| `NoProxyProperties.SortedListingSplits` | pkg/util/proxyconfig/no_proxy.go:152 | For any non-empty set of comma-free strings, splitting the comma-joined sorted listing on commas gives back that listing. |
| `NoProxyProperties.OutputSplitsIntoEntries` | pkg/util/proxyconfig/no_proxy.go:152 | When no entry contains a comma, splitting the output on commas gives back exactly the entries, sorted and without duplicates. |
| `Strings.Split` | pkg/util/proxyconfig/no_proxy.go:145 | Splitting gives at least one piece, and no piece contains the separator. |
| `Strings.Join` | pkg/util/proxyconfig/no_proxy.go:152 | Go's `strings.Join`: no parts give `""` and one part gives itself. With more parts the result starts with the first part, followed by the separator. |
| `Strings.JoinSplit` | pkg/util/proxyconfig/no_proxy.go:145 | Joining the split pieces with the separator gives back the user's string. |
| `Strings.SplitJoin` | pkg/util/proxyconfig/no_proxy.go:152 | Splitting a join of separator-free parts gives back the parts. |
| `SortedStrings.Less` | pkg/util/proxyconfig/no_proxy.go:152 | Go's string `<` as used by the sort in `set.List()`: lexicographic order, byte order, which is code-point order on valid UTF-8. No string is below itself, and a proper prefix is below the longer string. |
| `SortedStrings.LessTotal` | pkg/util/proxyconfig/no_proxy.go:152 | Go's string order is total: for any two different strings, one is below the other. |
| `SortedStrings.StrictlySortedHasNoDuplicates` | pkg/util/proxyconfig/no_proxy.go:152 | A strictly sorted listing has no repeated entry. |
| `SortedStrings.InsertSorted` | pkg/util/proxyconfig/no_proxy.go:152 | Inserting a new string into a sorted listing keeps it strictly sorted and adds exactly that string. |
| `SortedStrings.SortSet` | pkg/util/proxyconfig/no_proxy.go:152 | A set's listing is strictly sorted, has exactly the set's members, and has the set's size. |
| `SortedStrings.SortedListingUnique` | pkg/util/proxyconfig/no_proxy.go:152 | Two strictly sorted listings with the same members are equal. |
| `SortedStrings.SortedList` | pkg/util/proxyconfig/no_proxy.go:152 | Whatever order the set yields its members in, the listing `set.List()` returns is `SortSet` of the set. |
| `NoProxyExamples.EndToEnd` | pkg/util/proxyconfig/no_proxy.go:28-153 | For AWS in us-east-1 with machine CIDR `10.0.0.0/16`, one service network, one cluster network and the user string `my.internal,10.1.0.0/16`, the result is exactly the twelve expected entries. |
| `NoProxyExamples.OtherAWSRegion` | pkg/util/proxyconfig/no_proxy.go:113-119 | In `eu-west-1` the result has `.eu-west-1.compute.internal` and not `.ec2.internal`. |
| `NoProxyExamples.MalformedMachineCIDR` | pkg/util/proxyconfig/no_proxy.go:63-66 | The machine CIDR `not-a-cidr` fails with `InvalidMachineCIDR("not-a-cidr")`. |
| `NoProxyExamples.ToggleAndEmptyURL` | pkg/util/proxyconfig/no_proxy.go:84-94 | An empty internal URL fails without the toggle. With the toggle `"true"` the merge succeeds and adds no host name. |

## Left out

- `MergeUserSystemNoProxy` (no_proxy.go:24-26), the exported wrapper, only passes `os.Getenv` as the environment reader. The model's method takes the reader in `Environment.getEnv`, so the wrapper is the model's method with the process environment in that field. The model's method is named after the wrapper but models the unexported function.
- `platform.NewHyperShiftConfig()` reads the process environment. It is the input flag `Environment.hyperShiftEnabled`.
- The internals of `yaml.Unmarshal`, `net.ParseCIDR`, `url.Parse` and `URL.Hostname()` belong to Go's standard library and a YAML library. They are uninterpreted functions in `Environment`, and the model assumes nothing about them. For example, it does not assume that `net.ParseCIDR` rejects the empty string.
- The text of the error messages is not modelled. Each error is a constructor that carries the data its message names. The YAML parse error's own detail is not kept.
- `NoProxy.MergeUserSystemNoProxy`: the Go code panics when the platform type is AWS and the AWS status is nil, or when the platform type is Azure and the Azure status is nil. The model requires those sub-records to be present (`PlatformStatusComplete`) instead of modelling the panic. It requires this even when an earlier check would have returned before the dereference.
- The install-config's `controlPlane.replicas` field is unmarshalled but never read, so it is not modelled. Neither are the Kubernetes object wrappers beyond the fields the merge reads.
- Go compares strings byte by byte in UTF-8. For well-formed UTF-8 this is the same order as comparing code points, which is what the model does with Dafny's `char`. Byte strings that are not valid UTF-8 cannot be represented.
- `pkg/dependencymagnet/dependencymagnet.go` holds only blank imports for build tooling and has no logic.
