# KubeVirt node networking and launcher command server, in Dafny

This project models the networking core of KubeVirt's node agent and the
command server of its VM launcher, and proves properties of the model. It
covers:

- the **bootstrap** of the node network (`cmd/virt-handler/cni/provider.go`).
  It finds the node's uplink, makes sure the `kubevirt0` device exists,
  chooses the CNI or the DHCP backend, and on the DHCP path sets up a bridge,
  an ingress qdisc, the loop-guard u32 filter and a DHCP relay;
- the **traffic-control engine** (`tc.go`). It builds u32 filters from a MAC
  address: a redirect filter that sends DHCP replies for a VM's MAC to the
  bridge, and a loop guard meant to let the relay's own re-sent frames pass
  (see Findings);
- the **DHCP relay** (`sniffer.go`). It sets up capture and output handles, then
  loops over received frames. It drops the frames it sent itself or ones that
  are not DHCP replies to a client. The others are rewritten with its own
  source address and written out, and every DHCPACK is reported;
- the **IPAM-only CNI plugin** (`ipamonly.go`). It parses `CNI_ARGS`, creates
  a MAC when none is given, installs or removes host routes through a master
  device, and reports the interfaces of the CNI result;
- the **route helpers** (`routes.go`) over a kernel routing table, with the
  errors each of them tolerates;
- the **network utilities** (`util.go`):
  - a random locally-administered MAC;
  - the node's internal IP;
  - the network-helper introspector;
  - namespace paths;
  - the interface that holds an IP;
- **ssh config generation** for `virtctl` (`config_ssh.go`). It removes
  previously generated host entries, or only those of one namespace and
  context, and generates one entry per VM or VMI;
- the **launcher's command server** (`server.go`). Its handlers are:
  - SyncSecret, Start, Kill and Shutdown, as a sequence of domain-manager
    calls;
  - ListDomains, which collects domains in order and skips the ones that are
    gone;
  - Ping.

Each source file becomes one module:

- imperative code is modelled with methods whose loops carry invariants;
- kernel and cluster state is modelled as classes (`TrafficControl.TC`,
  `Routes.RouteTable`, `CmdServer.Reply`) whose methods state their whole new
  state;
- calls into code outside the core (netlink, exec, the Kubernetes client,
  JSON, libvirt) are parameters: the outcome each call gives.

Go's panics (an index out of range, a nil dereference) are explicit outcomes
wherever the input comes from outside, except the short-address panic of
the traffic-control filter builders (see "## Left out"). Helper modules model the small parts
of Go's standard library the core relies on:

- `Strings`: Split, SplitN, Join, ToLower, TrimSuffix and Itoa;
- `HardwareAddr`: `net.ParseMAC` and `HardwareAddr.String`;
- `Netlink`: IPv4 text;
- `Errors`: error values, `os.IsExist` and `os.IsNotExist`;
- `BigEndian`;
- `Seqs`: an order-preserving filter.

Three behaviours of the code that are easy to miss:

- the relay selects frames by UDP *destination* port 68, the DHCP client port;
- the bootstrap checks the backend flag before parsing the flags, so that
  check only ever sees the default;
- ListDomains never sets the reply's success flag.

## Model

| member | source | states |
|---|---|---|
| TrafficControl.ParseMAC | cmd/virt-handler/cni/pkg/tc.go:166-170 | `hi` is bytes 0-1 and `lo` bytes 2-5 of the address, both read big-endian |
| TrafficControl.ParseMACRoundTrip | cmd/virt-handler/cni/pkg/tc.go:166-170 | recombining the two halves gives back the address's six bytes, and `hi` fits in 16 bits |
| TrafficControl.HalvesRoundTrip | cmd/virt-handler/cni/pkg/tc.go:166-170 | every pair of halves with a 16-bit `hi` is the split of exactly one address |
| TrafficControl.ParseMACExample | cmd/virt-handler/cni/test/provider.go:18 | the manual driver's address 6e:3f:a2:cf:f8:12 splits into 0x6e3f and 0xa2cff812 |
| TrafficControl.HalfKeyMatches | cmd/virt-handler/cni/pkg/tc.go:58-62 | a key with mask 0x0000ffff matches exactly when the word's last two bytes read the value |
| TrafficControl.FullKeyMatches | cmd/virt-handler/cni/pkg/tc.go:63-67 | a key with the full mask matches exactly when the whole word reads the value |
| TrafficControl.MacKeysMatch | cmd/virt-handler/cni/pkg/tc.go:56-73 | the key triple of a MAC and the DHCP port matches exactly when six packet bytes equal the MAC and the UDP destination port is 68 |
| TrafficControl.DelUndoesAdd | cmd/virt-handler/cni/pkg/tc.go:43-49 | deleting a filter just added, when it was absent before, restores the filter set with no error |
| TrafficControl.EnsureIngressIdempotent | cmd/virt-handler/cni/pkg/tc.go:134-148 | ensuring the ingress qdisc twice is ensuring it once, and "exists" is success |
| TrafficControl.TC.constructor | cmd/virt-handler/cni/pkg/tc.go:11-25 | the engine binds the parent and target links over the given kernel filter state |
| TrafficControl.TC.VmPacketFilter | cmd/virt-handler/cni/pkg/tc.go:51-89 | the filter is on the parent's ingress ffff:, priority 2, IPv4, terminal, redirecting to the target, with exactly the keys: the address's first two bytes at -16, its last four at -12, and UDP destination port 68 |
| TrafficControl.VmPacketFilterMatches | cmd/virt-handler/cni/pkg/tc.go:56-73 | on an untagged IPv4/UDP frame the redirect filter matches exactly when the destination MAC is `mac` and the UDP destination port is 68 |
| TrafficControl.TC.MangledPacketFilter | cmd/virt-handler/cni/pkg/tc.go:91-132 | the loop guard as written: priority 1, below the redirect's 2, accepting, with exactly the keys: the address's first two bytes at -8, its last four at -4, and UDP destination port 68 |
| TrafficControl.MangledPacketFilterMatches | cmd/virt-handler/cni/pkg/tc.go:97-107 | the as-written guard matches exactly when the six bytes before the IPv4 header equal `mac` and the port is 68 |
| TrafficControl.MangledPacketFilterMissesIPv4 | cmd/virt-handler/cni/pkg/tc.go:97-107 | on an IPv4 frame the as-written guard never matches unless the address ends in 08:00 |
| TrafficControl.TC.SourceMacFilter | cmd/virt-handler/cni/pkg/tc.go:91-132 | the loop guard with exactly the keys: the address's first two bytes at -10, its last four at -6, and UDP destination port 68; otherwise the same attributes, priority below the redirect's |
| TrafficControl.SourceMacFilterMatches | cmd/virt-handler/cni/pkg/tc.go:97-107 | the corrected guard matches exactly when the source MAC is `mac` and the UDP destination port is 68 |
| TrafficControl.TC.Add | cmd/virt-handler/cni/pkg/tc.go:43-45 | the redirect filter for `mac` is added to the parent's filters unless the kernel refuses, whose error is returned |
| TrafficControl.TC.Del | cmd/virt-handler/cni/pkg/tc.go:47-49 | the same redirect filter is removed; an absent one is ENOENT and leaves the filters unchanged |
| TrafficControl.TC.EnsureIngressQDisc | cmd/virt-handler/cni/pkg/tc.go:134-148 | the ingress qdisc is present afterwards unless the kernel refuses; EEXIST is not an error |
| TrafficControl.TC.AddMangledPacketsFilter | cmd/virt-handler/cni/pkg/tc.go:150-156 | the as-written loop guard (keys at -8/-4) for the target link's own address is added, or the kernel's error returned |
| TrafficControl.TC.RemoveMangledPacketsFilter | cmd/virt-handler/cni/pkg/tc.go:158-164 | the as-written loop guard (keys at -8/-4) for the target link's address is removed, or ENOENT / the kernel's error returned |
| TrafficControl.NewTC | cmd/virt-handler/cni/pkg/tc.go:11-25 | the parent lookup's failure first, then the target's; on success a fresh engine over both links |
| BigEndian.UpperHalf | cmd/virt-handler/cni/pkg/tc.go:167-169 | the upper 16 bits of a big-endian word are its first two bytes |
| BigEndian.Be16Eq | cmd/virt-handler/cni/pkg/tc.go:167-169 | two 16-bit big-endian readings are equal exactly when their bytes are |
| BigEndian.Be32Eq | cmd/virt-handler/cni/pkg/tc.go:167-169 | two 32-bit big-endian readings are equal exactly when their bytes are |
| BigEndian.LowHalfMasked | cmd/virt-handler/cni/pkg/tc.go:58-62 | masking the xor with 0x0000ffff compares exactly the last two bytes of the word |
| DhcpRelay.FirstMessageType | pkg/networking/sniffer.go:178-186 | the index of the first message-type option, with none of that type before it |
| DhcpRelay.GetOptionType | pkg/networking/sniffer.go:178-186 | the first message-type option's first data byte; Unspecified without such an option; no type, which the loop turns into a panic, when that option has no data |
| DhcpRelay.Rewrite | pkg/networking/sniffer.go:127-129 | the re-sent frame is the received one with only its source MAC replaced by the handle's address |
| DhcpRelay.SetupError | pkg/networking/sniffer.go:26-52 | there is no set-up error exactly when every set-up call succeeded; otherwise the first failure, wrapped with the device name |
| DhcpRelay.RunDHCPSniffer | pkg/networking/sniffer.go:24-140 | the outputs and the end of the run are those of the set-up sequence followed by the relay loop |
| DhcpRelay.RelayFrames | pkg/networking/sniffer.go:63-139 | the loop's outputs and end equal the step-by-step relay over the events |
| DhcpRelay.HandleFrame | pkg/networking/sniffer.go:76-137 | one frame's outputs and whether the loop stops: drop it, report the ack, skip it on a serialise failure, write it, or stop on a write failure |
| DhcpRelay.SetupFailureReadsNothing | pkg/networking/sniffer.go:26-52 | any failed set-up call ends the run with an error and no output |
| DhcpRelay.StopReturnsNil | pkg/networking/sniffer.go:66-73 | a stop signal or closed stream ends the loop with nil and outputs nothing |
| DhcpRelay.DroppedFrame | pkg/networking/sniffer.go:76-108 | a frame without Ethernet, from the handle itself, not UDP to port 68, or not DHCP is skipped without output |
| DhcpRelay.SurvivingFrame | pkg/networking/sniffer.go:110-137 | a surviving frame reports an ack exactly when it is a DHCPACK, then is written or ends the loop with the wrapped error |
| DhcpRelay.WritesCarryOwnAddress | pkg/networking/sniffer.go:127-129 | every frame the relay writes has the handle's address as source |
| DhcpRelay.LoopErrorIsWriteError | pkg/networking/sniffer.go:130-137 | the only error the loop returns is a write failure, wrapped with the output interface's name |
| DhcpRelay.RelayPreservesOrder | pkg/networking/sniffer.go:63-139 | for any events, the frames handed to the write are exactly the rewritten serialised frames among the events the loop consumes (up to the stop, the close, the panic, or the frame whose write failed, that frame included), and the acks exactly those of the surviving ACKs among them, both in input order |
| DhcpRelay.SmoothRunWaits | pkg/networking/sniffer.go:63-139 | a run without failures consumes every event and ends waiting for more |
| IpamOnly.ParsePair | cmd/virt-handler/cni/main/ipamonly/ipamonly.go:162-169 | a pair parses to a lower-cased key and a non-empty value, or fails with that pair's error |
| IpamOnly.FoldPairs | cmd/virt-handler/cni/main/ipamonly/ipamonly.go:162-172 | the pairs parse exactly when each of them does; the keys are lower-case; a failure is some pair's error with every pair before it well formed |
| IpamOnly.ArgsOf | cmd/virt-handler/cni/main/ipamonly/ipamonly.go:155-173 | empty arguments give a nil map; non-empty ones a map or the first bad pair's error |
| IpamOnly.ParseArgs | cmd/virt-handler/cni/main/ipamonly/ipamonly.go:155-173 | the loop over the pairs computes exactly the parse of the arguments |
| IpamOnly.FoldPairsPrefixFailure | cmd/virt-handler/cni/main/ipamonly/ipamonly.go:162-167 | once a prefix fails, the whole list fails with the same error |
| IpamOnly.PairAccepted | cmd/virt-handler/cni/main/ipamonly/ipamonly.go:163-169 | a non-empty key and value without "=" make a pair that reads as the lower-cased key and the value |
| IpamOnly.PairShape | cmd/virt-handler/cni/main/ipamonly/ipamonly.go:163-169 | an accepted pair is exactly its key, "=" and its value |
| IpamOnly.TwoEqualsRejected | cmd/virt-handler/cni/main/ipamonly/ipamonly.go:164-166 | a pair with two "=" is rejected |
| IpamOnly.EmptyValueRejected | cmd/virt-handler/cni/main/ipamonly/ipamonly.go:164-166 | a pair with an empty value is rejected |
| IpamOnly.EmptyKeyRejected | cmd/virt-handler/cni/main/ipamonly/ipamonly.go:164-166 | a pair with an empty key is rejected |
| IpamOnly.EmptyPairRejected | cmd/virt-handler/cni/main/ipamonly/ipamonly.go:164-166 | an empty pair is rejected |
| IpamOnly.TrailingSemicolonRejected | cmd/virt-handler/cni/main/ipamonly/ipamonly.go:162-166 | arguments ending in ";" never parse |
| IpamOnly.LaterPairWins | cmd/virt-handler/cni/main/ipamonly/ipamonly.go:162-169 | appending a pair to parsed arguments sets its lower-cased key to its value and keeps every other entry |
| IpamOnly.InjectMac | cmd/virt-handler/cni/main/ipamonly/ipamonly.go:69-77 | the new CNI_ARGS ends in `mac=<mac>` |
| IpamOnly.ParsedArgsHaveNoTrailingSemicolon | cmd/virt-handler/cni/main/ipamonly/ipamonly.go:69-74 | well-formed arguments never end in ";" |
| IpamOnly.InjectIntoEmpty | cmd/virt-handler/cni/main/ipamonly/ipamonly.go:69-77 | into empty arguments the injection writes a map with just the MAC |
| IpamOnly.InjectIntoParsed | cmd/virt-handler/cni/main/ipamonly/ipamonly.go:69-77 | into well-formed arguments the injection adds exactly the MAC entry |
| IpamOnly.InjectMacParses | cmd/virt-handler/cni/main/ipamonly/ipamonly.go:69-77 | the injected text of a hardware address parses back to the old map plus that address |
| IpamOnly.CreateRoute | cmd/virt-handler/cni/main/ipamonly/ipamonly.go:175-190 | the new table and status are those of the plugin's route creation, whose kernel error is returned unfiltered |
| IpamOnly.DeleteRoute | cmd/virt-handler/cni/main/ipamonly/ipamonly.go:192-207 | the new table and status are those of the plugin's route removal, whose kernel error is returned unfiltered |
| IpamOnly.LocalCreateReportsExist | cmd/virt-handler/cni/main/ipamonly/ipamonly.go:175-190 | the plugin's createRoute changes the table as the shared helper does, but reports EEXIST where the helper succeeds |
| IpamOnly.LocalDeleteOfAbsentRouteFails | cmd/virt-handler/cni/main/ipamonly/ipamonly.go:192-207 | removing an absent route fails with ESRCH in the plugin, where the shared helper succeeds |
| IpamOnly.SuppliedMac | cmd/virt-handler/cni/main/ipamonly/ipamonly.go:52-57 | malformed arguments supply no MAC |
| IpamOnly.MacStage | cmd/virt-handler/cni/main/ipamonly/ipamonly.go:56-68 | a supplied MAC is used exactly when it parses, and one that does not parse is the wrapped parse error, with nothing generated; with none supplied, the random MAC with its first octet fixed, or the random source's error wrapped |
| IpamOnly.ResultInterfaces | cmd/virt-handler/cni/main/ipamonly/ipamonly.go:100-111 | macvlan adds the via interface, bridge and veth add the master, other kinds add nothing |
| IpamOnly.CmdAdd | cmd/virt-handler/cni/main/ipamonly/ipamonly.go:46-115 | for each failure point the status and the calls made; on success the printed result and the route through the master |
| IpamOnly.AddAfterMac | cmd/virt-handler/cni/main/ipamonly/ipamonly.go:81-114 | the IPAM, conversion, master and print steps, with the status and calls for each outcome |
| IpamOnly.SetUpMac | cmd/virt-handler/cni/main/ipamonly/ipamonly.go:56-78 | the MAC step's error and calls are those of its specification: random MAC, then recording into CNI_ARGS |
| IpamOnly.AttachToMaster | cmd/virt-handler/cni/main/ipamonly/ipamonly.go:97-112 | a failed master lookup is wrapped; macvlan installs the route; other kinds only add the master interface |
| IpamOnly.MalformedArgsGenerateMac | cmd/virt-handler/cni/main/ipamonly/ipamonly.go:52-68 | with malformed arguments a MAC is generated exactly when the random source succeeds |
| IpamOnly.GeneratedMacIsRecorded | cmd/virt-handler/cni/main/ipamonly/ipamonly.go:69-77 | a generated MAC is written once to CNI_ARGS, whose parse then maps "mac" to it |
| IpamOnly.CmdDel | cmd/virt-handler/cni/main/ipamonly/ipamonly.go:117-149 | a conf failure, then an args failure, then the IPAM delete; with no master, Ok after the delete alone; a failed master lookup gives its wrapped error after the delete and the lookup; a master that is not macvlan, or no ip argument, gives Ok; only a macvlan master with an ip argument touches the routing table |
| IpamOnly.DelAfterArgs | cmd/virt-handler/cni/main/ipamonly/ipamonly.go:128-148 | IPAM's delete comes first; with no master, Ok; a failed master lookup gives its wrapped error after the delete and the lookup; a non-macvlan master or no IP gives Ok; only macvlan with an IP touches the routing table |
| Routes.HostRoute | pkg/networking/routes.go:12-20 | a route exactly when the lookup succeeded and both lists are non-empty: the /32 route to the first IP via the device's first address; else the wrapped lookup error or a panic outcome |
| Routes.KernelRouteReplace | pkg/networking/routes.go:26 | RouteReplace sets the route's destination to its gateway unless the kernel refuses |
| Routes.KernelRouteDel | pkg/networking/routes.go:46 | RouteDel removes a present route; an absent one is ESRCH |
| Routes.RouteTable.constructor | pkg/networking/routes.go:12-54 | the table starts with the given routes |
| Routes.RouteTable.CreateRoute | pkg/networking/routes.go:12-31 | the new table and status are CreateRoute's effect: replace, then tolerate what os.IsExist recognises |
| Routes.RouteTable.DeleteRoute | pkg/networking/routes.go:33-54 | the new table and status are DeleteRoute's effect: remove, then tolerate not-exist and ESRCH |
| Routes.RouteTable.ReplaceRoute | pkg/networking/routes.go:26 | the table and error are those of the kernel's RouteReplace |
| Routes.RouteTable.RemoveRoute | pkg/networking/routes.go:46 | the table and error are those of the kernel's RouteDel |
| Routes.CreateRouteInstalls | pkg/networking/routes.go:12-31 | a successful lookup installs the host route to the first IP via the first address, with no error |
| Routes.CreateRouteIdempotent | pkg/networking/routes.go:26 | creating the same route twice changes nothing after the first time |
| Routes.CreateRouteTolerance | pkg/networking/routes.go:26-30 | a kernel refusal is reported, wrapped, exactly when os.IsExist does not recognise it |
| Routes.AddrListFailureTouchesNothing | pkg/networking/routes.go:14-17 | a failed address lookup is reported and no route is touched |
| Routes.DeleteAbsentRoute | pkg/networking/routes.go:47-53 | deleting an absent route succeeds and keeps the table |
| Routes.DeleteAfterCreate | pkg/networking/routes.go:12-54 | deleting after creating, on the same device and IP, removes exactly that entry |
| Routes.DeleteRouteTolerance | pkg/networking/routes.go:47-53 | a refusal is reported exactly when it is neither not-exist nor ESRCH |
| Routes.EsrchTolerance | pkg/networking/routes.go:57-66 | ESRCH is tolerated bare and under one os wrapper, not under fmt.Errorf |
| Errors.UnderlyingError | pkg/networking/routes.go:57-66 | a path, link or syscall error is unwrapped one level; any other error is itself |
| Errors.WrappedIsOpaque | pkg/networking/routes.go:57-66 | an error wrapped by fmt.Errorf is neither an exist nor a not-exist error |
| Netlink.HostNet | pkg/networking/routes.go:18-20 | the network is the address with the all-ones mask |
| Netlink.ParseOctet | cmd/virt-handler/cni/main/ipamonly/ipamonly.go:128 | a field that reads as a byte is a non-empty run of decimal digits |
| Netlink.ParseIPRoundTrip | cmd/virt-handler/cni/main/ipamonly/ipamonly.go:128 | parsing an address's dotted-quad text gives back the address |
| Netlink.IPTextInjective | cmd/virt-handler/cni/main/ipamonly/ipamonly.go:128 | different addresses have different text |
| HardwareAddr.HexPairRoundTrip | cmd/virt-handler/cni/main/ipamonly/ipamonly.go:73 | a byte's two hex digits read back as the byte |
| HardwareAddr.SeparatedPairs | cmd/virt-handler/cni/main/ipamonly/ipamonly.go:57-61 | a successful read of n separated pairs gives n bytes |
| HardwareAddr.DottedQuads | cmd/virt-handler/cni/main/ipamonly/ipamonly.go:57-61 | a successful read of k dotted groups gives 2k bytes |
| HardwareAddr.ParseMAC | cmd/virt-handler/cni/main/ipamonly/ipamonly.go:57-61 | a parsed address is 6, 8 or 20 bytes; a failure is the text's own invalid-MAC error; text shorter than 14 characters always fails |
| HardwareAddr.MacString | cmd/virt-handler/cni/main/ipamonly/ipamonly.go:73 | the text is three characters per byte less one, and holds no ";" or "=" |
| HardwareAddr.MacStringRoundTrip | cmd/virt-handler/cni/main/ipamonly/ipamonly.go:57-73 | parsing the colon text of a 6-, 8- or 20-byte address gives back the address |
| HardwareAddr.ParseMACRejects | cmd/virt-handler/cni/main/ipamonly/ipamonly.go:57-61 | two example texts, one of five colon pairs and one with mixed separators, are rejected |
| NetUtil.FixFirstOctet | pkg/networking/util.go:110-119 | the result is locally administered and unicast |
| NetUtil.FixKeepsHighBits | pkg/networking/util.go:116 | the fix-up changes no bit but the two lowest ones |
| NetUtil.FixIdle | pkg/networking/util.go:116 | an octet that is already local and unicast is left unchanged |
| NetUtil.RandomMac | pkg/networking/util.go:110-119 | the random source's error, or the six random bytes with only the first octet fixed up |
| NetUtil.GetNodeInternalIP | pkg/networking/util.go:48-55 | the address of the first InternalIP entry; "" when there is none |
| NetUtil.IsNotFound | pkg/networking/util.go:121-131 | true exactly for an exit status of 2 |
| NetUtil.HelperArgs | pkg/networking/util.go:70-104 | the argument vector is the helper binary under the tool directory, the flag, its value, and the target pid |
| NetUtil.HelperResult | pkg/networking/util.go:70-104 | exit status 2 yields no link; another failure is an error; success is the decoded link or the wrapped decode error |
| NetUtil.Introspector.GetLinkByIP | pkg/networking/util.go:70-86 | not found gives no link; another command failure gives the error with its text and the output; success gives the decoded link, or the decoding error wrapped |
| NetUtil.Introspector.GetLinkByName | pkg/networking/util.go:88-104 | the same contract for the lookup by name |
| NetUtil.NewIntrospector | pkg/networking/util.go:66-68 | one trailing "/" of the tool directory is removed, if present |
| NetUtil.NewIntrospectorTrimsOnce | pkg/networking/util.go:66-68 | a directory ending in "//" keeps one "/" |
| NetUtil.NewIntrospectorSameHelper | pkg/networking/util.go:66-86 | a directory with or without its trailing "/" runs the same helper command |
| NetUtil.GetNSFromPIDParts | pkg/networking/util.go:106-108 | the path is "/proc/", the pid's decimal text, then "/ns/net" |
| NetUtil.GetNSFromPIDInjective | pkg/networking/util.go:106-108 | different pids give different namespace paths |
| NetUtil.FindInterface | pkg/networking/util.go:28-46 | the first interface holding the IP, with every earlier one passed over, or the first listing error, or none |
| NetUtil.GetInterfaceFromIP | pkg/networking/util.go:28-46 | the loop's result is that of the search over the interfaces and the link lookup of the one found |
| Bootstrap.RunNodeBootstrap | cmd/virt-handler/cni/provider.go:17-142 | the actions, relay outputs and end of main equal the assembled run of its three parts |
| Bootstrap.FindNodeNetwork | cmd/virt-handler/cni/provider.go:22-72 | the prologue: hostname, client, node, uplink, the two net confs, then the kubevirt0 lookup, each failure a panic |
| Bootstrap.EnsureNodeNetwork | cmd/virt-handler/cni/provider.go:74-107 | the doAdd step: wipe the cache for a missing device, delete one without an address, then CNIAdd |
| Bootstrap.StartBackend | cmd/virt-handler/cni/provider.go:109-141 | block on the CNI backend; otherwise the bridge, TC, qdisc, loop guard and relay, each failure a panic |
| Bootstrap.HostnameAlwaysQueried | cmd/virt-handler/cni/provider.go:33-38 | the host name is always asked for first, and its failure panics even with the override flag given |
| Bootstrap.NodeLookedUp | cmd/virt-handler/cni/provider.go:33-52 | the node looked up is the override flag's value when given, the host name otherwise |
| Bootstrap.MissingDeviceWipesCache | cmd/virt-handler/cni/provider.go:75-88 | no kubevirt0: the cache is removed, recreated, then CNIAdd runs, and no CNIDel |
| Bootstrap.AddresslessDeviceIsRecreated | cmd/virt-handler/cni/provider.go:90-98 | kubevirt0 without an address: CNIDel then CNIAdd, and the cache is not touched |
| Bootstrap.ConfiguredDeviceIsKept | cmd/virt-handler/cni/provider.go:74-107 | kubevirt0 with an address: neither the cache nor the device is touched |
| Bootstrap.CacheTouchedOnlyForMissingDevice | cmd/virt-handler/cni/provider.go:75-88 | the cache directory is touched only when kubevirt0 was missing |
| Bootstrap.CniAddDecision | cmd/virt-handler/cni/provider.go:100-107 | CNIAdd runs exactly when doAdd is set and its preceding steps succeeded |
| Bootstrap.CniAddAtMostOnce | cmd/virt-handler/cni/provider.go:74-107 | CNIAdd runs at most once in the whole run |
| Bootstrap.CniBackendBlocks | cmd/virt-handler/cni/provider.go:109-112 | with the CNI backend main never exits, takes no backend action and relays nothing, and blocks once doAdd succeeded |
| Bootstrap.OtherBackendsTakeDhcpPath | cmd/virt-handler/cni/provider.go:109-117 | once doAdd succeeds, the bridge is added exactly when the backend is not "cni" |
| Bootstrap.DhcpSetUpOrder | cmd/virt-handler/cni/provider.go:114-141 | the relay starts only after bridge, TC, qdisc and loop guard all succeed; its outputs are the run's, and its return exits with 1 |
| SshConfig.ContextLabel | pkg/virtctl/config_ssh/config_ssh.go:203-207 | the label holds no "@", and a context without "@" is its own label |
| SshConfig.RemoveHostEntries | pkg/virtctl/config_ssh/config_ssh.go:146-153 | the result is exactly the foreign entries, in their original order |
| SshConfig.RemoveHostEntriesKeepsForeign | pkg/virtctl/config_ssh/config_ssh.go:146-153 | an entry is kept exactly when it is present and foreign |
| SshConfig.RemoveHostEntriesIdempotent | pkg/virtctl/config_ssh/config_ssh.go:146-153 | removing twice is removing once |
| SshConfig.RemoveHostEntriesForRegenerate | pkg/virtctl/config_ssh/config_ssh.go:155-181 | the result is the entries not matched by namespace and context, in order |
| SshConfig.RegenerateKeepsForeign | pkg/virtctl/config_ssh/config_ssh.go:155-181 | regenerating never removes a foreign entry |
| SshConfig.RemoveAfterRegenerate | pkg/virtctl/config_ssh/config_ssh.go:146-162 | removing all after a regenerate removal is removing all |
| SshConfig.ResourceOf | pkg/virtctl/config_ssh/config_ssh.go:195-202 | "vmi" exactly for VirtualMachineInstance, "vm" exactly for VirtualMachine, none otherwise |
| SshConfig.ProxyCommand | pkg/virtctl/config_ssh/config_ssh.go:214 | the command ends in ssh's " %p" |
| SshConfig.GenerateHostEntry | pkg/virtctl/config_ssh/config_ssh.go:194-219 | the unsupported-kind error, the pattern's error, or the entry with just the generated pattern, one ProxyCommand and the marker comment |
| SshConfig.GenerateHostEntries | pkg/virtctl/config_ssh/config_ssh.go:183-192 | one entry per object in order, or the first failing object's error |
| SshConfig.HostPatternParts | pkg/virtctl/config_ssh/config_ssh.go:164-181 | SplitN finds resource/name, namespace and context label in a generated pattern |
| SshConfig.GeneratedEntryMatches | pkg/virtctl/config_ssh/config_ssh.go:164-181 | for a name and namespace without a dot, a generated entry is matched exactly by its own namespace (or all) and its context's label |
| SshConfig.RegenerateRemovesGenerated | pkg/virtctl/config_ssh/config_ssh.go:155-181 | for a name and namespace without a dot, regenerating in the entry's namespace, or in all namespaces, removes it |
| SshConfig.DottedNameEntryKept | pkg/virtctl/config_ssh/config_ssh.go:164-181 | for a name with one dot, the entry is matched in its own context by no namespace, "" included, so regenerating keeps it |
| CmdServer.SplitVMNamespaceKey | pkg/virt-launcher/virtwrap/cmd-server/server.go:170-176 | without "_" the namespace is "default"; otherwise the namespace has no "_" and namespace + "_" + name is the key |
| CmdServer.SplitVMNamespaceKeyRoundTrip | pkg/virt-launcher/virtwrap/cmd-server/server.go:170-176 | a namespace without "_" and any name split back from their key |
| CmdServer.ListedOf | pkg/virt-launcher/virtwrap/cmd-server/server.go:202-233 | a not-found name, spec or state skips the domain; another error aborts; otherwise the domain from the split name, spec and state |
| CmdServer.Collect | pkg/virt-launcher/virtwrap/cmd-server/server.go:202-233 | success exactly without an abort; a failure is the first abort's error |
| CmdServer.CollectConcat | pkg/virt-launcher/virtwrap/cmd-server/server.go:202-233 | the collected domains keep the domains' order |
| CmdServer.CollectSkips | pkg/virt-launcher/virtwrap/cmd-server/server.go:208-227 | a domain that is gone adds nothing |
| CmdServer.AbortStops | pkg/virt-launcher/virtwrap/cmd-server/server.go:208-227 | an abort fails the whole list, whatever follows |
| CmdServer.Reply.constructor | pkg/virt-launcher/virtwrap/cmd-server/server.go:69-290 | a reply starts unsuccessful with empty message and list |
| CmdServer.Launcher.constructor | pkg/virt-launcher/virtwrap/cmd-server/server.go:44-47 | the launcher holds its JSON codec, domain manager and domain listing |
| CmdServer.Launcher.SyncSecret | pkg/virt-launcher/virtwrap/cmd-server/server.go:69-93 | decode VM, then sync the secret; the first failure is the reply's message, else success |
| CmdServer.Launcher.Start | pkg/virt-launcher/virtwrap/cmd-server/server.go:95-122 | decode VM, decode secrets, sync the VM; the reply states the first failure or success |
| CmdServer.Launcher.Kill | pkg/virt-launcher/virtwrap/cmd-server/server.go:124-144 | decode VM, kill; the reply states the failure or success |
| CmdServer.Launcher.Shutdown | pkg/virt-launcher/virtwrap/cmd-server/server.go:146-166 | decode VM, signal shutdown; the reply states the failure or success |
| CmdServer.Launcher.ListDomains | pkg/virt-launcher/virtwrap/cmd-server/server.go:191-243 | a listing or domain error is the reply's message; otherwise the encoded domains, in order; success is never set |
| CmdServer.Launcher.Ping | pkg/virt-launcher/virtwrap/cmd-server/server.go:287-290 | the reply is success and nothing else changes |
| Seqs.FilterConcat | pkg/virtctl/config_ssh/config_ssh.go:146-162 | filtering a concatenation filters each side, so order is kept |
| Seqs.FilterFilter | pkg/virtctl/config_ssh/config_ssh.go:146-162 | filtering by a weaker then a stronger condition is filtering by the stronger |
| Strings.SplitJoin | cmd/virt-handler/cni/main/ipamonly/ipamonly.go:162-163 | joining a split with its separator gives back the text |
| Strings.SplitN | pkg/virt-launcher/virtwrap/cmd-server/server.go:171 | at most n pieces, which join back to the text, with the separator only in the last |
| Strings.ToLowerIdempotent | cmd/virt-handler/cni/main/ipamonly/ipamonly.go:169 | lower-casing twice is lower-casing once |
| Strings.NatToStringRoundTrip | pkg/networking/util.go:106-108 | the decimal text of a number reads back as the number |

## Findings

| source | as written | input that shows it | evidently intended | confidence | as-written member | corrected member |
|---|---|---|---|---|---|---|
| cmd/virt-handler/cni/pkg/tc.go:97-107 | the loop guard, meant to "match source mac", keys the address's halves at offsets -8 and -4 from the IPv4 header. Those compare source-MAC bytes 2-5 and the EtherType, not the source MAC, which begins at -8 | an untagged IPv4 DHCP reply re-sent by the relay with source 6e:3f:a2:cf:f8:12 (the target link's address): its last two bytes are not 08:00, so the guard does not match and the frame falls through to the redirect filter | keys at -10 (mask 0x0000ffff, the first two bytes) and -6 (the last four), matching exactly the frames whose source MAC is the address | high; not executed | TrafficControl.MangledPacketFilterMissesIPv4 | TrafficControl.SourceMacFilterMatches |

`TC.AddMangledPacketsFilter` and `TC.RemoveMangledPacketsFilter`, and with
them the bootstrap, install and remove the filter as written,
`TC.MangledPacketFilter`. The corrected `TC.SourceMacFilter` stands beside it
as the intended guard, with `SourceMacFilterMatches` proved about it.

## Left out

- SshConfig: an object name may contain dots, and then the first two dots of
  its pattern are not the ones `matchByNamespaceAndContext` expects
  (config_ssh.go:168-175). `DottedNameEntryKept` proves that such an entry is
  never matched in its own context, so a regeneration leaves the old entry
  beside the new one. The model keeps this behaviour, and the matching lemmas
  are stated only for dot-free names and namespaces.
- TC.Add, TC.Del, TC.AddMangledPacketsFilter, TC.RemoveMangledPacketsFilter and
  the filter builders (VmPacketFilter, MangledPacketFilter, SourceMacFilter)
  require an address of at least six bytes. parseMAC's slice-bounds panic on a
  shorter one (tc.go:167-168) is excluded there, and is modelled as an outcome
  only in the bootstrap, Bootstrap.BackendStage.

- I/O: flag parsing, environment variables, stdout and os.Exit are outcomes or
  parameters of the run. So are the CNI skeleton, JSON encoding and decoding,
  and the Kubernetes client.
- netlink, exec of the network helper, and libvirt calls: each call is modelled
  as the outcome it returns, passed in as a parameter (`fault`, `run`,
  `unmarshal`, `Json`, `DomainManager`). The kernel's own behaviour is only
  modelled for routes, filters and the ingress qdisc.
- Goroutines and channels: the relay goroutine's run is a sequence of events,
  with the stop channel as one kind of event. The bootstrap's wait on the
  error channel is the relay's end. The bootstrap never closes its stop
  channel (cmd/virt-handler/cni/provider.go:132-135), so a bootstrap run that
  contains a stop event is one the program cannot produce; the bootstrap
  lemmas do not exclude it.
- IPv6: addresses, routes and the relay are IPv4 only.
- Floating point, time and randomness: the random MAC bytes are a parameter.
- Error texts are simplified to their shape. `%q` escaping, `%v` of a route
  and the exact wording of wrapped errors are not reproduced.
- `Strings.ToLower` only lower-cases ASCII letters; Go's Unicode case mapping
  is not modelled.
- SetNetConfMaster and NewCNITool (provider.go:59-66) are recorded only as
  actions with the outcome they give. Their file edits and the CNI tool's
  internals are not modelled. The Println of the CNIAdd result (provider.go:106)
  is not modelled.
- The ssh host-pattern constructor (`{ssh_config}.NewPattern`) is a parameter.
  Hosts are non-empty by type. Loading and writing the ssh config (`Run`,
  `loadSSHConfig`) are not modelled.
- `createSocket` and `RunServer` of the command server are not modelled: they
  are socket and RPC plumbing.
- `getK8SecretsfromClientArgs` and `getVmfromClientArgs` (server.go:49-67)
  are the `Json` decoders passed in. The domain manager's effects on libvirt are
  not modelled, only the calls made.
- CmdServer.ListedOf: newDomain's UID and the conversion of libvirt's state and
  reason (`SetState`, server.go:178-189, 220-230) are kept as the raw values
  the listing gives.
- The DHCPACK report keeps only the fields the relay reads; the full ack buffer
  is not modelled.
- Test drivers under cmd/virt-handler/cni/test are not modelled. One address is
  used as an example.
- TrafficControl.TC.Add: the kernel's filter list is a set. Duplicate filters
  and filter handles are not modelled.
- IpamOnly.ArgsOf: a nil map and an empty map are told apart only through
  `Success(None)`. Indexing either gives no entry.
- HardwareAddr.ParseMAC, HardwareAddr.SeparatedPairs, HardwareAddr.DottedQuads:
  the address's actual byte values are stated for the colon form by
  MacStringRoundTrip. The hyphen and dot forms are only bounded in length.
