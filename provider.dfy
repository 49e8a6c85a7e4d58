/**
 * The node agent's network bootstrap (cmd/virt-handler/cni/provider.go):
 * find the node's own link, point the CNI configurations at it, make sure
 * the node network device kubevirt0 is there and has an address, and, on
 * the DHCP backend, put a bridge, the ingress qdisc and the loop-guard
 * filter in place before relaying DHCP replies.
 *
 * Everything the program asks the outside world is an input: the command
 * line, the host name, the Kubernetes API, the network helper (through the
 * introspector of NetUtil), the file system, the CNI tool and the kernel.
 * What it does is a trace of actions, and how it ends is a Finish.
 */
module Bootstrap {
  import opened Wrappers
  import opened Errors
  import opened Netlink
  import opened NetUtil
  import opened TrafficControl
  import opened DhcpRelay

  const NodeNetworkDevice := "kubevirt0"
  const BridgeDevice := "kubevirtbr0"

  /** What pflag leaves in a variable: the value given on the command line, or the default. */
  function FlagValue(flags: map<string, string>, name: string, default: string): string
  {
    if name in flags then flags[name] else default
  }

  /** The outside world as the bootstrap sees it, one outcome per call it makes. */
  datatype World = World(
    flags: map<string, string>,                    // the parsed command line, by flag name
    osHostname: Result<string, Error>,             // os.Hostname()
    client: Option<Error>,                         // kubecli.GetKubevirtClient()
    nodes: string -> Result<seq<NodeAddress>, Error>,  // the addresses of a node, by name
    run: seq<string> -> CommandOutcome,            // running the network helper
    unmarshal: string -> Result<HelperLink, Error>,    // decoding its answer
    netConfKubevirt: Option<Error>,                // SetNetConfMaster on kubevirt.json
    netConfNode: Option<Error>,                    // SetNetConfMaster on nodenetwork.json
    removeCache: Option<Error>,                    // os.RemoveAll of the cache directory
    makeCache: Option<Error>,                      // os.MkdirAll of the cache directory
    cniDel: Option<Error>,                         // CNIDel of kubevirt0
    cniAdd: Option<Error>,                         // CNIAdd of kubevirt0
    linkAdd: Option<Error>,                        // netlink.LinkAdd of the bridge
    parentLink: Result<Link, Error>,               // NewTC's lookup of kubevirt0
    targetLink: Result<Link, Error>,               // NewTC's lookup of kubevirtbr0
    filters: set<U32Filter>,                       // the u32 filters kubevirt0 carries
    ingress: bool,                                 // whether it carries the ingress qdisc
    qdiscFault: Option<Error>,                     // a kernel error from QdiscAdd
    filterFault: Option<Error>,                    // a kernel error from FilterAdd
    sniffer: Setup,                                // the relay's set-up outcomes
    events: seq<Event>)                            // what the relay receives
  // The bootstrap never closes its stop channel, so a StopSignal in `events`
  // is a run the real program cannot produce; the lemmas still hold for it,
  // and in a run it can produce only StreamClosed ends the relay without error.

  datatype Action =
    | QueryHostname                                // os.Hostname()
    | ConnectApi                                   // kubecli.GetKubevirtClient()
    | GetNode(name: string)                        // Nodes().Get(name)
    | LinkByIP(ip: string)                         // GetLinkByIP(ip, 1)
    | SetNetConfMaster(dir: string, file: string, master: string, via: string)
    | LinkByName(name: string)                     // GetLinkByName(name, 1)
    | RemoveAll(path: string)
    | MkdirAll(path: string)
    | CniDel(ifName: string)
    | CniAdd(ifName: string)
    | AddBridge(name: string)                      // netlink.LinkAdd of a bridge
    | OpenTC(parent: string, target: string)       // NewTC(parent, target)
    | EnsureIngress                                // tc.EnsureIngressQDisc()
    | AddMangledFilter                             // tc.AddMangledPacketsFilter()
    | StartSniffer(iface: string, oface: string)   // go RunDHCPSniffer(iface, oface, ...)

  /** How the process ends: a panic, `select {}` or a wait that never returns, or os.Exit. */
  datatype Finish = Panicked(value: Error) | BlockedForever | Exited(code: int)

  const NilDereference := Other("runtime error: invalid memory address or nil dereference")
  const IndexOutOfRange := Other("runtime error: index out of range")

  function ToolsDir(w: World): string { FlagValue(w.flags, "tools-dir", "/tools") }
  function CniConfigDir(w: World): string { FlagValue(w.flags, "cni-config-dir", "/etc/cni/net.d") }
  function CacheDir(w: World): string { FlagValue(w.flags, "cache-dir", "/var/lib/cni/networks") }
  function Backend(w: World): string { FlagValue(w.flags, "backend", "cni") }

  /** The node name used: the override flag when it was given, the host name otherwise. */
  function NodeName(w: World): string
    requires w.osHostname.Success?
  {
    FlagValue(w.flags, "hostname-override", w.osHostname.value)
  }

  function Introspect(w: World): Introspector { NewIntrospector(ToolsDir(w)) }

  /** The introspector's answer for the node network device. */
  function NodeNetworkLink(w: World): Result<Option<HelperLink>, Error>
  {
    Introspect(w).GetLinkByName(NodeNetworkDevice, 1, w.run, w.unmarshal)
  }

  /**
   * The first part of main, up to the lookup of kubevirt0: its actions, and
   * either what that lookup found or how the process ended before.
   */
  function Prologue(w: World): (seq<Action>, Result<Option<HelperLink>, Finish>)
  {
    var t := [QueryHostname];
    if w.osHostname.Failure? then (t, Failure(Panicked(w.osHostname.error)))
    else
      var t := t + [ConnectApi];
      if w.client.Some? then (t, Failure(Panicked(w.client.value)))
      else
      var name := NodeName(w);
      var t := t + [GetNode(name)];
      match w.nodes(name)
      case Failure(e) => (t, Failure(Panicked(e)))
      case Success(addresses) =>
        var ip := FirstInternalIP(addresses);
        var t := t + [LinkByIP(ip)];
        match Introspect(w).GetLinkByIP(ip, 1, w.run, w.unmarshal)
        case Failure(e) => (t, Failure(Panicked(e)))
        case Success(None) => (t, Failure(Panicked(NilDereference)))
        case Success(Some(link)) =>
          var t := t + [SetNetConfMaster(CniConfigDir(w), "kubevirt.json", link.name, "")];
          if w.netConfKubevirt.Some? then (t, Failure(Panicked(w.netConfKubevirt.value)))
          else
            var t := t + [SetNetConfMaster(CniConfigDir(w), "nodenetwork.json", NodeNetworkDevice, link.name)];
            if w.netConfNode.Some? then (t, Failure(Panicked(w.netConfNode.value)))
            else
              var t := t + [LinkByName(NodeNetworkDevice)];
              match NodeNetworkLink(w)
              case Failure(e) => (t, Failure(Panicked(e)))
              case Success(iface) => (t, Success(iface))
  }

  /**
   * The doAdd decision for what the lookup of kubevirt0 found: its actions,
   * and how the process ended if it did.
   */
  function NodeNetwork(w: World, iface: Option<HelperLink>): (seq<Action>, Option<Finish>)
  {
    if iface.None? then
      var t := [RemoveAll(CacheDir(w))];
      if w.removeCache.Some? then (t, Some(Panicked(w.removeCache.value)))
      else
        var t := t + [MkdirAll(CacheDir(w))];
        if w.makeCache.Some? then (t, Some(Panicked(w.makeCache.value)))
        else CniAddStage(w, t)
    else if iface.value.ip == "" then
      var t := [CniDel(NodeNetworkDevice)];
      if w.cniDel.Some? then (t, Some(Panicked(w.cniDel.value)))
      else CniAddStage(w, t)
    else ([], None)
  }

  /** The CNIAdd that follows the actions `t` when doAdd is set. */
  function CniAddStage(w: World, t: seq<Action>): (seq<Action>, Option<Finish>)
  {
    (t + [CniAdd(NodeNetworkDevice)], if w.cniAdd.Some? then Some(Panicked(w.cniAdd.value)) else None)
  }

  /** How the process ends once the relay goroutine is running. */
  function SnifferFinish(end: End): Finish
  {
    match end
    case Returned(_) => Exited(1)
    case Crashed(reason) => Panicked(Other(reason))
    case Waiting => BlockedForever
  }

  /** The end of main: block on the CNI backend, otherwise set up the bridge and the relay. */
  function BackendStage(w: World): (seq<Action>, seq<Output>, Finish)
  {
    if Backend(w) == "cni" then ([], [], BlockedForever)
    else
      var t := [AddBridge(BridgeDevice)];
      if w.linkAdd.Some? then (t, [], Panicked(w.linkAdd.value))
      else
      var t := t + [OpenTC(NodeNetworkDevice, BridgeDevice)];
      if w.parentLink.Failure? then (t, [], Panicked(w.parentLink.error))
      else if w.targetLink.Failure? then (t, [], Panicked(w.targetLink.error))
      else
        var t := t + [EnsureIngress];
        match EnsureIngressEffect(w.ingress, w.qdiscFault).1
        case Some(e) => (t, [], Panicked(e))
        case None =>
          var t := t + [AddMangledFilter];
          if |w.targetLink.value.hardwareAddr| < 6 then (t, [], Panicked(IndexOutOfRange))
          else if w.filterFault.Some? then (t, [], Panicked(w.filterFault.value))
          else
            var (relayed, end) := Sniff(BridgeDevice, NodeNetworkDevice, w.sniffer, w.events);
            (t + [StartSniffer(BridgeDevice, NodeNetworkDevice)], relayed, SnifferFinish(end))
  }

  /** The doAdd step when main gets to it. */
  function NodeStage(w: World, found: Result<Option<HelperLink>, Finish>): (seq<Action>, Option<Finish>)
  {
    if found.Success? then NodeNetwork(w, found.value) else ([], None)
  }

  /** How the three parts of main add up: each runs only when the one before it did not end the process. */
  function Assemble(prologue: (seq<Action>, Result<Option<HelperLink>, Finish>), node: (seq<Action>, Option<Finish>),
                    backend: (seq<Action>, seq<Output>, Finish)): (seq<Action>, seq<Output>, Finish)
  {
    if prologue.1.Failure? then (prologue.0, [], prologue.1.error)
    else if node.1.Some? then (prologue.0 + node.0, [], node.1.value)
    else (prologue.0 + node.0 + backend.0, backend.1, backend.2)
  }

  /** The whole of main: its actions, what the relay wrote and reported, and how the process ends. */
  function BootstrapRun(w: World): (seq<Action>, seq<Output>, Finish)
  {
    Assemble(Prologue(w), NodeStage(w, Prologue(w).1), BackendStage(w))
  }

  /** main of the node agent's network bootstrap. */
  method RunNodeBootstrap(w: World) returns (trace: seq<Action>, relayed: seq<Output>, fin: Finish)
    ensures (trace, relayed, fin) == BootstrapRun(w)
  {
    var found: Result<Option<HelperLink>, Finish>;
    trace, found := FindNodeNetwork(w);
    if found.Failure? {
      return trace, [], found.error;
    }
    var t2: seq<Action>;
    var stopped: Option<Finish>;
    t2, stopped := EnsureNodeNetwork(w, found.value);
    if stopped.Some? {
      return trace + t2, [], stopped.value;
    }
    var t3: seq<Action>;
    t3, relayed, fin := StartBackend(w);
    trace := trace + t2 + t3;
  }

  /** The lines up to the lookup of kubevirt0: what that lookup found, or how the process ended before. */
  method FindNodeNetwork(w: World) returns (trace: seq<Action>, found: Result<Option<HelperLink>, Finish>)
    ensures (trace, found) == Prologue(w)
  {
    // The backend check runs before pflag.Parse and so only ever sees the default.
    var backend := "cni";
    if backend != "cni" && backend != "dhcp" {
      assert false;
    }
    // So does the hostname check: the host name is always asked for.
    trace := [QueryHostname];
    if w.osHostname.Failure? {
      return trace, Failure(Panicked(w.osHostname.error));
    }
    var hostname := FlagValue(w.flags, "hostname-override", w.osHostname.value);
    trace := trace + [ConnectApi];
    if w.client.Some? {
      return trace, Failure(Panicked(w.client.value));
    }
    var introspector := NewIntrospector(FlagValue(w.flags, "tools-dir", "/tools"));
    trace := trace + [GetNode(hostname)];
    var node := w.nodes(hostname);
    if node.Failure? {
      return trace, Failure(Panicked(node.error));
    }
    var ip := GetNodeInternalIP(node.value);
    trace := trace + [LinkByIP(ip)];
    var link := introspector.GetLinkByIP(ip, 1, w.run, w.unmarshal);
    if link.Failure? {
      return trace, Failure(Panicked(link.error));
    }
    if link.value.None? {
      return trace, Failure(Panicked(NilDereference));
    }
    var confDir := FlagValue(w.flags, "cni-config-dir", "/etc/cni/net.d");
    trace := trace + [SetNetConfMaster(confDir, "kubevirt.json", link.value.value.name, "")];
    if w.netConfKubevirt.Some? {
      return trace, Failure(Panicked(w.netConfKubevirt.value));
    }
    trace := trace + [SetNetConfMaster(confDir, "nodenetwork.json", NodeNetworkDevice, link.value.value.name)];
    if w.netConfNode.Some? {
      return trace, Failure(Panicked(w.netConfNode.value));
    }
    trace := trace + [LinkByName(NodeNetworkDevice)];
    var iface := introspector.GetLinkByName(NodeNetworkDevice, 1, w.run, w.unmarshal);
    if iface.Failure? {
      return trace, Failure(Panicked(iface.error));
    }
    found := Success(iface.value);
  }

  /** The doAdd decision: wipe the cache for a missing device, delete one without an address, then add. */
  method EnsureNodeNetwork(w: World, iface: Option<HelperLink>) returns (trace: seq<Action>, stopped: Option<Finish>)
    ensures (trace, stopped) == NodeNetwork(w, iface)
  {
    trace := [];
    var doAdd := false;
    var cacheDir := FlagValue(w.flags, "cache-dir", "/var/lib/cni/networks");
    if iface.None? {
      trace := [RemoveAll(cacheDir)];
      if w.removeCache.Some? {
        return trace, Some(Panicked(w.removeCache.value));
      }
      trace := trace + [MkdirAll(cacheDir)];
      if w.makeCache.Some? {
        return trace, Some(Panicked(w.makeCache.value));
      }
      doAdd := true;
    }
    if iface.Some? && iface.value.ip == "" {
      trace := [CniDel(NodeNetworkDevice)];
      if w.cniDel.Some? {
        return trace, Some(Panicked(w.cniDel.value));
      }
      doAdd := true;
    }
    stopped := None;
    if doAdd {
      trace := trace + [CniAdd(NodeNetworkDevice)];
      if w.cniAdd.Some? {
        stopped := Some(Panicked(w.cniAdd.value));
      }
    }
  }

  /** The backend switch, and on the DHCP path the bridge, the TC set-up and the relay. */
  method StartBackend(w: World) returns (trace: seq<Action>, relayed: seq<Output>, fin: Finish)
    ensures (trace, relayed, fin) == BackendStage(w)
  {
    trace, relayed := [], [];
    if FlagValue(w.flags, "backend", "cni") == "cni" {
      return trace, relayed, BlockedForever;
    }
    trace := [AddBridge(BridgeDevice)];
    if w.linkAdd.Some? {
      return trace, relayed, Panicked(w.linkAdd.value);
    }
    trace := trace + [OpenTC(NodeNetworkDevice, BridgeDevice)];
    var made := NewTC(w.parentLink, w.targetLink, w.filters, w.ingress);
    if made.Failure? {
      return trace, relayed, Panicked(made.error);
    }
    var tc := made.value;
    trace := trace + [EnsureIngress];
    var err := tc.EnsureIngressQDisc(w.qdiscFault);
    if err.Some? {
      return trace, relayed, Panicked(err.value);
    }
    trace := trace + [AddMangledFilter];
    if |tc.ifTarget.hardwareAddr| < 6 {
      return trace, relayed, Panicked(IndexOutOfRange);
    }
    err := tc.AddMangledPacketsFilter(w.filterFault);
    if err.Some? {
      return trace, relayed, Panicked(err.value);
    }
    trace := trace + [StartSniffer(BridgeDevice, NodeNetworkDevice)];
    var end: End;
    relayed, end := RunDHCPSniffer(BridgeDevice, NodeNetworkDevice, w.sniffer, w.events);
    // The test after the receive is on the channel, which is never nil, not on the error received.
    fin := SnifferFinish(end);
  }

  // ---------------------------------------------------------------------
  // Properties of the bootstrap

  /** The actions of each part of main. */
  predicate PrologueAction(a: Action)
  {
    a.QueryHostname? || a.ConnectApi? || a.GetNode? || a.LinkByIP? || a.SetNetConfMaster? || a.LinkByName?
  }

  predicate NodeNetworkAction(a: Action)
  {
    a.RemoveAll? || a.MkdirAll? || a.CniDel? || a.CniAdd?
  }

  predicate BackendAction(a: Action)
  {
    a.AddBridge? || a.OpenTC? || a.EnsureIngress? || a.AddMangledFilter? || a.StartSniffer?
  }

  /** `a` happens, and later `b`. */
  predicate Before(t: seq<Action>, a: Action, b: Action)
  {
    exists i, j :: 0 <= i < j < |t| && t[i] == a && t[j] == b
  }

  /** No two CNIAdd actions. */
  predicate AtMostOneCniAdd(t: seq<Action>)
  {
    forall i, j :: 0 <= i < |t| && 0 <= j < |t| && t[i].CniAdd? && t[j].CniAdd? ==> i == j
  }

  lemma PrologueActions(w: World)
    ensures forall a :: a in Prologue(w).0 ==> PrologueAction(a)
  {
    var t := Prologue(w).0;
    forall i | 0 <= i < |t|
      ensures PrologueAction(t[i])
    {
    }
  }

  lemma NodeStageActions(w: World, found: Result<Option<HelperLink>, Finish>)
    ensures forall a :: a in NodeStage(w, found).0 ==> NodeNetworkAction(a)
  {
  }

  lemma BackendActions(w: World)
    ensures forall a :: a in BackendStage(w).0 ==> BackendAction(a)
  {
  }

  /**
   * Where each kind of action comes from in an assembled trace: only from
   * its own part, and only when main got to that part.
   */
  lemma AssembleActions(prologue: (seq<Action>, Result<Option<HelperLink>, Finish>), node: (seq<Action>, Option<Finish>),
                        backend: (seq<Action>, seq<Output>, Finish))
    requires forall a :: a in prologue.0 ==> PrologueAction(a)
    requires forall a :: a in node.0 ==> NodeNetworkAction(a)
    requires forall a :: a in backend.0 ==> BackendAction(a)
    ensures forall a :: NodeNetworkAction(a) ==>
              (a in Assemble(prologue, node, backend).0 <==> prologue.1.Success? && a in node.0)
    ensures forall a :: BackendAction(a) ==>
              (a in Assemble(prologue, node, backend).0 <==> prologue.1.Success? && node.1.None? && a in backend.0)
  {
  }

  /** The facts of AssembleActions for the run of `w`. */
  lemma StageTraces(w: World)
    ensures forall a :: NodeNetworkAction(a) ==>
              (a in BootstrapRun(w).0 <==> Prologue(w).1.Success? && a in NodeNetwork(w, Prologue(w).1.value).0)
    ensures forall a :: BackendAction(a) ==>
              (a in BootstrapRun(w).0 <==>
                 Prologue(w).1.Success? && NodeNetwork(w, Prologue(w).1.value).1.None? && a in BackendStage(w).0)
  {
    var p := Prologue(w);
    PrologueActions(w);
    NodeStageActions(w, p.1);
    BackendActions(w);
    AssembleActions(p, NodeStage(w, p.1), BackendStage(w));
  }

  /** An order of two actions inside one part is kept in the whole trace. */
  lemma BeforeInPart(t1: seq<Action>, t2: seq<Action>, t3: seq<Action>, a: Action, b: Action)
    requires Before(t2, a, b)
    ensures Before(t1 + t2 + t3, a, b)
  {
    var i, j :| 0 <= i < j < |t2| && t2[i] == a && t2[j] == b;
    var t := t1 + t2 + t3;
    assert t[|t1| + i] == a && t[|t1| + j] == b;
  }

  /** The doAdd trace of `w` in the whole trace, once main got there. */
  lemma NodeStageInRun(w: World)
    requires Prologue(w).1.Success?
    ensures exists t3 :: BootstrapRun(w).0 == Prologue(w).0 + NodeNetwork(w, Prologue(w).1.value).0 + t3
  {
    var p := Prologue(w);
    var n := NodeNetwork(w, p.1.value);
    if n.1.Some? {
      assert BootstrapRun(w).0 == p.0 + n.0 + [];
    } else {
      assert BootstrapRun(w).0 == p.0 + n.0 + BackendStage(w).0;
    }
  }

  /** The host name is always asked for, and its failure is a panic even when the override flag is given. */
  lemma HostnameAlwaysQueried(w: World)
    ensures var (t, _, _) := BootstrapRun(w); |t| >= 1 && t[0] == QueryHostname
    ensures w.osHostname.Failure? ==> BootstrapRun(w) == ([QueryHostname], [], Panicked(w.osHostname.error))
  {
    PrologueHead(w);
    AssemblePrefix(Prologue(w), NodeStage(w, Prologue(w).1), BackendStage(w));
  }

  lemma PrologueHead(w: World)
    ensures |Prologue(w).0| >= 1 && Prologue(w).0[0] == QueryHostname
  {
  }

  /** The actions of the prologue open every assembled trace. */
  lemma AssemblePrefix(prologue: (seq<Action>, Result<Option<HelperLink>, Finish>), node: (seq<Action>, Option<Finish>),
                       backend: (seq<Action>, seq<Output>, Finish))
    ensures |Assemble(prologue, node, backend).0| >= |prologue.0|
    ensures forall i :: 0 <= i < |prologue.0| ==> Assemble(prologue, node, backend).0[i] == prologue.0[i]
  {
  }

  lemma PrologueLookup(w: World)
    requires w.osHostname.Success? && w.client.None?
    ensures |Prologue(w).0| >= 3 && Prologue(w).0[2] == GetNode(NodeName(w))
  {
  }

  /** The node looked up is the override flag's value when one was given, and the host name otherwise. */
  lemma NodeLookedUp(w: World)
    requires w.osHostname.Success? && w.client.None?
    ensures var (t, _, _) := BootstrapRun(w);
            |t| >= 3 && t[2] == GetNode(if "hostname-override" in w.flags then w.flags["hostname-override"] else w.osHostname.value)
  {
    PrologueLookup(w);
    AssemblePrefix(Prologue(w), NodeStage(w, Prologue(w).1), BackendStage(w));
  }

  /** The doAdd trace for a missing kubevirt0: the cache removed, recreated, then CNIAdd, as far as each step succeeds. */
  lemma MissingDeviceSteps(w: World)
    ensures var t := NodeNetwork(w, None).0;
            RemoveAll(CacheDir(w)) in t && CniDel(NodeNetworkDevice) !in t &&
            (w.removeCache.None? ==> Before(t, RemoveAll(CacheDir(w)), MkdirAll(CacheDir(w)))) &&
            (w.removeCache.None? && w.makeCache.None? ==> Before(t, MkdirAll(CacheDir(w)), CniAdd(NodeNetworkDevice)))
  {
    var t := NodeNetwork(w, None).0;
    assert t[0] == RemoveAll(CacheDir(w));
    if w.removeCache.None? {
      assert t[1] == MkdirAll(CacheDir(w));
      if w.makeCache.None? {
        assert t[2] == CniAdd(NodeNetworkDevice);
      }
    }
  }

  /** No kubevirt0: the cache is removed, then recreated, then CNIAdd runs; no CNIDel. */
  lemma MissingDeviceWipesCache(w: World)
    requires Prologue(w).1 == Success(None)
    ensures var (t, _, _) := BootstrapRun(w);
            RemoveAll(CacheDir(w)) in t && CniDel(NodeNetworkDevice) !in t &&
            (w.removeCache.None? ==> Before(t, RemoveAll(CacheDir(w)), MkdirAll(CacheDir(w)))) &&
            (w.removeCache.None? && w.makeCache.None? ==> Before(t, MkdirAll(CacheDir(w)), CniAdd(NodeNetworkDevice)))
  {
    StageTraces(w);
    MissingDeviceSteps(w);
    NodeStageInRun(w);
    var t3 :| BootstrapRun(w).0 == Prologue(w).0 + NodeNetwork(w, None).0 + t3;
    assert NodeNetworkAction(RemoveAll(CacheDir(w))) && NodeNetworkAction(CniDel(NodeNetworkDevice));
    if w.removeCache.None? {
      BeforeInPart(Prologue(w).0, NodeNetwork(w, None).0, t3, RemoveAll(CacheDir(w)), MkdirAll(CacheDir(w)));
      if w.makeCache.None? {
        BeforeInPart(Prologue(w).0, NodeNetwork(w, None).0, t3, MkdirAll(CacheDir(w)), CniAdd(NodeNetworkDevice));
      }
    }
  }

  /** kubevirt0 without an address: CNIDel, then CNIAdd; the cache is left alone. */
  lemma AddresslessDeviceIsRecreated(w: World, link: HelperLink)
    requires Prologue(w).1 == Success(Some(link)) && link.ip == ""
    ensures var (t, _, _) := BootstrapRun(w);
            CniDel(NodeNetworkDevice) in t &&
            (forall a :: a in t ==> !a.RemoveAll? && !a.MkdirAll?) &&
            (w.cniDel.None? ==> Before(t, CniDel(NodeNetworkDevice), CniAdd(NodeNetworkDevice)))
  {
    StageTraces(w);
    var t2 := NodeNetwork(w, Some(link)).0;
    assert t2[0] == CniDel(NodeNetworkDevice);
    assert NodeNetworkAction(CniDel(NodeNetworkDevice));
    forall a | a in BootstrapRun(w).0
      ensures !a.RemoveAll? && !a.MkdirAll?
    {
      if a.RemoveAll? || a.MkdirAll? {
        assert NodeNetworkAction(a);
      }
    }
    if w.cniDel.None? {
      NodeStageInRun(w);
      var t3 :| BootstrapRun(w).0 == Prologue(w).0 + t2 + t3;
      assert t2[1] == CniAdd(NodeNetworkDevice);
      BeforeInPart(Prologue(w).0, t2, t3, CniDel(NodeNetworkDevice), CniAdd(NodeNetworkDevice));
    }
  }

  /** kubevirt0 with an address: neither the cache nor the device is touched. */
  lemma ConfiguredDeviceIsKept(w: World, link: HelperLink)
    requires Prologue(w).1 == Success(Some(link)) && link.ip != ""
    ensures forall a :: a in BootstrapRun(w).0 ==> !NodeNetworkAction(a)
  {
    StageTraces(w);
  }

  /** The cache directory is touched only when kubevirt0 was missing. */
  lemma CacheTouchedOnlyForMissingDevice(w: World)
    ensures (exists a :: a in BootstrapRun(w).0 && (a.RemoveAll? || a.MkdirAll?)) ==> Prologue(w).1 == Success(None)
  {
    StageTraces(w);
  }

  /** CNIAdd runs exactly when doAdd is set and its preceding steps succeeded. */
  lemma CniAddDecision(w: World)
    ensures CniAdd(NodeNetworkDevice) in BootstrapRun(w).0 <==>
              Prologue(w).1.Success? &&
              ((Prologue(w).1.value.None? && w.removeCache.None? && w.makeCache.None?) ||
               (Prologue(w).1.value.Some? && Prologue(w).1.value.value.ip == "" && w.cniDel.None?))
  {
    StageTraces(w);
    assert NodeNetworkAction(CniAdd(NodeNetworkDevice));
  }

  /** The doAdd trace holds at most one CNIAdd, as its last action. */
  lemma NodeNetworkAtMostOnce(w: World, iface: Option<HelperLink>)
    ensures AtMostOneCniAdd(NodeNetwork(w, iface).0)
    ensures forall a :: a in NodeNetwork(w, iface).0 ==> NodeNetworkAction(a)
  {
  }

  /** Parts without CNIAdd around a part with at most one keep it at most one. */
  lemma AtMostOneInParts(t1: seq<Action>, t2: seq<Action>, t3: seq<Action>)
    requires forall a :: a in t1 ==> !a.CniAdd?
    requires forall a :: a in t3 ==> !a.CniAdd?
    requires AtMostOneCniAdd(t2)
    ensures AtMostOneCniAdd(t1 + t2 + t3)
  {
    var t := t1 + t2 + t3;
    forall i, j | 0 <= i < |t| && 0 <= j < |t| && t[i].CniAdd? && t[j].CniAdd?
      ensures i == j
    {
      PartOfCniAdd(t1, t2, t3, i);
      PartOfCniAdd(t1, t2, t3, j);
    }
  }

  /** A CNIAdd in the whole trace is one of the middle part's. */
  lemma PartOfCniAdd(t1: seq<Action>, t2: seq<Action>, t3: seq<Action>, i: int)
    requires forall a :: a in t1 ==> !a.CniAdd?
    requires forall a :: a in t3 ==> !a.CniAdd?
    requires 0 <= i < |t1 + t2 + t3| && (t1 + t2 + t3)[i].CniAdd?
    ensures |t1| <= i < |t1| + |t2| && t2[i - |t1|] == (t1 + t2 + t3)[i]
  {
  }

  /** CNIAdd runs at most once. */
  lemma CniAddAtMostOnce(w: World)
    ensures AtMostOneCniAdd(BootstrapRun(w).0)
  {
    var p := Prologue(w);
    PrologueActions(w);
    BackendActions(w);
    if p.1.Success? {
      var n := NodeNetwork(w, p.1.value);
      NodeNetworkAtMostOnce(w, p.1.value);
      if n.1.Some? {
        AtMostOneInParts(p.0, n.0, []);
        assert BootstrapRun(w).0 == p.0 + n.0 + [];
      } else {
        AtMostOneInParts(p.0, n.0, BackendStage(w).0);
      }
    } else {
      assert forall a :: a in p.0 ==> !a.CniAdd?;
    }
  }

  /**
   * On the "cni" backend the process never exits and never starts the
   * bridge or the relay: it blocks for good when the earlier steps worked.
   */
  lemma CniBackendBlocks(w: World)
    requires Backend(w) == "cni"
    ensures var (t, relayed, fin) := BootstrapRun(w);
            !fin.Exited? && relayed == [] && (forall a :: a in t ==> !BackendAction(a)) &&
            (Prologue(w).1.Success? && NodeNetwork(w, Prologue(w).1.value).1.None? ==> fin == BlockedForever)
  {
    StageTraces(w);
  }

  /**
   * Any backend but "cni" takes the DHCP path, including values no check
   * accepts: the bridge is created whenever main gets past the doAdd step.
   */
  lemma OtherBackendsTakeDhcpPath(w: World)
    requires Prologue(w).1.Success? && NodeNetwork(w, Prologue(w).1.value).1.None?
    ensures AddBridge(BridgeDevice) in BootstrapRun(w).0 <==> Backend(w) != "cni"
  {
    StageTraces(w);
    assert BackendAction(AddBridge(BridgeDevice));
  }

  /** The relay is started only at the end of the full DHCP set-up, each step of which succeeded. */
  lemma BackendStageOrder(w: World)
    requires StartSniffer(BridgeDevice, NodeNetworkDevice) in BackendStage(w).0
    ensures BackendStage(w).0 == [AddBridge(BridgeDevice), OpenTC(NodeNetworkDevice, BridgeDevice),
                                  EnsureIngress, AddMangledFilter, StartSniffer(BridgeDevice, NodeNetworkDevice)]
    ensures Backend(w) != "cni" && w.linkAdd.None? && w.parentLink.Success? && w.targetLink.Success?
    ensures EnsureIngressEffect(w.ingress, w.qdiscFault).1.None? && w.filterFault.None?
    ensures |w.targetLink.value.hardwareAddr| >= 6
    ensures BackendStage(w).2 == SnifferFinish(Sniff(BridgeDevice, NodeNetworkDevice, w.sniffer, w.events).1)
    ensures BackendStage(w).1 == Sniff(BridgeDevice, NodeNetworkDevice, w.sniffer, w.events).0
  {
  }

  /**
   * The relay starts only as the last action, right after the bridge, the
   * TC engine, the ingress qdisc and the loop-guard filter, each of which
   * succeeded; once it returns, the process exits with status 1, even when
   * it returned nil.
   */
  lemma DhcpSetUpOrder(w: World)
    requires StartSniffer(BridgeDevice, NodeNetworkDevice) in BootstrapRun(w).0
    ensures var (t, _, _) := BootstrapRun(w);
            |t| >= 5 &&
            t[|t| - 5..] == [AddBridge(BridgeDevice), OpenTC(NodeNetworkDevice, BridgeDevice),
                             EnsureIngress, AddMangledFilter, StartSniffer(BridgeDevice, NodeNetworkDevice)]
    ensures Backend(w) != "cni" && w.linkAdd.None? && w.parentLink.Success? && w.targetLink.Success?
    ensures EnsureIngressEffect(w.ingress, w.qdiscFault).1.None? && w.filterFault.None?
    ensures BootstrapRun(w).1 == Sniff(BridgeDevice, NodeNetworkDevice, w.sniffer, w.events).0
    ensures Sniff(BridgeDevice, NodeNetworkDevice, w.sniffer, w.events).1.Returned? ==> BootstrapRun(w).2 == Exited(1)
  {
    StageTraces(w);
    assert BackendAction(StartSniffer(BridgeDevice, NodeNetworkDevice));
    BackendStageOrder(w);
    var p := Prologue(w);
    var n := NodeNetwork(w, p.1.value);
    var b := BackendStage(w).0;
    assert BootstrapRun(w).0 == (p.0 + n.0) + b;
  }
}
