/**
 * The small helpers of the networking package: the random MAC generator,
 * the searches over node addresses and interfaces, the network-helper
 * introspector's reading of its command's outcome, and the namespace path
 * of a process.
 */
module NetUtil {
  import opened Wrappers
  import opened Strings
  import opened Errors
  import opened Netlink

  // ---------------------------------------------------------------------
  // RandomMac

  /** The locally-administered bit of the first octet (section 2.1 of RFC 7042). */
  predicate LocallyAdministered(b0: bv8)
  {
    b0 & 2 == 2
  }

  /** The group bit of the first octet is clear: the address is unicast. */
  predicate Unicast(b0: bv8)
  {
    b0 & 1 == 0
  }

  /** The fix-up of the first octet: set the local bit, clear the group bit. */
  function FixFirstOctet(b: bv8): (r: bv8)
    ensures LocallyAdministered(r) && Unicast(r)
  {
    (b | 2) & 0xfe
  }

  /** The fix-up changes no bit but the two lowest ones. */
  lemma FixKeepsHighBits(b: bv8)
    ensures FixFirstOctet(b) & 0xfc == b & 0xfc
  {
  }

  /** An octet that is already locally administered and unicast is left as it is. */
  lemma FixIdle(b: bv8)
    requires LocallyAdministered(b) && Unicast(b)
    ensures FixFirstOctet(b) == b
  {
  }

  /**
   * RandomMac: six bytes read from the random source, with the first octet
   * made locally administered and unicast. `random` is what crypto/rand's
   * Read put into the six-byte buffer, or its error.
   */
  method RandomMac(random: Result<seq<bv8>, Error>) returns (r: Result<seq<bv8>, Error>)
    requires random.Success? ==> |random.value| == 6
    ensures r.Failure? <==> random.Failure?
    ensures random.Failure? ==> r.error == random.error
    ensures random.Success? ==> |r.value| == 6 && r.value[0] == FixFirstOctet(random.value[0]) && r.value[1..] == random.value[1..]
  {
    if random.Failure? {
      return Failure(random.error);
    }
    var buf := new bv8[6];
    var i := 0;
    while i < 6
      invariant 0 <= i <= 6
      invariant buf[..i] == random.value[..i]
    {
      buf[i] := random.value[i];
      i := i + 1;
    }
    assert buf[..] == random.value by {
      assert buf[..] == buf[..6];
    }
    buf[0] := (buf[0] | 2) & 0xfe;
    assert buf[..][1..] == random.value[1..];
    return Success(buf[..]);
  }

  // ---------------------------------------------------------------------
  // GetNodeInternalIP

  /** The kinds of v1.NodeAddress. */
  datatype NodeAddressType = Hostname | ExternalIP | InternalIP | ExternalDNS | InternalDNS
  datatype NodeAddress = NodeAddress(addrType: NodeAddressType, address: string)

  /** The address of the first InternalIP entry, or "" without one. */
  function FirstInternalIP(addresses: seq<NodeAddress>): string
  {
    if |addresses| == 0 then ""
    else if addresses[0].addrType == InternalIP then addresses[0].address
    else FirstInternalIP(addresses[1..])
  }

  /** GetNodeInternalIP: the address of the first InternalIP entry of the node's status, or "" without one. */
  method GetNodeInternalIP(addresses: seq<NodeAddress>) returns (ip: string)
    ensures ip == FirstInternalIP(addresses)
    ensures (forall j :: 0 <= j < |addresses| ==> addresses[j].addrType != InternalIP) ==> ip == ""
    ensures forall k :: 0 <= k < |addresses| && addresses[k].addrType == InternalIP ==>
              (forall j :: 0 <= j < k ==> addresses[j].addrType != InternalIP) ==>
              ip == addresses[k].address
  {
    var i := 0;
    while i < |addresses|
      invariant 0 <= i <= |addresses|
      invariant forall j :: 0 <= j < i ==> addresses[j].addrType != InternalIP
      invariant FirstInternalIP(addresses) == FirstInternalIP(addresses[i..])
    {
      assert addresses[i..][1..] == addresses[i + 1..];
      if addresses[i].addrType == InternalIP {
        return addresses[i].address;
      }
      i := i + 1;
    }
    return "";
  }

  // ---------------------------------------------------------------------
  // IsNotFound and the introspector

  /** IsNotFound: the network helper exited with status 2, its way of saying "no such link". */
  function IsNotFound(err: Option<Error>): (b: bool)
    ensures b <==> err == Some(ExitError(2))
  {
    match err
    case Some(ExitError(status)) => status == 2
    case _ => false
  }

  /** networking.Link, the network helper's answer. */
  datatype HelperLink = HelperLink(linkType: string, ip: string, name: string, mac: seq<bv8>)

  /** What running a command gives: its error (nil when it exited 0) and its standard output. */
  datatype CommandOutcome = CommandOutcome(err: Option<Error>, stdout: string)

  /** The argument vector of one network-helper call: `<dir>/network-helper <flag> <value> --target <pid>`. */
  function HelperArgs(toolDir: string, flag: string, value: string, pid: int): (argv: seq<string>)
    ensures |argv| == 5
    ensures HasSuffix(argv[0], "/network-helper") && TrimSuffix(argv[0], "/network-helper") == toolDir
    ensures argv[1] == flag && argv[2] == value && argv[3] == "--target" && argv[4] == IntToString(pid)
  {
    [toolDir + "/network-helper", flag, value, "--target", IntToString(pid)]
  }

  /**
   * How GetLinkByIP and GetLinkByName read the command's outcome: "not
   * found" is no link and no error, any other failure is reported with the
   * output, and the output of a success is unmarshalled by `unmarshal`.
   */
  function HelperResult(out: CommandOutcome, unmarshal: string -> Result<HelperLink, Error>): (r: Result<Option<HelperLink>, Error>)
    ensures IsNotFound(out.err) ==> r == Success(None)
    ensures out.err.Some? && !IsNotFound(out.err) ==>
              r == Failure(Other("Failed with " + Text(out.err.value) + ", output: " + out.stdout))
    ensures out.err.None? && unmarshal(out.stdout).Success? ==> r == Success(Some(unmarshal(out.stdout).value))
    ensures out.err.None? && unmarshal(out.stdout).Failure? ==>
              r == Failure(Wrapped("Could not unmarshal response from network-helper", unmarshal(out.stdout).error))
  {
    if IsNotFound(out.err) then Success(None)
    else if out.err.Some? then Failure(Other("Failed with " + Text(out.err.value) + ", output: " + out.stdout))
    else match unmarshal(out.stdout)
      case Success(link) => Success(Some(link))
      case Failure(e) => Failure(Wrapped("Could not unmarshal response from network-helper", e))
  }

  /** The introspector of a tool directory; `run` stands for executing a command. */
  datatype Introspector = Introspector(toolDir: string)
  {
    /** GetLinkByIP: asks the network helper for the link holding `ip` in the namespace of `pid`. */
    function GetLinkByIP(ip: string, pid: int, run: seq<string> -> CommandOutcome,
                         unmarshal: string -> Result<HelperLink, Error>): (r: Result<Option<HelperLink>, Error>)
      ensures var out := run(HelperArgs(toolDir, "--ip", ip, pid));
              (IsNotFound(out.err) ==> r == Success(None)) &&
              (out.err.Some? && !IsNotFound(out.err) ==>
                 r == Failure(Other("Failed with " + Text(out.err.value) + ", output: " + out.stdout))) &&
              (out.err.None? && unmarshal(out.stdout).Success? ==> r == Success(Some(unmarshal(out.stdout).value))) &&
              (out.err.None? && unmarshal(out.stdout).Failure? ==>
                 r == Failure(Wrapped("Could not unmarshal response from network-helper", unmarshal(out.stdout).error)))
    {
      HelperResult(run(HelperArgs(toolDir, "--ip", ip, pid)), unmarshal)
    }

    /** GetLinkByName: asks the network helper for the link called `name` in the namespace of `pid`. */
    function GetLinkByName(name: string, pid: int, run: seq<string> -> CommandOutcome,
                           unmarshal: string -> Result<HelperLink, Error>): (r: Result<Option<HelperLink>, Error>)
      ensures var out := run(HelperArgs(toolDir, "--name", name, pid));
              (IsNotFound(out.err) ==> r == Success(None)) &&
              (out.err.Some? && !IsNotFound(out.err) ==>
                 r == Failure(Other("Failed with " + Text(out.err.value) + ", output: " + out.stdout))) &&
              (out.err.None? && unmarshal(out.stdout).Success? ==> r == Success(Some(unmarshal(out.stdout).value))) &&
              (out.err.None? && unmarshal(out.stdout).Failure? ==>
                 r == Failure(Wrapped("Could not unmarshal response from network-helper", unmarshal(out.stdout).error)))
    {
      HelperResult(run(HelperArgs(toolDir, "--name", name, pid)), unmarshal)
    }
  }

  /** NewIntrospector: the tool directory with one trailing "/" removed, if it has one. */
  function NewIntrospector(toolDir: string): (i: Introspector)
    ensures HasSuffix(toolDir, "/") ==> i.toolDir + "/" == toolDir
    ensures !HasSuffix(toolDir, "/") ==> i.toolDir == toolDir
  {
    Introspector(TrimSuffix(toolDir, "/"))
  }

  /** Only one slash is removed: a directory ending in "//" keeps one. */
  lemma NewIntrospectorTrimsOnce(dir: string)
    ensures NewIntrospector(dir + "//").toolDir == dir + "/"
  {
    var s := dir + "//";
    assert s[|s| - 1..] == "/";
    assert s[..|s| - 1] == dir + "/";
  }

  /** A directory given with or without its trailing slash runs the same helper binary. */
  lemma NewIntrospectorSameHelper(dir: string, flag: string, value: string, pid: int)
    requires !HasSuffix(dir, "/")
    ensures NewIntrospector(dir + "/").toolDir == NewIntrospector(dir).toolDir == dir
    ensures HelperArgs(NewIntrospector(dir + "/").toolDir, flag, value, pid) == HelperArgs(dir, flag, value, pid)
  {
    var s := dir + "/";
    assert s[|s| - 1..] == "/";
    assert s[..|s| - 1] == dir;
  }

  // ---------------------------------------------------------------------
  // GetNSFromPID

  /** GetNSFromPID: the path of the network namespace of a process. */
  function GetNSFromPID(pid: nat): string
  {
    "/proc/" + NatToString(pid) + "/ns/net"
  }

  /** The path is "/proc/", the decimal number of the process, then "/ns/net"; so the process can be read back. */
  lemma GetNSFromPIDParts(pid: nat)
    ensures var p := GetNSFromPID(pid);
            |p| > 13 && p[..6] == "/proc/" && p[|p| - 7..] == "/ns/net" &&
            (forall i :: 6 <= i < |p| - 7 ==> IsDigit(p[i])) &&
            DecimalValue(p[6..|p| - 7]) == pid
  {
    var p := GetNSFromPID(pid);
    assert p[6..|p| - 7] == NatToString(pid);
    NatToStringRoundTrip(pid);
  }

  /** Different processes have different namespace paths. */
  lemma GetNSFromPIDInjective(a: nat, b: nat)
    requires GetNSFromPID(a) == GetNSFromPID(b)
    ensures a == b
  {
    GetNSFromPIDParts(a);
    GetNSFromPIDParts(b);
  }

  // ---------------------------------------------------------------------
  // GetInterfaceFromIP

  /** A host interface, with its address texts ("10.0.0.1/24") or the error listing them. */
  datatype Interface = Interface(name: string, addrs: Result<seq<string>, Error>)

  /** Some address of the list has `ip` as its text before the first "/". */
  predicate Holds(addrs: seq<string>, ip: string)
  {
    exists a :: 0 <= a < |addrs| && Split(addrs[a], '/')[0] == ip
  }

  /** The interface's addresses were listed and none of them is `ip`. */
  predicate Passed(iface: Interface, ip: string)
  {
    iface.addrs.Success? && !Holds(iface.addrs.value, ip)
  }

  /** Every interface before position `k` was passed over. */
  predicate PassedBefore(ifaces: seq<Interface>, k: nat, ip: string)
    requires k <= |ifaces|
  {
    forall j :: 0 <= j < k ==> Passed(ifaces[j], ip)
  }

  /**
   * The first interface holding `ip`, by position, or the first listing
   * error met before one is found.
   */
  function FindInterface(ifaces: seq<Interface>, ip: string): (r: Result<Option<nat>, Error>)
    ensures r.Success? && r.value.Some? ==>
              r.value.value < |ifaces| &&
              ifaces[r.value.value].addrs.Success? && Holds(ifaces[r.value.value].addrs.value, ip) &&
              forall j :: 0 <= j < r.value.value ==> Passed(ifaces[j], ip)
    ensures r == Success(None) <==> forall j :: 0 <= j < |ifaces| ==> Passed(ifaces[j], ip)
    ensures r.Failure? ==>
              exists k :: 0 <= k < |ifaces| && ifaces[k].addrs == Failure(r.error) && PassedBefore(ifaces, k, ip)
  {
    if |ifaces| == 0 then Success(None)
    else match ifaces[0].addrs
      case Failure(e) => Failure(e)
      case Success(addrs) =>
        if Holds(addrs, ip) then Success(Some(0))
        else
          var rest := FindInterface(ifaces[1..], ip);
          assert forall j :: 1 <= j < |ifaces| ==> ifaces[j] == ifaces[1..][j - 1];
          match rest
          case Success(Some(k)) => Success(Some(k + 1))
          case Success(None) => Success(None)
          case Failure(e) =>
            var k :| 0 <= k < |ifaces[1..]| && ifaces[1..][k].addrs == Failure(e) && PassedBefore(ifaces[1..], k, ip);
            assert ifaces[k + 1].addrs == Failure(e) && PassedBefore(ifaces, k + 1, ip);
            Failure(e)
  }

  /** What GetInterfaceFromIP returns, given the interface list and the answers of netlink.LinkByName. */
  function InterfaceFromIP(interfaces: Result<seq<Interface>, Error>, ip: string,
                           linkByName: string -> Result<Link, Error>): Result<Option<Link>, Error>
  {
    match interfaces
    case Failure(e) => Failure(e)
    case Success(ifaces) =>
      match FindInterface(ifaces, ip)
      case Failure(e) => Failure(e)
      case Success(None) => Success(None)
      case Success(Some(k)) =>
        match linkByName(ifaces[k].name)
        case Success(link) => Success(Some(link))
        case Failure(e) => Failure(e)
  }

  /**
   * GetInterfaceFromIP: walks the interfaces in order and their addresses in
   * order, and looks up by name the first interface holding `ip`.
   */
  method GetInterfaceFromIP(interfaces: Result<seq<Interface>, Error>, ip: string,
                            linkByName: string -> Result<Link, Error>) returns (r: Result<Option<Link>, Error>)
    ensures r == InterfaceFromIP(interfaces, ip, linkByName)
  {
    if interfaces.Failure? {
      return Failure(interfaces.error);
    }
    var ifaces := interfaces.value;
    var i := 0;
    while i < |ifaces|
      invariant 0 <= i <= |ifaces|
      invariant forall j :: 0 <= j < i ==> Passed(ifaces[j], ip)
    {
      var addrs := ifaces[i].addrs;
      if addrs.Failure? {
        return Failure(addrs.error);
      }
      var a := 0;
      while a < |addrs.value|
        invariant 0 <= a <= |addrs.value|
        invariant forall b :: 0 <= b < a ==> Split(addrs.value[b], '/')[0] != ip
      {
        if ip == Split(addrs.value[a], '/')[0] {
          assert Holds(addrs.value, ip);
          var link := linkByName(ifaces[i].name);
          if link.Failure? {
            return Failure(link.error);
          }
          return Success(Some(link.value));
        }
        a := a + 1;
      }
      i := i + 1;
    }
    return Success(None);
  }
}
