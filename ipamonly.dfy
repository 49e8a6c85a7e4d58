/**
 * The IPAM-only CNI plugin: it reads its CNI_ARGS, makes sure the pod has a
 * MAC address (the supplied one, or a fresh one that it adds to CNI_ARGS),
 * runs the configured IPAM plugin, and for a macvlan master installs a /32
 * route to the assigned address. Delete runs IPAM's delete and removes that
 * route again.
 */
module IpamOnly {
  import opened Wrappers
  import opened Strings
  import opened Errors
  import opened Netlink
  import opened Routes
  import opened NetUtil
  import opened HardwareAddr

  // ---------------------------------------------------------------------
  // parseArgs

  /** The error of a malformed pair ("%q" of the pair, without Go's escaping). */
  function InvalidPair(pair: string): Error
  {
    Other("invalid CNI_ARGS pair \"" + pair + "\"")
  }

  /** One `key=value` pair: exactly one "=", both sides non-empty; the key is lower-cased. */
  function ParsePair(pair: string): (r: Result<(string, string), Error>)
    ensures r.Failure? ==> r.error == InvalidPair(pair)
    ensures r.Success? ==> ToLower(r.value.0) == r.value.0 && r.value.1 != ""
  {
    var kv := Split(pair, '=');
    if |kv| != 2 || kv[0] == "" || kv[1] == "" then Failure(InvalidPair(pair))
    else
      ToLowerIdempotent(kv[0]);
      Success((ToLower(kv[0]), kv[1]))
  }

  /** The pairs read one after another into a map, a later key overwriting an earlier one; the first bad pair fails. */
  function FoldPairs(pairs: seq<string>): (r: Result<map<string, string>, Error>)
    ensures r.Success? <==> forall i :: 0 <= i < |pairs| ==> ParsePair(pairs[i]).Success?
    ensures r.Success? ==> forall k :: k in r.value ==> ToLower(k) == k
    ensures r.Failure? ==> exists i :: 0 <= i < |pairs| && r.error == InvalidPair(pairs[i]) && PairsParse(pairs, i)
    decreases |pairs|
  {
    if |pairs| == 0 then Success(map[])
    else
      var init := pairs[..|pairs| - 1];
      assert forall i :: 0 <= i < |init| ==> init[i] == pairs[i];
      match FoldPairs(init)
      case Failure(e) => Failure(e)
      case Success(m) =>
        match ParsePair(pairs[|pairs| - 1])
        case Failure(e) => Failure(e)
        case Success(kv) => Success(m[kv.0 := kv.1])
  }

  /** All pairs before position `k` are well formed. */
  predicate PairsParse(pairs: seq<string>, k: nat)
    requires k <= |pairs|
  {
    forall j :: 0 <= j < k ==> ParsePair(pairs[j]).Success?
  }

  /** parseArgs: "" is a nil map (Success(None)); otherwise the ";"-separated pairs, or the first bad pair's error. */
  function ArgsOf(args: string): (r: Result<Option<map<string, string>>, Error>)
    ensures args == "" ==> r == Success(None)
    ensures args != "" && r.Success? ==> r.value.Some?
  {
    if args == "" then Success(None)
    else match FoldPairs(Split(args, ';'))
      case Failure(e) => Failure(e)
      case Success(m) => Success(Some(m))
  }

  /** The map parseArgs hands back, as its caller indexes it: a nil map, also on error, has no entries. */
  function ArgsMap(r: Result<Option<map<string, string>>, Error>): map<string, string>
  {
    if r.Success? && r.value.Some? then r.value.value else map[]
  }

  /** parseArgs, with its loop over the pairs. */
  method ParseArgs(args: string) returns (r: Result<Option<map<string, string>>, Error>)
    ensures r == ArgsOf(args)
  {
    if args == "" {
      return Success(None);
    }
    var pairs := Split(args, ';');
    var result: map<string, string> := map[];
    var i := 0;
    while i < |pairs|
      invariant 0 <= i <= |pairs|
      invariant FoldPairs(pairs[..i]) == Success(result)
    {
      assert pairs[..i + 1][..i] == pairs[..i];
      var kv := Split(pairs[i], '=');
      if |kv| != 2 || kv[0] == "" || kv[1] == "" {
        FoldPairsPrefixFailure(pairs, i + 1);
        return Failure(InvalidPair(pairs[i]));
      }
      result := result[ToLower(kv[0]) := kv[1]];
      i := i + 1;
    }
    assert pairs[..i] == pairs;
    assert FoldPairs(pairs) == Success(result);
    return Success(Some(result));
  }

  /** The text of one pair. */
  function PairText(key: string, value: string): string
  {
    key + "=" + value
  }

  /** Once a prefix of the pairs fails, the whole list fails with the same error. */
  lemma {:induction false} FoldPairsPrefixFailure(pairs: seq<string>, k: nat)
    requires k <= |pairs| && FoldPairs(pairs[..k]).Failure?
    ensures FoldPairs(pairs) == FoldPairs(pairs[..k])
    decreases |pairs| - k
  {
    if k < |pairs| {
      assert pairs[..k + 1][..k] == pairs[..k];
      FoldPairsPrefixFailure(pairs, k + 1);
    } else {
      assert pairs[..k] == pairs;
    }
  }

  /** A key and a value, both non-empty and free of "=", make a pair that reads as the lower-cased key and the value. */
  lemma PairAccepted(key: string, value: string)
    requires key != "" && value != "" && '=' !in key && '=' !in value
    ensures ParsePair(PairText(key, value)) == Success((ToLower(key), value))
  {
    assert PairText(key, value) == key + ['='] + value;
    SplitConcat(key, value, '=');
    SplitWithoutSep(key, '=');
    SplitWithoutSep(value, '=');
    var kv := Split(PairText(key, value), '=');
    assert kv == [key, value];
  }

  /** Every accepted pair is its raw key, "=" and its value, neither side holding "=". */
  lemma PairShape(pair: string)
    requires ParsePair(pair).Success?
    ensures var kv := Split(pair, '=');
            |kv| == 2 && pair == kv[0] + "=" + kv[1] && ParsePair(pair).value == (ToLower(kv[0]), kv[1])
  {
    SplitJoin(pair, '=');
  }

  /** A pair with two "=" is rejected. */
  lemma TwoEqualsRejected(a: string, b: string, c: string)
    ensures ParsePair(a + "=" + b + "=" + c).Failure?
  {
    assert a + "=" + b + "=" + c == a + ['='] + (b + ['='] + c);
    SplitConcat(a, b + ['='] + c, '=');
    SplitConcat(b, c, '=');
  }

  /** A pair with an empty value is rejected. */
  lemma EmptyValueRejected(a: string)
    ensures ParsePair(a + "=").Failure?
  {
    assert a + "=" == a + ['='] + "";
    SplitConcat(a, "", '=');
  }

  /** A pair with an empty key is rejected. */
  lemma EmptyKeyRejected(b: string)
    ensures ParsePair("=" + b).Failure?
  {
    assert "=" + b == "" + ['='] + b;
    SplitConcat("", b, '=');
  }

  /** An empty pair is rejected. */
  lemma EmptyPairRejected()
    ensures ParsePair("").Failure?
  {
    assert Split("", '=') == [""];
  }

  /** A trailing ";" leaves an empty last pair, so such arguments are always rejected. */
  lemma TrailingSemicolonRejected(args: string)
    ensures ArgsOf(args + ";").Failure?
  {
    assert args + ";" == args + [';'] + "";
    SplitConcat(args, "", ';');
    var pairs := Split(args + ";", ';');
    EmptyPairRejected();
    assert pairs[|pairs| - 1] == "";
  }

  /** The value for a key after one more pair: that pair's value if it names the key, else the earlier value. */
  lemma FoldPairsSnoc(pairs: seq<string>, pair: string)
    ensures FoldPairs(pairs + [pair]) ==
      match (FoldPairs(pairs), ParsePair(pair))
      case (Success(m), Success(kv)) => Success(m[kv.0 := kv.1])
      case (Failure(e), _) => Failure(e)
      case (_, Failure(e)) => Failure(e)
  {
    assert (pairs + [pair])[..|pairs|] == pairs;
  }

  /**
   * A later duplicate overwrites an earlier one: appending `key=value` to
   * well-formed arguments maps the lower-cased key to `value` and keeps every
   * other entry.
   */
  lemma LaterPairWins(args: string, key: string, value: string)
    requires args != "" && ArgsOf(args).Success?
    requires key != "" && value != "" && '=' !in key && '=' !in value && ';' !in key && ';' !in value
    ensures ArgsOf(args + ";" + PairText(key, value)) == Success(Some(ArgsMap(ArgsOf(args))[ToLower(key) := value]))
  {
    var pair := PairText(key, value);
    assert ';' !in pair by {
      assert ';' !in key + "=";
    }
    assert args + ";" + pair == args + [';'] + pair;
    SplitConcat(args, pair, ';');
    SplitWithoutSep(pair, ';');
    PairAccepted(key, value);
    FoldPairsSnoc(Split(args, ';'), pair);
  }

  // ---------------------------------------------------------------------
  // CNI_ARGS mac injection

  /** The CNI_ARGS value cmdAdd sets: the old value, a ";" if it needs one, and `mac=<mac>`. */
  function InjectMac(cniArgs: string, mac: string): (r: string)
    ensures HasSuffix(r, PairText("mac", mac))
  {
    var prefix := if cniArgs != "" && !HasSuffix(cniArgs, ";") then cniArgs + ";" else cniArgs;
    var r := prefix + PairText("mac", mac);
    assert r[|r| - |PairText("mac", mac)|..] == PairText("mac", mac);
    r
  }

  /** Well-formed arguments never end in ";". */
  lemma ParsedArgsHaveNoTrailingSemicolon(args: string)
    requires ArgsOf(args).Success?
    ensures !HasSuffix(args, ";")
  {
    if HasSuffix(args, ";") {
      var init := args[..|args| - 1];
      assert args == init + ";";
      TrailingSemicolonRejected(init);
      assert false;
    }
  }

  /** Into empty arguments the injection writes just the one pair. */
  lemma InjectIntoEmpty(mac: string)
    requires mac != "" && ';' !in mac && '=' !in mac
    ensures ArgsOf(InjectMac("", mac)) == Success(Some(map["mac" := mac]))
  {
    var pair := PairText("mac", mac);
    assert InjectMac("", mac) == pair;
    assert ';' !in pair by {
      assert ';' !in "mac=";
    }
    SplitWithoutSep(pair, ';');
    PairAccepted("mac", mac);
    assert ToLower("mac") == "mac";
    assert [pair][..0] == [];
    assert FoldPairs([pair]) == Success(map[]["mac" := mac]);
  }

  /** Into non-empty well-formed arguments the injection appends one pair after a ";". */
  lemma InjectIntoParsed(cniArgs: string, mac: string)
    requires cniArgs != "" && ArgsOf(cniArgs).Success?
    requires mac != "" && ';' !in mac && '=' !in mac
    ensures ArgsOf(InjectMac(cniArgs, mac)) == Success(Some(ArgsMap(ArgsOf(cniArgs))["mac" := mac]))
  {
    ParsedArgsHaveNoTrailingSemicolon(cniArgs);
    assert InjectMac(cniArgs, mac) == cniArgs + ";" + PairText("mac", mac);
    LaterPairWins(cniArgs, "mac", mac);
    assert ToLower("mac") == "mac";
  }

  /**
   * After the injection, parsing CNI_ARGS maps "mac" to the written MAC and
   * agrees with the old arguments on every other key, whenever those parsed.
   */
  lemma InjectMacParses(cniArgs: string, hw: seq<bv8>)
    requires |hw| > 0
    requires ArgsOf(cniArgs).Success?
    ensures ArgsOf(InjectMac(cniArgs, MacString(hw))) == Success(Some(ArgsMap(ArgsOf(cniArgs))["mac" := MacString(hw)]))
  {
    var mac := MacString(hw);
    if cniArgs == "" {
      InjectIntoEmpty(mac);
      assert ArgsMap(ArgsOf(cniArgs)) == map[];
    } else {
      InjectIntoParsed(cniArgs, mac);
    }
  }

  // ---------------------------------------------------------------------
  // The plugin's own route helpers

  /** What the plugin's createRoute does: as networking.CreateRoute, but RouteReplace's error is returned as it is. */
  function LocalCreateEffect(table: map<IPNet, IPv4>, dev: Link, addrs: Result<seq<IPv4>, Error>,
                             ips: seq<IPv4>, fault: Option<Error>): (map<IPNet, IPv4>, Status)
  {
    match HostRoute(dev, addrs, ips)
    case Failure(s) => (table, s)
    case Success(r) =>
      var (t, err) := KernelRouteReplace(table, r, fault);
      (t, StatusOf(err))
  }

  /** What the plugin's deleteRoute does: as networking.DeleteRoute, but RouteDel's error is returned as it is. */
  function LocalDeleteEffect(table: map<IPNet, IPv4>, dev: Link, addrs: Result<seq<IPv4>, Error>,
                             ip: IPv4, fault: Option<Error>): (map<IPNet, IPv4>, Status)
  {
    match HostRoute(dev, addrs, [ip])
    case Failure(s) => (table, s)
    case Success(r) =>
      var (t, err) := KernelRouteDel(table, r, fault);
      (t, StatusOf(err))
  }

  /** createRoute of the plugin. */
  method CreateRoute(table: RouteTable, dev: Link, addrs: Result<seq<IPv4>, Error>, ips: seq<IPv4>, fault: Option<Error>)
    returns (s: Status)
    modifies table
    ensures (table.routes, s) == LocalCreateEffect(old(table.routes), dev, addrs, ips, fault)
  {
    var built := HostRoute(dev, addrs, ips);
    if built.Failure? {
      return built.error;
    }
    var err := table.ReplaceRoute(built.value, fault);
    return StatusOf(err);
  }

  /** deleteRoute of the plugin. */
  method DeleteRoute(table: RouteTable, dev: Link, addrs: Result<seq<IPv4>, Error>, ip: IPv4, fault: Option<Error>)
    returns (s: Status)
    modifies table
    ensures (table.routes, s) == LocalDeleteEffect(old(table.routes), dev, addrs, ip, fault)
  {
    var built := HostRoute(dev, addrs, [ip]);
    if built.Failure? {
      return built.error;
    }
    var err := table.RemoveRoute(built.value, fault);
    return StatusOf(err);
  }

  /**
   * The plugin's createRoute changes the table exactly as networking.CreateRoute
   * does; it differs only in reporting an "exists" refusal instead of letting it pass.
   */
  lemma LocalCreateReportsExist(table: map<IPNet, IPv4>, dev: Link, gw: seq<IPv4>, ips: seq<IPv4>, fault: Option<Error>)
    requires |gw| > 0 && |ips| > 0
    ensures LocalCreateEffect(table, dev, Success(gw), ips, fault).0 == CreateRouteEffect(table, dev, Success(gw), ips, fault).0
    ensures fault.None? ==> LocalCreateEffect(table, dev, Success(gw), ips, fault) == CreateRouteEffect(table, dev, Success(gw), ips, fault)
    ensures fault == Some(Sys(EEXIST)) ==>
      LocalCreateEffect(table, dev, Success(gw), ips, fault).1 == Fail(Sys(EEXIST)) &&
      CreateRouteEffect(table, dev, Success(gw), ips, fault).1 == Ok
  {
  }

  /**
   * Deleting a route that is not there fails in the plugin's deleteRoute with
   * the kernel's ESRCH, where networking.DeleteRoute succeeds.
   */
  lemma LocalDeleteOfAbsentRouteFails(table: map<IPNet, IPv4>, dev: Link, gw: seq<IPv4>, ip: IPv4)
    requires |gw| > 0 && HostNet(ip) !in table
    ensures LocalDeleteEffect(table, dev, Success(gw), ip, None) == (table, Fail(Sys(ESRCH)))
    ensures DeleteRouteEffect(table, dev, Success(gw), ip, None) == (table, Ok)
  {
    DeleteAbsentRoute(table, dev, gw, ip);
  }

  // ---------------------------------------------------------------------
  // cmdAdd and cmdDel

  /** The errors cmdAdd and cmdDel wrap what they were told in. */
  function LoadConfError(e: Error): Error { Wrapped("failed to load netconf", e) }
  function MasterLookupError(master: string, e: Error): Error { Wrapped("error looking up master device " + master, e) }
  function AddRouteError(dev: string, e: Error): Error { Wrapped("error adding route via " + dev, e) }
  function SetMacError(mac: string, e: Error): Error { Wrapped("error adding mac " + mac + " to CNI_ARGS", e) }

  /** The network configuration of the plugin, as loadConf decodes it. */
  datatype NetConf = NetConf(cniVersion: string, ipamType: string, via: string, master: string)

  /** The part of a CNI result the plugin reads and extends: the IPs and the names of the interfaces. */
  datatype CniResult = CniResult(ips: seq<IPv4>, interfaces: seq<string>)

  /** The calls cmdAdd and cmdDel make outside themselves, in the order they make them. */
  datatype Call =
    | SetCniArgs(value: string)
    | IpamAdd(plugin: string)
    | IpamDel(plugin: string)
    | LookupMaster(name: string)
    | RouteToResult(dev: string)
    | RouteRemoval(dev: string, ip: IPv4)
    | PrintResult(result: CniResult, cniVersion: string)

  /**
   * What the outside world answers cmdAdd: the decoded configuration,
   * args.Args, CNI_ARGS as os.LookupEnv reads it ("" when unset), the random
   * bytes, os.Setenv's error, the IPAM result (already converted), the
   * conversion's error, the master link, its IPv4 addresses, RouteReplace's
   * refusal and the error of printing the result.
   */
  datatype AddEnv = AddEnv(
    conf: Result<NetConf, Error>,
    args: string,
    cniArgs: string,
    random: Result<seq<bv8>, Error>,
    setenvFault: Option<Error>,
    ipamAdd: Result<CniResult, Error>,
    convertFault: Option<Error>,
    master: Result<Link, Error>,
    addrs: Result<seq<IPv4>, Error>,
    routeFault: Option<Error>,
    printFault: Option<Error>)

  /** The "mac" entry of the arguments, as cmdAdd looks it up: a malformed CNI_ARGS has none. */
  function SuppliedMac(args: string): (mac: Option<string>)
    ensures ArgsOf(args).Failure? ==> mac.None?
  {
    var a := ArgsMap(ArgsOf(args));
    if "mac" in a then Some(a["mac"]) else None
  }

  /** The MAC cmdAdd works with, and whether it generated it, or the error that ends it there. */
  function MacStage(args: string, random: Result<seq<bv8>, Error>): (r: Result<(seq<bv8>, bool), Error>)
    requires random.Success? ==> |random.value| == 6
    ensures r.Success? && !r.value.1 ==> SuppliedMac(args).Some? && ParseMAC(SuppliedMac(args).value) == Success(r.value.0)
    ensures r.Success? && r.value.1 ==>
              SuppliedMac(args).None? && random.Success? && |r.value.0| == 6 &&
              r.value.0[0] == FixFirstOctet(random.value[0]) && r.value.0[1..] == random.value[1..]
    ensures SuppliedMac(args).Some? ==> (r.Success? <==> ParseMAC(SuppliedMac(args).value).Success?)
    ensures SuppliedMac(args).Some? && ParseMAC(SuppliedMac(args).value).Failure? ==>
              r == Failure(Wrapped("error parsing supplied mac address", ParseMAC(SuppliedMac(args).value).error))
    ensures SuppliedMac(args).None? ==> (r.Success? <==> random.Success?)
    ensures SuppliedMac(args).None? && random.Failure? ==>
              r == Failure(Wrapped("error generating mac address", random.error))
  {
    match SuppliedMac(args)
    case Some(raw) =>
      (match ParseMAC(raw)
       case Failure(e) => Failure(Wrapped("error parsing supplied mac address", e))
       case Success(hw) => Success((hw, false)))
    case None =>
      match random
      case Failure(e) => Failure(Wrapped("error generating mac address", e))
      case Success(b) => Success(([FixFirstOctet(b[0])] + b[1..], true))
  }

  /**
   * How the MAC step of cmdAdd ends: the error that stops cmdAdd there, if
   * any, and the calls it made (setting CNI_ARGS when it generated the MAC).
   */
  function MacOutcome(args: string, cniArgs: string, random: Result<seq<bv8>, Error>, setenvFault: Option<Error>)
    : (Option<Error>, seq<Call>)
    requires random.Success? ==> |random.value| == 6
  {
    match MacStage(args, random)
    case Failure(e) => (Some(e), [])
    case Success((hw, generated)) =>
      if !generated then (None, [])
      else
        var mac := MacString(hw);
        (if setenvFault.Some? then Some(SetMacError(mac, setenvFault.value)) else None,
         [SetCniArgs(InjectMac(cniArgs, mac))])
  }

  /** The MAC step of cmdAdd, for its inputs. */
  function MacStep(w: AddEnv): (Option<Error>, seq<Call>)
    requires w.random.Success? ==> |w.random.value| == 6
  {
    MacOutcome(w.args, w.cniArgs, w.random, w.setenvFault)
  }

  /** cmdAdd has a converted IPAM result in hand. */
  predicate ReachesResult(w: AddEnv)
    requires w.random.Success? ==> |w.random.value| == 6
  {
    w.conf.Success? && MacStep(w).0.None? && w.ipamAdd.Success? && w.convertFault.None?
  }

  /** The interfaces of the printed result: the via interface for macvlan, the master for a bridge or veth. */
  function ResultInterfaces(n: NetConf, master: Link, base: seq<string>): (r: seq<string>)
    ensures master.linkType == "macvlan" ==> r == base + [n.via]
    ensures (master.linkType == "bridge" || master.linkType == "veth") ==> r == base + [n.master]
    ensures master.linkType !in {"macvlan", "bridge", "veth"} ==> r == base
  {
    if master.linkType == "macvlan" then base + [n.via]
    else if master.linkType == "bridge" || master.linkType == "veth" then base + [n.master]
    else base
  }

  /**
   * cmdAdd. The route table is the kernel's; everything else the plugin
   * learns or causes outside itself is in `w` and in the calls it returns.
   */
  method CmdAdd(w: AddEnv, table: RouteTable) returns (s: Status, calls: seq<Call>)
    requires w.random.Success? ==> |w.random.value| == 6
    modifies table
    ensures w.conf.Failure? ==>
              s == Fail(LoadConfError(w.conf.error)) && calls == [] && table.routes == old(table.routes)
    ensures w.conf.Success? && MacStep(w).0.Some? ==>
              s == Fail(MacStep(w).0.value) && calls == MacStep(w).1 && table.routes == old(table.routes)
    ensures w.conf.Success? && MacStep(w).0.None? && !ReachesResult(w) ==>
              s == Fail(if w.ipamAdd.Failure? then w.ipamAdd.error else w.convertFault.value) &&
              calls == MacStep(w).1 + [IpamAdd(w.conf.value.ipamType)] && table.routes == old(table.routes)
    ensures ReachesResult(w) && w.conf.value.master == "" ==>
              s == StatusOf(w.printFault) && table.routes == old(table.routes) &&
              calls == MacStep(w).1 + [IpamAdd(w.conf.value.ipamType), PrintResult(w.ipamAdd.value, w.conf.value.cniVersion)]
    ensures ReachesResult(w) && w.conf.value.master != "" && w.master.Failure? ==>
              s == Fail(MasterLookupError(w.conf.value.master, w.master.error)) &&
              table.routes == old(table.routes) &&
              calls == MacStep(w).1 + [IpamAdd(w.conf.value.ipamType), LookupMaster(w.conf.value.master)]
    ensures ReachesResult(w) && w.conf.value.master != "" && w.master.Success? && w.master.value.linkType == "macvlan" ==>
              var (routes, routeStatus) := LocalCreateEffect(old(table.routes), w.master.value, w.addrs, w.ipamAdd.value.ips, w.routeFault);
              var result := w.ipamAdd.value.(interfaces := ResultInterfaces(w.conf.value, w.master.value, w.ipamAdd.value.interfaces));
              var base := MacStep(w).1 + [IpamAdd(w.conf.value.ipamType), LookupMaster(w.conf.value.master), RouteToResult(w.master.value.name)];
              table.routes == routes &&
              (routeStatus.Panic? ==> s == routeStatus && calls == base) &&
              (routeStatus.Fail? ==> s == Fail(AddRouteError(w.master.value.name, routeStatus.error)) && calls == base) &&
              (routeStatus.Ok? ==> s == StatusOf(w.printFault) && calls == base + [PrintResult(result, w.conf.value.cniVersion)])
    ensures ReachesResult(w) && w.conf.value.master != "" && w.master.Success? && w.master.value.linkType != "macvlan" ==>
              var result := w.ipamAdd.value.(interfaces := ResultInterfaces(w.conf.value, w.master.value, w.ipamAdd.value.interfaces));
              s == StatusOf(w.printFault) && table.routes == old(table.routes) &&
              calls == MacStep(w).1 + [IpamAdd(w.conf.value.ipamType), LookupMaster(w.conf.value.master), PrintResult(result, w.conf.value.cniVersion)]
  {
    if w.conf.Failure? {
      return Fail(LoadConfError(w.conf.error)), [];
    }
    var n := w.conf.value;
    var macErr;
    macErr, calls := SetUpMac(w.args, w.cniArgs, w.random, w.setenvFault);
    assert (macErr, calls) == MacStep(w);
    if macErr.Some? {
      return Fail(macErr.value), calls;
    }
    s, calls := AddAfterMac(w, calls, table);
  }

  /** cmdAdd after the MAC step, which made the calls `pre`: IPAM, the master, printing the result. */
  method AddAfterMac(w: AddEnv, pre: seq<Call>, table: RouteTable) returns (s: Status, calls: seq<Call>)
    requires w.conf.Success?
    modifies table
    ensures (w.ipamAdd.Failure? || w.convertFault.Some?) ==>
              s == Fail(if w.ipamAdd.Failure? then w.ipamAdd.error else w.convertFault.value) &&
              calls == pre + [IpamAdd(w.conf.value.ipamType)] && table.routes == old(table.routes)
    ensures w.ipamAdd.Success? && w.convertFault.None? && w.conf.value.master == "" ==>
              s == StatusOf(w.printFault) && table.routes == old(table.routes) &&
              calls == pre + [IpamAdd(w.conf.value.ipamType), PrintResult(w.ipamAdd.value, w.conf.value.cniVersion)]
    ensures w.ipamAdd.Success? && w.convertFault.None? && w.conf.value.master != "" && w.master.Failure? ==>
              s == Fail(MasterLookupError(w.conf.value.master, w.master.error)) &&
              table.routes == old(table.routes) &&
              calls == pre + [IpamAdd(w.conf.value.ipamType), LookupMaster(w.conf.value.master)]
    ensures w.ipamAdd.Success? && w.convertFault.None? && w.conf.value.master != "" && w.master.Success? && w.master.value.linkType == "macvlan" ==>
              var (routes, routeStatus) := LocalCreateEffect(old(table.routes), w.master.value, w.addrs, w.ipamAdd.value.ips, w.routeFault);
              var result := w.ipamAdd.value.(interfaces := ResultInterfaces(w.conf.value, w.master.value, w.ipamAdd.value.interfaces));
              var base := pre + [IpamAdd(w.conf.value.ipamType), LookupMaster(w.conf.value.master), RouteToResult(w.master.value.name)];
              table.routes == routes &&
              (routeStatus.Panic? ==> s == routeStatus && calls == base) &&
              (routeStatus.Fail? ==> s == Fail(AddRouteError(w.master.value.name, routeStatus.error)) && calls == base) &&
              (routeStatus.Ok? ==> s == StatusOf(w.printFault) && calls == base + [PrintResult(result, w.conf.value.cniVersion)])
    ensures w.ipamAdd.Success? && w.convertFault.None? && w.conf.value.master != "" && w.master.Success? && w.master.value.linkType != "macvlan" ==>
              var result := w.ipamAdd.value.(interfaces := ResultInterfaces(w.conf.value, w.master.value, w.ipamAdd.value.interfaces));
              s == StatusOf(w.printFault) && table.routes == old(table.routes) &&
              calls == pre + [IpamAdd(w.conf.value.ipamType), LookupMaster(w.conf.value.master), PrintResult(result, w.conf.value.cniVersion)]
  {
    var n := w.conf.value;
    calls := pre + [IpamAdd(n.ipamType)];
    if w.ipamAdd.Failure? {
      return Fail(w.ipamAdd.error), calls;
    }
    if w.convertFault.Some? {
      return Fail(w.convertFault.value), calls;
    }
    var result := w.ipamAdd.value;
    if n.master != "" {
      var more, res;
      s, more, res := AttachToMaster(n, result, w.master, w.addrs, w.routeFault, table);
      calls := calls + more;
      if !s.Ok? {
        return s, calls;
      }
      result := res;
    }
    calls := calls + [PrintResult(result, n.cniVersion)];
    return StatusOf(w.printFault), calls;
  }

  /**
   * The MAC step of cmdAdd: parse the supplied MAC, or generate one and add
   * it to CNI_ARGS. Returns the error that ends cmdAdd, if any.
   */
  method SetUpMac(args: string, cniArgs: string, random: Result<seq<bv8>, Error>, setenvFault: Option<Error>)
    returns (err: Option<Error>, calls: seq<Call>)
    requires random.Success? ==> |random.value| == 6
    ensures (err, calls) == MacOutcome(args, cniArgs, random, setenvFault)
  {
    calls := [];
    var parsed := ParseArgs(args);
    var a := if parsed.Success? && parsed.value.Some? then parsed.value.value else map[];
    if "mac" in a {
      var hw := ParseMAC(a["mac"]);
      if hw.Failure? {
        return Some(Wrapped("error parsing supplied mac address", hw.error)), calls;
      }
      return None, calls;
    }
    var hw := RandomMac(random);
    if hw.Failure? {
      return Some(Wrapped("error generating mac address", hw.error)), calls;
    }
    var mac := hw.value;
    assert mac == [FixFirstOctet(random.value[0])] + random.value[1..];
    var envArgs := cniArgs;
    if envArgs != "" && !HasSuffix(envArgs, ";") {
      envArgs := envArgs + ";";
    }
    envArgs := envArgs + PairText("mac", MacString(mac));
    calls := [SetCniArgs(envArgs)];
    if setenvFault.Some? {
      return Some(SetMacError(MacString(mac), setenvFault.value)), calls;
    }
    return None, calls;
  }

  /**
   * The master step of cmdAdd, for a non-empty Master: look the master up;
   * for macvlan install the route and add the via interface, for a bridge or
   * veth add the master itself to the result.
   */
  method AttachToMaster(n: NetConf, result: CniResult, master: Result<Link, Error>, addrs: Result<seq<IPv4>, Error>,
                        routeFault: Option<Error>, table: RouteTable)
    returns (s: Status, calls: seq<Call>, res: CniResult)
    modifies table
    ensures master.Failure? ==>
              s == Fail(MasterLookupError(n.master, master.error)) &&
              calls == [LookupMaster(n.master)] && table.routes == old(table.routes)
    ensures master.Success? && master.value.linkType == "macvlan" ==>
              var (routes, routeStatus) := LocalCreateEffect(old(table.routes), master.value, addrs, result.ips, routeFault);
              table.routes == routes && calls == [LookupMaster(n.master), RouteToResult(master.value.name)] &&
              (routeStatus.Panic? ==> s == routeStatus) &&
              (routeStatus.Fail? ==> s == Fail(AddRouteError(master.value.name, routeStatus.error))) &&
              (routeStatus.Ok? ==> s == Ok && res == result.(interfaces := ResultInterfaces(n, master.value, result.interfaces)))
    ensures master.Success? && master.value.linkType != "macvlan" ==>
              s == Ok && calls == [LookupMaster(n.master)] && table.routes == old(table.routes) &&
              res == result.(interfaces := ResultInterfaces(n, master.value, result.interfaces))
  {
    calls := [LookupMaster(n.master)];
    res := result;
    if master.Failure? {
      return Fail(MasterLookupError(n.master, master.error)), calls, res;
    }
    var link := master.value;
    if link.linkType == "macvlan" {
      calls := calls + [RouteToResult(link.name)];
      var err := CreateRoute(table, link, addrs, result.ips, routeFault);
      if err.Panic? {
        return err, calls, res;
      }
      if err.Fail? {
        return Fail(AddRouteError(link.name, err.error)), calls, res;
      }
      res := result.(interfaces := result.interfaces + [n.via]);
    } else if link.linkType == "bridge" || link.linkType == "veth" {
      res := result.(interfaces := result.interfaces + [n.master]);
    }
    return Ok, calls, res;
  }

  /**
   * cmdAdd never looks at parseArgs' error: with malformed arguments it
   * generates a MAC just as if none had been supplied.
   */
  lemma MalformedArgsGenerateMac(args: string, random: Result<seq<bv8>, Error>)
    requires random.Success? ==> |random.value| == 6
    requires ArgsOf(args).Failure?
    ensures MacStage(args, random).Success? <==> random.Success?
    ensures MacStage(args, random).Success? ==> MacStage(args, random).value.1
  {
  }

  /**
   * A MAC that cmdAdd generated and wrote into CNI_ARGS is found there by a
   * later parse, when the earlier CNI_ARGS parsed.
   */
  lemma GeneratedMacIsRecorded(w: AddEnv)
    requires w.random.Success? ==> |w.random.value| == 6
    requires MacStage(w.args, w.random).Success? && MacStage(w.args, w.random).value.1
    requires ArgsOf(w.cniArgs).Success?
    ensures |MacStep(w).1| == 1 && MacStep(w).1[0].SetCniArgs?
    ensures var recorded := ArgsMap(ArgsOf(MacStep(w).1[0].value));
            "mac" in recorded && ParseMAC(recorded["mac"]) == Success(MacStage(w.args, w.random).value.0)
  {
    var hw := MacStage(w.args, w.random).value.0;
    InjectMacParses(w.cniArgs, hw);
    MacStringRoundTrip(hw);
  }

  /**
   * What the outside world answers cmdDel: the decoded configuration,
   * args.Args, IPAM's delete error, the master link, its IPv4 addresses and
   * RouteDel's refusal.
   */
  datatype DelEnv = DelEnv(
    conf: Result<NetConf, Error>,
    args: string,
    ipamDel: Option<Error>,
    master: Result<Link, Error>,
    addrs: Result<seq<IPv4>, Error>,
    routeFault: Option<Error>)

  /** The "ip" argument as cmdDel reads it: net.ParseIP of the entry, no address when there is none. */
  function IpArg(args: string): Option<IPv4>
  {
    var a := ArgsMap(ArgsOf(args));
    ParseIP(if "ip" in a then a["ip"] else "")
  }

  /** The message cmdDel wraps a failed route removal in ("%v; %v " of the IP and the error). */
  function RemovalError(ip: IPv4, e: Error): Error
  {
    Other("error removing route for " + IPText(ip) + "; " + Text(e) + " ")
  }

  /** cmdDel. */
  method CmdDel(w: DelEnv, table: RouteTable) returns (s: Status, calls: seq<Call>)
    modifies table
    ensures w.conf.Failure? ==>
              s == Fail(LoadConfError(w.conf.error)) && calls == [] && table.routes == old(table.routes)
    ensures w.conf.Success? && ArgsOf(w.args).Failure? ==>
              s == Fail(ArgsOf(w.args).error) && calls == [] && table.routes == old(table.routes)
    ensures w.conf.Success? && ArgsOf(w.args).Success? ==> |calls| >= 1 && calls[0] == IpamDel(w.conf.value.ipamType)
    ensures w.conf.Success? && ArgsOf(w.args).Success? && w.ipamDel.Some? ==>
              s == Fail(w.ipamDel.value) && calls == [IpamDel(w.conf.value.ipamType)] && table.routes == old(table.routes)
    ensures w.conf.Success? && ArgsOf(w.args).Success? && w.ipamDel.None? && w.conf.value.master != "" &&
            w.master.Success? && w.master.value.linkType == "macvlan" && IpArg(w.args).Some? ==>
              var ip := IpArg(w.args).value;
              var (routes, routeStatus) := LocalDeleteEffect(old(table.routes), w.master.value, w.addrs, ip, w.routeFault);
              table.routes == routes &&
              calls == [IpamDel(w.conf.value.ipamType), LookupMaster(w.conf.value.master), RouteRemoval(w.conf.value.master, ip)] &&
              s == (match routeStatus
                    case Ok => Ok
                    case Panic(_) => routeStatus
                    case Fail(e) => Fail(RemovalError(ip, e)))
    ensures w.conf.Success? && ArgsOf(w.args).Success? && w.ipamDel.None? && w.conf.value.master == "" ==>
              s == Ok && calls == [IpamDel(w.conf.value.ipamType)] && table.routes == old(table.routes)
    ensures w.conf.Success? && ArgsOf(w.args).Success? && w.ipamDel.None? && w.conf.value.master != "" && w.master.Failure? ==>
              s == Fail(MasterLookupError(w.conf.value.master, w.master.error)) &&
              calls == [IpamDel(w.conf.value.ipamType), LookupMaster(w.conf.value.master)] && table.routes == old(table.routes)
    ensures w.conf.Success? && ArgsOf(w.args).Success? && w.ipamDel.None? && w.conf.value.master != "" && w.master.Success? &&
            !(w.master.value.linkType == "macvlan" && IpArg(w.args).Some?) ==>
              s == Ok && calls == [IpamDel(w.conf.value.ipamType), LookupMaster(w.conf.value.master)] &&
              table.routes == old(table.routes)
    ensures !(w.conf.Success? && w.conf.value.master != "" && w.master.Success? && w.master.value.linkType == "macvlan" &&
              IpArg(w.args).Some?) ==>
              table.routes == old(table.routes) && forall k :: 0 <= k < |calls| ==> !calls[k].RouteRemoval?
  {
    if w.conf.Failure? {
      return Fail(LoadConfError(w.conf.error)), [];
    }
    var parsed := ParseArgs(w.args);
    if parsed.Failure? {
      return Fail(parsed.error), [];
    }
    var a := if parsed.value.Some? then parsed.value.value else map[];
    var ip := ParseIP(if "ip" in a then a["ip"] else "");
    assert ip == IpArg(w.args);
    s, calls := DelAfterArgs(w, ip, table);
  }

  /** cmdDel once its arguments parsed, `ip` being its "ip" argument: IPAM's delete, then the route. */
  method DelAfterArgs(w: DelEnv, ip: Option<IPv4>, table: RouteTable) returns (s: Status, calls: seq<Call>)
    requires w.conf.Success?
    modifies table
    ensures |calls| >= 1 && calls[0] == IpamDel(w.conf.value.ipamType)
    ensures w.ipamDel.Some? ==>
              s == Fail(w.ipamDel.value) && calls == [IpamDel(w.conf.value.ipamType)] && table.routes == old(table.routes)
    ensures w.ipamDel.None? && w.conf.value.master != "" && w.master.Success? && w.master.value.linkType == "macvlan" && ip.Some? ==>
              var (routes, routeStatus) := LocalDeleteEffect(old(table.routes), w.master.value, w.addrs, ip.value, w.routeFault);
              table.routes == routes &&
              calls == [IpamDel(w.conf.value.ipamType), LookupMaster(w.conf.value.master), RouteRemoval(w.conf.value.master, ip.value)] &&
              s == (match routeStatus
                    case Ok => Ok
                    case Panic(_) => routeStatus
                    case Fail(e) => Fail(RemovalError(ip.value, e)))
    ensures w.ipamDel.None? && w.conf.value.master == "" ==>
              s == Ok && calls == [IpamDel(w.conf.value.ipamType)] && table.routes == old(table.routes)
    ensures w.ipamDel.None? && w.conf.value.master != "" && w.master.Failure? ==>
              s == Fail(MasterLookupError(w.conf.value.master, w.master.error)) &&
              calls == [IpamDel(w.conf.value.ipamType), LookupMaster(w.conf.value.master)] && table.routes == old(table.routes)
    ensures w.ipamDel.None? && w.conf.value.master != "" && w.master.Success? &&
            !(w.master.value.linkType == "macvlan" && ip.Some?) ==>
              s == Ok && calls == [IpamDel(w.conf.value.ipamType), LookupMaster(w.conf.value.master)] &&
              table.routes == old(table.routes)
    ensures !(w.conf.value.master != "" && w.master.Success? && w.master.value.linkType == "macvlan" && ip.Some?) ==>
              table.routes == old(table.routes) && forall k :: 0 <= k < |calls| ==> !calls[k].RouteRemoval?
  {
    var n := w.conf.value;
    calls := [IpamDel(n.ipamType)];
    if w.ipamDel.Some? {
      return Fail(w.ipamDel.value), calls;
    }
    if n.master != "" {
      calls := calls + [LookupMaster(n.master)];
      if w.master.Failure? {
        return Fail(MasterLookupError(n.master, w.master.error)), calls;
      }
      var master := w.master.value;
      if master.linkType == "macvlan" && ip.Some? {
        calls := calls + [RouteRemoval(n.master, ip.value)];
        var err := DeleteRoute(table, master, w.addrs, ip.value, w.routeFault);
        if err.Panic? {
          return err, calls;
        }
        if err.Fail? {
          return Fail(RemovalError(ip.value, err.error)), calls;
        }
      }
    }
    return Ok, calls;
  }
}
