/**
 * The /32 host-route helpers of the networking package: a route to one IP
 * through the device's first IPv4 address, installed with replace and
 * removed with delete, with the kernel's refusals sorted into tolerated and
 * reported errors. The kernel's main routing table is a map from destination
 * network to gateway, held by a RouteTable object.
 */
module Routes {
  import opened Wrappers
  import opened Errors
  import opened Netlink

  /** A netlink.Route with only Dst and Gw set, as both helpers build it. */
  datatype Route = Route(dst: IPNet, gw: IPv4)

  /** The route's text as it appears in the error messages ("%v" of the route). */
  function RouteText(r: Route): string
  {
    "{Dst: " + IPText(r.dst.ip) + "/32 Gw: " + IPText(r.gw) + "}"
  }

  /** The message of a failed address lookup on the device. */
  function AddrListError(dev: Link, e: Error): Error
  {
    Wrapped("error looking up up IP for " + dev.name, e)
  }

  /**
   * Builds the route both helpers install or remove: the /32 network of the
   * first of `ips`, through the first IPv4 address the device lists. The
   * address list is read first; its error is reported, and an empty list of
   * IPs or of addresses is an index out of range, a panic.
   */
  function HostRoute(dev: Link, addrs: Result<seq<IPv4>, Error>, ips: seq<IPv4>): (r: Result<Route, Status>)
    ensures r.Success? <==> addrs.Success? && |ips| > 0 && |addrs.value| > 0
    ensures r.Success? ==> r.value.dst == HostNet(ips[0]) && r.value.gw == addrs.value[0]
    ensures addrs.Failure? ==> r == Failure(Fail(AddrListError(dev, addrs.error)))
    ensures addrs.Success? && r.Failure? ==> r.error.Panic?
  {
    match addrs
    case Failure(e) => Failure(Fail(AddrListError(dev, e)))
    case Success(gw) =>
      if |ips| == 0 then Failure(Panic("index out of range: result.IPs[0]"))
      else if |gw| == 0 then Failure(Panic("index out of range: gw[0]"))
      else Success(Route(HostNet(ips[0]), gw[0]))
  }

  /**
   * netlink.RouteReplace on the table: the entry for the destination is set
   * to the gateway, whether or not there was one. A `fault` is an error the
   * kernel answers with instead, leaving the table as it was.
   */
  function KernelRouteReplace(table: map<IPNet, IPv4>, r: Route, fault: Option<Error>): (res: (map<IPNet, IPv4>, Option<Error>))
    ensures res.1 == fault
    ensures fault.None? ==> res.0 == table[r.dst := r.gw]
    ensures fault.Some? ==> res.0 == table
  {
    if fault.Some? then (table, fault) else (table[r.dst := r.gw], None)
  }

  /**
   * netlink.RouteDel on the table: removes the entry for the destination when
   * it goes through the given gateway; when there is no such entry the kernel
   * answers ESRCH. A `fault` is any other refusal, leaving the table as it was.
   */
  function KernelRouteDel(table: map<IPNet, IPv4>, r: Route, fault: Option<Error>): (res: (map<IPNet, IPv4>, Option<Error>))
    ensures fault.Some? ==> res == (table, fault)
    ensures fault.None? && r.dst in table && table[r.dst] == r.gw ==> res == (table - {r.dst}, None)
    ensures fault.None? && !(r.dst in table && table[r.dst] == r.gw) ==> res == (table, Some(Sys(ESRCH)))
  {
    if fault.Some? then (table, fault)
    else if r.dst in table && table[r.dst] == r.gw then (table - {r.dst}, None)
    else (table, Some(Sys(ESRCH)))
  }

  /** The errors CreateRoute lets pass: none, or one that os.IsExist recognises. */
  predicate CreateTolerates(err: Option<Error>)
  {
    err.None? || IsExist(err.value)
  }

  /** The errors DeleteRoute lets pass: none, one that os.IsNotExist recognises, or ESRCH under at most one os wrapper. */
  predicate DeleteTolerates(err: Option<Error>)
  {
    err.None? || IsNotExist(err.value) || UnderlyingError(err.value) == Sys(ESRCH)
  }

  /** What CreateRoute does to the table and what it returns. */
  function CreateRouteEffect(table: map<IPNet, IPv4>, dev: Link, addrs: Result<seq<IPv4>, Error>,
                             ips: seq<IPv4>, fault: Option<Error>): (map<IPNet, IPv4>, Status)
  {
    match HostRoute(dev, addrs, ips)
    case Failure(s) => (table, s)
    case Success(r) =>
      var (t, err) := KernelRouteReplace(table, r, fault);
      (t, if CreateTolerates(err) then Ok else Fail(Wrapped("error creating route " + RouteText(r), err.value)))
  }

  /** What DeleteRoute does to the table and what it returns. */
  function DeleteRouteEffect(table: map<IPNet, IPv4>, dev: Link, addrs: Result<seq<IPv4>, Error>,
                             ip: IPv4, fault: Option<Error>): (map<IPNet, IPv4>, Status)
  {
    match HostRoute(dev, addrs, [ip])
    case Failure(s) => (table, s)
    case Success(r) =>
      var (t, err) := KernelRouteDel(table, r, fault);
      (t, if DeleteTolerates(err) then Ok else Fail(Wrapped("error deleting route " + RouteText(r), err.value)))
  }

  /** The kernel's main routing table, as far as host routes go. */
  class RouteTable {
    var routes: map<IPNet, IPv4>

    constructor (routes: map<IPNet, IPv4>)
      ensures this.routes == routes
    {
      this.routes := routes;
    }

    /**
     * networking.CreateRoute: looks up the device's addresses through
     * `addrs`, the answer of netlink.AddrList, and replaces the /32 route to
     * the first of `ips`; `fault` is the kernel's refusal, if any.
     */
    method CreateRoute(dev: Link, addrs: Result<seq<IPv4>, Error>, ips: seq<IPv4>, fault: Option<Error>)
      returns (s: Status)
      modifies this
      ensures (routes, s) == CreateRouteEffect(old(routes), dev, addrs, ips, fault)
    {
      var built := HostRoute(dev, addrs, ips);
      if built.Failure? {
        return built.error;
      }
      var route := built.value;
      var err := ReplaceRoute(route, fault);
      if err.Some? && !IsExist(err.value) {
        return Fail(Wrapped("error creating route " + RouteText(route), err.value));
      }
      return Ok;
    }

    /** networking.DeleteRoute: removes the /32 route to `ip` through the device's first address. */
    method DeleteRoute(dev: Link, addrs: Result<seq<IPv4>, Error>, ip: IPv4, fault: Option<Error>)
      returns (s: Status)
      modifies this
      ensures (routes, s) == DeleteRouteEffect(old(routes), dev, addrs, ip, fault)
    {
      var built := HostRoute(dev, addrs, [ip]);
      if built.Failure? {
        return built.error;
      }
      var route := built.value;
      var err := RemoveRoute(route, fault);
      if err.Some? && !IsNotExist(err.value) && UnderlyingError(err.value) != Sys(ESRCH) {
        return Fail(Wrapped("error deleting route " + RouteText(route), err.value));
      }
      return Ok;
    }

    /** netlink.RouteReplace. */
    method ReplaceRoute(r: Route, fault: Option<Error>) returns (err: Option<Error>)
      modifies this
      ensures (routes, err) == KernelRouteReplace(old(routes), r, fault)
    {
      err := fault;
      if fault.None? {
        routes := routes[r.dst := r.gw];
      }
    }

    /** netlink.RouteDel. */
    method RemoveRoute(r: Route, fault: Option<Error>) returns (err: Option<Error>)
      modifies this
      ensures (routes, err) == KernelRouteDel(old(routes), r, fault)
    {
      if fault.Some? {
        err := fault;
      } else if r.dst in routes && routes[r.dst] == r.gw {
        routes := routes - {r.dst};
        err := None;
      } else {
        err := Some(Sys(ESRCH));
      }
    }
  }

  /**
   * A successful CreateRoute leaves exactly one entry for the /32 of the IP,
   * through the device's first address, and changes no other entry.
   */
  lemma CreateRouteInstalls(table: map<IPNet, IPv4>, dev: Link, gw: seq<IPv4>, ips: seq<IPv4>)
    requires |gw| > 0 && |ips| > 0
    ensures CreateRouteEffect(table, dev, Success(gw), ips, None) == (table[HostNet(ips[0]) := gw[0]], Ok)
  {
  }

  /** Replacing is idempotent: a second CreateRoute with the same inputs changes nothing further. */
  lemma CreateRouteIdempotent(table: map<IPNet, IPv4>, dev: Link, addrs: Result<seq<IPv4>, Error>, ips: seq<IPv4>)
    ensures var (once, s1) := CreateRouteEffect(table, dev, addrs, ips, None);
            var (twice, s2) := CreateRouteEffect(once, dev, addrs, ips, None);
            twice == once && s2 == s1
  {
    match HostRoute(dev, addrs, ips)
    case Failure(_) =>
    case Success(r) =>
      var once := table[r.dst := r.gw];
      assert once[r.dst := r.gw] == once;
  }

  /** CreateRoute reports a kernel refusal exactly when os.IsExist does not recognise it, wrapped. */
  lemma CreateRouteTolerance(table: map<IPNet, IPv4>, dev: Link, gw: seq<IPv4>, ips: seq<IPv4>, e: Error)
    requires |gw| > 0 && |ips| > 0
    ensures var (t, s) := CreateRouteEffect(table, dev, Success(gw), ips, Some(e));
            t == table &&
            (s == Ok <==> IsExist(e)) &&
            (!IsExist(e) ==> s == Fail(Wrapped("error creating route " + RouteText(Route(HostNet(ips[0]), gw[0])), e)))
  {
  }

  /** A failed address lookup is reported, wrapped, and no route is touched, whatever the kernel would say. */
  lemma AddrListFailureTouchesNothing(table: map<IPNet, IPv4>, dev: Link, e: Error, ips: seq<IPv4>, ip: IPv4, fault: Option<Error>)
    ensures CreateRouteEffect(table, dev, Failure(e), ips, fault) == (table, Fail(AddrListError(dev, e)))
    ensures DeleteRouteEffect(table, dev, Failure(e), ip, fault) == (table, Fail(AddrListError(dev, e)))
  {
  }

  /** Deleting a route the table does not hold succeeds and leaves the table as it was. */
  lemma DeleteAbsentRoute(table: map<IPNet, IPv4>, dev: Link, gw: seq<IPv4>, ip: IPv4)
    requires |gw| > 0 && HostNet(ip) !in table
    ensures DeleteRouteEffect(table, dev, Success(gw), ip, None) == (table, Ok)
  {
    assert UnderlyingError(Sys(ESRCH)) == Sys(ESRCH);
  }

  /** Delete after create, on the same device and IP, removes exactly that entry. */
  lemma DeleteAfterCreate(table: map<IPNet, IPv4>, dev: Link, gw: seq<IPv4>, ip: IPv4)
    requires |gw| > 0
    ensures var (created, _) := CreateRouteEffect(table, dev, Success(gw), [ip], None);
            DeleteRouteEffect(created, dev, Success(gw), ip, None) == (table - {HostNet(ip)}, Ok)
  {
    var dst := HostNet(ip);
    assert table[dst := gw[0]] - {dst} == table - {dst};
  }

  /** DeleteRoute reports a kernel refusal exactly when it is neither not-exist nor ESRCH, wrapped. */
  lemma DeleteRouteTolerance(table: map<IPNet, IPv4>, dev: Link, gw: seq<IPv4>, ip: IPv4, e: Error)
    requires |gw| > 0
    ensures var (t, s) := DeleteRouteEffect(table, dev, Success(gw), ip, Some(e));
            t == table &&
            (s == Ok <==> IsNotExist(e) || UnderlyingError(e) == Sys(ESRCH)) &&
            (s != Ok ==> s == Fail(Wrapped("error deleting route " + RouteText(Route(HostNet(ip), gw[0])), e)))
  {
  }

  /** ESRCH is tolerated bare and inside an os wrapper, but not once fmt.Errorf has wrapped it. */
  lemma EsrchTolerance(op: string, path: string, context: string)
    ensures DeleteTolerates(Some(Sys(ESRCH)))
    ensures DeleteTolerates(Some(SyscallError(op, Sys(ESRCH))))
    ensures DeleteTolerates(Some(PathError(op, path, Sys(ESRCH))))
    ensures !DeleteTolerates(Some(Wrapped(context, Sys(ESRCH))))
    ensures !DeleteTolerates(Some(SyscallError(op, SyscallError(op, Sys(ESRCH)))))
  {
  }
}
