/**
 * The traffic-control engine of the node agent (cmd/virt-handler/cni/pkg/tc.go):
 * two u32 classifier records keyed by a MAC address, and the add, delete and
 * ensure operations on the parent link's ingress qdisc and filter list.
 *
 * Bytes are `bv8` and classifier words `bv32`, as in the Go code's uint32
 * arithmetic. A byte-level u32 matcher states what a filter's keys select.
 */
module TrafficControl {
  import opened Wrappers
  import opened Errors
  import opened BigEndian
  import opened Netlink

  /** unix.ETH_P_IP: the filters are attached for IPv4. */
  const ETH_P_IP: int := 0x0800
  /** netlink.TC_U32_TERMINAL. */
  const TC_U32_TERMINAL: bv8 := 1
  /** netlink.TC_ACT_OK: accept the packet and stop classifying. */
  const TC_ACT_OK: int := 0
  /** The DHCP client port, 68, which both filters select at UDP's destination port. */
  const DhcpClientPort: bv32 := 0x44

  /** netlink.MakeHandle: the major number in the high and the minor in the low 16 bits. */
  function MakeHandle(major: bv16, minor: bv16): bv32
  {
    (major as bv32 << 16) | minor as bv32
  }

  /** The ingress qdisc handle ffff:0 both filters hang off. */
  const IngressHandle: bv32 := MakeHandle(0xffff, 0)

  /** The two classifier values of a MAC address: its last four bytes, and its first two. */
  datatype MacHalves = MacHalves(lo: bv32, hi: bv32)

  /**
   * parseMAC: `hi` holds bytes 0 and 1 of the address (taken from the upper
   * half of the word at bytes 0..3), `lo` bytes 2..5, both big-endian.
   * Addresses shorter than six bytes make the Go code panic.
   */
  function ParseMAC(mac: seq<bv8>): (h: MacHalves)
    requires |mac| >= 6
    ensures h.hi == Be16(mac[0], mac[1])
    ensures h.lo == Be32(mac[2], mac[3], mac[4], mac[5])
  {
    var first := Be32(mac[0], mac[1], mac[2], mac[3]);   // binary.BigEndian.Uint32(mac[0:4])
    var second := Be32(mac[2], mac[3], mac[4], mac[5]);  // binary.BigEndian.Uint32(mac[2:6])
    UpperHalf(mac[0], mac[1], mac[2], mac[3]);
    MacHalves(second, (first >> 16) & 0x0000ffff)
  }

  /** The six bytes a pair of halves stands for. */
  function MacOfHalves(h: MacHalves): (mac: seq<bv8>)
    ensures |mac| == 6
  {
    [((h.hi >> 8) & 0xff) as bv8, (h.hi & 0xff) as bv8,
     (h.lo >> 24) as bv8, ((h.lo >> 16) & 0xff) as bv8, ((h.lo >> 8) & 0xff) as bv8, (h.lo & 0xff) as bv8]
  }

  /** The halves of six given bytes recombine into those bytes. */
  lemma HalvesOfBytes(m0: bv8, m1: bv8, m2: bv8, m3: bv8, m4: bv8, m5: bv8)
    ensures MacOfHalves(MacHalves(Be32(m2, m3, m4, m5), Be16(m0, m1))) == [m0, m1, m2, m3, m4, m5]
  {
    Be16Bytes(m0, m1);
    Be32Bytes(m2, m3, m4, m5);
  }

  /** Recombining the halves gives back the address's six bytes. */
  lemma ParseMACRoundTrip(mac: seq<bv8>)
    requires |mac| >= 6
    ensures ParseMAC(mac).hi < 0x1_0000
    ensures MacOfHalves(ParseMAC(mac)) == mac[..6]
  {
    Be16Bound(mac[0], mac[1]);
    HalvesOfBytes(mac[0], mac[1], mac[2], mac[3], mac[4], mac[5]);
    assert mac[..6] == [mac[0], mac[1], mac[2], mac[3], mac[4], mac[5]];
  }

  /** Every pair of halves with a 16-bit `hi` is the split of exactly one address. */
  lemma HalvesRoundTrip(h: MacHalves)
    requires h.hi < 0x1_0000
    ensures ParseMAC(MacOfHalves(h)) == h
  {
    Be16OfBytes(h.hi);
    Be32OfBytes(h.lo);
  }

  /** The address used by the manual TC driver: 6e:3f:a2:cf:f8:12 gives 0x6e3f and 0xa2cff812. */
  lemma ParseMACExample()
    ensures ParseMAC([0x6e, 0x3f, 0xa2, 0xcf, 0xf8, 0x12]) == MacHalves(0xa2cff812, 0x6e3f)
  {
  }

  /** One u32 selector key: the word at `off` from the network header, masked, must equal `val`. */
  datatype U32Key = U32Key(off: int, mask: bv32, val: bv32)

  datatype Action =
    | MirredRedirect(ifindex: int)  // netlink.NewMirredAction: egress redirect to ifindex, verdict stolen
    | Gact(verdict: int)            // a generic action with the given verdict

  /** A u32 classifier as handed to netlink.FilterAdd / FilterDel. */
  datatype U32Filter = U32Filter(
    linkIndex: int,
    parent: bv32,
    priority: int,
    protocol: int,
    flags: bv8,
    keys: seq<U32Key>,
    actions: seq<Action>)

  /** The bytes of a received packet as the classifier reads them; `nh` indexes the network header. */
  datatype Skb = Skb(data: seq<bv8>, nh: int)

  /** The big-endian word at `off` from the network header, if the packet holds it. */
  function WordAt(p: Skb, off: int): Option<bv32>
  {
    var k := p.nh + off;
    if 0 <= k && k + 4 <= |p.data| then Some(Be32(p.data[k], p.data[k + 1], p.data[k + 2], p.data[k + 3])) else None
  }

  /** The kernel's u32 comparison: the bits of the word under the mask agree with the value. */
  predicate WordMatches(w: bv32, key: U32Key)
  {
    (w ^ key.val) & key.mask == 0
  }

  /** A key matches a packet that holds the word at its offset, when that word matches. */
  predicate KeyMatches(p: Skb, key: U32Key)
  {
    var w := WordAt(p, key.off);
    w.Some? && WordMatches(w.value, key)
  }

  /** A selector matches when every one of its keys does. */
  predicate KeysMatch(p: Skb, keys: seq<U32Key>)
  {
    forall i :: 0 <= i < |keys| ==> KeyMatches(p, keys[i])
  }

  /**
   * An untagged Ethernet frame carrying a 20-byte IPv4 header and at least
   * UDP's two ports, with at least two bytes of headroom before the frame
   * (the destination-MAC key at -16 reads two bytes in front of it).
   */
  predicate UntaggedUdp(p: Skb)
  {
    16 <= p.nh && p.nh + 24 <= |p.data|
  }

  function DestinationMac(p: Skb): seq<bv8>
    requires UntaggedUdp(p)
  {
    p.data[p.nh - 14..p.nh - 8]
  }

  function SourceMac(p: Skb): seq<bv8>
    requires UntaggedUdp(p)
  {
    p.data[p.nh - 8..p.nh - 2]
  }

  function EtherType(p: Skb): bv32
    requires UntaggedUdp(p)
  {
    Be16(p.data[p.nh - 2], p.data[p.nh - 1])
  }

  function UdpDestinationPort(p: Skb): bv32
    requires UntaggedUdp(p)
  {
    Be16(p.data[p.nh + 22], p.data[p.nh + 23])
  }

  /** A key masked with 0x0000ffff compares the last two bytes of the word. */
  lemma HalfKeyWord(b0: bv8, b1: bv8, b2: bv8, b3: bv8, off: int, v: bv32)
    requires v < 0x1_0000
    ensures WordMatches(Be32(b0, b1, b2, b3), U32Key(off, 0x0000ffff, v)) <==> Be16(b2, b3) == v
  {
    LowHalfMasked(b0, b1, b2, b3, v);
  }

  /** A key with the full mask compares the whole word. */
  lemma FullKeyWord(w: bv32, off: int, v: bv32)
    ensures WordMatches(w, U32Key(off, 0xffffffff, v)) ==> w == v
    ensures w == v ==> WordMatches(w, U32Key(off, 0xffffffff, v))
  {
  }

  /** A 16-bit key at `off` matches when the last two bytes of the word there read `v`. */
  lemma HalfKeyMatches(p: Skb, off: int, v: bv32)
    requires 0 <= p.nh + off && p.nh + off + 4 <= |p.data| && v < 0x1_0000
    ensures var k := p.nh + off;
      KeyMatches(p, U32Key(off, 0x0000ffff, v)) <==> Be16(p.data[k + 2], p.data[k + 3]) == v
  {
    var k := p.nh + off;
    var key := U32Key(off, 0x0000ffff, v);
    assert WordAt(p, off) == Some(Be32(p.data[k], p.data[k + 1], p.data[k + 2], p.data[k + 3]));
    HalfKeyWord(p.data[k], p.data[k + 1], p.data[k + 2], p.data[k + 3], off, v);
    assert KeyMatches(p, key) == WordMatches(Be32(p.data[k], p.data[k + 1], p.data[k + 2], p.data[k + 3]), key);
  }

  /** A full-word key at `off` matches when the word there reads `v`. */
  lemma FullKeyMatches(p: Skb, off: int, v: bv32)
    requires 0 <= p.nh + off && p.nh + off + 4 <= |p.data|
    ensures var k := p.nh + off;
      KeyMatches(p, U32Key(off, 0xffffffff, v)) <==> Be32(p.data[k], p.data[k + 1], p.data[k + 2], p.data[k + 3]) == v
  {
    var k := p.nh + off;
    FullKeyWord(Be32(p.data[k], p.data[k + 1], p.data[k + 2], p.data[k + 3]), off, v);
  }

  /** Six bytes at `at` equal an address's six bytes exactly when each of them does. */
  lemma SixBytesEqual(d: seq<bv8>, at: int, mac: seq<bv8>)
    requires 0 <= at && at + 6 <= |d| && |mac| >= 6
    ensures d[at..at + 6] == mac[..6] <==>
      d[at] == mac[0] && d[at + 1] == mac[1] && d[at + 2] == mac[2] &&
      d[at + 3] == mac[3] && d[at + 4] == mac[4] && d[at + 5] == mac[5]
  {
    if d[at] == mac[0] && d[at + 1] == mac[1] && d[at + 2] == mac[2] &&
       d[at + 3] == mac[3] && d[at + 4] == mac[4] && d[at + 5] == mac[5] {
      assert forall i :: 0 <= i < 6 ==> d[at..at + 6][i] == mac[..6][i];
    } else {
      assert d[at..at + 6] != mac[..6] by {
        var x := d[at..at + 6];
        assert x[0] == d[at] && x[1] == d[at + 1] && x[2] == d[at + 2];
        assert x[3] == d[at + 3] && x[4] == d[at + 4] && x[5] == d[at + 5];
      }
    }
  }

  /** What the key triple (at - 2, 0xffff, hi), (at + 2, all, lo), (20, 0xffff, 68) selects. */
  lemma MacKeysMatch(p: Skb, keys: seq<U32Key>, mac: seq<bv8>, at: int)
    requires UntaggedUdp(p) && |mac| >= 6 && p.nh - 14 <= at <= p.nh - 6
    requires keys == [U32Key(at - 2 - p.nh, 0x0000ffff, ParseMAC(mac).hi),
                      U32Key(at + 2 - p.nh, 0xffffffff, ParseMAC(mac).lo),
                      U32Key(20, 0x0000ffff, DhcpClientPort)]
    ensures KeysMatch(p, keys) <==> p.data[at..at + 6] == mac[..6] && UdpDestinationPort(p) == 68
  {
    var d := p.data;
    Be16Bound(mac[0], mac[1]);
    HalfKeyMatches(p, at - 2 - p.nh, ParseMAC(mac).hi);
    FullKeyMatches(p, at + 2 - p.nh, ParseMAC(mac).lo);
    HalfKeyMatches(p, 20, DhcpClientPort);
    Be16Eq(d[at], d[at + 1], mac[0], mac[1]);
    Be32Eq(d[at + 2], d[at + 3], d[at + 4], d[at + 5], mac[2], mac[3], mac[4], mac[5]);
    SixBytesEqual(d, at, mac);
    assert KeysMatch(p, keys) <==> KeyMatches(p, keys[0]) && KeyMatches(p, keys[1]) && KeyMatches(p, keys[2]);
  }

  /** The kernel's answer to FilterAdd: the filter is added unless the kernel refuses. */
  function KernelFilterAdd(filters: set<U32Filter>, f: U32Filter, fault: Option<Error>): (set<U32Filter>, Option<Error>)
  {
    if fault.Some? then (filters, fault) else (filters + {f}, None)
  }

  /** The kernel's answer to FilterDel: an absent filter is ENOENT. */
  function KernelFilterDel(filters: set<U32Filter>, f: U32Filter, fault: Option<Error>): (set<U32Filter>, Option<Error>)
  {
    if fault.Some? then (filters, fault)
    else if f in filters then (filters - {f}, None)
    else (filters, Some(Sys(ENOENT)))
  }

  /** Deleting a filter that was just added, when it was not there before, restores the filter list. */
  lemma DelUndoesAdd(filters: set<U32Filter>, f: U32Filter)
    requires f !in filters
    ensures KernelFilterDel(KernelFilterAdd(filters, f, None).0, f, None) == (filters, None)
  {
    assert (filters + {f}) - {f} == filters;
  }

  /** The kernel's answer to QdiscAdd of the ingress qdisc: EEXIST when it is already there. */
  function KernelQdiscAdd(present: bool, fault: Option<Error>): (bool, Option<Error>)
  {
    if fault.Some? then (present, fault)
    else if present then (present, Some(Sys(EEXIST)))
    else (true, None)
  }

  /** EnsureIngressQDisc's outcome: the kernel's, with "exists" counted as success. */
  function EnsureIngressEffect(present: bool, fault: Option<Error>): (bool, Option<Error>)
  {
    var (now, err) := KernelQdiscAdd(present, fault);
    (now, if err.Some? && !IsExist(err.value) then err else None)
  }

  /**
   * Without a kernel refusal, ensuring succeeds and leaves the qdisc in place
   * whatever was there before, so a second call changes nothing; a refusal
   * is returned unless it is an "exists" error.
   */
  lemma EnsureIngressIdempotent(present: bool, fault: Option<Error>)
    ensures EnsureIngressEffect(present, None) == (true, None)
    ensures EnsureIngressEffect(EnsureIngressEffect(present, None).0, None) == EnsureIngressEffect(present, None)
    ensures fault.Some? ==>
      EnsureIngressEffect(present, fault) == (present, if IsExist(fault.value) then None else fault)
  {
  }

  /**
   * A TC engine bound to a parent (node-facing) and a target (VM-facing)
   * link. `filters` and `ingress` stand for the kernel state of the parent:
   * its u32 filters and whether it carries the ingress qdisc ffff:.
   */
  class TC {
    const ifParent: Link
    const ifTarget: Link
    var filters: set<U32Filter>
    var ingress: bool

    constructor (ifParent: Link, ifTarget: Link, filters: set<U32Filter>, ingress: bool)
      ensures this.ifParent == ifParent && this.ifTarget == ifTarget
      ensures this.filters == filters && this.ingress == ingress
    {
      this.ifParent := ifParent;
      this.ifTarget := ifTarget;
      this.filters := filters;
      this.ingress := ingress;
    }

    /**
     * vmPacketFilter: priority 2 on the parent's ingress qdisc, terminal,
     * one mirred redirect to the target, and the keys of `mac` at -16/-12
     * plus the DHCP client port (see VmPacketFilterMatches).
     */
    function VmPacketFilter(mac: seq<bv8>): (f: U32Filter)
      requires |mac| >= 6
      ensures f.linkIndex == ifParent.index && f.parent == IngressHandle
      ensures f.priority == 2 && f.protocol == ETH_P_IP
      ensures f.flags == TC_U32_TERMINAL && f.actions == [MirredRedirect(ifTarget.index)]
      ensures f.keys == [U32Key(-16, 0x0000ffff, ParseMAC(mac).hi), U32Key(-12, 0xffffffff, ParseMAC(mac).lo),
                         U32Key(20, 0x0000ffff, DhcpClientPort)]
    {
      var h := ParseMAC(mac);
      U32Filter(
        ifParent.index, MakeHandle(0xffff, 0), 2, ETH_P_IP, TC_U32_TERMINAL,
        [U32Key(-16, 0x0000ffff, h.hi), U32Key(-12, 0xffffffff, h.lo), U32Key(20, 0x0000ffff, 0x00000044)],
        [MirredRedirect(ifTarget.index)])
    }

    /**
     * mangledPacketFilter: priority 1, below the redirect's 2, terminal, one
     * accept action, and the keys of `mac` at -8/-4 plus the DHCP client
     * port (see MangledPacketFilterMatches for what those offsets compare).
     */
    function MangledPacketFilter(mac: seq<bv8>): (f: U32Filter)
      requires |mac| >= 6
      ensures f.linkIndex == ifParent.index && f.parent == IngressHandle
      ensures f.priority == 1 && f.priority < VmPacketFilter(mac).priority && f.protocol == ETH_P_IP
      ensures f.flags == TC_U32_TERMINAL && f.actions == [Gact(TC_ACT_OK)]
      ensures f.keys == [U32Key(-8, 0x0000ffff, ParseMAC(mac).hi), U32Key(-4, 0xffffffff, ParseMAC(mac).lo),
                         U32Key(20, 0x0000ffff, DhcpClientPort)]
    {
      var h := ParseMAC(mac);
      U32Filter(
        ifParent.index, MakeHandle(0xffff, 0), 1, ETH_P_IP, TC_U32_TERMINAL,
        [U32Key(-8, 0x0000ffff, h.hi), U32Key(-4, 0xffffffff, h.lo), U32Key(20, 0x0000ffff, 0x00000044)],
        [Gact(TC_ACT_OK)])
    }

    /**
     * The loop guard with the offsets its "match source mac" intent needs:
     * the source MAC starts eight bytes before the network header, so its
     * first two bytes are the low half of the word at -10 and the other four
     * the word at -6 (see SourceMacFilterMatches). Everything else is as in
     * MangledPacketFilter.
     */
    function SourceMacFilter(mac: seq<bv8>): (f: U32Filter)
      requires |mac| >= 6
      ensures f.linkIndex == ifParent.index && f.parent == IngressHandle
      ensures f.priority == 1 && f.priority < VmPacketFilter(mac).priority && f.protocol == ETH_P_IP
      ensures f.flags == TC_U32_TERMINAL && f.actions == [Gact(TC_ACT_OK)]
      ensures f.keys == [U32Key(-10, 0x0000ffff, ParseMAC(mac).hi), U32Key(-6, 0xffffffff, ParseMAC(mac).lo),
                         U32Key(20, 0x0000ffff, DhcpClientPort)]
    {
      var h := ParseMAC(mac);
      U32Filter(
        ifParent.index, MakeHandle(0xffff, 0), 1, ETH_P_IP, TC_U32_TERMINAL,
        [U32Key(-10, 0x0000ffff, h.hi), U32Key(-6, 0xffffffff, h.lo), U32Key(20, 0x0000ffff, 0x00000044)],
        [Gact(TC_ACT_OK)])
    }

    /** Add: FilterAdd of the redirect filter for `mac`. */
    method Add(mac: seq<bv8>, fault: Option<Error>) returns (err: Option<Error>)
      requires |mac| >= 6
      modifies this`filters
      ensures (filters, err) == KernelFilterAdd(old(filters), VmPacketFilter(mac), fault)
    {
      var f := VmPacketFilter(mac);
      if fault.Some? {
        err := fault;
      } else {
        filters := filters + {f};
        err := None;
      }
    }

    /** Del: FilterDel of the same redirect filter Add builds for `mac`. */
    method Del(mac: seq<bv8>, fault: Option<Error>) returns (err: Option<Error>)
      requires |mac| >= 6
      modifies this`filters
      ensures (filters, err) == KernelFilterDel(old(filters), VmPacketFilter(mac), fault)
    {
      var f := VmPacketFilter(mac);
      if fault.Some? {
        err := fault;
      } else if f in filters {
        filters := filters - {f};
        err := None;
      } else {
        err := Some(Sys(ENOENT));
      }
    }

    /** EnsureIngressQDisc: QdiscAdd of ffff:, where "exists" counts as success. */
    method EnsureIngressQDisc(fault: Option<Error>) returns (err: Option<Error>)
      modifies this`ingress
      ensures (ingress, err) == EnsureIngressEffect(old(ingress), fault)
    {
      var kernelErr: Option<Error>;
      if fault.Some? {
        kernelErr := fault;
      } else if ingress {
        kernelErr := Some(Sys(EEXIST));
      } else {
        ingress := true;
        kernelErr := None;
      }
      if kernelErr.Some? && !IsExist(kernelErr.value) {
        err := kernelErr;
      } else {
        err := None;
      }
    }

    /** AddMangledPacketsFilter: the loop guard, built from the target link's own address. */
    method AddMangledPacketsFilter(fault: Option<Error>) returns (err: Option<Error>)
      requires |ifTarget.hardwareAddr| >= 6
      modifies this`filters
      ensures (filters, err) == KernelFilterAdd(old(filters), MangledPacketFilter(ifTarget.hardwareAddr), fault)
    {
      var f := MangledPacketFilter(ifTarget.hardwareAddr);
      if fault.Some? {
        err := fault;
      } else {
        filters := filters + {f};
        err := None;
      }
    }

    /** RemoveMangledPacketsFilter: deletes the loop guard built from the target link's address. */
    method RemoveMangledPacketsFilter(fault: Option<Error>) returns (err: Option<Error>)
      requires |ifTarget.hardwareAddr| >= 6
      modifies this`filters
      ensures (filters, err) == KernelFilterDel(old(filters), MangledPacketFilter(ifTarget.hardwareAddr), fault)
    {
      var f := MangledPacketFilter(ifTarget.hardwareAddr);
      if fault.Some? {
        err := fault;
      } else if f in filters {
        filters := filters - {f};
        err := None;
      } else {
        err := Some(Sys(ENOENT));
      }
    }
  }

  /** NewTC: looks up the parent, then the target; the first failed lookup is returned. */
  method NewTC(parent: Result<Link, Error>, target: Result<Link, Error>, filters: set<U32Filter>, ingress: bool)
    returns (r: Result<TC, Error>)
    ensures parent.Failure? ==> r == Failure(parent.error)
    ensures parent.Success? && target.Failure? ==> r == Failure(target.error)
    ensures parent.Success? && target.Success? ==>
      r.Success? && fresh(r.value) && r.value.ifParent == parent.value && r.value.ifTarget == target.value &&
      r.value.filters == filters && r.value.ingress == ingress
  {
    if parent.Failure? {
      return Failure(parent.error);
    }
    if target.Failure? {
      return Failure(target.error);
    }
    var tc := new TC(parent.value, target.value, filters, ingress);
    r := Success(tc);
  }

  /**
   * Under the untagged-Ethernet, 20-byte-IPv4 layout, the redirect filter's
   * keys all match exactly when the destination MAC is `mac` and the UDP
   * destination port is 68.
   */
  lemma VmPacketFilterMatches(t: TC, mac: seq<bv8>, p: Skb)
    requires |mac| >= 6 && UntaggedUdp(p)
    ensures KeysMatch(p, t.VmPacketFilter(mac).keys) <==> DestinationMac(p) == mac[..6] && UdpDestinationPort(p) == 68
  {
    MacKeysMatch(p, t.VmPacketFilter(mac).keys, mac, p.nh - 14);
  }

  /**
   * The loop guard's keys at -8/-4 compare the six bytes just in front of
   * the IPv4 header (source MAC bytes 2..5 and the EtherType) with `mac`,
   * not the source MAC, which starts eight bytes before the header.
   */
  lemma MangledPacketFilterMatches(t: TC, mac: seq<bv8>, p: Skb)
    requires |mac| >= 6 && UntaggedUdp(p)
    ensures KeysMatch(p, t.MangledPacketFilter(mac).keys) <==>
      p.data[p.nh - 6..p.nh] == mac[..6] && UdpDestinationPort(p) == 68
  {
    MacKeysMatch(p, t.MangledPacketFilter(mac).keys, mac, p.nh - 6);
  }

  /**
   * So on an IPv4 frame the loop guard can only match when the address ends
   * in 08:00 (the IPv4 EtherType): for any other address it matches no frame,
   * whatever its source MAC.
   */
  lemma MangledPacketFilterMissesIPv4(t: TC, mac: seq<bv8>, p: Skb)
    requires |mac| >= 6 && UntaggedUdp(p) && EtherType(p) == 0x0800
    requires !(mac[4] == 0x08 && mac[5] == 0x00)
    ensures !KeysMatch(p, t.MangledPacketFilter(mac).keys)
  {
    MangledPacketFilterMatches(t, mac, p);
    Be16Eq(p.data[p.nh - 2], p.data[p.nh - 1], 0x08, 0x00);
    var before := p.data[p.nh - 6..p.nh];
    assert before[4] == p.data[p.nh - 2] && before[5] == p.data[p.nh - 1];
    assert mac[..6][4] == mac[4] && mac[..6][5] == mac[5];
  }

  /**
   * The corrected loop guard matches an untagged IPv4 DHCP frame exactly
   * when its source MAC is `mac` and its UDP destination port is 68: the
   * frames the relay re-sends from the target link's address.
   */
  lemma SourceMacFilterMatches(t: TC, mac: seq<bv8>, p: Skb)
    requires |mac| >= 6 && UntaggedUdp(p)
    ensures KeysMatch(p, t.SourceMacFilter(mac).keys) <==> SourceMac(p) == mac[..6] && UdpDestinationPort(p) == 68
  {
    MacKeysMatch(p, t.SourceMacFilter(mac).keys, mac, p.nh - 8);
  }
}
