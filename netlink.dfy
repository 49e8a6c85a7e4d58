/**
 * The kernel objects the node agent hands to netlink: links with their
 * attributes, IPv4 addresses and networks, and their text forms.
 */
module Netlink {
  import opened Wrappers
  import opened Strings

  /** A link as netlink.LinkByName returns it: index, name, type and hardware address. */
  datatype Link = Link(index: int, name: string, linkType: string, hardwareAddr: seq<bv8>)

  /** An IPv4 address, four bytes in network order. */
  type IPv4 = s: seq<bv8> | |s| == 4 witness [0, 0, 0, 0]

  /** An IPv4 network: an address and a mask. */
  datatype IPNet = IPNet(ip: IPv4, mask: IPv4)

  /** net.IPv4Mask(255, 255, 255, 255). */
  const HostMask: IPv4 := [0xff, 0xff, 0xff, 0xff]

  /** netlink.NewIPNet(ip) with its mask then set to /32: the network of exactly one host. */
  function HostNet(ip: IPv4): (n: IPNet)
    ensures n.ip == ip && n.mask == HostMask
  {
    IPNet(ip, HostMask)
  }

  /** Dotted-quad text of an address, as net.IP's String gives it for IPv4. */
  function IPText(ip: IPv4): string
  {
    NatToString(ip[0] as nat) + "." + NatToString(ip[1] as nat) + "." +
    NatToString(ip[2] as nat) + "." + NatToString(ip[3] as nat)
  }

  /** One decimal field of a dotted quad: digits (leading zeros allowed) of a value up to 255. */
  function ParseOctet(p: string): (r: Option<bv8>)
    ensures r.Some? ==> |p| > 0 && forall i :: 0 <= i < |p| ==> IsDigit(p[i])
  {
    if |p| > 0 && (forall i :: 0 <= i < |p| ==> IsDigit(p[i])) && DecimalValue(p) <= 255
    then Some(DecimalValue(p) as bv8)
    else None
  }

  /**
   * net.ParseIP on IPv4 text: exactly four decimal fields separated by
   * dots, each at most 255; anything else is no address (nil).
   */
  function ParseIP(s: string): (r: Option<IPv4>)
    ensures r.Some? ==> |Split(s, '.')| == 4
    ensures |s| == 0 ==> r.None?
  {
    var fields := Split(s, '.');
    if |fields| != 4 then None else ParseFields(fields)
  }

  /** Four fields, each read by ParseOctet. */
  function ParseFields(fields: seq<string>): Option<IPv4>
    requires |fields| == 4
  {
    match (ParseOctet(fields[0]), ParseOctet(fields[1]), ParseOctet(fields[2]), ParseOctet(fields[3]))
    case (Some(a), Some(b), Some(c), Some(d)) => Some([a, b, c, d])
    case _ => None
  }

  /** Text without the separator is a single field. */
  lemma SplitWithoutSep(s: string, sep: char)
    requires sep !in s
    ensures Split(s, sep) == [s]
  {
  }

  /** The decimal text of a byte reads back as that byte. */
  lemma ParseOctetRoundTrip(b: bv8)
    ensures ParseOctet(NatToString(b as nat)) == Some(b)
  {
    NatToStringRoundTrip(b as nat);
    assert (b as nat) as bv8 == b;
  }

  /** Decimal text holds no dot. */
  lemma NoDotInDecimal(n: nat)
    ensures '.' !in NatToString(n)
  {
    var t := NatToString(n);
    assert forall i :: 0 <= i < |t| ==> IsDigit(t[i]);
  }

  /** Three dots join four dot-free fields, and splitting at dots gives the four fields back. */
  lemma SplitFourFields(n0: string, n1: string, n2: string, n3: string)
    requires '.' !in n0 && '.' !in n1 && '.' !in n2 && '.' !in n3
    ensures Split(n0 + "." + n1 + "." + n2 + "." + n3, '.') == [n0, n1, n2, n3]
  {
    var a := n0 + "." + n1;
    var b := a + "." + n2;
    assert n0 + "." + n1 + "." + n2 + "." + n3 == b + ['.'] + n3;
    assert a + "." + n2 == a + ['.'] + n2;
    assert n0 + "." + n1 == n0 + ['.'] + n1;
    SplitConcat(b, n3, '.');
    SplitConcat(a, n2, '.');
    SplitConcat(n0, n1, '.');
    SplitWithoutSep(n0, '.');
    SplitWithoutSep(n1, '.');
    SplitWithoutSep(n2, '.');
    SplitWithoutSep(n3, '.');
  }

  /** ParseIP reads back the dotted-quad text of every address. */
  lemma ParseIPRoundTrip(ip: IPv4)
    ensures ParseIP(IPText(ip)) == Some(ip)
  {
    var fields := Split(IPText(ip), '.');
    IPTextFields(ip);
    ParseOctetRoundTrip(ip[0]);
    ParseOctetRoundTrip(ip[1]);
    ParseOctetRoundTrip(ip[2]);
    ParseOctetRoundTrip(ip[3]);
    ParseFieldsOf(fields, ip);
  }

  /** The fields of an address's text are the decimal texts of its bytes. */
  lemma IPTextFields(ip: IPv4)
    ensures Split(IPText(ip), '.') ==
      [NatToString(ip[0] as nat), NatToString(ip[1] as nat), NatToString(ip[2] as nat), NatToString(ip[3] as nat)]
  {
    NoDotInDecimal(ip[0] as nat);
    NoDotInDecimal(ip[1] as nat);
    NoDotInDecimal(ip[2] as nat);
    NoDotInDecimal(ip[3] as nat);
    SplitFourFields(NatToString(ip[0] as nat), NatToString(ip[1] as nat), NatToString(ip[2] as nat), NatToString(ip[3] as nat));
  }

  /** Four fields that each read as the matching byte read as the address. */
  lemma ParseFieldsOf(fields: seq<string>, ip: IPv4)
    requires |fields| == 4
    requires forall i :: 0 <= i < 4 ==> ParseOctet(fields[i]) == Some(ip[i])
    ensures ParseFields(fields) == Some(ip)
  {
    assert ParseOctet(fields[0]) == Some(ip[0]);
    assert ParseOctet(fields[1]) == Some(ip[1]);
    assert ParseOctet(fields[2]) == Some(ip[2]);
    assert ParseOctet(fields[3]) == Some(ip[3]);
    assert [ip[0], ip[1], ip[2], ip[3]] == ip;
  }

  /** Addresses with different text are different: IPText is injective. */
  lemma IPTextInjective(x: IPv4, y: IPv4)
    requires IPText(x) == IPText(y)
    ensures x == y
  {
    ParseIPRoundTrip(x);
    ParseIPRoundTrip(y);
  }
}
