/**
 * Hardware addresses in text: Go's net.ParseMAC, which reads the
 * colon, hyphen and dot notations of 6-, 8- and 20-byte addresses, and
 * HardwareAddr.String, which writes lower-case hex pairs joined by colons.
 */
module HardwareAddr {
  import opened Wrappers
  import opened Errors

  /** The value of one hex digit, of either case. */
  function HexValue(c: char): (v: Option<nat>)
    ensures v.Some? ==> v.value < 16
  {
    if '0' <= c <= '9' then Some(c as int - '0' as int)
    else if 'a' <= c <= 'f' then Some(c as int - 'a' as int + 10)
    else if 'A' <= c <= 'F' then Some(c as int - 'A' as int + 10)
    else None
  }

  /** The lower-case hex digit of a value below 16. */
  function HexDigit(d: nat): (c: char)
    requires d < 16
    ensures HexValue(c) == Some(d)
    ensures c != ':' && c != ';' && c != '='
  {
    if d < 10 then ('0' as int + d) as char else ('a' as int + d - 10) as char
  }

  /** Two hex digits as one byte, high nibble first: xtoi2 without its separator test. */
  function HexByte(hi: char, lo: char): Option<bv8>
  {
    match (HexValue(hi), HexValue(lo))
    case (Some(h), Some(l)) => Some(((h as bv8) << 4) | (l as bv8))
    case _ => None
  }

  /** The two hex digits of a byte, high nibble first. */
  function HexPair(b: bv8): (s: string)
    ensures |s| == 2 && s[0] != ':' && s[1] != ':'
  {
    [HexDigit((b >> 4) as nat), HexDigit((b & 0xf) as nat)]
  }

  /** Converting a byte to a number and back gives the byte. */
  lemma ByteNat(b: bv8)
    ensures (b as nat) as bv8 == b
  {
  }

  /** A byte is its two nibbles put back together. */
  lemma Nibbles(b: bv8)
    ensures ((b >> 4) << 4) | (b & 0xf) == b
  {
  }

  /** Reading a written pair gives back the byte. */
  lemma HexPairRoundTrip(b: bv8)
    ensures HexByte(HexPair(b)[0], HexPair(b)[1]) == Some(b)
  {
    var hi, lo := b >> 4, b & 0xf;
    ByteNat(hi);
    ByteNat(lo);
    Nibbles(b);
    assert HexValue(HexPair(b)[0]) == Some(hi as nat);
    assert HexValue(HexPair(b)[1]) == Some(lo as nat);
  }

  /**
   * `n` bytes written as hex pairs with `sep` between them: the colon or
   * hyphen notation. Every pair but the last must be followed by `sep`.
   */
  function SeparatedPairs(s: string, sep: char, n: nat): (r: Option<seq<bv8>>)
    requires n >= 1 && |s| == 3 * n - 1
    ensures r.Some? ==> |r.value| == n
    decreases n
  {
    if n > 1 && s[2] != sep then None
    else match HexByte(s[0], s[1])
      case None => None
      case Some(b) =>
        if n == 1 then Some([b])
        else match SeparatedPairs(s[3..], sep, n - 1)
          case None => None
          case Some(rest) => Some([b] + rest)
  }

  /** `k` groups of four hex digits with `sep` between them: the dot notation, two bytes per group. */
  function DottedQuads(s: string, sep: char, k: nat): (r: Option<seq<bv8>>)
    requires k >= 1 && |s| == 5 * k - 1
    ensures r.Some? ==> |r.value| == 2 * k
    decreases k
  {
    if k > 1 && s[4] != sep then None
    else match (HexByte(s[0], s[1]), HexByte(s[2], s[3]))
      case (Some(a), Some(b)) =>
        if k == 1 then Some([a, b])
        else (match DottedQuads(s[5..], sep, k - 1)
          case None => None
          case Some(rest) => Some([a, b] + rest))
      case _ => None
  }

  /** The *net.AddrError ParseMAC answers with. */
  function InvalidMAC(s: string): Error
  {
    Other("address " + s + ": invalid MAC address")
  }

  /** The byte counts ParseMAC accepts: EUI-48, EUI-64 and 20-byte InfiniBand addresses. */
  predicate ValidLength(n: nat)
  {
    n == 6 || n == 8 || n == 20
  }

  /** net.ParseMAC. */
  function ParseMAC(s: string): (r: Result<seq<bv8>, Error>)
    ensures r.Success? ==> ValidLength(|r.value|)
    ensures r.Failure? ==> r.error == InvalidMAC(s)
    ensures |s| < 14 ==> r.Failure?
  {
    if |s| < 14 then Failure(InvalidMAC(s))
    else if s[2] == ':' || s[2] == '-' then
      if (|s| + 1) % 3 != 0 then Failure(InvalidMAC(s))
      else
        var n := (|s| + 1) / 3;
        if !ValidLength(n) then Failure(InvalidMAC(s))
        else match SeparatedPairs(s, s[2], n)
          case None => Failure(InvalidMAC(s))
          case Some(hw) => Success(hw)
    else if s[4] == '.' then
      if (|s| + 1) % 5 != 0 then Failure(InvalidMAC(s))
      else
        var n := 2 * (|s| + 1) / 5;
        if !ValidLength(n) then Failure(InvalidMAC(s))
        else match DottedQuads(s, s[4], n / 2)
          case None => Failure(InvalidMAC(s))
          case Some(hw) => Success(hw)
    else Failure(InvalidMAC(s))
  }

  /** HardwareAddr.String: lower-case hex pairs joined by ":", and "" for no bytes. */
  function MacString(hw: seq<bv8>): (s: string)
    ensures |s| == if |hw| == 0 then 0 else 3 * |hw| - 1
    ensures ';' !in s && '=' !in s
  {
    if |hw| == 0 then ""
    else if |hw| == 1 then HexPair(hw[0])
    else HexPair(hw[0]) + ":" + MacString(hw[1..])
  }

  /** The pairs of a written address read back as its bytes. */
  lemma {:induction false} SeparatedPairsOfString(hw: seq<bv8>)
    requires |hw| >= 1
    ensures SeparatedPairs(MacString(hw), ':', |hw|) == Some(hw)
    decreases |hw|
  {
    var s := MacString(hw);
    var p := HexPair(hw[0]);
    HexPairRoundTrip(hw[0]);
    if |hw| == 1 {
      assert s == p && hw == [hw[0]];
    } else {
      var rest := MacString(hw[1..]);
      assert s == p + ":" + rest;
      assert s[0] == p[0] && s[1] == p[1] && s[2] == ':';
      assert s[3..] == rest;
      SeparatedPairsOfString(hw[1..]);
      assert [hw[0]] + hw[1..] == hw;
    }
  }

  /** ParseMAC reads back what String writes, for every length ParseMAC accepts. */
  lemma MacStringRoundTrip(hw: seq<bv8>)
    requires ValidLength(|hw|)
    ensures ParseMAC(MacString(hw)) == Success(hw)
  {
    var s := MacString(hw);
    assert s[2] == ':' by {
      assert s == HexPair(hw[0]) + ":" + MacString(hw[1..]);
    }
    assert |s| + 1 == 3 * |hw|;
    SeparatedPairsOfString(hw);
    ParseMACColonPairs(s, |hw|);
  }

  /** A text of the right length with ':' third is read as that many colon-separated pairs. */
  lemma ParseMACColonPairs(s: string, n: nat)
    requires ValidLength(n) && |s| + 1 == 3 * n && s[2] == ':'
    ensures ParseMAC(s) == match SeparatedPairs(s, ':', n)
                           case None => Failure(InvalidMAC(s))
                           case Some(hw) => Success(hw)
  {
    assert |s| >= 14;
    assert (|s| + 1) % 3 == 0 && (|s| + 1) / 3 == n;
  }

  /** Two example texts that are rejected: five colon pairs, and a separator that changes midway. */
  lemma ParseMACRejects()
    ensures ParseMAC("00:1a:2b:3c:4d").Failure?
    ensures ParseMAC("00:1a:2b-3c:4d:5e").Failure?
  {
    var bad := "00:1a:2b-3c:4d:5e";
    assert bad[3..][3..][2] == '-';
    assert SeparatedPairs(bad[3..][3..], ':', 4) == None;
  }
}
