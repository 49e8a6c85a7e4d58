/** Big-endian reading of bytes into the 16- and 32-bit words of the u32 classifier. */
module BigEndian {

  /** Two bytes read as a big-endian 16-bit value. */
  function Be16(b0: bv8, b1: bv8): bv32
  {
    (b0 as bv32 << 8) | b1 as bv32
  }

  /** Four bytes read as a big-endian 32-bit value (binary.BigEndian.Uint32). */
  function Be32(b0: bv8, b1: bv8, b2: bv8, b3: bv8): bv32
  {
    (b0 as bv32 << 24) | (b1 as bv32 << 16) | (b2 as bv32 << 8) | b3 as bv32
  }

  /** The upper half of a big-endian word is its first two bytes. */
  lemma UpperHalf(b0: bv8, b1: bv8, b2: bv8, b3: bv8)
    ensures (Be32(b0, b1, b2, b3) >> 16) & 0x0000ffff == Be16(b0, b1)
  {
  }

  /** Two bytes read big-endian stay below 2^16. */
  lemma Be16Bound(b0: bv8, b1: bv8)
    ensures Be16(b0, b1) < 0x1_0000
  {
  }

  /** The bytes of a 16-bit big-endian value. */
  lemma Be16Bytes(b0: bv8, b1: bv8)
    ensures ((Be16(b0, b1) >> 8) & 0xff) as bv8 == b0 && (Be16(b0, b1) & 0xff) as bv8 == b1
  {
  }

  /** The bytes of a 32-bit big-endian value. */
  lemma Be32Bytes(b0: bv8, b1: bv8, b2: bv8, b3: bv8)
    ensures (Be32(b0, b1, b2, b3) >> 24) as bv8 == b0
    ensures ((Be32(b0, b1, b2, b3) >> 16) & 0xff) as bv8 == b1
    ensures ((Be32(b0, b1, b2, b3) >> 8) & 0xff) as bv8 == b2
    ensures (Be32(b0, b1, b2, b3) & 0xff) as bv8 == b3
  {
  }

  /** A value below 2^16 is the big-endian reading of its two low bytes. */
  lemma Be16OfBytes(v: bv32)
    requires v < 0x1_0000
    ensures Be16(((v >> 8) & 0xff) as bv8, (v & 0xff) as bv8) == v
  {
  }

  /** Any value is the big-endian reading of its four bytes. */
  lemma Be32OfBytes(v: bv32)
    ensures Be32((v >> 24) as bv8, ((v >> 16) & 0xff) as bv8, ((v >> 8) & 0xff) as bv8, (v & 0xff) as bv8) == v
  {
  }

  /** Big-endian readings are equal exactly when the bytes are. */
  lemma Be16Eq(x0: bv8, x1: bv8, y0: bv8, y1: bv8)
    ensures Be16(x0, x1) == Be16(y0, y1) <==> x0 == y0 && x1 == y1
  {
    Be16Bytes(x0, x1);
    Be16Bytes(y0, y1);
  }

  lemma Be32Eq(x0: bv8, x1: bv8, x2: bv8, x3: bv8, y0: bv8, y1: bv8, y2: bv8, y3: bv8)
    ensures Be32(x0, x1, x2, x3) == Be32(y0, y1, y2, y3) <==> x0 == y0 && x1 == y1 && x2 == y2 && x3 == y3
  {
    Be32Bytes(x0, x1, x2, x3);
    Be32Bytes(y0, y1, y2, y3);
  }

  /** Masking the xor of a word and a 16-bit value with 0x0000ffff compares the word's last two bytes. */
  lemma LowHalfMasked(b0: bv8, b1: bv8, b2: bv8, b3: bv8, v: bv32)
    requires v < 0x1_0000
    ensures (Be32(b0, b1, b2, b3) ^ v) & 0x0000ffff == 0 ==> Be16(b2, b3) == v
    ensures Be16(b2, b3) == v ==> (Be32(b0, b1, b2, b3) ^ v) & 0x0000ffff == 0
  {
  }
}
