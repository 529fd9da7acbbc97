/**
 * The two MSP checksums: XOR (v1) and CRC8-DVB-S2 (v2, polynomial 0xD5).
 * Each has a specification by folding its one-byte step, an imperative form as the
 * source computes it, and the error-detection property both are there for.
 */
module MspChecksum {
  import opened MspTypes

  const CRC8_DVB_S2_POLY: byte := 0xd5

  /** Bitwise exclusive or of the low `width` bits. */
  function XorBits(a: nat, b: nat, width: nat): (r: nat)
    ensures r < Pow2(width)
  {
    if width == 0 then 0 else (a + b) % 2 + 2 * XorBits(a / 2, b / 2, width - 1)
  }

  function Xor(a: byte, b: byte): byte {
    assert Pow2(8) == 256;
    XorBits(a, b, 8)
  }

  lemma XorBitsParts(a: nat, b: nat, width: nat)
    requires width > 0
    ensures XorBits(a, b, width) % 2 == (a + b) % 2
    ensures XorBits(a, b, width) / 2 == XorBits(a / 2, b / 2, width - 1)
  {
    var rest := XorBits(a / 2, b / 2, width - 1);
    HalfOf((a + b) % 2, rest);
  }

  lemma HalfOf(bit: nat, rest: nat)
    requires bit < 2
    ensures (bit + 2 * rest) / 2 == rest && (bit + 2 * rest) % 2 == bit
  {
  }

  lemma ParityCancels(a: nat, b: nat, x: nat)
    requires x % 2 == (a + b) % 2
    ensures (x + b) % 2 == a % 2
  {
  }

  lemma {:induction false} XorBitsInvolution(a: nat, b: nat, width: nat)
    requires a < Pow2(width)
    ensures XorBits(XorBits(a, b, width), b, width) == a
  {
    if width > 0 {
      var x := XorBits(a, b, width);
      XorBitsParts(a, b, width);
      ParityCancels(a, b, x);
      XorBitsInvolution(a / 2, b / 2, width - 1);
    }
  }

  lemma {:induction false} XorBitsCommutes(a: nat, b: nat, width: nat)
    ensures XorBits(a, b, width) == XorBits(b, a, width)
  {
    if width > 0 {
      XorBitsCommutes(a / 2, b / 2, width - 1);
    }
  }

  /** XOR is injective in each argument. */
  lemma XorInjective(a: byte, b: byte, c: byte)
    requires a != b
    ensures Xor(a, c) != Xor(b, c)
    ensures Xor(c, a) != Xor(c, b)
  {
    assert Pow2(8) == 256;
    XorBitsInvolution(a, c, 8);
    XorBitsInvolution(b, c, 8);
    XorBitsCommutes(a, c, 8);
    XorBitsCommutes(b, c, 8);
  }

  /** One shift of the CRC register, most significant bit first. */
  function CrcShift(c: byte): byte {
    if c >= 0x80 then Xor((2 * c) % 256, CRC8_DVB_S2_POLY) else 2 * c
  }

  function CrcShifts(c: byte, n: nat): byte {
    if n == 0 then c else CrcShift(CrcShifts(c, n - 1))
  }

  function XorStep(crc: byte, b: byte): byte {
    Xor(crc, b)
  }

  function CrcStep(crc: byte, b: byte): byte {
    CrcShifts(Xor(crc, b), 8)
  }

  /** The polynomial is odd, so the two branches of a shift have disjoint ranges. */
  lemma CrcShiftInjective(a: byte, b: byte)
    requires a != b
    ensures CrcShift(a) != CrcShift(b)
  {
    hide Xor;
    if a >= 0x80 && b >= 0x80 {
      XorInjective((2 * a) % 256, (2 * b) % 256, CRC8_DVB_S2_POLY);
    } else if a >= 0x80 {
      XorWithOddIsOdd((2 * a) % 256);
    } else if b >= 0x80 {
      XorWithOddIsOdd((2 * b) % 256);
    }
  }

  lemma XorWithOddIsOdd(even: byte)
    requires even % 2 == 0
    ensures Xor(even, CRC8_DVB_S2_POLY) % 2 == 1
  {
    XorBitsParts(even, CRC8_DVB_S2_POLY, 8);
  }

  lemma {:induction false} CrcShiftsInjective(a: byte, b: byte, n: nat)
    requires a != b
    ensures CrcShifts(a, n) != CrcShifts(b, n)
  {
    hide Xor, CrcShift;
    if n > 0 {
      CrcShiftsInjective(a, b, n - 1);
      CrcShiftInjective(CrcShifts(a, n - 1), CrcShifts(b, n - 1));
    }
  }

  /** Both steps are injective in the register and in the byte. */
  lemma StepsInjective(a: byte, b: byte, c: byte)
    requires a != b
    ensures XorStep(a, c) != XorStep(b, c) && XorStep(c, a) != XorStep(c, b)
    ensures CrcStep(a, c) != CrcStep(b, c) && CrcStep(c, a) != CrcStep(c, b)
  {
    hide Xor, CrcShift;
    XorInjective(a, b, c);
    CrcShiftsInjective(Xor(a, c), Xor(b, c), 8);
    CrcShiftsInjective(Xor(c, a), Xor(c, b), 8);
  }

  /** The checksum of a message, byte by byte from the left. */
  function XorSum(initial: byte, bytes: seq<byte>): byte {
    if bytes == [] then initial
    else XorStep(XorSum(initial, bytes[..|bytes| - 1]), bytes[|bytes| - 1])
  }

  function CrcSum(initial: byte, bytes: seq<byte>): byte {
    if bytes == [] then initial
    else CrcStep(CrcSum(initial, bytes[..|bytes| - 1]), bytes[|bytes| - 1])
  }

  lemma SumsAppend(initial: byte, bytes: seq<byte>, b: byte)
    ensures XorSum(initial, bytes + [b]) == XorStep(XorSum(initial, bytes), b)
    ensures CrcSum(initial, bytes + [b]) == CrcStep(CrcSum(initial, bytes), b)
  {
    hide XorStep, CrcStep;
    assert (bytes + [b])[..|bytes|] == bytes;
  }

  /**
   * Changing exactly one byte of a message of any length changes both checksums,
   * whatever the initial register.
   */
  lemma {:induction false} SingleByteChangeDetected(initial: byte, m: seq<byte>, i: nat, b: byte)
    requires i < |m| && m[i] != b
    ensures XorSum(initial, m[i := b]) != XorSum(initial, m)
    ensures CrcSum(initial, m[i := b]) != CrcSum(initial, m)
  {
    hide XorStep, CrcStep;
    var last := |m| - 1;
    var changed := m[i := b];
    if i == last {
      assert changed[..last] == m[..last];
      StepsInjective(m[last], b, XorSum(initial, m[..last]));
      StepsInjective(m[last], b, CrcSum(initial, m[..last]));
    } else {
      assert changed[..last] == m[..last][i := b];
      SingleByteChangeDetected(initial, m[..last], i, b);
      StepsInjective(XorSum(initial, changed[..last]), XorSum(initial, m[..last]), m[last]);
      StepsInjective(CrcSum(initial, changed[..last]), CrcSum(initial, m[..last]), m[last]);
    }
  }

  method Crc8DvbS2Step(crc: byte, b: byte) returns (c: byte)
    ensures c == CrcStep(crc, b)
  {
    c := Xor(crc, b);
    for i := 0 to 8
      invariant c == CrcShifts(Xor(crc, b), i)
    {
      if c >= 0x80 {
        c := Xor((2 * c) % 256, CRC8_DVB_S2_POLY);
      } else {
        c := (2 * c) % 256;
      }
    }
  }

  method XorChecksum(bytes: seq<byte>, initial: byte) returns (crc: byte)
    ensures crc == XorSum(initial, bytes)
  {
    crc := initial;
    for i := 0 to |bytes|
      invariant crc == XorSum(initial, bytes[..i])
    {
      assert bytes[..i + 1][..i] == bytes[..i];
      crc := XorStep(crc, bytes[i]);
    }
    assert bytes[..|bytes|] == bytes;
  }

  method Crc8DvbS2(bytes: seq<byte>, initial: byte) returns (crc: byte)
    ensures crc == CrcSum(initial, bytes)
  {
    crc := initial;
    for i := 0 to |bytes|
      invariant crc == CrcSum(initial, bytes[..i])
    {
      assert bytes[..i + 1][..i] == bytes[..i];
      crc := Crc8DvbS2Step(crc, bytes[i]);
    }
    assert bytes[..|bytes|] == bytes;
  }
}
