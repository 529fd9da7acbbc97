/**
 * The two checksums bit by bit: XOR on each bit alone, and CRC8-DVB-S2 as a shift register with feedback into the
 * positions of its polynomial x^8 + x^7 + x^6 + x^4 + x^2 + 1.
 */
module MspChecksumBits {
  import opened MspTypes
  import opened MspChecksum

  /** A byte, most significant bit first. */
  datatype Bits = Bits(b7: bool, b6: bool, b5: bool, b4: bool, b3: bool, b2: bool, b1: bool, b0: bool)

  function Digit(bit: bool): (d: nat)
    ensures d <= 1
  {
    if bit then 1 else 0
  }

  /** A number from its lowest bit and the rest of it. */
  function Join(low: nat, rest: nat): nat {
    low + 2 * rest
  }

  function LowBits(c: Bits): nat {
    Join(Digit(c.b0), Join(Digit(c.b1), Join(Digit(c.b2), Join(Digit(c.b3), Join(Digit(c.b4), Join(Digit(c.b5),
      Digit(c.b6)))))))
  }

  function HighBits(c: Bits): nat {
    Join(Digit(c.b4), Join(Digit(c.b5), Join(Digit(c.b6), Digit(c.b7))))
  }

  function ValueOf(c: Bits): byte {
    InRange(c);
    Join(Digit(c.b0), Join(Digit(c.b1), Join(Digit(c.b2), Join(Digit(c.b3), HighBits(c)))))
  }

  lemma InRange(c: Bits)
    ensures LowBits(c) < 128
    ensures Join(Digit(c.b0), Join(Digit(c.b1), Join(Digit(c.b2), Join(Digit(c.b3), HighBits(c)))))
            == LowBits(c) + 128 * Digit(c.b7)
  {
    hide Digit;
  }

  function ValuesOf(m: seq<Bits>): seq<byte> {
    seq(|m|, i requires 0 <= i < |m| => ValueOf(m[i]))
  }

  predicate Differ(d: bool, e: bool) {
    d != e
  }

  function Either(a: Bits, b: Bits): Bits {
    Bits(Differ(a.b7, b.b7), Differ(a.b6, b.b6), Differ(a.b5, b.b5), Differ(a.b4, b.b4),
         Differ(a.b3, b.b3), Differ(a.b2, b.b2), Differ(a.b1, b.b1), Differ(a.b0, b.b0))
  }

  /** The register moves one place up, and the bit that falls out is fed back. */
  function Shift(c: Bits): Bits {
    Bits(c.b6 != c.b7, c.b5 != c.b7, c.b4, c.b3 != c.b7, c.b2, c.b1 != c.b7, c.b0, c.b7)
  }

  function Shifts(c: Bits, n: nat): Bits {
    if n == 0 then c else Shift(Shifts(c, n - 1))
  }

  const ZERO := Bits(false, false, false, false, false, false, false, false)

  /** Each byte joins the register, which then is shifted eight times. */
  function Register(m: seq<Bits>): Bits {
    if m == [] then ZERO else Shifts(Either(Register(m[..|m| - 1]), m[|m| - 1]), 8)
  }

  /** The parity of each bit over a whole message. */
  function Parities(m: seq<Bits>): Bits {
    if m == [] then ZERO else Either(Parities(m[..|m| - 1]), m[|m| - 1])
  }

  // ---------------------------------------------------------------- numbers and their bits

  function BitsOf(c: byte): Bits {
    var c1 := c / 2;
    var c2 := c1 / 2;
    var c3 := c2 / 2;
    var c4 := c3 / 2;
    var c5 := c4 / 2;
    var c6 := c5 / 2;
    Bits(c6 / 2 == 1, c6 % 2 == 1, c5 % 2 == 1, c4 % 2 == 1, c3 % 2 == 1, c2 % 2 == 1, c1 % 2 == 1, c % 2 == 1)
  }

  lemma Halve(x: nat)
    ensures Join(Digit(x % 2 == 1), x / 2) == x
  {
  }

  /** Every byte is the value of its bits. */
  lemma EveryByteHasBits(c: byte)
    ensures ValueOf(BitsOf(c)) == c
  {
    hide Digit, Join;
    var c1 := c / 2;
    var c2 := c1 / 2;
    var c3 := c2 / 2;
    var c4 := c3 / 2;
    var c5 := c4 / 2;
    var c6 := c5 / 2;
    assert c6 / 2 <= 1;
    OneDigit(c6 / 2);
    Halve(c6);
    Halve(c5);
    Halve(c4);
    Halve(c3);
    Halve(c2);
    Halve(c1);
    Halve(c);
  }

  lemma OneDigit(x: nat)
    requires x <= 1
    ensures Digit(x == 1) == x
  {
  }

  // ---------------------------------------------------------------- XOR

  lemma SumOfDigits(d: bool, e: bool, rest: nat)
    ensures (Digit(d) + Digit(e) + 2 * rest) % 2 == Digit(Differ(d, e))
  {
    if d && e {
      assert 2 + 2 * rest == 2 * (rest + 1);
    }
  }

  lemma RestOfJoin(d: bool, x: nat)
    ensures Join(Digit(d), x) / 2 == x && Join(Digit(d), x) == Digit(d) + 2 * x
  {
  }

  /** One bit in front of two numbers. */
  lemma XorCons(d: bool, e: bool, x: nat, y: nat, width: nat)
    ensures XorBits(Join(Digit(d), x), Join(Digit(e), y), width + 1) == Join(Digit(Differ(d, e)), XorBits(x, y, width))
  {
    hide Digit, Differ;
    RestOfJoin(d, x);
    RestOfJoin(e, y);
    SumOfDigits(d, e, x + y);
  }

  lemma XorOfDigits(d: bool, e: bool)
    ensures XorBits(Digit(d), Digit(e), 1) == Digit(Differ(d, e))
  {
    assert XorBits(Digit(d) / 2, Digit(e) / 2, 0) == 0;
    SumOfDigits(d, e, 0);
  }

  /** The XOR of the four highest bits. */
  lemma XorOfHighBits(a: Bits, b: Bits)
    ensures XorBits(HighBits(a), HighBits(b), 4) == HighBits(Either(a, b))
  {
    hide Digit, Join, XorBits, Differ;
    var x7, y7 := Digit(a.b7), Digit(b.b7);
    var x6, y6 := Join(Digit(a.b6), x7), Join(Digit(b.b6), y7);
    var x5, y5 := Join(Digit(a.b5), x6), Join(Digit(b.b5), y6);
    XorOfDigits(a.b7, b.b7);
    XorCons(a.b6, b.b6, x7, y7, 1);
    XorCons(a.b5, b.b5, x6, y6, 2);
    XorCons(a.b4, b.b4, x5, y5, 3);
  }

  /** XOR works on each bit alone. */
  lemma XorBitByBit(a: Bits, b: Bits)
    ensures Xor(ValueOf(a), ValueOf(b)) == ValueOf(Either(a, b))
  {
    hide Digit, Join, XorBits, Differ, HighBits;
    var x4, y4 := HighBits(a), HighBits(b);
    var x3, y3 := Join(Digit(a.b3), x4), Join(Digit(b.b3), y4);
    var x2, y2 := Join(Digit(a.b2), x3), Join(Digit(b.b2), y3);
    var x1, y1 := Join(Digit(a.b1), x2), Join(Digit(b.b1), y2);
    XorOfHighBits(a, b);
    XorCons(a.b3, b.b3, x4, y4, 4);
    XorCons(a.b2, b.b2, x3, y3, 5);
    XorCons(a.b1, b.b1, x2, y2, 6);
    XorCons(a.b0, b.b0, x1, y1, 7);
  }

  /** The XOR checksum of a message is the parity of each of its bits. */
  lemma {:induction false} XorIsParity(m: seq<Bits>)
    ensures XorSum(0, ValuesOf(m)) == ValueOf(Parities(m))
  {
    hide ValueOf, Xor;
    if m == [] {
      assert ValueOf(ZERO) == 0 by { ZeroIsZero(); }
    } else {
      var before := m[..|m| - 1];
      XorIsParity(before);
      assert ValuesOf(m)[..|m| - 1] == ValuesOf(before);
      XorBitByBit(Parities(before), m[|m| - 1]);
    }
  }

  lemma ZeroIsZero()
    ensures ValueOf(ZERO) == 0
  {
  }

  // ---------------------------------------------------------------- CRC

  const POLY := Bits(true, true, false, true, false, true, false, true)

  lemma DoubledByte(low: nat, top: nat)
    requires low < 128 && top <= 1
    ensures (2 * (low + 128 * top)) % 256 == 2 * low
  {
  }

  lemma MovedUp(c: Bits)
    ensures ValueOf(Bits(c.b6, c.b5, c.b4, c.b3, c.b2, c.b1, c.b0, false)) == 2 * LowBits(c)
  {
    hide Digit;
    assert Digit(false) == 0 by { NoDigit(); }
  }

  lemma NoDigit()
    ensures Digit(false) == 0
  {
  }

  lemma ShiftOfByte(c: Bits)
    ensures CrcShift(ValueOf(c)) == ValueOf(Shift(c))
  {
    hide Xor, ValueOf, LowBits, Join;
    var moved := Bits(c.b6, c.b5, c.b4, c.b3, c.b2, c.b1, c.b0, false);
    InRange(c);
    assert ValueOf(c) == LowBits(c) + 128 * Digit(c.b7) by { SplitValue(c); }
    MovedUp(c);
    DoubledByte(LowBits(c), Digit(c.b7));
    assert ValueOf(POLY) == CRC8_DVB_S2_POLY by { PolyValue(); }
    XorBitByBit(moved, POLY);
    assert Shift(c) == if c.b7 then Either(moved, POLY) else moved;
  }

  lemma SplitValue(c: Bits)
    ensures ValueOf(c) == LowBits(c) + 128 * Digit(c.b7)
  {
    hide Digit, LowBits, Join;
    InRange(c);
  }

  lemma PolyValue()
    ensures ValueOf(POLY) == 0xd5 == CRC8_DVB_S2_POLY
  {
  }

  lemma {:induction false} ShiftsOfByte(c: Bits, n: nat)
    ensures CrcShifts(ValueOf(c), n) == ValueOf(Shifts(c, n))
  {
    hide ValueOf, CrcShift, Shift;
    if n > 0 {
      ShiftsOfByte(c, n - 1);
      ShiftOfByte(Shifts(c, n - 1));
    }
  }

  /** THE CRC IS THE REGISTER, for a message of any length. */
  lemma {:induction false} CrcIsTheRegister(m: seq<Bits>)
    ensures CrcSum(0, ValuesOf(m)) == ValueOf(Register(m))
  {
    hide ValueOf, Xor, CrcShifts, Shifts;
    if m == [] {
      assert ValueOf(ZERO) == 0 by { ZeroIsZero(); }
    } else {
      var before := m[..|m| - 1];
      CrcIsTheRegister(before);
      assert ValuesOf(m)[..|m| - 1] == ValuesOf(before);
      XorBitByBit(Register(before), m[|m| - 1]);
      ShiftsOfByte(Either(Register(before), m[|m| - 1]), 8);
    }
  }

  function AllBits(m: seq<byte>): seq<Bits> {
    seq(|m|, i requires 0 <= i < |m| => BitsOf(m[i]))
  }

  /**
   * THE CHECKSUMS BY BITS, for every message: the XOR is the parity of each bit, the CRC is what is left in the shift
   * register.
   */
  lemma ChecksumsByBits(m: seq<byte>)
    ensures XorSum(0, m) == ValueOf(Parities(AllBits(m))) && CrcSum(0, m) == ValueOf(Register(AllBits(m)))
  {
    hide BitsOf, ValueOf, XorSum, CrcSum, Register, Parities;
    forall i | 0 <= i < |m| ensures ValueOf(BitsOf(m[i])) == m[i] {
      EveryByteHasBits(m[i]);
    }
    assert ValuesOf(AllBits(m)) == m;
    XorIsParity(AllBits(m));
    CrcIsTheRegister(AllBits(m));
  }

  // ---------------------------------------------------------------- the published check value

  lemma EightShifts(c: Bits)
    ensures Shifts(c, 8) == Shift(Shift(Shift(Shift(Shift(Shift(Shift(Shift(c))))))))
  {
    hide Shift;
    assert Shifts(c, 2) == Shift(Shifts(c, 1)) && Shifts(c, 1) == Shift(Shifts(c, 0));
    assert Shifts(c, 4) == Shift(Shifts(c, 3)) && Shifts(c, 3) == Shift(Shifts(c, 2));
    assert Shifts(c, 6) == Shift(Shifts(c, 5)) && Shifts(c, 5) == Shift(Shifts(c, 4));
    assert Shifts(c, 8) == Shift(Shifts(c, 7)) && Shifts(c, 7) == Shift(Shifts(c, 6));
  }

  /** One more byte takes a register from `before` to `after`. */
  lemma NextByte(m: seq<Bits>, b: Bits, before: Bits, after: Bits)
    requires Register(m) == before
    requires after == Shift(Shift(Shift(Shift(Shift(Shift(Shift(Shift(Either(before, b)))))))))
    ensures Register(m + [b]) == after && ValuesOf(m + [b]) == ValuesOf(m) + [ValueOf(b)]
  {
    hide Shift, Shifts, ValueOf;
    EightShifts(Either(before, b));
    assert (m + [b])[..|m|] == m;
  }

  /** The check value of the catalogues of CRC algorithms: the digits one to nine give 0xbc. */
  lemma CrcCheckValue()
    ensures CrcSum(0, [0x31, 0x32, 0x33, 0x34, 0x35, 0x36, 0x37, 0x38, 0x39]) == 0xbc
  {
    hide CrcSum, Register, ValueOf;
    var m0: seq<Bits> := [];
    assert Register(m0) == ZERO by { NothingRegistered(); }
    var d1 := Bits(false, false, true, true, false, false, false, true);
    var r1 := Bits(false, false, true, false, false, false, true, true);
    var m1 := m0 + [d1];
    NextByte(m0, d1, ZERO, r1);
    var d2 := Bits(false, false, true, true, false, false, true, false);
    var r2 := Bits(true, false, false, false, false, true, true, true);
    var m2 := m1 + [d2];
    NextByte(m1, d2, r1, r2);
    var d3 := Bits(false, false, true, true, false, false, true, true);
    var r3 := Bits(true, true, true, false, false, true, true, true);
    var m3 := m2 + [d3];
    NextByte(m2, d3, r2, r3);
    var d4 := Bits(false, false, true, true, false, true, false, false);
    var r4 := Bits(true, false, false, false, true, false, true, false);
    var m4 := m3 + [d4];
    NextByte(m3, d4, r3, r4);
    var d5 := Bits(false, false, true, true, false, true, false, true);
    var r5 := Bits(false, true, true, false, false, true, false, false);
    var m5 := m4 + [d5];
    NextByte(m4, d5, r4, r5);
    var d6 := Bits(false, false, true, true, false, true, true, false);
    var r6 := Bits(true, false, true, true, false, false, false, false);
    var m6 := m5 + [d6];
    NextByte(m5, d6, r5, r6);
    var d7 := Bits(false, false, true, true, false, true, true, true);
    var r7 := Bits(true, false, true, true, true, false, true, true);
    var m7 := m6 + [d7];
    NextByte(m6, d7, r6, r7);
    var d8 := Bits(false, false, true, true, true, false, false, false);
    var r8 := Bits(false, true, false, false, false, true, false, true);
    var m8 := m7 + [d8];
    NextByte(m7, d8, r7, r8);
    var d9 := Bits(false, false, true, true, true, false, false, true);
    var r9 := Bits(true, false, true, true, true, true, false, false);
    var m9 := m8 + [d9];
    NextByte(m8, d9, r8, r9);
    CrcIsTheRegister(m9);
    ValueBySum(r9);
    ValueBySum(d1);
    ValueBySum(d2);
    ValueBySum(d3);
    ValueBySum(d4);
    ValueBySum(d5);
    ValueBySum(d6);
    ValueBySum(d7);
    ValueBySum(d8);
    ValueBySum(d9);
    assert m9 == [d1, d2, d3, d4, d5, d6, d7, d8, d9];
    assert ValuesOf(m9) == [0x31, 0x32, 0x33, 0x34, 0x35, 0x36, 0x37, 0x38, 0x39];
    assert ValueOf(r9) == 0xbc;
  }

  lemma LowHalf(c: Bits, high: nat)
    ensures Join(Digit(c.b0), Join(Digit(c.b1), Join(Digit(c.b2), Join(Digit(c.b3), high))))
            == 16 * high + 8 * Digit(c.b3) + 4 * Digit(c.b2) + 2 * Digit(c.b1) + Digit(c.b0)
  {
    hide Digit;
  }

  /** The weights of the eight places. */
  lemma ValueBySum(c: Bits)
    ensures ValueOf(c) == 128 * Digit(c.b7) + 64 * Digit(c.b6) + 32 * Digit(c.b5) + 16 * Digit(c.b4)
                          + 8 * Digit(c.b3) + 4 * Digit(c.b2) + 2 * Digit(c.b1) + Digit(c.b0)
  {
    hide Digit;
    LowHalf(c, HighBits(c));
  }

  lemma NothingRegistered()
    ensures Register([]) == ZERO
  {
  }
}
