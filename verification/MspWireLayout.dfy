/** Where each field of a frame stands on the wire, in numbers, and whole words written out byte by byte. */
module MspWireLayout {
  import opened MspTypes
  import opened MspChecksum
  import opened MspChecksumBits
  import opened MspWireGrammar
  import opened MspEncoder
  import opened MspStream

  /** A 16-bit field, low byte first. */
  predicate Holds16(w: seq<byte>, at: nat, n: nat) {
    at + 1 < |w| && w[at] as int + 256 * (w[at + 1] as int) == n
  }

  predicate StartsWith(w: seq<byte>, magic: byte, d: Direction) {
    && |w| > 3 && w[0] == 0x24 && w[1] == magic
    && w[2] == match d { case Request => 0x3c case Response => 0x3e case Error => 0x21 }
  }

  predicate HoldsPayload(w: seq<byte>, at: nat, f: MspFrame) {
    at + |f.payload| < |w| && w[at..at + |f.payload|] == f.payload
  }

  /** A 16-bit number takes two bytes, low byte first, and is read back from them. */
  lemma LowByteFirst(n: nat, lo: byte, hi: byte)
    requires n <= 0xffff
    ensures |Le16(n)| == 2 && Le16(n)[0] as int + 256 * (Le16(n)[1] as int) == n
    ensures FromLe16(lo, hi) == lo as int + 256 * (hi as int)
  {
  }

  /** V1: size, command, payload and an XOR over all three; a jumbo size of 255 is followed by the true size. */
  lemma V1Layout(max: nat, f: MspFrame, jumbo: bool)
    requires Carriable(max, f, jumbo) && f.wireFormat.V1?
    ensures
      var w := Render(f, jumbo);
      var at := if jumbo then 7 else 5;
      && StartsWith(w, 0x4d, f.direction)
      && |w| == at + |f.payload| + 1
      && (if jumbo then w[3] == 255 && Holds16(w, 5, |f.payload|) else w[3] == |f.payload| < 255)
      && w[4] == f.command && HoldsPayload(w, at, f)
      && w[|w| - 1] == XorSum(0, w[3..|w| - 1])
  {
    hide XorSum, CrcSum, SizeField;
    var w := Render(f, jumbo);
    SizeFieldBytes(|f.payload|, f.command, jumbo);
    assert w[3..|w| - 1] == Body(f, jumbo);
    assert w[if jumbo then 7 else 5..|w| - 1] == f.payload;
  }

  /** Native v2: flags, command, size, payload and a CRC over all four. */
  lemma V2Layout(max: nat, f: MspFrame)
    requires Carriable(max, f, false) && f.wireFormat.V2?
    ensures
      var w := Render(f, false);
      && StartsWith(w, 0x58, f.direction)
      && |w| == 8 + |f.payload| + 1
      && w[3] == f.flags && Holds16(w, 4, f.command) && Holds16(w, 6, |f.payload|) && HoldsPayload(w, 8, f)
      && w[|w| - 1] == CrcSum(0, w[3..|w| - 1])
  {
    hide XorSum, CrcSum;
    var w := Render(f, false);
    LowByteFirst(f.command, 0, 0);
    LowByteFirst(|f.payload|, 0, 0);
    assert w[3..|w| - 1] == Body(f, false);
  }

  /** V2 over v1: a v1 frame of command 255 around a v2 frame with its own CRC. */
  lemma EnvelopeFields(max: nat, f: MspFrame, jumbo: bool)
    requires Carriable(max, f, jumbo) && f.wireFormat.V2OverV1?
    ensures
      var w := Render(f, jumbo);
      var h := if jumbo then 7 else 5;
      && StartsWith(w, 0x4d, f.direction)
      && |w| == h + 5 + |f.payload| + 2
      && (if jumbo then w[3] == 255 && Holds16(w, 5, |f.payload| + 6) else w[3] == |f.payload| + 6 < 255)
      && w[4] == 255
      && w[h] == f.flags && Holds16(w, h + 1, f.command) && Holds16(w, h + 3, |f.payload|) && HoldsPayload(w, h + 5, f)
      && w[|w| - 2] == CrcSum(0, w[h..|w| - 2])
      && w[|w| - 1] == XorSum(0, w[3..|w| - 1])
  {
    hide XorSum, CrcSum, Body, V2Inner;
    var w := Render(f, jumbo);
    var h := if jumbo then 7 else 5;
    EnvelopeBody(f, jumbo);
    assert w[3..|w| - 1] == Body(f, jumbo);
    InnerFields(f);
    assert w[h..|w| - 2] == V2Inner(f);
    assert w[h + 5..|w| - 2] == V2Inner(f)[5..];
    SizeFieldBytes(|f.payload| + 6, MSP_V2_FRAME_ID, jumbo);
  }

  lemma InnerFields(f: MspFrame)
    requires f.command <= 0xffff && |f.payload| <= 0xffff
    ensures
      var v := V2Inner(f);
      && |v| == 5 + |f.payload| && v[0] == f.flags && v[5..] == f.payload
      && v[1] as int + 256 * (v[2] as int) == f.command && v[3] as int + 256 * (v[4] as int) == |f.payload|
  {
    LowByteFirst(f.command, 0, 0);
    LowByteFirst(|f.payload|, 0, 0);
  }

  lemma SizeFieldBytes(size: nat, cmd: byte, jumbo: bool)
    requires size <= if jumbo then 0xffff else 254
    ensures
      var z := SizeField(size, cmd, jumbo);
      && |z| > 1 && z[1] == cmd
      && (if jumbo then |z| == 4 && z[0] == 255 && z[2] as int + 256 * (z[3] as int) == size
          else |z| == 2 && z[0] == size)
  {
    LowByteFirst(size, 0, 0);
  }

  lemma EnvelopeBody(f: MspFrame, jumbo: bool)
    requires f.wireFormat.V2OverV1?
    ensures Body(f, jumbo) == SizeField(|f.payload| + 6, MSP_V2_FRAME_ID, jumbo) + V2Inner(f) + [CrcSum(0, V2Inner(f))]
  {
    hide CrcSum, V2Inner, SizeField;
  }

  // ---------------------------------------------------------------- whole words

  /** Native v2, command 100 without payload: 24 58 3c 00 64 00 00 00 8f. */
  lemma V2Word()
    ensures Render(MspFrame(V2, Request, 100, 0, []), false) == [0x24, 0x58, 0x3c, 0x00, 0x64, 0x00, 0x00, 0x00, 0x8f]
  {
    hide CrcSum;
    var f := MspFrame(V2, Request, 100, 0, []);
    assert Body(f, false) == [0x00, 0x64, 0x00, 0x00, 0x00];
    CommandHundred();
  }

  lemma CommandHundred()
    ensures CrcSum(0, [0x00, 0x64, 0x00, 0x00, 0x00]) == 0x8f
  {
    hide CrcSum, Register, ValueOf;
    var zero, hundred := ZERO, Bits(false, true, true, false, false, true, false, false);
    var m0: seq<Bits> := [];
    assert Register(m0) == ZERO by { NothingRegistered(); }
    var r1 := Bits(false, false, false, false, false, false, false, false);
    var m1 := m0 + [zero];
    NextByte(m0, zero, ZERO, r1);
    var r2 := Bits(true, true, false, false, false, true, true, true);
    var m2 := m1 + [hundred];
    NextByte(m1, hundred, r1, r2);
    var r3 := Bits(false, false, true, false, false, true, true, false);
    var m3 := m2 + [zero];
    NextByte(m2, zero, r2, r3);
    var r4 := Bits(false, false, true, false, false, true, false, true);
    var m4 := m3 + [zero];
    NextByte(m3, zero, r3, r4);
    var r5 := Bits(true, false, false, false, true, true, true, true);
    var m5 := m4 + [zero];
    NextByte(m4, zero, r4, r5);
    CrcIsTheRegister(m5);
    HundredBits();
    assert m5 == [zero, hundred, zero, zero, zero];
    assert ValuesOf(m5) == [0x00, 0x64, 0x00, 0x00, 0x00];
  }

  lemma HundredBits()
    ensures ValueOf(ZERO) == 0 && ValueOf(Bits(false, true, true, false, false, true, false, false)) == 0x64
    ensures ValueOf(Bits(true, false, false, false, true, true, true, true)) == 0x8f
  {
    ValueBySum(ZERO);
    ValueBySum(Bits(false, true, true, false, false, true, false, false));
    ValueBySum(Bits(true, false, false, false, true, true, true, true));
  }

  /** V1, command 100 without payload: 24 4d 3c 00 64 64. */
  lemma V1Word()
    ensures Render(MspFrame(V1, Request, 100, 0, []), false) == [0x24, 0x4d, 0x3c, 0x00, 0x64, 0x64]
  {
    hide XorSum;
    var f := MspFrame(V1, Request, 100, 0, []);
    assert Body(f, false) == [0x00, 0x64];
    XorOfHundred();
  }

  lemma XorOfHundred()
    ensures XorSum(0, [0x00, 0x64]) == 0x64
  {
    hide ValueOf;
    var hundred := Bits(false, true, true, false, false, true, false, false);
    HundredBits();
    XorIsParity([ZERO, hundred]);
    assert ValuesOf([ZERO, hundred]) == [0x00, 0x64];
    assert [ZERO, hundred][..1] == [ZERO] && [ZERO][..0] == [];
    assert Parities([ZERO]) == ZERO;
  }
}
