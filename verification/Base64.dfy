/** The Base64 codec of section 4 of RFC 4648, with its 32-bit accumulator. */
module Base64 {
  import opened MspTypes

  type Sextet = v: int | 0 <= v < 64

  const UPPER: string := "ABCDEFGHIJKLMNOPQRSTUVWXYZ"
  const LOWER: string := "abcdefghijklmnopqrstuvwxyz"
  const TENS: string := "0123456789"
  const BASE64_CHARS: string := UPPER + LOWER + TENS + "+/"

  const ALPHABET_POSITIONS: set<nat> :=
    {0, 1, 2, 3, 4, 5, 6, 7, 8, 9, 10, 11, 12, 13, 14, 15, 16, 17, 18, 19, 20, 21, 22, 23, 24, 25}

  /** The digit of a six-bit value. */
  function Digit(v: Sextet): char {
    if v < 26 then 'A' + v as char
    else if v < 52 then 'a' + (v - 26) as char
    else if v < 62 then '0' + (v - 52) as char
    else if v == 62 then '+'
    else '/'
  }

  /** The value of a digit; None for any other character, padding included. */
  function Value(c: char): Option<Sextet> {
    if 'A' <= c <= 'Z' then Some((c - 'A') as int)
    else if 'a' <= c <= 'z' then Some((c - 'a') as int + 26)
    else if '0' <= c <= '9' then Some((c - '0') as int + 52)
    else if c == '+' then Some(62)
    else if c == '/' then Some(63)
    else None
  }

  lemma AlphabetIsDigits(i: nat)
    requires i < 64
    ensures |BASE64_CHARS| == 64 && BASE64_CHARS[i] == Digit(i)
  {
    assert |UPPER| == 26 && |LOWER| == 26 && |TENS| == 10;
    if i < 26 {
      UpperCase(i);
    } else if i < 52 {
      LowerCase(i - 26);
    } else if i < 62 {
      Tens(i - 52);
    }
  }

  lemma UpperCase(i: nat)
    requires i < 26
    ensures UPPER[i] == 'A' + i as char
  {
    assert i in ALPHABET_POSITIONS;
  }

  lemma LowerCase(i: nat)
    requires i < 26
    ensures LOWER[i] == 'a' + i as char
  {
    assert i in ALPHABET_POSITIONS;
  }

  lemma Tens(i: nat)
    requires i < 10
    ensures TENS[i] == '0' + i as char
  {
    assert i in {0, 1, 2, 3, 4, 5, 6, 7, 8, 9};
  }

  lemma ValueOfDigit(v: Sextet)
    ensures Value(Digit(v)) == Some(v) && Digit(v) != '='
  {
  }

  // ---------------------------------------------------------------- the code, by groups

  /** Three bytes are four digits; one or two bytes at the end are padded to four characters. */
  function Group(b: seq<byte>): string
    requires b != []
  {
    [Digit(b[0] / 4),
     Digit(b[0] % 4 * 16 + if |b| > 1 then b[1] / 16 else 0),
     if |b| > 1 then Digit(b[1] % 16 * 4 + if |b| > 2 then b[2] / 64 else 0) else '=',
     if |b| > 2 then Digit(b[2] % 64) else '=']
  }

  function Encode(b: seq<byte>): string {
    if b == [] then "" else Group(b) + if |b| > 3 then Encode(b[3..]) else ""
  }

  function FirstByte(a: int, b: int): byte
    requires 0 <= a < 64 && 0 <= b < 64
  {
    a * 4 + b / 16
  }

  function SecondByte(b: int, c: int): byte
    requires 0 <= b < 64 && 0 <= c < 64
  {
    b % 16 * 16 + c / 4
  }

  function ThirdByte(c: int, d: int): byte
    requires 0 <= c < 64 && 0 <= d < 64
  {
    c % 4 * 64 + d
  }

  /** Four digits are three bytes; a rest of two or three digits is one or two bytes, a rest of one is none. */
  function DecodeValues(v: seq<Sextet>): seq<byte> {
    if |v| < 2 then []
    else if |v| == 2 then [FirstByte(v[0], v[1])]
    else if |v| == 3 then [FirstByte(v[0], v[1]), SecondByte(v[1], v[2])]
    else [FirstByte(v[0], v[1]), SecondByte(v[1], v[2]), ThirdByte(v[2], v[3])] + DecodeValues(v[4..])
  }

  /** The digits of a text, everything else skipped. */
  function Values(text: string): seq<Sextet> {
    if text == "" then []
    else
      var last := |text| - 1;
      Values(text[..last]) + if Value(text[last]).Some? then [Value(text[last]).value] else []
  }

  function Decode(text: string): seq<byte> {
    DecodeValues(Values(text))
  }

  // ---------------------------------------------------------------- round trip

  lemma {:induction false} ValuesConcat(a: string, b: string)
    ensures Values(a + b) == Values(a) + Values(b)
    decreases |b|
  {
    if b == "" {
      assert a + b == a;
    } else {
      var last := |b| - 1;
      assert (a + b)[..|a| + last] == a + b[..last];
      ValuesConcat(a, b[..last]);
    }
  }

  lemma ValuesOfFour(c: string)
    requires |c| == 4
    ensures Values(c) == Values([c[0]]) + Values([c[1]]) + Values([c[2]]) + Values([c[3]])
  {
    assert c == [c[0]] + [c[1]] + [c[2]] + [c[3]];
    ValuesConcat([c[0]] + [c[1]] + [c[2]], [c[3]]);
    ValuesConcat([c[0]] + [c[1]], [c[2]]);
    ValuesConcat([c[0]], [c[1]]);
  }

  lemma ValuesOfOne(c: char)
    ensures Values([c]) == if Value(c).Some? then [Value(c).value] else []
  {
    assert [c][..0] == "";
  }

  lemma ValuesOfDigits(v0: Sextet, v1: Sextet, v2: Option<Sextet>, v3: Option<Sextet>)
    ensures Values([Digit(v0), Digit(v1),
                    if v2.Some? then Digit(v2.value) else '=',
                    if v3.Some? then Digit(v3.value) else '='])
            == [v0, v1] + (if v2.Some? then [v2.value] else []) + (if v3.Some? then [v3.value] else [])
  {
    hide Digit, Value;
    var c2 := if v2.Some? then Digit(v2.value) else '=';
    var c3 := if v3.Some? then Digit(v3.value) else '=';
    ValuesOfFour([Digit(v0), Digit(v1), c2, c3]);
    ValuesOfOne(Digit(v0));
    ValuesOfOne(Digit(v1));
    ValuesOfOne(c2);
    ValuesOfOne(c3);
    ValueOfDigit(v0);
    ValueOfDigit(v1);
    if v2.Some? { ValueOfDigit(v2.value); }
    if v3.Some? { ValueOfDigit(v3.value); }
    PaddingIsNoDigit();
  }

  lemma PaddingIsNoDigit()
    ensures Value('=').None?
  {
  }

  /** The digits of the first group. */
  function GroupSextets(b: seq<byte>): seq<Sextet>
    requires b != []
  {
    [b[0] / 4, b[0] % 4 * 16 + if |b| > 1 then b[1] / 16 else 0]
    + (if |b| > 1 then [b[1] % 16 * 4 + if |b| > 2 then b[2] / 64 else 0] else [])
    + (if |b| > 2 then [b[2] % 64] else [])
  }

  function Sextets(b: seq<byte>): seq<Sextet> {
    if b == [] then [] else GroupSextets(b) + if |b| > 3 then Sextets(b[3..]) else []
  }

  lemma GroupValues(b: seq<byte>)
    requires b != []
    ensures Values(Group(b)) == GroupSextets(b)
  {
    hide Values, Digit;
    ValuesOfDigits(b[0] / 4, b[0] % 4 * 16 + if |b| > 1 then b[1] / 16 else 0,
                   if |b| > 1 then Some(b[1] % 16 * 4 + if |b| > 2 then b[2] / 64 else 0) else None,
                   if |b| > 2 then Some(b[2] % 64) else None);
  }

  lemma {:induction false} EncodedValues(b: seq<byte>)
    ensures Values(Encode(b)) == Sextets(b)
  {
    hide Values, Group, GroupSextets;
    NoValues();
    if b != [] {
      GroupValues(b);
      if |b| > 3 {
        EncodedValues(b[3..]);
        ValuesConcat(Group(b), Encode(b[3..]));
      } else {
        ValuesConcat(Group(b), "");
      }
    }
  }

  lemma NoValues()
    ensures Values("") == []
  {
  }

  lemma GroupDecodes(b: seq<byte>)
    requires b != []
    ensures DecodeValues(GroupSextets(b)) == if |b| > 3 then b[..3] else b
  {
    var v := GroupSextets(b);
    if |b| >= 3 {
      assert v[4..] == [];
      assert DecodeValues(v[4..]) == [];
    }
  }

  lemma FourFirst(v: seq<Sextet>, w: seq<Sextet>)
    requires |v| == 4
    ensures DecodeValues(v + w) == DecodeValues(v) + DecodeValues(w)
  {
    hide FirstByte, SecondByte, ThirdByte;
    assert (v + w)[4..] == w && v[4..] == [];
    assert DecodeValues(v[4..]) == [];
  }

  lemma {:induction false} SextetsDecode(b: seq<byte>)
    ensures DecodeValues(Sextets(b)) == b
  {
    hide DecodeValues;
    if b == [] {
      assert DecodeValues([]) == [] by { NothingDecodes(); }
    } else {
      GroupDecodes(b);
      if |b| > 3 {
        SextetsDecode(b[3..]);
        FourFirst(GroupSextets(b), Sextets(b[3..]));
        assert b == b[..3] + b[3..];
      } else {
        assert Sextets(b) == GroupSextets(b);
      }
    }
  }

  lemma NothingDecodes()
    ensures DecodeValues([]) == []
  {
  }

  /** ROUND TRIP, for every byte string. */
  lemma DecodeOfEncode(b: seq<byte>)
    ensures Decode(Encode(b)) == b
  {
    EncodedValues(b);
    SextetsDecode(b);
  }

  /** Four characters for every three bytes begun. */
  lemma {:induction false} EncodedLength(b: seq<byte>)
    ensures |Encode(b)| == 4 * ((|b| + 2) / 3)
  {
    hide Digit;
    if |b| > 3 {
      EncodedLength(b[3..]);
      assert (|b[3..]| + 2) / 3 + 1 == (|b| + 2) / 3;
    }
  }

  // ---------------------------------------------------------------- the encoder

  /** Bytes as their slices: b0 = 4 * a + b, b1 = 16 * c + d, b2 = 64 * e + f. */
  lemma SlicedTriplet(a: int, b: int, c: int, d: int, e: int, f: int)
    requires 0 <= a < 64 && 0 <= b < 4 && 0 <= c < 16 && 0 <= d < 16 && 0 <= e < 4 && 0 <= f < 64
    ensures var t := (a * 4 + b) * 65536 + (c * 16 + d) * 256 + (e * 64 + f);
            && t / 262144 % 64 == a
            && t / 4096 % 64 == b * 16 + c
            && t / 64 % 64 == d * 4 + e
            && t % 64 == f
  {
    var t := (a * 4 + b) * 65536 + (c * 16 + d) * 256 + (e * 64 + f);
    var low2 := d * 4 + e;
    var low1 := b * 16 + c;
    Quotient(t, a * 4096 + low1 * 64 + low2, f, 64);
    Quotient(a * 4096 + low1 * 64 + low2, a * 64 + low1, low2, 64);
    Quotient(a * 64 + low1, a, low1, 64);
    assert t / 4096 == t / 64 / 64 && t / 262144 == t / 64 / 64 / 64;
  }

  lemma TripletDigits(b0: int, b1: int, b2: int)
    requires 0 <= b0 < 256 && 0 <= b1 < 256 && 0 <= b2 < 256
    ensures var t := b0 * 65536 + b1 * 256 + b2;
            && t / 262144 % 64 == b0 / 4
            && t / 4096 % 64 == b0 % 4 * 16 + b1 / 16
            && t / 64 % 64 == b1 % 16 * 4 + b2 / 64
            && t % 64 == b2 % 64
  {
    SlicedTriplet(b0 / 4, b0 % 4, b1 / 16, b1 % 16, b2 / 64, b2 % 64);
  }

  /** Four six-bit slices of one 24-bit triplet. */
  method SliceTriplet(b0: int, b1: int, b2: int) returns (d0: int, d1: int, d2: int, d3: int)
    requires 0 <= b0 < 256 && 0 <= b1 < 256 && 0 <= b2 < 256
    ensures d0 == b0 / 4 && d1 == b0 % 4 * 16 + b1 / 16 && d2 == b1 % 16 * 4 + b2 / 64 && d3 == b2 % 64
  {
    var triplet := b0 * 65536 + b1 * 256 + b2;
    TripletDigits(b0, b1, b2);
    d0 := triplet / 262144 % 64;
    d1 := triplet / 4096 % 64;
    d2 := triplet / 64 % 64;
    d3 := triplet % 64;
  }

  /** The four characters of up to three bytes. */
  method EncodeTriplet(b0: int, b1: Option<int>, b2: Option<int>, ghost rest: seq<byte>) returns (chars: string)
    requires rest != [] && rest[0] == b0
    requires b1 == if |rest| > 1 then Some(rest[1]) else None
    requires b2 == if |rest| > 2 then Some(rest[2]) else None
    ensures chars == Group(rest)
  {
    hide Digit;
    var d0, d1, d2, d3 := SliceTriplet(b0, b1.GetOr(0), b2.GetOr(0));
    var c0 := CharAt(d0);
    var c1 := CharAt(d1);
    var c2 := CharAt(d2);
    var c3 := CharAt(d3);
    chars := [c0, c1, if b1.None? then '=' else c2, if b2.None? then '=' else c3];
  }

  method CharAt(i: int) returns (c: char)
    requires 0 <= i < 64
    ensures c == Digit(i)
  {
    AlphabetIsDigits(i);
    c := BASE64_CHARS[i];
  }

  method BytesToBase64(bytes: seq<byte>) returns (result: string)
    ensures result == Encode(bytes)
  {
    hide Group;
    result := "";
    var i := 0;
    while i < |bytes|
      invariant 0 <= i
      invariant i <= |bytes| ==> result + Encode(bytes[i..]) == Encode(bytes)
      invariant i > |bytes| ==> result == Encode(bytes)
    {
      ghost var rest := bytes[i..];
      var b1: Option<int> := if i + 1 < |bytes| then Some(bytes[i + 1]) else None;
      var b2: Option<int> := if i + 2 < |bytes| then Some(bytes[i + 2]) else None;
      var chars := EncodeTriplet(bytes[i], b1, b2, rest);
      if |rest| > 3 {
        assert rest[3..] == bytes[i + 3..];
        assert result + Encode(rest) == result + chars + Encode(bytes[i + 3..]);
      } else if |rest| == 3 {
        assert bytes[i + 3..] == [];
      }
      result := result + chars;
      i := i + 3;
    }
    if i == |bytes| {
      assert bytes[i..] == [];
    }
  }

  // ---------------------------------------------------------------- the decoder

  /** A JavaScript bitwise result: the low 32 bits, read as a signed number. */
  function Wrap32(x: int): int {
    (x + 0x8000_0000) % 0x1_0000_0000 - 0x8000_0000
  }

  /** The bits collected but not yet output, after n digits. */
  function PendingBits(n: nat): nat {
    match n % 4
    case 0 => 0
    case 1 => 6
    case 2 => 4
    case _ => 2
  }

  lemma SmallPowers()
    ensures Pow2(0) == 1 && Pow2(2) == 4 && Pow2(4) == 16 && Pow2(6) == 64
  {
    assert Pow2(1) == 2 && Pow2(3) == 8 && Pow2(5) == 32;
  }

  /** The value of those bits. */
  function Pending(v: seq<Sextet>): nat {
    match |v| % 4
    case 0 => 0
    case 1 => v[|v| - 1]
    case 2 => v[|v| - 1] % 16
    case _ => v[|v| - 1] % 4
  }

  /** The byte a further digit completes, given the bits pending before it. */
  function CompletedByte(n: nat, pending: nat, d: int): int {
    match n % 4
    case 1 => pending * 4 + d / 16
    case 2 => pending * 16 + d / 4
    case _ => pending * 64 + d
  }

  lemma OneMoreAfterNone(v: seq<Sextet>, d: Sextet)
    requires |v| == 0
    ensures DecodeValues(v) == [] && DecodeValues(v + [d]) == []
  {
  }

  lemma OneMoreAfterOne(v: seq<Sextet>, d: Sextet)
    requires |v| == 1
    ensures DecodeValues(v) == [] && DecodeValues(v + [d]) == [FirstByte(v[0], d)]
    ensures CompletedByte(|v|, Pending(v), d) == FirstByte(v[0], d)
  {
  }

  lemma OneMoreAfterTwo(v: seq<Sextet>, d: Sextet)
    requires |v| == 2
    ensures DecodeValues(v) == [FirstByte(v[0], v[1])]
            && DecodeValues(v + [d]) == [FirstByte(v[0], v[1]), SecondByte(v[1], d)]
    ensures CompletedByte(|v|, Pending(v), d) == SecondByte(v[1], d)
  {
    hide FirstByte;
  }

  lemma OneMoreAfterThree(v: seq<Sextet>, d: Sextet)
    requires |v| == 3
    ensures DecodeValues(v) == [FirstByte(v[0], v[1]), SecondByte(v[1], v[2])]
    ensures DecodeValues(v + [d]) == [FirstByte(v[0], v[1]), SecondByte(v[1], v[2]), ThirdByte(v[2], d)]
    ensures CompletedByte(|v|, Pending(v), d) == ThirdByte(v[2], d)
  {
    hide FirstByte, SecondByte;
    FourDigits(v + [d]);
  }

  lemma OneMoreShort(v: seq<Sextet>, d: Sextet)
    requires |v| < 4
    ensures |v| % 4 != 0 ==> 0 <= CompletedByte(|v|, Pending(v), d) < 256
    ensures DecodeValues(v + [d]) == DecodeValues(v) + if |v| % 4 == 0 then [] else [CompletedByte(|v|, Pending(v), d)]
  {
    hide FirstByte, SecondByte, ThirdByte, CompletedByte, Pending, DecodeValues;
    if |v| == 0 {
      OneMoreAfterNone(v, d);
    } else if |v| == 1 {
      OneMoreAfterOne(v, d);
    } else if |v| == 2 {
      OneMoreAfterTwo(v, d);
    } else {
      OneMoreAfterThree(v, d);
    }
  }

  lemma FourDigits(v: seq<Sextet>)
    requires |v| == 4
    ensures DecodeValues(v) == [FirstByte(v[0], v[1]), SecondByte(v[1], v[2]), ThirdByte(v[2], v[3])]
  {
    hide FirstByte, SecondByte, ThirdByte;
    assert v[4..] == [];
    assert DecodeValues(v[4..]) == [];
  }

  /** One more digit completes a byte exactly when at least two bits were pending. */
  lemma {:induction false} OneMoreDigit(v: seq<Sextet>, d: Sextet)
    ensures |v| % 4 != 0 ==> 0 <= CompletedByte(|v|, Pending(v), d) < 256
    ensures DecodeValues(v + [d]) == DecodeValues(v) + if |v| % 4 == 0 then [] else [CompletedByte(|v|, Pending(v), d)]
    decreases |v|
  {
    hide DecodeValues, CompletedByte;
    if |v| < 4 {
      OneMoreShort(v, d);
    } else {
      OneMoreDigit(v[4..], d);
      FourFirst(v[..4], v[4..]);
      FourFirst(v[..4], v[4..] + [d]);
      assert v == v[..4] + v[4..];
      assert v + [d] == v[..4] + (v[4..] + [d]);
      SameResidue(|v|, Pending(v), d);
    }
  }

  lemma SameResidue(n: nat, pending: nat, d: int)
    requires n >= 4
    ensures CompletedByte(n - 4, pending, d) == CompletedByte(n, pending, d)
  {
  }

  lemma BitsAfter(n: nat)
    ensures n % 4 == 0 ==> PendingBits(n) == 0 && PendingBits(n + 1) == 6
    ensures n % 4 == 1 ==> PendingBits(n) == 6 && PendingBits(n + 1) == 4
    ensures n % 4 == 2 ==> PendingBits(n) == 4 && PendingBits(n + 1) == 2
    ensures n % 4 == 3 ==> PendingBits(n) == 2 && PendingBits(n + 1) == 0
  {
  }

  lemma CompletedCases(n: nat, pending: nat, d: int)
    ensures n % 4 == 1 ==> CompletedByte(n, pending, d) == pending * 4 + d / 16
    ensures n % 4 == 2 ==> CompletedByte(n, pending, d) == pending * 16 + d / 4
    ensures n % 4 == 3 ==> CompletedByte(n, pending, d) == pending * 64 + d
  {
  }

  /** The accumulator may wrap: a byte depends only on the pending bits and the new digit. */
  lemma WrapIsHarmless(buffer: int, d: int, pending: nat, n: nat)
    requires 0 <= d < 64 && buffer % Pow2(PendingBits(n)) == pending
    ensures
      var next := Wrap32(buffer * 64) + d;
      && (n % 4 != 0 ==> next / Pow2(PendingBits(n + 1)) % 256 == CompletedByte(n, pending, d))
      && next % Pow2(PendingBits(n + 1)) == d % Pow2(PendingBits(n + 1))
  {
    hide Wrap32, PendingBits, CompletedByte, Pow2;
    SmallPowers();
    BitsAfter(n);
    CompletedCases(n, pending, d);
    var k := WrapDropsHighBits(buffer * 64);
    if n % 4 == 0 {
      AfterNone(buffer, k, d);
    } else if n % 4 == 1 {
      AfterOne(buffer, k, d);
    } else if n % 4 == 2 {
      AfterTwo(buffer, k, d);
    } else {
      AfterThree(buffer, k, d);
    }
  }

  lemma WrapDropsHighBits(x: int) returns (k: int)
    ensures Wrap32(x) == x - k * 0x1_0000_0000
  {
    k := (x + 0x8000_0000) / 0x1_0000_0000;
  }

  /** Division with remainder, by the powers of two this codec shifts by. */
  lemma Quotient(x: int, q: int, r: int, n: nat)
    requires n == 4 || n == 16 || n == 64 || n == 256
    requires x == q * n + r && 0 <= r < n
    ensures x / n == q && x % n == r
  {
  }

  lemma AfterNone(buffer: int, k: int, d: int)
    requires 0 <= d < 64
    ensures (buffer * 64 - k * 0x1_0000_0000 + d) % 64 == d
  {
    Quotient(buffer * 64 - k * 0x1_0000_0000 + d, buffer - k * 0x400_0000, d, 64);
  }

  /** A digit d = e * unit + f behind pending bits p: the byte is p and e, and f stays pending. */
  lemma AfterOneParts(q: int, p: int, e: int, f: int, k: int)
    requires 0 <= p < 64 && 0 <= e < 4 && 0 <= f < 16
    ensures var next := (q * 64 + p) * 64 - k * 0x1_0000_0000 + (e * 16 + f);
            next / 16 % 256 == p * 4 + e && next % 16 == f
  {
    var next := (q * 64 + p) * 64 - k * 0x1_0000_0000 + (e * 16 + f);
    var m := q - k * 0x10_0000;
    Quotient(next, m * 256 + (p * 4 + e), f, 16);
    Quotient(m * 256 + (p * 4 + e), m, p * 4 + e, 256);
  }

  lemma AfterOne(buffer: int, k: int, d: int)
    requires 0 <= d < 64
    ensures var next := buffer * 64 - k * 0x1_0000_0000 + d;
            next / 16 % 256 == buffer % 64 * 4 + d / 16 && next % 16 == d % 16
  {
    AfterOneParts(buffer / 64, buffer % 64, d / 16, d % 16, k);
  }

  lemma AfterTwoParts(q: int, p: int, e: int, f: int, k: int)
    requires 0 <= p < 16 && 0 <= e < 16 && 0 <= f < 4
    ensures var next := (q * 16 + p) * 64 - k * 0x1_0000_0000 + (e * 4 + f);
            next / 4 % 256 == p * 16 + e && next % 4 == f
  {
    var next := (q * 16 + p) * 64 - k * 0x1_0000_0000 + (e * 4 + f);
    var m := q - k * 0x40_0000;
    Quotient(next, m * 256 + (p * 16 + e), f, 4);
    Quotient(m * 256 + (p * 16 + e), m, p * 16 + e, 256);
  }

  lemma AfterTwo(buffer: int, k: int, d: int)
    requires 0 <= d < 64
    ensures var next := buffer * 64 - k * 0x1_0000_0000 + d;
            next / 4 % 256 == buffer % 16 * 16 + d / 4 && next % 4 == d % 4
  {
    AfterTwoParts(buffer / 16, buffer % 16, d / 4, d % 4, k);
  }

  lemma AfterThree(buffer: int, k: int, d: int)
    requires 0 <= d < 64
    ensures var next := buffer * 64 - k * 0x1_0000_0000 + d; next % 256 == buffer % 4 * 64 + d
  {
    var q, p := buffer / 4, buffer % 4;
    Quotient(buffer * 64 - k * 0x1_0000_0000 + d, q - k * 0x100_0000, p * 64 + d, 256);
  }

  /** Strips trailing padding, which carries no digit. */
  method StripPadding(text: string) returns (clean: string)
    ensures Values(clean) == Values(text)
    ensures clean <= text && (clean != "" ==> clean[|clean| - 1] != '=')
    ensures forall i :: |clean| <= i < |text| ==> text[i] == '='
  {
    clean := text;
    while |clean| > 0 && clean[|clean| - 1] == '='
      invariant clean <= text && Values(clean) == Values(text)
      invariant forall i :: |clean| <= i < |text| ==> text[i] == '='
    {
      PaddingIsNoDigit();
      clean := clean[..|clean| - 1];
    }
  }

  /** The position of a character in the alphabet, or -1. */
  method IndexOf(c: char) returns (value: int)
    ensures value == if Value(c).Some? then Value(c).value else -1
  {
    var i := 0;
    while i < 64
      invariant 0 <= i <= 64
      invariant forall j: Sextet :: 0 <= j < i ==> Digit(j) != c
    {
      AlphabetIsDigits(i);
      if BASE64_CHARS[i] == c {
        ValueOfDigit(i);
        return i;
      }
      i := i + 1;
    }
    NoDigitNoValue(c);
    return -1;
  }

  lemma DigitOfValue(c: char)
    ensures Value(c).Some? ==> Digit(Value(c).value) == c
  {
  }

  lemma NoDigitNoValue(c: char)
    requires forall j: Sextet :: Digit(j) != c
    ensures Value(c).None?
  {
    DigitOfValue(c);
  }

  method Base64ToBytes(base64: string) returns (bytes: seq<byte>)
    ensures bytes == Decode(base64)
  {
    hide Value, Digit, Wrap32, DecodeValues, Pending, CompletedByte, Pow2;
    var clean := StripPadding(base64);
    bytes := [];
    var buffer := 0;
    var bitsCollected := 0;
    SmallPowers();
    NothingDecodes();
    NothingPending();
    for i := 0 to |clean|
      invariant bytes == DecodeValues(Values(clean[..i]))
      invariant bitsCollected == PendingBits(|Values(clean[..i])|)
      invariant buffer % Pow2(bitsCollected) == Pending(Values(clean[..i]))
    {
      assert clean[..i + 1][..i] == clean[..i];
      var seen := Values(clean[..i]);
      var value := IndexOf(clean[i]);
      if value == -1 {
        assert Values(clean[..i + 1]) == seen;
        continue;
      }
      assert Values(clean[..i + 1]) == seen + [value];
      OneMoreDigit(seen, value);
      WrapIsHarmless(buffer, value, Pending(seen), |seen|);
      NextPending(seen, value);
      buffer := Wrap32(buffer * 64) + value;
      bitsCollected := bitsCollected + 6;
      if bitsCollected >= 8 {
        bitsCollected := bitsCollected - 8;
        bytes := bytes + [buffer / Pow2(bitsCollected) % 256];
      }
    }
    assert clean[..|clean|] == clean;
  }

  lemma NothingPending()
    ensures Pending([]) == 0
  {
  }

  lemma NextPending(v: seq<Sextet>, d: Sextet)
    ensures Pending(v + [d]) == d % Pow2(PendingBits(|v| + 1))
  {
    SmallPowers();
  }

  // ---------------------------------------------------------------- the code in numbers

  /** Three bytes and their four digits are the same 24-bit number, most significant first. */
  lemma GroupsAreBigEndian(b: seq<byte>)
    requires |b| == 3
    ensures
      var v := Values(Group(b));
      && |v| == 4
      && 65536 * (b[0] as int) + 256 * (b[1] as int) + b[2] as int
         == 262144 * (v[0] as int) + 4096 * (v[1] as int) + 64 * (v[2] as int) + v[3] as int
  {
    hide Values, Group;
    GroupValues(b);
  }

  /** The test vectors of section 10 of RFC 4648 for one, two and three bytes. */
  lemma KnownGroups()
    ensures Encode([0x66]) == "Zg==" && Encode([0x66, 0x6f]) == "Zm8=" && Encode([0x66, 0x6f, 0x6f]) == "Zm9v"
  {
  }

  /** Digits of each kind: 0 to 3, 26 to 29, then 52 to 55, 62 and 63. */
  lemma KnownDigits()
    ensures Encode([0x00, 0x10, 0x83]) == "ABCD" && Encode([0x69, 0xb7, 0x1d]) == "abcd"
  {
  }

  lemma KnownTensAndSigns()
    ensures Encode([0xd3, 0x5d, 0xb7]) == "0123" && Encode([0xfb, 0xff, 0xbf]) == "+/+/"
  {
  }

  /** A character that is no digit, padding and white space included, makes no difference wherever it stands. */
  lemma OtherCharactersAreSkipped(before: string, c: char, after: string)
    requires !('A' <= c <= 'Z') && !('a' <= c <= 'z') && !('0' <= c <= '9') && c != '+' && c != '/'
    ensures Decode(before + [c] + after) == Decode(before + after)
  {
    hide DecodeValues;
    ValuesConcat(before + [c], after);
    ValuesConcat(before, [c]);
    ValuesConcat(before, after);
    ValuesOfOne(c);
    assert Value(c).None? && Values([c]) == [];
    assert Values(before + [c]) == Values(before);
  }

  /** A last digit that completes no byte is dropped. */
  lemma LoneDigitIsDropped(v: seq<Sextet>, d: Sextet)
    requires |v| % 4 == 0
    ensures DecodeValues(v + [d]) == DecodeValues(v)
  {
    hide DecodeValues;
    OneMoreDigit(v, d);
  }
}
