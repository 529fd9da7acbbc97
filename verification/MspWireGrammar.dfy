/**
 * The grammar of MSP frames, stated on whole words of bytes rather than byte by byte.
 *
 * `Render` writes a frame down; `Judge` says of a word that starts with '$' whether it is
 * a proper prefix of a frame, a complete frame, or the point at which an attempt fails.
 * The incremental parser is proved against `Judge`, and `Judge` against `Render`.
 */
module MspWireGrammar {
  import opened MspTypes
  import opened MspChecksum

  function Le16(n: nat): (r: seq<byte>) {
    [n % 256, (n / 256) % 256]
  }

  function FromLe16(lo: byte, hi: byte): nat {
    lo + 256 * hi
  }

  lemma Le16RoundTrip(n: nat)
    requires n <= 0xffff
    ensures FromLe16(Le16(n)[0], Le16(n)[1]) == n
  {
  }

  function DirectionByte(d: Direction): byte {
    match d
    case Request => DIRECTION_REQUEST
    case Response => DIRECTION_RESPONSE
    case Error => DIRECTION_ERROR
  }

  function DirectionFromByte(b: byte): Option<Direction> {
    if b == DIRECTION_REQUEST then Some(Request)
    else if b == DIRECTION_RESPONSE then Some(Response)
    else if b == DIRECTION_ERROR then Some(Error)
    else None
  }

  /** A v1 size field: the jumbo marker postpones the size to two more bytes. */
  function SizeField(size: nat, cmd: byte, jumbo: bool): seq<byte> {
    if jumbo then [JUMBO_SIZE_MARKER, cmd] + Le16(size) else [size % 256, cmd]
  }

  function V2Header(f: MspFrame): seq<byte> {
    [f.flags] + Le16(f.command) + Le16(|f.payload|)
  }

  function V2Inner(f: MspFrame): seq<byte> {
    V2Header(f) + f.payload
  }

  /** The bytes between the direction byte and the last checksum. */
  function Body(f: MspFrame, jumbo: bool): seq<byte> {
    match f.wireFormat
    case V1 => SizeField(|f.payload|, f.command % 256, jumbo) + f.payload
    case V2 => V2Inner(f)
    case V2OverV1 =>
      SizeField(V2_OVER_V1_OVERHEAD + |f.payload|, MSP_V2_FRAME_ID, jumbo) + V2Inner(f) + [CrcSum(0, V2Inner(f))]
  }

  function Magic(f: MspFrame): byte {
    if f.wireFormat.V2? then MAGIC_V2_NATIVE else MAGIC_V1
  }

  function Trailer(f: MspFrame, jumbo: bool): byte {
    if f.wireFormat.V2? then CrcSum(0, Body(f, jumbo)) else XorSum(0, Body(f, jumbo))
  }

  /** The complete word of a frame. */
  function Render(f: MspFrame, jumbo: bool): seq<byte> {
    [DOLLAR, Magic(f), DirectionByte(f.direction)] + Body(f, jumbo) + [Trailer(f, jumbo)]
  }

  /**
   * Frames the wire can carry and a receiver with this payload cap accepts. A jumbo size
   * field may carry a size that would have fitted one byte; nothing forbids it.
   */
  predicate Carriable(max: nat, f: MspFrame, jumbo: bool) {
    && |f.payload| <= max
    && match f.wireFormat
       case V1 =>
         f.command < 255 && f.flags == 0 && |f.payload| <= (if jumbo then 0xffff else 254)
       case V2 =>
         !jumbo && f.command <= 0xffff && |f.payload| <= 0xffff
       case V2OverV1 =>
         f.command <= 0xffff && |f.payload| + V2_OVER_V1_OVERHEAD <= (if jumbo then 0xffff else 254)
  }

  /** Why an attempt to read a frame was given up. */
  datatype Fault =
    | BadMagic(got: byte)
    | BadDirection(got: byte)
    | EnvelopeTooSmall(size: nat)
    | EnvelopeMismatch(outer: nat, required: nat)
    | FrameTooLarge(declared: nat, max: nat)
    | BadChecksum(wireFormat: WireFormat, kind: ChecksumKind, expected: byte, actual: byte)
    | PartialFrameTimeout(elapsed: int, limit: int)

  datatype ChecksumKind = XorKind | CrcKind

  /** `consumed` tells whether the last byte stays with the failed attempt or is looked at again. */
  datatype Verdict =
    | Partial
    | Complete(frame: MspFrame)
    | Reject(fault: Fault, consumed: bool)

  function Judge(max: nat, w: seq<byte>): Verdict
    requires |w| >= 2
  {
    if |w| == 2 then
      if w[1] == MAGIC_V1 || w[1] == MAGIC_V2_NATIVE then Partial else Reject(BadMagic(w[1]), false)
    else if |w| == 3 then
      if DirectionFromByte(w[2]).Some? then Partial else Reject(BadDirection(w[2]), false)
    else if w[1] == MAGIC_V2_NATIVE then JudgeV2(max, w, 3, None)
    else if |w| == 4 then Partial
    else if w[3] != JUMBO_SIZE_MARKER then JudgeV1(max, w, 5, w[3])
    else if |w| < 7 then Partial
    else JudgeV1(max, w, 7, FromLe16(w[5], w[6]))
  }

  function DirectionOf(w: seq<byte>): Direction
    requires |w| >= 3
  {
    DirectionFromByte(w[2]).GetOr(Request)
  }

  /** A word whose v1 size field ends before position h and declares `size`. */
  function JudgeV1(max: nat, w: seq<byte>, h: nat, size: nat): Verdict
    requires 5 <= h <= |w|
  {
    if w[4] == MSP_V2_FRAME_ID then
      if |w| > h then JudgeV2(max, w, h, Some(size))
      else if size < V2_OVER_V1_OVERHEAD then Reject(EnvelopeTooSmall(size), true)
      else if size > max + V2_OVER_V1_OVERHEAD then
        Reject(FrameTooLarge(size - V2_OVER_V1_OVERHEAD, max), true)
      else Partial
    else if |w| == h && size > max then Reject(FrameTooLarge(size, max), true)
    else if |w| <= h + size then Partial
    else
      var expected := XorSum(0, w[3..h + size]);
      if w[h + size] == expected then
        Complete(MspFrame(V1, DirectionOf(w), w[4], 0, w[h..h + size]))
      else
        Reject(BadChecksum(V1, XorKind, expected, w[h + size]), false)
  }

  /** A word whose v2 header starts at position h, inside a v1 envelope when `outer` is given. */
  function JudgeV2(max: nat, w: seq<byte>, h: nat, outer: Option<nat>): Verdict
    requires 3 <= h <= |w|
  {
    if |w| < h + V2_HEADER_SIZE then Partial
    else
      var size := FromLe16(w[h + 3], w[h + 4]);
      var end := h + V2_HEADER_SIZE + size;
      if |w| == h + V2_HEADER_SIZE && size > max then Reject(FrameTooLarge(size, max), true)
      else if |w| == h + V2_HEADER_SIZE && outer.Some? && outer.value != V2_OVER_V1_OVERHEAD + size then
        Reject(EnvelopeMismatch(outer.value, V2_OVER_V1_OVERHEAD + size), true)
      else if |w| <= end then Partial
      else
        var format := if outer.Some? then V2OverV1 else V2;
        var frame := MspFrame(format, DirectionOf(w), FromLe16(w[h + 1], w[h + 2]), w[h], w[h + V2_HEADER_SIZE..end]);
        var crc := CrcSum(0, w[h..end]);
        if |w| == end + 1 then
          if w[end] != crc then Reject(BadChecksum(format, CrcKind, crc, w[end]), false)
          else if outer.Some? then Partial
          else Complete(frame)
        else
          var expected := XorSum(0, w[3..end + 1]);
          if w[end + 1] == expected then Complete(frame)
          else Reject(BadChecksum(V2OverV1, XorKind, expected, w[end + 1]), false)
  }

  /** Words that an attempt passes through: '$', then every longer prefix judged Partial. */
  ghost predicate InProgress(max: nat, w: seq<byte>) {
    && |w| >= 1
    && w[0] == DOLLAR
    && forall n :: 2 <= n <= |w| ==> Judge(max, w[..n]) == Partial
  }

  /** Where the header of a judged word ends, and whether its size field is a jumbo one. */
  function IsJumbo(w: seq<byte>): bool {
    |w| > 3 && w[1] == MAGIC_V1 && w[3] == JUMBO_SIZE_MARKER
  }

  /** What the earlier Partial verdicts of an attempt already established about its first bytes. */
  lemma PrefixFacts(max: nat, w: seq<byte>)
    requires InProgress(max, w)
    ensures |w| >= 2 ==> w[1] == MAGIC_V1 || w[1] == MAGIC_V2_NATIVE
    ensures |w| >= 3 ==> DirectionFromByte(w[2]).Some? && DirectionByte(DirectionOf(w)) == w[2]
  {
    hide XorSum, CrcSum;
    if |w| >= 2 { assert Judge(max, w[..2]) == Partial; }
    if |w| >= 3 { assert Judge(max, w[..3]) == Partial; }
  }

  /** The size checks made once, when the v1 size field of an attempt was complete. */
  lemma V1HeaderFacts(max: nat, w: seq<byte>, h: nat, size: nat)
    requires InProgress(max, w) && |w| >= h && |w| >= 5 && w[1] == MAGIC_V1
    requires h == if w[3] == JUMBO_SIZE_MARKER then 7 else 5
    requires size == if w[3] == JUMBO_SIZE_MARKER then FromLe16(w[5], w[6]) else w[3]
    ensures w[4] != MSP_V2_FRAME_ID ==> size <= max
    ensures w[4] == MSP_V2_FRAME_ID ==> V2_OVER_V1_OVERHEAD <= size <= max + V2_OVER_V1_OVERHEAD
  {
    hide XorSum, CrcSum;
    assert Judge(max, w[..h]) == Partial;
  }

  /** The size checks made once, when the v2 header of an attempt was complete. */
  lemma V2HeaderFacts(max: nat, w: seq<byte>, h: nat, outer: Option<nat>)
    requires InProgress(max, w) && 3 <= h && |w| >= h + V2_HEADER_SIZE
    requires Judge(max, w[..h + V2_HEADER_SIZE]) == JudgeV2(max, w[..h + V2_HEADER_SIZE], h, outer)
    ensures FromLe16(w[h + 3], w[h + 4]) <= max
    ensures outer.Some? ==> outer.value == V2_OVER_V1_OVERHEAD + FromLe16(w[h + 3], w[h + 4])
  {
    hide XorSum, CrcSum;
    assert Judge(max, w[..h + V2_HEADER_SIZE]) == Partial;
  }

  /** A word is its three leading bytes, a body and one trailing checksum byte. */
  lemma AssembleFrame(w: seq<byte>, f: MspFrame, jumbo: bool)
    requires |w| >= 4 && w[..3] == [DOLLAR, Magic(f), DirectionByte(f.direction)]
    requires w[3..|w| - 1] == Body(f, jumbo) && w[|w| - 1] == Trailer(f, jumbo)
    ensures w == Render(f, jumbo)
  {
    hide XorSum, CrcSum;
    assert w == w[..3] + w[3..|w| - 1] + [w[|w| - 1]];
  }

  /** A v1 word whose command marks an envelope is judged by its inner v2 frame. */
  lemma EnvelopeIsJudgedInside(max: nat, w: seq<byte>, h: nat, size: nat)
    requires |w| >= 5 && w[1] == MAGIC_V1 && w[4] == MSP_V2_FRAME_ID
    requires h == (if w[3] == JUMBO_SIZE_MARKER then 7 else 5) < |w|
    requires size == if w[3] == JUMBO_SIZE_MARKER then FromLe16(w[5], w[6]) else w[3]
    ensures Judge(max, w) == JudgeV2(max, w, h, Some(size))
  {
    hide XorSum, CrcSum;
  }

  /** A v1 word with any other command is judged by its own size and checksum. */
  lemma PlainV1IsJudged(max: nat, w: seq<byte>, h: nat, size: nat)
    requires |w| >= 5 && w[1] == MAGIC_V1 && w[4] != MSP_V2_FRAME_ID
    requires h == (if w[3] == JUMBO_SIZE_MARKER then 7 else 5) <= |w|
    requires size == if w[3] == JUMBO_SIZE_MARKER then FromLe16(w[5], w[6]) else w[3]
    ensures Judge(max, w) == JudgeV1(max, w, h, size)
  {
    hide XorSum, CrcSum;
  }

  /** A word cannot be complete before its length field is. */
  lemma CompleteIsLong(max: nat, w: seq<byte>, f: MspFrame)
    requires |w| >= 2 && Judge(max, w) == Complete(f)
    ensures |w| >= 6
    ensures w[1] != MAGIC_V2_NATIVE && w[3] == JUMBO_SIZE_MARKER ==> |w| >= 8
  {
    hide XorSum, CrcSum;
  }

  lemma SizeFieldRead(w: seq<byte>, h: nat, size: nat)
    requires |w| >= 5 && w[1] == MAGIC_V1 && |w| >= h
    requires h == if w[3] == JUMBO_SIZE_MARKER then 7 else 5
    requires size == if w[3] == JUMBO_SIZE_MARKER then FromLe16(w[5], w[6]) else w[3]
    ensures w[3..h] == SizeField(size, w[4], IsJumbo(w))
  {
  }

  /** SOUNDNESS: a word that completes an attempt is exactly the rendering of the frame reported. */
  lemma CompleteIsRendered(max: nat, w: seq<byte>, f: MspFrame)
    requires |w| >= 2 && InProgress(max, w[..|w| - 1]) && Judge(max, w) == Complete(f)
    ensures Carriable(max, f, IsJumbo(w)) && w == Render(f, IsJumbo(w))
  {
    hide XorSum, CrcSum, Render, Carriable, JudgeV1, JudgeV2;
    var p := w[..|w| - 1];
    CompleteIsLong(max, w, f);
    PrefixFacts(max, p);
    assert p[..|p|] == p && Judge(max, p) == Partial;
    if w[1] == MAGIC_V2_NATIVE {
      CompleteOutside(max, w, p, f);
    } else {
      var h := if w[3] == JUMBO_SIZE_MARKER then 7 else 5;
      var size := if w[3] == JUMBO_SIZE_MARKER then FromLe16(w[5], w[6]) else w[3];
      V1HeaderFacts(max, p, h, size);
      SizeFieldRead(w, h, size);
      if w[4] == MSP_V2_FRAME_ID {
        CompleteInEnvelope(max, w, p, f, h, size);
      } else {
        CompletePlainV1(max, w, p, f, h, size);
      }
    }
  }

  lemma CompletePlainV1(max: nat, w: seq<byte>, p: seq<byte>, f: MspFrame, h: nat, size: nat)
    requires |w| >= 6 && p == w[..|w| - 1] && w[0] == DOLLAR && w[1] == MAGIC_V1 && w[4] != MSP_V2_FRAME_ID
    requires DirectionByte(DirectionOf(w)) == w[2]
    requires h == if w[3] == JUMBO_SIZE_MARKER then 7 else 5
    requires |p| >= h && size == if w[3] == JUMBO_SIZE_MARKER then FromLe16(w[5], w[6]) else w[3]
    requires size <= max && w[3..h] == SizeField(size, w[4], IsJumbo(w))
    requires Judge(max, p) == Partial && Judge(max, w) == Complete(f)
    ensures Carriable(max, f, IsJumbo(w)) && w == Render(f, IsJumbo(w))
  {
    hide XorSum, CrcSum, Render;
    PlainV1IsJudged(max, w, h, size);
    PlainV1IsJudged(max, p, h, size);
    CompleteV1(w, f, h, size);
  }

  lemma CompleteOutside(max: nat, w: seq<byte>, p: seq<byte>, f: MspFrame)
    requires |w| >= 6 && p == w[..|w| - 1] && InProgress(max, p) && w[1] == MAGIC_V2_NATIVE
    requires DirectionByte(DirectionOf(w)) == w[2]
    requires Judge(max, p) == Partial && Judge(max, w) == Complete(f)
    ensures Carriable(max, f, IsJumbo(w)) && w == Render(f, IsJumbo(w))
  {
    hide XorSum, CrcSum, Render;
    V2HeaderFacts(max, p, 3, None);
    V2End(max, w, p, f);
    CompleteV2(max, w, f);
  }

  lemma V2End(max: nat, w: seq<byte>, p: seq<byte>, f: MspFrame)
    requires |w| >= 9 && p == w[..|w| - 1] && w[1] == MAGIC_V2_NATIVE
    requires Judge(max, p) == Partial && Judge(max, w) == Complete(f)
    ensures |w| == 9 + FromLe16(w[6], w[7]) && JudgeV2(max, w, 3, None) == Complete(f)
  {
    hide XorSum, CrcSum;
  }

  lemma EnvelopeEnd(max: nat, w: seq<byte>, p: seq<byte>, f: MspFrame, h: nat)
    requires h >= 5 && |p| >= h + 5 && |w| == |p| + 1 && p == w[..|w| - 1]
    requires JudgeV2(max, p, h, Some(V2_OVER_V1_OVERHEAD + FromLe16(w[h + 3], w[h + 4]))) == Partial
    requires JudgeV2(max, w, h, Some(V2_OVER_V1_OVERHEAD + FromLe16(w[h + 3], w[h + 4]))) == Complete(f)
    ensures |w| == h + 7 + FromLe16(w[h + 3], w[h + 4])
    ensures f == MspFrame(V2OverV1, DirectionOf(w), FromLe16(w[h + 1], w[h + 2]), w[h], w[h + 5..|w| - 2])
    ensures w[|w| - 2] == CrcSum(0, w[h..|w| - 2]) && w[|w| - 1] == XorSum(0, w[3..|w| - 1])
  {
    hide XorSum, CrcSum;
    var end := h + 5 + FromLe16(w[h + 3], w[h + 4]);
    assert |p| == end + 1;
    assert p[h..end] == w[h..end];
  }

  lemma CompleteInEnvelope(max: nat, w: seq<byte>, p: seq<byte>, f: MspFrame, h: nat, size: nat)
    requires |w| >= 6 && p == w[..|w| - 1] && InProgress(max, p) && Judge(max, p) == Partial
    requires w[1] == MAGIC_V1 && DirectionByte(DirectionOf(w)) == w[2] && w[4] == MSP_V2_FRAME_ID
    requires h == if w[3] == JUMBO_SIZE_MARKER then 7 else 5
    requires |w| > h && size == if w[3] == JUMBO_SIZE_MARKER then FromLe16(w[5], w[6]) else w[3]
    requires w[3..h] == SizeField(size, MSP_V2_FRAME_ID, IsJumbo(w)) && size >= V2_OVER_V1_OVERHEAD
    requires Judge(max, w) == Complete(f)
    ensures Carriable(max, f, IsJumbo(w)) && w == Render(f, IsJumbo(w))
  {
    hide XorSum, CrcSum;
    EnvelopeIsJudgedInside(max, w, h, size);
    assert |p| > h + 5;
    EnvelopeIsJudgedInside(max, p[..h + 5], h, size);
    V2HeaderFacts(max, p, h, Some(size));
    EnvelopeIsJudgedInside(max, p, h, size);
    EnvelopeEnd(max, w, p, f, h);
    InnerOf(w, f, h);
    CompleteEnvelope(w, f, h, size);
  }

  lemma CompleteV1(w: seq<byte>, f: MspFrame, h: nat, size: nat)
    requires 5 <= h <= 7 && |w| == h + size + 1 && w[0] == DOLLAR && w[1] == MAGIC_V1
    requires DirectionByte(DirectionOf(w)) == w[2]
    requires w[3..h] == SizeField(size, w[4], IsJumbo(w))
    requires f == MspFrame(V1, DirectionOf(w), w[4], 0, w[h..h + size])
    requires w[h + size] == XorSum(0, w[3..h + size])
    ensures w == Render(f, IsJumbo(w))
  {
    hide XorSum, CrcSum;
    assert w[3..h + size] == w[3..h] + w[h..h + size];
    assert Body(f, IsJumbo(w)) == w[3..h + size];
    AssembleFrame(w, f, IsJumbo(w));
  }

  lemma CompleteV2(max: nat, w: seq<byte>, f: MspFrame)
    requires |w| >= 9 && w[0] == DOLLAR && w[1] == MAGIC_V2_NATIVE && DirectionByte(DirectionOf(w)) == w[2]
    requires FromLe16(w[6], w[7]) <= max
    requires JudgeV2(max, w, 3, None) == Complete(f)
    requires |w| == 9 + FromLe16(w[6], w[7])
    ensures Carriable(max, f, false) && w == Render(f, false)
  {
    hide XorSum, CrcSum;
    assert V2Header(f) == w[3..8];
    assert w[3..|w| - 1] == w[3..8] + w[8..|w| - 1];
    assert Body(f, false) == w[3..|w| - 1];
    AssembleFrame(w, f, false);
  }

  lemma InnerOf(w: seq<byte>, f: MspFrame, h: nat)
    requires 3 <= h && |w| >= h + 5 + |f.payload|
    requires f.flags == w[h] && f.command == FromLe16(w[h + 1], w[h + 2])
    requires |f.payload| == FromLe16(w[h + 3], w[h + 4]) && f.payload == w[h + 5..h + 5 + |f.payload|]
    ensures V2Inner(f) == w[h..h + 5 + |f.payload|]
  {
    hide XorSum, CrcSum;
    assert V2Header(f) == w[h..h + 5];
  }

  lemma CompleteEnvelope(w: seq<byte>, f: MspFrame, h: nat, size: nat)
    requires 5 <= h <= 7 && V2_OVER_V1_OVERHEAD <= size && |w| == h + size + 1
    requires w[..3] == [DOLLAR, MAGIC_V1, DirectionByte(f.direction)]
    requires f.wireFormat == V2OverV1 && |f.payload| == size - V2_OVER_V1_OVERHEAD
    requires w[3..h] == SizeField(size, MSP_V2_FRAME_ID, IsJumbo(w))
    requires V2Inner(f) == w[h..|w| - 2]
    requires w[|w| - 2] == CrcSum(0, w[h..|w| - 2]) && w[|w| - 1] == XorSum(0, w[3..|w| - 1])
    ensures w == Render(f, IsJumbo(w))
  {
    hide XorSum, CrcSum;
    var end := |w| - 2;
    assert w[3..end + 1] == w[3..h] + w[h..end] + [w[end]];
    assert Body(f, IsJumbo(w)) == w[3..end + 1];
    AssembleFrame(w, f, IsJumbo(w));
  }

  /** COMPLETENESS: every carriable frame, in either size form, is judged complete, and never earlier. */
  lemma RenderedIsComplete(max: nat, f: MspFrame, jumbo: bool)
    requires Carriable(max, f, jumbo)
    ensures var w := Render(f, jumbo);
            |w| >= 6 && InProgress(max, w[..|w| - 1]) && Judge(max, w) == Complete(f)
  {
    hide XorSum, CrcSum, Judge, JudgeV1, JudgeV2;
    var w := Render(f, jumbo);
    match f.wireFormat {
      case V1 => RenderedV1(max, f, jumbo, w);
      case V2 => RenderedV2(max, f, jumbo, w);
      case V2OverV1 => RenderedEnvelope(max, f, jumbo, w);
    }
    var p := w[..|w| - 1];
    forall n | 2 <= n <= |p| ensures Judge(max, p[..n]) == Partial {
      assert p[..n] == w[..n];
    }
  }

  lemma RenderedV1(max: nat, f: MspFrame, jumbo: bool, w: seq<byte>)
    requires Carriable(max, f, jumbo) && f.wireFormat.V1? && w == Render(f, jumbo)
    ensures |w| >= 6 && w[0] == DOLLAR && Judge(max, w) == Complete(f)
    ensures forall n :: 2 <= n < |w| ==> Judge(max, w[..n]) == Partial
  {
    hide XorSum, CrcSum;
    var size := |f.payload|;
    var h := if jumbo then 7 else 5;
    if jumbo { Le16RoundTrip(size); }
    assert |w| == h + size + 1;
    assert w[3..h + size] == Body(f, jumbo);
    assert w[h..h + size] == f.payload;
    PlainV1IsJudged(max, w, h, size);
    forall n | 2 <= n < |w| ensures Judge(max, w[..n]) == Partial {
      if n >= h { PlainV1IsJudged(max, w[..n], h, size); }
    }
  }

  /** Where the v2 header and payload of a rendered v2 frame stand, from position h on. */
  ghost predicate CarriesV2At(f: MspFrame, w: seq<byte>, h: nat) {
    && 3 <= h && |w| >= h + V2_HEADER_SIZE + |f.payload| + 1
    && w[h..h + V2_HEADER_SIZE + |f.payload|] == V2Inner(f)
    && w[h + V2_HEADER_SIZE + |f.payload|] == CrcSum(0, V2Inner(f))
    && DirectionOf(w) == f.direction
  }

  lemma CarriedFields(f: MspFrame, w: seq<byte>, h: nat)
    requires CarriesV2At(f, w, h) && f.command <= 0xffff && |f.payload| <= 0xffff
    ensures w[h] == f.flags && FromLe16(w[h + 1], w[h + 2]) == f.command
    ensures FromLe16(w[h + 3], w[h + 4]) == |f.payload|
    ensures w[h + V2_HEADER_SIZE..h + V2_HEADER_SIZE + |f.payload|] == f.payload
  {
    hide XorSum, CrcSum;
    var inner := w[h..h + V2_HEADER_SIZE + |f.payload|];
    assert inner[0] == w[h] && inner[1] == w[h + 1] && inner[2] == w[h + 2]
        && inner[3] == w[h + 3] && inner[4] == w[h + 4];
    assert inner[V2_HEADER_SIZE..] == f.payload;
    Le16RoundTrip(f.command);
    Le16RoundTrip(|f.payload|);
  }

  /** Every cut of a carried v2 frame up to its CRC is judged Partial from inside. */
  lemma CarriedPrefixes(max: nat, f: MspFrame, w: seq<byte>, h: nat, outer: Option<nat>, n: nat)
    requires CarriesV2At(f, w, h) && f.command <= 0xffff && |f.payload| <= 0xffff && |f.payload| <= max
    requires outer.Some? ==> outer.value == V2_OVER_V1_OVERHEAD + |f.payload|
    requires h <= n <= h + V2_HEADER_SIZE + |f.payload|
    ensures JudgeV2(max, w[..n], h, outer) == Partial
  {
    hide XorSum, CrcSum;
    CarriedFields(f, w, h);
  }

  lemma RenderedV2(max: nat, f: MspFrame, jumbo: bool, w: seq<byte>)
    requires Carriable(max, f, jumbo) && f.wireFormat.V2? && w == Render(f, jumbo)
    ensures |w| >= 6 && w[0] == DOLLAR && Judge(max, w) == Complete(f)
    ensures forall n :: 2 <= n < |w| ==> Judge(max, w[..n]) == Partial
  {
    hide XorSum, CrcSum;
    assert |w| == 9 + |f.payload|;
    assert w[3..|w| - 1] == Body(f, jumbo);
    CarriedFields(f, w, 3);
    assert Judge(max, w) == JudgeV2(max, w, 3, None);
    forall n | 2 <= n < |w| ensures Judge(max, w[..n]) == Partial {
      CarriedPrefixes(max, f, w, 3, None, if n < 3 then 3 else n);
    }
  }

  lemma RenderedEnvelope(max: nat, f: MspFrame, jumbo: bool, w: seq<byte>)
    requires Carriable(max, f, jumbo) && f.wireFormat.V2OverV1? && w == Render(f, jumbo)
    ensures |w| >= 6 && w[0] == DOLLAR && Judge(max, w) == Complete(f)
    ensures forall n :: 2 <= n < |w| ==> Judge(max, w[..n]) == Partial
  {
    hide XorSum, CrcSum, JudgeV2, Render;
    var size := V2_OVER_V1_OVERHEAD + |f.payload|;
    var h := if jumbo then 7 else 5;
    var end := h + V2_HEADER_SIZE + |f.payload|;
    if jumbo { Le16RoundTrip(size); }
    EnvelopeLayout(f, jumbo, w, h, end);
    EnvelopeHeader(f, jumbo, w, h);
    EnvelopeTail(max, f, w, h);
    EnvelopeIsJudgedInside(max, w, h, size);
    forall n | 2 <= n < |w| ensures Judge(max, w[..n]) == Partial {
      if n > h {
        EnvelopeIsJudgedInside(max, w[..n], h, size);
        if n <= end {
          CarriedPrefixes(max, f, w, h, Some(size), n);
        }
      }
    }
  }

  lemma EnvelopeHeader(f: MspFrame, jumbo: bool, w: seq<byte>, h: nat)
    requires h == (if jumbo then 7 else 5) && |w| >= h
    requires w[3..h] == SizeField(V2_OVER_V1_OVERHEAD + |f.payload|, MSP_V2_FRAME_ID, jumbo)
    requires V2_OVER_V1_OVERHEAD + |f.payload| <= if jumbo then 0xffff else 254
    ensures w[4] == MSP_V2_FRAME_ID && (w[3] == JUMBO_SIZE_MARKER <==> jumbo)
    ensures V2_OVER_V1_OVERHEAD + |f.payload| == if jumbo then FromLe16(w[5], w[6]) else w[3]
  {
    var field := w[3..h];
    assert field[0] == w[3] && field[1] == w[4];
    if jumbo {
      assert field[2] == w[5] && field[3] == w[6];
      Le16RoundTrip(V2_OVER_V1_OVERHEAD + |f.payload|);
    }
  }

  /** The two checksums that close an envelope: the inner one lets it go on, the outer one ends it. */
  lemma EnvelopeTail(max: nat, f: MspFrame, w: seq<byte>, h: nat)
    requires f.wireFormat.V2OverV1? && f.command <= 0xffff && |f.payload| <= 0xffff
    requires CarriesV2At(f, w, h) && |w| == h + V2_HEADER_SIZE + |f.payload| + 2
    requires w[|w| - 1] == XorSum(0, w[3..|w| - 1])
    ensures JudgeV2(max, w, h, Some(V2_OVER_V1_OVERHEAD + |f.payload|)) == Complete(f)
    ensures JudgeV2(max, w[..|w| - 1], h, Some(V2_OVER_V1_OVERHEAD + |f.payload|)) == Partial
  {
    hide XorSum, CrcSum, Render;
    CarriedFields(f, w, h);
    var end := |w| - 2;
    assert w[..end + 1][h..end] == w[h..end];
  }

  lemma EnvelopeLayout(f: MspFrame, jumbo: bool, w: seq<byte>, h: nat, end: nat)
    requires f.wireFormat.V2OverV1? && w == Render(f, jumbo)
    requires h == (if jumbo then 7 else 5) && end == h + V2_HEADER_SIZE + |f.payload|
    ensures |w| == end + 2
    ensures w[..3] == [DOLLAR, MAGIC_V1, DirectionByte(f.direction)]
    ensures w[3..h] == SizeField(V2_OVER_V1_OVERHEAD + |f.payload|, MSP_V2_FRAME_ID, jumbo)
    ensures CarriesV2At(f, w, h)
    ensures w[end + 1] == XorSum(0, w[3..end + 1])
  {
    hide XorSum, CrcSum;
    var body := Body(f, jumbo);
    assert w[3..end + 1] == body;
    assert body[h - 3..end - 3] == V2Inner(f);
    assert w[h..end] == body[h - 3..end - 3];
    assert w[end] == body[end - 3];
  }

  /** A carriable word reads back as one frame only. */
  lemma RenderIsInjective(max: nat, f: MspFrame, fJumbo: bool, g: MspFrame, gJumbo: bool)
    requires Carriable(max, f, fJumbo) && Carriable(max, g, gJumbo) && Render(f, fJumbo) == Render(g, gJumbo)
    ensures f == g
  {
    hide XorSum, CrcSum, Judge, Render, Carriable;
    RenderedIsComplete(max, f, fJumbo);
    RenderedIsComplete(max, g, gJumbo);
  }
}
