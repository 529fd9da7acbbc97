/** Builds outgoing MSP request frames. */
module MspEncoder {
  import opened MspTypes
  import opened MspChecksum
  import opened MspWireGrammar
  import opened MspStream

  datatype EncodeOptions = EncodeOptions(wireFormat: WireFormat, flags: int, maxPayloadBytes: int)

  datatype EncodeError =
    | FlagsOnV1
    | FlagsOutOfRange
    | PayloadOverCap
    | PayloadOverCeiling
    | CommandOutOfRange
    | ReservedCommand

  /** The first check a request fails, in the order the checks are made. */
  function Refusal(command: int, payload: seq<byte>, o: EncodeOptions): Option<EncodeError> {
    if o.flags != 0 && o.wireFormat.V1? then Some(FlagsOnV1)
    else if o.flags < 0 || o.flags > 0xff then Some(FlagsOutOfRange)
    else if |payload| > o.maxPayloadBytes then Some(PayloadOverCap)
    else if |payload| > MSP_PROTOCOL_SIZE_FIELD_CEILING then Some(PayloadOverCeiling)
    else if command < 0 || command > (if o.wireFormat.V1? then 0xff else 0xffff) then Some(CommandOutOfRange)
    else if o.wireFormat.V1? && command == MSP_V2_FRAME_ID then Some(ReservedCommand)
    else None
  }

  /** The frame a request asks for. */
  function RequestFrame(command: int, payload: seq<byte>, o: EncodeOptions): MspFrame
    requires Refusal(command, payload, o).None?
  {
    MspFrame(o.wireFormat, Request, command, o.flags, payload)
  }

  /** The encoder uses the jumbo size field exactly when one byte cannot hold the size. */
  function MinimalJumbo(f: MspFrame): bool {
    match f.wireFormat
    case V1 => |f.payload| >= 255
    case V2 => false
    case V2OverV1 => |f.payload| + V2_OVER_V1_OVERHEAD >= 255
  }

  function Flatten(chunks: seq<seq<byte>>): seq<byte> {
    if chunks == [] then [] else Flatten(chunks[..|chunks| - 1]) + chunks[|chunks| - 1]
  }

  function TotalLength(chunks: seq<seq<byte>>): nat {
    if chunks == [] then 0 else TotalLength(chunks[..|chunks| - 1]) + |chunks[|chunks| - 1]|
  }

  lemma {:induction false} PrefixIsShorter(chunks: seq<seq<byte>>, i: nat)
    requires i <= |chunks|
    ensures TotalLength(chunks[..i]) <= TotalLength(chunks)
    decreases |chunks| - i
  {
    if i < |chunks| {
      PrefixIsShorter(chunks, i + 1);
      assert chunks[..i + 1][..i] == chunks[..i];
    } else {
      assert chunks[..i] == chunks;
    }
  }

  /** Copies a chunk into a buffer, leaving what stands before it. */
  method Set(out: array<byte>, chunk: seq<byte>, offset: nat)
    requires offset + |chunk| <= out.Length
    modifies out
    ensures out[..offset + |chunk|] == old(out[..offset]) + chunk
  {
    ghost var before := out[..offset];
    for j := 0 to |chunk|
      invariant out[..offset] == before
      invariant out[offset..offset + j] == chunk[..j]
    {
      out[offset + j] := chunk[j];
    }
    assert out[..offset + |chunk|] == out[..offset] + out[offset..offset + |chunk|];
  }

  /** Sizes one buffer and copies the chunks into it one behind the other. */
  method ConcatBytes(chunks: seq<seq<byte>>) returns (out: array<byte>)
    ensures fresh(out) && out[..] == Flatten(chunks)
  {
    var total := 0;
    for i := 0 to |chunks|
      invariant total == TotalLength(chunks[..i])
    {
      assert chunks[..i + 1][..i] == chunks[..i];
      total := total + |chunks[i]|;
    }
    assert chunks[..|chunks|] == chunks;
    out := new byte[total];
    var offset := 0;
    for i := 0 to |chunks|
      invariant offset == TotalLength(chunks[..i]) <= total
      invariant out[..offset] == Flatten(chunks[..i])
    {
      assert chunks[..i + 1][..i] == chunks[..i];
      PrefixIsShorter(chunks, i + 1);
      Set(out, chunks[i], offset);
      offset := offset + |chunks[i]|;
    }
    assert chunks[..|chunks|] == chunks;
  }

  lemma Flatten2(a: seq<byte>, b: seq<byte>)
    ensures Flatten([a, b]) == a + b
  {
    assert [a, b][..1] == [a] && [a][..0] == [];
    assert Flatten([a]) == [] + a;
  }

  lemma Flatten3(a: seq<byte>, b: seq<byte>, c: seq<byte>)
    ensures Flatten([a, b, c]) == a + b + c
  {
    assert [a, b, c][..2] == [a, b];
    Flatten2(a, b);
  }

  lemma Flatten4(a: seq<byte>, b: seq<byte>, c: seq<byte>, d: seq<byte>)
    ensures Flatten([a, b, c, d]) == a + b + c + d
  {
    assert [a, b, c, d][..3] == [a, b, c];
    Flatten3(a, b, c);
  }

  method EncodeV1Native(command: int, payload: seq<byte>) returns (r: Result<seq<byte>, EncodeError>)
    requires |payload| <= MSP_PROTOCOL_SIZE_FIELD_CEILING
    ensures r.Err? <==> Refusal(command, payload, EncodeOptions(V1, 0, |payload|)).Some?
    ensures r.Err? ==> r.error == Refusal(command, payload, EncodeOptions(V1, 0, |payload|)).value
    ensures r.Ok? ==> var f := MspFrame(V1, Request, command, 0, payload); r.value == Render(f, MinimalJumbo(f))
  {
    hide XorSum, CrcSum;
    if command < 0 || command > 0xff {
      return Err(CommandOutOfRange);
    }
    if command == MSP_V2_FRAME_ID {
      return Err(ReservedCommand);
    }
    var dataLen := |payload|;
    var sizeField := if dataLen >= JUMBO_SIZE_MARKER then [JUMBO_SIZE_MARKER, command] + Le16(dataLen)
                     else [dataLen, command];
    Flatten2(sizeField, payload);
    var checksummed := ConcatBytes([sizeField, payload]);
    var checksum := XorChecksum(checksummed[..], 0);
    var lead := [DOLLAR, MAGIC_V1, DIRECTION_REQUEST];
    Flatten3(lead, checksummed[..], [checksum]);
    var out := ConcatBytes([lead, checksummed[..], [checksum]]);
    ghost var f := MspFrame(V1, Request, command, 0, payload);
    assert checksummed[..] == Body(f, MinimalJumbo(f));
    return Ok(out[..]);
  }

  method BuildV2Header(command: int, flags: byte, dataLen: nat) returns (r: Result<seq<byte>, EncodeError>)
    ensures r == if 0 <= command <= 0xffff then Ok([flags] + Le16(command) + Le16(dataLen)) else Err(CommandOutOfRange)
  {
    if command < 0 || command > 0xffff {
      return Err(CommandOutOfRange);
    }
    return Ok([flags] + Le16(command) + Le16(dataLen));
  }

  method EncodeV2Native(command: int, payload: seq<byte>, flags: byte) returns (r: Result<seq<byte>, EncodeError>)
    ensures r.Err? <==> !(0 <= command <= 0xffff)
    ensures r.Err? ==> r.error == CommandOutOfRange
    ensures r.Ok? ==> r.value == Render(MspFrame(V2, Request, command, flags, payload), false)
  {
    hide XorSum, CrcSum;
    var header := BuildV2Header(command, flags, |payload|);
    if header.Err? {
      return header;
    }
    Flatten2(header.value, payload);
    var inner := ConcatBytes([header.value, payload]);
    var crc := Crc8DvbS2(inner[..], 0);
    var lead := [DOLLAR, MAGIC_V2_NATIVE, DIRECTION_REQUEST];
    Flatten4(lead, header.value, payload, [crc]);
    var out := ConcatBytes([lead, header.value, payload, [crc]]);
    ghost var f := MspFrame(V2, Request, command, flags, payload);
    assert inner[..] == Body(f, false);
    assert out[..] == lead + inner[..] + [crc];
    return Ok(out[..]);
  }

  lemma EnvelopeAssembles(f: MspFrame, field: seq<byte>, header: seq<byte>)
    requires f.wireFormat.V2OverV1? && f.direction.Request? && header == V2Header(f)
    requires field == if MinimalJumbo(f)
                      then [JUMBO_SIZE_MARKER, MSP_V2_FRAME_ID] + Le16(|f.payload| + V2_OVER_V1_OVERHEAD)
                      else [|f.payload| + V2_OVER_V1_OVERHEAD, MSP_V2_FRAME_ID]
    ensures var covered := field + header + f.payload + [CrcSum(0, header + f.payload)];
            [DOLLAR, MAGIC_V1, DIRECTION_REQUEST] + covered + [XorSum(0, covered)] == Render(f, MinimalJumbo(f))
  {
    hide XorSum, CrcSum;
    var crc := CrcSum(0, header + f.payload);
    assert field + header + f.payload + [crc] == field + (header + f.payload) + [crc];
    assert field + (header + f.payload) + [crc] == Body(f, MinimalJumbo(f));
  }

  method EncodeV2OverV1(command: int, payload: seq<byte>, flags: byte) returns (r: Result<seq<byte>, EncodeError>)
    ensures r.Err? <==> !(0 <= command <= 0xffff)
    ensures r.Err? ==> r.error == CommandOutOfRange
    ensures r.Ok? ==> var f := MspFrame(V2OverV1, Request, command, flags, payload);
            r.value == Render(f, MinimalJumbo(f))
  {
    hide XorSum, CrcSum, Render, Flatten;
    var header := BuildV2Header(command, flags, |payload|);
    if header.Err? {
      return header;
    }
    Flatten2(header.value, payload);
    var inner := ConcatBytes([header.value, payload]);
    var innerCrc := Crc8DvbS2(inner[..], 0);
    var v1PayloadSize := V2_HEADER_SIZE + |payload| + 1;
    var outerSizeField := if v1PayloadSize >= JUMBO_SIZE_MARKER
                          then [JUMBO_SIZE_MARKER, MSP_V2_FRAME_ID] + Le16(v1PayloadSize)
                          else [v1PayloadSize, MSP_V2_FRAME_ID];
    Flatten4(outerSizeField, header.value, payload, [innerCrc]);
    var outerChecksummed := ConcatBytes([outerSizeField, header.value, payload, [innerCrc]]);
    var outerChecksum := XorChecksum(outerChecksummed[..], 0);
    var lead := [DOLLAR, MAGIC_V1, DIRECTION_REQUEST];
    Flatten3(lead, outerChecksummed[..], [outerChecksum]);
    var out := ConcatBytes([lead, outerChecksummed[..], [outerChecksum]]);
    EnvelopeAssembles(MspFrame(V2OverV1, Request, command, flags, payload), outerSizeField, header.value);
    return Ok(out[..]);
  }

  /** Refuses exactly what the checks refuse, and otherwise writes the frame in its shortest form. */
  method Encode(command: int, payload: seq<byte>, o: EncodeOptions) returns (r: Result<seq<byte>, EncodeError>)
    ensures r.Err? <==> Refusal(command, payload, o).Some?
    ensures r.Err? ==> r.error == Refusal(command, payload, o).value
    ensures r.Ok? ==>
      var f := RequestFrame(command, payload, o);
      r.value == Render(f, MinimalJumbo(f))
  {
    hide Render;
    if o.flags != 0 && o.wireFormat.V1? {
      return Err(FlagsOnV1);
    }
    if o.flags < 0 || o.flags > 0xff {
      return Err(FlagsOutOfRange);
    }
    if |payload| > o.maxPayloadBytes {
      return Err(PayloadOverCap);
    }
    if |payload| > MSP_PROTOCOL_SIZE_FIELD_CEILING {
      return Err(PayloadOverCeiling);
    }
    match o.wireFormat {
      case V1 => r := EncodeV1Native(command, payload);
      case V2 => r := EncodeV2Native(command, payload, o.flags);
      case V2OverV1 => r := EncodeV2OverV1(command, payload, o.flags);
    }
  }

  // ---------------------------------------------------------------- reading back what was written

  /** The envelope's own size field is the only thing an accepted request can overflow. */
  predicate EnvelopeFits(f: MspFrame) {
    f.wireFormat.V2OverV1? ==> |f.payload| + V2_OVER_V1_OVERHEAD <= MSP_PROTOCOL_SIZE_FIELD_CEILING
  }

  lemma AcceptedIsCarriable(command: int, payload: seq<byte>, o: EncodeOptions, max: nat)
    requires Refusal(command, payload, o).None? && |payload| <= max
    ensures var f := RequestFrame(command, payload, o);
            Carriable(max, f, MinimalJumbo(f)) <==> EnvelopeFits(f)
  {
  }

  /**
   * An envelope whose size wrapped announces less than a v2 header and is given up at once, and nothing in the rest
   * of its bytes is read as the frame that was meant.
   */
  lemma WrappedEnvelopeIsAbandoned(max: nat, f: MspFrame, now: int)
    requires f.wireFormat.V2OverV1? && f.direction.Request? && |f.payload| <= MSP_PROTOCOL_SIZE_FIELD_CEILING
    requires !EnvelopeFits(f)
    ensures var o := FeedAll(max, START, Render(f, true), now);
            && o.segments != [] && EventOf(o.segments[0]).Diagnostic?
            && FrameEvent(f) !in EventsOf(o.segments)
  {
    hide FeedAll, Render, EnvelopeFits;
    WrappedSizeIsRejected(max, f, now);
    NeverReported(max, f, Render(f, true), now);
  }

  lemma WrappedSizeIsRejected(max: nat, f: MspFrame, now: int)
    requires f.wireFormat.V2OverV1? && f.direction.Request? && |f.payload| <= MSP_PROTOCOL_SIZE_FIELD_CEILING
    requires !EnvelopeFits(f)
    ensures var o := FeedAll(max, START, Render(f, true), now);
            o.segments != [] && EventOf(o.segments[0]).Diagnostic?
  {
    hide XorSum, CrcSum, JudgeV2;
    var w := Render(f, true);
    var head := w[..6];
    assert w[..7] == [DOLLAR, MAGIC_V1, DIRECTION_REQUEST, JUMBO_SIZE_MARKER, MSP_V2_FRAME_ID]
                     + Le16(V2_OVER_V1_OVERHEAD + |f.payload|);
    assert w[..7][..6] == head && head + [w[6]] == w[..7] && w == w[..7] + w[7..];
    assert FromLe16(w[5], w[6]) == V2_OVER_V1_OVERHEAD + |f.payload| - 0x10000;
    RejectedHead(max, w[..7], w[7..], now);
  }

  /** A jumbo envelope that announces less than a v2 header is given up at the end of its size field. */
  lemma RejectedHead(max: nat, w: seq<byte>, rest: seq<byte>, now: int)
    requires |w| == 7 && w[..5] == [DOLLAR, MAGIC_V1, DIRECTION_REQUEST, JUMBO_SIZE_MARKER, MSP_V2_FRAME_ID]
    requires FromLe16(w[5], w[6]) < V2_OVER_V1_OVERHEAD
    ensures var o := FeedAll(max, START, w + rest, now);
            o.segments != [] && EventOf(o.segments[0]).Diagnostic?
  {
    hide XorSum, CrcSum, JudgeV2;
    var head := w[..6];
    OpenHead(max, head);
    FeedInProgress(max, START, head, now);
    assert head + [w[6]] == w;
    assert Judge(max, w) == Reject(EnvelopeTooSmall(FromLe16(w[5], w[6])), true);
    assert EventOf(FeedAll(max, START, w, now).segments[0]).Diagnostic?;
    FeedAllConcat(max, START, w, rest, now);
  }

  lemma OpenHead(max: nat, head: seq<byte>)
    requires |head| == 6 && head[..5] == [DOLLAR, MAGIC_V1, DIRECTION_REQUEST, JUMBO_SIZE_MARKER, MSP_V2_FRAME_ID]
    ensures InProgress(max, head)
  {
    hide XorSum, CrcSum, JudgeV2;
    assert head[0] == DOLLAR && head[1] == MAGIC_V1 && head[2] == DIRECTION_REQUEST && head[3] == JUMBO_SIZE_MARKER;
  }

  /** A frame its envelope cannot carry is never reported, by whatever bytes. */
  lemma NeverReported(max: nat, f: MspFrame, bytes: seq<byte>, now: int)
    requires !EnvelopeFits(f)
    ensures FrameEvent(f) !in EventsOf(FeedAll(max, START, bytes, now).segments)
  {
    hide FeedAll, Render;
    FeedAllIsSound(max, START, bytes, now);
    var o := FeedAll(max, START, bytes, now);
    forall i | 0 <= i < |o.segments| ensures EventOf(o.segments[i]) != FrameEvent(f) {
      assert o.segments[i] in o.segments;
    }
  }

  /**
   * ENCODE THEN PARSE, for every accepted request: the parser reports exactly that one frame and
   * holds nothing back, if and only if the envelope's size field did not overflow.
   */
  lemma EncodedReadsBackIff(command: int, payload: seq<byte>, o: EncodeOptions, max: nat, now: int)
    requires Refusal(command, payload, o).None? && |payload| <= max
    ensures var f := RequestFrame(command, payload, o);
            var read := FeedAll(max, START, Render(f, MinimalJumbo(f)), now);
            (read.reader == START && EventsOf(read.segments) == [FrameEvent(f)]) <==> EnvelopeFits(f)
  {
    hide Render, FeedAll, Carriable;
    var f := RequestFrame(command, payload, o);
    AcceptedIsCarriable(command, payload, o, max);
    if EnvelopeFits(f) {
      FeedFrame(max, START, f, MinimalJumbo(f), now);
    } else {
      WrappedEnvelopeIsAbandoned(max, f, now);
      var read := FeedAll(max, START, Render(f, true), now);
      assert EventsOf(read.segments)[0] == EventOf(read.segments[0]);
    }
  }

  /** With the default cap no accepted request overflows, so every one reads back. */
  lemma DefaultCapReadsBack(command: int, payload: seq<byte>, o: EncodeOptions, now: int)
    requires o.maxPayloadBytes == MSP_MAX_PAYLOAD_BYTES_DEFAULT && Refusal(command, payload, o).None?
    ensures var f := RequestFrame(command, payload, o);
            EventsOf(FeedAll(MSP_MAX_PAYLOAD_BYTES_DEFAULT, START, Render(f, MinimalJumbo(f)), now).segments)
              == [FrameEvent(f)]
  {
    hide Render, FeedAll;
    EncodedReadsBackIff(command, payload, o, MSP_MAX_PAYLOAD_BYTES_DEFAULT, now);
  }
}
