/** What the parser makes of bytes that are no frame, what the encoder refuses, and when an attempt is dropped. */
module MspParserVerdicts {
  import opened MspTypes
  import opened MspChecksum
  import opened MspWireGrammar
  import opened MspEncoder
  import opened MspStream
  import opened MspWireLayout

  // ---------------------------------------------------------------- verdicts

  /** After '$' only 'M' and 'X' go on, and after those only '<', '>' and '!'; any other byte is looked at again. */
  lemma LeadingBytes(max: nat, m: byte, d: byte)
    ensures Judge(max, [0x24, m]) == if m == 0x4d || m == 0x58 then Partial else Reject(BadMagic(m), false)
    ensures m == 0x4d || m == 0x58 ==>
              Judge(max, [0x24, m, d]) ==
              if d == 0x3c || d == 0x3e || d == 0x21 then Partial else Reject(BadDirection(d), false)
    ensures d == 0x3c ==> DirectionFromByte(d) == Some(Request)
    ensures d == 0x3e ==> DirectionFromByte(d) == Some(Response)
    ensures d == 0x21 ==> DirectionFromByte(d) == Some(Error)
  {
  }

  /** Where the payload of a v1 word starts, and the size its size field declares. */
  function V1Start(w: seq<byte>): nat
    requires |w| > 3
  {
    if w[3] == 255 then 7 else 5
  }

  function V1Size(w: seq<byte>): int
    requires |w| > 3 && |w| >= V1Start(w)
  {
    if w[3] == 255 then w[5] as int + 256 * (w[6] as int) else w[3] as int
  }

  /** A v1 frame that declares more than the cap is given up with the last byte of its size field. */
  lemma V1SizeVerdict(max: nat, w: seq<byte>)
    requires |w| > 4 && |w| == V1Start(w) && w[1] == 0x4d && w[4] != 255
    ensures Judge(max, w) == if V1Size(w) > max then Reject(FrameTooLarge(V1Size(w), max), true) else Partial
  {
    LowByteFirst(0, 0, 0);
  }

  /** An envelope that cannot hold a v2 frame, or holds more than the cap, is given up there as well. */
  lemma EnvelopeSizeVerdict(max: nat, w: seq<byte>)
    requires |w| > 4 && |w| == V1Start(w) && w[1] == 0x4d && w[4] == 255
    ensures Judge(max, w) ==
            if V1Size(w) < 6 then Reject(EnvelopeTooSmall(V1Size(w)), true)
            else if V1Size(w) > max + 6 then Reject(FrameTooLarge(V1Size(w) - 6, max), true)
            else Partial
  {
    LowByteFirst(0, 0, 0);
  }

  /** A complete v2 header is checked against the cap, and inside an envelope against the size of the envelope. */
  lemma V2HeaderVerdict(max: nat, w: seq<byte>)
    requires |w| == 8 && w[1] == 0x58
    ensures var size := w[6] as int + 256 * (w[7] as int);
            Judge(max, w) == if size > max then Reject(FrameTooLarge(size, max), true) else Partial
  {
  }

  lemma InnerHeaderVerdict(max: nat, w: seq<byte>)
    requires |w| > 4 && |w| == V1Start(w) + 5 && w[1] == 0x4d && w[4] == 255
    ensures
      var h := V1Start(w);
      var size := w[h + 3] as int + 256 * (w[h + 4] as int);
      Judge(max, w) ==
      if size > max then Reject(FrameTooLarge(size, max), true)
      else if V1Size(w) != size + 6 then Reject(EnvelopeMismatch(V1Size(w), size + 6), true)
      else Partial
  {
    LowByteFirst(0, w[V1Start(w) + 3], w[V1Start(w) + 4]);
  }

  /** A byte is looked at again exactly if it is no magic, no direction or not the checksum that was due. */
  lemma GivenBackExactly(max: nat, w: seq<byte>)
    requires |w| >= 2 && Judge(max, w).Reject?
    ensures !Judge(max, w).consumed <==>
            var fault := Judge(max, w).fault; fault.BadMagic? || fault.BadDirection? || fault.BadChecksum?
  {
    hide XorSum, CrcSum;
  }

  /** So a '$' that ends an attempt without belonging to it starts the next one at once. */
  lemma DollarIsNeverLost(max: nat, r: Reader, now: int)
    requires r.attempt != [] && Judge(max, r.attempt + [0x24]).Reject? && !Judge(max, r.attempt + [0x24]).consumed
    ensures
      var o := Feed(max, r, 0x24, now);
      && o.reader == Reader([], [0x24], now)
      && o.segments != [] && o.segments[0] == Abandoned(r.attempt, Judge(max, r.attempt + [0x24]).fault)
  {
    hide Judge;
  }

  /** A checksum that does not match is reported with what was due and what came. */
  lemma V1ChecksumVerdict(max: nat, w: seq<byte>)
    requires |w| > 4 && w[1] == 0x4d && w[4] != 255 && |w| >= V1Start(w) && |w| == V1Start(w) + V1Size(w) + 1
    requires V1Size(w) <= max
    ensures
      var due := XorSum(0, w[3..|w| - 1]);
      if w[|w| - 1] == due then Judge(max, w).Complete?
      else Judge(max, w) == Reject(BadChecksum(V1, XorKind, due, w[|w| - 1]), false)
  {
    hide XorSum, CrcSum;
    LowByteFirst(0, 0, 0);
  }

  // ---------------------------------------------------------------- the partial-frame timeout

  /** An attempt is dropped by the first chunk that comes no earlier than its '$' plus the timeout. */
  lemma DroppedExactlyWhen(c: Config, r: Reader, chunk: seq<byte>, now: int)
    requires r.attempt != [] && chunk != []
    ensures now - r.startedAt >= c.partialFrameTimeoutMs ==>
              var o := Ingest(c, r, chunk, now);
              var afresh := FeedAll(c.maxPayloadBytes, Reader(r.noise, [], 0), chunk, now);
              && o.reader == afresh.reader
              && o.segments == [Abandoned(r.attempt, PartialFrameTimeout(now - r.startedAt, c.partialFrameTimeoutMs))]
                               + afresh.segments
    ensures now - r.startedAt < c.partialFrameTimeoutMs ==>
              Ingest(c, r, chunk, now) == FeedAll(c.maxPayloadBytes, r, chunk, now)
  {
    hide FeedAll;
  }

  /** The clock of an attempt is read at its '$'. */
  lemma AttemptStartsAtItsDollar(max: nat, r: Reader, now: int)
    requires r.attempt == []
    ensures Feed(max, r, 0x24, now).reader == Reader([], [0x24], now)
  {
  }

  // ---------------------------------------------------------------- the encoder

  /** What the encoder accepts, and the first check that anything else fails. */
  lemma AcceptedExactlyWhen(command: int, payload: seq<byte>, o: EncodeOptions)
    ensures Refusal(command, payload, o).None? <==>
            && 0 <= o.flags <= 255 && (o.wireFormat.V1? ==> o.flags == 0)
            && |payload| <= o.maxPayloadBytes && |payload| <= 65535
            && 0 <= command <= if o.wireFormat.V1? then 254 else 65535
    ensures Refusal(command, payload, o) == Some(FlagsOnV1) <==> o.wireFormat.V1? && o.flags != 0
    ensures Refusal(command, payload, o) == Some(FlagsOutOfRange) <==>
            !o.wireFormat.V1? && (o.flags < 0 || o.flags > 255)
    ensures 0 <= o.flags <= 255 && (o.wireFormat.V1? ==> o.flags == 0) ==>
              && (Refusal(command, payload, o) == Some(PayloadOverCap) <==> |payload| > o.maxPayloadBytes)
              && (Refusal(command, payload, o) == Some(PayloadOverCeiling) <==> 65535 < |payload| <= o.maxPayloadBytes)
              && (|payload| <= o.maxPayloadBytes && |payload| <= 65535 ==>
                    && (Refusal(command, payload, o) == Some(CommandOutOfRange) <==>
                        command < 0 || command > if o.wireFormat.V1? then 255 else 65535)
                    && (Refusal(command, payload, o) == Some(ReservedCommand) <==> o.wireFormat.V1? && command == 255))
  {
  }

  /** What is written is what was asked for, with the jumbo size field exactly if one byte cannot hold the size. */
  lemma WrittenAsAsked(command: int, payload: seq<byte>, o: EncodeOptions)
    requires Refusal(command, payload, o).None?
    ensures
      var f := RequestFrame(command, payload, o);
      && f.direction.Request? && f.command == command && f.flags == o.flags && f.payload == payload
      && f.wireFormat == o.wireFormat
      && (MinimalJumbo(f) <==>
            (o.wireFormat.V1? && |payload| > 254) || (o.wireFormat.V2OverV1? && |payload| > 248))
  {
  }
}
