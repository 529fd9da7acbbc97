/**
 * The incremental parser: eleven phases, running checksums, a payload buffer filled in place and
 * a byte that may be looked at twice. It is proved to read exactly as MspStream says.
 */
module MspStreamParser {
  import opened MspTypes
  import opened MspChecksum
  import opened MspWireGrammar
  import opened MspStream

  datatype Phase =
    | Search
    | MagicPhase
    | DirectionPhase
    | V1Header
    | V1Jumbo
    | V1Payload
    | V1Checksum
    | V2Header
    | V2Payload
    | V2Crc
    | V2OverV1OuterChecksum

  /** The record the parser keeps; `payload` is the buffer it fills as bytes arrive. */
  datatype ParserState = ParserState(
    phase: Phase,
    scratch: seq<byte>,
    magic: byte,
    direction: Direction,
    isV2OverV1: bool,
    pendingV1Cmd: byte,
    outerV1Size: nat,
    command: nat,
    flags: byte,
    payload: array?<byte>,
    payloadOffset: nat,
    checksum1: byte,
    checksum2: byte,
    startedAt: Option<int>,
    discardedByteCount: nat)

  function InitialState(): ParserState {
    ParserState(Search, [], 0, Request, false, 0, 0, 0, 0, null, 0, 0, 0, None, 0)
  }

  // ------------------------------------------------- what the record says about the attempt

  /** Where the v1 size field of a word ends, and the size it declares. */
  ghost function HeaderEnd(w: seq<byte>): nat
    requires |w| >= 5
  {
    if w[3] == JUMBO_SIZE_MARKER then 7 else 5
  }

  ghost function DeclaredSize(w: seq<byte>): nat
    requires |w| >= 5 && |w| >= HeaderEnd(w)
  {
    if w[3] == JUMBO_SIZE_MARKER then FromLe16(w[5], w[6]) else w[3]
  }

  ghost predicate Opened(st: ParserState, w: seq<byte>) {
    && |w| >= 3
    && st.magic == w[1]
    && (w[1] == MAGIC_V1 || w[1] == MAGIC_V2_NATIVE)
    && DirectionFromByte(w[2]) == Some(st.direction)
  }

  /** Inside the size field of a v1 word. */
  ghost predicate InSizeField(st: ParserState, w: seq<byte>) {
    && Opened(st, w) && !st.isV2OverV1 && w[1] == MAGIC_V1
    && st.checksum1 == XorSum(0, w[3..]) && st.checksum2 == 0
  }

  /** Inside the payload of a v1 word; `filled` is what the buffer holds so far. */
  ghost predicate InV1Data(st: ParserState, w: seq<byte>, size: nat, filled: seq<byte>) {
    && InSizeField(st, w)
    && |w| >= 5 && |w| >= HeaderEnd(w) && size == DeclaredSize(w)
    && w[4] != MSP_V2_FRAME_ID && st.command == w[4] && st.flags == 0
    && filled == w[HeaderEnd(w)..]
  }

  /** Position h is where the v2 header of the word starts. */
  ghost predicate InV2(st: ParserState, w: seq<byte>, h: nat) {
    && Opened(st, w) && |w| >= h
    && if st.isV2OverV1 then
         && w[1] == MAGIC_V1 && |w| >= 5 && |w| >= HeaderEnd(w)
         && w[4] == MSP_V2_FRAME_ID
         && h == HeaderEnd(w) && st.outerV1Size == DeclaredSize(w)
         && st.checksum1 == XorSum(0, w[3..])
       else
         w[1] == MAGIC_V2_NATIVE && h == 3 && st.checksum1 == 0
  }

  ghost function V2Start(st: ParserState, w: seq<byte>): nat {
    if st.isV2OverV1 && |w| >= 5 then HeaderEnd(w) else 3
  }

  ghost function Envelope(st: ParserState): Option<nat> {
    if st.isV2OverV1 then Some(st.outerV1Size) else None
  }

  /** Past the v2 header: its fields are decoded and `filled` starts right behind it. */
  ghost predicate InV2Data(st: ParserState, w: seq<byte>, h: nat, size: nat, filled: seq<byte>) {
    && InV2(st, w, h) && |w| >= h + V2_HEADER_SIZE + |filled|
    && st.flags == w[h]
    && st.command == FromLe16(w[h + 1], w[h + 2])
    && size == FromLe16(w[h + 3], w[h + 4])
    && filled == w[h + V2_HEADER_SIZE..h + V2_HEADER_SIZE + |filled|]
    && (st.isV2OverV1 ==> st.outerV1Size == V2_OVER_V1_OVERHEAD + size)
  }

  ghost predicate Agrees(st: ParserState, w: seq<byte>, size: nat, filled: seq<byte>) {
    var h := V2Start(st, w);
    match st.phase
    case Search => w == [] && st.checksum1 == 0 && st.checksum2 == 0 && st.startedAt.None?
    case MagicPhase => |w| == 1 && st.checksum1 == 0 && st.checksum2 == 0
    case DirectionPhase =>
      && |w| == 2 && st.checksum1 == 0 && st.checksum2 == 0 && st.magic == w[1]
      && (w[1] == MAGIC_V1 || w[1] == MAGIC_V2_NATIVE)
    case V1Header => InSizeField(st, w) && |st.scratch| < 2 && st.scratch == w[3..]
    case V1Jumbo =>
      && InSizeField(st, w) && |st.scratch| < 2 && |w| >= 5 && st.scratch == w[5..]
      && w[3] == JUMBO_SIZE_MARKER && w[4] == st.pendingV1Cmd
    case V1Payload => InV1Data(st, w, size, filled) && |filled| < size
    case V1Checksum => InV1Data(st, w, size, filled) && |filled| == size
    case V2Header =>
      && InV2(st, w, h) && |st.scratch| < V2_HEADER_SIZE
      && st.scratch == w[h..] && st.checksum2 == CrcSum(0, w[h..])
    case V2Payload =>
      && InV2Data(st, w, h, size, filled) && |filled| < size
      && |w| == h + V2_HEADER_SIZE + |filled| && st.checksum2 == CrcSum(0, w[h..])
    case V2Crc =>
      && InV2Data(st, w, h, size, filled) && |filled| == size
      && |w| == h + V2_HEADER_SIZE + |filled| && st.checksum2 == CrcSum(0, w[h..])
    case V2OverV1OuterChecksum =>
      && st.isV2OverV1 && InV2Data(st, w, h, size, filled) && |filled| == size
      && |w| == h + V2_HEADER_SIZE + |filled| + 1
  }

  predicate HoldsBuffer(phase: Phase) {
    phase.V1Payload? || phase.V1Checksum? || phase.V2Payload? || phase.V2Crc? || phase.V2OverV1OuterChecksum?
  }

  // ------------------------------------------------- verdicts, phase by phase

  lemma SizeFieldVerdict(max: nat, w: seq<byte>)
    requires 4 <= |w| && w[1] == MAGIC_V1 && (|w| >= 5 ==> |w| <= HeaderEnd(w))
    ensures Judge(max, w) ==
            if |w| < 5 || |w| < HeaderEnd(w) then Partial
            else var size := DeclaredSize(w);
              if w[4] == MSP_V2_FRAME_ID then
                if size < V2_OVER_V1_OVERHEAD then Reject(EnvelopeTooSmall(size), true)
                else if size > max + V2_OVER_V1_OVERHEAD
                  then Reject(FrameTooLarge(size - V2_OVER_V1_OVERHEAD, max), true)
                else Partial
              else if size > max then Reject(FrameTooLarge(size, max), true)
              else Partial
  {
    hide XorSum, CrcSum;
  }

  lemma SizeByteVerdict(max: nat, w: seq<byte>)
    requires |w| == 4 || (|w| == 6 && w[3] == JUMBO_SIZE_MARKER)
    requires w[1] == MAGIC_V1
    ensures Judge(max, w) == Partial
  {
  }

  lemma V1DataVerdict(max: nat, w: seq<byte>, size: nat)
    requires |w| >= 5 && w[1] == MAGIC_V1 && w[4] != MSP_V2_FRAME_ID
    requires HeaderEnd(w) < |w| <= HeaderEnd(w) + size + 1 && size == DeclaredSize(w)
    ensures Judge(max, w) ==
            if |w| <= HeaderEnd(w) + size then Partial
            else
              var expected := XorSum(0, w[3..|w| - 1]);
              if w[|w| - 1] == expected then
                Complete(MspFrame(V1, DirectionOf(w), w[4], 0, w[HeaderEnd(w)..|w| - 1]))
              else Reject(BadChecksum(V1, XorKind, expected, w[|w| - 1]), false)
  {
    hide XorSum, CrcSum;
    PlainV1IsJudged(max, w, HeaderEnd(w), size);
  }

  ghost predicate V2At(w: seq<byte>, h: nat, outer: Option<nat>) {
    && |w| > h >= 3
    && if outer.Some? then
         |w| >= 5 && w[1] == MAGIC_V1 && w[4] == MSP_V2_FRAME_ID && h == HeaderEnd(w) && outer.value == DeclaredSize(w)
       else w[1] == MAGIC_V2_NATIVE && h == 3
  }

  lemma V2IsJudged(max: nat, w: seq<byte>, h: nat, outer: Option<nat>)
    requires V2At(w, h, outer)
    ensures Judge(max, w) == JudgeV2(max, w, h, outer)
  {
    hide JudgeV2, JudgeV1;
    if outer.Some? {
      EnvelopeIsJudgedInside(max, w, h, outer.value);
    }
  }

  lemma V2HeaderVerdict(max: nat, w: seq<byte>, h: nat, outer: Option<nat>)
    requires V2At(w, h, outer) && |w| <= h + V2_HEADER_SIZE
    ensures Judge(max, w) ==
            if |w| < h + V2_HEADER_SIZE then Partial
            else var size := FromLe16(w[h + 3], w[h + 4]);
              if size > max then Reject(FrameTooLarge(size, max), true)
              else if outer.Some? && outer.value != V2_OVER_V1_OVERHEAD + size then
                Reject(EnvelopeMismatch(outer.value, V2_OVER_V1_OVERHEAD + size), true)
              else Partial
  {
    hide XorSum, CrcSum, Judge;
    V2IsJudged(max, w, h, outer);
  }

  ghost function V2FrameOf(w: seq<byte>, h: nat, outer: Option<nat>, size: nat): MspFrame
    requires |w| >= h + V2_HEADER_SIZE + size && |w| >= 3
  {
    MspFrame(if outer.Some? then V2OverV1 else V2, DirectionOf(w), FromLe16(w[h + 1], w[h + 2]), w[h],
             w[h + V2_HEADER_SIZE..h + V2_HEADER_SIZE + size])
  }

  lemma V2DataVerdict(max: nat, w: seq<byte>, h: nat, outer: Option<nat>, size: nat)
    requires V2At(w, h, outer) && |w| > h + V2_HEADER_SIZE && size == FromLe16(w[h + 3], w[h + 4])
    requires |w| <= h + V2_HEADER_SIZE + size + 1
    ensures Judge(max, w) ==
            if |w| <= h + V2_HEADER_SIZE + size then Partial
            else
              var crc := CrcSum(0, w[h..|w| - 1]);
              if w[|w| - 1] != crc then
                Reject(BadChecksum(if outer.Some? then V2OverV1 else V2, CrcKind, crc, w[|w| - 1]), false)
              else if outer.Some? then Partial
              else Complete(V2FrameOf(w, h, outer, size))
  {
    hide XorSum, CrcSum, Judge;
    V2IsJudged(max, w, h, outer);
  }

  lemma OuterVerdict(max: nat, w: seq<byte>, h: nat, outer: Option<nat>, size: nat)
    requires V2At(w, h, outer) && outer.Some? && |w| == h + V2_HEADER_SIZE + size + 2
    requires size == FromLe16(w[h + 3], w[h + 4])
    ensures Judge(max, w) ==
            var expected := XorSum(0, w[3..|w| - 1]);
            if w[|w| - 1] == expected then Complete(V2FrameOf(w, h, outer, size))
            else Reject(BadChecksum(V2OverV1, XorKind, expected, w[|w| - 1]), false)
  {
    hide XorSum, CrcSum, Judge;
    V2IsJudged(max, w, h, outer);
  }

  lemma EmptySums()
    ensures XorSum(0, []) == 0 && CrcSum(0, []) == 0
  {
  }

  /** Appending a byte to the part of a word that a running checksum covers. */
  lemma SumsGrow(w: seq<byte>, h: nat, b: byte)
    requires h <= |w|
    ensures (w + [b])[h..] == w[h..] + [b]
    ensures XorSum(0, (w + [b])[h..]) == XorStep(XorSum(0, w[h..]), b)
    ensures CrcSum(0, (w + [b])[h..]) == CrcStep(CrcSum(0, w[h..]), b)
  {
    hide XorStep, CrcStep;
    assert (w + [b])[h..] == w[h..] + [b];
    SumsAppend(0, w[h..], b);
  }

  /** The fields a data byte leaves alone. */
  ghost predicate SameFrame(a: ParserState, b: ParserState) {
    && a.magic == b.magic && a.direction == b.direction && a.isV2OverV1 == b.isV2OverV1
    && a.outerV1Size == b.outerV1Size && a.command == b.command && a.flags == b.flags
  }

  lemma SizeFieldGrows(st: ParserState, after: ParserState, w: seq<byte>, b: byte)
    requires InSizeField(st, w) && SameFrame(st, after)
    requires after.checksum1 == XorStep(st.checksum1, b) && after.checksum2 == 0
    ensures InSizeField(after, w + [b])
  {
    hide XorSum, CrcSum, XorStep;
    SumsGrow(w, 3, b);
  }

  lemma SizeFieldShape(st: ParserState, w: seq<byte>)
    requires InSizeField(st, w)
    ensures |w| >= 3 && w[1] == MAGIC_V1 && st.checksum2 == 0
  {
  }

  lemma V1DataGrows(st: ParserState, after: ParserState, w: seq<byte>, b: byte, size: nat, filled: seq<byte>)
    requires InV1Data(st, w, size, filled) && SameFrame(st, after)
    requires after.checksum1 == XorStep(st.checksum1, b) && after.checksum2 == 0
    ensures InV1Data(after, w + [b], size, filled + [b])
  {
    hide XorSum, CrcSum, XorStep, InSizeField;
    SizeFieldGrows(st, after, w, b);
    SumsGrow(w, HeaderEnd(w), b);
  }

  lemma V2Grows(st: ParserState, after: ParserState, w: seq<byte>, b: byte, h: nat)
    requires InV2(st, w, h) && SameFrame(st, after)
    requires after.checksum1 == if st.isV2OverV1 then XorStep(st.checksum1, b) else st.checksum1
    ensures InV2(after, w + [b], h) && V2Start(after, w + [b]) == V2Start(st, w) == h
    ensures V2At(w + [b], h, Envelope(st)) && DirectionOf(w + [b]) == st.direction
  {
    hide XorSum, CrcSum, XorStep;
    SumsGrow(w, 3, b);
  }

  lemma V2Shape(st: ParserState, w: seq<byte>, h: nat)
    requires InV2(st, w, h)
    ensures |w| >= h >= 3
  {
  }

  /** A byte after the v2 header: into the buffer, or behind it as a checksum. */
  lemma V2DataGrows(st: ParserState, after: ParserState, w: seq<byte>, b: byte, h: nat, size: nat, filled: seq<byte>)
    requires InV2Data(st, w, h, size, filled) && SameFrame(st, after)
    requires after.checksum1 == if st.isV2OverV1 then XorStep(st.checksum1, b) else st.checksum1
    ensures InV2Data(after, w + [b], h, size, filled)
    ensures |w| == h + V2_HEADER_SIZE + |filled| ==> InV2Data(after, w + [b], h, size, filled + [b])
    ensures V2Start(after, w + [b]) == V2Start(st, w) == h && V2At(w + [b], h, Envelope(st))
    ensures size == FromLe16((w + [b])[h + 3], (w + [b])[h + 4])
  {
    hide XorSum, CrcSum, XorStep, InV2;
    V2Grows(st, after, w, b, h);
    var v := w + [b];
    assert v[h + V2_HEADER_SIZE..h + V2_HEADER_SIZE + |filled|] == filled;
  }

  /** The frame the buffer and the decoded fields make is the one the word carries. */
  lemma V2FrameAgrees(st: ParserState, w: seq<byte>, h: nat, size: nat, filled: seq<byte>)
    requires InV2Data(st, w, h, size, filled) && |filled| == size
    ensures V2FrameOf(w, h, Envelope(st), size) ==
            MspFrame(if st.magic == MAGIC_V2_NATIVE then V2 else if st.isV2OverV1 then V2OverV1 else V1,
                     st.direction, st.command, st.flags, filled)
  {
    hide XorSum, CrcSum;
  }

  /** The byte ends the attempt without belonging to it. */
  predicate GivenBack(max: nat, r: Reader, b: byte) {
    r.attempt != [] && Judge(max, r.attempt + [b]).Reject? && !Judge(max, r.attempt + [b]).consumed
  }

  /** One pass of the byte loop: either the byte is dealt with, or its attempt was given up. */
  ghost predicate Passed(max: nat, r: Reader, b: byte, now: int, after: Reader, events: seq<Event>, reprocess: bool) {
    if reprocess then
      && GivenBack(max, r, b)
      && events == [Diagnostic(Judge(max, r.attempt + [b]).fault)]
      && after == Reader(r.noise, [], 0)
    else
      var o := Feed(max, r, b, now);
      after == o.reader && events == EventsOf(o.segments)
  }

  /** A byte that leaves the word undecided only extends it. */
  lemma PartialPasses(max: nat, r: Reader, b: byte, now: int)
    requires r.attempt != [] && Judge(max, r.attempt + [b]).Partial?
    ensures Passed(max, r, b, now, r.(attempt := r.attempt + [b]), [], false)
  {
    hide Judge;
  }

  /** A completed header either goes on or ends the attempt with its verdict. */
  lemma JudgedPasses(max: nat, r: Reader, b: byte, now: int, after: Reader, events: seq<Event>)
    requires r.attempt != [] && r.noise == []
    requires var v := Judge(max, r.attempt + [b]);
             || (v.Partial? && events == [] && after == r.(attempt := r.attempt + [b]))
             || (v.Reject? && v.consumed && events == [Diagnostic(v.fault)] && after == Reader([], [], 0))
    ensures Passed(max, r, b, now, after, events, false)
  {
    hide Judge;
  }

  /** A rejected byte looked at once more: the two passes together are one reading step. */
  lemma PassedTwice(max: nat, r: Reader, b: byte, now: int, mid: Reader, first: seq<Event>, after: Reader,
                    second: seq<Event>)
    requires Passed(max, r, b, now, mid, first, true)
    requires Passed(max, mid, b, now, after, second, false)
    ensures Passed(max, r, b, now, after, first + second, false)
  {
    hide Judge;
    var v := Judge(max, r.attempt + [b]);
    EventsOfConcat([Abandoned(r.attempt, v.fault)], Seek(mid, b, now).segments);
  }

  class MspStreamParser {
    const config: Config
    var state: ParserState
    ghost var noise: seq<byte>
    ghost var attempt: seq<byte>

    /** What this parser has taken in and not yet reported. */
    ghost function View(): Reader
      reads this
    {
      Reader(noise, attempt, state.startedAt.GetOr(0))
    }

    ghost predicate Valid()
      reads this, state.payload
    {
      && |noise| == state.discardedByteCount
      && MspStream.Valid(config.maxPayloadBytes, View())
      && (state.phase != Search ==> state.startedAt.Some? && attempt != [])
      && if HoldsBuffer(state.phase) then
           && state.payload != null && state.payloadOffset <= state.payload.Length
           && Agrees(state, attempt, state.payload.Length, state.payload[..state.payloadOffset])
         else Agrees(state, attempt, 0, [])
    }

    constructor (config: Config)
      ensures Valid() && this.config == config && View() == START && state.payload == null
    {
      this.config := config;
      state := InitialState();
      noise, attempt := [], [];
    }

    /** Forgets everything in progress, noise count included; reports nothing. */
    method Reset()
      modifies this
      ensures Valid() && View() == START && state.payload == null
    {
      state := InitialState();
      noise, attempt := [], [];
    }

    /** Gives the attempt up; bytes of noise already counted stay counted. */
    method ResetToSearch()
      requires |noise| == state.discardedByteCount && DOLLAR !in noise
      modifies this
      ensures Valid() && state.phase == Search && state.payload == null
      ensures View() == Reader(old(noise), [], 0)
    {
      state := state.(phase := Search, scratch := [], magic := 0, direction := Request, isV2OverV1 := false,
      outerV1Size := 0, payload := null, payloadOffset := 0, checksum1 := 0, checksum2 := 0, startedAt := None);
      attempt := [];
    }

    method SearchPass(b: byte, now: int) returns (events: seq<Event>)
      requires Valid() && state.phase == Search
      modifies this
      ensures Valid() && state.payload == old(state.payload)
      ensures Passed(config.maxPayloadBytes, old(View()), b, now, View(), events, false)
    {
      hide Judge;
      events := [];
      if b == DOLLAR {
        if state.discardedByteCount > 0 {
          events := [Resync(state.discardedByteCount)];
          state := state.(discardedByteCount := 0);
        }
        state := state.(phase := MagicPhase, scratch := [], startedAt := Some(now));
        noise, attempt := [], [DOLLAR];
      } else {
        state := state.(discardedByteCount := state.discardedByteCount + 1);
        noise := noise + [b];
      }
    }

    method MagicPass(b: byte, now: int) returns (events: seq<Event>, reprocess: bool)
      requires Valid() && state.phase == MagicPhase
      modifies this
      ensures Valid() && (state.payload == old(state.payload) || state.payload == null)
      ensures Passed(config.maxPayloadBytes, old(View()), b, now, View(), events, reprocess)
    {
      events, reprocess := [], false;
      if b == MAGIC_V1 || b == MAGIC_V2_NATIVE {
        ExtendInProgress(config.maxPayloadBytes, attempt, b);
        state := state.(magic := b, phase := DirectionPhase);
        attempt := attempt + [b];
      } else {
        events, reprocess := [Diagnostic(BadMagic(b))], true;
        ResetToSearch();
      }
    }

    method DirectionPass(b: byte, now: int) returns (events: seq<Event>, reprocess: bool)
      requires Valid() && state.phase == DirectionPhase
      modifies this
      ensures Valid() && (state.payload == old(state.payload) || state.payload == null)
      ensures Passed(config.maxPayloadBytes, old(View()), b, now, View(), events, reprocess)
    {
      events, reprocess := [], false;
      var direction := DirectionFromByte(b);
      if direction.None? {
        events, reprocess := [Diagnostic(BadDirection(b))], true;
        ResetToSearch();
      } else {
        ExtendInProgress(config.maxPayloadBytes, attempt, b);
        state := state.(direction := direction.value, isV2OverV1 := false, scratch := [],
        phase := if state.magic == MAGIC_V2_NATIVE then V2Header else V1Header);
        attempt := attempt + [b];
        assert attempt[3..] == [];
      }
    }

    /** The header of the attempt is complete and every shorter cut of it was in progress. */
    ghost predicate HeaderRead(prefix: seq<byte>)
      reads this
    {
      && attempt != [] && prefix == attempt[..|attempt| - 1]
      && InProgress(config.maxPayloadBytes, prefix)
      && noise == [] && state.discardedByteCount == 0 && state.startedAt.Some?
    }

    ghost predicate HeaderJudged(w: seq<byte>, before: Reader, events: seq<Event>)
      requires |w| >= 2
      reads this
    {
      var v := Judge(config.maxPayloadBytes, w);
      || (v.Partial? && events == [] && View() == before)
      || (v.Reject? && v.consumed && events == [Diagnostic(v.fault)] && View() == Reader([], [], 0))
    }

    /** A complete v1 size field: opens a payload, an envelope, or gives the attempt up. */
    method FinishV1Header(size: nat, cmd: byte, ghost prefix: seq<byte>) returns (events: seq<Event>)
      requires HeaderRead(prefix) && InSizeField(state, attempt)
      requires |attempt| >= 5 && |attempt| == HeaderEnd(attempt)
      requires size == DeclaredSize(attempt) && cmd == attempt[4]
      modifies this
      ensures Valid() && (state.payload == null || state.payload == old(state.payload) || fresh(state.payload))
      ensures HeaderJudged(old(attempt), old(View()), events)
    {
      hide XorSum, CrcSum, Judge, InProgress;
      events := [];
      assert prefix + [attempt[|attempt| - 1]] == attempt;
      SizeFieldVerdict(config.maxPayloadBytes, attempt);
      if cmd == MSP_V2_FRAME_ID {
        if size < V2_OVER_V1_OVERHEAD {
          events := [Diagnostic(EnvelopeTooSmall(size))];
          ResetToSearch();
          return;
        }
        if size > config.maxPayloadBytes + V2_OVER_V1_OVERHEAD {
          events := [Diagnostic(FrameTooLarge(size - V2_OVER_V1_OVERHEAD, config.maxPayloadBytes))];
          ResetToSearch();
          return;
        }
        ExtendInProgress(config.maxPayloadBytes, prefix, attempt[|attempt| - 1]);
        state := state.(isV2OverV1 := true, outerV1Size := size, phase := V2Header, scratch := []);
        assert attempt[HeaderEnd(attempt)..] == [];
        assert CrcSum(0, []) == 0 by { EmptySums(); }
        return;
      }
      if size > config.maxPayloadBytes {
        events := [Diagnostic(FrameTooLarge(size, config.maxPayloadBytes))];
        ResetToSearch();
        return;
      }
      ExtendInProgress(config.maxPayloadBytes, prefix, attempt[|attempt| - 1]);
      state := state.(command := cmd, flags := 0);
      var payload := new byte[size];
      state := state.(payload := payload, payloadOffset := 0, phase := if size > 0 then V1Payload else V1Checksum);
    }

    /** A complete v2 header: opens a payload or gives the attempt up. */
    method FinishV2Header(ghost prefix: seq<byte>, ghost h: nat) returns (events: seq<Event>)
      requires HeaderRead(prefix) && InV2(state, attempt, h) && h == V2Start(state, attempt)
      requires |attempt| == h + V2_HEADER_SIZE && state.scratch == attempt[h..]
      requires state.checksum2 == CrcSum(0, attempt[h..])
      modifies this
      ensures Valid() && (state.payload == null || state.payload == old(state.payload) || fresh(state.payload))
      ensures HeaderJudged(old(attempt), old(View()), events)
    {
      hide XorSum, CrcSum, Judge, InProgress;
      events := [];
      assert prefix + [attempt[|attempt| - 1]] == attempt;
      V2HeaderVerdict(config.maxPayloadBytes, attempt, h, Envelope(state));
      var flags := state.scratch[0];
      var cmd := FromLe16(state.scratch[1], state.scratch[2]);
      var size := FromLe16(state.scratch[3], state.scratch[4]);
      if size > config.maxPayloadBytes {
        events := [Diagnostic(FrameTooLarge(size, config.maxPayloadBytes))];
        ResetToSearch();
        return;
      }
      if state.isV2OverV1 {
        var expectedOuterSize := V2_OVER_V1_OVERHEAD + size;
        if state.outerV1Size != expectedOuterSize {
          events := [Diagnostic(EnvelopeMismatch(state.outerV1Size, expectedOuterSize))];
          ResetToSearch();
          return;
        }
      }
      ExtendInProgress(config.maxPayloadBytes, prefix, attempt[|attempt| - 1]);
      state := state.(flags := flags, command := cmd);
      var payload := new byte[size];
      state := state.(payload := payload, payloadOffset := 0, phase := if size > 0 then V2Payload else V2Crc);
    }
  
    /** Takes in one byte of the v1 size and command fields, or of the jumbo size. */
    method TakeSizeByte(b: byte, ghost from: nat)
      requires Valid() && ((state.phase == V1Header && from == 3) || (state.phase == V1Jumbo && from == 5))
      modifies `state, `attempt
      ensures state == old(state).(scratch := old(state).scratch + [b], checksum1 := XorStep(old(state).checksum1, b))
      ensures attempt == old(attempt) + [b] && 1 <= |state.scratch| <= 2
      ensures InSizeField(state, attempt) && state.scratch == attempt[from..] && |attempt| == from + |state.scratch|
      ensures noise == [] && state.discardedByteCount == 0 && state.startedAt.Some? && attempt[1] == MAGIC_V1
      ensures InProgress(config.maxPayloadBytes, old(attempt))
      ensures from == 5 ==> attempt[3] == JUMBO_SIZE_MARKER && attempt[4] == state.pendingV1Cmd
    {
      hide XorSum, CrcSum, XorStep, Judge, InProgress, InSizeField, InV1Data, InV2, InV2Data;
      ghost var prefix, before := attempt, state;
      SizeFieldShape(before, prefix);
      state := state.(scratch := state.scratch + [b], checksum1 := XorStep(state.checksum1, b));
      attempt := attempt + [b];
      SizeFieldGrows(before, state, prefix, b);
    }

    /** Half of a two-byte field has been read. */
    lemma HalfReadIsValid()
      requires InSizeField(state, attempt) && |state.scratch| == 1 && InProgress(config.maxPayloadBytes, attempt)
      requires noise == [] && state.discardedByteCount == 0 && state.startedAt.Some?
      requires || (state.phase == V1Header && state.scratch == attempt[3..] && |attempt| == 4)
               || (state.phase == V1Jumbo && |attempt| == 6 && state.scratch == attempt[5..]
                   && attempt[3] == JUMBO_SIZE_MARKER && attempt[4] == state.pendingV1Cmd)
      ensures Valid()
    {
      hide XorSum, CrcSum, Judge, InProgress, InSizeField, InV1Data, InV2, InV2Data;
    }

    /** The size byte was the jumbo marker: two more size bytes follow, and the command is kept for later. */
    method EnterV1Jumbo()
      requires InSizeField(state, attempt) && InProgress(config.maxPayloadBytes, attempt)
      requires |attempt| == 5 && state.scratch == attempt[3..] && attempt[3] == JUMBO_SIZE_MARKER
      requires |noise| == state.discardedByteCount && noise == [] && state.startedAt.Some?
      modifies `state
      ensures Valid() && View() == old(View()) && state.payload == old(state.payload)
    {
      hide XorSum, CrcSum, Judge, InProgress, InV1Data, InV2, InV2Data;
      state := state.(pendingV1Cmd := state.scratch[1], scratch := [], phase := V1Jumbo);
      assert attempt[5..] == [];
    }

    method V1HeaderPass(b: byte, now: int) returns (events: seq<Event>)
      requires Valid() && state.phase == V1Header
      modifies this
      ensures Valid() && (state.payload == null || state.payload == old(state.payload) || fresh(state.payload))
      ensures Passed(config.maxPayloadBytes, old(View()), b, now, View(), events, false)
    {
      hide XorSum, CrcSum, XorStep, Judge, InProgress, InSizeField, MspStreamParser.Valid, Passed, Agrees;
      events := [];
      ghost var prefix, before := attempt, View();
      TakeSizeByte(b, 3);
      if |state.scratch| == 2 {
        assert state.scratch[0] == attempt[3] && state.scratch[1] == attempt[4];
        SizeFieldVerdict(config.maxPayloadBytes, attempt);
        if state.scratch[0] == JUMBO_SIZE_MARKER {
          ExtendInProgress(config.maxPayloadBytes, prefix, b);
          EnterV1Jumbo();
          PartialPasses(config.maxPayloadBytes, before, b, now);
        } else {
          events := FinishV1Header(state.scratch[0], state.scratch[1], prefix);
          JudgedPasses(config.maxPayloadBytes, before, b, now, View(), events);
        }
      } else {
        SizeByteVerdict(config.maxPayloadBytes, attempt);
        ExtendInProgress(config.maxPayloadBytes, prefix, b);
        HalfReadIsValid();
        PartialPasses(config.maxPayloadBytes, before, b, now);
      }
    }

    method V1JumboPass(b: byte, now: int) returns (events: seq<Event>)
      requires Valid() && state.phase == V1Jumbo
      modifies this
      ensures Valid() && (state.payload == null || state.payload == old(state.payload) || fresh(state.payload))
      ensures Passed(config.maxPayloadBytes, old(View()), b, now, View(), events, false)
    {
      hide XorSum, CrcSum, XorStep, Judge, InProgress, InSizeField, MspStreamParser.Valid, Passed, Agrees;
      events := [];
      ghost var prefix, before := attempt, View();
      TakeSizeByte(b, 5);
      if |state.scratch| == 2 {
        assert state.scratch[0] == attempt[5] && state.scratch[1] == attempt[6];
        SizeFieldVerdict(config.maxPayloadBytes, attempt);
        var size := FromLe16(state.scratch[0], state.scratch[1]);
        events := FinishV1Header(size, state.pendingV1Cmd, prefix);
        JudgedPasses(config.maxPayloadBytes, before, b, now, View(), events);
      } else {
        SizeByteVerdict(config.maxPayloadBytes, attempt);
        ExtendInProgress(config.maxPayloadBytes, prefix, b);
        HalfReadIsValid();
        PartialPasses(config.maxPayloadBytes, before, b, now);
      }
    }

    method V1PayloadPass(b: byte, now: int) returns (events: seq<Event>)
      requires Valid() && state.phase == V1Payload
      modifies this, state.payload
      ensures Valid() && state.payload == old(state.payload)
      ensures Passed(config.maxPayloadBytes, old(View()), b, now, View(), events, false)
    {
      hide XorSum, CrcSum, XorStep, CrcStep, Judge, InProgress, InSizeField, InV2, InV2Data;
      events := [];
      ghost var prefix, before, filled := attempt, state, state.payload[..state.payloadOffset];
      SizeFieldShape(before, prefix);
      V1DataVerdict(config.maxPayloadBytes, attempt + [b], state.payload.Length);
      ExtendInProgress(config.maxPayloadBytes, attempt, b);
      state := state.(checksum1 := XorStep(state.checksum1, b));
      state.payload[state.payloadOffset] := b;
      state := state.(payloadOffset := state.payloadOffset + 1);
      attempt := attempt + [b];
      if state.payloadOffset == state.payload.Length {
        state := state.(phase := V1Checksum);
      }
      V1DataGrows(before, state, prefix, b, state.payload.Length, filled);
      assert state.payload[..state.payloadOffset] == filled + [b];
    }

    /** Reports the frame collected and starts over. */
    method CompleteFrame() returns (event: Event)
      requires state.payload != null && |noise| == state.discardedByteCount && DOLLAR !in noise
      modifies this
      ensures Valid() && state.payload == null
      ensures View() == Reader(old(noise), [], 0)
      ensures event == FrameEvent(MspFrame(
        if old(state.magic) == MAGIC_V2_NATIVE then V2 else if old(state.isV2OverV1) then V2OverV1 else V1,
        old(state.direction), old(state.command), old(state.flags), old(state.payload[..])))
    {
      var format := if state.magic == MAGIC_V2_NATIVE then V2 else if state.isV2OverV1 then V2OverV1 else V1;
      event := FrameEvent(MspFrame(format, state.direction, state.command, state.flags, state.payload[..]));
      ResetToSearch();
    }

    method V1ChecksumPass(b: byte, now: int) returns (events: seq<Event>, reprocess: bool)
      requires Valid() && state.phase == V1Checksum
      modifies this
      ensures Valid() && state.payload == null
      ensures Passed(config.maxPayloadBytes, old(View()), b, now, View(), events, reprocess)
    {
      hide XorSum, CrcSum, Judge, InProgress, InV2, InV2Data, V2Start;
      ghost var word := attempt + [b];
      V1DataVerdict(config.maxPayloadBytes, word, state.payload.Length);
      assert word[3..|word| - 1] == attempt[3..];
      assert word[HeaderEnd(attempt)..|word| - 1] == attempt[HeaderEnd(attempt)..];
      assert state.payload[..state.payloadOffset] == state.payload[..];
      reprocess := false;
      if state.checksum1 == b {
        var event := CompleteFrame();
        events := [event];
      } else {
        events := [Diagnostic(BadChecksum(V1, XorKind, state.checksum1, b))];
        ResetToSearch();
        reprocess := true;
      }
    }

    method V2HeaderPass(b: byte, now: int) returns (events: seq<Event>)
      requires Valid() && state.phase == V2Header
      modifies this
      ensures Valid() && (state.payload == null || state.payload == old(state.payload) || fresh(state.payload))
      ensures Passed(config.maxPayloadBytes, old(View()), b, now, View(), events, false)
    {
      hide XorSum, CrcSum, XorStep, CrcStep, Judge, InProgress, InV2, InV1Data, InV2Data, InSizeField;
      events := [];
      ghost var prefix, before := attempt, state;
      ghost var h := V2Start(state, attempt);
      V2Shape(before, prefix, h);
      SumsGrow(attempt, h, b);
      state := state.(scratch := state.scratch + [b], checksum2 := CrcStep(state.checksum2, b));
      if state.isV2OverV1 {
        state := state.(checksum1 := XorStep(state.checksum1, b));
      }
      attempt := attempt + [b];
      V2Grows(before, state, prefix, b, h);
      if |state.scratch| == V2_HEADER_SIZE {
        events := FinishV2Header(prefix, h);
      } else {
        V2HeaderVerdict(config.maxPayloadBytes, attempt, h, Envelope(state));
        ExtendInProgress(config.maxPayloadBytes, prefix, b);
      }
    }

    method V2PayloadPass(b: byte, now: int) returns (events: seq<Event>)
      requires Valid() && state.phase == V2Payload
      modifies this, state.payload
      ensures Valid() && state.payload == old(state.payload)
      ensures Passed(config.maxPayloadBytes, old(View()), b, now, View(), events, false)
    {
      hide XorSum, CrcSum, XorStep, CrcStep, Judge, InProgress, InV2, InV1Data, InV2Data, InSizeField;
      events := [];
      ghost var prefix, before, filled := attempt, state, state.payload[..state.payloadOffset];
      ghost var h := V2Start(state, attempt);
      SumsGrow(attempt, h, b);
      state := state.(checksum2 := CrcStep(state.checksum2, b));
      if state.isV2OverV1 {
        state := state.(checksum1 := XorStep(state.checksum1, b));
      }
      state.payload[state.payloadOffset] := b;
      state := state.(payloadOffset := state.payloadOffset + 1);
      attempt := attempt + [b];
      if state.payloadOffset == state.payload.Length {
        state := state.(phase := V2Crc);
      }
      V2DataGrows(before, state, prefix, b, h, state.payload.Length, filled);
      assert state.payload[..state.payloadOffset] == filled + [b];
      V2DataVerdict(config.maxPayloadBytes, attempt, h, Envelope(before), state.payload.Length);
      ExtendInProgress(config.maxPayloadBytes, prefix, b);
    }

    method V2CrcPass(b: byte, now: int) returns (events: seq<Event>, reprocess: bool)
      requires Valid() && state.phase == V2Crc
      modifies this
      ensures Valid() && (state.payload == null || state.payload == old(state.payload))
      ensures Passed(config.maxPayloadBytes, old(View()), b, now, View(), events, reprocess)
    {
      hide XorSum, CrcSum, XorStep, CrcStep, Judge, InProgress, InV2, InV1Data, InV2Data, InSizeField, V2FrameOf;
      events, reprocess := [], false;
      ghost var before, filled := state, state.payload[..];
      ghost var word := attempt + [b];
      ghost var h := V2Start(state, attempt);
      assert state.payload[..state.payloadOffset] == filled;
      if state.isV2OverV1 {
        state := state.(checksum1 := XorStep(state.checksum1, b));
      }
      V2DataGrows(before, state, attempt, b, h, state.payload.Length, filled);
      V2DataVerdict(config.maxPayloadBytes, word, h, Envelope(before), state.payload.Length);
      V2FrameAgrees(state, word, h, state.payload.Length, filled);
      assert word[h..|word| - 1] == attempt[h..];
      if state.checksum2 == b {
        if state.isV2OverV1 {
          ExtendInProgress(config.maxPayloadBytes, attempt, b);
          ghost var w := attempt;
          state := state.(phase := V2OverV1OuterChecksum);
          attempt := word;
          V2DataGrows(before, state, w, b, h, state.payload.Length, filled);
        } else {
          var event := CompleteFrame();
          events := [event];
        }
      } else {
        events := [Diagnostic(BadChecksum(if state.isV2OverV1 then V2OverV1 else V2, CrcKind, state.checksum2, b))];
        ResetToSearch();
        reprocess := true;
      }
    }

    method OuterChecksumPass(b: byte, now: int) returns (events: seq<Event>, reprocess: bool)
      requires Valid() && state.phase == V2OverV1OuterChecksum
      modifies this
      ensures Valid() && state.payload == null
      ensures Passed(config.maxPayloadBytes, old(View()), b, now, View(), events, reprocess)
    {
      hide XorSum, CrcSum, XorStep, CrcStep, Judge, InProgress, InV1Data, InSizeField, V2FrameOf;
      reprocess := false;
      ghost var filled, word := state.payload[..], attempt + [b];
      ghost var h := V2Start(state, attempt);
      assert state.payload[..state.payloadOffset] == filled;
      ghost var grown := state.(checksum1 := XorStep(state.checksum1, b));
      V2DataGrows(state, grown, attempt, b, h, state.payload.Length, filled);
      OuterVerdict(config.maxPayloadBytes, word, h, Envelope(state), state.payload.Length);
      V2FrameAgrees(grown, word, h, state.payload.Length, filled);
      assert word[3..|word| - 1] == attempt[3..];
      if state.checksum1 == b {
        var event := CompleteFrame();
        events := [event];
      } else {
        events := [Diagnostic(BadChecksum(V2OverV1, XorKind, state.checksum1, b))];
        ResetToSearch();
        reprocess := true;
      }
    }

    /** One byte, looked at again when the attempt it ended gave it back, and then never a third time. */
    method ProcessByte(b: byte, now: int) returns (events: seq<Event>, ghost passes: nat)
      requires Valid()
      modifies this, state.payload
      ensures 1 <= passes <= 2
      ensures passes == 2 ==> GivenBack(config.maxPayloadBytes, old(View()), b)
      ensures Valid() && (state.payload == null || state.payload == old(state.payload) || fresh(state.payload))
      ensures var o := Feed(config.maxPayloadBytes, old(View()), b, now);
              View() == o.reader && events == EventsOf(o.segments)
    {
      hide Judge, Agrees, Feed, InProgress, EventsOf;
      events, passes := [], 0;
      var reprocess := true;
      ghost var r := View();
      while reprocess
        invariant Valid() && (state.payload == null || state.payload == old(state.payload) || fresh(state.payload))
        invariant reprocess && events == [] ==> View() == r
        invariant events != [] || !reprocess ==> Passed(config.maxPayloadBytes, r, b, now, View(), events, reprocess)
        invariant reprocess ==> passes == if events == [] then 0 else 1
        invariant !reprocess ==> 1 <= passes <= 2 && (passes == 2 ==> GivenBack(config.maxPayloadBytes, r, b))
        decreases if reprocess then 1 + |attempt| else 0
      {
        reprocess, passes := false, passes + 1;
        var more := [];
        ghost var mid := View();
        match state.phase {
          case Search => more := SearchPass(b, now);
          case MagicPhase => more, reprocess := MagicPass(b, now);
          case DirectionPhase => more, reprocess := DirectionPass(b, now);
          case V1Header => more := V1HeaderPass(b, now);
          case V1Jumbo => more := V1JumboPass(b, now);
          case V1Payload => more := V1PayloadPass(b, now);
          case V1Checksum => more, reprocess := V1ChecksumPass(b, now);
          case V2Header => more := V2HeaderPass(b, now);
          case V2Payload => more := V2PayloadPass(b, now);
          case V2Crc => more, reprocess := V2CrcPass(b, now);
          case V2OverV1OuterChecksum => more, reprocess := OuterChecksumPass(b, now);
        }
        if events == [] {
          events := more;
        } else {
          PassedTwice(config.maxPayloadBytes, r, b, now, mid, events, View(), more);
          events := events + more;
        }
      }
    }

    method MaybeEmitPartialFrameTimeout(now: int) returns (events: seq<Event>)
      requires Valid()
      modifies this
      ensures Valid() && (state.payload == null || state.payload == old(state.payload))
      ensures var o := CheckTimeout(config, old(View()), now);
              View() == o.reader && events == EventsOf(o.segments)
    {
      hide Judge;
      events := [];
      if state.phase == Search || state.startedAt.None? {
        return;
      }
      var elapsed := now - state.startedAt.value;
      if elapsed >= config.partialFrameTimeoutMs {
        events := [Diagnostic(PartialFrameTimeout(elapsed, config.partialFrameTimeoutMs))];
        ResetToSearch();
      }
    }

    /** REFINEMENT: one chunk is read exactly as the segment semantics says. */
    method IngestChunk(chunk: seq<byte>, now: int) returns (events: seq<Event>)
      requires Valid()
      modifies this, state.payload
      ensures Valid() && (state.payload == null || state.payload == old(state.payload) || fresh(state.payload))
      ensures var o := Ingest(config, old(View()), chunk, now);
              View() == o.reader && events == EventsOf(o.segments)
    {
      hide Judge, Agrees, Feed, MspStream.Valid;
      if |chunk| == 0 {
        return [];
      }
      ghost var r := View();
      events := MaybeEmitPartialFrameTimeout(now);
      ghost var checked := CheckTimeout(config, r, now);
      for i := 0 to |chunk|
        invariant Valid() && (state.payload == null || state.payload == old(state.payload) || fresh(state.payload))
        invariant var fed := FeedAll(config.maxPayloadBytes, checked.reader, chunk[..i], now);
                  View() == fed.reader && events == EventsOf(checked.segments + fed.segments)
      {
        assert chunk[..i + 1][..i] == chunk[..i];
        var more, _ := ProcessByte(chunk[i], now);
        events := events + more;
      }
      assert chunk[..|chunk|] == chunk;
    }
  }
}
