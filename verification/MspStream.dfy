/**
 * What reading an MSP byte stream means.
 *
 * The state is only what has not been reported yet: the noise bytes skipped so far, or the
 * bytes of the attempt in progress. Reading cuts the stream into segments; the events the
 * parser reports are one per segment.
 */
module MspStream {
  import opened MspTypes
  import opened MspChecksum
  import opened MspWireGrammar

  datatype Config = Config(maxPayloadBytes: nat, partialFrameTimeoutMs: int)

  datatype Segment =
    | Noise(bytes: seq<byte>)
    | FrameSegment(bytes: seq<byte>, frame: MspFrame)
    | Abandoned(bytes: seq<byte>, fault: Fault)

  datatype Event =
    | FrameEvent(frame: MspFrame)
    | Resync(discardedByteCount: nat)
    | Diagnostic(fault: Fault)

  function EventOf(s: Segment): Event {
    match s
    case Noise(bytes) => Resync(|bytes|)
    case FrameSegment(_, frame) => FrameEvent(frame)
    case Abandoned(_, fault) => Diagnostic(fault)
  }

  function EventsOf(segments: seq<Segment>): seq<Event> {
    seq(|segments|, i requires 0 <= i < |segments| => EventOf(segments[i]))
  }

  lemma EventsOfConcat(a: seq<Segment>, b: seq<Segment>)
    ensures EventsOf(a + b) == EventsOf(a) + EventsOf(b)
  {
  }

  function BytesOf(segments: seq<Segment>): seq<byte> {
    if segments == [] then [] else BytesOf(segments[..|segments| - 1]) + segments[|segments| - 1].bytes
  }

  lemma {:induction false} BytesOfConcat(a: seq<Segment>, b: seq<Segment>)
    ensures BytesOf(a + b) == BytesOf(a) + BytesOf(b)
  {
    if b == [] {
      assert a + b == a;
    } else {
      var last := |b| - 1;
      assert (a + b)[..|a + b| - 1] == a + b[..last];
      BytesOfConcat(a, b[..last]);
    }
  }

  datatype Reader = Reader(noise: seq<byte>, attempt: seq<byte>, startedAt: int)

  const START := Reader([], [], 0)

  /** Reader states that reading can reach: an attempt never coexists with unreported noise. */
  ghost predicate Valid(max: nat, r: Reader) {
    && (r.attempt == [] || (r.noise == [] && InProgress(max, r.attempt)))
    && DOLLAR !in r.noise
  }

  datatype Reading = Reading(reader: Reader, segments: seq<Segment>)

  /** One byte met outside any attempt. */
  function Seek(r: Reader, b: byte, now: int): Reading {
    if b != DOLLAR then Reading(r.(noise := r.noise + [b]), [])
    else Reading(Reader([], [DOLLAR], now), if r.noise == [] then [] else [Noise(r.noise)])
  }

  function Feed(max: nat, r: Reader, b: byte, now: int): Reading {
    if r.attempt == [] then Seek(r, b, now)
    else
      var word := r.attempt + [b];
      match Judge(max, word)
      case Partial => Reading(r.(attempt := word), [])
      case Complete(frame) => Reading(Reader(r.noise, [], 0), [FrameSegment(word, frame)])
      case Reject(fault, true) => Reading(Reader(r.noise, [], 0), [Abandoned(word, fault)])
      case Reject(fault, false) =>
        var again := Seek(Reader(r.noise, [], 0), b, now);
        Reading(again.reader, [Abandoned(r.attempt, fault)] + again.segments)
  }

  function FeedAll(max: nat, r: Reader, bytes: seq<byte>, now: int): Reading {
    if bytes == [] then Reading(r, [])
    else
      var before := FeedAll(max, r, bytes[..|bytes| - 1], now);
      var last := Feed(max, before.reader, bytes[|bytes| - 1], now);
      Reading(last.reader, before.segments + last.segments)
  }

  /** The lazy partial-frame timeout, looked at once when a chunk arrives. */
  predicate Expired(c: Config, r: Reader, now: int) {
    r.attempt != [] && now - r.startedAt >= c.partialFrameTimeoutMs
  }

  function CheckTimeout(c: Config, r: Reader, now: int): Reading {
    if Expired(c, r, now) then
      Reading(Reader(r.noise, [], 0),
              [Abandoned(r.attempt, PartialFrameTimeout(now - r.startedAt, c.partialFrameTimeoutMs))])
    else Reading(r, [])
  }

  function Ingest(c: Config, r: Reader, chunk: seq<byte>, now: int): Reading {
    if chunk == [] then Reading(r, [])
    else
      var checked := CheckTimeout(c, r, now);
      var fed := FeedAll(c.maxPayloadBytes, checked.reader, chunk, now);
      Reading(fed.reader, checked.segments + fed.segments)
  }

  // ---------------------------------------------------------------- soundness and conservation

  /** What every reported segment is: '$'-free noise, a rendered frame, or an attempt that failed. */
  ghost predicate Truthful(max: nat, s: Segment) {
    match s
    case Noise(bytes) => bytes != [] && DOLLAR !in bytes
    case FrameSegment(bytes, frame) => Carriable(max, frame, IsJumbo(bytes)) && bytes == Render(frame, IsJumbo(bytes))
    case Abandoned(bytes, _) => bytes != [] && bytes[0] == DOLLAR && |bytes| <= max + 14
  }

  /** No attempt outgrows the cap plus the largest frame overhead. */
  lemma AttemptIsBounded(max: nat, w: seq<byte>)
    requires InProgress(max, w)
    ensures |w| < max + 14
  {
    hide XorSum, CrcSum;
    if |w| >= 14 {
      assert w[..|w|] == w;
      assert Judge(max, w) == Partial;
      PrefixFacts(max, w);
      if w[1] == MAGIC_V2_NATIVE {
        V2HeaderFacts(max, w, 3, None);
      } else {
        var h := if w[3] == JUMBO_SIZE_MARKER then 7 else 5;
        var size := if w[3] == JUMBO_SIZE_MARKER then FromLe16(w[5], w[6]) else w[3];
        V1HeaderFacts(max, w, h, size);
        if w[4] == MSP_V2_FRAME_ID {
          EnvelopeIsJudgedInside(max, w[..h + 5], h, size);
          EnvelopeIsJudgedInside(max, w, h, size);
          V2HeaderFacts(max, w, h, Some(size));
        }
      }
    }
  }

  lemma ExtendInProgress(max: nat, w: seq<byte>, b: byte)
    requires InProgress(max, w) && Judge(max, w + [b]) == Partial
    ensures InProgress(max, w + [b])
  {
    hide Judge;
    forall n | 2 <= n <= |w| + 1 ensures Judge(max, (w + [b])[..n]) == Partial {
      if n <= |w| {
        assert (w + [b])[..n] == w[..n];
      } else {
        assert (w + [b])[..n] == w + [b];
      }
    }
  }

  /** The bytes a reader has taken in and not yet reported. */
  function Held(r: Reader): seq<byte> {
    r.noise + r.attempt
  }

  /** One byte: the state stays reachable, every segment is truthful, no byte is lost or repeated. */
  lemma FeedIsSound(max: nat, r: Reader, b: byte, now: int)
    requires Valid(max, r)
    ensures var o := Feed(max, r, b, now);
            && Valid(max, o.reader)
            && (forall s :: s in o.segments ==> Truthful(max, s))
            && BytesOf(o.segments) + Held(o.reader) == Held(r) + [b]
  {
    hide Judge, Render, Carriable;
    if r.attempt != [] {
      AttemptIsBounded(max, r.attempt);
      var word := r.attempt + [b];
      assert word[..|word| - 1] == r.attempt;
      match Judge(max, word)
      case Partial => ExtendInProgress(max, r.attempt, b);
      case Complete(frame) => CompleteIsRendered(max, word, frame);
      case Reject(fault, consumed) =>
        var o := Feed(max, r, b, now);
        assert BytesOf(o.segments) == o.segments[0].bytes by {
          assert o.segments[..0] == [];
        }
    }
  }

  lemma ChainAccounts(first: seq<Segment>, second: seq<Segment>, r0: Reader, r1: Reader, r2: Reader, x: seq<byte>,
                      y: seq<byte>)
    requires BytesOf(first) + Held(r1) == Held(r0) + x
    requires BytesOf(second) + Held(r2) == Held(r1) + y
    ensures BytesOf(first + second) + Held(r2) == Held(r0) + (x + y)
  {
    hide Held, BytesOf;
    BytesOfConcat(first, second);
    calc {
      BytesOf(first + second) + Held(r2);
      BytesOf(first) + (BytesOf(second) + Held(r2));
      (BytesOf(first) + Held(r1)) + y;
      Held(r0) + (x + y);
    }
  }

  lemma {:induction false} FeedAllIsSound(max: nat, r: Reader, bytes: seq<byte>, now: int)
    requires Valid(max, r)
    ensures var o := FeedAll(max, r, bytes, now);
            && Valid(max, o.reader)
            && (forall s :: s in o.segments ==> Truthful(max, s))
            && BytesOf(o.segments) + Held(o.reader) == Held(r) + bytes
  {
    hide Feed, Truthful, Valid;
    if bytes != [] {
      var init := bytes[..|bytes| - 1];
      var b := bytes[|bytes| - 1];
      FeedAllIsSound(max, r, init, now);
      var before := FeedAll(max, r, init, now);
      var last := Feed(max, before.reader, b, now);
      FeedIsSound(max, before.reader, b, now);
      ChainAccounts(before.segments, last.segments, r, before.reader, last.reader, init, [b]);
      assert init + [b] == bytes;
    }
  }

  /** One chunk, timeout included. */
  lemma IngestIsSound(c: Config, r: Reader, chunk: seq<byte>, now: int)
    requires Valid(c.maxPayloadBytes, r)
    ensures var o := Ingest(c, r, chunk, now);
            && Valid(c.maxPayloadBytes, o.reader)
            && (forall s :: s in o.segments ==> Truthful(c.maxPayloadBytes, s))
            && BytesOf(o.segments) + Held(o.reader) == Held(r) + chunk
  {
    hide FeedAll, Render, Carriable;
    if chunk != [] {
      if r.attempt != [] { AttemptIsBounded(c.maxPayloadBytes, r.attempt); }
      var checked := CheckTimeout(c, r, now);
      var fed := FeedAll(c.maxPayloadBytes, checked.reader, chunk, now);
      FeedAllIsSound(c.maxPayloadBytes, checked.reader, chunk, now);
      assert BytesOf(checked.segments) + Held(checked.reader) == Held(r) + [];
      ChainAccounts(checked.segments, fed.segments, r, checked.reader, fed.reader, [], chunk);
      assert [] + chunk == chunk;
    }
  }

  datatype Delivery = Delivery(chunk: seq<byte>, now: int)

  /** A whole session: chunks in order, each with its own clock reading. */
  function Session(c: Config, deliveries: seq<Delivery>): Reading {
    if deliveries == [] then Reading(START, [])
    else
      var before := Session(c, deliveries[..|deliveries| - 1]);
      var d := deliveries[|deliveries| - 1];
      var last := Ingest(c, before.reader, d.chunk, d.now);
      Reading(last.reader, before.segments + last.segments)
  }

  function Received(deliveries: seq<Delivery>): seq<byte> {
    if deliveries == [] then []
    else Received(deliveries[..|deliveries| - 1]) + deliveries[|deliveries| - 1].chunk
  }

  /**
   * Over every session - any bytes, any chunking, any clock, even one that runs backwards -
   * the reported segments followed by what is still held are exactly the bytes received:
   * each byte is in one frame, one abandoned attempt, one noise run, or not yet decided.
   */
  lemma {:induction false} SessionAccountsForEveryByte(c: Config, deliveries: seq<Delivery>)
    ensures var o := Session(c, deliveries);
            && Valid(c.maxPayloadBytes, o.reader)
            && |o.reader.attempt| < c.maxPayloadBytes + 14
            && (forall s :: s in o.segments ==> Truthful(c.maxPayloadBytes, s))
            && BytesOf(o.segments) + Held(o.reader) == Received(deliveries)
  {
    hide Ingest, Truthful, InProgress;
    if deliveries != [] {
      var init := deliveries[..|deliveries| - 1];
      var d := deliveries[|deliveries| - 1];
      SessionAccountsForEveryByte(c, init);
      var before := Session(c, init);
      var last := Ingest(c, before.reader, d.chunk, d.now);
      IngestIsSound(c, before.reader, d.chunk, d.now);
      ChainAccounts(before.segments, last.segments, START, before.reader, last.reader, Received(init), d.chunk);
    }
    var o := Session(c, deliveries);
    if o.reader.attempt != [] { AttemptIsBounded(c.maxPayloadBytes, o.reader.attempt); }
  }

  // ---------------------------------------------------------------- chunking

  lemma {:induction false} FeedAllConcat(max: nat, r: Reader, a: seq<byte>, b: seq<byte>, now: int)
    ensures var first := FeedAll(max, r, a, now);
            var second := FeedAll(max, first.reader, b, now);
            FeedAll(max, r, a + b, now) == Reading(second.reader, first.segments + second.segments)
  {
    hide Feed;
    var first := FeedAll(max, r, a, now);
    if b == [] {
      assert a + b == a;
      assert first.segments + [] == first.segments;
    } else {
      var init := b[..|b| - 1];
      assert (a + b)[..|a + b| - 1] == a + init;
      FeedAllConcat(max, r, a, init, now);
    }
  }

  lemma JudgeNeverTimesOut(max: nat, w: seq<byte>)
    requires |w| >= 2
    ensures Judge(max, w).Reject? ==> !Judge(max, w).fault.PartialFrameTimeout?
  {
    hide XorSum, CrcSum;
  }

  /** Only the lazy check abandons an attempt for its age; reading bytes never does. */
  lemma {:induction false} FeedAllNeverTimesOut(max: nat, r: Reader, bytes: seq<byte>, now: int)
    ensures forall s :: s in FeedAll(max, r, bytes, now).segments && s.Abandoned? ==> !s.fault.PartialFrameTimeout?
  {
    hide Judge;
    if bytes != [] {
      var init := bytes[..|bytes| - 1];
      FeedAllNeverTimesOut(max, r, init, now);
      var before := FeedAll(max, r, init, now).reader;
      if before.attempt != [] {
        JudgeNeverTimesOut(max, before.attempt + [bytes[|bytes| - 1]]);
      }
    }
  }

  /** With a positive limit, nothing read at a clock reading is already expired at that reading. */
  lemma {:induction false} FeedAllKeepsFresh(c: Config, r: Reader, bytes: seq<byte>, now: int)
    requires c.partialFrameTimeoutMs > 0 && !Expired(c, r, now)
    ensures !Expired(c, FeedAll(c.maxPayloadBytes, r, bytes, now).reader, now)
  {
    hide Judge;
    if bytes != [] {
      FeedAllKeepsFresh(c, r, bytes[..|bytes| - 1], now);
    }
  }

  /**
   * EXACTLY when chunking is invisible: two chunks at one clock reading report the same events
   * and leave the same state as their concatenation, unless the attempt left by the first chunk
   * is already expired when the second one arrives.
   */
  lemma ChunkingIsInvisibleIff(c: Config, r: Reader, a: seq<byte>, b: seq<byte>, now: int)
    ensures var first := Ingest(c, r, a, now);
            var second := Ingest(c, first.reader, b, now);
            var whole := Ingest(c, r, a + b, now);
            (second.reader == whole.reader
             && EventsOf(first.segments) + EventsOf(second.segments) == EventsOf(whole.segments))
            <==> (a == [] || b == [] || !Expired(c, first.reader, now))
  {
    hide FeedAll, Feed;
    var first := Ingest(c, r, a, now);
    var second := Ingest(c, first.reader, b, now);
    var whole := Ingest(c, r, a + b, now);
    if a == [] {
      assert a + b == b && first.segments + second.segments == second.segments;
      EventsOfConcat(first.segments, second.segments);
    } else if b == [] {
      assert a + b == a && first.segments + second.segments == first.segments;
      EventsOfConcat(first.segments, second.segments);
    } else {
      var max := c.maxPayloadBytes;
      var checked := CheckTimeout(c, r, now);
      FeedAllConcat(max, checked.reader, a, b, now);
      var rest := FeedAll(max, first.reader, b, now);
      assert whole.segments == first.segments + rest.segments;
      EventsOfConcat(first.segments, rest.segments);
      if Expired(c, first.reader, now) {
        FeedAllNeverTimesOut(max, first.reader, b, now);
        var n := |first.segments|;
        assert (EventsOf(first.segments) + EventsOf(second.segments))[n] == EventOf(second.segments[0]);
        assert EventOf(second.segments[0]).Diagnostic? && EventOf(second.segments[0]).fault.PartialFrameTimeout?;
        if rest.segments != [] {
          assert EventsOf(whole.segments)[n] == EventOf(rest.segments[0]);
          assert rest.segments[0] in rest.segments;
        }
      } else {
        assert [] + rest.segments == rest.segments;
      }
    }
  }

  /** CHUNKING INDEPENDENCE: with a positive timeout the condition always holds. */
  lemma ChunkingIndependence(c: Config, r: Reader, a: seq<byte>, b: seq<byte>, now: int)
    requires c.partialFrameTimeoutMs > 0
    ensures var first := Ingest(c, r, a, now);
            var second := Ingest(c, first.reader, b, now);
            var whole := Ingest(c, r, a + b, now);
            && second.reader == whole.reader
            && EventsOf(first.segments) + EventsOf(second.segments) == EventsOf(whole.segments)
  {
    hide FeedAll;
    ChunkingIsInvisibleIff(c, r, a, b, now);
    if a != [] {
      FeedAllKeepsFresh(c, CheckTimeout(c, r, now).reader, a, now);
    }
  }

  /** A limit of zero makes chunk borders visible: '$' then 'M' is not '$M'. */
  lemma ZeroTimeoutSeesChunks()
    ensures var c := Config(0, 0);
            var first := Ingest(c, START, [DOLLAR], 0);
            Ingest(c, first.reader, [MAGIC_V1], 0).reader != Ingest(c, START, [DOLLAR, MAGIC_V1], 0).reader
  {
    var c := Config(0, 0);
    var start: seq<byte> := [DOLLAR];
    var both: seq<byte> := [DOLLAR, MAGIC_V1];
    assert both[..1] == start;
    assert FeedAll(0, START, [], 0) == Reading(START, []);
    assert FeedAll(0, START, start, 0).reader == Reader([], start, 0);
    assert start + [MAGIC_V1] == both;
    assert FeedAll(0, START, both, 0).reader == Reader([], both, 0);
    var second: seq<byte> := [MAGIC_V1];
    assert FeedAll(0, START, second, 0).reader == Reader(second, [], 0) by {
      assert second[..0] == [];
      assert [] + second == second;
    }
  }

  // ---------------------------------------------------------------- round trip

  lemma FeedDollar(max: nat, r: Reader, now: int)
    requires r.attempt == []
    ensures Feed(max, r, DOLLAR, now)
            == Reading(Reader([], [DOLLAR], now), if r.noise == [] then [] else [Noise(r.noise)])
  {
  }

  lemma FeedStep(max: nat, r: Reader, b: byte, now: int)
    requires r.attempt != [] && Judge(max, r.attempt + [b]) == Partial
    ensures Feed(max, r, b, now) == Reading(r.(attempt := r.attempt + [b]), [])
  {
    hide Judge;
  }

  /** What an attempt looks like while it is still in progress, from any state outside one. */
  lemma {:induction false} FeedInProgress(max: nat, r: Reader, w: seq<byte>, now: int)
    requires r.attempt == [] && InProgress(max, w)
    ensures FeedAll(max, r, w, now) ==
            Reading(Reader([], w, now), if r.noise == [] then [] else [Noise(r.noise)])
  {
    hide Judge, Feed;
    var init := w[..|w| - 1];
    assert init + [w[|w| - 1]] == w;
    if |w| == 1 {
      assert FeedAll(max, r, init, now) == Reading(r, []);
      assert w == [DOLLAR];
      FeedDollar(max, r, now);
    } else {
      forall n | 2 <= n <= |init| ensures Judge(max, init[..n]) == Partial {
        assert init[..n] == w[..n];
      }
      FeedInProgress(max, r, init, now);
      assert w[..|w|] == w && Judge(max, w) == Partial;
      FeedStep(max, Reader([], init, now), w[|w| - 1], now);
    }
  }

  /** One piece of a clean stream: noise without '$', then one carriable frame. */
  datatype Piece = Piece(noise: seq<byte>, frame: MspFrame, jumbo: bool)

  ghost predicate CleanPiece(max: nat, p: Piece) {
    DOLLAR !in p.noise && Carriable(max, p.frame, p.jumbo)
  }

  function PieceBytes(p: Piece): seq<byte> {
    p.noise + Render(p.frame, p.jumbo)
  }

  function PieceEvents(p: Piece): seq<Event> {
    (if p.noise == [] then [] else [Resync(|p.noise|)]) + [FrameEvent(p.frame)]
  }

  function StreamOf(pieces: seq<Piece>): seq<byte> {
    if pieces == [] then [] else StreamOf(pieces[..|pieces| - 1]) + PieceBytes(pieces[|pieces| - 1])
  }

  function StreamEvents(pieces: seq<Piece>): seq<Event> {
    if pieces == [] then [] else StreamEvents(pieces[..|pieces| - 1]) + PieceEvents(pieces[|pieces| - 1])
  }

  lemma {:induction false} FeedNoise(max: nat, r: Reader, noise: seq<byte>, now: int)
    requires r.attempt == [] && DOLLAR !in noise
    ensures FeedAll(max, r, noise, now) == Reading(r.(noise := r.noise + noise), [])
  {
    if noise == [] {
      assert r.noise + noise == r.noise;
    } else {
      FeedNoise(max, r, noise[..|noise| - 1], now);
      assert r.noise + noise == r.noise + noise[..|noise| - 1] + [noise[|noise| - 1]];
    }
  }

  lemma FeedFrame(max: nat, r: Reader, f: MspFrame, jumbo: bool, now: int)
    requires r.attempt == [] && Carriable(max, f, jumbo)
    ensures FeedAll(max, r, Render(f, jumbo), now) ==
            Reading(START, (if r.noise == [] then [] else [Noise(r.noise)]) + [FrameSegment(Render(f, jumbo), f)])
  {
    hide Judge, Render, Carriable;
    var w := Render(f, jumbo);
    RenderedIsComplete(max, f, jumbo);
    FeedInProgress(max, r, w[..|w| - 1], now);
    assert w[..|w| - 1] + [w[|w| - 1]] == w;
  }

  lemma FeedPiece(max: nat, p: Piece, now: int)
    requires CleanPiece(max, p)
    ensures var o := FeedAll(max, START, PieceBytes(p), now);
            o.reader == START && EventsOf(o.segments) == PieceEvents(p)
  {
    hide FeedAll, Render, Carriable;
    FeedNoise(max, START, p.noise, now);
    assert [] + p.noise == p.noise;
    FeedFrame(max, Reader(p.noise, [], 0), p.frame, p.jumbo, now);
    FeedAllConcat(max, START, p.noise, Render(p.frame, p.jumbo), now);
  }

  /**
   * ROUND TRIP: any list of carriable frames in all three formats and both size forms, separated
   * by any '$'-free noise, is reported as exactly those frames in order, each preceded by the
   * length of its noise when there was any, and leaves nothing held.
   */
  lemma {:induction false} StreamRoundTrip(max: nat, pieces: seq<Piece>, now: int)
    requires forall p :: p in pieces ==> CleanPiece(max, p)
    ensures var o := FeedAll(max, START, StreamOf(pieces), now);
            o.reader == START && EventsOf(o.segments) == StreamEvents(pieces)
  {
    hide FeedAll, PieceBytes, PieceEvents, CleanPiece;
    if pieces == [] {
      assert FeedAll(max, START, [], now) == Reading(START, []) by { FeedNoise(max, START, [], now); }
    } else {
      var init := pieces[..|pieces| - 1];
      var p := pieces[|pieces| - 1];
      StreamRoundTrip(max, init, now);
      FeedPiece(max, p, now);
      FeedAllConcat(max, START, StreamOf(init), PieceBytes(p), now);
      EventsOfConcat(FeedAll(max, START, StreamOf(init), now).segments,
                     FeedAll(max, START, PieceBytes(p), now).segments);
    }
  }

  // ---------------------------------------------------------------- corruption

  ghost predicate NoFrame(segments: seq<Segment>) {
    forall s :: s in segments ==> !s.FrameSegment?
  }

  /** Where the payload of a rendered frame starts. */
  function PayloadStart(f: MspFrame, jumbo: bool): nat {
    match f.wireFormat
    case V1 => if jumbo then 7 else 5
    case V2 => 8
    case V2OverV1 => if jumbo then 12 else 10
  }

  /** The first checksum that covers the payload. */
  function GuardIndex(f: MspFrame, jumbo: bool): nat {
    PayloadStart(f, jumbo) + |f.payload|
  }

  /** Altering a payload byte keeps the word in step up to its first checksum, which then is wrong. */
  ghost predicate OutOfStep(f: MspFrame, jumbo: bool, i: nat, b: byte)
    requires i < |f.payload|
  {
    var w := Render(f, jumbo);
    var v := Render(f.(payload := f.payload[i := b]), jumbo);
    var cut := GuardIndex(f, jumbo);
    && |w| == |v| == cut + (if f.wireFormat.V2OverV1? then 2 else 1)
    && w[PayloadStart(f, jumbo) + i := b][..cut] == v[..cut]
    && w[cut] != v[cut]
  }

  lemma AlteredV1(f: MspFrame, jumbo: bool, i: nat, b: byte)
    requires i < |f.payload| && f.payload[i] != b && f.wireFormat.V1?
    ensures OutOfStep(f, jumbo, i, b)
  {
    hide XorSum, CrcSum;
    var g := f.(payload := f.payload[i := b]);
    var s := SizeField(|f.payload|, f.command % 256, jumbo);
    assert Body(g, jumbo) == Body(f, jumbo)[|s| + i := b];
    SingleByteChangeDetected(0, Body(f, jumbo), |s| + i, b);
  }

  lemma AlteredV2(f: MspFrame, jumbo: bool, i: nat, b: byte)
    requires i < |f.payload| && f.payload[i] != b && f.wireFormat.V2?
    ensures OutOfStep(f, jumbo, i, b)
  {
    hide XorSum, CrcSum;
    var g := f.(payload := f.payload[i := b]);
    assert Body(g, jumbo) == Body(f, jumbo)[5 + i := b];
    SingleByteChangeDetected(0, Body(f, jumbo), 5 + i, b);
  }

  lemma V2HeaderLength(f: MspFrame)
    ensures |V2Header(f)| == V2_HEADER_SIZE
  {
  }

  /** What comes before the payload's first checksum in an envelope, from the header on. */
  lemma EnvelopeFront(f: MspFrame, jumbo: bool)
    requires f.wireFormat.V2OverV1?
    ensures var field := SizeField(V2_OVER_V1_OVERHEAD + |f.payload|, MSP_V2_FRAME_ID, jumbo);
            var lead := [DOLLAR, MAGIC_V1, DirectionByte(f.direction)] + field + V2Header(f);
            var w := Render(f, jumbo);
            && |lead| == PayloadStart(f, jumbo)
            && |w| == |lead| + |f.payload| + 2
            && w[..GuardIndex(f, jumbo)] == lead + f.payload
            && w[GuardIndex(f, jumbo)] == CrcSum(0, V2Inner(f))
  {
    hide XorSum, CrcSum, Trailer, DirectionByte, V2Header;
    var field := SizeField(V2_OVER_V1_OVERHEAD + |f.payload|, MSP_V2_FRAME_ID, jumbo);
    var start := [DOLLAR, MAGIC_V1, DirectionByte(f.direction)];
    var crc := [CrcSum(0, V2Inner(f))];
    assert Body(f, jumbo) == field + V2Inner(f) + crc;
    assert start + (field + V2Inner(f) + crc) == start + field + V2Header(f) + f.payload + crc;
    assert |V2Header(f)| == V2_HEADER_SIZE by { V2HeaderLength(f); }
  }

  lemma AlteredEnvelope(f: MspFrame, jumbo: bool, i: nat, b: byte)
    requires i < |f.payload| && f.payload[i] != b && f.wireFormat.V2OverV1?
    ensures OutOfStep(f, jumbo, i, b)
  {
    hide XorSum, CrcSum, Render, SizeField;
    var g := f.(payload := f.payload[i := b]);
    EnvelopeFront(f, jumbo);
    EnvelopeFront(g, jumbo);
    assert V2Inner(g) == V2Inner(f)[5 + i := b];
    SingleByteChangeDetected(0, V2Inner(f), 5 + i, b);
    var w := Render(f, jumbo);
    var cut := GuardIndex(f, jumbo);
    assert w[PayloadStart(f, jumbo) + i := b][..cut] == w[..cut][PayloadStart(f, jumbo) + i := b];
  }

  /** At most one last byte completes a v1 word. */
  lemma LastByteDecidesV1(max: nat, p: seq<byte>, x: byte, y: byte, h: nat, size: nat)
    requires |p| >= 5 && p[1] == MAGIC_V1 && p[4] != MSP_V2_FRAME_ID
    requires h == (if p[3] == JUMBO_SIZE_MARKER then 7 else 5) && |p| == h + size
    requires size == if p[3] == JUMBO_SIZE_MARKER then FromLe16(p[5], p[6]) else p[3]
    requires x != y && Judge(max, p + [x]).Complete?
    ensures Judge(max, p + [y]).Reject? && !Judge(max, p + [y]).consumed
  {
    hide XorSum, CrcSum;
    PlainV1IsJudged(max, p + [x], h, size);
    PlainV1IsJudged(max, p + [y], h, size);
    assert (p + [x])[3..h + size] == p[3..] == (p + [y])[3..h + size];
  }

  /** At most one last byte completes a native v2 word. */
  lemma LastByteDecidesV2(max: nat, p: seq<byte>, x: byte, y: byte)
    requires |p| >= 8 && p[1] == MAGIC_V2_NATIVE && |p| == 8 + FromLe16(p[6], p[7]) && x != y
    ensures Judge(max, p + [x]).Complete? ==> Judge(max, p + [y]).Reject? && !Judge(max, p + [y]).consumed
  {
    hide XorSum, CrcSum;
    assert Judge(max, p + [x]) == JudgeV2(max, p + [x], 3, None);
    assert Judge(max, p + [y]) == JudgeV2(max, p + [y], 3, None);
    assert (p + [x])[3..|p|] == p[3..] == (p + [y])[3..|p|];
  }

  /** Inside an envelope, any inner CRC but the right one ends the attempt at once. */
  lemma InnerCrcDecides(max: nat, f: MspFrame, jumbo: bool, w: seq<byte>, y: byte)
    requires Carriable(max, f, jumbo) && f.wireFormat.V2OverV1? && w == Render(f, jumbo)
    requires GuardIndex(f, jumbo) < |w| && y != w[GuardIndex(f, jumbo)]
    ensures var v := Judge(max, w[..GuardIndex(f, jumbo)] + [y]);
            v.Reject? && !v.consumed
  {
    hide XorSum, CrcSum, Render;
    var size := V2_OVER_V1_OVERHEAD + |f.payload|;
    var h := if jumbo then 7 else 5;
    var end := GuardIndex(f, jumbo);
    EnvelopeLayout(f, jumbo, w, h, end);
    EnvelopeHeader(f, jumbo, w, h);
    CarriedFields(f, w, h);
    var word := w[..end] + [y];
    EnvelopeIsJudgedInside(max, word, h, size);
    assert word[h..end] == w[h..end];
  }

  lemma GuardDecidesV1(max: nat, f: MspFrame, jumbo: bool, w: seq<byte>, y: byte)
    requires Carriable(max, f, jumbo) && f.wireFormat.V1? && w == Render(f, jumbo)
    requires GuardIndex(f, jumbo) == |w| - 1 && y != w[|w| - 1] && Judge(max, w).Complete?
    ensures var v := Judge(max, w[..|w| - 1] + [y]);
            v.Reject? && !v.consumed
  {
    hide XorSum, CrcSum, Judge;
    if jumbo { Le16RoundTrip(|f.payload|); }
    assert w[..|w| - 1] + [w[|w| - 1]] == w;
    LastByteDecidesV1(max, w[..|w| - 1], w[|w| - 1], y, if jumbo then 7 else 5, |f.payload|);
  }

  lemma GuardDecidesV2(max: nat, f: MspFrame, jumbo: bool, w: seq<byte>, y: byte)
    requires Carriable(max, f, jumbo) && f.wireFormat.V2? && w == Render(f, jumbo)
    requires GuardIndex(f, jumbo) == |w| - 1 && y != w[|w| - 1] && Judge(max, w).Complete?
    ensures var v := Judge(max, w[..|w| - 1] + [y]);
            v.Reject? && !v.consumed
  {
    hide XorSum, CrcSum, Judge;
    assert w[3..|w| - 1] == Body(f, jumbo);
    CarriedFields(f, w, 3);
    assert w[..|w| - 1] + [w[|w| - 1]] == w;
    LastByteDecidesV2(max, w[..|w| - 1], w[|w| - 1], y);
  }

  /** The payload ends where its first checksum stands. */
  lemma GuardPosition(max: nat, f: MspFrame, jumbo: bool)
    requires Carriable(max, f, jumbo)
    ensures 5 <= GuardIndex(f, jumbo) == |Render(f, jumbo)| - (if f.wireFormat.V2OverV1? then 2 else 1)
  {
    hide XorSum, CrcSum;
  }

  /** A rendered frame whose first payload checksum byte is replaced is rejected at that byte. */
  lemma GuardDecides(max: nat, f: MspFrame, jumbo: bool, y: byte)
    requires Carriable(max, f, jumbo)
    ensures var w := Render(f, jumbo);
            var cut := GuardIndex(f, jumbo);
            && 5 <= cut < |w|
            && InProgress(max, w[..cut])
            && (y != w[cut] ==> Judge(max, w[..cut] + [y]).Reject? && !Judge(max, w[..cut] + [y]).consumed)
  {
    hide XorSum, CrcSum, Judge, Render, Carriable;
    var w := Render(f, jumbo);
    var cut := GuardIndex(f, jumbo);
    GuardPosition(max, f, jumbo);
    RenderedIsComplete(max, f, jumbo);
    var all := w[..|w| - 1];
    forall n | 2 <= n <= cut ensures Judge(max, w[..cut][..n]) == Partial {
      assert w[..cut][..n] == all[..n];
    }
    if y != w[cut] {
      match f.wireFormat {
        case V1 => GuardDecidesV1(max, f, jumbo, w, y);
        case V2 => GuardDecidesV2(max, f, jumbo, w, y);
        case V2OverV1 => InnerCrcDecides(max, f, jumbo, w, y);
      }
    }
  }

  /**
   * CORRUPTION: a carriable frame with one payload byte altered never yields a frame, in any
   * format, whatever noise came before.
   */
  lemma AlteredPayloadYieldsNoFrame(max: nat, r: Reader, f: MspFrame, jumbo: bool, i: nat, b: byte, now: int)
    requires r.attempt == [] && Carriable(max, f, jumbo) && i < |f.payload| && f.payload[i] != b
    ensures NoFrame(FeedAll(max, r, Render(f, jumbo)[PayloadStart(f, jumbo) + i := b], now).segments)
  {
    hide Render, Judge, FeedAll;
    match f.wireFormat {
      case V1 => AlteredV1(f, jumbo, i, b);
      case V2 => AlteredV2(f, jumbo, i, b);
      case V2OverV1 => AlteredEnvelope(f, jumbo, i, b);
    }
    var g := f.(payload := f.payload[i := b]);
    var w := Render(f, jumbo)[PayloadStart(f, jumbo) + i := b];
    var cut := GuardIndex(f, jumbo);
    GuardDecides(max, g, jumbo, w[cut]);
    FeedInProgress(max, r, w[..cut], now);
    var before := FeedAll(max, r, w[..cut], now);
    assert w == w[..cut] + w[cut..];
    FeedAllConcat(max, r, w[..cut], w[cut..], now);
    RejectedTail(max, before.reader, w[cut..], now);
  }

  /** After a rejection that gives its byte back, one or two bytes cannot make a frame. */
  lemma RejectedTail(max: nat, r: Reader, tail: seq<byte>, now: int)
    requires 1 <= |tail| <= 2 && r.attempt != [] && r.noise == []
    requires Judge(max, r.attempt + [tail[0]]).Reject? && !Judge(max, r.attempt + [tail[0]]).consumed
    ensures NoFrame(FeedAll(max, r, tail, now).segments)
  {
    hide XorSum, CrcSum, JudgeV1, JudgeV2;
    var first := Feed(max, r, tail[0], now);
    assert FeedAll(max, r, tail[..0], now) == Reading(r, []);
    assert FeedAll(max, r, tail[..1], now) == first by {
      assert tail[..1][..0] == tail[..0];
    }
    assert |first.reader.attempt| <= 1;
    if |tail| == 1 {
      assert tail[..1] == tail;
    }
  }
}
