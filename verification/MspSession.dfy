/** The parser and the request engine together: what a received chunk does to the pending request. */
module MspSession {
  import opened MspTypes
  import opened MspWireGrammar
  import opened MspEncoder
  import opened MspStream
  import opened MspStreamParser
  import opened MspClientClass
  import M = MspClientModel
  import Inv = MspClientInvariants
  import Runs = MspClientRuns
  import History = MspClientHistory
  import Order = MspClientOrder

  /** The frames among the parser's events, in order. */
  function FramesOf(events: seq<Event>): seq<MspFrame> {
    if events == [] then []
    else
      var last := events[|events| - 1];
      FramesOf(events[..|events| - 1]) + if last.FrameEvent? then [last.frame] else []
  }

  /** Feeds a received chunk to the parser and every frame it completes to the client. */
  method HandleBytes(client: MspClient, parser: MspStreamParser, bytes: seq<byte>, now: int)
    requires client.Valid() && parser.Valid()
    modifies client, parser, parser.state.payload
    ensures client.Valid() && parser.Valid()
    ensures var o := Ingest(parser.config, old(parser.View()), bytes, now);
            && parser.View() == o.reader
            && client.View() == M.Step(client.env, old(client.View()), M.Frames(FramesOf(EventsOf(o.segments))))
  {
    hide Ingest, M.Step, Inv.Inv;
    var events := parser.IngestChunk(bytes, now);
    var frames: seq<MspFrame> := [];
    for i := 0 to |events|
      invariant frames == FramesOf(events[..i])
    {
      assert events[..i + 1][..i] == events[..i];
      if events[i].FrameEvent? {
        frames := frames + [events[i].frame];
      }
    }
    assert events[..|events|] == events;
    client.HandleFrames(frames);
  }

  lemma FramesOfOne(f: MspFrame, n: nat)
    ensures FramesOf([FrameEvent(f)]) == [f] && FramesOf([Resync(n), FrameEvent(f)]) == [f]
  {
    assert [FrameEvent(f)][..0] == [];
    assert [Resync(n), FrameEvent(f)][..1] == [Resync(n)] && [Resync(n)][..0] == [];
    assert FramesOf([Resync(n)]) == [];
  }

  /** A rendered frame behind any '$'-free noise is the one frame a resting parser reports. */
  lemma RenderedFrameIsReported(c: Config, held: seq<byte>, noise: seq<byte>, f: MspFrame, jumbo: bool, now: int)
    requires DOLLAR !in held && DOLLAR !in noise && Carriable(c.maxPayloadBytes, f, jumbo)
    ensures var o := Ingest(c, Reader(held, [], 0), noise + Render(f, jumbo), now);
            FramesOf(EventsOf(o.segments)) == [f] && o.reader == START
  {
    hide Judge, Render, Carriable, FeedAll;
    var r := Reader(held, [], 0);
    var wire := Render(f, jumbo);
    FeedNoise(c.maxPayloadBytes, r, noise, now);
    FeedAllConcat(c.maxPayloadBytes, r, noise, wire, now);
    FeedFrame(c.maxPayloadBytes, Reader(held + noise, [], 0), f, jumbo, now);
    RenderIsNotEmpty(f, jumbo);
    var o := Ingest(c, r, noise + wire, now);
    FramesOfOne(f, |held + noise|);
    if held + noise == [] {
      assert EventsOf(o.segments) == [FrameEvent(f)];
    } else {
      assert EventsOf(o.segments) == [Resync(|held + noise|), FrameEvent(f)];
    }
  }

  lemma RenderIsNotEmpty(f: MspFrame, jumbo: bool)
    ensures Render(f, jumbo) != []
  {
  }

  function AnswerTo(s: M.Engine, f: MspFrame): M.Outcome
    requires s.active.Some?
  {
    if f.direction.Error? && !s.active.value.origin.Probe? then M.Rejected(M.RemoteError) else M.Resolved(f)
  }

  /** The engine with the active request settled and its slot freed. */
  function Answered(s: M.Engine, f: MspFrame): M.Engine
    requires s.active.Some?
  {
    var a := s.active.value;
    M.Settle(s.(timers := s.timers - {a.id}), a.id, a.origin, AnswerTo(s, f)).(active := None)
  }

  lemma AnsweredIsSettled(env: M.Env, s: M.Engine, f: MspFrame)
    requires M.Matches(s, f)
    ensures M.DoFrames(env, s, [f]) == M.Pump(env, Answered(s, f))
    ensures var id := s.active.value.id;
            id in Answered(s, f).outcomes && Answered(s, f).outcomes[id] == AnswerTo(s, f)
  {
    hide M.Pump;
    OneFrame(env, s, f);
  }

  lemma FinishedOutcome(env: M.Env, s: M.Engine, f: MspFrame)
    requires Inv.Inv(s) && M.Matches(s, f)
    ensures
      var t := M.Step(env, s, M.Frames([f]));
      var id := s.active.value.id;
      id in t.outcomes && t.outcomes[id] == AnswerTo(s, f)
  {
    hide Inv.Inv, Inv.Mid, Inv.Quiet, M.Drain, M.Pump, M.Settle, M.DoFrames, Answered, AnswerTo, History.Grew;
    Inv.InvIsMid(s);
    AnsweredIsSettled(env, s, f);
    var t := Answered(s, f);
    History.PumpGrew(env, t);
    var u := M.Pump(env, t);
    assert Inv.Mid(u, None) && Inv.Quiet(u) by { Runs.ActIsCalm(env, s, M.Frames([f])); }
    History.DrainShape(u);
    History.GrewTransitive(t, u, M.Drain(u));
    Kept(t, M.Drain(u), s.active.value.id);
  }

  lemma OneFrame(env: M.Env, s: M.Engine, f: MspFrame)
    ensures M.DoFrames(env, s, [f]) == M.DoFrame(env, s, f)
  {
    assert M.DoFrames(env, M.DoFrame(env, s, f), [f][1..]) == M.DoFrame(env, s, f);
  }

  lemma Kept(s: M.Engine, t: M.Engine, id: M.RequestId)
    requires History.Grew(s, t) && id in s.outcomes
    ensures id in t.outcomes && t.outcomes[id] == s.outcomes[id]
  {
  }

  /**
   * END TO END: in every reachable state with an active request, the bytes of a matching frame behind any
   * '$'-free noise settle exactly that request with exactly that frame, in either size form.
   */
  lemma ResponseSettlesItsRequest(env: M.Env, events: seq<M.Event>, c: Config, held: seq<byte>, noise: seq<byte>,
                                  f: MspFrame, jumbo: bool, now: int)
    requires M.Matches(M.Run(env, M.INITIAL, events), f)
    requires DOLLAR !in held && DOLLAR !in noise && Carriable(c.maxPayloadBytes, f, jumbo)
    ensures
      var s := M.Run(env, M.INITIAL, events);
      var o := Ingest(c, Reader(held, [], 0), noise + Render(f, jumbo), now);
      var t := M.Step(env, s, M.Frames(FramesOf(EventsOf(o.segments))));
      var id := s.active.value.id;
      && id !in s.outcomes && id in t.outcomes
      && t.outcomes[id] == AnswerTo(s, f)
  {
    hide M.Run, M.Step, Ingest, Render, Carriable, Inv.Inv;
    RenderedFrameIsReported(c, held, noise, f, jumbo, now);
    Runs.ReachableInv(env, events);
    FinishedOutcome(env, M.Run(env, M.INITIAL, events), f);
  }

  /**
   * Everything the client ever hands to the transport, in any run, is the whole frame of the request its id was
   * submitted for: a parser with the default limits reads it back as that frame and nothing else.
   */
  lemma EveryWriteReadsBack(env: M.Env, events: seq<M.Event>, i: nat, now: int)
    requires i < |M.Run(env, M.INITIAL, events).writes|
    ensures
      var w := M.Run(env, M.INITIAL, events).writes[i];
      var book := Order.Submitted(env, events);
      && w.id in book && book[w.id].Encodable()
      && EventsOf(FeedAll(MSP_MAX_PAYLOAD_BYTES_DEFAULT, START, w.bytes, now).segments)
         == [FrameEvent(RequestFrame(book[w.id].command, book[w.id].payload, book[w.id].Options()))]
  {
    hide M.Run, FeedAll, Render, Refusal, Order.Submitted;
    Order.WritesFollowSubmissions(env, events);
    var w := M.Run(env, M.INITIAL, events).writes[i];
    assert Order.WrittenAs(Order.Submitted(env, events), w);
    var spec := Order.Submitted(env, events)[w.id];
    DefaultCapReadsBack(spec.command, spec.payload, spec.Options(), now);
  }
}
