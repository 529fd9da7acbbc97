/** Writes follow submissions: in the same order, and each with the bytes of the very request it is for. */
module MspClientOrder {
  import opened MspTypes
  import opened MspWireGrammar
  import opened MspEncoder
  import opened MspClientModel
  import opened MspClientInvariants
  import opened MspClientRuns
  import opened MspClientHistory

  /** What each request id was submitted for. */
  type Book = map<RequestId, RequestSpec>

  /** The request an event submits, if it submits one; the recovery probe is the client's own. */
  function Asked(e: Event): Option<RequestSpec> {
    match e
    case Request(spec) => Some(spec)
    case LeaseRequest(_, spec) => Some(spec)
    case EmergencyStop(_, spec) => Some(spec)
    case RestartOk(_) => Some(PROBE_SPEC)
    case _ => None
  }

  function Recorded(book: Book, s: Engine, t: Engine, e: Event): Book {
    if Asked(e).Some? && s.nextId < t.nextId then book[s.nextId := Asked(e).value] else book
  }

  /** Every request submitted in a run of a fresh client, with what was asked for. */
  function Submitted(env: Env, events: seq<Event>): Book {
    if events == [] then map[]
    else
      var last := |events| - 1;
      Recorded(Submitted(env, events[..last]), Run(env, INITIAL, events[..last]), Run(env, INITIAL, events),
               events[last])
  }

  predicate WrittenAs(book: Book, w: WriteRecord) {
    w.id in book && book[w.id].Encodable() && w.bytes == book[w.id].Bytes()
  }

  /** Not yet written, and behind everything that was. */
  ghost predicate Waits(book: Book, s: Engine, r: PendingRequest) {
    && r.id < s.nextId && r.id in book && book[r.id] == r.spec
    && (forall i :: 0 <= i < |s.writes| ==> s.writes[i].id < r.id)
  }

  ghost predicate QueueOk(book: Book, s: Engine) {
    && (forall k :: 0 <= k < |s.queue| ==> Waits(book, s, s.queue[k]))
    && (forall i, j :: 0 <= i < j < |s.queue| ==> s.queue[i].id < s.queue[j].id)
  }

  ghost predicate WritesOk(book: Book, s: Engine) {
    && (forall i, j :: 0 <= i < j < |s.writes| ==> s.writes[i].id < s.writes[j].id)
    && (forall i :: 0 <= i < |s.writes| ==> s.writes[i].id < s.nextId && WrittenAs(book, s.writes[i]))
  }

  ghost predicate Ahead(r: PendingRequest, queue: seq<PendingRequest>) {
    forall k :: 0 <= k < |queue| ==> r.id < queue[k].id
  }

  ghost predicate ActiveOk(book: Book, s: Engine) {
    s.active.Some? ==>
      var a := s.active.value;
      a.id < s.nextId && a.id in book && a.command == book[a.id].command
      && a.protocol == ProtocolOf(book[a.id].wireFormat)
  }

  /** A frame that answers a request: the same command of the same protocol, and no request itself. */
  predicate Answers(spec: RequestSpec, f: MspFrame) {
    f.command == spec.command && f.Protocol() == ProtocolOf(spec.wireFormat) && !f.direction.Request?
  }

  ghost predicate AnswersOk(book: Book, s: Engine) {
    forall id :: id in s.outcomes && s.outcomes[id].Resolved? ==>
      id < s.nextId && id in book && Answers(book[id], s.outcomes[id].frame)
  }

  /** Written, then the waiting stop, then the queue: one line in the order of submission. */
  ghost predicate LineOk(book: Book, s: Engine) {
    && WritesOk(book, s) && QueueOk(book, s) && ActiveOk(book, s) && AnswersOk(book, s)
    && (s.stopPending.Some? ==> Waits(book, s, s.stopPending.value) && Ahead(s.stopPending.value, s.queue))
  }

  // ---------------------------------------------------------------- the line gets shorter

  /** The active request goes, or only its phase changes. */
  ghost predicate ActiveKept(s: Engine, t: Engine) {
    t.active.Some? ==>
      && s.active.Some? && t.active.value.id == s.active.value.id
      && t.active.value.command == s.active.value.command && t.active.value.protocol == s.active.value.protocol
  }

  ghost predicate NoNewAnswer(s: Engine, t: Engine) {
    forall id :: id in t.outcomes && t.outcomes[id].Resolved? ==> id in s.outcomes && t.outcomes[id] == s.outcomes[id]
  }

  /** Nothing is written, submitted or answered; the queue and the stop slot stay or are emptied. */
  ghost predicate Thinned(s: Engine, t: Engine) {
    && t.writes == s.writes && t.nextId == s.nextId
    && (t.queue == s.queue || t.queue == [])
    && (t.stopPending == s.stopPending || t.stopPending.None?)
    && ActiveKept(s, t) && NoNewAnswer(s, t)
  }

  lemma ThinnedLine(book: Book, s: Engine, t: Engine)
    requires LineOk(book, s) && Thinned(s, t)
    ensures LineOk(book, t)
  {
    hide WrittenAs;
    forall k | 0 <= k < |t.queue| ensures Waits(book, t, t.queue[k]) {
      assert Waits(book, s, s.queue[k]);
    }
  }

  lemma SettleThins(s: Engine, id: RequestId, origin: Origin, o: Outcome)
    requires o.Rejected?
    ensures Thinned(s, Settle(s, id, origin, o)) && Thinned(s, Settle(s, id, origin, o).(active := None))
    ensures Settle(s, id, origin, o).queue == s.queue && Settle(s, id, origin, o).stopPending == s.stopPending
  {
  }

  lemma {:induction false} SettleAllThins(s: Engine, rs: seq<PendingRequest>, o: Outcome)
    requires o.Rejected?
    ensures Thinned(s, SettleAll(s, rs, o))
    decreases |rs|
  {
    hide Settle;
    if rs != [] {
      SettleThins(s, rs[0].id, rs[0].origin, o);
      SettleAllThins(Settle(s, rs[0].id, rs[0].origin, o), rs[1..], o);
    }
  }

  lemma FaultThins(s: Engine)
    ensures Thinned(s, FaultLease(s)) && Thinned(s, InvalidateLease(s))
  {
  }

  lemma AbortThins(s: Engine, code: Code)
    ensures Thinned(s, AbortStop(s, code))
  {
    hide Settle;
    if s.stopPending.Some? {
      SettleThins(s.(stopPending := None), s.stopPending.value.id, s.stopPending.value.origin, Rejected(code));
    }
  }

  lemma DesyncThins(env: Env, s: Engine)
    ensures Thinned(s, DesyncLatch(env, s))
  {
    hide FaultLease, AbortStop, SettleAll;
    FaultThins(s);
    var s1 := AbortStop(FaultLease(s), StopAbortedByDesync);
    AbortThins(FaultLease(s), StopAbortedByDesync);
    SettleAllThins(s1.(queue := []), s1.queue, Rejected(Recovering));
  }

  lemma RejectAllThins(s: Engine, code: Code)
    ensures Thinned(s, RejectAll(s, code))
  {
    hide Settle, SettleAll, AbortStop;
    if s.active.Some? {
      SettleThins(s.(timers := s.timers - {s.active.value.id}), s.active.value.id, s.active.value.origin,
                  Rejected(code));
    }
    var s1 := AbortStop(RejectActive(s, code), StopAbortedBySessionEnd);
    AbortThins(RejectActive(s, code), StopAbortedBySessionEnd);
    SettleAllThins(s1.(queue := []), s1.queue, Rejected(code));
  }

  lemma ThinnedTwice(s: Engine, t: Engine, u: Engine)
    requires Thinned(s, t) && Thinned(t, u)
    ensures Thinned(s, u)
  {
  }

  /** Fields the line does not look at. */
  lemma ThinnedSame(s: Engine, t: Engine)
    requires t.outcomes == s.outcomes
    requires t.writes == s.writes && t.nextId == s.nextId && t.queue == s.queue && t.stopPending == s.stopPending
    requires t.active == s.active
    ensures Thinned(s, t)
  {
  }

  lemma DisposeThins(s: Engine)
    ensures Thinned(s, DoDispose(s))
  {
    hide RejectAll, InvalidateLease, Thinned;
    var d := s.(disposed := true);
    ThinnedSame(s, d);
    ThinnedSame(s, s);
    var i := InvalidateLease(d);
    FaultThins(d);
    ThinnedTwice(s, d, i);
    var c := i.(state := Closing);
    ThinnedSame(i, c);
    ThinnedTwice(s, i, c);
    var r := RejectAll(c, SessionClosed);
    RejectAllThins(c, SessionClosed);
    ThinnedTwice(s, c, r);
    ThinnedSame(r, r.(disconnectCause := Some(SessionClosed), state := Disconnected));
    ThinnedTwice(s, r, r.(disconnectCause := Some(SessionClosed), state := Disconnected));
  }

  lemma DetachThins(s: Engine)
    ensures Thinned(s, DoDetach(s))
  {
    hide RejectAll, InvalidateLease, Thinned;
    var i := InvalidateLease(s);
    FaultThins(s);
    var c := i.(disconnectCause := Some(DeviceDetached), state := Disconnected);
    ThinnedSame(i, c);
    ThinnedTwice(s, i, c);
    RejectAllThins(c, DeviceDetached);
    ThinnedTwice(s, c, RejectAll(c, DeviceDetached));
  }

  // ---------------------------------------------------------------- its head is written

  /** A request taken from the head of the line. */
  ghost predicate AtHead(book: Book, s: Engine, r: PendingRequest) {
    && Waits(book, s, r) && Ahead(r, s.queue)
    && (s.stopPending.Some? ==> r.id < s.stopPending.value.id)
  }

  lemma ActivatedLine(book: Book, s: Engine, r: PendingRequest)
    requires LineOk(book, s) && AtHead(book, s, r) && r.spec.Encodable()
    ensures LineOk(book, Activated(s, r))
  {
    hide Render, MinimalJumbo, Refusal;
    var t := Activated(s, r);
    forall i | 0 <= i < |t.writes| ensures t.writes[i].id < t.nextId && WrittenAs(book, t.writes[i]) {
      if i < |s.writes| { assert t.writes[i] == s.writes[i]; }
    }
    forall k | 0 <= k < |t.queue| ensures Waits(book, t, t.queue[k]) {
      assert Waits(book, s, s.queue[k]);
    }
  }

  lemma {:induction false} PumpLine(env: Env, book: Book, s: Engine)
    requires LineOk(book, s)
    ensures LineOk(book, Pump(env, s)) && Pump(env, s).nextId == s.nextId
    decreases Backlog(s), 0
  {
    hide StartRequest, WrittenAs;
    if s.state == Ready && s.active.None? {
      if s.stopPending.Some? {
        var t := s.(stopPending := None);
        ThinnedLine(book, s, t);
        StartLine(env, book, t, s.stopPending.value);
      } else if s.queue != [] {
        var t := s.(queue := s.queue[1..]);
        TailLine(book, s);
        StartLine(env, book, t, s.queue[0]);
      }
    }
  }

  lemma TailLine(book: Book, s: Engine)
    requires LineOk(book, s) && s.queue != [] && s.stopPending.None?
    ensures LineOk(book, s.(queue := s.queue[1..])) && AtHead(book, s.(queue := s.queue[1..]), s.queue[0])
  {
    hide WrittenAs;
    var t := s.(queue := s.queue[1..]);
    forall k | 0 <= k < |t.queue| ensures Waits(book, t, t.queue[k]) {
      assert Waits(book, s, s.queue[k + 1]);
    }
    assert Waits(book, s, s.queue[0]);
  }

  lemma {:induction false} StartLine(env: Env, book: Book, s: Engine, r: PendingRequest)
    requires LineOk(book, s) && AtHead(book, s, r)
    ensures LineOk(book, StartRequest(env, s, r)) && StartRequest(env, s, r).nextId == s.nextId
    decreases Backlog(s), 1
  {
    hide LineOk, Settle, DesyncLatch, Activated, Pump, AtHead;
    if !r.spec.Encodable() {
      SettleKeepsBacklog(s, r.id, r.origin, Rejected(EncodeFailed));
      SettleThins(s, r.id, r.origin, Rejected(EncodeFailed));
      var t := Settle(s, r.id, r.origin, Rejected(EncodeFailed));
      ThinnedLine(book, s, t);
      PumpLine(env, book, t);
    } else {
      ActivatedLine(book, s, r);
      AfterActivationThins(env, s, r);
      ThinnedLine(book, Activated(s, r), StartRequest(env, s, r));
    }
  }

  lemma AfterActivationThins(env: Env, s: Engine, r: PendingRequest)
    requires r.spec.Encodable()
    ensures Thinned(Activated(s, r), StartRequest(env, s, r)) && Activated(s, r).nextId == s.nextId
  {
    hide Settle, DesyncLatch, Pump;
    var s1 := Activated(s, r);
    var o := Rejected(if r.origin.Probe? then ProbeFailed else WriteOutcomeUnknown);
    SettleThins(s1, r.id, r.origin, o);
    DesyncThins(env, Settle(s1, r.id, r.origin, o).(active := None));
  }

  // ---------------------------------------------------------------- its end grows

  /** A fresh id goes to the end of the line, whatever becomes of its request. */
  lemma BookGrows(book: Book, s: Engine, spec: RequestSpec)
    requires LineOk(book, s)
    ensures LineOk(book[s.nextId := spec], s.(nextId := s.nextId + 1))
  {
    hide Render, MinimalJumbo, Refusal;
    var t := s.(nextId := s.nextId + 1);
    var more := book[s.nextId := spec];
    forall k | 0 <= k < |t.queue| ensures Waits(more, t, t.queue[k]) {
      assert Waits(book, s, s.queue[k]);
    }
  }

  lemma EmptyBook()
    ensures LineOk(map[], INITIAL)
  {
  }

  /** `t` is what a run of calls makes of `s` without submitting anything. */
  ghost predicate OnlyPumped(book: Book, s: Engine, t: Engine) {
    LineOk(book, t) && t.nextId == s.nextId
  }

  lemma ThinnedOnly(book: Book, s: Engine, t: Engine)
    requires LineOk(book, s) && Thinned(s, t)
    ensures OnlyPumped(book, s, t)
  {
    ThinnedLine(book, s, t);
  }

  /** The slot is freed, and the pump or the desync latch follows, or neither. */
  lemma FinishedLine(env: Env, book: Book, s: Engine, s0: Engine, id: RequestId, origin: Origin, o: Outcome)
    requires LineOk(book, s) && Thinned(s, s0) && o.Rejected?
    ensures
      var t := Settle(s0, id, origin, o).(active := None);
      && OnlyPumped(book, s, t) && OnlyPumped(book, s, Pump(env, t)) && OnlyPumped(book, s, DesyncLatch(env, t))
  {
    hide LineOk, Settle, Pump, DesyncLatch;
    var t := Settle(s0, id, origin, o).(active := None);
    SettleThins(s0, id, origin, o);
    ThinnedTwice(s, s0, t);
    ThinnedLine(book, s, t);
    PumpLine(env, book, t);
    DesyncThins(env, t);
    ThinnedLine(book, t, DesyncLatch(env, t));
  }

  lemma WriteSettledLine(env: Env, book: Book, s: Engine, id: RequestId, f: WriteFailure)
    requires LineOk(book, s)
    ensures OnlyPumped(book, s, DoWriteOk(env, s, id)) && OnlyPumped(book, s, DoWriteFailed(env, s, id, f))
  {
    hide LineOk, Settle, Pump, DesyncLatch;
    var s0 := s.(writing := s.writing - {id});
    ThinnedOnly(book, s, s0);
    if s.active.Some? {
      var a := s.active.value;
      FinishedLine(env, book, s, s0, id, a.origin, Rejected(DisplacedInFlight));
      FinishedLine(env, book, s, s0, id, a.origin, Rejected(ProbeFailed));
      FinishedLine(env, book, s, s0, id, a.origin, Rejected(ClassifyWriteFailure(f)));
      ThinnedOnly(book, s, s0.(active := Some(a.(phase := AwaitingResponse)), timers := s0.timers + {id}));
    }
  }

  lemma TimeoutLine(env: Env, book: Book, s: Engine, id: RequestId)
    requires LineOk(book, s)
    ensures OnlyPumped(book, s, DoTimeout(env, s, id))
  {
    hide LineOk, Settle, DesyncLatch;
    var s0 := s.(timers := s.timers - {id});
    ThinnedOnly(book, s, s0);
    if s.active.Some? {
      FinishedLine(env, book, s, s0, id, s.active.value.origin, Rejected(ProbeFailed));
      FinishedLine(env, book, s, s0, id, s.active.value.origin, Rejected(Timeout));
    }
  }

  lemma AnsweredShape(s: Engine, f: MspFrame)
    requires Matches(s, f)
    ensures
      var a := s.active.value;
      var t := Settle(s.(timers := s.timers - {a.id}), a.id, a.origin, Resolved(f)).(active := None);
      t == s.(timers := t.timers, active := None, outcomes := s.outcomes[a.id := Resolved(f)], state := t.state,
              jobs := t.jobs)
  {
    hide Settle;
    var a := s.active.value;
    SettledAtMost(s.(timers := s.timers - {a.id}), a.id, a.origin, Resolved(f));
  }

  lemma SettledAtMost(s: Engine, id: RequestId, origin: Origin, o: Outcome)
    requires id !in s.outcomes
    ensures var t := Settle(s, id, origin, o);
            t == s.(outcomes := s.outcomes[id := o], state := t.state, jobs := t.jobs)
  {
  }

  /** The active request is answered by a frame of its own command. */
  lemma AnsweredLine(book: Book, s: Engine, f: MspFrame)
    requires LineOk(book, s) && Matches(s, f)
    ensures var a := s.active.value;
            OnlyPumped(book, s, Settle(s.(timers := s.timers - {a.id}), a.id, a.origin, Resolved(f)).(active := None))
  {
    hide Settle, WritesOk, QueueOk, Waits;
    var a := s.active.value;
    var t := Settle(s.(timers := s.timers - {a.id}), a.id, a.origin, Resolved(f)).(active := None);
    AnsweredShape(s, f);
    var u := t.(outcomes := s.outcomes);
    ThinnedLine(book, s, u);
    OutcomesAside(book, u, t);
    assert AnswersOk(book, t);
  }

  lemma OutcomesAside(book: Book, u: Engine, t: Engine)
    requires LineOk(book, u) && t == u.(outcomes := t.outcomes)
    ensures WritesOk(book, t) && QueueOk(book, t)
    ensures t.stopPending.Some? ==> Waits(book, t, t.stopPending.value) && Ahead(t.stopPending.value, t.queue)
  {
    hide WrittenAs;
    forall k | 0 <= k < |t.queue| ensures Waits(book, t, t.queue[k]) {
      assert Waits(book, u, u.queue[k]);
    }
  }

  lemma {:induction false} FramesLine(env: Env, book: Book, s: Engine, fs: seq<MspFrame>)
    requires LineOk(book, s)
    ensures OnlyPumped(book, s, DoFrames(env, s, fs))
    decreases |fs|
  {
    hide LineOk, Settle, Pump;
    if fs != [] {
      if Matches(s, fs[0]) {
        var a := s.active.value;
        var s0 := s.(timers := s.timers - {a.id});
        ThinnedSame(s, s0);
        if fs[0].direction.Error? && !a.origin.Probe? {
          FinishedLine(env, book, s, s0, a.id, a.origin, Rejected(RemoteError));
        } else {
          AnsweredLine(book, s, fs[0]);
          PumpLine(env, book, Settle(s0, a.id, a.origin, Resolved(fs[0])).(active := None));
        }
      }
      FramesLine(env, book, DoFrame(env, s, fs[0]), fs[1..]);
    }
  }

  lemma LeaseLine(book: Book, s: Engine, token: Token)
    requires LineOk(book, s)
    ensures OnlyPumped(book, s, DoAcquire(s)) && OnlyPumped(book, s, DoRelease(s, token))
    ensures OnlyPumped(book, s, DoFaultByToken(s, token))
  {
    hide LineOk, FaultLease, Thinned;
    ThinnedSame(s, DoAcquire(s));
    ThinnedSame(s, DoRelease(s, token));
    ThinnedSame(s, s);
    FaultThins(s);
    ThinnedLine(book, s, DoAcquire(s));
    ThinnedLine(book, s, DoRelease(s, token));
    ThinnedLine(book, s, DoFaultByToken(s, token));
    assert FaultLease(s).nextId == s.nextId by { FaultLeaseChanges(s); }
  }

  // ---------------------------------------------------------------- submitting

  /** One id was given out, for `spec`. */
  ghost predicate Joined(book: Book, s: Engine, spec: RequestSpec, t: Engine) {
    LineOk(book[s.nextId := spec], t) && t.nextId == s.nextId + 1
  }

  lemma RefusedLine(book: Book, s: Engine, spec: RequestSpec, origin: Origin, code: Code)
    requires LineOk(book, s)
    ensures Joined(book, s, spec, Refuse(s, origin, code))
  {
    hide LineOk, Settle;
    BookGrows(book, s, spec);
    SettleThins(s.(nextId := s.nextId + 1), s.nextId, origin, Rejected(code));
    ThinnedLine(book[s.nextId := spec], s.(nextId := s.nextId + 1), Refuse(s, origin, code));
  }

  lemma LastWaits(book: Book, s: Engine, r: PendingRequest)
    requires LineOk(book, s) && r.id == s.nextId
    ensures Waits(book[s.nextId := r.spec], s.(nextId := s.nextId + 1), r)
  {
  }

  lemma QueuedLine(book: Book, s: Engine, r: PendingRequest)
    requires LineOk(book, s) && r.id == s.nextId
    ensures LineOk(book[s.nextId := r.spec], s.(nextId := s.nextId + 1, queue := s.queue + [r]))
  {
    hide WrittenAs;
    var more := book[s.nextId := r.spec];
    var u := s.(nextId := s.nextId + 1);
    var t := u.(queue := s.queue + [r]);
    BookGrows(book, s, r.spec);
    LastWaits(book, s, r);
    forall k | 0 <= k < |t.queue| ensures Waits(more, t, t.queue[k]) {
      if k < |s.queue| { assert Waits(more, u, u.queue[k]); }
    }
  }

  lemma EnqueueLine(env: Env, book: Book, s: Engine, spec: RequestSpec, origin: Origin)
    requires LineOk(book, s)
    ensures Joined(book, s, spec, Enqueue(env, s, spec, origin))
  {
    hide LineOk, Refuse, Pump;
    var rejection := CheckAcceptance(s);
    if rejection.Some? {
      RefusedLine(book, s, spec, origin, rejection.value);
    } else if |s.queue| >= env.maxPending {
      RefusedLine(book, s, spec, origin, QueueFull);
    } else {
      var r := PendingRequest(s.nextId, spec, origin);
      QueuedLine(book, s, r);
      PumpLine(env, book[s.nextId := spec], s.(nextId := s.nextId + 1, queue := s.queue + [r]));
    }
  }

  lemma DisplaceThins(s: Engine)
    ensures Thinned(s, DisplaceActive(s))
  {
    hide Settle;
    if s.active.Some? {
      SettleThins(s.(timers := s.timers - {s.active.value.id}), s.active.value.id, s.active.value.origin,
                  Rejected(DisplacedInFlight));
    }
  }

  lemma SlotLine(book: Book, d: Engine, t: Engine, stop: PendingRequest)
    requires LineOk(book, d) && d.queue == [] && stop.id == d.nextId
    requires t == d.(nextId := d.nextId + 1, stopPending := Some(stop), stopRegistered := t.stopRegistered,
                     stopAmbiguous := t.stopAmbiguous, stopDeferred := t.stopDeferred)
    ensures LineOk(book[d.nextId := stop.spec], t)
  {
    hide WrittenAs;
    BookGrows(book, d, stop.spec);
    LastWaits(book, d, stop);
  }

  lemma DisplacedQueueIsEmpty(s: Engine)
    ensures DisplaceActive(SettleAll(s.(queue := []), s.queue, Rejected(DisplacedQueued))).queue == []
  {
    hide SettleAll, Settle;
    SettleAllThins(s.(queue := []), s.queue, Rejected(DisplacedQueued));
    DisplaceThins(SettleAll(s.(queue := []), s.queue, Rejected(DisplacedQueued)));
  }

  lemma RegisteredLine(book: Book, s: Engine, token: Token, spec: RequestSpec)
    requires LineOk(book, s)
    ensures Joined(book, s, spec, RegisterStop(s, token, spec))
  {
    hide LineOk, SettleAll, DisplaceActive, Thinned;
    var q := s.(queue := []);
    assert Thinned(s, q) by { QueueDropThins(s); }
    var p := SettleAll(q, s.queue, Rejected(DisplacedQueued));
    SettleAllThins(q, s.queue, Rejected(DisplacedQueued));
    ThinnedTwice(s, q, p);
    var d := DisplaceActive(p);
    DisplaceThins(p);
    ThinnedTwice(s, p, d);
    ThinnedOnly(book, s, d);
    DisplacedQueueIsEmpty(s);
    SlotLine(book, d, RegisterStop(s, token, spec), PendingRequest(s.nextId, spec, Stop(token)));
  }

  lemma QueueDropThins(s: Engine)
    ensures Thinned(s, s.(queue := []))
  {
  }

  lemma EmergencyStopLine(env: Env, book: Book, s: Engine, token: Token, spec: RequestSpec)
    requires LineOk(book, s)
    ensures Joined(book, s, spec, DoEmergencyStop(env, s, token, spec)) || DoEmergencyStop(env, s, token, spec) == s
  {
    hide LineOk, Refuse, RegisterStop, Pump;
    if s.token != Some(token) {
      RefusedLine(book, s, spec, Ordinary, CapabilityInvalid);
    } else if s.stopRegistered.None? {
      if CheckAcceptance(s).Some? {
        RefusedLine(book, s, spec, Ordinary, CheckAcceptance(s).value);
      } else {
        RegisteredLine(book, s, token, spec);
        PumpLine(env, book[s.nextId := spec], RegisterStop(s, token, spec));
      }
    }
  }

  /** A probe is only ever sent with nothing waiting. */
  lemma ProbeLine(env: Env, book: Book, s: Engine, epoch: nat)
    requires LineOk(book, s) && Mid(s, None) && Quiet(s) && epoch in s.restarting
    ensures Joined(book, s, PROBE_SPEC, DoRestartOk(env, s, epoch)) || OnlyPumped(book, s, DoRestartOk(env, s, epoch))
  {
    hide LineOk, StartRequest, PlacesOk, LogOk, LeaseOk, MidStop, JobsOk;
    var s0 := s.(restarting := s.restarting - {epoch});
    ThinnedOnly(book, s, s0);
    if IsCurrentRecovery(s, epoch) {
      assert s.queue == [] && s.stopPending.None?;
      var r := PendingRequest(s.nextId, PROBE_SPEC, Probe(s.epoch));
      var more := book[s.nextId := PROBE_SPEC];
      var u := s0.(nextId := s.nextId + 1);
      var t := s0.(state := Probing, nextId := s.nextId + 1);
      BookGrows(book, s0, PROBE_SPEC);
      ThinnedLine(more, u, t);
      assert AtHead(more, t, r) by { ProbeAtHead(book, s0, t, r); }
      StartLine(env, more, t, r);
    }
  }

  lemma ProbeAtHead(book: Book, s: Engine, t: Engine, r: PendingRequest)
    requires LineOk(book, s) && r.id == s.nextId && s.queue == [] && s.stopPending.None?
    requires t == s.(state := t.state, nextId := s.nextId + 1)
    ensures AtHead(book[s.nextId := r.spec], t, r)
  {
    LastWaits(book, s, r);
  }

  lemma RestartFailedLine(book: Book, s: Engine, epoch: nat)
    requires LineOk(book, s)
    ensures OnlyPumped(book, s, DoRestartFailed(s, epoch))
  {
    hide LineOk;
    ThinnedOnly(book, s, DoRestartFailed(s, epoch));
  }

  lemma EndLine(book: Book, s: Engine)
    requires LineOk(book, s)
    ensures OnlyPumped(book, s, DoDispose(s)) && OnlyPumped(book, s, DoDetach(s))
  {
    hide LineOk, Thinned, DoDispose, DoDetach, OnlyPumped;
    DisposeThins(s);
    DetachThins(s);
    ThinnedOnly(book, s, DoDispose(s));
    ThinnedOnly(book, s, DoDetach(s));
  }

  /** Every event keeps the line, and submits at most the one request it asks for. */
  ghost predicate LineKept(book: Book, s: Engine, e: Event, t: Engine) {
    || OnlyPumped(book, s, t)
    || (Asked(e).Some? && Joined(book, s, Asked(e).value, t))
  }

  lemma ActLine(env: Env, book: Book, s: Engine, e: Event)
    requires LineOk(book, s) && Mid(s, None) && Quiet(s) && Possible(s, e)
    ensures LineKept(book, s, e, Act(env, s, e))
  {
    hide DoWriteOk, DoWriteFailed, DoTimeout, DoFrames, DoEmergencyStop, DoRestartOk, DoRestartFailed, DoDetach,
      DoDispose, DoAcquire, DoRelease, DoFaultByToken, Enqueue, Refuse, LineOk, Mid, Quiet;
    match e {
      case Request(spec) => EnqueueLine(env, book, s, spec, Ordinary); RefusedLine(book, s, spec, Ordinary, LeaseHeld);
      case LeaseRequest(token, spec) =>
        EnqueueLine(env, book, s, spec, Leased(token));
        RefusedLine(book, s, spec, Ordinary, CapabilityInvalid);
      case EmergencyStop(token, spec) => EmergencyStopLine(env, book, s, token, spec);
      case WriteOk(id) => WriteSettledLine(env, book, s, id, OtherFailure);
      case WriteFailed(id, f) => WriteSettledLine(env, book, s, id, f);
      case TimerFired(id) => TimeoutLine(env, book, s, id);
      case Frames(fs) => FramesLine(env, book, s, fs);
      case RestartOk(epoch) => ProbeLine(env, book, s, epoch);
      case RestartFailed(epoch) => RestartFailedLine(book, s, epoch);
      case Detach => EndLine(book, s);
      case Dispose => EndLine(book, s);
      case Acquire => LeaseLine(book, s, 0);
      case ReleaseLease(token) => LeaseLine(book, s, token);
      case FaultByToken(token) => LeaseLine(book, s, token);
    }
  }

  lemma ReactedLine(book: Book, s: Engine, t: Engine)
    requires LineOk(book, s) && Reacted(s, t)
    ensures LineOk(book, t) && t.nextId == s.nextId
  {
    ThinnedSame(s, t);
    ThinnedLine(book, s, t);
  }

  lemma StepLine(env: Env, book: Book, s: Engine, e: Event)
    requires Inv(s) && LineOk(book, s)
    ensures LineKept(book, s, e, Step(env, s, e))
  {
    hide Inv, LineOk, Mid, Quiet, Act, Drain, Grew, Reacted, Asked;
    InvIsMid(s);
    if Possible(s, e) {
      var t := Act(env, s, e);
      ActLine(env, book, s, e);
      assert Mid(t, None) && Quiet(t) by { ActIsCalm(env, s, e); }
      DrainShape(t);
      if LineOk(book, t) { ReactedLine(book, t, Drain(t)); }
      if Asked(e).Some? {
        if LineOk(book[s.nextId := Asked(e).value], t) { ReactedLine(book[s.nextId := Asked(e).value], t, Drain(t)); }
      }
    }
  }

  // ---------------------------------------------------------------- every run

  lemma {:induction false} SubmittedLine(env: Env, events: seq<Event>)
    ensures LineOk(Submitted(env, events), Run(env, INITIAL, events))
    ensures forall id: RequestId :: id in Submitted(env, events) <==> id < Run(env, INITIAL, events).nextId
    decreases |events|
  {
    hide Step, LineOk, Asked, Inv;
    if events == [] {
      EmptyBook();
    } else {
      var last := |events| - 1;
      SubmittedLine(env, events[..last]);
      ReachableInv(env, events[..last]);
      StepLine(env, Submitted(env, events[..last]), Run(env, INITIAL, events[..last]), events[last]);
    }
  }

  /** What was once submitted stays on record for what it was. */
  lemma {:induction false} SubmittedOnlyGrows(env: Env, events: seq<Event>, k: nat, id: RequestId)
    requires k <= |events| && id in Submitted(env, events[..k])
    ensures id in Submitted(env, events) && Submitted(env, events)[id] == Submitted(env, events[..k])[id]
    decreases |events|
  {
    hide Run, Asked;
    if k == |events| {
      assert events[..k] == events;
    } else {
      var last := |events| - 1;
      assert events[..last][..k] == events[..k];
      SubmittedOnlyGrows(env, events[..last], k, id);
      SubmittedLine(env, events[..last]);
    }
  }

  /**
   * FIRST SUBMITTED, FIRST WRITTEN. Over every run the ids in the write log strictly increase, stops and probes
   * included, so nothing overtakes and nothing is written twice; and each write is the encoding of the very
   * request its id was given out for, as it was recorded when that happened.
   */
  lemma WritesFollowSubmissions(env: Env, events: seq<Event>)
    ensures
      var s := Run(env, INITIAL, events);
      var book := Submitted(env, events);
      && (forall i, j :: 0 <= i < j < |s.writes| ==> s.writes[i].id < s.writes[j].id)
      && (forall i :: 0 <= i < |s.writes| ==> WrittenAs(book, s.writes[i]))
    ensures forall k, id :: 0 <= k <= |events| && id in Submitted(env, events[..k]) ==>
              id in Submitted(env, events) && Submitted(env, events)[id] == Submitted(env, events[..k])[id]
  {
    hide Run, WrittenAs, Submitted;
    SubmittedLine(env, events);
    forall k, id | 0 <= k <= |events| && id in Submitted(env, events[..k])
      ensures id in Submitted(env, events) && Submitted(env, events)[id] == Submitted(env, events[..k])[id]
    {
      SubmittedOnlyGrows(env, events, k, id);
    }
  }

  /** Over every run a request is resolved by nothing but a frame that answers what it was submitted for. */
  lemma ResolvedByItsAnswer(env: Env, events: seq<Event>, id: RequestId)
    requires id in Run(env, INITIAL, events).outcomes && Run(env, INITIAL, events).outcomes[id].Resolved?
    ensures id in Submitted(env, events)
            && Answers(Submitted(env, events)[id], Run(env, INITIAL, events).outcomes[id].frame)
  {
    hide Run, Submitted, WritesOk, QueueOk, ActiveOk;
    SubmittedLine(env, events);
  }
}
