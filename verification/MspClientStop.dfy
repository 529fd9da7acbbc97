/** The emergency stop goes ahead of everything: over every run, the next write is the stop or there is no stop. */
module MspClientStop {
  import opened MspTypes
  import opened MspClientModel
  import opened MspClientInvariants
  import opened MspClientRuns
  import opened MspClientHistory

  ghost predicate StopWaits(base: seq<WriteRecord>, stop: RequestId, s: Engine) {
    s.writes == base && s.stopPending.Some? && s.stopPending.value.id == stop
  }

  /** The stop is decided: it was the first write since, or it is rejected and was never written. */
  ghost predicate StopDecided(base: seq<WriteRecord>, stop: RequestId, s: Engine) {
    || (base <= s.writes && |base| < |s.writes| && s.writes[|base|].id == stop)
    || (stop in s.outcomes && NeverWritten(s.outcomes[stop]))
  }

  /** Nothing has been written since `base`, or the stop came first, or the stop is dead and unwritten. */
  ghost predicate StopFirst(base: seq<WriteRecord>, stop: RequestId, s: Engine) {
    StopWaits(base, stop, s) || StopDecided(base, stop, s)
  }

  lemma DecidedStays(base: seq<WriteRecord>, stop: RequestId, s: Engine, t: Engine)
    requires StopDecided(base, stop, s) && Grew(s, t)
    ensures StopDecided(base, stop, t)
  {
    if base <= s.writes && |base| < |s.writes| && s.writes[|base|].id == stop {
      assert t.writes[..|s.writes|] == s.writes;
      assert t.writes[..|base|] == s.writes[..|base|];
    }
  }

  lemma WaitingIsUnsettled(base: seq<WriteRecord>, stop: RequestId, s: Engine)
    requires PlacesOk(s, None) && StopWaits(base, stop, s)
    ensures stop !in s.outcomes
  {
    hide Count;
    assert Places(s, stop) + InSlot(None, stop) <= 1;
  }

  lemma StopCodes()
    ensures NeverWritten(Rejected(EncodeFailed)) && NeverWritten(Rejected(StopAbortedByDesync))
    ensures NeverWritten(Rejected(StopAbortedBySessionEnd))
  {
  }

  lemma PumpKeepsStop(env: Env, s: Engine, base: seq<WriteRecord>, stop: RequestId)
    requires CanPump(s) && StopFirst(base, stop, s)
    ensures StopFirst(base, stop, Pump(env, s))
  {
    hide PlacesOk, LogOk, CallbacksOk, LeaseOk, MidStop, JobsOk, StartRequest, Grew, StopDecided, NeverWritten;
    PumpGrew(env, s);
    if StopDecided(base, stop, s) {
      DecidedStays(base, stop, s, Pump(env, s));
    } else if s.active.None? {
      WaitingIsUnsettled(base, stop, s);
      StartedStopIsDecided(env, s, base, stop);
    }
  }

  /** The slot is drained ahead of the queue, and the stop is written or rejected in this very call. */
  lemma StartedStopIsDecided(env: Env, s: Engine, base: seq<WriteRecord>, stop: RequestId)
    requires StopWaits(base, stop, s) && stop !in s.outcomes && s.stopPending.value.origin.Stop?
    ensures StopDecided(base, stop, StartRequest(env, s.(stopPending := None), s.stopPending.value))
  {
    hide Grew, Pump, DesyncLatch, Settle;
    var r := s.stopPending.value;
    var u := s.(stopPending := None);
    var t := StartRequest(env, u, r);
    if r.spec.Encodable() {
      var a := Activated(u, r);
      assert a.writes == base + [WriteRecord(r.id, r.origin, s.token, r.spec.Bytes())];
      assert StopDecided(base, stop, a);
      AfterActivationGrew(env, u, r);
      DecidedStays(base, stop, a, t);
    } else {
      SettleShape(u, r.id, r.origin, Rejected(EncodeFailed));
      var a := Settle(u, r.id, r.origin, Rejected(EncodeFailed));
      StopCodes();
      assert StopDecided(base, stop, a);
      PumpGrew(env, a);
      DecidedStays(base, stop, a, t);
    }
  }

  lemma DesyncDecidesStop(env: Env, s: Engine, base: seq<WriteRecord>, stop: RequestId)
    requires Mid(s, None) && StopFirst(base, stop, s)
    ensures StopDecided(base, stop, DesyncLatch(env, s))
  {
    hide PlacesOk, LogOk, CallbacksOk, LeaseOk, MidStop, JobsOk, Grew, SettleAll, Settle, StopDecided, FaultLease,
      DesyncLatch, NeverWritten;
    if StopDecided(base, stop, s) {
      DesyncGrew(env, s);
      DecidedStays(base, stop, s, DesyncLatch(env, s));
    } else {
      WaitingIsUnsettled(base, stop, s);
      FaultLeaseChanges(s);
      AbortDecidesStop(FaultLease(s), base, stop, StopAbortedByDesync);
      AfterAbortGrew(env, s);
      DecidedStays(base, stop, AbortStop(FaultLease(s), StopAbortedByDesync), DesyncLatch(env, s));
    }
  }

  lemma AbortDecidesStop(s: Engine, base: seq<WriteRecord>, stop: RequestId, code: Code)
    requires StopWaits(base, stop, s) && stop !in s.outcomes && s.stopPending.value.origin.Stop?
    requires code.StopAbortedByDesync? || code.StopAbortedBySessionEnd?
    ensures StopDecided(base, stop, AbortStop(s, code))
  {
    hide Settle;
    SettleShape(s.(stopPending := None), stop, s.stopPending.value.origin, Rejected(code));
  }

  lemma AfterAbortGrew(env: Env, s: Engine)
    ensures Grew(AbortStop(FaultLease(s), StopAbortedByDesync), DesyncLatch(env, s))
  {
    hide Grew, FaultLease, AbortStop, SettleAll;
    var a := AbortStop(FaultLease(s), StopAbortedByDesync);
    var b := a.(queue := []);
    GrewSame(a, b);
    SettleAllGrew(b, a.queue, Rejected(Recovering));
    var c := SettleAll(b, a.queue, Rejected(Recovering));
    GrewTransitive(a, b, c);
    GrewSame(c, DesyncLatch(env, s));
    GrewTransitive(a, c, DesyncLatch(env, s));
  }

  lemma SessionEndDecidesStop(b: Engine, code: Code, base: seq<WriteRecord>, stop: RequestId)
    requires Ending(b) && (code.SessionClosed? || code.DeviceDetached?) && StopWaits(base, stop, b)
    ensures StopDecided(base, stop, RejectAll(b, code))
  {
    hide PlacesOk, LogOk, MidStop, JobsOk, Grew, SettleAll, Settle, StopDecided, RejectActive, AbortStop;
    var c := RejectActive(b, code);
    RejectActiveGrew(b, code);
    ActiveIsRejected(b, code);
    WaitingIsUnsettled(base, stop, c);
    AbortDecidesStop(c, base, stop, StopAbortedBySessionEnd);
    var a := AbortStop(c, StopAbortedBySessionEnd);
    var d := a.(queue := []);
    GrewSame(a, d);
    SettleAllGrew(d, a.queue, Rejected(code));
    GrewTransitive(a, d, RejectAll(b, code));
    DecidedStays(base, stop, a, RejectAll(b, code));
  }

  /** While a stop waits, exactly one write is running, and nothing else is owed. */
  lemma WaitingStop(s: Engine, base: seq<WriteRecord>, stop: RequestId)
    requires Mid(s, None) && Quiet(s) && StopWaits(base, stop, s)
    ensures s.state.Ready? && s.active.Some? && s.active.value.phase.Writing? && s.active.value.displacedByEmergencyStop
    ensures s.timers == {} && s.epoch !in s.restarting && s.stopRegistered.Some? && !s.active.value.origin.Probe?
    ensures s.active.value.id !in s.outcomes
  {
    hide PlacesOk, LogOk, LeaseOk, JobsOk;
    SettledIsNotActive(s);
  }

  /** Freeing the slot hands it to the stop, or to the desync latch that rejects it. */
  lemma FreedSlotKeepsStop(env: Env, s: Engine, s0: Engine, o: Outcome, base: seq<WriteRecord>, stop: RequestId)
    requires Mid(s, None) && Quiet(s) && StopWaits(base, stop, s) && s.active.Some? && !s.active.value.origin.Probe?
    requires s0 == s.(writing := s0.writing, timers := s.timers - {s.active.value.id})
    requires s0.writing <= s.writing && !NeverWritten(o)
    ensures var t := Settle(s0, s.active.value.id, s.active.value.origin, o).(active := None);
            StopFirst(base, stop, Pump(env, t)) && StopFirst(base, stop, DesyncLatch(env, t))
  {
    hide PlacesOk, LogOk, CallbacksOk, LeaseOk, ProbeOk, MidStop, JobsOk, Settle, Pump, DesyncLatch, StopDecided,
      NeverWritten;
    FinishFromCalm(s, s0, o);
    var t := Settle(s0, s.active.value.id, s.active.value.origin, o).(active := None);
    PumpKeepsStop(env, t, base, stop);
    DesyncDecidesStop(env, t, base, stop);
  }

  lemma WriteOkKeepsStop(env: Env, s: Engine, id: RequestId, base: seq<WriteRecord>, stop: RequestId)
    requires Mid(s, None) && Quiet(s) && StopWaits(base, stop, s) && id in s.writing
    ensures StopFirst(base, stop, DoWriteOk(env, s, id))
  {
    hide Mid, Quiet, Settle, Pump, StopDecided, NeverWritten;
    WaitingStop(s, base, stop);
    if s.active.value.id == id {
      SureCodes();
      assert s.timers - {id} == s.timers;
      FreedSlotKeepsStop(env, s, s.(writing := s.writing - {id}), Rejected(DisplacedInFlight), base, stop);
    }
  }

  lemma WriteFailedKeepsStop(env: Env, s: Engine, id: RequestId, f: WriteFailure, base: seq<WriteRecord>,
                             stop: RequestId)
    requires Mid(s, None) && Quiet(s) && StopWaits(base, stop, s) && id in s.writing
    ensures StopFirst(base, stop, DoWriteFailed(env, s, id, f))
  {
    hide Mid, Quiet, Settle, Pump, DesyncLatch, StopDecided, NeverWritten;
    WaitingStop(s, base, stop);
    if s.active.value.id == id {
      SureCodes();
      assert s.timers - {id} == s.timers;
      FreedSlotKeepsStop(env, s, s.(writing := s.writing - {id}), Rejected(ClassifyWriteFailure(f)), base, stop);
    }
  }

  lemma FrameKeepsStop(env: Env, s: Engine, f: MspFrame, base: seq<WriteRecord>, stop: RequestId)
    requires Mid(s, None) && Quiet(s) && StopWaits(base, stop, s)
    ensures StopFirst(base, stop, DoFrame(env, s, f))
  {
    hide Mid, Quiet, Settle, Pump, DesyncLatch, StopDecided;
    WaitingStop(s, base, stop);
    if Matches(s, f) {
      var a := s.active.value;
      var o := if f.direction.Error? && !a.origin.Probe? then Rejected(RemoteError) else Resolved(f);
      FreedSlotKeepsStop(env, s, s.(timers := s.timers - {a.id}), o, base, stop);
    }
  }

  lemma {:induction false} FramesKeepStop(env: Env, s: Engine, fs: seq<MspFrame>, base: seq<WriteRecord>,
                                          stop: RequestId)
    requires Mid(s, None) && Quiet(s) && StopFirst(base, stop, s)
    ensures StopFirst(base, stop, DoFrames(env, s, fs))
    decreases |fs|
  {
    hide Mid, Quiet, DoFrame, StopDecided, StopWaits, Grew;
    if StopDecided(base, stop, s) {
      FramesGrew(env, s, fs);
      DecidedStays(base, stop, s, DoFrames(env, s, fs));
    } else if fs != [] {
      FrameKeepsStop(env, s, fs[0], base, stop);
      FrameIsCalm(env, s, fs[0]);
      FramesKeepStop(env, DoFrame(env, s, fs[0]), fs[1..], base, stop);
    }
  }

  lemma EndKeepsStop(s: Engine, base: seq<WriteRecord>, stop: RequestId)
    requires Mid(s, None) && Quiet(s) && StopWaits(base, stop, s)
    ensures StopDecided(base, stop, DoDetach(s))
    ensures !s.disposed ==> StopDecided(base, stop, DoDispose(s))
  {
    hide Mid, Quiet, RejectAll, StopDecided, Ending;
    WaitingStop(s, base, stop);
    var b := InvalidateLease(s).(disconnectCause := Some(DeviceDetached), state := Disconnected);
    SessionEnds(s, b);
    SessionEndDecidesStop(b, DeviceDetached, base, stop);
    if !s.disposed {
      var c := InvalidateLease(s.(disposed := true)).(state := Closing);
      SessionEnds(s, c);
      SessionEndDecidesStop(c, SessionClosed, base, stop);
      var r := RejectAll(c, SessionClosed);
      GrewSame(r, DoDispose(s));
      DecidedStays(base, stop, r, DoDispose(s));
    }
  }

  lemma AdmissionKeepsStop(env: Env, s: Engine, spec: RequestSpec, origin: Origin, code: Code, base: seq<WriteRecord>,
                           stop: RequestId)
    requires Mid(s, None) && Quiet(s) && StopWaits(base, stop, s) && (origin.Ordinary? || origin.Leased?)
    ensures StopWaits(base, stop, Refuse(s, origin, code)) && StopWaits(base, stop, Enqueue(env, s, spec, origin))
  {
    hide Mid, Quiet;
    WaitingStop(s, base, stop);
  }

  /** Any event, started where a stop is waiting. */
  lemma WaitingActKeepsStop(env: Env, s: Engine, e: Event, base: seq<WriteRecord>, stop: RequestId)
    requires Mid(s, None) && Quiet(s) && Possible(s, e) && StopWaits(base, stop, s)
    ensures StopFirst(base, stop, Act(env, s, e))
  {
    hide Mid, Quiet, DoWriteOk, DoWriteFailed, DoFrames, DoDetach, Refuse, Enqueue, StopDecided, RejectAll, SendProbe;
    WaitingStop(s, base, stop);
    match e {
      case Request(spec) => AdmissionKeepsStop(env, s, spec, Ordinary, LeaseHeld, base, stop);
      case LeaseRequest(token, spec) =>
        AdmissionKeepsStop(env, s, spec, Ordinary, CapabilityInvalid, base, stop);
        AdmissionKeepsStop(env, s, spec, Leased(token), CapabilityInvalid, base, stop);
      case EmergencyStop(token, spec) => AdmissionKeepsStop(env, s, spec, Ordinary, CapabilityInvalid, base, stop);
      case WriteOk(id) => WriteOkKeepsStop(env, s, id, base, stop);
      case WriteFailed(id, f) => WriteFailedKeepsStop(env, s, id, f, base, stop);
      case Frames(fs) => FramesKeepStop(env, s, fs, base, stop);
      case Detach => EndKeepsStop(s, base, stop);
      case Dispose => EndKeepsStop(s, base, stop);
      case _ =>
    }
  }

  lemma StepKeepsStop(env: Env, s: Engine, e: Event, base: seq<WriteRecord>, stop: RequestId)
    requires Inv(s) && StopFirst(base, stop, s)
    ensures StopFirst(base, stop, Step(env, s, e))
  {
    hide Inv, Mid, Quiet, Act, Drain, Grew, StopDecided;
    var t := Act(env, s, e);
    if StopDecided(base, stop, s) {
      StepGrew(env, s, e);
      DecidedStays(base, stop, s, Step(env, s, e));
    } else if Possible(s, e) {
      InvIsMid(s);
      WaitingActKeepsStop(env, s, e, base, stop);
      assert Mid(t, None) && Quiet(t) by { ActIsCalm(env, s, e); }
      DrainShape(t);
      if StopDecided(base, stop, t) {
        DecidedStays(base, stop, t, Drain(t));
      }
    }
  }

  lemma {:induction false} RunKeepsStop(env: Env, s: Engine, events: seq<Event>, base: seq<WriteRecord>,
                                        stop: RequestId)
    requires Inv(s) && StopFirst(base, stop, s)
    ensures StopFirst(base, stop, Run(env, s, events))
    decreases |events|
  {
    hide Inv, Step, StopFirst;
    if events != [] {
      RunKeepsStop(env, s, events[..|events| - 1], base, stop);
      RunKeepsInv(env, s, events[..|events| - 1]);
      StepKeepsStop(env, Run(env, s, events[..|events| - 1]), events[|events| - 1], base, stop);
    }
  }

  /** An accepted stop is registered, pumped and drained in its own call. */
  lemma AcceptedStopIsFirst(env: Env, s: Engine, token: Token, spec: RequestSpec)
    requires Inv(s) && StopAccepted(s, token)
    ensures StopFirst(s.writes, s.nextId, Step(env, s, EmergencyStop(token, spec)))
    ensures Tracked(s.nextId, Step(env, s, EmergencyStop(token, spec)))
  {
    hide Mid, Quiet, Pump, Drain, RegisterStop, StopDecided, Grew;
    InvIsMid(s);
    var r := RegisterStop(s, token, spec);
    RegisteredCanPump(s, token, spec);
    PumpKeepsStop(env, r, s.writes, s.nextId);
    var t := Act(env, s, EmergencyStop(token, spec));
    assert t == Pump(env, r);
    assert Mid(t, None) && Quiet(t) by { ActIsCalm(env, s, EmergencyStop(token, spec)); }
    DrainShape(t);
    if StopDecided(s.writes, s.nextId, t) {
      DecidedStays(s.writes, s.nextId, t, Drain(t));
    }
    assert Tracked(s.nextId, r) by { RegisteredIsTracked(s, token, spec); }
    PumpGrew(env, r);
    TrackedStays(s.nextId, r, t);
    TrackedStays(s.nextId, t, Drain(t));
  }

  /** Everything still queued is rejected by name and never reaches the transport. */
  lemma AcceptedStopPurges(env: Env, s: Engine, token: Token, spec: RequestSpec, i: nat)
    requires Inv(s) && StopAccepted(s, token) && i < |s.queue|
    ensures
      var t := Step(env, s, EmergencyStop(token, spec));
      var id := s.queue[i].id;
      id in t.outcomes && t.outcomes[id] == Rejected(DisplacedQueued) && TimesWritten(t.writes, id) == 0
  {
    hide Mid, Quiet, Pump, Drain, Grew, TimesWritten, Settle, SettleAll, Places, PlacesOk, LogOk, StopOk, CallbacksOk;
    InvIsMid(s);
    var id := s.queue[i].id;
    PurgedQueue(s);
    CountedIsMember(s.queue, i);
    var p := SettleAll(s.(queue := []), s.queue, Rejected(DisplacedQueued));
    DisplaceGrew(p);
    RegisterStopKeepsOutcomes(s, token, spec);
    var r := RegisterStop(s, token, spec);
    assert id in p.outcomes && p.outcomes[id] == Rejected(DisplacedQueued);
    assert id in r.outcomes && r.outcomes[id] == p.outcomes[id] by { GrewOutcome(p, DisplaceActive(p), id); }
    PumpGrew(env, r);
    var a := Act(env, s, EmergencyStop(token, spec));
    GrewOutcome(r, a, id);
    assert Mid(a, None) && Quiet(a) by { ActIsCalm(env, s, EmergencyStop(token, spec)); }
    DrainShape(a);
    GrewOutcome(a, Drain(a), id);
    StepKeepsInv(env, s, EmergencyStop(token, spec));
    UnwrittenOutcome(Drain(a), id);
  }

  lemma PurgedQueue(s: Engine)
    requires Mid(s, None)
    ensures SettledMore(s.(queue := []), SettleAll(s.(queue := []), s.queue, Rejected(DisplacedQueued)), s.queue,
                        Rejected(DisplacedQueued))
  {
    hide LogOk, CallbacksOk, LeaseOk, MidStop, JobsOk, SettleAll, Count;
    var q := s.(queue := []);
    forall id: RequestId ensures IsSettled(q, id) + Count(s.queue, id) <= 1 {
      assert Places(s, id) + InSlot(None, id) <= 1;
    }
    SettleAllFacts(q, s.queue, Rejected(DisplacedQueued));
  }

  lemma RegisterStopKeepsOutcomes(s: Engine, token: Token, spec: RequestSpec)
    ensures RegisterStop(s, token, spec).outcomes
            == DisplaceActive(SettleAll(s.(queue := []), s.queue, Rejected(DisplacedQueued))).outcomes
  {
    hide SettleAll, DisplaceActive;
  }

  lemma GrewOutcome(s: Engine, t: Engine, id: RequestId)
    requires Grew(s, t) && id in s.outcomes
    ensures id in t.outcomes && t.outcomes[id] == s.outcomes[id]
  {
  }

  /** Until it is settled, the stop is the one registered. */
  ghost predicate Tracked(stop: RequestId, s: Engine) {
    stop in s.outcomes || s.stopRegistered == Some(stop)
  }

  lemma RegisteredIsTracked(s: Engine, token: Token, spec: RequestSpec)
    ensures Tracked(s.nextId, RegisterStop(s, token, spec))
  {
    hide SettleAll, DisplaceActive;
  }

  lemma TrackedStays(stop: RequestId, s: Engine, t: Engine)
    requires Tracked(stop, s) && Grew(s, t)
    ensures Tracked(stop, t)
  {
  }

  /**
   * STOP PRIORITY. After an accepted stop, over any run whatever: the client has written nothing, or
   * its first write was that stop, or the stop is rejected and never was written.
   */
  lemma StopComesFirst(env: Env, before: seq<Event>, token: Token, spec: RequestSpec, after: seq<Event>)
    requires StopAccepted(Run(env, INITIAL, before), token)
    ensures
      var s := Run(env, INITIAL, before);
      var u := Run(env, Step(env, s, EmergencyStop(token, spec)), after);
      var stop := s.nextId;
      && s.writes <= u.writes
      && (|u.writes| > |s.writes| && u.writes[|s.writes|].id != stop ==>
            stop in u.outcomes && u.outcomes[stop].Rejected? && TimesWritten(u.writes, stop) == 0)
      && (u.writes == s.writes && stop !in u.outcomes ==> u.stopPending.Some? && u.stopPending.value.id == stop)
  {
    hide Step, Inv, TimesWritten, NeverWritten;
    var s := Run(env, INITIAL, before);
    ReachableInv(env, before);
    AcceptedStopIsFirst(env, s, token, spec);
    var t := Step(env, s, EmergencyStop(token, spec));
    StepKeepsInv(env, s, EmergencyStop(token, spec));
    StepGrew(env, s, EmergencyStop(token, spec));
    RunKeepsStop(env, t, after, s.writes, s.nextId);
    RunGrew(env, t, after);
    var u := Run(env, t, after);
    GrewTransitive(s, t, u);
    if s.nextId in u.outcomes && NeverWritten(u.outcomes[s.nextId]) {
      UnwrittenOutcome(u, s.nextId);
    }
  }

  lemma UnwrittenOutcome(s: Engine, id: RequestId)
    requires Inv(s) && id in s.outcomes && NeverWritten(s.outcomes[id])
    ensures TimesWritten(s.writes, id) == 0 && s.outcomes[id].Rejected?
  {
    hide TimesWritten;
  }

  /** Until the first stop settles, a further trigger joins it: no second write, no second purge, no change at all. */
  lemma RepeatedStopsJoin(env: Env, before: seq<Event>, token: Token, spec: RequestSpec, after: seq<Event>,
                          spec2: RequestSpec)
    requires StopAccepted(Run(env, INITIAL, before), token)
    ensures
      var s := Run(env, INITIAL, before);
      var u := Run(env, Step(env, s, EmergencyStop(token, spec)), after);
      s.nextId !in u.outcomes && u.token == Some(token) ==> Step(env, u, EmergencyStop(token, spec2)) == u
  {
    hide Step, Inv, Grew;
    var s := Run(env, INITIAL, before);
    ReachableInv(env, before);
    AcceptedStopIsFirst(env, s, token, spec);
    var t := Step(env, s, EmergencyStop(token, spec));
    StepKeepsInv(env, s, EmergencyStop(token, spec));
    RunGrew(env, t, after);
    var u := Run(env, t, after);
    TrackedStays(s.nextId, t, u);
    if s.nextId !in u.outcomes && u.token == Some(token) {
      JoinChangesNothing(env, u, token, spec2);
    }
  }

  lemma JoinChangesNothing(env: Env, u: Engine, token: Token, spec: RequestSpec)
    requires Inv(u) && u.token == Some(token) && u.stopRegistered.Some?
    ensures Step(env, u, EmergencyStop(token, spec)) == u
  {
  }
}
