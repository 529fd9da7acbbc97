/** What becomes of the writes a transport throws on. */
module MspClientThrows {
  import opened MspTypes
  import opened MspClientModel
  import opened MspClientInvariants
  import opened MspClientRuns
  import opened MspClientHistory
  import opened MspClientDesync

  /** Every write the transport threw on is settled: its outcome is unknown, or it was the probe and has failed. */
  ghost predicate ThrownFail(env: Env, s: Engine) {
    forall i :: 0 <= i < |s.writes| && env.writeThrows(s.writes[i].id) ==>
      && s.writes[i].id in s.outcomes
      && s.outcomes[s.writes[i].id] == Rejected(if s.writes[i].origin.Probe? then ProbeFailed else WriteOutcomeUnknown)
  }

  lemma GrownFail(env: Env, s: Engine, t: Engine)
    requires ThrownFail(env, s) && Grew(s, t) && t.writes == s.writes
    ensures ThrownFail(env, t)
  {
    hide NewWritesEncoded;
  }

  lemma HandIsOpen(s: Engine, r: PendingRequest)
    requires PlacesOk(s, Some(r))
    ensures r.id !in s.outcomes
  {
    hide Count;
    assert Places(s, r.id) + InSlot(Some(r), r.id) == if r.id < s.nextId then 1 else 0;
  }

  lemma {:induction false} PumpFails(env: Env, s: Engine)
    requires CanPump(s) && ThrownFail(env, s)
    ensures ThrownFail(env, Pump(env, s))
    decreases Backlog(s), 0
  {
    hide Mid, StartRequest;
    if s.state == Ready && s.active.None? {
      if s.stopPending.Some? {
        StopIsTaken(s);
        StartFails(env, s.(stopPending := None), s.stopPending.value);
      } else if s.queue != [] {
        HeadIsTaken(s);
        StartFails(env, s.(queue := s.queue[1..]), s.queue[0]);
      }
    }
  }

  lemma {:induction false} StartFails(env: Env, s: Engine, r: PendingRequest)
    requires CanStart(s, r) && ThrownFail(env, s)
    requires r.origin.Probe? ==> r.spec.Encodable() && s.queue == []
    ensures ThrownFail(env, StartRequest(env, s, r))
    decreases Backlog(s), 1
  {
    hide Activated, Settle, DesyncLatch, Pump, PlacesOk, LogOk, CallbacksOk, LeaseOk, ProbeOk, MidStop, JobsOk, Grew,
      ThrownFail;
    HandIsOpen(s, r);
    if !r.spec.Encodable() {
      DroppedIsMid(s, r, Rejected(EncodeFailed));
      SettleGrew(s, r.id, r.origin, Rejected(EncodeFailed));
      SettleKeepsLog(s, r.id, r.origin, Rejected(EncodeFailed));
      GrownFail(env, s, Settle(s, r.id, r.origin, Rejected(EncodeFailed)));
      PumpFails(env, Settle(s, r.id, r.origin, Rejected(EncodeFailed)));
    } else if !env.writeThrows(r.id) {
      TakenFails(env, s, r);
    } else {
      ThrownIsSettled(env, s, r);
    }
  }

  lemma TakenFails(env: Env, s: Engine, r: PendingRequest)
    requires r.spec.Encodable() && !env.writeThrows(r.id) && ThrownFail(env, s)
    ensures var t := Activated(s, r); ThrownFail(env, t.(writing := t.writing + {r.id}))
  {
  }

  lemma ThrownIsSettled(env: Env, s: Engine, r: PendingRequest)
    requires r.spec.Encodable() && ThrownFail(env, s) && r.id !in s.outcomes
    ensures
      var u := Settle(Activated(s, r), r.id, r.origin,
                      Rejected(if r.origin.Probe? then ProbeFailed else WriteOutcomeUnknown)).(active := None);
      ThrownFail(env, u) && ThrownFail(env, DesyncLatch(env, u))
  {
    hide DesyncLatch, Settle, Grew, ThrownFail, RequestSpec.Encodable, RequestSpec.Bytes;
    var o := Rejected(if r.origin.Probe? then ProbeFailed else WriteOutcomeUnknown);
    var a := Activated(s, r);
    var u := Settle(a, r.id, r.origin, o).(active := None);
    SettledOutcome(a, r.id, r.origin, o);
    LastWriteFails(env, s, r, u);
    DesyncGrew(env, u);
    LatchRaises(env, u);
    GrownFail(env, u, DesyncLatch(env, u));
  }

  lemma SettledOutcome(s: Engine, id: RequestId, origin: Origin, o: Outcome)
    requires id !in s.outcomes
    ensures var u := Settle(s, id, origin, o).(active := None);
            u.outcomes == s.outcomes[id := o] && u.writes == s.writes
  {
  }

  lemma LastWriteFails(env: Env, s: Engine, r: PendingRequest, u: Engine)
    requires r.spec.Encodable() && ThrownFail(env, s) && r.id !in s.outcomes
    requires u.writes == Activated(s, r).writes
    requires u.outcomes == s.outcomes[r.id := Rejected(if r.origin.Probe? then ProbeFailed else WriteOutcomeUnknown)]
    ensures ThrownFail(env, u)
  {
    hide RequestSpec.Encodable, RequestSpec.Bytes;
  }

  // ---------------------------------------------------------------- events

  lemma AdmissionFails(env: Env, s: Engine, spec: RequestSpec, origin: Origin)
    requires Mid(s, None) && Quiet(s) && ThrownFail(env, s) && (origin.Ordinary? || origin.Leased?)
    requires s.token.Some? ==> OwnedBy(origin, s.token.value)
    ensures ThrownFail(env, Enqueue(env, s, spec, origin))
  {
    hide Mid, Quiet, Pump, Settle, ThrownFail, OwnedBy;
    RefusalsFailNot(env, s, origin);
    if CheckAcceptance(s).None? {
      var t := s.(nextId := s.nextId + 1, queue := s.queue + [PendingRequest(s.nextId, spec, origin)]);
      QueuedCanPump(s, spec, origin);
      assert ThrownFail(env, t) by { Elsewhere(env, s, t); }
      PumpFails(env, t);
    }
  }

  lemma Elsewhere(env: Env, s: Engine, t: Engine)
    requires ThrownFail(env, s) && t.writes == s.writes && t.outcomes == s.outcomes
    ensures ThrownFail(env, t)
  {
  }

  lemma RefusalsFailNot(env: Env, s: Engine, origin: Origin)
    requires ThrownFail(env, s)
    ensures forall code: Code :: ThrownFail(env, Refuse(s, origin, code))
  {
    hide Settle;
    forall code: Code ensures ThrownFail(env, Refuse(s, origin, code)) {
      var t := s.(nextId := s.nextId + 1);
      SettleGrew(t, s.nextId, origin, Rejected(code));
      SettleKeepsLog(t, s.nextId, origin, Rejected(code));
      GrownFail(env, t, Refuse(s, origin, code));
    }
  }

  lemma StopFails(env: Env, s: Engine, token: Token, spec: RequestSpec)
    requires Mid(s, None) && Quiet(s) && ThrownFail(env, s)
    ensures ThrownFail(env, DoEmergencyStop(env, s, token, spec))
  {
    hide Mid, Quiet, Pump, RegisterStop, Refuse, ThrownFail, Grew;
    RefusalsFailNot(env, s, Ordinary);
    if StopAccepted(s, token) {
      RegisteredCanPump(s, token, spec);
      RegisterStopGrew(s, token, spec);
      GrownFail(env, s, RegisterStop(s, token, spec));
      PumpFails(env, RegisterStop(s, token, spec));
    }
  }

  /** The active request is settled, and nothing, the pump or the latch follows. */
  lemma FinishedFails(env: Env, s: Engine, s0: Engine, o: Outcome)
    requires Mid(s, None) && Quiet(s) && s.active.Some? && ThrownFail(env, s) && !NeverWritten(o)
    requires s0 == s.(writing := s0.writing, timers := s.timers - {s.active.value.id}) && s0.writing <= s.writing
    ensures
      var a := s.active.value;
      var t := Settle(s0, a.id, a.origin, o).(active := None);
      ThrownFail(env, t) && ThrownFail(env, Pump(env, t)) && ThrownFail(env, DesyncLatch(env, t))
  {
    hide Mid, Quiet, Settle, Pump, DesyncLatch, NeverWritten, ThrownFail, Grew;
    var a := s.active.value;
    var u := Settle(s0, a.id, a.origin, o);
    var t := u.(active := None);
    Elsewhere(env, s, s0);
    SettleGrew(s0, a.id, a.origin, o);
    SettleKeepsLog(s0, a.id, a.origin, o);
    GrownFail(env, s0, u);
    Elsewhere(env, u, t);
    FinishFromCalm(s, s0, o);
    PumpFails(env, t);
    DesyncGrew(env, t);
    LatchRaises(env, t);
    GrownFail(env, t, DesyncLatch(env, t));
  }

  lemma CallbackFails(env: Env, s: Engine, id: RequestId, f: WriteFailure)
    requires Mid(s, None) && Quiet(s) && ThrownFail(env, s)
    ensures id in s.writing ==> ThrownFail(env, DoWriteOk(env, s, id)) && ThrownFail(env, DoWriteFailed(env, s, id, f))
    ensures ThrownFail(env, DoTimeout(env, s, id))
  {
    hide PlacesOk, LogOk, LeaseOk, ProbeOk, MidStop, JobsOk, Quiet, Settle, Pump, DesyncLatch, ThrownFail, NeverWritten;
    var w := s.(writing := s.writing - {id});
    var t := s.(timers := s.timers - {id});
    Elsewhere(env, s, w);
    Elsewhere(env, s, t);
    SureCodes();
    if s.active.Some? && s.active.value.id == id {
      Elsewhere(env, s, w.(active := Some(s.active.value.(phase := AwaitingResponse)), timers := w.timers + {id}));
      FinishedFails(env, s, t, Rejected(ProbeFailed));
      FinishedFails(env, s, t, Rejected(Timeout));
      if id in s.writing {
        assert w.timers == s.timers - {id};
        FinishedFails(env, s, w, Rejected(DisplacedInFlight));
        FinishedFails(env, s, w, Rejected(ProbeFailed));
        FailureIsNoRefusal(f);
        FinishedFails(env, s, w, Rejected(ClassifyWriteFailure(f)));
      }
    }
  }

  lemma FailureIsNoRefusal(f: WriteFailure)
    ensures !NeverWritten(Rejected(ClassifyWriteFailure(f)))
  {
  }

  lemma AnswerIsNoRefusal(f: MspFrame)
    ensures !NeverWritten(Resolved(f)) && !NeverWritten(Rejected(RemoteError))
  {
  }

  lemma {:induction false} FramesFail(env: Env, s: Engine, fs: seq<MspFrame>)
    requires Mid(s, None) && Quiet(s) && ThrownFail(env, s)
    ensures ThrownFail(env, DoFrames(env, s, fs))
    decreases |fs|
  {
    hide Mid, Quiet, Settle, Pump, ThrownFail, NeverWritten;
    if fs != [] {
      if Matches(s, fs[0]) {
        var s0 := s.(timers := s.timers - {s.active.value.id});
        AnswerIsNoRefusal(fs[0]);
        FinishedFails(env, s, s0, Rejected(RemoteError));
        FinishedFails(env, s, s0, Resolved(fs[0]));
      }
      FrameIsCalm(env, s, fs[0]);
      FramesFail(env, DoFrame(env, s, fs[0]), fs[1..]);
    }
  }

  lemma RestartFails(env: Env, s: Engine, epoch: nat)
    requires Mid(s, None) && Quiet(s) && ThrownFail(env, s) && epoch in s.restarting
    ensures ThrownFail(env, DoRestartOk(env, s, epoch)) && ThrownFail(env, DoRestartFailed(s, epoch))
  {
    hide StartRequest, ThrownFail, PlacesOk, LogOk, LeaseOk, MidStop, JobsOk;
    var s0 := s.(restarting := s.restarting - {epoch});
    Elsewhere(env, s, s0);
    Elsewhere(env, s, s0.(state := RecoveryFailed));
    if IsCurrentRecovery(s, epoch) {
      assert s.active.None? && s.state.RestartingReader?;
      ProbeIsEncodable();
      var r := PendingRequest(s.nextId, PROBE_SPEC, Probe(s.epoch));
      var t := s0.(state := Probing, nextId := s.nextId + 1);
      Elsewhere(env, s, t);
      ProbeCanStart(s, t, r);
      StartFails(env, t, r);
    }
  }

  lemma EndFails(env: Env, s: Engine, token: Token)
    requires Mid(s, None) && Quiet(s) && ThrownFail(env, s)
    ensures ThrownFail(env, DoDetach(s)) && ThrownFail(env, DoDispose(s)) && ThrownFail(env, DoAcquire(s))
    ensures ThrownFail(env, DoRelease(s, token)) && ThrownFail(env, DoFaultByToken(s, token))
  {
    hide Mid, Quiet, DoDetach, DoDispose, Grew, ThrownFail, FaultLease;
    DetachIsCalm(s);
    DisposeIsCalm(s);
    EndGrew(s);
    GrownFail(env, s, DoDetach(s));
    GrownFail(env, s, DoDispose(s));
    FaultLeaseChanges(s);
    Elsewhere(env, s, DoAcquire(s));
    Elsewhere(env, s, DoRelease(s, token));
    Elsewhere(env, s, DoFaultByToken(s, token));
  }

  lemma ActFails(env: Env, s: Engine, e: Event)
    requires Inv(s) && Possible(s, e) && ThrownFail(env, s)
    ensures ThrownFail(env, Act(env, s, e))
  {
    hide Inv, Mid, Quiet, ThrownFail, DoWriteOk, DoWriteFailed, DoTimeout, DoFrames, DoEmergencyStop, DoRestartOk,
      DoRestartFailed, DoDetach, DoDispose, DoAcquire, DoRelease, DoFaultByToken, Enqueue, Refuse;
    InvIsMid(s);
    RefusalsFailNot(env, s, Ordinary);
    match e {
      case Request(spec) => if s.token.None? { AdmissionFails(env, s, spec, Ordinary); }
      case LeaseRequest(token, spec) => if s.token == Some(token) { AdmissionFails(env, s, spec, Leased(token)); }
      case EmergencyStop(token, spec) => StopFails(env, s, token, spec);
      case WriteOk(id) => CallbackFails(env, s, id, OtherFailure);
      case WriteFailed(id, f) => CallbackFails(env, s, id, f);
      case TimerFired(id) => CallbackFails(env, s, id, OtherFailure);
      case Frames(fs) => FramesFail(env, s, fs);
      case RestartOk(epoch) => RestartFails(env, s, epoch);
      case RestartFailed(epoch) => RestartFails(env, s, epoch);
      case Detach => EndFails(env, s, 0);
      case Dispose => EndFails(env, s, 0);
      case Acquire => EndFails(env, s, 0);
      case ReleaseLease(token) => EndFails(env, s, token);
      case FaultByToken(token) => EndFails(env, s, token);
    }
  }

  lemma StepFails(env: Env, s: Engine, e: Event)
    requires Inv(s) && ThrownFail(env, s)
    ensures ThrownFail(env, Step(env, s, e))
  {
    hide Inv, Mid, Quiet, Act, Drain, Grew, ThrownFail;
    if Possible(s, e) {
      InvIsMid(s);
      var u := Act(env, s, e);
      ActFails(env, s, e);
      assert Mid(u, None) && Quiet(u) by { ActIsCalm(env, s, e); }
      DrainShape(u);
      GrownFail(env, u, Drain(u));
    }
  }

  /** A WRITE THAT THROWS IS NEVER TAKEN FOR SENT OR UNSENT: over every run its outcome is unknown. */
  lemma {:induction false} ThrownWritesAreUnknown(env: Env, events: seq<Event>)
    ensures ThrownFail(env, Run(env, INITIAL, events))
    decreases |events|
  {
    hide ThrownFail, Step;
    if events == [] {
      NothingThrown(env);
    } else {
      var before := events[..|events| - 1];
      ThrownWritesAreUnknown(env, before);
      ReachableInv(env, before);
      StepFails(env, Run(env, INITIAL, before), events[|events| - 1]);
    }
  }

  lemma NothingThrown(env: Env)
    ensures ThrownFail(env, INITIAL)
  {
  }

  /**
   * A THROWN WRITE DESYNCHRONIZES: in whatever event the transport throws on a request, that request's outcome is
   * unknown, the epoch is the next one, recovery has begun, nothing is left open, and no lease is held.
   */
  lemma ThrownWriteDesynchronizes(env: Env, s: Engine, e: Event, i: nat)
    requires Inv(s) && ThrownFail(env, s) && Possible(s, e) && |s.writes| <= i < |Step(env, s, e).writes|
    requires env.writeThrows(Step(env, s, e).writes[i].id) && !Step(env, s, e).writes[i].origin.Probe?
    ensures
      var t := Step(env, s, e);
      && t.writes[i].id in t.outcomes && t.outcomes[t.writes[i].id] == Rejected(WriteOutcomeUnknown)
      && t.epoch == s.epoch + 1 && (t.state.RestartingReader? || t.state.RecoveryFailed?)
      && t.queue == [] && t.active.None? && t.stopPending.None? && t.token.None? && t.timers == {}
  {
    hide Step, Inv;
    StepFails(env, s, e);
    EpochRisesExactlyWhen(env, s, e);
    RisenLeavesNothingOpen(env, s, e);
  }
}
