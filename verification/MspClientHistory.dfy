/** What one event and a whole run can never undo. */
module MspClientHistory {
  import opened MspTypes
  import opened MspClientModel
  import opened MspClientInvariants
  import opened MspClientRuns

  /** What goes to the transport is the encoding of some request the encoder accepts. */
  ghost predicate IsEncodedRequest(w: WriteRecord) {
    exists spec: RequestSpec :: spec.Encodable() && w.bytes == spec.Bytes()
  }

  ghost predicate NewWritesEncoded(s: Engine, t: Engine) {
    forall i :: |s.writes| <= i < |t.writes| ==> IsEncodedRequest(t.writes[i])
  }

  /** Outcomes are final, ids, writes and latches only accumulate, and what is let go stays gone. */
  ghost predicate Grew(s: Engine, t: Engine) {
    && (forall id :: id in s.outcomes ==> id in t.outcomes && t.outcomes[id] == s.outcomes[id])
    && s.writes <= t.writes && NewWritesEncoded(s, t)
    && s.nextId <= t.nextId && s.nextToken <= t.nextToken && s.epoch <= t.epoch
    && s.retired <= t.retired && s.invalidated <= t.invalidated && s.faultEpochs <= t.faultEpochs
    && (s.token.Some? ==> t.token == s.token || s.token.value in t.retired + t.invalidated)
    && (s.stopRegistered.Some? ==> t.stopRegistered == s.stopRegistered || s.stopRegistered.value in t.outcomes)
  }

  lemma GrewTransitive(s: Engine, t: Engine, u: Engine)
    requires Grew(s, t) && Grew(t, u)
    ensures Grew(s, u)
  {
    assert |s.writes| <= |t.writes| <= |u.writes| && u.writes[..|t.writes|] == t.writes;
    assert u.writes[..|s.writes|] == t.writes[..|s.writes|];
  }

  // ---------------------------------------------------------------- the parts of an event

  lemma SettleGrew(s: Engine, id: RequestId, origin: Origin, o: Outcome)
    ensures Grew(s, Settle(s, id, origin, o))
  {
  }

  lemma {:induction false} SettleAllGrew(s: Engine, rs: seq<PendingRequest>, o: Outcome)
    ensures Grew(s, SettleAll(s, rs, o))
    decreases |rs|
  {
    hide Settle, Grew;
    if rs != [] {
      SettleGrew(s, rs[0].id, rs[0].origin, o);
      var t := Settle(s, rs[0].id, rs[0].origin, o);
      SettleAllGrew(t, rs[1..], o);
      GrewTransitive(s, t, SettleAll(t, rs[1..], o));
    } else {
      GrewSame(s, s);
    }
  }

  /** Fields that carry no history. */
  lemma GrewSame(s: Engine, t: Engine)
    requires t == s.(state := t.state, queue := t.queue, active := t.active, stopPending := t.stopPending,
                     stopAmbiguous := t.stopAmbiguous, stopDeferred := t.stopDeferred,
                     disconnectCause := t.disconnectCause, disposed := t.disposed, nextId := t.nextId, epoch := t.epoch,
                     writing := t.writing, timers := t.timers, restarting := t.restarting, jobs := t.jobs)
    requires s.nextId <= t.nextId && s.epoch <= t.epoch
    ensures Grew(s, t)
  {
  }

  lemma LeaseGrew(s: Engine)
    ensures Grew(s, InvalidateLease(s)) && Grew(s, FaultLease(s))
  {
  }

  lemma {:induction false} PumpGrew(env: Env, s: Engine)
    ensures Grew(s, Pump(env, s))
    decreases Backlog(s), 0
  {
    hide Grew, StartRequest;
    GrewSame(s, s);
    if s.state == Ready && s.active.None? {
      if s.stopPending.Some? {
        var t := s.(stopPending := None);
        GrewSame(s, t);
        StartGrew(env, t, s.stopPending.value);
        GrewTransitive(s, t, Pump(env, s));
      } else if s.queue != [] {
        var t := s.(queue := s.queue[1..]);
        GrewSame(s, t);
        StartGrew(env, t, s.queue[0]);
        GrewTransitive(s, t, Pump(env, s));
      }
    }
  }

  lemma {:induction false} StartGrew(env: Env, s: Engine, r: PendingRequest)
    ensures Grew(s, StartRequest(env, s, r))
    decreases Backlog(s), 1
  {
    hide Grew, Settle, DesyncLatch, Activated, Pump;
    if !r.spec.Encodable() {
      SettleGrew(s, r.id, r.origin, Rejected(EncodeFailed));
      SettleKeepsBacklog(s, r.id, r.origin, Rejected(EncodeFailed));
      var t := Settle(s, r.id, r.origin, Rejected(EncodeFailed));
      PumpGrew(env, t);
      GrewTransitive(s, t, Pump(env, t));
    } else {
      ActivatedGrew(s, r);
      AfterActivationGrew(env, s, r);
      GrewTransitive(s, Activated(s, r), StartRequest(env, s, r));
    }
  }

  /** Whatever the transport does with the call, the write has been recorded. */
  lemma AfterActivationGrew(env: Env, s: Engine, r: PendingRequest)
    requires r.spec.Encodable()
    ensures Grew(Activated(s, r), StartRequest(env, s, r))
  {
    hide Grew, Settle, DesyncLatch, Activated, Pump;
    var s1 := Activated(s, r);
    if !env.writeThrows(r.id) {
      GrewSame(s1, s1.(writing := s1.writing + {r.id}));
    } else {
      var o := Rejected(if r.origin.Probe? then ProbeFailed else WriteOutcomeUnknown);
      FinishGrew(s1, r.id, r.origin, o);
      var t := Settle(s1, r.id, r.origin, o).(active := None);
      DesyncGrew(env, t);
      GrewTransitive(s1, t, DesyncLatch(env, t));
    }
  }

  lemma ActivatedGrew(s: Engine, r: PendingRequest)
    requires r.spec.Encodable()
    ensures Grew(s, Activated(s, r))
  {
    var t := Activated(s, r);
    assert t.writes[|s.writes|].bytes == r.spec.Bytes();
  }

  lemma FinishGrew(s: Engine, id: RequestId, origin: Origin, o: Outcome)
    ensures Grew(s, Settle(s, id, origin, o).(active := None))
  {
  }

  lemma AbortStopGrew(s: Engine, code: Code)
    ensures Grew(s, AbortStop(s, code))
  {
    hide Settle, Grew;
    GrewSame(s, s);
    if s.stopPending.Some? {
      var t := s.(stopPending := None);
      GrewSame(s, t);
      SettleGrew(t, s.stopPending.value.id, s.stopPending.value.origin, Rejected(code));
      GrewTransitive(s, t, AbortStop(s, code));
    }
  }

  lemma DesyncGrew(env: Env, s: Engine)
    ensures Grew(s, DesyncLatch(env, s))
  {
    hide Grew, FaultLease, AbortStop, SettleAll;
    var f := FaultLease(s);
    LeaseGrew(s);
    var a := AbortStop(f, StopAbortedByDesync);
    AbortStopGrew(f, StopAbortedByDesync);
    GrewTransitive(s, f, a);
    var b := a.(queue := []);
    GrewSame(a, b);
    GrewTransitive(s, a, b);
    var c := SettleAll(b, a.queue, Rejected(Recovering));
    SettleAllGrew(b, a.queue, Rejected(Recovering));
    GrewTransitive(s, b, c);
    GrewSame(c, DesyncLatch(env, s));
    GrewTransitive(s, c, DesyncLatch(env, s));
  }

  /** Reactions touch the lease and the stop registration only. */
  ghost predicate Reacted(s: Engine, t: Engine) {
    t == s.(stopRegistered := t.stopRegistered, stopAmbiguous := t.stopAmbiguous, stopDeferred := t.stopDeferred,
            token := t.token, leaseEpoch := t.leaseEpoch,
            invalidated := t.invalidated, faultEpochs := t.faultEpochs, jobs := t.jobs)
  }

  lemma FaultLeaseChanges(s: Engine)
    ensures FaultLease(s) == s.(token := None, leaseEpoch := FaultLease(s).leaseEpoch,
                                invalidated := FaultLease(s).invalidated, faultEpochs := FaultLease(s).faultEpochs)
  {
  }

  lemma UnregisteredGrew(s: Engine)
    requires s.jobs != [] && s.jobs[0].id in s.outcomes
    requires Reacted(s, Unregistered(s))
    ensures Grew(s, Unregistered(s))
  {
  }

  lemma ReactGrew(s: Engine)
    requires Mid(s, None) && s.jobs != []
    ensures var t := React(s.(jobs := s.jobs[1..]), s.jobs[0]); Grew(s, t) && Reacted(s, t)
  {
    hide PlacesOk, LogOk, CallbacksOk, LeaseOk, ProbeOk, MidStop, FaultLease, Grew, ClearRegistration;
    UnregisteredStop(s);
    var v := Unregistered(s);
    UnregisteredGrew(s);
    FaultLeaseChanges(v);
    LeaseGrew(v);
    GrewTransitive(s, v, FaultLease(v));
  }

  lemma {:induction false} DrainShape(s: Engine)
    requires Mid(s, None) && Quiet(s)
    ensures Grew(s, Drain(s)) && Reacted(s, Drain(s))
    decreases |s.jobs|
  {
    hide React, Mid, Grew;
    if s.jobs == [] {
      GrewSame(s, s);
    } else {
      var t := React(s.(jobs := s.jobs[1..]), s.jobs[0]);
      ReactIsMid(s);
      ReactGrew(s);
      DrainShape(t);
      GrewTransitive(s, t, Drain(t));
    }
  }

  // ---------------------------------------------------------------- whole events

  lemma RefuseGrew(s: Engine, origin: Origin, code: Code)
    ensures Grew(s, Refuse(s, origin, code))
  {
    hide Settle, Grew;
    var t := s.(nextId := s.nextId + 1);
    GrewSame(s, t);
    SettleGrew(t, s.nextId, origin, Rejected(code));
    GrewTransitive(s, t, Refuse(s, origin, code));
  }

  lemma EnqueueGrew(env: Env, s: Engine, spec: RequestSpec, origin: Origin)
    ensures Grew(s, Enqueue(env, s, spec, origin))
  {
    hide Refuse, Pump, Grew;
    var t := s.(nextId := s.nextId + 1, queue := s.queue + [PendingRequest(s.nextId, spec, origin)]);
    GrewSame(s, t);
    PumpGrew(env, t);
    GrewTransitive(s, t, Pump(env, t));
    forall code ensures Grew(s, Refuse(s, origin, code)) { RefuseGrew(s, origin, code); }
  }

  lemma DisplaceGrew(s: Engine)
    ensures Grew(s, DisplaceActive(s))
  {
    hide Settle, Grew;
    if s.active.Some? {
      var a := s.active.value;
      var t := s.(timers := s.timers - {a.id});
      GrewSame(s, t);
      FinishGrew(t, a.id, a.origin, Rejected(DisplacedInFlight));
      GrewTransitive(s, t, Settle(t, a.id, a.origin, Rejected(DisplacedInFlight)).(active := None));
      GrewSame(s, s.(active := Some(a.(displacedByEmergencyStop := true))));
    } else {
      GrewSame(s, s);
    }
  }

  lemma RegisterStopGrew(s: Engine, token: Token, spec: RequestSpec)
    requires s.stopRegistered.None?
    ensures Grew(s, RegisterStop(s, token, spec))
  {
    hide SettleAll, DisplaceActive, Grew;
    var q := s.(queue := []);
    GrewSame(s, q);
    var p := SettleAll(q, s.queue, Rejected(DisplacedQueued));
    SettleAllGrew(q, s.queue, Rejected(DisplacedQueued));
    GrewTransitive(s, q, p);
    DisplaceGrew(p);
    var d := DisplaceActive(p);
    GrewTransitive(s, p, d);
    RegistrationGrew(s, d, RegisterStop(s, token, spec));
  }

  lemma RegistrationGrew(s: Engine, d: Engine, t: Engine)
    requires Grew(s, d) && s.stopRegistered.None? && s.nextId < t.nextId
    requires t == d.(nextId := t.nextId, stopPending := t.stopPending, stopRegistered := t.stopRegistered,
                     stopAmbiguous := t.stopAmbiguous, stopDeferred := t.stopDeferred)
    ensures Grew(s, t)
  {
  }

  lemma EmergencyStopGrew(env: Env, s: Engine, token: Token, spec: RequestSpec)
    ensures Grew(s, DoEmergencyStop(env, s, token, spec))
  {
    hide Refuse, RegisterStop, Pump, Grew;
    GrewSame(s, s);
    forall code ensures Grew(s, Refuse(s, Ordinary, code)) { RefuseGrew(s, Ordinary, code); }
    if StopAccepted(s, token) {
      RegisterStopGrew(s, token, spec);
      var t := RegisterStop(s, token, spec);
      PumpGrew(env, t);
      GrewTransitive(s, t, Pump(env, t));
    }
  }

  /** The slot is freed and then either the desync latch, the pump or nothing follows. */
  lemma FinishedGrew(env: Env, s: Engine, s0: Engine, id: RequestId, origin: Origin, o: Outcome)
    requires Grew(s, s0)
    ensures var t := Settle(s0, id, origin, o).(active := None);
            Grew(s, t) && Grew(s, Pump(env, t)) && Grew(s, DesyncLatch(env, t))
  {
    hide Settle, Pump, DesyncLatch, Grew;
    var t := Settle(s0, id, origin, o).(active := None);
    FinishGrew(s0, id, origin, o);
    GrewTransitive(s, s0, t);
    PumpGrew(env, t);
    GrewTransitive(s, t, Pump(env, t));
    DesyncGrew(env, t);
    GrewTransitive(s, t, DesyncLatch(env, t));
  }

  lemma WriteOkGrew(env: Env, s: Engine, id: RequestId)
    ensures Grew(s, DoWriteOk(env, s, id))
  {
    hide Settle, Pump, Grew;
    var s0 := s.(writing := s.writing - {id});
    GrewSame(s, s0);
    if s.active.Some? {
      var a := s.active.value;
      FinishedGrew(env, s, s0, id, a.origin, Rejected(DisplacedInFlight));
      GrewSame(s, s0.(active := Some(a.(phase := AwaitingResponse)), timers := s0.timers + {id}));
    }
  }

  lemma WriteFailedGrew(env: Env, s: Engine, id: RequestId, f: WriteFailure)
    ensures Grew(s, DoWriteFailed(env, s, id, f))
  {
    hide Settle, Pump, DesyncLatch, Grew;
    var s0 := s.(writing := s.writing - {id});
    GrewSame(s, s0);
    if s.active.Some? {
      FinishedGrew(env, s, s0, id, s.active.value.origin, Rejected(ProbeFailed));
      FinishedGrew(env, s, s0, id, s.active.value.origin, Rejected(ClassifyWriteFailure(f)));
    }
  }

  lemma TimeoutGrew(env: Env, s: Engine, id: RequestId)
    ensures Grew(s, DoTimeout(env, s, id))
  {
    hide Settle, DesyncLatch, Grew;
    var s0 := s.(timers := s.timers - {id});
    GrewSame(s, s0);
    if s.active.Some? {
      FinishedGrew(env, s, s0, id, s.active.value.origin, Rejected(ProbeFailed));
      FinishedGrew(env, s, s0, id, s.active.value.origin, Rejected(Timeout));
    }
  }

  lemma {:induction false} FramesGrew(env: Env, s: Engine, fs: seq<MspFrame>)
    ensures Grew(s, DoFrames(env, s, fs))
    decreases |fs|
  {
    hide Settle, Pump, Grew;
    GrewSame(s, s);
    if fs != [] {
      if Matches(s, fs[0]) {
        var a := s.active.value;
        var s0 := s.(timers := s.timers - {a.id});
        GrewSame(s, s0);
        var o := if fs[0].direction.Error? && !a.origin.Probe? then Rejected(RemoteError) else Resolved(fs[0]);
        FinishedGrew(env, s, s0, a.id, a.origin, o);
      }
      var t := DoFrame(env, s, fs[0]);
      FramesGrew(env, t, fs[1..]);
      GrewTransitive(s, t, DoFrames(env, t, fs[1..]));
    }
  }

  lemma RestartGrew(env: Env, s: Engine, epoch: nat)
    ensures Grew(s, DoRestartOk(env, s, epoch)) && Grew(s, DoRestartFailed(s, epoch))
  {
    hide StartRequest, Grew;
    var s0 := s.(restarting := s.restarting - {epoch});
    GrewSame(s, s0);
    GrewSame(s, s0.(state := RecoveryFailed));
    var p := s0.(state := Probing, nextId := s.nextId + 1);
    GrewSame(s, p);
    StartGrew(env, p, PendingRequest(s.nextId, PROBE_SPEC, Probe(s.epoch)));
    GrewTransitive(s, p, SendProbe(env, s0));
  }

  lemma RejectActiveGrew(s: Engine, code: Code)
    ensures Grew(s, RejectActive(s, code))
  {
    hide Settle, Grew;
    GrewSame(s, s);
    if s.active.Some? {
      var c := s.(timers := s.timers - {s.active.value.id});
      GrewSame(s, c);
      FinishGrew(c, s.active.value.id, s.active.value.origin, Rejected(code));
      GrewTransitive(s, c, RejectActive(s, code));
    }
  }

  lemma RejectAllGrew(s: Engine, code: Code)
    ensures Grew(s, RejectAll(s, code))
  {
    hide RejectActive, SettleAll, AbortStop, Grew;
    var s1 := RejectActive(s, code);
    RejectActiveGrew(s, code);
    var s2 := AbortStop(s1, StopAbortedBySessionEnd);
    AbortStopGrew(s1, StopAbortedBySessionEnd);
    GrewTransitive(s, s1, s2);
    var s3 := s2.(queue := []);
    GrewSame(s2, s3);
    GrewTransitive(s, s2, s3);
    SettleAllGrew(s3, s2.queue, Rejected(code));
    GrewTransitive(s, s3, RejectAll(s, code));
  }

  lemma EndGrew(s: Engine)
    ensures Grew(s, DoDispose(s)) && Grew(s, DoDetach(s))
  {
    hide RejectAll, InvalidateLease, Grew;
    GrewSame(s, s);
    var d := s.(disposed := true);
    GrewSame(s, d);
    LeaseGrew(d);
    var s1 := InvalidateLease(d);
    GrewTransitive(s, d, s1);
    var c := s1.(state := Closing);
    GrewSame(s1, c);
    GrewTransitive(s, s1, c);
    RejectAllGrew(c, SessionClosed);
    GrewTransitive(s, c, RejectAll(c, SessionClosed));
    var e := RejectAll(c, SessionClosed).(disconnectCause := Some(SessionClosed), state := Disconnected);
    GrewSame(RejectAll(c, SessionClosed), e);
    GrewTransitive(s, RejectAll(c, SessionClosed), e);
    LeaseGrew(s);
    var i := InvalidateLease(s);
    var b := i.(disconnectCause := Some(DeviceDetached), state := Disconnected);
    GrewSame(i, b);
    GrewTransitive(s, i, b);
    RejectAllGrew(b, DeviceDetached);
    GrewTransitive(s, b, RejectAll(b, DeviceDetached));
  }

  lemma LeaseCallsGrew(s: Engine, token: Token)
    ensures Grew(s, DoAcquire(s)) && Grew(s, DoRelease(s, token)) && Grew(s, DoFaultByToken(s, token))
  {
    LeaseGrew(s);
  }

  lemma ActGrew(env: Env, s: Engine, e: Event)
    ensures Grew(s, Act(env, s, e))
  {
    hide DoWriteOk, DoWriteFailed, DoTimeout, DoFrames, DoEmergencyStop, DoRestartOk, DoRestartFailed, DoDetach,
      DoDispose, DoAcquire, DoRelease, DoFaultByToken, Enqueue, Refuse, Grew;
    match e {
      case Request(spec) => EnqueueGrew(env, s, spec, Ordinary); RefuseGrew(s, Ordinary, LeaseHeld);
      case LeaseRequest(token, spec) =>
        EnqueueGrew(env, s, spec, Leased(token));
        RefuseGrew(s, Ordinary, CapabilityInvalid);
      case EmergencyStop(token, spec) => EmergencyStopGrew(env, s, token, spec);
      case WriteOk(id) => WriteOkGrew(env, s, id);
      case WriteFailed(id, f) => WriteFailedGrew(env, s, id, f);
      case TimerFired(id) => TimeoutGrew(env, s, id);
      case Frames(fs) => FramesGrew(env, s, fs);
      case RestartOk(epoch) => RestartGrew(env, s, epoch);
      case RestartFailed(epoch) => RestartGrew(env, s, epoch);
      case Detach => EndGrew(s);
      case Dispose => EndGrew(s);
      case Acquire => LeaseCallsGrew(s, 0);
      case ReleaseLease(token) => LeaseCallsGrew(s, token);
      case FaultByToken(token) => LeaseCallsGrew(s, token);
    }
  }

  lemma StepGrew(env: Env, s: Engine, e: Event)
    requires Inv(s)
    ensures Grew(s, Step(env, s, e))
  {
    hide Inv, Mid, Quiet, Act, Drain, Grew;
    InvIsMid(s);
    if Possible(s, e) {
      ActGrew(env, s, e);
      assert Mid(Act(env, s, e), None) && Quiet(Act(env, s, e)) by { ActIsCalm(env, s, e); }
      DrainShape(Act(env, s, e));
      GrewTransitive(s, Act(env, s, e), Step(env, s, e));
    } else {
      GrewSame(s, s);
    }
  }

  /** Over a whole run: outcomes are final, writes are only appended, and dead leases and latches stay. */
  lemma {:induction false} RunGrew(env: Env, s: Engine, events: seq<Event>)
    requires Inv(s)
    ensures Inv(Run(env, s, events)) && Grew(s, Run(env, s, events))
    decreases |events|
  {
    hide Inv, Step, Grew;
    if events == [] {
      GrewSame(s, s);
    } else {
      var t := Run(env, s, events[..|events| - 1]);
      RunGrew(env, s, events[..|events| - 1]);
      StepKeepsInv(env, t, events[|events| - 1]);
      StepGrew(env, t, events[|events| - 1]);
      GrewTransitive(s, t, Run(env, s, events));
    }
  }
}
