/** What desynchronizes the client, what that does, and that nothing else does it. */
module MspClientDesync {
  import opened MspTypes
  import opened MspClientModel
  import opened MspClientInvariants
  import opened MspClientRuns
  import opened MspClientHistory

  /** From u to t the client has lost its place in the stream: a new epoch, recovery begun, and nothing left open. */
  ghost predicate Desynchronized(env: Env, u: Engine, t: Engine) {
    && t.epoch == u.epoch + 1
    && t.state == (if env.restartThrows(u.epoch + 1) then RecoveryFailed else RestartingReader)
    && (u.epoch + 1 in t.restarting <==> !env.restartThrows(u.epoch + 1))
    && t.queue == [] && t.active.None? && t.stopPending.None? && t.token.None? && t.timers == {}
    && (forall i :: 0 <= i < |u.queue| ==>
          u.queue[i].id in t.outcomes && t.outcomes[u.queue[i].id] == Rejected(Recovering))
    && (u.stopPending.Some? ==>
          u.stopPending.value.id in t.outcomes
          && t.outcomes[u.stopPending.value.id] == Rejected(StopAbortedByDesync))
    && (u.token.Some? ==> u.token.value in t.invalidated && u.epoch in t.faultEpochs)
  }

  lemma FaultLatches(u: Engine)
    requires LeaseOk(u)
    ensures u.token.Some? ==> u.token.value in FaultLease(u).invalidated && u.epoch in FaultLease(u).faultEpochs
  {
  }

  lemma DesyncDoes(env: Env, u: Engine)
    requires Mid(u, None) && u.state.Ready? && u.active.None? && u.timers == {}
    ensures var t := DesyncLatch(env, u);
            Desynchronized(env, u, t) && t.writes == u.writes && t.nextId == u.nextId
  {
    hide FaultLease, AbortStop, SettleAll, Count, TimesWritten, NeverWritten, SurelyWritten, LogOk, MidStop, JobsOk,
      ProbeOk,
      Quiet;
    var f := FaultLease(u);
    FaultLeaseShape(u);
    FaultLatches(u);
    DropLeaseIsMid(u, f, None);
    EmptyingSettles(f, StopAbortedByDesync, Rejected(Recovering));
    var a := AbortStop(f, StopAbortedByDesync);
    var e := SettleAll(a.(queue := []), a.queue, Rejected(Recovering));
    forall i | 0 <= i < |u.queue|
      ensures u.queue[i].id in e.outcomes && e.outcomes[u.queue[i].id] == Rejected(Recovering)
    {
      QueuedIsEmptied(f, e, i);
    }
    if u.stopPending.Some? { SlotIsEmptied(f, e); }
    assert u.epoch + 1 !in u.restarting;
  }

  lemma QueuedIsEmptied(f: Engine, e: Engine, i: nat)
    requires PlacesOk(f, None) && Emptied(f, e, StopAbortedByDesync, Rejected(Recovering)) && i < |f.queue|
    ensures f.queue[i].id in e.outcomes && e.outcomes[f.queue[i].id] == Rejected(Recovering)
  {
    hide Count;
    var id := f.queue[i].id;
    CountedIsMember(f.queue, i);
    assert Places(f, id) + InSlot(None, id) <= 1;
    assert IsSettled(e, id) == IsSettled(f, id) + InSlot(f.stopPending, id) + Count(f.queue, id);
  }

  lemma SlotIsEmptied(f: Engine, e: Engine)
    requires PlacesOk(f, None) && Emptied(f, e, StopAbortedByDesync, Rejected(Recovering)) && f.stopPending.Some?
    ensures var id := f.stopPending.value.id;
            id in e.outcomes && e.outcomes[id] == Rejected(StopAbortedByDesync)
  {
    hide Count;
    var id := f.stopPending.value.id;
    assert Places(f, id) + InSlot(None, id) <= 1;
    assert IsSettled(e, id) == IsSettled(f, id) + InSlot(f.stopPending, id) + Count(f.queue, id);
  }

  /** The reactions of the event take nothing of it back. */
  lemma DrainedDesync(env: Env, s: Engine, u: Engine)
    requires Mid(u, None) && Quiet(u) && Desynchronized(env, s, u) && Inv(Drain(u))
    ensures Desynchronized(env, s, Drain(u)) && Drain(u).writes == u.writes && Drain(u).nextId == u.nextId
    ensures forall id :: id in u.outcomes ==> id in Drain(u).outcomes && Drain(u).outcomes[id] == u.outcomes[id]
  {
    hide Mid, Quiet, PlacesOk, LogOk, CallbacksOk, ProbeOk, StopOk, Drain;
    DrainShape(u);
  }

  /** The active request has been settled with o, and the desync latch follows. */
  lemma FinishedDesync(env: Env, s: Engine, s0: Engine, o: Outcome)
    requires Mid(s, None) && Quiet(s) && s.active.Some? && !s.active.value.origin.Probe? && !NeverWritten(o)
    requires s0 == s.(writing := s0.writing, timers := s.timers - {s.active.value.id}) && s0.writing <= s.writing
    ensures
      var a := s.active.value;
      var t := DesyncLatch(env, Settle(s0, a.id, a.origin, o).(active := None));
      && Desynchronized(env, s, t) && t.writes == s.writes && t.nextId == s.nextId
      && a.id in t.outcomes && t.outcomes[a.id] == o
  {
    hide Count, TimesWritten, NeverWritten, SurelyWritten, Settle, DesyncLatch, PlacesOk, LogOk, MidStop, JobsOk,
      LeaseOk;
    var a := s.active.value;
    var u := Settle(s0, a.id, a.origin, o).(active := None);
    FinishFromCalm(s, s0, o);
    assert s0.timers == {};
    DesyncDoes(env, u);
    DesyncGrew(env, u);
  }

  /**
   * A RESPONSE TIMEOUT DESYNCHRONIZES: the request that waited is rejected as timed out, everything queued behind it is
   * rejected unwritten, the lease is lost with its epoch latched, and the reader is restarted under a new epoch.
   */
  lemma TimeoutDesynchronizes(env: Env, s: Engine, id: RequestId)
    requires Inv(s) && id in s.timers && !s.active.value.origin.Probe?
    ensures
      var t := Step(env, s, TimerFired(id));
      && s.active.value.id == id
      && Desynchronized(env, s, t) && t.writes == s.writes && t.nextId == s.nextId
      && id in t.outcomes && t.outcomes[id] == Rejected(Timeout)
  {
    hide Mid, Quiet, Drain, DesyncLatch, Settle, PlacesOk, LogOk, LeaseOk, ProbeOk, StopOk, RestOk, Grew;
    InvIsMid(s);
    SettledNotActive(s);
    TimeoutIsCalm(env, s, id);
    StepKeepsInv(env, s, TimerFired(id));
    TimedOut();
    FinishedDesync(env, s, s.(timers := s.timers - {id}), Rejected(Timeout));
    DrainedDesync(env, s, DoTimeout(env, s, id));
  }

  lemma SettledNotActive(s: Engine)
    requires Inv(s) && s.active.Some?
    ensures s.active.value.id !in s.outcomes
  {
    hide LogOk, CallbacksOk, LeaseOk, ProbeOk, StopOk, RestOk;
    SettledIsNotActive(s);
  }

  lemma TimedOut()
    ensures !NeverWritten(Rejected(Timeout)) && !NeverWritten(Rejected(WriteOutcomeUnknown))
  {
  }

  /** So does a write that fails with an unknown outcome. */
  lemma LostWriteDesynchronizes(env: Env, s: Engine, id: RequestId)
    requires Inv(s) && id in s.writing && s.active.Some? && s.active.value.id == id && !s.active.value.origin.Probe?
    requires s.active.value.phase.Writing?
    ensures
      var t := Step(env, s, WriteFailed(id, OtherFailure));
      && Desynchronized(env, s, t) && t.writes == s.writes && t.nextId == s.nextId
      && id in t.outcomes && t.outcomes[id] == Rejected(WriteOutcomeUnknown)
  {
    hide Mid, Quiet, Drain, DesyncLatch, Settle, PlacesOk, LogOk, LeaseOk, ProbeOk, StopOk, RestOk, Grew, Pump;
    InvIsMid(s);
    SettledNotActive(s);
    WriteFailedIsCalm(env, s, id, OtherFailure);
    StepKeepsInv(env, s, WriteFailed(id, OtherFailure));
    TimedOut();
    assert s.timers == {};
    assert s.(writing := s.writing - {id}).timers == s.timers - {id};
    FinishedDesync(env, s, s.(writing := s.writing - {id}), Rejected(WriteOutcomeUnknown));
    DrainedDesync(env, s, DoWriteFailed(env, s, id, OtherFailure));
  }

  // ---------------------------------------------------------------- when the epoch rises

  /** The transport was handed a write of a request, not of a probe, and threw. */
  ghost predicate Threw(env: Env, s: Engine, t: Engine) {
    exists i :: |s.writes| <= i < |t.writes| && env.writeThrows(t.writes[i].id) && !t.writes[i].origin.Probe?
  }

  /** From s to t the epoch has moved exactly if a write has thrown, and then only once. */
  ghost predicate RisesByThrowing(env: Env, s: Engine, t: Engine) {
    && s.writes <= t.writes
    && t.epoch == s.epoch + if Threw(env, s, t) then 1 else 0
  }

  lemma SameLog(env: Env, s: Engine, t: Engine)
    requires t.writes == s.writes && t.epoch == s.epoch
    ensures RisesByThrowing(env, s, t)
  {
  }

  lemma SettleKeepsLog(s: Engine, id: RequestId, origin: Origin, o: Outcome)
    ensures var t := Settle(s, id, origin, o);
            t.writes == s.writes && t.epoch == s.epoch && t.nextId == s.nextId
            && t.(active := None).writes == s.writes && t.(active := None).epoch == s.epoch
  {
  }

  lemma {:induction false} SettleAllKeepsLog(s: Engine, rs: seq<PendingRequest>, o: Outcome)
    ensures var t := SettleAll(s, rs, o); t.writes == s.writes && t.epoch == s.epoch
    decreases |rs|
  {
    hide Settle;
    if rs != [] {
      SettleKeepsLog(s, rs[0].id, rs[0].origin, o);
      SettleAllKeepsLog(Settle(s, rs[0].id, rs[0].origin, o), rs[1..], o);
    }
  }

  lemma LatchRaises(env: Env, s: Engine)
    ensures DesyncLatch(env, s).epoch == s.epoch + 1 && DesyncLatch(env, s).writes == s.writes
  {
    hide FaultLease, AbortStop, SettleAll;
    FaultLeaseChanges(s);
    var f := FaultLease(s);
    var a := AbortStop(f, StopAbortedByDesync);
    AbortKeepsLog(f, StopAbortedByDesync);
    SettleAllKeepsLog(a.(queue := []), a.queue, Rejected(Recovering));
  }

  lemma AbortKeepsLog(s: Engine, code: Code)
    ensures AbortStop(s, code).writes == s.writes && AbortStop(s, code).epoch == s.epoch
  {
    hide Settle;
    if s.stopPending.Some? {
      SettleKeepsLog(s.(stopPending := None), s.stopPending.value.id, s.stopPending.value.origin, Rejected(code));
    }
  }

  lemma {:induction false} PumpRises(env: Env, s: Engine)
    ensures RisesByThrowing(env, s, Pump(env, s))
    decreases Backlog(s), 0
  {
    hide StartRequest;
    if s.state == Ready && s.active.None? {
      if s.stopPending.Some? {
        StartRises(env, s.(stopPending := None), s.stopPending.value);
      } else if s.queue != [] {
        StartRises(env, s.(queue := s.queue[1..]), s.queue[0]);
      }
    }
  }

  lemma {:induction false} StartRises(env: Env, s: Engine, r: PendingRequest)
    ensures RisesByThrowing(env, s, StartRequest(env, s, r))
    decreases Backlog(s), 1
  {
    hide Settle, DesyncLatch, Pump, Activated;
    if !r.spec.Encodable() {
      SettleKeepsBacklog(s, r.id, r.origin, Rejected(EncodeFailed));
      SettleKeepsLog(s, r.id, r.origin, Rejected(EncodeFailed));
      PumpRises(env, Settle(s, r.id, r.origin, Rejected(EncodeFailed)));
    } else {
      var t := Activated(s, r);
      ActivatedLog(s, r);
      var o := Rejected(if r.origin.Probe? then ProbeFailed else WriteOutcomeUnknown);
      SettleKeepsLog(t, r.id, r.origin, o);
      LatchRaises(env, Settle(t, r.id, r.origin, o).(active := None));
      assert StartRequest(env, s, r).writes == t.writes;
      if env.writeThrows(r.id) && !r.origin.Probe? {
        assert t.writes[|s.writes|].id == r.id;
      }
    }
  }

  lemma ActivatedLog(s: Engine, r: PendingRequest)
    requires r.spec.Encodable()
    ensures var t := Activated(s, r);
            t.writes == s.writes + [WriteRecord(r.id, r.origin, s.token, r.spec.Bytes())] && t.epoch == s.epoch
  {
  }

  /** The two callbacks that desynchronize without a new write. */
  predicate TimesOut(s: Engine, e: Event) {
    e.TimerFired? && s.active.Some? && s.active.value.id == e.id && !s.active.value.origin.Probe?
  }

  predicate LosesItsWrite(s: Engine, e: Event) {
    && e.WriteFailed? && e.failure.OtherFailure?
    && s.active.Some? && s.active.value.id == e.id && !s.active.value.origin.Probe?
  }

  lemma FramesRise(env: Env, s: Engine, fs: seq<MspFrame>)
    requires Mid(s, None) && Quiet(s)
    ensures RisesByThrowing(env, s, DoFrames(env, s, fs))
    decreases |fs|
  {
    hide DoFrame, Mid, Quiet;
    if fs != [] {
      var t := DoFrame(env, s, fs[0]);
      FrameRises(env, s, fs[0]);
      FrameIsCalm(env, s, fs[0]);
      if t.state != s.state || t.epoch != s.epoch {
        assert t.active.None? by { RaisedIsIdle(env, s, fs[0]); }
        FramesWithoutActive(env, t, fs[1..]);
      } else {
        FramesRise(env, t, fs[1..]);
        RisesFrom(env, s, t, DoFrames(env, t, fs[1..]));
      }
    }
  }

  lemma RaisedIsIdle(env: Env, s: Engine, f: MspFrame)
    requires Mid(s, None) && Quiet(s)
    ensures var t := DoFrame(env, s, f); t.state != s.state || t.epoch != s.epoch ==> t.active.None?
  {
    hide Mid, Quiet, DoFrame;
    FrameIsCalm(env, s, f);
  }

  /** Nothing before t has thrown. */
  lemma RisesFrom(env: Env, s: Engine, t: Engine, u: Engine)
    requires RisesByThrowing(env, s, t) && t.epoch == s.epoch && RisesByThrowing(env, t, u)
    ensures RisesByThrowing(env, s, u)
  {
    assert |s.writes| <= |t.writes| <= |u.writes|;
    assert forall i :: 0 <= i < |t.writes| ==> u.writes[i] == t.writes[i];
    if Threw(env, s, u) {
      var i :| |s.writes| <= i < |u.writes| && env.writeThrows(u.writes[i].id) && !u.writes[i].origin.Probe?;
      if i < |t.writes| { assert u.writes[i] == t.writes[i]; }
    }
  }

  lemma FrameRises(env: Env, s: Engine, f: MspFrame)
    ensures RisesByThrowing(env, s, DoFrame(env, s, f))
  {
    hide Settle, Pump;
    if Matches(s, f) {
      var a := s.active.value;
      var o := if f.direction.Error? && !a.origin.Probe? then Rejected(RemoteError) else Resolved(f);
      SettleKeepsLog(s.(timers := s.timers - {a.id}), a.id, a.origin, o);
      PumpRises(env, Settle(s.(timers := s.timers - {a.id}), a.id, a.origin, o).(active := None));
    }
  }

  lemma AdmissionRises(env: Env, s: Engine, spec: RequestSpec, origin: Origin, code: Code)
    ensures RisesByThrowing(env, s, Enqueue(env, s, spec, origin)) && RisesByThrowing(env, s, Refuse(s, origin, code))
  {
    hide Settle, Pump;
    forall c: Code ensures RisesByThrowing(env, s, Refuse(s, origin, c)) {
      SettleKeepsLog(s.(nextId := s.nextId + 1), s.nextId, origin, Rejected(c));
    }
    PumpRises(env, s.(nextId := s.nextId + 1, queue := s.queue + [PendingRequest(s.nextId, spec, origin)]));
  }

  lemma StopRises(env: Env, s: Engine, token: Token, spec: RequestSpec)
    ensures RisesByThrowing(env, s, DoEmergencyStop(env, s, token, spec))
  {
    hide Settle, Pump, SettleAll, Refuse, DisplaceActive;
    AdmissionRises(env, s, spec, Ordinary, CapabilityInvalid);
    if CheckAcceptance(s).Some? { AdmissionRises(env, s, spec, Ordinary, CheckAcceptance(s).value); }
    var p := SettleAll(s.(queue := []), s.queue, Rejected(DisplacedQueued));
    SettleAllKeepsLog(s.(queue := []), s.queue, Rejected(DisplacedQueued));
    DisplaceKeepsLog(p);
    PumpRises(env, RegisterStop(s, token, spec));
  }

  lemma DisplaceKeepsLog(s: Engine)
    ensures DisplaceActive(s).writes == s.writes && DisplaceActive(s).epoch == s.epoch
  {
    hide Settle;
    if s.active.Some? {
      var a := s.active.value;
      SettleKeepsLog(s.(timers := s.timers - {a.id}), a.id, a.origin, Rejected(DisplacedInFlight));
    }
  }

  lemma WriteSettledRises(env: Env, s: Engine, id: RequestId, f: WriteFailure)
    requires s.active.Some? ==> s.active.value.id !in s.outcomes
    ensures RisesByThrowing(env, s, DoWriteOk(env, s, id))
    ensures var t := DoWriteFailed(env, s, id, f);
            if LosesItsWrite(s, WriteFailed(id, f)) then t.epoch == s.epoch + 1 && t.writes == s.writes
            else RisesByThrowing(env, s, t)
  {
    hide Settle, Pump, DesyncLatch;
    var s0 := s.(writing := s.writing - {id});
    if s.active.Some? {
      var a := s.active.value;
      forall o: Outcome
        ensures RisesByThrowing(env, s, Pump(env, Settle(s0, id, a.origin, o).(active := None)))
        ensures RisesByThrowing(env, s, Settle(s0, id, a.origin, o).(active := None))
        ensures DesyncLatch(env, Settle(s0, id, a.origin, o).(active := None)).epoch == s.epoch + 1
        ensures DesyncLatch(env, Settle(s0, id, a.origin, o).(active := None)).writes == s.writes
      {
        SettleKeepsLog(s0, id, a.origin, o);
        PumpRises(env, Settle(s0, id, a.origin, o).(active := None));
        LatchRaises(env, Settle(s0, id, a.origin, o).(active := None));
      }
    }
  }

  lemma TimeoutRises(env: Env, s: Engine, id: RequestId)
    requires s.active.Some? ==> s.active.value.id !in s.outcomes
    ensures var t := DoTimeout(env, s, id);
            t.writes == s.writes && t.epoch == s.epoch + if TimesOut(s, TimerFired(id)) then 1 else 0
  {
    hide Settle, DesyncLatch;
    var s0 := s.(timers := s.timers - {id});
    if s.active.Some? {
      var a := s.active.value;
      SettleKeepsLog(s0, id, a.origin, Rejected(ProbeFailed));
      SettleKeepsLog(s0, id, a.origin, Rejected(Timeout));
      LatchRaises(env, Settle(s0, id, a.origin, Rejected(Timeout)).(active := None));
    }
  }

  lemma RestartRises(env: Env, s: Engine, epoch: nat)
    ensures RisesByThrowing(env, s, DoRestartOk(env, s, epoch)) && RisesByThrowing(env, s, DoRestartFailed(s, epoch))
  {
    hide StartRequest;
    var s0 := s.(restarting := s.restarting - {epoch});
    var p := s0.(state := Probing, nextId := s.nextId + 1);
    StartRises(env, p, PendingRequest(s.nextId, PROBE_SPEC, Probe(s.epoch)));
  }

  lemma EndRises(env: Env, s: Engine, token: Token)
    ensures RisesByThrowing(env, s, DoDetach(s)) && RisesByThrowing(env, s, DoDispose(s))
    ensures RisesByThrowing(env, s, DoAcquire(s)) && RisesByThrowing(env, s, DoRelease(s, token))
    ensures RisesByThrowing(env, s, DoFaultByToken(s, token))
  {
    hide RejectAll, FaultLease;
    RejectAllKeepsLog(InvalidateLease(s).(disconnectCause := Some(DeviceDetached), state := Disconnected),
                      DeviceDetached);
    RejectAllKeepsLog(InvalidateLease(s.(disposed := true)).(state := Closing), SessionClosed);
    FaultLeaseChanges(s);
  }

  lemma RejectAllKeepsLog(s: Engine, code: Code)
    ensures RejectAll(s, code).writes == s.writes && RejectAll(s, code).epoch == s.epoch
  {
    hide Settle, SettleAll, AbortStop;
    if s.active.Some? {
      SettleKeepsLog(s.(timers := s.timers - {s.active.value.id}), s.active.value.id, s.active.value.origin,
                     Rejected(code));
    }
    var a := AbortStop(RejectActive(s, code), StopAbortedBySessionEnd);
    AbortKeepsLog(RejectActive(s, code), StopAbortedBySessionEnd);
    SettleAllKeepsLog(a.(queue := []), a.queue, Rejected(code));
  }

  lemma ActRises(env: Env, s: Engine, e: Event)
    requires Inv(s) && Possible(s, e)
    ensures var u := Act(env, s, e);
            if TimesOut(s, e) || LosesItsWrite(s, e) then u.epoch == s.epoch + 1 && u.writes == s.writes
            else RisesByThrowing(env, s, u)
  {
    hide Inv, Mid, Quiet, RisesByThrowing, DoWriteOk, DoWriteFailed, DoTimeout, DoFrames, DoEmergencyStop, DoRestartOk,
      DoRestartFailed, DoDetach, DoDispose, DoAcquire, DoRelease, DoFaultByToken, Enqueue, Refuse;
    InvIsMid(s);
    if s.active.Some? { SettledNotActive(s); }
    match e {
      case Request(spec) => AdmissionRises(env, s, spec, Ordinary, LeaseHeld);
      case LeaseRequest(token, spec) => LeaseAdmissionRises(env, s, token, spec);
      case EmergencyStop(token, spec) => StopRises(env, s, token, spec);
      case WriteOk(id) => WriteSettledRises(env, s, id, OtherFailure);
      case WriteFailed(id, f) => WriteSettledRises(env, s, id, f);
      case TimerFired(id) => TimeoutRises(env, s, id); SameEpoch(env, s, id);
      case Frames(fs) => FramesRise(env, s, fs);
      case RestartOk(epoch) => RestartRises(env, s, epoch);
      case RestartFailed(epoch) => RestartRises(env, s, epoch);
      case Detach => EndRises(env, s, 0);
      case Dispose => EndRises(env, s, 0);
      case Acquire => EndRises(env, s, 0);
      case ReleaseLease(token) => EndRises(env, s, token);
      case FaultByToken(token) => EndRises(env, s, token);
    }
  }

  lemma LeaseAdmissionRises(env: Env, s: Engine, token: Token, spec: RequestSpec)
    ensures RisesByThrowing(env, s, DoLeaseRequest(env, s, token, spec))
  {
    hide Enqueue, Refuse, RisesByThrowing;
    AdmissionRises(env, s, spec, Leased(token), CapabilityInvalid);
    AdmissionRises(env, s, spec, Ordinary, CapabilityInvalid);
  }

  lemma SameEpoch(env: Env, s: Engine, id: RequestId)
    requires s.active.Some? ==> s.active.value.id !in s.outcomes
    ensures !TimesOut(s, TimerFired(id)) ==> RisesByThrowing(env, s, DoTimeout(env, s, id))
  {
    hide DoTimeout;
    TimeoutRises(env, s, id);
    if !TimesOut(s, TimerFired(id)) { SameLog(env, s, DoTimeout(env, s, id)); }
  }

  /**
   * WHAT DESYNCHRONIZES, as an equivalence over every event: the timeout of the active request, the unknown outcome of
   * its write, or a write the transport threw on. Nothing else raises the epoch, and none raises it twice.
   */
  lemma EpochRisesExactlyWhen(env: Env, s: Engine, e: Event)
    requires Inv(s) && Possible(s, e)
    ensures
      var t := Step(env, s, e);
      && (t.epoch == s.epoch + 1 <==> TimesOut(s, e) || LosesItsWrite(s, e) || Threw(env, s, t))
      && (t.epoch == s.epoch || t.epoch == s.epoch + 1)
  {
    hide Inv, Mid, Quiet, Act, Drain, Grew, Threw, TimesOut, LosesItsWrite;
    InvIsMid(s);
    var u := Act(env, s, e);
    ActRises(env, s, e);
    assert Mid(u, None) && Quiet(u) by { ActIsCalm(env, s, e); }
    DrainShape(u);
    assert Drain(u).writes == u.writes && Drain(u).epoch == u.epoch;
    SameWritesThrow(env, s, u, Drain(u));
    assert Step(env, s, e) == Drain(u);
    if TimesOut(s, e) || LosesItsWrite(s, e) {
      assert u.epoch == s.epoch + 1;
    } else {
      assert RisesByThrowing(env, s, u);
    }
  }

  lemma SameWritesThrow(env: Env, s: Engine, u: Engine, t: Engine)
    requires t.writes == u.writes
    ensures Threw(env, s, u) <==> Threw(env, s, t)
  {
  }

  /** And whenever it rises, recovery has begun, nothing is left open, and no lease is held. */
  lemma RisenLeavesNothingOpen(env: Env, s: Engine, e: Event)
    requires Inv(s) && Possible(s, e) && Step(env, s, e).epoch == s.epoch + 1
    ensures
      var t := Step(env, s, e);
      && (t.state.RestartingReader? || t.state.RecoveryFailed?)
      && t.queue == [] && t.active.None? && t.stopPending.None? && t.token.None? && t.timers == {}
  {
    hide Step, PlacesOk, LogOk, StopOk;
    StepKeepsInv(env, s, e);
  }
}
