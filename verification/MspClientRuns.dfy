/** The invariant of the request engine over every run. */
module MspClientRuns {
  import opened MspTypes
  import opened MspClientModel
  import opened MspClientInvariants

  // ---------------------------------------------------------------- requests

  lemma RequestIsCalm(env: Env, s: Engine, spec: RequestSpec)
    requires Mid(s, None) && Quiet(s)
    ensures Calm(s, DoRequest(env, s, spec))
  {
    hide Mid, Enqueue, Refuse;
    if s.token.Some? {
      RefusedIsMid(s, Ordinary, LeaseHeld);
    } else {
      EnqueueIsCalm(env, s, spec, Ordinary);
    }
  }

  lemma LeaseRequestIsCalm(env: Env, s: Engine, token: Token, spec: RequestSpec)
    requires Mid(s, None) && Quiet(s)
    ensures Calm(s, DoLeaseRequest(env, s, token, spec))
  {
    hide Mid, Enqueue, Refuse;
    if s.token != Some(token) {
      RefusedIsMid(s, Ordinary, CapabilityInvalid);
    } else {
      EnqueueIsCalm(env, s, spec, Leased(token));
    }
  }

  // ---------------------------------------------------------------- the end of the session

  /** What must hold of an engine whose session is ending, whatever its state is called meanwhile. */
  ghost predicate Ending(s: Engine) {
    && PlacesOk(s, None) && LogOk(s) && MidStop(s, None) && JobsOk(s)
    && (s.state.Closing? || s.state.Disconnected?)
    && (forall i :: 0 <= i < |s.queue| ==> !s.queue[i].origin.Probe? && !s.queue[i].origin.Stop?)
    && (s.stopPending.Some? ==> s.stopPending.value.origin.Stop?)
  }

  lemma SessionEnds(s: Engine, b: Engine)
    requires Mid(s, None) && Quiet(s)
    requires b == InvalidateLease(s).(disposed := b.disposed, state := b.state, disconnectCause := b.disconnectCause)
    requires b.state.Closing? || b.state.Disconnected?
    ensures Ending(b)
  {
    hide Count, TimesWritten, NeverWritten, SurelyWritten;
    assert PlacesOk(b, None) by {
      forall id: RequestId ensures Places(b, id) == Places(s, id) {}
    }
    LogUntouched(s, b);
    if s.stopRegistered.Some? && StopJobQueued(s, s.stopRegistered.value) {
      assert StopJobQueued(b, s.stopRegistered.value);
    }
  }

  /** With the session over, not even the probe's own callback moves the state. */
  lemma RejectedShape(b: Engine, code: Code)
    requires b.active.Some? && b.active.value.id !in b.outcomes && (b.state.Closing? || b.state.Disconnected?)
    ensures var t := RejectActive(b, code);
            SlotFreed(b.(timers := b.timers - {b.active.value.id}), t, Rejected(code)) && t.state == b.state
  {
  }

  lemma ActiveIsRejected(b: Engine, code: Code)
    requires Ending(b) && (code.SessionClosed? || code.DeviceDetached?)
    ensures var t := RejectActive(b, code);
            && Ending(t) && t.active.None?
            && t == b.(active := None, outcomes := t.outcomes, jobs := t.jobs, timers := t.timers)
            && t.timers == (if b.active.Some? then b.timers - {b.active.value.id} else b.timers)
  {
    hide Count, TimesWritten, NeverWritten, SurelyWritten, LogOk, PlacesOk, MidStop, JobsOk, Settle;
    if b.active.Some? {
      SettledIsNotActive(b);
      var c := b.(timers := b.timers - {b.active.value.id});
      var t := RejectActive(b, code);
      RejectedShape(b, code);
      TimersDoNotMatter(b, c);
      SureCodes();
      FinishPlaces(c, t, Rejected(code));
      FinishLog(c, t, Rejected(code));
      FinishStop(c, t, Rejected(code));
    }
  }

  lemma TimersDoNotMatter(b: Engine, c: Engine)
    requires Ending(b) && c == b.(timers := c.timers)
    ensures Ending(c)
  {
    hide Count, TimesWritten, NeverWritten, SurelyWritten;
    assert PlacesOk(c, None) by {
      forall id: RequestId ensures Places(c, id) == Places(b, id) {}
    }
    LogUntouched(b, c);
    if b.stopRegistered.Some? && StopJobQueued(b, b.stopRegistered.value) {
      assert StopJobQueued(c, b.stopRegistered.value);
    }
  }

  lemma RejectAllEnds(b: Engine, code: Code)
    requires Ending(b) && (code.SessionClosed? || code.DeviceDetached?)
    ensures var t := RejectAll(b, code);
            && Ending(t)
            && t == b.(active := None, queue := [], stopPending := None, outcomes := t.outcomes, jobs := t.jobs,
                       timers := t.timers)
            && t.timers == (if b.active.Some? then b.timers - {b.active.value.id} else b.timers)
  {
    hide Count, TimesWritten, NeverWritten, SurelyWritten, LogOk, PlacesOk, MidStop, JobsOk, RejectActive, Settle,
      SettleAll, AbortStop;
    var c := RejectActive(b, code);
    ActiveIsRejected(b, code);
    EmptyingSettles(c, StopAbortedBySessionEnd, Rejected(code));
    var t := RejectAll(b, code);
    SureCodes();
    EmptiedPlaces(c, t, StopAbortedBySessionEnd, Rejected(code));
    EmptiedLog(c, t, StopAbortedBySessionEnd, Rejected(code));
    EmptiedStop(c, t, StopAbortedBySessionEnd, Rejected(code));
  }

  /** Nothing open is left, so only the lease and the callbacks are still to be looked at. */
  lemma EndedIsMid(s: Engine, r: Engine, t: Engine)
    requires Mid(s, None) && Ending(r)
    requires r.active.None? && r.queue == [] && r.stopPending.None? && r.token.None? && r.timers == {}
    requires r.leaseEpoch.None? && r.retired == s.retired && r.faultEpochs == s.faultEpochs
             && r.nextToken == s.nextToken
    requires r.invalidated == s.invalidated + (if s.token.Some? then {s.token.value} else {})
    requires r.writing == s.writing && r.restarting == s.restarting && r.epoch == s.epoch && r.writes == s.writes
    requires t == r.(state := Disconnected, disconnectCause := t.disconnectCause)
    ensures Mid(t, None) && Quiet(t)
  {
    hide Count, TimesWritten, NeverWritten, SurelyWritten;
    assert PlacesOk(t, None) by {
      forall id: RequestId ensures Places(t, id) == Places(r, id) {}
    }
    LogUntouched(r, t);
    if r.stopRegistered.Some? && StopJobQueued(r, r.stopRegistered.value) {
      assert StopJobQueued(t, r.stopRegistered.value);
    }
  }

  lemma DetachIsCalm(s: Engine)
    requires Mid(s, None) && Quiet(s)
    ensures Calm(s, DoDetach(s)) && DoDetach(s).writes == s.writes
  {
    hide PlacesOk, LogOk, MidStop, JobsOk, ProbeOk, HandOk, RejectAll;
    var b := InvalidateLease(s).(disconnectCause := Some(DeviceDetached), state := Disconnected);
    SessionEnds(s, b);
    RejectAllEnds(b, DeviceDetached);
    EndedIsMid(s, RejectAll(b, DeviceDetached), DoDetach(s));
  }

  lemma DisposeIsCalm(s: Engine)
    requires Mid(s, None) && Quiet(s)
    ensures Calm(s, DoDispose(s)) && DoDispose(s).writes == s.writes
  {
    hide PlacesOk, LogOk, MidStop, JobsOk, ProbeOk, HandOk, RejectAll;
    if s.disposed {
    } else if s.state.Disconnected? {
      DisposedLate(s);
    } else {
      var b := InvalidateLease(s.(disposed := true)).(state := Closing);
      SessionEnds(s, b);
      RejectAllEnds(b, SessionClosed);
      EndedIsMid(s, RejectAll(b, SessionClosed), DoDispose(s));
    }
  }

  lemma DisposedLate(s: Engine)
    requires Mid(s, None) && Quiet(s) && s.state.Disconnected?
    ensures var t := InvalidateLease(s.(disposed := true)); Mid(t, None) && Quiet(t)
  {
    hide Count, TimesWritten, NeverWritten, SurelyWritten;
    var t := InvalidateLease(s.(disposed := true));
    assert PlacesOk(t, None) by {
      forall id: RequestId ensures Places(t, id) == Places(s, id) {}
    }
    LogUntouched(s, t);
    if s.stopRegistered.Some? && StopJobQueued(s, s.stopRegistered.value) {
      assert StopJobQueued(t, s.stopRegistered.value);
    }
  }

  // ---------------------------------------------------------------- the lease

  lemma AcquireIsCalm(s: Engine)
    requires Mid(s, None) && Quiet(s)
    ensures Calm(s, DoAcquire(s))
  {
    hide PlacesOk, LogOk, CallbacksOk, ProbeOk, MidStop, JobsOk;
    var t := DoAcquire(s);
    LeaseChangePlaces(s, t, None);
    LeaseChangeLog(s, t);
    LeaseChangeStop(s, t, None);
  }

  lemma ReleaseIsCalm(s: Engine, token: Token)
    requires Mid(s, None) && Quiet(s)
    ensures Calm(s, DoRelease(s, token))
  {
    hide PlacesOk, LogOk, CallbacksOk, ProbeOk, MidStop, JobsOk;
    var t := DoRelease(s, token);
    LeaseChangePlaces(s, t, None);
    LeaseChangeLog(s, t);
    LeaseChangeStop(s, t, None);
  }

  lemma FaultIsCalm(s: Engine, token: Token)
    requires Mid(s, None) && Quiet(s)
    ensures Calm(s, DoFaultByToken(s, token))
  {
    hide PlacesOk, LogOk, CallbacksOk, LeaseOk, ProbeOk, MidStop, JobsOk, FaultLease;
    FaultLeaseShape(s);
    if s.token == Some(token) {
      DropLeaseIsMid(s, FaultLease(s), None);
    }
  }

  // ---------------------------------------------------------------- every step, every run

  lemma ActIsCalm(env: Env, s: Engine, e: Event)
    requires Mid(s, None) && Quiet(s) && Possible(s, e)
    ensures Calm(s, Act(env, s, e))
  {
    hide Mid, Quiet, DoRequest, DoLeaseRequest, DoEmergencyStop, DoWriteOk, DoWriteFailed, DoTimeout, DoFrames,
      DoRestartOk, DoRestartFailed, DoDetach, DoDispose, DoAcquire, DoRelease, DoFaultByToken, Moved;
    match e {
      case Request(spec) => RequestIsCalm(env, s, spec);
      case LeaseRequest(token, spec) => LeaseRequestIsCalm(env, s, token, spec);
      case EmergencyStop(token, spec) => EmergencyStopIsCalm(env, s, token, spec);
      case WriteOk(id) => WriteOkIsCalm(env, s, id);
      case WriteFailed(id, f) => WriteFailedIsCalm(env, s, id, f);
      case TimerFired(id) => TimeoutIsCalm(env, s, id);
      case Frames(fs) => FramesAreCalm(env, s, fs);
      case RestartOk(epoch) => RestartOkIsCalm(env, s, epoch);
      case RestartFailed(epoch) => RestartFailedIsCalm(s, epoch);
      case Detach => DetachIsCalm(s);
      case Dispose => DisposeIsCalm(s);
      case Acquire => AcquireIsCalm(s);
      case ReleaseLease(token) => ReleaseIsCalm(s, token);
      case FaultByToken(token) => FaultIsCalm(s, token);
    }
  }

  /** Every external event keeps the invariant, and moves state and epoch only as recovery allows. */
  lemma StepKeepsInv(env: Env, s: Engine, e: Event)
    requires Inv(s)
    ensures Inv(Step(env, s, e)) && Moved(s, Step(env, s, e))
  {
    hide Inv, Mid, Quiet, Act, Drain;
    InvIsMid(s);
    if Possible(s, e) {
      ActIsCalm(env, s, e);
      DrainIsInv(Act(env, s, e));
    }
  }

  lemma {:induction false} RunKeepsInv(env: Env, s: Engine, events: seq<Event>)
    requires Inv(s)
    ensures Inv(Run(env, s, events))
    decreases |events|
  {
    hide Inv, Step;
    if events != [] {
      RunKeepsInv(env, s, events[..|events| - 1]);
      StepKeepsInv(env, Run(env, s, events[..|events| - 1]), events[|events| - 1]);
    }
  }

  lemma ReachableInv(env: Env, events: seq<Event>)
    ensures Inv(Run(env, INITIAL, events))
  {
    InitialInv();
    RunKeepsInv(env, INITIAL, events);
  }
}
