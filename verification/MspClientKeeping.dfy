/** When a held lease is lost, as an equivalence over every event; and that an answered stop keeps it. */
module MspClientKeeping {
  import opened MspTypes
  import opened MspClientModel
  import opened MspClientInvariants
  import opened MspClientRuns
  import opened MspClientHistory
  import opened MspClientLease

  /** Since `base` a request below the limit has failed. */
  ghost predicate Blamed(base: Engine, limit: nat, u: Engine) {
    exists id: RequestId :: id < limit && id !in base.outcomes && id in u.outcomes && Faulting(u.outcomes[id])
  }

  /** What the reaction of a lease-scoped request does not let pass: any rejection of a stop, any failure of another. */
  predicate Harmful(origin: Origin, o: Outcome) {
    o.Rejected? && (origin.Stop? || !Displacement(o))
  }

  /** Nothing has happened to the lease since `base`, and no queued reaction will do anything to it. */
  ghost predicate Innocent(base: Engine, u: Engine) {
    && u.token == base.token && u.leaseEpoch == base.leaseEpoch
    && u.faultEpochs == base.faultEpochs && u.invalidated == base.invalidated && u.retired == base.retired
    && (forall i :: 0 <= i < |u.jobs| ==> !Harmful(u.jobs[i].origin, u.jobs[i].outcome))
  }

  ghost predicate Spared(base: Engine, limit: nat, u: Engine) {
    && (forall id :: id in base.outcomes ==> id in u.outcomes && u.outcomes[id] == base.outcomes[id])
    && (Blamed(base, limit, u) || Innocent(base, u))
  }

  lemma BlamedStays(base: Engine, limit: nat, u: Engine, v: Engine)
    requires Blamed(base, limit, u) && Grew(u, v)
    ensures Blamed(base, limit, v)
  {
    hide Faulting;
    var id :| id < limit && id !in base.outcomes && id in u.outcomes && Faulting(u.outcomes[id]);
    assert v.outcomes[id] == u.outcomes[id];
  }

  /** Fields no lease depends on. */
  lemma SparedElsewhere(base: Engine, limit: nat, u: Engine, v: Engine)
    requires Spared(base, limit, u)
    requires v.outcomes == u.outcomes && v.jobs == u.jobs && v.token == u.token && v.leaseEpoch == u.leaseEpoch
    requires v.faultEpochs == u.faultEpochs && v.invalidated == u.invalidated && v.retired == u.retired
    ensures Spared(base, limit, v)
  {
    hide Faulting;
  }

  /** A settlement either is no failure, or names the request to blame. */
  lemma SettleSpared(base: Engine, limit: nat, u: Engine, id: RequestId, origin: Origin, o: Outcome)
    requires Spared(base, limit, u) && (Faulting(o) ==> id !in u.outcomes && id < limit)
    requires Displacement(o) ==> !origin.Stop?
    ensures Spared(base, limit, Settle(u, id, origin, o))
    ensures Faulting(o) ==> Blamed(base, limit, Settle(u, id, origin, o))
  {
    hide Faulting, Harmful, Displacement;
    WhatHarms(origin, o);
    var v := Settle(u, id, origin, o);
    if Blamed(base, limit, u) {
      SettleGrew(u, id, origin, o);
      BlamedStays(base, limit, u, v);
    }
    if Faulting(o) {
      assert id in v.outcomes && v.outcomes[id] == o;
    } else if !Blamed(base, limit, u) {
      assert Innocent(base, v);
    }
  }

  lemma WhatHarms(origin: Origin, o: Outcome)
    ensures Harmful(origin, o) <==> Faulting(o) || (origin.Stop? && Displacement(o))
  {
  }

  lemma {:induction false} SettleAllSpared(base: Engine, limit: nat, u: Engine, rs: seq<PendingRequest>, o: Outcome)
    requires Spared(base, limit, u) && Displacement(o) && forall i :: 0 <= i < |rs| ==> !rs[i].origin.Stop?
    ensures Spared(base, limit, SettleAll(u, rs, o))
    decreases |rs|
  {
    hide Settle, Spared, Blamed;
    if rs != [] {
      SettleSpared(base, limit, u, rs[0].id, rs[0].origin, o);
      SettleAllSpared(base, limit, Settle(u, rs[0].id, rs[0].origin, o), rs[1..], o);
    }
  }

  lemma GrewSpared(base: Engine, limit: nat, u: Engine, v: Engine)
    requires Spared(base, limit, u) && Blamed(base, limit, u) && Grew(u, v)
    ensures Spared(base, limit, v)
  {
    hide Faulting, Innocent, Blamed;
    BlamedStays(base, limit, u, v);
    assert forall id :: id in u.outcomes ==> id in v.outcomes && v.outcomes[id] == u.outcomes[id];
  }

  /** The active request fails: it is to blame for whatever follows. */
  lemma FailureSpared(env: Env, base: Engine, limit: nat, u: Engine, id: RequestId, origin: Origin, o: Outcome)
    requires Spared(base, limit, u) && Faulting(o) && id !in u.outcomes && id < limit
    ensures
      var t := Settle(u, id, origin, o).(active := None);
      Spared(base, limit, t) && Spared(base, limit, Pump(env, t)) && Spared(base, limit, DesyncLatch(env, t))
  {
    hide Settle, Faulting, Spared, Blamed, Pump, DesyncLatch, Grew;
    var v := Settle(u, id, origin, o);
    var t := v.(active := None);
    assert !Displacement(o) by { FailureIsNoDisplacement(o); }
    SettleSpared(base, limit, u, id, origin, o);
    GrewSame(v, t);
    GrewSpared(base, limit, v, t);
    BlamedStays(base, limit, v, t);
    PumpGrew(env, t);
    GrewSpared(base, limit, t, Pump(env, t));
    DesyncGrew(env, t);
    GrewSpared(base, limit, t, DesyncLatch(env, t));
  }

  lemma FailingCodes()
    ensures Faulting(Rejected(EncodeFailed)) && Faulting(Rejected(WriteOutcomeUnknown)) && Faulting(Rejected(Timeout))
    ensures Faulting(Rejected(RemoteError)) && Faulting(Rejected(ProbeFailed))
    ensures !Faulting(Rejected(DisplacedQueued)) && !Faulting(Rejected(DisplacedInFlight))
    ensures forall f: MspFrame :: !Faulting(Resolved(f))
    ensures forall f: WriteFailure :: Faulting(Rejected(ClassifyWriteFailure(f)))
  {
  }

  lemma FailureIsNoDisplacement(o: Outcome)
    requires Faulting(o)
    ensures !Displacement(o)
  {
  }

  lemma AnswersAreWritten(f: MspFrame)
    ensures !NeverWritten(Resolved(f)) && !Faulting(Resolved(f)) && !Displacement(Resolved(f))
  {
  }

  /** Only another request is ever marked as displaced, and nothing queued is a stop. */
  lemma DisplacedIsNoStop(s: Engine)
    requires Mid(s, None)
    ensures s.active.Some? && s.active.value.displacedByEmergencyStop ==> !s.active.value.origin.Stop?
    ensures forall i :: 0 <= i < |s.queue| ==> !s.queue[i].origin.Stop?
  {
    hide Count, LogOk, CallbacksOk, LeaseOk, JobsOk;
    if s.active.Some? {
      assert Places(s, s.active.value.id) <= 1;
    }
  }

  lemma HandIsFresh(s: Engine, r: PendingRequest)
    requires PlacesOk(s, Some(r))
    ensures r.id !in s.outcomes && r.id < s.nextId
  {
    hide Count;
    assert Places(s, r.id) + InSlot(Some(r), r.id) == if r.id < s.nextId then 1 else 0;
  }

  lemma {:induction false} PumpSpared(env: Env, base: Engine, limit: nat, s: Engine)
    requires CanPump(s) && s.nextId <= limit && Spared(base, limit, s)
    ensures Spared(base, limit, Pump(env, s))
    decreases Backlog(s), 0
  {
    hide Mid, StartRequest, Spared;
    if s.state == Ready && s.active.None? {
      if s.stopPending.Some? {
        StopIsTaken(s);
        SparedTaken(base, limit, s, s.(stopPending := None));
        StartSpared(env, base, limit, s.(stopPending := None), s.stopPending.value);
      } else if s.queue != [] {
        HeadIsTaken(s);
        SparedTaken(base, limit, s, s.(queue := s.queue[1..]));
        StartSpared(env, base, limit, s.(queue := s.queue[1..]), s.queue[0]);
      }
    }
  }

  lemma SparedTaken(base: Engine, limit: nat, u: Engine, v: Engine)
    requires Spared(base, limit, u)
    requires v == u.(queue := v.queue, stopPending := v.stopPending, active := v.active, writes := v.writes,
                     writing := v.writing, timers := v.timers, restarting := v.restarting, nextId := v.nextId,
                     state := v.state, stopRegistered := v.stopRegistered, stopAmbiguous := v.stopAmbiguous,
                     stopDeferred := v.stopDeferred)
    ensures Spared(base, limit, v)
  {
    hide Faulting;
    SparedElsewhere(base, limit, u, v);
  }

  lemma {:induction false} StartSpared(env: Env, base: Engine, limit: nat, s: Engine, r: PendingRequest)
    requires CanStart(s, r) && s.nextId <= limit && Spared(base, limit, s)
    requires r.origin.Probe? ==> r.spec.Encodable() && s.queue == []
    ensures Spared(base, limit, StartRequest(env, s, r))
    decreases Backlog(s), 1
  {
    hide Activated, Settle, DesyncLatch, Pump, PlacesOk, LogOk, CallbacksOk, LeaseOk, ProbeOk, MidStop, JobsOk,
      Faulting,
      Spared, Blamed;
    FailingCodes();
    HandIsFresh(s, r);
    if !r.spec.Encodable() {
      DroppedIsMid(s, r, Rejected(EncodeFailed));
      SettleKeepsId(s, r.id, r.origin, Rejected(EncodeFailed));
      SettleSpared(base, limit, s, r.id, r.origin, Rejected(EncodeFailed));
      PumpSpared(env, base, limit, Settle(s, r.id, r.origin, Rejected(EncodeFailed)));
    } else {
      ActivatedShape(s, r);
      var s1 := Activated(s, r);
      SparedTaken(base, limit, s, s1);
      FailureSpared(env, base, limit, s1, r.id, r.origin,
                    Rejected(if r.origin.Probe? then ProbeFailed else WriteOutcomeUnknown));
      SparedTaken(base, limit, s1, s1.(writing := s1.writing + {r.id}));
    }
  }

  lemma SettleKeepsId(s: Engine, id: RequestId, origin: Origin, o: Outcome)
    ensures Settle(s, id, origin, o).nextId == s.nextId
  {
  }

  // ---------------------------------------------------------------- events

  lemma ActiveIsFresh(s: Engine)
    requires Mid(s, None) && s.active.Some?
    ensures s.active.value.id !in s.outcomes && s.active.value.id < s.nextId
  {
    hide Count, LogOk, CallbacksOk, LeaseOk, ProbeOk, MidStop, JobsOk;
    assert Places(s, s.active.value.id) + InSlot(None, s.active.value.id)
           == if s.active.value.id < s.nextId then 1 else 0;
  }

  /** The active request is settled without a failure, and the pump follows. */
  lemma FinishedSpared(env: Env, base: Engine, limit: nat, s: Engine, s0: Engine, o: Outcome)
    requires Mid(s, None) && Quiet(s) && s.active.Some? && s.nextId <= limit && Spared(base, limit, s)
    requires s0 == s.(writing := s0.writing, timers := s.timers - {s.active.value.id}) && s0.writing <= s.writing
    requires !NeverWritten(o) && !Faulting(o) && (Displacement(o) ==> !s.active.value.origin.Stop?)
    ensures
      var a := s.active.value;
      var t := Settle(s0, a.id, a.origin, o).(active := None);
      Spared(base, limit, t) && Spared(base, limit, Pump(env, t))
  {
    hide Mid, Quiet, Settle, Pump, Spared, Faulting, NeverWritten;
    var a := s.active.value;
    ActiveIsFresh(s);
    SparedTaken(base, limit, s, s0);
    SettleSpared(base, limit, s0, a.id, a.origin, o);
    var t := Settle(s0, a.id, a.origin, o).(active := None);
    SparedTaken(base, limit, Settle(s0, a.id, a.origin, o), t);
    SettleKeepsId(s0, a.id, a.origin, o);
    FinishFromCalm(s, s0, o);
    PumpSpared(env, base, limit, t);
  }

  lemma WriteSettledSpared(env: Env, s: Engine, limit: nat, id: RequestId, f: WriteFailure)
    requires Mid(s, None) && Quiet(s) && id in s.writing && s.nextId <= limit && Spared(s, limit, s)
    ensures Spared(s, limit, DoWriteOk(env, s, id)) && Spared(s, limit, DoWriteFailed(env, s, id, f))
  {
    hide PlacesOk, LogOk, LeaseOk, ProbeOk, MidStop, JobsOk, Quiet, Settle, Pump, DesyncLatch, Spared, Faulting,
      NeverWritten;
    var s0 := s.(writing := s.writing - {id});
    SparedTaken(s, limit, s, s0);
    FailingCodes();
    SureCodes();
    if s.active.Some? && s.active.value.id == id {
      var a := s.active.value;
      ActiveIsFresh(s);
      assert s0.timers == s.timers - {id};
      SparedTaken(s, limit, s, s0.(active := Some(a.(phase := AwaitingResponse)), timers := s0.timers + {id}));
      if a.displacedByEmergencyStop {
        DisplacedIsNoStop(s);
        FinishedSpared(env, s, limit, s, s0, Rejected(DisplacedInFlight));
      }
      FailureSpared(env, s, limit, s0, id, a.origin, Rejected(ProbeFailed));
      FailureSpared(env, s, limit, s0, id, a.origin, Rejected(ClassifyWriteFailure(f)));
    }
  }

  lemma TimeoutSpared(env: Env, s: Engine, limit: nat, id: RequestId)
    requires Mid(s, None) && Quiet(s) && s.nextId <= limit && Spared(s, limit, s)
    ensures Spared(s, limit, DoTimeout(env, s, id))
  {
    hide Mid, Quiet, Settle, DesyncLatch, Pump, Spared, Faulting;
    var s0 := s.(timers := s.timers - {id});
    SparedTaken(s, limit, s, s0);
    FailingCodes();
    if s.active.Some? && s.active.value.id == id {
      ActiveIsFresh(s);
      FailureSpared(env, s, limit, s0, id, s.active.value.origin, Rejected(ProbeFailed));
      FailureSpared(env, s, limit, s0, id, s.active.value.origin, Rejected(Timeout));
    }
  }

  lemma FrameSpared(env: Env, base: Engine, limit: nat, s: Engine, f: MspFrame)
    requires Mid(s, None) && Quiet(s) && s.nextId <= limit && Spared(base, limit, s)
    ensures Spared(base, limit, DoFrame(env, s, f)) && DoFrame(env, s, f).nextId == s.nextId
  {
    hide Mid, Quiet, Settle, Pump, Spared, Faulting, NeverWritten;
    FailingCodes();
    AnswersAreWritten(f);
    if Matches(s, f) {
      var a := s.active.value;
      var s0 := s.(timers := s.timers - {a.id});
      ActiveIsFresh(s);
      SparedTaken(base, limit, s, s0);
      FailureSpared(env, base, limit, s0, a.id, a.origin, Rejected(RemoteError));
      FinishedSpared(env, base, limit, s, s0, Resolved(f));
      FrameKeepsId(env, s, f);
    }
  }

  lemma FrameKeepsId(env: Env, s: Engine, f: MspFrame)
    ensures DoFrame(env, s, f).nextId == s.nextId
  {
    hide Pump, Settle;
    if Matches(s, f) {
      var a := s.active.value;
      var o := if f.direction.Error? && !a.origin.Probe? then Rejected(RemoteError) else Resolved(f);
      SettleKeepsId(s.(timers := s.timers - {a.id}), a.id, a.origin, o);
      PumpKeepsId(env, Settle(s.(timers := s.timers - {a.id}), a.id, a.origin, o).(active := None));
    }
  }

  lemma {:induction false} PumpKeepsId(env: Env, s: Engine)
    ensures Pump(env, s).nextId == s.nextId
    decreases Backlog(s), 0
  {
    hide StartRequest;
    if s.state == Ready && s.active.None? {
      if s.stopPending.Some? {
        StartKeepsId(env, s.(stopPending := None), s.stopPending.value);
      } else if s.queue != [] {
        StartKeepsId(env, s.(queue := s.queue[1..]), s.queue[0]);
      }
    }
  }

  lemma {:induction false} StartKeepsId(env: Env, s: Engine, r: PendingRequest)
    ensures StartRequest(env, s, r).nextId == s.nextId
    decreases Backlog(s), 1
  {
    hide Settle, DesyncLatch, Pump;
    if !r.spec.Encodable() {
      SettleKeepsBacklog(s, r.id, r.origin, Rejected(EncodeFailed));
      SettleKeepsId(s, r.id, r.origin, Rejected(EncodeFailed));
      PumpKeepsId(env, Settle(s, r.id, r.origin, Rejected(EncodeFailed)));
    } else {
      var t := Activated(s, r);
      var o := Rejected(if r.origin.Probe? then ProbeFailed else WriteOutcomeUnknown);
      SettleKeepsId(t, r.id, r.origin, o);
      LatchKeepsId(env, Settle(t, r.id, r.origin, o).(active := None));
    }
  }

  lemma LatchKeepsId(env: Env, s: Engine)
    ensures DesyncLatch(env, s).nextId == s.nextId
  {
    hide FaultLease, Settle, SettleAll;
    FaultLeaseChanges(s);
    var f := FaultLease(s);
    if f.stopPending.Some? {
      SettleKeepsId(f.(stopPending := None), f.stopPending.value.id, f.stopPending.value.origin,
                    Rejected(StopAbortedByDesync));
    }
    var a := AbortStop(f, StopAbortedByDesync);
    SettleAllKeepsId(a.(queue := []), a.queue, Rejected(Recovering));
  }

  lemma {:induction false} SettleAllKeepsId(s: Engine, rs: seq<PendingRequest>, o: Outcome)
    ensures SettleAll(s, rs, o).nextId == s.nextId
    decreases |rs|
  {
    hide Settle;
    if rs != [] {
      SettleKeepsId(s, rs[0].id, rs[0].origin, o);
      SettleAllKeepsId(Settle(s, rs[0].id, rs[0].origin, o), rs[1..], o);
    }
  }

  lemma {:induction false} FramesSpared(env: Env, base: Engine, limit: nat, s: Engine, fs: seq<MspFrame>)
    requires Mid(s, None) && Quiet(s) && s.nextId <= limit && Spared(base, limit, s)
    ensures Spared(base, limit, DoFrames(env, s, fs))
    decreases |fs|
  {
    hide DoFrame, Mid, Quiet, Spared;
    if fs != [] {
      FrameSpared(env, base, limit, s, fs[0]);
      FrameIsCalm(env, s, fs[0]);
      FramesSpared(env, base, limit, DoFrame(env, s, fs[0]), fs[1..]);
    }
  }

  /** A refusal outside the lease touches nothing; one inside it is a failure. */
  lemma RefuseSpared(s: Engine, limit: nat, origin: Origin, code: Code)
    requires Mid(s, None) && Spared(s, limit, s) && (origin.Ordinary? || s.nextId < limit)
    requires code.LeaseHeld? || code.CapabilityInvalid? || code.QueueFull? || CheckAcceptance(s) == Some(code)
    ensures Spared(s, limit, Refuse(s, origin, code))
  {
    hide LogOk, CallbacksOk, LeaseOk, ProbeOk, MidStop, JobsOk, PlacesOk, Faulting, Settle, Spared;
    var t := s.(nextId := s.nextId + 1);
    NextIsFresh(s);
    if origin.Ordinary? {
      OrdinaryRefusal(s, limit, code);
    } else {
      SparedTaken(s, limit, s, t);
      RefusalsFail(s, code);
      SettleSpared(s, limit, t, s.nextId, origin, Rejected(code));
    }
  }

  lemma OrdinaryRefusal(s: Engine, limit: nat, code: Code)
    requires Spared(s, limit, s) && s.nextId !in s.outcomes
    ensures Spared(s, limit, Refuse(s, Ordinary, code))
  {
    hide Harmful, Faulting;
    assert Innocent(s, Refuse(s, Ordinary, code));
  }

  lemma RefusalsFail(s: Engine, code: Code)
    requires code.LeaseHeld? || code.CapabilityInvalid? || code.QueueFull? || CheckAcceptance(s) == Some(code)
    ensures Faulting(Rejected(code)) && !Displacement(Rejected(code))
  {
  }

  lemma NextIsFresh(s: Engine)
    requires PlacesOk(s, None)
    ensures s.nextId !in s.outcomes
  {
    hide Count;
    assert Places(s, s.nextId) + InSlot(None, s.nextId) == 0;
  }

  lemma LeaseRequestSpared(env: Env, s: Engine, limit: nat, token: Token, spec: RequestSpec)
    requires Mid(s, None) && Quiet(s) && s.token.Some? && Spared(s, limit, s)
    requires s.token == Some(token) ==> s.nextId < limit
    ensures Spared(s, limit, DoLeaseRequest(env, s, token, spec))
  {
    hide Mid, Quiet, Refuse, Pump, Spared;
    if s.token != Some(token) {
      RefuseSpared(s, limit, Ordinary, CapabilityInvalid);
    } else {
      var t := s.(nextId := s.nextId + 1, queue := s.queue + [PendingRequest(s.nextId, spec, Leased(token))]);
      var rejection := CheckAcceptance(s);
      if rejection.Some? {
        RefuseSpared(s, limit, Leased(token), rejection.value);
      } else if |s.queue| >= env.maxPending {
        RefuseSpared(s, limit, Leased(token), QueueFull);
      } else {
        QueuedCanPump(s, spec, Leased(token));
        SparedTaken(s, limit, s, t);
        PumpSpared(env, s, limit, t);
      }
    }
  }

  lemma EmergencyStopSpared(env: Env, s: Engine, limit: nat, token: Token, spec: RequestSpec)
    requires Mid(s, None) && Quiet(s) && s.token.Some? && Spared(s, limit, s)
    requires StopAccepted(s, token) ==> s.nextId < limit
    ensures Spared(s, limit, DoEmergencyStop(env, s, token, spec))
  {
    hide Mid, Quiet, Refuse, RegisterStop, Pump, Spared;
    if s.token != Some(token) {
      RefuseSpared(s, limit, Ordinary, CapabilityInvalid);
    } else if s.stopRegistered.Some? {
    } else if CheckAcceptance(s).Some? {
      RefuseSpared(s, limit, Ordinary, CheckAcceptance(s).value);
    } else {
      RegisteredCanPump(s, token, spec);
      DisplacedIsNoStop(s);
      ActiveIsNoStop(s);
      RegisterSpared(s, limit, token, spec);
      PumpSpared(env, s, limit, RegisterStop(s, token, spec));
    }
  }

  lemma ActiveIsNoStop(s: Engine)
    requires Mid(s, None) && s.stopRegistered.None?
    ensures s.active.Some? ==> !s.active.value.origin.Stop?
  {
    hide PlacesOk, LogOk, CallbacksOk, LeaseOk, JobsOk, ProbeOk;
  }

  lemma {:induction false} SettleAllKeepsActive(s: Engine, rs: seq<PendingRequest>, o: Outcome)
    ensures SettleAll(s, rs, o).active == s.active
    decreases |rs|
  {
    if rs != [] {
      SettleAllKeepsActive(Settle(s, rs[0].id, rs[0].origin, o), rs[1..], o);
    }
  }

  lemma RegisterSpared(s: Engine, limit: nat, token: Token, spec: RequestSpec)
    requires Spared(s, limit, s) && (s.active.Some? ==> !s.active.value.origin.Stop?)
    requires forall i :: 0 <= i < |s.queue| ==> !s.queue[i].origin.Stop?
    ensures Spared(s, limit, RegisterStop(s, token, spec)) && RegisterStop(s, token, spec).nextId == s.nextId + 1
  {
    hide SettleAll, Settle, Spared, Faulting;
    FailingCodes();
    var q := s.(queue := []);
    SparedTaken(s, limit, s, q);
    var p := SettleAll(q, s.queue, Rejected(DisplacedQueued));
    SettleAllSpared(s, limit, q, s.queue, Rejected(DisplacedQueued));
    SettleAllKeepsActive(q, s.queue, Rejected(DisplacedQueued));
    if p.active.Some? {
      var a := p.active.value;
      var p0 := p.(timers := p.timers - {a.id});
      SparedTaken(s, limit, p, p0);
      SettleSpared(s, limit, p0, a.id, a.origin, Rejected(DisplacedInFlight));
      SettleKeepsId(p0, a.id, a.origin, Rejected(DisplacedInFlight));
      SparedTaken(s, limit, Settle(p0, a.id, a.origin, Rejected(DisplacedInFlight)),
                  Settle(p0, a.id, a.origin, Rejected(DisplacedInFlight)).(active := None));
      SparedTaken(s, limit, p, p.(active := Some(a.(displacedByEmergencyStop := true))));
    }
    SparedTaken(s, limit, DisplaceActive(p), RegisterStop(s, token, spec));
  }

  /** The events that end a lease by themselves. */
  predicate EndsTheLease(s: Engine, e: Event)
    requires s.token.Some?
  {
    || e.Detach? || e.Dispose? || e == FaultByToken(s.token.value)
    || (e == ReleaseLease(s.token.value) && s.active.None? && s.queue == [] && s.stopPending.None?)
  }

  lemma ActSpared(env: Env, s: Engine, e: Event)
    requires Inv(s) && s.token.Some? && Possible(s, e) && !EndsTheLease(s, e)
    ensures Spared(s, Limit(s, e), Act(env, s, e))
  {
    hide Inv, Mid, Quiet, DoWriteOk, DoWriteFailed, DoTimeout, DoFrames, DoEmergencyStop, DoLeaseRequest, Spared,
      Refuse;
    InvIsMid(s);
    HeldFacts(s);
    var limit := Limit(s, e);
    assert Spared(s, limit, s) by { NothingYet(s, limit); }
    match e {
      case Request(spec) => RefuseSpared(s, limit, Ordinary, LeaseHeld);
      case LeaseRequest(token, spec) => LeaseRequestSpared(env, s, limit, token, spec);
      case EmergencyStop(token, spec) => EmergencyStopSpared(env, s, limit, token, spec);
      case WriteOk(id) => WriteSettledSpared(env, s, limit, id, OtherFailure);
      case WriteFailed(id, f) => WriteSettledSpared(env, s, limit, id, f);
      case TimerFired(id) => TimeoutSpared(env, s, limit, id);
      case Frames(fs) => FramesSpared(env, s, limit, s, fs);
      case RestartOk(epoch) => StaleRestart(env, s, epoch, limit);
      case RestartFailed(epoch) => StaleRestart(env, s, epoch, limit);
      case Acquire => OtherTokens(env, s, e);
      case ReleaseLease(token) => OtherTokens(env, s, e);
      case FaultByToken(token) => OtherTokens(env, s, e);
      case Detach =>
      case Dispose =>
    }
  }

  lemma HeldFacts(s: Engine)
    requires Inv(s) && s.token.Some?
    ensures s.state.Ready? && s.jobs == [] && s.epoch !in s.restarting
    ensures s.token.value !in s.retired && s.token.value !in s.invalidated
  {
    hide PlacesOk, LogOk, ProbeOk, StopOk;
  }

  lemma NothingYet(s: Engine, limit: nat)
    requires s.jobs == []
    ensures Spared(s, limit, s)
  {
  }

  /** A restart promise of an earlier recovery concerns nobody. */
  lemma StaleRestart(env: Env, s: Engine, epoch: nat, limit: nat)
    requires s.state.Ready? && epoch in s.restarting && s.epoch !in s.restarting && Spared(s, limit, s)
    ensures Spared(s, limit, DoRestartOk(env, s, epoch)) && Spared(s, limit, DoRestartFailed(s, epoch))
  {
    hide StartRequest, Spared;
    SparedTaken(s, limit, s, s.(restarting := s.restarting - {epoch}));
  }

  lemma OtherTokens(env: Env, s: Engine, e: Event)
    requires s.token.Some? && s.token.value !in s.retired && s.token.value !in s.invalidated
    requires e.Acquire? || e.ReleaseLease? || e.FaultByToken?
    requires !EndsTheLease(s, e)
    ensures Act(env, s, e) == s
  {
  }

  // ---------------------------------------------------------------- reactions

  /** Reactions to what is no failure leave the lease alone. */
  lemma {:induction false} DrainSpares(base: Engine, u: Engine)
    requires Innocent(base, u)
    ensures Innocent(base, Drain(u))
    decreases |u.jobs|
  {
    hide React;
    if u.jobs != [] {
      var v := React(u.(jobs := u.jobs[1..]), u.jobs[0]);
      ReactSpares(base, u);
      DrainSpares(base, v);
    }
  }

  lemma ReactSpares(base: Engine, u: Engine)
    requires Innocent(base, u) && u.jobs != []
    ensures Innocent(base, React(u.(jobs := u.jobs[1..]), u.jobs[0]))
    ensures React(u.(jobs := u.jobs[1..]), u.jobs[0]).jobs == u.jobs[1..]
  {
    assert !Harmful(u.jobs[0].origin, u.jobs[0].outcome);
    ReactLeavesJobs(u);
  }

  /** A request of the lease that fails in this very event, for any reason but displacement by the lease's stop. */
  ghost predicate FailsOne(env: Env, s: Engine, e: Event) {
    exists id: RequestId :: id < Limit(s, e) && id !in s.outcomes && id in Step(env, s, e).outcomes
      && Step(env, s, e).outcomes[id].Rejected?
      && !Step(env, s, e).outcomes[id].code.DisplacedQueued? && !Step(env, s, e).outcomes[id].code.DisplacedInFlight?
  }

  lemma BlameIsFailure(env: Env, s: Engine, e: Event)
    ensures Blamed(s, Limit(s, e), Step(env, s, e)) <==> FailsOne(env, s, e)
  {
    hide Step, Limit;
    var t := Step(env, s, e);
    if Blamed(s, Limit(s, e), t) {
      var id :| id < Limit(s, e) && id !in s.outcomes && id in t.outcomes && Faulting(t.outcomes[id]);
      assert id in t.outcomes;
    }
    if FailsOne(env, s, e) {
      var id :| id < Limit(s, e) && id !in s.outcomes && id in t.outcomes && t.outcomes[id].Rejected?
                && !t.outcomes[id].code.DisplacedQueued? && !t.outcomes[id].code.DisplacedInFlight?;
      assert Faulting(t.outcomes[id]);
    }
  }

  /** An event that does not end the lease and fails none of its requests leaves everything about it as it was. */
  lemma UnblamedIsKept(env: Env, s: Engine, e: Event)
    requires Inv(s) && s.token.Some? && Possible(s, e) && !EndsTheLease(s, e)
    requires !FailsOne(env, s, e)
    ensures Innocent(s, Step(env, s, e))
  {
    hide Inv, Mid, Quiet, Act, Drain, Innocent, Blamed, FailsOne, Grew;
    InvIsMid(s);
    var u := Act(env, s, e);
    ActSpared(env, s, e);
    assert Mid(u, None) && Quiet(u) by { ActIsCalm(env, s, e); }
    DrainShape(u);
    BlameIsFailure(env, s, e);
    if Blamed(s, Limit(s, e), u) {
      BlamedStays(s, Limit(s, e), u, Drain(u));
    } else {
      DrainSpares(s, u);
    }
  }

  lemma EndedIsGone(env: Env, s: Engine, e: Event)
    requires Inv(s) && s.token.Some? && EndsTheLease(s, e)
    ensures Step(env, s, e).token.None?
  {
    hide Inv, Mid, Quiet, Drain, RejectAll;
    InvIsMid(s);
    HeldFacts(s);
    var u := Act(env, s, e);
    assert Mid(u, None) && Quiet(u) by { ActIsCalm(env, s, e); }
    assert u.token.None? by { EndedInCall(env, s, e); }
    NoneStaysNone(u);
  }

  lemma EndedInCall(env: Env, s: Engine, e: Event)
    requires s.token.Some? && EndsTheLease(s, e) && s.state.Ready? && Inv(s)
    requires s.token.value !in s.retired && s.token.value !in s.invalidated
    ensures Act(env, s, e).token.None?
  {
    hide PlacesOk, LogOk, CallbacksOk, ProbeOk, StopOk, RestOk, Settle, SettleAll;
    if e.Detach? {
      RejectAllKeepsToken(InvalidateLease(s).(disconnectCause := Some(DeviceDetached), state := Disconnected),
                          DeviceDetached);
    } else if e.Dispose? {
      RejectAllKeepsToken(InvalidateLease(s.(disposed := true)).(state := Closing), SessionClosed);
    }
  }

  lemma RejectAllKeepsToken(s: Engine, code: Code)
    ensures RejectAll(s, code).token == s.token
  {
    hide Settle, SettleAll;
    if s.active.Some? {
      SettleToken(s.(timers := s.timers - {s.active.value.id}), s.active.value.id, s.active.value.origin,
                  Rejected(code));
    }
    var r := RejectActive(s, code);
    if r.stopPending.Some? {
      SettleToken(r.(stopPending := None), r.stopPending.value.id, r.stopPending.value.origin,
                  Rejected(StopAbortedBySessionEnd));
    }
    var a := AbortStop(r, StopAbortedBySessionEnd);
    SettleAllToken(a.(queue := []), a.queue, Rejected(code));
  }

  lemma {:induction false} SettleAllToken(s: Engine, rs: seq<PendingRequest>, o: Outcome)
    ensures SettleAll(s, rs, o).token == s.token
    decreases |rs|
  {
    hide Settle;
    if rs != [] {
      SettleToken(s, rs[0].id, rs[0].origin, o);
      SettleAllToken(Settle(s, rs[0].id, rs[0].origin, o), rs[1..], o);
    }
  }

  lemma {:induction false} NoneStaysNone(u: Engine)
    requires u.token.None?
    ensures Drain(u).token.None?
    decreases |u.jobs|
  {
    hide React;
    if u.jobs != [] {
      assert React(u.(jobs := u.jobs[1..]), u.jobs[0]).token.None? by { ReactKeepsNone(u); }
      ReactLeavesJobs(u);
      NoneStaysNone(React(u.(jobs := u.jobs[1..]), u.jobs[0]));
    }
  }

  lemma ReactKeepsNone(u: Engine)
    requires u.token.None? && u.jobs != []
    ensures React(u.(jobs := u.jobs[1..]), u.jobs[0]).token.None?
  {
  }

  /**
   * WHEN A HELD LEASE IS LOST, as an equivalence over every event: it is released with no work open, failed closed by
   * its owner, the session ends, or one of its own requests fails in this event. In every other event nothing about it
   * changes: an answered stop keeps it, and so does a stop that displaces its own requests.
   */
  lemma LeaseIsLostExactlyWhen(env: Env, s: Engine, e: Event)
    requires Inv(s) && s.token.Some? && Possible(s, e)
    ensures
      var t := Step(env, s, e);
      && (t.token != s.token <==> EndsTheLease(s, e) || FailsOne(env, s, e))
      && (t.token == s.token ==> t.leaseEpoch == s.leaseEpoch && t.faultEpochs == s.faultEpochs
                                 && t.invalidated == s.invalidated && t.retired == s.retired)
  {
    hide Inv, Step, EndsTheLease, Limit;
    if EndsTheLease(s, e) {
      EndedIsGone(env, s, e);
    } else if FailsOne(env, s, e) {
      BlameIsFailure(env, s, e);
      var id :| id < Limit(s, e) && id !in s.outcomes && id in Step(env, s, e).outcomes
                && Faulting(Step(env, s, e).outcomes[id]);
      FailureKillsTheLease(env, s, e, id);
    } else {
      UnblamedIsKept(env, s, e);
    }
  }

  /**
   * AN ANSWERED STOP KEEPS ITS LEASE: with nothing queued behind it, the answer resolves the stop, clears its
   * registration, and leaves the token held and its epoch unlatched, ready for the next request.
   */
  lemma AnsweredStopKeepsTheLease(env: Env, s: Engine, f: MspFrame)
    requires Inv(s) && s.active.Some? && s.active.value.origin.Stop? && s.queue == []
    requires f.command == s.active.value.command && f.Protocol() == s.active.value.protocol && f.direction.Response?
    ensures
      var t := Step(env, s, Frames([f]));
      var a := s.active.value;
      && t == s.(active := None, timers := s.timers - {a.id}, outcomes := s.outcomes[a.id := Resolved(f)],
                 stopRegistered := None, stopAmbiguous := false, stopDeferred := false)
  {
    hide PlacesOk, LogOk, CallbacksOk, LeaseOk;
    InvIsMid(s);
    ActiveIsFresh(s);
    var a := s.active.value;
    var u := s.(timers := s.timers - {a.id}, outcomes := s.outcomes[a.id := Resolved(f)], active := None,
                jobs := [Job(a.id, a.origin, Resolved(f))]);
    assert s.stopPending.None? && s.stopRegistered == Some(a.id) && s.jobs == [] by { StopFacts(s); }
    assert DoFrame(env, s, f) == u;
    assert DoFrames(env, s, [f]) == u by {
      assert [f][1..] == [];
      assert DoFrames(env, u, []) == u;
    }
    assert u.jobs[1..] == [];
    assert Drain(u) == React(u.(jobs := []), u.jobs[0]);
  }

  lemma StopFacts(s: Engine)
    requires Inv(s) && s.active.Some? && s.active.value.origin.Stop?
    ensures s.stopPending.None? && s.stopRegistered == Some(s.active.value.id) && s.jobs == [] && s.state.Ready?
  {
    hide PlacesOk, LogOk, CallbacksOk, LeaseOk;
  }
}
