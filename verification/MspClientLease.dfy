/** No lease outlives the failure of one of its requests. */
module MspClientLease {
  import opened MspTypes
  import opened MspClientModel
  import opened MspClientInvariants
  import opened MspClientRuns
  import opened MspClientHistory

  /** Every rejection is a failure except displacement by the lease's own stop. */
  predicate Faulting(o: Outcome) {
    o.Rejected? && !Displacement(o)
  }

  /** A reaction that will fault the lease is queued for this request. */
  ghost predicate JobFor(u: Engine, id: RequestId) {
    exists i :: 0 <= i < |u.jobs| && u.jobs[i].id == id && Faulting(u.jobs[i].outcome)
      && OriginToken(u.jobs[i].origin).Some?
  }

  ghost predicate Held(u: Engine) {
    u.token.Some? ==>
      && u.leaseEpoch.Some?
      && AllOwned(u.queue, u.token.value)
      && (u.active.Some? ==> OwnedBy(u.active.value.origin, u.token.value))
      && (u.stopPending.Some? ==> OwnedBy(u.stopPending.value.origin, u.token.value))
  }

  /** Since `base` the lease is the same one, or it died, latched unless the session itself is over. */
  ghost predicate Kept(base: Engine, u: Engine) {
    && (u.token.Some? ==> u.token == base.token && u.leaseEpoch == base.leaseEpoch && u.leaseEpoch.Some?)
    && (u.token.None? ==>
          (base.leaseEpoch.Some? && base.leaseEpoch.value in u.faultEpochs) || u.state.Closing?
            || u.state.Disconnected?)
  }

  /** As long as the lease lives, each of its requests that has failed since `base` has its reaction queued. */
  ghost predicate Reported(base: Engine, limit: nat, u: Engine) {
    u.token.Some? ==>
      forall id: RequestId :: id < limit && id in u.outcomes && id !in base.outcomes && Faulting(u.outcomes[id]) ==>
        JobFor(u, id)
  }

  ghost predicate Watched(base: Engine, limit: nat, u: Engine) {
    base.token.Some? && Held(u) && Kept(base, u) && Reported(base, limit, u)
  }

  lemma InvIsWatched(s: Engine, limit: nat)
    requires Mid(s, None) && s.token.Some?
    ensures Watched(s, limit, s)
  {
    hide PlacesOk, LogOk, CallbacksOk, ProbeOk, MidStop, JobsOk;
  }

  // ---------------------------------------------------------------- primitives

  lemma JobsGrow(u: Engine, v: Engine, id: RequestId)
    requires JobFor(u, id) && u.jobs <= v.jobs
    ensures JobFor(v, id)
  {
    var i :| 0 <= i < |u.jobs| && u.jobs[i].id == id && Faulting(u.jobs[i].outcome)
      && OriginToken(u.jobs[i].origin).Some?;
    assert v.jobs[i] == u.jobs[i];
  }

  /** Settling an owned request queues its reaction; a fresh id is no concern of the lease. */
  lemma SettleWatched(base: Engine, limit: nat, u: Engine, id: RequestId, origin: Origin, o: Outcome)
    requires Watched(base, limit, u) && (u.token.Some? ==> OwnedBy(origin, u.token.value) || id >= limit)
    ensures Watched(base, limit, Settle(u, id, origin, o))
  {
    hide Faulting;
    var v := Settle(u, id, origin, o);
    if id !in u.outcomes && v.token.Some? {
      assert u.jobs <= v.jobs;
      forall k: RequestId | k < limit && k in v.outcomes && k !in base.outcomes && Faulting(v.outcomes[k])
        ensures JobFor(v, k) {
        if k == id {
          assert v.jobs[|v.jobs| - 1] == Job(id, origin, o);
        } else {
          JobsGrow(u, v, k);
        }
      }
    }
  }

  lemma {:induction false} SettleAllWatched(base: Engine, limit: nat, u: Engine, rs: seq<PendingRequest>, o: Outcome)
    requires Watched(base, limit, u) && (u.token.Some? ==> AllOwned(rs, u.token.value))
    ensures Watched(base, limit, SettleAll(u, rs, o)) && SettleAll(u, rs, o).token == u.token
    decreases |rs|
  {
    hide Settle, Watched;
    if rs != [] {
      SettleWatched(base, limit, u, rs[0].id, rs[0].origin, o);
      SettleToken(u, rs[0].id, rs[0].origin, o);
      SettleAllWatched(base, limit, Settle(u, rs[0].id, rs[0].origin, o), rs[1..], o);
    }
  }

  lemma SettleToken(u: Engine, id: RequestId, origin: Origin, o: Outcome)
    ensures Settle(u, id, origin, o).token == u.token
  {
  }

  /** Changes that touch neither the lease, nor outcomes, nor reactions, nor end a session's end. */
  ghost predicate Elsewhere(u: Engine, v: Engine) {
    && v == u.(state := v.state, queue := v.queue, active := v.active, stopPending := v.stopPending,
               stopRegistered := v.stopRegistered, stopAmbiguous := v.stopAmbiguous, stopDeferred := v.stopDeferred,
               epoch := v.epoch, nextId := v.nextId, writing := v.writing, timers := v.timers,
               restarting := v.restarting,
               writes := v.writes)
    && (u.state.Closing? || u.state.Disconnected? ==> v.state == u.state)
  }

  lemma ElsewhereWatched(base: Engine, limit: nat, u: Engine, v: Engine)
    requires Watched(base, limit, u) && Elsewhere(u, v) && Held(v)
    ensures Watched(base, limit, v)
  {
    hide Faulting;
    forall id: RequestId | JobFor(u, id) ensures JobFor(v, id) {
      JobsGrow(u, v, id);
    }
  }

  lemma FaultWatched(base: Engine, limit: nat, u: Engine)
    requires Watched(base, limit, u)
    ensures Watched(base, limit, FaultLease(u)) && FaultLease(u).token.None?
  {
    hide Faulting, JobFor;
  }

  // ---------------------------------------------------------------- submission and desync

  lemma DesyncWatched(env: Env, base: Engine, limit: nat, u: Engine)
    requires Watched(base, limit, u) && !u.state.Closing? && !u.state.Disconnected?
    ensures Watched(base, limit, DesyncLatch(env, u))
  {
    hide FaultLease, SettleAll, Settle, Watched;
    var f := FaultLease(u);
    FaultWatched(base, limit, u);
    FaultLeaseChanges(u);
    var a := AbortStop(f, StopAbortedByDesync);
    AbortWatched(base, limit, f);
    var b := a.(queue := []);
    DeadElsewhere(base, limit, a, b);
    SettleAllWatched(base, limit, b, a.queue, Rejected(Recovering));
    var c := SettleAll(b, a.queue, Rejected(Recovering));
    DesyncStates(u, c, env);
    DeadElsewhere(base, limit, c, DesyncLatch(env, u));
  }

  lemma AbortWatched(base: Engine, limit: nat, f: Engine)
    requires Watched(base, limit, f) && f.token.None?
    ensures var a := AbortStop(f, StopAbortedByDesync); Watched(base, limit, a) && a.token.None?
  {
    hide Settle, Watched;
    if f.stopPending.Some? {
      var b := f.(stopPending := None);
      DeadElsewhere(base, limit, f, b);
      SettleWatched(base, limit, b, f.stopPending.value.id, f.stopPending.value.origin, Rejected(StopAbortedByDesync));
      SettleToken(b, f.stopPending.value.id, f.stopPending.value.origin, Rejected(StopAbortedByDesync));
    }
  }

  /** With the lease dead, nothing but the latch and the end of the session matters. */
  lemma DeadElsewhere(base: Engine, limit: nat, u: Engine, v: Engine)
    requires Watched(base, limit, u) && Elsewhere(u, v) && u.token.None?
    ensures Watched(base, limit, v) && v.token.None?
  {
    hide Faulting, JobFor;
  }

  /** The states on the way out of a desync are neither closing nor disconnected. */
  lemma DesyncStates(u: Engine, c: Engine, env: Env)
    requires !u.state.Closing? && !u.state.Disconnected?
    requires var a := AbortStop(FaultLease(u), StopAbortedByDesync);
             c == SettleAll(a.(queue := []), a.queue, Rejected(Recovering))
    ensures Elsewhere(c, DesyncLatch(env, u))
  {
    hide FaultLease, SettleAll, AbortStop, Settle;
    var a := AbortStop(FaultLease(u), StopAbortedByDesync);
    FaultLeaseChanges(u);
    AbortKeepsState(FaultLease(u));
    SettleAllEnds(a.(queue := []), a.queue, Rejected(Recovering));
  }

  lemma AbortKeepsState(f: Engine)
    requires !f.state.Closing? && !f.state.Disconnected?
    ensures var a := AbortStop(f, StopAbortedByDesync); !a.state.Closing? && !a.state.Disconnected?
  {
  }

  lemma {:induction false} SettleAllEnds(u: Engine, rs: seq<PendingRequest>, o: Outcome)
    requires !u.state.Closing? && !u.state.Disconnected?
    ensures !SettleAll(u, rs, o).state.Closing? && !SettleAll(u, rs, o).state.Disconnected?
    decreases |rs|
  {
    if rs != [] {
      SettleAllEnds(Settle(u, rs[0].id, rs[0].origin, o), rs[1..], o);
    }
  }

  lemma {:induction false} PumpWatched(env: Env, base: Engine, limit: nat, u: Engine)
    requires Watched(base, limit, u)
    ensures Watched(base, limit, Pump(env, u))
    decreases Backlog(u), 0
  {
    hide StartRequest, Watched;
    if u.state == Ready && u.active.None? {
      if u.stopPending.Some? {
        var v := u.(stopPending := None);
        SlotTaken(base, limit, u);
        StartWatched(env, base, limit, v, u.stopPending.value);
      } else if u.queue != [] {
        var v := u.(queue := u.queue[1..]);
        HeadTaken(base, limit, u);
        StartWatched(env, base, limit, v, u.queue[0]);
      }
    }
  }

  lemma SlotTaken(base: Engine, limit: nat, u: Engine)
    requires Watched(base, limit, u) && u.stopPending.Some?
    ensures var v := u.(stopPending := None);
            Watched(base, limit, v) && (v.token.Some? ==> OwnedBy(u.stopPending.value.origin, v.token.value))
  {
    hide Faulting, JobFor, Reported;
    assert Reported(base, limit, u.(stopPending := None))
      by { ElsewhereWatched(base, limit, u, u.(stopPending := None)); }
  }

  lemma HeadTaken(base: Engine, limit: nat, u: Engine)
    requires Watched(base, limit, u) && u.queue != []
    ensures var v := u.(queue := u.queue[1..]);
            Watched(base, limit, v) && (v.token.Some? ==> OwnedBy(u.queue[0].origin, v.token.value))
  {
    hide Faulting, JobFor, Reported;
    assert Reported(base, limit, u.(queue := u.queue[1..]))
      by { ElsewhereWatched(base, limit, u, u.(queue := u.queue[1..])); }
  }

  lemma {:induction false} StartWatched(env: Env, base: Engine, limit: nat, u: Engine, r: PendingRequest)
    requires Watched(base, limit, u) && u.state.Ready? && (u.token.Some? ==> OwnedBy(r.origin, u.token.value))
    ensures Watched(base, limit, StartRequest(env, u, r))
    decreases Backlog(u), 1
  {
    hide Settle, Pump, DesyncLatch, Activated, Watched;
    if !r.spec.Encodable() {
      SettleWatched(base, limit, u, r.id, r.origin, Rejected(EncodeFailed));
      SettleKeepsBacklog(u, r.id, r.origin, Rejected(EncodeFailed));
      PumpWatched(env, base, limit, Settle(u, r.id, r.origin, Rejected(EncodeFailed)));
    } else {
      var a := Activated(u, r);
      ActivatedWatched(base, limit, u, r);
      if !env.writeThrows(r.id) {
        MarkedWatched(base, limit, a, a.(writing := a.writing + {r.id}));
      } else {
        var o := Rejected(if r.origin.Probe? then ProbeFailed else WriteOutcomeUnknown);
        FreedWatched(env, base, limit, a, r.id, r.origin, o);
      }
    }
  }

  lemma ActivatedWatched(base: Engine, limit: nat, u: Engine, r: PendingRequest)
    requires Watched(base, limit, u) && r.spec.Encodable() && u.state.Ready?
    requires u.token.Some? ==> OwnedBy(r.origin, u.token.value)
    ensures var a := Activated(u, r);
            Watched(base, limit, a) && a.token == u.token && !a.state.Closing? && !a.state.Disconnected?
  {
    hide Faulting, JobFor, Reported;
    assert Reported(base, limit, Activated(u, r)) by { ElsewhereWatched(base, limit, u, Activated(u, r)); }
  }

  lemma MarkedWatched(base: Engine, limit: nat, u: Engine, v: Engine)
    requires Watched(base, limit, u)
    requires v == u.(writing := v.writing, timers := v.timers, restarting := v.restarting, nextId := v.nextId)
    ensures Watched(base, limit, v)
  {
    ElsewhereWatched(base, limit, u, v);
  }

  /** The slot is freed, and then nothing, the pump or the desync latch follows. */
  lemma FreedWatched(env: Env, base: Engine, limit: nat, u: Engine, id: RequestId, origin: Origin, o: Outcome)
    requires Watched(base, limit, u) && (u.token.Some? ==> OwnedBy(origin, u.token.value))
    ensures var t := Settle(u, id, origin, o).(active := None);
            && Watched(base, limit, t)
            && (!u.state.Closing? && !u.state.Disconnected? ==> Watched(base, limit, DesyncLatch(env, t)))
  {
    hide DesyncLatch, Reported, JobFor;
    SettleWatched(base, limit, u, id, origin, o);
    var v := Settle(u, id, origin, o);
    var t := v.(active := None);
    ElsewhereWatched(base, limit, v, t);
    if !u.state.Closing? && !u.state.Disconnected? {
      DesyncWatched(env, base, limit, t);
    }
  }

  /** The active request of a held lease ends, whatever callback is consumed with it. */
  lemma ActiveFreedWatched(env: Env, base: Engine, limit: nat, u: Engine, o: Outcome)
    requires Watched(base, limit, u) && u.active.Some? && u.state.Ready?
    ensures var t := Settle(u, u.active.value.id, u.active.value.origin, o).(active := None);
            && Watched(base, limit, t) && Watched(base, limit, Pump(env, t))
            && Watched(base, limit, DesyncLatch(env, t))
  {
    hide Settle, Pump, DesyncLatch, Kept, Reported;
    FreedWatched(env, base, limit, u, u.active.value.id, u.active.value.origin, o);
    PumpWatched(env, base, limit, Settle(u, u.active.value.id, u.active.value.origin, o).(active := None));
  }

  // ---------------------------------------------------------------- events

  lemma HeldIsReady(s: Engine)
    requires Mid(s, None) && s.token.Some?
    ensures s.state.Ready? && !s.disposed && s.epoch !in s.restarting
  {
    hide PlacesOk, LogOk, ProbeOk, MidStop, JobsOk;
  }

  lemma WriteOkWatched(env: Env, s: Engine, limit: nat, id: RequestId)
    requires Mid(s, None) && s.token.Some?
    ensures Watched(s, limit, DoWriteOk(env, s, id))
  {
    hide Mid, Watched, Settle, Pump;
    HeldIsReady(s);
    InvIsWatched(s, limit);
    var u := s.(writing := s.writing - {id});
    MarkedWatched(s, limit, s, u);
    if s.active.Some? {
      ActiveFreedWatched(env, s, limit, u, Rejected(DisplacedInFlight));
      AwaitingWatched(s, limit, u, id);
    }
  }

  lemma AwaitingWatched(s: Engine, limit: nat, u: Engine, id: RequestId)
    requires Watched(s, limit, u) && u.active.Some?
    ensures Watched(s, limit, u.(active := Some(u.active.value.(phase := AwaitingResponse)), timers := u.timers + {id}))
  {
    hide Reported;
    ElsewhereWatched(s, limit, u,
                     u.(active := Some(u.active.value.(phase := AwaitingResponse)), timers := u.timers + {id}));
  }

  lemma WriteFailedWatched(env: Env, s: Engine, limit: nat, id: RequestId, f: WriteFailure)
    requires Mid(s, None) && s.token.Some?
    ensures Watched(s, limit, DoWriteFailed(env, s, id, f))
  {
    hide Mid, Watched, Settle, Pump, DesyncLatch;
    HeldIsReady(s);
    InvIsWatched(s, limit);
    var u := s.(writing := s.writing - {id});
    MarkedWatched(s, limit, s, u);
    if s.active.Some? {
      ActiveFreedWatched(env, s, limit, u, Rejected(ProbeFailed));
      ActiveFreedWatched(env, s, limit, u, Rejected(ClassifyWriteFailure(f)));
    }
  }

  lemma TimeoutWatched(env: Env, s: Engine, limit: nat, id: RequestId)
    requires Mid(s, None) && s.token.Some?
    ensures Watched(s, limit, DoTimeout(env, s, id))
  {
    hide Mid, Watched, Settle, DesyncLatch;
    HeldIsReady(s);
    InvIsWatched(s, limit);
    var u := s.(timers := s.timers - {id});
    MarkedWatched(s, limit, s, u);
    if s.active.Some? {
      ActiveFreedWatched(env, s, limit, u, Rejected(ProbeFailed));
      ActiveFreedWatched(env, s, limit, u, Rejected(Timeout));
    }
  }

  lemma FrameWatched(env: Env, base: Engine, limit: nat, s: Engine, f: MspFrame)
    requires Watched(base, limit, s) && Mid(s, None) && Quiet(s)
    ensures Watched(base, limit, DoFrame(env, s, f))
  {
    hide PlacesOk, LogOk, CallbacksOk, MidStop, JobsOk, LeaseOk, Watched, Settle, Pump;
    if Matches(s, f) {
      var a := s.active.value;
      var o := if f.direction.Error? && !a.origin.Probe? then Rejected(RemoteError) else Resolved(f);
      var u := s.(timers := s.timers - {a.id});
      MarkedWatched(base, limit, s, u);
      if s.state.Ready? {
        ActiveFreedWatched(env, base, limit, u, o);
      } else {
        assert s.token.None? by { HeldNotReady(s); }
        FreedWatched(env, base, limit, u, a.id, a.origin, o);
        PumpWatched(env, base, limit, Settle(u, a.id, a.origin, o).(active := None));
      }
    }
  }

  lemma HeldNotReady(s: Engine)
    requires Mid(s, None) && !s.state.Ready?
    ensures s.token.None?
  {
    hide PlacesOk, LogOk, CallbacksOk, ProbeOk, MidStop, JobsOk;
  }

  lemma {:induction false} FramesWatched(env: Env, base: Engine, limit: nat, s: Engine, fs: seq<MspFrame>)
    requires Watched(base, limit, s) && Mid(s, None) && Quiet(s)
    ensures Watched(base, limit, DoFrames(env, s, fs))
    decreases |fs|
  {
    hide DoFrame, Mid, Quiet, Watched;
    if fs != [] {
      FrameWatched(env, base, limit, s, fs[0]);
      FrameIsCalm(env, s, fs[0]);
      FramesWatched(env, base, limit, DoFrame(env, s, fs[0]), fs[1..]);
    }
  }

  lemma RefuseWatched(base: Engine, limit: nat, s: Engine, origin: Origin, code: Code)
    requires Watched(base, limit, s) && (s.token.Some? ==> OwnedBy(origin, s.token.value) || s.nextId >= limit)
    ensures Watched(base, limit, Refuse(s, origin, code))
  {
    hide Settle, Held, Kept, Reported;
    var u := s.(nextId := s.nextId + 1);
    MarkedWatched(base, limit, s, u);
    SettleWatched(base, limit, u, s.nextId, origin, Rejected(code));
  }

  lemma EnqueueWatched(env: Env, base: Engine, limit: nat, s: Engine, spec: RequestSpec, origin: Origin)
    requires Watched(base, limit, s) && (s.token.Some? ==> OwnedBy(origin, s.token.value))
    ensures Watched(base, limit, Enqueue(env, s, spec, origin))
  {
    hide Pump, Refuse, Watched;
    forall code ensures Watched(base, limit, Refuse(s, origin, code)) { RefuseWatched(base, limit, s, origin, code); }
    var u := s.(nextId := s.nextId + 1, queue := s.queue + [PendingRequest(s.nextId, spec, origin)]);
    QueuedWatched(base, limit, s, spec, origin);
    PumpWatched(env, base, limit, u);
  }

  lemma QueuedWatched(base: Engine, limit: nat, s: Engine, spec: RequestSpec, origin: Origin)
    requires Watched(base, limit, s) && (s.token.Some? ==> OwnedBy(origin, s.token.value))
    ensures Watched(base, limit,
                    s.(nextId := s.nextId + 1, queue := s.queue + [PendingRequest(s.nextId, spec, origin)]))
  {
    hide Reported;
    ElsewhereWatched(base, limit, s,
                     s.(nextId := s.nextId + 1, queue := s.queue + [PendingRequest(s.nextId, spec, origin)]));
  }

  lemma RegisterStopWatched(base: Engine, limit: nat, s: Engine, token: Token, spec: RequestSpec)
    requires Watched(base, limit, s) && s.token == Some(token) && s.state.Ready?
    ensures Watched(base, limit, RegisterStop(s, token, spec))
  {
    hide SettleAll, Settle, Kept, Reported, DisplaceActive;
    var q := s.(queue := []);
    ElsewhereWatched(base, limit, s, q);
    SettleAllWatched(base, limit, q, s.queue, Rejected(DisplacedQueued));
    var p := SettleAll(q, s.queue, Rejected(DisplacedQueued));
    DisplaceWatched(base, limit, p);
    SlotFilled(base, limit, DisplaceActive(p), RegisterStop(s, token, spec), token);
  }

  lemma DisplaceWatched(base: Engine, limit: nat, p: Engine)
    requires Watched(base, limit, p)
    ensures Watched(base, limit, DisplaceActive(p)) && DisplaceActive(p).token == p.token
  {
    hide Settle, Kept, Reported;
    if p.active.Some? {
      var a := p.active.value;
      var u := p.(timers := p.timers - {a.id});
      MarkedWatched(base, limit, p, u);
      SettleWatched(base, limit, u, a.id, a.origin, Rejected(DisplacedInFlight));
      SettleToken(u, a.id, a.origin, Rejected(DisplacedInFlight));
      var v := Settle(u, a.id, a.origin, Rejected(DisplacedInFlight));
      ElsewhereWatched(base, limit, v, v.(active := None));
      ElsewhereWatched(base, limit, p, p.(active := Some(a.(displacedByEmergencyStop := true))));
    }
  }

  lemma SlotFilled(base: Engine, limit: nat, d: Engine, t: Engine, token: Token)
    requires Watched(base, limit, d) && d.token == Some(token)
    requires t == d.(nextId := t.nextId, stopPending := t.stopPending, stopRegistered := t.stopRegistered,
                     stopAmbiguous := t.stopAmbiguous, stopDeferred := t.stopDeferred)
    requires t.stopPending.Some? && t.stopPending.value.origin == Stop(token)
    ensures Watched(base, limit, t)
  {
    hide Reported;
    ElsewhereWatched(base, limit, d, t);
  }

  /** How far the ids of this event's own lease-scoped requests reach. */
  function Limit(s: Engine, e: Event): nat {
    match e
    case LeaseRequest(token, _) => if s.token == Some(token) then s.nextId + 1 else s.nextId
    case EmergencyStop(token, _) => if StopAccepted(s, token) then s.nextId + 1 else s.nextId
    case _ => s.nextId
  }

  lemma AdmissionWatched(env: Env, s: Engine, e: Event)
    requires Mid(s, None) && s.token.Some? && (e.Request? || e.LeaseRequest? || e.EmergencyStop?)
    ensures Watched(s, Limit(s, e), Act(env, s, e))
  {
    hide Mid, Watched, Refuse, Enqueue, RegisterStop, Pump;
    var limit := Limit(s, e);
    HeldIsReady(s);
    InvIsWatched(s, limit);
    match e {
      case Request(spec) => RefuseWatched(s, limit, s, Ordinary, LeaseHeld);
      case LeaseRequest(token, spec) =>
        if s.token == Some(token) {
          EnqueueWatched(env, s, limit, s, spec, Leased(token));
        } else {
          RefuseWatched(s, limit, s, Ordinary, CapabilityInvalid);
        }
      case EmergencyStop(token, spec) =>
        if StopAccepted(s, token) {
          RegisterStopWatched(s, limit, s, token, spec);
          PumpWatched(env, s, limit, RegisterStop(s, token, spec));
        } else if s.token != Some(token) {
          RefuseWatched(s, limit, s, Ordinary, CapabilityInvalid);
        }
    }
  }

  /** Once disconnected there is no lease left to report to. */
  lemma DisconnectedWatched(s: Engine, limit: nat, t: Engine)
    requires s.token.Some? && Mid(t, None) && t.state.Disconnected?
    ensures Watched(s, limit, t)
  {
    hide PlacesOk, LogOk, CallbacksOk, ProbeOk, MidStop, JobsOk;
  }

  lemma ActWatched(env: Env, s: Engine, e: Event)
    requires Mid(s, None) && Quiet(s) && s.token.Some? && Possible(s, e) && !e.ReleaseLease?
    ensures Watched(s, Limit(s, e), Act(env, s, e))
  {
    hide Mid, Quiet, Watched, DoWriteOk, DoWriteFailed, DoTimeout, DoFrames, DoRequest, DoLeaseRequest, DoEmergencyStop,
      RejectAll, FaultLease, SendProbe;
    var limit := Limit(s, e);
    HeldIsReady(s);
    InvIsWatched(s, limit);
    match e {
      case Request(spec) => AdmissionWatched(env, s, e);
      case LeaseRequest(token, spec) => AdmissionWatched(env, s, e);
      case EmergencyStop(token, spec) => AdmissionWatched(env, s, e);
      case WriteOk(id) => WriteOkWatched(env, s, limit, id);
      case WriteFailed(id, f) => WriteFailedWatched(env, s, limit, id, f);
      case TimerFired(id) => TimeoutWatched(env, s, limit, id);
      case Frames(fs) => FramesWatched(env, s, limit, s, fs);
      case RestartOk(epoch) => MarkedWatched(s, limit, s, s.(restarting := s.restarting - {epoch}));
      case RestartFailed(epoch) => MarkedWatched(s, limit, s, s.(restarting := s.restarting - {epoch}));
      case Detach => DetachEnds(s); DetachIsCalm(s); DisconnectedWatched(s, limit, DoDetach(s));
      case Dispose => DisposeIsCalm(s); DisconnectedWatched(s, limit, DoDispose(s));
      case Acquire =>
      case FaultByToken(token) => FaultWatched(s, limit, s);
    }
  }

  lemma DetachEnds(s: Engine)
    requires Mid(s, None) && Quiet(s)
    ensures DoDetach(s).state.Disconnected?
  {
    hide PlacesOk, LogOk, MidStop, JobsOk, ProbeOk, HandOk, RejectAll;
    var b := InvalidateLease(s).(disconnectCause := Some(DeviceDetached), state := Disconnected);
    SessionEnds(s, b);
    RejectAllEnds(b, DeviceDetached);
  }

  // ---------------------------------------------------------------- reactions

  lemma ReactKept(base: Engine, s: Engine)
    requires Mid(s, None) && s.jobs != [] && Kept(base, s) && base.token.Some?
    ensures Kept(base, React(s.(jobs := s.jobs[1..]), s.jobs[0]))
  {
    hide PlacesOk, LogOk, CallbacksOk, LeaseOk, ProbeOk, MidStop, JobsOk;
  }

  /** A queued failure leaves no lease when all reactions have run. */
  lemma {:induction false} DrainKills(base: Engine, s: Engine, id: RequestId)
    requires Mid(s, None) && Quiet(s) && base.token.Some? && Kept(base, s)
    ensures Kept(base, Drain(s))
    ensures JobFor(s, id) || s.token.None? ==> Drain(s).token.None?
    decreases |s.jobs|
  {
    hide React, Mid, Quiet, Kept;
    if s.jobs != [] {
      var t := React(s.(jobs := s.jobs[1..]), s.jobs[0]);
      ReactIsMid(s);
      ReactKept(base, s);
      ReactKills(s, id);
      DrainKills(base, t, id);
    }
  }

  lemma ReactKills(s: Engine, id: RequestId)
    requires s.jobs != []
    ensures var t := React(s.(jobs := s.jobs[1..]), s.jobs[0]);
            JobFor(s, id) || s.token.None? ==> t.token.None? || JobFor(t, id)
  {
    hide Faulting;
    var t := React(s.(jobs := s.jobs[1..]), s.jobs[0]);
    if JobFor(s, id) {
      var i :| 0 <= i < |s.jobs| && s.jobs[i].id == id && Faulting(s.jobs[i].outcome)
        && OriginToken(s.jobs[i].origin).Some?;
      if i == 0 {
        FirstJobFaults(s);
      } else {
        assert t.jobs[i - 1] == s.jobs[i] by { ReactLeavesJobs(s); }
      }
    }
  }

  lemma FirstJobFaults(s: Engine)
    requires s.jobs != [] && Faulting(s.jobs[0].outcome) && OriginToken(s.jobs[0].origin).Some?
    ensures React(s.(jobs := s.jobs[1..]), s.jobs[0]).token.None?
  {
  }

  lemma ReactLeavesJobs(s: Engine)
    requires s.jobs != []
    ensures React(s.(jobs := s.jobs[1..]), s.jobs[0]).jobs == s.jobs[1..]
  {
  }

  /**
   * A FAILURE KILLS THE LEASE: whatever event rejects a request of the held lease, for any reason but
   * displacement by its own stop, leaves no lease behind, and latches its epoch unless the session is over.
   */
  lemma FailureKillsTheLease(env: Env, s: Engine, e: Event, id: RequestId)
    requires Inv(s) && s.token.Some?
    requires id < Limit(s, e) && id !in s.outcomes
    requires id in Step(env, s, e).outcomes && Faulting(Step(env, s, e).outcomes[id])
    ensures
      var t := Step(env, s, e);
      t.token.None? && (s.epoch in t.faultEpochs || t.state.Disconnected?)
  {
    hide Inv, Mid, Quiet, Drain, Act, Reported, Held, Limit;
    InvIsMid(s);
    StepKeepsInv(env, s, e);
    AtRestIsOpen(Step(env, s, e));
    var u := Act(env, s, e);
    assert Possible(s, e);
    assert Mid(u, None) && Quiet(u) by { ActIsCalm(env, s, e); }
    DrainShape(u);
    if e.ReleaseLease? {
      ReleaseSettlesNothing(env, s, e);
    } else {
      ActWatched(env, s, e);
      ReportedJob(s, Limit(s, e), u, id);
      DrainKills(s, u, id);
    }
    LeaseEpochIsCurrent(s);
  }

  lemma ReportedJob(base: Engine, limit: nat, u: Engine, id: RequestId)
    requires Reported(base, limit, u) && id < limit && id in u.outcomes && id !in base.outcomes
             && Faulting(u.outcomes[id])
    ensures u.token.Some? ==> JobFor(u, id)
  {
    hide Faulting;
  }

  lemma ReleaseSettlesNothing(env: Env, s: Engine, e: Event)
    requires e.ReleaseLease?
    ensures Act(env, s, e).outcomes == s.outcomes
  {
  }

  lemma AtRestIsOpen(s: Engine)
    requires Inv(s)
    ensures !s.state.Closing?
  {
  }

  lemma LeaseEpochIsCurrent(s: Engine)
    requires Inv(s) && s.token.Some?
    ensures s.leaseEpoch == Some(s.epoch)
  {
    hide PlacesOk, LogOk, CallbacksOk, ProbeOk, StopOk, RestOk;
  }
}
