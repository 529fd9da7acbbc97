/** What each event of the client does, stated on the state before it: which fields move, to what, and no others. */
module MspClientBehaviour {
  import opened MspTypes
  import opened MspChecksum
  import opened MspWireGrammar
  import opened MspEncoder
  import opened MspClientModel
  import opened MspClientInvariants
  import opened MspClientRuns
  import opened MspClientHistory

  lemma NothingQueued(s: Engine)
    requires Inv(s)
    ensures s.jobs == [] && Drain(s) == s && s.nextId !in s.outcomes
    ensures s.active.Some? ==> s.active.value.id !in s.outcomes && s.active.value.id < s.nextId
  {
    hide Count, LogOk, CallbacksOk, LeaseOk, ProbeOk, StopOk;
    assert Places(s, s.nextId) + InSlot(None, s.nextId) == 0;
    if s.active.Some? {
      assert Places(s, s.active.value.id) + InSlot(None, s.active.value.id)
             == if s.active.value.id < s.nextId then 1 else 0;
    }
  }

  /** The request the transport has just been handed. */
  function Written(r: PendingRequest): ActiveRequest
  {
    ActiveRequest(r.id, r.spec.command, ProtocolOf(r.spec.wireFormat), Writing, r.origin, false)
  }

  /** Handed over by a transport that takes it. */
  lemma StartIsClean(env: Env, s: Engine, r: PendingRequest)
    requires r.spec.Encodable() && !env.writeThrows(r.id)
    ensures
      StartRequest(env, s, r)
      == s.(active := Some(Written(r)), writing := s.writing + {r.id},
            writes := s.writes + [WriteRecord(r.id, r.origin, s.token, r.spec.Bytes())])
  {
    hide RequestSpec.Encodable, RequestSpec.Bytes, Pump, Settle, DesyncLatch;
  }

  lemma NoReaction(u: Engine)
    requires u.jobs == []
    ensures Drain(u) == u
  {
  }

  /** One reaction, and nothing after it. */
  lemma OneReaction(u: Engine, j: Job)
    requires u.jobs == [j]
    ensures Drain(u) == React(u.(jobs := []), j)
  {
    hide React;
    assert u.jobs[1..] == [];
    var v := React(u.(jobs := []), j);
    ReactionQueuesNothing(u.(jobs := []), j);
    assert Drain(v) == v;
  }

  lemma ReactionQueuesNothing(s: Engine, j: Job)
    ensures React(s, j).jobs == s.jobs
  {
    hide FaultLease;
    FaultLeaseChanges(s);
    FaultLeaseChanges(ClearRegistration(s, j.id));
  }

  /** A request displaced by its own lease's stop leaves no trace but its outcome. */
  lemma DisplacedQuietly(u: Engine, j: Job)
    requires u.jobs == [j] && j.origin.Leased? && (j.outcome == Rejected(DisplacedInFlight))
    ensures Drain(u) == u.(jobs := [])
  {
    OneReaction(u, j);
  }

  // ---------------------------------------------------------------- writes

  /** A write that succeeds only starts the wait for the answer. */
  lemma WriteIsTaken(env: Env, s: Engine, id: RequestId)
    requires Inv(s) && s.active.Some? && s.active.value.id == id && id in s.writing
    requires !s.active.value.displacedByEmergencyStop
    ensures Step(env, s, WriteOk(id))
            == s.(writing := s.writing - {id}, timers := {id},
                  active := Some(s.active.value.(phase := AwaitingResponse)))
  {
    hide PlacesOk, LogOk, LeaseOk, ProbeOk, StopOk;
    NothingQueued(s);
    assert s.timers == {};
  }

  /** A write of a request that is no longer active, and was settled meanwhile, is of no consequence. */
  lemma LateWriteIsForgotten(env: Env, s: Engine, id: RequestId, f: WriteFailure)
    requires Inv(s) && id in s.writing && (s.active.None? || s.active.value.id != id)
    ensures Step(env, s, WriteOk(id)) == s.(writing := s.writing - {id})
    ensures Step(env, s, WriteFailed(id, f)) == s.(writing := s.writing - {id})
  {
    hide PlacesOk, LogOk, LeaseOk, ProbeOk, StopOk, CallbacksOk;
    NothingQueued(s);
  }

  /** A write the transport refuses for a reason it names fails that request alone. */
  lemma RefusedWriteFailsAlone(env: Env, s: Engine, id: RequestId, f: WriteFailure)
    requires Inv(s) && s.active.Some? && s.active.value.id == id && id in s.writing && s.active.value.origin.Ordinary?
    requires !f.OtherFailure? && s.queue == [] && s.stopPending.None?
    ensures Step(env, s, WriteFailed(id, f))
            == s.(writing := s.writing - {id}, active := None,
                  outcomes := s.outcomes[id := Rejected(if f.TransportSessionClosed? then SessionClosed
                                                        else TransportQueueFull)])
  {
    hide PlacesOk, LogOk, LeaseOk, CallbacksOk;
    NothingQueued(s);
  }

  /** The write of a displaced request ends it, and the stop that displaced it is handed over instead. */
  lemma DisplacedWriteGivesWay(env: Env, s: Engine, id: RequestId)
    requires Inv(s) && s.active.Some? && s.active.value.id == id && id in s.writing
    requires s.active.value.displacedByEmergencyStop && s.stopPending.Some?
    requires s.stopPending.value.spec.Encodable() && !env.writeThrows(s.stopPending.value.id)
    ensures
      var stop := s.stopPending.value;
      Step(env, s, WriteOk(id))
      == s.(writing := s.writing - {id} + {stop.id}, active := Some(Written(stop)), stopPending := None,
            outcomes := s.outcomes[id := Rejected(DisplacedInFlight)],
            writes := s.writes + [WriteRecord(stop.id, stop.origin, s.token, stop.spec.Bytes())])
  {
    hide PlacesOk, LogOk, CallbacksOk;
    NothingQueued(s);
    assert s.state.Ready?;
    assert !s.active.value.origin.Stop? by { DisplacedIsAnother(s); }
    GivesWay(env, s, id);
  }

  lemma DisplacedIsAnother(s: Engine)
    requires Inv(s) && s.active.Some? && s.stopPending.Some?
    ensures !s.active.value.origin.Stop?
  {
    hide Count, LogOk, CallbacksOk, LeaseOk;
    assert Places(s, s.active.value.id) <= 1;
  }

  lemma GivesWay(env: Env, s: Engine, id: RequestId)
    requires s.active.Some? && s.active.value.id == id && id in s.writing && id !in s.outcomes && s.state.Ready?
    requires s.active.value.displacedByEmergencyStop && s.stopPending.Some? && s.jobs == []
    requires !s.active.value.origin.Stop? && !s.active.value.origin.Probe?
    requires s.stopPending.value.spec.Encodable() && !env.writeThrows(s.stopPending.value.id)
    ensures
      var stop := s.stopPending.value;
      Step(env, s, WriteOk(id))
      == s.(writing := s.writing - {id} + {stop.id}, active := Some(Written(stop)), stopPending := None,
            outcomes := s.outcomes[id := Rejected(DisplacedInFlight)],
            writes := s.writes + [WriteRecord(stop.id, stop.origin, s.token, stop.spec.Bytes())])
  {
    hide RequestSpec.Encodable, RequestSpec.Bytes, StartRequest, Drain, Settle;
    var stop := s.stopPending.value;
    var o := Rejected(DisplacedInFlight);
    var origin := s.active.value.origin;
    var jobs := if origin.Leased? then [Job(id, origin, o)] else [];
    var v := s.(writing := s.writing - {id}, active := None, outcomes := s.outcomes[id := o], jobs := jobs);
    SettleShape(s.(writing := s.writing - {id}), id, origin, o);
    assert Pump(env, v) == StartRequest(env, v.(stopPending := None), stop);
    StartIsClean(env, v.(stopPending := None), stop);
    assert s.jobs + [Job(id, origin, o)] == [Job(id, origin, o)];
    assert DoWriteOk(env, s, id) == Pump(env, v);
    if origin.Leased? { DisplacedQuietly(Pump(env, v), jobs[0]); } else { NoReaction(Pump(env, v)); }
  }

  // ---------------------------------------------------------------- recovery

  /** The reader is back: the probe goes out, as command 1 without payload, and nothing else moves. */
  lemma RecoveryProbes(env: Env, s: Engine)
    requires Inv(s) && s.state.RestartingReader? && !env.writeThrows(s.nextId)
    ensures
      Step(env, s, RestartOk(s.epoch))
      == s.(state := Probing, restarting := s.restarting - {s.epoch}, nextId := s.nextId + 1,
            active := Some(ActiveRequest(s.nextId, 1, ProtocolV1, Writing, Probe(s.epoch), false)),
            writing := s.writing + {s.nextId},
            writes := s.writes + [WriteRecord(s.nextId, Probe(s.epoch), s.token, [0x24, 0x4d, 0x3c, 0, 1, 1])])
  {
    hide PlacesOk, LogOk, LeaseOk, StopOk;
    NothingQueued(s);
    ProbeBytes();
  }

  lemma ProbeBytes()
    ensures PROBE_SPEC.Encodable() && PROBE_SPEC.Bytes() == [0x24, 0x4d, 0x3c, 0, 1, 1]
  {
    assert PROBE_SPEC.Encodable();
    var f := RequestFrame(1, [], PROBE_SPEC.Options());
    assert f == MspFrame(V1, Direction.Request, 1, 0, []);
    V1ProbeWord(f);
  }

  lemma V1ProbeWord(f: MspFrame)
    requires f == MspFrame(V1, Direction.Request, 1, 0, [])
    ensures Render(f, MinimalJumbo(f)) == [0x24, 0x4d, 0x3c, 0, 1, 1]
  {
    hide Xor;
    assert Body(f, false) == [0, 1];
    XorOfTheProbe();
    assert [0, 1][..1] == [0] && [0][..0] == [];
    assert XorSum(0, [0]) == 0;
  }

  lemma XorOfTheProbe()
    ensures Xor(0, 0) == 0 && Xor(0, 1) == 1
  {
    assert Pow2(8) == 256;
    XorWithNothing(0, 8);
    XorWithNothing(1, 8);
  }

  lemma {:induction false} XorWithNothing(b: byte, width: nat)
    requires b < Pow2(width) && b <= 1
    ensures XorBits(0, b, width) == b
  {
    if width > 1 {
      XorWithNothing(0, width - 1);
    } else if width == 1 {
      assert XorBits(0, 0, 0) == 0;
    }
  }

  /** Neither the reader nor the probe's write came through: recovery has failed. */
  lemma RecoveryFails(env: Env, s: Engine)
    requires Inv(s) && s.state.RestartingReader?
    ensures Step(env, s, RestartFailed(s.epoch))
            == s.(state := RecoveryFailed, restarting := s.restarting - {s.epoch})
    ensures
      var t := Step(env, s, RestartOk(s.epoch));
      env.writeThrows(s.nextId) ==>
        t.state.RecoveryFailed? && t.active.None? && t.epoch == s.epoch
        && t.outcomes == s.outcomes[s.nextId := Rejected(ProbeFailed)]
  {
    hide PlacesOk, LogOk, LeaseOk, StopOk;
    NothingQueued(s);
    ProbeBytes();
  }

  /** A recovery of an earlier epoch, or of a session that is over, no longer counts. */
  lemma StaleRecoveryIsForgotten(env: Env, s: Engine, epoch: nat)
    requires Inv(s) && epoch in s.restarting && (epoch != s.epoch || s.state.Disconnected?)
    ensures Step(env, s, RestartOk(epoch)) == s.(restarting := s.restarting - {epoch})
    ensures Step(env, s, RestartFailed(epoch)) == s.(restarting := s.restarting - {epoch})
  {
    hide PlacesOk, LogOk, LeaseOk, StopOk, CallbacksOk;
    NothingQueued(s);
  }

  /** Any answer to the probe, be it an error frame, ends the recovery well. */
  lemma AnsweredProbeIsReady(env: Env, s: Engine, f: MspFrame)
    requires Inv(s) && s.state.Probing? && !f.direction.Request?
    requires s.active.Some? && f.command == s.active.value.command && f.Protocol() == s.active.value.protocol
    ensures
      var id := s.active.value.id;
      Step(env, s, Frames([f])) == s.(state := Ready, active := None, timers := s.timers - {id},
                                      outcomes := s.outcomes[id := Resolved(f)])
  {
    hide PlacesOk, LogOk, LeaseOk, StopOk, CallbacksOk;
    NothingQueued(s);
    OneFrame(env, s, f);
  }

  lemma OneFrame(env: Env, s: Engine, f: MspFrame)
    ensures DoFrames(env, s, [f]) == DoFrame(env, s, f)
  {
    hide DoFrame;
    assert [f][1..] == [];
    assert DoFrames(env, DoFrame(env, s, f), []) == DoFrame(env, s, f);
  }

  /** A probe that times out, or whose write fails for any reason, ends it badly, with no further desync. */
  lemma UnansweredProbeFails(env: Env, s: Engine, f: WriteFailure)
    requires Inv(s) && s.state.Probing?
    ensures
      var id := s.active.value.id;
      var failed := s.(state := RecoveryFailed, active := None, outcomes := s.outcomes[id := Rejected(ProbeFailed)]);
      && (id in s.timers ==> Step(env, s, TimerFired(id)) == failed.(timers := {}))
      && (id in s.writing ==> Step(env, s, WriteFailed(id, f)) == failed.(writing := s.writing - {id}))
  {
    hide PlacesOk, LogOk, LeaseOk, StopOk, Drain, Settle;
    NothingQueued(s);
    var id := s.active.value.id;
    var o := Rejected(ProbeFailed);
    var t0 := s.(timers := s.timers - {id});
    var w0 := s.(writing := s.writing - {id});
    ProbeFailure(t0, id, s.active.value.origin);
    ProbeFailure(w0, id, s.active.value.origin);
    NoReaction(Settle(t0, id, s.active.value.origin, o).(active := None));
    NoReaction(Settle(w0, id, s.active.value.origin, o).(active := None));
    if id in s.timers {
      assert s.timers - {id} == {};
    }
  }

  lemma ProbeFailure(s: Engine, id: RequestId, origin: Origin)
    requires id !in s.outcomes && origin == Probe(s.epoch) && s.state.Probing?
    ensures Settle(s, id, origin, Rejected(ProbeFailed))
            == s.(outcomes := s.outcomes[id := Rejected(ProbeFailed)], state := RecoveryFailed)
  {
  }

  // ---------------------------------------------------------------- frames

  /** A frame of another command or protocol, a request, or one that nobody waits for, changes nothing. */
  lemma ForeignFrameIsIgnored(env: Env, s: Engine, f: MspFrame)
    requires Inv(s)
    requires s.active.None? || f.command != s.active.value.command || f.Protocol() != s.active.value.protocol
             || f.direction.Request?
    ensures Step(env, s, Frames([f])) == s
  {
    hide PlacesOk, LogOk, LeaseOk, StopOk, CallbacksOk;
    NothingQueued(s);
    OneFrame(env, s, f);
  }

  /** The frame the active request waits for resolves it, or rejects it if it is an error frame. */
  lemma OwnFrameSettles(env: Env, s: Engine, f: MspFrame)
    requires Inv(s) && s.active.Some? && s.active.value.origin.Ordinary? && !f.direction.Request?
    requires f.command == s.active.value.command && f.Protocol() == s.active.value.protocol
    requires s.queue == [] && s.stopPending.None?
    ensures
      var id := s.active.value.id;
      Step(env, s, Frames([f]))
      == s.(active := None, timers := s.timers - {id},
            outcomes := s.outcomes[id := if f.direction.Error? then Rejected(RemoteError) else Resolved(f)])
  {
    hide PlacesOk, LogOk, LeaseOk, CallbacksOk;
    NothingQueued(s);
    OneFrame(env, s, f);
  }

  // ---------------------------------------------------------------- admission

  /** Why a request is refused at the door, in the order the reasons are given. */
  function RefusedFor(env: Env, s: Engine): Option<Code> {
    if s.state.Desynchronized? || s.state.RestartingReader? || s.state.Probing? then Some(Recovering)
    else if s.state.RecoveryFailed? then Some(RecoveryRequired)
    else if s.state.Closing? then Some(SessionClosed)
    else if s.state.Disconnected? then
      Some(if s.disconnectCause == Some(DeviceDetached) then DeviceDetached else SessionClosed)
    else if |s.queue| >= env.maxPending then Some(QueueFull)
    else None
  }

  /** A refusal leaves a promise already rejected, and nothing else. */
  function Turned(s: Engine, code: Code): Engine {
    s.(nextId := s.nextId + 1, outcomes := s.outcomes[s.nextId := Rejected(code)])
  }

  lemma RefusalsAgree(env: Env, s: Engine)
    ensures RefusedFor(env, s)
            == if CheckAcceptance(s).Some? then CheckAcceptance(s)
               else if |s.queue| >= env.maxPending then Some(QueueFull) else None
  {
  }

  lemma NoLease(s: Engine)
    requires Inv(s) && s.state != Ready
    ensures s.token.None?
  {
    hide PlacesOk, LogOk, CallbacksOk, ProbeOk, StopOk;
  }

  /** A request is refused while a lease is held, and otherwise for the first reason there is. */
  lemma RequestIsTurnedAway(env: Env, s: Engine, spec: RequestSpec)
    requires Inv(s)
    ensures s.token.Some? ==> Step(env, s, Event.Request(spec)) == Turned(s, LeaseHeld)
    ensures s.token.None? && RefusedFor(env, s).Some? ==>
              Step(env, s, Event.Request(spec)) == Turned(s, RefusedFor(env, s).value)
  {
    hide PlacesOk, LogOk, CallbacksOk, ProbeOk, StopOk, LeaseOk, CheckAcceptance, RefusedFor;
    NothingQueued(s);
    RefusalsAgree(env, s);
  }

  /** Only the holder of the live token gets in under the lease, and only while the queue has room. */
  lemma LeaseRequestIsTurnedAway(env: Env, s: Engine, token: Token, spec: RequestSpec)
    requires Inv(s)
    ensures s.token != Some(token) ==> Step(env, s, LeaseRequest(token, spec)) == Turned(s, CapabilityInvalid)
    ensures s.token == Some(token) ==> (RefusedFor(env, s).Some? <==> |s.queue| >= env.maxPending)
    ensures s.token == Some(token) && |s.queue| >= env.maxPending ==>
              var t := Step(env, s, LeaseRequest(token, spec));
              t.outcomes == s.outcomes[s.nextId := Rejected(QueueFull)] && t.writes == s.writes && t.queue == s.queue
  {
    hide PlacesOk, LogOk, CallbacksOk, ProbeOk, StopOk, LeaseOk;
    NothingQueued(s);
    if s.token != Some(token) {
    } else {
      assert s.state.Ready? by { if s.state != Ready { NoLease(s); } }
      if |s.queue| >= env.maxPending {
        FullForTheLease(env, s, token, spec);
      }
    }
  }

  lemma FullForTheLease(env: Env, s: Engine, token: Token, spec: RequestSpec)
    requires s.token == Some(token) && s.state.Ready? && |s.queue| >= env.maxPending
    requires s.jobs == [] && s.nextId !in s.outcomes
    ensures
      var t := Step(env, s, LeaseRequest(token, spec));
      t.outcomes == s.outcomes[s.nextId := Rejected(QueueFull)] && t.writes == s.writes && t.queue == s.queue
  {
    hide Pump, Drain, Settle, FaultLease;
    var j := Job(s.nextId, Leased(token), Rejected(QueueFull));
    var u := Turned(s, QueueFull).(jobs := [j]);
    assert DoLeaseRequest(env, s, token, spec) == Refuse(s, Leased(token), QueueFull) == u by {
      SettleShape(s.(nextId := s.nextId + 1), s.nextId, Leased(token), Rejected(QueueFull));
    }
    OneReaction(u, j);
    FaultLeaseChanges(u.(jobs := []));
  }

  /** Of the two ways in, the event and the origin it gives its request. */
  predicate Admits(s: Engine, e: Event, spec: RequestSpec, origin: Origin) {
    || (e == Event.Request(spec) && s.token.None? && origin.Ordinary?)
    || (e.LeaseRequest? && e.spec == spec && s.token == Some(e.token) && origin == Leased(e.token))
  }

  /** Behind an open request, an admitted one waits at the end of the queue. */
  lemma AdmittedWaits(env: Env, s: Engine, e: Event, spec: RequestSpec, origin: Origin)
    requires Inv(s) && Admits(s, e, spec, origin) && RefusedFor(env, s).None? && s.active.Some?
    ensures Step(env, s, e)
            == s.(nextId := s.nextId + 1, queue := s.queue + [PendingRequest(s.nextId, spec, origin)])
  {
    hide PlacesOk, LogOk, CallbacksOk, ProbeOk, StopOk, LeaseOk;
    NothingQueued(s);
  }

  /** With nothing open, it is handed to the transport within the same call. */
  lemma AdmittedIsWritten(env: Env, s: Engine, e: Event, spec: RequestSpec, origin: Origin)
    requires Inv(s) && Admits(s, e, spec, origin) && RefusedFor(env, s).None? && s.active.None?
    requires spec.Encodable() && !env.writeThrows(s.nextId)
    ensures
      var r := PendingRequest(s.nextId, spec, origin);
      Step(env, s, e)
      == s.(nextId := s.nextId + 1, active := Some(Written(r)), writing := s.writing + {r.id},
            writes := s.writes + [WriteRecord(r.id, origin, s.token, spec.Bytes())])
  {
    hide PlacesOk, LogOk, CallbacksOk, ProbeOk, LeaseOk, StopOk, StartRequest, RequestSpec.Encodable, RequestSpec.Bytes;
    NothingQueued(s);
    var r := PendingRequest(s.nextId, spec, origin);
    assert s.stopPending.None? && s.queue == [] && s.queue + [r] == [r] && [r][1..] == [];
    var q := s.(nextId := s.nextId + 1, queue := [r]);
    assert s.state.Ready?;
    assert Act(env, s, e) == Pump(env, q) == StartRequest(env, q.(queue := []), r);
    StartIsClean(env, q.(queue := []), r);
    assert StartRequest(env, q.(queue := []), r).queue == s.queue;
  }

  // ---------------------------------------------------------------- the emergency stop

  /** A foreign token is refused, and a stop already registered is joined. */
  lemma StopIsNotTaken(env: Env, s: Engine, token: Token, spec: RequestSpec)
    requires Inv(s)
    ensures s.token != Some(token) ==> Step(env, s, EmergencyStop(token, spec)) == Turned(s, CapabilityInvalid)
    ensures s.token == Some(token) && s.stopRegistered.Some? ==> Step(env, s, EmergencyStop(token, spec)) == s
  {
    hide PlacesOk, LogOk, CallbacksOk, ProbeOk, StopOk, LeaseOk;
    NothingQueued(s);
  }

  /** With nothing open, a stop is on its way to the transport when the call returns. */
  lemma StopIsWrittenAtOnce(env: Env, s: Engine, token: Token, spec: RequestSpec)
    requires Inv(s) && s.token == Some(token) && s.stopRegistered.None? && s.active.None?
    requires spec.Encodable() && !env.writeThrows(s.nextId)
    ensures
      var r := PendingRequest(s.nextId, spec, Stop(token));
      Step(env, s, EmergencyStop(token, spec))
      == s.(nextId := s.nextId + 1, active := Some(Written(r)), stopRegistered := Some(s.nextId),
            stopAmbiguous := false, stopDeferred := false, writing := s.writing + {s.nextId},
            writes := s.writes + [WriteRecord(s.nextId, Stop(token), s.token, spec.Bytes())])
  {
    hide PlacesOk, LogOk, CallbacksOk, ProbeOk;
    NothingQueued(s);
    IdleStopStarts(env, s, token, spec);
  }

  lemma IdleStopStarts(env: Env, s: Engine, token: Token, spec: RequestSpec)
    requires s.token == Some(token) && s.stopRegistered.None? && s.active.None? && s.state.Ready?
    requires s.queue == [] && s.stopPending.None? && s.jobs == []
    requires spec.Encodable() && !env.writeThrows(s.nextId)
    ensures
      var r := PendingRequest(s.nextId, spec, Stop(token));
      Step(env, s, EmergencyStop(token, spec))
      == s.(nextId := s.nextId + 1, active := Some(Written(r)), stopRegistered := Some(s.nextId),
            stopAmbiguous := false, stopDeferred := false, writing := s.writing + {s.nextId},
            writes := s.writes + [WriteRecord(s.nextId, Stop(token), s.token, spec.Bytes())])
  {
    hide RequestSpec.Encodable, RequestSpec.Bytes, StartRequest;
    var r := PendingRequest(s.nextId, spec, Stop(token));
    var q := s.(nextId := s.nextId + 1, stopPending := Some(r), stopRegistered := Some(s.nextId),
                stopAmbiguous := false, stopDeferred := false);
    assert RegisterStop(s, token, spec) == q;
    assert DoEmergencyStop(env, s, token, spec) == Pump(env, q) == StartRequest(env, q.(stopPending := None), r);
    StartIsClean(env, q.(stopPending := None), r);
  }

  /** An answer that is being waited for is given up: the slot goes to the stop. */
  lemma StopDisplacesTheWait(env: Env, s: Engine, token: Token, spec: RequestSpec)
    requires Inv(s) && s.token == Some(token) && s.stopRegistered.None? && s.queue == []
    requires s.active.Some? && s.active.value.phase.AwaitingResponse?
    requires spec.Encodable() && !env.writeThrows(s.nextId)
    ensures
      var r := PendingRequest(s.nextId, spec, Stop(token));
      var a := s.active.value;
      Step(env, s, EmergencyStop(token, spec))
      == s.(nextId := s.nextId + 1, active := Some(Written(r)), stopRegistered := Some(s.nextId),
            stopAmbiguous := a.command == spec.command && a.protocol == ProtocolOf(spec.wireFormat),
            stopDeferred := false, timers := s.timers - {a.id}, writing := s.writing + {s.nextId},
            outcomes := s.outcomes[a.id := Rejected(DisplacedInFlight)],
            writes := s.writes + [WriteRecord(s.nextId, Stop(token), s.token, spec.Bytes())])
  {
    hide PlacesOk, LogOk, CallbacksOk;
    NothingQueued(s);
    assert s.active.value.origin == Leased(token) by { OwnWork(s, token); }
    assert s.stopPending.None? && s.state.Ready?;
    WaitIsDisplaced(env, s, token, spec);
  }

  lemma OwnWork(s: Engine, token: Token)
    requires Inv(s) && s.token == Some(token) && s.stopRegistered.None? && s.active.Some?
    ensures s.active.value.origin == Leased(token)
  {
    hide PlacesOk, LogOk, CallbacksOk, ProbeOk;
  }

  lemma WaitIsDisplaced(env: Env, s: Engine, token: Token, spec: RequestSpec)
    requires s.token == Some(token) && s.stopRegistered.None? && s.queue == [] && s.stopPending.None? && s.jobs == []
    requires s.state.Ready? && s.active.Some? && s.active.value.phase.AwaitingResponse?
    requires s.active.value.origin == Leased(token) && s.active.value.id !in s.outcomes
    requires spec.Encodable() && !env.writeThrows(s.nextId)
    ensures
      var r := PendingRequest(s.nextId, spec, Stop(token));
      var a := s.active.value;
      Step(env, s, EmergencyStop(token, spec))
      == s.(nextId := s.nextId + 1, active := Some(Written(r)), stopRegistered := Some(s.nextId),
            stopAmbiguous := a.command == spec.command && a.protocol == ProtocolOf(spec.wireFormat),
            stopDeferred := false, timers := s.timers - {a.id}, writing := s.writing + {s.nextId},
            outcomes := s.outcomes[a.id := Rejected(DisplacedInFlight)],
            writes := s.writes + [WriteRecord(s.nextId, Stop(token), s.token, spec.Bytes())])
  {
    hide RequestSpec.Encodable, RequestSpec.Bytes, StartRequest, Drain, RegisterStop;
    var r := PendingRequest(s.nextId, spec, Stop(token));
    var a := s.active.value;
    var j := Job(a.id, a.origin, Rejected(DisplacedInFlight));
    var q := s.(nextId := s.nextId + 1, active := None, stopRegistered := Some(s.nextId), stopPending := Some(r),
                stopAmbiguous := a.command == spec.command && a.protocol == ProtocolOf(spec.wireFormat),
                stopDeferred := false, timers := s.timers - {a.id},
                outcomes := s.outcomes[a.id := Rejected(DisplacedInFlight)], jobs := [j]);
    assert RegisterStop(s, token, spec) == q by { WaitRegistered(s, token, spec); }
    assert DoEmergencyStop(env, s, token, spec) == Pump(env, q) == StartRequest(env, q.(stopPending := None), r);
    StartIsClean(env, q.(stopPending := None), r);
    DisplacedQuietly(Pump(env, q), j);
  }

  lemma Registered(s: Engine, token: Token, spec: RequestSpec)
    requires s.queue == [] && s.active.Some?
    ensures
      var q := RegisterStop(s, token, spec);
      var p := DisplaceActive(s);
      var a := s.active.value;
      q == p.(nextId := s.nextId + 1, stopPending := Some(PendingRequest(s.nextId, spec, Stop(token))),
              stopRegistered := Some(s.nextId),
              stopAmbiguous := a.command == spec.command && a.protocol == ProtocolOf(spec.wireFormat),
              stopDeferred := a.phase.Writing?)
  {
    hide DisplaceActive;
    assert s.(queue := []) == s;
  }

  lemma WaitRegistered(s: Engine, token: Token, spec: RequestSpec)
    requires s.queue == [] && s.jobs == [] && s.active.Some? && s.active.value.phase.AwaitingResponse?
    requires s.active.value.origin == Leased(token) && s.active.value.id !in s.outcomes
    ensures
      var a := s.active.value;
      RegisterStop(s, token, spec)
      == s.(nextId := s.nextId + 1, active := None, stopRegistered := Some(s.nextId),
            stopPending := Some(PendingRequest(s.nextId, spec, Stop(token))),
            stopAmbiguous := a.command == spec.command && a.protocol == ProtocolOf(spec.wireFormat),
            stopDeferred := false, timers := s.timers - {a.id},
            outcomes := s.outcomes[a.id := Rejected(DisplacedInFlight)],
            jobs := [Job(a.id, a.origin, Rejected(DisplacedInFlight))])
  {
    hide RegisterStop, Settle;
    var a := s.active.value;
    Registered(s, token, spec);
    SettleShape(s.(timers := s.timers - {a.id}), a.id, a.origin, Rejected(DisplacedInFlight));
  }

  /** A write that is running is waited for: its request is marked, and the stop comes next. */
  lemma StopWaitsForTheWrite(env: Env, s: Engine, token: Token, spec: RequestSpec)
    requires Inv(s) && s.token == Some(token) && s.stopRegistered.None? && s.queue == []
    requires s.active.Some? && s.active.value.phase.Writing?
    ensures
      var a := s.active.value;
      Step(env, s, EmergencyStop(token, spec))
      == s.(nextId := s.nextId + 1, active := Some(a.(displacedByEmergencyStop := true)),
            stopPending := Some(PendingRequest(s.nextId, spec, Stop(token))), stopRegistered := Some(s.nextId),
            stopAmbiguous := a.command == spec.command && a.protocol == ProtocolOf(spec.wireFormat),
            stopDeferred := true)
  {
    hide PlacesOk, LogOk, CallbacksOk, RegisterStop;
    NothingQueued(s);
    Registered(s, token, spec);
  }

  // ---------------------------------------------------------------- the end of the session

  /** The session is over: every request is settled, each one that was open with the stated code. */
  ghost predicate OverWith(s: Engine, t: Engine, code: Code) {
    && t.state.Disconnected? && t.active.None? && t.queue == [] && t.stopPending.None? && t.token.None?
    && t.timers == {} && t.writes == s.writes && t.epoch == s.epoch && t.nextId == s.nextId
    && (forall id: RequestId :: id < s.nextId <==> id in t.outcomes)
    && (forall id: RequestId :: id in s.outcomes ==> id in t.outcomes && t.outcomes[id] == s.outcomes[id])
    && (forall id: RequestId :: id in t.outcomes && id !in s.outcomes ==>
          t.outcomes[id] == Rejected(if s.stopPending.Some? && s.stopPending.value.id == id then StopAbortedBySessionEnd
                                     else code))
  }

  lemma RejectedFor(b: Engine, code: Code)
    requires Ending(b) && (code.SessionClosed? || code.DeviceDetached?)
    ensures
      var t := RejectAll(b, code);
      && (forall id: RequestId :: id in b.outcomes ==> id in t.outcomes && t.outcomes[id] == b.outcomes[id])
      && (forall id: RequestId :: id in t.outcomes && id !in b.outcomes ==>
            t.outcomes[id] == Rejected(if b.stopPending.Some? && b.stopPending.value.id == id
                                       then StopAbortedBySessionEnd else code))
  {
    hide Count, LogOk, MidStop, JobsOk, SettleAll, AbortStop, RejectActive;
    var c := RejectActive(b, code);
    ActiveIsRejected(b, code);
    ActiveAlone(b, code);
    EmptyingSettles(c, StopAbortedBySessionEnd, Rejected(code));
    if b.stopPending.Some? {
      assert Places(b, b.stopPending.value.id) + InSlot(None, b.stopPending.value.id) <= 1;
    }
  }

  lemma ActiveAlone(b: Engine, code: Code)
    requires b.state.Closing? || b.state.Disconnected?
    ensures
      var c := RejectActive(b, code);
      && (forall id: RequestId :: id in b.outcomes ==> id in c.outcomes && c.outcomes[id] == b.outcomes[id])
      && (forall id: RequestId :: id in c.outcomes && id !in b.outcomes ==>
            c.outcomes[id] == Rejected(code) && b.active.Some? && b.active.value.id == id)
  {
  }

  lemma EverythingSettled(t: Engine)
    requires Inv(t) && t.active.None? && t.queue == [] && t.stopPending.None?
    ensures forall id: RequestId :: id < t.nextId <==> id in t.outcomes
  {
    hide LogOk, CallbacksOk, LeaseOk, ProbeOk, StopOk, RestOk;
    forall id: RequestId ensures id < t.nextId <==> id in t.outcomes {
      assert Places(t, id) + InSlot(None, id) == if id < t.nextId then 1 else 0;
    }
  }

  /** What either end leaves behind its reactions. */
  lemma OverAfterReactions(env: Env, s: Engine, e: Event, b: Engine, code: Code)
    requires Inv(s) && (e.Detach? || e.Dispose?) && Act(env, s, e).state.Disconnected?
    requires Ending(b) && (code.SessionClosed? || code.DeviceDetached?)
    requires b.outcomes == s.outcomes && b.stopPending == s.stopPending && b.nextId == s.nextId && b.epoch == s.epoch
    requires b.writes == s.writes && b.token.None?
    requires var r := RejectAll(b, code);
             Act(env, s, e) == r.(state := Disconnected, disconnectCause := Act(env, s, e).disconnectCause)
    ensures OverWith(s, Step(env, s, e), code)
    ensures Step(env, s, e).disconnectCause == Act(env, s, e).disconnectCause
  {
    hide Inv, Mid, Quiet, RejectAll, Drain, Act, PlacesOk, LogOk, MidStop, JobsOk, Grew;
    InvIsMid(s);
    var u := Act(env, s, e);
    assert Mid(u, None) && Quiet(u) by { ActIsCalm(env, s, e); }
    RejectAllEnds(b, code);
    RejectedFor(b, code);
    DrainShape(u);
    StepKeepsInv(env, s, e);
    DisconnectedIsOver(Step(env, s, e));
    EverythingSettled(Step(env, s, e));
  }

  lemma DisconnectedIsOver(t: Engine)
    requires Inv(t) && t.state.Disconnected?
    ensures t.active.None? && t.queue == [] && t.stopPending.None? && t.token.None? && t.timers == {}
  {
    hide PlacesOk, LogOk, StopOk;
  }

  /** A detached device, noticed at any time, ends the session for that reason. */
  lemma DetachEndsTheSession(env: Env, s: Engine)
    requires Inv(s)
    ensures OverWith(s, Step(env, s, Detach), DeviceDetached)
    ensures Step(env, s, Detach).disconnectCause == Some(DeviceDetached)
  {
    hide Inv, Mid, Quiet, RejectAll, Drain, PlacesOk, LogOk, MidStop, JobsOk, OverWith;
    InvIsMid(s);
    var b := InvalidateLease(s).(disconnectCause := Some(DeviceDetached), state := Disconnected);
    SessionEnds(s, b);
    RejectAllEnds(b, DeviceDetached);
    OverAfterReactions(env, s, Detach, b, DeviceDetached);
  }

  lemma DisposedAfterwards(env: Env, s: Engine)
    requires Inv(s) && s.state.Disconnected?
    ensures Step(env, s, Dispose) == s.(disposed := true)
  {
    hide PlacesOk, LogOk, CallbacksOk, ProbeOk, StopOk;
    NothingQueued(s);
    assert Drain(s.(disposed := true)) == s.(disposed := true);
  }

  /** Disposal closes an open session once; after a detach it closes nothing any more, and the cause stays. */
  lemma DisposeEndsTheSession(env: Env, s: Engine)
    requires Inv(s)
    ensures !s.state.Disconnected? ==>
              && OverWith(s, Step(env, s, Dispose), SessionClosed)
              && Step(env, s, Dispose).disconnectCause == Some(SessionClosed)
    ensures s.state.Disconnected? ==> Step(env, s, Dispose) == s.(disposed := true)
  {
    hide Mid, Quiet, RejectAll, Drain, PlacesOk, LogOk, MidStop, JobsOk, OverWith, CallbacksOk, ProbeOk, StopOk;
    InvIsMid(s);
    if s.state.Disconnected? {
      DisposedAfterwards(env, s);
    } else {
      assert !s.disposed;
      var b := InvalidateLease(s.(disposed := true)).(state := Closing);
      SessionEnds(s, b);
      RejectAllEnds(b, SessionClosed);
      OverAfterReactions(env, s, Dispose, b, SessionClosed);
    }
  }

  // ---------------------------------------------------------------- the lease

  /** A lease is granted to the first who asks while nothing is open, nothing is wrong and nobody holds one. */
  lemma LeaseIsGrantedExactlyWhen(env: Env, s: Engine)
    requires Inv(s)
    ensures
      var free := s.state.Ready? && !s.disposed && s.active.None? && s.queue == [] && s.stopPending.None?;
      Step(env, s, Acquire)
      == if s.token.None? && s.epoch !in s.faultEpochs && free
         then s.(token := Some(s.nextToken), leaseEpoch := Some(s.epoch), nextToken := s.nextToken + 1) else s
    ensures AcquireVerdict(s).AlreadyHeld? <==> s.token.Some?
    ensures AcquireVerdict(s).FaultLatched? <==> s.token.None? && s.epoch in s.faultEpochs
  {
    hide PlacesOk, LogOk, CallbacksOk, ProbeOk, StopOk, LeaseOk;
    NothingQueued(s);
  }

  /** It is given back by its holder once none of its work is open, and not before. */
  lemma LeaseIsReleasedExactlyWhen(env: Env, s: Engine, token: Token)
    requires Inv(s)
    ensures
      var done := s.active.None? && s.queue == [] && s.stopPending.None?;
      && Step(env, s, ReleaseLease(token))
         == (if s.token == Some(token) && done
             then s.(retired := s.retired + {token}, token := None, leaseEpoch := None) else s)
      && (s.token == Some(token) ==> ReleaseVerdict(s, token) == if done then Released else WorkUnsettled)
    ensures s.token != Some(token) ==>
              ReleaseVerdict(s, token) == if token in s.invalidated then Invalidated
                                          else if token in s.retired then AlreadyReleased else NotOwner
  {
    hide PlacesOk, LogOk, CallbacksOk, ProbeOk, StopOk;
    NothingQueued(s);
  }

  /** Its holder can fail it closed at any time, open work or not; the work stays open. */
  lemma LeaseIsFailedByItsHolder(env: Env, s: Engine, token: Token)
    requires Inv(s)
    ensures Step(env, s, FaultByToken(token))
            == if s.token == Some(token)
               then s.(token := None, leaseEpoch := None, invalidated := s.invalidated + {token},
                       faultEpochs := s.faultEpochs + {s.epoch}) else s
  {
    hide PlacesOk, LogOk, CallbacksOk, ProbeOk, StopOk;
    NothingQueued(s);
  }
}
