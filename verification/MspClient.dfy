/** The request engine itself: mutable fields, one method per public call and per platform callback. */
module MspClientClass {
  import opened MspTypes
  import opened MspEncoder
  import opened MspWireGrammar
  import opened MspClientInvariants
  import opened MspClientRuns
  import M = MspClientModel

  /** What emergencyStopWithMotorTestLease answers synchronously. */
  datatype StopDispatch = StopDispatch(
    frame: M.RequestId,
    attributionAmbiguous: bool,
    deferredBehindActiveWrite: bool,
    joinedExistingStop: bool)

  class MspClient {
    const env: M.Env

    var state: M.ClientState
    var queue: seq<M.PendingRequest>
    var active: Option<M.ActiveRequest>
    var emergencyStopPending: Option<M.PendingRequest>
    var emergencyStopRegistered: Option<M.RequestId>
    var emergencyStopAttributionAmbiguous: bool
    var emergencyStopDeferredBehindActiveWrite: bool
    var motorTestLeaseToken: Option<M.Token>
    var motorTestLeaseEpoch: Option<nat>
    var retiredTokens: set<M.Token>
    var invalidatedTokens: set<M.Token>
    var faultEpochs: set<nat>
    var mspEpoch: nat
    var disconnectCause: Option<M.Cause>
    var disposed: bool

    // Supplies of fresh identities, the promises handed out, and what the platform still owes.
    var nextId: M.RequestId
    var nextToken: M.Token
    var outcomes: map<M.RequestId, M.Outcome>
    var writing: set<M.RequestId>
    var timers: set<M.RequestId>
    var restarting: set<nat>
    var writes: seq<M.WriteRecord>
    var jobs: seq<M.Job>

    ghost function View(): M.Engine
      reads this
    {
      M.Engine(state, queue, active, emergencyStopPending, emergencyStopRegistered, emergencyStopAttributionAmbiguous,
               emergencyStopDeferredBehindActiveWrite, motorTestLeaseToken, motorTestLeaseEpoch, retiredTokens,
               invalidatedTokens, faultEpochs, mspEpoch, disconnectCause, disposed, nextId, nextToken, outcomes,
               writing,
               timers, restarting, writes, jobs)
    }

    /** Between two public calls nothing hangs, nothing is lost and the lease is exclusive. */
    ghost predicate Valid()
      reads this
    {
      Inv(View())
    }

    constructor (env: M.Env)
      ensures View() == M.INITIAL && Valid() && this.env == env
    {
      this.env := env;
      state := M.Ready;
      queue := [];
      active := None;
      emergencyStopPending := None;
      emergencyStopRegistered := None;
      emergencyStopAttributionAmbiguous := false;
      emergencyStopDeferredBehindActiveWrite := false;
      motorTestLeaseToken := None;
      motorTestLeaseEpoch := None;
      retiredTokens := {};
      invalidatedTokens := {};
      faultEpochs := {};
      mspEpoch := 0;
      disconnectCause := None;
      disposed := false;
      nextId := 0;
      nextToken := 0;
      outcomes := map[];
      writing := {};
      timers := {};
      restarting := {};
      writes := [];
      jobs := [];
      new;
      InitialInv();
    }

    // ---------------------------------------------------------------- settling

    predicate IsCurrentRecoveryAttempt(epoch: nat)
      reads this
    {
      state != M.Disconnected && state != M.Closing && mspEpoch == epoch
    }

    /** SettleOnce: the first settlement wins, and only it is told so. */
    method Settle(id: M.RequestId, origin: M.Origin, o: M.Outcome) returns (won: bool)
      modifies this
      ensures View() == M.Settle(old(View()), id, origin, o)
      ensures won <==> id !in old(outcomes)
    {
      if id in outcomes {
        return false;
      }
      outcomes := outcomes[id := o];
      match origin {
        case Ordinary =>
        case Probe(epoch) =>
          if IsCurrentRecoveryAttempt(epoch) {
            state := if o.Resolved? then M.Ready else M.RecoveryFailed;
          }
        case _ =>
          jobs := jobs + [M.Job(id, origin, o)];
      }
      return true;
    }

    /** Takes everything out of the queue and rejects it, oldest first. */
    method RejectQueue(o: M.Outcome)
      modifies this
      ensures View() == M.SettleAll(old(View()).(queue := []), old(queue), o)
    {
      var rejected := queue;
      queue := [];
      ghost var start := View();
      var i := 0;
      while i < |rejected|
        invariant 0 <= i <= |rejected|
        invariant M.SettleAll(View(), rejected[i..], o) == M.SettleAll(start, rejected, o)
      {
        hide M.Settle;
        assert rejected[i..][1..] == rejected[i + 1..];
        var _ := Settle(rejected[i].id, rejected[i].origin, o);
        i := i + 1;
      }
    }

    // ---------------------------------------------------------------- the lease

    method InvalidateMotorTestLease()
      modifies this
      ensures View() == M.InvalidateLease(old(View()))
    {
      if motorTestLeaseToken.None? {
        return;
      }
      invalidatedTokens := invalidatedTokens + {motorTestLeaseToken.value};
      motorTestLeaseToken := None;
      motorTestLeaseEpoch := None;
    }

    method FaultMotorTestLease()
      modifies this
      ensures View() == M.FaultLease(old(View()))
    {
      if motorTestLeaseEpoch.Some? {
        faultEpochs := faultEpochs + {motorTestLeaseEpoch.value};
      }
      InvalidateMotorTestLease();
    }

    method ClearEmergencyStopRegistration(id: M.RequestId)
      modifies this
      ensures View() == M.ClearRegistration(old(View()), id)
    {
      if emergencyStopRegistered != Some(id) {
        return;
      }
      emergencyStopRegistered := None;
      emergencyStopPending := None;
      RecordStopFacts(false, false);
    }

    /** Runs the promise reactions queued during an event, before the next event. */
    method RunReactions()
      modifies this
      ensures View() == M.Drain(old(View()))
    {
      while jobs != []
        invariant M.Drain(View()) == M.Drain(old(View()))
        decreases |jobs|
      {
        hide M.FaultLease, M.ClearRegistration;
        ghost var before := View();
        var job := jobs[0];
        jobs := jobs[1..];
        if job.origin.Stop? {
          ClearEmergencyStopRegistration(job.id);
          if job.outcome.Rejected? {
            FaultMotorTestLease();
          }
        } else if job.outcome.Rejected? && !M.Displacement(job.outcome) {
          FaultMotorTestLease();
        }
        assert View() == M.React(before.(jobs := before.jobs[1..]), before.jobs[0]);
        ReactKeepsJobs(before.(jobs := before.jobs[1..]), before.jobs[0]);
      }
    }

    method AbortRegisteredEmergencyStop(code: M.Code)
      modifies this
      ensures View() == M.AbortStop(old(View()), code)
    {
      hide M.Settle;
      if emergencyStopPending.None? {
        return;
      }
      var stop := emergencyStopPending.value;
      emergencyStopPending := None;
      var _ := Settle(stop.id, stop.origin, M.Rejected(code));
    }

    // ---------------------------------------------------------------- submission

    /** The stop slot is drained ahead of the queue, and only when nothing is active. */
    method Pump()
      modifies this
      ensures View() == M.Pump(env, old(View()))
      decreases M.Backlog(View()), 0
    {
      if state != M.Ready || active.Some? {
        return;
      }
      if emergencyStopPending.Some? {
        var stop := emergencyStopPending.value;
        emergencyStopPending := None;
        StartRequest(stop);
        return;
      }
      if queue == [] {
        return;
      }
      var next := queue[0];
      queue := queue[1..];
      StartRequest(next);
    }

    /** Registers the request as active, then hands its bytes to the transport. */
    method Activate(pending: M.PendingRequest, encoded: seq<byte>)
      requires pending.spec.Encodable() && encoded == pending.spec.Bytes()
      modifies this
      ensures View() == M.Activated(old(View()), pending)
    {
      hide Refusal, Render;
      var spec := pending.spec;
      active := Some(M.ActiveRequest(pending.id, spec.command, ProtocolOf(spec.wireFormat), M.Writing, pending.origin,
                                     false));
      writes := writes + [M.WriteRecord(pending.id, pending.origin, motorTestLeaseToken, encoded)];
    }

    method StartRequest(pending: M.PendingRequest)
      modifies this
      ensures View() == M.StartRequest(env, old(View()), pending)
      decreases M.Backlog(View()), 1
    {
      hide M.Settle, M.Pump, M.DesyncLatch, M.Activated, Refusal, Render;
      var spec := pending.spec;
      var encoded := Encode(spec.command, spec.payload, spec.Options());
      if encoded.Err? {
        M.SettleKeepsBacklog(View(), pending.id, pending.origin, M.Rejected(M.EncodeFailed));
        var _ := Settle(pending.id, pending.origin, M.Rejected(M.EncodeFailed));
        Pump();
        return;
      }
      Activate(pending, encoded.value);
      if !env.writeThrows(pending.id) {
        writing := writing + {pending.id};
      } else if pending.origin.Probe? {
        var _ := Settle(pending.id, pending.origin, M.Rejected(M.ProbeFailed));
        active := None;
      } else {
        var _ := Settle(pending.id, pending.origin, M.Rejected(M.WriteOutcomeUnknown));
        active := None;
        TriggerDesyncLatch();
      }
    }

    // ---------------------------------------------------------------- desynchronization and recovery

    method TriggerDesyncLatch()
      modifies this
      ensures View() == M.DesyncLatch(env, old(View()))
    {
      hide M.FaultLease, M.AbortStop, M.SettleAll;
      FaultMotorTestLease();
      AbortRegisteredEmergencyStop(M.StopAbortedByDesync);
      RejectQueue(M.Rejected(M.Recovering));
      mspEpoch := mspEpoch + 1;
      state := M.Desynchronized;
      StartRecovery();
    }

    method StartRecovery()
      modifies this
      ensures View() == M.StartRecovery(env, old(View()))
    {
      state := M.RestartingReader;
      if env.restartThrows(mspEpoch) {
        state := M.RecoveryFailed;
        return;
      }
      restarting := restarting + {mspEpoch};
    }

    method SendProbe()
      modifies this
      ensures View() == M.SendProbe(env, old(View()))
    {
      hide M.StartRequest;
      state := M.Probing;
      var id := nextId;
      nextId := nextId + 1;
      StartRequest(M.PendingRequest(id, M.PROBE_SPEC, M.Probe(mspEpoch)));
    }

    // ---------------------------------------------------------------- submission of requests

    function CheckAcceptance(): Option<M.Code>
      reads this
    {
      match state
      case Ready => None
      case Desynchronized => Some(M.Recovering)
      case RestartingReader => Some(M.Recovering)
      case Probing => Some(M.Recovering)
      case RecoveryFailed => Some(M.RecoveryRequired)
      case Disconnected => Some(disconnectCause.GetOr(M.SessionClosed))
      case Closing => Some(M.SessionClosed)
    }

    /** A promise that is rejected before its caller sees it. */
    method RejectedPromise(origin: M.Origin, code: M.Code) returns (promise: M.RequestId)
      modifies this
      ensures View() == M.Refuse(old(View()), origin, code) && promise == old(nextId)
    {
      hide M.Settle;
      promise := nextId;
      nextId := nextId + 1;
      assert View() == old(View()).(nextId := promise + 1);
      var _ := Settle(promise, origin, M.Rejected(code));
    }

    method Enqueue(spec: M.RequestSpec, origin: M.Origin) returns (promise: M.RequestId)
      modifies this
      ensures View() == M.Enqueue(env, old(View()), spec, origin) && promise == old(nextId)
    {
      hide M.Refuse, M.Pump;
      var rejectionCode := CheckAcceptance();
      if rejectionCode.Some? {
        promise := RejectedPromise(origin, rejectionCode.value);
        return;
      }
      if |queue| >= env.maxPending {
        promise := RejectedPromise(origin, M.QueueFull);
        return;
      }
      promise := nextId;
      nextId := nextId + 1;
      queue := queue + [M.PendingRequest(promise, spec, origin)];
      Pump();
    }

    /** An ordinary request: refused outright while any lease is held. */
    method Request(spec: M.RequestSpec) returns (promise: M.RequestId)
      requires Valid()
      modifies this
      ensures Valid() && View() == M.Step(env, old(View()), M.Request(spec)) && promise == old(nextId)
    {
      hide Inv, M.Refuse, M.Enqueue, M.Drain;
      StepKeepsInv(env, View(), M.Request(spec));
      if motorTestLeaseToken.Some? {
        promise := RejectedPromise(M.Ordinary, M.LeaseHeld);
      } else {
        promise := Enqueue(spec, M.Ordinary);
      }
      RunReactions();
    }

    /** A lease-scoped request: admitted only with the live token, checked here on every call. */
    method RequestWithMotorTestLease(token: M.Token, spec: M.RequestSpec) returns (promise: M.RequestId)
      requires Valid()
      modifies this
      ensures Valid() && View() == M.Step(env, old(View()), M.LeaseRequest(token, spec)) && promise == old(nextId)
    {
      hide Inv, M.Refuse, M.Enqueue, M.Drain;
      StepKeepsInv(env, View(), M.LeaseRequest(token, spec));
      if motorTestLeaseToken != Some(token) {
        promise := RejectedPromise(M.Ordinary, M.CapabilityInvalid);
      } else {
        promise := Enqueue(spec, M.Leased(token));
      }
      RunReactions();
    }

    // ---------------------------------------------------------------- the emergency stop

    /** Frees a slot that only waits for its answer; marks one whose write is still running. */
    method DisplaceActive()
      modifies this
      ensures View() == M.DisplaceActive(old(View()))
    {
      hide M.Settle;
      if active.None? {
        return;
      }
      var a := active.value;
      if a.phase.AwaitingResponse? {
        timers := timers - {a.id};
        var _ := Settle(a.id, a.origin, M.Rejected(M.DisplacedInFlight));
        active := None;
      } else {
        active := Some(a.(displacedByEmergencyStop := true));
      }
    }

    /** Empties the queue and moves the active request out of the stop's way. */
    method MakeWay()
      modifies this
      ensures View() == M.DisplaceActive(M.SettleAll(old(View()).(queue := []), old(queue),
                                                     M.Rejected(M.DisplacedQueued)))
      ensures nextId == old(nextId)
    {
      hide M.SettleAll, M.DisplaceActive;
      ghost var before := View();
      RejectQueue(M.Rejected(M.DisplacedQueued));
      SettleAllKeepsIds(before.(queue := []), before.queue, M.Rejected(M.DisplacedQueued));
      DisplaceKeepsIds(View());
      DisplaceActive();
    }

    method RegisterStop(token: M.Token, spec: M.RequestSpec)
      modifies this
      ensures View() == M.RegisterStop(old(View()), token, spec)
    {
      hide M.SettleAll, M.DisplaceActive;
      var ambiguous := active.Some? && active.value.command == spec.command
                       && active.value.protocol == ProtocolOf(spec.wireFormat);
      var deferred := active.Some? && active.value.phase.Writing?;
      MakeWay();
      OccupyStopSlot(M.PendingRequest(nextId, spec, M.Stop(token)), ambiguous, deferred);
    }

    method OccupyStopSlot(stop: M.PendingRequest, ambiguous: bool, deferred: bool)
      requires stop.id == nextId
      modifies this
      ensures View() == old(View()).(nextId := stop.id + 1, stopPending := Some(stop), stopRegistered := Some(stop.id),
                                     stopAmbiguous := ambiguous, stopDeferred := deferred)
    {
      emergencyStopPending := Some(stop);
      emergencyStopRegistered := Some(stop.id);
      nextId := stop.id + 1;
      RecordStopFacts(ambiguous, deferred);
    }

    method RecordStopFacts(ambiguous: bool, deferred: bool)
      modifies this
      ensures View() == old(View()).(stopAmbiguous := ambiguous, stopDeferred := deferred)
    {
      emergencyStopAttributionAmbiguous := ambiguous;
      emergencyStopDeferredBehindActiveWrite := deferred;
    }

    /** Joins a registered stop, or purges, displaces, registers and pumps a new one. */
    method EmergencyStopWithMotorTestLease(token: M.Token, spec: M.RequestSpec) returns (dispatch: StopDispatch)
      requires Valid()
      modifies this
      ensures Valid() && View() == M.Step(env, old(View()), M.EmergencyStop(token, spec))
      ensures dispatch.joinedExistingStop <==>
              old(motorTestLeaseToken) == Some(token) && old(emergencyStopRegistered).Some?
      ensures dispatch.joinedExistingStop ==> dispatch.frame == old(emergencyStopRegistered).value
      ensures !dispatch.joinedExistingStop ==> dispatch.frame == old(nextId)
      ensures old(M.StopAccepted(View(), token)) ==>
                && dispatch.deferredBehindActiveWrite == old(active.Some? && active.value.phase.Writing?)
                && dispatch.attributionAmbiguous == old(M.LooksAlike(View(), spec))
    {
      hide Inv, M.Refuse, M.RegisterStop, M.Pump, M.Drain;
      StepKeepsInv(env, View(), M.EmergencyStop(token, spec));
      var rejectionCode := CheckAcceptance();
      if motorTestLeaseToken != Some(token) {
        var frame := RejectedPromise(M.Ordinary, M.CapabilityInvalid);
        dispatch := StopDispatch(frame, false, false, false);
      } else if emergencyStopRegistered.Some? {
        dispatch := StopDispatch(emergencyStopRegistered.value, emergencyStopAttributionAmbiguous,
                                 emergencyStopDeferredBehindActiveWrite, true);
      } else if rejectionCode.Some? {
        var frame := RejectedPromise(M.Ordinary, rejectionCode.value);
        dispatch := StopDispatch(frame, false, false, false);
      } else {
        RegisteredFacts(View(), token, spec);
        RegisterStop(token, spec);
        dispatch := StopDispatch(emergencyStopRegistered.value, emergencyStopAttributionAmbiguous,
                                 emergencyStopDeferredBehindActiveWrite, false);
        Pump();
      }
      RunReactions();
    }

    // ---------------------------------------------------------------- platform callbacks

    /** The write of a request settles; a settlement that lost the race to an early answer changes nothing. */
    method OnWriteSettled(id: M.RequestId, failure: Option<M.WriteFailure>)
      requires Valid() && id in writing
      modifies this
      ensures Valid()
      ensures View() == M.Step(env, old(View()),
                               if failure.None? then M.WriteOk(id) else M.WriteFailed(id, failure.value))
    {
      hide Inv, M.DoWriteOk, M.DoWriteFailed, M.Drain;
      StepKeepsInv(env, View(), if failure.None? then M.WriteOk(id) else M.WriteFailed(id, failure.value));
      WriteSettled(id, failure);
      RunReactions();
    }

    method WriteSettled(id: M.RequestId, failure: Option<M.WriteFailure>)
      modifies this
      ensures View() == if failure.None? then M.DoWriteOk(env, old(View()), id)
                        else M.DoWriteFailed(env, old(View()), id, failure.value)
    {
      hide M.Settle, M.Pump, M.DesyncLatch;
      writing := writing - {id};
      if id in outcomes || active.None? || active.value.id != id {
        return;
      }
      if failure.None? {
        WriteConfirmed(active.value);
      } else {
        WriteRejected(active.value, failure.value);
      }
    }

    method WriteConfirmed(a: M.ActiveRequest)
      requires active == Some(a)
      modifies this
      ensures View() == if a.displacedByEmergencyStop
                        then M.Pump(env, M.Settle(old(View()), a.id, a.origin,
                                                  M.Rejected(M.DisplacedInFlight)).(active := None))
                        else old(View()).(active := Some(a.(phase := M.AwaitingResponse)),
                                          timers := old(timers) + {a.id})
    {
      hide M.Settle, M.Pump;
      if a.displacedByEmergencyStop {
        var _ := Settle(a.id, a.origin, M.Rejected(M.DisplacedInFlight));
        active := None;
        Pump();
      } else {
        active := Some(a.(phase := M.AwaitingResponse));
        timers := timers + {a.id};
      }
    }

    method WriteRejected(a: M.ActiveRequest, failure: M.WriteFailure)
      requires active == Some(a)
      modifies this
      ensures View() ==
              var code := if a.origin.Probe? then M.ProbeFailed else M.ClassifyWriteFailure(failure);
              var freed := M.Settle(old(View()), a.id, a.origin, M.Rejected(code)).(active := None);
              if a.origin.Probe? then freed
              else if code.WriteOutcomeUnknown? then M.DesyncLatch(env, freed) else M.Pump(env, freed)
    {
      hide M.Settle, M.Pump, M.DesyncLatch;
      if a.origin.Probe? {
        var _ := Settle(a.id, a.origin, M.Rejected(M.ProbeFailed));
        active := None;
        return;
      }
      var code := M.ClassifyWriteFailure(failure);
      var _ := Settle(a.id, a.origin, M.Rejected(code));
      active := None;
      if code.WriteOutcomeUnknown? {
        TriggerDesyncLatch();
      } else {
        Pump();
      }
    }

    method OnResponseTimeout(id: M.RequestId)
      requires Valid() && id in timers
      modifies this
      ensures Valid() && View() == M.Step(env, old(View()), M.TimerFired(id))
    {
      hide Inv, M.DoTimeout, M.Drain;
      StepKeepsInv(env, View(), M.TimerFired(id));
      TimerFired(id);
      RunReactions();
    }

    method TimerFired(id: M.RequestId)
      modifies this
      ensures View() == M.DoTimeout(env, old(View()), id)
    {
      hide M.Settle, M.DesyncLatch;
      timers := timers - {id};
      if id in outcomes || active.None? || active.value.id != id {
        return;
      }
      var a := active.value;
      if a.origin.Probe? {
        var _ := Settle(id, a.origin, M.Rejected(M.ProbeFailed));
        active := None;
        return;
      }
      var _ := Settle(id, a.origin, M.Rejected(M.Timeout));
      active := None;
      TriggerDesyncLatch();
    }

    /** A frame answers the active request or nobody. */
    method HandleFrame(frame: MspFrame)
      modifies this
      ensures View() == M.DoFrame(env, old(View()), frame)
    {
      hide M.Settle, M.Pump;
      if active.None? {
        return;
      }
      var a := active.value;
      if a.id in outcomes || frame.Protocol() != a.protocol || frame.command != a.command || frame.direction.Request? {
        return;
      }
      timers := timers - {a.id};
      if frame.direction.Error? && a.origin.Probe? {
        var _ := Settle(a.id, a.origin, M.Resolved(frame));
      } else if frame.direction.Error? {
        var _ := Settle(a.id, a.origin, M.Rejected(M.RemoteError));
      } else {
        var _ := Settle(a.id, a.origin, M.Resolved(frame));
      }
      active := None;
      Pump();
    }

    /** The frames one received chunk completes, in order. */
    method HandleFrames(frames: seq<MspFrame>)
      requires Valid()
      modifies this
      ensures Valid() && View() == M.Step(env, old(View()), M.Frames(frames))
    {
      hide Inv, M.DoFrame, M.Drain;
      StepKeepsInv(env, View(), M.Frames(frames));
      var i := 0;
      while i < |frames|
        invariant 0 <= i <= |frames|
        invariant M.DoFrames(env, View(), frames[i..]) == M.DoFrames(env, old(View()), frames)
      {
        assert frames[i..][1..] == frames[i + 1..];
        HandleFrame(frames[i]);
        i := i + 1;
      }
      RunReactions();
    }

    method OnRestartSettled(epoch: nat, ok: bool)
      requires Valid() && epoch in restarting
      modifies this
      ensures Valid() && View() == M.Step(env, old(View()), if ok then M.RestartOk(epoch) else M.RestartFailed(epoch))
    {
      hide Inv, M.DoRestartOk, M.DoRestartFailed, M.Drain;
      StepKeepsInv(env, View(), if ok then M.RestartOk(epoch) else M.RestartFailed(epoch));
      RestartSettled(epoch, ok);
      RunReactions();
    }

    method RestartSettled(epoch: nat, ok: bool)
      modifies this
      ensures View() == if ok then M.DoRestartOk(env, old(View()), epoch) else M.DoRestartFailed(old(View()), epoch)
    {
      hide M.SendProbe;
      restarting := restarting - {epoch};
      if !IsCurrentRecoveryAttempt(epoch) {
        return;
      }
      if ok {
        SendProbe();
      } else {
        state := M.RecoveryFailed;
      }
    }

    // ---------------------------------------------------------------- the end of the session

    method RejectActive(code: M.Code)
      modifies this
      ensures View() == M.RejectActive(old(View()), code)
    {
      hide M.Settle;
      if active.Some? {
        timers := timers - {active.value.id};
        var _ := Settle(active.value.id, active.value.origin, M.Rejected(code));
        active := None;
      }
    }

    method RejectEverything(code: M.Code)
      modifies this
      ensures View() == M.RejectAll(old(View()), code)
    {
      hide M.RejectActive, M.AbortStop, M.SettleAll;
      RejectActive(code);
      AbortRegisteredEmergencyStop(M.StopAbortedBySessionEnd);
      RejectQueue(M.Rejected(code));
    }

    method HandlePhysicalDetach()
      requires Valid()
      modifies this
      ensures Valid() && View() == M.Step(env, old(View()), M.Detach)
    {
      hide Inv, M.DoDetach, M.Drain;
      StepKeepsInv(env, View(), M.Detach);
      Detached();
      RunReactions();
    }

    method Detached()
      modifies this
      ensures View() == M.DoDetach(old(View()))
    {
      hide M.InvalidateLease, M.RejectAll;
      InvalidateMotorTestLease();
      disconnectCause := Some(M.DeviceDetached);
      state := M.Disconnected;
      RejectEverything(M.DeviceDetached);
    }

    method Dispose()
      requires Valid()
      modifies this
      ensures Valid() && View() == M.Step(env, old(View()), M.Dispose)
    {
      hide Inv, M.DoDispose, M.Drain;
      StepKeepsInv(env, View(), M.Dispose);
      Disposed();
      RunReactions();
    }

    method Disposed()
      modifies this
      ensures View() == M.DoDispose(old(View()))
    {
      hide M.InvalidateLease, M.RejectAll;
      if disposed {
        return;
      }
      disposed := true;
      assert View() == old(View()).(disposed := true);
      InvalidateMotorTestLease();
      if state != M.Disconnected {
        CloseSession();
      }
    }

    method CloseSession()
      modifies this
      ensures View() == M.RejectAll(old(View()).(state := M.Closing), M.SessionClosed)
                        .(disconnectCause := Some(M.SessionClosed), state := M.Disconnected)
    {
      hide M.RejectAll;
      state := M.Closing;
      assert View() == old(View()).(state := M.Closing);
      RejectEverything(M.SessionClosed);
      disconnectCause := Some(M.SessionClosed);
      state := M.Disconnected;
    }

    // ---------------------------------------------------------------- acquiring and releasing

    predicate IsRequestEngineIdle()
      reads this
    {
      !disposed && state == M.Ready && active.None? && queue == [] && emergencyStopPending.None?
    }

    method TryAcquireMotorTestLease() returns (outcome: M.Acquisition)
      requires Valid()
      modifies this
      ensures Valid() && View() == M.Step(env, old(View()), M.Acquire)
      ensures outcome == M.AcquireVerdict(old(View()))
      ensures outcome.Acquired? ==> motorTestLeaseToken == Some(outcome.token)
    {
      hide Inv, M.DoAcquire, M.AcquireVerdict;
      StepKeepsInv(env, View(), M.Acquire);
      outcome := Acquired();
      NothingToRun(env, old(View()), 0);
    }

    method Acquired() returns (outcome: M.Acquisition)
      modifies this
      ensures View() == M.DoAcquire(old(View())) && outcome == M.AcquireVerdict(old(View()))
      ensures outcome.Acquired? ==> motorTestLeaseToken == Some(outcome.token)
    {
      if motorTestLeaseToken.Some? {
        return M.AlreadyHeld;
      }
      if mspEpoch in faultEpochs {
        return M.FaultLatched;
      }
      if !IsRequestEngineIdle() {
        return M.NotIdle;
      }
      var token := nextToken;
      nextToken := nextToken + 1;
      motorTestLeaseToken := Some(token);
      motorTestLeaseEpoch := Some(mspEpoch);
      return M.Acquired(token);
    }

    method ReleaseMotorTestLease(token: M.Token) returns (outcome: M.Release)
      requires Valid()
      modifies this
      ensures Valid() && View() == M.Step(env, old(View()), M.ReleaseLease(token))
      ensures outcome == M.ReleaseVerdict(old(View()), token)
    {
      hide Inv, M.DoRelease, M.ReleaseVerdict;
      StepKeepsInv(env, View(), M.ReleaseLease(token));
      outcome := Released(token);
      NothingToRun(env, old(View()), token);
    }

    method Released(token: M.Token) returns (outcome: M.Release)
      modifies this
      ensures View() == M.DoRelease(old(View()), token) && outcome == M.ReleaseVerdict(old(View()), token)
    {
      if token in invalidatedTokens {
        return M.Invalidated;
      }
      if token in retiredTokens {
        return M.AlreadyReleased;
      }
      if motorTestLeaseToken != Some(token) {
        return M.NotOwner;
      }
      if active.Some? || queue != [] || emergencyStopPending.Some? {
        return M.WorkUnsettled;
      }
      retiredTokens := retiredTokens + {token};
      motorTestLeaseToken := None;
      motorTestLeaseEpoch := None;
      return M.Released;
    }

    method FaultMotorTestLeaseByToken(token: M.Token) returns (faulted: bool)
      requires Valid()
      modifies this
      ensures Valid() && View() == M.Step(env, old(View()), M.FaultByToken(token))
      ensures faulted <==> old(motorTestLeaseToken) == Some(token)
    {
      hide PlacesOk, LogOk, CallbacksOk, LeaseOk, ProbeOk, StopOk, M.FaultLease;
      StepKeepsInv(env, View(), M.FaultByToken(token));
      if motorTestLeaseToken != Some(token) {
        return false;
      }
      FaultLeaseKeepsJobs(View());
      FaultMotorTestLease();
      return true;
    }
  }

  lemma ReactKeepsJobs(s: M.Engine, j: M.Job)
    ensures M.React(s, j).jobs == s.jobs
  {
    hide M.FaultLease, M.ClearRegistration;
    var cleared := M.ClearRegistration(s, j.id);
    ClearingKeepsJobs(s, j.id);
    FaultLeaseKeepsJobs(s);
    FaultLeaseKeepsJobs(cleared);
  }

  lemma ClearingKeepsJobs(s: M.Engine, id: M.RequestId)
    ensures M.ClearRegistration(s, id).jobs == s.jobs
  {
  }

  lemma {:induction false} SettleAllKeepsIds(s: M.Engine, rs: seq<M.PendingRequest>, o: M.Outcome)
    ensures M.SettleAll(s, rs, o).nextId == s.nextId && M.SettleAll(s, rs, o).active == s.active
    decreases |rs|
  {
    hide M.Settle;
    if rs != [] {
      SettleKeepsIds(s, rs[0].id, rs[0].origin, o);
      SettleAllKeepsIds(M.Settle(s, rs[0].id, rs[0].origin, o), rs[1..], o);
    }
  }

  lemma SettleKeepsIds(s: M.Engine, id: M.RequestId, origin: M.Origin, o: M.Outcome)
    ensures M.Settle(s, id, origin, o).nextId == s.nextId && M.Settle(s, id, origin, o).active == s.active
  {
  }

  lemma DisplaceKeepsIds(s: M.Engine)
    ensures M.DisplaceActive(s).nextId == s.nextId
  {
  }

  lemma RegisteredFacts(s: M.Engine, token: M.Token, spec: M.RequestSpec)
    ensures
      var t := M.RegisterStop(s, token, spec);
      && t.stopRegistered == Some(s.nextId)
      && t.stopDeferred == (s.active.Some? && s.active.value.phase.Writing?)
      && t.stopAmbiguous == M.LooksAlike(s, spec)
  {
    hide M.SettleAll, M.DisplaceActive;
  }

  /** Acquiring and releasing leave no reaction behind. */
  lemma NothingToRun(env: M.Env, s: M.Engine, token: M.Token)
    requires Inv(s)
    ensures M.Step(env, s, M.Acquire) == M.DoAcquire(s)
    ensures M.Step(env, s, M.ReleaseLease(token)) == M.DoRelease(s, token)
  {
    hide PlacesOk, LogOk, CallbacksOk, LeaseOk, ProbeOk, StopOk;
  }

  lemma FaultLeaseKeepsJobs(s: M.Engine)
    ensures M.FaultLease(s).jobs == s.jobs
  {
  }
}
