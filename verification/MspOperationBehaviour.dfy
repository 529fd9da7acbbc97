/** What each part of an exclusive operation does and reports. */
module MspOperationBehaviour {
  import opened MspTypes
  import opened MspTelemetryModel
  import opened MspTelemetryProofs
  import opened MspOperationModel
  import B = MspTelemetryBehaviour

  /** A call that cannot run ends at once, without touching telemetry. */
  lemma EndsAtOnce(y: System, operation: Operation, now: real, captured: Option<SessionIdentity>,
                   refusal: Option<string>)
    requires Inv(y) && y.activity.Idle? && y.telemetry.lastReadMs <= now
    requires captured.None? || refusal.Some?
    ensures
      var z := Advance(y, Execute(operation, now, captured, refusal));
      && z.telemetry == y.telemetry && z.activity.Idle? && z.stage.NotRunning?
      && z.acquired == y.acquired && z.released == y.released
      && z.results == y.results + [if captured.None? then SessionEnded(SessionClosed) else FailedWith(refusal.value)]
  {
    hide Sound;
  }

  /** A call that can run takes a pause lease, puts the overdue polls off, and waits for telemetry to fall idle. */
  lemma PausesTelemetry(y: System, operation: Operation, now: real, captured: SessionIdentity, r: RegistrationId)
    requires Inv(y) && y.activity.Idle? && y.telemetry.lastReadMs <= now && r in y.telemetry.store
    ensures
      var z := Advance(y, Execute(operation, now, Some(captured), None));
      var lease := y.telemetry.nextLease;
      && z.stage == AwaitingIdle(operation, captured, lease, y.telemetry.nextWaiter)
      && z.activity == Running(operation.id, now) && z.phase.WaitingForIdle?
      && z.telemetry.leases == y.telemetry.leases + {lease} && z.acquired == y.acquired + [lease]
      && z.released == y.released && z.results == y.results
      && r in z.telemetry.store
      && z.telemetry.store[r] ==
         (if r in y.telemetry.registry && B.IsOverdue(y.telemetry.store[r], now)
          then y.telemetry.store[r].(dueAtMs := now + y.telemetry.store[r].definition.intervalMs)
          else y.telemetry.store[r])
  {
    hide CacheOk, Counted, DistinctIds, Known;
  }

  /** What the end of an operation gives back. */
  ghost predicate GaveBack(y: System, z: System, result: OperationResult)
    requires !y.stage.NotRunning?
  {
    && z.activity.Idle? && z.stage.NotRunning?
    && z.telemetry.leases == y.telemetry.leases - {y.stage.lease}
    && z.released == y.released + [y.stage.lease] && z.acquired == y.acquired
    && z.results == y.results + [result]
  }

  /**
   * THE OPERATION RUNS exactly if the session captured before the wait is still the current one; a session that was
   * replaced in place and one that is gone are told apart by the session id.
   */
  lemma RunsExactlyWhen(y: System, current: Option<SessionIdentity>)
    requires Inv(y) && y.stage.AwaitingIdle? && y.stage.waiter in y.telemetry.resumed
    ensures
      var z := Advance(y, ResumeAfterIdle(current));
      var captured := y.stage.captured;
      if current == Some(captured) then
        z == y.(phase := AwaitingConfirmation, stage := AwaitingOperation(y.stage.operation, captured, y.stage.lease))
      else
        GaveBack(y, z, SessionEnded(
                         if current.Some? && current.value.sessionId == captured.sessionId
                            && current.value.generation != captured.generation
                         then SessionReplaced else SessionClosed))
  {
    hide CacheOk, Counted, DistinctIds;
  }

  /**
   * WHAT AN OPERATION REPORTS: its own value if it resolved; otherwise that its outcome is unknown if it says so or the
   * session is no longer the captured one, and only else its own error.
   */
  lemma ReportsExactly(y: System, outcome: OperationOutcome, current: Option<SessionIdentity>, now: real)
    requires Inv(y) && y.stage.AwaitingOperation? && y.telemetry.lastReadMs <= now
    ensures
      GaveBack(y, Advance(y, OperationSettled(outcome, current, now)),
               if outcome.Resolved? then Succeeded(outcome.result)
               else if current != Some(y.stage.captured) then OutcomeUnknown(outcome.thrown)
               else if outcome.thrown.UnknownOutcomeError? then OutcomeUnknown(Plain(outcome.thrown.cause))
               else FailedWith(outcome.thrown.error))
  {
    hide CacheOk, Counted, DistinctIds;
  }

  /** A success that keeps its session demands the polls it names before telemetry resumes; nothing else demands any. */
  lemma RefreshesExactlyWhen(y: System, outcome: OperationOutcome, current: Option<SessionIdentity>, now: real,
                             r: RegistrationId)
    requires Inv(y) && y.stage.AwaitingOperation? && y.telemetry.lastReadMs <= now && r in y.telemetry.store
    ensures
      var z := Advance(y, OperationSettled(outcome, current, now));
      var p := y.telemetry.store[r];
      var named := && outcome.Resolved? && y.stage.operation.sessionEffect.KeepSession?
                   && current == Some(y.stage.captured) && y.stage.operation.refreshAfterSuccess.Some?
                   && r in y.telemetry.registry && p.definition.id in y.stage.operation.refreshAfterSuccess.value;
      && r in z.telemetry.store
      && z.telemetry.store[r] == if named && p.dueAtMs > now then p.(dueAtMs := now) else p
  {
    hide CacheOk, Counted, DistinctIds;
  }
}
