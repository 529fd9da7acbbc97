/** The operation coordinator itself, driving a scheduler object around the two awaits of execute(). */
module MspOperationCoordinator {
  import opened MspTypes
  import T = MspTelemetryModel
  import P = MspTelemetryProofs
  import opened MspTelemetryScheduler
  import M = MspOperationModel

  /** How the synchronous part of execute() ends. */
  datatype Progress =
    | InProgress(runningOperationId: string)
    | Done(result: M.OperationResult)
    | Suspended

  class MspOperationCoordinator {
    const scheduler: MspTelemetryScheduler
    var activity: M.Activity
    var phase: M.Phase
    var stage: M.Stage
    ghost var acquired: seq<T.LeaseId>
    ghost var released: seq<T.LeaseId>
    ghost var results: seq<M.OperationResult>

    ghost function View(): M.System
      reads this, scheduler
    {
      M.System(scheduler.View(), activity, phase, stage, acquired, released, results)
    }

    ghost predicate Valid()
      reads this, scheduler
    {
      M.Inv(View())
    }

    constructor (scheduler: MspTelemetryScheduler)
      requires scheduler.Valid()
      ensures this.scheduler == scheduler && Valid() && activity.Idle? && acquired == []
    {
      this.scheduler := scheduler;
      activity := M.Idle;
      phase := M.NotStarted;
      stage := M.NotRunning;
      acquired := [];
      released := [];
      results := [];
    }

    /** Ends the running operation: the lease is released and the coordinator is idle again. */
    method Finish(result: M.OperationResult)
      requires scheduler.Valid() && !stage.NotRunning?
      modifies this, scheduler
      ensures View() == M.Finish(old(View()), result)
    {
      hide P.Sound, T.Step, T.Known;
      P.SoundIsKnown(scheduler.View());
      released := released + [stage.lease];
      scheduler.ReleasePauseLease(stage.lease);
      stage := M.NotRunning;
      activity := M.Idle;
      results := results + [result];
    }

    /** Takes a pause lease, drops the demands not yet dispatched and asks to be told of idleness. */
    method PauseTelemetry(now: real) returns (lease: T.LeaseId, waiter: T.WaiterId)
      requires scheduler.Valid() && scheduler.lastReadMs <= now
      modifies scheduler
      ensures scheduler.View() == T.DoAwaitIdle(T.DoDiscard(T.DoAcquireLease(old(scheduler.View())), now))
      ensures lease == old(scheduler.nextLeaseSeq) && waiter == old(scheduler.nextWaiter)
    {
      hide P.Sound, T.DoDiscard, T.DoAwaitIdle;
      M.OpensWindow(scheduler.View(), now);
      lease := scheduler.AcquirePauseLease();
      assert scheduler.View() == T.DoAcquireLease(old(scheduler.View()));
      scheduler.DiscardPendingDemands(now);
      assert scheduler.View() == T.DoDiscard(T.DoAcquireLease(old(scheduler.View())), now);
      M.DiscardFrame(T.DoAcquireLease(old(scheduler.View())), now);
      waiter := scheduler.WaitUntilIdle();
    }

    /** Refuses while another operation runs; otherwise pauses telemetry and waits for it to fall idle. */
    method Execute(operation: M.Operation, now: real, captured: Option<M.SessionIdentity>, refusal: Option<string>)
      returns (progress: Progress)
      requires Valid() && scheduler.lastReadMs <= now
      modifies this, scheduler
      ensures Valid() && View() == M.Advance(old(View()), M.Execute(operation, now, captured, refusal))
      ensures progress.InProgress? <==> old(activity).Running?
      ensures progress.InProgress? ==> View() == old(View())
      ensures progress.Suspended? <==> old(activity).Idle? && captured.Some? && refusal.None?
      ensures progress.Done? ==>
                progress.result ==
                if captured.None? then M.SessionEnded(M.SessionClosed) else M.FailedWith(refusal.value)
    {
      hide P.Sound, M.LeasesOk, M.WindowOk, T.DoAcquireLease, T.DoDiscard, T.DoAwaitIdle;
      M.AdvanceKeepsInv(View(), M.Execute(operation, now, captured, refusal));
      if activity.Running? {
        M.RunningRefuses(View(), operation, now, captured, refusal);
        return InProgress(activity.operationId);
      }
      activity := M.Running(operation.id, now);
      phase := M.NotStarted;
      if captured.None? {
        activity := M.Idle;
        results := results + [M.SessionEnded(M.SessionClosed)];
        return Done(M.SessionEnded(M.SessionClosed));
      }
      if refusal.Some? {
        activity := M.Idle;
        results := results + [M.FailedWith(refusal.value)];
        return Done(M.FailedWith(refusal.value));
      }
      phase := M.WaitingForIdle;
      var lease, waiter := PauseTelemetry(now);
      stage := M.AwaitingIdle(operation, captured.value, lease, waiter);
      acquired := acquired + [lease];
      return Suspended;
    }

    /** Telemetry has fallen idle: the session is checked again before the operation may run. */
    method ResumeAfterIdle(current: Option<M.SessionIdentity>) returns (progress: Progress)
      requires Valid() && stage.AwaitingIdle? && stage.waiter in scheduler.resumed
      modifies this, scheduler
      ensures Valid() && View() == M.Advance(old(View()), M.ResumeAfterIdle(current))
      ensures progress.Suspended? ==> scheduler.inFlightCount == 0 && current == Some(old(stage).captured)
    {
      hide P.Sound, M.LeasesOk;
      M.AdvanceKeepsInv(View(), M.ResumeAfterIdle(current));
      M.SoundCount(scheduler.View());
      var captured := stage.captured;
      if M.UnambiguousReplacement(captured, current) {
        Finish(M.SessionEnded(M.SessionReplaced));
        return Done(M.SessionEnded(M.SessionReplaced));
      }
      if !M.StillCurrent(captured, current) {
        Finish(M.SessionEnded(M.SessionClosed));
        return Done(M.SessionEnded(M.SessionClosed));
      }
      phase := M.AwaitingConfirmation;
      stage := M.AwaitingOperation(stage.operation, captured, stage.lease);
      return Suspended;
    }

    /** The operation's own promise settles: telemetry resumes, after the refresh its success asks for. */
    method OperationSettled(outcome: M.OperationOutcome, current: Option<M.SessionIdentity>, now: real)
      returns (result: M.OperationResult)
      requires Valid() && stage.AwaitingOperation? && scheduler.lastReadMs <= now
      modifies this, scheduler
      ensures Valid() && View() == M.Advance(old(View()), M.OperationSettled(outcome, current, now))
      ensures results == old(results) + [result]
      ensures result.FailedWith? <==>
              outcome.Rejected? && outcome.thrown.Plain? && current == Some(old(stage).captured)
      ensures result.Succeeded? <==> outcome.Resolved?
    {
      hide P.Sound, M.LeasesOk, M.WindowOk, T.Step;
      M.FailedIsCertain(View(), outcome, current, now);
      M.AdvanceKeepsInv(View(), M.OperationSettled(outcome, current, now));
      if outcome.Rejected? {
        result := M.FailureResult(stage.captured, current, outcome.thrown);
        Finish(result);
        return;
      }
      phase := M.SuccessConfirmed;
      if stage.operation.sessionEffect.KeepSession? {
        if M.StillCurrent(stage.captured, current) && stage.operation.refreshAfterSuccess.Some? {
          scheduler.RequestRefresh(stage.operation.refreshAfterSuccess.value, now);
        }
      }
      result := M.Succeeded(outcome.result);
      Finish(result);
    }
  }
}
