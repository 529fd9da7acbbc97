/** The controller itself: the live attempt, its watchdog, the one stop in flight and the teardown, as fields. */
module MotorTestController {
  import opened MspTypes
  import S = MotorTestStateMachine
  import M = MotorTestControllerModel

  datatype StopRequestResult = StopAccepted | AlreadyClosed

  class MotorTestController {
    var phase: M.Phase
    var closing: bool
    var ready: bool
    var machine: S.State
    var pulseAttempt: Option<M.AttemptId>
    var pulseAttemptCounter: M.AttemptId
    var pulse: M.Pulse
    var pulseDeadlineTimer: Option<M.AttemptId>
    var pulseMayHaveReachedFc: bool
    var activationBarred: bool
    var stopInFlight: Option<M.StopOperation>
    var stopEpisodeId: nat
    var stopEpisodeAttemptId: Option<M.AttemptId>
    var stopSealed: bool
    var stopThrew: bool
    var lastStopOutcome: Option<M.StopOutcome>
    var stopCommands: nat
    var teardown: M.Teardown
    var telemetryReleased: bool

    ghost function View(): M.Controller
      reads this
    {
      M.Controller(phase, closing, ready, machine, pulseAttempt, pulseAttemptCounter, pulse, pulseDeadlineTimer,
                   pulseMayHaveReachedFc, activationBarred, stopInFlight, stopEpisodeId, stopEpisodeAttemptId,
                   stopSealed,
                   stopThrew, lastStopOutcome, stopCommands, teardown, telemetryReleased)
    }

    /** A live pulse is watched and not being stopped; an unsafe stop is sealed. */
    ghost predicate Valid()
      reads this
    {
      M.Inv(View())
    }

    /** A controller whose setup has just ended READY. */
    constructor (authority: S.Authority)
      ensures Valid() && View() == M.ReadySession(authority)
    {
      phase := M.Active;
      closing := false;
      ready := true;
      machine := S.ReadyState(authority);
      pulseAttempt := None;
      pulseAttemptCounter := 0;
      pulse := M.Pulse(0, 0, false, None);
      pulseDeadlineTimer := None;
      pulseMayHaveReachedFc := false;
      activationBarred := false;
      stopInFlight := None;
      stopEpisodeId := 0;
      stopEpisodeAttemptId := None;
      stopSealed := false;
      stopThrew := false;
      lastStopOutcome := None;
      stopCommands := 0;
      teardown := M.NotStarted;
      telemetryReleased := false;
      new;
      M.ReadyInv(authority);
    }

    // ---------------------------------------------------------------- the machine

    method Apply(kind: S.EventKind)
      modifies `machine
      ensures machine == M.Apply(old(View()), kind).machine
    {
      machine := S.MotorTestTransition(machine, S.Event(machine.authority, kind)).state;
    }

    // ---------------------------------------------------------------- stopping

    /** Ends the live attempt and disarms its watchdog; without a live attempt it does nothing. */
    method EndPulseAttempt(outcome: M.PulseOutcome)
      modifies `pulseAttempt, `pulseDeadlineTimer, `pulse
      ensures View() == M.EndPulseAttempt(old(View()), outcome)
    {
      if pulseAttempt.None? {
        return;
      }
      pulseAttempt := None;
      pulseDeadlineTimer := None;
      pulse := pulse.(outcome := Some(pulse.outcome.GetOr(outcome)));
    }

    /** Joins, replays or starts: one registration, one command, for all triggers of one episode. */
    method ExecuteStopVector(env: M.StopEnv)
      modifies `stopEpisodeId, `stopEpisodeAttemptId, `stopInFlight, `lastStopOutcome, `stopCommands
      ensures View() == M.ExecuteStopVector(old(View()), env)
    {
      if stopInFlight.Some? {
        return;
      }
      if stopSealed {
        return;
      }
      BeginEpisode();
      RunStopVector(env);
    }

    /** A new episode, bound to the attempt that was live when the stop was demanded. */
    method BeginEpisode()
      modifies `stopEpisodeId, `stopEpisodeAttemptId
      ensures View() == old(View()).(stopEpisodeId := old(stopEpisodeId) + 1,
                                     stopEpisodeAttemptId := Some(pulse.attemptId))
    {
      stopEpisodeId := stopEpisodeId + 1;
      stopEpisodeAttemptId := Some(pulse.attemptId);
    }

    /** The stop up to its first await: decided here, or one command on the priority route. */
    method RunStopVector(env: M.StopEnv)
      modifies `stopInFlight, `lastStopOutcome, `stopCommands
      ensures stopInFlight == Some(M.StartedStop(env))
      ensures lastStopOutcome ==
              if stopInFlight.value.Decided? then Some(stopInFlight.value.outcome) else old(lastStopOutcome)
      ensures stopCommands == old(stopCommands) + if stopInFlight.value.Dispatched? then 1 else 0
    {
      var decided: Option<M.StopOutcome> := None;
      if env.scope.Missing? {
        decided := Some(M.NotAttempted(M.NoScope));
      } else if !env.leaseLive {
        decided := Some(M.NotAttempted(M.AuthorityStale));
      } else if env.scope.Unsupported? {
        decided := Some(M.ScopeRejected);
      }
      if decided.Some? {
        lastStopOutcome := decided;
        stopInFlight := Some(M.Decided(decided.value));
        return;
      }
      stopCommands := stopCommands + 1;
      stopInFlight := Some(M.Dispatched(env.ambiguous));
    }

    /** Stop dominance: the watchdog, the attempt, the machine and the stop itself, all before anything is awaited. */
    method DominateWith(trigger: S.StopReason, env: M.StopEnv)
      modifies this
      ensures View() == M.RequestStop(old(View()), trigger, env)
    {
      hide S.MotorTestTransition, M.EndPulseAttempt, M.ExecuteStopVector;
      if phase == M.Closed {
        return;
      }
      Disarm(trigger);
      EndPulseAttempt(M.StopDominated);
      Tell(S.StopTriggered(trigger));
      if pulseMayHaveReachedFc {
        ExecuteStopVector(env);
      }
    }

    method Disarm(trigger: S.StopReason)
      modifies `activationBarred, `pulseDeadlineTimer
      ensures View() == old(View()).(activationBarred := old(activationBarred) || S.Locking(trigger), watchdog := None)
    {
      if S.Locking(trigger) {
        activationBarred := true;
      }
      pulseDeadlineTimer := None;
    }

    method Tell(kind: S.EventKind)
      modifies `machine
      ensures View() == M.Apply(old(View()), kind)
    {
      hide S.MotorTestTransition;
      Apply(kind);
    }

    method RequestStop(trigger: S.StopReason, w: M.World) returns (result: StopRequestResult)
      requires Valid()
      modifies this
      ensures Valid() && View() == M.Step(old(View()), M.StopRequested(trigger), w)
      ensures result.AlreadyClosed? <==> old(phase).Closed?
    {
      hide M.Inv, M.RequestStop, M.Drain;
      M.StepKeepsInv(View(), M.StopRequested(trigger), w);
      result := if phase == M.Closed then AlreadyClosed else StopAccepted;
      DominateWith(trigger, w.stop);
      RunReactions(w.teardown);
    }

    // ---------------------------------------------------------------- pulsing

    /** The one gate: the reasons are exactly those of the shut gates, each once and in rank order. */
    method EvaluateActivation(g: M.Gates) returns (reasons: seq<M.Block>)
      ensures forall b :: b in reasons <==> M.Blocks(View(), g, b)
      ensures M.InRankOrder(reasons)
    {
      hide M.EvaluateActivation, M.When, M.Blocks, M.InRankOrder;
      reasons := M.When(!g.monitoringAccepted, M.MonitoringUnavailable);
      reasons := reasons + M.When(phase != M.Active || closing, M.ClosedBlock);
      reasons := reasons + M.When(activationBarred, M.SafetyEventLatched);
      reasons := reasons + M.When(stopSealed, M.StopSealedBlock);
      reasons := reasons + M.When(stopInFlight.Some?, M.StopInProgress);
      reasons := reasons + M.When(pulseAttempt.Some?, M.PulseAlreadyLive);
      reasons := reasons + M.When(phase != M.Active || !ready, M.SetupNotReady);
      reasons := reasons + M.When(!machine.ReadyState?, M.MachineNotReady);
      reasons := reasons + M.When(!g.barrierHeld, M.BarrierNotHeld);
      reasons := reasons + M.When(!g.receiptCurrent, M.RestrictionNotCurrent);
      reasons := reasons + M.When(!g.scope.Supported?, M.ScopeUnsupported);
      reasons := reasons + M.When(!g.leaseLive, M.AuthorityStaleBlock);
      M.GatesSpelledOut(View(), g);
      M.EveryBlockIsReported(View(), g, reasons);
    }

    method PulseMotor(motorNumber: int, g: M.Gates, w: M.World) returns (verdict: M.PulseVerdict)
      requires Valid()
      modifies this
      ensures Valid() && View() == M.Step(old(View()), M.PulseMotor(motorNumber, g), w)
      ensures verdict == M.PulseVerdictFor(old(View()), motorNumber, g)
    {
      hide M.Inv, M.EvaluateActivation, M.RequestStop, M.Drain, S.MotorTestTransition;
      M.StepKeepsInv(View(), M.PulseMotor(motorNumber, g), w);
      verdict := JudgePulse(motorNumber, g);
      if verdict.SwitchRequiresNewActivation? {
        DominateWith(S.MotorSelectionChanged, w.stop);
      } else if verdict.Accepted? {
        Activate(motorNumber);
      }
      RunReactions(w.teardown);
    }

    method JudgePulse(motorNumber: int, g: M.Gates) returns (verdict: M.PulseVerdict)
      ensures verdict == M.PulseVerdictFor(View(), motorNumber, g)
    {
      hide M.EvaluateActivation, M.Blocks, M.InRankOrder;
      if phase != M.Active || closing {
        return M.ControllerClosed;
      }
      if motorNumber < 1 || motorNumber > M.MOTOR_VECTOR_MOTOR_COUNT {
        return M.InvalidMotor;
      }
      if pulseAttempt.Some? {
        return M.SwitchRequiresNewActivation;
      }
      var reasons := EvaluateActivation(g);
      M.EveryBlockIsReported(View(), g, reasons);
      if reasons != [] {
        return M.MapBlock(reasons[0]);
      }
      if !g.encodable {
        return M.GatesNotSatisfied;
      }
      return M.Accepted;
    }

    /** From here the activation is uncancellable: identity, machine, watchdog, latch, submission. */
    method Activate(motorNumber: int)
      modifies `pulseAttempt, `pulseAttemptCounter, `machine, `pulseDeadlineTimer, `pulseMayHaveReachedFc, `pulse
      ensures View() == M.Activated(old(View()), motorNumber)
    {
      hide S.MotorTestTransition;
      BeginAttempt();
      Tell(S.ActivationAccepted);
      ArmPulseDeadline(pulseAttemptCounter);
      RecordSubmission(motorNumber);
      Tell(S.StartWriteCalled);
    }

    method BeginAttempt()
      modifies `pulseAttempt, `pulseAttemptCounter
      ensures View() == old(View()).(pulseAttempt := Some(old(pulseAttemptCounter) + 1),
                                     pulseAttemptCounter := old(pulseAttemptCounter) + 1)
    {
      pulseAttemptCounter := pulseAttemptCounter + 1;
      pulseAttempt := Some(pulseAttemptCounter);
    }

    method ArmPulseDeadline(attempt: M.AttemptId)
      modifies `pulseDeadlineTimer
      ensures View() == old(View()).(watchdog := Some(attempt))
    {
      pulseDeadlineTimer := Some(attempt);
    }

    method RecordSubmission(motorNumber: int)
      modifies `pulseMayHaveReachedFc, `pulse
      ensures View() == old(View()).(pulseMayHaveReachedFc := true,
                                     pulse := M.Pulse(pulseAttemptCounter, motorNumber, false, None))
    {
      pulseMayHaveReachedFc := true;
      pulse := M.Pulse(pulseAttemptCounter, motorNumber, false, None);
    }

    /** The watchdog: it acts only on the attempt it was armed for. */
    method OnPulseDeadline(w: M.World)
      requires Valid()
      modifies this
      ensures Valid() && View() == M.Step(old(View()), M.WatchdogFired, w)
    {
      hide M.Inv, M.DoWatchdog, M.Drain;
      M.StepKeepsInv(View(), M.WatchdogFired, w);
      DeadlineElapsed(w.stop);
      RunReactions(w.teardown);
    }

    method DeadlineElapsed(env: M.StopEnv)
      modifies this
      ensures View() == M.DoWatchdog(old(View()), env)
    {
      hide M.RequestStop;
      if pulseDeadlineTimer.None? {
        return;
      }
      var attempt := pulseDeadlineTimer;
      pulseDeadlineTimer := None;
      if pulseAttempt == attempt {
        DominateWith(S.PulseDeadlineElapsed, env);
      }
    }

    /** Every pulse-side failure ends the attempt, takes the stop route and lands in Fault. */
    method FailPulseClosed(outcome: M.PulseOutcome, fault: S.FaultReason, env: M.StopEnv)
      modifies this
      ensures View() == M.FailPulseClosed(old(View()), outcome, fault, env)
    {
      hide S.MotorTestTransition, M.RequestStop, M.EndPulseAttempt;
      EndPulseAttempt(outcome);
      DominateWith(S.StopButtonPressed, env);
      Tell(S.FaultRaised(fault));
    }

    /** The pulse request settles; the answer of an attempt that is no longer live is discarded. */
    method OnPulseSettled(attempt: M.AttemptId, ok: bool, leaseLive: bool, w: M.World)
      requires Valid()
      modifies this
      ensures Valid() && View() == M.Step(old(View()), M.PulseSettled(attempt, ok, leaseLive), w)
      ensures old(pulseAttempt) != Some(attempt) ==> View() == old(View())
    {
      hide M.Inv, M.FailPulseClosed, M.Drain, S.MotorTestTransition;
      M.StepKeepsInv(View(), M.PulseSettled(attempt, ok, leaseLive), w);
      if pulseAttempt != Some(attempt) { M.StaleAnswerIsDiscarded(View(), attempt, ok, leaseLive, w); }
      if pulseAttempt == Some(attempt) {
        if !ok {
          FailPulseClosed(M.RequestFailed, S.WriteOutcomeUnknown, w.stop);
        } else if closing || !leaseLive {
          FailPulseClosed(M.AuthorityChanged, S.SessionChanged, w.stop);
        } else {
          pulse := pulse.(acknowledged := true, outcome := Some(M.PulseAcknowledged));
          Tell(S.StartAcknowledged);
        }
      }
      RunReactions(w.teardown);
    }

    // ---------------------------------------------------------------- the stop settles

    /** A stop settles with its decided outcome, with its frame's, or by an unexpected exception. */
    method SettleStop(result: M.FrameResult, leaseLive: bool)
      modifies this
      ensures View() == M.DoStopSettled(old(View()), result, leaseLive)
    {
      hide M.FrameOutcome, M.SettledWith, M.SettledByException;
      if stopInFlight.None? {
        return;
      }
      match stopInFlight.value {
        case Decided(outcome) => SettleWith(outcome);
        case Dispatched(ambiguous) =>
          if result.UnexpectedException? {
            SealByException();
          } else {
            SettleWith(M.FrameOutcome(ambiguous, result, leaseLive));
          }
      }
    }

    /** The registration goes first, then an unsafe outcome seals, then a waiting teardown goes on. */
    method SettleWith(outcome: M.StopOutcome)
      modifies this
      ensures View() == M.SettledWith(old(View()), outcome)
    {
      hide M.Sealed, M.Resumed;
      RecordOutcome(outcome);
      SealIfUnsafe(outcome);
      ResumeTeardown(Some(outcome));
    }

    method SealByException()
      modifies this
      ensures View() == M.SettledByException(old(View()))
    {
      hide M.Resumed;
      DropStop();
      stopSealed, stopThrew := true, true;
      ResumeTeardown(None);
    }

    method DropStop()
      modifies `stopInFlight
      ensures View() == old(View()).(stopInFlight := None)
    {
      stopInFlight := None;
    }

    method RecordOutcome(outcome: M.StopOutcome)
      modifies `stopInFlight, `lastStopOutcome
      ensures View() == old(View()).(stopInFlight := None, lastStopOutcome := Some(outcome))
    {
      stopInFlight := None;
      lastStopOutcome := Some(outcome);
    }

    method SealIfUnsafe(outcome: M.StopOutcome)
      modifies `stopSealed, `machine
      ensures View() == M.Sealed(old(View()), outcome)
    {
      hide S.MotorTestTransition;
      var unsafe := if pulseMayHaveReachedFc then !outcome.Acknowledged? else outcome.FailedStop?;
      if unsafe {
        stopSealed := true;
        Tell(S.FaultRaised(S.StopFailed));
      }
    }

    method ResumeTeardown(outcome: Option<M.StopOutcome>)
      modifies `teardown
      ensures View() == M.Resumed(old(View()), outcome)
    {
      if teardown.AwaitingStop? {
        teardown := M.Resumable(outcome);
      }
    }

    method OnStopSettled(result: M.FrameResult, leaseLive: bool, w: M.World)
      requires Valid()
      modifies this
      ensures Valid() && View() == M.Step(old(View()), M.StopSettled(result, leaseLive), w)
    {
      hide M.Inv, M.DoStopSettled, M.Drain;
      M.StepKeepsInv(View(), M.StopSettled(result, leaseLive), w);
      SettleStop(result, leaseLive);
      RunReactions(w.teardown);
    }

    // ---------------------------------------------------------------- closing

    /** The synchronous start of a teardown. */
    method BeginTeardown(env: M.StopEnv)
      modifies this
      ensures View() == M.BeginTeardown(old(View()), env)
    {
      hide M.EndPulseAttempt, M.ExecuteStopVector;
      MarkClosing();
      EndPulseAttempt(M.StopDominated);
      EnterClosing();
      ExecuteStopVector(env);
      AwaitStop();
    }

    method EnterClosing()
      modifies `phase
      ensures View() == old(View()).(phase := M.Closing)
    {
      phase := M.Closing;
    }

    /** The teardown waits for the stop in flight, or replays the outcome of a sealed one. */
    method AwaitStop()
      modifies `teardown
      ensures View() == old(View()).(teardown :=
                if stopInFlight.Some? then M.AwaitingStop
                else M.Resumable(Some(lastStopOutcome.GetOr(M.FailedStop(M.StopRequestFailed)))))
    {
      if stopInFlight.Some? {
        teardown := M.AwaitingStop;
      } else {
        teardown := M.Resumable(Some(lastStopOutcome.GetOr(M.FailedStop(M.StopRequestFailed))));
      }
    }

    method MarkClosing()
      modifies `closing, `pulseDeadlineTimer
      ensures View() == old(View()).(closing := true, watchdog := None)
    {
      closing := true;
      pulseDeadlineTimer := None;
    }

    method Close(w: M.World)
      requires Valid()
      modifies this
      ensures Valid() && View() == M.Step(old(View()), M.Close, w)
    {
      hide M.Inv, M.BeginTeardown, M.Drain;
      M.StepKeepsInv(View(), M.Close, w);
      if teardown.NotStarted? {
        BeginTeardown(w.stop);
      }
      RunReactions(w.teardown);
    }

    method OnSessionInvalidated(reason: S.FaultReason, w: M.World)
      requires Valid()
      modifies this
      ensures Valid() && View() == M.Step(old(View()), M.SessionInvalidated(reason), w)
    {
      hide M.Inv, M.BeginTeardown, M.Drain, S.MotorTestTransition;
      M.StepKeepsInv(View(), M.SessionInvalidated(reason), w);
      if phase != M.Closed && !closing {
        RecordLostSession(reason);
        BeginTeardown(w.stop);
      }
      RunReactions(w.teardown);
    }

    method RecordLostSession(reason: S.FaultReason)
      modifies `closing, `machine, `ready
      ensures View() == M.Apply(old(View()).(closing := true), S.FaultRaised(reason)).(ready := false)
    {
      hide S.MotorTestTransition;
      closing := true;
      Tell(S.FaultRaised(reason));
      ready := false;
    }

    /** The rest of the teardown: lease, then telemetry tokens, last and only behind a certain stop. */
    method FinishTeardown(t: M.TeardownEnv)
      modifies this
      ensures View() == M.DoTeardown(old(View()), t)
    {
      hide S.MotorTestTransition, M.Apply;
      if !teardown.Resumable? {
        return;
      }
      var outcome := teardown.stopOutcome;
      var stopUnsafe := outcome.None? || outcome.value.FailedStop?
        || (!outcome.value.Acknowledged? && pulseMayHaveReachedFc);
      var exclusivityGone := t.release.Released? || t.release.AlreadyReleased? || t.release.Invalidated?;
      ReleaseTelemetryTokens(exclusivityGone && !stopUnsafe && !t.barrierThrows);
      if !(exclusivityGone && !t.threw && !t.barrierThrows && !stopUnsafe) {
        RecordIncomplete(if stopUnsafe || !exclusivityGone then S.StopFailed else S.NativeException);
      }
      MarkClosed();
    }

    method ReleaseTelemetryTokens(release: bool)
      modifies `telemetryReleased
      ensures View() == old(View()).(telemetryReleased := release)
    {
      telemetryReleased := release;
    }

    method RecordIncomplete(reason: S.FaultReason)
      modifies `machine, `ready
      ensures View() == M.Apply(old(View()), S.FaultRaised(reason)).(ready := false)
    {
      hide S.MotorTestTransition;
      Tell(S.FaultRaised(reason));
      ready := false;
    }

    method MarkClosed()
      modifies `phase, `teardown
      ensures View() == old(View()).(phase := M.Closed, teardown := M.Done)
    {
      phase := M.Closed;
      teardown := M.Done;
    }

    /** Promise reactions: a stop decided without a write settles, and a resumable teardown ends. */
    method RunReactions(t: M.TeardownEnv)
      modifies this
      ensures View() == M.Drain(old(View()), t)
    {
      hide M.DoStopSettled, M.DoTeardown;
      if stopInFlight.Some? && stopInFlight.value.Decided? {
        SettleStop(M.FrameResolved, true);
      }
      FinishTeardown(t);
    }
  }
}
