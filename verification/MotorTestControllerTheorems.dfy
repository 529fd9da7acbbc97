/** What the pulse, stop and teardown machinery guarantees over every run of a READY session. */
module MotorTestControllerTheorems {
  import opened MspTypes
  import S = MotorTestStateMachine
  import opened MotorTestControllerModel

  /** While a pulse is live, its own watchdog is armed and no stop is running or sealed. */
  lemma LivePulseIsWatched(authority: S.Authority, events: seq<(Event, World)>)
    requires Run(ReadySession(authority), events).pulseAttempt.Some?
    ensures
      var c := Run(ReadySession(authority), events);
      && c.watchdog == c.pulseAttempt == Some(c.pulse.attemptId)
      && c.stopInFlight.None? && !c.stopSealed && c.phase.Active? && c.machine.PulsingState?
  {
    hide Run, OncePulsed, PhasesOk, SealOk;
    ReadyInv(authority);
    RunKeepsInv(ReadySession(authority), events);
  }

  /** Ending, by whatever event, starts a stop bound to that very pulse in the same step. */
  lemma EndedPulseIsBeingStopped(c: Controller, e: Event, w: World, attempt: AttemptId)
    requires Inv(c) && c.pulseAttempt == Some(attempt) && Step(c, e, w).pulseAttempt != Some(attempt)
    ensures
      var t := Step(c, e, w);
      && t.pulseAttempt.None? && t.watchdog.None?
      && t.stopEpisodeId == c.stopEpisodeId + 1 && t.stopEpisodeAttemptId == Some(attempt)
      && (|| (t.stopInFlight == Some(Dispatched(w.stop.ambiguous)) && t.stopCommands == c.stopCommands + 1
              && t.lastStopOutcome == c.lastStopOutcome)
          || (t.stopSealed && t.lastStopOutcome.Some? && !t.lastStopOutcome.value.Acknowledged?))
  {
    hide Inv, Mid, Act, Drain;
    StepKeepsInv(c, e, w);
    ActKeepsMid(c, e, w.stop);
    LiveFacts(c);
    EndedInAct(c, e, w.stop, attempt, w.teardown);
    StartedSurvivesDrain(c, Act(c, e, w.stop), w.stop, w.teardown, attempt);
  }

  lemma LiveFacts(c: Controller)
    requires Inv(c) && c.pulseAttempt.Some?
    ensures c.stopInFlight.None? && !c.stopSealed && c.phase.Active? && !c.closing && c.pulseMayHaveReachedFc
    ensures c.pulse.attemptId == c.pulseAttempt.value && c.teardown.NotStarted? && c.watchdog == c.pulseAttempt
  {
  }

  /** A stop was started for `attempt`, and nothing has been decided about it yet but what could not be sent. */
  ghost predicate StopStarted(c: Controller, t: Controller, env: StopEnv, attempt: AttemptId) {
    && t.pulseAttempt.None?
    && t.stopEpisodeId == c.stopEpisodeId + 1 && t.stopEpisodeAttemptId == Some(attempt)
    && t.stopInFlight == Some(StartedStop(env)) && t.pulseMayHaveReachedFc
    && (StartedStop(env).Dispatched? ==> t.lastStopOutcome == c.lastStopOutcome)
    && t.stopCommands == c.stopCommands + (if t.stopInFlight.value.Dispatched? then 1 else 0)
  }

  lemma StopStarts(c: Controller, u: Controller, env: StopEnv, attempt: AttemptId)
    requires u.stopInFlight.None? && !u.stopSealed && u.pulse.attemptId == attempt && u.pulseAttempt.None?
             && u.pulseMayHaveReachedFc
    requires u.stopEpisodeId == c.stopEpisodeId && u.stopCommands == c.stopCommands
    requires u.lastStopOutcome == c.lastStopOutcome
    ensures StopStarted(c, ExecuteStopVector(u, env), env, attempt)
  {
  }

  lemma RequestedStopStarts(c: Controller, u: Controller, trigger: S.StopReason, env: StopEnv, attempt: AttemptId)
    requires u.stopInFlight.None? && !u.stopSealed && u.phase.Active? && u.pulseMayHaveReachedFc
    requires u.pulse.attemptId == attempt && u.stopEpisodeId == c.stopEpisodeId && u.stopCommands == c.stopCommands
    requires u.lastStopOutcome == c.lastStopOutcome
    ensures StopStarted(c, RequestStop(u, trigger, env), env, attempt)
  {
    hide S.MotorTestTransition, S.Locking, ExecuteStopVector, StartedStop, StopStarted;
    var c1 := Disarmed(u, trigger);
    StopStarts(c, Apply(EndPulseAttempt(c1, StopDominated), S.StopTriggered(trigger)), env, attempt);
  }

  lemma FailedPulseStarts(c: Controller, o: PulseOutcome, fault: S.FaultReason, env: StopEnv, attempt: AttemptId)
    requires Inv(c) && c.pulseAttempt == Some(attempt)
    ensures StopStarted(c, FailPulseClosed(c, o, fault, env), env, attempt)
  {
    hide Inv, S.MotorTestTransition, RequestStop;
    LiveFacts(c);
    RequestedStopStarts(c, EndPulseAttempt(c, o), S.StopButtonPressed, env, attempt);
  }

  lemma TeardownStarts(c: Controller, u: Controller, env: StopEnv, attempt: AttemptId)
    requires u.stopInFlight.None? && !u.stopSealed && u.pulseMayHaveReachedFc
    requires u.pulse.attemptId == attempt && u.stopEpisodeId == c.stopEpisodeId && u.stopCommands == c.stopCommands
    requires u.lastStopOutcome == c.lastStopOutcome
    ensures StopStarted(c, BeginTeardown(u, env), env, attempt)
  {
    hide ExecuteStopVector;
    var c1 := EndPulseAttempt(u.(closing := true, watchdog := None), StopDominated).(phase := Closing);
    StopStarts(c, c1, env, attempt);
  }

  /** Each event either leaves the pulse live, with nothing to drain, or has started its stop. */
  lemma EndedInAct(c: Controller, e: Event, env: StopEnv, attempt: AttemptId, t: TeardownEnv)
    requires Inv(c) && c.pulseAttempt == Some(attempt)
    ensures StopStarted(c, Act(c, e, env), env, attempt) || Drain(Act(c, e, env), t).pulseAttempt == Some(attempt)
  {
    hide Inv, S.MotorTestTransition, RequestStop, BeginTeardown, FailPulseClosed, StopStarted;
    LiveFacts(c);
    match e {
      case PulseMotor(motorNumber, gates) =>
        RequestedStopStarts(c, c, S.MotorSelectionChanged, env, attempt);
      case StopRequested(trigger) => RequestedStopStarts(c, c, trigger, env, attempt);
      case WatchdogFired => RequestedStopStarts(c, c.(watchdog := None), S.PulseDeadlineElapsed, env, attempt);
      case PulseSettled(k, ok, leaseLive) =>
        FailedPulseStarts(c, RequestFailed, S.WriteOutcomeUnknown, env, attempt);
        FailedPulseStarts(c, AuthorityChanged, S.SessionChanged, env, attempt);
      case StopSettled(result, leaseLive) =>
      case Close => TeardownStarts(c, c, env, attempt);
      case SessionInvalidated(reason) =>
        TeardownStarts(c, Apply(c.(closing := true), S.FaultRaised(reason)).(ready := false), env, attempt);
    }
  }

  /** A stop that could not be sent after a pulse is sealed as soon as its reaction runs. */
  lemma DecidedIsSealed(c: Controller, u: Controller, env: StopEnv, attempt: AttemptId)
    requires Mid(u) && StopStarted(c, u, env, attempt) && u.stopInFlight.value.Decided?
    ensures
      var d := DoStopSettled(u, FrameResolved, true);
      && d.pulseAttempt.None? && d.stopEpisodeId == u.stopEpisodeId && d.stopEpisodeAttemptId == u.stopEpisodeAttemptId
      && d.stopSealed && d.lastStopOutcome.Some? && !d.lastStopOutcome.value.Acknowledged?
  {
    hide S.MotorTestTransition, PulseOk, OncePulsed;
  }

  lemma TeardownFrame(d: Controller, t: TeardownEnv)
    ensures
      var f := DoTeardown(d, t);
      && f.pulseAttempt == d.pulseAttempt && f.watchdog == d.watchdog && f.stopInFlight == d.stopInFlight
      && f.stopEpisodeId == d.stopEpisodeId && f.stopEpisodeAttemptId == d.stopEpisodeAttemptId
      && f.stopSealed == d.stopSealed && f.stopThrew == d.stopThrew && f.lastStopOutcome == d.lastStopOutcome
      && f.stopCommands == d.stopCommands && f.pulseMayHaveReachedFc == d.pulseMayHaveReachedFc
      && f.pulseAttemptCounter == d.pulseAttemptCounter
  {
    hide S.MotorTestTransition;
  }

  lemma StartedSurvivesDrain(c: Controller, u: Controller, env: StopEnv, t: TeardownEnv, attempt: AttemptId)
    requires Mid(u) && Inv(Drain(u, t))
    ensures StopStarted(c, u, env, attempt) ==>
              var d := Drain(u, t);
              && d.pulseAttempt.None? && d.watchdog.None?
              && d.stopEpisodeId == c.stopEpisodeId + 1 && d.stopEpisodeAttemptId == Some(attempt)
              && (|| (d.stopInFlight == Some(Dispatched(env.ambiguous)) && d.stopCommands == c.stopCommands + 1
                      && d.lastStopOutcome == c.lastStopOutcome)
                  || (d.stopSealed && d.lastStopOutcome.Some? && !d.lastStopOutcome.value.Acknowledged?))
  {
    hide Mid, DoTeardown, DoStopSettled, OncePulsed, PhasesOk, SealOk;
    if StopStarted(c, u, env, attempt) {
      if u.stopInFlight.value.Decided? {
        DecidedIsSealed(c, u, env, attempt);
        TeardownFrame(DoStopSettled(u, FrameResolved, true), t);
      } else {
        TeardownFrame(u, t);
      }
    }
  }

  // ---------------------------------------------------------------- one pulse, one seal

  /**
   * A controller accepts at most one pulse in its life: after it the machine never is Ready again, because
   * the acknowledgement of a stop is never reported to it.
   */
  lemma AtMostOnePulse(authority: S.Authority, events: seq<(Event, World)>, motorNumber: int, gates: Gates)
    ensures
      var c := Run(ReadySession(authority), events);
      && c.pulseAttemptCounter <= 1
      && (c.pulseAttemptCounter == 1 ==> !PulseVerdictFor(c, motorNumber, gates).Accepted?)
  {
    hide Run, PulseOk, PhasesOk, SealOk;
    ReadyInv(authority);
    RunKeepsInv(ReadySession(authority), events);
    AcceptedExactlyWhen(Run(ReadySession(authority), events), motorNumber, gates);
  }

  /** What a sealed controller keeps. */
  ghost predicate SealKept(c: Controller, t: Controller) {
    && t.stopSealed && t.stopThrew == c.stopThrew && t.lastStopOutcome == c.lastStopOutcome
    && t.stopCommands == c.stopCommands && t.pulseAttemptCounter == c.pulseAttemptCounter
  }

  lemma SealedAct(c: Controller, e: Event, env: StopEnv)
    requires Inv(c) && c.stopSealed
    ensures SealKept(c, Act(c, e, env)) && Act(c, e, env).stopInFlight.None?
  {
    hide S.MotorTestTransition, DoPulse, DoPulseSettled, RequestStop, BeginTeardown, DoWatchdog;
    assert c.pulseAttempt.None? && c.stopInFlight.None?;
    match e {
      case PulseMotor(motorNumber, gates) => SealedPulse(c, motorNumber, gates, env);
      case StopRequested(trigger) => SealedRequest(c, trigger, env);
      case WatchdogFired => NoWatchdog(c, env);
      case PulseSettled(attempt, ok, leaseLive) => NoAnswer(c, attempt, ok, leaseLive, env);
      case StopSettled(result, leaseLive) =>
      case Close => SealedTeardown(c, env);
      case SessionInvalidated(reason) =>
        SealedTeardown(Apply(c.(closing := true), S.FaultRaised(reason)).(ready := false), env);
    }
  }

  lemma SealedPulse(c: Controller, motorNumber: int, g: Gates, env: StopEnv)
    requires c.stopSealed && c.pulseAttempt.None?
    ensures DoPulse(c, motorNumber, g, env) == c
  {
    hide S.MotorTestTransition, EvaluateActivation;
    AcceptedExactlyWhen(c, motorNumber, g);
  }

  lemma SealedRequest(c: Controller, trigger: S.StopReason, env: StopEnv)
    requires c.stopSealed && c.stopInFlight.None?
    ensures SealKept(c, RequestStop(c, trigger, env)) && RequestStop(c, trigger, env).stopInFlight.None?
  {
    hide S.MotorTestTransition;
  }

  lemma NoWatchdog(c: Controller, env: StopEnv)
    requires c.watchdog.None?
    ensures DoWatchdog(c, env) == c
  {
  }

  lemma NoAnswer(c: Controller, attempt: AttemptId, ok: bool, leaseLive: bool, env: StopEnv)
    requires c.pulseAttempt.None?
    ensures DoPulseSettled(c, attempt, ok, leaseLive, env) == c
  {
  }

  lemma SealedTeardown(c: Controller, env: StopEnv)
    requires c.stopSealed && c.stopInFlight.None?
    ensures SealKept(c, BeginTeardown(c, env)) && BeginTeardown(c, env).stopInFlight.None?
  {
  }

  lemma SealedStep(c: Controller, e: Event, w: World)
    requires Inv(c) && c.stopSealed
    ensures SealKept(c, Step(c, e, w))
  {
    hide Act, DoTeardown, Inv;
    var u := Act(c, e, w.stop);
    SealedAct(c, e, w.stop);
    TeardownFrame(u, w.teardown);
  }

  /** A sealed stop is final: no later pulse, no later stop command, and the outcome that sealed it stands. */
  lemma {:induction false} SealedIsFinal(c: Controller, events: seq<(Event, World)>)
    requires Inv(c) && c.stopSealed
    ensures SealKept(c, Run(c, events))
    decreases |events|
  {
    hide Inv, Step;
    if events != [] {
      var last := |events| - 1;
      SealedIsFinal(c, events[..last]);
      RunKeepsInv(c, events[..last]);
      SealedStep(Run(c, events[..last]), events[last].0, events[last].1);
    }
  }

  /**
   * After a sealed stop that was not acknowledged, no teardown of this controller ever gives the telemetry tokens
   * back; a stop that ended in an exception counts as such once a pulse may have reached the aircraft.
   */
  lemma UnacknowledgedKeepsTelemetryPaused(c: Controller, events: seq<(Event, World)>)
    requires Inv(c) && c.stopSealed
    requires c.stopThrew ==> c.pulseMayHaveReachedFc && c.lastStopOutcome != Some(Acknowledged)
    ensures !Run(c, events).telemetryReleased
  {
    hide Run, OncePulsed, PhasesOk;
    SealedIsFinal(c, events);
    RunKeepsInv(c, events);
  }

  /** Once a pulse may have reached the aircraft, telemetry resumes only behind an acknowledged stop. */
  lemma TelemetryResumesBehindAnAcknowledgement(authority: S.Authority, events: seq<(Event, World)>)
    ensures
      var c := Run(ReadySession(authority), events);
      c.telemetryReleased && c.pulseAttemptCounter > 0 ==> c.lastStopOutcome == Some(Acknowledged)
  {
    hide Run, OncePulsed, PhasesOk;
    ReadyInv(authority);
    RunKeepsInv(ReadySession(authority), events);
  }

  // ---------------------------------------------------------------- what follows a pulse

  /** An ended pulse has a stop of its own: running, acknowledged, or sealed. */
  ghost predicate Followed(c: Controller) {
    c.pulseMayHaveReachedFc && c.pulseAttempt.None? ==>
      && c.stopEpisodeAttemptId == Some(c.pulse.attemptId)
      && (c.stopInFlight.Some? || c.stopSealed || c.lastStopOutcome == Some(Acknowledged))
  }

  /** An event that touches neither the pulse nor the stops. */
  ghost predicate StopsAlone(c: Controller, t: Controller) {
    && t.pulseMayHaveReachedFc == c.pulseMayHaveReachedFc && t.pulseAttempt == c.pulseAttempt
    && t.pulse.attemptId == c.pulse.attemptId && t.stopEpisodeAttemptId == c.stopEpisodeAttemptId
    && t.stopInFlight == c.stopInFlight && t.stopSealed == c.stopSealed && t.lastStopOutcome == c.lastStopOutcome
  }

  lemma ExecuteFollows(c: Controller, t: Controller, env: StopEnv)
    requires Followed(c) && c.pulseAttempt.None? && StopsAlone(c, t)
    ensures Followed(ExecuteStopVector(t, env))
  {
    hide StartedStop;
  }

  lemma RequestFollows(c: Controller, trigger: S.StopReason, env: StopEnv)
    requires Followed(c) && c.pulseAttempt.None?
    ensures Followed(RequestStop(c, trigger, env))
  {
    hide S.MotorTestTransition, ExecuteStopVector;
    var c1 := Disarmed(c, trigger);
    ExecuteFollows(c, Apply(EndPulseAttempt(c1, StopDominated), S.StopTriggered(trigger)), env);
  }

  lemma TeardownFollows(c: Controller, u: Controller, env: StopEnv)
    requires Followed(c) && c.pulseAttempt.None? && StopsAlone(c, u)
    ensures Followed(BeginTeardown(u, env))
  {
    hide S.MotorTestTransition, ExecuteStopVector;
    ExecuteFollows(c, EndPulseAttempt(u.(closing := true, watchdog := None), StopDominated).(phase := Closing), env);
  }

  lemma SettledWithFollows(c: Controller, o: StopOutcome)
    requires Followed(c) && c.stopInFlight.Some?
    ensures Followed(SettledWith(c, o))
  {
    hide Sealed;
    SealedWhenUnsafe(c.(stopInFlight := None, lastStopOutcome := Some(o)), o);
  }

  lemma SettledByExceptionFollows(c: Controller)
    requires Followed(c) && c.stopInFlight.Some?
    ensures Followed(SettledByException(c))
  {
  }

  lemma SettledFollows(c: Controller, result: FrameResult, leaseLive: bool)
    requires Followed(c)
    ensures Followed(DoStopSettled(c, result, leaseLive))
  {
    hide FrameOutcome, SettledWith, SettledByException, Followed;
    if c.stopInFlight.Some? {
      SettledByExceptionFollows(c);
      SettledWithFollows(c, if c.stopInFlight.value.Decided? then c.stopInFlight.value.outcome
                            else FrameOutcome(c.stopInFlight.value.ambiguous, result, leaseLive));
    }
  }

  lemma SealedWhenUnsafe(c: Controller, o: StopOutcome)
    ensures var d := Sealed(c, o);
            && d == c.(stopSealed := d.stopSealed, machine := d.machine)
            && (Unsafe(c.pulseMayHaveReachedFc, o) ==> d.stopSealed) && (c.stopSealed ==> d.stopSealed)
  {
    hide S.MotorTestTransition, Unsafe;
  }

  /** With no pulse live, every event keeps an ended pulse followed. */
  lemma ActFollows(c: Controller, e: Event, env: StopEnv)
    requires Inv(c) && Followed(c) && c.pulseAttempt.None?
    ensures Followed(Act(c, e, env))
  {
    hide S.MotorTestTransition, DoPulse, RequestStop, BeginTeardown, DoWatchdog, DoPulseSettled, DoStopSettled, PulseOk,
      OncePulsed, PhasesOk, SealOk, Followed;
    match e {
      case PulseMotor(motorNumber, gates) => PulseFollows(c, motorNumber, gates, env);
      case StopRequested(trigger) => RequestFollows(c, trigger, env);
      case WatchdogFired => assert c.watchdog.None? by { Unwatched(c); } NoWatchdog(c, env);
      case PulseSettled(attempt, ok, leaseLive) => NoAnswer(c, attempt, ok, leaseLive, env);
      case StopSettled(result, leaseLive) => SettledFollows(c, result, leaseLive);
      case Close => TeardownFollows(c, c, env);
      case SessionInvalidated(reason) =>
        TeardownFollows(c, Apply(c.(closing := true), S.FaultRaised(reason)).(ready := false), env);
    }
  }

  lemma Unwatched(c: Controller)
    requires Inv(c) && c.pulseAttempt.None?
    ensures c.watchdog.None?
  {
  }

  lemma PulseFollows(c: Controller, motorNumber: int, g: Gates, env: StopEnv)
    requires Inv(c) && Followed(c) && c.pulseAttempt.None?
    ensures Followed(DoPulse(c, motorNumber, g, env))
  {
    hide S.MotorTestTransition, PulseVerdictFor, Inv;
    if PulseVerdictFor(c, motorNumber, g).SwitchRequiresNewActivation? {
      RequestFollows(c, S.MotorSelectionChanged, env);
    }
  }

  lemma DrainFollows(c: Controller, t: TeardownEnv)
    requires Followed(c)
    ensures Followed(Drain(c, t))
  {
    hide DoStopSettled, DoTeardown, Followed;
    var d := BeforeTeardown(c);
    SettledFollows(c, FrameResolved, true);
    FinishedFollows(d, t);
  }

  lemma FinishedFollows(d: Controller, t: TeardownEnv)
    requires Followed(d)
    ensures Followed(DoTeardown(d, t))
  {
    hide S.MotorTestTransition;
  }

  lemma StepFollows(c: Controller, e: Event, w: World)
    requires Inv(c) && Followed(c)
    ensures Followed(Step(c, e, w))
  {
    hide Act, Drain, PhasesOk, SealOk;
    if c.pulseAttempt.None? {
      ActFollows(c, e, w.stop);
      DrainFollows(Act(c, e, w.stop), w.teardown);
    } else {
      StepKeepsInv(c, e, w);
      if Step(c, e, w).pulseAttempt != c.pulseAttempt {
        EndedPulseIsBeingStopped(c, e, w, c.pulseAttempt.value);
      }
    }
  }

  lemma {:induction false} RunFollows(c: Controller, events: seq<(Event, World)>)
    requires Inv(c) && Followed(c)
    ensures Followed(Run(c, events))
    decreases |events|
  {
    hide Inv, Followed, Step;
    if events != [] {
      var last := |events| - 1;
      RunFollows(c, events[..last]);
      RunKeepsInv(c, events[..last]);
      StepFollows(Run(c, events[..last]), events[last].0, events[last].1);
    }
  }

  /**
   * FROM PULSE TO TEARDOWN, over every run: once the pulse has ended, its last stop is bound to it and is running,
   * acknowledged or sealed; and if it has ended in anything but an acknowledgement, then however the run goes on
   * no pulse is accepted, no stop command is sent and no teardown gives the telemetry tokens back.
   */
  lemma EndedPulseIsStoppedOrNeverResumed(authority: S.Authority, events: seq<(Event, World)>,
                                          later: seq<(Event, World)>,
                                          motorNumber: int, gates: Gates)
    requires var c := Run(ReadySession(authority), events); c.pulseAttemptCounter > 0 && c.pulseAttempt.None?
    ensures
      var c := Run(ReadySession(authority), events);
      var t := Run(c, later);
      && c.stopEpisodeAttemptId == Some(c.pulse.attemptId)
      && (c.stopInFlight.Some? || c.lastStopOutcome == Some(Acknowledged) || c.stopSealed)
      && (c.stopInFlight.None? && c.lastStopOutcome != Some(Acknowledged) ==>
            && !t.telemetryReleased && t.stopCommands == c.stopCommands
            && !PulseVerdictFor(t, motorNumber, gates).Accepted?)
  {
    hide Run, OncePulsed, PhasesOk, SealOk;
    ReadyInv(authority);
    RunKeepsInv(ReadySession(authority), events);
    RunFollows(ReadySession(authority), events);
    var c := Run(ReadySession(authority), events);
    if c.stopInFlight.None? && c.lastStopOutcome != Some(Acknowledged) {
      UnacknowledgedKeepsTelemetryPaused(c, later);
      SealedIsFinal(c, later);
      AcceptedExactlyWhen(Run(c, later), motorNumber, gates);
    }
  }

  // ---------------------------------------------------------------- an ambiguous stop

  /** An ambiguous stop that runs, or that is over without having been called acknowledged. */
  ghost predicate NeverConfirmed(c: Controller) {
    && c.pulseMayHaveReachedFc && c.lastStopOutcome != Some(Acknowledged)
    && (c.stopInFlight == Some(Dispatched(true)) || (c.stopInFlight.None? && c.stopSealed))
  }

  lemma AmbiguousSettles(c: Controller, result: FrameResult, leaseLive: bool)
    requires NeverConfirmed(c)
    ensures NeverConfirmed(DoStopSettled(c, result, leaseLive))
  {
    hide Sealed;
    if c.stopInFlight.Some? && !result.UnexpectedException? {
      var o := FrameOutcome(true, result, leaseLive);
      SealedWhenUnsafe(c.(stopInFlight := None, lastStopOutcome := Some(o)), o);
    }
  }

  lemma AmbiguousAct(c: Controller, e: Event, env: StopEnv)
    requires c.stopInFlight == Some(Dispatched(true)) && NeverConfirmed(c)
    ensures NeverConfirmed(Act(c, e, env))
  {
    hide S.MotorTestTransition, DoPulse, RequestStop, DoWatchdog, DoPulseSettled, DoStopSettled, BeginTeardown;
    if e.StopSettled? {
      AmbiguousSettles(c, e.result, e.leaseLive);
    } else if e.Close? {
      BeginTeardownFrame(c, env);
    } else if e.SessionInvalidated? {
      BeginTeardownFrame(Apply(c.(closing := true), S.FaultRaised(e.reason)).(ready := false), env);
    } else {
      OthersAreFramed(c, e, env);
    }
  }

  lemma AmbiguousDrain(u: Controller, t: TeardownEnv)
    requires NeverConfirmed(u)
    ensures NeverConfirmed(Drain(u, t))
  {
    hide DoStopSettled, DoTeardown;
    AmbiguousSettles(u, FrameResolved, true);
    TeardownFrame(BeforeTeardown(u), t);
  }

  lemma AmbiguousStep(c: Controller, e: Event, w: World)
    requires Inv(c) && NeverConfirmed(c)
    ensures NeverConfirmed(Step(c, e, w))
  {
    hide Inv, Act, Drain;
    if c.stopInFlight.Some? {
      AmbiguousAct(c, e, w.stop);
      AmbiguousDrain(Act(c, e, w.stop), w.teardown);
    } else {
      SealedStep(c, e, w);
      StepKeepsInv(c, e, w);
      SealedIsIdle(Step(c, e, w));
      PulseStays(c, e, w);
    }
  }

  lemma SealedIsIdle(c: Controller)
    requires Inv(c) && c.stopSealed
    ensures c.stopInFlight.None?
  {
  }

  lemma PulseStays(c: Controller, e: Event, w: World)
    requires Inv(c) && c.stopSealed && c.pulseMayHaveReachedFc
    ensures Step(c, e, w).pulseMayHaveReachedFc
  {
    hide Step, OncePulsed, PhasesOk, SealOk;
    SealedStep(c, e, w);
    StepKeepsInv(c, e, w);
  }

  /** An ambiguous stop is never called acknowledged, however the run goes on, and nothing is released behind it. */
  lemma {:induction false} AmbiguousIsNeverConfirmed(c: Controller, events: seq<(Event, World)>)
    requires Inv(c) && NeverConfirmed(c)
    ensures NeverConfirmed(Run(c, events)) && !Run(c, events).telemetryReleased
    decreases |events|
  {
    hide Step, NeverConfirmed;
    if events != [] {
      var last := |events| - 1;
      AmbiguousIsNeverConfirmed(c, events[..last]);
      RunKeepsInv(c, events[..last]);
      AmbiguousStep(Run(c, events[..last]), events[last].0, events[last].1);
    }
    RunKeepsInv(c, events);
    NothingReleased(Run(c, events));
  }

  lemma NothingReleased(c: Controller)
    requires Inv(c) && NeverConfirmed(c)
    ensures !c.telemetryReleased
  {
  }

  /** Before the first pulse and while it is live, an open controller has never started a stop. */
  ghost predicate Untouched(c: Controller) {
    c.phase.Active? && (c.pulseAttempt.Some? || !c.pulseMayHaveReachedFc) ==>
      c.lastStopOutcome.None? && c.stopInFlight.None?
  }

  /** A stop request with no pulse on record starts nothing; with one on record none is live afterwards. */
  lemma RequestedShape(c: Controller, trigger: S.StopReason, env: StopEnv)
    ensures var t := RequestStop(c, trigger, env);
            && t.phase == c.phase && t.pulseMayHaveReachedFc == c.pulseMayHaveReachedFc
            && (!c.phase.Closed? ==> t.pulseAttempt.None?)
            && (!c.pulseMayHaveReachedFc ==> t.lastStopOutcome == c.lastStopOutcome && t.stopInFlight == c.stopInFlight)
  {
    hide S.MotorTestTransition, S.Locking, StartedStop;
  }

  lemma UntouchedRequest(c: Controller, trigger: S.StopReason, env: StopEnv)
    requires Untouched(c)
    ensures Untouched(RequestStop(c, trigger, env))
  {
    hide RequestStop;
    RequestedShape(c, trigger, env);
  }

  lemma UntouchedPulse(c: Controller, motorNumber: int, g: Gates, env: StopEnv)
    requires Inv(c) && Untouched(c)
    ensures Untouched(DoPulse(c, motorNumber, g, env))
  {
    hide S.MotorTestTransition, RequestStop, EvaluateActivation;
    AcceptedExactlyWhen(c, motorNumber, g);
    UntouchedRequest(c, S.MotorSelectionChanged, env);
  }

  lemma UntouchedSettled(c: Controller, result: FrameResult, leaseLive: bool)
    requires Untouched(c)
    ensures Untouched(DoStopSettled(c, result, leaseLive))
  {
    hide SettledWith, SettledByException, FrameOutcome;
    SettleFrame(c, result, leaseLive);
  }

  lemma UntouchedAnswer(c: Controller, attempt: AttemptId, ok: bool, leaseLive: bool, env: StopEnv)
    requires Untouched(c)
    ensures Untouched(DoPulseSettled(c, attempt, ok, leaseLive, env))
  {
    hide S.MotorTestTransition, RequestStop;
    RequestedShape(EndPulseAttempt(c, RequestFailed), S.StopButtonPressed, env);
    RequestedShape(EndPulseAttempt(c, AuthorityChanged), S.StopButtonPressed, env);
  }

  lemma UntouchedAct(c: Controller, e: Event, env: StopEnv)
    requires Inv(c) && Untouched(c)
    ensures Untouched(Act(c, e, env))
  {
    hide S.MotorTestTransition, DoPulse, RequestStop, DoPulseSettled, DoStopSettled, BeginTeardown, PulseOk, OncePulsed,
      PhasesOk, SealOk;
    match e {
      case PulseMotor(motorNumber, gates) => UntouchedPulse(c, motorNumber, gates, env);
      case StopRequested(trigger) => UntouchedRequest(c, trigger, env);
      case WatchdogFired => UntouchedRequest(c.(watchdog := None), S.PulseDeadlineElapsed, env);
      case PulseSettled(attempt, ok, leaseLive) => UntouchedAnswer(c, attempt, ok, leaseLive, env);
      case StopSettled(result, leaseLive) => UntouchedSettled(c, result, leaseLive);
      case Close => BeginTeardownFrame(c, env);
      case SessionInvalidated(reason) =>
        BeginTeardownFrame(Apply(c.(closing := true), S.FaultRaised(reason)).(ready := false), env);
    }
  }

  lemma UntouchedStep(c: Controller, e: Event, w: World)
    requires Inv(c) && Untouched(c)
    ensures Untouched(Step(c, e, w))
  {
    hide Act, DoTeardown, DoStopSettled, Inv;
    var u := Act(c, e, w.stop);
    UntouchedAct(c, e, w.stop);
    UntouchedSettled(u, FrameResolved, true);
    TeardownFrame(BeforeTeardown(u), w.teardown);
    TeardownOnlyCloses(BeforeTeardown(u), w.teardown);
  }

  lemma TeardownOnlyCloses(d: Controller, t: TeardownEnv)
    ensures DoTeardown(d, t).phase.Active? ==> d.phase.Active?
  {
    hide S.MotorTestTransition;
  }

  lemma {:induction false} RunUntouched(c: Controller, events: seq<(Event, World)>)
    requires Inv(c) && Untouched(c)
    ensures Untouched(Run(c, events))
    decreases |events|
  {
    hide Inv, Untouched, Step;
    if events != [] {
      var last := |events| - 1;
      RunUntouched(c, events[..last]);
      RunKeepsInv(c, events[..last]);
      UntouchedStep(Run(c, events[..last]), events[last].0, events[last].1);
    }
  }

  /**
   * A pulse that is ended, by whatever event, while its stop is attributed ambiguously: whatever happens later, no
   * stop of this controller is ever called acknowledged, the tokens stay, and once the stop is over it is sealed.
   */
  lemma AmbiguouslyEndedPulse(authority: S.Authority, before: seq<(Event, World)>, e: Event, w: World,
                              later: seq<(Event, World)>)
    requires Run(ReadySession(authority), before).pulseAttempt.Some? && w.stop.ambiguous
    requires Step(Run(ReadySession(authority), before), e, w).pulseAttempt.None?
    ensures
      var t := Run(Step(Run(ReadySession(authority), before), e, w), later);
      && t.lastStopOutcome != Some(Acknowledged) && !t.telemetryReleased
      && (t.stopInFlight.None? ==> t.stopSealed)
  {
    hide Run, Step, OncePulsed, PhasesOk, SealOk;
    var c := Run(ReadySession(authority), before);
    ReadyInv(authority);
    RunKeepsInv(ReadySession(authority), before);
    RunUntouched(ReadySession(authority), before);
    EndedPulseIsBeingStopped(c, e, w, c.pulseAttempt.value);
    StepKeepsInv(c, e, w);
    EndedIsOnRecord(c, e, w);
    if Step(c, e, w).stopSealed { SealedIsIdle(Step(c, e, w)); }
    AmbiguousIsNeverConfirmed(Step(c, e, w), later);
  }

  lemma EndedIsOnRecord(c: Controller, e: Event, w: World)
    requires Inv(c) && c.pulseAttempt.Some?
    ensures Step(c, e, w).pulseMayHaveReachedFc
  {
    hide Act, DoTeardown, DoStopSettled;
    EveryActKeepsPulse(c, e, w.stop);
    SettleFrame(Act(c, e, w.stop), FrameResolved, true);
    TeardownFrame(BeforeTeardown(Act(c, e, w.stop)), w.teardown);
  }

  lemma EveryActKeepsPulse(c: Controller, e: Event, env: StopEnv)
    requires Inv(c) && c.pulseAttempt.Some?
    ensures Act(c, e, env).pulseMayHaveReachedFc
  {
    hide S.MotorTestTransition, DoPulse, RequestStop, DoWatchdog, DoPulseSettled, DoStopSettled, BeginTeardown,
      OncePulsed, PhasesOk, SealOk;
    LiveFacts(c);
    if e.StopSettled? {
      SettleFrame(c, e.result, e.leaseLive);
    } else if e.Close? {
      BeginTeardownFrame(c, env);
    } else if e.SessionInvalidated? {
      BeginTeardownFrame(Apply(c.(closing := true), S.FaultRaised(e.reason)).(ready := false), env);
    } else {
      OthersAreFramed(c, e, env);
    }
  }

  // ---------------------------------------------------------------- what a teardown decides, read off before it

  /** A teardown ends with the stop it awaits, or at once if its own stop is sealed or cannot be sent. */
  predicate ClosesNow(c: Controller, e: Event, env: StopEnv) {
    if c.phase.Closing? then e.StopSettled?
    else
      && c.phase.Active? && (e.Close? || e.SessionInvalidated?)
      && c.stopInFlight.None? && (c.stopSealed || StartedStop(env).Decided?)
  }

  /** The stop outcome that teardown goes by: of the awaited stop, replayed by the seal, or decided unsent. */
  function OutcomeSeen(c: Controller, e: Event, env: StopEnv): Option<StopOutcome>
    requires Inv(c) && ClosesNow(c, e, env)
  {
    if c.phase.Closing? then
      if e.result.UnexpectedException? then None
      else Some(FrameOutcome(c.stopInFlight.value.ambiguous, e.result, e.leaseLive))
    else if c.stopSealed then Some(c.lastStopOutcome.GetOr(FailedStop(StopRequestFailed)))
    else Some(StartedStop(env).outcome)
  }

  /** What the reactions leave for the teardown to finish. */
  function BeforeTeardown(u: Controller): Controller {
    if u.stopInFlight.Some? && u.stopInFlight.value.Decided? then DoStopSettled(u, FrameResolved, true) else u
  }

  /** What an event leaves the teardown with: nothing to finish, or the outcome it goes by. */
  ghost predicate SeesOutcome(c: Controller, e: Event, env: StopEnv, d: Controller)
    requires Inv(c)
  {
    && !d.phase.Closed? && (d.teardown.Resumable? <==> ClosesNow(c, e, env))
    && (ClosesNow(c, e, env) ==>
          && d.teardown.stopOutcome == OutcomeSeen(c, e, env)
          && d.pulseMayHaveReachedFc == c.pulseMayHaveReachedFc)
  }

  lemma AwaitedOutcome(c: Controller, e: Event, env: StopEnv)
    requires Inv(c) && c.phase.Closing?
    ensures SeesOutcome(c, e, env, BeforeTeardown(Act(c, e, env)))
  {
    hide S.MotorTestTransition, DoPulse, RequestStop, DoWatchdog, DoPulseSettled, BeginTeardown, PulseOk, OncePulsed,
      FrameOutcome, Sealed;
    if e.StopSettled? {
      if !e.result.UnexpectedException? {
        var o := FrameOutcome(c.stopInFlight.value.ambiguous, e.result, e.leaseLive);
        SealedFrame(c.(stopInFlight := None, lastStopOutcome := Some(o)), o);
      }
    } else if !e.Close? && !e.SessionInvalidated? {
      OthersAreFramed(c, e, env);
    }
  }

  lemma BegunShape(u: Controller, env: StopEnv)
    ensures
      var b := BeginTeardown(u, env);
      && b.phase.Closing? && b.pulseMayHaveReachedFc == u.pulseMayHaveReachedFc
      && b.stopInFlight == (if u.stopInFlight.Some? || u.stopSealed then u.stopInFlight else Some(StartedStop(env)))
      && (b.stopInFlight.Some? ==> b.teardown.AwaitingStop?)
      && (b.stopInFlight.None? ==>
            b.teardown == Resumable(Some(u.lastStopOutcome.GetOr(FailedStop(StopRequestFailed)))))
  {
    hide StartedStop;
  }

  lemma BegunOutcome(c: Controller, u: Controller, env: StopEnv)
    requires Inv(c) && c.phase.Active?
    requires u.stopInFlight == c.stopInFlight && u.stopSealed == c.stopSealed && u.lastStopOutcome == c.lastStopOutcome
    requires u.pulseMayHaveReachedFc == c.pulseMayHaveReachedFc
    ensures SeesOutcome(c, Close, env, BeforeTeardown(BeginTeardown(u, env)))
  {
    hide PulseOk, OncePulsed, StartedStop, Sealed, BeginTeardown;
    var b := BeginTeardown(u, env);
    BegunShape(u, env);
    if b.stopInFlight.Some? && b.stopInFlight.value.Decided? {
      var o := b.stopInFlight.value.outcome;
      SealedFrame(b.(stopInFlight := None, lastStopOutcome := Some(o)), o);
    }
  }

  lemma TeardownSees(c: Controller, e: Event, env: StopEnv)
    requires Inv(c) && !c.phase.Closed?
    ensures SeesOutcome(c, e, env, BeforeTeardown(Act(c, e, env)))
  {
    hide S.MotorTestTransition, DoPulse, RequestStop, DoWatchdog, DoPulseSettled, DoStopSettled, BeginTeardown, PulseOk,
      OncePulsed, StartedStop;
    if c.phase.Closing? {
      AwaitedOutcome(c, e, env);
    } else if e.Close? {
      BegunOutcome(c, c, env);
    } else if e.SessionInvalidated? {
      BegunOutcome(c, Apply(c.(closing := true), S.FaultRaised(e.reason)).(ready := false), env);
    } else {
      ActiveStaysOpen(c, e, env);
    }
  }

  lemma ActiveStaysOpen(c: Controller, e: Event, env: StopEnv)
    requires Inv(c) && c.phase.Active? && !e.Close? && !e.SessionInvalidated?
    ensures var d := BeforeTeardown(Act(c, e, env)); d.phase.Active? && d.teardown.NotStarted?
  {
    hide S.MotorTestTransition, DoPulse, RequestStop, DoWatchdog, DoPulseSettled, DoStopSettled, BeginTeardown, PulseOk,
      OncePulsed;
    var u := Act(c, e, env);
    if e.StopSettled? {
      SettleFrame(c, e.result, e.leaseLive);
    } else {
      OthersAreFramed(c, e, env);
    }
    SettleFrame(u, FrameResolved, true);
  }

  /** A controller closes with exactly those events that can be told to do so beforehand. */
  lemma ClosesExactlyWhen(c: Controller, e: Event, w: World)
    requires Inv(c) && !c.phase.Closed?
    ensures Step(c, e, w).phase.Closed? <==> ClosesNow(c, e, w.stop)
  {
    hide Inv, Act, DoTeardown, DoStopSettled;
    TeardownSees(c, e, w.stop);
    TeardownDecides(BeforeTeardown(Act(c, e, w.stop)), w.teardown);
  }

  /**
   * The tokens are given back exactly if exclusivity is gone, the barrier's release does not throw and the outcome the
   * teardown goes by is safe.
   */
  lemma TokensReleasedExactlyWhen(c: Controller, e: Event, w: World)
    requires Inv(c) && ClosesNow(c, e, w.stop)
    ensures
      var seen := OutcomeSeen(c, e, w.stop);
      Step(c, e, w).telemetryReleased <==>
        && ExclusivityGone(w.teardown.release) && !w.teardown.barrierThrows
        && seen.Some? && !Unsafe(c.pulseMayHaveReachedFc, seen.value)
  {
    hide Act, DoTeardown, DoStopSettled, OutcomeSeen, PulseOk, OncePulsed, SealOk;
    TeardownSees(c, e, w.stop);
    TeardownDecides(BeforeTeardown(Act(c, e, w.stop)), w.teardown);
  }

  /**
   * A sealed session that closes gives the tokens back exactly if exclusivity is gone, the barrier's release does not
   * throw, its seal came from an unexpected exception and the outcome on record from before it is a safe one.
   */
  lemma SealedReleasesExactlyWhen(c: Controller, e: Event, w: World)
    requires Inv(c) && c.stopSealed && ClosesNow(c, e, w.stop)
    ensures Step(c, e, w).telemetryReleased <==>
              && ExclusivityGone(w.teardown.release) && !w.teardown.barrierThrows
              && c.stopThrew && c.lastStopOutcome.Some? && !Unsafe(c.pulseMayHaveReachedFc, c.lastStopOutcome.value)
  {
    hide PulseOk, OncePulsed, Step, StartedStop;
    TokensReleasedExactlyWhen(c, e, w);
  }

  // ---------------------------------------------------------------- the machine a teardown leaves behind

  /**
   * A closing controller ends in Pulsing exactly if it was there, its stop was acknowledged and nothing went
   * wrong after it: a plain close tells the reducer neither of the stop nor of its acknowledgement.
   */
  lemma PulsingAtCloseExactlyWhen(c: Controller, result: FrameResult, leaseLive: bool, w: World)
    requires Inv(c) && c.phase.Closing?
    ensures Step(c, StopSettled(result, leaseLive), w).machine.PulsingState? <==>
              && c.machine.PulsingState?
              && result.FrameResolved? && leaseLive && !c.stopInFlight.value.ambiguous
              && ExclusivityGone(w.teardown.release) && !w.teardown.threw && !w.teardown.barrierThrows
  {
    hide Sealed, DoTeardown;
    if result.UnexpectedException? {
      TeardownFromPulsing(SettledByException(c), w.teardown);
    } else {
      var o := FrameOutcome(c.stopInFlight.value.ambiguous, result, leaseLive);
      PulsingUnlessSealed(c.(stopInFlight := None, lastStopOutcome := Some(o)), o);
      TeardownFromPulsing(SettledWith(c, o), w.teardown);
    }
  }

  lemma PulsingUnlessSealed(c: Controller, o: StopOutcome)
    requires o.FailedStop? || o.Acknowledged?
    ensures var d := Sealed(c, o);
            && (d.machine.PulsingState? <==> c.machine.PulsingState? && o.Acknowledged?)
            && d.teardown == c.teardown && d.stopInFlight == c.stopInFlight
  {
    hide S.MotorTestTransition;
    MachineMoves(c.(stopSealed := true), S.TouchReleased, S.StopFailed);
  }

  lemma TeardownFromPulsing(d: Controller, t: TeardownEnv)
    requires d.teardown.Resumable?
    requires d.teardown.stopOutcome.Some? ==>
               d.teardown.stopOutcome.value.FailedStop? || d.teardown.stopOutcome.value.Acknowledged?
    ensures DoTeardown(d, t).machine.PulsingState? <==>
              && d.machine.PulsingState? && d.teardown.stopOutcome == Some(Acknowledged)
              && ExclusivityGone(t.release) && !t.threw && !t.barrierThrows
  {
    hide S.MotorTestTransition, ExclusivityGone;
    forall u: Controller, reason: S.FaultReason ensures Apply(u, S.FaultRaised(reason)).machine.FaultState? {
      MachineMoves(u, S.TouchReleased, reason);
    }
  }

  /** A pulse, a plain close and an acknowledgement: closed, telemetry resumed, machine still Pulsing. */
  lemma ClosedWhilePulsing(a: S.Authority)
    ensures
      var c := Run(ReadySession(a), InLiveWorld([PulseMotor(1, PERFECT_GATES), Close,
                                                 StopSettled(FrameResolved, true)]));
      c.phase.Closed? && c.telemetryReleased && c.machine.PulsingState?
  {
    hide Step, Run;
    var events := InLiveWorld([PulseMotor(1, PERFECT_GATES), Close, StopSettled(FrameResolved, true)]);
    RunNothing(ReadySession(a));
    assert events[..0] == [] && events[..3] == events;
    RunOne(ReadySession(a), events, 0);
    PulseAccepted(a);
    RunOne(ReadySession(a), events, 1);
    ClosingAPulse(a);
    RunOne(ReadySession(a), events, 2);
  }

  lemma ClosingAPulse(a: S.Authority)
    ensures
      var c := Step(Step(Pulsing(a), Close, LIVE), StopSettled(FrameResolved, true), LIVE);
      c.phase.Closed? && c.telemetryReleased && c.machine.PulsingState?
  {
  }

  lemma TeardownDecides(d: Controller, t: TeardownEnv)
    requires !d.phase.Closed?
    ensures
      var f := DoTeardown(d, t);
      && (f.phase.Closed? <==> d.teardown.Resumable?)
      && f.stopThrew == d.stopThrew && f.lastStopOutcome == d.lastStopOutcome
      && f.pulseMayHaveReachedFc == d.pulseMayHaveReachedFc
      && (f.phase.Closed? ==>
            (f.telemetryReleased <==>
               ExclusivityGone(t.release) && !t.barrierThrows && !TeardownStopUnsafe(d, d.teardown.stopOutcome)))
  {
    hide S.MotorTestTransition;
  }

  /** What a stop request, a pulse request, its watchdog and its answer leave alone. */
  ghost predicate Framed(c: Controller, t: Controller) {
    && t.teardown == c.teardown && t.phase == c.phase && t.closing == c.closing
    && (c.activationBarred ==> t.activationBarred) && (c.pulseMayHaveReachedFc ==> t.pulseMayHaveReachedFc)
    && (c.stopInFlight.Some? ==>
          && t.stopInFlight == c.stopInFlight && t.lastStopOutcome == c.lastStopOutcome
          && t.stopCommands == c.stopCommands && t.stopEpisodeId == c.stopEpisodeId)
  }

  lemma ExecuteFramed(c: Controller, env: StopEnv)
    ensures Framed(c, ExecuteStopVector(c, env)) && ExecuteStopVector(c, env).activationBarred == c.activationBarred
  {
    hide StartedStop;
  }

  /** Ending an attempt and telling the machine touch none of it. */
  lemma EndedFramed(c: Controller, o: PulseOutcome, kind: S.EventKind, barred: bool)
    ensures Framed(c, Apply(EndPulseAttempt(c.(activationBarred := c.activationBarred || barred, watchdog := None), o),
                            kind))
  {
    hide S.MotorTestTransition;
  }

  lemma FramedTransitive(c: Controller, t: Controller, u: Controller)
    requires Framed(c, t) && Framed(t, u)
    ensures Framed(c, u)
  {
  }

  lemma RequestStopFramed(c: Controller, trigger: S.StopReason, env: StopEnv)
    ensures Framed(c, RequestStop(c, trigger, env))
  {
    hide S.MotorTestTransition, ExecuteStopVector, EndPulseAttempt, Apply, Framed;
    if c.phase.Closed? {
      assert Framed(c, c) by { FramedSame(c); }
    } else {
      var t := Apply(EndPulseAttempt(Disarmed(c, trigger), StopDominated), S.StopTriggered(trigger));
      EndedFramed(c, StopDominated, S.StopTriggered(trigger), S.Locking(trigger));
      ExecuteFramed(t, env);
      FramedTransitive(c, t, ExecuteStopVector(t, env));
    }
  }

  lemma FramedSame(c: Controller)
    ensures Framed(c, c)
  {
  }

  lemma FailPulseFramed(c: Controller, o: PulseOutcome, fault: S.FaultReason, env: StopEnv)
    ensures Framed(c, FailPulseClosed(c, o, fault, env))
  {
    hide S.MotorTestTransition, RequestStop;
    RequestStopFramed(EndPulseAttempt(c, o), S.StopButtonPressed, env);
  }

  lemma PulseFramed(c: Controller, motorNumber: int, g: Gates, env: StopEnv)
    ensures Framed(c, DoPulse(c, motorNumber, g, env))
  {
    hide S.MotorTestTransition, RequestStop, PulseVerdictFor;
    RequestStopFramed(c, S.MotorSelectionChanged, env);
  }

  lemma WatchdogFramed(c: Controller, env: StopEnv)
    ensures Framed(c, DoWatchdog(c, env))
  {
    hide S.MotorTestTransition, RequestStop;
    RequestStopFramed(c.(watchdog := None), S.PulseDeadlineElapsed, env);
  }

  lemma AnswerFramed(c: Controller, attempt: AttemptId, ok: bool, leaseLive: bool, env: StopEnv)
    ensures Framed(c, DoPulseSettled(c, attempt, ok, leaseLive, env))
  {
    hide S.MotorTestTransition, FailPulseClosed;
    FailPulseFramed(c, RequestFailed, S.WriteOutcomeUnknown, env);
    FailPulseFramed(c, AuthorityChanged, S.SessionChanged, env);
  }

  /** Only a close, a lost session or the end of the awaited stop moves the teardown. */
  lemma OthersAreFramed(c: Controller, e: Event, env: StopEnv)
    requires !e.Close? && !e.SessionInvalidated? && !e.StopSettled?
    ensures Framed(c, Act(c, e, env))
  {
    hide Framed, DoPulse, RequestStop, DoWatchdog, DoPulseSettled;
    match e {
      case PulseMotor(motorNumber, gates) => PulseFramed(c, motorNumber, gates, env);
      case StopRequested(trigger) => RequestStopFramed(c, trigger, env);
      case WatchdogFired => WatchdogFramed(c, env);
      case PulseSettled(attempt, ok, leaseLive) => AnswerFramed(c, attempt, ok, leaseLive, env);
    }
  }

  lemma SealedFrame(c: Controller, o: StopOutcome)
    ensures var d := Sealed(c, o);
            d == c.(stopSealed := d.stopSealed, machine := d.machine)
  {
    hide S.MotorTestTransition, Unsafe;
  }

  /** Nothing of the bar, the phase, the pulses or the commands moves when a stop settles. */
  ghost predicate SameCourse(c: Controller, d: Controller) {
    && d.activationBarred == c.activationBarred && d.stopCommands == c.stopCommands
    && d.stopEpisodeId == c.stopEpisodeId
    && d.phase == c.phase && d.pulseAttemptCounter == c.pulseAttemptCounter
    && d.pulseAttempt == c.pulseAttempt && d.pulseMayHaveReachedFc == c.pulseMayHaveReachedFc
    && (c.teardown.NotStarted? ==> d.teardown.NotStarted?)
  }

  lemma SettledWithFrame(c: Controller, o: StopOutcome)
    ensures SameCourse(c, SettledWith(c, o))
  {
    hide Sealed;
    SealedFrame(c.(stopInFlight := None, lastStopOutcome := Some(o)), o);
  }

  lemma SettledByExceptionFrame(c: Controller)
    ensures SameCourse(c, SettledByException(c))
  {
  }

  lemma SettleFrame(c: Controller, result: FrameResult, leaseLive: bool)
    ensures SameCourse(c, DoStopSettled(c, result, leaseLive))
  {
    hide SettledWith, SettledByException, FrameOutcome;
    if c.stopInFlight.Some? {
      match c.stopInFlight.value {
        case Decided(o) => SettledWithFrame(c, o);
        case Dispatched(ambiguous) =>
          SettledByExceptionFrame(c);
          SettledWithFrame(c, FrameOutcome(ambiguous, result, leaseLive));
      }
    }
  }

  lemma BeginTeardownFrame(c: Controller, env: StopEnv)
    ensures var b := BeginTeardown(c, env);
            && b.activationBarred == c.activationBarred && b.phase.Closing?
            && (c.pulseMayHaveReachedFc ==> b.pulseMayHaveReachedFc)
            && (c.stopInFlight.Some? ==>
                  && b.stopInFlight == c.stopInFlight && b.lastStopOutcome == c.lastStopOutcome
                  && b.stopCommands == c.stopCommands && b.stopEpisodeId == c.stopEpisodeId)
  {
    hide ExecuteStopVector;
    ExecuteFramed(EndPulseAttempt(c.(closing := true, watchdog := None), StopDominated).(phase := Closing), env);
  }

  lemma DrainFrame(c: Controller, t: TeardownEnv)
    ensures var d := Drain(c, t);
            d.activationBarred == c.activationBarred && d.stopCommands == c.stopCommands
            && d.stopEpisodeId == c.stopEpisodeId
  {
    hide DoTeardown, DoStopSettled;
    SettleFrame(c, FrameResolved, true);
    var d := if c.stopInFlight.Some? && c.stopInFlight.value.Decided? then DoStopSettled(c, FrameResolved, true) else c;
    TeardownFrame(d, t);
    assert DoTeardown(d, t).activationBarred == d.activationBarred by { TeardownKeepsBar(d, t); }
  }

  lemma TeardownKeepsBar(d: Controller, t: TeardownEnv)
    ensures DoTeardown(d, t).activationBarred == d.activationBarred && DoTeardown(d, t).stopEpisodeId == d.stopEpisodeId
  {
    hide S.MotorTestTransition;
  }

  // ---------------------------------------------------------------- a sealed session that still resumes telemetry

  const PERFECT_GATES := Gates(true, true, true, Supported, true, true)
  const LIVE := World(StopEnv(Supported, true, false), TeardownEnv(Released, false, false))

  /** A pulse, an acknowledged stop, a second stop that throws, and a close. */
  const SEALED_BY_EXCEPTION: seq<Event> :=
    [PulseMotor(1, PERFECT_GATES), StopRequested(S.TouchReleased), StopSettled(FrameResolved, true),
     StopRequested(S.TouchReleased), StopSettled(UnexpectedException, true), Close]

  function InLiveWorld(events: seq<Event>): seq<(Event, World)> {
    seq(|events|, i requires 0 <= i < |events| => (events[i], LIVE))
  }

  function Pulsing(a: S.Authority): Controller {
    ReadySession(a).(machine := S.PulsingState(a, true, false), pulseAttempt := Some(1), pulseAttemptCounter := 1,
                     pulse := Pulse(1, 1, false, None), watchdog := Some(1), pulseMayHaveReachedFc := true)
  }

  function StoppingOnce(a: S.Authority): Controller {
    Controller(Active, false, true, S.StoppingState(a, S.Stopping(S.TouchReleased, true, S.ToReady, a, false)), None, 1,
               Pulse(1, 1, false, Some(StopDominated)), None, true, false, Some(Dispatched(false)), 1, Some(1), false,
               false,
               None, 1, NotStarted, false)
  }

  function StoppedOnce(a: S.Authority): Controller {
    StoppingOnce(a).(stopInFlight := None, lastStopOutcome := Some(Acknowledged))
  }

  function StoppingTwice(a: S.Authority): Controller {
    StoppedOnce(a).(stopEpisodeId := 2, stopInFlight := Some(Dispatched(false)), stopCommands := 2)
  }

  function SealedSession(a: S.Authority): Controller {
    StoppingTwice(a).(stopInFlight := None, stopSealed := true, stopThrew := true)
  }

  function ClosedSession(a: S.Authority): Controller {
    SealedSession(a).(closing := true, telemetryReleased := true, phase := Closed, teardown := Done)
  }

  lemma PulseAccepted(a: S.Authority)
    ensures Step(ReadySession(a), SEALED_BY_EXCEPTION[0], LIVE) == Pulsing(a)
  {
    hide EvaluateActivation;
    AcceptedExactlyWhen(ReadySession(a), 1, PERFECT_GATES);
  }

  lemma FirstStop(a: S.Authority)
    ensures Step(Pulsing(a), SEALED_BY_EXCEPTION[1], LIVE) == StoppingOnce(a)
  {
  }

  lemma FirstStopAcknowledged(a: S.Authority)
    ensures Step(StoppingOnce(a), SEALED_BY_EXCEPTION[2], LIVE) == StoppedOnce(a)
  {
  }

  lemma SecondStop(a: S.Authority)
    ensures Step(StoppedOnce(a), SEALED_BY_EXCEPTION[3], LIVE) == StoppingTwice(a)
  {
  }

  lemma SecondStopThrows(a: S.Authority)
    ensures Step(StoppingTwice(a), SEALED_BY_EXCEPTION[4], LIVE) == SealedSession(a)
  {
  }

  lemma ClosedAtLast(a: S.Authority)
    ensures Step(SealedSession(a), SEALED_BY_EXCEPTION[5], LIVE) == ClosedSession(a)
  {
  }

  /**
   * A seal set by an unexpected exception replays the outcome of the stop before it: if that one was
   * acknowledged, the teardown takes the sealed session for a stopped one and gives the tokens back.
   */
  lemma SealedByExceptionStillResumes(authority: S.Authority)
    ensures
      var c := Run(ReadySession(authority), InLiveWorld(SEALED_BY_EXCEPTION));
      c.stopSealed && c.stopThrew && c.telemetryReleased && c.machine.StoppingState?
  {
    hide Step, Run;
    var c0 := ReadySession(authority);
    var events := InLiveWorld(SEALED_BY_EXCEPTION);
    assert events[..0] == [];
    RunNothing(c0);
    for k := 0 to 6
      invariant Run(c0, events[..k]) == StateAt(authority, k)
    {
      hide StateAt;
      RunOne(c0, events, k);
      StateStep(authority, k);
    }
    assert events[..6] == events;
  }

  lemma RunNothing(c: Controller)
    ensures Run(c, []) == c
  {
  }

  function StateAt(a: S.Authority, k: nat): Controller {
    match k
    case 0 => ReadySession(a)
    case 1 => Pulsing(a)
    case 2 => StoppingOnce(a)
    case 3 => StoppedOnce(a)
    case 4 => StoppingTwice(a)
    case 5 => SealedSession(a)
    case _ => ClosedSession(a)
  }

  lemma StateStep(a: S.Authority, k: nat)
    requires k < 6
    ensures Step(StateAt(a, k), SEALED_BY_EXCEPTION[k], LIVE) == StateAt(a, k + 1)
  {
    hide Step;
    match k {
      case 0 => PulseAccepted(a);
      case 1 => FirstStop(a);
      case 2 => FirstStopAcknowledged(a);
      case 3 => SecondStop(a);
      case 4 => SecondStopThrows(a);
      case _ => ClosedAtLast(a);
    }
  }

  lemma RunOne(c: Controller, events: seq<(Event, World)>, k: nat)
    requires k < |events|
    ensures Run(c, events[..k + 1]) == Step(Run(c, events[..k]), events[k].0, events[k].1)
  {
    assert events[..k + 1][..k] == events[..k];
  }

  // ---------------------------------------------------------------- safety events and joined stops

  /** A locking safety event bars activation for the rest of the session, even if nothing was live. */
  lemma {:induction false} BarredStaysBarred(c: Controller, events: seq<(Event, World)>, motorNumber: int, gates: Gates)
    requires c.activationBarred
    ensures Run(c, events).activationBarred && !PulseVerdictFor(Run(c, events), motorNumber, gates).Accepted?
    decreases |events|
  {
    hide Step, PulseVerdictFor;
    if events != [] {
      var last := |events| - 1;
      BarredStaysBarred(c, events[..last], motorNumber, gates);
      BarredStep(Run(c, events[..last]), events[last].0, events[last].1);
    }
    AcceptedExactlyWhen(Run(c, events), motorNumber, gates);
  }

  lemma BarredStep(c: Controller, e: Event, w: World)
    requires c.activationBarred
    ensures Step(c, e, w).activationBarred
  {
    hide S.MotorTestTransition, DoPulse, RequestStop, DoWatchdog, DoPulseSettled, DoStopSettled, BeginTeardown, Drain;
    EveryActFrame(c, e, w.stop);
    DrainFrame(Act(c, e, w.stop), w.teardown);
  }

  /** No event lifts the bar, and none touches a running stop but its own end. */
  lemma EveryActFrame(c: Controller, e: Event, env: StopEnv)
    ensures var t := Act(c, e, env);
            && (c.activationBarred ==> t.activationBarred)
            && (c.stopInFlight.Some? ==> t.stopCommands == c.stopCommands && t.stopEpisodeId == c.stopEpisodeId)
  {
    hide S.MotorTestTransition, DoPulse, RequestStop, DoWatchdog, DoPulseSettled, DoStopSettled, BeginTeardown;
    if e.StopSettled? {
      SettleFrame(c, e.result, e.leaseLive);
    } else if e.Close? {
      BeginTeardownFrame(c, env);
    } else if e.SessionInvalidated? {
      BeginTeardownFrame(Apply(c.(closing := true), S.FaultRaised(e.reason)).(ready := false), env);
    } else {
      OthersAreFramed(c, e, env);
    }
  }

  /** While a stop is running, no event sends another one or opens another episode. */
  lemma RunningStopIsJoined(c: Controller, e: Event, w: World)
    requires Inv(c) && c.stopInFlight.Some?
    ensures Step(c, e, w).stopCommands == c.stopCommands && Step(c, e, w).stopEpisodeId == c.stopEpisodeId
  {
    hide Act, Drain, Inv;
    EveryActFrame(c, e, w.stop);
    DrainFrame(Act(c, e, w.stop), w.teardown);
  }

  lemma ClosedStep(c: Controller, e: Event, w: World)
    requires Inv(c) && c.phase.Closed?
    ensures Step(c, e, w) == c
  {
    hide S.MotorTestTransition;
  }

  /** A closed controller is inert for good. */
  lemma {:induction false} ClosedIsFinal(c: Controller, events: seq<(Event, World)>)
    requires Inv(c) && c.phase.Closed?
    ensures Run(c, events) == c
    decreases |events|
  {
    hide Inv, Step;
    if events != [] {
      var last := |events| - 1;
      ClosedIsFinal(c, events[..last]);
      ClosedStep(c, events[last].0, events[last].1);
    }
  }
}
