/** What each event of the controller does to the pulse, the stop and the machine, stated on the state before it. */
module MotorTestControllerBehaviour {
  import opened MspTypes
  import S = MotorTestStateMachine
  import opened MotorTestControllerModel
  import opened MotorTestControllerTheorems

  /** Neither the attempt and its watchdog nor the stops have moved. */
  ghost predicate NothingStopped(c: Controller, t: Controller) {
    && t.pulseAttempt == c.pulseAttempt && t.watchdog == c.watchdog && t.pulseAttemptCounter == c.pulseAttemptCounter
    && t.stopInFlight == c.stopInFlight && t.stopEpisodeId == c.stopEpisodeId && t.stopCommands == c.stopCommands
    && t.stopSealed == c.stopSealed && t.phase == c.phase
  }

  // ---------------------------------------------------------------- the pulse's answer

  lemma NothingToDrain(c: Controller, t: TeardownEnv)
    requires c.stopInFlight.None? && c.teardown.NotStarted?
    ensures Drain(c, t) == c
  {
  }

  /** THE PULSE IS ACKNOWLEDGED: it stays live under its watchdog, on record as acknowledged, and nothing is stopped. */
  lemma AcknowledgedPulseGoesOn(c: Controller, k: AttemptId, w: World)
    requires Inv(c) && c.pulseAttempt == Some(k)
    ensures
      var t := Step(c, PulseSettled(k, true, true), w);
      && NothingStopped(c, t)
      && t.pulse == c.pulse.(acknowledged := true, outcome := Some(PulseAcknowledged))
      && t.machine == S.PulsingState(c.machine.authority, c.machine.pulseDeadlineArmed, true)
  {
    hide OncePulsed, SealOk;
    NothingToDrain(DoPulseSettled(c, k, true, true, w.stop), w.teardown);
  }

  /** A fault raised after a stop trigger is the machine's last word, whatever the reactions add. */
  lemma FaultStays(c: Controller, t: TeardownEnv)
    requires c.machine.FaultState?
    ensures Drain(c, t).machine == c.machine && Drain(c, t).pulse == c.pulse
  {
    hide FrameOutcome, Unsafe;
    FaultedSettle(c);
    FaultedTeardownKeeps(BeforeTeardown(c), t);
  }

  lemma FaultedOutcome(c: Controller, o: StopOutcome)
    requires c.machine.FaultState?
    ensures SettledWith(c, o).machine == c.machine && SettledWith(c, o).pulse == c.pulse
  {
    hide S.MotorTestTransition, Apply, Unsafe;
    var u := c.(stopInFlight := None, lastStopOutcome := Some(o), stopSealed := true);
    FaultMoves(u, S.StopFailed);
    TellingKeepsTheRest(u, S.FaultRaised(S.StopFailed));
  }

  lemma FaultedSettle(c: Controller)
    requires c.machine.FaultState?
    ensures BeforeTeardown(c).machine == c.machine && BeforeTeardown(c).pulse == c.pulse
  {
    hide SettledWith;
    if c.stopInFlight.Some? && c.stopInFlight.value.Decided? {
      FaultedOutcome(c, c.stopInFlight.value.outcome);
    }
  }

  lemma FaultedTeardownKeeps(d: Controller, t: TeardownEnv)
    requires d.machine.FaultState?
    ensures DoTeardown(d, t).machine == d.machine && DoTeardown(d, t).pulse == d.pulse
  {
  }

  /** What a failed pulse leaves in the machine and on its record. */
  lemma FailedPulse(c: Controller, o: PulseOutcome, fault: S.FaultReason, env: StopEnv)
    requires Inv(c) && c.pulseAttempt.Some?
    ensures
      var t := FailPulseClosed(c, o, fault, env);
      && t.machine == S.FaultState(c.machine.authority, fault, true)
      && t.pulse == c.pulse.(outcome := Some(c.pulse.outcome.GetOr(o))) && t.pulseAttempt.None?
  {
    hide OncePulsed, SealOk, PhasesOk, ExecuteStopVector, S.MotorTestTransition, Apply;
    var c1 := Apply(EndPulseAttempt(Disarmed(EndPulseAttempt(c, o), S.StopButtonPressed), StopDominated),
                    S.StopTriggered(S.StopButtonPressed));
    FailedIsStopping(c, o);
    ExecuteKeepsRecord(c1, env);
    var u := RequestStop(EndPulseAttempt(c, o), S.StopButtonPressed, env);
    assert u == ExecuteStopVector(c1, env);
    StoppingFaults(u, fault);
  }

  lemma FailedIsStopping(c: Controller, o: PulseOutcome)
    requires c.pulseAttempt.Some? && c.machine.PulsingState?
    ensures
      var c1 := Apply(EndPulseAttempt(Disarmed(EndPulseAttempt(c, o), S.StopButtonPressed), StopDominated),
                      S.StopTriggered(S.StopButtonPressed));
      && c1.machine.StoppingState? && c1.machine.authority == c.machine.authority
      && c1.machine.stopping.startMayHaveReachedFc
      && c1.pulse == c.pulse.(outcome := Some(c.pulse.outcome.GetOr(o))) && c1.pulseAttempt.None?
      && c1.pulseMayHaveReachedFc == c.pulseMayHaveReachedFc
  {
    hide Apply, S.MotorTestTransition, S.Locking, EndPulseAttempt;
    AttemptEnds(c, o);
    var d := Disarmed(EndPulseAttempt(c, o), S.StopButtonPressed);
    NothingToEnd(d, StopDominated);
    PulsingIsStopped(d, S.StopButtonPressed);
  }

  lemma AttemptEnds(c: Controller, o: PulseOutcome)
    requires c.pulseAttempt.Some?
    ensures
      var e := EndPulseAttempt(c, o);
      && e.pulseAttempt.None? && e.machine == c.machine && e.pulseMayHaveReachedFc == c.pulseMayHaveReachedFc
      && e.pulse == c.pulse.(outcome := Some(c.pulse.outcome.GetOr(o)))
  {
  }

  lemma NothingToEnd(c: Controller, o: PulseOutcome)
    requires c.pulseAttempt.None?
    ensures EndPulseAttempt(c, o) == c
  {
  }

  lemma PulsingIsStopped(c: Controller, trigger: S.StopReason)
    requires c.machine.PulsingState?
    ensures
      Apply(c, S.StopTriggered(trigger))
      == c.(machine := S.StoppingState(c.machine.authority,
                                       S.Stopping(trigger, true, if S.Locking(trigger) then S.ToLocked else S.ToReady,
                                                  c.machine.authority, c.machine.startAcknowledged)))
  {
  }

  lemma StoppingFaults(u: Controller, fault: S.FaultReason)
    requires u.machine.StoppingState? && u.machine.stopping.startMayHaveReachedFc
    ensures Apply(u, S.FaultRaised(fault))
            == u.(machine := S.FaultState(u.machine.authority, fault, true))
  {
  }

  lemma ExecuteKeepsRecord(c: Controller, env: StopEnv)
    ensures
      var t := ExecuteStopVector(c, env);
      && t.machine == c.machine && t.pulse == c.pulse && t.pulseAttempt == c.pulseAttempt
      && t.watchdog == c.watchdog && t.activationBarred == c.activationBarred
  {
    hide StartedStop;
  }

  /** A settlement ends the live pulse exactly if the request failed or the lease is gone, with the fault of each. */
  lemma PulseEndsExactlyWhen(c: Controller, k: AttemptId, ok: bool, leaseLive: bool, w: World)
    requires Inv(c) && c.pulseAttempt == Some(k)
    ensures
      var t := Step(c, PulseSettled(k, ok, leaseLive), w);
      && (t.pulseAttempt.None? <==> !ok || !leaseLive)
      && (!ok ==> t.pulse == c.pulse.(outcome := Some(c.pulse.outcome.GetOr(RequestFailed)))
                  && t.machine == S.FaultState(c.machine.authority, S.WriteOutcomeUnknown, true))
      && (ok && !leaseLive ==> t.pulse == c.pulse.(outcome := Some(c.pulse.outcome.GetOr(AuthorityChanged)))
                               && t.machine == S.FaultState(c.machine.authority, S.SessionChanged, true))
  {
    hide S.MotorTestTransition, Drain, FailPulseClosed, PulseOk, OncePulsed, SealOk;
    var u := Act(c, PulseSettled(k, ok, leaseLive), w.stop);
    if ok && leaseLive {
      AcknowledgedPulseGoesOn(c, k, w);
    } else {
      var o := if !ok then RequestFailed else AuthorityChanged;
      FailedPulse(c, o, if !ok then S.WriteOutcomeUnknown else S.SessionChanged, w.stop);
      FaultStays(u, w.teardown);
      EndedInDrain(u, w.teardown);
    }
  }

  lemma EndedInDrain(u: Controller, t: TeardownEnv)
    ensures Drain(u, t).pulseAttempt == u.pulseAttempt
  {
    hide DoTeardown, DoStopSettled;
    SettleFrame(u, FrameResolved, true);
    TeardownFrame(BeforeTeardown(u), t);
  }

  // ---------------------------------------------------------------- pulse requests

  /** An accepted pulse is live under its own watchdog, with a fresh record and the machine in Pulsing. */
  lemma AcceptedPulseIsLive(c: Controller, motorNumber: int, g: Gates, w: World)
    requires Inv(c) && PulseVerdictFor(c, motorNumber, g).Accepted?
    ensures
      var t := Step(c, PulseMotor(motorNumber, g), w);
      var k := c.pulseAttemptCounter + 1;
      && t.pulseAttempt == Some(k) && t.pulseAttemptCounter == k && t.watchdog == Some(k)
      && t.pulse == Pulse(k, motorNumber, false, None) && t.pulseMayHaveReachedFc
      && t.machine == S.PulsingState(c.machine.authority, true, false)
      && t.stopInFlight.None? && t.stopEpisodeId == c.stopEpisodeId && t.stopCommands == c.stopCommands
      && t.phase.Active? && t.activationBarred == c.activationBarred
  {
    hide OncePulsed, SealOk, EvaluateActivation;
    AcceptedExactlyWhen(c, motorNumber, g);
    NothingToDrain(Activated(c, motorNumber), w.teardown);
  }

  /** The answers that are not an acceptance, in the order they are given; all but a switch leave everything alone. */
  lemma RefusalsInOrder(c: Controller, motorNumber: int, g: Gates, w: World)
    requires Inv(c)
    ensures PulseVerdictFor(c, motorNumber, g).ControllerClosed? <==> !c.phase.Active? || c.closing
    ensures c.phase.Active? && !c.closing ==>
              (PulseVerdictFor(c, motorNumber, g).InvalidMotor? <==> motorNumber < 1 || motorNumber > 4)
    ensures c.phase.Active? && !c.closing && 1 <= motorNumber <= 4 ==>
              (PulseVerdictFor(c, motorNumber, g).SwitchRequiresNewActivation? <==> c.pulseAttempt.Some?)
    ensures PulseVerdictFor(c, motorNumber, g).Accepted?
            || PulseVerdictFor(c, motorNumber, g).SwitchRequiresNewActivation?
            || Step(c, PulseMotor(motorNumber, g), w) == c
  {
    hide OncePulsed, EvaluateActivation, S.MotorTestTransition, RequestStop, Activated;
    if c.phase.Active? && !c.closing && c.pulseAttempt.None? { FirstReason(c, g); }
    var v := PulseVerdictFor(c, motorNumber, g);
    if !v.Accepted? && !v.SwitchRequiresNewActivation? {
      RestingController(c, w.teardown);
    }
  }

  lemma FirstReason(c: Controller, g: Gates)
    requires c.phase.Active? && !c.closing && c.pulseAttempt.None?
    ensures EvaluateActivation(c, g) != [] ==>
              var v := MapBlock(EvaluateActivation(c, g)[0]);
              !v.ControllerClosed? && !v.InvalidMotor? && !v.SwitchRequiresNewActivation? && !v.Accepted?
  {
    hide EvaluateActivation;
    var reasons := EvaluateActivation(c, g);
    EveryBlockIsReported(c, g, reasons);
    if reasons != [] {
      assert reasons[0] in reasons;
    }
  }

  lemma RestingController(c: Controller, t: TeardownEnv)
    requires Inv(c)
    ensures Drain(c, t) == c
  {
    hide PulseOk, OncePulsed;
  }

  // ---------------------------------------------------------------- stop requests

  /** What a stop finds, and what becomes of it at once. */
  ghost predicate StopTakesItsCourse(c: Controller, t: Controller, env: StopEnv) {
    if env.scope.Missing? || !env.leaseLive || env.scope.Unsupported? then
      && t.stopInFlight.None? && t.stopCommands == c.stopCommands && t.stopSealed
      && t.lastStopOutcome == Some(if env.scope.Missing? then NotAttempted(NoScope)
                                   else if !env.leaseLive then NotAttempted(AuthorityStale) else ScopeRejected)
    else
      && t.stopInFlight == Some(Dispatched(env.ambiguous)) && t.stopCommands == c.stopCommands + 1
      && !t.stopSealed && t.lastStopOutcome == c.lastStopOutcome
  }

  lemma StartTakesItsCourse(c: Controller, u: Controller, env: StopEnv, t: TeardownEnv)
    requires c.stopInFlight.None? && !c.stopSealed && u.pulseMayHaveReachedFc && u.teardown.NotStarted?
    requires u.stopInFlight.None? && !u.stopSealed && u.stopCommands == c.stopCommands
             && u.lastStopOutcome == c.lastStopOutcome
    ensures
      var d := Drain(ExecuteStopVector(u, env), t);
      && StopTakesItsCourse(c, d, env) && d.pulse == u.pulse && d.pulseAttempt == u.pulseAttempt
      && d.activationBarred == u.activationBarred
      && (d.stopInFlight.Some? ==> d.machine == u.machine)
  {
    hide S.MotorTestTransition;
    var v := ExecuteStopVector(u, env);
    if StartedStop(env).Decided? {
      SettledByDecision(v, StartedStop(env).outcome, t);
    } else {
      assert Drain(v, t) == v;
    }
  }

  lemma SettledByDecision(v: Controller, o: StopOutcome, t: TeardownEnv)
    requires v.stopInFlight == Some(Decided(o)) && v.pulseMayHaveReachedFc && v.teardown.NotStarted? && !o.Acknowledged?
    ensures
      var d := Drain(v, t);
      && d.stopInFlight.None? && d.stopSealed && d.lastStopOutcome == Some(o) && d.stopCommands == v.stopCommands
      && d.pulse == v.pulse && d.pulseAttempt == v.pulseAttempt && d.activationBarred == v.activationBarred
  {
    hide SettledWith;
    DecisionSeals(v, o);
    assert Drain(v, t) == DoTeardown(SettledWith(v, o), t) == SettledWith(v, o);
  }

  lemma DecisionSeals(v: Controller, o: StopOutcome)
    requires v.pulseMayHaveReachedFc && v.teardown.NotStarted? && !o.Acknowledged?
    ensures
      var d := SettledWith(v, o);
      && d.stopInFlight.None? && d.stopSealed && d.lastStopOutcome == Some(o) && d.stopCommands == v.stopCommands
      && d.pulse == v.pulse && d.pulseAttempt == v.pulseAttempt && d.activationBarred == v.activationBarred
      && d.teardown.NotStarted?
  {
    hide S.MotorTestTransition;
  }

  /**
   * A STOP REQUEST ON A LIVE PULSE: the attempt ends dominated, the machine is stopping for that very reason unless
   * the stop could not even be sent, the trigger bars later pulses exactly if it locks, and the stop takes its course.
   */
  lemma StopRequestEndsThePulse(c: Controller, trigger: S.StopReason, w: World)
    requires Inv(c) && c.pulseAttempt.Some?
    ensures
      var t := Step(c, StopRequested(trigger), w);
      && t.pulseAttempt.None? && t.pulse == c.pulse.(outcome := Some(c.pulse.outcome.GetOr(StopDominated)))
      && (t.activationBarred <==> c.activationBarred || S.Locking(trigger))
      && StopTakesItsCourse(c, t, w.stop)
      && (t.stopInFlight.Some? ==>
            t.machine == S.StoppingState(c.machine.authority,
                                         S.Stopping(trigger, true, if S.Locking(trigger) then S.ToLocked else S.ToReady,
                                                    c.machine.authority, c.machine.startAcknowledged)))
  {
    hide OncePulsed, SealOk, StopTakesItsCourse, Drain, ExecuteStopVector, S.MotorTestTransition, Apply, S.Locking;
    var u := Apply(EndPulseAttempt(Disarmed(c, trigger), StopDominated), S.StopTriggered(trigger));
    PulseIsDominated(c, trigger);
    StartTakesItsCourse(c, u, w.stop, w.teardown);
  }

  lemma PulseIsDominated(c: Controller, trigger: S.StopReason)
    requires c.pulseAttempt.Some? && c.machine.PulsingState?
    ensures
      Apply(EndPulseAttempt(Disarmed(c, trigger), StopDominated), S.StopTriggered(trigger))
      == c.(activationBarred := c.activationBarred || S.Locking(trigger), watchdog := None, pulseAttempt := None,
            pulse := c.pulse.(outcome := Some(c.pulse.outcome.GetOr(StopDominated))),
            machine := S.StoppingState(c.machine.authority,
                                       S.Stopping(trigger, true, if S.Locking(trigger) then S.ToLocked else S.ToReady,
                                                  c.machine.authority, c.machine.startAcknowledged)))
  {
    hide Apply, S.MotorTestTransition, S.Locking;
    PulsingIsStopped(EndPulseAttempt(Disarmed(c, trigger), StopDominated), trigger);
  }

  /** After the pulse has ended, and its stop with it, a further request sends a further stop. */
  lemma LaterRequestStopsAgain(c: Controller, trigger: S.StopReason, w: World)
    requires Inv(c) && c.pulseAttempt.None? && c.pulseMayHaveReachedFc && c.phase.Active?
    requires c.stopInFlight.None? && !c.stopSealed
    ensures
      var t := Step(c, StopRequested(trigger), w);
      && t.pulseAttempt.None? && t.pulse == c.pulse && StopTakesItsCourse(c, t, w.stop)
      && (t.activationBarred <==> c.activationBarred || S.Locking(trigger))
  {
    hide PulseOk, OncePulsed, SealOk, StopTakesItsCourse, Drain, ExecuteStopVector, S.MotorTestTransition, S.Locking,
      EndPulseAttempt;
    NothingToEnd(Disarmed(c, trigger), StopDominated);
    StartTakesItsCourse(c, Apply(Disarmed(c, trigger), S.StopTriggered(trigger)), w.stop, w.teardown);
  }

  /** Before any pulse a stop request sends nothing; it only bars, if its reason locks. */
  lemma StopRequestBeforeAnyPulse(c: Controller, trigger: S.StopReason, w: World)
    requires Inv(c) && !c.pulseMayHaveReachedFc && c.phase.Active?
    ensures
      var t := Step(c, StopRequested(trigger), w);
      && t.stopCommands == c.stopCommands && t.stopEpisodeId == c.stopEpisodeId
      && t.machine == c.machine
      && (t.activationBarred <==> c.activationBarred || S.Locking(trigger))
  {
    hide PulseOk, OncePulsed, S.MotorTestTransition;
    var u := RequestStop(c, trigger, w.stop);
    RequestedWithoutPulse(c, trigger, w.stop);
    NoStopBeforeAPulse(u, w.teardown);
  }

  lemma RequestedWithoutPulse(c: Controller, trigger: S.StopReason, env: StopEnv)
    requires Inv(c) && !c.pulseMayHaveReachedFc && c.phase.Active?
    ensures RequestStop(c, trigger, env) ==
            c.(activationBarred := c.activationBarred || S.Locking(trigger), watchdog := None)
  {
    hide SealOk, ExecuteStopVector;
  }

  lemma NoStopBeforeAPulse(u: Controller, t: TeardownEnv)
    requires u.phase.Active? && u.teardown.NotStarted?
    requires u.stopInFlight.Some? ==> u.stopInFlight.value.Dispatched?
    ensures Drain(u, t) == u
  {
  }

  /** The watchdog of a live pulse is a stop request for the elapsed deadline; without one it does nothing. */
  lemma WatchdogStops(c: Controller, w: World)
    requires Inv(c)
    ensures c.pulseAttempt.Some? ==>
              Step(c, WatchdogFired, w) == Step(c, StopRequested(S.PulseDeadlineElapsed), w)
    ensures c.pulseAttempt.None? ==> Step(c, WatchdogFired, w) == c
  {
    hide OncePulsed, SealOk, S.MotorTestTransition, ExecuteStopVector, Drain;
    if c.pulseAttempt.None? {
      RestingController(c, w.teardown);
    } else {
      assert RequestStop(c.(watchdog := None), S.PulseDeadlineElapsed, w.stop)
        == RequestStop(c, S.PulseDeadlineElapsed, w.stop);
    }
  }

  // ---------------------------------------------------------------- how a stop ends

  /** What the frame of a dispatched stop is taken for, and what that does to seal and machine. */
  ghost predicate EndsAs(c: Controller, d: Controller, resolved: bool, leaseLive: bool) {
    var ambiguous := c.stopInFlight.Some? && c.stopInFlight.value == Dispatched(true);
    var acknowledged := resolved && leaseLive && !ambiguous;
    && d.stopInFlight.None? && d.stopThrew == c.stopThrew && d.stopCommands == c.stopCommands
    && d.lastStopOutcome == Some(if !resolved then FailedStop(StopRequestFailed)
                                 else if !leaseLive then FailedStop(StopAuthorityChanged)
                                 else if ambiguous then FailedStop(AttributionAmbiguous)
                                 else Acknowledged)
    && (d.stopSealed <==> !acknowledged)
    && (acknowledged ==> d.machine == c.machine)
    && (!acknowledged ==> d.machine.FaultState? && (!c.machine.FaultState? ==> d.machine.faultReason.StopFailed?))
  }

  lemma DispatchedEnds(c: Controller, resolved: bool, leaseLive: bool)
    requires Inv(c) && c.stopInFlight.Some?
    ensures
      var d := DoStopSettled(c, if resolved then FrameResolved else FrameRejected, leaseLive);
      && EndsAs(c, d, resolved, leaseLive)
      && d.phase == c.phase && d.ready == c.ready && d.pulseMayHaveReachedFc == c.pulseMayHaveReachedFc
      && d.teardown == if c.teardown.AwaitingStop? then Resumable(d.lastStopOutcome) else c.teardown
  {
    hide PulseOk, OncePulsed, PhasesOk, SettledWith;
    assert c.stopInFlight.value.Dispatched?;
    var o := FrameOutcome(c.stopInFlight.value.ambiguous, if resolved then FrameResolved else FrameRejected, leaseLive);
    OutcomeSettles(c, o);
  }

  lemma OutcomeSettles(c: Controller, o: StopOutcome)
    requires !c.stopSealed && (o.Acknowledged? || o.FailedStop?)
    ensures
      var d := SettledWith(c, o);
      && d.stopInFlight.None? && d.stopThrew == c.stopThrew && d.stopCommands == c.stopCommands
      && d.lastStopOutcome == Some(o) && d.phase == c.phase && d.ready == c.ready
      && d.pulseMayHaveReachedFc == c.pulseMayHaveReachedFc
      && (d.stopSealed <==> o.FailedStop?)
      && (o.Acknowledged? ==> d.machine == c.machine)
      && (o.FailedStop? ==> d.machine.FaultState? && (!c.machine.FaultState? ==> d.machine.faultReason.StopFailed?))
      && d.teardown == if c.teardown.AwaitingStop? then Resumable(Some(o)) else c.teardown
  {
    hide S.MotorTestTransition, Apply;
    FaultMoves(c.(stopInFlight := None, lastStopOutcome := Some(o), stopSealed := true), S.StopFailed);
    TellingKeepsTheRest(c.(stopInFlight := None, lastStopOutcome := Some(o), stopSealed := true),
                        S.FaultRaised(S.StopFailed));
  }

  lemma TellingKeepsTheRest(u: Controller, kind: S.EventKind)
    ensures Apply(u, kind) == u.(machine := Apply(u, kind).machine)
  {
    hide S.MotorTestTransition;
  }

  /**
   * HOW A STOP ENDS: acknowledged exactly if its frame came, the lease is still live and the answer is unambiguous;
   * otherwise with the first of these that fails as the reason. After a pulse anything but an acknowledgement seals.
   */
  lemma StopEndsExactly(c: Controller, resolved: bool, leaseLive: bool, w: World)
    requires Inv(c) && c.phase.Active? && c.stopInFlight.Some?
    ensures
      var t := Step(c, StopSettled(if resolved then FrameResolved else FrameRejected, leaseLive), w);
      var ambiguous := c.stopInFlight.value.ambiguous;
      && t.stopInFlight.None? && !t.stopThrew && t.stopCommands == c.stopCommands
      && (t.lastStopOutcome == Some(Acknowledged) <==> resolved && leaseLive && !ambiguous)
      && (!resolved ==> t.lastStopOutcome == Some(FailedStop(StopRequestFailed)))
      && (resolved && !leaseLive ==> t.lastStopOutcome == Some(FailedStop(StopAuthorityChanged)))
      && (resolved && leaseLive && ambiguous ==> t.lastStopOutcome == Some(FailedStop(AttributionAmbiguous)))
      && (t.stopSealed <==> !(resolved && leaseLive && !ambiguous))
      && (resolved && leaseLive && !ambiguous ==> t.machine == c.machine)
      && (t.stopSealed ==> t.machine.FaultState? && (!c.machine.FaultState? ==> t.machine.faultReason.StopFailed?))
  {
    hide PulseOk, OncePulsed, DoStopSettled;
    var result := if resolved then FrameResolved else FrameRejected;
    DispatchedEnds(c, resolved, leaseLive);
    NoStopBeforeAPulse(DoStopSettled(c, result, leaseLive), w.teardown);
  }

  /** A stop that ends in an unexpected exception seals without an outcome of its own. */
  lemma ExceptionSeals(c: Controller, leaseLive: bool, w: World)
    requires Inv(c) && c.phase.Active? && c.stopInFlight.Some?
    ensures
      var t := Step(c, StopSettled(UnexpectedException, leaseLive), w);
      && t.stopInFlight.None? && t.stopThrew && t.stopSealed && t.lastStopOutcome == c.lastStopOutcome
      && t.machine == c.machine
  {
    hide PulseOk, OncePulsed;
  }

  // ---------------------------------------------------------------- closing

  /** A close ends the live pulse and starts or joins the one stop it waits for. */
  lemma CloseStartsTheStop(c: Controller, w: World)
    requires Inv(c) && c.phase.Active? && c.pulseAttempt.Some? && w.stop.scope.Supported? && w.stop.leaseLive
    ensures
      var t := Step(c, Close, w);
      && t.phase.Closing? && t.closing && t.pulseAttempt.None? && t.watchdog.None?
      && t.pulse == c.pulse.(outcome := Some(c.pulse.outcome.GetOr(StopDominated)))
      && t.stopInFlight == Some(Dispatched(w.stop.ambiguous)) && t.stopCommands == c.stopCommands + 1
      && t.machine == c.machine && !t.telemetryReleased
  {
    hide OncePulsed;
  }

  lemma CloseJoinsTheStop(c: Controller, w: World)
    requires Inv(c) && c.phase.Active? && c.stopInFlight.Some?
    ensures
      var t := Step(c, Close, w);
      && t.phase.Closing? && t.stopInFlight == c.stopInFlight && t.stopCommands == c.stopCommands
      && t.stopEpisodeId == c.stopEpisodeId && t.machine == c.machine
  {
    hide OncePulsed;
  }

  predicate CommandMayBeLive(m: S.State) {
    m.PulsingState? || (m.StoppingState? && m.stopping.startMayHaveReachedFc)
  }

  /** A lost session is a close that first faults the machine with its reason. */
  lemma LostSessionFaults(c: Controller, reason: S.FaultReason, w: World)
    requires Inv(c) && c.phase.Active?
    ensures
      var t := Step(c, SessionInvalidated(reason), w);
      && !t.phase.Active? && !t.ready && t.pulseAttempt.None?
      && t.machine == (if c.machine.FaultState? then c.machine
                       else S.FaultState(c.machine.authority, reason, CommandMayBeLive(c.machine)))
  {
    hide Inv, Drain, BeginTeardown, Apply, CommandMayBeLive;
    var u := Apply(c.(closing := true), S.FaultRaised(reason)).(ready := false);
    FaultOfMachine(c, reason);
    LostIsClosed(c, reason, w.stop);
    FaultedCloseEnds(u, w);
  }

  lemma LostIsClosed(c: Controller, reason: S.FaultReason, env: StopEnv)
    requires Inv(c) && c.phase.Active?
    ensures DoSessionInvalidated(c, reason, env)
            == BeginTeardown(Apply(c.(closing := true), S.FaultRaised(reason)).(ready := false), env)
  {
    hide PulseOk, OncePulsed, SealOk, Apply, BeginTeardown;
  }

  lemma FaultedCloseEnds(u: Controller, w: World)
    requires u.machine.FaultState? && !u.ready
    ensures
      var t := Drain(BeginTeardown(u, w.stop), w.teardown);
      !t.phase.Active? && !t.ready && t.pulseAttempt.None? && t.machine == u.machine
  {
    hide Drain, BeginTeardown;
    BegunKeepsMachine(u, w.stop);
    FaultStays(BeginTeardown(u, w.stop), w.teardown);
    EndedInDrain(BeginTeardown(u, w.stop), w.teardown);
    NeverActiveAgain(BeginTeardown(u, w.stop), w.teardown);
  }

  lemma FaultOfMachine(c: Controller, reason: S.FaultReason)
    requires Inv(c)
    ensures Apply(c.(closing := true), S.FaultRaised(reason)).machine ==
            if c.machine.FaultState? then c.machine
            else S.FaultState(c.machine.authority, reason, CommandMayBeLive(c.machine))
  {
    hide SealOk, PhasesOk;
  }

  lemma BegunKeepsMachine(u: Controller, env: StopEnv)
    ensures var b := BeginTeardown(u, env);
            b.machine == u.machine && b.phase.Closing? && b.pulseAttempt.None? && b.ready == u.ready
  {
    hide StartedStop;
  }

  lemma NeverActiveAgain(b: Controller, t: TeardownEnv)
    requires b.phase.Closing? && !b.ready
    ensures !Drain(b, t).phase.Active? && !Drain(b, t).ready
  {
    hide SettledWith, DoTeardown;
    if b.stopInFlight.Some? && b.stopInFlight.value.Decided? {
      SettlingKeepsPhase(b, b.stopInFlight.value.outcome);
    }
    TeardownActivatesNothing(BeforeTeardown(b), t);
  }

  lemma SettlingKeepsPhase(c: Controller, o: StopOutcome)
    ensures SettledWith(c, o).phase == c.phase && SettledWith(c, o).ready == c.ready
  {
    hide S.MotorTestTransition, Unsafe;
  }

  lemma TeardownActivatesNothing(d: Controller, t: TeardownEnv)
    requires !d.phase.Active? && !d.ready
    ensures !DoTeardown(d, t).phase.Active? && !DoTeardown(d, t).ready
  {
    hide S.MotorTestTransition, TeardownStopUnsafe, ExclusivityGone;
  }

  /** A teardown without trouble leaves the machine alone; any other faults it, with the graver reason first. */
  lemma TeardownFaultsExactlyWhen(c: Controller, resolved: bool, leaseLive: bool, w: World)
    requires Inv(c) && c.phase.Closing?
    ensures
      var t := Step(c, StopSettled(if resolved then FrameResolved else FrameRejected, leaseLive), w);
      var acknowledged := resolved && leaseLive && !c.stopInFlight.value.ambiguous;
      var gone := w.teardown.release.Released? || w.teardown.release.AlreadyReleased?
        || w.teardown.release.Invalidated?;
      && t.phase.Closed?
      && (t.telemetryReleased <==> acknowledged && gone && !w.teardown.barrierThrows)
      && (t.machine == c.machine || t.machine.FaultState?)
      && (acknowledged && gone && !w.teardown.threw && !w.teardown.barrierThrows ==>
          t.machine == c.machine && t.ready == c.ready)
      && (!(acknowledged && gone && !w.teardown.threw && !w.teardown.barrierThrows) ==>
          t.machine.FaultState? && !t.ready)
      && (!c.machine.FaultState? && t.machine.FaultState? ==>
            t.machine.faultReason == if acknowledged && gone then S.NativeException else S.StopFailed)
  {
    hide PulseOk, OncePulsed, DoStopSettled, DoTeardown, Apply;
    var result := if resolved then FrameResolved else FrameRejected;
    var d := DoStopSettled(c, result, leaseLive);
    DispatchedEnds(c, resolved, leaseLive);
    TeardownEnds(d, d.lastStopOutcome.value, w.teardown);
    FaultMoves(d, S.StopFailed);
    FaultMoves(d, S.NativeException);
    assert Step(c, StopSettled(result, leaseLive), w) == DoTeardown(d, w.teardown);
  }

  lemma TeardownEnds(d: Controller, o: StopOutcome, t: TeardownEnv)
    requires d.teardown == Resumable(Some(o)) && (o.Acknowledged? || o.FailedStop?)
    ensures
      var f := DoTeardown(d, t);
      var gone := t.release.Released? || t.release.AlreadyReleased? || t.release.Invalidated?;
      && f.phase.Closed?
      && (f.telemetryReleased <==> o.Acknowledged? && gone && !t.barrierThrows)
      && if o.Acknowledged? && gone && !t.threw && !t.barrierThrows then f.machine == d.machine && f.ready == d.ready
         else
           && !f.ready
           && f.machine
              == Apply(d, S.FaultRaised(if o.Acknowledged? && gone then S.NativeException else S.StopFailed)).machine
  {
    hide S.MotorTestTransition;
  }

  lemma FaultMoves(u: Controller, reason: S.FaultReason)
    ensures
      var m := Apply(u, S.FaultRaised(reason)).machine;
      m.FaultState? && (if u.machine.FaultState? then m == u.machine else m.faultReason == reason)
  {
  }
}
