/** When the reducer enters each of its states and asks for each of its effects, as equivalences over every event. */
module MotorTestStateMachineBehaviour {
  import opened MotorTestStateMachine

  function Next(s: State, e: Event): State {
    MotorTestTransition(s, e).state
  }

  predicate Asks(s: State, e: Event, effect: Effect) {
    effect in MotorTestTransition(s, e).effects
  }

  /** The eight reasons that lock, by name; the other four lead back to Ready. */
  lemma LockingReasons(reason: StopReason)
    ensures Locking(reason) <==>
            || reason.NavigationBlurred? || reason.AndroidBack? || reason.AndroidPredictiveBack?
            || reason.AppStateBackgrounded? || reason.ArmedStateDetected? || reason.ArmingRestrictionRemoved?
            || reason.BatteryChanged? || reason.BatteryBecameUnsafe?
    ensures !Locking(reason) <==>
            || reason.TouchReleased? || reason.StopButtonPressed? || reason.MotorSelectionChanged?
            || reason.PulseDeadlineElapsed?
  {
  }

  /** An event of another authority is ignored. */
  lemma ForeignIsIgnored(s: State, e: Event)
    requires e.authority != s.authority
    ensures MotorTestTransition(s, e) == Transition(s, [])
  {
  }

  /** How the idle states are entered. */
  lemma IdleExactlyWhen(s: State, e: Event)
    ensures Next(s, e).CheckingState? && !s.CheckingState? <==>
            s.LockedState? && e == Event(s.authority, RecheckRequested)
    ensures Next(s, e).ReadyState? && !s.ReadyState? <==>
            || (s.CheckingState? && e == Event(s.authority, GatesPassed))
            || (s.StoppingState? && e == Event(s.authority, StopAcknowledged)
                && s.stopping.requiredDisposition.ToReady?)
    ensures Next(s, e).LockedState? && !s.LockedState? <==>
            || ((s.CheckingState? || s.ReadyState?) && e == Event(s.authority, GatesFailed))
            || (s.StoppingState? && e == Event(s.authority, StopAcknowledged)
                && s.stopping.requiredDisposition.ToLocked?)
    ensures s.CheckingState? && !Next(s, e).CheckingState? ==>
              e.authority == s.authority && (e.kind.GatesPassed? || e.kind.GatesFailed? || e.kind.FaultRaised?)
    ensures s.ReadyState? && !Next(s, e).ReadyState? ==>
              e.authority == s.authority && (e.kind.ActivationAccepted? || e.kind.GatesFailed? || e.kind.FaultRaised?)
  {
  }

  /** How the live states are entered, and with what. */
  lemma LiveExactlyWhen(s: State, e: Event)
    ensures Next(s, e).StartingState? && !s.StartingState? <==>
            s.ReadyState? && e == Event(s.authority, ActivationAccepted)
    ensures Next(s, e).PulsingState? && !s.PulsingState? <==>
            s.StartingState? && e == Event(s.authority, StartWriteCalled)
    ensures s.StartingState? && Next(s, e).PulsingState? ==> Next(s, e) == PulsingState(s.authority, true, false)
    ensures s.PulsingState? && Next(s, e).PulsingState? ==>
              Next(s, e) == s.(startAcknowledged := s.startAcknowledged || e == Event(s.authority, StartAcknowledged))
    ensures Next(s, e).StoppingState? && !s.StoppingState? <==>
            (s.StartingState? || s.PulsingState?) && e.authority == s.authority && e.kind.StopTriggered?
    ensures Next(s, e).StoppingState? && !s.StoppingState? ==>
              Next(s, e).stopping == Stopping(e.kind.stop, true, if Locking(e.kind.stop) then ToLocked else ToReady,
                                              s.authority,
                                              s.PulsingState? && s.startAcknowledged)
  {
  }

  /** While stopping, the reason stays, locking triggers accumulate, and nothing but its end leaves it. */
  lemma StoppingAccumulates(s: State, e: Event)
    requires s.StoppingState? && Next(s, e).StoppingState?
    ensures
      var a, b := s.stopping, Next(s, e).stopping;
      && b.stopReason == a.stopReason && b.authority == a.authority
      && (b.requiredDisposition == if e.authority == s.authority && e.kind.StopTriggered? && Locking(e.kind.stop)
                                      && a.requiredDisposition.ToReady?
                                   then ToLocked else a.requiredDisposition)
      && (b.startAcknowledged <==> a.startAcknowledged || e == Event(s.authority, StartAcknowledged))
      && !(e.authority == s.authority && (e.kind.FaultRaised? || e.kind.StopAcknowledged?))
  {
  }

  /** How a fault is entered, with what, and that it is never left. */
  lemma FaultExactlyWhen(s: State, e: Event)
    requires s.StoppingState? ==> !s.stopping.requiredDisposition.ToFault?
    ensures Next(s, e).FaultState? <==> s.FaultState? || (e.authority == s.authority && e.kind.FaultRaised?)
    ensures s.FaultState? ==> Next(s, e) == s
    ensures !s.FaultState? && e.authority == s.authority && e.kind.FaultRaised? ==>
              Next(s, e) == FaultState(s.authority, e.kind.fault,
                                       s.StartingState? || s.PulsingState?
                                       || (s.StoppingState? && s.stopping.startMayHaveReachedFc))
  {
  }

  /** When each effect is asked for. */
  lemma EffectsExactlyWhen(s: State, e: Event)
    requires s.StoppingState? ==> !s.stopping.requiredDisposition.ToFault?
    ensures Asks(s, e, SubmitStartIntent) <==> s.ReadyState? && e == Event(s.authority, ActivationAccepted)
    ensures Asks(s, e, ArmPulseDeadline) <==> s.StartingState? && e == Event(s.authority, StartWriteCalled)
    ensures Asks(s, e, SubmitStopIntent) <==>
            e.authority == s.authority
            && (|| (e.kind.StopTriggered? && (s.StartingState? || s.PulsingState? || s.StoppingState?
                                              || (s.FaultState? && s.startMayHaveReachedFc)))
                || (s.StoppingState? && (e.kind.StartAcknowledged? || e.kind.StartWriteCalled?)))
    ensures Asks(s, e, ShowStopUnconfirmedWarning) <==>
            e.authority == s.authority && e.kind.FaultRaised?
            && (s.StartingState? || s.PulsingState? || (s.StoppingState? && s.stopping.startMayHaveReachedFc))
  {
  }
}
