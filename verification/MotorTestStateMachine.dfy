/** The motor-test reducer: a pure transition function, and what it guarantees over every run. */
module MotorTestStateMachine {

  /** Authorities are compared by identity only. */
  type Authority = nat

  datatype Disposition = ToReady | ToLocked | ToFault

  datatype StopReason =
    | TouchReleased
    | StopButtonPressed
    | MotorSelectionChanged
    | PulseDeadlineElapsed
    | NavigationBlurred
    | AndroidBack
    | AndroidPredictiveBack
    | AppStateBackgrounded
    | ArmedStateDetected
    | ArmingRestrictionRemoved
    | BatteryChanged
    | BatteryBecameUnsafe

  datatype FaultReason =
    | MspResponseTimeout
    | TransportWriteTimeout
    | WriteFailed
    | WriteOutcomeUnknown
    | Desynchronized
    | SessionChanged
    | UsbDetached
    | NativeException
    | StopFailed
    | StopTimeout
    | AuthorityMismatch

  datatype Effect = SubmitStartIntent | SubmitStopIntent | ArmPulseDeadline | ShowStopUnconfirmedWarning

  datatype EventKind =
    | GatesPassed
    | GatesFailed
    | RecheckRequested
    | ActivationAccepted
    | StartWriteCalled
    | StartAcknowledged
    | StopTriggered(stop: StopReason)
    | StopAcknowledged
    | FaultRaised(fault: FaultReason)

  datatype Event = Event(authority: Authority, kind: EventKind)

  datatype Stopping = Stopping(
    stopReason: StopReason,
    startMayHaveReachedFc: bool,
    requiredDisposition: Disposition,
    authority: Authority,
    startAcknowledged: bool)

  datatype State =
    | CheckingState(authority: Authority)
    | LockedState(authority: Authority)
    | ReadyState(authority: Authority)
    | StartingState(authority: Authority, startSubmitted: bool)
    | PulsingState(authority: Authority, pulseDeadlineArmed: bool, startAcknowledged: bool)
    | StoppingState(authority: Authority, stopping: Stopping)
    | FaultState(authority: Authority, faultReason: FaultReason, startMayHaveReachedFc: bool)

  datatype Transition = Transition(state: State, effects: seq<Effect>)

  function DispositionForStopReason(reason: StopReason): Disposition {
    match reason
    case TouchReleased => ToReady
    case StopButtonPressed => ToReady
    case MotorSelectionChanged => ToReady
    case PulseDeadlineElapsed => ToReady
    case _ => ToLocked
  }

  predicate Locking(reason: StopReason) {
    DispositionForStopReason(reason).ToLocked?
  }

  /** Every current fault reason warns when a command may be live. */
  predicate WarnsIfLive(reason: FaultReason) {
    true
  }

  function Rank(d: Disposition): nat {
    match d
    case ToReady => 0
    case ToLocked => 1
    case ToFault => 2
  }

  function EscalateDisposition(current: Disposition, next: Disposition): Disposition {
    if Rank(next) > Rank(current) then next else current
  }

  function Stay(state: State): Transition {
    Transition(state, [])
  }

  function Faulted(authority: Authority, reason: FaultReason, startMayHaveReachedFc: bool): Transition {
    Transition(FaultState(authority, reason, startMayHaveReachedFc),
               if startMayHaveReachedFc && WarnsIfLive(reason) then [ShowStopUnconfirmedWarning] else [])
  }

  function BeginStopping(authority: Authority, reason: StopReason, startAcknowledged: bool): Transition {
    Transition(StoppingState(authority,
                             Stopping(reason, true, DispositionForStopReason(reason), authority, startAcknowledged)),
               [SubmitStopIntent])
  }

  function ReduceFault(s: State, kind: EventKind): Transition
    requires s.FaultState?
  {
    if kind.StopTriggered? && s.startMayHaveReachedFc then Transition(s, [SubmitStopIntent]) else Stay(s)
  }

  function ReduceChecking(s: State, kind: EventKind): Transition
    requires s.CheckingState?
  {
    match kind
    case GatesPassed => Stay(ReadyState(s.authority))
    case GatesFailed => Stay(LockedState(s.authority))
    case FaultRaised(reason) => Faulted(s.authority, reason, false)
    case _ => Stay(s)
  }

  function ReduceLocked(s: State, kind: EventKind): Transition
    requires s.LockedState?
  {
    match kind
    case RecheckRequested => Stay(CheckingState(s.authority))
    case FaultRaised(reason) => Faulted(s.authority, reason, false)
    case _ => Stay(s)
  }

  function ReduceReady(s: State, kind: EventKind): Transition
    requires s.ReadyState?
  {
    match kind
    case ActivationAccepted => Transition(StartingState(s.authority, true), [SubmitStartIntent])
    case GatesFailed => Stay(LockedState(s.authority))
    case FaultRaised(reason) => Faulted(s.authority, reason, false)
    case _ => Stay(s)
  }

  function ReduceStarting(s: State, kind: EventKind): Transition
    requires s.StartingState?
  {
    match kind
    case StartWriteCalled => Transition(PulsingState(s.authority, true, false), [ArmPulseDeadline])
    case StopTriggered(reason) => BeginStopping(s.authority, reason, false)
    case FaultRaised(reason) => Faulted(s.authority, reason, true)
    case _ => Stay(s)
  }

  function ReducePulsing(s: State, kind: EventKind): Transition
    requires s.PulsingState?
  {
    match kind
    case StartAcknowledged => Stay(s.(startAcknowledged := true))
    case StopTriggered(reason) => BeginStopping(s.authority, reason, s.startAcknowledged)
    case FaultRaised(reason) => Faulted(s.authority, reason, true)
    case _ => Stay(s)
  }

  function ReduceStopping(s: State, kind: EventKind): Transition
    requires s.StoppingState?
  {
    var current := s.stopping;
    match kind
    case StopTriggered(reason) =>
      var escalated := EscalateDisposition(current.requiredDisposition, DispositionForStopReason(reason));
      Transition(s.(stopping := current.(requiredDisposition := escalated)), [SubmitStopIntent])
    case StartAcknowledged =>
      Transition(s.(stopping := current.(startAcknowledged := true, startMayHaveReachedFc := true)), [SubmitStopIntent])
    case StartWriteCalled =>
      Transition(s.(stopping := current.(startMayHaveReachedFc := true)), [SubmitStopIntent])
    case StopAcknowledged =>
      (match current.requiredDisposition
       case ToReady => Stay(ReadyState(s.authority))
       case ToLocked => Stay(LockedState(s.authority))
       case ToFault => Faulted(s.authority, StopFailed, current.startMayHaveReachedFc))
    case FaultRaised(reason) => Faulted(s.authority, reason, current.startMayHaveReachedFc)
    case _ => Stay(s)
  }

  /** An event of another authority changes nothing; a fault is terminal. */
  function MotorTestTransition(s: State, e: Event): Transition {
    if e.authority != s.authority then Stay(s)
    else
      match s
      case FaultState(_, _, _) => ReduceFault(s, e.kind)
      case CheckingState(_) => ReduceChecking(s, e.kind)
      case LockedState(_) => ReduceLocked(s, e.kind)
      case ReadyState(_) => ReduceReady(s, e.kind)
      case StartingState(_, _) => ReduceStarting(s, e.kind)
      case PulsingState(_, _, _) => ReducePulsing(s, e.kind)
      case StoppingState(_, _) => ReduceStopping(s, e.kind)
  }

  function CreateMotorTestState(authority: Authority): State {
    CheckingState(authority)
  }

  // ---------------------------------------------------------------- runs

  function Run(s: State, events: seq<Event>): State {
    if events == [] then s
    else MotorTestTransition(Run(s, events[..|events| - 1]), events[|events| - 1]).state
  }

  /** Everything a run asks its driver to do, in order. */
  function Effects(s: State, events: seq<Event>): seq<Effect> {
    if events == [] then []
    else
      var front := events[..|events| - 1];
      Effects(s, front) + MotorTestTransition(Run(s, front), events[|events| - 1]).effects
  }

  lemma {:induction false} AuthorityNeverChanges(s: State, events: seq<Event>)
    ensures Run(s, events).authority == s.authority
  {
    if events != [] {
      AuthorityNeverChanges(s, events[..|events| - 1]);
    }
  }

  /** A fault is final: no event changes a field of it, and it asks for nothing but stops it was triggered for. */
  lemma {:induction false} FaultIsFinal(s: State, events: seq<Event>)
    requires s.FaultState?
    ensures Run(s, events) == s
    ensures forall i :: 0 <= i < |Effects(s, events)| ==> Effects(s, events)[i].SubmitStopIntent?
    ensures !s.startMayHaveReachedFc ==> Effects(s, events) == []
  {
    if events != [] {
      FaultIsFinal(s, events[..|events| - 1]);
    }
  }

  // ---------------------------------------------------------------- one activation

  /** The events of a run that the machine's own authority sent. */
  predicate Own(a: Authority, e: Event) {
    e.authority == a
  }

  predicate Triggered(a: Authority, events: seq<Event>) {
    exists i :: 0 <= i < |events| && Own(a, events[i]) && events[i].kind.StopTriggered?
  }

  predicate LockingTriggered(a: Authority, events: seq<Event>) {
    exists i :: 0 <= i < |events| && Own(a, events[i]) && events[i].kind.StopTriggered? && Locking(events[i].kind.stop)
  }

  predicate WriteCalled(a: Authority, events: seq<Event>) {
    exists i :: 0 <= i < |events| && Own(a, events[i]) && events[i].kind.StartWriteCalled?
  }

  /** The reason of the first stop trigger. */
  function FirstTrigger(a: Authority, events: seq<Event>): StopReason
    requires Triggered(a, events)
  {
    if Own(a, events[0]) && events[0].kind.StopTriggered? then events[0].kind.stop else FirstTrigger(a, events[1..])
  }

  /** No own fault, and no own acknowledgement of a stop that some earlier trigger had asked for. */
  predicate StillLive(a: Authority, events: seq<Event>) {
    && (forall i :: 0 <= i < |events| && Own(a, events[i]) ==> !events[i].kind.FaultRaised?)
    && (forall i :: 0 <= i < |events| && Own(a, events[i]) && events[i].kind.StopAcknowledged? ==>
        !Triggered(a, events[..i]))
  }

  lemma TriggeredExtends(a: Authority, front: seq<Event>, e: Event)
    ensures Triggered(a, front + [e]) <==> Triggered(a, front) || (Own(a, e) && e.kind.StopTriggered?)
    ensures LockingTriggered(a, front + [e]) <==>
            LockingTriggered(a, front) || (Own(a, e) && e.kind.StopTriggered? && Locking(e.kind.stop))
    ensures WriteCalled(a, front + [e]) <==> WriteCalled(a, front) || (Own(a, e) && e.kind.StartWriteCalled?)
  {
    var events := front + [e];
    assert events[|front|] == e;
    forall i | 0 <= i < |front| ensures events[i] == front[i] {}
  }

  lemma {:induction false} FirstTriggerStays(a: Authority, front: seq<Event>, e: Event)
    requires Triggered(a, front)
    ensures Triggered(a, front + [e]) && FirstTrigger(a, front + [e]) == FirstTrigger(a, front)
    decreases |front|
  {
    TriggeredExtends(a, front, e);
    if !(Own(a, front[0]) && front[0].kind.StopTriggered?) {
      TriggeredLater(a, front);
      FirstTriggerStays(a, front[1..], e);
      assert (front + [e])[1..] == front[1..] + [e];
    }
  }

  lemma TriggeredLater(a: Authority, events: seq<Event>)
    requires Triggered(a, events) && !(Own(a, events[0]) && events[0].kind.StopTriggered?)
    ensures Triggered(a, events[1..])
  {
    var i :| 0 <= i < |events| && Own(a, events[i]) && events[i].kind.StopTriggered?;
    assert events[1..][i - 1] == events[i];
  }

  lemma {:induction false} FirstTriggerIsLast(a: Authority, front: seq<Event>, e: Event)
    requires !Triggered(a, front) && Own(a, e) && e.kind.StopTriggered?
    ensures Triggered(a, front + [e]) && FirstTrigger(a, front + [e]) == e.kind.stop
    decreases |front|
  {
    TriggeredExtends(a, front, e);
    if front != [] {
      assert !Triggered(a, front[1..]) by {
        forall i | 0 <= i < |front[1..]| ensures !(Own(a, front[1..][i]) && front[1..][i].kind.StopTriggered?) {
          assert front[1..][i] == front[i + 1];
        }
      }
      FirstTriggerIsLast(a, front[1..], e);
      assert (front + [e])[1..] == front[1..] + [e];
    }
  }

  lemma LiveFront(a: Authority, events: seq<Event>)
    requires StillLive(a, events) && events != []
    ensures StillLive(a, events[..|events| - 1])
    ensures var e := events[|events| - 1];
            Own(a, e) ==> !e.kind.FaultRaised? && (e.kind.StopAcknowledged? ==> !Triggered(a, events[..|events| - 1]))
  {
    var front := events[..|events| - 1];
    forall i | 0 <= i < |front| ensures front[..i] == events[..i] {}
  }

  /**
   * Until it ends, an activation is exactly where its triggers and write calls put it: stopping from the first
   * trigger on, required to lock exactly if some trigger was a locking one, else pulsing from the write call on.
   */
  lemma {:induction false} LiveActivation(a: Authority, events: seq<Event>)
    requires StillLive(a, events)
    ensures
      var s := Run(StartingState(a, true), events);
      if Triggered(a, events) then
        && s.StoppingState? && s.authority == a
        && s.stopping.stopReason == FirstTrigger(a, events)
        && s.stopping.startMayHaveReachedFc
        && s.stopping.requiredDisposition == if LockingTriggered(a, events) then ToLocked else ToReady
      else if WriteCalled(a, events) then s.PulsingState? && s.authority == a && s.pulseDeadlineArmed
      else s == StartingState(a, true)
  {
    if events != [] {
      var front, e := events[..|events| - 1], events[|events| - 1];
      assert events == front + [e];
      LiveFront(a, events);
      LiveActivation(a, front);
      TriggeredExtends(a, front, e);
      if Triggered(a, front) {
        FirstTriggerStays(a, front, e);
      } else if Own(a, e) && e.kind.StopTriggered? {
        FirstTriggerIsLast(a, front, e);
        assert !LockingTriggered(a, front);
      }
    }
  }

  /** The only two ways out, and where each leads. */
  lemma ActivationEnds(a: Authority, events: seq<Event>, e: Event)
    requires StillLive(a, events)
    ensures
      var s := Run(StartingState(a, true), events);
      var t := MotorTestTransition(s, e);
      var live := t.state.StartingState? || t.state.PulsingState? || t.state.StoppingState?;
      && (t.state.FaultState? <==> Own(a, e) && e.kind.FaultRaised?)
      && (t.state.FaultState? ==>
            t.state == FaultState(a, e.kind.fault, true) && t.effects == [ShowStopUnconfirmedWarning])
      && (t.state.LockedState? || t.state.ReadyState? <==>
          Own(a, e) && e.kind.StopAcknowledged? && Triggered(a, events))
      && (t.state.LockedState? ==> LockingTriggered(a, events))
      && (t.state.ReadyState? ==> !LockingTriggered(a, events))
      && (live <==> !t.state.FaultState? && !t.state.LockedState? && !t.state.ReadyState?)
  {
    LiveActivation(a, events);
  }

  function Count(effects: seq<Effect>, wanted: Effect): nat {
    if effects == [] then 0 else (if effects[0] == wanted then 1 else 0) + Count(effects[1..], wanted)
  }

  lemma {:induction false} CountConcat(a: seq<Effect>, b: seq<Effect>, wanted: Effect)
    ensures Count(a + b, wanted) == Count(a, wanted) + Count(b, wanted)
  {
    if a == [] {
      assert a + b == b;
    } else {
      assert (a + b)[1..] == a[1..] + b;
      CountConcat(a[1..], b, wanted);
    }
  }

  /** The write call comes while nothing has asked for a stop yet. */
  predicate WriteCalledFirst(a: Authority, events: seq<Event>) {
    exists i :: 0 <= i < |events| && Own(a, events[i]) && events[i].kind.StartWriteCalled? && !Triggered(a, events[..i])
  }

  /** The deadline is armed exactly on the step from Starting to Pulsing. */
  lemma LiveEffects(a: Authority, front: seq<Event>, e: Event)
    requires StillLive(a, front + [e]) && StillLive(a, front)
    ensures
      var effects := MotorTestTransition(Run(StartingState(a, true), front), e).effects;
      && Count(effects, SubmitStartIntent) == 0
      && Count(effects, ArmPulseDeadline)
         == if Own(a, e) && e.kind.StartWriteCalled? && !Triggered(a, front) && !WriteCalled(a, front) then 1 else 0
  {
    hide Triggered, WriteCalled, LockingTriggered, FirstTrigger, StillLive;
    LiveActivation(a, front);
  }

  /** The deadline is armed at most once per start: once if the write call precedes every trigger, else never. */
  lemma {:induction false} DeadlineArmedOnce(a: Authority, events: seq<Event>)
    requires StillLive(a, events)
    ensures Count(Effects(StartingState(a, true), events), ArmPulseDeadline)
            == if WriteCalledFirst(a, events) then 1 else 0
    ensures Count(Effects(StartingState(a, true), events), SubmitStartIntent) == 0
  {
    hide Triggered, WriteCalled, StillLive, MotorTestTransition;
    if events == [] {
      assert !WriteCalledFirst(a, events);
    } else {
      hide WriteCalledFirst;
      var front, e := events[..|events| - 1], events[|events| - 1];
      assert events == front + [e];
      LiveFront(a, events);
      DeadlineArmedOnce(a, front);
      LiveEffects(a, front, e);
      var last := MotorTestTransition(Run(StartingState(a, true), front), e).effects;
      CountConcat(Effects(StartingState(a, true), front), last, ArmPulseDeadline);
      CountConcat(Effects(StartingState(a, true), front), last, SubmitStartIntent);
      WriteFirstExtends(a, front, e);
      WriteFirstOrTriggered(a, front);
    }
  }

  lemma WriteFirstExtends(a: Authority, front: seq<Event>, e: Event)
    ensures WriteCalledFirst(a, front + [e]) <==>
            WriteCalledFirst(a, front) || (Own(a, e) && e.kind.StartWriteCalled? && !Triggered(a, front))
  {
    var events := front + [e];
    assert events[..|front|] == front && events[|front|] == e;
    forall i | 0 <= i < |front| ensures events[i] == front[i] && events[..i] == front[..i] {}
  }

  lemma WriteFirstOrTriggered(a: Authority, events: seq<Event>)
    ensures WriteCalledFirst(a, events) ==> WriteCalled(a, events)
    ensures WriteCalled(a, events) && !Triggered(a, events) ==> WriteCalledFirst(a, events)
  {
    if WriteCalled(a, events) && !Triggered(a, events) {
      var i :| 0 <= i < |events| && Own(a, events[i]) && events[i].kind.StartWriteCalled?;
      assert !Triggered(a, events[..i]);
    }
  }

  /** A start is submitted only by an own activation of a Ready machine, and every live activation stems from one. */
  lemma {:induction false} LiveStemsFromAnActivation(a: Authority, events: seq<Event>) returns (i: nat)
    requires Run(CreateMotorTestState(a), events).StartingState? || Run(CreateMotorTestState(a), events).PulsingState?
             || Run(CreateMotorTestState(a), events).StoppingState?
    ensures i < |events| && events[i] == Event(a, ActivationAccepted)
    ensures Run(CreateMotorTestState(a), events[..i]) == ReadyState(a)
    ensures StillLive(a, events[i + 1..])
    ensures Run(CreateMotorTestState(a), events) == Run(StartingState(a, true), events[i + 1..])
  {
    var start := CreateMotorTestState(a);
    var last := |events| - 1;
    var front, e := events[..last], events[last];
    AuthorityNeverChanges(start, front);
    var s := Run(start, front);
    if s.ReadyState? {
      i := last;
      assert events[i + 1..] == [];
    } else {
      i := LiveStemsFromAnActivation(a, front);
      var tail := front[i + 1..];
      assert front[..i] == events[..i];
      assert events[i + 1..] == tail + [e];
      LiveActivation(a, tail);
      RunExtends(StartingState(a, true), tail, e);
      StillLiveExtends(a, tail, e);
    }
  }

  lemma RunExtends(s: State, front: seq<Event>, e: Event)
    ensures Run(s, front + [e]) == MotorTestTransition(Run(s, front), e).state
  {
    assert (front + [e])[..|front|] == front;
  }

  lemma StillLiveExtends(a: Authority, front: seq<Event>, e: Event)
    requires StillLive(a, front)
    requires Own(a, e) ==> !e.kind.FaultRaised? && (e.kind.StopAcknowledged? ==> !Triggered(a, front))
    ensures StillLive(a, front + [e])
  {
    var events := front + [e];
    assert events[..|front|] == front && events[|front|] == e;
    forall i | 0 <= i < |front| ensures events[i] == front[i] && events[..i] == front[..i] {}
  }

  /** While a command may be live, every own stop trigger asks the driver for a stop again, even in a fault. */
  lemma EveryTriggerAsksForAStop(a: Authority, events: seq<Event>, reason: StopReason)
    requires var s := Run(CreateMotorTestState(a), events);
             s.StartingState? || s.PulsingState? || s.StoppingState? || (s.FaultState? && s.startMayHaveReachedFc)
    ensures MotorTestTransition(Run(CreateMotorTestState(a), events), Event(a, StopTriggered(reason))).effects
            == [SubmitStopIntent]
  {
    AuthorityNeverChanges(CreateMotorTestState(a), events);
  }
}
