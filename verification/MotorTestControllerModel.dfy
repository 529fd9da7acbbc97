/**
 * The pulse, stop and teardown part of the motor-test controller, from a READY session on. What the lease,
 * the safety monitoring, the arming receipt and the motor scope answer is part of each event.
 */
module MotorTestControllerModel {
  import opened MspTypes
  import S = MotorTestStateMachine

  type AttemptId = nat

  const MOTOR_VECTOR_MOTOR_COUNT := 4

  datatype Phase = Active | Closing | Closed

  datatype PulseOutcome = PulseAcknowledged | StopDominated | RequestFailed | AuthorityChanged

  /** The record of the last pulse; attempt 0 means none yet. */
  datatype Pulse = Pulse(attemptId: AttemptId, motorNumber: int, acknowledged: bool, outcome: Option<PulseOutcome>)

  datatype StopOutcome =
    | Acknowledged
    | FailedStop(reason: StopFailure)
    | NotAttempted(why: StopObstacle)
    | ScopeRejected

  datatype StopFailure = StopRequestFailed | StopAuthorityChanged | AttributionAmbiguous

  datatype StopObstacle = NoScope | AuthorityStale

  /** A running stop: on the wire, or decided without ever getting there. */
  datatype StopOperation = Dispatched(ambiguous: bool) | Decided(outcome: StopOutcome)

  /** `stopOutcome` is the outcome the teardown awaits; None stands for an unexpected exception. */
  datatype Teardown = NotStarted | AwaitingStop | Resumable(stopOutcome: Option<StopOutcome>) | Done

  datatype Controller = Controller(
    phase: Phase,
    closing: bool,
    ready: bool,
    machine: S.State,
    pulseAttempt: Option<AttemptId>,
    pulseAttemptCounter: AttemptId,
    pulse: Pulse,
    watchdog: Option<AttemptId>,
    pulseMayHaveReachedFc: bool,
    activationBarred: bool,
    stopInFlight: Option<StopOperation>,
    stopEpisodeId: nat,
    stopEpisodeAttemptId: Option<AttemptId>,
    stopSealed: bool,
    stopThrew: bool,
    lastStopOutcome: Option<StopOutcome>,
    stopCommands: nat,
    teardown: Teardown,
    telemetryReleased: bool)

  /** A session whose setup has just ended READY. */
  function ReadySession(authority: S.Authority): Controller {
    Controller(Active, false, true, S.ReadyState(authority), None, 0, Pulse(0, 0, false, None), None, false, false,
               None, 0, None, false, false, None, 0, NotStarted, false)
  }

  datatype ScopeState = Missing | Unsupported | Supported

  /** What a pulse request finds. */
  datatype Gates = Gates(
    monitoringAccepted: bool,
    barrierHeld: bool,
    receiptCurrent: bool,
    scope: ScopeState,
    leaseLive: bool,
    encodable: bool)

  /** What a stop finds when it is started. */
  datatype StopEnv = StopEnv(scope: ScopeState, leaseLive: bool, ambiguous: bool)

  datatype PulseVerdict =
    | Accepted
    | ControllerClosed
    | InvalidMotor
    | SwitchRequiresNewActivation
    | StopPending
    | NotReady
    | AuthorityStaleRefusal
    | GatesNotSatisfied

  function Apply(c: Controller, kind: S.EventKind): Controller {
    c.(machine := S.MotorTestTransition(c.machine, S.Event(c.machine.authority, kind)).state)
  }

  // ---------------------------------------------------------------- the activation gate

  datatype Block =
    | MonitoringUnavailable
    | ClosedBlock
    | SafetyEventLatched
    | StopSealedBlock
    | StopInProgress
    | PulseAlreadyLive
    | SetupNotReady
    | MachineNotReady
    | BarrierNotHeld
    | RestrictionNotCurrent
    | ScopeUnsupported
    | AuthorityStaleBlock

  predicate Shut(c: Controller) {
    !c.phase.Active? || c.closing
  }

  /** The gate that each reason stands for is shut. */
  predicate Blocks(c: Controller, g: Gates, reason: Block) {
    match reason
    case MonitoringUnavailable => !g.monitoringAccepted
    case ClosedBlock => Shut(c)
    case SafetyEventLatched => c.activationBarred
    case StopSealedBlock => c.stopSealed
    case StopInProgress => c.stopInFlight.Some?
    case PulseAlreadyLive => c.pulseAttempt.Some?
    case SetupNotReady => !c.phase.Active? || !c.ready
    case MachineNotReady => !c.machine.ReadyState?
    case BarrierNotHeld => !g.barrierHeld
    case RestrictionNotCurrent => !g.receiptCurrent
    case ScopeUnsupported => !g.scope.Supported?
    case AuthorityStaleBlock => !g.leaseLive
  }

  function When(holds: bool, reason: Block): seq<Block> {
    if holds then [reason] else []
  }

  function Note(c: Controller, g: Gates, reason: Block): seq<Block> {
    When(Blocks(c, g, reason), reason)
  }

  /** Every blocking reason at once, in order. */
  function EvaluateActivation(c: Controller, g: Gates): seq<Block> {
    Note(c, g, MonitoringUnavailable)
    + Note(c, g, ClosedBlock)
    + Note(c, g, SafetyEventLatched)
    + Note(c, g, StopSealedBlock)
    + Note(c, g, StopInProgress)
    + Note(c, g, PulseAlreadyLive)
    + Note(c, g, SetupNotReady)
    + Note(c, g, MachineNotReady)
    + Note(c, g, BarrierNotHeld)
    + Note(c, g, RestrictionNotCurrent)
    + Note(c, g, ScopeUnsupported)
    + Note(c, g, AuthorityStaleBlock)
  }

  /** The order in which reasons are reported; the first one decides the answer to a pulse request. */
  function Rank(reason: Block): nat {
    match reason
    case MonitoringUnavailable => 0
    case ClosedBlock => 1
    case SafetyEventLatched => 2
    case StopSealedBlock => 3
    case StopInProgress => 4
    case PulseAlreadyLive => 5
    case SetupNotReady => 6
    case MachineNotReady => 7
    case BarrierNotHeld => 8
    case RestrictionNotCurrent => 9
    case ScopeUnsupported => 10
    case AuthorityStaleBlock => 11
  }

  /** Nothing is reported twice, and everything in rank order. */
  predicate InRankOrder(reasons: seq<Block>) {
    forall i, j :: 0 <= i < j < |reasons| ==> Rank(reasons[i]) < Rank(reasons[j])
  }

  /** A list that reports exactly the shut gates ranked below `bound`, each once and in order. */
  ghost predicate ReportsBelow(c: Controller, g: Gates, reasons: seq<Block>, bound: nat) {
    InRankOrder(reasons) && forall b :: b in reasons <==> Blocks(c, g, b) && Rank(b) < bound
  }

  /** The twelve gates spelled out. */
  lemma GatesSpelledOut(c: Controller, g: Gates)
    ensures EvaluateActivation(c, g) ==
            When(!g.monitoringAccepted, MonitoringUnavailable)
            + When(Shut(c), ClosedBlock)
            + When(c.activationBarred, SafetyEventLatched)
            + When(c.stopSealed, StopSealedBlock)
            + When(c.stopInFlight.Some?, StopInProgress)
            + When(c.pulseAttempt.Some?, PulseAlreadyLive)
            + When(!c.phase.Active? || !c.ready, SetupNotReady)
            + When(!c.machine.ReadyState?, MachineNotReady)
            + When(!g.barrierHeld, BarrierNotHeld)
            + When(!g.receiptCurrent, RestrictionNotCurrent)
            + When(!g.scope.Supported?, ScopeUnsupported)
            + When(!g.leaseLive, AuthorityStaleBlock)
  {
    hide When, Blocks, Note, Shut;
    NotesSpelledOut(c, g);
  }

  lemma NotesSpelledOut(c: Controller, g: Gates)
    ensures Note(c, g, MonitoringUnavailable) == When(!g.monitoringAccepted, MonitoringUnavailable)
    ensures Note(c, g, ClosedBlock) == When(Shut(c), ClosedBlock)
    ensures Note(c, g, SafetyEventLatched) == When(c.activationBarred, SafetyEventLatched)
    ensures Note(c, g, StopSealedBlock) == When(c.stopSealed, StopSealedBlock)
    ensures Note(c, g, StopInProgress) == When(c.stopInFlight.Some?, StopInProgress)
    ensures Note(c, g, PulseAlreadyLive) == When(c.pulseAttempt.Some?, PulseAlreadyLive)
    ensures Note(c, g, SetupNotReady) == When(!c.phase.Active? || !c.ready, SetupNotReady)
    ensures Note(c, g, MachineNotReady) == When(!c.machine.ReadyState?, MachineNotReady)
    ensures Note(c, g, BarrierNotHeld) == When(!g.barrierHeld, BarrierNotHeld)
    ensures Note(c, g, RestrictionNotCurrent) == When(!g.receiptCurrent, RestrictionNotCurrent)
    ensures Note(c, g, ScopeUnsupported) == When(!g.scope.Supported?, ScopeUnsupported)
    ensures Note(c, g, AuthorityStaleBlock) == When(!g.leaseLive, AuthorityStaleBlock)
  {
    hide When, Shut;
  }

  lemma RanksInOrder()
    ensures Rank(MonitoringUnavailable) == 0 && Rank(ClosedBlock) == 1
    ensures Rank(SafetyEventLatched) == 2 && Rank(StopSealedBlock) == 3
    ensures Rank(StopInProgress) == 4 && Rank(PulseAlreadyLive) == 5
    ensures Rank(SetupNotReady) == 6 && Rank(MachineNotReady) == 7
    ensures Rank(BarrierNotHeld) == 8 && Rank(RestrictionNotCurrent) == 9
    ensures Rank(ScopeUnsupported) == 10 && Rank(AuthorityStaleBlock) == 11
  {
  }

  lemma NothingBelowZero(c: Controller, g: Gates)
    ensures ReportsBelow(c, g, [], 0)
  {
    hide Blocks, Rank;
  }

  lemma OneMore(c: Controller, g: Gates, reasons: seq<Block>, reason: Block, bound: nat)
    requires ReportsBelow(c, g, reasons, bound) && Rank(reason) == bound
    ensures ReportsBelow(c, g, reasons + Note(c, g, reason), bound + 1)
  {
    hide Blocks;
    var more := reasons + Note(c, g, reason);
    forall i, j | 0 <= i < j < |more| ensures Rank(more[i]) < Rank(more[j]) {
      assert i < |reasons| ==> reasons[i] in reasons;
    }
    assert forall b :: Rank(b) == Rank(reason) ==> b == reason;
  }

  lemma {:induction false} RankedListsAreEqual(a: seq<Block>, b: seq<Block>)
    requires InRankOrder(a) && InRankOrder(b) && forall x :: x in a <==> x in b
    ensures a == b
  {
    hide Rank;
    if a != [] {
      assert a[0] in b && b[0] in a;
      var i :| 0 <= i < |b| && b[i] == a[0];
      var j :| 0 <= j < |a| && a[j] == b[0];
      assert a[0] == b[0];
      forall x ensures x in a[1..] <==> x in b[1..] {
        if x in a[1..] { RestKeepsOut(a, b, x); }
        if x in b[1..] { RestKeepsOut(b, a, x); }
      }
      RankedListsAreEqual(a[1..], b[1..]);
    }
    assert b != [] ==> b[0] in b;
  }

  lemma RestKeepsOut(a: seq<Block>, b: seq<Block>, x: Block)
    requires a != [] && b != [] && a[0] == b[0] && InRankOrder(a) && x in a[1..] && x in b
    ensures x in b[1..]
  {
    hide Rank;
    var i :| 0 <= i < |a[1..]| && a[1..][i] == x;
    assert Rank(a[0]) < Rank(a[i + 1]);
  }

  /**
   * EVERY SHUT GATE IS REPORTED: the reasons are exactly those of the gates that are shut, each once and in
   * rank order, and no other list says so; so the list is empty exactly when every gate is open.
   */
  lemma EveryBlockIsReported(c: Controller, g: Gates, reasons: seq<Block>)
    ensures reasons == EvaluateActivation(c, g) <==>
            InRankOrder(reasons) && forall b :: b in reasons <==> Blocks(c, g, b)
    ensures EvaluateActivation(c, g) == [] <==> forall b :: !Blocks(c, g, b)
  {
    hide Blocks;
    var all := EvaluateActivation(c, g);
    GatesInOrder(c, g);
    assert forall b :: b in all <==> Blocks(c, g, b);
    if InRankOrder(reasons) && forall b :: b in reasons <==> Blocks(c, g, b) {
      RankedListsAreEqual(reasons, all);
    }
    if all != [] {
      assert all[0] in all;
    }
  }

  lemma GatesInOrder(c: Controller, g: Gates)
    ensures ReportsBelow(c, g, EvaluateActivation(c, g), 12)
  {
    hide Blocks, Note, ReportsBelow, Rank;
    NothingBelowZero(c, g);
    RanksInOrder();
    var none: seq<Block> := [];
    var first := Note(c, g, MonitoringUnavailable);
    assert none + first == first;
    OneMore(c, g, none, MonitoringUnavailable, 0);
    OneMore(c, g, first, ClosedBlock, 1);
    var shut := first + Note(c, g, ClosedBlock);
    OneMore(c, g, shut, SafetyEventLatched, 2);
    var barred := shut + Note(c, g, SafetyEventLatched);
    OneMore(c, g, barred, StopSealedBlock, 3);
    var sealed := barred + Note(c, g, StopSealedBlock);
    OneMore(c, g, sealed, StopInProgress, 4);
    var stopping := sealed + Note(c, g, StopInProgress);
    OneMore(c, g, stopping, PulseAlreadyLive, 5);
    var live := stopping + Note(c, g, PulseAlreadyLive);
    OneMore(c, g, live, SetupNotReady, 6);
    var setup := live + Note(c, g, SetupNotReady);
    OneMore(c, g, setup, MachineNotReady, 7);
    var machine := setup + Note(c, g, MachineNotReady);
    OneMore(c, g, machine, BarrierNotHeld, 8);
    var barrier := machine + Note(c, g, BarrierNotHeld);
    OneMore(c, g, barrier, RestrictionNotCurrent, 9);
    var restriction := barrier + Note(c, g, RestrictionNotCurrent);
    OneMore(c, g, restriction, ScopeUnsupported, 10);
    var scope := restriction + Note(c, g, ScopeUnsupported);
    OneMore(c, g, scope, AuthorityStaleBlock, 11);
    var all := scope + Note(c, g, AuthorityStaleBlock);
  }

  function MapBlock(reason: Block): PulseVerdict {
    match reason
    case ClosedBlock => ControllerClosed
    case StopInProgress => StopPending
    case StopSealedBlock => StopPending
    case PulseAlreadyLive => StopPending
    case MachineNotReady => NotReady
    case AuthorityStaleBlock => AuthorityStaleRefusal
    case _ => GatesNotSatisfied
  }

  function PulseVerdictFor(c: Controller, motorNumber: int, g: Gates): PulseVerdict {
    if Shut(c) then ControllerClosed
    else if motorNumber < 1 || motorNumber > MOTOR_VECTOR_MOTOR_COUNT then InvalidMotor
    else if c.pulseAttempt.Some? then SwitchRequiresNewActivation
    else if EvaluateActivation(c, g) != [] then MapBlock(EvaluateActivation(c, g)[0])
    else if !g.encodable then GatesNotSatisfied
    else Accepted
  }

  // ---------------------------------------------------------------- stopping

  /** Ends the live attempt, if one is live, and its watchdog with it. */
  function EndPulseAttempt(c: Controller, o: PulseOutcome): Controller {
    if c.pulseAttempt.None? then c
    else
      c.(pulseAttempt := None, watchdog := None,
         pulse := c.pulse.(outcome := Some(c.pulse.outcome.GetOr(o))))
  }

  function StartedStop(env: StopEnv): StopOperation {
    if env.scope.Missing? then Decided(NotAttempted(NoScope))
    else if !env.leaseLive then Decided(NotAttempted(AuthorityStale))
    else if env.scope.Unsupported? then Decided(ScopeRejected)
    else Dispatched(env.ambiguous)
  }

  /** Joins the running stop, replays a sealed one, or starts a new episode bound to the last attempt. */
  function ExecuteStopVector(c: Controller, env: StopEnv): Controller {
    if c.stopInFlight.Some? || c.stopSealed then c
    else
      var operation := StartedStop(env);
      c.(stopEpisodeId := c.stopEpisodeId + 1,
         stopEpisodeAttemptId := Some(c.pulse.attemptId),
         stopInFlight := Some(operation),
         lastStopOutcome := if operation.Decided? then Some(operation.outcome) else c.lastStopOutcome,
         stopCommands := c.stopCommands + if operation.Dispatched? then 1 else 0)
  }

  /** The first thing a stop does, before anything that could fail or wait. */
  function Disarmed(c: Controller, trigger: S.StopReason): Controller {
    c.(activationBarred := c.activationBarred || S.Locking(trigger), watchdog := None)
  }

  function RequestStop(c: Controller, trigger: S.StopReason, env: StopEnv): Controller {
    if c.phase.Closed? then c
    else
      var c1 := Disarmed(c, trigger);
      var c2 := Apply(EndPulseAttempt(c1, StopDominated), S.StopTriggered(trigger));
      if c2.pulseMayHaveReachedFc then ExecuteStopVector(c2, env) else c2
  }

  /** A pulse-side failure takes the stop route and lands in Fault. */
  function FailPulseClosed(c: Controller, o: PulseOutcome, fault: S.FaultReason, env: StopEnv): Controller {
    Apply(RequestStop(EndPulseAttempt(c, o), S.StopButtonPressed, env), S.FaultRaised(fault))
  }

  // ---------------------------------------------------------------- pulsing

  /** A fresh attempt: Starting, watchdog, latch, then the write call. */
  function Activated(c: Controller, motorNumber: int): Controller {
    var attempt := c.pulseAttemptCounter + 1;
    var c1 := Apply(c.(pulseAttempt := Some(attempt), pulseAttemptCounter := attempt), S.ActivationAccepted);
    Apply(c1.(watchdog := Some(attempt), pulseMayHaveReachedFc := true,
              pulse := Pulse(attempt, motorNumber, false, None)), S.StartWriteCalled)
  }

  function DoPulse(c: Controller, motorNumber: int, g: Gates, env: StopEnv): Controller {
    match PulseVerdictFor(c, motorNumber, g)
    case SwitchRequiresNewActivation => RequestStop(c, S.MotorSelectionChanged, env)
    case Accepted => Activated(c, motorNumber)
    case _ => c
  }

  function DoWatchdog(c: Controller, env: StopEnv): Controller {
    if c.watchdog.None? then c
    else
      var c1 := c.(watchdog := None);
      if c.pulseAttempt != c.watchdog then c1 else RequestStop(c1, S.PulseDeadlineElapsed, env)
  }

  /** The pulse request settles; a settlement of an attempt that is no longer live changes nothing. */
  function DoPulseSettled(c: Controller, attempt: AttemptId, ok: bool, leaseLive: bool, env: StopEnv): Controller {
    if c.pulseAttempt != Some(attempt) then c
    else if !ok then FailPulseClosed(c, RequestFailed, S.WriteOutcomeUnknown, env)
    else if c.closing || !leaseLive then FailPulseClosed(c, AuthorityChanged, S.SessionChanged, env)
    else
      Apply(c.(pulse := c.pulse.(acknowledged := true, outcome := Some(PulseAcknowledged))), S.StartAcknowledged)
  }

  // ---------------------------------------------------------------- the stop settles

  datatype FrameResult = FrameResolved | FrameRejected | UnexpectedException

  function FrameOutcome(ambiguous: bool, result: FrameResult, leaseLive: bool): StopOutcome {
    if !result.FrameResolved? then FailedStop(StopRequestFailed)
    else if !leaseLive then FailedStop(StopAuthorityChanged)
    else if ambiguous then FailedStop(AttributionAmbiguous)
    else Acknowledged
  }

  predicate Unsafe(mayHaveReachedFc: bool, o: StopOutcome) {
    if mayHaveReachedFc then !o.Acknowledged? else o.FailedStop?
  }

  /** The teardown goes on as soon as the stop it joined is over. */
  function Resumed(c: Controller, o: Option<StopOutcome>): Controller {
    if c.teardown.AwaitingStop? then c.(teardown := Resumable(o)) else c
  }

  /** An unsafe outcome seals the stop and faults the machine. */
  function Sealed(c: Controller, o: StopOutcome): Controller {
    if Unsafe(c.pulseMayHaveReachedFc, o) then Apply(c.(stopSealed := true), S.FaultRaised(S.StopFailed)) else c
  }

  /** The reaction to an outcome: the registration goes, an unsafe outcome seals, a waiting teardown goes on. */
  function SettledWith(c: Controller, o: StopOutcome): Controller {
    Resumed(Sealed(c.(stopInFlight := None, lastStopOutcome := Some(o)), o), Some(o))
  }

  /** The reaction to an unexpected exception seals without an outcome. */
  function SettledByException(c: Controller): Controller {
    Resumed(c.(stopInFlight := None, stopSealed := true, stopThrew := true), None)
  }

  function DoStopSettled(c: Controller, result: FrameResult, leaseLive: bool): Controller {
    if c.stopInFlight.None? then c
    else
      match c.stopInFlight.value
      case Decided(o) => SettledWith(c, o)
      case Dispatched(ambiguous) =>
        if result.UnexpectedException? then SettledByException(c)
        else SettledWith(c, FrameOutcome(ambiguous, result, leaseLive))
  }

  // ---------------------------------------------------------------- closing

  /** The synchronous start of the teardown: the attempt ends and the required stop is started or joined. */
  function BeginTeardown(c: Controller, env: StopEnv): Controller {
    var c1 := EndPulseAttempt(c.(closing := true, watchdog := None), StopDominated).(phase := Closing);
    var c2 := ExecuteStopVector(c1, env);
    c2.(teardown := if c2.stopInFlight.Some? then AwaitingStop
                    else Resumable(Some(c2.lastStopOutcome.GetOr(FailedStop(StopRequestFailed)))))
  }

  function DoClose(c: Controller, env: StopEnv): Controller {
    if c.teardown.NotStarted? then BeginTeardown(c, env) else c
  }

  function DoSessionInvalidated(c: Controller, reason: S.FaultReason, env: StopEnv): Controller {
    if c.phase.Closed? || c.closing then c
    else BeginTeardown(Apply(c.(closing := true), S.FaultRaised(reason)).(ready := false), env)
  }

  datatype LeaseRelease = Released | AlreadyReleased | Invalidated | NotOwner | WorkUnsettled | ReleaseThrew

  predicate ExclusivityGone(r: LeaseRelease) {
    r.Released? || r.AlreadyReleased? || r.Invalidated?
  }

  predicate TeardownStopUnsafe(c: Controller, o: Option<StopOutcome>) {
    o.None? || o.value.FailedStop? || (!o.value.Acknowledged? && c.pulseMayHaveReachedFc)
  }

  /** What the rest of a teardown meets. */
  datatype TeardownEnv = TeardownEnv(release: LeaseRelease, threw: bool, barrierThrows: bool)

  /** The rest of the teardown: the lease, then the telemetry tokens, last and only if nothing is uncertain. */
  function DoTeardown(c: Controller, t: TeardownEnv): Controller {
    if !c.teardown.Resumable? then c
    else
      var stopUnsafe := TeardownStopUnsafe(c, c.teardown.stopOutcome);
      var resumes := ExclusivityGone(t.release) && !stopUnsafe;
      var complete := resumes && !t.threw && !t.barrierThrows;
      var reason := if stopUnsafe || !ExclusivityGone(t.release) then S.StopFailed else S.NativeException;
      var c1 := c.(telemetryReleased := resumes && !t.barrierThrows);
      (if complete then c1 else Apply(c1, S.FaultRaised(reason)).(ready := false)).(phase := Closed, teardown := Done)
  }

  /** Promise reactions run before the next event: a stop decided without a write settles, a resumable teardown ends. */
  function Drain(c: Controller, t: TeardownEnv): Controller {
    DoTeardown(
      if c.stopInFlight.Some? && c.stopInFlight.value.Decided? then DoStopSettled(c, FrameResolved, true) else c, t)
  }

  datatype Event =
    | PulseMotor(motorNumber: int, gates: Gates)
    | StopRequested(trigger: S.StopReason)
    | WatchdogFired
    | PulseSettled(attempt: AttemptId, ok: bool, leaseLive: bool)
    | StopSettled(result: FrameResult, leaseLive: bool)
    | Close
    | SessionInvalidated(reason: S.FaultReason)

  /** The surroundings of an event: what a stop it starts finds, and what a teardown it finishes meets. */
  datatype World = World(stop: StopEnv, teardown: TeardownEnv)

  function Act(c: Controller, e: Event, env: StopEnv): Controller {
    match e
    case PulseMotor(motorNumber, gates) => DoPulse(c, motorNumber, gates, env)
    case StopRequested(trigger) => RequestStop(c, trigger, env)
    case WatchdogFired => DoWatchdog(c, env)
    case PulseSettled(attempt, ok, leaseLive) => DoPulseSettled(c, attempt, ok, leaseLive, env)
    case StopSettled(result, leaseLive) => DoStopSettled(c, result, leaseLive)
    case Close => DoClose(c, env)
    case SessionInvalidated(reason) => DoSessionInvalidated(c, reason, env)
  }

  function Step(c: Controller, e: Event, w: World): Controller {
    Drain(Act(c, e, w.stop), w.teardown)
  }

  function Run(c: Controller, events: seq<(Event, World)>): Controller {
    if events == [] then c
    else Step(Run(c, events[..|events| - 1]), events[|events| - 1].0, events[|events| - 1].1)
  }

  // ---------------------------------------------------------------- the invariant

  /** A live pulse has its own watchdog, nothing stopping it, and an open controller around it. */
  ghost predicate PulseOk(c: Controller) {
    && c.watchdog == c.pulseAttempt
    && (c.pulseAttempt.Some? ==>
          && c.pulseAttempt == Some(c.pulse.attemptId)
          && c.stopInFlight.None? && !c.stopSealed && !Shut(c)
          && c.machine.PulsingState? && c.pulseMayHaveReachedFc)
    && c.pulse.attemptId == c.pulseAttemptCounter
    && (c.pulseMayHaveReachedFc <==> c.pulseAttemptCounter > 0)
  }

  /** The machine is never Ready again after a pulse: nothing ever tells it that a stop was acknowledged. */
  ghost predicate OncePulsed(c: Controller) {
    && c.pulseAttemptCounter <= 1
    && (c.pulseAttemptCounter == 1 ==> c.machine.PulsingState? || c.machine.StoppingState? || c.machine.FaultState?)
    && (c.pulseAttemptCounter == 0 ==> c.machine.ReadyState? || c.machine.FaultState?)
  }

  ghost predicate PhasesOk(c: Controller) {
    && (c.closing <==> !c.phase.Active?)
    && (c.phase.Active? ==> c.teardown.NotStarted?)
    && (c.phase.Closing? ==> c.teardown.AwaitingStop? && c.stopInFlight.Some?)
    && (c.phase.Closed? ==> c.teardown.Done? && c.stopInFlight.None?)
  }

  /** Sealed exactly by an unsafe outcome or an exception, and then the outcome stands. */
  ghost predicate SealOk(c: Controller) {
    && (c.stopInFlight.Some? ==> c.stopInFlight.value.Dispatched? && !c.stopSealed && c.stopEpisodeId > 0)
    && (c.stopThrew ==> c.stopSealed)
    && (c.stopSealed && !c.stopThrew ==> c.lastStopOutcome.Some? && !c.lastStopOutcome.value.Acknowledged?)
    && (c.stopSealed && !c.stopThrew && !c.pulseMayHaveReachedFc ==> c.lastStopOutcome.value.FailedStop?)
    && (c.telemetryReleased ==> c.phase.Closed?)
    && (c.telemetryReleased && c.pulseMayHaveReachedFc ==> c.lastStopOutcome == Some(Acknowledged))
    && (c.telemetryReleased ==> !(c.lastStopOutcome.Some? && c.lastStopOutcome.value.FailedStop?))
    && c.stopCommands <= c.stopEpisodeId
  }

  ghost predicate Inv(c: Controller) {
    PulseOk(c) && OncePulsed(c) && PhasesOk(c) && SealOk(c)
  }

  lemma ReadyInv(authority: S.Authority)
    ensures Inv(ReadySession(authority))
  {
  }

  /** What the machine makes of the five kinds of event this controller feeds it. */
  lemma MachineMoves(c: Controller, reason: S.StopReason, fault: S.FaultReason)
    ensures Apply(c, S.StopTriggered(reason)).machine
            == S.MotorTestTransition(c.machine, S.Event(c.machine.authority, S.StopTriggered(reason))).state
    ensures c.machine.ReadyState? ==> Apply(c, S.StopTriggered(reason)).machine == c.machine
    ensures c.machine.PulsingState? || c.machine.StoppingState? ==>
            Apply(c, S.StopTriggered(reason)).machine.StoppingState?
    ensures c.machine.FaultState? ==> Apply(c, S.StopTriggered(reason)).machine == c.machine
    ensures Apply(c, S.FaultRaised(fault)).machine.FaultState?
    ensures c.machine.ReadyState? ==> Apply(c, S.ActivationAccepted).machine.StartingState?
    ensures c.machine.StartingState? ==> Apply(c, S.StartWriteCalled).machine.PulsingState?
    ensures c.machine.PulsingState? ==> Apply(c, S.StartAcknowledged).machine.PulsingState?
  {
  }

  /** The same, before the reactions of the event have run. */
  ghost predicate Mid(c: Controller) {
    && PulseOk(c) && OncePulsed(c)
    && (c.closing <==> !c.phase.Active?)
    && (c.phase.Active? ==> c.teardown.NotStarted?)
    && (c.phase.Closing? ==>
          (c.teardown.AwaitingStop? && c.stopInFlight.Some?) || (c.teardown.Resumable? && c.stopInFlight.None?))
    && (c.phase.Closed? ==> c.teardown.Done? && c.stopInFlight.None?)
    && (c.stopInFlight.Some? ==> !c.stopSealed && c.stopEpisodeId > 0)
    && (c.stopInFlight.Some? && c.stopInFlight.value.Decided? ==> !c.stopInFlight.value.outcome.Acknowledged?)
    && (c.stopThrew ==> c.stopSealed)
    && (c.stopSealed && !c.stopThrew ==> c.lastStopOutcome.Some? && !c.lastStopOutcome.value.Acknowledged?)
    && (c.stopSealed && !c.stopThrew && !c.pulseMayHaveReachedFc ==> c.lastStopOutcome.value.FailedStop?)
    && (c.teardown.Resumable? && c.teardown.stopOutcome.Some? ==>
          c.teardown.stopOutcome == c.lastStopOutcome
          || (c.lastStopOutcome.None? && c.teardown.stopOutcome.value.FailedStop?))
    && (c.telemetryReleased ==> c.phase.Closed?)
    && (c.telemetryReleased && c.pulseMayHaveReachedFc ==> c.lastStopOutcome == Some(Acknowledged))
    && (c.telemetryReleased ==> !(c.lastStopOutcome.Some? && c.lastStopOutcome.value.FailedStop?))
    && c.stopCommands <= c.stopEpisodeId
  }

  lemma InvIsMid(c: Controller)
    requires Inv(c)
    ensures Mid(c)
  {
  }

  lemma EndedKeepsMid(c: Controller, o: PulseOutcome, trigger: S.StopReason)
    requires Inv(c) && !c.phase.Closed?
    ensures var t := Apply(EndPulseAttempt(Disarmed(c, trigger), o), S.StopTriggered(trigger));
            && Mid(t) && t.pulseAttempt.None? && t.watchdog.None?
            && t.stopInFlight == c.stopInFlight && t.stopSealed == c.stopSealed
            && t.pulse.attemptId == c.pulse.attemptId
            && t.stopEpisodeId == c.stopEpisodeId && t.pulseMayHaveReachedFc == c.pulseMayHaveReachedFc
  {
    hide S.MotorTestTransition;
    var c1 := EndPulseAttempt(Disarmed(c, trigger), o);
    MachineMoves(c1, trigger, S.StopFailed);
  }

  lemma RequestStopKeepsMid(c: Controller, trigger: S.StopReason, env: StopEnv)
    requires Inv(c)
    ensures Mid(RequestStop(c, trigger, env)) && (!c.phase.Closed? ==> RequestStop(c, trigger, env).pulseAttempt.None?)
  {
    hide Inv, Mid, S.MotorTestTransition, ExecuteStopVector;
    InvIsMid(c);
    if !c.phase.Closed? {
      EndedKeepsMid(c, StopDominated, trigger);
      var t := Apply(EndPulseAttempt(Disarmed(c, trigger), StopDominated), S.StopTriggered(trigger));
      StopAnywhere(c, t, env);
    }
  }

  lemma StopAnywhere(c: Controller, t: Controller, env: StopEnv)
    requires Inv(c) && Mid(t) && t.pulseAttempt.None? && t.phase == c.phase && !c.phase.Closed?
    requires t.stopInFlight == c.stopInFlight
    ensures Mid(ExecuteStopVector(t, env)) && ExecuteStopVector(t, env).pulseAttempt.None?
  {
  }

  lemma PulseKeepsMid(c: Controller, motorNumber: int, g: Gates, env: StopEnv)
    requires Inv(c)
    ensures Mid(DoPulse(c, motorNumber, g, env))
  {
    hide Inv, Mid, S.MotorTestTransition, RequestStop;
    InvIsMid(c);
    RequestStopKeepsMid(c, S.MotorSelectionChanged, env);
    if PulseVerdictFor(c, motorNumber, g).Accepted? {
      AcceptedKeepsMid(c, motorNumber, g, env);
    }
  }

  lemma AcceptedKeepsMid(c: Controller, motorNumber: int, g: Gates, env: StopEnv)
    requires Inv(c) && PulseVerdictFor(c, motorNumber, g).Accepted?
    ensures Mid(DoPulse(c, motorNumber, g, env))
  {
    hide S.MotorTestTransition, EvaluateActivation;
    AcceptedExactlyWhen(c, motorNumber, g);
    var attempt := c.pulseAttemptCounter + 1;
    var c0 := c.(pulseAttempt := Some(attempt), pulseAttemptCounter := attempt);
    var c1 := Apply(c0, S.ActivationAccepted);
    var c2 := c1.(watchdog := Some(attempt), pulseMayHaveReachedFc := true,
                  pulse := Pulse(attempt, motorNumber, false, None));
    MachineMoves(c0, S.TouchReleased, S.StopFailed);
    MachineMoves(c2, S.TouchReleased, S.StopFailed);
  }

  /** THE GATE: a pulse is accepted exactly when every single precondition holds. */
  lemma AcceptedExactlyWhen(c: Controller, motorNumber: int, g: Gates)
    ensures PulseVerdictFor(c, motorNumber, g).Accepted? <==>
            && 1 <= motorNumber <= MOTOR_VECTOR_MOTOR_COUNT
            && !Shut(c) && !c.activationBarred && !c.stopSealed && c.stopInFlight.None? && c.pulseAttempt.None?
            && c.ready && c.machine.ReadyState?
            && g.monitoringAccepted && g.barrierHeld && g.receiptCurrent && g.scope.Supported? && g.leaseLive
            && g.encodable
  {
    var blocks := EvaluateActivation(c, g);
    if blocks != [] {
      assert !MapBlock(blocks[0]).Accepted?;
    }
  }

  lemma WatchdogKeepsMid(c: Controller, env: StopEnv)
    requires Inv(c)
    ensures Mid(DoWatchdog(c, env))
  {
    hide S.MotorTestTransition, ExecuteStopVector, Mid;
    InvIsMid(c);
    if c.watchdog.Some? {
      assert RequestStop(c.(watchdog := None), S.PulseDeadlineElapsed, env)
        == RequestStop(c, S.PulseDeadlineElapsed, env);
      RequestStopKeepsMid(c, S.PulseDeadlineElapsed, env);
    }
  }

  lemma FaultKeepsMid(c: Controller, fault: S.FaultReason)
    requires Mid(c) && c.pulseAttempt.None?
    ensures Mid(Apply(c, S.FaultRaised(fault)))
  {
    hide S.MotorTestTransition;
    MachineMoves(c, S.TouchReleased, fault);
  }

  lemma FailedPulseKeepsMid(c: Controller, o: PulseOutcome, fault: S.FaultReason, env: StopEnv)
    requires Inv(c) && c.pulseAttempt.Some?
    ensures Mid(FailPulseClosed(c, o, fault, env))
  {
    hide S.MotorTestTransition, ExecuteStopVector, Mid;
    var trigger := S.StopButtonPressed;
    EndedKeepsMid(c, o, trigger);
    var t := Apply(EndPulseAttempt(Disarmed(c, trigger), o), S.StopTriggered(trigger));
    StopAnywhere(c, t, env);
    assert RequestStop(EndPulseAttempt(c, o), trigger, env) == ExecuteStopVector(t, env);
    FaultKeepsMid(ExecuteStopVector(t, env), fault);
  }

  lemma PulseSettledKeepsMid(c: Controller, attempt: AttemptId, ok: bool, leaseLive: bool, env: StopEnv)
    requires Inv(c)
    ensures Mid(DoPulseSettled(c, attempt, ok, leaseLive, env))
  {
    hide S.MotorTestTransition, FailPulseClosed;
    if c.pulseAttempt == Some(attempt) {
      FailedPulseKeepsMid(c, RequestFailed, S.WriteOutcomeUnknown, env);
      FailedPulseKeepsMid(c, AuthorityChanged, S.SessionChanged, env);
      MachineMoves(c.(pulse := c.pulse.(acknowledged := true, outcome := Some(PulseAcknowledged))), S.TouchReleased,
                   S.StopFailed);
    }
  }

  lemma SettledWithKeepsMid(c: Controller, o: StopOutcome)
    requires Mid(c) && c.stopInFlight.Some?
    ensures Mid(SettledWith(c, o)) && SettledWith(c, o).stopInFlight.None?
  {
    hide S.MotorTestTransition;
    var c1 := c.(stopInFlight := None, lastStopOutcome := Some(o)).(stopSealed := true);
    MachineMoves(c1, S.TouchReleased, S.StopFailed);
  }

  lemma SettledByExceptionKeepsMid(c: Controller)
    requires Mid(c) && c.stopInFlight.Some?
    ensures Mid(SettledByException(c)) && SettledByException(c).stopInFlight.None?
  {
  }

  lemma StopSettledKeepsMid(c: Controller, result: FrameResult, leaseLive: bool)
    requires Mid(c)
    ensures Mid(DoStopSettled(c, result, leaseLive))
    ensures DoStopSettled(c, result, leaseLive).stopInFlight.None? || c.stopInFlight.None?
  {
    hide SettledWith, SettledByException, FrameOutcome, Mid;
    if c.stopInFlight.Some? {
      match c.stopInFlight.value {
        case Decided(o) => SettledWithKeepsMid(c, o);
        case Dispatched(ambiguous) =>
          SettledByExceptionKeepsMid(c);
          SettledWithKeepsMid(c, FrameOutcome(ambiguous, result, leaseLive));
      }
    }
  }

  lemma TeardownKeepsMid(c: Controller, env: StopEnv)
    requires PulseOk(c.(closing := false)) && OncePulsed(c) && SealOk(c) && c.phase.Active? && c.teardown.NotStarted?
    ensures Mid(BeginTeardown(c, env)) && BeginTeardown(c, env).pulseAttempt.None?
  {
  }

  lemma SessionInvalidatedKeepsMid(c: Controller, reason: S.FaultReason, env: StopEnv)
    requires Inv(c)
    ensures Mid(DoSessionInvalidated(c, reason, env))
  {
    hide S.MotorTestTransition, BeginTeardown;
    if c.phase.Active? {
      var c1 := Apply(c.(closing := true), S.FaultRaised(reason)).(ready := false);
      MachineMoves(c.(closing := true), S.TouchReleased, reason);
      FaultedTeardown(c, c1, env);
    }
  }

  lemma FaultedTeardown(c: Controller, c1: Controller, env: StopEnv)
    requires Inv(c) && c.phase.Active?
    requires c1 == c.(closing := true, ready := false, machine := c1.machine) && c1.machine.FaultState?
    ensures Mid(BeginTeardown(c1, env)) && BeginTeardown(c1, env).pulseAttempt.None?
  {
  }

  lemma ActKeepsMid(c: Controller, e: Event, env: StopEnv)
    requires Inv(c)
    ensures Mid(Act(c, e, env))
  {
    hide Inv, Mid, DoPulse, RequestStop, DoWatchdog, DoPulseSettled, DoStopSettled, DoSessionInvalidated, BeginTeardown;
    InvIsMid(c);
    match e {
      case PulseMotor(motorNumber, gates) => PulseKeepsMid(c, motorNumber, gates, env);
      case StopRequested(trigger) => RequestStopKeepsMid(c, trigger, env);
      case WatchdogFired => WatchdogKeepsMid(c, env);
      case PulseSettled(attempt, ok, leaseLive) => PulseSettledKeepsMid(c, attempt, ok, leaseLive, env);
      case StopSettled(result, leaseLive) => StopSettledKeepsMid(c, result, leaseLive);
      case Close => CloseKeepsMid(c, env);
      case SessionInvalidated(reason) => SessionInvalidatedKeepsMid(c, reason, env);
    }
  }

  lemma CloseKeepsMid(c: Controller, env: StopEnv)
    requires Inv(c)
    ensures Mid(DoClose(c, env))
  {
    hide BeginTeardown;
    InvIsMid(c);
    if c.teardown.NotStarted? {
      TeardownKeepsMid(c, env);
    }
  }

  lemma FinishedTeardown(c: Controller, t: TeardownEnv)
    requires Mid(c) && c.stopInFlight.None? && c.teardown.Resumable?
    ensures Inv(DoTeardown(c, t))
  {
    hide S.MotorTestTransition;
    forall c1: Controller, reason: S.FaultReason ensures Apply(c1, S.FaultRaised(reason)).machine.FaultState? {
      MachineMoves(c1, S.TouchReleased, reason);
    }
  }

  lemma DrainIsInv(c: Controller, t: TeardownEnv)
    requires Mid(c)
    ensures Inv(Drain(c, t))
  {
    hide DoStopSettled, Apply, DoTeardown, Mid, Inv;
    var d := if c.stopInFlight.Some? && c.stopInFlight.value.Decided? then DoStopSettled(c, FrameResolved, true) else c;
    StopSettledKeepsMid(c, FrameResolved, true);
    if d.teardown.Resumable? {
      ResumableIsIdle(d);
      FinishedTeardown(d, t);
    } else {
      MidAtRest(d);
      assert DoTeardown(d, t) == d by { NothingToResume(d, t); }
    }
  }

  lemma NothingToResume(c: Controller, t: TeardownEnv)
    requires !c.teardown.Resumable?
    ensures DoTeardown(c, t) == c
  {
  }

  lemma ResumableIsIdle(c: Controller)
    requires Mid(c) && c.teardown.Resumable?
    ensures c.stopInFlight.None?
  {
  }

  lemma MidAtRest(c: Controller)
    requires Mid(c) && !c.teardown.Resumable? && (c.stopInFlight.Some? ==> c.stopInFlight.value.Dispatched?)
    ensures Inv(c)
  {
  }

  /** A late answer of a pulse that is no longer live changes nothing at all. */
  lemma StaleAnswerIsDiscarded(c: Controller, attempt: AttemptId, ok: bool, leaseLive: bool, w: World)
    requires Inv(c) && c.pulseAttempt != Some(attempt)
    ensures Step(c, PulseSettled(attempt, ok, leaseLive), w) == c
  {
  }

  /** Every event keeps the invariant. */
  lemma StepKeepsInv(c: Controller, e: Event, w: World)
    requires Inv(c)
    ensures Inv(Step(c, e, w))
  {
    hide Inv, Mid, Act, Drain;
    ActKeepsMid(c, e, w.stop);
    DrainIsInv(Act(c, e, w.stop), w.teardown);
  }

  lemma {:induction false} RunKeepsInv(c: Controller, events: seq<(Event, World)>)
    requires Inv(c)
    ensures Inv(Run(c, events))
    decreases |events|
  {
    hide Inv, Step;
    if events != [] {
      var last := |events| - 1;
      RunKeepsInv(c, events[..last]);
      StepKeepsInv(Run(c, events[..last]), events[last].0, events[last].1);
    }
  }
}
