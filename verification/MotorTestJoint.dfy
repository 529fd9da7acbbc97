/**
 * The controller on top of the client, as one system: every answer the controller gets about its lease and its two
 * command-214 requests is read off the client, and every request it makes is an event of the client.
 */
module MotorTestJoint {
  import opened MspTypes
  import S = MotorTestStateMachine
  import C = MotorTestControllerModel
  import T = MotorTestControllerTheorems
  import M = MspClientModel
  import Inv = MspClientInvariants
  import Runs = MspClientRuns
  import History = MspClientHistory
  import Order = MspClientOrder
  import Stops = MspClientStop
  import Theorems = MspClientTheorems

  const MSP_SET_MOTOR := 214

  /** Pulse and stop are the same command, sent with the same options; only the vector differs. */
  function MotorCommand(payload: seq<byte>): M.RequestSpec {
    M.RequestSpec(MSP_SET_MOTOR, payload, V1, 0)
  }

  /** The transport's faults, the session's authority and the controller's own lease token. */
  datatype Setup = Setup(env: M.Env, authority: S.Authority, token: M.Token)

  /** What neither side decides: the motor scope, the two vectors, and what a teardown's other steps throw. */
  datatype Surroundings = Surroundings(
    scope: C.ScopeState,
    pulsePayload: seq<byte>,
    stopPayload: seq<byte>,
    threw: bool,
    barrierThrows: bool)

  /**
   * Everything that has happened to the client and to the controller so far, the requests of the pulse and of the
   * last stop, whether the pulse still awaits its request, and whether that stop was submitted while the pulse's
   * request was the client's active one.
   */
  datatype Joint = Joint(
    wire: seq<M.Event>,
    control: seq<(C.Event, C.World)>,
    pulseId: Option<M.RequestId>,
    pulseOpen: bool,
    stopId: Option<M.RequestId>,
    raced: bool)

  /** A controller that has just become ready, on a client with any past. */
  function Start(wire: seq<M.Event>): Joint {
    Joint(wire, [], None, false, None, false)
  }

  function Client(p: Setup, x: Joint): M.Engine {
    M.Run(p.env, M.INITIAL, x.wire)
  }

  function Control(p: Setup, x: Joint): C.Controller {
    C.Run(C.ReadySession(p.authority), x.control)
  }

  predicate Live(p: Setup, x: Joint) {
    Client(p, x).token == Some(p.token)
  }

  predicate Settled(p: Setup, x: Joint, id: Option<M.RequestId>) {
    id.Some? && id.value in Client(p, x).outcomes
  }

  /** The request was answered by a frame. */
  predicate Answered(p: Setup, x: Joint, id: Option<M.RequestId>) {
    Settled(p, x, id) && Client(p, x).outcomes[id.value].Resolved?
  }

  function ReleaseOf(r: M.Release): C.LeaseRelease {
    match r
    case Released => C.Released
    case AlreadyReleased => C.AlreadyReleased
    case Invalidated => C.Invalidated
    case NotOwner => C.NotOwner
    case WorkUnsettled => C.WorkUnsettled
  }

  function WorldOf(p: Setup, x: Joint, u: Surroundings): C.World {
    var s := Client(p, x);
    C.World(C.StopEnv(u.scope, Live(p, x), M.LooksAlike(s, MotorCommand(u.stopPayload))),
            C.TeardownEnv(ReleaseOf(M.ReleaseVerdict(s, p.token)), u.threw, u.barrierThrows))
  }

  function Sent(x: Joint, e: M.Event): Joint {
    x.(wire := x.wire + [e])
  }

  function Noted(p: Setup, x: Joint, e: C.Event, u: Surroundings): Joint {
    x.(control := x.control + [(e, WorldOf(p, x, u))])
  }

  /** The request the controller made in an event that took it from `c` to `d`, if it made one. */
  function Submits(p: Setup, x: Joint, y: Joint, c: C.Controller, d: C.Controller, u: Surroundings): Joint {
    var s := Client(p, x);
    if d.pulseAttemptCounter > c.pulseAttemptCounter then
      Sent(y, M.LeaseRequest(p.token, MotorCommand(u.pulsePayload))).(pulseId := Some(s.nextId), pulseOpen := true)
    else if d.stopCommands > c.stopCommands then
      Sent(y, M.EmergencyStop(p.token, MotorCommand(u.stopPayload))).(
        stopId := Some(s.stopRegistered.GetOr(s.nextId)),
        raced := x.pulseId.Some? && Inv.IsActive(s, x.pulseId.value) == 1)
    else y
  }

  /** The controller takes one event, makes the request it calls for, and releases the lease with its teardown. */
  function Tell(p: Setup, x: Joint, e: C.Event, u: Surroundings): Joint {
    var c := Control(p, x);
    var y := Noted(p, x, e, u);
    var d := Control(p, y);
    var z := Submits(p, x, y, c, d, u);
    if d.phase.Closed? && !c.phase.Closed? then Sent(z, M.ReleaseLease(p.token)) else z
  }

  /** The pulse's request has settled and the controller has not heard of it. */
  function PulseReaction(p: Setup, x: Joint, u: Surroundings): Joint {
    if !x.pulseOpen || !Settled(p, x, x.pulseId) then x
    else
      Tell(p, x.(pulseOpen := false),
           C.PulseSettled(Control(p, x).pulse.attemptId, Answered(p, x, x.pulseId), Live(p, x)), u)
  }

  /** The lease is failed closed before an ambiguous answer is reported. */
  function FailedClosed(p: Setup, x: Joint): Joint {
    if Answered(p, x, x.stopId) && Live(p, x) && Control(p, x).stopInFlight == Some(C.Dispatched(true))
    then Sent(x, M.FaultByToken(p.token)) else x
  }

  function StopReaction(p: Setup, x: Joint, u: Surroundings): Joint {
    if Control(p, x).stopInFlight.None? || !Settled(p, x, x.stopId) then x
    else
      Tell(p, FailedClosed(p, x),
           C.StopSettled(if Answered(p, x, x.stopId) then C.FrameResolved else C.FrameRejected, Live(p, x)), u)
  }

  function React(p: Setup, x: Joint, u: Surroundings): Joint {
    StopReaction(p, PulseReaction(p, x, u), u)
  }

  datatype Event =
    | Outside(wire: M.Event)
    | Trigger(control: C.Event)

  /** Nobody but the controller has its token. */
  predicate Foreign(p: Setup, e: M.Event) {
    match e
    case LeaseRequest(token, _) => token != p.token
    case EmergencyStop(token, _) => token != p.token
    case ReleaseLease(token) => token != p.token
    case FaultByToken(token) => token != p.token
    case _ => true
  }

  /** The gate asks the client whether the lease is live. */
  function Seen(p: Setup, x: Joint, e: C.Event): C.Event {
    if e.PulseMotor? then C.PulseMotor(e.motorNumber, e.gates.(leaseLive := Live(p, x))) else e
  }

  /** What the controller hears of its own requests comes from the client alone. */
  predicate External(e: C.Event) {
    !e.PulseSettled? && !e.StopSettled?
  }

  function Step(p: Setup, x: Joint, e: Event, u: Surroundings): Joint {
    match e
    case Outside(wire) => if Foreign(p, wire) then React(p, Sent(x, wire), u) else x
    case Trigger(control) => if External(control) then React(p, Tell(p, x, Seen(p, x, control), u), u) else x
  }

  function Run(p: Setup, x: Joint, events: seq<(Event, Surroundings)>): Joint {
    if events == [] then x
    else
      var last := |events| - 1;
      Step(p, Run(p, x, events[..last]), events[last].0, events[last].1)
  }

  // ---------------------------------------------------------------- how the controller's stops move

  ghost predicate SameStops(c: C.Controller, t: C.Controller) {
    && t.stopThrew == c.stopThrew && t.stopSealed == c.stopSealed && t.stopInFlight == c.stopInFlight
    && t.lastStopOutcome == c.lastStopOutcome && t.stopCommands == c.stopCommands
    && (c.pulseMayHaveReachedFc ==> t.pulseMayHaveReachedFc)
  }

  /** Stops stay as they are, or one is started where none was running. */
  ghost predicate StopMoves(c: C.Controller, t: C.Controller, env: C.StopEnv) {
    && t.pulseAttemptCounter == c.pulseAttemptCounter
    && (|| SameStops(c, t)
        || (&& c.stopInFlight.None? && !c.stopSealed
            && SameStops(c, t.(stopInFlight := None, lastStopOutcome := c.lastStopOutcome,
                               stopCommands := c.stopCommands))
            && t.stopInFlight == Some(C.StartedStop(env))
            && t.stopCommands == c.stopCommands + (if C.StartedStop(env).Dispatched? then 1 else 0)
            && (C.StartedStop(env).Dispatched? ==> t.lastStopOutcome == c.lastStopOutcome)))
  }

  lemma ExecuteMoves(c: C.Controller, t: C.Controller, env: C.StopEnv)
    requires SameStops(c, t) && t.pulseAttemptCounter == c.pulseAttemptCounter
    ensures StopMoves(c, C.ExecuteStopVector(t, env), env)
  {
    hide C.StartedStop;
  }

  lemma RequestMoves(c: C.Controller, t: C.Controller, trigger: S.StopReason, env: C.StopEnv)
    requires SameStops(c, t) && t.pulseAttemptCounter == c.pulseAttemptCounter
    ensures StopMoves(c, C.RequestStop(t, trigger, env), env)
  {
    hide C.Apply, C.EndPulseAttempt, C.Disarmed, C.ExecuteStopVector, C.StartedStop, SameStops;
    if !t.phase.Closed? {
      var u := C.Apply(C.EndPulseAttempt(C.Disarmed(t, trigger), C.StopDominated), S.StopTriggered(trigger));
      DominatedKeepsStops(t, trigger);
      SameStopsTransitive(c, t, u);
      ExecuteMoves(c, u, env);
      assert C.RequestStop(t, trigger, env) == if u.pulseMayHaveReachedFc then C.ExecuteStopVector(u, env) else u;
    }
  }

  lemma SameStopsTransitive(c: C.Controller, t: C.Controller, u: C.Controller)
    requires SameStops(c, t) && SameStops(t, u)
    ensures SameStops(c, u)
  {
  }

  lemma DominatedKeepsStops(t: C.Controller, trigger: S.StopReason)
    ensures
      var u := C.Apply(C.EndPulseAttempt(C.Disarmed(t, trigger), C.StopDominated), S.StopTriggered(trigger));
      SameStops(t, u) && u.pulseAttemptCounter == t.pulseAttemptCounter
  {
    hide S.MotorTestTransition, S.Locking;
  }

  lemma TeardownMoves(c: C.Controller, t: C.Controller, env: C.StopEnv)
    requires SameStops(c, t) && t.pulseAttemptCounter == c.pulseAttemptCounter
    ensures StopMoves(c, C.BeginTeardown(t, env), env)
  {
    hide C.ExecuteStopVector, C.StartedStop;
    ExecuteMoves(c, C.EndPulseAttempt(t.(closing := true, watchdog := None), C.StopDominated).(phase := C.Closing),
                 env);
  }

  lemma EndKeepsStops(c: C.Controller, o: C.PulseOutcome)
    ensures SameStops(c, C.EndPulseAttempt(c, o))
            && C.EndPulseAttempt(c, o).pulseAttemptCounter == c.pulseAttemptCounter
  {
  }

  lemma ToldMoves(c: C.Controller, t: C.Controller, kind: S.EventKind, env: C.StopEnv)
    requires StopMoves(c, t, env)
    ensures StopMoves(c, C.Apply(t, kind), env)
  {
    hide S.MotorTestTransition, C.StartedStop;
  }

  lemma FailureMoves(c: C.Controller, o: C.PulseOutcome, fault: S.FaultReason, env: C.StopEnv)
    ensures StopMoves(c, C.FailPulseClosed(c, o, fault, env), env)
  {
    hide S.MotorTestTransition, C.RequestStop, C.StartedStop, C.Apply, SameStops, StopMoves;
    EndKeepsStops(c, o);
    RequestMoves(c, C.EndPulseAttempt(c, o), S.StopButtonPressed, env);
    ToldMoves(c, C.RequestStop(C.EndPulseAttempt(c, o), S.StopButtonPressed, env), S.FaultRaised(fault), env);
  }

  /** A pulse is started with no stop, or a stop without a pulse. */
  ghost predicate ActMoves(c: C.Controller, t: C.Controller, env: C.StopEnv) {
    || StopMoves(c, t, env)
    || (SameStops(c, t) && t.pulseAttemptCounter == c.pulseAttemptCounter + 1 && t.pulseMayHaveReachedFc)
  }

  lemma PulseMoves(c: C.Controller, motorNumber: int, g: C.Gates, env: C.StopEnv)
    ensures ActMoves(c, C.DoPulse(c, motorNumber, g, env), env)
  {
    hide S.MotorTestTransition, C.RequestStop, C.PulseVerdictFor, C.StartedStop;
    RequestMoves(c, c, S.MotorSelectionChanged, env);
  }

  lemma EveryActMoves(c: C.Controller, e: C.Event, env: C.StopEnv)
    requires !e.StopSettled?
    ensures ActMoves(c, C.Act(c, e, env), env)
  {
    hide S.MotorTestTransition, C.DoPulse, C.RequestStop, C.FailPulseClosed, C.BeginTeardown, C.StartedStop;
    match e {
      case PulseMotor(motorNumber, gates) => PulseMoves(c, motorNumber, gates, env);
      case StopRequested(trigger) => RequestMoves(c, c, trigger, env);
      case WatchdogFired => RequestMoves(c, c.(watchdog := None), S.PulseDeadlineElapsed, env);
      case PulseSettled(attempt, ok, leaseLive) =>
        FailureMoves(c, C.RequestFailed, S.WriteOutcomeUnknown, env);
        FailureMoves(c, C.AuthorityChanged, S.SessionChanged, env);
      case Close => TeardownMoves(c, c, env);
      case SessionInvalidated(reason) =>
        TeardownMoves(c, C.Apply(c.(closing := true), S.FaultRaised(reason)).(ready := false), env);
    }
  }

  /** The same for whole events, after which no undispatched stop is left. */
  ghost predicate StepMoves(c: C.Controller, d: C.Controller, env: C.StopEnv) {
    && d.stopThrew == c.stopThrew && (c.stopSealed ==> d.stopSealed)
    && (c.pulseMayHaveReachedFc ==> d.pulseMayHaveReachedFc)
    && (d.pulseAttemptCounter > c.pulseAttemptCounter ==> d.pulseMayHaveReachedFc && d.stopCommands == c.stopCommands)
    && (if d.stopCommands > c.stopCommands then
          && c.stopInFlight.None? && env.leaseLive
          && d.stopInFlight == Some(C.Dispatched(env.ambiguous)) && d.lastStopOutcome == c.lastStopOutcome
        else
          && d.stopInFlight == c.stopInFlight
          && (d.lastStopOutcome == c.lastStopOutcome
              || (c.stopInFlight.None? && d.lastStopOutcome != Some(C.Acknowledged))))
  }

  lemma UndispatchedSettles(u: C.Controller, o: C.StopOutcome)
    requires u.stopInFlight == Some(C.Decided(o))
    ensures var d := C.DoStopSettled(u, C.FrameResolved, true);
            && d.stopInFlight.None? && d.lastStopOutcome == Some(o) && d.stopThrew == u.stopThrew
            && (u.stopSealed ==> d.stopSealed) && T.SameCourse(u, d)
  {
    hide C.Sealed;
    T.SettleFrame(u, C.FrameResolved, true);
    T.SealedWhenUnsafe(u.(stopInFlight := None, lastStopOutcome := Some(o)), o);
  }

  lemma EveryStepMoves(c: C.Controller, e: C.Event, w: C.World)
    requires C.Inv(c) && !e.StopSettled?
    ensures StepMoves(c, C.Step(c, e, w), w.stop)
  {
    hide C.Act, C.DoTeardown, C.DoStopSettled, C.PulseOk, C.OncePulsed, C.PhasesOk, T.SameCourse;
    var u := C.Act(c, e, w.stop);
    EveryActMoves(c, e, w.stop);
    T.TeardownFrame(T.BeforeTeardown(u), w.teardown);
    if u.stopInFlight.Some? && u.stopInFlight.value.Decided? {
      UndispatchedSettles(u, u.stopInFlight.value.outcome);
      CourseFields(u, T.BeforeTeardown(u));
    }
  }

  lemma CourseFields(c: C.Controller, d: C.Controller)
    requires T.SameCourse(c, d)
    ensures d.stopCommands == c.stopCommands && d.pulseAttemptCounter == c.pulseAttemptCounter
    ensures d.pulseMayHaveReachedFc == c.pulseMayHaveReachedFc
  {
  }

  /** What a dispatched stop leaves behind when it ends, the unexpected exception apart. */
  ghost predicate StopEnds(c: C.Controller, d: C.Controller, o: C.StopOutcome) {
    && d.stopInFlight.None? && d.stopThrew == c.stopThrew && d.lastStopOutcome == Some(o)
    && d.stopCommands == c.stopCommands && d.pulseAttemptCounter == c.pulseAttemptCounter
    && d.pulseMayHaveReachedFc == c.pulseMayHaveReachedFc
    && (c.stopSealed || C.Unsafe(c.pulseMayHaveReachedFc, o) ==> d.stopSealed)
  }

  lemma SettledEnds(c: C.Controller, o: C.StopOutcome)
    ensures StopEnds(c, C.SettledWith(c, o), o)
  {
    hide C.Sealed, C.Unsafe;
    T.SealedWhenUnsafe(c.(stopInFlight := None, lastStopOutcome := Some(o)), o);
    T.SettledWithFrame(c, o);
  }

  lemma FinishedEnds(c: C.Controller, d: C.Controller, o: C.StopOutcome, t: C.TeardownEnv)
    requires StopEnds(c, d, o)
    ensures StopEnds(c, C.DoTeardown(d, t), o)
  {
    hide C.DoTeardown, C.Unsafe;
    T.TeardownFrame(d, t);
  }

  lemma DispatchedSettles(c: C.Controller, ambiguous: bool, result: C.FrameResult, leaseLive: bool, w: C.World)
    requires c.stopInFlight == Some(C.Dispatched(ambiguous)) && !result.UnexpectedException?
    ensures StopEnds(c, C.Step(c, C.StopSettled(result, leaseLive), w), C.FrameOutcome(ambiguous, result, leaseLive))
  {
    hide C.SettledWith, C.DoTeardown, C.FrameOutcome, C.Unsafe;
    var o := C.FrameOutcome(ambiguous, result, leaseLive);
    SettledEnds(c, o);
    FinishedEnds(c, C.SettledWith(c, o), o, w.teardown);
  }

  // ---------------------------------------------------------------- what links the two

  predicate ResolvedIn(s: M.Engine, id: Option<M.RequestId>) {
    id.Some? && id.value in s.outcomes && s.outcomes[id.value].Resolved?
  }

  /** The pulse's request is on record as a motor command. */
  ghost predicate PulseOnRecord(c: C.Controller, book: Order.Book, pulseId: Option<M.RequestId>) {
    pulseId.Some? ==>
      && c.pulseMayHaveReachedFc && pulseId.value in book
      && book[pulseId.value].command == MSP_SET_MOTOR && book[pulseId.value].wireFormat.V1?
  }

  /** A running stop has a request of its own; an acknowledged one had it answered, and did not race the pulse. */
  ghost predicate StopOnRecord(s: M.Engine, c: C.Controller, stopId: Option<M.RequestId>, raced: bool) {
    && !c.stopThrew
    && (c.stopInFlight.Some? ==> stopId.Some? && stopId.value < s.nextId)
    && (raced ==> c.pulseMayHaveReachedFc && (c.stopInFlight == Some(C.Dispatched(true)) || c.stopSealed))
    && (c.stopInFlight.None? && c.lastStopOutcome == Some(C.Acknowledged) ==> ResolvedIn(s, stopId) && !raced)
  }

  ghost predicate Linked(p: Setup, x: Joint) {
    && PulseOnRecord(Control(p, x), Order.Submitted(p.env, x.wire), x.pulseId)
    && StopOnRecord(Client(p, x), Control(p, x), x.stopId, x.raced)
  }

  /** The same, when every reaction has run. */
  ghost predicate AtRest(p: Setup, x: Joint) {
    Linked(p, x) && (Control(p, x).stopInFlight.Some? ==> !Settled(p, x, x.stopId))
  }

  lemma StartIsAtRest(p: Setup, wire: seq<M.Event>)
    ensures AtRest(p, Start(wire))
  {
    hide M.Run;
  }

  lemma WireStep(p: Setup, x: Joint, e: M.Event)
    ensures Client(p, Sent(x, e)) == M.Step(p.env, Client(p, x), e)
    ensures Inv.Inv(Client(p, x)) && Inv.Inv(Client(p, Sent(x, e)))
    ensures History.Grew(Client(p, x), Client(p, Sent(x, e)))
  {
    hide M.Step, Inv.Inv, History.Grew;
    assert (x.wire + [e])[..|x.wire|] == x.wire;
    Runs.ReachableInv(p.env, x.wire);
    Runs.ReachableInv(p.env, x.wire + [e]);
    History.StepGrew(p.env, Client(p, x), e);
  }

  lemma ControlStep(p: Setup, x: Joint, e: C.Event, u: Surroundings)
    ensures Control(p, Noted(p, x, e, u)) == C.Step(Control(p, x), e, WorldOf(p, x, u))
    ensures C.Inv(Control(p, x))
  {
    hide C.Step, C.Inv, WorldOf;
    assert Noted(p, x, e, u).control[..|x.control|] == x.control;
    C.ReadyInv(p.authority);
    C.RunKeepsInv(C.ReadySession(p.authority), x.control);
  }

  /** What the client does on its own breaks no link and changes no answer. */
  lemma SentIsLinked(p: Setup, x: Joint, e: M.Event)
    requires Linked(p, x)
    ensures Linked(p, Sent(x, e))
    ensures Settled(p, x, x.stopId) ==>
              Settled(p, Sent(x, e), x.stopId) && (Answered(p, x, x.stopId) <==> Answered(p, Sent(x, e), x.stopId))
  {
    hide M.Run, C.Run, Order.Submitted, Inv.Inv;
    WireStep(p, x, e);
    if x.pulseId.Some? {
      BookKept(p, x, e, x.pulseId.value);
    }
  }

  lemma BookKept(p: Setup, x: Joint, e: M.Event, id: M.RequestId)
    requires id in Order.Submitted(p.env, x.wire)
    ensures id in Order.Submitted(p.env, Sent(x, e).wire)
    ensures Order.Submitted(p.env, Sent(x, e).wire)[id] == Order.Submitted(p.env, x.wire)[id]
  {
    hide Order.Submitted, M.Run;
    assert Sent(x, e).wire[..|x.wire|] == x.wire;
    Order.WritesFollowSubmissions(p.env, Sent(x, e).wire);
  }

  /** A request made through the lease is on record as the motor command it is. */
  lemma PulseIsOnRecord(p: Setup, x: Joint, payload: seq<byte>)
    ensures
      var s := Client(p, x);
      var book := Order.Submitted(p.env, Sent(x, M.LeaseRequest(p.token, MotorCommand(payload))).wire);
      s.nextId in book && book[s.nextId] == MotorCommand(payload)
  {
    hide M.Run, M.Step, Inv.Inv, History.Grew;
    var e := M.LeaseRequest(p.token, MotorCommand(payload));
    assert Sent(x, e).wire[..|x.wire|] == x.wire;
    WireStep(p, x, e);
    LeaseRequestTakesAnId(p.env, Client(p, x), p.token, MotorCommand(payload));
  }

  lemma LeaseRequestTakesAnId(env: M.Env, s: M.Engine, token: M.Token, spec: M.RequestSpec)
    requires Inv.Inv(s)
    ensures s.nextId < M.Step(env, s, M.LeaseRequest(token, spec)).nextId
  {
    hide Inv.Inv, Inv.Mid, Inv.Quiet, M.DoLeaseRequest, M.Drain, History.Grew;
    Inv.InvIsMid(s);
    LeaseRequestGives(env, s, token, spec);
    var e := M.LeaseRequest(token, spec);
    assert Inv.Mid(M.Act(env, s, e), None) && Inv.Quiet(M.Act(env, s, e)) by { Runs.ActIsCalm(env, s, e); }
    History.DrainShape(M.Act(env, s, e));
  }

  lemma LeaseRequestGives(env: M.Env, s: M.Engine, token: M.Token, spec: M.RequestSpec)
    ensures s.nextId < M.DoLeaseRequest(env, s, token, spec).nextId
  {
    hide M.Pump, M.Settle;
    var t := s.(nextId := s.nextId + 1);
    var q := t.(queue := s.queue + [M.PendingRequest(s.nextId, spec, M.Leased(token))]);
    History.PumpGrew(env, q);
    forall o: M.Outcome, origin: M.Origin ensures M.Settle(t, s.nextId, origin, o).nextId == t.nextId {
      SettleKeepsNextId(t, s.nextId, origin, o);
    }
  }

  lemma SettleKeepsNextId(s: M.Engine, id: M.RequestId, origin: M.Origin, o: M.Outcome)
    ensures M.Settle(s, id, origin, o).nextId == s.nextId
  {
  }

  /** A stop through the live lease is a request of the client: a new one, or the registered one it joins. */
  lemma StopHasAnId(p: Setup, x: Joint, payload: seq<byte>)
    requires Live(p, x)
    ensures
      var s := Client(p, x);
      var t := Client(p, Sent(x, M.EmergencyStop(p.token, MotorCommand(payload))));
      s.stopRegistered.GetOr(s.nextId) < t.nextId
  {
    hide M.Run, M.Step, Inv.LogOk, Inv.CallbacksOk, Inv.ProbeOk;
    var s := Client(p, x);
    var e := M.EmergencyStop(p.token, MotorCommand(payload));
    WireStep(p, x, e);
    var t := Client(p, Sent(x, e));
    var id := s.stopRegistered.GetOr(s.nextId);
    if s.stopRegistered.Some? {
      assert Inv.Places(s, id) + Inv.InSlot(None, id) >= 1;
    } else {
      Stops.AcceptedStopIsFirst(p.env, s, p.token, MotorCommand(payload));
      assert Inv.Places(t, id) + Inv.InSlot(None, id) >= 1;
    }
  }

  /** The active request of a pulse is a motor command, so a stop looks like it. */
  lemma RacingStopIsAmbiguous(p: Setup, x: Joint, payload: seq<byte>)
    requires Linked(p, x) && x.pulseId.Some? && Inv.IsActive(Client(p, x), x.pulseId.value) == 1
    ensures M.LooksAlike(Client(p, x), MotorCommand(payload))
  {
    hide M.Run, C.Run, Order.Submitted, Order.WritesOk, Order.QueueOk;
    Order.SubmittedLine(p.env, x.wire);
  }

  // ---------------------------------------------------------------- one event of the controller

  /** No stop is started, whatever else the event does. */
  lemma QuietKeepsRecord(s: M.Engine, c: C.Controller, d: C.Controller, env: C.StopEnv, book: Order.Book,
                         pulseId: Option<M.RequestId>, stopId: Option<M.RequestId>, raced: bool)
    requires PulseOnRecord(c, book, pulseId) && StopOnRecord(s, c, stopId, raced)
    requires StepMoves(c, d, env) && d.stopCommands <= c.stopCommands
    ensures PulseOnRecord(d, book, pulseId) && StopOnRecord(s, d, stopId, raced)
  {
  }

  lemma StartedKeepsRecord(s: M.Engine, t: M.Engine, c: C.Controller, d: C.Controller, env: C.StopEnv,
                           oldId: Option<M.RequestId>, oldRaced: bool, id: M.RequestId, raced: bool)
    requires StopOnRecord(s, c, oldId, oldRaced) && StepMoves(c, d, env) && d.stopCommands > c.stopCommands
    requires id < t.nextId && (raced ==> env.ambiguous && c.pulseMayHaveReachedFc)
    ensures StopOnRecord(t, d, Some(id), raced)
  {
  }

  lemma EndedKeepsRecord(s: M.Engine, c: C.Controller, d: C.Controller, ambiguous: bool, leaseLive: bool,
                         stopId: Option<M.RequestId>, raced: bool)
    requires C.Inv(c) && c.stopInFlight == Some(C.Dispatched(ambiguous)) && StopOnRecord(s, c, stopId, raced)
    requires var result := if ResolvedIn(s, stopId) then C.FrameResolved else C.FrameRejected;
             StopEnds(c, d, C.FrameOutcome(ambiguous, result, leaseLive))
    ensures StopOnRecord(s, d, stopId, raced) && d.stopInFlight.None?
  {
    hide C.PulseOk, C.OncePulsed, C.PhasesOk;
  }

  /** The controller's own submission, as the client takes it. */
  lemma PulseIsLinked(p: Setup, x: Joint, y: Joint, payload: seq<byte>)
    requires Linked(p, y) && y.wire == x.wire && Control(p, y).pulseMayHaveReachedFc
    ensures
      var z := Sent(y, M.LeaseRequest(p.token, MotorCommand(payload)));
      Linked(p, z.(pulseId := Some(Client(p, x).nextId), pulseOpen := true))
  {
    hide M.Run, C.Run, Order.Submitted;
    SentIsLinked(p, y, M.LeaseRequest(p.token, MotorCommand(payload)));
    PulseIsOnRecord(p, y, payload);
  }

  lemma StopIsLinked(p: Setup, x: Joint, e: C.Event, u: Surroundings)
    requires Linked(p, x) && !e.StopSettled?
    requires Control(p, Noted(p, x, e, u)).stopCommands > Control(p, x).stopCommands
    ensures
      var s := Client(p, x);
      var raced := x.pulseId.Some? && Inv.IsActive(s, x.pulseId.value) == 1;
      var z := Sent(Noted(p, x, e, u), M.EmergencyStop(p.token, MotorCommand(u.stopPayload)));
      Linked(p, z.(stopId := Some(s.stopRegistered.GetOr(s.nextId)), raced := raced))
  {
    hide M.Run, C.Run, C.Step, C.Inv, Order.Submitted, StopOnRecord, StepMoves, M.LooksAlike, M.ReleaseVerdict;
    var c, d := Control(p, x), Control(p, Noted(p, x, e, u));
    var w := WorldOf(p, x, u);
    ControlStep(p, x, e, u);
    EveryStepMoves(c, e, w);
    var s := Client(p, x);
    var raced := x.pulseId.Some? && Inv.IsActive(s, x.pulseId.value) == 1;
    if raced { RacingStopIsAmbiguous(p, x, u.stopPayload); }
    StartedMoves(c, d, w.stop);
    StopHasAnId(p, x, u.stopPayload);
    var stop := M.EmergencyStop(p.token, MotorCommand(u.stopPayload));
    StartedKeepsRecord(s, Client(p, Sent(x, stop)), c, d, w.stop, x.stopId, x.raced, s.stopRegistered.GetOr(s.nextId),
                       raced);
    if x.pulseId.Some? { BookKept(p, x, stop, x.pulseId.value); }
  }

  lemma StartedMoves(c: C.Controller, d: C.Controller, env: C.StopEnv)
    requires StepMoves(c, d, env) && d.stopCommands > c.stopCommands
    ensures env.leaseLive && (c.pulseMayHaveReachedFc ==> d.pulseMayHaveReachedFc)
  {
  }

  lemma NotedIsLinked(p: Setup, x: Joint, e: C.Event, u: Surroundings)
    requires Linked(p, x) && !e.StopSettled?
    requires Control(p, Noted(p, x, e, u)).stopCommands <= Control(p, x).stopCommands
    ensures Linked(p, Noted(p, x, e, u))
  {
    hide M.Run, C.Run, C.Step, C.Inv, Order.Submitted, StopOnRecord, PulseOnRecord, StepMoves, WorldOf;
    ControlStep(p, x, e, u);
    EveryStepMoves(Control(p, x), e, WorldOf(p, x, u));
    QuietKeepsRecord(Client(p, x), Control(p, x), Control(p, Noted(p, x, e, u)), WorldOf(p, x, u).stop,
                     Order.Submitted(p.env, x.wire), x.pulseId, x.stopId, x.raced);
  }

  lemma SubmissionIsLinked(p: Setup, x: Joint, e: C.Event, u: Surroundings)
    requires Linked(p, x) && !e.StopSettled?
    ensures var y := Noted(p, x, e, u); Linked(p, Submits(p, x, y, Control(p, x), Control(p, y), u))
  {
    hide M.Run, C.Run, C.Step, C.Inv, Order.Submitted, Linked, WorldOf;
    var y := Noted(p, x, e, u);
    var c, d := Control(p, x), Control(p, y);
    ControlStep(p, x, e, u);
    EveryStepMoves(c, e, WorldOf(p, x, u));
    if d.pulseAttemptCounter > c.pulseAttemptCounter {
      NotedIsLinked(p, x, e, u);
      PulseIsLinked(p, x, y, u.pulsePayload);
    } else if d.stopCommands > c.stopCommands {
      StopIsLinked(p, x, e, u);
    } else {
      NotedIsLinked(p, x, e, u);
    }
  }

  lemma TellIsLinked(p: Setup, x: Joint, e: C.Event, u: Surroundings)
    requires Linked(p, x) && !e.StopSettled?
    ensures Linked(p, Tell(p, x, e, u))
  {
    hide Linked, Control, Noted, Submits;
    SubmissionIsLinked(p, x, e, u);
    SentIsLinked(p, Submits(p, x, Noted(p, x, e, u), Control(p, x), Control(p, Noted(p, x, e, u)), u),
                 M.ReleaseLease(p.token));
  }

  // ---------------------------------------------------------------- the reactions

  lemma FailedClosedKeeps(p: Setup, x: Joint)
    requires Linked(p, x) && Settled(p, x, x.stopId)
    ensures
      var y := FailedClosed(p, x);
      && Linked(p, y) && Settled(p, y, y.stopId) && Control(p, y) == Control(p, x) && y.stopId == x.stopId
      && (Answered(p, y, y.stopId) <==> Answered(p, x, x.stopId))
  {
    hide M.Run, C.Run, Linked;
    SentIsLinked(p, x, M.FaultByToken(p.token));
  }

  /** The end of a stop makes no request. */
  lemma ToldTheEnd(p: Setup, x: Joint, result: C.FrameResult, leaseLive: bool, u: Surroundings)
    requires Linked(p, x) && Settled(p, x, x.stopId) && Control(p, x).stopInFlight.Some?
    requires result == if Answered(p, x, x.stopId) then C.FrameResolved else C.FrameRejected
    ensures var z := Tell(p, x, C.StopSettled(result, leaseLive), u);
            Linked(p, z) && Control(p, z).stopInFlight.None?
  {
    hide M.Run, C.Run, C.Step, C.PulseOk, C.OncePulsed, C.PhasesOk, Order.Submitted, WorldOf, C.Unsafe, C.FrameOutcome;
    var e := C.StopSettled(result, leaseLive);
    var y := Noted(p, x, e, u);
    var c := Control(p, x);
    ControlStep(p, x, e, u);
    var ambiguous := c.stopInFlight.value.ambiguous;
    DispatchedSettles(c, ambiguous, result, leaseLive, WorldOf(p, x, u));
    EndedKeepsRecord(Client(p, x), c, Control(p, y), ambiguous, leaseLive, x.stopId, x.raced);
    assert Linked(p, y);
    SentIsLinked(p, y, M.ReleaseLease(p.token));
  }

  lemma ReactRests(p: Setup, x: Joint, u: Surroundings)
    requires Linked(p, x)
    ensures AtRest(p, React(p, x, u))
  {
    hide M.Run, C.Run, Linked, Tell, FailedClosed, Settled, Answered;
    if x.pulseOpen && Settled(p, x, x.pulseId) {
      OpenAside(p, x);
      TellIsLinked(p, x.(pulseOpen := false),
                   C.PulseSettled(Control(p, x).pulse.attemptId, Answered(p, x, x.pulseId), Live(p, x)), u);
    }
    var y := PulseReaction(p, x, u);
    if Control(p, y).stopInFlight.Some? && Settled(p, y, y.stopId) {
      FailedClosedKeeps(p, y);
      ToldTheEnd(p, FailedClosed(p, y), if Answered(p, y, y.stopId) then C.FrameResolved else C.FrameRejected,
                 Live(p, y), u);
    }
  }

  lemma OpenAside(p: Setup, x: Joint)
    requires Linked(p, x)
    ensures Linked(p, x.(pulseOpen := false))
  {
  }

  lemma StepRests(p: Setup, x: Joint, e: Event, u: Surroundings)
    requires AtRest(p, x)
    ensures AtRest(p, Step(p, x, e, u))
  {
    hide M.Run, C.Run, Linked, Tell, React, Settled, Live;
    match e {
      case Outside(wire) =>
        SentIsLinked(p, x, wire);
        ReactRests(p, Sent(x, wire), u);
      case Trigger(control) =>
        if External(control) {
          TellIsLinked(p, x, Seen(p, x, control), u);
          ReactRests(p, Tell(p, x, Seen(p, x, control), u), u);
        }
    }
  }

  lemma {:induction false} RunRests(p: Setup, wire: seq<M.Event>, events: seq<(Event, Surroundings)>)
    ensures AtRest(p, Run(p, Start(wire), events))
    decreases |events|
  {
    hide AtRest, Step;
    if events == [] {
      StartIsAtRest(p, wire);
    } else {
      var last := |events| - 1;
      RunRests(p, wire, events[..last]);
      StepRests(p, Run(p, Start(wire), events[..last]), events[last].0, events[last].1);
    }
  }

  // ---------------------------------------------------------------- what the two guarantee together

  /**
   * NO STOP HANGS BETWEEN THE TWO: over every joint run, while the controller waits for a stop, that stop is an
   * unsettled request of the client, and a write or a timer of the client's active request is still to come.
   */
  lemma RunningStopsAreOwed(p: Setup, wire: seq<M.Event>, events: seq<(Event, Surroundings)>)
    requires Control(p, Run(p, Start(wire), events)).stopInFlight.Some?
    ensures
      var x := Run(p, Start(wire), events);
      var s := Client(p, x);
      && x.stopId.Some? && x.stopId.value < s.nextId && x.stopId.value !in s.outcomes
      && s.active.Some?
      && (|| (s.active.value.phase.Writing? && s.active.value.id in s.writing)
          || (s.active.value.phase.AwaitingResponse? && s.active.value.id in s.timers))
  {
    hide M.Run, C.Run, Run, Order.Submitted;
    RunRests(p, wire, events);
    var x := Run(p, Start(wire), events);
    Theorems.NothingHangs(p.env, x.wire, x.stopId.value);
  }

  /**
   * AN ACKNOWLEDGED STOP WAS ANSWERED: over every joint run, a stop that is over and called acknowledged is a request
   * of the client that a frame of its own command resolved, and was submitted when the pulse's request was not the
   * client's active one.
   */
  lemma AcknowledgedStopsWereAnswered(p: Setup, wire: seq<M.Event>, events: seq<(Event, Surroundings)>)
    requires var c := Control(p, Run(p, Start(wire), events));
             c.stopInFlight.None? && c.lastStopOutcome == Some(C.Acknowledged)
    ensures
      var x := Run(p, Start(wire), events);
      var book := Order.Submitted(p.env, x.wire);
      && !x.raced && Answered(p, x, x.stopId) && x.stopId.value in book
      && Order.Answers(book[x.stopId.value], Client(p, x).outcomes[x.stopId.value].frame)
  {
    hide M.Run, C.Run, Run, Order.Submitted;
    RunRests(p, wire, events);
    var x := Run(p, Start(wire), events);
    Order.ResolvedByItsAnswer(p.env, x.wire, x.stopId.value);
  }

  /**
   * TELEMETRY RESUMES BEHIND AN ANSWER: over every joint run, the tokens are given back only by an unsealed session,
   * and after a pulse only if its last stop was answered and did not race the pulse's request. What a seal by
   * exception makes possible for the controller alone does not happen on this client.
   */
  lemma TelemetryResumesBehindAnAnswer(p: Setup, wire: seq<M.Event>, events: seq<(Event, Surroundings)>)
    requires Control(p, Run(p, Start(wire), events)).telemetryReleased
    ensures
      var x := Run(p, Start(wire), events);
      && !Control(p, x).stopSealed
      && (x.pulseId.Some? ==> !x.raced && Answered(p, x, x.stopId))
  {
    hide M.Run, C.Run, Run, Order.Submitted, C.PulseOk, C.OncePulsed;
    RunRests(p, wire, events);
    ControlStep(p, Run(p, Start(wire), events), C.Close, Surroundings(C.Missing, [], [], false, false));
  }

  /** A stop that raced the pulse's request runs as ambiguous or ends sealed, and is never called acknowledged. */
  lemma RacingStopsAreNeverConfirmed(p: Setup, wire: seq<M.Event>, events: seq<(Event, Surroundings)>)
    requires Run(p, Start(wire), events).raced
    ensures
      var c := Control(p, Run(p, Start(wire), events));
      && !c.telemetryReleased
      && (c.stopInFlight == Some(C.Dispatched(true))
          || (c.stopSealed && c.stopInFlight.None? && c.lastStopOutcome != Some(C.Acknowledged)))
  {
    hide M.Run, C.Run, Run, Order.Submitted, C.PulseOk, C.OncePulsed;
    RunRests(p, wire, events);
    ControlStep(p, Run(p, Start(wire), events), C.Close, Surroundings(C.Missing, [], [], false, false));
  }

  // ---------------------------------------------------------------- such a race, concretely

  /** A pulse, and a stop before anything has been heard of it, on a transport that takes the pulse's write. */
  const RACE: seq<Event> := [Trigger(C.PulseMotor(1, T.PERFECT_GATES)), Trigger(C.StopRequested(S.TouchReleased))]

  const PLAIN := Surroundings(C.Supported, [], [], false, false)

  const LEASED := M.INITIAL.(token := Some(0), leaseEpoch := Some(0), nextToken := 1)

  lemma LeaseTaken(env: M.Env)
    ensures M.Run(env, M.INITIAL, [M.Acquire]) == LEASED
  {
    assert [M.Acquire][..0] == [];
    assert M.Run(env, M.INITIAL, []) == M.INITIAL;
  }

  lemma MotorCommandEncodes(payload: seq<byte>)
    requires payload == []
    ensures MotorCommand(payload).Encodable()
  {
  }

  lemma PulseWritten(env: M.Env)
    requires !env.writeThrows(0) && env.maxPending > 0
    ensures
      var t := M.Step(env, LEASED, M.LeaseRequest(0, MotorCommand([])));
      && t.active == Some(M.ActiveRequest(0, MSP_SET_MOTOR, ProtocolV1, M.Writing, M.Leased(0), false))
      && t.token == Some(0) && t.outcomes == map[] && t.nextId == 1
  {
    hide M.StartRequest, MotorCommand;
    var spec := MotorCommand([]);
    var r := M.PendingRequest(0, spec, M.Leased(0));
    var q := LEASED.(nextId := 1, queue := [r]);
    assert LEASED.queue + [r] == [r] && q.queue[1..] == [];
    assert M.DoLeaseRequest(env, LEASED, 0, spec) == M.Pump(env, q) == M.StartRequest(env, q.(queue := []), r);
    WriteBegins(env, q.(queue := []), r);
  }

  lemma WriteBegins(env: M.Env, s: M.Engine, r: M.PendingRequest)
    requires !env.writeThrows(r.id) && r.spec == MotorCommand([])
    ensures
      var t := M.StartRequest(env, s, r);
      && t == s.(active := t.active, writes := t.writes, writing := t.writing)
      && t.active == Some(M.ActiveRequest(r.id, MSP_SET_MOTOR, ProtocolV1, M.Writing, r.origin, false))
  {
    hide M.Pump;
    MotorCommandEncodes([]);
  }

  lemma PulseStarted(a: S.Authority, w: C.World)
    ensures C.Step(C.ReadySession(a), C.PulseMotor(1, T.PERFECT_GATES), w) == T.Pulsing(a)
  {
    hide C.EvaluateActivation;
    C.AcceptedExactlyWhen(C.ReadySession(a), 1, T.PERFECT_GATES);
  }

  lemma StopStarted(a: S.Authority, w: C.World)
    requires w.stop == C.StopEnv(C.Supported, true, true)
    ensures C.Step(T.Pulsing(a), C.StopRequested(S.TouchReleased), w).stopCommands == 1
    ensures C.Step(T.Pulsing(a), C.StopRequested(S.TouchReleased), w).pulseAttemptCounter == 1
    ensures C.Step(T.Pulsing(a), C.StopRequested(S.TouchReleased), w).stopInFlight.Some?
    ensures !C.Step(T.Pulsing(a), C.StopRequested(S.TouchReleased), w).phase.Closed?
  {
  }

  /** What the client and the controller are once the pulse has been written. */
  ghost predicate PulseUnderWay(p: Setup, x: Joint) {
    var s := Client(p, x);
    && s.active.Some? && s.active.value.id == 0 && s.active.value.command == MSP_SET_MOTOR
    && s.active.value.protocol.ProtocolV1?
    && s.token == Some(0) && s.outcomes == map[]
    && Control(p, x) == T.Pulsing(p.authority)
    && x.pulseId == Some(0) && x.stopId.None?
  }

  lemma PulseGetsUnderWay(p: Setup)
    requires p.token == 0 && !p.env.writeThrows(0) && p.env.maxPending > 0
    ensures PulseUnderWay(p, Step(p, Start([M.Acquire]), RACE[0], PLAIN))
  {
    hide M.Run, C.Run, C.Step, M.Step, M.ReleaseVerdict, History.Grew, Inv.Inv;
    var x := Start([M.Acquire]);
    LeaseTaken(p.env);
    var e := C.PulseMotor(1, T.PERFECT_GATES);
    assert Seen(p, x, e) == e;
    ControlStep(p, x, e, PLAIN);
    NothingRun(p, x);
    PulseStarted(p.authority, WorldOf(p, x, PLAIN));
    WireStep(p, Noted(p, x, e, PLAIN), M.LeaseRequest(0, MotorCommand([])));
    PulseWritten(p.env);
  }

  lemma NothingRun(p: Setup, x: Joint)
    requires x.control == []
    ensures Control(p, x) == C.ReadySession(p.authority)
  {
  }

  lemma StopRaces(p: Setup, x: Joint)
    requires p.token == 0 && PulseUnderWay(p, x)
    ensures Step(p, x, RACE[1], PLAIN).raced
  {
    hide M.Run, C.Run, C.Step, M.Step, M.ReleaseVerdict, WorldOf;
    var e := C.StopRequested(S.TouchReleased);
    assert WorldOf(p, x, PLAIN).stop == C.StopEnv(C.Supported, true, true) by { RacingWorld(p, x); }
    ControlStep(p, x, e, PLAIN);
    StopStarted(p.authority, WorldOf(p, x, PLAIN));
    var z := Tell(p, x, e, PLAIN);
    assert z.raced && Control(p, z).stopInFlight.Some? && Control(p, z).pulseAttemptCounter == 1;
    ReactionsKeepRaced(p, z);
  }

  lemma RacingWorld(p: Setup, x: Joint)
    requires p.token == 0 && PulseUnderWay(p, x)
    ensures WorldOf(p, x, PLAIN).stop == C.StopEnv(C.Supported, true, true)
  {
    hide M.Run, C.Run, M.ReleaseVerdict;
  }

  /** With a pulse on record and a stop under way, no event of the controller makes another request. */
  lemma NoFurtherRequest(p: Setup, x: Joint, e: C.Event, u: Surroundings)
    requires Control(p, x).stopInFlight.Some? && Control(p, x).pulseAttemptCounter == 1
    requires e.StopSettled? ==> !e.result.UnexpectedException?
    ensures Tell(p, x, e, u).raced == x.raced && Tell(p, x, e, u).stopId == x.stopId
    ensures !e.StopSettled? ==> Control(p, Tell(p, x, e, u)).stopInFlight.Some?
    ensures !e.StopSettled? ==> Control(p, Tell(p, x, e, u)).pulseAttemptCounter == 1
  {
    hide M.Run, C.Run, C.Step, C.PulseOk, C.PhasesOk, WorldOf, C.FrameOutcome, C.Unsafe;
    var c := Control(p, x);
    ControlStep(p, x, e, u);
    C.StepKeepsInv(c, e, WorldOf(p, x, u));
    if e.StopSettled? {
      DispatchedSettles(c, c.stopInFlight.value.ambiguous, e.result, e.leaseLive, WorldOf(p, x, u));
    } else {
      EveryStepMoves(c, e, WorldOf(p, x, u));
      OnePulseStays(c, C.Step(c, e, WorldOf(p, x, u)));
    }
  }

  lemma OnePulseStays(c: C.Controller, d: C.Controller)
    requires C.Inv(c) && C.Inv(d) && c.pulseAttemptCounter == 1
    requires c.pulseMayHaveReachedFc ==> d.pulseMayHaveReachedFc
    ensures d.pulseAttemptCounter == 1
  {
  }

  lemma ReactionsKeepRaced(p: Setup, z: Joint)
    requires z.raced && Control(p, z).stopInFlight.Some? && Control(p, z).pulseAttemptCounter == 1
    ensures React(p, z, PLAIN).raced
  {
    hide M.Run, C.Run, Tell, Settled, Answered, Live;
    if z.pulseOpen && Settled(p, z, z.pulseId) {
      NoFurtherRequest(p, z.(pulseOpen := false),
                       C.PulseSettled(Control(p, z).pulse.attemptId, Answered(p, z, z.pulseId), Live(p, z)), PLAIN);
    }
    var y := PulseReaction(p, z, PLAIN);
    if Control(p, y).stopInFlight.Some? && Settled(p, y, y.stopId) {
      NoFurtherRequest(p, FailedClosed(p, y),
                       C.StopSettled(if Answered(p, y, y.stopId) then C.FrameResolved else C.FrameRejected, Live(p, y)),
                       PLAIN);
    }
  }

  /** A stop can race its pulse: so it does whenever the transport takes the pulse's write. */
  lemma RacesHappen(p: Setup)
    requires p.token == 0 && !p.env.writeThrows(0) && p.env.maxPending > 0
    ensures Run(p, Start([M.Acquire]), [(RACE[0], PLAIN), (RACE[1], PLAIN)]).raced
  {
    hide Step, PulseUnderWay;
    var x := Start([M.Acquire]);
    var events := [(RACE[0], PLAIN), (RACE[1], PLAIN)];
    assert events[..1][..0] == [] && events[..2] == events && events[..1] == [events[0]];
    assert Run(p, x, events[..1]) == Step(p, x, RACE[0], PLAIN);
    PulseGetsUnderWay(p);
    StopRaces(p, Step(p, x, RACE[0], PLAIN));
  }
}
