/** Joint runs written out: a pulse, its answer, an acknowledged stop, and a clean close. */
module MotorTestJointRuns {
  import opened MspTypes
  import S = MotorTestStateMachine
  import C = MotorTestControllerModel
  import T = MotorTestControllerTheorems
  import M = MspClientModel
  import Inv = MspClientInvariants
  import History = MspClientHistory
  import opened MotorTestJoint

  const ANSWER := MspFrame(V1, Response, MSP_SET_MOTOR, 0, [])

  function Motor(id: M.RequestId, phase: M.Phase, origin: M.Origin): M.ActiveRequest {
    M.ActiveRequest(id, MSP_SET_MOTOR, ProtocolV1, phase, origin, false)
  }

  // ---------------------------------------------------------------- the client

  /** A client leased under token 0 with at most one request of command 214 open. */
  ghost predicate ClientAt(s: M.Engine, active: Option<M.ActiveRequest>, outcomes: map<M.RequestId, M.Outcome>,
                           registered: Option<M.RequestId>, nextId: nat)
  {
    && s == LEASED.(active := active, outcomes := outcomes, stopRegistered := registered, nextId := nextId,
                    writing := s.writing, timers := s.timers, writes := s.writes)
    && s.writing == (if active.Some? && active.value.phase.Writing? then {active.value.id} else {})
    && s.timers == (if active.Some? && active.value.phase.AwaitingResponse? then {active.value.id} else {})
  }

  lemma PulseGoesOut(env: M.Env)
    requires !env.writeThrows(0) && env.maxPending > 0
    ensures
      var t := M.Step(env, LEASED, M.LeaseRequest(0, MotorCommand([])));
      ClientAt(t, Some(Motor(0, M.Writing, M.Leased(0))), map[], None, 1)
  {
    hide M.StartRequest, MotorCommand;
    var spec := MotorCommand([]);
    var r := M.PendingRequest(0, spec, M.Leased(0));
    var q := LEASED.(nextId := 1, queue := [r]);
    assert LEASED.queue + [r] == [r] && q.queue[1..] == [];
    assert M.DoLeaseRequest(env, LEASED, 0, spec) == M.Pump(env, q) == M.StartRequest(env, q.(queue := []), r);
    WrittenNow(env, q.(queue := []), r);
  }

  lemma WrittenNow(env: M.Env, s: M.Engine, r: M.PendingRequest)
    requires !env.writeThrows(r.id) && r.spec == MotorCommand([])
    ensures
      var t := M.StartRequest(env, s, r);
      && t == s.(active := t.active, writes := t.writes, writing := s.writing + {r.id})
      && t.active == Some(Motor(r.id, M.Writing, r.origin))
  {
    hide M.Pump;
    MotorCommandEncodes([]);
  }

  lemma WriteSettles(env: M.Env, s: M.Engine, a: M.ActiveRequest, outcomes: map<M.RequestId, M.Outcome>,
                     registered: Option<M.RequestId>, nextId: nat)
    requires ClientAt(s, Some(a), outcomes, registered, nextId) && a.phase.Writing? && a.id !in outcomes
    requires !a.displacedByEmergencyStop
    ensures ClientAt(M.Step(env, s, M.WriteOk(a.id)), Some(a.(phase := M.AwaitingResponse)), outcomes, registered,
                     nextId)
  {
  }

  lemma AnswerSettles(env: M.Env, s: M.Engine, a: M.ActiveRequest, outcomes: map<M.RequestId, M.Outcome>,
                      registered: Option<M.RequestId>, nextId: nat)
    requires ClientAt(s, Some(a), outcomes, registered, nextId) && a.phase.AwaitingResponse? && a.id !in outcomes
    requires a.command == MSP_SET_MOTOR && a.protocol.ProtocolV1?
    requires (a.origin == M.Leased(0) && registered.None?) || (a.origin == M.Stop(0) && registered == Some(a.id))
    ensures ClientAt(M.Step(env, s, M.Frames([ANSWER])), None, outcomes[a.id := M.Resolved(ANSWER)], None, nextId)
  {
    var u := s.(timers := s.timers - {a.id}, outcomes := outcomes[a.id := M.Resolved(ANSWER)], active := None,
                jobs := [M.Job(a.id, a.origin, M.Resolved(ANSWER))]);
    assert M.DoFrame(env, s, ANSWER) == u;
    assert M.DoFrames(env, s, [ANSWER]) == u by {
      assert [ANSWER][1..] == [];
      assert M.DoFrames(env, u, []) == u;
    }
    assert u.jobs[1..] == [];
    assert M.Drain(u) == M.React(u.(jobs := []), u.jobs[0]);
  }

  lemma StopGoesOut(env: M.Env, s: M.Engine, outcomes: map<M.RequestId, M.Outcome>, nextId: nat)
    requires ClientAt(s, None, outcomes, None, nextId) && !env.writeThrows(nextId)
    ensures ClientAt(M.Step(env, s, M.EmergencyStop(0, MotorCommand([]))),
                     Some(Motor(nextId, M.Writing, M.Stop(0))), outcomes, Some(nextId), nextId + 1)
  {
    hide M.StartRequest, MotorCommand;
    var spec := MotorCommand([]);
    var r := M.PendingRequest(nextId, spec, M.Stop(0));
    var q := s.(nextId := nextId + 1, stopPending := Some(r), stopRegistered := Some(nextId));
    assert M.RegisterStop(s, 0, spec) == q;
    assert M.DoEmergencyStop(env, s, 0, spec) == M.StartRequest(env, q.(stopPending := None), r);
    WrittenNow(env, q.(stopPending := None), r);
  }

  // ---------------------------------------------------------------- the controller

  function PulseAnswered(a: S.Authority): C.Controller {
    T.Pulsing(a).(pulse := C.Pulse(1, 1, true, Some(C.PulseAcknowledged)), machine := S.PulsingState(a, true, true))
  }

  function Stopping(a: S.Authority): C.Controller {
    PulseAnswered(a).(
      pulseAttempt := None, watchdog := None, stopEpisodeId := 1, stopEpisodeAttemptId := Some(1),
      stopInFlight := Some(C.Dispatched(false)), stopCommands := 1,
      machine := S.StoppingState(a, S.Stopping(S.TouchReleased, true, S.ToReady, a, true)))
  }

  function Stopped(a: S.Authority): C.Controller {
    Stopping(a).(stopInFlight := None, lastStopOutcome := Some(C.Acknowledged))
  }

  lemma PulseIsAnswered(a: S.Authority, w: C.World)
    ensures C.Step(T.Pulsing(a), C.PulseSettled(1, true, true), w) == PulseAnswered(a)
  {
  }

  lemma StopIsSent(a: S.Authority, w: C.World)
    requires w.stop == C.StopEnv(C.Supported, true, false)
    ensures C.Step(PulseAnswered(a), C.StopRequested(S.TouchReleased), w) == Stopping(a)
  {
  }

  lemma StopIsAnswered(a: S.Authority, w: C.World)
    ensures C.Step(Stopping(a), C.StopSettled(C.FrameResolved, true), w) == Stopped(a)
  {
  }

  // ---------------------------------------------------------------- both together

  /** Where a run stands: the client, the controller, and the requests the controller waits for. */
  ghost predicate Standing(p: Setup, x: Joint, active: Option<M.ActiveRequest>, outcomes: map<M.RequestId, M.Outcome>,
                           registered: Option<M.RequestId>, nextId: nat, c: C.Controller)
  {
    && ClientAt(Client(p, x), active, outcomes, registered, nextId) && Control(p, x) == c
    && x.pulseId == Some(0) && !x.raced
  }

  /** What the client does while nothing the controller waits for settles. */
  lemma Unnoticed(p: Setup, x: Joint, e: M.Event, u: Surroundings)
    requires Foreign(p, e)
    requires !x.pulseOpen || !Settled(p, Sent(x, e), x.pulseId)
    requires Control(p, x).stopInFlight.None? || !Settled(p, Sent(x, e), x.stopId)
    ensures Step(p, x, Outside(e), u) == Sent(x, e)
  {
    hide M.Run, C.Run;
  }

  /** An event of the controller that makes no request and closes nothing. */
  lemma JustNoted(p: Setup, x: Joint, e: C.Event, u: Surroundings, d: C.Controller)
    requires C.Step(Control(p, x), e, WorldOf(p, x, u)) == d && d.phase == Control(p, x).phase
    requires d.pulseAttemptCounter == Control(p, x).pulseAttemptCounter && d.stopCommands == Control(p, x).stopCommands
    ensures Tell(p, x, e, u) == Noted(p, x, e, u) && Control(p, Noted(p, x, e, u)) == d
  {
    hide M.Run, C.Run, C.Step, WorldOf;
    ControlStep(p, x, e, u);
  }

  ghost predicate TakesEverything(p: Setup) {
    p.token == 0 && p.env.maxPending > 0 && forall id :: !p.env.writeThrows(id)
  }

  lemma PulseBegins(p: Setup)
    requires TakesEverything(p)
    ensures
      var y := Step(p, Start([M.Acquire]), Trigger(C.PulseMotor(1, T.PERFECT_GATES)), PLAIN);
      && Standing(p, y, Some(Motor(0, M.Writing, M.Leased(0))), map[], None, 1, T.Pulsing(p.authority))
      && y.pulseOpen && y.stopId.None?
  {
    hide M.Run, C.Run, C.Step, M.Step, M.ReleaseVerdict, History.Grew, Inv.Inv;
    var x := Start([M.Acquire]);
    LeaseTaken(p.env);
    var e := C.PulseMotor(1, T.PERFECT_GATES);
    assert Seen(p, x, e) == e;
    ControlStep(p, x, e, PLAIN);
    NothingRun(p, x);
    PulseStarted(p.authority, WorldOf(p, x, PLAIN));
    WireStep(p, Noted(p, x, e, PLAIN), M.LeaseRequest(0, MotorCommand([])));
    PulseGoesOut(p.env);
  }

  lemma PulseWriteIsTaken(p: Setup, x: Joint)
    requires TakesEverything(p)
    requires Standing(p, x, Some(Motor(0, M.Writing, M.Leased(0))), map[], None, 1, T.Pulsing(p.authority))
    requires x.pulseOpen && x.stopId.None?
    ensures
      var y := Step(p, x, Outside(M.WriteOk(0)), PLAIN);
      && Standing(p, y, Some(Motor(0, M.AwaitingResponse, M.Leased(0))), map[], None, 1, T.Pulsing(p.authority))
      && y.pulseOpen && y.stopId.None?
  {
    hide M.Run, C.Run, M.Step, History.Grew, Inv.Inv;
    WireStep(p, x, M.WriteOk(0));
    WriteSettles(p.env, Client(p, x), Motor(0, M.Writing, M.Leased(0)), map[], None, 1);
    Unnoticed(p, x, M.WriteOk(0), PLAIN);
  }

  lemma PulseAnswerArrives(p: Setup, x: Joint)
    requires TakesEverything(p)
    requires Standing(p, x, Some(Motor(0, M.AwaitingResponse, M.Leased(0))), map[], None, 1, T.Pulsing(p.authority))
    requires x.pulseOpen && x.stopId.None?
    ensures
      var y := Step(p, x, Outside(M.Frames([ANSWER])), PLAIN);
      && Standing(p, y, None, map[0 := M.Resolved(ANSWER)], None, 1, PulseAnswered(p.authority))
      && !y.pulseOpen && y.stopId.None?
  {
    hide M.Run, C.Run, M.Step, C.Step, WorldOf, Tell, History.Grew, Inv.Inv;
    var f := M.Frames([ANSWER]);
    WireStep(p, x, f);
    AnswerSettles(p.env, Client(p, x), Motor(0, M.AwaitingResponse, M.Leased(0)), map[], None, 1);
    var y := Sent(x, f).(pulseOpen := false);
    var e := C.PulseSettled(1, true, true);
    PulseIsAnswered(p.authority, WorldOf(p, y, PLAIN));
    JustNoted(p, y, e, PLAIN, PulseAnswered(p.authority));
    assert PulseReaction(p, Sent(x, f), PLAIN) == Noted(p, y, e, PLAIN);
  }

  lemma StopIsRequested(p: Setup, x: Joint)
    requires TakesEverything(p)
    requires Standing(p, x, None, map[0 := M.Resolved(ANSWER)], None, 1, PulseAnswered(p.authority))
    requires !x.pulseOpen && x.stopId.None?
    ensures
      var y := Step(p, x, Trigger(C.StopRequested(S.TouchReleased)), PLAIN);
      && Standing(p, y, Some(Motor(1, M.Writing, M.Stop(0))), map[0 := M.Resolved(ANSWER)], Some(1), 2,
                  Stopping(p.authority))
      && !y.pulseOpen && y.stopId == Some(1)
  {
    hide M.Run, C.Run, M.Step, C.Step, M.ReleaseVerdict, History.Grew, Inv.Inv;
    var e := C.StopRequested(S.TouchReleased);
    assert WorldOf(p, x, PLAIN).stop == C.StopEnv(C.Supported, true, false);
    ControlStep(p, x, e, PLAIN);
    StopIsSent(p.authority, WorldOf(p, x, PLAIN));
    WireStep(p, Noted(p, x, e, PLAIN), M.EmergencyStop(0, MotorCommand([])));
    StopGoesOut(p.env, Client(p, x), map[0 := M.Resolved(ANSWER)], 1);
  }

  lemma StopWriteIsTaken(p: Setup, x: Joint)
    requires TakesEverything(p)
    requires Standing(p, x, Some(Motor(1, M.Writing, M.Stop(0))), map[0 := M.Resolved(ANSWER)], Some(1), 2,
                      Stopping(p.authority))
    requires !x.pulseOpen && x.stopId == Some(1)
    ensures
      var y := Step(p, x, Outside(M.WriteOk(1)), PLAIN);
      && Standing(p, y, Some(Motor(1, M.AwaitingResponse, M.Stop(0))), map[0 := M.Resolved(ANSWER)], Some(1), 2,
                  Stopping(p.authority))
      && !y.pulseOpen && y.stopId == Some(1)
  {
    hide M.Run, C.Run, M.Step, History.Grew, Inv.Inv;
    WireStep(p, x, M.WriteOk(1));
    WriteSettles(p.env, Client(p, x), Motor(1, M.Writing, M.Stop(0)), map[0 := M.Resolved(ANSWER)], Some(1), 2);
    Unnoticed(p, x, M.WriteOk(1), PLAIN);
  }

  lemma StopAnswerArrives(p: Setup, x: Joint)
    requires TakesEverything(p)
    requires Standing(p, x, Some(Motor(1, M.AwaitingResponse, M.Stop(0))), map[0 := M.Resolved(ANSWER)], Some(1), 2,
                      Stopping(p.authority))
    requires !x.pulseOpen && x.stopId == Some(1)
    ensures
      var y := Step(p, x, Outside(M.Frames([ANSWER])), PLAIN);
      Standing(p, y, None, map[0 := M.Resolved(ANSWER), 1 := M.Resolved(ANSWER)], None, 2, Stopped(p.authority))
  {
    hide M.Run, C.Run, M.Step, C.Step, WorldOf, Tell, History.Grew, Inv.Inv;
    var f := M.Frames([ANSWER]);
    WireStep(p, x, f);
    AnswerSettles(p.env, Client(p, x), Motor(1, M.AwaitingResponse, M.Stop(0)), map[0 := M.Resolved(ANSWER)], Some(1),
                  2);
    var y := Sent(x, f);
    var e := C.StopSettled(C.FrameResolved, true);
    StopIsAnswered(p.authority, WorldOf(p, y, PLAIN));
    JustNoted(p, y, e, PLAIN, Stopped(p.authority));
    assert React(p, y, PLAIN) == Noted(p, y, e, PLAIN);
  }

  /** A pulse whose answer comes, and a stop whose answer comes. */
  const PULSE_AND_STOP: seq<Event> := [
    Trigger(C.PulseMotor(1, T.PERFECT_GATES)), Outside(M.WriteOk(0)), Outside(M.Frames([ANSWER])),
    Trigger(C.StopRequested(S.TouchReleased)), Outside(M.WriteOk(1)), Outside(M.Frames([ANSWER]))]

  function Plainly(events: seq<Event>): seq<(Event, Surroundings)> {
    seq(|events|, i requires 0 <= i < |events| => (events[i], PLAIN))
  }

  lemma RunOne(p: Setup, x: Joint, events: seq<Event>, i: nat)
    requires i < |events|
    ensures Run(p, x, Plainly(events)[..i + 1]) == Step(p, Run(p, x, Plainly(events)[..i]), events[i], PLAIN)
  {
    hide Step;
    assert Plainly(events)[..i + 1][..i] == Plainly(events)[..i];
  }

  /**
   * A STOP CAN BE ACKNOWLEDGED: on a transport that takes every write, with both answers arriving, the pulse is on
   * record as acknowledged, its stop ends Acknowledged and unsealed, and the lease is still held and free for more.
   */
  lemma StopsGetAcknowledged(p: Setup)
    requires TakesEverything(p)
    ensures
      var x := Run(p, Start([M.Acquire]), Plainly(PULSE_AND_STOP));
      var c := Control(p, x);
      var s := Client(p, x);
      && c.lastStopOutcome == Some(C.Acknowledged) && !c.stopSealed && c.stopInFlight.None?
      && c.pulse == C.Pulse(1, 1, true, Some(C.PulseAcknowledged)) && c.stopCommands == 1
      && s.token == Some(0) && s.stopRegistered.None? && s.faultEpochs == {} && s.invalidated == {}
      && s.outcomes == map[0 := M.Resolved(ANSWER), 1 := M.Resolved(ANSWER)]
      && M.ReleaseVerdict(s, 0) == M.Released
  {
    hide Step, M.Run, C.Run;
    var x := Start([M.Acquire]);
    var all := Plainly(PULSE_AND_STOP);
    assert all[..0] == [] && all[..6] == all;
    assert Run(p, x, all[..0]) == x;
    RunOne(p, x, PULSE_AND_STOP, 0);
    PulseBegins(p);
    RunOne(p, x, PULSE_AND_STOP, 1);
    PulseWriteIsTaken(p, Run(p, x, all[..1]));
    RunOne(p, x, PULSE_AND_STOP, 2);
    PulseAnswerArrives(p, Run(p, x, all[..2]));
    RunOne(p, x, PULSE_AND_STOP, 3);
    StopIsRequested(p, Run(p, x, all[..3]));
    RunOne(p, x, PULSE_AND_STOP, 4);
    StopWriteIsTaken(p, Run(p, x, all[..4]));
    RunOne(p, x, PULSE_AND_STOP, 5);
    StopAnswerArrives(p, Run(p, x, all[..5]));
  }
}
