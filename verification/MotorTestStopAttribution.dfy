/**
 * Client and controller together: what becomes of a stop that is triggered while the pulse it is to end has not
 * been answered yet. The two share a command number, so a late answer to the pulse could be taken for the stop's.
 */
module MotorTestStopAttribution {
  import opened MspTypes
  import S = MotorTestStateMachine
  import C = MotorTestControllerModel
  import T = MotorTestControllerTheorems
  import M = MspClientModel
  import Inv = MspClientInvariants
  import Runs = MspClientRuns
  import History = MspClientHistory
  import Order = MspClientOrder
  import Stops = MspClientStop

  /** The request and the stop cannot be told apart by their answers. */
  predicate SameCommand(pulse: M.RequestSpec, stop: M.RequestSpec) {
    pulse.command == stop.command && ProtocolOf(pulse.wireFormat) == ProtocolOf(stop.wireFormat)
  }

  // ---------------------------------------------------------------- the client's side

  /**
   * A stop accepted while a request of the same command is unanswered: either that request is the active one, and
   * the stop is dispatched as ambiguous, or it was still queued, is rejected as displaced and never is written.
   */
  lemma UnansweredIsAmbiguousOrUnsent(env: M.Env, events: seq<M.Event>, token: M.Token, stop: M.RequestSpec,
                                      pulse: M.RequestId, later: seq<M.Event>)
    requires M.StopAccepted(M.Run(env, M.INITIAL, events), token)
    requires pulse in Order.Submitted(env, events) && pulse !in M.Run(env, M.INITIAL, events).outcomes
    requires SameCommand(Order.Submitted(env, events)[pulse], stop)
    ensures
      var s := M.Run(env, M.INITIAL, events);
      var t := M.Step(env, s, M.EmergencyStop(token, stop));
      if Inv.IsActive(s, pulse) == 1 then M.LooksAlike(s, stop)
      else
        && pulse in t.outcomes && t.outcomes[pulse] == M.Rejected(M.DisplacedQueued)
        && Inv.TimesWritten(M.Run(env, t, later).writes, pulse) == 0
  {
    hide M.Run, M.Step, Order.Submitted, Inv.LogOk, Inv.CallbacksOk, Inv.LeaseOk, Inv.ProbeOk, Inv.RestOk,
      Inv.TimesWritten, Inv.Count, History.Grew, Order.WritesOk, Order.QueueOk;
    var s := M.Run(env, M.INITIAL, events);
    Runs.ReachableInv(env, events);
    Order.SubmittedLine(env, events);
    assert Inv.Places(s, pulse) + Inv.InSlot(None, pulse) == 1;
    assert s.stopPending.None?;
    if Inv.IsActive(s, pulse) == 0 {
      var i := QueuedAt(s.queue, pulse);
      Stops.AcceptedStopPurges(env, s, token, stop, i);
      UnsentForGood(env, s, M.EmergencyStop(token, stop), later, pulse);
    }
  }

  lemma {:induction false} QueuedAt(rs: seq<M.PendingRequest>, id: M.RequestId) returns (i: nat)
    requires Inv.Count(rs, id) > 0
    ensures i < |rs| && rs[i].id == id
  {
    if rs[0].id == id {
      i := 0;
    } else {
      var j := QueuedAt(rs[1..], id);
      i := j + 1;
    }
  }

  lemma UnsentForGood(env: M.Env, s: M.Engine, e: M.Event, later: seq<M.Event>, id: M.RequestId)
    requires Inv.Inv(s) && id in M.Step(env, s, e).outcomes && Inv.NeverWritten(M.Step(env, s, e).outcomes[id])
    ensures Inv.TimesWritten(M.Run(env, M.Step(env, s, e), later).writes, id) == 0
  {
    hide M.Run, M.Step, Inv.Inv, Inv.TimesWritten, Inv.NeverWritten;
    Runs.StepKeepsInv(env, s, e);
    var t := M.Step(env, s, e);
    History.RunGrew(env, t, later);
    Stops.UnwrittenOutcome(M.Run(env, t, later), id);
  }

  // ---------------------------------------------------------------- both

  /** What the controller finds when it sends its stop through a live lease of this client. */
  function StopThrough(s: M.Engine, stop: M.RequestSpec): C.StopEnv {
    C.StopEnv(C.Supported, true, M.LooksAlike(s, stop))
  }

  /**
   * A PULSE WITHOUT AN ANSWER IS NEVER CALLED STOPPED. The controller ends its live pulse while the client still
   * waits for the answer to the pulse's request, and sends a stop of the same command through the lease. If that
   * request had been written, then whatever happens later on either side no stop is ever called acknowledged, the
   * telemetry tokens stay, and the stop is sealed as soon as it is over. If it had not, it never will be.
   */
  lemma UnansweredPulseIsNeverCalledStopped(
    env: M.Env, events: seq<M.Event>, token: M.Token, stop: M.RequestSpec, pulse: M.RequestId, after: seq<M.Event>,
    authority: S.Authority, before: seq<(C.Event, C.World)>, e: C.Event, teardown: C.TeardownEnv,
    later: seq<(C.Event, C.World)>)
    requires M.StopAccepted(M.Run(env, M.INITIAL, events), token)
    requires pulse in Order.Submitted(env, events) && pulse !in M.Run(env, M.INITIAL, events).outcomes
    requires SameCommand(Order.Submitted(env, events)[pulse], stop)
    requires
      var w := C.World(StopThrough(M.Run(env, M.INITIAL, events), stop), teardown);
      var c := C.Run(C.ReadySession(authority), before);
      c.pulseAttempt.Some? && C.Step(c, e, w).pulseAttempt.None?
    ensures
      var s := M.Run(env, M.INITIAL, events);
      var w := C.World(StopThrough(s, stop), teardown);
      var t := C.Run(C.Step(C.Run(C.ReadySession(authority), before), e, w), later);
      if Inv.IsActive(s, pulse) == 1 then
        && t.lastStopOutcome != Some(C.Acknowledged) && !t.telemetryReleased
        && (t.stopInFlight.None? ==> t.stopSealed)
      else
        Inv.TimesWritten(M.Run(env, M.Step(env, s, M.EmergencyStop(token, stop)), after).writes, pulse) == 0
  {
    hide M.Run, M.Step, C.Run, C.Step, Order.Submitted, Inv.TimesWritten;
    UnansweredIsAmbiguousOrUnsent(env, events, token, stop, pulse, after);
    var w := C.World(StopThrough(M.Run(env, M.INITIAL, events), stop), teardown);
    if Inv.IsActive(M.Run(env, M.INITIAL, events), pulse) == 1 {
      T.AmbiguouslyEndedPulse(authority, before, e, w, later);
    }
  }
}
