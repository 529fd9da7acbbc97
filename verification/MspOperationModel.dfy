/** One exclusive operation at a time, under a telemetry pause; split at the two points where execute() awaits. */
module MspOperationModel {
  import opened MspTypes
  import opened MspTelemetryModel
  import opened MspTelemetryProofs
  import opened MspTelemetryFairness

  datatype SessionIdentity = SessionIdentity(sessionId: string, generation: int)

  datatype SessionEffect = KeepSession | ExpectReboot | ExpectBootloader | ExpectDisconnect

  datatype Operation = Operation(id: string, sessionEffect: SessionEffect, refreshAfterSuccess: Option<seq<string>>)

  datatype SessionEndReason = SessionClosed | SessionReplaced

  /** A rejection, possibly the wrapper by which an operation says that the outcome is unknown. */
  datatype Thrown = Plain(error: string) | UnknownOutcomeError(cause: string)

  datatype OperationResult =
    | Succeeded(result: Reading)
    | FailedWith(error: string)
    | OutcomeUnknown(reason: Thrown)
    | SessionEnded(why: SessionEndReason)

  /** What the operation's own promise did. */
  datatype OperationOutcome =
    | Resolved(result: Reading)
    | Rejected(thrown: Thrown)

  datatype Activity = Idle | Running(operationId: string, startedAtMs: real)

  datatype Phase = NotStarted | WaitingForIdle | AwaitingConfirmation | SuccessConfirmed

  /** Where the running execute() is suspended. */
  datatype Stage =
    | NotRunning
    | AwaitingIdle(operation: Operation, captured: SessionIdentity, lease: LeaseId, waiter: WaiterId)
    | AwaitingOperation(operation: Operation, captured: SessionIdentity, lease: LeaseId)

  /** The coordinator with its scheduler, and the history of the leases it took and gave back. */
  datatype System = System(
    telemetry: Scheduler,
    activity: Activity,
    phase: Phase,
    stage: Stage,
    acquired: seq<LeaseId>,
    released: seq<LeaseId>,
    results: seq<OperationResult>)

  predicate UnambiguousReplacement(captured: SessionIdentity, current: Option<SessionIdentity>) {
    current.Some? && current.value.sessionId == captured.sessionId && current.value.generation != captured.generation
  }

  predicate StillCurrent(captured: SessionIdentity, current: Option<SessionIdentity>) {
    current == Some(captured)
  }

  datatype Event =
    | Telemetry(event: MspTelemetryModel.Event)
    | Execute(operation: Operation, now: real, captured: Option<SessionIdentity>, refusal: Option<string>)
    | ResumeAfterIdle(current: Option<SessionIdentity>)
    | OperationSettled(outcome: OperationOutcome, current: Option<SessionIdentity>, now: real)

  /** Other holders release only their own leases; a continuation runs only after what it awaits. */
  predicate Possible(y: System, e: Event) {
    match e
    case Telemetry(t) => y.stage.NotRunning? || t != ReleaseLease(y.stage.lease)
    case Execute(_, now, _, _) => y.telemetry.lastReadMs <= now
    case ResumeAfterIdle(_) => y.stage.AwaitingIdle? && y.stage.waiter in y.telemetry.resumed
    case OperationSettled(_, _, now) => y.stage.AwaitingOperation? && y.telemetry.lastReadMs <= now
  }

  /** Ends the running operation, giving the lease back. */
  function Finish(y: System, result: OperationResult): System
    requires Known(y.telemetry) && !y.stage.NotRunning?
  {
    y.(telemetry := Step(y.telemetry, ReleaseLease(y.stage.lease)), activity := Idle, stage := NotRunning,
       released := y.released + [y.stage.lease], results := y.results + [result])
  }

  function DoExecute(y: System, operation: Operation, now: real, captured: Option<SessionIdentity>,
                     refusal: Option<string>): System
    requires Sound(y.telemetry)
  {
    if y.activity.Running? then y
    else if captured.None? then
      y.(activity := Idle, phase := NotStarted, results := y.results + [SessionEnded(SessionClosed)])
    else if refusal.Some? then
      y.(activity := Idle, phase := NotStarted, results := y.results + [FailedWith(refusal.value)])
    else
      var lease := y.telemetry.nextLease;
      y.(telemetry := DoAwaitIdle(DoDiscard(DoAcquireLease(y.telemetry), now)),
         activity := Running(operation.id, now),
         phase := WaitingForIdle,
         stage := AwaitingIdle(operation, captured.value, lease, y.telemetry.nextWaiter),
         acquired := y.acquired + [lease])
  }

  function DoResume(y: System, current: Option<SessionIdentity>): System
    requires Known(y.telemetry) && y.stage.AwaitingIdle?
  {
    if UnambiguousReplacement(y.stage.captured, current) then Finish(y, SessionEnded(SessionReplaced))
    else if !StillCurrent(y.stage.captured, current) then Finish(y, SessionEnded(SessionClosed))
    else
      y.(phase := AwaitingConfirmation,
         stage := AwaitingOperation(y.stage.operation, y.stage.captured, y.stage.lease))
  }

  function FailureResult(captured: SessionIdentity, current: Option<SessionIdentity>, thrown: Thrown): OperationResult {
    if !StillCurrent(captured, current) then OutcomeUnknown(thrown)
    else if thrown.UnknownOutcomeError? then OutcomeUnknown(Plain(thrown.cause))
    else FailedWith(thrown.error)
  }

  predicate Refreshes(y: System, current: Option<SessionIdentity>)
    requires !y.stage.NotRunning?
  {
    y.stage.operation.sessionEffect.KeepSession? && StillCurrent(y.stage.captured, current)
    && y.stage.operation.refreshAfterSuccess.Some?
  }

  function DoSettle(y: System, outcome: OperationOutcome, current: Option<SessionIdentity>, now: real): System
    requires Sound(y.telemetry) && y.stage.AwaitingOperation?
  {
    if !outcome.Resolved? then Finish(y, FailureResult(y.stage.captured, current, outcome.thrown))
    else
      var refreshed :=
        if Refreshes(y, current) then
          y.(telemetry := Step(y.telemetry, Refresh(y.stage.operation.refreshAfterSuccess.value, now)))
        else y;
      StepKeepsSound(y.telemetry, Refresh(y.stage.operation.refreshAfterSuccess.GetOr([]), now));
      Finish(refreshed.(phase := SuccessConfirmed), Succeeded(outcome.result))
  }

  function Advance(y: System, e: Event): System
    requires Sound(y.telemetry)
  {
    if !Possible(y, e) then y
    else
      match e
      case Telemetry(t) => y.(telemetry := Step(y.telemetry, t))
      case Execute(operation, now, captured, refusal) => DoExecute(y, operation, now, captured, refusal)
      case ResumeAfterIdle(current) => DoResume(y, current)
      case OperationSettled(outcome, current, now) => DoSettle(y, outcome, current, now)
  }

  function Start(singleFlight: bool, now: real): (y: System)
    ensures Inv(y)
  {
    InitialSound(singleFlight, now);
    System(Initial(singleFlight, now), Idle, NotStarted, NotRunning, [], [], [])
  }

  // ---------------------------------------------------------------- the invariant

  /** The lease the running operation holds, if one runs. */
  function Holding(y: System): seq<LeaseId> {
    if y.stage.NotRunning? then [] else [y.stage.lease]
  }

  ghost predicate LeasesOk(y: System) {
    && y.released + Holding(y) == y.acquired
    && (forall i, j :: 0 <= i < j < |y.acquired| ==> y.acquired[i] < y.acquired[j])
    && (forall i :: 0 <= i < |y.acquired| ==> y.acquired[i] < y.telemetry.nextLease)
    && (forall i :: 0 <= i < |y.released| ==> y.released[i] !in y.telemetry.leases)
    && (!y.stage.NotRunning? ==> y.stage.lease in y.telemetry.leases)
  }

  ghost predicate WindowOk(y: System) {
    && (y.activity.Running? <==> !y.stage.NotRunning?)
    && (y.stage.AwaitingIdle? ==>
          && (y.stage.waiter in y.telemetry.resumed || y.stage.waiter in y.telemetry.waiters)
          && (y.stage.waiter in y.telemetry.resumed ==> InFlight(y.telemetry) == {}))
    && (y.stage.AwaitingOperation? ==> InFlight(y.telemetry) == {})
  }

  ghost predicate Inv(y: System) {
    Sound(y.telemetry) && LeasesOk(y) && WindowOk(y)
  }

  /** How the scheduler's leases and waiters can move in one of its own events. */
  lemma TelemetryKeeps(s: Scheduler, e: MspTelemetryModel.Event)
    requires Sound(s)
    ensures
      var t := Step(s, e);
      && s.nextLease <= t.nextLease
      && (forall l :: l in t.leases ==> l in s.leases || l >= s.nextLease)
      && (forall l :: l in s.leases && e != ReleaseLease(l) ==> l in t.leases)
      && (forall w :: w in s.resumed ==> w in t.resumed)
      && (forall w :: w in s.waiters ==> w in t.waiters || w in t.resumed)
      && (forall w :: w in t.resumed ==> w in s.resumed || w in s.waiters || w == s.nextWaiter)
  {
    hide Sound, MspTelemetryModel.DoTick, MspTelemetryModel.DoRegister, Known;
    SoundIsKnown(s);
    if e.Tick? {
      TickFrame(s, e.now);
    } else if e.Register? {
      RegisterFrame(s, e.definition, e.now);
    }
  }

  lemma TickFrame(s: Scheduler, now: real)
    requires Known(s)
    ensures var t := DoTick(s, now);
            t.leases == s.leases && t.nextLease == s.nextLease && t.waiters == s.waiters && t.resumed == s.resumed
            && t.nextWaiter == s.nextWaiter
  {
    hide Pick, Restricted, Refreshed;
    RefreshKeepsKnown(s, now);
  }

  lemma RegisterFrame(s: Scheduler, d: PollDefinition, now: real)
    requires Known(s)
    ensures var t := DoRegister(s, d, now);
            t.leases == s.leases && t.nextLease == s.nextLease && t.waiters == s.waiters && t.resumed == s.resumed
            && t.nextWaiter == s.nextWaiter
  {
  }

  lemma TelemetryKeepsInv(y: System, e: MspTelemetryModel.Event)
    requires Inv(y) && Possible(y, Telemetry(e))
    ensures Inv(y.(telemetry := Step(y.telemetry, e)))
  {
    hide Sound, Step, InFlight;
    var s := y.telemetry;
    SoundIsKnown(s);
    StepKeepsSound(s, e);
    TelemetryKeeps(s, e);
    forall i | 0 <= i < |y.released| ensures y.released[i] !in Step(s, e).leases {
      assert y.released[i] == y.acquired[i];
    }
    if !y.stage.NotRunning? {
      PausedStep(s, e, y.stage.lease);
      if y.stage.AwaitingIdle? && y.stage.waiter in Step(s, e).resumed && y.stage.waiter !in s.resumed {
        ResumedWhenIdle(s, e, y.stage.waiter);
      }
    }
  }

  lemma FinishKeepsInv(y: System, result: OperationResult)
    requires Sound(y.telemetry) && LeasesOk(y) && !y.stage.NotRunning?
    ensures Inv(Finish(y, result))
  {
    hide Sound, Known;
    SoundIsKnown(y.telemetry);
    StepKeepsSound(y.telemetry, ReleaseLease(y.stage.lease));
    var t := Finish(y, result);
    assert t.released + [] == y.acquired;
    assert y.acquired[|y.acquired| - 1] == y.stage.lease;
    forall i | 0 <= i < |t.released| ensures t.released[i] !in t.telemetry.leases {
      if i < |y.released| {
        assert t.released[i] == y.released[i];
      }
    }
  }

  /** The three calls on the scheduler by which an operation opens its window. */
  lemma OpensWindow(s: Scheduler, now: real)
    requires Sound(s) && s.lastReadMs <= now
    ensures
      var a := DoAcquireLease(s);
      var d := DoDiscard(a, now);
      var t := DoAwaitIdle(d);
      && Sound(a) && Sound(d) && Sound(t)
      && a == Step(s, AcquireLease) && d == Step(a, Discard(now)) && t == Step(d, AwaitIdle)
      && t.leases == s.leases + {s.nextLease} && t.nextLease == s.nextLease + 1
      && InFlight(t) == InFlight(s)
      && (s.nextWaiter in t.resumed ==> InFlight(t) == {})
      && (s.nextWaiter in t.resumed || s.nextWaiter in t.waiters)
  {
    hide CacheOk, DistinctIds;
    var a := DoAcquireLease(s);
    var d := DoDiscard(a, now);
    var t := DoAwaitIdle(d);
    StepKeepsSound(s, AcquireLease);
    StepKeepsSound(a, Discard(now));
    StepKeepsSound(d, AwaitIdle);
    DeadlineFlights(a, now, []);
    assert s.nextWaiter !in s.resumed;
    if d.inFlightCount != 0 {
      assert t.waiters[|t.waiters| - 1] == s.nextWaiter;
    }
  }

  lemma DiscardFrame(s: Scheduler, now: real)
    ensures DoDiscard(s, now).nextWaiter == s.nextWaiter
  {
  }

  lemma ExecuteKeepsInv(y: System, operation: Operation, now: real, captured: Option<SessionIdentity>,
                        refusal: Option<string>)
    requires Inv(y) && y.telemetry.lastReadMs <= now
    ensures Inv(DoExecute(y, operation, now, captured, refusal))
  {
    hide Sound, InFlight, DoAcquireLease, DoDiscard, DoAwaitIdle;
    if !y.activity.Running? && captured.Some? && refusal.None? {
      OpensWindow(y.telemetry, now);
      var t := DoExecute(y, operation, now, captured, refusal);
      var lease := y.telemetry.nextLease;
      assert y.released + [] == y.released;
      assert t.released + [lease] == t.acquired;
      assert Holding(t) == [lease];
    }
  }

  lemma SettleKeepsInv(y: System, outcome: OperationOutcome, current: Option<SessionIdentity>, now: real)
    requires Inv(y) && y.stage.AwaitingOperation? && y.telemetry.lastReadMs <= now
    ensures Inv(DoSettle(y, outcome, current, now))
  {
    hide Sound, Step, InFlight, Finish;
    SoundIsKnown(y.telemetry);
    if !outcome.Resolved? {
      FinishKeepsInv(y, FailureResult(y.stage.captured, current, outcome.thrown));
    } else {
      var refreshed := y;
      if Refreshes(y, current) {
        var e := Refresh(y.stage.operation.refreshAfterSuccess.value, now);
        refreshed := y.(telemetry := Step(y.telemetry, e));
        TelemetryKeepsInv(y, e);
      }
      FinishKeepsInv(refreshed.(phase := SuccessConfirmed), Succeeded(outcome.result));
    }
  }

  lemma AdvanceKeepsInv(y: System, e: Event)
    requires Inv(y)
    ensures Inv(Advance(y, e))
  {
    hide Sound, Step, InFlight, Finish, DoExecute, DoSettle;
    if Possible(y, e) {
      match e {
        case Telemetry(t) => TelemetryKeepsInv(y, t);
        case Execute(operation, now, captured, refusal) => ExecuteKeepsInv(y, operation, now, captured, refusal);
        case ResumeAfterIdle(current) =>
          FinishKeepsInv(y, SessionEnded(SessionReplaced));
          FinishKeepsInv(y, SessionEnded(SessionClosed));
        case OperationSettled(outcome, current, now) => SettleKeepsInv(y, outcome, current, now);
      }
    }
  }

  ghost function History(y: System, events: seq<Event>): (z: System)
    requires Inv(y)
    ensures Inv(z)
  {
    if events == [] then y
    else
      var front := History(y, events[..|events| - 1]);
      AdvanceKeepsInv(front, events[|events| - 1]);
      Advance(front, events[|events| - 1])
  }

  // ---------------------------------------------------------------- guarantees over every history

  /** EXCLUSIVE WINDOW: while the operation itself runs nothing is in flight, and no event starts a dispatch. */
  lemma WindowIsExclusive(singleFlight: bool, start: real, events: seq<Event>, e: MspTelemetryModel.Event)
    requires History(Start(singleFlight, start), events).stage.AwaitingOperation?
    requires Possible(History(Start(singleFlight, start), events), Telemetry(e))
    ensures
      var s := History(Start(singleFlight, start), events).telemetry;
      InFlight(s) == {} && s.inFlightCount == 0 && Dispatched(s, e).None? && InFlight(Step(s, e)) == {}
  {
    hide Sound, Step, History, Dispatched;
    var y := History(Start(singleFlight, start), events);
    PausedStep(y.telemetry, e, y.stage.lease);
    SoundCount(y.telemetry);
  }

  lemma SoundCount(s: Scheduler)
    requires Sound(s)
    ensures s.inFlightCount == |InFlight(s)|
  {
  }

  /** Every finished operation has given its lease back exactly once, and an idle coordinator holds none. */
  lemma LeasesComeBack(singleFlight: bool, start: real, events: seq<Event>)
    ensures
      var y := History(Start(singleFlight, start), events);
      && (y.activity.Idle? ==> y.released == y.acquired && forall l :: l in y.acquired ==> l !in y.telemetry.leases)
      && (y.activity.Running? ==> y.released + [y.stage.lease] == y.acquired && y.stage.lease in y.telemetry.leases)
      && (forall i, j :: 0 <= i < j < |y.released| ==> y.released[i] != y.released[j])
  {
    hide Sound, History;
    var y := History(Start(singleFlight, start), events);
    assert forall i :: 0 <= i < |y.released| ==> y.released[i] == y.acquired[i];
  }

  /** A call during a running operation is refused and changes nothing. */
  lemma RunningRefuses(y: System, operation: Operation, now: real, captured: Option<SessionIdentity>,
                       refusal: Option<string>)
    requires Inv(y) && y.activity.Running?
    ensures Advance(y, Execute(operation, now, captured, refusal)) == y
  {
    hide Sound;
  }

  /** FAILED is claimed only of a failure the session survived; anything less certain is OUTCOME_UNKNOWN. */
  lemma FailedIsCertain(y: System, outcome: OperationOutcome, current: Option<SessionIdentity>, now: real)
    requires Inv(y) && Possible(y, OperationSettled(outcome, current, now))
    ensures
      var z := Advance(y, OperationSettled(outcome, current, now));
      && |z.results| == |y.results| + 1 && z.activity.Idle?
      && var result := z.results[|y.results|];
         && (result.Succeeded? <==> outcome.Resolved?)
         && (result.FailedWith? <==>
               outcome.Rejected? && outcome.thrown.Plain? && current == Some(y.stage.captured))
         && (result.OutcomeUnknown? <==>
               outcome.Rejected? && (outcome.thrown.UnknownOutcomeError? || current != Some(y.stage.captured)))
  {
    hide Sound, Step;
  }
}
