/** The request engine's guarantees, over every run from a fresh client. */
module MspClientTheorems {
  import opened MspTypes
  import opened MspClientModel
  import opened MspClientInvariants
  import opened MspClientRuns
  import opened MspClientHistory

  // ---------------------------------------------------------------- requests

  /** A submitted request is in exactly one place, for good once it is settled; an unsubmitted one is nowhere. */
  lemma EveryRequestIsSomewhereOnce(env: Env, events: seq<Event>, more: seq<Event>, id: RequestId)
    ensures
      var s := Run(env, INITIAL, events);
      && Places(s, id) == (if id < s.nextId then 1 else 0)
      && (id in s.outcomes ==>
            var t := Run(env, s, more);
            id in t.outcomes && t.outcomes[id] == s.outcomes[id])
  {
    hide Run, Count, LogOk, CallbacksOk, LeaseOk, ProbeOk, StopOk, RestOk;
    var s := Run(env, INITIAL, events);
    ReachableInv(env, events);
    RunGrew(env, s, more);
    assert Places(s, id) + InSlot(None, id) == if id < s.nextId then 1 else 0;
  }

  /** No request is written twice, and one rejected as unsent never was and never will be written. */
  lemma WrittenAtMostOnce(env: Env, events: seq<Event>, more: seq<Event>, id: RequestId)
    ensures
      var s := Run(env, INITIAL, events);
      var t := Run(env, s, more);
      && TimesWritten(t.writes, id) <= 1
      && (id in s.outcomes && NeverWritten(s.outcomes[id]) ==> TimesWritten(t.writes, id) == 0)
      && (id in s.outcomes && s.outcomes[id].Resolved? ==> TimesWritten(t.writes, id) == 1)
  {
    hide Run, TimesWritten, NeverWritten, PlacesOk, CallbacksOk, LeaseOk, ProbeOk, StopOk, RestOk;
    ReachableInv(env, events);
    RunGrew(env, Run(env, INITIAL, events), more);
  }

  /** Nothing hangs: whatever is unsettled waits behind an active request whose own callback is still owed. */
  lemma NothingHangs(env: Env, events: seq<Event>, id: RequestId)
    requires id < Run(env, INITIAL, events).nextId && id !in Run(env, INITIAL, events).outcomes
    ensures
      var s := Run(env, INITIAL, events);
      && s.active.Some?
      && (s.state.Ready? || s.active.value.id == id)
      && (|| (s.active.value.phase.Writing? && s.active.value.id in s.writing)
          || (s.active.value.phase.AwaitingResponse? && s.active.value.id in s.timers))
  {
    hide Run, LogOk, LeaseOk, StopOk;
    ReachableInv(env, events);
    var s := Run(env, INITIAL, events);
    assert Places(s, id) + InSlot(None, id) == 1;
  }

  // ---------------------------------------------------------------- the lease

  /** While a token is held the engine belongs to it. */
  lemma LeaseIsExclusive(env: Env, events: seq<Event>)
    requires Run(env, INITIAL, events).token.Some?
    ensures
      var s := Run(env, INITIAL, events);
      var t := s.token.value;
      && s.state.Ready? && !s.disposed && s.leaseEpoch == Some(s.epoch) && s.epoch !in s.faultEpochs
      && t !in s.retired && t !in s.invalidated
      && AllOwned(s.queue, t)
      && (s.active.Some? ==> OwnedBy(s.active.value.origin, t))
      && (s.stopPending.Some? ==> OwnedBy(s.stopPending.value.origin, t))
  {
    hide Run, PlacesOk, LogOk, CallbacksOk, ProbeOk, StopOk, RestOk;
    ReachableInv(env, events);
  }

  /** Every write made while a lease was held was admitted with that very token. */
  lemma HeldWritesAreOwned(env: Env, events: seq<Event>, i: nat)
    requires i < |Run(env, INITIAL, events).writes| && Run(env, INITIAL, events).writes[i].held.Some?
    ensures OriginToken(Run(env, INITIAL, events).writes[i].origin) == Run(env, INITIAL, events).writes[i].held
  {
    hide Run, TimesWritten, PlacesOk, CallbacksOk, LeaseOk, ProbeOk, StopOk, RestOk;
    ReachableInv(env, events);
  }

  /** A token that was let go or killed is never held again, however the run goes on. */
  lemma DeadTokenStaysDead(env: Env, events: seq<Event>, more: seq<Event>, evenMore: seq<Event>, t: Token)
    requires Run(env, INITIAL, events).token == Some(t)
    requires Run(env, Run(env, INITIAL, events), more).token != Some(t)
    ensures Run(env, Run(env, Run(env, INITIAL, events), more), evenMore).token != Some(t)
  {
    hide Run, PlacesOk, LogOk, CallbacksOk, ProbeOk, StopOk, RestOk;
    ReachableInv(env, events);
    var s := Run(env, INITIAL, events);
    RunGrew(env, s, more);
    RunGrew(env, Run(env, s, more), evenMore);
  }

  /** Under a fault-latched epoch no lease is ever held again. */
  lemma LatchedEpochIsNeverLeased(env: Env, events: seq<Event>, more: seq<Event>, epoch: nat)
    requires epoch in Run(env, INITIAL, events).faultEpochs
    ensures Run(env, Run(env, INITIAL, events), more).leaseEpoch != Some(epoch)
  {
    hide Run, PlacesOk, LogOk, CallbacksOk, ProbeOk, StopOk, RestOk;
    ReachableInv(env, events);
    RunGrew(env, Run(env, INITIAL, events), more);
  }

  // ---------------------------------------------------------------- recovery

  /** How many events of a run took the client from Ready into recovery. */
  ghost function Desyncs(env: Env, s: Engine, events: seq<Event>): nat {
    if events == [] then 0
    else
      var last := |events| - 1;
      Desyncs(env, s, events[..last])
      + if Run(env, s, events[..last]).state.Ready?
           && (Run(env, s, events).state.RestartingReader? || Run(env, s, events).state.RecoveryFailed?) then 1 else 0
  }

  /** The epoch counts desyncs: each adds one, and no probe failure, detach or anything else does. */
  lemma {:induction false} EpochCountsDesyncs(env: Env, s: Engine, events: seq<Event>)
    requires Inv(s)
    ensures Run(env, s, events).epoch == s.epoch + Desyncs(env, s, events)
    decreases |events|
  {
    hide Inv, Step;
    if events != [] {
      var t := Run(env, s, events[..|events| - 1]);
      EpochCountsDesyncs(env, s, events[..|events| - 1]);
      RunKeepsInv(env, s, events[..|events| - 1]);
      StepKeepsInv(env, t, events[|events| - 1]);
    }
  }

  /** A failed recovery ends only with the session, under the same epoch. */
  lemma {:induction false} RecoveryFailedIsTerminal(env: Env, s: Engine, events: seq<Event>)
    requires Inv(s) && (s.state.RecoveryFailed? || s.state.Disconnected?)
    ensures
      var t := Run(env, s, events);
      && t.epoch == s.epoch
      && (t.state.Disconnected? || (t.state.RecoveryFailed? && s.state.RecoveryFailed?))
    decreases |events|
  {
    hide Inv, Step;
    if events != [] {
      var t := Run(env, s, events[..|events| - 1]);
      RecoveryFailedIsTerminal(env, s, events[..|events| - 1]);
      RunKeepsInv(env, s, events[..|events| - 1]);
      StepKeepsInv(env, t, events[|events| - 1]);
    }
  }

  /** Once disconnected, no late callback writes, resumes or counts anything. */
  lemma {:induction false} DisconnectedIsSilent(env: Env, s: Engine, events: seq<Event>)
    requires Inv(s) && s.state.Disconnected?
    ensures
      var t := Run(env, s, events);
      t.state.Disconnected? && t.epoch == s.epoch && t.writes == s.writes && t.token.None?
    decreases |events|
  {
    hide Inv, Step;
    if events != [] {
      var t := Run(env, s, events[..|events| - 1]);
      DisconnectedIsSilent(env, s, events[..|events| - 1]);
      RunKeepsInv(env, s, events[..|events| - 1]);
      DisconnectedStep(env, t, events[|events| - 1]);
    }
    RunKeepsInv(env, s, events);
    DisconnectedHoldsNothing(Run(env, s, events));
  }

  lemma DisconnectedHoldsNothing(s: Engine)
    requires Inv(s) && s.state.Disconnected?
    ensures s.token.None? && s.active.None? && s.queue == [] && s.stopPending.None?
  {
    hide PlacesOk, LogOk, CallbacksOk, StopOk;
  }

  lemma DisconnectedStep(env: Env, s: Engine, e: Event)
    requires Inv(s) && s.state.Disconnected?
    ensures var t := Step(env, s, e); t.state.Disconnected? && t.epoch == s.epoch && t.writes == s.writes
  {
    hide Inv, Mid, Quiet, Act, Drain;
    InvIsMid(s);
    StepKeepsInv(env, s, e);
    DisconnectedHoldsNothing(s);
    if Possible(s, e) {
      DisconnectedAct(env, s, e);
      ActIsCalm(env, s, e);
      DrainShape(Act(env, s, e));
    }
  }

  lemma DisconnectedAct(env: Env, s: Engine, e: Event)
    requires Mid(s, None) && Quiet(s) && Possible(s, e) && s.state.Disconnected?
    requires s.token.None? && s.active.None? && s.queue == [] && s.stopPending.None?
    ensures Act(env, s, e).writes == s.writes
  {
    hide Mid, Quiet, DoDetach, DoDispose, DoFrames;
    match e {
      case Frames(fs) => FramesWithoutActive(env, s, fs);
      case Detach => DetachIsCalm(s);
      case Dispose => DisposeIsCalm(s);
      case _ =>
    }
  }
}
