/** What every reachable state of the request engine satisfies. */
module MspClientInvariants {
  import opened MspTypes
  import opened MspClientModel

  // ---------------------------------------------------------------- where a request is

  function Count(rs: seq<PendingRequest>, id: RequestId): nat {
    if rs == [] then 0 else (if rs[0].id == id then 1 else 0) + Count(rs[1..], id)
  }

  function InSlot(r: Option<PendingRequest>, id: RequestId): nat {
    if r.Some? && r.value.id == id then 1 else 0
  }

  function IsActive(s: Engine, id: RequestId): nat {
    if s.active.Some? && s.active.value.id == id then 1 else 0
  }

  function IsSettled(s: Engine, id: RequestId): nat {
    if id in s.outcomes then 1 else 0
  }

  /** How many of queue, active slot, stop slot and settled a request is in. */
  function Places(s: Engine, id: RequestId): nat {
    Count(s.queue, id) + IsActive(s, id) + InSlot(s.stopPending, id) + IsSettled(s, id)
  }

  lemma {:induction false} CountConcat(a: seq<PendingRequest>, b: seq<PendingRequest>, id: RequestId)
    ensures Count(a + b, id) == Count(a, id) + Count(b, id)
  {
    if a == [] {
      assert a + b == b;
    } else {
      assert (a + b)[1..] == a[1..] + b;
      CountConcat(a[1..], b, id);
    }
  }

  lemma {:induction false} CountedIsMember(rs: seq<PendingRequest>, i: nat)
    requires i < |rs|
    ensures Count(rs, rs[i].id) >= 1
  {
    if i > 0 {
      CountedIsMember(rs[1..], i - 1);
    }
  }

  function TimesWritten(ws: seq<WriteRecord>, id: RequestId): nat {
    if ws == [] then 0
    else TimesWritten(ws[..|ws| - 1], id) + if ws[|ws| - 1].id == id then 1 else 0
  }

  /** Outcomes that promise the transport never saw the request. */
  predicate NeverWritten(o: Outcome) {
    o.Rejected? &&
    match o.code
    case QueueFull => true
    case EncodeFailed => true
    case Recovering => true
    case RecoveryRequired => true
    case LeaseHeld => true
    case CapabilityInvalid => true
    case DisplacedQueued => true
    case StopAbortedByDesync => true
    case StopAbortedBySessionEnd => true
    case _ => false
  }

  /** Outcomes only a request that reached the transport can have. */
  predicate SurelyWritten(o: Outcome) {
    o.Resolved? || o.code.Timeout? || o.code.RemoteError? || o.code.WriteOutcomeUnknown?
    || o.code.TransportQueueFull? || o.code.DisplacedInFlight? || o.code.ProbeFailed?
  }

  // ---------------------------------------------------------------- the parts of the invariant

  /** `hand` is a request taken out of the queue or stop slot and not yet started. */
  ghost predicate PlacesOk(s: Engine, hand: Option<PendingRequest>) {
    forall id: RequestId :: Places(s, id) + InSlot(hand, id) == if id < s.nextId then 1 else 0
  }

  /** Which writes happened, and under which lease. */
  ghost predicate LogOk(s: Engine) {
    && (forall id: RequestId :: TimesWritten(s.writes, id) <= 1)
    && (forall id: RequestId :: TimesWritten(s.writes, id) > 0 ==> IsActive(s, id) + IsSettled(s, id) == 1)
    && (s.active.Some? ==> TimesWritten(s.writes, s.active.value.id) == 1)
    && (forall id: RequestId :: id in s.outcomes && NeverWritten(s.outcomes[id]) ==> TimesWritten(s.writes, id) == 0)
    && (forall id: RequestId :: id in s.outcomes && SurelyWritten(s.outcomes[id]) ==> TimesWritten(s.writes, id) == 1)
    && (forall i :: 0 <= i < |s.writes| && s.writes[i].held.Some? ==>
        OriginToken(s.writes[i].origin) == s.writes[i].held)
  }

  /** The callbacks the platform owes are exactly those the active request waits for. */
  ghost predicate CallbacksOk(s: Engine) {
    && (s.active.Some? ==>
          var a := s.active.value;
          && (a.phase.Writing? ==> a.id in s.writing && a.id !in s.timers)
          && (a.phase.AwaitingResponse? ==> a.id in s.timers && a.id !in s.writing && !a.displacedByEmergencyStop))
    && (forall id :: id in s.timers ==> s.active.Some? && s.active.value.id == id)
    && (forall id :: id in s.writing ==> TimesWritten(s.writes, id) == 1)
    && (forall e :: e in s.restarting ==> e <= s.epoch)
    && (s.epoch in s.restarting ==> s.state.RestartingReader? || s.state.Disconnected?)
    && (s.state.RestartingReader? ==> s.epoch in s.restarting)
  }

  ghost predicate OwnedBy(o: Origin, token: Token) {
    OriginToken(o) == Some(token)
  }

  ghost predicate AllOwned(rs: seq<PendingRequest>, token: Token) {
    forall i :: 0 <= i < |rs| ==> OwnedBy(rs[i].origin, token)
  }

  /** Lease exclusivity. */
  ghost predicate LeaseOk(s: Engine) {
    && (s.token.Some? <==> s.leaseEpoch.Some?)
    && (forall t :: t in s.retired ==> t < s.nextToken && t !in s.invalidated)
    && (forall t :: t in s.invalidated ==> t < s.nextToken)
    && (forall e :: e in s.faultEpochs ==> e <= s.epoch)
    && (s.disposed ==> s.state.Disconnected? || s.state.Closing?)
    && (s.token.Some? ==>
          var t := s.token.value;
          && s.state.Ready? && !s.disposed
          && s.leaseEpoch == Some(s.epoch) && s.epoch !in s.faultEpochs
          && t < s.nextToken && t !in s.retired && t !in s.invalidated
          && AllOwned(s.queue, t)
          && (s.active.Some? ==> OwnedBy(s.active.value.origin, t))
          && (s.stopPending.Some? ==> OwnedBy(s.stopPending.value.origin, t)))
  }

  /** Only the recovery probe is ever active outside Ready, and only ordinary work inside it. */
  ghost predicate ProbeOk(s: Engine) {
    && (s.active.Some? ==> (s.state.Probing? <==> s.active.value.origin.Probe?))
    && (s.active.Some? && s.active.value.origin.Probe? ==> s.active.value.origin.epoch == s.epoch)
    && (s.active.Some? ==> s.state.Ready? || s.state.Probing?)
    && (forall i :: 0 <= i < |s.queue| ==> !s.queue[i].origin.Probe? && !s.queue[i].origin.Stop?)
    && (s.stopPending.Some? ==> s.stopPending.value.origin.Stop?)
  }

  /** The stop slot and its registration. */
  ghost predicate StopOk(s: Engine) {
    && (s.stopPending.Some? ==> s.stopRegistered == Some(s.stopPending.value.id))
    && (s.active.Some? && s.active.value.origin.Stop? ==> s.stopRegistered == Some(s.active.value.id))
    && (s.stopRegistered.Some? ==>
          var id := s.stopRegistered.value;
          InSlot(s.stopPending, id) + IsActive(s, id) == 1
          && (IsActive(s, id) == 1 ==> s.active.value.origin.Stop?))
    && (s.active.Some? && s.active.value.displacedByEmergencyStop <==> s.stopPending.Some?)
  }

  /** No request waits without something that will come for it. */
  ghost predicate RestOk(s: Engine) {
    && (s.active.None? || !s.state.Ready? ==> s.queue == [] && s.stopPending.None?)
    && (s.state.Probing? ==> s.active.Some?)
    && !s.state.Desynchronized? && !s.state.Closing?
    && s.jobs == []
  }

  /** THE INVARIANT, at every point where no engine method is running. */
  ghost predicate Inv(s: Engine) {
    && PlacesOk(s, None)
    && LogOk(s)
    && CallbacksOk(s)
    && LeaseOk(s)
    && ProbeOk(s)
    && StopOk(s)
    && RestOk(s)
  }

  lemma InitialInv()
    ensures Inv(INITIAL)
  {
  }

  // ---------------------------------------------------------------- inside an event

  /** A queued reaction belongs to a settled, lease-scoped promise. */
  ghost predicate JobsOk(s: Engine) {
    forall i :: 0 <= i < |s.jobs| ==> s.jobs[i].id in s.outcomes && OriginToken(s.jobs[i].origin).Some?
  }

  ghost predicate StopJobQueued(s: Engine, id: RequestId) {
    exists i :: 0 <= i < |s.jobs| && s.jobs[i].id == id && s.jobs[i].origin.Stop?
  }

  ghost predicate HandOk(s: Engine, hand: Option<PendingRequest>) {
    hand.Some? ==>
      && s.active.None?
      && (hand.value.origin.Probe? <==> s.state.Probing?)
      && (hand.value.origin.Probe? ==> hand.value.origin.epoch == s.epoch)
      && (s.token.Some? ==> OwnedBy(hand.value.origin, s.token.value))
      && (hand.value.origin.Stop? ==> s.stopRegistered == Some(hand.value.id))
  }

  /** The stop may also be settled already, with its reaction still queued. */
  ghost predicate MidStop(s: Engine, hand: Option<PendingRequest>) {
    && (s.stopPending.Some? ==> s.stopRegistered == Some(s.stopPending.value.id))
    && (s.active.Some? && s.active.value.origin.Stop? ==> s.stopRegistered == Some(s.active.value.id))
    && (s.stopRegistered.Some? ==>
          var id := s.stopRegistered.value;
          || StopJobQueued(s, id)
          || InSlot(s.stopPending, id) == 1
          || (IsActive(s, id) == 1 && s.active.value.origin.Stop?)
          || (InSlot(hand, id) == 1 && hand.value.origin.Stop?))
    && (s.active.Some? ==> (s.active.value.displacedByEmergencyStop <==> s.stopPending.Some?))
  }

  ghost predicate Mid(s: Engine, hand: Option<PendingRequest>) {
    && PlacesOk(s, hand)
    && LogOk(s)
    && CallbacksOk(s)
    && LeaseOk(s)
    && ProbeOk(s)
    && MidStop(s, hand)
    && JobsOk(s)
    && HandOk(s, hand)
    && !s.state.Desynchronized? && !s.state.Closing?
  }

  /** Everything a state at rest needs except that its reactions have run. */
  ghost predicate Quiet(s: Engine) {
    && (s.active.None? || !s.state.Ready? ==> s.queue == [] && s.stopPending.None?)
    && (s.state.Probing? ==> s.active.Some?)
  }

  lemma InvIsMid(s: Engine)
    requires Inv(s)
    ensures Mid(s, None) && Quiet(s)
  {
    hide Count, TimesWritten;
  }

  // ---------------------------------------------------------------- settling many at once

  /** What rejecting a list of unsettled, non-probe requests changes, and nothing more. */
  ghost predicate SettledMore(s: Engine, t: Engine, rs: seq<PendingRequest>, o: Outcome) {
    && t == s.(outcomes := t.outcomes, jobs := t.jobs)
    && (forall id: RequestId :: IsSettled(t, id) == IsSettled(s, id) + Count(rs, id))
    && (forall id :: id in s.outcomes ==> id in t.outcomes && t.outcomes[id] == s.outcomes[id])
    && (forall id: RequestId :: Count(rs, id) > 0 ==> id in t.outcomes && t.outcomes[id] == o)
    && |s.jobs| <= |t.jobs| && t.jobs[..|s.jobs|] == s.jobs
    && (forall i :: |s.jobs| <= i < |t.jobs| ==> t.jobs[i].id in t.outcomes && OriginToken(t.jobs[i].origin).Some?)
  }

  /** Settling one unsettled lease-scoped or ordinary promise. */
  lemma SettleShape(s: Engine, id: RequestId, origin: Origin, o: Outcome)
    requires id !in s.outcomes && !origin.Probe?
    ensures Settle(s, id, origin, o) ==
            s.(outcomes := s.outcomes[id := o],
               jobs := if origin.Ordinary? then s.jobs else s.jobs + [Job(id, origin, o)])
  {
  }

  lemma {:induction false} SettleAllFacts(s: Engine, rs: seq<PendingRequest>, o: Outcome)
    requires forall i :: 0 <= i < |rs| ==> !rs[i].origin.Probe?
    requires forall id: RequestId :: IsSettled(s, id) + Count(rs, id) <= 1
    ensures SettledMore(s, SettleAll(s, rs, o), rs, o)
    decreases |rs|
  {
    hide Settle;
    if rs != [] {
      assert IsSettled(s, rs[0].id) + Count(rs, rs[0].id) <= 1;
      SettleShape(s, rs[0].id, rs[0].origin, o);
      var s1 := Settle(s, rs[0].id, rs[0].origin, o);
      forall id: RequestId ensures IsSettled(s1, id) + Count(rs[1..], id) <= 1 {
        assert IsSettled(s, id) + Count(rs, id) <= 1;
      }
      SettleAllFacts(s1, rs[1..], o);
      SettledMoreChain(s, s1, SettleAll(s1, rs[1..], o), rs, o);
    }
  }

  lemma SettledMoreChain(s: Engine, s1: Engine, t: Engine, rs: seq<PendingRequest>, o: Outcome)
    requires rs != [] && rs[0].id !in s.outcomes && !rs[0].origin.Probe?
    requires s1 == s.(outcomes := s.outcomes[rs[0].id := o],
                      jobs := if rs[0].origin.Ordinary? then s.jobs else s.jobs + [Job(rs[0].id, rs[0].origin, o)])
    requires SettledMore(s1, t, rs[1..], o)
    ensures SettledMore(s, t, rs, o)
  {
    forall id: RequestId ensures IsSettled(t, id) == IsSettled(s, id) + Count(rs, id) {
      assert IsSettled(t, id) == IsSettled(s1, id) + Count(rs[1..], id);
    }
    assert t.jobs[..|s.jobs|] == t.jobs[..|s1.jobs|][..|s.jobs|];
  }

  // ---------------------------------------------------------------- the active request ends

  /** Settling the active request and freeing its slot. */
  ghost predicate SlotFreed(s: Engine, t: Engine, o: Outcome)
    requires s.active.Some?
  {
    var a := s.active.value;
    && t == s.(active := None, state := t.state, outcomes := s.outcomes[a.id := o], jobs := t.jobs)
    && t.jobs == (if OriginToken(a.origin).Some? then s.jobs + [Job(a.id, a.origin, o)] else s.jobs)
  }

  /** The same, while the session lives: a probe's answer decides the state. */
  ghost predicate Finished(s: Engine, t: Engine, o: Outcome)
    requires s.active.Some?
  {
    && SlotFreed(s, t, o)
    && t.state == (if s.active.value.origin.Probe? then if o.Resolved? then Ready else RecoveryFailed else s.state)
  }

  lemma FinishShape(s: Engine, o: Outcome)
    requires s.active.Some? && s.active.value.id !in s.outcomes
    requires s.active.value.origin.Probe? ==> IsCurrentRecovery(s, s.active.value.origin.epoch)
    ensures Finished(s, Settle(s, s.active.value.id, s.active.value.origin, o).(active := None), o)
  {
  }

  lemma FinishPlaces(s: Engine, t: Engine, o: Outcome)
    requires s.active.Some? && PlacesOk(s, None) && SlotFreed(s, t, o)
    ensures PlacesOk(t, None)
  {
    hide Count;
    assert Places(s, s.active.value.id) == 1;
    forall id: RequestId ensures Places(t, id) + InSlot(None, id) == if id < t.nextId then 1 else 0 {
      assert Places(s, id) + InSlot(None, id) == if id < s.nextId then 1 else 0;
    }
  }

  lemma FinishLog(s: Engine, t: Engine, o: Outcome)
    requires s.active.Some? && s.active.value.id !in s.outcomes && LogOk(s) && SlotFreed(s, t, o) && !NeverWritten(o)
    ensures LogOk(t)
  {
    hide TimesWritten, NeverWritten, SurelyWritten;
    forall id: RequestId | TimesWritten(t.writes, id) > 0 ensures IsActive(t, id) + IsSettled(t, id) == 1 {
      assert IsActive(s, id) + IsSettled(s, id) == 1;
    }
  }

  lemma FinishStop(s: Engine, t: Engine, o: Outcome)
    requires s.active.Some? && MidStop(s, None) && JobsOk(s) && SlotFreed(s, t, o)
    ensures MidStop(t, None) && JobsOk(t)
  {
    var a := s.active.value;
    if s.stopRegistered.Some? {
      var id := s.stopRegistered.value;
      if StopJobQueued(s, id) {
        var i :| 0 <= i < |s.jobs| && s.jobs[i].id == id && s.jobs[i].origin.Stop?;
        assert t.jobs[i] == s.jobs[i];
      } else if id == a.id && a.origin.Stop? {
        assert t.jobs[|t.jobs| - 1].id == id;
      }
    }
  }

  lemma FinishRest(s: Engine, t: Engine, o: Outcome)
    requires s.active.Some? && LeaseOk(s) && ProbeOk(s) && Finished(s, t, o)
    ensures LeaseOk(t) && ProbeOk(t)
  {
  }

  /** It keeps everything but quietness, when no timer is left running. */
  lemma FinishIsMid(s: Engine, o: Outcome)
    requires PlacesOk(s, None) && LogOk(s) && LeaseOk(s) && ProbeOk(s) && MidStop(s, None) && JobsOk(s)
    requires s.active.Some? && s.timers == {}
    requires forall id :: id in s.writing ==> TimesWritten(s.writes, id) == 1
    requires forall e :: e in s.restarting ==> e <= s.epoch
    requires s.epoch !in s.restarting
    requires !NeverWritten(o)
    ensures var t := Settle(s, s.active.value.id, s.active.value.origin, o).(active := None);
            Mid(t, None) && Finished(s, t, o)
  {
    hide Count, TimesWritten, Settle, NeverWritten, SurelyWritten;
    assert Places(s, s.active.value.id) + InSlot(None, s.active.value.id) <= 1;
    var t := Settle(s, s.active.value.id, s.active.value.origin, o).(active := None);
    FinishShape(s, o);
    FinishPlaces(s, t, o);
    FinishLog(s, t, o);
    FinishStop(s, t, o);
    FinishRest(s, t, o);
  }

  // ---------------------------------------------------------------- starting a request

  /** The request in hand takes the active slot and its write is recorded. */
  ghost predicate Started(s: Engine, t: Engine, r: PendingRequest) {
    && t == s.(active := t.active, writes := t.writes)
    && t.active == Some(ActiveRequest(r.id, r.spec.command, ProtocolOf(r.spec.wireFormat), Writing, r.origin, false))
    && |t.writes| == |s.writes| + 1 && t.writes[..|s.writes|] == s.writes
    && t.writes[|s.writes|].id == r.id && t.writes[|s.writes|].origin == r.origin
    && t.writes[|s.writes|].held == s.token
  }

  lemma ActivatedShape(s: Engine, r: PendingRequest)
    requires r.spec.Encodable()
    ensures Started(s, Activated(s, r), r)
  {
  }

  lemma TimesWrittenGrows(ws: seq<WriteRecord>, vs: seq<WriteRecord>, id: RequestId)
    requires |vs| == |ws| + 1 && vs[..|ws|] == ws
    ensures TimesWritten(vs, id) == TimesWritten(ws, id) + if vs[|ws|].id == id then 1 else 0
  {
  }

  /** A request in hand can be started: the slot is free and no stop waits behind it. */
  ghost predicate CanStart(s: Engine, r: PendingRequest) {
    && Mid(s, Some(r)) && s.active.None? && s.stopPending.None?
    && (s.state.Ready? || s.state.Probing?)
  }

  lemma StartedLog(s: Engine, t: Engine, r: PendingRequest)
    requires CanStart(s, r) && Started(s, t, r)
    ensures LogOk(t)
  {
    hide Count, TimesWritten, NeverWritten, SurelyWritten;
    assert Places(s, r.id) + InSlot(Some(r), r.id) <= 1;
    assert TimesWritten(s.writes, r.id) == 0;
    forall id: RequestId
      ensures TimesWritten(t.writes, id) == TimesWritten(s.writes, id) + (if r.id == id then 1 else 0) {
      TimesWrittenGrows(s.writes, t.writes, id);
    }
    forall id: RequestId | TimesWritten(t.writes, id) > 0 ensures IsActive(t, id) + IsSettled(t, id) == 1 {
      assert TimesWritten(s.writes, id) > 0 ==> IsActive(s, id) + IsSettled(s, id) == 1;
    }
    forall i | 0 <= i < |t.writes| && t.writes[i].held.Some?
      ensures OriginToken(t.writes[i].origin) == t.writes[i].held
    {
      if i < |s.writes| {
        assert t.writes[i] == s.writes[i];
      }
    }
  }

  lemma StartedWriting(s: Engine, t: Engine, r: PendingRequest)
    requires CanStart(s, r) && Started(s, t, r)
    ensures forall id :: id in s.writing + {r.id} ==> TimesWritten(t.writes, id) == 1
    ensures r.id !in s.writing
  {
    hide Count, NeverWritten, SurelyWritten;
    assert Places(s, r.id) + InSlot(Some(r), r.id) <= 1;
    assert TimesWritten(s.writes, r.id) == 0;
    forall id | id in s.writing + {r.id} ensures TimesWritten(t.writes, id) == 1 {
      TimesWrittenGrows(s.writes, t.writes, id);
    }
  }

  lemma StartedPlaces(s: Engine, t: Engine, r: PendingRequest)
    requires CanStart(s, r) && Started(s, t, r)
    ensures PlacesOk(t, None)
  {
    hide Count, TimesWritten;
    forall id: RequestId ensures Places(t, id) + InSlot(None, id) == if id < t.nextId then 1 else 0 {
      assert Places(s, id) + InSlot(Some(r), id) == if id < s.nextId then 1 else 0;
    }
  }

  lemma StartedRest(s: Engine, t: Engine, r: PendingRequest)
    requires CanStart(s, r) && Started(s, t, r)
    ensures LeaseOk(t) && ProbeOk(t) && MidStop(t, None) && JobsOk(t)
    ensures t.timers == {} && t.epoch !in t.restarting
  {
    hide Count, TimesWritten, NeverWritten, SurelyWritten, LogOk, PlacesOk;
    if s.stopRegistered.Some? && StopJobQueued(s, s.stopRegistered.value) {
      assert StopJobQueued(t, s.stopRegistered.value);
    }
  }

  lemma StartedIsMid(s: Engine, t: Engine, r: PendingRequest)
    requires CanStart(s, r) && Started(s, t, r)
    ensures Mid(t.(writing := t.writing + {r.id}), None)
  {
    hide Count, TimesWritten, NeverWritten, SurelyWritten;
    StartedLog(s, t, r);
    StartedWriting(s, t, r);
    StartedPlaces(s, t, r);
    StartedRest(s, t, r);
    var u := t.(writing := t.writing + {r.id});
    assert PlacesOk(u, None) by {
      forall id: RequestId ensures Places(u, id) == Places(t, id) {}
    }
  }

  // ---------------------------------------------------------------- desynchronization

  /** Only the lease bookkeeping differs. */
  ghost predicate LeaseChange(s: Engine, t: Engine) {
    t == s.(token := t.token, leaseEpoch := t.leaseEpoch, retired := t.retired, invalidated := t.invalidated,
            faultEpochs := t.faultEpochs, nextToken := t.nextToken)
  }

  lemma LeaseChangePlaces(s: Engine, t: Engine, hand: Option<PendingRequest>)
    requires LeaseChange(s, t) && PlacesOk(s, hand)
    ensures PlacesOk(t, hand)
  {
    hide Count;
    forall id: RequestId ensures Places(t, id) + InSlot(hand, id) == if id < t.nextId then 1 else 0 {
      assert Places(s, id) + InSlot(hand, id) == if id < s.nextId then 1 else 0;
    }
  }

  lemma LeaseChangeLog(s: Engine, t: Engine)
    requires LeaseChange(s, t) && LogOk(s) && CallbacksOk(s) && ProbeOk(s)
    ensures LogOk(t) && CallbacksOk(t) && ProbeOk(t)
  {
    hide TimesWritten, NeverWritten, SurelyWritten;
    forall id: RequestId | TimesWritten(t.writes, id) > 0 ensures IsActive(t, id) + IsSettled(t, id) == 1 {
      assert IsActive(s, id) + IsSettled(s, id) == 1;
    }
  }

  lemma LeaseChangeStop(s: Engine, t: Engine, hand: Option<PendingRequest>)
    requires LeaseChange(s, t) && MidStop(s, hand) && JobsOk(s)
    ensures MidStop(t, hand) && JobsOk(t)
  {
    if s.stopRegistered.Some? && StopJobQueued(s, s.stopRegistered.value) {
      assert StopJobQueued(t, s.stopRegistered.value);
    }
  }

  /** Dropping the lease, whatever is latched on the way, leaves the rest of the engine as it is. */
  lemma DropLeaseIsMid(s: Engine, t: Engine, hand: Option<PendingRequest>)
    requires Mid(s, hand) && LeaseChange(s, t) && LeaseOk(t) && t.token.None?
    ensures Mid(t, hand)
  {
    hide PlacesOk, LogOk, CallbacksOk, LeaseOk, ProbeOk, MidStop, JobsOk;
    LeaseChangePlaces(s, t, hand);
    LeaseChangeLog(s, t);
    LeaseChangeStop(s, t, hand);
  }

  lemma FaultLeaseShape(s: Engine)
    requires LeaseOk(s)
    ensures LeaseChange(s, FaultLease(s)) && LeaseOk(FaultLease(s)) && FaultLease(s).token.None?
    ensures LeaseChange(s, InvalidateLease(s)) && LeaseOk(InvalidateLease(s)) && InvalidateLease(s).token.None?
  {
  }

  /** Everything open but the active request has been settled with the codes given. */
  ghost predicate Emptied(s: Engine, t: Engine, stopCode: Code, o: Outcome) {
    && t == s.(queue := [], stopPending := None, outcomes := t.outcomes, jobs := t.jobs)
    && (forall id: RequestId :: IsSettled(t, id) == IsSettled(s, id) + InSlot(s.stopPending, id) + Count(s.queue, id))
    && (forall id :: id in s.outcomes ==> id in t.outcomes && t.outcomes[id] == s.outcomes[id])
    && (forall id: RequestId :: id in t.outcomes && id !in s.outcomes ==>
          t.outcomes[id] == if InSlot(s.stopPending, id) > 0 then Rejected(stopCode) else o)
    && |s.jobs| <= |t.jobs| && t.jobs[..|s.jobs|] == s.jobs
    && (forall i :: 0 <= i < |t.jobs| ==>
        i < |s.jobs| || (t.jobs[i].id in t.outcomes && OriginToken(t.jobs[i].origin).Some?))
    && (s.stopPending.Some? ==> StopJobQueued(t, s.stopPending.value.id))
  }

  lemma EmptyingSettles(s: Engine, stopCode: Code, o: Outcome)
    requires PlacesOk(s, None) && ProbeOk(s)
    ensures var s1 := AbortStop(s, stopCode);
            Emptied(s, SettleAll(s1.(queue := []), s1.queue, o), stopCode, o)
  {
    hide SettleAll, Settle;
    var s1 := AbortStop(s, stopCode);
    if s.stopPending.Some? {
      var stop := s.stopPending.value;
      assert Places(s, stop.id) + InSlot(None, stop.id) <= 1;
      SettleShape(s.(stopPending := None), stop.id, stop.origin, Rejected(stopCode));
      assert s1.jobs[|s1.jobs| - 1] == Job(stop.id, stop.origin, Rejected(stopCode));
    }
    var s2 := s1.(queue := []);
    forall id: RequestId ensures IsSettled(s2, id) == IsSettled(s, id) + InSlot(s.stopPending, id) {
      assert Places(s, id) + InSlot(None, id) <= 1;
    }
    forall id: RequestId ensures IsSettled(s2, id) + Count(s1.queue, id) <= 1 {
      assert Places(s, id) + InSlot(None, id) <= 1;
    }
    SettleAllFacts(s2, s1.queue, o);
    EmptiedFromSettled(s, s2, SettleAll(s2, s1.queue, o), stopCode, o);
  }

  lemma EmptiedFromSettled(s: Engine, s2: Engine, t: Engine, stopCode: Code, o: Outcome)
    requires PlacesOk(s, None) && SettledMore(s2, t, s.queue, o)
    requires s2 == s.(queue := [], stopPending := None, outcomes := s2.outcomes, jobs := s2.jobs)
    requires forall id: RequestId :: IsSettled(s2, id) == IsSettled(s, id) + InSlot(s.stopPending, id)
    requires s2.outcomes ==
             if s.stopPending.Some? then s.outcomes[s.stopPending.value.id := Rejected(stopCode)] else s.outcomes
    requires s2.jobs ==
             if s.stopPending.None? then s.jobs
             else s.jobs + [Job(s.stopPending.value.id, s.stopPending.value.origin, Rejected(stopCode))]
    requires s.stopPending.Some? ==> s.stopPending.value.origin.Stop? && s.stopPending.value.id !in s.outcomes
    ensures Emptied(s, t, stopCode, o)
  {
    hide Count, Places;
    assert t.jobs[..|s.jobs|] == t.jobs[..|s2.jobs|][..|s.jobs|];
    if s.stopPending.Some? {
      assert t.jobs[|s.jobs|] == t.jobs[..|s2.jobs|][|s.jobs|];
    }
    forall id: RequestId ensures IsSettled(t, id) == IsSettled(s, id) + InSlot(s.stopPending, id) + Count(s.queue, id) {
      assert IsSettled(t, id) == IsSettled(s2, id) + Count(s.queue, id);
    }
    forall id: RequestId | id in t.outcomes && id !in s.outcomes
      ensures t.outcomes[id] == if InSlot(s.stopPending, id) > 0 then Rejected(stopCode) else o
    {
      assert IsSettled(t, id) == IsSettled(s2, id) + Count(s.queue, id);
    }
  }

  lemma EmptiedPlaces(s: Engine, t: Engine, stopCode: Code, o: Outcome)
    requires PlacesOk(s, None) && Emptied(s, t, stopCode, o)
    ensures PlacesOk(t, None)
  {
    forall id: RequestId ensures Places(t, id) + InSlot(None, id) == if id < t.nextId then 1 else 0 {
      assert Places(s, id) + InSlot(None, id) == if id < s.nextId then 1 else 0;
    }
  }

  lemma EmptiedLog(s: Engine, t: Engine, stopCode: Code, o: Outcome)
    requires PlacesOk(s, None) && LogOk(s) && Emptied(s, t, stopCode, o)
    requires !SurelyWritten(o) && !SurelyWritten(Rejected(stopCode))
    ensures LogOk(t)
  {
    hide Count, TimesWritten, NeverWritten, SurelyWritten;
    forall id: RequestId | TimesWritten(t.writes, id) > 0 ensures IsActive(t, id) + IsSettled(t, id) == 1 {
      assert IsActive(s, id) + IsSettled(s, id) == 1;
      assert Places(s, id) + InSlot(None, id) <= 1;
      assert IsSettled(t, id) == IsSettled(s, id) + InSlot(s.stopPending, id) + Count(s.queue, id);
    }
    forall id: RequestId | id in t.outcomes && id !in s.outcomes ensures TimesWritten(t.writes, id) == 0 {
      assert Places(s, id) + InSlot(None, id) <= 1;
      assert IsSettled(t, id) == IsSettled(s, id) + InSlot(s.stopPending, id) + Count(s.queue, id);
      assert TimesWritten(s.writes, id) > 0 ==> IsActive(s, id) + IsSettled(s, id) == 1;
    }
  }

  lemma EmptiedStop(s: Engine, t: Engine, stopCode: Code, o: Outcome)
    requires MidStop(s, None) && JobsOk(s) && Emptied(s, t, stopCode, o) && (s.active.None? || s.stopPending.None?)
    ensures MidStop(t, None) && JobsOk(t)
  {
    hide Count, IsSettled;
    forall i | 0 <= i < |t.jobs| ensures t.jobs[i].id in t.outcomes && OriginToken(t.jobs[i].origin).Some? {
      if i < |s.jobs| {
        assert t.jobs[i] == s.jobs[i];
      }
    }
    if s.stopRegistered.Some? && StopJobQueued(s, s.stopRegistered.value) {
      var i :| 0 <= i < |s.jobs| && s.jobs[i].id == s.stopRegistered.value && s.jobs[i].origin.Stop?;
      assert t.jobs[i] == s.jobs[i];
    }
  }

  /** A desync settles everything waiting, drops the lease and moves on to restarting the reader. */
  lemma DesyncIsMid(env: Env, s: Engine)
    requires Mid(s, None) && s.state.Ready? && s.active.None?
    ensures var t := DesyncLatch(env, s);
            && Mid(t, None) && Quiet(t)
            && (t.state.RestartingReader? || t.state.RecoveryFailed?)
            && t.epoch == s.epoch + 1 && t.writes == s.writes
  {
    hide FaultLease, AbortStop, SettleAll, Count, TimesWritten, NeverWritten, SurelyWritten, PlacesOk, LogOk, MidStop,
      JobsOk, ProbeOk, Quiet;
    var f := FaultLease(s);
    FaultLeaseShape(s);
    DropLeaseIsMid(s, f, None);
    EmptyingSettles(f, StopAbortedByDesync, Rejected(Recovering));
    var f1 := AbortStop(f, StopAbortedByDesync);
    var e := SettleAll(f1.(queue := []), f1.queue, Rejected(Recovering));
    EmptiedPlaces(f, e, StopAbortedByDesync, Rejected(Recovering));
    assert !SurelyWritten(Rejected(Recovering)) && !SurelyWritten(Rejected(StopAbortedByDesync)) by { SureCodes(); }
    EmptiedLog(f, e, StopAbortedByDesync, Rejected(Recovering));
    EmptiedStop(f, e, StopAbortedByDesync, Rejected(Recovering));
    MovedOn(e, DesyncLatch(env, s));
  }

  lemma SureCodes()
    ensures !SurelyWritten(Rejected(Recovering)) && !SurelyWritten(Rejected(StopAbortedByDesync))
    ensures !SurelyWritten(Rejected(SessionClosed)) && !SurelyWritten(Rejected(DeviceDetached))
    ensures !SurelyWritten(Rejected(StopAbortedBySessionEnd)) && !SurelyWritten(Rejected(DisplacedQueued))
    ensures !NeverWritten(Rejected(WriteOutcomeUnknown)) && !NeverWritten(Rejected(ProbeFailed))
    ensures !NeverWritten(Rejected(Timeout)) && !NeverWritten(Rejected(DisplacedInFlight))
    ensures !NeverWritten(Rejected(RemoteError)) && !NeverWritten(Rejected(SessionClosed))
    ensures !NeverWritten(Rejected(TransportQueueFull)) && !NeverWritten(Rejected(DeviceDetached))
  {
  }

  /** The epoch moves on and the reader restarts; nothing open is left to be affected. */
  lemma MovedOn(s: Engine, t: Engine)
    requires PlacesOk(s, None) && LogOk(s) && LeaseOk(s) && MidStop(s, None) && JobsOk(s)
    requires s.active.None? && s.queue == [] && s.stopPending.None? && s.token.None? && s.timers == {} && !s.disposed
    requires forall id :: id in s.writing ==> TimesWritten(s.writes, id) == 1
    requires forall e :: e in s.restarting ==> e <= s.epoch
    requires t == s.(epoch := s.epoch + 1, state := t.state, restarting := t.restarting)
    requires || (t.state.RecoveryFailed? && t.restarting == s.restarting)
             || (t.state.RestartingReader? && t.restarting == s.restarting + {t.epoch})
    ensures Mid(t, None) && Quiet(t)
  {
    hide Count, TimesWritten, NeverWritten, SurelyWritten;
    forall id: RequestId ensures Places(t, id) + InSlot(None, id) == if id < t.nextId then 1 else 0 {
      assert Places(s, id) + InSlot(None, id) == if id < s.nextId then 1 else 0;
    }
    forall id: RequestId | TimesWritten(t.writes, id) > 0 ensures IsActive(t, id) + IsSettled(t, id) == 1 {
      assert IsActive(s, id) + IsSettled(s, id) == 1;
    }
    if s.stopRegistered.Some? && StopJobQueued(s, s.stopRegistered.value) {
      assert StopJobQueued(t, s.stopRegistered.value);
    }
  }

  // ---------------------------------------------------------------- pumping

  /** A request that leaves the engine's hand unwritten. */
  ghost predicate DroppedFromHand(s: Engine, t: Engine, r: PendingRequest, o: Outcome) {
    && t == s.(outcomes := s.outcomes[r.id := o], jobs := t.jobs)
    && t.jobs == (if r.origin.Ordinary? then s.jobs else s.jobs + [Job(r.id, r.origin, o)])
  }

  lemma DroppedPlaces(s: Engine, t: Engine, r: PendingRequest, o: Outcome)
    requires PlacesOk(s, Some(r)) && LogOk(s) && DroppedFromHand(s, t, r, o) && !SurelyWritten(o)
    ensures PlacesOk(t, None) && LogOk(t)
  {
    hide Count, TimesWritten, NeverWritten, SurelyWritten;
    assert Places(s, r.id) + InSlot(Some(r), r.id) <= 1;
    forall id: RequestId ensures Places(t, id) + InSlot(None, id) == if id < t.nextId then 1 else 0 {
      assert Places(s, id) + InSlot(Some(r), id) == if id < s.nextId then 1 else 0;
    }
    forall id: RequestId | TimesWritten(t.writes, id) > 0 ensures IsActive(t, id) + IsSettled(t, id) == 1 {
      assert IsActive(s, id) + IsSettled(s, id) == 1;
    }
    assert TimesWritten(s.writes, r.id) == 0;
  }

  lemma DroppedStop(s: Engine, t: Engine, r: PendingRequest, o: Outcome)
    requires MidStop(s, Some(r)) && JobsOk(s) && HandOk(s, Some(r)) && DroppedFromHand(s, t, r, o) && !r.origin.Probe?
    ensures MidStop(t, None) && JobsOk(t)
  {
    if s.stopRegistered.Some? {
      var id := s.stopRegistered.value;
      if StopJobQueued(s, id) {
        var i :| 0 <= i < |s.jobs| && s.jobs[i].id == id && s.jobs[i].origin.Stop?;
        assert t.jobs[i] == s.jobs[i];
      } else if id == r.id && r.origin.Stop? {
        assert t.jobs[|t.jobs| - 1].id == id;
      }
    }
  }

  lemma DroppedIsMid(s: Engine, r: PendingRequest, o: Outcome)
    requires Mid(s, Some(r)) && !r.origin.Probe? && !SurelyWritten(o)
    ensures var t := Settle(s, r.id, r.origin, o);
            Mid(t, None) && DroppedFromHand(s, t, r, o)
  {
    hide Count, TimesWritten, NeverWritten, SurelyWritten, Settle;
    assert Places(s, r.id) + InSlot(Some(r), r.id) <= 1;
    SettleShape(s, r.id, r.origin, o);
    var t := Settle(s, r.id, r.origin, o);
    DroppedPlaces(s, t, r, o);
    DroppedStop(s, t, r, o);
  }

  lemma StopIsTaken(s: Engine)
    requires Mid(s, None) && s.state.Ready? && s.active.None? && s.stopPending.Some?
    ensures CanStart(s.(stopPending := None), s.stopPending.value) && !s.stopPending.value.origin.Probe?
  {
    hide Count, TimesWritten, NeverWritten, SurelyWritten;
    var r := s.stopPending.value;
    var t := s.(stopPending := None);
    forall id: RequestId ensures Places(t, id) + InSlot(Some(r), id) == if id < t.nextId then 1 else 0 {
      assert Places(s, id) + InSlot(None, id) == if id < s.nextId then 1 else 0;
    }
    LogUntouched(s, t);
    if StopJobQueued(s, s.stopRegistered.value) {
      assert StopJobQueued(t, s.stopRegistered.value);
    }
  }

  lemma LogUntouched(s: Engine, t: Engine)
    requires LogOk(s) && t.writes == s.writes && t.active == s.active && t.outcomes == s.outcomes
    ensures LogOk(t)
  {
    hide TimesWritten, NeverWritten, SurelyWritten;
    forall id: RequestId | TimesWritten(t.writes, id) > 0 ensures IsActive(t, id) + IsSettled(t, id) == 1 {
      assert IsActive(s, id) + IsSettled(s, id) == 1;
    }
  }

  lemma HeadIsTaken(s: Engine)
    requires Mid(s, None) && s.state.Ready? && s.active.None? && s.stopPending.None? && s.queue != []
    ensures CanStart(s.(queue := s.queue[1..]), s.queue[0]) && !s.queue[0].origin.Probe?
  {
    hide TimesWritten, NeverWritten, SurelyWritten;
    var r := s.queue[0];
    var t := s.(queue := s.queue[1..]);
    forall id: RequestId ensures Places(t, id) + InSlot(Some(r), id) == if id < t.nextId then 1 else 0 {
      assert Places(s, id) + InSlot(None, id) == if id < s.nextId then 1 else 0;
    }
    LogUntouched(s, t);
    if s.stopRegistered.Some? && StopJobQueued(s, s.stopRegistered.value) {
      assert StopJobQueued(t, s.stopRegistered.value);
    }
  }

  /** How the state and epoch may have moved in a step that started where nothing was desynchronized. */
  ghost predicate EpochMoved(s: Engine, t: Engine) {
    || (t.epoch == s.epoch && t.state == s.state)
    || (t.epoch == s.epoch && s.state.Probing? && t.state.RecoveryFailed?)
    || (t.epoch == s.epoch + 1 && s.state.Ready? && (t.state.RestartingReader? || t.state.RecoveryFailed?))
  }

  ghost predicate CanPump(s: Engine) {
    && Mid(s, None)
    && (!s.state.Ready? ==> s.queue == [] && s.stopPending.None?)
    && (s.state.Probing? ==> s.active.Some?)
  }

  lemma {:induction false} PumpIsMid(env: Env, s: Engine)
    requires CanPump(s)
    ensures Mid(Pump(env, s), None) && Quiet(Pump(env, s)) && EpochMoved(s, Pump(env, s))
    decreases Backlog(s), 0
  {
    hide Mid, StartRequest;
    if s.state == Ready && s.active.None? {
      if s.stopPending.Some? {
        StopIsTaken(s);
        StartIsMid(env, s.(stopPending := None), s.stopPending.value);
      } else if s.queue != [] {
        HeadIsTaken(s);
        StartIsMid(env, s.(queue := s.queue[1..]), s.queue[0]);
      }
    }
  }

  lemma {:induction false} StartIsMid(env: Env, s: Engine, r: PendingRequest)
    requires CanStart(s, r)
    requires r.origin.Probe? ==> r.spec.Encodable() && s.queue == []
    ensures var t := StartRequest(env, s, r);
            Mid(t, None) && Quiet(t) && EpochMoved(s, t)
    decreases Backlog(s), 1
  {
    hide Activated, Settle, DesyncLatch, Pump, PlacesOk, LogOk, CallbacksOk, LeaseOk, ProbeOk, MidStop, JobsOk;
    if !r.spec.Encodable() {
      DroppedIsMid(s, r, Rejected(EncodeFailed));
      PumpIsMid(env, Settle(s, r.id, r.origin, Rejected(EncodeFailed)));
    } else {
      ActivatedShape(s, r);
      var s1 := Activated(s, r);
      if env.writeThrows(r.id) {
        ThrownIsMid(env, s, s1, r);
      } else {
        StartedIsMid(s, s1, r);
      }
    }
  }

  /** The transport threw instead of returning a promise. */
  lemma ThrownIsMid(env: Env, s: Engine, s1: Engine, r: PendingRequest)
    requires CanStart(s, r) && Started(s, s1, r)
    requires r.origin.Probe? ==> s.queue == []
    ensures var t := if r.origin.Probe? then Settle(s1, r.id, r.origin, Rejected(ProbeFailed)).(active := None)
                     else DesyncLatch(env, Settle(s1, r.id, r.origin, Rejected(WriteOutcomeUnknown)).(active := None));
            Mid(t, None) && Quiet(t) && EpochMoved(s, t)
  {
    hide Settle, DesyncLatch, PlacesOk, LogOk, LeaseOk, MidStop, JobsOk, TimesWritten, NeverWritten;
    StartedLog(s, s1, r);
    StartedWriting(s, s1, r);
    StartedPlaces(s, s1, r);
    StartedRest(s, s1, r);
    SureCodes();
    if r.origin.Probe? {
      FinishIsMid(s1, Rejected(ProbeFailed));
    } else {
      FinishIsMid(s1, Rejected(WriteOutcomeUnknown));
      DesyncIsMid(env, Settle(s1, r.id, r.origin, Rejected(WriteOutcomeUnknown)).(active := None));
    }
  }

  // ---------------------------------------------------------------- reactions

  lemma JobsPopped(s: Engine, t: Engine)
    requires Mid(s, None) && s.jobs != [] && t == s.(jobs := s.jobs[1..])
    ensures PlacesOk(t, None) && LogOk(t) && CallbacksOk(t) && LeaseOk(t) && ProbeOk(t) && JobsOk(t)
  {
    hide Count, TimesWritten, NeverWritten, SurelyWritten;
    forall id: RequestId ensures Places(t, id) + InSlot(None, id) == if id < t.nextId then 1 else 0 {
      assert Places(s, id) + InSlot(None, id) == if id < s.nextId then 1 else 0;
    }
    LogUntouched(s, t);
  }

  lemma StopJobSurvives(s: Engine, t: Engine, id: RequestId)
    requires s.jobs != [] && t.jobs == s.jobs[1..] && StopJobQueued(s, id)
    requires s.jobs[0].id != id || !s.jobs[0].origin.Stop?
    ensures StopJobQueued(t, id)
  {
    var i :| 0 <= i < |s.jobs| && s.jobs[i].id == id && s.jobs[i].origin.Stop?;
    assert t.jobs[i - 1] == s.jobs[i];
  }

  /** The state after a reaction, before the lease is faulted. */
  function Unregistered(s: Engine): Engine
    requires s.jobs != []
  {
    var u := s.(jobs := s.jobs[1..]);
    if s.jobs[0].origin.Stop? then ClearRegistration(u, s.jobs[0].id) else u
  }

  lemma UnregisteredStop(s: Engine)
    requires Mid(s, None) && s.jobs != []
    ensures MidStop(Unregistered(s), None)
    ensures var v := Unregistered(s);
            v == s.(jobs := s.jobs[1..], stopRegistered := v.stopRegistered, stopAmbiguous := v.stopAmbiguous,
                    stopDeferred := v.stopDeferred)
  {
    hide Count, TimesWritten, NeverWritten, SurelyWritten, LogOk, CallbacksOk, LeaseOk, ProbeOk;
    var j := s.jobs[0];
    var v := Unregistered(s);
    assert Places(s, j.id) + InSlot(None, j.id) <= 1;
    if s.stopRegistered.Some? && StopJobQueued(s, s.stopRegistered.value)
       && (j.id != s.stopRegistered.value || !j.origin.Stop?) {
      StopJobSurvives(s, v, s.stopRegistered.value);
    }
  }

  /** One reaction: the registration it belongs to is cleared, nothing else moves but the lease. */
  lemma ReactIsMid(s: Engine)
    requires Mid(s, None) && Quiet(s) && s.jobs != []
    ensures var t := React(s.(jobs := s.jobs[1..]), s.jobs[0]);
            && Mid(t, None) && Quiet(t) && t.jobs == s.jobs[1..]
            && t.state == s.state && t.epoch == s.epoch
  {
    hide PlacesOk, LogOk, CallbacksOk, LeaseOk, ProbeOk, MidStop, JobsOk, FaultLease, ClearRegistration;
    var u := s.(jobs := s.jobs[1..]);
    var v := Unregistered(s);
    JobsPopped(s, u);
    UnregisteredStop(s);
    ClearedIsMid(u, v);
    FaultLeaseShape(v);
    DropLeaseIsMid(v, FaultLease(v), None);
  }

  lemma ClearedIsMid(u: Engine, v: Engine)
    requires PlacesOk(u, None) && LogOk(u) && CallbacksOk(u) && LeaseOk(u) && ProbeOk(u) && JobsOk(u)
    requires v == u.(stopRegistered := v.stopRegistered, stopAmbiguous := v.stopAmbiguous,
                     stopDeferred := v.stopDeferred)
    ensures PlacesOk(v, None) && LogOk(v) && CallbacksOk(v) && LeaseOk(v) && ProbeOk(v) && JobsOk(v)
  {
    hide Count, TimesWritten, NeverWritten, SurelyWritten;
    forall id: RequestId ensures Places(v, id) + InSlot(None, id) == if id < v.nextId then 1 else 0 {
      assert Places(u, id) + InSlot(None, id) == if id < u.nextId then 1 else 0;
    }
    LogUntouched(u, v);
  }

  /** When the reactions have run, the state is at rest. */
  lemma {:induction false} DrainIsInv(s: Engine)
    requires Mid(s, None) && Quiet(s)
    ensures Inv(Drain(s)) && Drain(s).state == s.state && Drain(s).epoch == s.epoch
    decreases |s.jobs|
  {
    hide React, Mid;
    if s.jobs == [] {
      MidAtRest(s);
    } else {
      ReactIsMid(s);
      DrainIsInv(React(s.(jobs := s.jobs[1..]), s.jobs[0]));
    }
  }

  lemma MidAtRest(s: Engine)
    requires Mid(s, None) && Quiet(s) && s.jobs == []
    ensures Inv(s)
  {
    hide Count, TimesWritten, NeverWritten, SurelyWritten, LogOk, CallbacksOk, LeaseOk;
    if s.stopRegistered.Some? {
      var id := s.stopRegistered.value;
      assert Places(s, id) + InSlot(None, id) <= 1;
    }
    if s.active.Some? {
      assert s.active.value.displacedByEmergencyStop <==> s.stopPending.Some?;
    }
  }

  // ---------------------------------------------------------------- events that end the active request

  /** Freeing the slot from a calm state, whatever callback is consumed on the way. */
  lemma FinishFromCalm(s: Engine, s0: Engine, o: Outcome)
    requires Mid(s, None) && Quiet(s) && s.active.Some?
    requires s0 == s.(writing := s0.writing, timers := s.timers - {s.active.value.id})
    requires s0.writing <= s.writing && !NeverWritten(o)
    ensures var t := Settle(s0, s.active.value.id, s.active.value.origin, o).(active := None);
            && CanPump(t) && Finished(s0, t, o)
            && (!t.state.Ready? ==> Quiet(t))
  {
    hide Count, TimesWritten, NeverWritten, SurelyWritten, Settle;
    assert s0.timers == {};
    assert PlacesOk(s0, None) by {
      forall id: RequestId ensures Places(s0, id) == Places(s, id) {}
    }
    LogUntouched(s, s0);
    if s.stopRegistered.Some? && StopJobQueued(s, s.stopRegistered.value) {
      assert StopJobQueued(s0, s.stopRegistered.value);
    }
    FinishIsMid(s0, o);
  }

  /** Losing a callback that no longer matters. */
  lemma CallbackGone(s: Engine, t: Engine)
    requires Mid(s, None) && Quiet(s)
    requires t == s.(writing := t.writing, timers := t.timers)
    requires t.writing <= s.writing && t.timers <= s.timers
    requires s.active.Some? ==> (s.active.value.id in s.writing ==> s.active.value.id in t.writing)
                                && (s.active.value.id in s.timers ==> s.active.value.id in t.timers)
    ensures Mid(t, None) && Quiet(t)
  {
    hide Count, TimesWritten, NeverWritten, SurelyWritten;
    assert PlacesOk(t, None) by {
      forall id: RequestId ensures Places(t, id) == Places(s, id) {}
    }
    LogUntouched(s, t);
    if s.stopRegistered.Some? && StopJobQueued(s, s.stopRegistered.value) {
      assert StopJobQueued(t, s.stopRegistered.value);
    }
  }

  /** A calm state, reached from s without losing count of the epoch. */
  ghost predicate Calm(s: Engine, t: Engine) {
    && Mid(t, None) && Quiet(t) && Moved(s, t)
  }

  /** How one event may move state and epoch. */
  ghost predicate Moved(s: Engine, t: Engine) {
    match s.state
    case Ready =>
      || (t.epoch == s.epoch && (t.state.Ready? || t.state.Disconnected?))
      || (t.epoch == s.epoch + 1 && (t.state.RestartingReader? || t.state.RecoveryFailed?))
    case RestartingReader =>
      t.epoch == s.epoch && (t.state.RestartingReader? || t.state.Probing? || t.state.RecoveryFailed?
                             || t.state.Disconnected?)
    case Probing =>
      t.epoch == s.epoch && (t.state.Probing? || t.state.Ready? || t.state.RecoveryFailed? || t.state.Disconnected?)
    case RecoveryFailed => t.epoch == s.epoch && (t.state.RecoveryFailed? || t.state.Disconnected?)
    case _ => t.epoch == s.epoch && t.state == s.state
  }

  lemma SettledIsNotActive(s: Engine)
    requires PlacesOk(s, None) && s.active.Some?
    ensures s.active.value.id !in s.outcomes
  {
    hide Count;
    assert Places(s, s.active.value.id) + InSlot(None, s.active.value.id) <= 1;
  }

  lemma WriteOkIsCalm(env: Env, s: Engine, id: RequestId)
    requires Mid(s, None) && Quiet(s) && id in s.writing
    ensures Calm(s, DoWriteOk(env, s, id))
  {
    hide Count, TimesWritten, NeverWritten, SurelyWritten, Settle, Pump, PlacesOk, LogOk, LeaseOk, MidStop, JobsOk;
    var s0 := s.(writing := s.writing - {id});
    if s.active.Some? { SettledIsNotActive(s); }
    if s.active.None? || s.active.value.id != id {
      CallbackGone(s, s0);
    } else if s.active.value.displacedByEmergencyStop {
      SureCodes();
      assert s0.timers == s.timers - {id};
      FinishFromCalm(s, s0, Rejected(DisplacedInFlight));
      PumpIsMid(env, Settle(s0, id, s.active.value.origin, Rejected(DisplacedInFlight)).(active := None));
    } else {
      AwaitingIsMid(s, id);
    }
  }

  /** The write is confirmed: from here the answer is awaited, under an armed timer. */
  lemma AwaitingIsMid(s: Engine, id: RequestId)
    requires Mid(s, None) && Quiet(s) && id in s.writing && s.active.Some? && s.active.value.id == id
    requires !s.active.value.displacedByEmergencyStop
    ensures var t := s.(writing := s.writing - {id}, active := Some(s.active.value.(phase := AwaitingResponse)),
                        timers := s.timers + {id});
            Mid(t, None) && Quiet(t)
  {
    hide Count, TimesWritten, NeverWritten, SurelyWritten;
    var t := s.(writing := s.writing - {id}, active := Some(s.active.value.(phase := AwaitingResponse)),
                timers := s.timers + {id});
    assert PlacesOk(t, None) by {
      forall k: RequestId ensures Places(t, k) == Places(s, k) {}
    }
    forall k: RequestId | TimesWritten(t.writes, k) > 0 ensures IsActive(t, k) + IsSettled(t, k) == 1 {
      assert IsActive(s, k) + IsSettled(s, k) == 1;
    }
    if s.stopRegistered.Some? && StopJobQueued(s, s.stopRegistered.value) {
      assert StopJobQueued(t, s.stopRegistered.value);
    }
  }

  lemma WriteFailedIsCalm(env: Env, s: Engine, id: RequestId, f: WriteFailure)
    requires Mid(s, None) && Quiet(s) && id in s.writing
    ensures Calm(s, DoWriteFailed(env, s, id, f))
  {
    hide Count, TimesWritten, NeverWritten, SurelyWritten, Settle, Pump, DesyncLatch, PlacesOk, LogOk, LeaseOk, MidStop,
      JobsOk;
    var s0 := s.(writing := s.writing - {id});
    if s.active.Some? { SettledIsNotActive(s); }
    if s.active.None? || s.active.value.id != id {
      CallbackGone(s, s0);
    } else {
      SureCodes();
      assert s0.timers == s.timers - {id};
      var a := s.active.value;
      if a.origin.Probe? {
        FinishFromCalm(s, s0, Rejected(ProbeFailed));
      } else {
        var code := ClassifyWriteFailure(f);
        FinishFromCalm(s, s0, Rejected(code));
        var s1 := Settle(s0, id, a.origin, Rejected(code)).(active := None);
        if code.WriteOutcomeUnknown? {
          DesyncIsMid(env, s1);
        } else {
          PumpIsMid(env, s1);
        }
      }
    }
  }

  lemma TimeoutIsCalm(env: Env, s: Engine, id: RequestId)
    requires Mid(s, None) && Quiet(s) && id in s.timers
    ensures Calm(s, DoTimeout(env, s, id))
  {
    hide Count, TimesWritten, NeverWritten, SurelyWritten, Settle, DesyncLatch, PlacesOk, LogOk, LeaseOk, MidStop,
      JobsOk;
    var s0 := s.(timers := s.timers - {id});
    SettledIsNotActive(s);
    SureCodes();
    var a := s.active.value;
    if a.origin.Probe? {
      FinishFromCalm(s, s0, Rejected(ProbeFailed));
    } else {
      FinishFromCalm(s, s0, Rejected(Timeout));
      DesyncIsMid(env, Settle(s0, id, a.origin, Rejected(Timeout)).(active := None));
    }
  }

  lemma PumpNothing(env: Env, s: Engine)
    requires s.queue == [] && s.stopPending.None?
    ensures Pump(env, s) == s
  {
  }

  /** Once nothing is active and nothing waits, further frames find no one to answer. */
  lemma FrameIsCalm(env: Env, s: Engine, f: MspFrame)
    requires Mid(s, None) && Quiet(s)
    ensures Calm(s, DoFrame(env, s, f))
    ensures DoFrame(env, s, f).state != s.state ==> DoFrame(env, s, f).active.None?
  {
    hide Count, TimesWritten, SurelyWritten, Settle, Pump, PlacesOk, LogOk, LeaseOk, MidStop, JobsOk;
    if Matches(s, f) {
      var a := s.active.value;
      var o := if f.direction.Error? && !a.origin.Probe? then Rejected(RemoteError) else Resolved(f);
      var s0 := s.(timers := s.timers - {a.id});
      FinishFromCalm(s, s0, o);
      var t := Settle(s0, a.id, a.origin, o).(active := None);
      PumpIsMid(env, t);
      if a.origin.Probe? { PumpNothing(env, t); }
    }
  }

  lemma {:induction false} FramesWithoutActive(env: Env, s: Engine, fs: seq<MspFrame>)
    requires s.active.None?
    ensures DoFrames(env, s, fs) == s
    decreases |fs|
  {
    if fs != [] {
      FramesWithoutActive(env, s, fs[1..]);
    }
  }

  lemma {:induction false} FramesAreCalm(env: Env, s: Engine, fs: seq<MspFrame>)
    requires Mid(s, None) && Quiet(s)
    ensures Calm(s, DoFrames(env, s, fs))
    decreases |fs|
  {
    hide DoFrame, Mid, Quiet;
    if fs != [] {
      FrameIsCalm(env, s, fs[0]);
      var t := DoFrame(env, s, fs[0]);
      if t.state != s.state {
        FramesWithoutActive(env, t, fs[1..]);
      } else {
        FramesAreCalm(env, t, fs[1..]);
      }
    }
  }

  // ---------------------------------------------------------------- admission

  /** A fresh id whose promise is already rejected. */
  ghost predicate Refused(s: Engine, t: Engine, origin: Origin, o: Outcome) {
    && t == s.(nextId := s.nextId + 1, outcomes := s.outcomes[s.nextId := o], jobs := t.jobs)
    && t.jobs == if origin.Ordinary? then s.jobs else s.jobs + [Job(s.nextId, origin, o)]
  }

  lemma RefusedPlaces(s: Engine, t: Engine, origin: Origin, o: Outcome)
    requires PlacesOk(s, None) && Refused(s, t, origin, o)
    ensures PlacesOk(t, None)
  {
    hide Count;
    assert Places(s, s.nextId) + InSlot(None, s.nextId) == 0;
    forall k: RequestId ensures Places(t, k) + InSlot(None, k) == if k < t.nextId then 1 else 0 {
      assert Places(s, k) + InSlot(None, k) == if k < s.nextId then 1 else 0;
    }
  }

  lemma RefusedStop(s: Engine, t: Engine, origin: Origin, o: Outcome)
    requires MidStop(s, None) && JobsOk(s) && Refused(s, t, origin, o) && (origin.Ordinary? || origin.Leased?)
    ensures MidStop(t, None) && JobsOk(t)
  {
    if s.stopRegistered.Some? && StopJobQueued(s, s.stopRegistered.value) {
      var i :| 0 <= i < |s.jobs| && s.jobs[i].id == s.stopRegistered.value && s.jobs[i].origin.Stop?;
      assert t.jobs[i] == s.jobs[i];
    }
  }

  lemma RefusedIsMid(s: Engine, origin: Origin, code: Code)
    requires Mid(s, None) && Quiet(s) && !SurelyWritten(Rejected(code))
    requires origin.Ordinary? || origin.Leased?
    ensures var t := Refuse(s, origin, code);
            Mid(t, None) && Quiet(t) && Refused(s, t, origin, Rejected(code))
  {
    hide Count, TimesWritten, NeverWritten, SurelyWritten, Settle, LogOk, MidStop, JobsOk;
    var id := s.nextId;
    assert Places(s, id) + InSlot(None, id) == 0;
    SettleShape(s.(nextId := id + 1), id, origin, Rejected(code));
    var t := Refuse(s, origin, code);
    RefusedPlaces(s, t, origin, Rejected(code));
    RefusedLog(s, t, id, Rejected(code));
    RefusedStop(s, t, origin, Rejected(code));
  }

  lemma RefusedLog(s: Engine, t: Engine, id: RequestId, o: Outcome)
    requires LogOk(s) && IsActive(s, id) + IsSettled(s, id) == 0 && !SurelyWritten(o)
    requires t.writes == s.writes && t.active == s.active && t.outcomes == s.outcomes[id := o]
    ensures LogOk(t)
  {
    hide TimesWritten, NeverWritten, SurelyWritten;
    assert TimesWritten(s.writes, id) == 0;
    forall k: RequestId | TimesWritten(t.writes, k) > 0 ensures IsActive(t, k) + IsSettled(t, k) == 1 {
      assert IsActive(s, k) + IsSettled(s, k) == 1;
    }
  }

  /** A request joins the end of the queue. */
  lemma QueuedCanPump(s: Engine, spec: RequestSpec, origin: Origin)
    requires Mid(s, None) && Quiet(s) && s.state.Ready?
    requires origin.Ordinary? || origin.Leased?
    requires s.token.Some? ==> OwnedBy(origin, s.token.value)
    ensures CanPump(s.(nextId := s.nextId + 1, queue := s.queue + [PendingRequest(s.nextId, spec, origin)]))
  {
    hide TimesWritten, NeverWritten, SurelyWritten;
    var r := PendingRequest(s.nextId, spec, origin);
    var t := s.(nextId := s.nextId + 1, queue := s.queue + [r]);
    forall k: RequestId ensures Places(t, k) + InSlot(None, k) == if k < t.nextId then 1 else 0 {
      assert Places(s, k) + InSlot(None, k) == if k < s.nextId then 1 else 0;
      CountConcat(s.queue, [r], k);
    }
    LogUntouched(s, t);
    if s.stopRegistered.Some? && StopJobQueued(s, s.stopRegistered.value) {
      assert StopJobQueued(t, s.stopRegistered.value);
    }
  }

  lemma EnqueueIsCalm(env: Env, s: Engine, spec: RequestSpec, origin: Origin)
    requires Mid(s, None) && Quiet(s)
    requires origin.Ordinary? || origin.Leased?
    requires s.token.Some? ==> OwnedBy(origin, s.token.value)
    ensures Calm(s, Enqueue(env, s, spec, origin))
  {
    hide Pump, Mid, Refuse;
    var rejection := CheckAcceptance(s);
    if rejection.Some? {
      RefusedIsMid(s, origin, rejection.value);
    } else if |s.queue| >= env.maxPending {
      RefusedIsMid(s, origin, QueueFull);
    } else {
      QueuedCanPump(s, spec, origin);
      PumpIsMid(env, s.(nextId := s.nextId + 1, queue := s.queue + [PendingRequest(s.nextId, spec, origin)]));
    }
  }

  // ---------------------------------------------------------------- the emergency stop

  /** Purging the queue in front of a stop settles every queued request unwritten. */
  lemma PurgedIsMid(s: Engine)
    requires Mid(s, None) && s.stopPending.None?
    ensures var p := SettleAll(s.(queue := []), s.queue, Rejected(DisplacedQueued));
            Mid(p, None) && Emptied(s, p, StopAbortedByDesync, Rejected(DisplacedQueued))
  {
    hide Count, TimesWritten, NeverWritten, SurelyWritten, SettleAll, PlacesOk, LogOk, MidStop, JobsOk;
    EmptyingSettles(s, StopAbortedByDesync, Rejected(DisplacedQueued));
    var p := SettleAll(s.(queue := []), s.queue, Rejected(DisplacedQueued));
    SureCodes();
    EmptiedPlaces(s, p, StopAbortedByDesync, Rejected(DisplacedQueued));
    EmptiedLog(s, p, StopAbortedByDesync, Rejected(DisplacedQueued));
    EmptiedStop(s, p, StopAbortedByDesync, Rejected(DisplacedQueued));
  }

  /** An engine with nothing queued and nothing in the stop slot takes a stop. */
  lemma StopTakesSlot(q: Engine, t: Engine, token: Token, spec: RequestSpec)
    requires PlacesOk(q, None) && LogOk(q) && CallbacksOk(q) && LeaseOk(q) && ProbeOk(q) && JobsOk(q)
    requires q.state.Ready? && q.queue == [] && q.stopPending.None? && q.stopRegistered.None?
    requires q.token == Some(token)
    requires q.active.Some? ==> q.active.value.displacedByEmergencyStop && !q.active.value.origin.Stop?
    requires t == q.(nextId := q.nextId + 1, stopPending := Some(PendingRequest(q.nextId, spec, Stop(token))),
                     stopRegistered := Some(q.nextId), stopAmbiguous := t.stopAmbiguous, stopDeferred := t.stopDeferred)
    ensures CanPump(t)
  {
    hide Count, TimesWritten, NeverWritten, SurelyWritten;
    forall k: RequestId ensures Places(t, k) + InSlot(None, k) == if k < t.nextId then 1 else 0 {
      assert Places(q, k) + InSlot(None, k) == if k < q.nextId then 1 else 0;
    }
    LogUntouched(q, t);
  }

  /** Marking a running write as displaced changes nothing a write or a log depends on. */
  lemma MarkedDisplaced(p: Engine, q: Engine)
    requires Mid(p, None) && p.active.Some? && p.active.value.phase.Writing?
    requires q == p.(active := Some(p.active.value.(displacedByEmergencyStop := true)))
    ensures PlacesOk(q, None) && LogOk(q) && CallbacksOk(q) && LeaseOk(q) && ProbeOk(q) && JobsOk(q)
  {
    hide Count, TimesWritten, NeverWritten, SurelyWritten;
    assert PlacesOk(q, None) by {
      forall k: RequestId ensures Places(q, k) == Places(p, k) {}
    }
    forall k: RequestId | TimesWritten(q.writes, k) > 0 ensures IsActive(q, k) + IsSettled(q, k) == 1 {
      assert IsActive(p, k) + IsSettled(p, k) == 1;
    }
  }

  lemma RegisteredCanPump(s: Engine, token: Token, spec: RequestSpec)
    requires Mid(s, None) && Quiet(s) && StopAccepted(s, token)
    ensures CanPump(RegisterStop(s, token, spec)) && RegisterStop(s, token, spec).state.Ready?
    ensures RegisterStop(s, token, spec).epoch == s.epoch && RegisterStop(s, token, spec).writes == s.writes
    ensures RegisterStop(s, token, spec).stopPending == Some(PendingRequest(s.nextId, spec, Stop(token)))
  {
    hide Count, TimesWritten, NeverWritten, SurelyWritten, SettleAll, Settle, PlacesOk, LogOk, JobsOk;
    PurgedIsMid(s);
    var p := SettleAll(s.(queue := []), s.queue, Rejected(DisplacedQueued));
    var t := RegisterStop(s, token, spec);
    SureCodes();
    if p.active.None? {
      StopTakesSlot(p, t, token, spec);
    } else if p.active.value.phase.AwaitingResponse? {
      var a := p.active.value;
      var s0 := p.(timers := p.timers - {a.id});
      FinishFromCalm(p, s0, Rejected(DisplacedInFlight));
      StopTakesSlot(Settle(s0, a.id, a.origin, Rejected(DisplacedInFlight)).(active := None), t, token, spec);
    } else {
      var q := p.(active := Some(p.active.value.(displacedByEmergencyStop := true)));
      MarkedDisplaced(p, q);
      StopTakesSlot(q, t, token, spec);
    }
  }

  lemma EmergencyStopIsCalm(env: Env, s: Engine, token: Token, spec: RequestSpec)
    requires Mid(s, None) && Quiet(s)
    ensures Calm(s, DoEmergencyStop(env, s, token, spec))
  {
    hide Pump, Mid, Refuse, RegisterStop;
    if s.token != Some(token) {
      RefusedIsMid(s, Ordinary, CapabilityInvalid);
    } else if s.stopRegistered.Some? {
    } else if CheckAcceptance(s).Some? {
      RefusedIsMid(s, Ordinary, CheckAcceptance(s).value);
    } else {
      RegisteredCanPump(s, token, spec);
      PumpIsMid(env, RegisterStop(s, token, spec));
    }
  }

  // ---------------------------------------------------------------- recovery, end of session, lease

  lemma ProbeIsEncodable()
    ensures PROBE_SPEC.Encodable()
  {
  }

  lemma RestartOkIsCalm(env: Env, s: Engine, epoch: nat)
    requires Mid(s, None) && Quiet(s) && epoch in s.restarting
    ensures Calm(s, DoRestartOk(env, s, epoch))
  {
    hide Count, TimesWritten, NeverWritten, SurelyWritten, StartRequest;
    var s0 := s.(restarting := s.restarting - {epoch});
    if IsCurrentRecovery(s, epoch) {
      assert s.active.None? && s.state.RestartingReader?;
      ProbeIsEncodable();
      var r := PendingRequest(s.nextId, PROBE_SPEC, Probe(s.epoch));
      var t := s0.(state := Probing, nextId := s.nextId + 1);
      ProbeCanStart(s, t, r);
      StartIsMid(env, t, r);
    } else {
      RestartsChanged(s, s0);
    }
  }

  lemma ProbeCanStart(s: Engine, t: Engine, r: PendingRequest)
    requires Mid(s, None) && Quiet(s) && s.state.RestartingReader? && s.active.None?
    requires r.id == s.nextId && r.origin == Probe(s.epoch)
    requires t == s.(restarting := s.restarting - {s.epoch}, state := Probing, nextId := s.nextId + 1)
    ensures CanStart(t, r)
  {
    hide Count, TimesWritten, NeverWritten, SurelyWritten;
    forall k: RequestId ensures Places(t, k) + InSlot(Some(r), k) == if k < t.nextId then 1 else 0 {
      assert Places(s, k) + InSlot(None, k) == if k < s.nextId then 1 else 0;
    }
    LogUntouched(s, t);
    if s.stopRegistered.Some? && StopJobQueued(s, s.stopRegistered.value) {
      assert StopJobQueued(t, s.stopRegistered.value);
    }
  }

  /** Consuming a restart promise, with or without giving recovery up. */
  lemma RestartsChanged(s: Engine, t: Engine)
    requires Mid(s, None) && Quiet(s)
    requires t == s.(restarting := t.restarting, state := t.state) && t.restarting <= s.restarting
    requires || (t.state == s.state && (s.epoch in s.restarting ==> s.epoch in t.restarting || s.state.Disconnected?))
             || (s.state.RestartingReader? && t.state.RecoveryFailed? && s.epoch !in t.restarting)
    ensures Mid(t, None) && Quiet(t)
  {
    hide Count, TimesWritten, NeverWritten, SurelyWritten;
    assert PlacesOk(t, None) by {
      forall k: RequestId ensures Places(t, k) == Places(s, k) {}
    }
    LogUntouched(s, t);
    if s.stopRegistered.Some? && StopJobQueued(s, s.stopRegistered.value) {
      assert StopJobQueued(t, s.stopRegistered.value);
    }
  }

  lemma RestartFailedIsCalm(s: Engine, epoch: nat)
    requires Mid(s, None) && Quiet(s) && epoch in s.restarting
    ensures Calm(s, DoRestartFailed(s, epoch))
  {
    hide PlacesOk, LogOk, LeaseOk, MidStop, JobsOk, TimesWritten;
    RestartsChanged(s, DoRestartFailed(s, epoch));
  }
}
