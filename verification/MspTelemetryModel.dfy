/**
 * The telemetry scheduler as a function from states and events to states. Times are exact reals and a
 * poll registration is known by a number, so that an unregistered or replaced poll can still be in flight.
 */
module MspTelemetryModel {
  import opened MspTypes

  type RegistrationId = nat
  type LeaseId = nat
  type WaiterId = nat
  type Reading = seq<byte>
  type Interval = ms: real | ms > 0.0 witness 1.0

  datatype PollDefinition = PollDefinition(
    id: string,
    intervalMs: Interval,
    staleAfterMs: real,
    priority: real,
    initialDelayMs: real)

  datatype PollOutcome =
    | Success(value: Reading, updatedAtMs: real)
    | Failure(error: string)

  datatype TelemetryValue =
    | Unavailable
    | Waiting
    | Fresh(value: Reading, updatedAtMs: real)
    | Stale(value: Reading, updatedAtMs: real, ageMs: real)
    | Failed(error: string, lastSuccessAtMs: Option<real>)

  datatype Poll = Poll(
    definition: PollDefinition,
    dueAtMs: real,
    inFlight: bool,
    lastOutcome: Option<PollOutcome>,
    lastSuccessAtMs: Option<real>,
    cachedValue: TelemetryValue)

  /**
   * `registry` lists the current registrations in the order of their first insertion; `store` also keeps
   * the polls that are no longer registered. `lastReadMs` is the latest clock reading anything used.
   */
  datatype Scheduler = Scheduler(
    registry: seq<RegistrationId>,
    store: map<RegistrationId, Poll>,
    leases: set<LeaseId>,
    nextLease: LeaseId,
    inFlightCount: int,
    waiters: seq<WaiterId>,
    resumed: set<WaiterId>,
    nextWaiter: WaiterId,
    lastDispatchedPriority: Option<real>,
    singleFlight: bool,
    lastReadMs: real)

  function Initial(singleFlight: bool, now: real): Scheduler {
    Scheduler([], map[], {}, 0, 0, [], {}, 0, None, singleFlight, now)
  }

  ghost predicate Known(s: Scheduler) {
    && (forall i :: 0 <= i < |s.registry| ==> s.registry[i] in s.store)
    && (forall i, j :: 0 <= i < j < |s.registry| ==> s.registry[i] != s.registry[j])
    && (forall r :: r in s.store ==> r < |s.store|)
  }

  // ---------------------------------------------------------------- values

  /** What the value of a poll should be at a given instant. */
  function Live(p: Poll, now: real): TelemetryValue {
    if p.lastOutcome.None? then Waiting
    else
      match p.lastOutcome.value
      case Failure(error) => Failed(error, p.lastSuccessAtMs)
      case Success(value, at) =>
        if now - at >= p.definition.staleAfterMs then Stale(value, at, now - at) else Fresh(value, at)
  }

  /** What a tick does to the cached value of one poll. */
  function Refreshed(p: Poll, now: real): Poll {
    if !p.cachedValue.Fresh? && !p.cachedValue.Stale? then p
    else
      var ageMs := now - p.cachedValue.updatedAtMs;
      if ageMs >= p.definition.staleAfterMs then
        p.(cachedValue := Stale(p.cachedValue.value, p.cachedValue.updatedAtMs, ageMs))
      else p
  }

  function RefreshAll(s: Scheduler, now: real): Scheduler {
    s.(store := map r | r in s.store :: if r in s.registry then Refreshed(s.store[r], now) else s.store[r],
       lastReadMs := now)
  }

  // ---------------------------------------------------------------- selection

  predicate Due(p: Poll, now: real) {
    !p.inFlight && now >= p.dueAtMs
  }

  function Ratio(p: Poll, now: real): real {
    (now - p.dueAtMs) / p.definition.intervalMs
  }

  predicate PrimaryDue(s: Scheduler, now: real)
    requires Known(s)
  {
    exists i :: 0 <= i < |s.registry| && Due(s.store[s.registry[i]], now)
      && s.store[s.registry[i]].definition.priority >= 0.0
  }

  /** After an auxiliary dispatch, a due primary poll keeps the next slot for the primaries. */
  predicate Restricted(s: Scheduler, now: real)
    requires Known(s)
  {
    s.singleFlight && s.lastDispatchedPriority.Some? && s.lastDispatchedPriority.value < 0.0 && PrimaryDue(s, now)
  }

  predicate Blocked(s: Scheduler) {
    s.leases != {} || (s.singleFlight && s.inFlightCount > 0)
  }

  predicate Candidate(p: Poll, now: real, restricted: bool) {
    Due(p, now) && (restricted ==> p.definition.priority >= 0.0)
  }

  /** Strictly more overdue for its own interval, or equally so and of higher priority. */
  predicate Better(p: Poll, q: Poll, now: real) {
    Ratio(p, now) > Ratio(q, now) || (Ratio(p, now) == Ratio(q, now) && p.definition.priority > q.definition.priority)
  }

  /** The best among the first k registrations, as one pass over them finds it. */
  function Pick(s: Scheduler, now: real, restricted: bool, k: nat): (best: Option<RegistrationId>)
    requires Known(s) && k <= |s.registry|
    ensures best.Some? ==> best.value in s.registry[..k] && Candidate(s.store[best.value], now, restricted)
    ensures best.None? ==> forall i :: 0 <= i < k ==> !Candidate(s.store[s.registry[i]], now, restricted)
  {
    if k == 0 then None
    else
      var best := Pick(s, now, restricted, k - 1);
      var r := s.registry[k - 1];
      if !Candidate(s.store[r], now, restricted) then best
      else if best.None? || Better(s.store[r], s.store[best.value], now) then Some(r)
      else best
  }

  function Selection(s: Scheduler, now: real): Option<RegistrationId>
    requires Known(s)
  {
    if Blocked(s) then None else Pick(s, now, Restricted(s, now), |s.registry|)
  }

  // ---------------------------------------------------------------- events

  function Dispatch(s: Scheduler, r: RegistrationId, now: real): Scheduler
    requires r in s.store
  {
    var p := s.store[r];
    s.(store := s.store[r := p.(inFlight := true, dueAtMs := now + p.definition.intervalMs)],
       inFlightCount := s.inFlightCount + 1,
       lastDispatchedPriority := Some(p.definition.priority))
  }

  function DoTick(s: Scheduler, now: real): Scheduler
    requires Known(s)
  {
    var s1 := RefreshAll(s, now);
    RefreshKeepsKnown(s, now);
    var chosen := Selection(s1, now);
    if chosen.None? then s1 else Dispatch(s1, chosen.value, now)
  }

  lemma RefreshKeepsKnown(s: Scheduler, now: real)
    requires Known(s)
    ensures Known(RefreshAll(s, now))
  {
    assert RefreshAll(s, now).store.Keys == s.store.Keys;
  }

  function Settled(p: Poll, outcome: Result<Reading, string>, now: real): Poll {
    match outcome
    case Ok(value) =>
      p.(lastOutcome := Some(Success(value, now)), lastSuccessAtMs := Some(now), cachedValue := Fresh(value, now),
         inFlight := false)
    case Err(error) =>
      p.(lastOutcome := Some(Failure(error)), cachedValue := Failed(error, p.lastSuccessAtMs), inFlight := false)
  }

  /** A dispatch settles; the last one resolves everyone waiting for idleness. */
  function DoSettle(s: Scheduler, r: RegistrationId, outcome: Result<Reading, string>, now: real): Scheduler
    requires r in s.store
  {
    var s1 := s.(store := s.store[r := Settled(s.store[r], outcome, now)], inFlightCount := s.inFlightCount - 1,
                 lastReadMs := now);
    if s1.inFlightCount == 0 then s1.(waiters := [], resumed := s.resumed + (set w | w in s.waiters)) else s1
  }

  function IndexOfId(s: Scheduler, id: string, k: nat): (at: Option<nat>)
    requires Known(s) && k <= |s.registry|
    ensures at.Some? ==> at.value < k && s.store[s.registry[at.value]].definition.id == id
    ensures at.None? ==> forall i :: 0 <= i < k ==> s.store[s.registry[i]].definition.id != id
  {
    if k == 0 then None
    else if s.store[s.registry[k - 1]].definition.id == id then Some(k - 1)
    else IndexOfId(s, id, k - 1)
  }

  /** Registering an id again replaces the registration but keeps its place in the order. */
  function DoRegister(s: Scheduler, d: PollDefinition, now: real): Scheduler
    requires Known(s)
  {
    var r := |s.store|;
    var p := Poll(d, now + d.initialDelayMs, false, None, None, Waiting);
    var at := IndexOfId(s, d.id, |s.registry|);
    s.(store := s.store[r := p], lastReadMs := now,
       registry := if at.Some? then s.registry[at.value := r] else s.registry + [r])
  }

  function Without(rs: seq<RegistrationId>, r: RegistrationId): seq<RegistrationId> {
    if rs == [] then [] else if rs[0] == r then rs[1..] else [rs[0]] + Without(rs[1..], r)
  }

  /** Only the registration that is still on record is removed. */
  function DoUnregister(s: Scheduler, r: RegistrationId): Scheduler {
    s.(registry := Without(s.registry, r))
  }

  function GetValue(s: Scheduler, id: string): TelemetryValue
    requires Known(s)
  {
    var at := IndexOfId(s, id, |s.registry|);
    if at.None? then Unavailable else s.store[s.registry[at.value]].cachedValue
  }

  function DoAcquireLease(s: Scheduler): Scheduler {
    s.(leases := s.leases + {s.nextLease}, nextLease := s.nextLease + 1)
  }

  function DoReleaseLease(s: Scheduler, lease: LeaseId): Scheduler {
    s.(leases := s.leases - {lease})
  }

  function DoAwaitIdle(s: Scheduler): Scheduler {
    var w := s.nextWaiter;
    if s.inFlightCount == 0 then s.(nextWaiter := w + 1, resumed := s.resumed + {w})
    else s.(nextWaiter := w + 1, waiters := s.waiters + [w])
  }

  function Discarded(p: Poll, now: real): Poll {
    if Due(p, now) then p.(dueAtMs := now + p.definition.intervalMs) else p
  }

  function DoDiscard(s: Scheduler, now: real): Scheduler {
    s.(store := map r | r in s.store :: if r in s.registry then Discarded(s.store[r], now) else s.store[r],
       lastReadMs := now)
  }

  function Demanded(p: Poll, now: real): Poll {
    if p.dueAtMs > now then p.(dueAtMs := now) else p
  }

  function DoRefresh(s: Scheduler, ids: seq<string>, now: real): Scheduler {
    s.(store := map r | r in s.store ::
         if r in s.registry && s.store[r].definition.id in ids then Demanded(s.store[r], now) else s.store[r],
       lastReadMs := now)
  }

  datatype Event =
    | Register(definition: PollDefinition, now: real)
    | Unregister(registration: RegistrationId)
    | Tick(now: real)
    | Settle(registration: RegistrationId, outcome: Result<Reading, string>, now: real)
    | AcquireLease
    | ReleaseLease(lease: LeaseId)
    | AwaitIdle
    | Discard(now: real)
    | Refresh(ids: seq<string>, now: real)

  function TimeOf(e: Event): Option<real> {
    match e
    case Register(_, now) => Some(now)
    case Tick(now) => Some(now)
    case Settle(_, _, now) => Some(now)
    case Discard(now) => Some(now)
    case Refresh(_, now) => Some(now)
    case _ => None
  }

  /** The clock never runs backwards, and only a running dispatch can settle. */
  predicate Possible(s: Scheduler, e: Event) {
    && (TimeOf(e).Some? ==> s.lastReadMs <= TimeOf(e).value)
    && (e.Settle? ==> e.registration in s.store && s.store[e.registration].inFlight)
  }

  function Step(s: Scheduler, e: Event): Scheduler
    requires Known(s)
  {
    if !Possible(s, e) then s
    else
      match e
      case Register(d, now) => DoRegister(s, d, now)
      case Unregister(r) => DoUnregister(s, r)
      case Tick(now) => DoTick(s, now)
      case Settle(r, outcome, now) => DoSettle(s, r, outcome, now)
      case AcquireLease => DoAcquireLease(s)
      case ReleaseLease(lease) => DoReleaseLease(s, lease)
      case AwaitIdle => DoAwaitIdle(s)
      case Discard(now) => DoDiscard(s, now)
      case Refresh(ids, now) => DoRefresh(s, ids, now)
  }
}
