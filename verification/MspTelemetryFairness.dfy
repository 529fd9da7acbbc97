/** Pausing, alternation and fairness of the telemetry scheduler over whole runs. */
module MspTelemetryFairness {
  import opened MspTypes
  import opened MspTelemetryModel
  import opened MspTelemetryProofs

  /** The state before event k. */
  ghost function At(s: Scheduler, events: seq<Event>, k: nat): (t: Scheduler)
    requires Sound(s) && k <= |events|
    ensures Sound(t)
  {
    Run(s, events[..k])
  }

  /** The poll event k starts, if any. */
  ghost function DispatchAt(s: Scheduler, events: seq<Event>, k: nat): Option<RegistrationId>
    requires Sound(s) && k < |events|
  {
    Dispatched(At(s, events, k), events[k])
  }

  lemma OneMore(s: Scheduler, events: seq<Event>, k: nat)
    requires Sound(s) && k < |events|
    ensures Known(At(s, events, k)) && At(s, events, k + 1) == Step(At(s, events, k), events[k])
  {
    hide Step;
    assert events[..k + 1][..k] == events[..k];
  }

  // ---------------------------------------------------------------- pausing

  ghost predicate NeverReleased(events: seq<Event>, lease: LeaseId) {
    forall i :: 0 <= i < |events| ==> events[i] != ReleaseLease(lease)
  }

  lemma PausedStep(s: Scheduler, e: Event, lease: LeaseId)
    requires Sound(s) && lease in s.leases && e != ReleaseLease(lease)
    ensures lease in Step(s, e).leases && Dispatched(s, e).None?
    ensures InFlight(Step(s, e)) <= InFlight(s)
  {
    hide CacheOk, Counted, DistinctIds, DoTick, DoSettle, DoRegister, DoDiscard, DoRefresh, Pick, Restricted, Live;
    if Possible(s, e) {
      match e {
        case Tick(now) => TickEffect(s, now);
        case Settle(r, outcome, now) => SettleFlights(s, r, outcome, now);
        case Register(d, now) => RegisterFlights(s, d, now);
        case Discard(now) => DeadlineFlights(s, now, []);
        case Refresh(ids, now) => DeadlineFlights(s, now, ids);
        case _ =>
      }
    }
  }

  lemma SettleFlights(s: Scheduler, r: RegistrationId, outcome: Result<Reading, string>, now: real)
    requires Known(s) && r in s.store
    ensures InFlight(DoSettle(s, r, outcome, now)) == InFlight(s) - {r}
            && DoSettle(s, r, outcome, now).leases == s.leases
  {
  }

  lemma RegisterFlights(s: Scheduler, d: PollDefinition, now: real)
    requires Known(s)
    ensures InFlight(DoRegister(s, d, now)) == InFlight(s) && DoRegister(s, d, now).leases == s.leases
  {
    assert |s.store| !in s.store;
  }

  lemma DeadlineFlights(s: Scheduler, now: real, ids: seq<string>)
    ensures InFlight(DoDiscard(s, now)) == InFlight(s) && InFlight(DoRefresh(s, ids, now)) == InFlight(s)
    ensures DoDiscard(s, now).leases == s.leases == DoRefresh(s, ids, now).leases
  {
  }

  /** While any lease is held nothing is dispatched and flights can only end. */
  lemma {:induction false} PausedRun(s: Scheduler, events: seq<Event>, lease: LeaseId, k: nat)
    requires Sound(s) && lease in s.leases && NeverReleased(events, lease) && k <= |events|
    ensures lease in At(s, events, k).leases && InFlight(At(s, events, k)) <= InFlight(s)
    ensures k < |events| ==> DispatchAt(s, events, k).None?
  {
    hide Sound, InFlight, Dispatched, Step, At;
    if k > 0 {
      PausedRun(s, events, lease, k - 1);
      OneMore(s, events, k - 1);
      PausedStep(At(s, events, k - 1), events[k - 1], lease);
    } else {
      assert At(s, events, 0) == s by { NothingYet(s, events); }
    }
    if k < |events| {
      PausedStep(At(s, events, k), events[k], lease);
    }
  }

  lemma NothingYet(s: Scheduler, events: seq<Event>)
    requires Sound(s)
    ensures At(s, events, 0) == s
  {
  }

  /** A waiter resumes only at an instant when nothing is in flight. */
  lemma ResumedWhenIdle(s: Scheduler, e: Event, w: WaiterId)
    requires Sound(s) && w in Step(s, e).resumed && w !in s.resumed
    ensures InFlight(Step(s, e)) == {}
  {
    hide CacheOk, DistinctIds, Pick, Restricted, Refreshed, DoTick, DoRegister;
    StepKeepsSound(s, e);
    if e.Tick? {
      TickKeepsWaiters(s, e.now);
    } else if e.Register? {
      assert DoRegister(s, e.definition, e.now).resumed == s.resumed
        by { RegisterKeepsWaiters(s, e.definition, e.now); }
    }
  }

  lemma TickKeepsWaiters(s: Scheduler, now: real)
    requires Known(s)
    ensures DoTick(s, now).resumed == s.resumed
  {
    hide Pick, Restricted, Refreshed;
    RefreshKeepsKnown(s, now);
  }

  lemma RegisterKeepsWaiters(s: Scheduler, d: PollDefinition, now: real)
    requires Known(s)
    ensures DoRegister(s, d, now).resumed == s.resumed
  {
  }

  // ---------------------------------------------------------------- alternation

  /** After an auxiliary dispatch in singleFlight mode, a due primary poll is served next. */
  lemma PrimaryIsNext(s: Scheduler, now: real, r: RegistrationId)
    requires Sound(s) && s.singleFlight && s.lastDispatchedPriority.Some? && s.lastDispatchedPriority.value < 0.0
    requires PrimaryDue(s, now) && Selection(s, now) == Some(r)
    ensures s.store[r].definition.priority >= 0.0
  {
  }

  lemma LastPriorityStays(s: Scheduler, e: Event)
    requires Sound(s)
    ensures Step(s, e).singleFlight == s.singleFlight
    ensures Dispatched(s, e).None? ==> Step(s, e).lastDispatchedPriority == s.lastDispatchedPriority
    ensures Dispatched(s, e).Some? ==>
              Dispatched(s, e).value in s.store
              && Step(s, e).lastDispatchedPriority == Some(s.store[Dispatched(s, e).value].definition.priority)
  {
    hide CacheOk, Counted, DistinctIds, Pick, Restricted, Live, DoTick;
    if e.Tick? && Possible(s, e) {
      SelectionIgnoresValues(s, e.now);
      TickEffect(s, e.now);
      TickKeepsMode(s, e.now);
    }
  }

  lemma TickKeepsMode(s: Scheduler, now: real)
    requires Known(s)
    ensures DoTick(s, now).singleFlight == s.singleFlight
  {
    hide Pick, Restricted, Refreshed;
    RefreshKeepsKnown(s, now);
  }

  lemma {:induction false} LastPriorityFrom(s: Scheduler, events: seq<Event>, i: nat, j: nat)
    requires Sound(s) && i < j <= |events| && DispatchAt(s, events, i).Some?
    requires forall k :: i < k < j ==> DispatchAt(s, events, k).None?
    ensures
      var p := DispatchAt(s, events, i).value;
      && p in At(s, events, i).store
      && At(s, events, j).lastDispatchedPriority == Some(At(s, events, i).store[p].definition.priority)
      && At(s, events, j).singleFlight == At(s, events, i).singleFlight
    decreases j
  {
    hide Sound, Dispatched, Step, At;
    if j > i + 1 {
      LastPriorityFrom(s, events, i, j - 1);
      assert DispatchAt(s, events, j - 1).None?;
    }
    OneMore(s, events, j - 1);
    LastPriorityStays(At(s, events, j - 1), events[j - 1]);
  }

  /** ALTERNATION: in singleFlight mode no two consecutive dispatches are auxiliary while a primary poll is due. */
  lemma NoTwoAuxiliariesInARow(s: Scheduler, events: seq<Event>, i: nat, j: nat)
    requires Sound(s) && i < j < |events| && events[j].Tick? && At(s, events, i).singleFlight
    requires DispatchAt(s, events, i).Some? && DispatchAt(s, events, j).Some?
    requires forall k :: i < k < j ==> DispatchAt(s, events, k).None?
    requires PrimaryDue(At(s, events, j), events[j].now)
    ensures
      var p := DispatchAt(s, events, i).value;
      var q := DispatchAt(s, events, j).value;
      && p in At(s, events, i).store && q in At(s, events, j).store
      && (At(s, events, i).store[p].definition.priority >= 0.0 || At(s, events, j).store[q].definition.priority >= 0.0)
  {
    hide Step, Selection, PrimaryDue, At;
    var u := At(s, events, j);
    LastPriorityFrom(s, events, i, j);
    LastPriorityStays(u, events[j]);
    SelectionIgnoresValues(u, events[j].now);
    if At(s, events, i).store[DispatchAt(s, events, i).value].definition.priority < 0.0 {
      PrimaryIsNext(u, events[j].now, DispatchAt(s, events, j).value);
    }
  }

  // ---------------------------------------------------------------- bounded bypass

  /** The poll was last dispatched no earlier than t and nobody asked for it since. */
  ghost predicate Rested(s: Scheduler, q: RegistrationId, d: PollDefinition, t: real) {
    && q in s.store && s.store[q].definition == d
    && s.store[q].dueAtMs >= t + d.intervalMs
    && s.lastReadMs >= t
  }

  lemma RestedStays(s: Scheduler, e: Event, q: RegistrationId, d: PollDefinition, t: real)
    requires Sound(s) && Rested(s, q, d, t) && (e.Refresh? ==> d.id !in e.ids)
    ensures Rested(Step(s, e), q, d, t)
  {
    hide CacheOk, Counted, DistinctIds, Pick, Restricted, Live, DoTick;
    if Possible(s, e) {
      match e {
        case Tick(now) => TickEffect(s, now);
        case Settle(r, outcome, now) => StoreOk(s, r); SettledOk(s.store[r], s.lastReadMs, outcome, now);
        case _ =>
      }
    }
  }

  lemma StoreOk(s: Scheduler, r: RegistrationId)
    requires Sound(s) && r in s.store
    ensures CacheOk(s.store[r], s.lastReadMs)
  {
  }

  /** A dispatch rests the poll until its next deadline. */
  lemma DispatchRests(s: Scheduler, e: Event, q: RegistrationId)
    requires Sound(s) && Dispatched(s, e) == Some(q)
    ensures q in s.store && Rested(Step(s, e), q, s.store[q].definition, e.now)
  {
    hide CacheOk, Counted, DistinctIds, Pick, Restricted, Live, DoTick;
    SelectionIgnoresValues(s, e.now);
    TickEffect(s, e.now);
  }

  /** Nobody asks for poll `id` between events i and j. */
  ghost predicate NotRequested(events: seq<Event>, i: nat, j: nat, id: string)
    requires j <= |events|
  {
    forall k :: i < k < j && events[k].Refresh? ==> id !in events[k].ids
  }

  lemma {:induction false} RestedFrom(s: Scheduler, events: seq<Event>, i: nat, j: nat, q: RegistrationId)
    requires Sound(s) && i < j <= |events| && events[i].Tick? && DispatchAt(s, events, i) == Some(q)
    requires q in At(s, events, i).store && NotRequested(events, i, j, At(s, events, i).store[q].definition.id)
    ensures Rested(At(s, events, j), q, At(s, events, i).store[q].definition, events[i].now)
    decreases j
  {
    hide Sound, Dispatched, Step, At, Rested;
    OneMore(s, events, j - 1);
    if j == i + 1 {
      DispatchRests(At(s, events, i), events[i], q);
    } else {
      RestedFrom(s, events, i, j - 1, q);
      RestedStays(At(s, events, j - 1), events[j - 1], q, At(s, events, i).store[q].definition, events[i].now);
    }
  }

  /** What it means that q, due only since t + its interval, was preferred to p. */
  lemma PreferredLater(p: Poll, q: Poll, t: real, now: real)
    requires q.dueAtMs >= t + q.definition.intervalMs && !Better(p, q, now)
    ensures now - t >= q.definition.intervalMs * (1.0 + Ratio(p, now))
  {
    var iq := q.definition.intervalMs;
    assert Ratio(q, now) >= Ratio(p, now);
    assert iq * Ratio(q, now) == now - q.dueAtMs;
    assert iq * Ratio(q, now) >= iq * Ratio(p, now);
  }

  lemma ChosenIsNotWorse(s: Scheduler, now: real, p: RegistrationId, q: RegistrationId)
    requires Sound(s) && Selection(s, now) == Some(q) && p in s.registry && p != q
    requires Candidate(s.store[p], now, Restricted(s, now))
    ensures q in s.store && !Better(s.store[p], s.store[q], now)
  {
    hide Better, Candidate, Restricted, CacheOk, Counted;
    var n := |s.registry|;
    var k := PickIsBest(s, now, Restricted(s, now), n);
    var i :| 0 <= i < n && s.registry[i] == p;
    if i < k {
      BetterNotBoth(s.store[q], s.store[p], now);
    }
  }

  lemma BetterNotBoth(p: Poll, q: Poll, now: real)
    requires Better(p, q, now)
    ensures !Better(q, p, now)
  {
    hide Ratio;
  }

  /**
   * BOUNDED BYPASS: between two dispatches of q, the second ahead of a waiting p, passes q's interval
   * stretched by how overdue p already is.
   */
  lemma BypassesAreSpaced(s: Scheduler, events: seq<Event>, i: nat, j: nat, p: RegistrationId, q: RegistrationId)
    requires Sound(s) && i < j < |events| && p != q && events[i].Tick? && events[j].Tick?
    requires DispatchAt(s, events, i) == Some(q) && DispatchAt(s, events, j) == Some(q)
    requires q in At(s, events, i).store && NotRequested(events, i, j, At(s, events, i).store[q].definition.id)
    requires p in At(s, events, j).registry && p in At(s, events, j).store
    requires Candidate(At(s, events, j).store[p], events[j].now, Restricted(At(s, events, j), events[j].now))
    ensures
      var waiting := At(s, events, j).store[p];
      events[j].now - events[i].now
      >= At(s, events, i).store[q].definition.intervalMs
         * (1.0 + (events[j].now - waiting.dueAtMs) / waiting.definition.intervalMs)
  {
    hide Sound, Step, At, Selection, Restricted, Candidate, Better;
    var u := At(s, events, j);
    RestedFrom(s, events, i, j, q);
    SelectionIgnoresValues(u, events[j].now) by { DispatchIsPossible(u, events[j]); }
    ChosenIsNotWorse(u, events[j].now, p, q);
    PreferredLater(u.store[p], u.store[q], events[i].now, events[j].now);
  }

  lemma DispatchIsPossible(s: Scheduler, e: Event)
    requires Sound(s) && Dispatched(s, e).Some?
    ensures e.Tick? && s.lastReadMs <= e.now
  {
  }

  /** No event of the run moves p's deadline, and p is not served. */
  ghost predicate LeavesWaiting(s: Scheduler, e: Event, p: RegistrationId)
    requires Sound(s)
  {
    && Dispatched(s, e) != Some(p)
    && !e.Discard?
    && e != Unregister(p)
    && (p in s.store && e.Refresh? ==> s.store[p].definition.id !in e.ids)
    && (p in s.store && e.Register? ==> e.definition.id != s.store[p].definition.id)
  }

  ghost predicate Waits(s: Scheduler, p: RegistrationId, d: PollDefinition, due: real) {
    p in s.registry && p in s.store && !s.store[p].inFlight && s.store[p].definition == d && s.store[p].dueAtMs == due
  }

  lemma WaitingStays(s: Scheduler, e: Event, p: RegistrationId, d: PollDefinition, due: real)
    requires Sound(s) && Waits(s, p, d, due) && LeavesWaiting(s, e, p)
    ensures Waits(Step(s, e), p, d, due)
  {
    hide CacheOk, Counted, DistinctIds, Pick, Restricted, Live, DoTick, DoRegister, IndexOfId;
    if Possible(s, e) {
      match e {
        case Tick(now) => SelectionIgnoresValues(s, now); TickEffect(s, now);
        case Register(r, now) => OtherRegistered(s, r, now, p);
        case Unregister(r) => WithoutFacts(s.registry, r);
        case _ =>
      }
    }
  }

  lemma OtherRegistered(s: Scheduler, d: PollDefinition, now: real, p: RegistrationId)
    requires Sound(s) && p in s.registry && p in s.store && d.id != s.store[p].definition.id
    ensures p in DoRegister(s, d, now).registry && p in DoRegister(s, d, now).store
            && DoRegister(s, d, now).store[p] == s.store[p]
  {
    hide CacheOk, Counted, DistinctIds;
    var t := DoRegister(s, d, now);
    var i :| 0 <= i < |s.registry| && s.registry[i] == p;
    assert t.registry[i] == p;
  }

  lemma {:induction false} WaitsThrough(s: Scheduler, events: seq<Event>, k: nat, p: RegistrationId)
    requires Sound(s) && p in s.registry && p in s.store && !s.store[p].inFlight && k <= |events|
    requires forall i :: 0 <= i < k ==> LeavesWaiting(At(s, events, i), events[i], p)
    ensures Waits(At(s, events, k), p, s.store[p].definition, s.store[p].dueAtMs)
  {
    hide Sound, Step, At, LeavesWaiting;
    if k == 0 {
      NothingYet(s, events);
    } else {
      WaitsThrough(s, events, k - 1, p);
      OneMore(s, events, k - 1);
      WaitingStays(At(s, events, k - 1), events[k - 1], p, s.store[p].definition, s.store[p].dueAtMs);
    }
  }

  /** p is due from the start and left waiting up to event j. */
  ghost predicate WaitsUntil(s: Scheduler, events: seq<Event>, j: nat, p: RegistrationId)
    requires Sound(s) && j <= |events|
  {
    && p in s.registry && p in s.store && Due(s.store[p], s.lastReadMs)
    && forall k :: 0 <= k < j ==> LeavesWaiting(At(s, events, k), events[k], p)
  }

  /**
   * A poll that is due and stays unserved is overtaken at most once by any poll whose interval is no
   * shorter than its own. An auxiliary poll is owed this only by ticks not restricted to primaries.
   */
  lemma OvertakenAtMostOnce(s: Scheduler, events: seq<Event>, i: nat, j: nat, p: RegistrationId, q: RegistrationId)
    requires Sound(s) && i < j < |events| && p != q && events[i].Tick? && events[j].Tick?
    requires WaitsUntil(s, events, j, p)
    requires q in At(s, events, i).store && NotRequested(events, i, j, At(s, events, i).store[q].definition.id)
    requires At(s, events, i).store[q].definition.intervalMs >= s.store[p].definition.intervalMs
    requires s.store[p].definition.priority >= 0.0 || !Restricted(At(s, events, j), events[j].now)
    ensures !(DispatchAt(s, events, i) == Some(q) && DispatchAt(s, events, j) == Some(q))
  {
    hide Sound, Step, LeavesWaiting, Selection, Restricted, At;
    if DispatchAt(s, events, i) == Some(q) && DispatchAt(s, events, j) == Some(q) {
      WaitsThrough(s, events, j, p);
      DispatchIsPossible(At(s, events, i), events[i]);
      DispatchIsPossible(At(s, events, j), events[j]);
      ClockAdvances(s, events, 0, i);
      ClockAdvances(s, events, i, j);
      NothingYet(s, events);
      BypassesAreSpaced(s, events, i, j, p, q);
      OvertakingTooSoon(At(s, events, i).store[q].definition.intervalMs, s.store[p].definition.intervalMs,
                        events[j].now - s.store[p].dueAtMs);
    }
  }

  lemma OvertakingTooSoon(iq: Interval, ip: Interval, waited: real)
    requires iq >= ip && 0.0 <= waited
    ensures iq * (1.0 + waited / ip) > waited
  {
    assert iq * (waited / ip) >= ip * (waited / ip) == waited;
  }

  lemma {:induction false} ClockAdvances(s: Scheduler, events: seq<Event>, i: nat, j: nat)
    requires Sound(s) && i <= j <= |events|
    ensures At(s, events, i).lastReadMs <= At(s, events, j).lastReadMs
    decreases j
  {
    hide Sound, Step, At;
    if i < j {
      ClockAdvances(s, events, i, j - 1);
      OneMore(s, events, j - 1);
      StepAdvancesClock(At(s, events, j - 1), events[j - 1]);
    }
  }

  lemma StepAdvancesClock(s: Scheduler, e: Event)
    requires Sound(s)
    ensures s.lastReadMs <= Step(s, e).lastReadMs
  {
    hide CacheOk, Counted, DistinctIds, Pick, Restricted, Live, DoTick;
    if e.Tick? && Possible(s, e) {
      TickEffect(s, e.now);
    }
  }
}
