/** What each event of the telemetry scheduler does, in numbers and in terms of the state before it. */
module MspTelemetryBehaviour {
  import opened MspTypes
  import opened MspTelemetryModel
  import opened MspTelemetryProofs

  /** Not in flight, and its deadline has come. */
  predicate IsOverdue(p: Poll, now: real) {
    !p.inFlight && p.dueAtMs <= now
  }

  /** Later by a greater share of its own interval, or by the same share and of higher priority. */
  predicate Precedes(p: Poll, q: Poll, now: real) {
    var a := (now - p.dueAtMs) / p.definition.intervalMs;
    var b := (now - q.dueAtMs) / q.definition.intervalMs;
    a > b || (a == b && p.definition.priority > q.definition.priority)
  }

  /** Whether the slot is kept for the primaries: the last dispatch was auxiliary, and a primary is overdue. */
  ghost predicate PrimariesOnly(s: Scheduler, now: real)
    requires Known(s)
  {
    && s.singleFlight
    && s.lastDispatchedPriority.Some? && s.lastDispatchedPriority.value < 0.0
    && exists i :: 0 <= i < |s.registry| && IsOverdue(s.store[s.registry[i]], now)
         && s.store[s.registry[i]].definition.priority >= 0.0
  }

  ghost predicate Competes(s: Scheduler, now: real, i: nat)
    requires Known(s) && i < |s.registry|
  {
    && IsOverdue(s.store[s.registry[i]], now)
    && (PrimariesOnly(s, now) ==> s.store[s.registry[i]].definition.priority >= 0.0)
  }

  ghost predicate NothingHoldsItBack(s: Scheduler) {
    s.leases == {} && (s.singleFlight ==> forall r :: r in s.store ==> !s.store[r].inFlight)
  }

  lemma SameCompetition(s: Scheduler, now: real)
    requires Known(s)
    ensures PrimariesOnly(s, now) <==> Restricted(s, now)
    ensures forall i :: 0 <= i < |s.registry| ==>
              (Competes(s, now, i) <==> Candidate(s.store[s.registry[i]], now, Restricted(s, now)))
  {
    if PrimaryDue(s, now) {
      var i :| 0 <= i < |s.registry| && Due(s.store[s.registry[i]], now)
               && s.store[s.registry[i]].definition.priority >= 0.0;
      assert IsOverdue(s.store[s.registry[i]], now);
    }
    if PrimariesOnly(s, now) {
      var i :| 0 <= i < |s.registry| && IsOverdue(s.store[s.registry[i]], now)
               && s.store[s.registry[i]].definition.priority >= 0.0;
      assert Due(s.store[s.registry[i]], now);
    }
  }

  lemma SameOrder(p: Poll, q: Poll, now: real)
    ensures Precedes(p, q, now) <==> Better(p, q, now)
  {
  }

  lemma NotBlocked(s: Scheduler)
    requires Sound(s)
    ensures NothingHoldsItBack(s) <==> !Blocked(s)
  {
    hide CacheOk;
    if s.singleFlight && s.inFlightCount > 0 {
      var r :| r in InFlight(s);
      assert s.store[r].inFlight;
    } else if forall r :: r in s.store ==> !s.store[r].inFlight {
      assert InFlight(s) == {};
    } else {
      var r :| r in s.store && s.store[r].inFlight;
      assert r in InFlight(s);
    }
  }

  /**
   * WHICH POLL A TICK STARTS: with no pause lease held, and in singleFlight mode nothing in flight, the one overdue
   * poll that precedes every earlier registration and is preceded by no later one; among the primaries only, if the
   * last dispatch was an auxiliary one and a primary is overdue; and with a lease held or the slot taken, none.
   */
  lemma TickStarts(s: Scheduler, now: real, k: nat)
    requires Sound(s) && s.lastReadMs <= now && k < |s.registry|
    ensures
      var t := Step(s, Tick(now));
      var q := s.registry[k];
      q in t.store
      && (!s.store[q].inFlight && t.store[q].inFlight <==>
          && NothingHoldsItBack(s) && Competes(s, now, k)
          && (forall i :: 0 <= i < k && Competes(s, now, i) ==> Precedes(s.store[q], s.store[s.registry[i]], now))
          && (forall i :: k < i < |s.registry| && Competes(s, now, i) ==>
                !Precedes(s.store[s.registry[i]], s.store[q], now)))
  {
    hide Competes, PrimariesOnly, NothingHoldsItBack, Precedes, IsOverdue, Blocked, Restricted, Candidate, Better,
      DoTick,
      Selection, CacheOk, Counted, DistinctIds;
    var q := s.registry[k];
    SameCompetition(s, now);
    NotBlocked(s);
    SelectionIsTheBest(s, now, k);
    TickEffect(s, now);
    forall i | 0 <= i < |s.registry|
      ensures Precedes(s.store[q], s.store[s.registry[i]], now) <==> Better(s.store[q], s.store[s.registry[i]], now)
      ensures Precedes(s.store[s.registry[i]], s.store[q], now) <==> Better(s.store[s.registry[i]], s.store[q], now)
    {
      SameOrder(s.store[q], s.store[s.registry[i]], now);
      SameOrder(s.store[s.registry[i]], s.store[q], now);
    }
    assert Step(s, Tick(now)) == DoTick(s, now);
    if Competes(s, now, k) { CompetitorIsFree(s, now, k); }
    if Selection(s, now) == Some(q) { assert Competes(s, now, k) by { BestCompetes(s, now, k); } }
  }

  lemma CompetitorIsFree(s: Scheduler, now: real, k: nat)
    requires Known(s) && k < |s.registry| && Competes(s, now, k)
    ensures !s.store[s.registry[k]].inFlight
  {
  }

  lemma BestCompetes(s: Scheduler, now: real, k: nat)
    requires Sound(s) && k < |s.registry| && Selection(s, now) == Some(s.registry[k])
    ensures Competes(s, now, k)
  {
    hide Competes, Better, Restricted, Candidate, CacheOk, Counted, DistinctIds;
    SelectionIsTheBest(s, now, k);
    SameCompetition(s, now);
  }

  /** What a started poll is due next, and that a tick moves nothing else. */
  lemma TickMoves(s: Scheduler, now: real, r: RegistrationId)
    requires Sound(s) && s.lastReadMs <= now && r in s.store
    ensures
      var t := Step(s, Tick(now));
      && r in t.store && t.store[r].definition == s.store[r].definition
      && t.registry == s.registry && t.leases == s.leases
      && (if t.store[r].inFlight && !s.store[r].inFlight
          then t.store[r].dueAtMs == now + s.store[r].definition.intervalMs
               && t.lastDispatchedPriority == Some(s.store[r].definition.priority)
          else t.store[r].dueAtMs == s.store[r].dueAtMs && t.store[r].inFlight == s.store[r].inFlight)
  {
    hide DoTick, Pick, CacheOk, Counted, DistinctIds, Live;
    TickEffect(s, now);
    if Selection(s, now) == Some(r) {
      ChosenWasIdle(s, now, r);
    }
  }

  lemma ChosenWasIdle(s: Scheduler, now: real, r: RegistrationId)
    requires Known(s) && Selection(s, now) == Some(r)
    ensures r in s.store && !s.store[r].inFlight
  {
    assert r in s.registry[..|s.registry|];
  }

  // ---------------------------------------------------------------- values

  /** A value is fresh while younger than its poll's bound, then stale by its age; a failure replaces it. */
  lemma ValuesOverTime(p: Poll, now: real)
    ensures p.lastOutcome.None? ==> Live(p, now) == Waiting
    ensures p.lastOutcome.Some? && p.lastOutcome.value.Success? ==>
              var age := now - p.lastOutcome.value.updatedAtMs;
              Live(p, now) ==
              if age < p.definition.staleAfterMs then Fresh(p.lastOutcome.value.value, p.lastOutcome.value.updatedAtMs)
              else Stale(p.lastOutcome.value.value, p.lastOutcome.value.updatedAtMs, age)
    ensures p.lastOutcome.Some? && p.lastOutcome.value.Failure? ==>
              Live(p, now) == Failed(p.lastOutcome.value.error, p.lastSuccessAtMs)
  {
  }

  /** A dispatch that settles frees its poll, records its outcome and moves no deadline. */
  lemma SettlementRecords(s: Scheduler, r: RegistrationId, outcome: Result<Reading, string>, now: real)
    requires Sound(s) && r in s.store && s.store[r].inFlight && s.lastReadMs <= now
    ensures
      var t := Step(s, Settle(r, outcome, now));
      var p, q := s.store[r], t.store[r];
      && !q.inFlight && q.dueAtMs == p.dueAtMs && q.definition == p.definition
      && t.inFlightCount == s.inFlightCount - 1
      && (outcome.Ok? ==> q.cachedValue == Fresh(outcome.value, now) && q.lastSuccessAtMs == Some(now)
                          && q.lastOutcome == Some(Success(outcome.value, now)))
      && (outcome.Err? ==> q.cachedValue == Failed(outcome.error, p.lastSuccessAtMs)
                           && q.lastSuccessAtMs == p.lastSuccessAtMs && q.lastOutcome == Some(Failure(outcome.error)))
      && (forall k :: k in s.store && k != r ==> k in t.store && t.store[k] == s.store[k])
      && (t.inFlightCount == 0 ==> forall w :: w in s.waiters ==> w in t.resumed)
      && (t.inFlightCount > 0 ==> t.waiters == s.waiters && t.resumed == s.resumed)
  {
    hide CacheOk, Counted, DistinctIds;
  }

  // ---------------------------------------------------------------- registrations and deadlines

  /** A new registration waits for its initial delay, in the place of an earlier one of its id or at the end. */
  lemma RegistrationEnters(s: Scheduler, d: PollDefinition, now: real)
    requires Sound(s) && s.lastReadMs <= now
    ensures
      var t := Step(s, Register(d, now));
      var r := |s.store|;
      && r in t.store && r !in s.store
      && t.store[r].definition == d && t.store[r].dueAtMs == now + d.initialDelayMs
      && !t.store[r].inFlight && t.store[r].cachedValue == Waiting && t.store[r].lastOutcome.None?
      && (forall k :: k in s.store ==> t.store[k] == s.store[k])
      && ((forall i :: 0 <= i < |s.registry| ==> s.store[s.registry[i]].definition.id != d.id) ==>
            t.registry == s.registry + [r])
      && (forall i :: 0 <= i < |s.registry| && s.store[s.registry[i]].definition.id == d.id ==>
            t.registry == s.registry[i := r])
  {
    hide CacheOk, Counted;
    assert |s.store| !in s.store;
  }

  /** Every registered poll that waits overdue is put off by its interval, and no other is touched. */
  lemma DiscardPutsOff(s: Scheduler, now: real, r: RegistrationId)
    requires Sound(s) && s.lastReadMs <= now && r in s.store
    ensures
      var t := Step(s, Discard(now));
      r in t.store
      && t.store[r] == if r in s.registry && IsOverdue(s.store[r], now)
                       then s.store[r].(dueAtMs := now + s.store[r].definition.intervalMs) else s.store[r]
  {
    hide CacheOk, Counted, DistinctIds;
  }

  /** Every registered poll that is named becomes due at once, unless it was due already; no other is touched. */
  lemma RefreshDemands(s: Scheduler, ids: seq<string>, now: real, r: RegistrationId)
    requires Sound(s) && s.lastReadMs <= now && r in s.store
    ensures
      var t := Step(s, Refresh(ids, now));
      r in t.store
      && t.store[r] == if r in s.registry && s.store[r].definition.id in ids && s.store[r].dueAtMs > now
                       then s.store[r].(dueAtMs := now) else s.store[r]
  {
    hide CacheOk, Counted, DistinctIds;
  }

  /** A pause lease is a new one each time, and only its own release gives it back. */
  lemma LeasesAreCounted(s: Scheduler, lease: LeaseId)
    requires Sound(s)
    ensures s.nextLease !in s.leases && Step(s, AcquireLease).leases == s.leases + {s.nextLease}
    ensures Step(s, ReleaseLease(lease)).leases == s.leases - {lease}
  {
    hide CacheOk, Counted, DistinctIds;
  }
}
