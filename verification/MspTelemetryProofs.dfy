/** What the telemetry scheduler guarantees in every reachable state and over every run. */
module MspTelemetryProofs {
  import opened MspTypes
  import opened MspTelemetryModel

  // ---------------------------------------------------------------- the invariant

  ghost function InFlight(s: Scheduler): set<RegistrationId> {
    set r | r in s.store && s.store[r].inFlight
  }

  ghost predicate DistinctIds(s: Scheduler)
    requires Known(s)
  {
    forall i, j :: 0 <= i < j < |s.registry| ==>
      s.store[s.registry[i]].definition.id != s.store[s.registry[j]].definition.id
  }

  /** The cached value is what was true of the poll at some instant not after `clock`. */
  ghost predicate CacheOk(p: Poll, clock: real) {
    match p.lastOutcome
    case None => p.cachedValue == Waiting
    case Some(Failure(error)) => p.cachedValue == Failed(error, p.lastSuccessAtMs)
    case Some(Success(value, at)) =>
      at <= clock && p.lastSuccessAtMs == Some(at)
      && (|| p.cachedValue == Fresh(value, at)
          || (p.cachedValue.Stale? && p.cachedValue == Stale(value, at, p.cachedValue.ageMs)
              && p.definition.staleAfterMs <= p.cachedValue.ageMs <= clock - at))
  }

  ghost predicate Counted(s: Scheduler) {
    && s.inFlightCount == |InFlight(s)|
    && (s.singleFlight ==> s.inFlightCount <= 1)
    && (s.waiters != [] ==> s.inFlightCount > 0)
  }

  ghost predicate Sound(s: Scheduler) {
    && Known(s)
    && DistinctIds(s)
    && Counted(s)
    && (forall r :: r in s.store ==> CacheOk(s.store[r], s.lastReadMs))
    && (forall l :: l in s.leases ==> l < s.nextLease)
    && (forall i :: 0 <= i < |s.waiters| ==> s.waiters[i] < s.nextWaiter)
    && (forall w :: w in s.resumed ==> w < s.nextWaiter)
  }

  lemma InitialSound(singleFlight: bool, now: real)
    ensures Sound(Initial(singleFlight, now))
  {
    assert InFlight(Initial(singleFlight, now)) == {};
  }

  /** A change of polls that leaves alone which of them exist, which are in flight and what they are. */
  ghost predicate SameFlights(s: Scheduler, t: Scheduler) {
    && t.store.Keys == s.store.Keys
    && (forall r :: r in s.store ==>
        t.store[r].inFlight == s.store[r].inFlight && t.store[r].definition == s.store[r].definition)
    && t.inFlightCount == s.inFlightCount && t.waiters == s.waiters && t.singleFlight == s.singleFlight
    && t.registry == s.registry
  }

  lemma SameFlightsOk(s: Scheduler, t: Scheduler)
    requires Sound(s) && SameFlights(s, t)
    ensures Known(t) && DistinctIds(t) && Counted(t)
  {
    hide CacheOk;
    assert |t.store| == |s.store| by {
      assert |t.store.Keys| == |t.store| && |s.store.Keys| == |s.store|;
    }
    assert InFlight(t) == InFlight(s);
  }

  // ---------------------------------------------------------------- cached values

  /** A tick makes a cached value equal to the live one, exactly unless it went stale and the clock ran back. */
  lemma RefreshedIsLiveIff(p: Poll, clock: real, now: real)
    requires CacheOk(p, clock)
    ensures Refreshed(p, now).cachedValue == Live(p, now)
            <==> !(p.cachedValue.Stale? && now - p.cachedValue.updatedAtMs < p.definition.staleAfterMs)
  {
  }

  lemma RefreshedOk(p: Poll, clock: real, now: real)
    requires CacheOk(p, clock) && clock <= now
    ensures CacheOk(Refreshed(p, now), now) && Refreshed(p, now).cachedValue == Live(p, now)
    ensures Refreshed(p, now) == p.(cachedValue := Refreshed(p, now).cachedValue)
  {
  }

  lemma CacheLater(p: Poll, clock: real, now: real)
    requires CacheOk(p, clock) && clock <= now
    ensures CacheOk(p, now)
  {
  }

  lemma RefreshAllSound(s: Scheduler, now: real)
    requires Sound(s) && s.lastReadMs <= now
    ensures Sound(RefreshAll(s, now))
    ensures SameFlights(s, RefreshAll(s, now))
    ensures forall i :: 0 <= i < |s.registry| ==>
              var r := s.registry[i];
              && RefreshAll(s, now).store[r].cachedValue == Live(s.store[r], now)
              && RefreshAll(s, now).store[r] == s.store[r].(cachedValue := Live(s.store[r], now))
  {
    hide CacheOk, Refreshed, Live, DistinctIds, Counted;
    var t := RefreshAll(s, now);
    forall r | r in s.store
      ensures CacheOk(t.store[r], now)
      ensures t.store[r].inFlight == s.store[r].inFlight && t.store[r].definition == s.store[r].definition
      ensures r in s.registry ==> t.store[r] == s.store[r].(cachedValue := Live(s.store[r], now))
    {
      RefreshedOk(s.store[r], s.lastReadMs, now);
      CacheLater(s.store[r], s.lastReadMs, now);
    }
    SameFlightsOk(s, t);
  }

  // ---------------------------------------------------------------- every event keeps the invariant

  lemma DispatchOk(s: Scheduler, r: RegistrationId, now: real)
    requires Sound(s) && r in s.store && !s.store[r].inFlight && (s.singleFlight ==> s.inFlightCount == 0)
    ensures Sound(Dispatch(s, r, now))
  {
    hide CacheOk;
    var t := Dispatch(s, r, now);
    assert t.store.Keys == s.store.Keys;
    assert |t.store| == |s.store|;
    assert InFlight(t) == InFlight(s) + {r};
    forall k | k in t.store ensures CacheOk(t.store[k], t.lastReadMs) {
      if k == r { DueDoesNotMatter(s.store[r], t.store[r], s.lastReadMs); }
    }
  }

  lemma DueDoesNotMatter(p: Poll, q: Poll, clock: real)
    requires CacheOk(p, clock) && q == p.(dueAtMs := q.dueAtMs, inFlight := q.inFlight)
    ensures CacheOk(q, clock)
  {
  }

  lemma TickOk(s: Scheduler, now: real)
    requires Sound(s) && s.lastReadMs <= now
    ensures Sound(DoTick(s, now))
  {
    hide Sound, Pick, Restricted, Dispatch;
    RefreshAllSound(s, now);
    var t := RefreshAll(s, now);
    assert Known(t) by { SoundIsKnown(t); }
    var chosen := Selection(t, now);
    if chosen.Some? {
      CountBounds(t);
      DispatchOk(t, chosen.value, now);
    }
  }

  lemma SoundIsKnown(s: Scheduler)
    requires Sound(s)
    ensures Known(s)
  {
  }

  lemma CountBounds(s: Scheduler)
    requires Sound(s)
    ensures s.inFlightCount >= 0
  {
  }

  lemma SettleOk(s: Scheduler, r: RegistrationId, outcome: Result<Reading, string>, now: real)
    requires Sound(s) && r in s.store && s.store[r].inFlight && s.lastReadMs <= now
    ensures Sound(DoSettle(s, r, outcome, now))
  {
    hide CacheOk, Settled;
    var t := DoSettle(s, r, outcome, now);
    SettledOk(s.store[r], s.lastReadMs, outcome, now);
    assert t.store.Keys == s.store.Keys;
    assert |t.store| == |s.store|;
    assert InFlight(t) == InFlight(s) - {r};
    forall k | k in t.store ensures CacheOk(t.store[k], t.lastReadMs) {
      if k != r { CacheLater(s.store[k], s.lastReadMs, now); }
    }
  }

  lemma SettledOk(p: Poll, clock: real, outcome: Result<Reading, string>, now: real)
    requires CacheOk(p, clock) && clock <= now
    ensures var q := Settled(p, outcome, now);
            CacheOk(q, now) && !q.inFlight && q.definition == p.definition && q.dueAtMs == p.dueAtMs
  {
  }

  lemma RegisteredInOrder(s: Scheduler, d: PollDefinition, now: real)
    requires Known(s) && DistinctIds(s)
    ensures var t := DoRegister(s, d, now);
            && t.store.Keys == s.store.Keys + {|s.store|} && |t.store| == |s.store| + 1 && |s.store| !in s.store
            && Known(t) && DistinctIds(t)
  {
    var t := DoRegister(s, d, now);
    var r := |s.store|;
    assert r !in s.store;
    assert t.store.Keys == s.store.Keys + {r};
    assert |t.store| == |t.store.Keys| && |s.store| == |s.store.Keys|;
  }

  lemma RegisterOk(s: Scheduler, d: PollDefinition, now: real)
    requires Sound(s) && s.lastReadMs <= now
    ensures Sound(DoRegister(s, d, now))
  {
    hide CacheOk, Known, DistinctIds, IndexOfId;
    var t := DoRegister(s, d, now);
    var r := |s.store|;
    RegisteredInOrder(s, d, now);
    assert InFlight(t) == InFlight(s);
    forall k | k in t.store ensures CacheOk(t.store[k], t.lastReadMs) {
      if k == r { FreshPollOk(d, now); } else { CacheLater(s.store[k], s.lastReadMs, now); }
    }
  }

  lemma FreshPollOk(d: PollDefinition, now: real)
    ensures CacheOk(Poll(d, now + d.initialDelayMs, false, None, None, Waiting), now)
  {
  }

  lemma {:induction false} WithoutFacts(rs: seq<RegistrationId>, r: RegistrationId)
    requires forall i, j :: 0 <= i < j < |rs| ==> rs[i] != rs[j]
    ensures forall k :: k in Without(rs, r) <==> k in rs && k != r
    ensures forall i, j :: 0 <= i < j < |Without(rs, r)| ==> Without(rs, r)[i] != Without(rs, r)[j]
    ensures r !in rs ==> Without(rs, r) == rs
  {
    if rs != [] {
      var rest := Without(rs[1..], r);
      WithoutFacts(rs[1..], r);
      assert rs == [rs[0]] + rs[1..];
      forall k ensures k in Without(rs, r) <==> k in rs && k != r {
        assert k in rs <==> k == rs[0] || k in rs[1..];
        assert k in [rs[0]] + rest <==> k == rs[0] || k in rest;
        assert rs[0] !in rs[1..];
      }
      assert rs[0] !in rest;
      if rs[0] != r {
        var out := [rs[0]] + rest;
        forall i, j | 0 <= i < j < |out| ensures out[i] != out[j] {
          assert out[j] == rest[j - 1];
        }
      }
    }
  }

  lemma UnregisterOk(s: Scheduler, r: RegistrationId)
    requires Sound(s)
    ensures Sound(DoUnregister(s, r))
  {
    hide CacheOk;
    var t := DoUnregister(s, r);
    WithoutFacts(s.registry, r);
    assert InFlight(t) == InFlight(s);
    forall i | 0 <= i < |t.registry| ensures t.registry[i] in s.registry {
      assert t.registry[i] in t.registry;
    }
    forall i, j | 0 <= i < j < |t.registry|
      ensures t.store[t.registry[i]].definition.id != t.store[t.registry[j]].definition.id
    {
      var a :| 0 <= a < |s.registry| && s.registry[a] == t.registry[i];
      var b :| 0 <= b < |s.registry| && s.registry[b] == t.registry[j];
      assert a != b;
    }
  }

  /** Moving deadlines changes no value and no flight. */
  ghost predicate OnlyDeadlines(s: Scheduler, t: Scheduler) {
    && t == s.(store := t.store, lastReadMs := t.lastReadMs) && s.lastReadMs <= t.lastReadMs
    && t.store.Keys == s.store.Keys
    && forall r :: r in s.store ==> t.store[r] == s.store[r].(dueAtMs := t.store[r].dueAtMs)
  }

  lemma DeadlinesOk(s: Scheduler, t: Scheduler)
    requires Sound(s) && OnlyDeadlines(s, t)
    ensures Sound(t)
  {
    hide CacheOk, DistinctIds, Counted;
    SameFlightsOk(s, t);
    forall r | r in t.store ensures CacheOk(t.store[r], t.lastReadMs) {
      CacheLater(s.store[r], s.lastReadMs, t.lastReadMs);
      DueDoesNotMatter(s.store[r], t.store[r], t.lastReadMs);
    }
  }

  /** Every event keeps the invariant: the in-flight count is exact, and one at a time in singleFlight mode. */
  lemma StepKeepsSound(s: Scheduler, e: Event)
    requires Sound(s)
    ensures Sound(Step(s, e))
  {
    hide CacheOk, DoTick, DoSettle, DoRegister, DoUnregister;
    if Possible(s, e) {
      match e {
        case Register(d, now) => RegisterOk(s, d, now);
        case Unregister(r) => UnregisterOk(s, r);
        case Tick(now) => TickOk(s, now);
        case Settle(r, outcome, now) => SettleOk(s, r, outcome, now);
        case Discard(now) => DeadlinesOk(s, DoDiscard(s, now));
        case Refresh(ids, now) => DeadlinesOk(s, DoRefresh(s, ids, now));
        case _ => RestOk(s, e);
      }
    }
  }

  lemma RestOk(s: Scheduler, e: Event)
    requires Sound(s) && (e.AcquireLease? || e.ReleaseLease? || e.AwaitIdle?)
    ensures Sound(Step(s, e))
  {
    hide CacheOk;
    assert InFlight(Step(s, e)) == InFlight(s);
  }

  ghost function Run(s: Scheduler, events: seq<Event>): (t: Scheduler)
    requires Sound(s)
    ensures Sound(t)
  {
    if events == [] then s
    else
      var front := Run(s, events[..|events| - 1]);
      StepKeepsSound(front, events[|events| - 1]);
      Step(front, events[|events| - 1])
  }

  // ---------------------------------------------------------------- which poll a tick dispatches

  /** The candidate at position k beats every earlier candidate and is beaten by no later one. */
  ghost predicate IsBest(s: Scheduler, now: real, restricted: bool, k: nat, n: nat)
    requires Known(s) && n <= |s.registry|
  {
    && k < n
    && Candidate(s.store[s.registry[k]], now, restricted)
    && (forall i :: 0 <= i < k && Candidate(s.store[s.registry[i]], now, restricted) ==>
          Better(s.store[s.registry[k]], s.store[s.registry[i]], now))
    && (forall i :: k < i < n && Candidate(s.store[s.registry[i]], now, restricted) ==>
          !Better(s.store[s.registry[i]], s.store[s.registry[k]], now))
  }

  lemma BetterTransitive(p: Poll, q: Poll, r: Poll, now: real)
    ensures Better(p, q, now) && Better(q, r, now) ==> Better(p, r, now)
    ensures Better(p, q, now) && !Better(r, q, now) ==> Better(p, r, now)
  {
    hide Ratio;
  }

  /** A candidate that beats the best of those before it becomes the best of all. */
  lemma NewBest(s: Scheduler, now: real, restricted: bool, b: nat, n: nat)
    requires Known(s) && n < |s.registry| && IsBest(s, now, restricted, b, n)
    requires Candidate(s.store[s.registry[n]], now, restricted)
    requires Better(s.store[s.registry[n]], s.store[s.registry[b]], now)
    ensures IsBest(s, now, restricted, n, n + 1)
  {
    hide Better, Candidate;
    var r := s.registry[n];
    forall i | 0 <= i < n && Candidate(s.store[s.registry[i]], now, restricted)
      ensures Better(s.store[r], s.store[s.registry[i]], now)
    {
      BetterTransitive(s.store[r], s.store[s.registry[b]], s.store[s.registry[i]], now);
    }
  }

  lemma FirstBest(s: Scheduler, now: real, restricted: bool, n: nat)
    requires Known(s) && n < |s.registry| && Candidate(s.store[s.registry[n]], now, restricted)
    requires forall i :: 0 <= i < n ==> !Candidate(s.store[s.registry[i]], now, restricted)
    ensures IsBest(s, now, restricted, n, n + 1)
  {
    hide Better, Candidate;
  }

  lemma OldBest(s: Scheduler, now: real, restricted: bool, b: nat, n: nat)
    requires Known(s) && n < |s.registry| && IsBest(s, now, restricted, b, n)
    requires Candidate(s.store[s.registry[n]], now, restricted) ==>
             !Better(s.store[s.registry[n]], s.store[s.registry[b]], now)
    ensures IsBest(s, now, restricted, b, n + 1)
  {
    hide Better, Candidate;
  }

  lemma {:induction false} PickIsBest(s: Scheduler, now: real, restricted: bool, n: nat) returns (k: nat)
    requires Known(s) && n <= |s.registry| && Pick(s, now, restricted, n).Some?
    ensures IsBest(s, now, restricted, k, n) && Pick(s, now, restricted, n).value == s.registry[k]
  {
    hide Better, Candidate, IsBest;
    var r := s.registry[n - 1];
    var best := Pick(s, now, restricted, n - 1);
    if best.None? {
      k := n - 1;
      FirstBest(s, now, restricted, k);
    } else {
      var b := PickIsBest(s, now, restricted, n - 1);
      BestIsBefore(s, now, restricted, b, n - 1);
      if Candidate(s.store[r], now, restricted) && Better(s.store[r], s.store[best.value], now) {
        k := n - 1;
        NewBest(s, now, restricted, b, k);
      } else {
        k := b;
        OldBest(s, now, restricted, b, n - 1);
      }
    }
  }

  lemma BestIsBefore(s: Scheduler, now: real, restricted: bool, k: nat, n: nat)
    requires Known(s) && n <= |s.registry| && IsBest(s, now, restricted, k, n)
    ensures k < n
  {
  }

  /**
   * SELECTION: a tick dispatches a poll exactly when no lease or running dispatch blocks it and the poll is
   * the one candidate that beats all earlier and yields to no later one; without a candidate it dispatches none.
   */
  lemma SelectionIsTheBest(s: Scheduler, now: real, k: nat)
    requires Sound(s) && k < |s.registry|
    ensures Selection(s, now) == Some(s.registry[k])
            <==> !Blocked(s) && IsBest(s, now, Restricted(s, now), k, |s.registry|)
    ensures Selection(s, now).None?
            <==> Blocked(s)
                 || forall i :: 0 <= i < |s.registry| ==> !Candidate(s.store[s.registry[i]], now, Restricted(s, now))
  {
    hide Better, Restricted, Candidate, CacheOk, Counted;
    var n := |s.registry|;
    var restricted := Restricted(s, now);
    if Pick(s, now, restricted, n).Some? {
      var b := PickIsBest(s, now, restricted, n);
      if IsBest(s, now, restricted, k, n) {
        assert b == k;
      }
    }
  }

  /** The poll an event starts, if any. */
  ghost function Dispatched(s: Scheduler, e: Event): Option<RegistrationId>
    requires Sound(s)
  {
    if e.Tick? && Possible(s, e) then
      RefreshAllSound(s, e.now);
      Selection(RefreshAll(s, e.now), e.now)
    else None
  }

  /** Staleness plays no part in selection. */
  lemma SelectionIgnoresValues(s: Scheduler, now: real)
    requires Sound(s) && s.lastReadMs <= now
    ensures Sound(RefreshAll(s, now)) && Selection(RefreshAll(s, now), now) == Selection(s, now)
  {
    hide CacheOk, Counted, DistinctIds;
    RefreshAllSound(s, now);
    var t := RefreshAll(s, now);
    assert PrimaryDue(t, now) == PrimaryDue(s, now);
    PickIgnoresValues(s, t, now, Restricted(s, now), |s.registry|);
  }

  lemma {:induction false} PickIgnoresValues(s: Scheduler, t: Scheduler, now: real, restricted: bool, k: nat)
    requires Known(s) && Known(t) && t.registry == s.registry && k <= |s.registry|
    requires forall i :: 0 <= i < |s.registry| ==>
               t.store[s.registry[i]] == s.store[s.registry[i]].(cachedValue := t.store[s.registry[i]].cachedValue)
    ensures Pick(t, now, restricted, k) == Pick(s, now, restricted, k)
  {
    hide Better, Candidate;
    if k > 0 {
      PickIgnoresValues(s, t, now, restricted, k - 1);
      var r := s.registry[k - 1];
      var best := Pick(s, now, restricted, k - 1);
      RankIgnoresValues(s.store[r], t.store[r], s.store[r], t.store[r], now, restricted);
      if best.Some? {
        RankIgnoresValues(s.store[r], t.store[r], s.store[best.value], t.store[best.value], now, restricted);
      }
    }
  }

  lemma RankIgnoresValues(p: Poll, p2: Poll, q: Poll, q2: Poll, now: real, restricted: bool)
    requires p2 == p.(cachedValue := p2.cachedValue) && q2 == q.(cachedValue := q2.cachedValue)
    ensures Candidate(p2, now, restricted) == Candidate(p, now, restricted) && Better(p2, q2, now) == Better(p, q, now)
  {
    assert Ratio(p2, now) == Ratio(p, now) && Ratio(q2, now) == Ratio(q, now);
  }

  /** What one tick does, in terms of the state before it. */
  lemma TickEffect(s: Scheduler, now: real)
    requires Sound(s) && s.lastReadMs <= now
    ensures var t := DoTick(s, now);
            && t.registry == s.registry && t.store.Keys == s.store.Keys
            && t.leases == s.leases && t.lastReadMs == now
            && (forall i :: 0 <= i < |s.registry| ==>
                t.store[s.registry[i]].cachedValue == Live(s.store[s.registry[i]], now))
            && (forall r :: r in s.store ==>
                  t.store[r].definition == s.store[r].definition
                  && (if Selection(s, now) == Some(r)
                      then t.store[r].inFlight && t.store[r].dueAtMs == now + s.store[r].definition.intervalMs
                           && t.lastDispatchedPriority == Some(s.store[r].definition.priority)
                      else t.store[r].inFlight == s.store[r].inFlight && t.store[r].dueAtMs == s.store[r].dueAtMs))
            && (Selection(s, now).None? ==> t.lastDispatchedPriority == s.lastDispatchedPriority)
  {
    hide Live, CacheOk, Counted, DistinctIds, Pick, Restricted, Refreshed;
    RefreshAllSound(s, now);
    SelectionIgnoresValues(s, now);
    RefreshedFlights(s, now);
  }

  lemma RefreshedFlights(s: Scheduler, now: real)
    ensures forall r :: r in s.store ==>
              && r in RefreshAll(s, now).store
              && RefreshAll(s, now).store[r].dueAtMs == s.store[r].dueAtMs
              && RefreshAll(s, now).store[r].inFlight == s.store[r].inFlight
              && RefreshAll(s, now).store[r].definition == s.store[r].definition
  {
  }
}
