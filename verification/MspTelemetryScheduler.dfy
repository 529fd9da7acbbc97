/** The telemetry scheduler itself: poll records, counters and leases updated in place. */
module MspTelemetryScheduler {
  import opened MspTypes
  import opened MspTelemetryProofs
  import T = MspTelemetryModel

  class MspTelemetryScheduler {
    const singleFlight: bool
    var registry: seq<T.RegistrationId>
    var polls: map<T.RegistrationId, T.Poll>
    var activeLeaseIds: set<T.LeaseId>
    var nextLeaseSeq: T.LeaseId
    var inFlightCount: int
    var idleWaiters: seq<T.WaiterId>
    var resumed: set<T.WaiterId>
    var nextWaiter: T.WaiterId
    var lastDispatchedPriority: Option<real>
    ghost var lastReadMs: real

    ghost function View(): T.Scheduler
      reads this
    {
      T.Scheduler(registry, polls, activeLeaseIds, nextLeaseSeq, inFlightCount, idleWaiters, resumed, nextWaiter,
                  lastDispatchedPriority, singleFlight, lastReadMs)
    }

    ghost predicate Valid()
      reads this
    {
      Sound(View())
    }

    constructor (singleFlight: bool, now: real)
      ensures Valid() && View() == T.Initial(singleFlight, now)
    {
      this.singleFlight := singleFlight;
      registry := [];
      polls := map[];
      activeLeaseIds := {};
      nextLeaseSeq := 0;
      inFlightCount := 0;
      idleWaiters := [];
      resumed := {};
      nextWaiter := 0;
      lastDispatchedPriority := None;
      lastReadMs := now;
      new;
      InitialSound(singleFlight, now);
    }

    // ---------------------------------------------------------------- registration

    method FindById(id: string) returns (at: Option<nat>)
      requires T.Known(View())
      ensures at == T.IndexOfId(View(), id, |registry|)
    {
      var k := |registry|;
      while k > 0
        invariant 0 <= k <= |registry|
        invariant T.IndexOfId(View(), id, |registry|) == T.IndexOfId(View(), id, k)
      {
        if polls[registry[k - 1]].definition.id == id {
          return Some(k - 1);
        }
        k := k - 1;
      }
      return None;
    }

    method RegisterPoll(definition: T.PollDefinition, now: real) returns (registration: T.RegistrationId)
      requires Valid() && lastReadMs <= now
      modifies this
      ensures Valid() && View() == T.Step(old(View()), T.Register(definition, now))
      ensures registration !in old(polls) && registration in registry
    {
      hide Sound, T.IndexOfId, T.Known;
      SoundIsKnown(View());
      StepKeepsSound(View(), T.Register(definition, now));
      registration := |polls|;
      FreshNumber(View());
      var at := FindById(definition.id);
      polls := polls[registration := T.Poll(definition, now + definition.initialDelayMs, false, None, None, T.Waiting)];
      if at.Some? {
        registry := registry[at.value := registration];
        assert registry[at.value] == registration;
      } else {
        registry := registry + [registration];
        assert registry[|registry| - 1] == registration;
      }
      lastReadMs := now;
    }

    /** The unregister function handed out with a registration; called late it finds nothing to remove. */
    method Unregister(registration: T.RegistrationId)
      requires Valid()
      modifies this
      ensures Valid() && View() == T.Step(old(View()), T.Unregister(registration))
    {
      hide Sound, T.Without;
      SoundIsKnown(View());
      StepKeepsSound(View(), T.Unregister(registration));
      Remove(registration);
    }

    method Remove(registration: T.RegistrationId)
      modifies `registry
      ensures registry == T.Without(old(registry), registration)
    {
      var i := 0;
      while i < |registry| && registry[i] != registration
        invariant 0 <= i <= |registry|
        invariant T.Without(registry, registration) == registry[..i] + T.Without(registry[i..], registration)
      {
        assert registry[i..][1..] == registry[i + 1..];
        assert registry[..i] + [registry[i]] == registry[..i + 1];
        i := i + 1;
      }
      if i < |registry| {
        assert registry[i..][1..] == registry[i + 1..];
        registry := registry[..i] + registry[i + 1..];
      } else {
        assert registry[..i] == registry;
      }
    }

    method GetValue(id: string) returns (value: T.TelemetryValue)
      requires Valid()
      ensures value == T.GetValue(View(), id)
    {
      hide Sound, T.IndexOfId;
      SoundIsKnown(View());
      var at := FindById(id);
      if at.Some? {
        value := polls[registry[at.value]].cachedValue;
      } else {
        value := T.Unavailable;
      }
    }

    // ---------------------------------------------------------------- the tick

    /** Recomputes every registered value that time has made stale. */
    method RefreshStaleness(now: real)
      requires T.Known(View())
      modifies `polls
      ensures polls.Keys == old(polls).Keys
      ensures forall r :: r in polls ==>
                polls[r] == if r in registry then T.Refreshed(old(polls)[r], now) else old(polls)[r]
    {
      hide T.Refreshed;
      var i := 0;
      while i < |registry|
        invariant 0 <= i <= |registry|
        invariant polls.Keys == old(polls).Keys
        invariant forall r :: r in polls ==>
                    polls[r] == if r in registry[..i] then T.Refreshed(old(polls)[r], now) else old(polls)[r]
      {
        var r := registry[i];
        assert r !in registry[..i];
        assert registry[..i + 1] == registry[..i] + [r];
        var refreshed := RefreshOne(polls[r], now);
        polls := polls[r := refreshed];
        i := i + 1;
      }
      assert registry[..i] == registry;
    }

    /** One poll's staleness. */
    static method RefreshOne(poll: T.Poll, now: real) returns (refreshed: T.Poll)
      ensures refreshed == T.Refreshed(poll, now)
    {
      if !poll.cachedValue.Fresh? && !poll.cachedValue.Stale? {
        return poll;
      }
      var ageMs := now - poll.cachedValue.updatedAtMs;
      if ageMs >= poll.definition.staleAfterMs {
        return poll.(cachedValue := T.Stale(poll.cachedValue.value, poll.cachedValue.updatedAtMs, ageMs));
      }
      return poll;
    }

    method RestrictToPrimary(now: real) returns (restricted: bool)
      requires T.Known(View())
      ensures restricted == T.Restricted(View(), now)
    {
      restricted := false;
      if !singleFlight || lastDispatchedPriority.None? || lastDispatchedPriority.value >= 0.0 {
        return;
      }
      var i := 0;
      while i < |registry|
        invariant 0 <= i <= |registry|
        invariant forall k :: 0 <= k < i ==>
                    !(T.Due(polls[registry[k]], now) && polls[registry[k]].definition.priority >= 0.0)
      {
        var poll := polls[registry[i]];
        if !poll.inFlight && now >= poll.dueAtMs && poll.definition.priority >= 0.0 {
          return true;
        }
        i := i + 1;
      }
    }

    /** Whether a candidate of the given ratio beats the best so far. */
    static method IsBetter(poll: T.Poll, ratio: real, best: T.Poll, bestRatio: real, ghost now: real)
      returns (better: bool)
      requires ratio == T.Ratio(poll, now) && bestRatio == T.Ratio(best, now)
      ensures better == T.Better(poll, best, now)
    {
      hide T.Ratio;
      better := ratio > bestRatio || (ratio == bestRatio && poll.definition.priority > best.definition.priority);
    }

    /** How much of its own interval a poll is overdue. */
    static method OverdueRatio(poll: T.Poll, now: real) returns (ratio: real)
      ensures ratio == T.Ratio(poll, now)
    {
      ratio := (now - poll.dueAtMs) / poll.definition.intervalMs;
    }

    /** One pass over the registrations, keeping the best candidate so far. */
    method SelectBest(now: real, restricted: bool) returns (best: Option<T.RegistrationId>)
      requires T.Known(View())
      ensures best == T.Pick(View(), now, restricted, |registry|)
    {
      hide T.Ratio, T.Better, T.Candidate;
      best := None;
      var bestRatio := 0.0;
      var i := 0;
      while i < |registry|
        invariant 0 <= i <= |registry|
        invariant best == T.Pick(View(), now, restricted, i)
        invariant best.Some? ==> best.value in polls && bestRatio == T.Ratio(polls[best.value], now)
      {
        var r := registry[i];
        var poll := polls[r];
        var candidate := IsCandidate(poll, now, restricted);
        if candidate {
          var ratio := OverdueRatio(poll, now);
          var better := best.None?;
          if best.Some? {
            better := IsBetter(poll, ratio, polls[best.value], bestRatio, now);
          }
          if better {
            best := Some(r);
            bestRatio := ratio;
          }
        }
        i := i + 1;
      }
    }

    static method IsCandidate(poll: T.Poll, now: real, restricted: bool) returns (candidate: bool)
      ensures candidate == T.Candidate(poll, now, restricted)
    {
      candidate := !poll.inFlight && now >= poll.dueAtMs && (!restricted || poll.definition.priority >= 0.0);
    }

    method Dispatch(r: T.RegistrationId, now: real)
      requires r in polls
      modifies this
      ensures View() == T.Dispatch(old(View()), r, now)
    {
      var poll := polls[r];
      lastDispatchedPriority := Some(poll.definition.priority);
      polls := polls[r := poll.(inFlight := true, dueAtMs := now + poll.definition.intervalMs)];
      inFlightCount := inFlightCount + 1;
    }

    /** Starts the best candidate, unless paused or blocked. */
    method DispatchBest(now: real) returns (dispatched: Option<T.RegistrationId>)
      requires T.Known(View())
      modifies this
      ensures dispatched == T.Selection(old(View()), now)
      ensures View() == if dispatched.None? then old(View()) else T.Dispatch(old(View()), dispatched.value, now)
    {
      hide T.Pick, T.Restricted, T.Known, T.Dispatch;
      dispatched := None;
      var dispatchBlocked := singleFlight && inFlightCount > 0;
      if activeLeaseIds == {} && !dispatchBlocked {
        var restricted := RestrictToPrimary(now);
        dispatched := SelectBest(now, restricted);
        PickIsStored(View(), now, restricted);
        if dispatched.Some? {
          Dispatch(dispatched.value, now);
        }
      }
    }

    /** Refreshes every value, then starts at most one dispatch. */
    method Tick(now: real) returns (dispatched: Option<T.RegistrationId>)
      requires Valid() && lastReadMs <= now
      modifies this
      ensures Valid() && View() == T.Step(old(View()), T.Tick(now))
      ensures dispatched == T.Selection(old(View()), now)
      ensures forall i :: 0 <= i < |registry| ==> polls[registry[i]].cachedValue == T.Live(old(polls)[registry[i]], now)
    {
      hide Sound, T.Selection, T.RefreshAll, T.Live, T.Dispatch, T.Known;
      SoundIsKnown(View());
      StepKeepsSound(View(), T.Tick(now));
      RefreshAllSound(View(), now);
      SoundIsKnown(T.RefreshAll(View(), now));
      SelectionIgnoresValues(View(), now);
      TickEffect(View(), now);
      RefreshStaleness(now);
      lastReadMs := now;
      AllRefreshed(old(View()), View(), now);
      dispatched := DispatchBest(now);
    }

    // ---------------------------------------------------------------- a dispatch settles

    method DispatchSettled(r: T.RegistrationId, outcome: Result<T.Reading, string>, now: real)
      requires Valid() && r in polls && polls[r].inFlight && lastReadMs <= now
      modifies this
      ensures Valid() && View() == T.Step(old(View()), T.Settle(r, outcome, now))
    {
      hide CacheOk, Counted, DistinctIds;
      StepKeepsSound(View(), T.Settle(r, outcome, now));
      var poll := polls[r];
      if outcome.Ok? {
        poll := poll.(lastOutcome := Some(T.Success(outcome.value, now)), lastSuccessAtMs := Some(now),
                      cachedValue := T.Fresh(outcome.value, now));
      } else {
        poll := poll.(lastOutcome := Some(T.Failure(outcome.error)),
                      cachedValue := T.Failed(outcome.error, poll.lastSuccessAtMs));
      }
      polls := polls[r := poll.(inFlight := false)];
      inFlightCount := inFlightCount - 1;
      lastReadMs := now;
      if inFlightCount == 0 {
        ResumeWaiters();
      }
    }

    method ResumeWaiters()
      modifies this
      ensures View() == old(View()).(waiters := [], resumed := old(resumed) + (set w | w in old(idleWaiters)))
    {
      var waiters := idleWaiters;
      idleWaiters := [];
      var i := 0;
      while i < |waiters|
        invariant 0 <= i <= |waiters|
        invariant View() == old(View()).(waiters := [], resumed := resumed)
        invariant resumed == old(resumed) + set w | w in waiters[..i]
      {
        resumed := resumed + {waiters[i]};
        i := i + 1;
      }
      assert waiters[..i] == waiters;
    }

    // ---------------------------------------------------------------- pausing, idling, demands

    method AcquirePauseLease() returns (lease: T.LeaseId)
      requires Valid()
      modifies this
      ensures Valid() && View() == T.Step(old(View()), T.AcquireLease)
      ensures lease == old(nextLeaseSeq) && lease !in old(activeLeaseIds) && lease in activeLeaseIds
    {
      hide CacheOk, Counted, DistinctIds;
      StepKeepsSound(View(), T.AcquireLease);
      lease := nextLeaseSeq;
      nextLeaseSeq := nextLeaseSeq + 1;
      activeLeaseIds := activeLeaseIds + {lease};
    }

    /** Releasing twice is harmless: lease numbers are never handed out again. */
    method ReleasePauseLease(lease: T.LeaseId)
      requires Valid()
      modifies this
      ensures Valid() && View() == T.Step(old(View()), T.ReleaseLease(lease))
    {
      hide CacheOk, Counted, DistinctIds;
      StepKeepsSound(View(), T.ReleaseLease(lease));
      activeLeaseIds := activeLeaseIds - {lease};
    }

    method WaitUntilIdle() returns (waiter: T.WaiterId)
      requires Valid()
      modifies this
      ensures Valid() && View() == T.Step(old(View()), T.AwaitIdle)
      ensures waiter == old(nextWaiter) && waiter !in old(resumed)
      ensures waiter in resumed <==> inFlightCount == 0
    {
      hide CacheOk, DistinctIds;
      StepKeepsSound(View(), T.AwaitIdle);
      waiter := nextWaiter;
      nextWaiter := nextWaiter + 1;
      if inFlightCount == 0 {
        resumed := resumed + {waiter};
      } else {
        idleWaiters := idleWaiters + [waiter];
      }
    }

    method DiscardPendingDemands(now: real)
      requires Valid() && lastReadMs <= now
      modifies this
      ensures Valid() && View() == T.Step(old(View()), T.Discard(now))
    {
      hide Sound, T.Discarded;
      SoundIsKnown(View());
      StepKeepsSound(View(), T.Discard(now));
      Postpone(now);
      lastReadMs := now;
      assert polls == T.DoDiscard(old(View()), now).store;
    }

    method Postpone(now: real)
      requires T.Known(View())
      modifies `polls
      ensures polls.Keys == old(polls).Keys
      ensures forall r :: r in polls ==>
                polls[r] == if r in registry then T.Discarded(old(polls)[r], now) else old(polls)[r]
    {
      var i := 0;
      while i < |registry|
        invariant 0 <= i <= |registry|
        invariant polls.Keys == old(polls).Keys
        invariant forall r :: r in polls ==>
                    polls[r] == if r in registry[..i] then T.Discarded(old(polls)[r], now) else old(polls)[r]
      {
        var r := registry[i];
        assert r !in registry[..i];
        assert registry[..i + 1] == registry[..i] + [r];
        var poll := polls[r];
        if !poll.inFlight && now >= poll.dueAtMs {
          polls := polls[r := poll.(dueAtMs := now + poll.definition.intervalMs)];
        }
        i := i + 1;
      }
      assert registry[..i] == registry;
    }

    /** Makes the named polls due at once; an unknown or already due one is left alone. */
    method RequestRefresh(ids: seq<string>, now: real)
      requires Valid() && lastReadMs <= now
      modifies this
      ensures Valid() && View() == T.Step(old(View()), T.Refresh(ids, now))
    {
      hide CacheOk, Counted, T.Demanded;
      StepKeepsSound(View(), T.Refresh(ids, now));
      Demand(ids, now);
      lastReadMs := now;
      assert polls == T.DoRefresh(old(View()), ids, now).store;
    }

    method Demand(ids: seq<string>, now: real)
      requires T.Known(View()) && DistinctIds(View())
      modifies `polls
      ensures polls.Keys == old(polls).Keys
      ensures forall r :: r in polls ==>
                polls[r] == if r in registry && old(polls)[r].definition.id in ids then T.Demanded(old(polls)[r], now)
                            else old(polls)[r]
    {
      hide T.IndexOfId, T.Known, DistinctIds;
      var i := 0;
      while i < |ids|
        invariant 0 <= i <= |ids|
        invariant polls.Keys == old(polls).Keys && T.Known(View()) && DistinctIds(View())
        invariant forall r :: r in polls ==> polls[r].definition == old(polls)[r].definition
        invariant forall r :: r in polls ==>
                    polls[r] == if r in registry && old(polls)[r].definition.id in ids[..i]
                      then T.Demanded(old(polls)[r], now)
                                else old(polls)[r]
      {
        DemandOne(ids[i], now);
        assert ids[..i + 1] == ids[..i] + [ids[i]];
        i := i + 1;
      }
      assert ids[..i] == ids;
    }

    method DemandOne(id: string, now: real)
      requires T.Known(View()) && DistinctIds(View())
      modifies `polls
      ensures polls.Keys == old(polls).Keys && T.Known(View()) && DistinctIds(View())
      ensures forall r :: r in polls ==> polls[r].definition == old(polls)[r].definition
      ensures forall r :: r in polls ==>
                polls[r] == if r in registry && old(polls)[r].definition.id == id then T.Demanded(old(polls)[r], now)
                            else old(polls)[r]
    {
      hide T.IndexOfId;
      var at := FindById(id);
      if at.Some? {
        var r := registry[at.value];
        OnlyOneHasId(View(), at.value);
        if polls[r].dueAtMs > now {
          polls := polls[r := polls[r].(dueAtMs := now)];
        }
      }
    }
  }

  lemma PickIsStored(s: T.Scheduler, now: real, restricted: bool)
    requires T.Known(s)
    ensures var best := T.Pick(s, now, restricted, |s.registry|); best.Some? ==> best.value in s.store
  {
    hide T.Pick;
  }

  lemma AllRefreshed(s: T.Scheduler, t: T.Scheduler, now: real)
    requires t == s.(store := t.store, lastReadMs := now) && t.store.Keys == s.store.Keys
    requires forall r :: r in t.store ==>
             t.store[r] == if r in s.registry then T.Refreshed(s.store[r], now) else s.store[r]
    ensures t == T.RefreshAll(s, now)
  {
    hide T.Refreshed;
  }

  lemma FreshNumber(s: T.Scheduler)
    requires Sound(s)
    ensures |s.store| !in s.store
  {
  }

  lemma OnlyOneHasId(s: T.Scheduler, k: nat)
    requires T.Known(s) && DistinctIds(s) && k < |s.registry|
    ensures forall r :: r in s.registry && r != s.registry[k] ==>
              s.store[r].definition.id != s.store[s.registry[k]].definition.id
  {
    forall r | r in s.registry && r != s.registry[k]
      ensures s.store[r].definition.id != s.store[s.registry[k]].definition.id
    {
      var i :| 0 <= i < |s.registry| && s.registry[i] == r;
    }
  }
}
