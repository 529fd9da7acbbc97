/** How long the telemetry scheduler can keep a due poll waiting: a bound on everything dispatched ahead of it. */
module MspTelemetryWaiting {
  import opened MspTypes
  import opened MspTelemetryModel
  import opened MspTelemetryProofs
  import opened MspTelemetryFairness

  function Power(x: real, n: nat): real {
    if n == 0 then 1.0 else x * Power(x, n - 1)
  }

  lemma {:induction false} PowerShrinks(x: real, m: nat, n: nat)
    requires 0.0 < x < 1.0 && m <= n
    ensures 0.0 < Power(x, n) <= Power(x, m)
    decreases n
  {
    if m < n {
      PowerShrinks(x, m, n - 1);
      assert x * Power(x, n - 1) <= Power(x, n - 1);
    } else if m > 0 {
      PowerShrinks(x, m - 1, n - 1);
    }
  }

  /** The poll that event k starts while p could have been started, if there is one: an overtaking of p. */
  ghost function Overtaking(s: Scheduler, events: seq<Event>, p: RegistrationId, k: nat): Option<RegistrationId>
    requires Sound(s) && k < |events| && p in s.store
  {
    if s.store[p].definition.priority >= 0.0 || !Restricted(At(s, events, k), ClockOf(events[k]))
    then DispatchAt(s, events, k) else None
  }

  /** The events before j in which poll q overtakes p, in order. */
  ghost function Overtakings(s: Scheduler, events: seq<Event>, p: RegistrationId, q: RegistrationId, j: nat): seq<nat>
    requires Sound(s) && j <= |events| && p in s.store
  {
    hide Sound, Overtaking;
    if j == 0 then []
    else
      var before := Overtakings(s, events, p, q, j - 1);
      if Overtaking(s, events, p, j - 1) == Some(q) then before + [j - 1] else before
  }

  /** Events before j in which q overtakes p, in order. */
  ghost predicate Overtakes(s: Scheduler, events: seq<Event>, p: RegistrationId, q: RegistrationId, ks: seq<nat>,
                            j: nat)
    requires Sound(s) && p in s.store && j <= |events|
  {
    && (forall n :: 0 <= n < |ks| ==> ks[n] < j && Overtaking(s, events, p, ks[n]) == Some(q))
    && (forall m, n :: 0 <= m < n < |ks| ==> ks[m] < ks[n])
  }

  lemma {:induction false} OvertakingsInOrder(s: Scheduler, events: seq<Event>, p: RegistrationId, q: RegistrationId,
                                              j: nat)
    requires Sound(s) && j <= |events| && p in s.store
    ensures Overtakes(s, events, p, q, Overtakings(s, events, p, q, j), j)
  {
    hide Sound, Overtaking;
    if j > 0 {
      var before := Overtakings(s, events, p, q, j - 1);
      OvertakingsInOrder(s, events, p, q, j - 1);
      assert Overtakes(s, events, p, q, before, j - 1);
      assert Overtakes(s, events, p, q, before, j);
      if Overtaking(s, events, p, j - 1) == Some(q) {
        assert Overtakes(s, events, p, q, before + [j - 1], j);
        assert Overtakings(s, events, p, q, j) == before + [j - 1];
      }
    }
  }

  function ClockOf(e: Event): real {
    TimeOf(e).GetOr(0.0)
  }

  /** p is due from the start, and up to event j it is left waiting and nobody asks for a refresh. */
  ghost predicate KeptWaiting(s: Scheduler, events: seq<Event>, j: nat, p: RegistrationId)
    requires Sound(s) && j <= |events|
  {
    && WaitsUntil(s, events, j, p)
    && (forall k :: 0 <= k < j ==> !events[k].Refresh?)
  }

  /** How long p has been due. */
  function Waited(p: Poll, now: real): real {
    now - p.dueAtMs
  }

  lemma WaiterIsKnown(s: Scheduler, events: seq<Event>, j: nat, p: RegistrationId)
    requires Sound(s) && j <= |events| && KeptWaiting(s, events, j, p)
    ensures p in s.store
  {
  }

  /** The deadline p waits for does not move, and it is a candidate whenever it is overtaken. */
  lemma StillCandidate(s: Scheduler, events: seq<Event>, j: nat, k: nat, p: RegistrationId)
    requires Sound(s) && k < j <= |events| && KeptWaiting(s, events, j, p) && Overtaking(s, events, p, k).Some?
    ensures
      var u := At(s, events, k);
      && DispatchAt(s, events, k) == Overtaking(s, events, p, k)
      && events[k].Tick? && p in u.registry && p in u.store
      && u.store[p].definition == s.store[p].definition && u.store[p].dueAtMs == s.store[p].dueAtMs
      && Candidate(u.store[p], events[k].now, Restricted(u, events[k].now))
      && 0.0 <= Waited(s.store[p], ClockOf(events[k]))
  {
    hide Sound, Step, LeavesWaiting, Restricted, At, Dispatched;
    WaitsThrough(s, events, k, p);
    DispatchIsPossible(At(s, events, k), events[k]);
    ClockAdvances(s, events, 0, k);
    NothingYet(s, events);
  }

  /** What one poll dispatched twice ahead of p does to p's waiting time. */
  lemma WaitStretches(s: Scheduler, events: seq<Event>, j: nat, p: RegistrationId, q: RegistrationId, i: nat, k: nat)
    requires Sound(s) && i < k < j <= |events| && KeptWaiting(s, events, j, p) && p != q
    requires Overtaking(s, events, p, i) == Some(q) && Overtaking(s, events, p, k) == Some(q)
    requires q in At(s, events, j).store
    ensures
      var ip := s.store[p].definition.intervalMs;
      var iq := At(s, events, j).store[q].definition.intervalMs;
      (Waited(s.store[p], ClockOf(events[k])) + ip) * (1.0 - iq / ip) >= Waited(s.store[p], ClockOf(events[i])) + ip
  {
    hide Sound, Step, LeavesWaiting, Restricted, At, Dispatched, Candidate, Rested;
    StillCandidate(s, events, j, k, p);
    StillCandidate(s, events, j, i, p);
    LastPriorityStays(At(s, events, i), events[i]);
    assert NotRequested(events, i, j, At(s, events, i).store[q].definition.id);
    assert NotRequested(events, i, k, At(s, events, i).store[q].definition.id);
    RestedFrom(s, events, i, j, q);
    assert At(s, events, j).store[q].definition == At(s, events, i).store[q].definition by {
      RestedKeepsDefinition(At(s, events, j), q, At(s, events, i).store[q].definition, events[i].now);
    }
    BypassesAreSpaced(s, events, i, k, p, q);
    Stretched(Waited(s.store[p], ClockOf(events[i])), Waited(s.store[p], ClockOf(events[k])),
              s.store[p].definition.intervalMs,
              At(s, events, j).store[q].definition.intervalMs);
  }

  lemma RestedKeepsDefinition(s: Scheduler, q: RegistrationId, d: PollDefinition, t: real)
    requires Rested(s, q, d, t)
    ensures q in s.store && s.store[q].definition == d
  {
  }

  lemma Stretched(wi: real, wk: real, ip: Interval, iq: Interval)
    requires wk - wi >= iq * (1.0 + wk / ip)
    ensures (wk + ip) * (1.0 - iq / ip) >= wi + ip
  {
    var r := iq / ip;
    assert iq * (wk / ip) == r * wk;
    assert r * ip == iq;
    assert (wk + ip) * (1.0 - r) == wk + ip - r * wk - r * ip;
  }

  /**
   * A faster poll overtakes p ever more rarely: with each dispatch ahead of p, p's waiting time (plus its interval)
   * has grown by a fixed factor.
   */
  lemma {:induction false} OvertakingIsGeometric(s: Scheduler, events: seq<Event>, j: nat, p: RegistrationId,
                                                 q: RegistrationId, ks: seq<nat>, n: nat)
    requires Sound(s) && j <= |events| && KeptWaiting(s, events, j, p) && p != q && q in At(s, events, j).store
    requires Overtakes(s, events, p, q, ks, j) && n < |ks|
    requires At(s, events, j).store[q].definition.intervalMs < s.store[p].definition.intervalMs
    ensures
      var ip := s.store[p].definition.intervalMs;
      var iq := At(s, events, j).store[q].definition.intervalMs;
      (Waited(s.store[p], ClockOf(events[ks[n]])) + ip) * Power(1.0 - iq / ip, n) >= ip
  {
    hide Sound, At, KeptWaiting, Overtaking, DispatchAt, Waited;
    WaiterIsKnown(s, events, j, p);
    var ip := s.store[p].definition.intervalMs;
    var iq := At(s, events, j).store[q].definition.intervalMs;
    StillCandidate(s, events, j, ks[n], p);
    if n > 0 {
      StillCandidate(s, events, j, ks[n - 1], p);
      OvertakingIsGeometric(s, events, j, p, q, ks, n - 1);
      WaitStretches(s, events, j, p, q, ks[n - 1], ks[n]);
      FactorIsSmall(iq, ip);
      PowerShrinks(1.0 - iq / ip, 0, n - 1);
      Chained(Waited(s.store[p], ClockOf(events[ks[n - 1]])) + ip, Waited(s.store[p], ClockOf(events[ks[n]])) + ip,
              1.0 - iq / ip, Power(1.0 - iq / ip, n - 1), ip);
    }
  }

  lemma FactorIsSmall(iq: Interval, ip: Interval)
    requires iq < ip
    ensures 0.0 < 1.0 - iq / ip < 1.0
  {
    var r := iq / ip;
    assert r * ip == iq;
    assert r >= 1.0 ==> r * ip >= ip;
  }

  lemma Chained(a: real, b: real, x: real, y: real, ip: real)
    requires b * x >= a && a * y >= ip && y > 0.0
    ensures b * (x * y) >= ip
  {
    assert b * (x * y) == (b * x) * y >= a * y;
  }

  /**
   * `n` dispatches ahead of p are more than a poll of this interval can have while p has waited no longer than
   * `waited`: one for an interval no shorter than p's, logarithmically many otherwise.
   */
  predicate TooMany(p: PollDefinition, q: PollDefinition, waited: real, n: nat) {
    || q.intervalMs >= p.intervalMs
    || (waited + p.intervalMs) * Power(1.0 - q.intervalMs / p.intervalMs, n) < p.intervalMs
  }

  lemma {:induction false} PowerIsSmall(x: real, n: nat)
    requires 0.0 < x < 1.0
    ensures Power(x, n) * (1.0 + n as real * (1.0 - x)) <= 1.0
  {
    if n > 0 {
      var y, m := Power(x, n - 1), (n - 1) as real;
      PowerIsSmall(x, n - 1);
      PowerShrinks(x, 0, n - 1);
      var d := 1.0 - x;
      assert x * (1.0 + (m + 1.0) * d) <= 1.0 + m * d by {
        assert x * (1.0 + (m + 1.0) * d) == (1.0 + (m + 1.0) * d) - d * (1.0 + (m + 1.0) * d);
        assert d * (1.0 + (m + 1.0) * d) == d + d * d * (m + 1.0);
        assert d * d * (m + 1.0) >= 0.0;
      }
      Scaled(x * (1.0 + (m + 1.0) * d), 1.0 + m * d, y);
      assert (x * y) * (1.0 + (m + 1.0) * d) == (x * (1.0 + (m + 1.0) * d)) * y;
    }
  }

  /** Such a number always exists: as soon as n of q's intervals exceed the time p has waited. */
  lemma EnoughIntervalsAreTooMany(p: PollDefinition, q: PollDefinition, waited: real, n: nat)
    requires 0.0 <= waited < n as real * q.intervalMs
    ensures TooMany(p, q, waited, n)
  {
    if q.intervalMs < p.intervalMs {
      var ip, iq := p.intervalMs, q.intervalMs;
      var r := iq / ip;
      var y := Power(1.0 - r, n);
      FactorIsSmall(iq, ip);
      PowerIsSmall(1.0 - r, n);
      PowerShrinks(1.0 - r, 0, n);
      assert 1.0 - (1.0 - r) == r && r * ip == iq;
      assert ip * (1.0 + n as real * r) == ip + n as real * (r * ip);
      assert (waited + ip) * y < (ip + n as real * iq) * y;
      assert (ip + n as real * iq) * y == ip * (y * (1.0 + n as real * r));
      Scaled(y * (1.0 + n as real * r), 1.0, ip);
    }
  }

  /** A poll that is not faster cannot go ahead of p a second time. */
  lemma NotFasterOvertakesOnce(s: Scheduler, events: seq<Event>, j: nat, p: RegistrationId, q: RegistrationId)
    requires Sound(s) && j <= |events| && KeptWaiting(s, events, j, p) && p != q && q in At(s, events, j).store
    requires At(s, events, j).store[q].definition.intervalMs >= s.store[p].definition.intervalMs
    ensures |Overtakings(s, events, p, q, j)| <= 1
  {
    hide Sound, At, KeptWaiting, Overtaking, DispatchAt, Overtakings, Waited;
    WaiterIsKnown(s, events, j, p);
    OvertakingsInOrder(s, events, p, q, j);
    var ks := Overtakings(s, events, p, q, j);
    if |ks| > 1 {
      StillCandidate(s, events, j, ks[0], p);
      StillCandidate(s, events, j, ks[1], p);
      WaitStretches(s, events, j, p, q, ks[0], ks[1]);
      CannotStretch(Waited(s.store[p], ClockOf(events[ks[0]])), Waited(s.store[p], ClockOf(events[ks[1]])),
                    s.store[p].definition.intervalMs, At(s, events, j).store[q].definition.intervalMs);
    }
  }

  lemma FasterOvertakesRarely(s: Scheduler, events: seq<Event>, j: nat, p: RegistrationId, q: RegistrationId, n: nat)
    requires Sound(s) && j <= |events| && KeptWaiting(s, events, j, p) && p != q && q in At(s, events, j).store
    requires n < |Overtakings(s, events, p, q, j)|
    requires At(s, events, j).store[q].definition.intervalMs < s.store[p].definition.intervalMs
    ensures
      var ip := s.store[p].definition.intervalMs;
      var iq := At(s, events, j).store[q].definition.intervalMs;
      (Waited(s.store[p], At(s, events, j).lastReadMs) + ip) * Power(1.0 - iq / ip, n) >= ip
  {
    hide Sound, At, KeptWaiting, Overtaking, DispatchAt, Overtakings, Power;
    WaiterIsKnown(s, events, j, p);
    OvertakingsInOrder(s, events, p, q, j);
    var k := Overtakings(s, events, p, q, j)[n];
    StillCandidate(s, events, j, k, p);
    var ip := s.store[p].definition.intervalMs;
    var iq := At(s, events, j).store[q].definition.intervalMs;
    OvertakingIsGeometric(s, events, j, p, q, Overtakings(s, events, p, q, j), n);
    FactorIsSmall(iq, ip);
    PowerShrinks(1.0 - iq / ip, 0, n);
    ClockAt(s, events, k, j);
    Scaled(Waited(s.store[p], ClockOf(events[k])) + ip, Waited(s.store[p], At(s, events, j).lastReadMs) + ip,
           Power(1.0 - iq / ip, n));
  }

  lemma FewOvertakings(s: Scheduler, events: seq<Event>, j: nat, p: RegistrationId, q: RegistrationId, n: nat)
    requires Sound(s) && j <= |events| && KeptWaiting(s, events, j, p) && p != q && q in At(s, events, j).store
             && n >= 1
    requires TooMany(s.store[p].definition, At(s, events, j).store[q].definition,
                     Waited(s.store[p], At(s, events, j).lastReadMs), n)
    ensures |Overtakings(s, events, p, q, j)| <= n
  {
    hide Sound, At, KeptWaiting, Overtaking, DispatchAt, Overtakings, Waited, Power;
    WaiterIsKnown(s, events, j, p);
    if At(s, events, j).store[q].definition.intervalMs >= s.store[p].definition.intervalMs {
      NotFasterOvertakesOnce(s, events, j, p, q);
    } else if |Overtakings(s, events, p, q, j)| > n {
      FasterOvertakesRarely(s, events, j, p, q, n);
    }
  }

  lemma Scaled(a: real, b: real, y: real)
    requires a <= b && 0.0 <= y
    ensures a * y <= b * y
  {
  }

  lemma CannotStretch(wi: real, wk: real, ip: Interval, iq: Interval)
    requires iq >= ip && 0.0 <= wi && 0.0 <= wk
    ensures (wk + ip) * (1.0 - iq / ip) < wi + ip
  {
    var r := iq / ip;
    assert r * ip == iq;
    assert r < 1.0 ==> r * ip < ip;
    Scaled(1.0 - r, 0.0, wk + ip);
  }

  lemma ClockAt(s: Scheduler, events: seq<Event>, k: nat, j: nat)
    requires Sound(s) && k < j <= |events| && DispatchAt(s, events, k).Some?
    ensures events[k].Tick? && events[k].now <= At(s, events, j).lastReadMs
  {
    hide Sound, Step, At;
    DispatchIsPossible(At(s, events, k), events[k]);
    OneMore(s, events, k);
    DispatchReadsClock(At(s, events, k), events[k]);
    ClockAdvances(s, events, k + 1, j);
  }

  lemma DispatchReadsClock(s: Scheduler, e: Event)
    requires Sound(s) && Dispatched(s, e).Some?
    ensures e.Tick? && Step(s, e).lastReadMs == e.now
  {
    hide CacheOk, Counted, DistinctIds, Pick, Restricted, Live, DoTick;
    TickEffect(s, e.now);
  }

  // ---------------------------------------------------------------- all polls together

  /** How many events before j start a poll of `qs` that overtakes p. */
  ghost function OvertakingCount(s: Scheduler, events: seq<Event>, p: RegistrationId, qs: set<RegistrationId>,
                                 j: nat): nat
    requires Sound(s) && j <= |events| && p in s.store
  {
    if j == 0 then 0
    else
      var d := Overtaking(s, events, p, j - 1);
      OvertakingCount(s, events, p, qs, j - 1) + if d.Some? && d.value in qs then 1 else 0
  }

  lemma {:induction false} CountSplits(s: Scheduler, events: seq<Event>, p: RegistrationId, qs: set<RegistrationId>,
                                       q: RegistrationId, j: nat)
    requires Sound(s) && j <= |events| && p in s.store && q in qs
    ensures OvertakingCount(s, events, p, qs, j)
            == OvertakingCount(s, events, p, qs - {q}, j) + |Overtakings(s, events, p, q, j)|
  {
    hide Sound, Overtaking;
    if j > 0 {
      CountSplits(s, events, p, qs, q, j - 1);
    }
  }

  lemma {:induction false} CountOfNone(s: Scheduler, events: seq<Event>, p: RegistrationId, j: nat)
    requires Sound(s) && j <= |events| && p in s.store
    ensures OvertakingCount(s, events, p, {}, j) == 0
  {
    hide Sound, Overtaking;
    if j > 0 {
      CountOfNone(s, events, p, j - 1);
    }
  }

  lemma {:induction false} CountIsBounded(s: Scheduler, events: seq<Event>, p: RegistrationId, qs: set<RegistrationId>,
                                          j: nat, n: nat)
    requires Sound(s) && j <= |events| && p in s.store
    requires forall q :: q in qs ==> |Overtakings(s, events, p, q, j)| <= n
    ensures OvertakingCount(s, events, p, qs, j) <= n * |qs|
    decreases |qs|
  {
    hide Sound, Overtaking, Overtakings, OvertakingCount;
    if qs == {} {
      CountOfNone(s, events, p, j);
    } else {
      var q :| q in qs;
      CountSplits(s, events, p, qs, q, j);
      CountIsBounded(s, events, p, qs - {q}, j, n);
      assert |qs - {q}| == |qs| - 1;
    }
  }

  /** Every poll started before event j, p excepted, is among the competitors on record at j. */
  ghost function Competitors(s: Scheduler, p: RegistrationId): set<RegistrationId> {
    s.store.Keys - {p}
  }

  /**
   * EVERY WAIT IS BOUNDED: while a due poll p is kept waiting, all other polls together overtake it at most n times
   * each, for any n that is too many for every one of them. So where no poll is faster than p, each goes ahead of it
   * at most once; otherwise the total grows only logarithmically with the time p has waited.
   */
  lemma EveryWaitIsBounded(s: Scheduler, events: seq<Event>, j: nat, p: RegistrationId, n: nat)
    requires Sound(s) && j <= |events| && KeptWaiting(s, events, j, p) && n >= 1
    requires forall q :: q in Competitors(At(s, events, j), p) ==>
               TooMany(s.store[p].definition, At(s, events, j).store[q].definition,
                       Waited(s.store[p], At(s, events, j).lastReadMs), n)
    ensures OvertakingCount(s, events, p, Competitors(At(s, events, j), p), j)
            <= n * |Competitors(At(s, events, j), p)|
    ensures forall k :: 0 <= k < j && DispatchAt(s, events, k).Some? ==>
              DispatchAt(s, events, k).value in Competitors(At(s, events, j), p)
  {
    hide Sound, At, KeptWaiting, Overtaking, DispatchAt, Overtakings, OvertakingCount, TooMany;
    WaiterIsKnown(s, events, j, p);
    var qs := Competitors(At(s, events, j), p);
    forall q | q in qs ensures |Overtakings(s, events, p, q, j)| <= n {
      FewOvertakings(s, events, j, p, q, n);
    }
    CountIsBounded(s, events, p, qs, j, n);
    forall k | 0 <= k < j && DispatchAt(s, events, k).Some? ensures DispatchAt(s, events, k).value in qs {
      OthersOnly(s, events, j, k, p);
    }
  }

  lemma OthersOnly(s: Scheduler, events: seq<Event>, j: nat, k: nat, p: RegistrationId)
    requires Sound(s) && k < j <= |events| && KeptWaiting(s, events, j, p) && DispatchAt(s, events, k).Some?
    ensures DispatchAt(s, events, k).value in Competitors(At(s, events, j), p)
  {
    hide Sound, Step, At, Dispatched, Restricted;
    var q := DispatchAt(s, events, k).value;
    assert LeavesWaiting(At(s, events, k), events[k], p);
    ClockAt(s, events, k, j);
    LastPriorityStays(At(s, events, k), events[k]);
    RestedFrom(s, events, k, j, q);
  }

  // ---------------------------------------------------------------- the slots kept for the primaries

  /** How many events before j start any poll at all. */
  ghost function StartCount(s: Scheduler, events: seq<Event>, j: nat): nat
    requires Sound(s) && j <= |events|
  {
    if j == 0 then 0 else StartCount(s, events, j - 1) + if DispatchAt(s, events, j - 1).Some? then 1 else 0
  }

  predicate LastWasAuxiliary(s: Scheduler) {
    s.lastDispatchedPriority.Some? && s.lastDispatchedPriority.value < 0.0
  }

  /** An event that starts a poll without overtaking p: a primary, right after an auxiliary. */
  lemma KeptSlot(s: Scheduler, events: seq<Event>, p: RegistrationId, k: nat)
    requires Sound(s) && k < |events| && p in s.store
    requires DispatchAt(s, events, k).Some? && Overtaking(s, events, p, k).None?
    ensures LastWasAuxiliary(At(s, events, k)) && !LastWasAuxiliary(At(s, events, k + 1))
  {
    hide Step, At, CacheOk, Counted, DistinctIds, Dispatched, PrimaryDue;
    var u := At(s, events, k);
    DispatchIsPossible(u, events[k]);
    OneMore(s, events, k);
    LastPriorityStays(u, events[k]);
    SelectionIgnoresValues(u, events[k].now);
    DispatchedIsSelected(u, events[k]);
    PrimaryIsNext(u, events[k].now, DispatchAt(s, events, k).value);
  }

  lemma DispatchedIsSelected(s: Scheduler, e: Event)
    requires Sound(s) && Dispatched(s, e).Some?
    ensures e.Tick? && s.lastReadMs <= e.now && Dispatched(s, e) == Selection(s, e.now)
  {
    hide Selection, CacheOk, Counted, DistinctIds;
    SelectionIgnoresValues(s, e.now);
  }

  /** A start that overtakes p may be of either kind; what starts nothing changes nothing. */
  lemma NoStartNoChange(s: Scheduler, events: seq<Event>, k: nat)
    requires Sound(s) && k < |events| && DispatchAt(s, events, k).None?
    ensures LastWasAuxiliary(At(s, events, k + 1)) <==> LastWasAuxiliary(At(s, events, k))
  {
    hide Step, At, Sound, Dispatched;
    OneMore(s, events, k);
    LastPriorityStays(At(s, events, k), events[k]);
  }

  /** Between two kept slots something overtakes p, so there is at most one more of them than of overtakings. */
  lemma {:induction false} KeptSlotsAreFew(s: Scheduler, events: seq<Event>, p: RegistrationId, qs: set<RegistrationId>,
                                           j: nat)
    requires Sound(s) && j <= |events| && p in s.store
    requires forall k :: 0 <= k < j && DispatchAt(s, events, k).Some? ==> DispatchAt(s, events, k).value in qs
    ensures StartCount(s, events, j)
            <= 2 * OvertakingCount(s, events, p, qs, j) + if LastWasAuxiliary(At(s, events, j)) then 0 else 1
  {
    hide Sound, Overtaking, DispatchAt, At, LastWasAuxiliary;
    if j > 0 {
      KeptSlotsAreFew(s, events, p, qs, j - 1);
      if DispatchAt(s, events, j - 1).None? {
        NoStartNoChange(s, events, j - 1);
        assert Overtaking(s, events, p, j - 1).None? by { NothingOvertakes(s, events, p, j - 1); }
      } else if Overtaking(s, events, p, j - 1).None? {
        KeptSlot(s, events, p, j - 1);
      } else {
        assert DispatchAt(s, events, j - 1) == Overtaking(s, events, p, j - 1) by {
          OvertakingStarts(s, events, p, j - 1);
        }
      }
    }
  }

  lemma NothingOvertakes(s: Scheduler, events: seq<Event>, p: RegistrationId, k: nat)
    requires Sound(s) && k < |events| && p in s.store && DispatchAt(s, events, k).None?
    ensures Overtaking(s, events, p, k).None?
  {
  }

  lemma OvertakingStarts(s: Scheduler, events: seq<Event>, p: RegistrationId, k: nat)
    requires Sound(s) && k < |events| && p in s.store && Overtaking(s, events, p, k).Some?
    ensures Overtaking(s, events, p, k) == DispatchAt(s, events, k)
  {
  }

  /**
   * NO POLL STARVES, auxiliary ones in singleFlight mode included: while a due poll p is kept waiting, at most
   * 2 * n * m + 1 dispatches of any kind are made, where m is the number of other polls on record and n as above.
   */
  lemma NoPollStarves(s: Scheduler, events: seq<Event>, j: nat, p: RegistrationId, n: nat)
    requires Sound(s) && j <= |events| && KeptWaiting(s, events, j, p) && n >= 1
    requires forall q :: q in Competitors(At(s, events, j), p) ==>
               TooMany(s.store[p].definition, At(s, events, j).store[q].definition,
                       Waited(s.store[p], At(s, events, j).lastReadMs), n)
    ensures StartCount(s, events, j) <= 2 * (n * |Competitors(At(s, events, j), p)|) + 1
  {
    hide Sound, At, KeptWaiting, Overtaking, DispatchAt, OvertakingCount, StartCount, TooMany, Competitors;
    WaiterIsKnown(s, events, j, p);
    EveryWaitIsBounded(s, events, j, p, n);
    KeptSlotsAreFew(s, events, p, Competitors(At(s, events, j), p), j);
  }
}
