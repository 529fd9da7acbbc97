/** Every callback the platform owes brings the engine strictly closer to having settled everything. */
module MspClientProgress {
  import opened MspTypes
  import opened MspClientModel
  import opened MspClientInvariants
  import opened MspClientRuns
  import opened MspClientHistory

  function ActiveWork(a: Option<ActiveRequest>): nat {
    if a.None? then 0
    else (if a.value.origin.Probe? then 1 else 4) + (if a.value.phase.Writing? then 1 else 0)
  }

  /** A bound on the number of platform callbacks still needed. */
  function Work(s: Engine): nat {
    6 * Backlog(s) + ActiveWork(s.active) + if s.state.RestartingReader? then 3 else 0
  }

  /** The answers the platform owes: the active request's write, timer or frame, or the reader's restart. */
  predicate Answers(s: Engine, e: Event) {
    match e
    case WriteOk(id) => s.active.Some? && s.active.value.id == id && s.active.value.phase.Writing?
    case WriteFailed(id, _) => s.active.Some? && s.active.value.id == id && s.active.value.phase.Writing?
    case TimerFired(id) => s.active.Some? && s.active.value.id == id && s.active.value.phase.AwaitingResponse?
    case Frames(fs) => |fs| == 1 && Matches(s, fs[0])
    case RestartOk(epoch) => s.state.RestartingReader? && epoch == s.epoch
    case RestartFailed(epoch) => s.state.RestartingReader? && epoch == s.epoch
    case _ => false
  }

  // ---------------------------------------------------------------- work never grows on the way

  ghost predicate NoProbeWaits(s: Engine) {
    && (forall i :: 0 <= i < |s.queue| ==> !s.queue[i].origin.Probe?)
    && (s.stopPending.Some? ==> !s.stopPending.value.origin.Probe?)
  }

  /** Settling changes no place a request can wait in. */
  ghost predicate SettledOnly(s: Engine, t: Engine) {
    t == s.(outcomes := t.outcomes, jobs := t.jobs, state := t.state)
  }

  lemma SettleFrame(s: Engine, id: RequestId, origin: Origin, o: Outcome)
    ensures SettledOnly(s, Settle(s, id, origin, o))
    ensures !origin.Probe? ==> Settle(s, id, origin, o).state == s.state
  {
    if id !in s.outcomes {
      var s1 := s.(outcomes := s.outcomes[id := o]);
      match origin {
        case Ordinary => assert Settle(s, id, origin, o) == s1;
        case Probe(e) =>
          assert Settle(s, id, origin, o) == s1
                 || Settle(s, id, origin, o) == s1.(state := if o.Resolved? then Ready else RecoveryFailed);
        case _ => assert Settle(s, id, origin, o) == s1.(jobs := s1.jobs + [Job(id, origin, o)]);
      }
    }
  }

  lemma {:induction false} SettleAllFrame(s: Engine, rs: seq<PendingRequest>, o: Outcome)
    ensures SettledOnly(s, SettleAll(s, rs, o))
    decreases |rs|
  {
    hide Settle;
    if rs != [] {
      SettleFrame(s, rs[0].id, rs[0].origin, o);
      SettleAllFrame(Settle(s, rs[0].id, rs[0].origin, o), rs[1..], o);
    }
  }

  lemma DesyncWork(env: Env, s: Engine)
    requires s.active.None?
    ensures Work(DesyncLatch(env, s)) <= 3
  {
    hide SettleAll, Settle, FaultLease, AbortStop;
    var f := FaultLease(s);
    FaultLeaseChanges(s);
    var a := AbortStop(f, StopAbortedByDesync);
    AbortStopFrame(f, StopAbortedByDesync);
    SettleAllFrame(a.(queue := []), a.queue, Rejected(Recovering));
  }

  lemma AbortStopFrame(s: Engine, code: Code)
    ensures var t := AbortStop(s, code); t.stopPending.None? && t.active == s.active && t.queue == s.queue
  {
    hide Settle;
    if s.stopPending.Some? {
      SettleFrame(s.(stopPending := None), s.stopPending.value.id, s.stopPending.value.origin, Rejected(code));
    }
  }

  lemma {:induction false} PumpWork(env: Env, s: Engine)
    requires NoProbeWaits(s)
    ensures Work(Pump(env, s)) <= Work(s)
    decreases Backlog(s), 0
  {
    hide StartRequest;
    if s.state == Ready && s.active.None? {
      if s.stopPending.Some? {
        StartWork(env, s.(stopPending := None), s.stopPending.value);
      } else if s.queue != [] {
        StartWork(env, s.(queue := s.queue[1..]), s.queue[0]);
      }
    }
  }

  lemma {:induction false} StartWork(env: Env, s: Engine, r: PendingRequest)
    requires NoProbeWaits(s) && s.active.None? && s.state.Ready? && !r.origin.Probe?
    ensures Work(StartRequest(env, s, r)) <= Work(s) + 5
    decreases Backlog(s), 1
  {
    hide Pump, DesyncLatch, Settle;
    if !r.spec.Encodable() {
      SettleFrame(s, r.id, r.origin, Rejected(EncodeFailed));
      PumpWork(env, Settle(s, r.id, r.origin, Rejected(EncodeFailed)));
    } else if env.writeThrows(r.id) {
      DesyncWork(env, Settle(Activated(s, r), r.id, r.origin, Rejected(WriteOutcomeUnknown)).(active := None));
    }
  }

  /** The active request ends; a probe's end leaves Probing for Ready or for failure. */
  lemma FinishWork(env: Env, s: Engine, s0: Engine, o: Outcome)
    requires Mid(s, None) && Quiet(s) && s.active.Some?
    requires s0 == s.(writing := s0.writing, timers := s.timers - {s.active.value.id})
    requires s0.writing <= s.writing && !NeverWritten(o)
    ensures var t := Settle(s0, s.active.value.id, s.active.value.origin, o).(active := None);
            && Work(t) + ActiveWork(s.active) <= Work(s)
            && Work(Pump(env, t)) <= Work(t)
            && Work(DesyncLatch(env, t)) <= 3
  {
    hide Settle, Pump, DesyncLatch, PlacesOk, LogOk, CallbacksOk, LeaseOk, MidStop, JobsOk, NeverWritten;
    FinishFromCalm(s, s0, o);
    var t := Settle(s0, s.active.value.id, s.active.value.origin, o).(active := None);
    PumpWork(env, t);
    DesyncWork(env, t);
  }

  // ---------------------------------------------------------------- every answer is progress

  lemma WriteAnswered(env: Env, s: Engine, f: WriteFailure)
    requires Mid(s, None) && Quiet(s) && s.active.Some? && s.active.value.phase.Writing?
    ensures Work(DoWriteOk(env, s, s.active.value.id)) < Work(s)
    ensures Work(DoWriteFailed(env, s, s.active.value.id, f)) < Work(s)
  {
    hide Settle, Pump, DesyncLatch, PlacesOk, LogOk, LeaseOk, MidStop, JobsOk, NeverWritten;
    var id := s.active.value.id;
    SettledIsNotActive(s);
    SureCodes();
    var s0 := s.(writing := s.writing - {id});
    assert s.timers - {id} == s.timers;
    FinishWork(env, s, s0, Rejected(DisplacedInFlight));
    FinishWork(env, s, s0, Rejected(ProbeFailed));
    FinishWork(env, s, s0, Rejected(ClassifyWriteFailure(f)));
  }

  lemma TimeoutAnswered(env: Env, s: Engine)
    requires Mid(s, None) && Quiet(s) && s.active.Some? && s.active.value.phase.AwaitingResponse?
    ensures Work(DoTimeout(env, s, s.active.value.id)) < Work(s)
  {
    hide Settle, DesyncLatch, PlacesOk, LogOk, LeaseOk, MidStop, JobsOk, NeverWritten;
    SettledIsNotActive(s);
    SureCodes();
    var s0 := s.(timers := s.timers - {s.active.value.id});
    FinishWork(env, s, s0, Rejected(ProbeFailed));
    FinishWork(env, s, s0, Rejected(Timeout));
  }

  lemma FrameAnswered(env: Env, s: Engine, f: MspFrame)
    requires Mid(s, None) && Quiet(s) && Matches(s, f)
    ensures Work(DoFrame(env, s, f)) < Work(s)
  {
    hide Settle, Pump, DesyncLatch, Mid, Quiet;
    var a := s.active.value;
    FinishWork(env, s, s.(timers := s.timers - {a.id}),
               if f.direction.Error? && !a.origin.Probe? then Rejected(RemoteError) else Resolved(f));
  }

  lemma ProbeWork(env: Env, s: Engine, r: PendingRequest)
    requires s.active.None? && s.state.Probing? && Backlog(s) == 0 && r.origin.Probe? && r.spec.Encodable()
    ensures Work(StartRequest(env, s, r)) <= 2
  {
    hide Settle, Pump, DesyncLatch;
    SettleFrame(Activated(s, r), r.id, r.origin, Rejected(ProbeFailed));
    ProbeEnds(Activated(s, r), r);
  }

  lemma ProbeEnds(s: Engine, r: PendingRequest)
    requires s.state.Probing?
    ensures !Settle(s, r.id, r.origin, Rejected(ProbeFailed)).state.RestartingReader?
  {
  }

  lemma RestartAnswered(env: Env, s: Engine)
    requires Mid(s, None) && Quiet(s) && s.state.RestartingReader?
    ensures Work(DoRestartOk(env, s, s.epoch)) < Work(s) && Work(DoRestartFailed(s, s.epoch)) < Work(s)
  {
    hide PlacesOk, LogOk, LeaseOk, MidStop, JobsOk, CallbacksOk, StartRequest;
    ProbeIsEncodable();
    var p := s.(restarting := s.restarting - {s.epoch}, state := Probing, nextId := s.nextId + 1);
    ProbeWork(env, p, PendingRequest(s.nextId, PROBE_SPEC, Probe(s.epoch)));
  }

  /** PROGRESS: each owed callback is possible and strictly reduces the work. */
  lemma AnswerIsProgress(env: Env, s: Engine, e: Event)
    requires Inv(s) && Answers(s, e)
    ensures Possible(s, e) && Work(Step(env, s, e)) < Work(s)
  {
    hide Inv, Mid, Quiet, Drain, DoWriteOk, DoWriteFailed, DoTimeout, DoFrame, DoRestartOk, DoRestartFailed, Work,
      Matches;
    InvIsMid(s);
    OwedIsPossible(s, e);
    match e {
      case WriteOk(id) => WriteAnswered(env, s, OtherFailure);
      case WriteFailed(id, f) => WriteAnswered(env, s, f);
      case TimerFired(id) => TimeoutAnswered(env, s);
      case Frames(fs) =>
        FrameAnswered(env, s, fs[0]);
        assert DoFrames(env, s, fs) == DoFrame(env, s, fs[0]) by { OneFrame(env, s, fs); }
      case RestartOk(epoch) => RestartAnswered(env, s);
      case RestartFailed(epoch) => RestartAnswered(env, s);
    }
    var t := Act(env, s, e);
    assert Mid(t, None) && Quiet(t) by { ActIsCalm(env, s, e); }
    DrainShape(t);
    ReactedWork(t, Drain(t));
  }

  lemma OneFrame(env: Env, s: Engine, fs: seq<MspFrame>)
    requires |fs| == 1
    ensures DoFrames(env, s, fs) == DoFrame(env, s, fs[0])
  {
    assert DoFrames(env, DoFrame(env, s, fs[0]), fs[1..]) == DoFrame(env, s, fs[0]);
  }

  lemma ReactedWork(s: Engine, t: Engine)
    requires Reacted(s, t)
    ensures Work(t) == Work(s)
  {
  }

  lemma OwedIsPossible(s: Engine, e: Event)
    requires Mid(s, None) && Answers(s, e)
    ensures Possible(s, e)
  {
    hide PlacesOk, LogOk, LeaseOk, MidStop, JobsOk;
  }

  /** As long as there is work, some callback is owed. */
  lemma WorkIsOwed(s: Engine)
    requires Inv(s) && Work(s) > 0
    ensures exists e :: Answers(s, e)
  {
    hide PlacesOk, LogOk, LeaseOk, StopOk, Matches;
    if s.active.Some? {
      var id := s.active.value.id;
      assert Answers(s, WriteOk(id)) || Answers(s, TimerFired(id));
    } else {
      assert Answers(s, RestartOk(s.epoch));
    }
  }

  /** When no work is left every submitted request is settled and no recovery is under way. */
  lemma NoWorkMeansAllSettled(s: Engine, id: RequestId)
    requires Inv(s) && Work(s) == 0 && id < s.nextId
    ensures id in s.outcomes && !s.state.RestartingReader? && !s.state.Probing?
  {
    hide LogOk, LeaseOk, StopOk;
    assert Places(s, id) + InSlot(None, id) == 1;
  }

  /** A run in which the platform only answers what it owes. */
  ghost predicate AnswersOnly(env: Env, s: Engine, events: seq<Event>) {
    forall i :: 0 <= i < |events| ==> Answers(Run(env, s, events[..i]), events[i])
  }

  /** Such a run cannot be longer than the work there was, and is over only when everything is settled. */
  lemma {:induction false} AnswersSettleEverything(env: Env, s: Engine, events: seq<Event>)
    requires Inv(s) && AnswersOnly(env, s, events)
    ensures
      var t := Run(env, s, events);
      && |events| + Work(t) <= Work(s)
      && ((exists e :: Answers(t, e)) || forall id :: 0 <= id < t.nextId ==> id in t.outcomes)
    decreases |events|
  {
    hide Inv, Step, Answers, Work;
    if events != [] {
      var front := events[..|events| - 1];
      forall i | 0 <= i < |front| ensures Answers(Run(env, s, front[..i]), front[i]) {
        assert front[..i] == events[..i];
      }
      AnswersSettleEverything(env, s, front);
      RunKeepsInv(env, s, front);
      AnswerIsProgress(env, Run(env, s, front), events[|events| - 1]);
    }
    RunKeepsInv(env, s, events);
    var t := Run(env, s, events);
    if Work(t) > 0 {
      WorkIsOwed(t);
    } else {
      forall id | 0 <= id < t.nextId ensures id in t.outcomes {
        NoWorkMeansAllSettled(t, id);
      }
    }
  }
}
