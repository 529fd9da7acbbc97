/**
 * The once-per-session arming restriction: concurrent attempts over shared registries, each attempt split at
 * its two awaits. What leases, identity providers and the flight controller answer is part of the event.
 */
module ArmingRestrictionModel {
  import opened MspTypes

  type ClientId = nat
  type Authority = nat
  type LeaseId = nat
  type AttemptId = nat
  type ReceiptId = nat

  const ARMING_DISABLED_MSP_BIT_INDEX: nat := 16

  /** What an official session is: one client during one of its epochs. */
  datatype OfficialSession = OfficialSession(client: ClientId, epoch: nat)

  datatype CompositeIdentity = CompositeIdentity(physicalGeneration: int, mspEpoch: int)

  /** One call of the caller's identity provider, which may also throw. */
  datatype IdentityRead = ProviderThrew | Read(identity: Option<CompositeIdentity>)

  datatype FailureReason =
    | CurrentSessionIdentityUnavailable
    | RequestedSessionIdentityMismatch
    | MotorTestLeaseInactive
    | MotorTestLeaseIdentityMismatch
    | AlreadyEstablishing
    | AlreadyEstablished
    | FaultLatched
    | ArmingDisableRequestFailed
    | PostAckStatusRequestFailed
    | SessionChangedDuringEstablishment
    | FcArmed
    | RestrictionNotObserved
    | IndependentVerificationUnavailable
    | MalformedStatusResponse
    | BoxIdsProvenanceInvalid
    | SessionIdentityProviderFailed

  datatype SessionOutcome = Established(receipt: ReceiptId) | FaultedSession

  datatype Establishment = Granted(receipt: ReceiptId) | NotEstablished(reason: FailureReason)

  /** A lease as establishment sees it: its identity, the session it is the live owner of, if any, and its liveness. */
  datatype Lease = Lease(id: LeaseId, session: Option<OfficialSession>, identity: CompositeIdentity, active: bool)

  datatype BoxIds = BoxIds(authority: Option<Authority>, permanentIds: seq<nat>)

  datatype Request = Request(
    lease: Option<Lease>,
    requested: CompositeIdentity,
    current: IdentityRead,
    boxIds: Option<BoxIds>)

  datatype ArmedState = ArmedUnknown | Armed | Disarmed

  /** The status response: undecodable, or its tail, armed state and arming-disable mask. */
  datatype Status = Undecodable | Decoded(malformedTail: bool, armed: ArmedState, mask: Option<nat>)

  /** What is re-read after each await. */
  datatype Recheck = Recheck(identity: IdentityRead, active: bool, session: Option<OfficialSession>)

  datatype Stage = AwaitingAck | AwaitingStatus

  datatype Attempt = Attempt(
    authority: Authority,
    lease: LeaseId,
    requested: CompositeIdentity,
    current: CompositeIdentity,
    stage: Stage)

  /** `submitted` lists the sessions for which command 99 was handed to a lease, in order. */
  datatype Registry = Registry(
    authorities: map<OfficialSession, Authority>,
    inProgress: set<Authority>,
    outcomes: map<Authority, SessionOutcome>,
    faultedLeases: set<LeaseId>,
    receiptLeases: map<ReceiptId, LeaseId>,
    attempts: map<AttemptId, Attempt>,
    nextAttempt: AttemptId,
    submitted: seq<OfficialSession>)

  const EMPTY := Registry(map[], {}, map[], {}, map[], map[], 0, [])

  /** Two absent identities never match. */
  predicate IdentitiesMatch(left: Option<CompositeIdentity>, right: CompositeIdentity) {
    left == Some(right)
  }

  predicate IsBitSet(mask: nat, index: nat) {
    (mask / Pow2(index)) % 2 == 1
  }

  // ---------------------------------------------------------------- authorities

  /** Minted once per session, then the same for as long as the session lasts. */
  function WithAuthority(s: Registry, session: OfficialSession): Registry {
    if session in s.authorities then s else s.(authorities := s.authorities[session := |s.authorities|])
  }

  // ---------------------------------------------------------------- admission

  /** The first admission check that fails; none of them leaves a trace. */
  function Refusal(s: Registry, r: Request): Option<FailureReason> {
    if r.lease.None? then Some(MotorTestLeaseInactive)
    else if r.lease.value.id in s.faultedLeases then Some(FaultLatched)
    else if r.lease.value.session.None? then Some(MotorTestLeaseInactive)
    else
      var authority := WithAuthority(s, r.lease.value.session.value).authorities[r.lease.value.session.value];
      if authority in s.outcomes then
        Some(if s.outcomes[authority].FaultedSession? then FaultLatched else AlreadyEstablished)
      else if authority in s.inProgress then Some(AlreadyEstablishing)
      else if r.current.ProviderThrew? then Some(SessionIdentityProviderFailed)
      else if r.current.identity.None? then Some(CurrentSessionIdentityUnavailable)
      else if !IdentitiesMatch(r.current.identity, r.requested) then Some(RequestedSessionIdentityMismatch)
      else if !IdentitiesMatch(Some(r.lease.value.identity), r.requested) then Some(MotorTestLeaseIdentityMismatch)
      else if !r.lease.value.active then Some(MotorTestLeaseInactive)
      else if r.boxIds.None? then Some(IndependentVerificationUnavailable)
      else if r.boxIds.value.authority != Some(authority) then Some(BoxIdsProvenanceInvalid)
      else if r.boxIds.value.permanentIds == [] then Some(IndependentVerificationUnavailable)
      else None
  }

  predicate Minting(s: Registry, r: Request) {
    r.lease.Some? && r.lease.value.id !in s.faultedLeases && r.lease.value.session.Some?
  }

  /** Admission, and if it passes the submission of command 99. */
  function DoBegin(s: Registry, r: Request): Registry {
    var s1 := if Minting(s, r) then WithAuthority(s, r.lease.value.session.value) else s;
    if Refusal(s, r).Some? then s1
    else
      var session := r.lease.value.session.value;
      var authority := s1.authorities[session];
      s1.(inProgress := s1.inProgress + {authority},
          attempts := s1.attempts[s1.nextAttempt :=
            Attempt(authority, r.lease.value.id, r.requested, r.current.identity.value, AwaitingAck)],
          nextAttempt := s1.nextAttempt + 1,
          submitted := s1.submitted + [session])
  }

  // ---------------------------------------------------------------- after submission

  /** The one fail-closed boundary: the session is latched, whatever becomes of the lease. */
  function LatchSessionFault(s: Registry, authority: Authority, lease: LeaseId): Registry {
    s.(outcomes := s.outcomes[authority := FaultedSession], faultedLeases := s.faultedLeases + {lease})
  }

  /** The finally block: the marker goes, and an exit without a terminal outcome latches the session. */
  function Leave(s: Registry, id: AttemptId): Registry
    requires id in s.attempts
  {
    var a := s.attempts[id];
    var s1 := s.(inProgress := s.inProgress - {a.authority}, attempts := s.attempts - {id});
    if a.authority in s.outcomes then s1 else LatchSessionFault(s1, a.authority, a.lease)
  }

  function FailClosed(s: Registry, id: AttemptId): Registry
    requires id in s.attempts
  {
    Leave(LatchSessionFault(s, s.attempts[id].authority, s.attempts[id].lease), id)
  }

  /** What the re-reads after an await object to, in order. */
  function Objection(a: Attempt, c: Recheck): Option<FailureReason> {
    if c.identity.ProviderThrew? then Some(SessionIdentityProviderFailed)
    else if !IdentitiesMatch(c.identity.identity, a.requested) then Some(SessionChangedDuringEstablishment)
    else if !c.active then Some(MotorTestLeaseInactive)
    else None
  }

  function AckFailure(a: Attempt, ok: bool, c: Recheck): Option<FailureReason> {
    if !ok then Some(ArmingDisableRequestFailed) else Objection(a, c)
  }

  function DoAck(s: Registry, id: AttemptId, ok: bool, c: Recheck): Registry
    requires id in s.attempts
  {
    if AckFailure(s.attempts[id], ok, c).Some? then FailClosed(s, id)
    else s.(attempts := s.attempts[id := s.attempts[id].(stage := AwaitingStatus)])
  }

  function StatusFailure(s: Registry, a: Attempt, ok: bool, c: Recheck, status: Status): Option<FailureReason> {
    if !ok then Some(PostAckStatusRequestFailed)
    else if Objection(a, c).Some? then Objection(a, c)
    else if c.session.None? || WithAuthority(s, c.session.value).authorities[c.session.value] != a.authority then
      Some(SessionChangedDuringEstablishment)
    else if status.Undecodable? || status.malformedTail then Some(MalformedStatusResponse)
    else if status.armed.ArmedUnknown? then Some(IndependentVerificationUnavailable)
    else if status.armed.Armed? then Some(FcArmed)
    else if status.mask.None? then Some(IndependentVerificationUnavailable)
    else if !IsBitSet(status.mask.value, ARMING_DISABLED_MSP_BIT_INDEX) then Some(RestrictionNotObserved)
    else None
  }

  /** The authority lookup after the status read may itself mint. */
  function Looked(s: Registry, a: Attempt, ok: bool, c: Recheck): Registry {
    if ok && Objection(a, c).None? && c.session.Some? then WithAuthority(s, c.session.value) else s
  }

  function DoStatus(s: Registry, id: AttemptId, ok: bool, c: Recheck, status: Status): Registry
    requires id in s.attempts
  {
    var a := s.attempts[id];
    var s1 := Looked(s, a, ok, c);
    if StatusFailure(s, a, ok, c, status).Some? then FailClosed(s1, id)
    else
      var receipt := |s1.receiptLeases|;
      Leave(s1.(receiptLeases := s1.receiptLeases[receipt := a.lease],
                outcomes := s1.outcomes[a.authority := Established(receipt)]), id)
  }

  datatype Event =
    | Begin(request: Request)
    | AckSettled(id: AttemptId, ok: bool, recheck: Recheck)
    | StatusSettled(id: AttemptId, ok: bool, recheck: Recheck, status: Status)
    | UnexpectedThrow(id: AttemptId)

  predicate Possible(s: Registry, e: Event) {
    match e
    case Begin(_) => true
    case AckSettled(id, _, _) => id in s.attempts && s.attempts[id].stage.AwaitingAck?
    case StatusSettled(id, _, _, _) => id in s.attempts && s.attempts[id].stage.AwaitingStatus?
    case UnexpectedThrow(id) => id in s.attempts
  }

  function Step(s: Registry, e: Event): Registry {
    if !Possible(s, e) then s
    else
      match e
      case Begin(r) => DoBegin(s, r)
      case AckSettled(id, ok, c) => DoAck(s, id, ok, c)
      case StatusSettled(id, ok, c, status) => DoStatus(s, id, ok, c, status)
      case UnexpectedThrow(id) => Leave(s, id)
  }

  function Run(s: Registry, events: seq<Event>): Registry {
    if events == [] then s else Step(Run(s, events[..|events| - 1]), events[|events| - 1])
  }

  // ---------------------------------------------------------------- the invariant

  function Count(sessions: seq<OfficialSession>, x: OfficialSession): nat {
    if sessions == [] then 0
    else Count(sessions[..|sessions| - 1], x) + if sessions[|sessions| - 1] == x then 1 else 0
  }

  ghost predicate AuthoritiesOk(s: Registry) {
    && (forall x :: x in s.authorities ==> s.authorities[x] < |s.authorities|)
    && (forall x, y :: x in s.authorities && y in s.authorities && s.authorities[x] == s.authorities[y] ==> x == y)
  }

  /** Each submission is either still in progress or has a terminal outcome, and only submissions are. */
  ghost predicate SubmissionsOk(s: Registry) {
    && (forall x :: Count(s.submitted, x) <= 1)
    && (forall x :: Count(s.submitted, x) > 0 ==> x in s.authorities)
    && (forall x :: x in s.authorities ==>
          (Count(s.submitted, x) == 1 <==> s.authorities[x] in s.inProgress || s.authorities[x] in s.outcomes))
    && (forall a :: a in s.inProgress ==> a !in s.outcomes)
    && (forall a :: a in s.inProgress || a in s.outcomes ==> a < |s.authorities|)
  }

  ghost predicate AttemptsOk(s: Registry) {
    && (forall id :: id in s.attempts ==> id < s.nextAttempt && s.attempts[id].authority in s.inProgress)
    && (forall i, j :: i in s.attempts && j in s.attempts && s.attempts[i].authority == s.attempts[j].authority ==>
        i == j)
    && (forall a :: a in s.inProgress ==> exists id :: id in s.attempts && s.attempts[id].authority == a)
  }

  ghost predicate ReceiptsOk(s: Registry) {
    && (forall r :: r in s.receiptLeases ==> r < |s.receiptLeases|)
    && (forall a :: a in s.outcomes && s.outcomes[a].Established? ==> s.outcomes[a].receipt in s.receiptLeases)
    && (forall a, b ::
          a in s.outcomes && s.outcomes[a].Established? && b in s.outcomes && s.outcomes[b].Established? && a != b ==>
          s.outcomes[a].receipt != s.outcomes[b].receipt)
  }

  ghost predicate Inv(s: Registry) {
    AuthoritiesOk(s) && SubmissionsOk(s) && AttemptsOk(s) && ReceiptsOk(s)
  }

  lemma EmptyInv()
    ensures Inv(EMPTY)
  {
  }

  lemma MintKeepsInv(s: Registry, session: OfficialSession)
    requires Inv(s)
    ensures var t := WithAuthority(s, session);
            && Inv(t) && session in t.authorities && t == s.(authorities := t.authorities)
            && (forall x :: x in s.authorities ==> x in t.authorities && t.authorities[x] == s.authorities[x])
  {
    hide Count, AttemptsOk, ReceiptsOk;
    var t := WithAuthority(s, session);
    if session !in s.authorities {
      assert AuthoritiesOk(t) by { hide SubmissionsOk; assert |t.authorities| == |s.authorities| + 1; }
      assert SubmissionsOk(t) by { MintSubmissions(s, t, session); }
      assert AttemptsOk(t) && ReceiptsOk(t) by { MintRest(s, t); }
    }
  }

  lemma MintSubmissions(s: Registry, t: Registry, session: OfficialSession)
    requires SubmissionsOk(s) && session !in s.authorities
    requires t == s.(authorities := s.authorities[session := |s.authorities|])
    ensures SubmissionsOk(t)
  {
    hide Count;
    assert |t.authorities| == |s.authorities| + 1;
    assert |s.authorities| !in s.inProgress && |s.authorities| !in s.outcomes;
    assert Count(s.submitted, session) == 0;
  }

  lemma MintRest(s: Registry, t: Registry)
    requires AttemptsOk(s) && ReceiptsOk(s) && t == s.(authorities := t.authorities)
    ensures AttemptsOk(t) && ReceiptsOk(t)
  {
    forall b | b in t.inProgress ensures exists k :: k in t.attempts && t.attempts[k].authority == b {
      var k :| k in s.attempts && s.attempts[k].authority == b;
      assert t.attempts[k].authority == b;
    }
  }

  lemma CountGrows(sessions: seq<OfficialSession>, y: OfficialSession, x: OfficialSession)
    ensures Count(sessions + [y], x) == Count(sessions, x) + if x == y then 1 else 0
  {
    assert (sessions + [y])[..|sessions|] == sessions;
  }

  /** An admitted attempt: a fresh session, now in progress, with command 99 handed over. */
  ghost predicate Submitted(s: Registry, t: Registry, session: OfficialSession, a: Attempt) {
    t == s.(inProgress := s.inProgress + {a.authority}, attempts := s.attempts[s.nextAttempt := a],
            nextAttempt := s.nextAttempt + 1, submitted := s.submitted + [session])
  }

  lemma SubmitAttempts(s: Registry, t: Registry, session: OfficialSession, a: Attempt)
    requires AttemptsOk(s) && Submitted(s, t, session, a) && a.authority !in s.inProgress
    ensures AttemptsOk(t)
  {
    forall b | b in t.inProgress ensures exists id :: id in t.attempts && t.attempts[id].authority == b {
      if b == a.authority {
        assert t.attempts[s.nextAttempt].authority == b;
      } else {
        var id :| id in s.attempts && s.attempts[id].authority == b;
        assert t.attempts[id].authority == b;
      }
    }
  }

  lemma SubmitSubmissions(s: Registry, t: Registry, session: OfficialSession, a: Attempt)
    requires AuthoritiesOk(s) && SubmissionsOk(s) && Submitted(s, t, session, a)
    requires session in s.authorities && s.authorities[session] == a.authority
    requires a.authority !in s.outcomes && a.authority !in s.inProgress
    ensures SubmissionsOk(t)
  {
    hide Count;
    forall x ensures Count(t.submitted, x) == Count(s.submitted, x) + if x == session then 1 else 0 {
      CountGrows(s.submitted, session, x);
    }
    assert Count(s.submitted, session) <= 1;
  }

  lemma SubmitKeepsInv(s: Registry, session: OfficialSession, a: Attempt)
    requires Inv(s) && session in s.authorities && s.authorities[session] == a.authority
    requires a.authority !in s.outcomes && a.authority !in s.inProgress
    ensures Inv(s.(inProgress := s.inProgress + {a.authority}, attempts := s.attempts[s.nextAttempt := a],
                   nextAttempt := s.nextAttempt + 1, submitted := s.submitted + [session]))
  {
    hide Count, SubmissionsOk, AttemptsOk;
    var t := s.(inProgress := s.inProgress + {a.authority}, attempts := s.attempts[s.nextAttempt := a],
                nextAttempt := s.nextAttempt + 1, submitted := s.submitted + [session]);
    SubmitAttempts(s, t, session, a);
    SubmitSubmissions(s, t, session, a);
  }

  lemma BeginKeepsInv(s: Registry, r: Request)
    requires Inv(s)
    ensures Inv(DoBegin(s, r))
  {
    hide Inv, Count;
    if Minting(s, r) {
      var session := r.lease.value.session.value;
      MintKeepsInv(s, session);
      var s1 := WithAuthority(s, session);
      if Refusal(s, r).None? {
        SubmitKeepsInv(s1, session,
                       Attempt(s1.authorities[session], r.lease.value.id, r.requested, r.current.identity.value,
                               AwaitingAck));
      }
    }
  }

  /** Leaving decides the session for good and touches no other. */
  ghost predicate Left(s: Registry, t: Registry, id: AttemptId)
    requires id in s.attempts
  {
    && t == s.(inProgress := s.inProgress - {s.attempts[id].authority}, attempts := s.attempts - {id},
               outcomes := t.outcomes, faultedLeases := t.faultedLeases, receiptLeases := t.receiptLeases)
    && t.outcomes.Keys == s.outcomes.Keys + {s.attempts[id].authority}
  }

  lemma LeftAttempts(s: Registry, t: Registry, id: AttemptId)
    requires AttemptsOk(s) && id in s.attempts && Left(s, t, id)
    ensures AttemptsOk(t)
  {
    forall b | b in t.inProgress ensures exists k :: k in t.attempts && t.attempts[k].authority == b {
      var k :| k in s.attempts && s.attempts[k].authority == b;
      assert t.attempts[k].authority == b;
    }
  }

  lemma LeftSubmissions(s: Registry, t: Registry, id: AttemptId)
    requires AuthoritiesOk(s) && SubmissionsOk(s) && id in s.attempts && s.attempts[id].authority in s.inProgress
             && Left(s, t, id)
    ensures SubmissionsOk(t)
  {
    hide Count;
    var a := s.attempts[id].authority;
    forall x | x in t.authorities
      ensures Count(t.submitted, x) == 1 <==> t.authorities[x] in t.inProgress || t.authorities[x] in t.outcomes
    {
      assert t.authorities[x] in t.outcomes.Keys <==> t.authorities[x] in s.outcomes.Keys || t.authorities[x] == a;
    }
    forall b | b in t.outcomes ensures b in s.outcomes || b == a {
      assert b in t.outcomes.Keys;
    }
  }

  lemma LeftKeepsInv(s: Registry, t: Registry, id: AttemptId)
    requires Inv(s) && id in s.attempts && Left(s, t, id) && ReceiptsOk(t)
    ensures Inv(t)
  {
    hide Count, SubmissionsOk, ReceiptsOk;
    LeftAttempts(s, t, id);
    LeftSubmissions(s, t, id);
  }

  /** The state after an exit that records FAULTED. */
  function LeftFaulted(s: Registry, id: AttemptId): Registry
    requires id in s.attempts
  {
    var a := s.attempts[id];
    s.(inProgress := s.inProgress - {a.authority}, attempts := s.attempts - {id},
       outcomes := s.outcomes[a.authority := FaultedSession], faultedLeases := s.faultedLeases + {a.lease})
  }

  lemma LeftFaultedKeepsInv(s: Registry, id: AttemptId)
    requires Inv(s) && id in s.attempts
    ensures Inv(LeftFaulted(s, id)) && s.attempts[id].authority !in s.outcomes
    ensures FailClosed(s, id) == LeftFaulted(s, id) == Leave(s, id)
  {
    hide Count, AuthoritiesOk, Left;
    var a := s.attempts[id].authority;
    assert a in s.inProgress && a !in s.outcomes;
    var t := LeftFaulted(s, id);
    FaultedIsLeft(s, id);
    LeftKeepsInv(s, t, id);
  }

  lemma FaultedIsLeft(s: Registry, id: AttemptId)
    requires id in s.attempts && ReceiptsOk(s)
    ensures Left(s, LeftFaulted(s, id), id) && ReceiptsOk(LeftFaulted(s, id))
  {
    var t := LeftFaulted(s, id);
    assert Left(s, t, id) by {
      hide ReceiptsOk;
      KeysAfterUpdate(s.outcomes, s.attempts[id].authority, FaultedSession);
    }
    assert ReceiptsOk(t) by {
      hide Left;
      ReceiptsAfterFault(s, t, s.attempts[id].authority);
    }
  }

  lemma KeysAfterUpdate(o: map<Authority, SessionOutcome>, a: Authority, outcome: SessionOutcome)
    ensures o[a := outcome].Keys == o.Keys + {a}
  {
  }

  lemma ReceiptsAfterFault(s: Registry, t: Registry, a: Authority)
    requires ReceiptsOk(s) && t.outcomes == s.outcomes[a := FaultedSession] && t.receiptLeases == s.receiptLeases
    ensures ReceiptsOk(t)
  {
  }

  lemma AckKeepsInv(s: Registry, id: AttemptId, ok: bool, c: Recheck)
    requires Inv(s) && id in s.attempts
    ensures Inv(DoAck(s, id, ok, c))
  {
    hide Inv, FailClosed, Leave, LeftFaulted, AckFailure;
    LeftFaultedKeepsInv(s, id);
    AcknowledgedKeepsInv(s, id);
  }

  lemma AcknowledgedKeepsInv(s: Registry, id: AttemptId)
    requires Inv(s) && id in s.attempts
    ensures Inv(s.(attempts := s.attempts[id := s.attempts[id].(stage := AwaitingStatus)]))
  {
    hide Count;
    var t := s.(attempts := s.attempts[id := s.attempts[id].(stage := AwaitingStatus)]);
    forall b | b in t.inProgress ensures exists k :: k in t.attempts && t.attempts[k].authority == b {
      var k :| k in s.attempts && s.attempts[k].authority == b;
      assert t.attempts[k].authority == b;
    }
  }

  /** The state after an exit that records a receipt. */
  function LeftEstablished(s: Registry, id: AttemptId): Registry
    requires id in s.attempts
  {
    var a := s.attempts[id];
    var receipt := |s.receiptLeases|;
    s.(inProgress := s.inProgress - {a.authority}, attempts := s.attempts - {id},
       receiptLeases := s.receiptLeases[receipt := a.lease],
       outcomes := s.outcomes[a.authority := Established(receipt)])
  }

  lemma LeftEstablishedKeepsInv(s: Registry, id: AttemptId)
    requires Inv(s) && id in s.attempts
    ensures Inv(LeftEstablished(s, id)) && s.attempts[id].authority !in s.outcomes
    ensures var a := s.attempts[id]; var receipt := |s.receiptLeases|;
            LeftEstablished(s, id) == Leave(s.(receiptLeases := s.receiptLeases[receipt := a.lease],
                                               outcomes := s.outcomes[a.authority := Established(receipt)]), id)
  {
    hide Count, AuthoritiesOk, Left;
    var a := s.attempts[id].authority;
    assert a in s.inProgress && a !in s.outcomes;
    EstablishedIsLeft(s, id);
    LeftKeepsInv(s, LeftEstablished(s, id), id);
  }

  lemma EstablishedIsLeft(s: Registry, id: AttemptId)
    requires id in s.attempts && ReceiptsOk(s)
    ensures Left(s, LeftEstablished(s, id), id) && ReceiptsOk(LeftEstablished(s, id))
  {
    var t := LeftEstablished(s, id);
    assert Left(s, t, id) by {
      hide ReceiptsOk;
      KeysAfterUpdate(s.outcomes, s.attempts[id].authority, Established(|s.receiptLeases|));
    }
    assert ReceiptsOk(t) by {
      hide Left;
      ReceiptsAfterGrant(s, t, s.attempts[id].authority, s.attempts[id].lease);
    }
  }

  lemma ReceiptsAfterGrant(s: Registry, t: Registry, a: Authority, lease: LeaseId)
    requires ReceiptsOk(s) && t.outcomes == s.outcomes[a := Established(|s.receiptLeases|)]
    requires t.receiptLeases == s.receiptLeases[|s.receiptLeases| := lease]
    ensures ReceiptsOk(t)
  {
    var receipt := |s.receiptLeases|;
    assert receipt !in s.receiptLeases;
    assert |t.receiptLeases| == receipt + 1;
  }

  /** What the three ways of ending or continuing an attempt come to. */
  lemma StatusShape(s: Registry, id: AttemptId, ok: bool, c: Recheck, status: Status)
    requires Inv(s) && id in s.attempts
    ensures
      var s1 := Looked(s, s.attempts[id], ok, c);
      && Inv(s1) && s1 == s.(authorities := s1.authorities)
      && (forall x :: x in s.authorities ==> x in s1.authorities && s1.authorities[x] == s.authorities[x])
      && DoStatus(s, id, ok, c, status)
         == if StatusFailure(s, s.attempts[id], ok, c, status).Some? then LeftFaulted(s1, id)
           else LeftEstablished(s1, id)
  {
    hide Inv, FailClosed, Leave, StatusFailure, WithAuthority, LeftFaulted, LeftEstablished;
    var a := s.attempts[id];
    if ok && Objection(a, c).None? && c.session.Some? {
      MintKeepsInv(s, c.session.value);
    }
    var s1 := Looked(s, a, ok, c);
    LeftFaultedKeepsInv(s1, id);
    LeftEstablishedKeepsInv(s1, id);
  }

  lemma StatusKeepsInv(s: Registry, id: AttemptId, ok: bool, c: Recheck, status: Status)
    requires Inv(s) && id in s.attempts
    ensures Inv(DoStatus(s, id, ok, c, status))
  {
    hide Inv, DoStatus, StatusFailure, LeftFaulted, LeftEstablished, Looked;
    StatusShape(s, id, ok, c, status);
    var s1 := Looked(s, s.attempts[id], ok, c);
    LeftFaultedKeepsInv(s1, id);
    LeftEstablishedKeepsInv(s1, id);
  }

  lemma StepKeepsInv(s: Registry, e: Event)
    requires Inv(s)
    ensures Inv(Step(s, e))
  {
    hide Inv, DoBegin, DoAck, DoStatus, Leave;
    if Possible(s, e) {
      match e {
        case Begin(r) => BeginKeepsInv(s, r);
        case AckSettled(id, ok, c) => AckKeepsInv(s, id, ok, c);
        case StatusSettled(id, ok, c, status) => StatusKeepsInv(s, id, ok, c, status);
        case UnexpectedThrow(id) => LeftFaultedKeepsInv(s, id);
      }
    }
  }

  lemma {:induction false} RunKeepsInv(s: Registry, events: seq<Event>)
    requires Inv(s)
    ensures Inv(Run(s, events))
    decreases |events|
  {
    hide Inv, Step;
    if events != [] {
      RunKeepsInv(s, events[..|events| - 1]);
      StepKeepsInv(Run(s, events[..|events| - 1]), events[|events| - 1]);
    }
  }

  // ---------------------------------------------------------------- guarantees over every run

  /** ONCE PER SESSION: over any number of leases and concurrent attempts, command 99 goes out at most once. */
  lemma SubmittedAtMostOnce(events: seq<Event>, session: OfficialSession)
    ensures Count(Run(EMPTY, events).submitted, session) <= 1
  {
    hide Count, Run;
    EmptyInv();
    RunKeepsInv(EMPTY, events);
  }

  /** Every submission is in progress or has a terminal outcome; nothing else has either. */
  lemma SubmittedIsAccountedFor(events: seq<Event>, session: OfficialSession)
    ensures
      var s := Run(EMPTY, events);
      Count(s.submitted, session) == 1
      <==> session in s.authorities && (s.authorities[session] in s.inProgress || s.authorities[session] in s.outcomes)
  {
    hide Count, Run;
    EmptyInv();
    RunKeepsInv(EMPTY, events);
    assert Count(Run(EMPTY, events).submitted, session) <= 1;
  }

  ghost predicate OutcomesKept(s: Registry, t: Registry) {
    && (forall a :: a in s.outcomes ==> a in t.outcomes && t.outcomes[a] == s.outcomes[a])
    && (forall x :: x in s.authorities ==> x in t.authorities && t.authorities[x] == s.authorities[x])
  }

  /** A step decides an undecided session, or mints an authority, or both; it revises nothing. */
  lemma StepKeepsOutcomes(s: Registry, e: Event)
    requires Inv(s)
    ensures OutcomesKept(s, Step(s, e))
  {
    hide Inv, FailClosed, Leave, StatusFailure, WithAuthority, AckFailure, Refusal, DoStatus, Looked;
    if Possible(s, e) {
      match e {
        case Begin(r) =>
          if Minting(s, r) { MintKeepsInv(s, r.lease.value.session.value); }
        case AckSettled(id, ok, c) => LeftFaultedKeepsInv(s, id);
        case StatusSettled(id, ok, c, status) => StatusKeepsOutcomes(s, id, ok, c, status);
        case UnexpectedThrow(id) => LeftFaultedKeepsInv(s, id);
      }
    }
  }

  lemma StatusKeepsOutcomes(s: Registry, id: AttemptId, ok: bool, c: Recheck, status: Status)
    requires Inv(s) && id in s.attempts
    ensures OutcomesKept(s, DoStatus(s, id, ok, c, status))
  {
    hide Inv, StatusFailure, WithAuthority, DoStatus, Looked;
    StatusShape(s, id, ok, c, status);
    LeftFaultedKeepsInv(s, id);
  }

  /** A terminal outcome is never overwritten, and a session keeps its authority. */
  lemma {:induction false} OutcomesAreFinal(s: Registry, events: seq<Event>)
    requires Inv(s)
    ensures OutcomesKept(s, Run(s, events))
    decreases |events|
  {
    hide Inv, Step;
    if events != [] {
      OutcomesAreFinal(s, events[..|events| - 1]);
      RunKeepsInv(s, events[..|events| - 1]);
      StepKeepsOutcomes(Run(s, events[..|events| - 1]), events[|events| - 1]);
    }
  }

  /** However an attempt ends after submission, its session then has an outcome it did not have before. */
  lemma EveryExitDecides(s: Registry, e: Event, id: AttemptId)
    requires Inv(s) && id in s.attempts && id !in Step(s, e).attempts
    ensures
      var a := s.attempts[id].authority;
      a !in s.outcomes && a in Step(s, e).outcomes && a !in Step(s, e).inProgress
  {
    hide Inv, FailClosed, Leave, StatusFailure, WithAuthority, AckFailure, Refusal, DoStatus, Looked;
    LeftFaultedKeepsInv(s, id);
    match e {
      case StatusSettled(k, ok, c, status) => StatusShape(s, k, ok, c, status);
      case AckSettled(k, ok, c) => LeftFaultedKeepsInv(s, k);
      case UnexpectedThrow(k) => LeftFaultedKeepsInv(s, k);
      case Begin(r) => MintingKeepsAttempts(s, r);
    }
  }

  lemma MintingKeepsAttempts(s: Registry, r: Request)
    ensures forall id :: id in s.attempts ==> id in DoBegin(s, r).attempts
  {
    hide Refusal;
  }

  /** A refusal leaves no trace: nothing submitted, nothing decided, nothing in progress. */
  lemma RefusalLeavesNoTrace(s: Registry, r: Request)
    requires Inv(s) && Refusal(s, r).Some?
    ensures DoBegin(s, r) == s.(authorities := DoBegin(s, r).authorities)
  {
  }

  /** Established exactly on two acknowledgements, an unchanged live session, a disarmed craft and the MSP bit. */
  lemma EstablishedExactlyOnGoodEvidence(s: Registry, id: AttemptId, ok: bool, c: Recheck, status: Status)
    requires Inv(s) && Possible(s, StatusSettled(id, ok, c, status))
    ensures
      var a := s.attempts[id];
      var t := Step(s, StatusSettled(id, ok, c, status));
      && a.authority in t.outcomes
      && (t.outcomes[a.authority].Established? <==>
            && ok && c.identity == Read(Some(a.requested)) && c.active
            && c.session.Some? && c.session.value in t.authorities && t.authorities[c.session.value] == a.authority
            && status.Decoded? && !status.malformedTail && status.armed.Disarmed?
            && status.mask.Some? && IsBitSet(status.mask.value, ARMING_DISABLED_MSP_BIT_INDEX))
  {
    hide Inv, DoStatus, IsBitSet;
    StatusShape(s, id, ok, c, status);
  }

  // ---------------------------------------------------------------- receipts

  /** isCurrent(): the receipt's lease is live, and it is the very receipt its session recorded. */
  predicate IsCurrent(s: Registry, receipt: ReceiptId, active: bool, session: Option<OfficialSession>) {
    && receipt in s.receiptLeases && active && session.Some?
    && session.value in s.authorities
    && s.authorities[session.value] in s.outcomes
    && s.outcomes[s.authorities[session.value]] == Established(receipt)
  }

  /** At most one receipt is ever current for a session, and a faulted session never has one again. */
  lemma OneReceiptPerSession(events: seq<Event>, more: seq<Event>, first: ReceiptId, second: ReceiptId,
                             session: OfficialSession)
    requires IsCurrent(Run(EMPTY, events), first, true, Some(session))
    requires IsCurrent(Run(Run(EMPTY, events), more), second, true, Some(session))
    ensures first == second
  {
    hide Count, Run, Inv;
    EmptyInv();
    RunKeepsInv(EMPTY, events);
    OutcomesAreFinal(Run(EMPTY, events), more);
  }
}
