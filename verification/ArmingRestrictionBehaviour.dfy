/** When an establishment is admitted, when it goes on, and which reason it ends with, in plain conditions. */
module ArmingRestrictionBehaviour {
  import opened MspTypes
  import opened ArmingRestrictionModel

  /** The authority a session has, or gets when it is first asked for. */
  function AuthorityOf(s: Registry, session: OfficialSession): Authority {
    if session in s.authorities then s.authorities[session] else |s.authorities|
  }

  predicate Same(identity: Option<CompositeIdentity>, requested: CompositeIdentity) {
    && identity.Some?
    && identity.value.physicalGeneration == requested.physicalGeneration
    && identity.value.mspEpoch == requested.mspEpoch
  }

  /** Everything admission asks for. */
  predicate Admissible(s: Registry, r: Request) {
    && r.lease.Some? && r.lease.value.id !in s.faultedLeases && r.lease.value.session.Some?
    && var authority := AuthorityOf(s, r.lease.value.session.value);
    && authority !in s.outcomes && authority !in s.inProgress
    && r.current.Read? && Same(r.current.identity, r.requested) && Same(Some(r.lease.value.identity), r.requested)
    && r.lease.value.active
    && r.boxIds.Some? && r.boxIds.value.authority == Some(authority) && r.boxIds.value.permanentIds != []
  }

  /**
   * ADMISSION: command 99 is submitted, for the lease's session and once, exactly if every condition holds; then the
   * session is in progress and an attempt with these identities awaits its acknowledgement.
   */
  lemma SubmittedExactlyWhen(s: Registry, r: Request)
    ensures
      var t := Step(s, Begin(r));
      if Admissible(s, r) then
        var session := r.lease.value.session.value;
        && t.submitted == s.submitted + [session]
        && t.inProgress == s.inProgress + {AuthorityOf(s, session)}
        && t.nextAttempt == s.nextAttempt + 1
        && t.attempts == s.attempts[s.nextAttempt := Attempt(AuthorityOf(s, session), r.lease.value.id, r.requested,
                                                             r.current.identity.value, AwaitingAck)]
        && t.outcomes == s.outcomes && t.faultedLeases == s.faultedLeases
      else t == s.(authorities := t.authorities)
  {
  }

  /** The reason a refusal gives: the first of these conditions that fails, from the lease to the Box IDs. */
  lemma RefusalReasons(s: Registry, r: Request)
    ensures Refusal(s, r).None? <==> Admissible(s, r)
    ensures r.lease.None? ==> Refusal(s, r) == Some(MotorTestLeaseInactive)
    ensures r.lease.Some? && r.lease.value.id in s.faultedLeases ==> Refusal(s, r) == Some(FaultLatched)
    ensures r.lease.Some? && r.lease.value.id !in s.faultedLeases && r.lease.value.session.None? ==>
              Refusal(s, r) == Some(MotorTestLeaseInactive)
    ensures r.lease.Some? && r.lease.value.id !in s.faultedLeases && r.lease.value.session.Some? ==>
              var lease := r.lease.value;
              var authority := AuthorityOf(s, lease.session.value);
              Refusal(s, r) ==
              if authority in s.outcomes && s.outcomes[authority].FaultedSession? then Some(FaultLatched)
              else if authority in s.outcomes then Some(AlreadyEstablished)
              else if authority in s.inProgress then Some(AlreadyEstablishing)
              else if r.current.ProviderThrew? then Some(SessionIdentityProviderFailed)
              else if r.current.identity.None? then Some(CurrentSessionIdentityUnavailable)
              else if !Same(r.current.identity, r.requested) then Some(RequestedSessionIdentityMismatch)
              else if !Same(Some(lease.identity), r.requested) then Some(MotorTestLeaseIdentityMismatch)
              else if !lease.active then Some(MotorTestLeaseInactive)
              else if r.boxIds.None? then Some(IndependentVerificationUnavailable)
              else if r.boxIds.value.authority != Some(authority) then Some(BoxIdsProvenanceInvalid)
              else if r.boxIds.value.permanentIds == [] then Some(IndependentVerificationUnavailable)
              else None
  {
  }

  /** What an attempt that ends in failure leaves: its session and its lease latched, and no marker. */
  ghost predicate EndsLatched(s: Registry, t: Registry, id: AttemptId)
    requires id in s.attempts
  {
    var a := s.attempts[id];
    && id !in t.attempts && a.authority !in t.inProgress
    && a.authority in t.outcomes && t.outcomes[a.authority].FaultedSession? && a.lease in t.faultedLeases
    && t.submitted == s.submitted && t.receiptLeases == s.receiptLeases
  }

  /**
   * AN ACKNOWLEDGEMENT IS ONLY AN ACKNOWLEDGEMENT: the attempt goes on to the status read exactly if the request
   * resolved, the identity read again is the one requested, and the lease is still active.
   */
  lemma GoesOnExactlyWhen(s: Registry, id: AttemptId, ok: bool, c: Recheck)
    requires Inv(s) && id in s.attempts && s.attempts[id].stage.AwaitingAck?
    ensures
      var a := s.attempts[id];
      var t := Step(s, AckSettled(id, ok, c));
      if ok && c.identity.Read? && Same(c.identity.identity, a.requested) && c.active
      then t == s.(attempts := s.attempts[id := a.(stage := AwaitingStatus)])
      else EndsLatched(s, t, id)
  {
    hide AuthoritiesOk, SubmissionsOk, ReceiptsOk;
    UndecidedAttempt(s, id);
  }

  lemma UndecidedAttempt(s: Registry, id: AttemptId)
    requires Inv(s) && id in s.attempts
    ensures s.attempts[id].authority in s.inProgress && s.attempts[id].authority !in s.outcomes
  {
    hide Count, AuthoritiesOk, ReceiptsOk;
  }

  /** The reason an attempt ends with after its acknowledgement, the first that applies. */
  lemma AckReasons(a: Attempt, ok: bool, c: Recheck)
    ensures AckFailure(a, ok, c) ==
            if !ok then Some(ArmingDisableRequestFailed)
            else if c.identity.ProviderThrew? then Some(SessionIdentityProviderFailed)
            else if !Same(c.identity.identity, a.requested) then Some(SessionChangedDuringEstablishment)
            else if !c.active then Some(MotorTestLeaseInactive)
            else None
  {
  }

  /** The aggregate restriction bit is bit 16 of the mask. */
  lemma RestrictionBit(mask: nat)
    ensures IsBitSet(mask, ARMING_DISABLED_MSP_BIT_INDEX) <==> mask / 65536 % 2 == 1
  {
    assert Pow2(4) == 16;
    assert Pow2(8) == 256;
    assert Pow2(12) == 4096;
    assert Pow2(16) == 65536;
  }

  /** The reason an attempt ends with after its status, the first that applies. */
  lemma StatusReasons(s: Registry, a: Attempt, ok: bool, c: Recheck, status: Status)
    ensures StatusFailure(s, a, ok, c, status) ==
            if !ok then Some(PostAckStatusRequestFailed)
            else if c.identity.ProviderThrew? then Some(SessionIdentityProviderFailed)
            else if !Same(c.identity.identity, a.requested) then Some(SessionChangedDuringEstablishment)
            else if !c.active then Some(MotorTestLeaseInactive)
            else if c.session.None? || AuthorityOf(s, c.session.value) != a.authority then
              Some(SessionChangedDuringEstablishment)
            else if status.Undecodable? || status.malformedTail then Some(MalformedStatusResponse)
            else if status.armed.ArmedUnknown? then Some(IndependentVerificationUnavailable)
            else if status.armed.Armed? then Some(FcArmed)
            else if status.mask.None? then Some(IndependentVerificationUnavailable)
            else if status.mask.value / 65536 % 2 != 1 then Some(RestrictionNotObserved)
            else None
  {
    hide IsBitSet;
    if status.Decoded? && status.mask.Some? { RestrictionBit(status.mask.value); }
  }

  /** A status without a failure establishes the session under a receipt of its own; any other latches it. */
  lemma StatusDecides(s: Registry, id: AttemptId, ok: bool, c: Recheck, status: Status)
    requires Inv(s) && id in s.attempts && s.attempts[id].stage.AwaitingStatus?
    ensures
      var a := s.attempts[id];
      var t := Step(s, StatusSettled(id, ok, c, status));
      if StatusFailure(s, a, ok, c, status).None? then
        && id !in t.attempts && a.authority !in t.inProgress
        && a.authority in t.outcomes && t.outcomes[a.authority] == Established(|s.receiptLeases|)
        && t.receiptLeases == s.receiptLeases[|s.receiptLeases| := a.lease]
        && t.faultedLeases == s.faultedLeases && t.submitted == s.submitted
      else EndsLatched(s, t, id)
  {
    hide AuthoritiesOk, SubmissionsOk, AttemptsOk, ReceiptsOk, StatusFailure, WithAuthority;
    UndecidedAttempt(s, id);
    LookingUpAuthorities(s, s.attempts[id], ok, c);
  }

  lemma LookingUpAuthorities(s: Registry, a: Attempt, ok: bool, c: Recheck)
    ensures Looked(s, a, ok, c) == s.(authorities := Looked(s, a, ok, c).authorities)
  {
  }

  /** An exception latches as any other failure does. */
  lemma ThrowLatches(s: Registry, id: AttemptId)
    requires Inv(s) && id in s.attempts
    ensures EndsLatched(s, Step(s, UnexpectedThrow(id)), id)
  {
    hide AuthoritiesOk, SubmissionsOk, AttemptsOk, ReceiptsOk;
    UndecidedAttempt(s, id);
  }
}
