/** The arming restriction's shared registries and the attempts that mutate them across their awaits. */
module MotorArmingRestriction {
  import opened MspTypes
  import R = ArmingRestrictionModel

  /** How the synchronous part of an establishment ends. */
  datatype Admission = Refused(reason: R.FailureReason) | Submitted(attempt: R.AttemptId)

  class MotorArmingRestriction {
    var sessionAuthorities: map<R.OfficialSession, R.Authority>
    var inProgress: set<R.Authority>
    var sessionOutcomes: map<R.Authority, R.SessionOutcome>
    var faultedLeases: set<R.LeaseId>
    var receiptLeases: map<R.ReceiptId, R.LeaseId>
    var attempts: map<R.AttemptId, R.Attempt>
    var nextAttempt: R.AttemptId
    ghost var submitted: seq<R.OfficialSession>

    ghost function View(): R.Registry
      reads this
    {
      R.Registry(sessionAuthorities, inProgress, sessionOutcomes, faultedLeases, receiptLeases, attempts, nextAttempt,
                 submitted)
    }

    /** Command 99 at most once per session, every submission accounted for. */
    ghost predicate Valid()
      reads this
    {
      R.Inv(View())
    }

    constructor ()
      ensures Valid() && View() == R.EMPTY
    {
      sessionAuthorities := map[];
      inProgress := {};
      sessionOutcomes := map[];
      faultedLeases := {};
      receiptLeases := map[];
      attempts := map[];
      nextAttempt := 0;
      submitted := [];
      new;
      R.EmptyInv();
    }

    method OfficialSessionAuthorityFor(session: R.OfficialSession) returns (authority: R.Authority)
      modifies this
      ensures View() == R.WithAuthority(old(View()), session)
      ensures session in sessionAuthorities && authority == sessionAuthorities[session]
    {
      if session !in sessionAuthorities {
        sessionAuthorities := sessionAuthorities[session := |sessionAuthorities|];
      }
      authority := sessionAuthorities[session];
    }

    /** The admission checks behind a reachable authority, in the order they are made. */
    method CheckAdmission(authority: R.Authority, lease: R.Lease, r: R.Request)
      returns (failure: Option<R.FailureReason>)
      requires r.lease == Some(lease) && lease.id !in faultedLeases && lease.session.Some?
      requires lease.session.value in sessionAuthorities && sessionAuthorities[lease.session.value] == authority
      ensures failure == R.Refusal(View(), r)
    {
      if authority in sessionOutcomes {
        return Some(if sessionOutcomes[authority].FaultedSession? then R.FaultLatched else R.AlreadyEstablished);
      }
      if authority in inProgress {
        return Some(R.AlreadyEstablishing);
      }
      if r.current.ProviderThrew? {
        return Some(R.SessionIdentityProviderFailed);
      }
      if r.current.identity.None? {
        return Some(R.CurrentSessionIdentityUnavailable);
      }
      if r.current.identity.value != r.requested {
        return Some(R.RequestedSessionIdentityMismatch);
      }
      if lease.identity != r.requested {
        return Some(R.MotorTestLeaseIdentityMismatch);
      }
      if !lease.active {
        return Some(R.MotorTestLeaseInactive);
      }
      if r.boxIds.None? {
        return Some(R.IndependentVerificationUnavailable);
      }
      if r.boxIds.value.authority != Some(authority) {
        return Some(R.BoxIdsProvenanceInvalid);
      }
      if r.boxIds.value.permanentIds == [] {
        return Some(R.IndependentVerificationUnavailable);
      }
      return None;
    }

    /** Marks the session in progress and hands command 99 to the lease. */
    method Submit(session: R.OfficialSession, a: R.Attempt) returns (attempt: R.AttemptId)
      modifies this
      ensures attempt == old(nextAttempt)
      ensures View() == old(View()).(inProgress := old(inProgress) + {a.authority},
                                     attempts := old(attempts)[attempt := a],
                                     nextAttempt := attempt + 1, submitted := old(submitted) + [session])
    {
      inProgress := inProgress + {a.authority};
      attempt := nextAttempt;
      attempts := attempts[attempt := a];
      nextAttempt := nextAttempt + 1;
      submitted := submitted + [session];
    }

    method EstablishMotorArmingRestriction(r: R.Request) returns (admission: Admission)
      requires Valid()
      modifies this
      ensures Valid() && View() == R.Step(old(View()), R.Begin(r))
      ensures admission.Refused? <==> R.Refusal(old(View()), r).Some?
      ensures admission.Refused? ==> R.Refusal(old(View()), r) == Some(admission.reason) && submitted == old(submitted)
      ensures admission.Submitted? ==> submitted == old(submitted) + [r.lease.value.session.value]
    {
      hide R.Inv;
      R.StepKeepsInv(View(), R.Begin(r));
      if r.lease.None? {
        return Refused(R.MotorTestLeaseInactive);
      }
      var lease := r.lease.value;
      if lease.id in faultedLeases {
        return Refused(R.FaultLatched);
      }
      if lease.session.None? {
        return Refused(R.MotorTestLeaseInactive);
      }
      var authority := OfficialSessionAuthorityFor(lease.session.value);
      MintedRefusal(old(View()), r);
      var failure := CheckAdmission(authority, lease, r);
      if failure.Some? {
        return Refused(failure.value);
      }
      var attempt := Submit(lease.session.value,
                            R.Attempt(authority, lease.id, r.requested, r.current.identity.value, R.AwaitingAck));
      return Submitted(attempt);
    }

    // ---------------------------------------------------------------- the post-submission boundary

    method LatchSessionFault(authority: R.Authority, lease: R.LeaseId)
      modifies this
      ensures View() == R.LatchSessionFault(old(View()), authority, lease)
    {
      sessionOutcomes := sessionOutcomes[authority := R.FaultedSession];
      faultedLeases := faultedLeases + {lease};
    }

    /** The finally block of an attempt. */
    method Leave(id: R.AttemptId)
      requires id in attempts
      modifies this
      ensures View() == R.Leave(old(View()), id)
    {
      var a := attempts[id];
      inProgress := inProgress - {a.authority};
      attempts := attempts - {id};
      if a.authority !in sessionOutcomes {
        LatchSessionFault(a.authority, a.lease);
      }
    }

    method FailClosed(id: R.AttemptId)
      requires id in attempts
      modifies this
      ensures View() == R.FailClosed(old(View()), id)
    {
      LatchSessionFault(attempts[id].authority, attempts[id].lease);
      Leave(id);
    }

    /** The re-reads after an await. */
    method Revalidate(a: R.Attempt, c: R.Recheck) returns (failure: Option<R.FailureReason>)
      ensures failure == R.Objection(a, c)
    {
      if c.identity.ProviderThrew? {
        return Some(R.SessionIdentityProviderFailed);
      }
      if c.identity.identity != Some(a.requested) {
        return Some(R.SessionChangedDuringEstablishment);
      }
      if !c.active {
        return Some(R.MotorTestLeaseInactive);
      }
      return None;
    }

    method OnAckSettled(id: R.AttemptId, ok: bool, c: R.Recheck) returns (failure: Option<R.FailureReason>)
      requires Valid() && id in attempts && attempts[id].stage.AwaitingAck?
      modifies this
      ensures Valid() && View() == R.Step(old(View()), R.AckSettled(id, ok, c))
      ensures failure == R.AckFailure(old(attempts)[id], ok, c)
    {
      hide R.Inv, R.FailClosed, R.Objection;
      R.StepKeepsInv(View(), R.AckSettled(id, ok, c));
      var a := attempts[id];
      if !ok {
        FailClosed(id);
        return Some(R.ArmingDisableRequestFailed);
      }
      failure := Revalidate(a, c);
      if failure.Some? {
        FailClosed(id);
        return;
      }
      attempts := attempts[id := a.(stage := R.AwaitingStatus)];
    }

    /** The evidence itself: decodable, disarmed, and the MSP arming-disable bit set. */
    method JudgeEvidence(status: R.Status) returns (failure: Option<R.FailureReason>)
      ensures failure ==
              if status.Undecodable? || status.malformedTail then Some(R.MalformedStatusResponse)
              else if status.armed.ArmedUnknown? then Some(R.IndependentVerificationUnavailable)
              else if status.armed.Armed? then Some(R.FcArmed)
              else if status.mask.None? then Some(R.IndependentVerificationUnavailable)
              else if !R.IsBitSet(status.mask.value, R.ARMING_DISABLED_MSP_BIT_INDEX)
                then Some(R.RestrictionNotObserved)
              else None
    {
      if status.Undecodable? || status.malformedTail {
        return Some(R.MalformedStatusResponse);
      }
      if status.armed.ArmedUnknown? {
        return Some(R.IndependentVerificationUnavailable);
      }
      if status.armed.Armed? {
        return Some(R.FcArmed);
      }
      if status.mask.None? {
        return Some(R.IndependentVerificationUnavailable);
      }
      if !R.IsBitSet(status.mask.value, R.ARMING_DISABLED_MSP_BIT_INDEX) {
        return Some(R.RestrictionNotObserved);
      }
      return None;
    }

    /** Records the receipt as its session's outcome. */
    method Grant(id: R.AttemptId) returns (receipt: R.ReceiptId)
      requires id in attempts
      modifies this
      ensures receipt == |old(receiptLeases)|
      ensures var a := old(attempts)[id];
              View() == R.Leave(
                          old(View()).(receiptLeases := old(receiptLeases)[receipt := a.lease],
                                       outcomes := old(sessionOutcomes)[a.authority := R.Established(receipt)]),
                          id)
    {
      hide R.Leave;
      receipt := |receiptLeases|;
      receiptLeases := receiptLeases[receipt := attempts[id].lease];
      sessionOutcomes := sessionOutcomes[attempts[id].authority := R.Established(receipt)];
      Leave(id);
    }

    method OnStatusSettled(id: R.AttemptId, ok: bool, c: R.Recheck, status: R.Status) returns (result: R.Establishment)
      requires Valid() && id in attempts && attempts[id].stage.AwaitingStatus?
      modifies this
      ensures Valid() && View() == R.Step(old(View()), R.StatusSettled(id, ok, c, status))
      ensures result.NotEstablished? <==> R.StatusFailure(old(View()), old(attempts)[id], ok, c, status).Some?
      ensures result.NotEstablished? ==>
              R.StatusFailure(old(View()), old(attempts)[id], ok, c, status) == Some(result.reason)
      ensures result.Granted? ==>
              sessionOutcomes == old(sessionOutcomes)[old(attempts)[id].authority := R.Established(result.receipt)]
    {
      hide R.Inv, R.FailClosed, R.Leave, R.Objection, R.IsBitSet, R.WithAuthority, R.LeftFaulted;
      R.StepKeepsInv(View(), R.StatusSettled(id, ok, c, status));
      R.StatusShape(View(), id, ok, c, status);
      var a := attempts[id];
      if !ok {
        FailClosed(id);
        return R.NotEstablished(R.PostAckStatusRequestFailed);
      }
      var failure := Revalidate(a, c);
      if failure.None? {
        var changed := SessionChanged(a, c);
        failure := if changed then Some(R.SessionChangedDuringEstablishment) else None;
      }
      if failure.None? {
        failure := JudgeEvidence(status);
      }
      if failure.Some? {
        FailClosed(id);
        return R.NotEstablished(failure.value);
      }
      var receipt := Grant(id);
      return R.Granted(receipt);
    }

    /** The lease's authority must still be the one the attempt began under. */
    method SessionChanged(a: R.Attempt, c: R.Recheck) returns (changed: bool)
      modifies this
      ensures View() == if c.session.Some? then R.WithAuthority(old(View()), c.session.value) else old(View())
      ensures changed <==>
              || c.session.None?
              || R.WithAuthority(old(View()), c.session.value).authorities[c.session.value] != a.authority
    {
      if c.session.None? {
        return true;
      }
      var authority := OfficialSessionAuthorityFor(c.session.value);
      return authority != a.authority;
    }

    method OnUnexpectedThrow(id: R.AttemptId)
      requires Valid() && id in attempts
      modifies this
      ensures Valid() && View() == R.Step(old(View()), R.UnexpectedThrow(id))
    {
      hide R.Inv, R.Leave;
      R.StepKeepsInv(View(), R.UnexpectedThrow(id));
      Leave(id);
    }
  }

  /** Minting the authority does not change what admission says. */
  lemma MintedRefusal(s: R.Registry, r: R.Request)
    requires r.lease.Some? && r.lease.value.session.Some?
    ensures R.Refusal(R.WithAuthority(s, r.lease.value.session.value), r) == R.Refusal(s, r)
  {
  }
}
