/** Acquiring the exclusive lease: identity checks in front of the client's own try-acquire. */
module MotorTestLease {
  import opened MspTypes
  import opened MspClientClass
  import opened MspClientInvariants
  import A = ArmingRestrictionModel
  import M = MspClientModel

  datatype AcquireFailure =
    | ClientUnavailable
    | CurrentIdentityUnavailable
    | RequestedIdentityMismatch
    | ClientNotIdle
    | LeaseAlreadyHeld
    | LeaseFaultLatched

  datatype Acquisition = Acquired(token: M.Token, identity: A.CompositeIdentity) | NotAcquired(reason: AcquireFailure)

  /** The client's refusals, one to one. */
  function MapClientRejection(r: M.Acquisition): AcquireFailure
    requires !r.Acquired?
  {
    match r
    case AlreadyHeld => LeaseAlreadyHeld
    case FaultLatched => LeaseFaultLatched
    case NotIdle => ClientNotIdle
  }

  /** Acquired exactly under the current identity, the client's own epoch and a free, idle, unfaulted client. */
  method AcquireMotorTestLease(client: MspClient?, requested: A.CompositeIdentity, current: Option<A.CompositeIdentity>)
    returns (acquisition: Acquisition)
    requires client != null ==> client.Valid()
    modifies client
    ensures client != null ==> client.Valid()
    ensures acquisition.Acquired? <==>
            && client != null && current == Some(requested)
            && old(client.mspEpoch) == requested.mspEpoch
            && old(M.AcquireVerdict(client.View())).Acquired?
    ensures acquisition.Acquired? ==>
              && acquisition.identity == requested
              && client.motorTestLeaseToken == Some(acquisition.token)
              && client.View() == M.Step(client.env, old(client.View()), M.Acquire)
    ensures acquisition.NotAcquired? && client != null ==> client.View() == old(client.View())
    ensures acquisition.NotAcquired? ==>
              acquisition.reason ==
              if client == null then ClientUnavailable
              else if current.None? then CurrentIdentityUnavailable
              else if current != Some(requested) || old(client.mspEpoch) != requested.mspEpoch
              then RequestedIdentityMismatch
              else if old(client.motorTestLeaseToken).Some? then LeaseAlreadyHeld
              else if old(client.mspEpoch in client.faultEpochs) then LeaseFaultLatched
              else ClientNotIdle
  {
    hide M.AcquireVerdict, M.Step, Inv;
    if client == null {
      return NotAcquired(ClientUnavailable);
    }
    if current.None? {
      return NotAcquired(CurrentIdentityUnavailable);
    }
    if current.value != requested {
      return NotAcquired(RequestedIdentityMismatch);
    }
    if client.mspEpoch != requested.mspEpoch {
      return NotAcquired(RequestedIdentityMismatch);
    }
    RefusedAcquireChangesNothing(client.env, client.View());
    VerdictReasons(client.View());
    var outcome := client.TryAcquireMotorTestLease();
    if !outcome.Acquired? {
      return NotAcquired(MapClientRejection(outcome));
    }
    return Acquired(outcome.token, current.value);
  }

  lemma VerdictReasons(s: M.Engine)
    ensures M.AcquireVerdict(s).AlreadyHeld? <==> s.token.Some?
    ensures M.AcquireVerdict(s).FaultLatched? <==> s.token.None? && s.epoch in s.faultEpochs
  {
  }

  lemma RefusedAcquireChangesNothing(env: M.Env, s: M.Engine)
    requires Inv(s)
    ensures !M.AcquireVerdict(s).Acquired? ==> M.Step(env, s, M.Acquire) == s
  {
    hide PlacesOk, LogOk, CallbacksOk, LeaseOk, ProbeOk, StopOk;
  }
}
