/**
 * The MSP request engine as a function from states and external events to states.
 *
 * Object identity is a fresh number; `outcomes` records every settled promise; `writing`,
 * `timers` and `restarting` are the callbacks the platform still owes the engine; `jobs` are the
 * promise reactions queued during an event and run at its end, before the next one.
 */
module MspClientModel {
  import opened MspTypes
  import opened MspWireGrammar
  import opened MspEncoder

  type RequestId = nat
  type Token = nat

  datatype ClientState =
    | Ready
    | Desynchronized
    | RestartingReader
    | Probing
    | RecoveryFailed
    | Disconnected
    | Closing

  /** Who admitted a request. */
  datatype Origin =
    | Ordinary
    | Leased(token: Token)
    | Stop(token: Token)
    | Probe(epoch: nat)

  function OriginToken(o: Origin): Option<Token> {
    match o
    case Leased(t) => Some(t)
    case Stop(t) => Some(t)
    case _ => None
  }

  datatype RequestSpec = RequestSpec(command: int, payload: seq<byte>, wireFormat: WireFormat, flags: int)
  {
    function Options(): EncodeOptions {
      EncodeOptions(wireFormat, flags, MSP_MAX_PAYLOAD_BYTES_DEFAULT)
    }

    predicate Encodable() {
      Refusal(command, payload, Options()).None?
    }

    function Bytes(): seq<byte>
      requires Encodable()
    {
      var f := RequestFrame(command, payload, Options());
      Render(f, MinimalJumbo(f))
    }
  }

  datatype PendingRequest = PendingRequest(id: RequestId, spec: RequestSpec, origin: Origin)

  datatype Phase = Writing | AwaitingResponse

  datatype ActiveRequest = ActiveRequest(
    id: RequestId,
    command: int,
    protocol: ProtocolVersion,
    phase: Phase,
    origin: Origin,
    displacedByEmergencyStop: bool)

  datatype Code =
    | Timeout
    | RemoteError
    | SessionClosed
    | DeviceDetached
    | WriteOutcomeUnknown
    | QueueFull
    | TransportQueueFull
    | RecoveryRequired
    | EncodeFailed
    | Recovering
    | LeaseHeld
    | CapabilityInvalid
    | DisplacedQueued
    | DisplacedInFlight
    | StopAbortedByDesync
    | StopAbortedBySessionEnd
    | ProbeFailed

  /** The two codes a disconnected client answers with. */
  type Cause = c: Code | c.SessionClosed? || c.DeviceDetached? witness SessionClosed

  datatype Outcome = Resolved(frame: MspFrame) | Rejected(code: Code)

  /** How a transport write promise was rejected. */
  datatype WriteFailure = TransportSessionClosed | TransportWriteQueueFull | OtherFailure

  function ClassifyWriteFailure(f: WriteFailure): Code {
    match f
    case TransportSessionClosed => SessionClosed
    case TransportWriteQueueFull => TransportQueueFull
    case OtherFailure => WriteOutcomeUnknown
  }

  /** One call of the transport's writeBytes, with the lease in force at that moment. */
  datatype WriteRecord = WriteRecord(id: RequestId, origin: Origin, held: Option<Token>, bytes: seq<byte>)

  /** A queued reaction of a lease-scoped promise. */
  datatype Job = Job(id: RequestId, origin: Origin, outcome: Outcome)

  datatype Engine = Engine(
    state: ClientState,
    queue: seq<PendingRequest>,
    active: Option<ActiveRequest>,
    stopPending: Option<PendingRequest>,
    stopRegistered: Option<RequestId>,
    stopAmbiguous: bool,
    stopDeferred: bool,
    token: Option<Token>,
    leaseEpoch: Option<nat>,
    retired: set<Token>,
    invalidated: set<Token>,
    faultEpochs: set<nat>,
    epoch: nat,
    disconnectCause: Option<Cause>,
    disposed: bool,
    nextId: RequestId,
    nextToken: Token,
    outcomes: map<RequestId, Outcome>,
    writing: set<RequestId>,
    timers: set<RequestId>,
    restarting: set<nat>,
    writes: seq<WriteRecord>,
    jobs: seq<Job>)

  /** What a transport may do against its contract, and the queue bound of this client. */
  datatype Env = Env(maxPending: nat, writeThrows: RequestId -> bool, restartThrows: nat -> bool)

  const INITIAL := Engine(Ready, [], None, None, None, false, false, None, None, {}, {}, {}, 0, None, false,
                          0, 0, map[], {}, {}, {}, [], [])

  const PROBE_SPEC := RequestSpec(1, [], V1, 0)

  // ---------------------------------------------------------------- settling

  predicate IsCurrentRecovery(s: Engine, epoch: nat) {
    s.state != Disconnected && s.state != Closing && s.epoch == epoch
  }

  /** Settles a promise once; the probe's own callbacks move the state in the same call. */
  function Settle(s: Engine, id: RequestId, origin: Origin, o: Outcome): Engine {
    if id in s.outcomes then s
    else
      var s1 := s.(outcomes := s.outcomes[id := o]);
      match origin
      case Ordinary => s1
      case Probe(e) =>
        if IsCurrentRecovery(s1, e) then s1.(state := if o.Resolved? then Ready else RecoveryFailed) else s1
      case _ => s1.(jobs := s1.jobs + [Job(id, origin, o)])
  }

  function SettleAll(s: Engine, rs: seq<PendingRequest>, o: Outcome): Engine
    decreases |rs|
  {
    if rs == [] then s
    else SettleAll(Settle(s, rs[0].id, rs[0].origin, o), rs[1..], o)
  }

  // ---------------------------------------------------------------- the lease

  function InvalidateLease(s: Engine): Engine {
    if s.token.None? then s
    else s.(invalidated := s.invalidated + {s.token.value}, token := None, leaseEpoch := None)
  }

  /** Latches the epoch the lease was acquired under, then kills the lease. */
  function FaultLease(s: Engine): Engine {
    InvalidateLease(
      if s.leaseEpoch.Some? then s.(faultEpochs := s.faultEpochs + {s.leaseEpoch.value}) else s)
  }

  function ClearRegistration(s: Engine, id: RequestId): Engine {
    if s.stopRegistered != Some(id) then s
    else s.(stopRegistered := None, stopPending := None, stopAmbiguous := false, stopDeferred := false)
  }

  /** A request displaced by its own lease's stop is the one rejection that does not fault the lease. */
  predicate Displacement(o: Outcome) {
    o.Rejected? && (o.code.DisplacedQueued? || o.code.DisplacedInFlight?)
  }

  function React(s: Engine, j: Job): Engine {
    if j.origin.Stop? then
      var s1 := ClearRegistration(s, j.id);
      if j.outcome.Rejected? then FaultLease(s1) else s1
    else if j.outcome.Rejected? && !Displacement(j.outcome) then FaultLease(s)
    else s
  }

  function Drain(s: Engine): Engine
    decreases |s.jobs|
  {
    if s.jobs == [] then s else Drain(React(s.(jobs := s.jobs[1..]), s.jobs[0]))
  }

  function AbortStop(s: Engine, code: Code): Engine {
    if s.stopPending.None? then s
    else
      var stop := s.stopPending.value;
      Settle(s.(stopPending := None), stop.id, stop.origin, Rejected(code))
  }

  // ---------------------------------------------------------------- submission

  function Backlog(s: Engine): nat {
    |s.queue| + if s.stopPending.Some? then 1 else 0
  }

  lemma SettleKeepsBacklog(s: Engine, id: RequestId, origin: Origin, o: Outcome)
    ensures Backlog(Settle(s, id, origin, o)) == Backlog(s)
  {
  }

  /** The one place a stop overtakes the FIFO. */
  function Pump(env: Env, s: Engine): Engine
    decreases Backlog(s), 0
  {
    if s.state != Ready || s.active.Some? then s
    else if s.stopPending.Some? then StartRequest(env, s.(stopPending := None), s.stopPending.value)
    else if s.queue == [] then s
    else StartRequest(env, s.(queue := s.queue[1..]), s.queue[0])
  }

  function Activated(s: Engine, r: PendingRequest): Engine
    requires r.spec.Encodable()
  {
    s.(active := Some(ActiveRequest(r.id, r.spec.command, ProtocolOf(r.spec.wireFormat), Writing, r.origin, false)),
       writes := s.writes + [WriteRecord(r.id, r.origin, s.token, r.spec.Bytes())])
  }

  function StartRequest(env: Env, s: Engine, r: PendingRequest): Engine
    decreases Backlog(s), 1
  {
    if !r.spec.Encodable() then
      SettleKeepsBacklog(s, r.id, r.origin, Rejected(EncodeFailed));
      Pump(env, Settle(s, r.id, r.origin, Rejected(EncodeFailed)))
    else
      var s1 := Activated(s, r);
      if !env.writeThrows(r.id) then s1.(writing := s1.writing + {r.id})
      else if r.origin.Probe? then Settle(s1, r.id, r.origin, Rejected(ProbeFailed)).(active := None)
      else DesyncLatch(env, Settle(s1, r.id, r.origin, Rejected(WriteOutcomeUnknown)).(active := None))
  }

  // ---------------------------------------------------------------- desynchronization and recovery

  function DesyncLatch(env: Env, s: Engine): Engine {
    var s1 := AbortStop(FaultLease(s), StopAbortedByDesync);
    var s2 := SettleAll(s1.(queue := []), s1.queue, Rejected(Recovering));
    StartRecovery(env, s2.(epoch := s2.epoch + 1, state := Desynchronized))
  }

  function StartRecovery(env: Env, s: Engine): Engine {
    if env.restartThrows(s.epoch) then s.(state := RecoveryFailed)
    else s.(state := RestartingReader, restarting := s.restarting + {s.epoch})
  }

  function SendProbe(env: Env, s: Engine): Engine {
    var id := s.nextId;
    StartRequest(env, s.(state := Probing, nextId := id + 1), PendingRequest(id, PROBE_SPEC, Probe(s.epoch)))
  }

  // ---------------------------------------------------------------- admission

  function CheckAcceptance(s: Engine): Option<Code> {
    match s.state
    case Ready => None
    case Desynchronized => Some(Recovering)
    case RestartingReader => Some(Recovering)
    case Probing => Some(Recovering)
    case RecoveryFailed => Some(RecoveryRequired)
    case Disconnected => Some(s.disconnectCause.GetOr(SessionClosed))
    case Closing => Some(SessionClosed)
  }

  /** A promise that is already rejected when its caller gets it. */
  function Refuse(s: Engine, origin: Origin, code: Code): Engine {
    Settle(s.(nextId := s.nextId + 1), s.nextId, origin, Rejected(code))
  }

  function Enqueue(env: Env, s: Engine, spec: RequestSpec, origin: Origin): Engine {
    var rejection := CheckAcceptance(s);
    if rejection.Some? then Refuse(s, origin, rejection.value)
    else if |s.queue| >= env.maxPending then Refuse(s, origin, QueueFull)
    else
      Pump(env, s.(nextId := s.nextId + 1, queue := s.queue + [PendingRequest(s.nextId, spec, origin)]))
  }

  function IsIdle(s: Engine): bool {
    !s.disposed && s.state.Ready? && s.active.None? && s.queue == [] && s.stopPending.None?
  }

  // ---------------------------------------------------------------- external events

  function DoRequest(env: Env, s: Engine, spec: RequestSpec): Engine {
    if s.token.Some? then Refuse(s, Ordinary, LeaseHeld) else Enqueue(env, s, spec, Ordinary)
  }

  function DoLeaseRequest(env: Env, s: Engine, token: Token, spec: RequestSpec): Engine {
    if s.token != Some(token) then Refuse(s, Ordinary, CapabilityInvalid)
    else Enqueue(env, s, spec, Leased(token))
  }

  predicate StopAccepted(s: Engine, token: Token) {
    s.token == Some(token) && s.stopRegistered.None? && CheckAcceptance(s).None?
  }

  /** Frees the slot of a request that only waits for its answer; a running write is only marked. */
  function DisplaceActive(s: Engine): Engine {
    if s.active.None? then s
    else
      var a := s.active.value;
      if a.phase.AwaitingResponse? then
        Settle(s.(timers := s.timers - {a.id}), a.id, a.origin, Rejected(DisplacedInFlight)).(active := None)
      else s.(active := Some(a.(displacedByEmergencyStop := true)))
  }

  /** A late answer to the active request could be taken for an answer to `spec`. */
  predicate LooksAlike(s: Engine, spec: RequestSpec) {
    && s.active.Some?
    && s.active.value.command == spec.command && s.active.value.protocol == ProtocolOf(spec.wireFormat)
  }

  function RegisterStop(s: Engine, token: Token, spec: RequestSpec): Engine {
    var purged := SettleAll(s.(queue := []), s.queue, Rejected(DisplacedQueued));
    var ambiguous := LooksAlike(s, spec);
    var deferred := s.active.Some? && s.active.value.phase.Writing?;
    DisplaceActive(purged).(
      nextId := s.nextId + 1,
      stopPending := Some(PendingRequest(s.nextId, spec, Stop(token))),
      stopRegistered := Some(s.nextId),
      stopAmbiguous := ambiguous,
      stopDeferred := deferred)
  }

  function DoEmergencyStop(env: Env, s: Engine, token: Token, spec: RequestSpec): Engine {
    if s.token != Some(token) then Refuse(s, Ordinary, CapabilityInvalid)
    else if s.stopRegistered.Some? then s
    else if CheckAcceptance(s).Some? then Refuse(s, Ordinary, CheckAcceptance(s).value)
    else Pump(env, RegisterStop(s, token, spec))
  }

  function DoWriteOk(env: Env, s: Engine, id: RequestId): Engine {
    var s0 := s.(writing := s.writing - {id});
    if id in s.outcomes || s.active.None? || s.active.value.id != id then s0
    else
      var a := s.active.value;
      if a.displacedByEmergencyStop then
        Pump(env, Settle(s0, id, a.origin, Rejected(DisplacedInFlight)).(active := None))
      else
        s0.(active := Some(a.(phase := AwaitingResponse)), timers := s0.timers + {id})
  }

  function DoWriteFailed(env: Env, s: Engine, id: RequestId, f: WriteFailure): Engine {
    var s0 := s.(writing := s.writing - {id});
    if id in s.outcomes || s.active.None? || s.active.value.id != id then s0
    else
      var a := s.active.value;
      if a.origin.Probe? then Settle(s0, id, a.origin, Rejected(ProbeFailed)).(active := None)
      else
        var code := ClassifyWriteFailure(f);
        var s1 := Settle(s0, id, a.origin, Rejected(code)).(active := None);
        if code.WriteOutcomeUnknown? then DesyncLatch(env, s1) else Pump(env, s1)
  }

  function DoTimeout(env: Env, s: Engine, id: RequestId): Engine {
    var s0 := s.(timers := s.timers - {id});
    if id in s.outcomes || s.active.None? || s.active.value.id != id then s0
    else
      var a := s.active.value;
      if a.origin.Probe? then Settle(s0, id, a.origin, Rejected(ProbeFailed)).(active := None)
      else DesyncLatch(env, Settle(s0, id, a.origin, Rejected(Timeout)).(active := None))
  }

  predicate Matches(s: Engine, f: MspFrame) {
    && s.active.Some?
    && s.active.value.id !in s.outcomes
    && f.Protocol() == s.active.value.protocol
    && f.command == s.active.value.command
    && !f.direction.Request?
  }

  function DoFrame(env: Env, s: Engine, f: MspFrame): Engine {
    if !Matches(s, f) then s
    else
      var a := s.active.value;
      var o := if f.direction.Error? && !a.origin.Probe? then Rejected(RemoteError) else Resolved(f);
      Pump(env, Settle(s.(timers := s.timers - {a.id}), a.id, a.origin, o).(active := None))
  }

  /** All the frames one received chunk completes. */
  function DoFrames(env: Env, s: Engine, fs: seq<MspFrame>): Engine
    decreases |fs|
  {
    if fs == [] then s else DoFrames(env, DoFrame(env, s, fs[0]), fs[1..])
  }

  function DoRestartOk(env: Env, s: Engine, epoch: nat): Engine {
    var s0 := s.(restarting := s.restarting - {epoch});
    if IsCurrentRecovery(s, epoch) then SendProbe(env, s0) else s0
  }

  function DoRestartFailed(s: Engine, epoch: nat): Engine {
    var s0 := s.(restarting := s.restarting - {epoch});
    if IsCurrentRecovery(s, epoch) then s0.(state := RecoveryFailed) else s0
  }

  function RejectActive(s: Engine, code: Code): Engine {
    if s.active.None? then s
    else
      var a := s.active.value;
      Settle(s.(timers := s.timers - {a.id}), a.id, a.origin, Rejected(code)).(active := None)
  }

  /** Rejects everything still open, in the order active, stop, queue. */
  function RejectAll(s: Engine, code: Code): Engine {
    var s1 := AbortStop(RejectActive(s, code), StopAbortedBySessionEnd);
    SettleAll(s1.(queue := []), s1.queue, Rejected(code))
  }

  function DoDispose(s: Engine): Engine {
    if s.disposed then s
    else
      var s1 := InvalidateLease(s.(disposed := true));
      if s1.state.Disconnected? then s1
      else
        RejectAll(s1.(state := Closing), SessionClosed).(disconnectCause := Some(SessionClosed), state := Disconnected)
  }

  function DoDetach(s: Engine): Engine {
    RejectAll(InvalidateLease(s).(disconnectCause := Some(DeviceDetached), state := Disconnected), DeviceDetached)
  }

  datatype Acquisition = Acquired(token: Token) | AlreadyHeld | FaultLatched | NotIdle

  function AcquireVerdict(s: Engine): Acquisition {
    if s.token.Some? then AlreadyHeld
    else if s.epoch in s.faultEpochs then FaultLatched
    else if !IsIdle(s) then NotIdle
    else Acquired(s.nextToken)
  }

  function DoAcquire(s: Engine): Engine {
    if AcquireVerdict(s).Acquired? then
      s.(token := Some(s.nextToken), leaseEpoch := Some(s.epoch), nextToken := s.nextToken + 1)
    else s
  }

  datatype Release = Released | AlreadyReleased | Invalidated | NotOwner | WorkUnsettled

  function ReleaseVerdict(s: Engine, token: Token): Release {
    if token in s.invalidated then Invalidated
    else if token in s.retired then AlreadyReleased
    else if s.token != Some(token) then NotOwner
    else if s.active.Some? || s.queue != [] || s.stopPending.Some? then WorkUnsettled
    else Released
  }

  function DoRelease(s: Engine, token: Token): Engine {
    if ReleaseVerdict(s, token).Released? then
      s.(retired := s.retired + {token}, token := None, leaseEpoch := None)
    else s
  }

  function DoFaultByToken(s: Engine, token: Token): Engine {
    if s.token == Some(token) then FaultLease(s) else s
  }

  datatype Event =
    | Request(spec: RequestSpec)
    | LeaseRequest(token: Token, spec: RequestSpec)
    | EmergencyStop(token: Token, spec: RequestSpec)
    | WriteOk(id: RequestId)
    | WriteFailed(id: RequestId, failure: WriteFailure)
    | TimerFired(id: RequestId)
    | Frames(frames: seq<MspFrame>)
    | RestartOk(epoch: nat)
    | RestartFailed(epoch: nat)
    | Detach
    | Dispose
    | Acquire
    | ReleaseLease(token: Token)
    | FaultByToken(token: Token)

  /** A callback the platform does not owe cannot happen. */
  predicate Possible(s: Engine, e: Event) {
    match e
    case WriteOk(id) => id in s.writing
    case WriteFailed(id, _) => id in s.writing
    case TimerFired(id) => id in s.timers
    case RestartOk(epoch) => epoch in s.restarting
    case RestartFailed(epoch) => epoch in s.restarting
    case _ => true
  }

  function Act(env: Env, s: Engine, e: Event): Engine {
    match e
    case Request(spec) => DoRequest(env, s, spec)
    case LeaseRequest(token, spec) => DoLeaseRequest(env, s, token, spec)
    case EmergencyStop(token, spec) => DoEmergencyStop(env, s, token, spec)
    case WriteOk(id) => DoWriteOk(env, s, id)
    case WriteFailed(id, f) => DoWriteFailed(env, s, id, f)
    case TimerFired(id) => DoTimeout(env, s, id)
    case Frames(fs) => DoFrames(env, s, fs)
    case RestartOk(epoch) => DoRestartOk(env, s, epoch)
    case RestartFailed(epoch) => DoRestartFailed(s, epoch)
    case Detach => DoDetach(s)
    case Dispose => DoDispose(s)
    case Acquire => DoAcquire(s)
    case ReleaseLease(token) => DoRelease(s, token)
    case FaultByToken(token) => DoFaultByToken(s, token)
  }

  /** One external event and the reactions it leaves; an event that cannot happen changes nothing. */
  function Step(env: Env, s: Engine, e: Event): Engine {
    if Possible(s, e) then Drain(Act(env, s, e)) else s
  }

  function Run(env: Env, s: Engine, events: seq<Event>): Engine {
    if events == [] then s
    else Step(env, Run(env, s, events[..|events| - 1]), events[|events| - 1])
  }
}
