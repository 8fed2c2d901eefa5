/**
  The durable records of the device-management lifecycle: Household snapshots, jobs and the
  metadata envelopes of enrollment execution, post-condition verification, de-enrollment and
  failed-enrollment cleanup.

  Identifiers are compared for equality only and are modelled as natural numbers; timestamps
  are whole seconds.  A SHA-256 digest is modelled by the value it is taken of.
 */
module Records {
  import opened Wrappers

  type PlanId = nat
  type VerificationId = nat
  type DeenrollmentId = nat
  type CleanupId = nat
  type JobId = nat
  type OperationId = nat
  type ProviderId = nat
  type DeviceId = nat
  type MemberId = nat
  type Actor = nat
  type Key = nat
  type Time = int

  const MAX_GENERATION: nat := 0x7FFF_FFFF_FFFF_FFFF

  // ----- Household ---------------------------------------------------------------------

  datatype Member = Member(memberId: MemberId, administrator: bool)

  datatype Device = Device(deviceId: DeviceId, memberId: MemberId, displayName: nat, managed: bool)

  datatype Household = Household(members: seq<Member>, devices: seq<Device>)

  /** A versioned Household.  The previous snapshot's id is a digest of the whole previous
      snapshot, so it is modelled by that snapshot. */
  datatype Snapshot = Snapshot(household: Household, generation: nat, previous: Option<Snapshot>)

  datatype ActorBinding = ActorBinding(actor: Actor, memberId: MemberId)

  datatype HouseholdState = HouseholdState(snapshot: Snapshot, bindings: seq<ActorBinding>)

  function MemberOf(bindings: seq<ActorBinding>, actor: Actor): Option<MemberId> {
    if bindings == [] then None
    else if bindings[0].actor == actor then Some(bindings[0].memberId)
    else MemberOf(bindings[1..], actor)
  }

  predicate Administers(members: seq<Member>, memberId: MemberId) {
    exists m :: m in members && m.memberId == memberId && m.administrator
  }

  /** Why the actor may not administer this Household, if so. */
  function ActorRefusal(state: HouseholdState, actor: Actor): Option<Code> {
    var member := MemberOf(state.bindings, actor);
    if member.None? then Some(ActorNotBound)
    else if !Administers(state.snapshot.household.members, member.value) then Some(NotAuthorized)
    else None
  }

  function FindDevice(devices: seq<Device>, deviceId: DeviceId): Option<Device> {
    if devices == [] then None
    else if devices[0].deviceId == deviceId then Some(devices[0])
    else FindDevice(devices[1..], deviceId)
  }

  /** Why this device cannot be what an operation is about, if so: it has to be that member's, and its
      managed flag as given. */
  function DeviceRefusal(devices: seq<Device>, deviceId: DeviceId, memberId: MemberId, managed: bool): Option<Code> {
    var device := FindDevice(devices, deviceId);
    if device.None? then Some(DeviceNotFound)
    else if device.value.memberId != memberId then Some(BindingMismatch)
    else if device.value.managed != managed then Some(if managed then NotManaged else AlreadyManaged)
    else None
  }

  predicate HasDevice(devices: seq<Device>, deviceId: DeviceId) {
    exists i :: 0 <= i < |devices| && devices[i].deviceId == deviceId
  }

  /** The devices with the managed flag of one of them set, and nothing else changed. */
  function WithManaged(devices: seq<Device>, deviceId: DeviceId, managed: bool): (r: seq<Device>)
    ensures |r| == |devices|
    ensures forall i :: 0 <= i < |devices| ==>
      r[i] == if devices[i].deviceId == deviceId then devices[i].(managed := managed) else devices[i]
  {
    seq(|devices|, i requires 0 <= i < |devices| =>
      if devices[i].deviceId == deviceId then devices[i].(managed := managed) else devices[i])
  }

  function Replacement(base: Snapshot, household: Household): Snapshot {
    Snapshot(household, base.generation + 1, Some(base))
  }

  /** What the first matching device refuses, if it does. */
  function FlipRefusal(devices: seq<Device>, deviceId: DeviceId, memberId: MemberId, managed: bool): Option<Code> {
    if devices == [] then None
    else if devices[0].deviceId != deviceId then FlipRefusal(devices[1..], deviceId, memberId, managed)
    else if devices[0].memberId != memberId then Some(BindingMismatch)
    else if devices[0].managed == managed then Some(if managed then AlreadyManaged else NotManaged)
    else FlipRefusal(devices[1..], deviceId, memberId, managed)
  }

  /** The snapshot that replaces `base` when the device's managed flag becomes `managed`. */
  function FlippedSnapshot(base: Snapshot, deviceId: DeviceId, memberId: MemberId, managed: bool): Result<Snapshot> {
    var refusal := FlipRefusal(base.household.devices, deviceId, memberId, managed);
    if refusal.Some? then Failure(Refused(refusal.value))
    else if !HasDevice(base.household.devices, deviceId) then Failure(Refused(DeviceNotFound))
    else if base.generation >= MAX_GENERATION then Failure(Refused(GenerationExhausted))
    else Success(Replacement(base, base.household.(devices := WithManaged(base.household.devices, deviceId, managed))))
  }

  // ----- Jobs --------------------------------------------------------------------------

  datatype JobState = Preflight | Running | Verifying | Succeeded | Failed

  datatype JobAction =
    | StartAction | RetryAction | CancelAction
    | VerifyAction
    | DeenrollAction | ReconcileAction
    | CleanupVerifyAction | CleanupExecuteAction

  /** What a job was asked to do; together with the idempotency key this is the material of
      the request hash the store compares. */
  datatype Request =
    | StartRequest(plan: PlanId, retryOf: Option<JobId>)
    | CancelRequest(plan: PlanId, startJob: JobId)
    | VerifyRequest(verification: VerificationId)
    | DeenrollRequest(deenrollment: DeenrollmentId)
    | ReconcileRequest(deenrollment: DeenrollmentId)
    | CleanupVerifyRequest(cleanup: CleanupId)
    | CleanupExecuteRequest(cleanup: CleanupId)
  {
    function Action(): JobAction {
      match this
      case StartRequest(_, retryOf) => if retryOf.Some? then RetryAction else StartAction
      case CancelRequest(_, _) => CancelAction
      case VerifyRequest(_) => VerifyAction
      case DeenrollRequest(_) => DeenrollAction
      case ReconcileRequest(_) => ReconcileAction
      case CleanupVerifyRequest(_) => CleanupVerifyAction
      case CleanupExecuteRequest(_) => CleanupExecuteAction
    }
  }

  /** The parts of a job result that some later decision reads; `Noted` is any other result. */
  datatype JobResult =
    | StartFailed(retrySafe: bool)
    | ProviderAccepted(accepted: StartResult)
    | CancelAcknowledged(twoFields: bool)
    | Noted

  /** `operation` is what a cancel's preflight recorded, `artifactKind` what a cleanup's did. */
  datatype Job = Job(
    request: Request,
    actor: Actor,
    key: Key,
    operation: Option<OperationId>,
    state: JobState,
    result: Option<JobResult>,
    artifactKind: ArtifactKind := NoArtifact)
  {
    predicate IsStartOf(plan: PlanId) {
      request.StartRequest? && request.plan == plan
    }

    predicate IsCancelOf(plan: PlanId) {
      request.CancelRequest? && request.plan == plan
    }

    /** Failed, and the adapter proved that the provider had accepted no command. */
    predicate RetrySafe() {
      state == Failed && result == Some(StartFailed(true))
    }

    predicate SameKey(other: Job) {
      request.Action() == other.request.Action() && actor == other.actor && key == other.key
    }
  }

  // ----- Enrollment execution ----------------------------------------------------------

  datatype ArtifactKind = NoArtifact | Token | Qr

  datatype Artifact = Artifact(kind: ArtifactKind, reference: nat, expiresAt: Time)

  datatype StartResult = StartResult(operation: OperationId, artifact: Option<Artifact>)

  /** How `adapter.start` ends: with a value (None when it is not the closed result schema), or by raising. */
  datatype StartAnswer =
    | Answered(value: Option<StartResult>)
    | RaisedAdapterFailure(retrySafe: bool)
    | RaisedTimeout
    | RaisedOther

  datatype ExecutionPlan = ExecutionPlan(
    provider: ProviderId,
    device: DeviceId,
    member: MemberId,
    actorMember: MemberId,
    snapshot: Snapshot,
    timeoutSeconds: nat,
    artifact: ArtifactKind)

  datatype StartReceipt = StartReceipt(
    job: JobId,
    retryOf: Option<JobId>,
    plan: PlanId,
    provider: ProviderId,
    operation: OperationId,
    device: DeviceId,
    member: MemberId,
    artifact: Option<Artifact>)

  datatype CancelReceipt = CancelReceipt(job: JobId, startJob: JobId, plan: PlanId, provider: ProviderId, operation: OperationId)

  datatype ExecutionStatus = Planned | Accepted | CancelRequested

  datatype Execution = Execution(
    plan: ExecutionPlan,
    status: ExecutionStatus,
    receipt: Option<StartReceipt>,
    cancelReceipt: Option<CancelReceipt>)

  /** The adapter's answer to a start command sent at `now`, once validated against the plan. */
  function AcceptedStart(plan: ExecutionPlan, now: Time, answer: StartAnswer): Option<StartResult> {
    if !answer.Answered? || answer.value.None? then None
    else
      var artifact := answer.value.value.artifact;
      if plan.artifact == NoArtifact then
        (if artifact.None? then answer.value else None)
      else if artifact.None? || artifact.value.kind != plan.artifact then None
      else if now < artifact.value.expiresAt <= now + plan.timeoutSeconds then answer.value
      else None
  }

  function ReceiptOf(id: PlanId, plan: ExecutionPlan, jobId: JobId, retryOf: Option<JobId>, result: StartResult): StartReceipt {
    StartReceipt(jobId, retryOf, id, plan.provider, result.operation, plan.device, plan.member, result.artifact)
  }

  /** How a provider adapter's `read_back` ends. */
  datatype ReadAnswer<T> = ReadResult(result: T) | MalformedResult | ReadRaised

  /** The greatest age of a read-back, in seconds, that a plan may ask for. */
  const MAX_AGE: int := 3600

  // ----- Post-condition verification ----------------------------------------------------

  datatype Signal = Present | Absent | NotApplicable | UnknownSignal

  datatype Signals = Signals(certificate: Signal, profile: Signal, agent: Signal)

  datatype PostBinding = PostBinding(
    plan: PlanId, provider: ProviderId, operation: OperationId, device: DeviceId, member: MemberId, generation: nat)

  datatype PostRequest = PostRequest(binding: PostBinding, maxAge: int, expected: Signals)

  datatype PostStatus = PostVerified | PostNotVerified | PostAmbiguous | PostNotEnrolled | PostStale

  datatype PostResult = PostResult(binding: PostBinding, observedAt: Time, status: PostStatus, signals: Signals)

  datatype Reason =
    | BindingMismatchReason | FutureObservation | StaleObservation | AmbiguousReason | NotEnrolledReason
    | SignalMismatch | StillManaged | UnknownState

  function PostFailure(request: PostRequest, result: PostResult, now: Time): Option<Reason> {
    if request.binding != result.binding then Some(BindingMismatchReason)
    else if result.observedAt > now then Some(FutureObservation)
    else if now - result.observedAt > request.maxAge then Some(StaleObservation)
    else if result.status == PostAmbiguous then Some(AmbiguousReason)
    else if result.status == PostNotEnrolled then Some(NotEnrolledReason)
    else if result.status == PostStale then Some(StaleObservation)
    else if result.status != PostVerified then Some(SignalMismatch)
    else if request.expected != result.signals then Some(SignalMismatch)
    else None
  }

  /** `checkedAt` is the time the runtime read when it judged the read-back. */
  datatype CheckReceipt = CheckReceipt(job: JobId, failure: Option<Reason>, checkedAt: Time)

  datatype VerificationStatus =
    | VPlanned | VRunning | VReadbackFailed | VCheckFailed | VVerified | VRejected | VPendingApply | VApplied

  datatype Verification = Verification(
    actorMember: MemberId,
    request: PostRequest,
    executionReceipt: StartReceipt,
    base: Snapshot,
    bindings: seq<ActorBinding>,
    status: VerificationStatus,
    job: Option<JobId>,
    readback: Option<PostResult>,
    receipt: Option<CheckReceipt>,
    expected: Option<Snapshot>)

  // ----- De-enrollment and cleanup ------------------------------------------------------

  datatype ProviderState = ProviderManaged | ProviderUnmanaged | ProviderAbsent | ProviderUnknown | ProviderAmbiguous

  datatype ReadbackResult = ReadbackResult(
    plan: nat, provider: ProviderId, operation: OperationId, device: DeviceId, member: MemberId,
    observedAt: Time, state: ProviderState)

  /** What a de-enrollment or cleanup plan binds its read-back to. */
  datatype Target = Target(provider: ProviderId, operation: OperationId, device: DeviceId, member: MemberId)

  function TargetOf(e: Verification): Target {
    var binding := e.request.binding;
    Target(binding.provider, binding.operation, binding.device, binding.member)
  }

  function TargetRefusal(state: HouseholdState, target: Target, managed: bool): Option<Code> {
    DeviceRefusal(state.snapshot.household.devices, target.device, target.member, managed)
  }

  predicate BoundTo(result: ReadbackResult, plan: nat, target: Target) {
    result.plan == plan && Target(result.provider, result.operation, result.device, result.member) == target
  }

  predicate FreshAt(result: ReadbackResult, maxAge: int, now: Time) {
    result.observedAt <= now && now - result.observedAt <= maxAge
  }

  function DeenrollFailure(plan: nat, target: Target, maxAge: int, result: ReadbackResult, now: Time): Option<Reason> {
    if !BoundTo(result, plan, target) then Some(BindingMismatchReason)
    else if result.observedAt > now then Some(FutureObservation)
    else if now - result.observedAt > maxAge then Some(StaleObservation)
    else match result.state
      case ProviderManaged => Some(StillManaged)
      case ProviderUnknown => Some(UnknownState)
      case ProviderAmbiguous => Some(AmbiguousReason)
      case ProviderUnmanaged => None
      case ProviderAbsent => None
  }

  datatype MutationAnswer = MutationAccepted | MutationRejected | MutationAmbiguous | MutationMalformed | MutationRaised

  datatype DeenrollmentStatus =
    | DPlanned | DConfirmed | DProviderRunning | DProviderRejected | DVerifying | DReconcileRequired
    | DPendingApply | DApplied

  datatype Deenrollment = Deenrollment(
    verification: VerificationId,
    target: Target,
    actorMember: MemberId,
    requestedAt: Time,
    maxAge: int,
    base: Snapshot,
    bindings: seq<ActorBinding>,
    status: DeenrollmentStatus,
    confirmedAt: Option<Time>,
    job: Option<JobId>,
    readback: Option<ReadbackResult>,
    receipt: Option<CheckReceipt>,
    expected: Option<Snapshot>)

  datatype CleanupStatus = CPlanned | CCheckFailed | CAuthorized | CBlocked

  datatype CleanupReceipt = CleanupReceipt(job: JobId, kind: ArtifactKind)

  datatype Cleanup = Cleanup(
    verification: VerificationId,
    enrollment: PlanId,
    target: Target,
    actorMember: MemberId,
    maxAge: int,
    base: Snapshot,
    bindings: seq<ActorBinding>,
    rejected: CheckReceipt,
    status: CleanupStatus,
    readback: Option<ReadbackResult>,
    completed: Option<CleanupReceipt>)

  predicate CleanupAuthorized(id: CleanupId, record: Cleanup, result: ReadbackResult, now: Time) {
    && BoundTo(result, id, record.target)
    && FreshAt(result, record.maxAge, now)
    && (result.state == ProviderUnmanaged || result.state == ProviderAbsent)
  }
}
