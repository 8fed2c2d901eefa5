/**
  The lifecycle as a state machine over durable states.

  An action is one effect that survives a crash: a store write, or a command that has left for
  the provider.  `Enabled` says which effects the runtimes may make in a durable state, `Apply`
  what an effect does, and a run is a sequence of actions.  Nothing else is remembered between
  two effects, so an operation that dies anywhere and a restarted process are runs as well.

  `Db.log` is the history of all effects: the provider's side of the story, which no runtime reads.
 */
module Protocol {
  import opened Wrappers
  import opened Records

  datatype Source = ByVerification(v: VerificationId) | ByDeenrollment(d: DeenrollmentId) | ByOther

  datatype Scope = VerificationScope(v: VerificationId) | DeenrollmentScope(d: DeenrollmentId)

  datatype Action =
    | CreateJob(job: Job)
    | MoveJob(id: JobId, to: JobState, result: Option<JobResult>)
    | PutExecution(plan: PlanId, execution: Execution)
    | PutVerification(verification: VerificationId, vrecord: Verification)
    | PutDeenrollment(deenrollment: DeenrollmentId, drecord: Deenrollment)
    | PutCleanup(cleanup: CleanupId, crecord: Cleanup)
    | PutHousehold(source: Source, household: HouseholdState)
    | ScrubArtifact(cleanupId: CleanupId, now: Time)
    | CallStart(startJob: JobId, sentAt: Time, answer: StartAnswer)
    | CallCancel(cancelJob: JobId, operation: OperationId)
    | CallReadBack(verified: VerificationId, readJob: JobId)
    | CallDeenroll(deenrolled: DeenrollmentId, deenrollJob: JobId)
    | ConsumeStepUp(scope: Scope)

  datatype Db = Db(
    household: HouseholdState,
    executions: map<PlanId, Execution>,
    verifications: map<VerificationId, Verification>,
    deenrollments: map<DeenrollmentId, Deenrollment>,
    cleanups: map<CleanupId, Cleanup>,
    jobs: seq<Job>,
    log: seq<Action>)

  // ----- effects ------------------------------------------------------------------------

  predicate Edge(from: JobState, to: JobState) {
    || (from == Preflight && (to == Running || to == Failed))
    || (from == Running && (to == Verifying || to == Failed))
    || (from == Verifying && (to == Succeeded || to == Failed))
  }

  function Moved(job: Job, to: JobState, result: Option<JobResult>): Job {
    job.(state := to, result := if result.Some? then result else job.result)
  }

  function WithoutArtifact(job: Job): Job {
    if job.result.Some? && job.result.value.ProviderAccepted?
    then job.(result := Some(ProviderAccepted(job.result.value.accepted.(artifact := None))))
    else job
  }

  predicate ScrubTargets(db: Db, c: CleanupId) {
    && c in db.cleanups
    && db.cleanups[c].enrollment in db.executions
    && db.cleanups[c].verification in db.verifications
    && db.executions[db.cleanups[c].enrollment].receipt.Some?
    && db.executions[db.cleanups[c].enrollment].receipt.value.job < |db.jobs|
  }

  /** The one transaction that removes the one-time reference from its three stored copies. */
  function Scrubbed(db: Db, c: CleanupId): Db
    requires ScrubTargets(db, c)
  {
    var p, v := db.cleanups[c].enrollment, db.cleanups[c].verification;
    var execution, verification := db.executions[p], db.verifications[v];
    var receipt := execution.receipt.value;
    db.(executions := db.executions[p := execution.(receipt := Some(receipt.(artifact := None)))],
        verifications := db.verifications[v :=
          verification.(executionReceipt := verification.executionReceipt.(artifact := None))],
        jobs := db.jobs[receipt.job := WithoutArtifact(db.jobs[receipt.job])])
  }

  function Effect(db: Db, a: Action): Db {
    match a
    case CreateJob(job) => db.(jobs := db.jobs + [job])
    case MoveJob(id, to, result) =>
      if id < |db.jobs| then db.(jobs := db.jobs[id := Moved(db.jobs[id], to, result)]) else db
    case PutExecution(p, e) => db.(executions := db.executions[p := e])
    case PutVerification(v, e) => db.(verifications := db.verifications[v := e])
    case PutDeenrollment(d, e) => db.(deenrollments := db.deenrollments[d := e])
    case PutCleanup(c, e) => db.(cleanups := db.cleanups[c := e])
    case PutHousehold(_, state) => db.(household := state)
    case ScrubArtifact(c, _) => if ScrubTargets(db, c) then Scrubbed(db, c) else db
    case CallStart(_, _, _) => db
    case CallCancel(_, _) => db
    case CallReadBack(_, _) => db
    case CallDeenroll(_, _) => db
    case ConsumeStepUp(_) => db
  }

  function Apply(db: Db, a: Action): Db {
    Effect(db, a).(log := db.log + [a])
  }

  // ----- jobs ---------------------------------------------------------------------------

  predicate Called(log: seq<Action>, j: JobId) {
    exists i :: 0 <= i < |log| && log[i].CallStart? && log[i].startJob == j
  }

  predicate CancelCalled(log: seq<Action>, j: JobId) {
    exists i :: 0 <= i < |log| && log[i].CallCancel? && log[i].cancelJob == j
  }

  predicate JobFor(db: Db, j: JobId, request: Request, state: JobState) {
    j < |db.jobs| && db.jobs[j].request == request && db.jobs[j].state == state
  }

  predicate FirstOfPlan(jobs: seq<Job>, p: PlanId) {
    forall i :: 0 <= i < |jobs| ==> !jobs[i].IsStartOf(p)
  }

  predicate OnlyRetrySafe(jobs: seq<Job>, p: PlanId) {
    forall i :: 0 <= i < |jobs| && jobs[i].IsStartOf(p) ==> jobs[i].RetrySafe()
  }

  predicate NoCancelOf(jobs: seq<Job>, p: PlanId) {
    forall i :: 0 <= i < |jobs| ==> !jobs[i].IsCancelOf(p)
  }

  predicate KeyUnused(jobs: seq<Job>, job: Job) {
    forall i :: 0 <= i < |jobs| ==> !jobs[i].SameKey(job)
  }

  predicate CreateAllowed(db: Db, job: Job) {
    match job.request
    case StartRequest(p, retryOf) =>
      && p in db.executions && db.executions[p].receipt.None? && job.operation.None?
      && OnlyRetrySafe(db.jobs, p)
      && (retryOf.None? ==> FirstOfPlan(db.jobs, p))
      && (retryOf.Some? ==> retryOf.value < |db.jobs| && db.jobs[retryOf.value].IsStartOf(p))
    case CancelRequest(p, s) =>
      && p in db.executions && db.executions[p].receipt.Some?
      && db.executions[p].receipt.value.job == s
      && job.operation == Some(db.executions[p].receipt.value.operation)
      && NoCancelOf(db.jobs, p)
    case VerifyRequest(v) => v in db.verifications
    case DeenrollRequest(d) => d in db.deenrollments && db.deenrollments[d].status == DConfirmed
    case ReconcileRequest(d) => d in db.deenrollments && db.deenrollments[d].status == DReconcileRequired
    case CleanupVerifyRequest(c) => c in db.cleanups
    case CleanupExecuteRequest(c) => c in db.cleanups && db.cleanups[c].status == CAuthorized
  }

  /** The provider accepted the start command of job `j`, and `result` is its validated answer. */
  predicate AcceptedCall(log: seq<Action>, j: JobId, plan: ExecutionPlan, result: StartResult) {
    exists i :: 0 <= i < |log| && log[i].CallStart? && log[i].startJob == j
      && AcceptedStart(plan, log[i].sentAt, log[i].answer) == Some(result)
  }

  predicate DeclaredSafe(log: seq<Action>, j: JobId) {
    exists i :: 0 <= i < |log| && log[i].CallStart? && log[i].startJob == j
      && log[i].answer == RaisedAdapterFailure(true)
  }

  /** The stored expectation of `v` is pending, with all that its apply needs. */
  predicate Recoverable(db: Db, v: VerificationId) {
    && v in db.verifications
    && db.verifications[v].status == VPendingApply
    && db.verifications[v].expected.Some? && db.verifications[v].receipt.Some?
    && db.verifications[v].job.Some? && db.verifications[v].job.value < |db.jobs|
  }

  /** The stored expectation of `v` can still be applied: the actor bindings are those of the plan, and
      the Household is the base or already the expected one. */
  predicate Convergent(db: Db, v: VerificationId) {
    && Recoverable(db, v)
    && var e := db.verifications[v];
    && db.household.bindings == e.bindings
    && (db.household.snapshot == e.base || e.expected == Some(db.household.snapshot))
  }

  predicate MoveAllowed(db: Db, j: JobId, to: JobState, result: Option<JobResult>)
    requires j < |db.jobs|
  {
    var job := db.jobs[j];
    match job.request
    case StartRequest(p, _) =>
      && p in db.executions
      && (to == Running || to == Succeeded ==> result.None?)
      && (to == Failed ==>
            job.state == Running && result.Some? && result.value.StartFailed?
            && (result.value.retrySafe <==> DeclaredSafe(db.log, j)))
      && (to == Verifying ==>
            result.Some? && result.value.ProviderAccepted?
            && AcceptedCall(db.log, j, db.executions[p].plan, result.value.accepted))
    case CancelRequest(_, _) => true
    case VerifyRequest(v) => to == Failed ==> !Convergent(db, v) || db.verifications[v].job != Some(j)
    case DeenrollRequest(_) => true
    case ReconcileRequest(_) => true
    case CleanupVerifyRequest(_) => true
    case CleanupExecuteRequest(_) => true
  }

  // ----- enrollment execution -----------------------------------------------------------

  predicate StartSucceeded(job: Job, p: PlanId) {
    job.IsStartOf(p) && job.state == Succeeded && job.result.Some? && job.result.value.ProviderAccepted?
  }

  function ReceiptOfJob(p: PlanId, plan: ExecutionPlan, j: JobId, job: Job): StartReceipt
    requires StartSucceeded(job, p)
  {
    ReceiptOf(p, plan, j, job.request.retryOf, job.result.value.accepted)
  }

  predicate StoresReceipt(db: Db, p: PlanId, was: Execution, e: Execution) {
    && was.receipt.None? && was.cancelReceipt.None? && e.receipt.Some?
    && var j := e.receipt.value.job;
    && j < |db.jobs| && StartSucceeded(db.jobs[j], p)
    && e == was.(status := Accepted, receipt := Some(ReceiptOfJob(p, was.plan, j, db.jobs[j])))
  }

  predicate StoresCancel(db: Db, p: PlanId, was: Execution, e: Execution) {
    && was.receipt.Some? && was.cancelReceipt.None? && e.cancelReceipt.Some?
    && var c := e.cancelReceipt.value;
    && JobFor(db, c.job, CancelRequest(p, c.startJob), Succeeded)
    && c.startJob == was.receipt.value.job && c.operation == was.receipt.value.operation
    && c.plan == p && c.provider == was.plan.provider
    && e == was.(status := CancelRequested, cancelReceipt := e.cancelReceipt)
  }

  predicate ExecutionAllowed(db: Db, p: PlanId, e: Execution) {
    if p !in db.executions then e.status == Planned && e.receipt.None? && e.cancelReceipt.None?
    else StoresReceipt(db, p, db.executions[p], e) || StoresCancel(db, p, db.executions[p], e)
  }

  /** The execution may still be verified: the provider accepted it and no cancellation was requested. */
  predicate Verifiable(db: Db, p: PlanId) {
    && p in db.executions
    && db.executions[p].status == Accepted
    && db.executions[p].receipt.Some?
    && db.executions[p].cancelReceipt.None?
  }

  // ----- post-condition verification ----------------------------------------------------

  predicate PlansVerification(db: Db, e: Verification) {
    var p := e.request.binding.plan;
    && Verifiable(db, p)
    && var execution := db.executions[p];
    && var receipt := execution.receipt.value;
    && e == Verification(
              execution.plan.actorMember,
              PostRequest(
                PostBinding(p, execution.plan.provider, receipt.operation, execution.plan.device,
                            execution.plan.member, execution.plan.snapshot.generation),
                e.request.maxAge, e.request.expected),
              receipt, db.household.snapshot, db.household.bindings,
              VPlanned, None, None, None, None)
    && execution.plan.snapshot == e.base
  }

  predicate VerdictPassed(e: Verification) {
    && e.receipt.Some? && e.readback.Some?
    && e.receipt.value.failure.None?
    && e.job == Some(e.receipt.value.job)
    && PostFailure(e.request, e.readback.value, e.receipt.value.checkedAt).None?
  }

  predicate VerificationMoves(db: Db, v: VerificationId, was: Verification, e: Verification) {
    match e.status
    case VPlanned => false
    case VRunning =>
      was.status != VApplied && e.job.Some? && JobFor(db, e.job.value, VerifyRequest(v), Preflight)
      && e == was.(status := VRunning, job := e.job)
    case VReadbackFailed => was.status == VRunning && e == was.(status := VReadbackFailed)
    case VCheckFailed => was.status == VRunning && e == was.(status := VCheckFailed, readback := e.readback)
    case VVerified =>
      was.status == VRunning && VerdictPassed(e)
      && e == was.(status := VVerified, readback := e.readback, receipt := e.receipt)
    case VRejected =>
      was.status == VRunning && e.receipt.Some? && e.readback.Some?
      && e.receipt.value.failure.Some?
      && e.receipt.value.failure == PostFailure(e.request, e.readback.value, e.receipt.value.checkedAt)
      && e == was.(status := VRejected, readback := e.readback, receipt := e.receipt)
    case VPendingApply =>
      was.status == VVerified && e.expected.Some?
      && was.job.Some? && JobFor(db, was.job.value, VerifyRequest(v), Verifying)
      && FlippedSnapshot(was.base, was.request.binding.device, was.request.binding.member, true) == Success(e.expected.value)
      && e == was.(status := VPendingApply, expected := e.expected)
    case VApplied =>
      was.status == VPendingApply && was.expected == Some(db.household.snapshot) && was.job.Some?
      && JobFor(db, was.job.value, VerifyRequest(v), Succeeded)
      && e == was.(status := VApplied)
  }

  predicate VerificationAllowed(db: Db, v: VerificationId, e: Verification) {
    if v !in db.verifications then PlansVerification(db, e)
    else VerificationMoves(db, v, db.verifications[v], e)
  }

  // ----- de-enrollment ------------------------------------------------------------------

  function Grants(log: seq<Action>, d: DeenrollmentId): nat {
    if log == [] then 0
    else Grants(log[..|log| - 1], d) + if log[|log| - 1] == ConsumeStepUp(DeenrollmentScope(d)) then 1 else 0
  }

  predicate IsConfirmation(a: Action, d: DeenrollmentId) {
    a.PutDeenrollment? && a.deenrollment == d && a.drecord.status == DConfirmed
  }

  function Confirmations(log: seq<Action>, d: DeenrollmentId): nat {
    if log == [] then 0
    else Confirmations(log[..|log| - 1], d) + if IsConfirmation(log[|log| - 1], d) then 1 else 0
  }

  predicate IsMutation(a: Action, d: DeenrollmentId) {
    a.CallDeenroll? && a.deenrolled == d
  }

  function Mutations(log: seq<Action>, d: DeenrollmentId): nat {
    if log == [] then 0
    else Mutations(log[..|log| - 1], d) + if IsMutation(log[|log| - 1], d) then 1 else 0
  }

  predicate PlansDeenrollment(db: Db, e: Deenrollment) {
    && e.verification in db.verifications
    && var verification := db.verifications[e.verification];
    && verification.status == VApplied
    && e == Deenrollment(e.verification, TargetOf(verification), e.actorMember, e.requestedAt, e.maxAge, db.household.snapshot, db.household.bindings,
                         DPlanned, None, None, None, None, None)
  }

  predicate Judged(d: DeenrollmentId, e: Deenrollment) {
    && e.receipt.Some? && e.readback.Some?
    && e.receipt.value.failure == DeenrollFailure(d, e.target, e.maxAge, e.readback.value, e.receipt.value.checkedAt)
  }

  /** A verified receipt of the attempt that `job` names. */
  predicate DeenrollVerified(d: DeenrollmentId, e: Deenrollment) {
    Judged(d, e) && e.receipt.value.failure.None? && e.job == Some(e.receipt.value.job)
  }

  predicate DeenrollmentMoves(db: Db, d: DeenrollmentId, was: Deenrollment, e: Deenrollment) {
    match e.status
    case DPlanned => false
    case DConfirmed =>
      && db.household.snapshot == was.base
      && Confirmations(db.log, d) < Grants(db.log, d)
      && e.confirmedAt.Some? && was.requestedAt <= e.confirmedAt.value
      && e == was.(status := DConfirmed, confirmedAt := e.confirmedAt)
    case DProviderRunning =>
      && was.status == DConfirmed && e.job.Some?
      && JobFor(db, e.job.value, DeenrollRequest(d), Running)
      && CallDeenroll(d, e.job.value) !in db.log
      && e == was.(status := DProviderRunning, job := e.job)
    case DProviderRejected => was.status == DProviderRunning && e == was.(status := DProviderRejected)
    case DVerifying =>
      || (was.status == DProviderRunning && e == was.(status := DVerifying))
      || (was.status == DVerifying && DeenrollVerified(d, e) && e == was.(readback := e.readback, receipt := e.receipt))
    case DReconcileRequired =>
      || ((was.status == DProviderRunning || was.status == DVerifying) && e == was.(status := DReconcileRequired))
      || ((was.status == DVerifying || was.status == DReconcileRequired)
          && Judged(d, e) && e.receipt.value.failure.Some?
          && e == was.(status := DReconcileRequired, readback := e.readback, receipt := e.receipt))
    case DPendingApply =>
      || (was.status == DReconcileRequired && DeenrollVerified(d, e)
          && JobFor(db, e.job.value, ReconcileRequest(d), Verifying)
          && e == was.(status := DPendingApply, readback := e.readback, receipt := e.receipt, job := e.job))
      || ((was.status == DVerifying || was.status == DPendingApply) && DeenrollVerified(d, was)
          && was.expected.None? && e.expected.Some?
          && FlippedSnapshot(was.base, was.target.device, was.target.member, false) == Success(e.expected.value)
          && e == was.(status := DPendingApply, expected := e.expected))
    case DApplied =>
      && (was.status == DVerifying || was.status == DPendingApply) && DeenrollVerified(d, was)
      && was.expected == Some(db.household.snapshot)
      && was.job.value < |db.jobs| && db.jobs[was.job.value].state == Succeeded
      && e == was.(status := DApplied)
  }

  predicate DeenrollmentAllowed(db: Db, d: DeenrollmentId, e: Deenrollment) {
    if d !in db.deenrollments then PlansDeenrollment(db, e)
    else DeenrollmentMoves(db, d, db.deenrollments[d], e)
  }

  // ----- cleanup of a failed enrollment ---------------------------------------------------

  /** The three stored copies of the start receipt's one-time artifact. */
  predicate ThreeCopies(db: Db, v: VerificationId) {
    && v in db.verifications
    && db.verifications[v].request.binding.plan in db.executions
    && db.executions[db.verifications[v].request.binding.plan].receipt.Some?
    && var j := db.executions[db.verifications[v].request.binding.plan].receipt.value.job;
    && j < |db.jobs| && StartSucceeded(db.jobs[j], db.verifications[v].request.binding.plan)
  }

  predicate CleanupBound(db: Db, e: Cleanup) {
    && ThreeCopies(db, e.verification)
    && var verification := db.verifications[e.verification];
    && e.enrollment == verification.request.binding.plan
    && e.target == TargetOf(verification)
    && verification.status == VRejected
    && verification.receipt == Some(e.rejected)
    && e.rejected.failure.Some?
  }

  ghost predicate CleanupAllowed(db: Db, c: CleanupId, e: Cleanup) {
    if c !in db.cleanups then
      && CleanupBound(db, e)
      && e.base == db.household.snapshot && e.bindings == db.household.bindings
      && e.status == CPlanned && e.readback.None? && e.completed.None?
    else
      var was := db.cleanups[c];
      || (was.completed.None? && was.status != CAuthorized && e == was.(status := CCheckFailed))
      || (was.completed.None? && was.status != CAuthorized && e.readback.Some?
          && (e.status == CAuthorized ==> exists now :: CleanupAuthorized(c, was, e.readback.value, now))
          && e == was.(status := if e.status == CAuthorized then CAuthorized else CBlocked, readback := e.readback))
      || (was.status == CAuthorized && e.completed.Some? && CopiesScrubbed(db, was.verification)
          && e == was.(completed := e.completed))
  }

  predicate CopiesScrubbed(db: Db, v: VerificationId) {
    && ThreeCopies(db, v)
    && var receipt := db.executions[db.verifications[v].request.binding.plan].receipt.value;
    && receipt.artifact.None?
    && db.verifications[v].executionReceipt.artifact.None?
    && db.jobs[receipt.job].result.value.accepted.artifact.None?
  }

  predicate SameArtifact(a: Option<Artifact>, b: Option<Artifact>) {
    a.Some? && b.Some? && a.value.kind == b.value.kind && a.value.reference == b.value.reference
  }

  /** All three copies hold one and the same one-time reference. */
  predicate ReferencePresent(db: Db, v: VerificationId) {
    && ThreeCopies(db, v)
    && var receipt := db.executions[db.verifications[v].request.binding.plan].receipt.value;
    && SameArtifact(receipt.artifact, db.verifications[v].executionReceipt.artifact)
    && SameArtifact(receipt.artifact, db.jobs[receipt.job].result.value.accepted.artifact)
  }

  predicate ScrubAllowed(db: Db, c: CleanupId, now: Time) {
    && ScrubTargets(db, c)
    && var record := db.cleanups[c];
    && record.status == CAuthorized && record.completed.None? && record.readback.Some?
    && CleanupAuthorized(c, record, record.readback.value, now)
    && db.household.snapshot == record.base
    && CleanupBound(db, record)
    && db.executions[record.enrollment].status == Accepted
    && ReferencePresent(db, record.verification)
  }

  // ----- household ----------------------------------------------------------------------

  /** Another Household writer keeps the flag of every device it keeps, and registers new ones
      unmanaged.  Every writer stores the actor bindings it has read. */
  predicate KeepsManaged(was: seq<Device>, kept: seq<Device>) {
    forall i :: 0 <= i < |kept| ==>
      && (HasDevice(was, kept[i].deviceId) ==>
            exists k :: 0 <= k < |was| && was[k].deviceId == kept[i].deviceId && was[k].managed == kept[i].managed)
      && (!HasDevice(was, kept[i].deviceId) ==> !kept[i].managed)
  }

  predicate HouseholdAllowed(db: Db, source: Source, state: HouseholdState) {
    match source
    case ByVerification(v) =>
      && v in db.verifications
      && var e := db.verifications[v];
      && e.status == VPendingApply && e.base == db.household.snapshot
      && e.expected == Some(state.snapshot) && state.bindings == db.household.bindings
    case ByDeenrollment(d) =>
      && d in db.deenrollments
      && var e := db.deenrollments[d];
      && (e.status == DPendingApply || e.status == DVerifying) && DeenrollVerified(d, e)
      && e.base == db.household.snapshot
      && e.expected == Some(state.snapshot) && state.bindings == db.household.bindings
    case ByOther =>
      && state.bindings == db.household.bindings
      && (|| state.snapshot == db.household.snapshot
          || (state.snapshot == Replacement(db.household.snapshot, state.snapshot.household)
              && KeepsManaged(db.household.snapshot.household.devices, state.snapshot.household.devices)))
  }

  // ----- the protocol -------------------------------------------------------------------

  ghost predicate Enabled(db: Db, a: Action) {
    match a
    case CreateJob(job) =>
      job.state == Preflight && job.result.None? && KeyUnused(db.jobs, job) && CreateAllowed(db, job)
    case MoveJob(id, to, result) =>
      id < |db.jobs| && Edge(db.jobs[id].state, to) && MoveAllowed(db, id, to, result)
    case PutExecution(p, e) => ExecutionAllowed(db, p, e)
    case PutVerification(v, e) => VerificationAllowed(db, v, e)
    case PutDeenrollment(d, e) => DeenrollmentAllowed(db, d, e)
    case PutCleanup(c, e) => CleanupAllowed(db, c, e)
    case PutHousehold(source, state) => HouseholdAllowed(db, source, state)
    case ScrubArtifact(c, now) => ScrubAllowed(db, c, now)
    case CallStart(j, _, _) =>
      && j < |db.jobs| && db.jobs[j].state == Running && db.jobs[j].request.StartRequest?
      && !Called(db.log, j)
    case CallCancel(j, operation) =>
      && j < |db.jobs| && db.jobs[j].state == Running && db.jobs[j].request.CancelRequest?
      && db.jobs[j].operation == Some(operation)
      && !CancelCalled(db.log, j)
    case CallReadBack(v, j) =>
      && v in db.verifications && db.verifications[v].status == VRunning && db.verifications[v].job == Some(j)
      && Verifiable(db, db.verifications[v].request.binding.plan)
    case CallDeenroll(d, j) =>
      && d in db.deenrollments && db.deenrollments[d].status == DProviderRunning
      && db.deenrollments[d].job == Some(j) && CallDeenroll(d, j) !in db.log
    case ConsumeStepUp(_) => true
  }

  /** A freshly bootstrapped Household and nothing else. */
  predicate Initial(db: Db) {
    && db.executions == map[] && db.verifications == map[] && db.deenrollments == map[] && db.cleanups == map[]
    && db.jobs == [] && db.log == []
  }

  /** The state after a sequence of actions. */
  function Fold(init: Db, actions: seq<Action>): Db {
    if actions == [] then init
    else Apply(Fold(init, actions[..|actions| - 1]), actions[|actions| - 1])
  }

  /** Every action is enabled in the state in which it happens. */
  ghost predicate Legal(init: Db, actions: seq<Action>) {
    actions == [] ||
    (Legal(init, actions[..|actions| - 1])
     && Enabled(Fold(init, actions[..|actions| - 1]), actions[|actions| - 1]))
  }

  ghost predicate Run(init: Db, db: Db) {
    Initial(init) && Legal(init, db.log) && db == Fold(init, db.log)
  }

  lemma RunExtends(init: Db, db: Db, a: Action)
    requires Run(init, db) && Enabled(db, a)
    ensures Run(init, Apply(db, a))
  {
    var log := Apply(db, a).log;
    assert log[..|log| - 1] == db.log;
  }

  lemma {:induction false} LegalPrefix(init: Db, actions: seq<Action>, n: nat)
    requires Legal(init, actions) && n <= |actions|
    ensures Legal(init, actions[..n])
    ensures n < |actions| ==> Enabled(Fold(init, actions[..n]), actions[n])
    ensures n < |actions| ==> Fold(init, actions[..n + 1]) == Apply(Fold(init, actions[..n]), actions[n])
  {
    if n < |actions| {
      var before := actions[..|actions| - 1];
      if n < |before| {
        LegalPrefix(init, before, n);
        assert actions[..n] == before[..n] && actions[..n + 1] == before[..n + 1];
      } else {
        assert actions[..n] == before;
        assert actions[..n + 1] == actions;
      }
    } else {
      assert actions[..n] == actions;
    }
  }

  lemma Logged(db: Db, a: Action)
    ensures Apply(db, a).log == db.log + [a]
  {
    hide Effect;
  }

  lemma {:induction false} LogIsHistory(init: Db, actions: seq<Action>)
    requires init.log == []
    ensures Fold(init, actions).log == actions
  {
    hide Apply;
    if actions != [] {
      var before, last := actions[..|actions| - 1], actions[|actions| - 1];
      LogIsHistory(init, before);
      Logged(Fold(init, before), last);
      assert actions == before + [last];
    }
  }

  lemma {:induction false} FoldAppend(init: Db, first: seq<Action>, rest: seq<Action>)
    ensures Fold(init, first + rest) == Fold(Fold(init, first), rest)
  {
    hide Apply;
    if rest == [] {
      assert first + rest == first;
    } else {
      FoldAppend(init, first, rest[..|rest| - 1]);
      assert (first + rest)[..|first + rest| - 1] == first + rest[..|rest| - 1];
    }
  }

  lemma FoldNothing(db: Db)
    ensures Fold(db, []) == db
  {
  }

  lemma FoldSnoc(db: Db, effects: seq<Action>, a: Action)
    ensures Fold(db, effects + [a]) == Apply(Fold(db, effects), a)
  {
    hide Apply;
    assert (effects + [a])[..|effects|] == effects;
  }

  lemma FoldLast(db: Db, effects: seq<Action>, k: nat)
    requires 1 <= k <= |effects|
    ensures Fold(db, effects[..k]) == Apply(Fold(db, effects[..k - 1]), effects[k - 1])
  {
    hide Apply;
    assert effects[..k][..k - 1] == effects[..k - 1];
  }

  lemma FoldOne(db: Db, a: Action)
    ensures Fold(db, [a]) == Apply(db, a)
  {
    hide Apply;
    FoldNothing(db);
    assert [a][..0] == [];
  }

  lemma FoldFirst(db: Db, effects: seq<Action>)
    requires effects != []
    ensures Fold(db, effects) == Fold(Apply(db, effects[0]), effects[1..])
  {
    hide Fold, Apply;
    assert effects == [effects[0]] + effects[1..];
    FoldAppend(db, [effects[0]], effects[1..]);
    FoldOne(db, effects[0]);
  }

  /** What a run has become after these further actions. */
  lemma RunState(init: Db, before: Db, after: Db, effects: seq<Action>)
    requires Run(init, before) && Run(init, after) && after.log == before.log + effects
    ensures after == Fold(before, effects)
  {
    hide Legal, Fold;
    FoldAppend(init, before.log, effects);
  }

  lemma LastStep(init: Db, actions: seq<Action>)
    requires Legal(init, actions) && actions != []
    ensures Legal(init, actions[..|actions| - 1])
    ensures Enabled(Fold(init, actions[..|actions| - 1]), actions[|actions| - 1])
    ensures Fold(init, actions) == Apply(Fold(init, actions[..|actions| - 1]), actions[|actions| - 1])
  {
    hide Enabled, Apply;
  }

  /** A job's request, owner and recorded operation never change. */
  lemma JobsKept(db: Db, a: Action, j: JobId)
    requires j < |db.jobs|
    ensures j < |Apply(db, a).jobs|
    ensures Apply(db, a).jobs[j].request == db.jobs[j].request
    ensures Apply(db, a).jobs[j].operation == db.jobs[j].operation
    ensures Apply(db, a).jobs[j].actor == db.jobs[j].actor && Apply(db, a).jobs[j].key == db.jobs[j].key
  {
  }
}
