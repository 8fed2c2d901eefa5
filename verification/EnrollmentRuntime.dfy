/**
  Enrollment execution: start, retry and cancel, each with its guard over the job history and its
  recovery after a crash.

  For each operation a script says, as a function of the stored state and the request, which
  effects the operation makes and how it ends; the method beside it performs them one by one and
  may die between any two.
 */
module EnrollmentRuntime {
  import opened Wrappers
  import opened Records
  import opened Protocol
  import opened DurableStore
  import opened Scripts
  import Safety = EnrollmentSafety

  /** What the caller sends; a key of None is one that is not a well-formed idempotency key. */
  datatype StartForm = StartForm(wellFormed: bool, plan: PlanId, key: Option<Key>)
  datatype RetryForm = RetryForm(wellFormed: bool, plan: PlanId, failedJob: JobId, key: Option<Key>)
  datatype CancelForm = CancelForm(wellFormed: bool, plan: PlanId, startJob: JobId, key: Option<Key>)

  /** What the runtime meets outside the store.  `upstreamCurrent`: the confirmed enrollment, the
      provider selection and the catalog still yield the stored plan.  `now` is None when the
      trusted clock cannot be read.  `cancelAcknowledged`: the adapter's cancel did not raise and, where the
      base operation checks it, returned the closed result for this operation. */
  datatype Surroundings = Surroundings(
    adapters: set<ProviderId>,
    upstreamCurrent: bool,
    now: Option<Time>,
    startAnswer: StartAnswer,
    cancelAcknowledged: bool)

  // ----- what the operations read ---------------------------------------------------------

  /** The start and retry jobs of a plan, newest first. */
  function StartJobs(jobs: seq<Job>, p: PlanId): (r: seq<JobId>)
    ensures forall i :: 0 <= i < |r| ==> r[i] < |jobs| && jobs[r[i]].IsStartOf(p)
    ensures forall j :: 0 <= j < |jobs| && jobs[j].IsStartOf(p) ==> j in r
    ensures forall i, k :: 0 <= i < k < |r| ==> r[k] < r[i]
  {
    if jobs == [] then []
    else
      var older := StartJobs(jobs[..|jobs| - 1], p);
      if jobs[|jobs| - 1].IsStartOf(p) then [|jobs| - 1] + older else older
  }

  /** The cancel jobs of a plan, newest first. */
  function CancelJobs(jobs: seq<Job>, p: PlanId): (r: seq<JobId>)
    ensures forall i :: 0 <= i < |r| ==> r[i] < |jobs| && jobs[r[i]].IsCancelOf(p)
    ensures forall j :: 0 <= j < |jobs| && jobs[j].IsCancelOf(p) ==> j in r
    ensures forall i, k :: 0 <= i < k < |r| ==> r[k] < r[i]
  {
    if jobs == [] then []
    else
      var older := CancelJobs(jobs[..|jobs| - 1], p);
      if jobs[|jobs| - 1].IsCancelOf(p) then [|jobs| - 1] + older else older
  }

  predicate AnyIn(jobs: seq<Job>, ids: seq<JobId>, states: set<JobState>)
    requires forall i :: 0 <= i < |ids| ==> ids[i] < |jobs|
  {
    exists i :: 0 <= i < |ids| && jobs[ids[i]].state in states
  }

  predicate SameRequest(job: Job, actor: Actor, action: JobAction, key: Option<Key>) {
    job.request.Action() == action && job.actor == actor && key == Some(job.key)
  }

  /** Why the plan may not be executed now by this actor, if it may not. */
  function Revalidation(db: Db, actor: Actor, plan: ExecutionPlan, upstreamCurrent: bool): Option<Code> {
    var member := MemberOf(db.household.bindings, actor);
    if member.None? then Some(ActorNotBound)
    else if member.value != plan.actorMember then Some(ActorMismatch)
    else if db.household.snapshot != plan.snapshot || !upstreamCurrent then Some(Stale)
    else None
  }

  /** The receipt, when it belongs to a succeeded job of this action with this idempotency key. */
  function ReplayedReceipt(db: Db, receipt: Option<StartReceipt>, action: JobAction, key: Option<Key>): Option<StartReceipt> {
    if receipt.Some? && receipt.value.job < |db.jobs|
       && db.jobs[receipt.value.job].request.Action() == action
       && key == Some(db.jobs[receipt.value.job].key)
       && db.jobs[receipt.value.job].state == Succeeded
    then receipt
    else None
  }

  predicate ArtifactFits(plan: ExecutionPlan, result: StartResult) {
    if plan.artifact == NoArtifact then result.artifact.None?
    else result.artifact.Some? && result.artifact.value.kind == plan.artifact
  }

  function PlanScript(db: Db, p: PlanId, plan: ExecutionPlan, upstream: Option<Code>): Script<ExecutionPlan> {
    if upstream.Some? then Refuse(upstream.value)
    else if p !in db.executions then Script([PutExecution(p, Execution(plan, Planned, None, None))], Success(plan))
    else if db.executions[p].plan != plan then Refuse(StateInvalid)
    else Script([], Success(plan))
  }

  // ----- start and retry: scripts ---------------------------------------------------------

  function StartFailureCode(answer: StartAnswer): Code {
    match answer
    case Answered(_) => ResultRejected
    case RaisedAdapterFailure(_) => ProviderFailure
    case RaisedTimeout => ProviderTimeout
    case RaisedOther => ProviderError
  }

  function AcceptedExecution(execution: Execution, receipt: StartReceipt): Execution {
    execution.(status := Accepted, receipt := Some(receipt))
  }

  /** From durable acceptance to the stored receipt. */
  function FinalizeScript(execution: Execution, p: PlanId, j: JobId, retryOf: Option<JobId>, result: StartResult): Script<StartReceipt> {
    var receipt := ReceiptOf(p, execution.plan, j, retryOf, result);
    Script([MoveJob(j, Succeeded, None), PutExecution(p, AcceptedExecution(execution, receipt))], Success(receipt))
  }

  /** From the adapter's answer to a recorded failure or a stored receipt. */
  function SettleScript(execution: Execution, p: PlanId, j: JobId, retryOf: Option<JobId>, now: Time, answer: StartAnswer): Script<StartReceipt> {
    var accepted := AcceptedStart(execution.plan, now, answer);
    if accepted.None? then
      Script([MoveJob(j, Failed, Some(StartFailed(answer == RaisedAdapterFailure(true))))],
             Failure(Refused(StartFailureCode(answer))))
    else
      var finish := FinalizeScript(execution, p, j, retryOf, accepted.value);
      Script([MoveJob(j, Verifying, Some(ProviderAccepted(accepted.value)))] + finish.effects, finish.outcome)
  }

  /** From a job in `preflight` to the end of the attempt. */
  function DriveScript(execution: Execution, p: PlanId, j: JobId, retryOf: Option<JobId>, env: Surroundings): Script<StartReceipt> {
    if env.now.None? then Script([MoveJob(j, Running, None)], Failure(Refused(TrustedTimeInvalid)))
    else
      var settle := SettleScript(execution, p, j, retryOf, env.now.value, env.startAnswer);
      Script([MoveJob(j, Running, None), CallStart(j, env.now.value, env.startAnswer)] + settle.effects, settle.outcome)
  }

  /** Creates the job, or picks up the one this very request created, and drives it. */
  function QueueScript(db: Db, actor: Actor, p: PlanId, key: Key, retryOf: Option<JobId>, env: Surroundings): Script<StartReceipt>
    requires p in db.executions
  {
    var execution := db.executions[p];
    var job := Job(StartRequest(p, retryOf), actor, key, None, Preflight, None);
    var existing := FindKey(db.jobs, job);
    if existing.None? then
      var drive := DriveScript(execution, p, |db.jobs|, retryOf, env);
      Script([CreateJob(job)] + drive.effects, drive.outcome)
    else if db.jobs[existing.value].request != job.request then Refuse(IdempotencyConflict)
    else match db.jobs[existing.value].state
      case Preflight => DriveScript(execution, p, existing.value, retryOf, env)
      case Running => Refuse(InProgress)
      case Verifying => Refuse(InProgress)
      case Failed => Refuse(RetryRequired)
      case Succeeded =>
        if execution.receipt.Some? && execution.receipt.value.job == existing.value
        then Script([], Success(execution.receipt.value))
        else Refuse(JobStateChanged)
  }

  function SubmitScript(db: Db, actor: Actor, p: PlanId, key: Option<Key>, retryOf: Option<JobId>, env: Surroundings): Script<StartReceipt> {
    if key.None? then Refuse(InvalidRequest)
    else if p !in db.executions then Refuse(NotFound)
    else
      var plan := db.executions[p].plan;
      var stale := Revalidation(db, actor, plan, env.upstreamCurrent);
      if stale.Some? then Refuse(stale.value)
      else if plan.provider !in env.adapters then Refuse(AdapterUnavailable)
      else QueueScript(db, actor, p, key.value, retryOf, env)
  }

  /** Finalizes an acceptance that is already durable, without contacting the provider. */
  function RecoverScript(execution: Execution, p: PlanId, j: JobId, job: Job): Script<StartReceipt>
    requires job.IsStartOf(p)
  {
    if job.result.None? || !job.result.value.ProviderAccepted? then Refuse(StateInvalid)
    else if !ArtifactFits(execution.plan, job.result.value.accepted) then Refuse(ResultRejected)
    else FinalizeScript(execution, p, j, job.request.retryOf, job.result.value.accepted)
  }

  function GuardedStartScript(db: Db, actor: Actor, form: StartForm, env: Surroundings): Script<StartReceipt>
    requires form.plan in db.executions
  {
    var receipt := db.executions[form.plan].receipt;
    var replay := ReplayedReceipt(db, receipt, StartAction, form.key);
    var previous := StartJobs(db.jobs, form.plan);
    if replay.Some? then Script([], Success(replay.value))
    else if receipt.Some? then Refuse(AlreadyStarted)
    else if AnyIn(db.jobs, previous, {Preflight, Running, Verifying}) then Refuse(InProgress)
    else if AnyIn(db.jobs, previous, {Failed}) then Refuse(RetryRequired)
    else if AnyIn(db.jobs, previous, {Succeeded}) then Refuse(StateInvalid)
    else if !form.wellFormed then Refuse(InvalidRequest)
    else SubmitScript(db, actor, form.plan, form.key, None, env)
  }

  function StartScript(db: Db, actor: Actor, form: StartForm, env: Surroundings): Script<StartReceipt> {
    if form.plan !in db.executions then Refuse(NotFound)
    else
      var previous := StartJobs(db.jobs, form.plan);
      if db.executions[form.plan].receipt.None? && |previous| == 1
         && SameRequest(db.jobs[previous[0]], actor, StartAction, form.key)
         && db.jobs[previous[0]].state == Preflight
      then (if form.wellFormed then SubmitScript(db, actor, form.plan, form.key, None, env) else Refuse(InvalidRequest))
      else if db.executions[form.plan].receipt.None? && |previous| == 1
         && SameRequest(db.jobs[previous[0]], actor, StartAction, form.key)
         && db.jobs[previous[0]].state == Verifying
      then RecoverScript(db.executions[form.plan], form.plan, previous[0], db.jobs[previous[0]])
      else GuardedStartScript(db, actor, form, env)
  }

  /** The base retry: the failed job is looked up again before the command is resubmitted. */
  function ResubmitScript(db: Db, actor: Actor, form: RetryForm, env: Surroundings): Script<StartReceipt> {
    if !form.wellFormed then Refuse(InvalidRequest)
    else if form.failedJob >= |db.jobs| || !db.jobs[form.failedJob].IsStartOf(form.plan)
            || db.jobs[form.failedJob].state != Failed then Refuse(RetryNotAllowed)
    else if !db.jobs[form.failedJob].RetrySafe() then Refuse(RetryNotSafe)
    else SubmitScript(db, actor, form.plan, form.key, Some(form.failedJob), env)
  }

  function GuardedRetryScript(db: Db, actor: Actor, form: RetryForm, env: Surroundings): Script<StartReceipt>
    requires form.plan in db.executions
  {
    var receipt := db.executions[form.plan].receipt;
    var replay := ReplayedReceipt(db, receipt, RetryAction, form.key);
    var previous := StartJobs(db.jobs, form.plan);
    if replay.Some? then Script([], Success(replay.value))
    else if receipt.Some? then Refuse(AlreadyStarted)
    else if AnyIn(db.jobs, previous, {Preflight, Running, Verifying}) then Refuse(InProgress)
    else if AnyIn(db.jobs, previous, {Succeeded}) then Refuse(StateInvalid)
    else if previous == [] || db.jobs[previous[0]].state != Failed || previous[0] != form.failedJob
      then Refuse(RetryNotAllowed)
    else if !db.jobs[previous[0]].RetrySafe() then Refuse(RetryNotSafe)
    else ResubmitScript(db, actor, form, env)
  }

  predicate ResumesRetry(db: Db, actor: Actor, form: RetryForm) {
    var previous := StartJobs(db.jobs, form.plan);
    && form.plan in db.executions && db.executions[form.plan].receipt.None?
    && |previous| >= 2
    && SameRequest(db.jobs[previous[0]], actor, RetryAction, form.key)
    && db.jobs[previous[0]].request.retryOf == Some(form.failedJob)
    && previous[1] == form.failedJob && db.jobs[previous[1]].RetrySafe()
  }

  function RetryScript(db: Db, actor: Actor, form: RetryForm, env: Surroundings): Script<StartReceipt> {
    if form.plan !in db.executions then Refuse(NotFound)
    else
      var previous := StartJobs(db.jobs, form.plan);
      if ResumesRetry(db, actor, form) && db.jobs[previous[0]].state == Preflight
      then ResubmitScript(db, actor, form, env)
      else if ResumesRetry(db, actor, form) && db.jobs[previous[0]].state == Verifying
      then RecoverScript(db.executions[form.plan], form.plan, previous[0], db.jobs[previous[0]])
      else GuardedRetryScript(db, actor, form, env)
  }

  // ----- cancel: scripts ------------------------------------------------------------------

  function CancelledExecution(execution: Execution, receipt: CancelReceipt): Execution {
    execution.(status := CancelRequested, cancelReceipt := Some(receipt))
  }

  function CancelTail(execution: Execution, p: PlanId, j: JobId, startJob: JobId, operation: OperationId): Script<CancelReceipt> {
    var receipt := CancelReceipt(j, startJob, p, execution.plan.provider, operation);
    Script([MoveJob(j, Succeeded, None), PutExecution(p, CancelledExecution(execution, receipt))], Success(receipt))
  }

  /** The base operation and the recovering one store acknowledgements of different shapes. */
  function SettleCancel(execution: Execution, p: PlanId, j: JobId, startJob: JobId, operation: OperationId, twoFields: bool, acknowledged: bool): Script<CancelReceipt> {
    if !acknowledged then
      Script([MoveJob(j, Failed, Some(Noted))], Failure(Refused(ProviderError)))
    else
      var tail := CancelTail(execution, p, j, startJob, operation);
      Script([MoveJob(j, Verifying, Some(CancelAcknowledged(twoFields)))] + tail.effects, tail.outcome)
  }

  /** From a cancel job in `preflight` to the end of the attempt. */
  function CancelDrive(execution: Execution, p: PlanId, j: JobId, startJob: JobId, operation: OperationId, twoFields: bool, acknowledged: bool): Script<CancelReceipt> {
    var settle := SettleCancel(execution, p, j, startJob, operation, twoFields, acknowledged);
    Script([MoveJob(j, Running, None), CallCancel(j, operation)] + settle.effects, settle.outcome)
  }

  /** The base cancel.  It is reached only without a stored cancel receipt, so its own replay of one
      never applies. */
  function BaseCancelScript(db: Db, actor: Actor, form: CancelForm, env: Surroundings): Script<CancelReceipt>
    requires form.plan in db.executions
  {
    var execution := db.executions[form.plan];
    var stale := Revalidation(db, actor, execution.plan, env.upstreamCurrent);
    if !form.wellFormed || form.key.None? then Refuse(InvalidRequest)
    else if stale.Some? then Refuse(stale.value)
    else if execution.receipt.None? || execution.receipt.value.job != form.startJob then Refuse(CancelNotAllowed)
    else if execution.plan.provider !in env.adapters then Refuse(AdapterUnavailable)
    else
      var operation := execution.receipt.value.operation;
      var job := Job(CancelRequest(form.plan, form.startJob), actor, form.key.value, Some(operation), Preflight, None);
      var existing := FindKey(db.jobs, job);
      if existing.None? then
        var drive := CancelDrive(execution, form.plan, |db.jobs|, form.startJob, operation, false, env.cancelAcknowledged);
        Script([CreateJob(job)] + drive.effects, drive.outcome)
      else if db.jobs[existing.value].request != job.request then Refuse(IdempotencyConflict)
      else Refuse(CancelInProgress)
  }

  function GuardedCancelScript(db: Db, actor: Actor, form: CancelForm, env: Surroundings): Script<CancelReceipt>
    requires form.plan in db.executions
  {
    var receipt := db.executions[form.plan].cancelReceipt;
    var previous := CancelJobs(db.jobs, form.plan);
    if receipt.Some? && receipt.value.job < |db.jobs|
       && db.jobs[receipt.value.job].request.Action() == CancelAction
       && form.key == Some(db.jobs[receipt.value.job].key)
       && db.jobs[receipt.value.job].state == Succeeded
      then Script([], Success(receipt.value))
    else if receipt.Some? then Refuse(CancelAlreadyRequested)
    else if AnyIn(db.jobs, previous, {Preflight, Running, Verifying}) then Refuse(CancelInProgress)
    else if AnyIn(db.jobs, previous, {Failed}) then Refuse(CancelRetryNotSafe)
    else if AnyIn(db.jobs, previous, {Succeeded}) then Refuse(StateInvalid)
    else BaseCancelScript(db, actor, form, env)
  }

  function CompleteCancelScript(db: Db, actor: Actor, form: CancelForm, j: JobId, invoke: bool, env: Surroundings): Script<CancelReceipt>
    requires form.plan in db.executions && j < |db.jobs|
  {
    var execution, job := db.executions[form.plan], db.jobs[j];
    var stale := Revalidation(db, actor, execution.plan, env.upstreamCurrent);
    if execution.receipt.None? || execution.receipt.value.job != form.startJob then Refuse(CancelNotAllowed)
    else if job.operation != Some(execution.receipt.value.operation) then Refuse(StateInvalid)
    else if !invoke then
      (if job.result != Some(CancelAcknowledged(true)) then Refuse(StateInvalid)
       else CancelTail(execution, form.plan, j, form.startJob, execution.receipt.value.operation))
    else if stale.Some? then Refuse(stale.value)
    else if execution.plan.provider !in env.adapters then Refuse(AdapterUnavailable)
    else CancelDrive(execution, form.plan, j, form.startJob, execution.receipt.value.operation, true, env.cancelAcknowledged)
  }

  function CancelScript(db: Db, actor: Actor, form: CancelForm, env: Surroundings): Script<CancelReceipt> {
    if form.plan !in db.executions then Refuse(NotFound)
    else
      var previous := CancelJobs(db.jobs, form.plan);
      if db.executions[form.plan].cancelReceipt.None? && |previous| == 1
         && SameRequest(db.jobs[previous[0]], actor, CancelAction, form.key)
         && (db.jobs[previous[0]].state == Preflight || db.jobs[previous[0]].state == Verifying)
      then CompleteCancelScript(db, actor, form, previous[0], db.jobs[previous[0]].state == Preflight, env)
      else GuardedCancelScript(db, actor, form, env)
  }

  // ----- the runtime ----------------------------------------------------------------------

  class Runtime {
    const store: Store

    constructor (store: Store)
      ensures this.store == store
    {
      this.store := store;
    }

    /** Stores an execution plan.  `p` is the digest of the plan, so an id that is taken must hold
        the same plan; `upstream` is why the plan cannot be built now, if it cannot. */
    method PlanExecution(p: PlanId, plan: ExecutionPlan, upstream: Option<Code>) returns (r: Result<ExecutionPlan>)
      requires store.Valid()
      modifies store
      ensures store.Valid()
      ensures Ran(PlanScript(old(store.db), p, plan, upstream), old(store.db).log, old(store.fuel), store.db.log, store.fuel, r)
    {
      hide Run;
      if upstream.Some? {
        return Failure(Refused(upstream.value));
      }
      if p !in store.db.executions {
        :- store.Commit(PutExecution(p, Execution(plan, Planned, None, None)));
      } else if store.db.executions[p].plan != plan {
        return Failure(Refused(StateInvalid));
      }
      return Success(plan);
    }

    /** From durable acceptance to the stored receipt. */
    method Finalize(p: PlanId, j: JobId, result: StartResult) returns (r: Result<StartReceipt>)
      requires store.Valid()
      requires p in store.db.executions && store.db.executions[p].receipt.None? && store.db.executions[p].cancelReceipt.None?
      requires j < |store.db.jobs| && store.db.jobs[j].IsStartOf(p) && store.db.jobs[j].state == Verifying
      requires store.db.jobs[j].result == Some(ProviderAccepted(result))
      modifies store
      ensures store.Valid()
      ensures Ran(FinalizeScript(old(store.db).executions[p], p, j, old(store.db).jobs[j].request.retryOf, result),
                  old(store.db).log, old(store.fuel), store.db.log, store.fuel, r)
    {
      hide Run, Legal, Fold, Called, DeclaredSafe, AcceptedCall,
        VerificationAllowed, DeenrollmentAllowed, CleanupAllowed, HouseholdAllowed, ScrubAllowed;
      var execution := store.db.executions[p];
      var receipt := ReceiptOf(p, execution.plan, j, store.db.jobs[j].request.retryOf, result);
      :- store.TransitionActionJob(j, Verifying, Succeeded, None);
      :- store.Commit(PutExecution(p, AcceptedExecution(execution, receipt)));
      return Success(receipt);
    }

    /** Records the adapter's answer to the command of a running job. */
    method Settle(p: PlanId, j: JobId, retryOf: Option<JobId>, now: Time, answer: StartAnswer) returns (r: Result<StartReceipt>)
      requires store.Valid()
      requires p in store.db.executions && store.db.executions[p].receipt.None? && store.db.executions[p].cancelReceipt.None?
      requires JobFor(store.db, j, StartRequest(p, retryOf), Running)
      requires DeclaredSafe(store.db.log, j) <==> answer == RaisedAdapterFailure(true)
      requires var accepted := AcceptedStart(store.db.executions[p].plan, now, answer);
        accepted.Some? ==> AcceptedCall(store.db.log, j, store.db.executions[p].plan, accepted.value)
      modifies store
      ensures store.Valid()
      ensures Ran(SettleScript(old(store.db).executions[p], p, j, retryOf, now, answer),
                  old(store.db).log, old(store.fuel), store.db.log, store.fuel, r)
    {
      hide Run, Legal, Fold, Called, DeclaredSafe, AcceptedCall,
        VerificationAllowed, DeenrollmentAllowed, CleanupAllowed, HouseholdAllowed, ScrubAllowed;
      var accepted := AcceptedStart(store.db.executions[p].plan, now, answer);
      if accepted.None? {
        :- store.TransitionActionJob(j, Running, Failed, Some(StartFailed(answer == RaisedAdapterFailure(true))));
        return Failure(Refused(StartFailureCode(answer)));
      }
      :- store.TransitionActionJob(j, Running, Verifying, Some(ProviderAccepted(accepted.value)));
      r := Finalize(p, j, accepted.value);
    }

    method Drive(p: PlanId, j: JobId, retryOf: Option<JobId>, env: Surroundings) returns (r: Result<StartReceipt>)
      requires store.Valid() && !Called(store.db.log, j)
      requires p in store.db.executions && store.db.executions[p].receipt.None? && store.db.executions[p].cancelReceipt.None?
      requires JobFor(store.db, j, StartRequest(p, retryOf), Preflight)
      modifies store
      ensures store.Valid()
      ensures Ran(DriveScript(old(store.db).executions[p], p, j, retryOf, env),
                  old(store.db).log, old(store.fuel), store.db.log, store.fuel, r)
    {
      hide Run, Legal, Fold, Called, DeclaredSafe, AcceptedCall, Enabled, SettleScript;
      ghost var plan := store.db.executions[p].plan;
      LaunchEnabled(store.db, p, j, env);
      if env.now.Some? {
        TakeAfter([MoveJob(j, Running, None), CallStart(j, env.now.value, env.startAnswer)],
                  SettleScript(store.db.executions[p], p, j, retryOf, env.now.value, env.startAnswer).effects, store.fuel);
      }
      :- store.TransitionActionJob(j, Preflight, Running, None);
      if env.now.None? {
        return Failure(Refused(TrustedTimeInvalid));
      }
      var now := env.now.value;
      :- store.Commit(CallStart(j, now, env.startAnswer));
      OnlyCall(old(store.db).log + [MoveJob(j, Running, None)], j, plan, now, env.startAnswer);
      r := Settle(p, j, retryOf, now, env.startAnswer);
    }

    method Queue(actor: Actor, p: PlanId, key: Key, retryOf: Option<JobId>, env: Surroundings)
      returns (r: Result<StartReceipt>)
      requires store.Valid() && p in store.db.executions
      requires var job := Job(StartRequest(p, retryOf), actor, key, None, Preflight, None);
        KeyUnused(store.db.jobs, job) ==> CreateAllowed(store.db, job)
      modifies store
      ensures store.Valid()
      ensures Ran(QueueScript(old(store.db), actor, p, key, retryOf, env),
                  old(store.db).log, old(store.fuel), store.db.log, store.fuel, r)
    {
      hide Run, Called, DriveScript, CreateAllowed, Take;
      Taken<Action>([], store.fuel);
      TakeAfter([CreateJob(Job(StartRequest(p, retryOf), actor, key, None, Preflight, None))],
                DriveScript(store.db.executions[p], p, |store.db.jobs|, retryOf, env).effects, store.fuel);
      NewJobReady(store.initial, store.db, Job(StartRequest(p, retryOf), actor, key, None, Preflight, None));
      var stored :- store.CreateActionJob(StartRequest(p, retryOf), actor, key, None);
      var (j, created) := stored;
      if !created {
        match store.db.jobs[j].state
        case Preflight => PreflightReady(store.initial, store.db, p, j);
        case Running => return Failure(Refused(InProgress));
        case Verifying => return Failure(Refused(InProgress));
        case Failed => return Failure(Refused(RetryRequired));
        case Succeeded =>
          var receipt := store.db.executions[p].receipt;
          if receipt.Some? && receipt.value.job == j {
            return Success(receipt.value);
          }
          return Failure(Refused(JobStateChanged));
      }
      r := Drive(p, j, retryOf, env);
    }

    method Submit(actor: Actor, p: PlanId, key: Option<Key>, retryOf: Option<JobId>, env: Surroundings)
      returns (r: Result<StartReceipt>)
      requires store.Valid()
      requires key.Some? && p in store.db.executions ==>
        var job := Job(StartRequest(p, retryOf), actor, key.value, None, Preflight, None);
        KeyUnused(store.db.jobs, job) ==> CreateAllowed(store.db, job)
      modifies store
      ensures store.Valid()
      ensures Ran(SubmitScript(old(store.db), actor, p, key, retryOf, env),
                  old(store.db).log, old(store.fuel), store.db.log, store.fuel, r)
    {
      hide Run, QueueScript, CreateAllowed;
      if key.None? {
        return Failure(Refused(InvalidRequest));
      }
      if p !in store.db.executions {
        return Failure(Refused(NotFound));
      }
      var plan := store.db.executions[p].plan;
      var stale := Revalidation(store.db, actor, plan, env.upstreamCurrent);
      if stale.Some? {
        return Failure(Refused(stale.value));
      }
      if plan.provider !in env.adapters {
        return Failure(Refused(AdapterUnavailable));
      }
      r := Queue(actor, p, key.value, retryOf, env);
    }

    method Recover(p: PlanId, j: JobId) returns (r: Result<StartReceipt>)
      requires store.Valid()
      requires p in store.db.executions && store.db.executions[p].receipt.None?
      requires j < |store.db.jobs| && store.db.jobs[j].IsStartOf(p) && store.db.jobs[j].state == Verifying
      modifies store
      ensures store.Valid()
      ensures Ran(RecoverScript(old(store.db).executions[p], p, j, old(store.db).jobs[j]),
                  old(store.db).log, old(store.fuel), store.db.log, store.fuel, r)
    {
      var execution, job := store.db.executions[p], store.db.jobs[j];
      if job.result.None? || !job.result.value.ProviderAccepted? {
        return Failure(Refused(StateInvalid));
      }
      if !ArtifactFits(execution.plan, job.result.value.accepted) {
        return Failure(Refused(ResultRejected));
      }
      assert execution.cancelReceipt.None? by { Safety.Holds(store.initial, store.db.log); }
      r := Finalize(p, j, job.result.value.accepted);
    }

    method GuardedStart(actor: Actor, form: StartForm, env: Surroundings) returns (r: Result<StartReceipt>)
      requires store.Valid() && form.plan in store.db.executions
      modifies store
      ensures store.Valid()
      ensures Ran(GuardedStartScript(old(store.db), actor, form, env),
                  old(store.db).log, old(store.fuel), store.db.log, store.fuel, r)
    {
      hide Run, SubmitScript;
      var receipt := store.db.executions[form.plan].receipt;
      var replay := ReplayedReceipt(store.db, receipt, StartAction, form.key);
      if replay.Some? {
        return Success(replay.value);
      }
      if receipt.Some? {
        return Failure(Refused(AlreadyStarted));
      }
      var previous := StartJobs(store.db.jobs, form.plan);
      if AnyIn(store.db.jobs, previous, {Preflight, Running, Verifying}) {
        return Failure(Refused(InProgress));
      }
      if AnyIn(store.db.jobs, previous, {Failed}) {
        return Failure(Refused(RetryRequired));
      }
      if AnyIn(store.db.jobs, previous, {Succeeded}) {
        return Failure(Refused(StateInvalid));
      }
      if !form.wellFormed {
        return Failure(Refused(InvalidRequest));
      }
      NoStateNoJob(store.db.jobs, form.plan);
      r := Submit(actor, form.plan, form.key, None, env);
    }

    /** Starts the enrollment, resumes a start that had not reached the provider, or finalizes one
        the provider had accepted when the process died. */
    method Start(actor: Actor, form: StartForm, env: Surroundings) returns (r: Result<StartReceipt>)
      requires store.Valid()
      modifies store
      ensures store.Valid()
      ensures Ran(StartScript(old(store.db), actor, form, env),
                  old(store.db).log, old(store.fuel), store.db.log, store.fuel, r)
    {
      hide Run, SubmitScript, RecoverScript, GuardedStartScript, CreateAllowed;
      if form.plan !in store.db.executions {
        return Failure(Refused(NotFound));
      }
      if store.db.executions[form.plan].receipt.None? {
        var previous := StartJobs(store.db.jobs, form.plan);
        if |previous| == 1 && SameRequest(store.db.jobs[previous[0]], actor, StartAction, form.key) {
          if store.db.jobs[previous[0]].state == Preflight {
            if !form.wellFormed {
              return Failure(Refused(InvalidRequest));
            }
            r := Submit(actor, form.plan, form.key, None, env);
            return;
          }
          if store.db.jobs[previous[0]].state == Verifying {
            r := Recover(form.plan, previous[0]);
            return;
          }
        }
      }
      r := GuardedStart(actor, form, env);
    }

    /** The base retry. */
    method Resubmit(actor: Actor, form: RetryForm, env: Surroundings) returns (r: Result<StartReceipt>)
      requires store.Valid()
      requires (form.key.Some? && form.plan in store.db.executions
                && form.failedJob < |store.db.jobs| && store.db.jobs[form.failedJob].IsStartOf(form.plan)) ==>
        var job := Job(StartRequest(form.plan, Some(form.failedJob)), actor, form.key.value, None, Preflight, None);
        KeyUnused(store.db.jobs, job) ==> CreateAllowed(store.db, job)
      modifies store
      ensures store.Valid()
      ensures Ran(ResubmitScript(old(store.db), actor, form, env),
                  old(store.db).log, old(store.fuel), store.db.log, store.fuel, r)
    {
      hide Run, SubmitScript, CreateAllowed;
      if !form.wellFormed {
        return Failure(Refused(InvalidRequest));
      }
      if form.failedJob >= |store.db.jobs| || !store.db.jobs[form.failedJob].IsStartOf(form.plan)
         || store.db.jobs[form.failedJob].state != Failed {
        return Failure(Refused(RetryNotAllowed));
      }
      if !store.db.jobs[form.failedJob].RetrySafe() {
        return Failure(Refused(RetryNotSafe));
      }
      r := Submit(actor, form.plan, form.key, Some(form.failedJob), env);
    }

    method GuardedRetry(actor: Actor, form: RetryForm, env: Surroundings) returns (r: Result<StartReceipt>)
      requires store.Valid() && form.plan in store.db.executions
      modifies store
      ensures store.Valid()
      ensures Ran(GuardedRetryScript(old(store.db), actor, form, env),
                  old(store.db).log, old(store.fuel), store.db.log, store.fuel, r)
    {
      hide Run, ResubmitScript, AnyIn;
      var receipt := store.db.executions[form.plan].receipt;
      var replay := ReplayedReceipt(store.db, receipt, RetryAction, form.key);
      if replay.Some? {
        return Success(replay.value);
      }
      if receipt.Some? {
        return Failure(Refused(AlreadyStarted));
      }
      var previous := StartJobs(store.db.jobs, form.plan);
      if AnyIn(store.db.jobs, previous, {Preflight, Running, Verifying}) {
        return Failure(Refused(InProgress));
      }
      if AnyIn(store.db.jobs, previous, {Succeeded}) {
        return Failure(Refused(StateInvalid));
      }
      if previous == [] || store.db.jobs[previous[0]].state != Failed || previous[0] != form.failedJob {
        return Failure(Refused(RetryNotAllowed));
      }
      if !store.db.jobs[previous[0]].RetrySafe() {
        return Failure(Refused(RetryNotSafe));
      }
      NewestSafeAllSafe(store.initial, store.db, form.plan, previous[0]);
      r := Resubmit(actor, form, env);
    }

    method Retry(actor: Actor, form: RetryForm, env: Surroundings) returns (r: Result<StartReceipt>)
      requires store.Valid()
      modifies store
      ensures store.Valid()
      ensures Ran(RetryScript(old(store.db), actor, form, env),
                  old(store.db).log, old(store.fuel), store.db.log, store.fuel, r)
    {
      hide Run, ResubmitScript, RecoverScript, GuardedRetryScript, CreateAllowed;
      if form.plan !in store.db.executions {
        return Failure(Refused(NotFound));
      }
      if ResumesRetry(store.db, actor, form) {
        var latest := StartJobs(store.db.jobs, form.plan)[0];
        if store.db.jobs[latest].state == Preflight {
          r := Resubmit(actor, form, env);
          return;
        }
        if store.db.jobs[latest].state == Verifying {
          r := Recover(form.plan, latest);
          return;
        }
      }
      r := GuardedRetry(actor, form, env);
    }

    /** From a durable acknowledgement to the stored cancel receipt. */
    method FinishCancel(p: PlanId, j: JobId, startJob: JobId, operation: OperationId) returns (r: Result<CancelReceipt>)
      requires store.Valid()
      requires p in store.db.executions && store.db.executions[p].receipt.Some? && store.db.executions[p].cancelReceipt.None?
      requires store.db.executions[p].receipt.value.job == startJob
      requires store.db.executions[p].receipt.value.operation == operation
      requires JobFor(store.db, j, CancelRequest(p, startJob), Verifying)
      modifies store
      ensures store.Valid()
      ensures Ran(CancelTail(old(store.db).executions[p], p, j, startJob, operation),
                  old(store.db).log, old(store.fuel), store.db.log, store.fuel, r)
    {
      hide Run, Legal, Fold, VerificationAllowed, DeenrollmentAllowed, CleanupAllowed, HouseholdAllowed, ScrubAllowed;
      var execution := store.db.executions[p];
      var receipt := CancelReceipt(j, startJob, p, execution.plan.provider, operation);
      :- store.TransitionActionJob(j, Verifying, Succeeded, None);
      :- store.Commit(PutExecution(p, CancelledExecution(execution, receipt)));
      return Success(receipt);
    }

    method EndCancel(p: PlanId, j: JobId, startJob: JobId, operation: OperationId, twoFields: bool, acknowledged: bool)
      returns (r: Result<CancelReceipt>)
      requires store.Valid()
      requires p in store.db.executions && store.db.executions[p].receipt.Some? && store.db.executions[p].cancelReceipt.None?
      requires store.db.executions[p].receipt.value.job == startJob
      requires store.db.executions[p].receipt.value.operation == operation
      requires JobFor(store.db, j, CancelRequest(p, startJob), Running)
      modifies store
      ensures store.Valid()
      ensures Ran(SettleCancel(old(store.db).executions[p], p, j, startJob, operation, twoFields, acknowledged),
                  old(store.db).log, old(store.fuel), store.db.log, store.fuel, r)
    {
      hide Run, Enabled, CancelTail;
      CancelMoves(store.db, j);
      if !acknowledged {
        :- store.TransitionActionJob(j, Running, Failed, Some(Noted));
        return Failure(Refused(ProviderError));
      }
      :- store.TransitionActionJob(j, Running, Verifying, Some(CancelAcknowledged(twoFields)));
      r := FinishCancel(p, j, startJob, operation);
    }

    method DriveCancel(p: PlanId, j: JobId, startJob: JobId, operation: OperationId, twoFields: bool, acknowledged: bool)
      returns (r: Result<CancelReceipt>)
      requires store.Valid() && !CancelCalled(store.db.log, j)
      requires p in store.db.executions && store.db.executions[p].receipt.Some? && store.db.executions[p].cancelReceipt.None?
      requires store.db.executions[p].receipt.value.job == startJob
      requires store.db.executions[p].receipt.value.operation == operation
      requires JobFor(store.db, j, CancelRequest(p, startJob), Preflight)
      requires store.db.jobs[j].operation == Some(operation)
      modifies store
      ensures store.Valid()
      ensures Ran(CancelDrive(old(store.db).executions[p], p, j, startJob, operation, twoFields, acknowledged),
                  old(store.db).log, old(store.fuel), store.db.log, store.fuel, r)
    {
      hide Run, Enabled, CancelCalled, SettleCancel, Take;
      CancelEnabled(store.db, p, j, operation);
      TakeAfter([MoveJob(j, Running, None), CallCancel(j, operation)],
                SettleCancel(store.db.executions[p], p, j, startJob, operation, twoFields, acknowledged).effects, store.fuel);
      :- store.TransitionActionJob(j, Preflight, Running, None);
      :- store.Commit(CallCancel(j, operation));
      r := EndCancel(p, j, startJob, operation, twoFields, acknowledged);
    }

    /** The base cancel, reached when no cancel job of the plan exists. */
    method BaseCancel(actor: Actor, form: CancelForm, env: Surroundings) returns (r: Result<CancelReceipt>)
      requires store.Valid() && form.plan in store.db.executions
      requires NoCancelOf(store.db.jobs, form.plan) && store.db.executions[form.plan].cancelReceipt.None?
      modifies store
      ensures store.Valid()
      ensures Ran(BaseCancelScript(old(store.db), actor, form, env),
                  old(store.db).log, old(store.fuel), store.db.log, store.fuel, r)
    {
      hide Run, CancelCalled, CancelDrive, VerificationAllowed, DeenrollmentAllowed, CleanupAllowed, HouseholdAllowed, ScrubAllowed, Take;
      Taken<Action>([], store.fuel);
      if !form.wellFormed || form.key.None? {
        return Failure(Refused(InvalidRequest));
      }
      var p, execution := form.plan, store.db.executions[form.plan];
      var stale := Revalidation(store.db, actor, execution.plan, env.upstreamCurrent);
      if stale.Some? {
        return Failure(Refused(stale.value));
      }
      if execution.receipt.None? || execution.receipt.value.job != form.startJob {
        return Failure(Refused(CancelNotAllowed));
      }
      if execution.plan.provider !in env.adapters {
        return Failure(Refused(AdapterUnavailable));
      }
      var operation := execution.receipt.value.operation;
      NewCancelReady(store.initial, store.db, CreateJob(Job(CancelRequest(p, form.startJob), actor, form.key.value, Some(operation), Preflight, None)));
      TakeAfter([CreateJob(Job(CancelRequest(p, form.startJob), actor, form.key.value, Some(operation), Preflight, None))],
                CancelDrive(execution, p, |store.db.jobs|, form.startJob, operation, false, env.cancelAcknowledged).effects, store.fuel);
      var stored :- store.CreateActionJob(CancelRequest(p, form.startJob), actor, form.key.value, Some(operation));
      var (j, created) := stored;
      if !created {
        return Failure(Refused(CancelInProgress));
      }
      r := DriveCancel(p, j, form.startJob, operation, false, env.cancelAcknowledged);
    }

    method GuardedCancel(actor: Actor, form: CancelForm, env: Surroundings) returns (r: Result<CancelReceipt>)
      requires store.Valid() && form.plan in store.db.executions
      modifies store
      ensures store.Valid()
      ensures Ran(GuardedCancelScript(old(store.db), actor, form, env),
                  old(store.db).log, old(store.fuel), store.db.log, store.fuel, r)
    {
      hide Run, BaseCancelScript, AnyIn;
      var receipt := store.db.executions[form.plan].cancelReceipt;
      if receipt.Some? && receipt.value.job < |store.db.jobs| {
        var job := store.db.jobs[receipt.value.job];
        if job.request.Action() == CancelAction && form.key == Some(job.key) && job.state == Succeeded {
          return Success(receipt.value);
        }
      }
      if receipt.Some? {
        return Failure(Refused(CancelAlreadyRequested));
      }
      var previous := CancelJobs(store.db.jobs, form.plan);
      if AnyIn(store.db.jobs, previous, {Preflight, Running, Verifying}) {
        return Failure(Refused(CancelInProgress));
      }
      if AnyIn(store.db.jobs, previous, {Failed}) {
        return Failure(Refused(CancelRetryNotSafe));
      }
      if AnyIn(store.db.jobs, previous, {Succeeded}) {
        return Failure(Refused(StateInvalid));
      }
      if |previous| > 0 {
        StateListed(store.db.jobs, previous, 0);
      }
      r := BaseCancel(actor, form, env);
    }

    /** Completes a cancel job left by a crash; the provider is called only if it had not been. */
    method CompleteCancel(actor: Actor, form: CancelForm, j: JobId, invoke: bool, env: Surroundings) returns (r: Result<CancelReceipt>)
      requires store.Valid() && form.plan in store.db.executions && store.db.executions[form.plan].cancelReceipt.None?
      requires j < |store.db.jobs| && store.db.jobs[j].IsCancelOf(form.plan)
      requires store.db.jobs[j].state == if invoke then Preflight else Verifying
      modifies store
      ensures store.Valid()
      ensures Ran(CompleteCancelScript(old(store.db), actor, form, j, invoke, env),
                  old(store.db).log, old(store.fuel), store.db.log, store.fuel, r)
    {
      hide Run, CancelCalled, CancelDrive, CancelTail;
      var execution, job := store.db.executions[form.plan], store.db.jobs[j];
      if execution.receipt.None? || execution.receipt.value.job != form.startJob {
        return Failure(Refused(CancelNotAllowed));
      }
      var operation := execution.receipt.value.operation;
      if job.operation != Some(operation) {
        return Failure(Refused(StateInvalid));
      }
      CancelJobReady(store.initial, store.db, form.plan, j);
      if !invoke {
        if job.result != Some(CancelAcknowledged(true)) {
          return Failure(Refused(StateInvalid));
        }
        r := FinishCancel(form.plan, j, form.startJob, operation);
        return;
      }
      var stale := Revalidation(store.db, actor, execution.plan, env.upstreamCurrent);
      if stale.Some? {
        return Failure(Refused(stale.value));
      }
      if execution.plan.provider !in env.adapters {
        return Failure(Refused(AdapterUnavailable));
      }
      r := DriveCancel(form.plan, j, form.startJob, operation, true, env.cancelAcknowledged);
    }

    method Cancel(actor: Actor, form: CancelForm, env: Surroundings) returns (r: Result<CancelReceipt>)
      requires store.Valid()
      modifies store
      ensures store.Valid()
      ensures Ran(CancelScript(old(store.db), actor, form, env),
                  old(store.db).log, old(store.fuel), store.db.log, store.fuel, r)
    {
      hide Run, CompleteCancelScript, GuardedCancelScript;
      if form.plan !in store.db.executions {
        return Failure(Refused(NotFound));
      }
      if store.db.executions[form.plan].cancelReceipt.None? {
        var previous := CancelJobs(store.db.jobs, form.plan);
        if |previous| == 1 && SameRequest(store.db.jobs[previous[0]], actor, CancelAction, form.key) {
          var state := store.db.jobs[previous[0]].state;
          if state == Preflight || state == Verifying {
            r := CompleteCancel(actor, form, previous[0], state == Preflight, env);
            return;
          }
        }
      }
      r := GuardedCancel(actor, form, env);
    }
  }

  /** A cancel job in `preflight` may run, and then its command may be sent. */
  lemma CancelEnabled(db: Db, p: PlanId, j: JobId, operation: OperationId)
    requires j < |db.jobs| && db.jobs[j].state == Preflight && db.jobs[j].IsCancelOf(p)
    requires db.jobs[j].operation == Some(operation) && !CancelCalled(db.log, j)
    ensures Enabled(db, MoveJob(j, Running, None))
    ensures Enabled(Apply(db, MoveJob(j, Running, None)), CallCancel(j, operation))
  {
    assert !CancelCalled(db.log + [MoveJob(j, Running, None)], j);
  }

  lemma CancelMoves(db: Db, j: JobId)
    requires j < |db.jobs| && db.jobs[j].request.CancelRequest? && db.jobs[j].state == Running
    ensures forall to, result :: Edge(Running, to) ==> Enabled(db, MoveJob(j, to, result))
  {
  }

  lemma NewCancelReady(init: Db, db: Db, a: Action)
    requires Run(init, db) && a.CreateJob?
    ensures !CancelCalled(db.log + [a], |db.jobs|)
  {
    Safety.Holds(init, db.log);
    hide Legal, Fold;
  }

  lemma CancelJobReady(init: Db, db: Db, p: PlanId, j: JobId)
    requires Run(init, db)
    requires j < |db.jobs| && db.jobs[j].IsCancelOf(p)
    ensures db.jobs[j].state == Preflight ==> !CancelCalled(db.log, j)
    ensures p in db.executions && db.executions[p].receipt.Some?
    ensures db.executions[p].receipt.value.job == db.jobs[j].request.startJob
  {
    Safety.Holds(init, db.log);
    hide Legal, Fold;
  }

  lemma StateListed(jobs: seq<Job>, ids: seq<JobId>, i: nat)
    requires forall k :: 0 <= k < |ids| ==> ids[k] < |jobs|
    requires i < |ids|
    ensures AnyIn(jobs, ids, {Preflight, Running, Verifying}) || AnyIn(jobs, ids, {Failed}) || AnyIn(jobs, ids, {Succeeded})
  {
    var state := jobs[ids[i]].state;
    if state == Failed {
      assert jobs[ids[i]].state in {Failed};
    } else if state == Succeeded {
      assert jobs[ids[i]].state in {Succeeded};
    } else {
      assert jobs[ids[i]].state in {Preflight, Running, Verifying};
    }
  }

  /** A plan with no job in any state has no job. */
  lemma NoStateNoJob(jobs: seq<Job>, p: PlanId)
    requires !AnyIn(jobs, StartJobs(jobs, p), {Preflight, Running, Verifying})
    requires !AnyIn(jobs, StartJobs(jobs, p), {Failed})
    requires !AnyIn(jobs, StartJobs(jobs, p), {Succeeded})
    ensures FirstOfPlan(jobs, p) && OnlyRetrySafe(jobs, p)
  {
    if |StartJobs(jobs, p)| > 0 {
      StateListed(jobs, StartJobs(jobs, p), 0);
    }
  }

  /** When the newest attempt failed safely, so did all the others. */
  lemma NewestSafeAllSafe(init: Db, db: Db, p: PlanId, j: JobId)
    requires Run(init, db)
    requires j < |db.jobs| && db.jobs[j].IsStartOf(p) && db.jobs[j].RetrySafe()
    requires forall i :: 0 <= i < |db.jobs| && db.jobs[i].IsStartOf(p) ==> i <= j
    ensures OnlyRetrySafe(db.jobs, p)
  {
    hide Legal, Fold;
    assert Safety.EarlierStartsAreSafe(db.jobs) by {
      Safety.Holds(init, db.log);
    }
    forall i | 0 <= i < |db.jobs| && db.jobs[i].IsStartOf(p)
      ensures db.jobs[i].RetrySafe()
    {
      if i != j {
        assert Safety.SamePlanStarts(db.jobs[i], db.jobs[j]);
      }
    }
  }

  /** A start job in `preflight` may run, and then its command may be sent. */
  lemma LaunchEnabled(db: Db, p: PlanId, j: JobId, env: Surroundings)
    requires p in db.executions && j < |db.jobs| && db.jobs[j].state == Preflight && db.jobs[j].IsStartOf(p)
    requires !Called(db.log, j)
    ensures Enabled(db, MoveJob(j, Running, None))
    ensures !Called(db.log + [MoveJob(j, Running, None)], j)
    ensures env.now.Some? ==>
      Enabled(Apply(db, MoveJob(j, Running, None)), CallStart(j, env.now.value, env.startAnswer))
  {
    assert !Called(db.log + [MoveJob(j, Running, None)], j);
  }

  lemma OnlyCall(log: seq<Action>, j: JobId, plan: ExecutionPlan, now: Time, answer: StartAnswer)
    requires !Called(log, j)
    ensures DeclaredSafe(log + [CallStart(j, now, answer)], j) <==> answer == RaisedAdapterFailure(true)
    ensures AcceptedStart(plan, now, answer).Some? ==>
      AcceptedCall(log + [CallStart(j, now, answer)], j, plan, AcceptedStart(plan, now, answer).value)
  {
    var after := log + [CallStart(j, now, answer)];
    assert after[|log|] == CallStart(j, now, answer);
    assert forall i :: 0 <= i < |log| ==> after[i] == log[i];
  }

  /** The job a request is about to create has not been called. */
  lemma NewJobReady(init: Db, db: Db, job: Job)
    requires Run(init, db)
    ensures !Called(db.log + [CreateJob(job)], |db.jobs|)
    ensures job.request.StartRequest? && job.request.plan in db.executions && db.executions[job.request.plan].receipt.None? ==>
      db.executions[job.request.plan].cancelReceipt.None?
    ensures CreateAllowed(db, job) && job.request.StartRequest? ==>
      job.request.plan in db.executions && db.executions[job.request.plan].receipt.None?
  {
    Safety.Holds(init, db.log);
    hide Legal, Fold;
  }

  /** A start job still in `preflight` is the newest of its plan: its command has not been sent
      and no receipt is stored. */
  lemma PreflightReady(init: Db, db: Db, p: PlanId, j: JobId)
    requires Run(init, db)
    requires j < |db.jobs| && db.jobs[j].IsStartOf(p) && db.jobs[j].state == Preflight
    ensures !Called(db.log, j)
    ensures p in db.executions && db.executions[p].receipt.None? && db.executions[p].cancelReceipt.None?
  {
    Safety.Holds(init, db.log);
    hide Legal, Fold;
    if db.executions[p].receipt.Some? {
      var k := db.executions[p].receipt.value.job;
      assert Safety.SamePlanStarts(db.jobs[j], db.jobs[k]) && Safety.SamePlanStarts(db.jobs[k], db.jobs[j]);
    }
  }
}
