/**
  When a start, a retry or a cancel sends its command, and how it ends, said of the stored records, the
  request and what the provider answers.
 */
module EnrollmentAnswers {
  import opened Wrappers
  import opened Records
  import opened Protocol
  import opened DurableStore
  import opened Scripts
  import opened EnrollmentRuntime
  import opened JobKeys
  import opened Judgements
  import Recovery = EnrollmentRecovery

  // ----- what every operation asks for ----------------------------------------------------

  /** The actor is the one the plan was made for, the Household is the one it was made on, what it was
      derived from still yields it, and the provider's adapter is there. */
  predicate Permitted(db: Db, actor: Actor, plan: ExecutionPlan, env: Surroundings) {
    && BoundAs(db.household.bindings, actor, plan.actorMember)
    && db.household.snapshot == plan.snapshot && env.upstreamCurrent
    && plan.provider in env.adapters
  }

  lemma PermittedMeans(db: Db, actor: Actor, plan: ExecutionPlan, env: Surroundings)
    ensures Permitted(db, actor, plan, env) <==>
      Revalidation(db, actor, plan, env.upstreamCurrent).None? && plan.provider in env.adapters
  {
    MemberOfMeans(db.household.bindings, actor);
    hide BoundAs;
  }

  /** Which refusal the actor, the Household or a change upstream leads to. */
  lemma RevalidationMeans(db: Db, actor: Actor, plan: ExecutionPlan, upstreamCurrent: bool)
    ensures var refusal := Revalidation(db, actor, plan, upstreamCurrent);
      var bound := BoundAs(db.household.bindings, actor, plan.actorMember);
      var current := db.household.snapshot == plan.snapshot && upstreamCurrent;
      && (refusal.None? <==> bound && current)
      && (refusal == Some(ActorNotBound) <==> Unbound(db.household.bindings, actor))
      && (refusal == Some(ActorMismatch) <==> !bound && !Unbound(db.household.bindings, actor))
      && (refusal == Some(Stale) <==> bound && !current)
  {
    MemberOfMeans(db.household.bindings, actor);
    hide BoundAs, Unbound;
  }

  /** The job was asked for by this very request. */
  predicate Asked(job: Job, request: Request, actor: Actor, key: Option<Key>) {
    job.request == request && job.actor == actor && key == Some(job.key)
  }

  // ----- how an attempt ends --------------------------------------------------------------

  function ReceiptFor(p: PlanId, plan: ExecutionPlan, j: JobId, retryOf: Option<JobId>, accepted: StartResult): (r: StartReceipt)
    ensures r.job == j && r.retryOf == retryOf && r.plan == p && r.provider == plan.provider && r.device == plan.device
    ensures r.member == plan.member && r.operation == accepted.operation && r.artifact == accepted.artifact
  {
    ReceiptOf(p, plan, j, retryOf, accepted)
  }

  /** The envelope holds this receipt and is accepted; its plan stays. */
  predicate HoldsReceipt(was: Execution, e: Execution, receipt: StartReceipt) {
    e.plan == was.plan && e.status == Accepted && e.receipt == Some(receipt) && e.cancelReceipt == was.cancelReceipt
  }

  /** The last two effects of an accepted attempt: the job has succeeded, the receipt is stored. */
  predicate Finalizes(script: Script<StartReceipt>, k: nat, execution: Execution, p: PlanId, j: JobId, receipt: StartReceipt) {
    && |script.effects| == k + 2 && script.outcome == Success(receipt)
    && script.effects[k] == MoveJob(j, Succeeded, None)
    && script.effects[k + 1].PutExecution? && script.effects[k + 1].plan == p
    && HoldsReceipt(execution, script.effects[k + 1].execution, receipt)
  }

  /** After `k` effects the job runs.  Without the clock that is all; otherwise the command is sent, once.
      If the provider accepts it, that is stored, then the success of the job, then the receipt; if not,
      the job has failed, with the adapter's own claim of safety, and no receipt is stored. */
  predicate Attempts(script: Script<StartReceipt>, k: nat, execution: Execution, p: PlanId, j: JobId, retryOf: Option<JobId>, env: Surroundings) {
    && |script.effects| > k && script.effects[k] == MoveJob(j, Running, None)
    && if env.now.None? then |script.effects| == k + 1 && script.outcome == Failure(Refused(TrustedTimeInvalid))
       else
         && |script.effects| > k + 2 && script.effects[k + 1] == CallStart(j, env.now.value, env.startAnswer)
         && if Accepts(execution.plan, env.now.value, env.startAnswer) then
              && script.effects[k + 2] == MoveJob(j, Verifying, Some(ProviderAccepted(env.startAnswer.value.value)))
              && Finalizes(script, k + 3, execution, p, j, ReceiptFor(p, execution.plan, j, retryOf, env.startAnswer.value.value))
            else
              && |script.effects| == k + 3
              && script.effects[k + 2] == MoveJob(j, Failed, Some(StartFailed(env.startAnswer == RaisedAdapterFailure(true))))
              && script.outcome == Failure(Refused(
                   match env.startAnswer
                   case Answered(_) => ResultRejected
                   case RaisedAdapterFailure(_) => ProviderFailure
                   case RaisedTimeout => ProviderTimeout
                   case RaisedOther => ProviderError))
  }

  lemma DriveAttempts(execution: Execution, p: PlanId, j: JobId, retryOf: Option<JobId>, env: Surroundings)
    ensures Attempts(DriveScript(execution, p, j, retryOf, env), 0, execution, p, j, retryOf, env)
  {
    if env.now.Some? {
      AcceptedStartMeans(execution.plan, env.now.value, env.startAnswer);
    }
    hide AcceptedStart, Accepts;
  }

  lemma CreatedAttempts(job: Job, execution: Execution, p: PlanId, j: JobId, retryOf: Option<JobId>, env: Surroundings)
    ensures var drive := DriveScript(execution, p, j, retryOf, env);
      Attempts(Script([CreateJob(job)] + drive.effects, drive.outcome), 1, execution, p, j, retryOf, env)
  {
    DriveAttempts(execution, p, j, retryOf, env);
    hide DriveScript, Accepts;
  }

  predicate Refuses<T>(script: Script<T>) {
    script.effects == [] && script.outcome.Failure?
  }

  /** A receipt is stored, and it belongs to a succeeded job of this action with this key. */
  predicate Replays(db: Db, p: PlanId, action: JobAction, key: Option<Key>) {
    && p in db.executions && db.executions[p].receipt.Some?
    && var j := db.executions[p].receipt.value.job;
    && j < |db.jobs| && db.jobs[j].request.Action() == action && db.jobs[j].state == Succeeded && key == Some(db.jobs[j].key)
  }

  /** The stored acceptance of a job, with the artifact the plan asks for. */
  predicate AcceptanceStored(job: Job, plan: ExecutionPlan) {
    && job.result.Some? && job.result.value.ProviderAccepted?
    && var artifact := job.result.value.accepted.artifact;
    && (artifact.Some? <==> plan.artifact != NoArtifact) && (artifact.Some? ==> artifact.value.kind == plan.artifact)
  }

  // ----- start ----------------------------------------------------------------------------

  /** The start is well formed and permitted, and no receipt is stored. */
  predicate MayStart(db: Db, actor: Actor, form: StartForm, env: Surroundings) {
    && form.plan in db.executions && db.executions[form.plan].receipt.None?
    && form.wellFormed && form.key.Some?
    && Permitted(db, actor, db.executions[form.plan].plan, env)
  }

  /** Neither the plan nor the key has a job yet. */
  predicate FirstStart(db: Db, actor: Actor, form: StartForm) {
    form.key.Some? && FirstOfPlan(db.jobs, form.plan) && KeyUnused(db.jobs, Recovery.FirstJob(actor, form))
  }

  /** The plan's only job is the one this very request created, and it was left in this state. */
  predicate StartLeft(db: Db, actor: Actor, form: StartForm, j: JobId, state: JobState) {
    && j < |db.jobs| && db.jobs[j].state == state && Asked(db.jobs[j], StartRequest(form.plan, None), actor, form.key)
    && forall i :: 0 <= i < |db.jobs| && db.jobs[i].IsStartOf(form.plan) ==> i == j
  }

  /** ... and the provider had accepted it. */
  predicate StartAcceptedBefore(db: Db, actor: Actor, form: StartForm, j: JobId) {
    && form.plan in db.executions && db.executions[form.plan].receipt.None?
    && StartLeft(db, actor, form, j, Verifying) && AcceptanceStored(db.jobs[j], db.executions[form.plan].plan)
  }

  lemma TwoDiffer(ids: seq<JobId>)
    requires |ids| > 1 && forall i, k :: 0 <= i < k < |ids| ==> ids[k] < ids[i]
    ensures ids[0] in ids && ids[1] in ids && ids[0] != ids[1]
  {
  }

  lemma OnlyListed(jobs: seq<Job>, p: PlanId, j: JobId)
    requires j < |jobs| && jobs[j].IsStartOf(p) && forall i :: 0 <= i < |jobs| && jobs[i].IsStartOf(p) ==> i == j
    ensures StartJobs(jobs, p) == [j]
  {
    hide StartJobs;
    var listed := StartJobs(jobs, p);
    assert j in listed;
    if |listed| > 1 {
      TwoDiffer(listed);
    }
  }

  lemma FirstStarts(db: Db, actor: Actor, form: StartForm, env: Surroundings)
    requires MayStart(db, actor, form, env) && FirstStart(db, actor, form)
    ensures var script := StartScript(db, actor, form, env);
      && |script.effects| > 0 && script.effects[0] == CreateJob(Recovery.FirstJob(actor, form))
      && Attempts(script, 1, db.executions[form.plan], form.plan, |db.jobs|, None, env)
  {
    Recovery.FirstHasNone(db.jobs, form.plan);
    PermittedMeans(db, actor, db.executions[form.plan].plan, env);
    CreatedAttempts(Recovery.FirstJob(actor, form), db.executions[form.plan], form.plan, |db.jobs|, None, env);
    hide Permitted, Revalidation, DriveScript, Attempts, StartJobs, FindKey;
  }

  lemma LeftStarts(db: Db, actor: Actor, form: StartForm, env: Surroundings, j: JobId)
    requires KeysDistinct(db.jobs) && MayStart(db, actor, form, env) && StartLeft(db, actor, form, j, Preflight)
    ensures Attempts(StartScript(db, actor, form, env), 0, db.executions[form.plan], form.plan, j, None, env)
  {
    OnlyListed(db.jobs, form.plan, j);
    FoundByKey(db.jobs, j, Recovery.FirstJob(actor, form));
    PermittedMeans(db, actor, db.executions[form.plan].plan, env);
    DriveAttempts(db.executions[form.plan], form.plan, j, None, env);
    hide Permitted, Revalidation, DriveScript, Attempts, StartJobs, FindKey;
  }

  lemma AcceptedStarts(db: Db, actor: Actor, form: StartForm, env: Surroundings, j: JobId)
    requires StartAcceptedBefore(db, actor, form, j)
    ensures Finalizes(StartScript(db, actor, form, env), 0, db.executions[form.plan], form.plan, j,
                      ReceiptFor(form.plan, db.executions[form.plan].plan, j, None, db.jobs[j].result.value.accepted))
  {
    OnlyListed(db.jobs, form.plan, j);
    hide StartJobs;
  }

  lemma ReplaysStart(db: Db, actor: Actor, form: StartForm, env: Surroundings)
    requires Replays(db, form.plan, StartAction, form.key)
    ensures StartScript(db, actor, form, env) == Script([], Success(db.executions[form.plan].receipt.value))
  {
    hide StartJobs;
  }

  /** The request leads to a command, or would if the clock could be read. */
  predicate StartDrives(db: Db, actor: Actor, form: StartForm, env: Surroundings) {
    && MayStart(db, actor, form, env)
    && (FirstStart(db, actor, form) || exists j: JobId :: j < |db.jobs| && StartLeft(db, actor, form, j, Preflight))
  }

  lemma SubmitRefuses(db: Db, actor: Actor, p: PlanId, key: Option<Key>, retryOf: Option<JobId>, env: Surroundings)
    requires key.None? || p !in db.executions || !Permitted(db, actor, db.executions[p].plan, env)
    ensures Refuses(SubmitScript(db, actor, p, key, retryOf, env))
  {
    if p in db.executions {
      PermittedMeans(db, actor, db.executions[p].plan, env);
    }
    hide Permitted, Revalidation, QueueScript;
  }

  /** The guard lets nothing but a replay and a first start through. */
  lemma GuardRefuses(db: Db, actor: Actor, form: StartForm, env: Surroundings)
    requires form.plan in db.executions && !Replays(db, form.plan, StartAction, form.key)
    requires !(MayStart(db, actor, form, env) && FirstStart(db, actor, form))
    ensures Refuses(GuardedStartScript(db, actor, form, env))
  {
    Recovery.FirstHasNone(db.jobs, form.plan);
    if StartJobs(db.jobs, form.plan) != [] {
      HistoryRefuses(db, actor, form, env);
    } else if form.key.None? || !Permitted(db, actor, db.executions[form.plan].plan, env) {
      SubmitRefuses(db, actor, form.plan, form.key, None, env);
    } else if !FirstStart(db, actor, form) {
      OtherPlansKey(db, actor, form, env);
    }
    hide StartJobs, Permitted, Revalidation, QueueScript, FirstOfPlan;
  }

  lemma AnyHere(jobs: seq<Job>, ids: seq<JobId>, states: set<JobState>)
    requires forall i :: 0 <= i < |ids| ==> ids[i] < |jobs|
    requires ids != [] && jobs[ids[0]].state in states
    ensures AnyIn(jobs, ids, states)
  {
  }

  lemma HistoryRefuses(db: Db, actor: Actor, form: StartForm, env: Surroundings)
    requires form.plan in db.executions && !Replays(db, form.plan, StartAction, form.key) && StartJobs(db.jobs, form.plan) != []
    ensures Refuses(GuardedStartScript(db, actor, form, env))
  {
    var previous := StartJobs(db.jobs, form.plan);
    hide StartJobs, SubmitScript, AnyIn;
    match db.jobs[previous[0]].state
    case Failed => AnyHere(db.jobs, previous, {Failed});
    case Succeeded => AnyHere(db.jobs, previous, {Succeeded});
    case _ => AnyHere(db.jobs, previous, {Preflight, Running, Verifying});
  }

  /** What was left in `preflight` is not driven, and what was left verifying not finalized. */
  lemma LeftRefuses(db: Db, actor: Actor, form: StartForm, env: Surroundings, j: JobId)
    requires form.plan in db.executions && db.executions[form.plan].receipt.None?
    requires StartJobs(db.jobs, form.plan) == [j] && j < |db.jobs| && SameRequest(db.jobs[j], actor, StartAction, form.key)
    requires db.jobs[j].state == Preflight ==> !MayStart(db, actor, form, env)
    requires db.jobs[j].state == Verifying ==> !AcceptanceStored(db.jobs[j], db.executions[form.plan].plan)
    requires db.jobs[j].state == Preflight || db.jobs[j].state == Verifying
    ensures Refuses(StartScript(db, actor, form, env))
  {
    if db.jobs[j].state == Preflight && form.wellFormed {
      SubmitRefuses(db, actor, form.plan, form.key, None, env);
    }
    hide StartJobs, Permitted, SubmitScript, FinalizeScript, GuardedStartScript;
  }

  /** In all other cases nothing is done. */
  lemma OtherStarts(db: Db, actor: Actor, form: StartForm, env: Surroundings)
    requires !StartDrives(db, actor, form, env)
    requires !Replays(db, form.plan, StartAction, form.key)
    requires forall j: JobId :: !StartAcceptedBefore(db, actor, form, j)
    ensures Refuses(StartScript(db, actor, form, env))
  {
    if form.plan in db.executions {
      var previous := StartJobs(db.jobs, form.plan);
      GuardRefuses(db, actor, form, env);
      if |previous| == 1 && db.executions[form.plan].receipt.None? && SameRequest(db.jobs[previous[0]], actor, StartAction, form.key) {
        OnlyOne(db.jobs, form.plan);
        var j := previous[0];
        assert !StartAcceptedBefore(db, actor, form, j);
        assert db.jobs[j].state == Preflight ==> StartLeft(db, actor, form, j, Preflight);
        hide StartScript, StartJobs, MayStart, FirstStart, AcceptanceStored, Replays, Refuses, GuardedStartScript;
        if db.jobs[j].state == Preflight || db.jobs[j].state == Verifying {
          LeftRefuses(db, actor, form, env, j);
        } else {
          GoesToGuard(db, actor, form, env);
        }
      } else {
        GoesToGuard(db, actor, form, env);
      }
    }
  }

  lemma GoesToGuard(db: Db, actor: Actor, form: StartForm, env: Surroundings)
    requires form.plan in db.executions
    requires var previous := StartJobs(db.jobs, form.plan);
      || |previous| != 1 || db.executions[form.plan].receipt.Some? || !SameRequest(db.jobs[previous[0]], actor, StartAction, form.key)
      || db.jobs[previous[0]].state !in {Preflight, Verifying}
    ensures StartScript(db, actor, form, env) == GuardedStartScript(db, actor, form, env)
  {
    hide StartJobs, GuardedStartScript, SubmitScript;
  }

  lemma OnlyOne(jobs: seq<Job>, p: PlanId)
    requires |StartJobs(jobs, p)| == 1
    ensures forall i :: 0 <= i < |jobs| && jobs[i].IsStartOf(p) ==> i == StartJobs(jobs, p)[0]
  {
    hide StartJobs;
    var listed := StartJobs(jobs, p);
    forall i | 0 <= i < |jobs| && jobs[i].IsStartOf(p) ensures i == listed[0] {
      assert i in listed;
    }
  }

  /** The key belongs to a job of another plan. */
  lemma OtherPlansKey(db: Db, actor: Actor, form: StartForm, env: Surroundings)
    requires form.plan in db.executions && form.key.Some? && FirstOfPlan(db.jobs, form.plan)
    requires !KeyUnused(db.jobs, Recovery.FirstJob(actor, form))
    ensures QueueScript(db, actor, form.plan, form.key.value, None, env) == Refuse(IdempotencyConflict)
  {
    hide FindKey, DriveScript;
    var found := FindKey(db.jobs, Recovery.FirstJob(actor, form));
    assert !db.jobs[found.value].IsStartOf(form.plan);
  }

  predicate Sends(effects: seq<Action>) {
    exists i :: 0 <= i < |effects| && effects[i].CallStart?
  }

  lemma AttemptSends(script: Script<StartReceipt>, k: nat, execution: Execution, p: PlanId, j: JobId, retryOf: Option<JobId>, env: Surroundings)
    requires Attempts(script, k, execution, p, j, retryOf, env) && k <= 1 && (k == 1 ==> script.effects[0].CreateJob?)
    ensures Sends(script.effects) <==> env.now.Some?
    ensures script.outcome.Success? <==> env.now.Some? && Accepts(execution.plan, env.now.value, env.startAnswer)
  {
    hide Accepts;
    if env.now.Some? {
      assert script.effects[k + 1].CallStart?;
    }
  }

  /** A start sends its command if and only if it is well formed, the actor, the Household, what the plan
      was derived from and the adapter are as the plan needs them, the clock can be read, no receipt is
      stored, and the plan has no job or only the one that this request left before any command. */
  lemma StartSendsIff(db: Db, actor: Actor, form: StartForm, env: Surroundings)
    requires KeysDistinct(db.jobs)
    ensures Sends(StartScript(db, actor, form, env).effects) <==> StartDrives(db, actor, form, env) && env.now.Some?
    ensures StartDrives(db, actor, form, env) ==> form.plan in db.executions
    ensures StartScript(db, actor, form, env).outcome.Success? <==>
      || (StartDrives(db, actor, form, env) && env.now.Some? && Accepts(db.executions[form.plan].plan, env.now.value, env.startAnswer))
      || Replays(db, form.plan, StartAction, form.key)
      || exists j: JobId :: j < |db.jobs| && StartAcceptedBefore(db, actor, form, j)
  {
    var script := StartScript(db, actor, form, env);
    StartExcludes(db, actor, form, env);
    hide StartScript, MayStart, FirstStart, StartLeft, StartAcceptedBefore, Replays, Attempts, Accepts, KeysDistinct;
    if Replays(db, form.plan, StartAction, form.key) {
      ReplaysStart(db, actor, form, env);
    } else if j: JobId :| j < |db.jobs| && StartAcceptedBefore(db, actor, form, j) {
      AcceptedStarts(db, actor, form, env, j);
    } else if StartDrives(db, actor, form, env) {
      if FirstStart(db, actor, form) {
        FirstStarts(db, actor, form, env);
        AttemptSends(script, 1, db.executions[form.plan], form.plan, |db.jobs|, None, env);
      } else {
        var j: JobId :| j < |db.jobs| && StartLeft(db, actor, form, j, Preflight);
        LeftStarts(db, actor, form, env, j);
        AttemptSends(script, 0, db.executions[form.plan], form.plan, j, None, env);
      }
    } else {
      OtherStarts(db, actor, form, env);
    }
  }

  lemma StartExcludes(db: Db, actor: Actor, form: StartForm, env: Surroundings)
    ensures MayStart(db, actor, form, env) ==> form.plan in db.executions
    ensures Replays(db, form.plan, StartAction, form.key) ==> !MayStart(db, actor, form, env)
    ensures forall j: JobId :: StartAcceptedBefore(db, actor, form, j) ==> j < |db.jobs| && !StartDrives(db, actor, form, env)
  {
  }

  // ----- retry ----------------------------------------------------------------------------

  /** The retry is well formed and permitted, no receipt is stored, and the job it names failed safely. */
  predicate MayRetry(db: Db, actor: Actor, form: RetryForm, env: Surroundings) {
    && form.plan in db.executions && db.executions[form.plan].receipt.None?
    && form.wellFormed && form.key.Some?
    && Permitted(db, actor, db.executions[form.plan].plan, env)
    && form.failedJob < |db.jobs| && db.jobs[form.failedJob].IsStartOf(form.plan) && db.jobs[form.failedJob].RetrySafe()
  }

  /** The key has no job yet, every attempt has failed, and the one named is the newest. */
  predicate FirstRetry(db: Db, actor: Actor, form: RetryForm) {
    && form.key.Some? && KeyUnused(db.jobs, Recovery.RetryJob(actor, form))
    && (exists i :: 0 <= i < |db.jobs| && db.jobs[i].IsStartOf(form.plan))
    && forall i :: 0 <= i < |db.jobs| && db.jobs[i].IsStartOf(form.plan) ==> db.jobs[i].state == Failed && i <= form.failedJob
  }

  /** The newest attempt is the one this very request created after the one named, which failed safely,
      and it was left in this state. */
  predicate RetryLeft(db: Db, actor: Actor, form: RetryForm, j: JobId, state: JobState) {
    && form.failedJob < j < |db.jobs| && db.jobs[j].state == state
    && Asked(db.jobs[j], StartRequest(form.plan, Some(form.failedJob)), actor, form.key)
    && db.jobs[form.failedJob].IsStartOf(form.plan) && db.jobs[form.failedJob].RetrySafe()
    && forall i :: 0 <= i < |db.jobs| && db.jobs[i].IsStartOf(form.plan) ==> i == j || i <= form.failedJob
  }

  predicate RetryAcceptedBefore(db: Db, actor: Actor, form: RetryForm, j: JobId) {
    && form.plan in db.executions && db.executions[form.plan].receipt.None?
    && RetryLeft(db, actor, form, j, Verifying) && AcceptanceStored(db.jobs[j], db.executions[form.plan].plan)
  }

  predicate RetryDrives(db: Db, actor: Actor, form: RetryForm, env: Surroundings) {
    && MayRetry(db, actor, form, env)
    && (FirstRetry(db, actor, form) || exists j: JobId :: j < |db.jobs| && RetryLeft(db, actor, form, j, Preflight))
  }

  lemma NewestListed(jobs: seq<Job>, p: PlanId, j: JobId)
    requires j < |jobs| && jobs[j].IsStartOf(p) && forall i :: 0 <= i < |jobs| && jobs[i].IsStartOf(p) ==> i <= j
    ensures StartJobs(jobs, p) != [] && StartJobs(jobs, p)[0] == j
  {
    hide StartJobs;
    assert j in StartJobs(jobs, p);
  }

  /** The two newest attempts. */
  lemma TwoListed(jobs: seq<Job>, p: PlanId, older: JobId, j: JobId)
    requires older < j < |jobs| && jobs[j].IsStartOf(p) && jobs[older].IsStartOf(p)
    requires forall i :: 0 <= i < |jobs| && jobs[i].IsStartOf(p) ==> i == j || i <= older
    ensures |StartJobs(jobs, p)| >= 2 && StartJobs(jobs, p)[0] == j && StartJobs(jobs, p)[1] == older
  {
    hide StartJobs;
    var listed := StartJobs(jobs, p);
    assert j in listed && older in listed;
  }

  lemma ListedTwo(jobs: seq<Job>, p: PlanId)
    requires |StartJobs(jobs, p)| >= 2
    ensures var listed := StartJobs(jobs, p);
      && listed[1] < listed[0] && (forall i :: 0 <= i < |jobs| && jobs[i].IsStartOf(p) ==> i == listed[0] || i <= listed[1])
  {
    hide StartJobs;
    var listed := StartJobs(jobs, p);
    forall i | 0 <= i < |jobs| && jobs[i].IsStartOf(p) ensures i == listed[0] || i <= listed[1] {
      assert i in listed;
    }
  }

  /** The guard over the job history lets a retry through if and only if every attempt has failed. */
  lemma AllFailed(jobs: seq<Job>, p: PlanId)
    ensures var listed := StartJobs(jobs, p);
      (!AnyIn(jobs, listed, {Preflight, Running, Verifying}) && !AnyIn(jobs, listed, {Succeeded})) <==>
        forall i :: 0 <= i < |jobs| && jobs[i].IsStartOf(p) ==> jobs[i].state == Failed
  {
    hide StartJobs;
    var listed := StartJobs(jobs, p);
    if i :| 0 <= i < |jobs| && jobs[i].IsStartOf(p) && jobs[i].state != Failed {
      assert i in listed;
      var k :| 0 <= k < |listed| && listed[k] == i;
      assert jobs[listed[k]].state in {Preflight, Running, Verifying} || jobs[listed[k]].state in {Succeeded};
    }
  }

  lemma FirstRetries(db: Db, actor: Actor, form: RetryForm, env: Surroundings)
    requires MayRetry(db, actor, form, env) && FirstRetry(db, actor, form)
    ensures var script := RetryScript(db, actor, form, env);
      && |script.effects| > 0 && script.effects[0] == CreateJob(Recovery.RetryJob(actor, form))
      && Attempts(script, 1, db.executions[form.plan], form.plan, |db.jobs|, Some(form.failedJob), env)
  {
    NewestListed(db.jobs, form.plan, form.failedJob);
    AllFailed(db.jobs, form.plan);
    NotResumed(db, actor, form);
    PermittedMeans(db, actor, db.executions[form.plan].plan, env);
    CreatedAttempts(Recovery.RetryJob(actor, form), db.executions[form.plan], form.plan, |db.jobs|, Some(form.failedJob), env);
    hide Permitted, Revalidation, DriveScript, Attempts, StartJobs, FindKey, AnyIn, ResumesRetry;
  }

  lemma NotResumed(db: Db, actor: Actor, form: RetryForm)
    requires form.key.Some? && KeyUnused(db.jobs, Recovery.RetryJob(actor, form))
    ensures !ResumesRetry(db, actor, form)
  {
    hide StartJobs;
    var previous := StartJobs(db.jobs, form.plan);
    if |previous| >= 2 {
      assert !db.jobs[previous[0]].SameKey(Recovery.RetryJob(actor, form));
    }
  }

  lemma Resumed(db: Db, actor: Actor, form: RetryForm, j: JobId, state: JobState)
    requires form.plan in db.executions && db.executions[form.plan].receipt.None? && RetryLeft(db, actor, form, j, state)
    ensures ResumesRetry(db, actor, form) && StartJobs(db.jobs, form.plan) != [] && StartJobs(db.jobs, form.plan)[0] == j
  {
    TwoListed(db.jobs, form.plan, form.failedJob, j);
    hide StartJobs;
  }

  lemma LeftRetries(db: Db, actor: Actor, form: RetryForm, env: Surroundings, j: JobId)
    requires KeysDistinct(db.jobs) && MayRetry(db, actor, form, env) && RetryLeft(db, actor, form, j, Preflight)
    ensures Attempts(RetryScript(db, actor, form, env), 0, db.executions[form.plan], form.plan, j, Some(form.failedJob), env)
  {
    Resumed(db, actor, form, j, Preflight);
    FoundByKey(db.jobs, j, Recovery.RetryJob(actor, form));
    PermittedMeans(db, actor, db.executions[form.plan].plan, env);
    DriveAttempts(db.executions[form.plan], form.plan, j, Some(form.failedJob), env);
    hide Permitted, Revalidation, DriveScript, Attempts, StartJobs, FindKey, ResumesRetry, KeysDistinct;
  }

  lemma AcceptedRetries(db: Db, actor: Actor, form: RetryForm, env: Surroundings, j: JobId)
    requires RetryAcceptedBefore(db, actor, form, j)
    ensures Finalizes(RetryScript(db, actor, form, env), 0, db.executions[form.plan], form.plan, j,
                      ReceiptFor(form.plan, db.executions[form.plan].plan, j, Some(form.failedJob), db.jobs[j].result.value.accepted))
  {
    Resumed(db, actor, form, j, Verifying);
    hide StartJobs, ResumesRetry;
  }

  lemma ReplaysRetry(db: Db, actor: Actor, form: RetryForm, env: Surroundings)
    requires Replays(db, form.plan, RetryAction, form.key)
    ensures RetryScript(db, actor, form, env) == Script([], Success(db.executions[form.plan].receipt.value))
  {
    hide StartJobs;
  }

  lemma ResubmitRefuses(db: Db, actor: Actor, form: RetryForm, env: Surroundings)
    requires form.plan in db.executions && db.executions[form.plan].receipt.None? && !MayRetry(db, actor, form, env)
    ensures Refuses(ResubmitScript(db, actor, form, env))
  {
    if form.key.None? || !Permitted(db, actor, db.executions[form.plan].plan, env) {
      SubmitRefuses(db, actor, form.plan, form.key, Some(form.failedJob), env);
    }
    hide Permitted, SubmitScript;
  }

  /** The key belongs to another job, or to an attempt that has failed. */
  lemma UsedKeyRefuses(db: Db, actor: Actor, form: RetryForm, env: Surroundings)
    requires form.plan in db.executions && form.key.Some? && !KeyUnused(db.jobs, Recovery.RetryJob(actor, form))
    requires forall i :: 0 <= i < |db.jobs| && db.jobs[i].IsStartOf(form.plan) ==> db.jobs[i].state == Failed
    ensures Refuses(QueueScript(db, actor, form.plan, form.key.value, Some(form.failedJob), env))
  {
    hide FindKey, DriveScript;
    var found := FindKey(db.jobs, Recovery.RetryJob(actor, form));
    assert db.jobs[found.value].request == StartRequest(form.plan, Some(form.failedJob)) ==> db.jobs[found.value].IsStartOf(form.plan);
  }

  lemma UnusableKeyRefuses(db: Db, actor: Actor, form: RetryForm, env: Surroundings)
    requires MayRetry(db, actor, form, env) && !KeyUnused(db.jobs, Recovery.RetryJob(actor, form))
    requires forall i :: 0 <= i < |db.jobs| && db.jobs[i].IsStartOf(form.plan) ==> db.jobs[i].state == Failed
    ensures Refuses(ResubmitScript(db, actor, form, env))
  {
    UsedKeyRefuses(db, actor, form, env);
    PermittedMeans(db, actor, db.executions[form.plan].plan, env);
    hide Permitted, Revalidation, QueueScript, KeyUnused;
  }

  lemma NewestRefuses(db: Db, actor: Actor, form: RetryForm, env: Surroundings)
    requires form.plan in db.executions && db.executions[form.plan].receipt.None?
    requires !(MayRetry(db, actor, form, env) && FirstRetry(db, actor, form))
    requires var previous := StartJobs(db.jobs, form.plan);
      && previous != [] && previous[0] == form.failedJob
      && !AnyIn(db.jobs, previous, {Preflight, Running, Verifying}) && !AnyIn(db.jobs, previous, {Succeeded})
    ensures Refuses(ResubmitScript(db, actor, form, env))
  {
    AllFailed(db.jobs, form.plan);
    Recovery.NewestFirst(db.jobs, form.plan);
    assert db.jobs[StartJobs(db.jobs, form.plan)[0]].IsStartOf(form.plan);
    hide StartJobs, AnyIn, ResubmitScript, Permitted;
    if MayRetry(db, actor, form, env) {
      UnusableKeyRefuses(db, actor, form, env);
    } else {
      ResubmitRefuses(db, actor, form, env);
    }
  }

  lemma RetryGuardRefuses(db: Db, actor: Actor, form: RetryForm, env: Surroundings)
    requires form.plan in db.executions && !Replays(db, form.plan, RetryAction, form.key)
    requires !(MayRetry(db, actor, form, env) && FirstRetry(db, actor, form))
    ensures Refuses(GuardedRetryScript(db, actor, form, env))
  {
    var previous := StartJobs(db.jobs, form.plan);
    hide StartJobs, AnyIn, ResubmitScript, MayRetry, FirstRetry;
    if db.executions[form.plan].receipt.None? && previous != [] && previous[0] == form.failedJob
       && !AnyIn(db.jobs, previous, {Preflight, Running, Verifying}) && !AnyIn(db.jobs, previous, {Succeeded}) {
      NewestRefuses(db, actor, form, env);
    }
  }

  /** In all other cases nothing is done. */
  lemma OtherRetries(db: Db, actor: Actor, form: RetryForm, env: Surroundings)
    requires !RetryDrives(db, actor, form, env)
    requires !Replays(db, form.plan, RetryAction, form.key)
    requires forall j: JobId :: !RetryAcceptedBefore(db, actor, form, j)
    ensures Refuses(RetryScript(db, actor, form, env))
  {
    if form.plan in db.executions {
      RetryGuardRefuses(db, actor, form, env);
      if ResumesRetry(db, actor, form) {
        var j := StartJobs(db.jobs, form.plan)[0];
        ListedTwo(db.jobs, form.plan);
        assert RetryLeft(db, actor, form, j, db.jobs[j].state);
        assert !RetryAcceptedBefore(db, actor, form, j);
        if db.jobs[j].state == Preflight {
          ResubmitRefuses(db, actor, form, env);
        }
      }
      hide StartJobs, MayRetry, FirstRetry, RetryLeft, ResumesRetry, ResubmitScript, GuardedRetryScript, Replays, FinalizeScript;
    }
  }

  /** A retry sends its command if and only if it is permitted like a start, and the newest attempt is the
      one it names, which failed safely after all others failed - or is the one that this request left
      before any command. */
  lemma RetrySendsIff(db: Db, actor: Actor, form: RetryForm, env: Surroundings)
    requires KeysDistinct(db.jobs)
    ensures Sends(RetryScript(db, actor, form, env).effects) <==> RetryDrives(db, actor, form, env) && env.now.Some?
    ensures RetryDrives(db, actor, form, env) ==> form.plan in db.executions
    ensures RetryScript(db, actor, form, env).outcome.Success? <==>
      || (RetryDrives(db, actor, form, env) && env.now.Some? && Accepts(db.executions[form.plan].plan, env.now.value, env.startAnswer))
      || Replays(db, form.plan, RetryAction, form.key)
      || exists j: JobId :: j < |db.jobs| && RetryAcceptedBefore(db, actor, form, j)
  {
    var script := RetryScript(db, actor, form, env);
    RetryExcludes(db, actor, form, env);
    hide RetryScript, MayRetry, FirstRetry, RetryLeft, RetryAcceptedBefore, Replays, Attempts, Accepts, KeysDistinct;
    if Replays(db, form.plan, RetryAction, form.key) {
      ReplaysRetry(db, actor, form, env);
    } else if j: JobId :| j < |db.jobs| && RetryAcceptedBefore(db, actor, form, j) {
      AcceptedRetries(db, actor, form, env, j);
    } else if RetryDrives(db, actor, form, env) {
      if FirstRetry(db, actor, form) {
        FirstRetries(db, actor, form, env);
        AttemptSends(script, 1, db.executions[form.plan], form.plan, |db.jobs|, Some(form.failedJob), env);
      } else {
        var j: JobId :| j < |db.jobs| && RetryLeft(db, actor, form, j, Preflight);
        LeftRetries(db, actor, form, env, j);
        AttemptSends(script, 0, db.executions[form.plan], form.plan, j, Some(form.failedJob), env);
      }
    } else {
      OtherRetries(db, actor, form, env);
    }
  }

  lemma RetryExcludes(db: Db, actor: Actor, form: RetryForm, env: Surroundings)
    ensures MayRetry(db, actor, form, env) ==> form.plan in db.executions
    ensures Replays(db, form.plan, RetryAction, form.key) ==> !MayRetry(db, actor, form, env)
    ensures forall j: JobId :: RetryAcceptedBefore(db, actor, form, j) ==> j < |db.jobs| && !RetryDrives(db, actor, form, env)
  {
  }

  // ----- cancel ---------------------------------------------------------------------------

  function CancelJob(actor: Actor, form: CancelForm, operation: OperationId): Job
    requires form.key.Some?
  {
    Job(CancelRequest(form.plan, form.startJob), actor, form.key.value, Some(operation), Preflight, None)
  }

  /** The accepted start that the request names is the plan's, and no cancel receipt is stored. */
  predicate Cancellable(db: Db, form: CancelForm) {
    && form.plan in db.executions && db.executions[form.plan].cancelReceipt.None?
    && db.executions[form.plan].receipt.Some? && db.executions[form.plan].receipt.value.job == form.startJob
  }

  predicate MayCancel(db: Db, actor: Actor, form: CancelForm, env: Surroundings) {
    Cancellable(db, form) && Permitted(db, actor, db.executions[form.plan].plan, env)
  }

  /** The request is well formed, and neither the plan nor the key has a cancel job yet. */
  predicate FirstCancel(db: Db, actor: Actor, form: CancelForm) {
    form.wellFormed && form.key.Some? && NoCancelOf(db.jobs, form.plan) && KeyUnused(db.jobs, CancelJob(actor, form, 0))
  }

  /** The plan's only cancel job was created by this actor with this key for the operation of the stored
      receipt, and it was left in this state. */
  predicate CancelLeft(db: Db, actor: Actor, form: CancelForm, j: JobId, state: JobState) {
    && j < |db.jobs| && db.jobs[j].state == state && db.jobs[j].IsCancelOf(form.plan)
    && db.jobs[j].actor == actor && form.key == Some(db.jobs[j].key)
    && (forall i :: 0 <= i < |db.jobs| && db.jobs[i].IsCancelOf(form.plan) ==> i == j)
    && form.plan in db.executions && db.executions[form.plan].receipt.Some?
    && db.jobs[j].operation == Some(db.executions[form.plan].receipt.value.operation)
  }

  predicate CancelDrives(db: Db, actor: Actor, form: CancelForm, env: Surroundings) {
    && MayCancel(db, actor, form, env)
    && (FirstCancel(db, actor, form) || exists j: JobId :: j < |db.jobs| && CancelLeft(db, actor, form, j, Preflight))
  }

  /** The acknowledgement is stored, by an operation that resumed the cancel. */
  predicate CancelAcknowledgedBefore(db: Db, actor: Actor, form: CancelForm, j: JobId) {
    Cancellable(db, form) && CancelLeft(db, actor, form, j, Verifying) && db.jobs[j].result == Some(CancelAcknowledged(true))
  }

  /** A cancel receipt is stored, and it belongs to a succeeded cancel job with this key. */
  predicate CancelReplays(db: Db, form: CancelForm) {
    && form.plan in db.executions && db.executions[form.plan].cancelReceipt.Some?
    && var j := db.executions[form.plan].cancelReceipt.value.job;
    && j < |db.jobs| && db.jobs[j].request.CancelRequest? && db.jobs[j].state == Succeeded && form.key == Some(db.jobs[j].key)
  }

  /** The last two effects of a cancel: the job has succeeded, the cancel receipt is stored beside the
      start receipt and names its operation. */
  predicate EndsCancelled(script: Script<CancelReceipt>, k: nat, execution: Execution, form: CancelForm, j: JobId)
    requires execution.receipt.Some?
  {
    var receipt := CancelReceipt(j, form.startJob, form.plan, execution.plan.provider, execution.receipt.value.operation);
    && |script.effects| == k + 2 && script.outcome == Success(receipt)
    && script.effects[k] == MoveJob(j, Succeeded, None)
    && script.effects[k + 1].PutExecution? && script.effects[k + 1].plan == form.plan
    && var e := script.effects[k + 1].execution;
    && e.plan == execution.plan && e.receipt == execution.receipt
    && e.status == CancelRequested && e.cancelReceipt == Some(receipt)
  }

  /** After `k` effects the job runs and the command is sent.  If the adapter acknowledges it, that is stored
      and the cancel receipt with it; if not, the job has failed and nothing of it is stored. */
  predicate Cancels(script: Script<CancelReceipt>, k: nat, execution: Execution, form: CancelForm, j: JobId, twoFields: bool, acknowledged: bool)
    requires execution.receipt.Some?
  {
    && |script.effects| > k + 2
    && script.effects[k] == MoveJob(j, Running, None)
    && script.effects[k + 1] == CallCancel(j, execution.receipt.value.operation)
    && if acknowledged then
         script.effects[k + 2] == MoveJob(j, Verifying, Some(CancelAcknowledged(twoFields))) && EndsCancelled(script, k + 3, execution, form, j)
       else
         && |script.effects| == k + 3 && script.effects[k + 2] == MoveJob(j, Failed, Some(Noted))
         && script.outcome == Failure(Refused(ProviderError))
  }

  lemma CreatedCancels(job: Job, execution: Execution, form: CancelForm, j: JobId, acknowledged: bool)
    requires execution.receipt.Some?
    ensures var drive := CancelDrive(execution, form.plan, j, form.startJob, execution.receipt.value.operation, false, acknowledged);
      Cancels(Script([CreateJob(job)] + drive.effects, drive.outcome), 1, execution, form, j, false, acknowledged)
  {
  }

  lemma FirstCancels(db: Db, actor: Actor, form: CancelForm, env: Surroundings)
    requires MayCancel(db, actor, form, env) && FirstCancel(db, actor, form)
    ensures var script, execution := CancelScript(db, actor, form, env), db.executions[form.plan];
      && |script.effects| > 0 && script.effects[0] == CreateJob(CancelJob(actor, form, execution.receipt.value.operation))
      && Cancels(script, 1, execution, form, |db.jobs|, false, env.cancelAcknowledged)
  {
    var execution := db.executions[form.plan];
    NoCancelListed(db.jobs, form.plan);
    PermittedMeans(db, actor, execution.plan, env);
    SameKeyUnused(db.jobs, actor, form, execution.receipt.value.operation);
    CreatedCancels(CancelJob(actor, form, execution.receipt.value.operation), execution, form, |db.jobs|, env.cancelAcknowledged);
    hide Permitted, Revalidation, CancelJobs, FindKey, KeyUnused, NoCancelOf, CancelDrive, Cancels;
  }

  lemma SameKeyUnused(jobs: seq<Job>, actor: Actor, form: CancelForm, operation: OperationId)
    requires form.key.Some?
    ensures KeyUnused(jobs, CancelJob(actor, form, operation)) <==> KeyUnused(jobs, CancelJob(actor, form, 0))
  {
    var there, here := CancelJob(actor, form, operation), CancelJob(actor, form, 0);
    assert forall i :: 0 <= i < |jobs| ==> (jobs[i].SameKey(there) <==> jobs[i].SameKey(here));
  }

  lemma NoCancelListed(jobs: seq<Job>, p: PlanId)
    ensures NoCancelOf(jobs, p) <==> CancelJobs(jobs, p) == []
  {
    hide CancelJobs;
    if CancelJobs(jobs, p) != [] {
      assert jobs[CancelJobs(jobs, p)[0]].IsCancelOf(p);
    }
  }

  lemma OnlyCancelListed(jobs: seq<Job>, p: PlanId, j: JobId)
    requires j < |jobs| && jobs[j].IsCancelOf(p) && forall i :: 0 <= i < |jobs| && jobs[i].IsCancelOf(p) ==> i == j
    ensures CancelJobs(jobs, p) == [j]
  {
    hide CancelJobs;
    var listed := CancelJobs(jobs, p);
    assert j in listed;
    if |listed| > 1 {
      TwoDiffer(listed);
    }
  }

  lemma ListedCancelOnly(jobs: seq<Job>, p: PlanId)
    requires |CancelJobs(jobs, p)| == 1
    ensures forall i :: 0 <= i < |jobs| && jobs[i].IsCancelOf(p) ==> i == CancelJobs(jobs, p)[0]
  {
    hide CancelJobs;
    var listed := CancelJobs(jobs, p);
    forall i | 0 <= i < |jobs| && jobs[i].IsCancelOf(p) ensures i == listed[0] {
      assert i in listed;
    }
  }

  lemma LeftCancels(db: Db, actor: Actor, form: CancelForm, env: Surroundings, j: JobId)
    requires MayCancel(db, actor, form, env) && CancelLeft(db, actor, form, j, Preflight)
    ensures Cancels(CancelScript(db, actor, form, env), 0, db.executions[form.plan], form, j, true, env.cancelAcknowledged)
  {
    OnlyCancelListed(db.jobs, form.plan, j);
    PermittedMeans(db, actor, db.executions[form.plan].plan, env);
    hide Permitted, Revalidation, CancelJobs;
  }

  lemma AcknowledgedCancels(db: Db, actor: Actor, form: CancelForm, env: Surroundings, j: JobId)
    requires CancelAcknowledgedBefore(db, actor, form, j)
    ensures EndsCancelled(CancelScript(db, actor, form, env), 0, db.executions[form.plan], form, j)
  {
    OnlyCancelListed(db.jobs, form.plan, j);
    hide Revalidation, CancelJobs;
  }

  lemma ReplaysCancel(db: Db, actor: Actor, form: CancelForm, env: Surroundings)
    requires CancelReplays(db, form)
    ensures CancelScript(db, actor, form, env) == Script([], Success(db.executions[form.plan].cancelReceipt.value))
  {
    hide CancelJobs;
  }

  lemma CancelHistoryRefuses(db: Db, actor: Actor, form: CancelForm, env: Surroundings)
    requires form.plan in db.executions && !CancelReplays(db, form) && CancelJobs(db.jobs, form.plan) != []
    ensures Refuses(GuardedCancelScript(db, actor, form, env))
  {
    var previous := CancelJobs(db.jobs, form.plan);
    hide CancelJobs, BaseCancelScript, AnyIn;
    match db.jobs[previous[0]].state
    case Failed => AnyHere(db.jobs, previous, {Failed});
    case Succeeded => AnyHere(db.jobs, previous, {Succeeded});
    case _ => AnyHere(db.jobs, previous, {Preflight, Running, Verifying});
  }

  lemma BaseCancelRefuses(db: Db, actor: Actor, form: CancelForm, env: Surroundings)
    requires form.plan in db.executions && db.executions[form.plan].cancelReceipt.None? && NoCancelOf(db.jobs, form.plan)
    requires !(MayCancel(db, actor, form, env) && FirstCancel(db, actor, form))
    ensures Refuses(BaseCancelScript(db, actor, form, env))
  {
    PermittedMeans(db, actor, db.executions[form.plan].plan, env);
    if form.key.Some? && db.executions[form.plan].receipt.Some? {
      SameKeyUnused(db.jobs, actor, form, db.executions[form.plan].receipt.value.operation);
    }
    hide Permitted, Revalidation, CancelJobs, FindKey, CancelDrive, KeyUnused, NoCancelOf;
  }

  lemma CancelGuardRefuses(db: Db, actor: Actor, form: CancelForm, env: Surroundings)
    requires form.plan in db.executions && !CancelReplays(db, form)
    requires !(MayCancel(db, actor, form, env) && FirstCancel(db, actor, form))
    ensures Refuses(GuardedCancelScript(db, actor, form, env))
  {
    NoCancelListed(db.jobs, form.plan);
    if CancelJobs(db.jobs, form.plan) != [] {
      CancelHistoryRefuses(db, actor, form, env);
    } else if db.executions[form.plan].cancelReceipt.None? {
      BaseCancelRefuses(db, actor, form, env);
    }
    hide CancelJobs, BaseCancelScript, MayCancel, FirstCancel;
  }

  /** In all other cases nothing is done. */
  lemma OtherCancels(db: Db, actor: Actor, form: CancelForm, env: Surroundings)
    requires !CancelDrives(db, actor, form, env) && !CancelReplays(db, form)
    requires forall j: JobId :: !CancelAcknowledgedBefore(db, actor, form, j)
    ensures Refuses(CancelScript(db, actor, form, env))
  {
    if form.plan in db.executions {
      CancelGuardRefuses(db, actor, form, env);
      var previous := CancelJobs(db.jobs, form.plan);
      if |previous| == 1 {
        ListedCancelOnly(db.jobs, form.plan);
        var j := previous[0];
        PermittedMeans(db, actor, db.executions[form.plan].plan, env);
        assert !CancelAcknowledgedBefore(db, actor, form, j);
        hide CancelJobs, Permitted, Revalidation, GuardedCancelScript, CancelTail, CancelDrive, FirstCancel;
        assert MayCancel(db, actor, form, env) ==> !CancelLeft(db, actor, form, j, Preflight);
      } else {
        hide CancelJobs, MayCancel, FirstCancel, CancelLeft, GuardedCancelScript, CompleteCancelScript;
      }
    }
  }

  predicate SendsCancel(effects: seq<Action>) {
    exists i :: 0 <= i < |effects| && effects[i].CallCancel?
  }

  lemma CancelsMeans(script: Script<CancelReceipt>, k: nat, execution: Execution, form: CancelForm, j: JobId, twoFields: bool, acknowledged: bool)
    requires execution.receipt.Some? && Cancels(script, k, execution, form, j, twoFields, acknowledged)
    requires k <= 1 && (k == 1 ==> script.effects[0].CreateJob?)
    ensures SendsCancel(script.effects)
    ensures script.outcome.Success? <==> acknowledged
    ensures acknowledged <==> exists i :: 0 <= i < |script.effects| && script.effects[i].PutExecution?
    ensures !acknowledged ==> script.outcome == Failure(Refused(ProviderError)) && script.effects[|script.effects| - 1] == MoveJob(j, Failed, Some(Noted))
  {
    assert script.effects[k + 1].CallCancel?;
    if acknowledged {
      assert script.effects[k + 4].PutExecution?;
    }
  }

  /** A cancel sends its command if and only if the start it names is the accepted one, nothing of the
      plan was cancelled, actor, Household, upstream and adapter are as the plan needs them, and the plan
      has no cancel job or only the one this actor and key left before any command.  What was sent
      succeeds if and only if the adapter acknowledges it. */
  lemma CancelSendsIff(db: Db, actor: Actor, form: CancelForm, env: Surroundings)
    ensures SendsCancel(CancelScript(db, actor, form, env).effects) <==> CancelDrives(db, actor, form, env)
    ensures CancelScript(db, actor, form, env).outcome.Success? <==>
      || (CancelDrives(db, actor, form, env) && env.cancelAcknowledged)
      || CancelReplays(db, form)
      || exists j: JobId :: j < |db.jobs| && CancelAcknowledgedBefore(db, actor, form, j)
    ensures SendsCancel(CancelScript(db, actor, form, env).effects) ==>
      var effects := CancelScript(db, actor, form, env).effects;
      && (env.cancelAcknowledged <==> exists i :: 0 <= i < |effects| && effects[i].PutExecution?)
      && (!env.cancelAcknowledged ==> CancelScript(db, actor, form, env).outcome == Failure(Refused(ProviderError)))
  {
    var script := CancelScript(db, actor, form, env);
    CancelExcludes(db, actor, form, env);
    hide CancelScript, MayCancel, FirstCancel, CancelLeft, CancelAcknowledgedBefore, CancelReplays, Cancels;
    if CancelReplays(db, form) {
      ReplaysCancel(db, actor, form, env);
    } else if j: JobId :| j < |db.jobs| && CancelAcknowledgedBefore(db, actor, form, j) {
      AcknowledgedCancels(db, actor, form, env, j);
    } else if CancelDrives(db, actor, form, env) {
      if FirstCancel(db, actor, form) {
        FirstCancels(db, actor, form, env);
        CancelsMeans(script, 1, db.executions[form.plan], form, |db.jobs|, false, env.cancelAcknowledged);
      } else {
        var j: JobId :| j < |db.jobs| && CancelLeft(db, actor, form, j, Preflight);
        LeftCancels(db, actor, form, env, j);
        CancelsMeans(script, 0, db.executions[form.plan], form, j, true, env.cancelAcknowledged);
      }
    } else {
      OtherCancels(db, actor, form, env);
    }
  }

  lemma CancelExcludes(db: Db, actor: Actor, form: CancelForm, env: Surroundings)
    ensures MayCancel(db, actor, form, env) ==> form.plan in db.executions && db.executions[form.plan].receipt.Some?
    ensures CancelReplays(db, form) ==> !MayCancel(db, actor, form, env)
    ensures forall j: JobId :: CancelAcknowledgedBefore(db, actor, form, j) ==>
      && j < |db.jobs| && form.plan in db.executions && db.executions[form.plan].receipt.Some?
      && !CancelDrives(db, actor, form, env)
  {
  }

  // ----- planning -------------------------------------------------------------------------

  /** A plan is stored if and only if it can be built and its id is free, and returned also if its id
      holds the very same plan; what is stored has no receipt yet. */
  lemma PlanStoredIff(db: Db, p: PlanId, plan: ExecutionPlan, upstream: Option<Code>)
    ensures var script := PlanScript(db, p, plan, upstream);
      && (script.outcome == Success(plan) <==> upstream.None? && (p in db.executions ==> db.executions[p].plan == plan))
      && (script.outcome.Failure? ==> script.effects == [])
      && (script.outcome.Success? ==>
            script.effects == if p in db.executions then [] else [PutExecution(p, Execution(plan, Planned, None, None))])
      && (upstream.Some? ==> script.outcome == Failure(Refused(upstream.value)))
  {
  }

  // ----- what the history of jobs refuses -------------------------------------------------

  /** Some start or retry job of the plan is in one of these states. */
  predicate SomeStart(jobs: seq<Job>, p: PlanId, states: set<JobState>) {
    exists i :: 0 <= i < |jobs| && jobs[i].IsStartOf(p) && jobs[i].state in states
  }

  predicate SomeCancel(jobs: seq<Job>, p: PlanId, states: set<JobState>) {
    exists i :: 0 <= i < |jobs| && jobs[i].IsCancelOf(p) && jobs[i].state in states
  }

  lemma SomeListed(jobs: seq<Job>, p: PlanId, states: set<JobState>)
    ensures AnyIn(jobs, StartJobs(jobs, p), states) <==> SomeStart(jobs, p, states)
    ensures AnyIn(jobs, CancelJobs(jobs, p), states) <==> SomeCancel(jobs, p, states)
  {
    hide StartJobs, CancelJobs;
    if i :| 0 <= i < |jobs| && jobs[i].IsStartOf(p) && jobs[i].state in states {
      assert i in StartJobs(jobs, p);
      var k :| 0 <= k < |StartJobs(jobs, p)| && StartJobs(jobs, p)[k] == i;
      assert jobs[StartJobs(jobs, p)[k]].state in states;
    }
    if i :| 0 <= i < |jobs| && jobs[i].IsCancelOf(p) && jobs[i].state in states {
      assert i in CancelJobs(jobs, p);
      var k :| 0 <= k < |CancelJobs(jobs, p)| && CancelJobs(jobs, p)[k] == i;
      assert jobs[CancelJobs(jobs, p)[k]].state in states;
    }
  }

  /** The order in which the guard of a start refuses. */
  lemma StartGuardRefusals(db: Db, actor: Actor, form: StartForm, env: Surroundings)
    requires form.plan in db.executions && !Replays(db, form.plan, StartAction, form.key)
    ensures var guarded, stored := GuardedStartScript(db, actor, form, env), db.executions[form.plan].receipt.Some?;
      var active := SomeStart(db.jobs, form.plan, {Preflight, Running, Verifying});
      var failed := SomeStart(db.jobs, form.plan, {Failed});
      && (stored ==> guarded == Refuse(AlreadyStarted))
      && (!stored && active ==> guarded == Refuse(InProgress))
      && (!stored && !active && failed ==> guarded == Refuse(RetryRequired))
      && (!stored && !active && !failed && SomeStart(db.jobs, form.plan, {Succeeded}) ==> guarded == Refuse(StateInvalid))
  {
    SomeListed(db.jobs, form.plan, {Preflight, Running, Verifying});
    SomeListed(db.jobs, form.plan, {Failed});
    SomeListed(db.jobs, form.plan, {Succeeded});
    hide StartJobs, CancelJobs, AnyIn, SomeStart, SomeCancel, SubmitScript;
  }

  /** The order in which the guard of a retry refuses. */
  lemma RetryGuardRefusals(db: Db, actor: Actor, form: RetryForm, env: Surroundings)
    requires form.plan in db.executions && !Replays(db, form.plan, RetryAction, form.key)
    ensures var guarded, stored := GuardedRetryScript(db, actor, form, env), db.executions[form.plan].receipt.Some?;
      var active := SomeStart(db.jobs, form.plan, {Preflight, Running, Verifying});
      var succeeded := SomeStart(db.jobs, form.plan, {Succeeded});
      var newest := form.failedJob < |db.jobs| && db.jobs[form.failedJob].IsStartOf(form.plan)
                    && forall i :: 0 <= i < |db.jobs| && db.jobs[i].IsStartOf(form.plan) ==> i <= form.failedJob;
      && (stored ==> guarded == Refuse(AlreadyStarted))
      && (!stored && active ==> guarded == Refuse(InProgress))
      && (!stored && !active && succeeded ==> guarded == Refuse(StateInvalid))
      && (!stored && !active && !succeeded && !newest ==> guarded == Refuse(RetryNotAllowed))
      && (!stored && !active && !succeeded && newest && !db.jobs[form.failedJob].RetrySafe() ==> guarded == Refuse(RetryNotSafe))
  {
    SomeListed(db.jobs, form.plan, {Preflight, Running, Verifying});
    SomeListed(db.jobs, form.plan, {Succeeded});
    AllFailed(db.jobs, form.plan);
    var previous := StartJobs(db.jobs, form.plan);
    if previous != [] {
      Recovery.NewestFirst(db.jobs, form.plan);
      assert db.jobs[previous[0]].IsStartOf(form.plan);
    } else {
      Recovery.FirstHasNone(db.jobs, form.plan);
    }
    hide StartJobs, CancelJobs, AnyIn, SomeStart, SomeCancel, ResubmitScript;
  }

  /** The order in which the guard of a cancel refuses. */
  lemma CancelGuardRefusals(db: Db, actor: Actor, form: CancelForm, env: Surroundings)
    requires form.plan in db.executions && !CancelReplays(db, form)
    ensures var guarded, stored := GuardedCancelScript(db, actor, form, env), db.executions[form.plan].cancelReceipt.Some?;
      var active := SomeCancel(db.jobs, form.plan, {Preflight, Running, Verifying});
      var failed := SomeCancel(db.jobs, form.plan, {Failed});
      && (stored ==> guarded == Refuse(CancelAlreadyRequested))
      && (!stored && active ==> guarded == Refuse(CancelInProgress))
      && (!stored && !active && failed ==> guarded == Refuse(CancelRetryNotSafe))
      && (!stored && !active && !failed && SomeCancel(db.jobs, form.plan, {Succeeded}) ==> guarded == Refuse(StateInvalid))
  {
    SomeListed(db.jobs, form.plan, {Preflight, Running, Verifying});
    SomeListed(db.jobs, form.plan, {Failed});
    SomeListed(db.jobs, form.plan, {Succeeded});
    hide StartJobs, CancelJobs, AnyIn, SomeStart, SomeCancel, BaseCancelScript;
  }

  // ----- why else a request is refused ----------------------------------------------------

  /** The first thing that actor, Household, upstream or adapter do not meet. */
  function NotPermitted(db: Db, actor: Actor, plan: ExecutionPlan, env: Surroundings): Option<Code> {
    if Unbound(db.household.bindings, actor) then Some(ActorNotBound)
    else if !BoundAs(db.household.bindings, actor, plan.actorMember) then Some(ActorMismatch)
    else if db.household.snapshot != plan.snapshot || !env.upstreamCurrent then Some(Stale)
    else if plan.provider !in env.adapters then Some(AdapterUnavailable)
    else None
  }

  lemma SubmitRefusals(db: Db, actor: Actor, p: PlanId, key: Option<Key>, retryOf: Option<JobId>, env: Surroundings)
    requires p in db.executions && key.Some?
    ensures var refusal := NotPermitted(db, actor, db.executions[p].plan, env);
      && (refusal.None? <==> Permitted(db, actor, db.executions[p].plan, env))
      && (refusal.Some? ==> SubmitScript(db, actor, p, key, retryOf, env) == Refuse(refusal.value))
  {
    RevalidationMeans(db, actor, db.executions[p].plan, env.upstreamCurrent);
    hide Revalidation, QueueScript, BoundAs, Unbound;
  }

  /** A start that the history of jobs lets through is refused for its form, then for what it is not
      permitted for, then for a key that belongs to another plan's job. */
  lemma StartRefusals(db: Db, actor: Actor, form: StartForm, env: Surroundings)
    requires form.plan in db.executions && db.executions[form.plan].receipt.None? && FirstOfPlan(db.jobs, form.plan)
    ensures var script, refusal := StartScript(db, actor, form, env), NotPermitted(db, actor, db.executions[form.plan].plan, env);
      if !form.wellFormed || form.key.None? then script == Refuse(InvalidRequest)
      else if refusal.Some? then script == Refuse(refusal.value)
      else !FirstStart(db, actor, form) ==> script == Refuse(IdempotencyConflict)
  {
    Recovery.FirstHasNone(db.jobs, form.plan);
    GoesToGuard(db, actor, form, env);
    if form.key.Some? {
      SubmitRefusals(db, actor, form.plan, form.key, None, env);
    }
    PermittedMeans(db, actor, db.executions[form.plan].plan, env);
    hide StartScript, StartJobs, NotPermitted, QueueScript, Permitted, Revalidation;
    if form.key.Some? && !FirstStart(db, actor, form) {
      OtherPlansKey(db, actor, form, env);
    }
  }

  /** The same for a retry whose failed job is the newest attempt and failed safely. */
  lemma RetryRefusals(db: Db, actor: Actor, form: RetryForm, env: Surroundings)
    requires form.plan in db.executions && form.failedJob < |db.jobs|
    requires db.jobs[form.failedJob].IsStartOf(form.plan) && db.jobs[form.failedJob].RetrySafe()
    ensures var script, refusal := ResubmitScript(db, actor, form, env), NotPermitted(db, actor, db.executions[form.plan].plan, env);
      && (!form.wellFormed || form.key.None? ==> script == Refuse(InvalidRequest))
      && (form.wellFormed && form.key.Some? && refusal.Some? ==> script == Refuse(refusal.value))
  {
    if form.key.Some? {
      SubmitRefusals(db, actor, form.plan, form.key, Some(form.failedJob), env);
    }
    hide NotPermitted, QueueScript, Revalidation;
  }

  /** A cancel that the history of jobs lets through is refused for its form, then for the actor, the
      Household or a change upstream, then for the start it names, then for the adapter, then for its key. */
  lemma CancelRefusals(db: Db, actor: Actor, form: CancelForm, env: Surroundings)
    requires form.plan in db.executions && db.executions[form.plan].cancelReceipt.None? && NoCancelOf(db.jobs, form.plan)
    ensures var script, refusal := CancelScript(db, actor, form, env), NotPermitted(db, actor, db.executions[form.plan].plan, env);
      if !form.wellFormed || form.key.None? then script == Refuse(InvalidRequest)
      else if refusal.Some? && refusal != Some(AdapterUnavailable) then script == Refuse(refusal.value)
      else if !Cancellable(db, form) then script == Refuse(CancelNotAllowed)
      else if refusal.Some? then script == Refuse(AdapterUnavailable)
      else !FirstCancel(db, actor, form) ==> script == Refuse(IdempotencyConflict)
  {
    NoCancelListed(db.jobs, form.plan);
    RevalidationMeans(db, actor, db.executions[form.plan].plan, env.upstreamCurrent);
    if form.key.Some? && db.executions[form.plan].receipt.Some? {
      SameKeyUnused(db.jobs, actor, form, db.executions[form.plan].receipt.value.operation);
      NoCancelKey(db, actor, form, db.executions[form.plan].receipt.value.operation);
    }
    hide Revalidation, CancelDrive, BoundAs, Unbound, CancelJobs, FindKey, KeyUnused, NoCancelOf;
  }

  lemma NoCancelKey(db: Db, actor: Actor, form: CancelForm, operation: OperationId)
    requires form.key.Some? && NoCancelOf(db.jobs, form.plan)
    ensures var found := FindKey(db.jobs, CancelJob(actor, form, operation));
      found.Some? ==> db.jobs[found.value].request != CancelRequest(form.plan, form.startJob)
  {
    hide FindKey;
  }
}
