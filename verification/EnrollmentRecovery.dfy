/** What a repeated request finds after a crash, for every point at which the process can die. */
module EnrollmentRecovery {
  import opened Wrappers
  import opened Records
  import opened Protocol
  import opened DurableStore
  import opened Scripts
  import opened EnrollmentRuntime
  import Safety = EnrollmentSafety

  lemma FirstHasNone(jobs: seq<Job>, p: PlanId)
    ensures FirstOfPlan(jobs, p) <==> StartJobs(jobs, p) == []
  {
    if StartJobs(jobs, p) != [] {
      assert jobs[StartJobs(jobs, p)[0]].IsStartOf(p);
    }
  }

  lemma OneMore(jobs: seq<Job>, p: PlanId, job: Job)
    ensures StartJobs(jobs + [job], p) == if job.IsStartOf(p) then [|jobs|] + StartJobs(jobs, p) else StartJobs(jobs, p)
  {
    assert (jobs + [job])[..|jobs|] == jobs;
  }

  /** A start or retry the provider accepts, from its first effect to its last. */
  function AcceptedEffects(p: PlanId, execution: Execution, job: Job, j: JobId, now: Time, answer: StartAnswer, result: StartResult): seq<Action>
    requires job.request.StartRequest?
  {
    [ CreateJob(job),
      MoveJob(j, Running, None),
      CallStart(j, now, answer),
      MoveJob(j, Verifying, Some(ProviderAccepted(result))),
      MoveJob(j, Succeeded, None),
      PutExecution(p, AcceptedExecution(execution, ReceiptOf(p, execution.plan, j, job.request.retryOf, result)))
    ]
  }

  /** The new job after the first `n` of them. */
  function Stage(job: Job, result: StartResult, n: nat): Job {
    if n <= 1 then job
    else if n <= 3 then job.(state := Running)
    else if n == 4 then job.(state := Verifying, result := Some(ProviderAccepted(result)))
    else job.(state := Succeeded, result := Some(ProviderAccepted(result)))
  }

  /** The state after the first `n` of them. */
  lemma {:induction false} StateAfter(db: Db, p: PlanId, execution: Execution, job: Job, now: Time, answer: StartAnswer, result: StartResult, n: nat)
    requires job.request.StartRequest? && 1 <= n <= 6
    ensures var effects := AcceptedEffects(p, execution, job, |db.jobs|, now, answer, result);
      var after := Fold(db, effects[..n]);
      && after.jobs == db.jobs + [Stage(job, result, n)]
      && after.household == db.household
      && after.executions == if n < 6 then db.executions else db.executions[p := effects[5].execution]
  {
    hide Fold;
    var effects := AcceptedEffects(p, execution, job, |db.jobs|, now, answer, result);
    FoldLast(db, effects, n);
    if n == 1 {
      FoldNothing(db);
      assert effects[..0] == [];
    } else {
      StateAfter(db, p, execution, job, now, answer, result, n - 1);
    }
  }

  function FirstJob(actor: Actor, form: StartForm): Job
    requires form.key.Some?
  {
    Job(StartRequest(form.plan, None), actor, form.key.value, None, Preflight, None)
  }

  /** A first start that succeeds makes exactly these six effects. */
  lemma FreshStart(db: Db, actor: Actor, form: StartForm, env: Surroundings)
    requires form.plan in db.executions && db.executions[form.plan].receipt.None?
    requires FirstOfPlan(db.jobs, form.plan) && StartScript(db, actor, form, env).outcome.Success?
    ensures form.wellFormed && form.key.Some? && env.now.Some?
    ensures Revalidation(db, actor, db.executions[form.plan].plan, env.upstreamCurrent).None?
    ensures db.executions[form.plan].plan.provider in env.adapters
    ensures KeyUnused(db.jobs, FirstJob(actor, form))
    ensures var accepted := AcceptedStart(db.executions[form.plan].plan, env.now.value, env.startAnswer);
      && accepted.Some? && ArtifactFits(db.executions[form.plan].plan, accepted.value)
      && StartScript(db, actor, form, env) ==
           Script(AcceptedEffects(form.plan, db.executions[form.plan], FirstJob(actor, form), |db.jobs|, env.now.value, env.startAnswer, accepted.value),
                  Success(ReceiptOf(form.plan, db.executions[form.plan].plan, |db.jobs|, None, accepted.value)))
  {
    FirstHasNone(db.jobs, form.plan);
  }

  /** Driving a job that was left in `preflight`, under what the repeated request meets. */
  function Resumption(db: Db, actor: Actor, p: PlanId, j: JobId, retryOf: Option<JobId>, env: Surroundings): Script<StartReceipt>
    requires p in db.executions
  {
    var plan := db.executions[p].plan;
    var stale := Revalidation(db, actor, plan, env.upstreamCurrent);
    if stale.Some? then Refuse(stale.value)
    else if plan.provider !in env.adapters then Refuse(AdapterUnavailable)
    else DriveScript(db.executions[p], p, j, retryOf, env)
  }

  /** After a crash behind any effect of a first start, the same request sent again
      - drives the very same job if the provider had not been called, whatever it then meets (and, if
        that is the same, ends as the first would have ended);
      - finishes the attempt with the same receipt and envelope, without any call, if the provider had
        accepted the command and that was stored;
      - returns the same receipt if it was stored;
      - is refused, without any effect, while the outcome of the command is unknown, and in the one
        window the code cannot recover: the job succeeded, but the receipt was not stored. */
  lemma StartAfterCrash(db: Db, actor: Actor, form: StartForm, env: Surroundings, later: Surroundings, n: nat)
    requires form.plan in db.executions && db.executions[form.plan].receipt.None?
    requires FirstOfPlan(db.jobs, form.plan) && StartScript(db, actor, form, env).outcome.Success?
    requires 1 <= n <= |StartScript(db, actor, form, env).effects|
    ensures |StartScript(db, actor, form, env).effects| == 6
    ensures var script := StartScript(db, actor, form, env);
      var again := StartScript(Fold(db, script.effects[..n]), actor, form, later);
      && (n == 1 ==> again == Resumption(db, actor, form.plan, |db.jobs|, None, later))
      && (n == 1 && later == env ==> again == Script(script.effects[1..], script.outcome))
      && (n == 2 || n == 3 ==> again == Refuse(InProgress))
      && (n == 4 ==> again == Script(script.effects[4..], script.outcome))
      && (n == 5 ==> again == Refuse(StateInvalid))
      && (n == 6 ==> again == Script([], script.outcome))
  {
    FreshStart(db, actor, form, env);
    var p, execution, job := form.plan, db.executions[form.plan], FirstJob(actor, form);
    var now, answer := env.now.value, env.startAnswer;
    var accepted := AcceptedStart(execution.plan, now, answer).value;
    var effects := AcceptedEffects(p, execution, job, |db.jobs|, now, answer, accepted);
    var after := Fold(db, effects[..n]);
    StateAfter(db, p, execution, job, now, answer, accepted, n);
    FirstHasNone(db.jobs, p);
    OneMore(db.jobs, p, Stage(job, accepted, n));
    hide Fold, StartScript, StartJobs, Revalidation, AcceptedStart, FirstOfPlan, KeyUnused, Resumption, DriveScript, RecoverScript;
    Tails(p, execution, job, |db.jobs|, env, accepted);
    if n == 1 {
      ResumedStart(after, actor, form, later, |db.jobs|);
      SameResumption(db, after, actor, p, |db.jobs|, None, later);
      ResumptionDrives(db, actor, p, |db.jobs|, None, env);
    } else {
      RepeatedStart(after, actor, form, later, |db.jobs|);
    }
  }

  lemma SameResumption(db: Db, after: Db, actor: Actor, p: PlanId, j: JobId, retryOf: Option<JobId>, env: Surroundings)
    requires p in db.executions && after.executions == db.executions && after.household == db.household
    ensures Resumption(after, actor, p, j, retryOf, env) == Resumption(db, actor, p, j, retryOf, env)
  {
    hide DriveScript;
  }

  lemma ResumptionDrives(db: Db, actor: Actor, p: PlanId, j: JobId, retryOf: Option<JobId>, env: Surroundings)
    requires p in db.executions && Revalidation(db, actor, db.executions[p].plan, env.upstreamCurrent).None?
    requires db.executions[p].plan.provider in env.adapters
    ensures Resumption(db, actor, p, j, retryOf, env) == DriveScript(db.executions[p], p, j, retryOf, env)
  {
    hide DriveScript, Revalidation;
  }

  /** The last five effects drive a job from `preflight`, the last two finalize an acceptance. */
  lemma Tails(p: PlanId, execution: Execution, job: Job, j: JobId, env: Surroundings, result: StartResult)
    requires job.IsStartOf(p) && env.now.Some?
    requires AcceptedStart(execution.plan, env.now.value, env.startAnswer) == Some(result)
    requires ArtifactFits(execution.plan, result)
    ensures var effects := AcceptedEffects(p, execution, job, j, env.now.value, env.startAnswer, result);
      var receipt := ReceiptOf(p, execution.plan, j, job.request.retryOf, result);
      && DriveScript(execution, p, j, job.request.retryOf, env) == Script(effects[1..], Success(receipt))
      && RecoverScript(execution, p, j, Stage(job, result, 4)) == Script(effects[4..], Success(receipt))
      && effects[6..] == []
  {
  }

  /** A start job left in `preflight` is driven to its end by the request that created it. */
  lemma ResumedStart(db: Db, actor: Actor, form: StartForm, env: Surroundings, j: JobId)
    requires form.plan in db.executions && db.executions[form.plan].receipt.None? && form.wellFormed && form.key.Some?
    requires StartJobs(db.jobs, form.plan) == [j] && j == |db.jobs| - 1 && db.jobs[j] == FirstJob(actor, form)
    ensures StartScript(db, actor, form, env) == Resumption(db, actor, form.plan, j, None, env)
  {
    assert FindKey(db.jobs, FirstJob(actor, form)) == Some(j);
  }

  lemma RepeatedStart(db: Db, actor: Actor, form: StartForm, env: Surroundings, j: JobId)
    requires form.plan in db.executions && form.key.Some?
    requires StartJobs(db.jobs, form.plan) == [j] && j < |db.jobs|
    requires SameRequest(db.jobs[j], actor, StartAction, form.key)
    ensures var execution, job, again := db.executions[form.plan], db.jobs[j], StartScript(db, actor, form, env);
      && (execution.receipt.None? && job.state == Running ==> again == Refuse(InProgress))
      && (execution.receipt.None? && job.state == Verifying ==> again == RecoverScript(execution, form.plan, j, job))
      && (execution.receipt.None? && job.state == Succeeded ==> again == Refuse(StateInvalid))
      && (execution.receipt.Some? && execution.receipt.value.job == j && job.state == Succeeded ==>
            again == Script([], Success(execution.receipt.value)))
  {
    var previous := StartJobs(db.jobs, form.plan);
    assert previous[0] == j && db.jobs[previous[0]] == db.jobs[j];
  }

  // ----- the same for a retry -------------------------------------------------------------

  function RetryJob(actor: Actor, form: RetryForm): Job
    requires form.key.Some?
  {
    Job(StartRequest(form.plan, Some(form.failedJob)), actor, form.key.value, None, Preflight, None)
  }

  /** No job of the plan was created by this very request. */
  predicate NewRetry(db: Db, actor: Actor, form: RetryForm) {
    && form.plan in db.executions && db.executions[form.plan].receipt.None?
    && form.key.Some? && KeyUnused(db.jobs, RetryJob(actor, form))
  }

  /** A new retry that succeeds makes exactly the six effects of a start. */
  lemma FreshRetry(db: Db, actor: Actor, form: RetryForm, env: Surroundings)
    requires NewRetry(db, actor, form) && RetryScript(db, actor, form, env).outcome.Success?
    ensures form.wellFormed && env.now.Some?
    ensures Revalidation(db, actor, db.executions[form.plan].plan, env.upstreamCurrent).None?
    ensures db.executions[form.plan].plan.provider in env.adapters
    ensures StartJobs(db.jobs, form.plan) != [] && StartJobs(db.jobs, form.plan)[0] == form.failedJob
    ensures db.jobs[form.failedJob].IsStartOf(form.plan) && db.jobs[form.failedJob].RetrySafe()
    ensures var accepted := AcceptedStart(db.executions[form.plan].plan, env.now.value, env.startAnswer);
      && accepted.Some? && ArtifactFits(db.executions[form.plan].plan, accepted.value)
      && RetryScript(db, actor, form, env) ==
           Script(AcceptedEffects(form.plan, db.executions[form.plan], RetryJob(actor, form), |db.jobs|, env.now.value, env.startAnswer, accepted.value),
                  Success(ReceiptOf(form.plan, db.executions[form.plan].plan, |db.jobs|, Some(form.failedJob), accepted.value)))
  {
    var previous := StartJobs(db.jobs, form.plan);
    assert |previous| >= 2 ==>
      previous[0] < |db.jobs| && !db.jobs[previous[0]].SameKey(RetryJob(actor, form));
  }

  /** After a crash behind any effect of a retry, the same request sent again does what
      `StartAfterCrash` says of a start. */
  lemma RetryAfterCrash(init: Db, db: Db, actor: Actor, form: RetryForm, env: Surroundings, later: Surroundings, n: nat)
    requires Run(init, db)
    requires NewRetry(db, actor, form) && RetryScript(db, actor, form, env).outcome.Success?
    requires 1 <= n <= |RetryScript(db, actor, form, env).effects|
    ensures |RetryScript(db, actor, form, env).effects| == 6
    ensures var script := RetryScript(db, actor, form, env);
      var again := RetryScript(Fold(db, script.effects[..n]), actor, form, later);
      && (n == 1 ==> again == Resumption(db, actor, form.plan, |db.jobs|, Some(form.failedJob), later))
      && (n == 1 && later == env ==> again == Script(script.effects[1..], script.outcome))
      && (n == 2 || n == 3 ==> again == Refuse(InProgress))
      && (n == 4 ==> again == Script(script.effects[4..], script.outcome))
      && (n == 5 ==> again == Refuse(StateInvalid))
      && (n == 6 ==> again == Script([], script.outcome))
  {
    FreshRetry(db, actor, form, env);
    NewestFirst(db.jobs, form.plan);
    NewestSafeAllSafe(init, db, form.plan, form.failedJob);
    var p, execution, job := form.plan, db.executions[form.plan], RetryJob(actor, form);
    var now, answer := env.now.value, env.startAnswer;
    var accepted := AcceptedStart(execution.plan, now, answer).value;
    var effects := AcceptedEffects(p, execution, job, |db.jobs|, now, answer, accepted);
    var after := Fold(db, effects[..n]);
    StateAfter(db, p, execution, job, now, answer, accepted, n);
    hide Run, Fold, RetryScript, StartJobs, Revalidation, AcceptedStart, RetryPending, KeyUnused, OnlyRetrySafe, Resumption, DriveScript,
      RecoverScript;
    NowPending(db, after, actor, form, Stage(job, accepted, n));
    Tails(p, execution, job, |db.jobs|, env, accepted);
    if n == 1 {
      ResumedRetry(after, actor, form, later, |db.jobs|);
      SameResumption(db, after, actor, p, |db.jobs|, Some(form.failedJob), later);
      ResumptionDrives(db, actor, p, |db.jobs|, Some(form.failedJob), env);
    } else {
      RepeatedRetry(after, actor, form, later, |db.jobs|);
    }
  }

  lemma NewestFirst(jobs: seq<Job>, p: PlanId)
    requires StartJobs(jobs, p) != []
    ensures forall i :: 0 <= i < |jobs| && jobs[i].IsStartOf(p) ==> i <= StartJobs(jobs, p)[0]
  {
  }

  predicate RetryPending(db: Db, actor: Actor, form: RetryForm, j: JobId) {
    && form.plan in db.executions && form.key.Some?
    && |StartJobs(db.jobs, form.plan)| >= 2
    && StartJobs(db.jobs, form.plan)[0] == j && StartJobs(db.jobs, form.plan)[1] == form.failedJob
    && j == |db.jobs| - 1 && OnlyRetrySafe(db.jobs[..j], form.plan)
    && db.jobs[form.failedJob].RetrySafe()
    && SameRequest(db.jobs[j], actor, RetryAction, form.key)
    && db.jobs[j].request == StartRequest(form.plan, Some(form.failedJob))
  }

  lemma NowPending(db: Db, after: Db, actor: Actor, form: RetryForm, job: Job)
    requires form.key.Some? && form.plan in after.executions && after.jobs == db.jobs + [job]
    requires job.request == StartRequest(form.plan, Some(form.failedJob)) && job.actor == actor && form.key == Some(job.key)
    requires StartJobs(db.jobs, form.plan) != [] && StartJobs(db.jobs, form.plan)[0] == form.failedJob
    requires db.jobs[form.failedJob].RetrySafe() && OnlyRetrySafe(db.jobs, form.plan)
    ensures RetryPending(after, actor, form, |db.jobs|)
  {
    OneMore(db.jobs, form.plan, job);
    assert after.jobs[..|db.jobs|] == db.jobs;
  }

  lemma ResumedRetry(db: Db, actor: Actor, form: RetryForm, env: Surroundings, j: JobId)
    requires RetryPending(db, actor, form, j) && form.wellFormed && db.executions[form.plan].receipt.None?
    requires db.jobs[j] == RetryJob(actor, form)
    ensures RetryScript(db, actor, form, env) == Resumption(db, actor, form.plan, j, Some(form.failedJob), env)
  {
    assert FindKey(db.jobs, RetryJob(actor, form)) == Some(j);
  }

  lemma RepeatedRetry(db: Db, actor: Actor, form: RetryForm, env: Surroundings, j: JobId)
    requires RetryPending(db, actor, form, j)
    ensures var execution, job, again := db.executions[form.plan], db.jobs[j], RetryScript(db, actor, form, env);
      && (execution.receipt.None? && job.state == Running ==> again == Refuse(InProgress))
      && (execution.receipt.None? && job.state == Verifying ==> again == RecoverScript(execution, form.plan, j, job))
      && (execution.receipt.None? && job.state == Succeeded ==> again == Refuse(StateInvalid))
      && (execution.receipt.Some? && execution.receipt.value.job == j && job.state == Succeeded ==>
            again == Script([], Success(execution.receipt.value)))
  {
    hide ResubmitScript, RecoverScript;
    var previous := StartJobs(db.jobs, form.plan);
    assert db.jobs[previous[0]] == db.jobs[j];
    assert db.jobs[j].state == Running ==> AnyIn(db.jobs, previous, {Preflight, Running, Verifying});
    assert db.jobs[j].state == Succeeded ==> AnyIn(db.jobs, previous, {Succeeded});
    forall i | 1 <= i < |previous| ensures db.jobs[previous[i]].state == Failed {
      assert previous[i] < previous[0];
      assert db.jobs[..j][previous[i]].IsStartOf(form.plan);
    }
  }
}
