/**
  Cleanup of a failed enrollment: planning, the read-back that authorizes it, and the redaction of
  the one-time reference from its three stored copies.
 */
module CleanupRuntime {
  import opened Wrappers
  import opened Records
  import opened Protocol
  import opened DurableStore
  import opened Scripts
  import Safety = CleanupSafety

  datatype PlanForm = PlanForm(wellFormed: bool, verification: VerificationId, maxAge: int)
  datatype RunForm = RunForm(wellFormed: bool, plan: CleanupId, key: Option<Key>)

  datatype Surroundings = Surroundings(adapters: set<ProviderId>, readback: ReadAnswer<ReadbackResult>, clockValid: bool, now: Time)

  // ----- planning and verification --------------------------------------------------------

  predicate IsRejected(db: Db, v: VerificationId) {
    v in db.verifications && db.verifications[v].status == VRejected && db.verifications[v].receipt.Some?
  }

  function PlanRefusal(db: Db, actor: Actor, form: PlanForm, env: Surroundings): Option<Code> {
    var refusal := ActorRefusal(db.household, actor);
    if !form.wellFormed then Some(InvalidRequest)
    else if refusal.Some? then refusal
    else if !IsRejected(db, form.verification) then Some(VerificationNotRejected)
    else
      var device := TargetRefusal(db.household, TargetOf(db.verifications[form.verification]), false);
      if device.Some? then device
      else if !env.clockValid || !(1 <= form.maxAge <= MAX_AGE) then Some(InvalidRequest)
      else None
  }

  function PlannedCleanup(db: Db, actorMember: MemberId, form: PlanForm): Cleanup
    requires IsRejected(db, form.verification)
  {
    var e := db.verifications[form.verification];
    Cleanup(form.verification, e.request.binding.plan, TargetOf(e), actorMember, form.maxAge,
            db.household.snapshot, db.household.bindings, e.receipt.value, CPlanned, None, None)
  }

  function PlanScript(db: Db, actor: Actor, c: CleanupId, form: PlanForm, env: Surroundings): Script<Cleanup> {
    var refusal := PlanRefusal(db, actor, form, env);
    if refusal.Some? then Refuse(refusal.value)
    else
      var planned := PlannedCleanup(db, MemberOf(db.household.bindings, actor).value, form);
      if c !in db.cleanups then Script([PutCleanup(c, planned)], Success(planned))
      else if db.cleanups[c] != planned then Refuse(StateInvalid)
      else Script([], Success(planned))
  }

  /** Why the actor may not go on with this cleanup now, if so. */
  function ActorRevalidation(db: Db, actor: Actor, e: Cleanup): Option<Code> {
    var refusal := ActorRefusal(db.household, actor);
    if refusal.Some? then refusal
    else if MemberOf(db.household.bindings, actor) != Some(e.actorMember) then Some(ActorMismatch)
    else if db.household != HouseholdState(e.base, e.bindings) then Some(Stale)
    else None
  }

  function VerifyRefusal(db: Db, actor: Actor, e: Cleanup): Option<Code> {
    var refusal := ActorRevalidation(db, actor, e);
    if refusal.Some? then refusal
    else if !IsRejected(db, e.verification) then Some(VerificationNotRejected)
    else if db.verifications[e.verification].receipt != Some(e.rejected) then Some(BindingMismatch)
    else TargetRefusal(db.household, e.target, false)
  }

  predicate Authorized(c: CleanupId, e: Cleanup, env: Surroundings) {
    env.readback.ReadResult? && env.clockValid && CleanupAuthorized(c, e, env.readback.result, env.now)
  }

  /** From the running verification job on; the result says whether the cleanup is authorized. */
  function JudgeScript(c: CleanupId, e: Cleanup, j: JobId, env: Surroundings): Script<bool> {
    if !env.readback.ReadResult? || !env.clockValid then
      Script([MoveJob(j, Failed, Some(Noted)), PutCleanup(c, e.(status := CCheckFailed))],
             Failure(Refused(if env.readback.ReadRaised? then ProviderError else ResultRejected)))
    else
      var status := if Authorized(c, e, env) then CAuthorized else CBlocked;
      Script([MoveJob(j, Verifying, Some(Noted)), MoveJob(j, Succeeded, None),
              PutCleanup(c, e.(status := status, readback := Some(env.readback.result)))],
             Success(Authorized(c, e, env)))
  }

  function StartVerificationScript(db: Db, actor: Actor, c: CleanupId, key: Key, env: Surroundings): Script<bool>
    requires c in db.cleanups
  {
    var job := Job(CleanupVerifyRequest(c), actor, key, None, Preflight, None);
    var existing := FindKey(db.jobs, job);
    if existing.None? then
      Then([CreateJob(job), MoveJob(|db.jobs|, Running, None)], JudgeScript(c, db.cleanups[c], |db.jobs|, env))
    else if db.jobs[existing.value].request != job.request then Refuse(IdempotencyConflict)
    else if db.jobs[existing.value].state in {Preflight, Running, Verifying} then Refuse(InProgress)
    else Refuse(PreviousAttemptFailed)
  }

  function VerifyScript(db: Db, actor: Actor, form: RunForm, env: Surroundings): Script<bool> {
    var c := form.plan;
    if !form.wellFormed || form.key.None? then Refuse(InvalidRequest)
    else if c !in db.cleanups then Refuse(NotFound)
    else
      var e := db.cleanups[c];
      var refusal := VerifyRefusal(db, actor, e);
      if e.status == CAuthorized || e.status == CBlocked then Script([], Success(e.status == CAuthorized))
      else if refusal.Some? then Refuse(refusal.value)
      else if e.target.provider !in env.adapters then Refuse(AdapterUnavailable)
      else StartVerificationScript(db, actor, c, form.key.value, env)
  }

  // ----- execution ------------------------------------------------------------------------

  /** What the three records hold: the kind of the reference, and whether it is present. */
  datatype Source = Source(kind: ArtifactKind, present: bool)

  function Agreement(a: Option<Artifact>, b: Option<Artifact>, c: Option<Artifact>): Result<Source> {
    if a.None? && b.None? && c.None? then Success(Source(NoArtifact, false))
    else if SameArtifact(a, b) && SameArtifact(a, c) then Success(Source(a.value.kind, true))
    else Failure(Refused(TransientStateMismatch))
  }

  /** Reads the three records the cleanup is about. */
  function ReadSource(db: Db, e: Cleanup): Result<Source> {
    if e.enrollment !in db.executions || e.verification !in db.verifications
       || db.executions[e.enrollment].status != Accepted || db.verifications[e.verification].status != VRejected
       || db.executions[e.enrollment].receipt.None?
    then Failure(Refused(StateInvalid))
    else
      var receipt, copy := db.executions[e.enrollment].receipt.value, db.verifications[e.verification].executionReceipt;
      if receipt.plan != e.enrollment || Target(receipt.provider, receipt.operation, receipt.device, receipt.member) != e.target
      then Failure(Refused(BindingMismatch))
      else if receipt.job >= |db.jobs| || !StartSucceeded(db.jobs[receipt.job], e.enrollment) then Failure(Refused(StateInvalid))
      else
        var result := db.jobs[receipt.job].result.value.accepted;
        if result.operation != e.target.operation then Failure(Refused(BindingMismatch))
        else Agreement(receipt.artifact, copy.artifact, result.artifact)
  }

  function AuthorityRefusal(db: Db, actor: Actor, c: CleanupId, e: Cleanup, env: Surroundings): Option<Code> {
    var refusal := ActorRevalidation(db, actor, e);
    var device := TargetRefusal(db.household, e.target, false);
    if e.status != CAuthorized then Some(NotAuthorized)
    else if refusal.Some? then refusal
    else if device.Some? then device
    else if e.readback.None? then Some(StateInvalid)
    else if !env.clockValid then Some(TrustedTimeInvalid)
    else if !CleanupAuthorized(c, e, e.readback.value, env.now) then Some(AuthorizationExpired)
    else if !IsRejected(db, e.verification) || db.verifications[e.verification].receipt != Some(e.rejected) then Some(BindingMismatch)
    else None
  }

  /** From a redacted state to the stored receipt. */
  function FinishScript(c: CleanupId, e: Cleanup, j: JobId, state: JobState, kind: ArtifactKind): Script<CleanupReceipt> {
    var receipt := CleanupReceipt(j, kind);
    var completed := [PutCleanup(c, e.(completed := Some(receipt)))];
    if state == Running then
      Script([MoveJob(j, Verifying, Some(Noted)), MoveJob(j, Succeeded, None)] + completed, Success(receipt))
    else if state == Verifying then Script([MoveJob(j, Succeeded, None)] + completed, Success(receipt))
    else Script(completed, Success(receipt))
  }

  /** From a job that is past `preflight` to the end. */
  function RedactScript(c: CleanupId, e: Cleanup, j: JobId, state: JobState, kind: ArtifactKind, present: bool, now: Time): Script<CleanupReceipt> {
    if present then Then([ScrubArtifact(c, now)], FinishScript(c, e, j, state, kind)) else FinishScript(c, e, j, state, kind)
  }

  /** From the stored job of this request, in whatever state it is, to the end. */
  function ProceedScript(c: CleanupId, e: Cleanup, j: JobId, job: Job, present: bool, now: Time): Script<CleanupReceipt> {
    match job.state
    case Succeeded =>
      if present then Refuse(ReferenceStillPresent) else FinishScript(c, e, j, Succeeded, job.artifactKind)
    case Failed => Refuse(PreviousAttemptFailed)
    case Preflight => Then([MoveJob(j, Running, None)], RedactScript(c, e, j, Running, job.artifactKind, present, now))
    case _ => RedactScript(c, e, j, job.state, job.artifactKind, present, now)
  }

  function StartExecutionScript(db: Db, actor: Actor, c: CleanupId, key: Key, source: Source, now: Time): Script<CleanupReceipt>
    requires c in db.cleanups
  {
    var e := db.cleanups[c];
    var job := Job(CleanupExecuteRequest(c), actor, key, None, Preflight, None, source.kind);
    var existing := FindKey(db.jobs, job);
    if existing.None? then Then([CreateJob(job)], ProceedScript(c, e, |db.jobs|, job, source.present, now))
    else if db.jobs[existing.value].request != job.request then Refuse(IdempotencyConflict)
    else ProceedScript(c, e, existing.value, db.jobs[existing.value], source.present, now)
  }

  function ExecuteScript(db: Db, actor: Actor, form: RunForm, env: Surroundings): Script<CleanupReceipt> {
    var c := form.plan;
    if !form.wellFormed || form.key.None? then Refuse(InvalidRequest)
    else if c !in db.cleanups then Refuse(NotFound)
    else
      var e := db.cleanups[c];
      var refusal, source := AuthorityRefusal(db, actor, c, e, env), ReadSource(db, e);
      if e.completed.Some? then Script([], Success(e.completed.value))
      else if refusal.Some? then Refuse(refusal.value)
      else if source.Failure? then Script([], Failure(source.error))
      else StartExecutionScript(db, actor, c, form.key.value, source.value, env.now)
  }

  // ----- the runtime ----------------------------------------------------------------------

  class Runtime {
    const store: Store

    constructor (store: Store)
      ensures this.store == store
    {
      this.store := store;
    }

    /** Stores a cleanup plan.  `c` is the digest of the plan. */
    method Plan(actor: Actor, c: CleanupId, form: PlanForm, env: Surroundings) returns (r: Result<Cleanup>)
      requires store.Valid()
      modifies store
      ensures store.Valid()
      ensures Ran(PlanScript(old(store.db), actor, c, form, env), old(store.db).log, old(store.fuel), store.db.log, store.fuel, r)
    {
      hide Run, Enabled, TargetRefusal, ActorRefusal;
      var refusal := PlanRefusal(store.db, actor, form, env);
      if refusal.Some? {
        return Failure(Refused(refusal.value));
      }
      ActorBound(store.db.household, actor);
      var planned := PlannedCleanup(store.db, MemberOf(store.db.household.bindings, actor).value, form);
      if c !in store.db.cleanups {
        PlanEnabled(store.initial, store.db, c, planned, form);
        :- store.Commit(PutCleanup(c, planned));
      } else if store.db.cleanups[c] != planned {
        return Failure(Refused(StateInvalid));
      }
      return Success(planned);
    }

    /** Judges the read-back of a running verification. */
    method Judge(c: CleanupId, j: JobId, env: Surroundings) returns (r: Result<bool>)
      requires store.Valid() && c in store.db.cleanups && store.db.cleanups[c].completed.None?
      requires store.db.cleanups[c].status != CAuthorized && JobFor(store.db, j, CleanupVerifyRequest(c), Running)
      modifies store
      ensures store.Valid()
      ensures Ran(JudgeScript(c, old(store.db).cleanups[c], j, env), old(store.db).log, old(store.fuel), store.db.log, store.fuel, r)
    {
      hide Run, Enabled, Effect, CleanupAuthorized;
      var e := store.db.cleanups[c];
      JudgeEnabled(store.db, c, j, env);
      if !env.readback.ReadResult? || !env.clockValid {
        :- store.TransitionActionJob(j, Running, Failed, Some(Noted));
        :- store.Commit(PutCleanup(c, e.(status := CCheckFailed)));
        return Failure(Refused(if env.readback.ReadRaised? then ProviderError else ResultRejected));
      }
      var status := if Authorized(c, e, env) then CAuthorized else CBlocked;
      :- store.TransitionActionJob(j, Running, Verifying, Some(Noted));
      :- store.TransitionActionJob(j, Verifying, Succeeded, None);
      :- store.Commit(PutCleanup(c, e.(status := status, readback := Some(env.readback.result))));
      return Success(Authorized(c, e, env));
    }

    /** Asks the provider whether the transient reference may be removed. */
    method Verify(actor: Actor, form: RunForm, env: Surroundings) returns (r: Result<bool>)
      requires store.Valid()
      modifies store
      ensures store.Valid()
      ensures Ran(VerifyScript(old(store.db), actor, form, env), old(store.db).log, old(store.fuel), store.db.log, store.fuel, r)
    {
      hide Run, Enabled, Effect, StartVerificationScript, VerifyRefusal;
      if !form.wellFormed || form.key.None? {
        return Failure(Refused(InvalidRequest));
      }
      var c := form.plan;
      if c !in store.db.cleanups {
        return Failure(Refused(NotFound));
      }
      var e := store.db.cleanups[c];
      if e.status == CAuthorized || e.status == CBlocked {
        return Success(e.status == CAuthorized);
      }
      var refusal := VerifyRefusal(store.db, actor, e);
      if refusal.Some? {
        return Failure(Refused(refusal.value));
      }
      if e.target.provider !in env.adapters {
        return Failure(Refused(AdapterUnavailable));
      }
      NotCompleted(store.initial, store.db, c);
      r := StartVerification(actor, c, form.key.value, env);
    }

    method StartVerification(actor: Actor, c: CleanupId, key: Key, env: Surroundings) returns (r: Result<bool>)
      requires store.Valid() && c in store.db.cleanups && store.db.cleanups[c].completed.None?
      requires store.db.cleanups[c].status != CAuthorized
      modifies store
      ensures store.Valid()
      ensures Ran(StartVerificationScript(old(store.db), actor, c, key, env),
                  old(store.db).log, old(store.fuel), store.db.log, store.fuel, r)
    {
      hide Run, Enabled, Effect, JudgeScript, Take;
      NewVerifyEnabled(store.db, c, actor, key);
      Taken<Action>([], store.fuel);
      TakeAfter([CreateJob(Job(CleanupVerifyRequest(c), actor, key, None, Preflight, None)), MoveJob(|store.db.jobs|, Running, None)],
                JudgeScript(c, store.db.cleanups[c], |store.db.jobs|, env).effects, store.fuel);
      var stored :- store.CreateActionJob(CleanupVerifyRequest(c), actor, key, None);
      var (j, created) := stored;
      if !created {
        if store.db.jobs[j].state in {Preflight, Running, Verifying} {
          return Failure(Refused(InProgress));
        }
        return Failure(Refused(PreviousAttemptFailed));
      }
      :- store.TransitionActionJob(j, Preflight, Running, None);
      r := Judge(c, j, env);
    }

    /** Records that the three copies are gone. */
    method Finish(c: CleanupId, j: JobId) returns (r: Result<CleanupReceipt>)
      requires store.Valid() && c in store.db.cleanups && Redacted(store.db, c) && IsRunOf(store.db, c, j)
      requires store.db.jobs[j].state in {Running, Verifying, Succeeded}
      modifies store
      ensures store.Valid()
      ensures Ran(FinishScript(c, old(store.db).cleanups[c], j, old(store.db).jobs[j].state, old(store.db).jobs[j].artifactKind),
                  old(store.db).log, old(store.fuel), store.db.log, store.fuel, r)
    {
      hide Run, Enabled, Effect, Redacted;
      var e := store.db.cleanups[c];
      var receipt := CleanupReceipt(j, store.db.jobs[j].artifactKind);
      if store.db.jobs[j].state == Running {
        MoveKeeps(store.db, c, j);
        :- store.TransitionActionJob(j, Running, Verifying, Some(Noted));
      }
      if store.db.jobs[j].state == Verifying {
        MoveKeeps(store.db, c, j);
        :- store.TransitionActionJob(j, Verifying, Succeeded, None);
      }
      CompleteEnabled(store.db, c, receipt);
      :- store.Commit(PutCleanup(c, e.(completed := Some(receipt))));
      return Success(receipt);
    }

    /** Removes the three copies, if they are there, in one transaction. */
    method Redact(c: CleanupId, j: JobId, present: bool, now: Time) returns (r: Result<CleanupReceipt>)
      requires store.Valid() && c in store.db.cleanups && Ready(store.db, c, present, now) && IsRunOf(store.db, c, j)
      requires store.db.jobs[j].state in {Running, Verifying}
      modifies store
      ensures store.Valid()
      ensures Ran(RedactScript(c, old(store.db).cleanups[c], j, old(store.db).jobs[j].state, old(store.db).jobs[j].artifactKind, present, now),
                  old(store.db).log, old(store.fuel), store.db.log, store.fuel, r)
    {
      hide Run, Enabled, Effect, FinishScript, Ready, Redacted;
      RedactEnabled(store.db, c, j, present, now);
      if present {
        :- store.Commit(ScrubArtifact(c, now));
      }
      r := Finish(c, j);
    }

    /** Executes an authorized cleanup, or resumes one that this very request began. */
    method Execute(actor: Actor, form: RunForm, env: Surroundings) returns (r: Result<CleanupReceipt>)
      requires store.Valid()
      modifies store
      ensures store.Valid()
      ensures Ran(ExecuteScript(old(store.db), actor, form, env), old(store.db).log, old(store.fuel), store.db.log, store.fuel, r)
    {
      hide Run, StartExecutionScript, AuthorityRefusal, ReadSource, Ready;
      if !form.wellFormed || form.key.None? {
        return Failure(Refused(InvalidRequest));
      }
      var c := form.plan;
      if c !in store.db.cleanups {
        return Failure(Refused(NotFound));
      }
      var e := store.db.cleanups[c];
      if e.completed.Some? {
        return Success(e.completed.value);
      }
      var refusal := AuthorityRefusal(store.db, actor, c, e, env);
      if refusal.Some? {
        return Failure(Refused(refusal.value));
      }
      var source :- ReadSource(store.db, e);
      ExecuteReady(store.initial, store.db, actor, c, env);
      r := StartExecution(actor, c, form.key.value, source, env.now);
    }

    method StartExecution(actor: Actor, c: CleanupId, key: Key, source: Source, now: Time) returns (r: Result<CleanupReceipt>)
      requires store.Valid() && c in store.db.cleanups && Ready(store.db, c, source.present, now)
      modifies store
      ensures store.Valid()
      ensures Ran(StartExecutionScript(old(store.db), actor, c, key, source, now),
                  old(store.db).log, old(store.fuel), store.db.log, store.fuel, r)
    {
      hide Run, Enabled, Effect, ProceedScript, Ready;
      NewExecuteReady(store.db, c, actor, key, source.kind, source.present, now);
      var stored :- store.CreateActionJob(CleanupExecuteRequest(c), actor, key, None, source.kind);
      r := Proceed(c, stored.0, source.present, now);
    }

    /** Takes an execution job on from wherever it is. */
    method Proceed(c: CleanupId, j: JobId, present: bool, now: Time) returns (r: Result<CleanupReceipt>)
      requires store.Valid() && c in store.db.cleanups && Ready(store.db, c, present, now) && IsRunOf(store.db, c, j)
      modifies store
      ensures store.Valid()
      ensures Ran(ProceedScript(c, old(store.db).cleanups[c], j, old(store.db).jobs[j], present, now),
                  old(store.db).log, old(store.fuel), store.db.log, store.fuel, r)
    {
      hide Run, Enabled, Effect, RedactScript, FinishScript, Ready, Redacted;
      match store.db.jobs[j].state {
        case Preflight =>
          RunningReady(store.db, c, j, present, now);
          :- store.TransitionActionJob(j, Preflight, Running, None);
        case Failed =>
          return Failure(Refused(PreviousAttemptFailed));
        case Succeeded =>
          if present {
            return Failure(Refused(ReferenceStillPresent));
          }
          RedactEnabled(store.db, c, j, present, now);
          r := Finish(c, j);
          return;
        case _ =>
      }
      r := Redact(c, j, present, now);
    }
  }

  // ----- what the operations rely on ------------------------------------------------------

  /** An execution job of this cleanup. */
  predicate IsRunOf(db: Db, c: CleanupId, j: JobId) {
    j < |db.jobs| && db.jobs[j].request == CleanupExecuteRequest(c)
  }

  /** The authorized cleanup may now scrub, or has nothing to scrub. */
  predicate Ready(db: Db, c: CleanupId, present: bool, now: Time) {
    && c in db.cleanups && db.cleanups[c].status == CAuthorized && db.cleanups[c].completed.None?
    && if present then ScrubAllowed(db, c, now) else CopiesScrubbed(db, db.cleanups[c].verification)
  }

  predicate Redacted(db: Db, c: CleanupId) {
    && c in db.cleanups && db.cleanups[c].status == CAuthorized && db.cleanups[c].completed.None?
    && CopiesScrubbed(db, db.cleanups[c].verification)
  }

  lemma ActorBound(state: HouseholdState, actor: Actor)
    requires ActorRefusal(state, actor).None?
    ensures MemberOf(state.bindings, actor).Some?
  {
  }

  lemma PlanEnabled(init: Db, db: Db, c: CleanupId, planned: Cleanup, form: PlanForm)
    requires Run(init, db) && c !in db.cleanups && IsRejected(db, form.verification)
    requires planned == PlannedCleanup(db, planned.actorMember, form)
    ensures Enabled(db, PutCleanup(c, planned))
  {
    Safety.InRun(init, db);
    hide Run, ThreeCopies;
    assert Safety.Backed(db, db.verifications[form.verification]);
  }

  lemma JudgeEnabled(db: Db, c: CleanupId, j: JobId, env: Surroundings)
    requires c in db.cleanups && db.cleanups[c].completed.None? && db.cleanups[c].status != CAuthorized
    requires JobFor(db, j, CleanupVerifyRequest(c), Running)
    ensures var e := db.cleanups[c];
      var failed := Apply(db, MoveJob(j, Failed, Some(Noted)));
      && Enabled(db, MoveJob(j, Failed, Some(Noted)))
      && Enabled(failed, PutCleanup(c, e.(status := CCheckFailed)))
    ensures var e := db.cleanups[c];
      var verifying := Apply(db, MoveJob(j, Verifying, Some(Noted)));
      var succeeded := Apply(verifying, MoveJob(j, Succeeded, None));
      && Enabled(db, MoveJob(j, Verifying, Some(Noted)))
      && JobFor(verifying, j, CleanupVerifyRequest(c), Verifying) && Enabled(verifying, MoveJob(j, Succeeded, None))
      && (env.readback.ReadResult? ==>
            var status := if Authorized(c, e, env) then CAuthorized else CBlocked;
            Enabled(succeeded, PutCleanup(c, e.(status := status, readback := Some(env.readback.result)))))
  {
    hide CleanupAuthorized;
  }

  lemma NewVerifyEnabled(db: Db, c: CleanupId, actor: Actor, key: Key)
    requires c in db.cleanups
    ensures var job := Job(CleanupVerifyRequest(c), actor, key, None, Preflight, None);
      var created := Apply(db, CreateJob(job));
      && (KeyUnused(db.jobs, job) ==> Enabled(db, CreateJob(job)))
      && created.jobs == db.jobs + [job] && Enabled(created, MoveJob(|db.jobs|, Running, None))
      && JobFor(Apply(created, MoveJob(|db.jobs|, Running, None)), |db.jobs|, CleanupVerifyRequest(c), Running)
      && Apply(created, MoveJob(|db.jobs|, Running, None)).cleanups == db.cleanups
  {
  }

  /** Only an authorized cleanup is ever completed. */
  ghost predicate CompletedAuthorized(db: Db) {
    forall c :: c in db.cleanups && db.cleanups[c].completed.Some? ==> db.cleanups[c].status == CAuthorized
  }

  lemma {:induction false} CompletedAuthorizedHolds(init: Db, actions: seq<Action>)
    requires Initial(init) && Legal(init, actions)
    ensures CompletedAuthorized(Fold(init, actions))
  {
    if actions != [] {
      hide Initial, Legal, Fold, Enabled, Apply, CompletedAuthorized;
      var before := actions[..|actions| - 1];
      LastStep(init, actions);
      CompletedAuthorizedHolds(init, before);
      CompletedAuthorizedStep(Fold(init, before), actions[|actions| - 1]);
    }
  }

  lemma CompletedAuthorizedStep(db: Db, a: Action)
    requires CompletedAuthorized(db) && Enabled(db, a)
    ensures CompletedAuthorized(Apply(db, a))
  {
    hide CreateAllowed, MoveAllowed, ExecutionAllowed, VerificationAllowed, DeenrollmentAllowed, HouseholdAllowed, ScrubAllowed,
      CleanupAuthorized, CopiesScrubbed, CleanupBound;
  }

  lemma NotCompleted(init: Db, db: Db, c: CleanupId)
    requires Run(init, db) && c in db.cleanups
    ensures db.cleanups[c].status != CAuthorized ==> db.cleanups[c].completed.None?
  {
    CompletedAuthorizedHolds(init, db.log);
    hide Legal, Fold;
  }

  lemma MoveKeeps(db: Db, c: CleanupId, j: JobId)
    requires IsRunOf(db, c, j) && Redacted(db, c)
    ensures forall to, result :: Edge(db.jobs[j].state, to) ==>
      var after := Apply(db, MoveJob(j, to, result));
      && Enabled(db, MoveJob(j, to, result)) && Redacted(after, c) && IsRunOf(after, c, j)
      && after.cleanups == db.cleanups && after.jobs[j].state == to && after.jobs[j].artifactKind == db.jobs[j].artifactKind
  {
  }

  lemma CompleteEnabled(db: Db, c: CleanupId, receipt: CleanupReceipt)
    requires Redacted(db, c)
    ensures Enabled(db, PutCleanup(c, db.cleanups[c].(completed := Some(receipt))))
  {
    hide CopiesScrubbed;
  }

  lemma RedactEnabled(db: Db, c: CleanupId, j: JobId, present: bool, now: Time)
    requires IsRunOf(db, c, j) && Ready(db, c, present, now)
    ensures if present then
        var after := Apply(db, ScrubArtifact(c, now));
        && Enabled(db, ScrubArtifact(c, now)) && Redacted(after, c) && IsRunOf(after, c, j)
        && after.cleanups == db.cleanups && after.jobs[j] == db.jobs[j]
      else Redacted(db, c)
  {
    hide CleanupAuthorized;
  }

  /** The checks of an execution are those the redaction needs. */
  lemma ExecuteReady(init: Db, db: Db, actor: Actor, c: CleanupId, env: Surroundings)
    requires Run(init, db) && c in db.cleanups && db.cleanups[c].completed.None?
    requires AuthorityRefusal(db, actor, c, db.cleanups[c], env).None? && ReadSource(db, db.cleanups[c]).Success?
    ensures Ready(db, c, ReadSource(db, db.cleanups[c]).value.present, env.now)
  {
    Safety.InRun(init, db);
    hide Run, CleanupAuthorized;
    BoundAuthority(db, actor, c, env);
    SourceCopies(db, db.cleanups[c]);
    hide AuthorityRefusal, ReadSource;
  }

  lemma BoundAuthority(db: Db, actor: Actor, c: CleanupId, env: Surroundings)
    requires c in db.cleanups && AuthorityRefusal(db, actor, c, db.cleanups[c], env).None?
    ensures var e := db.cleanups[c];
      && e.status == CAuthorized && e.readback.Some? && CleanupAuthorized(c, e, e.readback.value, env.now)
      && db.household.snapshot == e.base
      && IsRejected(db, e.verification) && db.verifications[e.verification].receipt == Some(e.rejected)
  {
    hide CleanupAuthorized, TargetRefusal, ActorRefusal;
  }

  /** The source the cleanup reads is the three copies of its verification. */
  lemma SourceCopies(db: Db, e: Cleanup)
    requires ReadSource(db, e).Success? && e.verification in db.verifications
    requires ThreeCopies(db, e.verification) && Safety.Backed(db, db.verifications[e.verification])
    requires Safety.PlanOf(db.verifications[e.verification]) == e.enrollment
    ensures db.executions[e.enrollment].status == Accepted
    ensures TargetOf(db.verifications[e.verification]) == e.target
    ensures if ReadSource(db, e).value.present then ReferencePresent(db, e.verification) else CopiesScrubbed(db, e.verification)
    ensures db.verifications[e.verification].status == VRejected ==>
      db.verifications[e.verification].receipt.Some? && db.verifications[e.verification].receipt.value.failure.Some?
  {
  }

  lemma NewExecuteReady(db: Db, c: CleanupId, actor: Actor, key: Key, kind: ArtifactKind, present: bool, now: Time)
    requires Ready(db, c, present, now)
    ensures var job := Job(CleanupExecuteRequest(c), actor, key, None, Preflight, None, kind);
      var created := Apply(db, CreateJob(job));
      && (KeyUnused(db.jobs, job) ==> Enabled(db, CreateJob(job)))
      && created.jobs == db.jobs + [job] && created.cleanups == db.cleanups && Ready(created, c, present, now)
  {
    hide CleanupAuthorized;
  }

  lemma RunningReady(db: Db, c: CleanupId, j: JobId, present: bool, now: Time)
    requires IsRunOf(db, c, j) && db.jobs[j].state == Preflight && Ready(db, c, present, now)
    ensures var running := Apply(db, MoveJob(j, Running, None));
      && Enabled(db, MoveJob(j, Running, None))
      && running.cleanups == db.cleanups && Ready(running, c, present, now) && IsRunOf(running, c, j)
      && running.jobs[j].state == Running && running.jobs[j].artifactKind == db.jobs[j].artifactKind
  {
    hide CleanupAuthorized;
  }
}
