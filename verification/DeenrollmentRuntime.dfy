/**
  De-enrollment of a managed device: planning, the step-up confirmation, the one provider mutation
  with its read-back, the local apply, and read-only reconciliation.
 */
module DeenrollmentRuntime {
  import opened Wrappers
  import opened Records
  import opened Protocol
  import opened DurableStore
  import opened Scripts
  import Safety = DeenrollmentSafety
  import Flips = HouseholdSafety

  datatype PlanForm = PlanForm(wellFormed: bool, verification: VerificationId, maxAge: int)
  datatype ConfirmForm = ConfirmForm(wellFormed: bool, plan: DeenrollmentId)
  datatype ExecuteForm = ExecuteForm(wellFormed: bool, plan: DeenrollmentId, key: Option<Key>)

  /** What the runtime meets outside the store.  `granted`: the step-up token is valid for this
      actor and scope; `clockValid`: the trusted clock yields a well-formed timestamp `now`. */
  datatype Surroundings = Surroundings(
    adapters: set<ProviderId>,
    granted: bool,
    mutation: MutationAnswer,
    readback: ReadAnswer<ReadbackResult>,
    clockValid: bool,
    now: Time)

  /** `Unmanaged`: the managed flag is cleared; `Reported`: only what was observed is returned. */
  datatype Completion = Unmanaged(receipt: CheckReceipt) | Reported(receipt: CheckReceipt)

  // ----- planning and confirmation --------------------------------------------------------

  predicate IsApplied(db: Db, v: VerificationId) {
    v in db.verifications && db.verifications[v].status == VApplied && db.verifications[v].receipt.Some?
  }

  function PlanRefusal(db: Db, actor: Actor, form: PlanForm, env: Surroundings): Option<Code> {
    var refusal := ActorRefusal(db.household, actor);
    if !form.wellFormed then Some(InvalidRequest)
    else if refusal.Some? then refusal
    else if !IsApplied(db, form.verification) then Some(VerificationNotApplied)
    else
      var device := TargetRefusal(db.household, TargetOf(db.verifications[form.verification]), true);
      if device.Some? then device
      else if !env.clockValid || !(1 <= form.maxAge <= MAX_AGE) then Some(InvalidRequest)
      else None
  }

  function PlannedDeenrollment(db: Db, actorMember: MemberId, form: PlanForm, now: Time): Deenrollment
    requires form.verification in db.verifications
  {
    Deenrollment(form.verification, TargetOf(db.verifications[form.verification]), actorMember, now, form.maxAge,
                 db.household.snapshot, db.household.bindings, DPlanned, None, None, None, None, None)
  }

  function PlanScript(db: Db, actor: Actor, d: DeenrollmentId, form: PlanForm, env: Surroundings): Script<Deenrollment> {
    var refusal := PlanRefusal(db, actor, form, env);
    if refusal.Some? then Refuse(refusal.value)
    else
      var planned := PlannedDeenrollment(db, MemberOf(db.household.bindings, actor).value, form, env.now);
      if d !in db.deenrollments then Script([PutDeenrollment(d, planned)], Success(planned))
      else if db.deenrollments[d] != planned then Refuse(StateInvalid)
      else Script([], Success(planned))
  }

  /** Why the plan cannot be rebuilt from the enrollment's verification, if so. */
  function RebuildRefusal(db: Db, e: Deenrollment): Option<Code> {
    if !IsApplied(db, e.verification) then Some(VerificationNotApplied)
    else if e.target != TargetOf(db.verifications[e.verification]) then Some(StateInvalid)
    else None
  }

  /** Why the plan may not be carried out now by this actor, if so. */
  function Revalidation(db: Db, actor: Actor, e: Deenrollment): Option<Code> {
    var refusal := ActorRefusal(db.household, actor);
    if refusal.Some? then refusal
    else if MemberOf(db.household.bindings, actor) != Some(e.actorMember) then Some(ActorMismatch)
    else if db.household != HouseholdState(e.base, e.bindings) then Some(Stale)
    else TargetRefusal(db.household, e.target, true)
  }

  function ConfirmScript(db: Db, actor: Actor, form: ConfirmForm, env: Surroundings): Script<Time> {
    var d := form.plan;
    if !form.wellFormed then Refuse(InvalidRequest)
    else if d !in db.deenrollments then Refuse(NotFound)
    else
      var e := db.deenrollments[d];
      var rebuilt, stale := RebuildRefusal(db, e), Revalidation(db, actor, e);
      if e.status == DConfirmed && e.confirmedAt.Some? then Script([], Success(e.confirmedAt.value))
      else if rebuilt.Some? then Refuse(rebuilt.value)
      else if stale.Some? then Refuse(stale.value)
      else if !env.granted then Refuse(StepUpRequired)
      else
        var consumed := [ConsumeStepUp(DeenrollmentScope(d))];
        if !env.clockValid || env.now < e.requestedAt then Script(consumed, Failure(Refused(TrustedTimeInvalid)))
        else
          Script(consumed + [PutDeenrollment(d, e.(status := DConfirmed, confirmedAt := Some(env.now)))], Success(env.now))
  }

  // ----- the local apply ------------------------------------------------------------------

  /** The Household already is the expected one: what is left is the job, then the envelope. */
  function CompleteScript(d: DeenrollmentId, e: Deenrollment, j: JobId, state: JobState): Script<Completion>
    requires e.receipt.Some?
  {
    if state == Verifying then
      Script([MoveJob(j, Succeeded, None), PutDeenrollment(d, e.(status := DApplied))], Success(Unmanaged(e.receipt.value)))
    else if state == Succeeded then
      Script([PutDeenrollment(d, e.(status := DApplied))], Success(Unmanaged(e.receipt.value)))
    else Refuse(StateInvalid)
  }

  /** From the stored expectation on. */
  function WriteScript(d: DeenrollmentId, e: Deenrollment, j: JobId, household: HouseholdState, state: JobState): Script<Completion>
    requires e.receipt.Some? && e.expected.Some?
  {
    if household.snapshot == e.base then
      Then([PutHousehold(ByDeenrollment(d), HouseholdState(e.expected.value, household.bindings))], CompleteScript(d, e, j, state))
    else if household.snapshot != e.expected.value then Refuse(Stale)
    else CompleteScript(d, e, j, state)
  }

  /** From the verified read-back to the cleared flag.  An expectation left by an earlier attempt is
      used as it is, and then the envelope is not marked as pending. */
  function ApplyScript(d: DeenrollmentId, e: Deenrollment, j: JobId, household: HouseholdState, state: JobState): Script<Completion>
    requires e.receipt.Some?
  {
    var expected := FlippedSnapshot(e.base, e.target.device, e.target.member, false);
    if e.expected.Some? then WriteScript(d, e, j, household, state)
    else if expected.Failure? then Script([], Failure(expected.error))
    else
      var pending := e.(status := DPendingApply, expected := Some(expected.value));
      Then([PutDeenrollment(d, pending)], WriteScript(d, pending, j, household, state))
  }

  // ----- execution ------------------------------------------------------------------------

  /** The receipt of a read-back that can be judged; None if it cannot. */
  function Verdict(d: DeenrollmentId, e: Deenrollment, j: JobId, env: Surroundings): Option<CheckReceipt> {
    if env.readback.ReadResult? && env.clockValid
    then Some(CheckReceipt(j, DeenrollFailure(d, e.target, e.maxAge, env.readback.result, env.now), env.now))
    else None
  }

  function ReadFailureCode(env: Surroundings): Code {
    match env.readback
    case ReadResult(_) => TrustedTimeInvalid
    case MalformedResult => ResultRejected
    case ReadRaised => ProviderError
  }

  /** From the accepted mutation on. */
  function ReadBackScript(d: DeenrollmentId, e: Deenrollment, j: JobId, household: HouseholdState, env: Surroundings): Script<Completion> {
    var verdict := Verdict(d, e, j, env);
    if verdict.None? then
      Script([MoveJob(j, Failed, Some(Noted)), PutDeenrollment(d, e.(status := DReconcileRequired))],
             Failure(Refused(ReadFailureCode(env))))
    else
      var judged := e.(readback := Some(env.readback.result), receipt := verdict);
      if verdict.value.failure.Some? then
        Script([MoveJob(j, Failed, Some(Noted)), PutDeenrollment(d, judged.(status := DReconcileRequired))],
               Failure(Refused(VerificationRejected)))
      else if household.snapshot != e.base then Refuse(Stale)
      else Then([PutDeenrollment(d, judged)], ApplyScript(d, judged, j, household, Verifying))
  }

  /** From the provider's answer to the mutation on. */
  function AnsweredScript(d: DeenrollmentId, e: Deenrollment, j: JobId, household: HouseholdState, env: Surroundings): Script<Completion> {
    match env.mutation
    case MutationAccepted =>
      var verifying := e.(status := DVerifying);
      Then([MoveJob(j, Verifying, Some(Noted)), PutDeenrollment(d, verifying)], ReadBackScript(d, verifying, j, household, env))
    case MutationRejected =>
      Script([MoveJob(j, Failed, Some(Noted)), PutDeenrollment(d, e.(status := DProviderRejected))], Failure(Refused(ProviderRejected)))
    case _ =>
      Script([MoveJob(j, Failed, Some(Noted)), PutDeenrollment(d, e.(status := DReconcileRequired))], Failure(Refused(OutcomeAmbiguous)))
  }

  /** From the new job on. */
  function MutateScript(d: DeenrollmentId, e: Deenrollment, j: JobId, household: HouseholdState, env: Surroundings): Script<Completion> {
    var running := e.(status := DProviderRunning, job := Some(j));
    Then([MoveJob(j, Running, None), PutDeenrollment(d, running), CallDeenroll(d, j)],
         AnsweredScript(d, running, j, household, env))
  }

  function ExecuteScript(db: Db, actor: Actor, form: ExecuteForm, env: Surroundings): Script<Completion> {
    var d := form.plan;
    if !form.wellFormed || form.key.None? then Refuse(InvalidRequest)
    else if d !in db.deenrollments then Refuse(NotFound)
    else
      var e := db.deenrollments[d];
      var rebuilt, stale := RebuildRefusal(db, e), Revalidation(db, actor, e);
      if e.status == DApplied && e.receipt.Some? then Script([], Success(Unmanaged(e.receipt.value)))
      else if e.status == DReconcileRequired then Refuse(ReconciliationRequired)
      else if e.status != DConfirmed then Refuse(ConfirmationRequired)
      else if rebuilt.Some? then Refuse(rebuilt.value)
      else if stale.Some? then Refuse(stale.value)
      else if e.confirmedAt.None? then Refuse(ConfirmationRequired)
      else if e.target.provider !in env.adapters then Refuse(AdapterUnavailable)
      else
        var job := Job(DeenrollRequest(d), actor, form.key.value, None, Preflight, None);
        var existing := FindKey(db.jobs, job);
        if existing.None? then Then([CreateJob(job)], MutateScript(d, e, |db.jobs|, db.household, env))
        else if db.jobs[existing.value].request != job.request then Refuse(IdempotencyConflict)
        else Refuse(ReconciliationRequired)
  }

  // ----- reconciliation -------------------------------------------------------------------

  /** From a judged read-back on. */
  function WeighScript(d: DeenrollmentId, judged: Deenrollment, j: JobId, household: HouseholdState): Script<Completion>
    requires judged.receipt.Some?
  {
    if judged.receipt.value.failure.Some? then
      Script([MoveJob(j, Succeeded, None), PutDeenrollment(d, judged)], Success(Reported(judged.receipt.value)))
    else
      var pending := judged.(status := DPendingApply, job := Some(j));
      Then([PutDeenrollment(d, pending)], ApplyScript(d, pending, j, household, Verifying))
  }

  /** From the running reconciliation job on. */
  function ExamineScript(d: DeenrollmentId, e: Deenrollment, j: JobId, household: HouseholdState, env: Surroundings): Script<Completion> {
    var verdict := Verdict(d, e, j, env);
    if verdict.None? then Script([MoveJob(j, Failed, Some(Noted))], Failure(Refused(ReadFailureCode(env))))
    else
      var judged := e.(readback := Some(env.readback.result), receipt := verdict);
      Then([MoveJob(j, Verifying, Some(Noted))], WeighScript(d, judged, j, household))
  }

  /** The receipt an envelope carries: its own, or else that of the enrollment's verification. */
  function CarriedReceipt(db: Db, e: Deenrollment): Option<CheckReceipt> {
    if e.receipt.Some? then e.receipt
    else if e.verification in db.verifications then db.verifications[e.verification].receipt
    else None
  }

  function FinishScript(db: Db, d: DeenrollmentId, e: Deenrollment): Script<Completion> {
    if e.expected.None? then Refuse(StateInvalid)
    else if db.household.snapshot != e.base && db.household.snapshot != e.expected.value then Refuse(Stale)
    else if e.job.None? || e.job.value >= |db.jobs| || e.receipt.None? then Refuse(StateInvalid)
    else ApplyScript(d, e, e.job.value, db.household, db.jobs[e.job.value].state)
  }

  function StartReconciliationScript(db: Db, actor: Actor, d: DeenrollmentId, key: Key, env: Surroundings): Script<Completion>
    requires d in db.deenrollments
  {
    var e := db.deenrollments[d];
    var job := Job(ReconcileRequest(d), actor, key, None, Preflight, None);
    var existing := FindKey(db.jobs, job);
    if existing.None? then
      Then([CreateJob(job), MoveJob(|db.jobs|, Running, None)], ExamineScript(d, e, |db.jobs|, db.household, env))
    else if db.jobs[existing.value].request != job.request then Refuse(IdempotencyConflict)
    else if db.jobs[existing.value].state == Succeeded && CarriedReceipt(db, e).Some? then
      Script([], Success(Reported(CarriedReceipt(db, e).value)))
    else Refuse(InProgress)
  }

  function ReconcileScript(db: Db, actor: Actor, form: ExecuteForm, env: Surroundings): Script<Completion> {
    var d := form.plan;
    if !form.wellFormed || form.key.None? then Refuse(InvalidRequest)
    else if d !in db.deenrollments then Refuse(NotFound)
    else
      var e := db.deenrollments[d];
      var rebuilt, stale := RebuildRefusal(db, e), Revalidation(db, actor, e);
      if e.status == DApplied && e.receipt.Some? then Script([], Success(Unmanaged(e.receipt.value)))
      else if rebuilt.Some? then Refuse(rebuilt.value)
      else if e.confirmedAt.None? then Refuse(ConfirmationRequired)
      else if e.status == DPendingApply then FinishScript(db, d, e)
      else if e.status != DReconcileRequired then Refuse(ReconciliationNotRequired)
      else if stale.Some? then Refuse(stale.value)
      else if e.target.provider !in env.adapters then Refuse(AdapterUnavailable)
      else StartReconciliationScript(db, actor, d, form.key.value, env)
  }

  // ----- the runtime ----------------------------------------------------------------------

  class Runtime {
    const store: Store

    constructor (store: Store)
      ensures this.store == store
    {
      this.store := store;
    }

    /** Stores a de-enrollment plan.  `d` is the digest of the plan. */
    method Plan(actor: Actor, d: DeenrollmentId, form: PlanForm, env: Surroundings) returns (r: Result<Deenrollment>)
      requires store.Valid()
      modifies store
      ensures store.Valid()
      ensures Ran(PlanScript(old(store.db), actor, d, form, env), old(store.db).log, old(store.fuel), store.db.log, store.fuel, r)
    {
      hide Run, Enabled, TargetRefusal;
      var refusal := PlanRefusal(store.db, actor, form, env);
      if refusal.Some? {
        return Failure(Refused(refusal.value));
      }
      var planned := PlannedDeenrollment(store.db, MemberOf(store.db.household.bindings, actor).value, form, env.now);
      if d !in store.db.deenrollments {
        PutEnabled(store.db, d, planned);
        :- store.Commit(PutDeenrollment(d, planned));
      } else if store.db.deenrollments[d] != planned {
        return Failure(Refused(StateInvalid));
      }
      return Success(planned);
    }

    /** Accepts the plan once more, against one step-up grant. */
    method Confirm(actor: Actor, form: ConfirmForm, env: Surroundings) returns (r: Result<Time>)
      requires store.Valid()
      modifies store
      ensures store.Valid()
      ensures Ran(ConfirmScript(old(store.db), actor, form, env), old(store.db).log, old(store.fuel), store.db.log, store.fuel, r)
    {
      hide Run, Enabled, TargetRefusal, RebuildRefusal, ActorRefusal;
      if !form.wellFormed {
        return Failure(Refused(InvalidRequest));
      }
      var d := form.plan;
      if d !in store.db.deenrollments {
        return Failure(Refused(NotFound));
      }
      var e := store.db.deenrollments[d];
      if e.status == DConfirmed && e.confirmedAt.Some? {
        return Success(e.confirmedAt.value);
      }
      var refusal := RebuildRefusal(store.db, e);
      if refusal.None? {
        refusal := Revalidation(store.db, actor, e);
      }
      if refusal.Some? {
        return Failure(Refused(refusal.value));
      }
      if !env.granted {
        return Failure(Refused(StepUpRequired));
      }
      ConfirmEnabled(store.initial, store.db, d, env.now);
      :- store.Commit(ConsumeStepUp(DeenrollmentScope(d)));
      if !env.clockValid || env.now < e.requestedAt {
        return Failure(Refused(TrustedTimeInvalid));
      }
      :- store.Commit(PutDeenrollment(d, e.(status := DConfirmed, confirmedAt := Some(env.now))));
      return Success(env.now);
    }

    /** Ends a de-enrollment whose Household has been written. */
    method Complete(d: DeenrollmentId, j: JobId) returns (r: Result<Completion>)
      requires store.Valid() && Verified(store.db, d, j)
      requires store.db.deenrollments[d].expected == Some(store.db.household.snapshot)
      modifies store
      ensures store.Valid()
      ensures Ran(CompleteScript(d, old(store.db).deenrollments[d], j, old(store.db).jobs[j].state),
                  old(store.db).log, old(store.fuel), store.db.log, store.fuel, r)
    {
      hide Run, Enabled, DeenrollVerified;
      var e := store.db.deenrollments[d];
      if store.db.jobs[j].state == Verifying {
        MoveEnabled(store.db, d, j);
        :- store.TransitionActionJob(j, Verifying, Succeeded, None);
      } else if store.db.jobs[j].state != Succeeded {
        return Failure(Refused(StateInvalid));
      }
      PutEnabled(store.db, d, e.(status := DApplied));
      :- store.Commit(PutDeenrollment(d, e.(status := DApplied)));
      return Success(Unmanaged(e.receipt.value));
    }

    /** Writes the stored expectation. */
    method Write(d: DeenrollmentId, j: JobId) returns (r: Result<Completion>)
      requires store.Valid() && Verified(store.db, d, j) && store.db.deenrollments[d].expected.Some?
      modifies store
      ensures store.Valid()
      ensures Ran(WriteScript(d, old(store.db).deenrollments[d], j, old(store.db).household, old(store.db).jobs[j].state),
                  old(store.db).log, old(store.fuel), store.db.log, store.fuel, r)
    {
      hide Run, Enabled, Effect, CompleteScript, DeenrollVerified, Verified;
      VerifiedFacts(store.db, d, j);
      var e := store.db.deenrollments[d];
      if store.db.household.snapshot == e.base {
        var written := HouseholdState(e.expected.value, store.db.household.bindings);
        WriteEnabled(store.db, d, j);
        :- store.Commit(PutHousehold(ByDeenrollment(d), written));
      } else if store.db.household.snapshot != e.expected.value {
        return Failure(Refused(Stale));
      }
      r := Complete(d, j);
    }

    method ApplyVerified(d: DeenrollmentId, j: JobId) returns (r: Result<Completion>)
      requires store.Valid() && Verified(store.db, d, j)
      modifies store
      ensures store.Valid()
      ensures Ran(ApplyScript(d, old(store.db).deenrollments[d], j, old(store.db).household, old(store.db).jobs[j].state),
                  old(store.db).log, old(store.fuel), store.db.log, store.fuel, r)
    {
      hide Run, Enabled, WriteScript, DeenrollVerified, FlippedSnapshot;
      var e := store.db.deenrollments[d];
      if e.expected.None? {
        var expected := FlippedSnapshot(e.base, e.target.device, e.target.member, false);
        if expected.Failure? {
          return Failure(expected.error);
        }
        var pending := e.(status := DPendingApply, expected := Some(expected.value));
        PendingEnabled(store.db, d, j, pending);
        :- store.Commit(PutDeenrollment(d, pending));
      }
      r := Write(d, j);
    }

    /** Records that the outcome must be reconciled. */
    method MarkReconcileRequired(d: DeenrollmentId, j: JobId, e: Deenrollment, code: Code) returns (r: Result<Completion>)
      requires store.Valid() && Attempting(store.db, d, j)
      requires e.status == DReconcileRequired && DeenrollmentAllowed(store.db, d, e)
      modifies store
      ensures store.Valid()
      ensures Ran(Script([MoveJob(j, Failed, Some(Noted)), PutDeenrollment(d, e)], Failure(Refused(code))),
                  old(store.db).log, old(store.fuel), store.db.log, store.fuel, r)
    {
      hide Run, Enabled, Effect, DeenrollmentAllowed;
      EndEnabled(store.db, d, j, e);
      :- store.TransitionActionJob(j, store.db.jobs[j].state, Failed, Some(Noted));
      :- store.Commit(PutDeenrollment(d, e));
      return Failure(Refused(code));
    }

    /** Reads the provider's state back and judges it. */
    method ReadBack(d: DeenrollmentId, j: JobId, env: Surroundings) returns (r: Result<Completion>)
      requires store.Valid() && Attempting(store.db, d, j)
      requires store.db.deenrollments[d].status == DVerifying && store.db.jobs[j].state == Verifying
      modifies store
      ensures store.Valid()
      ensures Ran(ReadBackScript(d, old(store.db).deenrollments[d], j, old(store.db).household, env),
                  old(store.db).log, old(store.fuel), store.db.log, store.fuel, r)
    {
      hide Run, Enabled, Effect, ApplyScript, Verdict, DeenrollmentAllowed;
      var e := store.db.deenrollments[d];
      var verdict := Verdict(d, e, j, env);
      VerdictEnabled(store.db, d, j, env);
      if verdict.None? {
        r := MarkReconcileRequired(d, j, e.(status := DReconcileRequired), ReadFailureCode(env));
        return;
      }
      var judged := e.(readback := Some(env.readback.result), receipt := verdict);
      if verdict.value.failure.Some? {
        r := MarkReconcileRequired(d, j, judged.(status := DReconcileRequired), VerificationRejected);
        return;
      }
      if store.db.household.snapshot != e.base {
        return Failure(Refused(Stale));
      }
      :- store.Commit(PutDeenrollment(d, judged));
      r := ApplyVerified(d, j);
    }

    /** Records what the provider answered to the mutation. */
    method Answered(d: DeenrollmentId, j: JobId, env: Surroundings) returns (r: Result<Completion>)
      requires store.Valid() && Attempting(store.db, d, j)
      requires store.db.deenrollments[d].status == DProviderRunning && store.db.jobs[j].state == Running
      modifies store
      ensures store.Valid()
      ensures Ran(AnsweredScript(d, old(store.db).deenrollments[d], j, old(store.db).household, env),
                  old(store.db).log, old(store.fuel), store.db.log, store.fuel, r)
    {
      hide Run, Enabled, Effect, ReadBackScript, DeenrollmentAllowed, Take;
      var e := store.db.deenrollments[d];
      AnswerEnabled(store.db, d, j);
      Taken([MoveJob(j, Failed, Some(Noted)), PutDeenrollment(d, e.(status := DProviderRejected))], store.fuel);
      TakeAfter([MoveJob(j, Verifying, Some(Noted)), PutDeenrollment(d, e.(status := DVerifying))],
                ReadBackScript(d, e.(status := DVerifying), j, store.db.household, env).effects, store.fuel);
      match env.mutation
      case MutationAccepted =>
        :- store.TransitionActionJob(j, Running, Verifying, Some(Noted));
        :- store.Commit(PutDeenrollment(d, e.(status := DVerifying)));
        r := ReadBack(d, j, env);
      case MutationRejected =>
        :- store.TransitionActionJob(j, Running, Failed, Some(Noted));
        :- store.Commit(PutDeenrollment(d, e.(status := DProviderRejected)));
        return Failure(Refused(ProviderRejected));
      case _ =>
        r := MarkReconcileRequired(d, j, e.(status := DReconcileRequired), OutcomeAmbiguous);
    }

    /** Sends the one provider mutation of a new job. */
    method Mutate(d: DeenrollmentId, j: JobId, env: Surroundings) returns (r: Result<Completion>)
      requires store.Valid() && d in store.db.deenrollments && store.db.deenrollments[d].status == DConfirmed
      requires JobFor(store.db, j, DeenrollRequest(d), Preflight) && CallDeenroll(d, j) !in store.db.log
      modifies store
      ensures store.Valid()
      ensures Ran(MutateScript(d, old(store.db).deenrollments[d], j, old(store.db).household, env),
                  old(store.db).log, old(store.fuel), store.db.log, store.fuel, r)
    {
      hide Run, Enabled, Effect, AnsweredScript, Take;
      var running := store.db.deenrollments[d].(status := DProviderRunning, job := Some(j));
      MutateEnabled(store.db, d, j);
      TakeAfter([MoveJob(j, Running, None), PutDeenrollment(d, running), CallDeenroll(d, j)],
                AnsweredScript(d, running, j, store.db.household, env).effects, store.fuel);
      :- store.TransitionActionJob(j, Preflight, Running, None);
      :- store.Commit(PutDeenrollment(d, running));
      :- store.Commit(CallDeenroll(d, j));
      r := Answered(d, j, env);
    }

    /** Executes a confirmed de-enrollment. */
    method Execute(actor: Actor, form: ExecuteForm, env: Surroundings) returns (r: Result<Completion>)
      requires store.Valid()
      modifies store
      ensures store.Valid()
      ensures Ran(ExecuteScript(old(store.db), actor, form, env), old(store.db).log, old(store.fuel), store.db.log, store.fuel, r)
    {
      hide Run, Enabled, MutateScript, RebuildRefusal, Revalidation, Take;
      Taken<Action>([], store.fuel);
      if !form.wellFormed || form.key.None? {
        return Failure(Refused(InvalidRequest));
      }
      var d := form.plan;
      if d !in store.db.deenrollments {
        return Failure(Refused(NotFound));
      }
      var e := store.db.deenrollments[d];
      if e.status == DApplied && e.receipt.Some? {
        return Success(Unmanaged(e.receipt.value));
      }
      if e.status == DReconcileRequired {
        return Failure(Refused(ReconciliationRequired));
      }
      if e.status != DConfirmed {
        return Failure(Refused(ConfirmationRequired));
      }
      var refusal := RebuildRefusal(store.db, e);
      if refusal.None? {
        refusal := Revalidation(store.db, actor, e);
      }
      if refusal.Some? {
        return Failure(Refused(refusal.value));
      }
      if e.confirmedAt.None? {
        return Failure(Refused(ConfirmationRequired));
      }
      if e.target.provider !in env.adapters {
        return Failure(Refused(AdapterUnavailable));
      }
      NewJobEnabled(store.initial, store.db, d, Job(DeenrollRequest(d), actor, form.key.value, None, Preflight, None));
      TakeAfter([CreateJob(Job(DeenrollRequest(d), actor, form.key.value, None, Preflight, None))],
                MutateScript(d, e, |store.db.jobs|, store.db.household, env).effects, store.fuel);
      var stored :- store.CreateActionJob(DeenrollRequest(d), actor, form.key.value, None);
      var (j, created) := stored;
      if !created {
        return Failure(Refused(ReconciliationRequired));
      }
      r := Mutate(d, j, env);
    }

    /** Judges the read-back of a running reconciliation. */
    method Examine(d: DeenrollmentId, j: JobId, env: Surroundings) returns (r: Result<Completion>)
      requires store.Valid() && d in store.db.deenrollments && store.db.deenrollments[d].status == DReconcileRequired
      requires JobFor(store.db, j, ReconcileRequest(d), Running)
      modifies store
      ensures store.Valid()
      ensures Ran(ExamineScript(d, old(store.db).deenrollments[d], j, old(store.db).household, env),
                  old(store.db).log, old(store.fuel), store.db.log, store.fuel, r)
    {
      hide Run, Enabled, Effect, WeighScript, CanWeigh, Verdict, Take;
      var e := store.db.deenrollments[d];
      var verdict := Verdict(d, e, j, env);
      ExamineEnabled(store.db, d, j, env);
      Taken([MoveJob(j, Failed, Some(Noted))], store.fuel);
      if verdict.None? {
        :- store.TransitionActionJob(j, Running, Failed, Some(Noted));
        return Failure(Refused(ReadFailureCode(env)));
      }
      var judged := e.(readback := Some(env.readback.result), receipt := verdict);
      TakeAfter([MoveJob(j, Verifying, Some(Noted))], WeighScript(d, judged, j, store.db.household).effects, store.fuel);
      :- store.TransitionActionJob(j, Running, Verifying, Some(Noted));
      r := Weigh(d, j, judged);
    }

    /** Ends with what was observed, the envelope staying to be reconciled, or applies it. */
    method Weigh(d: DeenrollmentId, j: JobId, judged: Deenrollment) returns (r: Result<Completion>)
      requires store.Valid() && JobFor(store.db, j, ReconcileRequest(d), Verifying) && CanWeigh(store.db, d, j, judged)
      modifies store
      ensures store.Valid()
      ensures Ran(WeighScript(d, judged, j, old(store.db).household), old(store.db).log, old(store.fuel), store.db.log, store.fuel, r)
    {
      hide Run, Enabled, Effect, ApplyScript;
      if judged.receipt.value.failure.Some? {
        :- store.TransitionActionJob(j, Verifying, Succeeded, None);
        :- store.Commit(PutDeenrollment(d, judged));
        return Success(Reported(judged.receipt.value));
      }
      :- store.Commit(PutDeenrollment(d, judged.(status := DPendingApply, job := Some(j))));
      r := ApplyVerified(d, j);
    }

    /** Finishes a verified de-enrollment whose local apply was interrupted. */
    method Finish(d: DeenrollmentId) returns (r: Result<Completion>)
      requires store.Valid() && d in store.db.deenrollments && store.db.deenrollments[d].status == DPendingApply
      modifies store
      ensures store.Valid()
      ensures Ran(FinishScript(old(store.db), d, old(store.db).deenrollments[d]),
                  old(store.db).log, old(store.fuel), store.db.log, store.fuel, r)
    {
      hide Run, ApplyScript;
      var e := store.db.deenrollments[d];
      if e.expected.None? {
        return Failure(Refused(StateInvalid));
      }
      if store.db.household.snapshot != e.base && store.db.household.snapshot != e.expected.value {
        return Failure(Refused(Stale));
      }
      if e.job.None? || e.job.value >= |store.db.jobs| || e.receipt.None? {
        return Failure(Refused(StateInvalid));
      }
      PendingVerified(store.initial, store.db, d);
      r := ApplyVerified(d, e.job.value);
    }

    /** Reads the provider's state again, without any mutation, and applies what it verifies. */
    method Reconcile(actor: Actor, form: ExecuteForm, env: Surroundings) returns (r: Result<Completion>)
      requires store.Valid()
      modifies store
      ensures store.Valid()
      ensures Ran(ReconcileScript(old(store.db), actor, form, env), old(store.db).log, old(store.fuel), store.db.log, store.fuel, r)
    {
      hide Run, Enabled, FinishScript, ExamineScript, RebuildRefusal, Revalidation;
      if !form.wellFormed || form.key.None? {
        return Failure(Refused(InvalidRequest));
      }
      var d := form.plan;
      if d !in store.db.deenrollments {
        return Failure(Refused(NotFound));
      }
      var e := store.db.deenrollments[d];
      if e.status == DApplied && e.receipt.Some? {
        return Success(Unmanaged(e.receipt.value));
      }
      var refusal := RebuildRefusal(store.db, e);
      if refusal.Some? {
        return Failure(Refused(refusal.value));
      }
      if e.confirmedAt.None? {
        return Failure(Refused(ConfirmationRequired));
      }
      if e.status == DPendingApply {
        r := Finish(d);
        return;
      }
      if e.status != DReconcileRequired {
        return Failure(Refused(ReconciliationNotRequired));
      }
      refusal := Revalidation(store.db, actor, e);
      if refusal.Some? {
        return Failure(Refused(refusal.value));
      }
      if e.target.provider !in env.adapters {
        return Failure(Refused(AdapterUnavailable));
      }
      r := StartReconciliation(actor, d, form.key.value, env);
    }

    method StartReconciliation(actor: Actor, d: DeenrollmentId, key: Key, env: Surroundings) returns (r: Result<Completion>)
      requires store.Valid() && d in store.db.deenrollments && store.db.deenrollments[d].status == DReconcileRequired
      modifies store
      ensures store.Valid()
      ensures Ran(StartReconciliationScript(old(store.db), actor, d, key, env),
                  old(store.db).log, old(store.fuel), store.db.log, store.fuel, r)
    {
      hide Run, Enabled, Effect, ExamineScript, Take;
      var job := Job(ReconcileRequest(d), actor, key, None, Preflight, None);
      NewReconciliationEnabled(store.db, d, job);
      Taken<Action>([], store.fuel);
      TakeAfter([CreateJob(job), MoveJob(|store.db.jobs|, Running, None)],
                ExamineScript(d, store.db.deenrollments[d], |store.db.jobs|, store.db.household, env).effects, store.fuel);
      var stored :- store.CreateActionJob(ReconcileRequest(d), actor, key, None);
      var (j, created) := stored;
      if !created {
        var receipt := CarriedReceipt(store.db, store.db.deenrollments[d]);
        if store.db.jobs[j].state == Succeeded && receipt.Some? {
          return Success(Reported(receipt.value));
        }
        return Failure(Refused(InProgress));
      }
      :- store.TransitionActionJob(j, Preflight, Running, None);
      r := Examine(d, j, env);
    }
  }

  // ----- what the operations rely on ------------------------------------------------------

  /** The verified read-back of the attempt that job `j` stands for is stored. */
  predicate Verified(db: Db, d: DeenrollmentId, j: JobId) {
    && d in db.deenrollments
    && (db.deenrollments[d].status == DVerifying || db.deenrollments[d].status == DPendingApply)
    && DeenrollVerified(d, db.deenrollments[d]) && db.deenrollments[d].receipt.Some?
    && db.deenrollments[d].job == Some(j) && Safety.JobOf(db, d, j)
  }

  lemma PutEnabled(db: Db, d: DeenrollmentId, e: Deenrollment)
    requires DeenrollmentAllowed(db, d, e)
    ensures Enabled(db, PutDeenrollment(d, e))
  {
  }

  lemma MoveEnabled(db: Db, d: DeenrollmentId, j: JobId)
    requires Safety.JobOf(db, d, j)
    ensures forall to, result :: Edge(db.jobs[j].state, to) ==> Enabled(db, MoveJob(j, to, result))
  {
  }

  lemma VerifiedFacts(db: Db, d: DeenrollmentId, j: JobId)
    requires Verified(db, d, j)
    ensures d in db.deenrollments && db.deenrollments[d].receipt.Some? && j < |db.jobs|
  {
  }

  lemma WriteEnabled(db: Db, d: DeenrollmentId, j: JobId)
    requires Verified(db, d, j) && db.deenrollments[d].expected.Some?
    requires db.household.snapshot == db.deenrollments[d].base
    ensures var state := HouseholdState(db.deenrollments[d].expected.value, db.household.bindings);
      var after := Apply(db, PutHousehold(ByDeenrollment(d), state));
      && Enabled(db, PutHousehold(ByDeenrollment(d), state))
      && Verified(after, d, j) && after.household == state
      && after.deenrollments == db.deenrollments && after.jobs == db.jobs
  {
    hide DeenrollVerified;
  }

  lemma PendingEnabled(db: Db, d: DeenrollmentId, j: JobId, pending: Deenrollment)
    requires Verified(db, d, j) && db.deenrollments[d].expected.None?
    requires var e := db.deenrollments[d];
      FlippedSnapshot(e.base, e.target.device, e.target.member, false).Success?
      && pending == e.(status := DPendingApply,
                       expected := Some(FlippedSnapshot(e.base, e.target.device, e.target.member, false).value))
    ensures Enabled(db, PutDeenrollment(d, pending))
    ensures DeenrollVerified(d, pending)
  {
    hide FlippedSnapshot, DeenrollFailure;
  }

  lemma ConfirmEnabled(init: Db, db: Db, d: DeenrollmentId, now: Time)
    requires Run(init, db) && d in db.deenrollments && db.household.snapshot == db.deenrollments[d].base
    ensures var first := ConsumeStepUp(DeenrollmentScope(d));
      && Enabled(db, first)
      && (now >= db.deenrollments[d].requestedAt ==>
            Enabled(Apply(db, first), PutDeenrollment(d, db.deenrollments[d].(status := DConfirmed, confirmedAt := Some(now)))))
  {
    hide Run, Grants, Confirmations;
    Safety.MutationsCovered(init, db, d);
    Safety.Counts(db.log, ConsumeStepUp(DeenrollmentScope(d)), d);
    AcceptEnabled(db, d, now);
  }

  lemma AcceptEnabled(db: Db, d: DeenrollmentId, now: Time)
    requires d in db.deenrollments && db.household.snapshot == db.deenrollments[d].base
    requires Confirmations(db.log + [ConsumeStepUp(DeenrollmentScope(d))], d) < Grants(db.log + [ConsumeStepUp(DeenrollmentScope(d))], d)
    ensures var first := ConsumeStepUp(DeenrollmentScope(d));
      && Enabled(db, first)
      && (now >= db.deenrollments[d].requestedAt ==>
            Enabled(Apply(db, first), PutDeenrollment(d, db.deenrollments[d].(status := DConfirmed, confirmedAt := Some(now)))))
  {
    hide Grants, Confirmations;
  }

  /** An execution of `d` by job `j` is under way. */
  predicate Attempting(db: Db, d: DeenrollmentId, j: JobId) {
    && d in db.deenrollments && db.deenrollments[d].job == Some(j)
    && j < |db.jobs| && db.jobs[j].request == DeenrollRequest(d)
    && (db.jobs[j].state == Running || db.jobs[j].state == Verifying)
  }

  /** The two effects that end an attempt. */
  lemma EndEnabled(db: Db, d: DeenrollmentId, j: JobId, e: Deenrollment)
    requires Attempting(db, d, j) && DeenrollmentAllowed(db, d, e)
    requires e.status == DReconcileRequired || e.status == DProviderRejected || (e.status == DVerifying && e.receipt == db.deenrollments[d].receipt)
    ensures forall to, result :: Edge(db.jobs[j].state, to) ==>
      Enabled(db, MoveJob(j, to, result)) && Enabled(Apply(db, MoveJob(j, to, result)), PutDeenrollment(d, e))
  {
    hide FlippedSnapshot, DeenrollFailure, Confirmations, Grants;
  }

  lemma AnswerEnabled(db: Db, d: DeenrollmentId, j: JobId)
    requires Attempting(db, d, j) && db.deenrollments[d].status == DProviderRunning && db.jobs[j].state == Running
    ensures var e := db.deenrollments[d];
      var accepted := Apply(Apply(db, MoveJob(j, Verifying, Some(Noted))), PutDeenrollment(d, e.(status := DVerifying)));
      && DeenrollmentAllowed(db, d, e.(status := DReconcileRequired))
      && Enabled(db, MoveJob(j, Verifying, Some(Noted))) && Enabled(db, MoveJob(j, Failed, Some(Noted)))
      && Enabled(Apply(db, MoveJob(j, Verifying, Some(Noted))), PutDeenrollment(d, e.(status := DVerifying)))
      && Enabled(Apply(db, MoveJob(j, Failed, Some(Noted))), PutDeenrollment(d, e.(status := DProviderRejected)))
      && Attempting(accepted, d, j) && accepted.jobs[j].state == Verifying
      && accepted.deenrollments[d] == e.(status := DVerifying) && accepted.household == db.household
  {
    var e := db.deenrollments[d];
    EndEnabled(db, d, j, e.(status := DVerifying));
    EndEnabled(db, d, j, e.(status := DProviderRejected));
    hide Enabled, FlippedSnapshot, DeenrollFailure, Confirmations, Grants;
  }

  lemma VerdictEnabled(db: Db, d: DeenrollmentId, j: JobId, env: Surroundings)
    requires Attempting(db, d, j) && db.deenrollments[d].status == DVerifying && db.jobs[j].state == Verifying
    ensures var e, verdict := db.deenrollments[d], Verdict(d, db.deenrollments[d], j, env);
      && (verdict.None? ==> DeenrollmentAllowed(db, d, e.(status := DReconcileRequired)))
      && (verdict.Some? ==>
            && env.readback.ReadResult?
            && var judged := e.(readback := Some(env.readback.result), receipt := verdict);
            var after := Apply(db, PutDeenrollment(d, judged));
            if verdict.value.failure.Some? then DeenrollmentAllowed(db, d, judged.(status := DReconcileRequired))
            else && Enabled(db, PutDeenrollment(d, judged)) && Verified(after, d, j)
                 && after.deenrollments[d] == judged && after.household == db.household && after.jobs == db.jobs)
  {
    hide FlippedSnapshot, DeenrollFailure, Confirmations, Grants;
  }

  /** The three effects that take a new job to the provider's mutation. */
  lemma MutateEnabled(db: Db, d: DeenrollmentId, j: JobId)
    requires d in db.deenrollments && db.deenrollments[d].status == DConfirmed
    requires JobFor(db, j, DeenrollRequest(d), Preflight) && CallDeenroll(d, j) !in db.log
    ensures var first := MoveJob(j, Running, None);
      var second := PutDeenrollment(d, db.deenrollments[d].(status := DProviderRunning, job := Some(j)));
      var called := Apply(Apply(Apply(db, first), second), CallDeenroll(d, j));
      && Enabled(db, first) && Enabled(Apply(db, first), second)
      && Enabled(Apply(Apply(db, first), second), CallDeenroll(d, j))
      && Attempting(called, d, j) && called.jobs[j].state == Running
      && called.deenrollments[d] == second.drecord && called.household == db.household
  {
    hide FlippedSnapshot, DeenrollFailure, Confirmations, Grants;
  }

  lemma NewJobEnabled(init: Db, db: Db, d: DeenrollmentId, job: Job)
    requires Run(init, db) && d in db.deenrollments && db.deenrollments[d].status == DConfirmed
    requires job.request == DeenrollRequest(d) && job.state == Preflight && job.result.None?
    ensures KeyUnused(db.jobs, job) ==> Enabled(db, CreateJob(job))
    ensures CallDeenroll(d, |db.jobs|) !in db.log + [CreateJob(job)]
  {
    Safety.Holds(init, db.log);
    hide Legal, Fold;
  }

  lemma NewReconciliationEnabled(db: Db, d: DeenrollmentId, job: Job)
    requires d in db.deenrollments && db.deenrollments[d].status == DReconcileRequired
    requires job.request == ReconcileRequest(d) && job.state == Preflight && job.result.None?
    ensures var created := Apply(db, CreateJob(job));
      var running := Apply(created, MoveJob(|db.jobs|, Running, None));
      && (KeyUnused(db.jobs, job) ==> Enabled(db, CreateJob(job)))
      && Enabled(created, MoveJob(|db.jobs|, Running, None))
      && created.jobs == db.jobs + [job]
      && running.deenrollments == db.deenrollments && running.household == db.household
      && JobFor(running, |db.jobs|, ReconcileRequest(d), Running)
  {
  }

  /** The judged read-back may be stored, or stored as pending and applied. */
  ghost predicate CanWeigh(db: Db, d: DeenrollmentId, j: JobId, judged: Deenrollment) {
    && judged.receipt.Some?
    && var pending := judged.(status := DPendingApply, job := Some(j));
    var after := Apply(db, PutDeenrollment(d, pending));
    if judged.receipt.value.failure.Some? then
      && Enabled(db, MoveJob(j, Succeeded, None))
      && Enabled(Apply(db, MoveJob(j, Succeeded, None)), PutDeenrollment(d, judged))
    else
      && Enabled(db, PutDeenrollment(d, pending)) && Verified(after, d, j)
      && after.deenrollments[d] == pending && after.household == db.household && after.jobs[j].state == Verifying
  }

  lemma ExamineEnabled(db: Db, d: DeenrollmentId, j: JobId, env: Surroundings)
    requires d in db.deenrollments && db.deenrollments[d].status == DReconcileRequired
    requires JobFor(db, j, ReconcileRequest(d), Running)
    ensures Enabled(db, MoveJob(j, Failed, Some(Noted))) && Enabled(db, MoveJob(j, Verifying, Some(Noted)))
    ensures var verifying, verdict := Apply(db, MoveJob(j, Verifying, Some(Noted))), Verdict(d, db.deenrollments[d], j, env);
      && JobFor(verifying, j, ReconcileRequest(d), Verifying) && verifying.household == db.household
      && (verdict.Some? ==>
            && env.readback.ReadResult?
            && CanWeigh(verifying, d, j, db.deenrollments[d].(readback := Some(env.readback.result), receipt := verdict)))
  {
    hide FlippedSnapshot, DeenrollFailure, Confirmations, Grants;
  }

  /** A pending envelope holds a verified receipt of the attempt its job stands for. */
  lemma PendingVerified(init: Db, db: Db, d: DeenrollmentId)
    requires Run(init, db) && d in db.deenrollments && db.deenrollments[d].status == DPendingApply
    ensures db.deenrollments[d].job.Some? && Verified(db, d, db.deenrollments[d].job.value)
  {
    Safety.Holds(init, db.log);
    Flips.Holds(init, db.log);
    hide Legal, Fold;
    assert Flips.DeenrollmentSound(db.log, d, db.deenrollments[d]);
  }
}
