/**
  When a de-enrollment may be planned and confirmed, when its execution mutates the provider and a
  reconciliation reads it, and how they end, said of the stored records, the request and the answers.
 */
module DeenrollmentAnswers {
  import opened Wrappers
  import opened Records
  import opened Protocol
  import opened DurableStore
  import opened Scripts
  import opened DeenrollmentRuntime
  import opened JobKeys
  import opened Judgements
  import Recovery = DeenrollmentRecovery

  // ----- what the operations ask for ------------------------------------------------------

  /** The device of this verification has been brought under management. */
  predicate ManagedBy(db: Db, v: VerificationId) {
    v in db.verifications && db.verifications[v].status == VApplied && db.verifications[v].receipt.Some?
  }

  /** The target is what the verification was bound to. */
  predicate Targets(target: Target, binding: PostBinding) {
    target.provider == binding.provider && target.operation == binding.operation
    && target.device == binding.device && target.member == binding.member
  }

  /** The plan still belongs to its verification. */
  predicate Belongs(db: Db, e: Deenrollment) {
    ManagedBy(db, e.verification) && Targets(e.target, db.verifications[e.verification].request.binding)
  }

  lemma BelongsMeans(db: Db, e: Deenrollment)
    ensures RebuildRefusal(db, e).None? <==> Belongs(db, e)
  {
  }

  /** The actor is the administrator the plan was made by, the Household and its bindings are those it was
      made on, and the device is managed. */
  ghost predicate Current(db: Db, actor: Actor, e: Deenrollment) {
    && ActsAs(db.household, actor, e.actorMember)
    && db.household.snapshot == e.base && db.household.bindings == e.bindings
    && DeviceIs(db.household, e.target.device, e.target.member, true)
  }

  lemma CurrentMeans(db: Db, actor: Actor, e: Deenrollment)
    ensures Revalidation(db, actor, e).None? <==> Current(db, actor, e)
  {
    ActorRefusalMeans(db.household, actor);
    MemberOfMeans(db.household.bindings, actor);
    DeviceRefusalMeans(db.household, e.target.device, e.target.member, true);
    hide ActorRefusal, MemberOf, DeviceRefusal, DeviceIs, ActsAs, FirstDevice, HasDevice;
  }

  // ----- planning -------------------------------------------------------------------------

  ghost predicate Plannable(db: Db, actor: Actor, member: MemberId, form: PlanForm, env: Surroundings) {
    && form.wellFormed && env.clockValid && 1 <= form.maxAge <= 3600
    && ActsAs(db.household, actor, member) && ManagedBy(db, form.verification)
    && var binding := db.verifications[form.verification].request.binding;
       DeviceIs(db.household, binding.device, binding.member, true)
  }

  /** The plan is about that verification's device, by that member, on the current Household. */
  predicate PlannedFor(db: Db, member: MemberId, form: PlanForm, now: Time, r: Deenrollment)
    requires form.verification in db.verifications
  {
    && r.verification == form.verification && Targets(r.target, db.verifications[form.verification].request.binding)
    && r.actorMember == member && r.requestedAt == now && r.maxAge == form.maxAge
    && r.base == db.household.snapshot && r.bindings == db.household.bindings
    && r.status == DPlanned && r.confirmedAt.None? && r.job.None? && r.readback.None? && r.receipt.None? && r.expected.None?
  }

  lemma PlannableMeans(db: Db, actor: Actor, form: PlanForm, env: Surroundings)
    ensures PlanRefusal(db, actor, form, env).None? ==> MemberOf(db.household.bindings, actor).Some?
    ensures forall m: MemberId ::
      PlanRefusal(db, actor, form, env).None? && MemberOf(db.household.bindings, actor) == Some(m) <==> Plannable(db, actor, m, form, env)
  {
    ActorRefusalMeans(db.household, actor);
    if ManagedBy(db, form.verification) {
      var binding := db.verifications[form.verification].request.binding;
      DeviceRefusalMeans(db.household, binding.device, binding.member, true);
    }
    hide ActorRefusal, MemberOf, DeviceRefusal, DeviceIs, ActsAs, FirstDevice, HasDevice;
  }

  /** A de-enrollment is planned if and only if it may be and its id is free or holds the same plan. */
  lemma PlanStoredIff(db: Db, actor: Actor, d: DeenrollmentId, form: PlanForm, env: Surroundings)
    ensures var script := PlanScript(db, actor, d, form, env);
      && (script.outcome.Success? <==>
            exists m: MemberId :: Plannable(db, actor, m, form, env)
              && (d in db.deenrollments ==> PlannedFor(db, m, form, env.now, db.deenrollments[d])))
      && (script.outcome.Failure? ==> script.effects == [])
      && (script.outcome.Success? ==>
            && (exists m: MemberId :: Plannable(db, actor, m, form, env) && PlannedFor(db, m, form, env.now, script.outcome.value))
            && script.effects == if d in db.deenrollments then [] else [PutDeenrollment(d, script.outcome.value)])
  {
    PlannableMeans(db, actor, form, env);
    var member := MemberOf(db.household.bindings, actor);
    hide PlanRefusal, ActsAs, DeviceIs, MemberOf;
    if PlanRefusal(db, actor, form, env).None? {
      assert Plannable(db, actor, member.value, form, env);
    }
  }

  // ----- confirmation ---------------------------------------------------------------------

  predicate IsConfirmed(e: Deenrollment) {
    e.status == DConfirmed && e.confirmedAt.Some?
  }

  /** A confirmation that spends its grant. */
  ghost predicate Spends(db: Db, actor: Actor, form: ConfirmForm, env: Surroundings) {
    && form.wellFormed && form.plan in db.deenrollments
    && var e := db.deenrollments[form.plan];
    && !IsConfirmed(e) && Belongs(db, e) && Current(db, actor, e) && env.granted
  }

  /** A plan is confirmed if and only if it is already, or a grant is spent for it while it is current and
      the clock is valid and not before the request. */
  lemma ConfirmEndsIff(db: Db, actor: Actor, form: ConfirmForm, env: Surroundings)
    ensures var script, d := ConfirmScript(db, actor, form, env), form.plan;
      var replays := form.wellFormed && d in db.deenrollments && IsConfirmed(db.deenrollments[d]);
      var confirms := Spends(db, actor, form, env) && env.clockValid && db.deenrollments[d].requestedAt <= env.now;
      && (script.outcome.Success? <==> replays || confirms)
      && (replays ==> script == Script([], Success(db.deenrollments[d].confirmedAt.value)))
      && (confirms ==>
            && script.effects == [ConsumeStepUp(DeenrollmentScope(d)),
                                  PutDeenrollment(d, db.deenrollments[d].(status := DConfirmed, confirmedAt := Some(env.now)))]
            && script.outcome == Success(env.now))
      && (!replays && !confirms ==>
            script.effects == if Spends(db, actor, form, env) then [ConsumeStepUp(DeenrollmentScope(d))] else [])
      && (Spends(db, actor, form, env) && !confirms ==> script.outcome == Failure(Refused(TrustedTimeInvalid)))
  {
    if form.plan in db.deenrollments {
      BelongsMeans(db, db.deenrollments[form.plan]);
      CurrentMeans(db, actor, db.deenrollments[form.plan]);
    }
    hide RebuildRefusal, Revalidation, Belongs, Current;
  }

  // ----- the cleared flag -----------------------------------------------------------------

  /** The read-back can be judged, and confirms that the provider has let go of the device. */
  predicate Confirms(d: DeenrollmentId, e: Deenrollment, env: Surroundings) {
    env.readback.ReadResult? && env.clockValid && Released(d, e.target, e.maxAge, env.readback.result, env.now)
  }

  /** The read-back can be judged and does not confirm that, for this reason. */
  predicate Denies(d: DeenrollmentId, e: Deenrollment, env: Surroundings, reason: Reason) {
    env.readback.ReadResult? && env.clockValid && DeenrollRejectedFor(d, e.target, e.maxAge, env.readback.result, env.now, reason)
  }

  predicate Unreadable(env: Surroundings) {
    !env.readback.ReadResult? || !env.clockValid
  }

  function UnreadableCode(env: Surroundings): Code
    requires Unreadable(env)
  {
    if env.readback.ReadRaised? then ProviderError else if env.readback.MalformedResult? then ResultRejected else TrustedTimeInvalid
  }

  lemma VerdictMeans(d: DeenrollmentId, e: Deenrollment, j: JobId, env: Surroundings)
    ensures Verdict(d, e, j, env).None? <==> Unreadable(env)
    ensures Unreadable(env) ==> ReadFailureCode(env) == UnreadableCode(env)
    ensures Confirms(d, e, env) <==> Verdict(d, e, j, env) == Some(CheckReceipt(j, None, env.now))
    ensures forall r :: Denies(d, e, env, r) <==> Verdict(d, e, j, env) == Some(CheckReceipt(j, Some(r), env.now))
    ensures Verdict(d, e, j, env).Some? && Verdict(d, e, j, env).value.failure.None? ==> Confirms(d, e, env)
    ensures Verdict(d, e, j, env).Some? && Verdict(d, e, j, env).value.failure.Some? ==>
      Denies(d, e, env, Verdict(d, e, j, env).value.failure.value)
  {
    if env.readback.ReadResult? {
      DeenrollFailureMeans(d, e.target, e.maxAge, env.readback.result, env.now);
    }
    hide DeenrollFailure, Released, DeenrollRejectedFor;
  }

  /** From the stored expectation on: the Household if it is still the base, the success of the job, the
      applied envelope. */
  predicate Writes(script: Script<Completion>, k: nat, d: DeenrollmentId, e: Deenrollment, j: JobId, household: HouseholdState, s: Snapshot)
    requires e.receipt.Some?
  {
    var last := [MoveJob(j, Succeeded, None), PutDeenrollment(d, e.(status := DApplied))];
    && |script.effects| >= k
    && if household.snapshot == e.base then
         script.effects[k..] == [PutHousehold(ByDeenrollment(d), HouseholdState(s, household.bindings))] + last
         && script.outcome == Success(Unmanaged(e.receipt.value))
       else if household.snapshot == s then script.effects[k..] == last && script.outcome == Success(Unmanaged(e.receipt.value))
       else script.effects[k..] == [] && script.outcome == Failure(Refused(Stale))
  }

  /** From the stored verdict on: the expectation is stored, unless one is left, and then written. */
  ghost predicate Clears(script: Script<Completion>, k: nat, d: DeenrollmentId, e: Deenrollment, j: JobId, household: HouseholdState)
    requires e.receipt.Some?
  {
    if e.expected.Some? then Writes(script, k, d, e, j, household, e.expected.value)
    else if !Flippable(e.base, e.target.device, e.target.member, false) then |script.effects| == k && script.outcome.Failure?
    else
      exists s :: IsFlipped(e.base, e.target.device, false, s)
        && var pending := e.(status := DPendingApply, expected := Some(s));
           |script.effects| > k && script.effects[k] == PutDeenrollment(d, pending) && Writes(script, k + 1, d, pending, j, household, s)
  }

  lemma ApplyClears(first: seq<Action>, d: DeenrollmentId, e: Deenrollment, j: JobId, household: HouseholdState)
    requires e.receipt.Some?
    ensures Clears(Then(first, ApplyScript(d, e, j, household, Verifying)), |first|, d, e, j, household)
  {
    FlippedMeans(e.base, e.target.device, e.target.member, false);
    var flipped := FlippedSnapshot(e.base, e.target.device, e.target.member, false);
    hide FlippedSnapshot, Flippable, IsFlipped;
    var rest := ApplyScript(d, e, j, household, Verifying);
    var whole := Then(first, rest);
    assert whole.effects[|first|..] == rest.effects;
    if e.expected.None? && flipped.Success? {
      assert IsFlipped(e.base, e.target.device, false, flipped.value);
      assert whole.effects[|first| + 1..] == rest.effects[1..];
    }
  }

  // ----- execution ------------------------------------------------------------------------

  predicate Asks(db: Db, form: ExecuteForm) {
    form.wellFormed && form.key.Some? && form.plan in db.deenrollments
  }

  predicate IsApplied(e: Deenrollment) {
    e.status == DApplied && e.receipt.Some?
  }

  /** The plan is confirmed and current, its provider's adapter is there, and the key has no job yet. */
  ghost predicate Executes(db: Db, actor: Actor, form: ExecuteForm, env: Surroundings) {
    && Asks(db, form)
    && var e := db.deenrollments[form.plan];
    && IsConfirmed(e) && Belongs(db, e) && Current(db, actor, e) && e.target.provider in env.adapters
    && KeyUnused(db.jobs, Recovery.ExecutionJob(actor, form))
  }

  /** The first effects: the job exists and runs, the envelope says so, the mutation is sent. */
  predicate Mutates(effects: seq<Action>, d: DeenrollmentId, running: Deenrollment, job: Job, j: JobId) {
    && |effects| > 4
    && effects[0] == CreateJob(job) && effects[1] == MoveJob(j, Running, None)
    && effects[2] == PutDeenrollment(d, running) && effects[3] == CallDeenroll(d, j)
  }

  /** The attempt is over: the job has failed, and the envelope holds this. */
  predicate EndsFailed(script: Script<Completion>, k: nat, d: DeenrollmentId, e: Deenrollment, j: JobId, code: Code) {
    && |script.effects| == k + 2 && script.effects[k] == MoveJob(j, Failed, Some(Noted))
    && script.effects[k + 1] == PutDeenrollment(d, e) && script.outcome == Failure(Refused(code))
  }

  /** How an execution that sent its mutation ends. */
  ghost predicate EndsMutated(script: Script<Completion>, d: DeenrollmentId, running: Deenrollment, j: JobId, household: HouseholdState, env: Surroundings) {
    match env.mutation
    case MutationRejected => EndsFailed(script, 4, d, running.(status := DProviderRejected), j, ProviderRejected)
    case MutationAccepted =>
      var verifying := running.(status := DVerifying);
      && |script.effects| > 6
      && script.effects[4] == MoveJob(j, Verifying, Some(Noted)) && script.effects[5] == PutDeenrollment(d, verifying)
      && if Unreadable(env) then EndsFailed(script, 6, d, running.(status := DReconcileRequired), j, UnreadableCode(env))
         else if Confirms(d, running, env) then
           var judged := verifying.(readback := Some(env.readback.result), receipt := Some(CheckReceipt(j, None, env.now)));
           script.effects[6] == PutDeenrollment(d, judged) && Clears(script, 7, d, judged, j, household)
         else
           exists reason :: Denies(d, running, env, reason)
             && EndsFailed(script, 6, d, running.(status := DReconcileRequired, readback := Some(env.readback.result),
                                                  receipt := Some(CheckReceipt(j, Some(reason), env.now))), j, VerificationRejected)
    case _ => EndsFailed(script, 4, d, running.(status := DReconcileRequired), j, OutcomeAmbiguous)
  }

  lemma ConfirmedEnds(d: DeenrollmentId, running: Deenrollment, j: JobId, household: HouseholdState, env: Surroundings, first: seq<Action>)
    requires Confirms(d, running, env) && household.snapshot == running.base
    ensures var verifying := running.(status := DVerifying);
      var judged := verifying.(readback := Some(env.readback.result), receipt := Some(CheckReceipt(j, None, env.now)));
      var script := Then(first, ReadBackScript(d, verifying, j, household, env));
      |script.effects| > |first| && script.effects[|first|] == PutDeenrollment(d, judged) && Clears(script, |first| + 1, d, judged, j, household)
  {
    var verifying := running.(status := DVerifying);
    VerdictMeans(d, verifying, j, env);
    var judged := verifying.(readback := Some(env.readback.result), receipt := Some(CheckReceipt(j, None, env.now)));
    ApplyClears(first + [PutDeenrollment(d, judged)], d, judged, j, household);
    hide Verdict, ApplyScript, Clears, Released;
    assert first + ([PutDeenrollment(d, judged)] + ApplyScript(d, judged, j, household, Verifying).effects)
      == (first + [PutDeenrollment(d, judged)]) + ApplyScript(d, judged, j, household, Verifying).effects;
  }

  lemma DeniedEnds(d: DeenrollmentId, running: Deenrollment, j: JobId, household: HouseholdState, env: Surroundings, first: seq<Action>)
    requires !Confirms(d, running, env)
    ensures var verifying := running.(status := DVerifying);
      var script := Then(first, ReadBackScript(d, verifying, j, household, env));
      if Unreadable(env) then EndsFailed(script, |first|, d, running.(status := DReconcileRequired), j, UnreadableCode(env))
      else
        exists reason :: Denies(d, running, env, reason)
          && EndsFailed(script, |first|, d, running.(status := DReconcileRequired, readback := Some(env.readback.result),
                                                     receipt := Some(CheckReceipt(j, Some(reason), env.now))), j, VerificationRejected)
  {
    var verifying := running.(status := DVerifying);
    VerdictMeans(d, verifying, j, env);
    hide Verdict, ApplyScript, Released, DeenrollRejectedFor;
    if !Unreadable(env) {
      assert Denies(d, running, env, Verdict(d, verifying, j, env).value.failure.value);
    }
  }

  lemma AnsweredEnds(d: DeenrollmentId, running: Deenrollment, j: JobId, household: HouseholdState, env: Surroundings, first: seq<Action>)
    requires |first| == 4 && household.snapshot == running.base
    ensures var script := Then(first, AnsweredScript(d, running, j, household, env));
      |script.effects| > 4 && EndsMutated(script, d, running, j, household, env)
  {
    hide Released, Clears, Denies, ReadBackScript;
    if env.mutation.MutationAccepted? {
      var verifying := running.(status := DVerifying);
      var sent := first + [MoveJob(j, Verifying, Some(Noted)), PutDeenrollment(d, verifying)];
      var rest := ReadBackScript(d, verifying, j, household, env);
      assert Then(first, AnsweredScript(d, running, j, household, env)) == Then(sent, rest);
      if Confirms(d, running, env) {
        ConfirmedEnds(d, running, j, household, env, sent);
      } else {
        DeniedEnds(d, running, j, household, env, sent);
      }
    }
  }

  lemma Executing(db: Db, actor: Actor, form: ExecuteForm, env: Surroundings)
    requires Executes(db, actor, form, env)
    ensures var d, j := form.plan, |db.jobs|;
      var running := db.deenrollments[d].(status := DProviderRunning, job := Some(j));
      var first := [CreateJob(Recovery.ExecutionJob(actor, form)), MoveJob(j, Running, None), PutDeenrollment(d, running), CallDeenroll(d, j)];
      && ExecuteScript(db, actor, form, env) == Then(first, AnsweredScript(d, running, j, db.household, env))
      && db.household.snapshot == running.base
  {
    BelongsMeans(db, db.deenrollments[form.plan]);
    CurrentMeans(db, actor, db.deenrollments[form.plan]);
    hide RebuildRefusal, Revalidation, Belongs, AnsweredScript, FindKey, KeyUnused, DeviceIs, ActsAs;
  }

  /** An execution of a confirmed and current plan under a new key mutates the provider and ends as the answers
      say. */
  lemma ExecutesEnd(db: Db, actor: Actor, form: ExecuteForm, env: Surroundings)
    requires Executes(db, actor, form, env)
    ensures var script, d, j := ExecuteScript(db, actor, form, env), form.plan, |db.jobs|;
      var running := db.deenrollments[d].(status := DProviderRunning, job := Some(j));
      Mutates(script.effects, d, running, Recovery.ExecutionJob(actor, form), j) && EndsMutated(script, d, running, j, db.household, env)
  {
    var d, j := form.plan, |db.jobs|;
    var running := db.deenrollments[d].(status := DProviderRunning, job := Some(j));
    Executing(db, actor, form, env);
    hide ExecuteScript, Executes, Released, EndsMutated, AnsweredScript;
    AnsweredEnds(d, running, j, db.household, env,
                 [CreateJob(Recovery.ExecutionJob(actor, form)), MoveJob(j, Running, None), PutDeenrollment(d, running), CallDeenroll(d, j)]);
  }

  /** Any other execution replays what is applied, or fails, and has no effect. */
  lemma OthersEnd(db: Db, actor: Actor, form: ExecuteForm, env: Surroundings)
    requires !Executes(db, actor, form, env)
    ensures var script := ExecuteScript(db, actor, form, env);
      && script.effects == []
      && if Asks(db, form) && IsApplied(db.deenrollments[form.plan])
         then script.outcome == Success(Unmanaged(db.deenrollments[form.plan].receipt.value)) else script.outcome.Failure?
  {
    if form.plan in db.deenrollments {
      BelongsMeans(db, db.deenrollments[form.plan]);
      CurrentMeans(db, actor, db.deenrollments[form.plan]);
    }
    hide RebuildRefusal, Revalidation, Belongs, Current, MutateScript, FindKey, KeyUnused;
  }

  lemma ClearsMeans(script: Script<Completion>, k: nat, d: DeenrollmentId, e: Deenrollment, j: JobId, household: HouseholdState)
    requires e.receipt.Some? && Clears(script, k, d, e, j, household) && household.snapshot == e.base
    ensures script.outcome.Success? <==> e.expected.Some? || Flippable(e.base, e.target.device, e.target.member, false)
    ensures script.outcome.Success? ==> script.outcome == Success(Unmanaged(e.receipt.value))
  {
    hide Flippable, IsFlipped;
  }

  /** An execution clears the flag if and only if it replays an applied envelope, or the plan is confirmed and
      current, the provider accepts the mutation and then reports exactly this device, timely, as unmanaged
      or absent - and the flag can be cleared. */
  lemma ExecuteEndsIff(db: Db, actor: Actor, form: ExecuteForm, env: Surroundings)
    ensures var script, d := ExecuteScript(db, actor, form, env), form.plan;
      && (script.outcome.Success? <==>
            || (Asks(db, form) && IsApplied(db.deenrollments[d]))
            || (&& Executes(db, actor, form, env) && env.mutation.MutationAccepted? && Confirms(d, db.deenrollments[d], env)
                && var e := db.deenrollments[d];
                   (e.expected.Some? || Flippable(e.base, e.target.device, e.target.member, false))))
      && (Executes(db, actor, form, env) && script.outcome.Success? ==>
            script.outcome == Success(Unmanaged(CheckReceipt(|db.jobs|, None, env.now))))
  {
    if Executes(db, actor, form, env) {
      var d, j := form.plan, |db.jobs|;
      var running := db.deenrollments[d].(status := DProviderRunning, job := Some(j));
      ExecutesEnd(db, actor, form, env);
      var script := ExecuteScript(db, actor, form, env);
      assert db.household.snapshot == running.base && !IsApplied(db.deenrollments[d]);
      hide ExecuteScript, Executes, Released, Clears, Denies, Flippable;
      if env.mutation.MutationAccepted? && Confirms(d, running, env) {
        var judged := running.(status := DVerifying, readback := Some(env.readback.result), receipt := Some(CheckReceipt(j, None, env.now)));
        ClearsMeans(script, 7, d, judged, j, db.household);
      }
    } else {
      OthersEnd(db, actor, form, env);
      hide ExecuteScript, Executes, Confirms, Flippable;
    }
  }

  // ----- reconciliation -------------------------------------------------------------------

  /** The plan was confirmed once and still belongs to its verification. */
  predicate MayReconcile(db: Db, form: ExecuteForm) {
    Asks(db, form) && Belongs(db, db.deenrollments[form.plan]) && db.deenrollments[form.plan].confirmedAt.Some?
  }

  /** A reconciliation is required, the plan is current, and its provider's adapter is there. */
  ghost predicate Requires(db: Db, actor: Actor, form: ExecuteForm, env: Surroundings) {
    && MayReconcile(db, form)
    && var e := db.deenrollments[form.plan];
    && e.status == DReconcileRequired && Current(db, actor, e) && e.target.provider in env.adapters
  }

  /** ... and the key has no job yet, so the provider is read. */
  ghost predicate Reconciles(db: Db, actor: Actor, form: ExecuteForm, env: Surroundings) {
    Requires(db, actor, form, env) && KeyUnused(db.jobs, Recovery.ReconciliationJob(actor, form))
  }

  /** How a reconciliation that reads the provider goes on, after the job was created and runs. */
  ghost predicate EndsReconciled(script: Script<Completion>, d: DeenrollmentId, e: Deenrollment, j: JobId, household: HouseholdState, env: Surroundings) {
    if Unreadable(env) then
      |script.effects| == 3 && script.effects[2] == MoveJob(j, Failed, Some(Noted)) && script.outcome == Failure(Refused(UnreadableCode(env)))
    else
      && |script.effects| > 3 && script.effects[2] == MoveJob(j, Verifying, Some(Noted))
      && if Confirms(d, e, env) then
           var judged := e.(readback := Some(env.readback.result), receipt := Some(CheckReceipt(j, None, env.now)));
           var pending := judged.(status := DPendingApply, job := Some(j));
           script.effects[3] == PutDeenrollment(d, pending) && Clears(script, 4, d, pending, j, household)
         else
           exists reason :: Denies(d, e, env, reason)
             && var receipt := CheckReceipt(j, Some(reason), env.now);
                && |script.effects| == 5 && script.effects[3] == MoveJob(j, Succeeded, None)
                && script.effects[4] == PutDeenrollment(d, e.(readback := Some(env.readback.result), receipt := Some(receipt)))
                && script.outcome == Success(Reported(receipt))
  }

  lemma Reconciling(db: Db, actor: Actor, form: ExecuteForm, env: Surroundings)
    requires Reconciles(db, actor, form, env)
    ensures var d, j := form.plan, |db.jobs|;
      ReconcileScript(db, actor, form, env)
        == Then([CreateJob(Recovery.ReconciliationJob(actor, form)), MoveJob(j, Running, None)], ExamineScript(d, db.deenrollments[d], j, db.household, env))
  {
    BelongsMeans(db, db.deenrollments[form.plan]);
    CurrentMeans(db, actor, db.deenrollments[form.plan]);
    hide RebuildRefusal, Revalidation, Belongs, Current, ExamineScript, FindKey, KeyUnused;
  }

  lemma ExamineConfirms(d: DeenrollmentId, e: Deenrollment, j: JobId, household: HouseholdState, env: Surroundings, first: seq<Action>)
    requires |first| == 2 && Confirms(d, e, env)
    ensures EndsReconciled(Then(first, ExamineScript(d, e, j, household, env)), d, e, j, household, env)
  {
    VerdictMeans(d, e, j, env);
    var pending := e.(readback := Some(env.readback.result), receipt := Some(CheckReceipt(j, None, env.now)),
                      status := DPendingApply, job := Some(j));
    var before := first + [MoveJob(j, Verifying, Some(Noted)), PutDeenrollment(d, pending)];
    ApplyClears(before, d, pending, j, household);
    hide Verdict, ApplyScript, Clears, Released, Denies;
    var rest := ApplyScript(d, pending, j, household, Verifying);
    assert Then(first, ExamineScript(d, e, j, household, env)) == Then(before, rest) by {
      assert first + ([MoveJob(j, Verifying, Some(Noted))] + ([PutDeenrollment(d, pending)] + rest.effects)) == before + rest.effects;
    }
  }

  lemma ExamineEnds(d: DeenrollmentId, e: Deenrollment, j: JobId, household: HouseholdState, env: Surroundings, first: seq<Action>)
    requires |first| == 2
    ensures EndsReconciled(Then(first, ExamineScript(d, e, j, household, env)), d, e, j, household, env)
  {
    if Confirms(d, e, env) {
      ExamineConfirms(d, e, j, household, env, first);
    } else {
      VerdictMeans(d, e, j, env);
      hide Verdict, ApplyScript, Clears, Confirms, DeenrollRejectedFor;
      if !Unreadable(env) {
        assert Denies(d, e, env, Verdict(d, e, j, env).value.failure.value);
      }
    }
  }

  /** A reconciliation that is required reads the provider under a new key and ends as it answers. */
  lemma ReconcilesEnd(db: Db, actor: Actor, form: ExecuteForm, env: Surroundings)
    requires Reconciles(db, actor, form, env)
    ensures var script, d, j := ReconcileScript(db, actor, form, env), form.plan, |db.jobs|;
      && |script.effects| > 2 && script.effects[0] == CreateJob(Recovery.ReconciliationJob(actor, form)) && script.effects[1] == MoveJob(j, Running, None)
      && EndsReconciled(script, d, db.deenrollments[d], j, db.household, env)
  {
    var d, j := form.plan, |db.jobs|;
    Reconciling(db, actor, form, env);
    ExamineEnds(d, db.deenrollments[d], j, db.household, env, [CreateJob(Recovery.ReconciliationJob(actor, form)), MoveJob(j, Running, None)]);
    hide ReconcileScript, Reconciles, ExamineScript, Clears, Confirms, Denies;
  }

  /** A pending envelope that can be finished: its expectation is stored, the Household is the base or
      already the expected one, and its job is not over as a failure. */
  predicate Finishes(db: Db, form: ExecuteForm) {
    && MayReconcile(db, form)
    && var e := db.deenrollments[form.plan];
    && e.status == DPendingApply && e.expected.Some? && e.receipt.Some?
    && (db.household.snapshot == e.base || db.household.snapshot == e.expected.value)
    && e.job.Some? && e.job.value < |db.jobs| && db.jobs[e.job.value].state in {Verifying, Succeeded}
  }

  /** What is left of it. */
  lemma FinishesEnd(db: Db, actor: Actor, form: ExecuteForm, env: Surroundings)
    requires Finishes(db, form)
    ensures var d, e := form.plan, db.deenrollments[form.plan];
      ReconcileScript(db, actor, form, env) ==
        Script((if db.household.snapshot == e.base
                then [PutHousehold(ByDeenrollment(d), HouseholdState(e.expected.value, db.household.bindings))] else [])
               + (if db.jobs[e.job.value].state == Verifying then [MoveJob(e.job.value, Succeeded, None)] else [])
               + [PutDeenrollment(d, e.(status := DApplied))],
               Success(Unmanaged(e.receipt.value)))
  {
    BelongsMeans(db, db.deenrollments[form.plan]);
    hide RebuildRefusal, Belongs;
  }

  /** The key belongs to a reconciliation of this plan that is over. */
  predicate ReconciledBefore(db: Db, actor: Actor, form: ExecuteForm, j: JobId) {
    && Asks(db, form) && j < |db.jobs| && db.jobs[j].SameKey(Recovery.ReconciliationJob(actor, form))
    && db.jobs[j].request == ReconcileRequest(form.plan) && db.jobs[j].state == Succeeded
  }

  /** It is answered with the receipt the envelope carries: its own, or else its verification's. */
  lemma RepeatedReconciliation(db: Db, actor: Actor, form: ExecuteForm, env: Surroundings, j: JobId)
    requires KeysDistinct(db.jobs) && Requires(db, actor, form, env) && ReconciledBefore(db, actor, form, j)
    ensures var e := db.deenrollments[form.plan];
      ReconcileScript(db, actor, form, env) ==
        Script([], Success(Reported(if e.receipt.Some? then e.receipt.value else db.verifications[e.verification].receipt.value)))
  {
    BelongsMeans(db, db.deenrollments[form.plan]);
    CurrentMeans(db, actor, db.deenrollments[form.plan]);
    FoundByKey(db.jobs, j, Recovery.ReconciliationJob(actor, form));
    hide RebuildRefusal, Revalidation, Current, ExamineScript, FindKey, KeyUnused, KeysDistinct, Targets;
  }

  /** A pending envelope over its base whose job is neither verifying nor succeeded. */
  predicate WritesOnly(db: Db, form: ExecuteForm) {
    && MayReconcile(db, form)
    && var e := db.deenrollments[form.plan];
    && e.status == DPendingApply && e.expected.Some? && e.receipt.Some? && db.household.snapshot == e.base
    && e.job.Some? && e.job.value < |db.jobs| && db.jobs[e.job.value].state !in {Verifying, Succeeded}
  }

  /** Any other reconciliation replays what is applied, or fails; its only effect can be the Household of a
      pending envelope whose job has failed. */
  lemma OtherReconciliations(db: Db, actor: Actor, form: ExecuteForm, env: Surroundings)
    requires !Reconciles(db, actor, form, env) && !Finishes(db, form)
    requires forall j: JobId :: !(Requires(db, actor, form, env) && ReconciledBefore(db, actor, form, j))
    ensures var script := ReconcileScript(db, actor, form, env);
      && (if Asks(db, form) && IsApplied(db.deenrollments[form.plan])
          then script.outcome == Success(Unmanaged(db.deenrollments[form.plan].receipt.value)) else script.outcome.Failure?)
      && (if WritesOnly(db, form)
          then script.effects == [PutHousehold(ByDeenrollment(form.plan),
                                               HouseholdState(db.deenrollments[form.plan].expected.value, db.household.bindings))]
          else script.effects == [])
  {
    if Asks(db, form) {
      BelongsMeans(db, db.deenrollments[form.plan]);
      CurrentMeans(db, actor, db.deenrollments[form.plan]);
      var found := FindKey(db.jobs, Recovery.ReconciliationJob(actor, form));
      if found.Some? && Requires(db, actor, form, env) {
        assert !ReconciledBefore(db, actor, form, found.value);
      }
    }
    hide RebuildRefusal, Revalidation, Belongs, Current, ExamineScript, FindKey, KeyUnused, FlippedSnapshot;
  }

  /** A reconciliation clears the flag if and only if it replays an applied envelope, finishes a pending one
      that can be finished, or is required and the provider reports exactly this device, timely, as unmanaged
      or absent and the flag can be cleared; it only reports if it is required and any other read-back can be
      judged, or repeats such a report. */
  lemma ReconcileEndsIff(db: Db, actor: Actor, form: ExecuteForm, env: Surroundings)
    requires KeysDistinct(db.jobs)
    ensures var outcome, d := ReconcileScript(db, actor, form, env).outcome, form.plan;
      && (outcome.Success? && outcome.value.Unmanaged? <==>
            || (Asks(db, form) && IsApplied(db.deenrollments[d]))
            || Finishes(db, form)
            || (&& Reconciles(db, actor, form, env) && Confirms(d, db.deenrollments[d], env)
                && var e := db.deenrollments[d];
                   (e.expected.Some? || Flippable(e.base, e.target.device, e.target.member, false))))
      && (outcome.Success? && outcome.value.Reported? <==>
            || (Reconciles(db, actor, form, env) && !Unreadable(env) && !Confirms(d, db.deenrollments[d], env))
            || (Requires(db, actor, form, env) && exists j: JobId :: j < |db.jobs| && ReconciledBefore(db, actor, form, j)))
  {
    Excludes(db, actor, form, env);
    if Reconciles(db, actor, form, env) {
      var d, j := form.plan, |db.jobs|;
      ReconcilesEnd(db, actor, form, env);
      var script, e := ReconcileScript(db, actor, form, env), db.deenrollments[d];
      assert db.household.snapshot == e.base;
      hide ReconcileScript, Reconciles, Requires, Finishes, ReconciledBefore, IsApplied, Asks, Released, Clears, Denies, Flippable, KeysDistinct;
      if Confirms(d, e, env) {
        var pending := e.(readback := Some(env.readback.result), receipt := Some(CheckReceipt(j, None, env.now)), status := DPendingApply, job := Some(j));
        ClearsMeans(script, 4, d, pending, j, db.household);
      }
    } else if Finishes(db, form) {
      FinishesEnd(db, actor, form, env);
      hide ReconcileScript, Reconciles, Requires, Finishes, ReconciledBefore, IsApplied, Asks, Confirms, Flippable, KeysDistinct;
    } else if j: JobId :| Requires(db, actor, form, env) && ReconciledBefore(db, actor, form, j) {
      RepeatedReconciliation(db, actor, form, env, j);
      hide ReconcileScript, Reconciles, Requires, Finishes, ReconciledBefore, IsApplied, Asks, Confirms, Flippable, KeysDistinct;
    } else {
      OtherReconciliations(db, actor, form, env);
      hide ReconcileScript, Reconciles, Requires, Finishes, ReconciledBefore, IsApplied, Asks, Confirms, Flippable, KeysDistinct;
    }
  }

  lemma Excludes(db: Db, actor: Actor, form: ExecuteForm, env: Surroundings)
    ensures Reconciles(db, actor, form, env) || Finishes(db, form) || Requires(db, actor, form, env) ==> form.plan in db.deenrollments && Asks(db, form)
    ensures Asks(db, form) && IsApplied(db.deenrollments[form.plan]) ==> !Finishes(db, form) && !Requires(db, actor, form, env)
    ensures Finishes(db, form) ==> !Requires(db, actor, form, env)
    ensures Reconciles(db, actor, form, env) ==> Requires(db, actor, form, env)
    ensures forall j: JobId :: ReconciledBefore(db, actor, form, j) ==> j < |db.jobs| && !Reconciles(db, actor, form, env)
  {
  }

  // ----- why a request is refused ---------------------------------------------------------

  /** The first thing that a plan does not meet. */
  ghost function PlanProblem(db: Db, actor: Actor, form: PlanForm, env: Surroundings): Option<Code> {
    if !form.wellFormed then Some(InvalidRequest)
    else if Unbound(db.household.bindings, actor) then Some(ActorNotBound)
    else if !SomeAdministrator(db.household, actor) then Some(NotAuthorized)
    else if !ManagedBy(db, form.verification) then Some(VerificationNotApplied)
    else
      var binding := db.verifications[form.verification].request.binding;
      var device := DeviceProblem(db.household, binding.device, binding.member, true);
      if device.Some? then device
      else if !env.clockValid || form.maxAge < 1 || form.maxAge > 3600 then Some(InvalidRequest)
      else None
  }

  lemma PlanRefusals(db: Db, actor: Actor, d: DeenrollmentId, form: PlanForm, env: Surroundings)
    ensures var outcome, problem := PlanScript(db, actor, d, form, env).outcome, PlanProblem(db, actor, form, env);
      && (problem.Some? ==> outcome == Failure(Refused(problem.value)))
      && (problem.None? && outcome.Failure? ==> outcome == Failure(Refused(StateInvalid)))
  {
    ActorRefusalMeans(db.household, actor);
    if ManagedBy(db, form.verification) {
      var binding := db.verifications[form.verification].request.binding;
      DeviceProblemMeans(db.household, binding.device, binding.member, true);
    }
    hide ActorRefusal, MemberOf, DeviceRefusal, Unbound, SomeAdministrator, DeviceProblem;
  }

  /** The first thing that keeps a stored plan from being carried out. */
  ghost function PlanOutdated(db: Db, actor: Actor, e: Deenrollment): Option<Code> {
    var actors, device := ActorProblem(db.household, actor, e.actorMember), DeviceProblem(db.household, e.target.device, e.target.member, true);
    if !ManagedBy(db, e.verification) then Some(VerificationNotApplied)
    else if !Targets(e.target, db.verifications[e.verification].request.binding) then Some(StateInvalid)
    else if actors.Some? then actors
    else if db.household.snapshot != e.base || db.household.bindings != e.bindings then Some(Stale)
    else device
  }

  lemma PlanOutdatedMeans(db: Db, actor: Actor, e: Deenrollment)
    ensures PlanOutdated(db, actor, e) == if RebuildRefusal(db, e).Some? then RebuildRefusal(db, e) else Revalidation(db, actor, e)
    ensures PlanOutdated(db, actor, e).None? <==> Belongs(db, e) && Current(db, actor, e)
  {
    BelongsMeans(db, e);
    CurrentMeans(db, actor, e);
    ActorProblemMeans(db.household, actor, e.actorMember);
    DeviceProblemMeans(db.household, e.target.device, e.target.member, true);
    hide ActorRefusal, MemberOf, DeviceRefusal, ActsAs, DeviceIs, ActorProblem, DeviceProblem;
  }

  lemma ConfirmRefusals(db: Db, actor: Actor, form: ConfirmForm, env: Surroundings)
    ensures var script := ConfirmScript(db, actor, form, env);
      && (!form.wellFormed ==> script == Refuse(InvalidRequest))
      && (form.wellFormed && form.plan !in db.deenrollments ==> script == Refuse(NotFound))
      && (form.wellFormed && form.plan in db.deenrollments && !IsConfirmed(db.deenrollments[form.plan]) ==>
            var outdated := PlanOutdated(db, actor, db.deenrollments[form.plan]);
            if outdated.Some? then script == Refuse(outdated.value) else !env.granted ==> script == Refuse(StepUpRequired))
  {
    if form.plan in db.deenrollments {
      PlanOutdatedMeans(db, actor, db.deenrollments[form.plan]);
    }
    hide RebuildRefusal, Revalidation, PlanOutdated, Belongs, Current;
  }

  lemma ExecuteRefusals(db: Db, actor: Actor, form: ExecuteForm, env: Surroundings)
    ensures var script := ExecuteScript(db, actor, form, env);
      && (!form.wellFormed || form.key.None? ==> script == Refuse(InvalidRequest))
      && (form.wellFormed && form.key.Some? && form.plan !in db.deenrollments ==> script == Refuse(NotFound))
      && (Asks(db, form) && !IsApplied(db.deenrollments[form.plan]) ==>
            var e := db.deenrollments[form.plan];
            var outdated := PlanOutdated(db, actor, e);
            if e.status == DReconcileRequired then script == Refuse(ReconciliationRequired)
            else if e.status != DConfirmed then script == Refuse(ConfirmationRequired)
            else if outdated.Some? then script == Refuse(outdated.value)
            else if !IsConfirmed(e) then script == Refuse(ConfirmationRequired)
            else if e.target.provider !in env.adapters then script == Refuse(AdapterUnavailable)
            else !KeyUnused(db.jobs, Recovery.ExecutionJob(actor, form)) ==>
              script == Refuse(IdempotencyConflict) || script == Refuse(ReconciliationRequired))
  {
    if form.plan in db.deenrollments {
      PlanOutdatedMeans(db, actor, db.deenrollments[form.plan]);
    }
    hide RebuildRefusal, Revalidation, PlanOutdated, Belongs, Current, FindKey, MutateScript, KeyUnused;
  }

  lemma ReconcileRefusals(db: Db, actor: Actor, form: ExecuteForm, env: Surroundings)
    ensures var script := ReconcileScript(db, actor, form, env);
      && (!form.wellFormed || form.key.None? ==> script == Refuse(InvalidRequest))
      && (form.wellFormed && form.key.Some? && form.plan !in db.deenrollments ==> script == Refuse(NotFound))
      && (Asks(db, form) && !IsApplied(db.deenrollments[form.plan]) ==>
            var e := db.deenrollments[form.plan];
            var outdated := PlanOutdated(db, actor, e);
            if !Belongs(db, e) then outdated.Some? && script == Refuse(outdated.value)
            else if e.confirmedAt.None? then script == Refuse(ConfirmationRequired)
            else if e.status == DPendingApply then
              && (e.expected.Some? && db.household.snapshot != e.base && db.household.snapshot != e.expected.value ==> script == Refuse(Stale))
              && (e.expected.None? ==> script == Refuse(StateInvalid))
            else if e.status != DReconcileRequired then script == Refuse(ReconciliationNotRequired)
            else if outdated.Some? then script == Refuse(outdated.value)
            else e.target.provider !in env.adapters ==> script == Refuse(AdapterUnavailable))
  {
    if form.plan in db.deenrollments {
      BelongsMeans(db, db.deenrollments[form.plan]);
      PlanOutdatedMeans(db, actor, db.deenrollments[form.plan]);
    }
    hide RebuildRefusal, Revalidation, PlanOutdated, Belongs, Current, FindKey, ExamineScript, ApplyScript;
  }

  /** What an execution or a reconciliation answers to a key that has a job already. */
  lemma UsedKeyRefusals(db: Db, actor: Actor, form: ExecuteForm, env: Surroundings, j: JobId)
    requires KeysDistinct(db.jobs) && Asks(db, form) && j < |db.jobs|
    requires var e := db.deenrollments[form.plan];
      Belongs(db, e) && Current(db, actor, e) && e.confirmedAt.Some? && e.target.provider in env.adapters
    ensures db.deenrollments[form.plan].status == DConfirmed && db.jobs[j].SameKey(Recovery.ExecutionJob(actor, form)) ==>
      ExecuteScript(db, actor, form, env)
        == Refuse(if db.jobs[j].request != DeenrollRequest(form.plan) then IdempotencyConflict else ReconciliationRequired)
    ensures Requires(db, actor, form, env) && db.jobs[j].SameKey(Recovery.ReconciliationJob(actor, form)) && !ReconciledBefore(db, actor, form, j) ==>
      ReconcileScript(db, actor, form, env)
        == Refuse(if db.jobs[j].request != ReconcileRequest(form.plan) then IdempotencyConflict else InProgress)
  {
    BelongsMeans(db, db.deenrollments[form.plan]);
    CurrentMeans(db, actor, db.deenrollments[form.plan]);
    if db.jobs[j].SameKey(Recovery.ExecutionJob(actor, form)) {
      FoundByKey(db.jobs, j, Recovery.ExecutionJob(actor, form));
    }
    if db.jobs[j].SameKey(Recovery.ReconciliationJob(actor, form)) {
      FoundByKey(db.jobs, j, Recovery.ReconciliationJob(actor, form));
    }
    hide RebuildRefusal, Revalidation, Belongs, Current, FindKey, MutateScript, ExamineScript, KeysDistinct;
  }
}
