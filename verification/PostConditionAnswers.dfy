/**
  When a verification may be planned, when a confirmation reads the provider, and how it ends, said of the
  stored records, the request and what the provider answers.
 */
module PostConditionAnswers {
  import opened Wrappers
  import opened Records
  import opened Protocol
  import opened DurableStore
  import opened Scripts
  import opened PostConditionRuntime
  import opened JobKeys
  import opened Judgements
  import Recovery = PostConditionRecovery

  // ----- planning -------------------------------------------------------------------------

  /** The provider accepted this execution, and its cancellation was not requested. */
  predicate AcceptedExecution(db: Db, p: PlanId) {
    && p in db.executions && db.executions[p].status == Accepted
    && db.executions[p].receipt.Some? && db.executions[p].cancelReceipt.None?
  }

  /** An administrator who is the plan's actor asks for the verification of an accepted execution, on the
      very Household the execution was planned for, where its device is not managed. */
  ghost predicate Plannable(db: Db, actor: Actor, form: PlanForm) {
    && form.wellFormed && AcceptedExecution(db, form.plan)
    && var plan := db.executions[form.plan].plan;
    && ActsAs(db.household, actor, plan.actorMember)
    && db.household.snapshot == plan.snapshot
    && DeviceIs(db.household, plan.device, plan.member, false)
    && 1 <= form.maxAge <= 3600
    && UnknownSignal !in {form.expected.certificate, form.expected.profile, form.expected.agent}
  }

  /** The verification is of that execution's device, operation and generation, and rests on the current
      Household and its bindings. */
  predicate PlannedFor(db: Db, form: PlanForm, r: Verification)
    requires AcceptedExecution(db, form.plan)
  {
    var plan, receipt := db.executions[form.plan].plan, db.executions[form.plan].receipt.value;
    && r.actorMember == plan.actorMember && r.executionReceipt == receipt
    && r.base == db.household.snapshot && r.bindings == db.household.bindings
    && r.request.maxAge == form.maxAge && r.request.expected == form.expected
    && var binding := r.request.binding;
    && binding.plan == form.plan && binding.provider == plan.provider && binding.operation == receipt.operation
    && binding.device == plan.device && binding.member == plan.member && binding.generation == plan.snapshot.generation
    && r.status == VPlanned && r.job.None? && r.readback.None? && r.receipt.None? && r.expected.None?
  }

  lemma PlannableMeans(db: Db, actor: Actor, form: PlanForm)
    ensures PlanRefusal(db, actor, form).None? <==> Plannable(db, actor, form)
  {
    ActorRefusalMeans(db.household, actor);
    MemberOfMeans(db.household.bindings, actor);
    if AcceptedExecution(db, form.plan) {
      var plan := db.executions[form.plan].plan;
      DeviceRefusalMeans(db.household, plan.device, plan.member, false);
    }
    hide ActorRefusal, MemberOf, DeviceRefusal, DeviceIs, ActsAs, FirstDevice;
  }

  /** A verification is planned if and only if it may be and its id is free or holds the same plan; only a
      free id is written. */
  lemma PlanStoredIff(db: Db, actor: Actor, v: VerificationId, form: PlanForm)
    ensures var script := PlanScript(db, actor, v, form);
      && (script.outcome.Success? <==>
            && Plannable(db, actor, form)
            && (v in db.verifications ==>
                  exists r :: PlannedFor(db, form, r) && var stored := db.verifications[v];
                    stored.actorMember == r.actorMember && stored.request == r.request && stored.base == r.base
                    && stored.executionReceipt == r.executionReceipt))
      && (script.outcome.Failure? ==> script.effects == [])
      && (script.outcome.Success? ==>
            && PlannedFor(db, form, script.outcome.value)
            && script.effects == if v in db.verifications then [] else [PutVerification(v, script.outcome.value)])
  {
    PlannableMeans(db, actor, form);
    hide PlanRefusal, ActsAs, DeviceIs;
    if Plannable(db, actor, form) {
      assert PlannedFor(db, form, PlannedVerification(db, form));
    }
  }

  // ----- confirmation ---------------------------------------------------------------------

  /** The verification is about what the execution still is. */
  predicate BoundToExecution(db: Db, e: Verification)
    requires AcceptedExecution(db, e.request.binding.plan)
  {
    var binding := e.request.binding;
    var plan, receipt := db.executions[binding.plan].plan, db.executions[binding.plan].receipt.value;
    && plan.actorMember == e.actorMember && plan.provider == binding.provider && plan.device == binding.device
    && plan.member == binding.member && receipt.job == e.executionReceipt.job && receipt.operation == binding.operation
  }

  /** The actor still is the administrator the verification was planned by, the execution still is the
      accepted one it is about, and the Household is its base or what it expects. */
  predicate Current(db: Db, actor: Actor, e: Verification) {
    var binding := e.request.binding;
    && ActsAs(db.household, actor, e.actorMember) && AcceptedExecution(db, binding.plan)
    && BoundToExecution(db, e)
    && (db.household.snapshot == e.base || e.expected == Some(db.household.snapshot))
  }

  lemma CurrentMeans(db: Db, actor: Actor, e: Verification)
    ensures Revalidation(db, actor, e).None? <==> Current(db, actor, e)
  {
    ActorRefusalMeans(db.household, actor);
    MemberOfMeans(db.household.bindings, actor);
    hide ActorRefusal, MemberOf, ActsAs;
  }

  /** The envelope is applied, with a receipt. */
  predicate IsApplied(e: Verification) {
    e.status == VApplied && e.receipt.Some?
  }

  /** All that is asked for before the step-up grant is looked at. */
  predicate MayConfirm(db: Db, actor: Actor, form: ConfirmForm, env: Surroundings) {
    && form.verification in db.verifications && form.wellFormed && form.key.Some?
    && var e := db.verifications[form.verification];
    && Current(db, actor, e) && (e.status == VApplied || e.request.binding.provider in env.adapters)
  }

  /** The confirmation spends its grant. */
  predicate Spends(db: Db, actor: Actor, form: ConfirmForm, env: Surroundings) {
    MayConfirm(db, actor, form, env) && !IsApplied(db.verifications[form.verification]) && env.granted
  }

  /** ... and reads the provider. */
  predicate Reads(db: Db, actor: Actor, form: ConfirmForm, env: Surroundings) {
    Spends(db, actor, form, env) && KeyUnused(db.jobs, Recovery.ConfirmJob(actor, form))
  }

  /** The first effects: the grant is spent, the job exists, the envelope names it, it runs, and the
      provider is read. */
  predicate Begins(effects: seq<Action>, v: VerificationId, running: Verification, job: Job, j: JobId) {
    && |effects| > 5
    && effects[0] == ConsumeStepUp(VerificationScope(v)) && effects[1] == CreateJob(job)
    && effects[2] == PutVerification(v, running) && effects[3] == MoveJob(j, Running, None) && effects[4] == CallReadBack(v, j)
  }

  /** There is a verdict: the read-back is well formed, and the clock is valid or not needed. */
  predicate HasVerdict(e: Verification, env: Surroundings) {
    env.answer.ReadResult? && (env.clockValid || env.answer.result.binding != e.request.binding)
  }

  /** Without a verdict the job has failed, and the envelope says where. */
  predicate EndsUnjudged(script: Script<Completion>, k: nat, v: VerificationId, running: Verification, j: JobId, env: Surroundings) {
    && var failed := MoveJob(j, Failed, Some(Noted));
    match env.answer
    case ReadResult(result) =>
      && |script.effects| == k + 3 && script.effects[k] == MoveJob(j, Verifying, Some(Noted)) && script.effects[k + 1] == failed
      && script.effects[k + 2] == PutVerification(v, running.(status := VCheckFailed, readback := Some(result)))
      && script.outcome == Failure(Refused(TrustedTimeInvalid))
    case _ =>
      && |script.effects| == k + 2 && script.effects[k] == failed
      && script.effects[k + 1] == PutVerification(v, running.(status := VReadbackFailed))
      && script.outcome == Failure(Refused(if env.answer.MalformedResult? then ResultRejected else ProviderError))
  }

  /** A rejected read-back is stored with its reason, and the job has failed. */
  predicate EndsRejected(script: Script<Completion>, k: nat, v: VerificationId, running: Verification, j: JobId, result: PostResult,
                         now: Time, reason: Reason) {
    var receipt := CheckReceipt(j, Some(reason), now);
    && |script.effects| == k + 3 && script.effects[k] == MoveJob(j, Verifying, Some(Noted))
    && script.effects[k + 1] == PutVerification(v, running.(status := VRejected, readback := Some(result), receipt := Some(receipt)))
    && script.effects[k + 2] == MoveJob(j, Failed, Some(Noted))
    && script.outcome == Success(Rejected(receipt))
  }

  /** A read-back that passes is stored, then the expectation, then the Household if it is still the base,
      then the success of the job, then the applied envelope. */
  ghost predicate EndsPassed(script: Script<Completion>, k: nat, v: VerificationId, running: Verification, j: JobId, household: HouseholdState,
                             result: PostResult, now: Time) {
    var binding, receipt := running.request.binding, CheckReceipt(j, None, now);
    var verified := running.(status := VVerified, readback := Some(result), receipt := Some(receipt));
    && |script.effects| >= k + 2 && script.effects[k] == MoveJob(j, Verifying, Some(Noted))
    && script.effects[k + 1] == PutVerification(v, verified)
    && if !Flippable(running.base, binding.device, binding.member, true) then |script.effects| == k + 2 && script.outcome.Failure?
       else
         exists s :: IsFlipped(running.base, binding.device, true, s)
           && var pending := verified.(status := VPendingApply, expected := Some(s));
              |script.effects| >= k + 3 && script.effects[k + 2] == PutVerification(v, pending)
              && EndsApplied(script, k + 3, v, pending, j, household, s, receipt)
  }

  predicate EndsApplied(script: Script<Completion>, k: nat, v: VerificationId, pending: Verification, j: JobId, household: HouseholdState,
                        s: Snapshot, receipt: CheckReceipt) {
    var last := [MoveJob(j, Succeeded, None), PutVerification(v, pending.(status := VApplied))];
    && |script.effects| >= k
    && if household.snapshot == pending.base then
         script.effects[k..] == [PutHousehold(ByVerification(v), HouseholdState(s, household.bindings))] + last
         && script.outcome == Success(Applied(receipt))
       else if household.snapshot == s then script.effects[k..] == last && script.outcome == Success(Applied(receipt))
       else script.effects[k..] == [] && script.outcome == Failure(Refused(Stale))
  }

  /** How a confirmation that reads the provider ends. */
  ghost predicate EndsRead(script: Script<Completion>, k: nat, v: VerificationId, running: Verification, j: JobId, household: HouseholdState, env: Surroundings) {
    if !HasVerdict(running, env) then EndsUnjudged(script, k, v, running, j, env)
    else if env.clockValid && PostPasses(running.request, env.answer.result, env.now) then
      EndsPassed(script, k, v, running, j, household, env.answer.result, env.now)
    else
      exists reason :: PostRejectedFor(running.request, env.answer.result, env.now, reason)
        && EndsRejected(script, k, v, running, j, env.answer.result, env.now, reason)
  }

  lemma ConcludeEnds(v: VerificationId, running: Verification, j: JobId, household: HouseholdState, result: PostResult, now: Time)
    ensures var receipt := CheckReceipt(j, None, now);
      var verified := running.(status := VVerified, readback := Some(result), receipt := Some(receipt));
      var conclude := ConcludeScript(v, verified, j, household);
      EndsPassed(Then([MoveJob(j, Verifying, Some(Noted)), PutVerification(v, verified)], conclude), 0, v, running, j, household, result, now)
  {
    var binding := running.request.binding;
    FlippedMeans(running.base, binding.device, binding.member, true);
    var flipped := FlippedSnapshot(running.base, binding.device, binding.member, true);
    hide FlippedSnapshot, Flippable, IsFlipped;
    if flipped.Success? {
      assert IsFlipped(running.base, binding.device, true, flipped.value);
    }
  }

  lemma AnsweredEnds(v: VerificationId, running: Verification, j: JobId, household: HouseholdState, env: Surroundings)
    ensures EndsRead(AnsweredScript(v, running, j, household, env), 0, v, running, j, household, env)
  {
    if HasVerdict(running, env) {
      PostFailureMeans(running.request, env.answer.result, env.now);
      var failure := PostFailure(running.request, env.answer.result, env.now);
      if failure.None? {
        ConcludeEnds(v, running, j, household, env.answer.result, env.now);
        Judged(v, running, j, household, env);
      } else {
        assert PostRejectedFor(running.request, env.answer.result, env.now, failure.value);
        hide PostRejectedFor, PostPasses, PostFailure, FlippedSnapshot;
      }
    }
  }

  lemma Judged(v: VerificationId, running: Verification, j: JobId, household: HouseholdState, env: Surroundings)
    requires HasVerdict(running, env) && PostFailure(running.request, env.answer.result, env.now).None?
    ensures env.clockValid
    ensures var verified := running.(status := VVerified, readback := Some(env.answer.result), receipt := Some(CheckReceipt(j, None, env.now)));
      AnsweredScript(v, running, j, household, env)
        == Then([MoveJob(j, Verifying, Some(Noted)), PutVerification(v, verified)], ConcludeScript(v, verified, j, household))
  {
    hide ConcludeScript;
  }

  /** The effects before do not matter. */
  lemma Shifted(first: seq<Action>, rest: Script<Completion>, v: VerificationId, running: Verification, j: JobId, household: HouseholdState, env: Surroundings)
    requires EndsRead(rest, 0, v, running, j, household, env)
    ensures EndsRead(Then(first, rest), |first|, v, running, j, household, env)
  {
    hide PostRejectedFor, PostPasses, Flippable, IsFlipped;
    var whole := Then(first, rest);
    assert forall i :: 0 <= i < |rest.effects| ==> whole.effects[|first| + i] == rest.effects[i];
    assert forall i :: 0 <= i <= |rest.effects| ==> whole.effects[|first| + i..] == rest.effects[i..];
  }

  lemma Reading(db: Db, actor: Actor, form: ConfirmForm, env: Surroundings)
    requires Reads(db, actor, form, env)
    ensures var v, j := form.verification, |db.jobs|;
      var running := db.verifications[v].(status := VRunning, job := Some(j));
      ConfirmScript(db, actor, form, env) ==
        Then([ConsumeStepUp(VerificationScope(v)), CreateJob(Recovery.ConfirmJob(actor, form)), PutVerification(v, running), MoveJob(j, Running, None), CallReadBack(v, j)],
             AnsweredScript(v, running, j, db.household, env))
  {
    CurrentMeans(db, actor, db.verifications[form.verification]);
    hide Revalidation, Current, AnsweredScript, FindKey, KeyUnused;
  }

  /** A confirmation that spends a grant under a new key reads the provider and ends as its answer says. */
  lemma ReadsEnd(db: Db, actor: Actor, form: ConfirmForm, env: Surroundings)
    requires Reads(db, actor, form, env)
    ensures var script, v, j := ConfirmScript(db, actor, form, env), form.verification, |db.jobs|;
      var running := db.verifications[v].(status := VRunning, job := Some(j));
      Begins(script.effects, v, running, Recovery.ConfirmJob(actor, form), j) && EndsRead(script, 5, v, running, j, db.household, env)
  {
    var v, j := form.verification, |db.jobs|;
    var running := db.verifications[v].(status := VRunning, job := Some(j));
    Reading(db, actor, form, env);
    AnsweredEnds(v, running, j, db.household, env);
    hide ConfirmScript, AnsweredScript, Reads, EndsRead;
    var first := [ConsumeStepUp(VerificationScope(v)), CreateJob(Recovery.ConfirmJob(actor, form)), PutVerification(v, running), MoveJob(j, Running, None), CallReadBack(v, j)];
    Shifted(first, AnsweredScript(v, running, j, db.household, env), v, running, j, db.household, env);
    EndsNonEmpty(ConfirmScript(db, actor, form, env), v, running, j, db.household, env);
  }

  lemma EndsNonEmpty(script: Script<Completion>, v: VerificationId, running: Verification, j: JobId, household: HouseholdState, env: Surroundings)
    requires EndsRead(script, 5, v, running, j, household, env)
    ensures |script.effects| > 5
  {
    hide PostRejectedFor, PostPasses, Flippable, IsFlipped, EndsApplied;
  }

  /** Any other confirmation replays what is applied, or fails; it reads nothing, and no more than the grant
      is spent. */
  lemma OthersEnd(db: Db, actor: Actor, form: ConfirmForm, env: Surroundings)
    requires !Reads(db, actor, form, env)
    ensures var script := ConfirmScript(db, actor, form, env);
      var replays := MayConfirm(db, actor, form, env) && IsApplied(db.verifications[form.verification]);
      && script.effects == (if Spends(db, actor, form, env) then [ConsumeStepUp(VerificationScope(form.verification))] else [])
      && (if replays then script.outcome == Success(Applied(db.verifications[form.verification].receipt.value)) else script.outcome.Failure?)
      && (MayConfirm(db, actor, form, env) && !replays && !env.granted ==> script.outcome == Failure(Refused(StepUpRequired)))
  {
    if form.verification in db.verifications {
      CurrentMeans(db, actor, db.verifications[form.verification]);
    }
    hide Revalidation, Current, ReadBackScript, FindKey, KeyUnused;
  }

  lemma Outcomes(script: Script<Completion>, v: VerificationId, running: Verification, j: JobId, household: HouseholdState, env: Surroundings)
    requires EndsRead(script, 5, v, running, j, household, env)
    ensures var binding := running.request.binding;
      && (script.outcome.Success? && script.outcome.value.Applied? <==>
            && env.answer.ReadResult? && env.clockValid && PostPasses(running.request, env.answer.result, env.now)
            && Flippable(running.base, binding.device, binding.member, true)
            && (household.snapshot == running.base || IsFlipped(running.base, binding.device, true, household.snapshot)))
      && (script.outcome.Success? && script.outcome.value.Rejected? <==>
            HasVerdict(running, env) && !PostPasses(running.request, env.answer.result, env.now))
      && (script.outcome.Success? && script.outcome.value.Rejected? ==>
            exists reason :: PostRejectedFor(running.request, env.answer.result, env.now, reason)
              && script.outcome.value == Rejected(CheckReceipt(j, Some(reason), env.now)))
  {
    hide PostRejectedFor, Flippable;
    var binding := running.request.binding;
    forall s | IsFlipped(running.base, binding.device, true, s) && IsFlipped(running.base, binding.device, true, household.snapshot)
      ensures s == household.snapshot
    {
      OneFlip(running.base, binding.device, true, s, household.snapshot);
    }
    hide IsFlipped;
  }

  lemma OneFlip(base: Snapshot, id: DeviceId, managed: bool, s: Snapshot, t: Snapshot)
    requires IsFlipped(base, id, managed, s) && IsFlipped(base, id, managed, t)
    ensures s == t
  {
    assert s.household.devices == t.household.devices;
  }

  /** A confirmation ends applied if and only if it replays an applied envelope, or it reads the provider, the
      read-back is exactly the one planned for, timely, verified and with the expected signals, and the flag
      can be set over the current Household; it ends rejected if and only if there is any other read-back to
      judge, for the reason that read-back gives. */
  lemma ConfirmEndsIff(db: Db, actor: Actor, form: ConfirmForm, env: Surroundings)
    ensures Reads(db, actor, form, env) || MayConfirm(db, actor, form, env) ==> form.verification in db.verifications
    ensures var outcome, e := ConfirmScript(db, actor, form, env).outcome, if form.verification in db.verifications then Some(db.verifications[form.verification]) else None;
      && (outcome.Success? && outcome.value.Applied? <==>
            || (MayConfirm(db, actor, form, env) && IsApplied(e.value))
            || (&& Reads(db, actor, form, env) && env.answer.ReadResult? && env.clockValid
                && PostPasses(e.value.request, env.answer.result, env.now)
                && var binding := e.value.request.binding;
                   Flippable(e.value.base, binding.device, binding.member, true)
                   && (db.household.snapshot == e.value.base || IsFlipped(e.value.base, binding.device, true, db.household.snapshot))))
      && (outcome.Success? && outcome.value.Rejected? <==>
            && Reads(db, actor, form, env) && HasVerdict(e.value, env)
            && !PostPasses(e.value.request, env.answer.result, env.now))
      && (outcome.Success? && outcome.value.Rejected? ==>
            exists reason :: PostRejectedFor(e.value.request, env.answer.result, env.now, reason)
              && outcome.value == Rejected(CheckReceipt(|db.jobs|, Some(reason), env.now)))
  {
    if Reads(db, actor, form, env) {
      var v, j := form.verification, |db.jobs|;
      var running := db.verifications[v].(status := VRunning, job := Some(j));
      ReadsEnd(db, actor, form, env);
      hide ConfirmScript, EndsRead, Current, KeyUnused, PostPasses, PostRejectedFor, Flippable, IsFlipped;
      Outcomes(ConfirmScript(db, actor, form, env), v, running, j, db.household, env);
    } else {
      OthersEnd(db, actor, form, env);
      hide ConfirmScript, Current, KeyUnused, PostPasses, PostRejectedFor, Flippable, IsFlipped;
    }
  }

  /** The Household is written exactly when a confirmation is applied over the base, once, with the device's
      flag set and nothing else changed. */
  lemma ConfirmWritesIff(db: Db, actor: Actor, form: ConfirmForm, env: Surroundings, i: nat)
    requires i < |ConfirmScript(db, actor, form, env).effects| && ConfirmScript(db, actor, form, env).effects[i].PutHousehold?
    ensures Reads(db, actor, form, env) && i == 8
    ensures var a, e := ConfirmScript(db, actor, form, env).effects[i], db.verifications[form.verification];
      && env.answer.ReadResult? && env.clockValid && PostPasses(e.request, env.answer.result, env.now)
      && a.source == ByVerification(form.verification) && db.household.snapshot == e.base
      && a.household.bindings == db.household.bindings && IsFlipped(e.base, e.request.binding.device, true, a.household.snapshot)
  {
    if Reads(db, actor, form, env) {
      var v, j := form.verification, |db.jobs|;
      var running := db.verifications[v].(status := VRunning, job := Some(j));
      ReadsEnd(db, actor, form, env);
      hide ConfirmScript, Reads, PostPasses, PostRejectedFor, Flippable, IsFlipped;
      OnlyWrite(ConfirmScript(db, actor, form, env), v, running, Recovery.ConfirmJob(actor, form), j, db.household, env, i);
    } else {
      OthersEnd(db, actor, form, env);
      hide ConfirmScript, Spends;
    }
  }

  lemma OnlyWrite(script: Script<Completion>, v: VerificationId, running: Verification, job: Job, j: JobId, household: HouseholdState, env: Surroundings, i: nat)
    requires Begins(script.effects, v, running, job, j) && EndsRead(script, 5, v, running, j, household, env)
    requires i < |script.effects| && script.effects[i].PutHousehold?
    ensures env.answer.ReadResult? && env.clockValid && PostPasses(running.request, env.answer.result, env.now)
    ensures var a := script.effects[i];
      && i == 8 && a.source == ByVerification(v) && household.snapshot == running.base
      && a.household.bindings == household.bindings && IsFlipped(running.base, running.request.binding.device, true, a.household.snapshot)
  {
    hide PostRejectedFor, PostPasses, Flippable, IsFlipped;
    if i >= 8 {
      assert script.effects[8..][i - 8] == script.effects[i];
    }
  }

  // ----- why a request is refused ---------------------------------------------------------

  /** The first thing that a plan does not meet. */
  ghost function PlanProblem(db: Db, actor: Actor, form: PlanForm): Option<Code> {
    if !form.wellFormed then Some(InvalidRequest)
    else if Unbound(db.household.bindings, actor) then Some(ActorNotBound)
    else if !SomeAdministrator(db.household, actor) then Some(NotAuthorized)
    else if !AcceptedExecution(db, form.plan) then Some(NotVerifiable)
    else
      var plan := db.executions[form.plan].plan;
      if !BoundAs(db.household.bindings, actor, plan.actorMember) then Some(ActorMismatch)
      else if db.household.snapshot != plan.snapshot then Some(Stale)
      else if DeviceProblem(db.household, plan.device, plan.member, false).Some? then
        DeviceProblem(db.household, plan.device, plan.member, false)
      else if form.maxAge < 1 || form.maxAge > 3600 then Some(InvalidRequest)
      else if UnknownSignal in {form.expected.certificate, form.expected.profile, form.expected.agent} then Some(InvalidRequest)
      else None
  }

  lemma PlanRefusals(db: Db, actor: Actor, v: VerificationId, form: PlanForm)
    ensures PlanProblem(db, actor, form).None? <==> Plannable(db, actor, form)
    ensures var outcome := PlanScript(db, actor, v, form).outcome;
      outcome.Failure? ==> outcome == Failure(Refused(if PlanProblem(db, actor, form).Some? then PlanProblem(db, actor, form).value else StateInvalid))
  {
    PlannableMeans(db, actor, form);
    ActorRefusalMeans(db.household, actor);
    if AcceptedExecution(db, form.plan) {
      var plan := db.executions[form.plan].plan;
      ActorProblemMeans(db.household, actor, plan.actorMember);
      DeviceProblemMeans(db.household, plan.device, plan.member, false);
    }
    hide ActorRefusal, MemberOf, DeviceRefusal, DeviceIs, ActsAs, BoundAs, Unbound, SomeAdministrator, DeviceProblem, Plannable, PlannedVerification;
  }

  /** The first thing that a confirmation does not meet before its grant is spent. */
  ghost function ConfirmProblem(db: Db, actor: Actor, form: ConfirmForm, env: Surroundings): Option<Code> {
    if form.verification !in db.verifications then Some(NotFound)
    else
      var e := db.verifications[form.verification];
      var actors := ActorProblem(db.household, actor, e.actorMember);
      if actors.Some? then actors
      else if !AcceptedExecution(db, e.request.binding.plan) then Some(NotVerifiable)
      else if !BoundToExecution(db, e) then Some(BindingMismatch)
      else if db.household.snapshot != e.base && e.expected != Some(db.household.snapshot) then Some(Stale)
      else if e.status != VApplied && e.request.binding.provider !in env.adapters then Some(AdapterUnavailable)
      else if !form.wellFormed || form.key.None? then Some(InvalidRequest)
      else if !IsApplied(e) && !env.granted then Some(StepUpRequired)
      else None
  }

  lemma ConfirmRefusals(db: Db, actor: Actor, form: ConfirmForm, env: Surroundings)
    ensures ConfirmProblem(db, actor, form, env).Some? ==> ConfirmScript(db, actor, form, env) == Refuse(ConfirmProblem(db, actor, form, env).value)
  {
    if form.verification in db.verifications {
      ActorProblemMeans(db.household, actor, db.verifications[form.verification].actorMember);
    }
    hide ActorRefusal, MemberOf, ActorProblem, ActsAs, ReadBackScript, FindKey;
  }

  /** A used key costs the grant. */
  lemma UsedKeyRefusals(db: Db, actor: Actor, form: ConfirmForm, env: Surroundings, j: JobId)
    requires KeysDistinct(db.jobs) && Spends(db, actor, form, env) && j < |db.jobs| && db.jobs[j].SameKey(Recovery.ConfirmJob(actor, form))
    ensures ConfirmScript(db, actor, form, env) ==
      Script([ConsumeStepUp(VerificationScope(form.verification))],
             Failure(Refused(if db.jobs[j].request != VerifyRequest(form.verification) then IdempotencyConflict
                             else if db.jobs[j].state == Succeeded || db.jobs[j].state == Failed then PreviousAttemptFailed
                             else InProgress)))
  {
    CurrentMeans(db, actor, db.verifications[form.verification]);
    FoundByKey(db.jobs, j, Recovery.ConfirmJob(actor, form));
    hide Revalidation, Current, ReadBackScript, FindKey, KeyUnused, KeysDistinct;
  }
}
