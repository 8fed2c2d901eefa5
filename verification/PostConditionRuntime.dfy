/**
  Post-condition verification: planning, the confirmed read-back, the apply of the managed state
  and its recovery at process start.
 */
module PostConditionRuntime {
  import opened Wrappers
  import opened Records
  import opened Protocol
  import opened DurableStore
  import opened Scripts
  import Flips = HouseholdSafety
  import Safety = PostConditionSafety

  datatype PlanForm = PlanForm(wellFormed: bool, plan: PlanId, maxAge: int, expected: Signals)
  datatype ConfirmForm = ConfirmForm(wellFormed: bool, verification: VerificationId, key: Option<Key>)

  /** What a confirmation meets outside the store.  `granted`: the step-up token is valid for this
      actor and scope; `clockValid`: the trusted clock yields a well-formed timestamp `now`. */
  datatype Surroundings = Surroundings(
    adapters: set<ProviderId>,
    granted: bool,
    answer: ReadAnswer<PostResult>,
    clockValid: bool,
    now: Time)

  datatype Completion = Applied(receipt: CheckReceipt) | Rejected(receipt: CheckReceipt)

  // ----- planning -------------------------------------------------------------------------

  predicate ValidRequest(form: PlanForm) {
    && 1 <= form.maxAge <= MAX_AGE
    && form.expected.certificate != UnknownSignal && form.expected.profile != UnknownSignal && form.expected.agent != UnknownSignal
  }

  function PlanRefusal(db: Db, actor: Actor, form: PlanForm): Option<Code> {
    var refusal := ActorRefusal(db.household, actor);
    if !form.wellFormed then Some(InvalidRequest)
    else if refusal.Some? then refusal
    else if !Verifiable(db, form.plan) then Some(NotVerifiable)
    else
      var plan := db.executions[form.plan].plan;
      if MemberOf(db.household.bindings, actor) != Some(plan.actorMember) then Some(ActorMismatch)
      else if db.household.snapshot != plan.snapshot then Some(Stale)
      else
        var device := DeviceRefusal(db.household.snapshot.household.devices, plan.device, plan.member, false);
        if device.Some? then device
        else if !ValidRequest(form) then Some(InvalidRequest)
        else None
  }

  function PlannedVerification(db: Db, form: PlanForm): Verification
    requires Verifiable(db, form.plan)
  {
    var plan, receipt := db.executions[form.plan].plan, db.executions[form.plan].receipt.value;
    Verification(
      plan.actorMember,
      PostRequest(PostBinding(form.plan, plan.provider, receipt.operation, plan.device, plan.member, plan.snapshot.generation),
                  form.maxAge, form.expected),
      receipt, db.household.snapshot, db.household.bindings, VPlanned, None, None, None, None)
  }

  function PlanScript(db: Db, actor: Actor, v: VerificationId, form: PlanForm): Script<Verification> {
    var refusal := PlanRefusal(db, actor, form);
    if refusal.Some? then Refuse(refusal.value)
    else
      var planned := PlannedVerification(db, form);
      if v !in db.verifications then Script([PutVerification(v, planned)], Success(planned))
      else
        var stored := db.verifications[v];
        if stored.actorMember != planned.actorMember || stored.request != planned.request
           || stored.base != planned.base || stored.executionReceipt != planned.executionReceipt
        then Refuse(StateInvalid)
        else Script([], Success(planned))
  }

  // ----- the confirmed read-back ----------------------------------------------------------

  /** Why the verification may not proceed now for this actor, if so. */
  function Revalidation(db: Db, actor: Actor, e: Verification): Option<Code> {
    var refusal := ActorRefusal(db.household, actor);
    var binding := e.request.binding;
    if refusal.Some? then refusal
    else if MemberOf(db.household.bindings, actor) != Some(e.actorMember) then Some(ActorMismatch)
    else if !Verifiable(db, binding.plan) then Some(NotVerifiable)
    else
      var plan, receipt := db.executions[binding.plan].plan, db.executions[binding.plan].receipt.value;
      if plan.actorMember != e.actorMember || plan.provider != binding.provider || plan.device != binding.device
         || plan.member != binding.member || receipt.job != e.executionReceipt.job || receipt.operation != binding.operation
      then Some(BindingMismatch)
      else if db.household.snapshot != e.base && e.expected != Some(db.household.snapshot) then Some(Stale)
      else None
  }

  /** The Household already is the expected one: what is left is the job, then the envelope. */
  function CompleteScript(v: VerificationId, e: Verification, j: JobId, state: JobState): Script<Completion>
    requires e.receipt.Some?
  {
    if state == Verifying then
      Script([MoveJob(j, Succeeded, None), PutVerification(v, e.(status := VApplied))], Success(Applied(e.receipt.value)))
    else if state == Succeeded then
      Script([PutVerification(v, e.(status := VApplied))], Success(Applied(e.receipt.value)))
    else Refuse(StateInvalid)
  }

  /** From the stored expectation to the applied managed state; `state` is the job's state. */
  function ApplyScript(v: VerificationId, e: Verification, j: JobId, household: HouseholdState, state: JobState, bindings: seq<ActorBinding>): Script<Completion>
    requires e.expected.Some? && e.receipt.Some?
  {
    if household.bindings != bindings then Refuse(Stale)
    else if household.snapshot == e.base then
      Then([PutHousehold(ByVerification(v), HouseholdState(e.expected.value, bindings))], CompleteScript(v, e, j, state))
    else if household.snapshot != e.expected.value then Refuse(Stale)
    else CompleteScript(v, e, j, state)
  }

  /** From a stored verdict to the end of the confirmation. */
  function ConcludeScript(v: VerificationId, e: Verification, j: JobId, household: HouseholdState): Script<Completion>
    requires e.receipt.Some?
  {
    if e.receipt.value.failure.Some? then Script([MoveJob(j, Failed, Some(Noted))], Success(Rejected(e.receipt.value)))
    else
      var expected := FlippedSnapshot(e.base, e.request.binding.device, e.request.binding.member, true);
      if expected.Failure? then Script([], Failure(expected.error))
      else
        var pending := e.(status := VPendingApply, expected := Some(expected.value));
        Then([PutVerification(v, pending)], ApplyScript(v, pending, j, household, Verifying, household.bindings))
  }

  /** From a well-formed read-back to the stored verdict and on. */
  function JudgeScript(v: VerificationId, e: Verification, j: JobId, household: HouseholdState, env: Surroundings, result: PostResult): Script<Completion> {
    if !env.clockValid && e.request.binding == result.binding then
      Script([MoveJob(j, Failed, Some(Noted)), PutVerification(v, e.(status := VCheckFailed, readback := Some(result)))],
             Failure(Refused(TrustedTimeInvalid)))
    else
      var failure := PostFailure(e.request, result, env.now);
      var judged := e.(status := if failure.None? then VVerified else VRejected,
                       readback := Some(result), receipt := Some(CheckReceipt(j, failure, env.now)));
      Then([PutVerification(v, judged)], ConcludeScript(v, judged, j, household))
  }

  /** From the provider's answer on. */
  function AnsweredScript(v: VerificationId, e: Verification, j: JobId, household: HouseholdState, env: Surroundings): Script<Completion> {
    match env.answer
    case ReadResult(result) =>
      Then([MoveJob(j, Verifying, Some(Noted))], JudgeScript(v, e, j, household, env, result))
    case MalformedResult =>
      Script([MoveJob(j, Failed, Some(Noted)), PutVerification(v, e.(status := VReadbackFailed))], Failure(Refused(ResultRejected)))
    case ReadRaised =>
      Script([MoveJob(j, Failed, Some(Noted)), PutVerification(v, e.(status := VReadbackFailed))], Failure(Refused(ProviderError)))
  }

  /** From the new job on. */
  function ReadBackScript(v: VerificationId, e: Verification, j: JobId, household: HouseholdState, env: Surroundings): Script<Completion> {
    var running := e.(status := VRunning, job := Some(j));
    Then([PutVerification(v, running), MoveJob(j, Running, None), CallReadBack(v, j)],
         AnsweredScript(v, running, j, household, env))
  }

  function ConfirmScript(db: Db, actor: Actor, form: ConfirmForm, env: Surroundings): Script<Completion> {
    var v := form.verification;
    if v !in db.verifications then Refuse(NotFound)
    else
      var e := db.verifications[v];
      var stale := Revalidation(db, actor, e);
      if stale.Some? then Refuse(stale.value)
      else if e.status != VApplied && e.request.binding.provider !in env.adapters then Refuse(AdapterUnavailable)
      else if !form.wellFormed || form.key.None? then Refuse(InvalidRequest)
      else if e.status == VApplied && e.receipt.Some? then Script([], Success(Applied(e.receipt.value)))
      else if !env.granted then Refuse(StepUpRequired)
      else
        var job := Job(VerifyRequest(v), actor, form.key.value, None, Preflight, None);
        var existing := FindKey(db.jobs, job);
        var consumed := [ConsumeStepUp(VerificationScope(v))];
        if existing.None? then
          Then(consumed + [CreateJob(job)], ReadBackScript(v, e, |db.jobs|, db.household, env))
        else if db.jobs[existing.value].request != job.request then
          Script(consumed, Failure(Refused(IdempotencyConflict)))
        else if db.jobs[existing.value].state in {Preflight, Running, Verifying} then
          Script(consumed, Failure(Refused(InProgress)))
        else Script(consumed, Failure(Refused(PreviousAttemptFailed)))
  }

  // ----- recovery at process start --------------------------------------------------------

  /** Finalizes one stored pending envelope; 1 if it is applied, 0 if not. */
  function RecoverOneScript(db: Db, v: VerificationId): (r: Script<nat>)
    ensures r.outcome.Success?
  {
    if !Recoverable(db, v) then Script([], Success(0))
    else
      var e := db.verifications[v];
      var j := e.job.value;
      var apply := ApplyScript(v, e, j, db.household, db.jobs[j].state, e.bindings);
      if apply.outcome.Success? then Script(apply.effects, Success(1))
      else if db.jobs[j].state == Verifying then Script(apply.effects + [MoveJob(j, Failed, Some(Noted))], Success(0))
      else Script(apply.effects, Success(0))
  }

  /** The envelopes are visited in the order of `ids`. */
  function RecoverScript(db: Db, ids: seq<VerificationId>): (r: Script<nat>)
    ensures r.outcome.Success?
    decreases |ids|
  {
    if ids == [] then Script([], Success(0))
    else
      var one := RecoverOneScript(db, ids[0]);
      var rest := RecoverScript(Fold(db, one.effects), ids[1..]);
      Script(one.effects + rest.effects, Success(one.outcome.value + rest.outcome.value))
  }

  // ----- the runtime ----------------------------------------------------------------------

  class Runtime {
    const store: Store

    constructor (store: Store)
      ensures this.store == store
    {
      this.store := store;
    }

    /** Stores a verification plan.  `v` is the digest of the plan, so an id that is taken must hold
        the same plan. */
    method Plan(actor: Actor, v: VerificationId, form: PlanForm) returns (r: Result<Verification>)
      requires store.Valid()
      modifies store
      ensures store.Valid()
      ensures Ran(PlanScript(old(store.db), actor, v, form), old(store.db).log, old(store.fuel), store.db.log, store.fuel, r)
    {
      hide Run;
      var refusal := PlanRefusal(store.db, actor, form);
      if refusal.Some? {
        return Failure(Refused(refusal.value));
      }
      var planned := PlannedVerification(store.db, form);
      if v !in store.db.verifications {
        :- store.Commit(PutVerification(v, planned));
      } else {
        var stored := store.db.verifications[v];
        if stored.actorMember != planned.actorMember || stored.request != planned.request
           || stored.base != planned.base || stored.executionReceipt != planned.executionReceipt {
          return Failure(Refused(StateInvalid));
        }
      }
      return Success(planned);
    }

    /** Ends a verification whose Household has been written. */
    method Complete(v: VerificationId, j: JobId) returns (r: Result<Completion>)
      requires store.Valid() && Pending(store.db, v, j)
      requires store.db.verifications[v].expected == Some(store.db.household.snapshot)
      modifies store
      ensures store.Valid()
      ensures Ran(CompleteScript(v, old(store.db).verifications[v], j, old(store.db).jobs[j].state),
                  old(store.db).log, old(store.fuel), store.db.log, store.fuel, r)
    {
      hide Run, Enabled, VerdictPassed;
      var e := store.db.verifications[v];
      if store.db.jobs[j].state == Verifying {
        MoveEnabled(store.db, j);
        :- store.TransitionActionJob(j, Verifying, Succeeded, None);
      } else if store.db.jobs[j].state != Succeeded {
        return Failure(Refused(StateInvalid));
      }
      PutEnabled(store.db, v, e.(status := VApplied));
      :- store.Commit(PutVerification(v, e.(status := VApplied)));
      return Success(Applied(e.receipt.value));
    }

    /** Applies the stored expectation: the Household first, then the job, then the envelope. */
    method ApplyVerified(v: VerificationId, j: JobId, bindings: seq<ActorBinding>) returns (r: Result<Completion>)
      requires store.Valid() && Pending(store.db, v, j)
      modifies store
      ensures store.Valid()
      ensures Ran(ApplyScript(v, old(store.db).verifications[v], j, old(store.db).household, old(store.db).jobs[j].state, bindings),
                  old(store.db).log, old(store.fuel), store.db.log, store.fuel, r)
    {
      hide Run, Enabled, CompleteScript, VerdictPassed;
      var e := store.db.verifications[v];
      if store.db.household.bindings != bindings {
        return Failure(Refused(Stale));
      }
      if store.db.household.snapshot == e.base {
        WriteEnabled(store.db, v, HouseholdState(e.expected.value, bindings));
        :- store.Commit(PutHousehold(ByVerification(v), HouseholdState(e.expected.value, bindings)));
      } else if store.db.household.snapshot != e.expected.value {
        return Failure(Refused(Stale));
      }
      r := Complete(v, j);
    }

    /** Rejects, or stores the expectation and applies it. */
    method Conclude(v: VerificationId, j: JobId) returns (r: Result<Completion>)
      requires store.Valid() && VerdictStored(store.db, v, j) && JobFor(store.db, j, VerifyRequest(v), Verifying)
      requires store.db.verifications[v].status in {VVerified, VRejected}
      modifies store
      ensures store.Valid()
      ensures Ran(ConcludeScript(v, old(store.db).verifications[v], j, old(store.db).household),
                  old(store.db).log, old(store.fuel), store.db.log, store.fuel, r)
    {
      hide Run, Enabled, ApplyScript, FlippedSnapshot, VerdictPassed;
      var e := store.db.verifications[v];
      if e.receipt.value.failure.Some? {
        MoveEnabled(store.db, j);
        :- store.TransitionActionJob(j, Verifying, Failed, Some(Noted));
        return Success(Rejected(e.receipt.value));
      }
      var expected := FlippedSnapshot(e.base, e.request.binding.device, e.request.binding.member, true);
      if expected.Failure? {
        return Failure(expected.error);
      }
      var pending := e.(status := VPendingApply, expected := Some(expected.value));
      PutEnabled(store.db, v, pending);
      :- store.Commit(PutVerification(v, pending));
      r := ApplyVerified(v, j, store.db.household.bindings);
    }

    /** The trusted clock cannot be read: the attempt fails without a verdict. */
    method GiveUp(v: VerificationId, j: JobId, result: PostResult) returns (r: Result<Completion>)
      requires store.Valid() && Attempting(store.db, v, j) && JobFor(store.db, j, VerifyRequest(v), Verifying)
      modifies store
      ensures store.Valid()
      ensures Ran(Script([MoveJob(j, Failed, Some(Noted)),
                          PutVerification(v, old(store.db).verifications[v].(status := VCheckFailed, readback := Some(result)))],
                         Failure(Refused(TrustedTimeInvalid))),
                  old(store.db).log, old(store.fuel), store.db.log, store.fuel, r)
    {
      hide Run, Enabled, Effect;
      CheckFailedEnabled(store.db, v, j, result);
      var e := store.db.verifications[v];
      :- store.TransitionActionJob(j, Verifying, Failed, Some(Noted));
      :- store.Commit(PutVerification(v, e.(status := VCheckFailed, readback := Some(result))));
      return Failure(Refused(TrustedTimeInvalid));
    }

    /** Judges a well-formed read-back. */
    method Judge(v: VerificationId, j: JobId, env: Surroundings, result: PostResult) returns (r: Result<Completion>)
      requires store.Valid() && Attempting(store.db, v, j) && JobFor(store.db, j, VerifyRequest(v), Verifying)
      modifies store
      ensures store.Valid()
      ensures Ran(JudgeScript(v, old(store.db).verifications[v], j, old(store.db).household, env, result),
                  old(store.db).log, old(store.fuel), store.db.log, store.fuel, r)
    {
      hide Run, Enabled, ConcludeScript, PostFailure, Effect;
      var e := store.db.verifications[v];
      if !env.clockValid && e.request.binding == result.binding {
        r := GiveUp(v, j, result);
        return;
      }
      var failure := PostFailure(e.request, result, env.now);
      var judged := e.(status := if failure.None? then VVerified else VRejected,
                       readback := Some(result), receipt := Some(CheckReceipt(j, failure, env.now)));
      JudgedEnabled(store.db, v, j, result, env.now);
      :- store.Commit(PutVerification(v, judged));
      r := Conclude(v, j);
    }

    /** Records what the provider answered. */
    method Answered(v: VerificationId, j: JobId, env: Surroundings) returns (r: Result<Completion>)
      requires store.Valid() && Attempting(store.db, v, j) && JobFor(store.db, j, VerifyRequest(v), Running)
      modifies store
      ensures store.Valid()
      ensures Ran(AnsweredScript(v, old(store.db).verifications[v], j, old(store.db).household, env),
                  old(store.db).log, old(store.fuel), store.db.log, store.fuel, r)
    {
      hide Run, Enabled, JudgeScript, Take;
      var e := store.db.verifications[v];
      MoveEnabled(store.db, j);
      Taken([MoveJob(j, Failed, Some(Noted)), PutVerification(v, e.(status := VReadbackFailed))], store.fuel);
      if env.answer.ReadResult? {
        TakeAfter([MoveJob(j, Verifying, Some(Noted))],
                  JudgeScript(v, e, j, store.db.household, env, env.answer.result).effects, store.fuel);
        :- store.TransitionActionJob(j, Running, Verifying, Some(Noted));
        r := Judge(v, j, env, env.answer.result);
        return;
      }
      :- store.TransitionActionJob(j, Running, Failed, Some(Noted));
      PutEnabled(store.db, v, e.(status := VReadbackFailed));
      :- store.Commit(PutVerification(v, e.(status := VReadbackFailed)));
      return Failure(Refused(if env.answer.MalformedResult? then ResultRejected else ProviderError));
    }

    /** Drives a new verification job through the provider's read-back. */
    method ReadBack(v: VerificationId, j: JobId, env: Surroundings) returns (r: Result<Completion>)
      requires store.Valid() && v in store.db.verifications && store.db.verifications[v].status != VApplied
      requires Verifiable(store.db, store.db.verifications[v].request.binding.plan)
      requires JobFor(store.db, j, VerifyRequest(v), Preflight)
      modifies store
      ensures store.Valid()
      ensures Ran(ReadBackScript(v, old(store.db).verifications[v], j, old(store.db).household, env),
                  old(store.db).log, old(store.fuel), store.db.log, store.fuel, r)
    {
      hide Run, Enabled, AnsweredScript, Verifiable, Effect, Take;
      var running := store.db.verifications[v].(status := VRunning, job := Some(j));
      ReadBackEnabled(store.db, v, j);
      TakeAfter([PutVerification(v, running), MoveJob(j, Running, None), CallReadBack(v, j)],
                AnsweredScript(v, running, j, store.db.household, env).effects, store.fuel);
      :- store.Commit(PutVerification(v, running));
      :- store.TransitionActionJob(j, Preflight, Running, None);
      :- store.Commit(CallReadBack(v, j));
      r := Answered(v, j, env);
    }

    /** A confirmation: revalidated, stepped up, read back, judged and applied. */
    method Confirm(actor: Actor, form: ConfirmForm, env: Surroundings) returns (r: Result<Completion>)
      requires store.Valid()
      modifies store
      ensures store.Valid()
      ensures Ran(ConfirmScript(old(store.db), actor, form, env), old(store.db).log, old(store.fuel), store.db.log, store.fuel, r)
    {
      hide Run, Enabled, ReadBackScript, ActorRefusal, Take;
      Taken<Action>([], store.fuel);
      var v := form.verification;
      if v !in store.db.verifications {
        return Failure(Refused(NotFound));
      }
      var e := store.db.verifications[v];
      var stale := Revalidation(store.db, actor, e);
      if stale.Some? {
        return Failure(Refused(stale.value));
      }
      if e.status != VApplied && e.request.binding.provider !in env.adapters {
        return Failure(Refused(AdapterUnavailable));
      }
      if !form.wellFormed || form.key.None? {
        return Failure(Refused(InvalidRequest));
      }
      AppliedHasReceipt(store.initial, store.db, v);
      if e.status == VApplied {
        return Success(Applied(e.receipt.value));
      }
      if !env.granted {
        return Failure(Refused(StepUpRequired));
      }
      ConsumeEnabled(store.db, VerificationScope(v));
      Taken([ConsumeStepUp(VerificationScope(v))], store.fuel);
      TakeAfter([ConsumeStepUp(VerificationScope(v))] + [CreateJob(Job(VerifyRequest(v), actor, form.key.value, None, Preflight, None))],
                ReadBackScript(v, e, |store.db.jobs|, store.db.household, env).effects, store.fuel);
      :- store.Commit(ConsumeStepUp(VerificationScope(v)));
      CreateEnabled(store.db, v, actor, form.key.value);
      var stored :- store.CreateActionJob(VerifyRequest(v), actor, form.key.value, None);
      var (j, created) := stored;
      if !created {
        if store.db.jobs[j].state in {Preflight, Running, Verifying} {
          return Failure(Refused(InProgress));
        }
        return Failure(Refused(PreviousAttemptFailed));
      }
      r := ReadBack(v, j, env);
    }

    /** Finalizes one stored pending envelope without repeating the provider's read-back. */
    method RecoverOne(v: VerificationId) returns (r: Result<nat>)
      requires store.Valid()
      modifies store
      ensures store.Valid()
      ensures Ran(RecoverOneScript(old(store.db), v), old(store.db).log, old(store.fuel), store.db.log, store.fuel, r)
    {
      hide Run, Enabled, ApplyScript;
      ghost var before := store.db;
      if !Recoverable(store.db, v) {
        return Success(0);
      }
      var e := store.db.verifications[v];
      var j := e.job.value;
      PendingSound(store.initial, store.db, v);
      ApplyEndsWell(v, e, j, store.db.household, store.db.jobs[j].state, e.bindings);
      var applied := ApplyVerified(v, j, e.bindings);
      if applied.Success? {
        return Success(1);
      }
      if applied.error == Crashed {
        return Failure(Crashed);
      }
      RefusedKeepsJob(store.initial, before, store.db, v);
      if store.db.jobs[j].state == Verifying {
        MoveEnabled(store.db, j);
        :- store.TransitionActionJob(j, Verifying, Failed, Some(Noted));
      }
      return Success(0);
    }

    /** Recovery at process start, over the stored verification ids in key order. */
    method RecoverIncomplete(ids: seq<VerificationId>) returns (r: Result<nat>)
      requires store.Valid()
      modifies store
      ensures store.Valid()
      ensures Ran(RecoverScript(old(store.db), ids), old(store.db).log, old(store.fuel), store.db.log, store.fuel, r)
    {
      hide Run, RecoverScript, RecoverOneScript, Fold, Effect, Take;
      var i, recovered := 0, 0;
      ghost var done: seq<Action> := [];
      ghost var whole := RecoverScript(store.db, ids);
      FoldNothing(store.db);
      assert ids[0..] == ids;
      while i < |ids|
        invariant 0 <= i <= |ids| && store.Valid()
        invariant store.db.log == old(store.db).log + done && store.db == Fold(old(store.db), done)
        invariant old(store.fuel) == |done| + store.fuel
        invariant whole.effects == done + RecoverScript(store.db, ids[i..]).effects
        invariant whole.outcome == Success(recovered + RecoverScript(store.db, ids[i..]).outcome.value)
      {
        ghost var before := store.db;
        ghost var one := RecoverOneScript(before, ids[i]);
        RecoverFirst(before, ids, i);
        Taken(one.effects, store.fuel);
        TakeAfter(done, one.effects + RecoverScript(Fold(before, one.effects), ids[i + 1..]).effects, old(store.fuel));
        TakeAfter(one.effects, RecoverScript(Fold(before, one.effects), ids[i + 1..]).effects, store.fuel);
        var result :- RecoverOne(ids[i]);
        RunState(store.initial, before, store.db, one.effects);
        FoldAppend(old(store.db), done, one.effects);
        done := done + one.effects;
        recovered := recovered + result;
        i := i + 1;
      }
      RecoverNone(store.db, ids);
      Taken(whole.effects, old(store.fuel));
      return Success(recovered);
    }
  }

  lemma RecoverFirst(db: Db, ids: seq<VerificationId>, i: nat)
    requires i < |ids|
    ensures var one := RecoverOneScript(db, ids[i]);
      var rest := RecoverScript(Fold(db, one.effects), ids[i + 1..]);
      RecoverScript(db, ids[i..]) == Script(one.effects + rest.effects, Success(one.outcome.value + rest.outcome.value))
  {
    hide RecoverOneScript, Fold;
    assert ids[i..][0] == ids[i] && ids[i..][1..] == ids[i + 1..];
  }

  lemma RecoverNone(db: Db, ids: seq<VerificationId>)
    ensures RecoverScript(db, ids[|ids|..]) == Script([], Success(0))
  {
  }

  // ----- what the operations rely on ------------------------------------------------------

  /** The verified expectation of `v` is stored and its job known. */
  predicate Pending(db: Db, v: VerificationId, j: JobId) {
    && Recoverable(db, v) && db.verifications[v].job == Some(j)
    && db.jobs[j].request == VerifyRequest(v)
  }

  /** A confirmation of `v` is waiting for its read-back to be judged. */
  predicate Attempting(db: Db, v: VerificationId, j: JobId) {
    v in db.verifications && db.verifications[v].status == VRunning && db.verifications[v].job == Some(j)
  }

  /** The verdict on the read-back is stored. */
  predicate VerdictStored(db: Db, v: VerificationId, j: JobId) {
    && v in db.verifications && db.verifications[v].job == Some(j) && db.verifications[v].receipt.Some?
    && (db.verifications[v].receipt.value.failure.None? ==> db.verifications[v].status == VVerified)
  }

  /** The job is not that of an expectation that can still be applied. */
  predicate MayFail(db: Db, j: JobId)
    requires j < |db.jobs| && db.jobs[j].request.VerifyRequest?
  {
    var v := db.jobs[j].request.verification;
    !Convergent(db, v) || db.verifications[v].job != Some(j)
  }

  lemma PutEnabled(db: Db, v: VerificationId, e: Verification)
    requires VerificationAllowed(db, v, e)
    ensures Enabled(db, PutVerification(v, e))
  {
  }

  lemma MoveEnabled(db: Db, j: JobId)
    requires j < |db.jobs| && db.jobs[j].request.VerifyRequest?
    ensures forall to, result :: Edge(db.jobs[j].state, to) && (to != Failed || MayFail(db, j)) ==> Enabled(db, MoveJob(j, to, result))
  {
  }

  lemma WriteEnabled(db: Db, v: VerificationId, state: HouseholdState)
    requires HouseholdAllowed(db, ByVerification(v), state)
    ensures Enabled(db, PutHousehold(ByVerification(v), state))
  {
  }

  /** The three effects that take a new job to the provider's read-back. */
  lemma ReadBackEnabled(db: Db, v: VerificationId, j: JobId)
    requires v in db.verifications && db.verifications[v].status != VApplied
    requires Verifiable(db, db.verifications[v].request.binding.plan) && JobFor(db, j, VerifyRequest(v), Preflight)
    ensures var first := PutVerification(v, db.verifications[v].(status := VRunning, job := Some(j)));
      var second := MoveJob(j, Running, None);
      var called := Apply(Apply(Apply(db, first), second), CallReadBack(v, j));
      && Enabled(db, first) && Enabled(Apply(db, first), second)
      && Enabled(Apply(Apply(db, first), second), CallReadBack(v, j))
      && JobFor(Apply(db, first), j, VerifyRequest(v), Preflight)
      && Attempting(called, v, j) && JobFor(called, j, VerifyRequest(v), Running)
      && called.verifications[v] == first.vrecord && called.household == db.household
  {
  }

  lemma CheckFailedEnabled(db: Db, v: VerificationId, j: JobId, result: PostResult)
    requires Attempting(db, v, j) && JobFor(db, j, VerifyRequest(v), Verifying)
    ensures var first := MoveJob(j, Failed, Some(Noted));
      && Enabled(db, first)
      && Enabled(Apply(db, first), PutVerification(v, db.verifications[v].(status := VCheckFailed, readback := Some(result))))
  {
  }

  lemma JudgedEnabled(db: Db, v: VerificationId, j: JobId, result: PostResult, now: Time)
    requires Attempting(db, v, j) && JobFor(db, j, VerifyRequest(v), Verifying)
    ensures var e := db.verifications[v];
      var failure := PostFailure(e.request, result, now);
      var judged := e.(status := if failure.None? then VVerified else VRejected,
                       readback := Some(result), receipt := Some(CheckReceipt(j, failure, now)));
      var after := Apply(db, PutVerification(v, judged));
      && Enabled(db, PutVerification(v, judged))
      && VerdictStored(after, v, j) && JobFor(after, j, VerifyRequest(v), Verifying)
      && after.verifications[v] == judged && after.household == db.household
  {
    hide PostFailure;
  }

  lemma ApplyEndsWell(v: VerificationId, e: Verification, j: JobId, household: HouseholdState, state: JobState, bindings: seq<ActorBinding>)
    requires e.expected.Some? && e.receipt.Some?
    ensures ApplyScript(v, e, j, household, state, bindings).outcome != Failure(Crashed)
  {
  }

  lemma ConsumeEnabled(db: Db, scope: Scope)
    ensures Enabled(db, ConsumeStepUp(scope))
  {
  }

  lemma CreateEnabled(db: Db, v: VerificationId, actor: Actor, key: Key)
    requires v in db.verifications
    ensures var job := Job(VerifyRequest(v), actor, key, None, Preflight, None);
      KeyUnused(db.jobs, job) ==> Enabled(db, CreateJob(job))
  {
  }

  lemma AppliedHasReceipt(init: Db, db: Db, v: VerificationId)
    requires Run(init, db) && v in db.verifications
    ensures db.verifications[v].status == VApplied ==> db.verifications[v].receipt.Some?
  {
    Flips.Holds(init, db.log);
    hide Legal, Fold;
    assert Flips.VerificationSound(db.log, v, db.verifications[v]);
  }

  lemma PendingSound(init: Db, db: Db, v: VerificationId)
    requires Run(init, db) && Recoverable(db, v)
    ensures Pending(db, v, db.verifications[v].job.value)
  {
    Safety.JobsNamedHolds(init, db.log);
    hide Legal, Fold;
  }

  /** An apply that is refused leaves the job as it was; while that is still verifying, the refusal
      means that the expectation cannot be applied. */
  lemma RefusedKeepsJob(init: Db, before: Db, after: Db, v: VerificationId)
    requires Run(init, before) && Run(init, after) && Recoverable(before, v)
    requires var e := before.verifications[v];
      var apply := ApplyScript(v, e, e.job.value, before.household, before.jobs[e.job.value].state, e.bindings);
      apply.outcome.Failure? && after.log == before.log + apply.effects
    ensures after.jobs == before.jobs
    ensures before.jobs[before.verifications[v].job.value].state == Verifying ==> !Convergent(after, v)
  {
    hide Legal;
    var e := before.verifications[v];
    var apply := ApplyScript(v, e, e.job.value, before.household, before.jobs[e.job.value].state, e.bindings);
    RunState(init, before, after, apply.effects);
    if |apply.effects| == 1 {
      assert apply.effects[..0] == [];
    }
  }
}
