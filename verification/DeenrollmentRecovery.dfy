/** What a later request finds of a de-enrollment that died, for every point at which it can die. */
module DeenrollmentRecovery {
  import opened Wrappers
  import opened Records
  import opened Protocol
  import opened DurableStore
  import opened Scripts
  import opened DeenrollmentRuntime
  import Flips = HouseholdSafety

  // ----- provider mutations ---------------------------------------------------------------

  /** A reconciliation never sends a provider mutation. */
  lemma ReconcileSendsNothing(db: Db, actor: Actor, form: ExecuteForm, env: Surroundings)
    ensures var effects := ReconcileScript(db, actor, form, env).effects;
      forall i :: 0 <= i < |effects| ==> !effects[i].CallDeenroll?
  {
    hide DeenrollFailure, FlippedSnapshot, Revalidation, RebuildRefusal, FindKey, CarriedReceipt;
  }

  /** An execution sends at most one, and only of a plan that is confirmed when it begins. */
  lemma ExecuteSendsOnce(db: Db, actor: Actor, form: ExecuteForm, env: Surroundings)
    ensures var effects := ExecuteScript(db, actor, form, env).effects;
      forall i :: 0 <= i < |effects| && effects[i].CallDeenroll? ==>
        && i == 3 && effects[i].deenrolled == form.plan
        && form.plan in db.deenrollments && db.deenrollments[form.plan].status == DConfirmed
  {
    hide DeenrollFailure, FlippedSnapshot, Revalidation, RebuildRefusal, FindKey;
  }

  // ----- an interrupted local apply is finished by reconciliation -------------------------

  predicate Finishable(db: Db, d: DeenrollmentId) {
    && d in db.deenrollments
    && var e := db.deenrollments[d];
    && e.status == DPendingApply && e.confirmedAt.Some? && RebuildRefusal(db, e).None?
    && e.expected.Some? && e.expected.value != e.base && e.receipt.Some?
    && e.job.Some? && e.job.value < |db.jobs| && db.jobs[e.job.value].state in {Verifying, Succeeded}
    && (db.household.snapshot == e.base || db.household.snapshot == e.expected.value)
  }

  function Remaining(db: Db, d: DeenrollmentId): seq<Action>
    requires d in db.deenrollments
  {
    FinishScript(db, d, db.deenrollments[d]).effects
  }

  predicate WellFormed(form: ExecuteForm, d: DeenrollmentId) {
    form.wellFormed && form.key.Some? && form.plan == d
  }

  /** Anyone's reconciliation finishes it, whatever the provider would answer. */
  lemma ReconcileFinishes(db: Db, d: DeenrollmentId, actor: Actor, form: ExecuteForm, env: Surroundings)
    requires Finishable(db, d) && WellFormed(form, d)
    ensures ReconcileScript(db, actor, form, env) ==
      Script(Remaining(db, d), Success(Unmanaged(db.deenrollments[d].receipt.value)))
  {
    hide RebuildRefusal, Revalidation;
  }

  /** A pending envelope is finished by reconciliation exactly when its expectation is stored, the
      Household is the base or the expected one, and its job is not over as a failure.  The code
      stores `pending` once before it stores the expectation, so a crash between the two leaves an
      envelope that reconciliation refuses. */
  lemma PendingFinishedIff(db: Db, d: DeenrollmentId, actor: Actor, form: ExecuteForm, env: Surroundings)
    requires d in db.deenrollments && WellFormed(form, d)
    requires var e := db.deenrollments[d];
      && e.status == DPendingApply && e.confirmedAt.Some? && RebuildRefusal(db, e).None?
      && e.receipt.Some? && e.job.Some? && e.job.value < |db.jobs|
    ensures var e := db.deenrollments[d];
      ReconcileScript(db, actor, form, env).outcome.Success? <==>
        (&& e.expected.Some?
         && (db.household.snapshot == e.base || db.household.snapshot == e.expected.value)
         && db.jobs[e.job.value].state in {Verifying, Succeeded})
    ensures db.deenrollments[d].expected.None? ==> ReconcileScript(db, actor, form, env) == Refuse(StateInvalid)
  {
    hide RebuildRefusal, Revalidation;
  }

  /** The flag is cleared, the envelope applied and its job succeeded. */
  predicate Finished(db: Db, d: DeenrollmentId) {
    && d in db.deenrollments
    && var e := db.deenrollments[d];
    && e.status == DApplied && e.receipt.Some? && e.expected == Some(db.household.snapshot)
    && e.job.Some? && e.job.value < |db.jobs| && db.jobs[e.job.value].state == Succeeded
  }

  lemma OneStep(db: Db, d: DeenrollmentId)
    requires Finishable(db, d)
    ensures Remaining(db, d) != []
    ensures var after := Apply(db, Remaining(db, d)[0]);
      && d in after.deenrollments && after.deenrollments[d].receipt == db.deenrollments[d].receipt
      && if |Remaining(db, d)| == 1 then Finished(after, d)
         else Finishable(after, d) && Remaining(after, d) == Remaining(db, d)[1..]
  {
    hide TargetOf;
    var e := db.deenrollments[d];
    var j := e.job.value;
    if db.household.snapshot == e.base {
      assert Remaining(db, d)[0] == PutHousehold(ByDeenrollment(d), HouseholdState(e.expected.value, db.household.bindings));
    } else if db.jobs[j].state == Verifying {
      assert Remaining(db, d) == [MoveJob(j, Succeeded, None), PutDeenrollment(d, e.(status := DApplied))];
    } else {
      assert Remaining(db, d) == [PutDeenrollment(d, e.(status := DApplied))];
    }
  }

  /** A finish that dies after `k` effects leaves exactly the others. */
  lemma {:induction false} CrashedFinishResumes(db: Db, d: DeenrollmentId, k: nat)
    requires Finishable(db, d) && k <= |Remaining(db, d)|
    ensures var after := Fold(db, Remaining(db, d)[..k]);
      && d in after.deenrollments && after.deenrollments[d].receipt == db.deenrollments[d].receipt
      && if k == |Remaining(db, d)| then Finished(after, d)
         else Finishable(after, d) && Remaining(after, d) == Remaining(db, d)[k..]
  {
    OneStep(db, d);
    hide Fold, Apply, Remaining, Finishable, Finished;
    var effects := Remaining(db, d);
    if k == 0 {
      FoldNothing(db);
      assert effects[..0] == [] && effects[0..] == effects;
    } else {
      CrashedFinishResumes(db, d, k - 1);
      var before := Fold(db, effects[..k - 1]);
      OneStep(before, d);
      FoldLast(db, effects, k);
    }
  }

  /** So repeated reconciliations, each dying anywhere, end as one that did not die: applied. */
  lemma ReconciliationsConverge(db: Db, d: DeenrollmentId, k: nat, actor: Actor, form: ExecuteForm, env: Surroundings)
    requires Finishable(db, d) && WellFormed(form, d) && k <= |Remaining(db, d)|
    ensures ReconcileScript(Fold(db, Remaining(db, d)[..k]), actor, form, env) ==
      Script(Remaining(db, d)[k..], Success(Unmanaged(db.deenrollments[d].receipt.value)))
  {
    CrashedFinishResumes(db, d, k);
    hide Fold, Remaining, Finishable, RebuildRefusal, Revalidation;
    if k < |Remaining(db, d)| {
      ReconcileFinishes(Fold(db, Remaining(db, d)[..k]), d, actor, form, env);
    }
  }

  // ----- an execution that dies -----------------------------------------------------------

  /** An execution the provider accepts and confirms, from its first effect to its stored verdict. */
  function UpToVerified(d: DeenrollmentId, e: Deenrollment, job: Job, j: JobId, result: ReadbackResult, now: Time): seq<Action> {
    var running := e.(status := DProviderRunning, job := Some(j));
    var verifying := running.(status := DVerifying);
    [ CreateJob(job),
      MoveJob(j, Running, None),
      PutDeenrollment(d, running),
      CallDeenroll(d, j),
      MoveJob(j, Verifying, Some(Noted)),
      PutDeenrollment(d, verifying),
      PutDeenrollment(d, verifying.(readback := Some(result), receipt := Some(CheckReceipt(j, None, now))))
    ]
  }

  /** The execution clears the flag. */
  predicate Succeeds(db: Db, actor: Actor, form: ExecuteForm, env: Surroundings) {
    && form.plan in db.deenrollments && db.deenrollments[form.plan].status == DConfirmed
    && ExecuteScript(db, actor, form, env).outcome.Success?
  }

  function ExecutionJob(actor: Actor, form: ExecuteForm): Job
    requires form.key.Some?
  {
    Job(DeenrollRequest(form.plan), actor, form.key.value, None, Preflight, None)
  }

  lemma FreshExecute(db: Db, actor: Actor, form: ExecuteForm, env: Surroundings)
    requires Succeeds(db, actor, form, env)
    ensures form.wellFormed && form.key.Some? && env.readback.ReadResult?
    ensures var e := db.deenrollments[form.plan];
      var first := UpToVerified(form.plan, e, ExecutionJob(actor, form), |db.jobs|, env.readback.result, env.now);
      && e.confirmedAt.Some? && RebuildRefusal(db, e).None?
      && db.household == HouseholdState(e.base, e.bindings)
      && (e.expected.None? ==> FlippedSnapshot(e.base, e.target.device, e.target.member, false).Success?)
      && ExecuteScript(db, actor, form, env) ==
           Then(first, ApplyScript(form.plan, first[6].drecord, |db.jobs|, db.household, Verifying))
  {
    hide TargetRefusal, ActorRefusal, DeenrollFailure;
  }

  function RecordAt(first: seq<Action>, was: Deenrollment, n: nat): Deenrollment
    requires |first| == 7 && first[2].PutDeenrollment? && first[5].PutDeenrollment? && first[6].PutDeenrollment?
  {
    if n < 3 then was else if n < 6 then first[2].drecord else if n < 7 then first[5].drecord else first[6].drecord
  }

  lemma {:induction false} StateUpToVerified(db: Db, d: DeenrollmentId, job: Job, result: ReadbackResult, now: Time, n: nat)
    requires d in db.deenrollments && 1 <= n <= 7
    ensures var e := db.deenrollments[d];
      var first := UpToVerified(d, e, job, |db.jobs|, result, now);
      var after := Fold(db, first[..n]);
      && after.household == db.household && after.verifications == db.verifications
      && d in after.deenrollments && after.deenrollments[d] == RecordAt(first, e, n)
      && |after.jobs| == |db.jobs| + 1
      && (forall i :: 0 <= i < |db.jobs| ==> after.jobs[i] == db.jobs[i])
      && after.jobs[|db.jobs|].request == job.request && after.jobs[|db.jobs|].SameKey(job)
      && (n >= 5 ==> after.jobs[|db.jobs|].state == Verifying)
  {
    hide Fold;
    var first := UpToVerified(d, db.deenrollments[d], job, |db.jobs|, result, now);
    FoldLast(db, first, n);
    if n == 1 {
      FoldNothing(db);
      assert first[..0] == [];
    } else {
      StateUpToVerified(db, d, job, result, now, n - 1);
    }
  }

  /** The stored expectation of such an execution. */
  function PendingOf(first: seq<Action>, expected: Snapshot): Deenrollment
    requires |first| == 7 && first[6].PutDeenrollment?
  {
    first[6].drecord.(status := DPendingApply, expected := Some(expected))
  }

  /** With no expectation left over, the execution makes eleven effects; the eighth stores it. */
  lemma ExecuteShape(db: Db, actor: Actor, form: ExecuteForm, env: Surroundings)
    requires Succeeds(db, actor, form, env) && db.deenrollments[form.plan].expected.None?
    ensures form.key.Some? && env.readback.ReadResult?
    ensures var d, e := form.plan, db.deenrollments[form.plan];
      var first := UpToVerified(d, e, ExecutionJob(actor, form), |db.jobs|, env.readback.result, env.now);
      var flipped := FlippedSnapshot(e.base, e.target.device, e.target.member, false);
      && flipped.Success? && flipped.value != e.base
      && var pending := PendingOf(first, flipped.value);
      && |WriteScript(d, pending, |db.jobs|, db.household, Verifying).effects| == 3
      && ExecuteScript(db, actor, form, env).effects ==
           (first + [PutDeenrollment(d, pending)]) + WriteScript(d, pending, |db.jobs|, db.household, Verifying).effects
      && ExecuteScript(db, actor, form, env).outcome == Success(Unmanaged(pending.receipt.value))
  {
    FreshExecute(db, actor, form, env);
    var e := db.deenrollments[form.plan];
    FlippedIsNew(e.base, e.target.device, e.target.member);
    hide ExecuteScript, FlippedSnapshot, RebuildRefusal;
  }

  /** An execution that dies before its expectation is stored is out of reach of reconciliation;
      from then on every reconciliation, by anyone, finishes it with the effects that were left. */
  lemma ReconcileAfterCrash(db: Db, actor: Actor, form: ExecuteForm, env: Surroundings, n: nat,
                            later: Actor, again: ExecuteForm, met: Surroundings)
    requires Succeeds(db, actor, form, env) && db.deenrollments[form.plan].expected.None?
    requires 1 <= n <= |ExecuteScript(db, actor, form, env).effects| && WellFormed(again, form.plan)
    ensures |ExecuteScript(db, actor, form, env).effects| == 11
    ensures var script := ExecuteScript(db, actor, form, env);
      var reconciled := ReconcileScript(Fold(db, script.effects[..n]), later, again, met);
      reconciled == if n < 8 then Refuse(ReconciliationNotRequired) else Script(script.effects[n..], script.outcome)
  {
    FreshExecute(db, actor, form, env);
    ExecuteShape(db, actor, form, env);
    hide Fold, ExecuteScript, FlippedSnapshot, ReconcileScript, WriteScript, ApplyScript, PendingOf, RebuildRefusal;
    var d, e, job := form.plan, db.deenrollments[form.plan], ExecutionJob(actor, form);
    var first := UpToVerified(d, e, job, |db.jobs|, env.readback.result, env.now);
    var effects := ExecuteScript(db, actor, form, env).effects;
    if n < 8 {
      assert effects[..n] == first[..n];
      EarlyCrash(db, d, job, env.readback.result, env.now, n, later, again, met);
    } else {
      var expected := FlippedSnapshot(e.base, e.target.device, e.target.member, false).value;
      var stored := first + [PutDeenrollment(d, PendingOf(first, expected))];
      var rest := effects[8..];
      assert effects == stored + rest;
      LateCrash(db, d, job, env.readback.result, env.now, expected, n - 8, later, again, met);
      assert (stored + rest)[..8 + (n - 8)] == effects[..n] && rest[n - 8..] == effects[n..];
    }
  }

  lemma EarlyCrash(db: Db, d: DeenrollmentId, job: Job, result: ReadbackResult, now: Time, n: nat,
                   later: Actor, again: ExecuteForm, met: Surroundings)
    requires d in db.deenrollments && db.deenrollments[d].confirmedAt.Some? && db.deenrollments[d].status == DConfirmed
    requires RebuildRefusal(db, db.deenrollments[d]).None? && WellFormed(again, d) && 1 <= n <= 7
    ensures var first := UpToVerified(d, db.deenrollments[d], job, |db.jobs|, result, now);
      ReconcileScript(Fold(db, first[..n]), later, again, met) == Refuse(ReconciliationNotRequired)
  {
    StateUpToVerified(db, d, job, result, now, n);
    hide Fold, ReconcileScript;
    NotRequired(Fold(db, UpToVerified(d, db.deenrollments[d], job, |db.jobs|, result, now)[..n]), d, later, again, met);
  }

  lemma LateCrash(db: Db, d: DeenrollmentId, job: Job, result: ReadbackResult, now: Time, expected: Snapshot, k: nat,
                  later: Actor, again: ExecuteForm, met: Surroundings)
    requires d in db.deenrollments && db.deenrollments[d].confirmedAt.Some? && RebuildRefusal(db, db.deenrollments[d]).None?
    requires db.household.snapshot == db.deenrollments[d].base && expected != db.deenrollments[d].base && WellFormed(again, d)
    requires var first := UpToVerified(d, db.deenrollments[d], job, |db.jobs|, result, now);
      k <= |WriteScript(d, PendingOf(first, expected), |db.jobs|, db.household, Verifying).effects|
    ensures var first := UpToVerified(d, db.deenrollments[d], job, |db.jobs|, result, now);
      var stored := first + [PutDeenrollment(d, PendingOf(first, expected))];
      var rest := WriteScript(d, PendingOf(first, expected), |db.jobs|, db.household, Verifying).effects;
      ReconcileScript(Fold(db, (stored + rest)[..8 + k]), later, again, met)
        == Script(rest[k..], Success(Unmanaged(PendingOf(first, expected).receipt.value)))
  {
    var first := UpToVerified(d, db.deenrollments[d], job, |db.jobs|, result, now);
    var stored := first + [PutDeenrollment(d, PendingOf(first, expected))];
    var rest := WriteScript(d, PendingOf(first, expected), |db.jobs|, db.household, Verifying).effects;
    StoredIsFinishable(db, d, job, result, now, expected);
    hide Fold, ReconcileScript, WriteScript, Remaining, Finishable, RebuildRefusal;
    FinishFrom(db, d, stored, k, later, again, met);
  }

  lemma FlippedIsNew(base: Snapshot, device: DeviceId, member: MemberId)
    ensures FlippedSnapshot(base, device, member, false).Success? ==>
      FlippedSnapshot(base, device, member, false).value.generation == base.generation + 1
  {
  }

  lemma NotRequired(db: Db, d: DeenrollmentId, actor: Actor, form: ExecuteForm, env: Surroundings)
    requires d in db.deenrollments && WellFormed(form, d)
    requires var e := db.deenrollments[d];
      RebuildRefusal(db, e).None? && e.confirmedAt.Some? && e.status in {DConfirmed, DProviderRunning, DVerifying, DProviderRejected}
    ensures ReconcileScript(db, actor, form, env) == Refuse(ReconciliationNotRequired)
  {
    hide RebuildRefusal, Revalidation;
  }

  lemma StoredIsFinishable(db: Db, d: DeenrollmentId, job: Job, result: ReadbackResult, now: Time, expected: Snapshot)
    requires d in db.deenrollments && db.deenrollments[d].confirmedAt.Some? && RebuildRefusal(db, db.deenrollments[d]).None?
    requires db.household.snapshot == db.deenrollments[d].base && expected != db.deenrollments[d].base
    ensures var first := UpToVerified(d, db.deenrollments[d], job, |db.jobs|, result, now);
      var stored := Fold(db, first + [PutDeenrollment(d, PendingOf(first, expected))]);
      && Finishable(stored, d)
      && Remaining(stored, d) == WriteScript(d, PendingOf(first, expected), |db.jobs|, db.household, Verifying).effects
      && stored.deenrollments[d].receipt == PendingOf(first, expected).receipt
  {
    hide Fold, TargetOf, RebuildRefusal, WriteScript, Finishable, Remaining;
    var first := UpToVerified(d, db.deenrollments[d], job, |db.jobs|, result, now);
    var pending := PendingOf(first, expected);
    StateUpToVerified(db, d, job, result, now, 7);
    FoldSnoc(db, first, PutDeenrollment(d, pending));
    assert first == first[..7];
    PendingFinishable(db, Fold(db, first + [PutDeenrollment(d, pending)]), d, |db.jobs|);
  }

  lemma PendingFinishable(db: Db, after: Db, d: DeenrollmentId, j: JobId)
    requires d in db.deenrollments && d in after.deenrollments
    requires after.verifications == db.verifications && after.household == db.household
    requires var was, e := db.deenrollments[d], after.deenrollments[d];
      && was.confirmedAt.Some? && RebuildRefusal(db, was).None? && db.household.snapshot == was.base
      && e.expected.Some? && e.expected.value != was.base && e.receipt.Some?
      && e == was.(status := DPendingApply, job := Some(j), readback := e.readback, receipt := e.receipt, expected := e.expected)
    requires j < |after.jobs| && after.jobs[j].state == Verifying
    ensures Finishable(after, d)
    ensures Remaining(after, d) == WriteScript(d, after.deenrollments[d], j, db.household, Verifying).effects
  {
    hide WriteScript;
  }

  // ----- an execution that does not clear the flag ----------------------------------------

  /** The execution reaches the provider and ends rejected, ambiguous, without a usable read-back, with
      one that does not confirm, or without an expectation. */
  predicate Fails(db: Db, actor: Actor, form: ExecuteForm, env: Surroundings) {
    && form.plan in db.deenrollments && db.deenrollments[form.plan].status == DConfirmed
    && ExecuteScript(db, actor, form, env).effects != [] && ExecuteScript(db, actor, form, env).outcome.Failure?
  }

  lemma Attempt(db: Db, actor: Actor, form: ExecuteForm, env: Surroundings)
    requires Fails(db, actor, form, env)
    ensures form.wellFormed && form.key.Some? && db.deenrollments[form.plan].target.provider in env.adapters
    ensures var e := db.deenrollments[form.plan];
      && e.confirmedAt.Some? && RebuildRefusal(db, e).None? && Revalidation(db, actor, e).None?
      && db.household.snapshot == e.base
      && ExecuteScript(db, actor, form, env) ==
           Then([CreateJob(ExecutionJob(actor, form))], MutateScript(form.plan, e, |db.jobs|, db.household, env))
  {
    hide TargetRefusal, ActorRefusal, MutateScript, FindKey;
  }

  const NO_RESULT := ReadbackResult(0, 0, 0, 0, 0, 0, ProviderUnknown)

  /** What all these executions begin with: up to the provider's answer, or up to its acceptance. */
  function Beginning(d: DeenrollmentId, e: Deenrollment, job: Job, j: JobId, accepted: bool): (r: seq<Action>)
    ensures |r| == if accepted then 6 else 4
  {
    UpToVerified(d, e, job, j, NO_RESULT, 0)[..if accepted then 6 else 4]
  }

  /** The status such an execution leaves the envelope in after `n` of its effects. */
  function StatusAfter(mutation: MutationAnswer, n: nat): DeenrollmentStatus {
    if n < 3 then DConfirmed
    else if n < 6 then DProviderRunning
    else match mutation
      case MutationAccepted => if n < 8 then DVerifying else DReconcileRequired
      case MutationRejected => DProviderRejected
      case _ => DReconcileRequired
  }

  lemma FailedShape(db: Db, actor: Actor, form: ExecuteForm, env: Surroundings)
    requires Fails(db, actor, form, env)
    ensures form.key.Some?
    ensures var d, e, j := form.plan, db.deenrollments[form.plan], |db.jobs|;
      var effects := ExecuteScript(db, actor, form, env).effects;
      var first := Beginning(d, e, ExecutionJob(actor, form), j, env.mutation.MutationAccepted?);
      && |first| < |effects| <= |first| + 2 && first <= effects && (|effects| == |first| + 1 ==> env.mutation.MutationAccepted?)
      && (|effects| == |first| + 2 ==> effects[|first|] == MoveJob(j, Failed, Some(Noted)))
      && var last := effects[|effects| - 1];
      && last.PutDeenrollment? && last.deenrollment == d && last.drecord.status == StatusAfter(env.mutation, |effects|)
      && last.drecord.verification == e.verification && last.drecord.target == e.target && last.drecord.confirmedAt == e.confirmedAt
  {
    Attempt(db, actor, form, env);
    var d, e, j := form.plan, db.deenrollments[form.plan], |db.jobs|;
    hide ExecuteScript, RebuildRefusal, Revalidation, DeenrollFailure, FlippedSnapshot;
    var script := MutateScript(d, e, j, db.household, env);
    assert script.outcome.Failure?;
    MutationFails(d, e, j, db.household, env, ExecutionJob(actor, form));
  }

  lemma MutationFails(d: DeenrollmentId, e: Deenrollment, j: JobId, household: HouseholdState, env: Surroundings, job: Job)
    requires MutateScript(d, e, j, household, env).outcome.Failure? && household.snapshot == e.base
    ensures var effects := [CreateJob(job)] + MutateScript(d, e, j, household, env).effects;
      var first := Beginning(d, e, job, j, env.mutation.MutationAccepted?);
      && |first| < |effects| <= |first| + 2 && first <= effects && (|effects| == |first| + 1 ==> env.mutation.MutationAccepted?)
      && (|effects| == |first| + 2 ==> effects[|first|] == MoveJob(j, Failed, Some(Noted)))
      && var last := effects[|effects| - 1];
      && last.PutDeenrollment? && last.deenrollment == d && last.drecord.status == StatusAfter(env.mutation, |effects|)
      && last.drecord.verification == e.verification && last.drecord.target == e.target && last.drecord.confirmedAt == e.confirmedAt
  {
    hide DeenrollFailure, FlippedSnapshot;
  }

  /** What is stored after `n` effects of such an execution, as far as later requests read it. */
  predicate Left(db: Db, after: Db, d: DeenrollmentId, job: Job, status: DeenrollmentStatus)
    requires d in db.deenrollments
  {
    && after.household == db.household && after.verifications == db.verifications
    && d in after.deenrollments
    && var was, e := db.deenrollments[d], after.deenrollments[d];
    && e.status == status && e.verification == was.verification && e.target == was.target && e.confirmedAt == was.confirmedAt
    && (status == DConfirmed ==> e == was)
    && |after.jobs| == |db.jobs| + 1
    && after.jobs[|db.jobs|].request == job.request && after.jobs[|db.jobs|].SameKey(job)
  }

  lemma LeftUpToVerified(db: Db, d: DeenrollmentId, job: Job, n: nat)
    requires d in db.deenrollments && db.deenrollments[d].status == DConfirmed && 1 <= n <= 6
    ensures Left(db, Fold(db, UpToVerified(d, db.deenrollments[d], job, |db.jobs|, NO_RESULT, 0)[..n]), d, job,
                 if n < 3 then DConfirmed else if n < 6 then DProviderRunning else DVerifying)
  {
    StateUpToVerified(db, d, job, NO_RESULT, 0, n);
    hide Fold;
  }

  lemma LeftAtFirst(db: Db, d: DeenrollmentId, job: Job, accepted: bool, n: nat)
    requires d in db.deenrollments && db.deenrollments[d].status == DConfirmed && 1 <= n <= if accepted then 6 else 4
    ensures var first := Beginning(d, db.deenrollments[d], job, |db.jobs|, accepted);
      Left(db, Fold(db, first[..n]), d, job, if n < 3 then DConfirmed else if n < 6 then DProviderRunning else DVerifying)
  {
    LeftUpToVerified(db, d, job, n);
    var whole := UpToVerified(d, db.deenrollments[d], job, |db.jobs|, NO_RESULT, 0);
    assert |whole| == 7;
    hide Fold, Left, UpToVerified;
    assert whole[..if accepted then 6 else 4][..n] == whole[..n];
  }

  lemma LeftAfterMove(db: Db, after: Db, d: DeenrollmentId, job: Job, status: DeenrollmentStatus, to: JobState)
    requires d in db.deenrollments && Left(db, after, d, job, status)
    ensures Left(db, Apply(after, MoveJob(|db.jobs|, to, Some(Noted))), d, job, status)
  {
  }

  lemma LeftAfterPut(db: Db, after: Db, d: DeenrollmentId, job: Job, status: DeenrollmentStatus, e: Deenrollment)
    requires d in db.deenrollments && Left(db, after, d, job, status) && e.status != DConfirmed
    requires var was := db.deenrollments[d];
      e.verification == was.verification && e.target == was.target && e.confirmedAt == was.confirmedAt
    ensures Left(db, Apply(after, PutDeenrollment(d, e)), d, job, e.status)
  {
  }

  /** The last effects store one more record, perhaps after the job has failed. */
  lemma LeftAtLast(db: Db, effects: seq<Action>, m: nat, n: nat, d: DeenrollmentId, job: Job, status: DeenrollmentStatus)
    requires d in db.deenrollments && m < n <= |effects| <= m + 2 && Left(db, Fold(db, effects[..m]), d, job, status)
    requires |effects| == m + 2 ==> effects[m] == MoveJob(|db.jobs|, Failed, Some(Noted))
    requires var last, was := effects[|effects| - 1], db.deenrollments[d];
      && last.PutDeenrollment? && last.deenrollment == d && last.drecord.status != DConfirmed
      && last.drecord.verification == was.verification && last.drecord.target == was.target && last.drecord.confirmedAt == was.confirmedAt
    ensures Left(db, Fold(db, effects[..n]), d, job, if n == |effects| then effects[n - 1].drecord.status else status)
  {
    hide Fold, Apply, Left;
    FoldLast(db, effects, m + 1);
    if |effects| == m + 1 {
      LeftAfterPut(db, Fold(db, effects[..m]), d, job, status, effects[m].drecord);
    } else {
      LeftAfterMove(db, Fold(db, effects[..m]), d, job, status, Failed);
      if n == m + 2 {
        FoldLast(db, effects, m + 2);
        LeftAfterPut(db, Fold(db, effects[..m + 1]), d, job, status, effects[m + 1].drecord);
      }
    }
  }

  lemma LeftBehind(db: Db, actor: Actor, form: ExecuteForm, env: Surroundings, n: nat)
    requires Fails(db, actor, form, env) && 1 <= n <= |ExecuteScript(db, actor, form, env).effects|
    ensures form.key.Some?
    ensures Left(db, Fold(db, ExecuteScript(db, actor, form, env).effects[..n]), form.plan, ExecutionJob(actor, form), StatusAfter(env.mutation, n))
  {
    FailedShape(db, actor, form, env);
    var d, e, j, job := form.plan, db.deenrollments[form.plan], |db.jobs|, ExecutionJob(actor, form);
    var effects := ExecuteScript(db, actor, form, env).effects;
    var accepted := env.mutation.MutationAccepted?;
    var first := Beginning(d, e, job, j, accepted);
    hide Fold, Apply, ExecuteScript, Beginning, Left;
    if n <= |first| {
      LeftAtFirst(db, d, job, accepted, n);
      assert effects[..n] == first[..n];
    } else {
      LeftAtFirst(db, d, job, accepted, |first|);
      assert first[..|first|] == effects[..|first|];
      LeftAtLast(db, effects, |first|, n, d, job, if accepted then DVerifying else DProviderRunning);
    }
  }

  /** For a crash behind each effect of an execution that does not clear the flag: reconciliation is
      refused unless the very last effect stored that it is required; and the same execution is refused,
      for want of a reconciliation while the plan is still confirmed or when it is required, and for
      want of a new confirmation in between. */
  lemma FailedExecutionAfterCrash(db: Db, actor: Actor, form: ExecuteForm, env: Surroundings, n: nat,
                                  later: Actor, again: ExecuteForm, met: Surroundings)
    requires Fails(db, actor, form, env)
    requires 1 <= n <= |ExecuteScript(db, actor, form, env).effects| && WellFormed(again, form.plan)
    ensures var after := Fold(db, ExecuteScript(db, actor, form, env).effects[..n]);
      var status := StatusAfter(env.mutation, n);
      && form.plan in after.deenrollments && after.deenrollments[form.plan].status == status
      && (status != DReconcileRequired ==> ReconcileScript(after, later, again, met) == Refuse(ReconciliationNotRequired))
      && ExecuteScript(after, actor, form, env)
           == Refuse(if status == DConfirmed || status == DReconcileRequired then ReconciliationRequired else ConfirmationRequired)
  {
    Attempt(db, actor, form, env);
    LeftBehind(db, actor, form, env, n);
    var after := Fold(db, ExecuteScript(db, actor, form, env).effects[..n]);
    hide Fold, RebuildRefusal, Revalidation, MutateScript, ReconcileScript;
    LeftRefuses(db, after, actor, form, env, StatusAfter(env.mutation, n), later, again, met);
  }

  lemma LeftRefuses(db: Db, after: Db, actor: Actor, form: ExecuteForm, env: Surroundings, status: DeenrollmentStatus,
                    later: Actor, again: ExecuteForm, met: Surroundings)
    requires form.plan in db.deenrollments && form.wellFormed && form.key.Some? && WellFormed(again, form.plan)
    requires Left(db, after, form.plan, ExecutionJob(actor, form), status)
    requires status in {DConfirmed, DProviderRunning, DVerifying, DProviderRejected, DReconcileRequired}
    requires var e := db.deenrollments[form.plan];
      && e.confirmedAt.Some? && RebuildRefusal(db, e).None? && Revalidation(db, actor, e).None? && e.target.provider in env.adapters
    ensures status != DReconcileRequired ==> ReconcileScript(after, later, again, met) == Refuse(ReconciliationNotRequired)
    ensures ExecuteScript(after, actor, form, env)
      == Refuse(if status == DConfirmed || status == DReconcileRequired then ReconciliationRequired else ConfirmationRequired)
  {
    var e := db.deenrollments[form.plan];
    SameRebuild(db, after, e, after.deenrollments[form.plan]);
    if status == DConfirmed {
      SameRefusals(db, after, actor, e);
      assert FindKey(after.jobs, ExecutionJob(actor, form)) == Some(|db.jobs|);
    }
    if status != DReconcileRequired {
      NotRequired(after, form.plan, later, again, met);
    }
    hide RebuildRefusal, Revalidation, ReconcileScript, MutateScript, FindKey;
  }

  // ----- a reconciliation that dies -------------------------------------------------------

  /** A reconciliation whose read-back clears the flag, from its first effect to the envelope that is
      marked as pending. */
  function UpToPending(d: DeenrollmentId, e: Deenrollment, job: Job, j: JobId, result: ReadbackResult, now: Time): seq<Action> {
    [ CreateJob(job),
      MoveJob(j, Running, None),
      MoveJob(j, Verifying, Some(Noted)),
      PutDeenrollment(d, Reconciled(e, j, result, now))
    ]
  }

  function Reconciled(e: Deenrollment, j: JobId, result: ReadbackResult, now: Time): Deenrollment {
    e.(status := DPendingApply, job := Some(j), readback := Some(result), receipt := Some(CheckReceipt(j, None, now)))
  }

  /** The reconciliation reads the provider and clears the flag. */
  predicate Clears(db: Db, actor: Actor, form: ExecuteForm, env: Surroundings) {
    && form.plan in db.deenrollments && db.deenrollments[form.plan].status == DReconcileRequired
    && ReconcileScript(db, actor, form, env).outcome.Success? && ReconcileScript(db, actor, form, env).outcome.value.Unmanaged?
  }

  function ReconciliationJob(actor: Actor, form: ExecuteForm): Job
    requires form.key.Some?
  {
    Job(ReconcileRequest(form.plan), actor, form.key.value, None, Preflight, None)
  }

  lemma FreshReconcile(db: Db, actor: Actor, form: ExecuteForm, env: Surroundings)
    requires Clears(db, actor, form, env)
    ensures form.wellFormed && form.key.Some? && env.readback.ReadResult?
    ensures var d, e, j := form.plan, db.deenrollments[form.plan], |db.jobs|;
      && e.confirmedAt.Some? && RebuildRefusal(db, e).None? && Revalidation(db, actor, e).None?
      && db.household.snapshot == e.base && e.target.provider in env.adapters
      && (e.expected.None? ==> FlippedSnapshot(e.base, e.target.device, e.target.member, false).Success?)
      && ReconcileScript(db, actor, form, env) ==
           Then(UpToPending(d, e, ReconciliationJob(actor, form), j, env.readback.result, env.now),
                ApplyScript(d, Reconciled(e, j, env.readback.result, env.now), j, db.household, Verifying))
  {
    hide TargetRefusal, ActorRefusal, DeenrollFailure, CarriedReceipt;
  }

  lemma StateUpToPending(db: Db, d: DeenrollmentId, job: Job, result: ReadbackResult, now: Time, n: nat)
    requires d in db.deenrollments && 1 <= n <= 4 && job.state == Preflight
    ensures var e := db.deenrollments[d];
      var after := Fold(db, UpToPending(d, e, job, |db.jobs|, result, now)[..n]);
      && after.household == db.household && after.verifications == db.verifications
      && d in after.deenrollments && after.deenrollments[d] == (if n < 4 then e else Reconciled(e, |db.jobs|, result, now))
      && |after.jobs| == |db.jobs| + 1 && after.jobs[..|db.jobs|] == db.jobs
      && after.jobs[|db.jobs|].request == job.request && after.jobs[|db.jobs|].SameKey(job)
      && after.jobs[|db.jobs|].state == (if n == 1 then Preflight else if n == 2 then Running else Verifying)
  {
    hide Fold;
    var effects := UpToPending(d, db.deenrollments[d], job, |db.jobs|, result, now);
    FoldLast(db, effects, n);
    if n == 1 {
      FoldNothing(db);
      assert effects[..0] == [];
    } else {
      StateUpToPending(db, d, job, result, now, n - 1);
    }
  }

  /** The pending envelope with the stored expectation. */
  function Expecting(e: Deenrollment, j: JobId, result: ReadbackResult, now: Time, expected: Snapshot): Deenrollment {
    Reconciled(e, j, result, now).(expected := Some(expected))
  }

  /** Without an expectation left over, the reconciliation makes eight effects; the fourth marks the
      envelope as pending and the fifth stores the expectation. */
  lemma ReconcileShape(db: Db, actor: Actor, form: ExecuteForm, env: Surroundings)
    requires Clears(db, actor, form, env)
    ensures form.key.Some? && env.readback.ReadResult?
    ensures var d, e, j := form.plan, db.deenrollments[form.plan], |db.jobs|;
      var expected := if e.expected.Some? then e.expected else Some(FlippedSnapshot(e.base, e.target.device, e.target.member, false).value);
      var pending := Expecting(e, j, env.readback.result, env.now, expected.value);
      var rest := WriteScript(d, pending, j, db.household, Verifying);
      && |rest.effects| == 3
      && ReconcileScript(db, actor, form, env) == Script(
           UpToPending(d, e, ReconciliationJob(actor, form), j, env.readback.result, env.now)
             + (if e.expected.Some? then [] else [PutDeenrollment(d, pending)]) + rest.effects, rest.outcome)
  {
    FreshReconcile(db, actor, form, env);
    hide ReconcileScript, FlippedSnapshot, RebuildRefusal, Revalidation, UpToPending;
  }

  /** In every run a stored expectation is not the base. */
  lemma ExpectationIsNew(init: Db, db: Db, d: DeenrollmentId)
    requires Run(init, db) && d in db.deenrollments && db.deenrollments[d].expected.Some?
    ensures db.deenrollments[d].expected.value.generation == db.deenrollments[d].base.generation + 1
  {
    Flips.Holds(init, db.log);
    hide Legal, Fold;
    assert Flips.DeenrollmentSound(db.log, d, db.deenrollments[d]);
  }

  /** For a crash behind each effect of a reconciliation that clears the flag: before the envelope is
      marked as pending, it is as it was, and the same request meets its own job; once the expectation
      is stored, anyone's reconciliation continues with exactly the effects that were left; and
      between the two, unless an expectation was left over, every reconciliation refuses. */
  lemma ReconciliationAfterCrash(init: Db, db: Db, actor: Actor, form: ExecuteForm, env: Surroundings, n: nat,
                                 later: Actor, again: ExecuteForm, met: Surroundings)
    requires Run(init, db) && Clears(db, actor, form, env)
    requires 1 <= n <= |ReconcileScript(db, actor, form, env).effects| && WellFormed(again, form.plan)
    ensures var script := ReconcileScript(db, actor, form, env); var after := Fold(db, script.effects[..n]);
      if n <= 3 then
        && form.plan in after.deenrollments && after.deenrollments[form.plan] == db.deenrollments[form.plan]
        && ReconcileScript(after, actor, form, env) == Refuse(InProgress)
      else
        ReconcileScript(after, later, again, met) ==
          if n == 4 && db.deenrollments[form.plan].expected.None? then Refuse(StateInvalid)
          else Script(script.effects[n..], script.outcome)
  {
    assert form.plan in db.deenrollments;
    hide Run, Fold, ReconcileScript, Clears;
    if n <= 3 {
      DiesEarly(db, actor, form, env, n);
    } else if n == 4 && db.deenrollments[form.plan].expected.None? {
      DiesUnexpected(db, actor, form, env, later, again, met);
    } else {
      if db.deenrollments[form.plan].expected.Some? {
        ExpectationIsNew(init, db, form.plan);
      }
      AfterPending(db, actor, form, env, n, later, again, met);
    }
  }

  /** The first four effects are those up to the pending envelope. */
  lemma FirstFour(db: Db, actor: Actor, form: ExecuteForm, env: Surroundings, n: nat)
    requires Clears(db, actor, form, env) && n <= 4
    ensures form.key.Some? && env.readback.ReadResult? && n <= |ReconcileScript(db, actor, form, env).effects|
    ensures ReconcileScript(db, actor, form, env).effects[..n] ==
      UpToPending(form.plan, db.deenrollments[form.plan], ReconciliationJob(actor, form), |db.jobs|, env.readback.result, env.now)[..n]
  {
    FreshReconcile(db, actor, form, env);
    hide ReconcileScript, ApplyScript, RebuildRefusal, Revalidation;
  }

  lemma DiesEarly(db: Db, actor: Actor, form: ExecuteForm, env: Surroundings, n: nat)
    requires Clears(db, actor, form, env) && 1 <= n <= 3
    ensures n <= |ReconcileScript(db, actor, form, env).effects|
    ensures var after := Fold(db, ReconcileScript(db, actor, form, env).effects[..n]);
      && form.plan in after.deenrollments && after.deenrollments[form.plan] == db.deenrollments[form.plan]
      && ReconcileScript(after, actor, form, env) == Refuse(InProgress)
  {
    FirstFour(db, actor, form, env, n);
    FreshReconcile(db, actor, form, env);
    hide Fold, ReconcileScript, ApplyScript, UpToPending, RebuildRefusal, Revalidation;
    BeforePending(db, actor, form, env, ReconciliationJob(actor, form), n);
  }

  lemma DiesUnexpected(db: Db, actor: Actor, form: ExecuteForm, env: Surroundings, later: Actor, again: ExecuteForm, met: Surroundings)
    requires Clears(db, actor, form, env) && WellFormed(again, form.plan) && db.deenrollments[form.plan].expected.None?
    ensures 4 <= |ReconcileScript(db, actor, form, env).effects|
    ensures ReconcileScript(Fold(db, ReconcileScript(db, actor, form, env).effects[..4]), later, again, met) == Refuse(StateInvalid)
  {
    FirstFour(db, actor, form, env, 4);
    FreshReconcile(db, actor, form, env);
    hide Fold, ReconcileScript, ApplyScript, UpToPending, RebuildRefusal, Revalidation;
    Unexpected(db, form.plan, ReconciliationJob(actor, form), env.readback.result, env.now, later, again, met);
  }

  lemma AfterPending(db: Db, actor: Actor, form: ExecuteForm, env: Surroundings, n: nat,
                     later: Actor, again: ExecuteForm, met: Surroundings)
    requires Clears(db, actor, form, env) && WellFormed(again, form.plan)
    requires db.deenrollments[form.plan].expected != Some(db.deenrollments[form.plan].base)
    requires (if db.deenrollments[form.plan].expected.Some? then 4 else 5) <= n <= |ReconcileScript(db, actor, form, env).effects|
    ensures var script := ReconcileScript(db, actor, form, env);
      ReconcileScript(Fold(db, script.effects[..n]), later, again, met) == Script(script.effects[n..], script.outcome)
  {
    FreshReconcile(db, actor, form, env);
    ReconcileShape(db, actor, form, env);
    var d, e, job, j := form.plan, db.deenrollments[form.plan], ReconciliationJob(actor, form), |db.jobs|;
    var result, now := env.readback.result, env.now;
    FlippedIsNew(e.base, e.target.device, e.target.member);
    hide Fold, ReconcileScript, FlippedSnapshot, WriteScript, ApplyScript, Expecting, RebuildRefusal, Revalidation;
    var first := UpToPending(d, e, job, j, result, now);
    var effects := ReconcileScript(db, actor, form, env).effects;
    var expected := if e.expected.Some? then e.expected.value else FlippedSnapshot(e.base, e.target.device, e.target.member, false).value;
    var stored := first + if e.expected.Some? then [] else [PutDeenrollment(d, Expecting(e, j, result, now, expected))];
    ExpectationStored(db, d, job, result, now, expected);
    FinishFrom(db, d, stored, n - |stored|, later, again, met);
    assert effects[..n] == (stored + effects[|stored|..])[..n] && effects[|stored|..][n - |stored|..] == effects[n..];
  }

  lemma BeforePending(db: Db, actor: Actor, form: ExecuteForm, env: Surroundings, job: Job, n: nat)
    requires form.wellFormed && form.key.Some? && job == ReconciliationJob(actor, form) && 1 <= n <= 3
    requires form.plan in db.deenrollments && env.readback.ReadResult?
    requires var e := db.deenrollments[form.plan];
      && e.status == DReconcileRequired && e.confirmedAt.Some? && RebuildRefusal(db, e).None? && Revalidation(db, actor, e).None?
      && e.target.provider in env.adapters
    ensures var d := form.plan;
      var after := Fold(db, UpToPending(d, db.deenrollments[d], job, |db.jobs|, env.readback.result, env.now)[..n]);
      && d in after.deenrollments && after.deenrollments[d] == db.deenrollments[d]
      && ReconcileScript(after, actor, form, env) == Refuse(InProgress)
  {
    var d := form.plan;
    StateUpToPending(db, d, job, env.readback.result, env.now, n);
    hide Fold, UpToPending, TargetRefusal, ActorRefusal, CarriedReceipt;
    var after := Fold(db, UpToPending(d, db.deenrollments[d], job, |db.jobs|, env.readback.result, env.now)[..n]);
    assert FindKey(after.jobs, job) == Some(|db.jobs|);
    SameRefusals(db, after, actor, db.deenrollments[d]);
    hide RebuildRefusal, Revalidation, FindKey;
  }

  lemma SameRefusals(db: Db, after: Db, actor: Actor, e: Deenrollment)
    requires after.household == db.household && after.verifications == db.verifications
    ensures RebuildRefusal(after, e) == RebuildRefusal(db, e) && Revalidation(after, actor, e) == Revalidation(db, actor, e)
  {
  }

  lemma Unexpected(db: Db, d: DeenrollmentId, job: Job, result: ReadbackResult, now: Time, later: Actor, again: ExecuteForm, met: Surroundings)
    requires d in db.deenrollments && job.state == Preflight && WellFormed(again, d)
    requires var e := db.deenrollments[d]; e.confirmedAt.Some? && RebuildRefusal(db, e).None? && e.expected.None?
    ensures ReconcileScript(Fold(db, UpToPending(d, db.deenrollments[d], job, |db.jobs|, result, now)[..4]), later, again, met)
      == Refuse(StateInvalid)
  {
    var e := db.deenrollments[d];
    StateUpToPending(db, d, job, result, now, 4);
    var after := Fold(db, UpToPending(d, e, job, |db.jobs|, result, now)[..4]);
    SameRebuild(db, after, e, after.deenrollments[d]);
    hide Fold, UpToPending, ReconcileScript, RebuildRefusal;
    PendingFinishedIff(after, d, later, again, met);
  }

  lemma SameRebuild(db: Db, after: Db, e: Deenrollment, f: Deenrollment)
    requires after.verifications == db.verifications && f.verification == e.verification && f.target == e.target
    ensures RebuildRefusal(after, f) == RebuildRefusal(db, e)
  {
  }

  lemma ExpectationStored(db: Db, d: DeenrollmentId, job: Job, result: ReadbackResult, now: Time, expected: Snapshot)
    requires d in db.deenrollments && db.deenrollments[d].confirmedAt.Some? && RebuildRefusal(db, db.deenrollments[d]).None?
    requires db.household.snapshot == db.deenrollments[d].base && expected != db.deenrollments[d].base && job.state == Preflight
    requires db.deenrollments[d].expected.Some? ==> db.deenrollments[d].expected.value == expected
    ensures var e, j := db.deenrollments[d], |db.jobs|;
      var pending := Expecting(e, j, result, now, expected);
      var stored := Fold(db, UpToPending(d, e, job, j, result, now) + if e.expected.Some? then [] else [PutDeenrollment(d, pending)]);
      && Finishable(stored, d) && stored.deenrollments[d].receipt == pending.receipt
      && Remaining(stored, d) == WriteScript(d, pending, j, db.household, Verifying).effects
  {
    var e, j := db.deenrollments[d], |db.jobs|;
    var first, put := UpToPending(d, e, job, j, result, now), PutDeenrollment(d, Expecting(e, j, result, now, expected));
    StateUpToPending(db, d, job, result, now, 4);
    assert first[..4] == first && first + [] == first;
    hide Fold, UpToPending, RebuildRefusal, WriteScript, Finishable, Remaining;
    if e.expected.None? {
      FoldSnoc(db, first, put);
      PendingFinishable(db, Fold(db, first + [put]), d, j);
    } else {
      PendingFinishable(db, Fold(db, first), d, j);
    }
  }

  /** A finish that dies behind `k` of its effects, seen from the state in which the operation began. */
  lemma FinishFrom(db: Db, d: DeenrollmentId, stored: seq<Action>, k: nat, later: Actor, again: ExecuteForm, met: Surroundings)
    requires Finishable(Fold(db, stored), d) && WellFormed(again, d) && k <= |Remaining(Fold(db, stored), d)|
    ensures var rest := Remaining(Fold(db, stored), d);
      ReconcileScript(Fold(db, (stored + rest)[..|stored| + k]), later, again, met)
        == Script(rest[k..], Success(Unmanaged(Fold(db, stored).deenrollments[d].receipt.value)))
  {
    hide Fold, ReconcileScript, Remaining;
    var rest := Remaining(Fold(db, stored), d);
    ReconciliationsConverge(Fold(db, stored), d, k, later, again, met);
    FoldAppend(db, stored, rest[..k]);
    assert (stored + rest)[..|stored| + k] == stored + rest[..k];
  }

  // ----- an expectation left over by an earlier attempt -----------------------------------

  /** A plan that is confirmed again, instead of being reconciled, after its expectation was stored
      keeps that expectation; its next execution then does not mark the envelope as pending. */
  lemma LeftoverShape(db: Db, actor: Actor, form: ExecuteForm, env: Surroundings)
    requires Succeeds(db, actor, form, env)
    requires db.deenrollments[form.plan].expected.Some?
    ensures form.key.Some? && env.readback.ReadResult?
    ensures db.deenrollments[form.plan].confirmedAt.Some? && RebuildRefusal(db, db.deenrollments[form.plan]).None?
    ensures var d, e := form.plan, db.deenrollments[form.plan];
      var first := UpToVerified(d, e, ExecutionJob(actor, form), |db.jobs|, env.readback.result, env.now);
      && |first| == 7 && first[6].PutDeenrollment?
      && first[6].drecord == e.(status := DVerifying, job := first[6].drecord.job, readback := first[6].drecord.readback, receipt := first[6].drecord.receipt)
      && ExecuteScript(db, actor, form, env).effects == first +
        [PutHousehold(ByDeenrollment(d), HouseholdState(e.expected.value, db.household.bindings)),
         MoveJob(|db.jobs|, Succeeded, None),
         PutDeenrollment(d, first[6].drecord.(status := DApplied))]
  {
    FreshExecute(db, actor, form, env);
    hide ExecuteScript, RebuildRefusal;
  }

  /** A plan whose Household is still the base can be confirmed again while it is pending, and then
      keeps the expectation. */
  lemma ReconfirmKeepsExpectation(db: Db, actor: Actor, form: ConfirmForm, env: Surroundings)
    requires form.plan in db.deenrollments && db.deenrollments[form.plan].status == DPendingApply
    ensures ConfirmScript(db, actor, form, env).outcome.Success? <==>
      var e := db.deenrollments[form.plan];
      && form.wellFormed && RebuildRefusal(db, e).None? && Revalidation(db, actor, e).None? && env.granted
      && env.clockValid && e.requestedAt <= env.now
    ensures ConfirmScript(db, actor, form, env).outcome.Success? ==>
      var after := Fold(db, ConfirmScript(db, actor, form, env).effects);
      && db.household.snapshot == db.deenrollments[form.plan].base && after.household == db.household
      && form.plan in after.deenrollments && after.deenrollments[form.plan].status == DConfirmed
      && after.deenrollments[form.plan].expected == db.deenrollments[form.plan].expected
  {
    hide RebuildRefusal, TargetRefusal, ActorRefusal;
    var effects := ConfirmScript(db, actor, form, env).effects;
    if |effects| == 2 {
      FoldLast(db, effects, 2);
      FoldLast(db, effects, 1);
      FoldNothing(db);
      assert effects[..2] == effects && effects[..0] == [];
    }
  }

  /** `verifying`, over a Household that is past the plan's base. */
  predicate Stuck(db: Db, d: DeenrollmentId) {
    && d in db.deenrollments && db.deenrollments[d].status == DVerifying
    && db.deenrollments[d].base.generation < db.household.snapshot.generation
  }

  /** Every request for such a de-enrollment fails, by anyone and whatever it meets, without any
      effect; only planning it once more, which stores nothing, may return the plan. */
  lemma StuckRefuses(db: Db, d: DeenrollmentId, actor: Actor, plan: PlanForm, confirm: ConfirmForm, form: ExecuteForm, env: Surroundings)
    requires Stuck(db, d) && confirm.plan == d && form.plan == d
    ensures PlanScript(db, actor, d, plan, env).effects == []
    ensures ConfirmScript(db, actor, confirm, env).effects == [] && ConfirmScript(db, actor, confirm, env).outcome.Failure?
    ensures ExecuteScript(db, actor, form, env).effects == [] && ExecuteScript(db, actor, form, env).outcome.Failure?
    ensures ReconcileScript(db, actor, form, env).effects == [] && ReconcileScript(db, actor, form, env).outcome.Failure?
  {
    hide PlanRefusal, RebuildRefusal, MutateScript, FinishScript, StartReconciliationScript, TargetRefusal, ActorRefusal;
  }

  /** If an execution that uses a leftover expectation dies between the Household write and its last
      effect, the flag is cleared and the envelope is stuck. */
  lemma LeftoverExpectationSticks(init: Db, db: Db, actor: Actor, form: ExecuteForm, env: Surroundings, n: nat)
    requires Run(init, db) && Succeeds(db, actor, form, env) && db.deenrollments[form.plan].expected.Some?
    requires 8 <= n <= 9
    ensures |ExecuteScript(db, actor, form, env).effects| == 10
    ensures var after := Fold(db, ExecuteScript(db, actor, form, env).effects[..n]);
      Stuck(after, form.plan) && Some(after.household.snapshot) == db.deenrollments[form.plan].expected
  {
    ExpectationIsNew(init, db, form.plan);
    hide Run, Fold, ExecuteScript, Stuck;
    LeftoverSticks(db, actor, form, env, n);
  }

  lemma LeftoverSticks(db: Db, actor: Actor, form: ExecuteForm, env: Surroundings, n: nat)
    requires Succeeds(db, actor, form, env) && 8 <= n <= 9
    requires var e := db.deenrollments[form.plan]; e.expected.Some? && e.base.generation < e.expected.value.generation
    ensures |ExecuteScript(db, actor, form, env).effects| == 10
    ensures var after := Fold(db, ExecuteScript(db, actor, form, env).effects[..n]);
      Stuck(after, form.plan) && Some(after.household.snapshot) == db.deenrollments[form.plan].expected
  {
    LeftoverShape(db, actor, form, env);
    var d, e, job := form.plan, db.deenrollments[form.plan], ExecutionJob(actor, form);
    var first := UpToVerified(d, e, job, |db.jobs|, env.readback.result, env.now);
    var effects := ExecuteScript(db, actor, form, env).effects;
    hide Fold, ExecuteScript, RebuildRefusal, UpToVerified;
    var state := HouseholdState(e.expected.value, db.household.bindings);
    LeftoverState(db, d, job, env.readback.result, env.now, state);
    var written := first + [PutHousehold(ByDeenrollment(d), state)];
    assert effects[..n] == if n == 8 then written else written + [MoveJob(|db.jobs|, Succeeded, None)];
  }

  lemma LeftoverState(db: Db, d: DeenrollmentId, job: Job, result: ReadbackResult, now: Time, state: HouseholdState)
    requires d in db.deenrollments
    ensures var first := UpToVerified(d, db.deenrollments[d], job, |db.jobs|, result, now);
      var written := first + [PutHousehold(ByDeenrollment(d), state)];
      forall after :: after == Fold(db, written) || after == Fold(db, written + [MoveJob(|db.jobs|, Succeeded, None)]) ==>
        && after.household == state && after.verifications == db.verifications
        && d in after.deenrollments && after.deenrollments[d] == first[6].drecord
  {
    var first := UpToVerified(d, db.deenrollments[d], job, |db.jobs|, result, now);
    StateUpToVerified(db, d, job, result, now, 7);
    assert first[..7] == first;
    hide Fold, Apply, UpToVerified, RebuildRefusal;
    var written := first + [PutHousehold(ByDeenrollment(d), state)];
    FoldSnoc(db, first, PutHousehold(ByDeenrollment(d), state));
    FoldSnoc(db, written, MoveJob(|db.jobs|, Succeeded, None));
    WriteThenMove(Fold(db, first), ByDeenrollment(d), state);
    WriteThenMove(Fold(db, written), ByDeenrollment(d), state);
  }

  lemma WriteThenMove(db: Db, source: Source, state: HouseholdState)
    ensures var after := Apply(db, PutHousehold(source, state));
      after.household == state && after.verifications == db.verifications && after.deenrollments == db.deenrollments
    ensures forall j, to, result :: var after := Apply(db, MoveJob(j, to, result));
      after.household == db.household && after.verifications == db.verifications && after.deenrollments == db.deenrollments
  {
  }
}
