/**
  What no later request, by anyone and however it ends, can change: a start command whose process
  died, and a de-enrollment whose last writes were lost.
 */
module Aftermath {
  import opened Wrappers
  import opened Records
  import opened Protocol
  import opened DurableStore
  import opened Scripts
  import opened Lifecycle
  import Enroll = EnrollmentRuntime
  import Verify = PostConditionRuntime
  import Unmanage = DeenrollmentRuntime
  import Interrupted = DeenrollmentRecovery
  import Clean = CleanupRuntime
  import HouseholdSafety
  import EnrollmentSafety

  // ----- what a request may do ------------------------------------------------------------

  /** The de-enrollment a request is about. */
  function Target(request: Lifecycle.Request): Option<DeenrollmentId> {
    match request
    case PlanDeenrollment(_, d, _, _) => Some(d)
    case ConfirmDeenrollment(_, form, _) => Some(form.plan)
    case Deenroll(_, form, _) => Some(form.plan)
    case Reconcile(_, form, _) => Some(form.plan)
    case _ => None
  }

  predicate IsAnswer(result: Option<JobResult>) {
    result.Some? && (result.value.StartFailed? || result.value.ProviderAccepted?)
  }

  predicate NotRunning(jobs: seq<Job>, j: JobId) {
    j < |jobs| ==> jobs[j].state != Running
  }

  /** The effect stores a de-enrollment record of `d` only, and sends a start command, or records an
      answer to one, for a job only that was not running when the request arrived. */
  predicate Own(jobs: seq<Job>, a: Action, d: Option<DeenrollmentId>) {
    && (a.PutDeenrollment? ==> d == Some(a.deenrollment))
    && (a.CallStart? ==> NotRunning(jobs, a.startJob))
    && (a.MoveJob? && IsAnswer(a.result) ==> NotRunning(jobs, a.id))
  }

  predicate OwnOnly(jobs: seq<Job>, effects: seq<Action>, d: Option<DeenrollmentId>) {
    forall i :: 0 <= i < |effects| ==> Own(jobs, effects[i], d)
  }

  lemma SubmitOwn(db: Db, actor: Actor, p: PlanId, key: Option<Key>, retryOf: Option<JobId>, env: Enroll.Surroundings)
    ensures OwnOnly(db.jobs, Enroll.SubmitScript(db, actor, p, key, retryOf, env).effects, None)
  {
    hide Enroll.Revalidation, AcceptedStart, FindKey;
  }

  lemma StartOwn(db: Db, actor: Actor, form: Enroll.StartForm, env: Enroll.Surroundings)
    ensures OwnOnly(db.jobs, Enroll.StartScript(db, actor, form, env).effects, None)
  {
    SubmitOwn(db, actor, form.plan, form.key, None, env);
    hide Enroll.SubmitScript, Enroll.StartJobs, Enroll.AnyIn, Enroll.ReplayedReceipt;
  }

  lemma RetryOwn(db: Db, actor: Actor, form: Enroll.RetryForm, env: Enroll.Surroundings)
    ensures OwnOnly(db.jobs, Enroll.RetryScript(db, actor, form, env).effects, None)
  {
    SubmitOwn(db, actor, form.plan, form.key, Some(form.failedJob), env);
    hide Enroll.SubmitScript, Enroll.StartJobs, Enroll.AnyIn, Enroll.ReplayedReceipt;
  }

  lemma CancelOwn(db: Db, actor: Actor, form: Enroll.CancelForm, env: Enroll.Surroundings)
    ensures OwnOnly(db.jobs, Enroll.CancelScript(db, actor, form, env).effects, None)
  {
    hide Enroll.Revalidation, Enroll.CancelJobs, Enroll.AnyIn, FindKey;
  }

  lemma ConfirmVerificationOwn(db: Db, actor: Actor, form: Verify.ConfirmForm, env: Verify.Surroundings)
    ensures OwnOnly(db.jobs, Verify.ConfirmScript(db, actor, form, env).effects, None)
  {
    hide Verify.Revalidation, PostFailure, FlippedSnapshot, FindKey;
  }

  lemma RecoverOneOwn(jobs: seq<Job>, db: Db, v: VerificationId)
    ensures OwnOnly(jobs, Verify.RecoverOneScript(db, v).effects, None)
  {
  }

  lemma {:induction false} RecoverOwn(jobs: seq<Job>, db: Db, ids: seq<VerificationId>)
    ensures OwnOnly(jobs, Verify.RecoverScript(db, ids).effects, None)
    decreases |ids|
  {
    if ids != [] {
      RecoverOneOwn(jobs, db, ids[0]);
      hide Verify.RecoverOneScript, Fold, Own;
      RecoverOwn(jobs, Fold(db, Verify.RecoverOneScript(db, ids[0]).effects), ids[1..]);
    }
  }

  lemma ExecuteOwn(db: Db, actor: Actor, form: Unmanage.ExecuteForm, env: Unmanage.Surroundings)
    ensures OwnOnly(db.jobs, Unmanage.ExecuteScript(db, actor, form, env).effects, Some(form.plan))
  {
    hide Unmanage.Revalidation, Unmanage.RebuildRefusal, DeenrollFailure, FlippedSnapshot, FindKey;
  }

  lemma WeighOwn(jobs: seq<Job>, d: DeenrollmentId, e: Records.Deenrollment, j: JobId, household: HouseholdState, state: JobState)
    requires e.receipt.Some?
    ensures OwnOnly(jobs, Unmanage.ApplyScript(d, e, j, household, state).effects, Some(d))
  {
    hide FlippedSnapshot;
  }

  lemma ReconcileOwn(db: Db, actor: Actor, form: Unmanage.ExecuteForm, env: Unmanage.Surroundings)
    ensures OwnOnly(db.jobs, Unmanage.ReconcileScript(db, actor, form, env).effects, Some(form.plan))
  {
    hide Unmanage.Revalidation, Unmanage.RebuildRefusal, DeenrollFailure, Unmanage.ApplyScript, Unmanage.CarriedReceipt, FindKey;
    forall e: Records.Deenrollment, j, household, state | e.receipt.Some?
      ensures OwnOnly(db.jobs, Unmanage.ApplyScript(form.plan, e, j, household, state).effects, Some(form.plan))
    {
      WeighOwn(db.jobs, form.plan, e, j, household, state);
    }
  }

  lemma ExecuteCleanupOwn(db: Db, actor: Actor, form: Clean.RunForm, env: Clean.Surroundings)
    ensures OwnOnly(db.jobs, Clean.ExecuteScript(db, actor, form, env).effects, None)
  {
    hide Clean.AuthorityRefusal, Clean.ReadSource, FindKey;
  }

  lemma VerifyCleanupOwn(db: Db, actor: Actor, form: Clean.RunForm, env: Clean.Surroundings)
    ensures OwnOnly(db.jobs, Clean.VerifyScript(db, actor, form, env).effects, None)
  {
    hide Clean.VerifyRefusal, Clean.Authorized, FindKey;
  }

  /** The requests that only plan or confirm. */
  lemma PlanOwn(db: Db, request: Lifecycle.Request)
    requires || request.PlanExecution? || request.PlanVerification? || request.PlanDeenrollment? || request.ConfirmDeenrollment?
             || request.PlanCleanup? || request.WriteHousehold?
    ensures OwnOnly(db.jobs, Effects(db, request), Target(request))
  {
    hide Verify.PlanRefusal, Unmanage.PlanRefusal, Unmanage.Revalidation, Unmanage.RebuildRefusal, Clean.PlanRefusal, HouseholdAllowed;
  }

  /** No request does anything else. */
  lemma EffectsOwn(db: Db, request: Lifecycle.Request)
    ensures OwnOnly(db.jobs, Effects(db, request), Target(request))
  {
    hide OwnOnly, Enroll.StartScript, Enroll.RetryScript, Enroll.CancelScript, Verify.ConfirmScript, Verify.RecoverScript,
      Unmanage.ExecuteScript, Unmanage.ReconcileScript, Clean.VerifyScript, Clean.ExecuteScript;
    match request
    case Start(actor, form, env) => StartOwn(db, actor, form, env);
    case Retry(actor, form, env) => RetryOwn(db, actor, form, env);
    case Cancel(actor, form, env) => CancelOwn(db, actor, form, env);
    case ConfirmVerification(actor, form, env) => ConfirmVerificationOwn(db, actor, form, env);
    case Recover(ids) => RecoverOwn(db.jobs, db, ids);
    case Deenroll(actor, form, env) => ExecuteOwn(db, actor, form, env);
    case Reconcile(actor, form, env) => ReconcileOwn(db, actor, form, env);
    case VerifyCleanup(actor, form, env) => VerifyCleanupOwn(db, actor, form, env);
    case ExecuteCleanup(actor, form, env) => ExecuteCleanupOwn(db, actor, form, env);
    case _ => PlanOwn(db, request);
  }

  // ----- an envelope that nothing can move -------------------------------------------------

  /** No effect stores a record of this de-enrollment. */
  predicate Spares(effects: seq<Action>, d: DeenrollmentId) {
    forall i :: 0 <= i < |effects| ==> !(effects[i].PutDeenrollment? && effects[i].deenrollment == d)
  }

  lemma StuckSpared(db: Db, request: Lifecycle.Request, d: DeenrollmentId)
    requires Interrupted.Stuck(db, d)
    ensures Spares(Effects(db, request), d)
  {
    EffectsOwn(db, request);
    hide Interrupted.Stuck, Unmanage.PlanScript, Unmanage.ConfirmScript, Unmanage.ExecuteScript, Unmanage.ReconcileScript;
    if Target(request) == Some(d) {
      var plan, confirm, execute := Unmanage.PlanForm(true, 0, 0), Unmanage.ConfirmForm(true, d), Unmanage.ExecuteForm(true, d, None);
      match request
      case PlanDeenrollment(actor, _, form, env) => Interrupted.StuckRefuses(db, d, actor, form, confirm, execute, env);
      case ConfirmDeenrollment(actor, form, env) => Interrupted.StuckRefuses(db, d, actor, plan, form, execute, env);
      case Deenroll(actor, form, env) => Interrupted.StuckRefuses(db, d, actor, plan, confirm, form, env);
      case Reconcile(actor, form, env) => Interrupted.StuckRefuses(db, d, actor, plan, confirm, form, env);
    } else {
      hide Effects;
    }
  }

  lemma {:induction false} SparedStays(db: Db, effects: seq<Action>, d: DeenrollmentId)
    requires Spares(effects, d) && d in db.deenrollments
    ensures d in Fold(db, effects).deenrollments && Fold(db, effects).deenrollments[d] == db.deenrollments[d]
  {
    hide Apply;
    if effects != [] {
      var before, a := effects[..|effects| - 1], effects[|effects| - 1];
      SparedStays(db, before, d);
      SparedOnce(Fold(db, before), a, d);
    }
  }

  lemma SparedOnce(db: Db, a: Action, d: DeenrollmentId)
    requires d in db.deenrollments && !(a.PutDeenrollment? && a.deenrollment == d)
    ensures d in Apply(db, a).deenrollments && Apply(db, a).deenrollments[d] == db.deenrollments[d]
  {
  }

  /** No arrival moves it. */
  lemma StuckStays(init: Db, before: Db, arrival: Arrival, after: Db, d: DeenrollmentId)
    requires Served(init, before, arrival, after) && Interrupted.Stuck(before, d)
    ensures Interrupted.Stuck(after, d) && after.deenrollments[d] == before.deenrollments[d]
  {
    hide Effects, Legal, Fold;
    var effects := Effects(before, arrival.request);
    StuckSpared(before, arrival.request, d);
    RunState(init, before, after, Take(effects, arrival.fuel));
    SparedStays(before, Take(effects, arrival.fuel), d);
    NeverBack(init, before, after);
  }

  lemma NeverBack(init: Db, before: Db, after: Db)
    requires Run(init, before) && Run(init, after) && before.log <= after.log
    ensures before.household.snapshot.generation <= after.household.snapshot.generation
  {
    hide Legal, Fold;
    assert after.log[..|before.log|] == before.log;
    HouseholdSafety.NoUpdateLost(init, after.log, |before.log|);
  }

  /** Whatever arrives afterwards, in whatever order and wherever it dies: the envelope stays as it is. */
  lemma {:induction false} StuckForEver(init: Db, dbs: seq<Db>, arrivals: seq<Arrival>, d: DeenrollmentId)
    requires History(init, dbs, arrivals) && Interrupted.Stuck(dbs[0], d)
    ensures Interrupted.Stuck(dbs[|arrivals|], d) && dbs[|arrivals|].deenrollments[d] == dbs[0].deenrollments[d]
    decreases |arrivals|
  {
    hide Served, Interrupted.Stuck;
    if arrivals != [] {
      StuckStays(init, dbs[0], arrivals[0], dbs[1], d);
      StuckForEver(init, dbs[1..], arrivals[1..], d);
    }
  }

  // ----- a start command whose process died ------------------------------------------------

  /** The process that drove this start or retry died while the job was running: before the command
      was sent, or before its answer, whatever it was, was recorded. */
  predicate Blocked(db: Db, p: PlanId, j: JobId) {
    j < |db.jobs| && db.jobs[j].IsStartOf(p) && db.jobs[j].state == Running
  }

  /** No effect sends the job's command or records an answer to it. */
  predicate SparesJob(effects: seq<Action>, j: JobId) {
    forall i :: 0 <= i < |effects| ==>
      && !(effects[i].CallStart? && effects[i].startJob == j)
      && !(effects[i].MoveJob? && effects[i].id == j && IsAnswer(effects[i].result))
  }

  lemma BlockedSpared(db: Db, request: Lifecycle.Request, p: PlanId, j: JobId)
    requires Blocked(db, p, j)
    ensures SparesJob(Effects(db, request), j)
  {
    EffectsOwn(db, request);
    hide Effects;
  }

  /** An effect that spares the job leaves it running, and sends no other command for its plan. */
  lemma BlockedStep(db: Db, a: Action, p: PlanId, j: JobId)
    requires EnrollmentSafety.Inv(db) && Enabled(db, a) && Blocked(db, p, j) && SparesJob([a], j)
    ensures Blocked(Apply(db, a), p, j)
    ensures a.CallStart? ==> a.startJob < |db.jobs| && !db.jobs[a.startJob].IsStartOf(p)
  {
    assert [a][0] == a;
    hide CreateAllowed, ExecutionAllowed, VerificationAllowed, DeenrollmentAllowed, CleanupAllowed, HouseholdAllowed, ScrubAllowed,
      EnrollmentSafety.ReceiptsSound, EnrollmentSafety.CancelJobsSound, EnrollmentSafety.CancelCallsSound, EnrollmentSafety.StartJobsSound;
    assert forall i :: 0 <= i < |db.jobs| && i != j && db.jobs[i].IsStartOf(p) ==>
      EnrollmentSafety.SamePlanStarts(db.jobs[i], db.jobs[j]) && EnrollmentSafety.SamePlanStarts(db.jobs[j], db.jobs[i]);
  }

  lemma {:induction false} BlockedAlong(init: Db, actions: seq<Action>, n: nat, p: PlanId, j: JobId)
    requires Initial(init) && Legal(init, actions) && n <= |actions|
    requires Blocked(Fold(init, actions[..n]), p, j) && SparesJob(actions[n..], j)
    ensures Blocked(Fold(init, actions), p, j)
    ensures EnrollmentSafety.NoStartCall(actions, n, Fold(init, actions).jobs, p)
  {
    hide Initial, Legal, Fold, Enabled, Apply, Blocked, EnrollmentSafety.Inv;
    if n == |actions| {
      assert actions[..n] == actions;
    } else {
      hide EnrollmentSafety.NoStartCall;
      var before, a := actions[..|actions| - 1], actions[|actions| - 1];
      assert actions[..n] == before[..n] && before + [a] == actions;
      assert SparesJob(before[n..], j) && SparesJob([a], j) by {
        assert forall i :: 0 <= i < |before[n..]| ==> before[n..][i] == actions[n..][i];
        assert a == actions[n..][|actions| - 1 - n];
      }
      LastStep(init, actions);
      BlockedAlong(init, before, n, p, j);
      EnrollmentSafety.Holds(init, before);
      BlockedStep(Fold(init, before), a, p, j);
      EnrollmentSafety.NoStartCallStep(before, n, Fold(init, before), a, p);
    }
  }

  lemma BlockedStays(init: Db, before: Db, arrival: Arrival, after: Db, p: PlanId, j: JobId)
    requires Served(init, before, arrival, after) && Blocked(before, p, j)
    ensures before.log <= after.log && Blocked(after, p, j)
    ensures EnrollmentSafety.NoStartCall(after.log, |before.log|, after.jobs, p)
  {
    hide Effects, Legal, Fold;
    BlockedSpared(before, arrival.request, p, j);
    var n := |before.log|;
    assert after.log[..n] == before.log && after.log[n..] == Take(Effects(before, arrival.request), arrival.fuel);
    BlockedAlong(init, after.log, n, p, j);
  }

  /** Whatever arrives after such a death, however often and wherever it dies: the job stays running,
      and no start command is sent for the plan again, even if the adapter had declared a safe failure
      that was not recorded. */
  lemma {:induction false} BlockedForEver(init: Db, dbs: seq<Db>, arrivals: seq<Arrival>, p: PlanId, j: JobId)
    requires History(init, dbs, arrivals) && Blocked(dbs[0], p, j)
    ensures Blocked(dbs[|arrivals|], p, j)
    ensures forall i :: 0 <= i < |arrivals| ==> EnrollmentSafety.NoStartCall(dbs[i + 1].log, |dbs[i].log|, dbs[i + 1].jobs, p)
    decreases |arrivals|
  {
    hide Served, Blocked, EnrollmentSafety.NoStartCall;
    if arrivals != [] {
      BlockedStays(init, dbs[0], arrivals[0], dbs[1], p, j);
      var later := dbs[1..];
      BlockedForEver(init, later, arrivals[1..], p, j);
      forall i | 0 <= i < |arrivals|
        ensures EnrollmentSafety.NoStartCall(dbs[i + 1].log, |dbs[i].log|, dbs[i + 1].jobs, p)
      {
        if i > 0 {
          assert later[i - 1] == dbs[i] && later[i] == dbs[i + 1];
        }
      }
    }
  }
}
