/**
  Short histories of requests that lead to each of the states in which the code does less than one
  might expect: one Household, one device, one enrollment.
 */
module Scenarios {
  import opened Wrappers
  import opened Records
  import opened Protocol
  import opened DurableStore
  import opened Scripts
  import opened Lifecycle
  import Enroll = EnrollmentRuntime
  import Verify = PostConditionRuntime
  import Unmanage = DeenrollmentRuntime
  import Clean = CleanupRuntime
  import CleanupSafety
  import Interrupted = DeenrollmentRecovery

  // ----- what arrives ---------------------------------------------------------------------

  const HOUSEHOLD := HouseholdState(
    Snapshot(Household([Member(1, true)], [Device(7, 1, 0, false)]), 1, None), [ActorBinding(0, 1)])
  const PLAN := ExecutionPlan(2, 7, 1, 1, HOUSEHOLD.snapshot, 60, Token)
  const ACCEPTED := StartResult(3, Some(Artifact(Token, 5, 10)))
  const SIGNALS := Signals(Present, Present, Present)
  const BINDING := PostBinding(0, 2, 3, 7, 1, 1)
  const ABSENT := ReadbackResult(0, 2, 3, 7, 1, 0, ProviderAbsent)

  const ENROLLING := Enroll.Surroundings({2}, true, Some(0), Answered(Some(ACCEPTED)), true)
  const VERIFIED := Verify.Surroundings({2}, true, ReadResult(PostResult(BINDING, 0, PostVerified, SIGNALS)), true, 0)
  const NOT_ENROLLED := Verify.Surroundings({2}, true, ReadResult(PostResult(BINDING, 0, PostNotEnrolled, SIGNALS)), true, 0)
  const UNMANAGED := Unmanage.Surroundings({2}, true, MutationAccepted, ReadResult(ABSENT), true, 0)
  const CLEANED := Clean.Surroundings({2}, ReadResult(ABSENT), true, 0)

  const PLAN_EXECUTION := Arrival(PlanExecution(0, PLAN, None), 99)
  const START := Arrival(Start(0, Enroll.StartForm(true, 0, Some(10)), ENROLLING), 99)
  const PLAN_VERIFICATION := Arrival(PlanVerification(0, 0, Verify.PlanForm(true, 0, 60, SIGNALS)), 99)
  const PLAN_ANOTHER := Arrival(PlanVerification(0, 1, Verify.PlanForm(true, 0, 61, SIGNALS)), 99)
  const CONFIRM_VERIFICATION := Arrival(ConfirmVerification(0, Verify.ConfirmForm(true, 0, Some(11)), VERIFIED), 99)
  const CONFIRM_IN_VAIN := Arrival(ConfirmVerification(0, Verify.ConfirmForm(true, 0, Some(11)), NOT_ENROLLED), 99)
  const PLAN_DEENROLLMENT := Arrival(PlanDeenrollment(0, 0, Unmanage.PlanForm(true, 0, 60), UNMANAGED), 99)
  const CONFIRM_DEENROLLMENT := Arrival(ConfirmDeenrollment(0, Unmanage.ConfirmForm(true, 0), UNMANAGED), 99)

  const DEENROLL_AMBIGUOUSLY :=
    Arrival(Deenroll(0, Unmanage.ExecuteForm(true, 0, Some(12)), UNMANAGED.(mutation := MutationAmbiguous)), 99)

  /** Dies when the envelope has just been marked as pending. */
  const RECONCILE_AND_DIE := Arrival(Reconcile(0, Unmanage.ExecuteForm(true, 0, Some(13)), UNMANAGED), 4)
  const PLAN_CLEANUP := Arrival(PlanCleanup(0, 0, Clean.PlanForm(true, 0, 60), CLEANED), 99)
  const VERIFY_CLEANUP := Arrival(VerifyCleanup(0, Clean.RunForm(true, 0, Some(12)), CLEANED), 99)
  const EXECUTE_CLEANUP := Arrival(ExecuteCleanup(0, Clean.RunForm(true, 0, Some(13)), CLEANED), 99)

  // ----- what is then stored --------------------------------------------------------------

  const START_JOB := Job(StartRequest(0, None), 0, 10, None, Succeeded, Some(ProviderAccepted(ACCEPTED)))
  const RECEIPT := StartReceipt(0, None, 0, 2, 3, 7, 1, ACCEPTED.artifact)
  const EMPTY := Db(HOUSEHOLD, map[], map[], map[], map[], [], [])
  const PLANNED := EMPTY.(executions := map[0 := Execution(PLAN, Planned, None, None)])
  const ENROLLED := EMPTY.(executions := map[0 := Execution(PLAN, Accepted, Some(RECEIPT), None)], jobs := [START_JOB])

  const VERIFICATION := Verification(1, PostRequest(BINDING, 60, SIGNALS), RECEIPT, HOUSEHOLD.snapshot, HOUSEHOLD.bindings,
    VPlanned, None, None, None, None)
  const ANOTHER := VERIFICATION.(request := PostRequest(BINDING, 61, SIGNALS))
  const VERIFIABLE := ENROLLED.(verifications := map[0 := VERIFICATION])
  const MANAGED := Replacement(HOUSEHOLD.snapshot, Household([Member(1, true)], [Device(7, 1, 0, true)]))
  const VERIFY_JOB := Job(VerifyRequest(0), 0, 11, None, Succeeded, Some(Noted))
  const APPLIED := VERIFICATION.(status := VApplied, job := Some(1), readback := Some(VERIFIED.answer.result),
    receipt := Some(CheckReceipt(1, None, 0)), expected := Some(MANAGED))
  const MANAGED_STATE := VERIFIABLE.(household := HouseholdState(MANAGED, HOUSEHOLD.bindings),
    verifications := map[0 := APPLIED], jobs := [START_JOB, VERIFY_JOB])

  const DEENROLLMENT := Deenrollment(0, Target(2, 3, 7, 1), 1, 0, 60, MANAGED, HOUSEHOLD.bindings, DPlanned,
    None, None, None, None, None)
  const CLEARED := Replacement(MANAGED, HOUSEHOLD.snapshot.household)

  function Deenrolling(e: Deenrollment, jobs: seq<Job>): Db {
    MANAGED_STATE.(deenrollments := map[0 := e], jobs := jobs)
  }

  const CONFIRMED := DEENROLLMENT.(status := DConfirmed, confirmedAt := Some(0))
  const PENDING := CONFIRMED.(status := DPendingApply, job := Some(2), readback := Some(ABSENT),
    receipt := Some(CheckReceipt(2, None, 0)), expected := Some(CLEARED))
  const DEENROLL_JOB := Job(DeenrollRequest(0), 0, 12, None, Verifying, Some(Noted))
  const UNRECONCILED := CONFIRMED.(status := DReconcileRequired, job := Some(2))

  // ----- one arrival after another --------------------------------------------------------

  /** What is stored, apart from the history. */
  function Stored(db: Db): Db {
    db.(log := [])
  }

  function After(db: Db, arrival: Arrival): Db {
    Fold(db, Take(Effects(db, arrival.request), arrival.fuel))
  }

  lemma Next(init: Db, dbs: seq<Db>, arrivals: seq<Arrival>, i: nat)
    requires History(init, dbs, arrivals) && i < |arrivals|
    ensures |dbs| == |arrivals| + 1 && dbs[i + 1] == After(dbs[i], arrivals[i])
  {
    hide Run, Effects, Take;
    RunState(init, dbs[i], dbs[i + 1], Take(Effects(dbs[i], arrivals[i].request), arrivals[i].fuel));
  }

  lemma Two(db: Db, e: seq<Action>)
    requires |e| == 2
    ensures Fold(db, e) == Apply(Apply(db, e[0]), e[1])
  {
    hide Apply;
    FoldFirst(db, e);
    FoldOne(Apply(db, e[0]), e[1]);
    assert e[1..] == [e[1]];
  }

  lemma Four(db: Db, e: seq<Action>)
    requires |e| == 4
    ensures Fold(db, e) == Apply(Apply(Apply(Apply(db, e[0]), e[1]), e[2]), e[3])
  {
    hide Apply, Fold;
    FoldAppend(db, e[..2], e[2..]);
    assert e == e[..2] + e[2..];
    Two(db, e[..2]);
    Two(Fold(db, e[..2]), e[2..]);
  }

  lemma Six(db: Db, e: seq<Action>)
    requires |e| == 6
    ensures Fold(db, e) == Apply(Apply(Apply(Apply(Apply(Apply(db, e[0]), e[1]), e[2]), e[3]), e[4]), e[5])
  {
    hide Apply, Fold;
    FoldAppend(db, e[..4], e[4..]);
    assert e == e[..4] + e[4..];
    Four(db, e[..4]);
    Two(Fold(db, e[..4]), e[4..]);
  }

  lemma AfterPlanning(db: Db)
    requires Stored(db) == EMPTY
    ensures Stored(After(db, PLAN_EXECUTION)) == PLANNED
  {
    var a := PutExecution(0, Execution(PLAN, Planned, None, None));
    assert Effects(db, PLAN_EXECUTION.request) == [a];
    FoldOne(db, a);
    assert map[][0 := a.execution] == map[0 := a.execution];
  }

  lemma AfterStart(db: Db)
    requires Stored(db) == PLANNED
    ensures Stored(After(db, START)) == ENROLLED
  {
    var effects := [
      CreateJob(START_JOB.(state := Preflight, result := None)), MoveJob(0, Running, None), CallStart(0, 0, ENROLLING.startAnswer),
      MoveJob(0, Verifying, START_JOB.result), MoveJob(0, Succeeded, None), PutExecution(0, ENROLLED.executions[0])];
    assert Effects(db, START.request) == effects;
    Six(db, effects);
  }

  lemma AfterVerificationPlanned(db: Db)
    requires Stored(db) == ENROLLED
    ensures Stored(After(db, PLAN_VERIFICATION)) == VERIFIABLE
  {
    assert Effects(db, PLAN_VERIFICATION.request) == [PutVerification(0, VERIFICATION)];
    FoldOne(db, PutVerification(0, VERIFICATION));
    assert map[][0 := VERIFICATION] == map[0 := VERIFICATION];
  }

  lemma Flipping()
    ensures FlippedSnapshot(HOUSEHOLD.snapshot, 7, 1, true) == Success(MANAGED)
    ensures FlippedSnapshot(MANAGED, 7, 1, false) == Success(CLEARED)
  {
    assert WithManaged([Device(7, 1, 0, false)], 7, true) == [Device(7, 1, 0, true)];
    assert WithManaged([Device(7, 1, 0, true)], 7, false) == [Device(7, 1, 0, false)];
  }

  const VERIFY_FIRST := [
    ConsumeStepUp(VerificationScope(0)), CreateJob(VERIFY_JOB.(state := Preflight, result := None)),
    PutVerification(0, VERIFICATION.(status := VRunning, job := Some(1))),
    MoveJob(1, Running, None), CallReadBack(0, 1), MoveJob(1, Verifying, Some(Noted))]
  const VERIFY_THEN := [
    PutVerification(0, APPLIED.(status := VVerified, expected := None)), PutVerification(0, APPLIED.(status := VPendingApply)),
    PutHousehold(ByVerification(0), MANAGED_STATE.household), MoveJob(1, Succeeded, None)]
  const READING := VERIFIABLE.(verifications := map[0 := VERIFICATION.(status := VRunning, job := Some(1))],
    jobs := [START_JOB, VERIFY_JOB.(state := Verifying)])

  lemma ReadingBack()
    ensures Verify.ReadBackScript(0, VERIFICATION, 1, HOUSEHOLD, VERIFIED).effects
      == VERIFY_FIRST[2..] + VERIFY_THEN + [PutVerification(0, APPLIED)]
  {
    Flipping();
    hide FlippedSnapshot;
  }

  lemma VerificationEffects(db: Db)
    requires Stored(db) == VERIFIABLE
    ensures Effects(db, CONFIRM_VERIFICATION.request) == VERIFY_FIRST + VERIFY_THEN + [PutVerification(0, APPLIED)]
  {
    ReadingBack();
    hide FlippedSnapshot, Apply, Fold, Verify.ReadBackScript;
    assert Verify.ConfirmScript(db, 0, Verify.ConfirmForm(true, 0, Some(11)), VERIFIED).effects
      == VERIFY_FIRST[..2] + Verify.ReadBackScript(0, VERIFICATION, 1, HOUSEHOLD, VERIFIED).effects;
  }

  lemma AfterReadBack(db: Db, s: Db)
    requires Stored(db) == s && s.jobs == [START_JOB] && 0 in s.verifications && s.verifications[0] == VERIFICATION
    ensures Stored(Fold(db, VERIFY_FIRST)) == s.(
      verifications := s.verifications[0 := VERIFICATION.(status := VRunning, job := Some(1))],
      jobs := [START_JOB, VERIFY_JOB.(state := Verifying)])
  {
    Six(db, VERIFY_FIRST);
  }

  lemma AfterApply(db: Db)
    requires Stored(db) == READING
    ensures Stored(Fold(db, VERIFY_THEN + [PutVerification(0, APPLIED)])) == MANAGED_STATE
  {
    FoldAppend(db, VERIFY_THEN, [PutVerification(0, APPLIED)]);
    Four(db, VERIFY_THEN);
    FoldOne(Fold(db, VERIFY_THEN), PutVerification(0, APPLIED));
  }

  lemma AfterVerification(db: Db)
    requires Stored(db) == VERIFIABLE
    ensures Stored(After(db, CONFIRM_VERIFICATION)) == MANAGED_STATE
  {
    hide Effects, Fold;
    VerificationEffects(db);
    AfterReadBack(db, VERIFIABLE);
    assert VERIFIABLE.verifications[0 := READING.verifications[0]] == READING.verifications;
    AfterApply(Fold(db, VERIFY_FIRST));
    FoldAppend(db, VERIFY_FIRST, VERIFY_THEN + [PutVerification(0, APPLIED)]);
    assert VERIFY_FIRST + VERIFY_THEN + [PutVerification(0, APPLIED)] == VERIFY_FIRST + (VERIFY_THEN + [PutVerification(0, APPLIED)]);
  }

  lemma AfterDeenrollmentPlanned(db: Db)
    requires Stored(db) == MANAGED_STATE
    ensures Stored(After(db, PLAN_DEENROLLMENT)) == Deenrolling(DEENROLLMENT, MANAGED_STATE.jobs)
  {
    assert Effects(db, PLAN_DEENROLLMENT.request) == [PutDeenrollment(0, DEENROLLMENT)];
    FoldOne(db, PutDeenrollment(0, DEENROLLMENT));
    assert map[][0 := DEENROLLMENT] == map[0 := DEENROLLMENT];
  }

  predicate OfThePlan(e: Deenrollment) {
    e == DEENROLLMENT.(status := e.status, confirmedAt := e.confirmedAt, job := e.job, readback := e.readback, receipt := e.receipt,
                       expected := e.expected)
  }

  lemma Current(db: Db, e: Deenrollment, jobs: seq<Job>)
    requires Stored(db) == Deenrolling(e, jobs) && OfThePlan(e)
    ensures 0 in db.deenrollments && db.deenrollments[0] == e && db.household == MANAGED_STATE.household && db.jobs == jobs
    ensures Unmanage.RebuildRefusal(db, e).None? && Unmanage.Revalidation(db, 0, e).None?
  {
    assert MANAGED.household.members[0] == Member(1, true);
  }

  lemma ConfirmationEffects(db: Db, e: Deenrollment, jobs: seq<Job>)
    requires Stored(db) == Deenrolling(e, jobs) && e.status in {DPlanned, DPendingApply} && OfThePlan(e)
    ensures Effects(db, CONFIRM_DEENROLLMENT.request) ==
      [ConsumeStepUp(DeenrollmentScope(0)), PutDeenrollment(0, e.(status := DConfirmed, confirmedAt := Some(0)))]
  {
    Current(db, e, jobs);
    hide Unmanage.RebuildRefusal, Unmanage.Revalidation, Apply, OfThePlan, Stored, Deenrolling;
  }

  lemma DeenrollmentPut(db: Db, a: Deenrollment, jobs: seq<Job>, scope: Scope, e: Deenrollment)
    requires Stored(db) == Deenrolling(a, jobs)
    ensures Stored(Apply(Apply(db, ConsumeStepUp(scope)), PutDeenrollment(0, e))) == Deenrolling(e, jobs)
  {
  }

  /** A confirmation, the first or, while the Household is the base, another one. */
  lemma AfterConfirmation(db: Db, e: Deenrollment, jobs: seq<Job>)
    requires Stored(db) == Deenrolling(e, jobs) && e.status in {DPlanned, DPendingApply} && OfThePlan(e)
    ensures Stored(After(db, CONFIRM_DEENROLLMENT)) == Deenrolling(e.(status := DConfirmed, confirmedAt := Some(0)), jobs)
  {
    ConfirmationEffects(db, e, jobs);
    hide Effects, Apply;
    Two(db, Effects(db, CONFIRM_DEENROLLMENT.request));
    DeenrollmentPut(db, e, jobs, DeenrollmentScope(0), e.(status := DConfirmed, confirmedAt := Some(0)));
  }

  /** What an execution with a fresh key sets out to do. */
  lemma Executing(db: Db, e: Deenrollment, jobs: seq<Job>, key: Key, env: Unmanage.Surroundings)
    requires Stored(db) == Deenrolling(e, jobs) && e.status == DConfirmed && e.confirmedAt.Some? && OfThePlan(e)
    requires env.adapters == {2} && KeyUnused(jobs, Job(DeenrollRequest(0), 0, key, None, Preflight, None))
    ensures Unmanage.ExecuteScript(db, 0, Unmanage.ExecuteForm(true, 0, Some(key)), env).effects
      == [CreateJob(Job(DeenrollRequest(0), 0, key, None, Preflight, None))]
         + Unmanage.MutateScript(0, e, |jobs|, MANAGED_STATE.household, env).effects
  {
    Current(db, e, jobs);
    hide Unmanage.RebuildRefusal, Unmanage.Revalidation, Unmanage.MutateScript;
  }

  function Mutated(e: Deenrollment, j: JobId): Deenrollment {
    e.(status := DVerifying, job := Some(j), readback := Some(ABSENT), receipt := Some(CheckReceipt(j, None, 0)))
  }

  /** The effects between the new job and the stored verdict. */
  function Mutating(e: Deenrollment, j: JobId): seq<Action> {
    [MoveJob(j, Running, None), PutDeenrollment(0, e.(status := DProviderRunning, job := Some(j))), CallDeenroll(0, j),
     MoveJob(j, Verifying, Some(Noted)), PutDeenrollment(0, e.(status := DVerifying, job := Some(j))),
     PutDeenrollment(0, Mutated(e, j))]
  }

  lemma MutatingBegins(e: Deenrollment, j: JobId)
    requires OfThePlan(e)
    ensures var last := if e.expected.Some? then PutHousehold(ByDeenrollment(0), HouseholdState(e.expected.value, HOUSEHOLD.bindings))
                        else PutDeenrollment(0, Mutated(e, j).(status := DPendingApply, expected := Some(CLEARED)));
      Mutating(e, j) + [last] <= Unmanage.MutateScript(0, e, j, MANAGED_STATE.household, UNMANAGED).effects
  {
    Flipping();
    hide FlippedSnapshot;
  }

  lemma JobCreated(db: Db, e: Deenrollment, jobs: seq<Job>, job: Job)
    requires Stored(db) == Deenrolling(e, jobs)
    ensures Stored(Apply(db, CreateJob(job))) == Deenrolling(e, jobs + [job])
  {
  }

  lemma JobMoved(db: Db, e: Deenrollment, jobs: seq<Job>, job: Job, to: JobState, result: Option<JobResult>)
    requires Stored(db) == Deenrolling(e, jobs + [job])
    ensures Stored(Apply(db, MoveJob(|jobs|, to, result))) == Deenrolling(e, jobs + [Moved(job, to, result)])
  {
    assert (jobs + [job])[|jobs| := Moved(job, to, result)] == jobs + [Moved(job, to, result)];
  }

  lemma RecordStored(db: Db, e: Deenrollment, jobs: seq<Job>, f: Deenrollment, j: JobId)
    requires Stored(db) == Deenrolling(e, jobs)
    ensures Stored(Apply(db, PutDeenrollment(0, f))) == Deenrolling(f, jobs)
    ensures Stored(Apply(db, CallDeenroll(0, j))) == Deenrolling(e, jobs)
  {
  }

  lemma AfterMutation(db: Db, e: Deenrollment, jobs: seq<Job>, job: Job)
    requires Stored(db) == Deenrolling(e, jobs) && job.state == Preflight
    ensures Stored(Fold(db, [CreateJob(job)] + Mutating(e, |jobs|)))
      == Deenrolling(Mutated(e, |jobs|), jobs + [job.(state := Verifying, result := Some(Noted))])
  {
    FoldAppend(db, [CreateJob(job)], Mutating(e, |jobs|));
    FoldOne(db, CreateJob(job));
    JobCreated(db, e, jobs, job);
    Six(Apply(db, CreateJob(job)), Mutating(e, |jobs|));
    hide Fold, Apply, Stored, Deenrolling;
    var actions, running, verifying := Mutating(e, |jobs|), job.(state := Running), job.(state := Verifying, result := Some(Noted));
    var created := Apply(db, CreateJob(job));
    JobMoved(created, e, jobs, job, Running, None);
    var one := Apply(created, actions[0]);
    RecordStored(one, e, jobs + [running], actions[1].drecord, |jobs|);
    var two := Apply(one, actions[1]);
    RecordStored(two, actions[1].drecord, jobs + [running], actions[1].drecord, |jobs|);
    var three := Apply(two, actions[2]);
    JobMoved(three, actions[1].drecord, jobs, running, Verifying, Some(Noted));
    var four := Apply(three, actions[3]);
    RecordStored(four, actions[1].drecord, jobs + [verifying], actions[4].drecord, |jobs|);
    RecordStored(Apply(four, actions[4]), actions[4].drecord, jobs + [verifying], actions[5].drecord, |jobs|);
  }

  /** The eighth effect: the Household write if the plan holds an expectation, and the expectation if
      it does not. */
  function EighthEffect(e: Deenrollment, j: JobId): Action {
    if e.expected.Some? then PutHousehold(ByDeenrollment(0), HouseholdState(e.expected.value, HOUSEHOLD.bindings))
    else PutDeenrollment(0, Mutated(e, j).(status := DPendingApply, expected := Some(CLEARED)))
  }

  function DeathOf(e: Deenrollment, j: JobId, jobs: seq<Job>): Db {
    if e.expected.Some? then Deenrolling(Mutated(e, j), jobs).(household := HouseholdState(e.expected.value, HOUSEHOLD.bindings))
    else Deenrolling(Mutated(e, j).(status := DPendingApply, expected := Some(CLEARED)), jobs)
  }

  function DeenrollAndDie(key: Key): Arrival {
    Arrival(Deenroll(0, Unmanage.ExecuteForm(true, 0, Some(key)), UNMANAGED), 8)
  }

  lemma AfterEighth(db: Db, e: Deenrollment, j: JobId, jobs: seq<Job>)
    requires Stored(db) == Deenrolling(Mutated(e, j), jobs)
    ensures Stored(Apply(db, EighthEffect(e, j))) == DeathOf(e, j, jobs)
  {
  }

  lemma ExecutionEffects(db: Db, e: Deenrollment, jobs: seq<Job>, key: Key)
    requires Stored(db) == Deenrolling(e, jobs) && e.status == DConfirmed && e.confirmedAt.Some? && OfThePlan(e)
    requires KeyUnused(jobs, Job(DeenrollRequest(0), 0, key, None, Preflight, None))
    ensures var job := Job(DeenrollRequest(0), 0, key, None, Preflight, None);
      Take(Effects(db, DeenrollAndDie(key).request), 8) == [CreateJob(job)] + Mutating(e, |jobs|) + [EighthEffect(e, |jobs|)]
  {
    var job := Job(DeenrollRequest(0), 0, key, None, Preflight, None);
    Executing(db, e, jobs, key, UNMANAGED);
    MutatingBegins(e, |jobs|);
    hide Unmanage.MutateScript, Unmanage.ExecuteScript, Stored, OfThePlan, Mutating, KeyUnused, Take;
    Eight(job, e, |jobs|, EighthEffect(e, |jobs|), Unmanage.MutateScript(0, e, |jobs|, MANAGED_STATE.household, UNMANAGED).effects);
  }

  /** An execution that dies behind its eighth effect. */
  lemma AfterDeath(db: Db, e: Deenrollment, jobs: seq<Job>, key: Key)
    requires Stored(db) == Deenrolling(e, jobs) && e.status == DConfirmed && e.confirmedAt.Some? && OfThePlan(e)
    requires KeyUnused(jobs, Job(DeenrollRequest(0), 0, key, None, Preflight, None))
    ensures var job := Job(DeenrollRequest(0), 0, key, None, Verifying, Some(Noted));
      Stored(After(db, DeenrollAndDie(key))) == DeathOf(e, |jobs|, jobs + [job])
  {
    var job := Job(DeenrollRequest(0), 0, key, None, Preflight, None);
    ExecutionEffects(db, e, jobs, key);
    AfterMutation(db, e, jobs, job);
    hide Effects, Take, Fold, Apply, Mutating, EighthEffect, DeathOf, Stored;
    var first := [CreateJob(job)] + Mutating(e, |jobs|);
    FoldSnoc(db, first, EighthEffect(e, |jobs|));
    AfterEighth(Fold(db, first), e, |jobs|, jobs + [job.(state := Verifying, result := Some(Noted))]);
  }

  lemma Eight(job: Job, e: Deenrollment, j: JobId, last: Action, script: seq<Action>)
    requires Mutating(e, j) + [last] <= script
    ensures Take([CreateJob(job)] + script, 8) == [CreateJob(job)] + Mutating(e, j) + [last]
  {
  }

  // ----- the leftover expectation ---------------------------------------------------------

  /** The second execution uses the expectation the first one left over. */
  const LEFTOVER: seq<Arrival> := [
    PLAN_EXECUTION, START, PLAN_VERIFICATION, CONFIRM_VERIFICATION, PLAN_DEENROLLMENT, CONFIRM_DEENROLLMENT,
    DeenrollAndDie(12), CONFIRM_DEENROLLMENT, DeenrollAndDie(13)]

  lemma UpToManaged(init: Db, dbs: seq<Db>, arrivals: seq<Arrival>)
    requires History(init, dbs, arrivals) && Stored(dbs[0]) == EMPTY && |arrivals| >= 4
    requires arrivals[..4] == [PLAN_EXECUTION, START, PLAN_VERIFICATION, CONFIRM_VERIFICATION]
    ensures |dbs| == |arrivals| + 1 && Stored(dbs[4]) == MANAGED_STATE
  {
    hide History, After, Stored;
    assert forall i :: 0 <= i < 4 ==> arrivals[i] == arrivals[..4][i];
    Next(init, dbs, arrivals, 0);
    AfterPlanning(dbs[0]);
    Next(init, dbs, arrivals, 1);
    AfterStart(dbs[1]);
    Next(init, dbs, arrivals, 2);
    AfterVerificationPlanned(dbs[2]);
    Next(init, dbs, arrivals, 3);
    AfterVerification(dbs[3]);
  }

  lemma LeftoverHistory(init: Db, dbs: seq<Db>)
    requires History(init, dbs, LEFTOVER) && Stored(dbs[0]) == EMPTY
    ensures Interrupted.Stuck(dbs[9], 0) && dbs[9].household.snapshot == CLEARED
  {
    hide History, After, Stored;
    var jobs := MANAGED_STATE.jobs;
    UpToManaged(init, dbs, LEFTOVER);
    Next(init, dbs, LEFTOVER, 4);
    AfterDeenrollmentPlanned(dbs[4]);
    Next(init, dbs, LEFTOVER, 5);
    AfterConfirmation(dbs[5], DEENROLLMENT, jobs);
    Next(init, dbs, LEFTOVER, 6);
    AfterDeath(dbs[6], CONFIRMED, jobs, 12);
    Next(init, dbs, LEFTOVER, 7);
    var once := jobs + [DEENROLL_JOB];
    AfterConfirmation(dbs[7], PENDING, once);
    Next(init, dbs, LEFTOVER, 8);
    AfterDeath(dbs[8], PENDING.(status := DConfirmed), once, 13);
    var twice := once + [DEENROLL_JOB.(key := 13)];
    EndOfLeftover(dbs[9], PENDING.(status := DConfirmed), twice);
  }

  lemma EndOfLeftover(db: Db, e: Deenrollment, jobs: seq<Job>)
    requires e.expected == Some(CLEARED) && e.base == MANAGED && Stored(db) == DeathOf(e, 3, jobs)
    ensures Interrupted.Stuck(db, 0) && db.household.snapshot == CLEARED
  {
  }

  /** These requests are served, and the last de-enrollment stays `verifying` for ever. */
  method LeaveLeftover() returns (store: Store)
    ensures fresh(store) && store.Valid() && Interrupted.Stuck(store.db, 0) && store.db.household.snapshot == CLEARED
  {
    hide History, Interrupted.Stuck;
    ghost var dbs;
    store, dbs := ServeAll(HOUSEHOLD, LEFTOVER);
    assert Stored(dbs[0]) == EMPTY;
    LeftoverHistory(store.initial, dbs);
  }

  // ----- the envelope without an expectation ----------------------------------------------

  /** The provider's answer is ambiguous, and the reconciliation dies when the envelope has just been
      marked as pending. */
  const UNEXPECTED: seq<Arrival> := [
    PLAN_EXECUTION, START, PLAN_VERIFICATION, CONFIRM_VERIFICATION, PLAN_DEENROLLMENT, CONFIRM_DEENROLLMENT,
    DEENROLL_AMBIGUOUSLY, RECONCILE_AND_DIE]

  const RECONCILE_JOB := Job(ReconcileRequest(0), 0, 13, None, Verifying, Some(Noted))
  const AMBIGUOUS := [
    MoveJob(2, Running, None), PutDeenrollment(0, CONFIRMED.(status := DProviderRunning, job := Some(2))), CallDeenroll(0, 2),
    MoveJob(2, Failed, Some(Noted)), PutDeenrollment(0, UNRECONCILED)]
  const RECONCILING := [
    CreateJob(RECONCILE_JOB.(state := Preflight, result := None)), MoveJob(3, Running, None), MoveJob(3, Verifying, Some(Noted)),
    PutDeenrollment(0, PENDING.(job := Some(3), receipt := Some(CheckReceipt(3, None, 0)), expected := None))]

  lemma Ambiguity()
    ensures Unmanage.MutateScript(0, CONFIRMED, 2, MANAGED_STATE.household, UNMANAGED.(mutation := MutationAmbiguous)).effects == AMBIGUOUS
  {
  }

  lemma AmbiguousEffects(db: Db)
    requires Stored(db) == Deenrolling(CONFIRMED, MANAGED_STATE.jobs)
    ensures Effects(db, DEENROLL_AMBIGUOUSLY.request) == [CreateJob(DEENROLL_JOB.(state := Preflight, result := None))] + AMBIGUOUS
  {
    Executing(db, CONFIRMED, MANAGED_STATE.jobs, 12, UNMANAGED.(mutation := MutationAmbiguous));
    Ambiguity();
    hide Unmanage.MutateScript, Unmanage.ExecuteScript, Stored, OfThePlan, Apply, Fold;
  }

  lemma AfterAmbiguity(db: Db)
    requires Stored(db) == Deenrolling(CONFIRMED, MANAGED_STATE.jobs)
    ensures Stored(After(db, DEENROLL_AMBIGUOUSLY)) == Deenrolling(UNRECONCILED, MANAGED_STATE.jobs + [DEENROLL_JOB.(state := Failed)])
  {
    AmbiguousEffects(db);
    hide Effects, Fold;
    var job, jobs := DEENROLL_JOB.(state := Preflight, result := None), MANAGED_STATE.jobs;
    Six(db, [CreateJob(job)] + AMBIGUOUS);
    JobCreated(db, CONFIRMED, jobs, job);
    hide Apply, Stored, Deenrolling;
    var created := Apply(db, CreateJob(job));
    JobMoved(created, CONFIRMED, jobs, job, Running, None);
    var one := Apply(created, AMBIGUOUS[0]);
    var running := job.(state := Running);
    RecordStored(one, CONFIRMED, jobs + [running], AMBIGUOUS[1].drecord, |jobs|);
    var two := Apply(one, AMBIGUOUS[1]);
    RecordStored(two, AMBIGUOUS[1].drecord, jobs + [running], AMBIGUOUS[1].drecord, |jobs|);
    var three := Apply(two, AMBIGUOUS[2]);
    JobMoved(three, AMBIGUOUS[1].drecord, jobs, running, Failed, Some(Noted));
    RecordStored(Apply(three, AMBIGUOUS[3]), AMBIGUOUS[1].drecord, jobs + [DEENROLL_JOB.(state := Failed)], UNRECONCILED, |jobs|);
  }

  lemma ReconcilingEffects(db: Db, jobs: seq<Job>)
    requires Stored(db) == Deenrolling(UNRECONCILED, jobs) && |jobs| == 3
    requires KeyUnused(jobs, RECONCILE_JOB.(state := Preflight, result := None))
    ensures RECONCILING <= Effects(db, RECONCILE_AND_DIE.request)
  {
    Current(db, UNRECONCILED, jobs);
    Flipping();
    assert RECONCILING[2..] <= Unmanage.ExamineScript(0, UNRECONCILED, 3, MANAGED_STATE.household, UNMANAGED).effects;
    hide Unmanage.RebuildRefusal, Unmanage.Revalidation, Unmanage.ExamineScript, OfThePlan, Apply, Fold, FlippedSnapshot;
    assert Unmanage.ReconcileScript(db, 0, Unmanage.ExecuteForm(true, 0, Some(13)), UNMANAGED).effects
      == RECONCILING[..2] + Unmanage.ExamineScript(0, UNRECONCILED, 3, MANAGED_STATE.household, UNMANAGED).effects;
  }

  lemma AfterReconciliation(db: Db, jobs: seq<Job>)
    requires Stored(db) == Deenrolling(UNRECONCILED, jobs) && |jobs| == 3
    requires KeyUnused(jobs, RECONCILE_JOB.(state := Preflight, result := None))
    ensures Stored(After(db, RECONCILE_AND_DIE)) == Deenrolling(RECONCILING[3].drecord, jobs + [RECONCILE_JOB])
  {
    ReconcilingEffects(db, jobs);
    hide Effects, Fold;
    assert Take(Effects(db, RECONCILE_AND_DIE.request), 4) == RECONCILING;
    Four(db, RECONCILING);
  }

  /** Anyone's reconciliation refuses what is left behind. */
  lemma UnexpectedHistory(init: Db, dbs: seq<Db>, actor: Actor, form: Unmanage.ExecuteForm, env: Unmanage.Surroundings)
    requires History(init, dbs, UNEXPECTED) && Stored(dbs[0]) == EMPTY && Interrupted.WellFormed(form, 0)
    ensures 0 in dbs[8].deenrollments && dbs[8].deenrollments[0].status == DPendingApply
    ensures Unmanage.ReconcileScript(dbs[8], actor, form, env) == Refuse(StateInvalid)
  {
    hide History, After, Stored, Unmanage.ReconcileScript, Unmanage.RebuildRefusal, Interrupted.WellFormed;
    var jobs := MANAGED_STATE.jobs;
    UpToManaged(init, dbs, UNEXPECTED);
    Next(init, dbs, UNEXPECTED, 4);
    AfterDeenrollmentPlanned(dbs[4]);
    Next(init, dbs, UNEXPECTED, 5);
    AfterConfirmation(dbs[5], DEENROLLMENT, jobs);
    Next(init, dbs, UNEXPECTED, 6);
    AfterAmbiguity(dbs[6]);
    Next(init, dbs, UNEXPECTED, 7);
    var failed := jobs + [DEENROLL_JOB.(state := Failed)];
    AfterReconciliation(dbs[7], failed);
    EndOfUnexpected(dbs[8], RECONCILING[3].drecord, failed + [RECONCILE_JOB]);
    Interrupted.PendingFinishedIff(dbs[8], 0, actor, form, env);
  }

  /** These requests are served, and reconciliation refuses the envelope that is left. */
  method LeaveUnexpected() returns (store: Store)
    ensures fresh(store) && store.Valid()
    ensures forall actor, form, env :: Interrupted.WellFormed(form, 0) ==>
      Unmanage.ReconcileScript(store.db, actor, form, env) == Refuse(StateInvalid)
  {
    hide History, Unmanage.ReconcileScript, Interrupted.WellFormed;
    ghost var dbs;
    store, dbs := ServeAll(HOUSEHOLD, UNEXPECTED);
    assert Stored(dbs[0]) == EMPTY;
    forall actor, form, env | Interrupted.WellFormed(form, 0)
      ensures Unmanage.ReconcileScript(dbs[8], actor, form, env) == Refuse(StateInvalid)
    {
      UnexpectedHistory(store.initial, dbs, actor, form, env);
    }
  }

  lemma EndOfUnexpected(db: Db, e: Deenrollment, jobs: seq<Job>)
    requires Stored(db) == Deenrolling(e, jobs) && OfThePlan(e)
    ensures 0 in db.deenrollments && db.deenrollments[0] == e && |db.jobs| == |jobs| && Unmanage.RebuildRefusal(db, e).None?
  {
    Current(db, e, jobs);
  }

  // ----- the stranded copy ----------------------------------------------------------------

  /** Two verifications of one execution, and a cleanup after the first, which was rejected. */
  const STRANDING: seq<Arrival> := [
    PLAN_EXECUTION, START, PLAN_VERIFICATION, PLAN_ANOTHER, CONFIRM_IN_VAIN, PLAN_CLEANUP, VERIFY_CLEANUP, EXECUTE_CLEANUP]

  const REJECTION := CheckReceipt(1, Some(NotEnrolledReason), 0)
  const REJECTED := VERIFICATION.(status := VRejected, job := Some(1), readback := Some(NOT_ENROLLED.answer.result),
    receipt := Some(REJECTION))
  const CLEANUP := Cleanup(0, 0, Target(2, 3, 7, 1), 1, 60, HOUSEHOLD.snapshot, HOUSEHOLD.bindings, REJECTION, CPlanned, None, None)
  const CLEANUP_VERIFY_JOB := Job(CleanupVerifyRequest(0), 0, 12, None, Succeeded, Some(Noted))
  const CLEANUP_JOB := Job(CleanupExecuteRequest(0), 0, 13, None, Preflight, None, Token)
  const TWICE := ENROLLED.(verifications := map[0 := VERIFICATION, 1 := ANOTHER])
  const FAILED := TWICE.(verifications := map[0 := REJECTED, 1 := ANOTHER], jobs := [START_JOB, VERIFY_JOB.(state := Failed)])

  function Cleaning(e: Cleanup, jobs: seq<Job>): Db {
    FAILED.(cleanups := map[0 := e], jobs := FAILED.jobs + jobs)
  }

  lemma AfterAnotherPlanned(db: Db)
    requires Stored(db) == VERIFIABLE
    ensures Stored(After(db, PLAN_ANOTHER)) == TWICE
  {
    assert Effects(db, PLAN_ANOTHER.request) == [PutVerification(1, ANOTHER)];
    FoldOne(db, PutVerification(1, ANOTHER));
    assert map[0 := VERIFICATION][1 := ANOTHER] == map[0 := VERIFICATION, 1 := ANOTHER];
  }

  lemma ReadingInVain()
    ensures Verify.ReadBackScript(0, VERIFICATION, 1, HOUSEHOLD, NOT_ENROLLED).effects
      == VERIFY_FIRST[2..] + [PutVerification(0, REJECTED), MoveJob(1, Failed, Some(Noted))]
  {
  }

  lemma InVainEffects(db: Db)
    requires Stored(db) == TWICE
    ensures Effects(db, CONFIRM_IN_VAIN.request) == VERIFY_FIRST + [PutVerification(0, REJECTED), MoveJob(1, Failed, Some(Noted))]
  {
    ReadingInVain();
    hide Apply, Fold, Verify.ReadBackScript;
    assert Verify.ConfirmScript(db, 0, Verify.ConfirmForm(true, 0, Some(11)), NOT_ENROLLED).effects
      == VERIFY_FIRST[..2] + Verify.ReadBackScript(0, VERIFICATION, 1, HOUSEHOLD, NOT_ENROLLED).effects;
  }

  const IN_VAIN := TWICE.(verifications := map[0 := VERIFICATION.(status := VRunning, job := Some(1)), 1 := ANOTHER],
    jobs := [START_JOB, VERIFY_JOB.(state := Verifying)])

  lemma AfterVerdict(db: Db)
    requires Stored(db) == IN_VAIN
    ensures Stored(Fold(db, [PutVerification(0, REJECTED), MoveJob(1, Failed, Some(Noted))])) == FAILED
  {
    Two(db, [PutVerification(0, REJECTED), MoveJob(1, Failed, Some(Noted))]);
  }

  lemma AfterRejection(db: Db)
    requires Stored(db) == TWICE
    ensures Stored(After(db, CONFIRM_IN_VAIN)) == FAILED
  {
    var last := [PutVerification(0, REJECTED), MoveJob(1, Failed, Some(Noted))];
    InVainEffects(db);
    hide Effects, Fold, Apply;
    FoldAppend(db, VERIFY_FIRST, last);
    AfterReadBack(db, TWICE);
    hide Stored;
    assert TWICE.verifications[0 := IN_VAIN.verifications[0]] == IN_VAIN.verifications;
    AfterVerdict(Fold(db, VERIFY_FIRST));
  }

  lemma AfterCleanupPlanned(db: Db)
    requires Stored(db) == FAILED
    ensures Stored(After(db, PLAN_CLEANUP)) == Cleaning(CLEANUP, [])
  {
    assert Effects(db, PLAN_CLEANUP.request) == [PutCleanup(0, CLEANUP)];
    FoldOne(db, PutCleanup(0, CLEANUP));
    assert map[][0 := CLEANUP] == map[0 := CLEANUP] && FAILED.jobs + [] == FAILED.jobs;
  }

  const AUTHORIZED := CLEANUP.(status := CAuthorized, readback := Some(ABSENT))

  const CLEANUP_VERIFY_EFFECTS := [
    CreateJob(CLEANUP_VERIFY_JOB.(state := Preflight, result := None)), MoveJob(2, Running, None),
    MoveJob(2, Verifying, Some(Noted)), MoveJob(2, Succeeded, None)]

  lemma CleanupVerifyEffects(db: Db)
    requires Stored(db) == Cleaning(CLEANUP, [])
    ensures Effects(db, VERIFY_CLEANUP.request) == CLEANUP_VERIFY_EFFECTS + [PutCleanup(0, AUTHORIZED)]
  {
    assert Clean.VerifyRefusal(db, 0, CLEANUP).None?;
    assert Clean.JudgeScript(0, CLEANUP, 2, CLEANED).effects == CLEANUP_VERIFY_EFFECTS[2..] + [PutCleanup(0, AUTHORIZED)];
    hide Clean.VerifyRefusal, Clean.JudgeScript, Apply, Fold;
  }

  lemma AfterCleanupVerified(db: Db)
    requires Stored(db) == Cleaning(CLEANUP, [])
    ensures Stored(After(db, VERIFY_CLEANUP)) == Cleaning(AUTHORIZED, [CLEANUP_VERIFY_JOB])
  {
    CleanupVerifyEffects(db);
    hide Effects, Fold;
    FoldAppend(db, CLEANUP_VERIFY_EFFECTS, [PutCleanup(0, AUTHORIZED)]);
    Four(db, CLEANUP_VERIFY_EFFECTS);
    FoldOne(Fold(db, CLEANUP_VERIFY_EFFECTS), PutCleanup(0, AUTHORIZED));
  }

  const CLEANUP_EFFECTS := [
    CreateJob(CLEANUP_JOB), MoveJob(3, Running, None), ScrubArtifact(0, 0), MoveJob(3, Verifying, Some(Noted)),
    MoveJob(3, Succeeded, None), PutCleanup(0, AUTHORIZED.(completed := Some(CleanupReceipt(3, Token))))]

  lemma CleanupMayRun(db: Db)
    requires Stored(db) == Cleaning(AUTHORIZED, [CLEANUP_VERIFY_JOB])
    ensures Clean.AuthorityRefusal(db, 0, 0, AUTHORIZED, CLEANED).None?
    ensures Clean.ReadSource(db, AUTHORIZED) == Success(Clean.Source(Token, true))
    ensures db.cleanups == map[0 := AUTHORIZED] && |db.jobs| == 3
    ensures FindKey(db.jobs, CLEANUP_JOB).None?
  {
  }

  lemma CleanupEffects(db: Db)
    requires Stored(db) == Cleaning(AUTHORIZED, [CLEANUP_VERIFY_JOB])
    ensures Effects(db, EXECUTE_CLEANUP.request) == CLEANUP_EFFECTS
  {
    CleanupMayRun(db);
    hide Stored, Cleaning, FindKey, Clean.ExecuteScript, Clean.AuthorityRefusal, Clean.ReadSource, Effects;
    CleanupScript(db);
    OfCleanup(db, EXECUTE_CLEANUP.request.actor, EXECUTE_CLEANUP.request.run, EXECUTE_CLEANUP.request.around);
  }

  lemma OfCleanup(db: Db, actor: Actor, form: Clean.RunForm, env: Clean.Surroundings)
    ensures Effects(db, ExecuteCleanup(actor, form, env)) == Clean.ExecuteScript(db, actor, form, env).effects
  {
    hide Clean.ExecuteScript;
  }

  lemma CleanupScript(db: Db)
    requires db.cleanups == map[0 := AUTHORIZED] && |db.jobs| == 3 && FindKey(db.jobs, CLEANUP_JOB).None?
    requires Clean.AuthorityRefusal(db, 0, 0, AUTHORIZED, CLEANED).None?
    requires Clean.ReadSource(db, AUTHORIZED) == Success(Clean.Source(Token, true))
    ensures Clean.ExecuteScript(db, 0, Clean.RunForm(true, 0, Some(13)), CLEANED).effects == CLEANUP_EFFECTS
  {
    hide Clean.AuthorityRefusal, Clean.ReadSource, FindKey;
  }

  /** The other two copies are gone. */
  predicate Scrubbed(s: Db) {
    && s.executions == map[0 := Execution(PLAN, Accepted, Some(RECEIPT.(artifact := None)), None)]
    && s.verifications.Keys == {0, 1} && s.verifications[1] == ANOTHER
    && |s.jobs| == 4 && s.jobs[0] == START_JOB.(result := Some(ProviderAccepted(ACCEPTED.(artifact := None))))
    && s.cleanups.Keys == {0}
  }

  lemma AfterScrub(db: Db)
    requires Stored(db) == Cleaning(AUTHORIZED, [CLEANUP_VERIFY_JOB])
    ensures Scrubbed(Apply(Apply(Apply(db, CreateJob(CLEANUP_JOB)), MoveJob(3, Running, None)), ScrubArtifact(0, 0)))
  {
  }

  lemma StaysScrubbed(db: Db, to: JobState, result: Option<JobResult>, e: Cleanup)
    requires Scrubbed(db)
    ensures Scrubbed(Apply(db, MoveJob(3, to, result))) && Scrubbed(Apply(db, PutCleanup(0, e)))
  {
  }

  lemma AfterCleanup(db: Db)
    requires Stored(db) == Cleaning(AUTHORIZED, [CLEANUP_VERIFY_JOB])
    ensures CleanupSafety.Stranded(After(db, EXECUTE_CLEANUP), 1)
  {
    CleanupEffects(db);
    Six(db, CLEANUP_EFFECTS);
    AfterScrub(db);
    hide Effects, Fold, Apply, Scrubbed;
    var done := CLEANUP_EFFECTS[5].crecord;
    var after := Apply(Apply(Apply(db, CreateJob(CLEANUP_JOB)), MoveJob(3, Running, None)), ScrubArtifact(0, 0));
    StaysScrubbed(after, Verifying, Some(Noted), done);
    var later := Apply(after, MoveJob(3, Verifying, Some(Noted)));
    StaysScrubbed(later, Succeeded, None, done);
    StaysScrubbed(Apply(later, MoveJob(3, Succeeded, None)), Succeeded, None, done);
    ScrubbedStrands(After(db, EXECUTE_CLEANUP));
  }

  lemma ScrubbedStrands(db: Db)
    requires Scrubbed(db)
    ensures CleanupSafety.Stranded(db, 1)
  {
  }

  lemma StrandingHistory(init: Db, dbs: seq<Db>)
    requires History(init, dbs, STRANDING) && Stored(dbs[0]) == EMPTY
    ensures CleanupSafety.Stranded(dbs[8], 1)
  {
    hide History, After, Stored, CleanupSafety.Stranded;
    Next(init, dbs, STRANDING, 0);
    AfterPlanning(dbs[0]);
    Next(init, dbs, STRANDING, 1);
    AfterStart(dbs[1]);
    Next(init, dbs, STRANDING, 2);
    AfterVerificationPlanned(dbs[2]);
    Next(init, dbs, STRANDING, 3);
    AfterAnotherPlanned(dbs[3]);
    Next(init, dbs, STRANDING, 4);
    AfterRejection(dbs[4]);
    Next(init, dbs, STRANDING, 5);
    AfterCleanupPlanned(dbs[5]);
    Next(init, dbs, STRANDING, 6);
    AfterCleanupVerified(dbs[6]);
    Next(init, dbs, STRANDING, 7);
    AfterCleanup(dbs[7]);
  }

  /** These requests are served, none dies, and a copy of the reference is left that no cleanup removes. */
  method StrandCopy() returns (store: Store)
    ensures fresh(store) && store.Valid() && CleanupSafety.Stranded(store.db, 1)
  {
    hide History, CleanupSafety.Stranded;
    ghost var dbs;
    store, dbs := ServeAll(HOUSEHOLD, STRANDING);
    assert Stored(dbs[0]) == EMPTY;
    StrandingHistory(store.initial, dbs);
  }
}
