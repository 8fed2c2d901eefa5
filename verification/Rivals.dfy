/**
  A history with two pending verifications over one Household: each confirmation is abandoned when
  it has just stored its expectation, by an exception of the store, and no process starts in between.
 */
module Rivals {
  import opened Wrappers
  import opened Records
  import opened Protocol
  import opened DurableStore
  import opened Scripts
  import opened Lifecycle
  import opened Scenarios
  import Enroll = EnrollmentRuntime
  import Verify = PostConditionRuntime
  import Recovery = PostConditionRecovery

  // ----- what arrives ---------------------------------------------------------------------

  const TWO_DEVICES := HouseholdState(
    Snapshot(Household([Member(1, true)], [Device(7, 1, 0, false), Device(8, 1, 1, false)]), 1, None), [ActorBinding(0, 1)])

  function PlanOf(i: nat): ExecutionPlan {
    ExecutionPlan(2, 7 + i, 1, 1, TWO_DEVICES.snapshot, 60, NoArtifact)
  }

  function BindingOf(i: nat): PostBinding {
    PostBinding(i, 2, 3 + i, 7 + i, 1, 1)
  }

  function Planning(i: nat): Arrival {
    Arrival(PlanExecution(i, PlanOf(i), None), 99)
  }

  function Starting(i: nat): Arrival {
    Arrival(Start(0, Enroll.StartForm(true, i, Some(10 + i)),
                  Enroll.Surroundings({2}, true, Some(0), Answered(Some(StartResult(3 + i, None))), true)), 99)
  }

  function PlanningVerification(i: nat): Arrival {
    Arrival(PlanVerification(0, i, Verify.PlanForm(true, i, 60, SIGNALS)), 99)
  }

  function Answer(i: nat): Verify.Surroundings {
    Verify.Surroundings({2}, true, ReadResult(PostResult(BindingOf(i), 0, PostVerified, SIGNALS)), true, 0)
  }

  /** Abandoned behind the stored expectation. */
  function Confirming(i: nat): Arrival {
    Arrival(ConfirmVerification(0, Verify.ConfirmForm(true, i, Some(20 + i)), Answer(i)), 8)
  }

  const RIVALRY: seq<Arrival> := [
    Planning(0), Starting(0), Planning(1), Starting(1), PlanningVerification(0), PlanningVerification(1),
    Confirming(0), Confirming(1)]

  // ----- what is then stored --------------------------------------------------------------

  function StartJob(i: nat): Job {
    Job(StartRequest(i, None), 0, 10 + i, None, Succeeded, Some(ProviderAccepted(StartResult(3 + i, None))))
  }

  function Receipt(i: nat): StartReceipt {
    StartReceipt(i, None, i, 2, 3 + i, 7 + i, 1, None)
  }

  function Planned(i: nat): Execution {
    Execution(PlanOf(i), ExecutionStatus.Planned, None, None)
  }

  function Enrolled(i: nat): Execution {
    Execution(PlanOf(i), Accepted, Some(Receipt(i)), None)
  }

  function Verifiable(i: nat): Verification {
    Verification(1, PostRequest(BindingOf(i), 60, SIGNALS), Receipt(i), TWO_DEVICES.snapshot, TWO_DEVICES.bindings,
                 VPlanned, None, None, None, None)
  }

  function Managed(i: nat): Snapshot {
    Replacement(TWO_DEVICES.snapshot, Household([Member(1, true)], [Device(7, 1, 0, i == 0), Device(8, 1, 1, i == 1)]))
  }

  function Awaiting(i: nat): Verification {
    Verifiable(i).(status := VPendingApply, job := Some(2 + i), readback := Some(Answer(i).answer.result),
                   receipt := Some(CheckReceipt(2 + i, None, 0)), expected := Some(Managed(i)))
  }

  function VerifyJob(i: nat): Job {
    Job(VerifyRequest(i), 0, 20 + i, None, JobState.Verifying, Some(Noted))
  }

  const NOTHING := Db(TWO_DEVICES, map[], map[], map[], map[], [], [])

  // ----- one arrival after another --------------------------------------------------------

  lemma AfterPlan(db: Db, s: Db, i: nat)
    requires Stored(db) == s && i !in s.executions
    ensures Stored(After(db, Planning(i))) == s.(executions := s.executions[i := Planned(i)])
  {
    assert Effects(db, Planning(i).request) == [PutExecution(i, Planned(i))];
    FoldOne(db, PutExecution(i, Planned(i)));
  }

  function StartEffects(i: nat): seq<Action> {
    [CreateJob(StartJob(i).(state := Preflight, result := None)), MoveJob(i, Running, None),
     CallStart(i, 0, Answered(Some(StartResult(3 + i, None)))), MoveJob(i, JobState.Verifying, StartJob(i).result),
     MoveJob(i, Succeeded, None), PutExecution(i, Enrolled(i))]
  }

  lemma StartingDoes(db: Db, i: nat)
    requires i in db.executions && db.executions[i] == Planned(i) && db.household == TWO_DEVICES && |db.jobs| == i
    requires Enroll.StartJobs(db.jobs, i) == [] && KeyUnused(db.jobs, StartJob(i).(state := Preflight, result := None))
    ensures Effects(db, Starting(i).request) == StartEffects(i)
  {
    assert Enroll.StartScript(db, 0, Enroll.StartForm(true, i, Some(10 + i)), Starting(i).request.met).effects == StartEffects(i);
    hide Enroll.StartScript, Apply, Fold;
  }

  lemma StartFolds(db: Db, s: Db, i: nat)
    requires Stored(db) == s && |s.jobs| == i
    ensures Stored(Fold(db, StartEffects(i))) == s.(executions := s.executions[i := Enrolled(i)], jobs := s.jobs + [StartJob(i)])
  {
    Six(db, StartEffects(i));
  }

  lemma AfterStarting(db: Db, s: Db, i: nat)
    requires Stored(db) == s && i in s.executions && s.executions[i] == Planned(i) && s.household == TWO_DEVICES && |s.jobs| == i
    requires Enroll.StartJobs(s.jobs, i) == [] && KeyUnused(s.jobs, StartJob(i).(state := Preflight, result := None))
    ensures Stored(After(db, Starting(i))) == s.(executions := s.executions[i := Enrolled(i)], jobs := s.jobs + [StartJob(i)])
  {
    StartingDoes(db, i);
    StartFolds(db, s, i);
    assert |StartEffects(i)| == 6;
    hide Effects, Fold, Stored, StartEffects;
  }

  /** Both enrollments are accepted. */
  predicate BothEnrolled(s: Db) {
    && s.household == TWO_DEVICES && s.executions.Keys == {0, 1}
    && s.executions[0] == Enrolled(0) && s.executions[1] == Enrolled(1)
  }

  lemma AfterVerifiable(db: Db, s: Db, i: nat)
    requires Stored(db) == s && BothEnrolled(s) && i < 2 && i !in s.verifications
    ensures Stored(After(db, PlanningVerification(i))) == s.(verifications := s.verifications[i := Verifiable(i)])
  {
    VerificationPlanned(db, i);
    hide Effects, BothEnrolled;
    FoldOne(db, PutVerification(i, Verifiable(i)));
  }

  lemma VerificationPlanned(db: Db, i: nat)
    requires i < 2 && i in db.executions && db.executions[i] == Enrolled(i) && db.household == TWO_DEVICES && i !in db.verifications
    ensures Effects(db, PlanningVerification(i).request) == [PutVerification(i, Verifiable(i))]
  {
    assert Verify.PlanScript(db, 0, i, Verify.PlanForm(true, i, 60, SIGNALS)).effects == [PutVerification(i, Verifiable(i))];
    hide Verify.PlanScript;
  }

  lemma Flips(i: nat)
    requires i < 2
    ensures FlippedSnapshot(TWO_DEVICES.snapshot, 7 + i, 1, true) == Success(Managed(i))
  {
    assert WithManaged([Device(7, 1, 0, false), Device(8, 1, 1, false)], 7 + i, true)
      == [Device(7, 1, 0, i == 0), Device(8, 1, 1, i == 1)];
  }

  function Beginning(i: nat): seq<Action> {
    [ConsumeStepUp(VerificationScope(i)), CreateJob(VerifyJob(i).(state := Preflight, result := None))]
  }

  function ReadingBack(i: nat): seq<Action> {
    [PutVerification(i, Verifiable(i).(status := VRunning, job := Some(2 + i))), MoveJob(2 + i, Running, None), CallReadBack(i, 2 + i),
     MoveJob(2 + i, JobState.Verifying, Some(Noted)), PutVerification(i, Awaiting(i).(status := VVerified, expected := None)),
     PutVerification(i, Awaiting(i))]
  }

  lemma ReadBackBegins(i: nat)
    requires i < 2
    ensures ReadingBack(i) <= Verify.ReadBackScript(i, Verifiable(i), 2 + i, TWO_DEVICES, Answer(i)).effects
  {
    Flips(i);
    hide FlippedSnapshot;
  }

  lemma ConfirmingDoes(db: Db, s: Db, i: nat)
    requires Stored(db) == s && BothEnrolled(s) && i < 2 && |s.jobs| == 2 + i && i in s.verifications && s.verifications[i] == Verifiable(i)
    requires KeyUnused(s.jobs, VerifyJob(i).(state := Preflight, result := None))
    ensures Take(Effects(db, Confirming(i).request), 8) == Beginning(i) + ReadingBack(i)
  {
    ReadBackBegins(i);
    var script := Verify.ReadBackScript(i, Verifiable(i), 2 + i, TWO_DEVICES, Answer(i));
    ConfirmBegins(db, i);
    OfConfirmation(db, 0, Confirming(i).request.confirm, Answer(i));
    hide Verify.ReadBackScript, Verify.ConfirmScript, BothEnrolled, Stored, KeyUnused, Effects;
    FirstEight(Beginning(i), ReadingBack(i), script.effects);
  }

  lemma OfConfirmation(db: Db, actor: Actor, form: Verify.ConfirmForm, env: Verify.Surroundings)
    ensures Effects(db, ConfirmVerification(actor, form, env)) == Verify.ConfirmScript(db, actor, form, env).effects
  {
    hide Verify.ConfirmScript;
  }

  lemma FirstEight(first: seq<Action>, middle: seq<Action>, script: seq<Action>)
    requires |first| == 2 && |middle| == 6 && middle <= script
    ensures Take(first + script, 8) == first + middle
  {
  }

  lemma ConfirmBegins(db: Db, i: nat)
    requires i < 2 && i in db.executions && db.executions[i] == Enrolled(i) && db.household == TWO_DEVICES && |db.jobs| == 2 + i
    requires i in db.verifications && db.verifications[i] == Verifiable(i)
    requires KeyUnused(db.jobs, VerifyJob(i).(state := Preflight, result := None))
    ensures Verify.ConfirmScript(db, 0, Verify.ConfirmForm(true, i, Some(20 + i)), Answer(i)).effects
      == Beginning(i) + Verify.ReadBackScript(i, Verifiable(i), 2 + i, TWO_DEVICES, Answer(i)).effects
  {
    assert TWO_DEVICES.snapshot.household.members[0] == Member(1, true);
    hide Verify.ReadBackScript;
  }

  lemma AfterBeginning(db: Db, s: Db, i: nat)
    requires Stored(db) == s
    ensures Stored(Fold(db, Beginning(i))) == s.(jobs := s.jobs + [VerifyJob(i).(state := Preflight, result := None)])
  {
    Two(db, Beginning(i));
  }

  lemma JobMoved(db: Db, s: Db, j: JobId, to: JobState, result: Option<JobResult>)
    requires Stored(db) == s && j < |s.jobs|
    ensures Stored(Apply(db, MoveJob(j, to, result))) == s.(jobs := s.jobs[j := Moved(s.jobs[j], to, result)])
  {
  }

  lemma RecordStored(db: Db, s: Db, v: VerificationId, e: Verification, j: JobId)
    requires Stored(db) == s
    ensures Stored(Apply(db, PutVerification(v, e))) == s.(verifications := s.verifications[v := e])
    ensures Stored(Apply(db, CallReadBack(v, j))) == s
  {
  }

  /** The record after the four effects up to the read-back. */
  function Reading(i: nat): Verification {
    Verifiable(i).(status := VRunning, job := Some(2 + i))
  }

  lemma AfterFour(db: Db, s: Db, i: nat)
    requires Stored(db) == s && |s.jobs| == 3 + i && s.jobs[2 + i] == VerifyJob(i).(state := Preflight, result := None)
    ensures Stored(Fold(db, ReadingBack(i)[..4]))
      == s.(verifications := s.verifications[i := Reading(i)], jobs := s.jobs[2 + i := VerifyJob(i)])
  {
    var j := 2 + i;
    var effects := ReadingBack(i)[..4];
    Four(db, effects);
    hide Fold, Apply, Stored;
    var running := s.jobs[j].(state := Running);
    RecordStored(db, s, i, Reading(i), j);
    var one, s1 := Apply(db, effects[0]), s.(verifications := s.verifications[i := Reading(i)]);
    JobMoved(one, s1, j, Running, None);
    var two, s2 := Apply(one, effects[1]), s1.(jobs := s.jobs[j := running]);
    RecordStored(two, s2, i, Reading(i), j);
    JobMoved(Apply(two, effects[2]), s2, j, JobState.Verifying, Some(Noted));
    assert s.jobs[j := running][j := VerifyJob(i)] == s.jobs[j := VerifyJob(i)];
  }

  lemma AfterTwo(db: Db, s: Db, i: nat)
    requires Stored(db) == s
    ensures Stored(Fold(db, ReadingBack(i)[4..])) == s.(verifications := s.verifications[i := Awaiting(i)])
  {
    var effects := ReadingBack(i)[4..];
    Two(db, effects);
    hide Fold, Apply, Stored;
    var verified := effects[0].vrecord;
    RecordStored(db, s, i, verified, 2 + i);
    RecordStored(Apply(db, effects[0]), s.(verifications := s.verifications[i := verified]), i, Awaiting(i), 2 + i);
    assert s.verifications[i := verified][i := Awaiting(i)] == s.verifications[i := Awaiting(i)];
  }

  lemma AfterReadingBack(db: Db, s: Db, i: nat)
    requires Stored(db) == s && |s.jobs| == 3 + i && s.jobs[2 + i] == VerifyJob(i).(state := Preflight, result := None)
    ensures Stored(Fold(db, ReadingBack(i))) == s.(verifications := s.verifications[i := Awaiting(i)], jobs := s.jobs[2 + i := VerifyJob(i)])
  {
    AfterFour(db, s, i);
    var four := s.(verifications := s.verifications[i := Reading(i)], jobs := s.jobs[2 + i := VerifyJob(i)]);
    AfterTwo(Fold(db, ReadingBack(i)[..4]), four, i);
    assert |ReadingBack(i)| == 6;
    hide Fold, Stored, ReadingBack, Reading, Awaiting;
    FoldAppend(db, ReadingBack(i)[..4], ReadingBack(i)[4..]);
    assert ReadingBack(i) == ReadingBack(i)[..4] + ReadingBack(i)[4..];
    assert s.verifications[i := Reading(i)][i := Awaiting(i)] == s.verifications[i := Awaiting(i)];
  }

  lemma AfterConfirming(db: Db, s: Db, i: nat)
    requires Stored(db) == s && BothEnrolled(s) && i < 2 && |s.jobs| == 2 + i && i in s.verifications && s.verifications[i] == Verifiable(i)
    requires KeyUnused(s.jobs, VerifyJob(i).(state := Preflight, result := None))
    ensures Stored(After(db, Confirming(i))) == s.(verifications := s.verifications[i := Awaiting(i)], jobs := s.jobs + [VerifyJob(i)])
  {
    ConfirmingDoes(db, s, i);
    var created := s.(jobs := s.jobs + [VerifyJob(i).(state := Preflight, result := None)]);
    AfterBeginning(db, s, i);
    AfterReadingBack(Fold(db, Beginning(i)), created, i);
    hide Effects, Take, Fold, BothEnrolled, KeyUnused, Beginning, ReadingBack;
    FoldAppend(db, Beginning(i), ReadingBack(i));
    assert created.jobs[2 + i := VerifyJob(i)] == s.jobs + [VerifyJob(i)];
  }

  // ----- two expectations over one Household ----------------------------------------------

  const BOTH := NOTHING.(executions := map[0 := Enrolled(0), 1 := Enrolled(1)], jobs := [StartJob(0), StartJob(1)])
  const RIVALS := BOTH.(verifications := map[0 := Awaiting(0), 1 := Awaiting(1)], jobs := BOTH.jobs + [VerifyJob(0), VerifyJob(1)])

  lemma UpToEnrolled(init: Db, dbs: seq<Db>)
    requires History(init, dbs, RIVALRY) && Stored(dbs[0]) == NOTHING
    ensures |dbs| == 9 && Stored(dbs[4]) == BOTH
  {
    hide History, After, Stored;
    Next(init, dbs, RIVALRY, 0);
    AfterPlan(dbs[0], NOTHING, 0);
    Next(init, dbs, RIVALRY, 1);
    var one := NOTHING.(executions := NOTHING.executions[0 := Planned(0)]);
    AfterStarting(dbs[1], one, 0);
    Next(init, dbs, RIVALRY, 2);
    var two := one.(executions := one.executions[0 := Enrolled(0)], jobs := one.jobs + [StartJob(0)]);
    AfterPlan(dbs[2], two, 1);
    Next(init, dbs, RIVALRY, 3);
    var three := two.(executions := two.executions[1 := Planned(1)]);
    assert three.jobs[..0] == [];
    AfterStarting(dbs[3], three, 1);
    assert three.executions[1 := Enrolled(1)] == BOTH.executions && three.jobs + [StartJob(1)] == BOTH.jobs;
  }

  function PlannedTwice(): Db {
    BOTH.(verifications := map[0 := Verifiable(0), 1 := Verifiable(1)])
  }

  function OneAwaiting(): Db {
    BOTH.(verifications := map[0 := Awaiting(0), 1 := Verifiable(1)], jobs := BOTH.jobs + [VerifyJob(0)])
  }

  predicate MayConfirm(s: Db, i: nat) {
    && BothEnrolled(s) && |s.jobs| == 2 + i && i in s.verifications && s.verifications[i] == Verifiable(i)
    && KeyUnused(s.jobs, VerifyJob(i).(state := Preflight, result := None))
  }

  function Confirmed(s: Db, i: nat): Db {
    s.(verifications := s.verifications[i := Awaiting(i)], jobs := s.jobs + [VerifyJob(i)])
  }

  lemma Confirmable()
    ensures MayConfirm(PlannedTwice(), 0) && Confirmed(PlannedTwice(), 0) == OneAwaiting()
  {
    assert PlannedTwice().verifications[0 := Awaiting(0)] == OneAwaiting().verifications;
  }

  lemma ConfirmableAgain()
    ensures MayConfirm(OneAwaiting(), 1) && Confirmed(OneAwaiting(), 1) == RIVALS
  {
    assert OneAwaiting().verifications[1 := Awaiting(1)] == RIVALS.verifications;
    assert OneAwaiting().jobs + [VerifyJob(1)] == RIVALS.jobs;
  }

  lemma ConfirmStep(init: Db, dbs: seq<Db>, n: nat, s: Db, i: nat)
    requires History(init, dbs, RIVALRY) && i < 2 && n == 6 + i && |dbs| == 9 && Stored(dbs[n]) == s && MayConfirm(s, i)
    ensures Stored(dbs[n + 1]) == Confirmed(s, i)
  {
    Next(init, dbs, RIVALRY, n);
    hide History, After, Stored, Confirming;
    AfterConfirming(dbs[n], s, i);
  }

  lemma BothPlanned(one: Db)
    requires one == BOTH.(verifications := BOTH.verifications[0 := Verifiable(0)])
    ensures one.(verifications := one.verifications[1 := Verifiable(1)]) == PlannedTwice()
  {
    assert one.verifications[1 := Verifiable(1)] == PlannedTwice().verifications;
  }

  lemma UpToPlanned(init: Db, dbs: seq<Db>)
    requires History(init, dbs, RIVALRY) && |dbs| == 9 && Stored(dbs[4]) == BOTH
    ensures Stored(dbs[6]) == PlannedTwice()
  {
    hide History, After, Stored, PlanningVerification, PlannedTwice;
    Next(init, dbs, RIVALRY, 4);
    AfterVerifiable(dbs[4], BOTH, 0);
    var one := BOTH.(verifications := BOTH.verifications[0 := Verifiable(0)]);
    Next(init, dbs, RIVALRY, 5);
    AfterVerifiable(dbs[5], one, 1);
    BothPlanned(one);
  }

  lemma RivalHistory(init: Db, dbs: seq<Db>)
    requires History(init, dbs, RIVALRY) && Stored(dbs[0]) == NOTHING
    ensures |dbs| == 9 && Stored(dbs[8]) == RIVALS
  {
    UpToEnrolled(init, dbs);
    hide History, Stored, Confirmed, MayConfirm, OneAwaiting, PlannedTwice;
    UpToPlanned(init, dbs);
    Confirmable();
    ConfirmStep(init, dbs, 6, PlannedTwice(), 0);
    ConfirmableAgain();
    ConfirmStep(init, dbs, 7, OneAwaiting(), 1);
  }

  lemma RivalsReplace(db: Db)
    requires Stored(db) == RIVALS
    ensures Recovery.OnBase(db, 0) && Recovery.OnBase(db, 1) && db.verifications[0].expected == Some(Managed(0))
    ensures db.verifications[0].request.binding.device == 7 && db.verifications[1].request.binding.device == 8
  {
  }

  /** Both expectations can be applied and replace the same Household, for different devices; the
      recovery at the next process start applies the first and leaves the second pending. */
  lemma RivalsCompete(init: Db, dbs: seq<Db>)
    requires History(init, dbs, RIVALRY) && Stored(dbs[0]) == NOTHING
    ensures |dbs| == 9 && Recovery.OnBase(dbs[8], 0) && Recovery.OnBase(dbs[8], 1)
    ensures var after := Fold(dbs[8], Verify.RecoverScript(dbs[8], [0, 1]).effects);
      && Recovery.Closed(after, 0) && Recovery.LeftBehind(dbs[8], after, 1) && after.household.snapshot == Managed(0)
  {
    RivalHistory(init, dbs);
    assert Run(init, dbs[8]) by {
      assert Served(init, dbs[7], RIVALRY[7], dbs[8]);
    }
    var db := dbs[8];
    RivalsReplace(db);
    hide History, Run, Fold, Verify.RecoverScript, Stored, Recovery.OnBase;
    assert Recovery.FirstOnBase(db, [0, 1]) == Some(0);
    Recovery.FirstInKeyOrderWins(init, db, [0, 1], 0, 1);
  }

  /** These requests are served, and two expectations compete for one Household. */
  method LeaveRivals() returns (store: Store)
    ensures fresh(store) && store.Valid() && Recovery.OnBase(store.db, 0) && Recovery.OnBase(store.db, 1)
    ensures store.db.verifications[0].request.binding.device != store.db.verifications[1].request.binding.device
  {
    hide History, Recovery.OnBase;
    ghost var dbs;
    store, dbs := ServeAll(TWO_DEVICES, RIVALRY);
    assert Stored(dbs[0]) == NOTHING;
    RivalHistory(store.initial, dbs);
    RivalsReplace(dbs[8]);
  }
}
