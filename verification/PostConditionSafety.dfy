/** What every run keeps about verification records: their jobs, their bases and the expectations that wait to be applied. */
module PostConditionSafety {
  import opened Wrappers
  import opened Records
  import opened Protocol
  import Flips = HouseholdSafety

  /** The job a verification record names is a verification job of that very record. */
  ghost predicate JobsNamed(db: Db) {
    forall v :: v in db.verifications && db.verifications[v].job.Some? ==>
      && db.verifications[v].job.value < |db.jobs|
      && db.jobs[db.verifications[v].job.value].request == VerifyRequest(v)
  }

  lemma JobsNamedStep(db: Db, a: Action)
    requires JobsNamed(db) && Enabled(db, a)
    ensures JobsNamed(Apply(db, a))
  {
    hide CreateAllowed, MoveAllowed, ExecutionAllowed, DeenrollmentAllowed, CleanupAllowed, HouseholdAllowed, ScrubAllowed,
      VerdictPassed, FlippedSnapshot, PostFailure, Verifiable;
  }

  lemma {:induction false} JobsNamedHolds(init: Db, actions: seq<Action>)
    requires Initial(init) && Legal(init, actions)
    ensures JobsNamed(Fold(init, actions))
  {
    if actions != [] {
      hide Initial, Legal, Fold, Enabled, Apply, JobsNamed;
      var before := actions[..|actions| - 1];
      LastStep(init, actions);
      JobsNamedHolds(init, before);
      JobsNamedStep(Fold(init, before), actions[|actions| - 1]);
    }
  }

  // ----- actor bindings and bases ---------------------------------------------------------

  /** No Household writer changes the actor bindings. */
  lemma BindingsKept(db: Db, a: Action)
    requires Enabled(db, a)
    ensures Apply(db, a).household.bindings == db.household.bindings
  {
    hide CreateAllowed, MoveAllowed, ExecutionAllowed, VerificationAllowed, DeenrollmentAllowed, CleanupAllowed, ScrubAllowed,
      DeenrollVerified, KeepsManaged;
  }

  /** The plan was made under the current bindings, and its base is the current Household or an
      earlier one. */
  predicate Based(db: Db, v: VerificationId)
    requires v in db.verifications
  {
    var e, current := db.verifications[v], db.household.snapshot;
    && e.bindings == db.household.bindings
    && e.base.generation <= current.generation
    && (e.base.generation == current.generation ==> e.base == current)
    && (e.expected.Some? ==>
          e.expected.value.previous == Some(e.base) && e.expected.value.generation == e.base.generation + 1)
  }

  /** The job of a pending expectation has reached `verifying`, and has failed only if the expectation
      can no longer be applied. */
  predicate JobSound(db: Db, v: VerificationId)
    requires v in db.verifications
  {
    var e := db.verifications[v];
    e.status == VPendingApply ==>
      && e.expected.Some? && e.receipt.Some? && e.job.Some? && e.job.value < |db.jobs|
      && db.jobs[e.job.value].state in {Verifying, Succeeded, Failed}
      && (db.jobs[e.job.value].state == Failed ==> !Convergent(db, v))
  }

  ghost predicate Inv(db: Db) {
    forall v :: v in db.verifications ==> Based(db, v) && JobSound(db, v)
  }

  lemma BasedStep(db: Db, a: Action, v: VerificationId)
    requires Inv(db) && Flips.Inv(db) && Enabled(db, a) && v in Apply(db, a).verifications
    ensures Based(Apply(db, a), v)
  {
    BindingsKept(db, a);
    Flips.HouseholdStep(db, a);
    if v in db.verifications {
      assert Based(db, v);
    }
    if a.PutVerification? && a.verification == v {
      hide Inv, Flips.Inv, JobSound;
      StoredBased(db, v, a.vrecord);
    } else {
      hide Enabled, FlippedSnapshot, JobSound;
    }
  }

  lemma StoredBased(db: Db, v: VerificationId, e: Verification)
    requires VerificationAllowed(db, v, e) && (v in db.verifications ==> Based(db, v))
    ensures Based(Apply(db, PutVerification(v, e)), v)
  {
    hide VerdictPassed, PostFailure, Verifiable, FlipRefusal;
  }

  lemma StoredJobSound(db: Db, v: VerificationId, e: Verification)
    requires VerificationAllowed(db, v, e)
    requires v in db.verifications && db.verifications[v].status == VVerified ==> db.verifications[v].receipt.Some?
    ensures JobSound(Apply(db, PutVerification(v, e)), v)
  {
    hide VerdictPassed, PostFailure, Verifiable, FlippedSnapshot;
  }

  lemma VerifiedHasReceipt(db: Db, v: VerificationId)
    requires Flips.Inv(db) && v in db.verifications && db.verifications[v].status == VVerified
    ensures db.verifications[v].receipt.Some?
  {
    assert Flips.VerificationSound(db.log, v, db.verifications[v]);
  }

  /** What any other action does to a record and to its job. */
  lemma RecordKept(db: Db, a: Action, v: VerificationId)
    requires v in db.verifications && Enabled(db, a) && !(a.PutVerification? && a.verification == v)
    ensures var after := Apply(db, a);
      && v in after.verifications && after.verifications[v] == db.verifications[v].(executionReceipt := after.verifications[v].executionReceipt)
      && |after.jobs| >= |db.jobs|
      && forall j :: 0 <= j < |db.jobs| ==>
           after.jobs[j].state == db.jobs[j].state || (a.MoveJob? && a.id == j && after.jobs[j].state == a.to)
  {
    hide CreateAllowed, MoveAllowed, ExecutionAllowed, VerificationAllowed, DeenrollmentAllowed, CleanupAllowed, HouseholdAllowed,
      ScrubAllowed;
  }

  /** An expectation that cannot be applied cannot be applied later either. */
  lemma ForeignStays(db: Db, after: Db, v: VerificationId)
    requires v in db.verifications && Based(db, v) && Recoverable(db, v) && !Convergent(db, v)
    requires v in after.verifications && after.household.bindings == db.household.bindings && |after.jobs| >= |db.jobs|
    requires var e := db.verifications[v]; after.verifications[v] == e.(executionReceipt := after.verifications[v].executionReceipt)
    requires var was, now := db.household.snapshot, after.household.snapshot; now == was || now.generation == was.generation + 1
    ensures !Convergent(after, v)
  {
  }

  lemma FailsOnlyForeign(db: Db, v: VerificationId, a: Action)
    requires v in db.verifications && Recoverable(db, v) && JobsNamed(db)
    requires a.MoveJob? && a.to == Failed && db.verifications[v].job == Some(a.id) && Enabled(db, a)
    ensures !Convergent(db, v)
  {
    hide Convergent;
  }

  lemma JobStep(db: Db, a: Action, v: VerificationId)
    requires Inv(db) && JobsNamed(db) && Flips.Inv(db) && Enabled(db, a) && v in Apply(db, a).verifications
    ensures JobSound(Apply(db, a), v)
  {
    hide Flips.Inv, Based, JobSound, JobsNamed, Enabled, Apply;
    if a.PutVerification? && a.verification == v {
      if v in db.verifications && db.verifications[v].status == VVerified {
        VerifiedHasReceipt(db, v);
      }
      StoredAllowed(db, v, a.vrecord);
      StoredJobSound(db, v, a.vrecord);
    } else {
      OtherKeepsRecord(db, a, v);
      OtherJobSound(db, a, v);
    }
  }

  lemma StoredAllowed(db: Db, v: VerificationId, e: Verification)
    requires Enabled(db, PutVerification(v, e))
    ensures VerificationAllowed(db, v, e)
  {
  }

  lemma OtherJobSound(db: Db, a: Action, v: VerificationId)
    requires v in db.verifications && Based(db, v) && JobSound(db, v) && JobsNamed(db) && Flips.Inv(db)
    requires Enabled(db, a) && !(a.PutVerification? && a.verification == v)
    ensures v in Apply(db, a).verifications && JobSound(Apply(db, a), v)
  {
    BindingsKept(db, a);
    Flips.HouseholdStep(db, a);
    RecordKept(db, a, v);
    hide Flips.Inv, Based, Convergent, JobsNamed, Enabled, Apply;
    if db.verifications[v].status == VPendingApply {
      if !Convergent(db, v) {
        ForeignStays(db, Apply(db, a), v);
      } else if a.MoveJob? && a.to == Failed && db.verifications[v].job == Some(a.id) {
        FailsOnlyForeign(db, v, a);
      } else if a.MoveJob? && db.verifications[v].job == Some(a.id) {
        MovedState(db, a, a.id);
      }
    }
  }

  lemma OtherKeepsRecord(db: Db, a: Action, v: VerificationId)
    requires v in Apply(db, a).verifications && !(a.PutVerification? && a.verification == v)
    ensures v in db.verifications
  {
  }

  lemma MovedState(db: Db, a: Action, j: JobId)
    requires a.MoveJob? && a.id == j < |db.jobs| && Enabled(db, a) && db.jobs[j].state in {Verifying, Succeeded, Failed}
    ensures a.to in {Succeeded, Failed}
  {
    hide MoveAllowed;
  }

  lemma {:induction false} Holds(init: Db, actions: seq<Action>)
    requires Initial(init) && Legal(init, actions)
    ensures Inv(Fold(init, actions))
  {
    if actions != [] {
      hide Initial, Legal, Fold, Enabled, Apply, Based, JobSound, JobsNamed, Flips.Inv;
      var before, a := actions[..|actions| - 1], actions[|actions| - 1];
      LastStep(init, actions);
      Holds(init, before);
      JobsNamedHolds(init, before);
      Flips.Holds(init, before);
      forall v | v in Fold(init, actions).verifications
        ensures Based(Fold(init, actions), v) && JobSound(Fold(init, actions), v)
      {
        BasedStep(Fold(init, before), a, v);
        JobStep(Fold(init, before), a, v);
      }
    }
  }

  /** In every run a pending envelope holds its expectation, its verdict and its job. */
  lemma PendingIsRecoverable(init: Db, db: Db, v: VerificationId)
    requires Run(init, db) && v in db.verifications && db.verifications[v].status == VPendingApply
    ensures Recoverable(db, v)
  {
    Holds(init, db.log);
    hide Legal, Fold;
    assert JobSound(db, v);
  }
}
