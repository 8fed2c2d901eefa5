/** What every run keeps about provider mutations: at most one for each accepted confirmation. */
module DeenrollmentSafety {
  import opened Wrappers
  import opened Records
  import opened Protocol

  /** The plan may still send a provider mutation without being confirmed again. */
  predicate Armed(db: Db, d: DeenrollmentId) {
    && d in db.deenrollments
    && var e := db.deenrollments[d];
    || e.status == DConfirmed
    || (e.status == DProviderRunning && e.job.Some? && CallDeenroll(d, e.job.value) !in db.log)
  }

  // ----- the invariant ------------------------------------------------------------------

  ghost predicate JobsNamed(db: Db) {
    forall d :: d in db.deenrollments && db.deenrollments[d].job.Some? ==> JobOf(db, d, db.deenrollments[d].job.value)
  }

  /** An execution or reconciliation job of the plan. */
  predicate JobOf(db: Db, d: DeenrollmentId, j: JobId) {
    j < |db.jobs| && (db.jobs[j].request == DeenrollRequest(d) || db.jobs[j].request == ReconcileRequest(d))
  }

  ghost predicate CallsNamed(db: Db) {
    forall x :: 0 <= x < |db.log| && db.log[x].CallDeenroll? ==>
      db.log[x].deenrolled in db.deenrollments && db.log[x].deenrollJob < |db.jobs|
  }

  /** Mutations sent, and the one that may still be sent, are covered by confirmations, and these by
      consumed step-up grants. */
  predicate Covered(db: Db, d: DeenrollmentId) {
    Mutations(db.log, d) + (if Armed(db, d) then 1 else 0) <= Confirmations(db.log, d) <= Grants(db.log, d)
  }

  ghost predicate Inv(db: Db) {
    JobsNamed(db) && CallsNamed(db) && forall d :: Covered(db, d)
  }

  lemma NamesKept(db: Db, a: Action)
    requires JobsNamed(db) && CallsNamed(db) && Enabled(db, a)
    ensures JobsNamed(Apply(db, a)) && CallsNamed(Apply(db, a))
  {
    hide CreateAllowed, MoveAllowed, ExecutionAllowed, VerificationAllowed, CleanupAllowed, HouseholdAllowed, ScrubAllowed,
      FlippedSnapshot, DeenrollFailure, Confirmations, Grants;
    if a.PutDeenrollment? && a.deenrollment in db.deenrollments {
      JobTaken(db, a.deenrollment, db.deenrollments[a.deenrollment], a.drecord);
    }
    hide DeenrollmentMoves;
  }

  /** A record only ever names a job that exists. */
  lemma JobTaken(db: Db, d: DeenrollmentId, was: Deenrollment, e: Deenrollment)
    requires DeenrollmentMoves(db, d, was, e)
    ensures e.job == was.job || (e.job.Some? && JobOf(db, d, e.job.value))
  {
  }

  lemma Counts(log: seq<Action>, a: Action, d: DeenrollmentId)
    ensures Mutations(log + [a], d) == Mutations(log, d) + if IsMutation(a, d) then 1 else 0
    ensures Confirmations(log + [a], d) == Confirmations(log, d) + if IsConfirmation(a, d) then 1 else 0
    ensures Grants(log + [a], d) == Grants(log, d) + if a == ConsumeStepUp(DeenrollmentScope(d)) then 1 else 0
  {
    assert (log + [a])[..|log|] == log;
  }

  /** Only a confirmation arms a plan, only an armed plan mutates, and mutating disarms it. */
  lemma ArmedStep(db: Db, a: Action, d: DeenrollmentId)
    requires Enabled(db, a)
    ensures Armed(Apply(db, a), d) && !IsConfirmation(a, d) ==> Armed(db, d)
    ensures IsMutation(a, d) ==> Armed(db, d) && !Armed(Apply(db, a), d)
    ensures IsConfirmation(a, d) ==> d in db.deenrollments && Confirmations(db.log, d) < Grants(db.log, d)
  {
    hide CreateAllowed, MoveAllowed, ExecutionAllowed, VerificationAllowed, CleanupAllowed, HouseholdAllowed, ScrubAllowed,
      FlippedSnapshot, DeenrollVerified, Judged;
    var after := Apply(db, a);
    assert after.log[|db.log|] == a;
    assert forall x :: x in db.log ==> x in after.log;
  }

  lemma CoveredStep(db: Db, a: Action, d: DeenrollmentId)
    requires Enabled(db, a) && Covered(db, d)
    ensures Covered(Apply(db, a), d)
  {
    hide Enabled, Armed, Mutations, Confirmations, Grants;
    ArmedStep(db, a, d);
    Counts(db.log, a, d);
  }

  lemma {:induction false} Holds(init: Db, actions: seq<Action>)
    requires Initial(init) && Legal(init, actions)
    ensures Inv(Fold(init, actions))
  {
    if actions != [] {
      hide Initial, Legal, Fold, Enabled, Apply, JobsNamed, CallsNamed, Covered;
      var before, a := actions[..|actions| - 1], actions[|actions| - 1];
      LastStep(init, actions);
      Holds(init, before);
      NamesKept(Fold(init, before), a);
      forall d ensures Covered(Apply(Fold(init, before), a), d) {
        CoveredStep(Fold(init, before), a, d);
      }
    }
  }

  // ----- theorems -----------------------------------------------------------------------

  /** In every run the provider mutations of a plan, and one more if it is confirmed, never exceed
      the confirmations accepted for it, nor these the step-up grants consumed. */
  lemma MutationsCovered(init: Db, db: Db, d: DeenrollmentId)
    requires Run(init, db)
    ensures Mutations(db.log, d) + (if d in db.deenrollments && db.deenrollments[d].status == DConfirmed then 1 else 0)
      <= Confirmations(db.log, d) <= Grants(db.log, d)
  {
    Holds(init, db.log);
    hide Legal, Fold, Mutations, Confirmations, Grants;
    assert Covered(db, d);
  }

  ghost predicate Confirmed(actions: seq<Action>, from: nat, to: nat, d: DeenrollmentId) {
    exists z :: from <= z < to <= |actions| && IsConfirmation(actions[z], d)
  }

  /** A plan that is not armed stays so until it is confirmed. */
  lemma {:induction false} ArmedByConfirmation(init: Db, actions: seq<Action>, n: nat, d: DeenrollmentId)
    requires Legal(init, actions) && n <= |actions| && !Armed(Fold(init, actions[..n]), d)
    ensures Armed(Fold(init, actions), d) ==> Confirmed(actions, n, |actions|, d)
  {
    hide Legal, Fold, Enabled, Apply, Armed;
    if n == |actions| {
      assert actions[..n] == actions;
    } else {
      var before, a := actions[..|actions| - 1], actions[|actions| - 1];
      assert actions[..n] == before[..n];
      LastStep(init, actions);
      ArmedByConfirmation(init, before, n, d);
      ArmedStep(Fold(init, before), a, d);
      if Confirmed(before, n, |before|, d) {
        var z :| n <= z < |before| && IsConfirmation(before[z], d);
        assert actions[z] == before[z];
      }
    }
  }

  /** Between any two provider mutations of one plan, in any run, the plan was confirmed again; and
      it was confirmed before the first. */
  lemma MutationNeedsOwnConfirmation(init: Db, actions: seq<Action>, x: nat, y: nat, d: DeenrollmentId)
    requires Initial(init) && Legal(init, actions) && y < |actions| && IsMutation(actions[y], d)
    ensures Confirmed(actions, 0, y, d)
    ensures x < y && IsMutation(actions[x], d) ==> Confirmed(actions, x + 1, y, d)
  {
    hide Legal, Fold, Enabled, Apply, Armed;
    LegalPrefix(init, actions, y);
    ArmedStep(Fold(init, actions[..y]), actions[y], d);
    NothingArmed(init, d);
    assert actions[..y][..0] == [];
    ArmedByConfirmation(init, actions[..y], 0, d);
    Within(actions, 0, y, d);
    if x < y && IsMutation(actions[x], d) {
      LegalPrefix(init, actions, x);
      ArmedStep(Fold(init, actions[..x]), actions[x], d);
      assert actions[..y][..x + 1] == actions[..x + 1];
      ArmedByConfirmation(init, actions[..y], x + 1, d);
      Within(actions, x + 1, y, d);
    }
  }

  lemma NothingArmed(init: Db, d: DeenrollmentId)
    requires Initial(init)
    ensures !Armed(Fold(init, []), d)
  {
  }

  lemma Within(actions: seq<Action>, n: nat, y: nat, d: DeenrollmentId)
    requires y <= |actions|
    ensures Confirmed(actions[..y], n, y, d) ==> Confirmed(actions, n, y, d)
  {
    if Confirmed(actions[..y], n, y, d) {
      var z :| n <= z < y && IsConfirmation(actions[..y][z], d);
      assert actions[z] == actions[..y][z];
    }
  }
}
