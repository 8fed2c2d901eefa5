/** What every run keeps about the one-time reference of a failed enrollment and its three copies. */
module CleanupSafety {
  import opened Wrappers
  import opened Records
  import opened Protocol
  import Starts = EnrollmentSafety

  // ----- the invariant ------------------------------------------------------------------

  function PlanOf(e: Verification): PlanId {
    e.request.binding.plan
  }

  /** The copy is the receipt, except that its artifact may still be there when the receipt's is gone. */
  predicate CopyMatches(copy: StartReceipt, receipt: StartReceipt) {
    && copy.(artifact := None) == receipt.(artifact := None)
    && (receipt.artifact.Some? ==> copy.artifact == receipt.artifact)
  }

  predicate Backed(db: Db, e: Verification) {
    && PlanOf(e) in db.executions && db.executions[PlanOf(e)].receipt.Some?
    && CopyMatches(e.executionReceipt, db.executions[PlanOf(e)].receipt.value)
    && e.request.binding.operation == e.executionReceipt.operation
    && e.request.binding.device == e.executionReceipt.device && e.request.binding.member == e.executionReceipt.member
    && e.request.binding.provider == e.executionReceipt.provider
    && (e.status == VRejected ==> e.receipt.Some? && e.receipt.value.failure.Some?)
  }

  ghost predicate VerificationsBacked(db: Db) {
    forall v :: v in db.verifications ==> Backed(db, db.verifications[v])
  }

  ghost predicate CleanupsBound(db: Db) {
    forall c :: c in db.cleanups ==>
      && db.cleanups[c].verification in db.verifications
      && PlanOf(db.verifications[db.cleanups[c].verification]) == db.cleanups[c].enrollment
      && (db.cleanups[c].completed.Some? ==> CopiesScrubbed(db, db.cleanups[c].verification))
  }

  lemma ReceiptStep(db: Db, a: Action, p: PlanId)
    requires Starts.Inv(db) && Enabled(db, a) && p in db.executions && db.executions[p].receipt.Some?
    ensures p in Apply(db, a).executions && Apply(db, a).executions[p].receipt.Some?
    ensures var was, after := db.executions[p].receipt.value, Apply(db, a).executions[p].receipt.value;
      && after.(artifact := None) == was.(artifact := None)
      && (after.artifact == was.artifact || after.artifact.None?)
      && (after != was ==> a.ScrubArtifact?)
  {
    hide CreateAllowed, MoveAllowed, VerificationAllowed, DeenrollmentAllowed, CleanupAllowed, HouseholdAllowed;
  }

  lemma PlannedBacked(db: Db, e: Verification)
    requires Starts.Inv(db) && PlansVerification(db, e)
    ensures Backed(db, e)
  {
  }

  lemma MovedBacked(db: Db, v: VerificationId, e: Verification)
    requires v in db.verifications && Backed(db, db.verifications[v]) && VerificationMoves(db, v, db.verifications[v], e)
    ensures Backed(db, e)
  {
    hide VerdictPassed, PostFailure, FlippedSnapshot;
  }

  /** A verification record after an action: what was stored, scrubbed, or unchanged. */
  lemma RecordStep(db: Db, a: Action, v: VerificationId)
    requires Enabled(db, a) && v in Apply(db, a).verifications
    ensures var e := Apply(db, a).verifications[v];
      || (a.PutVerification? && a.verification == v && e == a.vrecord && VerificationAllowed(db, v, e))
      || (!(a.PutVerification? && a.verification == v) && v in db.verifications && e == db.verifications[v])
      || (v in db.verifications && a.ScrubArtifact? && ScrubAllowed(db, a.cleanupId, a.now)
          && v == db.cleanups[a.cleanupId].verification
          && e == db.verifications[v].(executionReceipt := db.verifications[v].executionReceipt.(artifact := None))
          && Apply(db, a).executions[PlanOf(e)].receipt.Some?
          && Apply(db, a).executions[PlanOf(e)].receipt.value.artifact.None?)
  {
    hide CreateAllowed, MoveAllowed, ExecutionAllowed, VerificationAllowed, DeenrollmentAllowed, CleanupAllowed, HouseholdAllowed,
      ReferencePresent, CleanupAuthorized;
  }

  lemma BackedStep(db: Db, after: Db, e: Verification, f: Verification)
    requires Backed(db, e) && PlanOf(e) in after.executions && after.executions[PlanOf(e)].receipt.Some?
    requires var was, receipt := db.executions[PlanOf(e)].receipt.value, after.executions[PlanOf(e)].receipt.value;
      && receipt.(artifact := None) == was.(artifact := None)
      && (receipt.artifact == was.artifact || receipt.artifact.None?)
      && (f == e || (f == e.(executionReceipt := e.executionReceipt.(artifact := None)) && receipt.artifact.None?))
    ensures Backed(after, f)
  {
  }

  lemma BackedKept(db: Db, a: Action)
    requires Starts.Inv(db) && VerificationsBacked(db) && Enabled(db, a)
    ensures VerificationsBacked(Apply(db, a))
  {
    hide Starts.Inv, Enabled, Apply, Backed, VerificationAllowed, ScrubAllowed;
    var after := Apply(db, a);
    forall v | v in after.verifications
      ensures Backed(after, after.verifications[v])
    {
      RecordStep(db, a, v);
      var e := StoredBacked(db, a, v);
      ReceiptStep(db, a, PlanOf(e));
      BackedStep(db, after, e, after.verifications[v]);
    }
  }

  /** The record the step started from is backed. */
  lemma StoredBacked(db: Db, a: Action, v: VerificationId) returns (e: Verification)
    requires Starts.Inv(db) && VerificationsBacked(db) && Enabled(db, a) && v in Apply(db, a).verifications
    ensures Backed(db, e) && PlanOf(e) in db.executions && db.executions[PlanOf(e)].receipt.Some?
    ensures e == if a.PutVerification? && a.verification == v then a.vrecord
                 else if v in db.verifications then db.verifications[v] else e
  {
    hide Starts.Inv, CreateAllowed, MoveAllowed, ExecutionAllowed, DeenrollmentAllowed, CleanupAllowed, HouseholdAllowed, ScrubAllowed,
      VerificationMoves, PlansVerification;
    RecordStep(db, a, v);
    if a.PutVerification? && a.verification == v {
      e := a.vrecord;
      if v in db.verifications {
        MovedBacked(db, v, e);
      } else {
        PlannedBacked(db, e);
      }
    } else {
      e := db.verifications[v];
    }
  }

  // ----- the three copies -----------------------------------------------------------------

  function ReceiptOfPlan(db: Db, v: VerificationId): StartReceipt
    requires ThreeCopies(db, v)
  {
    db.executions[PlanOf(db.verifications[v])].receipt.value
  }

  function JobArtifact(db: Db, v: VerificationId): Option<Artifact>
    requires ThreeCopies(db, v)
  {
    db.jobs[ReceiptOfPlan(db, v).job].result.value.accepted.artifact
  }

  predicate AllPresent(db: Db, v: VerificationId) {
    && ThreeCopies(db, v)
    && ReceiptOfPlan(db, v).artifact.Some?
    && db.verifications[v].executionReceipt.artifact == ReceiptOfPlan(db, v).artifact
    && JobArtifact(db, v) == ReceiptOfPlan(db, v).artifact
  }

  /** The verification still holds its copy, but the other two are gone. */
  predicate Stranded(db: Db, v: VerificationId) {
    && ThreeCopies(db, v)
    && ReceiptOfPlan(db, v).artifact.None? && JobArtifact(db, v).None?
    && db.verifications[v].executionReceipt.artifact.Some?
  }

  /** In every run the reference is in all three copies, in none, or only in the verification's. */
  lemma Trichotomy(db: Db, v: VerificationId)
    requires Starts.Inv(db) && VerificationsBacked(db) && v in db.verifications
    ensures AllPresent(db, v) || CopiesScrubbed(db, v) || Stranded(db, v)
  {
    assert Backed(db, db.verifications[v]);
    assert Starts.ReceiptsSound(db);
  }

  /** A copy disappears from a record only by a scrub of that execution. */
  predicate ScrubsPlan(db: Db, a: Action, p: PlanId) {
    a.ScrubArtifact? && a.cleanupId in db.cleanups && db.cleanups[a.cleanupId].enrollment == p
  }

  lemma CopiesStep(db: Db, a: Action, v: VerificationId)
    requires Enabled(db, a) && ThreeCopies(db, v)
    ensures var after := Apply(db, a);
      && ThreeCopies(after, v) && PlanOf(after.verifications[v]) == PlanOf(db.verifications[v])
      && if ScrubsPlan(db, a, PlanOf(db.verifications[v])) then
           && ReferencePresent(db, db.cleanups[a.cleanupId].verification)
           && ReceiptOfPlan(after, v).artifact.None? && JobArtifact(after, v).None?
           && after.verifications[v].executionReceipt.artifact ==
                (if db.cleanups[a.cleanupId].verification == v then None else db.verifications[v].executionReceipt.artifact)
         else
           && ReceiptOfPlan(after, v).artifact == ReceiptOfPlan(db, v).artifact
           && JobArtifact(after, v) == JobArtifact(db, v)
           && after.verifications[v].executionReceipt.artifact == db.verifications[v].executionReceipt.artifact
  {
    hide CreateAllowed, DeenrollmentAllowed, CleanupAllowed, HouseholdAllowed, CleanupAuthorized,
      VerdictPassed, PostFailure, FlippedSnapshot, AcceptedCall, DeclaredSafe;
  }

  // ----- completed cleanups and scrubs along runs ------------------------------------------

  lemma ScrubbedStays(db: Db, a: Action, v: VerificationId)
    requires Enabled(db, a) && CopiesScrubbed(db, v)
    ensures CopiesScrubbed(Apply(db, a), v)
  {
    CopiesStep(db, a, v);
    hide Enabled, Apply;
  }

  lemma BoundKept(db: Db, a: Action)
    requires CleanupsBound(db) && Enabled(db, a)
    ensures CleanupsBound(Apply(db, a))
  {
    hide CreateAllowed, MoveAllowed, ExecutionAllowed, DeenrollmentAllowed, HouseholdAllowed, ScrubAllowed, CleanupAuthorized,
      CopiesScrubbed, VerificationMoves, PlansVerification, ThreeCopies;
    var after := Apply(db, a);
    forall c | c in after.cleanups
      ensures after.cleanups[c].verification in after.verifications
      ensures PlanOf(after.verifications[after.cleanups[c].verification]) == after.cleanups[c].enrollment
      ensures after.cleanups[c].completed.Some? ==> CopiesScrubbed(after, after.cleanups[c].verification)
    {
      BoundStep(db, a, c);
      var v := after.cleanups[c].verification;
      PlanStays(db, a, v);
      if after.cleanups[c].completed.Some? {
        ScrubbedStays(db, a, v);
      }
    }
  }

  lemma BoundStep(db: Db, a: Action, c: CleanupId)
    requires CleanupsBound(db) && Enabled(db, a) && c in Apply(db, a).cleanups
    ensures var e := Apply(db, a).cleanups[c];
      && e.verification in db.verifications && PlanOf(db.verifications[e.verification]) == e.enrollment
      && (e.completed.Some? ==> CopiesScrubbed(db, e.verification))
  {
    hide CreateAllowed, MoveAllowed, ExecutionAllowed, DeenrollmentAllowed, HouseholdAllowed, ScrubAllowed, CleanupAuthorized,
      CopiesScrubbed, VerificationMoves, PlansVerification;
  }

  lemma PlanStays(db: Db, a: Action, v: VerificationId)
    requires Enabled(db, a) && v in db.verifications
    ensures v in Apply(db, a).verifications && PlanOf(Apply(db, a).verifications[v]) == PlanOf(db.verifications[v])
  {
    hide CreateAllowed, MoveAllowed, ExecutionAllowed, DeenrollmentAllowed, CleanupAllowed, HouseholdAllowed, ScrubAllowed,
      VerdictPassed, PostFailure, FlippedSnapshot;
  }

  /** Some cleanup of another verification of the same execution has scrubbed. */
  ghost predicate OtherScrubbed(db: Db, v: VerificationId)
    requires v in db.verifications
  {
    exists x :: 0 <= x < |db.log| && ScrubOfOther(db, db.log[x], v)
  }

  predicate ScrubOfOther(db: Db, a: Action, v: VerificationId)
    requires v in db.verifications
  {
    ScrubsPlan(db, a, PlanOf(db.verifications[v])) && db.cleanups[a.cleanupId].verification != v
  }

  ghost predicate StrandedByOthers(db: Db) {
    forall v :: v in db.verifications && Stranded(db, v) ==> OtherScrubbed(db, v)
  }

  lemma CleanupStays(db: Db, a: Action, c: CleanupId)
    requires Enabled(db, a) && c in db.cleanups
    ensures c in Apply(db, a).cleanups
    ensures Apply(db, a).cleanups[c].verification == db.cleanups[c].verification
      && Apply(db, a).cleanups[c].enrollment == db.cleanups[c].enrollment
  {
    hide CreateAllowed, MoveAllowed, ExecutionAllowed, VerificationAllowed, DeenrollmentAllowed, HouseholdAllowed, ScrubAllowed,
      CleanupAuthorized, CopiesScrubbed, CleanupBound;
  }

  lemma OtherScrubbedGrows(db: Db, a: Action, b: Action, v: VerificationId)
    requires Enabled(db, a) && v in db.verifications && ScrubOfOther(db, b, v) && (b in db.log || b == a)
    ensures v in Apply(db, a).verifications && OtherScrubbed(Apply(db, a), v)
  {
    PlanStays(db, a, v);
    CleanupStays(db, a, b.cleanupId);
    hide Enabled;
    var after := Apply(db, a);
    assert after.log == db.log + [a];
    assert b in after.log;
    hide Apply;
    assert ScrubOfOther(after, b, v);
  }

  lemma StrandedStep(db: Db, a: Action, v: VerificationId)
    requires Starts.Inv(db) && VerificationsBacked(db) && StrandedByOthers(db) && Enabled(db, a)
    requires v in Apply(db, a).verifications && Stranded(Apply(db, a), v)
    ensures OtherScrubbed(Apply(db, a), v)
  {
    if v !in db.verifications {
      NewNotStranded(db, a, v);
    } else {
      Trichotomy(db, v);
      CopiesStep(db, a, v);
      hide Enabled, Apply, Starts.Inv;
      if Stranded(db, v) {
        var x :| 0 <= x < |db.log| && ScrubOfOther(db, db.log[x], v);
        OtherScrubbedGrows(db, a, db.log[x], v);
      } else {
        OtherScrubbedGrows(db, a, a, v);
      }
    }
  }

  /** A verification that is planned copies the receipt as it is. */
  lemma NewNotStranded(db: Db, a: Action, v: VerificationId)
    requires Enabled(db, a) && v !in db.verifications && v in Apply(db, a).verifications
    ensures !Stranded(Apply(db, a), v)
  {
    hide CreateAllowed, MoveAllowed, ExecutionAllowed, DeenrollmentAllowed, CleanupAllowed, HouseholdAllowed, ScrubAllowed;
  }

  ghost predicate Inv(db: Db) {
    VerificationsBacked(db) && CleanupsBound(db) && StrandedByOthers(db)
  }

  lemma {:induction false} Holds(init: Db, actions: seq<Action>)
    requires Initial(init) && Legal(init, actions)
    ensures Inv(Fold(init, actions))
  {
    if actions != [] {
      hide Initial, Legal, Fold, Enabled, Apply, VerificationsBacked, CleanupsBound, Stranded, Starts.Inv;
      var before, a := actions[..|actions| - 1], actions[|actions| - 1];
      LastStep(init, actions);
      Holds(init, before);
      Starts.Holds(init, before);
      var db := Fold(init, before);
      BackedKept(db, a);
      BoundKept(db, a);
      forall v | v in Apply(db, a).verifications && Stranded(Apply(db, a), v)
        ensures OtherScrubbed(Apply(db, a), v)
      {
        StrandedStep(db, a, v);
      }
    }
  }

  /** What a run says about one verification and one cleanup. */
  lemma InRun(init: Db, db: Db)
    requires Run(init, db)
    ensures forall v :: v in db.verifications ==> ThreeCopies(db, v) && Backed(db, db.verifications[v])
    ensures forall c :: c in db.cleanups ==>
      && db.cleanups[c].verification in db.verifications
      && PlanOf(db.verifications[db.cleanups[c].verification]) == db.cleanups[c].enrollment
  {
    Holds(init, db.log);
    Starts.Holds(init, db.log);
    hide Legal, Fold, Starts.Inv, Stranded, CopiesScrubbed, AllPresent, OtherScrubbed;
    forall v | v in db.verifications ensures ThreeCopies(db, v) && Backed(db, db.verifications[v]) {
      CopiesInPlace(db, v);
    }
  }

  lemma CopiesInPlace(db: Db, v: VerificationId)
    requires Starts.Inv(db) && VerificationsBacked(db) && v in db.verifications
    ensures ThreeCopies(db, v)
  {
    Trichotomy(db, v);
    hide Starts.Inv;
  }

  // ----- theorems -----------------------------------------------------------------------

  ghost predicate OnlyVerification(db: Db, v: VerificationId)
    requires v in db.verifications
  {
    forall w :: w in db.verifications && PlanOf(db.verifications[w]) == PlanOf(db.verifications[v]) ==> w == v
  }

  /** In every reachable state, with one verification per execution, the one-time reference is
      present in all three stored copies or in none. */
  lemma AllOrNone(init: Db, db: Db, v: VerificationId)
    requires Run(init, db) && v in db.verifications && OnlyVerification(db, v)
    ensures AllPresent(db, v) || CopiesScrubbed(db, v)
  {
    Holds(init, db.log);
    Starts.Holds(init, db.log);
    Trichotomy(db, v);
    OnlyOne(db, v);
    hide Legal, Fold, Starts.Inv, AllPresent, CopiesScrubbed, Stranded;
  }

  lemma OnlyOne(db: Db, v: VerificationId)
    requires CleanupsBound(db) && v in db.verifications && OnlyVerification(db, v)
    ensures !OtherScrubbed(db, v)
  {
  }

  /** With several verifications of one execution, exactly the scrub for another one strands a
      copy that was there. */
  lemma StrandedExactly(db: Db, a: Action, v: VerificationId)
    requires Starts.Inv(db) && VerificationsBacked(db) && Enabled(db, a) && v in db.verifications
    ensures Stranded(Apply(db, a), v) <==> Stranded(db, v) || (AllPresent(db, v) && ScrubOfOther(db, a, v))
  {
    Trichotomy(db, v);
    CopiesStep(db, a, v);
    hide Enabled, Apply, Starts.Inv;
  }

  /** Once a cleanup is completed, none of the three copies holds a reference, for ever. */
  lemma CleanedForEver(init: Db, db: Db, c: CleanupId)
    requires Run(init, db) && c in db.cleanups && db.cleanups[c].completed.Some?
    ensures CopiesScrubbed(db, db.cleanups[c].verification)
  {
    Holds(init, db.log);
    hide Legal, Fold;
  }

  /** A scrub erases artifacts and nothing else, anywhere. */
  lemma ScrubOnlyErases(db: Db, c: CleanupId, now: Time)
    requires Enabled(db, ScrubArtifact(c, now))
    ensures var after := Apply(db, ScrubArtifact(c, now));
      && after.household == db.household && after.deenrollments == db.deenrollments && after.cleanups == db.cleanups
      && after.executions.Keys == db.executions.Keys && after.verifications.Keys == db.verifications.Keys
      && |after.jobs| == |db.jobs|
      && (forall p :: p in db.executions ==>
            after.executions[p] == db.executions[p] || after.executions[p] == WithoutReceiptArtifact(db.executions[p]))
      && (forall v :: v in db.verifications ==>
            || after.verifications[v] == db.verifications[v]
            || after.verifications[v] == db.verifications[v].(executionReceipt := db.verifications[v].executionReceipt.(artifact := None)))
      && (forall j :: 0 <= j < |db.jobs| ==> after.jobs[j] == db.jobs[j] || after.jobs[j] == WithoutArtifact(db.jobs[j]))
  {
  }

  function WithoutReceiptArtifact(e: Execution): Execution {
    if e.receipt.Some? then e.(receipt := Some(e.receipt.value.(artifact := None))) else e
  }

  /** A copy that was stranded stays: no cleanup ever removes it. */
  lemma {:induction false} StrandedForEver(init: Db, actions: seq<Action>, n: nat, v: VerificationId)
    requires Legal(init, actions) && n <= |actions| && Stranded(Fold(init, actions[..n]), v)
    ensures Stranded(Fold(init, actions), v)
  {
    hide Legal, Fold, Enabled, Apply, Stranded;
    if n == |actions| {
      assert actions[..n] == actions;
    } else {
      var before := actions[..|actions| - 1];
      assert actions[..n] == before[..n];
      LastStep(init, actions);
      StrandedForEver(init, before, n, v);
      StrandedStays(Fold(init, before), actions[|actions| - 1], v);
    }
  }

  lemma StrandedStays(db: Db, a: Action, v: VerificationId)
    requires Enabled(db, a) && Stranded(db, v)
    ensures Stranded(Apply(db, a), v)
  {
    CopiesStep(db, a, v);
    hide Enabled, Apply;
  }

  predicate Authorizes(a: Action, c: CleanupId, readback: Option<ReadbackResult>) {
    a.PutCleanup? && a.cleanup == c && a.crecord.status == CAuthorized && a.crecord.readback == readback
  }

  ghost predicate AuthorizedBefore(actions: seq<Action>, c: CleanupId, readback: Option<ReadbackResult>) {
    exists i :: 0 <= i < |actions| && Authorizes(actions[i], c, readback)
  }

  lemma AuthorizedStep(db: Db, a: Action, c: CleanupId)
    requires Enabled(db, a) && c in Apply(db, a).cleanups && Apply(db, a).cleanups[c].status == CAuthorized
    ensures Authorizes(a, c, Apply(db, a).cleanups[c].readback)
      || (c in db.cleanups && db.cleanups[c].status == CAuthorized && db.cleanups[c].readback == Apply(db, a).cleanups[c].readback)
  {
    hide CreateAllowed, MoveAllowed, ExecutionAllowed, VerificationAllowed, DeenrollmentAllowed, HouseholdAllowed, ScrubAllowed,
      CleanupAuthorized, CopiesScrubbed, CleanupBound;
  }

  lemma {:induction false} AuthorizedWasStored(init: Db, actions: seq<Action>, c: CleanupId)
    requires Initial(init) && Legal(init, actions)
    requires c in Fold(init, actions).cleanups && Fold(init, actions).cleanups[c].status == CAuthorized
    ensures AuthorizedBefore(actions, c, Fold(init, actions).cleanups[c].readback)
  {
    if actions != [] {
      hide Initial, Legal, Fold, Enabled, Apply;
      var before, a := actions[..|actions| - 1], actions[|actions| - 1];
      LastStep(init, actions);
      AuthorizedStep(Fold(init, before), a, c);
      var readback := Fold(init, actions).cleanups[c].readback;
      if !Authorizes(a, c, readback) {
        AuthorizedWasStored(init, before, c);
        var i :| 0 <= i < |before| && Authorizes(before[i], c, readback);
        assert actions[i] == before[i];
      }
    }
  }

  /** A redaction happens only while a read-back that was stored with the authorization, and found
      exactly this device unmanaged or absent, is still fresh, and the Household is still the one
      the cleanup was planned on. */
  lemma RedactionAuthorized(init: Db, actions: seq<Action>, x: nat)
    requires Initial(init) && Legal(init, actions) && x < |actions| && actions[x].ScrubArtifact?
    ensures var before, c := Fold(init, actions[..x]), actions[x].cleanupId;
      && c in before.cleanups
      && var record := before.cleanups[c];
      && record.readback.Some? && AuthorizedBefore(actions[..x], c, record.readback)
      && BoundTo(record.readback.value, c, record.target)
      && FreshAt(record.readback.value, record.maxAge, actions[x].now)
      && (record.readback.value.state == ProviderUnmanaged || record.readback.value.state == ProviderAbsent)
      && before.household.snapshot == record.base
  {
    hide Legal, Fold, CleanupBound, ReferencePresent, AuthorizedBefore;
    LegalPrefix(init, actions, x);
    AuthorizedWasStored(init, actions[..x], actions[x].cleanupId);
  }
}
