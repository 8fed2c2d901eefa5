/** What every run keeps about start, retry and cancel commands. */
module EnrollmentSafety {
  import opened Wrappers
  import opened Records
  import opened Protocol

  predicate SamePlanStarts(a: Job, b: Job) {
    a.request.StartRequest? && b.request.StartRequest? && a.request.plan == b.request.plan
  }

  // ----- the invariant ------------------------------------------------------------------

  /** Every start job that is not the newest of its plan ended in a failure the adapter declared safe. */
  ghost predicate EarlierStartsAreSafe(jobs: seq<Job>) {
    forall i, k :: 0 <= i < k < |jobs| && SamePlanStarts(jobs[i], jobs[k]) ==> jobs[i].RetrySafe()
  }

  ghost predicate StartCallsHaveJobs(db: Db) {
    forall x :: 0 <= x < |db.log| && db.log[x].CallStart? ==>
      && db.log[x].startJob < |db.jobs|
      && db.jobs[db.log[x].startJob].request.StartRequest?
      && db.jobs[db.log[x].startJob].state != Preflight
  }

  /** One call per job, and calls for one plan come in the order of their jobs. */
  ghost predicate StartCallsInOrder(db: Db)
    requires StartCallsHaveJobs(db)
  {
    forall x, y :: 0 <= x < y < |db.log| && db.log[x].CallStart? && db.log[y].CallStart? ==>
      && db.log[x].startJob != db.log[y].startJob
      && (SamePlanStarts(db.jobs[db.log[x].startJob], db.jobs[db.log[y].startJob]) ==>
            db.log[x].startJob < db.log[y].startJob)
  }

  ghost predicate StartJobsSound(db: Db) {
    forall j :: 0 <= j < |db.jobs| && db.jobs[j].request.StartRequest? ==>
      && db.jobs[j].request.plan in db.executions
      && (db.jobs[j].RetrySafe() ==> DeclaredSafe(db.log, j))
      && (db.jobs[j].state == Verifying || db.jobs[j].state == Succeeded ==>
            db.jobs[j].result.Some? && db.jobs[j].result.value.ProviderAccepted?)
      && (db.jobs[j].state == Verifying || db.jobs[j].state == Succeeded ==> Called(db.log, j))
  }

  ghost predicate ReceiptsSound(db: Db) {
    forall p :: p in db.executions ==>
      && (db.executions[p].status == Planned <==> db.executions[p].receipt.None?)
      && (db.executions[p].status == CancelRequested <==> db.executions[p].cancelReceipt.Some?)
      && (db.executions[p].receipt.Some? ==>
            var j := db.executions[p].receipt.value.job;
            && j < |db.jobs| && StartSucceeded(db.jobs[j], p)
            && db.executions[p].receipt.value == ReceiptOfJob(p, db.executions[p].plan, j, db.jobs[j]))
  }

  ghost predicate CancelJobsSound(db: Db) {
    && (forall i, k :: 0 <= i < k < |db.jobs| && db.jobs[i].request.CancelRequest? && db.jobs[k].request.CancelRequest?
          ==> db.jobs[i].request.plan != db.jobs[k].request.plan)
    && (forall j :: 0 <= j < |db.jobs| && db.jobs[j].request.CancelRequest? ==>
          var p := db.jobs[j].request.plan;
          && p in db.executions && db.executions[p].receipt.Some?
          && db.executions[p].receipt.value.job == db.jobs[j].request.startJob
          && db.jobs[j].operation == Some(db.executions[p].receipt.value.operation))
  }

  ghost predicate CancelCallsSound(db: Db) {
    && (forall x :: 0 <= x < |db.log| && db.log[x].CallCancel? ==>
          && db.log[x].cancelJob < |db.jobs|
          && db.jobs[db.log[x].cancelJob].request.CancelRequest?
          && db.jobs[db.log[x].cancelJob].state != Preflight
          && db.jobs[db.log[x].cancelJob].operation == Some(db.log[x].operation))
    && (forall x, y :: 0 <= x < y < |db.log| && db.log[x].CallCancel? && db.log[y].CallCancel?
          ==> db.log[x].cancelJob != db.log[y].cancelJob)
  }

  ghost predicate Inv(db: Db) {
    && EarlierStartsAreSafe(db.jobs)
    && StartCallsHaveJobs(db)
    && StartCallsInOrder(db)
    && StartJobsSound(db)
    && ReceiptsSound(db)
    && CancelJobsSound(db)
    && CancelCallsSound(db)
  }

  // ----- it holds along every run -------------------------------------------------------

  lemma CalledGrows(log: seq<Action>, a: Action, j: JobId)
    ensures Called(log, j) ==> Called(log + [a], j)
    ensures DeclaredSafe(log, j) ==> DeclaredSafe(log + [a], j)
  {
    var after := log + [a];
    if i :| 0 <= i < |log| && log[i].CallStart? && log[i].startJob == j {
      assert after[i] == log[i];
    }
    if i :| 0 <= i < |log| && log[i].CallStart? && log[i].startJob == j && log[i].answer == RaisedAdapterFailure(true) {
      assert after[i] == log[i];
    }
  }

  lemma StartCallsKept(db: Db, a: Action)
    requires Inv(db) && Enabled(db, a)
    ensures EarlierStartsAreSafe(Apply(db, a).jobs)
    ensures StartCallsHaveJobs(Apply(db, a)) && StartCallsInOrder(Apply(db, a))
  {
    hide ExecutionAllowed, VerificationAllowed, DeenrollmentAllowed, CleanupAllowed, HouseholdAllowed, ScrubAllowed,
      StartJobsSound, ReceiptsSound, CancelJobsSound, CancelCallsSound;
  }

  lemma StartJobsKept(db: Db, a: Action)
    requires Inv(db) && Enabled(db, a)
    ensures StartJobsSound(Apply(db, a))
  {
    hide VerificationAllowed, DeenrollmentAllowed, CleanupAllowed, HouseholdAllowed, ScrubAllowed,
      EarlierStartsAreSafe, StartCallsInOrder, ReceiptsSound, CancelJobsSound, CancelCallsSound;
    forall j { CalledGrows(db.log, a, j); }
  }

  lemma ReceiptsKept(db: Db, a: Action)
    requires Inv(db) && Enabled(db, a)
    ensures ReceiptsSound(Apply(db, a))
  {
    hide VerificationAllowed, DeenrollmentAllowed, CleanupAllowed, HouseholdAllowed, CreateAllowed, MoveAllowed,
      EarlierStartsAreSafe, StartCallsInOrder, StartCallsHaveJobs, StartJobsSound, CancelJobsSound, CancelCallsSound;
    if a.PutExecution? {
      StoredReceiptSound(db, a.plan, a.execution);
    } else {
      hide ExecutionAllowed;
    }
  }

  lemma StoredReceiptSound(db: Db, p: PlanId, e: Execution)
    requires ReceiptsSound(db) && ExecutionAllowed(db, p, e)
    ensures ReceiptsSound(Apply(db, PutExecution(p, e)))
  {
  }

  lemma CancelJobsKept(db: Db, a: Action)
    requires Inv(db) && Enabled(db, a)
    ensures CancelJobsSound(Apply(db, a))
  {
    hide MoveAllowed, VerificationAllowed, DeenrollmentAllowed, CleanupAllowed, HouseholdAllowed, ScrubAllowed,
      EarlierStartsAreSafe, StartCallsInOrder, StartCallsHaveJobs, StartJobsSound, ReceiptsSound, CancelCallsSound;
    var after := Apply(db, a);
    assert forall j :: 0 <= j < |db.jobs| ==>
      after.jobs[j].request == db.jobs[j].request && after.jobs[j].operation == db.jobs[j].operation;
    assert forall p :: p in db.executions && db.executions[p].receipt.Some? ==>
      && after.executions[p].receipt.Some?
      && after.executions[p].receipt.value.job == db.executions[p].receipt.value.job
      && after.executions[p].receipt.value.operation == db.executions[p].receipt.value.operation;
  }

  lemma CancelCallsKept(db: Db, a: Action)
    requires Inv(db) && Enabled(db, a)
    ensures CancelCallsSound(Apply(db, a))
  {
    hide ExecutionAllowed, VerificationAllowed, DeenrollmentAllowed, CleanupAllowed, HouseholdAllowed, ScrubAllowed, CreateAllowed, MoveAllowed,
      EarlierStartsAreSafe, StartCallsInOrder, StartCallsHaveJobs, StartJobsSound, ReceiptsSound, CancelJobsSound;
    var after := Apply(db, a);
    assert forall j :: 0 <= j < |db.jobs| ==>
      && after.jobs[j].request == db.jobs[j].request && after.jobs[j].operation == db.jobs[j].operation
      && (db.jobs[j].state != Preflight ==> after.jobs[j].state != Preflight);
  }

  lemma Gather(db: Db)
    requires EarlierStartsAreSafe(db.jobs) && StartCallsHaveJobs(db) && StartCallsInOrder(db) && StartJobsSound(db)
    requires ReceiptsSound(db) && CancelJobsSound(db) && CancelCallsSound(db)
    ensures Inv(db)
  {
  }

  lemma {:induction false} Holds(init: Db, actions: seq<Action>)
    requires Initial(init) && Legal(init, actions)
    ensures Inv(Fold(init, actions))
  {
    if actions != [] {
      hide *;
      var before := actions[..|actions| - 1];
      var a := actions[|actions| - 1];
      LastStep(init, actions);
      Holds(init, before);
      var db := Fold(init, before);
      StartCallsKept(db, a);
      StartJobsKept(db, a);
      ReceiptsKept(db, a);
      CancelJobsKept(db, a);
      CancelCallsKept(db, a);
      Gather(Apply(db, a));
    }
  }

  // ----- start: at most one command whose outcome is not a declared safe failure ----------

  /** The plan a start command was sent for. */
  ghost predicate StartsPlan(db: Db, x: nat, p: PlanId) {
    && x < |db.log| && db.log[x].CallStart?
    && db.log[x].startJob < |db.jobs| && db.jobs[db.log[x].startJob].IsStartOf(p)
  }

  /** Of the start commands sent for one plan, in any run, every one but the last was answered
      by a failure the adapter declared safe to retry. */
  lemma AtMostOneUnsafeStart(init: Db, db: Db, p: PlanId, x: nat, y: nat)
    requires Run(init, db)
    requires x < y && StartsPlan(db, x, p) && StartsPlan(db, y, p)
    ensures db.log[x].answer == RaisedAdapterFailure(true)
  {
    hide Legal, Fold, ReceiptsSound, CancelJobsSound, CancelCallsSound;
    Holds(init, db.log);
    var j := db.log[x].startJob;
    assert SamePlanStarts(db.jobs[j], db.jobs[db.log[y].startJob]);
    assert db.jobs[j].RetrySafe();
    var i :| 0 <= i < |db.log| && db.log[i].CallStart? && db.log[i].startJob == j
      && db.log[i].answer == RaisedAdapterFailure(true);
  }

  /** The plan has an attempt whose outcome is unknown, unsafe, or success. */
  ghost predicate Settled(db: Db, p: PlanId) {
    exists j :: 0 <= j < |db.jobs| && SettledBy(db, p, j)
  }

  ghost predicate SettledBy(db: Db, p: PlanId, j: JobId) {
    && j < |db.jobs| && db.jobs[j].IsStartOf(p)
    && (|| (db.jobs[j].state == Running && Called(db.log, j) && !DeclaredSafe(db.log, j))
        || db.jobs[j].state == Verifying
        || db.jobs[j].state == Succeeded
        || (db.jobs[j].state == Failed && !db.jobs[j].RetrySafe()))
  }

  lemma SettledStep(db: Db, a: Action, p: PlanId, j: JobId)
    requires Inv(db) && Enabled(db, a) && SettledBy(db, p, j)
    ensures SettledBy(Apply(db, a), p, j)
    ensures a.CallStart? ==> a.startJob < |db.jobs| && !db.jobs[a.startJob].IsStartOf(p)
  {
    hide ExecutionAllowed, VerificationAllowed, DeenrollmentAllowed, CleanupAllowed, HouseholdAllowed, ScrubAllowed,
      ReceiptsSound, CancelJobsSound, CancelCallsSound, StartJobsSound;
    CalledGrows(db.log, a, j);
    assert forall i :: 0 <= i < |db.jobs| && i != j && db.jobs[i].IsStartOf(p) ==>
      i < j && SamePlanStarts(db.jobs[i], db.jobs[j]);
  }

  ghost predicate NoStartCall(actions: seq<Action>, n: nat, jobs: seq<Job>, p: PlanId) {
    forall x :: n <= x < |actions| && actions[x].CallStart? ==>
      actions[x].startJob < |jobs| && !jobs[actions[x].startJob].IsStartOf(p)
  }

  lemma NoStartCallStep(actions: seq<Action>, n: nat, db: Db, a: Action, p: PlanId)
    requires NoStartCall(actions, n, db.jobs, p)
    requires a.CallStart? ==> a.startJob < |db.jobs| && !db.jobs[a.startJob].IsStartOf(p)
    ensures NoStartCall(actions + [a], n, Apply(db, a).jobs, p)
  {
    forall j | 0 <= j < |db.jobs| ensures j < |Apply(db, a).jobs| && Apply(db, a).jobs[j].request == db.jobs[j].request {
      JobsKept(db, a, j);
    }
    hide Apply;
  }

  /** Once an attempt is running with an unknown outcome, failed unsafely, or was accepted by the
      provider, no start command is ever sent for the plan again. */
  lemma {:induction false} NoStartAfterSettled(init: Db, actions: seq<Action>, n: nat, p: PlanId, j: JobId)
    requires Initial(init) && Legal(init, actions) && n <= |actions|
    requires SettledBy(Fold(init, actions[..n]), p, j)
    ensures SettledBy(Fold(init, actions), p, j)
    ensures NoStartCall(actions, n, Fold(init, actions).jobs, p)
  {
    hide Initial, Legal, Fold, Enabled, Apply, SettledBy, Inv;
    if n == |actions| {
      assert actions[..n] == actions;
    } else {
      hide NoStartCall;
      var before, a := actions[..|actions| - 1], actions[|actions| - 1];
      assert actions[..n] == before[..n] && before + [a] == actions;
      LastStep(init, actions);
      NoStartAfterSettled(init, before, n, p, j);
      Holds(init, before);
      SettledStep(Fold(init, before), a, p, j);
      NoStartCallStep(before, n, Fold(init, before), a, p);
    }
  }

  // ----- cancel: at most one command, and nothing is read back after it -------------------

  /** Two cancel commands are never sent for one plan, in any run. */
  lemma AtMostOneCancel(init: Db, db: Db, x: nat, y: nat)
    requires Run(init, db)
    requires x < y < |db.log| && db.log[x].CallCancel? && db.log[y].CallCancel?
    ensures db.log[x].cancelJob < |db.jobs| && db.jobs[db.log[x].cancelJob].request.CancelRequest?
    ensures db.log[y].cancelJob < |db.jobs| && db.jobs[db.log[y].cancelJob].request.CancelRequest?
    ensures db.jobs[db.log[x].cancelJob].request.plan != db.jobs[db.log[y].cancelJob].request.plan
  {
    Holds(init, db.log);
    var i, k := db.log[x].cancelJob, db.log[y].cancelJob;
    assert i != k;
    if i < k {
      assert db.jobs[i].request.plan != db.jobs[k].request.plan;
    } else {
      assert db.jobs[k].request.plan != db.jobs[i].request.plan;
    }
  }

  /** A cancel command is sent only when the provider has accepted the start, and names the
      operation the provider returned for it. */
  lemma CancelFollowsAcceptance(init: Db, actions: seq<Action>, x: nat)
    requires Initial(init) && Legal(init, actions)
    requires x < |actions| && actions[x].CallCancel?
    ensures var before := Fold(init, actions[..x]);
      && actions[x].cancelJob < |before.jobs| && before.jobs[actions[x].cancelJob].request.CancelRequest?
      && var p := before.jobs[actions[x].cancelJob].request.plan;
      && p in before.executions && before.executions[p].receipt.Some?
      && before.executions[p].receipt.value.operation == actions[x].operation
      && before.executions[p].receipt.value.job < |before.jobs|
      && StartSucceeded(before.jobs[before.executions[p].receipt.value.job], p)
  {
    hide Legal, Fold;
    LegalPrefix(init, actions, x);
    Holds(init, actions[..x]);
  }

  lemma CancelReceiptStep(db: Db, a: Action, p: PlanId)
    requires Enabled(db, a) && p in db.executions && db.executions[p].cancelReceipt.Some?
    ensures p in Apply(db, a).executions
    ensures Apply(db, a).executions[p].cancelReceipt == db.executions[p].cancelReceipt
  {
  }

  lemma {:induction false} CancelReceiptStays(init: Db, actions: seq<Action>, n: nat, p: PlanId)
    requires Initial(init) && Legal(init, actions) && n <= |actions|
    requires p in Fold(init, actions[..n]).executions && Fold(init, actions[..n]).executions[p].cancelReceipt.Some?
    ensures p in Fold(init, actions).executions
    ensures Fold(init, actions).executions[p].cancelReceipt == Fold(init, actions[..n]).executions[p].cancelReceipt
  {
    hide Initial, Legal, Fold, Enabled, Apply;
    if n == |actions| {
      assert actions[..n] == actions;
    } else {
      var before := actions[..|actions| - 1];
      assert actions[..n] == before[..n];
      LastStep(init, actions);
      CancelReceiptStays(init, before, n, p);
      CancelReceiptStep(Fold(init, before), actions[|actions| - 1], p);
    }
  }

  /** Once a cancel receipt is stored, no post-condition confirmation of that execution reaches
      the provider's read-back. */
  lemma NoReadBackAfterCancel(init: Db, actions: seq<Action>, n: nat, x: nat, p: PlanId)
    requires Initial(init) && Legal(init, actions)
    requires n <= x < |actions| && actions[x].CallReadBack?
    requires p in Fold(init, actions[..n]).executions && Fold(init, actions[..n]).executions[p].cancelReceipt.Some?
    ensures var before := Fold(init, actions[..x]);
      actions[x].verified in before.verifications
      && before.verifications[actions[x].verified].request.binding.plan != p
  {
    hide Legal, Fold;
    LegalPrefix(init, actions, x);
    assert actions[..x][..n] == actions[..n];
    CancelReceiptStays(init, actions[..x], n, p);
  }
}
