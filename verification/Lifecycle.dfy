/**
  The whole lifecycle: any sequence of requests, by anyone, with any keys and any provider answers,
  in processes that may die at any effect, and other Household writers in between.
 */
module Lifecycle {
  import opened Wrappers
  import opened Records
  import opened Protocol
  import opened DurableStore
  import opened Scripts
  import Enroll = EnrollmentRuntime
  import Verify = PostConditionRuntime
  import Unmanage = DeenrollmentRuntime
  import Clean = CleanupRuntime
  import EnrollmentSafety
  import HouseholdSafety
  import DeenrollmentSafety
  import CleanupSafety

  datatype Request =
    | PlanExecution(p: PlanId, plan: ExecutionPlan, upstream: Option<Code>)
    | Start(actor: Actor, start: Enroll.StartForm, met: Enroll.Surroundings)
    | Retry(actor: Actor, retry: Enroll.RetryForm, met: Enroll.Surroundings)
    | Cancel(actor: Actor, cancel: Enroll.CancelForm, met: Enroll.Surroundings)
    | PlanVerification(actor: Actor, v: VerificationId, verification: Verify.PlanForm)
    | ConfirmVerification(actor: Actor, confirm: Verify.ConfirmForm, readBack: Verify.Surroundings)
    | Recover(ids: seq<VerificationId>)
    | PlanDeenrollment(actor: Actor, d: DeenrollmentId, deenrollment: Unmanage.PlanForm, env: Unmanage.Surroundings)
    | ConfirmDeenrollment(actor: Actor, accept: Unmanage.ConfirmForm, env: Unmanage.Surroundings)
    | Deenroll(actor: Actor, execute: Unmanage.ExecuteForm, env: Unmanage.Surroundings)
    | Reconcile(actor: Actor, execute: Unmanage.ExecuteForm, env: Unmanage.Surroundings)
    | PlanCleanup(actor: Actor, c: CleanupId, cleanup: Clean.PlanForm, around: Clean.Surroundings)
    | VerifyCleanup(actor: Actor, run: Clean.RunForm, around: Clean.Surroundings)
    | ExecuteCleanup(actor: Actor, run: Clean.RunForm, around: Clean.Surroundings)
    | WriteHousehold(state: HouseholdState)

  /** A request, and the number of durable effects after which the process that serves it dies. */
  datatype Arrival = Arrival(request: Request, fuel: nat)

  // ----- what no history may show ---------------------------------------------------------

  /** Of the start commands of one plan all but the last were answered by a declared safe failure,
      and no plan was cancelled twice. */
  ghost predicate CommandsSafe(db: Db) {
    && (forall p, x: nat, y: nat :: x < y && EnrollmentSafety.StartsPlan(db, x, p) && EnrollmentSafety.StartsPlan(db, y, p) ==>
          db.log[x].answer == RaisedAdapterFailure(true))
    && (forall x, y :: 0 <= x < y < |db.log| && db.log[x].CallCancel? && db.log[y].CallCancel? ==>
          CancelledPlan(db, x).Some? && CancelledPlan(db, x) != CancelledPlan(db, y))
  }

  function CancelledPlan(db: Db, x: nat): Option<PlanId>
    requires x < |db.log| && db.log[x].CallCancel?
  {
    var j := db.log[x].cancelJob;
    if j < |db.jobs| && db.jobs[j].request.CancelRequest? then Some(db.jobs[j].request.plan) else None
  }

  /** No plan mutated the provider more often than it was confirmed, or was confirmed more often than
      a step-up grant was spent on it. */
  ghost predicate MutationsSafe(db: Db) {
    forall d :: Mutations(db.log, d) <= Confirmations(db.log, d) <= Grants(db.log, d)
  }

  /** No verification or de-enrollment wrote the Household twice. */
  ghost predicate FlipsSafe(db: Db) {
    forall x, y :: 0 <= x < y < |db.log| && db.log[x].PutHousehold? && db.log[y].PutHousehold? && !db.log[x].source.ByOther? ==>
      db.log[x].source != db.log[y].source
  }

  /** The reference of an execution with one verification is stored in three places or in none. */
  ghost predicate CopiesSafe(db: Db) {
    forall v :: v in db.verifications && CleanupSafety.OnlyVerification(db, v) ==>
      CleanupSafety.AllPresent(db, v) || CopiesScrubbed(db, v)
  }

  lemma RunIsSafe(init: Db, db: Db)
    requires Run(init, db)
    ensures CommandsSafe(db) && MutationsSafe(db) && FlipsSafe(db) && CopiesSafe(db)
  {
    hide Run, EnrollmentSafety.StartsPlan, Mutations, Confirmations, Grants, CopiesScrubbed, CleanupSafety.AllPresent,
      CleanupSafety.OnlyVerification;
    forall p, x: nat, y: nat | x < y && EnrollmentSafety.StartsPlan(db, x, p) && EnrollmentSafety.StartsPlan(db, y, p)
      ensures x < |db.log| && db.log[x].CallStart? && db.log[x].answer == RaisedAdapterFailure(true)
    {
      Starts(db, x, p);
      EnrollmentSafety.AtMostOneUnsafeStart(init, db, p, x, y);
    }
    forall x, y | 0 <= x < y < |db.log| && db.log[x].CallCancel? && db.log[y].CallCancel?
      ensures CancelledPlan(db, x).Some? && CancelledPlan(db, x) != CancelledPlan(db, y)
    {
      EnrollmentSafety.AtMostOneCancel(init, db, x, y);
    }
    forall d ensures Mutations(db.log, d) <= Confirmations(db.log, d) <= Grants(db.log, d) {
      DeenrollmentSafety.MutationsCovered(init, db, d);
    }
    forall x, y | 0 <= x < y < |db.log| && db.log[x].PutHousehold? && db.log[y].PutHousehold? && !db.log[x].source.ByOther?
      ensures db.log[x].source != db.log[y].source
    {
      LegalLog(init, db);
      HouseholdSafety.FlipsHaveOwnSource(init, db.log, x, y);
    }
    forall v | v in db.verifications && CleanupSafety.OnlyVerification(db, v)
      ensures CleanupSafety.AllPresent(db, v) || CopiesScrubbed(db, v)
    {
      CleanupSafety.AllOrNone(init, db, v);
    }
  }

  lemma Starts(db: Db, x: nat, p: PlanId)
    requires EnrollmentSafety.StartsPlan(db, x, p)
    ensures x < |db.log| && db.log[x].CallStart?
  {
  }

  lemma LegalLog(init: Db, db: Db)
    requires Run(init, db)
    ensures Initial(init) && Legal(init, db.log)
  {
    hide Legal;
  }

  // ----- serving requests -----------------------------------------------------------------

  /** What serving the request does when the process lives long enough. */
  function Effects(db: Db, request: Request): seq<Action> {
    match request
    case PlanExecution(p, plan, upstream) => Enroll.PlanScript(db, p, plan, upstream).effects
    case Start(actor, form, env) => Enroll.StartScript(db, actor, form, env).effects
    case Retry(actor, form, env) => Enroll.RetryScript(db, actor, form, env).effects
    case Cancel(actor, form, env) => Enroll.CancelScript(db, actor, form, env).effects
    case PlanVerification(actor, v, form) => Verify.PlanScript(db, actor, v, form).effects
    case ConfirmVerification(actor, form, env) => Verify.ConfirmScript(db, actor, form, env).effects
    case Recover(ids) => Verify.RecoverScript(db, ids).effects
    case PlanDeenrollment(actor, d, form, env) => Unmanage.PlanScript(db, actor, d, form, env).effects
    case ConfirmDeenrollment(actor, form, env) => Unmanage.ConfirmScript(db, actor, form, env).effects
    case Deenroll(actor, form, env) => Unmanage.ExecuteScript(db, actor, form, env).effects
    case Reconcile(actor, form, env) => Unmanage.ReconcileScript(db, actor, form, env).effects
    case PlanCleanup(actor, c, form, env) => Clean.PlanScript(db, actor, c, form, env).effects
    case VerifyCleanup(actor, form, env) => Clean.VerifyScript(db, actor, form, env).effects
    case ExecuteCleanup(actor, form, env) => Clean.ExecuteScript(db, actor, form, env).effects
    case WriteHousehold(state) => if HouseholdAllowed(db, ByOther, state) then [PutHousehold(ByOther, state)] else []
  }

  /** One arrival takes `before` to `after`. */
  ghost predicate Served(init: Db, before: Db, arrival: Arrival, after: Db) {
    && Run(init, before) && Run(init, after)
    && after.log == before.log + Take(Effects(before, arrival.request), arrival.fuel)
  }

  /** The arrivals take each state to the next. */
  ghost predicate History(init: Db, dbs: seq<Db>, arrivals: seq<Arrival>) {
    && |dbs| == |arrivals| + 1
    && (forall i :: 0 <= i < |arrivals| ==> Served(init, dbs[i], arrivals[i], dbs[i + 1]))
  }

  /** The process is restarted, serves one request and may die on the way. */
  method Serve(store: Store, arrival: Arrival)
    requires store.Valid()
    modifies store
    ensures store.Valid() && Served(store.initial, old(store.db), arrival, store.db)
  {
    hide Run, Enroll.PlanScript, Enroll.StartScript, Enroll.RetryScript, Enroll.CancelScript, Verify.PlanScript,
      Verify.ConfirmScript, Verify.RecoverScript, Unmanage.PlanScript, Unmanage.ConfirmScript,
      Unmanage.ExecuteScript, Unmanage.ReconcileScript, Clean.PlanScript, Clean.VerifyScript, Clean.ExecuteScript;
    store.Restart(arrival.fuel);
    var enrollment := new Enroll.Runtime(store);
    var verification := new Verify.Runtime(store);
    var deenrollment := new Unmanage.Runtime(store);
    var cleanup := new Clean.Runtime(store);
    match arrival.request
    case PlanExecution(p, plan, upstream) => var _ := enrollment.PlanExecution(p, plan, upstream);
    case Start(actor, form, env) => var _ := enrollment.Start(actor, form, env);
    case Retry(actor, form, env) => var _ := enrollment.Retry(actor, form, env);
    case Cancel(actor, form, env) => var _ := enrollment.Cancel(actor, form, env);
    case PlanVerification(actor, v, form) => var _ := verification.Plan(actor, v, form);
    case ConfirmVerification(actor, form, env) => var _ := verification.Confirm(actor, form, env);
    case Recover(ids) => var _ := verification.RecoverIncomplete(ids);
    case PlanDeenrollment(actor, d, form, env) => var _ := deenrollment.Plan(actor, d, form, env);
    case ConfirmDeenrollment(actor, form, env) => var _ := deenrollment.Confirm(actor, form, env);
    case Deenroll(actor, form, env) => var _ := deenrollment.Execute(actor, form, env);
    case Reconcile(actor, form, env) => var _ := deenrollment.Reconcile(actor, form, env);
    case PlanCleanup(actor, c, form, env) => var _ := cleanup.Plan(actor, c, form, env);
    case VerifyCleanup(actor, form, env) => var _ := cleanup.Verify(actor, form, env);
    case ExecuteCleanup(actor, form, env) => var _ := cleanup.Execute(actor, form, env);
    case WriteHousehold(state) =>
      if HouseholdAllowed(store.db, ByOther, state) {
        var _ := store.Commit(PutHousehold(ByOther, state));
      }
  }

  /** Whatever arrives, in whatever order, and wherever the processes die: the commands sent, the
      mutations, the Household writes and the stored references are safe, at the end and therefore
      at every moment.  `dbs` is what was stored before each arrival and at the end. */
  method ServeAll(household: HouseholdState, arrivals: seq<Arrival>) returns (store: Store, ghost dbs: seq<Db>)
    ensures fresh(store) && store.Valid()
    ensures History(store.initial, dbs, arrivals) && dbs[|arrivals|] == store.db
    ensures |dbs| == |arrivals| + 1 && Initial(dbs[0]) && dbs[0] == store.initial && dbs[0].household == household
    ensures CommandsSafe(store.db) && MutationsSafe(store.db) && FlipsSafe(store.db) && CopiesSafe(store.db)
  {
    hide Run, Served, CommandsSafe, MutationsSafe, FlipsSafe, CopiesSafe;
    store := new Store(household);
    dbs := [store.db];
    for i := 0 to |arrivals|
      invariant fresh(store) && store.Valid()
      invariant |dbs| == i + 1 && Initial(dbs[0]) && dbs[0] == store.initial && dbs[0].household == household && dbs[i] == store.db
      invariant forall k :: 0 <= k < i ==> Served(store.initial, dbs[k], arrivals[k], dbs[k + 1])
    {
      Serve(store, arrivals[i]);
      dbs := dbs + [store.db];
    }
    RunIsSafe(store.initial, store.db);
  }
}
