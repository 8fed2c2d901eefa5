/** An idempotency key names one job in every state of every run. */
module JobKeys {
  import opened Records
  import opened Protocol
  import opened DurableStore
  import opened Wrappers

  /** No two jobs have the same action, actor and idempotency key. */
  predicate KeysDistinct(jobs: seq<Job>) {
    forall i, k :: 0 <= i < k < |jobs| ==> !jobs[i].SameKey(jobs[k])
  }

  lemma {:induction false} KeysStayDistinct(init: Db, actions: seq<Action>)
    requires Initial(init) && Legal(init, actions)
    ensures KeysDistinct(Fold(init, actions).jobs)
  {
    if actions != [] {
      LastStep(init, actions);
      KeysStayDistinct(init, actions[..|actions| - 1]);
      hide Legal, Fold, Initial;
      KeysStep(Fold(init, actions[..|actions| - 1]), actions[|actions| - 1]);
    }
  }

  lemma KeysStep(db: Db, a: Action)
    requires KeysDistinct(db.jobs) && Enabled(db, a)
    ensures KeysDistinct(Apply(db, a).jobs)
  {
    hide CreateAllowed, MoveAllowed, ExecutionAllowed, VerificationAllowed, DeenrollmentAllowed, CleanupAllowed, HouseholdAllowed,
      ScrubAllowed;
  }

  lemma RunKeysDistinct(init: Db, db: Db)
    requires Run(init, db)
    ensures KeysDistinct(db.jobs)
  {
    KeysStayDistinct(init, db.log);
  }

  /** With distinct keys a job is found by its own key. */
  lemma FoundByKey(jobs: seq<Job>, j: JobId, job: Job)
    requires KeysDistinct(jobs) && j < |jobs| && jobs[j].SameKey(job)
    ensures FindKey(jobs, job) == Some(j)
  {
    hide FindKey;
    assert !KeyUnused(jobs, job);
  }
}
