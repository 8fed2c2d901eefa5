/**
  The durable store the runtimes share, and the death of the process.

  A process that starts with `fuel` effects left dies when it attempts one more: nothing of what
  it held in memory survives, and `db` is what the next process finds.
 */
module DurableStore {
  import opened Wrappers
  import opened Records
  import opened Protocol
  import opened Scripts

  /** The script of an operation on the lifecycle's store. */
  type Script<T> = Performance<Action, T>

  /** The job the store already holds for this action, actor and idempotency key. */
  function FindKey(jobs: seq<Job>, job: Job): (r: Option<JobId>)
    ensures r.None? <==> KeyUnused(jobs, job)
    ensures r.Some? ==> r.value < |jobs| && jobs[r.value].SameKey(job)
  {
    if jobs == [] then None
    else if jobs[|jobs| - 1].SameKey(job) then Some(|jobs| - 1)
    else FindKey(jobs[..|jobs| - 1], job)
  }

  class Store {
    ghost const initial: Db
    var db: Db
    var fuel: nat

    /** The stored state is the outcome of a run of the protocol. */
    ghost predicate Valid()
      reads this
    {
      Run(initial, db)
    }

    constructor (household: HouseholdState)
      ensures Valid() && Initial(db) && db == initial && db.household == household
    {
      var empty := Db(household, map[], map[], map[], map[], [], []);
      initial := empty;
      db := empty;
      fuel := 0;
    }

    /** The process is restarted and will live for `effects` durable effects. */
    method Restart(effects: nat)
      modifies this`fuel
      ensures fuel == effects
    {
      fuel := effects;
    }

    /** One durable effect, or death.  The caller shows that the effect is a protocol step. */
    method Commit(a: Action) returns (r: Outcome)
      requires Valid() && Enabled(db, a)
      modifies this
      ensures Valid()
      ensures old(fuel) == 0 ==> r == Ended(Crashed) && db == old(db) && fuel == 0
      ensures old(fuel) > 0 ==> r == Done && db == Apply(old(db), a) && fuel == old(fuel) - 1
    {
      if fuel == 0 {
        return Ended(Crashed);
      }
      RunExtends(initial, db, a);
      fuel := fuel - 1;
      db := Apply(db, a);
      return Done;
    }

    /** Creates a job in `preflight`, or returns the one already stored for the same action, actor
        and idempotency key if it was asked for the same request. */
    method CreateActionJob(request: Request, actor: Actor, key: Key, operation: Option<OperationId>, kind: ArtifactKind := NoArtifact)
      returns (r: Result<(JobId, bool)>)
      requires Valid()
      requires var job := Job(request, actor, key, operation, Preflight, None, kind);
        KeyUnused(db.jobs, job) ==> Enabled(db, CreateJob(job))
      modifies this
      ensures Valid()
      ensures var job := Job(request, actor, key, operation, Preflight, None, kind);
        match FindKey(old(db).jobs, job)
        case Some(j) =>
          && db == old(db) && fuel == old(fuel)
          && r == if db.jobs[j].request == request then Success((j, false)) else Failure(Refused(IdempotencyConflict))
        case None =>
          && (old(fuel) == 0 ==> r == Failure(Crashed) && db == old(db) && fuel == 0)
          && (old(fuel) > 0 ==>
                r == Success((|old(db).jobs|, true)) && db == Apply(old(db), CreateJob(job)) && fuel == old(fuel) - 1)
    {
      hide Run, Enabled, Effect;
      var job := Job(request, actor, key, operation, Preflight, None, kind);
      var existing := FindKey(db.jobs, job);
      if existing.Some? {
        if db.jobs[existing.value].request != request {
          return Failure(Refused(IdempotencyConflict));
        }
        return Success((existing.value, false));
      }
      var id := |db.jobs|;
      :- Commit(CreateJob(job));
      return Success((id, true));
    }

    /** A compare-and-swap on the job's state. */
    method TransitionActionJob(id: JobId, expected: JobState, to: JobState, result: Option<JobResult>)
      returns (r: Outcome)
      requires Valid() && id < |db.jobs| && Edge(expected, to)
      requires db.jobs[id].state == expected ==> Enabled(db, MoveJob(id, to, result))
      modifies this
      ensures Valid()
      ensures old(db).jobs[id].state != expected ==>
        r == Ended(Refused(JobStateChanged)) && db == old(db) && fuel == old(fuel)
      ensures old(db).jobs[id].state == expected && old(fuel) == 0 ==>
        r == Ended(Crashed) && db == old(db) && fuel == 0
      ensures old(db).jobs[id].state == expected && old(fuel) > 0 ==>
        r == Done && db == Apply(old(db), MoveJob(id, to, result)) && fuel == old(fuel) - 1
    {
      hide Run, Enabled, Effect;
      if db.jobs[id].state != expected {
        return Ended(Refused(JobStateChanged));
      }
      r := Commit(MoveJob(id, to, result));
    }
  }
}
