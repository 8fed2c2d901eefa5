/** What the same cleanup request finds after a crash, for every point at which it can die. */
module CleanupRecovery {
  import opened Wrappers
  import opened Records
  import opened Protocol
  import opened DurableStore
  import opened Scripts
  import opened CleanupRuntime

  /** A new execution, from its first effect to its last. */
  function Effects(c: CleanupId, e: Cleanup, job: Job, j: JobId, present: bool, now: Time): seq<Action> {
    [CreateJob(job), MoveJob(j, Running, None)]
    + (if present then [ScrubArtifact(c, now)] else [])
    + [MoveJob(j, Verifying, Some(Noted)), MoveJob(j, Succeeded, None),
       PutCleanup(c, e.(completed := Some(CleanupReceipt(j, job.artifactKind))))]
  }

  function RunJob(actor: Actor, form: RunForm, kind: ArtifactKind): Job
    requires form.key.Some?
  {
    Job(CleanupExecuteRequest(form.plan), actor, form.key.value, None, Preflight, None, kind)
  }

  /** A request that has not been made before and is carried out. */
  predicate Fresh(db: Db, actor: Actor, form: RunForm, env: Surroundings) {
    && form.plan in db.cleanups && db.cleanups[form.plan].completed.None?
    && form.key.Some? && KeyUnused(db.jobs, RunJob(actor, form, NoArtifact))
    && ExecuteScript(db, actor, form, env).outcome.Success?
  }

  lemma FreshExecute(db: Db, actor: Actor, form: RunForm, env: Surroundings)
    requires Fresh(db, actor, form, env)
    ensures form.wellFormed
    ensures var e := db.cleanups[form.plan];
      && AuthorityRefusal(db, actor, form.plan, e, env).None? && ReadSource(db, e).Success?
      && var source := ReadSource(db, e).value;
      var job := RunJob(actor, form, source.kind);
      ExecuteScript(db, actor, form, env) ==
        Script(Effects(form.plan, e, job, |db.jobs|, source.present, env.now), Success(CleanupReceipt(|db.jobs|, source.kind)))
  {
    hide AuthorityRefusal, ReadSource;
    assert form.key.Some? ==>
      forall kind, i :: 0 <= i < |db.jobs| ==> !db.jobs[i].SameKey(RunJob(actor, form, kind)) by {
      forall kind, i | form.key.Some? && 0 <= i < |db.jobs| ensures !db.jobs[i].SameKey(RunJob(actor, form, kind)) {
        assert !db.jobs[i].SameKey(RunJob(actor, form, NoArtifact));
      }
    }
  }

  // ----- the state after the first effects ------------------------------------------------

  /** The job after the first `n` effects; a scrub, if there is one, is the third. */
  function StateAt(present: bool, n: nat): JobState {
    var m := if present && n >= 3 then n - 1 else n;
    if m <= 1 then Preflight else if m == 2 then Running else if m == 3 then Verifying else Succeeded
  }

  /** Everything an execution reads is as it was, except for the artifacts and the new job. */
  predicate SameButArtifacts(db: Db, after: Db, scrubbed: bool, c: CleanupId) {
    && after.household == db.household
    && ScrubTargets(db, c)
    && var erased := if scrubbed then Scrubbed(db, c) else db;
    && after.executions == erased.executions && after.verifications == erased.verifications
    && |after.jobs| == |db.jobs| + 1 && after.jobs[..|db.jobs|] == erased.jobs
  }

  lemma {:induction false} StateAfter(db: Db, c: CleanupId, job: Job, present: bool, now: Time, n: nat)
    requires ScrubTargets(db, c) && job.state == Preflight && job.request == CleanupExecuteRequest(c)
    requires 1 <= n <= |Effects(c, db.cleanups[c], job, |db.jobs|, present, now)|
    ensures var effects := Effects(c, db.cleanups[c], job, |db.jobs|, present, now);
      var after := Fold(db, effects[..n]);
      && SameButArtifacts(db, after, present && n >= 3, c)
      && after.jobs[|db.jobs|].state == StateAt(present, n)
      && after.jobs[|db.jobs|].request == job.request && after.jobs[|db.jobs|].actor == job.actor
      && after.jobs[|db.jobs|].key == job.key && after.jobs[|db.jobs|].artifactKind == job.artifactKind
      && c in after.cleanups
      && after.cleanups[c] == if n == |effects| then effects[n - 1].crecord else db.cleanups[c]
  {
    hide Fold;
    var effects := Effects(c, db.cleanups[c], job, |db.jobs|, present, now);
    assert effects[..n][..n - 1] == effects[..n - 1];
    FoldLast(db, effects, n);
    if n == 1 {
      FoldNothing(db);
      assert effects[..0] == [];
    } else {
      StateAfter(db, c, job, present, now, n - 1);
    }
  }

  lemma SourceAfter(db: Db, after: Db, c: CleanupId, scrubbed: bool)
    requires c in db.cleanups && ReadSource(db, db.cleanups[c]).Success? && SameButArtifacts(db, after, scrubbed, c)
    ensures ReadSource(after, db.cleanups[c]) == if scrubbed then Success(Source(NoArtifact, false)) else ReadSource(db, db.cleanups[c])
  {
    var e := db.cleanups[c];
    var j := db.executions[e.enrollment].receipt.value.job;
    assert after.jobs[j] == after.jobs[..|db.jobs|][j];
  }

  lemma AuthorityAfter(db: Db, after: Db, actor: Actor, c: CleanupId, scrubbed: bool, env: Surroundings)
    requires c in db.cleanups && SameButArtifacts(db, after, scrubbed, c)
    ensures AuthorityRefusal(after, actor, c, db.cleanups[c], env) == AuthorityRefusal(db, actor, c, db.cleanups[c], env)
  {
    hide ActorRevalidation, TargetRefusal, CleanupAuthorized;
    SameHousehold(db, after, actor, db.cleanups[c]);
  }

  lemma SameHousehold(db: Db, after: Db, actor: Actor, e: Cleanup)
    requires after.household == db.household
    ensures ActorRevalidation(after, actor, e) == ActorRevalidation(db, actor, e)
  {
  }

  /** What a job in the state after `n` effects has left to do is the rest of the effects. */
  lemma RestOfEffects(c: CleanupId, e: Cleanup, job: Job, stored: Job, j: JobId, present: bool, now: Time, n: nat)
    requires job.state == Preflight && stored.artifactKind == job.artifactKind && stored.state == StateAt(present, n)
    requires 1 <= n < |Effects(c, e, job, j, present, now)|
    ensures ProceedScript(c, e, j, stored, present && n < 3, now) ==
      Script(Effects(c, e, job, j, present, now)[n..], Success(CleanupReceipt(j, job.artifactKind)))
  {
    var effects := Effects(c, e, job, j, present, now);
    if present {
      assert effects == [effects[0], effects[1], effects[2], effects[3], effects[4], effects[5]];
    } else {
      assert effects == [effects[0], effects[1], effects[2], effects[3], effects[4]];
    }
  }

  /** The same request, sent again by the same actor after a crash behind any effect and while the
      authorization still holds, does exactly what was left and returns the same receipt; a scrub
      that was not done yet is done under the authority of the later moment. */
  lemma ExecuteAfterCrash(db: Db, actor: Actor, form: RunForm, env: Surroundings, later: Surroundings, n: nat)
    requires Fresh(db, actor, form, env)
    requires AuthorityRefusal(db, actor, form.plan, db.cleanups[form.plan], later).None?
    requires 1 <= n <= |ExecuteScript(db, actor, form, env).effects|
    ensures var script := ExecuteScript(db, actor, form, env);
      var again := ExecuteScript(Fold(db, script.effects[..n]), actor, form, later);
      && again.outcome == script.outcome
      && |again.effects| == |script.effects| - n
      && (n >= 3 || later.now == env.now ==> again.effects == script.effects[n..])
      && (forall i :: 0 <= i < |again.effects| ==>
            again.effects[i] == if script.effects[n + i].ScrubArtifact? then ScrubArtifact(form.plan, later.now) else script.effects[n + i])
  {
    FreshExecute(db, actor, form, env);
    SourceTargets(db, form.plan);
    hide Fold, AuthorityRefusal, ReadSource, ExecuteScript, ScrubTargets;
    var source := ReadSource(db, db.cleanups[form.plan]).value;
    var job := RunJob(actor, form, source.kind);
    LaterEffects(form.plan, db.cleanups[form.plan], job, |db.jobs|, source.present, env.now, later.now, n);
    AgainScript(db, actor, form, env, later, n);
  }

  lemma SourceTargets(db: Db, c: CleanupId)
    requires c in db.cleanups && ReadSource(db, db.cleanups[c]).Success?
    ensures ScrubTargets(db, c)
  {
  }

  lemma LaterEffects(c: CleanupId, e: Cleanup, job: Job, j: JobId, present: bool, now: Time, later: Time, n: nat)
    requires n <= |Effects(c, e, job, j, present, now)|
    ensures var first, again := Effects(c, e, job, j, present, now), Effects(c, e, job, j, present, later);
      && |again| == |first|
      && (n >= 3 || later == now ==> again[n..] == first[n..])
      && (forall i :: 0 <= i < |again[n..]| ==> again[n..][i] == if first[n + i].ScrubArtifact? then ScrubArtifact(c, later) else first[n + i])
  {
  }

  lemma AgainScript(db: Db, actor: Actor, form: RunForm, env: Surroundings, later: Surroundings, n: nat)
    requires Fresh(db, actor, form, env) && ScrubTargets(db, form.plan)
    requires AuthorityRefusal(db, actor, form.plan, db.cleanups[form.plan], later).None?
    requires ReadSource(db, db.cleanups[form.plan]).Success? && form.wellFormed
    requires var source := ReadSource(db, db.cleanups[form.plan]).value;
      1 <= n <= |Effects(form.plan, db.cleanups[form.plan], RunJob(actor, form, source.kind), |db.jobs|, source.present, env.now)|
    ensures var source := ReadSource(db, db.cleanups[form.plan]).value;
      var job := RunJob(actor, form, source.kind);
      var effects := Effects(form.plan, db.cleanups[form.plan], job, |db.jobs|, source.present, env.now);
      var again := Effects(form.plan, db.cleanups[form.plan], job, |db.jobs|, source.present, later.now);
      |again| == |effects|
      && ExecuteScript(Fold(db, effects[..n]), actor, form, later) == Script(again[n..], Success(CleanupReceipt(|db.jobs|, source.kind)))
  {
    hide Fold, AuthorityRefusal, ReadSource, SameButArtifacts, ScrubTargets;
    var c, e, j := form.plan, db.cleanups[form.plan], |db.jobs|;
    var source := ReadSource(db, e).value;
    var job := RunJob(actor, form, source.kind);
    var effects := Effects(c, e, job, j, source.present, env.now);
    StateAfter(db, c, job, source.present, env.now, n);
    var after := Fold(db, effects[..n]);
    if n < |effects| {
      SourceAfter(db, after, c, source.present && n >= 3);
      AuthorityAfter(db, after, actor, c, source.present && n >= 3, later);
      JobsAfter(db, after, c, source.present && n >= 3);
      RestOfEffects(c, e, job, after.jobs[j], j, source.present, later.now, n);
      hide ExecuteScript, ProceedScript, StateAt;
      Resumed(after, actor, form, later, j);
    }
  }

  lemma JobsAfter(db: Db, after: Db, c: CleanupId, scrubbed: bool)
    requires SameButArtifacts(db, after, scrubbed, c)
    ensures |after.jobs| == |db.jobs| + 1
  {
  }

  lemma Resumed(db: Db, actor: Actor, form: RunForm, env: Surroundings, j: JobId)
    requires form.wellFormed && form.key.Some? && form.plan in db.cleanups && db.cleanups[form.plan].completed.None?
    requires j == |db.jobs| - 1 && db.jobs[j].SameKey(RunJob(actor, form, NoArtifact))
    requires db.jobs[j].request == CleanupExecuteRequest(form.plan)
    requires AuthorityRefusal(db, actor, form.plan, db.cleanups[form.plan], env).None?
    requires ReadSource(db, db.cleanups[form.plan]).Success?
    ensures ExecuteScript(db, actor, form, env) ==
      ProceedScript(form.plan, db.cleanups[form.plan], j, db.jobs[j], ReadSource(db, db.cleanups[form.plan]).value.present, env.now)
  {
    hide AuthorityRefusal, ReadSource, ProceedScript;
    var kind := ReadSource(db, db.cleanups[form.plan]).value.kind;
    assert FindKey(db.jobs, RunJob(actor, form, kind)) == Some(j);
  }

  /** A copy stranded by the cleanup of another verification is never removed: the cleanup that
      would remove it refuses. */
  lemma StrandedRefused(db: Db, actor: Actor, form: RunForm, env: Surroundings)
    requires form.plan in db.cleanups && db.cleanups[form.plan].completed.None?
    requires var e := db.cleanups[form.plan];
      && e.verification in db.verifications && db.verifications[e.verification].request.binding.plan == e.enrollment
      && Safety.Stranded(db, e.verification)
    ensures ExecuteScript(db, actor, form, env).effects == []
    ensures ExecuteScript(db, actor, form, env).outcome.Failure?
  {
    hide AuthorityRefusal;
  }
}
