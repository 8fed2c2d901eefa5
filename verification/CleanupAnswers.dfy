/**
  When a cleanup may be planned, when its verification authorizes it, and when its execution removes the
  reference, said of the stored records, the request and what the provider answers.
 */
module CleanupAnswers {
  import opened Wrappers
  import opened Records
  import opened Protocol
  import opened DurableStore
  import opened Scripts
  import opened CleanupRuntime
  import opened JobKeys
  import opened Judgements
  import Recovery = CleanupRecovery

  type Source = CleanupRuntime.Source

  // ----- planning -------------------------------------------------------------------------

  /** This verification was rejected, with a receipt. */
  predicate RejectedBy(db: Db, v: VerificationId) {
    v in db.verifications && db.verifications[v].status == VRejected && db.verifications[v].receipt.Some?
  }

  ghost predicate Plannable(db: Db, actor: Actor, member: MemberId, form: PlanForm, env: Surroundings) {
    && form.wellFormed && env.clockValid && 1 <= form.maxAge <= 3600
    && ActsAs(db.household, actor, member) && RejectedBy(db, form.verification)
    && var binding := db.verifications[form.verification].request.binding;
       DeviceIs(db.household, binding.device, binding.member, false)
  }

  predicate PlannedFor(db: Db, member: MemberId, form: PlanForm, r: Cleanup)
    requires RejectedBy(db, form.verification)
  {
    var verification := db.verifications[form.verification];
    var binding := verification.request.binding;
    && r.verification == form.verification && r.enrollment == binding.plan && r.maxAge == form.maxAge && r.actorMember == member
    && r.target.provider == binding.provider && r.target.operation == binding.operation
    && r.target.device == binding.device && r.target.member == binding.member
    && r.base == db.household.snapshot && r.bindings == db.household.bindings && verification.receipt == Some(r.rejected)
    && r.status == CPlanned && r.readback.None? && r.completed.None?
  }

  lemma PlannableMeans(db: Db, actor: Actor, form: PlanForm, env: Surroundings)
    ensures PlanRefusal(db, actor, form, env).None? ==> MemberOf(db.household.bindings, actor).Some?
    ensures forall m: MemberId ::
      PlanRefusal(db, actor, form, env).None? && MemberOf(db.household.bindings, actor) == Some(m) <==> Plannable(db, actor, m, form, env)
  {
    ActorRefusalMeans(db.household, actor);
    if RejectedBy(db, form.verification) {
      var binding := db.verifications[form.verification].request.binding;
      DeviceRefusalMeans(db.household, binding.device, binding.member, false);
    }
    hide ActorRefusal, MemberOf, DeviceRefusal, DeviceIs, ActsAs, FirstDevice, HasDevice;
  }

  /** A cleanup is planned if and only if it may be and its id is free or holds the same plan. */
  lemma PlanStoredIff(db: Db, actor: Actor, c: CleanupId, form: PlanForm, env: Surroundings)
    ensures var script := PlanScript(db, actor, c, form, env);
      && (script.outcome.Success? <==>
            exists m: MemberId :: Plannable(db, actor, m, form, env)
              && (c in db.cleanups ==> PlannedFor(db, m, form, db.cleanups[c])))
      && (script.outcome.Failure? ==> script.effects == [])
      && (script.outcome.Success? ==>
            && (exists m: MemberId :: Plannable(db, actor, m, form, env) && PlannedFor(db, m, form, script.outcome.value))
            && script.effects == if c in db.cleanups then [] else [PutCleanup(c, script.outcome.value)])
  {
    PlannableMeans(db, actor, form, env);
    var member := MemberOf(db.household.bindings, actor);
    hide PlanRefusal, ActsAs, DeviceIs, MemberOf;
    if PlanRefusal(db, actor, form, env).None? {
      assert Plannable(db, actor, member.value, form, env);
    }
  }

  // ----- verification ---------------------------------------------------------------------

  predicate Asks(db: Db, form: RunForm) {
    form.wellFormed && form.key.Some? && form.plan in db.cleanups
  }

  /** The actor is the administrator the cleanup was planned by, the Household and its bindings are those it
      was planned on and have the device unmanaged, and the verification is rejected as it was then. */
  ghost predicate Current(db: Db, actor: Actor, e: Cleanup) {
    && ActsAs(db.household, actor, e.actorMember)
    && db.household.snapshot == e.base && db.household.bindings == e.bindings
    && DeviceIs(db.household, e.target.device, e.target.member, false)
    && RejectedBy(db, e.verification) && db.verifications[e.verification].receipt == Some(e.rejected)
  }

  lemma CurrentMeans(db: Db, actor: Actor, c: CleanupId, e: Cleanup, env: Surroundings)
    ensures VerifyRefusal(db, actor, e).None? <==> Current(db, actor, e)
    ensures AuthorityRefusal(db, actor, c, e, env).None? <==>
      && Current(db, actor, e) && e.status == CAuthorized
      && e.readback.Some? && env.clockValid && Released(c, e.target, e.maxAge, e.readback.value, env.now)
  {
    ActorRefusalMeans(db.household, actor);
    MemberOfMeans(db.household.bindings, actor);
    DeviceRefusalMeans(db.household, e.target.device, e.target.member, false);
    if e.readback.Some? {
      CleanupAuthorizedMeans(c, e, e.readback.value, env.now);
    }
    hide ActorRefusal, MemberOf, DeviceRefusal, DeviceIs, ActsAs, FirstDevice, HasDevice, CleanupAuthorized, Released;
  }

  function VerifyJob(actor: Actor, form: RunForm): Job
    requires form.key.Some?
  {
    Job(CleanupVerifyRequest(form.plan), actor, form.key.value, None, Preflight, None)
  }

  predicate IsJudged(e: Cleanup) {
    e.status == CAuthorized || e.status == CBlocked
  }

  /** The provider is read. */
  ghost predicate Reads(db: Db, actor: Actor, form: RunForm, env: Surroundings) {
    && Asks(db, form)
    && var e := db.cleanups[form.plan];
    && !IsJudged(e) && Current(db, actor, e) && e.target.provider in env.adapters
    && KeyUnused(db.jobs, VerifyJob(actor, form))
  }

  predicate Readable(env: Surroundings) {
    env.readback.ReadResult? && env.clockValid
  }

  /** The read-back reports exactly this device, timely, as unmanaged or absent. */
  predicate Authorizes(c: CleanupId, e: Cleanup, env: Surroundings)
    requires Readable(env)
  {
    Released(c, e.target, e.maxAge, env.readback.result, env.now)
  }

  /** A verification that reads the provider stores whether the cleanup is authorized; without a judgement
      its job has failed. */
  lemma VerifyEnds(db: Db, actor: Actor, form: RunForm, env: Surroundings)
    requires Reads(db, actor, form, env)
    ensures var script, c, j := VerifyScript(db, actor, form, env), form.plan, |db.jobs|;
      var e, first := db.cleanups[c], [CreateJob(VerifyJob(actor, form)), MoveJob(j, Running, None)];
      if !Readable(env) then
        script == Script(first + [MoveJob(j, Failed, Some(Noted)), PutCleanup(c, e.(status := CCheckFailed))],
                         Failure(Refused(if env.readback.ReadRaised? then ProviderError else ResultRejected)))
      else
        var status := if Authorizes(c, e, env) then CAuthorized else CBlocked;
        script == Script(first + [MoveJob(j, Verifying, Some(Noted)), MoveJob(j, Succeeded, None),
                                  PutCleanup(c, e.(status := status, readback := Some(env.readback.result)))],
                         Success(status == CAuthorized))
  {
    CurrentMeans(db, actor, form.plan, db.cleanups[form.plan], env);
    if Readable(env) {
      CleanupAuthorizedMeans(form.plan, db.cleanups[form.plan], env.readback.result, env.now);
    }
    hide VerifyRefusal, Current, AuthorityRefusal, CleanupAuthorized, Released, FindKey, KeyUnused;
  }

  /** A verification replays the stored judgement, reads the provider, or fails without effect. */
  lemma VerifyEndsIff(db: Db, actor: Actor, form: RunForm, env: Surroundings)
    ensures var script, replays := VerifyScript(db, actor, form, env), Asks(db, form) && IsJudged(db.cleanups[form.plan]);
      && (replays ==> script == Script([], Success(db.cleanups[form.plan].status == CAuthorized)))
      && (script.outcome == Success(true) <==>
            || (replays && db.cleanups[form.plan].status == CAuthorized)
            || (Reads(db, actor, form, env) && Readable(env) && Authorizes(form.plan, db.cleanups[form.plan], env)))
      && (script.outcome.Success? <==> replays || (Reads(db, actor, form, env) && Readable(env)))
      && (script.effects != [] <==> Reads(db, actor, form, env))
  {
    if Reads(db, actor, form, env) {
      VerifyEnds(db, actor, form, env);
      hide VerifyScript, Current, Released, KeyUnused;
    } else {
      if form.plan in db.cleanups {
        CurrentMeans(db, actor, form.plan, db.cleanups[form.plan], env);
      }
      hide VerifyRefusal, Current, AuthorityRefusal, JudgeScript, Authorizes, FindKey, KeyUnused;
    }
  }

  // ----- execution ------------------------------------------------------------------------

  /** The enrollment and the verification hold one and the same one-time reference, also in the result of the
      start job, or none of the three holds any. */
  predicate Holds(db: Db, e: Cleanup, source: Source) {
    && e.enrollment in db.executions && db.executions[e.enrollment].status == Accepted && db.executions[e.enrollment].receipt.Some?
    && e.verification in db.verifications && db.verifications[e.verification].status == VRejected
    && var receipt := db.executions[e.enrollment].receipt.value;
    && receipt.plan == e.enrollment && receipt.provider == e.target.provider && receipt.operation == e.target.operation
    && receipt.device == e.target.device && receipt.member == e.target.member
    && receipt.job < |db.jobs|
    && var job := db.jobs[receipt.job];
    && job.IsStartOf(e.enrollment) && job.state == Succeeded && job.result.Some? && job.result.value.ProviderAccepted?
    && job.result.value.accepted.operation == e.target.operation
    && var a, b, c := receipt.artifact, db.verifications[e.verification].executionReceipt.artifact, job.result.value.accepted.artifact;
    if source.present then
      && a.Some? && b.Some? && c.Some? && a.value.kind == b.value.kind == c.value.kind == source.kind
      && a.value.reference == b.value.reference == c.value.reference
    else a.None? && b.None? && c.None? && source.kind == NoArtifact
  }

  lemma HoldsMeans(db: Db, e: Cleanup)
    ensures forall s :: ReadSource(db, e) == Success(s) <==> Holds(db, e, s)
  {
  }

  /** The cleanup is authorized, and its authority holds at this moment. */
  ghost predicate MayExecute(db: Db, actor: Actor, form: RunForm, env: Surroundings) {
    && Asks(db, form)
    && var e := db.cleanups[form.plan];
    && e.completed.None? && e.status == CAuthorized && Current(db, actor, e)
    && e.readback.Some? && env.clockValid && Released(form.plan, e.target, e.maxAge, e.readback.value, env.now)
  }

  /** What is left to do for a job in this state. */
  function Steps(c: CleanupId, e: Cleanup, j: JobId, state: JobState, kind: ArtifactKind, present: bool, now: Time): seq<Action> {
    (if state == Preflight then [MoveJob(j, Running, None)] else [])
    + (if present then [ScrubArtifact(c, now)] else [])
    + (if state == Preflight || state == Running then [MoveJob(j, Verifying, Some(Noted))] else [])
    + (if state != Succeeded then [MoveJob(j, Succeeded, None)] else [])
    + [PutCleanup(c, e.(completed := Some(CleanupReceipt(j, kind))))]
  }

  /** The job with this key was created by this very request, and its cleanup can go on. */
  predicate GoesOn(db: Db, actor: Actor, form: RunForm, j: JobId, present: bool) {
    && form.key.Some? && j < |db.jobs| && db.jobs[j].SameKey(Recovery.RunJob(actor, form, NoArtifact))
    && db.jobs[j].request == CleanupExecuteRequest(form.plan)
    && db.jobs[j].state != Failed && (db.jobs[j].state == Succeeded ==> !present)
  }

  lemma SameKeys(jobs: seq<Job>, actor: Actor, form: RunForm, kind: ArtifactKind)
    requires form.key.Some?
    ensures KeyUnused(jobs, Recovery.RunJob(actor, form, kind)) <==> KeyUnused(jobs, Recovery.RunJob(actor, form, NoArtifact))
    ensures forall i :: 0 <= i < |jobs| ==>
      (jobs[i].SameKey(Recovery.RunJob(actor, form, kind)) <==> jobs[i].SameKey(Recovery.RunJob(actor, form, NoArtifact)))
  {
    var there, here := Recovery.RunJob(actor, form, kind), Recovery.RunJob(actor, form, NoArtifact);
    assert forall i :: 0 <= i < |jobs| ==> (jobs[i].SameKey(there) <==> jobs[i].SameKey(here));
  }

  lemma ProceedSteps(c: CleanupId, e: Cleanup, j: JobId, job: Job, present: bool, now: Time)
    ensures var script := ProceedScript(c, e, j, job, present, now);
      if job.state == Failed then script == Refuse(PreviousAttemptFailed)
      else if job.state == Succeeded && present then script == Refuse(ReferenceStillPresent)
      else script == Script(Steps(c, e, j, job.state, job.artifactKind, present, now), Success(CleanupReceipt(j, job.artifactKind)))
  {
  }

  lemma Started(db: Db, actor: Actor, form: RunForm, env: Surroundings, source: Source)
    requires MayExecute(db, actor, form, env) && Holds(db, db.cleanups[form.plan], source)
    ensures ExecuteScript(db, actor, form, env) == StartExecutionScript(db, actor, form.plan, form.key.value, source, env.now)
  {
    CurrentMeans(db, actor, form.plan, db.cleanups[form.plan], env);
    HoldsMeans(db, db.cleanups[form.plan]);
    hide AuthorityRefusal, ReadSource, Holds, Current, StartExecutionScript, VerifyRefusal, Released;
  }

  /** A new execution creates the job with the kind of the reference, removes the reference if it is there and
      stores the receipt. */
  lemma NewExecutes(db: Db, actor: Actor, form: RunForm, env: Surroundings, source: Source)
    requires MayExecute(db, actor, form, env) && Holds(db, db.cleanups[form.plan], source)
    requires KeyUnused(db.jobs, Recovery.RunJob(actor, form, NoArtifact))
    ensures var j, c := |db.jobs|, form.plan;
      ExecuteScript(db, actor, form, env) ==
        Script([CreateJob(Recovery.RunJob(actor, form, source.kind))] + Steps(c, db.cleanups[c], j, Preflight, source.kind, source.present, env.now),
               Success(CleanupReceipt(j, source.kind)))
  {
    Started(db, actor, form, env, source);
    SameKeys(db.jobs, actor, form, source.kind);
    ProceedSteps(form.plan, db.cleanups[form.plan], |db.jobs|, Recovery.RunJob(actor, form, source.kind), source.present, env.now);
    hide ExecuteScript, MayExecute, Holds, FindKey, KeyUnused, ProceedScript, Steps;
  }

  /** A repeated one does what its job had left. */
  lemma LeftExecutes(db: Db, actor: Actor, form: RunForm, env: Surroundings, source: Source, j: JobId)
    requires KeysDistinct(db.jobs) && MayExecute(db, actor, form, env) && Holds(db, db.cleanups[form.plan], source)
    requires GoesOn(db, actor, form, j, source.present)
    ensures var c, job := form.plan, db.jobs[j];
      ExecuteScript(db, actor, form, env) ==
        Script(Steps(c, db.cleanups[c], j, job.state, job.artifactKind, source.present, env.now), Success(CleanupReceipt(j, job.artifactKind)))
  {
    Started(db, actor, form, env, source);
    SameKeys(db.jobs, actor, form, source.kind);
    FoundByKey(db.jobs, j, Recovery.RunJob(actor, form, source.kind));
    ProceedSteps(form.plan, db.cleanups[form.plan], j, db.jobs[j], source.present, env.now);
    hide ExecuteScript, MayExecute, Holds, FindKey, KeyUnused, ProceedScript, Steps, KeysDistinct;
  }

  /** The execution goes ahead. */
  ghost predicate Executes(db: Db, actor: Actor, form: RunForm, env: Surroundings, source: Source) {
    && MayExecute(db, actor, form, env) && Holds(db, db.cleanups[form.plan], source)
    && (KeyUnused(db.jobs, Recovery.RunJob(actor, form, NoArtifact)) || exists j: JobId :: j < |db.jobs| && GoesOn(db, actor, form, j, source.present))
  }

  lemma NotStarted(db: Db, actor: Actor, form: RunForm, env: Surroundings)
    requires !MayExecute(db, actor, form, env) || forall s :: !Holds(db, db.cleanups[form.plan], s)
    requires !(Asks(db, form) && db.cleanups[form.plan].completed.Some?)
    ensures ExecuteScript(db, actor, form, env).effects == [] && ExecuteScript(db, actor, form, env).outcome.Failure?
  {
    if Asks(db, form) {
      CurrentMeans(db, actor, form.plan, db.cleanups[form.plan], env);
      HoldsMeans(db, db.cleanups[form.plan]);
    }
    hide AuthorityRefusal, ReadSource, Holds, Current, StartExecutionScript, VerifyRefusal, Released;
  }

  lemma NotGoingOn(db: Db, actor: Actor, form: RunForm, env: Surroundings, source: Source)
    requires MayExecute(db, actor, form, env) && Holds(db, db.cleanups[form.plan], source)
    requires !Executes(db, actor, form, env, source)
    ensures ExecuteScript(db, actor, form, env).effects == [] && ExecuteScript(db, actor, form, env).outcome.Failure?
  {
    Started(db, actor, form, env, source);
    SameKeys(db.jobs, actor, form, source.kind);
    var found := FindKey(db.jobs, Recovery.RunJob(actor, form, source.kind));
    assert !GoesOn(db, actor, form, found.value, source.present);
    ProceedSteps(form.plan, db.cleanups[form.plan], found.value, db.jobs[found.value], source.present, env.now);
    hide ExecuteScript, MayExecute, Holds, FindKey, KeyUnused, ProceedScript;
  }

  lemma OneSource(db: Db, e: Cleanup, s: Source, t: Source)
    requires Holds(db, e, s) && Holds(db, e, t)
    ensures s == t
  {
  }

  /** An execution succeeds if and only if the cleanup is completed already, or its authority holds now, the
      three copies agree, and its key has no job or a job of this request that can go on; it scrubs if and
      only if it goes ahead and the reference is still there; and otherwise it has no effect. */
  lemma ExecuteEndsIff(db: Db, actor: Actor, form: RunForm, env: Surroundings)
    requires KeysDistinct(db.jobs)
    ensures var script, replays := ExecuteScript(db, actor, form, env), Asks(db, form) && db.cleanups[form.plan].completed.Some?;
      && (replays ==> script == Script([], Success(db.cleanups[form.plan].completed.value)))
      && (script.outcome.Success? <==> replays || exists s :: Executes(db, actor, form, env, s))
      && (script.effects != [] <==> exists s :: Executes(db, actor, form, env, s))
      && (ScrubArtifact(form.plan, env.now) in script.effects <==> exists s :: Executes(db, actor, form, env, s) && s.present)
  {
    var script := ExecuteScript(db, actor, form, env);
    if s :| Executes(db, actor, form, env, s) {
      forall t | Executes(db, actor, form, env, t) ensures t == s {
        OneSource(db, db.cleanups[form.plan], s, t);
      }
      Replaying(db, actor, form, env, s);
      ExecutesEnd(db, actor, form, env, s);
      hide ExecuteScript, Executes, KeysDistinct;
    } else if !(Asks(db, form) && db.cleanups[form.plan].completed.Some?) {
      Refuses(db, actor, form, env);
      hide ExecuteScript, MayExecute, Holds, KeyUnused, KeysDistinct;
    } else {
      hide MayExecute, Holds, KeyUnused, KeysDistinct, AuthorityRefusal, ReadSource;
    }
  }

  lemma StepsScrub(c: CleanupId, e: Cleanup, j: JobId, state: JobState, kind: ArtifactKind, present: bool, now: Time)
    ensures Steps(c, e, j, state, kind, present, now) != []
    ensures ScrubArtifact(c, now) in Steps(c, e, j, state, kind, present, now) <==> present
  {
  }

  lemma ExecutesEnd(db: Db, actor: Actor, form: RunForm, env: Surroundings, s: Source)
    requires KeysDistinct(db.jobs) && Executes(db, actor, form, env, s)
    ensures var script := ExecuteScript(db, actor, form, env);
      script.outcome.Success? && script.effects != [] && (ScrubArtifact(form.plan, env.now) in script.effects <==> s.present)
  {
    Replaying(db, actor, form, env, s);
    hide ExecuteScript, MayExecute, Holds, KeyUnused, KeysDistinct, Steps;
    var c, e := form.plan, db.cleanups[form.plan];
    if KeyUnused(db.jobs, Recovery.RunJob(actor, form, NoArtifact)) {
      NewExecutes(db, actor, form, env, s);
      StepsScrub(c, e, |db.jobs|, Preflight, s.kind, s.present, env.now);
    } else {
      var j: JobId :| j < |db.jobs| && GoesOn(db, actor, form, j, s.present);
      LeftExecutes(db, actor, form, env, s, j);
      StepsScrub(c, e, j, db.jobs[j].state, db.jobs[j].artifactKind, s.present, env.now);
    }
  }

  lemma Replaying(db: Db, actor: Actor, form: RunForm, env: Surroundings, s: Source)
    requires Executes(db, actor, form, env, s)
    ensures Asks(db, form) && db.cleanups[form.plan].completed.None?
  {
  }

  lemma Refuses(db: Db, actor: Actor, form: RunForm, env: Surroundings)
    requires forall s :: !Executes(db, actor, form, env, s)
    requires !(Asks(db, form) && db.cleanups[form.plan].completed.Some?)
    ensures ExecuteScript(db, actor, form, env).effects == [] && ExecuteScript(db, actor, form, env).outcome.Failure?
  {
    hide ExecuteScript, Holds, KeyUnused, Current, Released;
    if MayExecute(db, actor, form, env) {
      if s :| Holds(db, db.cleanups[form.plan], s) {
        NotGoingOn(db, actor, form, env, s);
      } else {
        NotStarted(db, actor, form, env);
      }
    } else {
      NotStarted(db, actor, form, env);
    }
  }

  // ----- why a request is refused ---------------------------------------------------------

  /** The first thing that a plan does not meet. */
  ghost function PlanProblem(db: Db, actor: Actor, form: PlanForm, env: Surroundings): Option<Code> {
    if !form.wellFormed then Some(InvalidRequest)
    else if Unbound(db.household.bindings, actor) then Some(ActorNotBound)
    else if !SomeAdministrator(db.household, actor) then Some(NotAuthorized)
    else if !RejectedBy(db, form.verification) then Some(VerificationNotRejected)
    else
      var binding := db.verifications[form.verification].request.binding;
      var device := DeviceProblem(db.household, binding.device, binding.member, false);
      if device.Some? then device
      else if !env.clockValid || form.maxAge < 1 || form.maxAge > 3600 then Some(InvalidRequest)
      else None
  }

  lemma PlanRefusals(db: Db, actor: Actor, c: CleanupId, form: PlanForm, env: Surroundings)
    ensures var outcome, problem := PlanScript(db, actor, c, form, env).outcome, PlanProblem(db, actor, form, env);
      && (problem.Some? ==> outcome == Failure(Refused(problem.value)))
      && (problem.None? && outcome.Failure? ==> outcome == Failure(Refused(StateInvalid)))
  {
    ActorRefusalMeans(db.household, actor);
    if RejectedBy(db, form.verification) {
      var binding := db.verifications[form.verification].request.binding;
      DeviceProblemMeans(db.household, binding.device, binding.member, false);
    }
    hide ActorRefusal, MemberOf, DeviceRefusal, Unbound, SomeAdministrator, DeviceProblem;
  }

  /** The first thing about actor, Household or bindings that is not as it was planned. */
  ghost function Outdated(db: Db, actor: Actor, e: Cleanup): Option<Code> {
    var actors := ActorProblem(db.household, actor, e.actorMember);
    if actors.Some? then actors
    else if db.household.snapshot != e.base || db.household.bindings != e.bindings then Some(Stale)
    else None
  }

  lemma OutdatedMeans(db: Db, actor: Actor, e: Cleanup)
    ensures Outdated(db, actor, e) == ActorRevalidation(db, actor, e)
  {
    ActorProblemMeans(db.household, actor, e.actorMember);
    hide ActorRefusal, MemberOf, ActorProblem, ActsAs;
  }

  lemma VerifyRefusals(db: Db, actor: Actor, form: RunForm, env: Surroundings)
    ensures var script := VerifyScript(db, actor, form, env);
      && (!form.wellFormed || form.key.None? ==> script == Refuse(InvalidRequest))
      && (form.wellFormed && form.key.Some? && form.plan !in db.cleanups ==> script == Refuse(NotFound))
      && (Asks(db, form) && !IsJudged(db.cleanups[form.plan]) ==>
            var e := db.cleanups[form.plan];
            var outdated, device := Outdated(db, actor, e), DeviceProblem(db.household, e.target.device, e.target.member, false);
            if outdated.Some? then script == Refuse(outdated.value)
            else if !RejectedBy(db, e.verification) then script == Refuse(VerificationNotRejected)
            else if db.verifications[e.verification].receipt != Some(e.rejected) then script == Refuse(BindingMismatch)
            else if device.Some? then script == Refuse(device.value)
            else e.target.provider !in env.adapters ==> script == Refuse(AdapterUnavailable))
  {
    if form.plan in db.cleanups {
      var e := db.cleanups[form.plan];
      OutdatedMeans(db, actor, e);
      DeviceProblemMeans(db.household, e.target.device, e.target.member, false);
    }
    hide ActorRevalidation, Outdated, DeviceRefusal, DeviceProblem, DeviceIs, StartVerificationScript;
  }

  lemma ExecuteRefusals(db: Db, actor: Actor, form: RunForm, env: Surroundings)
    ensures var script := ExecuteScript(db, actor, form, env);
      && (!form.wellFormed || form.key.None? ==> script == Refuse(InvalidRequest))
      && (form.wellFormed && form.key.Some? && form.plan !in db.cleanups ==> script == Refuse(NotFound))
      && (Asks(db, form) && db.cleanups[form.plan].completed.None? ==>
            var e := db.cleanups[form.plan];
            var outdated, device := Outdated(db, actor, e), DeviceProblem(db.household, e.target.device, e.target.member, false);
            if e.status != CAuthorized then script == Refuse(NotAuthorized)
            else if outdated.Some? then script == Refuse(outdated.value)
            else if device.Some? then script == Refuse(device.value)
            else if e.readback.None? then script == Refuse(StateInvalid)
            else if !env.clockValid then script == Refuse(TrustedTimeInvalid)
            else if !Released(form.plan, e.target, e.maxAge, e.readback.value, env.now) then script == Refuse(AuthorizationExpired)
            else !(RejectedBy(db, e.verification) && db.verifications[e.verification].receipt == Some(e.rejected)) ==>
              script == Refuse(BindingMismatch))
  {
    if form.plan in db.cleanups {
      var e := db.cleanups[form.plan];
      OutdatedMeans(db, actor, e);
      DeviceProblemMeans(db.household, e.target.device, e.target.member, false);
      if e.readback.Some? {
        CleanupAuthorizedMeans(form.plan, e, e.readback.value, env.now);
      }
    }
    hide ActorRevalidation, Outdated, DeviceRefusal, DeviceProblem, DeviceIs, StartExecutionScript, CleanupAuthorized, Released, ReadSource;
  }

  /** What a key that has a job already is answered with, if its cleanup cannot go on. */
  lemma UsedKeyRefusals(db: Db, actor: Actor, form: RunForm, env: Surroundings, source: Source, j: JobId)
    requires KeysDistinct(db.jobs) && MayExecute(db, actor, form, env) && Holds(db, db.cleanups[form.plan], source)
    requires j < |db.jobs| && db.jobs[j].SameKey(Recovery.RunJob(actor, form, NoArtifact)) && !GoesOn(db, actor, form, j, source.present)
    ensures ExecuteScript(db, actor, form, env) ==
      Refuse(if db.jobs[j].request != CleanupExecuteRequest(form.plan) then IdempotencyConflict
             else if db.jobs[j].state == Failed then PreviousAttemptFailed else ReferenceStillPresent)
  {
    Started(db, actor, form, env, source);
    SameKeys(db.jobs, actor, form, source.kind);
    FoundByKey(db.jobs, j, Recovery.RunJob(actor, form, source.kind));
    ProceedSteps(form.plan, db.cleanups[form.plan], j, db.jobs[j], source.present, env.now);
    hide ExecuteScript, MayExecute, Holds, FindKey, KeyUnused, ProceedScript, KeysDistinct;
  }

  lemma UsedVerifyKeyRefusals(db: Db, actor: Actor, form: RunForm, env: Surroundings, j: JobId)
    requires KeysDistinct(db.jobs) && Asks(db, form) && j < |db.jobs| && db.jobs[j].SameKey(VerifyJob(actor, form))
    requires var e := db.cleanups[form.plan];
      !IsJudged(e) && Current(db, actor, e) && e.target.provider in env.adapters
    ensures VerifyScript(db, actor, form, env) ==
      Refuse(if db.jobs[j].request != CleanupVerifyRequest(form.plan) then IdempotencyConflict
             else if db.jobs[j].state == Succeeded || db.jobs[j].state == Failed then PreviousAttemptFailed else InProgress)
  {
    CurrentMeans(db, actor, form.plan, db.cleanups[form.plan], env);
    FoundByKey(db.jobs, j, VerifyJob(actor, form));
    hide VerifyRefusal, Current, AuthorityRefusal, JudgeScript, FindKey, KeyUnused, KeysDistinct;
  }
}
