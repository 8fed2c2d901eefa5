/** Recovery of a verified managed-state change: however often it dies, it converges. */
module PostConditionRecovery {
  import opened Wrappers
  import opened Records
  import opened Protocol
  import opened DurableStore
  import opened Scripts
  import opened PostConditionRuntime
  import Safety = PostConditionSafety
  import Flips = HouseholdSafety

  // ----- one envelope ---------------------------------------------------------------------

  /** Only recovery fails the job of a pending envelope, and only over a Household that has moved past
      both the base and the expectation; that Household never comes back. */
  lemma ConvergentJobAlive(init: Db, db: Db, v: VerificationId)
    requires Run(init, db) && Convergent(db, v)
    ensures db.jobs[db.verifications[v].job.value].state in {Verifying, Succeeded}
  {
    Safety.Holds(init, db.log);
    hide Legal, Fold, Convergent;
    assert Safety.JobSound(db, v);
  }

  /** In every run recovery applies an envelope exactly when the actor bindings are those of the plan
      and the Household is the base or already the expected one. */
  lemma AppliesIffConvergent(init: Db, db: Db, v: VerificationId)
    requires Run(init, db)
    ensures RecoverOneScript(db, v).outcome == Success(1) <==> Convergent(db, v)
  {
    hide Run;
    if Convergent(db, v) {
      ConvergentJobAlive(init, db, v);
    }
  }

  /** What recovery does for an envelope whose expectation cannot be applied. */
  lemma ForeignShape(db: Db, v: VerificationId)
    requires Recoverable(db, v) && !Convergent(db, v)
    ensures var j := db.verifications[v].job.value;
      RecoverOneScript(db, v) == Script(if db.jobs[j].state == Verifying then [MoveJob(j, Failed, Some(Noted))] else [], Success(0))
  {
  }

  lemma MoveFails(db: Db, j: JobId)
    requires j < |db.jobs|
    ensures var after := Apply(db, MoveJob(j, Failed, Some(Noted)));
      after == db.(jobs := db.jobs[j := after.jobs[j]], log := after.log) && after.jobs[j].state == Failed
  {
  }

  /** A Household that is neither the base nor the expected one, or has other actor bindings, is
      left alone, and the envelope stays as it is. */
  lemma ForeignHouseholdUntouched(db: Db, v: VerificationId)
    requires Recoverable(db, v) && !Convergent(db, v)
    ensures var after := Fold(db, RecoverOneScript(db, v).effects);
      after.household == db.household && after.verifications == db.verifications && |after.jobs| == |db.jobs|
      && after.jobs[db.verifications[v].job.value].state != Verifying
  {
    ForeignShape(db, v);
    hide RecoverOneScript, Fold, Apply, Convergent;
    var j := db.verifications[v].job.value;
    FoldNothing(db);
    FoldOne(db, MoveJob(j, Failed, Some(Noted)));
    MoveFails(db, j);
  }

  /** An envelope whose job has failed is never written for again: in every run its Household is
      foreign, and recovery has nothing to do. */
  lemma FailedJobUntouched(init: Db, db: Db, v: VerificationId)
    requires Run(init, db) && Recoverable(db, v) && db.jobs[db.verifications[v].job.value].state == Failed
    ensures !Convergent(db, v) && RecoverOneScript(db, v) == Script([], Success(0))
  {
    hide Run, Convergent, RecoverOneScript;
    if Convergent(db, v) {
      ConvergentJobAlive(init, db, v);
    } else {
      ForeignShape(db, v);
    }
  }

  // ----- one process start after another --------------------------------------------------

  /** What recovery has left to do. */
  function Remaining(db: Db, v: VerificationId): seq<Action> {
    RecoverOneScript(db, v).effects
  }

  /** What is known, in a run, of an envelope whose expectation can be applied. */
  predicate Ready(db: Db, v: VerificationId) {
    && Convergent(db, v) && db.verifications[v].expected != Some(db.verifications[v].base)
    && db.jobs[db.verifications[v].job.value].state in {Verifying, Succeeded}
  }

  /** One step of recovery leaves exactly the rest of it to do. */
  lemma OneStep(db: Db, v: VerificationId)
    requires Ready(db, v)
    ensures v in db.verifications && Remaining(db, v) != []
    ensures var after := Apply(db, Remaining(db, v)[0]);
      && Remaining(after, v) == Remaining(db, v)[1..]
      && after.household.bindings == db.household.bindings
      && (forall w :: w in after.verifications && w != v ==> w in db.verifications && after.verifications[w] == db.verifications[w])
      && |after.jobs| == |db.jobs|
      && if |Remaining(db, v)| == 1 then Finished(after, v)
         else Ready(after, v) && v in after.verifications && after.verifications[v] == db.verifications[v]
  {
    var e := db.verifications[v];
    var j := e.job.value;
    if db.household.snapshot == e.base {
      assert Remaining(db, v)[0] == PutHousehold(ByVerification(v), HouseholdState(e.expected.value, e.bindings));
    } else if db.jobs[j].state == Verifying {
      assert Remaining(db, v) == [MoveJob(j, Succeeded, None), PutVerification(v, e.(status := VApplied))];
    } else {
      assert Remaining(db, v) == [PutVerification(v, e.(status := VApplied))];
    }
  }

  /** Applied, with the job succeeded and the Household as expected. */
  predicate Finished(db: Db, v: VerificationId) {
    && v in db.verifications
    && var e := db.verifications[v];
    && e.status == VApplied && e.expected == Some(db.household.snapshot)
    && e.job.Some? && e.job.value < |db.jobs| && db.jobs[e.job.value].state == Succeeded
  }

  /** A recovery that dies after `k` effects is resumed exactly where it stopped. */
  lemma {:induction false} CrashedRecoveryResumes(db: Db, v: VerificationId, k: nat)
    requires Ready(db, v)
    requires k <= |Remaining(db, v)|
    ensures v in db.verifications
    ensures var after := Fold(db, Remaining(db, v)[..k]);
      && Remaining(after, v) == Remaining(db, v)[k..]
      && (forall w :: w in after.verifications && w != v ==> w in db.verifications && after.verifications[w] == db.verifications[w])
      && |after.jobs| == |db.jobs|
      && if k == |Remaining(db, v)| then Finished(after, v)
         else Ready(after, v) && v in after.verifications && after.verifications[v] == db.verifications[v]
  {
    hide Fold, Apply, RecoverOneScript, Remaining, Ready, Finished;
    var effects := Remaining(db, v);
    if k == 0 {
      FoldNothing(db);
      assert effects[..0] == [] && effects[0..] == effects;
      OneStep(db, v);
    } else {
      CrashedRecoveryResumes(db, v, k - 1);
      var before := Fold(db, effects[..k - 1]);
      OneStep(before, v);
      assert effects[..k][..k - 1] == effects[..k - 1] && effects[..k][k - 1] == effects[k - 1] == Remaining(before, v)[0];
      FoldSnoc(db, effects[..k - 1], effects[k - 1]);
      assert effects[..k] == effects[..k - 1] + [effects[k - 1]];
    }
  }

  lemma ConvergentIsReady(init: Db, db: Db, v: VerificationId)
    requires Run(init, db) && Convergent(db, v)
    ensures Ready(db, v)
  {
    ConvergentJobAlive(init, db, v);
    Safety.Holds(init, db.log);
    hide Legal, Fold, Convergent;
    assert Safety.Based(db, v);
  }

  /** Recovery never calls the provider, and writes the Household at most once: exactly once if it
      is still the base. */
  lemma RecoveryEffects(init: Db, db: Db, v: VerificationId)
    requires Run(init, db) && Convergent(db, v)
    ensures var e, effects := db.verifications[v], Remaining(db, v);
      && 1 <= |effects| <= 3
      && (forall i :: 0 <= i < |effects| ==>
            effects[i].PutHousehold? || effects[i].MoveJob? || effects[i].PutVerification?)
      && (forall i :: 0 <= i < |effects| && effects[i].PutHousehold? ==>
            i == 0 && effects[0] == PutHousehold(ByVerification(v), HouseholdState(e.expected.value, e.bindings)))
      && (db.household.snapshot == e.base <==> effects[0].PutHousehold?)
  {
    hide Run;
    ConvergentIsReady(init, db, v);
  }

  // ----- what recovering one envelope changes ---------------------------------------------

  /** All that recovering `w` may change: the status of `w`, its job, and the Household from the base
      to the expected one. */
  predicate Touched(db: Db, after: Db, w: VerificationId) {
    && Recoverable(db, w) && w in after.verifications && |after.jobs| == |db.jobs|
    && var e := db.verifications[w];
    && after.verifications == db.verifications[w := e.(status := after.verifications[w].status)]
    && after.jobs == db.jobs[e.job.value := after.jobs[e.job.value]]
    && after.household.bindings == db.household.bindings
    && (after.household == db.household || (OnBase(db, w) && after.household.snapshot == e.expected.value))
  }

  /** The stored expectation can be applied and replaces the current Household. */
  predicate OnBase(db: Db, w: VerificationId) {
    Convergent(db, w) && db.household.snapshot == db.verifications[w].base
  }

  lemma FirstEffectTouches(init: Db, db: Db, w: VerificationId)
    requires Run(init, db) && Remaining(db, w) != []
    ensures var after := Apply(db, Remaining(db, w)[0]);
      Touched(db, after, w) && Remaining(after, w) == Remaining(db, w)[1..]
      && (OnBase(db, w) <==> after.household != db.household)
  {
    hide Run;
    assert Recoverable(db, w);
    var e, j := db.verifications[w], db.verifications[w].job.value;
    assert db.verifications == db.verifications[w := e] && db.jobs == db.jobs[j := db.jobs[j]];
    if Convergent(db, w) {
      ConvergentIsReady(init, db, w);
      OneStep(db, w);
      ReadyTouches(db, w);
    } else {
      ForeignShape(db, w);
      MoveFails(db, j);
      FailedIsDone(Apply(db, MoveJob(j, Failed, Some(Noted))), db, w);
    }
  }

  lemma ReadyTouches(db: Db, w: VerificationId)
    requires Ready(db, w) && Remaining(db, w) != []
    ensures var after := Apply(db, Remaining(db, w)[0]);
      Touched(db, after, w) && (OnBase(db, w) <==> after.household != db.household)
  {
    var e, j := db.verifications[w], db.verifications[w].job.value;
    assert db.verifications == db.verifications[w := e] && db.jobs == db.jobs[j := db.jobs[j]];
  }

  lemma FailedIsDone(after: Db, db: Db, w: VerificationId)
    requires Recoverable(db, w) && !Convergent(db, w)
    requires var j := db.verifications[w].job.value;
      j < |after.jobs| && after == db.(jobs := db.jobs[j := after.jobs[j]], log := after.log) && after.jobs[j].state == Failed
    ensures Remaining(after, w) == []
  {
    ForeignShape(after, w);
  }

  lemma FirstEffectEnabled(init: Db, db: Db, w: VerificationId)
    requires Run(init, db) && Remaining(db, w) != []
    ensures Run(init, Apply(db, Remaining(db, w)[0]))
  {
    PendingSound(init, db, w);
    hide Run;
    var e, j := db.verifications[w], db.verifications[w].job.value;
    if Convergent(db, w) {
      ConvergentIsReady(init, db, w);
      ReadyEnabled(db, w);
    } else {
      ForeignShape(db, w);
      MoveEnabled(db, j);
    }
    RunExtends(init, db, Remaining(db, w)[0]);
  }

  lemma ReadyEnabled(db: Db, w: VerificationId)
    requires Ready(db, w) && Pending(db, w, db.verifications[w].job.value)
    ensures Remaining(db, w) != [] && Enabled(db, Remaining(db, w)[0])
  {
    var e, j := db.verifications[w], db.verifications[w].job.value;
    if db.household.snapshot == e.base {
      WriteEnabled(db, w, HouseholdState(e.expected.value, e.bindings));
    } else if db.jobs[j].state == Verifying {
      MoveEnabled(db, j);
    } else {
      PutEnabled(db, w, e.(status := VApplied));
    }
    hide Enabled;
  }

  /** Recovering `w` to its end. */
  lemma {:induction false} Visit(init: Db, db: Db, w: VerificationId)
    requires Run(init, db)
    ensures var after := Fold(db, Remaining(db, w));
      && Run(init, after) && Remaining(after, w) == []
      && (Remaining(db, w) == [] ==> after == db)
      && (Remaining(db, w) != [] ==> Touched(db, after, w))
      && (OnBase(db, w) <==> after.household != db.household)
      && (Convergent(db, w) ==> Closed(after, w))
    decreases |Remaining(db, w)|
  {
    hide Run, Fold, Apply, Remaining, Touched, OnBase, Closed, Convergent;
    var effects := Remaining(db, w);
    if effects == [] {
      FoldNothing(db);
      IdleIsForeign(init, db, w);
    } else {
      var after := Apply(db, effects[0]);
      FirstEffectTouches(init, db, w);
      FirstEffectEnabled(init, db, w);
      FoldFirst(db, effects);
      Visit(init, after, w);
      var last := Fold(after, Remaining(after, w));
      TouchedTwice(init, db, after, last, w);
      if Convergent(db, w) {
        ConvergentIsReady(init, db, w);
        OneStep(db, w);
        if |effects| == 1 {
          FinishedIsClosed(after, w);
        } else {
          ReadyIsConvergent(after, w);
        }
      }
    }
  }

  lemma IdleIsForeign(init: Db, db: Db, w: VerificationId)
    requires Run(init, db) && Remaining(db, w) == []
    ensures !Convergent(db, w) && !OnBase(db, w)
  {
    hide Run;
    if Convergent(db, w) {
      RecoveryEffects(init, db, w);
    }
  }

  lemma FinishedIsClosed(db: Db, v: VerificationId)
    requires Finished(db, v)
    ensures Closed(db, v)
  {
  }

  lemma ReadyIsConvergent(after: Db, v: VerificationId)
    requires Ready(after, v)
    ensures Convergent(after, v)
  {
    hide Convergent;
  }

  lemma TouchedTwice(init: Db, db: Db, after: Db, last: Db, w: VerificationId)
    requires Run(init, db) && Run(init, after)
    requires Touched(db, after, w) && (OnBase(db, w) <==> after.household != db.household)
    requires if Remaining(after, w) == [] then last == after else Touched(after, last, w)
    requires OnBase(after, w) <==> last.household != after.household
    ensures Touched(db, last, w) && (OnBase(db, w) <==> last.household != db.household)
  {
    hide Run, Remaining;
    if OnBase(db, w) {
      ConvergentIsReady(init, db, w);
    }
  }

  // ----- envelopes that recovery is not visiting ------------------------------------------

  /** An envelope that recovery has nothing to do for stays as it is while another is recovered. */
  lemma QuietStays(init: Db, db: Db, after: Db, w: VerificationId, x: VerificationId)
    requires Run(init, db) && Run(init, after) && Touched(db, after, w) && x != w && Remaining(db, x) == []
    ensures Remaining(after, x) == [] && SameEnvelope(db, after, x)
  {
    Untouched(init, db, after, w, x);
    IdleIsForeign(init, db, x);
    hide Run, Touched, SameEnvelope;
    if Recoverable(db, x) {
      ForeignShape(db, x);
      StillForeign(init, db, after, w, x);
    }
    NotRecoverable(db, after, x);
  }

  /** The record and its job. */
  predicate SameEnvelope(db: Db, after: Db, x: VerificationId) {
    && (x in db.verifications <==> x in after.verifications)
    && (x in db.verifications ==>
          && after.verifications[x] == db.verifications[x]
          && |after.jobs| == |db.jobs|
          && (db.verifications[x].job.Some? && db.verifications[x].job.value < |db.jobs| ==>
                after.jobs[db.verifications[x].job.value] == db.jobs[db.verifications[x].job.value]))
  }

  lemma Untouched(init: Db, db: Db, after: Db, w: VerificationId, x: VerificationId)
    requires Run(init, db) && Touched(db, after, w) && x != w
    ensures SameEnvelope(db, after, x)
  {
    Safety.JobsNamedHolds(init, db.log);
    hide Legal, Fold;
  }

  lemma NotRecoverable(db: Db, after: Db, x: VerificationId)
    requires SameEnvelope(db, after, x)
    requires Recoverable(db, x) ==> Recoverable(after, x) && Remaining(after, x) == []
    ensures Remaining(after, x) == []
  {
  }

  lemma StillForeign(init: Db, db: Db, after: Db, w: VerificationId, x: VerificationId)
    requires Run(init, db) && Run(init, after) && Touched(db, after, w) && x != w
    requires Recoverable(db, x) && !Convergent(db, x) && SameEnvelope(db, after, x)
    requires db.jobs[db.verifications[x].job.value].state != Verifying
    ensures Recoverable(after, x) && Remaining(after, x) == []
  {
    ConvergentAfter(init, db, after, w, x);
    hide Run;
    ForeignShape(after, x);
  }

  /** What recovering `w` means for the chances of another pending envelope: none if the Household
      stays as it is, and all is lost, except for an equal expectation, if it is written. */
  lemma ConvergentAfter(init: Db, db: Db, after: Db, w: VerificationId, x: VerificationId)
    requires Run(init, db) && Run(init, after) && Touched(db, after, w) && x != w && Recoverable(db, x) && SameEnvelope(db, after, x)
    ensures Recoverable(after, x)
    ensures after.household == db.household ==> (Convergent(after, x) <==> Convergent(db, x))
    ensures after.household == db.household ==> (OnBase(after, x) <==> OnBase(db, x))
    ensures after.household != db.household ==>
      (&& !OnBase(after, x)
       && (Convergent(after, x) <==> db.verifications[x].expected == db.verifications[w].expected)
       && (Convergent(after, x) ==> Convergent(db, x)))
  {
    Safety.Holds(init, db.log);
    hide Legal, Fold;
    assert Safety.Based(db, x) && Safety.Based(db, w);
  }

  // ----- the whole of recovery ------------------------------------------------------------

  /** However far recovery has come when the process dies: the next process start does exactly the
      effects that were left. */
  lemma {:induction false} PassStep(init: Db, db: Db, ids: seq<VerificationId>) returns (w: VerificationId)
    requires Run(init, db) && RecoverScript(db, ids).effects != []
    ensures var effects := RecoverScript(db, ids).effects;
      && Remaining(db, w) != [] && effects[0] == Remaining(db, w)[0]
      && Run(init, Apply(db, effects[0])) && RecoverScript(Apply(db, effects[0]), ids).effects == effects[1..]
    decreases |ids|
  {
    hide Run, Fold, Apply, RecoverOneScript, Touched;
    var first := Remaining(db, ids[0]);
    if first != [] {
      w := ids[0];
      FirstEffectTouches(init, db, w);
      FirstEffectEnabled(init, db, w);
      FoldFirst(db, first);
    } else {
      FoldNothing(db);
      assert RecoverScript(db, ids).effects == RecoverScript(db, ids[1..]).effects;
      w := PassStep(init, db, ids[1..]);
      var after := Apply(db, Remaining(db, w)[0]);
      FirstEffectTouches(init, db, w);
      QuietStays(init, db, after, w, ids[0]);
      FoldNothing(after);
    }
  }

  lemma {:induction false} PassResumes(init: Db, db: Db, ids: seq<VerificationId>, k: nat)
    requires Run(init, db) && k <= |RecoverScript(db, ids).effects|
    ensures var effects := RecoverScript(db, ids).effects;
      && Run(init, Fold(db, effects[..k]))
      && RecoverScript(Fold(db, effects[..k]), ids).effects == effects[k..]
  {
    hide Run, Fold, Apply, RecoverScript;
    var effects := RecoverScript(db, ids).effects;
    if k == 0 {
      FoldNothing(db);
      assert effects[..0] == [] && effects[0..] == effects;
    } else {
      PassResumes(init, db, ids, k - 1);
      var _ := PassStep(init, Fold(db, effects[..k - 1]), ids);
      FoldLast(db, effects, k);
    }
  }

  /** `dbs[i + 1]` is what a process start found in `dbs[i]` and, with `fuels[i]` effects before it
      died, left behind. */
  ghost predicate Restarts(init: Db, dbs: seq<Db>, ids: seq<VerificationId>, fuels: seq<nat>) {
    && |dbs| == |fuels| + 1
    && (forall i :: 0 <= i < |dbs| ==> Run(init, dbs[i]))
    && (forall i :: 0 <= i < |fuels| ==>
          dbs[i + 1].log == dbs[i].log + Take(RecoverScript(dbs[i], ids).effects, fuels[i]))
  }

  function Sum(fuels: seq<nat>): nat {
    if fuels == [] then 0 else fuels[0] + Sum(fuels[1..])
  }

  lemma LaterRestarts(init: Db, dbs: seq<Db>, ids: seq<VerificationId>, fuels: seq<nat>)
    requires Restarts(init, dbs, ids, fuels) && fuels != []
    ensures Restarts(init, dbs[1..], ids, fuels[1..])
  {
    hide Run, RecoverScript, Take;
  }

  lemma TakeOn(effects: seq<Action>, k: nat, n: nat)
    ensures Take(effects, k) == effects[..if k < |effects| then k else |effects|]
    ensures Take(effects, k) + Take(effects[if k < |effects| then k else |effects|..], n) == Take(effects, k + n)
  {
  }

  /** However many process starts recovery takes, and wherever each of them dies: together they do
      exactly the effects that one recovery does that lives as long as all of them. */
  lemma {:induction false} RecoveryConverges(init: Db, dbs: seq<Db>, ids: seq<VerificationId>, fuels: seq<nat>)
    requires Restarts(init, dbs, ids, fuels)
    ensures dbs[|fuels|].log == dbs[0].log + Take(RecoverScript(dbs[0], ids).effects, Sum(fuels))
    ensures Sum(fuels) >= |RecoverScript(dbs[0], ids).effects| ==> dbs[|fuels|] == Fold(dbs[0], RecoverScript(dbs[0], ids).effects)
    decreases |fuels|
  {
    hide Run, RecoverScript, Take, Fold;
    var effects := RecoverScript(dbs[0], ids).effects;
    if fuels == [] {
      TakeOn(effects, 0, 0);
    } else {
      var done := if fuels[0] < |effects| then fuels[0] else |effects|;
      TakeOn(effects, fuels[0], Sum(fuels[1..]));
      RunState(init, dbs[0], dbs[1], effects[..done]);
      PassResumes(init, dbs[0], ids, done);
      LaterRestarts(init, dbs, ids, fuels);
      RecoveryConverges(init, dbs[1..], ids, fuels[1..]);
    }
    TakeOn(effects, Sum(fuels), 0);
    RunState(init, dbs[0], dbs[|fuels|], Take(effects, Sum(fuels)));
    assert effects[..|effects|] == effects;
  }

  // ----- which envelopes recovery applies -------------------------------------------------

  /** Applied, and its job succeeded. */
  predicate Closed(db: Db, v: VerificationId) {
    && v in db.verifications && db.verifications[v].status == VApplied
    && db.verifications[v].job.Some? && db.verifications[v].job.value < |db.jobs|
    && db.jobs[db.verifications[v].job.value].state == Succeeded
  }

  /** Still pending, and its job is not waiting for anything. */
  predicate LeftBehind(db: Db, after: Db, v: VerificationId)
    requires Recoverable(db, v)
  {
    && v in after.verifications && after.verifications[v] == db.verifications[v]
    && |after.jobs| == |db.jobs| && after.jobs[db.verifications[v].job.value].state != Verifying
  }

  /** The first envelope before `v` that replaces the current Household, if there is one, writes what
      `v` expects. */
  predicate Unopposed(db: Db, ids: seq<VerificationId>, v: VerificationId)
    requires v in db.verifications
  {
    ids == [] || ids[0] == v ||
    (if OnBase(db, ids[0]) then db.verifications[ids[0]].expected == db.verifications[v].expected
     else Unopposed(db, ids[1..], v))
  }

  /** The first envelope that replaces the current Household. */
  function FirstOnBase(db: Db, ids: seq<VerificationId>): (r: Option<VerificationId>)
    ensures r.Some? ==> r.value in ids && OnBase(db, r.value)
    ensures r.None? ==> forall x :: x in ids ==> !OnBase(db, x)
  {
    if ids == [] then None else if OnBase(db, ids[0]) then Some(ids[0]) else FirstOnBase(db, ids[1..])
  }

  function Writes(effects: seq<Action>): nat {
    if effects == [] then 0 else (if effects[0].PutHousehold? then 1 else 0) + Writes(effects[1..])
  }

  lemma {:induction false} WritesAdd(a: seq<Action>, b: seq<Action>)
    ensures Writes(a + b) == Writes(a) + Writes(b)
  {
    if a == [] {
      assert a + b == b;
    } else {
      assert (a + b)[1..] == a[1..] + b;
      WritesAdd(a[1..], b);
    }
  }

  lemma {:induction false} NoWrites(effects: seq<Action>)
    requires forall i :: 0 <= i < |effects| ==> !effects[i].PutHousehold?
    ensures Writes(effects) == 0
  {
    if effects != [] {
      NoWrites(effects[1..]);
    }
  }

  lemma VisitWrites(init: Db, db: Db, w: VerificationId)
    requires Run(init, db)
    ensures Writes(Remaining(db, w)) == if OnBase(db, w) then 1 else 0
    ensures forall i :: 0 <= i < |Remaining(db, w)| ==>
      Remaining(db, w)[i].PutHousehold? || Remaining(db, w)[i].MoveJob? || Remaining(db, w)[i].PutVerification?
  {
    hide Run;
    var effects := Remaining(db, w);
    if Convergent(db, w) {
      RecoveryEffects(init, db, w);
      hide Remaining;
      NoWrites(effects[1..]);
    } else {
      if Recoverable(db, w) {
        ForeignShape(db, w);
      }
      hide RecoverOneScript;
      NoWrites(effects);
    }
  }

  /** Once the Household is written, no pending envelope replaces it any more. */
  lemma {:induction false} NoneOnBase(init: Db, db: Db, after: Db, w: VerificationId, ids: seq<VerificationId>, v: VerificationId)
    requires Run(init, db) && Run(init, after) && Touched(db, after, w) && after.household != db.household && v in after.verifications
    ensures FirstOnBase(after, ids) == None && Unopposed(after, ids, v)
    decreases |ids|
  {
    hide Run, Touched, OnBase;
    if ids != [] {
      NotOnBase(init, db, after, w, ids[0]);
      NoneOnBase(init, db, after, w, ids[1..], v);
    }
  }

  lemma NotOnBase(init: Db, db: Db, after: Db, w: VerificationId, x: VerificationId)
    requires Run(init, db) && Run(init, after) && Touched(db, after, w) && after.household != db.household
    ensures !OnBase(after, x)
  {
    Safety.Holds(init, db.log);
    hide Legal, Fold;
    assert Safety.Based(db, w);
    if x in db.verifications {
      assert Safety.Based(db, x);
    }
  }

  lemma OneSameOnBase(db: Db, after: Db, w: VerificationId, x: VerificationId)
    requires Touched(db, after, w) && after.household == db.household && !OnBase(db, w)
    ensures OnBase(after, x) <==> OnBase(db, x)
    ensures x in after.verifications <==> x in db.verifications
    ensures x in db.verifications ==> after.verifications[x].expected == db.verifications[x].expected
  {
  }

  lemma {:induction false} SameOnBase(db: Db, after: Db, w: VerificationId, ids: seq<VerificationId>, v: VerificationId)
    requires Touched(db, after, w) && after.household == db.household && !OnBase(db, w)
    requires v in db.verifications && v in after.verifications
    ensures FirstOnBase(after, ids) == FirstOnBase(db, ids)
    ensures Unopposed(after, ids, v) == Unopposed(db, ids, v)
    decreases |ids|
  {
    if ids != [] {
      hide Touched, OnBase;
      OneSameOnBase(db, after, w, ids[0]);
      OneSameOnBase(db, after, w, v);
      SameOnBase(db, after, w, ids[1..], v);
    }
  }

  /** What recovery has settled stays settled for the rest of the pass. */
  lemma {:induction false} RestKeepsQuiet(init: Db, db: Db, ids: seq<VerificationId>, x: VerificationId)
    requires Run(init, db) && Remaining(db, x) == []
    ensures SameEnvelope(db, Fold(db, RecoverScript(db, ids).effects), x)
    decreases |ids|
  {
    hide Run, Fold, RecoverOneScript, Touched, Closed;
    if ids == [] {
      FoldNothing(db);
    } else {
      var one := Fold(db, Remaining(db, ids[0]));
      Visit(init, db, ids[0]);
      if ids[0] != x && Remaining(db, ids[0]) != [] {
        QuietStays(init, db, one, ids[0], x);
      }
      RestKeepsQuiet(init, one, ids[1..], x);
      FoldAppend(db, Remaining(db, ids[0]), RecoverScript(one, ids[1..]).effects);
    }
  }

  /** One recovery that is not interrupted writes the Household at most once, for the first envelope
      in key order that replaces it; it sends no command. */
  lemma {:induction false} PassHousehold(init: Db, db: Db, ids: seq<VerificationId>)
    requires Run(init, db)
    ensures var effects := RecoverScript(db, ids).effects; var after := Fold(db, effects); var first := FirstOnBase(db, ids);
      && after.household.snapshot == (if first.Some? then db.verifications[first.value].expected.value else db.household.snapshot)
      && after.household.bindings == db.household.bindings
      && Writes(effects) == (if first.Some? then 1 else 0)
      && forall i :: 0 <= i < |effects| ==> effects[i].PutHousehold? || effects[i].MoveJob? || effects[i].PutVerification?
    decreases |ids|
  {
    hide Run, Fold, RecoverOneScript, Closed;
    if ids == [] {
      FoldNothing(db);
    } else {
      var x, one := ids[0], Fold(db, Remaining(db, ids[0]));
      Visit(init, db, x);
      PassHousehold(init, one, ids[1..]);
      FoldAppend(db, Remaining(db, x), RecoverScript(one, ids[1..]).effects);
      WritesAdd(Remaining(db, x), RecoverScript(one, ids[1..]).effects);
      VisitWrites(init, db, x);
      if Remaining(db, x) != [] {
        if OnBase(db, x) {
          NoneOnBase(init, db, one, x, ids[1..], x);
        } else {
          SameOnBase(db, one, x, ids[1..], x);
        }
      }
    }
  }

  /** The outcome of recovery for a pending envelope, whatever else is pending: it is applied if and
      only if its own expectation can be applied and the first envelope before it that replaces the
      Household, if any, writes that same expectation; otherwise it stays pending. */
  lemma {:induction false} RecoveryApplies(init: Db, db: Db, ids: seq<VerificationId>, v: VerificationId)
    requires Run(init, db) && Recoverable(db, v) && v in ids
    ensures var after := Fold(db, RecoverScript(db, ids).effects);
      if Convergent(db, v) && Unopposed(db, ids, v) then Closed(after, v) else LeftBehind(db, after, v)
    decreases |ids|
  {
    hide Run, Fold, RecoverOneScript, Touched, Convergent, OnBase;
    var x, one := ids[0], Fold(db, Remaining(db, ids[0]));
    Visit(init, db, x);
    FoldAppend(db, Remaining(db, x), RecoverScript(one, ids[1..]).effects);
    if x == v {
      if !Convergent(db, v) {
        ForeignHouseholdUntouched(db, v);
      }
      RestKeepsQuiet(init, one, ids[1..], v);
    } else if Remaining(db, x) == [] {
      IdleIsForeign(init, db, x);
      RecoveryApplies(init, db, ids[1..], v);
    } else {
      Untouched(init, db, one, x, v);
      ConvergentAfter(init, db, one, x, v);
      RecoveryApplies(init, one, ids[1..], v);
      if OnBase(db, x) {
        NoneOnBase(init, db, one, x, ids[1..], v);
      } else {
        SameOnBase(db, one, x, ids[1..], v);
      }
    }
  }

  /** How many envelopes these effects apply. */
  function Applications(effects: seq<Action>): nat {
    if effects == [] then 0
    else (if effects[0].PutVerification? && effects[0].vrecord.status == VApplied then 1 else 0) + Applications(effects[1..])
  }

  lemma {:induction false} ApplicationsAdd(a: seq<Action>, b: seq<Action>)
    ensures Applications(a + b) == Applications(a) + Applications(b)
  {
    if a == [] {
      assert a + b == b;
    } else {
      assert (a + b)[1..] == a[1..] + b;
      ApplicationsAdd(a[1..], b);
    }
  }

  lemma OneCounts(db: Db, v: VerificationId)
    ensures RecoverOneScript(db, v).outcome == Success(Applications(RecoverOneScript(db, v).effects))
  {
    var effects := RecoverOneScript(db, v).effects;
    assert |effects| <= 3;
    if |effects| > 1 {
      ApplicationsAdd(effects[..1], effects[1..]);
      assert effects == effects[..1] + effects[1..];
    }
    if |effects| > 2 {
      ApplicationsAdd(effects[1..][..1], effects[1..][1..]);
      assert effects[1..] == effects[1..][..1] + effects[1..][1..];
    }
  }

  /** A recovery returns the number of envelopes it has applied. */
  lemma {:induction false} RecoveryCounts(db: Db, ids: seq<VerificationId>)
    ensures RecoverScript(db, ids).outcome == Success(Applications(RecoverScript(db, ids).effects))
    decreases |ids|
  {
    hide RecoverOneScript, Fold, Applications;
    if ids == [] {
      NoApplications();
    } else {
      var one := RecoverOneScript(db, ids[0]);
      OneCounts(db, ids[0]);
      RecoveryCounts(Fold(db, one.effects), ids[1..]);
      ApplicationsAdd(one.effects, RecoverScript(Fold(db, one.effects), ids[1..]).effects);
    }
  }

  lemma NoApplications()
    ensures Applications([]) == 0
  {
  }

  /** So, once the process starts live for as many effects in all as one recovery needs, every envelope
      that was pending has the outcome above, and the Household is the one the first of them that
      replaces it expects, or as it was. */
  lemma RecoveryFinishes(init: Db, dbs: seq<Db>, ids: seq<VerificationId>, fuels: seq<nat>)
    requires Restarts(init, dbs, ids, fuels) && Sum(fuels) >= |RecoverScript(dbs[0], ids).effects|
    ensures var before, after, first := dbs[0], dbs[|fuels|], FirstOnBase(dbs[0], ids);
      && after.household.bindings == before.household.bindings
      && after.household.snapshot == (if first.Some? then before.verifications[first.value].expected.value else before.household.snapshot)
      && forall v :: v in ids && Recoverable(before, v) ==>
           if Convergent(before, v) && Unopposed(before, ids, v) then Closed(after, v) else LeftBehind(before, after, v)
  {
    RecoveryConverges(init, dbs, ids, fuels);
    PassHousehold(init, dbs[0], ids);
    hide Run, RecoverScript, Take, Fold, Convergent, Unopposed, Closed, LeftBehind, Recoverable;
    forall v | v in ids && Recoverable(dbs[0], v)
      ensures if Convergent(dbs[0], v) && Unopposed(dbs[0], ids, v) then Closed(dbs[|fuels|], v) else LeftBehind(dbs[0], dbs[|fuels|], v)
    {
      RecoveryApplies(init, dbs[0], ids, v);
    }
  }

  /** Of two pending envelopes that replace the same Household for different devices, the first in key
      order wins; the other stays pending. */
  lemma FirstInKeyOrderWins(init: Db, db: Db, ids: seq<VerificationId>, v: VerificationId, w: VerificationId)
    requires Run(init, db) && OnBase(db, v) && FirstOnBase(db, ids) == Some(v) && w in ids && OnBase(db, w)
    requires db.verifications[v].request.binding.device != db.verifications[w].request.binding.device
    ensures var after := Fold(db, RecoverScript(db, ids).effects);
      Closed(after, v) && LeftBehind(db, after, w) && Some(after.household.snapshot) == db.verifications[v].expected
  {
    assert v in ids && OnBase(db, v) && Recoverable(db, v) && Recoverable(db, w);
    hide Run, Fold, RecoverScript, Convergent, OnBase;
    OpposedByFirst(db, ids, v, w);
    DevicesDiffer(init, db, v, w);
    RecoveryApplies(init, db, ids, v);
    RecoveryApplies(init, db, ids, w);
    PassHousehold(init, db, ids);
  }

  lemma {:induction false} OpposedByFirst(db: Db, ids: seq<VerificationId>, v: VerificationId, w: VerificationId)
    requires FirstOnBase(db, ids) == Some(v) && w in ids && OnBase(db, w) && w != v && v in db.verifications
    ensures v in ids && Unopposed(db, ids, v)
    ensures Unopposed(db, ids, w) <==> db.verifications[v].expected == db.verifications[w].expected
    decreases |ids|
  {
    hide OnBase;
    if ids[0] != v {
      assert w in ids[1..];
      OpposedByFirst(db, ids[1..], v, w);
    }
  }

  lemma DevicesDiffer(init: Db, db: Db, v: VerificationId, w: VerificationId)
    requires Run(init, db) && OnBase(db, v) && OnBase(db, w)
    requires db.verifications[v].request.binding.device != db.verifications[w].request.binding.device
    ensures db.verifications[v].expected != db.verifications[w].expected
  {
    Flips.Holds(init, db.log);
    hide Legal, Fold, FlippedSnapshot;
    var a, b := db.verifications[v], db.verifications[w];
    assert Flips.VerificationSound(db.log, v, a) && Flips.VerificationSound(db.log, w, b);
    ExpectationsDiffer(a.base, a.request.binding.device, a.request.binding.member, b.request.binding.device, b.request.binding.member);
  }

  lemma ExpectationsDiffer(base: Snapshot, device: DeviceId, member: MemberId, other: DeviceId, otherMember: MemberId)
    requires FlippedSnapshot(base, device, member, true).Success? && device != other
    requires FlippedSnapshot(base, other, otherMember, true).Success?
    ensures FlippedSnapshot(base, device, member, true) != FlippedSnapshot(base, other, otherMember, true)
  {
    var devices := base.household.devices;
    Flips.NoRefusal(devices, device, member, true);
    var i :| 0 <= i < |devices| && devices[i].deviceId == device;
    assert WithManaged(devices, device, true)[i].managed && !WithManaged(devices, other, true)[i].managed;
  }

  // ----- recovery finishes what a confirmation began --------------------------------------

  /** The record with the stored expectation. */
  function PendingRecord(e: Verification, j: JobId, result: PostResult, now: Time, expected: Snapshot): Verification {
    e.(status := VPendingApply, job := Some(j), readback := Some(result), receipt := Some(CheckReceipt(j, None, now)),
       expected := Some(expected))
  }

  /** A confirmation that applies, from its first effect to the stored expectation. */
  function UpToPending(v: VerificationId, e: Verification, job: Job, j: JobId, result: PostResult, now: Time, expected: Snapshot): seq<Action> {
    var running := e.(status := VRunning, job := Some(j));
    var verified := running.(status := VVerified, readback := Some(result), receipt := Some(CheckReceipt(j, None, now)));
    [ ConsumeStepUp(VerificationScope(v)),
      CreateJob(job),
      PutVerification(v, running),
      MoveJob(j, Running, None),
      CallReadBack(v, j),
      MoveJob(j, Verifying, Some(Noted)),
      PutVerification(v, verified),
      PutVerification(v, PendingRecord(e, j, result, now, expected))
    ]
  }

  /** A confirmation that calls the provider and applies makes these effects, and then those of
      the apply. */
  lemma FreshConfirm(db: Db, actor: Actor, form: ConfirmForm, env: Surroundings)
    requires form.verification in db.verifications && db.verifications[form.verification].status != VApplied
    requires ConfirmScript(db, actor, form, env).outcome.Success? && ConfirmScript(db, actor, form, env).outcome.value.Applied?
    ensures form.key.Some? && env.answer.ReadResult?
    ensures var v, e, j := form.verification, db.verifications[form.verification], |db.jobs|;
      var job := Job(VerifyRequest(v), actor, form.key.value, None, Preflight, None);
      var expected := FlippedSnapshot(e.base, e.request.binding.device, e.request.binding.member, true);
      && expected.Success?
      && var first := UpToPending(v, e, job, j, env.answer.result, env.now, expected.value);
      && ConfirmScript(db, actor, form, env) ==
           Then(first, ApplyScript(v, first[7].vrecord, j, db.household, Verifying, db.household.bindings))
  {
  }

  /** The record and the job after the first `n` effects of such a confirmation. */
  function RecordAt(first: seq<Action>, was: Verification, n: nat): Verification
    requires |first| == 8 && first[2].PutVerification? && first[6].PutVerification? && first[7].PutVerification?
  {
    if n < 3 then was else if n < 7 then first[2].vrecord else if n < 8 then first[6].vrecord else first[7].vrecord
  }

  lemma {:induction false} StateUpToPending(db: Db, v: VerificationId, job: Job, result: PostResult, now: Time, expected: Snapshot, n: nat)
    requires v in db.verifications && 2 <= n <= 8 && job.state == Preflight
    ensures var e := db.verifications[v];
      var first := UpToPending(v, e, job, |db.jobs|, result, now, expected);
      var after := Fold(db, first[..n]);
      && after.household == db.household && v in after.verifications
      && after.verifications[v] == RecordAt(first, e, n)
      && |after.jobs| == |db.jobs| + 1
      && after.jobs[|db.jobs|].state == (if n < 4 then Preflight else if n < 6 then Running else Verifying)
  {
    hide Fold;
    var first := UpToPending(v, db.verifications[v], job, |db.jobs|, result, now, expected);
    if n == 2 {
      FoldNothing(db);
      FoldSnoc(db, [], first[0]);
      FoldSnoc(db, [first[0]], first[1]);
      assert first[..2] == [] + [first[0]] + [first[1]] && [] + [first[0]] == [first[0]];
    } else {
      StateUpToPending(db, v, job, result, now, expected, n - 1);
      FoldSnoc(db, first[..n - 1], first[n - 1]);
      assert first[..n] == first[..n - 1] + [first[n - 1]];
    }
  }

  lemma PendingIsReady(db: Db, v: VerificationId, job: Job, result: PostResult, now: Time, expected: Snapshot)
    requires v in db.verifications && job.state == Preflight
    requires expected.generation != db.verifications[v].base.generation
    requires db.household.bindings == db.verifications[v].bindings
    requires db.household.snapshot == db.verifications[v].base || db.household.snapshot == expected
    ensures var pending := Fold(db, UpToPending(v, db.verifications[v], job, |db.jobs|, result, now, expected));
      && Ready(pending, v)
      && Remaining(pending, v) == LastEffects(db, v, result, now, expected)
  {
    var first := UpToPending(v, db.verifications[v], job, |db.jobs|, result, now, expected);
    StateUpToPending(db, v, job, result, now, expected, 8);
    assert first[..8] == first;
    hide Fold, Ready, Remaining, ApplyScript;
    StoredIsReady(Fold(db, first), v, PendingRecord(db.verifications[v], |db.jobs|, result, now, expected), |db.jobs|);
  }

  /** The effects of the apply that ends such a confirmation. */
  function LastEffects(db: Db, v: VerificationId, result: PostResult, now: Time, expected: Snapshot): seq<Action>
    requires v in db.verifications
  {
    var record := PendingRecord(db.verifications[v], |db.jobs|, result, now, expected);
    ApplyScript(v, record, |db.jobs|, db.household, Verifying, db.household.bindings).effects
  }

  lemma StoredIsReady(db: Db, v: VerificationId, e: Verification, j: JobId)
    requires v in db.verifications && db.verifications[v] == e && e.status == VPendingApply
    requires e.expected.Some? && e.expected.value != e.base && e.receipt.Some? && e.job == Some(j)
    requires j < |db.jobs| && db.jobs[j].state == Verifying
    requires db.household.bindings == e.bindings
    requires db.household.snapshot == e.base || db.household.snapshot == e.expected.value
    ensures Ready(db, v)
    ensures Remaining(db, v) == ApplyScript(v, e, j, db.household, Verifying, db.household.bindings).effects
  {
  }

  lemma ResumedAfter(db: Db, v: VerificationId, first: seq<Action>, rest: seq<Action>, k: nat)
    requires Ready(Fold(db, first), v) && Remaining(Fold(db, first), v) == rest && k <= |rest|
    ensures Remaining(Fold(db, (first + rest)[..|first| + k]), v) == rest[k..]
  {
    hide Fold, Ready, Remaining;
    CrashedRecoveryResumes(Fold(db, first), v, k);
    FoldAppend(db, first, rest[..k]);
    assert (first + rest)[..|first| + k] == first + rest[..k];
  }

  /** A confirmation that dies once its expectation is stored is finished by recovery with the very
      effects it had left; one that dies between claiming the envelope and storing the expectation
      is not touched by recovery.  (While the actor bindings are those of the plan.) */
  lemma RecoveryFinishesConfirm(db: Db, actor: Actor, form: ConfirmForm, env: Surroundings, n: nat)
    requires form.verification in db.verifications && db.verifications[form.verification].status != VApplied
    requires ConfirmScript(db, actor, form, env).outcome.Success? && ConfirmScript(db, actor, form, env).outcome.value.Applied?
    requires db.household.bindings == db.verifications[form.verification].bindings
    requires 3 <= n <= |ConfirmScript(db, actor, form, env).effects|
    ensures var effects := ConfirmScript(db, actor, form, env).effects;
      Remaining(Fold(db, effects[..n]), form.verification) == if n >= 8 then effects[n..] else []
  {
    ConfirmShape(db, actor, form, env);
    hide *;
    var e := db.verifications[form.verification];
    var expected := FlippedSnapshot(e.base, e.request.binding.device, e.request.binding.member, true).value;
    AfterCrash(db, form.verification, ConfirmJob(actor, form), env.answer.result, env.now, expected, n);
  }

  lemma AfterCrash(db: Db, v: VerificationId, job: Job, result: PostResult, now: Time, expected: Snapshot, n: nat)
    requires v in db.verifications && job.state == Preflight
    requires expected.generation != db.verifications[v].base.generation
    requires db.household.bindings == db.verifications[v].bindings
    requires db.household.snapshot == db.verifications[v].base || db.household.snapshot == expected
    requires 3 <= n <= 8 + |LastEffects(db, v, result, now, expected)|
    ensures var effects := UpToPending(v, db.verifications[v], job, |db.jobs|, result, now, expected) + LastEffects(db, v, result, now, expected);
      Remaining(Fold(db, effects[..n]), v) == if n >= 8 then effects[n..] else []
  {
    var first := UpToPending(v, db.verifications[v], job, |db.jobs|, result, now, expected);
    var rest := LastEffects(db, v, result, now, expected);
    assert |first| == 8;
    hide Fold, Remaining, UpToPending, LastEffects;
    Cut(first, rest, n);
    if n < 8 {
      EarlyCrash(db, v, job, result, now, expected, n);
    } else {
      LateCrash(db, v, job, result, now, expected, n - 8);
    }
  }

  function ConfirmJob(actor: Actor, form: ConfirmForm): Job
    requires form.key.Some?
  {
    Job(VerifyRequest(form.verification), actor, form.key.value, None, Preflight, None)
  }

  lemma ConfirmShape(db: Db, actor: Actor, form: ConfirmForm, env: Surroundings)
    requires form.verification in db.verifications && db.verifications[form.verification].status != VApplied
    requires ConfirmScript(db, actor, form, env).outcome.Success? && ConfirmScript(db, actor, form, env).outcome.value.Applied?
    ensures form.key.Some? && env.answer.ReadResult? && ConfirmJob(actor, form).state == Preflight
    ensures var v, e := form.verification, db.verifications[form.verification];
      var expected := FlippedSnapshot(e.base, e.request.binding.device, e.request.binding.member, true);
      && expected.Success? && expected.value.generation != e.base.generation
      && (db.household.snapshot == e.base || db.household.snapshot == expected.value)
      && var first := UpToPending(v, e, ConfirmJob(actor, form), |db.jobs|, env.answer.result, env.now, expected.value);
      && |first| == 8
      && ConfirmScript(db, actor, form, env).effects == first + LastEffects(db, v, env.answer.result, env.now, expected.value)
  {
    FreshConfirm(db, actor, form, env);
    AppliedHousehold(db, actor, form, env);
    hide ConfirmScript, FlippedSnapshot, ApplyScript;
  }

  lemma LateCrash(db: Db, v: VerificationId, job: Job, result: PostResult, now: Time, expected: Snapshot, k: nat)
    requires v in db.verifications && job.state == Preflight
    requires expected.generation != db.verifications[v].base.generation
    requires db.household.bindings == db.verifications[v].bindings
    requires db.household.snapshot == db.verifications[v].base || db.household.snapshot == expected
    requires k <= |LastEffects(db, v, result, now, expected)|
    ensures var first := UpToPending(v, db.verifications[v], job, |db.jobs|, result, now, expected);
      var rest := LastEffects(db, v, result, now, expected);
      Remaining(Fold(db, (first + rest)[..|first| + k]), v) == rest[k..]
  {
    hide Fold, Ready, Remaining, ApplyScript, UpToPending, LastEffects;
    PendingIsReady(db, v, job, result, now, expected);
    ResumedAfter(db, v, UpToPending(v, db.verifications[v], job, |db.jobs|, result, now, expected),
                 LastEffects(db, v, result, now, expected), k);
  }

  lemma EarlyCrash(db: Db, v: VerificationId, job: Job, result: PostResult, now: Time, expected: Snapshot, n: nat)
    requires v in db.verifications && 3 <= n < 8 && job.state == Preflight
    ensures Remaining(Fold(db, UpToPending(v, db.verifications[v], job, |db.jobs|, result, now, expected)[..n]), v) == []
  {
    StateUpToPending(db, v, job, result, now, expected, n);
    hide Fold, ApplyScript;
  }

  lemma AppliedHousehold(db: Db, actor: Actor, form: ConfirmForm, env: Surroundings)
    requires form.verification in db.verifications && db.verifications[form.verification].status != VApplied
    requires ConfirmScript(db, actor, form, env).outcome.Success? && ConfirmScript(db, actor, form, env).outcome.value.Applied?
    ensures var e := db.verifications[form.verification];
      var expected := FlippedSnapshot(e.base, e.request.binding.device, e.request.binding.member, true);
      && expected.Success? && expected.value.generation != e.base.generation
      && (db.household.snapshot == e.base || db.household.snapshot == expected.value)
  {
    hide FlipRefusal, PostFailure, Revalidation;
  }
}
