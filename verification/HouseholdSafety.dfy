/** What every run keeps about the managed flag of a device and about Household updates. */
module HouseholdSafety {
  import opened Wrappers
  import opened Records
  import opened Protocol

  predicate SameCheck(a: Verification, b: Verification) {
    a.receipt == b.receipt && a.readback == b.readback && a.request == b.request && a.job == b.job
  }

  /** The log stores, for this verification, the verified receipt that `e` holds. */
  ghost predicate VerificationIssued(log: seq<Action>, v: VerificationId, e: Verification) {
    exists i :: 0 <= i < |log| && VerificationIssuedAt(log, i, v, e)
  }

  predicate VerificationIssuedAt(log: seq<Action>, i: nat, v: VerificationId, e: Verification)
    requires i < |log|
  {
    && log[i].PutVerification? && log[i].verification == v
    && log[i].vrecord.status == VVerified && SameCheck(log[i].vrecord, e)
  }

  predicate SameReadback(a: Deenrollment, b: Deenrollment) {
    a.receipt == b.receipt && a.readback == b.readback && a.target == b.target && a.maxAge == b.maxAge
  }

  ghost predicate DeenrollmentIssued(log: seq<Action>, d: DeenrollmentId, e: Deenrollment) {
    exists i :: 0 <= i < |log| && DeenrollmentIssuedAt(log, i, d, e)
  }

  predicate DeenrollmentIssuedAt(log: seq<Action>, i: nat, d: DeenrollmentId, e: Deenrollment)
    requires i < |log|
  {
    && log[i].PutDeenrollment? && log[i].deenrollment == d
    && DeenrollVerified(d, log[i].drecord) && SameReadback(log[i].drecord, e)
  }

  // ----- the invariant ------------------------------------------------------------------

  ghost predicate VerificationSound(log: seq<Action>, v: VerificationId, e: Verification) {
    && (e.expected.Some? ==>
          FlippedSnapshot(e.base, e.request.binding.device, e.request.binding.member, true) == Success(e.expected.value))
    && (e.status == VPendingApply || e.status == VApplied ==> e.expected.Some?)
    && (e.status == VVerified || e.status == VPendingApply || e.status == VApplied ==>
          VerdictPassed(e) && VerificationIssued(log, v, e))
  }

  ghost predicate VerificationsSound(db: Db) {
    forall v :: v in db.verifications ==> VerificationSound(db.log, v, db.verifications[v])
  }

  ghost predicate DeenrollmentSound(log: seq<Action>, d: DeenrollmentId, e: Deenrollment) {
    && (e.expected.Some? ==> FlippedSnapshot(e.base, e.target.device, e.target.member, false) == Success(e.expected.value))
    && (DeenrollVerified(d, e) ==> DeenrollmentIssued(log, d, e))
    && (e.status == DPendingApply || e.status == DApplied ==> DeenrollVerified(d, e))
  }

  ghost predicate DeenrollmentsSound(db: Db) {
    forall d :: d in db.deenrollments ==> DeenrollmentSound(db.log, d, db.deenrollments[d])
  }

  ghost predicate Inv(db: Db) {
    VerificationsSound(db) && DeenrollmentsSound(db)
  }

  // ----- it holds along every run -------------------------------------------------------

  lemma IssuedGrows(log: seq<Action>, a: Action, v: VerificationId, e: Verification)
    requires VerificationSound(log, v, e)
    ensures VerificationSound(log + [a], v, e)
  {
    hide VerdictPassed, FlippedSnapshot, SameCheck;
    if VerificationIssued(log, v, e) {
      var i :| 0 <= i < |log| && VerificationIssuedAt(log, i, v, e);
      assert VerificationIssuedAt(log + [a], i, v, e);
    }
  }

  lemma DeenrollmentIssuedGrows(log: seq<Action>, a: Action, d: DeenrollmentId, e: Deenrollment)
    requires DeenrollmentSound(log, d, e)
    ensures DeenrollmentSound(log + [a], d, e)
  {
    hide DeenrollVerified, FlippedSnapshot, SameReadback;
    if DeenrollmentIssued(log, d, e) {
      var i :| 0 <= i < |log| && DeenrollmentIssuedAt(log, i, d, e);
      assert DeenrollmentIssuedAt(log + [a], i, d, e);
    }
  }

  /** A newly stored verification record is sound. */
  lemma StoredVerificationSound(db: Db, v: VerificationId, e: Verification)
    requires VerificationsSound(db) && VerificationAllowed(db, v, e)
    ensures VerificationSound(db.log + [PutVerification(v, e)], v, e)
  {
    hide FlippedSnapshot, PostFailure, Verifiable;
    var a := PutVerification(v, e);
    if v in db.verifications {
      IssuedGrows(db.log, a, v, db.verifications[v]);
    }
    assert VerificationIssuedAt(db.log + [a], |db.log|, v, e) <==> e.status == VVerified;
    if v in db.verifications && VerificationIssued(db.log + [a], v, db.verifications[v]) && e.status != VVerified {
      var i :| 0 <= i < |db.log + [a]| && VerificationIssuedAt(db.log + [a], i, v, db.verifications[v]);
      assert SameCheck(e, db.verifications[v]) ==> VerificationIssuedAt(db.log + [a], i, v, e);
    }
  }

  lemma StoredDeenrollmentSound(db: Db, d: DeenrollmentId, e: Deenrollment)
    requires DeenrollmentsSound(db) && DeenrollmentAllowed(db, d, e)
    ensures DeenrollmentSound(db.log + [PutDeenrollment(d, e)], d, e)
  {
    hide FlippedSnapshot, DeenrollFailure, Confirmations, Grants;
    var a := PutDeenrollment(d, e);
    if d in db.deenrollments {
      DeenrollmentIssuedGrows(db.log, a, d, db.deenrollments[d]);
    }
    assert DeenrollVerified(d, e) ==> DeenrollmentIssuedAt(db.log + [a], |db.log|, d, e);
  }

  lemma VerificationsKept(db: Db, a: Action)
    requires VerificationsSound(db) && Enabled(db, a)
    ensures VerificationsSound(Apply(db, a))
  {
    hide CreateAllowed, MoveAllowed, ExecutionAllowed, VerificationAllowed, DeenrollmentAllowed, CleanupAllowed,
      HouseholdAllowed, ScrubAllowed, VerificationSound;
    var after := Apply(db, a);
    if a.PutVerification? {
      StoredVerificationSound(db, a.verification, a.vrecord);
    }
    forall v | v in after.verifications
      ensures VerificationSound(after.log, v, after.verifications[v])
    {
      if v in db.verifications {
        IssuedGrows(db.log, a, v, db.verifications[v]);
        ScrubbedSound(after.log, v, db.verifications[v]);
      }
    }
  }

  /** The check says nothing about the receipt the execution holds. */
  lemma ScrubbedSound(log: seq<Action>, v: VerificationId, e: Verification)
    requires VerificationSound(log, v, e)
    ensures VerificationSound(log, v, e.(executionReceipt := e.executionReceipt.(artifact := None)))
  {
    hide PostFailure, FlippedSnapshot;
    var scrubbed := e.(executionReceipt := e.executionReceipt.(artifact := None));
    if VerificationIssued(log, v, e) {
      var i :| 0 <= i < |log| && VerificationIssuedAt(log, i, v, e);
      assert VerificationIssuedAt(log, i, v, scrubbed);
    }
  }

  lemma DeenrollmentsKept(db: Db, a: Action)
    requires DeenrollmentsSound(db) && Enabled(db, a)
    ensures DeenrollmentsSound(Apply(db, a))
  {
    hide CreateAllowed, MoveAllowed, ExecutionAllowed, VerificationAllowed, DeenrollmentAllowed, CleanupAllowed,
      HouseholdAllowed, ScrubAllowed, DeenrollmentSound;
    var after := Apply(db, a);
    if a.PutDeenrollment? {
      StoredDeenrollmentSound(db, a.deenrollment, a.drecord);
    }
    forall d | d in after.deenrollments
      ensures DeenrollmentSound(after.log, d, after.deenrollments[d])
    {
      if d in db.deenrollments {
        DeenrollmentIssuedGrows(db.log, a, d, db.deenrollments[d]);
      }
    }
  }

  lemma {:induction false} Holds(init: Db, actions: seq<Action>)
    requires Initial(init) && Legal(init, actions)
    ensures Inv(Fold(init, actions))
  {
    if actions != [] {
      hide Initial, Legal, Fold, Enabled, Apply, VerificationsSound, DeenrollmentsSound;
      var before, a := actions[..|actions| - 1], actions[|actions| - 1];
      LastStep(init, actions);
      Holds(init, before);
      VerificationsKept(Fold(init, before), a);
      DeenrollmentsKept(Fold(init, before), a);
    }
  }

  // ----- every flip of a managed flag is backed by its own receipt ------------------------

  /** The write replaces `base`, which is the stored Household, and changes the managed flag of
      one device of one member, and nothing else. */
  predicate FlipsOnly(was: HouseholdState, base: Snapshot, device: DeviceId, member: MemberId, managed: bool, state: HouseholdState) {
    && was.snapshot == base && state.bindings == was.bindings
    && state.snapshot.previous == Some(base) && state.snapshot.generation == base.generation + 1 <= MAX_GENERATION
    && state.snapshot.household.members == base.household.members
    && var devices, flipped := base.household.devices, state.snapshot.household.devices;
    && |flipped| == |devices| && HasDevice(devices, device)
    && forall i :: 0 <= i < |devices| ==>
         if devices[i].deviceId == device
         then devices[i].memberId == member && devices[i].managed != managed && flipped[i] == devices[i].(managed := managed)
         else flipped[i] == devices[i]
  }

  lemma {:induction false} NoRefusal(devices: seq<Device>, device: DeviceId, member: MemberId, managed: bool)
    requires FlipRefusal(devices, device, member, managed).None?
    ensures forall i :: 0 <= i < |devices| && devices[i].deviceId == device ==>
      devices[i].memberId == member && devices[i].managed != managed
  {
    if devices != [] {
      NoRefusal(devices[1..], device, member, managed);
      forall i | 0 <= i < |devices| && devices[i].deviceId == device
        ensures devices[i].memberId == member && devices[i].managed != managed
      {
        if i > 0 {
          assert devices[i] == devices[1..][i - 1];
        }
      }
    }
  }

  lemma FlippedFlipsOnly(was: HouseholdState, base: Snapshot, device: DeviceId, member: MemberId, managed: bool, state: HouseholdState)
    requires was.snapshot == base && state.bindings == was.bindings
    requires FlippedSnapshot(base, device, member, managed) == Success(state.snapshot)
    ensures FlipsOnly(was, base, device, member, managed, state)
  {
    NoRefusal(base.household.devices, device, member, managed);
  }

  /** In every run, when a verification sets a managed flag, the write replaces exactly the
      snapshot the plan was based on and changes only the flag of the bound device of the bound
      member; and earlier a receipt was stored of a read-back that bound exactly that device and
      member, was fresh and not from the future when it was judged, and matched all signals. */
  lemma ManagedFlipHasReceipt(init: Db, actions: seq<Action>, x: nat, v: VerificationId)
    requires Initial(init) && Legal(init, actions)
    requires x < |actions| && actions[x].PutHousehold? && actions[x].source == ByVerification(v)
    ensures var before := Fold(init, actions[..x]);
      && v in before.verifications
      && var e := before.verifications[v];
      && FlipsOnly(before.household, e.base, e.request.binding.device, e.request.binding.member, true, actions[x].household)
      && exists i :: 0 <= i < x && VerificationIssuedAt(actions, i, v, e)
           && var issued := actions[i].vrecord;
              issued.readback.Some? && issued.receipt.Some? && issued.receipt.value.failure.None?
              && issued.readback.value.binding == e.request.binding
              && 0 <= issued.receipt.value.checkedAt - issued.readback.value.observedAt <= e.request.maxAge
              && issued.readback.value.status == PostVerified
              && issued.readback.value.signals == e.request.expected
  {
    hide Legal, Fold, FlippedSnapshot, FlipsOnly;
    LegalPrefix(init, actions, x);
    Holds(init, actions[..x]);
    LogIsHistory(init, actions[..x]);
    var before := Fold(init, actions[..x]);
    var e := before.verifications[v];
    FlippedFlipsOnly(before.household, e.base, e.request.binding.device, e.request.binding.member, true, actions[x].household);
    assert VerificationSound(before.log, v, e);
    var i :| 0 <= i < |before.log| && VerificationIssuedAt(before.log, i, v, e);
    assert actions[..x][i] == actions[i] && VerificationIssuedAt(actions, i, v, e);
  }

  /** The same for a de-enrollment that clears a managed flag: the receipt is of a read-back that
      found the device unmanaged at, or absent from, the provider. */
  lemma UnmanagedFlipHasReceipt(init: Db, actions: seq<Action>, x: nat, d: DeenrollmentId)
    requires Initial(init) && Legal(init, actions)
    requires x < |actions| && actions[x].PutHousehold? && actions[x].source == ByDeenrollment(d)
    ensures var before := Fold(init, actions[..x]);
      && d in before.deenrollments
      && var e := before.deenrollments[d];
      && FlipsOnly(before.household, e.base, e.target.device, e.target.member, false, actions[x].household)
      && exists i :: 0 <= i < x && DeenrollmentIssuedAt(actions, i, d, e)
           && var issued := actions[i].drecord;
              issued.readback.Some? && issued.receipt.Some? && issued.receipt.value.failure.None?
              && BoundTo(issued.readback.value, d, e.target)
              && FreshAt(issued.readback.value, e.maxAge, issued.receipt.value.checkedAt)
              && (issued.readback.value.state == ProviderUnmanaged || issued.readback.value.state == ProviderAbsent)
  {
    hide Legal, Fold, FlippedSnapshot, FlipsOnly;
    LegalPrefix(init, actions, x);
    Holds(init, actions[..x]);
    LogIsHistory(init, actions[..x]);
    var before := Fold(init, actions[..x]);
    var e := before.deenrollments[d];
    FlippedFlipsOnly(before.household, e.base, e.target.device, e.target.member, false, actions[x].household);
    assert DeenrollmentSound(before.log, d, e);
    var i :| 0 <= i < |before.log| && DeenrollmentIssuedAt(before.log, i, d, e);
    assert actions[..x][i] == actions[i] && DeenrollmentIssuedAt(actions, i, d, e);
  }

  predicate Flagged(devices: seq<Device>, device: DeviceId, managed: bool) {
    exists i :: 0 <= i < |devices| && devices[i].deviceId == device && devices[i].managed == managed
  }

  /** Nothing but the two writes above ever changes a managed flag: a device that becomes managed
      does so by a verification bound to it, and one that stops being managed by a de-enrollment. */
  lemma OnlyFlipsChangeFlags(init: Db, actions: seq<Action>, x: nat, device: DeviceId, managed: bool)
    requires Initial(init) && Legal(init, actions) && x < |actions|
    requires var devices := Fold(init, actions[..x]).household.snapshot.household.devices;
      !Flagged(devices, device, managed) && (managed || HasDevice(devices, device))
    requires Flagged(Fold(init, actions[..x + 1]).household.snapshot.household.devices, device, managed)
    ensures actions[x].PutHousehold?
    ensures managed ==>
      (&& actions[x].source.ByVerification?
       && actions[x].source.v in Fold(init, actions[..x]).verifications
       && Fold(init, actions[..x]).verifications[actions[x].source.v].request.binding.device == device)
    ensures !managed ==>
      (&& actions[x].source.ByDeenrollment?
       && actions[x].source.d in Fold(init, actions[..x]).deenrollments
       && Fold(init, actions[..x]).deenrollments[actions[x].source.d].target.device == device)
  {
    hide Legal, Fold, VerificationIssuedAt, DeenrollmentIssuedAt, CreateAllowed, MoveAllowed, ExecutionAllowed,
      VerificationAllowed, DeenrollmentAllowed, CleanupAllowed, ScrubAllowed, HouseholdAllowed, Initial;
    LegalPrefix(init, actions, x);
    var before, a := Fold(init, actions[..x]), actions[x];
    assert a.PutHousehold?;
    match a.source
    case ByVerification(v) => ManagedFlipHasReceipt(init, actions, x, v);
    case ByDeenrollment(d) => UnmanagedFlipHasReceipt(init, actions, x, d);
    case ByOther => assert HouseholdAllowed(before, ByOther, a.household); OtherKeepsFlags(before, a.household, device, managed);
  }

  lemma OtherKeepsFlags(db: Db, state: HouseholdState, device: DeviceId, managed: bool)
    requires HouseholdAllowed(db, ByOther, state)
    requires managed || HasDevice(db.household.snapshot.household.devices, device)
    requires Flagged(state.snapshot.household.devices, device, managed)
    ensures Flagged(db.household.snapshot.household.devices, device, managed)
  {
  }

  // ----- no Household update is lost ------------------------------------------------------

  /** `later` was reached from `earlier` by replacing snapshots one after another. */
  predicate Descends(later: Snapshot, earlier: Snapshot) {
    later == earlier || (later.previous.Some? && Descends(later.previous.value, earlier))
  }

  lemma HouseholdStep(db: Db, a: Action)
    requires Inv(db) && Enabled(db, a)
    ensures var was, after := db.household.snapshot, Apply(db, a).household.snapshot;
      after == was || (after.previous == Some(was) && after.generation == was.generation + 1)
  {
    hide CreateAllowed, MoveAllowed, ExecutionAllowed, VerificationAllowed, DeenrollmentAllowed, CleanupAllowed, ScrubAllowed,
      VerificationIssued, DeenrollmentIssued, DeenrollVerified, VerdictPassed, KeepsManaged, FlipRefusal;
  }

  /** Every later Household descends from every earlier one, and its generation says by how many
      replacements: no update is ever overwritten by a write that had not seen it. */
  lemma {:induction false} NoUpdateLost(init: Db, actions: seq<Action>, n: nat)
    requires Initial(init) && Legal(init, actions) && n <= |actions|
    ensures var earlier, later := Fold(init, actions[..n]).household.snapshot, Fold(init, actions).household.snapshot;
      Descends(later, earlier) && earlier.generation <= later.generation
      && (earlier.generation == later.generation ==> earlier == later)
  {
    if n == |actions| {
      assert actions[..n] == actions;
    } else {
      hide Initial, Legal, Fold, Enabled, Apply, Inv;
      var before, a := actions[..|actions| - 1], actions[|actions| - 1];
      assert actions[..n] == before[..n];
      LastStep(init, actions);
      NoUpdateLost(init, before, n);
      Holds(init, before);
      HouseholdStep(Fold(init, before), a);
    }
  }

  lemma BaseStep(db: Db, a: Action)
    requires Enabled(db, a)
    ensures forall v :: v in db.verifications ==>
      v in Apply(db, a).verifications && Apply(db, a).verifications[v].base == db.verifications[v].base
    ensures forall d :: d in db.deenrollments ==>
      d in Apply(db, a).deenrollments && Apply(db, a).deenrollments[d].base == db.deenrollments[d].base
  {
    hide CreateAllowed, MoveAllowed, ExecutionAllowed, CleanupAllowed, HouseholdAllowed, ScrubAllowed,
      VerdictPassed, DeenrollVerified, Judged, FlippedSnapshot, Confirmations, Grants, JobFor;
  }

  /** The snapshot a plan is based on never changes. */
  lemma {:induction false} BaseStays(init: Db, actions: seq<Action>, n: nat)
    requires Initial(init) && Legal(init, actions) && n <= |actions|
    ensures var was, after := Fold(init, actions[..n]), Fold(init, actions);
      && (forall v :: v in was.verifications ==> v in after.verifications && after.verifications[v].base == was.verifications[v].base)
      && (forall d :: d in was.deenrollments ==> d in after.deenrollments && after.deenrollments[d].base == was.deenrollments[d].base)
  {
    if n == |actions| {
      assert actions[..n] == actions;
    } else {
      hide Initial, Legal, Fold, Enabled, Apply;
      var before := actions[..|actions| - 1];
      assert actions[..n] == before[..n];
      LastStep(init, actions);
      BaseStays(init, before, n);
      BaseStep(Fold(init, before), actions[|actions| - 1]);
    }
  }

  /** The snapshot a lifecycle write says it replaces. */
  function SourceBase(db: Db, source: Source): Option<Snapshot> {
    match source
    case ByVerification(v) => if v in db.verifications then Some(db.verifications[v].base) else None
    case ByDeenrollment(d) => if d in db.deenrollments then Some(db.deenrollments[d].base) else None
    case ByOther => None
  }

  lemma FlipReplacesBase(init: Db, actions: seq<Action>, x: nat)
    requires Initial(init) && Legal(init, actions)
    requires x < |actions| && actions[x].PutHousehold? && !actions[x].source.ByOther?
    ensures SourceBase(Fold(init, actions[..x]), actions[x].source) == Some(Fold(init, actions[..x]).household.snapshot)
    ensures Fold(init, actions[..x + 1]).household.snapshot.generation
      == Fold(init, actions[..x]).household.snapshot.generation + 1
  {
    hide Initial, Legal, Fold, VerificationIssuedAt, DeenrollmentIssuedAt, Enabled;
    LegalPrefix(init, actions, x);
    match actions[x].source
    case ByVerification(v) => ManagedFlipHasReceipt(init, actions, x, v);
    case ByDeenrollment(d) => UnmanagedFlipHasReceipt(init, actions, x, d);
  }

  /** A verification or de-enrollment flips the Household at most once, so no two flips share a
      receipt. */
  lemma FlipsHaveOwnSource(init: Db, actions: seq<Action>, x: nat, y: nat)
    requires Initial(init) && Legal(init, actions)
    requires x < y < |actions| && actions[x].PutHousehold? && actions[y].PutHousehold?
    requires !actions[x].source.ByOther?
    ensures actions[x].source != actions[y].source
  {
    hide Initial, Legal, Fold, Descends;
    if actions[x].source == actions[y].source {
      FlipReplacesBase(init, actions, x);
      FlipReplacesBase(init, actions, y);
      LegalPrefix(init, actions, y);
      assert actions[..y][..x] == actions[..x] && actions[..y][..x + 1] == actions[..x + 1];
      BaseStays(init, actions[..y], x);
      NoUpdateLost(init, actions[..y], x + 1);
    }
  }
}
