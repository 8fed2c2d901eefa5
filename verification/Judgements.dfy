/**
  What the small judgements of the lifecycle mean, said of the records alone: who may act, which device an
  operation may be about, which answer of the provider is accepted, and which read-back passes.
 */
module Judgements {
  import opened Wrappers
  import opened Records

  // ----- actors and devices ---------------------------------------------------------------

  /** The first binding of the actor is to this member. */
  predicate BoundAs(bindings: seq<ActorBinding>, actor: Actor, member: MemberId) {
    exists i :: 0 <= i < |bindings| && bindings[i] == ActorBinding(actor, member)
                && forall k :: 0 <= k < i ==> bindings[k].actor != actor
  }

  predicate Unbound(bindings: seq<ActorBinding>, actor: Actor) {
    forall i :: 0 <= i < |bindings| ==> bindings[i].actor != actor
  }

  lemma {:induction false} MemberOfMeans(bindings: seq<ActorBinding>, actor: Actor)
    ensures MemberOf(bindings, actor).None? <==> Unbound(bindings, actor)
    ensures forall m: MemberId :: MemberOf(bindings, actor) == Some(m) <==> BoundAs(bindings, actor, m)
  {
    if bindings != [] && bindings[0].actor != actor {
      MemberOfMeans(bindings[1..], actor);
      forall m: MemberId ensures BoundAs(bindings, actor, m) <==> BoundAs(bindings[1..], actor, m) {
        BoundFurther(bindings, actor, m);
      }
      assert bindings == [bindings[0]] + bindings[1..];
    }
  }

  lemma BoundFurther(bindings: seq<ActorBinding>, actor: Actor, member: MemberId)
    requires bindings != [] && bindings[0].actor != actor
    ensures BoundAs(bindings, actor, member) <==> BoundAs(bindings[1..], actor, member)
  {
    var rest := bindings[1..];
    if BoundAs(bindings, actor, member) {
      var i :| 0 <= i < |bindings| && bindings[i] == ActorBinding(actor, member)
               && forall k :: 0 <= k < i ==> bindings[k].actor != actor;
      assert rest[i - 1] == bindings[i];
    }
    if BoundAs(rest, actor, member) {
      var i :| 0 <= i < |rest| && rest[i] == ActorBinding(actor, member)
               && forall k :: 0 <= k < i ==> rest[k].actor != actor;
      assert bindings[i + 1] == rest[i];
      forall k | 0 <= k < i + 1 ensures bindings[k].actor != actor {
        assert k > 0 ==> bindings[k] == rest[k - 1];
      }
    }
  }

  predicate IsAdministrator(state: HouseholdState, member: MemberId) {
    exists m :: m in state.snapshot.household.members && m.memberId == member && m.administrator
  }

  /** The actor is bound to this member, and the member is an administrator of the Household. */
  predicate ActsAs(state: HouseholdState, actor: Actor, member: MemberId) {
    BoundAs(state.bindings, actor, member) && IsAdministrator(state, member)
  }

  ghost predicate SomeAdministrator(state: HouseholdState, actor: Actor) {
    exists m: MemberId :: ActsAs(state, actor, m)
  }

  /** Only an administrator of the Household is let through. */
  lemma ActorRefusalMeans(state: HouseholdState, actor: Actor)
    ensures forall m: MemberId ::
      ActorRefusal(state, actor).None? && MemberOf(state.bindings, actor) == Some(m) <==> ActsAs(state, actor, m)
    ensures ActorRefusal(state, actor).None? ==> MemberOf(state.bindings, actor).Some?
    ensures ActorRefusal(state, actor).None? <==> SomeAdministrator(state, actor)
    ensures ActorRefusal(state, actor) == Some(ActorNotBound) <==> Unbound(state.bindings, actor)
    ensures ActorRefusal(state, actor) == Some(NotAuthorized) <==>
      exists m: MemberId :: BoundAs(state.bindings, actor, m) && !IsAdministrator(state, m)
  {
    MemberOfMeans(state.bindings, actor);
    hide BoundAs, Unbound;
    var member := MemberOf(state.bindings, actor);
    assert member.Some? ==> BoundAs(state.bindings, actor, member.value);
  }

  /** Why an actor may not act as this member, if so. */
  ghost function ActorProblem(state: HouseholdState, actor: Actor, member: MemberId): Option<Code> {
    if Unbound(state.bindings, actor) then Some(ActorNotBound)
    else if !SomeAdministrator(state, actor) then Some(NotAuthorized)
    else if !BoundAs(state.bindings, actor, member) then Some(ActorMismatch)
    else None
  }

  lemma ActorProblemMeans(state: HouseholdState, actor: Actor, member: MemberId)
    ensures ActorProblem(state, actor, member).None? <==> ActsAs(state, actor, member)
    ensures ActorProblem(state, actor, member) ==
      if ActorRefusal(state, actor).Some? then ActorRefusal(state, actor)
      else if MemberOf(state.bindings, actor) != Some(member) then Some(ActorMismatch) else None
  {
    ActorRefusalMeans(state, actor);
    MemberOfMeans(state.bindings, actor);
    hide BoundAs, Unbound, IsAdministrator;
    if BoundAs(state.bindings, actor, member) && SomeAdministrator(state, actor) {
      var m: MemberId :| ActsAs(state, actor, m);
      assert m == member;
    }
  }

  /** The first device with this id. */
  predicate FirstDevice(devices: seq<Device>, id: DeviceId, device: Device) {
    exists i :: 0 <= i < |devices| && devices[i] == device && device.deviceId == id
                && forall k :: 0 <= k < i ==> devices[k].deviceId != id
  }

  lemma {:induction false} FindDeviceMeans(devices: seq<Device>, id: DeviceId)
    ensures FindDevice(devices, id).None? <==> !HasDevice(devices, id)
    ensures forall x: Device :: FindDevice(devices, id) == Some(x) <==> FirstDevice(devices, id, x)
  {
    if devices != [] && devices[0].deviceId != id {
      FindDeviceMeans(devices[1..], id);
      forall x: Device ensures FirstDevice(devices, id, x) <==> FirstDevice(devices[1..], id, x) {
        FirstFurther(devices, id, x);
      }
      assert devices == [devices[0]] + devices[1..];
      assert HasDevice(devices[1..], id) ==> HasDevice(devices, id) by {
        if HasDevice(devices[1..], id) {
          var i :| 0 <= i < |devices[1..]| && devices[1..][i].deviceId == id;
          assert devices[i + 1].deviceId == id;
        }
      }
    }
  }

  lemma FirstFurther(devices: seq<Device>, id: DeviceId, device: Device)
    requires devices != [] && devices[0].deviceId != id
    ensures FirstDevice(devices, id, device) <==> FirstDevice(devices[1..], id, device)
  {
    var rest := devices[1..];
    if FirstDevice(devices, id, device) {
      var i :| 0 <= i < |devices| && devices[i] == device && device.deviceId == id
               && forall k :: 0 <= k < i ==> devices[k].deviceId != id;
      assert rest[i - 1] == devices[i];
    }
    if FirstDevice(rest, id, device) {
      var i :| 0 <= i < |rest| && rest[i] == device && device.deviceId == id
               && forall k :: 0 <= k < i ==> rest[k].deviceId != id;
      assert devices[i + 1] == rest[i];
      forall k | 0 <= k < i + 1 ensures devices[k].deviceId != id {
        assert k > 0 ==> devices[k] == rest[k - 1];
      }
    }
  }

  /** The Household has this device for this member, with its managed flag as given. */
  ghost predicate DeviceIs(state: HouseholdState, id: DeviceId, member: MemberId, managed: bool) {
    exists x: Device :: FirstDevice(state.snapshot.household.devices, id, x) && x.memberId == member && x.managed == managed
  }

  /** The device belongs to this member. */
  ghost predicate DeviceOf(state: HouseholdState, id: DeviceId, member: MemberId) {
    exists x: Device :: FirstDevice(state.snapshot.household.devices, id, x) && x.memberId == member
  }

  lemma DeviceRefusalMeans(state: HouseholdState, id: DeviceId, member: MemberId, managed: bool)
    ensures var devices := state.snapshot.household.devices;
      var refusal := DeviceRefusal(devices, id, member, managed);
      && (refusal.None? <==> DeviceIs(state, id, member, managed))
      && (refusal.None? || refusal == Some(if managed then NotManaged else AlreadyManaged) <==> DeviceOf(state, id, member))
      && (refusal == Some(DeviceNotFound) <==> !HasDevice(devices, id))
      && (refusal == Some(BindingMismatch) <==> exists x: Device :: FirstDevice(devices, id, x) && x.memberId != member)
      && (refusal == Some(if managed then NotManaged else AlreadyManaged) <==> DeviceIs(state, id, member, !managed))
  {
    FindDeviceMeans(state.snapshot.household.devices, id);
    hide FirstDevice, HasDevice;
    var found := FindDevice(state.snapshot.household.devices, id);
    assert found.Some? ==> FirstDevice(state.snapshot.household.devices, id, found.value);
  }

  /** Why the device cannot be what an operation is about, if so. */
  ghost function DeviceProblem(state: HouseholdState, id: DeviceId, member: MemberId, managed: bool): Option<Code> {
    if !HasDevice(state.snapshot.household.devices, id) then Some(DeviceNotFound)
    else if !DeviceOf(state, id, member) then Some(BindingMismatch)
    else if !DeviceIs(state, id, member, managed) then Some(if managed then NotManaged else AlreadyManaged)
    else None
  }

  lemma DeviceProblemMeans(state: HouseholdState, id: DeviceId, member: MemberId, managed: bool)
    ensures DeviceRefusal(state.snapshot.household.devices, id, member, managed) == DeviceProblem(state, id, member, managed)
    ensures DeviceProblem(state, id, member, managed).None? <==> DeviceIs(state, id, member, managed)
  {
    DeviceRefusalMeans(state, id, member, managed);
    hide FirstDevice, HasDevice;
  }

  /** The flag can be set: there is such a device, all of this id are that member's and have the other
      flag, and the generation can grow. */
  predicate Flippable(base: Snapshot, id: DeviceId, member: MemberId, managed: bool) {
    var devices := base.household.devices;
    && (exists i :: 0 <= i < |devices| && devices[i].deviceId == id)
    && (forall i :: 0 <= i < |devices| && devices[i].deviceId == id ==> devices[i].memberId == member && devices[i].managed != managed)
    && base.generation < 0x7FFF_FFFF_FFFF_FFFF
  }

  /** The base with that flag set, one generation on. */
  ghost predicate IsFlipped(base: Snapshot, id: DeviceId, managed: bool, s: Snapshot) {
    && s.generation == base.generation + 1 && s.previous == Some(base)
    && s.household.members == base.household.members
    && var was, now := base.household.devices, s.household.devices;
    && |now| == |was|
    && forall i :: 0 <= i < |was| ==> now[i] == if was[i].deviceId == id then was[i].(managed := managed) else was[i]
  }

  lemma {:induction false} NoRefusalMeans(devices: seq<Device>, id: DeviceId, member: MemberId, managed: bool)
    ensures FlipRefusal(devices, id, member, managed).None? <==>
      forall i :: 0 <= i < |devices| && devices[i].deviceId == id ==> devices[i].memberId == member && devices[i].managed != managed
  {
    if devices != [] {
      NoRefusalMeans(devices[1..], id, member, managed);
      assert devices == [devices[0]] + devices[1..];
      assert forall i :: 0 <= i < |devices| - 1 ==> devices[1..][i] == devices[i + 1];
    }
  }

  lemma FlippedMeans(base: Snapshot, id: DeviceId, member: MemberId, managed: bool)
    ensures FlippedSnapshot(base, id, member, managed).Success? <==> Flippable(base, id, member, managed)
    ensures forall s :: FlippedSnapshot(base, id, member, managed) == Success(s) <==>
      Flippable(base, id, member, managed) && IsFlipped(base, id, managed, s)
  {
    NoRefusalMeans(base.household.devices, id, member, managed);
    var flipped := FlippedSnapshot(base, id, member, managed);
    hide FlipRefusal;
    if flipped.Success? {
      forall s | IsFlipped(base, id, managed, s) ensures s == flipped.value {
        assert s.household.devices == flipped.value.household.devices;
      }
    }
  }

  // ----- the provider's answers -----------------------------------------------------------

  /** The answer has the closed schema, and the one-time artifact is there exactly if it was asked for,
      of the kind asked for, not expired and not for longer than the timeout. */
  predicate Accepts(plan: ExecutionPlan, now: Time, answer: StartAnswer) {
    && answer.Answered? && answer.value.Some?
    && var artifact := answer.value.value.artifact;
    && (artifact.Some? <==> plan.artifact != NoArtifact)
    && (artifact.Some? ==> artifact.value.kind == plan.artifact && now < artifact.value.expiresAt <= now + plan.timeoutSeconds)
  }

  lemma AcceptedStartMeans(plan: ExecutionPlan, now: Time, answer: StartAnswer)
    ensures AcceptedStart(plan, now, answer).Some? <==> Accepts(plan, now, answer)
    ensures Accepts(plan, now, answer) ==> AcceptedStart(plan, now, answer) == answer.value
  {
  }

  /** The observation is neither from the future nor older than the plan permits. */
  predicate Timely(observedAt: Time, maxAge: int, now: Time) {
    observedAt <= now <= observedAt + maxAge
  }

  predicate PostPasses(request: PostRequest, result: PostResult, now: Time) {
    && result.binding == request.binding && Timely(result.observedAt, request.maxAge, now)
    && result.status == PostVerified && result.signals == request.expected
  }

  /** The read-back is rejected, and for this reason. */
  predicate PostRejectedFor(request: PostRequest, result: PostResult, now: Time, reason: Reason) {
    var bound, timely := result.binding == request.binding, Timely(result.observedAt, request.maxAge, now);
    match reason
    case BindingMismatchReason => !bound
    case FutureObservation => bound && now < result.observedAt
    case StaleObservation =>
      bound && result.observedAt <= now && (now > result.observedAt + request.maxAge || result.status == PostStale)
    case AmbiguousReason => bound && timely && result.status == PostAmbiguous
    case NotEnrolledReason => bound && timely && result.status == PostNotEnrolled
    case SignalMismatch =>
      bound && timely && (result.status == PostNotVerified || (result.status == PostVerified && result.signals != request.expected))
    case StillManaged => false
    case UnknownState => false
  }

  lemma PostFailureMeans(request: PostRequest, result: PostResult, now: Time)
    ensures PostFailure(request, result, now).None? <==> PostPasses(request, result, now)
    ensures forall r :: PostFailure(request, result, now) == Some(r) <==> PostRejectedFor(request, result, now, r)
  {
  }

  /** The provider reports of exactly this plan's device that it does not manage it any more. */
  predicate Released(plan: nat, target: Target, maxAge: int, result: ReadbackResult, now: Time) {
    && result.plan == plan && result.provider == target.provider && result.operation == target.operation
    && result.device == target.device && result.member == target.member
    && Timely(result.observedAt, maxAge, now)
    && (result.state == ProviderUnmanaged || result.state == ProviderAbsent)
  }

  predicate DeenrollRejectedFor(plan: nat, target: Target, maxAge: int, result: ReadbackResult, now: Time, reason: Reason) {
    var bound := result.plan == plan && result.provider == target.provider && result.operation == target.operation
                 && result.device == target.device && result.member == target.member;
    var timely := Timely(result.observedAt, maxAge, now);
    match reason
    case BindingMismatchReason => !bound
    case FutureObservation => bound && now < result.observedAt
    case StaleObservation => bound && result.observedAt <= now && now > result.observedAt + maxAge
    case StillManaged => bound && timely && result.state == ProviderManaged
    case UnknownState => bound && timely && result.state == ProviderUnknown
    case AmbiguousReason => bound && timely && result.state == ProviderAmbiguous
    case NotEnrolledReason => false
    case SignalMismatch => false
  }

  lemma DeenrollFailureMeans(plan: nat, target: Target, maxAge: int, result: ReadbackResult, now: Time)
    ensures DeenrollFailure(plan, target, maxAge, result, now).None? <==> Released(plan, target, maxAge, result, now)
    ensures forall r :: DeenrollFailure(plan, target, maxAge, result, now) == Some(r) <==>
      DeenrollRejectedFor(plan, target, maxAge, result, now, r)
  {
  }

  lemma CleanupAuthorizedMeans(id: CleanupId, record: Cleanup, result: ReadbackResult, now: Time)
    ensures CleanupAuthorized(id, record, result, now) <==> Released(id, record.target, record.maxAge, result, now)
  {
  }
}
