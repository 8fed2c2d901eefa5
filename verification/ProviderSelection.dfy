/**
  The choice of a provider for an enrollment: a proposal is stored, and its confirmation writes the
  binding of the enrollment first and the proposal's envelope second, with repair of either after
  a crash.  The stored key of a proposal is a digest of it and is modelled by the proposal.
 */
module ProviderSelection {
  import opened Wrappers
  import opened Records
  import opened Scripts
  import opened Judgements

  type EnrollmentId = nat

  /** `material` stands for the snapshot, catalog and resolution plan the proposal was built on. */
  datatype Proposal = Proposal(enrollment: EnrollmentId, provider: ProviderId, actorMember: MemberId, material: nat)

  datatype Receipt = Receipt(proposal: Proposal, auditEvent: nat)

  datatype Envelope = Pending | Confirmed(receipt: Receipt)

  datatype State = State(envelopes: map<Proposal, Envelope>, bindings: map<EnrollmentId, Receipt>, auditEvents: nat)

  datatype Action = StorePending(proposal: Proposal) | Audit | Bind(receipt: Receipt) | StoreConfirmed(receipt: Receipt)

  /** What is returned: the receipt, and whether this call selected the provider. */
  datatype Selected = Selected(receipt: Receipt, now: bool)

  /** What a request meets: the actor bindings of the Household, why a proposal cannot be built or
      is no longer current, if so, and the material it would be built on. */
  datatype Surroundings = Surroundings(bindings: seq<ActorBinding>, refusal: Option<Code>, material: nat)

  // ----- the protocol ---------------------------------------------------------------------

  function Apply(s: State, a: Action): State {
    match a
    case StorePending(p) => s.(envelopes := s.envelopes[p := Pending])
    case Audit => s.(auditEvents := s.auditEvents + 1)
    case Bind(r) => s.(bindings := s.bindings[r.proposal.enrollment := r])
    case StoreConfirmed(r) => s.(envelopes := s.envelopes[r.proposal := Confirmed(r)])
  }

  predicate Enabled(s: State, a: Action) {
    match a
    case StorePending(p) => p !in s.envelopes && p.enrollment !in s.bindings
    case Audit => true
    case Bind(r) => r.proposal in s.envelopes && r.proposal.enrollment !in s.bindings && r.auditEvent < s.auditEvents
    case StoreConfirmed(r) =>
      r.proposal in s.envelopes && r.proposal.enrollment in s.bindings && s.bindings[r.proposal.enrollment] == r
  }

  const EMPTY := State(map[], map[], 0)

  function Fold(actions: seq<Action>): State {
    if actions == [] then EMPTY else Apply(Fold(actions[..|actions| - 1]), actions[|actions| - 1])
  }

  predicate Legal(actions: seq<Action>) {
    actions == [] ||
    (Legal(actions[..|actions| - 1]) && Enabled(Fold(actions[..|actions| - 1]), actions[|actions| - 1]))
  }

  ghost predicate Inv(s: State) {
    && (forall x :: x in s.bindings ==>
          s.bindings[x].proposal.enrollment == x && s.bindings[x].proposal in s.envelopes && s.bindings[x].auditEvent < s.auditEvents)
    && (forall p :: p in s.envelopes && s.envelopes[p].Confirmed? ==>
          s.envelopes[p].receipt.proposal == p && p.enrollment in s.bindings && s.bindings[p.enrollment] == s.envelopes[p].receipt)
  }

  lemma {:induction false} Holds(actions: seq<Action>)
    requires Legal(actions)
    ensures Inv(Fold(actions))
  {
    if actions != [] {
      Holds(actions[..|actions| - 1]);
    }
  }

  /** The receipt of a confirmed envelope, or of a binding, is one that was audited for it. */
  lemma StoredSound(actions: seq<Action>)
    requires Legal(actions)
    ensures ReceiptsAudited(Fold(actions))
  {
    Holds(actions);
    hide Legal, Fold;
  }

  ghost predicate ReceiptsAudited(s: State) {
    && (forall p :: p in s.envelopes && s.envelopes[p].Confirmed? ==>
          s.envelopes[p].receipt.proposal == p && s.envelopes[p].receipt.auditEvent < s.auditEvents)
    && (forall x :: x in s.bindings ==> s.bindings[x].proposal.enrollment == x)
  }

  // ----- operations -----------------------------------------------------------------------

  function PlanScript(s: State, actor: Actor, wellFormed: bool, enrollment: EnrollmentId, provider: ProviderId, env: Surroundings): Performance<Action, Proposal> {
    var member := MemberOf(env.bindings, actor);
    if !wellFormed then Refuse(InvalidRequest)
    else if member.None? then Refuse(ActorNotBound)
    else if env.refusal.Some? then Refuse(env.refusal.value)
    else
      var proposal := Proposal(enrollment, provider, member.value, env.material);
      if enrollment in s.bindings then Refuse(AlreadySelected)
      else Script(if proposal in s.envelopes then [Audit] else [StorePending(proposal), Audit], Success(proposal))
  }

  function SelectScript(s: State, proposal: Proposal): Performance<Action, Selected> {
    var receipt := Receipt(proposal, s.auditEvents);
    Script([Audit, Bind(receipt), StoreConfirmed(receipt)], Success(Selected(receipt, true)))
  }

  function ConfirmScript(s: State, actor: Actor, wellFormed: bool, proposal: Proposal, env: Surroundings): Performance<Action, Selected> {
    var member := MemberOf(env.bindings, actor);
    if !wellFormed then Refuse(InvalidRequest)
    else if proposal !in s.envelopes then Refuse(NotFound)
    else if member.None? then Refuse(ActorNotBound)
    else if member.value != proposal.actorMember then Refuse(ActorMismatch)
    else if proposal.enrollment in s.bindings then
      var bound := s.bindings[proposal.enrollment];
      if bound.proposal != proposal then Refuse(AlreadySelected)
      else Script(if s.envelopes[proposal].Confirmed? then [] else [StoreConfirmed(bound)], Success(Selected(bound, false)))
    else if s.envelopes[proposal].Confirmed? then
      Script([Bind(s.envelopes[proposal].receipt)], Success(Selected(s.envelopes[proposal].receipt, false)))
    else if env.refusal.Some? then Refuse(env.refusal.value)
    else SelectScript(s, proposal)
  }

  class Service {
    var state: State
    var fuel: nat
    ghost var log: seq<Action>

    ghost predicate Valid()
      reads this
    {
      Legal(log) && state == Fold(log)
    }

    constructor ()
      ensures Valid() && log == []
    {
      state, fuel, log := EMPTY, 0, [];
    }

    method Restart(effects: nat)
      modifies this`fuel
      ensures fuel == effects
    {
      fuel := effects;
    }

    method Commit(a: Action) returns (r: Outcome)
      requires Valid() && Enabled(state, a)
      modifies this
      ensures Valid()
      ensures old(fuel) == 0 ==> r == Ended(Crashed) && state == old(state) && log == old(log) && fuel == 0
      ensures old(fuel) > 0 ==> r == Done && state == Apply(old(state), a) && log == old(log) + [a] && fuel == old(fuel) - 1
    {
      if fuel == 0 {
        return Ended(Crashed);
      }
      fuel, state, log := fuel - 1, Apply(state, a), log + [a];
      assert log[..|log| - 1] == old(log);
      return Done;
    }

    method Plan(actor: Actor, wellFormed: bool, enrollment: EnrollmentId, provider: ProviderId, env: Surroundings)
      returns (r: Result<Proposal>)
      requires Valid()
      modifies this
      ensures Valid()
      ensures Ran(PlanScript(old(state), actor, wellFormed, enrollment, provider, env), old(log), old(fuel), log, fuel, r)
    {
      hide Legal, Fold;
      if !wellFormed {
        return Failure(Refused(InvalidRequest));
      }
      var member := MemberOf(env.bindings, actor);
      if member.None? {
        return Failure(Refused(ActorNotBound));
      }
      if env.refusal.Some? {
        return Failure(Refused(env.refusal.value));
      }
      var proposal := Proposal(enrollment, provider, member.value, env.material);
      if enrollment in state.bindings {
        return Failure(Refused(AlreadySelected));
      }
      if proposal !in state.envelopes {
        :- Commit(StorePending(proposal));
      }
      :- Commit(Audit);
      return Success(proposal);
    }

    method Confirm(actor: Actor, wellFormed: bool, proposal: Proposal, env: Surroundings) returns (r: Result<Selected>)
      requires Valid()
      modifies this
      ensures Valid()
      ensures Ran(ConfirmScript(old(state), actor, wellFormed, proposal, env), old(log), old(fuel), log, fuel, r)
    {
      StoredSound(log);
      assert ReceiptsAudited(state);
      hide Legal, Fold, Inv, SelectScript;
      if !wellFormed {
        return Failure(Refused(InvalidRequest));
      }
      if proposal !in state.envelopes {
        return Failure(Refused(NotFound));
      }
      var member := MemberOf(env.bindings, actor);
      if member.None? {
        return Failure(Refused(ActorNotBound));
      }
      if member.value != proposal.actorMember {
        return Failure(Refused(ActorMismatch));
      }
      if proposal.enrollment in state.bindings {
        var bound := state.bindings[proposal.enrollment];
        if bound.proposal != proposal {
          return Failure(Refused(AlreadySelected));
        }
        if !state.envelopes[proposal].Confirmed? {
          :- Commit(StoreConfirmed(bound));
        }
        return Success(Selected(bound, false));
      }
      if state.envelopes[proposal].Confirmed? {
        var stored := state.envelopes[proposal].receipt;
        :- Commit(Bind(stored));
        return Success(Selected(stored, false));
      }
      if env.refusal.Some? {
        return Failure(Refused(env.refusal.value));
      }
      r := Select(proposal);
    }

    /** Audits the choice, binds the enrollment and then confirms the proposal. */
    method Select(proposal: Proposal) returns (r: Result<Selected>)
      requires Valid() && proposal in state.envelopes && proposal.enrollment !in state.bindings
      modifies this
      ensures Valid()
      ensures Ran(SelectScript(old(state), proposal), old(log), old(fuel), log, fuel, r)
    {
      hide Legal, Fold;
      var receipt := Receipt(proposal, state.auditEvents);
      :- Commit(Audit);
      :- Commit(Bind(receipt));
      :- Commit(StoreConfirmed(receipt));
      return Success(Selected(receipt, true));
    }
  }

  // ----- theorems -----------------------------------------------------------------------

  /** The binding of an enrollment never changes once it is written. */
  lemma {:induction false} BoundForEver(actions: seq<Action>, n: nat, x: EnrollmentId)
    requires Legal(actions) && n <= |actions| && x in Fold(actions[..n]).bindings
    ensures x in Fold(actions).bindings && Fold(actions).bindings[x] == Fold(actions[..n]).bindings[x]
  {
    if n == |actions| {
      assert actions[..n] == actions;
    } else {
      var before := actions[..|actions| - 1];
      assert before[..n] == actions[..n];
      BoundForEver(before, n, x);
    }
  }

  /** At most one provider is ever selected for an enrollment: whatever receipts were stored as
      confirmed or as a binding, at any two moments of a run, they are the same if they are for the
      same enrollment. */
  lemma OneProviderPerEnrollment(actions: seq<Action>, n: nat, p: Proposal, q: Proposal)
    requires Legal(actions) && n <= |actions| && p.enrollment == q.enrollment
    requires p in Fold(actions[..n]).envelopes && Fold(actions[..n]).envelopes[p].Confirmed?
    requires q in Fold(actions).envelopes && Fold(actions).envelopes[q].Confirmed?
    ensures p == q && Fold(actions[..n]).envelopes[p].receipt == Fold(actions).envelopes[q].receipt
  {
    PrefixLegal(actions, n);
    Holds(actions[..n]);
    Holds(actions);
    BoundForEver(actions, n, p.enrollment);
    hide Legal, Fold;
  }

  lemma {:induction false} PrefixLegal(actions: seq<Action>, n: nat)
    requires Legal(actions) && n <= |actions|
    ensures Legal(actions[..n])
  {
    if n == |actions| {
      assert actions[..n] == actions;
    } else {
      assert actions[..|actions| - 1][..n] == actions[..n];
      PrefixLegal(actions[..|actions| - 1], n);
    }
  }

  /** Once an enrollment is bound, a competing proposal is refused for ever, without any effect, and
      so is planning another one. */
  lemma CompetitorRefusedForEver(actions: seq<Action>, n: nat, other: Proposal, actor: Actor, wellFormed: bool, env: Surroundings)
    requires Legal(actions) && n <= |actions| && other.enrollment in Fold(actions[..n]).bindings
    requires Fold(actions[..n]).bindings[other.enrollment].proposal != other
    ensures var confirm := ConfirmScript(Fold(actions), actor, wellFormed, other, env);
      confirm.effects == [] && confirm.outcome.Failure?
    ensures var plan := PlanScript(Fold(actions), actor, wellFormed, other.enrollment, other.provider, env);
      plan.effects == [] && plan.outcome.Failure?
  {
    BoundForEver(actions, n, other.enrollment);
  }

  /** A confirmation that dies behind its audit event leaves nothing selected; one that dies behind
      the binding is completed by the next with the same receipt; and a repeated confirmation
      returns that receipt and changes nothing. */
  lemma ConfirmAfterCrash(s: State, actor: Actor, proposal: Proposal, env: Surroundings, later: Surroundings)
    requires Inv(s) && proposal in s.envelopes && s.envelopes[proposal].Pending? && proposal.enrollment !in s.bindings
    requires ConfirmScript(s, actor, true, proposal, env).outcome.Success? && MemberOf(later.bindings, actor) == Some(proposal.actorMember)
    ensures var script := ConfirmScript(s, actor, true, proposal, env);
      var receipt := script.outcome.value.receipt;
      var audited := Apply(s, script.effects[0]);
      var bound := Apply(audited, script.effects[1]);
      var confirmed := Apply(bound, script.effects[2]);
      && |script.effects| == 3
      && audited.bindings == s.bindings && audited.envelopes == s.envelopes
      && ConfirmScript(bound, actor, true, proposal, later) == Script(script.effects[2..], Success(Selected(receipt, false)))
      && ConfirmScript(confirmed, actor, true, proposal, later) == Script([], Success(Selected(receipt, false)))
  {
  }

  // ----- what is answered -----------------------------------------------------------------

  /** The state after these further actions. */
  function Perform(s: State, actions: seq<Action>): State {
    if actions == [] then s else Apply(Perform(s, actions[..|actions| - 1]), actions[|actions| - 1])
  }

  lemma {:induction false} FoldThen(log: seq<Action>, actions: seq<Action>)
    ensures Fold(log + actions) == Perform(Fold(log), actions)
  {
    if actions == [] {
      assert log + actions == log;
    } else {
      FoldThen(log, actions[..|actions| - 1]);
      assert (log + actions)[..|log + actions| - 1] == log + actions[..|actions| - 1];
    }
  }

  /** Planning succeeds if and only if the request is well formed, the actor is bound, nothing refuses the
      proposal and the enrollment has no binding.  The proposal is for the enrollment and the provider that
      were asked for, by the actor's member, on the current material; afterwards it is stored, and no other
      envelope or binding has changed. */
  lemma PlanEndsIff(s: State, actor: Actor, wellFormed: bool, enrollment: EnrollmentId, provider: ProviderId, env: Surroundings)
    ensures var script := PlanScript(s, actor, wellFormed, enrollment, provider, env);
      && (script.outcome.Success? <==>
            wellFormed && !Unbound(env.bindings, actor) && env.refusal.None? && enrollment !in s.bindings)
      && (script.outcome.Failure? ==> script.effects == [])
      && (script.outcome.Success? ==>
            var proposal, after := script.outcome.value, Perform(s, script.effects);
            && proposal.enrollment == enrollment && proposal.provider == provider && proposal.material == env.material
            && BoundAs(env.bindings, actor, proposal.actorMember)
            && after == s.(envelopes := s.envelopes[proposal := if proposal in s.envelopes then s.envelopes[proposal] else Pending],
                           auditEvents := s.auditEvents + 1))
  {
    MemberOfMeans(env.bindings, actor);
    hide MemberOf, BoundAs, Unbound;
    var script := PlanScript(s, actor, wellFormed, enrollment, provider, env);
    if script.outcome.Success? {
      var proposal := script.outcome.value;
      if proposal in s.envelopes {
        assert s.envelopes[proposal := s.envelopes[proposal]] == s.envelopes;
        One(s, Audit);
      } else {
        Two(s, StorePending(proposal), Audit);
      }
    }
  }

  lemma One(s: State, a: Action)
    ensures Perform(s, [a]) == Apply(s, a)
  {
    assert [a][..0] == [];
  }

  lemma Two(s: State, a: Action, b: Action)
    ensures Perform(s, [a, b]) == Apply(Apply(s, a), b)
  {
    One(s, a);
    assert [a, b][..1] == [a];
  }

  /** Why planning is refused: the first of these that applies. */
  lemma PlanRefusals(s: State, actor: Actor, wellFormed: bool, enrollment: EnrollmentId, provider: ProviderId, env: Surroundings)
    ensures var outcome := PlanScript(s, actor, wellFormed, enrollment, provider, env).outcome;
      && (!wellFormed ==> outcome == Failure(Refused(InvalidRequest)))
      && (wellFormed && Unbound(env.bindings, actor) ==> outcome == Failure(Refused(ActorNotBound)))
      && (wellFormed && !Unbound(env.bindings, actor) && env.refusal.Some? ==> outcome == Failure(Refused(env.refusal.value)))
      && (wellFormed && !Unbound(env.bindings, actor) && env.refusal.None? && enrollment in s.bindings ==>
            outcome == Failure(Refused(AlreadySelected)))
  {
    MemberOfMeans(env.bindings, actor);
    hide MemberOf, BoundAs, Unbound;
  }

  /** The actor is the one who made this stored proposal. */
  predicate MayConfirm(s: State, actor: Actor, wellFormed: bool, proposal: Proposal, env: Surroundings) {
    wellFormed && proposal in s.envelopes && BoundAs(env.bindings, actor, proposal.actorMember)
  }

  /** A first binding is written if and only if the actor made the proposal, nothing refuses it any more, it is
      pending and its enrollment has no binding; the receipt names the proposal and the audit event written
      just before.  A stored receipt is completed or returned, and everything else is refused without effect. */
  lemma ConfirmEndsIff(s: State, actor: Actor, wellFormed: bool, proposal: Proposal, env: Surroundings)
    ensures var script := ConfirmScript(s, actor, wellFormed, proposal, env);
      var may, bound := MayConfirm(s, actor, wellFormed, proposal, env), proposal.enrollment in s.bindings;
      var selects := may && !bound && s.envelopes[proposal].Pending? && env.refusal.None?;
      && (selects ==>
            var receipt := Receipt(proposal, s.auditEvents);
            script == Script([Audit, Bind(receipt), StoreConfirmed(receipt)], Success(Selected(receipt, true))))
      && (may && bound && s.bindings[proposal.enrollment].proposal == proposal ==>
            script == Script(if s.envelopes[proposal].Pending? then [StoreConfirmed(s.bindings[proposal.enrollment])] else [],
                             Success(Selected(s.bindings[proposal.enrollment], false))))
      && (may && !bound && s.envelopes[proposal].Confirmed? ==>
            script == Script([Bind(s.envelopes[proposal].receipt)], Success(Selected(s.envelopes[proposal].receipt, false))))
      && (may && bound && s.bindings[proposal.enrollment].proposal != proposal ==> script == Refuse(AlreadySelected))
      && (may && !bound && s.envelopes[proposal].Pending? && env.refusal.Some? ==> script == Refuse(env.refusal.value))
      && (wellFormed && proposal in s.envelopes && !may ==>
            script == Refuse(if Unbound(env.bindings, actor) then ActorNotBound else ActorMismatch))
      && (!wellFormed ==> script == Refuse(InvalidRequest))
      && (wellFormed && proposal !in s.envelopes ==> script == Refuse(NotFound))
  {
    MemberOfMeans(env.bindings, actor);
    hide MemberOf, BoundAs, Unbound;
  }
}
