/**
  The plan of an automation runbook: the request is normalized, ordered by its dependencies, checked
  step by step against the inventory of target nodes, and returned with its blockers.
 */
module AutomationExecution {
  import opened Wrappers
  import Sorting
  import R = RunbookPlanner

  type StepId = R.StepId
  type ActionId = nat
  type NodeId = nat
  type Capability = nat

  const MAX_STEPS: nat := 64
  const MAX_DEPENDENCIES: nat := 16
  const MAX_NODES: nat := 64

  /** The registered actions and the capability each requires. */
  type Registry = map<ActionId, Capability>

  datatype StepRequest = StepRequest(id: StepId, action: ActionId, target: NodeId, dependsOn: seq<StepId>, input: nat)

  /** `capabilities` is None when the node's capability envelope is not well formed. */
  datatype NodeRecord = NodeRecord(id: NodeId, ready: bool, capabilities: Option<set<Capability>>)

  datatype BlockerCode = TargetNotFound | TargetNotReady | CapabilitiesUnknown | CapabilityUnavailable

  datatype PlannedStep = PlannedStep(sequence: nat, step: StepRequest, capability: Capability, blocker: Option<BlockerCode>)

  datatype Blocker = Blocker(code: BlockerCode, step: StepId, target: NodeId, capability: Capability)

  datatype Plan = Plan(steps: seq<PlannedStep>, blockers: seq<Blocker>)
  {
    predicate Ready() {
      blockers == []
    }
  }

  datatype Rejection =
    | InvalidSteps | DuplicateStepId | ActionNotRegistered | InvalidDependencies | DuplicateDependency
    | UnknownDependency | Cycle | InvalidInventory

  datatype Answer = Accepted(plan: Plan) | Rejected(code: Rejection)

  // ----- normalization --------------------------------------------------------------------

  /** Dependencies in order; the rest of the step as it is. */
  function Normalized(step: StepRequest): (r: StepRequest)
    ensures r == step.(dependsOn := r.dependsOn)
  {
    step.(dependsOn := R.InOrder(step.dependsOn))
  }

  function Plain(step: StepRequest): R.Step {
    R.Step(step.id, step.action, step.dependsOn)
  }

  function PlainSteps(steps: seq<StepRequest>): (r: seq<R.Step>)
    ensures |r| == |steps| && forall i :: 0 <= i < |steps| ==> r[i] == Plain(steps[i])
  {
    seq(|steps|, i requires 0 <= i < |steps| => Plain(steps[i]))
  }

  predicate StepAccepted(step: StepRequest, registry: Registry) {
    step.action in registry && |step.dependsOn| <= MAX_DEPENDENCIES && R.Distinct(step.dependsOn)
  }

  predicate RequestAccepted(steps: seq<StepRequest>, registry: Registry) {
    && 1 <= |steps| <= MAX_STEPS
    && (forall i, k :: 0 <= i < k < |steps| ==> steps[i].id != steps[k].id)
    && (forall i :: 0 <= i < |steps| ==> StepAccepted(steps[i], registry))
  }

  /** What is wrong with a step on its own. */
  function StepRejection(step: StepRequest, registry: Registry): (r: Option<Rejection>)
    ensures r.None? <==> StepAccepted(step, registry)
  {
    if step.action !in registry then Some(ActionNotRegistered)
    else if |step.dependsOn| > MAX_DEPENDENCIES then Some(InvalidDependencies)
    else if !R.Distinct(step.dependsOn) then Some(DuplicateDependency)
    else None
  }

  /** A step before the i-th has the same id. */
  predicate Repeats(steps: seq<StepRequest>, i: nat)
    requires i < |steps|
  {
    exists k :: 0 <= k < i && steps[k].id == steps[i].id
  }

  /** The i-th step is the first that is not accepted, and this is what is wrong with it. */
  predicate FirstRejected(steps: seq<StepRequest>, registry: Registry, i: nat, code: Rejection)
    requires i < |steps|
  {
    && (forall k :: 0 <= k < i ==> StepAccepted(steps[k], registry) && !Repeats(steps, k))
    && var step := steps[i];
    match code
    case DuplicateStepId => Repeats(steps, i)
    case ActionNotRegistered => !Repeats(steps, i) && step.action !in registry
    case InvalidDependencies => !Repeats(steps, i) && step.action in registry && |step.dependsOn| > 16
    case DuplicateDependency =>
      !Repeats(steps, i) && step.action in registry && |step.dependsOn| <= 16 && !R.Distinct(step.dependsOn)
    case _ => false
  }

  /** What a request is refused for: its number of steps, or the first step that is not accepted. */
  predicate RefusedFor(steps: seq<StepRequest>, registry: Registry, code: Rejection) {
    if |steps| < 1 || |steps| > 64 then code == InvalidSteps
    else exists i :: 0 <= i < |steps| && FirstRejected(steps, registry, i, code)
  }

  lemma RejectsHere(steps: seq<StepRequest>, registry: Registry, i: nat)
    requires i < |steps| && 1 <= |steps| <= 64
    requires forall k :: 0 <= k < i ==> StepAccepted(steps[k], registry)
    requires forall j, k :: 0 <= j < k < i ==> steps[j].id != steps[k].id
    ensures Repeats(steps, i) ==> RefusedFor(steps, registry, DuplicateStepId)
    ensures !Repeats(steps, i) && StepRejection(steps[i], registry).Some? ==>
      RefusedFor(steps, registry, StepRejection(steps[i], registry).value)
  {
    hide StepAccepted, R.Distinct;
    if Repeats(steps, i) {
      assert FirstRejected(steps, registry, i, DuplicateStepId);
    } else if StepRejection(steps[i], registry).Some? {
      assert FirstRejected(steps, registry, i, StepRejection(steps[i], registry).value);
    }
  }

  method NormalizeRequest(steps: seq<StepRequest>, registry: Registry) returns (r: seq<StepRequest>, rejection: Option<Rejection>)
    ensures rejection.None? <==> RequestAccepted(steps, registry)
    ensures rejection.None? ==> |r| == |steps| && forall i :: 0 <= i < |steps| ==> r[i] == Normalized(steps[i])
    ensures rejection.Some? ==> RefusedFor(steps, registry, rejection.value)
  {
    hide StepAccepted, StepRejection, Normalized, FirstRejected;
    r := [];
    if !(1 <= |steps| <= MAX_STEPS) {
      return r, Some(InvalidSteps);
    }
    var seen: set<StepId> := {};
    var i := 0;
    while i < |steps|
      invariant 0 <= i <= |steps| && |r| == i
      invariant forall k :: 0 <= k < i ==> r[k] == Normalized(steps[k]) && StepAccepted(steps[k], registry)
      invariant forall id :: id in seen <==> exists k :: 0 <= k < i && steps[k].id == id
      invariant forall j, k :: 0 <= j < k < i ==> steps[j].id != steps[k].id
    {
      var step := steps[i];
      RejectsHere(steps, registry, i);
      if step.id in seen {
        return r, Some(DuplicateStepId);
      }
      rejection := StepRejection(step, registry);
      if rejection.Some? {
        return;
      }
      seen := seen + {step.id};
      r := r + [Normalized(step)];
      i := i + 1;
    }
    rejection := None;
  }

  // ----- the inventory --------------------------------------------------------------------

  predicate InventoryAccepted(nodes: seq<NodeRecord>) {
    |nodes| <= MAX_NODES && forall i, k :: 0 <= i < k < |nodes| ==> nodes[i].id != nodes[k].id
  }

  /** The inventory lists exactly the records of these nodes. */
  ghost predicate IsInventory(targets: map<NodeId, NodeRecord>, nodes: seq<NodeRecord>) {
    && (forall n :: n in nodes ==> n.id in targets && targets[n.id] == n)
    && (forall id :: id in targets ==> targets[id] in nodes && targets[id].id == id)
  }

  method TargetInventory(nodes: seq<NodeRecord>) returns (targets: map<NodeId, NodeRecord>, accepted: bool)
    ensures accepted <==> InventoryAccepted(nodes)
    ensures accepted ==> IsInventory(targets, nodes)
  {
    targets, accepted := map[], false;
    var i := 0;
    while i < |nodes|
      invariant 0 <= i <= |nodes| && i <= MAX_NODES
      invariant forall k :: 0 <= k < i ==> nodes[k].id in targets && targets[nodes[k].id] == nodes[k]
      invariant forall id :: id in targets ==> exists k :: 0 <= k < i && nodes[k] == targets[id] && nodes[k].id == id
      invariant forall j, k :: 0 <= j < k < i ==> nodes[j].id != nodes[k].id
    {
      if i + 1 > MAX_NODES || nodes[i].id in targets {
        return;
      }
      targets := targets[nodes[i].id := nodes[i]];
      i := i + 1;
    }
    accepted := true;
  }

  // ----- the plan -------------------------------------------------------------------------

  function BlockerOf(targets: map<NodeId, NodeRecord>, target: NodeId, capability: Capability): Option<BlockerCode> {
    if target !in targets then Some(TargetNotFound)
    else if !targets[target].ready then Some(TargetNotReady)
    else if targets[target].capabilities.None? then Some(CapabilitiesUnknown)
    else if capability !in targets[target].capabilities.value then Some(CapabilityUnavailable)
    else None
  }

  function PlannedAt(sequence: nat, step: StepRequest, registry: Registry, targets: map<NodeId, NodeRecord>): PlannedStep
    requires step.action in registry
  {
    PlannedStep(sequence, step, registry[step.action], BlockerOf(targets, step.target, registry[step.action]))
  }

  function BlockersOf(steps: seq<PlannedStep>): seq<Blocker> {
    if steps == [] then []
    else
      var last := steps[|steps| - 1];
      BlockersOf(steps[..|steps| - 1])
      + if last.blocker.Some? then [Blocker(last.blocker.value, last.step.id, last.step.target, last.capability)] else []
  }

  predicate EarlierStep(a: Blocker, b: Blocker) {
    a.step < b.step
  }

  /** Blockers are sorted by step id first, and no two are of the same step. */
  function SortedBlockers(blockers: seq<Blocker>): (r: seq<Blocker>)
    ensures multiset(r) == multiset(blockers)
  {
    Sorting.Sorted(EarlierStep, blockers)
  }

  /** The plan of normalized steps whose dependency order is `order`. */
  ghost predicate IsPlanOf(plan: Plan, order: seq<StepId>, byId: map<StepId, StepRequest>, registry: Registry, targets: map<NodeId, NodeRecord>) {
    && |plan.steps| == |order|
    && (forall k :: 0 <= k < |order| ==>
          order[k] in byId && byId[order[k]].action in registry
          && plan.steps[k] == PlannedAt(k + 1, byId[order[k]], registry, targets))
    && plan.blockers == SortedBlockers(BlockersOf(plan.steps))
  }

  /** The normalized steps by id. */
  ghost predicate IsIndex(byId: map<StepId, StepRequest>, steps: seq<StepRequest>) {
    && (forall s :: s in steps ==> s.id in byId && byId[s.id] == Normalized(s))
    && (forall id :: id in byId ==> Listed(id, steps))
  }

  predicate Listed(id: StepId, steps: seq<StepRequest>) {
    exists i :: 0 <= i < |steps| && steps[i].id == id
  }

  function AllNormalized(steps: seq<StepRequest>): (r: seq<StepRequest>)
    ensures |r| == |steps| && forall i :: 0 <= i < |steps| ==> r[i] == Normalized(steps[i])
  {
    seq(|steps|, i requires 0 <= i < |steps| => Normalized(steps[i]))
  }

  /** What an accepted request is planned as. */
  ghost predicate Plans(steps: seq<StepRequest>, registry: Registry, nodes: seq<NodeRecord>, plan: Plan) {
    exists ordered, byId, targets ::
      && R.IsPlan(PlainSteps(AllNormalized(steps)), ordered)
      && IsIndex(byId, steps) && IsInventory(targets, nodes)
      && IsPlanOf(plan, R.Ids(ordered), byId, registry, targets)
  }

  lemma IdsOfPlain(steps: seq<StepRequest>)
    ensures R.Ids(PlainSteps(AllNormalized(steps))) == seq(|steps|, i requires 0 <= i < |steps| => steps[i].id)
  {
  }

  method IndexSteps(steps: seq<StepRequest>, normalized: seq<StepRequest>) returns (byId: map<StepId, StepRequest>)
    requires forall i, k :: 0 <= i < k < |steps| ==> steps[i].id != steps[k].id
    requires normalized == AllNormalized(steps)
    ensures IsIndex(byId, steps)
  {
    hide Normalized;
    byId := map[];
    var i := 0;
    while i < |normalized|
      invariant 0 <= i <= |normalized|
      invariant forall k :: 0 <= k < i ==> steps[k].id in byId && byId[steps[k].id] == normalized[k]
      invariant forall id :: id in byId ==> exists k :: 0 <= k < i && steps[k].id == id
    {
      byId := byId[normalized[i].id := normalized[i]];
      i := i + 1;
    }
  }

  /** Checks the steps in their order and collects what blocks them. */
  method CheckSteps(order: seq<R.Step>, byId: map<StepId, StepRequest>, registry: Registry, targets: map<NodeId, NodeRecord>)
    returns (plan: Plan)
    requires forall k :: 0 <= k < |order| ==> order[k].id in byId && byId[order[k].id].action in registry
    ensures IsPlanOf(plan, R.Ids(order), byId, registry, targets)
  {
    var planned: seq<PlannedStep>, blockers: seq<Blocker> := [], [];
    var k := 0;
    while k < |order|
      invariant 0 <= k <= |order| && |planned| == k
      invariant forall i :: 0 <= i < k ==> planned[i] == PlannedAt(i + 1, byId[order[i].id], registry, targets)
      invariant blockers == BlockersOf(planned)
    {
      var next := PlannedAt(k + 1, byId[order[k].id], registry, targets);
      assert (planned + [next])[..k] == planned;
      planned := planned + [next];
      if next.blocker.Some? {
        blockers := blockers + [Blocker(next.blocker.value, next.step.id, next.step.target, next.capability)];
      }
      k := k + 1;
    }
    plan := Plan(planned, SortedBlockers(blockers));
  }

  /** The dependencies of the normalized request. */
  function Dependencies(steps: seq<StepRequest>): R.Graph {
    R.GraphOf(PlainSteps(AllNormalized(steps)))
  }

  method PlanAutomationRunbook(steps: seq<StepRequest>, registry: Registry, nodes: seq<NodeRecord>) returns (r: Answer)
    ensures r.Accepted? <==>
      RequestAccepted(steps, registry) && R.Closed(Dependencies(steps)) && !R.HasCycle(Dependencies(steps))
      && InventoryAccepted(nodes)
    ensures r.Accepted? ==> Plans(steps, registry, nodes, r.plan)
    ensures r.Rejected? ==>
      if !RequestAccepted(steps, registry) then RefusedFor(steps, registry, r.code)
      else if !R.Closed(Dependencies(steps)) then r.code == UnknownDependency
      else if R.HasCycle(Dependencies(steps)) then r.code == Cycle
      else r.code == InvalidInventory
  {
    hide RefusedFor, R.Closed, R.HasCycle, R.IsPlan, R.GraphOf, R.Distinct, Normalized, Plain, IsPlanOf, IsIndex, IsInventory, InventoryAccepted;
    var normalized, rejection := NormalizeRequest(steps, registry);
    if rejection.Some? {
      return Rejected(rejection.value);
    }
    assert normalized == AllNormalized(steps);
    DistinctPlain(steps);
    var dependencyPlan := R.PlanRunbook(PlainSteps(normalized));
    match dependencyPlan {
      case DuplicateStep(_) => return Rejected(InvalidDependencies);
      case UnknownDependency(_, _) => return Rejected(UnknownDependency);
      case DependencyCycle => return Rejected(Cycle);
      case Planned(ordered) =>
        var targets, accepted := TargetInventory(nodes);
        if !accepted {
          return Rejected(InvalidInventory);
        }
        var byId := IndexSteps(steps, normalized);
        OrderedKnown(steps, registry, ordered, byId);
        var plan := CheckSteps(ordered, byId, registry, targets);
        return Accepted(plan);
    }
  }

  lemma DistinctPlain(steps: seq<StepRequest>)
    requires forall i, k :: 0 <= i < k < |steps| ==> steps[i].id != steps[k].id
    ensures R.Distinct(R.Ids(PlainSteps(AllNormalized(steps))))
  {
  }

  lemma OrderedKnown(steps: seq<StepRequest>, registry: Registry, ordered: seq<R.Step>, byId: map<StepId, StepRequest>)
    requires RequestAccepted(steps, registry) && R.IsPlan(PlainSteps(AllNormalized(steps)), ordered) && IsIndex(byId, steps)
    ensures forall k :: 0 <= k < |ordered| ==> ordered[k].id in byId && byId[ordered[k].id].action in registry
  {
    hide R.Orders, R.Greedy, R.GraphOf;
    var plain := PlainSteps(AllNormalized(steps));
    forall k | 0 <= k < |ordered| ensures ordered[k].id in byId && byId[ordered[k].id].action in registry {
      assert ordered[k] in multiset(ordered) && ordered[k] in plain;
      var i :| 0 <= i < |plain| && plain[i] == ordered[k];
      assert steps[i] in steps && StepAccepted(steps[i], registry);
    }
  }

  // ----- theorems -----------------------------------------------------------------------

  lemma {:induction false} NoBlockers(steps: seq<PlannedStep>)
    ensures BlockersOf(steps) == [] <==> forall k :: 0 <= k < |steps| ==> steps[k].blocker.None?
  {
    if steps != [] {
      NoBlockers(steps[..|steps| - 1]);
    }
  }

  lemma NoneSorted(blockers: seq<Blocker>)
    ensures SortedBlockers(blockers) == [] <==> blockers == []
  {
    assert |SortedBlockers(blockers)| == |multiset(SortedBlockers(blockers))| == |blockers|;
  }

  /** The target of a step is known, ready and has the required capability. */
  ghost predicate TargetFits(step: StepRequest, registry: Registry, nodes: seq<NodeRecord>)
    requires step.action in registry
  {
    exists n :: n in nodes && n.id == step.target && n.ready && n.capabilities.Some? && registry[step.action] in n.capabilities.value
  }

  /** The target of a step does not fit, for this reason. */
  ghost predicate TargetBlocked(target: NodeId, capability: Capability, nodes: seq<NodeRecord>, code: BlockerCode) {
    match code
    case TargetNotFound => forall n :: n in nodes ==> n.id != target
    case TargetNotReady => exists n :: n in nodes && n.id == target && !n.ready
    case CapabilitiesUnknown => exists n :: n in nodes && n.id == target && n.ready && n.capabilities.None?
    case CapabilityUnavailable =>
      exists n :: n in nodes && n.id == target && n.ready && n.capabilities.Some? && capability !in n.capabilities.value
  }

  lemma BlockerCodeMeans(targets: map<NodeId, NodeRecord>, nodes: seq<NodeRecord>, target: NodeId, capability: Capability)
    requires IsInventory(targets, nodes)
    ensures forall code :: BlockerOf(targets, target, capability) == Some(code) <==> TargetBlocked(target, capability, nodes, code)
  {
  }

  lemma BlockerMeans(targets: map<NodeId, NodeRecord>, nodes: seq<NodeRecord>, step: StepRequest, registry: Registry)
    requires IsInventory(targets, nodes) && step.action in registry
    ensures BlockerOf(targets, step.target, registry[step.action]).None? <==> TargetFits(step, registry, nodes)
  {
  }

  /** A plan is ready exactly when the target of every step is known, ready and capable. */
  lemma ReadyIff(steps: seq<StepRequest>, registry: Registry, nodes: seq<NodeRecord>, plan: Plan)
    requires RequestAccepted(steps, registry) && Plans(steps, registry, nodes, plan)
    ensures plan.Ready() <==> AllFit(steps, registry, nodes)
  {
    hide R.IsPlan, IsIndex, IsInventory, IsPlanOf, RequestAccepted, AllFit;
    var ordered, byId, targets :|
      && R.IsPlan(PlainSteps(AllNormalized(steps)), ordered)
      && IsIndex(byId, steps) && IsInventory(targets, nodes)
      && IsPlanOf(plan, R.Ids(ordered), byId, registry, targets);
    ReadyIffOf(steps, registry, nodes, plan, ordered, byId, targets);
  }

  ghost predicate AllFit(steps: seq<StepRequest>, registry: Registry, nodes: seq<NodeRecord>) {
    forall i :: 0 <= i < |steps| ==> steps[i].action in registry && TargetFits(steps[i], registry, nodes)
  }

  /** The k-th planned step: numbered from one, with its dependencies in order, the capability its action
      requires, and what blocks it. */
  ghost predicate StepPlanned(p: PlannedStep, k: nat, step: StepRequest, registry: Registry, nodes: seq<NodeRecord>) {
    && p.sequence == k + 1
    && p.step == step.(dependsOn := p.step.dependsOn) && multiset(p.step.dependsOn) == multiset(step.dependsOn)
    && (forall i, j :: 0 <= i < j < |p.step.dependsOn| ==> p.step.dependsOn[i] <= p.step.dependsOn[j])
    && step.action in registry && p.capability == registry[step.action]
    && forall code :: p.blocker == Some(code) <==> TargetBlocked(step.target, p.capability, nodes, code)
  }

  lemma NormalizedMeans(step: StepRequest)
    ensures var r := Normalized(step);
      && r == step.(dependsOn := r.dependsOn) && multiset(r.dependsOn) == multiset(step.dependsOn)
      && forall i, j :: 0 <= i < j < |r.dependsOn| ==> r.dependsOn[i] <= r.dependsOn[j]
  {
    Sorting.SortedAscending(R.Below, step.dependsOn);
    var r := R.InOrder(step.dependsOn);
    hide Sorting.Sorted;
    forall i, j | 0 <= i < j < |r| ensures r[i] <= r[j] {
      assert !R.Below(r[j], r[i]);
    }
  }

  /** Every planned step is one of the request, checked against the inventory. */
  lemma PlannedStepMeans(steps: seq<StepRequest>, registry: Registry, nodes: seq<NodeRecord>, plan: Plan, k: nat)
    requires RequestAccepted(steps, registry) && Plans(steps, registry, nodes, plan) && k < |plan.steps|
    ensures exists i :: 0 <= i < |steps| && StepPlanned(plan.steps[k], k, steps[i], registry, nodes)
  {
    hide R.IsPlan, IsIndex, IsInventory, IsPlanOf, RequestAccepted, StepPlanned;
    var ordered, byId, targets :|
      && R.IsPlan(PlainSteps(AllNormalized(steps)), ordered)
      && IsIndex(byId, steps) && IsInventory(targets, nodes)
      && IsPlanOf(plan, R.Ids(ordered), byId, registry, targets);
    var i := PlannedFrom(steps, registry, nodes, plan, ordered, byId, targets, k);
  }

  lemma PlannedFrom(steps: seq<StepRequest>, registry: Registry, nodes: seq<NodeRecord>, plan: Plan, ordered: seq<R.Step>,
                    byId: map<StepId, StepRequest>, targets: map<NodeId, NodeRecord>, k: nat) returns (i: nat)
    requires RequestAccepted(steps, registry) && R.IsPlan(PlainSteps(AllNormalized(steps)), ordered) && k < |plan.steps|
    requires IsIndex(byId, steps) && IsInventory(targets, nodes) && IsPlanOf(plan, R.Ids(ordered), byId, registry, targets)
    ensures i < |steps| && StepPlanned(plan.steps[k], k, steps[i], registry, nodes)
  {
    hide R.Orders, R.Greedy, R.GraphOf, R.InOrder;
    var plain := PlainSteps(AllNormalized(steps));
    assert ordered[k] in multiset(ordered) && ordered[k] in plain;
    i :| 0 <= i < |plain| && plain[i] == ordered[k];
    assert steps[i] in steps && StepAccepted(steps[i], registry);
    assert plan.steps[k] == PlannedAt(k + 1, byId[R.Ids(ordered)[k]], registry, targets);
    assert byId[R.Ids(ordered)[k]] == Normalized(steps[i]);
    hide Normalized, IsPlanOf, IsIndex, IsInventory, StepPlanned, PlannedAt, RequestAccepted, R.IsPlan;
    CheckedStep(k, steps[i], registry, nodes, targets);
  }

  lemma CheckedStep(k: nat, step: StepRequest, registry: Registry, nodes: seq<NodeRecord>, targets: map<NodeId, NodeRecord>)
    requires step.action in registry && IsInventory(targets, nodes)
    ensures StepPlanned(PlannedAt(k + 1, Normalized(step), registry, targets), k, step, registry, nodes)
  {
    NormalizedMeans(step);
    BlockerCodeMeans(targets, nodes, step.target, registry[step.action]);
    hide IsInventory, BlockerOf, TargetBlocked, R.InOrder;
  }

  predicate BlocksStep(b: Blocker, p: PlannedStep) {
    p.blocker == Some(b.code) && b.step == p.step.id && b.target == p.step.target && b.capability == p.capability
  }

  predicate BlocksSome(b: Blocker, steps: seq<PlannedStep>) {
    exists k :: 0 <= k < |steps| && BlocksStep(b, steps[k])
  }

  lemma BlocksOneMore(b: Blocker, rest: seq<PlannedStep>, last: PlannedStep)
    ensures BlocksSome(b, rest + [last]) <==> BlocksSome(b, rest) || BlocksStep(b, last)
  {
    hide BlocksStep;
    var steps := rest + [last];
    if k :| 0 <= k < |rest| && BlocksStep(b, rest[k]) {
      assert steps[k] == rest[k];
    }
    assert steps[|rest|] == last;
  }

  lemma BlockersOneMore(rest: seq<PlannedStep>, last: PlannedStep)
    ensures BlockersOf(rest + [last])
      == BlockersOf(rest) + if last.blocker.Some? then [Blocker(last.blocker.value, last.step.id, last.step.target, last.capability)] else []
  {
    assert (rest + [last])[..|rest|] == rest;
  }

  lemma {:induction false} BlockersMean(steps: seq<PlannedStep>, b: Blocker)
    ensures b in BlockersOf(steps) <==> BlocksSome(b, steps)
  {
    if steps != [] {
      var rest, last := steps[..|steps| - 1], steps[|steps| - 1];
      assert steps == rest + [last];
      hide BlockersOf, BlocksSome;
      BlockersMean(rest, b);
      BlocksOneMore(b, rest, last);
      BlockersOneMore(rest, last);
    }
  }

  lemma PlansBlockers(steps: seq<StepRequest>, registry: Registry, nodes: seq<NodeRecord>, plan: Plan)
    requires Plans(steps, registry, nodes, plan)
    ensures plan.blockers == SortedBlockers(BlockersOf(plan.steps))
  {
    hide R.IsPlan, IsIndex, IsInventory, BlockersOf, SortedBlockers, PlannedAt;
  }

  lemma BlockersInOrder(blockers: seq<Blocker>)
    ensures var sorted := SortedBlockers(blockers);
      && (forall b :: b in sorted <==> b in blockers)
      && forall i, k :: 0 <= i < k < |sorted| ==> sorted[i].step <= sorted[k].step
  {
    Sorting.SortedAscending(EarlierStep, blockers);
    Sorting.SameMembers(SortedBlockers(blockers), blockers);
    var sorted := SortedBlockers(blockers);
    hide Sorting.Sorted;
    forall i, k | 0 <= i < k < |sorted| ensures sorted[i].step <= sorted[k].step {
      assert !EarlierStep(sorted[k], sorted[i]);
    }
  }

  /** The blockers are those of the planned steps, in the order of the steps' ids. */
  lemma PlanBlockersMean(steps: seq<StepRequest>, registry: Registry, nodes: seq<NodeRecord>, plan: Plan)
    requires Plans(steps, registry, nodes, plan)
    ensures forall b :: b in plan.blockers <==> BlocksSome(b, plan.steps)
    ensures forall i, k :: 0 <= i < k < |plan.blockers| ==> plan.blockers[i].step <= plan.blockers[k].step
  {
    PlansBlockers(steps, registry, nodes, plan);
    BlockersInOrder(BlockersOf(plan.steps));
    hide *;
    forall b ensures b in plan.blockers <==> BlocksSome(b, plan.steps) {
      BlockersMean(plan.steps, b);
    }
  }

  lemma Unblocked(plan: Plan, order: seq<StepId>, byId: map<StepId, StepRequest>, registry: Registry, targets: map<NodeId, NodeRecord>)
    requires IsPlanOf(plan, order, byId, registry, targets)
    ensures plan.Ready() <==> forall k :: 0 <= k < |plan.steps| ==> plan.steps[k].blocker.None?
  {
    NoBlockers(plan.steps);
    NoneSorted(BlockersOf(plan.steps));
    hide PlannedAt, BlockersOf, SortedBlockers;
  }

  lemma ReadyIffOf(steps: seq<StepRequest>, registry: Registry, nodes: seq<NodeRecord>, plan: Plan, ordered: seq<R.Step>,
                   byId: map<StepId, StepRequest>, targets: map<NodeId, NodeRecord>)
    requires RequestAccepted(steps, registry) && R.IsPlan(PlainSteps(AllNormalized(steps)), ordered)
    requires IsIndex(byId, steps) && IsInventory(targets, nodes) && IsPlanOf(plan, R.Ids(ordered), byId, registry, targets)
    ensures plan.Ready() <==> AllFit(steps, registry, nodes)
  {
    hide R.IsPlan, IsIndex, IsInventory, IsPlanOf, RequestAccepted, TargetFits;
    Unblocked(plan, R.Ids(ordered), byId, registry, targets);
    if plan.Ready() {
      forall i | 0 <= i < |steps|
        ensures steps[i].action in registry && TargetFits(steps[i], registry, nodes)
      {
        var k := Placed(steps, registry, nodes, plan, ordered, byId, targets, i);
      }
    } else {
      var k :| 0 <= k < |plan.steps| && plan.steps[k].blocker.Some?;
      var i := Stems(steps, registry, nodes, plan, ordered, byId, targets, k);
    }
  }

  lemma Placed(steps: seq<StepRequest>, registry: Registry, nodes: seq<NodeRecord>, plan: Plan, ordered: seq<R.Step>,
               byId: map<StepId, StepRequest>, targets: map<NodeId, NodeRecord>, i: nat) returns (k: nat)
    requires RequestAccepted(steps, registry) && R.IsPlan(PlainSteps(AllNormalized(steps)), ordered) && i < |steps|
    requires IsIndex(byId, steps) && IsInventory(targets, nodes) && IsPlanOf(plan, R.Ids(ordered), byId, registry, targets)
    ensures steps[i].action in registry && k < |plan.steps| && plan.steps[k].step == Normalized(steps[i])
    ensures plan.steps[k].blocker.None? <==> TargetFits(steps[i], registry, nodes)
  {
    hide R.Orders, R.Greedy, R.GraphOf, R.InOrder;
    var plain := PlainSteps(AllNormalized(steps));
    assert StepAccepted(steps[i], registry);
    assert plain[i] in multiset(plain) && plain[i] in ordered;
    k :| 0 <= k < |ordered| && ordered[k] == plain[i];
    assert steps[i] in steps;
    assert plan.steps[k] == PlannedAt(k + 1, byId[R.Ids(ordered)[k]], registry, targets);
    BlockerMeans(targets, nodes, steps[i], registry);
  }

  lemma Stems(steps: seq<StepRequest>, registry: Registry, nodes: seq<NodeRecord>, plan: Plan, ordered: seq<R.Step>,
              byId: map<StepId, StepRequest>, targets: map<NodeId, NodeRecord>, k: nat) returns (i: nat)
    requires RequestAccepted(steps, registry) && R.IsPlan(PlainSteps(AllNormalized(steps)), ordered) && k < |plan.steps|
    requires IsIndex(byId, steps) && IsInventory(targets, nodes) && IsPlanOf(plan, R.Ids(ordered), byId, registry, targets)
    ensures i < |steps| && steps[i].action in registry
    ensures plan.steps[k].blocker.None? <==> TargetFits(steps[i], registry, nodes)
  {
    hide R.Orders, R.Greedy, R.GraphOf, R.InOrder;
    var plain := PlainSteps(AllNormalized(steps));
    assert ordered[k] in multiset(ordered) && ordered[k] in plain;
    i :| 0 <= i < |plain| && plain[i] == ordered[k];
    assert steps[i] in steps && StepAccepted(steps[i], registry);
    assert plan.steps[k] == PlannedAt(k + 1, byId[R.Ids(ordered)[k]], registry, targets);
    BlockerMeans(targets, nodes, steps[i], registry);
  }

  // ----- the plan depends on the set of steps only ----------------------------------------

  /** The order in which dependencies are given does not matter to the normalized step. */
  lemma NormalizedIgnoresOrder(a: StepRequest, b: StepRequest)
    requires multiset(a.dependsOn) == multiset(b.dependsOn) && a.(dependsOn := []) == b.(dependsOn := [])
    ensures Normalized(a) == Normalized(b)
  {
    Sorting.SortedIgnoresOrder(R.Below, a.dependsOn, b.dependsOn);
  }

  /** The same steps, up to the order of their dependencies, in any order. */
  ghost predicate SameSteps(a: seq<StepRequest>, b: seq<StepRequest>) {
    (forall s :: s in a ==> HasTwin(s, b)) && (forall t :: t in b ==> HasTwin(t, a))
  }

  ghost predicate HasTwin(s: StepRequest, steps: seq<StepRequest>) {
    exists t :: t in steps && Normalized(t) == Normalized(s)
  }

  lemma SameIndex(a: seq<StepRequest>, b: seq<StepRequest>, x: map<StepId, StepRequest>, y: map<StepId, StepRequest>)
    requires SameSteps(a, b) && IsIndex(x, a) && IsIndex(y, b)
    ensures x == y
  {
    hide *;
    Symmetric(a, b);
    forall id | id in x || id in y ensures id in x && id in y && x[id] == y[id] {
      IndexedAlike(a, b, x, y, id);
      IndexedAlike(b, a, y, x, id);
    }
    SameMap(x, y);
  }

  lemma Symmetric(a: seq<StepRequest>, b: seq<StepRequest>)
    requires SameSteps(a, b)
    ensures SameSteps(b, a)
  {
    hide HasTwin;
  }

  lemma Twin(a: seq<StepRequest>, b: seq<StepRequest>, s: StepRequest) returns (t: StepRequest)
    requires SameSteps(a, b) && s in a
    ensures t in b && Normalized(t) == Normalized(s)
  {
    assert HasTwin(s, b);
    hide SameSteps;
    t :| t in b && Normalized(t) == Normalized(s);
  }

  lemma Stem(byId: map<StepId, StepRequest>, steps: seq<StepRequest>, id: StepId) returns (s: StepRequest)
    requires IsIndex(byId, steps) && id in byId
    ensures s in steps && s.id == id && byId[id] == Normalized(s)
  {
    assert Listed(id, steps);
    var i :| 0 <= i < |steps| && steps[i].id == id;
    s := steps[i];
  }

  lemma IndexedAlike(a: seq<StepRequest>, b: seq<StepRequest>, x: map<StepId, StepRequest>, y: map<StepId, StepRequest>, id: StepId)
    requires SameSteps(a, b) && IsIndex(x, a) && IsIndex(y, b)
    ensures id in x ==> id in y && x[id] == y[id]
  {
    hide SameSteps, HasTwin, Listed, Normalized;
    if id in x {
      var s := Stem(x, a, id);
      var t := Twin(a, b, s);
    }
  }

  lemma SameMap<K, V>(x: map<K, V>, y: map<K, V>)
    requires forall k :: k in x || k in y ==> k in x && k in y && x[k] == y[k]
    ensures x == y
  {
  }

  lemma SameInventory(a: seq<NodeRecord>, b: seq<NodeRecord>, x: map<NodeId, NodeRecord>, y: map<NodeId, NodeRecord>)
    requires (forall n :: n in a <==> n in b) && IsInventory(x, a) && IsInventory(y, b)
    ensures x == y
  {
    forall id | id in x || id in y ensures id in x && id in y && x[id] == y[id] {
      if id in x {
        assert x[id] in a && x[id] in b;
      }
      if id in y {
        assert y[id] in b && y[id] in a;
      }
    }
    SameMap(x, y);
  }

  /** The dependencies a normalized step brings to the graph. */
  lemma GraphByIndex(steps: seq<StepRequest>, registry: Registry, byId: map<StepId, StepRequest>)
    requires RequestAccepted(steps, registry) && IsIndex(byId, steps)
    ensures Dependencies(steps).Keys == byId.Keys
    ensures forall id :: id in byId ==> Dependencies(steps)[id] == byId[id].dependsOn
  {
    DistinctPlain(steps);
    hide R.GraphOf, R.Distinct, Normalized;
    var plain := PlainSteps(AllNormalized(steps));
    IdsOfPlain(steps);
    forall id ensures id in Dependencies(steps) <==> id in byId {
      if id in byId {
        assert Listed(id, steps);
        var i :| 0 <= i < |steps| && steps[i].id == id;
        assert R.Ids(plain)[i] == id;
      }
      if id in Dependencies(steps) {
        assert id in R.Ids(plain);
        var i :| 0 <= i < |steps| && R.Ids(plain)[i] == id;
        assert steps[i] in steps;
      }
    }
    forall id | id in byId ensures Dependencies(steps)[id] == byId[id].dependsOn {
      assert Listed(id, steps);
      var i :| 0 <= i < |steps| && steps[i].id == id;
      assert steps[i] in steps;
      assert plain[i].id == R.Ids(plain)[i] == id;
      assert Dependencies(steps)[plain[i].id] == plain[i].dependsOn;
    }
  }

  /** Requests for the same set of steps on the same set of nodes have the same plan: the order of
      steps, of dependencies and of node records does not matter. */
  lemma PlanOfSet(a: seq<StepRequest>, b: seq<StepRequest>, registry: Registry, nodes: seq<NodeRecord>, others: seq<NodeRecord>,
                  plan: Plan, otherPlan: Plan)
    requires RequestAccepted(a, registry) && RequestAccepted(b, registry)
    requires SameSteps(a, b) && forall n :: n in nodes <==> n in others
    requires Plans(a, registry, nodes, plan) && Plans(b, registry, others, otherPlan)
    ensures plan == otherPlan
  {
    hide SameSteps, IsIndex, IsInventory, IsPlanOf, R.IsPlan, RequestAccepted, Dependencies;
    var ordered, byId, targets :|
      && R.IsPlan(PlainSteps(AllNormalized(a)), ordered)
      && IsIndex(byId, a) && IsInventory(targets, nodes)
      && IsPlanOf(plan, R.Ids(ordered), byId, registry, targets);
    var ordered', byId', targets' :|
      && R.IsPlan(PlainSteps(AllNormalized(b)), ordered')
      && IsIndex(byId', b) && IsInventory(targets', others)
      && IsPlanOf(otherPlan, R.Ids(ordered'), byId', registry, targets');
    SameIndex(a, b, byId, byId');
    SameInventory(nodes, others, targets, targets');
    SameOrder(a, b, registry, byId, ordered, ordered');
    SamePlan(plan, otherPlan, R.Ids(ordered), byId, registry, targets);
  }

  lemma SameOrder(a: seq<StepRequest>, b: seq<StepRequest>, registry: Registry, byId: map<StepId, StepRequest>,
                  ordered: seq<R.Step>, others: seq<R.Step>)
    requires RequestAccepted(a, registry) && RequestAccepted(b, registry) && IsIndex(byId, a) && IsIndex(byId, b)
    requires R.IsPlan(PlainSteps(AllNormalized(a)), ordered) && R.IsPlan(PlainSteps(AllNormalized(b)), others)
    ensures R.Ids(ordered) == R.Ids(others)
  {
    hide IsIndex, R.IsPlan, RequestAccepted, R.GraphOf;
    GraphByIndex(a, registry, byId);
    GraphByIndex(b, registry, byId);
    R.PlanOfSet(PlainSteps(AllNormalized(a)), ordered, PlainSteps(AllNormalized(b)), others);
  }

  lemma SamePlan(plan: Plan, other: Plan, order: seq<StepId>, byId: map<StepId, StepRequest>, registry: Registry, targets: map<NodeId, NodeRecord>)
    requires IsPlanOf(plan, order, byId, registry, targets) && IsPlanOf(other, order, byId, registry, targets)
    ensures plan == other
  {
    hide PlannedAt, BlockersOf, SortedBlockers;
    assert plan.steps == other.steps;
  }
}
