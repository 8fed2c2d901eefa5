/**
  The deployment planner: a greedy match of the required nodes of a profile to discovered nodes, in
  the order of the nodes' ids, and the placement rules on the result.
 */
module DeploymentPlanner {
  import Sorting
  import opened Wrappers

  type NodeId = nat
  type Capability = nat

  datatype Requirement = Requirement(id: NodeId, capabilities: set<Capability>)

  /** A node whose failure domain is absent or empty has none. */
  datatype Node = Node(id: NodeId, capabilities: set<Capability>, healthy: bool, domain: Option<nat>)

  datatype Policy = Policy(minimumReady: nat, maximumNodes: nat, distinctDomains: bool)

  datatype Profile = Profile(nodes: seq<Requirement>, placement: Policy)
  {
    /** What the profile's constructor has checked. */
    predicate Valid() {
      && 1 <= placement.minimumReady <= placement.maximumNodes <= 64
      && 1 <= |nodes| <= placement.maximumNodes
      && DistinctRequirements(nodes)
    }
  }

  predicate DistinctRequirements(nodes: seq<Requirement>) {
    forall i, k :: 0 <= i < k < |nodes| ==> nodes[i].id != nodes[k].id
  }

  datatype Match = Match(requirement: Requirement, node: Node)

  datatype Blocker = TooManyNodes | Unsatisfied(id: NodeId) | MinimumNotMet | DomainsNotMet

  datatype Plan = Plan(planned: bool, assignments: seq<Match>, blockers: seq<Blocker>)

  // ----- specification --------------------------------------------------------------------

  predicate Fits(requirement: Requirement, node: Node) {
    node.healthy && requirement.capabilities <= node.capabilities
  }

  /** The first candidate that fits and is not used. */
  function FirstFit(requirement: Requirement, candidates: seq<Node>, used: set<NodeId>): (r: Option<Node>)
    ensures r.Some? ==> r.value in candidates && Fits(requirement, r.value) && r.value.id !in used
    ensures r.None? ==> forall node :: node in candidates && Fits(requirement, node) ==> node.id in used
  {
    if candidates == [] then None
    else if candidates[0].id !in used && Fits(requirement, candidates[0]) then Some(candidates[0])
    else FirstFit(requirement, candidates[1..], used)
  }

  function Used(matches: seq<Match>): (r: set<NodeId>)
    ensures forall m :: m in matches ==> m.node.id in r
  {
    set m | m in matches :: m.node.id
  }

  function Domains(matches: seq<Match>): set<nat> {
    set m | m in matches && m.node.domain.Some? :: m.node.domain.value
  }

  /** The greedy matches of the requirements, in their order. */
  function Matches(nodes: seq<Requirement>, candidates: seq<Node>): seq<Match> {
    if nodes == [] then []
    else
      var before := Matches(nodes[..|nodes| - 1], candidates);
      var fit := FirstFit(nodes[|nodes| - 1], candidates, Used(before));
      if fit.None? then before else before + [Match(nodes[|nodes| - 1], fit.value)]
  }

  function Unmatched(nodes: seq<Requirement>, candidates: seq<Node>): seq<Blocker> {
    if nodes == [] then []
    else
      var before := Unmatched(nodes[..|nodes| - 1], candidates);
      var fit := FirstFit(nodes[|nodes| - 1], candidates, Used(Matches(nodes[..|nodes| - 1], candidates)));
      if fit.None? then before + [Unsatisfied(nodes[|nodes| - 1].id)] else before
  }

  predicate ById(a: Node, b: Node) {
    a.id < b.id
  }

  /** Stable by id. */
  function Sorted(nodes: seq<Node>): (r: seq<Node>)
    ensures multiset(r) == multiset(nodes)
  {
    Sorting.Sorted(ById, nodes)
  }

  function Min(a: nat, b: nat): nat {
    if a < b then a else b
  }

  function Placement(policy: Policy, matches: seq<Match>): seq<Blocker> {
    (if |matches| < policy.minimumReady then [MinimumNotMet] else [])
    + (if policy.distinctDomains && |Domains(matches)| < Min(|matches|, policy.minimumReady) then [DomainsNotMet] else [])
  }

  function PlanOf(profile: Profile, discovered: seq<Node>): Plan {
    if |discovered| > profile.placement.maximumNodes then Plan(false, [], [TooManyNodes])
    else
      var candidates := Sorted(discovered);
      var matches := Matches(profile.nodes, candidates);
      var blockers := Unmatched(profile.nodes, candidates) + Placement(profile.placement, matches);
      Plan(blockers == [], matches, blockers)
  }

  // ----- the planner ----------------------------------------------------------------------

  /** The inner search of the planner. */
  method Find(requirement: Requirement, candidates: seq<Node>, used: set<NodeId>) returns (found: Option<Node>)
    ensures found == FirstFit(requirement, candidates, used)
  {
    found := None;
    var i := 0;
    while i < |candidates|
      invariant 0 <= i <= |candidates|
      invariant FirstFit(requirement, candidates, used) == FirstFit(requirement, candidates[i..], used)
    {
      var node := candidates[i];
      if node.id !in used && node.healthy && requirement.capabilities <= node.capabilities {
        return Some(node);
      }
      assert candidates[i..][1..] == candidates[i + 1..];
      i := i + 1;
    }
  }

  method MakePlan(profile: Profile, discovered: seq<Node>) returns (plan: Plan)
    requires profile.Valid()
    ensures plan == PlanOf(profile, discovered)
  {
    if |discovered| > profile.placement.maximumNodes {
      return Plan(false, [], [TooManyNodes]);
    }
    var candidates := Sorted(discovered);
    var assignments, blockers, domains := MatchAll(profile.nodes, candidates);
    if |assignments| < profile.placement.minimumReady {
      blockers := blockers + [MinimumNotMet];
    }
    if profile.placement.distinctDomains && |domains| < Min(|assignments|, profile.placement.minimumReady) {
      blockers := blockers + [DomainsNotMet];
    }
    return Plan(blockers == [], assignments, blockers);
  }

  /** The outer loop of the planner. */
  method MatchAll(nodes: seq<Requirement>, candidates: seq<Node>)
    returns (assignments: seq<Match>, blockers: seq<Blocker>, domains: set<nat>)
    ensures assignments == Matches(nodes, candidates) && blockers == Unmatched(nodes, candidates)
    ensures domains == Domains(assignments)
  {
    hide Matches, Unmatched, FirstFit, Used, Domains;
    assignments, blockers, domains := [], [], {};
    var used: set<NodeId> := {};
    NothingMatched(candidates);
    assert nodes[..0] == [];
    var i := 0;
    while i < |nodes|
      invariant 0 <= i <= |nodes|
      invariant assignments == Matches(nodes[..i], candidates) && blockers == Unmatched(nodes[..i], candidates)
      invariant used == Used(assignments) && domains == Domains(assignments)
    {
      var requirement := nodes[i];
      MatchedOneMore(nodes, candidates, i);
      var found := Find(requirement, candidates, used);
      if found.None? {
        blockers := blockers + [Unsatisfied(requirement.id)];
      } else {
        MoreUsed(assignments, Match(requirement, found.value));
        assignments := assignments + [Match(requirement, found.value)];
        used := used + {found.value.id};
        if found.value.domain.Some? {
          domains := domains + {found.value.domain.value};
        }
      }
      i := i + 1;
    }
    assert nodes[..i] == nodes;
  }

  lemma NothingMatched(candidates: seq<Node>)
    ensures Matches([], candidates) == [] && Unmatched([], candidates) == [] && Used([]) == {} && Domains([]) == {}
  {
  }

  lemma MatchedOneMore(nodes: seq<Requirement>, candidates: seq<Node>, i: nat)
    requires i < |nodes|
    ensures var before, fit := Matches(nodes[..i], candidates), FirstFit(nodes[i], candidates, Used(Matches(nodes[..i], candidates)));
      && Matches(nodes[..i + 1], candidates) == (if fit.None? then before else before + [Match(nodes[i], fit.value)])
      && Unmatched(nodes[..i + 1], candidates) ==
           Unmatched(nodes[..i], candidates) + (if fit.None? then [Unsatisfied(nodes[i].id)] else [])
  {
    assert nodes[..i + 1][..i] == nodes[..i];
  }

  lemma MoreUsed(matches: seq<Match>, m: Match)
    ensures Used(matches + [m]) == Used(matches) + {m.node.id}
    ensures Domains(matches + [m]) == Domains(matches) + (if m.node.domain.Some? then {m.node.domain.value} else {})
  {
  }

  // ----- what a plan is -------------------------------------------------------------------

  predicate Matched(requirement: Requirement, matches: seq<Match>) {
    exists i :: 0 <= i < |matches| && matches[i].requirement == requirement
  }

  predicate SoundMatch(m: Match, nodes: seq<Requirement>, candidates: seq<Node>) {
    m.requirement in nodes && m.node in candidates && Fits(m.requirement, m.node)
  }

  predicate NothingShared(matches: seq<Match>) {
    forall i, k :: 0 <= i < k < |matches| ==>
      matches[i].requirement.id != matches[k].requirement.id && matches[i].node.id != matches[k].node.id
  }

  /** Every match is of a required node with a healthy, capable candidate, and no two matches share
      a requirement or a node. */
  lemma {:induction false} MatchesSound(nodes: seq<Requirement>, candidates: seq<Node>)
    requires DistinctRequirements(nodes)
    ensures forall m :: m in Matches(nodes, candidates) ==> SoundMatch(m, nodes, candidates)
    ensures NothingShared(Matches(nodes, candidates))
  {
    if nodes != [] {
      var rest, last := nodes[..|nodes| - 1], nodes[|nodes| - 1];
      MatchesSound(rest, candidates);
      var before := Matches(rest, candidates);
      forall m | m in before ensures SoundMatch(m, nodes, candidates) && m.requirement.id != last.id {
        assert SoundMatch(m, rest, candidates);
        var k :| 0 <= k < |rest| && rest[k] == m.requirement;
        assert nodes[k] == rest[k];
      }
      var fit := FirstFit(last, candidates, Used(before));
      if fit.Some? {
        assert Matches(nodes, candidates) == before + [Match(last, fit.value)];
        assert SoundMatch(Match(last, fit.value), nodes, candidates);
        forall i | 0 <= i < |before|
          ensures before[i].requirement.id != last.id && before[i].node.id != fit.value.id
        {
          assert before[i] in before;
        }
      }
    }
  }

  /** Every requirement is matched, or all candidates that fit it are used. */
  lemma {:induction false} MatchesMaximal(nodes: seq<Requirement>, candidates: seq<Node>, requirement: Requirement)
    requires requirement in nodes
    ensures var matches := Matches(nodes, candidates);
      Matched(requirement, matches) || forall node :: node in candidates && Fits(requirement, node) ==> node.id in Used(matches)
  {
    var rest, last := nodes[..|nodes| - 1], nodes[|nodes| - 1];
    var before, matches := Matches(rest, candidates), Matches(nodes, candidates);
    assert forall m :: m in before ==> m in matches;
    if requirement in rest {
      MatchesMaximal(rest, candidates, requirement);
      if Matched(requirement, before) {
        var i :| 0 <= i < |before| && before[i].requirement == requirement;
        assert matches[i] == before[i];
      }
    } else {
      assert requirement == last;
      if |matches| > |before| {
        assert matches[|before|].requirement == requirement;
      }
    }
  }

  /** A set of pairs that a planner might have assigned. */
  ghost predicate Feasible(pairs: set<Match>, nodes: seq<Requirement>, candidates: seq<Node>) {
    && (forall p :: p in pairs ==> p.requirement in nodes && p.node in candidates && Fits(p.requirement, p.node))
    && (forall p, q :: p in pairs && q in pairs && p != q ==> p.requirement != q.requirement && p.node.id != q.node.id)
  }

  lemma {:induction false} ImageByRequirement(pairs: set<Match>)
    requires forall p, q :: p in pairs && q in pairs && p != q ==> p.requirement != q.requirement
    ensures |set p | p in pairs :: p.requirement| == |pairs|
  {
    if pairs != {} {
      var p :| p in pairs;
      ImageByRequirement(pairs - {p});
      assert (set q | q in pairs :: q.requirement) == (set q | q in pairs - {p} :: q.requirement) + {p.requirement};
    }
  }

  lemma {:induction false} ImageByNode(pairs: set<Match>)
    requires forall p, q :: p in pairs && q in pairs && p != q ==> p.node.id != q.node.id
    ensures |set p | p in pairs :: p.node.id| == |pairs|
  {
    if pairs != {} {
      var p :| p in pairs;
      ImageByNode(pairs - {p});
      assert (set q | q in pairs :: q.node.id) == (set q | q in pairs - {p} :: q.node.id) + {p.node.id};
    }
  }

  lemma SubsetSize<T>(a: set<T>, b: set<T>)
    requires a <= b
    ensures |a| <= |b|
  {
    assert b == a + (b - a);
  }

  lemma {:induction false} RequirementsBounded(matches: seq<Match>)
    ensures |set m | m in matches :: m.requirement| <= |matches|
    ensures |Used(matches)| <= |matches|
  {
    if matches != [] {
      var rest, last := matches[..|matches| - 1], matches[|matches| - 1];
      RequirementsBounded(rest);
      assert matches == rest + [last];
      assert (set m | m in matches :: m.requirement) == (set m | m in rest :: m.requirement) + {last.requirement};
      MoreUsed(rest, last);
    }
  }

  /** The greedy matches number at least half of any feasible assignment. */
  lemma AtLeastHalf(nodes: seq<Requirement>, candidates: seq<Node>, pairs: set<Match>)
    requires Feasible(pairs, nodes, candidates)
    ensures |pairs| <= 2 * |Matches(nodes, candidates)|
  {
    var matches := Matches(nodes, candidates);
    var byRequirement := set p | p in pairs && Matched(p.requirement, matches);
    var byNode := set p | p in pairs && p.node.id in Used(matches);
    forall p | p in pairs ensures p in byRequirement + byNode {
      MatchesMaximal(nodes, candidates, p.requirement);
    }
    assert pairs == byRequirement + byNode;
    ImageByRequirement(byRequirement);
    ImageByNode(byNode);
    RequirementsBounded(matches);
    SubsetSize(set p | p in byRequirement :: p.requirement, set m | m in matches :: m.requirement);
    SubsetSize(set p | p in byNode :: p.node.id, Used(matches));
  }

  lemma {:induction false} UnmatchedEmpty(nodes: seq<Requirement>, candidates: seq<Node>)
    ensures Unmatched(nodes, candidates) == [] <==> |Matches(nodes, candidates)| == |nodes|
    ensures |Matches(nodes, candidates)| <= |nodes|
    ensures |Matches(nodes, candidates)| == |nodes| ==>
      forall i :: 0 <= i < |nodes| ==> Matches(nodes, candidates)[i].requirement == nodes[i]
  {
    if nodes != [] {
      UnmatchedEmpty(nodes[..|nodes| - 1], candidates);
    }
  }

  /** A plan is `planned` exactly when the discovered nodes are not too many, every requirement is
      assigned, in order, there are enough of them and, if the policy asks for it, in enough
      failure domains. */
  lemma PlannedIff(profile: Profile, discovered: seq<Node>)
    requires profile.Valid()
    ensures var plan, policy := PlanOf(profile, discovered), profile.placement;
      plan.planned <==>
        (&& |discovered| <= policy.maximumNodes
         && |plan.assignments| == |profile.nodes|
         && (forall i :: 0 <= i < |profile.nodes| ==> plan.assignments[i].requirement == profile.nodes[i])
         && policy.minimumReady <= |profile.nodes|
         && (policy.distinctDomains ==> policy.minimumReady <= |Domains(plan.assignments)|))
  {
    UnmatchedEmpty(profile.nodes, Sorted(discovered));
    hide Matches, Unmatched, Domains, Sorting.Sorted;
  }

  /** Within the cap, the assignments of a plan are sound, leave no requirement open that an unused
      discovered node fits, and are at least half of any feasible assignment. */
  lemma PlanIsGood(profile: Profile, discovered: seq<Node>, pairs: set<Match>)
    requires profile.Valid() && |discovered| <= profile.placement.maximumNodes
    ensures var matches := PlanOf(profile, discovered).assignments;
      && NothingShared(matches)
      && (forall m :: m in matches ==> SoundMatch(m, profile.nodes, discovered))
      && (forall r, node :: r in profile.nodes && node in discovered && Fits(r, node) ==>
            Matched(r, matches) || node.id in Used(matches))
      && (Feasible(pairs, profile.nodes, discovered) ==> |pairs| <= 2 * |matches|)
  {
    var candidates := Sorted(discovered);
    assert forall node :: node in candidates <==> node in multiset(candidates);
    assert forall node :: node in discovered <==> node in multiset(discovered);
    MatchesSound(profile.nodes, candidates);
    forall m | m in Matches(profile.nodes, candidates) ensures SoundMatch(m, profile.nodes, discovered) {
      assert SoundMatch(m, profile.nodes, candidates);
    }
    forall r, node | r in profile.nodes && node in discovered && Fits(r, node)
      ensures Matched(r, Matches(profile.nodes, candidates)) || node.id in Used(Matches(profile.nodes, candidates))
    {
      MatchesMaximal(profile.nodes, candidates, r);
    }
    if Feasible(pairs, profile.nodes, discovered) {
      assert Feasible(pairs, profile.nodes, candidates);
      AtLeastHalf(profile.nodes, candidates, pairs);
    }
  }

  // ----- which node a requirement gets ------------------------------------------------------

  /** A requirement before the i-th has been given this node. */
  predicate TakenBefore(nodes: seq<Requirement>, matches: seq<Match>, i: nat, id: NodeId)
    requires i <= |nodes|
  {
    exists x :: 0 <= x < |matches| && matches[x].node.id == id && matches[x].requirement in nodes[..i]
  }

  /** The i-th requirement gets this node: it is free and fits, and no node with a smaller id is and does. */
  predicate GetsLeast(nodes: seq<Requirement>, candidates: seq<Node>, matches: seq<Match>, i: nat, node: Node)
    requires i < |nodes|
  {
    && node in candidates && Fits(nodes[i], node) && !TakenBefore(nodes, matches, i, node.id)
    && forall other :: other in candidates && Fits(nodes[i], other) && !TakenBefore(nodes, matches, i, other.id) ==> node.id <= other.id
  }

  lemma {:induction false} FirstFitLeast(requirement: Requirement, candidates: seq<Node>, used: set<NodeId>)
    requires Sorting.Ascending(ById, candidates)
    ensures var fit := FirstFit(requirement, candidates, used);
      fit.Some? ==> forall node :: node in candidates && Fits(requirement, node) && node.id !in used ==> fit.value.id <= node.id
  {
    if candidates != [] {
      assert forall k :: 0 < k < |candidates| ==> !ById(candidates[k], candidates[0]);
      FirstFitLeast(requirement, candidates[1..], used);
    }
  }

  lemma {:induction false} MatchesFrom(nodes: seq<Requirement>, candidates: seq<Node>)
    ensures forall m :: m in Matches(nodes, candidates) ==> m.requirement in nodes
  {
    if nodes != [] {
      MatchesFrom(nodes[..|nodes| - 1], candidates);
    }
  }

  lemma TakenInRest(nodes: seq<Requirement>, candidates: seq<Node>, i: nat, id: NodeId)
    requires nodes != [] && DistinctRequirements(nodes) && i < |nodes|
    ensures TakenBefore(nodes, Matches(nodes, candidates), i, id) <==>
      TakenBefore(nodes[..|nodes| - 1], Matches(nodes[..|nodes| - 1], candidates), i, id)
  {
    var rest := nodes[..|nodes| - 1];
    var before, matches := Matches(rest, candidates), Matches(nodes, candidates);
    assert rest[..i] == nodes[..i];
    if x :| 0 <= x < |before| && before[x].node.id == id && before[x].requirement in rest[..i] {
      assert matches[x] == before[x];
    }
    if x :| 0 <= x < |matches| && matches[x].node.id == id && matches[x].requirement in nodes[..i] {
      assert nodes[|nodes| - 1] !in nodes[..i];
      assert before[x] == matches[x];
    }
  }

  lemma UsedIsTaken(nodes: seq<Requirement>, candidates: seq<Node>, id: NodeId)
    requires nodes != []
    ensures var rest := nodes[..|nodes| - 1];
      id in Used(Matches(rest, candidates)) <==> TakenBefore(rest, Matches(rest, candidates), |rest|, id)
  {
    var rest := nodes[..|nodes| - 1];
    MatchesFrom(rest, candidates);
    assert rest[..|rest|] == rest;
    var before := Matches(rest, candidates);
    if id in Used(before) {
      var m :| m in before && m.node.id == id;
      var x :| 0 <= x < |before| && before[x] == m;
    }
  }

  /** Each requirement in turn gets the least free node that fits it, or none if there is none. */
  lemma {:induction false} EachGetsLeast(nodes: seq<Requirement>, candidates: seq<Node>, i: nat)
    requires DistinctRequirements(nodes) && Sorting.Ascending(ById, candidates) && i < |nodes|
    ensures var matches := Matches(nodes, candidates);
      && (forall m :: m in matches && m.requirement == nodes[i] ==> GetsLeast(nodes, candidates, matches, i, m.node))
      && (!Matched(nodes[i], matches) ==>
            forall node :: node in candidates && Fits(nodes[i], node) ==> TakenBefore(nodes, matches, i, node.id))
  {
    var rest, last := nodes[..|nodes| - 1], nodes[|nodes| - 1];
    var before, matches := Matches(rest, candidates), Matches(nodes, candidates);
    forall id ensures TakenBefore(nodes, matches, i, id) <==> TakenBefore(rest, before, i, id) {
      TakenInRest(nodes, candidates, i, id);
    }
    MatchesFrom(rest, candidates);
    if i < |rest| {
      EachGetsLeast(rest, candidates, i);
      assert nodes[i] == rest[i];
      hide FirstFit, Used, TakenBefore, Fits;
      assert forall m :: m in matches && m.requirement == nodes[i] ==> m in before;
      if Matched(nodes[i], before) {
        var x :| 0 <= x < |before| && before[x].requirement == nodes[i];
        assert matches[x].requirement == nodes[i];
      }
    } else {
      FirstFitLeast(last, candidates, Used(before));
      forall id ensures id in Used(before) <==> TakenBefore(rest, before, i, id) {
        UsedIsTaken(nodes, candidates, id);
      }
      LastMatch(nodes, candidates);
      hide FirstFit, Used, TakenBefore, Matches;
    }
  }

  /** What the last requirement is matched with. */
  lemma LastMatch(nodes: seq<Requirement>, candidates: seq<Node>)
    requires nodes != [] && DistinctRequirements(nodes)
    ensures var last, matches := nodes[|nodes| - 1], Matches(nodes, candidates);
      var fit := FirstFit(last, candidates, Used(Matches(nodes[..|nodes| - 1], candidates)));
      && (forall m :: m in matches && m.requirement == last ==> fit == Some(m.node))
      && (fit.Some? ==> Matched(last, matches))
  {
    var rest, last := nodes[..|nodes| - 1], nodes[|nodes| - 1];
    MatchesFrom(rest, candidates);
    var before, matches := Matches(rest, candidates), Matches(nodes, candidates);
    assert forall m :: m in before ==> m.requirement != last;
    if |matches| > |before| {
      assert matches[|before|].requirement == last;
    }
  }

  /** Within the cap, each requirement in the order of the profile gets the discovered node with the least id
      that is healthy, capable and not given to an earlier one; it stays open only if there is none. */
  lemma PlanTakesLeast(profile: Profile, discovered: seq<Node>, i: nat)
    requires profile.Valid() && |discovered| <= profile.placement.maximumNodes && i < |profile.nodes|
    ensures var nodes, matches := profile.nodes, PlanOf(profile, discovered).assignments;
      && (forall m :: m in matches && m.requirement == nodes[i] ==> GetsLeast(nodes, discovered, matches, i, m.node))
      && (!Matched(nodes[i], matches) ==>
            forall node :: node in discovered && Fits(nodes[i], node) ==> TakenBefore(nodes, matches, i, node.id))
  {
    Sorting.SortedAscending(ById, discovered);
    Sorting.SameMembers(Sorted(discovered), discovered);
    EachGetsLeast(profile.nodes, Sorted(discovered), i);
    hide Matches, TakenBefore, Fits, Unmatched, Placement, Sorting.Sorted;
  }

  /** A requirement with this id is not matched. */
  predicate Open(nodes: seq<Requirement>, matches: seq<Match>, id: NodeId) {
    exists i :: 0 <= i < |nodes| && nodes[i].id == id && !Matched(nodes[i], matches)
  }

  lemma MatchedFurther(nodes: seq<Requirement>, candidates: seq<Node>, requirement: Requirement)
    requires nodes != [] && DistinctRequirements(nodes) && requirement in nodes
    ensures var rest := nodes[..|nodes| - 1];
      var before, matches := Matches(rest, candidates), Matches(nodes, candidates);
      Matched(requirement, matches) <==> if requirement in rest then Matched(requirement, before) else |matches| > |before|
  {
    var rest, last := nodes[..|nodes| - 1], nodes[|nodes| - 1];
    var before, matches := Matches(rest, candidates), Matches(nodes, candidates);
    MatchesFrom(rest, candidates);
    assert last !in rest;
    assert matches == before || (|matches| == |before| + 1 && matches[..|before|] == before && matches[|before|].requirement == last);
    hide Matches, FirstFit;
    if x :| 0 <= x < |before| && before[x].requirement == requirement {
      assert matches[x] == before[x];
    }
    if x :| 0 <= x < |matches| && matches[x].requirement == requirement && x < |before| {
      assert matches[x] == before[x];
    }
  }

  lemma OpenFurther(nodes: seq<Requirement>, candidates: seq<Node>, id: NodeId)
    requires nodes != [] && DistinctRequirements(nodes)
    ensures var rest, last := nodes[..|nodes| - 1], nodes[|nodes| - 1];
      var before, matches := Matches(rest, candidates), Matches(nodes, candidates);
      Open(nodes, matches, id) <==> Open(rest, before, id) || (last.id == id && |matches| <= |before|)
  {
    var rest, last := nodes[..|nodes| - 1], nodes[|nodes| - 1];
    var before, matches := Matches(rest, candidates), Matches(nodes, candidates);
    assert last !in rest;
    forall i | 0 <= i < |nodes|
      ensures Matched(nodes[i], matches) <==> if i < |rest| then Matched(rest[i], before) else |matches| > |before|
    {
      MatchedFurther(nodes, candidates, nodes[i]);
      assert i < |rest| ==> nodes[i] == rest[i];
    }
    hide Matches, Matched, DistinctRequirements;
    if i :| 0 <= i < |rest| && rest[i].id == id && !Matched(rest[i], before) {
      assert nodes[i] == rest[i];
    }
    if |matches| <= |before| && last.id == id {
      assert nodes[|nodes| - 1] == last;
    }
  }

  lemma {:induction false} UnmatchedMeans(nodes: seq<Requirement>, candidates: seq<Node>)
    requires DistinctRequirements(nodes)
    ensures forall b :: b in Unmatched(nodes, candidates) <==> b.Unsatisfied? && Open(nodes, Matches(nodes, candidates), b.id)
  {
    if nodes != [] {
      var rest := nodes[..|nodes| - 1];
      UnmatchedMeans(rest, candidates);
      forall id ensures Open(nodes, Matches(nodes, candidates), id)
        <==> Open(rest, Matches(rest, candidates), id) || (nodes[|nodes| - 1].id == id && |Matches(nodes, candidates)| <= |Matches(rest, candidates)|)
      {
        OpenFurther(nodes, candidates, id);
      }
    }
  }

  lemma PlacementMeans(policy: Policy, matches: seq<Match>)
    ensures forall b :: b in Placement(policy, matches) <==>
      || (b == MinimumNotMet && |matches| < policy.minimumReady)
      || (b == DomainsNotMet && policy.distinctDomains
          && |Domains(matches)| < |matches| && |Domains(matches)| < policy.minimumReady)
  {
    hide Domains;
  }

  /** Which blockers a plan has. */
  lemma BlockersMean(profile: Profile, discovered: seq<Node>)
    requires profile.Valid()
    ensures var plan, policy := PlanOf(profile, discovered), profile.placement;
      var fits := |discovered| <= policy.maximumNodes;
      && (!fits ==> plan == Plan(false, [], [TooManyNodes]))
      && (fits ==> TooManyNodes !in plan.blockers)
      && (forall id :: fits ==> (Unsatisfied(id) in plan.blockers <==> Open(profile.nodes, plan.assignments, id)))
      && (fits ==> (MinimumNotMet in plan.blockers <==> |plan.assignments| < policy.minimumReady))
      && (fits ==> (DomainsNotMet in plan.blockers <==>
            policy.distinctDomains && |Domains(plan.assignments)| < |plan.assignments| && |Domains(plan.assignments)| < policy.minimumReady))
  {
    UnmatchedMeans(profile.nodes, Sorted(discovered));
    var matches := Matches(profile.nodes, Sorted(discovered));
    PlacementMeans(profile.placement, matches);
    var unmatched, placement := Unmatched(profile.nodes, Sorted(discovered)), Placement(profile.placement, matches);
    hide Matches, Unmatched, Open, Domains, Placement, Sorting.Sorted;
    assert forall b :: b in unmatched + placement <==> b in unmatched || b in placement;
  }

  // ----- the order of discovery -----------------------------------------------------------

  ghost predicate DistinctNodes(nodes: seq<Node>) {
    forall a, b :: a in nodes && b in nodes && a.id == b.id ==> a == b && multiset(nodes)[a] == 1
  }

  /** When node ids are distinct, the plan does not depend on the order of discovery. */
  lemma PlanIgnoresOrder(profile: Profile, a: seq<Node>, b: seq<Node>)
    requires multiset(a) == multiset(b) && DistinctNodes(a)
    ensures PlanOf(profile, a) == PlanOf(profile, b)
  {
    assert Sorting.Distinguishes(ById, a) by {
      forall x, y | x in a && y in a && !ById(x, y) && !ById(y, x) ensures x == y {
        assert x.id == y.id;
      }
    }
    Sorting.SortedIgnoresOrder(ById, a, b);
    Sorting.SameMembers(a, b);
  }
}
