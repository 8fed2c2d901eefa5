/**
  The planner for automation runbooks: a topological order by Kahn's algorithm, always taking the
  least step id that is ready.  Step ids are compared by their order only and are modelled as
  natural numbers.
 */
module RunbookPlanner {
  import Sorting

  type StepId = nat

  datatype Step = Step(id: StepId, action: nat, dependsOn: seq<StepId>)

  datatype Plan =
    | Planned(steps: seq<Step>)
    | DuplicateStep(id: StepId)
    | UnknownDependency(id: StepId, dependency: StepId)
    | DependencyCycle

  /** The dependencies of every step. */
  type Graph = map<StepId, seq<StepId>>

  // ----- specification --------------------------------------------------------------------

  function Ids(steps: seq<Step>): (r: seq<StepId>)
    ensures |r| == |steps| && forall i :: 0 <= i < |steps| ==> r[i] == steps[i].id
  {
    seq(|steps|, i requires 0 <= i < |steps| => steps[i].id)
  }

  predicate Distinct<T(==)>(s: seq<T>) {
    forall i, k :: 0 <= i < k < |s| ==> s[i] != s[k]
  }

  /** The dependencies of the steps, which are known by distinct ids. */
  function GraphOf(steps: seq<Step>): (g: Graph)
    ensures forall id :: id in g <==> id in Ids(steps)
    ensures Distinct(Ids(steps)) ==> forall i :: 0 <= i < |steps| ==> g[steps[i].id] == steps[i].dependsOn
  {
    if steps == [] then map[]
    else
      var before := steps[..|steps| - 1];
      assert Ids(steps) == Ids(before) + [steps[|steps| - 1].id];
      GraphOf(before)[steps[|steps| - 1].id := steps[|steps| - 1].dependsOn]
  }

  predicate AllIn(ids: seq<StepId>, known: set<StepId>) {
    forall d :: d in ids ==> d in known
  }

  predicate Closed(g: Graph) {
    forall id :: id in g ==> AllIn(g[id], g.Keys)
  }

  /** Each element but the last depends on the next. */
  predicate Path(g: Graph, path: seq<StepId>) {
    forall i :: 0 <= i < |path| - 1 ==> path[i] in g && path[i + 1] in g[path[i]]
  }

  ghost predicate HasCycle(g: Graph) {
    exists path :: IsCycle(g, path)
  }

  predicate IsCycle(g: Graph, path: seq<StepId>) {
    |path| >= 2 && Path(g, path) && path[0] == path[|path| - 1]
  }

  /** Every step once, and every dependency before the steps that need it. */
  ghost predicate Orders(g: Graph, order: seq<StepId>) {
    && Distinct(order)
    && (forall id :: id in order <==> id in g)
    && forall k :: 0 <= k < |order| ==> AllDone(g[order[k]], order[..k])
  }

  predicate AllDone(deps: seq<StepId>, done: seq<StepId>) {
    forall d :: d in deps ==> d in done
  }

  predicate Available(g: Graph, done: seq<StepId>, id: StepId) {
    id in g && id !in done && AllDone(g[id], done)
  }

  predicate LeastAvailable(g: Graph, done: seq<StepId>, id: StepId) {
    Available(g, done, id) && forall other :: other in g && Available(g, done, other) ==> id <= other
  }

  /** Each element is the least one that is available after those before it. */
  predicate Greedy(g: Graph, order: seq<StepId>) {
    forall k :: 0 <= k < |order| ==> LeastAvailable(g, order[..k], order[k])
  }

  /** Not after the other order, lexicographically. */
  predicate NotAfter(a: seq<StepId>, b: seq<StepId>) {
    a == b || exists k :: 0 <= k < |a| && k < |b| && a[..k] == b[..k] && a[k] < b[k]
  }

  // ----- what the specification means -----------------------------------------------------

  /** A greedy order is the lexicographically least of all topological orders. */
  lemma GreedyIsLeast(g: Graph, order: seq<StepId>, other: seq<StepId>)
    requires Greedy(g, order) && Orders(g, order) && Orders(g, other)
    ensures NotAfter(order, other)
  {
    SameLength(order, other, g.Keys);
    if k :| 0 <= k < |order| && order[..k] == other[..k] && order[k] != other[k] {
      assert other[k] in g && Available(g, order[..k], other[k]);
      assert order[k] < other[k];
    } else {
      SamePrefix(order, other, |order|);
    }
  }

  lemma SamePrefix(a: seq<StepId>, b: seq<StepId>, n: nat)
    requires |a| == |b| && n <= |a|
    requires forall k :: 0 <= k < |a| && a[..k] == b[..k] ==> a[k] == b[k]
    ensures a[..n] == b[..n]
    ensures n == |a| ==> a == b
  {
    if n > 0 {
      SamePrefix(a, b, n - 1);
      assert a[..n] == a[..n - 1] + [a[n - 1]] && b[..n] == b[..n - 1] + [b[n - 1]];
    }
    assert a[..|a|] == a && b[..|b|] == b;
  }

  /** A distinct sequence has as many elements as the set of them. */
  lemma {:induction false} DistinctSize(s: seq<StepId>, all: set<StepId>)
    requires Distinct(s) && forall x :: x in s ==> x in all
    ensures |s| <= |all|
    ensures (forall x :: x in all ==> x in s) ==> |s| == |all|
  {
    if s == [] {
      assert (forall x :: x in all ==> x in s) ==> all == {};
    } else {
      var last, rest := s[|s| - 1], s[..|s| - 1];
      assert forall x :: x in s <==> x in rest || x == last;
      DistinctSize(rest, all - {last});
    }
  }

  lemma SameLength(a: seq<StepId>, b: seq<StepId>, all: set<StepId>)
    requires Distinct(a) && Distinct(b)
    requires forall x :: x in all <==> x in a
    requires forall x :: x in all <==> x in b
    ensures |a| == |b|
  {
    DistinctSize(a, all);
    DistinctSize(b, all);
  }

  /** Two greedy orders that take everything are the same: the plan is a function of the graph. */
  lemma GreedyUnique(g: Graph, a: seq<StepId>, b: seq<StepId>)
    requires Greedy(g, a) && Greedy(g, b) && Orders(g, a) && Orders(g, b)
    ensures a == b
  {
    SameLength(a, b, g.Keys);
    forall k | 0 <= k < |a| && a[..k] == b[..k]
      ensures a[k] == b[k]
    {
      assert LeastAvailable(g, a[..k], a[k]) && LeastAvailable(g, b[..k], b[k]);
    }
    SamePrefix(a, b, |a|);
  }

  ghost predicate SameElements(a: seq<StepId>, b: seq<StepId>) {
    forall d :: d in a <==> d in b
  }

  ghost predicate SameDependencies(g: Graph, h: Graph) {
    g.Keys == h.Keys && forall id :: id in g ==> SameElements(g[id], h[id])
  }

  /** The order matters neither of the dependencies of a step nor how often one is repeated. */
  lemma GreedySameDependencies(g: Graph, h: Graph, order: seq<StepId>)
    requires SameDependencies(g, h)
    requires Greedy(g, order) && Orders(g, order)
    ensures Greedy(h, order) && Orders(h, order)
  {
    forall done, id | id in g
      ensures Available(g, done, id) <==> Available(h, done, id)
    {
    }
    forall k | 0 <= k < |order|
      ensures LeastAvailable(h, order[..k], order[k])
    {
      assert LeastAvailable(g, order[..k], order[k]);
    }
  }

  // ----- orders and cycles ----------------------------------------------------------------

  /** Along a path the positions in an order go down. */
  lemma {:induction false} PathGoesDown(g: Graph, order: seq<StepId>, path: seq<StepId>, n: nat, k: nat)
    requires Orders(g, order) && Closed(g) && Path(g, path) && n < |path|
    requires k < |order| && order[k] == path[0]
    ensures n > 0 ==> path[n] in order[..k]
    ensures path[n] in order
  {
    if n > 0 {
      PathGoesDown(g, order, path, n - 1, k);
      var j :| 0 <= j < |order| && order[j] == path[n - 1] && (n - 1 > 0 ==> j < k) && (n - 1 == 0 ==> j == k);
      assert path[n] in g[order[j]];
      var i :| 0 <= i < j && order[i] == path[n];
      assert order[..k][i] == path[n];
    }
  }

  /** A graph with an order has no cycle. */
  lemma OrderedHasNoCycle(g: Graph, order: seq<StepId>)
    requires Orders(g, order) && Closed(g)
    ensures !HasCycle(g)
  {
    if path :| IsCycle(g, path) {
      assert path[0] in g && path[0] in order;
      var k :| 0 <= k < |order| && order[k] == path[0];
      PathGoesDown(g, order, path, |path| - 1, k);
      NotBeforeItself(order, k);
    }
  }

  lemma NotBeforeItself(order: seq<StepId>, k: nat)
    requires Distinct(order) && k < |order|
    ensures order[k] !in order[..k]
  {
  }

  /** Every element depends on another of the same set. */
  predicate Stuck(g: Graph, left: set<StepId>) {
    left <= g.Keys && forall id :: id in left ==> DependsWithin(g, left, id)
  }

  predicate DependsWithin(g: Graph, left: set<StepId>, id: StepId) {
    id in g && exists d :: d in g[id] && d in left
  }

  /** A walk of `n` steps that never leaves a set in which every element depends on another. */
  lemma {:induction false} Walk(g: Graph, left: set<StepId>, start: StepId, n: nat) returns (path: seq<StepId>)
    requires start in left && Stuck(g, left)
    ensures |path| == n + 1 && path[0] == start && Path(g, path) && forall x :: x in path ==> x in left
    decreases n
  {
    if n == 0 {
      path := [start];
    } else {
      assert DependsWithin(g, left, start);
      var d :| d in g[start] && d in left;
      var rest := Walk(g, left, d, n - 1);
      path := [start] + rest;
    }
  }

  /** If every step that is left depends on another that is left, there is a cycle. */
  lemma StuckHasCycle(g: Graph, left: set<StepId>)
    requires left != {} && Stuck(g, left)
    ensures HasCycle(g)
  {
    var start :| start in left;
    var path := Walk(g, left, start, |left|);
    Pigeonhole(path, left);
    var i, k :| 0 <= i < k < |path| && path[i] == path[k];
    SubPath(g, path, i, k);
    assert IsCycle(g, path[i..k + 1]);
  }

  lemma Pigeonhole(s: seq<StepId>, all: set<StepId>)
    requires |s| > |all| && forall x :: x in s ==> x in all
    ensures !Distinct(s)
  {
    if Distinct(s) {
      DistinctSize(s, all);
    }
  }

  lemma SubPath(g: Graph, path: seq<StepId>, i: nat, k: nat)
    requires Path(g, path) && i <= k < |path|
    ensures Path(g, path[i..k + 1])
  {
    var part := path[i..k + 1];
    forall j | 0 <= j < |part| - 1
      ensures part[j] in g && part[j + 1] in g[part[j]]
    {
      assert part[j] == path[i + j] && part[j + 1] == path[i + j + 1];
    }
  }

  // ----- the planner ----------------------------------------------------------------------

  /** How many of the dependencies are not done. */
  function Pending(deps: seq<StepId>, done: seq<StepId>): nat {
    if deps == [] then 0
    else Pending(deps[..|deps| - 1], done) + if deps[|deps| - 1] in done then 0 else 1
  }

  lemma {:induction false} PendingZero(deps: seq<StepId>, done: seq<StepId>)
    ensures Pending(deps, done) == 0 <==> AllDone(deps, done)
  {
    if deps != [] {
      PendingZero(deps[..|deps| - 1], done);
      assert forall d :: d in deps <==> d in deps[..|deps| - 1] || d == deps[|deps| - 1];
    }
  }

  lemma {:induction false} PendingAll(deps: seq<StepId>)
    ensures Pending(deps, []) == |deps|
  {
    if deps != [] {
      PendingAll(deps[..|deps| - 1]);
    }
  }

  /** Every occurrence of a step that gets done was pending. */
  lemma {:induction false} PendingDone(deps: seq<StepId>, done: seq<StepId>, x: StepId)
    requires x !in done
    ensures Pending(deps, done) == Pending(deps, done + [x]) + multiset(deps)[x]
  {
    if deps != [] {
      var rest := deps[..|deps| - 1];
      PendingDone(rest, done, x);
      assert deps == rest + [deps[|deps| - 1]];
    }
  }

  predicate Below(a: StepId, b: StepId) {
    a < b
  }

  /** The ids in order, as often as they are given. */
  function InOrder(ids: seq<StepId>): (r: seq<StepId>)
    ensures multiset(r) == multiset(ids)
  {
    Sorting.Sorted(Below, ids)
  }

  /** The counters and the reverse edges, once all dependencies have been read. */
  ghost predicate Counted(g: Graph, indegree: map<StepId, nat>, dependents: map<StepId, seq<StepId>>) {
    && indegree.Keys == g.Keys && dependents.Keys == g.Keys
    && (forall id :: id in g ==> indegree[id] == |g[id]|)
    && (forall d, id :: d in g && id in g ==> multiset(dependents[d])[id] == multiset(g[id])[d])
    && (forall d :: d in g ==> AllIn(dependents[d], g.Keys))
  }

  /** The ready heap holds, once each, the steps that are not done and wait for nothing. */
  ghost predicate ReadyHeap(g: Graph, done: seq<StepId>, indegree: map<StepId, nat>, ready: multiset<StepId>)
    requires indegree.Keys == g.Keys
  {
    forall id :: ready[id] == if id in g && id !in done && indegree[id] == 0 then 1 else 0
  }

  /** Removes nothing: finds what `heappop` would remove. */
  method Least(ready: multiset<StepId>) returns (least: StepId)
    requires |ready| > 0
    ensures least in ready && forall id :: id in ready ==> least <= id
  {
    least :| least in ready;
    var rest := ready[least := 0];
    while |rest| > 0
      invariant least in ready && forall id :: id in ready ==> id in rest || least <= id
      invariant rest <= ready
      decreases |rest|
    {
      var id :| id in rest;
      if id < least {
        least := id;
      }
      rest := rest[id := 0];
    }
  }

  /** Every counter is what is pending, plus the occurrences still to be taken off. */
  ghost predicate Owed(g: Graph, done: seq<StepId>, indegree: map<StepId, nat>, rest: multiset<StepId>) {
    indegree.Keys == g.Keys && forall id :: id in g ==> indegree[id] == Pending(g[id], done) + rest[id]
  }

  /** Takes a step off the counters of its dependents and adds those that now wait for nothing. */
  method Release(ghost g: Graph, ghost done: seq<StepId>, dependents: seq<StepId>, indegree: map<StepId, nat>, ready: multiset<StepId>)
    returns (indegree': map<StepId, nat>, ready': multiset<StepId>)
    requires Owed(g, done, indegree, multiset(dependents)) && ReadyHeap(g, done, indegree, ready)
    requires forall id :: id in dependents ==> id in g && id !in done
    ensures Owed(g, done, indegree', multiset{}) && indegree'.Keys == g.Keys && ReadyHeap(g, done, indegree', ready')
  {
    hide Pending;
    indegree', ready' := indegree, ready;
    var i, todo := 0, InOrder(dependents);
    assert todo[0..] == todo;
    while i < |todo|
      invariant 0 <= i <= |todo| && indegree'.Keys == g.Keys
      invariant Owed(g, done, indegree', multiset(todo[i..])) && ReadyHeap(g, done, indegree', ready')
    {
      var dependent := todo[i];
      assert dependent in multiset(todo) && dependent in dependents;
      assert todo[i..] == [dependent] + todo[i + 1..];
      ReleaseOne(g, done, indegree', dependent, multiset(todo[i + 1..]), ready');
      indegree' := indegree'[dependent := indegree'[dependent] - 1];
      if indegree'[dependent] == 0 {
        ready' := ready' + multiset{dependent};
      }
      i := i + 1;
    }
    assert todo[i..] == [];
  }

  lemma ReleaseOne(g: Graph, done: seq<StepId>, indegree: map<StepId, nat>, x: StepId, rest: multiset<StepId>, ready: multiset<StepId>)
    requires Owed(g, done, indegree, multiset{x} + rest) && x in g && x !in done && ReadyHeap(g, done, indegree, ready)
    ensures indegree[x] > 0
    ensures var after := indegree[x := indegree[x] - 1];
      && Owed(g, done, after, rest)
      && ReadyHeap(g, done, after, if after[x] == 0 then ready + multiset{x} else ready)
  {
    hide Pending;
  }

  /** The steps without dependencies. */
  method InitiallyReady(ghost g: Graph, indegree: map<StepId, nat>) returns (ready: multiset<StepId>)
    requires indegree.Keys == g.Keys
    ensures ReadyHeap(g, [], indegree, ready)
  {
    ready := multiset{};
    var unseen := indegree.Keys;
    while unseen != {}
      invariant unseen <= g.Keys
      invariant forall id :: ready[id] == if id in g && id !in unseen && indegree[id] == 0 then 1 else 0
      decreases |unseen|
    {
      var id :| id in unseen;
      if indegree[id] == 0 {
        ready := ready + multiset{id};
      }
      unseen := unseen - {id};
    }
  }

  /** Kahn's loop: always the least step that is ready, until none is. */
  method Emit(ghost g: Graph, byId: map<StepId, Step>, indegree0: map<StepId, nat>, dependents: map<StepId, seq<StepId>>)
    returns (ordered: seq<Step>)
    requires Counted(g, indegree0, dependents) && byId.Keys == g.Keys
    requires forall id :: id in g ==> byId[id].id == id
    ensures Distinct(Ids(ordered)) && Greedy(g, Ids(ordered))
    ensures forall i :: 0 <= i < |ordered| ==> ordered[i].id in g && ordered[i] == byId[ordered[i].id]
    ensures forall id :: id in g ==> !Available(g, Ids(ordered), id)
  {
    hide *;
    NothingDone(g, indegree0, dependents);
    var indegree := indegree0;
    var ready := InitiallyReady(g, indegree);
    ordered := [];
    ghost var done: seq<StepId> := [];
    while |ready| > 0
      invariant done == Ids(ordered) && Distinct(done) && Greedy(g, done)
      invariant forall i :: 0 <= i < |ordered| ==> ordered[i].id in g && ordered[i] == byId[ordered[i].id]
      invariant Owed(g, done, indegree, multiset{}) && indegree.Keys == g.Keys && ReadyHeap(g, done, indegree, ready)
      decreases |g| - |done|
    {
      var id := Least(ready);
      Popped(g, done, indegree0, indegree, dependents, ready, id);
      ready := ready - multiset{id};
      IdsSnoc(ordered, byId[id]);
      ordered := ordered + [byId[id]];
      done := done + [id];
      indegree, ready := Release(g, done, dependents[id], indegree, ready);
      NotMore(g, done);
    }
    NothingLeft(g, done, indegree, ready);
  }

  lemma IdsSnoc(steps: seq<Step>, step: Step)
    ensures Ids(steps + [step]) == Ids(steps) + [step.id]
  {
  }

  lemma NothingDone(g: Graph, indegree: map<StepId, nat>, dependents: map<StepId, seq<StepId>>)
    requires Counted(g, indegree, dependents)
    ensures Distinct<StepId>([]) && Greedy(g, []) && Ids([]) == []
    ensures Owed(g, [], indegree, multiset{}) && indegree.Keys == g.Keys
  {
    forall id | id in g ensures indegree[id] == Pending(g[id], []) { PendingAll(g[id]); }
  }

  /** When a step is done, its dependents are owed one for each time they name it. */
  lemma NowOwed(g: Graph, done: seq<StepId>, indegree0: map<StepId, nat>, indegree: map<StepId, nat>,
                dependents: map<StepId, seq<StepId>>, x: StepId)
    requires Counted(g, indegree0, dependents) && Owed(g, done, indegree, multiset{}) && x in g && x !in done
    requires forall id :: id in g && (id in done || id == x) ==> x !in g[id]
    ensures Owed(g, done + [x], indegree, multiset(dependents[x]))
    ensures forall id :: id in dependents[x] ==> id in g && id !in done + [x]
  {
    forall id | id in g ensures indegree[id] == Pending(g[id], done + [x]) + multiset(dependents[x])[id] {
      PendingDone(g[id], done, x);
    }
    forall id | id in dependents[x] ensures x in g[id] {
      assert id in multiset(dependents[x]);
      assert x in multiset(g[id]);
    }
  }

  /** Popping the heap takes the least available step and owes its dependents. */
  lemma Popped(g: Graph, done: seq<StepId>, indegree0: map<StepId, nat>, indegree: map<StepId, nat>,
               dependents: map<StepId, seq<StepId>>, ready: multiset<StepId>, x: StepId)
    requires Counted(g, indegree0, dependents) && Owed(g, done, indegree, multiset{})
    requires indegree.Keys == g.Keys && ReadyHeap(g, done, indegree, ready)
    requires Distinct(done) && Greedy(g, done)
    requires x in ready && forall id :: id in ready ==> x <= id
    ensures x in g && x in dependents && Distinct(done + [x]) && Greedy(g, done + [x])
    ensures Owed(g, done + [x], indegree, multiset(dependents[x]))
    ensures forall id :: id in dependents[x] ==> id in g && id !in done + [x]
    ensures ReadyHeap(g, done + [x], indegree, ready - multiset{x})
  {
    hide Greedy, Distinct, Pending;
    assert ready[x] == 1;
    assert forall id :: id in g && id !in done && indegree[id] == 0 ==> ready[id] == 1;
    TakeLeast(g, done, indegree, x);
    NowOwed(g, done, indegree0, indegree, dependents, x);
  }

  lemma NothingLeft(g: Graph, done: seq<StepId>, indegree: map<StepId, nat>, ready: multiset<StepId>)
    requires Owed(g, done, indegree, multiset{}) && ReadyHeap(g, done, indegree, ready) && |ready| == 0
    ensures forall id :: id in g ==> !Available(g, done, id)
  {
    forall id | id in g ensures !Available(g, done, id) {
      PendingZero(g[id], done);
      assert ready[id] == 0;
    }
  }

  /** The least step in the heap is the least available one, and no done step waits for it. */
  lemma TakeLeast(g: Graph, done: seq<StepId>, indegree: map<StepId, nat>, x: StepId)
    requires Owed(g, done, indegree, multiset{})
    requires Distinct(done) && Greedy(g, done) && x in g && x !in done && indegree[x] == 0
    requires forall id :: id in g && id !in done && indegree[id] == 0 ==> x <= id
    ensures Distinct(done + [x]) && Greedy(g, done + [x])
    ensures forall id :: id in g && (id in done || id == x) ==> x !in g[id]
  {
    forall id | id in g
      ensures indegree[id] == 0 <==> AllDone(g[id], done)
    {
      PendingZero(g[id], done);
    }
    assert LeastAvailable(g, done, x);
    forall k | 0 <= k < |done + [x]|
      ensures LeastAvailable(g, (done + [x])[..k], (done + [x])[k])
    {
      if k < |done| {
        assert (done + [x])[..k] == done[..k];
      } else {
        assert (done + [x])[..k] == done;
      }
    }
    forall id | id in done
      ensures x !in g[id]
    {
      var k :| 0 <= k < |done| && done[k] == id;
      assert LeastAvailable(g, done[..k], done[k]);
    }
  }

  lemma NotMore(g: Graph, done: seq<StepId>)
    requires Distinct(done) && Greedy(g, done)
    ensures |done| <= |g|
  {
    forall x | x in done ensures x in g.Keys {
      var k :| 0 <= k < |done| && done[k] == x;
      assert LeastAvailable(g, done[..k], done[k]);
    }
    DistinctSize(done, g.Keys);
  }

  /** The step at `k` is the first whose id another step before it has. */
  predicate RepeatsAt(steps: seq<Step>, k: nat, id: StepId) {
    k < |steps| && steps[k].id == id && id in Ids(steps[..k]) && Distinct(Ids(steps[..k]))
  }

  predicate FirstRepeated(steps: seq<Step>, id: StepId) {
    exists k :: 0 <= k < |steps| && RepeatsAt(steps, k, id)
  }

  /** The dependency at `j` of the step at `i` is unknown, and all before it are known. */
  predicate UnknownAt(steps: seq<Step>, i: nat, j: nat)
    requires i < |steps| && j < |steps[i].dependsOn|
  {
    var known := GraphOf(steps).Keys;
    && steps[i].dependsOn[j] !in known && AllIn(steps[i].dependsOn[..j], known)
    && forall k :: 0 <= k < i ==> AllIn(steps[k].dependsOn, known)
  }

  ghost predicate FirstUnknown(steps: seq<Step>, id: StepId, dependency: StepId) {
    exists i, j :: 0 <= i < |steps| && 0 <= j < |steps[i].dependsOn| && UnknownAt(steps, i, j)
      && steps[i].id == id && steps[i].dependsOn[j] == dependency
  }

  lemma UnknownHere(steps: seq<Step>, i: nat, j: nat)
    requires i < |steps| && j < |steps[i].dependsOn| && steps[i].dependsOn[j] !in GraphOf(steps)
    requires AllIn(steps[i].dependsOn[..j], GraphOf(steps).Keys)
    requires forall k :: 0 <= k < i ==> AllIn(steps[k].dependsOn, GraphOf(steps).Keys)
    ensures FirstUnknown(steps, steps[i].id, steps[i].dependsOn[j])
  {
    hide GraphOf, AllIn;
    assert UnknownAt(steps, i, j);
  }

  /** The steps by id, unless an id is used twice. */
  method Index(steps: seq<Step>) returns (byId: map<StepId, Step>, duplicate: seq<StepId>)
    ensures duplicate == [] <==> Distinct(Ids(steps))
    ensures duplicate == [] ==>
      byId.Keys == GraphOf(steps).Keys && forall i :: 0 <= i < |steps| ==> byId[steps[i].id] == steps[i]
    ensures duplicate != [] ==> FirstRepeated(steps, duplicate[0])
  {
    hide GraphOf;
    byId, duplicate := map[], [];
    var i := 0;
    while i < |steps|
      invariant 0 <= i <= |steps|
      invariant forall id :: id in byId <==> exists k :: 0 <= k < i && steps[k].id == id
      invariant forall k :: 0 <= k < i ==> byId[steps[k].id] == steps[k]
      invariant forall j, k :: 0 <= j < k < i ==> steps[j].id != steps[k].id
    {
      if steps[i].id in byId {
        duplicate := [steps[i].id];
        ghost var k :| 0 <= k < i && steps[k].id == steps[i].id;
        assert Ids(steps)[k] == Ids(steps)[i];
        assert Ids(steps[..i])[k] == steps[i].id;
        assert RepeatsAt(steps, i, steps[i].id);
        return;
      }
      byId := byId[steps[i].id := steps[i]];
      i := i + 1;
    }
  }

  /** What `Counted` says, of the dependencies read so far. */
  ghost predicate Reading(g: Graph, read: Graph, indegree: map<StepId, nat>, dependents: map<StepId, seq<StepId>>) {
    read.Keys == g.Keys == indegree.Keys == dependents.Keys && Counted(read, indegree, dependents)
  }

  lemma NothingRead(g: Graph, read: Graph, indegree: map<StepId, nat>, dependents: map<StepId, seq<StepId>>)
    requires read.Keys == g.Keys == indegree.Keys == dependents.Keys
    requires forall id :: id in g ==> read[id] == [] && indegree[id] == 0 && dependents[id] == []
    ensures Reading(g, read, indegree, dependents)
  {
  }

  lemma ReadOne(g: Graph, read: Graph, indegree: map<StepId, nat>, dependents: map<StepId, seq<StepId>>, id: StepId, d: StepId)
    requires Reading(g, read, indegree, dependents) && id in g && d in g
    ensures Reading(g, read[id := read[id] + [d]], indegree[id := indegree[id] + 1], dependents[d := dependents[d] + [id]])
  {
    MoreEdges(read, indegree, dependents, id, d);
    MoreKnown(read, indegree, dependents, id, d);
    hide Counted, AllIn;
    UpdateKeepsKeys(read, id, read[id] + [d]);
    UpdateKeepsKeys(indegree, id, indegree[id] + 1);
    UpdateKeepsKeys(dependents, d, dependents[d] + [id]);
    OneCounted(read[id := read[id] + [d]], indegree[id := indegree[id] + 1], dependents[d := dependents[d] + [id]]);
  }

  lemma MoreEdges(read: Graph, indegree: map<StepId, nat>, dependents: map<StepId, seq<StepId>>, id: StepId, d: StepId)
    requires Counted(read, indegree, dependents) && id in read && d in read
    ensures var read', dependents' := read[id := read[id] + [d]], dependents[d := dependents[d] + [id]];
      forall e, x :: e in read && x in read ==> multiset(dependents'[e])[x] == multiset(read'[x])[e]
  {
    hide AllIn;
    var read', dependents' := read[id := read[id] + [d]], dependents[d := dependents[d] + [id]];
    forall e, x | e in read && x in read
      ensures multiset(dependents'[e])[x] == multiset(read'[x])[e]
    {
      ReadPair(read[x], dependents[e], e, x, id, d);
    }
  }

  lemma MoreKnown(read: Graph, indegree: map<StepId, nat>, dependents: map<StepId, seq<StepId>>, id: StepId, d: StepId)
    requires Counted(read, indegree, dependents) && id in read && d in read
    ensures forall e :: e in read ==> AllIn((dependents[d := dependents[d] + [id]])[e], read.Keys)
    ensures forall e :: e in read ==> (indegree[id := indegree[id] + 1])[e] == |(read[id := read[id] + [d]])[e]|
  {
    assert AllIn(dependents[d], read.Keys);
    assert AllIn(dependents[d] + [id], read.Keys);
    hide AllIn;
  }

  lemma OneCounted(read: Graph, indegree: map<StepId, nat>, dependents: map<StepId, seq<StepId>>)
    requires read.Keys == indegree.Keys == dependents.Keys
    requires forall id :: id in read ==> indegree[id] == |read[id]|
    requires forall d, id :: d in read && id in read ==> multiset(dependents[d])[id] == multiset(read[id])[d]
    requires forall d :: d in read ==> AllIn(dependents[d], read.Keys)
    ensures Counted(read, indegree, dependents)
  {
    hide AllIn;
  }

  lemma ReadPair(deps: seq<StepId>, dependents: seq<StepId>, e: StepId, x: StepId, id: StepId, d: StepId)
    requires multiset(dependents)[x] == multiset(deps)[e]
    ensures multiset(if e == d then dependents + [id] else dependents)[x] == multiset(if x == id then deps + [d] else deps)[e]
  {
  }

  lemma ReadingKeys(g: Graph, read: Graph, indegree: map<StepId, nat>, dependents: map<StepId, seq<StepId>>)
    requires Reading(g, read, indegree, dependents)
    ensures read.Keys == g.Keys == indegree.Keys == dependents.Keys
    ensures read == g ==> Counted(g, indegree, dependents)
  {
    hide Counted;
  }

  /** Counts the dependencies of one step, unless one is unknown. */
  method CountStep(steps: seq<Step>, i: nat, byId: map<StepId, Step>, ghost read0: Graph,
                   indegree0: map<StepId, nat>, dependents0: map<StepId, seq<StepId>>)
    returns (ghost read: Graph, indegree: map<StepId, nat>, dependents: map<StepId, seq<StepId>>, unknown: seq<(StepId, StepId)>)
    requires Distinct(Ids(steps)) && byId.Keys == GraphOf(steps).Keys && i < |steps|
    requires Reading(GraphOf(steps), read0, indegree0, dependents0) && ReadSoFar(steps, read0, i, 0)
    requires forall k :: 0 <= k < i ==> AllIn(steps[k].dependsOn, GraphOf(steps).Keys)
    ensures unknown == [] ==>
      (&& Reading(GraphOf(steps), read, indegree, dependents) && ReadSoFar(steps, read, i + 1, 0)
       && AllIn(steps[i].dependsOn, GraphOf(steps).Keys))
    ensures unknown != [] ==> FirstUnknown(steps, unknown[0].0, unknown[0].1) && !Closed(GraphOf(steps))
  {
    hide *;
    StepsKnown(steps);
    AllInNothing(GraphOf(steps).Keys);
    var id, deps := steps[i].id, steps[i].dependsOn;
    assert deps[..0] == [];
    read, indegree, dependents, unknown := read0, indegree0, dependents0, [];
    var j := 0;
    while j < |deps|
      invariant 0 <= j <= |deps| && unknown == []
      invariant Reading(GraphOf(steps), read, indegree, dependents) && ReadSoFar(steps, read, i, j)
      invariant AllIn(deps[..j], GraphOf(steps).Keys)
    {
      if deps[j] !in byId {
        UnknownNotClosed(steps, i, deps[j]);
        UnknownHere(steps, i, j);
        unknown := [(id, deps[j])];
        return;
      }
      ReadingKeys(GraphOf(steps), read, indegree, dependents);
      ReadOne(GraphOf(steps), read, indegree, dependents, id, deps[j]);
      ReadNext(steps, read, i, j);
      indegree := indegree[id := indegree[id] + 1];
      dependents := dependents[deps[j] := dependents[deps[j]] + [id]];
      read := read[id := read[id] + [deps[j]]];
      AllInSnoc(deps, j, GraphOf(steps).Keys);
      j := j + 1;
    }
    assert deps[..j] == deps;
    ReadWhole(steps, read, i);
  }

  /** Counts the dependencies of every step, unless one is unknown. */
  method Count(steps: seq<Step>, byId: map<StepId, Step>)
    returns (indegree: map<StepId, nat>, dependents: map<StepId, seq<StepId>>, unknown: seq<(StepId, StepId)>)
    requires Distinct(Ids(steps)) && byId.Keys == GraphOf(steps).Keys
    ensures unknown == [] ==> Closed(GraphOf(steps)) && Counted(GraphOf(steps), indegree, dependents)
    ensures unknown != [] ==> FirstUnknown(steps, unknown[0].0, unknown[0].1) && !Closed(GraphOf(steps))
  {
    hide *;
    ghost var g := GraphOf(steps);
    ghost var read: Graph := map id | id in g :: [];
    indegree, dependents, unknown := map id | id in byId :: 0, map id | id in byId :: [], [];
    NothingRead(g, read, indegree, dependents);
    StepsKnown(steps);
    NothingReadSoFar(steps, read);
    var i := 0;
    while i < |steps|
      invariant 0 <= i <= |steps| && unknown == []
      invariant Reading(g, read, indegree, dependents) && ReadSoFar(steps, read, i, 0)
      invariant forall k :: 0 <= k < i ==> AllIn(steps[k].dependsOn, g.Keys)
    {
      read, indegree, dependents, unknown := CountStep(steps, i, byId, read, indegree, dependents);
      if unknown != [] {
        return;
      }
      i := i + 1;
    }
    SoFarIsAll(steps, read);
    ReadingKeys(g, read, indegree, dependents);
    AllRead(steps, read);
    AllKnown(steps);
  }

  /** All dependencies of the first `i` steps have been read, and the first `j` of the next. */
  ghost predicate ReadSoFar(steps: seq<Step>, read: Graph, i: nat, j: nat) {
    forall k :: 0 <= k < |steps| ==>
      && steps[k].id in read
      && (k < i ==> read[steps[k].id] == steps[k].dependsOn)
      && (k == i && j <= |steps[k].dependsOn| ==> read[steps[k].id] == steps[k].dependsOn[..j])
      && (k > i ==> read[steps[k].id] == [])
  }

  lemma AllInNothing(known: set<StepId>)
    ensures AllIn([], known)
  {
  }

  lemma AllInSnoc(ids: seq<StepId>, j: nat, known: set<StepId>)
    requires j < |ids| && AllIn(ids[..j], known) && ids[j] in known
    ensures AllIn(ids[..j + 1], known)
  {
    assert ids[..j + 1] == ids[..j] + [ids[j]];
  }

  lemma NothingReadSoFar(steps: seq<Step>, read: Graph)
    requires forall k :: 0 <= k < |steps| ==> steps[k].id in read
    requires forall id :: id in read ==> read[id] == []
    ensures ReadSoFar(steps, read, 0, 0)
  {
  }

  lemma ReadWhole(steps: seq<Step>, read: Graph, i: nat)
    requires i < |steps| && ReadSoFar(steps, read, i, |steps[i].dependsOn|)
    ensures ReadSoFar(steps, read, i + 1, 0)
  {
    assert steps[i].dependsOn[..|steps[i].dependsOn|] == steps[i].dependsOn;
  }

  lemma SoFarIsAll(steps: seq<Step>, read: Graph)
    requires ReadSoFar(steps, read, |steps|, 0)
    ensures forall k :: 0 <= k < |steps| ==> steps[k].id in read && read[steps[k].id] == steps[k].dependsOn
  {
  }

  lemma ReadNext(steps: seq<Step>, read: Graph, i: nat, j: nat)
    requires Distinct(Ids(steps)) && i < |steps| && j < |steps[i].dependsOn| && ReadSoFar(steps, read, i, j)
    ensures ReadSoFar(steps, read[steps[i].id := read[steps[i].id] + [steps[i].dependsOn[j]]], i, j + 1)
  {
    assert forall k :: 0 <= k < |steps| && k != i ==> Ids(steps)[k] != Ids(steps)[i];
    assert steps[i].dependsOn[..j + 1] == steps[i].dependsOn[..j] + [steps[i].dependsOn[j]];
  }

  lemma StepsKnown(steps: seq<Step>)
    ensures forall k :: 0 <= k < |steps| ==> steps[k].id in GraphOf(steps)
  {
    hide GraphOf;
    forall k | 0 <= k < |steps| ensures steps[k].id in GraphOf(steps) {
      assert Ids(steps)[k] == steps[k].id;
    }
  }

  lemma StepOf(steps: seq<Step>, id: StepId) returns (k: nat)
    requires Distinct(Ids(steps)) && id in GraphOf(steps)
    ensures k < |steps| && steps[k].id == id && GraphOf(steps)[id] == steps[k].dependsOn
  {
    hide GraphOf;
    assert id in Ids(steps);
    k :| 0 <= k < |steps| && Ids(steps)[k] == id;
  }

  lemma AllRead(steps: seq<Step>, read: Graph)
    requires Distinct(Ids(steps)) && read.Keys == GraphOf(steps).Keys
    requires forall k :: 0 <= k < |steps| ==> steps[k].id in read && read[steps[k].id] == steps[k].dependsOn
    ensures read == GraphOf(steps)
  {
    hide GraphOf, Distinct, Ids;
    var g := GraphOf(steps);
    forall id | id in read
      ensures read[id] == g[id]
    {
      var k := StepOf(steps, id);
    }
    SameMap(read, g);
  }

  lemma SameMap<V>(a: map<StepId, V>, b: map<StepId, V>)
    requires a.Keys == b.Keys && forall id :: id in a ==> a[id] == b[id]
    ensures a == b
  {
  }

  lemma UpdateKeepsKeys<V>(m: map<StepId, V>, id: StepId, v: V)
    requires id in m
    ensures m[id := v].Keys == m.Keys
  {
  }

  lemma AllKnown(steps: seq<Step>)
    requires Distinct(Ids(steps))
    requires forall k :: 0 <= k < |steps| ==> AllIn(steps[k].dependsOn, GraphOf(steps).Keys)
    ensures Closed(GraphOf(steps))
  {
    hide GraphOf, Distinct, Ids, AllIn;
    forall id | id in GraphOf(steps)
      ensures AllIn(GraphOf(steps)[id], GraphOf(steps).Keys)
    {
      var k := StepOf(steps, id);
    }
  }

  lemma UnknownNotClosed(steps: seq<Step>, k: nat, d: StepId)
    requires Distinct(Ids(steps)) && k < |steps| && d in steps[k].dependsOn && d !in GraphOf(steps)
    ensures steps[k].id in GraphOf(steps) && d in GraphOf(steps)[steps[k].id]
    ensures !Closed(GraphOf(steps))
  {
    hide GraphOf, Distinct;
    assert Ids(steps)[k] == steps[k].id;
    assert !AllIn(GraphOf(steps)[steps[k].id], GraphOf(steps).Keys);
  }

  /** The plan of these steps: each once, dependencies first, always the least id that is ready. */
  ghost predicate IsPlan(steps: seq<Step>, plan: seq<Step>) {
    && multiset(plan) == multiset(steps)
    && Orders(GraphOf(steps), Ids(plan)) && Greedy(GraphOf(steps), Ids(plan))
  }

  /** Succeeds exactly when step ids are distinct, all dependencies are known and no step depends on
      itself, directly or not. */
  method PlanRunbook(steps: seq<Step>) returns (r: Plan)
    ensures r.DuplicateStep? ==> FirstRepeated(steps, r.id)
    ensures r.UnknownDependency? ==> FirstUnknown(steps, r.id, r.dependency)
    ensures r.DuplicateStep? <==> !Distinct(Ids(steps))
    ensures r.UnknownDependency? <==> Distinct(Ids(steps)) && !Closed(GraphOf(steps))
    ensures r.DependencyCycle? <==> Distinct(Ids(steps)) && Closed(GraphOf(steps)) && HasCycle(GraphOf(steps))
    ensures r.Planned? ==> IsPlan(steps, r.steps)
  {
    hide GraphOf, Greedy, Distinct, Closed, FirstRepeated, FirstUnknown;
    var byId, duplicate := Index(steps);
    if duplicate != [] {
      return DuplicateStep(duplicate[0]);
    }
    var indegree, dependents, unknown := Count(steps, byId);
    if unknown != [] {
      return UnknownDependency(unknown[0].0, unknown[0].1);
    }
    ghost var g := GraphOf(steps);
    IndexedById(steps, byId);
    var ordered := Emit(g, byId, indegree, dependents);
    if |ordered| != |byId| {
      NotAllTaken(g, Ids(ordered));
      return DependencyCycle;
    }
    AllTaken(steps, byId, ordered);
    OrderedHasNoCycle(g, Ids(ordered));
    return Planned(ordered);
  }

  lemma IndexedById(steps: seq<Step>, byId: map<StepId, Step>)
    requires byId.Keys == GraphOf(steps).Keys && forall i :: 0 <= i < |steps| ==> byId[steps[i].id] == steps[i]
    ensures forall id :: id in byId ==> byId[id].id == id
    ensures |byId| == |GraphOf(steps)|
  {
    forall id | id in byId ensures byId[id].id == id {
      assert id in Ids(steps);
      var k :| 0 <= k < |steps| && steps[k].id == id;
    }
    assert |byId| == |byId.Keys| && |GraphOf(steps)| == |GraphOf(steps).Keys|;
  }

  lemma TakenOnce(g: Graph, done: seq<StepId>)
    requires Greedy(g, done)
    ensures forall x :: x in done ==> x in g
    ensures forall k :: 0 <= k < |done| ==> AllDone(g[done[k]], done[..k])
  {
    forall k | 0 <= k < |done| ensures done[k] in g && AllDone(g[done[k]], done[..k]) {
      assert LeastAvailable(g, done[..k], done[k]);
    }
  }

  lemma NotAllTaken(g: Graph, done: seq<StepId>)
    requires Closed(g) && Distinct(done) && Greedy(g, done) && |done| != |g.Keys|
    requires forall id :: id in g ==> !Available(g, done, id)
    ensures HasCycle(g)
  {
    TakenOnce(g, done);
    var left := set id | id in g && id !in done;
    SomethingLeft(g, done, left);
    forall id | id in left ensures DependsWithin(g, left, id) {
      assert !Available(g, done, id);
    }
    StuckHasCycle(g, left);
  }

  lemma SomethingLeft(g: Graph, done: seq<StepId>, left: set<StepId>)
    requires Distinct(done) && (forall x :: x in done ==> x in g) && |done| != |g.Keys|
    requires forall x :: x in g && x !in done ==> x in left
    ensures left != {}
  {
    DistinctSize(done, g.Keys);
  }

  lemma AllTaken(steps: seq<Step>, byId: map<StepId, Step>, ordered: seq<Step>)
    requires Distinct(Ids(steps)) && byId.Keys == GraphOf(steps).Keys
    requires forall i :: 0 <= i < |steps| ==> byId[steps[i].id] == steps[i]
    requires Distinct(Ids(ordered)) && Greedy(GraphOf(steps), Ids(ordered)) && |ordered| == |byId.Keys|
    requires forall i :: 0 <= i < |ordered| ==> ordered[i].id in byId && ordered[i] == byId[ordered[i].id]
    ensures IsPlan(steps, ordered)
  {
    hide *;
    StepsKnown(steps);
    IdsOfGraph(steps);
    AllInOrder(GraphOf(steps), Ids(ordered));
    OrderedIds(GraphOf(steps), Ids(ordered));
    SameSteps(steps, ordered, byId);
    ItIsPlan(steps, ordered);
  }

  lemma ItIsPlan(steps: seq<Step>, plan: seq<Step>)
    requires multiset(plan) == multiset(steps)
    requires Orders(GraphOf(steps), Ids(plan)) && Greedy(GraphOf(steps), Ids(plan))
    ensures IsPlan(steps, plan)
  {
    hide GraphOf, Ids, Orders, Greedy;
  }

  lemma AllInOrder(g: Graph, order: seq<StepId>)
    requires Distinct(order) && Greedy(g, order) && |order| == |g.Keys|
    ensures Orders(g, order)
  {
    hide Greedy, Distinct;
    TakenOnce(g, order);
    Covers(order, g.Keys);
  }

  lemma OrderedIds(g: Graph, order: seq<StepId>)
    requires Orders(g, order)
    ensures forall id :: id in g <==> id in order
  {
  }

  lemma IdsOfGraph(steps: seq<Step>)
    ensures forall id :: id in GraphOf(steps) <==> id in Ids(steps)
  {
    hide GraphOf;
  }

  /** As many distinct elements as there are: all of them. */
  lemma {:induction false} Covers(s: seq<StepId>, all: set<StepId>)
    requires Distinct(s) && (forall x :: x in s ==> x in all) && |s| == |all|
    ensures forall x :: x in all ==> x in s
  {
    if s != [] {
      var last, rest := s[|s| - 1], s[..|s| - 1];
      assert forall x :: x in s <==> x in rest || x == last;
      Covers(rest, all - {last});
    }
  }

  lemma SameSteps(steps: seq<Step>, ordered: seq<Step>, byId: map<StepId, Step>)
    requires Distinct(Ids(steps)) && Distinct(Ids(ordered))
    requires forall i :: 0 <= i < |steps| ==> steps[i].id in byId && byId[steps[i].id] == steps[i]
    requires forall i :: 0 <= i < |ordered| ==> ordered[i].id in byId && ordered[i] == byId[ordered[i].id]
    requires forall id :: id in byId <==> id in Ids(steps)
    requires forall id :: id in byId <==> id in Ids(ordered)
    ensures multiset(ordered) == multiset(steps)
  {
    forall step ensures multiset(ordered)[step] == multiset(steps)[step] {
      CountDistinct(steps, step);
      CountDistinct(ordered, step);
      if step in steps {
        assert step.id in Ids(steps) && step.id in Ids(ordered);
      }
      if step in ordered {
        assert step.id in Ids(ordered) && step.id in Ids(steps);
      }
    }
  }

  lemma {:induction false} CountDistinct(steps: seq<Step>, step: Step)
    requires Distinct(Ids(steps))
    ensures multiset(steps)[step] == if step in steps then 1 else 0
  {
    if steps != [] {
      var rest := steps[..|steps| - 1];
      assert steps == rest + [steps[|steps| - 1]];
      assert Ids(steps) == Ids(rest) + [steps[|steps| - 1].id];
      CountDistinct(rest, step);
      if step in rest {
        assert step.id in Ids(rest);
      }
    }
  }

  // ----- theorems -----------------------------------------------------------------------

  /** The plan is a topological order, and no topological order of the steps comes before it. */
  lemma PlanIsLeast(steps: seq<Step>, plan: seq<Step>, other: seq<StepId>)
    requires IsPlan(steps, plan) && Orders(GraphOf(steps), other)
    ensures NotAfter(Ids(plan), other)
  {
    GreedyIsLeast(GraphOf(steps), Ids(plan), other);
  }

  /** There is only one first repeated id, and only one first unknown dependency. */
  lemma RepeatDetermined(steps: seq<Step>, i: nat, id: StepId, k: nat, other: StepId)
    requires RepeatsAt(steps, i, id) && RepeatsAt(steps, k, other)
    ensures i == k && id == other
  {
    if i < k {
      RepeatIsNotDistinct(steps, i, k);
    } else if k < i {
      RepeatIsNotDistinct(steps, k, i);
    }
  }

  lemma RepeatIsNotDistinct(steps: seq<Step>, i: nat, k: nat)
    requires i < k <= |steps| && steps[i].id in Ids(steps[..i])
    ensures !Distinct(Ids(steps[..k]))
  {
    var x :| 0 <= x < i && Ids(steps[..i])[x] == steps[i].id;
    assert Ids(steps[..k])[x] == Ids(steps[..k])[i];
  }

  lemma UnknownDetermined(steps: seq<Step>, i: nat, j: nat, k: nat, l: nat)
    requires i < |steps| && j < |steps[i].dependsOn| && UnknownAt(steps, i, j)
    requires k < |steps| && l < |steps[k].dependsOn| && UnknownAt(steps, k, l)
    ensures i == k && j == l
  {
    hide GraphOf, AllIn;
    var deps, known := steps[i].dependsOn, GraphOf(steps).Keys;
    if i == k {
      KnownBefore(deps, known, if j < l then j else l, if j < l then l else j);
    } else {
      KnownBefore(if i < k then deps else steps[k].dependsOn, known, if i < k then j else l,
                  if i < k then |deps| else |steps[k].dependsOn|);
    }
  }

  lemma KnownBefore(ids: seq<StepId>, known: set<StepId>, m: nat, n: nat)
    requires m <= n <= |ids| && (AllIn(ids, known) || AllIn(ids[..n], known))
    ensures m < n ==> ids[m] in known
  {
    if m < n {
      assert ids[m] in ids[..n];
    }
  }

  /** The plan depends on the set of steps only: not on the order in which they, or the
      dependencies of one, are given, nor on repeated dependencies. */
  lemma PlanOfSet(steps: seq<Step>, plan: seq<Step>, others: seq<Step>, otherPlan: seq<Step>)
    requires IsPlan(steps, plan) && IsPlan(others, otherPlan)
    requires SameDependencies(GraphOf(steps), GraphOf(others))
    ensures Ids(plan) == Ids(otherPlan)
    ensures Distinct(Ids(others)) && (forall step :: step in steps ==> step in others) ==> plan == otherPlan
  {
    GreedySameDependencies(GraphOf(steps), GraphOf(others), Ids(plan));
    GreedyUnique(GraphOf(others), Ids(plan), Ids(otherPlan));
    if Distinct(Ids(others)) && forall step :: step in steps ==> step in others {
      SameRecords(steps, plan, others, otherPlan);
    }
  }

  /** Steps that are the same in both requests stand in the same places of both plans. */
  lemma SameRecords(steps: seq<Step>, plan: seq<Step>, others: seq<Step>, otherPlan: seq<Step>)
    requires multiset(plan) == multiset(steps) && multiset(otherPlan) == multiset(others) && Ids(plan) == Ids(otherPlan)
    requires Distinct(Ids(others)) && forall step :: step in steps ==> step in others
    ensures plan == otherPlan
  {
    assert |plan| == |Ids(plan)| == |Ids(otherPlan)| == |otherPlan|;
    forall k | 0 <= k < |plan| ensures plan[k] == otherPlan[k] {
      assert plan[k] in multiset(plan) && otherPlan[k] in multiset(otherPlan);
      assert plan[k] in others && otherPlan[k] in others;
      var i :| 0 <= i < |others| && others[i] == plan[k];
      var j :| 0 <= j < |others| && others[j] == otherPlan[k];
      assert Ids(others)[i] == Ids(plan)[k] == Ids(otherPlan)[k] == Ids(others)[j];
    }
  }
}
