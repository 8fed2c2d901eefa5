/**
  The check of automation parameters: a worklist traversal of the containers a value reaches, which
  may be shared or cyclic.  Containers are known by identity; a name stands for its lower-case form.
 */
module ParameterTree {

  type Id = nat
  type Name = nat

  datatype Value = Scalar | Container(id: Id)

  /** A mapping may have keys that are not strings; they have no name. */
  datatype Key = Named(name: Name) | Unnamed

  datatype Contents = Mapping(keys: seq<Key>, values: seq<Value>) | Listing(items: seq<Value>)

  type Heap = map<Id, Contents>

  datatype Verdict = Accepted | InvalidParameters | SecretParameter

  const MAX_DEPTH: nat := 8
  const MAX_ITEMS: nat := 1024

  predicate WellFormed(heap: Heap) {
    forall id :: id in heap && heap[id].Mapping? ==> |heap[id].keys| == |heap[id].values|
  }

  // ----- specification: the tree that the value unfolds to ---------------------------------

  /** What an unfolding holds: how often each container is reached, how many items there are, and
      whether anything is too deep or carries a forbidden name. */
  datatype Extent = Extent(reached: multiset<Id>, items: nat, tooDeep: bool, secret: bool)

  const NOTHING := Extent(multiset{}, 0, false, false)

  function Plus(a: Extent, b: Extent): Extent {
    Extent(a.reached + b.reached, a.items + b.items, a.tooDeep || b.tooDeep, a.secret || b.secret)
  }

  function Children(contents: Contents): seq<Value> {
    match contents
    case Mapping(_, values) => values
    case Listing(items) => items
  }

  predicate Forbids(keys: seq<Key>, forbidden: set<Name>) {
    exists i :: 0 <= i < |keys| && keys[i].Named? && keys[i].name in forbidden
  }

  /** ... among the first `n` keys. */
  predicate ForbidsWithin(keys: seq<Key>, forbidden: set<Name>, n: nat) {
    exists i :: 0 <= i < |keys| && i < n && keys[i].Named? && keys[i].name in forbidden
  }

  function Own(id: Id, contents: Contents, forbidden: set<Name>): Extent {
    Extent(multiset{id}, |Children(contents)|, false, contents.Mapping? && Forbids(contents.keys, forbidden))
  }

  /** The unfolding of a value at a depth. */
  function Unfold(heap: Heap, forbidden: set<Name>, value: Value, depth: nat): Extent
    decreases MAX_DEPTH + 1 - depth, 0
  {
    if depth > MAX_DEPTH then Extent(multiset{}, 0, true, false)
    else if value.Scalar? || value.id !in heap then NOTHING
    else Plus(Own(value.id, heap[value.id], forbidden), UnfoldAll(heap, forbidden, Children(heap[value.id]), depth + 1))
  }

  function UnfoldAll(heap: Heap, forbidden: set<Name>, values: seq<Value>, depth: nat): Extent
    decreases MAX_DEPTH + 1 - depth, |values| + 1
  {
    if values == [] || depth > MAX_DEPTH + 1 then NOTHING
    else Plus(UnfoldAll(heap, forbidden, values[..|values| - 1], depth), Unfold(heap, forbidden, values[|values| - 1], depth))
  }

  /** No container is reached twice, nothing lies deeper than 8, there are at most 1024 items, and no
      name at any depth is forbidden. */
  ghost predicate Acceptable(heap: Heap, forbidden: set<Name>, value: Value) {
    var extent := Unfold(heap, forbidden, value, 0);
    && (forall id :: extent.reached[id] <= 1)
    && !extent.tooDeep && extent.items <= MAX_ITEMS && !extent.secret
  }

  // ----- the traversal --------------------------------------------------------------------

  function Pending(heap: Heap, forbidden: set<Name>, pending: seq<(Value, nat)>): Extent {
    if pending == [] then NOTHING
    else
      var (value, depth) := pending[|pending| - 1];
      Plus(Pending(heap, forbidden, pending[..|pending| - 1]), Unfold(heap, forbidden, value, depth))
  }

  lemma PendingOneMore(heap: Heap, forbidden: set<Name>, pending: seq<(Value, nat)>, value: Value, depth: nat)
    ensures Pending(heap, forbidden, pending + [(value, depth)])
      == Plus(Pending(heap, forbidden, pending), Unfold(heap, forbidden, value, depth))
  {
    assert (pending + [(value, depth)])[..|pending|] == pending;
  }

  lemma UnfoldOneMore(heap: Heap, forbidden: set<Name>, values: seq<Value>, k: nat, depth: nat)
    requires k < |values| && depth <= MAX_DEPTH + 1
    ensures UnfoldAll(heap, forbidden, values[..k + 1], depth)
      == Plus(UnfoldAll(heap, forbidden, values[..k], depth), Unfold(heap, forbidden, values[k], depth))
  {
    hide Unfold, Plus;
    var more := values[..k + 1];
    assert more[..|more| - 1] == values[..k] && more[|more| - 1] == values[k];
  }

  lemma UnfoldNone(heap: Heap, forbidden: set<Name>, depth: nat)
    ensures UnfoldAll(heap, forbidden, [], depth) == NOTHING
  {
  }

  lemma UnfoldContainer(heap: Heap, forbidden: set<Name>, id: Id, depth: nat)
    requires depth <= MAX_DEPTH && id in heap
    ensures Unfold(heap, forbidden, Container(id), depth)
      == Plus(Own(id, heap[id], forbidden), UnfoldAll(heap, forbidden, Children(heap[id]), depth + 1))
  {
    hide UnfoldAll, Plus, Own;
  }

  lemma PlusFacts(a: Extent, b: Extent, c: Extent)
    ensures Plus(a, NOTHING) == a && Plus(a, b) == Plus(b, a) && Plus(Plus(a, b), c) == Plus(a, Plus(b, c))
  {
  }

  /** Pushes the items of a container; a mapping is left early at a forbidden name. */
  method Push(heap: Heap, forbidden: set<Name>, contents: Contents, depth: nat, pending: seq<(Value, nat)>, count: nat)
    returns (verdict: Verdict, pending': seq<(Value, nat)>, count': nat)
    requires contents.Mapping? ==> |contents.keys| == |contents.values|
    requires depth <= MAX_DEPTH && count <= MAX_ITEMS
    ensures verdict.Accepted? ==>
      (&& count' == count + |Children(contents)| <= MAX_ITEMS && |pending'| == |pending| + |Children(contents)|
       && (contents.Mapping? ==> !Forbids(contents.keys, forbidden))
       && Pending(heap, forbidden, pending')
            == Plus(Pending(heap, forbidden, pending), UnfoldAll(heap, forbidden, Children(contents), depth + 1)))
    ensures verdict.InvalidParameters? ==> count + |Children(contents)| > MAX_ITEMS
    ensures verdict.SecretParameter? ==> contents.Mapping? && Forbids(contents.keys, forbidden)
    ensures verdict.SecretParameter? <==> contents.Mapping? && ForbidsWithin(contents.keys, forbidden, MAX_ITEMS - count)
  {
    hide Unfold, UnfoldAll, Pending, Plus;
    var children := Children(contents);
    UnfoldNone(heap, forbidden, depth + 1);
    PlusFacts(Pending(heap, forbidden, pending), NOTHING, NOTHING);
    pending', count' := pending, count;
    if contents.Listing? {
      count' := count + |children|;
      if count' > MAX_ITEMS {
        return InvalidParameters, pending', count';
      }
    }
    var k := 0;
    assert children[..0] == [];
    while k < |children|
      invariant 0 <= k <= |children| && |pending'| == |pending| + k
      invariant count' == (if contents.Mapping? then count + k else count + |children|)
      invariant count' <= MAX_ITEMS
      invariant contents.Mapping? ==> forall i :: 0 <= i < k ==> contents.keys[i].Named? ==> contents.keys[i].name !in forbidden
      invariant Pending(heap, forbidden, pending')
        == Plus(Pending(heap, forbidden, pending), UnfoldAll(heap, forbidden, children[..k], depth + 1))
    {
      if contents.Mapping? {
        count' := count' + 1;
        if count' > MAX_ITEMS {
          return InvalidParameters, pending', count';
        }
        if contents.keys[k].Named? && contents.keys[k].name in forbidden {
          return SecretParameter, pending', count';
        }
      }
      PendingOneMore(heap, forbidden, pending', children[k], depth + 1);
      UnfoldOneMore(heap, forbidden, children, k, depth + 1);
      PlusFacts(Pending(heap, forbidden, pending), UnfoldAll(heap, forbidden, children[..k], depth + 1),
                Unfold(heap, forbidden, children[k], depth + 1));
      pending' := pending' + [(children[k], depth + 1)];
      k := k + 1;
    }
    assert children[..k] == children;
    verdict := Accepted;
  }

  /** Accepts exactly the acceptable values, of any finite container graph, within 1025 pops. */
  method Validate(heap: Heap, forbidden: set<Name>, value: Value) returns (verdict: Verdict, pops: nat)
    requires WellFormed(heap)
    ensures verdict.Accepted? <==> Acceptable(heap, forbidden, value)
    ensures verdict.SecretParameter? ==> Unfold(heap, forbidden, value, 0).secret
    ensures verdict.InvalidParameters? ==>
      var extent := Unfold(heap, forbidden, value, 0);
      extent.tooDeep || extent.items > MAX_ITEMS || exists id :: extent.reached[id] > 1
    ensures pops <= MAX_ITEMS + 1
  {
    hide Unfold, UnfoldAll, Pending, Children, Acceptable, Forbids, WellFormed;
    ghost var whole := Unfold(heap, forbidden, value, 0);
    var pending: seq<(Value, nat)>, seen: set<Id> := [(value, 0)], {};
    var count: nat := 0;
    pops := 0;
    OnePending(heap, forbidden, value);
    while pending != []
      invariant pops + |pending| == 1 + count && count <= MAX_ITEMS
      invariant whole == Plus(Extent(multiset(seen), count, false, false), Pending(heap, forbidden, pending))
      decreases MAX_ITEMS + 1 - pops
    {
      var current, depth := pending[|pending| - 1].0, pending[|pending| - 1].1;
      var rest := pending[..|pending| - 1];
      PopOne(heap, forbidden, rest, current, depth);
      assert pending == rest + [(current, depth)];
      pending, pops := rest, pops + 1;
      if depth > MAX_DEPTH {
        Rejected(heap, forbidden, value);
        return InvalidParameters, pops;
      }
      if current.Container? && current.id in heap {
        if current.id in seen {
          Twice(seen, current.id);
          assert whole.reached[current.id] > 1;
          Rejected(heap, forbidden, value);
          return InvalidParameters, pops;
        }
        var more: seq<(Value, nat)>, count': nat;
        PairedKeys(heap, current.id);
        verdict, more, count' := Push(heap, forbidden, heap[current.id], depth, rest, count);
        if !verdict.Accepted? {
          Rejected(heap, forbidden, value);
          return;
        }
        SeenMore(seen, current.id);
        seen, pending, count := seen + {current.id}, more, count';
      }
    }
    NonePending(heap, forbidden);
    SeenAtMostOnce(heap, forbidden, value, seen);
    verdict := Accepted;
  }

  lemma PairedKeys(heap: Heap, id: Id)
    requires WellFormed(heap) && id in heap
    ensures heap[id].Mapping? ==> |heap[id].keys| == |heap[id].values|
  {
  }

  lemma Twice(seen: set<Id>, id: Id)
    requires id in seen
    ensures multiset(seen)[id] + multiset{id}[id] == 2
  {
  }

  lemma SeenMore(seen: set<Id>, id: Id)
    requires id !in seen
    ensures multiset(seen + {id}) == multiset(seen) + multiset{id}
  {
  }

  lemma Rejected(heap: Heap, forbidden: set<Name>, value: Value)
    ensures var extent := Unfold(heap, forbidden, value, 0);
      (extent.tooDeep || extent.items > MAX_ITEMS || extent.secret || (exists id :: extent.reached[id] > 1))
      ==> !Acceptable(heap, forbidden, value)
  {
    hide Unfold;
  }

  lemma SeenAtMostOnce(heap: Heap, forbidden: set<Name>, value: Value, seen: set<Id>)
    requires var extent := Unfold(heap, forbidden, value, 0);
      extent.reached == multiset(seen) && extent.items <= MAX_ITEMS && !extent.tooDeep && !extent.secret
    ensures Acceptable(heap, forbidden, value)
  {
    hide Unfold;
  }

  lemma NonePending(heap: Heap, forbidden: set<Name>)
    ensures Pending(heap, forbidden, []) == NOTHING
  {
  }

  lemma OnePending(heap: Heap, forbidden: set<Name>, value: Value)
    ensures Unfold(heap, forbidden, value, 0)
      == Plus(Extent(multiset({}), 0, false, false), Pending(heap, forbidden, [(value, 0)]))
  {
    hide Unfold;
    assert [] + [(value, 0)] == [(value, 0)];
    PendingOneMore(heap, forbidden, [], value, 0);
  }

  /** What the popped value adds: a mark that it is too deep, nothing, or its own extent and that of
      its children. */
  lemma PopOne(heap: Heap, forbidden: set<Name>, rest: seq<(Value, nat)>, current: Value, depth: nat)
    ensures var pending, left := Pending(heap, forbidden, rest + [(current, depth)]), Pending(heap, forbidden, rest);
      if depth > MAX_DEPTH then pending.tooDeep
      else if current.Container? && current.id in heap then
        pending == Plus(left, Plus(Own(current.id, heap[current.id], forbidden),
                                   UnfoldAll(heap, forbidden, Children(heap[current.id]), depth + 1)))
      else pending == left
  {
    PendingOneMore(heap, forbidden, rest, current, depth);
    if depth <= MAX_DEPTH && current.Container? && current.id in heap {
      UnfoldContainer(heap, forbidden, current.id, depth);
    }
    hide UnfoldAll, Pending;
  }

  // ----- cyclic graphs --------------------------------------------------------------------

  /** Every container of the set holds another of it. */
  predicate Endless(heap: Heap, loop: set<Id>) {
    forall id :: id in loop ==> id in heap && HoldsOneOf(heap[id], loop)
  }

  predicate HoldsOneOf(contents: Contents, loop: set<Id>) {
    exists i :: 0 <= i < |Children(contents)| && Children(contents)[i].Container? && Children(contents)[i].id in loop
  }

  lemma {:induction false} TooDeepWithin(heap: Heap, forbidden: set<Name>, values: seq<Value>, i: nat, depth: nat)
    requires i < |values| && depth <= MAX_DEPTH + 1 && Unfold(heap, forbidden, values[i], depth).tooDeep
    ensures UnfoldAll(heap, forbidden, values, depth).tooDeep
  {
    hide Unfold;
    if i < |values| - 1 {
      TooDeepWithin(heap, forbidden, values[..|values| - 1], i, depth);
    }
  }

  lemma Next(heap: Heap, loop: set<Id>, id: Id) returns (i: nat)
    requires Endless(heap, loop) && id in loop
    ensures id in heap && i < |Children(heap[id])|
    ensures Children(heap[id])[i].Container? && Children(heap[id])[i].id in loop
  {
    assert HoldsOneOf(heap[id], loop);
    hide Endless;
    i :| 0 <= i < |Children(heap[id])| && Children(heap[id])[i].Container? && Children(heap[id])[i].id in loop;
  }

  lemma BeyondIsTooDeep(heap: Heap, forbidden: set<Name>, value: Value, depth: nat)
    requires depth > MAX_DEPTH
    ensures Unfold(heap, forbidden, value, depth).tooDeep
  {
  }

  lemma {:induction false} EndlessTooDeep(heap: Heap, forbidden: set<Name>, loop: set<Id>, id: Id, depth: nat)
    requires Endless(heap, loop) && id in loop && depth <= MAX_DEPTH + 1
    ensures Unfold(heap, forbidden, Container(id), depth).tooDeep
    decreases MAX_DEPTH + 1 - depth
  {
    hide Unfold, UnfoldAll, Endless, Children;
    if depth > MAX_DEPTH {
      BeyondIsTooDeep(heap, forbidden, Container(id), depth);
    } else {
      var i := Next(heap, loop, id);
      var children := Children(heap[id]);
      EndlessTooDeep(heap, forbidden, loop, children[i].id, depth + 1);
      assert children[i] == Container(children[i].id);
      TooDeepWithin(heap, forbidden, children, i, depth + 1);
      UnfoldContainer(heap, forbidden, id, depth);
    }
  }

  /** A value from which one can go on for ever, in particular one that contains itself, is never
      acceptable. */
  lemma EndlessRejected(heap: Heap, forbidden: set<Name>, loop: set<Id>, id: Id)
    requires Endless(heap, loop) && id in loop
    ensures !Acceptable(heap, forbidden, Container(id))
  {
    hide Unfold;
    EndlessTooDeep(heap, forbidden, loop, id, 0);
  }
}
