/**
  The audit trail as a hash chain.  The keyed hash of canonical material is taken to be injective
  and never the all-zero value the chain begins with, so a tag is modelled by what it is taken of.
 */
module AuditChain {

  type Key = nat

  /** Event id, time, actor, action, target, outcome, correlation id and parsed details. */
  datatype Entry = Entry(eventId: nat, occurredAt: int, actor: nat, action: nat, target: nat, outcome: nat, correlation: nat, details: nat)

  datatype Tag = Genesis | Mac(key: Key, entry: Entry, previous: Tag)

  /** `hash` is what the row stores; it need not be a tag of the row. */
  datatype Row = Row(number: nat, entry: Entry, previous: Tag, hash: Tag)

  datatype Check = Head(tag: Tag) | Discontinuity(number: nat) | SignatureMismatch(number: nat)

  // ----- specification --------------------------------------------------------------------

  predicate Linked(key: Key, previous: Tag, row: Row) {
    row.previous == previous && row.hash == Mac(key, row.entry, row.previous)
  }

  function LastTag(rows: seq<Row>): Tag {
    if rows == [] then Genesis else rows[|rows| - 1].hash
  }

  /** Every row names the tag of the one before it and carries its own. */
  predicate Intact(key: Key, rows: seq<Row>) {
    forall i :: 0 <= i < |rows| ==> Linked(key, LastTag(rows[..i]), rows[i])
  }

  // ----- the checks -----------------------------------------------------------------------

  /** Walks the rows in order and returns the head, or what is wrong with the first bad row. */
  method VerifyRows(key: Key, rows: seq<Row>) returns (r: Check)
    ensures r.Head? <==> Intact(key, rows)
    ensures r.Head? ==> r.tag == LastTag(rows)
    ensures !r.Head? ==>
      exists i :: 0 <= i < |rows| && Intact(key, rows[..i]) && r.number == rows[i].number
        && (r.Discontinuity? <==> rows[i].previous != LastTag(rows[..i]))
        && (r.SignatureMismatch? ==> rows[i].hash != Mac(key, rows[i].entry, rows[i].previous))
  {
    var previous := Genesis;
    var i := 0;
    while i < |rows|
      invariant 0 <= i <= |rows| && previous == LastTag(rows[..i])
      invariant forall k :: 0 <= k < i ==> Linked(key, LastTag(rows[..k]), rows[k])
    {
      var row := rows[i];
      IntactSoFar(key, rows, i);
      if row.previous != previous {
        return Discontinuity(row.number);
      }
      var expected := Mac(key, row.entry, row.previous);
      if expected != row.hash {
        return SignatureMismatch(row.number);
      }
      previous := row.hash;
      i := i + 1;
    }
    r := Head(previous);
    assert rows[..i] == rows;
  }

  lemma IntactSoFar(key: Key, rows: seq<Row>, n: nat)
    requires n <= |rows| && forall k :: 0 <= k < n ==> Linked(key, LastTag(rows[..k]), rows[k])
    ensures Intact(key, rows[..n])
  {
    forall k | 0 <= k < n ensures Linked(key, LastTag(rows[..n][..k]), rows[..n][k]) {
      assert rows[..n][..k] == rows[..k];
    }
  }

  class AuditTrail {
    const key: Key
    var rows: seq<Row>

    predicate Valid()
      reads this
    {
      Intact(key, rows)
    }

    constructor (key: Key)
      ensures Valid() && rows == [] && this.key == key
    {
      this.key, rows := key, [];
    }

    /** Appends an event; the chain stays intact and its new head stands for the whole history. */
    method Audit(entry: Entry)
      requires Valid()
      modifies this`rows
      ensures Valid()
      ensures |rows| == |old(rows)| + 1 && rows[..|old(rows)|] == old(rows) && rows[|old(rows)|].entry == entry
      ensures rows[|old(rows)|].number == |old(rows)| + 1
      ensures LastTag(rows) == Mac(key, entry, LastTag(old(rows)))
    {
      var previous := LastTag(rows);
      var row := Row(|rows| + 1, entry, previous, Mac(key, entry, previous));
      rows := rows + [row];
      forall i | 0 <= i < |rows| ensures Linked(key, LastTag(rows[..i]), rows[i]) {
        assert rows[..i] == old(rows)[..i];
      }
      assert rows[..|old(rows)|] == old(rows) && rows[|old(rows)|] == row;
    }
  }

  // ----- theorems -----------------------------------------------------------------------

  /** Every prefix of an accepted list is accepted. */
  lemma PrefixIntact(key: Key, rows: seq<Row>, n: nat)
    requires Intact(key, rows) && n <= |rows|
    ensures Intact(key, rows[..n])
  {
    IntactSoFar(key, rows, n);
  }

  predicate SameButNumbers(a: seq<Row>, b: seq<Row>) {
    |a| == |b| && forall i :: 0 <= i < |a| ==> a[i].(number := 0) == b[i].(number := 0)
  }

  /** Two lists that are accepted under one key with the same head are the same up to row numbers:
      no row can be changed, dropped, added or moved without changing the head. */
  lemma {:induction false} HeadDeterminesRows(key: Key, a: seq<Row>, b: seq<Row>)
    requires Intact(key, a) && Intact(key, b) && LastTag(a) == LastTag(b)
    ensures SameButNumbers(a, b)
  {
    hide *;
    LastLinked(key, a);
    LastLinked(key, b);
    if a != [] && b != [] {
      HeadDeterminesRows(key, a[..|a| - 1], b[..|b| - 1]);
      SameWithLast(a, b);
    } else {
      NoRows(a, b);
    }
  }

  /** The head of an intact list says what the last row holds and what the head before it was. */
  lemma LastLinked(key: Key, rows: seq<Row>)
    requires Intact(key, rows)
    ensures rows == [] ==> LastTag(rows) == Genesis
    ensures rows != [] ==>
      var rest, last := rows[..|rows| - 1], rows[|rows| - 1];
      && Intact(key, rest) && last.previous == LastTag(rest) && last.hash == LastTag(rows)
      && LastTag(rows) == Mac(key, last.entry, LastTag(rest))
  {
    if rows != [] {
      assert Linked(key, LastTag(rows[..|rows| - 1]), rows[|rows| - 1]);
      PrefixIntact(key, rows, |rows| - 1);
    }
  }

  lemma SameWithLast(a: seq<Row>, b: seq<Row>)
    requires a != [] && b != [] && SameButNumbers(a[..|a| - 1], b[..|b| - 1])
    requires a[|a| - 1].(number := 0) == b[|b| - 1].(number := 0)
    ensures SameButNumbers(a, b)
  {
    var x, y := a[..|a| - 1], b[..|b| - 1];
    forall i | 0 <= i < |a| ensures a[i].(number := 0) == b[i].(number := 0) {
      if i < |x| {
        assert a[i] == x[i] && b[i] == y[i];
      }
    }
  }

  lemma NoRows(a: seq<Row>, b: seq<Row>)
    requires a == [] && b == []
    ensures SameButNumbers(a, b)
  {
  }
}
