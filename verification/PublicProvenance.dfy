/**
  The public provenance record: the manifest of approved files as text, its order and its summary.
  The digest of the manifest is modelled by the manifest itself.
 */
module PublicProvenance {
  import opened Strings
  import opened Wrappers

  datatype Disposition = Identical | Adapted | Excluded

  datatype Reason = ApprovedByteCopy | HardenedIntegration | ExclusionReason | OtherReason

  datatype File = File(path: string, approved: string, disposition: Disposition, stable: Option<string>, reason: Reason)

  datatype Summary = Summary(total: nat, identical: nat, adapted: nat, excluded: nat)

  datatype Provenance = Provenance(files: seq<File>, manifest: string, summary: Summary)

  // ----- one file -------------------------------------------------------------------------

  predicate IsHex(digest: string) {
    |digest| == 64 && HexDigits(digest)
  }

  predicate SafePath(path: string) {
    path != "" && (forall c :: c in path ==> PathCharacter(c)) && path[0] != '/' && !ClimbsUp(path)
  }

  predicate ValidFile(f: File) {
    && SafePath(f.path) && IsHex(f.approved)
    && match f.disposition
       case Excluded => f.stable.None? && f.reason == ExclusionReason
       case Identical => f.stable == Some(f.approved) && f.reason == ApprovedByteCopy
       case Adapted => f.stable.Some? && IsHex(f.stable.value) && f.stable.value != f.approved && f.reason == HardenedIntegration
  }

  // ----- the manifest ---------------------------------------------------------------------

  function Line(f: File): string {
    f.approved + "  " + f.path + "\n"
  }

  function Manifest(files: seq<File>): string {
    if files == [] then "" else Line(files[0]) + Manifest(files[1..])
  }

  /** What the manifest is about. */
  function Bindings(files: seq<File>): (r: seq<(string, string)>)
    ensures |r| == |files| && forall i :: 0 <= i < |files| ==> r[i] == (files[i].approved, files[i].path)
  {
    seq(|files|, i requires 0 <= i < |files| => (files[i].approved, files[i].path))
  }

  predicate OneLine(s: string) {
    forall i :: 0 <= i < |s| ==> s[i] != '\n'
  }

  lemma SplitLine(a: string, b: string, x: string, y: string)
    requires OneLine(a) && OneLine(b) && a + "\n" + x == b + "\n" + y
    ensures a == b && x == y
  {
    var s := a + "\n" + x;
    assert s[|a|] == '\n' && s[|b|] == '\n';
    assert forall i :: 0 <= i < |a| ==> s[i] == a[i];
    assert forall i :: 0 <= i < |b| ==> s[i] == b[i];
    assert |a| == |b|;
    assert a == s[..|a|] && b == s[..|b|];
    assert x == s[|a| + 1..] && y == s[|b| + 1..];
  }

  lemma SplitFirst(f: File, g: File, x: string, y: string)
    requires ValidFile(f) && ValidFile(g) && Line(f) + x == Line(g) + y
    ensures f.approved == g.approved && f.path == g.path && x == y
  {
    var s := Line(f) + x;
    assert f.approved == s[..64] && g.approved == s[..64];
    assert s[66..] == f.path + "\n" + x && s[66..] == g.path + "\n" + y;
    SafeIsOneLine(f.path);
    SafeIsOneLine(g.path);
    SplitLine(f.path, g.path, x, y);
  }

  lemma SafeIsOneLine(path: string)
    requires SafePath(path)
    ensures OneLine(path)
  {
    forall i | 0 <= i < |path| ensures path[i] != '\n' {
      assert path[i] in path;
    }
  }

  /** The manifest text determines the sequence of digests and paths. */
  lemma {:induction false} ManifestInjective(a: seq<File>, b: seq<File>)
    requires (forall f :: f in a ==> ValidFile(f)) && (forall f :: f in b ==> ValidFile(f))
    requires Manifest(a) == Manifest(b)
    ensures Bindings(a) == Bindings(b)
  {
    hide ValidFile;
    if a != [] && b != [] {
      assert a[0] in a && b[0] in b;
      SplitFirst(a[0], b[0], Manifest(a[1..]), Manifest(b[1..]));
      ManifestInjective(a[1..], b[1..]);
      assert Bindings(a) == [(a[0].approved, a[0].path)] + Bindings(a[1..]);
      assert Bindings(b) == [(b[0].approved, b[0].path)] + Bindings(b[1..]);
    }
  }

  // ----- the order of paths ---------------------------------------------------------------

  /** A path among sorted, distinct ones. */
  function Insert(p: string, paths: seq<string>): seq<string> {
    if paths == [] || Less(p, paths[0]) then [p] + paths
    else if p == paths[0] then paths
    else [paths[0]] + Insert(p, paths[1..])
  }

  /** The paths sorted, without repetition. */
  function SortedSet(paths: seq<string>): seq<string> {
    if paths == [] then [] else Insert(paths[0], SortedSet(paths[1..]))
  }

  predicate Increasing(paths: seq<string>) {
    forall i :: 0 <= i < |paths| - 1 ==> Less(paths[i], paths[i + 1])
  }

  lemma {:induction false} InsertIncreasing(p: string, paths: seq<string>)
    requires Increasing(paths)
    ensures Increasing(Insert(p, paths))
    ensures Insert(p, paths) != [] && (Insert(p, paths)[0] == p || (paths != [] && Insert(p, paths)[0] == paths[0]))
  {
    if paths != [] && !Less(p, paths[0]) && p != paths[0] {
      LessOrdered(p, paths[0], "");
      InsertIncreasing(p, paths[1..]);
    }
  }

  lemma {:induction false} SortedSetIncreasing(paths: seq<string>)
    ensures Increasing(SortedSet(paths))
  {
    if paths != [] {
      SortedSetIncreasing(paths[1..]);
      InsertIncreasing(paths[0], SortedSet(paths[1..]));
    }
  }

  lemma {:induction false} InsertMembers(p: string, paths: seq<string>, x: string)
    ensures x in Insert(p, paths) <==> x == p || x in paths
  {
    if paths != [] && !Less(p, paths[0]) && p != paths[0] {
      InsertMembers(p, paths[1..], x);
      assert paths == [paths[0]] + paths[1..];
    }
  }

  /** Sorting keeps exactly the given paths, so it is the sorted list of their set. */
  lemma {:induction false} SortedSetMembers(paths: seq<string>, x: string)
    ensures x in SortedSet(paths) <==> x in paths
  {
    if paths != [] {
      SortedSetMembers(paths[1..], x);
      InsertMembers(paths[0], SortedSet(paths[1..]), x);
      assert paths == [paths[0]] + paths[1..];
    }
  }

  /** The order check accepts exactly the strictly increasing lists. */
  lemma {:induction false} InOrderIffIncreasing(paths: seq<string>)
    ensures paths == SortedSet(paths) <==> Increasing(paths)
  {
    SortedSetIncreasing(paths);
    if Increasing(paths) && paths != [] {
      InOrderIffIncreasing(paths[1..]);
    }
  }

  // ----- the export -----------------------------------------------------------------------

  function Paths(files: seq<File>): (r: seq<string>)
    ensures |r| == |files| && forall i :: 0 <= i < |files| ==> r[i] == files[i].path
  {
    seq(|files|, i requires 0 <= i < |files| => files[i].path)
  }

  function Count(files: seq<File>, disposition: Disposition): nat {
    if files == [] then 0 else Count(files[1..], disposition) + if files[0].disposition == disposition then 1 else 0
  }

  function SummaryOf(files: seq<File>): Summary {
    Summary(|files|, Count(files, Identical), Count(files, Adapted), Count(files, Excluded))
  }

  /** The checks of the export. */
  predicate Accepted(p: Provenance) {
    && p.files != [] && (forall f :: f in p.files ==> ValidFile(f))
    && Paths(p.files) == SortedSet(Paths(p.files))
    && p.manifest == Manifest(p.files)
    && p.summary == SummaryOf(p.files)
  }

  lemma {:induction false} CountsSum(files: seq<File>)
    ensures Count(files, Identical) + Count(files, Adapted) + Count(files, Excluded) == |files|
  {
    if files != [] {
      CountsSum(files[1..]);
    }
  }

  /** Accepted records list distinct paths in order, their counts add up, and two of them with the
      same manifest digest approve the same content under the same paths. */
  lemma AcceptedMeans(p: Provenance, q: Provenance)
    requires Accepted(p) && Accepted(q)
    ensures Increasing(Paths(p.files))
    ensures p.summary.identical + p.summary.adapted + p.summary.excluded == p.summary.total == |p.files|
    ensures p.manifest == q.manifest ==> Bindings(p.files) == Bindings(q.files)
  {
    InOrderIffIncreasing(Paths(p.files));
    CountsSum(p.files);
    hide ValidFile, Manifest, SortedSet;
    if p.manifest == q.manifest {
      ManifestInjective(p.files, q.files);
    }
  }

  function Dispositions(files: seq<File>): (r: seq<Disposition>)
    ensures |r| == |files| && forall i :: 0 <= i < |files| ==> r[i] == files[i].disposition
  {
    seq(|files|, i requires 0 <= i < |files| => files[i].disposition)
  }

  lemma {:induction false} CountMeans(files: seq<File>, disposition: Disposition)
    ensures Count(files, disposition) == multiset(Dispositions(files))[disposition]
  {
    if files != [] {
      CountMeans(files[1..], disposition);
      assert Dispositions(files) == [files[0].disposition] + Dispositions(files[1..]);
    }
  }

  /** Which records are accepted: valid files under strictly increasing paths, with the manifest and the
      counts that belong to them. */
  lemma AcceptedIff(p: Provenance)
    ensures Accepted(p) <==>
      && p.files != [] && (forall f :: f in p.files ==> ValidFile(f)) && Increasing(Paths(p.files))
      && p.manifest == Manifest(p.files) && p.summary.total == |p.files|
      && var counts := multiset(Dispositions(p.files));
         p.summary.identical == counts[Identical] && p.summary.adapted == counts[Adapted] && p.summary.excluded == counts[Excluded]
  {
    InOrderIffIncreasing(Paths(p.files));
    CountMeans(p.files, Identical);
    CountMeans(p.files, Adapted);
    CountMeans(p.files, Excluded);
    hide ValidFile, Manifest, SortedSet, Increasing, Count, Dispositions;
  }
}
