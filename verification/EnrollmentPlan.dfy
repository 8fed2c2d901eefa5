/**
  The plan of an enrollment execution as a document: it is built from a confirmed selection and the
  current Household, stored as JSON, read back, and compared with a fresh plan before every use.
  The digest in a plan's id is a parameter, `digest`, of everything that takes or checks one.
 */
module EnrollmentPlan {
  import Sorting
  import opened Strings
  import opened Wrappers

  const MAX_CREDENTIAL_REFERENCES: nat := 16
  const MIN_TIMEOUT_SECONDS: int := 30
  const MAX_TIMEOUT_SECONDS: int := 1800
  const PLAN_SCHEMA := "home-center.device-management-enrollment-execution-plan.v1"
  const SECRET := "secret://"

  // ----- documents ------------------------------------------------------------------------

  /** The field names that some check knows, and all others. */
  datatype Name =
    | Schema | PlanId | SelectionProposalId | EnrollmentProposalId | HouseholdId | SnapshotId | ResourceVersion
    | Generation | ActorMemberId | DeviceId | MemberId | CatalogId | ProviderId | EnrollmentMode
    | CredentialReferences | TimeoutSeconds | OneTimeArtifact
    | ConfirmationRequired | DurableJobRequired | AuditRequired
    | ProviderExecutionAuthorized | CredentialValueAccessAuthorized | PolicyApplicationAuthorized
    | ManagedStateChangeAuthorized | InfrastructureMutationAuthorized | ExternalPublicationAuthorized
    | NameOfReference | Reference
    | OtherName(text: string)

  datatype Json =
    | Null
    | Flag(value: bool)
    | Number(number: int)
    | Text(text: string)
    | List(items: seq<Json>)
    | Object(fields: map<Name, Json>)

  /** The value of a field, `Null` when it is missing. */
  function Get(fields: map<Name, Json>, name: Name): Json {
    if name in fields then fields[name] else Null
  }

  datatype Rejection =
    | PlanRejected | ReceiptInvalid | PlanStale | ProviderNotAvailable | ModeNotSupported
    | InvalidProviderId | InvalidMode | InvalidTimeout | InvalidArtifact
    | InvalidReferences | InvalidReference | InvalidReferenceName

  datatype Verdict<+T> = Accepted(value: T) | Rejected(code: Rejection) {

    predicate IsFailure() {
      Rejected?
    }

    function PropagateFailure<U>(): Verdict<U>
      requires Rejected?
    {
      Rejected(code)
    }

    function Extract(): T
      requires Accepted?
    {
      value
    }
  }

  // ----- forms ----------------------------------------------------------------------------

  predicate IsIdentifier(s: string) {
    && 2 <= |s| <= 128 && 'a' <= s[0] <= 'z'
    && forall i :: 1 <= i < |s| ==>
         'a' <= s[i] <= 'z' || '0' <= s[i] <= '9' || s[i] == '_' || s[i] == '.' || s[i] == ':' || s[i] == '-'
  }

  predicate IsDigestId(s: string, prefix: string) {
    |s| == |prefix| + 24 && s[..|prefix|] == prefix && HexDigits(s[|prefix|..])
  }

  predicate IsSecretReference(s: string) {
    && |s| >= |SECRET| && s[..|SECRET|] == SECRET
    && var path := s[|SECRET|..];
       && 1 <= |path| <= 240 && Alphanumeric(path[0]) && (forall c :: c in path ==> PathCharacter(c))
       && !ClimbsUp(path)
  }

  predicate IsArtifact(s: string) {
    s == "none" || s == "token" || s == "qr"
  }

  predicate NonEmpty(j: Json) {
    j.Text? && j.text != ""
  }

  function ReadIdentifier(j: Json, code: Rejection): (r: Verdict<string>)
    ensures r.Accepted? <==> j.Text? && IsIdentifier(j.text)
    ensures r.Accepted? ==> Text(r.value) == j
    ensures r.Rejected? ==> r.code == code
  {
    if j.Text? && IsIdentifier(j.text) then Accepted(j.text) else Rejected(code)
  }

  // ----- credential references ------------------------------------------------------------

  datatype Credential = Credential(name: string, reference: string)

  predicate ValidCredential(c: Credential) {
    IsIdentifier(c.name) && IsSecretReference(c.reference)
  }

  function PrintCredential(c: Credential): Json {
    Object(map[NameOfReference := Text(c.name), Reference := Text(c.reference)])
  }

  function PrintCredentials(cs: seq<Credential>): (r: seq<Json>)
    ensures |r| == |cs| && forall i :: 0 <= i < |cs| ==> r[i] == PrintCredential(cs[i])
  {
    seq(|cs|, i requires 0 <= i < |cs| => PrintCredential(cs[i]))
  }

  /** Whether a document is the printed form of a valid credential reference, and of which. */
  predicate Readable(raw: Json) {
    && raw.Object? && raw.fields.Keys == {NameOfReference, Reference}
    && raw.fields[NameOfReference].Text? && raw.fields[Reference].Text?
    && ValidCredential(Credential(raw.fields[NameOfReference].text, raw.fields[Reference].text))
  }

  function Read(raw: Json): (r: Credential)
    requires Readable(raw)
    ensures ValidCredential(r) && PrintCredential(r) == raw
  {
    var r := Credential(raw.fields[NameOfReference].text, raw.fields[Reference].text);
    assert PrintCredential(r).fields == raw.fields;
    r
  }

  lemma PrintedReadable(c: Credential)
    requires ValidCredential(c)
    ensures Readable(PrintCredential(c)) && Read(PrintCredential(c)) == c
  {
  }

  function ReadAll(items: seq<Json>): (r: seq<Credential>)
    requires forall raw :: raw in items ==> Readable(raw)
    ensures |r| == |items| && forall i :: 0 <= i < |items| ==> r[i] == Read(items[i])
  {
    seq(|items|, i requires 0 <= i < |items| => Read(items[i]))
  }

  predicate DistinctNames(cs: seq<Credential>) {
    forall i, k :: 0 <= i < k < |cs| ==> cs[i].name != cs[k].name
  }

  predicate Acceptable(items: seq<Json>) {
    && |items| <= MAX_CREDENTIAL_REFERENCES
    && (forall raw :: raw in items ==> Readable(raw))
    && DistinctNames(ReadAll(items))
  }

  /** What is wrong with an item, given the names of those before it. */
  function ItemProblem(raw: Json, seen: set<string>): (r: Option<Rejection>)
    ensures r.None? <==> Readable(raw) && Read(raw).name !in seen
  {
    if !raw.Object? || raw.fields.Keys != {NameOfReference, Reference} then Some(InvalidReference)
    else
      var name := ReadIdentifier(raw.fields[NameOfReference], InvalidReferenceName);
      if name.Rejected? then Some(name.code)
      else if name.value in seen || !raw.fields[Reference].Text? || !IsSecretReference(raw.fields[Reference].text) then
        Some(InvalidReference)
      else None
  }

  predicate ByName(a: Credential, b: Credential) {
    Less(a.name, b.name)
  }

  function Sorted(cs: seq<Credential>): (r: seq<Credential>)
    ensures multiset(r) == multiset(cs)
  {
    Sorting.Sorted(ByName, cs)
  }

  predicate Ascending(cs: seq<Credential>) {
    forall i, k :: 0 <= i < k < |cs| ==> Less(cs[i].name, cs[k].name)
  }

  /** The form in which a plan keeps its references. */
  predicate Normal(cs: seq<Credential>) {
    |cs| <= MAX_CREDENTIAL_REFERENCES && (forall c :: c in cs ==> ValidCredential(c)) && Ascending(cs)
  }

  function References(j: Json): Verdict<seq<Credential>> {
    if !j.List? || |j.items| > MAX_CREDENTIAL_REFERENCES then Rejected(InvalidReferences)
    else
      var problem := FirstProblem(j.items);
      if problem.Some? then Rejected(problem.value)
      else
        FirstProblemAcceptable(j.items);
        Accepted(Sorted(ReadAll(j.items)))
  }

  /** The names of the readable items. */
  function NamesOf(items: seq<Json>): set<string> {
    set raw | raw in items && Readable(raw) :: Read(raw).name
  }

  /** The problem of the first item that has one. */
  function FirstProblem(items: seq<Json>): Option<Rejection> {
    if items == [] then None
    else
      var last := |items| - 1;
      var earlier := FirstProblem(items[..last]);
      if earlier.Some? then earlier else ItemProblem(items[last], NamesOf(items[..last]))
  }

  lemma {:induction false} FirstProblemAcceptable(items: seq<Json>)
    ensures FirstProblem(items).None? <==> (forall raw :: raw in items ==> Readable(raw)) && DistinctNames(ReadAll(items))
  {
    hide Readable, ItemProblem, NamesOf, DistinctNames, NameSet;
    if items == [] {
      NoneDistinct();
    } else {
      var last := |items| - 1;
      var front := items[..last];
      FirstProblemAcceptable(front);
      assert items == front + [items[last]];
      if forall raw :: raw in items ==> Readable(raw) {
        assert ReadAll(items) == ReadAll(front) + [Read(items[last])];
        DistinctSnoc(ReadAll(front), Read(items[last]));
        NamesRead(front);
      }
    }
  }

  lemma NoneDistinct()
    ensures DistinctNames([])
  {
  }

  lemma {:induction false} NamesRead(items: seq<Json>)
    requires forall raw :: raw in items ==> Readable(raw)
    ensures NamesOf(items) == NameSet(ReadAll(items))
  {
    hide Readable, NamesOf, NameSet, DistinctNames;
    if items == [] {
      NoNames();
    } else {
      var last := |items| - 1;
      NamesRead(items[..last]);
      NamesGrow(items, last);
      assert items[..last + 1] == items;
      assert ReadAll(items) == ReadAll(items[..last]) + [Read(items[last])];
      DistinctSnoc(ReadAll(items[..last]), Read(items[last]));
    }
  }

  function NameSet(cs: seq<Credential>): set<string> {
    set c | c in cs :: c.name
  }

  lemma DistinctSnoc(cs: seq<Credential>, c: Credential)
    ensures DistinctNames(cs + [c]) <==> DistinctNames(cs) && c.name !in NameSet(cs)
    ensures NameSet(cs + [c]) == NameSet(cs) + {c.name}
  {
    var all := cs + [c];
    if DistinctNames(all) {
      forall i, k | 0 <= i < k < |cs| ensures cs[i].name != cs[k].name {
        assert all[i].name != all[k].name;
      }
      forall x | x in cs ensures x.name != c.name {
        var i :| 0 <= i < |cs| && cs[i] == x;
        assert all[i].name != all[|cs|].name;
      }
    }
    if DistinctNames(cs) && c.name !in NameSet(cs) {
      forall i, k | 0 <= i < k < |all| ensures all[i].name != all[k].name {
        assert cs[i] in cs;
      }
    }
  }

  /** A problem found early is the problem of the whole. */
  lemma {:induction false} FirstProblemStays(items: seq<Json>, k: nat)
    requires k <= |items| && FirstProblem(items[..k]).Some?
    ensures FirstProblem(items) == FirstProblem(items[..k])
  {
    if k == |items| {
      assert items[..k] == items;
    } else {
      var front := items[..|items| - 1];
      assert front[..k] == items[..k];
      FirstProblemStays(front, k);
    }
  }

  lemma NamesGrow(items: seq<Json>, k: nat)
    requires k < |items| && Readable(items[k])
    ensures items[..k + 1][..k] == items[..k] && items[..k + 1][k] == items[k]
    ensures NamesOf(items[..k + 1]) == NamesOf(items[..k]) + {Read(items[k]).name}
  {
    hide Readable;
    assert items[..k + 1] == items[..k] + [items[k]];
  }

  lemma ProblemSoFar(items: seq<Json>, k: nat)
    requires k < |items|
    ensures FirstProblem(items[..k + 1])
      == if FirstProblem(items[..k]).Some? then FirstProblem(items[..k]) else ItemProblem(items[k], NamesOf(items[..k]))
  {
    hide ItemProblem, NamesOf;
    assert items[..k + 1][..k] == items[..k];
  }

  method NormalizeCredentialReferences(j: Json) returns (r: Verdict<seq<Credential>>)
    ensures r == References(j)
  {
    hide Readable, ItemProblem, NamesOf, DistinctNames, FirstProblem, Sorted;
    if !j.List? || |j.items| > MAX_CREDENTIAL_REFERENCES {
      return Rejected(InvalidReferences);
    }
    var normalized: seq<Credential> := [];
    var seen: set<string> := {};
    assert NamesOf(j.items[..0]) == {} && FirstProblem(j.items[..0]).None? by {
      NoNames();
      NoProblem();
    }
    for i := 0 to |j.items|
      invariant FirstProblem(j.items[..i]).None?
      invariant forall raw :: raw in j.items[..i] ==> Readable(raw)
      invariant normalized == ReadAll(j.items[..i]) && seen == NamesOf(j.items[..i])
    {
      var problem := ItemProblem(j.items[i], seen);
      ProblemSoFar(j.items, i);
      var next := j.items[..i + 1];
      assert next[..i] == j.items[..i] && next[i] == j.items[i];
      if problem.Some? {
        FirstProblemStays(j.items, i + 1);
        return Rejected(problem.value);
      }
      NamesGrow(j.items, i);
      seen := seen + {Read(j.items[i]).name};
      normalized := normalized + [Read(j.items[i])];
    }
    assert j.items[..|j.items|] == j.items;
    r := Accepted(Sorted(normalized));
  }

  lemma NoProblem()
    ensures FirstProblem([]).None?
  {
  }

  lemma NoNames()
    ensures NamesOf([]) == {} == NameSet([])
  {
  }

  // ----- what normalization achieves ------------------------------------------------------

  lemma NamesOrder()
    ensures Sorting.Orders(ByName)
  {
    forall x: Credential, y: Credential ensures ByName(x, y) ==> !ByName(y, x) {
      LessOrdered(x.name, y.name, x.name);
    }
    forall x: Credential, y: Credential, z: Credential ensures !ByName(y, x) && !ByName(z, y) ==> !ByName(z, x) {
      LessOrdered(z.name, x.name, y.name);
      LessOrdered(x.name, y.name, z.name);
      LessOrdered(y.name, z.name, x.name);
    }
  }

  lemma SortedAscending(cs: seq<Credential>)
    requires DistinctNames(cs)
    ensures Ascending(Sorted(cs))
  {
    NamesOrder();
    Sorting.SortedAscending(ByName, cs);
    SameNames(Sorted(cs), cs);
    DistinctIffCounted(cs);
    DistinctIffCounted(Sorted(cs));
    var s := Sorted(cs);
    assert |s| == |multiset(s)| == |cs|;
    hide Sorted;
    forall i, k | 0 <= i < k < |s| ensures Less(s[i].name, s[k].name) {
      assert !ByName(s[k], s[i]);
      LessOrdered(s[i].name, s[k].name, "");
    }
  }

  /** Strictly ascending names are in order and tell references apart. */
  lemma AscendingOrdered(cs: seq<Credential>)
    requires Ascending(cs)
    ensures Sorting.Ascending(ByName, cs) && Sorting.Distinguishes(ByName, cs)
  {
    forall i, k | 0 <= i < k < |cs| ensures !ByName(cs[k], cs[i]) {
      LessOrdered(cs[i].name, cs[k].name, cs[i].name);
    }
    forall x, y | x in cs && y in cs && !ByName(x, y) && !ByName(y, x) ensures x == y {
      var i :| 0 <= i < |cs| && cs[i] == x;
      var k :| 0 <= k < |cs| && cs[k] == y;
      assert i < k ==> ByName(x, y);
      assert k < i ==> ByName(y, x);
    }
  }

  lemma SortedStable(cs: seq<Credential>)
    requires Ascending(cs)
    ensures Sorted(cs) == cs
  {
    NamesOrder();
    AscendingOrdered(cs);
    Sorting.SortedStable(ByName, cs);
  }

  /** Lists in ascending order with the same members are equal. */
  lemma AscendingUnique(a: seq<Credential>, b: seq<Credential>)
    requires Ascending(a) && Ascending(b) && multiset(a) == multiset(b)
    ensures a == b
  {
    NamesOrder();
    AscendingOrdered(a);
    AscendingOrdered(b);
    Sorting.AscendingUnique(ByName, a, b);
  }

  lemma AscendingDistinct(cs: seq<Credential>)
    requires Ascending(cs)
    ensures DistinctNames(cs)
  {
    forall i, k | 0 <= i < k < |cs| ensures cs[i].name != cs[k].name {
      LessOrdered(cs[i].name, cs[k].name, "");
    }
  }

  /** A document is accepted exactly when it lists at most sixteen valid references with distinct
      names; what it is read as holds exactly these, in normal form. */
  lemma ReferencesNormal(j: Json)
    ensures References(j).Accepted? <==> j.List? && Acceptable(j.items)
    ensures References(j).Accepted? ==>
      Normal(References(j).value) && multiset(References(j).value) == multiset(ReadAll(j.items))
  {
    hide Readable, ValidCredential, Ascending, DistinctNames, FirstProblem;
    if j.List? {
      FirstProblemAcceptable(j.items);
      if Acceptable(j.items) {
        SortedNormal(j.items);
      }
    }
  }

  lemma SortedNormal(items: seq<Json>)
    requires Acceptable(items)
    ensures Normal(Sorted(ReadAll(items)))
  {
    hide Readable, ValidCredential, Ascending, DistinctNames, Sorted;
    var cs := ReadAll(items);
    SortedAscending(cs);
    forall c | c in Sorted(cs) ensures ValidCredential(c) {
      assert c in multiset(Sorted(cs));
      assert c in cs;
    }
    assert |Sorted(cs)| == |multiset(Sorted(cs))| == |cs|;
  }

  /** Normal references are read back as themselves, so normalization is idempotent. */
  lemma NormalizeIdempotent(cs: seq<Credential>)
    requires Normal(cs)
    ensures References(List(PrintCredentials(cs))) == Accepted(cs)
  {
    hide Readable, ValidCredential, Ascending, DistinctNames;
    var items := PrintCredentials(cs);
    forall raw | raw in items ensures Readable(raw) {
      var i :| 0 <= i < |items| && items[i] == raw;
      assert cs[i] in cs;
      PrintedReadable(cs[i]);
    }
    forall i | 0 <= i < |cs| ensures Read(items[i]) == cs[i] {
      assert cs[i] in cs;
      PrintedReadable(cs[i]);
    }
    assert ReadAll(items) == cs;
    AscendingDistinct(cs);
    FirstProblemAcceptable(items);
    SortedStable(cs);
  }

  // ----- the order of references ----------------------------------------------------------

  /** Names are distinct exactly when there are as many as references. */
  lemma {:induction false} DistinctIffCounted(cs: seq<Credential>)
    ensures |NameSet(cs)| <= |cs|
    ensures DistinctNames(cs) <==> |NameSet(cs)| == |cs|
  {
    hide DistinctNames;
    if cs == [] {
      assert NameSet(cs) == {};
      NoneDistinct();
    } else {
      var last := |cs| - 1;
      DistinctIffCounted(cs[..last]);
      DistinctSnoc(cs[..last], cs[last]);
      assert cs == cs[..last] + [cs[last]];
    }
  }

  lemma {:induction false} ReadAllCounts(items: seq<Json>, c: Credential)
    requires forall raw :: raw in items ==> Readable(raw)
    ensures multiset(ReadAll(items))[c] == multiset(items)[PrintCredential(c)]
  {
    hide Readable, ValidCredential;
    if items != [] {
      var last := |items| - 1;
      assert items == items[..last] + [items[last]];
      assert ReadAll(items) == ReadAll(items[..last]) + [Read(items[last])];
      ReadAllCounts(items[..last], c);
    }
  }

  /** In which order references are given does not matter. */
  lemma ReferenceOrderIgnored(a: seq<Json>, b: seq<Json>)
    requires multiset(a) == multiset(b) && References(List(a)).Accepted?
    ensures References(List(a)) == References(List(b))
  {
    hide Readable, ValidCredential, Ascending, DistinctNames, References;
    ReferencesNormal(List(a));
    assert |a| == |multiset(a)| == |multiset(b)| == |b|;
    forall raw | raw in b ensures Readable(raw) {
      assert raw in multiset(a);
    }
    var x, y := ReadAll(a), ReadAll(b);
    forall c ensures multiset(x)[c] == multiset(y)[c] {
      ReadAllCounts(a, c);
      ReadAllCounts(b, c);
    }
    assert multiset(x) == multiset(y);
    SameNames(x, y);
    DistinctIffCounted(x);
    DistinctIffCounted(y);
    ReferencesNormal(List(b));
    NormalUnique(References(List(a)).value, References(List(b)).value);
  }

  lemma SameNames(x: seq<Credential>, y: seq<Credential>)
    requires multiset(x) == multiset(y)
    ensures NameSet(x) == NameSet(y)
  {
    forall c ensures c in x <==> c in y {
      assert c in multiset(x) <==> c in multiset(y);
    }
  }

  lemma NormalUnique(x: seq<Credential>, y: seq<Credential>)
    requires Normal(x) && Normal(y) && multiset(x) == multiset(y)
    ensures x == y
  {
    AscendingUnique(x, y);
  }

  // ----- plans ----------------------------------------------------------------------------

  /** Everything a plan is about; the digest in its id is taken of this. */
  datatype Content = Content(
    selection: string, enrollment: string, household: string, snapshot: string, version: string, generation: int,
    actorMember: string, device: string, member: string, catalog: string, provider: string, mode: string,
    credentials: seq<Credential>, timeout: int, artifact: string)

  datatype Plan = Plan(id: string, content: Content)

  type Digest = Content -> string

  /** Digests have the form of a plan id. */
  ghost predicate FormsIds(digest: Digest) {
    forall content :: IsDigestId(digest(content), "dmpexec-")
  }

  predicate ValidContent(c: Content) {
    && IsDigestId(c.selection, "dmpsel-") && c.enrollment != "" && c.household != "" && c.snapshot != ""
    && c.version != "" && 1 <= c.generation && c.actorMember != "" && c.device != "" && c.member != ""
    && IsDigestId(c.catalog, "dmpcat-") && IsIdentifier(c.provider) && IsIdentifier(c.mode)
    && Normal(c.credentials) && MIN_TIMEOUT_SECONDS <= c.timeout <= MAX_TIMEOUT_SECONDS && IsArtifact(c.artifact)
  }

  predicate ValidPlan(plan: Plan, digest: Digest) {
    ValidContent(plan.content) && plan.id == digest(plan.content)
  }

  // ----- the stored form ------------------------------------------------------------------

  /** What a stored plan says about its authority, the same for every plan. */
  function PlanFlag(name: Name): Option<bool> {
    match name
    case ConfirmationRequired => Some(true)
    case DurableJobRequired => Some(true)
    case AuditRequired => Some(true)
    case ProviderExecutionAuthorized => Some(false)
    case CredentialValueAccessAuthorized => Some(false)
    case PolicyApplicationAuthorized => Some(false)
    case ManagedStateChangeAuthorized => Some(false)
    case InfrastructureMutationAuthorized => Some(false)
    case ExternalPublicationAuthorized => Some(false)
    case _ => None
  }

  function PlanNames(): set<Name> {
    {Schema, PlanId, SelectionProposalId, EnrollmentProposalId, HouseholdId, SnapshotId, ResourceVersion, Generation,
     ActorMemberId, DeviceId, MemberId, CatalogId, ProviderId, EnrollmentMode, CredentialReferences, TimeoutSeconds,
     OneTimeArtifact, Name.ConfirmationRequired, DurableJobRequired, AuditRequired, ProviderExecutionAuthorized,
     CredentialValueAccessAuthorized, PolicyApplicationAuthorized, ManagedStateChangeAuthorized,
     InfrastructureMutationAuthorized, ExternalPublicationAuthorized}
  }

  function PrintField(p: Plan, name: Name): Json {
    var c := p.content;
    match name
    case Schema => Text(PLAN_SCHEMA)
    case PlanId => Text(p.id)
    case SelectionProposalId => Text(c.selection)
    case EnrollmentProposalId => Text(c.enrollment)
    case HouseholdId => Text(c.household)
    case SnapshotId => Text(c.snapshot)
    case ResourceVersion => Text(c.version)
    case Generation => Number(c.generation)
    case ActorMemberId => Text(c.actorMember)
    case DeviceId => Text(c.device)
    case MemberId => Text(c.member)
    case CatalogId => Text(c.catalog)
    case ProviderId => Text(c.provider)
    case EnrollmentMode => Text(c.mode)
    case CredentialReferences => List(PrintCredentials(c.credentials))
    case TimeoutSeconds => Number(c.timeout)
    case OneTimeArtifact => Text(c.artifact)
    case _ => if PlanFlag(name).Some? then Flag(PlanFlag(name).value) else Null
  }

  function PrintFields(p: Plan): map<Name, Json> {
    map name | name in PlanNames() :: PrintField(p, name)
  }

  function Print(p: Plan): Json {
    Object(PrintFields(p))
  }

  predicate FieldsWellFormed(f: map<Name, Json>) {
    && Get(f, PlanId).Text? && IsDigestId(Get(f, PlanId).text, "dmpexec-")
    && Get(f, SelectionProposalId).Text? && IsDigestId(Get(f, SelectionProposalId).text, "dmpsel-")
    && NonEmpty(Get(f, EnrollmentProposalId)) && NonEmpty(Get(f, HouseholdId)) && NonEmpty(Get(f, SnapshotId))
    && NonEmpty(Get(f, ResourceVersion)) && Get(f, Generation).Number? && 1 <= Get(f, Generation).number
    && NonEmpty(Get(f, ActorMemberId)) && NonEmpty(Get(f, DeviceId)) && NonEmpty(Get(f, MemberId))
    && Get(f, CatalogId).Text? && IsDigestId(Get(f, CatalogId).text, "dmpcat-")
    && FlagsAsExpected(f)
  }

  predicate FlagsAsExpected(f: map<Name, Json>) {
    forall name :: name in PlanNames() && PlanFlag(name).Some? ==> Get(f, name) == Flag(PlanFlag(name).value)
  }

  /** The plan that well-formed fields describe. */
  function ReadFields(f: map<Name, Json>): Verdict<Plan>
    requires FieldsWellFormed(f)
  {
    var provider :- ReadIdentifier(Get(f, ProviderId), InvalidProviderId);
    var mode :- ReadIdentifier(Get(f, EnrollmentMode), InvalidMode);
    var credentials :- References(Get(f, CredentialReferences));
    var timeout := Get(f, TimeoutSeconds);
    if !timeout.Number? || !(MIN_TIMEOUT_SECONDS <= timeout.number <= MAX_TIMEOUT_SECONDS) then Rejected(PlanRejected)
    else if !Get(f, OneTimeArtifact).Text? || !IsArtifact(Get(f, OneTimeArtifact).text) then Rejected(PlanRejected)
    else
      Accepted(Plan(Get(f, PlanId).text, Content(
        Get(f, SelectionProposalId).text, Get(f, EnrollmentProposalId).text, Get(f, HouseholdId).text,
        Get(f, SnapshotId).text, Get(f, ResourceVersion).text, Get(f, Generation).number, Get(f, ActorMemberId).text,
        Get(f, DeviceId).text, Get(f, MemberId).text, Get(f, CatalogId).text, provider, mode, credentials,
        timeout.number, Get(f, OneTimeArtifact).text)))
  }

  /** Reads a stored plan, which must be exactly the printed form of one. */
  function ReadPlan(j: Json, digest: Digest): Verdict<Plan> {
    if !j.Object? || j.fields.Keys != PlanNames() || Get(j.fields, Schema) != Text(PLAN_SCHEMA) then Rejected(PlanRejected)
    else if !FieldsWellFormed(j.fields) then Rejected(PlanRejected)
    else
      var plan :- ReadFields(j.fields);
      if plan.id != digest(plan.content) || Print(plan) != j then Rejected(PlanRejected) else Accepted(plan)
  }

  lemma Printed(p: Plan, name: Name)
    ensures Get(PrintFields(p), name) == PrintField(p, name)
  {
    NamedOrNull(p, name);
    hide PrintField, PlanNames;
  }

  lemma NamedOrNull(p: Plan, name: Name)
    ensures name in PlanNames() || PrintField(p, name) == Null
  {
  }

  lemma PrintedFlags(p: Plan)
    ensures FlagsAsExpected(PrintFields(p))
  {
    hide PrintFields, PlanNames;
    forall name | name in PlanNames() && PlanFlag(name).Some? ensures Get(PrintFields(p), name) == Flag(PlanFlag(name).value) {
      Printed(p, name);
    }
  }

  lemma PrintedNames(p: Plan)
    ensures PrintFields(p).Keys == PlanNames()
  {
    hide PlanNames, PrintField;
  }

  predicate Describes(f: map<Name, Json>, p: Plan) {
    var c := p.content;
    && Get(f, PlanId) == Text(p.id) && Get(f, SelectionProposalId) == Text(c.selection)
    && Get(f, EnrollmentProposalId) == Text(c.enrollment) && Get(f, HouseholdId) == Text(c.household)
    && Get(f, SnapshotId) == Text(c.snapshot) && Get(f, ResourceVersion) == Text(c.version)
    && Get(f, Generation) == Number(c.generation) && Get(f, ActorMemberId) == Text(c.actorMember)
    && Get(f, DeviceId) == Text(c.device) && Get(f, MemberId) == Text(c.member) && Get(f, CatalogId) == Text(c.catalog)
    && Get(f, ProviderId) == Text(c.provider) && Get(f, EnrollmentMode) == Text(c.mode)
    && Get(f, CredentialReferences) == List(PrintCredentials(c.credentials))
    && Get(f, TimeoutSeconds) == Number(c.timeout) && Get(f, OneTimeArtifact) == Text(c.artifact)
  }

  lemma PrintedDescribes(p: Plan, f: map<Name, Json>)
    requires forall name :: Get(f, name) == PrintField(p, name)
    ensures Describes(f, p)
  {
    hide Get;
  }

  lemma DescribedRead(p: Plan, f: map<Name, Json>)
    requires Describes(f, p) && FlagsAsExpected(f) && ValidContent(p.content) && IsDigestId(p.id, "dmpexec-")
    ensures FieldsWellFormed(f) && ReadFields(f) == Accepted(p)
  {
    hide Get, PlanNames, PlanFlag, IsDigestId, IsIdentifier, IsArtifact, References, Normal, FlagsAsExpected;
    NormalizeIdempotent(p.content.credentials);
  }

  /** A valid plan is read back from its printed form. */
  lemma ReadsPrinted(p: Plan, digest: Digest)
    requires FormsIds(digest) && ValidPlan(p, digest)
    ensures ReadPlan(Print(p), digest) == Accepted(p)
  {
    hide PrintFields, PlanNames, IsDigestId, ReadFields, FieldsWellFormed, ValidContent, FlagsAsExpected, Describes;
    PrintedFlags(p);
    PrintedNames(p);
    forall name ensures Get(PrintFields(p), name) == PrintField(p, name) {
      Printed(p, name);
    }
    PrintedDescribes(p, PrintFields(p));
    DescribedRead(p, PrintFields(p));
    assert Get(PrintFields(p), Schema) == Text(PLAN_SCHEMA);
  }

  /** Whatever is read is the printed form of a valid plan. */
  lemma ReadIsPrinted(j: Json, digest: Digest)
    requires ReadPlan(j, digest).Accepted?
    ensures ValidPlan(ReadPlan(j, digest).value, digest) && j == Print(ReadPlan(j, digest).value)
  {
    hide PrintFields, PlanNames, IsDigestId, IsIdentifier, References, Normal, FlagsAsExpected;
    ReferencesNormal(Get(j.fields, CredentialReferences));
  }

  /** A document is accepted, as a plan, exactly when it is the printed form of this plan and the plan
      is valid. */
  lemma ReadsExactlyPrinted(j: Json, p: Plan, digest: Digest)
    requires FormsIds(digest)
    ensures ReadPlan(j, digest) == Accepted(p) <==> ValidPlan(p, digest) && j == Print(p)
  {
    hide ReadPlan, Print, ValidPlan;
    if ValidPlan(p, digest) && j == Print(p) {
      ReadsPrinted(p, digest);
    }
    if ReadPlan(j, digest) == Accepted(p) {
      ReadIsPrinted(j, digest);
    }
  }

  // ----- building and revalidating --------------------------------------------------------

  /** The receipt of a confirmed provider selection. */
  datatype Selection = Selection(
    proposal: string, enrollment: string, device: string, member: string, provider: string, snapshot: string,
    version: string, generation: int, catalog: string)

  datatype Provider = Provider(id: string, modes: seq<string>, ready: bool)

  datatype Catalog = Catalog(id: string, providers: seq<Provider>)

  /** The current Household, and the member the caller is bound to. */
  datatype Current = Current(household: string, snapshot: string, version: string, generation: int, actorMember: string)

  predicate ConfirmedSelection(s: Selection) {
    && IsDigestId(s.proposal, "dmpsel-") && s.enrollment != "" && s.device != "" && s.member != "" && s.snapshot != ""
    && s.version != "" && 1 <= s.generation && IsDigestId(s.catalog, "dmpcat-")
  }

  function FindProvider(providers: seq<Provider>, id: string): Option<Provider> {
    if providers == [] then None
    else if providers[0].id == id then Some(providers[0])
    else FindProvider(providers[1..], id)
  }

  /** Whether the provider is ready and offers the mode. */
  predicate Offered(catalog: Catalog, provider: string, mode: string) {
    var found := FindProvider(catalog.providers, provider);
    found.Some? && found.value.ready && mode in found.value.modes
  }

  function Build(s: Selection, catalog: Catalog, now: Current, mode: Json, references: Json, timeout: Json, artifact: Json,
                 digest: Digest): Verdict<Plan>
  {
    if !ConfirmedSelection(s) then Rejected(ReceiptInvalid)
    else if s.snapshot != now.snapshot || s.version != now.version || s.generation != now.generation then Rejected(PlanStale)
    else if now.household == "" || now.actorMember == "" || s.catalog != catalog.id then Rejected(PlanStale)
    else
      var provider :- ReadIdentifier(Text(s.provider), InvalidProviderId);
      var found := FindProvider(catalog.providers, provider);
      if found.None? || !found.value.ready then Rejected(ProviderNotAvailable)
      else
        var mode :- ReadIdentifier(mode, InvalidMode);
        if mode !in found.value.modes then Rejected(ModeNotSupported)
        else
          var credentials :- References(references);
          if !timeout.Number? || !(MIN_TIMEOUT_SECONDS <= timeout.number <= MAX_TIMEOUT_SECONDS) then Rejected(InvalidTimeout)
          else if !artifact.Text? || !IsArtifact(artifact.text) then Rejected(InvalidArtifact)
          else
            var content := Content(s.proposal, s.enrollment, now.household, now.snapshot, now.version, now.generation,
              now.actorMember, s.device, s.member, s.catalog, provider, mode, credentials, timeout.number, artifact.text);
            Accepted(Plan(digest(content), content))
  }

  /** Why a plan is not, or no longer, what would be built now; None when it is. */
  function Revalidate(plan: Plan, s: Selection, catalog: Catalog, now: Current, digest: Digest): Option<Rejection> {
    var c := plan.content;
    var built := Build(s, catalog, now, Text(c.mode), List(PrintCredentials(c.credentials)), Number(c.timeout),
      Text(c.artifact), digest);
    if built.Rejected? then Some(built.code) else if built.value != plan then Some(PlanStale) else None
  }

  /** Whether the selection, the catalog, the Household and the actor are those of the plan. */
  predicate Unchanged(c: Content, s: Selection, catalog: Catalog, now: Current) {
    && s == Selection(c.selection, c.enrollment, c.device, c.member, c.provider, c.snapshot, c.version, c.generation, c.catalog)
    && now == Current(c.household, c.snapshot, c.version, c.generation, c.actorMember)
    && catalog.id == c.catalog
  }

  lemma BuiltValid(s: Selection, catalog: Catalog, now: Current, mode: Json, references: Json, timeout: Json, artifact: Json,
                   digest: Digest)
    requires Build(s, catalog, now, mode, references, timeout, artifact, digest).Accepted?
    ensures var plan := Build(s, catalog, now, mode, references, timeout, artifact, digest).value;
      && ValidPlan(plan, digest) && Unchanged(plan.content, s, catalog, now)
      && Offered(catalog, plan.content.provider, plan.content.mode)
  {
    hide IsDigestId, IsIdentifier, IsArtifact, References, Normal, FindProvider;
    ReferencesNormal(references);
  }

  /** A valid plan passes exactly when nothing it is about has changed and the provider still offers
      its mode: any other snapshot, resource version, generation, catalog, actor or selection is refused. */
  lemma RevalidatesIff(plan: Plan, s: Selection, catalog: Catalog, now: Current, digest: Digest)
    requires ValidPlan(plan, digest)
    ensures Revalidate(plan, s, catalog, now, digest).None? <==>
      Unchanged(plan.content, s, catalog, now) && Offered(catalog, plan.content.provider, plan.content.mode)
  {
    hide IsDigestId, IsIdentifier, IsArtifact, References, Normal, FindProvider;
    NormalizeIdempotent(plan.content.credentials);
  }

  /** Building, printing, reading and revalidating is the identity when nothing changes. */
  lemma StoredPlanSurvives(s: Selection, catalog: Catalog, now: Current, mode: Json, references: Json, timeout: Json,
                           artifact: Json, digest: Digest)
    requires FormsIds(digest) && Build(s, catalog, now, mode, references, timeout, artifact, digest).Accepted?
    ensures var plan := Build(s, catalog, now, mode, references, timeout, artifact, digest).value;
      ReadPlan(Print(plan), digest) == Accepted(plan) && Revalidate(plan, s, catalog, now, digest).None?
  {
    hide Build, Print, ReadPlan, Revalidate, ValidPlan, Unchanged, Offered;
    var plan := Build(s, catalog, now, mode, references, timeout, artifact, digest).value;
    BuiltValid(s, catalog, now, mode, references, timeout, artifact, digest);
    ReadsExactlyPrinted(Print(plan), plan, digest);
    RevalidatesIff(plan, s, catalog, now, digest);
  }

  /** The order in which a caller gives the references does not change the plan, nor its id. */
  lemma BuildIgnoresOrder(s: Selection, catalog: Catalog, now: Current, mode: Json, a: seq<Json>, b: seq<Json>,
                          timeout: Json, artifact: Json, digest: Digest)
    requires multiset(a) == multiset(b) && Build(s, catalog, now, mode, List(a), timeout, artifact, digest).Accepted?
    ensures Build(s, catalog, now, mode, List(a), timeout, artifact, digest) ==
      Build(s, catalog, now, mode, List(b), timeout, artifact, digest)
  {
    hide IsDigestId, IsIdentifier, IsArtifact, References, FindProvider;
    ReferenceOrderIgnored(a, b);
  }

  // ----- what is refused ------------------------------------------------------------------

  /** What the problem of an item is. */
  lemma ItemProblemMeans(raw: Json, seen: set<string>)
    ensures var closed := raw.Object? && raw.fields.Keys == {NameOfReference, Reference};
      var named := closed && raw.fields[NameOfReference].Text? && IsIdentifier(raw.fields[NameOfReference].text);
      var problem := ItemProblem(raw, seen);
      && (problem == Some(InvalidReferenceName) <==> closed && !named)
      && (problem == Some(InvalidReference) <==>
            || !closed
            || (named && (raw.fields[NameOfReference].text in seen
                          || !raw.fields[Reference].Text? || !IsSecretReference(raw.fields[Reference].text))))
  {
    hide IsIdentifier, IsSecretReference;
  }

  /** The first provider with this id. */
  predicate FirstProvider(providers: seq<Provider>, id: string, p: Provider) {
    exists i :: 0 <= i < |providers| && providers[i] == p && p.id == id && forall k :: 0 <= k < i ==> providers[k].id != id
  }

  lemma FurtherProvider(providers: seq<Provider>, id: string, p: Provider)
    requires providers != [] && providers[0].id != id
    ensures FirstProvider(providers, id, p) <==> FirstProvider(providers[1..], id, p)
  {
    var rest := providers[1..];
    if i :| 0 <= i < |providers| && providers[i] == p && p.id == id && forall k :: 0 <= k < i ==> providers[k].id != id {
      assert rest[i - 1] == p;
    }
    if i :| 0 <= i < |rest| && rest[i] == p && p.id == id && forall k :: 0 <= k < i ==> rest[k].id != id {
      assert providers[i + 1] == p;
      forall k | 0 <= k < i + 1 ensures providers[k].id != id {
        assert k > 0 ==> providers[k] == rest[k - 1];
      }
    }
  }

  lemma {:induction false} FindProviderMeans(providers: seq<Provider>, id: string)
    ensures forall p :: FindProvider(providers, id) == Some(p) <==> FirstProvider(providers, id, p)
  {
    if providers != [] && providers[0].id != id {
      FindProviderMeans(providers[1..], id);
      forall p ensures FirstProvider(providers, id, p) <==> FirstProvider(providers[1..], id, p) {
        FurtherProvider(providers, id, p);
      }
    }
  }

  ghost predicate SomeReady(catalog: Catalog, provider: string) {
    exists p :: FirstProvider(catalog.providers, provider, p) && p.ready
  }

  ghost predicate SomeOffers(catalog: Catalog, provider: string, mode: string) {
    exists p :: FirstProvider(catalog.providers, provider, p) && p.ready && mode in p.modes
  }

  lemma OfferedMeans(catalog: Catalog, provider: string, mode: string)
    ensures var found := FindProvider(catalog.providers, provider);
      && (found.Some? && found.value.ready <==> SomeReady(catalog, provider))
      && (Offered(catalog, provider, mode) <==> SomeOffers(catalog, provider, mode))
  {
    FindProviderMeans(catalog.providers, provider);
    var found := FindProvider(catalog.providers, provider);
    assert found.Some? ==> FirstProvider(catalog.providers, provider, found.value);
    hide FirstProvider, FindProvider;
  }

  predicate IsCurrent(s: Selection, catalog: Catalog, now: Current) {
    && s.snapshot == now.snapshot && s.version == now.version && s.generation == now.generation
    && now.household != "" && now.actorMember != "" && s.catalog == catalog.id
  }

  /** A plan is built if and only if the selection is confirmed and about the current Household and catalog,
      its provider is known, ready and offers the mode, and references, timeout and artifact are acceptable;
      it holds what was asked for. */
  lemma BuildsIff(s: Selection, catalog: Catalog, now: Current, mode: Json, references: Json, timeout: Json, artifact: Json, digest: Digest)
    ensures var built := Build(s, catalog, now, mode, references, timeout, artifact, digest);
      && (built.Accepted? <==>
            && ConfirmedSelection(s) && IsCurrent(s, catalog, now)
            && IsIdentifier(s.provider) && mode.Text? && IsIdentifier(mode.text) && SomeOffers(catalog, s.provider, mode.text)
            && references.List? && Acceptable(references.items)
            && timeout.Number? && 30 <= timeout.number <= 1800
            && artifact.Text? && IsArtifact(artifact.text))
      && (built.Accepted? ==>
            var c := built.value.content;
            && c.mode == mode.text && c.timeout == timeout.number && c.artifact == artifact.text
            && multiset(c.credentials) == multiset(ReadAll(references.items)))
  {
    ReferencesNormal(references);
    OfferedMeans(catalog, s.provider, if mode.Text? then mode.text else "");
    hide SomeOffers, SomeReady, FindProvider, References, Acceptable, IsIdentifier, IsDigestId, IsArtifact, ConfirmedSelection, Normal;
  }

  /** Why a plan is not built: the first of these that applies. */
  ghost function BuildProblem(s: Selection, catalog: Catalog, now: Current, mode: Json, references: Json, timeout: Json, artifact: Json): Option<Rejection> {
    if !ConfirmedSelection(s) then Some(ReceiptInvalid)
    else if !IsCurrent(s, catalog, now) then Some(PlanStale)
    else if !IsIdentifier(s.provider) then Some(InvalidProviderId)
    else if !SomeReady(catalog, s.provider) then Some(ProviderNotAvailable)
    else if !mode.Text? || !IsIdentifier(mode.text) then Some(InvalidMode)
    else if !SomeOffers(catalog, s.provider, mode.text) then Some(ModeNotSupported)
    else if References(references).Rejected? then Some(References(references).code)
    else if !timeout.Number? || timeout.number < 30 || timeout.number > 1800 then Some(InvalidTimeout)
    else if !artifact.Text? || !IsArtifact(artifact.text) then Some(InvalidArtifact)
    else None
  }

  lemma BuildRefusals(s: Selection, catalog: Catalog, now: Current, mode: Json, references: Json, timeout: Json, artifact: Json, digest: Digest)
    ensures var built, problem := Build(s, catalog, now, mode, references, timeout, artifact, digest),
                                  BuildProblem(s, catalog, now, mode, references, timeout, artifact);
      (built.Rejected? <==> problem.Some?) && (built.Rejected? ==> problem == Some(built.code))
  {
    OfferedMeans(catalog, s.provider, if mode.Text? then mode.text else "");
    hide SomeReady, SomeOffers, FindProvider, IsIdentifier, IsArtifact, ConfirmedSelection, References, IsDigestId;
  }

  /** Why references are not accepted: there are too many, or the problem of the first item that has one. */
  lemma ReferencesMean(j: Json)
    ensures !j.List? || |j.items| > 16 ==> References(j) == Rejected(InvalidReferences)
    ensures j.List? && |j.items| <= 16 && FirstProblem(j.items).Some? ==> References(j) == Rejected(FirstProblem(j.items).value)
    ensures j.List? && |j.items| <= 16 && FirstProblem(j.items).None? ==> References(j).Accepted?
  {
    hide FirstProblem, Sorted;
  }
}
