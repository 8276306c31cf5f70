// Approval bindings of a fixed campaign and the chain that links its steps.

module CampaignBinding {

  datatype Option<T> = None | Some(value: T)

  datatype Result<T> = Ok(value: T) | Err(error: Error) {
    predicate IsFailure() {
      Err?
    }

    function PropagateFailure<U>(): Result<U>
      requires Err?
    {
      Err(error)
    }

    function Extract(): T
      requires Ok?
    {
      value
    }
  }

  // A condition that must hold.
  datatype Check = Pass | Fail(error: Error) {
    predicate IsFailure() {
      Fail?
    }

    function PropagateFailure<U>(): Result<U>
      requires Fail?
    {
      Err(error)
    }
  }

  datatype Error =
    | BindingRequired
    | BindingKeysInvalid
    | ContractInvalid
    | AliasInvalid
    | IdentifierInvalid
    | ActionInvalid
    | BucketInvalid
    | ShaInvalid(name: string)
    | TimestampInvalid(name: string)
    | TimeOrderInvalid
    | SizeInvalid
    | FirstPredecessorForbidden
    | PredecessorKindInvalid
    | TargetMismatch(key: string)
    | EvidenceMismatch
    | DigestInvalid
    | CountMismatch
    | AliasSequenceInvalid
    | DuplicateIdentifier
    | OrderInvalid

  const BINDING_CONTRACT := "fast0-incremental-dead-letter-campaign-apply-binding.v1"
  const ACTION := "DISPOSE_OBSOLETE_CLOSED_CANDIDATE"
  const BUCKET := "HISTORICAL_PENDING_DISPOSITION"
  const PREDECESSOR_KIND := "CAMPAIGN_APPLY_REPORT"
  const TARGET_COUNT: nat := 38

  // ---- texts -------------------------------------------------------------------------------------

  predicate IsSha(s: string) {
    |s| == 64 && forall i :: 0 <= i < 64 ==> '0' <= s[i] <= '9' || 'a' <= s[i] <= 'f'
  }

  predicate IsDigit(c: char) {
    '0' <= c <= '9'
  }

  function Value(c: char): nat
    requires IsDigit(c)
  {
    c as nat - '0' as nat
  }

  function Digit(n: nat): (c: char)
    requires n < 10
    ensures IsDigit(c) && Value(c) == n
  {
    ('0' as nat + n) as char
  }

  // Two digits from 01 to 38 behind a U.
  predicate IsAlias(s: string) {
    && |s| == 3 && s[0] == 'U' && IsDigit(s[1]) && IsDigit(s[2])
    && 1 <= 10 * Value(s[1]) + Value(s[2]) <= TARGET_COUNT
  }

  function OrdinalOf(alias: string): (n: nat)
    requires IsAlias(alias)
    ensures 1 <= n <= TARGET_COUNT
  {
    10 * Value(alias[1]) + Value(alias[2])
  }

  function AliasFor(n: nat): string
    requires n <= 99
  {
    ['U', Digit(n / 10), Digit(n % 10)]
  }

  // Aliases and ordinals determine each other.
  lemma AliasRoundTrip(n: nat, alias: string)
    ensures 1 <= n <= 38 ==> IsAlias(AliasFor(n)) && OrdinalOf(AliasFor(n)) == n
    ensures IsAlias(alias) ==> OrdinalOf(alias) <= 38 && AliasFor(OrdinalOf(alias)) == alias
    ensures AliasFor(1) == "U01" && AliasFor(38) == "U38"
  {
    if IsAlias(alias) {
      var o := OrdinalOf(alias);
      assert o / 10 == Value(alias[1]) && o % 10 == Value(alias[2]);
      assert AliasFor(o)[1] == alias[1] && AliasFor(o)[2] == alias[2];
    }
  }

  // White space or a control character.
  predicate IsBlank(c: char) {
    var n := c as nat;
    || n <= 0x20 || n == 0x85 || n == 0xA0 || n == 0x1680 || 0x2000 <= n <= 0x200A
    || n == 0x2028 || n == 0x2029 || n == 0x202F || n == 0x205F || n == 0x3000
  }

  predicate IsIdentifier(s: string) {
    0 < |s| <= 512 && forall i :: 0 <= i < |s| ==> !IsBlank(s[i])
  }

  predicate AtMost(a: string, b: string) {
    a == [] || (b != [] && (a[0] < b[0] || (a[0] == b[0] && AtMost(a[1..], b[1..]))))
  }

  // ---- documents -----------------------------------------------------------------------------------

  datatype Target = Target(
    action: string,
    id: string,
    fingerprint: string,
    version: string,
    bucket: string,
    alias: string)

  datatype Predecessor = Predecessor(kind: Option<string>, report: Option<string>, chain: Option<string>)

  datatype Body = Body(
    contract: string,
    alias: string,
    ordinal: int,
    action: string,
    bucket: string,
    idSha: string,
    fingerprint: string,
    version: string,
    plan: string,
    manifest: string,
    targets: string,
    preflight: string,
    databaseMain: string,
    databaseSize: int,
    predecessor: Predecessor,
    evidence: string,
    generatedAt: string,
    preflightAt: string)

  datatype Binding = Binding(body: Body, approval: string)

  datatype Link = Link(
    plan: string,
    targets: string,
    alias: string,
    ordinal: nat,
    predecessor: Option<string>,
    approval: string,
    request: string,
    disposition: string)

  // What is digested. Different documents have different canonical texts.
  datatype Document = Text(s: string) | BodyDoc(body: Body) | LinkDoc(link: Link) | TargetSet(items: seq<Target>)

  // The digest is a parameter; all that is used of it is its form.
  ghost predicate GivesSha(digest: Document -> string) {
    forall d :: IsSha(digest(d))
  }

  ghost predicate Collide(digest: Document -> string, a: Document, b: Document) {
    a != b && digest(a) == digest(b)
  }

  // ---- checks --------------------------------------------------------------------------------------

  function Need(holds: bool, error: Error): Check {
    if holds then Pass else Fail(error)
  }

  function RequireAlias(alias: string): Result<string> {
    if IsAlias(alias) then Ok(alias) else Err(AliasInvalid)
  }

  function RequireSha(name: string, value: string): Result<string> {
    if IsSha(value) then Ok(value) else Err(ShaInvalid(name))
  }

  function RequireShaOption(name: string, value: Option<string>): Result<Option<string>> {
    if value.Some? && IsSha(value.value) then Ok(value) else Err(ShaInvalid(name))
  }

  function RequireTime(name: string, text: string, parse: string -> Option<int>): Result<int> {
    match parse(text)
    case None => Err(TimestampInvalid(name))
    case Some(t) => Ok(t)
  }

  function NormalizeTarget(t: Target): Result<Target> {
    var alias :- RequireAlias(t.alias);
    :- Need(IsIdentifier(t.id), IdentifierInvalid);
    :- Need(t.action == ACTION, ActionInvalid);
    :- Need(t.bucket == BUCKET, BucketInvalid);
    var fingerprint :- RequireSha("DEAD_LETTER_FINGERPRINT", t.fingerprint);
    var version :- RequireSha("CANDIDATE_VERSION", t.version);
    Ok(Target(ACTION, t.id, fingerprint, version, BUCKET, alias))
  }

  // The first step has no predecessor; every other one has a whole one.
  function NormalizePredecessor(ordinal: nat, p: Predecessor): Result<Predecessor> {
    if ordinal == 1 then
      if p == Predecessor(None, None, None) then Ok(p) else Err(FirstPredecessorForbidden)
    else
      :- Need(p.kind == Some(PREDECESSOR_KIND), PredecessorKindInvalid);
      var report :- RequireShaOption("PREDECESSOR_REPORT_SHA256", p.report);
      var chain :- RequireShaOption("PREDECESSOR_CHAIN_SHA256", p.chain);
      Ok(Predecessor(Some(PREDECESSOR_KIND), report, chain))
  }

  // ---- building a binding --------------------------------------------------------------------------

  datatype Inputs = Inputs(
    plan: string,
    manifest: string,
    targets: string,
    preflight: string,
    databaseMain: string,
    databaseSize: int,
    predecessor: Predecessor,
    evidence: string,
    generatedAt: string,
    preflightAt: string)

  function Build(t: Target, i: Inputs, digest: Document -> string, parse: string -> Option<int>): Result<Binding> {
    var target :- NormalizeTarget(t);
    :- Need(IsAlias(target.alias), AliasInvalid);
    var ordinal := OrdinalOf(target.alias);
    var predecessor :- NormalizePredecessor(ordinal, i.predecessor);
    :- Need(i.databaseSize > 0, SizeInvalid);
    var generated :- RequireTime("GENERATED_AT", i.generatedAt, parse);
    var preflightTime :- RequireTime("PREFLIGHT_GENERATED_AT", i.preflightAt, parse);
    :- Need(preflightTime <= generated, TimeOrderInvalid);
    var plan :- RequireSha("SOURCE_PLAN_REPORT_SHA256", i.plan);
    var manifest :- RequireSha("PRIVATE_MANIFEST_SHA256", i.manifest);
    var targets :- RequireSha("TARGET_SET_SHA256", i.targets);
    var preflight :- RequireSha("APPROVED_PREFLIGHT_REPORT_SHA256", i.preflight);
    var databaseMain :- RequireSha("APPROVED_DATABASE_MAIN_SHA256", i.databaseMain);
    var evidence :- RequireSha("EVIDENCE_SHA256", i.evidence);
    var body := Body(
      BINDING_CONTRACT, target.alias, ordinal, ACTION, BUCKET, digest(Text(target.id)), target.fingerprint,
      target.version, plan, manifest, targets, preflight, databaseMain, i.databaseSize, predecessor, evidence,
      i.generatedAt, i.preflightAt);
    Ok(Binding(body, digest(BodyDoc(body))))
  }

  // ---- validating one ------------------------------------------------------------------------------

  // A presented binding that is no mapping, or whose keys or value types are not the expected ones.
  datatype Presented = Missing | BadKeys | Presented(binding: Binding)

  datatype Expected = Expected(alias: string, id: string, fingerprint: string, version: string, evidence: string)

  function RequireBinding(p: Presented): Result<Binding> {
    match p
    case Missing => Err(BindingRequired)
    case BadKeys => Err(BindingKeysInvalid)
    case Presented(b) => Ok(b)
  }

  function CheckTarget(b: Body, e: Expected, ordinal: nat, digest: Document -> string): Result<bool> {
    var idSha := digest(Text(e.id));
    :- Need(b.alias == e.alias, TargetMismatch("ALIAS"));
    :- Need(b.ordinal == ordinal, TargetMismatch("ORDINAL"));
    :- Need(b.action == ACTION, TargetMismatch("ACTION"));
    :- Need(b.bucket == BUCKET, TargetMismatch("BUCKET"));
    :- Need(b.idSha == idSha, TargetMismatch("DEAD_LETTER_ID_SHA256"));
    :- Need(b.fingerprint == e.fingerprint, TargetMismatch("DEAD_LETTER_FINGERPRINT"));
    :- Need(b.version == e.version, TargetMismatch("CANDIDATE_VERSION"));
    Ok(true)
  }

  function CheckShas(b: Body): Result<bool> {
    var _ :- RequireSha("SOURCE_PLAN_REPORT_SHA256", b.plan);
    var _ :- RequireSha("PRIVATE_MANIFEST_SHA256", b.manifest);
    var _ :- RequireSha("TARGET_SET_SHA256", b.targets);
    var _ :- RequireSha("APPROVED_PREFLIGHT_REPORT_SHA256", b.preflight);
    var _ :- RequireSha("APPROVED_DATABASE_MAIN_SHA256", b.databaseMain);
    Ok(true)
  }

  // The times of a presented binding, against the time it must not be later than.
  function CheckTimes(b: Body, parse: string -> Option<int>, notAfter: int): Result<bool> {
    var generated :- RequireTime("GENERATED_AT", b.generatedAt, parse);
    var preflight :- RequireTime("PREFLIGHT_GENERATED_AT", b.preflightAt, parse);
    :- Need(preflight <= generated <= notAfter, TimeOrderInvalid);
    Ok(true)
  }

  function Validate(p: Presented, e: Expected, notAfter: int, digest: Document -> string, parse: string -> Option<int>): Result<Binding> {
    var presented :- RequireBinding(p);
    var b := presented.body;
    :- Need(b.contract == BINDING_CONTRACT, ContractInvalid);
    :- Need(IsAlias(e.alias), AliasInvalid);
    var ordinal := OrdinalOf(e.alias);
    :- Need(IsIdentifier(e.id), IdentifierInvalid);
    var fingerprint :- RequireSha("EXPECTED_DEAD_LETTER_FINGERPRINT", e.fingerprint);
    var version :- RequireSha("EXPECTED_CANDIDATE_VERSION", e.version);
    var _ :- CheckTarget(b, e, ordinal, digest);
    var _ :- CheckShas(b);
    :- Need(b.databaseSize > 0, SizeInvalid);
    var predecessor :- NormalizePredecessor(ordinal, b.predecessor);
    var evidence :- RequireSha("EVIDENCE_SHA256", e.evidence);
    :- Need(b.evidence == evidence, EvidenceMismatch);
    var _ :- CheckTimes(b, parse, notAfter);
    var normalized := Body(
      BINDING_CONTRACT, e.alias, ordinal, ACTION, BUCKET, digest(Text(e.id)), fingerprint, version,
      b.plan, b.manifest, b.targets, b.preflight, b.databaseMain, b.databaseSize, predecessor, evidence,
      b.generatedAt, b.preflightAt);
    var actual :- RequireSha("APPROVAL_BINDING_SHA256", presented.approval);
    :- Need(actual == digest(BodyDoc(normalized)), DigestInvalid);
    Ok(Binding(normalized, actual))
  }

  // ---- the two against each other ------------------------------------------------------------------

  // What a binding says about the campaign besides its target.
  function InputsOf(b: Body): Inputs {
    Inputs(b.plan, b.manifest, b.targets, b.preflight, b.databaseMain, b.databaseSize, b.predecessor,
           b.evidence, b.generatedAt, b.preflightAt)
  }

  function TargetOf(e: Expected): Target {
    Target(ACTION, e.id, e.fingerprint, e.version, BUCKET, e.alias)
  }

  predicate InTime(b: Body, parse: string -> Option<int>, notAfter: int) {
    parse(b.generatedAt).Some? && parse(b.generatedAt).value <= notAfter
  }

  predicate GoodTarget(t: Target) {
    && IsAlias(t.alias) && IsIdentifier(t.id)
    && t.action == "DISPOSE_OBSOLETE_CLOSED_CANDIDATE" && t.bucket == "HISTORICAL_PENDING_DISPOSITION"
    && IsSha(t.fingerprint) && IsSha(t.version)
  }

  // Nothing goes before U01; any other step names a whole apply report.
  predicate GoodPredecessor(alias: string, p: Predecessor) {
    if alias == "U01" then p.kind == None && p.report == None && p.chain == None
    else
      && p.kind == Some("CAMPAIGN_APPLY_REPORT")
      && p.report.Some? && IsSha(p.report.value) && p.chain.Some? && IsSha(p.chain.value)
  }

  // What a build must be given to succeed.
  predicate Buildable(t: Target, i: Inputs, parse: string -> Option<int>) {
    && GoodTarget(t)
    && GoodPredecessor(t.alias, i.predecessor)
    && i.databaseSize > 0
    && parse(i.generatedAt).Some? && parse(i.preflightAt).Some?
    && parse(i.preflightAt).value <= parse(i.generatedAt).value
    && IsSha(i.plan) && IsSha(i.manifest) && IsSha(i.targets) && IsSha(i.preflight) && IsSha(i.databaseMain)
    && IsSha(i.evidence)
  }

  function BodyFor(t: Target, i: Inputs, digest: Document -> string): Body
    requires IsAlias(t.alias)
  {
    Body(BINDING_CONTRACT, t.alias, OrdinalOf(t.alias), ACTION, BUCKET, digest(Text(t.id)), t.fingerprint, t.version,
         i.plan, i.manifest, i.targets, i.preflight, i.databaseMain, i.databaseSize, i.predecessor, i.evidence,
         i.generatedAt, i.preflightAt)
  }

  lemma PredecessorMeans(alias: string, p: Predecessor)
    requires IsAlias(alias)
    ensures NormalizePredecessor(OrdinalOf(alias), p).Ok? <==> GoodPredecessor(alias, p)
    ensures GoodPredecessor(alias, p) ==> NormalizePredecessor(OrdinalOf(alias), p).value == p
  {
    AliasRoundTrip(1, alias);
  }

  // The first thing wrong with a target.
  function TargetFault(t: Target): Option<Error> {
    if !IsAlias(t.alias) then Some(AliasInvalid)
    else if !IsIdentifier(t.id) then Some(IdentifierInvalid)
    else if t.action != "DISPOSE_OBSOLETE_CLOSED_CANDIDATE" then Some(ActionInvalid)
    else if t.bucket != "HISTORICAL_PENDING_DISPOSITION" then Some(BucketInvalid)
    else if !IsSha(t.fingerprint) then Some(ShaInvalid("DEAD_LETTER_FINGERPRINT"))
    else if !IsSha(t.version) then Some(ShaInvalid("CANDIDATE_VERSION"))
    else None
  }

  lemma TargetMeans(t: Target)
    ensures NormalizeTarget(t).Ok? <==> GoodTarget(t)
    ensures NormalizeTarget(t).Err? ==> TargetFault(t) == Some(NormalizeTarget(t).error)
    ensures GoodTarget(t) ==> NormalizeTarget(t).value == t
  {
  }

  // A build succeeds exactly on well-formed inputs, and then says just what it was given.
  lemma BuildMeans(t: Target, i: Inputs, digest: Document -> string, parse: string -> Option<int>)
    ensures Build(t, i, digest, parse).Ok? <==> Buildable(t, i, parse)
    ensures Buildable(t, i, parse) ==>
              IsAlias(t.alias)
              && Build(t, i, digest, parse).value
                 == Binding(BodyFor(t, i, digest), digest(BodyDoc(BodyFor(t, i, digest))))
  {
    TargetMeans(t);
    if IsAlias(t.alias) {
      PredecessorMeans(t.alias, i.predecessor);
    }
  }

  // The texts agree up to `k`, and there the first one ends or has the smaller character.
  ghost predicate DecidedAt(a: string, b: string, k: nat) {
    && k <= |a| && k <= |b| && (forall i :: 0 <= i < k ==> a[i] == b[i])
    && (k == |a| || (k < |b| && a[k] < b[k]))
  }

  lemma {:induction false} AtMostDecided(a: string, b: string) returns (k: nat)
    requires AtMost(a, b)
    ensures DecidedAt(a, b, k)
    decreases |a|
  {
    k := 0;
    if a != [] && a[0] == b[0] {
      k := AtMostDecided(a[1..], b[1..]);
      k := k + 1;
    }
  }

  lemma {:induction false} DecidedAtMost(a: string, b: string, k: nat)
    requires DecidedAt(a, b, k)
    ensures AtMost(a, b)
    decreases |a|
  {
    if k > 0 {
      DecidedAtMost(a[1..], b[1..], k - 1);
    }
  }

  // The order of identifiers is that of their characters, up to the first place where two differ.
  lemma AtMostMeans(a: string, b: string)
    ensures AtMost(a, b) <==> exists k: nat :: DecidedAt(a, b, k)
  {
    if AtMost(a, b) {
      var k := AtMostDecided(a, b);
    }
    if exists k: nat :: DecidedAt(a, b, k) {
      var k: nat :| DecidedAt(a, b, k);
      DecidedAtMost(a, b, k);
    }
  }

  lemma HexDigit(c: char)
    ensures c in "0123456789abcdef" <==> '0' <= c <= '9' || 'a' <= c <= 'f'
  {
    var digits := "0123456789abcdef";
    if '0' <= c <= '9' {
      assert digits[c as int - 48] == c;
    } else if 'a' <= c <= 'f' {
      assert digits[c as int - 87] == c;
    }
  }

  // A SHA-256 text is 64 lower-case hexadecimal digits; an identifier fits in 512 characters and has
  // no white space or control character.
  lemma TextForms(s: string)
    ensures IsSha(s) <==> |s| == 64 && forall c :: c in s ==> c in "0123456789abcdef"
    ensures IsIdentifier(s) <==> 1 <= |s| < 513 && forall c :: c in s ==> !IsBlank(c)
  {
    forall c {
      HexDigit(c);
    }
    if |s| == 64 && forall c :: c in s ==> c in "0123456789abcdef" {
      forall i | 0 <= i < 64 ensures '0' <= s[i] <= '9' || 'a' <= s[i] <= 'f' {
        assert s[i] in s;
      }
    }
    if forall c :: c in s ==> !IsBlank(c) {
      forall i | 0 <= i < |s| ensures !IsBlank(s[i]) {
        assert s[i] in s;
      }
    }
  }
}
