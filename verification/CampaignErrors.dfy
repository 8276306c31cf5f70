// Which error refused evidence is refused with: that of the first rule it breaks.

module CampaignErrors {
  import opened CampaignBinding
  import opened CampaignEvidence

  function When(broken: bool, error: Error): Option<Error> {
    if broken then Some(error) else None
  }

  // ---- validating a binding ----------------------------------------------------------------------

  // The rules in their order, each with what breaks it.
  function BodyRule(n: nat, b: Body, e: Expected, digest: Document -> string): Option<Error> {
    match n
    case 0 => When(b.contract != "fast0-incremental-dead-letter-campaign-apply-binding.v1", ContractInvalid)
    case 1 => When(!IsAlias(e.alias), AliasInvalid)
    case 2 => When(!IsIdentifier(e.id), IdentifierInvalid)
    case 3 => When(!IsSha(e.fingerprint), ShaInvalid("EXPECTED_DEAD_LETTER_FINGERPRINT"))
    case 4 => When(!IsSha(e.version), ShaInvalid("EXPECTED_CANDIDATE_VERSION"))
    case 5 => When(b.alias != e.alias, TargetMismatch("ALIAS"))
    case 6 => When(IsAlias(e.alias) && b.ordinal != OrdinalOf(e.alias), TargetMismatch("ORDINAL"))
    case 7 => When(b.action != "DISPOSE_OBSOLETE_CLOSED_CANDIDATE", TargetMismatch("ACTION"))
    case 8 => When(b.bucket != "HISTORICAL_PENDING_DISPOSITION", TargetMismatch("BUCKET"))
    case 9 => When(b.idSha != digest(Text(e.id)), TargetMismatch("DEAD_LETTER_ID_SHA256"))
    case 10 => When(b.fingerprint != e.fingerprint, TargetMismatch("DEAD_LETTER_FINGERPRINT"))
    case 11 => When(b.version != e.version, TargetMismatch("CANDIDATE_VERSION"))
    case 12 => When(!IsSha(b.plan), ShaInvalid("SOURCE_PLAN_REPORT_SHA256"))
    case 13 => When(!IsSha(b.manifest), ShaInvalid("PRIVATE_MANIFEST_SHA256"))
    case 14 => When(!IsSha(b.targets), ShaInvalid("TARGET_SET_SHA256"))
    case 15 => When(!IsSha(b.preflight), ShaInvalid("APPROVED_PREFLIGHT_REPORT_SHA256"))
    case 16 => When(!IsSha(b.databaseMain), ShaInvalid("APPROVED_DATABASE_MAIN_SHA256"))
    case _ => None
  }

  function PredecessorRule(n: nat, alias: string, p: Predecessor): Option<Error> {
    match n
    case 0 => When(alias == "U01" && p != Predecessor(None, None, None), FirstPredecessorForbidden)
    case 1 => When(alias != "U01" && p.kind != Some("CAMPAIGN_APPLY_REPORT"), PredecessorKindInvalid)
    case 2 => When(alias != "U01" && !(p.report.Some? && IsSha(p.report.value)), ShaInvalid("PREDECESSOR_REPORT_SHA256"))
    case 3 => When(alias != "U01" && !(p.chain.Some? && IsSha(p.chain.value)), ShaInvalid("PREDECESSOR_CHAIN_SHA256"))
    case _ => None
  }

  function EvidenceRule(n: nat, b: Binding, e: Expected, notAfter: int, digest: Document -> string,
                        parse: string -> Option<int>): Option<Error> {
    var (made, before) := (parse(b.body.generatedAt), parse(b.body.preflightAt));
    match n
    case 0 => When(!IsSha(e.evidence), ShaInvalid("EVIDENCE_SHA256"))
    case 1 => When(b.body.evidence != e.evidence, EvidenceMismatch)
    case 2 => When(made.None?, TimestampInvalid("GENERATED_AT"))
    case 3 => When(before.None?, TimestampInvalid("PREFLIGHT_GENERATED_AT"))
    case 4 => When(made.Some? && before.Some? && !(before.value <= made.value <= notAfter), TimeOrderInvalid)
    case 5 => When(!IsSha(b.approval), ShaInvalid("APPROVAL_BINDING_SHA256"))
    case 6 => When(b.approval != digest(BodyDoc(b.body)), DigestInvalid)
    case _ => None
  }

  function Rule(n: nat, b: Binding, e: Expected, notAfter: int, digest: Document -> string,
                parse: string -> Option<int>): Option<Error> {
    if n < 17 then BodyRule(n, b.body, e, digest)
    else if n == 17 then When(b.body.databaseSize <= 0, SizeInvalid)
    else if n < 22 then PredecessorRule(n - 18, e.alias, b.body.predecessor)
    else EvidenceRule(n - 22, b, e, notAfter, digest, parse)
  }

  // The rules from `lo` on and before `hi` hold, or the first of them that does not gives the error.
  ghost predicate Stage(lo: nat, hi: nat, n: nat, b: Binding, e: Expected, notAfter: int, digest: Document -> string,
                        parse: string -> Option<int>, error: Option<Error>) {
    && lo <= n <= hi && (n == hi <==> error == None)
    && (n < hi ==> Rule(n, b, e, notAfter, digest, parse) == error)
    && forall m: nat :: lo <= m < n ==> Rule(m, b, e, notAfter, digest, parse) == None
  }

  function ErrorOf<T>(r: Result<T>): Option<Error> {
    if r.Ok? then None else Some(r.error)
  }

  lemma TargetStage(b: Binding, e: Expected, notAfter: int, digest: Document -> string, parse: string -> Option<int>)
    returns (n: nat)
    requires IsAlias(e.alias)
    ensures Stage(5, 12, n, b, e, notAfter, digest, parse, ErrorOf(CheckTarget(b.body, e, OrdinalOf(e.alias), digest)))
  {
    var c := b.body;
    n := if c.alias != e.alias then 5
         else if c.ordinal != OrdinalOf(e.alias) then 6
         else if c.action != ACTION then 7
         else if c.bucket != BUCKET then 8
         else if c.idSha != digest(Text(e.id)) then 9
         else if c.fingerprint != e.fingerprint then 10
         else if c.version != e.version then 11
         else 12;
  }

  lemma ShasStage(b: Binding, e: Expected, notAfter: int, digest: Document -> string, parse: string -> Option<int>)
    returns (n: nat)
    ensures Stage(12, 17, n, b, e, notAfter, digest, parse, ErrorOf(CheckShas(b.body)))
  {
    var c := b.body;
    n := if !IsSha(c.plan) then 12
         else if !IsSha(c.manifest) then 13
         else if !IsSha(c.targets) then 14
         else if !IsSha(c.preflight) then 15
         else if !IsSha(c.databaseMain) then 16
         else 17;
  }

  lemma PredecessorStage(b: Binding, e: Expected, notAfter: int, digest: Document -> string, parse: string -> Option<int>)
    returns (n: nat)
    requires IsAlias(e.alias)
    ensures Stage(18, 22, n, b, e, notAfter, digest, parse,
                  ErrorOf(NormalizePredecessor(OrdinalOf(e.alias), b.body.predecessor)))
  {
    var p := b.body.predecessor;
    AliasRoundTrip(1, e.alias);
    n := if OrdinalOf(e.alias) == 1 then if p == Predecessor(None, None, None) then 22 else 18
         else if p.kind != Some(PREDECESSOR_KIND) then 19
         else if !(p.report.Some? && IsSha(p.report.value)) then 20
         else if !(p.chain.Some? && IsSha(p.chain.value)) then 21
         else 22;
  }

  lemma TimesStage(b: Binding, e: Expected, notAfter: int, digest: Document -> string, parse: string -> Option<int>)
    returns (n: nat)
    ensures Stage(24, 27, n, b, e, notAfter, digest, parse, ErrorOf(CheckTimes(b.body, parse, notAfter)))
  {
    var made, before := parse(b.body.generatedAt), parse(b.body.preflightAt);
    n := if made == None then 24
         else if before == None then 25
         else if !(before.value <= made.value <= notAfter) then 26
         else 27;
  }

  lemma OtherStages(b: Binding, e: Expected, notAfter: int, digest: Document -> string, parse: string -> Option<int>)
    returns (size: nat, evidence: nat, seal: nat)
    ensures Stage(17, 18, size, b, e, notAfter, digest, parse, When(b.body.databaseSize <= 0, SizeInvalid))
    ensures Stage(22, 24, evidence, b, e, notAfter, digest, parse,
                  if !IsSha(e.evidence) then Some(ShaInvalid("EVIDENCE_SHA256"))
                  else When(b.body.evidence != e.evidence, EvidenceMismatch))
    ensures Stage(27, 29, seal, b, e, notAfter, digest, parse,
                  if !IsSha(b.approval) then Some(ShaInvalid("APPROVAL_BINDING_SHA256"))
                  else When(b.approval != digest(BodyDoc(b.body)), DigestInvalid))
  {
    size := if b.body.databaseSize <= 0 then 17 else 18;
    evidence := if !IsSha(e.evidence) then 22 else if b.body.evidence != e.evidence then 23 else 24;
    seal := if !IsSha(b.approval) then 27 else if b.approval != digest(BodyDoc(b.body)) then 28 else 29;
  }

  function Earlier(first: Option<Error>, second: Option<Error>): Option<Error> {
    if first.Some? then first else second
  }

  // Two stages in a row are one, with the error of the first that fails.
  lemma StagesJoin(lo: nat, mid: nat, hi: nat, n: nat, m: nat, b: Binding, e: Expected, notAfter: int,
                   digest: Document -> string, parse: string -> Option<int>, first: Option<Error>, second: Option<Error>)
    requires Stage(lo, mid, n, b, e, notAfter, digest, parse, first)
    requires Stage(mid, hi, m, b, e, notAfter, digest, parse, second)
    ensures Stage(lo, hi, if first.Some? then n else m, b, e, notAfter, digest, parse, Earlier(first, second))
  {
  }

  lemma HeadStage(b: Binding, e: Expected, notAfter: int, digest: Document -> string, parse: string -> Option<int>)
    returns (n: nat, error: Option<Error>)
    ensures Stage(0, 5, n, b, e, notAfter, digest, parse, error)
    ensures error.Some? ==> Validate(Presented(b), e, notAfter, digest, parse) == Err(error.value)
    ensures error.None? ==> && b.body.contract == BINDING_CONTRACT && IsAlias(e.alias) && IsIdentifier(e.id)
                            && IsSha(e.fingerprint) && IsSha(e.version)
  {
    n := if b.body.contract != BINDING_CONTRACT then 0
         else if !IsAlias(e.alias) then 1
         else if !IsIdentifier(e.id) then 2
         else if !IsSha(e.fingerprint) then 3
         else if !IsSha(e.version) then 4
         else 5;
    error := Rule(n, b, e, notAfter, digest, parse);
    if n == 5 {
      error := None;
    }
  }

  // What validation comes to, once the head of the checks has passed.
  lemma ValidateAfterHead(b: Binding, e: Expected, notAfter: int, digest: Document -> string, parse: string -> Option<int>)
    requires b.body.contract == BINDING_CONTRACT && IsAlias(e.alias) && IsIdentifier(e.id)
    requires IsSha(e.fingerprint) && IsSha(e.version)
    ensures var error := ErrorOf(Validate(Presented(b), e, notAfter, digest, parse));
            var target, shas := ErrorOf(CheckTarget(b.body, e, OrdinalOf(e.alias), digest)), ErrorOf(CheckShas(b.body));
            var predecessor := ErrorOf(NormalizePredecessor(OrdinalOf(e.alias), b.body.predecessor));
            var times := ErrorOf(CheckTimes(b.body, parse, notAfter));
            error == if target.Some? then target
                     else if shas.Some? then shas
                     else if b.body.databaseSize <= 0 then Some(SizeInvalid)
                     else if predecessor.Some? then predecessor
                     else if !IsSha(e.evidence) then Some(ShaInvalid("EVIDENCE_SHA256"))
                     else if b.body.evidence != e.evidence then Some(EvidenceMismatch)
                     else if times.Some? then times
                     else if !IsSha(b.approval) then Some(ShaInvalid("APPROVAL_BINDING_SHA256"))
                     else if b.approval != digest(BodyDoc(b.body)) then Some(DigestInvalid)
                     else None
  {
    CheckTargetMeans(b.body, e, OrdinalOf(e.alias), digest);
    PredecessorMeans(e.alias, b.body.predecessor);
  }

  // A presented binding is accepted exactly when it breaks no rule, and else refused with the error of
  // the first rule it breaks.
  lemma FirstRuleDecides(b: Binding, e: Expected, notAfter: int, digest: Document -> string, parse: string -> Option<int>)
    returns (n: nat)
    ensures Stage(0, 29, n, b, e, notAfter, digest, parse, ErrorOf(Validate(Presented(b), e, notAfter, digest, parse)))
  {
    var head: Option<Error>;
    n, head := HeadStage(b, e, notAfter, digest, parse);
    if head == None {
      n := TailStages(b, e, notAfter, digest, parse);
      StagesJoin(0, 5, 29, 5, n, b, e, notAfter, digest, parse, None, ErrorOf(Validate(Presented(b), e, notAfter, digest, parse)));
    }
  }

  lemma TailStages(b: Binding, e: Expected, notAfter: int, digest: Document -> string, parse: string -> Option<int>)
    returns (n: nat)
    requires b.body.contract == BINDING_CONTRACT && IsAlias(e.alias) && IsIdentifier(e.id)
    requires IsSha(e.fingerprint) && IsSha(e.version)
    ensures Stage(5, 29, n, b, e, notAfter, digest, parse, ErrorOf(Validate(Presented(b), e, notAfter, digest, parse)))
  {
    var target, shas := ErrorOf(CheckTarget(b.body, e, OrdinalOf(e.alias), digest)), ErrorOf(CheckShas(b.body));
    var predecessor := ErrorOf(NormalizePredecessor(OrdinalOf(e.alias), b.body.predecessor));
    var times := ErrorOf(CheckTimes(b.body, parse, notAfter));
    var size := When(b.body.databaseSize <= 0, SizeInvalid);
    var evidence := if !IsSha(e.evidence) then Some(ShaInvalid("EVIDENCE_SHA256"))
                    else When(b.body.evidence != e.evidence, EvidenceMismatch);
    var seal := if !IsSha(b.approval) then Some(ShaInvalid("APPROVAL_BINDING_SHA256"))
                else When(b.approval != digest(BodyDoc(b.body)), DigestInvalid);
    ValidateAfterHead(b, e, notAfter, digest, parse);
    var n1 := TargetStage(b, e, notAfter, digest, parse);
    var n2 := ShasStage(b, e, notAfter, digest, parse);
    var n4 := PredecessorStage(b, e, notAfter, digest, parse);
    var n6 := TimesStage(b, e, notAfter, digest, parse);
    var n3, n5, n7 := OtherStages(b, e, notAfter, digest, parse);
    StagesJoin(24, 27, 29, n6, n7, b, e, notAfter, digest, parse, times, seal);
    var late, k5 := Earlier(times, seal), if times.Some? then n6 else n7;
    StagesJoin(22, 24, 29, n5, k5, b, e, notAfter, digest, parse, evidence, late);
    var later, k4 := Earlier(evidence, late), if evidence.Some? then n5 else k5;
    StagesJoin(18, 22, 29, n4, k4, b, e, notAfter, digest, parse, predecessor, later);
    var third, k3 := Earlier(predecessor, later), if predecessor.Some? then n4 else k4;
    StagesJoin(17, 18, 29, n3, k3, b, e, notAfter, digest, parse, size, third);
    var second, k2 := Earlier(size, third), if size.Some? then n3 else k3;
    StagesJoin(12, 17, 29, n2, k2, b, e, notAfter, digest, parse, shas, second);
    var first, k1 := Earlier(shas, second), if shas.Some? then n2 else k2;
    StagesJoin(5, 12, 29, n1, k1, b, e, notAfter, digest, parse, target, first);
    n := if target.Some? then n1 else k1;
  }

  // ---- building one ------------------------------------------------------------------------------

  function PredecessorFault(alias: string, p: Predecessor): Option<Error> {
    Earlier(PredecessorRule(0, alias, p),
            Earlier(PredecessorRule(1, alias, p), Earlier(PredecessorRule(2, alias, p), PredecessorRule(3, alias, p))))
  }

  function InputsFault(i: Inputs, parse: string -> Option<int>): Option<Error> {
    var (made, before) := (parse(i.generatedAt), parse(i.preflightAt));
    if i.databaseSize <= 0 then Some(SizeInvalid)
    else if made.None? then Some(TimestampInvalid("GENERATED_AT"))
    else if before.None? then Some(TimestampInvalid("PREFLIGHT_GENERATED_AT"))
    else if before.value > made.value then Some(TimeOrderInvalid)
    else if !IsSha(i.plan) then Some(ShaInvalid("SOURCE_PLAN_REPORT_SHA256"))
    else if !IsSha(i.manifest) then Some(ShaInvalid("PRIVATE_MANIFEST_SHA256"))
    else if !IsSha(i.targets) then Some(ShaInvalid("TARGET_SET_SHA256"))
    else if !IsSha(i.preflight) then Some(ShaInvalid("APPROVED_PREFLIGHT_REPORT_SHA256"))
    else if !IsSha(i.databaseMain) then Some(ShaInvalid("APPROVED_DATABASE_MAIN_SHA256"))
    else if !IsSha(i.evidence) then Some(ShaInvalid("EVIDENCE_SHA256"))
    else None
  }

  // A build fails for its target, then for its predecessor, then for what else it is given.
  lemma BuildFails(t: Target, i: Inputs, digest: Document -> string, parse: string -> Option<int>)
    ensures ErrorOf(Build(t, i, digest, parse))
         == Earlier(TargetFault(t), Earlier(PredecessorFault(t.alias, i.predecessor), InputsFault(i, parse)))
  {
    TargetMeans(t);
    if IsAlias(t.alias) {
      AliasRoundTrip(1, t.alias);
    }
  }
}
