// What accepted campaign evidence proves: bindings, target manifests and chains of links.

module CampaignEvidence {
  import opened CampaignBinding

  // ---- bindings ------------------------------------------------------------------------------------

  // What the expectations and the presented body must satisfy before the digest is compared.
  predicate Acceptable(b: Body, e: Expected, notAfter: int, digest: Document -> string, parse: string -> Option<int>) {
    && Buildable(TargetOf(e), InputsOf(b), parse)
    && InTime(b, parse, notAfter)
    && b == BodyFor(TargetOf(e), InputsOf(b), digest)
    && b.evidence == e.evidence
  }

  lemma CheckTargetMeans(b: Body, e: Expected, ordinal: nat, digest: Document -> string)
    ensures CheckTarget(b, e, ordinal, digest).Ok?
       <==> && b.alias == e.alias && b.ordinal == ordinal && b.action == ACTION && b.bucket == BUCKET
            && b.idSha == digest(Text(e.id)) && b.fingerprint == e.fingerprint && b.version == e.version
  {
  }

  lemma CheckShasMeans(b: Body)
    ensures CheckShas(b).Ok?
       <==> IsSha(b.plan) && IsSha(b.manifest) && IsSha(b.targets) && IsSha(b.preflight) && IsSha(b.databaseMain)
  {
  }

  lemma CheckTimesMeans(b: Body, parse: string -> Option<int>, notAfter: int)
    ensures CheckTimes(b, parse, notAfter).Ok?
       <==> && parse(b.generatedAt).Some? && parse(b.preflightAt).Some?
            && parse(b.preflightAt).value <= parse(b.generatedAt).value <= notAfter
  {
  }

  lemma ValidateMeans(b: Binding, e: Expected, notAfter: int, digest: Document -> string, parse: string -> Option<int>)
    requires GivesSha(digest)
    ensures Validate(Presented(b), e, notAfter, digest, parse).Ok?
       <==> Acceptable(b.body, e, notAfter, digest, parse) && b.approval == digest(BodyDoc(b.body))
    ensures Validate(Presented(b), e, notAfter, digest, parse).Ok? ==>
              Validate(Presented(b), e, notAfter, digest, parse).value == b
  {
    CheckShasMeans(b.body);
    CheckTimesMeans(b.body, parse, notAfter);
    if IsAlias(e.alias) {
      var ordinal := OrdinalOf(e.alias);
      CheckTargetMeans(b.body, e, ordinal, digest);
      PredecessorMeans(e.alias, b.body.predecessor);
    }
    assert IsSha(digest(BodyDoc(b.body)));
  }

  // Validation accepts a presented binding, unchanged, exactly when building it from the expected
  // target and the binding's own statements gives that very binding, in time.
  lemma ValidateIffBuilt(p: Presented, e: Expected, notAfter: int, digest: Document -> string, parse: string -> Option<int>, b: Binding)
    requires GivesSha(digest)
    ensures Validate(p, e, notAfter, digest, parse) == Ok(b)
       <==> && p == Presented(b)
            && b.body.evidence == e.evidence
            && Build(TargetOf(e), InputsOf(b.body), digest, parse) == Ok(b)
            && InTime(b.body, parse, notAfter)
  {
    BuildMeans(TargetOf(e), InputsOf(b.body), digest, parse);
    if p.Presented? {
      ValidateMeans(p.binding, e, notAfter, digest, parse);
    }
  }

  // Every binding that was built is accepted for its own target, until its own time has passed.
  lemma BuiltIsAccepted(t: Target, i: Inputs, notAfter: int, digest: Document -> string, parse: string -> Option<int>)
    requires GivesSha(digest) && Build(t, i, digest, parse).Ok?
    ensures var b := Build(t, i, digest, parse).value;
            var e := Expected(t.alias, t.id, t.fingerprint, t.version, i.evidence);
            Validate(Presented(b), e, notAfter, digest, parse).Ok? <==> InTime(b.body, parse, notAfter)
  {
    var e := Expected(t.alias, t.id, t.fingerprint, t.version, i.evidence);
    BuildMeans(t, i, digest, parse);
    assert TargetOf(e) == t;
    var b := Build(t, i, digest, parse).value;
    assert InputsOf(b.body) == i;
    ValidateMeans(b, e, notAfter, digest, parse);
  }

  // Two accepted bindings under one approval digest are the same, or two documents collide.
  lemma ApprovalPinsBinding(a: Binding, b: Binding, ea: Expected, eb: Expected, na: int, nb: int,
                            digest: Document -> string, parse: string -> Option<int>)
    requires GivesSha(digest)
    ensures && Validate(Presented(a), ea, na, digest, parse).Ok?
            && Validate(Presented(b), eb, nb, digest, parse).Ok?
            && a.approval == b.approval
            ==> || (&& a == b && ea.evidence == eb.evidence && ea.alias == eb.alias
                    && (ea.id == eb.id || Collide(digest, Text(ea.id), Text(eb.id))))
                || Collide(digest, BodyDoc(a.body), BodyDoc(b.body))
  {
    ValidateMeans(a, ea, na, digest, parse);
    ValidateMeans(b, eb, nb, digest, parse);
  }

  // ---- target manifests ----------------------------------------------------------------------------

  predicate Sorted(items: seq<Target>) {
    forall i :: 0 < i < |items| ==> AtMost(items[i - 1].id, items[i].id)
  }

  predicate GoodItem(items: seq<Target>, i: nat)
    requires i < |items| && i < 99
  {
    GoodTarget(items[i]) && items[i].alias == AliasFor(i + 1)
  }

  predicate DistinctIds(items: seq<Target>) {
    forall i, j :: 0 <= i < j < |items| ==> items[i].id != items[j].id
  }

  predicate GoodManifest(items: seq<Target>, expected: string, digest: Document -> string) {
    && |items| == TARGET_COUNT
    && (forall i :: 0 <= i < |items| ==> GoodItem(items, i))
    && DistinctIds(items)
    && Sorted(items)
    && IsSha(expected)
    && digest(TargetSet(items)) == expected
  }

  // What is wrong with an item in its place, if anything.
  function ItemFault(items: seq<Target>, i: nat): Option<Error>
    requires i < |items| && i < 99
  {
    if TargetFault(items[i]).Some? then TargetFault(items[i])
    else if items[i].alias != AliasFor(i + 1) then Some(AliasSequenceInvalid)
    else if exists j :: 0 <= j < i && items[j].id == items[i].id then Some(DuplicateIdentifier)
    else None
  }

  // The error of a manifest of the right length: its first faulty item's, or else that of the whole.
  ghost predicate FirstFault(items: seq<Target>, error: Error)
    requires |items| < 99
  {
    if forall i :: 0 <= i < |items| ==> ItemFault(items, i) == None then
      error == if !Sorted(items) then OrderInvalid else DigestInvalid
    else
      exists i :: && 0 <= i < |items| && ItemFault(items, i) == Some(error)
                  && forall j :: 0 <= j < i ==> ItemFault(items, j) == None
  }

  // Items already normalised, with no identifier twice.
  ghost predicate GoodSoFar(items: seq<Target>, n: nat)
    requires n <= |items| && |items| < 99
  {
    (forall i :: 0 <= i < n ==> GoodItem(items, i) && ItemFault(items, i) == None) && DistinctIds(items[..n])
  }

  function IdsOf(items: seq<Target>): set<string> {
    set t | t in items :: t.id
  }

  // Adding an item whose identifier was seen breaks distinctness, and only that does.
  lemma IdSeen(items: seq<Target>, i: nat, identifiers: set<string>)
    requires i < |items| && DistinctIds(items[..i]) && identifiers == IdsOf(items[..i])
    ensures items[i].id in identifiers ==> !DistinctIds(items)
    ensures items[i].id !in identifiers ==> DistinctIds(items[..i + 1])
    ensures items[i].id in identifiers <==> exists j :: 0 <= j < i && items[j].id == items[i].id
    ensures IdsOf(items[..i + 1]) == identifiers + {items[i].id}
  {
    assert items[..i + 1] == items[..i] + [items[i]];
    if items[i].id in identifiers {
      var t :| t in items[..i] && t.id == items[i].id;
      var k :| 0 <= k < i && items[..i][k] == t;
      assert items[k].id == items[i].id;
    } else {
      forall k | 0 <= k < i ensures items[k].id != items[i].id {
        assert items[..i][k] in items[..i];
      }
    }
  }

  method ValidateManifest(raw: seq<Target>, expected: string, digest: Document -> string) returns (r: Result<seq<Target>>)
    ensures r.Ok? <==> GoodManifest(raw, expected, digest)
    ensures r.Ok? ==> r.value == raw
    ensures !IsSha(expected) ==> r == Err(ShaInvalid("EXPECTED_TARGET_SET_SHA256"))
    ensures IsSha(expected) && |raw| != TARGET_COUNT ==> r == Err(CountMismatch)
    ensures r.Err? && IsSha(expected) && |raw| == TARGET_COUNT ==> FirstFault(raw, r.error)
  {
    if !IsSha(expected) {
      return Err(ShaInvalid("EXPECTED_TARGET_SET_SHA256"));
    }
    if |raw| != TARGET_COUNT {
      return Err(CountMismatch);
    }
    var items: seq<Target> := [];
    var identifiers: set<string> := {};
    for i := 0 to |raw|
      invariant items == raw[..i] && GoodSoFar(raw, i)
      invariant identifiers == IdsOf(raw[..i])
    {
      TargetMeans(raw[i]);
      var n := NormalizeTarget(raw[i]);
      if n.Err? {
        assert !GoodItem(raw, i) && ItemFault(raw, i) == Some(n.error);
        return Err(n.error);
      }
      var item := n.value;
      if item.alias != AliasFor(i + 1) {
        assert !GoodItem(raw, i) && ItemFault(raw, i) == Some(AliasSequenceInvalid);
        return Err(AliasSequenceInvalid);
      }
      IdSeen(raw, i, identifiers);
      if item.id in identifiers {
        assert ItemFault(raw, i) == Some(DuplicateIdentifier);
        return Err(DuplicateIdentifier);
      }
      identifiers := identifiers + {item.id};
      items := items + [item];
    }
    assert raw[..|raw|] == raw;
    if !Sorted(items) {
      return Err(OrderInvalid);
    }
    if digest(TargetSet(items)) != expected {
      return Err(DigestInvalid);
    }
    return Ok(items);
  }

  // The alias fixes the place: an accepted manifest holds each alias once, in order.
  lemma ManifestAliases(items: seq<Target>, expected: string, digest: Document -> string, alias: string)
    requires GoodManifest(items, expected, digest) && IsAlias(alias)
    ensures forall i :: 0 <= i < |items| ==> (items[i].alias == alias <==> i == OrdinalOf(alias) - 1)
  {
    AliasRoundTrip(0, alias);
    forall i | 0 <= i < |items| ensures items[i].alias == alias <==> i == OrdinalOf(alias) - 1 {
      assert GoodItem(items, i);
      AliasRoundTrip(i + 1, items[i].alias);
    }
  }

  // ---- chains --------------------------------------------------------------------------------------

  datatype Entry = Entry(plan: string, targets: string, alias: string, approval: string, request: string, disposition: string)

  function LinkFor(e: Entry, predecessor: Option<string>): Result<Link> {
    var alias :- RequireAlias(e.alias);
    var ordinal := OrdinalOf(alias);
    :- Need(ordinal == 1 ==> predecessor.None?, FirstPredecessorForbidden);
    var before :- if ordinal == 1 then Ok(None) else RequireShaOption("PREDECESSOR_CHAIN_SHA256", predecessor);
    var plan :- RequireSha("SOURCE_PLAN_REPORT_SHA256", e.plan);
    var targets :- RequireSha("TARGET_SET_SHA256", e.targets);
    var approval :- RequireSha("APPROVAL_BINDING_SHA256", e.approval);
    var request :- RequireSha("REQUEST_ID_SHA256", e.request);
    var disposition :- RequireSha("DISPOSITION_ID_SHA256", e.disposition);
    Ok(Link(plan, targets, alias, ordinal, before, approval, request, disposition))
  }

  function ChainSha(e: Entry, predecessor: Option<string>, digest: Document -> string): Result<string> {
    var link :- LinkFor(e, predecessor);
    Ok(digest(LinkDoc(link)))
  }

  // The chain digest after a history of steps, each linked to the one before.
  function HistorySha(history: seq<Entry>, digest: Document -> string): Result<string>
    requires history != []
  {
    var n := |history| - 1;
    if n == 0 then ChainSha(history[0], None, digest)
    else
      var before :- HistorySha(history[..n], digest);
      ChainSha(history[n], Some(before), digest)
  }

  // The link document of the last step of a history.
  function LastLink(history: seq<Entry>, digest: Document -> string): Link
    requires history != [] && HistorySha(history, digest).Ok?
  {
    var n := |history| - 1;
    var before := if n == 0 then None else Some(HistorySha(history[..n], digest).value);
    LinkFor(history[n], before).value
  }

  lemma LinkKeeps(e: Entry, predecessor: Option<string>)
    requires LinkFor(e, predecessor).Ok?
    ensures var l := LinkFor(e, predecessor).value;
            && l.predecessor == predecessor
            && e == Entry(l.plan, l.targets, l.alias, l.approval, l.request, l.disposition)
            && (l.ordinal == 1 <==> predecessor.None?)
  {
  }

  lemma LastLinkMeans(history: seq<Entry>, digest: Document -> string)
    requires history != [] && HistorySha(history, digest).Ok?
    ensures HistorySha(history, digest).value == digest(LinkDoc(LastLink(history, digest)))
    ensures var n := |history| - 1;
            var l := LastLink(history, digest);
            && history[n] == Entry(l.plan, l.targets, l.alias, l.approval, l.request, l.disposition)
            && (l.predecessor.None? <==> n == 0)
            && (n > 0 ==> HistorySha(history[..n], digest) == Ok(l.predecessor.value))
  {
    var n := |history| - 1;
    var before := if n == 0 then None else Some(HistorySha(history[..n], digest).value);
    LinkKeeps(history[n], before);
  }

  // Somewhere along two histories two different link documents have one digest.
  ghost predicate ChainsCollide(a: seq<Entry>, b: seq<Entry>, digest: Document -> string)
    requires a != [] && b != [] && HistorySha(a, digest).Ok? && HistorySha(b, digest).Ok?
    decreases |a|
  {
    || Collide(digest, LinkDoc(LastLink(a, digest)), LinkDoc(LastLink(b, digest)))
    || (|a| > 1 && |b| > 1
        && HistorySha(a[..|a| - 1], digest).Ok? && HistorySha(b[..|b| - 1], digest).Ok?
        && ChainsCollide(a[..|a| - 1], b[..|b| - 1], digest))
  }

  // Equal chain digests mean equal histories, of any length, unless the digest itself collides
  // on two of their links.
  lemma {:induction false} EqualChainsEqualHistories(a: seq<Entry>, b: seq<Entry>, digest: Document -> string)
    requires a != [] && b != []
    requires HistorySha(a, digest).Ok? && HistorySha(a, digest) == HistorySha(b, digest)
    ensures a == b || ChainsCollide(a, b, digest)
    decreases |a|
  {
    LastLinkMeans(a, digest);
    LastLinkMeans(b, digest);
    var la, lb := LastLink(a, digest), LastLink(b, digest);
    if la == lb {
      var m, n := |a| - 1, |b| - 1;
      assert a == a[..m] + [a[m]] && b == b[..n] + [b[n]];
      if m > 0 {
        EqualChainsEqualHistories(a[..m], b[..n], digest);
      }
    }
  }

  // A history starts with the first step, and only there.
  lemma {:induction false} FirstStepFirst(history: seq<Entry>, digest: Document -> string, k: nat)
    requires history != [] && HistorySha(history, digest).Ok? && k < |history|
    ensures IsAlias(history[k].alias) && (OrdinalOf(history[k].alias) == 1 <==> k == 0)
    decreases |history|
  {
    var n := |history| - 1;
    if k < n {
      FirstStepFirst(history[..n], digest, k);
    } else {
      LastLinkMeans(history, digest);
      LinkKeeps(history[n], if n == 0 then None else Some(HistorySha(history[..n], digest).value));
    }
  }

  predicate GoodEntry(e: Entry) {
    && IsAlias(e.alias) && IsSha(e.plan) && IsSha(e.targets)
    && IsSha(e.approval) && IsSha(e.request) && IsSha(e.disposition)
  }

  lemma LinkMeans(e: Entry, predecessor: Option<string>)
    ensures LinkFor(e, predecessor).Ok? <==>
            && GoodEntry(e)
            && (if e.alias == "U01" then predecessor == None else predecessor.Some? && IsSha(predecessor.value))
  {
    AliasRoundTrip(1, e.alias);
  }

  // A well-formed step in its place: U01 first and nowhere else.
  predicate GoodStep(history: seq<Entry>, k: nat)
    requires k < |history|
  {
    GoodEntry(history[k]) && (history[k].alias == "U01" <==> k == 0)
  }

  lemma ChainStep(history: seq<Entry>, digest: Document -> string)
    requires |history| > 1 && GivesSha(digest)
    ensures var n := |history| - 1;
            HistorySha(history, digest).Ok? <==> HistorySha(history[..n], digest).Ok? && GoodStep(history, n)
  {
    var n := |history| - 1;
    if HistorySha(history[..n], digest).Ok? {
      ShaOfHistory(history[..n], digest);
      LinkMeans(history[n], Some(HistorySha(history[..n], digest).value));
    }
  }

  // A chain can be built exactly over well-formed steps, each in its place.
  lemma {:induction false} ChainIff(history: seq<Entry>, digest: Document -> string)
    requires history != [] && GivesSha(digest)
    ensures HistorySha(history, digest).Ok? <==> forall k :: 0 <= k < |history| ==> GoodStep(history, k)
    decreases |history|
  {
    var n := |history| - 1;
    if n == 0 {
      LinkMeans(history[0], None);
      assert GoodStep(history, 0) <==> HistorySha(history, digest).Ok?;
    } else {
      ChainStep(history, digest);
      ChainIff(history[..n], digest);
      var front := history[..n];
      forall k | 0 <= k < n ensures GoodStep(front, k) <==> GoodStep(history, k) {
        assert front[k] == history[k];
      }
      if forall k :: 0 <= k < n ==> GoodStep(history, k) {
        forall k | 0 <= k < |front| ensures GoodStep(front, k) {
          assert GoodStep(history, k);
        }
      }
    }
  }

  lemma ShaOfHistory(history: seq<Entry>, digest: Document -> string)
    requires history != [] && GivesSha(digest) && HistorySha(history, digest).Ok?
    ensures IsSha(HistorySha(history, digest).value)
  {
    LastLinkMeans(history, digest);
    assert IsSha(digest(LinkDoc(LastLink(history, digest))));
  }
}
