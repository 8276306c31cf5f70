// What the four-pass batch selector returns, and what a series of successful posts does.

module CoreIoSelection {
  import opened CoreIoEvents
  import opened CoreIoBuffer

  function Group(fast: bool): Test {
    if fast then IsFast else IsSlow
  }

  // The events of one group that match `t` and are not in `sel` yet, in queue order.
  function Candidates(q: seq<Event>, sel: seq<Event>, fast: bool, t: Test): (r: seq<Event>)
    ensures forall e :: e in r <==> e in q && e !in sel && Fast(e) == fast && Holds(t, e)
    ensures |r| <= |q|
  {
    if q == [] then []
    else if q[0] in sel || Fast(q[0]) != fast || !Holds(t, q[0]) then Candidates(q[1..], sel, fast, t)
    else [q[0]] + Candidates(q[1..], sel, fast, t)
  }

  function Room(items: int, free: int, available: nat): (n: nat)
    ensures n <= available
  {
    var n := Min(Min(items, free), available);
    if n < 0 then 0 else n
  }

  // The oldest candidates of a class, as many as its share and the batch leave room for.
  function Share(q: seq<Event>, sel: seq<Event>, fast: bool, t: Test, items: int, limit: int): (r: seq<Event>)
    ensures forall e :: e in r ==> e in q && e !in sel && Fast(e) == fast && Holds(t, e)
  {
    var c := Candidates(q, sel, fast, t);
    var r := c[..Room(items, limit - |sel|, |c|)];
    assert forall e :: e in r ==> e in c;
    r
  }

  lemma {:induction false} CandidatesSkip(q: seq<Event>, sel: seq<Event>, e: Event, fast: bool, t: Test)
    requires e !in q
    ensures Candidates(q, sel + [e], fast, t) == Candidates(q, sel, fast, t)
  {
    if q != [] {
      CandidatesSkip(q[1..], sel, e, fast, t);
    }
  }

  lemma ShareHead(q: seq<Event>, sel: seq<Event>, fast: bool, t: Test, items: int, limit: int)
    requires Distinct(q) && q != [] && |sel| < limit && items > 0
    requires q[0] !in sel && Fast(q[0]) == fast && Holds(t, q[0])
    ensures Share(q, sel, fast, t, items, limit)
         == [q[0]] + Share(q[1..], sel + [q[0]], fast, t, items - 1, limit)
  {
    assert q[0] !in q[1..];
    CandidatesSkip(q[1..], sel, q[0], fast, t);
    var rest := Candidates(q[1..], sel, fast, t);
    var n := Room(items - 1, limit - (|sel| + 1), |rest|);
    assert ([q[0]] + rest)[..n + 1] == [q[0]] + rest[..n];
  }

  lemma ShareSkip(q: seq<Event>, sel: seq<Event>, fast: bool, t: Test, items: int, limit: int)
    requires q != [] && (q[0] in sel || Fast(q[0]) != fast || !Holds(t, q[0]))
    ensures Share(q, sel, fast, t, items, limit) == Share(q[1..], sel, fast, t, items, limit)
  {
  }

  // One pass appends its share.
  lemma {:induction false} PassIsShare(q: seq<Event>, sel: seq<Event>, fast: bool, t: Test, items: int, limit: int)
    requires Distinct(q)
    ensures AddMatching(q, sel, fast, t, items, limit) == sel + Share(q, sel, fast, t, items, limit)
    decreases |q|
  {
    if q == [] || |sel| >= limit || items <= 0 {
      assert Share(q, sel, fast, t, items, limit) == [];
    } else if q[0] in sel || Fast(q[0]) != fast || !Holds(t, q[0]) {
      ShareSkip(q, sel, fast, t, items, limit);
      PassIsShare(q[1..], sel, fast, t, items, limit);
    } else {
      var more := sel + [q[0]];
      PassIsShare(q[1..], more, fast, t, items - 1, limit);
      ShareHead(q, sel, fast, t, items, limit);
      JoinOne(sel, q[0], Share(q[1..], more, fast, t, items - 1, limit));
    }
  }

  lemma JoinOne(a: seq<Event>, e: Event, b: seq<Event>)
    ensures a + [e] + b == a + ([e] + b)
  {
  }

  lemma {:induction false} CandidatesDistinct(q: seq<Event>, sel: seq<Event>, fast: bool, t: Test)
    requires Distinct(q)
    ensures Distinct(Candidates(q, sel, fast, t))
  {
    if q != [] {
      CandidatesDistinct(q[1..], sel, fast, t);
    }
  }

  ghost predicate PartialBatch(q: seq<Event>, sel: seq<Event>, fast: bool, limit: int) {
    && Distinct(sel)
    && |sel| <= limit
    && forall e :: e in sel ==> e in q && Fast(e) == fast
  }

  lemma PassKeeps(q: seq<Event>, sel: seq<Event>, fast: bool, t: Test, items: int, limit: int)
    requires Distinct(q) && PartialBatch(q, sel, fast, limit)
    ensures var r := AddMatching(q, sel, fast, t, items, limit);
            && PartialBatch(q, r, fast, limit)
            && |sel| <= |r|
            && (|r| == limit || |r| - |sel| >= items
                || forall e :: e in q && Fast(e) == fast && Holds(t, e) ==> e in r)
  {
    var c := Candidates(q, sel, fast, t);
    PassIsShare(q, sel, fast, t, items, limit);
    CandidatesDistinct(q, sel, fast, t);
    var added := Share(q, sel, fast, t, items, limit);
    var r := sel + added;
    forall i, j | 0 <= i < j < |r| ensures r[i] != r[j] {
      if i < |sel| <= j {
        assert r[j] in added;
      }
    }
    if |added| == |c| {
      assert added == c;
    }
  }

  lemma {:induction false} CriticalCandidates(q: seq<Event>)
    ensures Candidates(q, [], false, IsCritical) == Only(q, IsCritical)
  {
    if q != [] {
      CriticalCandidates(q[1..]);
    }
  }

  lemma {:induction false} OnlyAllOrNone(q: seq<Event>, t: Test)
    ensures (forall e :: e in q ==> Holds(t, e)) ==> Only(q, t) == q
    ensures (forall e :: e in q ==> !Holds(t, e)) ==> Only(q, t) == []
  {
    if q != [] {
      OnlyAllOrNone(q[1..], t);
    }
  }

  lemma UrgentShape(q: seq<Event>, fast: bool, limit: int)
    requires Distinct(q)
    ensures var crit := Share(q, [], fast, IsCritical, limit, limit);
            UrgentPasses(q, fast, limit)
              == crit + Share(q, crit, fast, IsPriorityOnly, Min(PRIORITY_SHARE, limit - |crit|), limit)
  {
    PassIsShare(q, [], fast, IsCritical, limit, limit);
    var s1 := AddMatching(q, [], fast, IsCritical, limit, limit);
    assert s1 == Share(q, [], fast, IsCritical, limit, limit);
    PassIsShare(q, s1, fast, IsPriorityOnly, Min(PRIORITY_SHARE, limit - |s1|), limit);
  }

  lemma LateShape(cfg: Config, q: seq<Event>, s2: seq<Event>, fast: bool, limit: int)
    requires Distinct(q)
    ensures var market := Share(q, s2, fast, IsMarketRefresh, Min(cfg.marketShare, limit - |s2|), limit);
            var s3 := AddMatching(q, s2, fast, IsMarketRefresh, Min(cfg.marketShare, limit - |s2|), limit);
            && s3 == s2 + market
            && AddMatching(q, s3, fast, Anything, limit - |s3|, limit)
               == s3 + Share(q, s3, fast, Anything, limit - |s3|, limit)
  {
    var n3 := Min(cfg.marketShare, limit - |s2|);
    PassIsShare(q, s2, fast, IsMarketRefresh, n3, limit);
    var s3 := AddMatching(q, s2, fast, IsMarketRefresh, n3, limit);
    PassIsShare(q, s3, fast, Anything, limit - |s3|, limit);
  }

  // The shares: critical events first, then at most sixteen priority events, then the market
  // share, then whatever is left of the group. Each share is the oldest of its class.
  lemma SelectionShape(cfg: Config, q: seq<Event>, fast: bool)
    requires cfg.Valid() && Distinct(q)
    ensures var limit := Min(cfg.batchSize, |q|);
            var crit := Share(q, [], fast, IsCritical, limit, limit);
            var prio := Share(q, crit, fast, IsPriorityOnly, Min(16, limit - |crit|), limit);
            var market := Share(q, crit + prio, fast, IsMarketRefresh,
                                Min(cfg.marketShare, limit - |crit + prio|), limit);
            var rest := Share(q, crit + prio + market, fast, Anything, limit - |crit + prio + market|, limit);
            SelectFrom(cfg, q, fast) == crit + prio + market + rest
  {
    var limit := Min(cfg.batchSize, |q|);
    UrgentShape(q, fast, limit);
    LateShape(cfg, q, UrgentPasses(q, fast, limit), fast, limit);
  }

  lemma UrgentFits(q: seq<Event>, fast: bool, limit: int)
    requires Distinct(q) && 0 <= limit
    ensures PartialBatch(q, UrgentPasses(q, fast, limit), fast, limit)
  {
    PassKeeps(q, [], fast, IsCritical, limit, limit);
    var s1 := AddMatching(q, [], fast, IsCritical, limit, limit);
    PassKeeps(q, s1, fast, IsPriorityOnly, Min(PRIORITY_SHARE, limit - |s1|), limit);
  }

  lemma SelectionFillsUp(cfg: Config, q: seq<Event>, fast: bool)
    requires cfg.Valid() && Distinct(q)
    ensures var limit := Min(cfg.batchSize, |q|);
            var r := SelectFrom(cfg, q, fast);
            && PartialBatch(q, r, fast, limit)
            && (|r| == limit || forall e :: e in q && Fast(e) == fast ==> e in r)
  {
    var limit := Min(cfg.batchSize, |q|);
    UrgentFits(q, fast, limit);
    var s2 := UrgentPasses(q, fast, limit);
    PassKeeps(q, s2, fast, IsMarketRefresh, Min(cfg.marketShare, limit - |s2|), limit);
    var s3 := AddMatching(q, s2, fast, IsMarketRefresh, Min(cfg.marketShare, limit - |s2|), limit);
    PassKeeps(q, s3, fast, Anything, limit - |s3|, limit);
  }

  lemma FullBatchSize(cfg: Config, q: seq<Event>, fast: bool, r: seq<Event>)
    requires cfg.Valid() && Distinct(q)
    requires PartialBatch(q, r, fast, Min(cfg.batchSize, |q|))
    requires |r| == Min(cfg.batchSize, |q|) || forall e :: e in q && Fast(e) == fast ==> e in r
    ensures |r| == Min(cfg.batchSize, |Only(q, Group(fast))|)
  {
    var g := Only(q, Group(fast));
    DistinctOnly(q, Group(fast));
    OnlyMembers(q, Group(fast));
    DistinctSubLength(r, g);
    if |r| < Min(cfg.batchSize, |q|) {
      DistinctSubLength(g, r);
    }
  }

  // Exactly min(batch size, group size) distinct queued events of one group.
  lemma SelectionExact(cfg: Config, q: seq<Event>, fast: bool)
    requires cfg.Valid() && Distinct(q)
    ensures var r := SelectFrom(cfg, q, fast);
            && Distinct(r)
            && (forall e :: e in r ==> e in q && Fast(e) == fast)
            && |r| == Min(cfg.batchSize, |Only(q, Group(fast))|)
  {
    SelectionFillsUp(cfg, q, fast);
    FullBatchSize(cfg, q, fast, SelectFrom(cfg, q, fast));
  }

  // The critical events a batch of this group takes.
  function OldestCriticals(q: seq<Event>, fast: bool, limit: nat): seq<Event> {
    if fast then [] else Only(q, IsCritical)[..Min(limit, |Only(q, IsCritical)|)]
  }

  ghost predicate CriticalsTaken(q: seq<Event>, sel: seq<Event>, fast: bool, limit: int) {
    |sel| >= limit || forall e :: e in q && Fast(e) == fast && Critical(e) ==> e in sel
  }

  // Once the critical events of the group are in, or the batch is full, no pass adds another.
  lemma {:induction false} LaterPass(q: seq<Event>, sel: seq<Event>, fast: bool, t: Test, items: int, limit: int)
    requires CriticalsTaken(q, sel, fast, limit)
    ensures var r := AddMatching(q, sel, fast, t, items, limit);
            && sel <= r
            && Only(r, IsCritical) == Only(sel, IsCritical)
    decreases |q|
  {
    if q == [] || |sel| >= limit || items <= 0 {
    } else if q[0] in sel || Fast(q[0]) != fast || !Holds(t, q[0]) {
      LaterPass(q[1..], sel, fast, t, items, limit);
    } else {
      assert !Critical(q[0]);
      OnlyConcat(sel, [q[0]], IsCritical);
      LaterPass(q[1..], sel + [q[0]], fast, t, items - 1, limit);
    }
  }

  lemma LaterPassKeeps(q: seq<Event>, sel: seq<Event>, fast: bool, t: Test, items: int, limit: int)
    requires CriticalsTaken(q, sel, fast, limit)
    ensures CriticalsTaken(q, AddMatching(q, sel, fast, t, items, limit), fast, limit)
  {
    LaterPass(q, sel, fast, t, items, limit);
  }

  lemma FirstPassCriticals(q: seq<Event>, fast: bool, limit: int)
    requires Distinct(q) && 0 <= limit <= |q|
    ensures var r := AddMatching(q, [], fast, IsCritical, limit, limit);
            && r == OldestCriticals(q, fast, limit)
            && CriticalsTaken(q, r, fast, limit)
            && Only(r, IsCritical) == r
  {
    PassIsShare(q, [], fast, IsCritical, limit, limit);
    CriticalShare(q, fast, limit);
    var r := Share(q, [], fast, IsCritical, limit, limit);
    assert [] + r == r;
    OnlyAllOrNone(r, IsCritical);
  }

  lemma UrgentCriticals(q: seq<Event>, fast: bool, limit: int)
    requires Distinct(q) && 0 <= limit <= |q|
    ensures var crit := OldestCriticals(q, fast, limit);
            var s2 := UrgentPasses(q, fast, limit);
            crit <= s2 && Only(s2, IsCritical) == crit && CriticalsTaken(q, s2, fast, limit)
  {
    FirstPassCriticals(q, fast, limit);
    var s1 := AddMatching(q, [], fast, IsCritical, limit, limit);
    LaterPass(q, s1, fast, IsPriorityOnly, Min(PRIORITY_SHARE, limit - |s1|), limit);
    LaterPassKeeps(q, s1, fast, IsPriorityOnly, Min(PRIORITY_SHARE, limit - |s1|), limit);
  }

  // The oldest critical events lead the batch, and no other critical event is in it.
  lemma SelectionCriticals(cfg: Config, q: seq<Event>, fast: bool)
    requires cfg.Valid() && Distinct(q)
    ensures var r := SelectFrom(cfg, q, fast);
            var crit := OldestCriticals(q, fast, cfg.batchSize);
            crit <= r && Only(r, IsCritical) == crit
  {
    var limit := Min(cfg.batchSize, |q|);
    UrgentCriticals(q, fast, limit);
    assert OldestCriticals(q, fast, limit) == OldestCriticals(q, fast, cfg.batchSize);
    var s2 := UrgentPasses(q, fast, limit);
    var n3 := Min(cfg.marketShare, limit - |s2|);
    LaterPass(q, s2, fast, IsMarketRefresh, n3, limit);
    LaterPassKeeps(q, s2, fast, IsMarketRefresh, n3, limit);
    var s3 := AddMatching(q, s2, fast, IsMarketRefresh, n3, limit);
    LaterPass(q, s3, fast, Anything, limit - |s3|, limit);
  }

  lemma CriticalShare(q: seq<Event>, fast: bool, limit: int)
    requires 0 <= limit <= |q|
    ensures var n := if fast then 0 else Min(limit, |Only(q, IsCritical)|);
            Share(q, [], fast, IsCritical, limit, limit) == Only(q, IsCritical)[..n]
    ensures var crit := Share(q, [], fast, IsCritical, limit, limit);
            |crit| == limit || forall e :: e in Candidates(q, [], fast, IsCritical) ==> e in crit
  {
    var c := Candidates(q, [], fast, IsCritical);
    assert |c| > 0 ==> c[0] in c;
    if !fast {
      CriticalCandidates(q);
    }
    var crit := Share(q, [], fast, IsCritical, limit, limit);
    if |crit| < limit {
      assert crit == c;
    }
  }

  // The chosen group is never empty.
  lemma GroupPresent(q: seq<Event>, lastFast: Option<bool>)
    requires q != []
    ensures Only(q, Group(FastGroup(q, lastFast))) != []
  {
    var fast := FastGroup(q, lastFast);
    OnlyMembers(q, Group(fast));
    FirstIndexIsFirst(q, IsFast);
    FirstIndexIsFirst(q, IsSlow);
    assert Holds(IsFast, q[0]) || Holds(IsSlow, q[0]);
    var i := FirstIndex(q, Group(fast));
    assert i < |q| ==> q[i] in q;
  }

  lemma SelectBatchExact(cfg: Config, w: Worker)
    requires cfg.Valid() && Distinct(w.events)
    ensures var r := SelectBatch(cfg, w); var fast := FastGroup(w.events, w.lastFast);
            && Distinct(r)
            && (forall e :: e in r ==> e in w.events)
            && (w.events != [] ==>
                  && r != []
                  && (forall e :: e in r ==> Fast(e) == fast)
                  && |r| == Min(cfg.batchSize, |Only(w.events, Group(fast))|))
  {
    if w.events != [] {
      SelectionExact(cfg, w.events, FastGroup(w.events, w.lastFast));
      GroupPresent(w.events, w.lastFast);
    }
  }

  // ---- draining ------------------------------------------------------------------------

  // Batches of at most `size` that `n` events make.
  function BatchesFor(n: nat, size: nat): nat
    requires size >= 1
  {
    if n == 0 then 0 else if n <= size then 1 else 1 + BatchesFor(n - size, size)
  }

  function BatchesLeft(cfg: Config, q: seq<Event>): nat
    requires cfg.Valid()
  {
    BatchesFor(|Only(q, IsFast)|, cfg.batchSize) + BatchesFor(|Only(q, IsSlow)|, cfg.batchSize)
  }

  lemma RemoveFirstCount(q: seq<Event>, e: Event, t: Test)
    requires e in q
    ensures |Only(RemoveFirst(q, e), t)| == |Only(q, t)| - (if Holds(t, e) then 1 else 0)
  {
    OnlyRemoveFirst(q, e, t);
    OnlyMembers(q, t);
  }

  lemma {:induction false} RemoveEachCount(q: seq<Event>, batch: seq<Event>, t: Test)
    requires Distinct(q) && Distinct(batch) && forall e :: e in batch ==> e in q
    ensures |Only(RemoveEach(q, batch), t)| == |Only(q, t)| - |Only(batch, t)|
    decreases batch
  {
    if batch != [] {
      var u := RemoveFirst(q, batch[0]);
      RemoveFirstCount(q, batch[0], t);
      DistinctRemoveFirst(q, batch[0]);
      assert forall e :: e in batch[1..] ==> e in batch && e != batch[0];
      RemoveEachCount(u, batch[1..], t);
    }
  }

  // One successful post, or nothing when there is nothing to send.
  function PostSelected(cfg: Config, w: Worker): Worker
    requires cfg.Valid() && cfg.batchEndpoint
  {
    if SelectBatch(cfg, w) == [] then w else PostedOk(cfg, w, SelectBatch(cfg, w), 0)
  }

  lemma RemovedMatching(q: seq<Event>, r: seq<Event>, t: Test)
    requires Distinct(q) && Distinct(r)
    requires forall e :: e in r ==> e in q
    requires forall e :: e in r ==> Holds(t, e)
    ensures |Only(RemoveEach(q, r), t)| == |Only(q, t)| - |r|
  {
    RemoveEachCount(q, r, t);
    OnlyAllOrNone(r, t);
  }

  lemma RemovedOthers(q: seq<Event>, r: seq<Event>, t: Test)
    requires Distinct(q) && Distinct(r)
    requires forall e :: e in r ==> e in q
    requires forall e :: e in r ==> !Holds(t, e)
    ensures |Only(RemoveEach(q, r), t)| == |Only(q, t)|
  {
    RemoveEachCount(q, r, t);
    OnlyAllOrNone(r, t);
  }

  lemma BatchesAfter(cfg: Config, q: seq<Event>, u: seq<Event>, taken: nat, fast: bool)
    requires cfg.Valid()
    requires taken == Min(cfg.batchSize, |Only(q, Group(fast))|) && taken > 0
    requires |Only(u, Group(fast))| == |Only(q, Group(fast))| - taken
    requires |Only(u, Group(!fast))| == |Only(q, Group(!fast))|
    ensures BatchesLeft(cfg, u) == BatchesLeft(cfg, q) - 1
  {
  }

  lemma PostedOneBatch(cfg: Config, w: Worker, r: seq<Event>, fast: bool)
    requires cfg.Valid() && cfg.batchEndpoint && Distinct(w.events) && Distinct(r)
    requires forall e :: e in r ==> e in w.events
    requires forall e :: e in r ==> Fast(e) == fast
    requires |r| == Min(cfg.batchSize, |Only(w.events, Group(fast))|) && |r| > 0
    ensures var u := PostedOk(cfg, w, r, 0);
            && Distinct(u.events)
            && BatchesLeft(cfg, u.events) == BatchesLeft(cfg, w.events) - 1
            && u.lastFast == Some(fast)
  {
    var u := RemoveEach(w.events, r);
    assert BatchesLeft(cfg, u) == BatchesLeft(cfg, w.events) - 1 by {
      RemovedMatching(w.events, r, Group(fast));
      RemovedOthers(w.events, r, Group(!fast));
      BatchesAfter(cfg, w.events, u, |r|, fast);
    }
    assert Distinct(u) by {
      RemoveEachFacts(w.events, r);
    }
    assert r[0] in r;
  }

  // A successful post removes one batch from the work left, whichever group it serves.
  lemma PostTakesOneBatch(cfg: Config, w: Worker)
    requires cfg.Valid() && cfg.batchEndpoint && Distinct(w.events) && w.events != []
    ensures SelectBatch(cfg, w) != []
    ensures var u := PostSelected(cfg, w);
            && Distinct(u.events)
            && BatchesLeft(cfg, u.events) == BatchesLeft(cfg, w.events) - 1
            && u.lastFast == Some(FastGroup(w.events, w.lastFast))
  {
    SelectBatchExact(cfg, w);
    var r := SelectBatch(cfg, w);
    PostedOneBatch(cfg, w, r, FastGroup(w.events, w.lastFast));
  }

  function Drain(cfg: Config, w: Worker, posts: nat): Worker
    requires cfg.Valid() && cfg.batchEndpoint
    decreases posts
  {
    if posts == 0 then w else Drain(cfg, PostSelected(cfg, w), posts - 1)
  }

  // With no arrivals, the buffer is empty after exactly BatchesLeft successful posts.
  lemma {:induction false} DrainsExactly(cfg: Config, w: Worker, posts: nat)
    requires cfg.Valid() && cfg.batchEndpoint && Distinct(w.events)
    ensures Drain(cfg, w, posts).events == [] <==> posts >= BatchesLeft(cfg, w.events)
    decreases posts
  {
    if w.events != [] {
      PostTakesOneBatch(cfg, w);
    }
    if posts != 0 {
      var u := PostSelected(cfg, w);
      DrainsExactly(cfg, u, posts - 1);
    } else {
      NothingLeft(cfg, w.events);
    }
  }

  lemma NothingLeft(cfg: Config, q: seq<Event>)
    requires cfg.Valid()
    ensures BatchesLeft(cfg, q) == 0 <==> q == []
  {
    if q != [] {
      OnlyMembers(q, IsFast);
      OnlyMembers(q, IsSlow);
      assert Holds(IsFast, q[0]) || Holds(IsSlow, q[0]);
      assert q[0] in q;
    }
  }
}
