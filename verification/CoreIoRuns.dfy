// Every interleaving of enqueues with the select / post / remove steps of the posting thread.

module CoreIoRuns {
  import opened CoreIoEvents
  import opened CoreIoBuffer
  import opened CoreIoSelection

  datatype Step =
    | Arrive(e: Event)          // enqueue_event
    | Begin(now: real)          // select under the lock; nothing happens while backing off
    | Answered(rejected: nat)   // the HTTP call returned; remove by identity
    | Raised(now: real)         // the HTTP call raised

  // `accepted` and `acked` are the history: arrivals taken in, and events Core has answered for.
  datatype Run = Run(w: Worker, inflight: seq<Event>, accepted: seq<Event>, acked: seq<Event>, removed: nat)

  const FRESH_RUN := Run(START, [], [], [], 0)

  // Each arrival is a new object, and one thread posts one batch at a time.
  predicate Enabled(r: Run, s: Step) {
    match s
    case Arrive(e) => e !in r.accepted
    case Begin(_) => r.inflight == []
    case Answered(_) => r.inflight != []
    case Raised(_) => r.inflight != []
  }

  function Next(cfg: Config, r: Run, s: Step): Run
    requires Enabled(r, s)
  {
    match s
    case Arrive(e) =>
      if !cfg.postingEnabled then r
      else r.(w := Enqueue(cfg, r.w, e), accepted := r.accepted + [e])
    case Begin(now) => r.(inflight := Attempt(cfg, r.w, now))
    case Answered(n) =>
      var u := PostedOk(cfg, r.w, r.inflight, n);
      Run(u, [], r.accepted, r.acked + r.inflight,
          r.removed + if |u.events| <= |r.w.events| then |r.w.events| - |u.events| else 0)
    case Raised(now) => r.(w := PostFailed(cfg, r.w, now), inflight := [])
  }

  predicate Admissible(cfg: Config, r: Run, steps: seq<Step>)
    decreases steps
  {
    steps == [] || (Enabled(r, steps[0]) && Admissible(cfg, Next(cfg, r, steps[0]), steps[1..]))
  }

  function Execute(cfg: Config, r: Run, steps: seq<Step>): Run
    requires Admissible(cfg, r, steps)
    decreases steps
  {
    if steps == [] then r else Execute(cfg, Next(cfg, r, steps[0]), steps[1..])
  }

  // ---- the invariant -------------------------------------------------------------------

  ghost predicate CriticalFirst(q: seq<Event>) {
    forall i, j :: 0 <= i < j < |q| && Critical(q[j]) ==> Critical(q[i])
  }

  ghost predicate Bounded(cfg: Config, q: seq<Event>) {
    |q| <= cfg.maxBuffer || forall e :: e in q ==> Protected(e)
  }

  // Heartbeats per source and market-index ticks per index replace their predecessor.
  predicate Replacing(e: Event) {
    (e.kind.Heartbeat? || e.kind.MarketIndexTick?) && KeyOf(e) != NoKey
  }

  ghost predicate OnePerKey(q: seq<Event>) {
    forall x, y :: x in q && y in q && Replacing(x) && KeyOf(x) == KeyOf(y) ==> x == y
  }

  ghost predicate NewestQueued(accepted: seq<Event>, q: seq<Event>) {
    forall i, j :: 0 <= i < j < |accepted| && accepted[i] in q && Replacing(accepted[i])
              ==> KeyOf(accepted[j]) != KeyOf(accepted[i])
  }

  ghost predicate History(r: Run) {
    && Distinct(r.accepted)
    && Distinct(r.w.events)
    && Distinct(r.acked + r.inflight)
    && (forall e :: e in r.w.events ==> e in r.accepted && e !in r.acked)
    && (forall e :: e in r.acked + r.inflight ==> e in r.accepted)
    && (forall e :: e in r.accepted && Protected(e) ==> e in r.w.events || e in r.acked)
  }

  ghost predicate Ordered(r: Run) {
    && CriticalFirst(r.w.events)
    && Only(r.accepted, IsCritical) == Only(r.acked, IsCritical) + Only(r.w.events, IsCritical)
    && Only(r.inflight, IsCritical) <= Only(r.w.events, IsCritical)
  }

  ghost predicate Inv(cfg: Config, r: Run) {
    && History(r)
    && Ordered(r)
    && Bounded(cfg, r.w.events)
    && NewestQueued(r.accepted, r.w.events)
    && |r.accepted| == |r.w.events| + r.w.coalesced + r.w.dropped + r.removed
    && r.w.posted == |r.acked|
  }

  // ---- one enqueue ---------------------------------------------------------------------

  // Nothing protected goes missing and the critical order is untouched.
  ghost predicate Kept(q: seq<Event>, r: seq<Event>) {
    && Distinct(r)
    && CriticalFirst(r)
    && Only(r, IsCritical) == Only(q, IsCritical)
    && (forall x :: x in r ==> x in q)
    && (forall x :: x in q && Protected(x) ==> x in r)
  }

  lemma DropOne(q: seq<Event>, i: nat)
    requires Distinct(q) && CriticalFirst(q) && i < |q| && !Protected(q[i])
    ensures Kept(q, RemoveAt(q, i))
  {
    DistinctRemoveAt(q, i);
    OnlyRemoveAt(q, i, IsCritical);
  }

  lemma {:induction false} LimitKeeps(cfg: Config, q: seq<Event>)
    requires Distinct(q) && CriticalFirst(q)
    ensures Kept(q, EnforceLimit(cfg.maxBuffer, q))
    ensures Bounded(cfg, EnforceLimit(cfg.maxBuffer, q))
    decreases |q|
  {
    var d := DropIndex(q);
    if |q| > cfg.maxBuffer && d != |q| {
      DropOne(q, d);
      LimitKeeps(cfg, RemoveAt(q, d));
    }
  }

  lemma {:induction false} AfterCriticalCuts(q: seq<Event>)
    requires CriticalFirst(q)
    ensures forall i :: 0 <= i < |q| ==> (Critical(q[i]) <==> i < AfterCritical(q))
  {
    if q != [] && !Critical(q[|q| - 1]) {
      AfterCriticalCuts(q[..|q| - 1]);
    }
  }

  lemma InsertKeepsCriticalFirst(q: seq<Event>, e: Event)
    requires CriticalFirst(q)
    ensures CriticalFirst(InsertAfterCritical(q, e))
  {
    AfterCriticalCuts(q);
  }

  lemma InsertKeepsCriticalOrder(q: seq<Event>, e: Event)
    requires CriticalFirst(q)
    ensures var r := InsertAfterCritical(q, e);
            && CriticalFirst(r)
            && Only(r, IsCritical) == Only(q, IsCritical) + (if Critical(e) then [e] else [])
  {
    var n := AfterCritical(q);
    InsertKeepsCriticalFirst(q, e);
    AfterCriticalCuts(q);
    OnlyAllOrNone(q[n..], IsCritical);
    assert q[..n] + q[n..] == q;
    CriticalsBefore(q[..n], q[n..], e);
  }

  lemma CriticalsBefore(a: seq<Event>, b: seq<Event>, e: Event)
    requires Only(b, IsCritical) == []
    ensures Only(a + [e] + b, IsCritical) == Only(a + b, IsCritical) + (if Critical(e) then [e] else [])
  {
    OnlyConcat(a, b, IsCritical);
    OnlyConcat(a + [e], b, IsCritical);
    OnlyConcat(a, [e], IsCritical);
    assert Only(a, IsCritical) + [] == Only(a, IsCritical);
  }

  lemma InsertKeeps(q: seq<Event>, e: Event)
    requires Distinct(q) && CriticalFirst(q) && e !in q
    ensures var r := InsertAfterCritical(q, e);
            && Distinct(r) && CriticalFirst(r)
            && (forall x :: x in r <==> x in q || x == e)
            && Only(r, IsCritical) == Only(q, IsCritical) + (if Critical(e) then [e] else [])
  {
    InsertKeepsCriticalOrder(q, e);
    DistinctInsertAt(q, AfterCritical(q), e);
  }

  lemma AppendKeeps(q: seq<Event>, e: Event)
    requires Distinct(q) && CriticalFirst(q) && e !in q && !Critical(e)
    ensures var r := q + [e];
            && Distinct(r) && CriticalFirst(r)
            && (forall x :: x in r <==> x in q || x == e)
            && Only(r, IsCritical) == Only(q, IsCritical)
  {
    OnlyConcat(q, [e], IsCritical);
  }

  lemma ReplaceKeepsCriticals(q: seq<Event>, k: nat, e: Event)
    requires k < |q| && !Critical(e) && !Critical(q[k])
    ensures Only(q[k := e], IsCritical) == Only(q, IsCritical)
  {
    var r := q[k := e];
    assert r == q[..k] + ([e] + q[k + 1..]);
    assert q == q[..k] + ([q[k]] + q[k + 1..]);
    OnlyConcat(q[..k], [e] + q[k + 1..], IsCritical);
    OnlyConcat(q[..k], [q[k]] + q[k + 1..], IsCritical);
  }

  lemma ReplaceKeeps(q: seq<Event>, k: nat, e: Event)
    requires Distinct(q) && CriticalFirst(q) && e !in q && k < |q|
    requires !Protected(e) && !Protected(q[k])
    ensures var r := q[k := e];
            && Distinct(r) && CriticalFirst(r)
            && (forall x :: x in r ==> x in q || x == e)
            && (forall x :: x in q && Protected(x) ==> x in r)
            && Only(r, IsCritical) == Only(q, IsCritical)
  {
    var r := q[k := e];
    ReplaceKeepsCriticals(q, k, e);
    forall x | x in q && Protected(x) ensures x in r {
      var i :| 0 <= i < |q| && q[i] == x;
      assert r[i] == x;
    }
  }

  // What one accepted arrival does to the queue.
  ghost predicate Taken(q: seq<Event>, e: Event, r: seq<Event>) {
    && Distinct(r)
    && CriticalFirst(r)
    && Only(r, IsCritical) == Only(q, IsCritical) + (if Critical(e) then [e] else [])
    && (forall x :: x in r ==> x in q || x == e)
    && (forall x :: x in q && Protected(x) ==> x in r)
    && (Protected(e) ==> e in r)
    && (Replacing(e) ==> forall x :: x in r && KeyOf(x) == KeyOf(e) ==> x == e)
  }

  lemma TakenThenLimited(cfg: Config, q: seq<Event>, e: Event, r: seq<Event>)
    requires Taken(q, e, r)
    ensures Taken(q, e, EnforceLimit(cfg.maxBuffer, r)) && Bounded(cfg, EnforceLimit(cfg.maxBuffer, r))
  {
    LimitKeeps(cfg, r);
  }

  // Inserting behind the critical events, when no other queued event has this event's key.
  lemma InsertTaken(q: seq<Event>, e: Event)
    requires Distinct(q) && CriticalFirst(q) && e !in q
    requires Replacing(e) ==> forall x :: x in q ==> KeyOf(x) != KeyOf(e)
    ensures Taken(q, e, InsertAfterCritical(q, e))
  {
    InsertKeeps(q, e);
  }

  lemma KeptThenTaken(q: seq<Event>, p: seq<Event>, e: Event, r: seq<Event>)
    requires Kept(q, p) && Taken(p, e, r)
    ensures Taken(q, e, r)
  {
  }

  lemma NoOtherWithKey(q: seq<Event>, e: Event)
    requires Distinct(q) && OnePerKey(q) && Replacing(e)
    ensures if Mergeable(q, e) then forall x :: x in RemoveAt(q, SameKeyIndex(q, e)) ==> KeyOf(x) != KeyOf(e)
            else forall x :: x in q ==> KeyOf(x) != KeyOf(e)
  {
    if Mergeable(q, e) {
      var k := SameKeyIndex(q, e);
      assert q[k] in q && Replacing(q[k]);
      DistinctRemoveAt(q, k);
    } else {
      FirstIndexIsFirst(q, HasKey(KeyOf(e)));
      forall x | x in q ensures KeyOf(x) != KeyOf(e) {
        assert !Holds(HasKey(KeyOf(e)), x);
      }
    }
  }

  lemma ReplacementTaken(q: seq<Event>, k: nat, e: Event)
    requires Distinct(q) && CriticalFirst(q) && e !in q && k < |q| && !Protected(q[k])
    requires Replacing(e) ==> forall x :: x in RemoveAt(q, k) ==> KeyOf(x) != KeyOf(e)
    ensures Taken(q, e, InsertAfterCritical(RemoveAt(q, k), e))
  {
    DropOne(q, k);
    InsertTaken(RemoveAt(q, k), e);
    KeptThenTaken(q, RemoveAt(q, k), e, InsertAfterCritical(RemoveAt(q, k), e));
  }

  lemma KeyedUnprotected(e: Event)
    ensures KeyOf(e) != NoKey ==> !Protected(e)
    ensures KeyOf(e) != NoKey && Priority(e) ==> Replacing(e)
  {
  }

  lemma PriorityTaken(q: seq<Event>, e: Event)
    requires Distinct(q) && CriticalFirst(q) && OnePerKey(q) && e !in q && Priority(e)
    ensures Taken(q, e, WithPriority(q, e))
  {
    KeyedUnprotected(e);
    if KeyOf(e) != NoKey {
      NoOtherWithKey(q, e);
    }
    if Mergeable(q, e) {
      KeyedUnprotected(q[SameKeyIndex(q, e)]);
      ReplacementTaken(q, SameKeyIndex(q, e), e);
    } else {
      InsertTaken(q, e);
    }
  }

  lemma PlainTaken(cfg: Config, q: seq<Event>, e: Event)
    requires Distinct(q) && CriticalFirst(q) && Bounded(cfg, q) && e !in q
    requires !Critical(e) && !Priority(e)
    ensures Taken(q, e, q + [e])
    ensures Mergeable(q, e) ==> var r := q[SameKeyIndex(q, e) := e]; Taken(q, e, r) && Bounded(cfg, r)
  {
    AppendKeeps(q, e);
    if Mergeable(q, e) {
      var k := SameKeyIndex(q, e);
      KeyedUnprotected(q[k]);
      assert q[k] in q;
      ReplaceKeeps(q, k, e);
    }
  }

  lemma EnqueueTakes(cfg: Config, w: Worker, e: Event)
    requires cfg.postingEnabled
    requires Distinct(w.events) && CriticalFirst(w.events) && OnePerKey(w.events) && Bounded(cfg, w.events)
    requires e !in w.events
    ensures var u := Enqueue(cfg, w, e); Taken(w.events, e, u.events) && Bounded(cfg, u.events)
  {
    var q := w.events;
    if Critical(e) {
      InsertTaken(q, e);
      TakenThenLimited(cfg, q, e, InsertAfterCritical(q, e));
    } else if Priority(e) {
      PriorityTaken(q, e);
      TakenThenLimited(cfg, q, e, WithPriority(q, e));
    } else {
      PlainTaken(cfg, q, e);
      TakenThenLimited(cfg, q, e, q + [e]);
    }
  }

  // Each arrival adds one to the queue, the merged or the dropped.
  lemma EnqueueCounts(cfg: Config, w: Worker, e: Event)
    requires cfg.postingEnabled
    ensures var u := Enqueue(cfg, w, e);
            |w.events| + 1 + w.coalesced + w.dropped == |u.events| + u.coalesced + u.dropped
  {
  }

  // ---- one acknowledgement -------------------------------------------------------------

  lemma AckFirstCritical(q: seq<Event>, e: Event, rest: seq<Event>)
    requires Critical(e) && [e] + rest <= Only(q, IsCritical)
    ensures Only(q, IsCritical) == [e] + Only(RemoveFirst(q, e), IsCritical)
    ensures rest <= Only(RemoveFirst(q, e), IsCritical)
  {
    OnlyRemoveFirst(q, e, IsCritical);
    HeadRemoved(Only(q, IsCritical), e, rest);
  }

  lemma HeadRemoved(c: seq<Event>, e: Event, rest: seq<Event>)
    requires [e] + rest <= c
    ensures c == [e] + RemoveFirst(c, e) && rest <= RemoveFirst(c, e)
  {
    assert c[0] == e;
    assert RemoveFirst(c, e) == c[1..];
  }

  lemma {:induction false} AckKeepsOrder(q: seq<Event>, batch: seq<Event>)
    requires Only(batch, IsCritical) <= Only(q, IsCritical)
    ensures Only(q, IsCritical) == Only(batch, IsCritical) + Only(RemoveEach(q, batch), IsCritical)
    decreases batch
  {
    if batch == [] {
    } else if Critical(batch[0]) {
      var rest := Only(batch[1..], IsCritical);
      AckFirstCritical(q, batch[0], rest);
      AckKeepsOrder(RemoveFirst(q, batch[0]), batch[1..]);
      assert [batch[0]] + rest + Only(RemoveEach(q, batch), IsCritical)
          == [batch[0]] + (rest + Only(RemoveEach(q, batch), IsCritical));
    } else {
      OnlyRemoveFirst(q, batch[0], IsCritical);
      AckKeepsOrder(RemoveFirst(q, batch[0]), batch[1..]);
    }
  }

  lemma {:induction false} AckKeepsCriticalFirst(q: seq<Event>, batch: seq<Event>)
    requires CriticalFirst(q)
    ensures CriticalFirst(RemoveEach(q, batch))
    decreases batch
  {
    if batch != [] {
      RemoveKeepsCriticalFirst(q, batch[0]);
      AckKeepsCriticalFirst(RemoveFirst(q, batch[0]), batch[1..]);
    }
  }

  lemma RemoveKeepsCriticalFirst(q: seq<Event>, e: Event)
    requires CriticalFirst(q)
    ensures CriticalFirst(RemoveFirst(q, e))
  {
    if e in q {
      var i := RemoveFirstSplit(q, e);
    }
  }

  lemma {:induction false} RemoveEachShrinks(q: seq<Event>, batch: seq<Event>)
    ensures |RemoveEach(q, batch)| <= |q|
    decreases batch
  {
    if batch != [] {
      RemoveEachShrinks(RemoveFirst(q, batch[0]), batch[1..]);
    }
  }

  // ---- every step ----------------------------------------------------------------------

  lemma OneQueuedPerKey(r: Run)
    requires History(r) && NewestQueued(r.accepted, r.w.events)
    ensures OnePerKey(r.w.events)
  {
    forall x, y | x in r.w.events && y in r.w.events && Replacing(x) && KeyOf(x) == KeyOf(y)
      ensures x == y
    {
      assert x in r.accepted && y in r.accepted;
      var i :| 0 <= i < |r.accepted| && r.accepted[i] == x;
      var j :| 0 <= j < |r.accepted| && r.accepted[j] == y;
    }
  }

  lemma ArriveKeepsHistory(r: Run, e: Event, n: Run)
    requires History(r) && e !in r.accepted && Taken(r.w.events, e, n.w.events)
    requires n.accepted == r.accepted + [e] && n.acked == r.acked && n.inflight == r.inflight
    ensures History(n)
  {
  }

  lemma ArriveKeepsOrder(r: Run, e: Event, n: Run)
    requires Ordered(r) && Taken(r.w.events, e, n.w.events)
    requires n.accepted == r.accepted + [e] && n.acked == r.acked && n.inflight == r.inflight
    ensures Ordered(n)
  {
    OnlyConcat(r.accepted, [e], IsCritical);
    var before := Only(r.w.events, IsCritical);
    var added := if Critical(e) then [e] else [];
    assert Only([e], IsCritical) == added;
    assert Only(r.acked, IsCritical) + (before + added) == Only(r.acked, IsCritical) + before + added;
  }

  lemma ArriveKeepsNewest(r: Run, e: Event, n: Run)
    requires NewestQueued(r.accepted, r.w.events) && Taken(r.w.events, e, n.w.events) && e !in r.accepted
    requires n.accepted == r.accepted + [e]
    ensures NewestQueued(n.accepted, n.w.events)
  {
    var a := n.accepted;
    forall i, j | 0 <= i < j < |a| && a[i] in n.w.events && Replacing(a[i])
      ensures KeyOf(a[j]) != KeyOf(a[i])
    {
      assert a[i] == r.accepted[i] && a[i] != e;
    }
  }

  lemma ArriveKeeps(cfg: Config, r: Run, e: Event)
    requires cfg.Valid() && cfg.postingEnabled && Inv(cfg, r) && e !in r.accepted
    ensures Inv(cfg, Next(cfg, r, Arrive(e)))
  {
    OneQueuedPerKey(r);
    EnqueueTakes(cfg, r.w, e);
    EnqueueCounts(cfg, r.w, e);
    var n := Next(cfg, r, Arrive(e));
    ArriveKeepsHistory(r, e, n);
    ArriveKeepsOrder(r, e, n);
    ArriveKeepsNewest(r, e, n);
  }

  lemma BeginKeeps(cfg: Config, r: Run, now: real)
    requires cfg.Valid() && Inv(cfg, r) && r.inflight == []
    ensures Inv(cfg, Next(cfg, r, Begin(now)))
  {
    var batch := Attempt(cfg, r.w, now);
    var q := r.w.events;
    if batch != [] {
      if cfg.batchEndpoint {
        SelectBatchExact(cfg, r.w);
        SelectionCriticals(cfg, q, FastGroup(q, r.w.lastFast));
      } else {
        assert q == [q[0]] + q[1..];
        OnlyConcat([q[0]], q[1..], IsCritical);
        assert batch == [q[0]];
      }
    }
    assert r.acked + r.inflight == r.acked;
    assert forall e :: e in batch ==> e in q;
    var all := r.acked + batch;
    forall i, j | 0 <= i < j < |all| ensures all[i] != all[j] {
      if i < |r.acked| <= j {
        assert all[j] in batch;
      } else if j < |r.acked| {
        assert (r.acked + r.inflight)[i] != (r.acked + r.inflight)[j];
      }
    }
  }

  lemma SuffixDistinct(a: seq<Event>, b: seq<Event>)
    requires Distinct(a + b)
    ensures Distinct(b)
  {
    assert forall i :: 0 <= i < |b| ==> b[i] == (a + b)[|a| + i];
  }

  lemma AnsweredHistory(cfg: Config, r: Run, n: nat)
    requires History(r) && r.inflight != []
    ensures History(Next(cfg, r, Answered(n)))
  {
    SuffixDistinct(r.acked, r.inflight);
    RemoveEachFacts(r.w.events, r.inflight);
    assert r.acked + r.inflight + [] == r.acked + r.inflight;
  }

  lemma AnsweredOrder(cfg: Config, r: Run, n: nat)
    requires History(r) && Ordered(r) && r.inflight != []
    ensures Ordered(Next(cfg, r, Answered(n)))
  {
    var q, b := r.w.events, r.inflight;
    SuffixDistinct(r.acked, b);
    AckKeepsOrder(q, b);
    AckKeepsCriticalFirst(q, b);
    OnlyConcat(r.acked, b, IsCritical);
    var u := RemoveEach(q, b);
    assert Only(r.acked, IsCritical) + (Only(b, IsCritical) + Only(u, IsCritical))
        == Only(r.acked, IsCritical) + Only(b, IsCritical) + Only(u, IsCritical);
  }

  lemma AnsweredKeeps(cfg: Config, r: Run, n: nat)
    requires cfg.Valid() && Inv(cfg, r) && r.inflight != []
    ensures Inv(cfg, Next(cfg, r, Answered(n)))
  {
    AnsweredHistory(cfg, r, n);
    AnsweredOrder(cfg, r, n);
    RemoveEachFacts(r.w.events, r.inflight);
    RemoveEachShrinks(r.w.events, r.inflight);
  }

  lemma RaisedKeeps(cfg: Config, r: Run, now: real)
    requires Inv(cfg, r) && r.inflight != []
    ensures Inv(cfg, Next(cfg, r, Raised(now)))
  {
    var n := Next(cfg, r, Raised(now));
    assert n.acked + n.inflight == (r.acked + r.inflight)[..|r.acked|];
  }

  lemma {:induction false} EveryRun(cfg: Config, r: Run, steps: seq<Step>)
    requires cfg.Valid() && Inv(cfg, r) && Admissible(cfg, r, steps)
    ensures Inv(cfg, Execute(cfg, r, steps))
    decreases steps
  {
    if steps != [] {
      match steps[0] {
        case Arrive(e) =>
          if cfg.postingEnabled {
            ArriveKeeps(cfg, r, e);
          }
        case Begin(now) => BeginKeeps(cfg, r, now);
        case Answered(n) => AnsweredKeeps(cfg, r, n);
        case Raised(now) => RaisedKeeps(cfg, r, now);
      }
      EveryRun(cfg, Next(cfg, r, steps[0]), steps[1..]);
    }
  }

  // ---- main results --------------------------------------------------------------------

  lemma CriticalLead(q: seq<Event>)
    requires CriticalFirst(q)
    ensures Only(q, IsCritical) <= q
  {
    var n := AfterCritical(q);
    AfterCriticalCuts(q);
    assert q == q[..n] + q[n..];
    OnlyConcat(q[..n], q[n..], IsCritical);
    OnlyAllOrNone(q[..n], IsCritical);
    OnlyAllOrNone(q[n..], IsCritical);
  }

  lemma DistinctHead(a: seq<Event>, b: seq<Event>)
    requires Distinct(a + b)
    ensures Distinct(a)
  {
    forall i, j | 0 <= i < j < |a| ensures a[i] != a[j] {
      assert (a + b)[i] != (a + b)[j];
    }
  }

  // Command-critical events lead the buffer in arrival order, and those acknowledged so far are
  // exactly the first ones enqueued: none lost, reordered or acknowledged twice.
  lemma CriticalDelivery(cfg: Config, steps: seq<Step>)
    requires cfg.Valid() && Admissible(cfg, FRESH_RUN, steps)
    ensures var r := Execute(cfg, FRESH_RUN, steps);
            var enqueued := Only(r.accepted, IsCritical);
            var acked := Only(r.acked, IsCritical);
            && acked <= enqueued
            && enqueued[|acked|..] == Only(r.w.events, IsCritical)
            && Only(r.w.events, IsCritical) <= r.w.events
            && Distinct(r.acked)
  {
    EveryRun(cfg, FRESH_RUN, steps);
    var r := Execute(cfg, FRESH_RUN, steps);
    CriticalLead(r.w.events);
    DistinctHead(r.acked, r.inflight);
  }

  // The buffer is within its limit or holds only protected events; every protected arrival is
  // either still queued or acknowledged; and every arrival is accounted for.
  lemma BufferDiscipline(cfg: Config, steps: seq<Step>)
    requires cfg.Valid() && Admissible(cfg, FRESH_RUN, steps)
    ensures var r := Execute(cfg, FRESH_RUN, steps);
            && (|r.w.events| > cfg.maxBuffer ==> forall e :: e in r.w.events ==> Protected(e))
            && (forall e :: e in r.accepted && Protected(e) ==> (e in r.w.events <==> e !in r.acked))
            && |r.accepted| == |r.w.events| + r.w.coalesced + r.w.dropped + r.removed
            && r.w.posted == |r.acked|
  {
    EveryRun(cfg, FRESH_RUN, steps);
  }

  // At most one event per heartbeat source or market-index key is queued, the newest accepted.
  lemma NewestPerKey(cfg: Config, steps: seq<Step>, i: nat, k: nat)
    requires cfg.Valid() && Admissible(cfg, FRESH_RUN, steps)
    requires var r := Execute(cfg, FRESH_RUN, steps);
             && i < |r.w.events| && Replacing(r.w.events[i])
             && k < |r.accepted| && KeyOf(r.accepted[k]) == KeyOf(r.w.events[i])
    ensures var r := Execute(cfg, FRESH_RUN, steps);
            && r.w.events[i] in r.accepted[k..]
            && (forall j :: 0 <= j < |r.w.events| && KeyOf(r.w.events[j]) == KeyOf(r.w.events[i]) ==> j == i)
  {
    EveryRun(cfg, FRESH_RUN, steps);
    var r := Execute(cfg, FRESH_RUN, steps);
    OneQueuedPerKey(r);
    var e := r.w.events[i];
    assert e in r.w.events && e in r.accepted;
    var at :| 0 <= at < |r.accepted| && r.accepted[at] == e;
    assert at >= k;
    assert r.accepted[k..][at - k] == e;
    forall j | 0 <= j < |r.w.events| && KeyOf(r.w.events[j]) == KeyOf(e) ensures j == i {
      assert r.w.events[j] in r.w.events;
    }
  }

  lemma {:induction false} LastGroupHeld(cfg: Config, r: Run, steps: seq<Step>)
    requires Admissible(cfg, r, steps)
    requires forall s :: s in steps ==> !s.Answered?
    ensures Execute(cfg, r, steps).w.lastFast == r.w.lastFast
    decreases steps
  {
    if steps != [] {
      assert steps[0] in steps;
      LastGroupHeld(cfg, Next(cfg, r, steps[0]), steps[1..]);
    }
  }

  // After a successful batch, whatever arrives or fails before the next attempt, that attempt
  // serves the other group when both are waiting and no critical event is.
  lemma BatchesAlternate(cfg: Config, before: seq<Step>, rejected: nat, between: seq<Step>, now: real)
    requires cfg.Valid() && cfg.batchEndpoint
    requires Admissible(cfg, FRESH_RUN, before)
    requires var r := Execute(cfg, FRESH_RUN, before);
             && r.inflight != []
             && Admissible(cfg, Next(cfg, r, Answered(rejected)), between)
    requires forall s :: s in between ==> !s.Answered?
    requires var u := Execute(cfg, Next(cfg, Execute(cfg, FRESH_RUN, before), Answered(rejected)), between);
             && u.inflight == []
             && now >= u.w.nextPostRetryAt
             && Present(u.w.events, IsFast) && Present(u.w.events, IsSlow) && !Present(u.w.events, IsCritical)
    ensures var first := Execute(cfg, FRESH_RUN, before).inflight;
            var u := Execute(cfg, Next(cfg, Execute(cfg, FRESH_RUN, before), Answered(rejected)), between);
            var second := Next(cfg, u, Begin(now)).inflight;
            && second != []
            && forall e :: e in second ==> Fast(e) != Fast(first[0])
  {
    var r := Execute(cfg, FRESH_RUN, before);
    EveryRun(cfg, FRESH_RUN, before);
    AnsweredKeeps(cfg, r, rejected);
    var a := Next(cfg, r, Answered(rejected));
    EveryRun(cfg, a, between);
    LastGroupHeld(cfg, a, between);
    ServesOtherGroup(cfg, Execute(cfg, a, between).w, now);
  }

  lemma ServesOtherGroup(cfg: Config, w: Worker, now: real)
    requires cfg.Valid() && cfg.batchEndpoint && Distinct(w.events) && now >= w.nextPostRetryAt && w.lastFast.Some?
    requires Present(w.events, IsFast) && Present(w.events, IsSlow) && !Present(w.events, IsCritical)
    ensures Attempt(cfg, w, now) != []
    ensures forall e :: e in Attempt(cfg, w, now) ==> Fast(e) != w.lastFast.value
  {
    SelectBatchExact(cfg, w);
  }

  // ---- back-off ------------------------------------------------------------------------

  lemma {:induction false} DoubledGrows(base: real, m: nat, n: nat)
    requires base > 0.0 && m <= n
    ensures base <= Doubled(base, m) <= Doubled(base, n)
    decreases n
  {
    if n > 0 {
      DoubledGrows(base, if m < n then m else m - 1, n - 1);
    }
  }

  // Delays grow with consecutive errors, from the configured sleep up to the five-second cap.
  lemma DelayGrows(cfg: Config, m: nat, n: nat)
    requires cfg.Valid() && 1 <= m <= n
    ensures 0.05 <= RetryDelay(cfg, m) <= RetryDelay(cfg, n) <= MAX_POST_RETRY_SLEEP_SEC
    ensures cfg.retrySleep <= MAX_POST_RETRY_SLEEP_SEC ==> RetryDelay(cfg, 1) == cfg.retrySleep
  {
    DoubledGrows(cfg.retrySleep, if m - 1 > 10 then 10 else m - 1, if n - 1 > 10 then 10 else n - 1);
  }

  // Nothing is posted until the back-off of the last failure is over.
  lemma {:induction false} BackoffHolds(cfg: Config, r: Run, failedAt: real, between: seq<Step>)
    requires cfg.Valid() && r.inflight != []
    requires Admissible(cfg, Next(cfg, r, Raised(failedAt)), between)
    requires forall s :: s in between ==> s.Arrive? || s.Begin?
    requires forall s :: s in between && s.Begin? ==> s.now < failedAt + RetryDelay(cfg, r.w.postErrors + 1)
    ensures Execute(cfg, Next(cfg, r, Raised(failedAt)), between).inflight == []
  {
    IdleUntil(cfg, Next(cfg, r, Raised(failedAt)), between);
  }

  lemma {:induction false} IdleUntil(cfg: Config, r: Run, steps: seq<Step>)
    requires r.inflight == [] && Admissible(cfg, r, steps)
    requires forall s :: s in steps ==> s.Arrive? || (s.Begin? && s.now < r.w.nextPostRetryAt)
    ensures Execute(cfg, r, steps).inflight == []
    decreases steps
  {
    if steps != [] {
      assert steps[0] in steps;
      var n := Next(cfg, r, steps[0]);
      assert n.w.nextPostRetryAt == r.w.nextPostRetryAt;
      IdleUntil(cfg, n, steps[1..]);
    }
  }
}
