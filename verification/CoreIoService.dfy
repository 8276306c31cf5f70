// Which group a posting attempt serves, when it posts at all, and what the outcome counts.

module CoreIoService {
  import opened CoreIoEvents
  import opened CoreIoBuffer
  import opened CoreIoSelection
  import opened CoreIoRuns

  // ---- which group -----------------------------------------------------------------------------

  lemma OldestOfClass(q: seq<Event>, t: Test)
    requires exists e :: e in q && Holds(t, e)
    ensures Only(q, t) != [] && FirstIndex(q, t) < |q|
  {
    FirstIndexIsFirst(q, t);
    OnlyMembers(q, t);
    var e :| e in q && Holds(t, e);
    assert e in Only(q, t);
  }

  // Critical events are not fast, and while one waits the other group is served.
  lemma CriticalGroup(q: seq<Event>, lastFast: Option<bool>)
    requires Only(q, IsCritical) != []
    ensures !FastGroup(q, lastFast)
  {
    var c := Only(q, IsCritical)[0];
    OnlyMembers(q, IsCritical);
    assert c in Only(q, IsCritical);
    OldestOfClass(q, IsCritical);
    assert Holds(IsSlow, c);
    OldestOfClass(q, IsSlow);
  }

  // While a critical event waits, a batch is of the other group and begins with the oldest critical
  // events, as many as it has room for; it holds no other critical event.
  lemma CriticalsServedFirst(cfg: Config, w: Worker)
    requires cfg.Valid() && Distinct(w.events) && Only(w.events, IsCritical) != []
    ensures var critical := Only(w.events, IsCritical);
            var batch := SelectBatch(cfg, w);
            var n := if cfg.batchSize < |critical| then cfg.batchSize else |critical|;
            && n > 0 && critical[..n] <= batch && batch[0] == critical[0]
            && Only(batch, IsCritical) == critical[..n]
            && forall e :: e in batch ==> !Fast(e)
  {
    CriticalGroup(w.events, w.lastFast);
    SelectionCriticals(cfg, w.events, false);
    SelectionExact(cfg, w.events, false);
    assert w.events != [];
  }

  ghost predicate FirstOf(q: seq<Event>, t: Test, n: nat) {
    n < |q| && Holds(t, q[n]) && forall i :: 0 <= i < n ==> !Holds(t, q[i])
  }

  ghost predicate NoneOf(q: seq<Event>, t: Test) {
    forall i :: 0 <= i < |q| ==> !Holds(t, q[i])
  }

  lemma FirstHolding(q: seq<Event>, t: Test, n: nat)
    requires FirstOf(q, t, n)
    ensures FirstIndex(q, t) == n
  {
    FirstIndexIsFirst(q, t);
  }

  lemma NoneHolding(q: seq<Event>, t: Test)
    requires NoneOf(q, t)
    ensures FirstIndex(q, t) == |q|
  {
    FirstIndexIsFirst(q, t);
  }

  // The event that decides the group when no critical event waits and no batch went before: the
  // oldest priority event, else the oldest market event, else the head of the buffer.
  ghost predicate Decisive(q: seq<Event>, n: nat) {
    || FirstOf(q, IsPriority, n)
    || (NoneOf(q, IsPriority) && FirstOf(q, IsMarketRefresh, n))
    || (NoneOf(q, IsPriority) && NoneOf(q, IsMarketRefresh) && n == 0 < |q|)
  }

  lemma OneGroupDecides(q: seq<Event>, n: nat, lastFast: Option<bool>)
    requires n < |q| && !(Present(q, IsFast) && Present(q, IsSlow))
    ensures FastGroup(q, lastFast) == Fast(q[n])
  {
    FirstIndexIsFirst(q, IsFast);
    FirstIndexIsFirst(q, IsSlow);
    assert Holds(IsFast, q[n]) || Holds(IsSlow, q[n]);
  }

  lemma DecisiveGroup(q: seq<Event>, n: nat)
    requires Decisive(q, n) && NoneOf(q, IsCritical)
    ensures FastGroup(q, None) == Fast(q[n])
  {
    NoneHolding(q, IsCritical);
    if Present(q, IsFast) && Present(q, IsSlow) {
      if FirstOf(q, IsPriority, n) {
        FirstHolding(q, IsPriority, n);
      } else {
        NoneHolding(q, IsPriority);
        if FirstOf(q, IsMarketRefresh, n) {
          FirstHolding(q, IsMarketRefresh, n);
        } else {
          NoneHolding(q, IsMarketRefresh);
        }
      }
    } else {
      OneGroupDecides(q, n, None);
    }
  }

  // The first batch, when no critical event waits, is of the group of the event that decides.
  lemma FirstBatchGroup(cfg: Config, w: Worker, n: nat)
    requires cfg.Valid() && Distinct(w.events) && w.lastFast == None
    requires NoneOf(w.events, IsCritical) && Decisive(w.events, n)
    ensures SelectBatch(cfg, w) != [] && forall e :: e in SelectBatch(cfg, w) ==> Fast(e) == Fast(w.events[n])
  {
    DecisiveGroup(w.events, n);
    SelectBatchExact(cfg, w);
  }

  // ---- when a post happens ---------------------------------------------------------------------

  // An attempt posts exactly when the back-off is over and something waits: a batch, or the head of
  // the buffer where the client takes single events.
  lemma AttemptPosts(cfg: Config, w: Worker, now: real)
    requires cfg.Valid() && Distinct(w.events)
    ensures var batch := Attempt(cfg, w, now);
            && (batch != [] <==> now >= w.nextPostRetryAt && w.events != [])
            && (batch != [] && !cfg.batchEndpoint ==> batch == [w.events[0]])
            && (batch != [] && cfg.batchEndpoint ==> batch == SelectBatch(cfg, w))
  {
    SelectBatchExact(cfg, w);
  }

  lemma AttemptCritical(cfg: Config, w: Worker, now: real)
    requires cfg.Valid() && Distinct(w.events) && CriticalFirst(w.events)
    requires now >= w.nextPostRetryAt && Only(w.events, IsCritical) != []
    ensures var batch := Attempt(cfg, w, now);
            && batch != [] && batch[0] == Only(w.events, IsCritical)[0]
            && forall e :: e in batch ==> !Fast(e)
  {
    AttemptPosts(cfg, w, now);
    if cfg.batchEndpoint {
      CriticalsServedFirst(cfg, w);
    } else {
      CriticalLead(w.events);
      OnlyMembers(w.events, IsCritical);
      assert Only(w.events, IsCritical)[0] in Only(w.events, IsCritical);
    }
  }

  // The oldest critical event queued is the first one not acknowledged.
  lemma NextCritical(r: Run)
    requires Ordered(r) && |Only(r.acked, IsCritical)| < |Only(r.accepted, IsCritical)|
    ensures Only(r.w.events, IsCritical) != []
    ensures Only(r.w.events, IsCritical)[0] == Only(r.accepted, IsCritical)[|Only(r.acked, IsCritical)|]
  {
  }

  lemma ServesNextCritical(cfg: Config, r: Run, now: real)
    requires cfg.Valid() && History(r) && Ordered(r)
    requires r.inflight == [] && now >= r.w.nextPostRetryAt
    requires |Only(r.acked, IsCritical)| < |Only(r.accepted, IsCritical)|
    ensures var batch := Attempt(cfg, r.w, now);
            && batch != [] && batch[0] == Only(r.accepted, IsCritical)[|Only(r.acked, IsCritical)|]
            && forall e :: e in batch ==> !Fast(e)
  {
    NextCritical(r);
    AttemptCritical(cfg, r.w, now);
  }

  // In every run, an attempt made while a critical event waits posts the first one that is not
  // acknowledged yet, first, and nothing of the fast group.
  lemma NextCriticalFirst(cfg: Config, steps: seq<Step>, now: real)
    requires cfg.Valid() && Admissible(cfg, FRESH_RUN, steps)
    requires var r := Execute(cfg, FRESH_RUN, steps);
             && r.inflight == [] && now >= r.w.nextPostRetryAt
             && |Only(r.acked, IsCritical)| < |Only(r.accepted, IsCritical)|
    ensures var r := Execute(cfg, FRESH_RUN, steps);
            var batch := Next(cfg, r, Begin(now)).inflight;
            && batch != [] && batch[0] == Only(r.accepted, IsCritical)[|Only(r.acked, IsCritical)|]
            && forall e :: e in batch ==> !Fast(e)
  {
    EveryRun(cfg, FRESH_RUN, steps);
    ServesNextCritical(cfg, Execute(cfg, FRESH_RUN, steps), now);
  }

  // ---- what the outcomes count -----------------------------------------------------------------

  // Posts that failed since the last one that did not.
  function ErrorsAfter(before: nat, steps: seq<Step>): nat
    decreases steps
  {
    if steps == [] then before
    else
      ErrorsAfter(match steps[0] case Answered(_) => 0 case Raised(_) => before + 1 case _ => before, steps[1..])
  }

  function Answers(steps: seq<Step>): nat {
    if steps == [] then 0 else (if steps[0].Answered? then 1 else 0) + Answers(steps[1..])
  }

  function Rejections(steps: seq<Step>): nat {
    if steps == [] then 0 else (if steps[0].Answered? then steps[0].rejected else 0) + Rejections(steps[1..])
  }

  // The consecutive errors are those since the last answer; batches and rejected events are counted
  // over the whole run, where the client takes batches.
  lemma {:induction false} OutcomesCounted(cfg: Config, r: Run, steps: seq<Step>)
    requires Admissible(cfg, r, steps)
    ensures var w := Execute(cfg, r, steps).w;
            && w.postErrors == ErrorsAfter(r.w.postErrors, steps)
            && w.batchPosts == r.w.batchPosts + (if cfg.batchEndpoint then Answers(steps) else 0)
            && w.rejected == r.w.rejected + (if cfg.batchEndpoint then Rejections(steps) else 0)
    decreases steps
  {
    if steps != [] {
      OutcomesCounted(cfg, Next(cfg, r, steps[0]), steps[1..]);
    }
  }

  // The batch on record is the last one acknowledged, by its size and its group.
  ghost predicate BatchOnRecord(r: Run) {
    && (r.w.lastFast == None <==> r.acked == [])
    && (r.w.lastFast.Some? ==>
          && 0 < r.w.latestBatchSize <= |r.acked|
          && r.w.lastFast.value == Fast(r.acked[|r.acked| - r.w.latestBatchSize]))
  }

  lemma {:induction false} LastBatchOnRecord(cfg: Config, r: Run, steps: seq<Step>)
    requires cfg.batchEndpoint && Admissible(cfg, r, steps) && BatchOnRecord(r)
    ensures BatchOnRecord(Execute(cfg, r, steps))
    decreases steps
  {
    if steps != [] {
      LastBatchOnRecord(cfg, Next(cfg, r, steps[0]), steps[1..]);
    }
  }

  // Delays double with each consecutive error, up to five seconds and ten doublings.
  lemma DelayDoubles(cfg: Config, n: nat)
    requires cfg.Valid() && n >= 1
    ensures RetryDelay(cfg, 1) == if cfg.retrySleep < 5.0 then cfg.retrySleep else 5.0
    ensures RetryDelay(cfg, n + 1)
         == if n > 10 then RetryDelay(cfg, n)
            else if 2.0 * RetryDelay(cfg, n) < 5.0 then 2.0 * RetryDelay(cfg, n) else 5.0
  {
    DoubledGrows(cfg.retrySleep, 0, if n - 1 > 10 then 10 else n - 1);
  }
}
