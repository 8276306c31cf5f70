// The shared event buffer between the Qt thread (enqueue) and the posting thread
// (select, post, remove). Every lock-protected region is one method.

module CoreIoBuffer {
  import opened CoreIoEvents

  datatype Option<T> = None | Some(value: T)

  datatype Config = Config(
    coalesceAfter: int,
    maxBuffer: int,
    batchSize: int,
    marketShare: int,
    retrySleep: real,
    postingEnabled: bool,
    batchEndpoint: bool)
  {
    predicate Valid() {
      && 1 <= coalesceAfter
      && 1 <= maxBuffer
      && 1 <= batchSize <= 200
      && 1 <= marketShare <= batchSize
      && 0.05 <= retrySleep
    }
  }

  datatype Worker = Worker(
    events: seq<Event>,
    coalesced: nat,
    dropped: nat,
    posted: nat,
    batchPosts: nat,
    latestBatchSize: nat,
    lastFast: Option<bool>,
    rejected: nat,
    postErrors: nat,
    nextPostRetryAt: real)

  const START := Worker([], 0, 0, 0, 0, 0, None, 0, 0, 0.0)
  const MAX_POST_RETRY_SLEEP_SEC := 5.0
  const PRIORITY_SHARE := 16

  function Min(a: int, b: int): int {
    if a <= b then a else b
  }

  // ---- enqueue -------------------------------------------------------------------------

  // One past the last command-critical event.
  function AfterCritical(q: seq<Event>): (n: nat)
    ensures n <= |q|
  {
    if q == [] then 0
    else if Critical(q[|q| - 1]) then |q|
    else AfterCritical(q[..|q| - 1])
  }

  function InsertAfterCritical(q: seq<Event>, e: Event): seq<Event> {
    InsertAt(q, AfterCritical(q), e)
  }

  // What the buffer limit discards next; `|q|` when everything left is protected.
  function DropIndex(q: seq<Event>): (n: nat)
    ensures n <= |q|
    ensures n < |q| ==> !Protected(q[n])
    ensures n == |q| ==> forall e :: e in q ==> Protected(e)
  {
    var d := FirstIndex(q, IsDroppable);
    FirstIndexIsFirst(q, IsUnprotected);
    if d < |q| then d else FirstIndex(q, IsUnprotected)
  }

  function EnforceLimit(maxBuffer: int, q: seq<Event>): (r: seq<Event>)
    ensures |r| <= |q|
    decreases |q|
  {
    if |q| <= maxBuffer || DropIndex(q) == |q| then q
    else EnforceLimit(maxBuffer, RemoveAt(q, DropIndex(q)))
  }

  function Accept(cfg: Config, w: Worker, q: seq<Event>, merged: nat): Worker {
    var r := EnforceLimit(cfg.maxBuffer, q);
    w.(events := r, coalesced := w.coalesced + merged, dropped := w.dropped + (|q| - |r|))
  }

  predicate Present(q: seq<Event>, t: Test) {
    FirstIndex(q, t) < |q|
  }

  // An event with the same coalescing key is waiting.
  predicate Mergeable(q: seq<Event>, e: Event) {
    KeyOf(e) != NoKey && Present(q, HasKey(KeyOf(e)))
  }

  function SameKeyIndex(q: seq<Event>, e: Event): (k: nat)
    requires Mergeable(q, e)
    ensures k < |q| && KeyOf(q[k]) == KeyOf(e)
  {
    FirstIndex(q, HasKey(KeyOf(e)))
  }

  function WithPriority(q: seq<Event>, e: Event): seq<Event> {
    InsertAfterCritical(if Mergeable(q, e) then RemoveAt(q, SameKeyIndex(q, e)) else q, e)
  }

  function Enqueue(cfg: Config, w: Worker, e: Event): Worker {
    var q := w.events;
    if !cfg.postingEnabled then w
    else if Critical(e) then Accept(cfg, w, InsertAfterCritical(q, e), 0)
    else if Priority(e) then Accept(cfg, w, WithPriority(q, e), if Mergeable(q, e) then 1 else 0)
    else if |q| >= cfg.coalesceAfter && Mergeable(q, e) then
      w.(events := q[SameKeyIndex(q, e) := e], coalesced := w.coalesced + 1)
    else Accept(cfg, w, q + [e], 0)
  }

  // ---- select --------------------------------------------------------------------------

  function FastGroup(q: seq<Event>, lastFast: Option<bool>): bool {
    if !Present(q, IsFast) then false
    else if !Present(q, IsSlow) then true
    else if Present(q, IsCritical) then Fast(q[FirstIndex(q, IsCritical)])
    else if lastFast.Some? then !lastFast.value
    else if Present(q, IsPriority) then Fast(q[FirstIndex(q, IsPriority)])
    else if Present(q, IsMarketRefresh) then Fast(q[FirstIndex(q, IsMarketRefresh)])
    else Fast(q[0])
  }

  // One `add_matching` pass over the queue.
  function AddMatching(q: seq<Event>, sel: seq<Event>, fast: bool, t: Test, items: int, limit: int)
    : seq<Event>
    decreases |q|
  {
    if q == [] || |sel| >= limit || items <= 0 then sel
    else if q[0] in sel || Fast(q[0]) != fast || !Holds(t, q[0]) then
      AddMatching(q[1..], sel, fast, t, items, limit)
    else AddMatching(q[1..], sel + [q[0]], fast, t, items - 1, limit)
  }

  // The critical pass, then at most sixteen priority events.
  function UrgentPasses(q: seq<Event>, fast: bool, limit: int): seq<Event> {
    var s1 := AddMatching(q, [], fast, IsCritical, limit, limit);
    AddMatching(q, s1, fast, IsPriorityOnly, Min(PRIORITY_SHARE, limit - |s1|), limit)
  }

  function SelectFrom(cfg: Config, q: seq<Event>, fast: bool): seq<Event> {
    var limit := Min(cfg.batchSize, |q|);
    var s2 := UrgentPasses(q, fast, limit);
    var s3 := AddMatching(q, s2, fast, IsMarketRefresh, Min(cfg.marketShare, limit - |s2|), limit);
    AddMatching(q, s3, fast, Anything, limit - |s3|, limit)
  }

  function SelectBatch(cfg: Config, w: Worker): seq<Event> {
    if w.events == [] then [] else SelectFrom(cfg, w.events, FastGroup(w.events, w.lastFast))
  }

  // What a posting attempt at `now` sends; empty while backing off or idle.
  function Attempt(cfg: Config, w: Worker, now: real): seq<Event> {
    if now < w.nextPostRetryAt || w.events == [] then []
    else if cfg.batchEndpoint then SelectBatch(cfg, w)
    else w.events[..1]
  }

  // ---- outcome -------------------------------------------------------------------------

  function PostedOk(cfg: Config, w: Worker, batch: seq<Event>, rejectedCount: nat): Worker
    requires batch != []
  {
    var u := w.(events := RemoveEach(w.events, batch), posted := w.posted + |batch|, postErrors := 0);
    if !cfg.batchEndpoint then u
    else u.(batchPosts := w.batchPosts + 1, latestBatchSize := |batch|,
            lastFast := Some(Fast(batch[0])), rejected := w.rejected + rejectedCount)
  }

  // `base * 2 ** n`
  function Doubled(base: real, n: nat): real {
    if n == 0 then base else 2.0 * Doubled(base, n - 1)
  }

  function Capped(delay: real): real {
    if delay <= MAX_POST_RETRY_SLEEP_SEC then delay else MAX_POST_RETRY_SLEEP_SEC
  }

  function RetryDelay(cfg: Config, errors: nat): real {
    var exponent := if errors == 0 then 0 else if errors - 1 > 10 then 10 else errors - 1;
    Capped(Doubled(cfg.retrySleep, exponent))
  }

  function PostFailed(cfg: Config, w: Worker, now: real): Worker {
    w.(postErrors := w.postErrors + 1, nextPostRetryAt := now + RetryDelay(cfg, w.postErrors + 1))
  }

  // ---- the worker object ---------------------------------------------------------------

  class CoreIoWorker {
    const cfg: Config
    var events: seq<Event>
    var coalescedCount: nat
    var droppedCount: nat
    var postedCount: nat
    var batchPostCount: nat
    var latestBatchSize: nat
    var lastSuccessfulBatchFast: Option<bool>
    var rejectedEventCount: nat
    var consecutivePostErrorCount: nat
    var nextPostRetryAt: real

    ghost function Model(): Worker
      reads this
    {
      Worker(events, coalescedCount, droppedCount, postedCount, batchPostCount, latestBatchSize,
             lastSuccessfulBatchFast, rejectedEventCount, consecutivePostErrorCount, nextPostRetryAt)
    }

    constructor (coalesceAfterSize: int, maxBufferSize: int, eventBatchSize: int, marketBatchShare: int,
                 retrySleepSec: real, eventPostingEnabled: bool, hasBatchEndpoint: bool)
      ensures cfg.Valid() && Model() == START
      ensures cfg.postingEnabled == eventPostingEnabled && cfg.batchEndpoint == hasBatchEndpoint
      ensures if 1 <= coalesceAfterSize then cfg.coalesceAfter == coalesceAfterSize else cfg.coalesceAfter == 1
      ensures if 1 <= maxBufferSize then cfg.maxBuffer == maxBufferSize else cfg.maxBuffer == 1
      ensures if eventBatchSize < 1 then cfg.batchSize == 1
              else if eventBatchSize > 200 then cfg.batchSize == 200
              else cfg.batchSize == eventBatchSize
      ensures if marketBatchShare < 1 then cfg.marketShare == 1
              else if marketBatchShare > cfg.batchSize then cfg.marketShare == cfg.batchSize
              else cfg.marketShare == marketBatchShare
      ensures if 0.05 <= retrySleepSec then cfg.retrySleep == retrySleepSec else cfg.retrySleep == 0.05
    {
      var batch := Min(if eventBatchSize < 1 then 1 else eventBatchSize, 200);
      cfg := Config(
        if coalesceAfterSize < 1 then 1 else coalesceAfterSize,
        if maxBufferSize < 1 then 1 else maxBufferSize,
        batch,
        Min(if marketBatchShare < 1 then 1 else marketBatchShare, batch),
        if retrySleepSec < 0.05 then 0.05 else retrySleepSec,
        eventPostingEnabled,
        hasBatchEndpoint);
      events, coalescedCount, droppedCount, postedCount := [], 0, 0, 0;
      batchPostCount, latestBatchSize, lastSuccessfulBatchFast := 0, 0, None;
      rejectedEventCount, consecutivePostErrorCount, nextPostRetryAt := 0, 0, 0.0;
    }

    method EnqueueEvent(e: Event)
      modifies this
      ensures Model() == Enqueue(cfg, old(Model()), e)
    {
      if !cfg.postingEnabled {
        return;
      }
      if Critical(e) {
        AcceptCritical(e);
      } else if Priority(e) {
        AcceptPriority(e);
      } else {
        var merged := false;
        if |events| >= cfg.coalesceAfter {
          merged := CoalesceEvent(e);
        }
        if !merged {
          AcceptLast(e);
        }
      }
    }

    method AcceptCritical(e: Event)
      modifies this`events, this`droppedCount
      ensures Model() == Accept(cfg, old(Model()), InsertAfterCritical(old(events), e), 0)
    {
      InsertAfterCommandCritical(e);
      EnforceBufferLimit();
    }

    method AcceptPriority(e: Event)
      modifies this`events, this`coalescedCount, this`droppedCount
      ensures Model() == Accept(cfg, old(Model()), WithPriority(old(events), e), if Mergeable(old(events), e) then 1 else 0)
    {
      EnqueuePriorityEvent(e);
      EnforceBufferLimit();
    }

    method AcceptLast(e: Event)
      modifies this`events, this`droppedCount
      ensures Model() == Accept(cfg, old(Model()), old(events) + [e], 0)
    {
      events := events + [e];
      EnforceBufferLimit();
    }

    method FindFirst(t: Test) returns (n: nat)
      ensures n == FirstIndex(events, t)
    {
      n := 0;
      while n < |events| && !Holds(t, events[n])
        invariant n <= |events|
        invariant FirstIndex(events, t) == n + FirstIndex(events[n..], t)
      {
        n := n + 1;
      }
    }

    method EnforceBufferLimit()
      modifies this`events, this`droppedCount
      ensures events == EnforceLimit(cfg.maxBuffer, old(events))
      ensures droppedCount == old(droppedCount) + (|old(events)| - |events|)
    {
      while |events| > cfg.maxBuffer
        invariant EnforceLimit(cfg.maxBuffer, events) == EnforceLimit(cfg.maxBuffer, old(events))
        invariant |events| <= |old(events)|
        invariant droppedCount == old(droppedCount) + (|old(events)| - |events|)
        decreases |events|
      {
        var dropIndex := FindFirst(IsDroppable);
        if dropIndex == |events| {
          dropIndex := FindFirst(IsUnprotected);
        }
        if dropIndex == |events| {
          return;
        }
        events := events[..dropIndex] + events[dropIndex + 1..];
        droppedCount := droppedCount + 1;
      }
    }

    method CoalesceEvent(e: Event) returns (merged: bool)
      modifies this`events, this`coalescedCount
      ensures merged == Mergeable(old(events), e)
      ensures merged ==> events == old(events)[SameKeyIndex(old(events), e) := e]
      ensures coalescedCount == old(coalescedCount) + if merged then 1 else 0
      ensures !merged ==> events == old(events)
    {
      if KeyOf(e) == NoKey {
        return false;
      }
      var index := FindFirst(HasKey(KeyOf(e)));
      if index == |events| {
        return false;
      }
      events := events[index := e];
      coalescedCount := coalescedCount + 1;
      return true;
    }

    method EnqueuePriorityEvent(e: Event)
      modifies this`events, this`coalescedCount
      ensures events == WithPriority(old(events), e)
      ensures coalescedCount == old(coalescedCount) + if Mergeable(old(events), e) then 1 else 0
    {
      if KeyOf(e) != NoKey {
        var index := FindFirst(HasKey(KeyOf(e)));
        if index < |events| {
          events := events[..index] + events[index + 1..];
          coalescedCount := coalescedCount + 1;
        }
      }
      InsertAfterCommandCritical(e);
    }

    method InsertAfterCommandCritical(e: Event)
      modifies this`events
      ensures events == InsertAfterCritical(old(events), e)
    {
      var insertAt := 0;
      for index := 0 to |events|
        invariant insertAt == AfterCritical(events[..index])
      {
        assert events[..index + 1][..index] == events[..index];
        if Critical(events[index]) {
          insertAt := index + 1;
        }
      }
      assert events[..|events|] == events;
      events := events[..insertAt] + [e] + events[insertAt..];
    }

    method SelectEventBatch() returns (selected: seq<Event>)
      requires cfg.Valid()
      ensures selected == SelectBatch(cfg, Model())
    {
      var limit := Min(cfg.batchSize, |events|);
      if limit <= 0 {
        return [];
      }
      var fast := SelectBatchFastGroup();
      selected := AddMatchingEvents([], fast, IsCritical, limit, limit);
      selected := AddMatchingEvents(selected, fast, IsPriorityOnly, Min(PRIORITY_SHARE, limit - |selected|), limit);
      selected := AddMatchingEvents(selected, fast, IsMarketRefresh, Min(cfg.marketShare, limit - |selected|), limit);
      selected := AddMatchingEvents(selected, fast, Anything, limit - |selected|, limit);
    }

    method AddMatchingEvents(sel: seq<Event>, fast: bool, t: Test, itemLimit: int, limit: int)
      returns (selected: seq<Event>)
      ensures selected == AddMatching(events, sel, fast, t, itemLimit, limit)
    {
      selected := sel;
      var items := itemLimit;
      var i := 0;
      while i < |events|
        invariant i <= |events|
        invariant AddMatching(events[i..], selected, fast, t, items, limit)
               == AddMatching(events, sel, fast, t, itemLimit, limit)
      {
        if |selected| >= limit || items <= 0 {
          break;
        }
        var e := events[i];
        assert events[i..][0] == e && events[i..][1..] == events[i + 1..];
        if e !in selected && Fast(e) == fast && Holds(t, e) {
          selected := selected + [e];
          items := items - 1;
        }
        i := i + 1;
      }
    }

    method SelectBatchFastGroup() returns (fast: bool)
      requires events != []
      ensures fast == FastGroup(events, lastSuccessfulBatchFast)
    {
      var firstFast := FindFirst(IsFast);
      var firstSlow := FindFirst(IsSlow);
      if firstFast == |events| {
        return false;
      }
      if firstSlow == |events| {
        return true;
      }
      var critical := FindFirst(IsCritical);
      if critical < |events| {
        return Fast(events[critical]);
      }
      if lastSuccessfulBatchFast.Some? {
        return !lastSuccessfulBatchFast.value;
      }
      var preferred := FindFirst(IsPriority);
      if preferred == |events| {
        preferred := FindFirst(IsMarketRefresh);
      }
      return Fast(if preferred < |events| then events[preferred] else events[0]);
    }

    // First half of a post: everything before the HTTP call.
    method BeginPost(now: real) returns (batch: seq<Event>)
      requires cfg.Valid()
      ensures batch == Attempt(cfg, Model(), now)
    {
      if now < nextPostRetryAt || |events| == 0 {
        return [];
      }
      if cfg.batchEndpoint {
        batch := SelectEventBatch();
      } else {
        batch := [events[0]];
      }
    }

    // Second half, Core answered.
    method FinishPost(batch: seq<Event>, rejectedCount: nat)
      requires batch != []
      modifies this
      ensures Model() == PostedOk(cfg, old(Model()), batch, rejectedCount)
    {
      for i := 0 to |batch|
        invariant Model() == old(Model()).(events := events)
        invariant RemoveEach(events, batch[i..]) == RemoveEach(old(events), batch)
      {
        assert batch[i..][0] == batch[i] && batch[i..][1..] == batch[i + 1..];
        RemoveEventByIdentity(batch[i]);
      }
      postedCount := postedCount + |batch|;
      if cfg.batchEndpoint {
        batchPostCount := batchPostCount + 1;
        latestBatchSize := |batch|;
        lastSuccessfulBatchFast := Some(Fast(batch[0]));
        rejectedEventCount := rejectedEventCount + rejectedCount;
      }
      consecutivePostErrorCount := 0;
    }

    // Second half, the call raised.
    method FailPost(now: real)
      modifies this
      ensures Model() == PostFailed(cfg, old(Model()), now)
    {
      consecutivePostErrorCount := consecutivePostErrorCount + 1;
      nextPostRetryAt := now + RetryDelay(cfg, consecutivePostErrorCount);
    }

    method RemoveEventByIdentity(e: Event)
      modifies this`events
      ensures events == RemoveFirst(old(events), e)
    {
      var i := 0;
      while i < |events|
        invariant i <= |events|
        invariant events == old(events)
        invariant e !in events[..i]
      {
        if events[i] == e {
          RemoveFirstAt(events, e, i);
          events := events[..i] + events[i + 1..];
          return;
        }
        assert events[..i + 1] == events[..i] + [events[i]];
        i := i + 1;
      }
      RemoveFirstAt(events, e, i);
    }
  }
}
