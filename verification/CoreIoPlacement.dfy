// Where an enqueued event ends up, and which events the buffer limit costs, told by classes of
// events instead of scans.

module CoreIoPlacement {
  import opened CoreIoEvents
  import opened CoreIoBuffer
  import opened CoreIoSelection
  import opened CoreIoRuns

  // Every event type is critical, a TR response, droppable or one of two others; and only types
  // that may be dropped, besides market-index ticks of no index, have a key.
  lemma ClassesPartition(e: Event)
    ensures Critical(e) <==> e.kind !in {Heartbeat, PriceTick, QuoteTick, MarketIndexTick, GatewayLog,
                                         TrResponse, ConditionEvent, OtherKind}
    ensures Protected(e) <==> Critical(e) || e.kind == TrResponse
    ensures Protected(e) ==> !Droppable(e) && !Fast(e) && KeyOf(e) == NoKey
    ensures !Protected(e) && !Droppable(e) <==> e.kind == ConditionEvent || e.kind == OtherKind
    ensures Critical(e) ==> !Priority(e) && !MarketRefresh(e)
    ensures Priority(e) <==> e.kind == TrResponse || (KeyOf(e) != NoKey && !MarketRefresh(e)) || e.kind == MarketIndexTick
    ensures MarketRefresh(e) <==> Droppable(e) && e.kind != Heartbeat && e.kind != GatewayLog
    ensures Fast(e) <==> e.kind == ConditionEvent || (MarketRefresh(e) && !Priority(e) && e.kind != QuoteTick)
  {
  }

  // Two events share a key exactly when they are heartbeats of one source, ticks of one kind and code,
  // or index ticks of one index, which is named by its code where it has no index code.
  lemma KeysAgree(a: Event, b: Event)
    ensures KeyOf(a) != NoKey && KeyOf(a) == KeyOf(b) <==>
            && a.kind == b.kind
            && (|| (a.kind == Heartbeat && a.source == b.source)
                || ((a.kind == PriceTick || a.kind == QuoteTick) && a.code == b.code && a.code != "")
                || (a.kind == MarketIndexTick && IndexName(a) == IndexName(b) && IndexName(a) != ""))
  {
  }

  function IndexName(e: Event): string {
    if e.indexCode == "" then e.code else e.indexCode
  }

  // ---- scans and classes ---------------------------------------------------------------------

  lemma {:induction false} FirstIsOnlyHead(q: seq<Event>, t: Test)
    ensures FirstIndex(q, t) == |q| <==> Only(q, t) == []
    ensures FirstIndex(q, t) < |q| ==> Only(q, t)[0] == q[FirstIndex(q, t)]
  {
    if q != [] && !Holds(t, q[0]) {
      FirstIsOnlyHead(q[1..], t);
    }
  }

  lemma FirstRemoved(q: seq<Event>, t: Test)
    requires FirstIndex(q, t) < |q|
    ensures RemoveFirst(q, q[FirstIndex(q, t)]) == RemoveAt(q, FirstIndex(q, t))
  {
    var i := FirstIndex(q, t);
    FirstIndexIsFirst(q, t);
    RemoveFirstAt(q, q[i], i);
  }

  // The queue without its first event of a class.
  lemma WithoutFirst(q: seq<Event>, t: Test, u: Test) returns (e: Event, r: seq<Event>)
    requires FirstIndex(q, t) < |q|
    ensures e == q[FirstIndex(q, t)] && r == RemoveAt(q, FirstIndex(q, t)) == RemoveFirst(q, e)
    ensures Only(q, t) == [e] + Only(r, t)
    ensures Only(r, u) == if Holds(u, e) then RemoveFirst(Only(q, u), e) else Only(q, u)
  {
    e, r := q[FirstIndex(q, t)], RemoveAt(q, FirstIndex(q, t));
    FirstIsOnlyHead(q, t);
    FirstRemoved(q, t);
    OnlyRemoveFirst(q, e, t);
    OnlyRemoveFirst(q, e, u);
  }

  // ---- the buffer limit ----------------------------------------------------------------------

  function Least(a: int, b: nat): (n: nat)
    ensures n <= b
  {
    if a < 0 then 0 else if a < b then a else b
  }

  // The oldest droppable events, as many as are too many; then the oldest unprotected others.
  function Victims(q: seq<Event>, excess: int): seq<Event> {
    var droppable, spare := Only(q, IsDroppable), Only(q, IsSpare);
    droppable[..Least(excess, |droppable|)] + spare[..Least(excess - |droppable|, |spare|)]
  }

  lemma VictimsStep(q: seq<Event>, excess: int, e: Event, r: seq<Event>)
    requires excess > 0
    requires || (Only(q, IsDroppable) == [e] + Only(r, IsDroppable) && Only(r, IsSpare) == Only(q, IsSpare))
             || (Only(q, IsDroppable) == [] == Only(r, IsDroppable) && Only(q, IsSpare) == [e] + Only(r, IsSpare))
    ensures Victims(q, excess) == [e] + Victims(r, excess - 1)
  {
  }

  lemma DropDroppable(q: seq<Event>, excess: int) returns (e: Event, r: seq<Event>)
    requires FirstIndex(q, IsDroppable) < |q| && excess > 0
    ensures e == q[FirstIndex(q, IsDroppable)] && r == RemoveAt(q, FirstIndex(q, IsDroppable)) == RemoveFirst(q, e)
    ensures Victims(q, excess) == [e] + Victims(r, excess - 1)
  {
    e, r := WithoutFirst(q, IsDroppable, IsSpare);
    assert Holds(IsDroppable, e) && !Holds(IsSpare, e);
    assert Only(r, IsSpare) == Only(q, IsSpare);
    VictimsStep(q, excess, e, r);
  }

  lemma DropSpare(q: seq<Event>, excess: int) returns (e: Event, r: seq<Event>)
    requires Only(q, IsDroppable) == [] && FirstIndex(q, IsSpare) < |q| && excess > 0
    ensures e == q[FirstIndex(q, IsSpare)] && r == RemoveAt(q, FirstIndex(q, IsSpare)) == RemoveFirst(q, e)
    ensures Victims(q, excess) == [e] + Victims(r, excess - 1)
  {
    e, r := WithoutFirst(q, IsSpare, IsDroppable);
    assert Holds(IsSpare, e) && !Holds(IsDroppable, e);
    assert Only(r, IsDroppable) == Only(q, IsDroppable);
    VictimsStep(q, excess, e, r);
  }

  // One event over the limit: the oldest droppable one goes, or else the oldest unprotected other.
  lemma DropStep(q: seq<Event>, excess: int) returns (e: Event, r: seq<Event>)
    requires DropIndex(q) < |q| && excess > 0
    ensures r == RemoveAt(q, DropIndex(q)) == RemoveFirst(q, e)
    ensures Victims(q, excess) == [e] + Victims(r, excess - 1)
  {
    if FirstIndex(q, IsDroppable) < |q| {
      e, r := DropDroppable(q, excess);
    } else {
      FirstIsOnlyHead(q, IsDroppable);
      NoneDroppable(q);
      e, r := DropSpare(q, excess);
    }
  }

  lemma {:induction false} NoneDroppable(q: seq<Event>)
    requires Only(q, IsDroppable) == []
    ensures FirstIndex(q, IsUnprotected) == FirstIndex(q, IsSpare)
  {
    if q != [] {
      NoneDroppable(q[1..]);
    }
  }

  lemma NoVictims(q: seq<Event>, excess: int)
    requires forall e :: e in q ==> Protected(e)
    ensures Victims(q, excess) == []
  {
    assert forall e :: e in q ==> !Holds(IsDroppable, e) && !Holds(IsSpare, e);
    OnlyAllOrNone(q, IsDroppable);
    OnlyAllOrNone(q, IsSpare);
  }

  lemma RemoveEachThen(q: seq<Event>, e: Event, r: seq<Event>, rest: seq<Event>, victims: seq<Event>)
    requires r == RemoveFirst(q, e) && victims == [e] + rest
    ensures RemoveEach(q, victims) == RemoveEach(r, rest)
  {
    assert victims[1..] == rest;
  }

  lemma LimitStep(maxBuffer: int, q: seq<Event>) returns (e: Event, r: seq<Event>)
    requires |q| > maxBuffer && DropIndex(q) < |q|
    ensures r == RemoveFirst(q, e) && |r| == |q| - 1
    ensures EnforceLimit(maxBuffer, q) == EnforceLimit(maxBuffer, r)
    ensures Victims(q, |q| - maxBuffer) == [e] + Victims(r, |r| - maxBuffer)
  {
    e, r := DropStep(q, |q| - maxBuffer);
  }

  lemma NothingDropped(maxBuffer: int, q: seq<Event>)
    requires |q| <= maxBuffer || DropIndex(q) == |q|
    ensures EnforceLimit(maxBuffer, q) == q && Victims(q, |q| - maxBuffer) == []
  {
    if |q| > maxBuffer {
      NoVictims(q, |q| - maxBuffer);
    }
  }

  // The limit costs exactly those events, one by one, and nothing else moves.
  lemma {:induction false} LimitCosts(maxBuffer: int, q: seq<Event>)
    ensures EnforceLimit(maxBuffer, q) == RemoveEach(q, Victims(q, |q| - maxBuffer))
    decreases |q|
  {
    if |q| <= maxBuffer || DropIndex(q) == |q| {
      NothingDropped(maxBuffer, q);
    } else {
      var e, r := LimitStep(maxBuffer, q);
      LimitCosts(maxBuffer, r);
      RemoveEachThen(q, e, r, Victims(r, |r| - maxBuffer), Victims(q, |q| - maxBuffer));
    }
  }

  // ---- an arrival ----------------------------------------------------------------------------

  lemma CutByClass(a: seq<Event>, b: seq<Event>)
    requires forall e :: e in a ==> Critical(e)
    requires forall e :: e in b ==> !Critical(e)
    ensures Only(a + b, IsCritical) == a && Only(a + b, IsOrdinary) == b
  {
    OnlyConcat(a, b, IsCritical);
    OnlyConcat(a, b, IsOrdinary);
    OnlyAllOrNone(a, IsCritical);
    OnlyAllOrNone(b, IsCritical);
    OnlyAllOrNone(a, IsOrdinary);
    OnlyAllOrNone(b, IsOrdinary);
  }

  // Critical events lead, so a queue is its critical events and then the others.
  lemma CriticalsThenOthers(q: seq<Event>)
    requires CriticalFirst(q)
    ensures var n := AfterCritical(q); q[..n] == Only(q, IsCritical) && q[n..] == Only(q, IsOrdinary)
  {
    var n := AfterCritical(q);
    AfterCriticalCuts(q);
    CutByClass(q[..n], q[n..]);
    assert q == q[..n] + q[n..];
  }

  lemma InsertBetween(q: seq<Event>, e: Event)
    requires CriticalFirst(q)
    ensures InsertAfterCritical(q, e) == Only(q, IsCritical) + [e] + Only(q, IsOrdinary)
  {
    CriticalsThenOthers(q);
  }

  // The queue without its oldest event of the arrival's key, if there is one.
  function Superseded(q: seq<Event>, e: Event): seq<Event> {
    var same := Only(q, HasKey(KeyOf(e)));
    if KeyOf(e) != NoKey && same != [] then RemoveFirst(q, same[0]) else q
  }

  lemma KeyWaits(q: seq<Event>, e: Event)
    ensures Mergeable(q, e) <==> KeyOf(e) != NoKey && Only(q, HasKey(KeyOf(e))) != []
  {
    FirstIsOnlyHead(q, HasKey(KeyOf(e)));
  }

  lemma KeyedOrdinary(q: seq<Event>, e: Event) returns (x: Event, r: seq<Event>)
    requires Mergeable(q, e)
    ensures r == RemoveAt(q, SameKeyIndex(q, e)) == RemoveFirst(q, x)
    ensures !Critical(x) && Only(q, HasKey(KeyOf(e))) == [x] + Only(r, HasKey(KeyOf(e)))
    ensures Only(r, IsCritical) == Only(q, IsCritical)
    ensures Only(r, IsOrdinary) == RemoveFirst(Only(q, IsOrdinary), x)
  {
    var t := HasKey(KeyOf(e));
    KeyedUnprotected(q[SameKeyIndex(q, e)]);
    x, r := WithoutFirst(q, t, IsCritical);
    assert !Holds(IsCritical, x) && Holds(IsOrdinary, x);
    OnlyRemoveFirst(q, x, IsOrdinary);
  }

  lemma PriorityBetween(q: seq<Event>, e: Event)
    requires CriticalFirst(q)
    ensures WithPriority(q, e) == Only(q, IsCritical) + [e] + Superseded(Only(q, IsOrdinary), e)
  {
    KeyWaits(q, e);
    OnlyOrdinaryKeyed(q, KeyOf(e));
    if Mergeable(q, e) {
      var x, r := KeyedOrdinary(q, e);
      RemoveKeepsCriticalFirst(q, x);
      InsertBetween(r, e);
    } else {
      InsertBetween(q, e);
    }
  }

  lemma {:induction false} OnlyOrdinaryKeyed(q: seq<Event>, key: Key)
    ensures key != NoKey ==> Only(Only(q, IsOrdinary), HasKey(key)) == Only(q, HasKey(key))
  {
    if q != [] {
      OnlyOrdinaryKeyed(q[1..], key);
      KeyedUnprotected(q[0]);
    }
  }

  // The arrival is in, at the cost the limit takes.
  ghost predicate Limited(cfg: Config, w: Worker, full: seq<Event>, u: Worker) {
    && u.events == RemoveEach(full, Victims(full, |full| - cfg.maxBuffer))
    && u.dropped == w.dropped + (|full| - |u.events|)
  }

  // What one arrival makes of the buffer: a critical event goes behind the critical ones, a priority
  // event there too and in place of the oldest of its key, any other event takes the place of the
  // oldest of its key once the buffer is long enough, or goes last; then the limit takes its toll.
  ghost predicate Places(cfg: Config, w: Worker, e: Event, u: Worker) {
    var q := w.events;
    var critical, others := Only(q, IsCritical), Only(q, IsOrdinary);
    var keyed := KeyOf(e) != NoKey && Only(q, HasKey(KeyOf(e))) != [];
    if Critical(e) then
      Limited(cfg, w, critical + [e] + others, u) && u.coalesced == w.coalesced
    else if Priority(e) then
      && Limited(cfg, w, critical + [e] + Superseded(others, e), u)
      && u.coalesced == w.coalesced + if keyed then 1 else 0
    else if keyed && |q| >= cfg.coalesceAfter then
      && (exists k :: ReplacedAt(q, k, e, u.events))
      && u.dropped == w.dropped && u.coalesced == w.coalesced + 1
    else
      Limited(cfg, w, q + [e], u) && u.coalesced == w.coalesced
  }

  // `r` is `q` with its first event of e's key replaced.
  ghost predicate ReplacedAt(q: seq<Event>, k: nat, e: Event, r: seq<Event>) {
    && k < |q| && KeyOf(q[k]) == KeyOf(e) && r == q[k := e]
    && forall i :: 0 <= i < k ==> KeyOf(q[i]) != KeyOf(e)
  }

  lemma MergeReplaces(q: seq<Event>, e: Event)
    requires Mergeable(q, e)
    ensures ReplacedAt(q, SameKeyIndex(q, e), e, q[SameKeyIndex(q, e) := e])
  {
    FirstIndexIsFirst(q, HasKey(KeyOf(e)));
    forall i | 0 <= i < SameKeyIndex(q, e) ensures KeyOf(q[i]) != KeyOf(e) {
      assert !Holds(HasKey(KeyOf(e)), q[i]);
    }
  }

  lemma AcceptLimited(cfg: Config, w: Worker, full: seq<Event>, merged: nat)
    ensures Limited(cfg, w, full, Accept(cfg, w, full, merged))
  {
    LimitCosts(cfg.maxBuffer, full);
  }

  lemma EnqueuePlaces(cfg: Config, w: Worker, e: Event)
    requires cfg.postingEnabled && CriticalFirst(w.events)
    ensures Places(cfg, w, e, Enqueue(cfg, w, e))
  {
    var q := w.events;
    KeyWaits(q, e);
    if Critical(e) {
      InsertBetween(q, e);
      AcceptLimited(cfg, w, InsertAfterCritical(q, e), 0);
    } else if Priority(e) {
      PriorityBetween(q, e);
      AcceptLimited(cfg, w, WithPriority(q, e), if Mergeable(q, e) then 1 else 0);
    } else if |q| >= cfg.coalesceAfter && Mergeable(q, e) {
      MergeReplaces(q, e);
    } else {
      AcceptLimited(cfg, w, q + [e], 0);
    }
  }

  // In every run.
  lemma ArrivalsPlaced(cfg: Config, steps: seq<Step>, e: Event)
    requires cfg.Valid() && cfg.postingEnabled && Admissible(cfg, FRESH_RUN, steps)
    ensures var w := Execute(cfg, FRESH_RUN, steps).w; Places(cfg, w, e, Enqueue(cfg, w, e))
  {
    EveryRun(cfg, FRESH_RUN, steps);
    EnqueuePlaces(cfg, Execute(cfg, FRESH_RUN, steps).w, e);
  }
}
