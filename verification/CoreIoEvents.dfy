// Gateway events as the Core I/O worker sees them: identity, class and coalescing key.

module CoreIoEvents {

  // `event_type` after `strip().lower()`.
  datatype Kind =
    | Heartbeat | PriceTick | QuoteTick | MarketIndexTick | TrResponse
    | ConditionEvent | GatewayLog
    | CommandStarted | CommandAck | CommandFailed | RateLimited | ExecutionEvent
    | OrderPreAck | OrderBrokerUnconfirmed
    | OrderChejan | BalanceChejan | SpecialChejan
    | OtherKind

  // `ident` is the Python object identity (`is`, `id(...)`); text fields are already stripped.
  datatype Event = Event(ident: nat, kind: Kind, source: string, code: string, indexCode: string)

  datatype Key = NoKey | Key(kind: Kind, name: string)

  function KeyOf(e: Event): Key {
    match e.kind
    case Heartbeat => Key(Heartbeat, e.source)
    case PriceTick => if e.code == "" then NoKey else Key(PriceTick, e.code)
    case QuoteTick => if e.code == "" then NoKey else Key(QuoteTick, e.code)
    case MarketIndexTick =>
      var name := if e.indexCode != "" then e.indexCode else e.code;
      if name == "" then NoKey else Key(MarketIndexTick, name)
    case _ => NoKey
  }

  predicate Fast(e: Event) {
    e.kind.PriceTick? || e.kind.ConditionEvent?
  }

  predicate Priority(e: Event) {
    e.kind.Heartbeat? || e.kind.MarketIndexTick? || e.kind.TrResponse?
  }

  predicate MarketRefresh(e: Event) {
    e.kind.PriceTick? || e.kind.QuoteTick? || e.kind.MarketIndexTick?
  }

  predicate Critical(e: Event) {
    match e.kind
    case CommandStarted | CommandAck | CommandFailed | RateLimited | ExecutionEvent => true
    case OrderPreAck | OrderBrokerUnconfirmed => true
    case OrderChejan | BalanceChejan | SpecialChejan => true
    case _ => false
  }

  predicate Droppable(e: Event) {
    e.kind.Heartbeat? || e.kind.PriceTick? || e.kind.QuoteTick? || e.kind.MarketIndexTick? || e.kind.GatewayLog?
  }

  predicate Protected(e: Event) {
    Critical(e) || e.kind.TrResponse?
  }

  // The predicates the worker's scans use, and the two classes a queue is described with.
  datatype Test =
    | HasKey(key: Key)
    | IsCritical
    | IsDroppable
    | IsUnprotected
    | IsPriority
    | IsPriorityOnly
    | IsMarketRefresh
    | IsFast
    | IsSlow
    | Anything
    | IsOrdinary
    | IsSpare

  predicate Holds(t: Test, e: Event) {
    match t
    case HasKey(k) => KeyOf(e) == k
    case IsCritical => Critical(e)
    case IsDroppable => Droppable(e)
    case IsUnprotected => !Protected(e)
    case IsPriority => Priority(e)
    case IsPriorityOnly => Priority(e) && !Critical(e)
    case IsMarketRefresh => MarketRefresh(e)
    case IsFast => Fast(e)
    case IsSlow => !Fast(e)
    case Anything => true
    case IsOrdinary => !Critical(e)
    case IsSpare => !Protected(e) && !Droppable(e)
  }

  // Where a scan from the front stops; `|q|` when nothing matches.
  function FirstIndex(q: seq<Event>, t: Test): (n: nat)
    ensures n <= |q|
    ensures n < |q| ==> Holds(t, q[n])
  {
    if q == [] then 0
    else if Holds(t, q[0]) then 0
    else 1 + FirstIndex(q[1..], t)
  }

  lemma {:induction false} FirstIndexIsFirst(q: seq<Event>, t: Test)
    ensures forall i :: 0 <= i < FirstIndex(q, t) ==> !Holds(t, q[i])
    ensures (exists e :: e in q && Holds(t, e)) <==> FirstIndex(q, t) < |q|
  {
    if q != [] && !Holds(t, q[0]) {
      FirstIndexIsFirst(q[1..], t);
      assert q == [q[0]] + q[1..];
    } else if q != [] {
      assert q[0] in q;
    }
  }

  // The matching events, in queue order.
  function Only(q: seq<Event>, t: Test): (r: seq<Event>)
    ensures |r| <= |q|
  {
    if q == [] then []
    else if Holds(t, q[0]) then [q[0]] + Only(q[1..], t)
    else Only(q[1..], t)
  }

  // Removal by identity: the first occurrence, or nothing.
  function RemoveFirst(q: seq<Event>, e: Event): (r: seq<Event>)
    ensures e !in q ==> r == q
    ensures e in q ==> |r| == |q| - 1
  {
    if q == [] then []
    else if q[0] == e then q[1..]
    else [q[0]] + RemoveFirst(q[1..], e)
  }

  function RemoveEach(q: seq<Event>, batch: seq<Event>): seq<Event>
    decreases batch
  {
    if batch == [] then q else RemoveEach(RemoveFirst(q, batch[0]), batch[1..])
  }

  function RemoveAt(q: seq<Event>, i: nat): seq<Event>
    requires i < |q|
  {
    q[..i] + q[i + 1..]
  }

  function InsertAt(q: seq<Event>, i: nat, e: Event): seq<Event>
    requires i <= |q|
  {
    q[..i] + [e] + q[i..]
  }

  ghost predicate Distinct(q: seq<Event>) {
    forall i, j :: 0 <= i < j < |q| ==> q[i] != q[j]
  }

  lemma {:induction false} OnlyMembers(q: seq<Event>, t: Test)
    ensures forall e :: e in Only(q, t) <==> e in q && Holds(t, e)
  {
    if q != [] {
      OnlyMembers(q[1..], t);
    }
  }

  lemma {:induction false} OnlyConcat(a: seq<Event>, b: seq<Event>, t: Test)
    ensures Only(a + b, t) == Only(a, t) + Only(b, t)
  {
    if a == [] {
      assert a + b == b;
    } else {
      assert (a + b)[1..] == a[1..] + b;
      OnlyConcat(a[1..], b, t);
    }
  }

  lemma OnlyRemoveAt(q: seq<Event>, i: nat, t: Test)
    requires i < |q|
    ensures Holds(t, q[i]) ==> Only(q, t) == Only(q[..i], t) + [q[i]] + Only(q[i + 1..], t)
    ensures !Holds(t, q[i]) ==> Only(RemoveAt(q, i), t) == Only(q, t)
  {
    assert q == q[..i] + ([q[i]] + q[i + 1..]);
    OnlyConcat(q[..i], [q[i]] + q[i + 1..], t);
    OnlyConcat([q[i]], q[i + 1..], t);
    OnlyConcat(q[..i], q[i + 1..], t);
  }

  lemma {:induction false} OnlyRemoveFirst(q: seq<Event>, e: Event, t: Test)
    ensures Only(RemoveFirst(q, e), t) == if Holds(t, e) then RemoveFirst(Only(q, t), e) else Only(q, t)
  {
    if q != [] {
      OnlyRemoveFirst(q[1..], e, t);
      if q[0] != e {
        assert RemoveFirst(q, e)[1..] == RemoveFirst(q[1..], e);
        if Holds(t, q[0]) {
          assert Only(q, t)[1..] == Only(q[1..], t);
        }
      } else if Holds(t, e) {
        assert Only(q, t)[1..] == Only(q[1..], t);
      }
    }
  }

  lemma {:induction false} RemoveFirstAt(q: seq<Event>, e: Event, i: nat)
    requires i <= |q| && e !in q[..i]
    ensures i < |q| && q[i] == e ==> RemoveFirst(q, e) == q[..i] + q[i + 1..]
    ensures i == |q| ==> RemoveFirst(q, e) == q
  {
    if i != 0 {
      assert q[..i][0] == q[0];
      assert q[..i][1..] == q[1..][..i - 1];
      RemoveFirstAt(q[1..], e, i - 1);
    }
  }

  lemma {:induction false} RemoveFirstSplit(q: seq<Event>, e: Event) returns (i: nat)
    requires e in q
    ensures i < |q| && q[i] == e && RemoveFirst(q, e) == RemoveAt(q, i)
    ensures e !in q[..i]
  {
    if q[0] == e {
      i := 0;
    } else {
      var k := RemoveFirstSplit(q[1..], e);
      i := k + 1;
      assert q[..i] == [q[0]] + q[1..][..k];
    }
  }

  lemma DistinctRemoveFirst(q: seq<Event>, e: Event)
    requires Distinct(q)
    ensures Distinct(RemoveFirst(q, e))
    ensures forall x :: x in RemoveFirst(q, e) <==> x in q && x != e
  {
    if e in q {
      var i := RemoveFirstSplit(q, e);
      DistinctRemoveAt(q, i);
    }
  }

  lemma DistinctRemoveAt(q: seq<Event>, i: nat)
    requires Distinct(q) && i < |q|
    ensures Distinct(RemoveAt(q, i))
    ensures forall x :: x in RemoveAt(q, i) <==> x in q && x != q[i]
  {
    var r := RemoveAt(q, i);
    forall x | x in q && x != q[i] ensures x in r {
      var k :| 0 <= k < |q| && q[k] == x;
      assert r[if k < i then k else k - 1] == x;
    }
  }

  lemma DistinctInsertAt(q: seq<Event>, i: nat, e: Event)
    requires Distinct(q) && i <= |q| && e !in q
    ensures Distinct(InsertAt(q, i, e))
    ensures forall x :: x in InsertAt(q, i, e) <==> x in q || x == e
  {
    var r := InsertAt(q, i, e);
    assert r[i] == e;
    forall x | x in q ensures x in r {
      var k :| 0 <= k < |q| && q[k] == x;
      assert r[if k < i then k else k + 1] == x;
    }
  }

  lemma {:induction false} DistinctOnly(q: seq<Event>, t: Test)
    requires Distinct(q)
    ensures Distinct(Only(q, t))
  {
    if q != [] {
      OnlyMembers(q[1..], t);
      DistinctOnly(q[1..], t);
    }
  }

  lemma {:induction false} RemoveEachFacts(q: seq<Event>, batch: seq<Event>)
    requires Distinct(q)
    ensures Distinct(RemoveEach(q, batch))
    ensures forall x :: x in RemoveEach(q, batch) <==> x in q && x !in batch
    decreases batch
  {
    if batch != [] {
      DistinctRemoveFirst(q, batch[0]);
      RemoveEachFacts(RemoveFirst(q, batch[0]), batch[1..]);
    }
  }

  // A duplicate-free sequence inside another is no longer than it.
  lemma {:induction false} DistinctSubLength(a: seq<Event>, b: seq<Event>)
    requires Distinct(a)
    requires forall e :: e in a ==> e in b
    ensures |a| <= |b|
  {
    if a != [] {
      var last := a[|a| - 1];
      var i := RemoveFirstSplit(b, last);
      var rest := RemoveAt(b, i);
      forall e | e in a[..|a| - 1] ensures e in rest {
        assert e in a;
        var k :| 0 <= k < |b| && b[k] == e;
        assert k != i;
        assert rest[if k < i then k else k - 1] == e;
      }
      DistinctSubLength(a[..|a| - 1], rest);
    }
  }
}
