// What every run of the candidate tables keeps.

module CandidateRuns {
  import opened CandidateStore

  datatype Step =
    | Ingested(e: Event, d: Decision)
    | Refreshed(id: Id, d: Decision)

  function Next(s: Store, step: Step): Store {
    match step
    case Ingested(e, d) => Ingest(s, e, d)
    case Refreshed(id, d) => Refresh(s, id, d)
  }

  function Execute(s: Store, steps: seq<Step>): Store
    decreases steps
  {
    if steps == [] then s else Execute(Next(s, steps[0]), steps[1..])
  }

  // ---- generations -------------------------------------------------------------------------------

  function Count(rows: seq<Candidate>, stock: Stock): nat {
    if rows == [] then 0
    else
      var n := |rows| - 1;
      Count(rows[..n], stock) + if rows[n].id.stock == stock then 1 else 0
  }

  // Each episode of a stock carries the next number.
  ghost predicate Numbered(rows: seq<Candidate>) {
    forall i :: 0 <= i < |rows| ==> rows[i].id.generation == 1 + Count(rows[..i], rows[i].id.stock)
  }

  ghost predicate OnlyLastOpen(rows: seq<Candidate>) {
    forall i, j :: 0 <= i < j < |rows| && rows[i].id.stock == rows[j].id.stock ==> rows[i].state == Closed
  }

  ghost predicate SameIds(a: seq<Candidate>, b: seq<Candidate>) {
    |a| == |b| && forall i :: 0 <= i < |a| ==> a[i].id == b[i].id
  }

  lemma CountStep(rows: seq<Candidate>, i: nat, stock: Stock)
    requires i < |rows|
    ensures Count(rows[..i + 1], stock) == Count(rows[..i], stock) + if rows[i].id.stock == stock then 1 else 0
  {
    assert rows[..i + 1][..i] == rows[..i];
  }

  lemma {:induction false} CountGrows(rows: seq<Candidate>, i: nat, j: nat, stock: Stock)
    requires i <= j <= |rows|
    ensures Count(rows[..i], stock) <= Count(rows[..j], stock)
    decreases j
  {
    if i < j {
      CountGrows(rows, i, j - 1, stock);
      CountStep(rows, j - 1, stock);
    }
  }

  lemma {:induction false} CountSameIds(a: seq<Candidate>, b: seq<Candidate>, stock: Stock)
    requires SameIds(a, b)
    ensures Count(a, stock) == Count(b, stock)
    decreases |a|
  {
    if a != [] {
      CountSameIds(a[..|a| - 1], b[..|b| - 1], stock);
    }
  }

  lemma NumberedSameIds(a: seq<Candidate>, b: seq<Candidate>)
    requires SameIds(a, b) && Numbered(a)
    ensures Numbered(b)
  {
    forall i | 0 <= i < |b| ensures b[i].id.generation == 1 + Count(b[..i], b[i].id.stock) {
      CountSameIds(a[..i], b[..i], b[i].id.stock);
    }
  }

  lemma {:induction false} MaxIsCount(rows: seq<Candidate>, stock: Stock)
    requires Numbered(rows)
    ensures MaxGeneration(rows, stock) == Count(rows, stock)
    decreases |rows|
  {
    if rows != [] {
      var n := |rows| - 1;
      NumberedPrefix(rows, n);
      MaxIsCount(rows[..n], stock);
    }
  }

  lemma NumberedPrefix(rows: seq<Candidate>, n: nat)
    requires Numbered(rows) && n <= |rows|
    ensures Numbered(rows[..n])
  {
    forall i | 0 <= i < n
      ensures rows[..n][i].id.generation == 1 + Count(rows[..n][..i], rows[..n][i].id.stock)
    {
      assert rows[..n][..i] == rows[..i];
    }
  }

  lemma GenerationsRise(rows: seq<Candidate>, i: nat, j: nat)
    requires Numbered(rows) && i < j < |rows| && rows[i].id.stock == rows[j].id.stock
    ensures rows[i].id.generation < rows[j].id.generation
  {
    CountStep(rows, i, rows[i].id.stock);
    CountGrows(rows, i + 1, j, rows[i].id.stock);
  }

  lemma {:induction false} IndexOfIsFirst(rows: seq<Candidate>, id: Id)
    ensures forall k :: 0 <= k < IndexOf(rows, id) ==> rows[k].id != id
  {
    if rows != [] && rows[0].id != id {
      IndexOfIsFirst(rows[1..], id);
    }
  }

  lemma IndexOfUnique(rows: seq<Candidate>, i: nat)
    requires Numbered(rows) && i < |rows|
    ensures IndexOf(rows, rows[i].id) == i
  {
    IndexOfIsFirst(rows, rows[i].id);
    var k := IndexOf(rows, rows[i].id);
    assert k <= i;
    if k < i {
      GenerationsRise(rows, k, i);
    }
  }

  lemma {:induction false} NoneActive(rows: seq<Candidate>, stock: Stock)
    requires FindActive(rows, stock).None?
    ensures forall i :: 0 <= i < |rows| && rows[i].id.stock == stock ==> rows[i].state == Closed
    decreases |rows|
  {
    if rows != [] {
      NoneActive(rows[..|rows| - 1], stock);
    }
  }

  // The episode found open is the last of its stock; when none is found, all are closed.
  lemma FindActiveMeans(rows: seq<Candidate>, stock: Stock)
    requires Numbered(rows) && OnlyLastOpen(rows)
    ensures match FindActive(rows, stock)
            case None => forall i :: 0 <= i < |rows| && rows[i].id.stock == stock ==> rows[i].state == Closed
            case Some(a) => forall i :: 0 <= i < |rows| && rows[i].id.stock == stock && i != a ==>
                              i < a && rows[i].state == Closed
  {
    var active := FindActive(rows, stock);
    if active.None? {
      NoneActive(rows, stock);
    } else {
      var a := active.value;
      assert forall i :: a < i < |rows| ==> rows[i].id.stock != rows[a].id.stock;
    }
  }

  // ---- the invariant -----------------------------------------------------------------------------

  ghost predicate CountTrue(s: Store, i: nat)
    requires i < |s.rows|
  {
    s.rows[i].state == Closed || s.rows[i].activeCount == |SourceRows(s.latest, s.rows[i].id, true)|
  }

  ghost predicate CountsTrue(s: Store) {
    forall i :: 0 <= i < |s.rows| ==> CountTrue(s, i)
  }

  // A source row points to an episode of its own stock.
  ghost predicate Linked(s: Store) {
    forall k :: k in s.latest ==>
      s.latest[k].candidate.stock == k.stock && IndexOf(s.rows, s.latest[k].candidate) < |s.rows|
  }

  ghost predicate Inv(s: Store) {
    Numbered(s.rows) && OnlyLastOpen(s.rows) && CountsTrue(s) && Linked(s)
  }

  lemma {:induction false} IndexOfSameIds(a: seq<Candidate>, b: seq<Candidate>, id: Id)
    requires SameIds(a, b)
    ensures IndexOf(a, id) == IndexOf(b, id)
  {
    if a != [] && a[0].id != id {
      IndexOfSameIds(a[1..], b[1..], id);
    }
  }

  lemma {:induction false} IndexOfAppend(rows: seq<Candidate>, row: Candidate, id: Id)
    ensures IndexOf(rows + [row], id) ==
            if IndexOf(rows, id) < |rows| then IndexOf(rows, id)
            else if row.id == id then |rows| else |rows| + 1
  {
    if rows == [] {
      assert rows + [row] == [row];
    } else if rows[0].id != id {
      assert (rows + [row])[1..] == rows[1..] + [row];
      IndexOfAppend(rows[1..], row, id);
    }
  }

  // ---- state changes -----------------------------------------------------------------------------

  lemma SetRowShape(rows: seq<Candidate>, i: nat, row: Candidate)
    requires Numbered(rows) && OnlyLastOpen(rows) && i < |rows|
    requires row.id == rows[i].id && (rows[i].state == Closed ==> row.state == Closed)
    ensures SameIds(rows, rows[i := row])
    ensures Numbered(rows[i := row]) && OnlyLastOpen(rows[i := row])
  {
    NumberedSameIds(rows, rows[i := row]);
  }

  lemma SetRowLinks(s: Store, i: nat, row: Candidate)
    requires Linked(s) && i < |s.rows| && row.id == s.rows[i].id
    ensures Linked(s.(rows := s.rows[i := row]))
  {
    forall id ensures IndexOf(s.rows, id) == IndexOf(s.rows[i := row], id) {
      IndexOfSameIds(s.rows, s.rows[i := row], id);
    }
  }

  lemma DistinctIds(rows: seq<Candidate>, i: nat, j: nat)
    requires Numbered(rows) && i < |rows| && j < |rows| && rows[i].id == rows[j].id
    ensures i == j
  {
    IndexOfUnique(rows, i);
    IndexOfUnique(rows, j);
  }

  lemma SetStateKeeps(s: Store, i: nat, next: State, kind: Kind, cause: Cause)
    requires Inv(s) && i < |s.rows| && s.rows[i].state != Closed
    ensures Inv(SetState(s, i, next, kind, cause))
  {
    if s.rows[i].state != next {
      var n := SetState(s, i, next, kind, cause);
      SetRowShape(s.rows, i, n.rows[i]);
      SetRowLinks(s, i, n.rows[i]);
      forall j | 0 <= j < |n.rows| ensures CountTrue(n, j) {
        assert CountTrue(s, j);
      }
    }
  }

  // ---- counts ------------------------------------------------------------------------------------

  ghost predicate CountsTrueBut(s: Store, id: Id) {
    forall i :: 0 <= i < |s.rows| && s.rows[i].id != id ==> CountTrue(s, i)
  }

  ghost predicate InvBut(s: Store, id: Id) {
    Numbered(s.rows) && OnlyLastOpen(s.rows) && CountsTrueBut(s, id) && Linked(s)
  }

  // Writing a row's counts, with its state unchanged.
  lemma SetCountsKeeps(s: Store, i: nat, sourceCount: nat)
    requires i < |s.rows| && InvBut(s, s.rows[i].id)
    ensures var row := s.rows[i].(sourceCount := sourceCount,
                                  activeCount := |SourceRows(s.latest, s.rows[i].id, true)|);
            Inv(s.(rows := s.rows[i := row]))
  {
    var row := s.rows[i].(sourceCount := sourceCount, activeCount := |SourceRows(s.latest, s.rows[i].id, true)|);
    var n := s.(rows := s.rows[i := row]);
    SetRowShape(s.rows, i, row);
    SetRowLinks(s, i, row);
    forall j | 0 <= j < |n.rows| ensures CountTrue(n, j) {
      if s.rows[j].id == s.rows[i].id {
        DistinctIds(s.rows, i, j);
      } else {
        assert CountTrue(s, j);
      }
    }
  }

  lemma SyncKeeps(s: Store, i: nat)
    requires i < |s.rows| && InvBut(s, s.rows[i].id)
    ensures Inv(Sync(s, s.rows[i].id))
    ensures Sync(s, s.rows[i].id).log == s.log && SameIds(s.rows, Sync(s, s.rows[i].id).rows)
    ensures forall j :: 0 <= j < |s.rows| ==> Sync(s, s.rows[i].id).rows[j].state == s.rows[j].state
  {
    IndexOfUnique(s.rows, i);
    SetCountsKeeps(s, i, |EventRows(s.events, s.rows[i].id)|);
  }

  lemma LinkedElsewhere(s: Store, a: nat, k: SourceKey, j: nat)
    requires Inv(s) && a < |s.rows| && j < |s.rows| && j != a
    requires FindActive(s.rows, k.stock) == Some(a) && s.rows[j].state != Closed
    requires k in s.latest
    ensures s.latest[k].candidate != s.rows[j].id
  {
    FindActiveMeans(s.rows, k.stock);
  }

  lemma SourceRowsElsewhere(latest: map<SourceKey, Latest>, k: SourceKey, row: Latest, id: Id)
    requires row.candidate != id && (k in latest ==> latest[k].candidate != id)
    ensures SourceRows(latest[k := row], id, true) == SourceRows(latest, id, true)
  {
  }

  lemma LinkedUpsert(s: Store, a: nat, k: SourceKey, row: Latest, events: map<string, StoredEvent>)
    requires Numbered(s.rows) && Linked(s) && a < |s.rows|
    requires s.rows[a].id.stock == k.stock && row.candidate == s.rows[a].id
    ensures Linked(s.(latest := s.latest[k := row], events := events))
  {
    IndexOfUnique(s.rows, a);
  }

  // Moving a source row to the open episode can only take it from closed ones.
  lemma UpsertKeeps(s: Store, a: nat, k: SourceKey, row: Latest, events: map<string, StoredEvent>)
    requires Inv(s) && FindActive(s.rows, k.stock) == Some(a) && row.candidate == s.rows[a].id
    ensures InvBut(s.(latest := s.latest[k := row], events := events), s.rows[a].id)
  {
    var n := s.(latest := s.latest[k := row], events := events);
    LinkedUpsert(s, a, k, row, events);
    forall j | 0 <= j < |n.rows| && n.rows[j].id != s.rows[a].id ensures CountTrue(n, j) {
      assert CountTrue(s, j);
      if s.rows[j].state != Closed {
        if k in s.latest {
          LinkedElsewhere(s, a, k, j);
        }
        SourceRowsElsewhere(s.latest, k, row, s.rows[j].id);
      }
    }
  }

  lemma DeactivateKeeps(s: Store, a: nat, e: Event, events: map<string, StoredEvent>)
    requires Inv(s) && a < |s.rows|
    ensures InvBut(s.(latest := Deactivated(s.latest, s.rows[a].id, e), events := events), s.rows[a].id)
  {
    var id := s.rows[a].id;
    var n := s.(latest := Deactivated(s.latest, id, e), events := events);
    forall j | 0 <= j < |n.rows| && n.rows[j].id != id ensures CountTrue(n, j) {
      assert CountTrue(s, j);
      assert SourceRows(n.latest, s.rows[j].id, true) == SourceRows(s.latest, s.rows[j].id, true);
    }
  }

  // ---- new episodes ------------------------------------------------------------------------------

  lemma NewIdAbsent(s: Store, stock: Stock)
    requires Inv(s)
    ensures IndexOf(s.rows, NewId(s, stock)) == |s.rows|
  {
    var id := NewId(s, stock);
    var i := IndexOf(s.rows, id);
    MaxIsCount(s.rows, stock);
    assert s.rows[..|s.rows|] == s.rows;
    if i < |s.rows| {
      CountStep(s.rows, i, stock);
      CountGrows(s.rows, i + 1, |s.rows|, stock);
    }
  }

  lemma InsertNumbered(rows: seq<Candidate>, row: Candidate)
    requires Numbered(rows) && row.id.generation == MaxGeneration(rows, row.id.stock) + 1
    ensures Numbered(rows + [row])
  {
    var n := rows + [row];
    MaxIsCount(rows, row.id.stock);
    forall i | 0 <= i < |n| ensures n[i].id.generation == 1 + Count(n[..i], n[i].id.stock) {
      assert n[..i] == rows[..i];
      if i == |rows| {
        assert rows[..i] == rows;
      }
    }
  }

  lemma NoSourceRows(s: Store, id: Id)
    requires Linked(s) && IndexOf(s.rows, id) == |s.rows|
    ensures SourceRows(s.latest, id, true) == {}
  {
  }

  lemma InsertLinked(s: Store, stock: Stock, cause: Cause)
    requires Inv(s)
    ensures var n := Insert(s, NewId(s, stock), cause); Linked(n) && CountsTrue(n)
  {
    var id := NewId(s, stock);
    var n := Insert(s, id, cause);
    NewIdAbsent(s, stock);
    NoSourceRows(s, id);
    forall k | k in n.latest ensures IndexOf(n.rows, n.latest[k].candidate) < |n.rows| {
      IndexOfAppend(s.rows, Candidate(id, Detected, 0, 0), n.latest[k].candidate);
    }
    forall i | 0 <= i < |n.rows| ensures CountTrue(n, i) {
      if i < |s.rows| {
        assert CountTrue(s, i);
      }
    }
  }

  lemma InsertKeeps(s: Store, stock: Stock, cause: Cause)
    requires Inv(s) && FindActive(s.rows, stock).None?
    ensures Inv(Insert(s, NewId(s, stock), cause))
  {
    var id := NewId(s, stock);
    FindActiveMeans(s.rows, stock);
    InsertNumbered(s.rows, Candidate(id, Detected, 0, 0));
    InsertLinked(s, stock, cause);
  }

  // The inserted row moves on from its first state.
  lemma CreateIs(s: Store, e: Event)
    requires Inv(s)
    ensures var id := NewId(s, e.stock);
            var inserted := Insert(s, id, ByEvent(e.id));
            && inserted.rows[|s.rows|] == Candidate(id, Detected, 0, 0)
            && Create(s, e) == SetState(inserted, |s.rows|, Hydrating, StateChanged, ByEvent(e.id))
            && Create(s, e).rows == s.rows + [Candidate(id, Hydrating, 0, 0)]
  {
    var id := NewId(s, e.stock);
    NewIdAbsent(s, e.stock);
    IndexOfAppend(s.rows, Candidate(id, Detected, 0, 0), id);
  }

  lemma CreateKeeps(s: Store, e: Event)
    requires Inv(s) && FindActive(s.rows, e.stock).None?
    ensures var n := Create(s, e);
            && Inv(n)
            && n.rows == s.rows + [Candidate(NewId(s, e.stock), Hydrating, 0, 0)]
            && FindActive(n.rows, e.stock) == Some(|s.rows|)
  {
    CreateIs(s, e);
    InsertKeeps(s, e.stock, ByEvent(e.id));
    SetStateKeeps(Insert(s, NewId(s, e.stock), ByEvent(e.id)), |s.rows|, Hydrating, StateChanged, ByEvent(e.id));
    LastIsActive(s.rows, Candidate(NewId(s, e.stock), Hydrating, 0, 0), e.stock);
  }

  lemma LastIsActive(rows: seq<Candidate>, row: Candidate, stock: Stock)
    requires FindActive(rows, stock).None? && row.id.stock == stock && row.state != Closed
    ensures FindActive(rows + [row], stock) == Some(|rows|)
  {
    assert (rows + [row])[..|rows|] == rows;
  }

  // ---- steps -------------------------------------------------------------------------------------

  lemma LinkKeeps(s: Store, e: Event, a: nat)
    requires Inv(s) && FindActive(s.rows, e.stock) == Some(a)
    ensures Inv(Link(s, e, s.rows[a].id))
  {
    var id := s.rows[a].id;
    var k := SourceKey(e.stock, e.source, e.sourceId);
    var events := s.events[e.id := StoredEvent(e, Some(id), true)];
    UpsertKeeps(s, a, k, Latest(id, true, e.id), events);
    SyncKeeps(s.(latest := s.latest[k := Latest(id, true, e.id)], events := events), a);
  }

  lemma MergeKeeps(s: Store, e: Event)
    requires Inv(s)
    ensures Inv(Merge(s, e))
  {
    var active := FindActive(s.rows, e.stock);
    if active.Some? {
      LinkKeeps(s, e, active.value);
    } else {
      CreateKeeps(s, e);
      LinkKeeps(Create(s, e), e, |s.rows|);
    }
  }

  lemma RefreshKeeps(s: Store, id: Id, d: Decision)
    requires Inv(s)
    ensures Inv(Refresh(s, id, d))
  {
    var i := IndexOf(s.rows, id);
    if i < |s.rows| && s.rows[i].state != Closed && !d.fails {
      var sourceCount := |SourceRows(s.latest, id, false)|;
      SetCountsKeeps(s, i, sourceCount);
      var row := s.rows[i].(sourceCount := sourceCount, activeCount := |SourceRows(s.latest, id, true)|);
      SetStateKeeps(s.(rows := s.rows[i := row]), i, d.next, d.kind, AtTime(d.now));
    }
  }

  lemma StoreEventKeeps(s: Store, events: map<string, StoredEvent>)
    requires Inv(s)
    ensures Inv(s.(events := events))
  {
    var n := s.(events := events);
    forall i | 0 <= i < |n.rows| ensures CountTrue(n, i) {
      assert CountTrue(s, i);
    }
  }

  lemma ExitKeeps(s: Store, e: Event, d: Decision)
    requires Inv(s)
    ensures Inv(Exit(s, e, d))
  {
    var active := FindActive(s.rows, e.stock);
    if active.None? {
      StoreEventKeeps(s, s.events[e.id := StoredEvent(e, None, false)]);
    } else if !d.fails {
      var a := active.value;
      var id := s.rows[a].id;
      var events := s.events[e.id := StoredEvent(e, Some(id), false)];
      var left := s.(events := events, latest := Deactivated(s.latest, id, e));
      DeactivateKeeps(s, a, e, events);
      SyncKeeps(left, a);
      IndexOfUnique(s.rows, a);
      IndexOfSameIds(s.rows, Sync(left, id).rows, id);
      RefreshKeeps(Sync(left, id), id, d);
    }
  }

  lemma StepKeeps(s: Store, step: Step)
    requires Inv(s)
    ensures Inv(Next(s, step))
  {
    match step
    case Ingested(e, d) =>
      if e.id !in s.events {
        if e.source == ConditionExit {
          ExitKeeps(s, e, d);
        } else {
          MergeKeeps(s, e);
        }
      }
    case Refreshed(id, d) => RefreshKeeps(s, id, d);
  }

  lemma {:induction false} RunKeeps(s: Store, steps: seq<Step>)
    requires Inv(s)
    ensures Inv(Execute(s, steps))
    decreases steps
  {
    if steps != [] {
      StepKeeps(s, steps[0]);
      RunKeeps(Next(s, steps[0]), steps[1..]);
    }
  }

  lemma EveryRun(steps: seq<Step>)
    ensures Inv(Execute(EMPTY, steps))
  {
    RunKeeps(EMPTY, steps);
  }

  // ---- main results ------------------------------------------------------------------------------

  lemma {:induction false} EveryGeneration(rows: seq<Candidate>, stock: Stock, g: nat) returns (i: nat)
    requires Numbered(rows) && 1 <= g <= Count(rows, stock)
    ensures i < |rows| && rows[i].id == Id(stock, g)
    decreases |rows|
  {
    var n := |rows| - 1;
    NumberedPrefix(rows, n);
    if g <= Count(rows[..n], stock) {
      i := EveryGeneration(rows[..n], stock, g);
    } else {
      i := n;
    }
  }

  lemma GenerationBound(rows: seq<Candidate>, i: nat)
    requires Numbered(rows) && i < |rows|
    ensures 1 <= rows[i].id.generation <= Count(rows, rows[i].id.stock)
  {
    CountStep(rows, i, rows[i].id.stock);
    CountGrows(rows, i + 1, |rows|, rows[i].id.stock);
    assert rows[..|rows|] == rows;
  }

  // A stock's episodes carry exactly the numbers 1 to n, each once, and only the n-th can be open.
  lemma GenerationsExact(steps: seq<Step>, stock: Stock)
    ensures var rows := Execute(EMPTY, steps).rows;
            && (forall g :: 1 <= g <= Count(rows, stock) ==>
                  IndexOf(rows, Id(stock, g)) < |rows|)
            && (forall i :: 0 <= i < |rows| && rows[i].id.stock == stock ==>
                  && 1 <= rows[i].id.generation <= Count(rows, stock)
                  && IndexOf(rows, rows[i].id) == i
                  && (rows[i].state != Closed ==> rows[i].id.generation == Count(rows, stock)))
  {
    EveryRun(steps);
    var rows := Execute(EMPTY, steps).rows;
    forall g | 1 <= g <= Count(rows, stock) ensures IndexOf(rows, Id(stock, g)) < |rows| {
      var i := EveryGeneration(rows, stock, g);
      IndexOfUnique(rows, i);
    }
    forall i | 0 <= i < |rows| && rows[i].id.stock == stock
      ensures 1 <= rows[i].id.generation <= Count(rows, stock) && IndexOf(rows, rows[i].id) == i
      ensures rows[i].state != Closed ==> rows[i].id.generation == Count(rows, stock)
    {
      GenerationBound(rows, i);
      IndexOfUnique(rows, i);
      if rows[i].id.generation < Count(rows, stock) {
        var j := EveryGeneration(rows, stock, rows[i].id.generation + 1);
        LaterIsHigher(rows, i, j);
      }
    }
  }

  lemma LaterIsHigher(rows: seq<Candidate>, i: nat, j: nat)
    requires Numbered(rows) && i < |rows| && j < |rows| && rows[i].id.stock == rows[j].id.stock
    requires rows[i].id.generation < rows[j].id.generation
    ensures i < j
  {
    if j < i {
      GenerationsRise(rows, j, i);
    }
  }

  // The active source count of an open episode is the number of active source rows that point to it.
  lemma CountsStayTrue(steps: seq<Step>, i: nat)
    requires i < |Execute(EMPTY, steps).rows|
    requires Execute(EMPTY, steps).rows[i].state != Closed
    ensures var s := Execute(EMPTY, steps);
            s.rows[i].activeCount
            == |set k | k in s.latest && s.latest[k].candidate == s.rows[i].id && s.latest[k].active|
  {
    EveryRun(steps);
    var s := Execute(EMPTY, steps);
    assert CountTrue(s, i);
    assert SourceRows(s.latest, s.rows[i].id, true)
        == set k | k in s.latest && s.latest[k].candidate == s.rows[i].id && s.latest[k].active;
  }

  // What never goes away: episodes keep their place, closed ones stay closed, the log only grows
  // and stored events remain.
  ghost predicate Extends(s: Store, n: Store) {
    && |s.rows| <= |n.rows|
    && (forall i :: 0 <= i < |s.rows| ==>
          n.rows[i].id == s.rows[i].id && (s.rows[i].state == Closed ==> n.rows[i].state == Closed))
    && s.log <= n.log
    && s.events.Keys <= n.events.Keys
  }

  lemma SyncExtends(s: Store, id: Id)
    ensures Extends(s, Sync(s, id)) && Sync(s, id).events == s.events
  {
  }

  lemma RefreshExtends(s: Store, id: Id, d: Decision)
    ensures Extends(s, Refresh(s, id, d)) && Refresh(s, id, d).events == s.events
  {
  }

  lemma CreateExtends(s: Store, e: Event)
    requires Inv(s)
    ensures Extends(s, Create(s, e)) && Create(s, e).events == s.events
  {
    CreateIs(s, e);
  }

  lemma LinkExtends(s: Store, e: Event, id: Id)
    ensures Extends(s, Link(s, e, id)) && e.id in Link(s, e, id).events
  {
    var linked := s.(
      events := s.events[e.id := StoredEvent(e, Some(id), true)],
      latest := s.latest[SourceKey(e.stock, e.source, e.sourceId) := Latest(id, true, e.id)]);
    SyncExtends(linked, id);
  }

  lemma ExtendsTrans(a: Store, b: Store, c: Store)
    requires Extends(a, b) && Extends(b, c)
    ensures Extends(a, c)
  {
  }

  lemma ExitExtends(s: Store, e: Event, d: Decision)
    ensures Extends(s, Exit(s, e, d))
    ensures e.id in Exit(s, e, d).events <==> e.id in s.events || FindActive(s.rows, e.stock).None? || !d.fails
  {
    var active := FindActive(s.rows, e.stock);
    if active.Some? && !d.fails {
      var id := s.rows[active.value].id;
      var left := s.(events := s.events[e.id := StoredEvent(e, Some(id), false)],
                     latest := Deactivated(s.latest, id, e));
      SyncExtends(left, id);
      RefreshExtends(Sync(left, id), id, d);
      ExtendsTrans(left, Sync(left, id), Exit(s, e, d));
    }
  }

  lemma NextExtends(s: Store, step: Step)
    requires Inv(s)
    ensures Extends(s, Next(s, step))
  {
    match step
    case Ingested(e, d) =>
      if e.id !in s.events {
        if e.source == ConditionExit {
          ExitExtends(s, e, d);
        } else if FindActive(s.rows, e.stock).Some? {
          LinkExtends(s, e, s.rows[FindActive(s.rows, e.stock).value].id);
        } else {
          CreateExtends(s, e);
          LinkExtends(Create(s, e), e, NewId(s, e.stock));
          ExtendsTrans(s, Create(s, e), Merge(s, e));
        }
      }
    case Refreshed(id, d) => RefreshExtends(s, id, d);
  }

  // Closed is final, over any run from any reachable point.
  lemma {:induction false} RunExtends(s: Store, steps: seq<Step>)
    requires Inv(s)
    ensures Extends(s, Execute(s, steps))
    decreases steps
  {
    if steps != [] {
      NextExtends(s, steps[0]);
      StepKeeps(s, steps[0]);
      RunExtends(Next(s, steps[0]), steps[1..]);
      ExtendsTrans(s, Next(s, steps[0]), Execute(s, steps));
    }
  }

  // An ingested event is stored, unless it is an exit whose refresh failed.
  lemma StoredUnlessRolledBack(s: Store, e: Event, d: Decision)
    ensures e.id in Ingest(s, e, d).events
       <==> e.id in s.events || e.source != ConditionExit || FindActive(s.rows, e.stock).None? || !d.fails
  {
    if e.id !in s.events {
      if e.source == ConditionExit {
        ExitExtends(s, e, d);
      } else if FindActive(s.rows, e.stock).Some? {
        LinkExtends(s, e, s.rows[FindActive(s.rows, e.stock).value].id);
      } else {
        LinkExtends(Create(s, e), e, NewId(s, e.stock));
      }
    }
  }

  // An exit switches off exactly the entry of its source that points to the open episode.
  lemma ExitSwitchesOff(s: Store, e: Event, d: Decision, k: SourceKey)
    requires FindActive(s.rows, e.stock).Some? && !d.fails && k in s.latest
    ensures var id := s.rows[FindActive(s.rows, e.stock).value].id; var n := Exit(s, e, d);
            && n.latest.Keys == s.latest.Keys
            && n.latest[k].candidate == s.latest[k].candidate
            && (if s.latest[k].candidate == id && k.source == ConditionEnter && k.sourceId == e.sourceId
                then !n.latest[k].active && n.latest[k].lastEvent == e.id
                else n.latest[k] == s.latest[k])
  {
    var id := s.rows[FindActive(s.rows, e.stock).value].id;
    var left := s.(events := s.events[e.id := StoredEvent(e, Some(id), false)],
                   latest := Deactivated(s.latest, id, e));
    assert Sync(left, id).latest == left.latest;
    assert Refresh(Sync(left, id), id, d).latest == left.latest;
  }

  lemma LinkMeans(s: Store, e: Event, a: nat)
    requires Inv(s) && FindActive(s.rows, e.stock) == Some(a)
    ensures var id := s.rows[a].id; var n := Link(s, e, id);
            && n.latest == s.latest[SourceKey(e.stock, e.source, e.sourceId) := Latest(id, true, e.id)]
            && n.events == s.events[e.id := StoredEvent(e, Some(id), true)]
            && |n.rows| == |s.rows| && n.rows[a].id == id
            && FindActive(n.rows, e.stock) == Some(a)
  {
    LinkKeeps(s, e, a);
    var n := Link(s, e, s.rows[a].id);
    assert n.rows[a].id == s.rows[a].id && n.rows[a].state == s.rows[a].state;
    FindActiveMeans(n.rows, e.stock);
  }

  lemma CreateLeaves(s: Store, e: Event)
    ensures Create(s, e).latest == s.latest && Create(s, e).events == s.events
  {
  }

  // A merged event is stored for the open episode and its source row is active and points there.
  lemma MergeJoins(s: Store, e: Event, a: nat)
    requires Inv(s) && FindActive(s.rows, e.stock) == Some(a)
    ensures var id := s.rows[a].id; var n := Merge(s, e);
            && n.latest == s.latest[SourceKey(e.stock, e.source, e.sourceId) := Latest(id, true, e.id)]
            && n.events == s.events[e.id := StoredEvent(e, Some(id), true)]
            && |n.rows| == |s.rows| && n.rows[a].id == id
            && FindActive(n.rows, e.stock) == Some(a)
  {
    LinkMeans(s, e, a);
  }

  // When none is open, it opens the next generation, and is stored and linked there.
  lemma MergeOpens(s: Store, e: Event)
    requires Inv(s) && FindActive(s.rows, e.stock).None?
    ensures var id := Id(e.stock, Count(s.rows, e.stock) + 1); var n := Merge(s, e);
            && n.latest == s.latest[SourceKey(e.stock, e.source, e.sourceId) := Latest(id, true, e.id)]
            && n.events == s.events[e.id := StoredEvent(e, Some(id), true)]
            && |n.rows| == |s.rows| + 1 && n.rows[|s.rows|].id == id
            && FindActive(n.rows, e.stock) == Some(|s.rows|)
  {
    MaxIsCount(s.rows, e.stock);
    CreateKeeps(s, e);
    CreateLeaves(s, e);
    var c := Create(s, e);
    assert c.rows[|s.rows|].id == NewId(s, e.stock);
    LinkMeans(c, e, |s.rows|);
  }

  ghost predicate OnlyKnown(s: Store, steps: seq<Step>) {
    forall i :: 0 <= i < |steps| ==> steps[i].Ingested? && steps[i].e.id in s.events
  }

  lemma {:induction false} KnownChangeNothing(s: Store, again: seq<Step>)
    requires OnlyKnown(s, again)
    ensures Execute(s, again) == s
    decreases again
  {
    if again != [] {
      KnownChangeNothing(s, again[1..]);
    }
  }

  // Events stored at some point can be ingested again at any later point, whatever happened in
  // between, without changing anything.
  lemma ReingestChangesNothing(steps: seq<Step>, later: seq<Step>, again: seq<Step>)
    requires OnlyKnown(Execute(EMPTY, steps), again)
    ensures var s := Execute(Execute(EMPTY, steps), later);
            Execute(s, again) == s
  {
    EveryRun(steps);
    RunExtends(Execute(EMPTY, steps), later);
    KnownChangeNothing(Execute(Execute(EMPTY, steps), later), again);
  }

  // Once an event was ingested, ingesting it again at any later point changes nothing, unless it
  // was an exit whose refresh failed: that one was taken back and may come again.
  lemma IngestedOnce(steps: seq<Step>, e: Event, d: Decision, later: seq<Step>, again: Decision)
    requires var s := Execute(EMPTY, steps);
             e.id in s.events || e.source != ConditionExit || FindActive(s.rows, e.stock).None? || !d.fails
    ensures var s := Execute(Next(Execute(EMPTY, steps), Ingested(e, d)), later);
            Next(s, Ingested(e, again)) == s
  {
    EveryRun(steps);
    var s := Execute(EMPTY, steps);
    StoredUnlessRolledBack(s, e, d);
    StepKeeps(s, Ingested(e, d));
    RunExtends(Next(s, Ingested(e, d)), later);
  }

  function EntryKey(e: Event): SourceKey {
    SourceKey(e.stock, ConditionEnter, e.sourceId)
  }

  predicate Enters(step: Step, k: SourceKey) {
    step.Ingested? && SourceKey(step.e.stock, step.e.source, step.e.sourceId) == k
  }

  lemma StepStaysOff(s: Store, step: Step, k: SourceKey)
    requires k in s.latest && !s.latest[k].active && !Enters(step, k)
    ensures k in Next(s, step).latest && !Next(s, step).latest[k].active
  {
    if step.Ingested? && step.e.source == ConditionExit && step.e.id !in s.events
       && FindActive(s.rows, step.e.stock).Some? && !step.d.fails {
      ExitSwitchesOff(s, step.e, step.d, k);
    }
  }

  lemma {:induction false} RunStaysOff(s: Store, steps: seq<Step>, k: SourceKey)
    requires k in s.latest && !s.latest[k].active && forall i :: 0 <= i < |steps| ==> !Enters(steps[i], k)
    ensures k in Execute(s, steps).latest && !Execute(s, steps).latest[k].active
    decreases steps
  {
    if steps != [] {
      StepStaysOff(s, steps[0], k);
      RunStaysOff(Next(s, steps[0]), steps[1..], k);
    }
  }

  // A source that left the open episode stays off until an entry of it is ingested.
  lemma OffUntilEntered(steps: seq<Step>, e: Event, d: Decision, later: seq<Step>)
    requires e.source == ConditionExit && !d.fails && forall i :: 0 <= i < |later| ==> !Enters(later[i], EntryKey(e))
    requires var s := Execute(EMPTY, steps);
             && e.id !in s.events && FindActive(s.rows, e.stock).Some? && EntryKey(e) in s.latest
             && s.latest[EntryKey(e)].candidate == s.rows[FindActive(s.rows, e.stock).value].id
    ensures var s := Execute(Next(Execute(EMPTY, steps), Ingested(e, d)), later);
            EntryKey(e) in s.latest && !s.latest[EntryKey(e)].active
  {
    var s := Execute(EMPTY, steps);
    ExitSwitchesOff(s, e, d, EntryKey(e));
    RunStaysOff(Next(s, Ingested(e, d)), later, EntryKey(e));
  }
}
