// Market context snapshots of two markets and the pointers to the latest of each.

module MarketContext {
  import opened WireTimes

  datatype Market = Kospi | Kosdaq

  const MARKETS: seq<Market> := [Kospi, Kosdaq]

  // `content` stands for the evaluated regime and evidence.
  datatype Snapshot = Snapshot(id: string, market: Market, watermark: string, at: Wire, content: string)

  datatype Key = Key(market: Market, watermark: string)

  datatype Tables = Tables(snapshots: map<Key, Snapshot>, latest: map<Market, Snapshot>)

  const EMPTY := Tables(map[], map[])

  // One rebuild: the watermark's hash, the clock, the new snapshot ids and what the evaluations
  // gave. `found` holds the snapshots read before the write transaction began.
  datatype Rebuild = Rebuild(
    watermark: string,
    clock: Wire,
    ids: map<Market, string>,
    contents: map<Market, string>,
    found: map<Market, Snapshot>,
    fails: bool)

  predicate Complete(r: Rebuild) {
    && (forall m: Market :: m in r.ids && m in r.contents)
    && (forall m :: m in r.found ==> r.found[m].market == m && r.found[m].watermark == r.watermark)
  }

  // Insert unless the market already has a snapshot of this watermark.
  function Insert(t: Tables, s: Snapshot): Tables {
    var k := Key(s.market, s.watermark);
    if k in t.snapshots then t else t.(snapshots := t.snapshots[k := s])
  }

  // The pointer moves only to a snapshot whose time text is not before the present one's.
  function Point(t: Tables, s: Snapshot): Tables {
    if s.market in t.latest && TextBefore(s.at, t.latest[s.market].at) then t
    else t.(latest := t.latest[s.market := s])
  }

  function NewSnapshot(r: Rebuild, m: Market): Snapshot
    requires Complete(r)
  {
    Snapshot(r.ids[m], m, r.watermark, r.clock, r.contents[m])
  }

  function Persist(t: Tables, r: Rebuild, m: Market): (n: Tables)
    requires Complete(r)
  {
    if m in r.found then Point(t, r.found[m])
    else
      var inserted := Insert(t, NewSnapshot(r, m));
      Point(inserted, inserted.snapshots[Key(m, r.watermark)])
  }

  function Created(t: Tables, r: Rebuild, m: Market): nat
    requires Complete(r)
  {
    if m in r.found then 0
    else if Insert(t, NewSnapshot(r, m)).snapshots[Key(m, r.watermark)].id == r.ids[m] then 1 else 0
  }

  // Both markets in one transaction.
  function PersistBoth(t: Tables, r: Rebuild): Tables
    requires Complete(r)
  {
    if r.fails then t else Persist(Persist(t, r, Kospi), r, Kosdaq)
  }

  function CreatedBoth(t: Tables, r: Rebuild): nat
    requires Complete(r)
  {
    if r.fails then 0 else Created(t, r, Kospi) + Created(Persist(t, r, Kospi), r, Kosdaq)
  }

  class MarketContextService {
    var snapshots: map<Key, Snapshot>
    var latest: map<Market, Snapshot>

    ghost function Model(): Tables
      reads this
    {
      Tables(snapshots, latest)
    }

    constructor ()
      ensures Model() == EMPTY
    {
      snapshots, latest := map[], map[];
    }

    method UpsertLatest(s: Snapshot)
      modifies this`latest
      ensures Model() == Point(old(Model()), s)
    {
      if s.market !in latest || !TextBefore(s.at, latest[s.market].at) {
        latest := latest[s.market := s];
      }
    }

    method PersistMarket(r: Rebuild, m: Market) returns (created: nat)
      requires Complete(r)
      modifies this
      ensures Model() == Persist(old(Model()), r, m)
      ensures created == Created(old(Model()), r, m)
    {
      created := 0;
      var snapshot: Snapshot;
      if m in r.found {
        snapshot := r.found[m];
      } else {
        var key := Key(m, r.watermark);
        if key !in snapshots {
          snapshots := snapshots[key := Snapshot(r.ids[m], m, r.watermark, r.clock, r.contents[m])];
        }
        snapshot := snapshots[key];
        created := if snapshot.id == r.ids[m] then 1 else 0;
      }
      UpsertLatest(snapshot);
    }

    // A failure rolls the transaction back.
    method PersistSnapshots(r: Rebuild) returns (createdCount: nat)
      requires Complete(r)
      modifies this
      ensures Model() == PersistBoth(old(Model()), r)
      ensures createdCount == CreatedBoth(old(Model()), r)
    {
      var savedSnapshots, savedLatest := snapshots, latest;
      createdCount := 0;
      ghost var was := Model();
      for i := 0 to |MARKETS|
        invariant Model() == if i == 0 then was else if i == 1 then Persist(was, r, Kospi)
                             else Persist(Persist(was, r, Kospi), r, Kosdaq)
        invariant createdCount == if i == 0 then 0 else if i == 1 then Created(was, r, Kospi)
                                  else Created(was, r, Kospi) + Created(Persist(was, r, Kospi), r, Kosdaq)
      {
        var created := PersistMarket(r, MARKETS[i]);
        createdCount := createdCount + created;
      }
      if r.fails {
        snapshots, latest := savedSnapshots, savedLatest;
        createdCount := 0;
      }
    }
  }

  // ---- runs ------------------------------------------------------------------------------------

  // Writes are one at a time. A rebuild read each snapshot it found at some earlier moment.
  predicate Enabled(t: Tables, r: Rebuild) {
    && Complete(r)
    && (forall m :: m in r.found ==> Key(m, r.watermark) in t.snapshots && t.snapshots[Key(m, r.watermark)] == r.found[m])
  }

  ghost predicate NewIds(t: Tables, r: Rebuild)
    requires Complete(r)
  {
    forall k, m: Market :: k in t.snapshots ==> t.snapshots[k].id != r.ids[m]
  }

  predicate Admissible(t: Tables, rebuilds: seq<Rebuild>)
    decreases rebuilds
  {
    rebuilds == [] || (Enabled(t, rebuilds[0]) && Admissible(PersistBoth(t, rebuilds[0]), rebuilds[1..]))
  }

  function Execute(t: Tables, rebuilds: seq<Rebuild>): Tables
    requires Admissible(t, rebuilds)
    decreases rebuilds
  {
    if rebuilds == [] then t else Execute(PersistBoth(t, rebuilds[0]), rebuilds[1..])
  }

  // Snapshots come in pairs of one time.
  ghost predicate Paired(t: Tables) {
    forall w: string ::
      && (Key(Kospi, w) in t.snapshots <==> Key(Kosdaq, w) in t.snapshots)
      && (Key(Kospi, w) in t.snapshots ==> t.snapshots[Key(Kospi, w)].at == t.snapshots[Key(Kosdaq, w)].at)
  }

  ghost predicate Stored(t: Tables) {
    && (forall k :: k in t.snapshots ==> t.snapshots[k].market == k.market && t.snapshots[k].watermark == k.watermark)
    && (forall m :: m in t.latest ==>
          && t.latest[m].market == m
          && Key(m, t.latest[m].watermark) in t.snapshots
          && t.snapshots[Key(m, t.latest[m].watermark)] == t.latest[m])
  }

  ghost predicate Newest(t: Tables) {
    forall k :: k in t.snapshots ==> k.market in t.latest && !TextBefore(t.latest[k.market].at, t.snapshots[k].at)
  }

  ghost predicate Coherent(t: Tables) {
    && (Kospi in t.latest <==> Kosdaq in t.latest)
    && (Kospi in t.latest ==> t.latest[Kospi].watermark == t.latest[Kosdaq].watermark
                              && t.latest[Kospi].at == t.latest[Kosdaq].at)
  }

  ghost predicate Inv(t: Tables) {
    Paired(t) && Stored(t) && Newest(t) && Coherent(t)
  }

  // The snapshot a market ends up with for the watermark: the stored one, or else the new one.
  function Settled(t: Tables, r: Rebuild, m: Market): Snapshot
    requires Complete(r)
  {
    var k := Key(m, r.watermark);
    if k in t.snapshots then t.snapshots[k] else NewSnapshot(r, m)
  }

  function Write(t: Tables, s: Snapshot): Tables {
    Point(t.(snapshots := t.snapshots[Key(s.market, s.watermark) := s]), s)
  }

  lemma PersistOne(t: Tables, r: Rebuild, m: Market)
    requires Complete(r)
    requires m in r.found ==> Key(m, r.watermark) in t.snapshots && t.snapshots[Key(m, r.watermark)] == r.found[m]
    requires Stored(t)
    ensures Persist(t, r, m) == Write(t, Settled(t, r, m))
    ensures Settled(t, r, m).market == m && Settled(t, r, m).watermark == r.watermark
  {
    var k := Key(m, r.watermark);
    if k in t.snapshots {
      assert t.snapshots[k := t.snapshots[k]] == t.snapshots;
    }
  }

  lemma WriteStored(t: Tables, s: Snapshot)
    requires Stored(t)
    requires var k := Key(s.market, s.watermark); k in t.snapshots ==> t.snapshots[k] == s
    ensures Stored(Write(t, s))
  {
  }

  // Whatever was found before, each market's snapshot is settled and pointed at.
  lemma PersistSettles(t: Tables, r: Rebuild)
    requires Inv(t) && Enabled(t, r) && !r.fails
    ensures var k, q := Settled(t, r, Kospi), Settled(t, r, Kosdaq);
            && PersistBoth(t, r) == Write(Write(t, k), q)
            && Pair(t, k, q)
  {
    var k := Settled(t, r, Kospi);
    PersistOne(t, r, Kospi);
    WriteStored(t, k);
    PersistOne(Write(t, k), r, Kosdaq);
  }

  // Two snapshots of one watermark and time, both stored already or both new.
  ghost predicate Pair(t: Tables, k: Snapshot, q: Snapshot) {
    var kk, kq := Key(Kospi, k.watermark), Key(Kosdaq, k.watermark);
    && k.market == Kospi && q.market == Kosdaq && k.watermark == q.watermark && k.at == q.at
    && (kk in t.snapshots <==> kq in t.snapshots)
    && (kk in t.snapshots ==> t.snapshots[kk] == k && t.snapshots[kq] == q)
  }

  lemma WritePaired(t: Tables, k: Snapshot, q: Snapshot)
    requires Paired(t) && Pair(t, k, q)
    ensures Paired(Write(Write(t, k), q))
  {
    var n := Write(Write(t, k), q);
    assert n.snapshots == t.snapshots[Key(Kospi, k.watermark) := k][Key(Kosdaq, k.watermark) := q];
  }

  lemma WriteNewest(t: Tables, s: Snapshot)
    requires Newest(t)
    ensures Newest(Write(t, s))
  {
  }

  lemma WriteCoherent(t: Tables, k: Snapshot, q: Snapshot)
    requires Coherent(t) && Pair(t, k, q)
    ensures Coherent(Write(Write(t, k), q))
  {
  }

  lemma PairStored(t: Tables, k: Snapshot, q: Snapshot)
    requires Stored(t) && Pair(t, k, q)
    ensures Stored(Write(Write(t, k), q))
  {
    WriteStored(t, k);
    WriteStored(Write(t, k), q);
  }

  lemma PairNewest(t: Tables, k: Snapshot, q: Snapshot)
    requires Newest(t)
    ensures Newest(Write(Write(t, k), q))
  {
    WriteNewest(t, k);
    WriteNewest(Write(t, k), q);
  }

  lemma StepKeeps(t: Tables, r: Rebuild)
    requires Inv(t) && Enabled(t, r)
    ensures Inv(PersistBoth(t, r))
  {
    if !r.fails {
      PersistSettles(t, r);
      var k, q := Settled(t, r, Kospi), Settled(t, r, Kosdaq);
      WritePaired(t, k, q);
      PairStored(t, k, q);
      PairNewest(t, k, q);
      WriteCoherent(t, k, q);
    }
  }

  lemma {:induction false} RunKeeps(t: Tables, rebuilds: seq<Rebuild>)
    requires Inv(t) && Admissible(t, rebuilds)
    ensures Inv(Execute(t, rebuilds))
    decreases rebuilds
  {
    if rebuilds != [] {
      StepKeeps(t, rebuilds[0]);
      RunKeeps(PersistBoth(t, rebuilds[0]), rebuilds[1..]);
    }
  }

  // ---- main results --------------------------------------------------------------------------------

  // For any clocks and any interleaving of the earlier reads, the two markets' pointers carry one
  // watermark and one snapshot time, and point to stored snapshots with the last time text.
  lemma PointersCoherent(rebuilds: seq<Rebuild>)
    requires Admissible(EMPTY, rebuilds)
    ensures var t := Execute(EMPTY, rebuilds);
            && (Kospi in t.latest <==> Kosdaq in t.latest)
            && (Kospi in t.latest ==> t.latest[Kospi].watermark == t.latest[Kosdaq].watermark
                                      && t.latest[Kospi].at == t.latest[Kosdaq].at)
            && (forall m :: m in t.latest ==> t.latest[m] in t.snapshots.Values)
            && (forall k :: k in t.snapshots ==> k.market in t.latest && !TextBefore(t.latest[k.market].at, t.snapshots[k].at))
  {
    RunKeeps(EMPTY, rebuilds);
  }

  ghost predicate MovesForward(t: Tables, n: Tables) {
    && (forall k :: k in t.snapshots ==> k in n.snapshots && n.snapshots[k] == t.snapshots[k])
    && (forall m :: m in t.latest ==> m in n.latest && !TextBefore(n.latest[m].at, t.latest[m].at))
  }

  lemma WriteForward(t: Tables, s: Snapshot)
    requires Stored(t)
    requires var k := Key(s.market, s.watermark); k in t.snapshots ==> t.snapshots[k] == s
    ensures MovesForward(t, Write(t, s))
  {
  }

  lemma ForwardTrans(a: Tables, b: Tables, c: Tables)
    requires MovesForward(a, b) && MovesForward(b, c)
    ensures MovesForward(a, c)
  {
  }

  lemma StepForward(t: Tables, r: Rebuild)
    requires Inv(t) && Enabled(t, r)
    ensures MovesForward(t, PersistBoth(t, r))
  {
    if !r.fails {
      PersistSettles(t, r);
      var k, q := Settled(t, r, Kospi), Settled(t, r, Kosdaq);
      WriteForward(t, k);
      WriteStored(t, k);
      WriteForward(Write(t, k), q);
      ForwardTrans(t, Write(t, k), PersistBoth(t, r));
    }
  }

  // Snapshots are never rewritten and the pointers' time texts never go back.
  lemma {:induction false} NeverBack(t: Tables, rebuilds: seq<Rebuild>)
    requires Inv(t) && Admissible(t, rebuilds)
    ensures MovesForward(t, Execute(t, rebuilds))
    decreases rebuilds
  {
    if rebuilds != [] {
      StepForward(t, rebuilds[0]);
      StepKeeps(t, rebuilds[0]);
      NeverBack(PersistBoth(t, rebuilds[0]), rebuilds[1..]);
      ForwardTrans(t, PersistBoth(t, rebuilds[0]), Execute(t, rebuilds));
    }
  }

  // The first rebuild of a watermark that does not fail.
  function FirstWriter(rebuilds: seq<Rebuild>, watermark: string): (i: nat)
    ensures i <= |rebuilds|
  {
    if rebuilds == [] || (rebuilds[0].watermark == watermark && !rebuilds[0].fails) then 0
    else 1 + FirstWriter(rebuilds[1..], watermark)
  }

  // A snapshot as a rebuild makes it: its own id, clock and evaluation for that market.
  ghost predicate MadeBy(s: Snapshot, r: Rebuild, m: Market) {
    && m in r.ids && s.id == r.ids[m]
    && m in r.contents && s.content == r.contents[m]
    && s.market == m && s.watermark == r.watermark && s.at == r.clock
  }

  lemma StepWrites(t: Tables, r: Rebuild, k: Key)
    requires Inv(t) && Enabled(t, r)
    ensures var n := PersistBoth(t, r).snapshots;
            && (k in t.snapshots ==> k in n && n[k] == t.snapshots[k])
            && (k !in t.snapshots ==> (k in n <==> !r.fails && k.watermark == r.watermark))
            && (k !in t.snapshots && k in n ==> MadeBy(n[k], r, k.market))
            && (!r.fails ==> Key(k.market, r.watermark) in n && n[Key(k.market, r.watermark)] == Settled(t, r, k.market))
  {
    if !r.fails {
      PersistSettles(t, r);
      var a, b := Settled(t, r, Kospi), Settled(t, r, Kosdaq);
      assert PersistBoth(t, r).snapshots
          == t.snapshots[Key(Kospi, r.watermark) := a][Key(Kosdaq, r.watermark) := b];
      assert k.market == Kospi || k.market == Kosdaq;
    }
  }

  // In every run a snapshot is stored exactly when some rebuild of its watermark did not fail, and it
  // is the one the first such rebuild made.
  lemma {:induction false} SnapshotsWritten(t: Tables, rebuilds: seq<Rebuild>, k: Key)
    requires Inv(t) && Admissible(t, rebuilds)
    ensures var n := Execute(t, rebuilds).snapshots; var i := FirstWriter(rebuilds, k.watermark);
            && (k in n <==> k in t.snapshots || i < |rebuilds|)
            && (k in t.snapshots ==> n[k] == t.snapshots[k])
            && (k !in t.snapshots && i < |rebuilds| ==> MadeBy(n[k], rebuilds[i], k.market))
    decreases rebuilds
  {
    if rebuilds != [] {
      StepWrites(t, rebuilds[0], k);
      StepKeeps(t, rebuilds[0]);
      SnapshotsWritten(PersistBoth(t, rebuilds[0]), rebuilds[1..], k);
    }
  }

  // A rebuild moves a market's pointer exactly when its snapshot's time text is not before the
  // present one's, and then to that snapshot.
  lemma PointsToNewest(rebuilds: seq<Rebuild>, r: Rebuild, m: Market)
    requires Admissible(EMPTY, rebuilds) && Enabled(Execute(EMPTY, rebuilds), r) && !r.fails
    ensures var t := Execute(EMPTY, rebuilds); var n := PersistBoth(t, r);
            && m in n.latest
            && (if m in t.latest && TextBefore(Settled(t, r, m).at, t.latest[m].at) then n.latest[m] == t.latest[m]
                else n.latest[m] == Settled(t, r, m))
            && Key(m, r.watermark) in n.snapshots && n.snapshots[Key(m, r.watermark)] == Settled(t, r, m)
  {
    RunKeeps(EMPTY, rebuilds);
    var t := Execute(EMPTY, rebuilds);
    PersistSettles(t, r);
    StepWrites(t, r, Key(m, r.watermark));
    WritePoints(t, Settled(t, r, Kospi), Settled(t, r, Kosdaq));
  }

  lemma WritePoints(t: Tables, k: Snapshot, q: Snapshot)
    requires k.market == Kospi && q.market == Kosdaq
    ensures var n := Write(Write(t, k), q);
            && Kospi in n.latest && Kosdaq in n.latest
            && n.latest[Kospi] == (if Kospi in t.latest && TextBefore(k.at, t.latest[Kospi].at) then t.latest[Kospi] else k)
            && n.latest[Kosdaq] == (if Kosdaq in t.latest && TextBefore(q.at, t.latest[Kosdaq].at) then t.latest[Kosdaq] else q)
  {
    var mid := Write(t, k);
    assert Kosdaq in mid.latest <==> Kosdaq in t.latest;
  }

  // In time, a pointer can go back only within a second, from a time with a fraction to the
  // second itself, and it is kept from a newer snapshot only within the second it stands at.
  lemma PointerInTime(rebuilds: seq<Rebuild>, r: Rebuild, m: Market)
    requires Admissible(EMPTY, rebuilds) && Enabled(Execute(EMPTY, rebuilds), r) && !r.fails
    requires m in Execute(EMPTY, rebuilds).latest
    ensures var t := Execute(EMPTY, rebuilds);
            var was, next, now := t.latest[m].at, Settled(t, r, m).at, PersistBoth(t, r).latest[m].at;
            && (Instant(now) < Instant(was) <==> next.sec == was.sec && next.Whole? && was.Fraction?)
            && (now != next && Instant(next) > Instant(was) <==> next.sec == was.sec && next.Fraction? && was.Whole?)
  {
    PointsToNewest(rebuilds, r, m);
  }

  // With ids no stored snapshot has, a rebuild reports both snapshots created or none, and none
  // exactly when the watermark was there.
  lemma CreatesBothOrNone(rebuilds: seq<Rebuild>, r: Rebuild)
    requires Admissible(EMPTY, rebuilds) && Enabled(Execute(EMPTY, rebuilds), r) && !r.fails
    requires NewIds(Execute(EMPTY, rebuilds), r)
    ensures var t := Execute(EMPTY, rebuilds);
            CreatedBoth(t, r) == if Key(Kospi, r.watermark) in t.snapshots then 0 else 2
  {
    RunKeeps(EMPTY, rebuilds);
    CreatedMeans(Execute(EMPTY, rebuilds), r);
  }

  lemma CreatedOne(t: Tables, r: Rebuild, m: Market)
    requires Complete(r)
    requires m in r.found ==> Key(m, r.watermark) in t.snapshots
    requires Key(m, r.watermark) in t.snapshots ==> t.snapshots[Key(m, r.watermark)].id != r.ids[m]
    ensures Created(t, r, m) == if Key(m, r.watermark) in t.snapshots then 0 else 1
  {
  }

  lemma CreatedMeans(t: Tables, r: Rebuild)
    requires Inv(t) && Enabled(t, r) && NewIds(t, r) && !r.fails
    ensures CreatedBoth(t, r) == if Key(Kospi, r.watermark) in t.snapshots then 0 else 2
  {
    var k := Settled(t, r, Kospi);
    PersistOne(t, r, Kospi);
    CreatedOne(t, r, Kospi);
    assert Write(t, k).snapshots == t.snapshots[Key(Kospi, r.watermark) := k];
    CreatedOne(Write(t, k), r, Kosdaq);
  }
}
