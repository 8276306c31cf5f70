// What fused evidence means, and the per-code rebuild as a refinement of the full one.

module FusionRefinement {
  import opened ConditionFusion
  import opened WireTimes

  // ---- what a fusion means -----------------------------------------------------------------------

  // The last word of its profile.
  ghost predicate LastOfProfile(events: seq<Event>, i: nat)
    requires i < |events|
  {
    forall j :: i < j < |events| ==> events[j].profile != events[i].profile
  }

  lemma {:induction false} ProfileIndexIsFirst(latest: seq<Event>, profile: string)
    ensures forall k :: 0 <= k < ProfileIndex(latest, profile) ==> latest[k].profile != profile
  {
    if latest != [] && latest[0].profile != profile {
      ProfileIndexIsFirst(latest[1..], profile);
    }
  }

  ghost predicate ProfilesDistinct(latest: seq<Event>) {
    forall i, j :: 0 <= i < j < |latest| ==> latest[i].profile != latest[j].profile
  }

  lemma PutMeans(latest: seq<Event>, e: Event)
    requires ProfilesDistinct(latest)
    ensures ProfilesDistinct(Put(latest, e))
    ensures forall x :: x in Put(latest, e) <==> x == e || (x in latest && x.profile != e.profile)
  {
    ProfileIndexIsFirst(latest, e.profile);
    var i := ProfileIndex(latest, e.profile);
    var put := Put(latest, e);
    if i < |latest| {
      assert put[i] == e;
      forall x | x in latest && x.profile != e.profile ensures x in put {
        var k :| 0 <= k < |latest| && latest[k] == x;
        assert put[k] == x;
      }
    }
  }

  lemma {:induction false} LatestMeans(events: seq<Event>, x: Event)
    ensures ProfilesDistinct(LatestByProfile(events))
    ensures x in LatestByProfile(events) <==> exists i :: 0 <= i < |events| && events[i] == x && LastOfProfile(events, i)
    decreases |events|
  {
    if events != [] {
      var n := |events| - 1;
      var front := events[..n];
      LatestMeans(front, x);
      PutMeans(LatestByProfile(front), events[n]);
      assert LastOfProfile(events, n);
      if x in LatestByProfile(front) && x.profile != events[n].profile {
        var i :| 0 <= i < n && front[i] == x && LastOfProfile(front, i);
        assert events[i] == x && LastOfProfile(events, i);
      }
      if i :| 0 <= i < n && events[i] == x && LastOfProfile(events, i) {
        assert front[i] == x && LastOfProfile(front, i);
      }
    }
  }

  lemma {:induction false} ActiveMembers(latest: seq<Event>, now: int, x: Event)
    ensures x in Active(latest, now) <==> x in latest && x.enter && !Expired(x, now)
    decreases |latest|
  {
    if latest != [] {
      ActiveMembers(latest[..|latest| - 1], now, x);
      assert latest == latest[..|latest| - 1] + [latest[|latest| - 1]];
    }
  }

  // An event is active exactly when it is the last of its profile, an entry, and not expired.
  lemma ActiveMeans(code: string, events: seq<Event>, now: int, x: Event)
    requires events != []
    ensures x in Fuse(code, events, now).active
       <==> (exists i :: 0 <= i < |events| && events[i] == x && LastOfProfile(events, i))
            && x.enter && !Expired(x, now)
  {
    LatestMeans(events, x);
    ActiveMembers(LatestByProfile(events), now, x);
  }

  lemma RoleIn(active: seq<Event>, r: Role)
    ensures r in RolesOf(active) <==> exists e :: e in active && e.role == r
  {
    if e :| e in active && e.role == r {
      assert e.role in RolesOf(active);
    }
  }

  lemma ScoreLift(roles: set<Role>, priority: nat)
    ensures Leader in roles && (Pullback in roles || Breakout in roles) ==>
              (Score(roles, priority) >= 500 <==> RiskBlock !in roles)
  {
    assert RoleScore(roles) >= 0;
    assert Leader in roles ==> roles != {Discovery} && roles != {};
  }

  // A code may be promoted exactly when some profile is active and none of them blocks; without
  // leave its priority is zero, and discovery alone never rises above 25. A leader together with a
  // pullback or a breakout is lifted to 500 or more exactly when promotion is allowed.
  lemma PromotionMeans(code: string, events: seq<Event>, now: int)
    requires events != []
    ensures var f := Fuse(code, events, now);
            && (f.riskBlocked <==> exists e :: e in f.active && e.role == RiskBlock)
            && (f.promotionAllowed <==> f.active != [] && forall e :: e in f.active ==> e.role != RiskBlock)
            && f.notBuySignal == !f.promotionAllowed
            && (f.priorityScore > 0 <==> f.promotionAllowed)
            && (f.discoveryOnly ==> f.priorityScore <= 25)
            && (f.priorityScore >= 500 && f.positiveScore * 10 + PriorityOf(f.active) < 500 ==>
                  (exists e :: e in f.active && e.role == Leader)
                  && exists e :: e in f.active && (e.role == Pullback || e.role == Breakout))
            && ((exists e :: e in f.active && e.role == Leader)
                && (exists e :: e in f.active && (e.role == Pullback || e.role == Breakout)) ==>
                  (f.priorityScore >= 500 <==> f.promotionAllowed))
  {
    var active := Active(LatestByProfile(events), now);
    RoleIn(active, Leader);
    RoleIn(active, Pullback);
    RoleIn(active, Breakout);
    RoleIn(active, RiskBlock);
    if active != [] {
      assert active[0] in active && active[0].role in RolesOf(active);
    }
    ScoreMeans(RolesOf(active), PriorityOf(active));
    ScoreLift(RolesOf(active), PriorityOf(active));
  }

  // The newest event is the first of those whose time text no other's is after.
  lemma {:induction false} NewestMeans(events: seq<Event>) returns (i: nat)
    requires events != []
    ensures i < |events| && events[i] == Newest(events)
    ensures forall k :: 0 <= k < |events| ==> !TextBefore(events[i].at, events[k].at)
    ensures forall k :: 0 <= k < i ==> TextBefore(events[k].at, events[i].at)
    decreases |events|
  {
    var n := |events| - 1;
    if n == 0 {
      i := 0;
    } else {
      i := NewestMeans(events[..n]);
      assert forall k :: 0 <= k < n ==> events[..n][k] == events[k];
      if TextBefore(events[i].at, events[n].at) {
        i := n;
      }
    }
  }

  lemma ScoreMeans(roles: set<Role>, priority: nat)
    ensures Score(roles, priority) > 0 <==> roles != {} && RiskBlock !in roles
    ensures roles == {Discovery} ==> Score(roles, priority) <= 25
    ensures Score(roles, priority) >= 500 && RoleScore(roles) * 10 + priority < 500 ==>
              Leader in roles && (Pullback in roles || Breakout in roles)
  {
    if roles != {} && RiskBlock !in roles {
      var r :| r in roles;
      assert Weight(r) >= 1;
      assert RoleScore(roles) >= 1;
    }
  }

  // ---- incremental against full ------------------------------------------------------------------

  // The full rebuild's second look at the date keeps every signal the query found.
  lemma {:induction false} SameEvents(signals: seq<Signal>, code: string, day: Date)
    ensures EventsOf(signals, code, day) == DatedEventsOf(signals, code, day)
    decreases |signals|
  {
    if signals != [] {
      BoundsAreTheDate(signals[|signals| - 1].event.at, day);
      SameEvents(signals[..|signals| - 1], code, day);
    }
  }

  // The per-code rebuild writes the row the full rebuild would write now, and no other.
  lemma ForCodeIsOneRow(table: map<string, Fusion>, signals: seq<Signal>, code: string, day: Date, now: int)
    ensures ForCode(table, signals, code, day, now)
         == if code in CodesOf(signals, day) then table[code := Rows(signals, day, now)[code]] else table
  {
    SameEvents(signals, code, day);
    CodesHaveEvents(signals, code, day);
    if code in CodesOf(signals, day) {
      RowIs(signals, code, day, now);
    }
  }

  lemma RowIs(signals: seq<Signal>, code: string, day: Date, now: int)
    requires code in CodesOf(signals, day)
    ensures DatedEventsOf(signals, code, day) != []
    ensures Rows(signals, day, now)[code] == Fuse(code, DatedEventsOf(signals, code, day), now)
  {
    CodesHaveEvents(signals, code, day);
  }

  // Rebuilding one code of a table that was rebuilt in full changes nothing.
  lemma ForCodeAfterFull(table: map<string, Fusion>, signals: seq<Signal>, code: string, day: Date, now: int)
    ensures ForCode(Full(table, signals, day, now), signals, code, day, now) == Full(table, signals, day, now)
  {
    ForCodeIsOneRow(Full(table, signals, day, now), signals, code, day, now);
    if code in CodesOf(signals, day) {
      SettingAgain(table, Rows(signals, day, now), code);
    }
  }

  lemma SettingAgain(table: map<string, Fusion>, rows: map<string, Fusion>, code: string)
    requires code in rows
    ensures (table + rows)[code := rows[code]] == table + rows
  {
  }

  function InsertAt(signals: seq<Signal>, i: nat, s: Signal): seq<Signal>
    requires i <= |signals|
  {
    signals[..i] + [s] + signals[i..]
  }

  lemma {:induction false} EventsConcat(a: seq<Signal>, b: seq<Signal>, code: string, day: Date)
    ensures DatedEventsOf(a + b, code, day) == DatedEventsOf(a, code, day) + DatedEventsOf(b, code, day)
    decreases |b|
  {
    if b == [] {
      assert a + b == a;
    } else {
      assert (a + b)[..|a + b| - 1] == a + b[..|b| - 1];
      EventsConcat(a, b[..|b| - 1], code, day);
    }
  }

  // A signal of another code, stored anywhere among the others, does not show.
  lemma OthersUnseen(signals: seq<Signal>, i: nat, s: Signal, code: string, day: Date)
    requires i <= |signals| && s.event.code != code
    ensures DatedEventsOf(InsertAt(signals, i, s), code, day) == DatedEventsOf(signals, code, day)
  {
    EventsConcat(signals[..i] + [s], signals[i..], code, day);
    EventsConcat(signals[..i], [s], code, day);
    EventsConcat(signals[..i], signals[i..], code, day);
    assert signals == signals[..i] + signals[i..];
    assert [s][..0] == [] && DatedEventsOf([s], code, day) == [];
  }

  lemma OtherRowsSame(signals: seq<Signal>, i: nat, s: Signal, code: string, day: Date, now: int)
    requires i <= |signals| && s.event.code != code
    ensures code in CodesOf(InsertAt(signals, i, s), day) <==> code in CodesOf(signals, day)
    ensures code in CodesOf(signals, day) ==> RowFor(InsertAt(signals, i, s), code, day, now) == RowFor(signals, code, day, now)
  {
    OthersUnseen(signals, i, s, code, day);
    CodesHaveEvents(signals, code, day);
    CodesHaveEvents(InsertAt(signals, i, s), code, day);
  }

  // Two tables that differ at most in one code.
  lemma OneRowApart(before: map<string, Fusion>, after: map<string, Fusion>, code: string)
    requires forall c :: c != code ==> (c in before <==> c in after) && (c in before ==> before[c] == after[c])
    requires code in before ==> code in after
    ensures after == if code in after then before[code := after[code]] else before
  {
  }

  // Keeping up: after a signal is stored, rebuilding just its code gives the full rebuild.
  lemma ArrivalKeepsUp(signals: seq<Signal>, i: nat, s: Signal, day: Date, now: int)
    requires i <= |signals|
    ensures ForCode(Rows(signals, day, now), InsertAt(signals, i, s), s.event.code, day, now) == Rows(InsertAt(signals, i, s), day, now)
  {
    var after := InsertAt(signals, i, s);
    ForCodeIsOneRow(Rows(signals, day, now), after, s.event.code, day, now);
    var was, rebuilt := Rows(signals, day, now), Rows(after, day, now);
    forall c | c != s.event.code
      ensures (c in was <==> c in rebuilt) && (c in was ==> was[c] == rebuilt[c])
    {
      OtherRowsSame(signals, i, s, c, day, now);
    }
    CodesGrow(signals, i, s, s.event.code, day);
    OneRowApart(was, rebuilt, s.event.code);
  }

  lemma CodesGrow(signals: seq<Signal>, i: nat, s: Signal, code: string, day: Date)
    requires i <= |signals|
    ensures code in CodesOf(signals, day) ==> code in CodesOf(InsertAt(signals, i, s), day)
  {
    if code in CodesOf(signals, day) {
      var x :| x in signals && Dated(x, day) && x.event.code == code;
      assert signals == signals[..i] + signals[i..];
      assert x in InsertAt(signals, i, s);
    }
  }

  // Arrivals with their places, each followed by the rebuild of its code.
  datatype Arrival = Arrival(place: nat, signal: Signal)

  predicate Placed(signals: seq<Signal>, arrivals: seq<Arrival>)
    decreases arrivals
  {
    arrivals == []
    || (arrivals[0].place <= |signals|
        && Placed(InsertAt(signals, arrivals[0].place, arrivals[0].signal), arrivals[1..]))
  }

  function Stored(signals: seq<Signal>, arrivals: seq<Arrival>): seq<Signal>
    requires Placed(signals, arrivals)
    decreases arrivals
  {
    if arrivals == [] then signals
    else Stored(InsertAt(signals, arrivals[0].place, arrivals[0].signal), arrivals[1..])
  }

  function Incremental(table: map<string, Fusion>, signals: seq<Signal>, arrivals: seq<Arrival>, day: Date, now: int): map<string, Fusion>
    requires Placed(signals, arrivals)
    decreases arrivals
  {
    if arrivals == [] then table
    else
      var after := InsertAt(signals, arrivals[0].place, arrivals[0].signal);
      Incremental(ForCode(table, after, arrivals[0].signal.event.code, day, now), after, arrivals[1..], day, now)
  }

  // Signals arriving one by one, in any time order, each followed by the rebuild of its code,
  // leave the table that one full rebuild makes of all of them.
  lemma {:induction false} IncrementalIsFull(signals: seq<Signal>, arrivals: seq<Arrival>, day: Date, now: int)
    requires Placed(signals, arrivals)
    ensures Incremental(Rows(signals, day, now), signals, arrivals, day, now) == Full(map[], Stored(signals, arrivals), day, now)
    decreases arrivals
  {
    if arrivals == [] {
      assert map[] + Rows(signals, day, now) == Rows(signals, day, now);
    } else {
      var after := InsertAt(signals, arrivals[0].place, arrivals[0].signal);
      ArrivalKeepsUp(signals, arrivals[0].place, arrivals[0].signal, day, now);
      IncrementalIsFull(after, arrivals[1..], day, now);
    }
  }
}
