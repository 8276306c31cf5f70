// Every field of a fusion, told from the events instead of the loops.

module FusionMeaning {
  import opened ConditionFusion
  import opened FusionRefinement
  import opened WireTimes

  // ---- which events count ----------------------------------------------------------------------

  // A stored signal counts for its own code when it is a profile's and of the date; the events of a
  // code are those of its signals, in their order.
  lemma {:induction false} EventsMean(a: seq<Signal>, b: seq<Signal>, s: Signal, code: string, day: Date)
    ensures DatedEventsOf([], code, day) == []
    ensures DatedEventsOf([s], code, day)
         == if s.isProfile && OnDate(s.event.at, day) && s.event.code == code then [s.event] else []
    ensures DatedEventsOf(a + b, code, day) == DatedEventsOf(a, code, day) + DatedEventsOf(b, code, day)
  {
    EventsConcat(a, b, code, day);
    BoundsAreTheDate(s.event.at, day);
    assert [s][..0] == [];
  }

  // ---- which of them are active, and in what order -----------------------------------------------

  // An entry whose time to live, if it has one, is not over.
  predicate Live(e: Event, now: int) {
    e.enter && !(e.ttl > 0 && now > Instant(e.at) + 1_000_000 * e.ttl)
  }

  lemma ActiveIff(code: string, events: seq<Event>, now: int, x: Event)
    requires events != []
    ensures x in Fuse(code, events, now).active
       <==> Live(x, now) && exists i :: 0 <= i < |events| && events[i] == x && LastOfProfile(events, i)
  {
    ActiveMeans(code, events, now, x);
  }

  // Profiles stand in the order in which the events first name them.
  ghost predicate InProfileOrder(events: seq<Event>, table: seq<Event>) {
    && (forall i :: 0 <= i < |table| ==> ProfileIndex(events, table[i].profile) < |events|)
    && (forall i, j :: 0 <= i < j < |table| ==>
          ProfileIndex(events, table[i].profile) < ProfileIndex(events, table[j].profile))
  }

  lemma {:induction false} ProfileIndexAppend(events: seq<Event>, e: Event, profile: string)
    ensures ProfileIndex(events + [e], profile) ==
            if ProfileIndex(events, profile) < |events| then ProfileIndex(events, profile)
            else if e.profile == profile then |events| else |events| + 1
  {
    if events != [] {
      assert (events + [e])[1..] == events[1..] + [e];
      ProfileIndexAppend(events[1..], e, profile);
    }
  }

  lemma {:induction false} TableNames(events: seq<Event>, profile: string)
    ensures ProfileIndex(LatestByProfile(events), profile) < |LatestByProfile(events)|
       <==> ProfileIndex(events, profile) < |events|
    decreases |events|
  {
    if events != [] {
      var front, e := events[..|events| - 1], events[|events| - 1];
      var table := LatestByProfile(front);
      assert events == front + [e];
      TableNames(front, profile);
      ProfileIndexAppend(front, e, profile);
      ProfileIndexAppend(table, e, profile);
      var i := ProfileIndex(table, e.profile);
      if i < |table| {
        ProfileIndexSet(table, i, e, profile);
      }
    }
  }

  lemma {:induction false} ProfileIndexSet(table: seq<Event>, i: nat, e: Event, profile: string)
    requires i < |table| && table[i].profile == e.profile
    ensures ProfileIndex(table[i := e], profile) == ProfileIndex(table, profile)
  {
    if i > 0 {
      assert table[i := e][1..] == table[1..][i - 1 := e];
      ProfileIndexSet(table[1..], i - 1, e, profile);
    } else {
      assert table[0 := e][1..] == table[1..];
    }
  }

  lemma PutInOrder(events: seq<Event>, table: seq<Event>, e: Event)
    requires InProfileOrder(events, table)
    requires ProfileIndex(table, e.profile) < |table| <==> ProfileIndex(events, e.profile) < |events|
    ensures InProfileOrder(events + [e], Put(table, e))
  {
    var longer, put := events + [e], Put(table, e);
    forall i | 0 <= i < |put|
      ensures ProfileIndex(longer, put[i].profile)
           == if i < |table| then ProfileIndex(events, table[i].profile) else |events|
    {
      ProfileIndexAppend(events, e, put[i].profile);
    }
  }

  lemma {:induction false} LatestInOrder(events: seq<Event>)
    ensures InProfileOrder(events, LatestByProfile(events))
    decreases |events|
  {
    if events != [] {
      var front, e := events[..|events| - 1], events[|events| - 1];
      LatestInOrder(front);
      TableNames(front, e.profile);
      PutInOrder(front, LatestByProfile(front), e);
      assert events == front + [e];
    }
  }

  lemma {:induction false} ActiveInOrder(events: seq<Event>, table: seq<Event>, now: int)
    requires InProfileOrder(events, table)
    ensures InProfileOrder(events, Active(table, now))
    ensures forall x :: x in Active(table, now) ==> x in table
    decreases |table|
  {
    if table != [] {
      var front, e := table[..|table| - 1], table[|table| - 1];
      ActiveInOrder(events, front, now);
      OrderedAppend(events, front, Active(front, now), e);
    }
  }

  lemma OrderedAppend(events: seq<Event>, front: seq<Event>, part: seq<Event>, e: Event)
    requires InProfileOrder(events, front + [e]) && InProfileOrder(events, part)
    requires forall x :: x in part ==> x in front
    ensures InProfileOrder(events, part + [e])
  {
    var all := front + [e];
    forall x | x in part ensures ProfileIndex(events, x.profile) < ProfileIndex(events, e.profile) {
      var k :| 0 <= k < |front| && front[k] == x;
      assert all[k] == x && all[|front|] == e;
    }
    assert all[|front|] == e;
    var longer := part + [e];
    forall i, j | 0 <= i < j < |longer|
      ensures ProfileIndex(events, longer[i].profile) < ProfileIndex(events, longer[j].profile)
    {
      assert part[i] in part;
      assert j < |part| ==> longer[i] == part[i] && longer[j] == part[j];
    }
  }

  lemma ActiveByProfile(code: string, events: seq<Event>, now: int)
    requires events != []
    ensures InProfileOrder(events, Fuse(code, events, now).active)
  {
    LatestInOrder(events);
    ActiveInOrder(events, LatestByProfile(events), now);
  }

  // ---- the other fields --------------------------------------------------------------------------

  function EntryCount(events: seq<Event>): nat {
    if events == [] then 0 else (if events[0].enter then 1 else 0) + EntryCount(events[1..])
  }

  lemma {:induction false} EntryCountAppend(events: seq<Event>, e: Event)
    ensures EntryCount(events + [e]) == EntryCount(events) + if e.enter then 1 else 0
  {
    if events == [] {
      assert events + [e] == [e] && [e][1..] == [];
    } else {
      assert (events + [e])[1..] == events[1..] + [e];
      EntryCountAppend(events[1..], e);
    }
  }

  lemma {:induction false} EntersMean(events: seq<Event>, x: Event)
    ensures |Enters(events)| == EntryCount(events)
    ensures x in Enters(events) <==> x in events && x.enter
    decreases |events|
  {
    if events != [] {
      var front, e := events[..|events| - 1], events[|events| - 1];
      EntersMean(front, x);
      EntryCountAppend(front, e);
      assert events == front + [e];
    }
  }

  // When the code was last entered: the last time text of its entries.
  ghost predicate LastEntry(events: seq<Event>, at: Option<Wire>) {
    match at
    case None => forall e :: e in events ==> !e.enter
    case Some(t) =>
      && (exists e :: e in events && e.enter && e.at == t)
      && forall e :: e in events && e.enter ==> !TextBefore(t, e.at)
  }

  lemma LastEntryMeans(events: seq<Event>)
    ensures LastEntry(events, LatestHit(Enters(events)))
  {
    var enters := Enters(events);
    forall x ensures x in enters <==> x in events && x.enter {
      EntersMean(events, x);
    }
    if enters != [] {
      var i := NewestMeans(enters);
      assert enters[i] in enters;
      forall e | e in events && e.enter ensures !TextBefore(Newest(enters).at, e.at) {
        var k :| 0 <= k < |enters| && enters[k] == e;
      }
    } else {
      forall e | e in events ensures !e.enter {
        assert e !in enters;
      }
    }
  }

  // What a fusion says about the code besides its score.
  lemma FieldsMean(code: string, events: seq<Event>, now: int, r: Role, c: string)
    requires events != []
    ensures var f := Fuse(code, events, now);
            && f.code == code && f.updatedAt == now && f.name == f.latestEvent.name && f.latestEvent == Newest(events)
            && (r in f.activeRoles <==> exists e :: e in f.active && e.role == r)
            && (f.discoveryOnly <==> f.activeRoles == {Discovery})
            && (f.subscribed <==> exists e :: e in f.active && e.subscribed)
            && f.hitCount == EntryCount(events)
            && (c in f.conditions <==> exists e :: e in events && e.enter && e.condition == c)
            && LastEntry(events, f.latestHitAt)
  {
    var f := Fuse(code, events, now);
    RoleIn(f.active, r);
    LastEntryMeans(events);
    EntersMean(events, events[0]);
    ConditionIn(events, c);
  }

  lemma ConditionIn(events: seq<Event>, c: string)
    ensures c in ConditionsOf(Enters(events)) <==> exists e :: e in events && e.enter && e.condition == c
  {
    forall x ensures x in Enters(events) <==> x in events && x.enter {
      EntersMean(events, x);
    }
    if e :| e in events && e.enter && e.condition == c {
      assert e in Enters(events) && e.condition in ConditionsOf(Enters(events));
    }
  }

  // ---- the score ---------------------------------------------------------------------------------

  // Each role brings its own weight once.
  lemma RoleScoreMeans(a: set<Role>, b: set<Role>)
    ensures a !! b ==> RoleScore(a + b) == RoleScore(a) + RoleScore(b)
    ensures RoleScore({}) == RoleScore({RiskBlock}) == 0 && RoleScore({Discovery}) == 1
    ensures RoleScore({ThemeSpread}) == 2 && RoleScore({Manual}) == 3
    ensures RoleScore({Pullback}) == RoleScore({Breakout}) == 4 && RoleScore({Leader}) == 5
  {
  }

  // Each active event that does not block brings its own priority, unless that is negative.
  lemma {:induction false} PriorityMeans(a: seq<Event>, b: seq<Event>, e: Event)
    ensures PriorityOf([]) == 0
    ensures PriorityOf([e]) == if e.role == RiskBlock || e.priority < 0 then 0 else e.priority
    ensures PriorityOf(a + b) == PriorityOf(a) + PriorityOf(b)
    decreases |b|
  {
    assert [e][..0] == [];
    if b == [] {
      assert a + b == a;
    } else {
      assert (a + b)[..|a + b| - 1] == a + b[..|b| - 1];
      PriorityMeans(a, b[..|b| - 1], e);
    }
  }

  // Ten points for each point of the roles and the priorities on top; discovery alone stops at 25, and
  // a leader gains 500 with a pullback and 500 with a breakout. Without leave the score is zero.
  lemma ScoreExact(code: string, events: seq<Event>, now: int)
    requires events != []
    ensures var f := Fuse(code, events, now);
            var sum := 10 * f.positiveScore + PriorityOf(f.active);
            && f.positiveScore == RoleScore(f.activeRoles)
            && f.priorityScore == if !f.promotionAllowed then 0
                                  else if f.activeRoles == {Discovery} then (if sum > 25 then 25 else sum)
                                  else sum + (if {Leader, Pullback} <= f.activeRoles then 500 else 0)
                                           + (if {Leader, Breakout} <= f.activeRoles then 500 else 0)
  {
  }

  // ---- the reasons -------------------------------------------------------------------------------

  predicate Given(roles: set<Role>, r: Reason) {
    match r
    case SensorEvidence => true
    case DiscoveryOnly | DiscoveryPromotionPending => roles == {Discovery}
    case LeaderPullback => Leader in roles && Pullback in roles
    case LeaderBreakout => Leader in roles && Breakout in roles
    case RiskBlocked => RiskBlock in roles
    case PriorityReady => roles != {} && roles != {Discovery} && RiskBlock !in roles
    case NoActiveRole => roles == {}
    case NotBuySignal => RiskBlock in roles || roles == {}
  }

  function Rank(r: Reason): nat {
    match r
    case SensorEvidence => 0
    case DiscoveryOnly => 1
    case DiscoveryPromotionPending => 2
    case LeaderPullback => 3
    case LeaderBreakout => 4
    case RiskBlocked => 5
    case PriorityReady => 6
    case NoActiveRole => 7
    case NotBuySignal => 8
  }

  // A reason is given exactly when its condition holds, once, and in a fixed order.
  lemma ReasonsMean(code: string, events: seq<Event>, now: int, r: Reason)
    requires events != []
    ensures var f := Fuse(code, events, now);
            && (r in f.reasons <==> Given(f.activeRoles, r))
            && Ranked(f.reasons)
  {
    ReasonsGiven(Fuse(code, events, now).activeRoles, r);
    ReasonsRise(Fuse(code, events, now).activeRoles);
  }

  lemma ReasonsGiven(roles: set<Role>, r: Reason)
    ensures r in ReasonsFor(roles) <==> Given(roles, r)
  {
  }

  ghost predicate Ranked(reasons: seq<Reason>) {
    forall i, j :: 0 <= i < j < |reasons| ==> Rank(reasons[i]) < Rank(reasons[j])
  }

  lemma RankedAppend(a: seq<Reason>, b: seq<Reason>, cut: nat)
    requires Ranked(a) && Ranked(b)
    requires (forall r :: r in a ==> Rank(r) <= cut) && (forall r :: r in b ==> Rank(r) > cut)
    ensures Ranked(a + b)
  {
    var all := a + b;
    forall i, j | 0 <= i < j < |all| ensures Rank(all[i]) < Rank(all[j]) {
      assert i < |a| ==> all[i] in a;
      assert j >= |a| ==> all[j] in b;
    }
  }

  function FirstReasons(roles: set<Role>): seq<Reason> {
    [SensorEvidence]
    + (if roles == {Discovery} then [DiscoveryOnly, DiscoveryPromotionPending] else [])
    + (if Leader in roles && Pullback in roles then [LeaderPullback] else [])
    + (if Leader in roles && Breakout in roles then [LeaderBreakout] else [])
  }

  function LastReasons(roles: set<Role>): seq<Reason> {
    if roles == {} then [NoActiveRole, NotBuySignal]
    else if RiskBlock in roles then [RiskBlocked, NotBuySignal]
    else if roles == {Discovery} then []
    else [PriorityReady]
  }

  lemma FirstReasonsRise(roles: set<Role>)
    ensures Ranked(FirstReasons(roles)) && forall r :: r in FirstReasons(roles) ==> Rank(r) <= 4
  {
  }

  lemma LastReasonsRise(roles: set<Role>)
    ensures Ranked(LastReasons(roles)) && forall r :: r in LastReasons(roles) ==> Rank(r) > 4
  {
  }

  lemma ReasonsSplit(roles: set<Role>)
    ensures ReasonsFor(roles) == FirstReasons(roles) + LastReasons(roles)
  {
  }

  lemma ReasonsRise(roles: set<Role>)
    ensures Ranked(ReasonsFor(roles))
  {
    FirstReasonsRise(roles);
    LastReasonsRise(roles);
    ReasonsSplit(roles);
    RankedAppend(FirstReasons(roles), LastReasons(roles), 4);
  }
}
