// Fused condition evidence per code: the incremental rebuild against the full one.

module ConditionFusion {
  import opened WireTimes

  datatype Role = Discovery | ThemeSpread | Manual | Pullback | Breakout | Leader | RiskBlock

  datatype Event = Event(
    id: string,
    code: string,
    name: string,
    condition: string,
    profile: string,
    enter: bool,
    role: Role,
    priority: int,
    ttl: int,
    at: Wire,
    subscribed: bool)

  datatype Reason =
    | SensorEvidence | DiscoveryOnly | DiscoveryPromotionPending | LeaderPullback | LeaderBreakout
    | RiskBlocked | NotBuySignal | PriorityReady | NoActiveRole

  datatype Option<T> = None | Some(value: T)

  datatype Fusion = Fusion(
    code: string,
    name: string,
    activeRoles: set<Role>,
    hitCount: nat,
    latestHitAt: Option<Wire>,
    conditions: set<string>,
    positiveScore: int,
    riskBlocked: bool,
    priorityScore: int,
    reasons: seq<Reason>,
    subscribed: bool,
    latestEvent: Event,
    active: seq<Event>,
    notBuySignal: bool,
    promotionAllowed: bool,
    discoveryOnly: bool,
    updatedAt: int)

  // ---- fusing the events of one code -----------------------------------------------------------

  // The clock counts microseconds, a time to live seconds.
  predicate Expired(e: Event, now: int) {
    e.ttl > 0 && now - Instant(e.at) > 1_000_000 * e.ttl
  }

  function ProfileIndex(latest: seq<Event>, profile: string): (i: nat)
    ensures i <= |latest|
    ensures i < |latest| ==> latest[i].profile == profile
  {
    if latest == [] || latest[0].profile == profile then 0 else 1 + ProfileIndex(latest[1..], profile)
  }

  // A profile keeps the place of its first event and the value of its last.
  function Put(latest: seq<Event>, e: Event): seq<Event> {
    var i := ProfileIndex(latest, e.profile);
    if i < |latest| then latest[i := e] else latest + [e]
  }

  function LatestByProfile(events: seq<Event>): seq<Event> {
    if events == [] then [] else Put(LatestByProfile(events[..|events| - 1]), events[|events| - 1])
  }

  function Active(latest: seq<Event>, now: int): seq<Event> {
    if latest == [] then []
    else
      var e := latest[|latest| - 1];
      Active(latest[..|latest| - 1], now) + if e.enter && !Expired(e, now) then [e] else []
  }

  function Enters(events: seq<Event>): seq<Event> {
    if events == [] then []
    else
      var e := events[|events| - 1];
      Enters(events[..|events| - 1]) + if e.enter then [e] else []
  }

  // The first of the events with the largest time text.
  function Newest(events: seq<Event>): Event
    requires events != []
  {
    var e := events[|events| - 1];
    if |events| == 1 then e
    else
      var before := Newest(events[..|events| - 1]);
      if TextBefore(before.at, e.at) then e else before
  }

  function RolesOf(active: seq<Event>): set<Role> {
    set e | e in active :: e.role
  }

  function ConditionsOf(events: seq<Event>): set<string> {
    set e | e in events :: e.condition
  }

  predicate AnySubscribed(active: seq<Event>) {
    exists e :: e in active && e.subscribed
  }

  function LatestHit(enters: seq<Event>): Option<Wire> {
    if enters == [] then None else Some(Newest(enters).at)
  }

  function Weight(role: Role): int {
    match role
    case Discovery => 1
    case ThemeSpread => 2
    case Manual => 3
    case Pullback => 4
    case Breakout => 4
    case Leader => 5
    case RiskBlock => 0
  }

  function RoleScore(roles: set<Role>): int {
    (if Discovery in roles then Weight(Discovery) else 0)
    + (if ThemeSpread in roles then Weight(ThemeSpread) else 0)
    + (if Manual in roles then Weight(Manual) else 0)
    + (if Pullback in roles then Weight(Pullback) else 0)
    + (if Breakout in roles then Weight(Breakout) else 0)
    + (if Leader in roles then Weight(Leader) else 0)
  }

  function PriorityOf(active: seq<Event>): nat {
    if active == [] then 0
    else
      var e := active[|active| - 1];
      PriorityOf(active[..|active| - 1]) + if e.role != RiskBlock && e.priority > 0 then e.priority else 0
  }

  function Score(roles: set<Role>, priority: nat): int {
    var base := RoleScore(roles) * 10 + priority;
    var capped := if roles == {Discovery} && base > 25 then 25 else base;
    if RiskBlock in roles || roles == {} then 0
    else
      capped
      + (if Leader in roles && Pullback in roles then 500 else 0)
      + (if Leader in roles && Breakout in roles then 500 else 0)
  }

  function ReasonsFor(roles: set<Role>): seq<Reason> {
    [SensorEvidence]
    + (if roles == {Discovery} then [DiscoveryOnly, DiscoveryPromotionPending] else [])
    + (if Leader in roles && Pullback in roles then [LeaderPullback] else [])
    + (if Leader in roles && Breakout in roles then [LeaderBreakout] else [])
    + (if RiskBlock in roles then [RiskBlocked, NotBuySignal] else [])
    + (if roles != {} && roles != {Discovery} && RiskBlock !in roles then [PriorityReady] else [])
    + (if roles == {} then [NoActiveRole, NotBuySignal] else [])
  }

  function Fuse(code: string, events: seq<Event>, now: int): Fusion
    requires events != []
  {
    var active := Active(LatestByProfile(events), now);
    var roles := RolesOf(active);
    var enters := Enters(events);
    var newest := Newest(events);
    Fusion(
      code, newest.name, roles, |enters|, LatestHit(enters), ConditionsOf(enters),
      RoleScore(roles), RiskBlock in roles, Score(roles, PriorityOf(active)), ReasonsFor(roles),
      AnySubscribed(active), newest, active,
      RiskBlock in roles || roles == {},
      roles != {} && RiskBlock !in roles,
      roles == {Discovery},
      now)
  }

  // ---- the tables --------------------------------------------------------------------------------

  // A stored signal and whether its metadata is a profile's.
  datatype Signal = Signal(event: Event, isProfile: bool)

  predicate Counts(s: Signal, day: Date) {
    s.isProfile && InBounds(s.event.at, day)
  }

  // What the full rebuild keeps: it also asks that the time is of the date.
  predicate Dated(s: Signal, day: Date) {
    Counts(s, day) && OnDate(s.event.at, day)
  }

  // Signals come ordered by time text and number.
  function EventsOf(signals: seq<Signal>, code: string, day: Date): seq<Event> {
    if signals == [] then []
    else
      var s := signals[|signals| - 1];
      EventsOf(signals[..|signals| - 1], code, day)
      + if Counts(s, day) && s.event.code == code then [s.event] else []
  }

  function DatedEventsOf(signals: seq<Signal>, code: string, day: Date): seq<Event> {
    if signals == [] then []
    else
      var s := signals[|signals| - 1];
      DatedEventsOf(signals[..|signals| - 1], code, day)
      + if Dated(s, day) && s.event.code == code then [s.event] else []
  }

  function CodesOf(signals: seq<Signal>, day: Date): set<string> {
    set s | s in signals && Dated(s, day) :: s.event.code
  }

  lemma {:induction false} CodesHaveEvents(signals: seq<Signal>, code: string, day: Date)
    ensures code in CodesOf(signals, day) <==> DatedEventsOf(signals, code, day) != []
  {
    if signals != [] {
      var n := |signals| - 1;
      CodesHaveEvents(signals[..n], code, day);
      assert signals == signals[..n] + [signals[n]];
    }
  }

  lemma OneMoreSignal(signals: seq<Signal>, i: nat, day: Date)
    requires i < |signals|
    ensures var s, before, after := signals[i], signals[..i], signals[..i + 1];
            && CodesOf(after, day) == CodesOf(before, day) + (if Dated(s, day) then {s.event.code} else {})
            && forall code :: DatedEventsOf(after, code, day)
                 == DatedEventsOf(before, code, day)
                    + if Dated(s, day) && s.event.code == code then [s.event] else []
  {
    assert signals[..i + 1] == signals[..i] + [signals[i]] && signals[..i + 1][..i] == signals[..i];
  }

  function RowFor(signals: seq<Signal>, code: string, day: Date, now: int): Fusion
    requires code in CodesOf(signals, day)
  {
    CodesHaveEvents(signals, code, day);
    Fuse(code, DatedEventsOf(signals, code, day), now)
  }

  function Rows(signals: seq<Signal>, day: Date, now: int): map<string, Fusion> {
    map code | code in CodesOf(signals, day) :: RowFor(signals, code, day, now)
  }

  // Every code with events gets a new row; rows of other codes stay.
  function Full(table: map<string, Fusion>, signals: seq<Signal>, day: Date, now: int): map<string, Fusion> {
    table + Rows(signals, day, now)
  }

  function FusedGroups(groups: map<string, seq<Event>>, now: int): map<string, Fusion>
    requires forall c :: c in groups ==> groups[c] != []
  {
    map c | c in groups :: Fuse(c, groups[c], now)
  }

  lemma FusedNext(groups: map<string, seq<Event>>, left: set<string>, code: string, now: int)
    requires forall c :: c in groups ==> groups[c] != []
    requires code in groups && code in left
    ensures FusedGroups(groups - (left - {code}), now)
         == FusedGroups(groups - left, now)[code := Fuse(code, groups[code], now)]
  {
  }

  lemma GroupsAreRows(groups: map<string, seq<Event>>, signals: seq<Signal>, day: Date, now: int)
    requires groups.Keys == CodesOf(signals, day)
    requires forall c :: c in groups ==> groups[c] == DatedEventsOf(signals, c, day)
    ensures forall c :: c in groups ==> groups[c] != []
    ensures FusedGroups(groups, now) == Rows(signals, day, now)
  {
    forall c | c in groups ensures groups[c] != [] {
      CodesHaveEvents(signals, c, day);
    }
  }

  lemma MergeOne(table: map<string, Fusion>, rows: map<string, Fusion>, left: set<string>, code: string)
    requires code in left && code in rows
    ensures table + (rows - (left - {code})) == (table + (rows - left))[code := rows[code]]
  {
  }

  function ForCode(table: map<string, Fusion>, signals: seq<Signal>, code: string, day: Date, now: int): map<string, Fusion> {
    var events := EventsOf(signals, code, day);
    if events == [] then table else table[code := Fuse(code, events, now)]
  }

  class ConditionFusionTables {
    const day: Date
    var signals: seq<Signal>
    var fusions: map<string, Fusion>

    constructor (day: Date)
      ensures this.day == day && signals == [] && fusions == map[]
    {
      this.day := day;
      signals, fusions := [], map[];
    }

    static method LatestProfileEvents(events: seq<Event>) returns (latest: seq<Event>)
      ensures latest == LatestByProfile(events)
    {
      latest := [];
      for i := 0 to |events|
        invariant latest == LatestByProfile(events[..i])
      {
        assert events[..i + 1][..i] == events[..i];
        latest := Put(latest, events[i]);
      }
      assert events[..|events|] == events;
    }

    static method ActiveEvents(latest: seq<Event>, now: int) returns (active: seq<Event>, priority: nat)
      ensures active == Active(latest, now) && priority == PriorityOf(active)
    {
      active, priority := [], 0;
      for i := 0 to |latest|
        invariant active == Active(latest[..i], now) && priority == PriorityOf(active)
      {
        assert latest[..i + 1][..i] == latest[..i];
        var e := latest[i];
        if e.enter && !Expired(e, now) {
          assert (active + [e])[..|active|] == active;
          active := active + [e];
          priority := priority + if e.role != RiskBlock && e.priority > 0 then e.priority else 0;
        } else {
          assert active + [] == active;
        }
      }
      assert latest[..|latest|] == latest;
    }

    static method Evidence(roles: set<Role>, priority: nat) returns (score: int, reasons: seq<Reason>)
      ensures score == Score(roles, priority) && reasons == ReasonsFor(roles)
    {
      var riskBlocked := RiskBlock in roles;
      var discoveryOnly := roles == {Discovery};
      reasons := [SensorEvidence];
      score := RoleScore(roles) * 10 + priority;
      if discoveryOnly && score > 25 {
        score := 25;
      }
      reasons := reasons + if discoveryOnly then [DiscoveryOnly, DiscoveryPromotionPending] else [];
      if Leader in roles && Pullback in roles {
        score := score + 500;
      }
      reasons := reasons + if Leader in roles && Pullback in roles then [LeaderPullback] else [];
      if Leader in roles && Breakout in roles {
        score := score + 500;
      }
      reasons := reasons + if Leader in roles && Breakout in roles then [LeaderBreakout] else [];
      if riskBlocked {
        score := 0;
      }
      reasons := reasons + if riskBlocked then [RiskBlocked, NotBuySignal] else [];
      reasons := reasons + if roles != {} && !discoveryOnly && !riskBlocked then [PriorityReady] else [];
      if roles == {} {
        score := 0;
      }
      reasons := reasons + if roles == {} then [NoActiveRole, NotBuySignal] else [];
    }

    static method FuseCodeEvents(code: string, events: seq<Event>, now: int) returns (f: Fusion)
      requires events != []
      ensures f == Fuse(code, events, now)
    {
      var latest := LatestProfileEvents(events);
      var active, priority := ActiveEvents(latest, now);
      var enters := Enters(events);
      var newest := Newest(events);
      var roles := RolesOf(active);
      var score, reasons := Evidence(roles, priority);
      f := Fusion(code, newest.name, roles, |enters|, LatestHit(enters), ConditionsOf(enters),
                  RoleScore(roles), RiskBlock in roles, score, reasons, AnySubscribed(active), newest, active,
                  RiskBlock in roles || roles == {}, roles != {} && RiskBlock !in roles, roles == {Discovery}, now);
    }

    method EventsByCode() returns (groups: map<string, seq<Event>>)
      ensures groups.Keys == CodesOf(signals, day)
      ensures forall code :: code in groups ==> groups[code] == DatedEventsOf(signals, code, day)
    {
      groups := map[];
      for i := 0 to |signals|
        invariant groups.Keys == CodesOf(signals[..i], day)
        invariant forall code :: code in groups ==> groups[code] == DatedEventsOf(signals[..i], code, day)
      {
        var s := signals[i];
        OneMoreSignal(signals, i, day);
        CodesHaveEvents(signals[..i], s.event.code, day);
        if Dated(s, day) {
          var before := if s.event.code in groups then groups[s.event.code] else [];
          assert before == DatedEventsOf(signals[..i], s.event.code, day);
          groups := groups[s.event.code := before + [s.event]];
        }
      }
      assert signals[..|signals|] == signals;
    }

    static method FuseGroups(groups: map<string, seq<Event>>, now: int) returns (fused: map<string, Fusion>)
      requires forall c :: c in groups ==> groups[c] != []
      ensures fused == FusedGroups(groups, now)
    {
      fused := map[];
      var codes := groups.Keys;
      while codes != {}
        invariant codes <= groups.Keys
        invariant fused == FusedGroups(groups - codes, now)
        decreases |codes|
      {
        var code :| code in codes;
        var f := FuseCodeEvents(code, groups[code], now);
        FusedNext(groups, codes, code, now);
        fused := fused[code := f];
        codes := codes - {code};
      }
      assert groups - {} == groups;
    }

    method UpsertFusions(fused: map<string, Fusion>)
      modifies this`fusions
      ensures fusions == old(fusions) + fused
    {
      var codes := fused.Keys;
      ghost var table := fusions;
      while codes != {}
        invariant codes <= fused.Keys
        invariant fusions == table + (fused - codes)
        decreases |codes|
      {
        var code :| code in codes;
        MergeOne(table, fused, codes, code);
        fusions := fusions[code := fused[code]];
        codes := codes - {code};
      }
      assert fused - {} == fused;
    }

    method RebuildAll(now: int)
      modifies this`fusions
      ensures fusions == Full(old(fusions), signals, day, now)
    {
      var groups := EventsByCode();
      GroupsAreRows(groups, signals, day, now);
      var fused := FuseGroups(groups, now);
      UpsertFusions(fused);
    }

    method CodeEvents(code: string) returns (events: seq<Event>)
      ensures events == EventsOf(signals, code, day)
    {
      events := [];
      for i := 0 to |signals|
        invariant events == EventsOf(signals[..i], code, day)
      {
        assert signals[..i + 1][..i] == signals[..i];
        if Counts(signals[i], day) && signals[i].event.code == code {
          events := events + [signals[i].event];
        }
      }
      assert signals[..|signals|] == signals;
    }

    method RebuildForCode(code: string, now: int)
      modifies this`fusions
      ensures fusions == ForCode(old(fusions), signals, code, day, now)
    {
      var events := CodeEvents(code);
      if events == [] {
        return;
      }
      var f := FuseCodeEvents(code, events, now);
      fusions := fusions[code := f];
    }
  }
}
