// Admission of condition-search hits to realtime price subscriptions.

module ConditionAdmission {
  import opened SlidingWindows

  datatype Role = Discovery | Leader | Pullback | Breakout | ThemeSpread | RiskBlock | Manual
  datatype Policy = NoSubscribe | Batch | Immediate | RealOnly
  datatype Session = PreopenNxt | Opening | MorningTrend | Midday | Afternoon | Closing
  datatype Source = TrCondition | RealCondition | OtherSource
  datatype Action = Enter | Exit | OtherAction

  // Limits are clamped to zero or more when a profile is built.
  datatype Profile = Profile(id: string, role: Role, policy: Policy, maxInitial: nat, maxPerMin: nat)

  datatype Health = CallbackTrouble | ParseError | OtherHealth
  datatype Metrics = Metrics(health: Health, parsed: int, errors: int, callbacks: int, registered: int)

  datatype Quality = Good | Degraded | CallbackTimeout | Warmup

  function Max(a: int, b: int): int {
    if a >= b then a else b
  }

  function Min(a: int, b: int): int {
    if a <= b then a else b
  }

  function QualityOf(m: Metrics): Quality {
    if m.health == CallbackTrouble then CallbackTimeout
    else if m.health == ParseError || (m.errors >= 3 && 2 * m.errors > Max(m.parsed, 1)) then Degraded
    else if m.registered > 0 && m.callbacks == 0 && m.parsed == 0 then Warmup
    else Good
  }

  predicate Strong(r: Role) {
    r.Leader? || r.Pullback? || r.Breakout? || r.Manual?
  }

  function DiscoveryCap(s: Session): int {
    match s
    case PreopenNxt => 0
    case Opening => 80
    case MorningTrend => 40
    case Midday => 12
    case Afternoon => 10
    case Closing => 5
  }

  function AdaptiveCap(role: Role, m: Metrics, s: Session, maxTotal: int): (cap: nat)
    ensures cap <= Max(maxTotal, 0)
    ensures role.RiskBlock? ==> cap == 0
  {
    var byRole := if Strong(role) then 100 else if role.RiskBlock? then 0 else DiscoveryCap(s);
    var byQuality :=
      match QualityOf(m)
      case Degraded => Min(byRole, if Strong(role) then 30 else 5)
      case CallbackTimeout => Min(byRole, if Strong(role) then 10 else 0)
      case Warmup => Min(byRole, if Strong(role) then 20 else 8)
      case Good => byRole;
    Max(Min(byQuality, Max(maxTotal, 0)), 0)
  }

  // One hit as the gateway puts it to the controller.
  datatype Hit = Hit(
    profile: Profile,
    action: Action,
    source: Source,
    registered: nat,
    planned: int,
    metrics: Metrics,
    session: Session,
    maxTotal: int,
    batchAllowed: bool,
    now: real)

  datatype Reason =
    | ExitEvent | RiskBlocked | PolicyNone | MaxInitialReached | BudgetExhausted | RateLimited
    | SessionLimited | SubscribeImmediate | SubscribeRealOnly | RealOnlySkipped
    | BatchInitial | BatchRealtime | BatchDeferred

  datatype Decision = Decision(immediate: bool, batch: bool, reason: Reason) {
    predicate Subscribed() {
      immediate || batch
    }
  }

  datatype Metric = Metric(hits: nat, enters: nat, exits: nat, subscribed: nat, skipped: nat)

  datatype Controller = Controller(
    metrics: map<string, Metric>,
    enteredAt: map<string, seq<Entry>>,
    initialCounts: map<string, nat>)

  const EMPTY := Controller(map[], map[], map[])
  const MINUTE := 60.0

  function EntriesOf(c: Controller, id: string): seq<Entry> {
    if id in c.enteredAt then c.enteredAt[id] else []
  }

  function InitialCount(c: Controller, id: string): nat {
    if id in c.initialCounts then c.initialCounts[id] else 0
  }

  function Effective(h: Hit): nat {
    h.registered + Max(h.planned, 0)
  }

  function Cap(h: Hit): nat {
    AdaptiveCap(h.profile.role, h.metrics, h.session, h.maxTotal)
  }

  // The gates before the realtime rate.
  function Gate(c: Controller, h: Hit): Reason {
    if h.action != Enter then ExitEvent
    else if h.profile.role.RiskBlock? then RiskBlocked
    else if h.profile.policy.NoSubscribe? then PolicyNone
    else if h.source.TrCondition? && InitialCount(c, h.profile.id) >= h.profile.maxInitial then MaxInitialReached
    else if Effective(h) >= Cap(h) then BudgetExhausted
    else RateLimited
  }

  predicate RateChecked(c: Controller, h: Hit) {
    Gate(c, h) == RateLimited && h.source.RealCondition? && h.profile.maxPerMin > 0
  }

  predicate WithinRate(c: Controller, h: Hit) {
    h.profile.maxPerMin > 0 && |Trim(EntriesOf(c, h.profile.id), h.now - MINUTE)| < h.profile.maxPerMin
  }

  function ByPolicy(h: Hit): Decision {
    var tr := h.source.TrCondition? && h.batchAllowed;
    if (h.session.Midday? || h.session.Afternoon? || h.session.Closing?) && h.profile.role.Discovery? then
      Decision(false, tr, SessionLimited)
    else match h.profile.policy
      case Immediate => Decision(true, false, SubscribeImmediate)
      case RealOnly =>
        if h.source.RealCondition? then Decision(true, false, SubscribeRealOnly)
        else Decision(false, false, RealOnlySkipped)
      case Batch =>
        if tr then Decision(false, true, BatchInitial)
        else if h.source.RealCondition? then Decision(true, false, BatchRealtime)
        else Decision(false, false, BatchDeferred)
      case NoSubscribe => Decision(false, false, PolicyNone)
  }

  function Decide(c: Controller, h: Hit): Decision {
    if Gate(c, h) != RateLimited then Decision(false, false, Gate(c, h))
    else if h.source.RealCondition? && !WithinRate(c, h) then Decision(false, false, RateLimited)
    else ByPolicy(h)
  }

  function Counted(m: Metric, h: Hit, d: Decision): Metric {
    Metric(m.hits + 1,
           m.enters + (if h.action == Enter then 1 else 0),
           m.exits + (if h.action == Exit then 1 else 0),
           m.subscribed + (if d.Subscribed() then 1 else 0),
           m.skipped + (if d.Subscribed() then 0 else 1))
  }

  function MetricOf(c: Controller, id: string): Metric {
    if id in c.metrics then c.metrics[id] else Metric(0, 0, 0, 0, 0)
  }

  // The rate check drops expired entries of the profile's queue.
  function AfterRateCheck(c: Controller, h: Hit): Controller {
    if RateChecked(c, h) then
      c.(enteredAt := c.enteredAt[h.profile.id := Trim(EntriesOf(c, h.profile.id), h.now - MINUTE)])
    else c
  }

  function AfterAdmission(c: Controller, h: Hit): Controller {
    var id := h.profile.id;
    Controller(
      c.metrics,
      c.enteredAt[id := EntriesOf(c, id) + [Entry(h.now, 1.0)]],
      if h.source.TrCondition? then c.initialCounts[id := InitialCount(c, id) + 1] else c.initialCounts)
  }

  function AfterDecide(c: Controller, h: Hit): Controller {
    var d := Decide(c, h);
    var checked := AfterRateCheck(c, h);
    var admitted := if d.Subscribed() then AfterAdmission(checked, h) else checked;
    admitted.(metrics := c.metrics[h.profile.id := Counted(MetricOf(c, h.profile.id), h, d)])
  }

  // What a subscription takes: an entry of a profile that may subscribe, room under the cap, room
  // in the initial maximum or the realtime rate, and a batch only for a TR callback that allows it.
  lemma SubscribedMeans(c: Controller, h: Hit)
    requires Decide(c, h).Subscribed()
    ensures h.action == Enter && h.profile.role != RiskBlock && h.profile.policy != NoSubscribe
    ensures h.registered + Max(h.planned, 0) < Cap(h) <= Max(h.maxTotal, 0)
    ensures h.source == TrCondition ==> InitialCount(c, h.profile.id) < h.profile.maxInitial
    ensures h.source == RealCondition ==> WithinRate(c, h)
    ensures Decide(c, h).batch ==> h.source == TrCondition && h.batchAllowed
    ensures Decide(c, h).immediate ==> !Decide(c, h).batch
    ensures h.profile.policy == RealOnly && Decide(c, h).immediate ==> h.source == RealCondition
  {
    assert Gate(c, h) == RateLimited;
    assert h.source == RealCondition ==> WithinRate(c, h);
  }

  class GatewayConditionAdmissionController {
    var metrics: map<string, Metric>
    var realtimeEnterAt: map<string, seq<Entry>>
    var initialEnterCounts: map<string, nat>

    ghost function Model(): Controller
      reads this
    {
      Controller(metrics, realtimeEnterAt, initialEnterCounts)
    }

    constructor ()
      ensures Model() == EMPTY
    {
      metrics, realtimeEnterAt, initialEnterCounts := map[], map[], map[];
    }

    method DecideHit(h: Hit) returns (d: Decision)
      modifies this
      ensures d == Decide(old(Model()), h)
      ensures Model() == AfterDecide(old(Model()), h)
    {
      var effective := h.registered + Max(h.planned, 0);
      var cap := AdaptiveCap(h.profile.role, h.metrics, h.session, h.maxTotal);
      var id := h.profile.id;
      var initial := if id in initialEnterCounts then initialEnterCounts[id] else 0;
      if h.action != Enter {
        d := Decision(false, false, ExitEvent);
      } else if h.profile.role.RiskBlock? {
        d := Decision(false, false, RiskBlocked);
      } else if h.profile.policy.NoSubscribe? {
        d := Decision(false, false, PolicyNone);
      } else if h.source.TrCondition? && initial >= h.profile.maxInitial {
        d := Decision(false, false, MaxInitialReached);
      } else if effective >= cap {
        d := Decision(false, false, BudgetExhausted);
      } else {
        var open := true;
        if h.source.RealCondition? {
          open := WithinRealtimeRate(h.profile, h.now);
        }
        d := if open then ByPolicy(h) else Decision(false, false, RateLimited);
      }
      assert d == Decide(old(Model()), h);
      assert Model() == AfterRateCheck(old(Model()), h);
      if d.Subscribed() {
        RecordEnter(h);
      }
      RecordMetric(h, d);
    }

    method RecordEnter(h: Hit)
      modifies this`realtimeEnterAt, this`initialEnterCounts
      ensures Model() == AfterAdmission(old(Model()), h)
    {
      var id := h.profile.id;
      var entries := if id in realtimeEnterAt then realtimeEnterAt[id] else [];
      realtimeEnterAt := realtimeEnterAt[id := entries + [Entry(h.now, 1.0)]];
      if h.source.TrCondition? {
        var n := if id in initialEnterCounts then initialEnterCounts[id] else 0;
        initialEnterCounts := initialEnterCounts[id := n + 1];
      }
    }

    method RecordMetric(h: Hit, d: Decision)
      modifies this`metrics
      ensures metrics == old(metrics)[h.profile.id := Counted(MetricOf(old(Model()), h.profile.id), h, d)]
    {
      var id := h.profile.id;
      var metric := if id in metrics then metrics[id] else Metric(0, 0, 0, 0, 0);
      metrics := metrics[id := Counted(metric, h, d)];
    }

    method WithinRealtimeRate(p: Profile, now: real) returns (open: bool)
      modifies this`realtimeEnterAt
      ensures open == (p.maxPerMin > 0
                       && |Trim(EntriesOf(old(Model()), p.id), now - MINUTE)| < p.maxPerMin)
      ensures realtimeEnterAt
           == if p.maxPerMin > 0 then
                old(realtimeEnterAt)[p.id := Trim(EntriesOf(old(Model()), p.id), now - MINUTE)]
              else old(realtimeEnterAt)
    {
      if p.maxPerMin <= 0 {
        return false;
      }
      var entries := if p.id in realtimeEnterAt then realtimeEnterAt[p.id] else [];
      ghost var before := entries;
      while entries != [] && now - entries[0].at >= MINUTE
        invariant Trim(entries, now - MINUTE) == Trim(before, now - MINUTE)
        decreases |entries|
      {
        entries := entries[1..];
      }
      realtimeEnterAt := realtimeEnterAt[p.id := entries];
      return |entries| < p.maxPerMin;
    }
  }

  // ---- runs ----------------------------------------------------------------------------

  datatype Admission = Admission(id: string, source: Source, at: real)

  datatype Run = Run(c: Controller, clock: real, admitted: seq<Admission>)

  // Times do not run back and one id always means the same profile.
  predicate Enabled(r: Run, profiles: map<string, Profile>, h: Hit) {
    r.clock <= h.now && h.profile.id in profiles && profiles[h.profile.id] == h.profile
  }

  function Next(r: Run, h: Hit): Run {
    Run(AfterDecide(r.c, h), h.now,
        if Decide(r.c, h).Subscribed() then r.admitted + [Admission(h.profile.id, h.source, h.now)] else r.admitted)
  }

  predicate Admissible(r: Run, profiles: map<string, Profile>, hits: seq<Hit>)
    decreases hits
  {
    hits == [] || (Enabled(r, profiles, hits[0]) && Admissible(Next(r, hits[0]), profiles, hits[1..]))
  }

  function Execute(r: Run, hits: seq<Hit>): Run
    decreases hits
  {
    if hits == [] then r else Execute(Next(r, hits[0]), hits[1..])
  }

  // All admissions of a profile, or only those from the realtime callback.
  function Times(admitted: seq<Admission>, id: string, realOnly: bool): seq<Entry> {
    if admitted == [] then []
    else
      var a := admitted[|admitted| - 1];
      Times(admitted[..|admitted| - 1], id, realOnly)
      + if a.id == id && (!realOnly || a.source.RealCondition?) then [Entry(a.at, 1.0)] else []
  }

  function InitialAdmissions(admitted: seq<Admission>, id: string): nat {
    if admitted == [] then 0
    else
      var a := admitted[|admitted| - 1];
      InitialAdmissions(admitted[..|admitted| - 1], id) + if a.id == id && a.source.TrCondition? then 1 else 0
  }

  ghost predicate Units(h: seq<Entry>) {
    forall i :: 0 <= i < |h| ==> h[i].weight == 1.0
  }

  lemma {:induction false} UnitTotal(h: seq<Entry>)
    requires Units(h)
    ensures Total(h) == |h| as real
  {
    if h != [] {
      UnitTotal(h[1..]);
    }
  }

  lemma {:induction false} TimesShape(admitted: seq<Admission>, id: string, realOnly: bool, clock: real)
    requires forall i, j :: 0 <= i < j < |admitted| ==> admitted[i].at <= admitted[j].at
    requires forall i :: 0 <= i < |admitted| ==> admitted[i].at <= clock
    ensures var t := Times(admitted, id, realOnly);
            Ordered(t) && Units(t) && Positive(t) && NoLaterThan(t, clock)
  {
    if admitted != [] {
      TimesShape(admitted[..|admitted| - 1], id, realOnly, admitted[|admitted| - 1].at);
    }
  }

  lemma {:induction false} TrimAllExpired(h: seq<Entry>, cutoff: real)
    requires NoLaterThan(h, cutoff)
    ensures Trim(h, cutoff) == []
  {
    if h != [] {
      TrimAllExpired(h[1..], cutoff);
    }
  }

  // Realtime admissions are among all admissions, so their trimmed queue is no longer.
  lemma {:induction false} RealAmongAll(admitted: seq<Admission>, id: string, cutoff: real)
    requires forall i, j :: 0 <= i < j < |admitted| ==> admitted[i].at <= admitted[j].at
    ensures |Trim(Times(admitted, id, true), cutoff)| <= |Trim(Times(admitted, id, false), cutoff)|
    decreases |admitted|
  {
    if admitted != [] {
      var front, a := admitted[..|admitted| - 1], admitted[|admitted| - 1];
      RealAmongAll(front, id, cutoff);
      if a.at > cutoff {
        TrimAppend(Times(front, id, true), Entry(a.at, 1.0), cutoff);
        TrimAppend(Times(front, id, false), Entry(a.at, 1.0), cutoff);
      } else {
        TimesShape(admitted, id, true, cutoff);
        TrimAllExpired(Times(admitted, id, true), cutoff);
      }
      assert Times(front, id, true) + [] == Times(front, id, true);
      assert Times(front, id, false) + [] == Times(front, id, false);
    }
  }

  ghost predicate Chronological(r: Run) {
    && (forall i, j :: 0 <= i < j < |r.admitted| ==> r.admitted[i].at <= r.admitted[j].at)
    && (forall i :: 0 <= i < |r.admitted| ==> r.admitted[i].at <= r.clock)
  }

  // Each queue is that profile's admissions with an expired head cut off.
  ghost predicate Remembers(r: Run, id: string) {
    exists cut: real :: RemembersFrom(r, id, cut)
  }

  ghost predicate RemembersFrom(r: Run, id: string, cut: real) {
    cut <= r.clock && EntriesOf(r.c, id) == Trim(Times(r.admitted, id, false), cut - MINUTE)
  }

  ghost predicate RateKept(r: Run, p: Profile) {
    WindowsBounded(Times(r.admitted, p.id, true), MINUTE, p.maxPerMin as real)
  }

  ghost predicate Inv(r: Run, profiles: map<string, Profile>) {
    && Chronological(r)
    && (forall id :: Remembers(r, id))
    && (forall id :: InitialCount(r.c, id) == InitialAdmissions(r.admitted, id))
    && (forall id :: id in profiles ==>
          profiles[id].id == id && RateKept(r, profiles[id])
          && InitialAdmissions(r.admitted, id) <= profiles[id].maxInitial)
    && (forall id :: id in r.c.metrics ==>
          r.c.metrics[id].hits == r.c.metrics[id].subscribed + r.c.metrics[id].skipped)
  }

  lemma TimesAppend(admitted: seq<Admission>, a: Admission, id: string, realOnly: bool)
    ensures Times(admitted + [a], id, realOnly)
         == Times(admitted, id, realOnly)
            + if a.id == id && (!realOnly || a.source.RealCondition?) then [Entry(a.at, 1.0)] else []
  {
    assert (admitted + [a])[..|admitted|] == admitted;
  }

  lemma InitialAppend(admitted: seq<Admission>, a: Admission, id: string)
    ensures InitialAdmissions(admitted + [a], id)
         == InitialAdmissions(admitted, id) + if a.id == id && a.source.TrCondition? then 1 else 0
  {
    assert (admitted + [a])[..|admitted|] == admitted;
  }

  lemma EntriesForward(r: Run, h: Hit)
    requires Chronological(r) && Remembers(r, h.profile.id) && r.clock <= h.now
    ensures Trim(EntriesOf(r.c, h.profile.id), h.now - MINUTE)
         == Trim(Times(r.admitted, h.profile.id, false), h.now - MINUTE)
  {
    var id := h.profile.id;
    var cut: real :| RemembersFrom(r, id, cut);
    TrimAgain(Times(r.admitted, id, false), cut - MINUTE, h.now - MINUTE);
  }

  lemma NextEntries(r: Run, h: Hit, id: string)
    ensures EntriesOf(AfterDecide(r.c, h), id)
         == EntriesOf(AfterRateCheck(r.c, h), id)
            + if id == h.profile.id && Decide(r.c, h).Subscribed() then [Entry(h.now, 1.0)] else []
  {
    assert EntriesOf(AfterRateCheck(r.c, h), id) + [] == EntriesOf(AfterRateCheck(r.c, h), id);
  }

  lemma CheckRemembers(r: Run, h: Hit, id: string) returns (cut: real)
    requires Chronological(r) && Remembers(r, id) && r.clock <= h.now
    ensures cut <= h.now
    ensures EntriesOf(AfterRateCheck(r.c, h), id) == Trim(Times(r.admitted, id, false), cut - MINUTE)
  {
    cut :| RemembersFrom(r, id, cut);
    if RateChecked(r.c, h) && id == h.profile.id {
      EntriesForward(r, h);
      cut := h.now;
    }
  }

  lemma NextRemembers(r: Run, h: Hit, id: string)
    requires Chronological(r) && Remembers(r, id) && r.clock <= h.now
    ensures Remembers(Next(r, h), id)
  {
    var n := Next(r, h);
    var all := Times(r.admitted, id, false);
    var cut := CheckRemembers(r, h, id);
    NextEntries(r, h, id);
    TimesAppend(r.admitted, Admission(h.profile.id, h.source, h.now), id, false);
    TrimAppend(all, Entry(h.now, 1.0), cut - MINUTE);
    assert all + [] == all && Trim(all, cut - MINUTE) + [] == Trim(all, cut - MINUTE);
    assert RemembersFrom(n, id, cut);
  }

  // A realtime admission finds room in the queue, and so among the realtime admissions.
  lemma RoomForOne(r: Run, h: Hit)
    requires Chronological(r) && Remembers(r, h.profile.id) && r.clock <= h.now
    requires Decide(r.c, h).Subscribed() && h.source.RealCondition?
    ensures Total(Trim(Times(r.admitted, h.profile.id, true), h.now - MINUTE)) + 1.0 <= h.profile.maxPerMin as real
  {
    var id := h.profile.id;
    var mine := Times(r.admitted, id, true);
    SubscribedMeans(r.c, h);
    EntriesForward(r, h);
    RealAmongAll(r.admitted, id, h.now - MINUTE);
    TimesShape(r.admitted, id, true, r.clock);
    TrimUnits(mine, h.now - MINUTE);
    UnitTotal(Trim(mine, h.now - MINUTE));
  }

  lemma NextKeepsRate(r: Run, h: Hit, p: Profile)
    requires Chronological(r) && Remembers(r, h.profile.id) && r.clock <= h.now
    requires RateKept(r, p) && (p.id == h.profile.id ==> p == h.profile)
    ensures RateKept(Next(r, h), p)
  {
    var mine := Times(r.admitted, p.id, true);
    TimesAppend(r.admitted, Admission(h.profile.id, h.source, h.now), p.id, true);
    assert mine + [] == mine;
    if Decide(r.c, h).Subscribed() && p.id == h.profile.id && h.source.RealCondition? {
      RoomForOne(r, h);
      TimesShape(r.admitted, p.id, true, r.clock);
      AppendKeepsBound(mine, Entry(h.now, 1.0), MINUTE, p.maxPerMin as real);
    }
  }

  lemma {:induction false} TrimUnits(h: seq<Entry>, cutoff: real)
    requires Units(h)
    ensures Units(Trim(h, cutoff))
  {
    if h != [] && h[0].at <= cutoff {
      TrimUnits(h[1..], cutoff);
    }
  }

  lemma NextKeepsInitial(r: Run, h: Hit, id: string)
    requires InitialCount(r.c, id) == InitialAdmissions(r.admitted, id)
    ensures var n := Next(r, h);
            && InitialCount(n.c, id) == InitialAdmissions(n.admitted, id)
            && (id == h.profile.id && InitialAdmissions(r.admitted, id) <= h.profile.maxInitial
                ==> InitialAdmissions(n.admitted, id) <= h.profile.maxInitial)
            && (id != h.profile.id ==> InitialAdmissions(n.admitted, id) == InitialAdmissions(r.admitted, id))
  {
    InitialAppend(r.admitted, Admission(h.profile.id, h.source, h.now), id);
  }

  lemma NextKeeps(r: Run, profiles: map<string, Profile>, h: Hit)
    requires Inv(r, profiles) && Enabled(r, profiles, h)
    ensures Inv(Next(r, h), profiles)
  {
    var n := Next(r, h);
    forall id ensures Remembers(n, id) {
      NextRemembers(r, h, id);
    }
    forall id ensures InitialCount(n.c, id) == InitialAdmissions(n.admitted, id) {
      NextKeepsInitial(r, h, id);
    }
    forall id | id in profiles
      ensures RateKept(n, profiles[id]) && InitialAdmissions(n.admitted, id) <= profiles[id].maxInitial
    {
      NextKeepsRate(r, h, profiles[id]);
      NextKeepsInitial(r, h, id);
    }
  }

  lemma {:induction false} RunKeeps(r: Run, profiles: map<string, Profile>, hits: seq<Hit>)
    requires Inv(r, profiles) && Admissible(r, profiles, hits)
    ensures Inv(Execute(r, hits), profiles)
    decreases hits
  {
    if hits != [] {
      NextKeeps(r, profiles, hits[0]);
      RunKeeps(Next(r, hits[0]), profiles, hits[1..]);
    }
  }

  lemma {:induction false} WithinUnits(h: seq<Entry>, from: real, width: real)
    requires Units(h)
    ensures Units(Within(h, from, width))
  {
    if h != [] {
      WithinUnits(h[1..], from, width);
    }
  }

  lemma FreshInv(profiles: map<string, Profile>, clock: real)
    requires forall id :: id in profiles ==> profiles[id].id == id
    ensures Inv(Run(EMPTY, clock, []), profiles)
  {
    var r := Run(EMPTY, clock, []);
    forall id ensures Remembers(r, id) {
      assert RemembersFrom(r, id, clock);
    }
  }

  lemma RateRead(r: Run, p: Profile, from: real)
    requires Chronological(r) && RateKept(r, p)
    ensures |Within(Times(r.admitted, p.id, true), from, MINUTE)| <= p.maxPerMin
  {
    var mine := Times(r.admitted, p.id, true);
    TimesShape(r.admitted, p.id, true, r.clock);
    WithinUnits(mine, from, MINUTE);
    UnitTotal(Within(mine, from, MINUTE));
  }

  function HitsOf(hits: seq<Hit>, id: string): nat {
    if hits == [] then 0 else (if hits[0].profile.id == id then 1 else 0) + HitsOf(hits[1..], id)
  }

  // The counters are the run's own tallies.
  lemma {:induction false} MetricsTally(r: Run, hits: seq<Hit>, id: string)
    ensures var m, n := MetricOf(r.c, id), MetricOf(Execute(r, hits).c, id);
            && n.hits == m.hits + HitsOf(hits, id)
            && n.subscribed - m.subscribed
               == |Times(Execute(r, hits).admitted, id, false)| - |Times(r.admitted, id, false)|
    decreases hits
  {
    if hits != [] {
      TimesAppend(r.admitted, Admission(hits[0].profile.id, hits[0].source, hits[0].now), id, false);
      MetricsTally(Next(r, hits[0]), hits[1..], id);
    }
  }

  // Realtime admissions of a profile in any minute stay within its rate, its initial admissions
  // within its maximum, and every hit is either subscribed or skipped.
  lemma {:induction false} AdmissionBounds(profiles: map<string, Profile>, clock: real, hits: seq<Hit>, id: string, from: real)
    requires forall x :: x in profiles ==> profiles[x].id == x
    requires Admissible(Run(EMPTY, clock, []), profiles, hits) && id in profiles
    ensures var r := Execute(Run(EMPTY, clock, []), hits);
            && |Within(Times(r.admitted, id, true), from, MINUTE)| <= profiles[id].maxPerMin
            && InitialAdmissions(r.admitted, id) <= profiles[id].maxInitial
            && MetricOf(r.c, id).hits == MetricOf(r.c, id).subscribed + MetricOf(r.c, id).skipped
            && MetricOf(r.c, id).hits == HitsOf(hits, id)
            && MetricOf(r.c, id).subscribed == |Times(r.admitted, id, false)|
  {
    MetricsTally(Run(EMPTY, clock, []), hits, id);
    FreshInv(profiles, clock);
    RunKeeps(Run(EMPTY, clock, []), profiles, hits);
    RateRead(Execute(Run(EMPTY, clock, []), hits), profiles[id], from);
  }
}
