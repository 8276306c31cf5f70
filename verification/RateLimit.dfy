// Rate limiting: two sliding windows and a per-type interval, kept as trimmed queues.

module RateLimit {
  import opened SlidingWindows

  datatype Limits = Limits(
    globalPerSecond: real,
    hourlyLimit: real,
    minInterval: map<string, real>,
    typeWeights: map<string, real>)

  const SECOND := 1.0
  const HOUR := 3600.0
  const MIN_WAIT := 0.001

  const DEFAULT_INTERVALS := map[
    "request_tr" := 1.0, "broker_snapshot_request" := 1.0, "load_conditions" := 1.0,
    "send_condition" := 0.2, "send_order" := 0.2, "cancel_order" := 0.2]

  const DEFAULT_WEIGHTS := map[
    "heartbeat_request" := 0.0, "register_realtime" := 1.0, "remove_realtime" := 1.0,
    "request_tr" := 1.0, "broker_snapshot_request" := 3.0, "load_conditions" := 1.0,
    "send_condition" := 1.0, "stop_condition" := 1.0, "send_order" := 1.0, "cancel_order" := 1.0]

  // Command types are already stripped and lower-cased.
  function Weight(lim: Limits, t: string): (w: real)
    ensures w >= 0.0
  {
    var w := if t in lim.typeWeights then lim.typeWeights[t] else 1.0;
    if w < 0.0 then 0.0 else w
  }

  function Interval(lim: Limits, t: string): (r: real)
    ensures r >= 0.0
  {
    var r := if t in lim.minInterval then lim.minInterval[t] else 0.0;
    if r < 0.0 then 0.0 else r
  }

  datatype Governor = Governor(lastCallAt: map<string, real>, second: seq<Entry>, hourly: seq<Entry>)

  const IDLE := Governor(map[], [], [])

  datatype Reason = TypeMinInterval | GlobalPerSecond | HourlyRollingLimit
  datatype Decision = Allowed | Rejected(waitTimeSec: real, reason: Reason)

  function Trimmed(g: Governor, now: real): Governor {
    g.(second := Trim(g.second, now - SECOND), hourly := Trim(g.hourly, now - HOUR))
  }

  // How long each rule asks to wait; zero or less when it does not block.
  function IntervalWait(lim: Limits, g: Governor, t: string, now: real): real {
    if Interval(lim, t) > 0.0 && t in g.lastCallAt then Interval(lim, t) - (now - g.lastCallAt[t]) else 0.0
  }

  function WindowWait(q: seq<Entry>, weight: real, limit: real, width: real, now: real): real {
    if Total(q) + weight > limit && q != [] then q[0].at + width - now else 0.0
  }

  // Only positive waits block, and none is shorter than a millisecond.
  function Blocked(wait: real, reason: Reason): Decision {
    if wait > 0.0 then Rejected(if wait < MIN_WAIT then MIN_WAIT else wait, reason) else Allowed
  }

  // The longer wait; the first one on a tie.
  function Longer(a: Decision, b: Decision): Decision {
    if a.Allowed? then b
    else if b.Allowed? || a.waitTimeSec >= b.waitTimeSec then a
    else b
  }

  function Decide(lim: Limits, g: Governor, t: string, now: real): Decision {
    var w := Weight(lim, t);
    var u := Trimmed(g, now);
    if w <= 0.0 then Allowed
    else
      var byInterval := Blocked(IntervalWait(lim, u, t, now), TypeMinInterval);
      var bySecond := Blocked(WindowWait(u.second, w, lim.globalPerSecond, SECOND, now), GlobalPerSecond);
      var byHour := Blocked(WindowWait(u.hourly, w, lim.hourlyLimit, HOUR, now), HourlyRollingLimit);
      Longer(Longer(byInterval, bySecond), byHour)
  }

  function AfterCheck(lim: Limits, g: Governor, t: string, now: real): Governor {
    if Weight(lim, t) <= 0.0 then g else Trimmed(g, now)
  }

  function AfterRecord(lim: Limits, g: Governor, t: string, now: real): Governor {
    var w := Weight(lim, t);
    if w <= 0.0 then g
    else
      var u := Trimmed(g, now);
      Governor(u.lastCallAt[t := now], u.second + [Entry(now, w)], u.hourly + [Entry(now, w)])
  }

  class KiwoomRateLimitGovernor {
    const limits: Limits
    var lastCallAt: map<string, real>
    var secondCalls: seq<Entry>
    var hourlyCalls: seq<Entry>

    ghost function Model(): Governor
      reads this
    {
      Governor(lastCallAt, secondCalls, hourlyCalls)
    }

    constructor (globalPerSecond: real, hourlyLimit: real, minInterval: map<string, real>,
                 typeWeights: map<string, real>)
      ensures Model() == IDLE
      ensures limits.globalPerSecond == (if globalPerSecond < 0.1 then 0.1 else globalPerSecond)
      ensures limits.hourlyLimit == (if hourlyLimit < 1.0 then 1.0 else hourlyLimit)
      ensures limits.typeWeights == DEFAULT_WEIGHTS + typeWeights
      ensures limits.minInterval == DEFAULT_INTERVALS + minInterval
    {
      limits := Limits(
        if globalPerSecond < 0.1 then 0.1 else globalPerSecond,
        if hourlyLimit < 1.0 then 1.0 else hourlyLimit,
        DEFAULT_INTERVALS + minInterval,
        DEFAULT_WEIGHTS + typeWeights);
      lastCallAt, secondCalls, hourlyCalls := map[], [], [];
    }

    method TrimCalls(now: real)
      modifies this`secondCalls, this`hourlyCalls
      ensures secondCalls == Trim(old(secondCalls), now - SECOND)
      ensures hourlyCalls == Trim(old(hourlyCalls), now - HOUR)
    {
      while secondCalls != [] && secondCalls[0].at <= now - SECOND
        invariant Trim(secondCalls, now - SECOND) == Trim(old(secondCalls), now - SECOND)
        invariant hourlyCalls == old(hourlyCalls)
        decreases |secondCalls|
      {
        secondCalls := secondCalls[1..];
      }
      while hourlyCalls != [] && hourlyCalls[0].at <= now - HOUR
        invariant Trim(hourlyCalls, now - HOUR) == Trim(old(hourlyCalls), now - HOUR)
        invariant secondCalls == Trim(old(secondCalls), now - SECOND)
        decreases |hourlyCalls|
      {
        hourlyCalls := hourlyCalls[1..];
      }
    }

    method Check(t: string, now: real) returns (d: Decision)
      modifies this
      ensures Model() == AfterCheck(limits, old(Model()), t, now)
      ensures d == Decide(limits, old(Model()), t, now)
    {
      var weight := Weight(limits, t);
      if weight <= 0.0 {
        return Allowed;
      }
      TrimCalls(now);
      d := Allowed;
      var interval := Interval(limits, t);
      if interval > 0.0 && t in lastCallAt {
        d := Blocked(interval - (now - lastCallAt[t]), TypeMinInterval);
      }
      if Total(secondCalls) + weight > limits.globalPerSecond && secondCalls != [] {
        d := Longer(d, Blocked(secondCalls[0].at + SECOND - now, GlobalPerSecond));
      }
      if Total(hourlyCalls) + weight > limits.hourlyLimit && hourlyCalls != [] {
        d := Longer(d, Blocked(hourlyCalls[0].at + HOUR - now, HourlyRollingLimit));
      }
    }

    method Record(t: string, now: real)
      modifies this
      ensures Model() == AfterRecord(limits, old(Model()), t, now)
    {
      var weight := Weight(limits, t);
      if weight <= 0.0 {
        return;
      }
      TrimCalls(now);
      lastCallAt := lastCallAt[t := now];
      secondCalls := secondCalls + [Entry(now, weight)];
      hourlyCalls := hourlyCalls + [Entry(now, weight)];
    }
  }

  // ---- runs ----------------------------------------------------------------------------

  datatype Op = Check(t: string, now: real) | Record(t: string, now: real)
  datatype Call = Call(t: string, at: real, weight: real)

  // `calls` is every recorded call; `granted` the types allowed since the last record.
  datatype Run = Run(g: Governor, clock: real, calls: seq<Call>, granted: set<string>)

  function Fresh(clock: real): Run {
    Run(IDLE, clock, [], {})
  }

  // The clock never runs back, and a record follows an allowed check with no record between.
  predicate Enabled(r: Run, op: Op) {
    r.clock <= op.now && (op.Record? ==> op.t in r.granted)
  }

  function Next(lim: Limits, r: Run, op: Op): Run {
    match op
    case Check(t, now) =>
      Run(AfterCheck(lim, r.g, t, now), now, r.calls,
          if Decide(lim, r.g, t, now) == Allowed then r.granted + {t} else r.granted)
    case Record(t, now) =>
      Run(AfterRecord(lim, r.g, t, now), now,
          if Weight(lim, t) > 0.0 then r.calls + [Call(t, now, Weight(lim, t))] else r.calls, {})
  }

  predicate Admissible(lim: Limits, r: Run, ops: seq<Op>)
    decreases ops
  {
    ops == [] || (Enabled(r, ops[0]) && Admissible(lim, Next(lim, r, ops[0]), ops[1..]))
  }

  function Execute(lim: Limits, r: Run, ops: seq<Op>): Run
    decreases ops
  {
    if ops == [] then r else Execute(lim, Next(lim, r, ops[0]), ops[1..])
  }

  function Entries(calls: seq<Call>): (r: seq<Entry>)
    ensures |r| == |calls|
  {
    if calls == [] then []
    else Entries(calls[..|calls| - 1]) + [Entry(calls[|calls| - 1].at, calls[|calls| - 1].weight)]
  }

  // Every window of the call history is within its limit.
  ghost predicate RateBounded(lim: Limits, calls: seq<Call>) {
    && WindowsBounded(Entries(calls), 1.0, lim.globalPerSecond)
    && WindowsBounded(Entries(calls), 3600.0, lim.hourlyLimit)
  }

  ghost predicate Spaced(lim: Limits, calls: seq<Call>) {
    forall i, j :: 0 <= i < j < |calls| && calls[i].t == calls[j].t
              ==> calls[j].at - calls[i].at >= Interval(lim, calls[j].t)
  }

  ghost predicate WeightsFit(lim: Limits) {
    forall t :: Weight(lim, t) <= lim.globalPerSecond && Weight(lim, t) <= lim.hourlyLimit
  }

  ghost predicate HistoryShape(h: seq<Entry>, clock: real) {
    Ordered(h) && Positive(h) && NoLaterThan(h, clock)
  }

  ghost predicate LastCalls(calls: seq<Call>, last: map<string, real>, clock: real) {
    && (forall t :: t in last ==> last[t] <= clock)
    && (forall i :: 0 <= i < |calls| ==> calls[i].t in last && calls[i].at <= last[calls[i].t])
  }

  // The queues are the history with its expired head cut off at some earlier instant.
  ghost predicate Remembers(r: Run, cut: real) {
    && cut <= r.clock
    && QueuesTrim(Entries(r.calls), r.g, cut)
    && HistoryShape(Entries(r.calls), r.clock)
    && LastCalls(r.calls, r.g.lastCallAt, r.clock)
  }

  ghost predicate Granted(lim: Limits, r: Run, t: string) {
    Weight(lim, t) > 0.0 ==>
      && Total(r.g.second) + Weight(lim, t) <= lim.globalPerSecond
      && Total(r.g.hourly) + Weight(lim, t) <= lim.hourlyLimit
      && (t in r.g.lastCallAt ==> r.clock - r.g.lastCallAt[t] >= Interval(lim, t))
  }

  ghost predicate Inv(lim: Limits, r: Run) {
    && (exists cut :: Remembers(r, cut))
    && (forall t :: t in r.granted ==> Granted(lim, r, t))
    && RateBounded(lim, r.calls)
    && Spaced(lim, r.calls)
  }

  lemma DecideMeans(lim: Limits, g: Governor, t: string, now: real)
    requires Weight(lim, t) > 0.0 && Positive(g.second) && Positive(g.hourly)
    ensures var u := Trimmed(g, now); var w := Weight(lim, t);
            Decide(lim, g, t, now) == Allowed <==>
              && (u.second == [] || Total(u.second) + w <= lim.globalPerSecond)
              && (u.hourly == [] || Total(u.hourly) + w <= lim.hourlyLimit)
              && (t in u.lastCallAt && Interval(lim, t) > 0.0 ==> now - u.lastCallAt[t] >= Interval(lim, t))
  {
    TrimKeeps(g.second, now - SECOND);
    TrimKeeps(g.hourly, now - HOUR);
  }

  // Trimming the queue at a later instant is trimming the history there.
  lemma TrimForward(h: seq<Entry>, q: seq<Entry>, from: real, to: real)
    requires Positive(h) && q == Trim(h, from) && from <= to
    ensures Trim(q, to) == Trim(h, to)
    ensures Positive(q) && Total(Trim(q, to)) <= Total(q)
  {
    TrimKeeps(h, from);
    TrimKeeps(q, to);
    TrimAgain(h, from, to);
  }

  lemma ClockMoves(calls: seq<Call>, last: map<string, real>, from: real, to: real)
    requires from <= to && HistoryShape(Entries(calls), from) && LastCalls(calls, last, from)
    ensures HistoryShape(Entries(calls), to) && LastCalls(calls, last, to)
  {
  }

  ghost predicate QueuesTrim(h: seq<Entry>, g: Governor, cut: real) {
    g.second == Trim(h, cut - SECOND) && g.hourly == Trim(h, cut - HOUR)
  }

  lemma QueuesForward(h: seq<Entry>, g: Governor, cut: real, now: real)
    requires Positive(h) && QueuesTrim(h, g, cut) && cut <= now
    ensures QueuesTrim(h, Trimmed(g, now), now)
    ensures Positive(g.second) && Positive(g.hourly)
  {
    TrimForward(h, g.second, cut - SECOND, now - SECOND);
    TrimForward(h, g.hourly, cut - HOUR, now - HOUR);
  }

  lemma CheckRemembers(lim: Limits, r: Run, cut: real, t: string, now: real) returns (c: real)
    requires Remembers(r, cut) && r.clock <= now
    ensures Remembers(Next(lim, r, Check(t, now)), c)
    ensures Positive(r.g.second) && Positive(r.g.hourly)
  {
    QueuesForward(Entries(r.calls), r.g, cut, now);
    ClockMoves(r.calls, r.g.lastCallAt, r.clock, now);
    c := if Weight(lim, t) > 0.0 then now else cut;
  }

  lemma GrantSurvivesTrim(lim: Limits, r: Run, u: Run, t: string)
    requires Granted(lim, r, t)
    requires u.g.lastCallAt == r.g.lastCallAt && r.clock <= u.clock
    requires Total(u.g.second) <= Total(r.g.second) && Total(u.g.hourly) <= Total(r.g.hourly)
    ensures Granted(lim, u, t)
  {
  }

  lemma CheckGrants(lim: Limits, r: Run, t: string, now: real)
    requires WeightsFit(lim) && Positive(r.g.second) && Positive(r.g.hourly) && r.clock <= now
    requires t in r.g.lastCallAt ==> r.g.lastCallAt[t] <= r.clock
    requires Decide(lim, r.g, t, now) == Allowed
    ensures Granted(lim, Next(lim, r, Check(t, now)), t)
  {
    if Weight(lim, t) > 0.0 {
      DecideMeans(lim, r.g, t, now);
    }
  }

  lemma CheckShrinks(lim: Limits, g: Governor, t: string, now: real)
    requires Positive(g.second) && Positive(g.hourly)
    ensures var u := AfterCheck(lim, g, t, now);
            && u.lastCallAt == g.lastCallAt
            && Total(u.second) <= Total(g.second) && Total(u.hourly) <= Total(g.hourly)
  {
    TrimKeeps(g.second, now - SECOND);
    TrimKeeps(g.hourly, now - HOUR);
  }

  lemma CheckKeeps(lim: Limits, r: Run, t: string, now: real)
    requires WeightsFit(lim) && Inv(lim, r) && r.clock <= now
    ensures Inv(lim, Next(lim, r, Check(t, now)))
  {
    var n := Next(lim, r, Check(t, now));
    var cut :| Remembers(r, cut);
    var c := CheckRemembers(lim, r, cut, t, now);
    CheckShrinks(lim, r.g, t, now);
    forall x | x in n.granted ensures Granted(lim, n, x) {
      if x in r.granted {
        GrantSurvivesTrim(lim, r, n, x);
      } else {
        CheckGrants(lim, r, t, now);
      }
    }
  }

  // One window: appending to the trimmed queue is appending to the history.
  lemma AppendForward(h: seq<Entry>, q: seq<Entry>, from: real, e: Entry, width: real, limit: real)
    requires Positive(h) && Ordered(h) && q == Trim(h, from) && from <= e.at - width
    requires width > 0.0 && e.weight > 0.0
    requires WindowsBounded(h, width, limit) && Total(q) + e.weight <= limit
    ensures Trim(q, e.at - width) + [e] == Trim(h + [e], e.at - width)
    ensures WindowsBounded(h + [e], width, limit)
  {
    TrimForward(h, q, from, e.at - width);
    TrimAppend(h, e, e.at - width);
    AppendKeepsBound(h, e, width, limit);
  }

  lemma EntriesAppend(calls: seq<Call>, c: Call)
    ensures Entries(calls + [c]) == Entries(calls) + [Entry(c.at, c.weight)]
  {
    assert (calls + [c])[..|calls|] == calls;
  }

  lemma CallAppended(calls: seq<Call>, last: map<string, real>, clock: real, c: Call)
    requires HistoryShape(Entries(calls), clock) && LastCalls(calls, last, clock)
    requires clock <= c.at && c.weight > 0.0
    ensures HistoryShape(Entries(calls + [c]), c.at) && LastCalls(calls + [c], last[c.t := c.at], c.at)
  {
    EntriesAppend(calls, c);
  }

  lemma RecordBounds(lim: Limits, r: Run, cut: real, t: string, now: real)
    requires Remembers(r, cut) && r.clock <= now && Weight(lim, t) > 0.0
    requires RateBounded(lim, r.calls) && Granted(lim, r, t)
    ensures var h, e := Entries(r.calls), Entry(now, Weight(lim, t));
            && Trim(r.g.second, now - SECOND) + [e] == Trim(h + [e], now - SECOND)
            && Trim(r.g.hourly, now - HOUR) + [e] == Trim(h + [e], now - HOUR)
            && WindowsBounded(h + [e], SECOND, lim.globalPerSecond)
            && WindowsBounded(h + [e], HOUR, lim.hourlyLimit)
  {
    var h, e := Entries(r.calls), Entry(now, Weight(lim, t));
    AppendForward(h, r.g.second, cut - SECOND, e, SECOND, lim.globalPerSecond);
    AppendForward(h, r.g.hourly, cut - HOUR, e, HOUR, lim.hourlyLimit);
  }

  lemma RecordRemembers(lim: Limits, r: Run, cut: real, t: string, now: real)
    requires Remembers(r, cut) && r.clock <= now && Weight(lim, t) > 0.0
    requires RateBounded(lim, r.calls) && Granted(lim, r, t)
    ensures var n := Next(lim, r, Record(t, now)); Remembers(n, now) && RateBounded(lim, n.calls)
  {
    var c := Call(t, now, Weight(lim, t));
    EntriesAppend(r.calls, c);
    RecordBounds(lim, r, cut, t, now);
    CallAppended(r.calls, r.g.lastCallAt, r.clock, c);
  }

  lemma RecordSpaces(lim: Limits, r: Run, cut: real, t: string, now: real)
    requires Remembers(r, cut) && r.clock <= now && Weight(lim, t) > 0.0
    requires Spaced(lim, r.calls) && Granted(lim, r, t)
    ensures Spaced(lim, Next(lim, r, Record(t, now)).calls)
  {
  }

  lemma RecordKeeps(lim: Limits, r: Run, t: string, now: real)
    requires Inv(lim, r) && r.clock <= now && t in r.granted
    ensures Inv(lim, Next(lim, r, Record(t, now)))
  {
    var n := Next(lim, r, Record(t, now));
    var cut :| Remembers(r, cut);
    if Weight(lim, t) > 0.0 {
      assert Granted(lim, r, t);
      RecordRemembers(lim, r, cut, t, now);
      RecordSpaces(lim, r, cut, t, now);
    } else {
      assert Remembers(n, cut);
    }
  }

  lemma {:induction false} RunKeeps(lim: Limits, r: Run, ops: seq<Op>)
    requires WeightsFit(lim) && Inv(lim, r) && Admissible(lim, r, ops)
    ensures Inv(lim, Execute(lim, r, ops))
    decreases ops
  {
    if ops != [] {
      match ops[0] {
        case Check(t, now) => CheckKeeps(lim, r, t, now);
        case Record(t, now) => RecordKeeps(lim, r, t, now);
      }
      RunKeeps(lim, Next(lim, r, ops[0]), ops[1..]);
    }
  }

  lemma FreshInv(lim: Limits, clock: real)
    requires WeightsFit(lim)
    ensures Inv(lim, Fresh(clock))
  {
    assert Remembers(Fresh(clock), clock);
    forall from: real ensures Total(Within([], from, SECOND)) <= lim.globalPerSecond {
      assert Weight(lim, "") <= lim.globalPerSecond;
    }
    forall from: real ensures Total(Within([], from, HOUR)) <= lim.hourlyLimit {
      assert Weight(lim, "") <= lim.hourlyLimit;
    }
  }

  // Although only trimmed queues are kept, every second and every hour of the whole call
  // history stays within its limit and calls of one type stay their interval apart.
  lemma HistoryBounded(lim: Limits, clock: real, ops: seq<Op>)
    requires WeightsFit(lim) && Admissible(lim, Fresh(clock), ops)
    ensures var calls := Execute(lim, Fresh(clock), ops).calls;
            RateBounded(lim, calls) && Spaced(lim, calls)
  {
    FreshInv(lim, clock);
    RunKeeps(lim, Fresh(clock), ops);
  }

  ghost predicate AlwaysBounded(lim: Limits) {
    forall clock, ops :: Admissible(lim, Fresh(clock), ops)
                    ==> RateBounded(lim, Execute(lim, Fresh(clock), ops).calls)
  }

  // A type heavier than a limit is let through an empty window and breaks the bound.
  lemma HeavyTypeBreaksBound(lim: Limits, t: string)
    requires Weight(lim, t) > lim.globalPerSecond || Weight(lim, t) > lim.hourlyLimit
    requires lim.globalPerSecond > 0.0 && lim.hourlyLimit > 0.0
    ensures var ops := [Check(t, 0.0), Record(t, 0.0)];
            && Admissible(lim, Fresh(0.0), ops)
            && !RateBounded(lim, Execute(lim, Fresh(0.0), ops).calls)
  {
    var ops := [Check(t, 0.0), Record(t, 0.0)];
    var r1 := Next(lim, Fresh(0.0), ops[0]);
    DecideMeans(lim, IDLE, t, 0.0);
    assert ops[1..] == [Record(t, 0.0)] && ops[1..][1..] == [];
    var calls := Execute(lim, Fresh(0.0), ops).calls;
    assert calls == [Call(t, 0.0, Weight(lim, t))] by {
      assert Execute(lim, r1, ops[1..]) == Next(lim, r1, Record(t, 0.0));
    }
    var h := Entries(calls);
    assert h == [Entry(0.0, Weight(lim, t))] && h[1..] == [];
    assert Within(h[1..], -0.5, SECOND) == [] && Within(h[1..], -0.5, HOUR) == [];
    assert Within(h, -0.5, SECOND) == h;
    assert Within(h, -0.5, HOUR) == h;
    assert Total(h) == Weight(lim, t) + Total(h[1..]) == Weight(lim, t);
  }

  // The bound holds in every run exactly when no type outweighs a limit.
  lemma BoundedIffWeightsFit(lim: Limits)
    requires lim.globalPerSecond > 0.0 && lim.hourlyLimit > 0.0
    ensures AlwaysBounded(lim) <==> WeightsFit(lim)
  {
    if WeightsFit(lim) {
      forall clock, ops | Admissible(lim, Fresh(clock), ops)
        ensures RateBounded(lim, Execute(lim, Fresh(clock), ops).calls)
      {
        HistoryBounded(lim, clock, ops);
      }
    } else {
      var t :| Weight(lim, t) > lim.globalPerSecond || Weight(lim, t) > lim.hourlyLimit;
      HeavyTypeBreaksBound(lim, t);
    }
  }

  // ---- waiting as told -----------------------------------------------------------------

  // Waiting out at most `n` rejections, with nothing recorded between, ends in an allowed check.
  predicate AllowedAfter(lim: Limits, g: Governor, t: string, now: real, n: nat)
    decreases n
  {
    match Decide(lim, g, t, now)
    case Allowed => true
    case Rejected(wait, _) => n > 0 && AllowedAfter(lim, AfterCheck(lim, g, t, now), t, now + wait, n - 1)
  }

  function Queued(g: Governor, now: real): nat {
    |Trimmed(g, now).second| + |Trimmed(g, now).hourly|
  }

  // A rejection's wait is at least as long as every rule asked for.
  lemma WaitOutlasts(lim: Limits, g: Governor, t: string, now: real)
    requires Decide(lim, g, t, now).Rejected?
    ensures var u := Trimmed(g, now); var wait := Decide(lim, g, t, now).waitTimeSec; var w := Weight(lim, t);
            && w > 0.0 && wait > 0.0
            && IntervalWait(lim, u, t, now) <= wait
            && WindowWait(u.second, w, lim.globalPerSecond, SECOND, now) <= wait
            && WindowWait(u.hourly, w, lim.hourlyLimit, HOUR, now) <= wait
  {
  }

  // One window: if it blocks again after the wait, its head has expired meanwhile.
  lemma HeadExpires(q: seq<Entry>, w: real, limit: real, cutoff: real)
    requires Positive(q)
    requires q != [] && Total(q) + w > limit ==> q[0].at <= cutoff
    ensures Trim(q, cutoff) != [] && Total(Trim(q, cutoff)) + w > limit ==> |Trim(q, cutoff)| < |q|
  {
    TrimKeeps(q, cutoff);
  }

  lemma CheckKeepsPositive(lim: Limits, g: Governor, t: string, now: real)
    requires Positive(g.second) && Positive(g.hourly)
    ensures var u := AfterCheck(lim, g, t, now); Positive(u.second) && Positive(u.hourly)
  {
    TrimKeeps(g.second, now - SECOND);
    TrimKeeps(g.hourly, now - HOUR);
  }

  // Rejected again after the wait: one of the two windows has lost an entry.
  lemma RejectedAgainShrinks(lim: Limits, g: Governor, t: string, now: real, later: real)
    requires Positive(g.second) && Positive(g.hourly)
    requires Decide(lim, g, t, now).Rejected? && later == now + Decide(lim, g, t, now).waitTimeSec
    requires Decide(lim, AfterCheck(lim, g, t, now), t, later).Rejected?
    ensures Queued(AfterCheck(lim, g, t, now), later) < Queued(g, now)
  {
    var wait := Decide(lim, g, t, now).waitTimeSec;
    var u := AfterCheck(lim, g, t, now);
    WaitOutlasts(lim, g, t, now);
    TrimKeeps(g.second, now - SECOND);
    TrimKeeps(g.hourly, now - HOUR);
    DecideMeans(lim, u, t, now + wait);
    HeadExpires(u.second, Weight(lim, t), lim.globalPerSecond, now + wait - SECOND);
    HeadExpires(u.hourly, Weight(lim, t), lim.hourlyLimit, now + wait - HOUR);
  }

  lemma RoundCounts(lim: Limits, g: Governor, t: string, now: real, n: nat)
    requires Decide(lim, g, t, now).Rejected?
    ensures AllowedAfter(lim, g, t, now, n + 1)
         == AllowedAfter(lim, AfterCheck(lim, g, t, now), t, now + Decide(lim, g, t, now).waitTimeSec, n)
  {
  }

  // One rejection waited out: the governor and the time of the next check.
  lemma WaitOnce(lim: Limits, g: Governor, t: string, now: real, n: nat) returns (u: Governor, later: real)
    requires Positive(g.second) && Positive(g.hourly) && Decide(lim, g, t, now).Rejected?
    ensures Positive(u.second) && Positive(u.hourly)
    ensures Decide(lim, u, t, later).Rejected? ==> Queued(u, later) < Queued(g, now)
    ensures AllowedAfter(lim, u, t, later, n) ==> AllowedAfter(lim, g, t, now, n + 1)
  {
    u, later := AfterCheck(lim, g, t, now), now + Decide(lim, g, t, now).waitTimeSec;
    CheckKeepsPositive(lim, g, t, now);
    RoundCounts(lim, g, t, now, n);
    if Decide(lim, u, t, later).Rejected? {
      RejectedAgainShrinks(lim, g, t, now, later);
    }
  }

  lemma {:induction false} WaitingEndsWithin(lim: Limits, g: Governor, t: string, now: real, k: nat)
    requires Positive(g.second) && Positive(g.hourly) && Queued(g, now) <= k
    ensures AllowedAfter(lim, g, t, now, k + 1)
    decreases k
  {
    if Decide(lim, g, t, now).Rejected? {
      var u, later := WaitOnce(lim, g, t, now, k);
      if Decide(lim, u, t, later).Rejected? {
        WaitingEndsWithin(lim, u, t, later, k - 1);
      }
    }
  }

  // Waiting as told ends in an allowed check, whatever the weights, within one round more than
  // the two windows hold entries.
  lemma WaitingEnds(lim: Limits, g: Governor, t: string, now: real)
    requires Positive(g.second) && Positive(g.hourly)
    ensures AllowedAfter(lim, g, t, now, Queued(g, now) + 1)
  {
    WaitingEndsWithin(lim, g, t, now, Queued(g, now));
  }
}
