// What a check answers, told from the whole call history instead of the trimmed queues.

module RateDecisions {
  import opened SlidingWindows
  import opened RateLimit

  // ---- what the governor remembers of the history ----------------------------------------------

  ghost predicate CalledAt(calls: seq<Call>, t: string, at: real) {
    exists i :: 0 <= i < |calls| && calls[i].t == t && calls[i].at == at
  }

  ghost predicate LastIsCall(calls: seq<Call>, last: map<string, real>) {
    forall t :: t in last ==> CalledAt(calls, t, last[t])
  }

  // The governor remembers the history as far as a decision needs it.
  ghost predicate Faithful(r: Run) {
    (exists cut :: Remembers(r, cut)) && LastIsCall(r.calls, r.g.lastCallAt)
  }

  lemma CallsGrow(calls: seq<Call>, last: map<string, real>, c: Call)
    requires LastIsCall(calls, last)
    ensures LastIsCall(calls + [c], last[c.t := c.at])
  {
    var longer, later := calls + [c], last[c.t := c.at];
    forall t | t in later ensures CalledAt(longer, t, later[t]) {
      if t == c.t {
        assert longer[|calls|] == c;
      } else {
        var i :| 0 <= i < |calls| && calls[i].t == t && calls[i].at == last[t];
        assert longer[i] == calls[i];
      }
    }
  }

  lemma QueueGrows(h: seq<Entry>, q: seq<Entry>, from: real, e: Entry, width: real)
    requires Positive(h) && q == Trim(h, from) && from <= e.at - width && width > 0.0
    ensures Trim(q, e.at - width) + [e] == Trim(h + [e], e.at - width)
  {
    TrimForward(h, q, from, e.at - width);
    TrimAppend(h, e, e.at - width);
  }

  lemma RecordQueues(lim: Limits, r: Run, cut: real, t: string, now: real)
    requires Remembers(r, cut) && r.clock <= now && Weight(lim, t) > 0.0
    ensures var n := Next(lim, r, Record(t, now)); QueuesTrim(Entries(n.calls), n.g, now)
  {
    var h, e := Entries(r.calls), Entry(now, Weight(lim, t));
    EntriesAppend(r.calls, Call(t, now, Weight(lim, t)));
    QueueGrows(h, r.g.second, cut - SECOND, e, SECOND);
    QueueGrows(h, r.g.hourly, cut - HOUR, e, HOUR);
  }

  lemma RecordRemembered(lim: Limits, r: Run, cut: real, t: string, now: real)
    requires Remembers(r, cut) && r.clock <= now && Weight(lim, t) > 0.0
    ensures Remembers(Next(lim, r, Record(t, now)), now)
  {
    RecordQueues(lim, r, cut, t, now);
    CallAppended(r.calls, r.g.lastCallAt, r.clock, Call(t, now, Weight(lim, t)));
  }

  lemma RecordFaithful(lim: Limits, r: Run, t: string, now: real)
    requires Faithful(r) && r.clock <= now && Weight(lim, t) > 0.0
    ensures Faithful(Next(lim, r, Record(t, now)))
  {
    var cut :| Remembers(r, cut);
    RecordRemembered(lim, r, cut, t, now);
    CallsGrow(r.calls, r.g.lastCallAt, Call(t, now, Weight(lim, t)));
  }

  lemma StepFaithful(lim: Limits, r: Run, op: Op)
    requires Faithful(r) && r.clock <= op.now
    ensures Faithful(Next(lim, r, op))
  {
    var cut :| Remembers(r, cut);
    match op {
      case Check(t, now) => var c := CheckRemembers(lim, r, cut, t, now);
      case Record(t, now) =>
        if Weight(lim, t) > 0.0 {
          RecordFaithful(lim, r, t, now);
        } else {
          ClockMoves(r.calls, r.g.lastCallAt, r.clock, now);
          assert Remembers(Next(lim, r, op), cut);
        }
    }
  }

  lemma {:induction false} RunFaithful(lim: Limits, r: Run, ops: seq<Op>)
    requires Faithful(r) && Admissible(lim, r, ops)
    ensures Faithful(Execute(lim, r, ops))
    decreases ops
  {
    if ops != [] {
      StepFaithful(lim, r, ops[0]);
      RunFaithful(lim, Next(lim, r, ops[0]), ops[1..]);
    }
  }

  // ---- what each rule asks for -----------------------------------------------------------------

  // A window asks to wait for its first entry to leave when it is not empty and the call does not fit.
  ghost predicate WindowAsks(h: seq<Entry>, weight: real, limit: real, width: real, now: real, wait: real) {
    var recent := Within(h, now - width, width);
    recent != [] && Total(recent) + weight > limit && wait == recent[0].at + width - now
  }

  // The interval asks to wait since the type's last call.
  ghost predicate IntervalAsks(lim: Limits, calls: seq<Call>, t: string, now: real, wait: real) {
    exists i :: && 0 <= i < |calls| && calls[i].t == t && wait == Interval(lim, t) - (now - calls[i].at)
                && forall j :: 0 <= j < |calls| && calls[j].t == t ==> calls[j].at <= calls[i].at
  }

  ghost predicate Asks(lim: Limits, calls: seq<Call>, t: string, now: real, reason: Reason, wait: real) {
    && wait > 0.0
    && match reason
       case TypeMinInterval => IntervalAsks(lim, calls, t, now, wait)
       case GlobalPerSecond => WindowAsks(Entries(calls), Weight(lim, t), lim.globalPerSecond, 1.0, now, wait)
       case HourlyRollingLimit => WindowAsks(Entries(calls), Weight(lim, t), lim.hourlyLimit, 3600.0, now, wait)
  }

  function Told(wait: real): real {
    if wait < 0.001 then 0.001 else wait
  }

  function Place(reason: Reason): nat {
    match reason
    case TypeMinInterval => 0
    case GlobalPerSecond => 1
    case HourlyRollingLimit => 2
  }

  // The rule that asks for the longest wait, the first one on a tie; no wait is below a millisecond.
  ghost predicate Decides(lim: Limits, calls: seq<Call>, t: string, now: real, d: Decision) {
    match d
    case Allowed => forall reason, wait :: !Asks(lim, calls, t, now, reason, wait)
    case Rejected(told, reason) =>
      exists wait ::
        && Asks(lim, calls, t, now, reason, wait) && told == Told(wait)
        && forall other, longer :: Asks(lim, calls, t, now, other, longer) ==>
             if Place(other) < Place(reason) then Told(longer) < told else Told(longer) <= told
  }

  lemma WindowWaitIs(h: seq<Entry>, q: seq<Entry>, from: real, w: real, limit: real, width: real, now: real)
    requires Ordered(h) && NoLaterThan(h, now) && Positive(h) && q == Trim(h, from) && from <= now - width
    ensures var wait := WindowWait(Trim(q, now - width), w, limit, width, now);
            forall x :: x > 0.0 ==> (WindowAsks(h, w, limit, width, now, x) <==> x == wait)
  {
    TrimForward(h, q, from, now - width);
    TrimIsWithin(h, now, width);
  }

  lemma IntervalWaitIs(lim: Limits, r: Run, t: string, now: real)
    requires Faithful(r) && r.clock <= now
    ensures var wait := IntervalWait(lim, Trimmed(r.g, now), t, now);
            forall x :: x > 0.0 ==> (IntervalAsks(lim, r.calls, t, now, x) <==> x == wait)
  {
    var cut :| Remembers(r, cut);
    var last := r.g.lastCallAt;
    if t in last {
      var k :| 0 <= k < |r.calls| && r.calls[k].t == t && r.calls[k].at == last[t];
      forall x | x == Interval(lim, t) - (now - last[t]) ensures IntervalAsks(lim, r.calls, t, now, x) {
      }
    }
  }

  // Three rules, each with one wait or none: the longest told wait, the first on a tie.
  lemma LongestOfThree(a: real, b: real, c: real, d: Decision)
    requires d == Longer(Longer(Blocked(a, TypeMinInterval), Blocked(b, GlobalPerSecond)), Blocked(c, HourlyRollingLimit))
    ensures d == Allowed <==> a <= 0.0 && b <= 0.0 && c <= 0.0
    ensures d.Rejected? ==>
              var x := match d.reason case TypeMinInterval => a case GlobalPerSecond => b case HourlyRollingLimit => c;
              && x > 0.0 && d.waitTimeSec == Told(x)
              && (a > 0.0 ==> if 0 < Place(d.reason) then Told(a) < Told(x) else Told(a) <= Told(x))
              && (b > 0.0 ==> if 1 < Place(d.reason) then Told(b) < Told(x) else Told(b) <= Told(x))
              && (c > 0.0 ==> Told(c) <= Told(x))
  {
  }

  lemma DecidesFrom(lim: Limits, calls: seq<Call>, t: string, now: real, a: real, b: real, c: real, d: Decision)
    requires d == Longer(Longer(Blocked(a, TypeMinInterval), Blocked(b, GlobalPerSecond)), Blocked(c, HourlyRollingLimit))
    requires forall x :: Asks(lim, calls, t, now, TypeMinInterval, x) <==> x > 0.0 && x == a
    requires forall x :: Asks(lim, calls, t, now, GlobalPerSecond, x) <==> x > 0.0 && x == b
    requires forall x :: Asks(lim, calls, t, now, HourlyRollingLimit, x) <==> x > 0.0 && x == c
    ensures Decides(lim, calls, t, now, d)
  {
    LongestOfThree(a, b, c, d);
    if d.Rejected? {
      var x := match d.reason case TypeMinInterval => a case GlobalPerSecond => b case HourlyRollingLimit => c;
      assert Asks(lim, calls, t, now, d.reason, x);
    }
  }

  lemma SecondAsks(lim: Limits, r: Run, t: string, now: real) returns (wait: real)
    requires Faithful(r) && r.clock <= now
    ensures wait == WindowWait(Trimmed(r.g, now).second, Weight(lim, t), lim.globalPerSecond, SECOND, now)
    ensures forall x :: Asks(lim, r.calls, t, now, GlobalPerSecond, x) <==> x > 0.0 && x == wait
  {
    var cut :| Remembers(r, cut);
    wait := WindowWait(Trimmed(r.g, now).second, Weight(lim, t), lim.globalPerSecond, SECOND, now);
    WindowWaitIs(Entries(r.calls), r.g.second, cut - SECOND, Weight(lim, t), lim.globalPerSecond, SECOND, now);
  }

  lemma HourAsks(lim: Limits, r: Run, t: string, now: real) returns (wait: real)
    requires Faithful(r) && r.clock <= now
    ensures wait == WindowWait(Trimmed(r.g, now).hourly, Weight(lim, t), lim.hourlyLimit, HOUR, now)
    ensures forall x :: Asks(lim, r.calls, t, now, HourlyRollingLimit, x) <==> x > 0.0 && x == wait
  {
    var cut :| Remembers(r, cut);
    wait := WindowWait(Trimmed(r.g, now).hourly, Weight(lim, t), lim.hourlyLimit, HOUR, now);
    WindowWaitIs(Entries(r.calls), r.g.hourly, cut - HOUR, Weight(lim, t), lim.hourlyLimit, HOUR, now);
  }

  lemma TypeAsks(lim: Limits, r: Run, t: string, now: real) returns (wait: real)
    requires Faithful(r) && r.clock <= now
    ensures wait == IntervalWait(lim, Trimmed(r.g, now), t, now)
    ensures forall x :: Asks(lim, r.calls, t, now, TypeMinInterval, x) <==> x > 0.0 && x == wait
  {
    wait := IntervalWait(lim, Trimmed(r.g, now), t, now);
    IntervalWaitIs(lim, r, t, now);
  }

  lemma DecidesByHistory(lim: Limits, r: Run, t: string, now: real)
    requires Faithful(r) && r.clock <= now && Weight(lim, t) > 0.0
    ensures Decides(lim, r.calls, t, now, Decide(lim, r.g, t, now))
  {
    var a := TypeAsks(lim, r, t, now);
    var b := SecondAsks(lim, r, t, now);
    var c := HourAsks(lim, r, t, now);
    DecidesFrom(lim, r.calls, t, now, a, b, c, Decide(lim, r.g, t, now));
  }

  // In every run a check answers by the whole history: it is allowed exactly when no rule asks to
  // wait, and a rejection tells the longest wait asked for and the rule that asked.
  lemma RunDecides(lim: Limits, clock: real, ops: seq<Op>, t: string, now: real)
    requires Admissible(lim, Fresh(clock), ops) && Execute(lim, Fresh(clock), ops).clock <= now
    ensures var r := Execute(lim, Fresh(clock), ops);
            if Weight(lim, t) > 0.0 then Decides(lim, r.calls, t, now, Decide(lim, r.g, t, now))
            else Decide(lim, r.g, t, now) == Allowed
  {
    assert Remembers(Fresh(clock), clock);
    RunFaithful(lim, Fresh(clock), ops);
    if Weight(lim, t) > 0.0 {
      DecidesByHistory(lim, Execute(lim, Fresh(clock), ops), t, now);
    }
  }

  // The weights and intervals of a governor: those given, never below zero, over the defaults.
  lemma WeightGivenOrDefault(lim: Limits, given: map<string, real>, t: string)
    requires lim.typeWeights == DEFAULT_WEIGHTS + given
    ensures t in given ==> Weight(lim, t) == if given[t] < 0.0 then 0.0 else given[t]
    ensures t !in given ==>
              Weight(lim, t) == if t == "heartbeat_request" then 0.0 else if t == "broker_snapshot_request" then 3.0 else 1.0
  {
  }

  lemma IntervalGivenOrDefault(lim: Limits, given: map<string, real>, t: string)
    requires lim.minInterval == DEFAULT_INTERVALS + given
    ensures t in given ==> Interval(lim, t) == if given[t] < 0.0 then 0.0 else given[t]
    ensures t !in given ==>
              Interval(lim, t)
              == if t in {"request_tr", "broker_snapshot_request", "load_conditions"} then 1.0
                 else if t in {"send_condition", "send_order", "cancel_order"} then 0.2
                 else 0.0
  {
  }

  // With the default weights the bound holds in every run.
  lemma DefaultsFit(lim: Limits)
    requires lim.typeWeights == DEFAULT_WEIGHTS && lim.globalPerSecond >= 3.0 && lim.hourlyLimit >= 3.0
    ensures AlwaysBounded(lim)
  {
    forall t ensures Weight(lim, t) <= 3.0 {
      WeightGivenOrDefault(lim, map[], t);
    }
    BoundedIffWeightsFit(lim);
  }
}
