// The handler uses the governor the way the rate bound needs: every record follows an allowed
// check of the same type with no record between.

module OrderRates {
  import opened SlidingWindows
  import opened RateLimit
  import opened OrderJournal
  import opened OrderCommands
  import opened OrderProtocol

  function OpOf(e: Effect): seq<Op> {
    match e
    case Checked(t, at) => [Check(t, at)]
    case Recorded(t, at) => [Record(t, at)]
    case _ => []
  }

  function Ops(effects: seq<Effect>): seq<Op> {
    if effects == [] then [] else OpOf(effects[0]) + Ops(effects[1..])
  }

  lemma {:induction false} OpsConcat(a: seq<Effect>, b: seq<Effect>)
    ensures Ops(a + b) == Ops(a) + Ops(b)
  {
    if a == [] {
      assert a + b == b;
    } else {
      assert (a + b)[1..] == a[1..] + b;
      OpsConcat(a[1..], b);
    }
  }

  lemma OpsThen(e: Effect, rest: seq<Effect>)
    ensures Ops([e] + rest) == OpOf(e) + Ops(rest)
  {
    assert ([e] + rest)[1..] == rest;
  }

  lemma {:induction false} PublishingHasNoOps(id: string, o: Outcome)
    ensures Ops(Publish(id, o)) == []
  {
    match o {
      case Raised => OpsThen(Published(Failed(id)), []);
      case Returned(events) => PublishAllHasNoOps(events);
    }
  }

  lemma {:induction false} PublishAllHasNoOps(events: seq<OutEvent>)
    ensures Ops(PublishAll(events)) == []
  {
    if events != [] {
      var front, e := events[..|events| - 1], Published(events[|events| - 1]);
      PublishAllHasNoOps(front);
      OpsConcat(PublishAll(front), [e]);
      OpsThen(e, []);
    }
  }

  // The recorded calls of a stage: none, or one of the command's own type.
  predicate RecordsCall(cfg: Config, cmd: Command, a: Answers, allowed: bool) {
    && allowed
    && (if IsOrder(cmd.kind) then
          && a.requestValid && (cfg.journalOn ==> a.preAckWritable)
          && Confirms(a.durable) && a.broker.BrokerReply?
        else a.nonOrder.NonOrderReturns?)
  }

  function RecordOps(cmd: Command, a: Answers): seq<Op> {
    [Record(RateType(cmd.kind), a.recordAt)]
  }

  lemma CallOps(cfg: Config, cmd: Command, a: Answers, deferred: seq<OutEvent>)
    ensures Ops(AfterCall(cfg, cmd, a, deferred).effects) == if a.broker.BrokerReply? then RecordOps(cmd, a) else []
  {
    var effects := AfterCall(cfg, cmd, a, deferred).effects;
    if a.broker.BrokerReply? {
      OpsThen(effects[0], effects[1..]);
      assert effects == [effects[0]] + effects[1..];
    }
  }

  lemma StartOps(cfg: Config, cmd: Command, a: Answers, deferred: seq<OutEvent>)
    ensures Ops(AfterStart(cfg, cmd, a, deferred).effects)
         == if (cfg.journalOn ==> a.preAckWritable) && Confirms(a.durable) && a.broker.BrokerReply?
            then RecordOps(cmd, a) else []
  {
    CallOps(cfg, cmd, a, deferred);
    var called := AfterCall(cfg, cmd, a, deferred).effects;
    var durable := AfterDurable(cfg, cmd, a, deferred).effects;
    var asked := AfterPreAck(cfg, cmd, a, deferred).effects;
    OpsThen(BrokerCalled(cmd.id), called);
    OpsThen(AskedDurable(cmd.id, Confirms(a.durable)), durable);
    OpsThen(Journaled(Row(cmd.id, PreAck)), asked);
  }

  lemma StageOps(cfg: Config, cmd: Command, a: Answers, allowed: bool)
    ensures var s := if IsOrder(cmd.kind) then OrderStage(cfg, cmd, a, allowed) else NonOrderStage(cmd, a, allowed);
            Ops(s.effects) == if RecordsCall(cfg, cmd, a, allowed) then RecordOps(cmd, a) else []
  {
    if IsOrder(cmd.kind) {
      var (now, deferred) := EmitBefore(cfg, Started(cmd.id));
      StartOps(cfg, cmd, a, deferred);
      OpsConcat(now, AfterStart(cfg, cmd, a, deferred).effects);
      assert Ops(now) == [];
    } else {
      OpsThen(Recorded(RateType(cmd.kind), a.recordAt), []);
    }
  }

  lemma HandleOps(cfg: Config, lim: Limits, g: Governor, cmd: Command, a: Answers)
    ensures var t := RateType(cmd.kind);
            var allowed := Decide(lim, g, t, a.checkAt) == Allowed;
            Ops(Handle(cfg, lim, g, cmd, a))
              == if Refuses(cmd, a) then []
                 else [Check(t, a.checkAt)] + if RecordsCall(cfg, cmd, a, allowed) then RecordOps(cmd, a) else []
  {
    if Refuses(cmd, a) {
      OpsThen(Published(Failed(cmd.id)), []);
    } else {
      var t := RateType(cmd.kind);
      var allowed := Decide(lim, g, t, a.checkAt) == Allowed;
      var stage := CheckedStage(cfg, lim, g, cmd, a);
      StageOps(cfg, cmd, a, allowed);
      OpsThen(Checked(t, a.checkAt),
              if IsOrder(cmd.kind) then OrderStage(cfg, cmd, a, allowed).effects else NonOrderStage(cmd, a, allowed).effects);
      PublishingHasNoOps(cmd.id, stage.outcome);
      OpsConcat(stage.effects, Publish(cmd.id, stage.outcome));
    }
  }

  // The clock does not run back within or between commands.
  predicate Timely(rounds: seq<Round>, clock: real)
    decreases rounds
  {
    rounds == []
    || (clock <= rounds[0].a.checkAt <= rounds[0].a.recordAt && Timely(rounds[1..], rounds[0].a.recordAt))
  }

  lemma {:induction false} ApplyGovernor(lim: Limits, s: System, effects: seq<Effect>, r: RateLimit.Run)
    requires r.g == s.g
    ensures RateLimit.Execute(lim, r, Ops(effects)).g == Apply(lim, s, effects).g
    decreases effects
  {
    if effects != [] {
      var e := effects[0];
      var n := ApplyOne(lim, s, e);
      if OpOf(e) == [] {
        assert Ops(effects) == Ops(effects[1..]);
        ApplyGovernor(lim, n, effects[1..], r);
      } else {
        var op := OpOf(e)[0];
        assert Ops(effects)[0] == op && Ops(effects)[1..] == Ops(effects[1..]);
        ApplyGovernor(lim, n, effects[1..], RateLimit.Next(lim, r, op));
      }
    }
  }

  lemma {:induction false} AdmissibleConcat(lim: Limits, r: RateLimit.Run, a: seq<Op>, b: seq<Op>)
    requires RateLimit.Admissible(lim, r, a)
    requires RateLimit.Admissible(lim, RateLimit.Execute(lim, r, a), b)
    ensures RateLimit.Admissible(lim, r, a + b)
    ensures RateLimit.Execute(lim, r, a + b) == RateLimit.Execute(lim, RateLimit.Execute(lim, r, a), b)
    decreases a
  {
    if a == [] {
      assert a + b == b;
    } else {
      assert (a + b)[1..] == a[1..] + b;
      AdmissibleConcat(lim, RateLimit.Next(lim, r, a[0]), a[1..], b);
    }
  }

  // The operations of one command: none, a check, or a granted check and the call's record.
  lemma ShapeAdmissible(lim: Limits, r: RateLimit.Run, t: string, a: Answers, ops: seq<Op>)
    requires r.clock <= a.checkAt <= a.recordAt
    requires || ops == []
             || ops == [Check(t, a.checkAt)]
             || (Decide(lim, r.g, t, a.checkAt) == Allowed && ops == [Check(t, a.checkAt), Record(t, a.recordAt)])
    ensures RateLimit.Admissible(lim, r, ops) && RateLimit.Execute(lim, r, ops).clock <= a.recordAt
  {
    if |ops| == 1 {
      assert ops[1..] == [];
    } else if |ops| == 2 {
      TwoOps(lim, r, ops[0], ops[1]);
    }
  }

  lemma RoundAdmissible(cfg: Config, lim: Limits, r: RateLimit.Run, cmd: Command, a: Answers)
    requires r.clock <= a.checkAt <= a.recordAt
    ensures var ops := Ops(Handle(cfg, lim, r.g, cmd, a));
            RateLimit.Admissible(lim, r, ops) && RateLimit.Execute(lim, r, ops).clock <= a.recordAt
  {
    HandleOps(cfg, lim, r.g, cmd, a);
    ShapeAdmissible(lim, r, RateType(cmd.kind), a, Ops(Handle(cfg, lim, r.g, cmd, a)));
  }

  lemma TwoOps(lim: Limits, r: RateLimit.Run, x: Op, y: Op)
    requires RateLimit.Enabled(r, x) && RateLimit.Enabled(RateLimit.Next(lim, r, x), y)
    ensures RateLimit.Admissible(lim, r, [x, y])
    ensures RateLimit.Execute(lim, r, [x, y]) == RateLimit.Next(lim, RateLimit.Next(lim, r, x), y)
  {
    var n := RateLimit.Next(lim, r, x);
    assert [x, y][1..] == [y] && [y][1..] == [];
    assert RateLimit.Admissible(lim, n, [y]);
    assert RateLimit.Execute(lim, n, [y]) == RateLimit.Next(lim, n, y);
  }

  // The effects a run adds.
  function Added(cfg: Config, lim: Limits, s: System, rounds: seq<Round>): seq<Effect>
    decreases rounds
  {
    if rounds == [] then []
    else
      var effects := Handle(cfg, lim, s.g, rounds[0].cmd, rounds[0].a);
      effects + Added(cfg, lim, Apply(lim, s, effects), rounds[1..])
  }

  lemma Regroup(a: seq<Effect>, b: seq<Effect>, c: seq<Effect>)
    ensures a + b + c == a + (b + c)
  {
  }

  lemma {:induction false} AddedToTrace(cfg: Config, lim: Limits, s: System, rounds: seq<Round>)
    ensures RunAll(cfg, lim, s, rounds).trace == s.trace + Added(cfg, lim, s, rounds)
    decreases rounds
  {
    if rounds != [] {
      var effects := Handle(cfg, lim, s.g, rounds[0].cmd, rounds[0].a);
      var n := Apply(lim, s, effects);
      ApplyFacts(lim, s, effects);
      AddedToTrace(cfg, lim, n, rounds[1..]);
      Regroup(s.trace, effects, Added(cfg, lim, n, rounds[1..]));
    }
  }

  lemma {:induction false} RunAdmissible(cfg: Config, lim: Limits, s: System, r: RateLimit.Run, rounds: seq<Round>, clock: real)
    requires Timely(rounds, clock) && r.g == s.g && r.clock <= clock
    ensures RateLimit.Admissible(lim, r, Ops(Added(cfg, lim, s, rounds)))
    decreases rounds
  {
    if rounds != [] {
      var a := rounds[0].a;
      var effects := Handle(cfg, lim, s.g, rounds[0].cmd, a);
      var n := Apply(lim, s, effects);
      var u := RateLimit.Execute(lim, r, Ops(effects));
      RoundAdmissible(cfg, lim, r, rounds[0].cmd, a);
      ApplyGovernor(lim, s, effects, r);
      RunAdmissible(cfg, lim, n, u, rounds[1..], a.recordAt);
      var later := Added(cfg, lim, n, rounds[1..]);
      OpsConcat(effects, later);
      AdmissibleConcat(lim, r, Ops(effects), Ops(later));
    }
  }

  // Over every run of the handler, the recorded calls keep every second and every hour within
  // its limit and calls of one type their interval apart.
  lemma HandlerKeepsRates(cfg: Config, lim: Limits, rounds: seq<Round>, clock: real)
    requires WeightsFit(lim) && Timely(rounds, clock)
    ensures var ops := Ops(RunAll(cfg, lim, Idle(), rounds).trace);
            var calls := RateLimit.Execute(lim, Fresh(clock), ops).calls;
            RateBounded(lim, calls) && Spaced(lim, calls)
  {
    RunAdmissible(cfg, lim, Idle(), Fresh(clock), rounds, clock);
    AddedToTrace(cfg, lim, Idle(), rounds);
    assert RunAll(cfg, lim, Idle(), rounds).trace == Added(cfg, lim, Idle(), rounds);
    HistoryBounded(lim, clock, Ops(Added(cfg, lim, Idle(), rounds)));
  }
}
