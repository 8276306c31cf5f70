// Command handling: the write-ahead order protocol, its crash points and its rate-limit calls.

module OrderCommands {
  import opened OrderJournal
  import opened RateLimit

  datatype Kind = SendOrder | CancelOrder | NonOrder(t: string) | Refused
  datatype Command = Command(id: string, kind: Kind)

  function RateType(k: Kind): string {
    match k
    case SendOrder => "send_order"
    case CancelOrder => "cancel_order"
    case NonOrder(t) => t
    case Refused => ""
  }

  predicate IsOrder(k: Kind) {
    k.SendOrder? || k.CancelOrder?
  }

  // How Core answers the synchronous pre-ack.
  datatype DurableReply = NoCallback | CallRaises | NotMapping | Reply(accepted: bool, recorded: bool)
  datatype BrokerReply = BrokerRaises | BrokerReply(ok: bool)

  // A command that is no order raises, or returns an acknowledgement or a failure of its own.
  datatype NonOrderReply = NonOrderRaises | NonOrderReturns(ok: bool)

  // Everything the outside decides while one command is handled.
  datatype Answers = Answers(
    expired: bool,
    safe: bool,
    simulation: bool,
    checkAt: real,
    requestValid: bool,
    preAckWritable: bool,
    durable: DurableReply,
    failureWritable: bool,
    broker: BrokerReply,
    recordAt: real,
    outcomeWritable: bool,
    unconfirmedWritable: bool,
    ackCallbackOk: bool,
    nonOrder: NonOrderReply)

  // `journalOn`: a journal path is configured; `asyncOn`: events can be published at once.
  datatype Config = Config(journalOn: bool, asyncOn: bool)

  datatype OutEvent =
    | Started(id: string) | LimitedByRate(id: string) | Failed(id: string)
    | Acked(id: string) | BrokerUnconfirmed(id: string)

  datatype Effect =
    | Checked(t: string, at: real)
    | Recorded(t: string, at: real)
    | Published(e: OutEvent)
    | Journaled(row: Row)
    | AskedDurable(id: string, confirmed: bool)
    | BrokerCalled(id: string)

  predicate Confirms(d: DurableReply) {
    d.Reply? && d.accepted && d.recorded
  }

  // What handle() hands back; on an exception the runtime publishes a failure instead.
  datatype Outcome = Returned(events: seq<OutEvent>) | Raised

  function Publish(id: string, o: Outcome): seq<Effect> {
    match o
    case Raised => [Published(Failed(id))]
    case Returned(events) => PublishAll(events)
  }

  function PublishAll(events: seq<OutEvent>): seq<Effect> {
    if events == [] then [] else PublishAll(events[..|events| - 1]) + [Published(events[|events| - 1])]
  }

  // ---- one order command, stage by stage -------------------------------------------------

  datatype Stage = Stage(effects: seq<Effect>, outcome: Outcome)

  function Then(e: Effect, s: Stage): Stage {
    Stage([e] + s.effects, s.outcome)
  }

  function Unconfirm(cfg: Config, id: string, a: Answers, deferred: seq<OutEvent>): Stage {
    var done := Stage([], Returned(deferred + [BrokerUnconfirmed(id)]));
    if !cfg.journalOn then done
    else if a.unconfirmedWritable then Then(Journaled(Row(id, Unconfirmed)), done)
    else Stage([], Raised)
  }

  function Answered(cmd: Command, a: Answers, ok: bool, deferred: seq<OutEvent>): Stage {
    if ok && cmd.kind.SendOrder? && !a.ackCallbackOk then Stage([], Raised)
    else Stage([], Returned(deferred + [if ok then Acked(cmd.id) else Failed(cmd.id)]))
  }

  function AfterCall(cfg: Config, cmd: Command, a: Answers, deferred: seq<OutEvent>): Stage {
    match a.broker
    case BrokerRaises => Unconfirm(cfg, cmd.id, a, deferred)
    case BrokerReply(ok) =>
      Then(Recorded(RateType(cmd.kind), a.recordAt),
        if !cfg.journalOn then Answered(cmd, a, ok, deferred)
        else if a.outcomeWritable then
          Then(Journaled(Row(cmd.id, if ok then BrokerAccepted else BrokerRejected)),
               Answered(cmd, a, ok, deferred))
        else Unconfirm(cfg, cmd.id, a, deferred))
  }

  function AfterDurable(cfg: Config, cmd: Command, a: Answers, deferred: seq<OutEvent>): Stage {
    if Confirms(a.durable) then Then(BrokerCalled(cmd.id), AfterCall(cfg, cmd, a, deferred))
    else
      var done := Stage([], Returned(deferred + [Failed(cmd.id)]));
      if !cfg.journalOn then done
      else if a.failureWritable then Then(Journaled(Row(cmd.id, SendFailed)), done)
      else Stage([], Raised)
  }

  function AfterPreAck(cfg: Config, cmd: Command, a: Answers, deferred: seq<OutEvent>): Stage {
    if a.durable == NoCallback then AfterDurable(cfg, cmd, a, deferred)
    else Then(AskedDurable(cmd.id, Confirms(a.durable)), AfterDurable(cfg, cmd, a, deferred))
  }

  function AfterStart(cfg: Config, cmd: Command, a: Answers, deferred: seq<OutEvent>): Stage {
    if !cfg.journalOn then AfterPreAck(cfg, cmd, a, deferred)
    else if a.preAckWritable then Then(Journaled(Row(cmd.id, PreAck)), AfterPreAck(cfg, cmd, a, deferred))
    else Stage([], Raised)
  }

  // An event published at once when that is possible, else handed back first.
  function EmitBefore(cfg: Config, e: OutEvent): (seq<Effect>, seq<OutEvent>) {
    if cfg.asyncOn then ([Published(e)], []) else ([], [e])
  }

  function OrderStage(cfg: Config, cmd: Command, a: Answers, allowed: bool): Stage {
    var (now, deferred) := EmitBefore(cfg, Started(cmd.id));
    if !allowed then Stage(now, Returned(deferred + [LimitedByRate(cmd.id)]))
    else if !a.requestValid then Stage([], Raised)
    else
      var rest := AfterStart(cfg, cmd, a, deferred);
      Stage(now + rest.effects, rest.outcome)
  }

  // ---- one command ----------------------------------------------------------------------

  predicate Refuses(cmd: Command, a: Answers) {
    cmd.kind.Refused? || (IsOrder(cmd.kind) && (a.expired || !a.safe || !a.simulation))
  }

  function ReplyEvents(id: string, ok: bool): seq<OutEvent> {
    [Started(id), if ok then Acked(id) else Failed(id)]
  }

  // Whatever a handler returned is recorded against the rate, a failure too.
  function NonOrderStage(cmd: Command, a: Answers, allowed: bool): Stage {
    if !allowed then Stage([], Returned([Started(cmd.id), LimitedByRate(cmd.id)]))
    else
      match a.nonOrder
      case NonOrderRaises => Stage([], Returned([Started(cmd.id), Failed(cmd.id)]))
      case NonOrderReturns(ok) => Then(Recorded(RateType(cmd.kind), a.recordAt), Stage([], Returned(ReplyEvents(cmd.id, ok))))
  }

  function CheckedStage(cfg: Config, lim: Limits, g: Governor, cmd: Command, a: Answers): Stage {
    var t := RateType(cmd.kind);
    var allowed := Decide(lim, g, t, a.checkAt) == Allowed;
    Then(Checked(t, a.checkAt),
         if IsOrder(cmd.kind) then OrderStage(cfg, cmd, a, allowed) else NonOrderStage(cmd, a, allowed))
  }

  // One round of the runtime's command loop: handle, then publish what came back.
  function Handle(cfg: Config, lim: Limits, g: Governor, cmd: Command, a: Answers): seq<Effect> {
    if Refuses(cmd, a) then [Published(Failed(cmd.id))]
    else
      var stage := CheckedStage(cfg, lim, g, cmd, a);
      stage.effects + Publish(cmd.id, stage.outcome)
  }

  // What effects leave behind: the trace itself, the journal's rows, the governor's queues.
  datatype System = System(trace: seq<Effect>, rows: seq<Row>, g: Governor)

  function ApplyOne(lim: Limits, s: System, e: Effect): System {
    System(s.trace + [e],
           if e.Journaled? then s.rows + [e.row] else s.rows,
           match e
           case Checked(t, at) => AfterCheck(lim, s.g, t, at)
           case Recorded(t, at) => AfterRecord(lim, s.g, t, at)
           case _ => s.g)
  }

  function Apply(lim: Limits, s: System, effects: seq<Effect>): System
    decreases effects
  {
    if effects == [] then s else Apply(lim, ApplyOne(lim, s, effects[0]), effects[1..])
  }

  lemma ApplyThen(lim: Limits, s: System, e: Effect, rest: seq<Effect>)
    ensures Apply(lim, s, [e] + rest) == Apply(lim, ApplyOne(lim, s, e), rest)
  {
    assert ([e] + rest)[1..] == rest;
  }

  lemma {:induction false} ApplyConcat(lim: Limits, s: System, a: seq<Effect>, b: seq<Effect>)
    ensures Apply(lim, s, a + b) == Apply(lim, Apply(lim, s, a), b)
    decreases a
  {
    if a == [] {
      assert a + b == b;
    } else {
      assert (a + b)[1..] == a[1..] + b;
      ApplyConcat(lim, ApplyOne(lim, s, a[0]), a[1..], b);
    }
  }

  // ---- the handler object -----------------------------------------------------------------

  class KiwoomGatewayCommandHandler {
    const cfg: Config
    const governor: KiwoomRateLimitGovernor
    const journal: OrderPreAckJournal
    ghost var trace: seq<Effect>

    ghost function Model(): System
      reads this, governor, journal
    {
      System(trace, journal.rows, governor.Model())
    }

    constructor (cfg: Config, governor: KiwoomRateLimitGovernor, journal: OrderPreAckJournal)
      ensures this.cfg == cfg && this.governor == governor && this.journal == journal && trace == []
    {
      this.cfg, this.governor, this.journal := cfg, governor, journal;
      trace := [];
    }

    method HandleCommand(cmd: Command, a: Answers)
      modifies this, governor, journal
      ensures Model() == Apply(governor.limits, old(Model()),
                               Handle(cfg, governor.limits, old(governor.Model()), cmd, a))
    {
      ghost var lim, before := governor.limits, Model();
      if Refuses(cmd, a) {
        trace := trace + [Published(Failed(cmd.id))];
        ApplyThen(lim, before, Published(Failed(cmd.id)), []);
        return;
      }
      ghost var stage := CheckedStage(cfg, lim, before.g, cmd, a);
      var outcome := HandleChecked(cmd, a);
      PublishBack(cmd.id, outcome);
      ApplyConcat(lim, before, stage.effects, Publish(cmd.id, stage.outcome));
    }

    method HandleChecked(cmd: Command, a: Answers) returns (outcome: Outcome)
      modifies this, governor, journal
      ensures var s := CheckedStage(cfg, governor.limits, old(governor.Model()), cmd, a);
              Model() == Apply(governor.limits, old(Model()), s.effects) && outcome == s.outcome
    {
      ghost var lim, before := governor.limits, Model();
      var t := RateType(cmd.kind);
      var d := governor.Check(t, a.checkAt);
      trace := trace + [Checked(t, a.checkAt)];
      ghost var checked := Model();
      assert checked == ApplyOne(lim, before, Checked(t, a.checkAt));
      if IsOrder(cmd.kind) {
        outcome := HandleOrder(cmd, a, d == Allowed);
        ApplyThen(lim, before, Checked(t, a.checkAt), OrderStage(cfg, cmd, a, d == Allowed).effects);
      } else {
        outcome := HandleNonOrder(cmd, a, d == Allowed);
        ApplyThen(lim, before, Checked(t, a.checkAt), NonOrderStage(cmd, a, d == Allowed).effects);
      }
    }

    // Publishing touches nothing but the event queue.
    method PublishBack(id: string, outcome: Outcome)
      modifies this
      ensures Model() == Apply(governor.limits, old(Model()), Publish(id, outcome))
    {
      match outcome {
        case Raised =>
          trace := trace + [Published(Failed(id))];
          ApplyThen(governor.limits, old(Model()), Published(Failed(id)), []);
        case Returned(events) =>
          for i := 0 to |events|
            invariant Model() == Apply(governor.limits, old(Model()), PublishAll(events[..i]))
          {
            ghost var e := Published(events[i]);
            assert events[..i + 1][..i] == events[..i];
            ApplyConcat(governor.limits, old(Model()), PublishAll(events[..i]), [e]);
            ApplyThen(governor.limits, Model(), e, []);
            trace := trace + [e];
          }
          assert events[..|events|] == events;
      }
    }

    method HandleNonOrder(cmd: Command, a: Answers, allowed: bool) returns (outcome: Outcome)
      modifies this, governor
      ensures var s := NonOrderStage(cmd, a, allowed);
              Model() == Apply(governor.limits, old(Model()), s.effects) && outcome == s.outcome
    {
      if !allowed {
        return Returned([Started(cmd.id), LimitedByRate(cmd.id)]);
      }
      if a.nonOrder.NonOrderRaises? {
        return Returned([Started(cmd.id), Failed(cmd.id)]);
      }
      RecordCall(cmd, a);
      ApplyThen(governor.limits, old(Model()), Recorded(RateType(cmd.kind), a.recordAt), []);
      return Returned(ReplyEvents(cmd.id, a.nonOrder.ok));
    }

    method RecordCall(cmd: Command, a: Answers)
      modifies this, governor
      ensures Model() == ApplyOne(governor.limits, old(Model()), Recorded(RateType(cmd.kind), a.recordAt))
    {
      governor.Record(RateType(cmd.kind), a.recordAt);
      trace := trace + [Recorded(RateType(cmd.kind), a.recordAt)];
    }

    method Journal(row: Row, writable: bool) returns (written: bool)
      modifies this, journal
      ensures written == writable
      ensures Model() == if written then ApplyOne(governor.limits, old(Model()), Journaled(row)) else old(Model())
    {
      written := journal.Append(row, writable);
      if written {
        trace := trace + [Journaled(row)];
      }
    }

    // The send and cancel paths after the rate check.
    method HandleOrder(cmd: Command, a: Answers, allowed: bool) returns (outcome: Outcome)
      modifies this, governor, journal
      ensures var s := OrderStage(cfg, cmd, a, allowed);
              Model() == Apply(governor.limits, old(Model()), s.effects) && outcome == s.outcome
    {
      if allowed && !a.requestValid {
        return Raised;
      }
      var deferred: seq<OutEvent> := [];
      if cfg.asyncOn {
        trace := trace + [Published(Started(cmd.id))];
        ApplyThen(governor.limits, old(Model()), Published(Started(cmd.id)),
                  if allowed then AfterStart(cfg, cmd, a, []).effects else []);
      } else {
        deferred := [Started(cmd.id)];
        assert [] + AfterStart(cfg, cmd, a, deferred).effects == AfterStart(cfg, cmd, a, deferred).effects;
      }
      if !allowed {
        return Returned(deferred + [LimitedByRate(cmd.id)]);
      }
      outcome := SubmitOrder(cmd, a, deferred);
    }

    method SubmitOrder(cmd: Command, a: Answers, deferred: seq<OutEvent>) returns (outcome: Outcome)
      modifies this, governor, journal
      ensures var s := AfterStart(cfg, cmd, a, deferred);
              Model() == Apply(governor.limits, old(Model()), s.effects) && outcome == s.outcome
    {
      if cfg.journalOn {
        var written := Journal(Row(cmd.id, PreAck), a.preAckWritable);
        if !written {
          return Raised;
        }
        ApplyThen(governor.limits, old(Model()), Journaled(Row(cmd.id, PreAck)),
                  AfterPreAck(cfg, cmd, a, deferred).effects);
      }
      outcome := AskCore(cmd, a, deferred);
    }

    method AskCore(cmd: Command, a: Answers, deferred: seq<OutEvent>) returns (outcome: Outcome)
      modifies this, governor, journal
      ensures var s := AfterPreAck(cfg, cmd, a, deferred);
              Model() == Apply(governor.limits, old(Model()), s.effects) && outcome == s.outcome
    {
      if !a.durable.NoCallback? {
        trace := trace + [AskedDurable(cmd.id, Confirms(a.durable))];
        ApplyThen(governor.limits, old(Model()), AskedDurable(cmd.id, Confirms(a.durable)),
                  AfterDurable(cfg, cmd, a, deferred).effects);
      }
      if Confirms(a.durable) {
        outcome := CallBroker(cmd, a, deferred);
      } else {
        outcome := MarkFailed(cmd, a, deferred);
      }
    }

    method MarkFailed(cmd: Command, a: Answers, deferred: seq<OutEvent>) returns (outcome: Outcome)
      requires !Confirms(a.durable)
      modifies this, journal
      ensures var s := AfterDurable(cfg, cmd, a, deferred);
              Model() == Apply(governor.limits, old(Model()), s.effects) && outcome == s.outcome
    {
      if cfg.journalOn {
        var written := Journal(Row(cmd.id, SendFailed), a.failureWritable);
        if !written {
          return Raised;
        }
        ApplyThen(governor.limits, old(Model()), Journaled(Row(cmd.id, SendFailed)), []);
      }
      return Returned(deferred + [Failed(cmd.id)]);
    }

    method CallBroker(cmd: Command, a: Answers, deferred: seq<OutEvent>) returns (outcome: Outcome)
      requires Confirms(a.durable)
      modifies this, governor, journal
      ensures var s := AfterDurable(cfg, cmd, a, deferred);
              Model() == Apply(governor.limits, old(Model()), s.effects) && outcome == s.outcome
    {
      trace := trace + [BrokerCalled(cmd.id)];
      ApplyThen(governor.limits, old(Model()), BrokerCalled(cmd.id), AfterCall(cfg, cmd, a, deferred).effects);
      if a.broker.BrokerRaises? {
        outcome := MarkUnconfirmed(cmd, a, deferred);
      } else {
        outcome := RecordResult(cmd, a, deferred);
      }
    }

    method RecordResult(cmd: Command, a: Answers, deferred: seq<OutEvent>) returns (outcome: Outcome)
      requires a.broker.BrokerReply?
      modifies this, governor, journal
      ensures var s := AfterCall(cfg, cmd, a, deferred);
              Model() == Apply(governor.limits, old(Model()), s.effects) && outcome == s.outcome
    {
      ghost var lim, recorded := governor.limits, Recorded(RateType(cmd.kind), a.recordAt);
      var ok := a.broker.ok;
      var row := Row(cmd.id, if ok then BrokerAccepted else BrokerRejected);
      RecordCall(cmd, a);
      ghost var mid := Model();
      ghost var full := AfterCall(cfg, cmd, a, deferred);
      assert full.effects[0] == recorded && full.effects == [recorded] + full.effects[1..];
      ApplyThen(lim, old(Model()), recorded, full.effects[1..]);
      if cfg.journalOn {
        var written := Journal(row, a.outcomeWritable);
        if !written {
          outcome := MarkUnconfirmed(cmd, a, deferred);
          return;
        }
        ApplyThen(lim, mid, Journaled(row), []);
      }
      if ok && cmd.kind.SendOrder? && !a.ackCallbackOk {
        return Raised;
      }
      return Returned(deferred + [if ok then Acked(cmd.id) else Failed(cmd.id)]);
    }

    method MarkUnconfirmed(cmd: Command, a: Answers, deferred: seq<OutEvent>) returns (outcome: Outcome)
      modifies this, journal
      ensures var s := Unconfirm(cfg, cmd.id, a, deferred);
              Model() == Apply(governor.limits, old(Model()), s.effects) && outcome == s.outcome
    {
      if cfg.journalOn {
        var written := Journal(Row(cmd.id, Unconfirmed), a.unconfirmedWritable);
        if !written {
          return Raised;
        }
        ApplyThen(governor.limits, old(Model()), Journaled(Row(cmd.id, Unconfirmed)), []);
      }
      return Returned(deferred + [BrokerUnconfirmed(cmd.id)]);
    }
  }
}
