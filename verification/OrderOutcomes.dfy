// What one handled command does, effect by effect, told from the answers it gets alone; and what a
// published acknowledgement says about the journal in every run.

module OrderOutcomes {
  import opened OrderJournal
  import opened RateLimit
  import opened OrderCommands
  import opened OrderProtocol

  // ---- the answers that decide ---------------------------------------------------------------

  // The broker answered, and the answer is on record where there is a journal.
  predicate Answering(cfg: Config, a: Answers, allowed: bool, ok: bool) {
    Called(cfg, a, allowed) && a.broker == BrokerReply(ok) && (cfg.journalOn ==> a.outcomeWritable)
  }

  // The broker was called and no answer of it is on record.
  predicate InDoubt(cfg: Config, a: Answers, allowed: bool) {
    Called(cfg, a, allowed) && (a.broker == BrokerRaises || (cfg.journalOn && !a.outcomeWritable))
  }

  predicate AckRaises(cmd: Command, a: Answers) {
    cmd.kind == SendOrder && !a.ackCallbackOk
  }

  // An exception leaves the handler, and with it every event still held back.
  predicate Escapes(cfg: Config, cmd: Command, a: Answers, allowed: bool) {
    || (allowed && !a.requestValid)
    || (allowed && cfg.journalOn && !a.preAckWritable)
    || (Prepared(cfg, a, allowed) && a.durable != Reply(true, true) && cfg.journalOn && !a.failureWritable)
    || (InDoubt(cfg, a, allowed) && cfg.journalOn && !a.unconfirmedWritable)
    || (Answering(cfg, a, allowed, true) && AckRaises(cmd, a))
  }

  // When an order, once tried, has an effect.
  predicate OrderHas(cfg: Config, cmd: Command, a: Answers, allowed: bool, x: Effect) {
    var t := if cmd.kind == SendOrder then "send_order" else "cancel_order";
    match x
    case Checked(_, _) => x == Checked(t, a.checkAt)
    case Recorded(_, _) => x == Recorded(t, a.recordAt) && Called(cfg, a, allowed) && a.broker.BrokerReply?
    case AskedDurable(id, ok) =>
      && id == cmd.id && Prepared(cfg, a, allowed)
      && a.durable != NoCallback && ok == (a.durable == Reply(true, true))
    case BrokerCalled(id) => id == cmd.id && Called(cfg, a, allowed)
    case Journaled(row) => row.commandId == cmd.id && cfg.journalOn && OrderWrites(cfg, a, allowed, row.status)
    case Published(e) => e.id == cmd.id && OrderTells(cfg, cmd, a, allowed, e)
  }

  predicate OrderWrites(cfg: Config, a: Answers, allowed: bool, s: Status) {
    match s
    case PreAck => Prepared(cfg, a, allowed)
    case SendFailed => Prepared(cfg, a, allowed) && a.durable != Reply(true, true) && a.failureWritable
    case BrokerAccepted => Answering(cfg, a, allowed, true)
    case BrokerRejected => Answering(cfg, a, allowed, false)
    case Unconfirmed => InDoubt(cfg, a, allowed) && a.unconfirmedWritable
  }

  predicate OrderTells(cfg: Config, cmd: Command, a: Answers, allowed: bool, e: OutEvent) {
    match e
    case Started(_) =>
      if cfg.asyncOn then allowed ==> a.requestValid else !Escapes(cfg, cmd, a, allowed)
    case LimitedByRate(_) => !allowed
    case Acked(_) => Answering(cfg, a, allowed, true) && !AckRaises(cmd, a)
    case BrokerUnconfirmed(_) => InDoubt(cfg, a, allowed) && (cfg.journalOn ==> a.unconfirmedWritable)
    case Failed(_) =>
      || Escapes(cfg, cmd, a, allowed)
      || (Prepared(cfg, a, allowed) && a.durable != Reply(true, true))
      || Answering(cfg, a, allowed, false)
  }

  // ---- membership ----------------------------------------------------------------------------

  lemma {:induction false} PublishAllHolds(events: seq<OutEvent>, x: Effect)
    ensures x in PublishAll(events) <==> x.Published? && x.e in events
  {
    if events != [] {
      var front, last := events[..|events| - 1], events[|events| - 1];
      PublishAllHolds(front, x);
      assert events == front + [last];
    }
  }

  // An effect of the stage, or one of publishing what it hands back.
  ghost predicate Does(s: Stage, id: string, x: Effect) {
    || x in s.effects
    || (x.Published? && if s.outcome.Raised? then x.e == Failed(id) else x.e in s.outcome.events)
  }

  lemma HandleDoes(cfg: Config, lim: Limits, g: Governor, cmd: Command, a: Answers, x: Effect)
    requires !Refuses(cmd, a)
    ensures x in Handle(cfg, lim, g, cmd, a) <==> Does(CheckedStage(cfg, lim, g, cmd, a), cmd.id, x)
  {
    var stage := CheckedStage(cfg, lim, g, cmd, a);
    if stage.outcome.Returned? {
      PublishAllHolds(stage.outcome.events, x);
    }
  }

  // ---- an order ------------------------------------------------------------------------------

  // What remains of an order once the broker is called.
  predicate AfterCallHas(cfg: Config, cmd: Command, a: Answers, x: Effect) {
    && OrderHas(cfg, cmd, a, true, x)
    && !x.Checked? && !x.AskedDurable? && !x.BrokerCalled?
    && x != Journaled(Row(cmd.id, PreAck)) && (cfg.asyncOn ==> x != Published(Started(cmd.id)))
  }

  lemma InDoubtDoes(cfg: Config, cmd: Command, a: Answers, deferred: seq<OutEvent>, x: Effect)
    requires IsOrder(cmd.kind) && InDoubt(cfg, a, true)
    requires deferred == if cfg.asyncOn then [] else [Started(cmd.id)]
    ensures Does(Unconfirm(cfg, cmd.id, a, deferred), cmd.id, x) <==> AfterCallHas(cfg, cmd, a, x) && !x.Recorded?
  {
  }

  lemma AnsweredDoes(cfg: Config, cmd: Command, a: Answers, deferred: seq<OutEvent>, x: Effect)
    requires IsOrder(cmd.kind) && a.broker.BrokerReply? && Answering(cfg, a, true, a.broker.ok)
    requires deferred == if cfg.asyncOn then [] else [Started(cmd.id)]
    ensures Does(Answered(cmd, a, a.broker.ok, deferred), cmd.id, x) <==>
            AfterCallHas(cfg, cmd, a, x) && !x.Recorded? && !x.Journaled?
  {
  }

  lemma CallDoes(cfg: Config, cmd: Command, a: Answers, deferred: seq<OutEvent>, x: Effect)
    requires IsOrder(cmd.kind) && Called(cfg, a, true)
    requires deferred == if cfg.asyncOn then [] else [Started(cmd.id)]
    ensures Does(AfterCall(cfg, cmd, a, deferred), cmd.id, x) <==> AfterCallHas(cfg, cmd, a, x)
  {
    if InDoubt(cfg, a, true) {
      InDoubtDoes(cfg, cmd, a, deferred, x);
    } else {
      AnsweredDoes(cfg, cmd, a, deferred, x);
    }
  }

  lemma PreparedDoes(cfg: Config, cmd: Command, a: Answers, deferred: seq<OutEvent>, x: Effect)
    requires IsOrder(cmd.kind) && Prepared(cfg, a, true)
    requires deferred == if cfg.asyncOn then [] else [Started(cmd.id)]
    ensures Does(AfterPreAck(cfg, cmd, a, deferred), cmd.id, x) <==>
            && OrderHas(cfg, cmd, a, true, x)
            && !x.Checked?
            && x != Journaled(Row(cmd.id, PreAck)) && (cfg.asyncOn ==> x != Published(Started(cmd.id)))
  {
    if Called(cfg, a, true) {
      CallDoes(cfg, cmd, a, deferred, x);
    }
  }

  lemma OrderDoes(cfg: Config, cmd: Command, a: Answers, allowed: bool, x: Effect)
    requires IsOrder(cmd.kind)
    ensures Does(OrderStage(cfg, cmd, a, allowed), cmd.id, x) <==>
            OrderHas(cfg, cmd, a, allowed, x) && !x.Checked?
  {
    if Prepared(cfg, a, allowed) {
      PreparedDoes(cfg, cmd, a, if cfg.asyncOn then [] else [Started(cmd.id)], x);
    }
  }

  // A tried order has exactly the effects its answers call for.
  lemma OrderEffects(cfg: Config, lim: Limits, g: Governor, cmd: Command, a: Answers, x: Effect)
    requires Tried(cmd, a)
    ensures x in Handle(cfg, lim, g, cmd, a) <==>
            OrderHas(cfg, cmd, a, Decide(lim, g, RateType(cmd.kind), a.checkAt) == Allowed, x)
  {
    HandleDoes(cfg, lim, g, cmd, a, x);
    OrderDoes(cfg, cmd, a, Decide(lim, g, RateType(cmd.kind), a.checkAt) == Allowed, x);
  }

  // An order is acknowledged exactly when the broker was reached, accepted it, the acceptance is on
  // record and a send's callback did not raise; it is unconfirmed exactly when the broker was called,
  // no answer is on record and that could be written; it fails exactly when the rate allowed it and
  // it is neither.
  ghost predicate AnswersAs(cfg: Config, cmd: Command, a: Answers, allowed: bool, effects: seq<Effect>) {
    var reached := allowed && a.requestValid && (cfg.journalOn ==> a.preAckWritable) && a.durable == Reply(true, true);
    var kept := a.broker.BrokerReply? && (cfg.journalOn ==> a.outcomeWritable);
    var acked := reached && kept && a.broker.ok && (cmd.kind == SendOrder ==> a.ackCallbackOk);
    var unknown := reached && !kept && (cfg.journalOn ==> a.unconfirmedWritable);
    && (Published(Acked(cmd.id)) in effects <==> acked)
    && (Published(BrokerUnconfirmed(cmd.id)) in effects <==> unknown)
    && (Published(LimitedByRate(cmd.id)) in effects <==> !allowed)
    && (Published(Failed(cmd.id)) in effects <==> allowed && !acked && !unknown)
  }

  ghost predicate ActsAs(cfg: Config, cmd: Command, a: Answers, allowed: bool, effects: seq<Effect>) {
    forall x :: x in effects <==> OrderHas(cfg, cmd, a, allowed, x)
  }

  lemma Acts(cfg: Config, lim: Limits, g: Governor, cmd: Command, a: Answers)
    requires Tried(cmd, a)
    ensures ActsAs(cfg, cmd, a, Decide(lim, g, RateType(cmd.kind), a.checkAt) == Allowed, Handle(cfg, lim, g, cmd, a))
  {
    forall x ensures x in Handle(cfg, lim, g, cmd, a) <==>
                     OrderHas(cfg, cmd, a, Decide(lim, g, RateType(cmd.kind), a.checkAt) == Allowed, x)
    {
      OrderEffects(cfg, lim, g, cmd, a, x);
    }
  }

  lemma AnswersFrom(cfg: Config, cmd: Command, a: Answers, allowed: bool, effects: seq<Effect>)
    requires Tried(cmd, a) && ActsAs(cfg, cmd, a, allowed, effects)
    ensures AnswersAs(cfg, cmd, a, allowed, effects)
  {
  }

  lemma AnswerIff(cfg: Config, lim: Limits, g: Governor, cmd: Command, a: Answers)
    requires Tried(cmd, a)
    ensures AnswersAs(cfg, cmd, a, Decide(lim, g, RateType(cmd.kind), a.checkAt) == Allowed,
                      Handle(cfg, lim, g, cmd, a))
  {
    Acts(cfg, lim, g, cmd, a);
    AnswersFrom(cfg, cmd, a, Decide(lim, g, RateType(cmd.kind), a.checkAt) == Allowed, Handle(cfg, lim, g, cmd, a));
  }

  // ---- other commands ------------------------------------------------------------------------

  // A forbidden command, and an order that expired or does not pass the safety checks, fails at once:
  // nothing is checked, written or called.
  lemma TurnedAway(cfg: Config, lim: Limits, g: Governor, cmd: Command, a: Answers)
    requires !cmd.kind.NonOrder? && !Tried(cmd, a)
    ensures Handle(cfg, lim, g, cmd, a) == [Published(Failed(cmd.id))]
  {
  }

  // A command that is no order asks for its own type's rate and is answered by what its handler
  // made of it; whatever the handler returned is recorded.
  lemma NonOrderEffects(cfg: Config, lim: Limits, g: Governor, id: string, t: string, a: Answers, x: Effect)
    ensures var allowed := Decide(lim, g, t, a.checkAt) == Allowed;
            x in Handle(cfg, lim, g, Command(id, NonOrder(t)), a) <==>
            || x == Checked(t, a.checkAt)
            || x == Published(Started(id))
            || (x == Published(LimitedByRate(id)) && !allowed)
            || (x == Recorded(t, a.recordAt) && allowed && a.nonOrder.NonOrderReturns?)
            || (x == Published(Acked(id)) && allowed && a.nonOrder == NonOrderReturns(true))
            || (x == Published(Failed(id)) && allowed && a.nonOrder != NonOrderReturns(true))
  {
    HandleDoes(cfg, lim, g, Command(id, NonOrder(t)), a, x);
  }

  // ---- one answer, given last ----------------------------------------------------------------

  // Of what is published, all but the last effect are start events.
  ghost predicate AnswersLast(effects: seq<Effect>) {
    && effects != []
    && effects[|effects| - 1].Published? && !effects[|effects| - 1].e.Started?
    && forall k :: 0 <= k < |effects| - 1 && effects[k].Published? ==> effects[k].e.Started?
  }

  ghost predicate OnlyStarts(events: seq<OutEvent>) {
    forall e :: e in events ==> e.Started?
  }

  ghost predicate StageAnswersLast(s: Stage) {
    && (forall x :: x in s.effects && x.Published? ==> x.e.Started?)
    && (s.outcome.Returned? ==>
          var n := |s.outcome.events|;
          n > 0 && !s.outcome.events[n - 1].Started? && OnlyStarts(s.outcome.events[..n - 1]))
  }

  lemma {:induction false} StartsPublished(events: seq<OutEvent>, x: Effect)
    requires OnlyStarts(events) && x in PublishAll(events)
    ensures x.Published? && x.e.Started?
  {
    PublishAllHolds(events, x);
  }

  lemma LastAnswers(id: string, s: Stage)
    requires StageAnswersLast(s)
    ensures AnswersLast(s.effects + Publish(id, s.outcome))
  {
    if s.outcome.Returned? {
      var front := s.outcome.events[..|s.outcome.events| - 1];
      forall x | x in PublishAll(front) ensures x.Published? && x.e.Started? {
        StartsPublished(front, x);
      }
    }
  }

  lemma ThenAnswersLast(e: Effect, s: Stage)
    requires StageAnswersLast(s) && (e.Published? ==> e.e.Started?)
    ensures StageAnswersLast(Then(e, s))
  {
  }

  lemma PreparedAnswersLast(cfg: Config, cmd: Command, a: Answers, deferred: seq<OutEvent>)
    requires OnlyStarts(deferred)
    ensures StageAnswersLast(AfterPreAck(cfg, cmd, a, deferred))
  {
    if Confirms(a.durable) {
      CallAnswersLast(cfg, cmd, a, deferred);
      ThenAnswersLast(BrokerCalled(cmd.id), AfterCall(cfg, cmd, a, deferred));
    } else {
      ReturnAnswersLast(deferred, Failed(cmd.id));
    }
  }

  lemma ReturnAnswersLast(deferred: seq<OutEvent>, e: OutEvent)
    requires OnlyStarts(deferred) && !e.Started?
    ensures StageAnswersLast(Stage([], Returned(deferred + [e])))
  {
    assert (deferred + [e])[..|deferred|] == deferred;
  }

  lemma CallAnswersLast(cfg: Config, cmd: Command, a: Answers, deferred: seq<OutEvent>)
    requires OnlyStarts(deferred)
    ensures StageAnswersLast(AfterCall(cfg, cmd, a, deferred))
  {
    ReturnAnswersLast(deferred, Acked(cmd.id));
    ReturnAnswersLast(deferred, Failed(cmd.id));
    ReturnAnswersLast(deferred, BrokerUnconfirmed(cmd.id));
  }

  lemma OrderAnswersLast(cfg: Config, cmd: Command, a: Answers, allowed: bool)
    ensures StageAnswersLast(OrderStage(cfg, cmd, a, allowed))
  {
    var (now, deferred) := EmitBefore(cfg, Started(cmd.id));
    ReturnAnswersLast(deferred, LimitedByRate(cmd.id));
    PreparedAnswersLast(cfg, cmd, a, deferred);
  }

  lemma CheckedAnswersLast(cfg: Config, lim: Limits, g: Governor, cmd: Command, a: Answers)
    ensures StageAnswersLast(CheckedStage(cfg, lim, g, cmd, a))
  {
    var allowed := Decide(lim, g, RateType(cmd.kind), a.checkAt) == Allowed;
    if IsOrder(cmd.kind) {
      OrderAnswersLast(cfg, cmd, a, allowed);
      ThenAnswersLast(Checked(RateType(cmd.kind), a.checkAt), OrderStage(cfg, cmd, a, allowed));
    } else {
      NonOrderAnswersLast(cmd, a, allowed);
      ThenAnswersLast(Checked(RateType(cmd.kind), a.checkAt), NonOrderStage(cmd, a, allowed));
    }
  }

  lemma NonOrderAnswersLast(cmd: Command, a: Answers, allowed: bool)
    ensures StageAnswersLast(NonOrderStage(cmd, a, allowed))
  {
  }

  // Every command gets exactly one answer, after everything else it does.
  lemma OneAnswerLast(cfg: Config, lim: Limits, g: Governor, cmd: Command, a: Answers)
    ensures AnswersLast(Handle(cfg, lim, g, cmd, a))
  {
    if !Refuses(cmd, a) {
      var stage := CheckedStage(cfg, lim, g, cmd, a);
      CheckedAnswersLast(cfg, lim, g, cmd, a);
      LastAnswers(cmd.id, stage);
    }
  }

  // ---- everything once, and in this order ----------------------------------------------------

  // `early`: start events are published at once.
  function Rank(early: bool, e: Effect): nat {
    match e
    case Checked(_, _) => 1
    case Published(o) => if !o.Started? then 9 else if early then 2 else 8
    case Journaled(row) => if row.status == PreAck then 3 else 7
    case AskedDurable(_, _) => 4
    case BrokerCalled(_) => 5
    case Recorded(_, _) => 6
  }

  // Ranks rise strictly, above `low` and up to `high`.
  predicate Rising(early: bool, low: nat, high: nat, effects: seq<Effect>)
    decreases effects
  {
    effects == []
    || (low < Rank(early, effects[0]) <= high && Rising(early, Rank(early, effects[0]), high, effects[1..]))
  }

  lemma RisingThen(early: bool, low: nat, high: nat, e: Effect, rest: seq<Effect>)
    requires low < Rank(early, e) <= high && Rising(early, Rank(early, e), high, rest)
    ensures Rising(early, low, high, [e] + rest)
  {
    assert ([e] + rest)[1..] == rest;
  }

  lemma {:induction false} RisingConcat(early: bool, low: nat, mid: nat, high: nat, a: seq<Effect>, b: seq<Effect>)
    requires mid <= high && Rising(early, low, mid, a) && Rising(early, mid, high, b) && low <= mid
    ensures Rising(early, low, high, a + b)
    decreases a
  {
    if a == [] {
      assert a + b == b;
      RisingLower(early, low, mid, high, b);
    } else {
      assert (a + b)[1..] == a[1..] + b;
      RisingConcat(early, Rank(early, a[0]), mid, high, a[1..], b);
    }
  }

  lemma RisingLower(early: bool, low: nat, mid: nat, high: nat, effects: seq<Effect>)
    requires low <= mid && Rising(early, mid, high, effects)
    ensures Rising(early, low, high, effects)
  {
  }

  lemma CallRises(cfg: Config, cmd: Command, a: Answers, deferred: seq<OutEvent>, early: bool)
    ensures Rising(early, 5, 7, AfterCall(cfg, cmd, a, deferred).effects)
  {
    var effects := AfterCall(cfg, cmd, a, deferred).effects;
    assert |effects| == 2 ==> effects[1..] == [effects[1]] && effects[1..][1..] == [];
    assert |effects| == 1 ==> effects[1..] == [];
  }

  lemma PreAckRises(cfg: Config, cmd: Command, a: Answers, deferred: seq<OutEvent>, early: bool)
    ensures Rising(early, 3, 7, AfterPreAck(cfg, cmd, a, deferred).effects)
  {
    var durable := AfterDurable(cfg, cmd, a, deferred).effects;
    assert Rising(early, 4, 7, durable) by {
      if Confirms(a.durable) {
        CallRises(cfg, cmd, a, deferred, early);
        RisingThen(early, 4, 7, BrokerCalled(cmd.id), AfterCall(cfg, cmd, a, deferred).effects);
      } else if durable != [] {
        assert durable[1..] == [];
      }
    }
    if a.durable == NoCallback {
      RisingLower(early, 3, 4, 7, durable);
    } else {
      RisingThen(early, 3, 7, AskedDurable(cmd.id, Confirms(a.durable)), durable);
    }
  }

  lemma StartRises(cfg: Config, cmd: Command, a: Answers, deferred: seq<OutEvent>, early: bool)
    ensures Rising(early, 2, 7, AfterStart(cfg, cmd, a, deferred).effects)
  {
    var rest := AfterPreAck(cfg, cmd, a, deferred).effects;
    PreAckRises(cfg, cmd, a, deferred, early);
    if cfg.journalOn && a.preAckWritable {
      RisingThen(early, 2, 7, Journaled(Row(cmd.id, PreAck)), rest);
    } else {
      RisingLower(early, 2, 3, 7, rest);
    }
  }

  lemma OrderRises(cfg: Config, cmd: Command, a: Answers, allowed: bool)
    ensures Rising(cfg.asyncOn, 1, 7, OrderStage(cfg, cmd, a, allowed).effects)
  {
    var (now, deferred) := EmitBefore(cfg, Started(cmd.id));
    var rest := if allowed then AfterStart(cfg, cmd, a, deferred).effects else [];
    StartRises(cfg, cmd, a, deferred, cfg.asyncOn);
    if !cfg.asyncOn {
      RisingLower(cfg.asyncOn, 1, 2, 7, rest);
      assert now + rest == rest;
    } else {
      RisingThen(cfg.asyncOn, 1, 7, Published(Started(cmd.id)), rest);
      assert [Published(Started(cmd.id))] + [] == now;
    }
  }

  // What is handed back: an answer, after a start event that was held back.
  lemma {:induction false} PublishingRises(early: bool, events: seq<OutEvent>)
    requires 0 < |events| <= 2 && !events[|events| - 1].Started?
    requires |events| == 2 ==> !early && events[0].Started?
    ensures Rising(early, 7, 9, PublishAll(events))
  {
    var last := [Published(events[|events| - 1])];
    assert last[1..] == [];
    if |events| == 1 {
      assert events[..0] == [];
      assert PublishAll(events) == [] + last == last;
    } else {
      var front := events[..1];
      assert front[..0] == [] && PublishAll(front) == [] + [Published(events[0])];
      RisingThen(early, 7, 9, Published(events[0]), last);
      assert PublishAll(events) == [Published(events[0])] + last;
    }
  }

  ghost predicate HandsBackInOrder(early: bool, o: Outcome) {
    o.Returned? ==>
      && 0 < |o.events| <= 2 && !o.events[|o.events| - 1].Started?
      && (|o.events| == 2 ==> !early && o.events[0].Started?)
  }

  lemma OrderHandsBack(cfg: Config, cmd: Command, a: Answers, allowed: bool)
    ensures HandsBackInOrder(cfg.asyncOn, OrderStage(cfg, cmd, a, allowed).outcome)
  {
  }

  lemma StageRises(early: bool, id: string, e: Effect, s: Stage)
    requires e.Checked? && Rising(early, 1, 7, s.effects) && HandsBackInOrder(early, s.outcome)
    ensures Rising(early, 0, 9, Then(e, s).effects + Publish(id, s.outcome))
  {
    RisingThen(early, 0, 7, e, s.effects);
    if s.outcome.Returned? {
      PublishingRises(early, s.outcome.events);
    } else {
      assert Publish(id, s.outcome)[1..] == [];
    }
    RisingConcat(early, 0, 7, 9, Then(e, s).effects, Publish(id, s.outcome));
  }

  // No effect happens twice, and each in its place: check, start, PRE_ACK row, Core, broker, rate
  // record, outcome row, answer. With what happens at all this fixes everything a command does.
  lemma EffectsInPlace(cfg: Config, lim: Limits, g: Governor, cmd: Command, a: Answers)
    ensures Rising(cfg.asyncOn && IsOrder(cmd.kind), 0, 9, Handle(cfg, lim, g, cmd, a))
  {
    var allowed := Decide(lim, g, RateType(cmd.kind), a.checkAt) == Allowed;
    var checked := Checked(RateType(cmd.kind), a.checkAt);
    if Refuses(cmd, a) {
      RisingThen(cfg.asyncOn && IsOrder(cmd.kind), 0, 9, Published(Failed(cmd.id)), []);
    } else if IsOrder(cmd.kind) {
      OrderRises(cfg, cmd, a, allowed);
      OrderHandsBack(cfg, cmd, a, allowed);
      StageRises(cfg.asyncOn, cmd.id, checked, OrderStage(cfg, cmd, a, allowed));
    } else {
      NonOrderRises(cmd, a, allowed);
      StageRises(false, cmd.id, checked, NonOrderStage(cmd, a, allowed));
    }
  }

  lemma NonOrderRises(cmd: Command, a: Answers, allowed: bool)
    ensures Rising(false, 1, 7, NonOrderStage(cmd, a, allowed).effects)
    ensures HandsBackInOrder(false, NonOrderStage(cmd, a, allowed).outcome)
  {
    var effects := NonOrderStage(cmd, a, allowed).effects;
    assert effects != [] ==> effects[1..] == [];
  }

  // ---- over runs -----------------------------------------------------------------------------

  lemma AckNeedsRow(cfg: Config, cmd: Command, a: Answers, allowed: bool, effects: seq<Effect>)
    requires cfg.journalOn && ActsAs(cfg, cmd, a, allowed, effects) && Published(Acked(cmd.id)) in effects
    ensures Journaled(Row(cmd.id, BrokerAccepted)) in effects
  {
    assert OrderHas(cfg, cmd, a, allowed, Published(Acked(cmd.id)));
    assert OrderHas(cfg, cmd, a, allowed, Journaled(Row(cmd.id, BrokerAccepted)));
  }

  // What a run relies on of one command's effects: they are the command's own, the answer comes last,
  // and an order acknowledged is one whose acceptance is on record.
  ghost predicate Sealed(cfg: Config, cmd: Command, effects: seq<Effect>) {
    && AnswersLast(effects)
    && (forall k :: 0 <= k < |effects| && Owner(effects[k]).Some? ==> Owner(effects[k]).value == cmd.id)
    && (cfg.journalOn && IsOrder(cmd.kind) && Published(Acked(cmd.id)) in effects
        ==> Journaled(Row(cmd.id, BrokerAccepted)) in effects)
  }

  lemma {:induction false} OwnedBy(cfg: Config, v: View, id: string, effects: seq<Effect>, k: nat)
    requires LegalFrom(cfg, v, id, effects) && k < |effects| && Owner(effects[k]).Some?
    ensures Owner(effects[k]).value == id
    decreases effects
  {
    if k > 0 {
      OwnedBy(cfg, Update(v, id, effects[0]), id, effects[1..], k - 1);
    }
  }

  lemma HandleOwns(cfg: Config, lim: Limits, g: Governor, cmd: Command, a: Answers, k: nat)
    requires k < |Handle(cfg, lim, g, cmd, a)| && Owner(Handle(cfg, lim, g, cmd, a)[k]).Some?
    ensures Owner(Handle(cfg, lim, g, cmd, a)[k]).value == cmd.id
  {
    HandleIsLegal(cfg, lim, g, cmd, a);
    OwnedBy(cfg, UNSEEN, cmd.id, Handle(cfg, lim, g, cmd, a), k);
  }

  lemma HandleAckHasRow(cfg: Config, lim: Limits, g: Governor, cmd: Command, a: Answers)
    requires cfg.journalOn && IsOrder(cmd.kind) && Published(Acked(cmd.id)) in Handle(cfg, lim, g, cmd, a)
    ensures Journaled(Row(cmd.id, BrokerAccepted)) in Handle(cfg, lim, g, cmd, a)
  {
    if Tried(cmd, a) {
      Acts(cfg, lim, g, cmd, a);
      AckNeedsRow(cfg, cmd, a, Decide(lim, g, RateType(cmd.kind), a.checkAt) == Allowed, Handle(cfg, lim, g, cmd, a));
    } else {
      TurnedAway(cfg, lim, g, cmd, a);
    }
  }

  lemma HandleIsSealed(cfg: Config, lim: Limits, g: Governor, cmd: Command, a: Answers)
    ensures Sealed(cfg, cmd, Handle(cfg, lim, g, cmd, a))
  {
    var effects := Handle(cfg, lim, g, cmd, a);
    OneAnswerLast(cfg, lim, g, cmd, a);
    forall k | 0 <= k < |effects| && Owner(effects[k]).Some? ensures Owner(effects[k]).value == cmd.id {
      HandleOwns(cfg, lim, g, cmd, a, k);
    }
    if cfg.journalOn && IsOrder(cmd.kind) && Published(Acked(cmd.id)) in effects {
      HandleAckHasRow(cfg, lim, g, cmd, a);
    }
  }

  lemma {:induction false} RunGrows(cfg: Config, lim: Limits, s: System, rounds: seq<Round>)
    ensures s.trace <= RunAll(cfg, lim, s, rounds).trace
    decreases rounds
  {
    if rounds != [] {
      var effects := Handle(cfg, lim, s.g, rounds[0].cmd, rounds[0].a);
      ApplyFacts(lim, s, effects);
      RunGrows(cfg, lim, Apply(lim, s, effects), rounds[1..]);
    }
  }

  lemma FirstRound(cfg: Config, lim: Limits, s: System, rounds: seq<Round>) returns (effects: seq<Effect>, n: System)
    requires rounds != []
    ensures Sealed(cfg, rounds[0].cmd, effects) && n.trace == s.trace + effects
    ensures RunAll(cfg, lim, s, rounds) == RunAll(cfg, lim, n, rounds[1..])
    ensures n.trace <= RunAll(cfg, lim, s, rounds).trace
  {
    effects := Handle(cfg, lim, s.g, rounds[0].cmd, rounds[0].a);
    n := Apply(lim, s, effects);
    ApplyFacts(lim, s, effects);
    HandleIsSealed(cfg, lim, s.g, rounds[0].cmd, rounds[0].a);
    RunGrows(cfg, lim, n, rounds[1..]);
  }

  ghost predicate StandsAt(t: seq<Effect>, at: nat, effects: seq<Effect>) {
    at + |effects| <= |t| && forall k :: 0 <= k < |effects| ==> t[at + k] == effects[k]
  }

  lemma Segment(t: seq<Effect>, head: seq<Effect>, effects: seq<Effect>)
    requires head + effects <= t
    ensures StandsAt(t, |head|, effects)
  {
    forall k | 0 <= k < |effects| ensures t[|head| + k] == effects[k] {
      assert (head + effects)[|head| + k] == effects[k];
    }
  }

  // Every effect of a run is one of handling some round.
  lemma {:induction false} RoundOf(cfg: Config, lim: Limits, s: System, rounds: seq<Round>, i: nat)
    returns (j: nat, at: nat, effects: seq<Effect>)
    requires |s.trace| <= i < |RunAll(cfg, lim, s, rounds).trace|
    ensures j < |rounds| && Sealed(cfg, rounds[j].cmd, effects)
    ensures |s.trace| <= at <= i < at + |effects| && StandsAt(RunAll(cfg, lim, s, rounds).trace, at, effects)
    decreases rounds
  {
    var first, n := FirstRound(cfg, lim, s, rounds);
    if i < |n.trace| {
      j, at, effects := 0, |s.trace|, first;
      Segment(RunAll(cfg, lim, s, rounds).trace, s.trace, first);
    } else {
      j, at, effects := RoundOf(cfg, lim, n, rounds[1..], i);
      j := j + 1;
    }
  }

  lemma BeforeAnswer(effects: seq<Effect>, i: nat, x: Effect) returns (k: nat)
    requires AnswersLast(effects) && x in effects && !x.Published?
    requires i < |effects| && effects[i].Published? && !effects[i].e.Started?
    ensures k < i && effects[k] == x
  {
    k :| 0 <= k < |effects| && effects[k] == x;
  }

  lemma SameRound(rounds: seq<Round>, j: nat, k: nat)
    requires OncePerId(rounds) && j < |rounds| && k < |rounds| && rounds[j].cmd.id == rounds[k].cmd.id
    ensures j == k
  {
  }

  lemma OwnAnswer(cfg: Config, cmd: Command, effects: seq<Effect>, i: nat, id: string)
    requires Sealed(cfg, cmd, effects) && i < |effects| && effects[i] == Published(Acked(id))
    ensures cmd.id == id
  {
    assert Owner(effects[i]) == Some(id);
  }

  lemma AckedInRound(cfg: Config, cmd: Command, effects: seq<Effect>, i: nat) returns (k: nat)
    requires cfg.journalOn && IsOrder(cmd.kind) && Sealed(cfg, cmd, effects)
    requires i < |effects| && effects[i] == Published(Acked(cmd.id))
    ensures k < i && effects[k] == Journaled(Row(cmd.id, BrokerAccepted))
  {
    assert effects[i] in effects;
    k := BeforeAnswer(effects, i, Journaled(Row(cmd.id, BrokerAccepted)));
  }

  lemma AckedInTrace(cfg: Config, rounds: seq<Round>, k: nat, j: nat, t: seq<Effect>, at: nat, effects: seq<Effect>, i: nat)
    returns (row: nat)
    requires cfg.journalOn && OncePerId(rounds) && k < |rounds| && IsOrder(rounds[k].cmd.kind)
    requires j < |rounds| && Sealed(cfg, rounds[j].cmd, effects) && StandsAt(t, at, effects)
    requires at <= i < at + |effects| && t[i] == Published(Acked(rounds[k].cmd.id))
    ensures at <= row < i && t[row] == Journaled(Row(rounds[k].cmd.id, BrokerAccepted))
  {
    assert effects[i - at] == t[i];
    OwnAnswer(cfg, rounds[j].cmd, effects, i - at, rounds[k].cmd.id);
    SameRound(rounds, j, k);
    row := AckedInRound(cfg, rounds[j].cmd, effects, i - at);
    row := at + row;
  }

  // With a journal, an order's acknowledgement follows its BROKER_ACCEPTED row in every run.
  lemma AckedAfterAccepted(cfg: Config, lim: Limits, s: System, rounds: seq<Round>, k: nat, i: nat) returns (row: nat)
    requires cfg.journalOn && OncePerId(rounds) && k < |rounds| && IsOrder(rounds[k].cmd.kind)
    requires var t := RunAll(cfg, lim, s, rounds).trace;
             |s.trace| <= i < |t| && t[i] == Published(Acked(rounds[k].cmd.id))
    ensures |s.trace| <= row < i
    ensures RunAll(cfg, lim, s, rounds).trace[row] == Journaled(Row(rounds[k].cmd.id, BrokerAccepted))
  {
    var j, at, effects := RoundOf(cfg, lim, s, rounds, i);
    row := AckedInTrace(cfg, rounds, k, j, RunAll(cfg, lim, s, rounds).trace, at, effects, i);
  }
}
