// What every run of the command handler keeps, at every point where it may be cut short.

module OrderProtocol {
  import opened OrderJournal
  import opened RateLimit
  import opened OrderCommands

  // What a trace says about one command.
  datatype View = View(started: bool, latest: Option<Status>, confirmed: bool, calls: nat, outcomes: nat)

  const UNSEEN := View(false, None, false, 0, 0)

  function Update(v: View, id: string, e: Effect): View {
    match e
    case Published(Started(i)) => if i == id then v.(started := true) else v
    case Journaled(row) =>
      if row.commandId != id then v
      else v.(latest := Some(row.status), outcomes := v.outcomes + if AfterBroker(row.status) then 1 else 0)
    case AskedDurable(i, ok) => if i == id then v.(confirmed := ok) else v
    case BrokerCalled(i) => if i == id then v.(calls := v.calls + 1) else v
    case _ => v
  }

  function ViewOf(trace: seq<Effect>, id: string): View {
    if trace == [] then UNSEEN else Update(ViewOf(trace[..|trace| - 1], id), id, trace[|trace| - 1])
  }

  // Whose effect it is; no one's for rate-limit calls.
  function Owner(e: Effect): Option<string> {
    match e
    case Checked(_, _) => None
    case Recorded(_, _) => None
    case Published(o) => Some(o.id)
    case Journaled(row) => Some(row.commandId)
    case AskedDurable(i, _) => Some(i)
    case BrokerCalled(i) => Some(i)
  }

  // The write-ahead order: start, PRE_ACK row, durable confirmation, broker call, outcome row.
  predicate Legal(cfg: Config, v: View, e: Effect) {
    var ready := (cfg.asyncOn ==> v.started) && (cfg.journalOn ==> v.latest == Some(PreAck));
    match e
    case Journaled(row) =>
      && cfg.journalOn
      && (match row.status
          case PreAck => v.latest == None && v.calls == 0 && !v.confirmed && (cfg.asyncOn ==> v.started)
          case SendFailed => v.latest == Some(PreAck) && v.calls == 0 && !v.confirmed
          case _ => v.latest == Some(PreAck) && v.calls == 1 && v.outcomes == 0)
    case AskedDurable(_, _) => v.calls == 0 && !v.confirmed && ready
    case BrokerCalled(_) => v.calls == 0 && v.outcomes == 0 && v.confirmed && ready
    case _ => true
  }

  ghost predicate LegalTrace(cfg: Config, t: seq<Effect>) {
    forall k :: 0 <= k < |t| && Owner(t[k]).Some? ==> Legal(cfg, ViewOf(t[..k], Owner(t[k]).value), t[k])
  }

  // ---- one command is legal ----------------------------------------------------------------

  predicate LegalFrom(cfg: Config, v: View, id: string, effects: seq<Effect>)
    decreases effects
  {
    effects == []
    || (&& (Owner(effects[0]).Some? ==> Owner(effects[0]).value == id && Legal(cfg, v, effects[0]))
        && LegalFrom(cfg, Update(v, id, effects[0]), id, effects[1..]))
  }

  function UpdateAll(v: View, id: string, effects: seq<Effect>): View
    decreases effects
  {
    if effects == [] then v else UpdateAll(Update(v, id, effects[0]), id, effects[1..])
  }

  lemma LegalThen(cfg: Config, v: View, id: string, e: Effect, rest: seq<Effect>)
    requires Owner(e).Some? ==> Owner(e).value == id && Legal(cfg, v, e)
    requires LegalFrom(cfg, Update(v, id, e), id, rest)
    ensures LegalFrom(cfg, v, id, [e] + rest)
    ensures UpdateAll(v, id, [e] + rest) == UpdateAll(Update(v, id, e), id, rest)
  {
    assert ([e] + rest)[1..] == rest;
  }

  lemma {:induction false} LegalConcat(cfg: Config, v: View, id: string, a: seq<Effect>, b: seq<Effect>)
    requires LegalFrom(cfg, v, id, a) && LegalFrom(cfg, UpdateAll(v, id, a), id, b)
    ensures LegalFrom(cfg, v, id, a + b)
    ensures UpdateAll(v, id, a + b) == UpdateAll(UpdateAll(v, id, a), id, b)
    decreases a
  {
    if a == [] {
      assert a + b == b;
    } else {
      assert (a + b)[1..] == a[1..] + b;
      LegalConcat(cfg, Update(v, id, a[0]), id, a[1..], b);
    }
  }

  function EventId(e: OutEvent): string {
    e.id
  }

  ghost predicate AllOf(events: seq<OutEvent>, id: string) {
    forall e :: e in events ==> EventId(e) == id
  }

  lemma {:induction false} PublishingIsLegal(cfg: Config, v: View, id: string, events: seq<OutEvent>)
    requires AllOf(events, id)
    ensures LegalFrom(cfg, v, id, PublishAll(events))
    ensures var u := UpdateAll(v, id, PublishAll(events));
            u.(started := v.started) == v
    decreases |events|
  {
    if events != [] {
      var front, e := events[..|events| - 1], Published(events[|events| - 1]);
      PublishingIsLegal(cfg, v, id, front);
      assert EventId(events[|events| - 1]) == id;
      LegalThen(cfg, UpdateAll(v, id, PublishAll(front)), id, e, []);
      LegalConcat(cfg, v, id, PublishAll(front), [e]);
    }
  }

  lemma OutcomeIsLegal(cfg: Config, v: View, id: string, o: Outcome)
    requires o.Returned? ==> AllOf(o.events, id)
    ensures LegalFrom(cfg, v, id, Publish(id, o))
    ensures var u := UpdateAll(v, id, Publish(id, o)); u.(started := v.started) == v
  {
    match o {
      case Raised => LegalThen(cfg, v, id, Published(Failed(id)), []);
      case Returned(events) => PublishingIsLegal(cfg, v, id, events);
    }
  }

  // A stage that is legal from `v`, speaks only of `id` and leaves the view `u`.
  ghost predicate StageLegal(cfg: Config, v: View, id: string, s: Stage, u: View) {
    && LegalFrom(cfg, v, id, s.effects)
    && UpdateAll(v, id, s.effects) == u
    && (s.outcome.Returned? ==> AllOf(s.outcome.events, id))
  }

  lemma StageThen(cfg: Config, v: View, id: string, e: Effect, s: Stage, u: View)
    requires Owner(e).Some? ==> Owner(e).value == id && Legal(cfg, v, e)
    requires StageLegal(cfg, Update(v, id, e), id, s, u)
    ensures StageLegal(cfg, v, id, Then(e, s), u)
  {
    LegalThen(cfg, v, id, e, s.effects);
  }

  // Exactly one outcome row follows a broker call when an outcome can be written at all.
  predicate OutcomeWritten(cfg: Config, a: Answers) {
    cfg.journalOn && ((a.broker.BrokerReply? && a.outcomeWritable) || a.unconfirmedWritable)
  }

  function OutcomeStatus(a: Answers): Status {
    if a.broker.BrokerReply? && a.outcomeWritable then
      if a.broker.ok then BrokerAccepted else BrokerRejected
    else Unconfirmed
  }

  function AfterCallView(cfg: Config, v: View, a: Answers): View {
    if OutcomeWritten(cfg, a) then v.(latest := Some(OutcomeStatus(a)), outcomes := v.outcomes + 1) else v
  }

  lemma UnconfirmIsLegal(cfg: Config, v: View, id: string, a: Answers, deferred: seq<OutEvent>)
    requires AllOf(deferred, id)
    requires cfg.journalOn ==> v.latest == Some(PreAck) && v.calls == 1 && v.outcomes == 0
    requires !(a.broker.BrokerReply? && a.outcomeWritable && cfg.journalOn)
    ensures StageLegal(cfg, v, id, Unconfirm(cfg, id, a, deferred), AfterCallView(cfg, v, a))
  {
    var done := Stage([], Returned(deferred + [BrokerUnconfirmed(id)]));
    if cfg.journalOn && a.unconfirmedWritable {
      StageThen(cfg, v, id, Journaled(Row(id, Unconfirmed)), done, AfterCallView(cfg, v, a));
    }
  }

  lemma CallIsLegal(cfg: Config, v: View, cmd: Command, a: Answers, deferred: seq<OutEvent>)
    requires AllOf(deferred, cmd.id)
    requires v.calls == 1 && v.outcomes == 0 && (cfg.journalOn ==> v.latest == Some(PreAck))
    ensures StageLegal(cfg, v, cmd.id, AfterCall(cfg, cmd, a, deferred), AfterCallView(cfg, v, a))
  {
    match a.broker {
      case BrokerRaises => UnconfirmIsLegal(cfg, v, cmd.id, a, deferred);
      case BrokerReply(ok) =>
        var u := AfterCallView(cfg, v, a);
        var recorded := Recorded(RateType(cmd.kind), a.recordAt);
        if !cfg.journalOn {
          StageThen(cfg, v, cmd.id, recorded, Answered(cmd, a, ok, deferred), u);
        } else if a.outcomeWritable {
          var row := Journaled(Row(cmd.id, if ok then BrokerAccepted else BrokerRejected));
          StageThen(cfg, v, cmd.id, row, Answered(cmd, a, ok, deferred), u);
          StageThen(cfg, v, cmd.id, recorded, Then(row, Answered(cmd, a, ok, deferred)), u);
        } else {
          UnconfirmIsLegal(cfg, v, cmd.id, a, deferred);
          StageThen(cfg, v, cmd.id, recorded, Unconfirm(cfg, cmd.id, a, deferred), u);
        }
    }
  }

  lemma DurableIsLegal(cfg: Config, v: View, cmd: Command, a: Answers, deferred: seq<OutEvent>) returns (u: View)
    requires AllOf(deferred, cmd.id)
    requires v.calls == 0 && v.outcomes == 0 && v.confirmed == Confirms(a.durable)
    requires (cfg.asyncOn ==> v.started) && (cfg.journalOn ==> v.latest == Some(PreAck))
    ensures StageLegal(cfg, v, cmd.id, AfterDurable(cfg, cmd, a, deferred), u)
    ensures u.calls == (if Confirms(a.durable) then 1 else 0)
    ensures u.calls == 1 ==> u.outcomes == if OutcomeWritten(cfg, a) then 1 else 0
  {
    if Confirms(a.durable) {
      var called := v.(calls := 1);
      u := AfterCallView(cfg, called, a);
      CallIsLegal(cfg, called, cmd, a, deferred);
      StageThen(cfg, v, cmd.id, BrokerCalled(cmd.id), AfterCall(cfg, cmd, a, deferred), u);
    } else if cfg.journalOn && a.failureWritable {
      u := v.(latest := Some(SendFailed));
      StageThen(cfg, v, cmd.id, Journaled(Row(cmd.id, SendFailed)),
                Stage([], Returned(deferred + [Failed(cmd.id)])), u);
    } else {
      u := v;
    }
  }

  lemma PreAckIsLegal(cfg: Config, v: View, cmd: Command, a: Answers, deferred: seq<OutEvent>) returns (u: View)
    requires AllOf(deferred, cmd.id)
    requires v.calls == 0 && v.outcomes == 0 && !v.confirmed
    requires (cfg.asyncOn ==> v.started) && (cfg.journalOn ==> v.latest == Some(PreAck))
    ensures StageLegal(cfg, v, cmd.id, AfterPreAck(cfg, cmd, a, deferred), u)
    ensures u.calls == (if Confirms(a.durable) then 1 else 0)
    ensures u.calls == 1 ==> u.outcomes == if OutcomeWritten(cfg, a) then 1 else 0
  {
    if a.durable == NoCallback {
      u := DurableIsLegal(cfg, v, cmd, a, deferred);
    } else {
      var asked := v.(confirmed := Confirms(a.durable));
      u := DurableIsLegal(cfg, asked, cmd, a, deferred);
      StageThen(cfg, v, cmd.id, AskedDurable(cmd.id, Confirms(a.durable)), AfterDurable(cfg, cmd, a, deferred), u);
    }
  }

  // An order whose execution is tried, once the rate allows it.
  predicate Tried(cmd: Command, a: Answers) {
    && (cmd.kind == SendOrder || cmd.kind == CancelOrder)
    && !a.expired && a.safe && a.simulation
  }

  // The order's PRE_ACK row is on record, where there is a journal.
  predicate Prepared(cfg: Config, a: Answers, allowed: bool) {
    allowed && a.requestValid && (cfg.journalOn ==> a.preAckWritable)
  }

  predicate Called(cfg: Config, a: Answers, allowed: bool) {
    Prepared(cfg, a, allowed) && a.durable == Reply(true, true)
  }

  // The handler reaches the broker exactly when every gate before it is open.
  predicate ReachesBroker(cfg: Config, cmd: Command, a: Answers, allowed: bool) {
    Tried(cmd, a) && Called(cfg, a, allowed)
  }

  lemma StartIsLegal(cfg: Config, v: View, cmd: Command, a: Answers, deferred: seq<OutEvent>) returns (u: View)
    requires AllOf(deferred, cmd.id)
    requires v == UNSEEN.(started := v.started) && (cfg.asyncOn ==> v.started)
    ensures StageLegal(cfg, v, cmd.id, AfterStart(cfg, cmd, a, deferred), u)
    ensures u.calls == (if (cfg.journalOn ==> a.preAckWritable) && Confirms(a.durable) then 1 else 0)
    ensures u.calls == 1 ==> u.outcomes == if OutcomeWritten(cfg, a) then 1 else 0
  {
    if !cfg.journalOn {
      u := PreAckIsLegal(cfg, v, cmd, a, deferred);
    } else if a.preAckWritable {
      u := PreAckIsLegal(cfg, v.(latest := Some(PreAck)), cmd, a, deferred);
      StageThen(cfg, v, cmd.id, Journaled(Row(cmd.id, PreAck)), AfterPreAck(cfg, cmd, a, deferred), u);
    } else {
      u := v;
    }
  }

  lemma OrderIsLegal(cfg: Config, cmd: Command, a: Answers, allowed: bool) returns (u: View)
    requires IsOrder(cmd.kind)
    ensures StageLegal(cfg, UNSEEN, cmd.id, OrderStage(cfg, cmd, a, allowed), u)
    ensures u.calls == (if allowed && a.requestValid && (cfg.journalOn ==> a.preAckWritable)
                           && Confirms(a.durable) then 1 else 0)
    ensures u.calls == 1 ==> u.outcomes == if OutcomeWritten(cfg, a) then 1 else 0
  {
    var (now, deferred) := EmitBefore(cfg, Started(cmd.id));
    var v := UNSEEN.(started := cfg.asyncOn);
    if allowed && !a.requestValid {
      u := UNSEEN;
      return;
    }
    var rest := if allowed then AfterStart(cfg, cmd, a, deferred) else Stage([], Returned(deferred + [LimitedByRate(cmd.id)]));
    if allowed {
      u := StartIsLegal(cfg, v, cmd, a, deferred);
    } else {
      u := v;
    }
    if cfg.asyncOn {
      StageThen(cfg, UNSEEN, cmd.id, Published(Started(cmd.id)), rest, u);
      assert now + rest.effects == [Published(Started(cmd.id))] + rest.effects;
    } else {
      assert now + rest.effects == rest.effects;
    }
  }

  lemma NonOrderIsLegal(cfg: Config, cmd: Command, a: Answers, allowed: bool)
    ensures StageLegal(cfg, UNSEEN, cmd.id, NonOrderStage(cmd, a, allowed), UNSEEN)
  {
    if allowed && a.nonOrder.NonOrderReturns? {
      StageThen(cfg, UNSEEN, cmd.id, Recorded(RateType(cmd.kind), a.recordAt),
                Stage([], Returned(ReplyEvents(cmd.id, a.nonOrder.ok))), UNSEEN);
    }
  }

  lemma CheckedIsLegal(cfg: Config, lim: Limits, g: Governor, cmd: Command, a: Answers) returns (u: View)
    requires !Refuses(cmd, a)
    ensures StageLegal(cfg, UNSEEN, cmd.id, CheckedStage(cfg, lim, g, cmd, a), u)
    ensures var allowed := Decide(lim, g, RateType(cmd.kind), a.checkAt) == Allowed;
            u.calls == (if ReachesBroker(cfg, cmd, a, allowed) then 1 else 0)
    ensures u.calls == 1 ==> u.outcomes == if OutcomeWritten(cfg, a) then 1 else 0
  {
    var checked := Checked(RateType(cmd.kind), a.checkAt);
    var allowed := Decide(lim, g, RateType(cmd.kind), a.checkAt) == Allowed;
    if IsOrder(cmd.kind) {
      u := OrderIsLegal(cfg, cmd, a, allowed);
      StageThen(cfg, UNSEEN, cmd.id, checked, OrderStage(cfg, cmd, a, allowed), u);
    } else {
      u := UNSEEN;
      NonOrderIsLegal(cfg, cmd, a, allowed);
      StageThen(cfg, UNSEEN, cmd.id, checked, NonOrderStage(cmd, a, allowed), u);
    }
  }

  // Publishing what a legal stage hands back changes at most what is known to have started.
  lemma PublishedIsLegal(cfg: Config, id: string, s: Stage, u: View)
    requires StageLegal(cfg, UNSEEN, id, s, u)
    ensures var effects := s.effects + Publish(id, s.outcome); var v := UpdateAll(UNSEEN, id, effects);
            LegalFrom(cfg, UNSEEN, id, effects) && v.(started := u.started) == u
  {
    OutcomeIsLegal(cfg, u, id, s.outcome);
    LegalConcat(cfg, UNSEEN, id, s.effects, Publish(id, s.outcome));
  }

  // One handled command is legal from a fresh view, calls the broker at most once and only when
  // every gate is open, and then writes exactly one outcome row if one can be written.
  lemma HandleIsLegal(cfg: Config, lim: Limits, g: Governor, cmd: Command, a: Answers)
    ensures var effects := Handle(cfg, lim, g, cmd, a);
            var u := UpdateAll(UNSEEN, cmd.id, effects);
            var allowed := Decide(lim, g, RateType(cmd.kind), a.checkAt) == Allowed;
            && LegalFrom(cfg, UNSEEN, cmd.id, effects)
            && u.calls == (if ReachesBroker(cfg, cmd, a, allowed) then 1 else 0)
            && (u.calls == 1 ==> u.outcomes == if OutcomeWritten(cfg, a) then 1 else 0)
  {
    if Refuses(cmd, a) {
      LegalThen(cfg, UNSEEN, cmd.id, Published(Failed(cmd.id)), []);
    } else {
      var u := CheckedIsLegal(cfg, lim, g, cmd, a);
      PublishedIsLegal(cfg, cmd.id, CheckedStage(cfg, lim, g, cmd, a), u);
    }
  }

  // ---- runs --------------------------------------------------------------------------------

  datatype Round = Round(cmd: Command, a: Answers)

  function Idle(): System {
    System([], [], IDLE)
  }

  function RunAll(cfg: Config, lim: Limits, s: System, rounds: seq<Round>): System
    decreases rounds
  {
    if rounds == [] then s
    else RunAll(cfg, lim, Apply(lim, s, Handle(cfg, lim, s.g, rounds[0].cmd, rounds[0].a)), rounds[1..])
  }

  // Each command id is handled at most once.
  ghost predicate OncePerId(rounds: seq<Round>) {
    forall i, j :: 0 <= i < j < |rounds| ==> rounds[i].cmd.id != rounds[j].cmd.id
  }

  lemma ViewAppend(t: seq<Effect>, e: Effect, id: string)
    ensures ViewOf(t + [e], id) == Update(ViewOf(t, id), id, e)
  {
    assert (t + [e])[..|t|] == t;
  }

  lemma LegalAppend(cfg: Config, t: seq<Effect>, e: Effect)
    requires LegalTrace(cfg, t)
    requires Owner(e).Some? ==> Legal(cfg, ViewOf(t, Owner(e).value), e)
    ensures LegalTrace(cfg, t + [e])
  {
    var u := t + [e];
    forall k | 0 <= k < |u| && Owner(u[k]).Some?
      ensures Legal(cfg, ViewOf(u[..k], Owner(u[k]).value), u[k])
    {
      assert u[..k] == t[..k];
      assert k == |t| ==> t[..k] == t;
    }
  }

  lemma {:induction false} ApplyFacts(lim: Limits, s: System, effects: seq<Effect>)
    ensures Apply(lim, s, effects).trace == s.trace + effects
    ensures s.rows == Rows(s.trace) ==> Apply(lim, s, effects).rows == Rows(s.trace + effects)
    decreases effects
  {
    if effects == [] {
      assert s.trace + effects == s.trace;
    } else {
      var n := ApplyOne(lim, s, effects[0]);
      assert (s.trace + [effects[0]])[..|s.trace|] == s.trace;
      ApplyFacts(lim, n, effects[1..]);
      assert s.trace + [effects[0]] + effects[1..] == s.trace + effects;
    }
  }

  // The journal's content after a trace.
  function Rows(trace: seq<Effect>): seq<Row> {
    if trace == [] then []
    else Rows(trace[..|trace| - 1])
         + (if trace[|trace| - 1].Journaled? then [trace[|trace| - 1].row] else [])
  }

  lemma {:induction false} SegmentKeeps(cfg: Config, t: seq<Effect>, id: string, effects: seq<Effect>)
    requires LegalTrace(cfg, t) && LegalFrom(cfg, ViewOf(t, id), id, effects)
    ensures LegalTrace(cfg, t + effects)
    ensures ViewOf(t + effects, id) == UpdateAll(ViewOf(t, id), id, effects)
    ensures forall other :: other != id ==> ViewOf(t + effects, other) == ViewOf(t, other)
    decreases effects
  {
    if effects == [] {
      assert t + effects == t;
    } else {
      var e := effects[0];
      LegalAppend(cfg, t, e);
      ViewAppend(t, e, id);
      SegmentKeeps(cfg, t + [e], id, effects[1..]);
      assert t + [e] + effects[1..] == t + effects;
      forall other | other != id ensures ViewOf(t + effects, other) == ViewOf(t, other) {
        ViewAppend(t, e, other);
      }
    }
  }

  lemma {:induction false} RunIsLegal(cfg: Config, lim: Limits, s: System, rounds: seq<Round>)
    requires LegalTrace(cfg, s.trace) && s.rows == Rows(s.trace) && OncePerId(rounds)
    requires forall i :: 0 <= i < |rounds| ==> ViewOf(s.trace, rounds[i].cmd.id) == UNSEEN
    ensures var r := RunAll(cfg, lim, s, rounds);
            LegalTrace(cfg, r.trace) && r.rows == Rows(r.trace)
    decreases rounds
  {
    if rounds != [] {
      var effects := Handle(cfg, lim, s.g, rounds[0].cmd, rounds[0].a);
      HandleIsLegal(cfg, lim, s.g, rounds[0].cmd, rounds[0].a);
      SegmentKeeps(cfg, s.trace, rounds[0].cmd.id, effects);
      ApplyFacts(lim, s, effects);
      RunIsLegal(cfg, lim, Apply(lim, s, effects), rounds[1..]);
    }
  }

  // ---- what legality means -----------------------------------------------------------------

  ghost predicate Sound(cfg: Config, v: View) {
    && v.calls <= 1 && v.outcomes <= v.calls
    && (v.calls == 1 ==> v.confirmed)
    && (cfg.journalOn ==>
          && (v.calls == 1 && v.outcomes == 0 ==> v.latest == Some(PreAck))
          && (v.latest == Some(SendFailed) ==> v.calls == 0)
          && (v.latest.Some? ==> (AfterBroker(v.latest.value) <==> v.outcomes == 1)))
    && (v.latest == None ==> v.outcomes == 0)
  }

  lemma SoundStep(cfg: Config, v: View, id: string, e: Effect)
    requires Sound(cfg, v)
    requires Owner(e) == Some(id) ==> Legal(cfg, v, e)
    ensures Sound(cfg, Update(v, id, e))
  {
  }

  lemma {:induction false} LegalMeansSound(cfg: Config, t: seq<Effect>, id: string)
    requires LegalTrace(cfg, t)
    ensures Sound(cfg, ViewOf(t, id))
    decreases |t|
  {
    if t != [] {
      LegalPrefix(cfg, t, |t| - 1);
      LegalMeansSound(cfg, t[..|t| - 1], id);
      SoundStep(cfg, ViewOf(t[..|t| - 1], id), id, t[|t| - 1]);
    }
  }

  lemma LastStatusAppend(rows: seq<Row>, row: Row, id: string)
    ensures LastStatus(rows + [row], id) == if row.commandId == id then Some(row.status) else LastStatus(rows, id)
  {
    assert (rows + [row])[..|rows|] == rows;
  }

  lemma {:induction false} RowsMatchView(t: seq<Effect>, id: string)
    ensures LastStatus(Rows(t), id) == ViewOf(t, id).latest
    decreases |t|
  {
    if t != [] {
      var front, e := t[..|t| - 1], t[|t| - 1];
      RowsMatchView(front, id);
      if e.Journaled? {
        LastStatusAppend(Rows(front), e.row, id);
      } else {
        assert Rows(front) + [] == Rows(front);
      }
    }
  }

  lemma LegalPrefix(cfg: Config, t: seq<Effect>, k: nat)
    requires LegalTrace(cfg, t) && k <= |t|
    ensures LegalTrace(cfg, t[..k])
  {
    forall i | 0 <= i < k && Owner(t[i]).Some?
      ensures Legal(cfg, ViewOf(t[..k][..i], Owner(t[..k][i]).value), t[..k][i])
    {
      assert t[..k][..i] == t[..i];
    }
  }

  // Where each part of a view comes from.
  lemma {:induction false} StartedAt(t: seq<Effect>, id: string) returns (k: nat)
    requires ViewOf(t, id).started
    ensures k < |t| && t[k] == Published(Started(id))
    decreases |t|
  {
    k := |t| - 1;
    if t[k] != Published(Started(id)) {
      k := StartedAt(t[..k], id);
    }
  }

  lemma {:induction false} ConfirmedAt(t: seq<Effect>, id: string) returns (k: nat)
    requires ViewOf(t, id).confirmed
    ensures k < |t| && t[k] == AskedDurable(id, true)
    decreases |t|
  {
    k := |t| - 1;
    if t[k] != AskedDurable(id, true) {
      k := ConfirmedAt(t[..k], id);
    }
  }

  lemma {:induction false} LatestAt(t: seq<Effect>, id: string, s: Status) returns (k: nat)
    requires ViewOf(t, id).latest == Some(s)
    ensures k < |t| && t[k] == Journaled(Row(id, s))
    decreases |t|
  {
    k := |t| - 1;
    if t[k] != Journaled(Row(id, s)) {
      k := LatestAt(t[..k], id, s);
    }
  }

  lemma {:induction false} CalledIff(t: seq<Effect>, id: string)
    ensures ViewOf(t, id).calls > 0 <==> BrokerCalled(id) in t
  {
    if t != [] {
      CalledIff(t[..|t| - 1], id);
      assert t == t[..|t| - 1] + [t[|t| - 1]];
    }
  }

  // No outcome row has been written for the command.
  ghost predicate NoOutcomeRow(t: seq<Effect>, id: string) {
    forall k :: 0 <= k < |t| && t[k].Journaled? && t[k].row.commandId == id ==> !AfterBroker(t[k].row.status)
  }

  lemma {:induction false} OutcomeFree(t: seq<Effect>, id: string)
    requires NoOutcomeRow(t, id)
    ensures ViewOf(t, id).outcomes == 0
    decreases |t|
  {
    if t != [] {
      OutcomeFree(t[..|t| - 1], id);
    }
  }

  // ---- main results ------------------------------------------------------------------------

  // Every broker call in every run comes after the command's confirmed durable pre-ack, which
  // comes after its PRE_ACK row, which comes after its published start, as far as the journal
  // and immediate publishing are configured; and no command reaches the broker twice.
  lemma WriteAhead(cfg: Config, lim: Limits, rounds: seq<Round>, i: nat, id: string)
    returns (start: nat, row: nat, ask: nat)
    requires OncePerId(rounds)
    requires var t := RunAll(cfg, lim, Idle(), rounds).trace; i < |t| && t[i] == BrokerCalled(id)
    ensures var t := RunAll(cfg, lim, Idle(), rounds).trace;
            && ask < i && t[ask] == AskedDurable(id, true)
            && (cfg.journalOn ==> row < ask && t[row] == Journaled(Row(id, PreAck)))
            && (cfg.asyncOn ==> start < ask && t[start] == Published(Started(id)))
            && (cfg.journalOn && cfg.asyncOn ==> start < row)
            && BrokerCalled(id) !in t[..i]
  {
    RunIsLegal(cfg, lim, Idle(), rounds);
    start, row, ask := CallPrecededBy(cfg, RunAll(cfg, lim, Idle(), rounds).trace, i, id);
  }

  lemma CallPrecededBy(cfg: Config, t: seq<Effect>, i: nat, id: string)
    returns (start: nat, row: nat, ask: nat)
    requires LegalTrace(cfg, t) && i < |t| && t[i] == BrokerCalled(id)
    ensures ask < i && t[ask] == AskedDurable(id, true)
    ensures cfg.journalOn ==> row < ask && t[row] == Journaled(Row(id, PreAck))
    ensures cfg.asyncOn ==> start < ask && t[start] == Published(Started(id))
    ensures cfg.journalOn && cfg.asyncOn ==> start < row
    ensures BrokerCalled(id) !in t[..i]
  {
    assert Legal(cfg, ViewOf(t[..i], id), t[i]);
    CalledIff(t[..i], id);
    ask := ConfirmedAt(t[..i], id);
    assert t[ask] == AskedDurable(id, true);
    assert Legal(cfg, ViewOf(t[..ask], id), t[ask]);
    start, row := 0, ask;
    if cfg.journalOn {
      row := LatestAt(t[..ask], id, PreAck);
      assert t[row] == Journaled(Row(id, PreAck));
      assert Legal(cfg, ViewOf(t[..row], id), t[row]);
    }
    if cfg.asyncOn {
      start := StartedAt(t[..row], id);
    }
  }

  // Without immediate publishing the start event goes out only after the broker call.
  lemma StartHeldBack(cfg: Config, lim: Limits, g: Governor, cmd: Command, a: Answers, i: nat)
    requires !cfg.asyncOn
    requires var effects := Handle(cfg, lim, g, cmd, a);
             i < |effects| && effects[i] == BrokerCalled(cmd.id)
    ensures var effects := Handle(cfg, lim, g, cmd, a);
            Published(Started(cmd.id)) !in effects[..i]
  {
    if !Refuses(cmd, a) {
      var stage := CheckedStage(cfg, lim, g, cmd, a);
      StagePublishesNothing(cfg, lim, g, cmd, a);
      PublishCallsNoBroker(cmd.id, stage.outcome);
      CallInHead(stage.effects, Publish(cmd.id, stage.outcome), i, cmd.id);
    }
  }

  lemma CallInHead(head: seq<Effect>, tail: seq<Effect>, i: nat, id: string)
    requires i < |head + tail| && (head + tail)[i] == BrokerCalled(id)
    requires forall k :: 0 <= k < |tail| ==> tail[k].Published?
    requires forall e :: e in head ==> !e.Published?
    ensures Published(Started(id)) !in (head + tail)[..i]
  {
    if i >= |head| {
      assert false;
    }
    assert (head + tail)[..i] == head[..i];
    forall e | e in head[..i] ensures e in head {
    }
  }

  lemma {:induction false} PublishCallsNoBroker(id: string, o: Outcome)
    ensures forall k :: 0 <= k < |Publish(id, o)| ==> Publish(id, o)[k].Published?
  {
    if o.Returned? {
      PublishAllPublishes(o.events);
    }
  }

  lemma {:induction false} PublishAllPublishes(events: seq<OutEvent>)
    ensures forall k :: 0 <= k < |PublishAll(events)| ==> PublishAll(events)[k].Published?
  {
    if events != [] {
      PublishAllPublishes(events[..|events| - 1]);
    }
  }

  lemma StagePublishesNothing(cfg: Config, lim: Limits, g: Governor, cmd: Command, a: Answers)
    requires !cfg.asyncOn
    ensures forall e :: e in CheckedStage(cfg, lim, g, cmd, a).effects ==> !e.Published?
  {
  }

  // A run cut short between any two steps: recovery returns every command whose broker call began
  // without an outcome row, each once; it returns exactly the commands whose latest row is
  // PRE_ACK or BROKER_ACCEPTED; and a command marked SEND_FAILED never reached the broker.
  lemma CrashRecovery(cfg: Config, lim: Limits, rounds: seq<Round>, cut: nat, id: string)
    requires cfg.journalOn && OncePerId(rounds)
    requires cut <= |RunAll(cfg, lim, Idle(), rounds).trace|
    ensures var t := RunAll(cfg, lim, Idle(), rounds).trace[..cut];
            var rows := Rows(t);
            var back := Recovered(rows);
            && DistinctIds(back)
            && (forall r :: r in back <==>
                  LastStatus(rows, r.commandId) == Some(r.status) && (r.status == PreAck || r.status == BrokerAccepted))
            && (BrokerCalled(id) in t && NoOutcomeRow(t, id) ==> Row(id, PreAck) in back)
            && (LastStatus(rows, id) == Some(SendFailed) ==> BrokerCalled(id) !in t)
  {
    RunIsLegal(cfg, lim, Idle(), rounds);
    var trace := RunAll(cfg, lim, Idle(), rounds).trace;
    LegalPrefix(cfg, trace, cut);
    var t := trace[..cut];
    LegalMeansSound(cfg, t, id);
    RowsMatchView(t, id);
    CalledIff(t, id);
    if NoOutcomeRow(t, id) {
      OutcomeFree(t, id);
    }
    RecoveryIsLatestPending(Rows(t));
  }

  // SEND_FAILED is final: nothing is journalled and no broker is called after it.
  lemma SendFailedIsFinal(cfg: Config, lim: Limits, rounds: seq<Round>, i: nat, j: nat, id: string)
    requires OncePerId(rounds)
    requires var t := RunAll(cfg, lim, Idle(), rounds).trace;
             i < |t| && j < |t| && t[i] == Journaled(Row(id, SendFailed))
    ensures var t := RunAll(cfg, lim, Idle(), rounds).trace;
            t[j] != BrokerCalled(id) && (i < j && t[j].Journaled? ==> t[j].row.commandId != id)
  {
    RunIsLegal(cfg, lim, Idle(), rounds);
    var t := RunAll(cfg, lim, Idle(), rounds).trace;
    assert Legal(cfg, ViewOf(t[..i], id), t[i]);
    if j < i {
      CalledIff(t[..i], id);
      assert t[..i][j] == t[j];
    } else if i < j {
      FailedStays(cfg, t, i, j, id);
    }
  }

  lemma {:induction false} FailedStays(cfg: Config, t: seq<Effect>, i: nat, j: nat, id: string)
    requires LegalTrace(cfg, t) && cfg.journalOn && i < j < |t| && t[i] == Journaled(Row(id, SendFailed))
    ensures ViewOf(t[..j], id).latest == Some(SendFailed)
    ensures t[j] != BrokerCalled(id) && (t[j].Journaled? ==> t[j].row.commandId != id)
    decreases j
  {
    assert t[..j] == t[..j - 1] + [t[j - 1]];
    ViewAppend(t[..j - 1], t[j - 1], id);
    if i < j - 1 {
      FailedStays(cfg, t, i, j - 1, id);
    }
    assert Owner(t[j]) == Some(id) ==> Legal(cfg, ViewOf(t[..j], id), t[j]);
  }
}
