// Orders waiting for broker callbacks: three indexes over the same records.

module PendingOrders {

  datatype Option<T> = None | Some(value: T)

  datatype Signature = Signature(account: string, code: string, side: string)

  datatype Record = Record(commandId: string, idempotencyKey: string, sig: Signature)

  datatype EventKind = OrderFill | OrderCancelled | OrderRejected | OtherEvent

  // A broker callback's payload: text is stripped, codes are normalised, sides are upper case.
  datatype Payload = Payload(
    commandId: string,
    brokerNo: string,
    sig: Signature,
    kind: EventKind,
    remaining: Option<int>)

  datatype Registry = Registry(
    byCommandId: map<string, Record>,
    bySignature: map<Signature, seq<Record>>,
    byBrokerNo: map<string, Record>)

  const NO_ORDERS := Registry(map[], map[], map[])

  predicate Complete(s: Signature) {
    s.account != "" && s.code != "" && s.side != ""
  }

  predicate Terminal(p: Payload) {
    || p.kind == OrderCancelled || p.kind == OrderRejected
    || (p.kind == OrderFill && p.remaining == Some(0))
  }

  function Bucket(g: Registry, s: Signature): seq<Record> {
    if s in g.bySignature then g.bySignature[s] else []
  }

  predicate HasCommand(records: seq<Record>, id: string) {
    exists i :: 0 <= i < |records| && records[i].commandId == id
  }

  function Acked(g: Registry, r: Record, orderNo: string): Registry {
    var bucket := Bucket(g, r.sig);
    Registry(
      g.byCommandId[r.commandId := r],
      g.bySignature[r.sig := if HasCommand(bucket, r.commandId) then bucket else bucket + [r]],
      if orderNo != "" then g.byBrokerNo[orderNo := r] else g.byBrokerNo)
  }

  function BySignature(g: Registry, s: Signature): Option<Record> {
    if Complete(s) && |Bucket(g, s)| == 1 then Some(Bucket(g, s)[0]) else None
  }

  // Command id first, then broker number, then an unambiguous signature.
  function Match(g: Registry, p: Payload): Option<Record> {
    if p.commandId != "" && p.commandId in g.byCommandId then Some(g.byCommandId[p.commandId])
    else if p.brokerNo != "" && p.brokerNo in g.byBrokerNo then Some(g.byBrokerNo[p.brokerNo])
    else BySignature(g, p.sig)
  }

  function Enriched(g: Registry, p: Payload): Payload {
    match Match(g, p)
    case None => p
    case Some(r) => p.(commandId := r.commandId)
  }

  function AfterEnrich(g: Registry, p: Payload): Registry {
    match Match(g, p)
    case None => g
    case Some(r) => if p.brokerNo != "" then g.(byBrokerNo := g.byBrokerNo[p.brokerNo := r]) else g
  }

  // A terminal callback drops the record under its number, its command and its signature.
  function AfterApply(g: Registry, p: Payload): Registry {
    if p.brokerNo != "" && Terminal(p) && p.brokerNo in g.byBrokerNo then
      var r := g.byBrokerNo[p.brokerNo];
      Registry(g.byCommandId - {r.commandId}, g.bySignature - {r.sig}, g.byBrokerNo - {p.brokerNo})
    else g
  }

  function AfterChejan(g: Registry, p: Payload): Registry {
    AfterApply(AfterEnrich(g, p), Enriched(g, p))
  }

  // The command id on the execution event; the chejan event's when nothing matches any more.
  function ExecutionCommandId(g: Registry, p: Payload, exec: Payload): string {
    match Match(AfterChejan(g, p), exec)
    case None => Enriched(g, p).commandId
    case Some(r) => if r.commandId != "" then r.commandId else Enriched(g, p).commandId
  }

  class PendingOrderRegistry {
    var byCommandId: map<string, Record>
    var bySignature: map<Signature, seq<Record>>
    var byBrokerNo: map<string, Record>

    ghost function Model(): Registry
      reads this
    {
      Registry(byCommandId, bySignature, byBrokerNo)
    }

    constructor ()
      ensures Model() == NO_ORDERS
    {
      byCommandId, bySignature, byBrokerNo := map[], map[], map[];
    }

    method RecordAck(r: Record, orderNo: string)
      modifies this
      ensures Model() == Acked(old(Model()), r, orderNo)
    {
      byCommandId := byCommandId[r.commandId := r];
      var records := if r.sig in bySignature then bySignature[r.sig] else [];
      var known := false;
      for i := 0 to |records|
        invariant known == HasCommand(records[..i], r.commandId)
      {
        if records[i].commandId == r.commandId {
          known := true;
        }
        assert known == HasCommand(records[..i + 1], r.commandId) by {
          if HasCommand(records[..i], r.commandId) {
            var k :| 0 <= k < i && records[..i][k].commandId == r.commandId;
            assert records[..i + 1][k].commandId == r.commandId;
          }
          if records[i].commandId == r.commandId {
            assert records[..i + 1][i].commandId == r.commandId;
          }
        }
      }
      assert records[..|records|] == records;
      if !known {
        records := records + [r];
      }
      bySignature := bySignature[r.sig := records];
      if orderNo != "" {
        byBrokerNo := byBrokerNo[orderNo := r];
      }
    }

    method MatchPayload(p: Payload) returns (r: Option<Record>)
      ensures r == Match(Model(), p)
    {
      if p.commandId != "" && p.commandId in byCommandId {
        return Some(byCommandId[p.commandId]);
      }
      if p.brokerNo != "" && p.brokerNo in byBrokerNo {
        return Some(byBrokerNo[p.brokerNo]);
      }
      if !Complete(p.sig) {
        return None;
      }
      var records := if p.sig in bySignature then bySignature[p.sig] else [];
      return if |records| == 1 then Some(records[0]) else None;
    }

    method EnrichChejanPayload(p: Payload) returns (enriched: Payload)
      modifies this
      ensures Model() == AfterEnrich(old(Model()), p) && enriched == Enriched(old(Model()), p)
    {
      enriched := p;
      var r := MatchPayload(p);
      if r.Some? {
        if p.brokerNo != "" {
          byBrokerNo := byBrokerNo[p.brokerNo := r.value];
        }
        enriched := p.(commandId := r.value.commandId);
      }
    }

    method ApplyChejanPayload(p: Payload)
      modifies this
      ensures Model() == AfterApply(old(Model()), p)
    {
      if p.brokerNo == "" {
        return;
      }
      if Terminal(p) && p.brokerNo in byBrokerNo {
        var r := byBrokerNo[p.brokerNo];
        byBrokerNo := byBrokerNo - {p.brokerNo};
        byCommandId := byCommandId - {r.commandId};
        bySignature := bySignature - {r.sig};
      }
    }

    // The runtime's chejan callback: the ids its two events carry.
    method OnChejanResult(p: Payload, exec: Option<Payload>) returns (chejanId: string, execId: Option<string>)
      modifies this
      ensures Model() == AfterChejan(old(Model()), p)
      ensures chejanId == Enriched(old(Model()), p).commandId
      ensures execId == if exec.None? then None else Some(ExecutionCommandId(old(Model()), p, exec.value))
    {
      var enriched := EnrichChejanPayload(p);
      ApplyChejanPayload(enriched);
      chejanId := enriched.commandId;
      execId := None;
      if exec.Some? {
        var r := MatchPayload(exec.value);
        execId := Some(if r.Some? && r.value.commandId != "" then r.value.commandId else chejanId);
      }
    }
  }

  // ---- runs ----------------------------------------------------------------------------

  datatype Step = Ack(r: Record, orderNo: string) | Chejan(p: Payload)

  datatype Run = Run(g: Registry, acked: set<string>)

  // Each command id is acknowledged once.
  predicate Enabled(r: Run, s: Step) {
    s.Ack? ==> s.r.commandId !in r.acked && s.r.commandId != ""
  }

  function Next(r: Run, s: Step): Run {
    match s
    case Ack(rec, no) => Run(Acked(r.g, rec, no), r.acked + {rec.commandId})
    case Chejan(p) => r.(g := AfterChejan(r.g, p))
  }

  predicate Admissible(r: Run, steps: seq<Step>)
    decreases steps
  {
    steps == [] || (Enabled(r, steps[0]) && Admissible(Next(r, steps[0]), steps[1..]))
  }

  function Execute(r: Run, steps: seq<Step>): Run
    decreases steps
  {
    if steps == [] then r else Execute(Next(r, steps[0]), steps[1..])
  }

  // Every bucket record is the one its command id maps to and sits under its own signature.
  ghost predicate Consistent(g: Registry) {
    && (forall c :: c in g.byCommandId ==> g.byCommandId[c].commandId == c)
    && (forall s :: s in g.bySignature ==> forall i :: 0 <= i < |g.bySignature[s]| ==>
          var r := g.bySignature[s][i];
          r.sig == s && r.commandId in g.byCommandId && g.byCommandId[r.commandId] == r)
    && (forall s :: s in g.bySignature ==> forall i, j :: 0 <= i < j < |g.bySignature[s]| ==>
          g.bySignature[s][i] != g.bySignature[s][j])
  }

  ghost predicate Inv(r: Run) {
    && Consistent(r.g)
    && (forall c :: c in r.g.byCommandId ==> c in r.acked && c != "")
    && (forall n :: n in r.g.byBrokerNo ==>
          n != "" && r.g.byBrokerNo[n].commandId in r.acked && r.g.byBrokerNo[n].commandId != "")
    && (forall n :: n in r.g.byBrokerNo && r.g.byBrokerNo[n].commandId in r.g.byCommandId ==>
          r.g.byCommandId[r.g.byBrokerNo[n].commandId] == r.g.byBrokerNo[n])
  }

  lemma MatchIsKnown(r: Run, p: Payload)
    requires Inv(r) && Match(r.g, p).Some?
    ensures var m := Match(r.g, p).value;
            && m.commandId in r.acked && m.commandId != ""
            && (m.commandId in r.g.byCommandId ==> r.g.byCommandId[m.commandId] == m)
  {
  }

  lemma AckKeeps(r: Run, rec: Record, no: string)
    requires Inv(r) && Enabled(r, Ack(rec, no))
    ensures Inv(Next(r, Ack(rec, no)))
  {
    var n := Next(r, Ack(rec, no));
    var bucket := Bucket(r.g, rec.sig);
    assert !HasCommand(bucket, rec.commandId);
    forall s | s in n.g.bySignature
      ensures forall i :: 0 <= i < |n.g.bySignature[s]| ==>
          var x := n.g.bySignature[s][i];
          x.sig == s && x.commandId in n.g.byCommandId && n.g.byCommandId[x.commandId] == x
      ensures forall i, j :: 0 <= i < j < |n.g.bySignature[s]| ==> n.g.bySignature[s][i] != n.g.bySignature[s][j]
    {
      if s != rec.sig {
        assert s in r.g.bySignature && n.g.bySignature[s] == r.g.bySignature[s];
      }
    }
  }

  lemma ChejanKeeps(r: Run, p: Payload)
    requires Inv(r)
    ensures Inv(Next(r, Chejan(p)))
  {
    if Match(r.g, p).Some? {
      MatchIsKnown(r, p);
    }
    EnrichKeeps(r, p);
    ApplyKeeps(r.(g := AfterEnrich(r.g, p)), Enriched(r.g, p));
  }

  lemma EnrichKeeps(r: Run, p: Payload)
    requires Inv(r)
    ensures Inv(r.(g := AfterEnrich(r.g, p)))
  {
    if Match(r.g, p).Some? {
      MatchIsKnown(r, p);
    }
  }

  lemma ApplyKeeps(r: Run, p: Payload)
    requires Inv(r)
    ensures Inv(r.(g := AfterApply(r.g, p)))
  {
  }

  lemma {:induction false} EveryRun(r: Run, steps: seq<Step>)
    requires Inv(r) && Admissible(r, steps)
    ensures Inv(Execute(r, steps))
    decreases steps
  {
    if steps != [] {
      match steps[0] {
        case Ack(rec, no) => AckKeeps(r, rec, no);
        case Chejan(p) => ChejanKeeps(r, p);
      }
      EveryRun(Next(r, steps[0]), steps[1..]);
    }
  }

  lemma IndexesAgree(steps: seq<Step>)
    requires Admissible(Run(NO_ORDERS, {}), steps)
    ensures Consistent(Execute(Run(NO_ORDERS, {}), steps).g)
  {
    EveryRun(Run(NO_ORDERS, {}), steps);
  }

  function Reached(steps: seq<Step>): Registry
    requires Admissible(Run(NO_ORDERS, {}), steps)
  {
    Execute(Run(NO_ORDERS, {}), steps).g
  }

  lemma ForgottenBy(r: Run, p: Payload, q: Payload)
    requires Inv(r) && p.brokerNo != "" && Terminal(p) && Match(r.g, p).Some?
    ensures var rec := Match(r.g, p).value; var g := AfterChejan(r.g, p);
            && p.brokerNo !in g.byBrokerNo && rec.commandId !in g.byCommandId && rec.sig !in g.bySignature
            && (Match(g, q) == Some(rec) <==>
                  && (q.commandId == "" || q.commandId !in g.byCommandId)
                  && q.brokerNo != p.brokerNo && q.brokerNo != ""
                  && q.brokerNo in r.g.byBrokerNo && r.g.byBrokerNo[q.brokerNo] == rec)
  {
    var g := AfterChejan(r.g, p);
    ChejanKeeps(r, p);
    assert q.commandId in g.byCommandId ==> g.byCommandId[q.commandId].commandId == q.commandId;
  }

  // After a terminal callback, in any run, a payload still finds the record exactly when it names
  // another broker number that was mapped to it; never by this number, its command id or its
  // signature.
  lemma TerminalForgets(steps: seq<Step>, p: Payload, q: Payload)
    requires Admissible(Run(NO_ORDERS, {}), steps)
    requires p.brokerNo != "" && Terminal(p) && Match(Reached(steps), p).Some?
    ensures var was := Reached(steps); var rec := Match(was, p).value; var g := AfterChejan(was, p);
            && p.brokerNo !in g.byBrokerNo && rec.commandId !in g.byCommandId && rec.sig !in g.bySignature
            && (Match(g, q) == Some(rec) <==>
                  && (q.commandId == "" || q.commandId !in g.byCommandId)
                  && q.brokerNo != p.brokerNo && q.brokerNo != ""
                  && q.brokerNo in was.byBrokerNo && was.byBrokerNo[q.brokerNo] == rec)
  {
    EveryRun(Run(NO_ORDERS, {}), steps);
    ForgottenBy(Execute(Run(NO_ORDERS, {}), steps), p, q);
  }

  lemma ExecutionIdDiffers(r: Run, p: Payload, exec: Payload)
    requires Inv(r)
    requires exec.commandId == "" && exec.brokerNo == p.brokerNo && p.brokerNo != ""
    ensures var m := Match(r.g, p);
            ExecutionCommandId(r.g, p, exec) != Enriched(r.g, p).commandId <==>
              && (m.None? || Terminal(p))
              && (m.Some? ==> exec.sig != m.value.sig)
              && Complete(exec.sig) && |Bucket(r.g, exec.sig)| == 1
  {
    ChejanKeeps(r, p);
    var m := Match(r.g, p);
    if m.Some? {
      MatchIsKnown(r, p);
    }
    if Complete(exec.sig) && |Bucket(r.g, exec.sig)| == 1 {
      var x := Bucket(r.g, exec.sig)[0];
      assert x.sig == exec.sig && r.g.byCommandId[x.commandId] == x && x.commandId != "";
    }
  }

  // The two events of one callback differ in command id exactly when the chejan event matched
  // nothing, or removed its record, and the execution's own signature then singles out another.
  lemma ExecutionIdAgreesIff(steps: seq<Step>, p: Payload, exec: Payload)
    requires Admissible(Run(NO_ORDERS, {}), steps)
    requires exec.commandId == "" && exec.brokerNo == p.brokerNo && p.brokerNo != ""
    ensures var g := Reached(steps); var m := Match(g, p);
            ExecutionCommandId(g, p, exec) != Enriched(g, p).commandId <==>
              && (m.None? || Terminal(p))
              && (m.Some? ==> exec.sig != m.value.sig)
              && Complete(exec.sig) && |Bucket(g, exec.sig)| == 1
  {
    EveryRun(Run(NO_ORDERS, {}), steps);
    ExecutionIdDiffers(Execute(Run(NO_ORDERS, {}), steps), p, exec);
  }

  // It happens: one acknowledged order, a callback of an unknown number whose own signature is
  // incomplete, and an execution that carries the order's signature.
  lemma IdsCanDiffer(r: Record, orderNo: string, p: Payload, exec: Payload)
    requires r.commandId != "" && Complete(r.sig)
    requires p.commandId == "" && p.brokerNo != "" && p.brokerNo != orderNo && !Complete(p.sig)
    requires exec.commandId == "" && exec.brokerNo == p.brokerNo && exec.sig == r.sig
    ensures var steps := [Ack(r, orderNo)];
            && Admissible(Run(NO_ORDERS, {}), steps)
            && Match(Reached(steps), p).None?
            && Enriched(Reached(steps), p).commandId == ""
            && ExecutionCommandId(Reached(steps), p, exec) == r.commandId
  {
    var steps := [Ack(r, orderNo)];
    var n := Next(Run(NO_ORDERS, {}), steps[0]);
    assert steps[1..] == [];
    assert Admissible(n, []) && Execute(n, []) == n;
    assert Bucket(n.g, r.sig) == [r];
  }

  // When the broker reports the order's own account, code and side, both events carry one id,
  // even if the fill has just removed the record.
  lemma OwnSignatureAgrees(steps: seq<Step>, p: Payload, exec: Payload)
    requires Admissible(Run(NO_ORDERS, {}), steps)
    requires exec.commandId == "" && exec.brokerNo == p.brokerNo && p.brokerNo != ""
    requires match Match(Reached(steps), p) case Some(rec) => exec.sig == rec.sig case None => exec.sig == p.sig
    ensures ExecutionCommandId(Reached(steps), p, exec) == Enriched(Reached(steps), p).commandId
  {
    ExecutionIdAgreesIff(steps, p, exec);
  }
}
