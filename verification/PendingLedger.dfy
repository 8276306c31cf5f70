// What a callback finds, told from the acknowledgements and callbacks so far instead of the indexes.

module PendingLedger {
  import opened PendingOrders

  // A cancelled, rejected or completely filled order.
  predicate Ends(p: Payload) {
    p.kind == OrderCancelled || p.kind == OrderRejected || (p.kind == OrderFill && p.remaining == Some(0))
  }

  // The order acknowledged under this command id, while no callback has ended it.
  function Issued(steps: seq<Step>, id: string): Option<Record>
    decreases |steps|, 0
  {
    if steps == [] then None
    else
      var front := steps[..|steps| - 1];
      match steps[|steps| - 1]
      case Ack(r, _) => if r.commandId == id then Some(r) else Issued(front, id)
      case Chejan(p) =>
        var gone := Ended(front, p);
        if gone.Some? && gone.value.commandId == id then None else Issued(front, id)
  }

  // The order a broker number stands for: the last one acknowledged under it or found by a callback
  // that carried it, until a callback under it ends an order.
  function Numbered(steps: seq<Step>, no: string): Option<Record>
    decreases |steps|, 0
  {
    if steps == [] || no == "" then None
    else
      var front := steps[..|steps| - 1];
      match steps[|steps| - 1]
      case Ack(r, n) => if n == no then Some(r) else Numbered(front, no)
      case Chejan(p) =>
        if p.brokerNo != no then Numbered(front, no) else if Ends(p) then None else Found(front, p)
  }

  // The orders of one account, code and side since one of them ended.
  function Waiting(steps: seq<Step>, s: Signature): seq<Record>
    decreases |steps|, 0
  {
    if steps == [] then []
    else
      var front := steps[..|steps| - 1];
      match steps[|steps| - 1]
      case Ack(r, _) => if r.sig == s then Waiting(front, s) + [r] else Waiting(front, s)
      case Chejan(p) =>
        var gone := Ended(front, p);
        if gone.Some? && gone.value.sig == s then [] else Waiting(front, s)
  }

  // By command id, else by number, else as the only waiting order of that account, code and side.
  function Found(steps: seq<Step>, p: Payload): Option<Record>
    decreases |steps|, 1
  {
    if p.commandId != "" && Issued(steps, p.commandId).Some? then Issued(steps, p.commandId)
    else if Numbered(steps, p.brokerNo).Some? then Numbered(steps, p.brokerNo)
    else if p.sig.account != "" && p.sig.code != "" && p.sig.side != "" && |Waiting(steps, p.sig)| == 1 then
      Some(Waiting(steps, p.sig)[0])
    else None
  }

  function Ended(steps: seq<Step>, p: Payload): Option<Record>
    decreases |steps|, 2
  {
    if p.brokerNo != "" && Ends(p) then Found(steps, p) else None
  }

  // ---- the indexes hold the ledger ------------------------------------------------------------

  function Lookup<K(==)>(m: map<K, Record>, k: K): Option<Record> {
    if k in m then Some(m[k]) else None
  }

  ghost predicate Holds(g: Registry, steps: seq<Step>) {
    && (forall id :: Lookup(g.byCommandId, id) == Issued(steps, id))
    && (forall no :: Lookup(g.byBrokerNo, no) == Numbered(steps, no))
    && (forall s :: Bucket(g, s) == Waiting(steps, s))
  }

  lemma MatchIsFound(g: Registry, steps: seq<Step>, p: Payload)
    requires Holds(g, steps)
    ensures Match(g, p) == Found(steps, p)
  {
    assert Lookup(g.byCommandId, p.commandId) == Issued(steps, p.commandId);
    assert Lookup(g.byBrokerNo, p.brokerNo) == Numbered(steps, p.brokerNo);
    assert Bucket(g, p.sig) == Waiting(steps, p.sig);
  }

  lemma AckHolds(r: Run, steps: seq<Step>, rec: Record, no: string)
    requires Inv(r) && Enabled(r, Ack(rec, no)) && Holds(r.g, steps)
    ensures Holds(Next(r, Ack(rec, no)).g, steps + [Ack(rec, no)])
  {
    var all := steps + [Ack(rec, no)];
    assert all[..|steps|] == steps;
    assert !HasCommand(Bucket(r.g, rec.sig), rec.commandId);
  }

  lemma ChejanHolds(r: Run, steps: seq<Step>, p: Payload)
    requires Inv(r) && Holds(r.g, steps)
    ensures Holds(Next(r, Chejan(p)).g, steps + [Chejan(p)])
  {
    var all := steps + [Chejan(p)];
    assert all[..|steps|] == steps;
    MatchIsFound(r.g, steps, p);
  }

  lemma {:induction false} RunHolds(r: Run, past: seq<Step>, steps: seq<Step>)
    requires Inv(r) && Holds(r.g, past) && Admissible(r, steps)
    ensures Holds(Execute(r, steps).g, past + steps)
    decreases steps
  {
    if steps == [] {
      assert past + steps == past;
    } else {
      match steps[0] {
        case Ack(rec, no) => AckKeeps(r, rec, no); AckHolds(r, past, rec, no);
        case Chejan(p) => ChejanKeeps(r, p); ChejanHolds(r, past, p);
      }
      RunHolds(Next(r, steps[0]), past + [steps[0]], steps[1..]);
      assert past + [steps[0]] + steps[1..] == past + steps;
    }
  }

  // In every run a payload finds exactly the order the ledger names, and each index holds the ledger.
  lemma FoundByLedger(steps: seq<Step>, p: Payload)
    requires Admissible(Run(NO_ORDERS, {}), steps)
    ensures Match(Reached(steps), p) == Found(steps, p) && Holds(Reached(steps), steps)
  {
    RunHolds(Run(NO_ORDERS, {}), [], steps);
    assert [] + steps == steps;
    MatchIsFound(Reached(steps), steps, p);
  }

  // ---- how long an acknowledgement is found ---------------------------------------------------

  // Since step `at` no other order took the number and no callback under it ended one.
  ghost predicate NumberKept(steps: seq<Step>, at: nat, r: Record, no: string) {
    forall k :: at < k < |steps| ==>
      match steps[k]
      case Ack(_, n) => n != no
      case Chejan(q) => q.brokerNo == no ==> !Ends(q) && Found(steps[..k], q) == Some(r)
  }

  // Since step `at` no callback ended the order.
  ghost predicate NotEnded(steps: seq<Step>, at: nat, id: string) {
    forall k :: at < k < |steps| && steps[k].Chejan? && Ended(steps[..k], steps[k].p).Some?
           ==> Ended(steps[..k], steps[k].p).value.commandId != id
  }

  lemma {:induction false} NumberStays(steps: seq<Step>, at: nat, r: Record, no: string)
    requires at < |steps| && steps[at] == Ack(r, no) && no != "" && NumberKept(steps, at, r, no)
    ensures Numbered(steps, no) == Some(r)
    decreases |steps|
  {
    var last := |steps| - 1;
    if at < last {
      var front := steps[..last];
      forall k | at < k < |front| ensures front[..k] == steps[..k] {
      }
      NumberStays(front, at, r, no);
    }
  }

  ghost predicate AckedOnceAt(steps: seq<Step>, at: nat, r: Record) {
    && at < |steps| && steps[at].Ack? && steps[at].r == r
    && forall k :: 0 <= k < |steps| && k != at && steps[k].Ack? ==> steps[k].r.commandId != r.commandId
  }

  lemma {:induction false} IssuedIff(steps: seq<Step>, at: nat, r: Record)
    requires AckedOnceAt(steps, at, r)
    ensures Issued(steps, r.commandId) == if NotEnded(steps, at, r.commandId) then Some(r) else None
    decreases |steps|
  {
    var last := |steps| - 1;
    if at < last {
      var front := steps[..last];
      forall k | at < k < |front| ensures front[..k] == steps[..k] {
      }
      IssuedIff(front, at, r);
      NotEndedSplit(steps, at, r.commandId);
    }
  }

  lemma NotEndedSplit(steps: seq<Step>, at: nat, id: string)
    requires at < |steps| - 1
    ensures var front := steps[..|steps| - 1]; var s := steps[|steps| - 1];
            NotEnded(steps, at, id) <==>
            NotEnded(front, at, id) && (s.Chejan? && Ended(front, s.p).Some? ==> Ended(front, s.p).value.commandId != id)
  {
    var front := steps[..|steps| - 1];
    forall k | at < k < |front| ensures front[..k] == steps[..k] && front[k] == steps[k] {
    }
    if NotEnded(steps, at, id) {
      forall k | at < k < |front| && front[k].Chejan? && Ended(front[..k], front[k].p).Some?
        ensures Ended(front[..k], front[k].p).value.commandId != id
      {
        assert steps[k].Chejan?;
      }
    }
  }

  lemma {:induction false} AckedStays(r: Run, steps: seq<Step>, id: string)
    requires Admissible(r, steps) && id in r.acked
    ensures forall k :: 0 <= k < |steps| && steps[k].Ack? ==> steps[k].r.commandId != id
    decreases steps
  {
    if steps != [] {
      AckedStays(Next(r, steps[0]), steps[1..], id);
      assert forall k :: 0 < k < |steps| ==> steps[k] == steps[1..][k - 1];
    }
  }

  lemma {:induction false} AckedOnce(r: Run, steps: seq<Step>, at: nat)
    requires Admissible(r, steps) && at < |steps| && steps[at].Ack?
    ensures AckedOnceAt(steps, at, steps[at].r)
    decreases steps
  {
    var n := Next(r, steps[0]);
    assert forall k :: 0 < k < |steps| ==> steps[k] == steps[1..][k - 1];
    if at == 0 {
      AckedStays(n, steps[1..], steps[0].r.commandId);
    } else {
      AckedOnce(n, steps[1..], at - 1);
      if steps[0].Ack? {
        AckedStays(n, steps[1..], steps[0].r.commandId);
      }
    }
  }

  // Once acknowledged, an order is found by its command id exactly until a callback ends it; and by
  // its number, when the payload names no order by command id, as long as nothing takes the number.
  lemma AcknowledgedIsFound(steps: seq<Step>, at: nat, p: Payload)
    requires Admissible(Run(NO_ORDERS, {}), steps) && at < |steps| && steps[at].Ack?
    ensures var r := steps[at].r; var g := Reached(steps);
            && (p.commandId == r.commandId && NotEnded(steps, at, r.commandId) ==> Match(g, p) == Some(r))
            && (r.commandId in g.byCommandId <==> NotEnded(steps, at, r.commandId))
            && (p.brokerNo == steps[at].orderNo != "" && p.commandId !in g.byCommandId && NumberKept(steps, at, r, p.brokerNo)
                ==> Match(g, p) == Some(r))
  {
    var r := steps[at].r;
    FoundByLedger(steps, p);
    EveryRun(Run(NO_ORDERS, {}), steps);
    AckedOnce(Run(NO_ORDERS, {}), steps, at);
    IssuedIff(steps, at, r);
    AckedNamed(Run(NO_ORDERS, {}), steps, at);
    assert Lookup(Reached(steps).byCommandId, r.commandId) == Issued(steps, r.commandId);
    assert Lookup(Reached(steps).byCommandId, p.commandId) == Issued(steps, p.commandId);
    if p.brokerNo == steps[at].orderNo != "" && NumberKept(steps, at, r, p.brokerNo) {
      NumberStays(steps, at, r, p.brokerNo);
    }
  }

  lemma {:induction false} AckedNamed(r: Run, steps: seq<Step>, at: nat)
    requires Admissible(r, steps) && at < |steps| && steps[at].Ack?
    ensures steps[at].r.commandId != ""
    decreases steps
  {
    if at > 0 {
      AckedNamed(Next(r, steps[0]), steps[1..], at - 1);
    }
  }

  // The chejan event carries the id of the order found before the callback, the execution event that
  // of the order its own payload finds after it, or else the chejan event's.
  lemma CallbackIds(steps: seq<Step>, p: Payload, exec: Payload)
    requires Admissible(Run(NO_ORDERS, {}), steps)
    ensures var g := Reached(steps);
            var chejanId := match Found(steps, p) case Some(r) => r.commandId case None => p.commandId;
            && Enriched(g, p).commandId == chejanId
            && ExecutionCommandId(g, p, exec)
               == match Found(steps + [Chejan(p)], exec) case Some(r) => r.commandId case None => chejanId
  {
    var r := Execute(Run(NO_ORDERS, {}), steps);
    FoundByLedger(steps, p);
    EveryRun(Run(NO_ORDERS, {}), steps);
    ChejanHolds(r, steps, p);
    ChejanKeeps(r, p);
    MatchIsFound(AfterChejan(r.g, p), steps + [Chejan(p)], exec);
    if Match(AfterChejan(r.g, p), exec).Some? {
      MatchIsKnown(Next(r, Chejan(p)), exec);
    }
  }
}
