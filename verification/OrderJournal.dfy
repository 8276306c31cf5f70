// The append-only order journal and its recovery by latest row.

module OrderJournal {

  datatype Option<T> = None | Some(value: T)

  datatype Status = PreAck | BrokerAccepted | BrokerRejected | SendFailed | Unconfirmed

  datatype Row = Row(commandId: string, status: Status)

  predicate Pending(s: Status) {
    s == PreAck || s == BrokerAccepted
  }

  // Rows written after the broker call.
  predicate AfterBroker(s: Status) {
    s == BrokerAccepted || s == BrokerRejected || s == Unconfirmed
  }

  function LastStatus(rows: seq<Row>, id: string): Option<Status> {
    if rows == [] then None
    else if rows[|rows| - 1].commandId == id then Some(rows[|rows| - 1].status)
    else LastStatus(rows[..|rows| - 1], id)
  }

  function IndexOf(rows: seq<Row>, id: string): (i: nat)
    ensures i <= |rows|
    ensures i < |rows| ==> rows[i].commandId == id
  {
    if rows == [] || rows[0].commandId == id then 0 else 1 + IndexOf(rows[1..], id)
  }

  // A dictionary keyed by command id: an overwritten key keeps its place.
  function Put(latest: seq<Row>, row: Row): seq<Row> {
    var i := IndexOf(latest, row.commandId);
    if i < |latest| then latest[i := row] else latest + [row]
  }

  function Latest(rows: seq<Row>): seq<Row> {
    if rows == [] then [] else Put(Latest(rows[..|rows| - 1]), rows[|rows| - 1])
  }

  function PendingOnly(rows: seq<Row>): seq<Row> {
    if rows == [] then []
    else PendingOnly(rows[..|rows| - 1]) + (if Pending(rows[|rows| - 1].status) then [rows[|rows| - 1]] else [])
  }

  function Recovered(rows: seq<Row>): seq<Row> {
    PendingOnly(Latest(rows))
  }

  class OrderPreAckJournal {
    var rows: seq<Row>

    constructor ()
      ensures rows == []
    {
      rows := [];
    }

    // An append either writes one whole row or raises and writes nothing.
    method Append(row: Row, writable: bool) returns (written: bool)
      modifies this
      ensures written == writable
      ensures rows == if written then old(rows) + [row] else old(rows)
    {
      if writable {
        rows := rows + [row];
      }
      return writable;
    }

    method PendingRecords() returns (pending: seq<Row>)
      ensures pending == Recovered(rows)
    {
      var latest: seq<Row> := [];
      for n := 0 to |rows|
        invariant latest == Latest(rows[..n])
      {
        assert rows[..n + 1][..n] == rows[..n];
        latest := PutLatest(latest, rows[n]);
      }
      assert rows[..|rows|] == rows;
      pending := [];
      for n := 0 to |latest|
        invariant pending == PendingOnly(latest[..n])
      {
        assert latest[..n + 1][..n] == latest[..n];
        if Pending(latest[n].status) {
          pending := pending + [latest[n]];
        }
      }
      assert latest[..|latest|] == latest;
    }

    static method PutLatest(latest: seq<Row>, row: Row) returns (r: seq<Row>)
      ensures r == Put(latest, row)
    {
      var i := 0;
      while i < |latest| && latest[i].commandId != row.commandId
        invariant i <= |latest|
        invariant IndexOf(latest, row.commandId) == i + IndexOf(latest[i..], row.commandId)
      {
        i := i + 1;
      }
      return if i < |latest| then latest[i := row] else latest + [row];
    }
  }

  // ---- recovery --------------------------------------------------------------------------

  ghost predicate DistinctIds(rows: seq<Row>) {
    forall i, j :: 0 <= i < j < |rows| ==> rows[i].commandId != rows[j].commandId
  }

  lemma {:induction false} IndexOfMissing(rows: seq<Row>, id: string)
    ensures IndexOf(rows, id) == |rows| ==> forall r :: r in rows ==> r.commandId != id
  {
    if rows != [] && rows[0].commandId != id {
      IndexOfMissing(rows[1..], id);
    }
  }

  lemma PutFacts(latest: seq<Row>, row: Row)
    requires DistinctIds(latest)
    ensures DistinctIds(Put(latest, row))
    ensures forall r :: r in Put(latest, row) <==> r == row || (r in latest && r.commandId != row.commandId)
  {
    var i := IndexOf(latest, row.commandId);
    IndexOfMissing(latest, row.commandId);
    var p := Put(latest, row);
    assert p[i] == row;
    forall r | r in latest && r.commandId != row.commandId ensures r in p {
      var k :| 0 <= k < |latest| && latest[k] == r;
      assert p[k] == r;
    }
  }

  lemma {:induction false} LatestFacts(rows: seq<Row>)
    ensures DistinctIds(Latest(rows))
    ensures forall r :: r in Latest(rows) <==> LastStatus(rows, r.commandId) == Some(r.status)
  {
    if rows != [] {
      LatestFacts(rows[..|rows| - 1]);
      PutFacts(Latest(rows[..|rows| - 1]), rows[|rows| - 1]);
    }
  }

  lemma {:induction false} PendingOnlyFacts(rows: seq<Row>)
    requires DistinctIds(rows)
    ensures DistinctIds(PendingOnly(rows))
    ensures forall r :: r in PendingOnly(rows) <==> r in rows && Pending(r.status)
  {
    if rows != [] {
      var front := rows[..|rows| - 1];
      PendingOnlyFacts(front);
      assert rows == front + [rows[|rows| - 1]];
    }
  }

  // Recovery returns each command whose latest row is PRE_ACK or BROKER_ACCEPTED, once.
  lemma RecoveryIsLatestPending(rows: seq<Row>)
    ensures DistinctIds(Recovered(rows))
    ensures forall r :: r in Recovered(rows) <==>
              LastStatus(rows, r.commandId) == Some(r.status) && (r.status == PreAck || r.status == BrokerAccepted)
  {
    LatestFacts(rows);
    PendingOnlyFacts(Latest(rows));
  }

  // ---- order -----------------------------------------------------------------------------

  // The log names the first command before the second.
  predicate NamedBefore(rows: seq<Row>, a: Row, b: Row) {
    IndexOf(rows, a.commandId) < IndexOf(rows, b.commandId)
  }

  // Commands stand in the order in which the log first names them.
  ghost predicate InFirstOrder(rows: seq<Row>, table: seq<Row>) {
    && (forall i :: 0 <= i < |table| ==> IndexOf(rows, table[i].commandId) < |rows|)
    && (forall i, j :: 0 <= i < j < |table| ==> NamedBefore(rows, table[i], table[j]))
  }

  lemma {:induction false} IndexOfAppend(rows: seq<Row>, row: Row, id: string)
    ensures IndexOf(rows + [row], id) ==
            if IndexOf(rows, id) < |rows| then IndexOf(rows, id)
            else if row.commandId == id then |rows| else |rows| + 1
  {
    if rows != [] {
      assert (rows + [row])[1..] == rows[1..] + [row];
      IndexOfAppend(rows[1..], row, id);
    }
  }

  lemma {:induction false} LatestInFirstOrder(rows: seq<Row>)
    ensures InFirstOrder(rows, Latest(rows))
  {
    if rows != [] {
      var front, row := rows[..|rows| - 1], rows[|rows| - 1];
      var table := Latest(front);
      LatestInFirstOrder(front);
      assert rows == front + [row];
      forall id {
        IndexOfAppend(front, row, id);
      }
      IndexOfMissing(front, row.commandId);
      LatestNames(front, row.commandId);
    }
  }

  lemma {:induction false} LatestNames(rows: seq<Row>, id: string)
    ensures IndexOf(rows, id) < |rows| ==> IndexOf(Latest(rows), id) < |Latest(rows)|
  {
    LatestFacts(rows);
    IndexOfMissing(Latest(rows), id);
    if IndexOf(rows, id) < |rows| {
      HasStatus(rows, IndexOf(rows, id));
      assert Row(id, LastStatus(rows, id).value) in Latest(rows);
    }
  }

  lemma {:induction false} HasStatus(rows: seq<Row>, i: nat)
    requires i < |rows|
    ensures LastStatus(rows, rows[i].commandId).Some?
  {
    if i < |rows| - 1 && rows[|rows| - 1].commandId != rows[i].commandId {
      HasStatus(rows[..|rows| - 1], i);
    }
  }

  lemma InFirstOrderAppend(rows: seq<Row>, table: seq<Row>, row: Row)
    requires InFirstOrder(rows, table) && IndexOf(rows, row.commandId) < |rows|
    requires forall r :: r in table ==> NamedBefore(rows, r, row)
    ensures InFirstOrder(rows, table + [row])
  {
    var longer := table + [row];
    forall i, j | 0 <= i < j < |longer| ensures NamedBefore(rows, longer[i], longer[j]) {
      assert longer[i] == table[i];
      if j < |table| {
        assert NamedBefore(rows, table[i], table[j]);
      } else {
        assert table[i] in table;
      }
    }
  }

  lemma {:induction false} PendingOnlyKeepsOrder(rows: seq<Row>, table: seq<Row>)
    requires InFirstOrder(rows, table)
    ensures InFirstOrder(rows, PendingOnly(table))
    ensures forall r :: r in PendingOnly(table) ==> r in table
  {
    if table != [] {
      var front, last := table[..|table| - 1], table[|table| - 1];
      PendingOnlyKeepsOrder(rows, front);
      if Pending(last.status) {
        forall r | r in PendingOnly(front) ensures NamedBefore(rows, r, last) {
          var k :| 0 <= k < |front| && front[k] == r;
          assert NamedBefore(rows, table[k], table[|table| - 1]);
        }
        InFirstOrderAppend(rows, PendingOnly(front), last);
      } else {
        assert PendingOnly(table) == PendingOnly(front);
      }
    }
  }

  // Recovery hands commands back in the order in which the journal first names them.
  lemma RecoveryInFirstOrder(rows: seq<Row>)
    ensures InFirstOrder(rows, Recovered(rows))
  {
    LatestInFirstOrder(rows);
    PendingOnlyKeepsOrder(rows, Latest(rows));
  }
}
