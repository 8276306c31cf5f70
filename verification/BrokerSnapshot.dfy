// One account snapshot assembled from three paged transaction streams.

module BrokerSnapshot {

  datatype Section = OpenOrders | Executions | Positions

  // The streams in the order they are read.
  const SPECS: seq<Section> := [OpenOrders, Executions, Positions]

  datatype Row = Row(text: string)

  datatype Fault =
    | Reported(text: string)
    | PageLimit(section: Section, page: nat)
    | SubmitFailed(section: Section)
    | RequestRejected(section: Section)

  datatype Page = Page(
    section: Section,
    number: nat,
    continuationIn: string,
    continuationOut: string,
    rowCount: nat,
    errors: seq<Fault>)

  datatype Collection = Collection(
    openOrders: seq<Row>,
    executions: seq<Row>,
    positions: seq<Row>,
    lineage: seq<Page>,
    completed: seq<Section>,
    errors: seq<Fault>)

  const EMPTY := Collection([], [], [], [], [], [])

  datatype Status = Failed | Incomplete | Complete

  // What a page result leads to: the next request, or a terminal snapshot.
  datatype Outcome =
    | Submit(spec: nat, page: nat, continuation: string)
    | Finish(status: Status)

  datatype Result = Result(rows: seq<Row>, errors: seq<Fault>, next: string)

  const MORE := "2"

  function Clamp(n: int): (r: nat)
    ensures 1 <= r <= 50
    ensures 1 <= n <= 50 ==> r == n
  {
    if n < 1 then 1 else if n > 50 then 50 else n
  }

  function RowsOf(c: Collection, section: Section): seq<Row> {
    match section
    case OpenOrders => c.openOrders
    case Executions => c.executions
    case Positions => c.positions
  }

  function WithRows(c: Collection, section: Section, rows: seq<Row>): Collection {
    match section
    case OpenOrders => c.(openOrders := c.openOrders + rows)
    case Executions => c.(executions := c.executions + rows)
    case Positions => c.(positions := c.positions + rows)
  }

  function Recorded(c: Collection, section: Section, page: nat, continuation: string, d: Result): Collection {
    WithRows(c, section, d.rows).(
      lineage := c.lineage + [Page(section, page, continuation, d.next, |d.rows|, d.errors)])
  }

  function OutcomeOf(spec: nat, page: nat, d: Result, maxPages: nat): Outcome {
    if d.errors != [] then Finish(Failed)
    else if d.next == MORE then
      if page >= maxPages then Finish(Incomplete) else Submit(spec, page + 1, MORE)
    else if spec + 1 < |SPECS| then Submit(spec + 1, 1, "")
    else Finish(Complete)
  }

  function AfterResult(c: Collection, spec: nat, page: nat, continuation: string, d: Result, maxPages: nat): Collection
    requires spec < |SPECS|
  {
    var recorded := Recorded(c, SPECS[spec], page, continuation, d);
    if d.errors != [] then recorded.(errors := c.errors + d.errors)
    else if d.next == MORE then
      if page >= maxPages then recorded.(errors := c.errors + [PageLimit(SPECS[spec], page)]) else recorded
    else recorded.(completed := c.completed + [SPECS[spec]])
  }

  // A submission that raised, or came back unaccepted with these errors.
  function Rejection(spec: nat, errors: seq<Fault>, raised: bool): (r: seq<Fault>)
    requires spec < |SPECS|
    ensures r != []
  {
    if raised then [SubmitFailed(SPECS[spec])]
    else if errors != [] then errors
    else [RequestRejected(SPECS[spec])]
  }

  class KiwoomBrokerSnapshotCollector {
    const maxPages: nat
    var openOrders: seq<Row>
    var executions: seq<Row>
    var positions: seq<Row>
    var pageLineage: seq<Page>
    var completedSections: seq<Section>
    var errors: seq<Fault>

    ghost function Model(): Collection
      reads this
    {
      Collection(openOrders, executions, positions, pageLineage, completedSections, errors)
    }

    // Start of a collection; its first request is the first page of the first stream.
    constructor (maxPagesPerSection: int)
      ensures Model() == EMPTY && maxPages == Clamp(maxPagesPerSection)
    {
      maxPages := Clamp(maxPagesPerSection);
      openOrders, executions, positions := [], [], [];
      pageLineage, completedSections, errors := [], [], [];
    }

    method AppendRows(section: Section, rows: seq<Row>)
      modifies this`openOrders, this`executions, this`positions
      ensures Model() == WithRows(old(Model()), section, rows)
    {
      if section == OpenOrders {
        openOrders := openOrders + rows;
      } else if section == Executions {
        executions := executions + rows;
      } else {
        positions := positions + rows;
      }
    }

    method OnResult(spec: nat, page: nat, continuation: string, d: Result) returns (next: Outcome)
      requires spec < |SPECS|
      modifies this
      ensures Model() == AfterResult(old(Model()), spec, page, continuation, d, maxPages)
      ensures next == OutcomeOf(spec, page, d, maxPages)
    {
      var section := SPECS[spec];
      pageLineage := pageLineage + [Page(section, page, continuation, d.next, |d.rows|, d.errors)];
      AppendRows(section, d.rows);
      if d.errors != [] {
        errors := errors + d.errors;
        return Finish(Failed);
      }
      if d.next == MORE {
        if page >= maxPages {
          errors := errors + [PageLimit(section, page)];
          return Finish(Incomplete);
        }
        return Submit(spec, page + 1, MORE);
      }
      completedSections := completedSections + [section];
      if spec + 1 < |SPECS| {
        return Submit(spec + 1, 1, "");
      }
      return Finish(Complete);
    }

    method OnRefused(spec: nat, reported: seq<Fault>, raised: bool) returns (next: Outcome)
      requires spec < |SPECS|
      modifies this`errors
      ensures errors == old(errors) + Rejection(spec, reported, raised)
      ensures next == Finish(Failed)
    {
      if raised {
        errors := errors + [SubmitFailed(SPECS[spec])];
      } else {
        errors := errors + (if reported != [] then reported else [RequestRejected(SPECS[spec])]);
      }
      return Finish(Failed);
    }
  }

  // ---- runs ------------------------------------------------------------------------------------

  datatype Request = Request(spec: nat, page: nat, continuation: string)

  datatype Terminal = Terminal(status: Status, payload: Collection)

  // `pending` is the request whose result the flow waits for. `results` are the results taken,
  // `refused` the requests whose submit call raised or came back unaccepted.
  datatype Run = Run(
    c: Collection,
    requests: seq<Request>,
    pending: bool,
    results: seq<Result>,
    refused: set<nat>,
    terminals: seq<Terminal>)

  const START := Run(EMPTY, [Request(0, 1, "")], true, [], {}, [])

  // A result is taken at most once a request. Whether its submit call reports acceptance is
  // known only when the call returns, which may be after the result was delivered.
  datatype Step =
    | Deliver(d: Result)
    | Refuse(k: nat, errors: seq<Fault>, raised: bool)

  function Last(requests: seq<Request>): Request
    requires requests != []
  {
    requests[|requests| - 1]
  }

  predicate Shaped(r: Run) {
    && r.requests != []
    && forall i :: 0 <= i < |r.requests| ==> r.requests[i].spec < |SPECS|
  }

  predicate Enabled(r: Run, step: Step) {
    match step
    case Deliver(_) => r.pending
    case Refuse(k, _, _) => k < |r.requests| && k !in r.refused
  }

  function Next(r: Run, step: Step, maxPages: nat): (n: Run)
    requires Shaped(r) && Enabled(r, step)
    ensures Shaped(n)
  {
    match step
    case Deliver(d) =>
      var q := Last(r.requests);
      var c := AfterResult(r.c, q.spec, q.page, q.continuation, d, maxPages);
      var after := r.(c := c, results := r.results + [d]);
      (match OutcomeOf(q.spec, q.page, d, maxPages)
       case Submit(spec, page, continuation) =>
         after.(requests := r.requests + [Request(spec, page, continuation)])
       case Finish(status) =>
         after.(pending := false, terminals := r.terminals + [Terminal(status, c)]))
    case Refuse(k, errors, raised) =>
      var c := r.c.(errors := r.c.errors + Rejection(r.requests[k].spec, errors, raised));
      r.(c := c, refused := r.refused + {k}, terminals := r.terminals + [Terminal(Failed, c)])
  }

  predicate Admissible(r: Run, steps: seq<Step>, maxPages: nat)
    requires Shaped(r)
    decreases steps
  {
    steps == []
    || (Enabled(r, steps[0]) && Admissible(Next(r, steps[0], maxPages), steps[1..], maxPages))
  }

  function Execute(r: Run, steps: seq<Step>, maxPages: nat): (n: Run)
    requires Shaped(r) && Admissible(r, steps, maxPages)
    ensures Shaped(n)
    decreases steps
  {
    if steps == [] then r else Execute(Next(r, steps[0], maxPages), steps[1..], maxPages)
  }

  // All rows the results brought for a section, in the order they came.
  function Gathered(requests: seq<Request>, results: seq<Result>, section: Section): seq<Row>
    requires |results| <= |requests|
    requires forall i :: 0 <= i < |requests| ==> requests[i].spec < |SPECS|
  {
    if results == [] then []
    else
      var n := |results| - 1;
      Gathered(requests, results[..n], section)
      + if SPECS[requests[n].spec] == section then results[n].rows else []
  }

  function LineageRows(lineage: seq<Page>, section: Section): nat {
    if lineage == [] then 0
    else
      var n := |lineage| - 1;
      LineageRows(lineage[..n], section) + if lineage[n].section == section then lineage[n].rowCount else 0
  }

  // The request that follows a page: the section's next page, or the first page of the next one.
  ghost predicate Follows(now: Request, d: Result, next: Request) {
    && d.errors == []
    && next == if d.next == MORE then Request(now.spec, now.page + 1, MORE) else Request(now.spec + 1, 1, "")
  }

  ghost predicate Sequenced(r: Run)
    requires Shaped(r)
  {
    && |r.requests| == |r.results| + (if r.pending then 1 else 0)
    && r.requests[0] == Request(0, 1, "")
    && forall i :: 0 < i < |r.requests| ==> Follows(r.requests[i - 1], r.results[i - 1], r.requests[i])
  }

  // How many pages may have been asked for before a section starts.
  function PagesBefore(spec: nat, maxPages: nat): nat {
    if spec == 0 then 0 else maxPages + PagesBefore(spec - 1, maxPages)
  }

  ghost predicate Budgeted(r: Run, maxPages: nat)
    requires Shaped(r)
  {
    var q := Last(r.requests);
    && 1 <= q.page <= maxPages
    && |r.requests| <= PagesBefore(q.spec, maxPages) + q.page
    && forall i :: 0 <= i < |r.requests| ==> r.requests[i].page <= maxPages
  }

  function PageFor(q: Request, d: Result): Page
    requires q.spec < |SPECS|
  {
    Page(SPECS[q.spec], q.page, q.continuation, d.next, |d.rows|, d.errors)
  }

  ghost predicate Lineage(r: Run)
    requires Shaped(r)
  {
    && |r.c.lineage| == |r.results| <= |r.requests|
    && forall i :: 0 <= i < |r.results| ==> r.c.lineage[i] == PageFor(r.requests[i], r.results[i])
  }

  ghost predicate Collected(r: Run, s: Section)
    requires Shaped(r) && Lineage(r)
  {
    && RowsOf(r.c, s) == Gathered(r.requests, r.results, s)
    && |RowsOf(r.c, s)| == LineageRows(r.c.lineage, s)
  }

  ghost predicate Finished(r: Run) {
    !r.pending && r.c.completed == SPECS
  }

  ghost predicate InOrder(r: Run)
    requires Shaped(r)
  {
    Finished(r) || r.c.completed == SPECS[..Last(r.requests).spec]
  }

  // Every refusal ends the collection once, and so does the flow of results.
  ghost predicate Counted(r: Run) {
    && |r.terminals| == |r.refused| + (if r.pending then 0 else 1)
    && forall k :: k in r.refused ==> k < |r.requests|
  }

  ghost predicate CompleteMeans(r: Run) {
    && ((exists i :: 0 <= i < |r.terminals| && r.terminals[i].status == Complete) <==> Finished(r))
    && (forall i :: 0 <= i < |r.terminals| && r.terminals[i].status == Complete ==>
          r.terminals[i].payload == r.c.(errors := r.terminals[i].payload.errors))
  }

  ghost predicate Faultless(r: Run) {
    r.c.errors == [] <==> r.refused == {} && (r.pending || Finished(r))
  }

  ghost predicate Inv(r: Run, maxPages: nat)
    requires Shaped(r)
  {
    && Sequenced(r) && Budgeted(r, maxPages) && Lineage(r)
    && (forall s :: Collected(r, s))
    && InOrder(r) && Counted(r) && CompleteMeans(r) && Faultless(r)
  }

  lemma DeliverSequenced(r: Run, d: Result, maxPages: nat)
    requires Shaped(r) && r.pending && Sequenced(r) && Budgeted(r, maxPages)
    ensures var n := Next(r, Deliver(d), maxPages);
            Sequenced(n) && Budgeted(n, maxPages)
  {
    var n := Next(r, Deliver(d), maxPages);
    forall i | 0 < i < |n.requests|
      ensures Follows(n.requests[i - 1], n.results[i - 1], n.requests[i])
    {
      if i < |r.requests| {
        assert Follows(r.requests[i - 1], r.results[i - 1], r.requests[i]);
      }
    }
  }

  lemma ResultLineage(c: Collection, q: Request, d: Result, maxPages: nat)
    requires q.spec < |SPECS|
    ensures AfterResult(c, q.spec, q.page, q.continuation, d, maxPages).lineage == c.lineage + [PageFor(q, d)]
  {
    assert WithRows(c, SPECS[q.spec], d.rows).lineage == c.lineage;
  }

  lemma DeliverRecords(r: Run, d: Result, maxPages: nat)
    requires Shaped(r) && r.pending && Sequenced(r) && Lineage(r)
    ensures Lineage(Next(r, Deliver(d), maxPages))
    ensures Next(r, Deliver(d), maxPages).c.lineage == r.c.lineage + [PageFor(Last(r.requests), d)]
  {
    ResultLineage(r.c, Last(r.requests), d, maxPages);
  }

  lemma {:induction false} GatheredMore(requests: seq<Request>, more: seq<Request>, results: seq<Result>, s: Section)
    requires |results| <= |requests|
    requires forall i :: 0 <= i < |requests| ==> requests[i].spec < |SPECS|
    requires forall i :: 0 <= i < |more| ==> more[i].spec < |SPECS|
    ensures Gathered(requests + more, results, s) == Gathered(requests, results, s)
    decreases |results|
  {
    if results != [] {
      GatheredMore(requests, more, results[..|results| - 1], s);
    }
  }

  lemma GatheredNext(requests: seq<Request>, results: seq<Result>, d: Result, s: Section)
    requires |results| < |requests|
    requires forall i :: 0 <= i < |requests| ==> requests[i].spec < |SPECS|
    ensures Gathered(requests, results + [d], s)
         == Gathered(requests, results, s) + if SPECS[requests[|results|].spec] == s then d.rows else []
  {
    assert (results + [d])[..|results|] == results;
  }

  lemma LineageRowsNext(lineage: seq<Page>, p: Page, s: Section)
    ensures LineageRows(lineage + [p], s) == LineageRows(lineage, s) + if p.section == s then p.rowCount else 0
  {
    assert (lineage + [p])[..|lineage|] == lineage;
  }

  lemma DeliverRows(r: Run, d: Result, maxPages: nat, s: Section)
    requires Shaped(r) && r.pending
    ensures RowsOf(Next(r, Deliver(d), maxPages).c, s)
         == RowsOf(r.c, s) + if SPECS[Last(r.requests).spec] == s then d.rows else []
  {
    assert RowsOf(r.c, s) + [] == RowsOf(r.c, s);
    var q := Last(r.requests);
    assert RowsOf(AfterResult(r.c, q.spec, q.page, q.continuation, d, maxPages), s)
        == RowsOf(WithRows(r.c, SPECS[q.spec], d.rows), s);
  }

  lemma DeliverGathers(r: Run, d: Result, maxPages: nat, s: Section)
    requires Shaped(r) && r.pending && Sequenced(r)
    ensures var n := Next(r, Deliver(d), maxPages);
            && |n.results| <= |n.requests|
            && Gathered(n.requests, n.results, s)
               == Gathered(r.requests, r.results, s) + if SPECS[Last(r.requests).spec] == s then d.rows else []
  {
    var n := Next(r, Deliver(d), maxPages);
    GatheredNext(r.requests, r.results, d, s);
    var more := n.requests[|r.requests|..];
    assert n.requests == r.requests + more;
    GatheredMore(r.requests, more, n.results, s);
  }

  lemma DeliverCollects(r: Run, n: Run, d: Result, s: Section)
    requires Shaped(r) && r.pending && Lineage(r) && Collected(r, s)
    requires Shaped(n) && Lineage(n)
    requires var brought := if SPECS[Last(r.requests).spec] == s then d.rows else [];
             && RowsOf(n.c, s) == RowsOf(r.c, s) + brought
             && Gathered(n.requests, n.results, s) == Gathered(r.requests, r.results, s) + brought
             && n.c.lineage == r.c.lineage + [PageFor(Last(r.requests), d)]
    ensures Collected(n, s)
  {
    LineageRowsNext(r.c.lineage, PageFor(Last(r.requests), d), s);
  }

  lemma DeliverReports(r: Run, d: Result, maxPages: nat)
    requires Shaped(r) && r.pending && InOrder(r) && Counted(r) && CompleteMeans(r) && Faultless(r)
    ensures var n := Next(r, Deliver(d), maxPages);
            InOrder(n) && Counted(n) && CompleteMeans(n) && Faultless(n)
  {
    var n := Next(r, Deliver(d), maxPages);
    var q := Last(r.requests);
    assert SPECS[..q.spec] + [SPECS[q.spec]] == SPECS[..q.spec + 1];
    assert |SPECS[..q.spec]| == q.spec;
    assert forall i :: 0 <= i < |r.terminals| ==> n.terminals[i] == r.terminals[i] && r.terminals[i].status != Complete;
    if !n.pending {
      assert n.terminals[|r.terminals|].status == Complete <==> Finished(n);
    }
  }

  lemma RefuseReports(r: Run, k: nat, errors: seq<Fault>, raised: bool, maxPages: nat)
    requires Shaped(r) && Enabled(r, Refuse(k, errors, raised))
    requires InOrder(r) && Counted(r) && CompleteMeans(r) && Faultless(r)
    ensures var n := Next(r, Refuse(k, errors, raised), maxPages);
            InOrder(n) && Counted(n) && CompleteMeans(n) && Faultless(n)
  {
    var n := Next(r, Refuse(k, errors, raised), maxPages);
    assert forall i :: 0 <= i < |r.terminals| ==> n.terminals[i] == r.terminals[i];
    assert n.terminals[|r.terminals|].status == Failed;
  }

  lemma RefuseKeepsPages(r: Run, k: nat, errors: seq<Fault>, raised: bool, maxPages: nat)
    requires Shaped(r) && Enabled(r, Refuse(k, errors, raised))
    requires Sequenced(r) && Budgeted(r, maxPages) && Lineage(r)
    ensures var n := Next(r, Refuse(k, errors, raised), maxPages);
            && Sequenced(n) && Budgeted(n, maxPages) && Lineage(n)
            && forall s :: Collected(r, s) ==> Collected(n, s)
  {
  }

  lemma RefuseKeeps(r: Run, k: nat, errors: seq<Fault>, raised: bool, maxPages: nat)
    requires Shaped(r) && Inv(r, maxPages) && Enabled(r, Refuse(k, errors, raised))
    ensures Inv(Next(r, Refuse(k, errors, raised), maxPages), maxPages)
  {
    RefuseReports(r, k, errors, raised, maxPages);
    RefuseKeepsPages(r, k, errors, raised, maxPages);
  }

  lemma StepKeeps(r: Run, step: Step, maxPages: nat)
    requires Shaped(r) && Inv(r, maxPages) && Enabled(r, step)
    ensures Inv(Next(r, step, maxPages), maxPages)
  {
    match step
    case Deliver(d) =>
      DeliverSequenced(r, d, maxPages);
      DeliverRecords(r, d, maxPages);
      forall s ensures Collected(Next(r, Deliver(d), maxPages), s) {
        DeliverRows(r, d, maxPages, s);
        DeliverGathers(r, d, maxPages, s);
        DeliverCollects(r, Next(r, Deliver(d), maxPages), d, s);
      }
      DeliverReports(r, d, maxPages);
    case Refuse(k, errors, raised) => RefuseKeeps(r, k, errors, raised, maxPages);
  }

  lemma {:induction false} RunKeeps(r: Run, steps: seq<Step>, maxPages: nat)
    requires Shaped(r) && Inv(r, maxPages) && Admissible(r, steps, maxPages)
    ensures Shaped(Execute(r, steps, maxPages)) && Inv(Execute(r, steps, maxPages), maxPages)
    decreases steps
  {
    if steps != [] {
      StepKeeps(r, steps[0], maxPages);
      RunKeeps(Next(r, steps[0], maxPages), steps[1..], maxPages);
    }
  }

  lemma EveryRun(steps: seq<Step>, maxPages: nat)
    requires 1 <= maxPages && Admissible(START, steps, maxPages)
    ensures Shaped(Execute(START, steps, maxPages)) && Inv(Execute(START, steps, maxPages), maxPages)
  {
    assert SPECS[..0] == [];
    RunKeeps(START, steps, maxPages);
  }

  lemma PagesBounded(r: Run, maxPages: nat)
    requires Shaped(r) && Budgeted(r, maxPages)
    ensures |r.requests| <= |SPECS| * maxPages
  {
    assert PagesBefore(1, maxPages) == maxPages;
    assert PagesBefore(2, maxPages) == maxPages + PagesBefore(1, maxPages);
  }

  lemma FollowsMeans(r: Run, i: nat)
    requires Shaped(r) && Sequenced(r) && 0 < i < |r.requests|
    ensures var q := r.requests;
            q[i] == Request(q[i - 1].spec, q[i - 1].page + 1, MORE) || q[i] == Request(q[i - 1].spec + 1, 1, "")
  {
    assert Follows(r.requests[i - 1], r.results[i - 1], r.requests[i]);
  }

  // Requests go through the sections page by page without a gap, and there are never more of
  // them than pages allowed in all.
  lemma PagesWithoutGaps(steps: seq<Step>, maxPages: nat, i: nat)
    requires 1 <= maxPages && Admissible(START, steps, maxPages)
    requires 0 < i < |Execute(START, steps, maxPages).requests|
    ensures var q := Execute(START, steps, maxPages).requests;
            && |q| <= |SPECS| * maxPages
            && q[0] == Request(0, 1, "") && q[i].page <= maxPages
            && (q[i] == Request(q[i - 1].spec, q[i - 1].page + 1, MORE) || q[i] == Request(q[i - 1].spec + 1, 1, ""))
  {
    EveryRun(steps, maxPages);
    PagesBounded(Execute(START, steps, maxPages), maxPages);
    FollowsMeans(Execute(START, steps, maxPages), i);
  }

  // The collected rows of a section are those its pages brought, in order, and the lineage's
  // row counts add up to them.
  lemma RowsAddUp(steps: seq<Step>, maxPages: nat, s: Section)
    requires 1 <= maxPages && Admissible(START, steps, maxPages)
    ensures var r := Execute(START, steps, maxPages);
            && |r.results| <= |r.requests| && Shaped(r)
            && RowsOf(r.c, s) == Gathered(r.requests, r.results, s)
            && |RowsOf(r.c, s)| == LineageRows(r.c.lineage, s)
  {
    EveryRun(steps, maxPages);
    assert Collected(Execute(START, steps, maxPages), s);
  }

  // A complete snapshot is reported exactly when all sections were completed in their order, and
  // it holds everything that was collected.
  lemma CompleteExactly(steps: seq<Step>, maxPages: nat)
    requires 1 <= maxPages && Admissible(START, steps, maxPages)
    ensures var r := Execute(START, steps, maxPages);
            && ((exists i :: 0 <= i < |r.terminals| && r.terminals[i].status == Complete)
                <==> r.c.completed == [OpenOrders, Executions, Positions])
            && (forall i :: 0 <= i < |r.terminals| && r.terminals[i].status == Complete ==>
                  r.terminals[i].payload == r.c.(errors := r.terminals[i].payload.errors))
  {
    EveryRun(steps, maxPages);
    var r := Execute(START, steps, maxPages);
    assert |SPECS[..Last(r.requests).spec]| < |SPECS|;
  }

  // The result that completes the snapshot reports it free of errors exactly when no submit
  // call was refused before.
  lemma CompleteIsClean(steps: seq<Step>, maxPages: nat, d: Result)
    requires 1 <= maxPages && Admissible(START, steps, maxPages)
    requires Execute(START, steps, maxPages).pending
    requires Finished(Next(Execute(START, steps, maxPages), Deliver(d), maxPages))
    ensures var r := Execute(START, steps, maxPages);
            var n := Next(r, Deliver(d), maxPages);
            && n.terminals == r.terminals + [Terminal(Complete, n.c)]
            && (n.c.errors == [] <==> r.refused == {})
  {
    EveryRun(steps, maxPages);
    CompleteStep(Execute(START, steps, maxPages), d, maxPages);
  }

  lemma CompleteStep(r: Run, d: Result, maxPages: nat)
    requires Shaped(r) && r.pending && InOrder(r) && Faultless(r) && Finished(Next(r, Deliver(d), maxPages))
    ensures var n := Next(r, Deliver(d), maxPages);
            && n.terminals == r.terminals + [Terminal(Complete, n.c)]
            && (n.c.errors == [] <==> r.refused == {})
  {
    assert |SPECS[..Last(r.requests).spec]| < |SPECS|;
  }

  // How often the collection ends: once for the flow of results and once for every refusal.
  lemma TerminalCount(steps: seq<Step>, maxPages: nat)
    requires 1 <= maxPages && Admissible(START, steps, maxPages)
    ensures var r := Execute(START, steps, maxPages);
            |r.terminals| == |r.refused| + if r.pending then 0 else 1
  {
    EveryRun(steps, maxPages);
  }

  // A flow that has ended is reported once exactly when no submit call was refused.
  lemma EndedOnceIff(steps: seq<Step>, maxPages: nat)
    requires 1 <= maxPages && Admissible(START, steps, maxPages)
    requires !Execute(START, steps, maxPages).pending
    ensures var r := Execute(START, steps, maxPages);
            |r.terminals| == 1 <==> r.refused == {}
  {
    TerminalCount(steps, maxPages);
  }

  // When no request both delivers a result and is refused, it ends at most once.
  lemma EndsAtMostOnce(steps: seq<Step>, maxPages: nat)
    requires 1 <= maxPages && Admissible(START, steps, maxPages)
    requires var r := Execute(START, steps, maxPages); forall k :: k in r.refused ==> k >= |r.results|
    ensures |Execute(START, steps, maxPages).terminals| <= 1
  {
    EveryRun(steps, maxPages);
    var r := Execute(START, steps, maxPages);
    var n := |r.results|;
    if r.pending {
      assert r.refused <= {n};
      SubsetOfOne(r.refused, n);
    } else {
      assert r.refused == {};
    }
  }

  lemma SubsetOfOne(s: set<nat>, n: nat)
    requires s <= {n}
    ensures |s| <= 1
  {
    if s != {} {
      assert s == {n};
    }
  }

  // One that delivers errors while its submit call is still open is reported as failed twice.
  lemma RefusedAfterDelivery(fault: Fault, maxPages: nat)
    ensures var d := Result([], [fault], "");
            var n := Next(Next(START, Deliver(d), maxPages), Refuse(0, [fault], false), maxPages);
            && Enabled(Next(START, Deliver(d), maxPages), Refuse(0, [fault], false))
            && |n.terminals| == 2 && n.terminals[0].status == Failed && n.terminals[1].status == Failed
  {
  }
}
