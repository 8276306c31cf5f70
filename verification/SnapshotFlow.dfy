// When a snapshot collection goes on, how it ends, and which faults it reports, told from the
// results and refusals alone.

module SnapshotFlow {
  import opened BrokerSnapshot

  // The result of a page leads to another request: it has no errors, and it either says there is more
  // and the section may ask for another page, or ends a section that is not the last.
  predicate Onward(q: Request, d: Result, maxPages: nat) {
    d.errors == [] && if d.next == "2" then q.page < maxPages else q.spec < 2
  }

  // How a collection ends with a result that leads nowhere.
  function Ending(d: Result): Status {
    if d.errors != [] then Failed else if d.next == "2" then Incomplete else Complete
  }

  // The terminal reports of a run besides the refusals'.
  ghost predicate Reports(r: Run, status: Status) {
    exists i :: 0 <= i < |r.terminals| && r.terminals[i].status == status
  }

  ghost predicate Flows(r: Run, maxPages: nat)
    requires Shaped(r)
  {
    && |r.results| <= |r.requests| && (r.pending ==> |r.results| + 1 == |r.requests|)
    && (!r.pending ==> |r.results| == |r.requests|)
    && (forall i :: 0 <= i < |r.results| - 1 ==> Onward(r.requests[i], r.results[i], maxPages))
    && (r.pending ==> forall i :: 0 <= i < |r.results| ==> Onward(r.requests[i], r.results[i], maxPages))
    && (!r.pending ==>
          var n := |r.results| - 1;
          && !Onward(r.requests[n], r.results[n], maxPages)
          && Reports(r, Ending(r.results[n]))
          && forall i :: 0 <= i < |r.terminals| ==>
               r.terminals[i].status == Failed || r.terminals[i].status == Ending(r.results[n]))
    && (r.pending ==> forall i :: 0 <= i < |r.terminals| ==> r.terminals[i].status == Failed)
  }

  lemma DeliverFlows(r: Run, d: Result, maxPages: nat)
    requires Shaped(r) && r.pending && Flows(r, maxPages)
    ensures Flows(Next(r, Deliver(d), maxPages), maxPages)
  {
    var n := Next(r, Deliver(d), maxPages);
    assert n.pending <==> Onward(Last(r.requests), d, maxPages);
    if !n.pending {
      assert n.terminals[|r.terminals|].status == Ending(d);
    }
  }

  lemma RefuseFlows(r: Run, k: nat, errors: seq<Fault>, raised: bool, maxPages: nat)
    requires Shaped(r) && Enabled(r, Refuse(k, errors, raised)) && Flows(r, maxPages)
    ensures Flows(Next(r, Refuse(k, errors, raised), maxPages), maxPages)
  {
    var n := Next(r, Refuse(k, errors, raised), maxPages);
    assert forall i :: 0 <= i < |r.terminals| ==> n.terminals[i] == r.terminals[i];
    if !r.pending {
      var i :| 0 <= i < |r.terminals| && r.terminals[i].status == Ending(r.results[|r.results| - 1]);
      assert n.terminals[i].status == r.terminals[i].status;
    }
  }

  lemma {:induction false} RunFlows(r: Run, steps: seq<Step>, maxPages: nat)
    requires Shaped(r) && Flows(r, maxPages) && Admissible(r, steps, maxPages)
    ensures Shaped(Execute(r, steps, maxPages)) && Flows(Execute(r, steps, maxPages), maxPages)
    decreases steps
  {
    if steps != [] {
      match steps[0] {
        case Deliver(d) => DeliverFlows(r, d, maxPages);
        case Refuse(k, errors, raised) => RefuseFlows(r, k, errors, raised, maxPages);
      }
      RunFlows(Next(r, steps[0], maxPages), steps[1..], maxPages);
    }
  }

  // In every run the collection waits for another page exactly while every result led onward; the
  // first that does not ends it, as failed, incomplete or complete, and besides refusals nothing else
  // is reported.
  lemma GoesOnOrEnds(steps: seq<Step>, maxPages: nat)
    requires 1 <= maxPages && Admissible(START, steps, maxPages)
    ensures Shaped(Execute(START, steps, maxPages)) && Flows(Execute(START, steps, maxPages), maxPages)
  {
    RunFlows(START, steps, maxPages);
  }

  // ---- faults ----------------------------------------------------------------------------------

  function SectionName(spec: nat): Section {
    if spec == 0 then OpenOrders else if spec == 1 then Executions else Positions
  }

  // What a step adds to the errors: those of the result, the page limit it hit, or a refusal's own.
  function FaultsOf(r: Run, step: Step, maxPages: nat): seq<Fault>
    requires Shaped(r) && Enabled(r, step)
  {
    match step
    case Deliver(d) =>
      var q := Last(r.requests);
      if d.errors == [] && d.next == "2" && q.page >= maxPages then [PageLimit(SectionName(q.spec), q.page)] else d.errors
    case Refuse(k, errors, raised) =>
      var section := SectionName(r.requests[k].spec);
      if raised then [SubmitFailed(section)] else if errors == [] then [RequestRejected(section)] else errors
  }

  function AllFaults(r: Run, steps: seq<Step>, maxPages: nat): seq<Fault>
    requires Shaped(r) && Admissible(r, steps, maxPages)
    decreases steps
  {
    if steps == [] then []
    else FaultsOf(r, steps[0], maxPages) + AllFaults(Next(r, steps[0], maxPages), steps[1..], maxPages)
  }

  // The errors are those of the steps, in the order they came.
  lemma {:induction false} FaultsAddUp(r: Run, steps: seq<Step>, maxPages: nat)
    requires Shaped(r) && Admissible(r, steps, maxPages)
    ensures Execute(r, steps, maxPages).c.errors == r.c.errors + AllFaults(r, steps, maxPages)
    decreases steps
  {
    if steps != [] {
      var n := Next(r, steps[0], maxPages);
      StepFaults(r, steps[0], maxPages);
      FaultsAddUp(n, steps[1..], maxPages);
      assert r.c.errors + FaultsOf(r, steps[0], maxPages) + AllFaults(n, steps[1..], maxPages)
          == r.c.errors + (FaultsOf(r, steps[0], maxPages) + AllFaults(n, steps[1..], maxPages));
    } else {
      assert r.c.errors + [] == r.c.errors;
    }
  }

  lemma StepFaults(r: Run, step: Step, maxPages: nat)
    requires Shaped(r) && Enabled(r, step)
    ensures Next(r, step, maxPages).c.errors == r.c.errors + FaultsOf(r, step, maxPages)
  {
    if step.Deliver? {
      var q := Last(r.requests);
      assert Recorded(r.c, SPECS[q.spec], q.page, q.continuation, step.d).errors == r.c.errors;
      assert r.c.errors + [] == r.c.errors;
    }
  }
}
