// The snapshot collection run over the request runner: results come from its completions.

module SnapshotRequests {
  import R = TrRunner
  import S = BrokerSnapshot

  // Every page of a section is requested under the section's one key.
  function KeyFor(spec: nat): R.Key {
    if spec == 0 then R.Key("8751", "live_sim_broker_snapshot_open_orders", "OPT10075")
    else if spec == 1 then R.Key("8752", "live_sim_broker_snapshot_executions", "OPT10076")
    else R.Key("8753", "live_sim_broker_snapshot_positions", "OPW00018")
  }

  // The collector's requests are the runner's submissions, numbered alike.
  datatype Joint = Joint(c: S.Run, r: R.Run)

  function Begin(): Joint {
    Joint(S.START, R.Next(R.START, R.Submit(0, KeyFor(0))))
  }

  function TimedOut(code: string): S.Result {
    S.Result([], [S.Reported("TR_TIMEOUT:" + code)], "")
  }

  datatype Step =
    | Answer(meta: R.Key, d: S.Result)
    | Arm(i: nat, due: int)
    | Timer(k: nat)
    | Refuse(i: nat, errors: seq<S.Fault>, raised: bool, negative: bool)

  // The request whose completion callback a runner step runs.
  function Completed(j: Joint, step: Step): R.Option<R.Pending> {
    match step
    case Answer(meta, _) =>
      var found := R.FindKey(j.r.runner.pending, meta);
      if found.None? then R.None else R.Taken(j.r.runner.pending, found.value)
    case Timer(k) =>
      if k < |j.r.runner.timers| then R.Taken(j.r.runner.pending, j.r.runner.timers[k].key) else R.None
    case _ => R.None
  }

  function ResultOf(j: Joint, step: Step): S.Result {
    match step
    case Answer(_, d) => d
    case Timer(k) => TimedOut(if k < |j.r.runner.timers| then j.r.runner.timers[k].key.code else "")
    case _ => S.Result([], [], "")
  }

  predicate Enabled(j: Joint, step: Step) {
    match step
    case Answer(_, _) => true
    case Arm(i, _) => i < |j.c.requests|
    case Timer(k) => k < |j.r.runner.timers|
    case Refuse(i, _, _, _) => i < |j.c.requests| && i !in j.c.refused
  }

  function RunnerStep(j: Joint, step: Step): R.Run
    requires S.Shaped(j.c) && Enabled(j, step)
  {
    match step
    case Answer(meta, _) => R.Next(j.r, R.Data(meta))
    case Arm(i, due) => R.Next(j.r, R.Arm(KeyFor(j.c.requests[i].spec), due))
    case Timer(k) => R.Next(j.r, R.Fire(k))
    case Refuse(i, _, _, negative) =>
      if negative then R.Next(j.r, R.Refuse(KeyFor(j.c.requests[i].spec))) else j.r
  }

  // Taking a result may submit the next page, within the callback.
  function TakeResult(c: S.Run, r: R.Run, d: S.Result, maxPages: nat): Joint
    requires S.Shaped(c) && c.pending
  {
    var n := S.Next(c, S.Deliver(d), maxPages);
    Joint(n, if |n.requests| > |c.requests| then R.Next(r, R.Submit(|c.requests|, KeyFor(S.Last(n.requests).spec))) else r)
  }

  function Next(j: Joint, step: Step, maxPages: nat): Joint
    requires S.Shaped(j.c) && Enabled(j, step)
    requires Completed(j, step).Some? ==> j.c.pending
  {
    var r := RunnerStep(j, step);
    if step.Refuse? then Joint(S.Next(j.c, S.Refuse(step.i, step.errors, step.raised), maxPages), r)
    else if Completed(j, step).Some? then TakeResult(j.c, r, ResultOf(j, step), maxPages)
    else Joint(j.c, r)
  }

  // What the collector sees of a step.
  function Seen(j: Joint, step: Step): seq<S.Step> {
    if step.Refuse? then [S.Refuse(step.i, step.errors, step.raised)]
    else if Completed(j, step).Some? then [S.Deliver(ResultOf(j, step))]
    else []
  }

  // ---- what every joint run keeps --------------------------------------------------------------

  // Only the request the collector waits for can be pending in the runner, under its section's key.
  ghost predicate OnlyLast(j: Joint)
    requires S.Shaped(j.c)
  {
    forall i :: 0 <= i < |j.r.runner.pending| ==>
      && j.c.pending
      && j.r.runner.pending[i].id == |j.c.requests| - 1
      && j.r.runner.pending[i].key == KeyFor(S.Last(j.c.requests).spec)
  }

  ghost predicate Numbered(j: Joint) {
    forall id: nat :: id in j.r.submitted <==> id < |j.c.requests|
  }

  ghost predicate Inv(j: Joint) {
    S.Shaped(j.c) && R.Inv(j.r) && OnlyLast(j) && Numbered(j)
  }

  lemma BeginIs()
    ensures Begin().r.runner == R.Runner([R.Pending(0, KeyFor(0), false)], [])
    ensures Begin().r.submitted == multiset{0}
  {
  }

  lemma BeginRunner()
    ensures R.Inv(Begin().r)
  {
    R.StepKeeps(R.START, R.Submit(0, KeyFor(0)));
  }

  lemma BeginInv()
    ensures Inv(Begin())
  {
    BeginIs();
    BeginRunner();
  }

  // A completion finds the collector waiting for just that request: the entry leaves the
  // dictionary before the callback runs, and nothing else is pending.
  lemma CompletionIsAwaited(j: Joint, step: Step)
    requires Inv(j) && Completed(j, step).Some?
    ensures j.c.pending && Completed(j, step).value.id == |j.c.requests| - 1
  {
    var p := Completed(j, step).value;
    assert p in j.r.runner.pending;
  }

  lemma TwoKeys(pending: seq<R.Pending>)
    requires R.KeysDistinct(pending) && |pending| > 1
    ensures pending[0].key != pending[1].key
  {
  }

  lemma AtMostOne(pending: seq<R.Pending>, key: R.Key)
    requires R.KeysDistinct(pending) && forall i :: 0 <= i < |pending| ==> pending[i].key == key
    ensures |pending| <= 1
  {
    if |pending| > 1 {
      TwoKeys(pending);
    }
  }

  lemma PopAll(j: Joint, key: R.Key)
    requires Inv(j) && R.HasKey(j.r.runner.pending, key)
    ensures R.Pop(j.r.runner.pending, key) == []
  {
    AtMostOne(j.r.runner.pending, KeyFor(S.Last(j.c.requests).spec));
  }

  lemma PopLeaves(j: Joint, key: R.Key)
    requires Inv(j)
    ensures var left := R.Pop(j.r.runner.pending, key);
            left == [] || (left == j.r.runner.pending && !R.HasKey(j.r.runner.pending, key))
  {
    if R.HasKey(j.r.runner.pending, key) {
      PopAll(j, key);
    }
  }

  lemma AnswerLeaves(j: Joint, meta: R.Key, d: S.Result)
    requires Inv(j)
    ensures OnlyLast(Joint(j.c, R.Next(j.r, R.Data(meta))))
    ensures Completed(j, Answer(meta, d)).Some? ==> R.Next(j.r, R.Data(meta)).runner.pending == []
  {
    var found := R.FindKey(j.r.runner.pending, meta);
    if found.Some? {
      PopLeaves(j, found.value);
    }
  }

  lemma TimerLeaves(j: Joint, k: nat)
    requires Inv(j) && k < |j.r.runner.timers|
    ensures OnlyLast(Joint(j.c, R.Next(j.r, R.Fire(k))))
    ensures Completed(j, Timer(k)).Some? ==> R.Next(j.r, R.Fire(k)).runner.pending == []
  {
    PopLeaves(j, j.r.runner.timers[k].key);
  }

  // What a runner step leaves pending was pending before; after a completion nothing is.
  lemma RunnerStepLeaves(j: Joint, step: Step)
    requires Inv(j) && Enabled(j, step)
    ensures OnlyLast(Joint(j.c, RunnerStep(j, step)))
    ensures RunnerStep(j, step).submitted == j.r.submitted
    ensures Completed(j, step).Some? ==> RunnerStep(j, step).runner.pending == []
  {
    match step
    case Answer(meta, d) => AnswerLeaves(j, meta, d);
    case Arm(i, _) =>
    case Timer(k) => TimerLeaves(j, k);
    case Refuse(i, _, _, negative) => PopLeaves(j, KeyFor(j.c.requests[i].spec));
  }

  lemma RunnerStepInv(j: Joint, step: Step)
    requires Inv(j) && Enabled(j, step)
    ensures R.Inv(RunnerStep(j, step))
  {
    match step
    case Answer(meta, _) => R.StepKeeps(j.r, R.Data(meta));
    case Arm(i, due) => R.StepKeeps(j.r, R.Arm(KeyFor(j.c.requests[i].spec), due));
    case Timer(k) => R.StepKeeps(j.r, R.Fire(k));
    case Refuse(i, _, _, negative) =>
      if negative {
        R.StepKeeps(j.r, R.Refuse(KeyFor(j.c.requests[i].spec)));
      }
  }

  lemma TakeResultKeeps(c: S.Run, r: R.Run, d: S.Result, maxPages: nat)
    requires S.Shaped(c) && c.pending && R.Inv(r) && r.runner.pending == [] && Numbered(Joint(c, r))
    ensures Inv(TakeResult(c, r, d, maxPages))
  {
    var n := S.Next(c, S.Deliver(d), maxPages);
    if |n.requests| > |c.requests| {
      var key := KeyFor(S.Last(n.requests).spec);
      R.StepKeeps(r, R.Submit(|c.requests|, key));
      assert R.Next(r, R.Submit(|c.requests|, key)).runner.pending == [R.Pending(|c.requests|, key, false)];
    }
  }

  lemma StepKeeps(j: Joint, step: Step, maxPages: nat)
    requires Inv(j) && Enabled(j, step)
    ensures Completed(j, step).Some? ==> j.c.pending
    ensures Inv(Next(j, step, maxPages))
  {
    RunnerStepLeaves(j, step);
    RunnerStepInv(j, step);
    if Completed(j, step).Some? {
      CompletionIsAwaited(j, step);
      TakeResultKeeps(j.c, RunnerStep(j, step), ResultOf(j, step), maxPages);
    }
  }

  // ---- runs --------------------------------------------------------------------------------------

  // A step is possible when it is enabled; that a completion finds the collector waiting is proved.
  ghost predicate Admissible(j: Joint, steps: seq<Step>, maxPages: nat)
    requires Inv(j)
    decreases steps
  {
    steps == []
    || (&& Enabled(j, steps[0])
        && (StepKeeps(j, steps[0], maxPages);
            Admissible(Next(j, steps[0], maxPages), steps[1..], maxPages)))
  }

  ghost function Execute(j: Joint, steps: seq<Step>, maxPages: nat): (n: Joint)
    requires Inv(j) && Admissible(j, steps, maxPages)
    ensures Inv(n)
    decreases steps
  {
    if steps == [] then j
    else
      StepKeeps(j, steps[0], maxPages);
      Execute(Next(j, steps[0], maxPages), steps[1..], maxPages)
  }

  ghost function SeenAll(j: Joint, steps: seq<Step>, maxPages: nat): seq<S.Step>
    requires Inv(j) && Admissible(j, steps, maxPages)
    decreases steps
  {
    if steps == [] then []
    else
      StepKeeps(j, steps[0], maxPages);
      Seen(j, steps[0]) + SeenAll(Next(j, steps[0], maxPages), steps[1..], maxPages)
  }

  // Seen from the collector, every run over the runner is one of its own runs: each request's
  // result is taken at most once, and only while it is awaited.
  lemma {:induction false} CollectorRuns(j: Joint, steps: seq<Step>, maxPages: nat)
    requires Inv(j) && Admissible(j, steps, maxPages)
    ensures S.Admissible(j.c, SeenAll(j, steps, maxPages), maxPages)
    ensures S.Execute(j.c, SeenAll(j, steps, maxPages), maxPages) == Execute(j, steps, maxPages).c
    decreases steps
  {
    if steps != [] {
      StepKeeps(j, steps[0], maxPages);
      var n := Next(j, steps[0], maxPages);
      CollectorRuns(n, steps[1..], maxPages);
      var seen, later := Seen(j, steps[0]), SeenAll(n, steps[1..], maxPages);
      if seen == [] {
        assert seen + later == later;
      } else {
        assert (seen + later)[0] == seen[0] && (seen + later)[1..] == later;
      }
    }
  }

  // So what holds of all runs of the collector holds over the runner.
  lemma SnapshotOverRunner(steps: seq<Step>, maxPages: nat)
    requires 1 <= maxPages && Inv(Begin()) && Admissible(Begin(), steps, maxPages)
    ensures var c := Execute(Begin(), steps, maxPages).c;
            && |c.requests| <= |S.SPECS| * maxPages
            && |c.terminals| == |c.refused| + (if c.pending then 0 else 1)
            && ((exists i :: 0 <= i < |c.terminals| && c.terminals[i].status == S.Complete)
                <==> c.c.completed == [S.OpenOrders, S.Executions, S.Positions])
  {
    CollectorRuns(Begin(), steps, maxPages);
    var seen := SeenAll(Begin(), steps, maxPages);
    S.EveryRun(seen, maxPages);
    S.PagesBounded(S.Execute(S.START, seen, maxPages), maxPages);
    S.CompleteExactly(seen, maxPages);
  }

  lemma PagesOverRunner(steps: seq<Step>, maxPages: nat, i: nat)
    requires 1 <= maxPages && Inv(Begin()) && Admissible(Begin(), steps, maxPages)
    requires 0 < i < |Execute(Begin(), steps, maxPages).c.requests|
    ensures var q := Execute(Begin(), steps, maxPages).c.requests;
            && q[0] == S.Request(0, 1, "") && q[i].page <= maxPages
            && (q[i] == S.Request(q[i - 1].spec, q[i - 1].page + 1, S.MORE) || q[i] == S.Request(q[i - 1].spec + 1, 1, ""))
  {
    CollectorRuns(Begin(), steps, maxPages);
    S.PagesWithoutGaps(SeenAll(Begin(), steps, maxPages), maxPages, i);
  }

  lemma RowsOverRunner(steps: seq<Step>, maxPages: nat, s: S.Section)
    requires 1 <= maxPages && Inv(Begin()) && Admissible(Begin(), steps, maxPages)
    ensures var c := Execute(Begin(), steps, maxPages).c;
            && S.Shaped(c) && |c.results| <= |c.requests|
            && S.RowsOf(c.c, s) == S.Gathered(c.requests, c.results, s)
            && |S.RowsOf(c.c, s)| == S.LineageRows(c.c.lineage, s)
  {
    CollectorRuns(Begin(), steps, maxPages);
    S.RowsAddUp(SeenAll(Begin(), steps, maxPages), maxPages, s);
  }

  // A timer under the awaited section's key that was scheduled for an earlier page ends the page
  // now pending, and the collection with it: it is reported as failed.
  lemma StalePageTimerFails(j: Joint, k: nat, maxPages: nat)
    requires Inv(j) && k < |j.r.runner.timers| && j.r.runner.pending != []
    requires j.r.runner.timers[k].key == KeyFor(S.Last(j.c.requests).spec)
    ensures Completed(j, Timer(k)).Some? && j.c.pending
    ensures var n := Next(j, Timer(k), maxPages);
            && !n.c.pending && n.r.runner.pending == []
            && |n.c.terminals| == |j.c.terminals| + 1
            && n.c.terminals[|j.c.terminals|].status == S.Failed
  {
    RunnerStepLeaves(j, Timer(k));
    CompletionIsAwaited(j, Timer(k));
  }

  // Exactly such a timer does: any other finds nothing pending and changes nothing for the collector.
  lemma TimerFailsIff(j: Joint, k: nat, maxPages: nat)
    requires Inv(j) && k < |j.r.runner.timers|
    ensures Completed(j, Timer(k)).Some? ==> j.c.pending
    ensures Next(j, Timer(k), maxPages).c != j.c
       <==> j.r.runner.pending != [] && j.r.runner.timers[k].key == KeyFor(S.Last(j.c.requests).spec)
  {
    StepKeeps(j, Timer(k), maxPages);
    if Completed(j, Timer(k)).Some? {
      assert Completed(j, Timer(k)).value in j.r.runner.pending;
    }
    if j.r.runner.pending != [] {
      R.IndexOfIsFirst(j.r.runner.pending, KeyFor(S.Last(j.c.requests).spec));
    }
  }

  lemma FirstPageArmed(due: int, maxPages: nat)
    ensures var j := Next(Begin(), Arm(0, due), maxPages);
            && Inv(j) && j.c == S.START
            && j.r.runner == R.Runner([R.Pending(0, KeyFor(0), true)], [R.Timer(KeyFor(0), 0, due)])
  {
    BeginInv();
    StepKeeps(Begin(), Arm(0, due), maxPages);
    assert Begin().r.runner.pending == [R.Pending(0, KeyFor(0), false)];
  }

  lemma FirstPageAnswered(j: Joint, due: int, rows: seq<S.Row>, maxPages: nat)
    requires 2 <= maxPages && Inv(j) && j.c == S.START
    requires j.r.runner == R.Runner([R.Pending(0, KeyFor(0), true)], [R.Timer(KeyFor(0), 0, due)])
    ensures var n := Next(j, Answer(KeyFor(0), S.Result(rows, [], S.MORE)), maxPages);
            && Inv(n) && |n.c.requests| == 2 && S.Last(n.c.requests) == S.Request(0, 2, S.MORE)
            && n.c.pending && n.c.terminals == []
            && n.r.runner == R.Runner([R.Pending(1, KeyFor(0), false)], [R.Timer(KeyFor(0), 0, due)])
  {
    var step := Answer(KeyFor(0), S.Result(rows, [], S.MORE));
    StepKeeps(j, step, maxPages);
    RunnerStepLeaves(j, step);
    assert R.FindKey(j.r.runner.pending, KeyFor(0)) == R.Some(KeyFor(0));
    assert R.Taken(j.r.runner.pending, KeyFor(0)) == R.Some(j.r.runner.pending[0]);
  }

  // It happens: the second page of a section is submitted when the first one answers, while the
  // first one's timer is outstanding; when that fires before the second answer, all is failed.
  lemma SecondPageLost(due: int, rows: seq<S.Row>, maxPages: nat) returns (armed: Joint, answered: Joint)
    requires 2 <= maxPages
    ensures armed == Next(Begin(), Arm(0, due), maxPages) && Inv(armed) && armed.c.pending
    ensures answered == Next(armed, Answer(KeyFor(0), S.Result(rows, [], S.MORE)), maxPages)
    ensures Inv(answered) && answered.c.pending && Enabled(answered, Timer(0))
    ensures var c := Next(answered, Timer(0), maxPages).c;
            |c.requests| == 2 && !c.pending && |c.terminals| == 1 && c.terminals[0].status == S.Failed
  {
    FirstPageArmed(due, maxPages);
    armed := Next(Begin(), Arm(0, due), maxPages);
    FirstPageAnswered(armed, due, rows, maxPages);
    answered := Next(armed, Answer(KeyFor(0), S.Result(rows, [], S.MORE)), maxPages);
    StalePageTimerFails(answered, 0, maxPages);
  }
}
