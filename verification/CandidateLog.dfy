// The transition log: when it leads every candidate from nothing to its present state.

module CandidateLog {
  import opened CandidateStore
  import opened CandidateRuns

  // Following a candidate's transitions: not born yet, in a state, or off the path.
  datatype Trace = Unborn | At(state: State) | Broken

  function Replay(log: seq<Transition>, id: Id): Trace {
    if log == [] then Unborn
    else
      var n := |log| - 1;
      var before := Replay(log[..n], id);
      var t := log[n];
      if t.id != id then before
      else if (before.Unborn? && t.from.None?) || (before.At? && t.from == Some(before.state)) then At(t.to)
      else Broken
  }

  ghost predicate OnPath(s: Store, i: nat)
    requires i < |s.rows|
  {
    Replay(s.log, s.rows[i].id) == At(s.rows[i].state)
  }

  ghost predicate AllOnPath(s: Store) {
    forall i :: 0 <= i < |s.rows| ==> OnPath(s, i)
  }

  ghost predicate LogKnown(s: Store) {
    forall t :: t in s.log ==> IndexOf(s.rows, t.id) < |s.rows|
  }

  ghost predicate Logged(s: Store) {
    AllOnPath(s) && LogKnown(s)
  }

  // ---- when a transition is recorded -----------------------------------------------------------

  // The transition a refresh would record.
  function Planned(row: Candidate, d: Decision): Transition {
    Transition(row.id, Some(row.state), d.next, d.kind, AtTime(d.now))
  }

  predicate Moves(row: Candidate, d: Decision) {
    row.state != Closed && !d.fails && d.next != row.state
  }

  // A refresh that changes the state records a transition no stored one equals.
  predicate FreshFor(s: Store, id: Id, d: Decision) {
    var i := IndexOf(s.rows, id);
    i < |s.rows| && Moves(s.rows[i], d) ==> Planned(s.rows[i], d) !in s.log
  }

  predicate Fresh(s: Store, step: Step) {
    match step
    case Ingested(e, d) =>
      var active := FindActive(s.rows, e.stock);
      e.id !in s.events && e.source == ConditionExit && active.Some? ==> FreshFor(s, s.rows[active.value].id, d)
    case Refreshed(id, d) => FreshFor(s, id, d)
  }

  predicate AllFresh(s: Store, steps: seq<Step>)
    decreases steps
  {
    steps == [] || (Fresh(s, steps[0]) && AllFresh(Next(s, steps[0]), steps[1..]))
  }

  // ---- replaying -------------------------------------------------------------------------------

  lemma ReplayNext(log: seq<Transition>, t: Transition, id: Id)
    ensures Replay(log + [t], id) ==
            if t.id != id then Replay(log, id)
            else if (Replay(log, id).Unborn? && t.from.None?)
                    || (Replay(log, id).At? && t.from == Some(Replay(log, id).state)) then At(t.to)
            else Broken
  {
    assert (log + [t])[..|log|] == log;
  }

  lemma {:induction false} UnbornIfAbsent(log: seq<Transition>, id: Id)
    requires forall t :: t in log ==> t.id != id
    ensures Replay(log, id) == Unborn
    decreases |log|
  {
    if log != [] {
      assert log[|log| - 1] in log;
      UnbornIfAbsent(log[..|log| - 1], id);
    }
  }

  // Changes elsewhere than in states and log leave every path as it is.
  lemma SamePaths(s: Store, n: Store)
    requires SameIds(s.rows, n.rows) && s.log == n.log
    requires forall i :: 0 <= i < |s.rows| ==> s.rows[i].state == n.rows[i].state
    ensures AllOnPath(s) <==> AllOnPath(n)
    ensures LogKnown(s) ==> LogKnown(n)
  {
    forall i | 0 <= i < |s.rows| ensures OnPath(s, i) <==> OnPath(n, i) {
    }
    forall t | t in n.log ensures IndexOf(n.rows, t.id) == IndexOf(s.rows, t.id) {
      IndexOfSameIds(s.rows, n.rows, t.id);
    }
  }

  // A recorded transition carries the candidate's path on; the others' stay as they were.
  lemma SetStateLogged(s: Store, i: nat, next: State, kind: Kind, cause: Cause)
    requires Numbered(s.rows) && Logged(s) && i < |s.rows|
    requires s.rows[i].state != next
    requires Transition(s.rows[i].id, Some(s.rows[i].state), next, kind, cause) !in s.log
    ensures Logged(SetState(s, i, next, kind, cause))
  {
    var n := SetState(s, i, next, kind, cause);
    var t := Transition(s.rows[i].id, Some(s.rows[i].state), next, kind, cause);
    forall u | u in n.log ensures IndexOf(n.rows, u.id) < |n.rows| {
      IndexOfUnique(s.rows, i);
      IndexOfSameIds(s.rows, n.rows, u.id);
    }
    forall j | 0 <= j < |n.rows| ensures OnPath(n, j) {
      assert OnPath(s, j);
      ReplayNext(s.log, t, n.rows[j].id);
      if n.rows[j].id == s.rows[i].id {
        DistinctIds(s.rows, i, j);
      }
    }
  }

  // One that is stored already is not recorded again, and the path falls behind the state.
  lemma SetStateClash(s: Store, i: nat, next: State, kind: Kind, cause: Cause)
    requires AllOnPath(s) && i < |s.rows| && s.rows[i].state != next
    requires Transition(s.rows[i].id, Some(s.rows[i].state), next, kind, cause) in s.log
    ensures !OnPath(SetState(s, i, next, kind, cause), i)
  {
    assert OnPath(s, i);
  }

  // ---- new episodes ----------------------------------------------------------------------------

  lemma InsertLog(s: Store, stock: Stock, cause: Cause)
    requires Inv(s) && LogKnown(s)
    ensures var id := NewId(s, stock);
            && (forall t :: t in s.log ==> t.id != id)
            && Insert(s, id, cause).log == s.log + [Transition(id, None, Detected, CandidateCreated, cause)]
  {
    NewIdAbsent(s, stock);
  }

  lemma InsertPaths(s: Store, stock: Stock, cause: Cause, i: nat)
    requires Inv(s) && Logged(s) && i < |Insert(s, NewId(s, stock), cause).rows|
    ensures OnPath(Insert(s, NewId(s, stock), cause), i)
  {
    var id := NewId(s, stock);
    var row := Insert(s, id, cause).rows[i];
    InsertLog(s, stock, cause);
    UnbornIfAbsent(s.log, id);
    ReplayNext(s.log, Transition(id, None, Detected, CandidateCreated, cause), row.id);
    if i < |s.rows| {
      assert OnPath(s, i);
      NewIdAbsent(s, stock);
      IndexOfIsFirst(s.rows, id);
    }
  }

  lemma InsertLogged(s: Store, stock: Stock, cause: Cause)
    requires Inv(s) && Logged(s)
    ensures Logged(Insert(s, NewId(s, stock), cause))
  {
    var id := NewId(s, stock);
    var n := Insert(s, id, cause);
    InsertLog(s, stock, cause);
    forall i | 0 <= i < |n.rows| ensures OnPath(n, i) {
      InsertPaths(s, stock, cause, i);
    }
    forall u | u in n.log ensures IndexOf(n.rows, u.id) < |n.rows| {
      NewIdAbsent(s, stock);
      IndexOfAppend(s.rows, Candidate(id, Detected, 0, 0), u.id);
    }
  }

  // A new episode's own transitions are always new.
  lemma CreateLogged(s: Store, e: Event)
    requires Inv(s) && Logged(s) && FindActive(s.rows, e.stock).None?
    ensures Logged(Create(s, e))
  {
    var inserted := Insert(s, NewId(s, e.stock), ByEvent(e.id));
    CreateIs(s, e);
    InsertKeeps(s, e.stock, ByEvent(e.id));
    InsertLogged(s, e.stock, ByEvent(e.id));
    InsertLog(s, e.stock, ByEvent(e.id));
    SetStateLogged(inserted, |s.rows|, Hydrating, StateChanged, ByEvent(e.id));
  }

  // ---- steps -----------------------------------------------------------------------------------

  lemma SyncLogged(s: Store, id: Id)
    requires Logged(s)
    ensures Logged(Sync(s, id)) && SameIds(s.rows, Sync(s, id).rows) && Sync(s, id).log == s.log
    ensures forall i :: 0 <= i < |s.rows| ==> Sync(s, id).rows[i].state == s.rows[i].state
  {
    SamePaths(s, Sync(s, id));
  }

  lemma MergeLogged(s: Store, e: Event)
    requires Inv(s) && Logged(s)
    ensures Logged(Merge(s, e))
  {
    var active := FindActive(s.rows, e.stock);
    if active.Some? {
      LinkLogged(s, e, s.rows[active.value].id);
    } else {
      CreateLogged(s, e);
      LinkLogged(Create(s, e), e, NewId(s, e.stock));
    }
  }

  lemma LinkLogged(s: Store, e: Event, id: Id)
    requires Logged(s)
    ensures Logged(Link(s, e, id))
  {
    var linked := s.(
      events := s.events[e.id := StoredEvent(e, Some(id), true)],
      latest := s.latest[SourceKey(e.stock, e.source, e.sourceId) := Latest(id, true, e.id)]);
    SamePaths(s, linked);
    SyncLogged(linked, id);
  }

  // A refresh keeps every path exactly when the transition it makes, if any, is new.
  lemma RefreshLogged(s: Store, id: Id, d: Decision)
    requires Numbered(s.rows) && Logged(s)
    ensures FreshFor(s, id, d) ==> Logged(Refresh(s, id, d))
    ensures !FreshFor(s, id, d) ==> !AllOnPath(Refresh(s, id, d))
  {
    var i := IndexOf(s.rows, id);
    if i < |s.rows| && s.rows[i].state != Closed && !d.fails {
      var counted := s.rows[i].(sourceCount := |SourceRows(s.latest, id, false)|,
                                activeCount := |SourceRows(s.latest, id, true)|);
      var n := s.(rows := s.rows[i := counted]);
      SamePaths(s, n);
      NumberedSameIds(s.rows, n.rows);
      if d.next != s.rows[i].state {
        if Planned(s.rows[i], d) in s.log {
          SetStateClash(n, i, d.next, d.kind, AtTime(d.now));
        } else {
          SetStateLogged(n, i, d.next, d.kind, AtTime(d.now));
        }
      }
    }
  }

  lemma ExitLogged(s: Store, e: Event, d: Decision)
    requires Inv(s) && Logged(s) && e.id !in s.events && e.source == ConditionExit
    ensures Fresh(s, Ingested(e, d)) ==> Logged(Exit(s, e, d))
    ensures !Fresh(s, Ingested(e, d)) ==> !AllOnPath(Exit(s, e, d))
  {
    var active := FindActive(s.rows, e.stock);
    if active.None? {
      SamePaths(s, Exit(s, e, d));
    } else if !d.fails {
      var id := s.rows[active.value].id;
      var left := s.(events := s.events[e.id := StoredEvent(e, Some(id), false)],
                     latest := Deactivated(s.latest, id, e));
      SamePaths(s, left);
      SyncLogged(left, id);
      NumberedSameIds(s.rows, Sync(left, id).rows);
      IndexOfSameIds(s.rows, Sync(left, id).rows, id);
      assert FreshFor(Sync(left, id), id, d) == FreshFor(s, id, d);
      RefreshLogged(Sync(left, id), id, d);
    }
  }

  lemma StepLogged(s: Store, step: Step)
    requires Inv(s) && Logged(s)
    ensures Fresh(s, step) ==> Logged(Next(s, step))
    ensures !Fresh(s, step) ==> !AllOnPath(Next(s, step))
  {
    match step
    case Ingested(e, d) =>
      if e.id !in s.events {
        if e.source == ConditionExit {
          ExitLogged(s, e, d);
        } else {
          MergeLogged(s, e);
        }
      }
    case Refreshed(id, d) => RefreshLogged(s, id, d);
  }

  lemma {:induction false} RunLogged(s: Store, steps: seq<Step>)
    requires Inv(s) && Logged(s) && AllFresh(s, steps)
    ensures Logged(Execute(s, steps))
    decreases steps
  {
    if steps != [] {
      StepLogged(s, steps[0]);
      StepKeeps(s, steps[0]);
      RunLogged(Next(s, steps[0]), steps[1..]);
    }
  }

  // ---- main results ------------------------------------------------------------------------------

  // With new identities, each candidate's transitions lead from nothing, one to the next, to its
  // present state.
  lemma LogLeadsToState(steps: seq<Step>, i: nat)
    requires AllFresh(EMPTY, steps) && i < |Execute(EMPTY, steps).rows|
    ensures var s := Execute(EMPTY, steps);
            Replay(s.log, s.rows[i].id) == At(s.rows[i].state)
  {
    RunLogged(EMPTY, steps);
    assert OnPath(Execute(EMPTY, steps), i);
  }

  lemma {:induction false} FirstClash(s: Store, steps: seq<Step>) returns (n: nat)
    requires Inv(s) && Logged(s) && !AllFresh(s, steps)
    ensures n <= |steps| && !AllOnPath(Execute(s, steps[..n]))
    decreases steps
  {
    StepLogged(s, steps[0]);
    if Fresh(s, steps[0]) {
      StepKeeps(s, steps[0]);
      var k := FirstClash(Next(s, steps[0]), steps[1..]);
      n := k + 1;
      assert steps[..n][1..] == steps[1..][..k];
    } else {
      n := 1;
      assert steps[..1][1..] == [];
      assert Execute(s, steps[..1]) == Execute(Next(s, steps[0]), []);
    }
  }

  lemma {:induction false} FreshPrefix(s: Store, steps: seq<Step>, n: nat)
    requires AllFresh(s, steps) && n <= |steps|
    ensures AllFresh(s, steps[..n])
    decreases n
  {
    if n > 0 {
      assert steps[..n][1..] == steps[1..][..n - 1];
      FreshPrefix(Next(s, steps[0]), steps[1..], n - 1);
    }
  }

  // The log leads every candidate to its state at every point of a run exactly when no step of
  // the run makes a transition whose identity is stored already.
  lemma LogKeepsUpIffFresh(steps: seq<Step>)
    ensures AllFresh(EMPTY, steps) <==> forall n :: 0 <= n <= |steps| ==> AllOnPath(Execute(EMPTY, steps[..n]))
  {
    if AllFresh(EMPTY, steps) {
      forall n | 0 <= n <= |steps| ensures AllOnPath(Execute(EMPTY, steps[..n])) {
        FreshPrefix(EMPTY, steps, n);
        RunLogged(EMPTY, steps[..n]);
      }
    } else {
      var n := FirstClash(EMPTY, steps);
    }
  }

  // ---- a guard on the clock ----------------------------------------------------------------------

  // The candidate a step may refresh, and when.
  function Touched(s: Store, step: Step): Option<Id> {
    match step
    case Ingested(e, _) =>
      var active := FindActive(s.rows, e.stock);
      if e.source == ConditionExit && active.Some? then Some(s.rows[active.value].id) else None
    case Refreshed(id, _) => Some(id)
  }

  // Each candidate's refreshes carry strictly increasing times; `last` holds the latest of each.
  predicate ClockRises(s: Store, steps: seq<Step>, last: map<Id, int>)
    decreases steps
  {
    steps == []
    || match Touched(s, steps[0])
       case None => ClockRises(Next(s, steps[0]), steps[1..], last)
       case Some(id) =>
         (id in last ==> last[id] < steps[0].d.now)
         && ClockRises(Next(s, steps[0]), steps[1..], last[id := steps[0].d.now])
  }

  ghost predicate TimesKnown(log: seq<Transition>, last: map<Id, int>) {
    forall t :: t in log && t.cause.AtTime? ==> t.id in last && t.cause.time <= last[t.id]
  }

  lemma RefreshAdds(s: Store, id: Id, d: Decision, t: Transition)
    requires t in Refresh(s, id, d).log && t !in s.log
    ensures t.id == id && t.cause == AtTime(d.now)
  {
  }

  lemma CreateAdds(s: Store, e: Event, t: Transition)
    requires t in Create(s, e).log && t !in s.log
    ensures t.cause == ByEvent(e.id)
  {
  }

  // A step adds transitions of its own event, or one of the candidate it refreshes at its time.
  lemma StepAdds(s: Store, step: Step, t: Transition)
    requires t in Next(s, step).log && t !in s.log && t.cause.AtTime?
    ensures Touched(s, step) == Some(t.id) && t.cause.time == step.d.now
  {
    match step
    case Ingested(e, d) =>
      if e.source == ConditionExit {
        var active := FindActive(s.rows, e.stock);
        if active.Some? && !d.fails {
          var id := s.rows[active.value].id;
          var left := s.(events := s.events[e.id := StoredEvent(e, Some(id), false)],
                         latest := Deactivated(s.latest, id, e));
          RefreshAdds(Sync(left, id), id, d, t);
        }
      } else if FindActive(s.rows, e.stock).None? {
        CreateAdds(s, e, t);
      }
    case Refreshed(id, d) => RefreshAdds(s, id, d, t);
  }

  lemma LaterIsFresh(s: Store, step: Step, last: map<Id, int>)
    requires TimesKnown(s.log, last)
    requires Touched(s, step).Some? ==> Touched(s, step).value in last ==> last[Touched(s, step).value] < step.d.now
    ensures Fresh(s, step)
  {
  }

  lemma TimesStayKnown(s: Store, step: Step, last: map<Id, int>)
    requires TimesKnown(s.log, last)
    requires Touched(s, step).Some? ==> Touched(s, step).value in last ==> last[Touched(s, step).value] < step.d.now
    ensures TimesKnown(Next(s, step).log,
                       if Touched(s, step).Some? then last[Touched(s, step).value := step.d.now] else last)
  {
    forall t | t in Next(s, step).log && t !in s.log && t.cause.AtTime?
      ensures Touched(s, step) == Some(t.id) && t.cause.time == step.d.now
    {
      StepAdds(s, step, t);
    }
  }

  lemma {:induction false} RisingClockIsFresh(s: Store, steps: seq<Step>, last: map<Id, int>)
    requires TimesKnown(s.log, last) && ClockRises(s, steps, last)
    ensures AllFresh(s, steps)
    decreases steps
  {
    if steps != [] {
      LaterIsFresh(s, steps[0], last);
      TimesStayKnown(s, steps[0], last);
      RisingClockIsFresh(Next(s, steps[0]), steps[1..],
                         if Touched(s, steps[0]).Some? then last[Touched(s, steps[0]).value := steps[0].d.now] else last);
    }
  }

  // When no candidate is refreshed twice at one time and its refreshes go forward in time, the log
  // leads every candidate to its state at every point of the run.
  lemma RisingClockKeepsLog(steps: seq<Step>, n: nat)
    requires ClockRises(EMPTY, steps, map[]) && n <= |steps|
    ensures AllOnPath(Execute(EMPTY, steps[..n]))
  {
    RisingClockIsFresh(EMPTY, steps, map[]);
    LogKeepsUpIffFresh(steps);
  }

  // A refresh that moves a candidate keeps its path exactly when the transition is new.
  lemma PathKeptIffFresh(steps: seq<Step>, i: nat, d: Decision)
    requires AllFresh(EMPTY, steps) && i < |Execute(EMPTY, steps).rows|
    requires Moves(Execute(EMPTY, steps).rows[i], d)
    ensures var s := Execute(EMPTY, steps);
            var n := Refresh(s, s.rows[i].id, d);
            && |n.rows| == |s.rows| && n.rows[i].state == d.next
            && (OnPath(n, i) <==> Planned(s.rows[i], d) !in s.log)
  {
    EveryRun(steps);
    RunLogged(EMPTY, steps);
    var s := Execute(EMPTY, steps);
    IndexOfUnique(s.rows, i);
    assert OnPath(s, i);
    ReplayNext(s.log, Planned(s.rows[i], d), s.rows[i].id);
  }

  // ---- a clashing run ----------------------------------------------------------------------------

  function To(id: Id, next: State, now: int): Step {
    Refreshed(id, Decision(next, StateChanged, now, false))
  }

  // One stock's first episode, which moves there and back and there again within one clock tick.
  function ThereAndBack(e: Event, d: Decision, now: int): seq<Step> {
    var id := Id(e.stock, 1);
    [Ingested(e, d), To(id, Watching, now), To(id, DataWait, now), To(id, Watching, now), To(id, DataWait, now)]
  }

  ghost predicate OnlyEpisode(s: Store, id: Id, state: State) {
    |s.rows| == 1 && s.rows[0].id == id && s.rows[0].state == state
  }

  lemma FirstIngest(e: Event, d: Decision)
    requires e.source != ConditionExit
    ensures OnlyEpisode(Next(EMPTY, Ingested(e, d)), Id(e.stock, 1), Hydrating)
    ensures Logged(Next(EMPTY, Ingested(e, d))) && Inv(Next(EMPTY, Ingested(e, d)))
    ensures forall t :: t in Next(EMPTY, Ingested(e, d)).log ==> t.cause == ByEvent(e.id)
  {
    StepKeeps(EMPTY, Ingested(e, d));
    MergeLogged(EMPTY, e);
    CreateIs(EMPTY, e);
    InsertLog(EMPTY, e.stock, ByEvent(e.id));
  }

  lemma MoveTo(s: Store, id: Id, from: State, next: State, now: int)
    requires OnlyEpisode(s, id, from) && from != Closed && from != next && Inv(s) && Logged(s)
    requires Transition(id, Some(from), next, StateChanged, AtTime(now)) !in s.log
    ensures var n := Next(s, To(id, next, now));
            && OnlyEpisode(n, id, next) && Inv(n) && Logged(n)
            && n.log == s.log + [Transition(id, Some(from), next, StateChanged, AtTime(now))]
  {
    StepKeeps(s, To(id, next, now));
    StepLogged(s, To(id, next, now));
  }

  lemma BackAgain(s: Store, id: Id, now: int)
    requires OnlyEpisode(s, id, Hydrating) && Inv(s) && Logged(s)
    requires forall t :: t in s.log ==> t.cause != AtTime(now)
    ensures var n := Next(Next(Next(s, To(id, Watching, now)), To(id, DataWait, now)), To(id, Watching, now));
            && OnlyEpisode(n, id, Watching) && Logged(n)
            && Transition(id, Some(Watching), DataWait, StateChanged, AtTime(now)) in n.log
  {
    MoveTo(s, id, Hydrating, Watching, now);
    var s2 := Next(s, To(id, Watching, now));
    MoveTo(s2, id, Watching, DataWait, now);
    var s3 := Next(s2, To(id, DataWait, now));
    MoveTo(s3, id, DataWait, Watching, now);
    assert s3.log[|s3.log| - 1] in s3.log;
  }

  lemma SecondMove(s: Store, id: Id, now: int)
    requires OnlyEpisode(s, id, Watching) && Logged(s)
    requires Transition(id, Some(Watching), DataWait, StateChanged, AtTime(now)) in s.log
    ensures var n := Next(s, To(id, DataWait, now));
            OnlyEpisode(n, id, DataWait) && Replay(n.log, id) == At(Watching)
  {
    assert OnPath(s, 0);
  }

  // Two moves between the same states at one time share an identity. The second is not recorded,
  // and the log stops one state behind the candidate.
  lemma ClashLosesTransition(e: Event, d: Decision, now: int)
    requires e.source != ConditionExit
    ensures var s := Execute(EMPTY, ThereAndBack(e, d, now));
            OnlyEpisode(s, Id(e.stock, 1), DataWait) && Replay(s.log, Id(e.stock, 1)) == At(Watching)
  {
    var id := Id(e.stock, 1);
    FirstIngest(e, d);
    var s1 := Next(EMPTY, Ingested(e, d));
    BackAgain(s1, id, now);
    SecondMove(Next(Next(Next(s1, To(id, Watching, now)), To(id, DataWait, now)), To(id, Watching, now)), id, now);
    FiveSteps(EMPTY, ThereAndBack(e, d, now));
  }

  lemma FiveSteps(s: Store, steps: seq<Step>)
    requires |steps| == 5
    ensures Execute(s, steps) == Next(Next(Next(Next(Next(s, steps[0]), steps[1]), steps[2]), steps[3]), steps[4])
  {
    var s1 := Next(s, steps[0]);
    var s2 := Next(s1, steps[1]);
    var s3 := Next(s2, steps[2]);
    var s4 := Next(s3, steps[3]);
    assert Execute(s4, steps[1..][1..][1..][1..]) == Next(s4, steps[4]);
    assert Execute(s3, steps[1..][1..][1..]) == Execute(s4, steps[1..][1..][1..][1..]);
    assert Execute(s2, steps[1..][1..]) == Execute(s3, steps[1..][1..][1..]);
    assert Execute(s1, steps[1..]) == Execute(s2, steps[1..][1..]);
  }
}
