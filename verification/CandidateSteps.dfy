// What one event or one refresh makes of the candidate tables, row by row.

module CandidateSteps {
  import opened CandidateStore
  import opened CandidateRuns
  import opened CandidateLog

  // ---- counting the tables themselves ----------------------------------------------------------

  function SourcesOf(latest: map<SourceKey, Latest>, id: Id): set<SourceKey> {
    set k | k in latest && latest[k].candidate == id
  }

  function ActiveOf(latest: map<SourceKey, Latest>, id: Id): set<SourceKey> {
    set k | k in latest && latest[k].candidate == id && latest[k].active
  }

  function EventsOf(events: map<string, StoredEvent>, id: Id): set<string> {
    set e | e in events && events[e].candidate == Some(id)
  }

  lemma SameSets(latest: map<SourceKey, Latest>, events: map<string, StoredEvent>, id: Id)
    ensures SourceRows(latest, id, false) == SourcesOf(latest, id)
    ensures SourceRows(latest, id, true) == ActiveOf(latest, id)
    ensures EventRows(events, id) == EventsOf(events, id)
  {
  }

  // A row of the stock that is not closed.
  ghost predicate OpenAt(s: Store, stock: Stock, a: nat) {
    a < |s.rows| && s.rows[a].id.stock == stock && s.rows[a].state != Closed
  }

  ghost predicate NoneOpen(s: Store, stock: Stock) {
    forall a :: 0 <= a < |s.rows| && s.rows[a].id.stock == stock ==> s.rows[a].state == Closed
  }

  lemma OpenIsFound(s: Store, stock: Stock, a: nat)
    requires Inv(s) && OpenAt(s, stock, a)
    ensures FindActive(s.rows, stock) == Some(a)
  {
    FindActiveMeans(s.rows, stock);
  }

  lemma NoneIsFound(s: Store, stock: Stock)
    requires Inv(s) && NoneOpen(s, stock)
    ensures FindActive(s.rows, stock) == None
  {
    FindActiveMeans(s.rows, stock);
  }

  // ---- a refresh -------------------------------------------------------------------------------

  // The log after a change of state: one more row, unless there was no change or its row is there.
  ghost predicate LogsMove(log: seq<Transition>, row: Candidate, d: Decision, after: seq<Transition>) {
    var t := Transition(row.id, Some(row.state), d.next, d.kind, AtTime(d.now));
    after == if d.next == row.state || t in log then log else log + [t]
  }

  // Row `a` is decided on: the decided state, and the sources that point to it counted in `n`.
  ghost predicate Decided(s: Store, a: nat, d: Decision, n: Store)
    requires a < |s.rows|
  {
    var id := s.rows[a].id;
    && n.rows == s.rows[a := Candidate(id, d.next, |SourcesOf(n.latest, id)|, |ActiveOf(n.latest, id)|)]
    && LogsMove(s.log, s.rows[a], d, n.log)
  }

  // A refresh decides on its row and on nothing else, unless the row is closed or the refresh fails.
  lemma RefreshMeans(s: Store, a: nat, d: Decision)
    requires Inv(s) && a < |s.rows|
    ensures var n := Refresh(s, s.rows[a].id, d);
            if s.rows[a].state == Closed || d.fails then n == s
            else Decided(s, a, d, n) && n.events == s.events && n.latest == s.latest
  {
    IndexOfUnique(s.rows, a);
    SameSets(s.latest, s.events, s.rows[a].id);
  }

  // ---- an exit ---------------------------------------------------------------------------------

  // An exit with no open episode is only stored. Otherwise it is stored for the episode, switches its
  // own entry off and decides on the episode; a failing decision takes all of it back.
  lemma ExitMeans(s: Store, e: Event, d: Decision, a: nat)
    requires Inv(s) && e.source == ConditionExit && e.id !in s.events
    ensures NoneOpen(s, e.stock) ==> Ingest(s, e, d) == s.(events := s.events[e.id := StoredEvent(e, None, false)])
    ensures OpenAt(s, e.stock, a) && d.fails ==> Ingest(s, e, d) == s
    ensures OpenAt(s, e.stock, a) && !d.fails ==>
              var n := Ingest(s, e, d);
              && Decided(s, a, d, n)
              && n.events == s.events[e.id := StoredEvent(e, Some(s.rows[a].id), false)]
              && SwitchedOff(s.latest, s.rows[a].id, e, n.latest)
  {
    if NoneOpen(s, e.stock) {
      NoneIsFound(s, e.stock);
    } else if OpenAt(s, e.stock, a) {
      OpenIsFound(s, e.stock, a);
      if !d.fails {
        ExitDecides(s, e, d, a);
        forall k | k in s.latest ensures SwitchedAt(s.latest, s.rows[a].id, e, Ingest(s, e, d).latest, k) {
          ExitSwitchesOff(s, e, d, k);
        }
        ExitKeepsKeys(s, e, d);
      }
    }
  }

  ghost predicate SwitchedAt(latest: map<SourceKey, Latest>, id: Id, e: Event, after: map<SourceKey, Latest>, k: SourceKey)
    requires k in latest
  {
    && k in after
    && after[k] == if latest[k].candidate == id && k.source == ConditionEnter && k.sourceId == e.sourceId
                   then Latest(id, false, e.id) else latest[k]
  }

  ghost predicate SwitchedOff(latest: map<SourceKey, Latest>, id: Id, e: Event, after: map<SourceKey, Latest>) {
    after.Keys == latest.Keys && forall k :: k in latest ==> SwitchedAt(latest, id, e, after, k)
  }

  lemma ExitKeepsKeys(s: Store, e: Event, d: Decision)
    ensures Exit(s, e, d).latest.Keys == s.latest.Keys
  {
    var active := FindActive(s.rows, e.stock);
    if active.Some? && !d.fails {
      var id := s.rows[active.value].id;
      assert Exit(s, e, d).latest == Deactivated(s.latest, id, e);
    }
  }

  lemma ExitDecides(s: Store, e: Event, d: Decision, a: nat)
    requires Inv(s) && FindActive(s.rows, e.stock) == Some(a) && !d.fails
    ensures Decided(s, a, d, Exit(s, e, d))
    ensures Exit(s, e, d).events == s.events[e.id := StoredEvent(e, Some(s.rows[a].id), false)]
  {
    var synced := Left(s, e, d, a);
    RefreshMeans(synced, a, d);
    DecidedFrom(s, synced, a, d, Exit(s, e, d));
  }

  // The tables once the source is switched off and the counts are taken again.
  lemma Left(s: Store, e: Event, d: Decision, a: nat) returns (synced: Store)
    requires Inv(s) && FindActive(s.rows, e.stock) == Some(a) && !d.fails
    ensures Inv(synced) && SameIds(s.rows, synced.rows) && synced.log == s.log
    ensures forall j :: 0 <= j < |s.rows| && j != a ==> synced.rows[j] == s.rows[j]
    ensures synced.rows[a].state == s.rows[a].state
    ensures synced.events == s.events[e.id := StoredEvent(e, Some(s.rows[a].id), false)]
    ensures Exit(s, e, d) == Refresh(synced, s.rows[a].id, d)
  {
    var id := s.rows[a].id;
    var events := s.events[e.id := StoredEvent(e, Some(id), false)];
    var left := s.(events := events, latest := Deactivated(s.latest, id, e));
    DeactivateKeeps(s, a, e, events);
    SyncKeeps(left, a);
    IndexOfUnique(s.rows, a);
    synced := Sync(left, id);
  }

  lemma DecidedFrom(s: Store, synced: Store, a: nat, d: Decision, n: Store)
    requires SameIds(s.rows, synced.rows) && synced.log == s.log && a < |s.rows|
    requires forall j :: 0 <= j < |s.rows| && j != a ==> synced.rows[j] == s.rows[j]
    requires synced.rows[a].state == s.rows[a].state && Decided(synced, a, d, n)
    ensures Decided(s, a, d, n)
  {
    assert synced.rows[a := n.rows[a]] == s.rows[a := n.rows[a]];
  }

  // ---- any other event ---------------------------------------------------------------------------

  // The event is stored for the episode and its source row is active there.
  ghost predicate Joined(s: Store, e: Event, id: Id, n: Store) {
    && n.events == s.events[e.id := StoredEvent(e, Some(id), true)]
    && n.latest == s.latest[SourceKey(e.stock, e.source, e.sourceId) := Latest(id, true, e.id)]
  }

  // It joins the open episode, whose counts are taken again and whose state stays.
  ghost predicate Joins(s: Store, e: Event, a: nat, n: Store)
    requires a < |s.rows|
  {
    var id := s.rows[a].id;
    && Joined(s, e, id, n) && n.log == s.log
    && n.rows == s.rows[a := Candidate(id, s.rows[a].state, |EventsOf(n.events, id)|, |ActiveOf(n.latest, id)|)]
  }

  // It opens the next generation, detected and then hydrating, with a transition for each.
  ghost predicate Opens(s: Store, e: Event, n: Store) {
    var id := Id(e.stock, Count(s.rows, e.stock) + 1);
    && Joined(s, e, id, n)
    && n.rows == s.rows + [Candidate(id, Hydrating, |EventsOf(n.events, id)|, |ActiveOf(n.latest, id)|)]
    && n.log == s.log + [Transition(id, None, Detected, CandidateCreated, ByEvent(e.id)),
                         Transition(id, Some(Detected), Hydrating, StateChanged, ByEvent(e.id))]
  }

  // An event that is no exit joins the open episode of its stock, or opens the next one.
  lemma EntryMeans(s: Store, e: Event, d: Decision, a: nat)
    requires Inv(s) && LogKnown(s) && e.source != ConditionExit && e.id !in s.events
    ensures OpenAt(s, e.stock, a) ==> Joins(s, e, a, Ingest(s, e, d))
    ensures NoneOpen(s, e.stock) ==> Opens(s, e, Ingest(s, e, d))
  {
    if NoneOpen(s, e.stock) {
      NoneIsFound(s, e.stock);
      EntryOpens(s, e);
    } else if OpenAt(s, e.stock, a) {
      OpenIsFound(s, e.stock, a);
      LinkCounts(s, e, a);
    }
  }

  lemma LinkCounts(s: Store, e: Event, a: nat)
    requires Inv(s) && a < |s.rows|
    ensures Joins(s, e, a, Link(s, e, s.rows[a].id))
  {
    var id := s.rows[a].id;
    var n := Link(s, e, id);
    IndexOfUnique(s.rows, a);
    SameSets(n.latest, n.events, id);
  }

  lemma EntryOpens(s: Store, e: Event)
    requires Inv(s) && LogKnown(s) && FindActive(s.rows, e.stock) == None
    ensures Opens(s, e, Merge(s, e))
  {
    var c := Created(s, e);
    LinkOpened(s, c, e, Link(c, e, Id(e.stock, Count(s.rows, e.stock) + 1)));
  }

  // The new episode before its event is linked.
  lemma Created(s: Store, e: Event) returns (c: Store)
    requires Inv(s) && LogKnown(s) && FindActive(s.rows, e.stock) == None
    ensures var id := Id(e.stock, Count(s.rows, e.stock) + 1);
            && Inv(c) && c.rows == s.rows + [Candidate(id, Hydrating, 0, 0)]
            && c.events == s.events && c.latest == s.latest
            && c.log == s.log + [Transition(id, None, Detected, CandidateCreated, ByEvent(e.id)),
                                 Transition(id, Some(Detected), Hydrating, StateChanged, ByEvent(e.id))]
            && Merge(s, e) == Link(c, e, id)
  {
    c := Create(s, e);
    MaxIsCount(s.rows, e.stock);
    CreateKeeps(s, e);
    CreateLeaves(s, e);
    CreateLog(s, e);
  }

  lemma LinkOpened(s: Store, c: Store, e: Event, n: Store)
    requires var id := Id(e.stock, Count(s.rows, e.stock) + 1);
             && Inv(c) && c.rows == s.rows + [Candidate(id, Hydrating, 0, 0)]
             && c.events == s.events && c.latest == s.latest
             && c.log == s.log + [Transition(id, None, Detected, CandidateCreated, ByEvent(e.id)),
                                  Transition(id, Some(Detected), Hydrating, StateChanged, ByEvent(e.id))]
             && n == Link(c, e, id)
    ensures Opens(s, e, n)
  {
    var a := |s.rows|;
    assert c.rows[a].state == Hydrating;
    LinkCounts(c, e, a);
  }

  lemma CreateLog(s: Store, e: Event)
    requires Inv(s) && LogKnown(s)
    ensures var id := NewId(s, e.stock);
            Create(s, e).log == s.log + [Transition(id, None, Detected, CandidateCreated, ByEvent(e.id)),
                                         Transition(id, Some(Detected), Hydrating, StateChanged, ByEvent(e.id))]
  {
    var id := NewId(s, e.stock);
    CreateIs(s, e);
    InsertLog(s, e.stock, ByEvent(e.id));
  }

  // ---- in every run ------------------------------------------------------------------------------

  lemma StepKnown(s: Store, step: Step)
    requires Inv(s) && LogKnown(s)
    ensures LogKnown(Next(s, step))
  {
    match step
    case Refreshed(id, d) =>
      if a :| 0 <= a < |s.rows| && s.rows[a].id == id {
        RefreshMeans(s, a, d);
        RefreshExtends(s, id, d);
        if s.rows[a].state != Closed && !d.fails {
          DecidedKnown(s, a, d, Next(s, step));
        }
      }
    case Ingested(e, d) =>
      if e.id !in s.events {
        NextExtends(s, step);
        if e.source == ConditionExit {
          ExitKnown(s, e, d, Next(s, step));
        } else {
          EntryKnown(s, e, d, Next(s, step));
        }
      }
  }

  lemma SomeOpen(s: Store, stock: Stock) returns (open: bool, a: nat)
    ensures if open then OpenAt(s, stock, a) else NoneOpen(s, stock)
  {
    open, a := false, 0;
    if i: nat :| OpenAt(s, stock, i) {
      open, a := true, i;
    } else {
      forall i | 0 <= i < |s.rows| && s.rows[i].id.stock == stock ensures s.rows[i].state == Closed {
        assert !OpenAt(s, stock, i);
      }
    }
  }

  lemma ExitKnown(s: Store, e: Event, d: Decision, n: Store)
    requires Inv(s) && LogKnown(s) && e.id !in s.events && e.source == ConditionExit
    requires n == Ingest(s, e, d) && Extends(s, n)
    ensures LogKnown(n)
  {
    var open, a := SomeOpen(s, e.stock);
    ExitMeans(s, e, d, a);
    if open && !d.fails {
      DecidedKnown(s, a, d, n);
    } else {
      assert n.rows == s.rows && n.log == s.log;
      forall t | t in n.log ensures IndexOf(n.rows, t.id) < |n.rows| {
        assert t in s.log;
      }
    }
  }

  lemma EntryKnown(s: Store, e: Event, d: Decision, n: Store)
    requires Inv(s) && LogKnown(s) && e.id !in s.events && e.source != ConditionExit
    requires n == Ingest(s, e, d) && Extends(s, n)
    ensures LogKnown(n)
  {
    var open, a := SomeOpen(s, e.stock);
    EntryMeans(s, e, d, a);
    if open {
      JoinsKnown(s, e, a, n);
    } else {
      OpensKnown(s, e, n);
    }
  }

  lemma DecidedKnown(s: Store, a: nat, d: Decision, n: Store)
    requires LogKnown(s) && Extends(s, n) && a < |s.rows| && Decided(s, a, d, n)
    ensures LogKnown(n)
  {
    GrownKnown(s, n, a);
  }

  lemma JoinsKnown(s: Store, e: Event, a: nat, n: Store)
    requires LogKnown(s) && Extends(s, n) && a < |s.rows| && Joins(s, e, a, n)
    ensures LogKnown(n)
  {
    GrownKnown(s, n, a);
  }

  lemma OpensKnown(s: Store, e: Event, n: Store)
    requires LogKnown(s) && Extends(s, n) && Opens(s, e, n)
    ensures LogKnown(n)
  {
    GrownKnown(s, n, |s.rows|);
  }

  lemma GrownKnown(s: Store, n: Store, a: nat)
    requires LogKnown(s) && Extends(s, n) && a < |n.rows|
    requires forall t :: t in n.log ==> t in s.log || t.id == n.rows[a].id
    ensures LogKnown(n)
  {
    forall t | t in n.log ensures IndexOf(n.rows, t.id) < |n.rows| {
      if t in s.log {
        var i := IndexOf(s.rows, t.id);
        assert n.rows[i].id == t.id;
      }
      IndexOfIsFirst(n.rows, t.id);
    }
  }

  lemma {:induction false} RunKnown(s: Store, steps: seq<Step>)
    requires Inv(s) && LogKnown(s)
    ensures Inv(Execute(s, steps)) && LogKnown(Execute(s, steps))
    decreases steps
  {
    if steps != [] {
      StepKeeps(s, steps[0]);
      StepKnown(s, steps[0]);
      RunKnown(Next(s, steps[0]), steps[1..]);
    }
  }

  // After any run, an event that is no exit joins or opens an episode just so.
  lemma EntriesInRuns(steps: seq<Step>, e: Event, d: Decision, a: nat)
    requires e.source != ConditionExit && e.id !in Execute(EMPTY, steps).events
    ensures var s := Execute(EMPTY, steps);
            && (OpenAt(s, e.stock, a) ==> Joins(s, e, a, Ingest(s, e, d)))
            && (NoneOpen(s, e.stock) ==> Opens(s, e, Ingest(s, e, d)))
  {
    RunKnown(EMPTY, steps);
    EntryMeans(Execute(EMPTY, steps), e, d, a);
  }
}
