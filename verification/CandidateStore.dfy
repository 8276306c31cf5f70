// Candidate episodes, their sources and their transition log, as tables.

module CandidateStore {

  datatype Option<T> = None | Some(value: T)

  datatype State =
    | Detected | Hydrating | Watching | ContextReady | DataWait
    | BlockedObservation | Stale | Cooldown | Closed

  datatype SourceType = ConditionEnter | ConditionExit | OtherSource(name: string)

  datatype Kind = CandidateCreated | StateChanged | CandidateStale | CandidateClosed

  datatype Stock = Stock(date: string, code: string)

  // The instance id is built from the stock and the generation.
  datatype Id = Id(stock: Stock, generation: nat)

  datatype Candidate = Candidate(id: Id, state: State, sourceCount: nat, activeCount: nat)

  datatype Event = Event(id: string, stock: Stock, source: SourceType, sourceId: string)

  datatype StoredEvent = StoredEvent(event: Event, candidate: Option<Id>, active: bool)

  datatype SourceKey = SourceKey(stock: Stock, source: SourceType, sourceId: string)

  datatype Latest = Latest(candidate: Id, active: bool, lastEvent: string)

  // A transition is identified by its candidate, states, kind and what caused it.
  datatype Cause = ByEvent(id: string) | AtTime(time: int)

  datatype Transition = Transition(id: Id, from: Option<State>, to: State, kind: Kind, cause: Cause)

  datatype Store = Store(
    rows: seq<Candidate>,
    events: map<string, StoredEvent>,
    latest: map<SourceKey, Latest>,
    log: seq<Transition>)

  const EMPTY := Store([], map[], map[], [])

  // What the state machine decided at a refresh, or that the refresh failed.
  datatype Decision = Decision(next: State, kind: Kind, now: int, fails: bool)

  // ---- queries -----------------------------------------------------------------------------------

  function MaxGeneration(rows: seq<Candidate>, stock: Stock): nat {
    if rows == [] then 0
    else
      var n := |rows| - 1;
      var before := MaxGeneration(rows[..n], stock);
      if rows[n].id.stock == stock && rows[n].id.generation > before then rows[n].id.generation else before
  }

  // The open episode of the highest generation.
  function FindActive(rows: seq<Candidate>, stock: Stock): (i: Option<nat>)
    ensures i.Some? ==> i.value < |rows| && rows[i.value].id.stock == stock && rows[i.value].state != Closed
  {
    if rows == [] then None
    else
      var n := |rows| - 1;
      var before := FindActive(rows[..n], stock);
      if rows[n].id.stock == stock && rows[n].state != Closed
         && (before.None? || rows[before.value].id.generation < rows[n].id.generation)
      then Some(n) else before
  }

  function IndexOf(rows: seq<Candidate>, id: Id): (i: nat)
    ensures i <= |rows|
    ensures i < |rows| ==> rows[i].id == id
  {
    if rows == [] || rows[0].id == id then 0 else 1 + IndexOf(rows[1..], id)
  }

  function SourceRows(latest: map<SourceKey, Latest>, id: Id, activeOnly: bool): set<SourceKey> {
    set k | k in latest && latest[k].candidate == id && (activeOnly ==> latest[k].active)
  }

  function EventRows(events: map<string, StoredEvent>, id: Id): set<string> {
    set e | e in events && events[e].candidate == Some(id)
  }

  // ---- writes ------------------------------------------------------------------------------------

  // A transition whose identity is already stored is ignored.
  function Record(log: seq<Transition>, t: Transition): seq<Transition> {
    if t in log then log else log + [t]
  }

  function SetState(s: Store, i: nat, next: State, kind: Kind, cause: Cause): Store
    requires i < |s.rows|
  {
    var row := s.rows[i];
    if row.state == next then s
    else s.(rows := s.rows[i := row.(state := next)],
            log := Record(s.log, Transition(row.id, Some(row.state), next, kind, cause)))
  }

  function Transit(s: Store, id: Id, next: State, kind: Kind, cause: Cause): Store {
    var i := IndexOf(s.rows, id);
    if i < |s.rows| then SetState(s, i, next, kind, cause) else s
  }

  function Sync(s: Store, id: Id): Store {
    var i := IndexOf(s.rows, id);
    if i == |s.rows| then s
    else s.(rows := s.rows[i := s.rows[i].(sourceCount := |EventRows(s.events, id)|,
                                           activeCount := |SourceRows(s.latest, id, true)|)])
  }

  function Insert(s: Store, id: Id, cause: Cause): Store {
    s.(rows := s.rows + [Candidate(id, Detected, 0, 0)],
       log := Record(s.log, Transition(id, None, Detected, CandidateCreated, cause)))
  }

  function NewId(s: Store, stock: Stock): Id {
    Id(stock, MaxGeneration(s.rows, stock) + 1)
  }

  function Create(s: Store, e: Event): Store {
    var id := NewId(s, e.stock);
    Transit(Insert(s, id, ByEvent(e.id)), id, Hydrating, StateChanged, ByEvent(e.id))
  }

  function Link(s: Store, e: Event, id: Id): Store {
    var linked := s.(
      events := s.events[e.id := StoredEvent(e, Some(id), true)],
      latest := s.latest[SourceKey(e.stock, e.source, e.sourceId) := Latest(id, true, e.id)]);
    Sync(linked, id)
  }

  function Merge(s: Store, e: Event): Store {
    var active := FindActive(s.rows, e.stock);
    if active.Some? then Link(s, e, s.rows[active.value].id)
    else Link(Create(s, e), e, NewId(s, e.stock))
  }

  function Refresh(s: Store, id: Id, d: Decision): Store {
    var i := IndexOf(s.rows, id);
    if i == |s.rows| || s.rows[i].state == Closed || d.fails then s
    else
      var counted := s.rows[i].(sourceCount := |SourceRows(s.latest, id, false)|,
                                activeCount := |SourceRows(s.latest, id, true)|);
      SetState(s.(rows := s.rows[i := counted]), i, d.next, d.kind, AtTime(d.now))
  }

  function Deactivated(latest: map<SourceKey, Latest>, id: Id, e: Event): map<SourceKey, Latest> {
    map k | k in latest ::
      if latest[k].candidate == id && k.source == ConditionEnter && k.sourceId == e.sourceId
      then latest[k].(active := false, lastEvent := e.id) else latest[k]
  }

  // A refresh that fails takes the whole exit event back.
  function Exit(s: Store, e: Event, d: Decision): Store {
    var active := FindActive(s.rows, e.stock);
    if active.None? then s.(events := s.events[e.id := StoredEvent(e, None, false)])
    else if d.fails then s
    else
      var id := s.rows[active.value].id;
      var left := s.(events := s.events[e.id := StoredEvent(e, Some(id), false)],
                     latest := Deactivated(s.latest, id, e));
      Refresh(Sync(left, id), id, d)
  }

  function Ingest(s: Store, e: Event, d: Decision): Store {
    if e.id in s.events then s
    else if e.source == ConditionExit then Exit(s, e, d)
    else Merge(s, e)
  }

  class CandidateService {
    const candidateFsmEnabled: bool
    var candidates: seq<Candidate>
    var sourceEvents: map<string, StoredEvent>
    var sourcesLatest: map<SourceKey, Latest>
    var transitions: seq<Transition>

    ghost function Model(): Store
      reads this
    {
      Store(candidates, sourceEvents, sourcesLatest, transitions)
    }

    constructor (enabled: bool)
      ensures Model() == EMPTY && candidateFsmEnabled == enabled
    {
      candidateFsmEnabled := enabled;
      candidates, sourceEvents, sourcesLatest, transitions := [], map[], map[], [];
    }

    method RecordTransition(t: Transition) returns (inserted: nat)
      modifies this`transitions
      ensures transitions == Record(old(transitions), t)
      ensures inserted == |transitions| - |old(transitions)|
    {
      if t in transitions {
        return 0;
      }
      transitions := transitions + [t];
      return 1;
    }

    method ApplyStateTransition(id: Id, next: State, kind: Kind, cause: Cause)
      modifies this`candidates, this`transitions
      ensures Model() == Transit(old(Model()), id, next, kind, cause)
    {
      var i := IndexOf(candidates, id);
      if i == |candidates| || candidates[i].state == next {
        return;
      }
      var from := candidates[i].state;
      candidates := candidates[i := candidates[i].(state := next)];
      var _ := RecordTransition(Transition(id, Some(from), next, kind, cause));
    }

    method SyncSourceCounts(id: Id)
      modifies this`candidates
      ensures Model() == Sync(old(Model()), id)
    {
      var i := IndexOf(candidates, id);
      if i < |candidates| {
        var sourceCount := |EventRows(sourceEvents, id)|;
        var activeCount := |SourceRows(sourcesLatest, id, true)|;
        candidates := candidates[i := candidates[i].(sourceCount := sourceCount, activeCount := activeCount)];
      }
    }

    method CreateCandidate(e: Event) returns (id: Id)
      modifies this`candidates, this`transitions
      ensures id == NewId(old(Model()), e.stock)
      ensures Model() == Create(old(Model()), e)
    {
      var generation := MaxGeneration(candidates, e.stock) + 1;
      id := Id(e.stock, generation);
      candidates := candidates + [Candidate(id, Detected, 0, 0)];
      var _ := RecordTransition(Transition(id, None, Detected, CandidateCreated, ByEvent(e.id)));
      ApplyStateTransition(id, Hydrating, StateChanged, ByEvent(e.id));
    }

    method CreateOrMergeFromSource(e: Event, d: Decision)
      modifies this
      ensures Model() == if candidateFsmEnabled then Ingest(old(Model()), e, d) else old(Model())
    {
      if !candidateFsmEnabled || e.id in sourceEvents {
        return;
      }
      if e.source == ConditionExit {
        ApplyExit(e, d);
        return;
      }
      var active := FindActive(candidates, e.stock);
      var id: Id;
      if active.None? {
        id := CreateCandidate(e);
      } else {
        id := candidates[active.value].id;
      }
      sourceEvents := sourceEvents[e.id := StoredEvent(e, Some(id), true)];
      sourcesLatest := sourcesLatest[SourceKey(e.stock, e.source, e.sourceId) := Latest(id, true, e.id)];
      SyncSourceCounts(id);
    }

    method ApplyExit(e: Event, d: Decision)
      modifies this
      ensures Model() == Exit(old(Model()), e, d)
    {
      var active := FindActive(candidates, e.stock);
      if active.None? {
        sourceEvents := sourceEvents[e.id := StoredEvent(e, None, false)];
        return;
      }
      if d.fails {
        return;
      }
      var id := candidates[active.value].id;
      sourceEvents := sourceEvents[e.id := StoredEvent(e, Some(id), false)];
      sourcesLatest := Deactivated(sourcesLatest, id, e);
      SyncSourceCounts(id);
      RefreshContext(id, d);
    }

    method RefreshContext(id: Id, d: Decision)
      modifies this`candidates, this`transitions
      ensures Model() == Refresh(old(Model()), id, d)
    {
      var i := IndexOf(candidates, id);
      if i == |candidates| || candidates[i].state == Closed || d.fails {
        return;
      }
      var activeSources := |SourceRows(sourcesLatest, id, true)|;
      var allSources := |SourceRows(sourcesLatest, id, false)|;
      var current := candidates[i].state;
      candidates := candidates[i := candidates[i].(sourceCount := allSources, activeCount := activeSources)];
      if d.next != current {
        candidates := candidates[i := candidates[i].(state := d.next)];
        var _ := RecordTransition(Transition(id, Some(current), d.next, d.kind, AtTime(d.now)));
      }
    }
  }
}
