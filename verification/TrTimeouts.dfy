// When a timeout ends the request it was scheduled for, and when it can end another.

module TrTimeouts {
  import opened TrRunner

  ghost predicate KeyTimed(timers: seq<Timer>, key: Key) {
    exists k :: 0 <= k < |timers| && timers[k].key == key
  }

  // ---- firing one's own ------------------------------------------------------------------------

  // The request a timer would end is the one it was scheduled for.
  predicate FiresOwn(r: Run, step: Step) {
    step.Fire? && step.k < |r.runner.timers| ==>
      var t := r.runner.timers[step.k];
      match Taken(r.runner.pending, t.key)
      case None => true
      case Some(p) => p.id == t.owner
  }

  predicate OwnOnly(r: Run, steps: seq<Step>)
    decreases steps
  {
    steps == [] || (FiresOwn(r, steps[0]) && OwnOnly(Next(r, steps[0]), steps[1..]))
  }

  // A submission under a key no timer is outstanding for.
  ghost predicate Clean(r: Run, step: Step) {
    step.Submit? ==> !KeyTimed(r.runner.timers, step.key)
  }

  ghost predicate CleanSubmits(r: Run, steps: seq<Step>)
    decreases steps
  {
    steps == [] || (Clean(r, steps[0]) && CleanSubmits(Next(r, steps[0]), steps[1..]))
  }

  predicate NoSubmits(steps: seq<Step>) {
    forall i :: 0 <= i < |steps| ==> !steps[i].Submit?
  }

  // Whatever is pending under a timer's key is the timer's own request.
  ghost predicate Owned(r: Runner) {
    forall k, i :: 0 <= k < |r.timers| && 0 <= i < |r.pending| && r.timers[k].key == r.pending[i].key ==>
      r.pending[i].id == r.timers[k].owner
  }

  lemma OwnedFiresOwn(r: Run, step: Step)
    requires Owned(r.runner)
    ensures FiresOwn(r, step)
  {
    if step.Fire? && step.k < |r.runner.timers| {
      IndexOfIsFirst(r.runner.pending, r.runner.timers[step.k].key);
    }
  }

  lemma PopOwned(r: Runner, key: Key)
    requires KeysDistinct(r.pending) && Owned(r)
    ensures Owned(Runner(Pop(r.pending, key), r.timers))
  {
    forall k, i | 0 <= k < |r.timers| && 0 <= i < |Pop(r.pending, key)| && r.timers[k].key == Pop(r.pending, key)[i].key
      ensures Pop(r.pending, key)[i].id == r.timers[k].owner
    {
      var was := PopAt(r.pending, key, i);
    }
  }

  lemma WithoutOwned(r: Runner, k: nat)
    requires Owned(r) && k < |r.timers|
    ensures Owned(Runner(r.pending, Without(r.timers, k)))
  {
    assert forall j :: 0 <= j < |r.timers| - 1 ==> Without(r.timers, k)[j] == r.timers[if j < k then j else j + 1];
  }

  lemma SubmitOwned(r: Runner, p: Pending)
    requires KeysDistinct(r.pending) && Owned(r) && !KeyTimed(r.timers, p.key)
    ensures Owned(Runner(Put(r.pending, p), r.timers))
  {
    IndexOfIsFirst(r.pending, p.key);
    assert forall k :: 0 <= k < |r.timers| ==> r.timers[k].key != p.key;
  }

  lemma ArmOwned(r: Runner, key: Key, due: int)
    requires KeysDistinct(r.pending) && Owned(r)
    ensures Owned(AfterArm(r, key, due))
  {
    IndexOfIsFirst(r.pending, key);
  }

  lemma StepOwned(r: Run, step: Step)
    requires Inv(r) && Owned(r.runner) && Clean(r, step)
    ensures Owned(Next(r, step).runner)
  {
    match step
    case Submit(id, key) => SubmitOwned(r.runner, Pending(id, key, false));
    case Refuse(key) => PopOwned(r.runner, key);
    case Cancelled(key) => PopOwned(r.runner, key);
    case Arm(key, due) => ArmOwned(r.runner, key, due);
    case Data(meta) =>
      if FindKey(r.runner.pending, meta).Some? {
        PopOwned(r.runner, FindKey(r.runner.pending, meta).value);
      }
    case Fire(k) =>
      if k < |r.runner.timers| {
        var key := r.runner.timers[k].key;
        PopOwned(r.runner, key);
        WithoutOwned(Runner(Pop(r.runner.pending, key), r.runner.timers), k);
      }
  }

  lemma {:induction false} CleanRunsOwn(r: Run, steps: seq<Step>)
    requires Inv(r) && Owned(r.runner) && Admissible(r, steps) && CleanSubmits(r, steps)
    ensures OwnOnly(r, steps)
    decreases steps
  {
    if steps != [] {
      OwnedFiresOwn(r, steps[0]);
      StepOwned(r, steps[0]);
      StepKeeps(r, steps[0]);
      CleanRunsOwn(Next(r, steps[0]), steps[1..]);
    }
  }

  // ---- one submission ----------------------------------------------------------------------------

  // A timer scheduled for another request ends this one.
  ghost predicate EndedByOther(r: Run, k: nat, id: nat) {
    && k < |r.runner.timers| && r.runner.timers[k].owner != id
    && Taken(r.runner.pending, r.runner.timers[k].key).Some?
    && Taken(r.runner.pending, r.runner.timers[k].key).value.id == id
  }

  // Firing such a timer times the request out.
  lemma EndedMeans(r: Run, k: nat, id: nat)
    requires EndedByOther(r, k, id)
    ensures Enabled(r, Fire(k)) && !FiresOwn(r, Fire(k))
    ensures Next(r, Fire(k)).timedOut == r.timedOut + multiset{id}
  {
  }

  // Right after a submission, every timer outstanding for its key is another's and would end it.
  lemma StaleTimerEndsNewer(r: Run, id: nat, key: Key, k: nat)
    requires Inv(r) && id !in r.submitted && k < |r.runner.timers| && r.runner.timers[k].key == key
    ensures EndedByOther(Next(r, Submit(id, key)), k, id)
  {
    IndexOfIsFirst(r.runner.pending, key);
    var put := Put(r.runner.pending, Pending(id, key, false));
    IndexOfIsFirst(put, key);
    assert put[if HasKey(r.runner.pending, key) then IndexOf(r.runner.pending, key) else |r.runner.pending|].key == key;
  }

  // The request is pending under its key at most, where only its own timers are outstanding.
  ghost predicate Alone(r: Run, id: nat, key: Key) {
    && id in r.submitted
    && forall i :: 0 <= i < |r.runner.pending| && r.runner.pending[i].id == id ==>
         && r.runner.pending[i].key == key
         && forall k :: 0 <= k < |r.runner.timers| && r.runner.timers[k].key == key ==> r.runner.timers[k].owner == id
  }

  lemma AloneNotEnded(r: Run, id: nat, key: Key, k: nat)
    requires Alone(r, id, key)
    ensures !EndedByOther(r, k, id)
  {
    if k < |r.runner.timers| {
      IndexOfIsFirst(r.runner.pending, r.runner.timers[k].key);
    }
  }

  lemma SubmitAlone(r: Run, id: nat, key: Key)
    requires Inv(r) && id !in r.submitted && !KeyTimed(r.runner.timers, key)
    ensures Alone(Next(r, Submit(id, key)), id, key)
  {
    var n := Next(r, Submit(id, key));
    IndexOfIsFirst(r.runner.pending, key);
    forall i | 0 <= i < |n.runner.pending| && n.runner.pending[i].id == id
      ensures n.runner.pending[i].key == key
    {
      if i < |r.runner.pending| {
        InNumbers(r.runner.pending, i);
      }
    }
  }

  lemma PopAlone(r: Run, id: nat, key: Key, gone: Key)
    requires Inv(r) && Alone(r, id, key)
    ensures Alone(Discard(r, gone), id, key) && Alone(Complete(r, gone), id, key)
  {
    forall i | 0 <= i < |Pop(r.runner.pending, gone)|
      ensures Pop(r.runner.pending, gone)[i] in r.runner.pending
    {
      var was := PopAt(r.runner.pending, gone, i);
    }
  }

  lemma TimeoutAlone(r: Run, id: nat, key: Key, k: nat)
    requires Inv(r) && Alone(r, id, key) && k < |r.runner.timers|
    ensures Alone(Timeout(r, k), id, key)
  {
    PopAlone(r, id, key, r.runner.timers[k].key);
    assert forall j :: 0 <= j < |r.runner.timers| - 1 ==>
      Without(r.runner.timers, k)[j] == r.runner.timers[if j < k then j else j + 1];
  }

  lemma StepAlone(r: Run, id: nat, key: Key, step: Step)
    requires Inv(r) && Alone(r, id, key) && Enabled(r, step)
    ensures Alone(Next(r, step), id, key)
  {
    match step
    case Submit(other, key2) => IndexOfIsFirst(r.runner.pending, key2);
    case Refuse(gone) => PopAlone(r, id, key, gone);
    case Cancelled(gone) => PopAlone(r, id, key, gone);
    case Arm(key2, due) => IndexOfIsFirst(r.runner.pending, key2);
    case Data(meta) =>
      if FindKey(r.runner.pending, meta).Some? {
        PopAlone(r, id, key, FindKey(r.runner.pending, meta).value);
      }
    case Fire(k) => TimeoutAlone(r, id, key, k);
  }

  lemma {:induction false} RunAlone(r: Run, id: nat, key: Key, more: seq<Step>)
    requires Inv(r) && Alone(r, id, key) && Admissible(r, more)
    ensures Alone(Execute(r, more), id, key)
    decreases more
  {
    if more != [] {
      StepAlone(r, id, key, more[0]);
      StepKeeps(r, more[0]);
      RunAlone(Next(r, more[0]), id, key, more[1..]);
    }
  }

  ghost predicate CanBeEndedByOther(r: Run, id: nat) {
    exists more, k :: Admissible(r, more) && EndedByOther(Execute(r, more), k, id)
  }

  // In any run, a request just submitted can be ended by a timer that is not its own exactly when
  // a timer was outstanding for its key.
  lemma EndableIffKeyTimed(steps: seq<Step>, id: nat, key: Key)
    requires Admissible(START, steps) && id !in Execute(START, steps).submitted
    ensures var r := Execute(START, steps);
            CanBeEndedByOther(Next(r, Submit(id, key)), id) <==> KeyTimed(r.runner.timers, key)
  {
    RunKeeps(START, steps);
    var r := Execute(START, steps);
    var n := Next(r, Submit(id, key));
    if KeyTimed(r.runner.timers, key) {
      var k :| 0 <= k < |r.runner.timers| && r.runner.timers[k].key == key;
      StaleTimerEndsNewer(r, id, key, k);
      assert Admissible(n, []) && EndedByOther(Execute(n, []), k, id);
    } else {
      SubmitAlone(r, id, key);
      SubmitKeeps(r, id, key);
      forall more, k | Admissible(n, more) ensures !EndedByOther(Execute(n, more), k, id) {
        RunAlone(n, id, key, more);
        AloneNotEnded(Execute(n, more), id, key, k);
      }
    }
  }

  // ---- whole runs --------------------------------------------------------------------------------

  // Wherever the run is left, and whatever but submissions follows, every timer that fires ends
  // its own request or none.
  ghost predicate AlwaysOwn(steps: seq<Step>) {
    forall n: nat, more: seq<Step> ::
      n <= |steps| && NoSubmits(more) && Admissible(Execute(START, steps[..n]), more)
      ==> OwnOnly(START, steps[..n]) && OwnOnly(Execute(START, steps[..n]), more)
  }

  lemma {:induction false} PrefixAdmissible(r: Run, steps: seq<Step>, n: nat)
    requires Admissible(r, steps) && n <= |steps|
    ensures Admissible(r, steps[..n])
    ensures CleanSubmits(r, steps) ==> CleanSubmits(r, steps[..n])
    decreases n
  {
    if n > 0 {
      assert steps[..n][1..] == steps[1..][..n - 1];
      PrefixAdmissible(Next(r, steps[0]), steps[1..], n - 1);
    }
  }

  lemma {:induction false} CleanKeepsOwned(r: Run, steps: seq<Step>)
    requires Inv(r) && Owned(r.runner) && Admissible(r, steps) && CleanSubmits(r, steps)
    ensures Owned(Execute(r, steps).runner)
    decreases steps
  {
    if steps != [] {
      StepOwned(r, steps[0]);
      StepKeeps(r, steps[0]);
      CleanKeepsOwned(Next(r, steps[0]), steps[1..]);
    }
  }

  lemma {:induction false} NoSubmitsClean(r: Run, more: seq<Step>)
    requires NoSubmits(more)
    ensures CleanSubmits(r, more)
    decreases more
  {
    if more != [] {
      assert !more[0].Submit?;
      NoSubmitsClean(Next(r, more[0]), more[1..]);
    }
  }

  lemma PrefixStep(r: Run, steps: seq<Step>, n: nat)
    requires n < |steps|
    ensures Execute(r, steps[..n + 1]) == Execute(Next(r, steps[0]), steps[1..][..n])
  {
    assert steps[..n + 1][1..] == steps[1..][..n];
  }

  lemma UncleanStep(r: Run, step: Step) returns (k: nat)
    requires Inv(r) && Enabled(r, step) && !Clean(r, step)
    ensures Enabled(Next(r, step), Fire(k)) && !FiresOwn(Next(r, step), Fire(k))
  {
    k :| 0 <= k < |r.runner.timers| && r.runner.timers[k].key == step.key;
    StaleTimerEndsNewer(r, step.id, step.key, k);
    EndedMeans(Next(r, step), k, step.id);
  }

  // After the first submission under a timed key some timer would end a request not its own.
  lemma {:induction false} FirstUnclean(r: Run, steps: seq<Step>) returns (n: nat, k: nat)
    requires Inv(r) && Admissible(r, steps) && !CleanSubmits(r, steps)
    ensures n <= |steps| && Enabled(Execute(r, steps[..n]), Fire(k)) && !FiresOwn(Execute(r, steps[..n]), Fire(k))
    decreases steps
  {
    var m: nat;
    if Clean(r, steps[0]) {
      StepKeeps(r, steps[0]);
      m, k := FirstUnclean(Next(r, steps[0]), steps[1..]);
    } else {
      m := 0;
      k := UncleanStep(r, steps[0]);
      assert steps[1..][..0] == [];
    }
    n := m + 1;
    PrefixStep(r, steps, m);
  }

  // Timeouts end their own requests only, at every point and whatever follows, exactly when no
  // submission of the run used a key a timer was outstanding for.
  lemma TimeoutsOwnIffClean(steps: seq<Step>)
    requires Admissible(START, steps)
    ensures CleanSubmits(START, steps) <==> AlwaysOwn(steps)
  {
    if CleanSubmits(START, steps) {
      forall n: nat, more: seq<Step> |
        n <= |steps| && NoSubmits(more) && Admissible(Execute(START, steps[..n]), more)
        ensures OwnOnly(START, steps[..n]) && OwnOnly(Execute(START, steps[..n]), more)
      {
        PrefixAdmissible(START, steps, n);
        CleanRunsOwn(START, steps[..n]);
        RunKeeps(START, steps[..n]);
        CleanKeepsOwned(START, steps[..n]);
        NoSubmitsClean(Execute(START, steps[..n]), more);
        CleanRunsOwn(Execute(START, steps[..n]), more);
      }
    } else {
      var n, k := FirstUnclean(START, steps);
      var e := Execute(START, steps[..n]);
      var more := [Fire(k)];
      assert more[1..] == [] && Admissible(Next(e, more[0]), []);
      assert NoSubmits(more) && Admissible(e, more) && !OwnOnly(e, more);
    }
  }

  // ---- the timeout as a guard --------------------------------------------------------------------

  // Steps with their times. A timer is due one timeout after it was scheduled; it fires when it
  // is due, before anything later happens.
  datatype Stamped = Stamped(at: int, step: Step)

  datatype Scheduled = Scheduled(key: Key, at: int)

  // `scheduled` is the history of timeouts, which a caller could keep.
  datatype Timed = Timed(r: Run, clock: int, scheduled: seq<Scheduled>)

  function NextTimed(t: Timed, s: Stamped): Timed {
    Timed(Next(t.r, s.step), s.at,
          if s.step.Arm? && HasKey(t.r.runner.pending, s.step.key)
          then t.scheduled + [Scheduled(s.step.key, s.at)] else t.scheduled)
  }

  ghost predicate Prompt(timers: seq<Timer>, now: int) {
    forall k :: 0 <= k < |timers| ==> now <= timers[k].due
  }

  ghost predicate EnabledTimed(t: Timed, s: Stamped, timeout: nat) {
    && t.clock <= s.at && Enabled(t.r, s.step) && Prompt(t.r.runner.timers, s.at)
    && (s.step.Arm? ==> s.step.due == s.at + timeout)
    && (s.step.Fire? ==> t.r.runner.timers[s.step.k].due == s.at)
  }

  ghost predicate AdmissibleTimed(t: Timed, steps: seq<Stamped>, timeout: nat)
    decreases steps
  {
    steps == [] || (EnabledTimed(t, steps[0], timeout) && AdmissibleTimed(NextTimed(t, steps[0]), steps[1..], timeout))
  }

  function ExecuteTimed(t: Timed, steps: seq<Stamped>): Timed
    decreases steps
  {
    if steps == [] then t else ExecuteTimed(NextTimed(t, steps[0]), steps[1..])
  }

  function Started(clock: int): Timed {
    Timed(START, clock, [])
  }

  ghost predicate IsScheduled(scheduled: seq<Scheduled>, key: Key, at: int) {
    exists i :: 0 <= i < |scheduled| && scheduled[i] == Scheduled(key, at)
  }

  ghost predicate HasDue(timers: seq<Timer>, key: Key, due: int) {
    exists k :: 0 <= k < |timers| && timers[k].key == key && timers[k].due == due
  }

  ghost predicate FromSchedule(scheduled: seq<Scheduled>, t: Timer, timeout: nat) {
    IsScheduled(scheduled, t.key, t.due - timeout)
  }

  ghost predicate StillDue(timers: seq<Timer>, x: Scheduled, clock: int, timeout: nat) {
    x.at + timeout > clock ==> HasDue(timers, x.key, x.at + timeout)
  }

  // The triggers keep the two from setting each other off.
  ghost predicate Explained(scheduled: seq<Scheduled>, timers: seq<Timer>, timeout: nat) {
    forall k {:trigger FromSchedule(scheduled, timers[k], timeout)} ::
      0 <= k < |timers| ==> FromSchedule(scheduled, timers[k], timeout)
  }

  ghost predicate Awaited(scheduled: seq<Scheduled>, timers: seq<Timer>, clock: int, timeout: nat) {
    forall i {:trigger StillDue(timers, scheduled[i], clock, timeout)} ::
      0 <= i < |scheduled| ==> StillDue(timers, scheduled[i], clock, timeout)
  }

  // Outstanding timers are the scheduled ones whose time has not passed.
  ghost predicate Matches(scheduled: seq<Scheduled>, timers: seq<Timer>, clock: int, timeout: nat) {
    Explained(scheduled, timers, timeout) && Awaited(scheduled, timers, clock, timeout)
  }

  ghost predicate TimersMatch(t: Timed, timeout: nat) {
    Matches(t.scheduled, t.r.runner.timers, t.clock, timeout)
  }

  lemma WithoutDue(timers: seq<Timer>, k: nat, key: Key, due: int)
    requires k < |timers| && timers[k].due != due && HasDue(timers, key, due)
    ensures HasDue(Without(timers, k), key, due)
  {
    var j :| 0 <= j < |timers| && timers[j].key == key && timers[j].due == due;
    assert Without(timers, k)[if j < k then j else j - 1] == timers[j];
  }

  lemma FireExplained(scheduled: seq<Scheduled>, timers: seq<Timer>, timeout: nat, k: nat)
    requires Explained(scheduled, timers, timeout) && k < |timers|
    ensures Explained(scheduled, Without(timers, k), timeout)
  {
    forall j | 0 <= j < |timers| - 1 ensures FromSchedule(scheduled, Without(timers, k)[j], timeout) {
      var was := if j < k then j else j + 1;
      assert Without(timers, k)[j] == timers[was] && FromSchedule(scheduled, timers[was], timeout);
    }
  }

  lemma FireAwaited(scheduled: seq<Scheduled>, timers: seq<Timer>, clock: int, timeout: nat, k: nat, now: int)
    requires Awaited(scheduled, timers, clock, timeout) && clock <= now && k < |timers| && timers[k].due == now
    ensures Awaited(scheduled, Without(timers, k), now, timeout)
  {
    forall i | 0 <= i < |scheduled| ensures StillDue(Without(timers, k), scheduled[i], now, timeout) {
      assert StillDue(timers, scheduled[i], clock, timeout);
      if scheduled[i].at + timeout > now {
        WithoutDue(timers, k, scheduled[i].key, scheduled[i].at + timeout);
      }
    }
  }

  lemma MoreScheduled(scheduled: seq<Scheduled>, x: Scheduled, key: Key, at: int)
    ensures IsScheduled(scheduled, key, at) ==> IsScheduled(scheduled + [x], key, at)
    ensures IsScheduled(scheduled + [x], x.key, x.at)
  {
    if IsScheduled(scheduled, key, at) {
      var i :| 0 <= i < |scheduled| && scheduled[i] == Scheduled(key, at);
      assert (scheduled + [x])[i] == scheduled[i];
    }
    assert (scheduled + [x])[|scheduled|] == x;
  }

  lemma MoreDue(timers: seq<Timer>, x: Timer, key: Key, due: int)
    ensures HasDue(timers, key, due) ==> HasDue(timers + [x], key, due)
    ensures HasDue(timers + [x], x.key, x.due)
  {
    if HasDue(timers, key, due) {
      var k :| 0 <= k < |timers| && timers[k].key == key && timers[k].due == due;
      assert (timers + [x])[k] == timers[k];
    }
    assert (timers + [x])[|timers|] == x;
  }

  lemma ArmExplained(scheduled: seq<Scheduled>, timers: seq<Timer>, timeout: nat, x: Scheduled, y: Timer)
    requires Explained(scheduled, timers, timeout) && x.key == y.key && y.due == x.at + timeout
    ensures Explained(scheduled + [x], timers + [y], timeout)
  {
    forall j | 0 <= j < |timers + [y]| ensures FromSchedule(scheduled + [x], (timers + [y])[j], timeout) {
      var t := (timers + [y])[j];
      assert j < |timers| ==> t == timers[j] && FromSchedule(scheduled, timers[j], timeout);
      MoreScheduled(scheduled, x, t.key, t.due - timeout);
    }
  }

  lemma ArmAwaited(scheduled: seq<Scheduled>, timers: seq<Timer>, clock: int, timeout: nat, x: Scheduled, y: Timer)
    requires Awaited(scheduled, timers, clock, timeout) && clock <= x.at && x.key == y.key && y.due == x.at + timeout
    ensures Awaited(scheduled + [x], timers + [y], x.at, timeout)
  {
    forall i | 0 <= i < |scheduled + [x]| ensures StillDue(timers + [y], (scheduled + [x])[i], x.at, timeout) {
      var z := (scheduled + [x])[i];
      assert i < |scheduled| ==> z == scheduled[i] && StillDue(timers, scheduled[i], clock, timeout);
      MoreDue(timers, y, z.key, z.at + timeout);
    }
  }

  lemma ArmMatches(scheduled: seq<Scheduled>, timers: seq<Timer>, clock: int, timeout: nat, x: Scheduled, y: Timer)
    requires Matches(scheduled, timers, clock, timeout)
    requires clock <= x.at && x.key == y.key && y.due == x.at + timeout
    ensures Matches(scheduled + [x], timers + [y], x.at, timeout)
  {
    ArmExplained(scheduled, timers, timeout, x, y);
    ArmAwaited(scheduled, timers, clock, timeout, x, y);
  }

  lemma FireMatches(scheduled: seq<Scheduled>, timers: seq<Timer>, clock: int, timeout: nat, k: nat, now: int)
    requires Matches(scheduled, timers, clock, timeout)
    requires clock <= now && k < |timers| && timers[k].due == now
    ensures Matches(scheduled, Without(timers, k), now, timeout)
  {
    FireExplained(scheduled, timers, timeout, k);
    FireAwaited(scheduled, timers, clock, timeout, k, now);
  }

  lemma LaterMatches(scheduled: seq<Scheduled>, timers: seq<Timer>, clock: int, timeout: nat, now: int)
    requires Matches(scheduled, timers, clock, timeout) && clock <= now
    ensures Matches(scheduled, timers, now, timeout)
  {
    forall i | 0 <= i < |scheduled| ensures StillDue(timers, scheduled[i], now, timeout) {
      assert StillDue(timers, scheduled[i], clock, timeout);
    }
  }

  // What a step does to the history and the timers.
  lemma StepTimers(t: Timed, s: Stamped)
    ensures var n, was := NextTimed(t, s), t.r.runner;
            && n.clock == s.at
            && (match s.step
                case Arm(key, due) =>
                  if HasKey(was.pending, key)
                  then n.scheduled == t.scheduled + [Scheduled(key, s.at)]
                       && n.r.runner.timers == was.timers + [Timer(key, was.pending[IndexOf(was.pending, key)].id, due)]
                  else n.scheduled == t.scheduled && n.r.runner.timers == was.timers
                case Fire(k) =>
                  n.scheduled == t.scheduled
                  && n.r.runner.timers == if k < |was.timers| then Without(was.timers, k) else was.timers
                case _ => n.scheduled == t.scheduled && n.r.runner.timers == was.timers)
  {
  }

  lemma StepMatches(t: Timed, s: Stamped, timeout: nat)
    requires TimersMatch(t, timeout) && EnabledTimed(t, s, timeout)
    ensures TimersMatch(NextTimed(t, s), timeout)
  {
    var was := t.r.runner;
    StepTimers(t, s);
    if s.step.Fire? {
      FireMatches(t.scheduled, was.timers, t.clock, timeout, s.step.k, s.at);
    } else if s.step.Arm? && HasKey(was.pending, s.step.key) {
      ArmMatches(t.scheduled, was.timers, t.clock, timeout, Scheduled(s.step.key, s.at),
                 Timer(s.step.key, was.pending[IndexOf(was.pending, s.step.key)].id, s.at + timeout));
    } else {
      LaterMatches(t.scheduled, was.timers, t.clock, timeout, s.at);
    }
  }

  // A key scheduled at this time or later.
  ghost predicate ScheduledSince(scheduled: seq<Scheduled>, key: Key, from: int) {
    exists i :: 0 <= i < |scheduled| && scheduled[i].key == key && from <= scheduled[i].at
  }

  // A timer is outstanding for a key only if one was scheduled within the last timeout; and one
  // scheduled less than a timeout ago is outstanding.
  lemma OutstandingIffRecent(t: Timed, key: Key, now: int, timeout: nat)
    requires TimersMatch(t, timeout) && t.clock <= now && Prompt(t.r.runner.timers, now)
    ensures KeyTimed(t.r.runner.timers, key) ==> ScheduledSince(t.scheduled, key, now - timeout)
    ensures ScheduledSince(t.scheduled, key, now - timeout + 1) ==> KeyTimed(t.r.runner.timers, key)
  {
    var timers := t.r.runner.timers;
    if KeyTimed(timers, key) {
      var k :| 0 <= k < |timers| && timers[k].key == key;
      assert FromSchedule(t.scheduled, timers[k], timeout);
      var i :| 0 <= i < |t.scheduled| && t.scheduled[i] == Scheduled(key, timers[k].due - timeout);
    }
    if ScheduledSince(t.scheduled, key, now - timeout + 1) {
      var i :| 0 <= i < |t.scheduled| && t.scheduled[i].key == key && now - timeout + 1 <= t.scheduled[i].at;
      assert StillDue(timers, t.scheduled[i], t.clock, timeout);
    }
  }

  function Steps(steps: seq<Stamped>): seq<Step> {
    if steps == [] then [] else [steps[0].step] + Steps(steps[1..])
  }

  // What a caller can look up before submitting: nothing scheduled under the key for a timeout.
  ghost predicate Guarded(t: Timed, s: Stamped, timeout: nat) {
    s.step.Submit? ==> !ScheduledSince(t.scheduled, s.step.key, s.at - timeout)
  }

  ghost predicate GuardedSubmits(t: Timed, steps: seq<Stamped>, timeout: nat)
    decreases steps
  {
    steps == [] || (Guarded(t, steps[0], timeout) && GuardedSubmits(NextTimed(t, steps[0]), steps[1..], timeout))
  }

  lemma {:induction false} GuardedIsClean(t: Timed, steps: seq<Stamped>, timeout: nat)
    requires TimersMatch(t, timeout) && AdmissibleTimed(t, steps, timeout) && GuardedSubmits(t, steps, timeout)
    ensures Admissible(t.r, Steps(steps)) && CleanSubmits(t.r, Steps(steps))
    decreases steps
  {
    if steps != [] {
      if steps[0].step.Submit? {
        OutstandingIffRecent(t, steps[0].step.key, steps[0].at, timeout);
      }
      StepMatches(t, steps[0], timeout);
      GuardedIsClean(NextTimed(t, steps[0]), steps[1..], timeout);
      assert Steps(steps)[1..] == Steps(steps[1..]);
    }
  }

  // Callers that submit under a key only when nothing was scheduled under it for a whole timeout
  // never lose a request to another's timer.
  lemma GuardKeepsTimeoutsOwn(clock: int, steps: seq<Stamped>, timeout: nat)
    requires AdmissibleTimed(Started(clock), steps, timeout) && GuardedSubmits(Started(clock), steps, timeout)
    ensures Admissible(START, Steps(steps)) && OwnOnly(START, Steps(steps)) && AlwaysOwn(Steps(steps))
  {
    GuardedIsClean(Started(clock), steps, timeout);
    CleanRunsOwn(START, Steps(steps));
    TimeoutsOwnIffClean(Steps(steps));
  }

  lemma {:induction false} TimedKeeps(t: Timed, steps: seq<Stamped>, timeout: nat)
    requires Inv(t.r) && TimersMatch(t, timeout) && AdmissibleTimed(t, steps, timeout)
    ensures Inv(ExecuteTimed(t, steps).r) && TimersMatch(ExecuteTimed(t, steps), timeout)
    decreases steps
  {
    if steps != [] {
      StepKeeps(t.r, steps[0].step);
      StepMatches(t, steps[0], timeout);
      TimedKeeps(NextTimed(t, steps[0]), steps[1..], timeout);
    }
  }

  // And the guard is needed: a request submitted less than a timeout after one was scheduled
  // under its key is ended by that timer if nothing else comes first.
  lemma UnguardedIsExposed(clock: int, steps: seq<Stamped>, s: Stamped, timeout: nat) returns (k: nat)
    requires AdmissibleTimed(Started(clock), steps, timeout) && s.step.Submit?
    requires EnabledTimed(ExecuteTimed(Started(clock), steps), s, timeout)
    requires ScheduledSince(ExecuteTimed(Started(clock), steps).scheduled, s.step.key, s.at - timeout + 1)
    ensures EndedByOther(NextTimed(ExecuteTimed(Started(clock), steps), s).r, k, s.step.id)
  {
    TimedKeeps(Started(clock), steps, timeout);
    var t := ExecuteTimed(Started(clock), steps);
    OutstandingIffRecent(t, s.step.key, s.at, timeout);
    k :| 0 <= k < |t.r.runner.timers| && t.r.runner.timers[k].key == s.step.key;
    StaleTimerEndsNewer(t.r, s.step.id, s.step.key, k);
  }
}
