// Pending transaction requests: filled by submit, emptied by data callbacks, cancels and timers.

module TrRunner {

  datatype Option<T> = None | Some(value: T)

  datatype Key = Key(screen: string, name: string, code: string)

  // `id` tells submissions apart; a later submission may carry the key of an earlier one.
  // `armed` says that a timeout was scheduled while this entry was the pending one.
  datatype Pending = Pending(id: nat, key: Key, armed: bool)

  // ---- the dictionary, in insertion order ----------------------------------------------------

  function IndexOf(pending: seq<Pending>, key: Key): (i: nat)
    ensures i <= |pending|
  {
    if pending == [] || pending[0].key == key then 0 else 1 + IndexOf(pending[1..], key)
  }

  predicate HasKey(pending: seq<Pending>, key: Key) {
    IndexOf(pending, key) < |pending|
  }

  function NameIndex(pending: seq<Pending>, name: string): (i: nat)
    ensures i <= |pending|
  {
    if pending == [] || pending[0].key.name == name then 0 else 1 + NameIndex(pending[1..], name)
  }

  // Storing under a key that is present keeps its place.
  function Put(pending: seq<Pending>, p: Pending): seq<Pending> {
    var i := IndexOf(pending, p.key);
    if i < |pending| then pending[i := p] else pending + [p]
  }

  function Pop(pending: seq<Pending>, key: Key): seq<Pending> {
    var i := IndexOf(pending, key);
    if i < |pending| then pending[..i] + pending[i + 1..] else pending
  }

  // The exact key, or else the oldest entry with the same request name.
  function FindKey(pending: seq<Pending>, meta: Key): Option<Key> {
    if HasKey(pending, meta) then Some(meta)
    else
      var i := NameIndex(pending, meta.name);
      if i < |pending| then Some(pending[i].key) else None
  }

  lemma {:induction false} IndexOfIsFirst(pending: seq<Pending>, key: Key)
    ensures var i := IndexOf(pending, key);
            && (i < |pending| ==> pending[i].key == key)
            && (forall k :: 0 <= k < i ==> pending[k].key != key)
  {
    if pending != [] && pending[0].key != key {
      IndexOfIsFirst(pending[1..], key);
    }
  }

  lemma {:induction false} NameIndexIsFirst(pending: seq<Pending>, name: string)
    ensures var i := NameIndex(pending, name);
            && (i < |pending| ==> pending[i].key.name == name)
            && (forall k :: 0 <= k < i ==> pending[k].key.name != name)
  {
    if pending != [] && pending[0].key.name != name {
      NameIndexIsFirst(pending[1..], name);
    }
  }

  // A data callback answers the exact key when it is pending, otherwise the oldest request of
  // that name, and nothing only when no request of that name is pending.
  lemma FindKeyMeans(pending: seq<Pending>, meta: Key)
    ensures var found := FindKey(pending, meta);
            && (found.None? <==> forall p :: p in pending ==> p.key.name != meta.name)
            && (found.Some? ==> HasKey(pending, found.value) && found.value.name == meta.name)
            && ((exists p :: p in pending && p.key == meta) ==> found == Some(meta))
            && (found.Some? && found.value != meta ==>
                  exists i :: && 0 <= i < |pending| && pending[i].key == found.value
                              && forall k :: 0 <= k < i ==> pending[k].key.name != meta.name)
  {
    IndexOfIsFirst(pending, meta);
    var n := NameIndex(pending, meta.name);
    NameIndexIsFirst(pending, meta.name);
    if HasKey(pending, meta) {
      assert pending[IndexOf(pending, meta)] in pending;
    } else {
      assert forall p :: p in pending ==> p.key != meta;
      if n < |pending| {
        IndexOfIsFirst(pending, pending[n].key);
        assert pending[n] in pending;
      }
    }
  }

  // The other entries of a dictionary, in their order.
  function Others(pending: seq<Pending>, key: Key): seq<Pending> {
    if pending == [] then []
    else if pending[0].key == key then Others(pending[1..], key)
    else [pending[0]] + Others(pending[1..], key)
  }

  lemma {:induction false} OthersAround(a: seq<Pending>, p: Pending, b: seq<Pending>)
    requires (forall x :: x in a ==> x.key != p.key) && (forall x :: x in b ==> x.key != p.key)
    ensures Others(a + [p] + b, p.key) == a + b
    decreases a
  {
    var all := a + [p] + b;
    if a == [] {
      assert all[1..] == b;
      NoneUnder(b, p.key);
    } else {
      assert all[1..] == a[1..] + [p] + b;
      OthersAround(a[1..], p, b);
    }
  }

  lemma {:induction false} NoneUnder(pending: seq<Pending>, key: Key)
    requires forall x :: x in pending ==> x.key != key
    ensures Others(pending, key) == pending
  {
    if pending != [] {
      NoneUnder(pending[1..], key);
    }
  }

  // Storing keeps every key in its place and every other entry as it is; a new key goes last.
  lemma PutMeans(pending: seq<Pending>, p: Pending)
    ensures var n := Put(pending, p);
            && (HasKey(pending, p.key) ==>
                  |n| == |pending| && forall i :: 0 <= i < |n| ==>
                    n[i].key == pending[i].key && (pending[i].key != p.key ==> n[i] == pending[i]))
            && (!HasKey(pending, p.key) ==> n == pending + [p])
            && Taken(n, p.key) == Some(p)
  {
    IndexOfIsFirst(pending, p.key);
    var n, i := Put(pending, p), IndexOf(pending, p.key);
    IndexOfIsFirst(n, p.key);
    assert n[i] == p;
    assert forall k :: 0 <= k < i ==> n[k].key != p.key;
  }

  // A pop takes out the entry under the key and leaves the others in their order.
  lemma PopMeans(pending: seq<Pending>, key: Key)
    requires KeysDistinct(pending)
    ensures Pop(pending, key) == Others(pending, key)
    ensures match Taken(pending, key)
            case None => forall p :: p in pending ==> p.key != key
            case Some(p) => p in pending && p.key == key
  {
    IndexOfIsFirst(pending, key);
    var i := IndexOf(pending, key);
    if i < |pending| {
      var a, b := pending[..i], pending[i + 1..];
      assert pending == a + [pending[i]] + b;
      forall x | x in b ensures x.key != key {
        var k :| 0 <= k < |b| && b[k] == x;
        assert pending[i + 1 + k] == x;
      }
      OthersAround(a, pending[i], b);
    } else {
      NoneUnder(pending, key);
    }
  }

  // ---- the runner ------------------------------------------------------------------------------

  // A scheduled timeout that has not fired yet. Its callback knows the key only; `owner` is the
  // request that was pending under the key when it was scheduled, `due` when it is to fire.
  datatype Timer = Timer(key: Key, owner: nat, due: int)

  datatype Runner = Runner(pending: seq<Pending>, timers: seq<Timer>)

  function Armed(p: Pending): Pending {
    p.(armed := true)
  }

  function AfterArm(r: Runner, key: Key, due: int): Runner {
    var i := IndexOf(r.pending, key);
    if i < |r.pending| then
      Runner(r.pending[i := Armed(r.pending[i])], r.timers + [Timer(key, r.pending[i].id, due)])
    else r
  }

  function Without(timers: seq<Timer>, k: nat): seq<Timer>
    requires k < |timers|
  {
    timers[..k] + timers[k + 1..]
  }

  // The entry a pop takes out.
  function Taken(pending: seq<Pending>, key: Key): Option<Pending> {
    var i := IndexOf(pending, key);
    if i < |pending| then Some(pending[i]) else None
  }

  class KiwoomTrRunner {
    var pending: seq<Pending>
    ghost var timers: seq<Timer>

    ghost function Model(): Runner
      reads this
    {
      Runner(pending, timers)
    }

    constructor ()
      ensures Model() == Runner([], [])
    {
      pending, timers := [], [];
    }

    method Lookup(key: Key) returns (i: nat)
      ensures i == IndexOf(pending, key)
    {
      i := 0;
      while i < |pending| && pending[i].key != key
        invariant 0 <= i <= |pending|
        invariant IndexOf(pending, key) == i + IndexOf(pending[i..], key)
      {
        assert pending[i..][0] == pending[i] && pending[i..][1..] == pending[i + 1..];
        i := i + 1;
      }
    }

    method PopKey(key: Key) returns (taken: Option<Pending>)
      modifies this`pending
      ensures pending == Pop(old(pending), key)
      ensures taken == Taken(old(pending), key)
    {
      var i := Lookup(key);
      if i == |pending| {
        return None;
      }
      taken := Some(pending[i]);
      pending := pending[..i] + pending[i + 1..];
    }

    // The part of submit before the broker library is called.
    method Insert(id: nat, key: Key)
      modifies this`pending
      ensures pending == Put(old(pending), Pending(id, key, false))
    {
      var i := Lookup(key);
      var entry := Pending(id, key, false);
      pending := if i < |pending| then pending[i := entry] else pending + [entry];
    }

    // The part of submit after it: `code` is what the broker library returned.
    method FinishSubmit(key: Key, code: int, scheduleTimeout: bool, due: int) returns (completed: bool)
      modifies this
      ensures code < 0 ==> completed && Model() == Runner(Pop(old(pending), key), old(timers))
      ensures code >= 0 ==> completed == !HasKey(old(pending), key)
      ensures code >= 0 ==> Model() == if scheduleTimeout then AfterArm(old(Model()), key, due) else old(Model())
    {
      if code < 0 {
        var _ := PopKey(key);
        return true;
      }
      var i := Lookup(key);
      if i == |pending| {
        return true;
      }
      if scheduleTimeout {
        timers := timers + [Timer(key, pending[i].id, due)];
        pending := pending[i := Armed(pending[i])];
      }
      return false;
    }

    method Cancel(key: Key)
      modifies this`pending
      ensures pending == Pop(old(pending), key)
    {
      var _ := PopKey(key);
    }

    method FindPendingKey(meta: Key) returns (found: Option<Key>)
      ensures found == FindKey(pending, meta)
    {
      var exact := Lookup(meta);
      if exact < |pending| {
        return Some(meta);
      }
      var i := 0;
      while i < |pending| && pending[i].key.name != meta.name
        invariant 0 <= i <= |pending|
        invariant NameIndex(pending, meta.name) == i + NameIndex(pending[i..], meta.name)
      {
        assert pending[i..][0] == pending[i] && pending[i..][1..] == pending[i + 1..];
        i := i + 1;
      }
      return if i < |pending| then Some(pending[i].key) else None;
    }

    // Returns the submission whose completion callback is to run, if any.
    method HandleTrData(meta: Key) returns (completed: Option<Pending>)
      modifies this`pending
      ensures var found := FindKey(old(pending), meta);
              match found
              case None => pending == old(pending) && completed.None?
              case Some(key) => pending == Pop(old(pending), key) && completed == Taken(old(pending), key)
    {
      var found := FindPendingKey(meta);
      if found.None? {
        return None;
      }
      completed := PopKey(found.value);
    }

    // The callback of the k-th timer outstanding.
    method TimeoutRequest(key: Key, k: nat) returns (completed: Option<Pending>)
      requires k < |timers| && timers[k].key == key
      modifies this
      ensures Model() == Runner(Pop(old(pending), key), Without(old(timers), k))
      ensures completed == Taken(old(pending), key)
    {
      timers := Without(timers, k);
      completed := PopKey(key);
    }
  }

  // ---- runs ------------------------------------------------------------------------------------

  // Every submission goes in once. A completion callback may itself submit: the entry has left
  // the dictionary by then, so its steps simply follow.
  datatype Step =
    | Submit(id: nat, key: Key)
    | Refuse(key: Key)
    | Arm(key: Key, due: int)
    | Cancelled(key: Key)
    | Data(meta: Key)
    | Fire(k: nat)

  // What happened to submissions, by number: completion callbacks run and entries discarded.
  datatype Run = Run(
    runner: Runner,
    submitted: multiset<nat>,
    completed: multiset<nat>,
    timedOut: multiset<nat>,
    discarded: multiset<nat>)

  const START := Run(Runner([], []), multiset{}, multiset{}, multiset{}, multiset{})

  function Number(taken: Option<Pending>): multiset<nat> {
    match taken
    case None => multiset{}
    case Some(p) => multiset{p.id}
  }

  function Discard(r: Run, key: Key): Run {
    r.(runner := r.runner.(pending := Pop(r.runner.pending, key)),
       discarded := r.discarded + Number(Taken(r.runner.pending, key)))
  }

  function Complete(r: Run, key: Key): Run {
    r.(runner := r.runner.(pending := Pop(r.runner.pending, key)),
       completed := r.completed + Number(Taken(r.runner.pending, key)))
  }

  function Timeout(r: Run, k: nat): Run
    requires k < |r.runner.timers|
  {
    var key := r.runner.timers[k].key;
    var c := Complete(r, key);
    c.(runner := c.runner.(timers := Without(r.runner.timers, k)),
       timedOut := r.timedOut + Number(Taken(r.runner.pending, key)))
  }

  predicate Enabled(r: Run, step: Step) {
    match step
    case Submit(id, _) => id !in r.submitted
    case Fire(k) => k < |r.runner.timers|
    case _ => true
  }

  function Next(r: Run, step: Step): Run {
    match step
    case Submit(id, key) =>
      r.(runner := r.runner.(pending := Put(r.runner.pending, Pending(id, key, false))),
         submitted := r.submitted + multiset{id},
         discarded := r.discarded + Number(Taken(r.runner.pending, key)))
    case Refuse(key) => Discard(r, key)
    case Cancelled(key) => Discard(r, key)
    case Arm(key, due) => r.(runner := AfterArm(r.runner, key, due))
    case Data(meta) =>
      var found := FindKey(r.runner.pending, meta);
      if found.None? then r else Complete(r, found.value)
    case Fire(k) => if k < |r.runner.timers| then Timeout(r, k) else r
  }

  predicate Admissible(r: Run, steps: seq<Step>)
    decreases steps
  {
    steps == [] || (Enabled(r, steps[0]) && Admissible(Next(r, steps[0]), steps[1..]))
  }

  function Execute(r: Run, steps: seq<Step>): Run
    decreases steps
  {
    if steps == [] then r else Execute(Next(r, steps[0]), steps[1..])
  }

  function Numbers(pending: seq<Pending>): multiset<nat> {
    if pending == [] then multiset{} else multiset{pending[0].id} + Numbers(pending[1..])
  }

  // No submission appears or disappears: each is pending, completed or discarded, once.
  ghost predicate Conserved(r: Run) {
    && r.submitted == Numbers(r.runner.pending) + r.completed + r.discarded
    && forall id :: r.submitted[id] <= 1
  }

  ghost predicate KeysDistinct(pending: seq<Pending>) {
    forall i, j :: 0 <= i < j < |pending| ==> pending[i].key != pending[j].key
  }

  ghost predicate HasTimer(timers: seq<Timer>, p: Pending) {
    exists k :: 0 <= k < |timers| && timers[k].key == p.key && timers[k].owner == p.id
  }

  ghost predicate TimersLive(r: Runner) {
    forall i :: 0 <= i < |r.pending| && r.pending[i].armed ==> HasTimer(r.timers, r.pending[i])
  }

  // A timer's owner was submitted before.
  ghost predicate OwnersKnown(r: Run) {
    forall k :: 0 <= k < |r.runner.timers| ==> r.runner.timers[k].owner in r.submitted
  }

  ghost predicate Inv(r: Run) {
    Conserved(r) && KeysDistinct(r.runner.pending) && TimersLive(r.runner) && OwnersKnown(r)
  }

  lemma {:induction false} NumbersSplit(a: seq<Pending>, b: seq<Pending>)
    ensures Numbers(a + b) == Numbers(a) + Numbers(b)
  {
    if a == [] {
      assert a + b == b;
    } else {
      assert (a + b)[1..] == a[1..] + b;
      NumbersSplit(a[1..], b);
    }
  }

  lemma NumbersAt(pending: seq<Pending>, i: nat)
    requires i < |pending|
    ensures Numbers(pending) == Numbers(pending[..i]) + multiset{pending[i].id} + Numbers(pending[i + 1..])
  {
    assert pending == pending[..i] + pending[i..] && pending[i..][1..] == pending[i + 1..];
    NumbersSplit(pending[..i], pending[i..]);
  }

  lemma NumbersPop(pending: seq<Pending>, key: Key)
    ensures Numbers(pending) == Numbers(Pop(pending, key)) + Number(Taken(pending, key))
  {
    var i := IndexOf(pending, key);
    if i < |pending| {
      NumbersAt(pending, i);
      NumbersSplit(pending[..i], pending[i + 1..]);
    }
  }

  lemma NumbersReplace(pending: seq<Pending>, i: nat, p: Pending)
    requires i < |pending|
    ensures Numbers(pending[i := p]) + multiset{pending[i].id} == Numbers(pending) + multiset{p.id}
  {
    NumbersAt(pending, i);
    var q := pending[i := p];
    NumbersAt(q, i);
    assert q[..i] == pending[..i] && q[i + 1..] == pending[i + 1..];
  }

  lemma NumbersPut(pending: seq<Pending>, p: Pending)
    ensures Numbers(Put(pending, p)) + Number(Taken(pending, p.key)) == Numbers(pending) + multiset{p.id}
  {
    var i := IndexOf(pending, p.key);
    if i < |pending| {
      NumbersReplace(pending, i, p);
    } else {
      NumbersSplit(pending, [p]);
      assert Numbers([p]) == multiset{p.id};
    }
  }

  lemma PutShape(r: Runner, p: Pending)
    requires KeysDistinct(r.pending) && TimersLive(r) && !p.armed
    ensures KeysDistinct(Put(r.pending, p)) && TimersLive(r.(pending := Put(r.pending, p)))
  {
    IndexOfIsFirst(r.pending, p.key);
  }

  // The entries a pop leaves are the old ones at other places, none under the key.
  lemma PopAt(pending: seq<Pending>, key: Key, i: nat) returns (was: nat)
    requires KeysDistinct(pending) && i < |Pop(pending, key)|
    ensures was < |pending| && Pop(pending, key)[i] == pending[was] && pending[was].key != key
    ensures was == if i < IndexOf(pending, key) then i else i + 1
  {
    IndexOfIsFirst(pending, key);
    was := if i < IndexOf(pending, key) then i else i + 1;
  }

  lemma PopShape(r: Runner, key: Key)
    requires KeysDistinct(r.pending) && TimersLive(r)
    ensures var left := Pop(r.pending, key);
            && KeysDistinct(left)
            && TimersLive(Runner(left, r.timers))
            && !HasKey(left, key)
  {
    var left := Pop(r.pending, key);
    forall i | 0 <= i < |left|
      ensures left[i].key != key && (left[i].armed ==> HasTimer(r.timers, left[i]))
    {
      var was := PopAt(r.pending, key, i);
    }
    forall i, j | 0 <= i < j < |left|
      ensures left[i].key != left[j].key
    {
      var wasI := PopAt(r.pending, key, i);
      var wasJ := PopAt(r.pending, key, j);
    }
    IndexOfIsFirst(left, key);
  }

  lemma WithoutKeeps(timers: seq<Timer>, k: nat, p: Pending)
    requires k < |timers| && timers[k].key != p.key && HasTimer(timers, p)
    ensures HasTimer(Without(timers, k), p)
  {
    var j :| 0 <= j < |timers| && timers[j].key == p.key && timers[j].owner == p.id;
    var at := if j < k then j else j - 1;
    assert Without(timers, k)[at] == timers[j];
  }

  // What is left after a timer fired has its own timers still.
  lemma FireShape(r: Runner, k: nat)
    requires KeysDistinct(r.pending) && TimersLive(r) && k < |r.timers|
    ensures TimersLive(Runner(Pop(r.pending, r.timers[k].key), Without(r.timers, k)))
  {
    var key := r.timers[k].key;
    var left := Pop(r.pending, key);
    forall i | 0 <= i < |left| && left[i].armed ensures HasTimer(Without(r.timers, k), left[i]) {
      var was := PopAt(r.pending, key, i);
      WithoutKeeps(r.timers, k, left[i]);
    }
  }

  lemma MoreTimers(timers: seq<Timer>, t: Timer, p: Pending)
    ensures HasTimer(timers, p) ==> HasTimer(timers + [t], p)
    ensures t.key == p.key && t.owner == p.id ==> HasTimer(timers + [t], p)
  {
    if HasTimer(timers, p) {
      var j :| 0 <= j < |timers| && timers[j].key == p.key && timers[j].owner == p.id;
      assert (timers + [t])[j] == timers[j];
    }
    assert (timers + [t])[|timers|] == t;
  }

  lemma ArmShape(r: Runner, key: Key, due: int)
    requires KeysDistinct(r.pending) && TimersLive(r)
    ensures KeysDistinct(AfterArm(r, key, due).pending) && TimersLive(AfterArm(r, key, due))
  {
    var i := IndexOf(r.pending, key);
    IndexOfIsFirst(r.pending, key);
    if i < |r.pending| {
      var n := AfterArm(r, key, due);
      forall j | 0 <= j < |n.pending| && n.pending[j].armed ensures HasTimer(n.timers, n.pending[j]) {
        MoreTimers(r.timers, Timer(key, r.pending[i].id, due), n.pending[j]);
        if j != i {
          assert HasTimer(r.timers, r.pending[j]);
        }
      }
    }
  }

  lemma Cancel(a: multiset<nat>, b: multiset<nat>, one: multiset<nat>)
    requires a + one == b + one
    ensures a == b
  {
    forall x: nat ensures a[x] == b[x] {
      assert (a + one)[x] == a[x] + one[x] && (b + one)[x] == b[x] + one[x];
    }
  }

  lemma Rebalance(all: multiset<nat>, was: multiset<nat>, now: multiset<nat>, one: multiset<nat>,
                  done: multiset<nat>, lost: multiset<nat>, gone: multiset<nat>)
    requires all == was + done + lost && now + gone == was + one
    ensures all + one == now + done + (lost + gone)
  {
    forall x: nat ensures (all + one)[x] == (now + done + (lost + gone))[x] {
      assert (now + gone)[x] == now[x] + gone[x] && (was + one)[x] == was[x] + one[x];
    }
  }

  lemma ArmNumbers(r: Runner, key: Key, due: int)
    ensures Numbers(AfterArm(r, key, due).pending) == Numbers(r.pending)
  {
    var i := IndexOf(r.pending, key);
    if i < |r.pending| {
      var q := r.pending[i := Armed(r.pending[i])];
      NumbersReplace(r.pending, i, Armed(r.pending[i]));
      Cancel(Numbers(q), Numbers(r.pending), multiset{r.pending[i].id});
    }
  }

  lemma SubmitKeeps(r: Run, id: nat, key: Key)
    requires Inv(r) && id !in r.submitted
    ensures Inv(Next(r, Submit(id, key)))
  {
    var p := Pending(id, key, false);
    NumbersPut(r.runner.pending, p);
    PutShape(r.runner, p);
    Rebalance(r.submitted, Numbers(r.runner.pending), Numbers(Put(r.runner.pending, p)), multiset{id},
              r.completed, r.discarded, Number(Taken(r.runner.pending, key)));
  }

  lemma PopConserves(r: Run, key: Key)
    requires Inv(r)
    ensures Inv(Discard(r, key)) && Inv(Complete(r, key))
  {
    NumbersPop(r.runner.pending, key);
    PopShape(r.runner, key);
  }

  lemma FireKeeps(r: Run, k: nat)
    requires Inv(r) && k < |r.runner.timers|
    ensures Inv(Timeout(r, k))
  {
    PopConserves(r, r.runner.timers[k].key);
    FireShape(r.runner, k);
    forall j | 0 <= j < |r.runner.timers| - 1 ensures Without(r.runner.timers, k)[j].owner in r.submitted {
      assert Without(r.runner.timers, k)[j] == r.runner.timers[if j < k then j else j + 1];
    }
  }

  lemma {:induction false} InNumbers(pending: seq<Pending>, i: nat)
    requires i < |pending|
    ensures pending[i].id in Numbers(pending)
  {
    if i > 0 {
      InNumbers(pending[1..], i - 1);
    }
  }

  lemma ArmKeeps(r: Run, key: Key, due: int)
    requires Inv(r)
    ensures Inv(Next(r, Arm(key, due)))
  {
    ArmShape(r.runner, key, due);
    ArmNumbers(r.runner, key, due);
    var i := IndexOf(r.runner.pending, key);
    if i < |r.runner.pending| {
      InNumbers(r.runner.pending, i);
    }
  }

  lemma StepKeeps(r: Run, step: Step)
    requires Inv(r) && Enabled(r, step)
    ensures Inv(Next(r, step))
  {
    match step
    case Submit(id, key) => SubmitKeeps(r, id, key);
    case Refuse(key) => PopConserves(r, key);
    case Cancelled(key) => PopConserves(r, key);
    case Arm(key, due) => ArmKeeps(r, key, due);
    case Data(meta) =>
      if FindKey(r.runner.pending, meta).Some? {
        PopConserves(r, FindKey(r.runner.pending, meta).value);
      }
    case Fire(k) => FireKeeps(r, k);
  }

  lemma {:induction false} RunKeeps(r: Run, steps: seq<Step>)
    requires Inv(r) && Admissible(r, steps)
    ensures Inv(Execute(r, steps))
    decreases steps
  {
    if steps != [] {
      StepKeeps(r, steps[0]);
      RunKeeps(Next(r, steps[0]), steps[1..]);
    }
  }

  lemma NextGrows(r: Run, step: Step, id: nat)
    ensures r.completed[id] <= Next(r, step).completed[id] && r.discarded[id] <= Next(r, step).discarded[id]
  {
  }

  lemma {:induction false} RunGrows(r: Run, steps: seq<Step>, id: nat)
    ensures r.completed[id] <= Execute(r, steps).completed[id]
    ensures r.discarded[id] <= Execute(r, steps).discarded[id]
    decreases steps
  {
    if steps != [] {
      NextGrows(r, steps[0], id);
      RunGrows(Next(r, steps[0]), steps[1..], id);
    }
  }

  // Over any interleaving a submission completes at most once, and not after its entry was
  // cancelled, refused or overwritten.
  lemma CompletesAtMostOnce(before: seq<Step>, after: seq<Step>, id: nat)
    requires Admissible(START, before)
    requires Admissible(Execute(START, before), after)
    ensures var mid := Execute(START, before);
            var end := Execute(mid, after);
            && end.completed[id] <= 1
            && (id in mid.discarded ==> end.completed[id] == 0)
            && (id in mid.completed ==> end.completed[id] == 1 && id !in end.discarded)
  {
    RunKeeps(START, before);
    var mid := Execute(START, before);
    RunKeeps(mid, after);
    RunGrows(mid, after, id);
    assert Execute(mid, after).submitted[id] <= 1;
  }

  // No submission is lost: each is still pending, completed or discarded, and exactly one of these.
  lemma NothingLost(steps: seq<Step>, id: nat)
    requires Admissible(START, steps)
    ensures var r := Execute(START, steps);
            r.submitted[id] == Numbers(r.runner.pending)[id] + r.completed[id] + r.discarded[id] <= 1
  {
    RunKeeps(START, steps);
  }

  // A request with a timeout never waits for ever: its own timer is still to fire, and firing it
  // completes the request.
  lemma ArmedRequestEnds(steps: seq<Step>, i: nat) returns (k: nat)
    requires Admissible(START, steps) && i < |Execute(START, steps).runner.pending|
    requires Execute(START, steps).runner.pending[i].armed
    ensures var r := Execute(START, steps);
            var p := r.runner.pending[i];
            && Enabled(r, Fire(k)) && r.runner.timers[k].owner == p.id
            && Next(r, Fire(k)).completed == r.completed + multiset{p.id}
            && !HasKey(Next(r, Fire(k)).runner.pending, p.key)
  {
    RunKeeps(START, steps);
    var r := Execute(START, steps);
    var p := r.runner.pending[i];
    assert HasTimer(r.runner.timers, p);
    k :| 0 <= k < |r.runner.timers| && r.runner.timers[k].key == p.key && r.runner.timers[k].owner == p.id;
    IndexOfIsFirst(r.runner.pending, p.key);
    PopShape(r.runner, p.key);
  }
}
