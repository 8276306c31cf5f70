// The runtime's set of codes registered for realtime prices: one cap over every way in.

module RealtimeRuntime {
  import opened ConditionAdmission

  // ---- one registration ------------------------------------------------------------------

  function Unique(codes: seq<string>, seen: set<string>): (r: seq<string>)
    ensures |r| <= |codes|
  {
    if codes == [] then []
    else if codes[0] == "" || codes[0] in seen then Unique(codes[1..], seen)
    else [codes[0]] + Unique(codes[1..], seen + {codes[0]})
  }

  function Fresh(codes: seq<string>, registered: set<string>): (r: seq<string>)
    ensures |r| <= |codes|
  {
    if codes == [] then []
    else if codes[0] in registered then Fresh(codes[1..], registered)
    else [codes[0]] + Fresh(codes[1..], registered)
  }

  function Codes(codes: seq<string>): set<string> {
    set c | c in codes
  }

  // Blank codes are never registered.
  function Named(codes: seq<string>): set<string> {
    set c | c in codes && c != ""
  }

  function Limit(maxTotal: int): nat {
    Max(maxTotal, 0)
  }

  function Capacity(registered: set<string>, maxTotal: int): nat {
    Max(maxTotal - |registered|, 0)
  }

  function Wanted(registered: set<string>, codes: seq<string>, force: bool): seq<string> {
    if force then Unique(codes, {}) else Fresh(Unique(codes, {}), registered)
  }

  function Chosen(registered: set<string>, codes: seq<string>, force: bool, maxTotal: int): seq<string> {
    var w := Wanted(registered, codes, force);
    if force then w else w[..Min(|w|, Capacity(registered, maxTotal))]
  }

  datatype Runtime = Runtime(registered: set<string>, budgetSkips: nat, dedupes: nat, admission: Controller)

  function AfterChoice(s: Runtime, codes: seq<string>, force: bool, maxTotal: int): Runtime {
    var wanted := Wanted(s.registered, codes, force);
    var chosen := Chosen(s.registered, codes, force, maxTotal);
    s.(budgetSkips := s.budgetSkips + |wanted| - |chosen|,
       dedupes := s.dedupes + if force then 0 else |Unique(codes, {})| - |wanted|)
  }

  // `up` tells whether the client call returned or raised.
  function Register(s: Runtime, codes: seq<string>, force: bool, up: bool, maxTotal: int): (r: Runtime)
    ensures r.admission == s.admission
  {
    var counted := AfterChoice(s, codes, force, maxTotal);
    if up then counted.(registered := s.registered + Codes(Chosen(s.registered, codes, force, maxTotal))) else counted
  }

  predicate Raised(registered: set<string>, codes: seq<string>, up: bool, maxTotal: int) {
    !up && Chosen(registered, codes, false, maxTotal) != []
  }

  // ---- register and remove commands --------------------------------------------------------

  predicate CommandFits(registered: set<string>, codes: seq<string>, maxTotal: int) {
    |registered| + |Codes(codes) - registered| <= maxTotal
  }

  function RegisterCommand(s: Runtime, codes: seq<string>, acked: bool, maxTotal: int): Runtime {
    if !CommandFits(s.registered, codes, maxTotal) then
      s.(budgetSkips := s.budgetSkips + |Codes(codes) - s.registered|)
    else if acked then s.(registered := s.registered + Codes(codes))
    else s
  }

  function RemoveCommand(s: Runtime, codes: seq<string>, acked: bool): Runtime {
    if acked then s.(registered := s.registered - Codes(codes)) else s
  }

  // ---- condition callbacks -----------------------------------------------------------------

  // A condition hit; the counts it is judged by are filled in by the runtime.
  datatype Arrival = Arrival(code: string, profiled: bool, hit: Hit, up: bool)

  function Judged(s: Runtime, a: Arrival, planned: nat, maxTotal: int): Hit {
    a.hit.(registered := |s.registered|, planned := planned, maxTotal := maxTotal)
  }

  const NOTHING := Decision(false, false, PolicyNone)

  function Verdict(s: Runtime, a: Arrival, planned: nat, maxTotal: int): Decision {
    if a.profiled then Decide(s.admission, Judged(s, a, planned, maxTotal)) else NOTHING
  }

  function OnEvent(s: Runtime, a: Arrival, planned: nat, maxTotal: int): Runtime {
    if !a.profiled then s
    else
      var judged := s.(admission := AfterDecide(s.admission, Judged(s, a, planned, maxTotal)));
      if Verdict(s, a, planned, maxTotal).immediate then Register(judged, [a.code], false, a.up, maxTotal) else judged
  }

  predicate EventRaised(s: Runtime, a: Arrival, planned: nat, maxTotal: int) {
    Verdict(s, a, planned, maxTotal).immediate && Raised(s.registered, [a.code], a.up, maxTotal)
  }

  // The state of a TR callback's loop. `admitted` lists every code a decision subscribed.
  datatype Loop = Loop(s: Runtime, batch: seq<string>, admitted: seq<string>, failed: bool)

  function Turn(t: Loop, a: Arrival, maxTotal: int): Loop {
    var d := Verdict(t.s, a, |t.batch|, maxTotal);
    var failed := EventRaised(t.s, a, |t.batch|, maxTotal);
    Loop(OnEvent(t.s, a, |t.batch|, maxTotal),
         if d.batch && !failed then t.batch + [a.code] else t.batch,
         if d.Subscribed() && !failed then t.admitted + [a.code] else t.admitted,
         failed)
  }

  function Turns(t: Loop, arrivals: seq<Arrival>, maxTotal: int): Loop
    decreases arrivals
  {
    if arrivals == [] || t.failed then t else Turns(Turn(t, arrivals[0], maxTotal), arrivals[1..], maxTotal)
  }

  function LoopStart(s: Runtime): Loop {
    Loop(s, [], [], false)
  }

  function OnTr(s: Runtime, arrivals: seq<Arrival>, up: bool, maxTotal: int): Runtime {
    var t := Turns(LoopStart(s), arrivals, maxTotal);
    if t.failed then t.s else Register(t.s, t.batch, false, up, maxTotal)
  }

  class KiwoomGatewayRuntime {
    const realtimeMaxTotal: int
    const conditionAdmission: GatewayConditionAdmissionController
    var registered: set<string>
    var budgetSkips: nat
    var dedupes: nat

    ghost function Model(): Runtime
      reads this, conditionAdmission
    {
      Runtime(registered, budgetSkips, dedupes, conditionAdmission.Model())
    }

    constructor (maxTotal: int)
      ensures Model() == Runtime({}, 0, 0, EMPTY) && realtimeMaxTotal == maxTotal
      ensures fresh(conditionAdmission)
    {
      realtimeMaxTotal := maxTotal;
      conditionAdmission := new GatewayConditionAdmissionController();
      registered, budgetSkips, dedupes := {}, 0, 0;
    }

    static method OrderedUniqueCodes(codes: seq<string>) returns (result: seq<string>)
      ensures result == Unique(codes, {})
    {
      result := [];
      var seen: set<string> := {};
      for i := 0 to |codes|
        invariant result + Unique(codes[i..], seen) == Unique(codes, {})
      {
        assert codes[i..][1..] == codes[i + 1..];
        ghost var rest := Unique(codes[i + 1..], seen + {codes[i]});
        if codes[i] != "" && codes[i] !in seen {
          assert result + ([codes[i]] + rest) == result + [codes[i]] + rest;
          seen := seen + {codes[i]};
          result := result + [codes[i]];
        }
      }
      assert result + [] == result;
    }

    method FreshCodes(codes: seq<string>) returns (result: seq<string>)
      ensures result == Fresh(codes, registered)
    {
      result := [];
      for i := 0 to |codes|
        invariant result + Fresh(codes[i..], registered) == Fresh(codes, registered)
      {
        assert codes[i..][1..] == codes[i + 1..];
        ghost var rest := Fresh(codes[i + 1..], registered);
        if codes[i] !in registered {
          assert result + ([codes[i]] + rest) == result + [codes[i]] + rest;
          result := result + [codes[i]];
        }
      }
      assert result + [] == result;
    }

    // The codes one registration will ask the client for, with the skips counted.
    method ChooseCodes(codes: seq<string>, force: bool) returns (chosen: seq<string>)
      modifies this`budgetSkips, this`dedupes
      ensures chosen == Chosen(registered, codes, force, realtimeMaxTotal)
      ensures Model() == AfterChoice(old(Model()), codes, force, realtimeMaxTotal)
    {
      chosen := OrderedUniqueCodes(codes);
      if chosen != [] && !force {
        var freshCodes := FreshCodes(chosen);
        var capacity := Max(realtimeMaxTotal - |registered|, 0);
        var skipped := Max(|freshCodes| - capacity, 0);
        dedupes := dedupes + |chosen| - |freshCodes|;
        budgetSkips := budgetSkips + skipped;
        chosen := if skipped > 0 then freshCodes[..capacity] else freshCodes;
      }
    }

    method RegisterRealtimeCodes(codes: seq<string>, force: bool, up: bool) returns (raised: bool)
      modifies this`registered, this`budgetSkips, this`dedupes
      ensures Model() == Register(old(Model()), codes, force, up, realtimeMaxTotal)
      ensures raised == (!up && Chosen(old(registered), codes, force, realtimeMaxTotal) != [])
    {
      var chosen := ChooseCodes(codes, force);
      if chosen == [] {
        assert registered + Codes(chosen) == registered;
        return false;
      }
      if up {
        registered := registered + Codes(chosen);
      }
      return !up;
    }

    // Validation, handling (`acked`) and tracking of a register or remove command.
    method HandleRealtimeCommand(remove: bool, codes: seq<string>, acked: bool) returns (refused: bool)
      modifies this
      ensures refused == (!remove && !CommandFits(old(registered), codes, realtimeMaxTotal))
      ensures Model() == if remove then RemoveCommand(old(Model()), codes, acked)
                         else RegisterCommand(old(Model()), codes, acked, realtimeMaxTotal)
    {
      var named := Codes(codes);
      if !remove {
        var newCodes := named - registered;
        if |registered| + |newCodes| > realtimeMaxTotal {
          budgetSkips := budgetSkips + |newCodes|;
          return true;
        }
      }
      if acked {
        registered := if remove then registered - named else registered + named;
      }
      return false;
    }

    method OnConditionEvent(a: Arrival, planned: nat) returns (d: Decision, raised: bool)
      modifies this, conditionAdmission
      ensures Model() == OnEvent(old(Model()), a, planned, realtimeMaxTotal)
      ensures d == Verdict(old(Model()), a, planned, realtimeMaxTotal)
      ensures raised == EventRaised(old(Model()), a, planned, realtimeMaxTotal)
    {
      if !a.profiled {
        return NOTHING, false;
      }
      d := conditionAdmission.DecideHit(a.hit.(registered := |registered|, planned := planned, maxTotal := realtimeMaxTotal));
      raised := false;
      if d.immediate {
        raised := RegisterRealtimeCodes([a.code], false, a.up);
      }
    }

    method OnConditionTrReceived(arrivals: seq<Arrival>, up: bool)
      modifies this, conditionAdmission
      ensures Model() == OnTr(old(Model()), arrivals, up, realtimeMaxTotal)
    {
      var batchCodes: seq<string> := [];
      ghost var t := LoopStart(Model());
      var i := 0;
      while i < |arrivals|
        invariant 0 <= i <= |arrivals|
        invariant t.s == Model() && t.batch == batchCodes && !t.failed
        invariant Turns(t, arrivals[i..], realtimeMaxTotal)
               == Turns(LoopStart(old(Model())), arrivals, realtimeMaxTotal)
      {
        assert arrivals[i..][0] == arrivals[i] && arrivals[i..][1..] == arrivals[i + 1..];
        t := Turn(t, arrivals[i], realtimeMaxTotal);
        var d, raised := OnConditionEvent(arrivals[i], |batchCodes|);
        if raised {
          return;
        }
        if d.batch {
          batchCodes := batchCodes + [arrivals[i].code];
        }
        i := i + 1;
      }
      if batchCodes != [] {
        var _ := RegisterRealtimeCodes(batchCodes, false, up);
      }
    }
  }

  // ---- counting ----------------------------------------------------------------------------

  ghost predicate Distinct(codes: seq<string>) {
    forall i, j :: 0 <= i < j < |codes| ==> codes[i] != codes[j]
  }

  lemma {:induction false} UniqueShape(codes: seq<string>, seen: set<string>)
    ensures Distinct(Unique(codes, seen))
    ensures Codes(Unique(codes, seen)) == Named(codes) - seen
  {
    if codes != [] {
      if codes[0] == "" || codes[0] in seen {
        UniqueShape(codes[1..], seen);
      } else {
        UniqueShape(codes[1..], seen + {codes[0]});
        UniqueStep(codes, seen);
      }
      assert Named(codes) - seen - {codes[0]} == Named(codes[1..]) - seen - {codes[0]};
    }
  }

  lemma UniqueStep(codes: seq<string>, seen: set<string>)
    requires codes != [] && codes[0] != "" && codes[0] !in seen
    requires Distinct(Unique(codes[1..], seen + {codes[0]}))
    requires Codes(Unique(codes[1..], seen + {codes[0]})) == Named(codes[1..]) - (seen + {codes[0]})
    ensures Distinct(Unique(codes, seen)) && Codes(Unique(codes, seen)) == Named(codes) - seen
  {
    var rest := Unique(codes[1..], seen + {codes[0]});
    assert codes[0] !in Codes(rest);
    DistinctCons(codes[0], rest);
    CodesCons(codes[0], rest);
    NamedCons(codes);
    assert {codes[0]} + (Named(codes[1..]) - (seen + {codes[0]})) == ({codes[0]} + Named(codes[1..])) - seen;
  }

  lemma DistinctCons(code: string, rest: seq<string>)
    requires Distinct(rest) && code !in rest
    ensures Distinct([code] + rest)
  {
  }

  lemma CodesCons(code: string, rest: seq<string>)
    ensures Codes([code] + rest) == {code} + Codes(rest)
  {
  }

  lemma NamedCons(codes: seq<string>)
    requires codes != [] && codes[0] != ""
    ensures Named(codes) == {codes[0]} + Named(codes[1..])
  {
  }

  lemma {:induction false} FreshShape(codes: seq<string>, registered: set<string>)
    requires Distinct(codes)
    ensures Distinct(Fresh(codes, registered))
    ensures Codes(Fresh(codes, registered)) == Codes(codes) - registered
  {
    if codes != [] {
      FreshShape(codes[1..], registered);
      var rest := Fresh(codes[1..], registered);
      assert codes[0] !in codes[1..];
      assert Codes(codes) == {codes[0]} + Codes(codes[1..]);
      assert codes[0] !in Codes(rest);
      assert Codes([codes[0]] + rest) == {codes[0]} + Codes(rest);
    }
  }

  lemma {:induction false} DistinctCount(codes: seq<string>)
    requires Distinct(codes)
    ensures |Codes(codes)| == |codes|
  {
    if codes != [] {
      DistinctCount(codes[1..]);
      assert codes[0] !in codes[1..];
      assert Codes(codes) == {codes[0]} + Codes(codes[1..]);
    }
  }

  lemma UnionCount(a: set<string>, b: set<string>)
    ensures |a + b| == |a| + |b - a|
  {
    assert a + b == a + (b - a) && a !! (b - a);
  }

  // A plain registration adds the first fresh codes, as many as there is room for, and skips
  // the rest; it leaves a code out only when the cap is reached.
  lemma RegistrationExact(s: Runtime, codes: seq<string>, maxTotal: int)
    ensures var w, c := Wanted(s.registered, codes, false), Chosen(s.registered, codes, false, maxTotal);
            var r := Register(s, codes, false, true, maxTotal);
            && c <= w && Distinct(w) && Codes(w) == Named(codes) - s.registered
            && r.registered == s.registered + Codes(c)
            && |r.registered| == |s.registered| + |c| <= Max(|s.registered|, Limit(maxTotal))
            && (|w| > |c| ==> |r.registered| >= maxTotal)
            && r.budgetSkips - s.budgetSkips == |s.registered + Named(codes)| - |r.registered|
  {
    var u := Unique(codes, {});
    UniqueShape(codes, {});
    FreshShape(u, s.registered);
    var w, c := Wanted(s.registered, codes, false), Chosen(s.registered, codes, false, maxTotal);
    DistinctCount(w);
    DistinctCount(c);
    assert Codes(c) <= Codes(w);
    assert Codes(c) - s.registered == Codes(c);
    UnionCount(s.registered, Codes(c));
    UnionCount(s.registered, Named(codes));
  }

  // A register command is let through exactly when a plain registration of its codes would
  // skip none of them.
  lemma CommandFitsIffNothingSkipped(s: Runtime, codes: seq<string>, maxTotal: int)
    requires "" !in codes && |s.registered| <= maxTotal
    ensures CommandFits(s.registered, codes, maxTotal)
       <==> Register(s, codes, false, true, maxTotal).budgetSkips == s.budgetSkips
  {
    RegistrationExact(s, codes, maxTotal);
    assert Named(codes) == Codes(codes);
    UnionCount(s.registered, Named(codes));
  }

  lemma ForcedAddsNothing(s: Runtime, codes: seq<string>, up: bool, maxTotal: int)
    requires Named(codes) <= s.registered
    ensures Register(s, codes, true, up, maxTotal) == s
  {
    UniqueShape(codes, {});
    assert s.registered + Codes(Unique(codes, {})) == s.registered;
  }

  // ---- the TR callback ---------------------------------------------------------------------

  ghost predicate CapHolds(s: Runtime, maxTotal: int) {
    |s.registered| <= Limit(maxTotal)
  }

  ghost predicate Holds(t: Loop, skips: nat, maxTotal: int) {
    && |t.s.registered| + |t.batch| <= Limit(maxTotal)
    && t.s.budgetSkips == skips
    && (forall c :: c in t.admitted && c != "" ==> c in t.s.registered || c in t.batch)
  }

  lemma SubscribedHasRoom(c: Controller, h: Hit)
    requires Decide(c, h).Subscribed()
    ensures h.registered + Max(h.planned, 0) + 1 <= Limit(h.maxTotal)
    ensures !(Decide(c, h).immediate && Decide(c, h).batch)
  {
    SubscribedMeans(c, h);
  }

  lemma RegisterOne(s: Runtime, code: string, up: bool, maxTotal: int)
    requires |s.registered| < maxTotal
    ensures var r := Register(s, [code], false, up, maxTotal);
            && r.budgetSkips == s.budgetSkips
            && s.registered <= r.registered <= s.registered + {code}
            && (code != "" && !Raised(s.registered, [code], up, maxTotal) ==> code in r.registered)
  {
    UniqueShape([code], {});
    FreshShape(Unique([code], {}), s.registered);
    var c := Chosen(s.registered, [code], false, maxTotal);
    assert Named([code]) <= {code};
    assert c == Wanted(s.registered, [code], false);
    assert Codes(c) == Named([code]) - s.registered;
    assert code != "" ==> code in Named([code]);
  }

  lemma TurnHolds(t: Loop, a: Arrival, skips: nat, maxTotal: int)
    requires Holds(t, skips, maxTotal) && !t.failed
    ensures Holds(Turn(t, a, maxTotal), skips, maxTotal)
  {
    var d := Verdict(t.s, a, |t.batch|, maxTotal);
    if d.Subscribed() {
      SubscribedHasRoom(t.s.admission, Judged(t.s, a, |t.batch|, maxTotal));
      var judged := t.s.(admission := AfterDecide(t.s.admission, Judged(t.s, a, |t.batch|, maxTotal)));
      RegisterOne(judged, a.code, a.up, maxTotal);
      UnionCount(t.s.registered, {a.code});
      SubsetCount(OnEvent(t.s, a, |t.batch|, maxTotal).registered, t.s.registered + {a.code});
    }
  }

  lemma SubsetCount(a: set<string>, b: set<string>)
    requires a <= b
    ensures |a| <= |b|
  {
    UnionCount(a, b);
    assert a + b == b;
  }

  lemma {:induction false} TurnsHold(t: Loop, arrivals: seq<Arrival>, skips: nat, maxTotal: int)
    requires Holds(t, skips, maxTotal)
    ensures Holds(Turns(t, arrivals, maxTotal), skips, maxTotal)
    decreases arrivals
  {
    if arrivals != [] && !t.failed {
      TurnHolds(t, arrivals[0], skips, maxTotal);
      TurnsHold(Turn(t, arrivals[0], maxTotal), arrivals[1..], skips, maxTotal);
    }
  }

  // At every point of the loop the registered codes and the planned batch fit the cap together.
  lemma LoopWithinCap(s: Runtime, arrivals: seq<Arrival>, n: nat, maxTotal: int)
    requires CapHolds(s, maxTotal) && n <= |arrivals|
    ensures var t := Turns(LoopStart(s), arrivals[..n], maxTotal);
            |t.s.registered| + |t.batch| <= Limit(maxTotal)
  {
    TurnsHold(LoopStart(s), arrivals[..n], s.budgetSkips, maxTotal);
  }

  // So the cap skips no code, and when the client accepts the batch every subscribed code is
  // registered.
  lemma AdmittedAreRegistered(s: Runtime, arrivals: seq<Arrival>, up: bool, maxTotal: int)
    requires CapHolds(s, maxTotal)
    ensures var t, r := Turns(LoopStart(s), arrivals, maxTotal), OnTr(s, arrivals, up, maxTotal);
            && r.budgetSkips == s.budgetSkips
            && CapHolds(r, maxTotal)
            && (up && !t.failed ==> forall c :: c in t.admitted && c != "" ==> c in r.registered)
  {
    TurnsHold(LoopStart(s), arrivals, s.budgetSkips, maxTotal);
    var t := Turns(LoopStart(s), arrivals, maxTotal);
    if !t.failed {
      BatchFits(t, up, maxTotal);
    }
  }

  lemma BatchFits(t: Loop, up: bool, maxTotal: int)
    requires |t.s.registered| + |t.batch| <= Limit(maxTotal)
    ensures var r := Register(t.s, t.batch, false, up, maxTotal);
            && r.budgetSkips == t.s.budgetSkips && CapHolds(r, maxTotal)
            && (up ==> r.registered == t.s.registered + Named(t.batch))
  {
    RegistrationExact(t.s, t.batch, maxTotal);
    var w := Wanted(t.s.registered, t.batch, false);
    assert t.s.registered + (Named(t.batch) - t.s.registered) == t.s.registered + Named(t.batch);
    assert |w| <= Capacity(t.s.registered, maxTotal);
    assert w[..|w|] == w;
  }

  // ---- runs --------------------------------------------------------------------------------

  // `listing` is the sorted list of the registered codes.
  datatype Step =
    | Configured(codes: seq<string>, up: bool)
    | Reconnected(listing: seq<string>, up: bool)
    | Recovered(listing: seq<string>, up: bool)
    | Registered(codes: seq<string>, acked: bool)
    | Removed(codes: seq<string>, acked: bool)
    | Condition(a: Arrival)
    | TrCallback(arrivals: seq<Arrival>, up: bool)

  predicate Enabled(s: Runtime, step: Step) {
    step.Reconnected? || step.Recovered? ==> Codes(step.listing) == s.registered
  }

  function Next(s: Runtime, step: Step, maxTotal: int): Runtime {
    match step
    case Configured(codes, up) => Register(s, codes, false, up, maxTotal)
    case Reconnected(listing, up) => Register(s, listing, true, up, maxTotal)
    case Recovered(listing, up) => Register(s, listing, true, up, maxTotal)
    case Registered(codes, acked) => RegisterCommand(s, codes, acked, maxTotal)
    case Removed(codes, acked) => RemoveCommand(s, codes, acked)
    case Condition(a) => OnEvent(s, a, 0, maxTotal)
    case TrCallback(arrivals, up) => OnTr(s, arrivals, up, maxTotal)
  }

  predicate Admissible(s: Runtime, steps: seq<Step>, maxTotal: int)
    decreases steps
  {
    steps == [] || (Enabled(s, steps[0]) && Admissible(Next(s, steps[0], maxTotal), steps[1..], maxTotal))
  }

  function Execute(s: Runtime, steps: seq<Step>, maxTotal: int): Runtime
    decreases steps
  {
    if steps == [] then s else Execute(Next(s, steps[0], maxTotal), steps[1..], maxTotal)
  }

  lemma PlainKeeps(s: Runtime, codes: seq<string>, up: bool, maxTotal: int)
    requires CapHolds(s, maxTotal)
    ensures CapHolds(Register(s, codes, false, up, maxTotal), maxTotal)
  {
    RegistrationExact(s, codes, maxTotal);
  }

  lemma StepKeeps(s: Runtime, step: Step, maxTotal: int)
    requires CapHolds(s, maxTotal) && Enabled(s, step)
    ensures CapHolds(Next(s, step, maxTotal), maxTotal)
  {
    match step
    case Configured(codes, up) => PlainKeeps(s, codes, up, maxTotal);
    case Reconnected(listing, up) => ForcedAddsNothing(s, listing, up, maxTotal);
    case Recovered(listing, up) => ForcedAddsNothing(s, listing, up, maxTotal);
    case Registered(codes, acked) => UnionCount(s.registered, Codes(codes));
    case Removed(codes, acked) => SubsetCount(s.registered - Codes(codes), s.registered);
    case Condition(a) =>
      PlainKeeps(s.(admission := AfterDecide(s.admission, Judged(s, a, 0, maxTotal))), [a.code], a.up, maxTotal);
    case TrCallback(arrivals, up) => AdmittedAreRegistered(s, arrivals, up, maxTotal);
  }

  // However the ways in are mixed, the registered set never outgrows the configured total.
  lemma {:induction false} CapKept(s: Runtime, steps: seq<Step>, maxTotal: int)
    requires CapHolds(s, maxTotal) && Admissible(s, steps, maxTotal)
    ensures |Execute(s, steps, maxTotal).registered| <= Limit(maxTotal)
    decreases steps
  {
    if steps != [] {
      StepKeeps(s, steps[0], maxTotal);
      CapKept(Next(s, steps[0], maxTotal), steps[1..], maxTotal);
    }
  }
}
