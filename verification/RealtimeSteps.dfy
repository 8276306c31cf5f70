// Which codes a step registers or drops, what it counts, and in what order codes are asked for.

module RealtimeSteps {
  import opened ConditionAdmission
  import opened RealtimeRuntime

  // ---- the order of a registration -----------------------------------------------------------

  function FirstAt(codes: seq<string>, code: string): (i: nat)
    ensures i <= |codes|
    ensures i < |codes| ==> codes[i] == code
  {
    if codes == [] || codes[0] == code then 0 else 1 + FirstAt(codes[1..], code)
  }

  // The codes stand in the order in which the request first names them.
  ghost predicate InRequestOrder(codes: seq<string>, part: seq<string>) {
    && (forall i :: 0 <= i < |part| ==> FirstAt(codes, part[i]) < |codes|)
    && forall i, j :: 0 <= i < j < |part| ==> FirstAt(codes, part[i]) < FirstAt(codes, part[j])
  }

  lemma ConsInOrder(code: string, codes: seq<string>, part: seq<string>)
    requires InRequestOrder(codes, part) && code !in part
    ensures InRequestOrder([code] + codes, part)
    ensures InRequestOrder([code] + codes, [code] + part)
  {
    var longer := [code] + codes;
    assert longer[1..] == codes;
    forall i | 0 <= i < |part| ensures FirstAt(longer, part[i]) == 1 + FirstAt(codes, part[i]) {
      assert part[i] in part;
    }
    var more := [code] + part;
    assert forall i :: 0 < i < |more| ==> more[i] == part[i - 1];
    assert FirstAt(longer, code) == 0;
  }

  lemma {:induction false} UniqueInOrder(codes: seq<string>, seen: set<string>)
    ensures InRequestOrder(codes, Unique(codes, seen))
    ensures forall c :: c in Unique(codes, seen) ==> c !in seen
  {
    if codes != [] {
      assert codes == [codes[0]] + codes[1..];
      if codes[0] == "" || codes[0] in seen {
        UniqueInOrder(codes[1..], seen);
        if codes[0] == "" {
          NoBlank(codes[1..], seen);
        }
        ConsInOrder(codes[0], codes[1..], Unique(codes[1..], seen));
      } else {
        UniqueInOrder(codes[1..], seen + {codes[0]});
        ConsInOrder(codes[0], codes[1..], Unique(codes[1..], seen + {codes[0]}));
      }
    }
  }

  lemma NoBlank(codes: seq<string>, seen: set<string>)
    ensures "" !in Unique(codes, seen)
  {
    UniqueShape(codes, seen);
    assert "" !in Codes(Unique(codes, seen));
  }

  lemma {:induction false} FreshInOrder(codes: seq<string>, part: seq<string>, registered: set<string>)
    requires InRequestOrder(codes, part)
    ensures InRequestOrder(codes, Fresh(part, registered))
    ensures forall c :: c in Fresh(part, registered) ==> c in part
    decreases part
  {
    if part != [] {
      TailInOrder(codes, part);
      FreshInOrder(codes, part[1..], registered);
      if part[0] !in registered {
        HeadInOrder(codes, part, Fresh(part[1..], registered));
      }
    }
  }

  lemma TailInOrder(codes: seq<string>, part: seq<string>)
    requires part != [] && InRequestOrder(codes, part)
    ensures InRequestOrder(codes, part[1..])
    ensures forall c :: c in part[1..] ==> FirstAt(codes, part[0]) < FirstAt(codes, c)
  {
    forall i | 0 <= i < |part[1..]| ensures part[1..][i] == part[i + 1] {
    }
  }

  lemma HeadInOrder(codes: seq<string>, part: seq<string>, rest: seq<string>)
    requires part != [] && InRequestOrder(codes, part) && InRequestOrder(codes, rest)
    requires forall c :: c in rest ==> c in part[1..]
    ensures InRequestOrder(codes, [part[0]] + rest)
  {
    TailInOrder(codes, part);
    var all := [part[0]] + rest;
    forall i, j | 0 <= i < j < |all| ensures FirstAt(codes, all[i]) < FirstAt(codes, all[j]) {
      assert all[j] == rest[j - 1] && rest[j - 1] in rest;
      assert i > 0 ==> all[i] == rest[i - 1];
    }
  }

  lemma PrefixInOrder(codes: seq<string>, part: seq<string>, n: nat)
    requires InRequestOrder(codes, part) && n <= |part|
    ensures InRequestOrder(codes, part[..n])
  {
  }

  // A registration asks for its codes in the order of the request: all of them when forced, else the
  // first fresh ones there is room for.
  lemma ChosenInOrder(registered: set<string>, codes: seq<string>, maxTotal: int)
    ensures InRequestOrder(codes, Chosen(registered, codes, true, maxTotal))
    ensures Codes(Chosen(registered, codes, true, maxTotal)) == Named(codes)
    ensures InRequestOrder(codes, Chosen(registered, codes, false, maxTotal))
  {
    UniqueShape(codes, {});
    UniqueInOrder(codes, {});
    FreshInOrder(codes, Unique(codes, {}), registered);
    PrefixInOrder(codes, Fresh(Unique(codes, {}), registered), |Chosen(registered, codes, false, maxTotal)|);
  }

  lemma SplitCount(a: set<string>, b: set<string>)
    ensures |a| == |a * b| + |a - b|
  {
    assert a == (a * b) + (a - b) && (a * b) !! (a - b);
  }

  lemma FreshCount(codes: seq<string>, registered: set<string>)
    ensures |Unique(codes, {})| - |Fresh(Unique(codes, {}), registered)| == |Named(codes) * registered|
  {
    var u := Unique(codes, {});
    var f := Fresh(u, registered);
    UniqueShape(codes, {});
    FreshShape(u, registered);
    DistinctCount(u);
    DistinctCount(f);
    assert Codes(u) == Named(codes);
    assert Codes(f) == Named(codes) - registered;
    SplitCount(Named(codes), registered);
  }

  // The codes that were registered already are counted, and a call that raises registers none.
  lemma RegistrationCounts(s: Runtime, codes: seq<string>, maxTotal: int)
    ensures var plain, forced := Register(s, codes, false, true, maxTotal), Register(s, codes, true, true, maxTotal);
            && plain.dedupes == s.dedupes + |Named(codes) * s.registered|
            && forced.dedupes == s.dedupes && forced.budgetSkips == s.budgetSkips
            && forced.registered == s.registered + Named(codes)
            && Register(s, codes, false, false, maxTotal) == plain.(registered := s.registered)
            && Register(s, codes, true, false, maxTotal) == forced.(registered := s.registered)
  {
    FreshCount(codes, s.registered);
    ChosenInOrder(s.registered, codes, maxTotal);
  }

  // ---- single codes --------------------------------------------------------------------------

  function Blankless(code: string): set<string> {
    if code == "" then {} else {code}
  }

  // When a condition hit registers its code at once.
  predicate HitRegisters(s: Runtime, a: Arrival, maxTotal: int) {
    && a.profiled && a.up && a.code != ""
    && Decide(s.admission, a.hit.(registered := |s.registered|, planned := 0, maxTotal := maxTotal)).immediate
  }

  // What a step that is no TR callback makes of one code.
  ghost predicate CodeAfter(s: Runtime, step: Step, maxTotal: int, code: string, n: Runtime)
    requires !step.TrCallback?
  {
    match step
    case Configured(codes, up) =>
      && (code in n.registered ==> code in s.registered || (up && code != "" && code in codes))
      && (code in s.registered ==> code in n.registered)
      && (up && code != "" && code in codes && code !in n.registered ==> |n.registered| >= maxTotal)
    case Reconnected(_, _) => code in n.registered <==> code in s.registered
    case Recovered(_, _) => code in n.registered <==> code in s.registered
    case Registered(codes, acked) =>
      code in n.registered <==>
        code in s.registered || (acked && code in codes && |s.registered + Codes(codes)| <= maxTotal)
    case Removed(codes, acked) => code in n.registered <==> code in s.registered && !(acked && code in codes)
    case Condition(a) =>
      code in n.registered <==> code in s.registered || (code == a.code && HitRegisters(s, a, maxTotal))
  }

  // A code is registered after a step exactly when it was and was not removed, or the step asked for it
  // and was let through.
  lemma StepRegisters(s: Runtime, step: Step, maxTotal: int, code: string)
    requires CapHolds(s, maxTotal) && RealtimeRuntime.Enabled(s, step) && !step.TrCallback?
    ensures CodeAfter(s, step, maxTotal, code, RealtimeRuntime.Next(s, step, maxTotal))
  {
    match step
    case Configured(codes, up) => PlainRegisters(s, codes, up, maxTotal, code);
    case Reconnected(listing, up) => ForcedAddsNothing(s, listing, up, maxTotal);
    case Recovered(listing, up) => ForcedAddsNothing(s, listing, up, maxTotal);
    case Registered(codes, acked) => UnionCount(s.registered, Codes(codes));
    case Removed(codes, acked) =>
    case Condition(a) => HitStep(s, a, maxTotal, code);
  }

  lemma PlainRegisters(s: Runtime, codes: seq<string>, up: bool, maxTotal: int, code: string)
    requires CapHolds(s, maxTotal)
    ensures CodeAfter(s, Configured(codes, up), maxTotal, code, Register(s, codes, false, up, maxTotal))
  {
    RegistrationExact(s, codes, maxTotal);
    var w, c := Wanted(s.registered, codes, false), Chosen(s.registered, codes, false, maxTotal);
    assert Codes(c) <= Codes(w);
    if |c| == |w| {
      assert c == w;
    }
  }

  lemma HitStep(s: Runtime, a: Arrival, maxTotal: int, code: string)
    requires CapHolds(s, maxTotal)
    ensures CodeAfter(s, Condition(a), maxTotal, code, OnEvent(s, a, 0, maxTotal))
  {
    if Verdict(s, a, 0, maxTotal).immediate {
      SubscribedHasRoom(s.admission, Judged(s, a, 0, maxTotal));
      var judged := s.(admission := AfterDecide(s.admission, Judged(s, a, 0, maxTotal)));
      RegisterOne(judged, a.code, a.up, maxTotal);
      OneChosen(s.registered, a.code, maxTotal);
    }
  }

  // With room left, a single code is asked for unless it is blank or registered.
  lemma OneChosen(registered: set<string>, code: string, maxTotal: int)
    requires |registered| < maxTotal
    ensures Codes(Chosen(registered, [code], false, maxTotal)) == if code == "" || code in registered then {} else {code}
  {
    UniqueShape([code], {});
    FreshShape(Unique([code], {}), registered);
    var w := Wanted(registered, [code], false);
    assert |w| <= 1;
    assert Chosen(registered, [code], false, maxTotal) == w;
    assert Named([code]) == Blankless(code);
  }

  // ---- the TR callback -----------------------------------------------------------------------

  // Registered codes and planned batch together are what was registered and what was admitted.
  ghost predicate Accounts(s: Runtime, t: Loop) {
    t.s.registered + Named(t.batch) == s.registered + Named(t.admitted)
  }

  lemma PlainOne(s: Runtime, code: string, up: bool, maxTotal: int)
    requires |s.registered| < maxTotal
    ensures var r := Register(s, [code], false, up, maxTotal);
            r.registered == if Raised(s.registered, [code], up, maxTotal) then s.registered
                            else s.registered + Blankless(code)
  {
    OneChosen(s.registered, code, maxTotal);
  }

  // A hit that registers at once adds its code, unless the client raises.
  lemma EventRegisters(s: Runtime, a: Arrival, planned: nat, maxTotal: int)
    ensures OnEvent(s, a, planned, maxTotal).registered
         == if Verdict(s, a, planned, maxTotal).immediate && !EventRaised(s, a, planned, maxTotal)
            then s.registered + Blankless(a.code) else s.registered
  {
    if Verdict(s, a, planned, maxTotal).immediate {
      SubscribedHasRoom(s.admission, Judged(s, a, planned, maxTotal));
      PlainOne(s.(admission := AfterDecide(s.admission, Judged(s, a, planned, maxTotal))), a.code, a.up, maxTotal);
    }
  }

  // One turn registers its code at once, plans it, or leaves both as they were.
  lemma TurnRegisters(t: Loop, a: Arrival, skips: nat, maxTotal: int)
    requires Holds(t, skips, maxTotal) && !t.failed
    ensures var n := Turn(t, a, maxTotal);
            || (n.batch == t.batch && n.admitted == t.admitted && n.s.registered == t.s.registered)
            || (n.batch == t.batch && n.admitted == t.admitted + [a.code]
                && n.s.registered == t.s.registered + Blankless(a.code))
            || (n.batch == t.batch + [a.code] && n.admitted == t.admitted + [a.code] && n.s.registered == t.s.registered)
  {
    EventRegisters(t.s, a, |t.batch|, maxTotal);
    if Verdict(t.s, a, |t.batch|, maxTotal).Subscribed() {
      SubscribedHasRoom(t.s.admission, Judged(t.s, a, |t.batch|, maxTotal));
    }
  }

  lemma TurnAccounts(s: Runtime, t: Loop, a: Arrival, skips: nat, maxTotal: int)
    requires Holds(t, skips, maxTotal) && !t.failed && Accounts(s, t)
    ensures Accounts(s, Turn(t, a, maxTotal))
  {
    TurnRegisters(t, a, skips, maxTotal);
    NamedMore(t.batch, a.code);
    NamedMore(t.admitted, a.code);
    AccountsMore(s, t, Turn(t, a, maxTotal), Blankless(a.code));
  }

  lemma AccountsMore(s: Runtime, t: Loop, n: Loop, added: set<string>)
    requires Accounts(s, t)
    requires || (n.batch == t.batch && n.admitted == t.admitted && n.s.registered == t.s.registered)
             || (n.batch == t.batch && Named(n.admitted) == Named(t.admitted) + added
                 && n.s.registered == t.s.registered + added)
             || (Named(n.batch) == Named(t.batch) + added && Named(n.admitted) == Named(t.admitted) + added
                 && n.s.registered == t.s.registered)
    ensures Accounts(s, n)
  {
    var was := t.s.registered + Named(t.batch);
    assert t.s.registered + added + Named(t.batch) == was + added;
    assert t.s.registered + (Named(t.batch) + added) == was + added;
    assert s.registered + (Named(t.admitted) + added) == was + added;
  }

  lemma NamedMore(codes: seq<string>, code: string)
    ensures Named(codes + [code]) == Named(codes) + Blankless(code)
  {
  }

  lemma {:induction false} TurnsAccount(s: Runtime, t: Loop, arrivals: seq<Arrival>, skips: nat, maxTotal: int)
    requires Holds(t, skips, maxTotal) && Accounts(s, t)
    ensures Accounts(s, Turns(t, arrivals, maxTotal))
    decreases arrivals
  {
    if arrivals != [] && !t.failed {
      TurnHolds(t, arrivals[0], skips, maxTotal);
      TurnAccounts(s, t, arrivals[0], skips, maxTotal);
      TurnsAccount(s, Turn(t, arrivals[0], maxTotal), arrivals[1..], skips, maxTotal);
    }
  }

  // A TR callback that goes through registers exactly the codes its decisions admitted; one that raises
  // leaves out those still planned, and no others.
  lemma TrRegisters(s: Runtime, arrivals: seq<Arrival>, up: bool, maxTotal: int)
    requires CapHolds(s, maxTotal)
    ensures var t, r := Turns(LoopStart(s), arrivals, maxTotal), OnTr(s, arrivals, up, maxTotal);
            && r.registered <= s.registered + Named(t.admitted)
            && s.registered + Named(t.admitted) <= r.registered + Named(t.batch)
            && (up && !t.failed ==> r.registered == s.registered + Named(t.admitted))
  {
    var t := Turns(LoopStart(s), arrivals, maxTotal);
    TurnsHold(LoopStart(s), arrivals, s.budgetSkips, maxTotal);
    TurnsAccount(s, LoopStart(s), arrivals, s.budgetSkips, maxTotal);
    if !t.failed {
      BatchFits(t, up, maxTotal);
      if !up {
        assert Register(t.s, t.batch, false, false, maxTotal).registered == t.s.registered;
      }
    }
  }

  // A register command over the cap is refused and counts its new codes; nothing else counts skips
  // besides plain registrations.
  lemma CommandSkips(s: Runtime, codes: seq<string>, acked: bool, maxTotal: int)
    ensures RegisterCommand(s, codes, acked, maxTotal).budgetSkips - s.budgetSkips
         == if |s.registered + Codes(codes)| > maxTotal then |Codes(codes) - s.registered| else 0
    ensures RemoveCommand(s, codes, acked).budgetSkips == s.budgetSkips
  {
    UnionCount(s.registered, Codes(codes));
  }
}
