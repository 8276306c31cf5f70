// When a condition hit is admitted and when not, told from the admissions so far.

module AdmissionDecisions {
  import opened SlidingWindows
  import opened ConditionAdmission

  // ---- the cap ---------------------------------------------------------------------------------

  // Which trouble outweighs which: callbacks, then parse errors, then no callback yet.
  lemma QualityMeans(m: Metrics)
    ensures QualityOf(m) == CallbackTimeout <==> m.health == CallbackTrouble
    ensures QualityOf(m) == Degraded <==>
            m.health != CallbackTrouble && (m.health == ParseError || (m.errors >= 3 && 2 * m.errors > m.parsed))
    ensures QualityOf(m) == Warmup <==>
            m.health == OtherHealth && m.errors < 3 && m.registered > 0 && m.callbacks == 0 && m.parsed == 0
  {
  }

  // What a role may fill before the total is looked at.
  function Allowance(role: Role, q: Quality, s: Session): nat {
    match role
    case RiskBlock => 0
    case Leader | Pullback | Breakout | Manual =>
      (match q case Good => 100 case Degraded => 30 case Warmup => 20 case CallbackTimeout => 10)
    case Discovery | ThemeSpread =>
      match q
      case CallbackTimeout => 0
      case Degraded => if s == PreopenNxt then 0 else 5
      case Warmup => if s == PreopenNxt then 0 else if s == Closing then 5 else 8
      case Good =>
        match s
        case PreopenNxt => 0
        case Opening => 80
        case MorningTrend => 40
        case Midday => 12
        case Afternoon => 10
        case Closing => 5
  }

  // The cap is the role's allowance or the configured total, whichever is less.
  lemma CapMeans(role: Role, m: Metrics, s: Session, maxTotal: int)
    ensures var cap := AdaptiveCap(role, m, s, maxTotal);
            var allowance := Allowance(role, QualityOf(m), s);
            && cap <= allowance && (cap == allowance || cap == maxTotal || (cap == 0 && maxTotal < 0))
            && (maxTotal >= 0 ==> cap <= maxTotal)
            && (maxTotal >= allowance ==> cap == allowance)
  {
  }

  // ---- the gates, from the history -------------------------------------------------------------

  // A profile's admissions of the last minute, whatever they came from.
  function Recent(admitted: seq<Admission>, h: Hit): nat {
    |Within(Times(admitted, h.profile.id, false), h.now - 60.0, 60.0)|
  }

  // The gates in their order; the hit is stopped by the first one that is shut.
  predicate Shut(admitted: seq<Admission>, h: Hit, gate: Reason) {
    match gate
    case ExitEvent => h.action != Enter
    case RiskBlocked => h.profile.role == RiskBlock
    case PolicyNone => h.profile.policy == NoSubscribe
    case MaxInitialReached =>
      h.source == TrCondition && InitialAdmissions(admitted, h.profile.id) >= h.profile.maxInitial
    case BudgetExhausted =>
      h.registered + (if h.planned < 0 then 0 else h.planned)
      >= AdaptiveCap(h.profile.role, h.metrics, h.session, h.maxTotal)
    case RateLimited => h.source == RealCondition && Recent(admitted, h) >= h.profile.maxPerMin
    case _ => false
  }

  ghost predicate AllOpen(admitted: seq<Admission>, h: Hit) {
    forall gate :: !Shut(admitted, h, gate)
  }

  function Place(gate: Reason): nat {
    match gate
    case ExitEvent => 0
    case RiskBlocked => 1
    case PolicyNone => 2
    case MaxInitialReached => 3
    case BudgetExhausted => 4
    case _ => 5
  }

  ghost predicate FirstShut(admitted: seq<Admission>, h: Hit, gate: Reason) {
    Shut(admitted, h, gate) && forall earlier :: Place(earlier) < Place(gate) ==> !Shut(admitted, h, earlier)
  }

  // Discovery hits late in the day are only batched.
  predicate LateDiscovery(h: Hit) {
    h.profile.role == Discovery && (h.session == Midday || h.session == Afternoon || h.session == Closing)
  }

  // A code is registered at once when the policy is immediate, or else for a hit of the realtime
  // callback; it joins the batch of a TR callback when the policy is to batch, or late discovery.
  ghost predicate DecidesAs(admitted: seq<Admission>, h: Hit, d: Decision) {
    && (d.immediate <==> AllOpen(admitted, h) && !LateDiscovery(h)
                         && (h.profile.policy == Immediate || h.source == RealCondition))
    && (d.batch <==> AllOpen(admitted, h) && h.source == TrCondition && h.batchAllowed
                     && (h.profile.policy == Batch || LateDiscovery(h)))
  }

  // A refused hit names the first gate that is shut, an open one what the policy made of it.
  ghost predicate Names(admitted: seq<Admission>, h: Hit, reason: Reason) {
    if AllOpen(admitted, h) then
      reason == if LateDiscovery(h) then SessionLimited
                else if h.profile.policy == Immediate then SubscribeImmediate
                else if h.profile.policy == RealOnly then
                  if h.source == RealCondition then SubscribeRealOnly else RealOnlySkipped
                else if h.source == RealCondition then BatchRealtime
                else if h.source == TrCondition && h.batchAllowed then BatchInitial
                else BatchDeferred
    else FirstShut(admitted, h, reason)
  }

  // The queue that gates realtime hits is the history's last minute.
  lemma RateFromHistory(r: Run, h: Hit)
    requires Chronological(r) && Remembers(r, h.profile.id) && r.clock <= h.now
    ensures WithinRate(r.c, h) <==> Recent(r.admitted, h) < h.profile.maxPerMin
  {
    EntriesForward(r, h);
    TimesShape(r.admitted, h.profile.id, false, r.clock);
    TrimIsWithin(Times(r.admitted, h.profile.id, false), h.now, MINUTE);
  }

  lemma GateFromHistory(r: Run, h: Hit)
    requires InitialCount(r.c, h.profile.id) == InitialAdmissions(r.admitted, h.profile.id)
    ensures if Gate(r.c, h) == RateLimited then forall gate :: Shut(r.admitted, h, gate) ==> gate == RateLimited
            else FirstShut(r.admitted, h, Gate(r.c, h))
  {
  }

  lemma OpenDecides(admitted: seq<Admission>, h: Hit)
    requires AllOpen(admitted, h)
    ensures DecidesAs(admitted, h, ByPolicy(h)) && Names(admitted, h, ByPolicy(h).reason)
  {
    assert !Shut(admitted, h, PolicyNone);
  }

  lemma DecideFromHistory(r: Run, h: Hit)
    requires Chronological(r) && Remembers(r, h.profile.id) && r.clock <= h.now
    requires InitialCount(r.c, h.profile.id) == InitialAdmissions(r.admitted, h.profile.id)
    ensures DecidesAs(r.admitted, h, Decide(r.c, h)) && Names(r.admitted, h, Decide(r.c, h).reason)
  {
    RateFromHistory(r, h);
    GateFromHistory(r, h);
    if Gate(r.c, h) != RateLimited {
      assert Shut(r.admitted, h, Gate(r.c, h));
    } else if h.source == RealCondition && !WithinRate(r.c, h) {
      assert Shut(r.admitted, h, RateLimited);
    } else {
      assert !Shut(r.admitted, h, RateLimited);
      OpenDecides(r.admitted, h);
    }
  }

  // In every run the answer to a hit follows from the admissions so far.
  lemma RunDecides(profiles: map<string, Profile>, clock: real, hits: seq<Hit>, h: Hit)
    requires forall x :: x in profiles ==> profiles[x].id == x
    requires Admissible(Run(EMPTY, clock, []), profiles, hits)
    requires Enabled(Execute(Run(EMPTY, clock, []), hits), profiles, h)
    ensures var r := Execute(Run(EMPTY, clock, []), hits);
            DecidesAs(r.admitted, h, Decide(r.c, h)) && Names(r.admitted, h, Decide(r.c, h).reason)
  {
    FreshInv(profiles, clock);
    RunKeeps(Run(EMPTY, clock, []), profiles, hits);
    DecideFromHistory(Execute(Run(EMPTY, clock, []), hits), h);
  }

  // ---- the metrics -----------------------------------------------------------------------------

  function ActionsOf(hits: seq<Hit>, id: string, action: Action): nat {
    if hits == [] then 0
    else (if hits[0].profile.id == id && hits[0].action == action then 1 else 0) + ActionsOf(hits[1..], id, action)
  }

  // Entries and exits are counted as they come.
  lemma {:induction false} ActionsTally(r: Run, hits: seq<Hit>, id: string)
    ensures var m, n := MetricOf(r.c, id), MetricOf(Execute(r, hits).c, id);
            && n.enters == m.enters + ActionsOf(hits, id, Enter)
            && n.exits == m.exits + ActionsOf(hits, id, Exit)
    decreases hits
  {
    if hits != [] {
      ActionsTally(Next(r, hits[0]), hits[1..], id);
    }
  }
}
