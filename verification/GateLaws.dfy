/** What an approval of the gate means, and how long its refusals last. */
module GateLaws {
  import opened Records
  import opened Sizing
  import opened VolumeRounding
  import opened RiskState
  import opened Bracket
  import opened RiskGate

  // ------------------------------------------------------------------ the order that was approved

  function OrderOf(x: Inputs): Order {
    Order(x.signal.side, EntryOf(x), x.signal.stop, x.signal.target)
  }

  lemma RatioAgrees(x: Inputs)
    requires x.facts.spec.Some? && x.facts.spec.value.point > 0.0 && Priced(OrderOf(x)) && EntryOf(x) != x.signal.stop
    requires x.signal.target.Some? && x.signal.target.value > 0.0
    ensures RatioPasses(x, DerivedOf(x)) <==>
      !Broken(PoorRatio, OrderOf(x), x.facts.spec.value, Some(x.settings.minRatio))
  {
    var d := DerivedOf(x);
    assert d.distance == Some(Distance(EntryOf(x).value, x.signal.stop.value)) && d.distance.value != 0.0;
    assert d.ratio == Some(Distance(x.signal.target.value, EntryOf(x).value) / d.distance.value);
  }

  lemma SidesAgree(x: Inputs)
    requires x.facts.spec.Some? && EntryOf(x).Some? && EntryOf(x).value > 0.0
    ensures var o, spec, ratio := OrderOf(x), x.facts.spec.value, Some(x.settings.minRatio);
      StopPasses(x) <==>
        !Broken(BadSide, o, spec, ratio) && !Broken(BadStop, o, spec, ratio) && !Broken(ZeroDistance, o, spec, ratio)
                         && !Broken(TooClose, o, spec, ratio) && !Broken(WrongSideStop, o, spec, ratio)
    ensures var o, spec, ratio := OrderOf(x), x.facts.spec.value, Some(x.settings.minRatio);
      StopPasses(x) ==>
        (TargetPasses(x) <==>
        o.target.Some? && !Broken(BadTarget, o, spec, ratio) && !Broken(WrongSideTarget, o, spec, ratio))
  {
  }

  // The gate's checks 9 to 11 and the executor's validate_stops are separate code and the same rule.
  lemma StopRulesAgree(x: Inputs)
    requires x.facts.spec.Some? && x.facts.spec.value.point > 0.0 && EntryOf(x).Some? && EntryOf(x).value > 0.0
    ensures StopPasses(x) && TargetPasses(x) && RatioPasses(x, DerivedOf(x)) <==>
      x.signal.target.Some? && StopsOk(OrderOf(x), x.facts.spec.value, Some(x.settings.minRatio))
  {
    SidesAgree(x);
    if StopPasses(x) && TargetPasses(x) { RatioAgrees(x); }
  }

  // The signal a bracket was anchored for.
  predicate CarriesBracket(x: Inputs, q: Quote, original: Signal) {
    x.facts.spec.Some? && LevelsOf(original, q, x.facts.spec.value, x.settings.minRatio).Some? &&
    var l := LevelsOf(original, q, x.facts.spec.value, x.settings.minRatio).value;
    x.signal == Signal(original.side, Some(l.entry), Some(l.stop), Some(l.target))
  }

  // Every bracket the scheduler anchors passes checks 9, 10 and 11.
  lemma BracketPassesTheGate(x: Inputs, q: Quote, original: Signal)
    requires CarriesBracket(x, q, original) && x.facts.spec.value.point > 0.0
    ensures StopPasses(x) && TargetPasses(x) && RatioPasses(x, DerivedOf(x))
  {
    var spec, ratio := x.facts.spec.value, x.settings.minRatio;
    var l := LevelsOf(original, q, spec, ratio).value;
    ValidSides(AsOrder(original.side, l), spec, ratio);
    StopRulesAgree(x);
  }

  lemma ApprovedNumbers(x: Inputs, seen: Seen, consumed: Option<bool>)
    requires GateOpen(x, seen, consumed)
    ensures x.facts.spec.Some? && EntryOf(x).Some? && x.signal.stop.Some?
    ensures var spec, entry, stop, d := x.facts.spec.value, EntryOf(x).value, x.signal.stop.value, DerivedOf(x);
      && d.volume.Some? && d.volume == SizeForLossBudget(x.settings.maxLoss, entry, stop, spec)
      && d.volume.value <= x.settings.maxLots + LOT_EPSILON
      && d.risk == PositionRisk(d.volume.value, entry, stop, spec) && d.risk.Some?
      && d.risk.value <= x.settings.maxLoss + MONEY_EPSILON
      && d.margin == RequiredMargin(d.volume.value, spec, entry, x.facts.leverage)
  {
    var d := DerivedOf(x);
    assert StopPasses(x) && SizingPasses(x, d);
    assert d.volume.value > 0.0;
  }

  // The number of steps the loss budget is sized to.
  function SizedSteps(x: Inputs): int
    requires x.facts.spec.Some? && Usable(x.facts.spec.value) && EntryOf(x).Some? && x.signal.stop.Some?
    requires RiskPerLot(EntryOf(x).value, x.signal.stop.value, x.facts.spec.value).Some?
  {
    Steps(x.settings.maxLoss / RiskPerLot(EntryOf(x).value, x.signal.stop.value, x.facts.spec.value).value,
      x.facts.spec.value)
  }

  // The order can be sized at all.
  predicate Sizable(x: Inputs) {
    x.facts.spec.Some? && Usable(x.facts.spec.value) && EntryOf(x).Some? && x.signal.stop.Some?
    && RiskPerLot(EntryOf(x).value, x.signal.stop.value, x.facts.spec.value).Some?
  }

  // Eight decimals keep the sized number of steps; always so for steps that are multiples of 1e-8 lots.
  predicate KeepsItsSteps(x: Inputs) {
    Sizable(x) && Kept(SizedSteps(x), x.facts.spec.value)
  }

  // An approved volume is the largest the loss budget affords, rounded to eight decimals; it risks at
  // most the per-trade limit, respects the lot cap, and is still the same after the executor
  // normalizes it again exactly when its steps are kept.
  lemma ApprovedVolumeIsTheLargestSafe(x: Inputs, seen: Seen, consumed: Option<bool>)
    requires GateOpen(x, seen, consumed)
    ensures Sizable(x) && DerivedOf(x).volume.Some?
    ensures var spec, volume, n := x.facts.spec.value, DerivedOf(x).volume.value, SizedSteps(x);
      var perLot := RiskPerLot(EntryOf(x).value, x.signal.stop.value, spec).value;
      && volume == Rounded(n, spec) && Affordable(n, x.settings.maxLoss, perLot, spec)
      && (forall m :: Affordable(m, x.settings.maxLoss, perLot, spec) ==> m <= n)
      && spec.volumeMin <= volume <= x.settings.maxLots + LOT_EPSILON
      && LossOf(volume, perLot) <= x.settings.maxLoss + MONEY_EPSILON
      && (NormalizeVolume(volume, spec) == Some(volume) <==> KeepsItsSteps(x))
  {
    ApprovedNumbers(x, seen, consumed);
    var spec, entry, stop := x.facts.spec.value, EntryOf(x).value, x.signal.stop.value;
    var perLot := RiskPerLot(entry, stop, spec).value;
    LargestAffordable(x.settings.maxLoss, perLot, spec);
    NormalizedAgainIff(x.settings.maxLoss / perLot, spec);
  }

  lemma LargestAffordable(budget: real, perLot: real, spec: SymbolSpec)
    requires budget > 0.0 && perLot > 0.0 && NormalizeVolume(budget / perLot, spec).Some?
    ensures var n := Steps(budget / perLot, spec);
      && NormalizeVolume(budget / perLot, spec) == Some(Rounded(n, spec)) && Affordable(n, budget, perLot, spec)
      && forall m :: Affordable(m, budget, perLot, spec) ==> m <= n
  {
    var n := Steps(budget / perLot, spec);
    AffordableIsFits(n, budget, perLot, spec);
    StepsAreTheMost(budget / perLot, spec, n);
    forall m | Affordable(m, budget, perLot, spec) ensures m <= n {
      AffordableIsFits(m, budget, perLot, spec);
      StepsAreTheMost(budget / perLot, spec, m);
    }
  }

  lemma GridKeepsItsSteps(x: Inputs)
    requires Sizable(x) && OnGrid(x.facts.spec.value) && SizedSteps(x) > 0
    ensures KeepsItsSteps(x)
  {
    PositiveProduct(STEP_EPSILON, x.facts.spec.value.volumeStep);
    LotsAreExact(SizedSteps(x), x.facts.spec.value);
  }

  // The executor's own checks between its preflight and the authorization, and the request it builds.
  function PreSend(side: Side, price: real, stop: Option<real>, target: Option<real>, volume: real, spec: SymbolSpec,
                   minRatio: real, leverage: real, free: Option<real>): Option<Request> {
    var lots := NormalizeVolume(volume, spec);
    if lots.None? || stop.None? || !StopsOk(Order(side, Some(price), stop, target), spec, Some(minRatio)) then None
    else if !MarginWithinFreeMargin(RequiredMargin(lots.value, spec, price, leverage), free, 0.0) then None
    else Some(BuildRequest(side, price, stop.value, target, lots.value, spec))
  }

  // What the executor sends without looking at the gate: only a volume the broker's steps allow, a bracket
  // that breaks no rule, and a margin that is known and within the free margin; and then exactly that.
  lemma SentIff(side: Side, price: real, stop: Option<real>, target: Option<real>, volume: real, spec: SymbolSpec,
      minRatio: real, leverage: real, free: Option<real>, lots: Option<real>, margin: Option<real>)
    requires lots == NormalizeVolume(volume, spec)
      && margin == if lots.Some? then RequiredMargin(lots.value, spec, price, leverage) else None
    ensures var sent := PreSend(side, price, stop, target, volume, spec, minRatio, leverage, free);
      && (sent.Some? <==>
        lots.Some? && stop.Some? && margin.Some? && free.Some? && 0.0 < margin.value <= free.value
          && forall rule :: !Broken(rule, Order(side, Some(price), stop, target), spec, Some(minRatio)))
      && (sent.Some? ==> sent.value == BuildRequest(side, price, stop.value, target, lots.value, spec))
  {
    forall rule: Rule ensures rule in ALL_RULES { EveryRule(rule); }
    if free.Some? { PlainMargin(margin, free); }
  }

  lemma MarginIsPositive(lots: real, spec: SymbolSpec, price: real, leverage: real)
    requires RequiredMargin(lots, spec, price, leverage).Some?
    ensures RequiredMargin(lots, spec, price, leverage).value > 0.0
  {
    if spec.marginPerLot > 0.0 {
      PositiveProduct(lots, spec.marginPerLot);
    } else {
      PositiveProduct(lots, spec.contractSize);
      PositiveProduct(lots * spec.contractSize, price);
      PositiveQuotient(lots * spec.contractSize * price, leverage);
    }
  }

  lemma MarginFits(margin: Option<real>, free: Option<real>)
    requires margin.Some? && margin.value > 0.0 && free.Some?
    ensures MarginWithinFreeMargin(margin, free, 0.0) <==> margin.value <= free.value
  {
    assert 1.0 - Max(0.0, 0.0) / 100.0 == 1.0;
  }

  lemma ApprovedMargin(x: Inputs, seen: Seen, consumed: Option<bool>)
    requires GateOpen(x, seen, consumed)
    ensures DerivedOf(x).margin.Some? && DerivedOf(x).margin.value > 0.0 && x.facts.freeMargin.Some?
  {
    ApprovedNumbers(x, seen, consumed);
    assert MarginPasses(x, DerivedOf(x));
    MarginIsPositive(DerivedOf(x).volume.value, x.facts.spec.value, EntryOf(x).value, x.facts.leverage);
  }

  // From the strategy to the broker: an approved signal with an anchored bracket leaves with exactly
  // that bracket and exactly the approved volume; the executor's checks on the same facts refuse it
  // exactly when the margin exceeds the free margin, by the little the gate tolerates.
  lemma ApprovedOrderIsSentUnchanged(x: Inputs, q: Quote, original: Signal, seen: Seen, consumed: Option<bool>)
    requires CarriesBracket(x, q, original) && GateOpen(x, seen, consumed) && KeepsItsSteps(x)
      && x.facts.spec.value.point > 0.0
    ensures DerivedOf(x).volume.Some? && DerivedOf(x).margin.Some? && x.facts.freeMargin.Some?
    ensures var spec, d := x.facts.spec.value, DerivedOf(x);
      var l := LevelsOf(original, q, spec, x.settings.minRatio).value;
      PreSend(x.signal.side, l.entry, x.signal.stop, x.signal.target, d.volume.value, spec, x.settings.minRatio,
        x.facts.leverage, x.facts.freeMargin)
        == if d.margin.value <= x.facts.freeMargin.value then
          Some(Request(x.signal.side, d.volume.value, l.entry, l.stop, l.target)) else None
  {
    var spec := x.facts.spec.value;
    var l := LevelsOf(original, q, spec, x.settings.minRatio).value;
    ApprovedVolumeIsTheLargestSafe(x, seen, consumed);
    ApprovedNumbers(x, seen, consumed);
    ApprovedMargin(x, seen, consumed);
    MarginFits(DerivedOf(x).margin, x.facts.freeMargin);
    RequestCarriesTheBracket(original, q, spec, x.settings.minRatio, l, DerivedOf(x).volume.value);
    ValidSides(AsOrder(original.side, l), spec, x.settings.minRatio);
    StopRulesAgree(x);
  }

  const ONE_LOT: SymbolSpec := SymbolSpec(1.0, 1.0, 1.0, 1.0, 1.0, 1.0, 0, 0, 0.0, 1.0, 0)

  lemma OneLotIsSized()
    ensures RiskPerLot(10.0, 9.0, ONE_LOT) == Some(1.0)
    ensures Steps(1.0, ONE_LOT) == 1 && Rounded(1, ONE_LOT) == 1.0 && OnGrid(ONE_LOT)
    ensures NormalizeVolume(1.0, ONE_LOT) == Some(1.0)
  {
    assert LossOf(1.0, 1.0) == 1.0;
    assert RoundHalfEven(1.0) == 1 && FloorSteps(1.0) == 1;
    assert 1.0 / LOT_GRID == 100000000.0;
    assert RoundHalfEven(100000000.0) == 100000000;
    assert Lots(1, ONE_LOT) == 1.0;
  }

  lemma OneLotCosts()
    ensures SizeForLossBudget(1.0, 10.0, 9.0, ONE_LOT) == Some(1.0)
    ensures PositionRisk(1.0, 10.0, 9.0, ONE_LOT) == Some(1.0) && RequiredMargin(1.0, ONE_LOT, 10.0, 0.0) == Some(1.0)
  {
    OneLotIsSized();
    assert 1.0 / 1.0 == 1.0 && LossOf(1.0, 1.0) == 1.0;
  }

  lemma DerivedAre(spec: SymbolSpec, entry: real, stop: real, target: real, maxLoss: real, leverage: real, d: Derived)
    requires entry != 0.0 && stop != 0.0 && target != 0.0 && spec.point > 0.0 && Distance(entry, stop) != 0.0
      && d.volume.Some?
    requires d == Derived(
      Some(Distance(entry, stop)), RiskPerLot(entry, stop, spec), SizeForLossBudget(maxLoss, entry, stop, spec),
      PositionRisk(d.volume.value, entry, stop, spec), RequiredMargin(d.volume.value, spec, entry, leverage),
      Some(Distance(target, entry) / Distance(entry, stop)))
    ensures DerivedFrom(spec, Some(entry), Some(stop), Some(target), maxLoss, leverage) == d
  {
  }

  const ONE_LOT_NUMBERS: Derived := Derived(Some(1.0), Some(1.0), Some(1.0), Some(1.0), Some(1.0), Some(2.0))

  lemma OneLotDistances()
    ensures Some(Distance(10.0, 9.0)) == ONE_LOT_NUMBERS.distance
      && RiskPerLot(10.0, 9.0, ONE_LOT) == ONE_LOT_NUMBERS.perLot
  {
    OneLotIsSized();
  }

  lemma OneLotRatio()
    ensures Some(Distance(12.0, 10.0) / Distance(10.0, 9.0)) == ONE_LOT_NUMBERS.ratio
  {
  }

  lemma OneLotNumbers(spec: SymbolSpec, entry: Option<real>, stop: Option<real>, target: Option<real>, maxLoss: real,
      leverage: real)
    requires spec == ONE_LOT && entry == Some(10.0) && stop == Some(9.0) && target == Some(12.0) && maxLoss == 1.0
      && leverage == 0.0
    ensures DerivedFrom(spec, entry, stop, target, maxLoss, leverage) == ONE_LOT_NUMBERS
  {
    OneLotCosts();
    OneLotDistances();
    OneLotRatio();
    DerivedAre(spec, entry.value, stop.value, target.value, maxLoss, leverage, ONE_LOT_NUMBERS);
  }

  lemma DerivedIs(x: Inputs, d: Derived)
    requires x.facts.spec.Some?
    requires DerivedFrom(x.facts.spec.value, EntryOf(x), x.signal.stop, x.signal.target, x.settings.maxLoss,
      x.facts.leverage) == d
    ensures DerivedOf(x) == d
  {
  }

  lemma OneLotIsDerived(x: Inputs)
    requires x.facts.spec == Some(ONE_LOT) && x.signal == Signal(Buy, Some(10.0), Some(9.0), Some(12.0))
    requires x.settings.maxLoss == 1.0 && x.facts.leverage == 0.0
    ensures DerivedOf(x) == ONE_LOT_NUMBERS
  {
    OneLotNumbers(x.facts.spec.value, EntryOf(x), x.signal.stop, x.signal.target, x.settings.maxLoss, x.facts.leverage);
    DerivedIs(x, ONE_LOT_NUMBERS);
  }

  lemma OneLotSteps(x: Inputs)
    requires x.facts.spec == Some(ONE_LOT) && x.signal == Signal(Buy, Some(10.0), Some(9.0), Some(12.0))
      && x.settings.maxLoss == 1.0
    ensures Sizable(x) && SizedSteps(x) == 1 && KeepsItsSteps(x)
  {
    OneLotIsSized();
    assert EntryOf(x) == Some(10.0) && 1.0 / 1.0 == 1.0;
    GridKeepsItsSteps(x);
  }

  predicate OneLotCase(x: Inputs, seen: Seen) {
    && x.settings == Settings(1.0, 1.0, 1.0, 1.0, 1, 1, 1, 0, 1.0, 1.0, 2.0, 1.0, 1.0, 1.0, 1.0, 1.0, 1.0, true)
    && x.facts == Facts(Some(ONE_LOT), true, Some(true), true, Some(true), Some(0.0), Some(Hold), Some(0.0), Some(0),
      Some(0), Some(0.0), None, false, false, true, Some(1.0), Some(1.0), 0.0)
    && x.signal == Signal(Buy, Some(10.0), Some(9.0), Some(12.0)) && x.score == 0
    && seen == Seen(true, 0.0, 0, None, false, None)
  }

  lemma OneLotBracket(s: Signal, q: Quote)
    requires s == Signal(Buy, Some(10.0), Some(9.0), Some(12.0)) && q == Quote(10.0, 10.0, 10.0)
    ensures LevelsOf(s, q, ONE_LOT, 2.0) == Some(Levels(10.0, 9.0, 12.0))
  {
    assert Grid(ONE_LOT) == 1.0;
    assert Reference(s, q) == 10.0 && Risk(s, q) == 1.0 && Ratio(s, q, 2.0) == 2.0;
    assert RoundHalfEven(10.0) == 10 && Quantize(10.0, 1.0) == 10.0;
    assert RoundStep(9.0, 1.0, false) == 9.0 && Times(1.0, 2.0) == 2.0 && Ceil(12.0) == 12
      && RoundStep(12.0, 1.0, true) == 12.0;
    assert Anchored(s, q, 1.0, 2.0) == Levels(10.0, 9.0, 12.0);
  }

  // The gate is not a wall: a live account with an unspent authorization and one affordable lot passes,
  // with a bracket the scheduler anchors.
  lemma AnAffordableLotPasses(x: Inputs, seen: Seen)
    requires OneLotCase(x, seen)
    ensures GateOpen(x, seen, Some(false))
    ensures CarriesBracket(x, Quote(10.0, 10.0, 10.0), x.signal) && KeepsItsSteps(x)
  {
    OneLotBracket(x.signal, Quote(10.0, 10.0, 10.0));
    OneLotIsDerived(x);
    OneLotSteps(x);
    LotPasses(x, seen, DerivedOf(x));
  }

  lemma LotPasses(x: Inputs, seen: Seen, d: Derived)
    requires OneLotCase(x, seen)
    requires d == ONE_LOT_NUMBERS
    ensures MarketOpen(x) && OrderOpen(x, d) && StateOpen(x, seen, LimitsOf(x, seen), Some(false))
  {
    assert !Reached(DailyLoss, x, seen);
    assert LimitsOf(x, seen) == [];
  }

  // ------------------------------------------------------------------ latches over whole runs

  // What happens to the risk state: a write of the store, or a whole assessment.
  datatype Event = Write(call: Call) | Assessed(x: Inputs, fault: Fault, day: int, now: int)

  function After(rows: seq<RiskRow>, e: Event): seq<RiskRow> {
    match e
    case Write(c) => Applied(rows, c.op, c.day, c.now)
    case Assessed(x, fault, day, now) => RunOps(rows, Effects(x, SeenIn(rows, x, fault, day, now), fault), day, now)
  }

  function Play(rows: seq<RiskRow>, events: seq<Event>): seq<RiskRow> {
    if events == [] then rows else After(Play(rows, events[..|events| - 1]), events[|events| - 1])
  }

  function Calls(ops: seq<Op>, day: int, now: int): (r: seq<Call>)
    ensures |r| == |ops| && forall k :: 0 <= k < |ops| ==> r[k] == Call(ops[k], day, now)
  {
    seq(|ops|, k requires 0 <= k < |ops| => Call(ops[k], day, now))
  }

  lemma {:induction false} RunCalls(rows: seq<RiskRow>, ops: seq<Op>, day: int, now: int)
    ensures RunOps(rows, ops, day, now) == Run(rows, Calls(ops, day, now))
  {
    if ops != [] {
      var front := ops[..|ops| - 1];
      RunCalls(rows, front, day, now);
      assert Calls(ops, day, now)[..|ops| - 1] == Calls(front, day, now);
    }
  }

  // The writes of an event.
  function CallsOf(rows: seq<RiskRow>, e: Event): seq<Call> {
    match e
    case Write(c) => [c]
    case Assessed(x, fault, day, now) => Calls(Effects(x, SeenIn(rows, x, fault, day, now), fault), day, now)
  }

  lemma EventIsARun(rows: seq<RiskRow>, e: Event)
    ensures After(rows, e) == Run(rows, CallsOf(rows, e))
  {
    match e
    case Write(c) => assert [c][..0] == [];
    case Assessed(x, fault, day, now) => RunCalls(rows, Effects(x, SeenIn(rows, x, fault, day, now), fault), day, now);
  }

  predicate Latches(op: Op) {
    op != SetLock(false) && op != ClearKill
  }

  // No assessment ever releases a lock or clears a kill switch.
  lemma AssessmentsOnlyLatch(x: Inputs, seen: Seen, fault: Fault, k: nat)
    requires k < |Effects(x, seen, fault)|
    ensures Latches(Effects(x, seen, fault)[k])
  {
  }

  // Nobody clears the day by hand.
  predicate Uncleared(events: seq<Event>, day: int) {
    forall k :: 0 <= k < |events| ==> events[k].Write? ==> Latching(events[k].call, day)
  }

  lemma EventLatches(rows: seq<RiskRow>, e: Event, day: int)
    requires e.Write? ==> Latching(e.call, day)
    ensures NeverCleared(CallsOf(rows, e), day)
  {
    if e.Assessed? {
      var seen := SeenIn(rows, e.x, e.fault, e.day, e.now);
      forall k | 0 <= k < |CallsOf(rows, e)| ensures Latching(CallsOf(rows, e)[k], day) {
        AssessmentsOnlyLatch(e.x, seen, e.fault, k);
      }
    }
  }

  predicate Stopped(rows: seq<RiskRow>, day: int) {
    Has(rows, day) && (RowOf(rows, day, 0).emergencyLocked || RowOf(rows, day, 0).killSwitch.Some?)
  }

  lemma {:induction false} StoppedStays(rows: seq<RiskRow>, events: seq<Event>, day: int)
    requires OneRowPerDay(rows) && Stopped(rows, day) && Uncleared(events, day)
    ensures OneRowPerDay(Play(rows, events)) && Stopped(Play(rows, events), day)
  {
    if events != [] {
      var before, e := Play(rows, events[..|events| - 1]), events[|events| - 1];
      StoppedStays(rows, events[..|events| - 1], day);
      EventIsARun(before, e);
      EventLatches(before, e, day);
      OneRowPerDayRun(before, CallsOf(before, e));
      LatchHolds(before, CallsOf(before, e), day, 0);
    }
  }

  lemma StoppedIsRefused(rows: seq<RiskRow>, x: Inputs, fault: Fault, day: int, now: int, consumed: Option<bool>)
    requires Stopped(rows, day)
    ensures !GateOpen(x, SeenIn(rows, x, fault, day, now), consumed)
  {
    assert RowOf(rows, day, now) == RowOf(rows, day, 0);
  }

  // Once a day's lock or kill switch is persisted, no assessment of that day approves, whatever else
  // happens to the state (recovered P/L, other days, other assessments) short of an explicit clear.
  lemma StoppedDayNeverTrades(rows: seq<RiskRow>, events: seq<Event>, x: Inputs, fault: Fault, day: int, now: int,
      consumed: Option<bool>)
    requires OneRowPerDay(rows) && Stopped(rows, day) && Uncleared(events, day)
    ensures !GateOpen(x, SeenIn(Play(rows, events), x, fault, day, now), consumed)
  {
    StoppedStays(rows, events, day);
    StoppedIsRefused(Play(rows, events), x, fault, day, now, consumed);
  }

  lemma OneRowAfterOps(rows: seq<RiskRow>, ops: seq<Op>, day: int, now: int)
    requires OneRowPerDay(rows)
    ensures OneRowPerDay(RunOps(rows, ops, day, now))
  {
    RunCalls(rows, ops, day, now);
    OneRowPerDayRun(rows, Calls(ops, day, now));
  }

  lemma EndsInKill(rows: seq<RiskRow>, front: seq<Op>, reason: Reason, day: int, now: int)
    requires OneRowPerDay(rows)
    ensures Stopped(RunOps(rows, front + [SetKill(reason)], day, now), day)
      && OneRowPerDay(RunOps(rows, front + [SetKill(reason)], day, now))
  {
    RunOne(rows, front, SetKill(reason), day, now);
    OneRowAfterOps(rows, front, day, now);
    AppliedIsLocal(RunOps(rows, front, day, now), SetKill(reason), day, now);
  }

  lemma LimitEffects(x: Inputs, seen: Seen, fault: Fault) returns (front: seq<Op>, reason: Reason)
    requires !Raises(x) && LimitsOf(x, seen) != []
    ensures Effects(x, seen, fault) == front + [SetKill(reason)]
  {
    var limits := LimitsOf(x, seen);
    front := Reads(x, fault) + MismatchOps(x, seen) + if Drawdown in limits then [SetLock(true), SetKill(DrawdownStop)]
      else [];
    reason := KillAfter(limits, seen.kill).value;
  }

  // An assessment that finds a limit reached stops the day it was made on, unless it raised first.
  lemma ReachedLimitStopsTheDay(rows: seq<RiskRow>, x: Inputs, fault: Fault, day: int, now: int)
    requires OneRowPerDay(rows) && !Raises(x) && LimitsOf(x, SeenIn(rows, x, fault, day, now)) != []
    ensures Stopped(After(rows, Assessed(x, fault, day, now)), day)
      && OneRowPerDay(After(rows, Assessed(x, fault, day, now)))
  {
    var front, reason := LimitEffects(x, SeenIn(rows, x, fault, day, now), fault);
    EndsInKill(rows, front, reason, day, now);
  }

  // So a session that reached a limit is over for the day, even if its P/L recovers.
  lemma ReachedLimitEndsTheDay(rows: seq<RiskRow>, x: Inputs, fault: Fault, day: int, now: int, events: seq<Event>,
      next: Inputs, later: int, consumed: Option<bool>)
    requires OneRowPerDay(rows) && !Raises(x) && LimitsOf(x, SeenIn(rows, x, fault, day, now)) != []
      && Uncleared(events, day)
    ensures !GateOpen(next, SeenIn(Play(After(rows, Assessed(x, fault, day, now)), events), next, NoFault, day, later),
      consumed)
  {
    ReachedLimitStopsTheDay(rows, x, fault, day, now);
    StoppedDayNeverTrades(After(rows, Assessed(x, fault, day, now)), events, next, NoFault, day, later, consumed);
  }

  // ------------------------------------------------------------------ the drawdown lock

  predicate NoneLater(rows: seq<RiskRow>, day: int) {
    forall k :: 0 <= k < |rows| ==> rows[k].day <= day
  }

  lemma {:induction false} NoneLaterAfter(rows: seq<RiskRow>, ops: seq<Op>, day: int, now: int)
    requires OneRowPerDay(rows) && NoneLater(rows, day)
    ensures OneRowPerDay(RunOps(rows, ops, day, now)) && NoneLater(RunOps(rows, ops, day, now), day)
    ensures Has(rows, day) ==> Has(RunOps(rows, ops, day, now), day)
  {
    if ops != [] {
      var front, op := ops[..|ops| - 1], ops[|ops| - 1];
      NoneLaterAfter(rows, front, day, now);
      NoneLaterStep(RunOps(rows, front, day, now), op, day, now);
    }
  }

  lemma NoneLaterStep(rows: seq<RiskRow>, op: Op, day: int, now: int)
    requires OneRowPerDay(rows) && NoneLater(rows, day)
    ensures OneRowPerDay(Applied(rows, op, day, now)) && NoneLater(Applied(rows, op, day, now), day)
      && Has(Applied(rows, op, day, now), day)
  {
    AppliedIsLocal(rows, op, day, now);
  }

  lemma LockingTheLatest(rows: seq<RiskRow>, day: int, now: int)
    requires OneRowPerDay(rows) && NoneLater(rows, day)
    ensures LockedAtTheEnd(Applied(rows, SetLock(true), day, now))
      && RowOf(Applied(rows, SetLock(true), day, now), day, now).emergencyLocked
  {
    var after := Applied(rows, SetLock(true), day, now);
    NoneLaterStep(rows, SetLock(true), day, now);
    AppliedIsLocal(rows, SetLock(true), day, now);
    LatestIsTheGreatest(after, IndexOf(after, day));
  }

  predicate NeverUnlocked(events: seq<Event>) {
    forall k :: 0 <= k < |events| ==> events[k].Write? ==> events[k].call.op != SetLock(false)
  }

  lemma EventKeepsLock(rows: seq<RiskRow>, e: Event, day: int, now: int)
    requires OneRowPerDay(rows) && LockedAtTheEnd(rows) && RowOf(rows, day, now).emergencyLocked
      && (e.Write? ==> e.call.op != SetLock(false))
    ensures OneRowPerDay(After(rows, e)) && LockedAtTheEnd(After(rows, e))
      && RowOf(After(rows, e), day, now).emergencyLocked
  {
    EventIsARun(rows, e);
    OneRowPerDayRun(rows, CallsOf(rows, e));
    if e.Assessed? {
      var seen := SeenIn(rows, e.x, e.fault, e.day, e.now);
      forall k | 0 <= k < |CallsOf(rows, e)| ensures CallsOf(rows, e)[k].op != SetLock(false) {
        AssessmentsOnlyLatch(e.x, seen, e.fault, k);
      }
    }
    LockKept(rows, CallsOf(rows, e), day, now);
  }

  lemma {:induction false} LockOutlives(rows: seq<RiskRow>, events: seq<Event>, day: int, now: int)
    requires OneRowPerDay(rows) && LockedAtTheEnd(rows) && RowOf(rows, day, now).emergencyLocked
      && NeverUnlocked(events)
    ensures OneRowPerDay(Play(rows, events)) && LockedAtTheEnd(Play(rows, events))
      && RowOf(Play(rows, events), day, now).emergencyLocked
  {
    if events != [] {
      LockOutlives(rows, events[..|events| - 1], day, now);
      EventKeepsLock(Play(rows, events[..|events| - 1]), events[|events| - 1], day, now);
    }
  }

  lemma LocksInside(rows: seq<RiskRow>, front: seq<Op>, tail: seq<Op>, day: int, now: int)
    requires OneRowPerDay(rows) && NoneLater(rows, day) && forall k :: 0 <= k < |tail| ==> tail[k] != SetLock(false)
    ensures var after := RunOps(rows, front + [SetLock(true)] + tail, day, now);
      OneRowPerDay(after) && NoneLater(after, day) && Has(after, day) && LockedAtTheEnd(after)
        && RowOf(after, day, now).emergencyLocked
  {
    var locked := RunOps(rows, front + [SetLock(true)], day, now);
    LocksLast(rows, front, day, now);
    RunConcat(rows, front + [SetLock(true)], tail, day, now);
    NoneLaterAfter(locked, tail, day, now);
    RunCalls(locked, tail, day, now);
    LockKept(locked, Calls(tail, day, now), day, now);
  }

  lemma LocksLast(rows: seq<RiskRow>, front: seq<Op>, day: int, now: int)
    requires OneRowPerDay(rows) && NoneLater(rows, day)
    ensures var after := RunOps(rows, front + [SetLock(true)], day, now);
      OneRowPerDay(after) && NoneLater(after, day) && Has(after, day) && LockedAtTheEnd(after)
        && RowOf(after, day, now).emergencyLocked
  {
    NoneLaterAfter(rows, front, day, now);
    RunOne(rows, front, SetLock(true), day, now);
    LockingTheLatest(RunOps(rows, front, day, now), day, now);
    NoneLaterStep(RunOps(rows, front, day, now), SetLock(true), day, now);
  }

  lemma DrawdownEffects(x: Inputs, seen: Seen, fault: Fault) returns (front: seq<Op>, tail: seq<Op>)
    requires !Raises(x) && Reached(Drawdown, x, seen)
    ensures Effects(x, seen, fault) == front + [SetLock(true)] + tail
    ensures forall k :: 0 <= k < |tail| ==> tail[k] != SetLock(false)
  {
    var limits := LimitsOf(x, seen);
    LimitsAreTheReached(x, seen, Drawdown);
    front := Reads(x, fault) + MismatchOps(x, seen);
    tail := [SetKill(DrawdownStop), SetKill(KillAfter(limits, seen.kill).value)];
    assert LimitOps(limits, seen.kill) == [SetLock(true)] + tail;
  }

  lemma DrawdownLocksTheLatest(rows: seq<RiskRow>, x: Inputs, fault: Fault, day: int, now: int)
    requires OneRowPerDay(rows) && NoneLater(rows, day) && !Raises(x)
      && Reached(Drawdown, x, SeenIn(rows, x, fault, day, now))
    ensures var after := After(rows, Assessed(x, fault, day, now));
      OneRowPerDay(after) && NoneLater(after, day) && Has(after, day) && LockedAtTheEnd(after)
        && RowOf(after, day, now).emergencyLocked
  {
    var front, tail := DrawdownEffects(x, SeenIn(rows, x, fault, day, now), fault);
    LocksInside(rows, front, tail, day, now);
  }

  lemma LockedIsRefused(rows: seq<RiskRow>, x: Inputs, day: int, now: int, consumed: Option<bool>)
    requires RowOf(rows, day, now).emergencyLocked
    ensures !GateOpen(x, SeenIn(rows, x, NoFault, day, now), consumed)
  {
  }

  lemma LockedFromThenOn(rows: seq<RiskRow>, day: int, now: int, later: int, moment: int)
    requires OneRowPerDay(rows) && NoneLater(rows, day) && Has(rows, day) && LockedAtTheEnd(rows)
      && RowOf(rows, day, now).emergencyLocked && later >= day
    ensures RowOf(rows, later, moment).emergencyLocked
  {
    if later > day { NewDayInherits(rows, later, moment); }
  }

  // A drawdown seen on the newest day locks that day and every day that begins after it: no
  // assessment of any of them approves until somebody unlocks.
  lemma DrawdownLocksEveryLaterDay(rows: seq<RiskRow>, x: Inputs, fault: Fault, day: int, now: int, events: seq<Event>,
      next: Inputs, later: int, moment: int, consumed: Option<bool>)
    requires OneRowPerDay(rows) && NoneLater(rows, day) && !Raises(x)
      && Reached(Drawdown, x, SeenIn(rows, x, fault, day, now))
    requires later >= day && NeverUnlocked(events)
    ensures !GateOpen(next,
      SeenIn(Play(After(rows, Assessed(x, fault, day, now)), events), next, NoFault, later, moment), consumed)
  {
    var after := After(rows, Assessed(x, fault, day, now));
    DrawdownLocksTheLatest(rows, x, fault, day, now);
    LockedFromThenOn(after, day, now, later, moment);
    LockOutlives(after, events, later, moment);
    LockedIsRefused(Play(after, events), next, later, moment, consumed);
  }

  // ------------------------------------------------------------------ why a day was stopped

  function Rank(limit: Limit): int {
    match limit
    case SessionLoss => 1
    case TradeCount => 2
    case DailyLoss => 3
    case Drawdown => 4
  }

  // The reached limits are reported once each, in one order.
  lemma LimitsInOrder(x: Inputs, seen: Seen)
    ensures forall i, j :: 0 <= i < j < |LimitsOf(x, seen)| ==>
      Rank(LimitsOf(x, seen)[i]) < Rank(LimitsOf(x, seen)[j])
  {
  }

  lemma DrawnIs(rows: seq<RiskRow>, day: int, now: int)
    requires OneRowPerDay(rows)
    ensures var drawn := Latched(rows, DrawdownStop, day, now);
      OneRowPerDay(drawn) && forall t :: RowOf(drawn, day, t).emergencyLocked
  {
    AppliedIsLocal(rows, SetLock(true), day, now);
    AppliedIsLocal(Applied(rows, SetLock(true), day, now), SetKill(DrawdownStop), day, now);
  }

  lemma KilledIs(rows: seq<RiskRow>, reason: Reason, day: int, now: int, t: int)
    requires OneRowPerDay(rows)
    ensures var after := Applied(rows, SetKill(reason), day, now);
      && RowOf(after, day, t).killSwitch == Some(reason)
      && RowOf(after, day, t).emergencyLocked == RowOf(rows, day, now).emergencyLocked
  {
    AppliedIsLocal(rows, SetKill(reason), day, now);
  }

  lemma KillIs(rows: seq<RiskRow>, limits: seq<Limit>, kill: Option<Reason>, day: int, now: int, t: int)
    requires OneRowPerDay(rows) && limits != []
    ensures var after := RunOps(rows, LimitOps(limits, kill), day, now);
      && RowOf(after, day, t).killSwitch == KillAfter(limits, kill)
      && (RowOf(after, day, t).emergencyLocked <==> RowOf(rows, day, now).emergencyLocked || Drawdown in limits)
  {
    LimitsRun(rows, limits, kill, day, now);
    if Drawdown in limits {
      DrawnIs(rows, day, now);
      KilledIs(Latched(rows, DrawdownStop, day, now), KillAfter(limits, kill).value, day, now, t);
    } else {
      KilledIs(rows, KillAfter(limits, kill).value, day, now, t);
    }
  }

  // The reason a stopped day gives afterwards: the one it was first stopped for; else the drawdown; else
  // all the limits that were reached, in their order. A drawdown locks the day as well.
  lemma ReasonOfTheStop(rows: seq<RiskRow>, x: Inputs, seen: Seen, fault: Fault, day: int, now: int, t: int)
    requires OneRowPerDay(rows) && seen == SeenIn(rows, x, fault, day, now) && LimitsOf(x, seen) != [] && !Raises(x)
      && !ForeignAccount(x)
    ensures var row, limits := RowOf(After(rows, Assessed(x, fault, day, now)), day, t), LimitsOf(x, seen);
      && row.killSwitch == Some(
        if seen.kill.Some? then seen.kill.value
        else if Reached(Drawdown, x, seen) then DrawdownStop
        else LimitsReached(limits))
      && (Reached(Drawdown, x, seen) ==> row.emergencyLocked)
  {
    LimitsAreTheReached(x, seen, Drawdown);
    EffectsRun(rows, x, seen, fault, day, now);
    var read := RunOps(rows, Reads(x, fault), day, now);
    ReadKeepsDays(rows, x, fault, day, now);
    KillIs(read, LimitsOf(x, seen), seen.kill, day, now, t);
  }

  lemma ReadKeepsDays(rows: seq<RiskRow>, x: Inputs, fault: Fault, day: int, now: int)
    requires OneRowPerDay(rows)
    ensures OneRowPerDay(RunOps(rows, Reads(x, fault), day, now))
  {
    ReadsRun(rows, x, fault, day, now);
    AppliedIsLocal(rows, Touch, day, now);
    assert Applied(rows, Touch, day, now) == Loaded(rows, day, now);
    if Truthy(x.facts.equity) { AppliedIsLocal(Loaded(rows, day, now), Observe(x.facts.equity.value), day, now); }
  }
}
