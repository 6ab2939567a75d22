/** app/risk/engine.py: the pre-trade gate over the persisted risk state. */
module RiskGate {
  import opened Records
  import opened Sizing
  import opened RiskState
  import opened Bracket

  const MONEY_EPSILON: real := 0.000000001
  const LOT_EPSILON: real := 0.000000001

  datatype Settings = Settings(
    maxLoss: real, maxLots: real, maxCapital: real, maxSessionLoss: real, maxDailyTrades: nat, maxOpen: int,
    maxPerSymbol: int,
    minScore: int, riskPct: real, maxRiskPct: real, minRatio: real, maxSpread: real, maxAge: real, minMarginLevel: real,
    maxExposurePct: real, maxDailyLossPct: real, maxDrawdownPct: real, livePermitted: bool)

  // `account` is None when the trade mode could not be read; `matched` is the login/server comparison.
  datatype Facts = Facts(
    spec: Option<SymbolSpec>, connected: bool, accountIsReal: Option<bool>, matched: bool, algoTrading: Option<bool>,
    age: Option<real>, momentum: Option<Side>, spread: Option<real>, openPositions: Option<int>,
    symbolPositions: Option<int>,
    exposure: Option<real>, marginLevel: Option<real>, duplicate: bool, emergencyLocked: bool, tradingEnabled: bool,
    freeMargin: Option<real>, equity: Option<real>, leverage: real)

  datatype Inputs = Inputs(settings: Settings, signal: Signal, score: int, facts: Facts)

  // What the gate read from the store; `readable` is risk_state_ok.
  datatype Seen = Seen(readable: bool, loss: real, trades: nat, peak: Option<real>, locked: bool, kill: Option<Reason>)

  // Where the store fails in one assessment, if it does.
  datatype Fault = NoFault | LoadFault | ObserveFault

  datatype Check =
    | Connected | AccountAuthorized | AccountMatches | AlgoTrading | FreshData | TrendSignal | Momentum | Spread
    | ValidStop | ValidTarget | RiskReward | PositionSizing | MarginWithinCapital | MarginLevel | TotalExposure
    | RiskStateAvailable | OneTradeAuthorized | LossLimits | SinglePosition | SymbolLimit | NoDuplicate | EmergencyClear

  datatype CheckResult = CheckResult(name: Check, ok: bool)

  // The numbers derived before the chain starts.
  datatype Derived = Derived(distance: Option<real>, perLot: Option<real>, volume: Option<real>, risk: Option<real>,
      margin: Option<real>, ratio: Option<real>)

  datatype Assessment = Assessment(approved: bool, checks: seq<CheckResult>, numbers: Derived, kill: Option<Reason>)

  // ------------------------------------------------------------------ derived numbers

  // Python truth of an optional number.
  predicate Truthy(x: Option<real>) {
    x.Some? && x.value != 0.0
  }

  function EntryOf(x: Inputs): Option<real> {
    if Truthy(x.signal.entry) then x.signal.entry else None
  }

  function OrZero(x: Option<real>): real {
    if x.Some? then x.value else 0.0
  }

  function DerivedOf(x: Inputs): Derived {
    if x.facts.spec.None? then Derived(None, None, None, None, None, None)
    else DerivedFrom(x.facts.spec.value, EntryOf(x), x.signal.stop, x.signal.target, x.settings.maxLoss,
      x.facts.leverage)
  }

  function DerivedFrom(spec: SymbolSpec, entry: Option<real>, stop: Option<real>, target: Option<real>, maxLoss: real,
      leverage: real): Derived {
    var bracketed := entry.Some? && Truthy(stop);
    var distance := if bracketed && spec.point > 0.0 then Some(Distance(entry.value, stop.value)) else None;
    var volume := SizeForLossBudget(maxLoss, OrZero(entry), OrZero(stop), spec);
    Derived(
      distance,
      if distance.Some? then RiskPerLot(entry.value, stop.value, spec) else None,
      volume,
      if volume.Some? && bracketed then PositionRisk(volume.value, entry.value, stop.value, spec) else None,
      if volume.Some? && entry.Some? then RequiredMargin(volume.value, spec, entry.value, leverage) else None,
      if Truthy(target) && entry.Some? && Truthy(distance) then
        Some(Distance(target.value, entry.value) / distance.value) else None)
  }

  // ------------------------------------------------------------------ limits and latches

  function Percent(part: real, whole: real): real
    requires whole != 0.0
  {
    part / whole * 100.0
  }

  predicate Reached(limit: Limit, x: Inputs, seen: Seen) {
    seen.readable &&
    match limit
    case SessionLoss => seen.loss >= x.settings.maxSessionLoss - MONEY_EPSILON && seen.loss > 0.0
    case TradeCount => seen.trades >= x.settings.maxDailyTrades
    case DailyLoss => Truthy(x.facts.equity) && seen.loss >= x.facts.equity.value * x.settings.maxDailyLossPct / 100.0
    case Drawdown => (
      Truthy(x.facts.equity) && seen.peak.Some? && seen.peak.value > 0.0 &&
      Percent(seen.peak.value - x.facts.equity.value, seen.peak.value) >= x.settings.maxDrawdownPct)
  }

  function Noted(limits: seq<Limit>, limit: Limit, reached: bool): seq<Limit> {
    if reached then limits + [limit] else limits
  }

  // The reached limits, in the order they are reported.
  function LimitsOf(x: Inputs, seen: Seen): seq<Limit> {
    Noted(Noted(Noted(Noted([], SessionLoss, Reached(SessionLoss, x, seen)), TradeCount, Reached(TradeCount, x, seen)),
          DailyLoss, Reached(DailyLoss, x, seen)), Drawdown, Reached(Drawdown, x, seen))
  }

  lemma LimitsAreTheReached(x: Inputs, seen: Seen, limit: Limit)
    ensures limit in LimitsOf(x, seen) <==> Reached(limit, x, seen)
  {
  }

  // An account that was read and is not the pinned one latches the emergency lock.
  predicate ForeignAccount(x: Inputs) {
    !x.facts.matched && x.facts.accountIsReal.Some?
  }

  // float(None): a side, no usable entry, and a stop or a target to compare with it.
  predicate Raises(x: Inputs) {
    x.signal.side != Hold && EntryOf(x).None? &&
    ((x.facts.spec.Some? && x.signal.stop.Some? && x.signal.stop.value > 0.0)
      || (x.signal.target.Some? && x.signal.target.value > 0.0))
  }

  // ------------------------------------------------------------------ the checks

  predicate StopPasses(x: Inputs) {
    x.facts.spec.Some? && x.signal.side != Hold && x.signal.stop.Some? && x.signal.stop.value > 0.0
      && EntryOf(x).Some? &&
    (if x.signal.side == Buy then x.signal.stop.value < EntryOf(x).value - PRICE_EPSILON
      else x.signal.stop.value > EntryOf(x).value + PRICE_EPSILON) &&
    Distance(EntryOf(x).value, x.signal.stop.value) >= MinStopDistance(x.facts.spec.value)
  }

  predicate TargetPasses(x: Inputs) {
    x.signal.target.Some? && x.signal.target.value > 0.0 &&
    (x.signal.side == Hold ||
     (EntryOf(x).Some? &&
      if x.signal.side == Buy then x.signal.target.value > EntryOf(x).value + PRICE_EPSILON
        else x.signal.target.value < EntryOf(x).value - PRICE_EPSILON))
  }

  predicate RatioPasses(x: Inputs, d: Derived) {
    d.ratio.Some? && d.ratio.value >= x.settings.minRatio - RATIO_EPSILON
  }

  predicate SizingPasses(x: Inputs, d: Derived) {
    d.distance.Some? && d.perLot.Some? && d.volume.Some? && d.volume.value <= x.settings.maxLots + LOT_EPSILON &&
    (d.risk.Some? ==> d.risk.value <= x.settings.maxLoss + MONEY_EPSILON)
  }

  predicate MarginPasses(x: Inputs, d: Derived) {
    d.volume.Some? && d.margin.Some? && d.margin.value <= x.settings.maxCapital + MONEY_EPSILON &&
    x.facts.freeMargin.Some? && d.margin.value <= x.facts.freeMargin.value + MONEY_EPSILON
  }

  predicate AccountPasses(x: Inputs) {
    x.facts.accountIsReal.Some? && (x.facts.accountIsReal.value ==> x.settings.livePermitted)
  }

  predicate AgePasses(x: Inputs) {
    x.facts.age.Some? && x.facts.age.value <= x.settings.maxAge
  }

  predicate TrendPasses(x: Inputs) {
    x.signal.side != Hold && x.score >= x.settings.minScore && x.settings.riskPct <= x.settings.maxRiskPct
  }

  predicate MomentumPasses(x: Inputs) {
    x.facts.momentum.Some? && (x.signal.side == Hold || x.facts.momentum.value in {Hold, x.signal.side})
  }

  predicate SpreadPasses(x: Inputs) {
    x.facts.spread.Some? && x.facts.spread.value <= x.settings.maxSpread
  }

  predicate LevelPasses(x: Inputs) {
    x.facts.marginLevel.Some? ==> x.facts.marginLevel.value >= x.settings.minMarginLevel
  }

  predicate ExposurePasses(x: Inputs) {
    x.facts.exposure.Some? ==>
      x.facts.equity.Some? && x.facts.equity.value > 0.0 && x.facts.exposure.value >= 0.0 &&
      Percent(x.facts.exposure.value, x.facts.equity.value) <= x.settings.maxExposurePct
  }

  // `consumed` is None when the one-trade authorization could not be read.
  predicate AuthorizationPasses(x: Inputs, consumed: Option<bool>) {
    x.settings.livePermitted ==> consumed == Some(false)
  }

  predicate PositionsPass(x: Inputs) {
    x.facts.openPositions.Some? && x.facts.openPositions.value < x.settings.maxOpen
  }

  predicate SymbolPasses(x: Inputs) {
    x.facts.symbolPositions.Some? && x.facts.symbolPositions.value < x.settings.maxPerSymbol
  }

  predicate ClearPasses(x: Inputs, seen: Seen, limits: seq<Limit>) {
    !x.facts.emergencyLocked && !seen.locked && !ForeignAccount(x) && seen.kill.None? && limits == []
      && x.facts.tradingEnabled
  }

  function MarketVerdicts(x: Inputs): seq<CheckResult> {
    [CheckResult(Connected, x.facts.connected), CheckResult(AccountAuthorized, AccountPasses(x)),
    CheckResult(AccountMatches, x.facts.matched),
     CheckResult(AlgoTrading, x.facts.algoTrading == Some(true)), CheckResult(FreshData, AgePasses(x)),
     CheckResult(TrendSignal, TrendPasses(x)),
     CheckResult(Momentum, MomentumPasses(x)), CheckResult(Spread, SpreadPasses(x))]
  }

  function OrderVerdicts(x: Inputs, d: Derived): seq<CheckResult> {
    [CheckResult(ValidStop, StopPasses(x)), CheckResult(ValidTarget, TargetPasses(x)),
    CheckResult(RiskReward, RatioPasses(x, d)),
     CheckResult(PositionSizing, SizingPasses(x, d)), CheckResult(MarginWithinCapital, MarginPasses(x, d)),
     CheckResult(MarginLevel, LevelPasses(x)),
     CheckResult(TotalExposure, ExposurePasses(x))]
  }

  function StateVerdicts(x: Inputs, seen: Seen, limits: seq<Limit>, consumed: Option<bool>): seq<CheckResult> {
    [CheckResult(RiskStateAvailable, seen.readable), CheckResult(OneTradeAuthorized, AuthorizationPasses(x, consumed)),
    CheckResult(LossLimits, limits == []),
     CheckResult(SinglePosition, PositionsPass(x)), CheckResult(SymbolLimit, SymbolPasses(x)),
     CheckResult(NoDuplicate, !x.facts.duplicate),
     CheckResult(EmergencyClear, ClearPasses(x, seen, limits))]
  }

  predicate MarketOpen(x: Inputs) {
    x.facts.connected && AccountPasses(x) && x.facts.matched && x.facts.algoTrading == Some(true) && AgePasses(x)
      && TrendPasses(x)
    && MomentumPasses(x) && SpreadPasses(x)
  }

  predicate OrderOpen(x: Inputs, d: Derived) {
    StopPasses(x) && TargetPasses(x) && RatioPasses(x, d) && SizingPasses(x, d) && MarginPasses(x, d) && LevelPasses(x)
      && ExposurePasses(x)
  }

  predicate StateOpen(x: Inputs, seen: Seen, limits: seq<Limit>, consumed: Option<bool>) {
    seen.readable && AuthorizationPasses(x, consumed) && limits == [] && PositionsPass(x) && SymbolPasses(x)
      && !x.facts.duplicate
    && ClearPasses(x, seen, limits)
  }

  predicate GateOpen(x: Inputs, seen: Seen, consumed: Option<bool>) {
    MarketOpen(x) && OrderOpen(x, DerivedOf(x)) && StateOpen(x, seen, LimitsOf(x, seen), consumed)
  }

  // ------------------------------------------------------------------ what one assessment persists

  function SeenOf(row: RiskRow, readable: bool): Seen {
    Seen(readable, Max(0.0, -row.realizedPnl), row.tradesOpened, row.peakEquity, row.emergencyLocked, row.killSwitch)
  }

  const UNREAD: Seen := Seen(false, 0.0, 0, None, false, None)

  // The gate reads the row before it records the equity.
  function SeenIn(rows: seq<RiskRow>, x: Inputs, fault: Fault, day: int, now: int): Seen {
    if fault == LoadFault then UNREAD
      else SeenOf(RowOf(rows, day, now), !(fault == ObserveFault && Truthy(x.facts.equity)))
  }

  // The kill switch in force once the limits have been judged.
  function KillAfter(limits: seq<Limit>, kill: Option<Reason>): Option<Reason> {
    if kill.Some? || limits == [] then kill else if Drawdown in limits then Some(DrawdownStop)
      else Some(LimitsReached(limits))
  }

  function Reads(x: Inputs, fault: Fault): seq<Op> {
    if fault == LoadFault then [] else if Truthy(x.facts.equity) && fault == NoFault then
      [Touch, Observe(x.facts.equity.value)] else [Touch]
  }

  function MismatchOps(x: Inputs, seen: Seen): seq<Op> {
    if ForeignAccount(x) && seen.readable then [SetLock(true), SetKill(AccountMismatch)] else []
  }

  function LimitOps(limits: seq<Limit>, kill: Option<Reason>): seq<Op> {
    (if Drawdown in limits then [SetLock(true), SetKill(DrawdownStop)] else [])
    + (if limits != [] then [SetKill(KillAfter(limits, kill).value)] else [])
  }

  // Lock and kill switch together.
  function Latched(rows: seq<RiskRow>, reason: Reason, day: int, now: int): seq<RiskRow> {
    Applied(Applied(rows, SetLock(true), day, now), SetKill(reason), day, now)
  }

  function Effects(x: Inputs, seen: Seen, fault: Fault): seq<Op> {
    Reads(x, fault) + MismatchOps(x, seen) + if Raises(x) then [] else LimitOps(LimitsOf(x, seen), seen.kill)
  }

  // The table after operations that all belong to one day.
  function RunOps(rows: seq<RiskRow>, ops: seq<Op>, day: int, now: int): seq<RiskRow> {
    if ops == [] then rows else Applied(RunOps(rows, ops[..|ops| - 1], day, now), ops[|ops| - 1], day, now)
  }

  lemma RunOne(rows: seq<RiskRow>, ops: seq<Op>, op: Op, day: int, now: int)
    ensures RunOps(rows, ops + [op], day, now) == Applied(RunOps(rows, ops, day, now), op, day, now)
  {
    assert (ops + [op])[..|ops|] == ops;
  }

  lemma {:induction false} RunConcat(rows: seq<RiskRow>, a: seq<Op>, b: seq<Op>, day: int, now: int)
    ensures RunOps(rows, a + b, day, now) == RunOps(RunOps(rows, a, day, now), b, day, now)
  {
    if b == [] {
      assert a + b == a;
    } else {
      var front, last := b[..|b| - 1], b[|b| - 1];
      assert a + b == (a + front) + [last];
      RunConcat(rows, a, front, day, now);
      RunOne(rows, a + front, last, day, now);
    }
  }

  lemma RunSingle(rows: seq<RiskRow>, op: Op, day: int, now: int)
    ensures RunOps(rows, [op], day, now) == Applied(rows, op, day, now)
  {
    RunOne(rows, [], op, day, now);
    assert [] + [op] == [op];
  }

  lemma RunPair(rows: seq<RiskRow>, op: Op, next: Op, day: int, now: int)
    ensures RunOps(rows, [op, next], day, now) == Applied(Applied(rows, op, day, now), next, day, now)
  {
    RunSingle(rows, op, day, now);
    RunOne(rows, [op], next, day, now);
    assert [op] + [next] == [op, next];
  }

  lemma ReadsRun(rows: seq<RiskRow>, x: Inputs, fault: Fault, day: int, now: int)
    ensures var after := RunOps(rows, Reads(x, fault), day, now);
      after == if fault == LoadFault then rows
               else if Truthy(x.facts.equity) && fault == NoFault then
                 Applied(Loaded(rows, day, now), Observe(x.facts.equity.value), day, now)
               else Loaded(rows, day, now)
  {
    if fault != LoadFault {
      RunOne(rows, [], Touch, day, now);
      assert [] + [Touch] == [Touch];
      assert Applied(rows, Touch, day, now) == Loaded(rows, day, now);
      if Truthy(x.facts.equity) && fault == NoFault {
        RunOne(rows, [Touch], Observe(x.facts.equity.value), day, now);
        assert [Touch] + [Observe(x.facts.equity.value)] == [Touch, Observe(x.facts.equity.value)];
      }
    }
  }

  // The table once the limits have been persisted.
  function AfterLimits(rows: seq<RiskRow>, limits: seq<Limit>, kill: Option<Reason>, day: int, now: int): seq<RiskRow> {
    var drawn := if Drawdown in limits then Latched(rows, DrawdownStop, day, now) else rows;
    if limits != [] then Applied(drawn, SetKill(KillAfter(limits, kill).value), day, now) else drawn
  }

  lemma LimitsRun(rows: seq<RiskRow>, limits: seq<Limit>, kill: Option<Reason>, day: int, now: int)
    ensures RunOps(rows, LimitOps(limits, kill), day, now) == AfterLimits(rows, limits, kill, day, now)
  {
    var first := if Drawdown in limits then [SetLock(true), SetKill(DrawdownStop)] else [];
    RunPair(rows, SetLock(true), SetKill(DrawdownStop), day, now);
    if limits != [] {
      RunOne(rows, first, SetKill(KillAfter(limits, kill).value), day, now);
      assert LimitOps(limits, kill) == first + [SetKill(KillAfter(limits, kill).value)];
    } else {
      assert LimitOps(limits, kill) == [];
    }
  }

  lemma ThreeStages(rows: seq<RiskRow>, a: seq<Op>, b: seq<Op>, c: seq<Op>, day: int, now: int)
    ensures RunOps(rows, a + b + c, day, now) == RunOps(RunOps(RunOps(rows, a, day, now), b, day, now), c, day, now)
  {
    RunConcat(rows, a + b, c, day, now);
    RunConcat(rows, a, b, day, now);
  }

  lemma MismatchRun(rows: seq<RiskRow>, x: Inputs, seen: Seen, day: int, now: int)
    ensures RunOps(rows, MismatchOps(x, seen), day, now) == if ForeignAccount(x) && seen.readable then
      Latched(rows, AccountMismatch, day, now) else rows
  {
    RunPair(rows, SetLock(true), SetKill(AccountMismatch), day, now);
  }

  // The effects of an assessment, one stage after the other.
  lemma EffectsRun(rows: seq<RiskRow>, x: Inputs, seen: Seen, fault: Fault, day: int, now: int)
    ensures RunOps(rows, Effects(x, seen, fault), day, now)
      == Persisted(RunOps(rows, Reads(x, fault), day, now), x, seen, LimitsOf(x, seen), day, now)
  {
    ThreeStages(rows, Reads(x, fault), MismatchOps(x, seen), if Raises(x) then []
      else LimitOps(LimitsOf(x, seen), seen.kill), day, now);
    MismatchRun(RunOps(rows, Reads(x, fault), day, now), x, seen, day, now);
  }

  function Persisted(rows: seq<RiskRow>, x: Inputs, seen: Seen, limits: seq<Limit>, day: int, now: int): seq<RiskRow> {
    var matched := if ForeignAccount(x) && seen.readable then Latched(rows, AccountMismatch, day, now) else rows;
    if Raises(x) then matched else RunOps(matched, LimitOps(limits, seen.kill), day, now)
  }

  // ------------------------------------------------------------------ the engine

  predicate AllOk(checks: seq<CheckResult>) {
    forall k :: 0 <= k < |checks| ==> checks[k].ok
  }

  lemma AllOkSplits(a: seq<CheckResult>, b: seq<CheckResult>)
    ensures AllOk(a + b) <==> AllOk(a) && AllOk(b)
  {
    if AllOk(a + b) {
      forall k | 0 <= k < |a| ensures a[k].ok { assert (a + b)[k] == a[k]; }
      forall k | 0 <= k < |b| ensures b[k].ok { assert (a + b)[|a| + k] == b[k]; }
    }
  }

  lemma MarketAll(x: Inputs)
    ensures AllOk(MarketVerdicts(x)) <==> MarketOpen(x)
  {
    var v := MarketVerdicts(x);
    assert AllOk(v) ==> v[0].ok && v[1].ok && v[2].ok && v[3].ok && v[4].ok && v[5].ok && v[6].ok && v[7].ok;
  }

  lemma OrderAll(x: Inputs, d: Derived)
    ensures AllOk(OrderVerdicts(x, d)) <==> OrderOpen(x, d)
  {
    var v := OrderVerdicts(x, d);
    assert AllOk(v) ==> v[0].ok && v[1].ok && v[2].ok && v[3].ok && v[4].ok && v[5].ok && v[6].ok;
  }

  lemma StateAll(x: Inputs, seen: Seen, limits: seq<Limit>, consumed: Option<bool>)
    ensures AllOk(StateVerdicts(x, seen, limits, consumed)) <==> StateOpen(x, seen, limits, consumed)
  {
    var v := StateVerdicts(x, seen, limits, consumed);
    assert AllOk(v) ==> v[0].ok && v[1].ok && v[2].ok && v[3].ok && v[4].ok && v[5].ok && v[6].ok;
  }

  class RiskEngine {
    const settings: Settings

    constructor (settings: Settings)
      ensures this.settings == settings
    {
      this.settings := settings;
    }

    // The persisted counters, read before this assessment's own equity is recorded.
    method ReadState(x: Inputs, store: RiskStateStore?, fault: Fault, day: int, now: int) returns (seen: Seen)
      modifies if store == null then {} else {store}
      ensures store == null ==> seen == UNREAD
      ensures store != null ==>
        && seen == SeenIn(old(store.rows), x, fault, day, now)
        && store.rows == RunOps(old(store.rows), Reads(x, fault), day, now)
        && store.authorization == old(store.authorization)
    {
      if store != null { ReadsRun(store.rows, x, fault, day, now); }
      if store == null || fault == LoadFault {
        return UNREAD;
      }
      var row := store.Load(day, now);
      seen := SeenOf(row, true);
      if Truthy(x.facts.equity) {
        if fault == ObserveFault {
          return seen.(readable := false);
        }
        store.ObserveEquity(x.facts.equity, day, now);
      }
    }

    // Checks 1 to 8.
    method MarketChecks(x: Inputs) returns (checks: seq<CheckResult>)
      ensures checks == MarketVerdicts(x)
    {
      var f, st := x.facts, x.settings;
      var authorized := true;
      if f.accountIsReal.None? {
        authorized := false;
      } else if f.accountIsReal.value && !st.livePermitted {
        authorized := false;
      }
      var recent := f.age.Some? && f.age.value <= st.maxAge;
      var trend := x.signal.side != Hold && !(x.score < st.minScore) && !(st.riskPct > st.maxRiskPct);
      var momentum := f.momentum.Some?
        && (x.signal.side == Hold || f.momentum.value == Hold || f.momentum.value == x.signal.side);
      var narrow := f.spread.Some? && f.spread.value <= st.maxSpread;
      checks := [
        CheckResult(Connected, f.connected), CheckResult(AccountAuthorized, authorized),
        CheckResult(AccountMatches, f.matched),
        CheckResult(AlgoTrading, f.algoTrading == Some(true)), CheckResult(FreshData, recent),
        CheckResult(TrendSignal, trend),
        CheckResult(Momentum, momentum), CheckResult(Spread, narrow)];
    }

    // Check 9, up to the comparison that raises.
    method StopCheck(x: Inputs) returns (ok: bool, raised: bool)
      ensures raised <==>
        x.signal.side != Hold && EntryOf(x).None? && x.facts.spec.Some? && x.signal.stop.Some?
        && x.signal.stop.value > 0.0
      ensures !raised ==> ok == StopPasses(x)
    {
      ok, raised := false, false;
      var spec, side, stop, entry := x.facts.spec, x.signal.side, x.signal.stop, EntryOf(x);
      if spec.None? || side == Hold || stop.None? || stop.value <= 0.0 {
        return;
      }
      if entry.None? {
        return false, true;
      }
      if side == Buy && stop.value >= entry.value - PRICE_EPSILON {
        return;
      }
      if side == Sell && stop.value <= entry.value + PRICE_EPSILON {
        return;
      }
      var minimum := MinStopDistance(spec.value);
      ok := !(minimum > 0.0 && Distance(entry.value, stop.value) < minimum);
    }

    // Check 10.
    method TargetCheck(x: Inputs) returns (ok: bool, raised: bool)
      ensures raised <==>
        x.signal.side != Hold && EntryOf(x).None? && x.signal.target.Some? && x.signal.target.value > 0.0
      ensures !raised ==> ok == TargetPasses(x)
    {
      ok, raised := false, false;
      var side, target, entry := x.signal.side, x.signal.target, EntryOf(x);
      if target.None? || target.value <= 0.0 {
        return;
      }
      if side == Hold {
        return true, false;
      }
      if entry.None? {
        return false, true;
      }
      if side == Buy && target.value <= entry.value + PRICE_EPSILON {
        return;
      }
      ok := !(side == Sell && target.value >= entry.value - PRICE_EPSILON);
    }

    // Check 12.
    method SizingCheck(x: Inputs, d: Derived) returns (ok: bool)
      ensures ok == SizingPasses(x, d)
    {
      if d.distance.None? || d.perLot.None? || d.volume.None? {
        return false;
      }
      if d.volume.value > x.settings.maxLots + LOT_EPSILON {
        return false;
      }
      ok := !(d.risk.Some? && d.risk.value > x.settings.maxLoss + MONEY_EPSILON);
    }

    // Check 13.
    method MarginCheck(x: Inputs, d: Derived) returns (ok: bool)
      ensures ok == MarginPasses(x, d)
    {
      if d.volume.None? || d.margin.None? || d.margin.value > x.settings.maxCapital + MONEY_EPSILON {
        return false;
      }
      ok := !(x.facts.freeMargin.None? || d.margin.value > x.facts.freeMargin.value + MONEY_EPSILON);
    }

    // Checks 9 to 15.
    method OrderChecks(x: Inputs, d: Derived, stopOk: bool, targetOk: bool) returns (checks: seq<CheckResult>)
      requires stopOk == StopPasses(x) && targetOk == TargetPasses(x)
      ensures checks == OrderVerdicts(x, d)
    {
      var f, st := x.facts, x.settings;
      var rewarding := d.ratio.Some? && d.ratio.value >= st.minRatio - RATIO_EPSILON;
      var sizingOk := SizingCheck(x, d);
      var marginOk := MarginCheck(x, d);
      var level := f.marginLevel.None? || f.marginLevel.value >= st.minMarginLevel;
      var exposed := true;
      if f.exposure.Some? {
        if f.equity.None? || f.equity.value <= 0.0 || f.exposure.value < 0.0 {
          exposed := false;
        } else {
          exposed := Percent(f.exposure.value, f.equity.value) <= st.maxExposurePct;
        }
      }
      checks := [
        CheckResult(ValidStop, stopOk), CheckResult(ValidTarget, targetOk), CheckResult(RiskReward, rewarding),
        CheckResult(PositionSizing, sizingOk), CheckResult(MarginWithinCapital, marginOk),
        CheckResult(MarginLevel, level),
        CheckResult(TotalExposure, exposed)];
    }

    // Checks 16 to 22.
    method StateChecks(x: Inputs, seen: Seen, limits: seq<Limit>, consumed: Option<bool>, clear: bool)
        returns (checks: seq<CheckResult>)
      requires clear == ClearPasses(x, seen, limits)
      ensures checks == StateVerdicts(x, seen, limits, consumed)
    {
      var f, st := x.facts, x.settings;
      var authorized := !(st.livePermitted && (consumed.None? || consumed.value));
      var single := f.openPositions.Some? && !(f.openPositions.value >= st.maxOpen);
      var symbol := f.symbolPositions.Some? && f.symbolPositions.value < st.maxPerSymbol;
      checks := [
        CheckResult(RiskStateAvailable, seen.readable), CheckResult(OneTradeAuthorized, authorized),
        CheckResult(LossLimits, limits == []),
        CheckResult(SinglePosition, single), CheckResult(SymbolLimit, symbol), CheckResult(NoDuplicate, !f.duplicate),
        CheckResult(EmergencyClear, clear)];
    }

    // Check 18: which limits are reached.
    method JudgeLimits(x: Inputs, seen: Seen) returns (limits: seq<Limit>)
      ensures limits == LimitsOf(x, seen) && forall limit :: limit in limits <==> Reached(limit, x, seen)
    {
      var st, equity, peak := x.settings, x.facts.equity, seen.peak;
      forall limit ensures limit in LimitsOf(x, seen) <==> Reached(limit, x, seen) {
        LimitsAreTheReached(x, seen, limit);
      }
      limits := [];
      if seen.readable && seen.loss >= x.settings.maxSessionLoss - MONEY_EPSILON && seen.loss > 0.0 {
        limits := limits + [SessionLoss];
      }
      if seen.readable && seen.trades >= x.settings.maxDailyTrades { limits := limits + [TradeCount]; }
      if seen.readable && Truthy(equity) && seen.loss >= equity.value * st.maxDailyLossPct / 100.0 {
        limits := limits + [DailyLoss];
      }
      if seen.readable && Truthy(peak) && Truthy(equity) && peak.value > 0.0
         && Percent(peak.value - equity.value, peak.value) >= st.maxDrawdownPct {
        limits := limits + [Drawdown];
      }
    }

    method Latch(store: RiskStateStore, reason: Reason, day: int, now: int)
      modifies store
      ensures store.rows == Latched(old(store.rows), reason, day, now)
        && store.authorization == old(store.authorization)
    {
      store.SetEmergencyLocked(true, day, now);
      store.SetKillSwitch(reason, day, now);
    }

    // Check 18: everything the reached limits persist, and the kill switch in force afterwards.
    method PersistLimits(limits: seq<Limit>, before: Option<Reason>, store: RiskStateStore, day: int, now: int)
        returns (kill: Option<Reason>)
      modifies store
      ensures kill == KillAfter(limits, before)
      ensures store.rows == RunOps(old(store.rows), LimitOps(limits, before), day, now)
        && store.authorization == old(store.authorization)
    {
      kill := before;
      ghost var rows := store.rows;
      if Drawdown in limits {
        Latch(store, DrawdownStop, day, now);
        if kill.None? { kill := Some(DrawdownStop); }
      }
      if limits != [] {
        if kill.None? { kill := Some(LimitsReached(limits)); }
        store.SetKillSwitch(kill.value, day, now);
      }
      assert store.rows == AfterLimits(rows, limits, before, day, now);
      LimitsRun(rows, limits, before, day, now);
    }

    // Checks 9 and 10 in order, up to the first comparison that raises.
    method BracketChecks(x: Inputs) returns (raised: bool, stopOk: bool, targetOk: bool)
      ensures raised <==> Raises(x)
      ensures !raised ==> stopOk == StopPasses(x) && targetOk == TargetPasses(x)
    {
      stopOk, raised := StopCheck(x);
      targetOk := false;
      if !raised {
        targetOk, raised := TargetCheck(x);
      }
    }

    // The authorization as the gate sees it; None is a store that is missing or failed.
    method ReadAuthorization(store: RiskStateStore?, fails: bool) returns (consumed: Option<bool>)
      modifies if store == null then {} else {store}
      ensures consumed == if store == null || fails then None else Some(old(store.authorization) == Row(true))
      ensures store != null ==> store.rows == old(store.rows)
      ensures store != null ==>
        store.authorization
        == (if fails || old(store.authorization) != Missing then old(store.authorization) else Row(false))
    {
      consumed := None;
      if store != null && !fails {
        var row := store.OneTradeAuthorization();
        consumed := Some(row.consumed);
      }
    }

    // The 22 results and the verdict.
    method Verdict(x: Inputs, d: Derived, seen: Seen, limits: seq<Limit>, consumed: Option<bool>, kill: Option<Reason>,
        stopOk: bool, targetOk: bool)
      returns (r: Assessment)
      requires stopOk == StopPasses(x) && targetOk == TargetPasses(x) && kill == KillAfter(limits, seen.kill)
      ensures r == Concluded(x, d, seen, limits, consumed)
    {
      var locked := x.facts.emergencyLocked || seen.locked || ForeignAccount(x) || Drawdown in limits;
      var market := MarketChecks(x);
      var order := OrderChecks(x, d, stopOk, targetOk);
      var state := StateChecks(x, seen, limits, consumed, !(locked || kill.Some? || !x.facts.tradingEnabled));
      var checks := market + order + state;
      Conclude(x, d, seen, limits, consumed);
      r := Assessment(AllOk(checks), checks, d, kill);
    }

    // None is the exception of a signal without a usable entry.
    method Assess(x: Inputs, store: RiskStateStore?, fault: Fault, authorizationFails: bool, day: int, now: int)
        returns (r: Option<Assessment>)
      requires x.settings == settings
      modifies if store == null then {} else {store}
      ensures r.None? <==> Raises(x)
      ensures var seen := if store == null then UNREAD else SeenIn(old(store.rows), x, fault, day, now);
        var consumed := if store == null || authorizationFails then None
          else Some(old(store.authorization) == Row(true));
        && (r.Some? ==> r.value == Concluded(x, DerivedOf(x), seen, LimitsOf(x, seen), consumed))
        && (store != null ==> store.rows == RunOps(old(store.rows), Effects(x, seen, fault), day, now))
      ensures store != null ==>
        store.authorization
        == (if Raises(x) || authorizationFails || old(store.authorization) != Missing then old(store.authorization)
        else Row(false))
    {
      ghost var rows := if store == null then [] else store.rows;
      var seen := ReadState(x, store, fault, day, now);
      if store != null { EffectsRun(rows, x, seen, fault, day, now); }
      var limits := JudgeLimits(x, seen);
      if ForeignAccount(x) && seen.readable {
        Latch(store, AccountMismatch, day, now);
      }
      var raised, stopOk, targetOk := BracketChecks(x);
      if raised {
        return None;
      }
      var consumed := ReadAuthorization(store, authorizationFails);
      var kill := seen.kill;
      if limits != [] {
        kill := PersistLimits(limits, seen.kill, store, day, now);
      }
      var verdict := Verdict(x, DerivedOf(x), seen, limits, consumed, kill, stopOk, targetOk);
      r := Some(verdict);
    }
  }

  function Concluded(x: Inputs, d: Derived, seen: Seen, limits: seq<Limit>, consumed: Option<bool>): Assessment {
    Assessment(MarketOpen(x) && OrderOpen(x, d) && StateOpen(x, seen, limits, consumed),
               MarketVerdicts(x) + OrderVerdicts(x, d) + StateVerdicts(x, seen, limits, consumed), d,
                 KillAfter(limits, seen.kill))
  }

  // The verdict is positive exactly when each of the 22 results is.
  lemma Conclude(x: Inputs, d: Derived, seen: Seen, limits: seq<Limit>, consumed: Option<bool>)
    ensures Concluded(x, d, seen, limits, consumed).approved <==> AllOk(Concluded(x, d, seen, limits, consumed).checks)
  {
    AllOkSplits(MarketVerdicts(x) + OrderVerdicts(x, d), StateVerdicts(x, seen, limits, consumed));
    AllOkSplits(MarketVerdicts(x), OrderVerdicts(x, d));
    MarketAll(x);
    OrderAll(x, d);
    StateAll(x, seen, limits, consumed);
  }
}
