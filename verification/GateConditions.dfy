/** When the gate approves, and what each of its 22 results means, in terms of the facts, the settings,
    the day's row and the authorization. */
module GateConditions {
  import opened Records
  import opened Sizing
  import opened RiskState
  import opened Bracket
  import opened RiskGate

  // ------------------------------------------------------------------ checks 1 to 8

  predicate AccountMayTrade(f: Facts, st: Settings) {
    f.connected && f.matched && f.algoTrading == Some(true)
      && f.accountIsReal.Some? && (f.accountIsReal.value ==> st.livePermitted)
  }

  predicate MarketIsKnown(x: Inputs) {
    && x.facts.age.Some? && x.facts.age.value <= x.settings.maxAge
    && x.facts.spread.Some? && x.facts.spread.value <= x.settings.maxSpread
    && x.signal.side in {Buy, Sell} && x.settings.minScore <= x.score && x.settings.riskPct <= x.settings.maxRiskPct
    && (x.facts.momentum == Some(Hold) || x.facts.momentum == Some(x.signal.side))
  }

  // ------------------------------------------------------------------ checks 9 to 15

  // Entry and stop are given, for a symbol whose specification was read.
  predicate Bracketed(x: Inputs) {
    && x.facts.spec.Some? && x.signal.entry.Some? && x.signal.entry.value != 0.0
    && x.signal.stop.Some? && x.signal.stop.value != 0.0
  }

  // How far the price lies on the winning side of the entry.
  function Ahead(side: Side, entry: real, price: real): real {
    if side == Buy then price - entry else entry - price
  }

  // Check 9: a stop strictly on the losing side and outside both broker distances.
  predicate StopHolds(x: Inputs) {
    && Bracketed(x) && x.signal.side != Hold && x.signal.stop.value > 0.0
    && var spec, risk := x.facts.spec.value, -Ahead(x.signal.side, x.signal.entry.value, x.signal.stop.value);
      && risk > 0.000000000001
      && (spec.point > 0.0 ==>
        risk >= spec.stopsLevel as real * spec.point && risk >= spec.freezeLevel as real * spec.point)
  }

  // Check 10: a target strictly on the winning side; without a direction there is no wrong side.
  predicate TargetHolds(x: Inputs) {
    && x.signal.target.Some? && x.signal.target.value > 0.0
    && (x.signal.side == Hold
      || (x.signal.entry.Some? && x.signal.entry.value != 0.0
        && Ahead(x.signal.side, x.signal.entry.value, x.signal.target.value) > 0.000000000001))
  }

  // Check 11: the reward is at least the configured ratio of the risk.
  predicate RewardHolds(x: Inputs) {
    && Bracketed(x) && x.facts.spec.value.point > 0.0 && x.signal.entry != x.signal.stop
    && x.signal.target.Some? && x.signal.target.value != 0.0
    && Abs(x.signal.target.value - x.signal.entry.value)
      >= (x.settings.minRatio - 0.000000001) * Abs(x.signal.entry.value - x.signal.stop.value)
  }

  // The volume the loss budget is sized to.
  function VolumeOf(x: Inputs): Option<real>
    requires Bracketed(x)
  {
    SizeForLossBudget(x.settings.maxLoss, x.signal.entry.value, x.signal.stop.value, x.facts.spec.value)
  }

  // Check 12: it is within the lot cap, and its loss at the stop within the limit of one trade.
  predicate VolumeHolds(x: Inputs) {
    && Bracketed(x) && x.facts.spec.value.point > 0.0 && VolumeOf(x).Some?
    && var perLot := RiskPerLot(x.signal.entry.value, x.signal.stop.value, x.facts.spec.value);
      && perLot.Some? && VolumeOf(x).value <= x.settings.maxLots + 0.000000001
      && LossOf(VolumeOf(x).value, perLot.value) <= x.settings.maxLoss + 0.000000001
  }

  // Check 13: its margin is within the capital and the free margin.
  predicate MarginHolds(x: Inputs) {
    && Bracketed(x) && VolumeOf(x).Some?
    && var margin := RequiredMargin(VolumeOf(x).value, x.facts.spec.value, x.signal.entry.value, x.facts.leverage);
      && margin.Some? && margin.value <= x.settings.maxCapital + 0.000000001
      && x.facts.freeMargin.Some? && margin.value <= x.facts.freeMargin.value + 0.000000001
  }

  // Check 14.
  predicate LevelHolds(f: Facts, st: Settings) {
    f.marginLevel.None? || st.minMarginLevel <= f.marginLevel.value
  }

  // Check 15: the exposure in percent of the equity, without a division.
  predicate ExposureHolds(f: Facts, st: Settings) {
    f.exposure.None?
      || (f.equity.Some? && f.equity.value > 0.0 && f.exposure.value >= 0.0
        && f.exposure.value * 100.0 <= st.maxExposurePct * f.equity.value)
  }

  predicate OrderHolds(x: Inputs) {
    StopHolds(x) && TargetHolds(x) && RewardHolds(x) && VolumeHolds(x) && MarginHolds(x)
      && LevelHolds(x.facts, x.settings) && ExposureHolds(x.facts, x.settings)
  }

  // ------------------------------------------------------------------ checks 16 to 22

  // What the day lost stays under the session limit and under the daily percentage of the equity, and the
  // equity stays near the day's peak.
  predicate LossesFit(f: Facts, st: Settings, row: RiskRow) {
    && (row.realizedPnl >= 0.0 || -row.realizedPnl < st.maxSessionLoss - 0.000000001)
    && (f.equity.Some? && f.equity.value != 0.0 ==>
          && f.equity.value * st.maxDailyLossPct > 0.0
          && -row.realizedPnl * 100.0 < f.equity.value * st.maxDailyLossPct
          && (row.peakEquity.Some? && row.peakEquity.value > 0.0 ==>
            (row.peakEquity.value - f.equity.value) * 100.0 < st.maxDrawdownPct * row.peakEquity.value))
  }

  // No limit of the day is reached.
  predicate InLimits(x: Inputs, row: RiskRow) {
    LossesFit(x.facts, x.settings, row) && row.tradesOpened < x.settings.maxDailyTrades
  }

  predicate RoomLeft(f: Facts, st: Settings) {
    f.openPositions.Some? && f.openPositions.value < st.maxOpen
      && f.symbolPositions.Some? && f.symbolPositions.value < st.maxPerSymbol && !f.duplicate
  }

  predicate NotStopped(f: Facts, row: RiskRow) {
    !f.emergencyLocked && !row.emergencyLocked && row.killSwitch.None? && f.tradingEnabled
  }

  predicate DayAllows(x: Inputs, row: RiskRow, consumed: Option<bool>) {
    (!x.settings.livePermitted || consumed == Some(false)) && InLimits(x, row) && RoomLeft(x.facts, x.settings)
      && NotStopped(x.facts, row)
  }

  // The row was read, and the equity, where there is one, was recorded.
  predicate StoreWorked(x: Inputs, fault: Fault) {
    fault == NoFault || (fault == ObserveFault && (x.facts.equity.None? || x.facts.equity.value == 0.0))
  }

  // ------------------------------------------------------------------ the conditions are the checks

  lemma ScaledQuotient(x: real, y: real, limit: real)
    requires y > 0.0
    ensures x / y >= limit <==> x >= limit * y
    ensures x / y * 100.0 <= limit <==> x * 100.0 <= limit * y
    ensures x / y * 100.0 >= limit <==> x * 100.0 >= limit * y
  {
    var q := x / y;
    assert q * y == x;
    Scaled(limit, q, y);
    Scaled(q * 100.0, limit, y);
    Scaled(limit, q * 100.0, y);
    assert q * 100.0 * y == x * 100.0;
  }

  lemma MinimumIsBoth(risk: real, spec: SymbolSpec)
    requires risk >= 0.0 && spec.point > 0.0
    ensures risk >= MinStopDistance(spec) <==>
      risk >= spec.stopsLevel as real * spec.point && risk >= spec.freezeLevel as real * spec.point
  {
    Scaled(spec.stopsLevel as real, spec.freezeLevel as real, spec.point);
    Scaled(spec.freezeLevel as real, spec.stopsLevel as real, spec.point);
    Scaled(spec.stopsLevel as real, 0.0, spec.point);
    Scaled(spec.freezeLevel as real, 0.0, spec.point);
  }

  lemma StopIff(x: Inputs)
    ensures StopPasses(x) <==> StopHolds(x)
  {
    if Bracketed(x) && x.facts.spec.value.point > 0.0 {
      MinimumIsBoth(Distance(x.signal.entry.value, x.signal.stop.value), x.facts.spec.value);
    }
  }

  lemma TargetIff(x: Inputs)
    ensures TargetPasses(x) <==> TargetHolds(x)
  {
  }

  lemma RewardIff(x: Inputs)
    ensures RatioPasses(x, DerivedOf(x)) <==> RewardHolds(x)
  {
    if Bracketed(x) && x.facts.spec.value.point > 0.0 && x.signal.entry != x.signal.stop && x.signal.target.Some?
      && x.signal.target.value != 0.0 {
      var entry, stop, target := x.signal.entry.value, x.signal.stop.value, x.signal.target.value;
      ScaledQuotient(Distance(target, entry), Distance(entry, stop), x.settings.minRatio - RATIO_EPSILON);
    }
  }

  // The numbers the sizing checks read, for a bracketed signal.
  lemma SizedNumbers(x: Inputs, d: Derived)
    requires Bracketed(x) && d == DerivedOf(x)
    ensures d.volume == VolumeOf(x) && (d.distance.Some? <==> x.facts.spec.value.point > 0.0)
    ensures d.distance.Some? ==>
      d.perLot == RiskPerLot(x.signal.entry.value, x.signal.stop.value, x.facts.spec.value)
    ensures d.volume.Some? ==>
      && d.risk == PositionRisk(d.volume.value, x.signal.entry.value, x.signal.stop.value, x.facts.spec.value)
      && d.margin == RequiredMargin(d.volume.value, x.facts.spec.value, x.signal.entry.value, x.facts.leverage)
  {
  }

  lemma UnsizedNumbers(x: Inputs)
    requires !Bracketed(x)
    ensures DerivedOf(x).distance.None? && (DerivedOf(x).volume.None? || DerivedOf(x).margin.None?)
  {
  }

  lemma LossOfVolume(x: Inputs, volume: real, entry: real, stop: real, spec: SymbolSpec)
    requires SizeForLossBudget(x.settings.maxLoss, entry, stop, spec) == Some(volume)
    ensures RiskPerLot(entry, stop, spec).Some?
      && PositionRisk(volume, entry, stop, spec) == Some(LossOf(volume, RiskPerLot(entry, stop, spec).value))
  {
    SizedLossWithinBudget(x.settings.maxLoss, entry, stop, spec);
  }

  lemma VolumeFrom(x: Inputs, d: Derived, volume: real, perLot: real)
    requires Bracketed(x) && d.volume == VolumeOf(x) == Some(volume)
      && (d.distance.Some? <==> x.facts.spec.value.point > 0.0) && (d.distance.Some? ==> d.perLot == Some(perLot))
    requires RiskPerLot(x.signal.entry.value, x.signal.stop.value, x.facts.spec.value) == Some(perLot)
    requires d.risk == Some(LossOf(volume, perLot))
    ensures SizingPasses(x, d) <==> VolumeHolds(x)
  {
  }

  lemma UnsizedFails(x: Inputs, d: Derived)
    requires d.distance.None? || d.volume.None?
    requires Bracketed(x) ==> d.volume == VolumeOf(x) && (d.distance.Some? <==> x.facts.spec.value.point > 0.0)
    ensures !SizingPasses(x, d) && !VolumeHolds(x)
  {
  }

  lemma VolumeIffFor(x: Inputs, d: Derived)
    requires Bracketed(x) && d.volume == VolumeOf(x) && (d.distance.Some? <==> x.facts.spec.value.point > 0.0)
    requires d.distance.Some? ==>
      d.perLot == RiskPerLot(x.signal.entry.value, x.signal.stop.value, x.facts.spec.value)
    requires d.volume.Some? ==>
      d.risk == PositionRisk(d.volume.value, x.signal.entry.value, x.signal.stop.value, x.facts.spec.value)
    ensures SizingPasses(x, d) <==> VolumeHolds(x)
  {
    var entry, stop, spec := x.signal.entry.value, x.signal.stop.value, x.facts.spec.value;
    if d.volume.Some? {
      LossOfVolume(x, d.volume.value, entry, stop, spec);
      VolumeFrom(x, d, d.volume.value, RiskPerLot(entry, stop, spec).value);
    } else {
      UnsizedFails(x, d);
    }
  }

  lemma VolumeIff(x: Inputs)
    ensures SizingPasses(x, DerivedOf(x)) <==> VolumeHolds(x)
  {
    if Bracketed(x) {
      SizedNumbers(x, DerivedOf(x));
      VolumeIffFor(x, DerivedOf(x));
    } else {
      UnsizedNumbers(x);
      UnsizedFails(x, DerivedOf(x));
    }
  }

  lemma MarginIff(x: Inputs)
    ensures MarginPasses(x, DerivedOf(x)) <==> MarginHolds(x)
  {
    if Bracketed(x) { SizedNumbers(x, DerivedOf(x)); } else { UnsizedNumbers(x); }
  }

  lemma ExposureIff(x: Inputs)
    ensures ExposurePasses(x) <==> ExposureHolds(x.facts, x.settings)
  {
    if x.facts.exposure.Some? && x.facts.equity.Some? && x.facts.equity.value > 0.0 {
      ScaledQuotient(x.facts.exposure.value, x.facts.equity.value, x.settings.maxExposurePct);
    }
  }

  lemma LossesIff(x: Inputs, row: RiskRow, seen: Seen)
    requires seen == SeenOf(row, true)
    ensures !Reached(SessionLoss, x, seen) && !Reached(DailyLoss, x, seen) && !Reached(Drawdown, x, seen) <==>
      LossesFit(x.facts, x.settings, row)
  {
    if row.peakEquity.Some? && row.peakEquity.value > 0.0 && x.facts.equity.Some? {
      var peak := row.peakEquity.value;
      ScaledQuotient(peak - x.facts.equity.value, peak, x.settings.maxDrawdownPct);
    }
  }

  lemma NoLimitIff(x: Inputs, row: RiskRow, seen: Seen)
    requires seen == SeenOf(row, true)
    ensures LimitsOf(x, seen) == [] <==> InLimits(x, row)
  {
    LossesIff(x, row, seen);
    LimitsAreTheReached(x, seen, SessionLoss);
    LimitsAreTheReached(x, seen, TradeCount);
    LimitsAreTheReached(x, seen, DailyLoss);
    LimitsAreTheReached(x, seen, Drawdown);
  }

  lemma MarketIff(x: Inputs)
    ensures MarketOpen(x) <==> AccountMayTrade(x.facts, x.settings) && MarketIsKnown(x)
  {
  }

  lemma OrderIff(x: Inputs)
    ensures OrderOpen(x, DerivedOf(x)) <==> OrderHolds(x)
  {
    StopIff(x);
    TargetIff(x);
    RewardIff(x);
    VolumeIff(x);
    MarginIff(x);
    ExposureIff(x);
  }

  lemma StateIff(x: Inputs, row: RiskRow, seen: Seen, limits: seq<Limit>, consumed: Option<bool>)
    requires seen == SeenOf(row, true) && x.facts.matched && (limits == [] <==> InLimits(x, row))
    ensures StateOpen(x, seen, limits, consumed) <==> DayAllows(x, row, consumed)
  {
  }

  // ------------------------------------------------------------------ main results

  // An assessment approves exactly when the account may trade, the market is known and calm, the order is
  // well shaped and affordable, the store worked, and the day's row and the authorization allow it.
  lemma ApprovedIff(rows: seq<RiskRow>, x: Inputs, fault: Fault, day: int, now: int, consumed: Option<bool>, seen: Seen)
    requires seen == SeenIn(rows, x, fault, day, now)
    ensures Concluded(x, DerivedOf(x), seen, LimitsOf(x, seen), consumed).approved <==>
      && AccountMayTrade(x.facts, x.settings) && MarketIsKnown(x) && OrderHolds(x)
      && StoreWorked(x, fault) && DayAllows(x, RowOf(rows, day, now), consumed)
  {
    var row := RowOf(rows, day, now);
    MarketIff(x);
    OrderIff(x);
    if StoreWorked(x, fault) {
      assert seen == SeenOf(row, true);
      NoLimitIff(x, row, seen);
      if x.facts.matched { StateIff(x, row, seen, LimitsOf(x, seen), consumed); }
    }
  }

  // Without a risk state nothing is approved.
  lemma NoStoreNoApproval(x: Inputs, consumed: Option<bool>)
    ensures !Concluded(x, DerivedOf(x), UNREAD, LimitsOf(x, UNREAD), consumed).approved
  {
  }

  // ------------------------------------------------------------------ each result by itself

  // The n-th result carries the name and is positive exactly when the condition holds.
  predicate Says(checks: seq<CheckResult>, n: nat, name: Check, condition: bool) {
    n < |checks| && checks[n].name == name && (checks[n].ok <==> condition)
  }

  lemma MarketResults(x: Inputs)
    ensures var checks, f, st := MarketVerdicts(x), x.facts, x.settings;
      && Says(checks, 0, Connected, f.connected)
      && Says(checks, 1, AccountAuthorized, f.accountIsReal.Some? && (f.accountIsReal.value ==> st.livePermitted))
      && Says(checks, 2, AccountMatches, f.matched)
      && Says(checks, 3, AlgoTrading, f.algoTrading == Some(true))
      && Says(checks, 4, FreshData, f.age.Some? && f.age.value <= st.maxAge)
      && Says(checks, 5, TrendSignal, x.signal.side in {Buy, Sell} && st.minScore <= x.score
        && st.riskPct <= st.maxRiskPct)
      && Says(checks, 6, Momentum, f.momentum.Some?
        && (x.signal.side == Hold || f.momentum == Some(Hold) || f.momentum == Some(x.signal.side)))
      && Says(checks, 7, Spread, f.spread.Some? && f.spread.value <= st.maxSpread)
  {
  }

  lemma OrderResults(x: Inputs, d: Derived)
    requires d == DerivedOf(x)
    ensures var checks, f, st := OrderVerdicts(x, d), x.facts, x.settings;
      && Says(checks, 0, ValidStop, StopHolds(x)) && Says(checks, 1, ValidTarget, TargetHolds(x))
      && Says(checks, 2, RiskReward, RewardHolds(x)) && Says(checks, 3, PositionSizing, VolumeHolds(x))
      && Says(checks, 4, MarginWithinCapital, MarginHolds(x)) && Says(checks, 5, MarginLevel, LevelHolds(f, st))
      && Says(checks, 6, TotalExposure, ExposureHolds(f, st))
  {
    StopIff(x);
    TargetIff(x);
    RewardIff(x);
    VolumeIff(x);
    MarginIff(x);
    ExposureIff(x);
  }

  // The results on the state, for the row that was read; an unreadable store reports no limit.
  lemma StateResults(x: Inputs, row: RiskRow, readable: bool, limits: seq<Limit>, consumed: Option<bool>)
    requires limits == LimitsOf(x, SeenOf(row, readable))
    ensures var checks, f, st := StateVerdicts(x, SeenOf(row, readable), limits, consumed), x.facts, x.settings;
      && Says(checks, 0, RiskStateAvailable, readable)
      && Says(checks, 1, OneTradeAuthorized, !st.livePermitted || consumed == Some(false))
      && Says(checks, 2, LossLimits, !readable || InLimits(x, row))
      && Says(checks, 3, SinglePosition, f.openPositions.Some? && f.openPositions.value < st.maxOpen)
      && Says(checks, 4, SymbolLimit, f.symbolPositions.Some? && f.symbolPositions.value < st.maxPerSymbol)
      && Says(checks, 5, NoDuplicate, !f.duplicate)
      && Says(checks, 6, EmergencyClear, NotStopped(f, row) && (!readable || InLimits(x, row))
        && (f.matched || f.accountIsReal.None?))
  {
    if readable { NoLimitIff(x, row, SeenOf(row, true)); }
  }

  // The 22 results are these three lists, in this order, and a single negative one refuses.
  lemma OneFailureRefuses(x: Inputs, d: Derived, seen: Seen, limits: seq<Limit>, consumed: Option<bool>)
    ensures var r := Concluded(x, d, seen, limits, consumed);
      && |r.checks| == 22 && r.checks[..8] == MarketVerdicts(x) && r.checks[8..15] == OrderVerdicts(x, d)
      && r.checks[15..] == StateVerdicts(x, seen, limits, consumed)
      && forall k :: 0 <= k < 22 && !r.checks[k].ok ==> !r.approved
  {
    Conclude(x, d, seen, limits, consumed);
  }
}
