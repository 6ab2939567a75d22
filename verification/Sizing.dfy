/** app/risk/sizing.py: every size is derived from a money budget and the stop distance. */
module Sizing {
  import opened Records

  datatype SymbolSpec = SymbolSpec(
    volumeMin: real, volumeMax: real, volumeStep: real, tickValue: real, tickSize: real, point: real,
    stopsLevel: int, freezeLevel: int, contractSize: real, marginPerLot: real, digits: nat)

  const STEP_EPSILON: real := 0.000000001
  const LOT_GRID: real := 0.00000001

  // Python's round() to a whole number: to the nearest, ties to even.
  function RoundHalfEven(x: real): (n: int)
    ensures Abs(x - n as real) <= 0.5
  {
    var low := x.Floor;
    var rest := x - low as real;
    if rest < 0.5 then low
    else if rest > 0.5 then low + 1
    else if low % 2 == 0 then low else low + 1
  }

  // _floor_steps: the floor, unless the quotient is within an epsilon of a whole number of steps.
  function FloorSteps(quotient: real): int {
    if quotient <= 0.0 then 0
    else if Abs(quotient - RoundHalfEven(quotient) as real) <= STEP_EPSILON then RoundHalfEven(quotient)
    else quotient.Floor
  }

  function Distance(entry: real, stop: real): real {
    Abs(entry - stop)
  }

  // Loss in account currency for one lot over the stop distance.
  function RiskPerLot(entry: real, stop: real, spec: SymbolSpec): (r: Option<real>)
    ensures r.Some? ==> r.value > 0.0
  {
    if entry <= 0.0 || stop <= 0.0 then None
    else
      var d := Distance(entry, stop);
      if d <= 0.0 then None
      else if spec.tickSize > 0.0 && spec.tickValue > 0.0 then
        (PositiveQuotient(d, spec.tickSize); PositiveProduct(d / spec.tickSize, spec.tickValue);
        Some(LossOf(d / spec.tickSize, spec.tickValue)))
      else if spec.contractSize > 0.0 then (PositiveProduct(d, spec.contractSize); Some(LossOf(d, spec.contractSize)))
      else None
  }

  lemma PositiveProduct(x: real, y: real)
    requires x > 0.0 && y > 0.0
    ensures x * y > 0.0
  {
  }

  // round(lots, 8).
  function RoundLots(x: real): real {
    RoundHalfEven(x / LOT_GRID) as real * LOT_GRID
  }

  predicate Usable(spec: SymbolSpec) {
    spec.volumeMin > 0.0 && spec.volumeMax > 0.0 && spec.volumeStep > 0.0
  }

  function MaxSteps(spec: SymbolSpec): int
    requires Usable(spec)
  {
    FloorSteps(spec.volumeMax / spec.volumeStep)
  }

  function Lots(n: int, spec: SymbolSpec): real {
    n as real * spec.volumeStep
  }

  // The lots that normalization returns for n steps.
  function Rounded(n: int, spec: SymbolSpec): real {
    RoundLots(Lots(n, spec))
  }

  // min(steps, max_steps)
  function Steps(volume: real, spec: SymbolSpec): int
    requires Usable(spec)
  {
    var steps := FloorSteps(volume / spec.volumeStep);
    if steps <= MaxSteps(spec) then steps else MaxSteps(spec)
  }

  function NormalizeVolume(volume: real, spec: SymbolSpec): Option<real> {
    if volume <= 0.0 || !Usable(spec) then None
    else
      var steps := Steps(volume, spec);
      if steps <= 0 then None
      else
        var lots := Rounded(steps, spec);
        if lots >= spec.volumeMin then Some(lots) else None
  }

  function SizeForLossBudget(budget: real, entry: real, stop: real, spec: SymbolSpec): Option<real> {
    var perLot := RiskPerLot(entry, stop, spec);
    if budget <= 0.0 || perLot.None? then None else NormalizeVolume(budget / perLot.value, spec)
  }

  function LossOf(lots: real, perLot: real): real {
    lots * perLot
  }

  function PositionRisk(lots: real, entry: real, stop: real, spec: SymbolSpec): Option<real> {
    var perLot := RiskPerLot(entry, stop, spec);
    if perLot.None? || lots <= 0.0 then None else Some(LossOf(lots, perLot.value))
  }

  function MinimumVolumeRisk(entry: real, stop: real, spec: SymbolSpec): Option<real> {
    var perLot := RiskPerLot(entry, stop, spec);
    if perLot.None? || spec.volumeMin <= 0.0 then None else Some(LossOf(spec.volumeMin, perLot.value))
  }

  function RequiredMargin(lots: real, spec: SymbolSpec, price: real, leverage: real): Option<real> {
    if lots <= 0.0 || price <= 0.0 then None
    else if spec.marginPerLot > 0.0 then Some(lots * spec.marginPerLot)
    else if leverage > 0.0 && spec.contractSize > 0.0 then Some(lots * spec.contractSize * price / leverage)
    else None
  }

  // required is None or free is None: an unverifiable margin never passes.
  predicate MarginWithinFreeMargin(required: Option<real>, free: Option<real>, bufferPct: real) {
    required.Some? && free.Some? && required.value > 0.0 && free.value > 0.0
      && required.value <= free.value * (1.0 - Max(bufferPct, 0.0) / 100.0)
  }

  function MinStopDistance(spec: SymbolSpec): real {
    var levels := if spec.stopsLevel >= spec.freezeLevel then spec.stopsLevel else spec.freezeLevel;
    if spec.point > 0.0 && levels > 0 then levels as real * spec.point else 0.0
  }

  // position_size: the percentage budget and the free margin together.
  function PositionSize(equity: real, riskPct: real, entry: real, stop: real, spec: SymbolSpec, free: Option<real>,
      price: real, leverage: real): Option<real> {
    if equity <= 0.0 || riskPct <= 0.0 then None
    else
      var lots := SizeForLossBudget(equity * riskPct / 100.0, entry, stop, spec);
      if lots.None? then None
      else if free.Some? && !MarginWithinFreeMargin(RequiredMargin(lots.value, spec, price, leverage), free, 0.0) then
        None
      else lots
  }

  // ------------------------------------------------------------------ steps

  // The snapped floor: the greatest whole number not above the quotient by more than the epsilon.
  lemma FloorStepsIs(q: real, n: int)
    requires q > 0.0
    ensures FloorSteps(q) >= n <==> n as real <= q + STEP_EPSILON
  {
    var low, near := q.Floor, RoundHalfEven(q);
    assert low as real <= q < low as real + 1.0;
    assert near == low || near == low + 1;
    if near == low + 1 && Abs(q - near as real) <= STEP_EPSILON {
      assert near as real <= q + STEP_EPSILON < near as real + 1.0;
    } else {
      if near == low + 1 { assert near as real > q + STEP_EPSILON; }
      else { assert q - low as real <= 0.5; }
    }
  }

  lemma FloorStepsMonotone(q: real, r: real)
    requires q <= r
    ensures FloorSteps(q) <= FloorSteps(r)
  {
    if q > 0.0 {
      FloorStepsIs(q, FloorSteps(q));
      FloorStepsIs(r, FloorSteps(q));
    } else if r > 0.0 {
      FloorStepsIs(r, 0);
    }
  }

  // ------------------------------------------------------------------ volumes

  // The broker's step is a whole number of 1e-8 lots, so rounding to eight decimals changes nothing.
  predicate OnGrid(spec: SymbolSpec) {
    spec.volumeStep / LOT_GRID == (spec.volumeStep / LOT_GRID).Floor as real
  }

  lemma RoundHalfEvenMonotone(x: real, y: real)
    requires x <= y
    ensures RoundHalfEven(x) <= RoundHalfEven(y)
  {
  }

  lemma LotsAreExact(n: int, spec: SymbolSpec)
    requires OnGrid(spec)
    ensures RoundLots(Lots(n, spec)) == Lots(n, spec)
  {
    var k := (spec.volumeStep / LOT_GRID).Floor;
    assert spec.volumeStep == k as real * LOT_GRID;
    assert Lots(n, spec) / LOT_GRID == n as real * k as real == (n * k) as real;
    assert RoundHalfEven((n * k) as real) == n * k;
    assert RoundLots(Lots(n, spec)) == (n * k) as real * LOT_GRID;
  }

  // n steps of a volume fit the wish and the broker's maximum, up to the epsilon of one step.
  predicate Fits(n: int, volume: real, spec: SymbolSpec) {
    n > 0 && Within(n, volume, spec.volumeStep) && Within(n, spec.volumeMax, spec.volumeStep)
  }

  lemma QuotientSteps(n: real, x: real, step: real)
    requires step > 0.0
    ensures n <= x / step + STEP_EPSILON <==> n * step <= x + STEP_EPSILON * step
  {
    var q := x / step;
    assert q * step == x;
    assert (q + STEP_EPSILON) * step == x + STEP_EPSILON * step;
    Scaled(n, q + STEP_EPSILON, step);
  }

  lemma Scaled(a: real, b: real, factor: real)
    requires factor > 0.0
    ensures a <= b <==> a * factor <= b * factor
  {
    if a <= b { assert (b - a) * factor >= 0.0; } else { assert (a - b) * factor > 0.0; }
  }

  lemma PositiveQuotient(x: real, y: real)
    requires x > 0.0 && y > 0.0
    ensures x / y > 0.0
  {
  }

  // n steps amount to at most x, up to the epsilon of one step.
  predicate Within(n: int, x: real, step: real) {
    n as real * step <= x + STEP_EPSILON * step
  }

  lemma SnappedFloor(n: int, x: real, step: real)
    requires x > 0.0 && step > 0.0
    ensures n <= FloorSteps(x / step) <==> Within(n, x, step)
  {
    PositiveQuotient(x, step);
    FloorStepsIs(x / step, n);
    QuotientSteps(n as real, x, step);
  }

  lemma StepsAreTheMost(volume: real, spec: SymbolSpec, n: int)
    requires volume > 0.0 && Usable(spec) && n > 0
    ensures n <= Steps(volume, spec) <==> Fits(n, volume, spec)
  {
    SnappedFloor(n, volume, spec.volumeStep);
    SnappedFloor(n, spec.volumeMax, spec.volumeStep);
  }

  lemma FewerLots(m: int, n: int, spec: SymbolSpec)
    requires m <= n && spec.volumeStep > 0.0
    ensures Lots(m, spec) <= Lots(n, spec)
  {
    Scaled(m as real, n as real, spec.volumeStep);
  }

  lemma RoundedMonotone(m: int, n: int, spec: SymbolSpec)
    requires m <= n && spec.volumeStep > 0.0
    ensures Rounded(m, spec) <= Rounded(n, spec)
  {
    FewerLots(m, n, spec);
    RoundLotsMonotone(Lots(m, spec), Lots(n, spec));
  }

  // normalize_volume returns the largest step multiple that fits, rounded to eight decimals, or nothing
  // exactly when even that is below the broker's minimum.
  lemma NormalizedIsTheLargest(volume: real, spec: SymbolSpec)
    requires volume > 0.0 && Usable(spec)
    ensures var r := NormalizeVolume(volume, spec);
      && (r.Some? ==> exists n :: Fits(n, volume, spec) && r.value == Rounded(n, spec) && r.value >= spec.volumeMin
                                  && forall m :: Fits(m, volume, spec) ==> m <= n)
      && (r.None? <==> forall n :: Fits(n, volume, spec) ==> Rounded(n, spec) < spec.volumeMin)
  {
    var n := Steps(volume, spec);
    forall m | Fits(m, volume, spec) ensures m <= n && Rounded(m, spec) <= Rounded(n, spec) {
      StepsAreTheMost(volume, spec, m);
      RoundedMonotone(m, n, spec);
    }
    if n > 0 { StepsAreTheMost(volume, spec, n); }
  }

  lemma WholeSteps(n: int, spec: SymbolSpec)
    requires n > 0 && spec.volumeStep > 0.0
    ensures Lots(n, spec) > 0.0 && FloorSteps(Lots(n, spec) / spec.volumeStep) == n
  {
    PositiveProduct(n as real, spec.volumeStep);
    assert Lots(n, spec) / spec.volumeStep == n as real;
    assert RoundHalfEven(n as real) == n;
  }

  lemma NormalizedSteps(volume: real, spec: SymbolSpec)
    requires volume > 0.0 && Usable(spec) && OnGrid(spec) && Steps(volume, spec) > 0
    ensures NormalizeVolume(volume, spec) == if Lots(Steps(volume, spec), spec) >= spec.volumeMin then
      Some(Lots(Steps(volume, spec), spec)) else None
  {
    LotsAreExact(Steps(volume, spec), spec);
  }

  // A normalized volume is its own normalization, so the volume that was approved is the volume sent.
  lemma NormalizeIsIdempotent(volume: real, spec: SymbolSpec)
    requires OnGrid(spec) && NormalizeVolume(volume, spec).Some?
    ensures NormalizeVolume(NormalizeVolume(volume, spec).value, spec) == NormalizeVolume(volume, spec)
  {
    var n := Steps(volume, spec);
    var lots := Lots(n, spec);
    NormalizedSteps(volume, spec);
    WholeSteps(n, spec);
    assert Steps(lots, spec) == n;
    NormalizedSteps(lots, spec);
  }

  // Off that grid the rounding to eight decimals breaks it: a volume is approved and then refused.
  lemma OffGridIsNotIdempotent()
    ensures var spec := SymbolSpec(0.00000001, 1.0, 0.000000014, 1.0, 1.0, 1.0, 0, 0, 1.0, 0.0, 5);
      NormalizeVolume(0.000000014, spec) == Some(0.00000001) && NormalizeVolume(0.00000001, spec) == None
  {
    var spec := SymbolSpec(0.00000001, 1.0, 0.000000014, 1.0, 1.0, 1.0, 0, 0, 1.0, 0.0, 5);
    assert 0.000000014 / spec.volumeStep == 1.0;
    assert RoundHalfEven(1.0) == 1 && FloorSteps(1.0) == 1;
    var q := spec.volumeMax / spec.volumeStep;
    FloorStepsIs(q, 1);
    assert Lots(1, spec) / LOT_GRID == 1.4;
    assert RoundHalfEven(1.4) == 1;
    var r := 0.00000001 / spec.volumeStep;
    assert r * 7.0 == 5.0;
    assert RoundHalfEven(r) == 1 && FloorSteps(r) == 0;
  }

  lemma QuotientMonotone(x: real, y: real, step: real)
    requires step > 0.0 && x <= y
    ensures x / step <= y / step
  {
    Scaled(x / step, y / step, step);
    assert x / step * step == x && y / step * step == y;
  }

  lemma RoundLotsMonotone(x: real, y: real)
    requires x <= y
    ensures RoundLots(x) <= RoundLots(y)
  {
    QuotientMonotone(x, y, LOT_GRID);
    RoundHalfEvenMonotone(x / LOT_GRID, y / LOT_GRID);
    Scaled(RoundHalfEven(x / LOT_GRID) as real, RoundHalfEven(y / LOT_GRID) as real, LOT_GRID);
  }

  lemma NormalizeIsMonotone(v: real, w: real, spec: SymbolSpec)
    requires v <= w && NormalizeVolume(v, spec).Some?
    ensures NormalizeVolume(w, spec).Some? && NormalizeVolume(v, spec).value <= NormalizeVolume(w, spec).value
  {
    QuotientMonotone(v, w, spec.volumeStep);
    FloorStepsMonotone(v / spec.volumeStep, w / spec.volumeStep);
    FewerLots(Steps(v, spec), Steps(w, spec), spec);
    RoundLotsMonotone(Lots(Steps(v, spec), spec), Lots(Steps(w, spec), spec));
  }

  // ------------------------------------------------------------------ budgets

  // The budget carries the loss, up to the epsilon of one step.
  predicate Carries(loss: real, budget: real, perLot: real, spec: SymbolSpec) {
    loss <= budget + LossOf(STEP_EPSILON * spec.volumeStep, perLot)
  }

  // The budget carries the loss of n steps, and they fit the broker's maximum.
  predicate Affordable(n: int, budget: real, perLot: real, spec: SymbolSpec) {
    n > 0 && Carries(LossOf(Lots(n, spec), perLot), budget, perLot, spec) && Within(n, spec.volumeMax, spec.volumeStep)
  }

  lemma AffordableIsFits(n: int, budget: real, perLot: real, spec: SymbolSpec)
    requires perLot > 0.0
    ensures Affordable(n, budget, perLot, spec) <==> Fits(n, budget / perLot, spec)
  {
    var q, slack := budget / perLot, STEP_EPSILON * spec.volumeStep;
    assert LossOf(q, perLot) == budget;
    LossesAddUp(q, slack, perLot);
    Scaled(Lots(n, spec), q + slack, perLot);
  }

  // The sized volume is the largest step multiple the budget and the broker allow, rounded to eight
  // decimals; there is none exactly when every affordable multiple is below the broker's minimum.
  lemma SizeIsTheLargestAffordable(budget: real, entry: real, stop: real, spec: SymbolSpec)
    requires budget > 0.0 && Usable(spec) && RiskPerLot(entry, stop, spec).Some?
    ensures var r, perLot := SizeForLossBudget(budget, entry, stop, spec), RiskPerLot(entry, stop, spec).value;
      && (r.Some? ==> exists n ::
        Affordable(n, budget, perLot, spec) && r.value == Rounded(n, spec) && r.value >= spec.volumeMin
                                  && forall m :: Affordable(m, budget, perLot, spec) ==> m <= n)
      && (r.None? <==> forall n :: Affordable(n, budget, perLot, spec) ==> Rounded(n, spec) < spec.volumeMin)
  {
    var perLot := RiskPerLot(entry, stop, spec).value;
    PositiveQuotient(budget, perLot);
    NormalizedIsTheLargest(budget / perLot, spec);
    forall n ensures Affordable(n, budget, perLot, spec) <==> Fits(n, budget / perLot, spec) {
      AffordableIsFits(n, budget, perLot, spec);
    }
  }

  // The lots a size may exceed the exact quotient by: the epsilon of a step, and off the grid half of
  // the eighth decimal.
  function Excess(spec: SymbolSpec): real {
    STEP_EPSILON * spec.volumeStep + Grain(spec)
  }

  function Grain(spec: SymbolSpec): real {
    if OnGrid(spec) then 0.0 else LOT_GRID / 2.0
  }

  lemma RoundedExcess(n: int, spec: SymbolSpec)
    ensures Rounded(n, spec) <= Lots(n, spec) + Grain(spec)
  {
    if OnGrid(spec) {
      LotsAreExact(n, spec);
    } else {
      var q := Lots(n, spec) / LOT_GRID;
      assert q * LOT_GRID == Lots(n, spec);
      assert RoundHalfEven(q) as real <= q + 0.5;
    }
  }

  lemma LossesAddUp(a: real, b: real, perLot: real)
    ensures LossOf(a + b, perLot) == LossOf(a, perLot) + LossOf(b, perLot)
  {
  }

  lemma RoundedLoss(n: int, budget: real, perLot: real, spec: SymbolSpec)
    requires perLot > 0.0 && Affordable(n, budget, perLot, spec)
    ensures LossOf(Rounded(n, spec), perLot) <= budget + LossOf(Excess(spec), perLot)
  {
    RoundedExcess(n, spec);
    LossWithin(Rounded(n, spec), Lots(n, spec), Grain(spec), STEP_EPSILON * spec.volumeStep, budget, perLot);
  }

  lemma LossWithin(rounded: real, lots: real, grain: real, slack: real, budget: real, perLot: real)
    requires perLot > 0.0 && rounded <= lots + grain && LossOf(lots, perLot) <= budget + LossOf(slack, perLot)
    ensures LossOf(rounded, perLot) <= budget + LossOf(slack + grain, perLot)
  {
    ScaledUp(rounded, lots + grain, perLot);
    LossesAddUp(lots, grain, perLot);
    LossesAddUp(slack, grain, perLot);
  }

  // Its loss at the stop is within the budget, up to that excess.
  lemma SizedLossWithinBudget(budget: real, entry: real, stop: real, spec: SymbolSpec)
    requires SizeForLossBudget(budget, entry, stop, spec).Some?
    ensures var lots := SizeForLossBudget(budget, entry, stop, spec).value;
      lots > 0.0 && PositionRisk(lots, entry, stop, spec).Some?
      && PositionRisk(lots, entry, stop, spec).value
        <= budget + LossOf(Excess(spec), RiskPerLot(entry, stop, spec).value)
  {
    var lots, perLot := SizeForLossBudget(budget, entry, stop, spec).value, RiskPerLot(entry, stop, spec).value;
    SizeIsTheLargestAffordable(budget, entry, stop, spec);
    var n :| Affordable(n, budget, perLot, spec) && lots == Rounded(n, spec);
    RoundedLoss(n, budget, perLot, spec);
  }

  lemma SizeGrowsWithBudget(budget: real, more: real, entry: real, stop: real, spec: SymbolSpec)
    requires budget <= more && SizeForLossBudget(budget, entry, stop, spec).Some?
    ensures SizeForLossBudget(more, entry, stop, spec).Some?
    ensures SizeForLossBudget(budget, entry, stop, spec).value <= SizeForLossBudget(more, entry, stop, spec).value
  {
    var perLot := RiskPerLot(entry, stop, spec).value;
    QuotientMonotone(budget, more, perLot);
    NormalizeIsMonotone(budget / perLot, more / perLot, spec);
  }

  lemma QuotientAntitone(x: real, a: real, b: real)
    requires x > 0.0 && 0.0 < a <= b
    ensures x / b <= x / a
  {
    PositiveQuotient(x, b);
    Scaled(a, b, x / b);
    assert x / b * b == x && x / a * a == x;
    assert x / b * a <= x / a * a;
    Scaled(x / b, x / a, a);
  }

  lemma RiskGrowsWithDistance(entry: real, near: real, far: real, spec: SymbolSpec)
    requires RiskPerLot(entry, near, spec).Some? && far > 0.0 && Distance(entry, near) <= Distance(entry, far)
    ensures RiskPerLot(entry, far, spec).Some?
      && RiskPerLot(entry, near, spec).value <= RiskPerLot(entry, far, spec).value
  {
    var d, e := Distance(entry, near), Distance(entry, far);
    if spec.tickSize > 0.0 && spec.tickValue > 0.0 {
      TickedGrows(d, e, spec.tickSize, spec.tickValue);
    } else {
      ScaledUp(d, e, spec.contractSize);
    }
  }

  lemma ScaledUp(x: real, y: real, factor: real)
    requires x <= y && factor > 0.0
    ensures LossOf(x, factor) <= LossOf(y, factor)
  {
    Scaled(x, y, factor);
  }

  lemma TickedGrows(d: real, e: real, size: real, value: real)
    requires d <= e && size > 0.0 && value > 0.0
    ensures LossOf(d / size, value) <= LossOf(e / size, value)
  {
    QuotientMonotone(d, e, size);
    ScaledUp(d / size, e / size, value);
  }

  // A wider stop is never sized larger.
  lemma SizeShrinksWithDistance(budget: real, entry: real, near: real, far: real, spec: SymbolSpec)
    requires near > 0.0 && Distance(entry, near) <= Distance(entry, far) && Distance(entry, near) > 0.0
    requires SizeForLossBudget(budget, entry, far, spec).Some?
    ensures SizeForLossBudget(budget, entry, near, spec).Some?
    ensures SizeForLossBudget(budget, entry, far, spec).value <= SizeForLossBudget(budget, entry, near, spec).value
  {
    assert RiskPerLot(entry, near, spec).Some?;
    RiskGrowsWithDistance(entry, near, far, spec);
    var a, b := RiskPerLot(entry, near, spec).value, RiskPerLot(entry, far, spec).value;
    QuotientAntitone(budget, a, b);
    NormalizeIsMonotone(budget / b, budget / a, spec);
  }

  lemma FewerIsAffordable(k: int, n: int, budget: real, perLot: real, spec: SymbolSpec)
    requires 0 < k <= n && perLot > 0.0 && spec.volumeStep > 0.0 && Affordable(n, budget, perLot, spec)
    ensures Affordable(k, budget, perLot, spec)
  {
    FewerLots(k, n, spec);
    Scaled(Lots(k, spec), Lots(n, spec), perLot);
  }

  // The least number of steps whose lots reach the broker's minimum.
  predicate Least(k: int, spec: SymbolSpec) {
    k > 0 && Rounded(k, spec) >= spec.volumeMin && (k == 1 || Rounded(k - 1, spec) < spec.volumeMin)
  }

  lemma LeastIsLeast(k: int, n: int, spec: SymbolSpec)
    requires Least(k, spec) && n > 0 && spec.volumeStep > 0.0 && Rounded(n, spec) >= spec.volumeMin
    ensures k <= n
  {
    if n < k { RoundedMonotone(n, k - 1, spec); }
  }

  // The budget is never stretched for a minimum lot: a trade is sized exactly when the least number of
  // steps that reaches the broker's minimum is affordable.
  lemma SizedIffLeastIsAffordable(budget: real, entry: real, stop: real, spec: SymbolSpec, k: int, perLot: real)
    requires budget > 0.0 && Usable(spec) && RiskPerLot(entry, stop, spec) == Some(perLot) && Least(k, spec)
    ensures SizeForLossBudget(budget, entry, stop, spec).Some? <==> Affordable(k, budget, perLot, spec)
  {
    SizeIsTheLargestAffordable(budget, entry, stop, spec);
    if SizeForLossBudget(budget, entry, stop, spec).Some? {
      var n :| Affordable(n, budget, perLot, spec)
        && SizeForLossBudget(budget, entry, stop, spec).value == Rounded(n, spec);
      LeastIsLeast(k, n, spec);
      FewerIsAffordable(k, n, budget, perLot, spec);
    } else {
      assert Affordable(k, budget, perLot, spec) ==> Rounded(k, spec) < spec.volumeMin;
    }
  }

  lemma WholeMinimumIsLeast(k: int, spec: SymbolSpec)
    requires OnGrid(spec) && spec.volumeStep > 0.0 && k > 0 && spec.volumeMin == Lots(k, spec)
    ensures Least(k, spec)
  {
    LotsAreExact(k, spec);
    LotsAreExact(k - 1, spec);
    assert Lots(k, spec) == Lots(k - 1, spec) + spec.volumeStep;
  }

  lemma MinimumIsAffordable(k: int, budget: real, perLot: real, spec: SymbolSpec)
    requires k > 0 && spec.volumeMin == Lots(k, spec) && Within(k, spec.volumeMax, spec.volumeStep)
    ensures Affordable(k, budget, perLot, spec) <==> Carries(LossOf(spec.volumeMin, perLot), budget, perLot, spec)
  {
  }

  // On the grid, with a minimum of whole steps within the maximum: exactly when the budget carries the
  // loss of the minimum lot, up to the epsilon of one step.
  lemma SizedIffMinimumFits(budget: real, entry: real, stop: real, spec: SymbolSpec, k: int)
    requires budget > 0.0 && Usable(spec) && OnGrid(spec) && RiskPerLot(entry, stop, spec).Some?
    requires k > 0 && spec.volumeMin == Lots(k, spec) && Within(k, spec.volumeMax, spec.volumeStep)
    ensures SizeForLossBudget(budget, entry, stop, spec).Some? <==>
      Carries(MinimumVolumeRisk(entry, stop, spec).value, budget, RiskPerLot(entry, stop, spec).value, spec)
  {
    var perLot := RiskPerLot(entry, stop, spec).value;
    MinimumIsAffordable(k, budget, perLot, spec);
    WholeMinimumIsLeast(k, spec);
    SizedIffLeastIsAffordable(budget, entry, stop, spec, k, perLot);
  }

  // The percentage size respects its budget, and the free margin when one is given.
  lemma PositionSizeFitsBoth(equity: real, riskPct: real, entry: real, stop: real, spec: SymbolSpec,
      free: Option<real>, price: real, leverage: real)
    requires PositionSize(equity, riskPct, entry, stop, spec, free, price, leverage).Some?
    ensures var lots := PositionSize(equity, riskPct, entry, stop, spec, free, price, leverage).value;
      && PositionRisk(lots, entry, stop, spec).Some?
      && PositionRisk(lots, entry, stop, spec).value
        <= equity * riskPct / 100.0 + LossOf(Excess(spec), RiskPerLot(entry, stop, spec).value)
      && (free.Some? ==>
        RequiredMargin(lots, spec, price, leverage).Some?
        && RequiredMargin(lots, spec, price, leverage).value <= free.value)
  {
    var lots := PositionSize(equity, riskPct, entry, stop, spec, free, price, leverage).value;
    SizedLossWithinBudget(equity * riskPct / 100.0, entry, stop, spec);
    if free.Some? { NoBuffer(RequiredMargin(lots, spec, price, leverage), free); }
  }

  lemma NoBuffer(margin: Option<real>, free: Option<real>)
    requires MarginWithinFreeMargin(margin, free, 0.0)
    ensures margin.value <= free.value
  {
    assert 1.0 - Max(0.0, 0.0) / 100.0 == 1.0;
  }

  // ------------------------------------------------------------------ what a lot costs

  lemma QuotientIs(x: real, y: real, q: real)
    requires y > 0.0
    ensures x / y == q <==> LossOf(q, y) == x
  {
    var z := x / y;
    assert z * y == x;
    Scaled(z, q, y);
    Scaled(q, z, y);
  }

  lemma TickedLoss(d: real, size: real, value: real, loss: real)
    requires size > 0.0
    ensures LossOf(d / size, value) == loss <==> LossOf(loss, size) == LossOf(d, value)
  {
    var q := d / size;
    assert q * size == d;
    assert LossOf(LossOf(q, value), size) == LossOf(d, value);
    Scaled(LossOf(q, value), loss, size);
    Scaled(loss, LossOf(q, value), size);
  }

  // The loss of one lot: with a tick size and a tick value, as many tick values as the stop is ticks away;
  // else the stop's distance for each unit of the contract; unknown with neither, or without two
  // different positive prices.
  lemma RiskPerLotIs(entry: real, stop: real, spec: SymbolSpec, perLot: real)
    ensures RiskPerLot(entry, stop, spec) == Some(perLot) <==>
      && entry > 0.0 && stop > 0.0 && entry != stop
      && (if spec.tickSize > 0.0 && spec.tickValue > 0.0
          then LossOf(perLot, spec.tickSize) == LossOf(Abs(entry - stop), spec.tickValue)
          else spec.contractSize > 0.0 && perLot == LossOf(Abs(entry - stop), spec.contractSize))
  {
    if spec.tickSize > 0.0 { TickedLoss(Abs(entry - stop), spec.tickSize, spec.tickValue, perLot); }
  }

  lemma NotionalMargin(lots: real, spec: SymbolSpec, price: real, leverage: real, notional: real)
    requires notional == lots * spec.contractSize * price && spec.marginPerLot <= 0.0 && lots > 0.0 && price > 0.0
    ensures RequiredMargin(lots, spec, price, leverage)
      == if leverage > 0.0 && spec.contractSize > 0.0 then Some(notional / leverage) else None
  {
  }

  lemma ListedMargin(lots: real, spec: SymbolSpec, price: real, leverage: real)
    requires spec.marginPerLot > 0.0 && lots > 0.0 && price > 0.0
    ensures RequiredMargin(lots, spec, price, leverage).Some?
      && RequiredMargin(lots, spec, price, leverage).value == LossOf(lots, spec.marginPerLot)
  {
  }

  // The margin of a position: the broker's figure for each lot, else its notional over the leverage;
  // unknown with neither, or without lots and a price.
  lemma RequiredMarginIs(lots: real, spec: SymbolSpec, price: real, leverage: real, notional: real, margin: real,
      r: Option<real>)
    requires notional == lots * spec.contractSize * price && r == RequiredMargin(lots, spec, price, leverage)
    ensures r == Some(margin) <==>
      && lots > 0.0 && price > 0.0
      && (if spec.marginPerLot > 0.0 then margin == LossOf(lots, spec.marginPerLot)
          else (leverage > 0.0 && spec.contractSize > 0.0 && LossOf(margin, leverage) == notional))
  {
    if lots <= 0.0 || price <= 0.0 {
      assert r.None?;
    } else if spec.marginPerLot > 0.0 {
      ListedMargin(lots, spec, price, leverage);
    } else {
      NotionalMargin(lots, spec, price, leverage, notional);
      if leverage > 0.0 { QuotientIs(notional, leverage, margin); }
    }
  }

  // A percentage size is given exactly when there is equity and a percentage, the budget can be sized, and
  // the margin of that size is known and within the free margin, where one is given.
  lemma PositionSizeIff(equity: real, riskPct: real, entry: real, stop: real, spec: SymbolSpec, free: Option<real>,
      price: real, leverage: real, lots: real)
    ensures PositionSize(equity, riskPct, entry, stop, spec, free, price, leverage) == Some(lots) <==>
      && equity > 0.0 && riskPct > 0.0
      && SizeForLossBudget(equity * riskPct / 100.0, entry, stop, spec) == Some(lots)
      && (free.None?
        || (var margin := RequiredMargin(lots, spec, price, leverage);
            margin.Some? && 0.0 < margin.value <= free.value))
  {
    if free.Some? { PlainMargin(RequiredMargin(lots, spec, price, leverage), free); }
  }

  // The margin fits exactly when it is known and within the free margin less the buffer; a negative buffer
  // counts as none.
  lemma BufferedMarginIff(margin: Option<real>, free: Option<real>, bufferPct: real)
    ensures MarginWithinFreeMargin(margin, free, bufferPct) <==>
      margin.Some? && free.Some? && margin.value > 0.0 && free.value > 0.0
        && margin.value * 100.0 <= LossOf(free.value, if bufferPct > 0.0 then 100.0 - bufferPct else 100.0)
  {
    if free.Some? { BufferedFree(free.value, Max(bufferPct, 0.0)); }
  }

  lemma BufferedFree(free: real, buffer: real)
    ensures free * (1.0 - buffer / 100.0) * 100.0 == LossOf(free, 100.0 - buffer)
  {
  }

  lemma PlainMargin(margin: Option<real>, free: Option<real>)
    requires free.Some?
    ensures MarginWithinFreeMargin(margin, free, 0.0) <==> margin.Some? && 0.0 < margin.value <= free.value
  {
    assert 1.0 - Max(0.0, 0.0) / 100.0 == 1.0;
  }
}
