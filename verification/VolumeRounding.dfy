/** When a normalized volume is its own normalization: the rounding to eight decimals against the
    broker's step. */
module VolumeRounding {
  import opened Records
  import opened Sizing

  // Rounding n steps to eight decimals takes off at most the epsilon of a step, or one step less
  // rounds to the same lots.
  predicate Kept(n: int, spec: SymbolSpec) {
    || Lots(n, spec) - Rounded(n, spec) <= STEP_EPSILON * spec.volumeStep
    || Rounded(n - 1, spec) == Rounded(n, spec)
  }

  // ------------------------------------------------------------------ rounding to eight decimals

  function Grains(k: int): real {
    k as real * LOT_GRID
  }

  lemma InGrains(x: real)
    ensures RoundLots(x) == Grains(RoundHalfEven(x / LOT_GRID)) && x / LOT_GRID * LOT_GRID == x
  {
  }

  lemma RoundLotsNear(x: real)
    ensures -LOT_GRID <= 2.0 * (x - RoundLots(x)) <= LOT_GRID
  {
    InGrains(x);
    var q := x / LOT_GRID;
    assert -0.5 <= q - RoundHalfEven(q) as real <= 0.5;
  }

  lemma RoundGrains(k: int, x: real)
    requires 2.0 * Abs(x - Grains(k)) < LOT_GRID
    ensures RoundLots(x) == Grains(k)
  {
    InGrains(x);
    var q := x / LOT_GRID;
    assert 2.0 * Abs(q - k as real) < 1.0;
    assert RoundHalfEven(q) == k;
  }

  // A number strictly within half a unit of a rounded one rounds to it.
  lemma RoundLotsSame(x: real, y: real)
    requires 2.0 * Abs(x - RoundLots(y)) < LOT_GRID
    ensures RoundLots(x) == RoundLots(y)
  {
    InGrains(y);
    RoundGrains(RoundHalfEven(y / LOT_GRID), x);
  }

  lemma NextLots(n: int, spec: SymbolSpec)
    ensures Lots(n + 1, spec) == Lots(n, spec) + spec.volumeStep
  {
  }

  // ------------------------------------------------------------------ one volume

  lemma AgainSteps(lots: real, n: int, spec: SymbolSpec)
    requires Usable(spec) && lots > 0.0 && n <= MaxSteps(spec)
    ensures n <= Steps(lots, spec) <==> Lots(n, spec) <= lots + STEP_EPSILON * spec.volumeStep
  {
    SnappedFloor(n, lots, spec.volumeStep);
  }

  lemma AgainCovers(lots: real, spec: SymbolSpec)
    requires Usable(spec) && lots > 0.0 && Steps(lots, spec) > 0
    ensures Lots(Steps(lots, spec), spec) <= lots + STEP_EPSILON * spec.volumeStep
  {
    SnappedFloor(Steps(lots, spec), lots, spec.volumeStep);
  }

  // The rounding took off little: the second time the same lots come out.
  lemma KeptStays(n: int, lots: real, spec: SymbolSpec)
    requires Usable(spec) && 0 < n <= MaxSteps(spec) && lots == Rounded(n, spec) && lots > 0.0
    requires Lots(n, spec) - lots <= STEP_EPSILON * spec.volumeStep
    ensures Rounded(Steps(lots, spec), spec) == lots
  {
    var m, step := Steps(lots, spec), spec.volumeStep;
    AgainSteps(lots, n, spec);
    AgainCovers(lots, spec);
    RoundLotsNear(Lots(n, spec));
    if m > n {
      RoundedMonotone(n, m, spec);
      FewerLots(n + 1, m, spec);
      NextLots(n, spec);
      SmallStep(step);
      RoundLotsCeiling(Lots(m, spec), Lots(n, spec), step);
    }
  }

  lemma SmallStep(step: real)
    requires step > 0.0 && 2.0 * step <= LOT_GRID + 2.0 * STEP_EPSILON * step
    ensures 2.0 * STEP_EPSILON * step < LOT_GRID
  {
  }

  lemma RoundLotsCeiling(x: real, y: real, step: real)
    requires x <= RoundLots(y) + STEP_EPSILON * step && 2.0 * STEP_EPSILON * step < LOT_GRID && step > 0.0
    ensures RoundLots(x) <= RoundLots(y)
  {
    if x >= RoundLots(y) {
      RoundLotsSame(x, y);
    } else {
      RoundLotsMonotone(x, RoundLots(y));
      RoundLotsSame(RoundLots(y), y);
    }
  }

  // It took off more, but one step less rounds alike: still the same lots.
  lemma OneLessStays(n: int, lots: real, spec: SymbolSpec)
    requires Usable(spec) && 0 < n <= MaxSteps(spec) && lots == Rounded(n, spec) && lots > 0.0
    requires Lots(n, spec) - lots > STEP_EPSILON * spec.volumeStep && Rounded(n - 1, spec) == lots
    ensures Rounded(Steps(lots, spec), spec) == lots
  {
    var m := Steps(lots, spec);
    AgainSteps(lots, n, spec);
    RoundedMonotone(m, n - 1, spec);
    if m < n - 1 {
      AgainSteps(lots, m + 1, spec);
      AgainSteps(lots, n - 1, spec);
      NextLots(m, spec);
      NextLots(n - 1, spec);
      RoundLotsNear(Lots(n, spec));
      RoundLotsFloor(Lots(m, spec), Lots(n, spec));
    }
  }

  lemma RoundLotsFloor(x: real, y: real)
    requires 2.0 * (RoundLots(y) - x) < LOT_GRID
    ensures RoundLots(x) >= RoundLots(y)
  {
    if x <= RoundLots(y) {
      RoundLotsSame(x, y);
    } else {
      RoundLotsMonotone(RoundLots(y), x);
      RoundLotsSame(RoundLots(y), y);
    }
  }

  lemma LostStays(n: int, lots: real, spec: SymbolSpec)
    requires Usable(spec) && 0 < n <= MaxSteps(spec) && lots == Rounded(n, spec) && lots > 0.0 && !Kept(n, spec)
    ensures Rounded(Steps(lots, spec), spec) < lots
  {
    AgainSteps(lots, n, spec);
    RoundedMonotone(Steps(lots, spec), n - 1, spec);
    RoundedMonotone(n - 1, n, spec);
  }

  lemma NoLots(m: int, spec: SymbolSpec)
    requires m <= 0 && spec.volumeStep > 0.0
    ensures Rounded(m, spec) <= 0.0
  {
    RoundedMonotone(m, 0, spec);
    assert Lots(0, spec) == 0.0 && 0.0 / LOT_GRID == 0.0;
    assert RoundHalfEven(0.0) == 0;
  }

  // A volume is its own normalization the second time exactly when its number of steps is kept.
  lemma NormalizedAgainIff(volume: real, spec: SymbolSpec)
    requires NormalizeVolume(volume, spec).Some?
    ensures NormalizeVolume(NormalizeVolume(volume, spec).value, spec) == NormalizeVolume(volume, spec) <==>
      Kept(Steps(volume, spec), spec)
  {
    var n, lots := Steps(volume, spec), NormalizeVolume(volume, spec).value;
    var m := Steps(lots, spec);
    assert lots == Rounded(n, spec);
    if m <= 0 { NoLots(m, spec); }
    if !Kept(n, spec) { LostStays(n, lots, spec); }
    else if Lots(n, spec) - lots <= STEP_EPSILON * spec.volumeStep { KeptStays(n, lots, spec); }
    else { OneLessStays(n, lots, spec); }
  }

  // ------------------------------------------------------------------ every volume

  // With these bounds, normalizing any volume twice is normalizing it once.
  ghost predicate Stable(spec: SymbolSpec) {
    forall volume :: NormalizeVolume(volume, spec).Some? ==>
      NormalizeVolume(NormalizeVolume(volume, spec).value, spec) == NormalizeVolume(volume, spec)
  }

  function Bounded(spec: SymbolSpec, minimum: real, maximum: real): SymbolSpec {
    spec.(volumeMin := minimum, volumeMax := maximum)
  }

  // The same for every minimum and maximum, in the order a symbol specification has them.
  ghost predicate StableStep(spec: SymbolSpec) {
    forall minimum, maximum :: minimum <= maximum ==> Stable(Bounded(spec, minimum, maximum))
  }

  ghost predicate AllKept(spec: SymbolSpec) {
    forall n :: n > 0 && Rounded(n, spec) > 0.0 ==> Kept(n, spec)
  }

  // Only the step decides what is kept.
  lemma KeptByStep(n: int, a: SymbolSpec, b: SymbolSpec)
    requires a.volumeStep == b.volumeStep
    ensures Lots(n, a) == Lots(n, b) && Rounded(n, a) == Rounded(n, b) && (Kept(n, a) <==> Kept(n, b))
  {
    assert Lots(n, a) == Lots(n, b) && Lots(n - 1, a) == Lots(n - 1, b);
  }

  lemma LostWitness(n: int, spec: SymbolSpec)
    requires spec.volumeStep > 0.0 && n > 0 && Rounded(n, spec) > 0.0 && !Kept(n, spec)
    ensures Rounded(n, spec) <= Lots(n, spec) && !Stable(Bounded(spec, Rounded(n, spec), Lots(n, spec)))
  {
    var bounded := Bounded(spec, Rounded(n, spec), Lots(n, spec));
    PositiveProduct(STEP_EPSILON, spec.volumeStep);
    WholeSteps(n, bounded);
    KeptByStep(n, spec, bounded);
    assert Steps(Lots(n, spec), bounded) == n;
    assert NormalizeVolume(Lots(n, spec), bounded) == Some(Rounded(n, spec));
    NormalizedAgainIff(Lots(n, spec), bounded);
  }

  lemma KeptIsStable(spec: SymbolSpec, minimum: real, maximum: real)
    requires spec.volumeStep > 0.0 && AllKept(spec)
    ensures Stable(Bounded(spec, minimum, maximum))
  {
    var bounded := Bounded(spec, minimum, maximum);
    forall volume | NormalizeVolume(volume, bounded).Some?
      ensures NormalizeVolume(NormalizeVolume(volume, bounded).value, bounded) == NormalizeVolume(volume, bounded)
    {
      StepsAreKept(volume, spec, bounded);
      NormalizedAgainIff(volume, bounded);
    }
  }

  lemma StepsAreKept(volume: real, spec: SymbolSpec, bounded: SymbolSpec)
    requires bounded.volumeStep == spec.volumeStep && AllKept(spec) && NormalizeVolume(volume, bounded).Some?
    ensures Kept(Steps(volume, bounded), bounded)
  {
    KeptByStep(Steps(volume, bounded), bounded, spec);
  }

  // A step is safe under every bound exactly when it keeps every number of steps.
  lemma StableStepIff(spec: SymbolSpec)
    requires spec.volumeStep > 0.0
    ensures StableStep(spec) <==> AllKept(spec)
  {
    if AllKept(spec) {
      forall minimum, maximum | minimum <= maximum ensures Stable(Bounded(spec, minimum, maximum)) {
        KeptIsStable(spec, minimum, maximum);
      }
    } else {
      var n :| n > 0 && Rounded(n, spec) > 0.0 && !Kept(n, spec);
      LostWitness(n, spec);
    }
  }

  // Steps of at most half of 1e-8 lots are always safe.
  lemma FineStepIsStable(spec: SymbolSpec)
    requires 0.0 < 2.0 * spec.volumeStep <= LOT_GRID
    ensures StableStep(spec)
  {
    forall n | n > 0 && Rounded(n, spec) > 0.0 ensures Kept(n, spec) {
      NextLots(n - 1, spec);
      RoundLotsNear(Lots(n, spec));
      PositiveProduct(STEP_EPSILON, spec.volumeStep);
      if Lots(n, spec) > Rounded(n, spec) { RoundLotsSame(Lots(n - 1, spec), Lots(n, spec)); }
    }
    StableStepIff(spec);
  }

  // Steps of five lots and more are always safe: the snap covers what rounding takes off.
  lemma CoarseStepIsStable(spec: SymbolSpec)
    requires spec.volumeStep >= 5.0
    ensures StableStep(spec)
  {
    forall n | n > 0 && Rounded(n, spec) > 0.0 ensures Kept(n, spec) { RoundLotsNear(Lots(n, spec)); }
    StableStepIff(spec);
  }

  // ------------------------------------------------------------------ the steps in between

  function By(n: int, f: real): real {
    Product(n as real, f)
  }

  // Some multiple of f lies in an interval of length f.
  lemma Reach(f: real, low: real) returns (n: int)
    requires f > 0.0 && low > 0.0
    ensures n > 0 && low <= By(n, f) < low + f
  {
    var q := low / f;
    PositiveQuotient(low, f);
    n := -((-q).Floor);
    assert q <= n as real < q + 1.0;
    Quotient(low, f);
    Between(q, n as real, f);
  }

  function Product(x: real, f: real): real {
    x * f
  }

  lemma Quotient(x: real, f: real)
    requires f > 0.0
    ensures Product(x / f, f) == x
  {
  }

  lemma Apart(q: real, x: real, d: real, f: real)
    requires d == q + 1.0 - x
    ensures Product(x, f) == Product(q, f) + f - d * f
  {
    assert x == q + 1.0 - d;
  }

  lemma Between(q: real, x: real, f: real)
    requires f > 0.0 && q <= x < q + 1.0
    ensures Product(q, f) <= Product(x, f) < Product(q, f) + f
  {
    Scaled(q, x, f);
    var d := q + 1.0 - x;
    PositiveProduct(d, f);
    Apart(q, x, d, f);
  }

  // n times r exceeds a whole number by at least an eighth, and rounding takes all of that off.
  predicate Drops(r: real, n: int) {
    n > 0 && By(n, r) - RoundHalfEven(By(n, r)) as real >= 0.125
  }

  lemma DropsBy(r: real, n: int, k: int)
    requires n > 0 && 0.125 <= By(n, r) - k as real < 0.5
    ensures Drops(r, n)
  {
    assert RoundHalfEven(By(n, r)) == k;
  }

  lemma Expanded(r: real, n: int, whole: int, f: real)
    requires r == whole as real + f
    ensures By(n, r) == (n * whole) as real + By(n, f)
  {
  }

  lemma SmallFraction(r: real, whole: int, f: real) returns (n: int)
    requires r == whole as real + f && 0.0 < f < 0.5
    ensures Drops(r, n)
  {
    if f >= 0.125 {
      n := 1;
      Expanded(r, 1, whole, f);
      DropsBy(r, 1, whole);
    } else {
      n := Reach(f, 0.125);
      Expanded(r, n, whole, f);
      DropsBy(r, n, n * whole);
    }
  }

  lemma HalfFraction(r: real, whole: int) returns (n: int)
    requires r == whole as real + 0.5
    ensures Drops(r, n)
  {
    n := if whole % 2 == 0 then 1 else 3;
    Expanded(r, n, whole, 0.5);
    EvenHalf(r, n, if whole % 2 == 0 then whole else 3 * whole + 1);
  }

  // A tie goes to the even number below.
  lemma EvenHalf(r: real, n: int, k: int)
    requires n > 0 && By(n, r) == k as real + 0.5 && k % 2 == 0
    ensures Drops(r, n)
  {
    assert RoundHalfEven(By(n, r)) == k;
  }

  lemma LargeFraction(r: real, whole: int, f: real) returns (n: int)
    requires r == whole as real + f && 0.5 < f < 1.0
    ensures Drops(r, n)
  {
    if 3.0 * f < 2.0 {
      var m := SmallFraction(2.0 * r, 2 * whole + 1, 2.0 * f - 1.0);
      n := 2 * m;
      Doubled(r, m);
    } else {
      n := NearlyWhole(r, whole, 1.0 - f);
    }
  }

  lemma Doubled(r: real, m: int)
    requires Drops(2.0 * r, m)
    ensures Drops(r, 2 * m)
  {
    assert By(m, 2.0 * r) == By(2 * m, r);
  }

  lemma NearlyWhole(r: real, whole: int, h: real) returns (n: int)
    requires r == (whole + 1) as real - h && 0.0 < 3.0 * h <= 1.0
    ensures Drops(r, n)
  {
    n := Reach(h, 0.54);
    Expanded(r, n, whole + 1, -h);
    Negated(n, h);
    DropsBy(r, n, n * (whole + 1) - 1);
  }

  lemma Negated(n: int, h: real)
    ensures By(n, -h) == -By(n, h)
  {
  }

  lemma SomeDrops(r: real) returns (n: int)
    requires r != r.Floor as real
    ensures Drops(r, n)
  {
    var whole, f := r.Floor, r - r.Floor as real;
    if f < 0.5 { n := SmallFraction(r, whole, f); }
    else if f == 0.5 { n := HalfFraction(r, whole); }
    else { n := LargeFraction(r, whole, f); }
  }

  lemma LotsInGrains(n: int, r: real, spec: SymbolSpec)
    requires r * LOT_GRID == spec.volumeStep
    ensures Lots(n, spec) / LOT_GRID == By(n, r)
  {
    assert n as real * r * LOT_GRID == n as real * (r * LOT_GRID);
  }

  lemma DropInLots(q: real, lots: real)
    requires lots / LOT_GRID == q && q - RoundHalfEven(q) as real >= 0.125
    ensures lots - RoundLots(lots) >= 0.125 * LOT_GRID
  {
    InGrains(lots);
    assert (q - RoundHalfEven(q) as real) * LOT_GRID == lots - RoundLots(lots);
    Scaled(0.125, q - RoundHalfEven(q) as real, LOT_GRID);
  }

  lemma LostByDrop(spec: SymbolSpec, n: int)
    requires LOT_GRID < spec.volumeStep < 1.25 && Drops(spec.volumeStep / LOT_GRID, n)
    ensures Rounded(n, spec) > 0.0 && !Kept(n, spec)
  {
    var r := spec.volumeStep / LOT_GRID;
    assert r * LOT_GRID == spec.volumeStep;
    LotsInGrains(n, r, spec);
    DropInLots(By(n, r), Lots(n, spec));
    NextLots(n - 1, spec);
    RoundLotsNear(Lots(n - 1, spec));
    RoundLotsNear(Lots(n, spec));
    FewerLots(1, n, spec);
  }

  // From 1e-8 lots up to 1.25 lots, where brokers' steps lie, a step is safe under every bound exactly
  // when it is a multiple of 1e-8 lots.
  lemma OrdinaryStepIff(spec: SymbolSpec)
    requires LOT_GRID <= spec.volumeStep < 1.25
    ensures StableStep(spec) <==> OnGrid(spec)
  {
    StableStepIff(spec);
    if OnGrid(spec) { GridIsKept(spec); } else { OffGridLoses(spec); }
  }

  lemma GridIsKept(spec: SymbolSpec)
    requires OnGrid(spec) && spec.volumeStep > 0.0
    ensures AllKept(spec)
  {
    PositiveProduct(STEP_EPSILON, spec.volumeStep);
    forall n | n > 0 && Rounded(n, spec) > 0.0 ensures Kept(n, spec) { LotsAreExact(n, spec); }
  }

  lemma OffGridLoses(spec: SymbolSpec)
    requires LOT_GRID <= spec.volumeStep < 1.25 && !OnGrid(spec)
    ensures !AllKept(spec)
  {
    assert LOT_GRID / LOT_GRID == 1.0;
    var n := SomeDrops(spec.volumeStep / LOT_GRID);
    LostByDrop(spec, n);
  }
}
