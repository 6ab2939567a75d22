/** The bracket of an order: stop validation before the send, the re-anchored levels of the scheduler,
    and the prices of the request. */
module Bracket {
  import opened Records
  import opened Sizing

  datatype Side = Buy | Sell | Hold

  const PRICE_EPSILON: real := 0.000000000001
  const RATIO_EPSILON: real := 0.000000001

  // ------------------------------------------------------------------ validation

  // The rules of validate_stops, each with its own reason.
  datatype Rule = BadSide | BadEntry | BadStop | ZeroDistance | TooClose | WrongSideStop | BadTarget | WrongSideTarget
      | PoorRatio

  datatype Order = Order(side: Side, entry: Option<real>, stop: Option<real>, target: Option<real>)

  predicate Priced(o: Order) {
    o.side != Hold && o.entry.Some? && o.stop.Some? && o.entry.value > 0.0 && o.stop.value > 0.0
  }

  // When each rule is broken; the later ones are only reached with a side, an entry and a stop.
  predicate Broken(f: Rule, o: Order, spec: SymbolSpec, minRatio: Option<real>) {
    match f
    case BadSide => o.side == Hold
    case BadEntry => o.entry.None? || o.entry.value <= 0.0
    case BadStop => o.stop.None? || o.stop.value <= 0.0
    case ZeroDistance => Priced(o) && o.entry == o.stop
    case TooClose => Priced(o) && o.entry != o.stop && Distance(o.entry.value, o.stop.value) < MinStopDistance(spec)
    case WrongSideStop => Priced(o) && o.entry != o.stop &&
      (if o.side == Buy then o.stop.value >= o.entry.value - PRICE_EPSILON
        else o.stop.value <= o.entry.value + PRICE_EPSILON)
    case BadTarget => Priced(o) && o.target.Some? && o.target.value <= 0.0
    case WrongSideTarget => Priced(o) && o.target.Some? && o.target.value > 0.0 &&
      (if o.side == Buy then o.target.value <= o.entry.value + PRICE_EPSILON
        else o.target.value >= o.entry.value - PRICE_EPSILON)
    case PoorRatio => (
      Priced(o) && o.target.Some? && o.target.value > 0.0 && minRatio.Some? && o.entry != o.stop &&
      Distance(o.target.value, o.entry.value) / Distance(o.entry.value, o.stop.value) < minRatio.value - RATIO_EPSILON)
  }

  predicate StopsOk(o: Order, spec: SymbolSpec, minRatio: Option<real>) {
    forall f :: f in ALL_RULES ==> !Broken(f, o, spec, minRatio)
  }

  const ALL_RULES: set<Rule> :=
      {BadSide, BadEntry, BadStop, ZeroDistance, TooClose, WrongSideStop, BadTarget, WrongSideTarget, PoorRatio}

  // The reasons are exactly the broken rules.
  method ValidateStops(o: Order, spec: SymbolSpec, minRatio: Option<real>) returns (reasons: seq<Rule>)
    ensures forall f :: f in reasons <==> Broken(f, o, spec, minRatio)
    ensures reasons == [] <==> StopsOk(o, spec, minRatio)
  {
    reasons := [];
    if o.side == Hold { reasons := reasons + [BadSide]; }
    if o.entry.None? || o.entry.value <= 0.0 { reasons := reasons + [BadEntry]; }
    if o.stop.None? || o.stop.value <= 0.0 { reasons := reasons + [BadStop]; }
    if o.side == Hold || o.entry.None? || o.stop.None? || o.entry.value <= 0.0 || o.stop.value <= 0.0 {
      NoneInEmpty(reasons);
      return;
    }
    var onStop := StopReasons(o, spec);
    var onTarget := TargetReasons(o, minRatio);
    reasons := reasons + onStop + onTarget;
    NoneInEmpty(reasons);
  }

  method StopReasons(o: Order, spec: SymbolSpec) returns (reasons: seq<Rule>)
    requires Priced(o)
    ensures forall f :: f in reasons <==>
      (f == ZeroDistance || f == TooClose || f == WrongSideStop) && Broken(f, o, spec, None)
  {
    reasons := [];
    var entry, stop := o.entry.value, o.stop.value;
    var risk := Distance(entry, stop);
    if risk <= 0.0 {
      reasons := reasons + [ZeroDistance];
    } else {
      var minimum := MinStopDistance(spec);
      if minimum > 0.0 && risk < minimum { reasons := reasons + [TooClose]; }
      if o.side == Buy {
        if stop >= entry - PRICE_EPSILON { reasons := reasons + [WrongSideStop]; }
      } else if stop <= entry + PRICE_EPSILON { reasons := reasons + [WrongSideStop]; }
    }
  }

  method TargetReasons(o: Order, minRatio: Option<real>) returns (reasons: seq<Rule>)
    requires Priced(o)
    ensures forall f, spec :: f in reasons ==>
      (f == BadTarget || f == WrongSideTarget || f == PoorRatio) && Broken(f, o, spec, minRatio)
    ensures forall f, spec ::
      (f == BadTarget || f == WrongSideTarget || f == PoorRatio) && Broken(f, o, spec, minRatio) ==> f in reasons
  {
    reasons := [];
    var entry, risk := o.entry.value, Distance(o.entry.value, o.stop.value);
    if o.target.Some? {
      var target := o.target.value;
      if target <= 0.0 {
        reasons := reasons + [BadTarget];
      } else {
        if o.side == Buy {
          if target <= entry + PRICE_EPSILON { reasons := reasons + [WrongSideTarget]; }
        } else if target >= entry - PRICE_EPSILON { reasons := reasons + [WrongSideTarget]; }
        var reward := Distance(target, entry);
        if minRatio.Some? && risk > 0.0 && reward / risk < minRatio.value - RATIO_EPSILON {
          reasons := reasons + [PoorRatio];
        }
      }
    }
  }

  lemma EveryRule(f: Rule)
    ensures f in ALL_RULES
  {
    match f
    case BadSide => case BadEntry => case BadStop => case ZeroDistance => case TooClose =>
    case WrongSideStop => case BadTarget => case WrongSideTarget => case PoorRatio =>
  }

  lemma NoneInEmpty(reasons: seq<Rule>)
    ensures reasons == [] <==> forall f :: f in ALL_RULES ==> f !in reasons
  {
    if reasons != [] {
      EveryRule(reasons[0]);
      assert reasons[0] in reasons;
    }
  }

  // ------------------------------------------------------------------ levels

  function Pow10(n: nat): (r: real)
    ensures r >= 1.0
  {
    if n == 0 then 1.0 else 10.0 * Pow10(n - 1)
  }

  // 10 ** -digits
  function Grid(spec: SymbolSpec): (r: real)
    ensures r > 0.0
  {
    1.0 / Pow10(spec.digits)
  }

  function Units(n: int, tick: real): real {
    n as real * tick
  }

  predicate OnTick(x: real, tick: real)
    requires tick > 0.0
  {
    x == Units((x / tick).Floor, tick)
  }

  function Ceil(x: real): int {
    -((-x).Floor)
  }

  // Decimal.quantize, ties to even.
  function Quantize(x: real, tick: real): real
    requires tick > 0.0
  {
    Units(RoundHalfEven(x / tick), tick)
  }

  // _round_step: to the tick, in the given direction.
  function RoundStep(x: real, tick: real, up: bool): real
    requires tick > 0.0
  {
    Units(if up then Ceil(x / tick) else (x / tick).Floor, tick)
  }

  datatype Signal = Signal(side: Side, entry: Option<real>, stop: Option<real>, target: Option<real>)
  datatype Quote = Quote(bid: real, ask: real, mid: real)
  datatype Levels = Levels(entry: real, stop: real, target: real)

  // float(signal.entry) if signal.entry else tick.mid
  function Reference(s: Signal, q: Quote): real {
    if s.entry.Some? && s.entry.value != 0.0 then s.entry.value else q.mid
  }

  function Risk(s: Signal, q: Quote): real
    requires s.stop.Some?
  {
    Distance(Reference(s, q), s.stop.value)
  }

  // The reward/risk the bracket has to carry: the strategy's own, or the configured minimum.
  function Ratio(s: Signal, q: Quote, minRatio: real): real
    requires s.stop.Some? && Risk(s, q) > 0.0
  {
    if s.target.Some? then Distance(s.target.value, Reference(s, q)) / Risk(s, q) else minRatio
  }

  function Times(x: real, y: real): real {
    x * y
  }

  // _levels up to its validation: entry at the market, stop and target rounded away from it.
  function Anchored(s: Signal, q: Quote, tick: real, minRatio: real): Levels
    requires tick > 0.0 && s.stop.Some? && Risk(s, q) > 0.0
  {
    var buy := s.side == Buy;
    Placed(buy, Quantize(if buy then q.ask else q.bid, tick), Risk(s, q), Ratio(s, q, minRatio), tick)
  }

  function Placed(buy: bool, entry: real, risk: real, ratio: real, tick: real): Levels
    requires tick > 0.0
  {
    var stop := RoundStep(if buy then entry - risk else entry + risk, tick, !buy);
    var reward := Times(Distance(entry, stop), ratio);
    Levels(entry, stop, RoundStep(if buy then entry + reward else entry - reward, tick, buy))
  }

  function AsOrder(side: Side, l: Levels): Order {
    Order(side, Some(l.entry), Some(l.stop), Some(l.target))
  }

  // The preconditions _levels checks before it computes anything.
  predicate Anchorable(s: Signal, q: Quote, minRatio: real) {
    s.side != Hold && s.stop.Some? && Risk(s, q) > 0.0
      && (s.target.Some? ==> Ratio(s, q, minRatio) >= minRatio - RATIO_EPSILON)
  }

  function LevelsOf(s: Signal, q: Quote, spec: SymbolSpec, minRatio: real): Option<Levels> {
    if !Anchorable(s, q, minRatio) then None
    else
      var l := Anchored(s, q, Grid(spec), minRatio);
      if StopsOk(AsOrder(s.side, l), spec, Some(minRatio)) then Some(l) else None
  }

  // ------------------------------------------------------------------ whole ticks

  lemma UnitsOnTick(n: int, tick: real)
    requires tick > 0.0
    ensures Units(n, tick) / tick == n as real && OnTick(Units(n, tick), tick)
  {
  }

  lemma Shifted(e: int, x: real, tick: real)
    requires tick > 0.0
    ensures (Units(e, tick) + x) / tick == e as real + x / tick
  {
    assert (e as real + x / tick) * tick == Units(e, tick) + x;
  }

  lemma FloorShift(e: int, x: real)
    ensures (e as real - x).Floor == e - Ceil(x) && Ceil(e as real + x) == e + Ceil(x)
  {
  }

  // The ticks of the reward, for a stop d ticks away.
  function RewardTicks(d: int, ratio: real): int {
    Ceil(d as real * ratio)
  }

  // Rounding away from a whole-tick price moves it by the distance rounded up.
  lemma RoundAway(e: int, d: real, tick: real)
    requires tick > 0.0
    ensures RoundStep(Units(e, tick) - d, tick, false) == Units(e - Ceil(d / tick), tick)
    ensures RoundStep(Units(e, tick) + d, tick, true) == Units(e + Ceil(d / tick), tick)
  {
    Shifted(e, -d, tick);
    Shifted(e, d, tick);
    assert (-d) / tick == -(d / tick);
    FloorShift(e, d / tick);
  }

  lemma UnitsDistance(a: int, b: int, tick: real)
    requires tick > 0.0
    ensures Distance(Units(a, tick), Units(b, tick)) == Units(if a >= b then a - b else b - a, tick)
  {
    if a >= b { PositiveOrZero(a - b, tick); } else { PositiveOrZero(b - a, tick); }
  }

  lemma PositiveOrZero(n: int, tick: real)
    requires n >= 0 && tick > 0.0
    ensures Units(n, tick) >= 0.0
  {
  }

  lemma ProductOverTick(d: int, ratio: real, tick: real)
    requires tick > 0.0
    ensures Times(Units(d, tick), ratio) / tick == d as real * ratio
  {
    assert d as real * ratio * tick == Units(d, tick) * ratio;
  }

  lemma CeilPositive(risk: real, tick: real)
    requires tick > 0.0 && risk > 0.0
    ensures Ceil(risk / tick) > 0
  {
    PositiveQuotient(risk, tick);
  }

  lemma StopInTicks(buy: bool, e: int, entry: real, risk: real, tick: real)
    requires tick > 0.0 && entry == Units(e, tick)
    ensures var d := Ceil(risk / tick);
      RoundStep(if buy then entry - risk else entry + risk, tick, !buy) == Units(if buy then e - d else e + d, tick)
  {
    RoundAway(e, risk, tick);
  }

  lemma TargetInTicks(buy: bool, e: int, entry: real, d: int, distance: real, ratio: real, tick: real)
    requires tick > 0.0 && entry == Units(e, tick) && distance == Units(d, tick)
    ensures var reward, r := Times(distance, ratio), RewardTicks(d, ratio);
      RoundStep(if buy then entry + reward else entry - reward, tick, buy) == Units(if buy then e + r else e - r, tick)
  {
    ProductOverTick(d, ratio, tick);
    RoundAway(e, Times(distance, ratio), tick);
  }

  // Entry, stop and target are whole ticks: the stop D ticks away, the target R ticks on the other side.
  lemma PlacedInTicks(buy: bool, e: int, entry: real, risk: real, ratio: real, tick: real, d: int, r: int)
    requires tick > 0.0 && risk > 0.0 && entry == Units(e, tick) && d == Ceil(risk / tick) && r == RewardTicks(d, ratio)
    ensures d > 0
    ensures var l := Placed(buy, entry, risk, ratio, tick);
      l.entry == entry && l.stop == Units(if buy then e - d else e + d, tick)
        && l.target == Units(if buy then e + r else e - r, tick)
      && Distance(l.entry, l.stop) == Units(d, tick)
  {
    CeilPositive(risk, tick);
    StopInTicks(buy, e, entry, risk, tick);
    var stop := RoundStep(if buy then entry - risk else entry + risk, tick, !buy);
    UnitsDistance(e, if buy then e - d else e + d, tick);
    TargetInTicks(buy, e, entry, d, Distance(entry, stop), ratio, tick);
  }

  // ------------------------------------------------------------------ main results

  function Entry(s: Signal, q: Quote, tick: real): int
    requires tick > 0.0
  {
    RoundHalfEven((if s.side == Buy then q.ask else q.bid) / tick)
  }

  // Every bracket that is returned, in whole ticks of its grid.
  lemma LevelsInTicks(s: Signal, q: Quote, spec: SymbolSpec, minRatio: real, d: int, r: int)
    requires Anchorable(s, q, minRatio)
    requires var tick := Grid(spec); d == Ceil(Risk(s, q) / tick) && r == RewardTicks(d, Ratio(s, q, minRatio))
    ensures var tick := Grid(spec); var l, e, buy := Anchored(s, q, tick, minRatio), Entry(s, q, tick), s.side == Buy;
      && d > 0 && l.entry == Units(e, tick)
      && l.stop == Units(if buy then e - d else e + d, tick) && l.target == Units(if buy then e + r else e - r, tick)
      && Distance(l.entry, l.stop) == Units(d, tick)
  {
    var tick := Grid(spec);
    PlacedInTicks(s.side == Buy, Entry(s, q, tick), Units(Entry(s, q, tick), tick), Risk(s, q), Ratio(s, q, minRatio),
      tick, d, r);
  }

  lemma QuotientTimes(x: real, tick: real)
    requires tick > 0.0
    ensures Times(x / tick, tick) == x && Times(x / tick + 1.0, tick) == x + tick
  {
    assert x / tick * tick == x;
  }

  lemma UnitsAreTimes(n: int, tick: real)
    ensures Units(n, tick) == Times(n as real, tick)
  {
  }

  lemma StrictTimes(a: real, b: real, tick: real)
    requires tick > 0.0 && a < b
    ensures Times(a, tick) < Times(b, tick)
  {
    PositiveProduct(b - a, tick);
    assert (b - a) * tick == b * tick - a * tick;
  }

  lemma CeilBounds(x: real, tick: real)
    requires tick > 0.0
    ensures x <= Units(Ceil(x / tick), tick) < x + tick
  {
    var u := x / tick;
    var n := Ceil(u) as real;
    assert u <= n < u + 1.0;
    QuotientTimes(x, tick);
    UnitsAreTimes(Ceil(u), tick);
    StrictTimes(n, u + 1.0, tick);
    if u < n { StrictTimes(u, n, tick); }
  }

  // Between the sides: a bracket that passed validation has the stop on one side and the target on the other.
  lemma ValidSides(o: Order, spec: SymbolSpec, minRatio: real)
    requires StopsOk(o, spec, Some(minRatio)) && o.target.Some?
    ensures Priced(o) && o.target.value > 0.0
    ensures if o.side == Buy then o.stop.value < o.entry.value < o.target.value
      else o.target.value < o.entry.value < o.stop.value
  {
    assert !Broken(BadSide, o, spec, Some(minRatio)) && !Broken(BadEntry, o, spec, Some(minRatio))
      && !Broken(BadStop, o, spec, Some(minRatio));
    assert !Broken(ZeroDistance, o, spec, Some(minRatio)) && !Broken(WrongSideStop, o, spec, Some(minRatio));
    assert !Broken(BadTarget, o, spec, Some(minRatio)) && !Broken(WrongSideTarget, o, spec, Some(minRatio));
  }

  lemma LevelsOnTick(s: Signal, q: Quote, spec: SymbolSpec, minRatio: real)
    requires Anchorable(s, q, minRatio)
    ensures var tick := Grid(spec); var l := Anchored(s, q, tick, minRatio);
      OnTick(l.entry, tick) && OnTick(l.stop, tick) && OnTick(l.target, tick)
  {
    var tick := Grid(spec);
    var buy, e, d := s.side == Buy, Entry(s, q, tick), Ceil(Risk(s, q) / tick);
    var r := RewardTicks(d, Ratio(s, q, minRatio));
    LevelsInTicks(s, q, spec, minRatio, d, r);
    UnitsOnTick(e, tick);
    UnitsOnTick(if buy then e - d else e + d, tick);
    UnitsOnTick(if buy then e + r else e - r, tick);
  }

  // The geometry the strategy chose survives the re-anchoring: every price lies on the symbol's
  // grid, the stop is at least as far as the strategy's and less than a tick further, and the reward
  // is at least the carried ratio of that distance and less than a tick more.
  lemma LevelsKeepTheGeometry(s: Signal, q: Quote, spec: SymbolSpec, minRatio: real, l: Levels)
    requires LevelsOf(s, q, spec, minRatio) == Some(l)
    ensures var tick, distance := Grid(spec), Distance(l.entry, l.stop);
      && OnTick(l.entry, tick) && OnTick(l.stop, tick) && OnTick(l.target, tick)
      && Risk(s, q) <= distance < Risk(s, q) + tick
      && Times(distance, Ratio(s, q, minRatio))
        <= Distance(l.entry, l.target) < Times(distance, Ratio(s, q, minRatio)) + tick
      && (if s.side == Buy then l.stop < l.entry < l.target else l.target < l.entry < l.stop)
  {
    LevelsOnTick(s, q, spec, minRatio);
    ValidSides(AsOrder(s.side, l), spec, minRatio);
    GeometryInTicks(s, q, spec, minRatio, l);
  }

  lemma GeometryInTicks(s: Signal, q: Quote, spec: SymbolSpec, minRatio: real, l: Levels)
    requires Anchorable(s, q, minRatio) && l == Anchored(s, q, Grid(spec), minRatio)
    requires if s.side == Buy then l.entry < l.target else l.target < l.entry
    ensures var tick, distance := Grid(spec), Distance(l.entry, l.stop);
      && Risk(s, q) <= distance < Risk(s, q) + tick
      && Times(distance, Ratio(s, q, minRatio))
        <= Distance(l.entry, l.target) < Times(distance, Ratio(s, q, minRatio)) + tick
  {
    var tick, ratio := Grid(spec), Ratio(s, q, minRatio);
    var d := Ceil(Risk(s, q) / tick);
    var r := RewardTicks(d, ratio);
    LevelsInTicks(s, q, spec, minRatio, d, r);
    PlacedGeometry(s.side == Buy, Entry(s, q, tick), d, r, Risk(s, q), ratio, tick, l);
  }

  lemma PlacedGeometry(buy: bool, e: int, d: int, r: int, risk: real, ratio: real, tick: real, l: Levels)
    requires tick > 0.0 && d == Ceil(risk / tick) && r == RewardTicks(d, ratio)
      && Distance(l.entry, l.stop) == Units(d, tick)
    requires l.entry == Units(e, tick) && l.target == Units(if buy then e + r else e - r, tick)
    requires if buy then l.entry < l.target else l.target < l.entry
    ensures risk <= Distance(l.entry, l.stop) < risk + tick
    ensures Times(Distance(l.entry, l.stop), ratio)
      <= Distance(l.entry, l.target) < Times(Distance(l.entry, l.stop), ratio) + tick
  {
    CeilBounds(risk, tick);
    RewardBounds(e, d, r, ratio, tick, buy, l);
  }

  lemma Apart(a: int, b: int, tick: real)
    requires tick > 0.0
    ensures Units(a, tick) - Units(b, tick) == Units(a - b, tick)
  {
  }

  lemma RewardBounds(e: int, d: int, r: int, ratio: real, tick: real, buy: bool, l: Levels)
    requires tick > 0.0 && r == RewardTicks(d, ratio) && Distance(l.entry, l.stop) == Units(d, tick)
    requires l.entry == Units(e, tick) && l.target == Units(if buy then e + r else e - r, tick)
    requires if buy then l.entry < l.target else l.target < l.entry
    ensures Distance(l.entry, l.target) == Units(r, tick)
    ensures Times(Distance(l.entry, l.stop), ratio)
      <= Distance(l.entry, l.target) < Times(Distance(l.entry, l.stop), ratio) + tick
  {
    ProductOverTick(d, ratio, tick);
    CeilBounds(Times(Units(d, tick), ratio), tick);
    if buy { Apart(e + r, e, tick); } else { Apart(e, e - r, tick); }
  }

  // Where the strategy measured from: its own entry, or the middle of the quote when it named none.
  function MeasuredFrom(s: Signal, q: Quote): real {
    match s.entry
    case None => q.mid
    case Some(entry) => if entry == 0.0 then q.mid else entry
  }

  lemma NearestTick(x: real, tick: real)
    requires tick > 0.0
    ensures x - tick / 2.0 <= Quantize(x, tick) <= x + tick / 2.0
  {
    var u, n := x / tick, RoundHalfEven(x / tick);
    var r := u - n as real;
    assert u * tick == x && r * tick == x - Units(n, tick);
    HalfStep(r, tick);
  }

  lemma HalfStep(r: real, tick: real)
    requires tick > 0.0 && -0.5 <= r <= 0.5
    ensures -(tick / 2.0) <= r * tick <= tick / 2.0
  {
    assert (r + 0.5) * tick >= 0.0 && (0.5 - r) * tick >= 0.0;
  }

  // The bracket sits at the side of the quote the order trades at, to the nearest tick.
  lemma BracketSitsAtTheQuote(s: Signal, q: Quote, spec: SymbolSpec, minRatio: real, l: Levels)
    requires LevelsOf(s, q, spec, minRatio) == Some(l)
    ensures s.side == Buy ==> q.ask - Grid(spec) / 2.0 <= l.entry <= q.ask + Grid(spec) / 2.0
    ensures s.side == Sell ==> q.bid - Grid(spec) / 2.0 <= l.entry <= q.bid + Grid(spec) / 2.0
  {
    NearestTick(if s.side == Buy then q.ask else q.bid, Grid(spec));
  }

  lemma RatioKeeps(reward: real, risk: real, distance: real, kept: real)
    requires risk > 0.0 && Times(distance, reward / risk) <= kept
    ensures Times(kept, risk) >= Times(distance, reward)
  {
    var ratio := reward / risk;
    assert ratio * risk == reward;
    assert Times(distance, ratio) * risk == distance * reward;
    Scaled(Times(distance, ratio), kept, risk);
  }

  lemma RatioOfTheSignal(s: Signal, q: Quote, minRatio: real, distance: real, kept: real)
    requires Anchorable(s, q, minRatio) && Times(distance, Ratio(s, q, minRatio)) <= kept
    ensures if s.target.Some? then
        Times(kept, Abs(MeasuredFrom(s, q) - s.stop.value)) >= Times(distance, Abs(s.target.value - MeasuredFrom(s, q)))
      else kept >= Times(distance, minRatio)
  {
    if s.target.Some? { RatioKeeps(Distance(s.target.value, Reference(s, q)), Risk(s, q), distance, kept); }
  }

  // Its stop keeps the strategy's distance, and its reward the strategy's reward for the risk, or the
  // minimum when the strategy named no target.
  lemma BracketKeepsTheSignal(s: Signal, q: Quote, spec: SymbolSpec, minRatio: real, l: Levels)
    requires LevelsOf(s, q, spec, minRatio) == Some(l)
    ensures var risk, distance, kept :=
        Abs(MeasuredFrom(s, q) - s.stop.value), Distance(l.entry, l.stop), Distance(l.entry, l.target);
      && risk <= distance < risk + Grid(spec)
      && (if s.target.Some? then Times(kept, risk) >= Times(distance, Abs(s.target.value - MeasuredFrom(s, q)))
          else kept >= Times(distance, minRatio))
  {
    LevelsKeepTheGeometry(s, q, spec, minRatio, l);
    RatioOfTheSignal(s, q, minRatio, Distance(l.entry, l.stop), Distance(l.entry, l.target));
  }

  // A signal can be anchored exactly when it has a side and a stop away from where it was measured, and a
  // target, if it has one, that rewards the risk enough.
  lemma AnchorableIff(s: Signal, q: Quote, minRatio: real)
    ensures Anchorable(s, q, minRatio) <==>
      && s.side in {Buy, Sell} && s.stop.Some? && s.stop.value != MeasuredFrom(s, q)
      && (s.target.Some? ==>
        Abs(s.target.value - MeasuredFrom(s, q))
          >= (minRatio - 0.000000001) * Abs(MeasuredFrom(s, q) - s.stop.value))
  {
    if s.stop.Some? && Risk(s, q) > 0.0 && s.target.Some? {
      RatioAtLeast(Distance(s.target.value, Reference(s, q)), Risk(s, q), minRatio - RATIO_EPSILON);
    }
  }

  lemma RatioAtLeast(reward: real, risk: real, least: real)
    requires risk > 0.0
    ensures reward / risk >= least <==> reward >= least * risk
  {
    assert reward / risk * risk == reward;
    Scaled(least, reward / risk, risk);
  }

  // ------------------------------------------------------------------ which signals get a bracket

  lemma {:induction false} Pow10Grows(n: nat, m: nat)
    requires n <= m
    ensures Pow10(n) <= Pow10(m)
  {
    if n < m { Pow10Grows(n, m - 1); }
  }

  // spec_from_symbol_info admits at most eight digits, so a tick dwarfs the price epsilon.
  lemma TickDwarfsEpsilon(spec: SymbolSpec)
    requires spec.digits <= 8
    ensures Grid(spec) > PRICE_EPSILON
  {
    Pow10Grows(spec.digits, 8);
    assert Pow10(4) == 10000.0;
    assert Pow10(8) == 100000000.0;
    var p := Pow10(spec.digits);
    assert 1.0 / p * p == 1.0;
    if Grid(spec) <= PRICE_EPSILON { Scaled(Grid(spec), PRICE_EPSILON, p); }
  }

  // What is left to the quote and the symbol once the signal is Anchorable.
  predicate Holdable(s: Signal, q: Quote, spec: SymbolSpec, minRatio: real)
    requires Anchorable(s, q, minRatio)
  {
    var l := Anchored(s, q, Grid(spec), minRatio);
    Ratio(s, q, minRatio) > 0.0 && l.entry > 0.0 && l.stop > 0.0 && l.target > 0.0
    && Distance(l.entry, l.stop) >= MinStopDistance(spec)
  }

  lemma AtLeastOne(n: int, tick: real)
    requires n > 0 && tick > 0.0
    ensures Units(n, tick) >= tick
  {
    Scaled(1.0, n as real, tick);
  }

  lemma CeilOfProduct(d: int, ratio: real)
    requires d > 0
    ensures RewardTicks(d, ratio) > 0 <==> ratio > 0.0
  {
    if ratio > 0.0 { PositiveProduct(d as real, ratio); }
    else { assert d as real * -ratio >= 0.0; }
  }

  // The sides of a placed bracket: beyond the entry by whole ticks.
  lemma TicksApart(buy: bool, e: int, d: int, r: int, tick: real, l: Levels)
    requires tick > PRICE_EPSILON && d > 0
    requires l.entry == Units(e, tick) && l.stop == Units(if buy then e - d else e + d, tick)
      && l.target == Units(if buy then e + r else e - r, tick)
    ensures if buy then l.stop < l.entry - PRICE_EPSILON else l.stop > l.entry + PRICE_EPSILON
    ensures r > 0 ==> if buy then l.target > l.entry + PRICE_EPSILON else l.target < l.entry - PRICE_EPSILON
    ensures r <= 0 ==> if buy then l.target <= l.entry else l.target >= l.entry
  {
    AtLeastOne(d, tick);
    if buy { Apart(e, e - d, tick); Apart(e + r, e, tick); } else { Apart(e + d, e, tick); Apart(e, e - r, tick); }
    if r > 0 { AtLeastOne(r, tick); } else { PositiveOrZero(-r, tick); }
  }

  lemma RatioKept(distance: real, reward: real, ratio: real, minRatio: real)
    requires distance > 0.0 && reward >= Times(distance, ratio) && ratio >= minRatio - RATIO_EPSILON
    ensures reward / distance >= minRatio - RATIO_EPSILON
  {
    QuotientMonotone(Times(distance, ratio), reward, distance);
    assert Times(distance, ratio) / distance == ratio;
  }

  lemma NothingBroken(s: Signal, q: Quote, spec: SymbolSpec, minRatio: real, l: Levels)
    requires spec.digits <= 8 && Anchorable(s, q, minRatio) && l == Anchored(s, q, Grid(spec), minRatio)
      && Holdable(s, q, spec, minRatio)
    ensures StopsOk(AsOrder(s.side, l), spec, Some(minRatio))
  {
    var tick, ratio := Grid(spec), Ratio(s, q, minRatio);
    var e, d := Entry(s, q, tick), Ceil(Risk(s, q) / tick);
    var r := RewardTicks(d, ratio);
    TickDwarfsEpsilon(spec);
    LevelsInTicks(s, q, spec, minRatio, d, r);
    RatioIsEnough(s, q, minRatio);
    PlacedIsValid(s.side, e, d, r, ratio, tick, spec, minRatio, l);
  }

  lemma RatioIsEnough(s: Signal, q: Quote, minRatio: real)
    requires Anchorable(s, q, minRatio)
    ensures Ratio(s, q, minRatio) >= minRatio - RATIO_EPSILON
  {
  }

  // Prices in whole ticks break no rule, when they are positive and outside the minimum distance.
  lemma PlacedIsValid(side: Side, e: int, d: int, r: int, ratio: real, tick: real, spec: SymbolSpec, minRatio: real,
      l: Levels)
    requires side != Hold && tick > PRICE_EPSILON && d > 0 && r == RewardTicks(d, ratio) && ratio > 0.0
      && ratio >= minRatio - RATIO_EPSILON
    requires l.entry == Units(e, tick) && Distance(l.entry, l.stop) == Units(d, tick)
      && l.stop == Units(if side == Buy then e - d else e + d, tick)
    requires l.target == Units(if side == Buy then e + r else e - r, tick)
    requires l.entry > 0.0 && l.stop > 0.0 && l.target > 0.0 && Distance(l.entry, l.stop) >= MinStopDistance(spec)
    ensures StopsOk(AsOrder(side, l), spec, Some(minRatio))
  {
    CeilOfProduct(d, ratio);
    TicksApart(side == Buy, e, d, r, tick, l);
    RewardBounds(e, d, r, ratio, tick, side == Buy, l);
    RatioKept(Distance(l.entry, l.stop), Distance(l.entry, l.target), ratio, minRatio);
    NoRuleBroken(side, l, spec, minRatio);
  }

  lemma NoRuleBroken(side: Side, l: Levels, spec: SymbolSpec, minRatio: real)
    requires side != Hold && l.entry > 0.0 && l.stop > 0.0 && l.target > 0.0
      && Distance(l.entry, l.stop) >= MinStopDistance(spec)
    requires if side == Buy then l.stop < l.entry - PRICE_EPSILON else l.stop > l.entry + PRICE_EPSILON
    requires if side == Buy then l.target > l.entry + PRICE_EPSILON else l.target < l.entry - PRICE_EPSILON
    requires Distance(l.entry, l.stop) > 0.0
      && Distance(l.entry, l.target) / Distance(l.entry, l.stop) >= minRatio - RATIO_EPSILON
    ensures StopsOk(AsOrder(side, l), spec, Some(minRatio))
  {
    assert Distance(l.target, l.entry) == Distance(l.entry, l.target);
  }

  lemma TargetNeedsRatio(s: Signal, q: Quote, spec: SymbolSpec, minRatio: real, l: Levels)
    requires spec.digits <= 8 && Anchorable(s, q, minRatio) && l == Anchored(s, q, Grid(spec), minRatio)
    requires if s.side == Buy then l.entry < l.target else l.target < l.entry
    ensures Ratio(s, q, minRatio) > 0.0
  {
    var tick := Grid(spec);
    var d := Ceil(Risk(s, q) / tick);
    var r := RewardTicks(d, Ratio(s, q, minRatio));
    TickDwarfsEpsilon(spec);
    LevelsInTicks(s, q, spec, minRatio, d, r);
    TicksApart(s.side == Buy, Entry(s, q, tick), d, r, tick, l);
    CeilOfProduct(d, Ratio(s, q, minRatio));
  }

  lemma OkIsHoldable(s: Signal, q: Quote, spec: SymbolSpec, minRatio: real, l: Levels)
    requires spec.digits <= 8 && Anchorable(s, q, minRatio) && l == Anchored(s, q, Grid(spec), minRatio)
    requires StopsOk(AsOrder(s.side, l), spec, Some(minRatio))
    ensures Holdable(s, q, spec, minRatio)
  {
    ValidSides(AsOrder(s.side, l), spec, minRatio);
    TargetNeedsRatio(s, q, spec, minRatio, l);
    assert !Broken(TooClose, AsOrder(s.side, l), spec, Some(minRatio));
  }

  // Rounding never invalidates a bracket: a signal gets one exactly when it is anchorable and the
  // three prices stay positive with the stop outside the broker's minimum distance.
  lemma BracketIff(s: Signal, q: Quote, spec: SymbolSpec, minRatio: real)
    requires spec.digits <= 8
    ensures LevelsOf(s, q, spec, minRatio).Some? <==> Anchorable(s, q, minRatio) && Holdable(s, q, spec, minRatio)
  {
    if Anchorable(s, q, minRatio) {
      var l := Anchored(s, q, Grid(spec), minRatio);
      if Holdable(s, q, spec, minRatio) { NothingBroken(s, q, spec, minRatio, l); }
      if StopsOk(AsOrder(s.side, l), spec, Some(minRatio)) { OkIsHoldable(s, q, spec, minRatio, l); }
    }
  }

  // Only distances are read from the strategy: a stop on the wrong side of its own entry is mirrored
  // to the right side instead of being refused.
  lemma WrongSidedStopIsMirrored(s: Signal, q: Quote, spec: SymbolSpec, minRatio: real)
    requires s.stop.Some?
    ensures LevelsOf(s.(stop := Some(2.0 * Reference(s, q) - s.stop.value)), q, spec, minRatio)
      == LevelsOf(s, q, spec, minRatio)
  {
    var mirrored := s.(stop := Some(2.0 * Reference(s, q) - s.stop.value));
    assert Reference(mirrored, q) == Reference(s, q);
    assert Risk(mirrored, q) == Risk(s, q);
    if Risk(s, q) > 0.0 { assert Ratio(mirrored, q, minRatio) == Ratio(s, q, minRatio); }
  }

  // ------------------------------------------------------------------ the request

  // round(x, digits)
  function RoundTo(x: real, digits: nat): real {
    RoundHalfEven(Times(x, Pow10(digits))) as real / Pow10(digits)
  }

  datatype Request = Request(side: Side, volume: real, price: real, sl: real, tp: real)

  // build_request, as far as the prices and the volume go; a missing or zero target is sent as 0.
  function BuildRequest(side: Side, price: real, stop: real, target: Option<real>, volume: real,
      spec: SymbolSpec): Request {
    Request(if side == Buy then Buy else Sell, volume, RoundTo(price, spec.digits), RoundTo(stop, spec.digits),
            if target.Some? && target.value != 0.0 then RoundTo(target.value, spec.digits) else 0.0)
  }

  lemma Apportioned(x: real, scaled: real, n: real, p: real, grid: real)
    requires grid * p == 1.0 && scaled == x * p
    ensures (scaled - n) * grid == x - n * grid
  {
    assert scaled * grid == x * (grid * p);
  }

  lemma RoundedUnits(x: real, spec: SymbolSpec)
    ensures RoundTo(x, spec.digits) == Units(RoundHalfEven(Times(x, Pow10(spec.digits))), Grid(spec))
  {
    TimesReciprocal(RoundHalfEven(Times(x, Pow10(spec.digits))) as real, Pow10(spec.digits), Grid(spec));
  }

  lemma UnitsAreNear(x: real, scaled: real, n: int, p: real, grid: real)
    requires grid > 0.0 && grid * p == 1.0 && scaled == x * p && -0.5 <= scaled - n as real <= 0.5
    ensures x - grid / 2.0 <= Units(n, grid) <= x + grid / 2.0
  {
    Apportioned(x, scaled, n as real, p, grid);
    HalfStep(scaled - n as real, grid);
  }

  lemma Reciprocal(spec: SymbolSpec)
    ensures Grid(spec) * Pow10(spec.digits) == 1.0
  {
  }

  lemma RoundToIsNear(x: real, spec: SymbolSpec)
    ensures x - Grid(spec) / 2.0 <= RoundTo(x, spec.digits) <= x + Grid(spec) / 2.0
  {
    RoundedUnits(x, spec);
    Reciprocal(spec);
    var scaled := Times(x, Pow10(spec.digits));
    UnitsAreNear(x, scaled, RoundHalfEven(scaled), Pow10(spec.digits), Grid(spec));
  }

  // Any request: the side and the volume it was given, each price to the nearest unit of the symbol's last
  // digit, and a target of 0 for none.
  lemma RequestIs(side: Side, price: real, stop: real, target: Option<real>, volume: real, spec: SymbolSpec)
    ensures var r, half := BuildRequest(side, price, stop, target, volume, spec), Grid(spec) / 2.0;
      && r.volume == volume && (r.side == Buy <==> side == Buy) && r.side != Hold
      && price - half <= r.price <= price + half && stop - half <= r.sl <= stop + half
      && (if target.None? || target.value == 0.0 then r.tp == 0.0
          else target.value - half <= r.tp <= target.value + half)
  {
    RoundToIsNear(price, spec);
    RoundToIsNear(stop, spec);
    if target.Some? { RoundToIsNear(target.value, spec); }
  }

  lemma TimesReciprocal(n: real, p: real, grid: real)
    requires p > 0.0 && grid == 1.0 / p
    ensures Times(n * grid, p) == n && n / p == n * grid
  {
    assert grid * p == 1.0;
    assert n * (grid * p) == n;
  }

  lemma RoundToKeepsTicks(x: real, spec: SymbolSpec)
    requires OnTick(x, Grid(spec))
    ensures RoundTo(x, spec.digits) == x
  {
    var n, p, grid := (x / Grid(spec)).Floor, Pow10(spec.digits), Grid(spec);
    TimesReciprocal(n as real, p, grid);
    assert x == n as real * grid;
    assert Times(x, p) == n as real;
    assert RoundHalfEven(n as real) == n;
    assert RoundTo(x, spec.digits) == n as real / p;
  }

  // The request carries the validated bracket to the broker as it is.
  lemma RequestCarriesTheBracket(s: Signal, q: Quote, spec: SymbolSpec, minRatio: real, l: Levels, volume: real)
    requires LevelsOf(s, q, spec, minRatio) == Some(l)
    ensures BuildRequest(s.side, l.entry, l.stop, Some(l.target), volume, spec)
      == Request(s.side, volume, l.entry, l.stop, l.target)
  {
    LevelsOnTick(s, q, spec, minRatio);
    ValidSides(AsOrder(s.side, l), spec, minRatio);
    RoundToKeepsTicks(l.entry, spec);
    RoundToKeepsTicks(l.stop, spec);
    RoundToKeepsTicks(l.target, spec);
  }
}
