/** app/portfolio/manager.py: at most one protective stop change per observation. */
module Trailing {
  import opened Records
  import opened Sizing

  datatype Policy = Policy(breakEvenR: real, activateR: real, atrMultiple: real, minimumChangePoints: real)

  // What one observation brings; `accepted` is whether the broker takes the modification.
  datatype Observation = Observation(price: real, atr: real, accepted: bool)

  // The terms the stop is held against.
  datatype Held = Held(buy: bool, open: real)

  function Progress(h: Held, price: real, risk: real): real
    requires risk != 0.0
  {
    if h.buy then (price - h.open) / risk else (h.open - price) / risk
  }

  // The stop that manage() asks for, None when it asks for nothing. A stop of 0 is no stop.
  function Proposal(h: Held, sl: real, o: Observation, point: real, policy: Policy): Option<real> {
    var risk := Abs(h.open - sl);
    if sl == 0.0 || o.atr <= 0.0 || point <= 0.0 || risk <= 0.0 then None
    else if Progress(h, o.price, risk) < policy.breakEvenR then None
    else
      var proposed := if Progress(h, o.price, risk) < policy.activateR then h.open else Trailed(h, o, policy);
      var improves := if h.buy then proposed > sl else proposed < sl;
      if improves && !(Abs(proposed - sl) / point < policy.minimumChangePoints) then Some(proposed) else None
  }

  function Trailed(h: Held, o: Observation, policy: Policy): real {
    if h.buy then o.price - o.atr * policy.atrMultiple else o.price + o.atr * policy.atrMultiple
  }

  function Next(h: Held, sl: real, o: Observation, point: real, policy: Policy): real {
    if o.accepted && Proposal(h, sl, o, point, policy).Some? then Proposal(h, sl, o, point, policy).value else sl
  }

  // A broker position, as far as its stop goes.
  class Position {
    const held: Held
    var sl: real

    constructor (held: Held, sl: real)
      ensures this.held == held && this.sl == sl
    {
      this.held := held;
      this.sl := sl;
    }
  }

  class PositionManager {
    const policy: Policy

    constructor (policy: Policy)
      ensures this.policy == policy
    {
      this.policy := policy;
    }

    // The request that was sent, None when nothing was.
    method Manage(p: Position, o: Observation, point: real) returns (sent: Option<real>)
      modifies p`sl
      ensures sent == Proposal(p.held, old(p.sl), o, point, policy)
      ensures p.sl == Next(p.held, old(p.sl), o, point, policy)
    {
      if p.sl == 0.0 || o.atr <= 0.0 || point <= 0.0 {
        return None;
      }
      var risk := Abs(p.held.open - p.sl);
      if risk <= 0.0 {
        return None;
      }
      var progress := Progress(p.held, o.price, risk);
      if progress < policy.breakEvenR {
        return None;
      }
      var proposed := if progress < policy.activateR then p.held.open else Trailed(p.held, o, policy);
      var improves := if p.held.buy then proposed > p.sl else proposed < p.sl;
      if !improves || Abs(proposed - p.sl) / point < policy.minimumChangePoints {
        return None;
      }
      if o.accepted {
        p.sl := proposed;
      }
      sent := Some(proposed);
    }
  }

  // ------------------------------------------------------------------ one observation

  predicate Positive(policy: Policy) {
    policy.breakEvenR > 0.0 && policy.activateR > 0.0 && policy.atrMultiple > 0.0 && policy.minimumChangePoints > 0.0
  }

  // The least change that is worth a request.
  function Least(point: real, policy: Policy): real {
    policy.minimumChangePoints * point
  }

  lemma ProgressMeansProfit(x: real, risk: real, r: real)
    requires risk > 0.0 && r > 0.0 && x / risk >= r
    ensures x > 0.0
  {
    if x <= 0.0 { QuotientMonotone(x, 0.0, risk); }
  }

  lemma MinimumChange(change: real, point: real, policy: Policy)
    requires point > 0.0 && change / point >= policy.minimumChangePoints
    ensures change >= Least(point, policy)
  {
    Scaled(policy.minimumChangePoints, change / point, point);
    assert change / point * point == change;
  }

  // Every requested stop is protective by at least the minimum change and strictly on the losing side
  // of the current price.
  lemma ProposalsProtect(h: Held, sl: real, o: Observation, point: real, policy: Policy)
    requires Positive(policy) && Proposal(h, sl, o, point, policy).Some?
    ensures var proposed := Proposal(h, sl, o, point, policy).value;
      point > 0.0 && if h.buy then sl + Least(point, policy) <= proposed < o.price
        else o.price < proposed <= sl - Least(point, policy)
  {
    var proposed, risk := Proposal(h, sl, o, point, policy).value, Abs(h.open - sl);
    MinimumChange(Abs(proposed - sl), point, policy);
    ProgressMeansProfit(if h.buy then o.price - h.open else h.open - o.price, risk, policy.breakEvenR);
    PositiveProduct(o.atr, policy.atrMultiple);
  }

  // The profit of the position per unit, at the price.
  function Profit(h: Held, price: real): real {
    if h.buy then price - h.open else h.open - price
  }

  // What the stop is moved to: the open price from breakEvenR risks of profit on, and from activateR risks
  // on a distance of atrMultiple ATRs behind the price.
  predicate Aims(h: Held, sl: real, o: Observation, policy: Policy, to: real) {
    var profit, risk := Profit(h, o.price), Abs(h.open - sl);
    && profit >= policy.breakEvenR * risk
    && (profit < policy.activateR * risk ==> to == h.open)
    && (profit >= policy.activateR * risk ==> Profit(h, o.price) - Profit(h, to) == policy.atrMultiple * o.atr)
  }

  lemma ProgressIs(h: Held, price: real, risk: real, r: real)
    requires risk > 0.0
    ensures Progress(h, price, risk) < r <==> Profit(h, price) < r * risk
  {
    var q := Progress(h, price, risk);
    assert q * risk == Profit(h, price);
    Scaled(r, q, risk);
  }

  lemma ChangeIs(change: real, point: real, least: real)
    requires point > 0.0
    ensures change / point < least <==> change < least * point
  {
    assert change / point * point == change;
    Scaled(least, change / point, point);
  }

  // The new stop is better, by the minimum change.
  predicate Better(h: Held, sl: real, point: real, policy: Policy, to: real) {
    (if h.buy then to > sl else to < sl) && Abs(to - sl) >= policy.minimumChangePoints * point
  }

  lemma BetterIs(h: Held, sl: real, point: real, policy: Policy, to: real)
    requires point > 0.0
    ensures Better(h, sl, point, policy, to) <==>
      (if h.buy then to > sl else to < sl) && !(Abs(to - sl) / point < policy.minimumChangePoints)
  {
    ChangeIs(Abs(to - sl), point, policy.minimumChangePoints);
  }

  // A stop is requested exactly when there is a stop, an ATR and a point to work with, the position has
  // the profit for it, and the new stop is better by the minimum change; and this is the stop requested.
  lemma ProposalIff(h: Held, sl: real, o: Observation, point: real, policy: Policy, to: real)
    ensures Proposal(h, sl, o, point, policy) == Some(to) <==>
      sl != 0.0 && sl != h.open && o.atr > 0.0 && point > 0.0 && Aims(h, sl, o, policy, to)
        && Better(h, sl, point, policy, to)
  {
    if sl != 0.0 && sl != h.open && o.atr > 0.0 && point > 0.0 {
      var risk := Abs(h.open - sl);
      AimIs(h, sl, o, policy, to, risk);
      BetterIs(h, sl, point, policy, to);
      ProposalFrom(h, sl, o, point, policy, to, risk, Progress(h, o.price, risk), Aims(h, sl, o, policy, to),
        Better(h, sl, point, policy, to));
    }
  }

  lemma ProposalFrom(h: Held, sl: real, o: Observation, point: real, policy: Policy, to: real, risk: real,
      progress: real, aims: bool, better: bool)
    requires sl != 0.0 && o.atr > 0.0 && point > 0.0 && risk == Abs(h.open - sl) && risk > 0.0
      && progress == Progress(h, o.price, risk)
    requires aims <==>
      progress >= policy.breakEvenR && to == if progress < policy.activateR then h.open else Trailed(h, o, policy)
    requires better <==> (if h.buy then to > sl else to < sl) && !(Abs(to - sl) / point < policy.minimumChangePoints)
    ensures Proposal(h, sl, o, point, policy) == Some(to) <==> aims && better
  {
  }

  lemma AimIs(h: Held, sl: real, o: Observation, policy: Policy, to: real, risk: real)
    requires risk == Abs(h.open - sl) && risk > 0.0
    ensures Aims(h, sl, o, policy, to) <==>
      Progress(h, o.price, risk) >= policy.breakEvenR
      && to == if Progress(h, o.price, risk) < policy.activateR then h.open else Trailed(h, o, policy)
  {
    ProgressIs(h, o.price, risk, policy.breakEvenR);
    ProgressIs(h, o.price, risk, policy.activateR);
  }

  // ------------------------------------------------------------------ runs of observations

  function Stop(h: Held, sl: real, os: seq<Observation>, point: real, policy: Policy): real {
    if os == [] then sl else Next(h, Stop(h, sl, os[..|os| - 1], point, policy), os[|os| - 1], point, policy)
  }

  // How often the stop moved.
  function Changes(h: Held, sl: real, os: seq<Observation>, point: real, policy: Policy): nat {
    if os == [] then 0
    else
      var front := os[..|os| - 1];
      Changes(h, sl, front, point, policy)
      + if Stop(h, sl, os, point, policy) != Stop(h, sl, front, point, policy) then 1 else 0
  }

  predicate Protective(h: Held, from: real, to: real) {
    if h.buy then from <= to else to <= from
  }

  lemma NextProtects(h: Held, sl: real, o: Observation, point: real, policy: Policy)
    requires Positive(policy)
    ensures Protective(h, sl, Next(h, sl, o, point, policy))
    ensures Next(h, sl, o, point, policy) != sl ==>
      point > 0.0 && if h.buy then sl + Least(point, policy) <= Next(h, sl, o, point, policy) < o.price
      else o.price < Next(h, sl, o, point, policy) <= sl - Least(point, policy)
  {
    if Proposal(h, sl, o, point, policy).Some? { ProposalsProtect(h, sl, o, point, policy); }
  }

  // The stop only ever moves in the protective direction.
  lemma {:induction false} StopIsARatchet(h: Held, sl: real, os: seq<Observation>, more: seq<Observation>, point: real,
      policy: Policy)
    requires Positive(policy)
    ensures Protective(h, Stop(h, sl, os, point, policy), Stop(h, sl, os + more, point, policy))
    decreases |more|
  {
    if more == [] {
      assert os + more == os;
    } else {
      var front, last := more[..|more| - 1], more[|more| - 1];
      StopIsARatchet(h, sl, os, front, point, policy);
      assert (os + more)[..|os + more| - 1] == os + front;
      NextProtects(h, Stop(h, sl, os + front, point, policy), last, point, policy);
    }
  }

  // A stop at the open price has no risk left to measure progress by: it never moves again.
  lemma {:induction false} BreakEvenIsFinal(h: Held, sl: real, os: seq<Observation>, more: seq<Observation>,
      point: real, policy: Policy)
    requires Stop(h, sl, os, point, policy) == h.open
    ensures Stop(h, sl, os + more, point, policy) == h.open
    decreases |more|
  {
    if more == [] {
      assert os + more == os;
    } else {
      BreakEvenIsFinal(h, sl, os, more[..|more| - 1], point, policy);
      assert (os + more)[..|os + more| - 1] == os + more[..|more| - 1];
    }
  }

  // A product that can be added up.
  function Many(n: nat, least: real): real {
    n as real * least
  }

  // The price never went beyond the bound on the winning side.
  predicate Bounded(h: Held, os: seq<Observation>, bound: real) {
    forall k :: 0 <= k < |os| ==> if h.buy then os[k].price <= bound else os[k].price >= bound
  }

  // How far the stop has come, and how far it can come.
  function Gain(h: Held, from: real, to: real): real {
    if h.buy then to - from else from - to
  }

  predicate Counted(h: Held, sl: real, now: real, n: nat, least: real, bound: real) {
    (n == 0 ==> now == sl) && (n > 0 ==> Many(n, least) <= Gain(h, sl, now) < Gain(h, sl, bound))
  }

  lemma OneMoreChange(h: Held, sl: real, before: real, now: real, n: nat, least: real, bound: real)
    requires Counted(h, sl, before, n, least, bound) && Gain(h, before, now) >= least && Gain(h, now, bound) > 0.0
    ensures Counted(h, sl, now, n + 1, least, bound)
  {
    assert Many(n + 1, least) == Many(n, least) + least;
    if n == 0 { assert Many(0, least) == 0.0; }
  }

  // So the stop moves less often than the room up to the best price holds minimum changes.
  lemma {:induction false} ChangesAreBounded(h: Held, sl: real, os: seq<Observation>, bound: real, point: real,
      policy: Policy)
    requires Positive(policy) && Bounded(h, os, bound)
    ensures Counted(h, sl, Stop(h, sl, os, point, policy), Changes(h, sl, os, point, policy), Least(point, policy),
      bound)
  {
    if os != [] {
      var front, last := os[..|os| - 1], os[|os| - 1];
      var before := Stop(h, sl, front, point, policy);
      ChangesAreBounded(h, sl, front, bound, point, policy);
      NextProtects(h, before, last, point, policy);
      if Next(h, before, last, point, policy) != before {
        OneMoreChange(h, sl, before, Next(h, before, last, point, policy), Changes(h, sl, front, point, policy),
          Least(point, policy), bound);
      }
    }
  }

  // The break-even move is therefore the last one: trailing starts only for a position whose first
  // accepted move already follows the price.
  lemma BreakEvenEndsTheTrail(h: Held, sl: real, os: seq<Observation>, o: Observation, more: seq<Observation>,
      point: real, policy: Policy)
    requires Proposal(h, Stop(h, sl, os, point, policy), o, point, policy) == Some(h.open) && o.accepted
    ensures Stop(h, sl, os + [o] + more, point, policy) == h.open
    ensures Changes(h, sl, os + [o] + more, point, policy) == Changes(h, sl, os + [o], point, policy)
  {
    assert (os + [o])[..|os|] == os;
    BreakEvenIsFinal(h, sl, os + [o], more, point, policy);
    NoMoreChanges(h, sl, os + [o], more, point, policy);
  }

  lemma {:induction false} NoMoreChanges(h: Held, sl: real, os: seq<Observation>, more: seq<Observation>, point: real,
      policy: Policy)
    requires Stop(h, sl, os, point, policy) == h.open
    ensures Changes(h, sl, os + more, point, policy) == Changes(h, sl, os, point, policy)
    decreases |more|
  {
    if more == [] {
      assert os + more == os;
    } else {
      var front := more[..|more| - 1];
      NoMoreChanges(h, sl, os, front, point, policy);
      assert (os + more)[..|os + more| - 1] == os + front;
      BreakEvenIsFinal(h, sl, os, front, point, policy);
      BreakEvenIsFinal(h, sl, os, more, point, policy);
    }
  }
}
