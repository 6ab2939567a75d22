/** app/services/analytics.py: one summary of the closed trades, and one per group. */
module Summaries {
  import opened Records
  import opened Matching
  import opened Reconciliation

  datatype Summary = Summary(
    trades: nat, winning: nat, losing: nat, breakeven: int, grossProfit: real, grossLoss: real, net: real,
    winRate: Option<real>, profitFactor: Option<real>)

  function Results(trades: seq<Trade>): (r: seq<real>)
    ensures |r| == |trades| && forall k :: 0 <= k < |trades| ==> r[k] == NetPnl(trades[k])
  {
    seq(|trades|, k requires 0 <= k < |trades| => NetPnl(trades[k]))
  }

  function Positive(xs: seq<real>): seq<real> {
    if xs == [] then [] else Positive(xs[..|xs| - 1]) + if xs[|xs| - 1] > 0.0 then [xs[|xs| - 1]] else []
  }

  function Negative(xs: seq<real>): seq<real> {
    if xs == [] then [] else Negative(xs[..|xs| - 1]) + if xs[|xs| - 1] < 0.0 then [xs[|xs| - 1]] else []
  }

  function Sum(xs: seq<real>): real {
    if xs == [] then 0.0 else Sum(xs[..|xs| - 1]) + xs[|xs| - 1]
  }

  // _summary
  function SummaryOf(trades: seq<Trade>): Summary {
    var results := Results(trades);
    var wins, losses := Positive(results), Negative(results);
    Summary(
      |results|, |wins|, |losses|, |results| - |wins| - |losses|, Sum(wins), -Sum(losses), Sum(results),
      if results == [] then None else Some(|wins| as real / |results| as real),
      if -Sum(losses) > 0.0 then Some(Sum(wins) / -Sum(losses)) else None)
  }

  // _group: every trade into the bucket of its name, then one summary a bucket.
  method Group(trades: seq<Trade>, name: Trade -> string) returns (groups: map<string, Summary>)
    ensures forall k :: k in groups <==> exists i :: 0 <= i < |trades| && name(trades[i]) == k
    ensures forall k :: k in groups ==> groups[k] == SummaryOf(Bucket(trades, name, k))
  {
    var buckets: map<string, seq<Trade>> := map[];
    var n := 0;
    while n < |trades|
      invariant 0 <= n <= |trades| && Filed(buckets, trades[..n], name)
    {
      var key := name(trades[n]);
      ghost var before := buckets;
      buckets := buckets[key := (if key in buckets then buckets[key] else []) + [trades[n]]];
      FiledStep(before, buckets, trades, n, name);
      n := n + 1;
    }
    assert trades[..n] == trades;
    forall k ensures k in buckets <==> exists i :: 0 <= i < |trades| && name(trades[i]) == k {
      NonEmpty(trades, name, k);
    }
    groups := map k | k in buckets :: SummaryOf(buckets[k]);
  }

  // Each bucket holds the trades of its name, and a name without a bucket has none.
  ghost predicate Filed(buckets: map<string, seq<Trade>>, trades: seq<Trade>, name: Trade -> string) {
    forall k :: if k in buckets then buckets[k] == Bucket(trades, name, k) != [] else Bucket(trades, name, k) == []
  }

  lemma FiledStep(before: map<string, seq<Trade>>, after: map<string, seq<Trade>>, trades: seq<Trade>, n: nat,
      name: Trade -> string)
    requires n < |trades| && Filed(before, trades[..n], name)
    requires var key := name(trades[n]);
      after == before[key := (if key in before then before[key] else []) + [trades[n]]]
    ensures Filed(after, trades[..n + 1], name)
  {
    forall k ensures if k in after then after[k] == Bucket(trades[..n + 1], name, k) != []
      else Bucket(trades[..n + 1], name, k) == [] {
      BucketGrows(trades, n, name, k);
    }
  }

  lemma BucketGrows(trades: seq<Trade>, n: nat, name: Trade -> string, key: string)
    requires n < |trades|
    ensures Bucket(trades[..n + 1], name, key) == Bucket(trades[..n], name, key) + if name(trades[n]) == key then
      [trades[n]] else []
  {
    assert trades[..n + 1][..n] == trades[..n];
  }

  lemma {:induction false} NonEmpty(trades: seq<Trade>, name: Trade -> string, key: string)
    ensures Bucket(trades, name, key) != [] <==> exists i :: 0 <= i < |trades| && name(trades[i]) == key
  {
    if trades != [] {
      var n := |trades| - 1;
      NonEmpty(trades[..n], name, key);
      assert forall i :: 0 <= i < n ==> trades[..n][i] == trades[i];
      if name(trades[n]) == key { assert n < |trades|; }
    }
  }

  // The trades of one name, in their order.
  function Bucket(trades: seq<Trade>, name: Trade -> string, key: string): seq<Trade> {
    if trades == [] then []
    else Bucket(trades[..|trades| - 1], name, key) + if name(trades[|trades| - 1]) == key then [trades[|trades| - 1]]
      else []
  }

  // ------------------------------------------------------------------ the groups add up

  // The additive part of a summary.
  datatype Totals = Totals(trades: nat, winning: nat, losing: nat, grossProfit: real, grossLoss: real, net: real)

  function TotalsOf(s: Summary): Totals {
    Totals(s.trades, s.winning, s.losing, s.grossProfit, s.grossLoss, s.net)
  }

  const NOTHING: Totals := Totals(0, 0, 0, 0.0, 0.0, 0.0)

  function Plus(a: Totals, b: Totals): Totals {
    Totals(a.trades + b.trades, a.winning + b.winning, a.losing + b.losing, a.grossProfit + b.grossProfit,
      a.grossLoss + b.grossLoss, a.net + b.net)
  }

  function One(t: Trade): Totals {
    var net := NetPnl(t);
    Totals(1, if net > 0.0 then 1 else 0, if net < 0.0 then 1 else 0, Max(net, 0.0), Max(-net, 0.0), net)
  }

  lemma OneMore(trades: seq<Trade>)
    requires trades != []
    ensures TotalsOf(SummaryOf(trades)) == Plus(TotalsOf(SummaryOf(trades[..|trades| - 1])), One(trades[|trades| - 1]))
  {
    var n := |trades| - 1;
    var results, last := Results(trades), NetPnl(trades[n]);
    assert results[..n] == Results(trades[..n]);
    SumOfOne(Positive(results[..n]), last);
    SumOfOne(Negative(results[..n]), last);
    assert Positive(results[..n]) + [] == Positive(results[..n])
      && Negative(results[..n]) + [] == Negative(results[..n]);
  }

  lemma SumOfOne(xs: seq<real>, x: real)
    ensures Sum(xs + [x]) == Sum(xs) + x
  {
    assert (xs + [x])[..|xs|] == xs;
  }

  function GroupTotals(trades: seq<Trade>, name: Trade -> string, names: seq<string>): (r: map<string, Totals>)
    ensures forall k :: k in names <==> k in r
  {
    map k | k in names :: TotalsOf(SummaryOf(Bucket(trades, name, k)))
  }

  // The groups' totals, added up over their names.
  function AddedUp(groups: map<string, Totals>, names: seq<string>): Totals
    requires forall i :: 0 <= i < |names| ==> names[i] in groups
  {
    if |names| == 0 then NOTHING else Plus(AddedUp(groups, names[..|names| - 1]), groups[names[|names| - 1]])
  }

  predicate Distinct(names: seq<string>) {
    forall i, j :: 0 <= i < j < |names| ==> names[i] != names[j]
  }

  lemma BucketStep(trades: seq<Trade>, name: Trade -> string, key: string)
    requires trades != []
    ensures var n := |trades| - 1;
      TotalsOf(SummaryOf(Bucket(trades, name, key))) ==
        if name(trades[n]) == key then Plus(TotalsOf(SummaryOf(Bucket(trades[..n], name, key))), One(trades[n]))
        else TotalsOf(SummaryOf(Bucket(trades[..n], name, key)))
  {
    var n := |trades| - 1;
    var before := Bucket(trades[..n], name, key);
    if name(trades[n]) == key {
      assert (before + [trades[n]])[..|before|] == before;
      OneMore(before + [trades[n]]);
    } else {
      assert before + [] == before;
    }
  }

  // One more trade adds to exactly one group.
  lemma {:induction false} OneGroupGrows(before: map<string, Totals>, after: map<string, Totals>, key: string,
      one: Totals, names: seq<string>)
    requires Distinct(names)
    requires forall i :: 0 <= i < |names| ==> names[i] in before && names[i] in after
    requires forall i :: 0 <= i < |names| ==> after[names[i]] == if names[i] == key then Plus(before[names[i]], one)
      else before[names[i]]
    ensures AddedUp(after, names) == if key in names then Plus(AddedUp(before, names), one) else AddedUp(before, names)
  {
    if names != [] {
      var m := |names| - 1;
      assert names == names[..m] + [names[m]];
      OneGroupGrows(before, after, key, one, names[..m]);
      assert names[m] !in names[..m];
    }
  }

  lemma NoTrades(name: Trade -> string, names: seq<string>)
    ensures AddedUp(GroupTotals([], name, names), names) == NOTHING == TotalsOf(SummaryOf([]))
  {
    NoSummary();
    EmptyGroups(GroupTotals([], name, names), names);
  }

  lemma NoSummary()
    ensures TotalsOf(SummaryOf([])) == NOTHING
  {
    assert Results([]) == [];
  }

  // Over any enumeration of the names that misses no trade, the groups add up to the whole: trades,
  // wins, losses, gross profit, gross loss and net P/L.
  lemma {:induction false} GroupsAddUp(trades: seq<Trade>, name: Trade -> string, names: seq<string>)
    requires Distinct(names) && forall i :: 0 <= i < |trades| ==> name(trades[i]) in names
    ensures AddedUp(GroupTotals(trades, name, names), names) == TotalsOf(SummaryOf(trades))
  {
    if trades == [] {
      NoTrades(name, names);
    } else {
      GroupsAddUp(trades[..|trades| - 1], name, names);
      GroupsStep(trades, name, names);
      OneMore(trades);
    }
  }

  lemma GroupsStep(trades: seq<Trade>, name: Trade -> string, names: seq<string>)
    requires trades != [] && Distinct(names) && name(trades[|trades| - 1]) in names
    ensures var n := |trades| - 1;
      AddedUp(GroupTotals(trades, name, names), names)
        == Plus(AddedUp(GroupTotals(trades[..n], name, names), names), One(trades[n]))
  {
    var n := |trades| - 1;
    var before, after := GroupTotals(trades[..n], name, names), GroupTotals(trades, name, names);
    forall i | 0 <= i < |names| ensures after[names[i]] == if names[i] == name(trades[n]) then
      Plus(before[names[i]], One(trades[n])) else before[names[i]] {
      BucketStep(trades, name, names[i]);
    }
    OneGroupGrows(before, after, name(trades[n]), One(trades[n]), names);
  }

  lemma {:induction false} EmptyGroups(groups: map<string, Totals>, names: seq<string>)
    requires forall i :: 0 <= i < |names| ==> names[i] in groups && groups[names[i]] == NOTHING
    ensures AddedUp(groups, names) == NOTHING
  {
    if |names| > 0 { EmptyGroups(groups, names[..|names| - 1]); }
  }

  // ------------------------------------------------------------------ the figures of one summary

  // The trades that neither won nor lost.
  function Level(trades: seq<Trade>): nat {
    if trades == [] then 0 else Level(trades[..|trades| - 1]) + if NetPnl(trades[|trades| - 1]) == 0.0 then 1 else 0
  }

  lemma {:induction false} BreakevenIsTheRest(trades: seq<Trade>)
    ensures SummaryOf(trades).breakeven == Level(trades)
  {
    if trades == [] {
      NoSummary();
    } else {
      BreakevenIsTheRest(trades[..|trades| - 1]);
      OneMore(trades);
    }
  }

  // The win rate is the winning share of the trades, undefined without any; the profit factor is gross
  // profit over gross loss, undefined without a loss.
  lemma RatesAreShares(trades: seq<Trade>)
    ensures var s := SummaryOf(trades);
      && (if s.trades == 0 then s.winRate.None?
          else s.winRate.Some? && s.winRate.value * s.trades as real == s.winning as real)
      && (if s.grossLoss > 0.0 then s.profitFactor.Some? && s.profitFactor.value * s.grossLoss == s.grossProfit
          else s.profitFactor.None?)
  {
    var s := SummaryOf(trades);
    if s.trades > 0 { ShareTimes(s.winning as real, s.trades as real); }
    if s.grossLoss > 0.0 { ShareTimes(s.grossProfit, s.grossLoss); }
  }

  lemma ShareTimes(x: real, y: real)
    requires y > 0.0
    ensures x / y * y == x
  {
  }
}
