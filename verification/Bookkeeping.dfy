/** Where the realized P/L goes: what the runs of the reconciler book, against what the rows say. */
module Bookkeeping {
  import opened Records
  import opened Grouping
  import opened Matching
  import opened RiskState
  import opened Reconciliation

  // Any sequence of runs, each over its own history.
  function Runs(a: Accounts, feeds: seq<Feed>): (r: Accounts)
    ensures |r.trades| == |a.trades|
  {
    if feeds == [] then a else Reconciled(Runs(a, feeds[..|feeds| - 1]), feeds[|feeds| - 1])
  }

  // What one run books for trade k, and writes to it while no exit deal is dated.
  function BookedNow(a: Accounts, f: Feed, k: nat): real
    requires k < |a.trades|
  {
    var t, matched := a.trades[k], MatchedBy(a.trades, f);
    if t.id in matched then Booking(t, matched[t.id].position) else 0.0
  }

  function WrittenOpen(a: Accounts, f: Feed, k: nat): real
    requires k < |a.trades|
  {
    var t, matched := a.trades[k], MatchedBy(a.trades, f);
    if t.id in matched then OpenWrite(t, matched[t.id].position) else 0.0
  }

  function BookedFor(a: Accounts, feeds: seq<Feed>, k: nat): real
    requires k < |a.trades|
  {
    if feeds == [] then 0.0
    else BookedFor(a, feeds[..|feeds| - 1], k) + BookedNow(Runs(a, feeds[..|feeds| - 1]), feeds[|feeds| - 1], k)
  }

  function OpenFor(a: Accounts, feeds: seq<Feed>, k: nat): real
    requires k < |a.trades|
  {
    if feeds == [] then 0.0
    else OpenFor(a, feeds[..|feeds| - 1], k) + WrittenOpen(Runs(a, feeds[..|feeds| - 1]), feeds[|feeds| - 1], k)
  }

  // One application moves the row's net by what it books plus what it writes unbooked, within the tolerance.
  lemma ApplicationBalances(t: Trade, p: Position, moment: int)
    ensures Abs(NetPnl(ApplyTo(t, p, moment)) - NetPnl(t) - Booking(t, p) - OpenWrite(t, p)) <= TOLERANCE
  {
    if Updates(t, p) {
      assert NetPnl(Proposed(t, p)) == Net(p);
    }
  }

  lemma RunBalances(a: Accounts, f: Feed, k: nat)
    requires k < |a.trades|
    ensures Abs(RunGap(a, f, k)) <= TOLERANCE
  {
    var t, matched := a.trades[k], MatchedBy(a.trades, f);
    if t.id in matched { ApplicationBalances(t, matched[t.id].position, f.moment); }
  }

  // The code's 1e-9, once per run.
  function Slack(runs: nat): real {
    if runs == 0 then 0.0 else Slack(runs - 1) + TOLERANCE
  }

  lemma SlackAddsUp(x: real, y: real, n: nat)
    requires Abs(x) <= Slack(n) && Abs(y) <= TOLERANCE
    ensures Abs(x + y) <= Slack(n + 1)
  {
  }

  // Net now, less net before, less booked, less written while open.
  function Gap(a: Accounts, feeds: seq<Feed>, k: nat): real
    requires k < |a.trades|
  {
    NetPnl(Runs(a, feeds).trades[k]) - NetPnl(a.trades[k]) - BookedFor(a, feeds, k) - OpenFor(a, feeds, k)
  }

  function RunGap(a: Accounts, f: Feed, k: nat): real
    requires k < |a.trades|
  {
    NetPnl(Reconciled(a, f).trades[k]) - NetPnl(a.trades[k]) - BookedNow(a, f, k) - WrittenOpen(a, f, k)
  }

  lemma {:induction false} GapStep(a: Accounts, feeds: seq<Feed>, k: nat, before: seq<Feed>, f: Feed)
    requires k < |a.trades| && feeds != [] && before == feeds[..|feeds| - 1] && f == feeds[|feeds| - 1]
    ensures Gap(a, feeds, k) == Gap(a, before, k) + RunGap(Runs(a, before), f, k)
  {
  }

  lemma {:induction false} GapIsSlack(a: Accounts, feeds: seq<Feed>, k: nat)
    requires k < |a.trades|
    ensures Abs(Gap(a, feeds, k)) <= Slack(|feeds|)
  {
    if feeds != [] {
      var before, f := feeds[..|feeds| - 1], feeds[|feeds| - 1];
      GapIsSlack(a, before, k);
      RunBalances(Runs(a, before), f, k);
      GapStep(a, feeds, k, before, f);
      SlackAddsUp(Gap(a, before, k), RunGap(Runs(a, before), f, k), |before|);
    }
  }

  // For each trade, over every sequence of runs: booked = net now - net before - written while open,
  // within the tolerance per run.
  lemma {:induction false} BookedIsNetLessOpenWrites(a: Accounts, feeds: seq<Feed>, k: nat)
    requires k < |a.trades|
    ensures Abs(NetPnl(Runs(a, feeds).trades[k]) - NetPnl(a.trades[k]) - BookedFor(a, feeds, k) - OpenFor(a, feeds, k))
      <= Slack(|feeds|)
  {
    GapIsSlack(a, feeds, k);
  }

  // In no run was the trade changed by a position without a dated exit.
  predicate NeverWrittenOpen(a: Accounts, feeds: seq<Feed>, k: nat)
    requires k < |a.trades|
  {
    feeds == []
      || (NeverWrittenOpen(a, feeds[..|feeds| - 1], k)
      && WrittenOpen(Runs(a, feeds[..|feeds| - 1]), feeds[|feeds| - 1], k) == 0.0)
  }

  lemma {:induction false} NoOpenWrites(a: Accounts, feeds: seq<Feed>, k: nat)
    requires k < |a.trades| && NeverWrittenOpen(a, feeds, k)
    ensures OpenFor(a, feeds, k) == 0.0
  {
    if feeds != [] { NoOpenWrites(a, feeds[..|feeds| - 1], k); }
  }

  // A fresh trade whose position was never written while open is booked once: its whole net, within
  // the tolerance, however often and in however many steps the history was read.
  lemma {:induction false} FirstSeenClosedIsBookedOnce(a: Accounts, feeds: seq<Feed>, k: nat)
    requires k < |a.trades| && NetPnl(a.trades[k]) == 0.0 && NeverWrittenOpen(a, feeds, k)
    ensures Abs(NetPnl(Runs(a, feeds).trades[k]) - BookedFor(a, feeds, k)) <= Slack(|feeds|)
  {
    GapIsSlack(a, feeds, k);
    GapWithoutOpenWrites(a, feeds, k, NetPnl(Runs(a, feeds).trades[k]), BookedFor(a, feeds, k), OpenFor(a, feeds, k));
  }

  lemma {:induction false} GapWithoutOpenWrites(a: Accounts, feeds: seq<Feed>, k: nat, net: real, booked: real,
      open: real)
    requires k < |a.trades| && NetPnl(a.trades[k]) == 0.0 && NeverWrittenOpen(a, feeds, k)
      && open == OpenFor(a, feeds, k)
    requires net == NetPnl(Runs(a, feeds).trades[k]) && booked == BookedFor(a, feeds, k)
    ensures Gap(a, feeds, k) == net - booked
  {
    NoOpenWrites(a, feeds, k);
  }

  // The costs a position shows while it is open are written to the trade and never booked: after the
  // close the day rows hold the closing net short of exactly the net that was written open.
  lemma OpenNetIsNeverBooked(t: Trade, open: Position, closed: Position, first: int)
    requires open.closeTime.None? && Updates(t, open) && closed.closeTime.Some?
    ensures NetPnl(ApplyTo(t, open, first)) == Net(open)
    ensures Booking(t, open) == 0.0
    ensures Abs(Booking(ApplyTo(t, open, first), closed) - (Net(closed) - Net(open))) <= TOLERANCE
  {
    var u := ApplyTo(t, open, first);
    assert u.closeTime == None;
    assert Updates(u, closed);
  }

  // ------------------------------------------------------------------ the day rows together

  function BookedFirst(a: Accounts, f: Feed, n: nat): real
    requires n <= |a.trades|
  {
    if n == 0 then 0.0 else BookedFirst(a, f, n - 1) + BookedNow(a, f, n - 1)
  }

  lemma {:induction false} FirstTradesBook(a: Accounts, f: Feed, n: nat)
    requires n <= |a.trades|
    ensures TotalPnl(ApplyFirst(a, MatchedBy(a.trades, f), f.moment, n).days) == TotalPnl(a.days) + BookedFirst(a, f, n)
  {
    if n > 0 {
      FirstTradesBook(a, f, n - 1);
      var t, matched := a.trades[n - 1], MatchedBy(a.trades, f);
      var c := ApplyFirst(a, matched, f.moment, n - 1);
      if t.id in matched && Books(t, matched[t.id].position) {
        var p := matched[t.id].position;
        BookingAddsUp(c.days, Delta(t, p), p.closeTime.value / SECONDS_PER_DAY, f.moment);
      }
    }
  }

  function BookedByAll(a: Accounts, feeds: seq<Feed>, n: nat): real
    requires n <= |a.trades|
  {
    if n == 0 then 0.0 else BookedByAll(a, feeds, n - 1) + BookedFor(a, feeds, n - 1)
  }

  lemma {:induction false} BookedByAllStep(a: Accounts, feeds: seq<Feed>, n: nat)
    requires feeds != [] && n <= |a.trades|
    ensures var m := |feeds| - 1;
      BookedByAll(a, feeds, n) == BookedByAll(a, feeds[..m], n) + BookedFirst(Runs(a, feeds[..m]), feeds[m], n)
  {
    if n > 0 { BookedByAllStep(a, feeds, n - 1); }
  }

  // Over all day rows, whatever days the closes fall on: what the runs add is what they book for the
  // trades, no more and no less.
  lemma {:induction false} DayRowsHoldTheBookings(a: Accounts, feeds: seq<Feed>)
    ensures TotalPnl(Runs(a, feeds).days) == TotalPnl(a.days) + BookedByAll(a, feeds, |a.trades|)
  {
    if feeds == [] {
      NothingBooked(a, |a.trades|);
    } else {
      var m := |feeds| - 1;
      DayRowsHoldTheBookings(a, feeds[..m]);
      FirstTradesBook(Runs(a, feeds[..m]), feeds[m], |a.trades|);
      BookedByAllStep(a, feeds, |a.trades|);
    }
  }

  lemma {:induction false} NothingBooked(a: Accounts, n: nat)
    requires n <= |a.trades|
    ensures BookedByAll(a, [], n) == 0.0
  {
    if n > 0 { NothingBooked(a, n - 1); }
  }

  // ------------------------------------------------------------------ deals for which the sum fails

  // A feed whose deals all belong to one position.
  lemma {:induction false} OneIdOnly(deals: seq<Deal>, magic: int, id: string)
    requires deals != [] && forall k :: 0 <= k < |deals| ==> IdOf(deals[k], magic) == Some(id)
    ensures Ids(deals, magic) == [id] && Bucket(deals, magic, id) == deals
  {
    var n := |deals| - 1;
    if n > 0 { OneIdOnly(deals[..n], magic, id); } else { assert Bucket(deals[..n], magic, id) == deals[..n]; }
    assert Belongs(magic, id)(deals[n]);
    assert deals == deals[..n] + [deals[n]];
  }

  lemma OnePosition(deals: seq<Deal>, magic: int, id: string)
    requires deals != [] && forall k :: 0 <= k < |deals| ==> IdOf(deals[k], magic) == Some(id)
    ensures PositionsOf(deals, magic) == [BuildPosition(id, deals)]
  {
    OneIdOnly(deals, magic, id);
    KeysAreCovered(deals, magic);
    assert [id][1..] == [] && SortIds([id]) == [id];
    BuiltAt([id], deals, magic, 0);
  }

  // A position opened with a commission of one, and closed with a profit of five.
  const OPENING: Deal :=
      Deal(Some(7), Some("1"), None, Some("2"), Some(0), 0, 1.0, 1.0, 0.0, -1.0, 0.0, Some("A"), 0, None)
  const CLOSING: Deal :=
      Deal(Some(7), Some("1"), None, Some("3"), Some(100), 1, 1.0, 6.0, 5.0, 0.0, 0.0, Some("A"), 0, None)

  lemma OpenedPosition(p: Position)
    requires p == BuildPosition("1", [OPENING])
    ensures p.id == "1" && "2" in p.tickets && p.closeTime.None? && Net(p) == -1.0 && DealOf(p) == Some("2")
  {
    var d := OPENING;
    FilterOne(d, IsExit);
    OneTicket(d);
    OneEntry("1", d);
    OneSum(d, Profit);
    OneSum(d, Commission);
    OneSum(d, Swap);
  }

  lemma TwoSum(d: Deal, e: Deal, f: Deal -> real)
    ensures Sum([d, e], f) == f(d) + f(e)
  {
    assert [d, e][..|[d, e]| - 1] == [d];
    OneSum(d, f);
  }

  lemma ClosedPosition(p: Position)
    requires p == BuildPosition("1", [OPENING, CLOSING])
    ensures p.id == "1" && p.tickets == {"2", "3"} && p.closeTime.Some? && Net(p) == 4.0
  {
    var d, e := OPENING, CLOSING;
    FilterTwo(d, e, IsExit);
    assert [] + [e] == [e] && [e][..0] == [];
    assert d in [d, e];
    TwoSum(d, e, Profit);
    TwoSum(d, e, Commission);
    TwoSum(d, e, Swap);
  }

  // One run over one trade and the one position it points to.
  lemma OneTradeRun(t: Trade, days: seq<RiskRow>, f: Feed, p: Position)
    requires Matchable(t.status) && f.positions == [p]
      && ((t.positionTicket.Some? && t.positionTicket.value in p.tickets)
        || (Free([p], {}, t.positionTicket).None? && t.dealTicket.Some? && t.dealTicket.value in p.tickets))
    ensures var after := Reconciled(Accounts([t], days), f);
      after.trades == [ApplyTo(t, p, f.moment)] && TotalPnl(after.days) == TotalPnl(days) + Booking(t, p)
  {
    if t.positionTicket.Some? { FirstHolder(p, t.positionTicket.value); }
    if t.dealTicket.Some? { FirstHolder(p, t.dealTicket.value); }
    OneTrade(t, days, f, p);
    SingleMatch(t, f.positions, f.window);
    assert [t][..0] == [] && [] + [t] == [t];
    assert Considered([t]) == [t];
    FirstTradesBook(Accounts([t], days), f, 1);
    assert BookedFirst(Accounts([t], days), f, 0) == 0.0;
  }

  // A run that reads the opening, and a run that reads the opening and the closing.
  function TwoReadings(): seq<Feed> {
    [Feed(PositionsOf([OPENING], 7), 300, 0)] + [Feed(PositionsOf([OPENING, CLOSING], 7), 300, 0)]
  }

  lemma {:induction false} OneMoreRun(a: Accounts, before: seq<Feed>, f: Feed)
    ensures Runs(a, before + [f]) == Reconciled(Runs(a, before), f)
  {
    assert (before + [f])[..|before + [f]| - 1] == before;
  }

  lemma {:induction false} ReadTwice(a: Accounts, first: Feed, second: Feed)
    ensures Runs(a, [first] + [second]) == Reconciled(Reconciled(a, first), second)
  {
    assert [] + [first] == [first];
    OneMoreRun(a, [], first);
    OneMoreRun(a, [first], second);
  }

  lemma CostIsNeverBooked(t: Trade, open: Position, closed: Position, first: Feed, second: Feed)
    requires t == NewTrade("2") && first.positions == [open] && first.moment == 0 && second.positions == [closed]
      && second.moment == 0
    requires open.id == "1" && "2" in open.tickets && open.closeTime.None? && Net(open) == -1.0
      && DealOf(open) == Some("2")
    requires closed.tickets == {"2", "3"} && closed.closeTime.Some? && Net(closed) == 4.0
    ensures var after := Reconciled(Reconciled(Accounts([t], []), first), second);
      |after.trades| == 1 && NetPnl(after.trades[0]) == 4.0 && TotalPnl(after.days) == 5.0
  {
    OneTradeRun(t, [], first, open);
    var u := ApplyTo(t, open, 0);
    OpenRow(t, open, u);
    FirstHolder(closed, "1");
    OneTradeRun(u, Reconciled(Accounts([t], []), first).days, second, closed);
    ClosedRow(u, closed);
  }

  // Read once while the position is open and once after its close, the trade's net is four and the day
  // rows hold five: the commission is never booked.
  lemma OpeningCostIsNeverBooked(a: Accounts)
    requires a == Accounts([NewTrade("2")], [])
    ensures var after := Runs(a, TwoReadings());
      |after.trades| == 1 && NetPnl(after.trades[0]) == 4.0 && TotalPnl(after.days) == 5.0
  {
    var open, closed := BuildPosition("1", [OPENING]), BuildPosition("1", [OPENING, CLOSING]);
    TwoReadingsAre(open, closed);
    OpenedPosition(open);
    ClosedPosition(closed);
    CostIsNeverBooked(NewTrade("2"), open, closed, Feed([open], 300, 0), Feed([closed], 300, 0));
    ReadTwice(a, Feed([open], 300, 0), Feed([closed], 300, 0));
  }

  lemma TwoReadingsAre(open: Position, closed: Position)
    requires open == BuildPosition("1", [OPENING]) && closed == BuildPosition("1", [OPENING, CLOSING])
    ensures TwoReadings() == [Feed([open], 300, 0)] + [Feed([closed], 300, 0)]
  {
    OnePosition([OPENING], 7, "1");
    OnePosition([OPENING, CLOSING], 7, "1");
  }

  lemma OpenRow(t: Trade, open: Position, u: Trade)
    requires t == NewTrade("2") && u == ApplyTo(t, open, 0) && open.id == "1" && open.closeTime.None?
    requires DealOf(open) == Some("2")
    ensures NetPnl(u) == Net(open) && Booking(t, open) == 0.0 && Matchable(u.status) && u.closeTime.None?
    ensures u.positionTicket == Some("1") && u.dealTicket == Some("2")
  {
    assert "1" != "2" by { assert "1"[0] != "2"[0]; }
    assert Updates(t, open);
  }

  lemma ClosedRow(u: Trade, closed: Position)
    requires u.closeTime.None? && closed.closeTime.Some? && NetPnl(u) == -1.0 && Net(closed) == 4.0
    ensures Booking(u, closed) == 5.0 && NetPnl(ApplyTo(u, closed, 0)) == 4.0
  {
    assert Updates(u, closed);
  }
}
