/** The Reconciler over its database: one run in place, the retirement of stale guards, and what a
    second run does to all of it. */
module ReconcilerRun {
  import opened Records
  import opened Grouping
  import opened Matching
  import opened RiskState
  import opened Reconciliation

  // An open order or a live position, or a deal: its comment and its first readable identifier.
  datatype Evidence = Evidence(comment: Option<string>, ticket: Option<string>)

  datatype Guard = Guard(key: string, row: GuardRow)

  datatype Settings = Settings(magic: int, matchWindow: int, staleSeconds: nat, lookbackHours: nat)

  // The counters of the matching half of the run.
  datatype Counts = Counts(
    considered: nat, byTicket: nat, byFallback: nat, updated: nat, same: nat,
    unmatchedBroker: nat, unmatchedLocal: nat, pnlApplied: real)

  datatype Summary = Unreadable | Partial(ignored: nat, counts: Counts)
      | Complete(ignored: nat, counts: Counts, retired: nat, kept: nat)

  predicate Plain(c: char) {
    'a' <= c <= 'z' || 'A' <= c <= 'Z' || '0' <= c <= '9' || c == '-' || c == '_'
  }

  // The comment the execution layer attaches to a trade id.
  function OrderComment(tradeId: string): string {
    var safe := seq(|tradeId|, i requires 0 <= i < |tradeId| => if Plain(tradeId[i]) then tradeId[i] else '-');
    "bot-" + if |safe| <= 24 then safe else safe[..24]
  }

  function DealEvidence(deals: seq<Deal>): seq<Evidence> {
    seq(|deals|, i requires 0 <= i < |deals| => Evidence(deals[i].comment,
      Or(deals[i].ticket, Or(deals[i].order, deals[i].positionId))))
  }

  // evidence.get(comment): the first record with that comment and a ticket.
  function Found(records: seq<Evidence>, comment: string): Option<string> {
    if records == [] then None
    else
      var rest, e := Found(records[..|records| - 1], comment), records[|records| - 1];
      if rest.Some? then rest else if e.comment == Some(comment) then e.ticket else None
  }

  function LocalTrade(trades: seq<Trade>, tradeId: string): Option<Trade> {
    if trades == [] then None else if trades[0].tradeId == tradeId then Some(trades[0])
      else LocalTrade(trades[1..], tradeId)
  }

  predicate Due(g: Guard, cutoff: int) {
    g.row.status == Pending && g.row.createdAt <= cutoff
  }

  predicate Confirmed(g: Guard, trades: seq<Trade>) {
    var local := LocalTrade(trades, g.row.signalId);
    local.Some? && Accepted(local.value.status)
  }

  predicate Retires(g: Guard, trades: seq<Trade>, records: seq<Evidence>, cutoff: int) {
    Due(g, cutoff) && !Confirmed(g, trades) && Found(records, OrderComment(g.row.signalId)).None?
  }

  function Judged(g: Guard, trades: seq<Trade>, records: seq<Evidence>, cutoff: int): Guard {
    if !Due(g, cutoff) then g
    else if Confirmed(g, trades) then
      var local := LocalTrade(trades, g.row.signalId).value;
      g.(row := g.row.(status := local.status, orderTicket := Or(local.orderTicket, g.row.orderTicket)))
    else if Found(records, OrderComment(g.row.signalId)).Some? then
      g.(row := g.row.(orderTicket := Or(g.row.orderTicket, Found(records, OrderComment(g.row.signalId)))))
    else g.(row := g.row.(status := Retired))
  }

  function JudgedFirst(guards: seq<Guard>, trades: seq<Trade>, records: seq<Evidence>, cutoff: int,
      n: nat): (r: seq<Guard>)
    requires n <= |guards|
    ensures |r| == |guards|
    ensures forall k :: 0 <= k < |r| ==> r[k] == if k < n then Judged(guards[k], trades, records, cutoff) else guards[k]
  {
    if n == 0 then guards
    else JudgedFirst(guards, trades, records, cutoff, n - 1)[n - 1 := Judged(guards[n - 1], trades, records, cutoff)]
  }

  // A retired guard abandons the signal that is still NEW.
  function AbandonedFirst(signals: map<string, SignalRow>, guards: seq<Guard>, trades: seq<Trade>,
      records: seq<Evidence>, cutoff: int, n: nat): map<string, SignalRow>
    requires n <= |guards|
  {
    if n == 0 then signals
    else
      AbandonedOne(AbandonedFirst(signals, guards, trades, records, cutoff, n - 1), guards[n - 1], trades, records,
        cutoff)
  }

  function AbandonedOne(before: map<string, SignalRow>, g: Guard, trades: seq<Trade>, records: seq<Evidence>,
      cutoff: int): map<string, SignalRow> {
    if Retires(g, trades, records, cutoff) && g.row.signalId in before && before[g.row.signalId].status == New
    then before[g.row.signalId := before[g.row.signalId].(status := Status.Abandoned)] else before
  }

  // What a judgement of one guard counts as.
  datatype Retained = Untouched | Kept | Dropped

  datatype Tables = Tables(accounts: Accounts, guards: seq<Guard>, signals: map<string, SignalRow>)

  // What the gateway gives the run.
  datatype Broker = Broker(history: Listing<Deal>, orders: Listing<Evidence>, live: Listing<Evidence>)

  // The run goes through to the guards: no listing came back as None.
  predicate Answered(b: Broker) {
    !b.history.Unanswered? && !b.orders.Unanswered? && !b.live.Unanswered?
  }

  predicate InWindow(d: Deal, start: int, end: int) {
    d.time.Some? ==> start - 300 <= d.time.value <= end + 300
  }

  function Windowed(deals: seq<Deal>, start: int, end: int): seq<Deal> {
    Filter(deals, d => InWindow(d, start, end))
  }

  function FeedOf(s: Settings, deals: seq<Deal>, moment: int): Feed {
    Feed(PositionsOf(deals, s.magic), s.matchWindow, moment)
  }

  // Every record of the broker that could belong to a reserved order.
  function RecordsOf(b: Broker, deals: seq<Deal>): seq<Evidence>
    requires Returned(b.orders).Some? && Returned(b.live).Some?
  {
    DealEvidence(deals) + Returned(b.orders).value + Returned(b.live).value
  }

  // The guard half, on the trades as the matching half left them.
  function Retirement(t: Tables, b: Broker, deals: seq<Deal>, cutoff: int): Tables {
    if Returned(b.orders).None? || Returned(b.live).None? then t
    else
      var records := RecordsOf(b, deals);
      Tables(t.accounts, JudgedFirst(t.guards, t.accounts.trades, records, cutoff, |t.guards|),
             AbandonedFirst(t.signals, t.guards, t.accounts.trades, records, cutoff, |t.guards|))
  }

  function RecentDeals(s: Settings, history: seq<Deal>, moment: int): seq<Deal> {
    Windowed(history, moment - 3600 * s.lookbackHours, moment)
  }

  function AfterRun(t: Tables, s: Settings, b: Broker, moment: int): Tables {
    if Returned(b.history).None? then t
    else
      var deals := RecentDeals(s, Returned(b.history).value, moment);
      Retirement(t.(accounts := Reconciled(t.accounts, FeedOf(s, deals, moment))), b, deals, moment - s.staleSeconds)
  }

  predicate WasRetired(g: Guard, h: Guard) {
    g.row.status != Retired && h.row.status == Retired
  }

  // Old enough to be judged, and not retired.
  predicate WasKept(g: Guard, h: Guard, cutoff: int) {
    g.row.status == Pending && g.row.createdAt <= cutoff && h.row.status != Retired
  }

  // The guards, among the first n, that were retired, or judged and kept, between the two tables.
  function NewlyRetired(before: seq<Guard>, after: seq<Guard>, n: nat): nat
    requires n <= |before| == |after|
  {
    if n == 0 then 0
    else NewlyRetired(before, after, n - 1) + if WasRetired(before[n - 1], after[n - 1]) then 1 else 0
  }

  function OnceKept(before: seq<Guard>, after: seq<Guard>, cutoff: int, n: nat): nat
    requires n <= |before| == |after|
  {
    if n == 0 then 0
    else OnceKept(before, after, cutoff, n - 1) + if WasKept(before[n - 1], after[n - 1], cutoff) then 1 else 0
  }

  lemma {:induction false} SameJudged(before: seq<Guard>, middle: seq<Guard>, after: seq<Guard>, cutoff: int, n: nat)
    requires n <= |before| == |middle| == |after| && middle[..n] == after[..n]
    ensures NewlyRetired(before, after, n) == NewlyRetired(before, middle, n)
    ensures OnceKept(before, after, cutoff, n) == OnceKept(before, middle, cutoff, n)
  {
    if n > 0 {
      assert middle[..n][..n - 1] == middle[..n - 1] && after[..n][..n - 1] == after[..n - 1];
      assert middle[n - 1] == middle[..n][n - 1] == after[..n][n - 1] == after[n - 1];
      SameJudged(before, middle, after, cutoff, n - 1);
    }
  }

  // The trades, among the first n, that were matched in one way, or missed, or whose row changed.
  function MatchedNumber(trades: seq<Trade>, matched: map<nat, Pair>, kind: Kind, n: nat): nat
    requires n <= |trades|
  {
    if n == 0 then 0
    else
      MatchedNumber(trades, matched, kind, n - 1)
      + if trades[n - 1].id in matched && matched[trades[n - 1].id].kind == kind then 1 else 0
  }

  function MissedNumber(trades: seq<Trade>, matched: map<nat, Pair>, n: nat): nat
    requires n <= |trades|
  {
    if n == 0 then 0
    else
      MissedNumber(trades, matched, n - 1)
      + if trades[n - 1].id !in matched
        && trades[n - 1].status in {Executed, Submitted, Closed, PartiallyClosed, Failed}
        then 1 else 0
  }

  function ChangedNumber(before: seq<Trade>, after: seq<Trade>, n: nat): nat
    requires n <= |before| == |after|
  {
    if n == 0 then 0 else ChangedNumber(before, after, n - 1) + if after[n - 1] != before[n - 1] then 1 else 0
  }

  datatype Tally = Tally(byTicket: nat, byFallback: nat, updated: nat, same: nat, missed: nat)

  // One considered trade, before and after its turn.
  function Noted(tally: Tally, before: Trade, after: Trade, matched: map<nat, Pair>): Tally {
    if before.id in matched then
      Tally(
        tally.byTicket + (if matched[before.id].kind == Ticket then 1 else 0),
        tally.byFallback + (if matched[before.id].kind == Ticket then 0 else 1),
        tally.updated + (if after != before then 1 else 0), tally.same + (if after != before then 0 else 1),
        tally.missed)
    else tally.(missed := tally.missed + if Matchable(before.status) then 1 else 0)
  }

  function TallyOf(before: seq<Trade>, after: seq<Trade>, matched: map<nat, Pair>, n: nat): Tally
    requires n <= |before| == |after|
  {
    if n == 0 then Tally(0, 0, 0, 0, 0)
    else Noted(TallyOf(before, after, matched, n - 1), before[n - 1], after[n - 1], matched)
  }

  lemma {:induction false} SameTally(before: seq<Trade>, middle: seq<Trade>, after: seq<Trade>,
      matched: map<nat, Pair>, n: nat)
    requires n <= |before| == |middle| == |after| && middle[..n] == after[..n]
    ensures TallyOf(before, after, matched, n) == TallyOf(before, middle, matched, n)
  {
    if n > 0 {
      assert middle[..n][..n - 1] == middle[..n - 1] && after[..n][..n - 1] == after[..n - 1];
      assert middle[n - 1] == middle[..n][n - 1] == after[..n][n - 1] == after[n - 1];
      SameTally(before, middle, after, matched, n - 1);
    }
  }

  // An unmatched trade keeps its row.
  predicate OnlyMatchedChange(before: seq<Trade>, after: seq<Trade>, matched: map<nat, Pair>)
    requires |before| == |after|
  {
    forall k :: 0 <= k < |before| && before[k].id !in matched ==> after[k] == before[k]
  }

  lemma {:induction false} TallyIs(before: seq<Trade>, after: seq<Trade>, matched: map<nat, Pair>, n: nat)
    requires n <= |before| == |after| && OnlyMatchedChange(before, after, matched)
    ensures var t := TallyOf(before, after, matched, n);
      && t.byTicket == MatchedNumber(before, matched, Ticket, n)
      && t.byFallback == MatchedNumber(before, matched, Fallback, n)
      && t.updated == ChangedNumber(before, after, n) && t.missed == MissedNumber(before, matched, n)
      && t.byTicket + t.byFallback == t.updated + t.same
  {
    if n > 0 { TallyIs(before, after, matched, n - 1); }
  }

  // The counters say what happened: matches by kind, rows that changed, trades without a position, and
  // positions without a trade.
  predicate Counted(c: Counts, before: seq<Trade>, after: seq<Trade>, matched: map<nat, Pair>, left: seq<Position>)
    requires |before| == |after|
  {
    && c.byTicket == MatchedNumber(before, matched, Ticket, |before|)
    && c.byFallback == MatchedNumber(before, matched, Fallback, |before|)
    && c.updated == ChangedNumber(before, after, |before|)
    && c.unmatchedLocal == MissedNumber(before, matched, |before|)
    && c.unmatchedBroker == |left|
    && c.byTicket + c.byFallback == c.updated + c.same && c.considered == c.updated + c.same + c.unmatchedLocal
  }

  // The positions no trade was matched with.
  function LeftBy(trades: seq<Trade>, f: Feed): seq<Position> {
    Remainder(f.positions, MatchAll(Considered(trades), f.positions, f.window).taken)
  }

  // A row is updated exactly when it changes.
  lemma ChangesIff(t: Trade, p: Position, moment: int)
    ensures ApplyTo(t, p, moment) != t <==> Updates(t, p)
  {
  }

  class Reconciler {
    const settings: Settings
    const store: RiskStateStore
    var trades: seq<Trade>
    var guards: seq<Guard>
    var signals: map<string, SignalRow>

    constructor (settings: Settings, store: RiskStateStore)
      ensures this.settings == settings && this.store == store
      ensures trades == [] && guards == [] && signals == map[]
    {
      this.settings, this.store := settings, store;
      trades, guards, signals := [], [], map[];
    }

    ghost function Contents(): Tables
      reads this, store
    {
      Tables(Accounts(trades, store.rows), guards, signals)
    }

    method Run(broker: Broker, moment: int) returns (s: Summary)
      requires UniqueIds(trades)
      modifies this, store
      ensures Contents() == AfterRun(old(Contents()), settings, broker, moment)
      ensures s.Unreadable? <==> broker.history.Unanswered?
      ensures s.Unreadable? || TotalPnl(store.rows) == old(TotalPnl(store.rows)) + s.counts.pnlApplied
      ensures s.Complete? <==> Answered(broker)
      ensures s.Complete? ==>
        |guards| == |old(guards)| && s.retired == NewlyRetired(old(guards), guards, |guards|)
        && s.kept == OnceKept(old(guards), guards, moment - settings.staleSeconds, |guards|)
      ensures !s.Unreadable? ==>
        var deals := RecentDeals(settings, Returned(broker.history).value, moment);
        s.ignored == |Filter(deals, Foreign(settings.magic))|
          && |trades| == |old(trades)|
          && Counted(s.counts, old(trades), trades, MatchedBy(old(trades), FeedOf(settings, deals, moment)),
            LeftBy(old(trades), FeedOf(settings, deals, moment)))
    {
      var history := Returned(broker.history);
      if history.None? {
        return Unreadable;
      }
      var deals := RecentDeals(settings, history.value, moment);
      var ignored, counts := MatchHistory(deals, moment);
      var read, retired, kept := RetireOnEvidence(broker, deals, moment - settings.staleSeconds);
      s := if read then Complete(ignored, counts, retired, kept) else Partial(ignored, counts);
    }

    // The matching half of the run.
    method MatchHistory(deals: seq<Deal>, moment: int) returns (ignored: nat, counts: Counts)
      requires UniqueIds(trades)
      modifies this`trades, store
      ensures var before, f := old(Accounts(trades, store.rows)), FeedOf(settings, deals, moment);
        && Accounts(trades, store.rows) == Reconciled(before, f)
        && |trades| == |before.trades|
        && Counted(counts, before.trades, trades, MatchedBy(before.trades, f), LeftBy(before.trades, f))
      ensures ignored == |Filter(deals, Foreign(settings.magic))|
      ensures TotalPnl(store.rows) == old(TotalPnl(store.rows)) + counts.pnlApplied
    {
      var positions;
      positions, ignored := GroupDeals(deals, settings.magic);
      counts := ApplyPositions(positions, moment);
    }

    // Guards are left alone when open orders or live positions came back as None; the empty tuple of a
    // disconnected terminal does not stop it.
    method RetireOnEvidence(broker: Broker, deals: seq<Deal>, cutoff: int) returns (read: bool, retired: nat, kept: nat)
      modifies this`guards, this`signals
      ensures Contents() == Retirement(old(Contents()), broker, deals, cutoff)
      ensures read <==> !broker.orders.Unanswered? && !broker.live.Unanswered?
      ensures read ==> |guards| == |old(guards)| && retired == NewlyRetired(old(guards), guards, |guards|)
      ensures read ==> |guards| == |old(guards)| && kept == OnceKept(old(guards), guards, cutoff, |guards|)
    {
      retired, kept := 0, 0;
      var orders, live := Returned(broker.orders), Returned(broker.live);
      read := orders.Some? && live.Some?;
      if read {
        retired, kept := RetireStaleGuards(DealEvidence(deals) + orders.value + live.value, cutoff);
      }
    }

    method ApplyPositions(positions: seq<Position>, moment: int) returns (c: Counts)
      requires UniqueIds(trades)
      modifies this`trades, store
      ensures var before, f := old(Accounts(trades, store.rows)), Feed(positions, settings.matchWindow, moment);
        && Accounts(trades, store.rows) == Reconciled(before, f)
        && |trades| == |before.trades|
        && Counted(c, before.trades, trades, MatchedBy(before.trades, f), LeftBy(before.trades, f))
      ensures TotalPnl(store.rows) == old(TotalPnl(store.rows)) + c.pnlApplied
    {
      ghost var before := Accounts(trades, store.rows);
      ConsideredIds(trades);
      var matched, unmatchedBroker := Match(Considered(trades), positions, settings.matchWindow);
      var tally, pnlApplied := ApplyMatches(matched, moment);
      TallyIs(before.trades, trades, matched, |trades|);
      c := Counts(tally.updated + tally.same + tally.missed, tally.byTicket, tally.byFallback, tally.updated,
        tally.same, |unmatchedBroker|, tally.missed, pnlApplied);
    }

    // The loop over the trades.
    method ApplyMatches(matched: map<nat, Pair>, moment: int) returns (tally: Tally, pnlApplied: real)
      modifies this`trades, store
      ensures var before := old(Accounts(trades, store.rows));
        && Accounts(trades, store.rows) == ApplyFirst(before, matched, moment, |before.trades|)
        && |trades| == |before.trades| && tally == TallyOf(before.trades, trades, matched, |trades|)
      ensures TotalPnl(store.rows) == old(TotalPnl(store.rows)) + pnlApplied
    {
      ghost var before := Accounts(trades, store.rows);
      tally, pnlApplied := Tally(0, 0, 0, 0, 0), 0.0;
      var n := 0;
      while n < |trades|
        invariant n <= |trades| == |before.trades|
        invariant Accounts(trades, store.rows) == ApplyFirst(before, matched, moment, n)
        invariant tally == TallyOf(before.trades, trades, matched, n)
        invariant TotalPnl(store.rows) == TotalPnl(before.days) + pnlApplied
      {
        ghost var middle := trades;
        assert trades[n] == before.trades[n];
        var next, booked := ApplyMatch(n, matched, moment, tally);
        SameTally(before.trades, middle, trades, matched, n);
        tally, pnlApplied := next, pnlApplied + booked;
        n := n + 1;
      }
    }

    // One turn of the loop.
    method ApplyMatch(n: nat, matched: map<nat, Pair>, moment: int, tally: Tally) returns (next: Tally, booked: real)
      requires n < |trades|
      modifies this`trades, store
      ensures var t := old(trades[n]);
        && trades == (if t.id in matched then old(trades)[n := ApplyTo(t, matched[t.id].position, moment)]
          else old(trades))
        && store.rows == (if t.id in matched then BookedDays(old(store.rows), t, matched[t.id].position, moment)
          else old(store.rows))
        && next == Noted(tally, t, trades[n], matched)
      ensures TotalPnl(store.rows) == old(TotalPnl(store.rows)) + booked
    {
      var trade := trades[n];
      next, booked := tally, 0.0;
      if trade.id in matched {
        var changed;
        changed, booked := Apply(n, matched[trade.id].position, moment);
        ChangesIff(trade, matched[trade.id].position, moment);
        if matched[trade.id].kind == Ticket {
          next := next.(byTicket := next.byTicket + 1);
        } else {
          next := next.(byFallback := next.byFallback + 1);
        }
        next := if changed then next.(updated := next.updated + 1) else next.(same := next.same + 1);
      } else if Matchable(trade.status) {
        next := next.(missed := next.missed + 1);
      }
    }

    method Apply(n: nat, position: Position, moment: int) returns (changed: bool, booked: real)
      requires n < |trades|
      modifies this`trades, store
      ensures trades == old(trades)[n := ApplyTo(old(trades[n]), position, moment)]
      ensures store.rows == BookedDays(old(store.rows), old(trades[n]), position, moment)
      ensures changed == Updates(old(trades[n]), position) && booked == Booking(old(trades[n]), position)
      ensures TotalPnl(store.rows) == old(TotalPnl(store.rows)) + booked
    {
      var trade := trades[n];
      var values := Proposed(trade, position);
      booked := 0.0;
      changed := Differs(trade, values);
      if !changed {
        return;
      }
      var before := NetPnl(trade);
      trades := trades[n := values.(reconciledAt := Some(moment))];
      if position.closeTime.Some? {
        var delta := NetPnl(trades[n]) - before;
        if Abs(delta) > TOLERANCE {
          BookingAddsUp(store.rows, delta, position.closeTime.value / SECONDS_PER_DAY, moment);
          store.AddRealizedPnl(delta, position.closeTime.value / SECONDS_PER_DAY, moment);
          booked := delta;
        }
      }
    }

    method RetireStaleGuards(records: seq<Evidence>, cutoff: int) returns (retired: nat, kept: nat)
      modifies this`guards, this`signals
      ensures guards == JudgedFirst(old(guards), trades, records, cutoff, |old(guards)|)
      ensures signals == AbandonedFirst(old(signals), old(guards), trades, records, cutoff, |old(guards)|)
      ensures |guards| == |old(guards)| && retired == NewlyRetired(old(guards), guards, |guards|)
        && kept == OnceKept(old(guards), guards, cutoff, |guards|)
    {
      retired, kept := 0, 0;
      var n := 0;
      while n < |guards|
        invariant n <= |guards| == |old(guards)|
        invariant guards == JudgedFirst(old(guards), trades, records, cutoff, n)
        invariant signals == AbandonedFirst(old(signals), old(guards), trades, records, cutoff, n)
        invariant retired == NewlyRetired(old(guards), guards, n) && kept == OnceKept(old(guards), guards, cutoff, n)
      {
        ghost var middle := guards;
        var outcome := JudgeOne(n, records, cutoff);
        SameJudged(old(guards), middle, guards, cutoff, n);
        if outcome == Kept { kept := kept + 1; } else if outcome == Dropped { retired := retired + 1; }
        n := n + 1;
      }
    }

    // One guard of the loop, in place.
    method JudgeOne(n: nat, records: seq<Evidence>, cutoff: int) returns (outcome: Retained)
      requires n < |guards|
      modifies this`guards, this`signals
      ensures guards == old(guards)[n := Judged(old(guards)[n], trades, records, cutoff)]
      ensures signals == AbandonedOne(old(signals), old(guards)[n], trades, records, cutoff)
      ensures outcome == Dropped <==> WasRetired(old(guards)[n], guards[n])
      ensures outcome == Kept <==> WasKept(old(guards)[n], guards[n], cutoff)
    {
      var guard := guards[n];
      outcome := Untouched;
      if guard.row.status == Pending && guard.row.createdAt <= cutoff {
        var local := LocalTrade(trades, guard.row.signalId);
        var found := Found(records, OrderComment(guard.row.signalId));
        if local.Some? && Accepted(local.value.status) {
          guards := guards[n :=
            guard.(row :=
            guard.row.(status := local.value.status,
            orderTicket := Or(local.value.orderTicket, guard.row.orderTicket)))];
          outcome := Kept;
        } else if found.Some? {
          guards := guards[n := guard.(row := guard.row.(orderTicket := Or(guard.row.orderTicket, found)))];
          outcome := Kept;
        } else {
          guards := guards[n := guard.(row := guard.row.(status := Retired))];
          outcome := Dropped;
          AbandonSignal(guard.row.signalId);
        }
      }
    }

    method AbandonSignal(signalId: string)
      modifies this`signals
      ensures signals == if signalId in old(signals) && old(signals)[signalId].status == New
                         then old(signals)[signalId := old(signals)[signalId].(status := Abandoned)] else old(signals)
    {
      if signalId in signals && signals[signalId].status == New {
        signals := signals[signalId := signals[signalId].(status := Abandoned)];
      }
    }
  }

  // ------------------------------------------------------------------ what the run reads

  predicate LetterOrDigit(c: char) {
    ('a' <= c && c <= 'z') || ('A' <= c && c <= 'Z') || ('0' <= c && c <= '9')
  }

  // The comment of an order: "bot-" and the first 24 characters of the id, with a dash for each that is
  // neither a letter nor a digit nor an underscore.
  lemma OrderCommentIs(id: string)
    ensures var comment := OrderComment(id);
      && |comment| == 4 + (if |id| <= 24 then |id| else 24) && comment[..4] == "bot-"
      && forall i :: 4 <= i < |comment| ==>
           comment[i] == if LetterOrDigit(id[i - 4]) || id[i - 4] == '_' then id[i - 4] else '-'
  {
  }

  // So ids of at most 24 such characters are told apart by their comments.
  lemma ShortIdsHaveTheirOwnComment(id: string, other: string)
    requires |id| <= 24 && |other| <= 24 && OrderComment(id) == OrderComment(other)
    requires forall i :: 0 <= i < |id| ==> LetterOrDigit(id[i])
    requires forall i :: 0 <= i < |other| ==> LetterOrDigit(other[i])
    ensures id == other
  {
    OrderCommentIs(id);
    OrderCommentIs(other);
    forall i | 0 <= i < |id| ensures id[i] == other[i] {
      assert OrderComment(id)[i + 4] == OrderComment(other)[i + 4];
    }
  }

  // A run that was answered applies the positions of its recent deals, with the configured magic number and
  // matching window, at its own moment; a history of None applies nothing.
  lemma RunAppliesRecentPositions(t: Tables, s: Settings, b: Broker, moment: int)
    ensures AfterRun(t, s, b, moment).accounts
      == match b.history
         case Unanswered => t.accounts
         case Disconnected => Reconciled(t.accounts, Feed(PositionsOf([], s.magic), s.matchWindow, moment))
         case Listed(deals) => (
           Reconciled(t.accounts,
             Feed(PositionsOf(RecentDeals(s, deals, moment), s.magic), s.matchWindow, moment)))
  {
    NothingWindowed(s, moment);
  }

  // The run looks at the deals of the history that are undated or dated within the lookback, widened by
  // five minutes on both sides.
  lemma {:induction false} RecentDealsAre(s: Settings, history: seq<Deal>, moment: int)
    ensures forall d :: d in RecentDeals(s, history, moment) <==>
      d in history && (d.time.None?
        || moment - 3600 * s.lookbackHours - 300 <= d.time.value <= moment + 300)
  {
    var start := moment - 3600 * s.lookbackHours;
    KeptDeals(history, d => InWindow(d, start, moment));
  }

  lemma {:induction false} KeptDeals(rows: seq<Deal>, keep: Deal -> bool)
    ensures forall d :: d in Filter(rows, keep) <==> d in rows && keep(d)
  {
    if rows != [] {
      KeptDeals(rows[..|rows| - 1], keep);
      assert rows == rows[..|rows| - 1] + [rows[|rows| - 1]];
    }
  }

  // The number a deal goes by: its own, else its order's, else its position's.
  predicate GoesBy(d: Deal, ticket: Option<string>) {
    if d.ticket.Some? then ticket == d.ticket else if d.order.Some? then ticket == d.order else ticket == d.positionId
  }

  predicate FromDeal(e: Evidence, deals: seq<Deal>) {
    exists k :: 0 <= k < |deals| && deals[k].comment == e.comment && GoesBy(deals[k], e.ticket)
  }

  // The records that can confirm a guard are the deals, the open orders and the live positions.
  lemma RecordsAre(b: Broker, deals: seq<Deal>)
    requires Returned(b.orders).Some? && Returned(b.live).Some?
    ensures forall e :: e in RecordsOf(b, deals) <==>
      FromDeal(e, deals) || e in Returned(b.orders).value || e in Returned(b.live).value
  {
    var records := DealEvidence(deals);
    forall e ensures e in records <==> FromDeal(e, deals) {
      if FromDeal(e, deals) {
        var k :| 0 <= k < |deals| && deals[k].comment == e.comment && GoesBy(deals[k], e.ticket);
        assert records[k] == e;
      }
      if e in records {
        var k :| 0 <= k < |records| && records[k] == e;
        assert GoesBy(deals[k], e.ticket);
      }
    }
  }

  // What becomes of one guard: nothing unless it is PENDING and old enough; then it takes the status and
  // the ticket of its accepted trade; else the ticket of a broker record with its comment; else RETIRED.
  lemma GuardBecomes(g: Guard, trades: seq<Trade>, records: seq<Evidence>, cutoff: int)
    ensures var h, local, found := Judged(g, trades, records, cutoff), LocalTrade(trades, g.row.signalId),
        Found(records, OrderComment(g.row.signalId));
      && h.key == g.key && h.row.signalId == g.row.signalId && h.row.createdAt == g.row.createdAt
      && (if g.row.status != Pending || g.row.createdAt > cutoff then h == g
          else if local.Some? && local.value.status in {Executed, Submitted} then
            h.row.status == local.value.status
              && h.row.orderTicket
                == (if local.value.orderTicket.Some? then local.value.orderTicket else g.row.orderTicket)
          else if found.Some? then
            h.row.status == Pending
              && h.row.orderTicket == (if g.row.orderTicket.Some? then g.row.orderTicket else found)
          else h.row.status == Retired && h.row.orderTicket == g.row.orderTicket)
  {
  }

  // A guard's trade is the first of that id.
  lemma {:induction false} LocalTradeIs(trades: seq<Trade>, tradeId: string)
    ensures var r := LocalTrade(trades, tradeId);
      if r.None? then forall k :: 0 <= k < |trades| ==> trades[k].tradeId != tradeId
      else r.value in trades && r.value.tradeId == tradeId
  {
    if trades != [] && trades[0].tradeId != tradeId { LocalTradeIs(trades[1..], tradeId); }
  }

  predicate FirstTicket(records: seq<Evidence>, comment: string, ticket: string, n: int) {
    && 0 <= n < |records| && records[n] == Evidence(Some(comment), Some(ticket))
    && forall i :: 0 <= i < n && records[i].comment == Some(comment) ==> records[i].ticket.None?
  }

  // The record found is the first that carries the comment and a ticket.
  lemma {:induction false} FoundIsTheFirst(records: seq<Evidence>, comment: string)
    requires Found(records, comment).Some?
    ensures exists n :: FirstTicket(records, comment, Found(records, comment).value, n)
  {
    var m := |records| - 1;
    var front := records[..m];
    if Found(front, comment).Some? {
      FoundIsTheFirst(front, comment);
      var n :| FirstTicket(front, comment, Found(front, comment).value, n);
      assert FirstTicket(records, comment, Found(records, comment).value, n);
    } else {
      NotFound(front, comment);
      assert forall i :: 0 <= i < m ==> records[i] in front;
      assert FirstTicket(records, comment, Found(records, comment).value, m);
    }
  }

  // ------------------------------------------------------------------ main results

  // A guard judged once is judged the same way again, and is not retired a second time.
  lemma JudgedTwice(g: Guard, trades: seq<Trade>, records: seq<Evidence>, cutoff: int)
    ensures var h := Judged(g, trades, records, cutoff);
      Judged(h, trades, records, cutoff) == h && !Retires(h, trades, records, cutoff)
  {
  }

  lemma {:induction false} NothingToAbandon(signals: map<string, SignalRow>, guards: seq<Guard>, trades: seq<Trade>,
      records: seq<Evidence>, cutoff: int, n: nat)
    requires n <= |guards| && forall k :: 0 <= k < |guards| ==> !Retires(guards[k], trades, records, cutoff)
    ensures AbandonedFirst(signals, guards, trades, records, cutoff, n) == signals
  {
    if n > 0 { NothingToAbandon(signals, guards, trades, records, cutoff, n - 1); }
  }

  lemma GuardsTwice(signals: map<string, SignalRow>, guards: seq<Guard>, trades: seq<Trade>, records: seq<Evidence>,
      cutoff: int)
    ensures var once := JudgedFirst(guards, trades, records, cutoff, |guards|);
      JudgedFirst(once, trades, records, cutoff, |once|) == once
        && AbandonedFirst(signals, once, trades, records, cutoff, |once|) == signals
  {
    var once := JudgedFirst(guards, trades, records, cutoff, |guards|);
    forall k | 0 <= k < |once|
      ensures Judged(once[k], trades, records, cutoff) == once[k] && !Retires(once[k], trades, records, cutoff) {
      JudgedTwice(guards[k], trades, records, cutoff);
    }
    NothingToAbandon(signals, once, trades, records, cutoff, |once|);
  }

  lemma RetirementTwice(t: Tables, b: Broker, deals: seq<Deal>, cutoff: int)
    ensures Retirement(Retirement(t, b, deals, cutoff), b, deals, cutoff) == Retirement(t, b, deals, cutoff)
  {
    if Returned(b.orders).Some? && Returned(b.live).Some? {
      GuardsTwice(Retirement(t, b, deals, cutoff).signals, t.guards, t.accounts.trades, RecordsOf(b, deals), cutoff);
    }
  }

  lemma RunIs(t: Tables, s: Settings, b: Broker, moment: int, deals: seq<Deal>, accounts: Accounts)
    requires Returned(b.history).Some? && deals == RecentDeals(s, Returned(b.history).value, moment)
      && accounts == Reconciled(t.accounts, FeedOf(s, deals, moment))
    ensures AfterRun(t, s, b, moment) == Retirement(t.(accounts := accounts), b, deals, moment - s.staleSeconds)
  {
  }

  lemma RetirementKeepsAccounts(t: Tables, b: Broker, deals: seq<Deal>, cutoff: int)
    ensures Retirement(t, b, deals, cutoff).accounts == t.accounts
  {
  }

  lemma AccountsTwice(a: Accounts, s: Settings, deals: seq<Deal>, moment: int)
    requires UniqueIds(a.trades) && DealsLeadHome(PositionsOf(deals, s.magic))
      && IdsLeadHome(PositionsOf(deals, s.magic))
    ensures var feed := FeedOf(s, deals, moment); Reconciled(Reconciled(a, feed), feed) == Reconciled(a, feed)
  {
    var feed := FeedOf(s, deals, moment);
    ReconciliationIsIdempotent(a, feed, moment);
    assert feed.(moment := moment) == feed;
  }

  // Running twice on the same answers and at the same moment is running once: no trade, no day row,
  // no guard and no signal changes the second time.
  lemma RunTwiceIsRunOnce(t: Tables, s: Settings, b: Broker, moment: int)
    requires UniqueIds(t.accounts.trades)
    requires Returned(b.history).Some? ==>
      var positions := PositionsOf(RecentDeals(s, Returned(b.history).value, moment), s.magic);
      DealsLeadHome(positions) && IdsLeadHome(positions)
    ensures AfterRun(AfterRun(t, s, b, moment), s, b, moment) == AfterRun(t, s, b, moment)
  {
    if Returned(b.history).Some? {
      var deals := RecentDeals(s, Returned(b.history).value, moment);
      var accounts, cutoff := Reconciled(t.accounts, FeedOf(s, deals, moment)), moment - s.staleSeconds;
      var once := Retirement(t.(accounts := accounts), b, deals, cutoff);
      AccountsTwice(t.accounts, s, deals, moment);
      RetirementKeepsAccounts(t.(accounts := accounts), b, deals, cutoff);
      RunIs(t, s, b, moment, deals, accounts);
      RunIs(once, s, b, moment, deals, accounts);
      assert once.(accounts := accounts) == once;
      RetirementTwice(t.(accounts := accounts), b, deals, cutoff);
    }
  }

  // ------------------------------------------------------------------ which guards are retired

  predicate NoTicketFor(records: seq<Evidence>, comment: string) {
    forall e :: e in records && e.comment == Some(comment) ==> e.ticket.None?
  }

  lemma {:induction false} NotFound(records: seq<Evidence>, comment: string)
    ensures Found(records, comment).None? <==> NoTicketFor(records, comment)
  {
    if records != [] {
      var front, last := records[..|records| - 1], records[|records| - 1];
      NotFound(front, comment);
      assert records == front + [last];
    }
  }

  // The run retires the k-th guard.
  predicate RunRetires(t: Tables, s: Settings, b: Broker, moment: int, k: nat)
    requires k < |t.guards| == |AfterRun(t, s, b, moment).guards|
  {
    t.guards[k].row.status != Retired && AfterRun(t, s, b, moment).guards[k].row.status == Retired
  }

  // The deals the run looked at.
  function SeenDeals(s: Settings, b: Broker, moment: int): seq<Deal> {
    if b.history.Listed? then RecentDeals(s, b.history.rows, moment) else []
  }

  // No run removes or re-keys a guard.
  lemma GuardsKeepTheirPlace(t: Tables, s: Settings, b: Broker, moment: int, k: nat)
    requires k < |t.guards|
    ensures |AfterRun(t, s, b, moment).guards| == |t.guards|
      && AfterRun(t, s, b, moment).guards[k].key == t.guards[k].key
  {
  }

  // A guard is retired exactly when no listing came back as None and it is PENDING, stale, not
  // confirmed by the trades as the run left them, and no record that was listed carries its comment
  // with a ticket.
  lemma RetiredIff(t: Tables, s: Settings, b: Broker, moment: int, k: nat)
    requires k < |t.guards|
    ensures |AfterRun(t, s, b, moment).guards| == |t.guards|
    ensures RunRetires(t, s, b, moment, k) <==>
      && Answered(b) && Due(t.guards[k], moment - s.staleSeconds)
      && !Confirmed(t.guards[k], AfterRun(t, s, b, moment).accounts.trades)
      && NoTicketFor(RecordsOf(b, SeenDeals(s, b, moment)), OrderComment(t.guards[k].row.signalId))
  {
    GuardsKeepTheirPlace(t, s, b, moment, k);
    if Answered(b) {
      var deals := RecentDeals(s, Returned(b.history).value, moment);
      NothingWindowed(s, moment);
      assert deals == SeenDeals(s, b, moment);
      NotFound(RecordsOf(b, deals), OrderComment(t.guards[k].row.signalId));
    }
  }

  lemma NothingWindowed(s: Settings, moment: int)
    ensures RecentDeals(s, [], moment) == []
  {
  }

  lemma {:induction false} NewSignalIsAbandoned(signals: map<string, SignalRow>, guards: seq<Guard>,
      trades: seq<Trade>, records: seq<Evidence>, cutoff: int, n: nat, k: nat)
    requires k < n <= |guards| && Retires(guards[k], trades, records, cutoff)
    requires guards[k].row.signalId in signals && signals[guards[k].row.signalId].status in {New, Status.Abandoned}
    ensures var after := AbandonedFirst(signals, guards, trades, records, cutoff, n);
      guards[k].row.signalId in after && after[guards[k].row.signalId].status == Status.Abandoned
  {
    var id := guards[k].row.signalId;
    StillNewOrAbandoned(signals, guards, trades, records, cutoff, n - 1, id);
    if k < n - 1 { NewSignalIsAbandoned(signals, guards, trades, records, cutoff, n - 1, k); }
  }

  lemma {:induction false} StillNewOrAbandoned(signals: map<string, SignalRow>, guards: seq<Guard>, trades: seq<Trade>,
      records: seq<Evidence>, cutoff: int, n: nat, id: string)
    requires n <= |guards| && id in signals && signals[id].status in {New, Status.Abandoned}
    ensures var after := AbandonedFirst(signals, guards, trades, records, cutoff, n);
      id in after && after[id].status in {New, Status.Abandoned}
  {
    if n > 0 { StillNewOrAbandoned(signals, guards, trades, records, cutoff, n - 1, id); }
  }

  lemma NoPositionsNoChange(a: Accounts, f: Feed)
    requires UniqueIds(a.trades) && f.positions == []
    ensures Reconciled(a, f) == a
  {
    ConsideredIds(a.trades);
    MatchIsAMaximalInjection(Considered(a.trades), f.positions, f.window);
    var matched := MatchedBy(a.trades, f);
    assert matched.Keys == {};
    NothingToApply(a, matched, f.moment, |a.trades|);
  }

  const OFFLINE: Broker := Broker(Disconnected, Disconnected, Disconnected)

  // A run of a disconnected terminal judges every guard against nothing.
  lemma OfflineRun(t: Tables, s: Settings, moment: int)
    requires UniqueIds(t.accounts.trades)
    ensures var cutoff, n := moment - s.staleSeconds, |t.guards|;
      AfterRun(t, s, OFFLINE, moment) == Tables(t.accounts, JudgedFirst(t.guards, t.accounts.trades, [], cutoff, n),
                                                AbandonedFirst(t.signals, t.guards, t.accounts.trades, [], cutoff, n))
  {
    NothingWindowed(s, moment);
    assert PositionsOf([], s.magic) == [];
    NoPositionsNoChange(t.accounts, FeedOf(s, [], moment));
    assert RecordsOf(OFFLINE, []) == [];
  }

  // The module promises that the guards are left alone when MT5 cannot be read. That holds for an
  // answer of None. A disconnected terminal answers with empty tuples, and then every stale PENDING
  // guard without an accepted trade is retired, with nothing read, and its NEW signal abandoned.
  lemma DisconnectedTerminalRetires(t: Tables, s: Settings, moment: int, k: nat)
    requires k < |t.guards| && UniqueIds(t.accounts.trades)
    ensures |AfterRun(t, s, OFFLINE, moment).guards| == |t.guards|
    ensures RunRetires(t, s, OFFLINE, moment, k) <==>
      Due(t.guards[k], moment - s.staleSeconds) && !Confirmed(t.guards[k], t.accounts.trades)
    ensures var id, after := t.guards[k].row.signalId, AfterRun(t, s, OFFLINE, moment);
      RunRetires(t, s, OFFLINE, moment, k) && id in t.signals && t.signals[id].status == New ==>
        id in after.signals && after.signals[id].status == Status.Abandoned
  {
    var cutoff, id := moment - s.staleSeconds, t.guards[k].row.signalId;
    OfflineRun(t, s, moment);
    if Retires(t.guards[k], t.accounts.trades, [], cutoff) && id in t.signals && t.signals[id].status == New {
      NewSignalIsAbandoned(t.signals, t.guards, t.accounts.trades, [], cutoff, |t.guards|, k);
    }
  }

  // One such guard and its signal.
  lemma OfflineWitness()
    ensures var g := Guard("key", GuardRow("sig", Pending, 0, None));
      var t := Tables(Accounts([], []), [g], map["sig" := SignalRow(New, false, 0)]);
      var after := AfterRun(t, Settings(1, 300, 900, 168), OFFLINE, 900);
      && after.guards == [Guard("key", GuardRow("sig", Retired, 0, None))]
      && after.signals == map["sig" := SignalRow(Status.Abandoned, false, 0)]
  {
    var g := Guard("key", GuardRow("sig", Pending, 0, None));
    var t := Tables(Accounts([], []), [g], map["sig" := SignalRow(New, false, 0)]);
    var s := Settings(1, 300, 900, 168);
    OfflineRun(t, s, 900);
    assert Retires(g, [], [], 0);
    assert JudgedFirst([g], [], [], 0, 1) == [Judged(g, [], [], 0)];
    assert AbandonedFirst(t.signals, [g], [], [], 0, 0) == t.signals;
  }
}
