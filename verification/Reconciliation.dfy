/** Reconciler.run: the broker's history written over the local rows, the difference booked into the
    day of the close, and the stale guards judged. */
module Reconciliation {
  import opened Records
  import opened Grouping
  import opened Matching
  import opened RiskState

  const SECONDS_PER_DAY := 86400

  function Amount(x: Option<real>): real {
    if x.Some? then x.value else 0.0
  }

  function NetPnl(t: Trade): real {
    Amount(t.profit) + Amount(t.commission) + Amount(t.swap)
  }

  function Net(p: Position): real {
    p.profit + p.commission + p.swap
  }

  // ------------------------------------------------------------------ one row

  // The row with every column the broker's position proposes.
  function Proposed(t: Trade, p: Position): Trade {
    t.(executedPrice := Or(p.entryPrice, t.executedPrice),
       exitPrice := p.exitPrice,
       volumeClosed := if p.volumeClosed > 0.0 then Some(p.volumeClosed) else t.volumeClosed,
       commission := Some(p.commission),
       swap := Some(p.swap),
       profit := Some(p.profit),
       openTime := Or(p.openTime, t.openTime),
       closeTime := p.closeTime,
       dealTicket := Or(p.exitDeal, Or(p.entryDeal, t.dealTicket)),
       positionTicket := Some(p.id),
       orderTicket := Or(p.orderTicket, t.orderTicket),
       closeReason := Or(p.closeReason, t.closeReason),
       status := if p.closed then Closed else if p.volumeClosed > 0.0 then PartiallyClosed else t.status)
  }

  // _differs on numbers: a tolerance, and a missing number differs from any number.
  predicate RealDiffers(a: Option<real>, b: Option<real>) {
    if a.Some? && b.Some? then Abs(a.value - b.value) > TOLERANCE else a != b
  }

  predicate Differs(t: Trade, v: Trade) {
    || RealDiffers(t.executedPrice, v.executedPrice) || RealDiffers(t.exitPrice, v.exitPrice)
    || RealDiffers(t.volumeClosed, v.volumeClosed)
    || RealDiffers(t.commission, v.commission) || RealDiffers(t.swap, v.swap) || RealDiffers(t.profit, v.profit)
    || t.openTime != v.openTime || t.closeTime != v.closeTime
    || t.dealTicket != v.dealTicket || t.positionTicket != v.positionTicket || t.orderTicket != v.orderTicket
    || t.closeReason != v.closeReason || t.status != v.status
  }

  predicate Updates(t: Trade, p: Position) {
    Differs(t, Proposed(t, p))
  }

  function ApplyTo(t: Trade, p: Position, moment: int): Trade {
    if Updates(t, p) then Proposed(t, p).(reconciledAt := Some(moment)) else t
  }

  function Delta(t: Trade, p: Position): real {
    Net(p) - NetPnl(t)
  }

  predicate Books(t: Trade, p: Position) {
    Updates(t, p) && p.closeTime.Some? && Abs(Delta(t, p)) > TOLERANCE
  }

  // What one application books, and what it writes to the row without booking because no exit is dated.
  function Booking(t: Trade, p: Position): real {
    if Books(t, p) then Delta(t, p) else 0.0
  }

  function OpenWrite(t: Trade, p: Position): real {
    if Updates(t, p) && p.closeTime.None? then Delta(t, p) else 0.0
  }

  function BookedDays(days: seq<RiskRow>, t: Trade, p: Position, moment: int): seq<RiskRow> {
    if Books(t, p) then Applied(days, AddPnl(Delta(t, p)), p.closeTime.value / SECONDS_PER_DAY, moment) else days
  }

  // ------------------------------------------------------------------ one run

  datatype Accounts = Accounts(trades: seq<Trade>, days: seq<RiskRow>)

  function Considered(trades: seq<Trade>): seq<Trade> {
    if trades == [] then []
    else Considered(trades[..|trades| - 1]) + if Matchable(trades[|trades| - 1].status) then [trades[|trades| - 1]]
      else []
  }

  function Renewed(t: Trade, matched: map<nat, Pair>, moment: int): Trade {
    if t.id in matched then ApplyTo(t, matched[t.id].position, moment) else t
  }

  function ApplyFirst(a: Accounts, matched: map<nat, Pair>, moment: int, n: nat): (r: Accounts)
    requires n <= |a.trades|
    ensures |r.trades| == |a.trades|
    ensures forall k :: 0 <= k < |a.trades| ==> r.trades[k] == if k < n then Renewed(a.trades[k], matched, moment)
      else a.trades[k]
  {
    if n == 0 then a
    else
      var c, t := ApplyFirst(a, matched, moment, n - 1), a.trades[n - 1];
      if t.id !in matched then c
      else Accounts(c.trades[n - 1 := ApplyTo(t, matched[t.id].position, moment)],
        BookedDays(c.days, t, matched[t.id].position, moment))
  }

  // The rows after one run over the given broker positions.
  datatype Feed = Feed(positions: seq<Position>, window: int, moment: int)

  function MatchedBy(trades: seq<Trade>, f: Feed): map<nat, Pair> {
    MatchAll(Considered(trades), f.positions, f.window).matched
  }

  function Reconciled(a: Accounts, f: Feed): Accounts {
    ApplyFirst(a, MatchedBy(a.trades, f), f.moment, |a.trades|)
  }

  // ------------------------------------------------------------------ idempotence

  // The ticket that a run writes to a trade it matched with the position.
  function DealOf(p: Position): Option<string> {
    Or(p.exitDeal, p.entryDeal)
  }

  // Each position has a deal whose ticket the ticket table leads back to it.
  predicate DealsLeadHome(positions: seq<Position>) {
    && DistinctPositions(positions)
    && (forall i :: 0 <= i < |positions| ==>
          DealOf(positions[i]).Some? && Holder(positions, DealOf(positions[i]).value) == Some(positions[i]))
  }

  // No position's id is a ticket that leads to another position.
  predicate IdsLeadHome(positions: seq<Position>) {
    forall i :: 0 <= i < |positions| ==> Holder(positions, positions[i].id) in {None, Some(positions[i])}
  }

  // Applying one position a second time proposes nothing new.
  lemma ApplyIsStable(t: Trade, p: Position, moment: int)
    ensures !Updates(ApplyTo(t, p, moment), p)
    ensures ApplyTo(t, p, moment).positionTicket == Some(p.id)
    ensures ApplyTo(t, p, moment).dealTicket == Or(p.exitDeal, Or(p.entryDeal, t.dealTicket))
  {
    if Updates(t, p) {
      var u := ApplyTo(t, p, moment);
      assert Proposed(u, p) == u;
    }
  }

  // A row that was matched once finds its position by ticket as long as nobody else holds it.
  lemma RenewedFindsItsPosition(t: Trade, p: Position, moment: int, positions: seq<Position>, taken: set<string>)
    requires DealsLeadHome(positions) && IdsLeadHome(positions) && p in positions && p.id !in taken
    ensures TicketPick(ApplyTo(t, p, moment), positions, taken) == Some(p)
  {
    var u := ApplyTo(t, p, moment);
    ApplyIsStable(t, p, moment);
    var i :| 0 <= i < |positions| && positions[i] == p;
    assert u.dealTicket == DealOf(positions[i]);
    assert Holder(positions, positions[i].id) in {None, Some(positions[i])};
  }

  function RenewAll(trades: seq<Trade>, matched: map<nat, Pair>, moment: int): (r: seq<Trade>)
    ensures |r| == |trades| && forall k :: 0 <= k < |r| ==> r[k] == Renewed(trades[k], matched, moment)
  {
    seq(|trades|, k requires 0 <= k < |trades| => Renewed(trades[k], matched, moment))
  }

  // The part of a matching that belongs to some trades, every pair now a ticket pair.
  function Part(o: Outcome, ids: set<nat>): Outcome {
    Outcome(map id | id in o.matched && id in ids :: Pair(o.matched[id].position, Ticket),
            set id | id in o.matched && id in ids :: o.matched[id].position.id)
  }

  lemma PartGrows(o: Outcome, ids: set<nat>, t: Trade)
    requires t.id !in ids
    ensures Part(o, ids + {t.id}) == if t.id in o.matched then
      Took(Part(o, ids), t, Some(o.matched[t.id].position), Ticket) else Part(o, ids)
  {
    if t.id in o.matched {
      var more := Took(Part(o, ids), t, Some(o.matched[t.id].position), Ticket);
      assert Part(o, ids + {t.id}).matched == more.matched;
      assert Part(o, ids + {t.id}).taken == more.taken;
    } else {
      assert Part(o, ids + {t.id}).matched == Part(o, ids).matched;
      assert Part(o, ids + {t.id}).taken == Part(o, ids).taken;
    }
  }

  lemma StillFree(o: Outcome, ids: set<nat>, t: Trade, positions: seq<Position>)
    requires Sound(o, positions) && t.id in o.matched && t.id !in ids
    ensures o.matched[t.id].position.id !in Part(o, ids).taken
  {
  }

  // An unmatched trade had no free ticket at its own turn, and the second time no more is free.
  lemma UnmatchedStaysUnmatched(trades: seq<Trade>, positions: seq<Position>, window: int, n: nat)
    requires UniqueIds(trades) && n < |trades|
    requires trades[n].id !in MatchAll(trades, positions, window).matched
    ensures TicketPick(trades[n], positions, Part(MatchAll(trades, positions, window), IdSet(trades[..n])).taken).None?
  {
    var o, before := MatchAll(trades, positions, window), TicketPhase(trades[..n], positions);
    TicketPhaseGrows(trades, positions, n);
    TicketPhaseIsSound(trades, positions);
    TicketPhaseIsSound(trades[..n], positions);
    FallbackPhaseIsSound(trades, positions, window, TicketPhase(trades, positions));
    forall x | x in before.taken ensures x in Part(o, IdSet(trades[..n])).taken {
      var id :| id in before.matched && before.matched[id].position.id == x;
      assert id in o.matched && o.matched[id] == before.matched[id];
    }
    FreeShrinks(trades[n], positions, before.taken, Part(o, IdSet(trades[..n])).taken, window);
  }

  lemma {:induction false} SecondTicketPhase(trades: seq<Trade>, positions: seq<Position>, window: int, moment: int,
      n: nat, o: Outcome, again: seq<Trade>)
    requires UniqueIds(trades) && DealsLeadHome(positions) && IdsLeadHome(positions) && n <= |trades|
    requires o == MatchAll(trades, positions, window) && again == RenewAll(trades, o.matched, moment)
    ensures TicketPhase(again[..n], positions) == Part(o, IdSet(trades[..n]))
  {
    if n == 0 {
      assert Part(o, {}).matched == map[] && Part(o, {}).taken == {};
    } else {
      var t := trades[n - 1];
      SecondTicketPhase(trades, positions, window, moment, n - 1, o, again);
      assert trades[..n][..n - 1] == trades[..n - 1];
      TicketPhaseStep(again, positions, n);
      IdSetStep(trades[..n]);
      PartGrows(o, IdSet(trades[..n - 1]), t);
      SecondTurn(trades, positions, window, moment, n - 1);
    }
  }

  lemma TicketPhaseStep(trades: seq<Trade>, positions: seq<Position>, n: nat)
    requires 0 < n <= |trades|
    ensures var before := TicketPhase(trades[..n - 1], positions);
      TicketPhase(trades[..n], positions)
        == Took(before, trades[n - 1], TicketPick(trades[n - 1], positions, before.taken), Ticket)
  {
    assert trades[..n][..n - 1] == trades[..n - 1];
  }

  // At its turn of the second ticket phase, a trade takes its own position, or still nothing.
  lemma SecondTurn(trades: seq<Trade>, positions: seq<Position>, window: int, moment: int, k: nat)
    requires UniqueIds(trades) && DealsLeadHome(positions) && IdsLeadHome(positions) && k < |trades|
    ensures var o := MatchAll(trades, positions, window); var t, taken := trades[k], Part(o, IdSet(trades[..k])).taken;
      TicketPick(Renewed(t, o.matched, moment), positions, taken) == if t.id in o.matched then
        Some(o.matched[t.id].position) else None
  {
    var o, t := MatchAll(trades, positions, window), trades[k];
    MatchIsAMaximalInjection(trades, positions, window);
    if t.id in o.matched {
      IdSetStep(trades[..k + 1]);
      assert trades[..k + 1][..k] == trades[..k];
      StillFree(o, IdSet(trades[..k]), t, positions);
      RenewedFindsItsPosition(t, o.matched[t.id].position, moment, positions, Part(o, IdSet(trades[..k])).taken);
    } else {
      UnmatchedStaysUnmatched(trades, positions, window, k);
    }
  }

  lemma {:induction false} FallbackIdles(some: seq<Trade>, positions: seq<Position>, window: int, first: Outcome)
    requires forall k :: 0 <= k < |some| ==>
      some[k].id in first.matched || NoFreeFit(some[k], positions, first.taken, window)
    ensures FallbackPhase(some, positions, window, first) == first
  {
    if some != [] {
      FallbackIdles(some[..|some| - 1], positions, window, first);
      FallbackPickIs(some[|some| - 1], positions, first.taken, window);
    }
  }

  // A second run over the same positions pairs the same trades with the same positions, all by ticket.
  lemma RematchIsTheSame(trades: seq<Trade>, positions: seq<Position>, window: int, moment: int)
    requires UniqueIds(trades) && DealsLeadHome(positions) && IdsLeadHome(positions)
    ensures var o := MatchAll(trades, positions, window);
      MatchAll(RenewAll(trades, o.matched, moment), positions, window) == Part(o, IdSet(trades))
  {
    var o := MatchAll(trades, positions, window);
    var again := RenewAll(trades, o.matched, moment);
    SecondTicketPhase(trades, positions, window, moment, |trades|, o, again);
    assert trades[..|trades|] == trades && again[..|trades|] == again;
    AllIsIdle(trades, positions, window, o, again, Part(o, IdSet(trades)));
    FallbackIdles(again, positions, window, Part(o, IdSet(trades)));
  }

  // Every trade is matched already, or fits nothing that is left.
  lemma AllIsIdle(trades: seq<Trade>, positions: seq<Position>, window: int, o: Outcome, again: seq<Trade>,
      first: Outcome)
    requires UniqueIds(trades) && o == MatchAll(trades, positions, window) && first == Part(o, IdSet(trades))
    requires |again| == |trades| && forall k :: 0 <= k < |again| ==>
      again[k].id == trades[k].id && (trades[k].id !in o.matched ==> again[k] == trades[k])
    ensures forall k :: 0 <= k < |again| ==>
      again[k].id in first.matched || NoFreeFit(again[k], positions, first.taken, window)
  {
    MatchIsAMaximalInjection(trades, positions, window);
    assert first.taken == o.taken;
    forall k | 0 <= k < |again|
      ensures again[k].id in first.matched || NoFreeFit(again[k], positions, first.taken, window) {
      assert trades[k] in trades;
    }
  }

  lemma ApplyKeepsMatchable(t: Trade, p: Position, moment: int)
    requires Matchable(t.status)
    ensures Matchable(ApplyTo(t, p, moment).status) && ApplyTo(t, p, moment).id == t.id
  {
  }

  lemma {:induction false} ConsideredIds(trades: seq<Trade>)
    requires UniqueIds(trades)
    ensures UniqueIds(Considered(trades))
    ensures forall t :: t in Considered(trades) <==> t in trades && Matchable(t.status)
  {
    if trades != [] {
      ConsideredIds(trades[..|trades| - 1]);
      assert trades == trades[..|trades| - 1] + [trades[|trades| - 1]];
    }
  }

  lemma {:induction false} ConsideredRenewed(trades: seq<Trade>, matched: map<nat, Pair>, moment: int)
    requires forall k :: 0 <= k < |trades| && trades[k].id in matched ==> Matchable(trades[k].status)
    ensures Considered(RenewAll(trades, matched, moment)) == RenewAll(Considered(trades), matched, moment)
  {
    if trades != [] {
      var n := |trades| - 1;
      ConsideredRenewed(trades[..n], matched, moment);
      assert RenewAll(trades, matched, moment)[..n] == RenewAll(trades[..n], matched, moment);
      if trades[n].id in matched { ApplyKeepsMatchable(trades[n], matched[trades[n].id].position, moment); }
    }
  }

  // Only considered trades are matched.
  lemma MatchedAreConsidered(trades: seq<Trade>, f: Feed, k: nat)
    requires UniqueIds(trades) && k < |trades| && trades[k].id in MatchedBy(trades, f)
    ensures Matchable(trades[k].status) && MatchedBy(trades, f)[trades[k].id].position in f.positions
  {
    ConsideredIds(trades);
    MatchIsAMaximalInjection(Considered(trades), f.positions, f.window);
    var t :| t in Considered(trades) && t.id == trades[k].id;
    var j :| 0 <= j < |trades| && trades[j] == t;
    assert j == k;
  }

  lemma {:induction false} NothingToApply(a: Accounts, matched: map<nat, Pair>, moment: int, n: nat)
    requires n <= |a.trades|
    requires forall k :: 0 <= k < |a.trades| && a.trades[k].id in matched ==>
      !Updates(a.trades[k], matched[a.trades[k].id].position)
    ensures ApplyFirst(a, matched, moment, n) == a
  {
    if n > 0 { NothingToApply(a, matched, moment, n - 1); }
  }

  // Reconciliation is idempotent: run again on the same positions, at any later moment, it changes no
  // trade and books nothing.
  lemma ReconciliationIsIdempotent(a: Accounts, f: Feed, later: int)
    requires UniqueIds(a.trades) && DealsLeadHome(f.positions) && IdsLeadHome(f.positions)
    ensures Reconciled(Reconciled(a, f), f.(moment := later)) == Reconciled(a, f)
  {
    var matched, b := MatchedBy(a.trades, f), Reconciled(a, f);
    assert b.trades == RenewAll(a.trades, matched, f.moment);
    forall k | 0 <= k < |a.trades| && a.trades[k].id in matched ensures Matchable(a.trades[k].status) {
      MatchedAreConsidered(a.trades, f, k);
    }
    ConsideredRenewed(a.trades, matched, f.moment);
    ConsideredIds(a.trades);
    RematchIsTheSame(Considered(a.trades), f.positions, f.window, f.moment);
    var second := MatchedBy(b.trades, f.(moment := later));
    forall k | 0 <= k < |b.trades| && b.trades[k].id in second
      ensures !Updates(b.trades[k], second[b.trades[k].id].position) {
      assert b.trades[k].id == a.trades[k].id;
      ApplyIsStable(a.trades[k], matched[a.trades[k].id].position, f.moment);
    }
    NothingToApply(b, second, later, |b.trades|);
  }

  // ------------------------------------------------------------------ exactly when

  // A second run over the same positions changes neither trades nor day rows.
  predicate Repeats(a: Accounts, positions: seq<Position>, window: int, moment: int, later: int) {
    var once := Reconciled(a, Feed(positions, window, moment));
    Reconciled(once, Feed(positions, window, later)) == once
  }

  // A trade as the execution layer leaves it: the deal's number in the position column.
  function NewTrade(ticket: string): Trade {
    Trade(1, "t", "A", 1.0, Executed, None, None, None, None, None, None, None, None, None, None, Some(ticket), None,
      None, None)
  }

  lemma SingleMatch(t: Trade, positions: seq<Position>, window: int)
    requires TicketPick(t, positions, {}).Some?
    ensures MatchAll([t], positions, window).matched == map[t.id := Pair(TicketPick(t, positions, {}).value, Ticket)]
  {
    var none: seq<Trade> := [];
    assert [t][..|[t]| - 1] == none;
    assert TicketPhase(none, positions) == Outcome(map[], {});
    var first := TicketPhase([t], positions);
    assert FallbackPhase(none, positions, window, first) == first;
  }

  lemma OneTrade(t: Trade, days: seq<RiskRow>, f: Feed, p: Position)
    requires Matchable(t.status) && TicketPick(t, f.positions, {}) == Some(p)
    ensures Reconciled(Accounts([t], days), f).trades == [ApplyTo(t, p, f.moment)]
  {
    SingleMatch(t, f.positions, f.window);
    assert [t][..0] == [] && [] + [t] == [t];
    assert Considered([t]) == [t];
  }

  // A trade of position p whose id leads to position q goes to p in the first run and to q in the second.
  lemma Astray(positions: seq<Position>, p: Position, q: Position, window: int, moment: int, later: int)
    requires DealOf(p).Some? && Holder(positions, DealOf(p).value) == Some(p) && Holder(positions, p.id) == Some(q)
    ensures var t := NewTrade(DealOf(p).value);
      var once := Reconciled(Accounts([t], []), Feed(positions, window, moment));
      && once.trades == [ApplyTo(t, p, moment)]
      && Reconciled(once, Feed(positions, window, later)).trades == [ApplyTo(ApplyTo(t, p, moment), q, later)]
  {
    var t, f := NewTrade(DealOf(p).value), Feed(positions, window, moment);
    OneTrade(t, [], f, p);
    var u := ApplyTo(t, p, moment);
    ApplyIsStable(t, p, moment);
    ApplyKeepsMatchable(t, p, moment);
    OneTrade(u, Reconciled(Accounts([t], []), f).days, Feed(positions, window, later), q);
  }

  lemma AstrayChanges(positions: seq<Position>, i: nat, window: int, moment: int, later: int)
    requires DealsLeadHome(positions) && i < |positions|
      && Holder(positions, positions[i].id) !in {None, Some(positions[i])}
    ensures !Repeats(Accounts([NewTrade(DealOf(positions[i]).value)], []), positions, window, moment, later)
  {
    var p, q := positions[i], Holder(positions, positions[i].id).value;
    Astray(positions, p, q, window, moment, later);
    HolderIs(positions, p.id);
    var t := NewTrade(DealOf(p).value);
    ApplyIsStable(t, p, moment);
    ApplyIsStable(ApplyTo(t, p, moment), q, later);
    assert p.id != q.id;
  }

  // Given deals that lead home, runs repeat for every trade table at every two moments exactly when no
  // position's id is a ticket of another position.
  lemma IdempotentIff(positions: seq<Position>, window: int)
    requires DealsLeadHome(positions)
    ensures (forall a: Accounts, moment: int, later: int :: UniqueIds(a.trades) ==>
      Repeats(a, positions, window, moment, later)) <==> IdsLeadHome(positions)
  {
    if IdsLeadHome(positions) {
      forall a: Accounts, moment: int, later: int | UniqueIds(a.trades)
        ensures Repeats(a, positions, window, moment, later) {
        ReconciliationIsIdempotent(a, Feed(positions, window, moment), later);
        assert Feed(positions, window, moment).(moment := later) == Feed(positions, window, later);
      }
    } else {
      var i :| 0 <= i < |positions| && Holder(positions, positions[i].id) !in {None, Some(positions[i])};
      AstrayChanges(positions, i, window, 0, 0);
      assert UniqueIds(Accounts([NewTrade(DealOf(positions[i]).value)], []).trades);
    }
  }

  // ------------------------------------------------------------------ a feed for which it fails

  lemma FilterOne(d: Deal, keep: Deal -> bool)
    ensures Filter([d], keep) == if keep(d) then [d] else []
  {
    assert [d][..|[d]| - 1] == [];
  }

  lemma FilterTwo(d: Deal, e: Deal, keep: Deal -> bool)
    ensures Filter([d, e], keep) == (if keep(d) then [d] else []) + (if keep(e) then [e] else [])
  {
    FilterOne(d, keep);
    assert [d, e][..|[d, e]| - 1] == [d];
  }

  lemma TwoIds(d: Deal, e: Deal, magic: int, a: string, b: string)
    requires IdOf(d, magic) == Some(a) && IdOf(e, magic) == Some(b) && Less(a, b) && a != b
    ensures SortIds(Ids([d, e], magic)) == [a, b]
  {
    assert [d, e][..|[d, e]| - 1] == [d] && [d][..|[d]| - 1] == [];
    assert Ids([d], magic) == [a];
    assert Ids([d, e], magic) == [a, b];
    assert [a, b][1..] == [b] && [b][1..] == [];
    assert SortIds([b]) == [b];
  }

  lemma TwoPositions(d: Deal, e: Deal, magic: int, a: string, b: string)
    requires IdOf(d, magic) == Some(a) && IdOf(e, magic) == Some(b) && Less(a, b) && a != b
    ensures PositionsOf([d, e], magic) == [BuildPosition(a, [d]), BuildPosition(b, [e])]
  {
    TwoIds(d, e, magic, a, b);
    TwoBuckets(d, e, magic, a, b);
    KeysAreCovered([d, e], magic);
    TwoBuilt(d, e, magic, a, b);
  }

  lemma TwoBuilt(d: Deal, e: Deal, magic: int, a: string, b: string)
    requires Bucket([d, e], magic, a) == [d] && Bucket([d, e], magic, b) == [e]
    ensures BuildAll([a, b], [d, e], magic) == [BuildPosition(a, [d]), BuildPosition(b, [e])]
  {
    BuiltAt([a, b], [d, e], magic, 0);
    BuiltAt([a, b], [d, e], magic, 1);
    ListOfTwo(BuildAll([a, b], [d, e], magic), BuildPosition(a, [d]), BuildPosition(b, [e]));
  }

  lemma BuiltAt(ids: seq<string>, deals: seq<Deal>, magic: int, k: nat)
    requires Covered(ids, deals, magic) && k < |ids|
    ensures |BuildAll(ids, deals, magic)| == |ids|
      && BuildAll(ids, deals, magic)[k] == BuildPosition(ids[k], Bucket(deals, magic, ids[k]))
  {
  }

  lemma ListOfTwo(all: seq<Position>, first: Position, second: Position)
    requires |all| == 2 && all[0] == first && all[1] == second
    ensures all == [first, second]
  {
  }

  lemma TwoBuckets(d: Deal, e: Deal, magic: int, a: string, b: string)
    requires IdOf(d, magic) == Some(a) && IdOf(e, magic) == Some(b) && a != b
    ensures Bucket([d, e], magic, a) == [d] && Bucket([d, e], magic, b) == [e]
  {
    FilterTwo(d, e, Belongs(magic, a));
    FilterTwo(d, e, Belongs(magic, b));
  }

  lemma OneEntry(id: string, d: Deal)
    requires d.entry == 0 && d.order.None? && d.ticket.Some?
    ensures var p := BuildPosition(id, [d]);
      p.id == id && p.tickets == {d.ticket.value} && p.exitDeal == None && p.entryDeal == d.ticket
        && p.profit == d.profit
  {
    FilterOne(d, IsEntry);
    FilterOne(d, IsExit);
    assert [d][..|[d]| - 1] == [];
    assert ByTime([d]) == [d];
    OneSum(d, Profit);
    OneTicket(d);
  }

  lemma OneSum(d: Deal, f: Deal -> real)
    ensures Sum([d], f) == f(d)
  {
    assert [d][..|[d]| - 1] == [];
  }

  lemma OneTicket(d: Deal)
    requires d.order.None? && d.ticket.Some?
    ensures Tickets([d]) == {d.ticket.value}
  {
    assert d in [d];
  }

  // Deal numbers and position ids share one ticket table: the deal of position "1" carries the number "2".
  const COLLIDING: Deal :=
      Deal(Some(7), Some("1"), None, Some("2"), None, 0, 1.0, 1.0, 7.0, 0.0, 0.0, Some("B"), 0, None)
  const OWN: Deal := Deal(Some(7), Some("2"), None, Some("9"), None, 0, 1.0, 1.0, 5.0, 0.0, 0.0, Some("A"), 0, None)

  lemma CollidingPositions() returns (p: Position, q: Position)
    ensures PositionsOf([COLLIDING, OWN], 7) == [q, p]
    ensures p.id == "2" && p.exitDeal == None && p.entryDeal == Some("9") && p.profit == 5.0 && p.tickets == {"9"}
    ensures q.id == "1" && q.exitDeal == None && q.entryDeal == Some("2") && q.profit == 7.0 && q.tickets == {"2"}
  {
    p, q := BuildPosition("2", [OWN]), BuildPosition("1", [COLLIDING]);
    assert Less("1", "2") by { assert "1"[0] < "2"[0]; }
    TwoPositions(COLLIDING, OWN, 7, "1", "2");
    OneEntry("2", OWN);
    OneEntry("1", COLLIDING);
  }

  lemma CollidingHolders(p: Position, q: Position)
    requires p.tickets == {"9"} && q.tickets == {"2"}
    ensures Holder([q, p], "9") == Some(p) && Holder([q, p], "2") == Some(q)
  {
    assert "9" != "2" by { assert "9"[0] != "2"[0]; }
    FirstHolder(q, "9");
    FirstHolder(q, "2");
    assert [q, p][..|[q, p]| - 1] == [q];
  }

  lemma FirstHolder(p: Position, ticket: string)
    ensures Holder([p], ticket) == if ticket in p.tickets then Some(p) else None
  {
    assert [p][..|[p]| - 1] == [];
  }

  // For the positions of this feed, a trade of position "2" is first written with its own profit, and
  // by the second run, led by its new ticket, with the profit of position "1".
  lemma SharedTicketBreaksIdempotence()
    ensures var f := Feed(PositionsOf([COLLIDING, OWN], 7), 300, 0);
      var once := Reconciled(Accounts([NewTrade("9")], []), f);
      && |once.trades| == 1 && once.trades[0].profit == Some(5.0) && once.trades[0].positionTicket == Some("2")
      && Reconciled(once, f).trades[0].profit == Some(7.0) && Reconciled(once, f).trades[0].positionTicket == Some("1")
  {
    var p, q := CollidingPositions();
    CollidingHolders(p, q);
    Astray([q, p], p, q, 300, 0, 0);
    ProfitIsWritten(NewTrade("9"), p, 0);
    ProfitIsWritten(ApplyTo(NewTrade("9"), p, 0), q, 0);
  }

  lemma ProfitIsWritten(t: Trade, p: Position, moment: int)
    requires t.positionTicket != Some(p.id)
    ensures ApplyTo(t, p, moment).profit == Some(p.profit) && ApplyTo(t, p, moment).positionTicket == Some(p.id)
  {
  }
}
