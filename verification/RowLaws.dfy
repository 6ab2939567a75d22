/** What one application of a broker position leaves in a trade's row and in the day rows, column by
    column, in terms of the position and the row before. */
module RowLaws {
  import opened Records
  import opened Grouping
  import opened Matching
  import opened RiskState
  import opened Reconciliation

  // A number column: the broker's number within the code's 1e-9, or `otherwise` where the broker has none.
  predicate Holds(column: Option<real>, broker: Option<real>, otherwise: Option<real>) {
    if broker.Some? then column.Some? && -0.000000001 <= column.value - broker.value <= 0.000000001
      else column == otherwise
  }

  // A text or time column: exactly the broker's, or what stood there.
  predicate Takes<T(==)>(column: Option<T>, broker: Option<T>, otherwise: Option<T>) {
    column == if broker.Some? then broker else otherwise
  }

  // What a number column adds to the net.
  function Worth(column: Option<real>): real {
    match column
    case None => 0.0
    case Some(x) => x
  }

  lemma PricesAreTheBrokers(t: Trade, p: Position, moment: int)
    ensures var u := ApplyTo(t, p, moment);
      && Holds(u.executedPrice, p.entryPrice, t.executedPrice)
      && Holds(u.exitPrice, p.exitPrice, None)
      && Holds(u.volumeClosed, if p.volumeClosed > 0.0 then Some(p.volumeClosed) else None, t.volumeClosed)
  {
  }

  lemma MoneyIsTheBrokers(t: Trade, p: Position, moment: int)
    ensures var u := ApplyTo(t, p, moment);
      && Holds(u.commission, Some(p.commission), None) && Holds(u.swap, Some(p.swap), None)
      && Holds(u.profit, Some(p.profit), None)
  {
  }

  lemma TextIsTheBrokers(t: Trade, p: Position, moment: int)
    ensures var u := ApplyTo(t, p, moment);
      && Takes(u.openTime, p.openTime, t.openTime) && u.closeTime == p.closeTime
      && u.positionTicket == Some(p.id)
      && Takes(u.dealTicket, if p.exitDeal.Some? then p.exitDeal else p.entryDeal, t.dealTicket)
      && Takes(u.orderTicket, p.orderTicket, t.orderTicket) && Takes(u.closeReason, p.closeReason, t.closeReason)
  {
  }

  lemma StatusIsTheBrokers(t: Trade, p: Position, moment: int)
    ensures var u := ApplyTo(t, p, moment);
      && (p.closed ==> u.status == Closed)
      && (!p.closed && p.volumeClosed > 0.0 ==> u.status == PartiallyClosed)
      && (!p.closed && p.volumeClosed <= 0.0 ==> u.status == t.status)
  {
  }

  // What the code never writes: who the trade is. A row that changes at all carries the moment of the run.
  lemma IdentityStays(t: Trade, p: Position, moment: int)
    ensures var u := ApplyTo(t, p, moment);
      && u.id == t.id && u.tradeId == t.tradeId && u.symbol == t.symbol && u.volume == t.volume
      && u.createdAt == t.createdAt && (u == t || u.reconciledAt == Some(moment))
  {
  }

  // Every column of the row after one application.
  lemma RowSaysWhatTheBrokerSays(t: Trade, p: Position, moment: int)
    ensures var u := ApplyTo(t, p, moment);
      && (p.closed ==> u.status == Closed)
      && (!p.closed && p.volumeClosed > 0.0 ==> u.status == PartiallyClosed)
      && (!p.closed && p.volumeClosed <= 0.0 ==> u.status == t.status)
      && Holds(u.executedPrice, p.entryPrice, t.executedPrice) && Holds(u.exitPrice, p.exitPrice, None)
      && Holds(u.volumeClosed, if p.volumeClosed > 0.0 then Some(p.volumeClosed) else None, t.volumeClosed)
      && Holds(u.commission, Some(p.commission), None) && Holds(u.swap, Some(p.swap), None)
      && Holds(u.profit, Some(p.profit), None)
      && Takes(u.openTime, p.openTime, t.openTime) && u.closeTime == p.closeTime && u.positionTicket == Some(p.id)
      && Takes(u.dealTicket, if p.exitDeal.Some? then p.exitDeal else p.entryDeal, t.dealTicket)
      && Takes(u.orderTicket, p.orderTicket, t.orderTicket) && Takes(u.closeReason, p.closeReason, t.closeReason)
      && u.id == t.id && u.tradeId == t.tradeId && u.symbol == t.symbol && u.volume == t.volume
      && u.createdAt == t.createdAt && (u == t || u.reconciledAt == Some(moment))
  {
    PricesAreTheBrokers(t, p, moment);
    MoneyIsTheBrokers(t, p, moment);
    TextIsTheBrokers(t, p, moment);
    StatusIsTheBrokers(t, p, moment);
    IdentityStays(t, p, moment);
  }

  // A row that already agrees is not written, and a row that is written carries the broker's numbers exactly.
  lemma WrittenIsExact(t: Trade, p: Position, moment: int)
    ensures var u := ApplyTo(t, p, moment);
      u == t || (u.commission == Some(p.commission) && u.swap == Some(p.swap) && u.profit == Some(p.profit)
        && u.exitPrice == p.exitPrice && (p.entryPrice.Some? ==> u.executedPrice == p.entryPrice))
  {
  }

  // ------------------------------------------------------------------ the day of the booking

  function Net3(t: Trade): real {
    Worth(t.profit) + Worth(t.commission) + Worth(t.swap)
  }

  lemma NetIsTheThree(t: Trade)
    ensures NetPnl(t) == Net3(t)
  {
  }

  // The day whose seconds contain the instant.
  predicate DayOf(day: int, instant: int) {
    day * 86400 <= instant < (day + 1) * 86400
  }

  // The change of profit, commission and swap that is booked when the row becomes u; None when nothing is.
  function Booked(t: Trade, p: Position, u: Trade): Option<real> {
    var delta := p.profit + p.commission + p.swap - Net3(t);
    if u != t && p.closeTime.Some? && (delta > 0.000000001 || delta < -0.000000001) then Some(delta) else None
  }

  lemma BookedIs(t: Trade, p: Position, u: Trade, moment: int)
    requires u == ApplyTo(t, p, moment)
    ensures Books(t, p) <==> Booked(t, p, u).Some?
    ensures Books(t, p) ==> Delta(t, p) == Booked(t, p, u).value
  {
    NetIsTheThree(t);
  }

  // An application books the change of profit, commission and swap together, once the position has a
  // dated exit, into the row of the day of that exit and into no other; a change within 1e-9 or without a
  // dated exit is not booked.
  lemma BookedOnTheDayOfTheExit(days: seq<RiskRow>, t: Trade, p: Position, moment: int, day: int)
    requires OneRowPerDay(days) && (p.closeTime.Some? ==> DayOf(day, p.closeTime.value))
    ensures var after, booked := BookedDays(days, t, p, moment), Booked(t, p, ApplyTo(t, p, moment));
      && OneRowPerDay(after)
      && (booked.None? ==> after == days)
      && (booked.Some? ==>
        RowOf(after, day, moment).realizedPnl == RowOf(days, day, moment).realizedPnl + booked.value)
      && (forall d, at :: d != day && Has(days, d) ==> Has(after, d) && RowOf(after, d, at) == RowOf(days, d, at))
  {
    BookedIs(t, p, ApplyTo(t, p, moment), moment);
    if Books(t, p) { AppliedIsLocal(days, AddPnl(Delta(t, p)), day, moment); }
  }

  // ------------------------------------------------------------------ which rows a run writes

  // The run considers the trades that reached the broker or may have; all others keep their rows.
  lemma {:induction false} ConsideredAre(trades: seq<Trade>)
    ensures forall t :: t in Considered(trades) <==>
      t in trades && t.status in {Executed, Submitted, Closed, PartiallyClosed, Failed}
  {
    if trades != [] {
      ConsideredAre(trades[..|trades| - 1]);
      assert trades == trades[..|trades| - 1] + [trades[|trades| - 1]];
    }
  }

  // A run writes a row exactly as one application of the position its trade was matched with; it leaves a
  // trade without a position, and a trade that never reached the broker, as they are.
  lemma RunWritesTheMatched(a: Accounts, f: Feed, k: nat)
    requires UniqueIds(a.trades) && k < |a.trades|
    ensures var t, u, matched := a.trades[k], Reconciled(a, f).trades[k], MatchedBy(a.trades, f);
      && u == (if t.id in matched then ApplyTo(t, matched[t.id].position, f.moment) else t)
      && (t.status in {New, Pending, Rejected, RiskRejected, Duplicate, Status.Abandoned, Retired} ==> u == t)
  {
    if a.trades[k].id in MatchedBy(a.trades, f) { MatchedAreConsidered(a.trades, f, k); }
  }
}
