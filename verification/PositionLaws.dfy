/** What a grouped position says, field by field, in terms of its own deals of the feed. */
module PositionLaws {
  import opened Records
  import opened Grouping
  import opened GroupingLaws

  // A deal of the bot that carries the position's id, or, without one, its order's number.
  predicate Own(d: Deal, magic: int, id: string) {
    d.magic == Some(magic) && (d.positionId == Some(id) || (d.positionId == None && d.order == Some(id)))
  }

  predicate Enters(d: Deal) {
    d.entry in {0, 2}
  }

  predicate Leaves(d: Deal) {
    d.entry in {1, 3}
  }

  function OwnDeals(deals: seq<Deal>, magic: int, id: string): seq<Deal> {
    Filter(deals, d => Own(d, magic, id))
  }

  function EntryDeals(deals: seq<Deal>, magic: int, id: string): seq<Deal> {
    Filter(OwnDeals(deals, magic, id), Enters)
  }

  function ExitDeals(deals: seq<Deal>, magic: int, id: string): seq<Deal> {
    Filter(OwnDeals(deals, magic, id), Leaves)
  }

  lemma {:induction false} FilterSame(rows: seq<Deal>, f: Deal -> bool, g: Deal -> bool)
    requires forall d :: f(d) == g(d)
    ensures Filter(rows, f) == Filter(rows, g)
  {
    if rows != [] { FilterSame(rows[..|rows| - 1], f, g); }
  }

  lemma OwnIsBucket(deals: seq<Deal>, magic: int, id: string)
    ensures OwnDeals(deals, magic, id) == Bucket(deals, magic, id)
  {
    FilterSame(deals, d => Own(d, magic, id), Belongs(magic, id));
  }

  lemma EntriesAre(rows: seq<Deal>)
    ensures Filter(rows, Enters) == Filter(rows, IsEntry) && Filter(rows, Leaves) == Filter(rows, IsExit)
  {
    FilterSame(rows, Enters, IsEntry);
    FilterSame(rows, Leaves, IsExit);
  }

  // The kept deals are those of the feed that pass, in their order.
  lemma {:induction false} FilterKeepsMembers(rows: seq<Deal>, keep: Deal -> bool)
    ensures forall d :: d in Filter(rows, keep) <==> d in rows && keep(d)
  {
    if rows != [] {
      FilterKeepsMembers(rows[..|rows| - 1], keep);
      assert rows == rows[..|rows| - 1] + [rows[|rows| - 1]];
    }
  }

  // ------------------------------------------------------------------ prices, volumes, money

  function Lots(d: Deal): real {
    d.volume
  }

  function Turnover(d: Deal): real {
    d.volume * d.price
  }

  lemma {:induction false} SameSum(rows: seq<Deal>, f: Deal -> real, g: Deal -> real)
    requires forall d :: f(d) == g(d)
    ensures Sum(rows, f) == Sum(rows, g)
  {
    if rows != [] { SameSum(rows[..|rows| - 1], f, g); }
  }

  // A price of the position: times the lots it is the turnover; None where there are no lots to weigh by.
  predicate Weighs(price: Option<real>, rows: seq<Deal>) {
    var lots := Sum(rows, Lots);
    if lots > 0.0 then price.Some? && price.value * lots == Sum(rows, Turnover) else price.None?
  }

  lemma WeightedPriceWeighs(rows: seq<Deal>)
    ensures Weighs(WeightedPrice(rows), rows)
  {
    SameSum(rows, Volume, Lots);
    SameSum(rows, Value, Turnover);
    var lots, turnover := Sum(rows, Lots), Sum(rows, Turnover);
    if lots > 0.0 { assert turnover / lots * lots == turnover; }
  }

  // ------------------------------------------------------------------ times

  // The least known time, None when none is known.
  predicate LeastTime(time: Option<int>, rows: seq<Deal>) {
    if time.Some? then
      (exists d :: d in rows && d.time == time) && forall d :: d in rows && d.time.Some? ==> time.value <= d.time.value
    else forall d :: d in rows ==> d.time.None?
  }

  predicate GreatestTime(time: Option<int>, rows: seq<Deal>) {
    if time.Some? then
      (exists d :: d in rows && d.time == time) && forall d :: d in rows && d.time.Some? ==> time.value >= d.time.value
    else forall d :: d in rows ==> d.time.None?
  }

  // Strictly before in the order of known times; an unknown time comes before every known one.
  predicate Earlier(d: Deal, e: Deal) {
    e.time.Some? && (d.time.None? || d.time.value < e.time.value)
  }

  // The i-th deal is the earliest, and the first in the feed among those of its time.
  predicate Opens(rows: seq<Deal>, i: int) {
    0 <= i < |rows| && (forall j :: 0 <= j < i ==> Earlier(rows[i], rows[j]))
      && (forall j :: i <= j < |rows| ==> !Earlier(rows[j], rows[i]))
  }

  ghost predicate Opening(rows: seq<Deal>, d: Deal) {
    exists i :: Opens(rows, i) && rows[i] == d
  }

  lemma PlaceFirst(sorted: seq<Deal>, d: Deal)
    requires sorted != [] && TimeSorted(sorted)
    ensures Place(sorted, d)[0] == if Earlier(d, sorted[0]) then d else sorted[0]
  {
    if !NotAfter(sorted[|sorted| - 1], d) {
      var front := sorted[..|sorted| - 1];
      if front != [] { PlaceFirst(front, d); }
    } else if |sorted| > 1 {
      assert NotAfter(sorted[0], sorted[|sorted| - 1]);
    }
  }

  lemma OpensStep(front: seq<Deal>, d: Deal, i: int)
    requires Opens(front, i)
    ensures Opens(front + [d], if Earlier(d, front[i]) then |front| else i)
  {
    if Earlier(d, front[i]) {
      forall j | 0 <= j < |front| ensures Earlier(d, front[j]) {
        if j < i { assert Earlier(front[i], front[j]); } else { assert !Earlier(front[j], front[i]); }
      }
    }
  }

  lemma {:induction false} FirstByTime(rows: seq<Deal>)
    requires rows != []
    ensures Opening(rows, ByTime(rows)[0])
  {
    var n := |rows| - 1;
    var front, d := rows[..n], rows[n];
    assert rows == front + [d];
    if n == 0 {
      assert ByTime(front) == [] && ByTime(rows) == [] + [d];
      assert Opens(rows, 0);
    } else {
      FirstByTime(front);
      ByTimeSorts(front);
      PlaceFirst(ByTime(front), d);
      var i :| Opens(front, i) && front[i] == ByTime(front)[0];
      OpensStep(front, d, i);
    }
  }

  lemma AppendFiltered(rows: seq<Deal>, d: Deal, keep: Deal -> bool)
    ensures Filter(rows + [d], keep) == Filter(rows, keep) + if keep(d) then [d] else []
  {
    assert (rows + [d])[..|rows + [d]| - 1] == rows;
  }

  lemma LastKept(sorted: seq<Deal>, d: Deal, keep: Deal -> bool)
    requires TimeSorted(sorted) && (sorted != [] ==> NotAfter(sorted[|sorted| - 1], d))
    ensures var kept := Filter(sorted, keep); kept != [] ==> NotAfter(kept[|kept| - 1], d)
  {
    var kept := Filter(sorted, keep);
    if kept != [] {
      FilterKeepsMembers(sorted, keep);
      assert kept[|kept| - 1] in sorted;
      var i :| 0 <= i < |sorted| && sorted[i] == kept[|kept| - 1];
      assert i < |sorted| - 1 ==> NotAfter(sorted[i], sorted[|sorted| - 1]);
    }
  }

  lemma PlaceAgain(kept: seq<Deal>, last: Deal, d: Deal)
    requires !NotAfter(last, d)
    ensures Place(kept + [last], d) == Place(kept, d) + [last]
  {
    assert (kept + [last])[..|kept + [last]| - 1] == kept;
  }

  // Taking the entries and putting in order are the same either way round.
  lemma {:induction false} PlaceFiltered(sorted: seq<Deal>, d: Deal, keep: Deal -> bool)
    requires TimeSorted(sorted)
    ensures Filter(Place(sorted, d), keep)
      == if keep(d) then Place(Filter(sorted, keep), d) else Filter(sorted, keep)
  {
    if sorted == [] || NotAfter(sorted[|sorted| - 1], d) {
      AppendFiltered(sorted, d, keep);
      LastKept(sorted, d, keep);
    } else {
      var front, last := sorted[..|sorted| - 1], sorted[|sorted| - 1];
      assert sorted == front + [last];
      PlaceFiltered(front, d, keep);
      AppendFiltered(front, last, keep);
      AppendFiltered(Place(front, d), last, keep);
      PlaceAgain(Filter(front, keep), last, d);
      assert keep(last) || Filter(sorted, keep) == Filter(front, keep);
      assert keep(last) || Filter(Place(sorted, d), keep) == Filter(Place(front, d), keep);
    }
  }

  lemma {:induction false} ByTimeFiltered(rows: seq<Deal>, keep: Deal -> bool)
    ensures Filter(ByTime(rows), keep) == ByTime(Filter(rows, keep))
  {
    if rows != [] {
      var n := |rows| - 1;
      var kept := Filter(rows[..n], keep);
      ByTimeFiltered(rows[..n], keep);
      ByTimeSorts(rows[..n]);
      PlaceFiltered(ByTime(rows[..n]), rows[n], keep);
      if keep(rows[n]) { assert (kept + [rows[n]])[..|kept|] == kept; } else { assert kept + [] == kept; }
    }
  }

  lemma {:induction false} FirstEntryIs(rows: seq<Deal>)
    ensures FirstEntry(rows) == if Filter(rows, IsEntry) == [] then None else Filter(rows, IsEntry)[0].ticket
  {
    if rows != [] {
      FirstEntryIs(rows[1..]);
      FilterFront(rows, IsEntry);
    }
  }

  lemma {:induction false} FilterFront(rows: seq<Deal>, keep: Deal -> bool)
    requires rows != []
    ensures Filter(rows, keep) == (if keep(rows[0]) then [rows[0]] else []) + Filter(rows[1..], keep)
  {
    var n := |rows| - 1;
    if n > 0 {
      FilterFront(rows[..n], keep);
      assert rows[..n][1..] == rows[1..][..n - 1];
    } else {
      assert rows[..0] == [] && rows[1..] == [];
    }
  }

  // ------------------------------------------------------------------ main results

  // Entry and exit price, entered and closed volume, and whether the position is closed.
  predicate PricesOf(p: Position, own: seq<Deal>, entries: seq<Deal>, exits: seq<Deal>) {
    && Weighs(p.entryPrice, if entries != [] then entries else own)
    && (if exits != [] then Weighs(p.exitPrice, exits) else p.exitPrice.None?)
    && p.volumeClosed == Sum(exits, Lots)
    && p.volume == (if Sum(entries, Lots) > 0.0 then Sum(entries, Lots) else Sum(exits, Lots))
    && p.closed == (Sum(exits, Lots) > 0.0
      && (Sum(entries, Lots) > 0.0 ==> Sum(exits, Lots) >= Sum(entries, Lots) - 0.000000001))
  }

  predicate TimesOf(p: Position, own: seq<Deal>, entries: seq<Deal>, exits: seq<Deal>) {
    LeastTime(p.openTime, if entries != [] then entries else own) && GreatestTime(p.closeTime, exits)
  }

  predicate MoneyOf(p: Position, own: seq<Deal>) {
    p.profit == Sum(own, (d: Deal) => d.profit) && p.commission == Sum(own, (d: Deal) => d.commission)
      && p.swap == Sum(own, (d: Deal) => d.swap)
  }

  // Symbol, order and comment are those of the opening deal, the entry deal is the opening entry; exit
  // deal and close reason are those of the last exit in the feed.
  ghost predicate OriginOf(p: Position, own: seq<Deal>, entries: seq<Deal>, exits: seq<Deal>) {
    && (exists d :: Opening(own, d) && Names(p, d))
    && (if entries == [] then p.entryDeal.None? else exists d :: Opening(entries, d) && p.entryDeal == d.ticket)
    && (if exits == [] then p.exitDeal.None? && p.closeReason.None?
        else p.exitDeal == exits[|exits| - 1].ticket && Explains(p.closeReason, exits[|exits| - 1].reason))
  }

  predicate Names(p: Position, d: Deal) {
    && p.orderTicket == d.order && p.symbol == (if d.symbol.Some? then d.symbol.value else "UNKNOWN")
    && p.comment == if d.comment.Some? then d.comment.value else ""
  }

  // MT5's numbers of deal reasons; any other number has no name.
  const REASONS: map<int, string> :=
      map[0 := "client", 1 := "mobile", 2 := "web", 3 := "expert", 4 := "stop_loss", 5 := "take_profit",
        6 := "stop_out", 7 := "rollover", 8 := "variation_margin", 9 := "split"]

  predicate Explains(name: Option<string>, reason: int) {
    name == if reason in REASONS then Some(REASONS[reason]) else None
  }

  // The tickets are the numbers and the order numbers of the own deals.
  ghost predicate CarriesTickets(p: Position, own: seq<Deal>) {
    forall ticket :: ticket in p.tickets <==> exists d ::
      d in own && (d.ticket == Some(ticket) || d.order == Some(ticket))
  }

  ghost predicate Describes(p: Position, deals: seq<Deal>, magic: int) {
    var own, entries, exits := OwnDeals(deals, magic, p.id), EntryDeals(deals, magic, p.id),
      ExitDeals(deals, magic, p.id);
    && own != [] && PricesOf(p, own, entries, exits) && TimesOf(p, own, entries, exits) && MoneyOf(p, own)
    && OriginOf(p, own, entries, exits) && CarriesTickets(p, own)
  }

  lemma {:induction false} PricesAre(id: string, rows: seq<Deal>)
    requires rows != []
    ensures PricesOf(BuildPosition(id, rows), rows, Filter(rows, IsEntry), Filter(rows, IsExit))
  {
    var entries, exits := Filter(rows, IsEntry), Filter(rows, IsExit);
    WeightedPriceWeighs(entries);
    WeightedPriceWeighs(exits);
    ByTimePermutes(rows);
    PricePermuted(ByTime(rows), rows);
    WeightedPriceWeighs(rows);
    SameSum(entries, Volume, Lots);
    SameSum(exits, Volume, Lots);
  }

  lemma {:induction false} EarliestIsLeast(rows: seq<Deal>)
    ensures LeastTime(Earliest(rows), rows) && GreatestTime(LatestTime(rows), rows)
  {
    EarliestIs(rows);
    LatestIs(rows);
  }

  lemma {:induction false} TimesAre(id: string, rows: seq<Deal>)
    requires rows != []
    ensures TimesOf(BuildPosition(id, rows), rows, Filter(rows, IsEntry), Filter(rows, IsExit))
  {
    EarliestIsLeast(Filter(rows, IsEntry));
    EarliestIsLeast(Filter(rows, IsExit));
    ByTimePermutes(rows);
    SameMembers(ByTime(rows), rows);
    EarliestIsLeast(rows);
  }

  lemma {:induction false} MoneyIs(id: string, rows: seq<Deal>)
    requires rows != []
    ensures MoneyOf(BuildPosition(id, rows), rows)
  {
    SameSum(rows, Profit, (d: Deal) => d.profit);
    SameSum(rows, Commission, (d: Deal) => d.commission);
    SameSum(rows, Swap, (d: Deal) => d.swap);
  }

  lemma {:induction false} NamesAre(id: string, rows: seq<Deal>)
    requires rows != []
    ensures Names(BuildPosition(id, rows), ByTime(rows)[0])
  {
  }

  lemma {:induction false} EntryDealIs(rows: seq<Deal>, entries: seq<Deal>)
    requires entries == Filter(rows, IsEntry)
    ensures if entries == [] then FirstEntry(ByTime(rows)).None?
      else exists d :: Opening(entries, d) && FirstEntry(ByTime(rows)) == d.ticket
  {
    FirstEntryIs(ByTime(rows));
    ByTimeFiltered(rows, IsEntry);
    if entries != [] { FirstByTime(entries); }
  }

  lemma ReasonIs(reason: int)
    ensures Explains(ReasonName(reason), reason)
  {
  }

  lemma {:induction false} ExitFrom(id: string, rows: seq<Deal>, exits: seq<Deal>)
    requires rows != [] && exits == Filter(rows, IsExit)
    ensures var p := BuildPosition(id, rows);
      if exits == [] then p.exitDeal.None? && p.closeReason.None?
      else p.exitDeal == exits[|exits| - 1].ticket && p.closeReason == ReasonName(exits[|exits| - 1].reason)
  {
  }

  lemma {:induction false} ExitIs(p: Position, exits: seq<Deal>)
    requires if exits == [] then p.exitDeal.None? && p.closeReason.None?
      else p.exitDeal == exits[|exits| - 1].ticket && p.closeReason == ReasonName(exits[|exits| - 1].reason)
    ensures if exits == [] then p.exitDeal.None? && p.closeReason.None?
      else p.exitDeal == exits[|exits| - 1].ticket && Explains(p.closeReason, exits[|exits| - 1].reason)
  {
    if exits != [] { ReasonIs(exits[|exits| - 1].reason); }
  }

  lemma {:induction false} OriginIs(id: string, rows: seq<Deal>)
    requires rows != []
    ensures OriginOf(BuildPosition(id, rows), rows, Filter(rows, IsEntry), Filter(rows, IsExit))
  {
    FirstByTime(rows);
    NamesAre(id, rows);
    EntryDealIs(rows, Filter(rows, IsEntry));
    ExitFrom(id, rows, Filter(rows, IsExit));
    ExitIs(BuildPosition(id, rows), Filter(rows, IsExit));
    OriginFrom(BuildPosition(id, rows), rows, Filter(rows, IsEntry), Filter(rows, IsExit));
  }

  lemma {:induction false} OriginFrom(p: Position, rows: seq<Deal>, entries: seq<Deal>, exits: seq<Deal>)
    requires rows != [] && Opening(rows, ByTime(rows)[0]) && Names(p, ByTime(rows)[0])
      && p.entryDeal == FirstEntry(ByTime(rows))
    requires if entries == [] then p.entryDeal.None?
      else exists d :: Opening(entries, d) && p.entryDeal == d.ticket
    requires if exits == [] then p.exitDeal.None? && p.closeReason.None?
      else p.exitDeal == exits[|exits| - 1].ticket && Explains(p.closeReason, exits[|exits| - 1].reason)
    ensures OriginOf(p, rows, entries, exits)
  {
  }

  lemma {:induction false} TicketsAre(id: string, rows: seq<Deal>)
    requires rows != []
    ensures CarriesTickets(BuildPosition(id, rows), rows)
  {
  }

  lemma {:induction false} PositionIsDescribed(deals: seq<Deal>, magic: int, id: string)
    requires Bucket(deals, magic, id) != []
    ensures Describes(BuildPosition(id, Bucket(deals, magic, id)), deals, magic)
  {
    var rows := Bucket(deals, magic, id);
    OwnIsBucket(deals, magic, id);
    EntriesAre(rows);
    PricesAre(id, rows);
    TimesAre(id, rows);
    MoneyIs(id, rows);
    OriginIs(id, rows);
    TicketsAre(id, rows);
  }

  // One position for each id that an own deal of the feed carries, in the order of the ids, and each says
  // what its own deals say: prices weighted by lots over its entries and its exits, times, money, volumes,
  // tickets and origin.
  lemma PositionsDescribeTheirDeals(deals: seq<Deal>, magic: int)
    ensures var positions := PositionsOf(deals, magic);
      && (forall k :: 0 <= k < |positions| ==> Describes(positions[k], deals, magic))
      && (forall i, j :: 0 <= i < j < |positions| ==> Less(positions[i].id, positions[j].id))
      && (forall d, id :: d in deals && Own(d, magic, id) ==> exists k :: 0 <= k < |positions| && positions[k].id == id)
  {
    KeysAreCovered(deals, magic);
    var positions, ids := PositionsOf(deals, magic), SortIds(Ids(deals, magic));
    forall k | 0 <= k < |positions| ensures Describes(positions[k], deals, magic) {
      PositionIsDescribed(deals, magic, ids[k]);
    }
    forall d, id | d in deals && Own(d, magic, id) ensures exists k :: 0 <= k < |positions| && positions[k].id == id {
      OwnIsBucket(deals, magic, id);
      FilterKeepsMembers(deals, d => Own(d, magic, id));
      assert d in OwnDeals(deals, magic, id);
      assert id in ids;
      var k :| 0 <= k < |ids| && ids[k] == id;
      assert positions[k].id == id;
    }
  }
}
