/** group_deals: broker deals of one feed, grouped into positions. */
module Grouping {
  import opened Records

  // One MT5 deal as read: text fields stripped and None when empty, unreadable numbers at their default.
  datatype Deal = Deal(
    magic: Option<int>, positionId: Option<string>, order: Option<string>, ticket: Option<string>,
    time: Option<int>, entry: int, volume: real, price: real, profit: real, commission: real, swap: real,
    symbol: Option<string>, reason: int, comment: Option<string>)

  datatype Position = Position(
    id: string, symbol: string, volume: real, volumeClosed: real,
    entryPrice: Option<real>, exitPrice: Option<real>, openTime: Option<int>, closeTime: Option<int>,
    profit: real, commission: real, swap: real, tickets: set<string>,
    orderTicket: Option<string>, entryDeal: Option<string>, exitDeal: Option<string>,
    closeReason: Option<string>, comment: string, closed: bool)

  const TOLERANCE: real := 0.000000001
  const DEAL_REASONS: seq<string> :=
    ["client", "mobile", "web", "expert", "stop_loss", "take_profit", "stop_out", "rollover", "variation_margin",
      "split"]

  predicate IsEntry(d: Deal) { d.entry == 0 || d.entry == 2 }
  predicate IsExit(d: Deal) { d.entry == 1 || d.entry == 3 }

  function Volume(d: Deal): real { d.volume }
  function Value(d: Deal): real { d.price * d.volume }
  function Profit(d: Deal): real { d.profit }
  function Commission(d: Deal): real { d.commission }
  function Swap(d: Deal): real { d.swap }
  function One(d: Deal): real { 1.0 }
  function ExitVolume(d: Deal): real { if IsExit(d) then d.volume else 0.0 }

  function Filter(rows: seq<Deal>, keep: Deal -> bool): seq<Deal> {
    if rows == [] then []
    else Filter(rows[..|rows| - 1], keep) + if keep(rows[|rows| - 1]) then [rows[|rows| - 1]] else []
  }

  function Sum(rows: seq<Deal>, f: Deal -> real): real {
    if rows == [] then 0.0 else Sum(rows[..|rows| - 1], f) + f(rows[|rows| - 1])
  }

  // The position a deal belongs to; None for a deal the bot ignores.
  function IdOf(d: Deal, magic: int): Option<string> {
    if d.magic != Some(magic) then None else Or(d.positionId, d.order)
  }

  function Belongs(magic: int, id: string): Deal -> bool {
    d => IdOf(d, magic) == Some(id)
  }

  function Owned(magic: int): Deal -> bool {
    d => IdOf(d, magic).Some?
  }

  function Foreign(magic: int): Deal -> bool {
    d => IdOf(d, magic).None?
  }

  function Bucket(deals: seq<Deal>, magic: int, id: string): seq<Deal> {
    Filter(deals, Belongs(magic, id))
  }

  // The bucket keys in order of first appearance, which is the order a dict keeps.
  function Ids(deals: seq<Deal>, magic: int): seq<string> {
    if deals == [] then []
    else
      var rest, id := Ids(deals[..|deals| - 1], magic), IdOf(deals[|deals| - 1], magic);
      if id.Some? && id.value !in rest then rest + [id.value] else rest
  }

  // ------------------------------------------------------------------ text order

  // Python's order on strings.
  predicate Less(a: string, b: string) {
    b != [] && (a == [] || a[0] < b[0] || (a[0] == b[0] && Less(a[1..], b[1..])))
  }

  lemma {:induction false} LessTotal(a: string, b: string)
    ensures Less(a, b) || a == b || Less(b, a)
    ensures !(Less(a, b) && Less(b, a))
    decreases |a| + |b|
  {
    if a != [] && b != [] && a[0] == b[0] {
      LessTotal(a[1..], b[1..]);
      if a[1..] == b[1..] { assert a == [a[0]] + a[1..] == b; }
    }
  }

  lemma {:induction false} LessTransitive(a: string, b: string, c: string)
    requires Less(a, b) && Less(b, c)
    ensures Less(a, c)
    decreases |a|
  {
    if a != [] && a[0] == b[0] && b[0] == c[0] { LessTransitive(a[1..], b[1..], c[1..]); }
  }

  predicate StrictlySorted(ids: seq<string>) {
    forall i, j :: 0 <= i < j < |ids| ==> Less(ids[i], ids[j])
  }

  function Insert(id: string, sorted: seq<string>): seq<string> {
    if sorted == [] || Less(id, sorted[0]) then [id] + sorted else [sorted[0]] + Insert(id, sorted[1..])
  }

  // sorted() on the keys.
  function SortIds(ids: seq<string>): seq<string> {
    if ids == [] then [] else Insert(ids[0], SortIds(ids[1..]))
  }

  lemma {:induction false} InsertSorts(id: string, sorted: seq<string>)
    requires StrictlySorted(sorted) && id !in sorted
    ensures StrictlySorted(Insert(id, sorted))
    ensures forall x :: x in Insert(id, sorted) <==> x == id || x in sorted
  {
    if sorted != [] && Less(id, sorted[0]) {
      forall j | 0 <= j < |sorted| ensures Less(id, sorted[j]) {
        if j > 0 { LessTransitive(id, sorted[0], sorted[j]); }
      }
    } else if sorted != [] {
      LessTotal(id, sorted[0]);
      InsertSorts(id, sorted[1..]);
      var rest := Insert(id, sorted[1..]);
      forall j | 0 <= j < |rest| ensures Less(sorted[0], rest[j]) {
        if rest[j] != id {
          assert rest[j] in sorted[1..];
          var k :| 0 <= k < |sorted[1..]| && sorted[1..][k] == rest[j];
          assert sorted[k + 1] == rest[j];
        }
      }
    }
  }

  lemma {:induction false} SortIdsSorts(ids: seq<string>)
    requires forall i, j :: 0 <= i < j < |ids| ==> ids[i] != ids[j]
    ensures StrictlySorted(SortIds(ids)) && forall x :: x in SortIds(ids) <==> x in ids
  {
    if ids != [] {
      SortIdsSorts(ids[1..]);
      assert ids[0] !in ids[1..];
      InsertSorts(ids[0], SortIds(ids[1..]));
    }
  }

  // A set of keys has one sorted listing.
  lemma {:induction false} SortedIsUnique(a: seq<string>, b: seq<string>)
    requires StrictlySorted(a) && StrictlySorted(b)
    requires forall x :: x in a <==> x in b
    ensures a == b
    decreases |a|
  {
    assert b != [] ==> b[0] in a;
    if a != [] {
      assert a[0] in b;
      assert b[0] in a;
      var i, j :| 0 <= i < |b| && b[i] == a[0] && 0 <= j < |a| && a[j] == b[0];
      LessTotal(a[0], b[0]);
      assert a[0] == b[0];
      forall x ensures x in a[1..] <==> x in b[1..] {
        LessTotal(a[0], a[0]);
        if x in a[1..] {
          var k :| 1 <= k < |a| && a[k] == x;
          assert x in b && x != b[0];
        }
        if x in b[1..] {
          var k :| 1 <= k < |b| && b[k] == x;
          assert x in a && x != a[0];
        }
      }
      SortedIsUnique(a[1..], b[1..]);
    }
  }

  // ------------------------------------------------------------------ one position

  // The order of sorted(rows, key=moment or datetime.min): an unknown time sorts first.
  predicate NotAfter(a: Deal, b: Deal) {
    a.time.None? || (b.time.Some? && a.time.value <= b.time.value)
  }

  function Place(sorted: seq<Deal>, d: Deal): seq<Deal> {
    if sorted == [] || NotAfter(sorted[|sorted| - 1], d) then sorted + [d]
    else Place(sorted[..|sorted| - 1], d) + [sorted[|sorted| - 1]]
  }

  // Stable: deals of one moment keep their feed order.
  function ByTime(rows: seq<Deal>): (r: seq<Deal>)
    ensures rows != [] ==> r != []
  {
    if rows == [] then [] else Place(ByTime(rows[..|rows| - 1]), rows[|rows| - 1])
  }

  function Earliest(rows: seq<Deal>): Option<int> {
    if rows == [] then None
    else
      var rest, t := Earliest(rows[..|rows| - 1]), rows[|rows| - 1].time;
      if t.None? then rest else if rest.None? || t.value < rest.value then t else rest
  }

  function LatestTime(rows: seq<Deal>): Option<int> {
    if rows == [] then None
    else
      var rest, t := LatestTime(rows[..|rows| - 1]), rows[|rows| - 1].time;
      if t.None? then rest else if rest.None? || t.value > rest.value then t else rest
  }

  function WeightedPrice(rows: seq<Deal>): Option<real> {
    var volume := Sum(rows, Volume);
    if volume <= 0.0 then None else Some(Sum(rows, Value) / volume)
  }

  function FirstEntry(rows: seq<Deal>): Option<string> {
    if rows == [] then None else if IsEntry(rows[0]) then rows[0].ticket else FirstEntry(rows[1..])
  }

  function Tickets(rows: seq<Deal>): set<string> {
    (set d | d in rows && d.ticket.Some? :: d.ticket.value) + (set d | d in rows && d.order.Some? :: d.order.value)
  }

  function ReasonName(reason: int): Option<string> {
    if 0 <= reason < |DEAL_REASONS| then Some(DEAL_REASONS[reason]) else None
  }

  function BuildPosition(id: string, rows: seq<Deal>): Position
    requires rows != []
  {
    var entries, exits, ordered := Filter(rows, IsEntry), Filter(rows, IsExit), ByTime(rows);
    var volume, volumeClosed := Sum(entries, Volume), Sum(exits, Volume);
    var lastExit := if exits == [] then None else Some(exits[|exits| - 1]);
    Position(
      id,
      if ordered[0].symbol.Some? then ordered[0].symbol.value else "UNKNOWN",
      if volume > 0.0 then volume else volumeClosed,
      volumeClosed,
      if entries != [] then WeightedPrice(entries) else WeightedPrice(ordered),
      if exits != [] then WeightedPrice(exits) else None,
      Earliest(if entries != [] then entries else ordered),
      LatestTime(exits),
      Sum(rows, Profit), Sum(rows, Commission), Sum(rows, Swap),
      Tickets(rows),
      ordered[0].order,
      FirstEntry(ordered),
      if lastExit.Some? then lastExit.value.ticket else None,
      if lastExit.Some? then ReasonName(lastExit.value.reason) else None,
      if ordered[0].comment.Some? then ordered[0].comment.value else "",
      volumeClosed > 0.0 && volumeClosed >= (if volume > 0.0 then volume else volumeClosed) - TOLERANCE)
  }

  predicate Covered(ids: seq<string>, deals: seq<Deal>, magic: int) {
    forall k :: 0 <= k < |ids| ==> Bucket(deals, magic, ids[k]) != []
  }

  function BuildAll(ids: seq<string>, deals: seq<Deal>, magic: int): seq<Position>
    requires Covered(ids, deals, magic)
  {
    seq(|ids|, k requires 0 <= k < |ids| => BuildPosition(ids[k], Bucket(deals, magic, ids[k])))
  }

  // ------------------------------------------------------------------ the grouping

  lemma {:induction false} IdsAreTheKeys(deals: seq<Deal>, magic: int)
    ensures forall i, j :: 0 <= i < j < |Ids(deals, magic)| ==> Ids(deals, magic)[i] != Ids(deals, magic)[j]
    ensures forall id :: id in Ids(deals, magic) <==> Bucket(deals, magic, id) != []
  {
    if deals != [] {
      IdsAreTheKeys(deals[..|deals| - 1], magic);
    }
  }

  lemma KeysAreCovered(deals: seq<Deal>, magic: int)
    ensures StrictlySorted(SortIds(Ids(deals, magic))) && Covered(SortIds(Ids(deals, magic)), deals, magic)
    ensures forall id :: id in SortIds(Ids(deals, magic)) <==> Bucket(deals, magic, id) != []
  {
    var ids := Ids(deals, magic);
    IdsAreTheKeys(deals, magic);
    SortIdsSorts(ids);
    forall k | 0 <= k < |SortIds(ids)| ensures Bucket(deals, magic, SortIds(ids)[k]) != [] {
      assert SortIds(ids)[k] in ids;
    }
  }

  function PositionsOf(deals: seq<Deal>, magic: int): seq<Position> {
    KeysAreCovered(deals, magic);
    BuildAll(SortIds(Ids(deals, magic)), deals, magic)
  }

  lemma FeedStep(deals: seq<Deal>, n: nat, magic: int)
    requires n < |deals|
    ensures var id := IdOf(deals[n], magic);
      && Ids(deals[..n + 1], magic) == Ids(deals[..n], magic)
        + (if id.Some? && id.value !in Ids(deals[..n], magic) then [id.value] else [])
      && (forall k :: Bucket(deals[..n + 1], magic, k) == Bucket(deals[..n], magic, k) + if id == Some(k) then
        [deals[n]] else [])
      && |Filter(deals[..n + 1], Foreign(magic))| == |Filter(deals[..n], Foreign(magic))| + if id.None? then 1 else 0
  {
    assert deals[..n + 1][..n] == deals[..n];
  }

  method GroupDeals(deals: seq<Deal>, magic: int) returns (positions: seq<Position>, ignored: nat)
    ensures positions == PositionsOf(deals, magic)
    ensures ignored == |Filter(deals, Foreign(magic))|
  {
    var buckets: map<string, seq<Deal>>, keys: seq<string> := map[], [];
    ignored := 0;
    for n := 0 to |deals|
      invariant keys == Ids(deals[..n], magic)
      invariant forall id :: id in keys <==> id in buckets
      invariant forall id :: id in buckets ==> buckets[id] == Bucket(deals[..n], magic, id)
      invariant ignored == |Filter(deals[..n], Foreign(magic))|
    {
      var deal := deals[n];
      FeedStep(deals, n, magic);
      IdsAreTheKeys(deals[..n], magic);
      if deal.magic != Some(magic) || Or(deal.positionId, deal.order).None? {
        ignored := ignored + 1;
      } else {
        var id := Or(deal.positionId, deal.order).value;
        if id !in buckets {
          keys, buckets := keys + [id], buckets[id := []];
        }
        buckets := buckets[id := buckets[id] + [deal]];
      }
    }
    assert deals[..|deals|] == deals;
    IdsAreTheKeys(deals, magic);
    KeysAreCovered(deals, magic);
    var order := SortIds(keys);
    forall k | 0 <= k < |order| ensures order[k] in buckets && buckets[order[k]] == Bucket(deals, magic, order[k]) {
      assert order[k] in order;
    }
    positions := BuildListed(deals, magic, order, buckets);
  }

  // [_build_position(position_id, rows) for position_id, rows in sorted(buckets.items())]
  function BuildListed(ghost deals: seq<Deal>, ghost magic: int, order: seq<string>,
      buckets: map<string, seq<Deal>>): (r: seq<Position>)
    requires Covered(order, deals, magic)
    requires forall k :: 0 <= k < |order| ==> order[k] in buckets && buckets[order[k]] == Bucket(deals, magic, order[k])
    ensures r == BuildAll(order, deals, magic)
  {
    seq(|order|, k requires 0 <= k < |order| => BuildPosition(order[k], buckets[order[k]]))
  }
}
