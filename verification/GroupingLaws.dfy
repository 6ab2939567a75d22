/** What group_deals keeps of its feed, whatever the feed. */
module GroupingLaws {
  import opened Records
  import opened Grouping

  // ------------------------------------------------------------------ sums over the positions

  function SumBuckets(ids: seq<string>, deals: seq<Deal>, magic: int, f: Deal -> real): real {
    if ids == [] then 0.0
    else SumBuckets(ids[..|ids| - 1], deals, magic, f) + Sum(Bucket(deals, magic, ids[|ids| - 1]), f)
  }

  function SumPositions(positions: seq<Position>, g: Position -> real): real {
    if positions == [] then 0.0 else SumPositions(positions[..|positions| - 1], g) + g(positions[|positions| - 1])
  }

  lemma {:induction false} SumOfParts(ids: seq<string>, deals: seq<Deal>, magic: int, f: Deal -> real,
      g: Position -> real)
    requires Covered(ids, deals, magic)
    requires forall id, rows :: rows != [] ==> g(BuildPosition(id, rows)) == Sum(rows, f)
    ensures SumPositions(BuildAll(ids, deals, magic), g) == SumBuckets(ids, deals, magic, f)
  {
    if ids != [] {
      var n := |ids| - 1;
      SumOfParts(ids[..n], deals, magic, f, g);
      assert BuildAll(ids, deals, magic)[..n] == BuildAll(ids[..n], deals, magic);
    }
  }

  // One more deal adds its amount to the one bucket that receives it.
  lemma {:induction false} OneBucketGrows(ids: seq<string>, deals: seq<Deal>, magic: int, f: Deal -> real)
    requires deals != [] && forall i, j :: 0 <= i < j < |ids| ==> ids[i] != ids[j]
    ensures var d, rest := deals[|deals| - 1], deals[..|deals| - 1]; var id := IdOf(d, magic);
      SumBuckets(ids, deals, magic, f) == SumBuckets(ids, rest, magic, f) + if id.Some? && id.value in ids then f(d)
        else 0.0
  {
    if ids != [] {
      var n := |ids| - 1;
      OneBucketGrows(ids[..n], deals, magic, f);
      var last, rest := ids[n], Bucket(deals[..|deals| - 1], magic, ids[n]);
      assert last !in ids[..n];
      if IdOf(deals[|deals| - 1], magic) == Some(last) {
        assert Bucket(deals, magic, last) == rest + [deals[|deals| - 1]];
        assert Bucket(deals, magic, last)[..|rest|] == rest;
      } else {
        assert Bucket(deals, magic, last) == rest + [] == rest;
      }
    }
  }

  lemma {:induction false} NoDealsNoSum(ids: seq<string>, magic: int, f: Deal -> real)
    ensures SumBuckets(ids, [], magic, f) == 0.0
  {
    if ids != [] { NoDealsNoSum(ids[..|ids| - 1], magic, f); }
  }

  lemma {:induction false} BucketsAddUp(ids: seq<string>, deals: seq<Deal>, magic: int, f: Deal -> real)
    requires forall i, j :: 0 <= i < j < |ids| ==> ids[i] != ids[j]
    requires forall k :: 0 <= k < |deals| && IdOf(deals[k], magic).Some? ==> IdOf(deals[k], magic).value in ids
    ensures SumBuckets(ids, deals, magic, f) == Sum(Filter(deals, Owned(magic)), f)
    decreases |deals|
  {
    if deals == [] {
      NoDealsNoSum(ids, magic, f);
    } else {
      var rest, d := deals[..|deals| - 1], deals[|deals| - 1];
      BucketsAddUp(ids, rest, magic, f);
      OneBucketGrows(ids, deals, magic, f);
      var own := Filter(rest, Owned(magic));
      assert own + [] == own && (own + [d])[..|own|] == own;
    }
  }

  lemma {:induction false} InItsBucket(deals: seq<Deal>, magic: int, k: nat)
    requires k < |deals| && IdOf(deals[k], magic).Some?
    ensures Bucket(deals, magic, IdOf(deals[k], magic).value) != []
  {
    if k < |deals| - 1 { InItsBucket(deals[..|deals| - 1], magic, k); }
  }

  lemma GroupsAddUp(deals: seq<Deal>, magic: int, f: Deal -> real, g: Position -> real)
    requires forall id, rows :: rows != [] ==> g(BuildPosition(id, rows)) == Sum(rows, f)
    ensures SumPositions(PositionsOf(deals, magic), g) == Sum(Filter(deals, Owned(magic)), f)
  {
    var ids := SortIds(Ids(deals, magic));
    KeysAreCovered(deals, magic);
    SumOfParts(ids, deals, magic, f, g);
    forall k | 0 <= k < |deals| && IdOf(deals[k], magic).Some? ensures IdOf(deals[k], magic).value in ids {
      InItsBucket(deals, magic, k);
    }
    forall i, j | 0 <= i < j < |ids| ensures ids[i] != ids[j] { LessTotal(ids[i], ids[j]); }
    BucketsAddUp(ids, deals, magic, f);
  }

  function ProfitOf(p: Position): real { p.profit }
  function CommissionOf(p: Position): real { p.commission }
  function SwapOf(p: Position): real { p.swap }
  function ClosedVolumeOf(p: Position): real { p.volumeClosed }

  lemma {:induction false} ExitsOnly(rows: seq<Deal>)
    ensures Sum(Filter(rows, IsExit), Volume) == Sum(rows, ExitVolume)
  {
    if rows != [] {
      var rest := Filter(rows[..|rows| - 1], IsExit);
      ExitsOnly(rows[..|rows| - 1]);
      assert rest + [] == rest && (rest + [rows[|rows| - 1]])[..|rest|] == rest;
    }
  }

  // Money and closed volume: over all positions together, exactly what the bot's own deals carry.
  lemma FeedIsConserved(deals: seq<Deal>, magic: int)
    ensures var own, all := Filter(deals, Owned(magic)), PositionsOf(deals, magic);
      && SumPositions(all, ProfitOf) == Sum(own, Profit)
      && SumPositions(all, CommissionOf) == Sum(own, Commission)
      && SumPositions(all, SwapOf) == Sum(own, Swap)
      && SumPositions(all, ClosedVolumeOf) == Sum(own, ExitVolume)
  {
    GroupsAddUp(deals, magic, Profit, ProfitOf);
    GroupsAddUp(deals, magic, Commission, CommissionOf);
    GroupsAddUp(deals, magic, Swap, SwapOf);
    forall id, rows: seq<Deal> | rows != [] ensures ClosedVolumeOf(BuildPosition(id, rows)) == Sum(rows, ExitVolume) {
      ExitsOnly(rows);
    }
    GroupsAddUp(deals, magic, ExitVolume, ClosedVolumeOf);
  }

  function EntryVolume(d: Deal): real { if IsEntry(d) then d.volume else 0.0 }

  lemma {:induction false} EntriesOnly(rows: seq<Deal>)
    ensures Sum(Filter(rows, IsEntry), Volume) == Sum(rows, EntryVolume)
  {
    if rows != [] {
      var rest := Filter(rows[..|rows| - 1], IsEntry);
      EntriesOnly(rows[..|rows| - 1]);
      assert rest + [] == rest && (rest + [rows[|rows| - 1]])[..|rest|] == rest;
    }
  }

  predicate NoNegative(rows: seq<Deal>) {
    forall k :: 0 <= k < |rows| ==> rows[k].volume >= 0.0
  }

  lemma {:induction false} EntriesAreNotNegative(rows: seq<Deal>)
    requires NoNegative(rows)
    ensures Sum(rows, EntryVolume) >= 0.0
  {
    if rows != [] { EntriesAreNotNegative(rows[..|rows| - 1]); }
  }

  lemma {:induction false} FilterOnlyKeeps(rows: seq<Deal>, keep: Deal -> bool)
    requires NoNegative(rows)
    ensures NoNegative(Filter(rows, keep))
  {
    if rows != [] { FilterOnlyKeeps(rows[..|rows| - 1], keep); }
  }

  // The volume of one position, when it has any entry volume.
  function EnteredVolume(id: string, rows: seq<Deal>): real
    requires rows != []
  {
    if Sum(rows, EntryVolume) > 0.0 then BuildPosition(id, rows).volume else 0.0
  }

  function SumEntered(ids: seq<string>, deals: seq<Deal>, magic: int): real
    requires Covered(ids, deals, magic)
  {
    if ids == [] then 0.0
    else
      var n := |ids| - 1;
      SumEntered(ids[..n], deals, magic) + EnteredVolume(ids[n], Bucket(deals, magic, ids[n]))
  }

  lemma {:induction false} EnteredAddsUp(ids: seq<string>, deals: seq<Deal>, magic: int)
    requires Covered(ids, deals, magic) && NoNegative(deals)
    ensures SumEntered(ids, deals, magic) == SumBuckets(ids, deals, magic, EntryVolume)
  {
    if ids != [] {
      var n := |ids| - 1;
      var rows := Bucket(deals, magic, ids[n]);
      EnteredAddsUp(ids[..n], deals, magic);
      EntriesOnly(rows);
      FilterOnlyKeeps(deals, Belongs(magic, ids[n]));
      EntriesAreNotNegative(rows);
    }
  }

  // Entry volume: over the positions that have any, exactly the entry volume of the bot's own deals,
  // for non-negative volumes. A position without any shows its closed volume instead.
  lemma EntryVolumeIsConserved(deals: seq<Deal>, magic: int)
    requires NoNegative(deals)
    ensures var ids := SortIds(Ids(deals, magic));
      && Covered(ids, deals, magic) && SumEntered(ids, deals, magic) == Sum(Filter(deals, Owned(magic)), EntryVolume)
  {
    var ids := SortIds(Ids(deals, magic));
    KeysAreCovered(deals, magic);
    EnteredAddsUp(ids, deals, magic);
    forall k | 0 <= k < |deals| && IdOf(deals[k], magic).Some? ensures IdOf(deals[k], magic).value in ids {
      InItsBucket(deals, magic, k);
    }
    forall i, j | 0 <= i < j < |ids| ensures ids[i] != ids[j] { LessTotal(ids[i], ids[j]); }
    BucketsAddUp(ids, deals, magic, EntryVolume);
  }

  lemma {:induction false} Counted(rows: seq<Deal>)
    ensures Sum(rows, One) == |rows| as real
  {
    if rows != [] { Counted(rows[..|rows| - 1]); }
  }

  lemma {:induction false} Split(deals: seq<Deal>, magic: int)
    ensures |Filter(deals, Owned(magic))| + |Filter(deals, Foreign(magic))| == |deals|
  {
    if deals != [] { Split(deals[..|deals| - 1], magic); }
  }

  // Every deal of the feed is ignored or lies in exactly one group.
  lemma FeedIsPartitioned(deals: seq<Deal>, magic: int)
    ensures |Filter(deals, Foreign(magic))| as real + SumBuckets(SortIds(Ids(deals, magic)), deals, magic, One)
      == |deals| as real
  {
    var ids := SortIds(Ids(deals, magic));
    KeysAreCovered(deals, magic);
    forall k | 0 <= k < |deals| && IdOf(deals[k], magic).Some? ensures IdOf(deals[k], magic).value in ids {
      InItsBucket(deals, magic, k);
    }
    forall i, j | 0 <= i < j < |ids| ensures ids[i] != ids[j] { LessTotal(ids[i], ids[j]); }
    BucketsAddUp(ids, deals, magic, One);
    Counted(Filter(deals, Owned(magic)));
    Split(deals, magic);
  }

  // ------------------------------------------------------------------ weighted prices

  lemma {:induction false} ValueBetween(rows: seq<Deal>, low: real, high: real)
    requires forall k :: 0 <= k < |rows| ==> rows[k].volume >= 0.0 && low <= rows[k].price <= high
    ensures low * Sum(rows, Volume) <= Sum(rows, Value) <= high * Sum(rows, Volume)
  {
    if rows != [] {
      var d := rows[|rows| - 1];
      var volume, value := Sum(rows[..|rows| - 1], Volume), Sum(rows[..|rows| - 1], Value);
      ValueBetween(rows[..|rows| - 1], low, high);
      ProductsBetween(low, d.price, high, d.volume);
      assert low * (volume + d.volume) == low * volume + low * d.volume;
      assert high * (volume + d.volume) == high * volume + high * d.volume;
    }
  }

  lemma ProductsBetween(low: real, price: real, high: real, volume: real)
    requires low <= price <= high && volume >= 0.0
    ensures low * volume <= price * volume <= high * volume
  {
    assert (price - low) * volume >= 0.0 && (high - price) * volume >= 0.0;
  }

  lemma QuotientBetween(low: real, value: real, high: real, volume: real)
    requires volume > 0.0 && low * volume <= value <= high * volume
    ensures low <= value / volume <= high
  {
  }

  // A volume-weighted price lies between the least and the greatest price it averages.
  lemma WeightedPriceBetween(rows: seq<Deal>, low: real, high: real)
    requires forall k :: 0 <= k < |rows| ==> rows[k].volume >= 0.0 && low <= rows[k].price <= high
    requires WeightedPrice(rows).Some?
    ensures low <= WeightedPrice(rows).value <= high
  {
    ValueBetween(rows, low, high);
    QuotientBetween(low, Sum(rows, Value), high, Sum(rows, Volume));
  }

  // ------------------------------------------------------------------ feed order

  predicate Permuted(a: seq<Deal>, b: seq<Deal>) {
    multiset(a) == multiset(b)
  }

  lemma {:induction false} FilterCount(rows: seq<Deal>, keep: Deal -> bool, d: Deal)
    ensures multiset(Filter(rows, keep))[d] == if keep(d) then multiset(rows)[d] else 0
  {
    if rows != [] {
      FilterCount(rows[..|rows| - 1], keep, d);
      assert rows == rows[..|rows| - 1] + [rows[|rows| - 1]];
    }
  }

  lemma FilterPermuted(a: seq<Deal>, b: seq<Deal>, keep: Deal -> bool)
    requires Permuted(a, b)
    ensures Permuted(Filter(a, keep), Filter(b, keep))
  {
    forall d ensures multiset(Filter(a, keep))[d] == multiset(Filter(b, keep))[d] {
      FilterCount(a, keep, d);
      FilterCount(b, keep, d);
    }
  }

  lemma {:induction false} SumWithout(rows: seq<Deal>, j: nat, f: Deal -> real)
    requires j < |rows|
    ensures Sum(rows, f) == Sum(rows[..j] + rows[j + 1..], f) + f(rows[j])
  {
    var n := |rows| - 1;
    var less := rows[..j] + rows[j + 1..];
    if j < n {
      SumWithout(rows[..n], j, f);
      assert less[..n - 1] == rows[..n][..j] + rows[..n][j + 1..];
    } else {
      assert less == rows[..n];
    }
  }

  lemma RemovedFrom(b: seq<Deal>, j: nat)
    requires j < |b|
    ensures multiset(b[..j] + b[j + 1..]) == multiset(b) - multiset{b[j]}
  {
    assert b == b[..j] + ([b[j]] + b[j + 1..]);
  }

  lemma {:induction false} SumPermuted(a: seq<Deal>, b: seq<Deal>, f: Deal -> real)
    requires Permuted(a, b)
    ensures Sum(a, f) == Sum(b, f)
    decreases |a|
  {
    if a != [] {
      var n := |a| - 1;
      assert a == a[..n] + [a[n]];
      assert a[n] in multiset(b);
      var j :| 0 <= j < |b| && b[j] == a[n];
      RemovedFrom(b, j);
      SumPermuted(a[..n], b[..j] + b[j + 1..], f);
      SumWithout(b, j, f);
    } else {
      assert |multiset(b)| == 0;
    }
  }

  lemma {:induction false} EarliestIs(rows: seq<Deal>)
    ensures Earliest(rows).None? <==> forall d :: d in rows ==> d.time.None?
    ensures Earliest(rows).Some? ==> (exists d :: d in rows && d.time == Earliest(rows))
    ensures Earliest(rows).Some? ==> forall d :: d in rows && d.time.Some? ==> Earliest(rows).value <= d.time.value
  {
    if rows != [] {
      EarliestIs(rows[..|rows| - 1]);
      assert rows == rows[..|rows| - 1] + [rows[|rows| - 1]];
    }
  }

  lemma {:induction false} LatestIs(rows: seq<Deal>)
    ensures LatestTime(rows).None? <==> forall d :: d in rows ==> d.time.None?
    ensures LatestTime(rows).Some? ==> (exists d :: d in rows && d.time == LatestTime(rows))
    ensures LatestTime(rows).Some? ==> forall d :: d in rows && d.time.Some? ==> LatestTime(rows).value >= d.time.value
  {
    if rows != [] {
      LatestIs(rows[..|rows| - 1]);
      assert rows == rows[..|rows| - 1] + [rows[|rows| - 1]];
    }
  }

  lemma SameMembers(a: seq<Deal>, b: seq<Deal>)
    requires Permuted(a, b)
    ensures forall d :: d in a <==> d in b
    ensures Earliest(a) == Earliest(b) && LatestTime(a) == LatestTime(b) && Tickets(a) == Tickets(b)
  {
    forall d ensures d in a <==> d in b { assert d in a <==> d in multiset(a); }
    SameTimes(a, b);
  }

  lemma SameTimes(a: seq<Deal>, b: seq<Deal>)
    requires forall d :: d in a <==> d in b
    ensures Earliest(a) == Earliest(b) && LatestTime(a) == LatestTime(b)
  {
    EarliestIs(a);
    EarliestIs(b);
    LatestIs(a);
    LatestIs(b);
  }

  lemma {:induction false} PlaceKeeps(sorted: seq<Deal>, d: Deal)
    ensures multiset(Place(sorted, d)) == multiset(sorted) + multiset{d}
  {
    if !(sorted == [] || NotAfter(sorted[|sorted| - 1], d)) {
      PlaceKeeps(sorted[..|sorted| - 1], d);
      assert sorted == sorted[..|sorted| - 1] + [sorted[|sorted| - 1]];
    }
  }

  lemma {:induction false} ByTimePermutes(rows: seq<Deal>)
    ensures Permuted(ByTime(rows), rows)
  {
    if rows != [] {
      ByTimePermutes(rows[..|rows| - 1]);
      PlaceKeeps(ByTime(rows[..|rows| - 1]), rows[|rows| - 1]);
      assert rows == rows[..|rows| - 1] + [rows[|rows| - 1]];
    }
  }

  // Everything a position says about money, volume, prices, times and tickets.
  predicate SameFacts(p: Position, q: Position) {
    && p.id == q.id && p.volume == q.volume && p.volumeClosed == q.volumeClosed && p.closed == q.closed
    && p.entryPrice == q.entryPrice && p.exitPrice == q.exitPrice
    && p.openTime == q.openTime && p.closeTime == q.closeTime
    && p.profit == q.profit && p.commission == q.commission && p.swap == q.swap && p.tickets == q.tickets
  }

  lemma PricePermuted(a: seq<Deal>, b: seq<Deal>)
    requires Permuted(a, b)
    ensures WeightedPrice(a) == WeightedPrice(b) && Sum(a, Volume) == Sum(b, Volume) && (a == [] <==> b == [])
  {
    SumPermuted(a, b, Volume);
    SumPermuted(a, b, Value);
    assert |multiset(a)| == |a| && |multiset(b)| == |b|;
  }

  lemma PositionPermuted(id: string, a: seq<Deal>, b: seq<Deal>)
    requires a != [] && b != [] && Permuted(a, b)
    ensures SameFacts(BuildPosition(id, a), BuildPosition(id, b))
  {
    FilterPermuted(a, b, IsEntry);
    FilterPermuted(a, b, IsExit);
    ByTimePermutes(a);
    ByTimePermutes(b);
    PricePermuted(Filter(a, IsEntry), Filter(b, IsEntry));
    PricePermuted(Filter(a, IsExit), Filter(b, IsExit));
    PricePermuted(ByTime(a), ByTime(b));
    SameMembers(Filter(a, IsEntry), Filter(b, IsEntry));
    SameMembers(Filter(a, IsExit), Filter(b, IsExit));
    SameMembers(ByTime(a), ByTime(b));
    SameMembers(a, b);
    SumPermuted(a, b, Profit);
    SumPermuted(a, b, Commission);
    SumPermuted(a, b, Swap);
  }

  // Feed order changes none of it: the same positions, in the same order, with the same facts.
  lemma FeedOrderIsIrrelevant(a: seq<Deal>, b: seq<Deal>, magic: int)
    requires Permuted(a, b)
    ensures |PositionsOf(a, magic)| == |PositionsOf(b, magic)|
    ensures forall k :: 0 <= k < |PositionsOf(a, magic)| ==>
      SameFacts(PositionsOf(a, magic)[k], PositionsOf(b, magic)[k])
  {
    KeysAreCovered(a, magic);
    KeysAreCovered(b, magic);
    var ids, other := SortIds(Ids(a, magic)), SortIds(Ids(b, magic));
    forall id ensures Permuted(Bucket(a, magic, id), Bucket(b, magic, id)) && (id in ids <==> id in other) {
      FilterPermuted(a, b, Belongs(magic, id));
      assert |multiset(Bucket(a, magic, id))| == |Bucket(a, magic, id)|;
      assert |multiset(Bucket(b, magic, id))| == |Bucket(b, magic, id)|;
    }
    SortedIsUnique(ids, other);
    forall k | 0 <= k < |ids| ensures SameFacts(PositionsOf(a, magic)[k], PositionsOf(b, magic)[k]) {
      PositionPermuted(ids[k], Bucket(a, magic, ids[k]), Bucket(b, magic, ids[k]));
    }
  }

  // ------------------------------------------------------------------ what hangs on the order of the times

  predicate TimeSorted(rows: seq<Deal>) {
    forall i, j :: 0 <= i < j < |rows| ==> NotAfter(rows[i], rows[j])
  }

  lemma {:induction false} PlaceKeepsSorted(sorted: seq<Deal>, d: Deal)
    requires TimeSorted(sorted)
    ensures TimeSorted(Place(sorted, d))
  {
    if !(sorted == [] || NotAfter(sorted[|sorted| - 1], d)) {
      var n := |sorted| - 1;
      var front := Place(sorted[..n], d);
      PlaceKeepsSorted(sorted[..n], d);
      PlaceKeeps(sorted[..n], d);
      forall i | 0 <= i < |front| ensures NotAfter(front[i], sorted[n]) {
        assert front[i] in multiset(sorted[..n]) + multiset{d};
      }
    }
  }

  lemma {:induction false} ByTimeSorts(rows: seq<Deal>)
    ensures TimeSorted(ByTime(rows))
  {
    if rows != [] {
      ByTimeSorts(rows[..|rows| - 1]);
      PlaceKeepsSorted(ByTime(rows[..|rows| - 1]), rows[|rows| - 1]);
    }
  }

  // Two deals of one moment are one deal.
  predicate TellApart(rows: seq<Deal>) {
    forall i, j :: 0 <= i < |rows| && 0 <= j < |rows| && rows[i].time == rows[j].time ==> rows[i] == rows[j]
  }

  lemma WithoutLast(a: seq<Deal>)
    requires a != []
    ensures multiset(a[..|a| - 1]) == multiset(a) - multiset{a[|a| - 1]}
  {
    assert a == a[..|a| - 1] + [a[|a| - 1]];
  }

  lemma LastIsTheSame(a: seq<Deal>, b: seq<Deal>)
    requires Permuted(a, b) && TimeSorted(a) && TimeSorted(b) && TellApart(a) && a != [] && b != []
    ensures a[|a| - 1] == b[|b| - 1]
  {
    var d, e := a[|a| - 1], b[|b| - 1];
    assert d in multiset(b) && e in multiset(a);
    var i, j :| 0 <= i < |a| && a[i] == e && 0 <= j < |b| && b[j] == d;
    assert i < |a| - 1 ==> NotAfter(e, d);
    assert j < |b| - 1 ==> NotAfter(d, e);
    assert i < |a| - 1 && j < |b| - 1 ==> d.time == e.time;
  }

  lemma FrontsAlike(a: seq<Deal>, b: seq<Deal>, c: seq<Deal>, d: seq<Deal>)
    requires Permuted(a, b) && TimeSorted(a) && TimeSorted(b) && TellApart(a) && a != [] && b != []
    requires c == a[..|a| - 1] && d == b[..|b| - 1]
    ensures Permuted(c, d) && TimeSorted(c) && TimeSorted(d) && TellApart(c)
    ensures a == c + [b[|b| - 1]] && b == d + [b[|b| - 1]]
  {
    LastIsTheSame(a, b);
    WithoutLast(a);
    WithoutLast(b);
  }

  lemma {:induction false} OneSortedOrder(a: seq<Deal>, b: seq<Deal>)
    requires Permuted(a, b) && TimeSorted(a) && TimeSorted(b) && TellApart(a)
    ensures a == b
    decreases |a|
  {
    assert |multiset(a)| == |a| && |multiset(b)| == |b|;
    if a != [] {
      var c, d := a[..|a| - 1], b[..|b| - 1];
      FrontsAlike(a, b, c, d);
      OneSortedOrder(c, d);
    }
  }

  lemma {:induction false} OneOrderByTime(a: seq<Deal>, b: seq<Deal>)
    requires Permuted(a, b) && TellApart(a)
    ensures ByTime(a) == ByTime(b)
  {
    ByTimePermutes(a);
    ByTimePermutes(b);
    ByTimeSorts(a);
    ByTimeSorts(b);
    SameMembers(ByTime(a), a);
    MembersTellApart(ByTime(a), a);
    OneSortedOrder(ByTime(a), ByTime(b));
  }

  lemma MembersTellApart(rows: seq<Deal>, all: seq<Deal>)
    requires TellApart(all) && forall d :: d in rows <==> d in all
    ensures TellApart(rows)
  {
    forall i, j | 0 <= i < |rows| && 0 <= j < |rows| && rows[i].time == rows[j].time ensures rows[i] == rows[j] {
      assert rows[i] in all && rows[j] in all;
    }
  }

  // What a position takes from its first deal and its first entry.
  predicate SameOrigin(p: Position, q: Position) {
    p.symbol == q.symbol && p.orderTicket == q.orderTicket && p.entryDeal == q.entryDeal && p.comment == q.comment
  }

  lemma {:induction false} OriginOfOrder(id: string, a: seq<Deal>, b: seq<Deal>)
    requires a != [] && b != [] && ByTime(a) == ByTime(b)
    ensures SameOrigin(BuildPosition(id, a), BuildPosition(id, b))
  {
  }

  // When no two deals of a position share a moment, feed order changes neither its symbol nor its order,
  // entry deal and comment.
  lemma FeedOrderKeepsTheOrigin(a: seq<Deal>, b: seq<Deal>, magic: int)
    requires Permuted(a, b) && forall k :: 0 <= k < |PositionsOf(a, magic)| ==>
      TellApart(Bucket(a, magic, PositionsOf(a, magic)[k].id))
    ensures |PositionsOf(a, magic)| == |PositionsOf(b, magic)|
    ensures forall k :: 0 <= k < |PositionsOf(a, magic)| ==>
      SameOrigin(PositionsOf(a, magic)[k], PositionsOf(b, magic)[k])
  {
    FeedOrderIsIrrelevant(a, b, magic);
    KeysAreCovered(a, magic);
    KeysAreCovered(b, magic);
    forall k | 0 <= k < |PositionsOf(a, magic)| ensures SameOrigin(PositionsOf(a, magic)[k], PositionsOf(b, magic)[k]) {
      var id := PositionsOf(a, magic)[k].id;
      assert PositionsOf(b, magic)[k].id == id;
      FilterPermuted(a, b, Belongs(magic, id));
      OneOrderByTime(Bucket(a, magic, id), Bucket(b, magic, id));
      OriginOfOrder(id, Bucket(a, magic, id), Bucket(b, magic, id));
    }
  }
}
