/** Reconciler._match: local trades against broker positions, by ticket first and by symbol, volume and
    open time second; each side is used at most once. */
module Matching {
  import opened Records
  import opened Grouping

  // One trades row, with the columns reconciliation reads or writes.
  datatype Trade = Trade(
    id: nat, tradeId: string, symbol: string, volume: real, status: Status,
    createdAt: Option<int>, openTime: Option<int>, closeTime: Option<int>, reconciledAt: Option<int>,
    executedPrice: Option<real>, exitPrice: Option<real>, volumeClosed: Option<real>,
    commission: Option<real>, swap: Option<real>, profit: Option<real>,
    positionTicket: Option<string>, dealTicket: Option<string>, orderTicket: Option<string>,
    closeReason: Option<string>)

  datatype Kind = Ticket | Fallback
  datatype Pair = Pair(position: Position, kind: Kind)
  datatype Outcome = Outcome(matched: map<nat, Pair>, taken: set<string>)

  predicate UniqueIds(trades: seq<Trade>) {
    forall i, j :: 0 <= i < j < |trades| ==> trades[i].id != trades[j].id
  }

  predicate DistinctPositions(positions: seq<Position>) {
    forall i, j :: 0 <= i < j < |positions| ==> positions[i].id != positions[j].id
  }

  function Upper(s: string): string {
    seq(|s|, i requires 0 <= i < |s| => if 'a' <= s[i] <= 'z' then (s[i] as int - 32) as char else s[i])
  }

  // by_ticket.get(ticket): setdefault keeps the first position that carries the ticket.
  function Holder(positions: seq<Position>, ticket: string): Option<Position> {
    if positions == [] then None
    else
      var rest := Holder(positions[..|positions| - 1], ticket);
      if rest.Some? then rest
      else if ticket in positions[|positions| - 1].tickets then Some(positions[|positions| - 1]) else None
  }

  function Free(positions: seq<Position>, taken: set<string>, ticket: Option<string>): Option<Position> {
    if ticket.None? then None
    else
      var p := Holder(positions, ticket.value);
      if p.Some? && p.value.id !in taken then p else None
  }

  function TicketPick(t: Trade, positions: seq<Position>, taken: set<string>): Option<Position> {
    Or(Free(positions, taken, t.positionTicket),
      Or(Free(positions, taken, t.dealTicket), Free(positions, taken, t.orderTicket)))
  }

  function Took(o: Outcome, t: Trade, p: Option<Position>, kind: Kind): Outcome {
    if p.None? then o else Outcome(o.matched[t.id := Pair(p.value, kind)], o.taken + {p.value.id})
  }

  function TicketPhase(trades: seq<Trade>, positions: seq<Position>): Outcome {
    if trades == [] then Outcome(map[], {})
    else
      var o, t := TicketPhase(trades[..|trades| - 1], positions), trades[|trades| - 1];
      Took(o, t, TicketPick(t, positions, o.taken), Ticket)
  }

  predicate Fits(t: Trade, p: Position, window: int) {
    var reference := Or(t.openTime, t.createdAt);
    && Upper(p.symbol) == Upper(t.symbol)
    && Abs(p.volume - t.volume) <= 0.000001
    && (reference.Some? && p.openTime.Some? ==> -window <= reference.value - p.openTime.value <= window)
  }

  function FallbackPick(t: Trade, positions: seq<Position>, taken: set<string>, window: int): Option<Position> {
    if positions == [] then None
    else if positions[0].id !in taken && Fits(t, positions[0], window) then Some(positions[0])
    else FallbackPick(t, positions[1..], taken, window)
  }

  function FallbackPhase(trades: seq<Trade>, positions: seq<Position>, window: int, first: Outcome): Outcome {
    if trades == [] then first
    else
      var o, t := FallbackPhase(trades[..|trades| - 1], positions, window, first), trades[|trades| - 1];
      if t.id in first.matched then o else Took(o, t, FallbackPick(t, positions, o.taken, window), Fallback)
  }

  function MatchAll(trades: seq<Trade>, positions: seq<Position>, window: int): Outcome {
    FallbackPhase(trades, positions, window, TicketPhase(trades, positions))
  }

  function Remainder(positions: seq<Position>, taken: set<string>): seq<Position> {
    if positions == [] then []
    else (if positions[0].id in taken then [] else [positions[0]]) + Remainder(positions[1..], taken)
  }

  // ------------------------------------------------------------------ the code

  method Match(trades: seq<Trade>, positions: seq<Position>, window: int)
    returns (matched: map<nat, Pair>, remainder: seq<Position>)
    requires UniqueIds(trades)
    ensures matched == MatchAll(trades, positions, window).matched
    ensures remainder == Remainder(positions, MatchAll(trades, positions, window).taken)
  {
    var byTicket := IndexTickets(positions);
    var taken: set<string>;
    matched, taken := MatchTickets(trades, positions, byTicket);
    ghost var first := TicketPhase(trades, positions);
    var byTicketOnly := matched.Keys;
    for n := 0 to |trades|
      invariant Outcome(matched, taken) == FallbackPhase(trades[..n], positions, window, first)
    {
      var trade := trades[n];
      assert trades[..n + 1][..n] == trades[..n];
      if trade.id !in byTicketOnly {
        var found := FindFitting(trade, positions, taken, window);
        if found.Some? {
          matched, taken := matched[trade.id := Pair(found.value, Fallback)], taken + {found.value.id};
        }
      }
    }
    assert trades[..|trades|] == trades;
    remainder := Remainder(positions, taken);
  }

  method IndexTickets(positions: seq<Position>) returns (byTicket: map<string, Position>)
    ensures forall ticket :: if ticket in byTicket then Holder(positions, ticket) == Some(byTicket[ticket])
      else Holder(positions, ticket) == None
  {
    byTicket := map[];
    for n := 0 to |positions|
      invariant forall ticket :: if ticket in byTicket then Holder(positions[..n], ticket) == Some(byTicket[ticket])
        else Holder(positions[..n], ticket) == None
    {
      var position := positions[n];
      assert positions[..n + 1][..n] == positions[..n];
      byTicket := (map ticket | ticket in position.tickets :: position) + byTicket;
    }
    assert positions[..|positions|] == positions;
  }

  method MatchTickets(trades: seq<Trade>, positions: seq<Position>, byTicket: map<string, Position>)
    returns (matched: map<nat, Pair>, taken: set<string>)
    requires forall ticket :: if ticket in byTicket then Holder(positions, ticket) == Some(byTicket[ticket])
      else Holder(positions, ticket) == None
    ensures Outcome(matched, taken) == TicketPhase(trades, positions)
  {
    matched, taken := map[], {};
    for n := 0 to |trades|
      invariant Outcome(matched, taken) == TicketPhase(trades[..n], positions)
    {
      var trade := trades[n];
      assert trades[..n + 1][..n] == trades[..n];
      var tickets := [trade.positionTicket, trade.dealTicket, trade.orderTicket];
      ghost var before, pick := Outcome(matched, taken), TicketPick(trade, positions, taken);
      var k := 0;
      while k < 3
        invariant 0 <= k <= 3 && Outcome(matched, taken) == before
        invariant forall j :: 0 <= j < k ==> Free(positions, taken, tickets[j]).None?
      {
        var position := if tickets[k].Some? && tickets[k].value in byTicket then Some(byTicket[tickets[k].value])
          else None;
        assert Free(positions, taken, tickets[k]) == if position.Some? && position.value.id !in taken then position
          else None;
        if position.Some? && position.value.id !in taken {
          assert k > 0 ==> Free(positions, taken, tickets[0]).None?;
          assert k > 1 ==> Free(positions, taken, tickets[1]).None?;
          assert pick == position;
          matched, taken := matched[trade.id := Pair(position.value, Ticket)], taken + {position.value.id};
          break;
        }
        k := k + 1;
      }
      assert k == 3 ==>
        Free(positions, taken, tickets[0]).None? && Free(positions, taken, tickets[1]).None?
        && Free(positions, taken, tickets[2]).None?;
      assert Outcome(matched, taken) == Took(before, trade, pick, Ticket);
    }
    assert trades[..|trades|] == trades;
  }

  method FindFitting(trade: Trade, positions: seq<Position>, taken: set<string>, window: int)
      returns (found: Option<Position>)
    ensures found == FallbackPick(trade, positions, taken, window)
  {
    for n := 0 to |positions|
      invariant FallbackPick(trade, positions, taken, window) == FallbackPick(trade, positions[n..], taken, window)
    {
      if positions[n].id !in taken && Fits(trade, positions[n], window) {
        return Some(positions[n]);
      }
      assert positions[n..][1..] == positions[n + 1..];
    }
    found := None;
  }

  // ------------------------------------------------------------------ what a matching is

  ghost function IdSet(trades: seq<Trade>): set<nat> {
    set t | t in trades :: t.id
  }

  predicate Sound(o: Outcome, positions: seq<Position>) {
    && (forall id :: id in o.matched ==> o.matched[id].position in positions)
    && o.taken == (set id | id in o.matched :: o.matched[id].position.id)
    && (forall a, b :: a in o.matched && b in o.matched && a != b ==>
      o.matched[a].position.id != o.matched[b].position.id)
  }

  // No ticket of t leads to a position that is still free.
  predicate NoFreeTicket(t: Trade, positions: seq<Position>, taken: set<string>) {
    && Free(positions, taken, t.positionTicket).None?
    && Free(positions, taken, t.dealTicket).None?
    && Free(positions, taken, t.orderTicket).None?
  }

  predicate NoFreeFit(t: Trade, positions: seq<Position>, taken: set<string>, window: int) {
    forall k :: 0 <= k < |positions| && positions[k].id !in taken ==> !Fits(t, positions[k], window)
  }

  lemma {:induction false} HolderIs(positions: seq<Position>, ticket: string)
    ensures Holder(positions, ticket).Some? ==>
      Holder(positions, ticket).value in positions && ticket in Holder(positions, ticket).value.tickets
    ensures Holder(positions, ticket).None? ==> forall k :: 0 <= k < |positions| ==> ticket !in positions[k].tickets
  {
    if positions != [] { HolderIs(positions[..|positions| - 1], ticket); }
  }

  lemma {:induction false} FallbackPickIs(t: Trade, positions: seq<Position>, taken: set<string>, window: int)
    ensures var p := FallbackPick(t, positions, taken, window);
      && (p.Some? ==> p.value in positions && p.value.id !in taken && Fits(t, p.value, window))
      && (p.None? ==> NoFreeFit(t, positions, taken, window))
  {
    if positions != [] && !(positions[0].id !in taken && Fits(t, positions[0], window)) {
      FallbackPickIs(t, positions[1..], taken, window);
      assert forall k :: 1 <= k < |positions| ==> positions[k] == positions[1..][k - 1];
    }
  }

  lemma TicketPickIs(t: Trade, positions: seq<Position>, taken: set<string>)
    ensures var p := TicketPick(t, positions, taken); p.Some? ==> p.value in positions && p.value.id !in taken
  {
    if t.positionTicket.Some? { HolderIs(positions, t.positionTicket.value); }
    if t.dealTicket.Some? { HolderIs(positions, t.dealTicket.value); }
    if t.orderTicket.Some? { HolderIs(positions, t.orderTicket.value); }
  }

  lemma TookIsSound(o: Outcome, t: Trade, p: Option<Position>, kind: Kind, positions: seq<Position>)
    requires Sound(o, positions) && t.id !in o.matched
    requires p.Some? ==> p.value in positions && p.value.id !in o.taken
    ensures Sound(Took(o, t, p, kind), positions)
  {
    if p.Some? {
      var after := Took(o, t, p, kind);
      assert after.matched[t.id].position.id == p.value.id;
      assert forall id :: id in o.matched ==> id in after.matched && after.matched[id] == o.matched[id];
      assert after.taken == (set id | id in after.matched :: after.matched[id].position.id);
    }
  }

  lemma FreeShrinks(t: Trade, positions: seq<Position>, taken: set<string>, more: set<string>, window: int)
    requires taken <= more
    ensures NoFreeTicket(t, positions, taken) ==> NoFreeTicket(t, positions, more)
    ensures NoFreeFit(t, positions, taken, window) ==> NoFreeFit(t, positions, more, window)
  {
  }

  lemma IdSetStep(trades: seq<Trade>)
    requires trades != [] && UniqueIds(trades)
    ensures var n := |trades| - 1;
      IdSet(trades) == IdSet(trades[..n]) + {trades[n].id} && trades[n].id !in IdSet(trades[..n])
      && UniqueIds(trades[..n])
  {
    var n := |trades| - 1;
    assert trades == trades[..n] + [trades[n]];
  }

  lemma {:induction false} TicketPhaseIsSound(trades: seq<Trade>, positions: seq<Position>)
    requires UniqueIds(trades)
    ensures var o := TicketPhase(trades, positions); Sound(o, positions) && o.matched.Keys <= IdSet(trades)
  {
    if trades != [] {
      var n := |trades| - 1;
      var o, t := TicketPhase(trades[..n], positions), trades[n];
      IdSetStep(trades);
      TicketPhaseIsSound(trades[..n], positions);
      TicketPickIs(t, positions, o.taken);
      TookIsSound(o, t, TicketPick(t, positions, o.taken), Ticket, positions);
    }
  }

  // What a trade's own turn in the ticket phase leaves: it is matched then, or never by ticket.
  lemma {:induction false} TicketPhaseGrows(trades: seq<Trade>, positions: seq<Position>, k: nat)
    requires UniqueIds(trades) && k < |trades|
    ensures var o, before := TicketPhase(trades, positions), TicketPhase(trades[..k], positions);
      && before.taken <= o.taken
      && (forall id :: id in before.matched ==> id in o.matched && o.matched[id] == before.matched[id])
      && (trades[k].id in o.matched <==> TicketPick(trades[k], positions, before.taken).Some?)
    decreases |trades|
  {
    var n := |trades| - 1;
    var o, t := TicketPhase(trades[..n], positions), trades[n];
    IdSetStep(trades);
    TicketPhaseIsSound(trades[..n], positions);
    TookGrows(o, t, TicketPick(t, positions, o.taken), Ticket);
    if k < n {
      TicketPhaseGrows(trades[..n], positions, k);
      assert trades[..n][..k] == trades[..k] && trades[..n][k] == trades[k];
    }
  }

  lemma {:induction false} FallbackPhaseIsSound(some: seq<Trade>, positions: seq<Position>, window: int, first: Outcome)
    requires UniqueIds(some) && Sound(first, positions)
    ensures var o := FallbackPhase(some, positions, window, first);
      && Sound(o, positions) && o.matched.Keys <= first.matched.Keys + IdSet(some)
      && first.taken <= o.taken
      && (forall id :: id in first.matched ==> id in o.matched && o.matched[id] == first.matched[id])
  {
    if some != [] {
      var n := |some| - 1;
      var o, t := FallbackPhase(some[..n], positions, window, first), some[n];
      IdSetStep(some);
      FallbackPhaseIsSound(some[..n], positions, window, first);
      if t.id !in first.matched {
        FallbackPickIs(t, positions, o.taken, window);
        TookIsSound(o, t, FallbackPick(t, positions, o.taken, window), Fallback, positions);
      }
    }
  }

  lemma TookGrows(o: Outcome, t: Trade, p: Option<Position>, kind: Kind)
    ensures o.taken <= Took(o, t, p, kind).taken
    ensures forall id :: id in Took(o, t, p, kind).matched <==> id in o.matched || (p.Some? && id == t.id)
  {
  }

  // What a trade's own turn in the fallback phase leaves: it is matched then, or stays unmatched.
  lemma {:induction false} FallbackPhaseGrows(some: seq<Trade>, positions: seq<Position>, window: int, first: Outcome,
      k: nat)
    requires UniqueIds(some) && Sound(first, positions) && k < |some| && some[k].id !in first.matched
    ensures FallbackPhase(some[..k], positions, window, first).taken
      <= FallbackPhase(some, positions, window, first).taken
    ensures some[k].id in FallbackPhase(some, positions, window, first).matched
       <==> FallbackPick(some[k], positions, FallbackPhase(some[..k], positions, window, first).taken, window).Some?
    decreases |some|
  {
    var n := |some| - 1;
    IdSetStep(some);
    FallbackTurn(some, positions, window, first);
    if k < n {
      FallbackPhaseGrows(some[..n], positions, window, first, k);
      assert some[..n][..k] == some[..k] && some[..n][k] == some[k] && some[n].id != some[k].id;
    }
  }

  // The last trade's turn in the fallback phase.
  lemma FallbackTurn(some: seq<Trade>, positions: seq<Position>, window: int, first: Outcome)
    requires some != [] && UniqueIds(some) && Sound(first, positions)
    ensures var n := |some| - 1;
      var o, after := FallbackPhase(some[..n], positions, window, first), FallbackPhase(some, positions, window, first);
      && o.taken <= after.taken
      && (forall id :: id != some[n].id ==> (id in after.matched <==> id in o.matched))
      && (some[n].id !in first.matched ==>
        (some[n].id in after.matched <==> FallbackPick(some[n], positions, o.taken, window).Some?))
  {
    var n := |some| - 1;
    var o, t := FallbackPhase(some[..n], positions, window, first), some[n];
    IdSetStep(some);
    TookGrows(o, t, FallbackPick(t, positions, o.taken, window), Fallback);
    FallbackPhaseIsSound(some[..n], positions, window, first);
  }

  // The matching is a partial injection of trades into positions, and it is maximal: no unmatched
  // trade has a ticket leading to, or fits, a position that was left over.
  lemma MatchIsAMaximalInjection(trades: seq<Trade>, positions: seq<Position>, window: int)
    requires UniqueIds(trades)
    ensures var o := MatchAll(trades, positions, window);
      && Sound(o, positions) && o.matched.Keys <= IdSet(trades)
      && forall k :: 0 <= k < |trades| && trades[k].id !in o.matched ==>
           NoFreeTicket(trades[k], positions, o.taken) && NoFreeFit(trades[k], positions, o.taken, window)
  {
    var first, o := TicketPhase(trades, positions), MatchAll(trades, positions, window);
    TicketPhaseIsSound(trades, positions);
    FallbackPhaseIsSound(trades, positions, window, first);
    forall k | 0 <= k < |trades| && trades[k].id !in o.matched
      ensures NoFreeTicket(trades[k], positions, o.taken) && NoFreeFit(trades[k], positions, o.taken, window)
    {
      TicketPhaseGrows(trades, positions, k);
      FreeShrinks(trades[k], positions, TicketPhase(trades[..k], positions).taken, o.taken, window);
      FallbackPhaseGrows(trades, positions, window, first, k);
      var before := FallbackPhase(trades[..k], positions, window, first);
      FallbackPickIs(trades[k], positions, before.taken, window);
      FreeShrinks(trades[k], positions, before.taken, o.taken, window);
    }
  }

  // The broker remainder is the exact complement: the positions, in feed order, that no trade took.
  lemma {:induction false} RemainderIsTheComplement(positions: seq<Position>, o: Outcome, all: seq<Position>)
    requires Sound(o, all)
    ensures forall p :: p in Remainder(positions, o.taken) <==> p in positions && forall id :: id in o.matched ==>
      o.matched[id].position.id != p.id
    ensures |Remainder(positions, o.taken)| <= |positions|
  {
    if positions != [] {
      RemainderIsTheComplement(positions[1..], o, all);
      assert forall p :: p in positions <==> p == positions[0] || p in positions[1..];
      var p := positions[0];
      assert p.id in o.taken <==> exists id :: id in o.matched && o.matched[id].position.id == p.id;
    }
  }
}
