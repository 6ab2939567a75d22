/** Which position a trade is matched with, read off the result alone: tickets first, in the order of the
    trade's columns; then symbol, volume and time, the first one left in the feed. */
module MatchLaws {
  import opened Records
  import opened Grouping
  import opened Matching

  // Equal but for the case of a letter.
  predicate SameLetter(a: char, b: char) {
    a == b || ('a' <= a <= 'z' && a as int - 32 == b as int) || ('a' <= b <= 'z' && b as int - 32 == a as int)
  }

  predicate SameName(a: string, b: string) {
    |a| == |b| && forall i :: 0 <= i < |a| ==> SameLetter(a[i], b[i])
  }

  lemma SameNameIsUpper(a: string, b: string)
    ensures SameName(a, b) <==> Upper(a) == Upper(b)
  {
    if Upper(a) == Upper(b) {
      forall i | 0 <= i < |a| ensures SameLetter(a[i], b[i]) { assert Upper(a)[i] == Upper(b)[i]; }
    }
    if SameName(a, b) {
      forall i | 0 <= i < |a| ensures Upper(a)[i] == Upper(b)[i] { assert SameLetter(a[i], b[i]); }
    }
  }

  // The moment the trade was opened, or else recorded.
  function MomentOf(t: Trade): Option<int> {
    if t.openTime.Some? then t.openTime else t.createdAt
  }

  // Symbols equal up to case, volumes within 1e-6, and times, where both are known, within the window.
  predicate Alike(t: Trade, p: Position, window: int) {
    && SameName(t.symbol, p.symbol)
    && -0.000001 <= p.volume - t.volume <= 0.000001
    && (MomentOf(t).None? || p.openTime.None? || -window <= MomentOf(t).value - p.openTime.value <= window)
  }

  lemma AlikeIsFits(t: Trade, p: Position, window: int)
    ensures Alike(t, p, window) <==> Fits(t, p, window)
  {
    SameNameIsUpper(t.symbol, p.symbol);
  }

  // Some trade before the k-th was matched with the position of this id, by ticket.
  ghost predicate TicketTaken(matched: map<nat, Pair>, trades: seq<Trade>, k: nat, id: string)
    requires k <= |trades|
  {
    exists j :: 0 <= j < k && trades[j].id in matched && matched[trades[j].id].kind == Ticket
      && matched[trades[j].id].position.id == id
  }

  // The same, by ticket at all or by a trade before the k-th.
  ghost predicate Gone(matched: map<nat, Pair>, trades: seq<Trade>, k: nat, id: string)
    requires k <= |trades|
  {
    || TicketTaken(matched, trades, |trades|, id)
    || (exists j :: 0 <= j < k && trades[j].id in matched && matched[trades[j].id].position.id == id)
  }

  predicate FirstAt(positions: seq<Position>, ticket: string, n: int) {
    0 <= n < |positions| && ticket in positions[n].tickets && forall i :: 0 <= i < n ==> ticket !in positions[i].tickets
  }

  // p is the first position of the feed that carries the ticket.
  ghost predicate FirstCarrier(positions: seq<Position>, ticket: string, p: Position) {
    exists n :: FirstAt(positions, ticket, n) && positions[n] == p
  }

  // A ticket the trade cannot be matched by: missing, carried by no position, or by one already taken.
  ghost predicate Spent(matched: map<nat, Pair>, trades: seq<Trade>, k: nat, positions: seq<Position>,
      ticket: Option<string>)
    requires k <= |trades|
  {
    ticket.Some? && (exists i :: 0 <= i < |positions| && ticket.value in positions[i].tickets) ==>
      exists p :: FirstCarrier(positions, ticket.value, p) && TicketTaken(matched, trades, k, p.id)
  }

  function TicketsOf(t: Trade): seq<Option<string>> {
    [t.positionTicket, t.dealTicket, t.orderTicket]
  }

  // The k-th trade is matched with the first carrier of one of its tickets, all earlier ones being spent.
  ghost predicate ByItsTicket(matched: map<nat, Pair>, trades: seq<Trade>, k: nat, positions: seq<Position>,
      p: Position)
    requires k <= |trades|
  {
    k < |trades| && exists c :: 0 <= c < 3 && ByTicketNumber(matched, trades, k, positions, p, c)
  }

  ghost predicate ByTicketNumber(matched: map<nat, Pair>, trades: seq<Trade>, k: nat, positions: seq<Position>,
      p: Position, c: nat)
    requires k < |trades| && c < 3
  {
    var tickets := TicketsOf(trades[k]);
    && tickets[c].Some? && FirstCarrier(positions, tickets[c].value, p)
    && forall b :: 0 <= b < c ==> Spent(matched, trades, k, positions, tickets[b])
  }

  ghost predicate AllSpent(matched: map<nat, Pair>, trades: seq<Trade>, k: nat, positions: seq<Position>)
    requires k < |trades|
  {
    forall b :: 0 <= b < 3 ==> Spent(matched, trades, k, positions, TicketsOf(trades[k])[b])
  }

  // The k-th trade is matched with the first position of the feed that is like it and was left.
  ghost predicate ByItsLikeness(matched: map<nat, Pair>, trades: seq<Trade>, k: nat, positions: seq<Position>,
      p: Position, window: int)
    requires k < |trades|
  {
    exists n :: 0 <= n < |positions| && positions[n] == p && Alike(trades[k], p, window)
      && forall i :: 0 <= i < n && Alike(trades[k], positions[i], window) ==>
           Gone(matched, trades, k, positions[i].id)
  }

  // ------------------------------------------------------------------ tickets

  lemma {:induction false} HolderIsFirst(positions: seq<Position>, ticket: string)
    ensures var h := Holder(positions, ticket);
      && (h.None? <==> forall i :: 0 <= i < |positions| ==> ticket !in positions[i].tickets)
      && (h.Some? ==> FirstCarrier(positions, ticket, h.value))
  {
    if positions != [] {
      var m := |positions| - 1;
      HolderIsFirst(positions[..m], ticket);
      assert forall i :: 0 <= i < m ==> positions[..m][i] == positions[i];
      if Holder(positions[..m], ticket).Some? {
        var n :| FirstAt(positions[..m], ticket, n) && positions[..m][n] == Holder(positions, ticket).value;
        assert FirstAt(positions, ticket, n);
      } else if ticket in positions[m].tickets {
        assert FirstAt(positions, ticket, m);
      }
    }
  }

  lemma MatchedEarlier(trades: seq<Trade>, k: nat, matched: map<nat, Pair>, id: nat)
    requires k <= |trades| && id in matched && matched.Keys <= IdSet(trades[..k])
    ensures exists j :: 0 <= j < k && trades[j].id == id
  {
    var t :| t in trades[..k] && t.id == id;
    var j :| 0 <= j < k && trades[..k][j] == t;
    assert trades[j].id == id;
  }

  lemma {:induction false} TicketPhaseByTicket(trades: seq<Trade>, positions: seq<Position>)
    ensures forall id :: id in TicketPhase(trades, positions).matched ==>
      TicketPhase(trades, positions).matched[id].kind == Ticket
  {
    if trades != [] { TicketPhaseByTicket(trades[..|trades| - 1], positions); }
  }

  // What the matching of all trades keeps of the ticket phase up to the k-th.
  predicate Extends(matched: map<nat, Pair>, before: map<nat, Pair>) {
    forall id :: id in before ==> id in matched && matched[id] == before[id]
  }

  // A position that was taken when the k-th trade had its turn by ticket.
  lemma TakenEarlier(trades: seq<Trade>, positions: seq<Position>, k: nat, matched: map<nat, Pair>, id: string)
    requires UniqueIds(trades) && k <= |trades|
    requires var o := TicketPhase(trades[..k], positions); Extends(matched, o.matched) && id in o.taken
    ensures TicketTaken(matched, trades, k, id)
  {
    var o := TicketPhase(trades[..k], positions);
    TicketPhaseIsSound(trades[..k], positions);
    TicketPhaseByTicket(trades[..k], positions);
    var a :| a in o.matched && o.matched[a].position.id == id;
    MatchedEarlier(trades, k, o.matched, a);
    var j :| 0 <= j < k && trades[j].id == a;
    assert matched[trades[j].id] == o.matched[a];
  }

  lemma NotFreeIsSpent(trades: seq<Trade>, positions: seq<Position>, k: nat, matched: map<nat, Pair>,
      ticket: Option<string>)
    requires UniqueIds(trades) && k <= |trades|
    requires var o := TicketPhase(trades[..k], positions);
      Extends(matched, o.matched) && Free(positions, o.taken, ticket).None?
    ensures Spent(matched, trades, k, positions, ticket)
  {
    if ticket.Some? {
      HolderIsFirst(positions, ticket.value);
      var h := Holder(positions, ticket.value);
      if h.Some? {
        TakenEarlier(trades, positions, k, matched, h.value.id);
      }
    }
  }

  lemma FreeIsFirst(positions: seq<Position>, taken: set<string>, ticket: Option<string>)
    requires Free(positions, taken, ticket).Some?
    ensures ticket.Some? && FirstCarrier(positions, ticket.value, Free(positions, taken, ticket).value)
  {
    HolderIsFirst(positions, ticket.value);
  }

  lemma PickIsByTicket(trades: seq<Trade>, positions: seq<Position>, k: nat, matched: map<nat, Pair>, p: Position)
    requires UniqueIds(trades) && k < |trades|
    requires var o := TicketPhase(trades[..k], positions);
      Extends(matched, o.matched) && TicketPick(trades[k], positions, o.taken) == Some(p)
    ensures ByItsTicket(matched, trades, k, positions, p)
  {
    var taken, tickets := TicketPhase(trades[..k], positions).taken, TicketsOf(trades[k]);
    var c := if Free(positions, taken, tickets[0]).Some? then 0
      else if Free(positions, taken, tickets[1]).Some? then 1 else 2;
    FreeIsFirst(positions, taken, tickets[c]);
    forall b | 0 <= b < c ensures Spent(matched, trades, k, positions, tickets[b]) {
      NotFreeIsSpent(trades, positions, k, matched, tickets[b]);
    }
    assert ByTicketNumber(matched, trades, k, positions, p, c);
  }

  // The k-th trade's turn by ticket: matched with a carrier then, or every ticket is spent.
  lemma TicketTurn(trades: seq<Trade>, positions: seq<Position>, k: nat, matched: map<nat, Pair>)
    requires UniqueIds(trades) && k < |trades| && Extends(matched, TicketPhase(trades, positions).matched)
    ensures var o := TicketPhase(trades, positions);
      if trades[k].id in o.matched then
        o.matched[trades[k].id].kind == Ticket
          && ByItsTicket(matched, trades, k, positions, o.matched[trades[k].id].position)
      else AllSpent(matched, trades, k, positions)
  {
    var before, o := TicketPhase(trades[..k], positions), TicketPhase(trades, positions);
    TicketPhaseGrows(trades, positions, k);
    TicketPhaseByTicket(trades, positions);
    if trades[k].id in o.matched {
      TurnIsPick(trades, positions, k);
      PickIsByTicket(trades, positions, k, matched, o.matched[trades[k].id].position);
    } else {
      forall b | 0 <= b < 3 ensures Spent(matched, trades, k, positions, TicketsOf(trades[k])[b]) {
        NotFreeIsSpent(trades, positions, k, matched, TicketsOf(trades[k])[b]);
      }
    }
  }

  lemma TurnIsPick(trades: seq<Trade>, positions: seq<Position>, k: nat)
    requires UniqueIds(trades) && k < |trades| && trades[k].id in TicketPhase(trades, positions).matched
    ensures TicketPick(trades[k], positions, TicketPhase(trades[..k], positions).taken)
      == Some(TicketPhase(trades, positions).matched[trades[k].id].position)
  {
    var next := trades[..k + 1];
    assert next[..k] == trades[..k] && next[k] == trades[k];
    TicketPhaseGrows(trades, positions, k);
    if k + 1 < |trades| {
      TicketPhaseGrows(trades, positions, k + 1);
    } else {
      assert next == trades;
    }
    assert TicketPhase(next, positions)
      == Took(TicketPhase(trades[..k], positions), trades[k],
        TicketPick(trades[k], positions, TicketPhase(trades[..k], positions).taken), Ticket);
  }

  // ------------------------------------------------------------------ likeness

  lemma {:induction false} PickIsTheFirst(t: Trade, positions: seq<Position>, taken: set<string>, window: int)
    requires FallbackPick(t, positions, taken, window).Some?
    ensures FirstLike(t, positions, taken, window, FallbackPick(t, positions, taken, window).value)
  {
    if positions[0].id !in taken && Fits(t, positions[0], window) {
      AlikeIsFits(t, positions[0], window);
      assert FirstLikeAt(t, positions, taken, window, positions[0], 0);
    } else {
      var rest := positions[1..];
      var p := FallbackPick(t, rest, taken, window).value;
      PickIsTheFirst(t, rest, taken, window);
      var n :| FirstLikeAt(t, rest, taken, window, p, n);
      AlikeIsFits(t, positions[0], window);
      forall i | 0 <= i < n + 1 && Alike(t, positions[i], window) ensures positions[i].id in taken {
        if i > 0 { assert rest[i - 1] == positions[i]; }
      }
      assert FirstLikeAt(t, positions, taken, window, p, n + 1);
    }
  }

  predicate FirstLikeAt(t: Trade, positions: seq<Position>, taken: set<string>, window: int, p: Position, n: int) {
    0 <= n < |positions| && positions[n] == p && Alike(t, p, window)
      && forall i :: 0 <= i < n && Alike(t, positions[i], window) ==> positions[i].id in taken
  }

  ghost predicate FirstLike(t: Trade, positions: seq<Position>, taken: set<string>, window: int, p: Position) {
    exists n :: FirstLikeAt(t, positions, taken, window, p, n)
  }

  // What was taken before the k-th trade's turn by likeness: by ticket, or by an earlier trade.
  lemma GoneEarlier(trades: seq<Trade>, positions: seq<Position>, window: int, k: nat, matched: map<nat, Pair>,
      id: string, o: Outcome)
    requires UniqueIds(trades) && k <= |trades|
    requires o == FallbackPhase(trades[..k], positions, window, TicketPhase(trades, positions))
    requires Extends(matched, o.matched) && id in o.taken
    ensures Gone(matched, trades, k, id)
  {
    var first := TicketPhase(trades, positions);
    TicketPhaseIsSound(trades, positions);
    FallbackPhaseIsSound(trades[..k], positions, window, first);
    var a :| a in o.matched && o.matched[a].position.id == id;
    if a in first.matched {
      assert trades[..|trades|] == trades;
      TakenEarlier(trades, positions, |trades|, matched, id);
    } else {
      MatchedLater(trades, k, a);
    }
  }

  lemma MatchedLater(trades: seq<Trade>, k: nat, id: nat)
    requires k <= |trades| && id in IdSet(trades[..k])
    ensures exists j :: 0 <= j < k && trades[j].id == id
  {
    var t :| t in trades[..k] && t.id == id;
    var j :| 0 <= j < k && trades[..k][j] == t;
    assert trades[j].id == id;
  }

  lemma {:induction false} FallbackKind(some: seq<Trade>, positions: seq<Position>, window: int, first: Outcome)
    ensures var o := FallbackPhase(some, positions, window, first);
      forall id :: id in o.matched && o.matched[id].kind == Ticket ==>
        id in first.matched && o.matched[id] == first.matched[id]
  {
    if some != [] { FallbackKind(some[..|some| - 1], positions, window, first); }
  }

  lemma OneMoreExtends(some: seq<Trade>, positions: seq<Position>, window: int, first: Outcome, o: Outcome)
    requires UniqueIds(some) && Sound(first, positions) && some != []
      && o == FallbackPhase(some[..|some| - 1], positions, window, first)
    ensures Extends(FallbackPhase(some, positions, window, first).matched, o.matched)
  {
    IdSetStep(some);
    FallbackPhaseIsSound(some[..|some| - 1], positions, window, first);
    TookExtends(o, some[|some| - 1], FallbackPick(some[|some| - 1], positions, o.taken, window), first);
  }

  lemma TookExtends(o: Outcome, t: Trade, p: Option<Position>, first: Outcome)
    requires t.id !in first.matched ==> t.id !in o.matched
    ensures Extends(if t.id in first.matched then o.matched else Took(o, t, p, Fallback).matched, o.matched)
  {
  }

  // The matching of all trades keeps what the first n were matched with.
  lemma {:induction false} FallbackExtends(trades: seq<Trade>, positions: seq<Position>, window: int, first: Outcome,
      n: nat)
    requires UniqueIds(trades) && Sound(first, positions) && n <= |trades|
    ensures Extends(FallbackPhase(trades, positions, window, first).matched,
      FallbackPhase(trades[..n], positions, window, first).matched)
    decreases |trades|
  {
    if n < |trades| {
      var front := trades[..|trades| - 1];
      OneMoreExtends(trades, positions, window, first, FallbackPhase(front, positions, window, first));
      FallbackExtends(front, positions, window, first, n);
      assert front[..n] == trades[..n];
    } else {
      assert trades[..n] == trades;
    }
  }

  // The k-th trade's own turn by likeness.
  lemma LikenessTurn(trades: seq<Trade>, positions: seq<Position>, window: int, first: Outcome, k: nat, before: Outcome)
    requires UniqueIds(trades) && Sound(first, positions) && k < |trades| && trades[k].id !in first.matched
    requires before == FallbackPhase(trades[..k], positions, window, first)
    ensures var o := FallbackPhase(trades, positions, window, first);
      var pick := FallbackPick(trades[k], positions, before.taken, window);
      && Extends(o.matched, before.matched) && before.taken <= o.taken
      && (if trades[k].id in o.matched then pick == Some(o.matched[trades[k].id].position) else pick.None?)
  {
    var next := trades[..k + 1];
    assert next[..k] == trades[..k] && next[k] == trades[k];
    FallbackPhaseGrows(trades, positions, window, first, k);
    FallbackExtends(trades, positions, window, first, k);
    FallbackExtends(trades, positions, window, first, k + 1);
    assert FallbackPhase(next, positions, window, first)
      == Took(before, trades[k], FallbackPick(trades[k], positions, before.taken, window), Fallback);
  }

  // ------------------------------------------------------------------ main result

  // No trade was matched with the position of this id.
  predicate Left(matched: map<nat, Pair>, id: string) {
    forall a :: a in matched ==> matched[a].position.id != id
  }

  // The position of the pair is the one the rules give the k-th trade.
  ghost predicate Rightly(matched: map<nat, Pair>, trades: seq<Trade>, k: nat, positions: seq<Position>,
      window: int, pair: Pair)
    requires k < |trades|
  {
    match pair.kind
    case Ticket => ByItsTicket(matched, trades, k, positions, pair.position)
    case Fallback => (
      AllSpent(matched, trades, k, positions)
        && ByItsLikeness(matched, trades, k, positions, pair.position, window))
  }

  // No rule gives the k-th trade anything that is left.
  ghost predicate Unlike(matched: map<nat, Pair>, trades: seq<Trade>, k: nat, positions: seq<Position>, window: int)
    requires k < |trades|
  {
    AllSpent(matched, trades, k, positions)
    && forall i :: 0 <= i < |positions| && Left(matched, positions[i].id) ==> !Alike(trades[k], positions[i], window)
  }

  lemma LikenessIs(trades: seq<Trade>, positions: seq<Position>, window: int, k: nat, first: Outcome, o: Outcome)
    requires UniqueIds(trades) && k < |trades| && first == TicketPhase(trades, positions)
      && o == MatchAll(trades, positions, window) && trades[k].id !in first.matched
    ensures trades[k].id in o.matched ==>
      ByItsLikeness(o.matched, trades, k, positions, o.matched[trades[k].id].position, window)
    ensures trades[k].id !in o.matched ==>
      forall i :: 0 <= i < |positions| && Left(o.matched, positions[i].id) ==> !Alike(trades[k], positions[i], window)
  {
    var before := FallbackPhase(trades[..k], positions, window, first);
    TicketPhaseIsSound(trades, positions);
    FallbackPhaseIsSound(trades, positions, window, first);
    LikenessTurn(trades, positions, window, first, k, before);
    if trades[k].id in o.matched {
      var p := o.matched[trades[k].id].position;
      PickIsTheFirst(trades[k], positions, before.taken, window);
      var n :| FirstLikeAt(trades[k], positions, before.taken, window, p, n);
      forall i | 0 <= i < n && Alike(trades[k], positions[i], window)
        ensures Gone(o.matched, trades, k, positions[i].id) {
        GoneEarlier(trades, positions, window, k, o.matched, positions[i].id, before);
      }
    } else {
      FallbackPickIs(trades[k], positions, before.taken, window);
      NothingLike(trades[k], positions, before.taken, o, window);
    }
  }

  lemma NothingLike(t: Trade, positions: seq<Position>, taken: set<string>, o: Outcome, window: int)
    requires NoFreeFit(t, positions, taken, window) && taken <= o.taken && Sound(o, positions)
    ensures forall i :: 0 <= i < |positions| && Left(o.matched, positions[i].id) ==> !Alike(t, positions[i], window)
  {
    forall i | 0 <= i < |positions| && Left(o.matched, positions[i].id) ensures !Alike(t, positions[i], window) {
      AlikeIsFits(t, positions[i], window);
      assert positions[i].id !in o.taken;
    }
  }

  // Each trade has what the rules give it, or nothing that is left is for it: by the first of its tickets
  // whose first carrier no earlier trade took by ticket; when there is no such ticket, by likeness, the
  // first position of the feed that neither a ticket nor an earlier trade took.
  lemma MatchFollowsTheRules(trades: seq<Trade>, positions: seq<Position>, window: int, k: nat)
    requires UniqueIds(trades) && k < |trades|
    ensures var matched := MatchAll(trades, positions, window).matched;
      if trades[k].id in matched then Rightly(matched, trades, k, positions, window, matched[trades[k].id])
      else Unlike(matched, trades, k, positions, window)
  {
    var first, o := TicketPhase(trades, positions), MatchAll(trades, positions, window);
    TicketPhaseIsSound(trades, positions);
    FallbackPhaseIsSound(trades, positions, window, first);
    FallbackKind(trades, positions, window, first);
    TicketTurn(trades, positions, k, o.matched);
    if trades[k].id !in first.matched { LikenessIs(trades, positions, window, k, first, o); }
  }
}
