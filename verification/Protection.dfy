/** ExecutionService._verify_protection: the position is read back after the fill, repaired once, and
    closed when it is still unprotected. The broker may answer anything at every read. */
module Protection {
  import opened Records

  // A missing attribute is None; symbols are compared in upper case.
  datatype Position = Position(ticket: Option<nat>, symbol: string, magic: Option<int>, sl: Option<real>,
      tp: Option<real>)

  // A modification names a ticket; None is the 0 that stands for a missing one.
  datatype Call = Modify(ticket: Option<nat>, symbol: string, sl: real, tp: real) | Close(target: Position)

  // What one close request comes back with.
  datatype Answer = Raised | NoResult | Result

  datatype Expected = Expected(symbol: string, orderTicket: Option<nat>, sl: real, tp: real, point: Option<real>)

  datatype Report = Report(verified: bool, corrected: bool, closed: bool, position: Option<Position>)

  // Half a point; without a usable point, 1e-9.
  function Tolerance(point: Option<real>): (r: real)
    ensures r > 0.0 && (point.Some? && point.value > 0.0 ==> 2.0 * r == point.value)
  {
    if point.Some? && point.value > 0.0 then point.value / 2.0 else 0.000000001
  }

  function OrZero(x: Option<real>): real {
    if x.Some? then x.value else 0.0
  }

  // An unreadable magic counts as ours.
  predicate Managed(p: Position, magic: int) {
    p.magic == None || p.magic == Some(magic)
  }

  predicate Intact(p: Position, e: Expected) {
    var sl, tp := OrZero(p.sl), OrZero(p.tp);
    && sl > 0.0 && Abs(sl - e.sl) <= Tolerance(e.point)
    && (e.tp > 0.0 ==> tp > 0.0 && Abs(tp - e.tp) <= Tolerance(e.point))
  }

  predicate Wanted(p: Position, wanted: Option<nat>, magic: int) {
    wanted.Some? && Managed(p, magic) && p.ticket == wanted
  }

  // The first managed position with the wanted ticket.
  function ByTicket(positions: seq<Position>, wanted: Option<nat>, magic: int): Option<Position> {
    if positions == [] then None
    else
      var before, last := ByTicket(positions[..|positions| - 1], wanted, magic), positions[|positions| - 1];
      if before.Some? then before else if Wanted(last, wanted, magic) then Some(last) else None
  }

  predicate OnSymbol(p: Position, symbol: string, magic: int) {
    Managed(p, magic) && p.symbol == symbol
  }

  // The managed positions on the symbol.
  function SameSymbol(positions: seq<Position>, symbol: string, magic: int): seq<Position> {
    if positions == [] then []
    else
      var before, last := SameSymbol(positions[..|positions| - 1], symbol, magic), positions[|positions| - 1];
      if OnSymbol(last, symbol, magic) then before + [last] else before
  }

  // _find_position: by ticket first, then the single symbol match.
  function Search(positions: seq<Position>, symbol: string, wanted: Option<nat>, magic: int): Option<Position> {
    var hit, same := ByTicket(positions, wanted, magic), SameSymbol(positions, symbol, magic);
    if hit.Some? then hit else if |same| == 1 then Some(same[0]) else None
  }

  datatype Outcome = Outcome(report: Report, calls: seq<Call>)

  function Lookup(answer: Listing<Position>, symbol: string, wanted: Option<nat>, magic: int): Option<Position> {
    if Returned(answer).None? then None else Search(Returned(answer).value, symbol, wanted, magic)
  }

  // The position a failed repair is closed on.
  function Target(found: Position, second: Listing<Position>, symbol: string, magic: int): Position {
    var repaired := Lookup(second, symbol, found.ticket, magic);
    if repaired.Some? then repaired.value else found
  }

  // `first` and `second` are the gateway's two answers to positions().
  function Protected(e: Expected, magic: int, first: Listing<Position>, second: Listing<Position>,
      answer: Answer): Outcome {
    var position := Lookup(first, e.symbol, e.orderTicket, magic);
    if position.None? then Outcome(Report(false, false, false, None), [])
    else if Intact(position.value, e) then Outcome(Report(true, false, false, position), [])
    else
      var modification := Modify(position.value.ticket, e.symbol, e.sl, e.tp);
      var repaired := Lookup(second, e.symbol, position.value.ticket, magic);
      if repaired.Some? && Intact(repaired.value, e) then Outcome(Report(true, true, false, repaired), [modification])
      else
        var target := Target(position.value, second, e.symbol, magic);
        Outcome(Report(false, false, answer == Result, Some(target)), [modification, Close(target)])
  }

  class Protector {
    const magic: int
    var calls: seq<Call>

    constructor (magic: int)
      ensures this.magic == magic && calls == []
    {
      this.magic := magic;
      calls := [];
    }

    method FindPosition(positions: seq<Position>, symbol: string, wanted: Option<nat>) returns (r: Option<Position>)
      ensures r == Search(positions, symbol, wanted, magic)
    {
      var n := 0;
      while n < |positions|
        invariant 0 <= n <= |positions| && ByTicket(positions[..n], wanted, magic) == None
      {
        assert positions[..n + 1][..n] == positions[..n];
        if Wanted(positions[n], wanted, magic) {
          FirstStays(positions, n + 1, wanted, magic);
          return Some(positions[n]);
        }
        n := n + 1;
      }
      assert positions[..n] == positions;
      var same := SameSymbol(positions, symbol, magic);
      r := if |same| == 1 then Some(same[0]) else None;
    }

    method VerifyProtection(e: Expected, first: Listing<Position>, second: Listing<Position>, answer: Answer)
        returns (report: Report)
      modifies this`calls
      ensures var o := Protected(e, magic, first, second, answer); report == o.report && calls == old(calls) + o.calls
    {
      report := Report(false, false, false, None);
      var position := None;
      var listed := Returned(first);
      if listed.Some? {
        position := FindPosition(listed.value, e.symbol, e.orderTicket);
      }
      if position.None? {
        return;
      }
      report := report.(position := position);
      if Intact(position.value, e) {
        report := report.(verified := true);
        return;
      }
      calls := calls + [Modify(position.value.ticket, e.symbol, e.sl, e.tp)];
      var repaired := None;
      var refreshed := Returned(second);
      if refreshed.Some? {
        repaired := FindPosition(refreshed.value, e.symbol, position.value.ticket);
      }
      if repaired.Some? && Intact(repaired.value, e) {
        report := Report(true, true, false, repaired);
        return;
      }
      var target := if repaired.Some? then repaired.value else position.value;
      calls := calls + [Close(target)];
      report := report.(closed := answer == Result, position := Some(target));
    }
  }

  // ------------------------------------------------------------------ the search

  lemma {:induction false} FirstStays(positions: seq<Position>, n: nat, wanted: Option<nat>, magic: int)
    requires n <= |positions| && ByTicket(positions[..n], wanted, magic).Some?
    ensures ByTicket(positions, wanted, magic) == ByTicket(positions[..n], wanted, magic)
    decreases |positions|
  {
    if n < |positions| {
      var front := positions[..|positions| - 1];
      assert front[..n] == positions[..n];
      FirstStays(front, n, wanted, magic);
    } else {
      assert positions[..n] == positions;
    }
  }

  lemma {:induction false} TicketHit(positions: seq<Position>, wanted: Option<nat>, magic: int)
    ensures var r := ByTicket(positions, wanted, magic);
      && (r.Some? ==> r.value in positions && Wanted(r.value, wanted, magic))
      && (r.None? <==> forall p :: p in positions ==> !Wanted(p, wanted, magic))
  {
    if positions != [] {
      var front, last := positions[..|positions| - 1], positions[|positions| - 1];
      TicketHit(front, wanted, magic);
      assert positions == front + [last];
    }
  }

  // The i-th position is the only managed one on the symbol.
  predicate LoneOnSymbol(positions: seq<Position>, symbol: string, magic: int, i: nat) {
    i < |positions| && OnSymbol(positions[i], symbol, magic)
    && forall j :: 0 <= j < |positions| && j != i ==> !OnSymbol(positions[j], symbol, magic)
  }

  ghost predicate AnyLone(positions: seq<Position>, symbol: string, magic: int) {
    exists i :: LoneOnSymbol(positions, symbol, magic, i)
  }

  lemma {:induction false} NoneOnSymbol(positions: seq<Position>, symbol: string, magic: int)
    ensures SameSymbol(positions, symbol, magic) == [] <==>
      forall j :: 0 <= j < |positions| ==> !OnSymbol(positions[j], symbol, magic)
  {
    if positions != [] {
      var n := |positions| - 1;
      NoneOnSymbol(positions[..n], symbol, magic);
      assert forall j :: 0 <= j < n ==> positions[..n][j] == positions[j];
    }
  }

  lemma {:induction false} LoneIsFound(positions: seq<Position>, symbol: string, magic: int, i: nat)
    requires LoneOnSymbol(positions, symbol, magic, i)
    ensures SameSymbol(positions, symbol, magic) == [positions[i]]
  {
    var n := |positions| - 1;
    var front := positions[..n];
    assert forall j :: 0 <= j < n ==> front[j] == positions[j];
    if i < n {
      LoneIsFound(front, symbol, magic, i);
    } else {
      NoneOnSymbol(front, symbol, magic);
    }
  }

  lemma {:induction false} FoundIsLone(positions: seq<Position>, symbol: string, magic: int)
    requires |SameSymbol(positions, symbol, magic)| == 1
    ensures AnyLone(positions, symbol, magic)
  {
    var n := |positions| - 1;
    var front := positions[..n];
    assert forall j :: 0 <= j < n ==> front[j] == positions[j];
    if OnSymbol(positions[n], symbol, magic) {
      NoneOnSymbol(front, symbol, magic);
      assert LoneOnSymbol(positions, symbol, magic, n);
    } else {
      FoundIsLone(front, symbol, magic);
      var i :| LoneOnSymbol(front, symbol, magic, i);
      assert LoneOnSymbol(positions, symbol, magic, i);
    }
  }

  lemma LoneMatch(positions: seq<Position>, symbol: string, magic: int)
    ensures var same := SameSymbol(positions, symbol, magic);
      && (|same| == 1 <==> AnyLone(positions, symbol, magic))
      && (|same| == 1 ==> same[0] in positions && OnSymbol(same[0], symbol, magic))
  {
    var same := SameSymbol(positions, symbol, magic);
    if AnyLone(positions, symbol, magic) {
      var i :| LoneOnSymbol(positions, symbol, magic, i);
      LoneIsFound(positions, symbol, magic, i);
    }
    if |same| == 1 {
      FoundIsLone(positions, symbol, magic);
      var i :| LoneOnSymbol(positions, symbol, magic, i);
      LoneIsFound(positions, symbol, magic, i);
    }
  }

  predicate Shown(positions: seq<Position>, ticket: Option<nat>, magic: int) {
    exists p :: p in positions && Wanted(p, ticket, magic)
  }

  // A found position is managed, and it is the ticket's own whenever that is shown, the only managed
  // one on the symbol otherwise; nothing is found exactly when neither exists.
  lemma SearchFindsOurs(positions: seq<Position>, symbol: string, wanted: Option<nat>, magic: int)
    ensures var r := Search(positions, symbol, wanted, magic);
      && (r.Some? ==> Managed(r.value, magic) && r.value in positions)
      && (r.None? <==> !Shown(positions, wanted, magic) && !AnyLone(positions, symbol, magic))
      && (Shown(positions, wanted, magic) ==> r.Some? && r.value.ticket == wanted)
      && (r.Some? && !Shown(positions, wanted, magic) ==>
        r.value.symbol == symbol && (wanted.Some? ==> r.value.ticket != wanted))
  {
    var r := Search(positions, symbol, wanted, magic);
    TicketHit(positions, wanted, magic);
    LoneMatch(positions, symbol, magic);
    if r.Some? && wanted.Some? && r.value.ticket == wanted { assert Wanted(r.value, wanted, magic); }
  }

  // ------------------------------------------------------------------ main results

  // The rows of an answer; an answer of None has none.
  function Rows(l: Listing<Position>): seq<Position> {
    if Returned(l).Some? then Returned(l).value else []
  }

  lemma LookupFindsOurs(l: Listing<Position>, symbol: string, wanted: Option<nat>, magic: int)
    ensures var r := Lookup(l, symbol, wanted, magic);
      && (r.Some? ==> Managed(r.value, magic) && r.value in Rows(l))
      && (r.None? <==> !Shown(Rows(l), wanted, magic) && !AnyLone(Rows(l), symbol, magic))
      && (Shown(Rows(l), wanted, magic) ==> r.Some? && r.value.ticket == wanted)
      && (r.Some? && !Shown(Rows(l), wanted, magic) ==>
        r.value.symbol == symbol && (wanted.Some? ==> r.value.ticket != wanted))
  {
    SearchFindsOurs(Rows(l), symbol, wanted, magic);
  }

  // A verified report is evidence: the last read holds a managed position with the approved stop, and
  // with the approved target when one was requested, within half a point.
  lemma VerifiedHoldsTheStop(e: Expected, magic: int, first: Listing<Position>, second: Listing<Position>,
      answer: Answer)
    requires Protected(e, magic, first, second, answer).report.verified
    ensures var report := Protected(e, magic, first, second, answer).report;
      && report.position.Some? && Managed(report.position.value, magic)
      && report.position.value in Rows(if report.corrected then second else first)
      && OrZero(report.position.value.sl) > 0.0
      && Abs(OrZero(report.position.value.sl) - e.sl) <= Tolerance(e.point)
      && (e.tp > 0.0 ==> Abs(OrZero(report.position.value.tp) - e.tp) <= Tolerance(e.point))
  {
    LookupFindsOurs(first, e.symbol, e.orderTicket, magic);
    var found := Lookup(first, e.symbol, e.orderTicket, magic);
    if found.Some? { LookupFindsOurs(second, e.symbol, found.value.ticket, magic); }
  }

  // A position that was found ends verified, or with one close sent after one modification, both to
  // managed positions; nothing is sent otherwise. A close that raises or returns nothing leaves the
  // position standing, and the report says so.
  lemma VerifiedOrCloseSent(e: Expected, magic: int, first: Listing<Position>, second: Listing<Position>,
      answer: Answer)
    ensures var o, found := Protected(e, magic, first, second, answer), Lookup(first, e.symbol, e.orderTicket, magic);
      && (found.None? ==> o.calls == [] && !o.report.verified && o.report.position.None?)
      && (found.Some? && !o.report.verified ==>
            |o.calls| == 2 && o.calls[1].Close? && Managed(o.calls[1].target, magic)
              && o.report.closed == (answer == Result))
      && (found.Some? && o.report.verified ==> |o.calls| == if o.report.corrected then 1 else 0)
      && (o.calls != [] ==> o.calls[0] == Modify(found.value.ticket, e.symbol, e.sl, e.tp) && !Intact(found.value, e))
  {
    LookupFindsOurs(first, e.symbol, e.orderTicket, magic);
    var found := Lookup(first, e.symbol, e.orderTicket, magic);
    if found.Some? { LookupFindsOurs(second, e.symbol, found.value.ticket, magic); }
  }

  // A call for a position that one of the two reads showed, and whose magic number is the bot's or unread.
  predicate ForOurs(c: Call, magic: int, first: seq<Position>, second: seq<Position>) {
    match c
    case Modify(t, _, _, _) => exists p :: p in first && p.ticket == t && (p.magic.None? || p.magic.value == magic)
    case Close(p) => p in first + second && (p.magic.None? || p.magic.value == magic)
  }

  // No position with another magic number is ever modified or closed, whatever the two reads show.
  lemma NothingForeignIsTouched(e: Expected, magic: int, first: Listing<Position>, second: Listing<Position>,
      answer: Answer)
    ensures forall c :: c in Protected(e, magic, first, second, answer).calls ==>
      ForOurs(c, magic, Rows(first), Rows(second))
  {
    LookupFindsOurs(first, e.symbol, e.orderTicket, magic);
    var found := Lookup(first, e.symbol, e.orderTicket, magic);
    if found.Some? { LookupFindsOurs(second, e.symbol, found.value.ticket, magic); }
  }

  // A position of the bot, or one whose magic number was not read, that carries the order's ticket is found.
  lemma OrdersPositionIsFound(l: Listing<Position>, symbol: string, p: Position, magic: int)
    requires p in Rows(l) && p.ticket.Some? && (p.magic.None? || p.magic.value == magic)
    ensures var r := Lookup(l, symbol, p.ticket, magic); r.Some? && r.value.ticket == p.ticket
  {
    assert Wanted(p, p.ticket, magic);
    LookupFindsOurs(l, symbol, p.ticket, magic);
  }

  // Without the ticket, the bot's only position on the symbol is.
  lemma LonePositionIsFound(l: Listing<Position>, symbol: string, wanted: Option<nat>, magic: int, i: nat)
    requires i < |Rows(l)| && Rows(l)[i].symbol == symbol && (Rows(l)[i].magic.None? || Rows(l)[i].magic.value == magic)
    requires forall j :: 0 <= j < |Rows(l)| && j != i && Rows(l)[j].symbol == symbol ==>
      Rows(l)[j].magic.Some? && Rows(l)[j].magic.value != magic
    requires wanted.Some? ==> forall p :: p in Rows(l) ==> p.ticket != wanted
    ensures Lookup(l, symbol, wanted, magic) == Some(Rows(l)[i])
  {
    TicketHit(Rows(l), wanted, magic);
    LoneIsFound(Rows(l), symbol, magic, i);
  }

  // A price within half a point of the expected one, or within 1e-9 where the symbol has no point.
  predicate Near(price: Option<real>, expected: real, point: Option<real>) {
    && price.Some? && price.value > 0.0
    && var off := price.value - expected;
      if point.Some? && point.value > 0.0 then -point.value <= 2.0 * off <= point.value
      else -0.000000001 <= off <= 0.000000001
  }

  // The found position is left alone exactly when it holds the stop and, where one was requested, the
  // target; a repair counts exactly when the second read shows them.
  lemma LeftAloneIff(e: Expected, magic: int, first: Listing<Position>, second: Listing<Position>, answer: Answer,
      p: Position)
    requires Lookup(first, e.symbol, e.orderTicket, magic) == Some(p)
    ensures var o := Protected(e, magic, first, second, answer);
      (o.calls == [] && o.report == Report(true, false, false, Some(p))) <==>
        Near(p.sl, e.sl, e.point) && (e.tp > 0.0 ==> Near(p.tp, e.tp, e.point))
    ensures var o, r := Protected(e, magic, first, second, answer), Lookup(second, e.symbol, p.ticket, magic);
      o.report.corrected <==>
        o.calls != [] && r.Some? && Near(r.value.sl, e.sl, e.point)
        && (e.tp > 0.0 ==> Near(r.value.tp, e.tp, e.point))
  {
    IntactIff(p, e);
    var r := Lookup(second, e.symbol, p.ticket, magic);
    if r.Some? { IntactIff(r.value, e); }
  }

  lemma IntactIff(p: Position, e: Expected)
    ensures Intact(p, e) <==> Near(p.sl, e.sl, e.point) && (e.tp > 0.0 ==> Near(p.tp, e.tp, e.point))
  {
  }

  predicate Carries(c: Call, ticket: Option<nat>) {
    match c
    case Modify(t, _, _, _) => t == ticket
    case Close(p) => p.ticket == ticket
  }

  // The first read finds nothing, or nothing to repair: no call is made.
  predicate NoCall(e: Expected, magic: int, first: Listing<Position>) {
    var found := Lookup(first, e.symbol, e.orderTicket, magic);
    found.None? || Intact(found.value, e)
  }

  // The second read holds the repair: no close is sent.
  predicate NoClose(e: Expected, magic: int, ticket: Option<nat>, second: Listing<Position>) {
    var repaired := Lookup(second, e.symbol, ticket, magic);
    repaired.Some? && Intact(repaired.value, e)
  }

  // Every modification and every close carries the ticket of the order exactly when none is made, or
  // the first read shows the order's position and, if a close is sent, the second read shows it too,
  // came back as None, or shows no lone managed position on the symbol to take for it.
  lemma CallsHitTheOrderIff(e: Expected, magic: int, first: Listing<Position>, second: Listing<Position>,
      answer: Answer)
    requires e.orderTicket.Some?
    ensures (forall c :: c in Protected(e, magic, first, second, answer).calls ==> Carries(c, e.orderTicket)) <==>
      || NoCall(e, magic, first)
      || (&& Shown(Rows(first), e.orderTicket, magic)
          && (|| NoClose(e, magic, e.orderTicket, second)
              || Shown(Rows(second), e.orderTicket, magic)
              || !AnyLone(Rows(second), e.symbol, magic)))
  {
    var calls := Protected(e, magic, first, second, answer).calls;
    LookupFindsOurs(first, e.symbol, e.orderTicket, magic);
    var found := Lookup(first, e.symbol, e.orderTicket, magic);
    if !NoCall(e, magic, first) {
      LookupFindsOurs(second, e.symbol, found.value.ticket, magic);
      assert calls[0] in calls && calls[0].ticket == found.value.ticket;
      if |calls| == 2 { assert calls[1] in calls && calls[1].target == Target(found.value, second, e.symbol, magic); }
    }
  }

  lemma OneListed(p: Position, wanted: Option<nat>, symbol: string, magic: int)
    ensures ByTicket([p], wanted, magic) == if Wanted(p, wanted, magic) then Some(p) else None
    ensures SameSymbol([p], symbol, magic) == if OnSymbol(p, symbol, magic) then [p] else []
  {
    assert [p][..|[p]| - 1] == [];
  }

  // The comment on the search says its fallback cannot pick a position of another order. It can, at
  // either read. At the first: the order's position is not listed, the lone managed one is another's.
  lemma FirstReadMayHitAnother()
    ensures var e, other := Expected("EURUSD", Some(7), 1.0, 0.0, Some(0.2)),
      Position(Some(8), "EURUSD", Some(1), Some(2.0), None);
      Protected(e, 1, Listed([other]), Unanswered, Result).calls == [Modify(Some(8), "EURUSD", 1.0, 0.0), Close(other)]
  {
    var other := Position(Some(8), "EURUSD", Some(1), Some(2.0), None);
    OneListed(other, Some(7), "EURUSD", 1);
  }

  // At the second: the order's position was modified and is gone, and the lone one left is closed.
  lemma SecondReadMayHitAnother()
    ensures var e := Expected("EURUSD", Some(7), 1.0, 0.0, Some(0.2));
      var ours, other := Position(Some(7), "EURUSD", Some(1), None, None),
        Position(Some(8), "EURUSD", Some(1), Some(2.0), None);
      Protected(e, 1, Listed([ours]), Listed([other]), Result).calls
        == [Modify(Some(7), "EURUSD", 1.0, 0.0), Close(other)]
  {
    var ours, other := Position(Some(7), "EURUSD", Some(1), None, None),
      Position(Some(8), "EURUSD", Some(1), Some(2.0), None);
    OneListed(ours, Some(7), "EURUSD", 1);
    OneListed(other, Some(7), "EURUSD", 1);
  }
}
