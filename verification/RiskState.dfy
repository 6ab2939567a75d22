/** RiskStateStore: one risk_state row per day, loaded on first use, changed in place and committed. */
module RiskState {
  import opened Records

  datatype Limit = SessionLoss | TradeCount | DailyLoss | Drawdown

  // Why a session stopped accepting entries; a persisted reason is never blank.
  datatype Reason = AccountMismatch | DrawdownStop | LimitsReached(limits: seq<Limit>) | Manual(text: string)

  datatype RiskRow = RiskRow(
    day: int,
    realizedPnl: real,
    startingEquity: Option<real>,
    peakEquity: Option<real>,
    emergencyLocked: bool,
    killSwitch: Option<Reason>,
    tradesOpened: nat,
    startedAt: int)

  // The table, in insertion order; `day` is unique.
  predicate OneRowPerDay(rows: seq<RiskRow>) {
    forall i, j :: 0 <= i < j < |rows| ==> rows[i].day != rows[j].day
  }

  predicate Has(rows: seq<RiskRow>, day: int) {
    exists i :: 0 <= i < |rows| && rows[i].day == day
  }

  // Position of the day's row, or the length of the table.
  function IndexOf(rows: seq<RiskRow>, day: int): (i: nat)
    ensures i <= |rows| && (i < |rows| ==> rows[i].day == day)
    ensures Has(rows, day) <==> i < |rows|
  {
    if rows == [] then 0 else if rows[0].day == day then 0 else
      assert forall k :: 1 <= k < |rows| ==> rows[k] == rows[1..][k - 1];
      assert forall k :: 0 <= k < |rows| - 1 ==> rows[1..][k] == rows[k + 1];
      1 + IndexOf(rows[1..], day)
  }

  // ORDER BY day DESC LIMIT 1.
  function Latest(rows: seq<RiskRow>): (r: Option<RiskRow>)
    ensures r.None? <==> rows == []
    ensures r.Some? ==> r.value in rows && forall k :: 0 <= k < |rows| ==> rows[k].day <= r.value.day
  {
    if rows == [] then None
    else
      var rest := Latest(rows[..|rows| - 1]);
      var last := rows[|rows| - 1];
      if rest.Some? && rest.value.day >= last.day then rest else Some(last)
  }

  // What a day's row is when it is first materialised.
  function FreshRow(rows: seq<RiskRow>, day: int, now: int): RiskRow {
    var previous := Latest(rows);
    RiskRow(day, 0.0,
            if previous.Some? then previous.value.startingEquity else None,
            if previous.Some? then previous.value.peakEquity else None,
            previous.Some? && previous.value.emergencyLocked,
            None, 0, now)
  }

  function Loaded(rows: seq<RiskRow>, day: int, now: int): (r: seq<RiskRow>)
    ensures Has(r, day) && rows <= r
  {
    if Has(rows, day) then rows
    else
      var r := rows + [FreshRow(rows, day, now)];
      assert r[|rows|].day == day;
      r
  }

  // The store's writing methods.
  datatype Op =
    | Touch
    | AddPnl(amount: real)
    | Observe(equity: real)
    | RegisterTrade
    | SetLock(locked: bool)
    | SetKill(reason: Reason)
    | ClearKill

  function Changed(row: RiskRow, op: Op): (r: RiskRow)
    ensures r.day == row.day
  {
    match op
    case Touch => row
    case AddPnl(amount) => row.(realizedPnl := row.realizedPnl + amount)
    case Observe(equity) =>
      row.(startingEquity := if row.startingEquity.None? then Some(equity) else row.startingEquity,
           peakEquity := if row.peakEquity.None? || equity > row.peakEquity.value then Some(equity) else row.peakEquity)
    case RegisterTrade => row.(tradesOpened := row.tradesOpened + 1)
    case SetLock(locked) => row.(emergencyLocked := locked)
    case SetKill(reason) => row.(killSwitch := Some(reason))
    case ClearKill => row.(killSwitch := None)
  }

  function Applied(rows: seq<RiskRow>, op: Op, day: int, now: int): seq<RiskRow> {
    var loaded := Loaded(rows, day, now);
    var i := IndexOf(loaded, day);
    loaded[i := Changed(loaded[i], op)]
  }

  // The day's row as a reader sees it.
  function RowOf(rows: seq<RiskRow>, day: int, now: int): RiskRow {
    var loaded := Loaded(rows, day, now);
    loaded[IndexOf(loaded, day)]
  }

  class RiskStateStore {
    var rows: seq<RiskRow>
    var authorization: Authorization

    constructor ()
      ensures rows == [] && authorization == Missing
    {
      rows, authorization := [], Missing;
    }

    method Load(day: int, now: int) returns (row: RiskRow)
      modifies this`rows
      ensures rows == Loaded(old(rows), day, now) && row == RowOf(old(rows), day, now)
    {
      if !Has(rows, day) {
        rows := rows + [FreshRow(rows, day, now)];
        assert rows[|rows| - 1].day == day;
      }
      row := rows[IndexOf(rows, day)];
    }

    method Write(row: RiskRow)
      requires Has(rows, row.day)
      modifies this`rows
      ensures rows == old(rows)[IndexOf(old(rows), row.day) := row]
    {
      rows := rows[IndexOf(rows, row.day) := row];
    }

    method AddRealizedPnl(amount: real, day: int, now: int)
      modifies this`rows
      ensures rows == Applied(old(rows), AddPnl(amount), day, now)
    {
      var row := Load(day, now);
      Write(row.(realizedPnl := row.realizedPnl + amount));
    }

    method ObserveEquity(equity: Option<real>, day: int, now: int)
      modifies this`rows
      ensures rows == Applied(old(rows), if equity.Some? then Observe(equity.value) else Touch, day, now)
    {
      var row := Load(day, now);
      if equity.None? {
        return;
      }
      if row.startingEquity.None? {
        row := row.(startingEquity := equity);
      }
      if row.peakEquity.None? || equity.value > row.peakEquity.value {
        row := row.(peakEquity := equity);
      }
      Write(row);
    }

    method RegisterTradeOpened(day: int, now: int)
      modifies this`rows
      ensures rows == Applied(old(rows), RegisterTrade, day, now)
    {
      var row := Load(day, now);
      Write(row.(tradesOpened := row.tradesOpened + 1));
    }

    method SetEmergencyLocked(locked: bool, day: int, now: int)
      modifies this`rows
      ensures rows == Applied(old(rows), SetLock(locked), day, now)
    {
      var row := Load(day, now);
      Write(row.(emergencyLocked := locked));
    }

    // Idempotent for the same reason: the row is not written again.
    method SetKillSwitch(reason: Reason, day: int, now: int)
      modifies this`rows
      ensures rows == Applied(old(rows), SetKill(reason), day, now)
    {
      var row := Load(day, now);
      if row.killSwitch == Some(reason) {
        return;
      }
      Write(row.(killSwitch := Some(reason)));
    }

    method ClearKillSwitch(day: int, now: int)
      modifies this`rows
      ensures rows == Applied(old(rows), Op.ClearKill, day, now)
    {
      var row := Load(day, now);
      Write(row.(killSwitch := None));
    }

    // Materialised unspent on first use.
    method OneTradeAuthorization() returns (row: Authorization)
      modifies this`authorization
      ensures authorization == (if old(authorization) == Missing then Row(false) else old(authorization))
      ensures row == authorization && row.Row?
    {
      if authorization == Missing {
        authorization := Row(false);
      }
      row := authorization;
    }

    // The conditional UPDATE: true only for the caller that flipped the flag.
    method ConsumeOneTradeAuthorization() returns (won: bool)
      modifies this`authorization
      ensures won <==> old(authorization) != Row(true)
      ensures authorization == Row(true)
    {
      var row := OneTradeAuthorization();
      won := !row.consumed;
      authorization := Row(true);
    }

    method AuthorizeOneTrade()
      modifies this`authorization
      ensures authorization == Row(false)
    {
      authorization := Row(false);
    }
  }

  // ------------------------------------------------------------------ one operation

  lemma {:induction false} IndexOfUnique(rows: seq<RiskRow>, i: nat)
    requires OneRowPerDay(rows) && i < |rows|
    ensures IndexOf(rows, rows[i].day) == i
  {
    if i > 0 {
      assert rows[1..][i - 1] == rows[i];
      IndexOfUnique(rows[1..], i - 1);
    }
  }

  lemma RowAt(rows: seq<RiskRow>, i: nat, now: int)
    requires OneRowPerDay(rows) && i < |rows|
    ensures Has(rows, rows[i].day) && RowOf(rows, rows[i].day, now) == rows[i]
  {
    IndexOfUnique(rows, i);
  }

  // A day other than the one written keeps its row.
  lemma OtherDay(rows: seq<RiskRow>, op: Op, day: int, now: int, d: int, t: int)
    requires OneRowPerDay(rows) && OneRowPerDay(Applied(rows, op, day, now)) && d != day && Has(rows, d)
    ensures Has(Applied(rows, op, day, now), d) && RowOf(Applied(rows, op, day, now), d, t) == RowOf(rows, d, t)
  {
    var k := IndexOf(rows, d);
    assert Applied(rows, op, day, now)[k] == rows[k];
    RowAt(rows, k, t);
    RowAt(Applied(rows, op, day, now), k, t);
  }

  // One operation touches one day: every other day's row stays, and the day keeps one row.
  lemma AppliedIsLocal(rows: seq<RiskRow>, op: Op, day: int, now: int)
    requires OneRowPerDay(rows)
    ensures var after := Applied(rows, op, day, now);
      && OneRowPerDay(after)
      && (forall d :: d != day && Has(rows, d) ==> Has(after, d))
      && (forall d, t :: d != day && Has(rows, d) ==> RowOf(after, d, t) == RowOf(rows, d, t))
      && Has(after, day) && (forall t :: RowOf(after, day, t) == Changed(RowOf(rows, day, now), op))
      && (forall d :: Has(after, d) ==> d == day || Has(rows, d))
  {
    var loaded, after := Loaded(rows, day, now), Applied(rows, op, day, now);
    var i := IndexOf(loaded, day);
    assert forall k :: 0 <= k < |after| ==> after[k].day == loaded[k].day;
    forall t ensures RowOf(after, day, t) == Changed(RowOf(rows, day, now), op) { RowAt(after, i, t); }
    forall d | d != day && Has(rows, d) ensures Has(after, d) { OtherDay(rows, op, day, now, d, now); }
    forall d, t | d != day && Has(rows, d) ensures RowOf(after, d, t) == RowOf(rows, d, t) {
      OtherDay(rows, op, day, now, d, t);
    }
    forall d | Has(after, d) ensures d == day || Has(rows, d) {
      var k := IndexOf(after, d);
      if k < |rows| && k != i { assert rows[k].day == d; }
    }
    RowAt(after, i, now);
  }

  // A later day's row starts from the latest row: its lock and its peak, never its kill switch.
  lemma NewDayInherits(rows: seq<RiskRow>, day: int, now: int)
    requires !Has(rows, day) && rows != []
    ensures var row := RowOf(rows, day, now); var last := Latest(rows).value;
      && row.emergencyLocked == last.emergencyLocked && row.peakEquity == last.peakEquity
      && row.startingEquity == last.startingEquity
      && row.killSwitch == None && row.realizedPnl == 0.0 && row.tradesOpened == 0
      && row.day == day && row.startedAt == now
  {
  }

  // ------------------------------------------------------------------ runs of operations

  datatype Call = Call(op: Op, day: int, now: int)

  function Run(rows: seq<RiskRow>, calls: seq<Call>): seq<RiskRow> {
    if calls == [] then rows
    else
      var before := Run(rows, calls[..|calls| - 1]);
      var c := calls[|calls| - 1];
      Applied(before, c.op, c.day, c.now)
  }

  // Nobody clears the day's lock or its kill switch.
  predicate NeverCleared(calls: seq<Call>, day: int) {
    forall k :: 0 <= k < |calls| ==> Latching(calls[k], day)
  }

  predicate Latching(c: Call, day: int) {
    c.day == day ==> c.op != SetLock(false) && c.op != ClearKill
  }

  lemma {:induction false} OneRowPerDayRun(rows: seq<RiskRow>, calls: seq<Call>)
    requires OneRowPerDay(rows)
    ensures OneRowPerDay(Run(rows, calls))
  {
    if calls != [] {
      OneRowPerDayRun(rows, calls[..|calls| - 1]);
      var c := calls[|calls| - 1];
      AppliedIsLocal(Run(rows, calls[..|calls| - 1]), c.op, c.day, c.now);
    }
  }

  lemma LatchStep(rows: seq<RiskRow>, c: Call, day: int, now: int)
    requires OneRowPerDay(rows) && Has(rows, day) && Latching(c, day)
    ensures var after := Applied(rows, c.op, c.day, c.now);
      && Has(after, day)
      && (RowOf(rows, day, now).emergencyLocked ==> RowOf(after, day, now).emergencyLocked)
      && (RowOf(rows, day, now).killSwitch.Some? ==> RowOf(after, day, now).killSwitch.Some?)
  {
    AppliedIsLocal(rows, c.op, c.day, c.now);
    if c.day != day { OtherDay(rows, c.op, c.day, c.now, day, now); }
  }

  // A day that was stopped stays stopped through every run of operations that never clears it.
  lemma {:induction false} LatchHolds(rows: seq<RiskRow>, calls: seq<Call>, day: int, now: int)
    requires OneRowPerDay(rows) && Has(rows, day) && NeverCleared(calls, day)
    ensures Has(Run(rows, calls), day)
    ensures RowOf(rows, day, now).emergencyLocked ==> RowOf(Run(rows, calls), day, now).emergencyLocked
    ensures RowOf(rows, day, now).killSwitch.Some? ==> RowOf(Run(rows, calls), day, now).killSwitch.Some?
    decreases |calls|
  {
    if calls != [] {
      var prefix := calls[..|calls| - 1];
      LatchHolds(rows, prefix, day, now);
      OneRowPerDayRun(rows, prefix);
      LatchStep(Run(rows, prefix), calls[|calls| - 1], day, now);
    }
  }

  predicate LockedAtTheEnd(rows: seq<RiskRow>) {
    Latest(rows).Some? && Latest(rows).value.emergencyLocked
  }

  predicate NoUnlock(calls: seq<Call>) {
    forall k :: 0 <= k < |calls| ==> calls[k].op != SetLock(false)
  }

  lemma {:induction false} LatestIsTheGreatest(rows: seq<RiskRow>, k: nat)
    requires OneRowPerDay(rows) && k < |rows| && forall j :: 0 <= j < |rows| ==> rows[j].day <= rows[k].day
    ensures Latest(rows) == Some(rows[k])
  {
    var j :| 0 <= j < |rows| && rows[j] == Latest(rows).value;
  }

  lemma LockStep(rows: seq<RiskRow>, op: Op, day: int, now: int)
    requires OneRowPerDay(rows) && LockedAtTheEnd(rows) && op != SetLock(false)
    ensures LockedAtTheEnd(Applied(rows, op, day, now))
    ensures forall d, t :: d != day && Has(rows, d) ==> RowOf(Applied(rows, op, day, now), d, t) == RowOf(rows, d, t)
    ensures forall t :: (Has(rows, day) ==> RowOf(rows, day, t).emergencyLocked) ==>
      RowOf(Applied(rows, op, day, now), day, t).emergencyLocked
  {
    var loaded, after := Loaded(rows, day, now), Applied(rows, op, day, now);
    var m :| 0 <= m < |rows| && rows[m] == Latest(rows).value;
    AppliedIsLocal(rows, op, day, now);
    var top := if loaded == rows || rows[m].day > day then m else |rows|;
    assert loaded[top].emergencyLocked;
    assert forall j :: 0 <= j < |after| ==> after[j].day == loaded[j].day;
    LatestIsTheGreatest(after, top);
  }

  lemma NewDayLockStep(rows: seq<RiskRow>, c: Call, day: int, now: int)
    requires OneRowPerDay(rows) && LockedAtTheEnd(rows) && c.op != SetLock(false)
    requires RowOf(rows, day, now).emergencyLocked
    ensures LockedAtTheEnd(Applied(rows, c.op, c.day, c.now))
    ensures RowOf(Applied(rows, c.op, c.day, c.now), day, now).emergencyLocked
  {
    LockStep(rows, c.op, c.day, c.now);
    AppliedIsLocal(rows, c.op, c.day, c.now);
    var after := Applied(rows, c.op, c.day, c.now);
    if !Has(after, day) { NewDayInherits(after, day, now); }
  }

  lemma {:induction false} LockKept(rows: seq<RiskRow>, calls: seq<Call>, day: int, now: int)
    requires OneRowPerDay(rows) && LockedAtTheEnd(rows) && NoUnlock(calls) && RowOf(rows, day, now).emergencyLocked
    ensures LockedAtTheEnd(Run(rows, calls)) && RowOf(Run(rows, calls), day, now).emergencyLocked
    decreases |calls|
  {
    if calls != [] {
      var prefix := calls[..|calls| - 1];
      LockKept(rows, prefix, day, now);
      OneRowPerDayRun(rows, prefix);
      NewDayLockStep(Run(rows, prefix), calls[|calls| - 1], day, now);
    }
  }

  // With the lock on the latest row, every day first seen afterwards is locked until someone unlocks.
  lemma LockReachesEveryNewDay(rows: seq<RiskRow>, calls: seq<Call>, day: int, now: int)
    requires OneRowPerDay(rows) && LockedAtTheEnd(rows) && NoUnlock(calls)
    requires !Has(rows, day)
    ensures LockedAtTheEnd(Run(rows, calls)) && RowOf(Run(rows, calls), day, now).emergencyLocked
  {
    NewDayInherits(rows, day, now);
    LockKept(rows, calls, day, now);
  }

  lemma OlderDayLeavesLatest(rows: seq<RiskRow>, op: Op, older: int, now: int)
    requires OneRowPerDay(rows) && rows != [] && older < Latest(rows).value.day
    ensures Latest(Applied(rows, op, older, now)) == Latest(rows)
  {
    var loaded, after := Loaded(rows, older, now), Applied(rows, op, older, now);
    AppliedIsLocal(rows, op, older, now);
    var m :| 0 <= m < |rows| && rows[m] == Latest(rows).value;
    assert after[m] == rows[m];
    forall j | 0 <= j < |after| ensures after[j].day <= after[m].day {
      assert after[j].day == loaded[j].day;
    }
    LatestIsTheGreatest(after, m);
  }

  // A lock set on a day older than the latest row is not inherited: the next new day is as locked as
  // the latest row was.
  lemma OlderDayLockIsNotInherited(rows: seq<RiskRow>, older: int, day: int, now: int)
    requires OneRowPerDay(rows) && rows != [] && older < Latest(rows).value.day && !Has(rows, day) && day != older
    ensures var locked := Applied(rows, SetLock(true), older, now);
      RowOf(locked, older, now).emergencyLocked
        && RowOf(locked, day, now).emergencyLocked == Latest(rows).value.emergencyLocked
  {
    OlderDayLeavesLatest(rows, SetLock(true), older, now);
    AppliedIsLocal(rows, SetLock(true), older, now);
    NewDayInherits(Applied(rows, SetLock(true), older, now), day, now);
  }

  // ------------------------------------------------------------------ equity

  // A day's row after its equities, in their order.
  function Observed(row: RiskRow, equities: seq<real>): RiskRow {
    if equities == [] then row
    else Changed(Observed(row, equities[..|equities| - 1]), Observe(equities[|equities| - 1]))
  }

  // However many equities a day sees: its start is the first, unless the row already had one; its peak is
  // the greatest of them and of the peak the row came with; nothing else of the row moves.
  lemma {:induction false} StartIsFirstPeakIsGreatest(row: RiskRow, equities: seq<real>)
    requires equities != []
    ensures var r := Observed(row, equities);
      && r.startingEquity == (if row.startingEquity.Some? then row.startingEquity else Some(equities[0]))
      && r.peakEquity.Some? && (forall k :: 0 <= k < |equities| ==> equities[k] <= r.peakEquity.value)
      && (row.peakEquity.Some? ==> row.peakEquity.value <= r.peakEquity.value)
      && (r.peakEquity == row.peakEquity || exists k :: 0 <= k < |equities| && equities[k] == r.peakEquity.value)
      && r == row.(startingEquity := r.startingEquity, peakEquity := r.peakEquity)
  {
    var n := |equities| - 1;
    var front := equities[..n];
    if n > 0 {
      StartIsFirstPeakIsGreatest(row, front);
      assert forall k :: 0 <= k < n ==> front[k] == equities[k];
    } else {
      assert Observed(row, front) == row;
    }
  }

  // What each write does to the day's row, and that it does nothing else.
  lemma WritesAreTheirNames(row: RiskRow, op: Op)
    ensures var r := Changed(row, op);
      && r.day == row.day && r.startedAt == row.startedAt
      && (r.realizedPnl != row.realizedPnl ==> op.AddPnl?)
      && (op.AddPnl? ==> r.realizedPnl - op.amount == row.realizedPnl)
      && (r.tradesOpened != row.tradesOpened <==> op.RegisterTrade?) && r.tradesOpened <= row.tradesOpened + 1
      && (r.tradesOpened >= row.tradesOpened)
      && (r.emergencyLocked <==> if op.SetLock? then op.locked else row.emergencyLocked)
      && (op.SetKill? ==> r.killSwitch == Some(op.reason)) && (op.ClearKill? ==> r.killSwitch.None?)
      && (!op.SetKill? && !op.ClearKill? ==> r.killSwitch == row.killSwitch)
      && (!op.Observe? ==> r.startingEquity == row.startingEquity && r.peakEquity == row.peakEquity)
  {
  }

  // ------------------------------------------------------------------ money

  function TotalPnl(rows: seq<RiskRow>): real {
    if rows == [] then 0.0 else TotalPnl(rows[..|rows| - 1]) + rows[|rows| - 1].realizedPnl
  }

  lemma {:induction false} TotalUpdate(rows: seq<RiskRow>, i: nat, row: RiskRow)
    requires i < |rows|
    ensures TotalPnl(rows[i := row]) == TotalPnl(rows) - rows[i].realizedPnl + row.realizedPnl
  {
    var n := |rows| - 1;
    if i < n {
      TotalUpdate(rows[..n], i, row);
      assert rows[i := row][..n] == rows[..n][i := row];
    } else {
      assert rows[i := row][..n] == rows[..n];
    }
  }

  // Over all days, booking moves the total by exactly the amount booked, whichever day receives it.
  lemma BookingAddsUp(rows: seq<RiskRow>, amount: real, day: int, now: int)
    ensures TotalPnl(Applied(rows, AddPnl(amount), day, now)) == TotalPnl(rows) + amount
  {
    var loaded := Loaded(rows, day, now);
    if loaded != rows { assert loaded[..|rows|] == rows; }
    var i := IndexOf(loaded, day);
    TotalUpdate(loaded, i, Changed(loaded[i], AddPnl(amount)));
  }
}
