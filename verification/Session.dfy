/** A trading session of one process: scans, candidates, P/L, equity, restarts and days,
  over the persisted risk state. */
module Session {
  import opened Records
  import opened Sizing
  import opened RiskState
  import opened RiskGate
  import opened Bracket
  import opened GateLaws

  // `risks` holds, for each open position, the approved risk that has not been booked as a loss. `shown`
  // is the number of open positions the current scan read at its start and hands to every candidate of
  // the scan; `burst` counts the orders accepted since. `accepted` and `crashes` count today's accepted
  // orders and those the process died on before it counted them.
  datatype State = State(rows: seq<RiskRow>, today: int, risks: seq<real>, shown: nat, burst: nat, accepted: nat,
      crashes: nat)

  // What became of a candidate that the gate approved.
  datatype Outcome = NotAccepted | Counted | CrashedBeforeCount

  datatype Move =
    | Scan(reported: nat)
    | Candidate(x: Inputs, fault: Fault, consumed: Option<bool>, outcome: Outcome, now: int)
    | Book(amount: real, position: nat, now: int)
    | Closed(position: nat)
    | Equity(equity: real, now: int)
    | Restart
    | Operator(op: Op, now: int)
    | Midnight

  predicate Approved(s: State, m: Move)
    requires m.Candidate?
  {
    GateOpen(m.x, SeenIn(s.rows, m.x, m.fault, s.today, m.now), m.consumed)
  }

  // After the assessment: `risk` is what was approved, None when nothing was; `counted` is the table
  // once the trade has been registered.
  function Settled(s: State, assessed: seq<RiskRow>, counted: seq<RiskRow>, risk: Option<real>, outcome: Outcome): State
  {
    if risk.None? || outcome == NotAccepted then s.(rows := assessed)
    else Opened(s, if outcome == Counted then counted else assessed, risk.value, if outcome == Counted then 0 else 1)
  }

  function Opened(s: State, rows: seq<RiskRow>, risk: real, crash: nat): State {
    State(rows, s.today, s.risks + [risk], s.shown, s.burst + 1, s.accepted + 1, s.crashes + crash)
  }

  function Judged(s: State, m: Move): State
    requires m.Candidate?
  {
    var assessed := After(s.rows, Assessed(m.x, m.fault, s.today, m.now));
    Settled(s, assessed, Applied(assessed, RegisterTrade, s.today, m.now), if Approved(s, m) then DerivedOf(m.x).risk
      else None, m.outcome)
  }

  // A loss is taken from the position's approved risk.
  function Charged(risks: seq<real>, position: nat, amount: real): seq<real> {
    if position < |risks| && amount < 0.0 then risks[position := risks[position] + amount] else risks
  }

  function Without(risks: seq<real>, position: nat): seq<real> {
    if position < |risks| then risks[..position] + risks[position + 1..] else risks
  }

  function Passed(s: State, m: Move): State
    requires !m.Candidate?
  {
    match m
    case Scan(reported) => s.(shown := reported, burst := 0)
    case Book(amount, position, now) =>
      s.(rows := Applied(s.rows, AddPnl(amount), s.today, now), risks := Charged(s.risks, position, amount))
    case Closed(position) => s.(risks := Without(s.risks, position))
    case Equity(equity, now) => s.(rows := Applied(s.rows, Observe(equity), s.today, now))
    case Restart => s
    case Operator(op, now) => s.(rows := Applied(s.rows, op, s.today, now))
    case Midnight => s.(today := s.today + 1, accepted := 0, crashes := 0)
  }

  function Next(s: State, m: Move): State {
    if m.Candidate? then Judged(s, m) else Passed(s, m)
  }

  function Played(s: State, moves: seq<Move>): State {
    if moves == [] then s else Next(Played(s, moves[..|moves| - 1]), moves[|moves| - 1])
  }

  // The operator moves locks and kill switches; money and counts are not his to write.
  predicate Fair(m: Move, st: Settings) {
    (m.Candidate? ==> m.x.settings == st) && (m.Operator? ==> Neutral(m.op))
  }

  predicate AllFair(moves: seq<Move>, st: Settings) {
    forall k :: 0 <= k < |moves| ==> Fair(moves[k], st)
  }

  predicate Neutral(op: Op) {
    !op.AddPnl? && !op.RegisterTrade?
  }

  function Today(s: State): RiskRow {
    RowOf(s.rows, s.today, 0)
  }

  // ------------------------------------------------------------------ what an assessment leaves alone

  lemma RowMoment(rows: seq<RiskRow>, day: int, now: int)
    ensures RowOf(rows, day, now).realizedPnl == RowOf(rows, day, 0).realizedPnl
      && RowOf(rows, day, now).tradesOpened == RowOf(rows, day, 0).tradesOpened
  {
  }

  lemma WriteToday(rows: seq<RiskRow>, op: Op, day: int, now: int)
    requires OneRowPerDay(rows) && NoneLater(rows, day)
    ensures var after := Applied(rows, op, day, now);
      && OneRowPerDay(after) && NoneLater(after, day)
      && RowOf(after, day, 0).realizedPnl == RowOf(rows, day, 0).realizedPnl + (if op.AddPnl? then op.amount else 0.0)
      && RowOf(after, day, 0).tradesOpened == RowOf(rows, day, 0).tradesOpened + (if op.RegisterTrade? then 1 else 0)
  {
    NoneLaterStep(rows, op, day, now);
    AppliedIsLocal(rows, op, day, now);
    RowMoment(rows, day, now);
  }

  lemma {:induction false} NeutralOps(rows: seq<RiskRow>, ops: seq<Op>, day: int, now: int)
    requires OneRowPerDay(rows) && NoneLater(rows, day) && AllNeutral(ops)
    ensures var after := RunOps(rows, ops, day, now);
      && OneRowPerDay(after) && NoneLater(after, day)
      && RowOf(after, day, 0).realizedPnl == RowOf(rows, day, 0).realizedPnl
      && RowOf(after, day, 0).tradesOpened == RowOf(rows, day, 0).tradesOpened
  {
    if ops != [] {
      NeutralOps(rows, ops[..|ops| - 1], day, now);
      WriteToday(RunOps(rows, ops[..|ops| - 1], day, now), ops[|ops| - 1], day, now);
    }
  }

  predicate AllNeutral(ops: seq<Op>) {
    forall k :: 0 <= k < |ops| ==> Neutral(ops[k])
  }

  lemma NeutralParts(x: Inputs, seen: Seen, fault: Fault)
    ensures AllNeutral(Reads(x, fault)) && AllNeutral(MismatchOps(x, seen))
  {
  }

  lemma NeutralLimits(limits: seq<Limit>, kill: Option<Reason>)
    ensures AllNeutral(LimitOps(limits, kill))
  {
  }

  lemma NeutralTogether(a: seq<Op>, b: seq<Op>)
    requires AllNeutral(a) && AllNeutral(b)
    ensures AllNeutral(a + b)
  {
  }

  lemma EffectsAreNeutral(x: Inputs, seen: Seen, fault: Fault)
    ensures AllNeutral(Effects(x, seen, fault))
  {
    NeutralParts(x, seen, fault);
    NeutralLimits(LimitsOf(x, seen), seen.kill);
    NeutralTogether(Reads(x, fault), MismatchOps(x, seen));
    NeutralTogether(Reads(x, fault) + MismatchOps(x, seen), if Raises(x) then [] else
      LimitOps(LimitsOf(x, seen), seen.kill));
  }

  // Judging a candidate moves neither the day's P/L nor its trade count.
  lemma AssessmentIsNeutral(rows: seq<RiskRow>, x: Inputs, fault: Fault, day: int, now: int)
    requires OneRowPerDay(rows) && NoneLater(rows, day)
    ensures var after := After(rows, Assessed(x, fault, day, now));
      && OneRowPerDay(after) && NoneLater(after, day)
      && RowOf(after, day, 0).realizedPnl == RowOf(rows, day, 0).realizedPnl
      && RowOf(after, day, 0).tradesOpened == RowOf(rows, day, 0).tradesOpened
  {
    EffectsAreNeutral(x, SeenIn(rows, x, fault, day, now), fault);
    NeutralOps(rows, Effects(x, SeenIn(rows, x, fault, day, now), fault), day, now);
  }

  lemma MidnightRow(rows: seq<RiskRow>, day: int)
    requires OneRowPerDay(rows) && NoneLater(rows, day)
    ensures RowOf(rows, day + 1, 0).realizedPnl == 0.0 && RowOf(rows, day + 1, 0).tradesOpened == 0
      && NoneLater(rows, day + 1)
  {
    assert !Has(rows, day + 1);
  }

  // ------------------------------------------------------------------ one move, in money and counts

  predicate SameMoney(s: State, t: State) {
    Today(t).realizedPnl == Today(s).realizedPnl && Today(t).tradesOpened == Today(s).tradesOpened
  }

  predicate SameCounts(s: State, t: State) {
    t.accepted == s.accepted && t.crashes == s.crashes
  }

  predicate SamePositions(s: State, t: State) {
    t.risks == s.risks && t.shown == s.shown && t.burst == s.burst
  }

  // The approval left room, and the risk it approved is within the limit.
  predicate Granted(s: State, m: Move, st: Settings, risk: real)
    requires m.Candidate?
  {
    0.0 <= risk <= st.maxLoss + MONEY_EPSILON && Today(s).tradesOpened < st.maxDailyTrades
    && (Today(s).realizedPnl >= 0.0 || -Today(s).realizedPnl < st.maxSessionLoss - MONEY_EPSILON)
    && m.x.facts.openPositions.Some? && m.x.facts.openPositions.value < st.maxOpen
  }

  // An order was accepted: one more position, and one more in the count or in the crashes.
  predicate Accepts(s: State, m: Move, t: State, st: Settings)
    requires m.Candidate?
  {
    && t.risks != [] && t.risks == s.risks + [t.risks[|t.risks| - 1]] && Granted(s, m, st, t.risks[|t.risks| - 1])
    && t.shown == s.shown && t.burst == s.burst + 1
    && Today(t).realizedPnl == Today(s).realizedPnl && t.accepted == s.accepted + 1
    && ((Today(t).tradesOpened == Today(s).tradesOpened + 1 && t.crashes == s.crashes)
        || (Today(t).tradesOpened == Today(s).tradesOpened && t.crashes == s.crashes + 1))
  }

  predicate Progress(s: State, m: Move, t: State, st: Settings) {
    && OneRowPerDay(t.rows) && NoneLater(t.rows, t.today)
    && match m
       case Candidate(_, _, _, _, _) => Accepts(s, m, t, st)
         || (SameMoney(s, t) && SameCounts(s, t) && SamePositions(s, t))
       case Scan(reported) => SameMoney(s, t) && SameCounts(s, t) && t.risks == s.risks && t.shown == reported
         && t.burst == 0
       case Book(amount, position, _) => (
         Today(t).realizedPnl == Today(s).realizedPnl + amount && Today(t).tradesOpened == Today(s).tradesOpened
           && SameCounts(s, t) &&
         t.risks == Charged(s.risks, position, amount) && t.shown == s.shown && t.burst == s.burst)
       case Closed(position) => SameMoney(s, t) && SameCounts(s, t) && t.risks == Without(s.risks, position)
         && t.shown == s.shown && t.burst == s.burst
       case Midnight => Today(t).realizedPnl == 0.0 && Today(t).tradesOpened == 0 && SamePositions(s, t)
         && t.accepted == 0 && t.crashes == 0
       case _ => SameMoney(s, t) && SameCounts(s, t) && SamePositions(s, t)
  }

  lemma ApprovalMeansRoom(rows: seq<RiskRow>, x: Inputs, fault: Fault, day: int, now: int, consumed: Option<bool>)
    requires GateOpen(x, SeenIn(rows, x, fault, day, now), consumed)
    ensures RowOf(rows, day, 0).tradesOpened < x.settings.maxDailyTrades
    ensures RowOf(rows, day, 0).realizedPnl >= 0.0
      || -RowOf(rows, day, 0).realizedPnl < x.settings.maxSessionLoss - MONEY_EPSILON
    ensures x.facts.openPositions.Some? && x.facts.openPositions.value < x.settings.maxOpen
  {
    var seen := SeenIn(rows, x, fault, day, now);
    LimitsAreTheReached(x, seen, TradeCount);
    LimitsAreTheReached(x, seen, SessionLoss);
    RowMoment(rows, day, now);
  }

  lemma ApprovedRisk(x: Inputs, seen: Seen, consumed: Option<bool>)
    requires GateOpen(x, seen, consumed)
    ensures DerivedOf(x).risk.Some? && 0.0 <= DerivedOf(x).risk.value <= x.settings.maxLoss + MONEY_EPSILON
  {
    ApprovedNumbers(x, seen, consumed);
    var spec, entry, stop := x.facts.spec.value, EntryOf(x).value, x.signal.stop.value;
    PositiveProduct(DerivedOf(x).volume.value, RiskPerLot(entry, stop, spec).value);
  }

  lemma AcceptedProgress(s: State, m: Move, st: Settings, rows: seq<RiskRow>, risk: real, crash: nat)
    requires m.Candidate? && OneRowPerDay(rows) && NoneLater(rows, s.today) && Granted(s, m, st, risk) && crash <= 1
    requires RowOf(rows, s.today, 0).realizedPnl == Today(s).realizedPnl
      && RowOf(rows, s.today, 0).tradesOpened == Today(s).tradesOpened + 1 - crash
    ensures Progress(s, m, Opened(s, rows, risk, crash), st)
  {
  }

  lemma QuietProgress(s: State, m: Move, st: Settings, rows: seq<RiskRow>)
    requires m.Candidate? && OneRowPerDay(rows) && NoneLater(rows, s.today)
    requires RowOf(rows, s.today, 0).realizedPnl == Today(s).realizedPnl
      && RowOf(rows, s.today, 0).tradesOpened == Today(s).tradesOpened
    ensures Progress(s, m, s.(rows := rows), st)
  {
  }

  lemma SettledProgress(s: State, m: Move, st: Settings, assessed: seq<RiskRow>, counted: seq<RiskRow>,
      risk: Option<real>)
    requires m.Candidate? && OneRowPerDay(assessed) && NoneLater(assessed, s.today) && OneRowPerDay(counted)
      && NoneLater(counted, s.today)
    requires RowOf(assessed, s.today, 0).realizedPnl == Today(s).realizedPnl
      && RowOf(assessed, s.today, 0).tradesOpened == Today(s).tradesOpened
    requires RowOf(counted, s.today, 0).realizedPnl == Today(s).realizedPnl
      && RowOf(counted, s.today, 0).tradesOpened == Today(s).tradesOpened + 1
    requires risk.Some? ==> Granted(s, m, st, risk.value)
    ensures Progress(s, m, Settled(s, assessed, counted, risk, m.outcome), st)
  {
    if risk.None? || m.outcome == NotAccepted { QuietProgress(s, m, st, assessed); }
    else if m.outcome == Counted { AcceptedProgress(s, m, st, counted, risk.value, 0); }
    else { AcceptedProgress(s, m, st, assessed, risk.value, 1); }
  }

  lemma CandidateProgress(s: State, m: Move, st: Settings)
    requires OneRowPerDay(s.rows) && NoneLater(s.rows, s.today) && Fair(m, st) && m.Candidate?
    ensures Progress(s, m, Judged(s, m), st)
  {
    var assessed := After(s.rows, Assessed(m.x, m.fault, s.today, m.now));
    AssessmentIsNeutral(s.rows, m.x, m.fault, s.today, m.now);
    WriteToday(assessed, RegisterTrade, s.today, m.now);
    if Approved(s, m) {
      ApprovalMeansRoom(s.rows, m.x, m.fault, s.today, m.now, m.consumed);
      ApprovedRisk(m.x, SeenIn(s.rows, m.x, m.fault, s.today, m.now), m.consumed);
    }
    SettledProgress(s, m, st, assessed, Applied(assessed, RegisterTrade, s.today, m.now), if Approved(s, m) then
      DerivedOf(m.x).risk else None);
  }

  lemma BookProgress(s: State, m: Move, st: Settings)
    requires OneRowPerDay(s.rows) && NoneLater(s.rows, s.today) && m.Book?
    ensures Progress(s, m, Passed(s, m), st)
  {
    WriteToday(s.rows, AddPnl(m.amount), s.today, m.now);
    BookedProgress(s, m, st, Applied(s.rows, AddPnl(m.amount), s.today, m.now));
  }

  lemma BookedProgress(s: State, m: Move, st: Settings, rows: seq<RiskRow>)
    requires OneRowPerDay(rows) && NoneLater(rows, s.today) && m.Book?
    requires RowOf(rows, s.today, 0).realizedPnl == Today(s).realizedPnl + m.amount
      && RowOf(rows, s.today, 0).tradesOpened == Today(s).tradesOpened
    ensures Progress(s, m, s.(rows := rows, risks := Charged(s.risks, m.position, m.amount)), st)
  {
  }

  lemma NeutralProgress(s: State, m: Move, st: Settings, op: Op, now: int)
    requires OneRowPerDay(s.rows) && NoneLater(s.rows, s.today) && Neutral(op)
    requires (m.Equity? && op == Observe(m.equity) && now == m.now) || (m.Operator? && op == m.op && now == m.now)
    ensures Progress(s, m, Passed(s, m), st)
  {
    WriteToday(s.rows, op, s.today, now);
  }

  lemma IdleProgress(s: State, m: Move, st: Settings)
    requires OneRowPerDay(s.rows) && NoneLater(s.rows, s.today) && (m.Scan? || m.Closed? || m.Restart?)
    ensures Progress(s, m, Passed(s, m), st)
  {
  }

  lemma MidnightProgress(s: State, m: Move, st: Settings)
    requires OneRowPerDay(s.rows) && NoneLater(s.rows, s.today) && m.Midnight?
    ensures Progress(s, m, Passed(s, m), st)
  {
    MidnightRow(s.rows, s.today);
    NewDayProgress(s, m, st, Passed(s, m), RowOf(s.rows, s.today + 1, 0));
  }

  lemma NewDayProgress(s: State, m: Move, st: Settings, t: State, row: RiskRow)
    requires OneRowPerDay(t.rows) && NoneLater(t.rows, t.today) && m.Midnight?
    requires Today(t) == row && row.realizedPnl == 0.0 && row.tradesOpened == 0 && SamePositions(s, t)
      && t.accepted == 0 && t.crashes == 0
    ensures Progress(s, m, t, st)
  {
  }

  lemma PassedProgress(s: State, m: Move, st: Settings)
    requires OneRowPerDay(s.rows) && NoneLater(s.rows, s.today) && Fair(m, st) && !m.Candidate?
    ensures Progress(s, m, Passed(s, m), st)
  {
    match m
    case Book(_, _, _) => BookProgress(s, m, st);
    case Equity(equity, now) => NeutralProgress(s, m, st, Observe(equity), now);
    case Operator(op, now) => NeutralProgress(s, m, st, op, now);
    case Midnight => MidnightProgress(s, m, st);
    case _ => IdleProgress(s, m, st);
  }

  lemma MoveProgress(s: State, m: Move, st: Settings)
    requires OneRowPerDay(s.rows) && NoneLater(s.rows, s.today) && Fair(m, st)
    ensures Progress(s, m, Next(s, m), st)
  {
    if m.Candidate? { CandidateProgress(s, m, st); } else { PassedProgress(s, m, st); }
  }

  // ------------------------------------------------------------------ the trade count

  // `cap` is the maximum, or what the day had already counted when that was more.
  predicate CountHolds(s: State, cap: nat) {
    OneRowPerDay(s.rows) && NoneLater(s.rows, s.today)
    && s.accepted <= Today(s).tradesOpened + s.crashes && Today(s).tradesOpened <= cap
  }

  lemma CountStep(s: State, m: Move, t: State, st: Settings, cap: nat)
    requires CountHolds(s, cap) && Progress(s, m, t, st) && st.maxDailyTrades <= cap
    ensures CountHolds(t, cap)
  {
  }

  // Whatever the process does, restarts included, today's accepted orders never outnumber the
  // configured maximum (or the count the day began with, when it was higher) plus the crashes between
  // an acceptance and its count.
  lemma {:induction false} DailyTradesAreBounded(s: State, moves: seq<Move>, st: Settings, cap: nat)
    requires OneRowPerDay(s.rows) && NoneLater(s.rows, s.today) && s.accepted <= Today(s).tradesOpened + s.crashes
      && AllFair(moves, st)
    requires cap == if Today(s).tradesOpened > st.maxDailyTrades then Today(s).tradesOpened else st.maxDailyTrades
    ensures CountHolds(Played(s, moves), cap)
    ensures Played(s, moves).accepted <= cap + Played(s, moves).crashes
  {
    if moves != [] {
      DailyTradesAreBounded(s, moves[..|moves| - 1], st, cap);
      var before := Played(s, moves[..|moves| - 1]);
      MoveProgress(before, moves[|moves| - 1], st);
      CountStep(before, moves[|moves| - 1], Played(s, moves), st, cap);
    }
  }

  // ------------------------------------------------------------------ the risk that is open

  function Sum(risks: seq<real>): real {
    if risks == [] then 0.0 else Sum(risks[..|risks| - 1]) + risks[|risks| - 1]
  }

  function Many(n: nat, one: real): real {
    n as real * one
  }

  predicate Each(risks: seq<real>, limit: real) {
    forall i :: 0 <= i < |risks| ==> 0.0 <= risks[i] <= limit
  }

  lemma SumOneMore(risks: seq<real>, risk: real)
    ensures Sum(risks + [risk]) == Sum(risks) + risk
  {
    assert (risks + [risk])[..|risks|] == risks;
  }

  lemma {:induction false} SumUpdate(risks: seq<real>, i: nat, risk: real)
    requires i < |risks|
    ensures Sum(risks[i := risk]) == Sum(risks) - risks[i] + risk
  {
    var n := |risks| - 1;
    if i < n {
      SumUpdate(risks[..n], i, risk);
      assert risks[i := risk][..n] == risks[..n][i := risk];
    } else {
      assert risks[i := risk][..n] == risks[..n];
    }
  }

  lemma {:induction false} SumWithout(risks: seq<real>, i: nat)
    requires i < |risks|
    ensures Sum(Without(risks, i)) == Sum(risks) - risks[i]
  {
    var n := |risks| - 1;
    if i < n {
      SumWithout(risks[..n], i);
      assert Without(risks, i) == Without(risks[..n], i) + [risks[n]];
      SumOneMore(Without(risks[..n], i), risks[n]);
    } else {
      assert Without(risks, i) == risks[..n];
    }
  }

  lemma OneMany(n: nat, one: real)
    ensures Many(n + 1, one) == Many(n, one) + one
  {
  }

  lemma ManyGrows(n: nat, m: nat, one: real)
    requires n <= m && one >= 0.0
    ensures Many(n, one) <= Many(m, one)
  {
    assert (m - n) as real * one >= 0.0;
  }

  lemma {:induction false} SumIsBounded(risks: seq<real>, limit: real)
    requires Each(risks, limit)
    ensures 0.0 <= Sum(risks) <= Many(|risks|, limit)
  {
    if risks != [] {
      var n := |risks| - 1;
      SumIsBounded(risks[..n], limit);
      OneMany(n, limit);
    }
  }

  // ------------------------------------------------------------------ the session loss

  // What one approved trade can lose.
  function PerTrade(st: Settings): real {
    st.maxLoss + MONEY_EPSILON
  }

  // The code hands every candidate the number of open positions its scan began with; that number misses
  // at most p of the positions that carry risk (an order the broker holds as pending is no position yet);
  // and no position loses more than was approved for it.
  predicate Honest(s: State, m: Move, p: nat) {
    && (m.Scan? ==> m.reported + p >= |s.risks|)
    && (m.Candidate? ==> m.x.facts.openPositions.None? || m.x.facts.openPositions.value == s.shown)
    && (m.Book? && m.amount < 0.0 ==> m.position < |s.risks| && s.risks[m.position] + m.amount >= 0.0)
  }

  // No scan of the run misses more than p positions or sees more than k of its candidates accepted.
  predicate AllHonest(s: State, moves: seq<Move>, k: nat, p: nat) {
    Played(s, moves).burst <= k
    && (moves == []
      || (AllHonest(s, moves[..|moves| - 1], k, p) && Honest(Played(s, moves[..|moves| - 1]), moves[|moves| - 1], p)))
  }

  // The positions that can be open at once: what a scan tolerates, and what it accepts or misses on top.
  function Room(st: Settings, k: nat): nat
    requires st.maxOpen >= 1
  {
    st.maxOpen - 1 + k
  }

  // Less than the session limit and what n trades can lose; a session limit inside the code's own
  // tolerance leaves what n trades can lose.
  predicate Bearable(loss: real, st: Settings, n: nat) {
    if st.maxSessionLoss > MONEY_EPSILON then loss < st.maxSessionLoss - MONEY_EPSILON + Many(n, PerTrade(st))
      else loss <= Many(n, PerTrade(st))
  }

  // What today has lost, and what it would have lost were all the open risk lost too.
  predicate LossHolds(s: State, st: Settings, k: nat, p: nat)
    requires st.maxOpen >= 1
  {
    OneRowPerDay(s.rows) && NoneLater(s.rows, s.today) && Each(s.risks, PerTrade(st))
    && |s.risks| <= s.shown + s.burst + p && |s.risks| <= Room(st, k + p)
    && Bearable(-Today(s).realizedPnl + Sum(s.risks), st, Room(st, k + p))
  }

  lemma AcceptStep(s: State, m: Move, t: State, st: Settings, k: nat, p: nat)
    requires st.maxOpen >= 1 && st.maxLoss >= 0.0 && LossHolds(s, st, k, p) && m.Candidate? && Honest(s, m, p)
      && t.burst <= k
    requires OneRowPerDay(t.rows) && NoneLater(t.rows, t.today) && Accepts(s, m, t, st)
    ensures LossHolds(t, st, k, p)
  {
    var before, risk, n := s.risks, t.risks[|t.risks| - 1], Room(st, k + p);
    OneMoreRisk(before, risk, t.risks, PerTrade(st), n);
    BearableAfter(Today(t).realizedPnl, Sum(t.risks), st, n);
  }

  lemma OneMoreRisk(before: seq<real>, risk: real, risks: seq<real>, limit: real, n: nat)
    requires Each(before, limit) && 0.0 <= risk <= limit && risks == before + [risk] && |risks| <= n
    ensures Each(risks, limit) && 0.0 <= Sum(risks) <= Many(n, limit)
  {
    SumIsBounded(risks, limit);
    ManyGrows(|risks|, n, limit);
  }

  lemma BearableAfter(pnl: real, sum: real, st: Settings, n: nat)
    requires pnl >= 0.0 || -pnl < st.maxSessionLoss - MONEY_EPSILON
    requires 0.0 <= sum <= Many(n, PerTrade(st))
    ensures Bearable(-pnl + sum, st, n)
  {
  }

  lemma ChargeStep(risks: seq<real>, position: nat, amount: real, limit: real)
    requires Each(risks, limit) && (amount < 0.0 ==> position < |risks| && risks[position] + amount >= 0.0)
    ensures Each(Charged(risks, position, amount), limit) && |Charged(risks, position, amount)| == |risks|
    ensures Sum(Charged(risks, position, amount)) - amount <= Sum(risks)
  {
    if amount < 0.0 {
      var rest := risks[position] + amount;
      SumUpdate(risks, position, rest);
      EachUpdated(risks, position, rest, limit);
      assert Charged(risks, position, amount) == risks[position := rest];
    } else {
      assert Charged(risks, position, amount) == risks;
    }
  }

  lemma EachUpdated(risks: seq<real>, position: nat, rest: real, limit: real)
    requires Each(risks, limit) && position < |risks| && 0.0 <= rest <= risks[position]
    ensures Each(risks[position := rest], limit)
  {
  }

  lemma CloseStep(risks: seq<real>, position: nat, limit: real)
    requires Each(risks, limit)
    ensures Each(Without(risks, position), limit) && |Without(risks, position)| <= |risks|
      && Sum(Without(risks, position)) <= Sum(risks)
  {
    if position < |risks| { SumWithout(risks, position); }
  }

  lemma LossStep(s: State, m: Move, t: State, st: Settings, k: nat, p: nat)
    requires st.maxOpen >= 1 && st.maxLoss >= 0.0 && LossHolds(s, st, k, p) && Progress(s, m, t, st) && Honest(s, m, p)
      && t.burst <= k
    ensures LossHolds(t, st, k, p)
  {
    match m
    case Candidate(_, _, _, _, _) => if Accepts(s, m, t, st) { AcceptStep(s, m, t, st, k, p); }
    case Book(amount, position, _) => ChargeStep(s.risks, position, amount, PerTrade(st));
    case Closed(position) => CloseStep(s.risks, position, PerTrade(st));
    case Midnight =>
      SumIsBounded(s.risks, PerTrade(st));
      ManyGrows(|s.risks|, Room(st, k + p), PerTrade(st));
    case _ =>
  }

  function LossToday(t: State): real {
    Max(0.0, -Today(t).realizedPnl)
  }

  lemma HeldLoss(t: State, st: Settings, k: nat, p: nat)
    requires st.maxOpen >= 1 && st.maxLoss >= 0.0 && LossHolds(t, st, k, p)
    ensures Bearable(LossToday(t), st, Room(st, k + p))
  {
    SumIsBounded(t.risks, PerTrade(st));
    ManyGrows(0, Room(st, k + p), PerTrade(st));
  }

  // With losses booked before the next assessment and no position losing more than was approved for
  // it: when no scan misses more than p positions or sees more than k candidates accepted, no session
  // loses the session limit together with what maxOpen - 1 + k + p trades can lose.
  lemma {:induction false} SessionLossIsBounded(s: State, moves: seq<Move>, st: Settings, k: nat, p: nat)
    requires st.maxOpen >= 1 && st.maxLoss >= 0.0 && LossHolds(s, st, k, p) && AllFair(moves, st)
      && AllHonest(s, moves, k, p)
    ensures LossHolds(Played(s, moves), st, k, p) && Bearable(LossToday(Played(s, moves)), st, Room(st, k + p))
  {
    if moves != [] {
      var before := Played(s, moves[..|moves| - 1]);
      SessionLossIsBounded(s, moves[..|moves| - 1], st, k, p);
      MoveProgress(before, moves[|moves| - 1], st);
      LossStep(before, moves[|moves| - 1], Played(s, moves), st, k, p);
    }
    HeldLoss(Played(s, moves), st, k, p);
  }

  // ------------------------------------------------------------------ one trade beyond the limit

  // The candidates judged since the last scan began, when b were judged before the run.
  function Candidates(b: nat, moves: seq<Move>): nat {
    if moves == [] then b
    else if moves[|moves| - 1].Scan? then 0
    else Candidates(b, moves[..|moves| - 1]) + if moves[|moves| - 1].Candidate? then 1 else 0
  }

  // No scan of the run yields more than k candidates.
  predicate FewCandidates(b: nat, moves: seq<Move>, k: nat) {
    Candidates(b, moves) <= k && (moves == [] || FewCandidates(b, moves[..|moves| - 1], k))
  }

  // What the operator controls bounds what the broker accepts: one candidate a scan, which the ensemble
  // or a single enabled strategy guarantees, is at most one acceptance a scan.
  lemma {:induction false} FewCandidatesFewAcceptances(s: State, moves: seq<Move>, n: nat, k: nat, p: nat)
    requires AllHonest(s, moves, n, p) && FewCandidates(s.burst, moves, k)
    ensures Played(s, moves).burst <= Candidates(s.burst, moves) && AllHonest(s, moves, k, p)
  {
    if moves != [] {
      var front := moves[..|moves| - 1];
      FewCandidatesFewAcceptances(s, front, n, k, p);
      BurstStep(Played(s, front), moves[|moves| - 1], Played(s, moves));
    }
  }

  lemma BurstStep(s: State, m: Move, t: State)
    requires Next(s, m) == t
    ensures t.burst <= if m.Scan? then 0 else s.burst + if m.Candidate? then 1 else 0
  {
    if m.Candidate? {
      var assessed := After(s.rows, Assessed(m.x, m.fault, s.today, m.now));
      SettledBurst(s, assessed, Applied(assessed, RegisterTrade, s.today, m.now), if Approved(s, m) then
        DerivedOf(m.x).risk else None, m.outcome);
    }
  }

  lemma SettledBurst(s: State, assessed: seq<RiskRow>, counted: seq<RiskRow>, risk: Option<real>, outcome: Outcome)
    ensures Settled(s, assessed, counted, risk, outcome).burst <= s.burst + 1
  {
  }

  lemma {:induction false} HonestyGrows(s: State, moves: seq<Move>, k: nat, p: nat, l: nat, q: nat)
    requires AllHonest(s, moves, k, p) && k <= l && p <= q
    ensures AllHonest(s, moves, l, q)
  {
    if moves != [] { HonestyGrows(s, moves[..|moves| - 1], k, p, l, q); }
  }

  // Where nothing is accepted, a scan can miss no more than the one position there is.
  lemma {:induction false} NothingAccepted(s: State, moves: seq<Move>, st: Settings, p: nat)
    requires st.maxOpen == 1 && st.maxLoss >= 0.0 && LossHolds(s, st, 0, 1) && AllFair(moves, st)
      && AllHonest(s, moves, 0, p)
    ensures AllHonest(s, moves, 0, 1)
  {
    if moves != [] {
      NothingAccepted(s, moves[..|moves| - 1], st, p);
      SessionLossIsBounded(s, moves[..|moves| - 1], st, 0, 1);
    }
  }

  // A session for one position at a time, and a run of it.
  predicate SinglePosition(s: State, moves: seq<Move>, st: Settings) {
    st.maxOpen == 1 && st.maxLoss >= 0.0 && st.maxSessionLoss > MONEY_EPSILON && LossHolds(s, st, 1, 0)
      && AllFair(moves, st)
  }

  predicate WithinOneTrade(t: State, st: Settings) {
    LossToday(t) < st.maxSessionLoss + st.maxLoss
  }

  // With one position allowed, k acceptances a scan and p missed positions, no run loses the session limit
  // and one trade's limit.
  ghost predicate OneTradeBound(k: nat, p: nat) {
    forall s, moves, st :: SinglePosition(s, moves, st) && AllHonest(s, moves, k, p)
      ==> WithinOneTrade(Played(s, moves), st)
  }

  // The same for scans of at most k candidates, however many of them are accepted.
  ghost predicate OneTradeBoundByCandidates(k: nat, p: nat) {
    forall s, moves, st, n ::
      (SinglePosition(s, moves, st) && AllHonest(s, moves, n, p) && FewCandidates(s.burst, moves, k))
        ==> WithinOneTrade(Played(s, moves), st)
  }

  lemma OneAtATime(loss: real, st: Settings)
    requires Bearable(loss, st, 1) && st.maxSessionLoss > MONEY_EPSILON
    ensures loss < st.maxSessionLoss + st.maxLoss
  {
  }

  lemma OneTradeHolds(s: State, moves: seq<Move>, st: Settings, k: nat, p: nat)
    requires SinglePosition(s, moves, st) && AllHonest(s, moves, k, p) && (k == 0 || (k == 1 && p == 0))
    ensures WithinOneTrade(Played(s, moves), st)
  {
    if k == 0 {
      NothingAccepted(s, moves, st, p);
      SessionLossIsBounded(s, moves, st, 0, 1);
    } else {
      SessionLossIsBounded(s, moves, st, 1, 0);
    }
    OneAtATime(LossToday(Played(s, moves)), st);
  }

  // The bound of one trade beyond the session limit holds exactly when a scan misses no position and
  // accepts at most one order (or nothing is accepted at all).
  lemma OneTradeBoundIff(k: nat, p: nat)
    ensures OneTradeBound(k, p) <==> k == 0 || (k == 1 && p == 0)
  {
    if k == 0 || (k == 1 && p == 0) {
      forall s, moves, st | SinglePosition(s, moves, st) && AllHonest(s, moves, k, p)
        ensures WithinOneTrade(Played(s, moves), st)
      {
        OneTradeHolds(s, moves, st, k, p);
      }
    } else {
      var moves := Excess(k);
      ExcessRun(k, p);
      assert SinglePosition(QUIET, moves, BUSY) && !WithinOneTrade(Played(QUIET, moves), BUSY);
    }
  }

  // And exactly when a scan misses no position and yields at most one candidate: the number of candidates,
  // not of acceptances, is what the configuration fixes.
  lemma OneTradeBoundByCandidatesIff(k: nat, p: nat)
    ensures OneTradeBoundByCandidates(k, p) <==> k == 0 || (k == 1 && p == 0)
  {
    if k == 0 || (k == 1 && p == 0) {
      forall s, moves, st, n
        | SinglePosition(s, moves, st) && AllHonest(s, moves, n, p) && FewCandidates(s.burst, moves, k)
        ensures WithinOneTrade(Played(s, moves), st)
      {
        FewCandidatesFewAcceptances(s, moves, n, k, p);
        OneTradeHolds(s, moves, st, k, p);
      }
    } else {
      var moves := Excess(k);
      ExcessRun(k, p);
      assert SinglePosition(QUIET, moves, BUSY) && AllHonest(QUIET, moves, k, p) && FewCandidates(QUIET.burst, moves, k)
        && !WithinOneTrade(Played(QUIET, moves), BUSY);
    }
  }

  // ------------------------------------------------------------------ two positions where one is allowed

  const BUSY: Settings := Settings(1.0, 1.0, 1.0, 1.0, 2, 1, 1, 0, 1.0, 1.0, 2.0, 1.0, 1.0, 1.0, 1.0, 1.0, 1.0, false)
  const BUSY_FACTS: Facts :=
      Facts(Some(ONE_LOT), true, Some(false), true, Some(true), Some(0.0), Some(Hold), Some(0.0), Some(0), Some(0),
        Some(0.0), None, false, false, true, Some(100.0), Some(100.0), 0.0)

  // A candidate of a demo account with a hundred of equity and nothing exposed, judged with the number of
  // open positions its scan began with: none.
  const BUSY_CANDIDATE: Inputs :=
      Inputs(BUSY, Signal(Buy, Some(10.0), Some(9.0), Some(12.0)), 0, BUSY_FACTS)

  // The day's row: half a unit lost, and as many trades as counted.
  function BusyRow(trades: nat): RiskRow {
    RiskRow(0, -0.5, Some(100.0), Some(100.0), false, None, trades, 0)
  }

  predicate IsBusy(x: Inputs) {
    x == BUSY_CANDIDATE
  }

  lemma BusySeen(x: Inputs, trades: nat)
    requires IsBusy(x)
    ensures SeenIn([BusyRow(trades)], x, NoFault, 0, 0) == Seen(true, 0.5, trades, Some(100.0), false, None)
    ensures RowOf([BusyRow(trades)], 0, 0) == BusyRow(trades)
  {
    assert [BusyRow(trades)][0].day == 0;
  }

  lemma BusyNumbers(x: Inputs)
    requires IsBusy(x)
    ensures DerivedOf(x) == ONE_LOT_NUMBERS
  {
    OneLotIsDerived(x);
  }

  lemma BusyLimits(x: Inputs, seen: Seen)
    requires IsBusy(x) && seen.loss == 0.5 && seen.trades < 2 && seen.peak == Some(100.0)
    ensures LimitsOf(x, seen) == []
  {
  }

  lemma BusyPasses(x: Inputs, seen: Seen, d: Derived)
    requires IsBusy(x) && d == ONE_LOT_NUMBERS && seen.readable && !seen.locked && seen.kill.None?
    ensures MarketOpen(x) && OrderOpen(x, d) && StateOpen(x, seen, [], None)
  {
  }

  lemma GateIs(x: Inputs, seen: Seen, consumed: Option<bool>, d: Derived, limits: seq<Limit>)
    requires d == DerivedOf(x) && limits == LimitsOf(x, seen) && MarketOpen(x) && OrderOpen(x, d)
      && StateOpen(x, seen, limits, consumed)
    ensures GateOpen(x, seen, consumed)
  {
  }

  lemma BusyApproved(x: Inputs, seen: Seen)
    requires IsBusy(x) && seen.readable && !seen.locked && seen.kill.None? && seen.loss == 0.5 && seen.trades < 2
      && seen.peak == Some(100.0)
    ensures GateOpen(x, seen, None)
  {
    BusyNumbers(x);
    BusyLimits(x, seen);
    BusyPasses(x, seen, ONE_LOT_NUMBERS);
    GateIs(x, seen, None, ONE_LOT_NUMBERS, []);
  }

  lemma BusyEffects(x: Inputs, seen: Seen)
    requires IsBusy(x) && seen.readable && seen.loss == 0.5 && seen.trades < 2 && seen.peak == Some(100.0)
    ensures Effects(x, seen, NoFault) == [Touch, Observe(100.0)]
  {
    BusyLimits(x, seen);
  }

  lemma BusyRows(x: Inputs, trades: nat)
    requires IsBusy(x) && trades < 2
    ensures After([BusyRow(trades)], Assessed(x, NoFault, 0, 0)) == [BusyRow(trades)]
  {
    var rows := [BusyRow(trades)];
    BusySeen(x, trades);
    BusyEffects(x, SeenIn(rows, x, NoFault, 0, 0));
    RunPair(rows, Touch, Observe(100.0), 0, 0);
    assert rows[0].day == 0;
  }

  lemma BusyCounted(trades: nat)
    ensures Applied([BusyRow(trades)], RegisterTrade, 0, 0) == [BusyRow(trades + 1)]
  {
    assert [BusyRow(trades)][0].day == 0;
  }

  lemma JudgedIs(s: State, m: Move, assessed: seq<RiskRow>, counted: seq<RiskRow>, risk: real)
    requires m.Candidate? && m.outcome == Counted && Approved(s, m) && DerivedOf(m.x).risk == Some(risk)
    requires assessed == After(s.rows, Assessed(m.x, m.fault, s.today, m.now))
      && counted == Applied(assessed, RegisterTrade, s.today, m.now)
    ensures Next(s, m) == Opened(s, counted, risk, 0)
  {
  }

  lemma BusyJudged(s: State, x: Inputs, trades: nat)
    requires IsBusy(x) && trades < 2 && s.rows == [BusyRow(trades)] && s.today == 0
    ensures Next(s, Candidacy(x)) == Opened(s, [BusyRow(trades + 1)], 1.0, 0)
  {
    BusySeen(x, trades);
    BusyApproved(x, SeenIn(s.rows, x, NoFault, 0, 0));
    BusyRows(x, trades);
    BusyCounted(trades);
    BusyNumbers(x);
    JudgedIs(s, Candidacy(x), [BusyRow(trades)], [BusyRow(trades + 1)], 1.0);
  }

  function Candidacy(x: Inputs): Move {
    Candidate(x, NoFault, None, Counted, 0)
  }

  // One order of one scan.
  function OneOrder(x: Inputs): seq<Move> {
    [Scan(0)] + [Candidacy(x)]
  }

  // A second order: of the same scan, or of a next scan that sees no position yet.
  function SameScan(x: Inputs): seq<Move> {
    OneOrder(x) + [Candidacy(x)]
  }

  function NextScan(x: Inputs): seq<Move> {
    OneOrder(x) + [Scan(0)] + [Candidacy(x)]
  }

  // Both positions lose what was approved for them.
  function Lost(moves: seq<Move>): seq<Move> {
    moves + [Book(-1.0, 0, 0)] + [Book(-1.0, 1, 0)]
  }

  function Excess(k: nat): seq<Move> {
    if k == 1 then Lost(NextScan(BUSY_CANDIDATE)) else Lost(SameScan(BUSY_CANDIDATE))
  }

  lemma OneMoreMove(s: State, moves: seq<Move>, m: Move, t: State, next: State, k: nat, p: nat)
    requires Played(s, moves) == t && Next(t, m) == next && AllHonest(s, moves, k, p) && Honest(t, m, p)
      && next.burst <= k
    ensures Played(s, moves + [m]) == next && AllHonest(s, moves + [m], k, p)
  {
    assert (moves + [m])[..|moves + [m]| - 1] == moves;
  }

  const QUIET: State := State([BusyRow(0)], 0, [], 0, 0, 0, 0)
  const ONE_OPEN: State := State([BusyRow(1)], 0, [1.0], 0, 1, 1, 0)

  // Two positions; the second was accepted as number `burst` of its scan.
  function TwoOpen(burst: nat): State {
    State([BusyRow(2)], 0, [1.0, 1.0], 0, burst, 2, 0)
  }

  lemma CandidacyNext(s: State, t: State, x: Inputs, trades: nat, p: nat)
    requires IsBusy(x) && trades < 2 && s.rows == [BusyRow(trades)] && s.today == 0 && s.shown == 0
    requires t == Opened(s, [BusyRow(trades + 1)], 1.0, 0)
    ensures Next(s, Candidacy(x)) == t && Honest(s, Candidacy(x), p)
  {
    BusyJudged(s, x, trades);
  }

  // One more acceptance, abstractly.
  lemma OneMoreOrder(x: Inputs, moves: seq<Move>, s: State, t: State, trades: nat, k: nat, p: nat)
    requires IsBusy(x) && trades < 2 && s.rows == [BusyRow(trades)] && s.today == 0 && s.shown == 0
    requires t == Opened(s, [BusyRow(trades + 1)], 1.0, 0) && t.burst <= k
    requires Played(QUIET, moves) == s && AllHonest(QUIET, moves, k, p)
    ensures Played(QUIET, moves + [Candidacy(x)]) == t && AllHonest(QUIET, moves + [Candidacy(x)], k, p)
  {
    CandidacyNext(s, t, x, trades, p);
    OneMoreMove(QUIET, moves, Candidacy(x), s, t, k, p);
  }

  lemma OneOpened(x: Inputs, k: nat, p: nat)
    requires IsBusy(x) && k >= 1
    ensures Played(QUIET, OneOrder(x)) == ONE_OPEN && AllHonest(QUIET, OneOrder(x), k, p)
  {
    assert [] + [Scan(0)] == [Scan(0)];
    OneMoreMove(QUIET, [], Scan(0), QUIET, QUIET, k, p);
    OneMoreOrder(x, [Scan(0)], QUIET, ONE_OPEN, 0, k, p);
  }

  lemma SecondOpened(burst: nat)
    ensures TwoOpen(burst + 1) == Opened(ONE_OPEN.(burst := burst), [BusyRow(2)], 1.0, 0)
  {
    assert [1.0] + [1.0] == [1.0, 1.0];
  }

  lemma SameScanOpensTwo(x: Inputs)
    requires IsBusy(x)
    ensures Played(QUIET, SameScan(x)) == TwoOpen(2) && AllHonest(QUIET, SameScan(x), 2, 0)
  {
    OneOpened(x, 2, 0);
    SecondOpened(1);
    OneMoreOrder(x, OneOrder(x), ONE_OPEN, TwoOpen(2), 1, 2, 0);
  }

  lemma NextScanOpensTwo(x: Inputs)
    requires IsBusy(x)
    ensures Played(QUIET, NextScan(x)) == TwoOpen(1) && AllHonest(QUIET, NextScan(x), 1, 1)
  {
    OneOpened(x, 1, 1);
    SecondOpened(0);
    var next := ONE_OPEN.(burst := 0);
    OneMoreMove(QUIET, OneOrder(x), Scan(0), ONE_OPEN, next, 1, 1);
    OneMoreOrder(x, OneOrder(x) + [Scan(0)], next, TwoOpen(1), 1, 1, 1);
  }

  lemma BookNext(t: State, amount: real, position: nat)
    requires OneRowPerDay(t.rows) && NoneLater(t.rows, t.today)
    ensures var next := Next(t, Book(amount, position, 0));
      && OneRowPerDay(next.rows) && NoneLater(next.rows, next.today) && next.burst == t.burst
      && next.risks == Charged(t.risks, position, amount) && Today(next).realizedPnl == Today(t).realizedPnl + amount
  {
    WriteToday(t.rows, AddPnl(amount), t.today, 0);
  }

  lemma TwoAreLost(moves: seq<Move>, t: State, k: nat, p: nat)
    requires Played(QUIET, moves) == t && AllHonest(QUIET, moves, k, p) && t.risks == [1.0, 1.0]
      && OneRowPerDay(t.rows) && NoneLater(t.rows, t.today) && Today(t).realizedPnl == -0.5
    ensures AllHonest(QUIET, Lost(moves), k, p) && LossToday(Played(QUIET, Lost(moves))) == 2.5
  {
    var first, second := Book(-1.0, 0, 0), Book(-1.0, 1, 0);
    var one := Next(t, first);
    BookNext(t, -1.0, 0);
    OneMoreMove(QUIET, moves, first, t, one, k, p);
    assert one.risks == [0.0, 1.0];
    BookNext(one, -1.0, 1);
    OneMoreMove(QUIET, moves + [first], second, one, Next(one, second), k, p);
  }

  lemma TwoOpenRows(burst: nat)
    ensures var t := TwoOpen(burst);
      OneRowPerDay(t.rows) && NoneLater(t.rows, t.today) && Today(t).realizedPnl == -0.5
  {
    assert TwoOpen(burst).rows[0].day == 0;
  }

  lemma QuietIsSinglePosition(moves: seq<Move>)
    requires AllFair(moves, BUSY)
    ensures SinglePosition(QUIET, moves, BUSY)
  {
    assert QUIET.rows[0].day == 0;
    assert Today(QUIET).realizedPnl == -0.5 && Sum(QUIET.risks) == 0.0 && Many(1, PerTrade(BUSY)) == PerTrade(BUSY);
  }

  lemma {:induction false} OneMoreFew(moves: seq<Move>, m: Move, k: nat)
    requires FewCandidates(0, moves, k) && (m.Candidate? ==> Candidates(0, moves) < k)
    ensures FewCandidates(0, moves + [m], k)
    ensures Candidates(0, moves + [m]) == if m.Scan? then 0 else Candidates(0, moves) + if m.Candidate? then 1 else 0
  {
    assert (moves + [m])[..|moves + [m]| - 1] == moves;
  }

  lemma OneOrderIsFew(x: Inputs, k: nat)
    requires k >= 1
    ensures FewCandidates(0, OneOrder(x), k) && Candidates(0, OneOrder(x)) == 1
  {
    assert [] + [Scan(0)] == [Scan(0)];
    OneMoreFew([], Scan(0), k);
    OneMoreFew([Scan(0)], Candidacy(x), k);
  }

  lemma LostIsFew(moves: seq<Move>, k: nat)
    requires FewCandidates(0, moves, k)
    ensures FewCandidates(0, Lost(moves), k)
  {
    OneMoreFew(moves, Book(-1.0, 0, 0), k);
    OneMoreFew(moves + [Book(-1.0, 0, 0)], Book(-1.0, 1, 0), k);
  }

  lemma SameScanIsFew(x: Inputs, k: nat)
    requires k >= 2
    ensures FewCandidates(0, Lost(SameScan(x)), k)
  {
    OneOrderIsFew(x, k);
    OneMoreFew(OneOrder(x), Candidacy(x), k);
    LostIsFew(SameScan(x), k);
  }

  lemma NextScanIsFew(x: Inputs)
    ensures FewCandidates(0, Lost(NextScan(x)), 1)
  {
    OneOrderIsFew(x, 1);
    OneMoreFew(OneOrder(x), Scan(0), 1);
    OneMoreFew(OneOrder(x) + [Scan(0)], Candidacy(x), 1);
    LostIsFew(NextScan(x), 1);
  }

  lemma BothAreLost(moves: seq<Move>, burst: nat, k: nat, p: nat)
    requires Played(QUIET, moves) == TwoOpen(burst) && AllHonest(QUIET, moves, k, p) && AllFair(moves, BUSY)
    ensures AllHonest(QUIET, Lost(moves), k, p) && SinglePosition(QUIET, Lost(moves), BUSY)
    ensures LossToday(Played(QUIET, Lost(moves))) == 2.5 > BUSY.maxSessionLoss + BUSY.maxLoss
  {
    TwoOpenRows(burst);
    TwoAreLost(moves, TwoOpen(burst), k, p);
    LostIsFair(moves);
    QuietIsSinglePosition(Lost(moves));
  }

  lemma SameScanIsFair(x: Inputs)
    requires IsBusy(x)
    ensures AllFair(SameScan(x), BUSY)
  {
  }

  lemma NextScanIsFair(x: Inputs)
    requires IsBusy(x)
    ensures AllFair(NextScan(x), BUSY)
  {
  }

  // So one position at a time is not kept within a scan, and the bound fails: a scan accepts two
  // candidates, and their two losses leave the day beyond the session limit and one trade's limit.
  lemma OneScanMayOpenTwo(x: Inputs, moves: seq<Move>)
    requires IsBusy(x) && moves == SameScan(x)
    ensures AllHonest(QUIET, Lost(moves), 2, 0) && SinglePosition(QUIET, Lost(moves), BUSY)
    ensures Played(QUIET, moves).risks == [1.0, 1.0]
    ensures LossToday(Played(QUIET, Lost(moves))) == 2.5 > BUSY.maxSessionLoss + BUSY.maxLoss
  {
    SameScanOpensTwo(x);
    SameScanIsFair(x);
    BothAreLost(moves, 2, 2, 0);
  }

  // Nor is it kept by one acceptance a scan: the order the first scan placed may still be pending at the
  // broker, where the next scan sees no position.
  lemma PendingOrderMayOpenTwo(x: Inputs, moves: seq<Move>)
    requires IsBusy(x) && moves == NextScan(x)
    ensures AllHonest(QUIET, Lost(moves), 1, 1) && SinglePosition(QUIET, Lost(moves), BUSY)
    ensures Played(QUIET, moves).risks == [1.0, 1.0]
    ensures LossToday(Played(QUIET, Lost(moves))) == 2.5 > BUSY.maxSessionLoss + BUSY.maxLoss
  {
    NextScanOpensTwo(x);
    NextScanIsFair(x);
    BothAreLost(moves, 1, 1, 1);
  }

  lemma {:induction false} LostIsFair(moves: seq<Move>)
    requires AllFair(moves, BUSY)
    ensures AllFair(Lost(moves), BUSY)
  {
  }

  // The run that breaks the bound for k candidates a scan and p missed positions.
  lemma ExcessRun(k: nat, p: nat)
    requires k >= 2 || (k == 1 && p >= 1)
    ensures SinglePosition(QUIET, Excess(k), BUSY) && AllHonest(QUIET, Excess(k), k, p)
    ensures FewCandidates(0, Excess(k), k) && !WithinOneTrade(Played(QUIET, Excess(k)), BUSY)
  {
    if k == 1 {
      PendingOrderMayOpenTwo(BUSY_CANDIDATE, NextScan(BUSY_CANDIDATE));
      HonestyGrows(QUIET, Excess(k), 1, 1, k, p);
      NextScanIsFew(BUSY_CANDIDATE);
    } else {
      OneScanMayOpenTwo(BUSY_CANDIDATE, SameScan(BUSY_CANDIDATE));
      HonestyGrows(QUIET, Excess(k), 2, 0, k, p);
      SameScanIsFew(BUSY_CANDIDATE, k);
    }
  }
}
