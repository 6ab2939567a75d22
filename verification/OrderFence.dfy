/** The order fence as a protocol: any number of processes run the scheduler's candidate step and
    ExecutionService.submit against one database and one broker. Every database commit, conditional
    UPDATE and broker call is one atomic step; a process may crash between any two of them, and a
    crashed process starts again from Idle. Nothing here consults the lease. */
module OrderFence {
  import opened Records
  import opened Lease

  // The scheduler uses one identity for all three fields; other callers may not.
  datatype Intent = Intent(key: string, tradeId: string, signalId: string)

  // What gateway.order_send gave back.
  datatype Answer = Raised | NoResult | NoRetcode | Done | Placed | Refused

  function Outcome(answer: Answer): Status {
    match answer
    case Raised => Failed
    case NoResult => Failed
    case NoRetcode => Failed
    case Done => Executed
    case Placed => Submitted
    case Refused => Rejected
  }

  // How the conditional UPDATE of the authorization came back to its caller.
  datatype Reply = Clean | Unreadable | LostAfterCommit

  // The point a process has reached; everything in it is memory that a crash loses.
  datatype Local =
    | Idle
    | Looked(intent: Intent, recorded: bool)
    | Candidate(intent: Intent)
    | Submitting(intent: Intent)
    | TradeClear(intent: Intent)
    | GuardClear(intent: Intent)
    | Spending(intent: Intent)
    | Racing(intent: Intent)
    | Refusing(intent: Intent)
    | Cleared(intent: Intent, grant: Option<nat>)
    | Holding(intent: Intent, grant: Option<nat>)
    | Answered(intent: Intent, answer: Answer)
    | Returned(intent: Intent, status: Status)
    | Settling(key: string, verdict: Status)
    | Rearming
    | Acquiring(seen: Option<LeaseRow>, at: int)

  // History: what happened at the authorization, at the guard table and at the broker, in order.
  datatype Event =
    | Won(who: Pid, key: string)
    | Guarded(who: Pid, key: string)
    | Sent(who: Pid, intent: Intent, live: bool, grant: Option<nat>)
    | Rearmed(who: Pid)

  datatype Config = Config(live: set<Pid>, staleSeconds: nat, ttl: nat)

  datatype State = State(
    config: Config,
    guards: map<string, GuardRow>,
    trades: map<string, Status>,
    signals: map<string, SignalRow>,
    auth: Authorization,
    lease: Option<LeaseRow>,
    leaders: set<Pid>,
    clock: int,
    procs: map<Pid, Local>,
    log: seq<Event>)

  // What the scheduler makes of a candidate: no bracket, no approval of the gate, or its approval.
  datatype Judgement = NoBracket | NotApproved | Approved

  datatype Action =
    | Elapse(seconds: nat)
    | Crash(p: Pid)
    | Look(p: Pid, signalId: string)
    | Persist(p: Pid, candle: int)
    | Gate(p: Pid, judgement: Judgement)
    | Call(p: Pid, intent: Intent)
    | CheckTrade(p: Pid)
    | CheckGuard(p: Pid)
    | Preflight(p: Pid, ok: bool)
    | Materialise(p: Pid)
    | Consume(p: Pid, reply: Reply)
    | Refuse(p: Pid)
    | Reserve(p: Pid)
    | Send(p: Pid, answer: Answer)
    | Finish(p: Pid)
    | Complete(p: Pid)
    | Inspect(p: Pid, key: string, found: bool)
    | Settle(p: Pid)
    | Rewrite(p: Pid, tradeId: string, closed: bool)
    | RearmRead(p: Pid)
    | RearmWrite(p: Pid)
    | AcquireRead(p: Pid)
    | AcquireWrite(p: Pid)
    | Release(p: Pid)

  function Loc(s: State, p: Pid): Local {
    if p in s.procs then s.procs[p] else Idle
  }

  function At(s: State, p: Pid, l: Local): State {
    s.(procs := s.procs[p := l])
  }

  // _retryable: a candidate left as NEW by a crash, old enough to be tried again.
  predicate Retryable(row: SignalRow, now: int, staleSeconds: nat) {
    !row.executed && row.status == New && now - row.createdAt > staleSeconds
  }

  // _sync_signal: the persisted signal follows the execution outcome.
  function Synced(signals: map<string, SignalRow>, i: Intent, status: Status, now: int): map<string, SignalRow> {
    var row := if i.signalId in signals then signals[i.signalId] else SignalRow(New, false, now);
    signals[i.signalId := row.(executed := row.executed || Accepted(status), status := status)]
  }

  function Marked(signals: map<string, SignalRow>, id: string, status: Status): map<string, SignalRow> {
    if id in signals then signals[id := signals[id].(status := status)] else signals
  }

  // _persist_rejection; the unique trade_id makes a second insert raise, which ends the call.
  function PersistRejection(s: State, p: Pid, i: Intent): State {
    if i.tradeId in s.trades then At(s, p, Idle)
    else At(s.(trades := s.trades[i.tradeId := Rejected], signals := Synced(s.signals, i, Rejected, s.clock)), p,
      Returned(i, Rejected))
  }

  // The UPDATE ... WHERE consumed = false, with its rowcount.
  function Spend(s: State, p: Pid, i: Intent, reply: Reply): State {
    if reply == Unreadable || s.auth != Row(false) then At(s, p, Refusing(i))
    else
      var won := s.(auth := Row(true), log := s.log + [Won(p, i.key)]);
      if reply == Clean then At(won, p, Cleared(i, Some(|s.log|))) else At(won, p, Refusing(i))
  }

  function Reservation(s: State, p: Pid, i: Intent, grant: Option<nat>): State {
    if i.key in s.guards then At(s, p, Returned(i, Duplicate))
    else At(s.(guards := s.guards[i.key := GuardRow(i.signalId, Pending, s.clock, None)],
      log := s.log + [Guarded(p, i.key)]), p, Holding(i, grant))
  }

  // The request leaves for the broker, whatever comes back.
  function Dispatched(s: State, p: Pid, i: Intent, grant: Option<nat>, answer: Answer): State {
    At(s.(log := s.log + [Sent(p, i, p in s.config.live, grant)]), p, Answered(i, answer))
  }

  // _finish: one commit for the guard, the trade and the signal, or an IntegrityError and none of them.
  function Finished(s: State, p: Pid, i: Intent, answer: Answer): State {
    if i.tradeId in s.trades || i.key !in s.guards then At(s, p, Idle)
    else At(s.(guards := s.guards[i.key := s.guards[i.key].(status := Outcome(answer))],
               trades := s.trades[i.tradeId := Outcome(answer)],
               signals := Synced(s.signals, i, Outcome(answer), s.clock)), p, Returned(i, Outcome(answer)))
  }

  // One guard of _retire_stale_guards, as read; the write happens in a later commit.
  function Inspected(s: State, p: Pid, key: string, found: bool): State {
    if key !in s.guards then s
    else
      var g := s.guards[key];
      if g.status != Pending || g.createdAt > s.clock - s.config.staleSeconds then s
      else if g.signalId in s.trades && Accepted(s.trades[g.signalId]) then
        At(s, p, Settling(key, s.trades[g.signalId]))
      else if found then s
      else At(s, p, Settling(key, Retired))
  }

  function Settled(s: State, p: Pid, key: string, verdict: Status): State {
    if key !in s.guards then At(s, p, Idle)
    else
      var g := s.guards[key];
      var signals := if verdict == Retired && g.signalId in s.signals && s.signals[g.signalId].status == New
                     then Marked(s.signals, g.signalId, Abandoned) else s.signals;
      At(s.(guards := s.guards[key := g.(status := verdict)], signals := signals), p, Idle)
  }

  function Rewritten(s: State, tradeId: string, closed: bool): State {
    if tradeId in s.trades && Matchable(s.trades[tradeId])
    then s.(trades := s.trades[tradeId := if closed then Closed else PartiallyClosed]) else s
  }

  // One atomic step; an action whose process is not at the right point does nothing.
  function Step(s: State, a: Action): State {
    match a
    case Elapse(seconds) => s.(clock := s.clock + seconds)
    case Crash(p) => At(s.(leaders := s.leaders - {p}), p, Idle)
    case Look(p, id) =>
      if Loc(s, p) != Idle || (id in s.signals && !Retryable(s.signals[id], s.clock, s.config.staleSeconds)) then s
      else At(s, p, Looked(Intent(id, id, id), id in s.signals))
    case Persist(p, candle) => (match Loc(s, p)
      case Looked(i, recorded) =>
        if recorded then At(s, p, Candidate(i))
        else if i.signalId in s.signals then At(s, p, Idle)
        else At(s.(signals := s.signals[i.signalId := SignalRow(New, false, candle)]), p, Candidate(i))
      case _ => s)
    case Gate(p, judgement) => (match Loc(s, p)
      case Candidate(i) =>
        if judgement == Approved && i.tradeId !in s.trades && i.key !in s.guards then At(s, p, Submitting(i))
        else
          var verdict := if judgement == NoBracket then Rejected else RiskRejected;
          At(s.(signals := Marked(s.signals, i.signalId, verdict)), p, Idle)
      case _ => s)
    case Call(p, i) => if Loc(s, p) == Idle then At(s, p, Submitting(i)) else s
    case CheckTrade(p) => (match Loc(s, p)
      case Submitting(i) => At(s, p, if i.tradeId in s.trades then Returned(i, Duplicate) else TradeClear(i))
      case _ => s)
    case CheckGuard(p) => (match Loc(s, p)
      case TradeClear(i) => At(s, p, if i.key in s.guards then Returned(i, Duplicate) else GuardClear(i))
      case _ => s)
    case Preflight(p, ok) => (match Loc(s, p)
      case GuardClear(i) =>
        if !ok then PersistRejection(s, p, i)
        else At(s, p, if p in s.config.live then Spending(i) else Cleared(i, None))
      case _ => s)
    case Materialise(p) => (match Loc(s, p)
      case Spending(i) => At(s.(auth := if s.auth == Missing then Row(false) else s.auth), p, Racing(i))
      case _ => s)
    case Consume(p, reply) => (match Loc(s, p)
      case Racing(i) => Spend(s, p, i, reply)
      case _ => s)
    case Refuse(p) => (match Loc(s, p)
      case Refusing(i) => PersistRejection(s, p, i)
      case _ => s)
    case Reserve(p) => (match Loc(s, p)
      case Cleared(i, grant) => Reservation(s, p, i, grant)
      case _ => s)
    case Send(p, answer) => (match Loc(s, p)
      case Holding(i, grant) => Dispatched(s, p, i, grant, answer)
      case _ => s)
    case Finish(p) => (match Loc(s, p)
      case Answered(i, answer) => Finished(s, p, i, answer)
      case _ => s)
    case Complete(p) => (match Loc(s, p)
      case Returned(i, status) =>
        if i.signalId in s.signals && s.signals[i.signalId].status == New
        then At(s.(signals := Marked(s.signals, i.signalId, status)), p, Idle) else At(s, p, Idle)
      case _ => s)
    case Inspect(p, key, found) => if Loc(s, p) == Idle then Inspected(s, p, key, found) else s
    case Settle(p) => (match Loc(s, p)
      case Settling(key, verdict) => Settled(s, p, key, verdict)
      case _ => s)
    case Rewrite(p, tradeId, closed) => Rewritten(s, tradeId, closed)
    case RearmRead(p) =>
      if Loc(s, p) != Idle then s
      else At(s.(auth := if s.auth == Missing then Row(false) else s.auth), p, Rearming)
    case RearmWrite(p) =>
      if Loc(s, p) != Rearming then s
      else At(s.(auth := Row(false), log := s.log + [Rearmed(p)]), p, Idle)
    case AcquireRead(p) => if Loc(s, p) == Idle then At(s, p, Acquiring(s.lease, s.clock)) else s
    case AcquireWrite(p) => (match Loc(s, p)
      case Acquiring(seen, at) =>
        var (row, leads) := WriteSeen(s.lease, seen, p, at, s.config.ttl);
        At(s.(lease := row, leaders := if leads then s.leaders + {p} else s.leaders - {p}), p, Idle)
      case _ => s)
    case Release(p) =>
      At(s.(lease := Released(s.lease, p), leaders := s.leaders - {p}), p, Idle)
  }

  // A schedule is any list of actions, whatever the processes.
  function Run(s: State, schedule: seq<Action>): State
    decreases |schedule|
  {
    if schedule == [] then s else Run(Step(s, schedule[0]), schedule[1..])
  }

  // Any database in which nothing was sent yet; the authorization row may be absent, armed or spent.
  ghost predicate Init(s: State) {
    s.guards == map[] && s.trades == map[] && s.procs == map[] && s.log == [] && s.leaders == {}
  }

  // ------------------------------------------------------------------ what every step keeps

  ghost predicate SentKey(log: seq<Event>, key: string) {
    exists k :: 0 <= k < |log| && log[k].Sent? && log[k].intent.key == key
  }

  ghost predicate GuardedBy(log: seq<Event>, p: Pid, key: string, before: nat)
    requires before <= |log|
  {
    exists j :: 0 <= j < before && log[j] == Guarded(p, key)
  }

  predicate GrantOk(log: seq<Event>, live: set<Pid>, p: Pid, key: string, grant: Option<nat>, before: nat)
    requires before <= |log|
  {
    (p in live ==> grant.Some?) && (grant.Some? ==> grant.value < before && log[grant.value] == Won(p, key))
  }

  ghost predicate Holders(s: State) {
    && (forall p :: p in s.procs && s.procs[p].Cleared? ==>
          GrantOk(s.log, s.config.live, p, s.procs[p].intent.key, s.procs[p].grant, |s.log|))
    && (forall p :: p in s.procs && s.procs[p].Holding? ==>
          && s.procs[p].intent.key in s.guards
          && !SentKey(s.log, s.procs[p].intent.key)
          && GuardedBy(s.log, p, s.procs[p].intent.key, |s.log|)
          && GrantOk(s.log, s.config.live, p, s.procs[p].intent.key, s.procs[p].grant, |s.log|))
    && (forall p, q :: p in s.procs && q in s.procs && p != q && s.procs[p].Holding? && s.procs[q].Holding? ==>
          s.procs[p].intent.key != s.procs[q].intent.key)
  }

  ghost predicate History(s: State) {
    && (forall k :: 0 <= k < |s.log| && s.log[k].Sent? ==>
          && s.log[k].intent.key in s.guards
          && GuardedBy(s.log, s.log[k].who, s.log[k].intent.key, k)
          && s.log[k].live == (s.log[k].who in s.config.live)
          && GrantOk(s.log, s.config.live, s.log[k].who, s.log[k].intent.key, s.log[k].grant, k))
    && (forall k :: 0 <= k < |s.log| && s.log[k].Guarded? ==> s.log[k].key in s.guards)
    && (forall k, l :: 0 <= k < l < |s.log| && s.log[k].Sent? && s.log[l].Sent? ==>
          s.log[k].intent.key != s.log[l].intent.key)
    && (forall k, l :: 0 <= k < l < |s.log| && s.log[k].Guarded? && s.log[l].Guarded? ==>
          s.log[k].key != s.log[l].key)
  }

  function Wins(log: seq<Event>): set<nat> { set k: nat | k < |log| && log[k].Won? }
  function Rearms(log: seq<Event>): set<nat> { set k: nat | k < |log| && log[k].Rearmed? }
  function LiveSends(log: seq<Event>): set<nat> { set k: nat | k < |log| && log[k].Sent? && log[k].live }

  ghost predicate Credit(s: State) {
    |Wins(s.log)| + (if s.auth == Row(true) then 0 else 1) <= 1 + |Rearms(s.log)|
  }

  ghost predicate Inv(s: State) {
    Holders(s) && History(s) && Credit(s)
  }

  // The process may have been told it owns something: a reservation, or a won authorization.
  predicate Entitled(l: Local, live: bool) {
    l.Holding? || (l.Cleared? && (live || l.grant.Some?))
  }

  // A step that adds nothing to the history, removes no guard and entitles no process to anything new.
  ghost predicate Quiet(s: State, t: State) {
    && t.log == s.log && t.config == s.config && s.guards.Keys <= t.guards.Keys
    && (s.auth == Row(true) <==> t.auth == Row(true))
    && (forall q :: q in t.procs && Entitled(t.procs[q], q in t.config.live) ==>
      q in s.procs && s.procs[q] == t.procs[q])
  }

  lemma QuietKeeps(s: State, t: State)
    requires Inv(s) && Quiet(s, t)
    ensures Inv(t)
  {
    assert Holders(t);
    assert History(t);
  }

  lemma WinAppend(log: seq<Event>, e: Event)
    ensures |Wins(log + [e])| == |Wins(log)| + if e.Won? then 1 else 0
  {
    var longer, n := log + [e], |log|;
    assert longer[n] == e && forall k :: 0 <= k < n ==> longer[k] == log[k];
    assert Wins(longer) == if e.Won? then Wins(log) + {n} else Wins(log);
  }

  lemma RearmAppend(log: seq<Event>, e: Event)
    ensures |Rearms(log + [e])| == |Rearms(log)| + if e.Rearmed? then 1 else 0
  {
    var longer, n := log + [e], |log|;
    assert longer[n] == e && forall k :: 0 <= k < n ==> longer[k] == log[k];
    assert Rearms(longer) == if e.Rearmed? then Rearms(log) + {n} else Rearms(log);
  }

  lemma CreditAppend(s: State, t: State, e: Event)
    requires Credit(s) && t.log == s.log + [e]
    requires e.Won? ==> s.auth == Row(false) && t.auth == Row(true)
    requires e.Guarded? || e.Sent? ==> t.auth == s.auth
    ensures Credit(t)
  {
    WinAppend(s.log, e);
    RearmAppend(s.log, e);
  }

  lemma AppendKeeps(log: seq<Event>, e: Event)
    ensures forall key :: SentKey(log + [e], key) <==> SentKey(log, key) || (e.Sent? && e.intent.key == key)
    ensures forall p, key, n: nat :: n <= |log| && GuardedBy(log, p, key, n) ==>
      GuardedBy(log + [e], p, key, n) && GuardedBy(log + [e], p, key, |log| + 1)
    ensures forall live, p, key, g, n: nat :: n <= |log| && GrantOk(log, live, p, key, g, n) ==>
      GrantOk(log + [e], live, p, key, g, n) && GrantOk(log + [e], live, p, key, g, |log| + 1)
  {
    var longer := log + [e];
    forall key ensures SentKey(longer, key) <==> SentKey(log, key) || (e.Sent? && e.intent.key == key) {
      if SentKey(log, key) {
        var k :| 0 <= k < |log| && log[k].Sent? && log[k].intent.key == key;
        assert longer[k] == log[k];
      }
      if e.Sent? && e.intent.key == key { assert longer[|log|] == e; }
    }
    forall p, key, n: nat | n <= |log| && GuardedBy(log, p, key, n)
      ensures GuardedBy(longer, p, key, n) && GuardedBy(longer, p, key, |log| + 1)
    {
      var j :| 0 <= j < n && log[j] == Guarded(p, key);
      assert longer[j] == Guarded(p, key);
    }
  }

  // A step that appends one event which is neither a reservation nor a send.
  lemma EventStep(s: State, t: State, p: Pid, e: Event)
    requires Inv(s)
    requires e.Won? || e.Rearmed?
    requires t.log == s.log + [e] && t.config == s.config && t.guards == s.guards
    requires e.Won? ==> s.auth == Row(false) && t.auth == Row(true)
    requires p in t.procs && t.procs == s.procs[p := t.procs[p]] && !t.procs[p].Holding?
    requires t.procs[p].Cleared? ==> GrantOk(t.log, t.config.live, p, t.procs[p].intent.key, t.procs[p].grant, |t.log|)
    ensures Inv(t)
  {
    CreditAppend(s, t, e);
    AppendKeeps(s.log, e);
    assert Holders(t);
    assert History(t);
  }

  lemma ReserveStep(s: State, p: Pid, i: Intent, grant: Option<nat>)
    requires Inv(s) && Loc(s, p) == Cleared(i, grant)
    ensures Inv(Reservation(s, p, i, grant))
  {
    var t := Reservation(s, p, i, grant);
    if i.key in s.guards {
      QuietKeeps(s, t);
    } else {
      CreditAppend(s, t, Guarded(p, i.key));
      ReserveHistory(s, t, p, i.key);
      ReserveHolders(s, t, p, i.key);
    }
  }

  lemma ReserveHistory(s: State, t: State, p: Pid, key: string)
    requires Inv(s) && key !in s.guards
    requires t.log == s.log + [Guarded(p, key)] && t.config == s.config
    requires t.guards.Keys == s.guards.Keys + {key}
    ensures History(t)
  {
    AppendKeeps(s.log, t.log[|s.log|]);
    assert forall k :: 0 <= k < |s.log| ==> t.log[k] == s.log[k];
  }

  lemma ReserveHolders(s: State, t: State, p: Pid, key: string)
    requires Inv(s) && key !in s.guards
    requires t.log == s.log + [Guarded(p, key)] && t.config == s.config
    requires t.guards.Keys == s.guards.Keys + {key}
    requires p in s.procs && s.procs[p].Cleared? && s.procs[p].intent.key == key
    requires t.procs == s.procs[p := Holding(s.procs[p].intent, s.procs[p].grant)]
    ensures Holders(t)
  {
    AppendKeeps(s.log, t.log[|s.log|]);
    assert t.log[|s.log|] == Guarded(p, key);
    assert !SentKey(s.log, key);
  }

  lemma SendStep(s: State, p: Pid, i: Intent, grant: Option<nat>, answer: Answer)
    requires Inv(s) && Loc(s, p) == Holding(i, grant)
    ensures Inv(Dispatched(s, p, i, grant, answer))
  {
    var t := Dispatched(s, p, i, grant, answer);
    CreditAppend(s, t, Sent(p, i, p in s.config.live, grant));
    SendHistory(s, t, p);
    SendHolders(s, t, p);
  }

  lemma SendHolders(s: State, t: State, p: Pid)
    requires Inv(s) && Loc(s, p).Holding?
    requires t.log == s.log + [Sent(p, s.procs[p].intent, p in s.config.live, s.procs[p].grant)]
    requires t.guards == s.guards && t.config == s.config
    requires p in t.procs && t.procs[p].Answered? && t.procs == s.procs[p := t.procs[p]]
    ensures Holders(t)
  {
    AppendKeeps(s.log, t.log[|s.log|]);
    forall q | q in t.procs && t.procs[q].Holding?
      ensures !SentKey(t.log, t.procs[q].intent.key)
    {
      assert s.procs[q].intent.key != s.procs[p].intent.key;
    }
  }

  lemma SendHistory(s: State, t: State, p: Pid)
    requires Inv(s) && Loc(s, p).Holding?
    requires t.log == s.log + [Sent(p, s.procs[p].intent, p in s.config.live, s.procs[p].grant)]
    requires t.guards == s.guards && t.config == s.config
    ensures History(t)
  {
    var n, i := |s.log|, s.procs[p].intent;
    assert forall k :: 0 <= k < n ==> t.log[k] == s.log[k];
    forall k | 0 <= k < |t.log| && t.log[k].Sent?
      ensures GuardedBy(t.log, t.log[k].who, t.log[k].intent.key, k)
      ensures k < n ==> t.log[k].intent.key != i.key
    {
      assert GuardedBy(s.log, t.log[k].who, t.log[k].intent.key, k);
      var j :| 0 <= j < k && s.log[j] == Guarded(t.log[k].who, t.log[k].intent.key);
      assert t.log[j] == s.log[j];
      if k < n { assert SentKey(s.log, s.log[k].intent.key); }
    }
  }

  lemma CandidateStep(s: State, a: Action)
    requires a.Elapse? || a.Look? || a.Persist?
    ensures Quiet(s, Step(s, a))
  {
  }

  lemma EntryStep(s: State, a: Action)
    requires a.Gate? || a.Call?
    ensures Quiet(s, Step(s, a))
  {
  }

  lemma CheckStep(s: State, a: Action)
    requires a.CheckTrade? || a.CheckGuard? || a.Preflight? || a.Materialise?
    ensures Quiet(s, Step(s, a))
  {
  }

  lemma EndStep(s: State, a: Action)
    requires a.Crash? || a.Refuse? || a.Finish? || a.Complete?
    ensures Quiet(s, Step(s, a))
  {
  }

  lemma ReconcileStep(s: State, a: Action)
    requires a.Inspect? || a.Settle? || a.Rewrite?
    ensures Quiet(s, Step(s, a))
  {
  }

  lemma LeaseStep(s: State, a: Action)
    requires a.RearmRead? || a.AcquireRead? || a.AcquireWrite? || a.Release?
    ensures Quiet(s, Step(s, a))
  {
  }

  lemma ConsumeStep(s: State, p: Pid, reply: Reply)
    requires Inv(s) && Loc(s, p).Racing?
    ensures Inv(Step(s, Consume(p, reply)))
  {
    var i, t := s.procs[p].intent, Step(s, Consume(p, reply));
    if reply == Unreadable || s.auth != Row(false) {
      QuietKeeps(s, t);
    } else {
      EventStep(s, t, p, Won(p, i.key));
    }
  }

  // Every step is quiet or one of the four that write the history.
  lemma Classify(s: State, a: Action)
    ensures Quiet(s, Step(s, a))
         || (a.Consume? && Loc(s, a.p).Racing?) || (a.RearmWrite? && Loc(s, a.p) == Rearming)
         || (a.Reserve? && Loc(s, a.p).Cleared?) || (a.Send? && Loc(s, a.p).Holding?)
  {
    if a.Elapse? || a.Look? || a.Persist? { CandidateStep(s, a); }
    else if a.Gate? || a.Call? { EntryStep(s, a); }
    else if a.CheckTrade? || a.CheckGuard? || a.Preflight? || a.Materialise? { CheckStep(s, a); }
    else if a.Crash? || a.Refuse? || a.Finish? || a.Complete? { EndStep(s, a); }
    else if a.Inspect? || a.Settle? || a.Rewrite? { ReconcileStep(s, a); }
    else if a.RearmRead? || a.AcquireRead? || a.AcquireWrite? || a.Release? { LeaseStep(s, a); }
  }

  lemma InvStep(s: State, a: Action)
    requires Inv(s)
    ensures Inv(Step(s, a))
  {
    Classify(s, a);
    if Quiet(s, Step(s, a)) { QuietKeeps(s, Step(s, a)); }
    else if a.Consume? { ConsumeStep(s, a.p, a.reply); }
    else if a.RearmWrite? { EventStep(s, Step(s, a), a.p, Rearmed(a.p)); }
    else if a.Reserve? { ReserveStep(s, a.p, s.procs[a.p].intent, s.procs[a.p].grant); }
    else { SendStep(s, a.p, s.procs[a.p].intent, s.procs[a.p].grant, a.answer); }
  }

  lemma {:induction false} InvRun(s: State, schedule: seq<Action>)
    requires Inv(s)
    ensures Inv(Run(s, schedule))
    decreases schedule
  {
    if schedule != [] {
      InvStep(s, schedule[0]);
      InvRun(Step(s, schedule[0]), schedule[1..]);
    }
  }

  lemma InitInv(s: State)
    requires Init(s)
    ensures Inv(s)
  {
    assert Wins(s.log) == {} && Rearms(s.log) == {};
  }

  // ------------------------------------------------------------------ main results

  // Whatever the interleaving, the crashes and the retries, no key reaches the broker twice.
  lemma AtMostOneSendPerKey(s: State, schedule: seq<Action>)
    requires Init(s)
    ensures var log := Run(s, schedule).log;
      forall k, l :: 0 <= k < l < |log| && log[k].Sent? && log[l].Sent? ==> log[k].intent.key != log[l].intent.key
  {
    InitInv(s);
    InvRun(s, schedule);
  }

  lemma {:induction false} RunConcat(s: State, first: seq<Action>, rest: seq<Action>)
    ensures Run(s, first + rest) == Run(Run(s, first), rest)
    decreases |first|
  {
    if first == [] {
      assert first + rest == rest;
    } else {
      assert (first + rest)[1..] == first[1..] + rest;
      RunConcat(Step(s, first[0]), first[1..], rest);
    }
  }

  lemma StepGrows(s: State, a: Action)
    ensures s.guards.Keys <= Step(s, a).guards.Keys && s.log <= Step(s, a).log && Step(s, a).config == s.config
  {
    Classify(s, a);
  }

  // A guard row, once inserted, is never removed, and what happened stays in the history.
  lemma {:induction false} GuardsAreNeverRemoved(s: State, schedule: seq<Action>)
    ensures s.guards.Keys <= Run(s, schedule).guards.Keys
    ensures s.log <= Run(s, schedule).log && Run(s, schedule).config == s.config
    decreases |schedule|
  {
    if schedule != [] {
      StepGrows(s, schedule[0]);
      GuardsAreNeverRemoved(Step(s, schedule[0]), schedule[1..]);
    }
  }

  // Every send comes after the one insertion of its key's guard, by the process that sends.
  lemma GuardBeforeSend(s: State, schedule: seq<Action>, k: nat)
    requires Init(s)
    requires k < |Run(s, schedule).log| && Run(s, schedule).log[k].Sent?
    ensures var t := Run(s, schedule); var e := t.log[k];
      && e.intent.key in t.guards
      && (exists j :: 0 <= j < k && t.log[j] == Guarded(e.who, e.intent.key))
      && (forall i, j :: 0 <= i < j < |t.log| && t.log[i].Guarded? && t.log[j].Guarded? ==>
        t.log[i].key != t.log[j].key)
  {
    InitInv(s);
    InvRun(s, schedule);
    var t := Run(s, schedule);
    assert GuardedBy(t.log, t.log[k].who, t.log[k].intent.key, k);
  }

  // Each send of a live-permitted process owns a consume it won itself, earlier, for this key; no
  // two sends own the same one.
  lemma LiveSendOwnsItsGrant(s: State, schedule: seq<Action>)
    requires Init(s)
    ensures var log := Run(s, schedule).log;
      && (forall k :: 0 <= k < |log| && log[k].Sent? ==> log[k].live == (log[k].who in s.config.live))
      && (forall k :: 0 <= k < |log| && log[k].Sent? && log[k].live ==>
            log[k].grant.Some? && log[k].grant.value < k
              && log[log[k].grant.value] == Won(log[k].who, log[k].intent.key))
      && (forall k, l :: 0 <= k < l < |log| && log[k].Sent? && log[l].Sent? && log[k].live && log[l].live ==>
            log[k].grant != log[l].grant)
  {
    InitInv(s);
    InvRun(s, schedule);
    GuardsAreNeverRemoved(s, schedule);
  }

  lemma {:induction false} InjectionBound(a: set<nat>, b: set<nat>, f: nat --> nat)
    requires forall x :: x in a ==> f.requires(x) && f(x) in b
    requires forall x, y :: x in a && y in a && x != y ==> f(x) != f(y)
    ensures |a| <= |b|
    decreases a
  {
    if a != {} {
      var x :| x in a;
      InjectionBound(a - {x}, b - {f(x)}, f);
      assert |a - {x}| == |a| - 1;
      assert |b - {f(x)}| == |b| - 1;
    }
  }

  // The owner's bound: live sends never outnumber one plus the manual re-authorizations.
  lemma LiveSendsAreAuthorized(s: State, schedule: seq<Action>)
    requires Init(s)
    ensures var log := Run(s, schedule).log; |LiveSends(log)| <= |Wins(log)| <= 1 + |Rearms(log)|
  {
    InitInv(s);
    InvRun(s, schedule);
    LiveSendOwnsItsGrant(s, schedule);
    var log := Run(s, schedule).log;
    var grantOf := (k: nat) requires k in LiveSends(log) && log[k].grant.Some? => log[k].grant.value;
    InjectionBound(LiveSends(log), Wins(log), grantOf);
  }

  // ------------------------------------------------------------------ nothing is invented

  ghost predicate SentTrade(log: seq<Event>, tradeId: string) {
    exists k :: 0 <= k < |log| && log[k].Sent? && log[k].intent.tradeId == tradeId
  }

  // A row that says the broker was reached, or a process that holds an answer, is backed by a send.
  ghost predicate Backed(s: State) {
    && (forall id :: id in s.trades && Matchable(s.trades[id]) ==> SentTrade(s.log, id))
    && (forall p :: p in s.procs && s.procs[p].Answered? ==> SentTrade(s.log, s.procs[p].intent.tradeId))
  }

  lemma SentTradeGrows(log: seq<Event>, longer: seq<Event>)
    requires log <= longer
    ensures forall id :: SentTrade(log, id) ==> SentTrade(longer, id)
  {
    forall id | SentTrade(log, id) ensures SentTrade(longer, id) {
      var k :| 0 <= k < |log| && log[k].Sent? && log[k].intent.tradeId == id;
      assert longer[k] == log[k];
    }
  }

  // No row comes to claim contact with the broker but at Finish, and no answer appears but at Send.
  ghost predicate Modest(s: State, a: Action, t: State) {
    && (forall id :: id in t.trades && Matchable(t.trades[id]) ==>
          (id in s.trades && Matchable(s.trades[id]))
            || (a.Finish? && Loc(s, a.p).Answered? && s.procs[a.p].intent.tradeId == id))
    && (forall p :: p in t.procs && t.procs[p].Answered? ==> p in s.procs && s.procs[p] == t.procs[p])
  }

  lemma ModestCandidate(s: State, a: Action)
    requires a.Elapse? || a.Crash? || a.Look? || a.Persist?
    ensures Modest(s, a, Step(s, a))
  {
  }

  lemma ModestEntry(s: State, a: Action)
    requires a.Gate? || a.Call? || a.Complete?
    ensures Modest(s, a, Step(s, a))
  {
  }

  lemma ModestSubmit(s: State, a: Action)
    requires a.CheckTrade? || a.CheckGuard? || a.Materialise? || a.Reserve?
    ensures Modest(s, a, Step(s, a))
  {
  }

  lemma ModestRejection(s: State, a: Action)
    requires a.Preflight? || a.Refuse?
    ensures Modest(s, a, Step(s, a))
  {
  }

  lemma ModestOutcome(s: State, a: Action)
    requires a.Finish? || a.Rewrite?
    ensures Modest(s, a, Step(s, a))
  {
  }

  lemma ModestAuthorization(s: State, a: Action)
    requires a.Consume?
    ensures Modest(s, a, Step(s, a))
  {
  }

  lemma ModestRearm(s: State, a: Action)
    requires a.RearmRead? || a.RearmWrite?
    ensures Modest(s, a, Step(s, a))
  {
  }

  lemma ModestRetirement(s: State, a: Action)
    requires a.Inspect? || a.Settle?
    ensures Modest(s, a, Step(s, a))
  {
  }

  lemma ModestLease(s: State, a: Action)
    requires a.AcquireRead? || a.AcquireWrite? || a.Release?
    ensures Modest(s, a, Step(s, a))
  {
  }

  lemma ModestUpkeep(s: State, a: Action)
    requires a.Inspect? || a.Settle? || a.AcquireRead? || a.AcquireWrite? || a.Release?
    ensures Modest(s, a, Step(s, a))
  {
    if a.Inspect? || a.Settle? { ModestRetirement(s, a); } else { ModestLease(s, a); }
  }

  lemma ModestStep(s: State, a: Action)
    requires !a.Send?
    ensures Modest(s, a, Step(s, a))
  {
    if a.Elapse? || a.Crash? || a.Look? || a.Persist? { ModestCandidate(s, a); }
    else if a.Gate? || a.Call? || a.Complete? { ModestEntry(s, a); }
    else if a.CheckTrade? || a.CheckGuard? || a.Materialise? || a.Reserve? { ModestSubmit(s, a); }
    else if a.Preflight? || a.Refuse? { ModestRejection(s, a); }
    else if a.Finish? || a.Rewrite? { ModestOutcome(s, a); }
    else if a.Consume? { ModestAuthorization(s, a); }
    else if a.RearmRead? || a.RearmWrite? { ModestRearm(s, a); }
    else { ModestUpkeep(s, a); }
  }

  lemma BackedStep(s: State, a: Action)
    requires Backed(s)
    ensures Backed(Step(s, a))
  {
    var t := Step(s, a);
    StepGrows(s, a);
    SentTradeGrows(s.log, t.log);
    if !a.Send? {
      ModestStep(s, a);
    } else if Loc(s, a.p).Holding? {
      assert t.log[|s.log|].Sent? && t.log[|s.log|].intent == s.procs[a.p].intent;
      assert t.trades == s.trades && t.procs == s.procs[a.p := t.procs[a.p]];
    }
  }

  lemma {:induction false} BackedRun(s: State, schedule: seq<Action>)
    requires Backed(s)
    ensures Backed(Run(s, schedule))
    decreases |schedule|
  {
    if schedule != [] {
      BackedStep(s, schedule[0]);
      BackedRun(Step(s, schedule[0]), schedule[1..]);
    }
  }

  // A trade row never claims an execution, a pending order, an unknown outcome or a close for an
  // order that did not leave.
  lemma NoTradeIsInvented(s: State, schedule: seq<Action>, id: string)
    requires Init(s)
    requires id in Run(s, schedule).trades && Matchable(Run(s, schedule).trades[id])
    ensures exists k ::
      0 <= k < |Run(s, schedule).log| && Run(s, schedule).log[k].Sent? && Run(s, schedule).log[k].intent.tradeId == id
  {
    BackedRun(s, schedule);
    assert SentTrade(Run(s, schedule).log, id);
  }

  // ------------------------------------------------------------------ when is a guarded key dead?

  ghost predicate Held(s: State, key: string) {
    exists p :: p in s.procs && s.procs[p].Holding? && s.procs[p].intent.key == key
  }

  lemma DeadStep(s: State, a: Action, key: string)
    requires key in s.guards && !Held(s, key)
    ensures key in Step(s, a).guards && !Held(Step(s, a), key)
    ensures forall k :: |s.log| <= k < |Step(s, a).log| && Step(s, a).log[k].Sent? ==>
      Step(s, a).log[k].intent.key != key
  {
    var t := Step(s, a);
    Classify(s, a);
    if Quiet(s, t) { DeadQuiet(s, t, key); }
    else if a.Consume? { DeadConsume(s, a.p, a.reply, key); }
    else if a.RearmWrite? { DeadEvent(s, t, a.p, key); }
    else if a.Reserve? { DeadReserve(s, a.p, key); }
    else { DeadSend(s, a.p, a.answer, key); }
  }

  lemma DeadConsume(s: State, p: Pid, reply: Reply, key: string)
    requires key in s.guards && !Held(s, key) && Loc(s, p).Racing?
    ensures var t := Spend(s, p, Loc(s, p).intent, reply); key in t.guards && !Held(t, key)
    ensures forall k :: |s.log| <= k < |Spend(s, p, Loc(s, p).intent, reply).log| ==>
      !Spend(s, p, Loc(s, p).intent, reply).log[k].Sent?
  {
    DeadEvent(s, Spend(s, p, Loc(s, p).intent, reply), p, key);
  }

  lemma DeadReserve(s: State, p: Pid, key: string)
    requires key in s.guards && !Held(s, key) && Loc(s, p).Cleared?
    ensures var t := Reservation(s, p, Loc(s, p).intent, Loc(s, p).grant); key in t.guards && !Held(t, key)
    ensures forall k :: |s.log| <= k < |Reservation(s, p, Loc(s, p).intent, Loc(s, p).grant).log| ==>
      !Reservation(s, p, Loc(s, p).intent, Loc(s, p).grant).log[k].Sent?
  {
    DeadEvent(s, Reservation(s, p, Loc(s, p).intent, Loc(s, p).grant), p, key);
  }

  lemma DeadSend(s: State, p: Pid, answer: Answer, key: string)
    requires key in s.guards && !Held(s, key) && Loc(s, p).Holding?
    ensures var t := Dispatched(s, p, Loc(s, p).intent, Loc(s, p).grant, answer);
      key in t.guards && !Held(t, key) && Loc(s, p).intent.key != key
  {
    DeadEvent(s, Dispatched(s, p, Loc(s, p).intent, Loc(s, p).grant, answer), p, key);
  }

  lemma DeadQuiet(s: State, t: State, key: string)
    requires key in s.guards && !Held(s, key) && Quiet(s, t)
    ensures key in t.guards && !Held(t, key) && t.log == s.log
  {
  }

  // One event more, by a process that does not come to hold the key.
  lemma DeadEvent(s: State, t: State, p: Pid, key: string)
    requires key in s.guards && !Held(s, key) && key in t.guards
    requires p in t.procs && t.procs == s.procs[p := t.procs[p]]
      && (t.procs[p].Holding? ==> t.procs[p].intent.key != key)
    ensures !Held(t, key)
  {
  }

  ghost predicate Sends(s: State, schedule: seq<Action>, key: string) {
    SentSince(Run(s, schedule).log, |s.log|, key)
  }

  ghost predicate SentSince(log: seq<Event>, start: nat, key: string) {
    exists k :: start <= k < |log| && log[k].Sent? && log[k].intent.key == key
  }

  lemma {:induction false} DeadRun(s: State, schedule: seq<Action>, key: string)
    requires key in s.guards && !Held(s, key)
    ensures !Sends(s, schedule, key)
    decreases |schedule|
  {
    if schedule != [] {
      var t := Step(s, schedule[0]);
      DeadStep(s, schedule[0], key);
      DeadRun(t, schedule[1..], key);
      GuardsAreNeverRemoved(t, schedule[1..]);
      var log := Run(t, schedule[1..]).log;
      assert forall k :: |s.log| <= k < |t.log| ==> log[k] == t.log[k];
    }
  }

  // A guarded key can still be sent exactly while some process is between its reservation and its
  // send - whatever the guard's status says.
  lemma GuardedKeySendsIffHeld(s: State, key: string)
    requires key in s.guards
    ensures (exists schedule :: Sends(s, schedule, key)) <==> Held(s, key)
  {
    if Held(s, key) {
      var p :| p in s.procs && s.procs[p].Holding? && s.procs[p].intent.key == key;
      var t := Step(s, Send(p, Done));
      assert Run(s, [Send(p, Done)]) == Run(t, []) == t;
      assert t.log[|s.log|].Sent?;
      assert Sends(s, [Send(p, Done)], key);
    } else {
      forall schedule ensures !Sends(s, schedule, key) { DeadRun(s, schedule, key); }
    }
  }

  // ------------------------------------------------------------------ what the other fences do not give

  ghost predicate Reachable(s: State, t: State) {
    exists schedule :: Run(s, schedule) == t
  }

  lemma Start(s: State)
    ensures Reachable(s, s)
  {
    assert Run(s, []) == s;
  }

  lemma Then(s: State, t: State, a: Action, next: State)
    requires Reachable(s, t) && Step(t, a) == next
    ensures Reachable(s, next)
  {
    var schedule :| Run(s, schedule) == t;
    RunConcat(s, schedule, [a]);
    assert [a][1..] == [];
    assert Run(t, [a]) == Run(next, []);
    assert Run(s, schedule + [a]) == next;
  }

  const DEMO :=
      State(Config({}, 900, 300), map[], map[], map[], Row(false), Some(LeaseRow(0, 0, 0)), {}, 1000, map[], [])

  lemma AtAgain(t: State, p: Pid, l: Local, m: Local)
    ensures At(At(t, p, l), p, m) == At(t, p, m)
  {
    assert t.procs[p := l][p := m] == t.procs[p := m];
  }

  lemma UncontestedChecks(t: State, p: Pid, i: Intent)
    requires p !in t.procs && i.tradeId !in t.trades && i.key !in t.guards
    ensures Step(t, Call(p, i)) == At(t, p, Submitting(i))
    ensures Step(At(t, p, Submitting(i)), CheckTrade(p)) == At(t, p, TradeClear(i))
  {
    AtAgain(t, p, Submitting(i), TradeClear(i));
  }

  lemma UncontestedSteps(t: State, p: Pid, i: Intent)
    requires p !in t.procs && p !in t.config.live && i.tradeId !in t.trades && i.key !in t.guards
    ensures Step(At(t, p, TradeClear(i)), CheckGuard(p)) == At(t, p, GuardClear(i))
    ensures Step(At(t, p, GuardClear(i)), Preflight(p, true)) == At(t, p, Cleared(i, None))
  {
    AtAgain(t, p, TradeClear(i), GuardClear(i));
    AtAgain(t, p, GuardClear(i), Cleared(i, None));
  }

  // An idle process of a deployment that is not live reaches the reservation.
  lemma ReachReservation(s: State, t: State, p: Pid, i: Intent)
    requires Reachable(s, t)
    requires p !in t.procs && p !in t.config.live && i.tradeId !in t.trades && i.key !in t.guards
    ensures Reachable(s, At(t, p, Cleared(i, None)))
  {
    UncontestedChecks(t, p, i);
    UncontestedSteps(t, p, i);
    Then(s, t, Call(p, i), At(t, p, Submitting(i)));
    Then(s, At(t, p, Submitting(i)), CheckTrade(p), At(t, p, TradeClear(i)));
    Then(s, At(t, p, TradeClear(i)), CheckGuard(p), At(t, p, GuardClear(i)));
    Then(s, At(t, p, GuardClear(i)), Preflight(p, true), At(t, p, Cleared(i, None)));
  }

  lemma ReachHolding(s: State, t: State, p: Pid, i: Intent)
    requires Reachable(s, t) && p in t.procs && t.procs[p] == Cleared(i, None) && i.key !in t.guards
    ensures Reachable(s, Reservation(t, p, i, None)) && Loc(Reservation(t, p, i, None), p) == Holding(i, None)
  {
    Then(s, t, Reserve(p), Reservation(t, p, i, None));
  }

  lemma ReachSent(s: State, t: State, p: Pid, i: Intent)
    requires Reachable(s, t) && p in t.procs && t.procs[p] == Holding(i, None)
    ensures Reachable(s, Dispatched(t, p, i, None, Done))
  {
    Then(s, t, Send(p, Done), Dispatched(t, p, i, None, Done));
  }

  lemma BothHold(first: Intent, second: Intent) returns (four: State)
    requires first.tradeId == second.tradeId && first.key != second.key
    ensures Reachable(DEMO, four) && four.config == DEMO.config && |four.log| == 2
    ensures 1 in four.procs && four.procs[1] == Holding(first, None) && 2 in four.procs
      && four.procs[2] == Holding(second, None)
  {
    Start(DEMO);
    ReachReservation(DEMO, DEMO, 1, first);
    var one := At(DEMO, 1, Cleared(first, None));
    ReachReservation(DEMO, one, 2, second);
    var two := At(one, 2, Cleared(second, None));
    ReachHolding(DEMO, two, 1, first);
    var three := Reservation(two, 1, first, None);
    ReachHolding(DEMO, three, 2, second);
    four := Reservation(three, 2, second, None);
  }

  lemma BothSend(four: State, first: Intent, second: Intent)
    requires Reachable(DEMO, four) && four.config == DEMO.config && |four.log| == 2
    requires 1 in four.procs && four.procs[1] == Holding(first, None) && 2 in four.procs
      && four.procs[2] == Holding(second, None)
    ensures exists t :: Reachable(DEMO, t) && |t.log| == 4 &&
              t.log[2] == Sent(1, first, false, None) && t.log[3] == Sent(2, second, false, None)
  {
    ReachSent(DEMO, four, 1, first);
    var five := Dispatched(four, 1, first, None, Done);
    ReachSent(DEMO, five, 2, second);
    var six := Dispatched(five, 2, second, None, Done);
    assert six.log == four.log + [Sent(1, first, false, None)] + [Sent(2, second, false, None)];
  }

  // The trade_id check alone is no fence: two callers with one trade_id and two keys both send.
  lemma TradeIdAloneIsNoFence(first: Intent, second: Intent)
    requires first.tradeId == second.tradeId && first.key != second.key
    ensures exists t :: Reachable(DEMO, t) && |t.log| == 4 &&
              t.log[2] == Sent(1, first, false, None) && t.log[3] == Sent(2, second, false, None)
  {
    var four := BothHold(first, second);
    BothSend(four, first, second);
  }

  lemma StaleGuardIsJudged(s: State, p: Pid, key: string)
    requires Loc(s, p) == Idle && key in s.guards && s.guards[key].status == Pending
    requires s.guards[key].createdAt <= s.clock - s.config.staleSeconds && s.guards[key].signalId !in s.trades
    ensures Step(s, Inspect(p, key, false)) == At(s, p, Settling(key, Retired))
  {
  }

  lemma VerdictIsWritten(s: State, p: Pid, key: string, verdict: Status)
    requires Loc(s, p) == Settling(key, verdict)
    ensures Step(s, Settle(p)) == Settled(s, p, key, verdict)
  {
  }

  lemma RetireSteps(late: State, i: Intent)
    requires late == Reservation(At(DEMO, 1, Cleared(i, None)), 1, i, None).(clock := 1901)
    ensures var read := At(late, 2, Settling(i.key, Retired));
            Step(late, Inspect(2, i.key, false)) == read && Step(read, Settle(2)) == Settled(read, 2, i.key, Retired)
  {
    assert late.guards[i.key] == GuardRow(i.signalId, Pending, 1000, None);
    StaleGuardIsJudged(late, 2, i.key);
    VerdictIsWritten(At(late, 2, Settling(i.key, Retired)), 2, i.key, Retired);
  }

  // A guard already RETIRED by reconciliation can still be followed by its one send, because the
  // process that reserved it was slow and not dead.
  lemma RetiredGuardMayStillSend(i: Intent)
    ensures exists t :: Reachable(DEMO, t) && i.key in t.guards && t.guards[i.key].status == Retired && Held(t, i.key)
  {
    Start(DEMO);
    ReachReservation(DEMO, DEMO, 1, i);
    ReachHolding(DEMO, At(DEMO, 1, Cleared(i, None)), 1, i);
    var held := Reservation(At(DEMO, 1, Cleared(i, None)), 1, i, None);
    var late := held.(clock := 1901);
    Then(DEMO, held, Elapse(901), late);
    RetiredByAnother(late, i);
  }

  // Another process retires the guard that process 1 holds.
  lemma RetiredByAnother(late: State, i: Intent)
    requires Reachable(DEMO, late) && late == Reservation(At(DEMO, 1, Cleared(i, None)), 1, i, None).(clock := 1901)
    ensures exists t :: Reachable(DEMO, t) && i.key in t.guards && t.guards[i.key].status == Retired && Held(t, i.key)
  {
    var read := At(late, 2, Settling(i.key, Retired));
    var done := Settled(read, 2, i.key, Retired);
    RetireSteps(late, i);
    Then(DEMO, late, Inspect(2, i.key, false), read);
    Then(DEMO, read, Settle(2), done);
    assert done.procs[1] == Holding(i, None);
  }

  lemma TakeoverSteps(both: State, first: State)
    requires both == At(At(DEMO, 1, Acquiring(DEMO.lease, 1000)), 2, Acquiring(DEMO.lease, 1000))
    requires first == At(both.(lease := Some(LeaseRow(1, 1000, 1000)), leaders := {1}), 1, Idle)
    ensures Step(both, AcquireWrite(1)) == first && Step(first, AcquireWrite(2)).leaders == {1, 2}
  {
  }

  // The lease is read and written in two commits, so two processes can both come to believe they lead.
  lemma SplitAcquireAdmitsTwoLeaders()
    ensures exists t :: Reachable(DEMO, t) && t.leaders == {1, 2}
  {
    var one := At(DEMO, 1, Acquiring(DEMO.lease, 1000));
    var both := At(one, 2, Acquiring(DEMO.lease, 1000));
    var first := At(both.(lease := Some(LeaseRow(1, 1000, 1000)), leaders := {1}), 1, Idle);
    TakeoverSteps(both, first);
    Start(DEMO);
    Then(DEMO, DEMO, AcquireRead(1), one);
    Then(DEMO, one, AcquireRead(2), both);
    Then(DEMO, both, AcquireWrite(1), first);
    Then(DEMO, first, AcquireWrite(2), Step(first, AcquireWrite(2)));
  }

  // ------------------------------------------------------------------ which signals come back

  // A free process takes a signal up exactly when it is not recorded, or is still NEW and not executed and
  // was recorded longer ago than the staleness limit.
  lemma TakenUpIff(s: State, p: Pid, id: string)
    requires Loc(s, p) == Idle
    ensures Loc(Step(s, Look(p, id)), p) == Looked(Intent(id, id, id), id in s.signals) <==>
      id !in s.signals
        || (!s.signals[id].executed && s.signals[id].status == New
          && s.signals[id].createdAt < s.clock - s.config.staleSeconds)
  {
  }

  // Recording a signal: a new row, NEW and dated by its candle; a recorded one is only taken up; and a row
  // that appeared since the look ends the turn.
  lemma RecordedAs(s: State, p: Pid, i: Intent, recorded: bool, candle: int)
    requires Loc(s, p) == Looked(i, recorded)
    ensures var t := Step(s, Persist(p, candle));
      && (Loc(t, p) == Candidate(i) <==> recorded || i.signalId !in s.signals)
      && (if recorded || i.signalId in s.signals then t.signals == s.signals
          else t.signals == s.signals[i.signalId := SignalRow(New, false, candle)])
      && t.trades == s.trades && t.guards == s.guards && t.log == s.log
  {
  }

  // A candidate goes to the execution service exactly when the gate approved it and neither a trade nor a
  // guard of it exists; otherwise its signal says why, and nothing else is written.
  lemma JudgedAs(s: State, p: Pid, i: Intent, judgement: Judgement)
    requires Loc(s, p) == Candidate(i)
    ensures var t := Step(s, Gate(p, judgement));
      && (Loc(t, p) == Submitting(i) <==>
        judgement.Approved? && i.tradeId !in s.trades && i.key !in s.guards)
      && (Loc(t, p) != Submitting(i) && i.signalId in s.signals ==>
        t.signals[i.signalId]
          == s.signals[i.signalId].(status := if judgement.NoBracket? then Rejected else RiskRejected))
      && t.signals - {i.signalId} == s.signals - {i.signalId}
      && t.trades == s.trades && t.guards == s.guards && t.log == s.log
  {
  }

  // After the call a signal that is still NEW takes the result's status, a duplicate's too, and every
  // other signal stays.
  lemma CompletedAs(s: State, p: Pid, i: Intent, status: Status)
    requires Loc(s, p) == Returned(i, status)
    ensures var t := Step(s, Complete(p));
      && Loc(t, p) == Idle && t.trades == s.trades && t.guards == s.guards && t.log == s.log
      && t.signals - {i.signalId} == s.signals - {i.signalId}
      && (i.signalId in s.signals ==>
        t.signals[i.signalId] == s.signals[i.signalId].(
          status := if s.signals[i.signalId].status == New then status else s.signals[i.signalId].status))
  {
  }

  // A free process settles a guard exactly when it is PENDING, old enough, and confirmed by an accepted
  // trade or without a broker record: with the trade's status, or as RETIRED.
  lemma SettledIff(s: State, p: Pid, key: string, found: bool)
    requires Loc(s, p) == Idle && key in s.guards
    ensures var t, g := Step(s, Inspect(p, key, found)), s.guards[key];
      var accepted := g.signalId in s.trades && s.trades[g.signalId] in {Executed, Submitted};
      && (t != s <==>
        g.status == Pending && g.createdAt <= s.clock - s.config.staleSeconds && (accepted || !found))
      && (t != s ==> t == At(s, p, Settling(key, if accepted then s.trades[g.signalId] else Retired)))
  {
    assert Settling(key, Retired) != Idle;
  }

  // A run of the reconciler moves a trade that may have reached the broker to CLOSED or PARTIALLY_CLOSED,
  // and no other.
  lemma RewrittenAs(s: State, p: Pid, tradeId: string, closed: bool)
    requires tradeId in s.trades
    ensures Step(s, Rewrite(p, tradeId, closed)).trades
      == if s.trades[tradeId] in {Executed, Submitted, Closed, PartiallyClosed, Failed}
        then s.trades[tradeId := if closed then Closed else PartiallyClosed] else s.trades
  {
  }

  predicate HasExecuted(s: State, id: string) {
    id in s.signals && s.signals[id].executed
  }

  lemma ExecutedOutcome(s: State, a: Action, id: string)
    requires HasExecuted(s, id) && (a.Preflight? || a.Refuse? || a.Finish?)
    ensures HasExecuted(Step(s, a), id)
  {
  }

  lemma ExecutedMark(s: State, a: Action, id: string)
    requires HasExecuted(s, id) && (a.Persist? || a.Gate? || a.Complete? || a.Settle?)
    ensures HasExecuted(Step(s, a), id)
  {
  }

  lemma ExecutedStep(s: State, a: Action, id: string)
    requires HasExecuted(s, id)
    ensures HasExecuted(Step(s, a), id)
  {
    if a.Preflight? || a.Refuse? || a.Finish? { ExecutedOutcome(s, a, id); }
    else if a.Persist? || a.Gate? || a.Complete? || a.Settle? { ExecutedMark(s, a, id); }
    else { SameSignals(s, a); }
  }

  lemma SameSignals(s: State, a: Action)
    requires !a.Preflight? && !a.Refuse? && !a.Finish? && !a.Persist? && !a.Gate? && !a.Complete? && !a.Settle?
    ensures Step(s, a).signals == s.signals
  {
  }

  // A signal that counts as executed counts as executed for good, and no process takes it up again: over
  // every schedule, crashes and all.
  lemma {:induction false} ExecutedIsNeverTakenUp(s: State, schedule: seq<Action>, id: string, p: Pid)
    requires HasExecuted(s, id)
    ensures var t := Run(s, schedule); HasExecuted(t, id) && Step(t, Look(p, id)) == t
    decreases |schedule|
  {
    if schedule != [] {
      ExecutedStep(s, schedule[0], id);
      ExecutedIsNeverTakenUp(Step(s, schedule[0]), schedule[1..], id, p);
    }
  }
}
