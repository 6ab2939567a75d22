/** ExecutionService.submit as the one process sees it: the tables and the broker it works on, and the
    proof that one uninterrupted call is a run of the fence's atomic steps. */
module Execution {
  import opened Records
  import opened Lease
  import opened OrderFence

  // What the call meets outside the database: every check between the guard read and the
  // authorization, the authorization UPDATE, and order_send.
  datatype World = World(clear: bool, reply: Reply, answer: Answer)

  // submit, from the point where the intent is in hand.
  function AfterSubmit(s: State, p: Pid, i: Intent, w: World): State {
    if i.tradeId in s.trades || i.key in s.guards then At(s, p, Returned(i, Duplicate))
    else if !w.clear then PersistRejection(At(s, p, Refusing(i)), p, i)
    else if p !in s.config.live then AfterClearance(At(s, p, Cleared(i, None)), p, i, None, w.answer)
    else AfterAuthorization(At(s, p, Racing(i)), p, i, w)
  }

  function AfterAuthorization(s: State, p: Pid, i: Intent, w: World): State {
    var spent := Spend(s.(auth := if s.auth == Missing then Row(false) else s.auth), p, i, w.reply);
    if spent.procs[p].Refusing? then PersistRejection(spent, p, i)
    else AfterClearance(spent, p, i, spent.procs[p].grant, w.answer)
  }

  function AfterClearance(s: State, p: Pid, i: Intent, grant: Option<nat>, answer: Answer): State {
    var reserved := Reservation(s, p, i, grant);
    if !reserved.procs[p].Holding? then reserved
    else Finished(Dispatched(reserved, p, i, grant, answer), p, i, answer)
  }

  class ExecutionService {
    const pid: Pid
    const live: bool
    const clock: int
    var guards: map<string, GuardRow>
    var trades: map<string, Status>
    var signals: map<string, SignalRow>
    var auth: Authorization
    var log: seq<Event>

    constructor (pid: Pid, live: bool, clock: int)
      ensures this.pid == pid && this.live == live && this.clock == clock
      ensures guards == map[] && trades == map[] && signals == map[] && auth == Missing && log == []
    {
      this.pid, this.live, this.clock := pid, live, clock;
      guards, trades, signals, auth, log := map[], map[], map[], Missing, [];
    }

    // The deployment with this process at `l` and nobody else running.
    ghost function Now(l: Local): State
      reads this
    {
      State(Config(if live then {pid} else {}, 0, 0), guards, trades, signals, auth, None, {}, clock, map[pid := l],
        log)
    }

    lemma Moved(l: Local, m: Local)
      ensures At(Now(l), pid, m) == Now(m)
    {
      assert map[pid := l][pid := m] == map[pid := m];
    }

    // The result is None when the database raised and the call ended without one.
    method Submit(i: Intent, w: World) returns (result: Option<Status>)
      modifies this
      ensures Now(if result.Some? then Returned(i, result.value) else Idle)
        == AfterSubmit(old(Now(Submitting(i))), pid, i, w)
    {
      ghost var start := Now(Submitting(i));
      if i.tradeId in trades {
        Moved(Submitting(i), Returned(i, Duplicate));
        return Some(Duplicate);
      }
      if i.key in guards {
        Moved(Submitting(i), Returned(i, Duplicate));
        return Some(Duplicate);
      }
      if !w.clear {
        Moved(Submitting(i), Refusing(i));
        result := RejectOrder(i);
      } else if !live {
        Moved(Submitting(i), Cleared(i, None));
        result := SendReserved(i, None, w.answer);
      } else {
        Moved(Submitting(i), Racing(i));
        result := SendAuthorized(i, w);
      }
    }

    // In LIVE mode the authorization is reserved before the guard and the send.
    method SendAuthorized(i: Intent, w: World) returns (result: Option<Status>)
      requires i.tradeId !in trades && live
      modifies this
      ensures Now(if result.Some? then Returned(i, result.value) else Idle)
        == AfterAuthorization(old(Now(Racing(i))), pid, i, w)
    {
      var grant := ReserveAuthorization(i, w.reply);
      if grant.Some? {
        result := SendReserved(i, grant, w.answer);
      } else {
        result := RejectOrder(i);
      }
    }

    // From the cleared request to the recorded outcome: guard, order_send, _finish.
    method SendReserved(i: Intent, grant: Option<nat>, answer: Answer) returns (result: Option<Status>)
      requires i.tradeId !in trades
      modifies this`guards, this`trades, this`signals, this`log
      ensures result.Some?
        && Now(Returned(i, result.value)) == AfterClearance(old(Now(Cleared(i, grant))), pid, i, grant, answer)
      ensures result == Some(if i.key in old(guards) then Duplicate else Outcome(answer))
    {
      var owned := ReserveGuard(i, grant);
      if !owned {
        return Some(Duplicate);
      }
      SendOrder(i, grant, answer);
      Finish(i, answer);
      result := Some(Outcome(answer));
    }

    method SendOrder(i: Intent, grant: Option<nat>, ghost answer: Answer)
      modifies this`log
      ensures Now(Answered(i, answer)) == Dispatched(old(Now(Holding(i, grant))), pid, i, grant, answer)
    {
      log := log + [Sent(pid, i, live, grant)];
      assert map[pid := Holding(i, grant)][pid := Answered(i, answer)] == map[pid := Answered(i, answer)];
    }

    method RejectOrder(i: Intent) returns (result: Option<Status>)
      modifies this
      ensures Now(if result.Some? then Returned(i, result.value) else Idle)
        == PersistRejection(old(Now(Refusing(i))), pid, i)
      ensures result == if i.tradeId in old(trades) then None else Some(Rejected)
    {
      if i.tradeId in trades {
        return None;
      }
      trades := trades[i.tradeId := Rejected];
      SyncSignal(i, Rejected);
      result := Some(Rejected);
    }

    // Some index of the winning UPDATE in the history, or None when this caller may not send.
    method ReserveAuthorization(i: Intent, reply: Reply) returns (grant: Option<nat>)
      modifies this`auth, this`log
      ensures var row := old(Now(Racing(i))).(auth := if old(auth) == Missing then Row(false) else old(auth));
              Now(if grant.Some? then Cleared(i, grant) else Refusing(i)) == Spend(row, pid, i, reply)
      ensures grant.Some? ==> old(auth) != Row(true) && auth == Row(true) && grant.value == |old(log)|
    {
      if auth == Missing {
        auth := Row(false);
      }
      if reply == Unreadable || auth.consumed {
        return None;
      }
      auth := Row(true);
      log := log + [Won(pid, i.key)];
      grant := if reply == Clean then Some(|log| - 1) else None;
    }

    method ReserveGuard(i: Intent, ghost grant: Option<nat>) returns (owned: bool)
      modifies this`guards, this`log
      ensures owned <==> i.key !in old(guards)
      ensures owned ==> i.key in guards
      ensures Now(if owned then Holding(i, grant) else Returned(i, Duplicate))
        == Reservation(old(Now(Cleared(i, grant))), pid, i, grant)
    {
      if i.key in guards {
        return false;
      }
      guards := guards[i.key := GuardRow(i.signalId, Pending, clock, None)];
      log := log + [Guarded(pid, i.key)];
      owned := true;
    }

    method Finish(i: Intent, answer: Answer)
      requires i.key in guards && i.tradeId !in trades
      modifies this`guards, this`trades, this`signals
      ensures Now(Returned(i, Outcome(answer))) == Finished(old(Now(Answered(i, answer))), pid, i, answer)
    {
      guards := guards[i.key := guards[i.key].(status := Outcome(answer))];
      trades := trades[i.tradeId := Outcome(answer)];
      SyncSignal(i, Outcome(answer));
    }

    method SyncSignal(i: Intent, status: Status)
      modifies this`signals
      ensures signals == Synced(old(signals), i, status, clock)
    {
      if i.signalId !in signals {
        signals := signals[i.signalId := SignalRow(New, false, clock)];
      }
      var row := signals[i.signalId];
      signals := signals[i.signalId := row.(executed := row.executed || Accepted(status), status := status)];
    }
  }

  predicate MaySend(s: State, p: Pid, i: Intent, w: World) {
    i.tradeId !in s.trades && i.key !in s.guards && w.clear
      && (p in s.config.live ==> w.reply == Clean && s.auth != Row(true))
  }

  lemma ClearanceSends(s: State, p: Pid, i: Intent, grant: Option<nat>, answer: Answer)
    requires i.key !in s.guards && i.tradeId !in s.trades
    ensures var t := AfterClearance(s, p, i, grant, answer);
      && t.log == s.log + [Guarded(p, i.key), Sent(p, i, p in s.config.live, grant)]
      && Loc(t, p) == Returned(i, Outcome(answer))
      && t.trades == s.trades[i.tradeId := Outcome(answer)]
      && t.guards == s.guards[i.key := GuardRow(i.signalId, Outcome(answer), s.clock, None)]
      && t.signals == Synced(s.signals, i, Outcome(answer), s.clock) && t.auth == s.auth
  {
    var reserved := Reservation(s, p, i, grant);
    var sent := Dispatched(reserved, p, i, grant, answer);
    assert AfterClearance(s, p, i, grant, answer) == Finished(sent, p, i, answer);
    assert sent.guards[i.key].(status := Outcome(answer)) == GuardRow(i.signalId, Outcome(answer), s.clock, None);
  }

  // The call reached the broker, and its rows say what the broker answered.
  ghost predicate WasSent(s: State, t: State, p: Pid, i: Intent, answer: Answer) {
    && (exists grant ::
      t.log == s.log
      + (if p in s.config.live then [Won(p, i.key)]
      else []) + [Guarded(p, i.key), Sent(p, i, p in s.config.live, grant)])
    && Loc(t, p) == Returned(i, Outcome(answer))
    && t.trades == s.trades[i.tradeId := Outcome(answer)]
    && t.guards == s.guards[i.key := GuardRow(i.signalId, Outcome(answer), s.clock, None)]
  }

  // Nothing was sent, and the guard table is as it was.
  ghost predicate WasNotSent(s: State, t: State, p: Pid, i: Intent) {
    t.guards == s.guards && (t.log == s.log || t.log == s.log + [Won(p, i.key)])
  }

  lemma PracticeSends(s: State, p: Pid, i: Intent, w: World)
    requires MaySend(s, p, i, w) && p !in s.config.live
    ensures WasSent(s, AfterSubmit(s, p, i, w), p, i, w.answer)
  {
    var cleared := At(s, p, Cleared(i, None));
    ClearanceSends(cleared, p, i, None, w.answer);
    var t := AfterClearance(cleared, p, i, None, w.answer);
    assert t.log == s.log + [] + [Guarded(p, i.key), Sent(p, i, false, None)];
  }

  lemma LiveSends(s: State, p: Pid, i: Intent, w: World)
    requires MaySend(s, p, i, w) && p in s.config.live
    ensures WasSent(s, AfterSubmit(s, p, i, w), p, i, w.answer)
  {
    var spent := Spend(At(s, p, Racing(i)).(auth := Row(false)), p, i, w.reply);
    var grant := Some(|s.log|);
    ClearanceSends(spent, p, i, grant, w.answer);
    var t := AfterClearance(spent, p, i, grant, w.answer);
    assert t.log == s.log + [Won(p, i.key)] + [Guarded(p, i.key), Sent(p, i, true, grant)];
  }

  lemma RefusedCall(s: State, p: Pid, i: Intent, w: World)
    requires !MaySend(s, p, i, w)
    ensures WasNotSent(s, AfterSubmit(s, p, i, w), p, i)
  {
  }

  // The call reaches the broker exactly when no row of its intent exists, every check passes and, in
  // a live deployment, it wins the authorization; then its rows say what the broker answered.
  // Otherwise the guard table is untouched and nothing is sent.
  lemma SubmitSendsIff(s: State, p: Pid, i: Intent, w: World)
    ensures if MaySend(s, p, i, w) then WasSent(s, AfterSubmit(s, p, i, w), p, i, w.answer)
      else WasNotSent(s, AfterSubmit(s, p, i, w), p, i)
    ensures i.tradeId in s.trades || i.key in s.guards ==> AfterSubmit(s, p, i, w) == At(s, p, Returned(i, Duplicate))
  {
    if !MaySend(s, p, i, w) { RefusedCall(s, p, i, w); }
    else if p in s.config.live { LiveSends(s, p, i, w); }
    else { PracticeSends(s, p, i, w); }
  }

  // ------------------------------------------------------------------ what the rows say afterwards

  // Trade, guard, signal and result carry one status.
  predicate Recorded(t: State, p: Pid, i: Intent, status: Status) {
    && Loc(t, p) == Returned(i, status)
    && i.tradeId in t.trades && t.trades[i.tradeId] == status
    && i.key in t.guards && t.guards[i.key].status == status && t.guards[i.key].signalId == i.signalId
    && i.signalId in t.signals && t.signals[i.signalId].status == status
  }

  predicate WasExecuted(s: State, i: Intent) {
    i.signalId in s.signals && s.signals[i.signalId].executed
  }

  // No row of another intent moves.
  predicate OtherRowsStay(s: State, t: State, i: Intent) {
    t.trades - {i.tradeId} == s.trades - {i.tradeId} && t.guards - {i.key} == s.guards - {i.key}
      && t.signals - {i.signalId} == s.signals - {i.signalId}
  }

  lemma OneStatusRecorded(s: State, t: State, p: Pid, i: Intent, status: Status, other: Status)
    requires Loc(t, p) == Returned(i, status) && t.trades == s.trades[i.tradeId := status]
      && t.signals == Synced(s.signals, i, status, s.clock)
    requires t.guards == s.guards[i.key := GuardRow(i.signalId, status, s.clock, None)]
    ensures Recorded(t, p, i, other) <==> status == other
    ensures WasExecuted(t, i) <==> WasExecuted(s, i) || status in {Executed, Submitted}
    ensures OtherRowsStay(s, t, i)
  {
  }

  lemma StatusOfAnswer(answer: Answer)
    ensures Outcome(answer) == Executed <==> answer == Done
    ensures Outcome(answer) == Submitted <==> answer == Placed
    ensures Outcome(answer) == Rejected <==> answer == Refused
    ensures Outcome(answer) == Failed <==> answer in {Raised, NoResult, NoRetcode}
  {
  }

  lemma ClearanceRecords(s: State, p: Pid, i: Intent, grant: Option<nat>, answer: Answer, other: Status)
    requires i.key !in s.guards && i.tradeId !in s.trades
    ensures var t := AfterClearance(s, p, i, grant, answer);
      && (Recorded(t, p, i, other) <==> Outcome(answer) == other)
      && (WasExecuted(t, i) <==> WasExecuted(s, i) || Outcome(answer) in {Executed, Submitted})
      && OtherRowsStay(s, t, i) && t.auth == s.auth
  {
    ClearanceSends(s, p, i, grant, answer);
    OneStatusRecorded(s, AfterClearance(s, p, i, grant, answer), p, i, Outcome(answer), other);
  }

  lemma SubmitRecords(s: State, p: Pid, i: Intent, w: World, other: Status)
    requires MaySend(s, p, i, w)
    ensures var t := AfterSubmit(s, p, i, w);
      && (Recorded(t, p, i, other) <==> Outcome(w.answer) == other)
      && (WasExecuted(t, i) <==> WasExecuted(s, i) || Outcome(w.answer) in {Executed, Submitted})
      && OtherRowsStay(s, t, i) && t.auth == if p in s.config.live then Row(true) else s.auth
  {
    if p in s.config.live {
      var spent := Spend(At(s, p, Racing(i)).(auth := Row(false)), p, i, w.reply);
      ClearanceRecords(spent, p, i, Some(|s.log|), w.answer, other);
    } else {
      ClearanceRecords(At(s, p, Cleared(i, None)), p, i, None, w.answer, other);
    }
  }

  // A call that reached the broker: a filled order is EXECUTED in every row, a pending one SUBMITTED, a
  // refused one REJECTED, and one whose fate is unknown FAILED. The signal counts as executed from the
  // first filled or pending order on.
  lemma AnswerIsRecorded(s: State, p: Pid, i: Intent, w: World)
    requires MaySend(s, p, i, w)
    ensures var t := AfterSubmit(s, p, i, w);
      && (Recorded(t, p, i, Executed) <==> w.answer == Done)
      && (Recorded(t, p, i, Submitted) <==> w.answer == Placed)
      && (Recorded(t, p, i, Rejected) <==> w.answer == Refused)
      && (Recorded(t, p, i, Failed) <==> w.answer in {Raised, NoResult, NoRetcode})
      && (WasExecuted(t, i) <==> WasExecuted(s, i) || w.answer in {Done, Placed})
      && OtherRowsStay(s, t, i) && t.auth == if p in s.config.live then Row(true) else s.auth
  {
    StatusOfAnswer(w.answer);
    SubmitRecords(s, p, i, w, Executed);
    SubmitRecords(s, p, i, w, Submitted);
    SubmitRecords(s, p, i, w, Rejected);
    SubmitRecords(s, p, i, w, Failed);
  }

  lemma RejectionRecords(s: State, p: Pid, i: Intent, t: State)
    requires i.tradeId !in s.trades && t == PersistRejection(s, p, i)
    ensures Loc(t, p) == Returned(i, Rejected) && i.tradeId in t.trades && t.trades[i.tradeId] == Rejected
    ensures i.signalId in t.signals && t.signals[i.signalId].status == Rejected
    ensures WasExecuted(t, i) <==> WasExecuted(s, i)
    ensures OtherRowsStay(s, t, i) && t.guards == s.guards && t.auth == s.auth
  {
  }

  // What the rejection is written over: the tables as they were, and the authorization, which is spent
  // when it was won and only the reply was lost.
  function BeforeRejection(s: State, p: Pid, i: Intent, w: World): State {
    if w.clear then Spend(At(s, p, Racing(i)).(auth := if s.auth == Missing then Row(false) else s.auth), p, i, w.reply)
    else At(s, p, Refusing(i))
  }

  lemma RefusedCallIs(s: State, p: Pid, i: Intent, w: World, before: State)
    requires i.tradeId !in s.trades && i.key !in s.guards && !MaySend(s, p, i, w)
      && before == BeforeRejection(s, p, i, w)
    ensures AfterSubmit(s, p, i, w) == PersistRejection(before, p, i)
    ensures before.trades == s.trades && before.signals == s.signals && before.guards == s.guards
    ensures before.auth == Row(true) <==>
      s.auth == Row(true) || (p in s.config.live && w.clear && w.reply == LostAfterCommit)
  {
  }

  // A call that was refused before the send: REJECTED in the trade, the signal and the result, without a
  // guard. The authorization is spent all the same when it was won and only the reply was lost.
  lemma RefusalIsRecorded(s: State, p: Pid, i: Intent, w: World)
    requires i.tradeId !in s.trades && i.key !in s.guards && !MaySend(s, p, i, w)
    ensures var t := AfterSubmit(s, p, i, w);
      && Loc(t, p) == Returned(i, Rejected) && i.tradeId in t.trades && t.trades[i.tradeId] == Rejected
      && i.signalId in t.signals && t.signals[i.signalId].status == Rejected
      && (WasExecuted(t, i) <==> WasExecuted(s, i)) && OtherRowsStay(s, t, i) && t.guards == s.guards
      && (t.auth == Row(true) <==>
        s.auth == Row(true) || (p in s.config.live && w.clear && w.reply == LostAfterCommit))
  {
    var before := BeforeRejection(s, p, i, w);
    RefusedCallIs(s, p, i, w, before);
    RejectionRecords(before, p, i, AfterSubmit(s, p, i, w));
  }

  // ------------------------------------------------------------------ one call, in the protocol's terms

  predicate OnlyBy(p: Pid, schedule: seq<Action>) {
    forall k :: 0 <= k < |schedule| ==> !schedule[k].Elapse? && schedule[k].p == p
  }

  // t is reached from s by steps of process p alone.
  ghost predicate Solo(p: Pid, s: State, t: State) {
    exists schedule :: Run(s, schedule) == t && OnlyBy(p, schedule)
  }

  lemma SoloStart(p: Pid, s: State)
    ensures Solo(p, s, s)
  {
    assert Run(s, []) == s;
  }

  lemma SoloThen(p: Pid, s: State, t: State, a: Action, next: State)
    requires Solo(p, s, t) && !a.Elapse? && a.p == p && Step(t, a) == next
    ensures Solo(p, s, next)
  {
    var schedule :| Run(s, schedule) == t && OnlyBy(p, schedule);
    RunConcat(s, schedule, [a]);
    assert [a][1..] == [];
    assert Run(t, [a]) == Run(next, []);
    assert Run(s, schedule + [a]) == next;
  }

  lemma ReserveStepIs(s: State, p: Pid, i: Intent, grant: Option<nat>)
    requires Loc(s, p) == Cleared(i, grant)
    ensures Step(s, Reserve(p)) == Reservation(s, p, i, grant)
  {
  }

  lemma SendStepIs(s: State, p: Pid, i: Intent, grant: Option<nat>, answer: Answer)
    requires Loc(s, p) == Holding(i, grant)
    ensures Step(s, Send(p, answer)) == Dispatched(s, p, i, grant, answer)
  {
  }

  lemma FinishStepIs(s: State, p: Pid, i: Intent, answer: Answer)
    requires Loc(s, p) == Answered(i, answer)
    ensures Step(s, Finish(p)) == Finished(s, p, i, answer)
  {
  }

  lemma RefuseStepIs(s: State, p: Pid, i: Intent)
    requires Loc(s, p) == Refusing(i)
    ensures Step(s, Refuse(p)) == PersistRejection(s, p, i)
  {
  }

  lemma ClearanceIsSolo(p: Pid, s: State, t: State, i: Intent, grant: Option<nat>, answer: Answer)
    requires Solo(p, s, t) && Loc(t, p) == Cleared(i, grant)
    ensures Solo(p, s, AfterClearance(t, p, i, grant, answer))
  {
    var one := Reservation(t, p, i, grant);
    ReserveStepIs(t, p, i, grant);
    SoloThen(p, s, t, Reserve(p), one);
    if i.key !in t.guards {
      var two := Dispatched(one, p, i, grant, answer);
      SendStepIs(one, p, i, grant, answer);
      SoloThen(p, s, one, Send(p, answer), two);
      FinishStepIs(two, p, i, answer);
      SoloThen(p, s, two, Finish(p), Finished(two, p, i, answer));
    }
  }

  lemma SpendSteps(t: State, p: Pid, i: Intent, reply: Reply)
    requires Loc(t, p) == Spending(i)
    ensures var row := t.(auth := if t.auth == Missing then Row(false) else t.auth);
            Step(t, Materialise(p)) == At(row, p, Racing(i))
              && Step(At(row, p, Racing(i)), Consume(p, reply)) == Spend(At(row, p, Racing(i)), p, i, reply)
  {
  }

  lemma AuthorizationIsSolo(p: Pid, s: State, t: State, i: Intent, w: World)
    requires Solo(p, s, t) && Loc(t, p) == Spending(i)
    ensures Solo(p, s, AfterAuthorization(At(t, p, Racing(i)), p, i, w))
  {
    var row := At(t.(auth := if t.auth == Missing then Row(false) else t.auth), p, Racing(i));
    SpendSteps(t, p, i, w.reply);
    SoloThen(p, s, t, Materialise(p), row);
    var spent := Spend(row, p, i, w.reply);
    SoloThen(p, s, row, Consume(p, w.reply), spent);
    if spent.procs[p].Refusing? {
      RefuseStepIs(spent, p, i);
      SoloThen(p, s, spent, Refuse(p), PersistRejection(spent, p, i));
    } else {
      ClearanceIsSolo(p, s, spent, i, spent.procs[p].grant, w.answer);
    }
  }

  lemma CheckSteps(t: State, p: Pid, i: Intent)
    requires Loc(t, p) == Submitting(i)
    ensures Step(t, CheckTrade(p)) == At(t, p, if i.tradeId in t.trades then Returned(i, Duplicate) else TradeClear(i))
    ensures Step(At(t, p, TradeClear(i)), CheckGuard(p))
      == At(t, p, if i.key in t.guards then Returned(i, Duplicate) else GuardClear(i))
  {
    AtAgain(t, p, TradeClear(i), Returned(i, Duplicate));
    AtAgain(t, p, TradeClear(i), GuardClear(i));
  }

  lemma PreflightSteps(t: State, p: Pid, i: Intent)
    ensures Step(At(t, p, GuardClear(i)), Preflight(p, true))
      == At(t, p, if p in t.config.live then Spending(i) else Cleared(i, None))
    ensures i.tradeId !in t.trades ==>
      Step(At(t, p, GuardClear(i)), Preflight(p, false)) == PersistRejection(At(t, p, Refusing(i)), p, i)
  {
    AtAgain(t, p, GuardClear(i), Spending(i));
    AtAgain(t, p, GuardClear(i), Cleared(i, None));
    AtAgain(t, p, GuardClear(i), Returned(i, Rejected));
    AtAgain(t, p, Refusing(i), Returned(i, Rejected));
    assert t.procs[p := GuardClear(i)][p := Returned(i, Rejected)]
      == t.procs[p := Refusing(i)][p := Returned(i, Rejected)];
  }

  // The imperative call is one schedule of the protocol in which only its own process moves; every
  // theorem about schedules therefore speaks about it.
  lemma SubmitIsARun(s: State, p: Pid, i: Intent, w: World)
    requires Loc(s, p) == Submitting(i)
    ensures Solo(p, s, AfterSubmit(s, p, i, w))
  {
    SoloStart(p, s);
    CheckSteps(s, p, i);
    PreflightSteps(s, p, i);
    SoloThen(p, s, s, CheckTrade(p), Step(s, CheckTrade(p)));
    if i.tradeId !in s.trades {
      var guarded := At(s, p, if i.key in s.guards then Returned(i, Duplicate) else GuardClear(i));
      SoloThen(p, s, At(s, p, TradeClear(i)), CheckGuard(p), guarded);
      if i.key !in s.guards {
        var next := Step(guarded, Preflight(p, w.clear));
        SoloThen(p, s, guarded, Preflight(p, w.clear), next);
        if w.clear && p in s.config.live {
          AuthorizationIsSolo(p, s, next, i, w);
          AtAgain(s, p, Spending(i), Racing(i));
        } else if w.clear {
          ClearanceIsSolo(p, s, next, i, None, w.answer);
        }
      }
    }
  }
}
