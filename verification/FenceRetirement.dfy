/** The reconciler's loop over stale guards, in the protocol's terms: one pass of RetireStaleGuards is a
    schedule of Inspect and Settle steps of the reconciling process alone. */
module FenceRetirement {
  import opened Records
  import opened Lease
  import opened OrderFence
  import opened Execution
  import opened Matching
  import opened ReconcilerRun

  // Equal but for the order ticket, which the protocol does not follow.
  predicate Alike(a: GuardRow, b: GuardRow) {
    a.signalId == b.signalId && a.status == b.status && a.createdAt == b.createdAt
  }

  predicate DistinctKeys(guards: seq<Guard>) {
    forall i, j :: 0 <= i < j < |guards| ==> guards[i].key != guards[j].key
  }

  ghost predicate MirrorsGuards(s: State, guards: seq<Guard>) {
    forall i :: 0 <= i < |guards| ==> guards[i].key in s.guards && Alike(s.guards[guards[i].key], guards[i].row)
  }

  ghost predicate MirrorsTrades(s: State, trades: seq<Trade>) {
    forall id :: id in s.trades <==> LocalTrade(trades, id).Some?
  }

  ghost predicate MirrorsStatuses(s: State, trades: seq<Trade>) {
    forall id :: id in s.trades && LocalTrade(trades, id).Some? ==> s.trades[id] == LocalTrade(trades, id).value.status
  }

  // The protocol's tables are the reconciler's, and the process is between two steps.
  ghost predicate Mirrors(s: State, p: Pid, trades: seq<Trade>, guards: seq<Guard>, signals: map<string, SignalRow>) {
    Loc(s, p) == Idle && MirrorsGuards(s, guards) && MirrorsTrades(s, trades) && MirrorsStatuses(s, trades)
      && s.signals == signals
  }

  function Cutoff(s: State): int {
    s.clock - s.config.staleSeconds
  }

  // ------------------------------------------------------------------ the two steps

  lemma InspectIs(s: State, p: Pid, key: string, found: bool)
    requires Loc(s, p) == Idle
    ensures Step(s, Inspect(p, key, found)) == Inspected(s, p, key, found)
  {
  }

  lemma SettleIs(s: State, p: Pid, key: string, verdict: Status)
    requires Loc(s, p) == Settling(key, verdict)
    ensures Step(s, Settle(p)) == Settled(s, p, key, verdict)
  {
  }

  // Reading a guard and writing the verdict.
  lemma SettledSolo(s: State, p: Pid, key: string, found: bool, verdict: Status)
    requires Loc(s, p) == Idle && Inspected(s, p, key, found) == At(s, p, Settling(key, verdict))
    ensures Solo(p, s, Settled(At(s, p, Settling(key, verdict)), p, key, verdict))
  {
    var read := At(s, p, Settling(key, verdict));
    SoloStart(p, s);
    InspectIs(s, p, key, found);
    SoloThen(p, s, s, Inspect(p, key, found), read);
    SettleIs(read, p, key, verdict);
    SoloThen(p, s, read, Settle(p), Settled(read, p, key, verdict));
  }

  lemma SoloTrans(p: Pid, s: State, t: State, u: State)
    requires Solo(p, s, t) && Solo(p, t, u)
    ensures Solo(p, s, u)
  {
    var first :| Run(s, first) == t && OnlyBy(p, first);
    var rest :| Run(t, rest) == u && OnlyBy(p, rest);
    RunConcat(s, first, rest);
    assert OnlyBy(p, first + rest);
  }

  // ------------------------------------------------------------------ one guard

  predicate Settles(s: State, t: State, p: Pid, key: string, verdict: Status, signals: map<string, SignalRow>)
    requires key in s.guards
  {
    t.guards == s.guards[key := s.guards[key].(status := verdict)] && t.trades == s.trades && t.signals == signals
    && Loc(t, p) == Idle && t.clock == s.clock && t.config == s.config
  }

  lemma MirrorsAfter(s: State, t: State, p: Pid, trades: seq<Trade>, guards: seq<Guard>,
      signals: map<string, SignalRow>, k: nat, g: Guard, after: map<string, SignalRow>)
    requires Mirrors(s, p, trades, guards, signals) && DistinctKeys(guards) && k < |guards| && g.key == guards[k].key
    requires Settles(s, t, p, g.key, g.row.status, after) && g.row.signalId == guards[k].row.signalId
      && g.row.createdAt == guards[k].row.createdAt
    ensures Mirrors(t, p, trades, guards[k := g], after)
  {
    var next := guards[k := g];
    forall i | 0 <= i < |next| ensures next[i].key in t.guards && Alike(t.guards[next[i].key], next[i].row) {
      if i < k { assert guards[i].key != guards[k].key; } else if k < i { assert guards[k].key != guards[i].key; }
    }
  }

  lemma ConfirmedGuard(s: State, p: Pid, trades: seq<Trade>, g: Guard)
    requires Loc(s, p) == Idle && MirrorsTrades(s, trades) && MirrorsStatuses(s, trades) && g.key in s.guards
      && Alike(s.guards[g.key], g.row)
    requires Due(g, Cutoff(s)) && Confirmed(g, trades)
    ensures var verdict := LocalTrade(trades, g.row.signalId).value.status;
      var t := Settled(At(s, p, Settling(g.key, verdict)), p, g.key, verdict);
      Solo(p, s, t) && Settles(s, t, p, g.key, verdict, s.signals)
  {
    var verdict := LocalTrade(trades, g.row.signalId).value.status;
    assert g.row.signalId in s.trades && s.trades[g.row.signalId] == verdict;
    assert Inspected(s, p, g.key, false) == At(s, p, Settling(g.key, verdict));
    SettledSolo(s, p, g.key, false, verdict);
  }

  lemma RetiredGuard(s: State, p: Pid, trades: seq<Trade>, g: Guard)
    requires Loc(s, p) == Idle && MirrorsTrades(s, trades) && MirrorsStatuses(s, trades) && g.key in s.guards
      && Alike(s.guards[g.key], g.row)
    requires Due(g, Cutoff(s)) && !Confirmed(g, trades)
    ensures var t := Settled(At(s, p, Settling(g.key, Retired)), p, g.key, Retired);
      Solo(p, s, t) && Settles(s, t, p, g.key, Retired, AbandonedNow(s.signals, g.row.signalId))
  {
    assert !(g.row.signalId in s.trades && Accepted(s.trades[g.row.signalId]));
    assert Inspected(s, p, g.key, false) == At(s, p, Settling(g.key, Retired));
    SettledSolo(s, p, g.key, false, Retired);
  }

  function AbandonedNow(signals: map<string, SignalRow>, id: string): map<string, SignalRow> {
    if id in signals && signals[id].status == New then signals[id := signals[id].(status := Status.Abandoned)]
      else signals
  }

  // Judging the k-th guard, in steps of the process.
  lemma JudgedSolo(s: State, p: Pid, trades: seq<Trade>, guards: seq<Guard>, signals: map<string, SignalRow>,
      records: seq<Evidence>, k: nat) returns (t: State)
    requires Mirrors(s, p, trades, guards, signals) && DistinctKeys(guards) && k < |guards|
    ensures Solo(p, s, t) && t.clock == s.clock && t.config == s.config
    ensures Mirrors(t, p, trades, guards[k := Judged(guards[k], trades, records, Cutoff(s))],
                    AbandonedOne(signals, guards[k], trades, records, Cutoff(s)))
  {
    var g, cutoff := guards[k], Cutoff(s);
    var h, after := Judged(g, trades, records, cutoff), AbandonedOne(signals, g, trades, records, cutoff);
    t := s;
    SoloStart(p, s);
    if Due(g, cutoff) && Confirmed(g, trades) {
      ConfirmedGuard(s, p, trades, g);
      t := Settled(At(s, p, Settling(g.key, h.row.status)), p, g.key, h.row.status);
      MirrorsAfter(s, t, p, trades, guards, signals, k, h, after);
    } else if Retires(g, trades, records, cutoff) {
      RetiredGuard(s, p, trades, g);
      t := Settled(At(s, p, Settling(g.key, Retired)), p, g.key, Retired);
      MirrorsAfter(s, t, p, trades, guards, signals, k, h, after);
    }
  }

  // ------------------------------------------------------------------ the whole pass

  lemma JudgedKeys(guards: seq<Guard>, trades: seq<Trade>, records: seq<Evidence>, cutoff: int, n: nat)
    requires n <= |guards| && DistinctKeys(guards)
    ensures DistinctKeys(JudgedFirst(guards, trades, records, cutoff, n))
  {
  }

  lemma FirstGuardsStep(guards: seq<Guard>, trades: seq<Trade>, signals: map<string, SignalRow>,
      records: seq<Evidence>, cutoff: int, n: nat)
    requires 0 < n <= |guards|
    ensures var judged := JudgedFirst(guards, trades, records, cutoff, n - 1);
      var abandoned := AbandonedFirst(signals, guards, trades, records, cutoff, n - 1);
      && judged[n - 1] == guards[n - 1]
      && JudgedFirst(guards, trades, records, cutoff, n)
        == judged[n - 1 := Judged(judged[n - 1], trades, records, cutoff)]
      && AbandonedFirst(signals, guards, trades, records, cutoff, n)
        == AbandonedOne(abandoned, judged[n - 1], trades, records, cutoff)
  {
  }

  lemma NextGuardIsARun(s: State, before: State, p: Pid, trades: seq<Trade>, judged: seq<Guard>,
      signals: map<string, SignalRow>, records: seq<Evidence>, k: nat, cutoff: int, next: seq<Guard>,
      after: map<string, SignalRow>) returns (t: State)
    requires Solo(p, s, before) && Mirrors(before, p, trades, judged, signals) && DistinctKeys(judged)
      && k < |judged| && cutoff == Cutoff(before)
    requires next == judged[k := Judged(judged[k], trades, records, cutoff)]
      && after == AbandonedOne(signals, judged[k], trades, records, cutoff)
    ensures Solo(p, s, t) && t.clock == before.clock && t.config == before.config
    ensures Mirrors(t, p, trades, next, after)
  {
    t := JudgedSolo(before, p, trades, judged, signals, records, k);
    SoloTrans(p, s, before, t);
  }

  lemma OneMoreGuardIsARun(s: State, before: State, p: Pid, trades: seq<Trade>, guards: seq<Guard>,
      signals: map<string, SignalRow>, records: seq<Evidence>, n: nat, cutoff: int) returns (t: State)
    requires 0 < n <= |guards| && DistinctKeys(guards) && Solo(p, s, before) && cutoff == Cutoff(before)
    requires Mirrors(before, p, trades, JudgedFirst(guards, trades, records, cutoff, n - 1),
      AbandonedFirst(signals, guards, trades, records, cutoff, n - 1))
    ensures Solo(p, s, t) && t.clock == before.clock && t.config == before.config
    ensures Mirrors(t, p, trades, JudgedFirst(guards, trades, records, cutoff, n),
      AbandonedFirst(signals, guards, trades, records, cutoff, n))
  {
    FirstGuardsStep(guards, trades, signals, records, cutoff, n);
    JudgedKeys(guards, trades, records, cutoff, n - 1);
    t := NextGuardIsARun(s, before, p, trades, JudgedFirst(guards, trades, records, cutoff, n - 1),
      AbandonedFirst(signals, guards, trades, records, cutoff, n - 1), records, n - 1, cutoff,
      JudgedFirst(guards, trades, records, cutoff, n), AbandonedFirst(signals, guards, trades, records, cutoff, n));
  }

  lemma {:induction false} FirstGuardsAreARun(s: State, p: Pid, trades: seq<Trade>, guards: seq<Guard>,
      signals: map<string, SignalRow>, records: seq<Evidence>, n: nat) returns (t: State)
    requires Mirrors(s, p, trades, guards, signals) && DistinctKeys(guards) && n <= |guards|
    ensures Solo(p, s, t) && t.clock == s.clock && t.config == s.config
    ensures Mirrors(t, p, trades, JudgedFirst(guards, trades, records, Cutoff(s), n),
      AbandonedFirst(signals, guards, trades, records, Cutoff(s), n))
  {
    if n == 0 {
      SoloStart(p, s);
      t := s;
    } else {
      var before := FirstGuardsAreARun(s, p, trades, guards, signals, records, n - 1);
      t := OneMoreGuardIsARun(s, before, p, trades, guards, signals, records, n, Cutoff(s));
    }
  }

  // The pass over all guards is a run of the protocol in which only the reconciling process moves, so
  // every theorem about schedules speaks about it: it removes no guard and sends nothing.
  lemma RetirementIsARun(s: State, p: Pid, trades: seq<Trade>, guards: seq<Guard>, signals: map<string, SignalRow>,
      records: seq<Evidence>)
    requires Mirrors(s, p, trades, guards, signals) && DistinctKeys(guards)
    ensures exists t :: Solo(p, s, t) && MirrorsPass(s, t, p, trades, guards, signals, records)
  {
    var t := FirstGuardsAreARun(s, p, trades, guards, signals, records, |guards|);
    assert MirrorsPass(s, t, p, trades, guards, signals, records);
  }

  // The tables of t are those of s after the loop.
  ghost predicate MirrorsPass(s: State, t: State, p: Pid, trades: seq<Trade>, guards: seq<Guard>,
      signals: map<string, SignalRow>, records: seq<Evidence>) {
    var n, cutoff := |guards|, Cutoff(s);
    Mirrors(t, p, trades, JudgedFirst(guards, trades, records, cutoff, n),
      AbandonedFirst(signals, guards, trades, records, cutoff, n))
  }
}
