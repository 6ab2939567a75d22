/** register_trade_opened and add_realized_pnl when several processes book on one day's row: each loads the
    row, adds to the value it loaded and commits, and between its load and its commit others may commit. */
module LostUpdates {
  import opened Records
  import opened RiskState
  import GateLaws
  import Session

  datatype Step = Loads(process: nat) | Commits(process: nat, amount: real)

  // What a process loaded, and what had been booked, in how many commits, by then.
  datatype Loaded = Loaded(value: real, booked: real, commits: nat)

  // One column of one day's row. `booked` is what all commits meant to add; `overlaps` counts the pairs of
  // a commit and a commit of another process since its load.
  datatype World = World(value: real, booked: real, commits: nat, overlaps: nat, loaded: map<nat, Loaded>)

  function Missed(w: World, process: nat): nat {
    if process in w.loaded && w.commits >= w.loaded[process].commits then w.commits - w.loaded[process].commits else 0
  }

  function Stepped(w: World, step: Step): World {
    match step
    case Loads(process) => w.(loaded := w.loaded[process := Loaded(w.value, w.booked, w.commits)])
    case Commits(process, amount) =>
      if process !in w.loaded then w
      else World(w.loaded[process].value + amount, w.booked + amount, w.commits + 1,
        w.overlaps + Missed(w, process), w.loaded - {process})
  }

  function Played(w: World, steps: seq<Step>): World {
    if steps == [] then w else Stepped(Played(w, steps[..|steps| - 1]), steps[|steps| - 1])
  }

  // What was booked and the row does not show.
  function Missing(w: World): real {
    w.booked - w.value
  }

  // A row in use by nobody.
  function Fresh(value: real): World {
    World(value, value, 0, 0, map[])
  }

  lemma ManyAdds(n: nat, m: nat, one: real)
    ensures Session.Many(n + m, one) == Session.Many(n, one) + Session.Many(m, one)
  {
  }

  // An uninterrupted load and commit is the store's own operation.
  lemma UndisturbedIsTheStore(rows: seq<RiskRow>, op: Op, day: int, now: int, w: World, process: nat)
    requires OneRowPerDay(rows) && GateLaws.NoneLater(rows, day) && (op.AddPnl? || op.RegisterTrade?)
    requires w.value == if op.AddPnl? then RowOf(rows, day, 0).realizedPnl else RowOf(rows, day, 0).tradesOpened as real
    ensures var after := Stepped(Stepped(w, Loads(process)), Commits(process, if op.AddPnl? then op.amount else 1.0));
      var row := RowOf(Applied(rows, op, day, now), day, 0);
      after.value == (if op.AddPnl? then row.realizedPnl else row.tradesOpened as real)
        && after.overlaps == w.overlaps && Missing(after) == Missing(w)
  {
    Session.WriteToday(rows, op, day, now);
  }

  // ------------------------------------------------------------------ amounts of any sign

  predicate Small(step: Step, limit: real) {
    step.Commits? ==> Abs(step.amount) <= limit
  }

  predicate AllSmall(steps: seq<Step>, limit: real) {
    forall k :: 0 <= k < |steps| ==> Small(steps[k], limit)
  }

  // What a process loaded was off by at most the overlaps so far, and misses at most the commits since.
  predicate LoadedHolds(h: Loaded, w: World, limit: real) {
    h.commits <= w.commits && Abs(h.booked - h.value) <= Session.Many(w.overlaps, limit)
      && Abs(w.booked - h.booked) <= Session.Many(w.commits - h.commits, limit)
  }

  predicate Holds(w: World, limit: real) {
    Abs(Missing(w)) <= Session.Many(w.overlaps, limit)
      && forall process :: process in w.loaded ==> LoadedHolds(w.loaded[process], w, limit)
  }

  lemma LoadedStep(h: Loaded, w: World, amount: real, missed: nat, t: World, limit: real)
    requires limit >= 0.0 && Abs(amount) <= limit && LoadedHolds(h, w, limit)
    requires t.booked == w.booked + amount && t.commits == w.commits + 1 && t.overlaps == w.overlaps + missed
    ensures LoadedHolds(h, t, limit)
  {
    Session.ManyGrows(w.overlaps, t.overlaps, limit);
    ManyAdds(w.commits - h.commits, 1, limit);
  }

  lemma CommitStep(w: World, process: nat, amount: real, t: World, limit: real)
    requires limit >= 0.0 && Holds(w, limit) && process in w.loaded && Abs(amount) <= limit
    requires t == Stepped(w, Commits(process, amount))
    ensures Holds(t, limit)
  {
    var h := w.loaded[process];
    assert LoadedHolds(h, w, limit);
    ManyAdds(w.overlaps, w.commits - h.commits, limit);
    assert Missing(t) == (h.booked - h.value) + (w.booked - h.booked);
    forall q | q in t.loaded ensures LoadedHolds(t.loaded[q], t, limit) {
      LoadedStep(w.loaded[q], w, amount, Missed(w, process), t, limit);
    }
  }

  // In every interleaving of any number of processes, the row is off by at most one largest amount for
  // each overlap; where no load and commit overlaps another commit, nothing is lost.
  lemma {:induction false} LossIsBoundedByOverlaps(value: real, steps: seq<Step>, limit: real)
    requires limit >= 0.0 && AllSmall(steps, limit)
    ensures var w := Played(Fresh(value), steps);
      Holds(w, limit) && Abs(Missing(w)) <= Session.Many(w.overlaps, limit) && (w.overlaps == 0 ==> Missing(w) == 0.0)
  {
    if steps != [] {
      var front, step := steps[..|steps| - 1], steps[|steps| - 1];
      LossIsBoundedByOverlaps(value, front, limit);
      var w := Played(Fresh(value), front);
      if step.Commits? && step.process in w.loaded {
        CommitStep(w, step.process, step.amount, Stepped(w, step), limit);
      }
    }
  }

  // ------------------------------------------------------------------ the trade count

  predicate Counting(steps: seq<Step>) {
    forall k :: 0 <= k < |steps| && steps[k].Commits? ==> steps[k].amount == 1.0
  }

  // What a process loaded was short exactly when it had missed commits before, and is short by one more
  // for each commit since.
  predicate CountHolds(w: World) {
    && 0.0 <= Missing(w) <= w.overlaps as real && (Missing(w) == 0.0 <==> w.overlaps == 0)
    && forall process :: process in w.loaded ==>
         var h := w.loaded[process];
         h.commits <= w.commits && w.booked - h.booked == (w.commits - h.commits) as real
         && 0.0 <= h.booked - h.value <= w.overlaps as real
         && (w.overlaps == 0 ==> h.booked == h.value)
         && (h.commits == w.commits ==> h.booked - h.value == Missing(w))
  }

  lemma CountStep(w: World, process: nat, t: World)
    requires CountHolds(w) && process in w.loaded && t == Stepped(w, Commits(process, 1.0))
    ensures CountHolds(t)
  {
    var h := w.loaded[process];
    assert Missing(t) == (h.booked - h.value) + (w.commits - h.commits) as real;
  }

  // The day's trade count is never too high, it is short by at most one for each overlap, and it is exact
  // if and only if no load and commit overlapped another commit.
  lemma {:induction false} CountIsExactIffNothingOverlaps(value: real, steps: seq<Step>)
    requires Counting(steps)
    ensures var w := Played(Fresh(value), steps);
      CountHolds(w) && w.value <= w.booked <= w.value + w.overlaps as real
        && (w.value == w.booked <==> w.overlaps == 0)
  {
    if steps != [] {
      var front, step := steps[..|steps| - 1], steps[|steps| - 1];
      CountIsExactIffNothingOverlaps(value, front);
      var w := Played(Fresh(value), front);
      if step.Commits? && step.process in w.loaded { CountStep(w, step.process, Stepped(w, step)); }
    }
  }
}
