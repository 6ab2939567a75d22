/** The market-loop lease: one scheduler_locks row, taken by whoever finds it absent, its own or stale. */
module Lease {
  import opened Records

  type Pid = nat

  datatype LeaseRow = LeaseRow(owner: Pid, acquiredAt: int, heartbeatAt: int)

  // The write half of _acquire_db_lock: the decision is taken on the row that was `seen`, the write
  // lands on the row as it is now. An insert meets the unique lock_key; an update of a row that is
  // gone raises. With seen == row the acquire is atomic.
  function WriteSeen(row: Option<LeaseRow>, seen: Option<LeaseRow>, p: Pid, now: int,
      ttl: nat): (r: (Option<LeaseRow>, bool)) {
    match seen
    case None => if row.None? then (Some(LeaseRow(p, now, now)), true) else (row, false)
    case Some(prior) =>
      if prior.owner != p && now - prior.heartbeatAt <= ttl then (row, false)
      else if row.None? then (row, false)
      else if prior.owner == p then (Some(row.value.(heartbeatAt := now)), true)
      else (Some(LeaseRow(p, now, now)), true)
  }

  function Released(row: Option<LeaseRow>, p: Pid): Option<LeaseRow> {
    if row.Some? && row.value.owner == p then None else row
  }

  // The lease as the schedulers use it, each call atomic.
  class SchedulerLock {
    var row: Option<LeaseRow>

    constructor ()
      ensures row == None
    {
      row := None;
    }

    method AcquireDbLock(owner: Pid, now: int, ttl: nat) returns (leads: bool)
      modifies this
      ensures (row, leads) == WriteSeen(old(row), old(row), owner, now, ttl)
      ensures leads <==> old(row).None? || old(row).value.owner == owner || now - old(row).value.heartbeatAt > ttl
      ensures if leads then row.Some? && row.value.owner == owner && row.value.heartbeatAt == now else row == old(row)
      ensures leads ==>
        row.value.acquiredAt
        == if old(row).Some? && old(row).value.owner == owner then old(row).value.acquiredAt else now
    {
      if row.None? {
        row := Some(LeaseRow(owner, now, now));
        return true;
      }
      if row.value.owner == owner {
        row := Some(row.value.(heartbeatAt := now));
        return true;
      }
      if now - row.value.heartbeatAt <= ttl {
        return false;
      }
      row := Some(LeaseRow(owner, now, now));
      leads := true;
    }

    method ReleaseDbLock(owner: Pid)
      modifies this
      ensures row == Released(old(row), owner)
    {
      if row.Some? && row.value.owner == owner {
        row := None;
      }
    }
  }

  // ------------------------------------------------------------------ runs of atomic calls

  datatype Op = Acquire(p: Pid, now: int) | Release(p: Pid)

  function Next(row: Option<LeaseRow>, op: Op, ttl: nat): Option<LeaseRow> {
    match op
    case Acquire(p, now) => WriteSeen(row, row, p, now, ttl).0
    case Release(p) => Released(row, p)
  }

  // The row before call n.
  function Before(row: Option<LeaseRow>, ops: seq<Op>, n: nat, ttl: nat): Option<LeaseRow>
    requires n <= |ops|
  {
    if n == 0 then row else Next(Before(row, ops, n - 1, ttl), ops[n - 1], ttl)
  }

  predicate Granted(row: Option<LeaseRow>, ops: seq<Op>, n: nat, ttl: nat)
    requires n < |ops|
  {
    ops[n].Acquire? && WriteSeen(Before(row, ops, n, ttl), Before(row, ops, n, ttl), ops[n].p, ops[n].now, ttl).1
  }

  // The clock the schedulers read never runs backwards, and the row is not dated after the first call.
  predicate ClockForward(row: Option<LeaseRow>, ops: seq<Op>) {
    && (forall i, j :: 0 <= i < j < |ops| && ops[i].Acquire? && ops[j].Acquire? ==> ops[i].now <= ops[j].now)
    && (forall i :: 0 <= i < |ops| && ops[i].Acquire? && row.Some? ==> row.value.heartbeatAt <= ops[i].now)
  }

  ghost predicate GivenUp(row: Option<LeaseRow>, ops: seq<Op>, i: nat, m: nat, p: Pid, ttl: nat)
    requires m <= |ops|
  {
    exists k ::
      i < k < m && ops[k] == Release(p) && Before(row, ops, k, ttl).Some? && Before(row, ops, k, ttl).value.owner == p
  }

  ghost predicate Outlived(ops: seq<Op>, i: nat, m: nat, limit: int)
    requires m <= |ops|
  {
    exists k :: i < k < m && ops[k].Acquire? && ops[k].now > limit
  }

  // From a granted call on: still the holder with a heartbeat no older, or released, or timed out.
  lemma {:induction false} Tenure(row: Option<LeaseRow>, ops: seq<Op>, i: nat, m: nat, ttl: nat)
    requires i < m <= |ops| && Granted(row, ops, i, ttl) && ClockForward(row, ops)
    ensures var p, t := ops[i].p, ops[i].now; var now := Before(row, ops, m, ttl);
      || (now.Some? && now.value.owner == p && now.value.heartbeatAt >= t)
      || GivenUp(row, ops, i, m, p, ttl)
      || Outlived(ops, i, m, t + ttl)
    decreases m
  {
    if m > i + 1 {
      Tenure(row, ops, i, m - 1, ttl);
      var p, t := ops[i].p, ops[i].now;
      var prior, op := Before(row, ops, m - 1, ttl), ops[m - 1];
      if GivenUp(row, ops, i, m - 1, p, ttl) {
        var k :| i < k < m - 1 && ops[k] == Release(p) && Before(row, ops, k, ttl).Some?
          && Before(row, ops, k, ttl).value.owner == p;
        assert GivenUp(row, ops, i, m, p, ttl);
      } else if Outlived(ops, i, m - 1, t + ttl) {
        var k :| i < k < m - 1 && ops[k].Acquire? && ops[k].now > t + ttl;
        assert Outlived(ops, i, m, t + ttl);
      } else if op.Acquire? && op.p != p && op.now - prior.value.heartbeatAt > ttl {
        assert Outlived(ops, i, m, t + ttl);
      } else if op == Release(p) {
        assert GivenUp(row, ops, i, m, p, ttl);
      }
    }
  }

  // Two different owners are both granted the lease only if more than the TTL passed in between or
  // the first one gave it up while it held it.
  lemma LeaseExclusion(row: Option<LeaseRow>, ops: seq<Op>, i: nat, j: nat, ttl: nat)
    requires i < j < |ops| && ClockForward(row, ops)
    requires Granted(row, ops, i, ttl) && Granted(row, ops, j, ttl) && ops[i].p != ops[j].p
    ensures ops[j].now - ops[i].now > ttl
         || exists k ::
           i < k < j && ops[k] == Release(ops[i].p) && Before(row, ops, k, ttl).Some?
           && Before(row, ops, k, ttl).value.owner == ops[i].p
  {
    Tenure(row, ops, i, j, ttl);
  }

  // While one row lives, its heartbeat only moves forward.
  lemma {:induction false} HeartbeatForward(row: Option<LeaseRow>, ops: seq<Op>, m: nat, n: nat, ttl: nat)
    requires m <= n <= |ops| && ClockForward(row, ops)
    requires forall k :: m <= k <= n ==> Before(row, ops, k, ttl).Some?
    ensures Before(row, ops, m, ttl).value.heartbeatAt <= Before(row, ops, n, ttl).value.heartbeatAt
    decreases n
  {
    if m < n {
      HeartbeatForward(row, ops, m, n - 1, ttl);
      if ops[n - 1].Acquire? { NotFromTheFuture(row, ops, n - 1, ttl); }
    }
  }

  lemma {:induction false} NotFromTheFuture(row: Option<LeaseRow>, ops: seq<Op>, n: nat, ttl: nat)
    requires n <= |ops| && ClockForward(row, ops)
    ensures Before(row, ops, n, ttl).Some? ==>
      forall k :: n <= k < |ops| && ops[k].Acquire? ==> Before(row, ops, n, ttl).value.heartbeatAt <= ops[k].now
  {
    if n > 0 { NotFromTheFuture(row, ops, n - 1, ttl); }
  }
}
