/** The lease as the schedulers ship it: an acquire reads the row in one statement and writes it in
    another. It excludes like an atomic one as long as nothing changes the row in between. */
module SplitLease {
  import opened Records
  import opened Lease

  // The two halves of an acquire, and a release. A write acts on what its owner read last.
  datatype Event = Read(p: Pid, now: int) | Write(p: Pid) | GiveUp(p: Pid)

  // The last read of p before event n.
  function LastRead(events: seq<Event>, n: nat, p: Pid): (r: Option<nat>)
    requires n <= |events|
    ensures r.Some? ==> r.value < n && events[r.value].Read? && events[r.value].p == p
    ensures forall i :: 0 <= i < n && events[i].Read? && events[i].p == p ==> r.Some? && i <= r.value
  {
    if n == 0 then None
    else if events[n - 1].Read? && events[n - 1].p == p then Some(n - 1)
    else LastRead(events, n - 1, p)
  }

  // The row before event n.
  function RowAt(row: Option<LeaseRow>, events: seq<Event>, n: nat, ttl: nat): Option<LeaseRow>
    requires n <= |events|
    decreases n
  {
    if n == 0 then row
    else
      var before := RowAt(row, events, n - 1, ttl);
      match events[n - 1]
      case Read(_, _) => before
      case GiveUp(p) => Released(before, p)
      case Write(p) =>
        var i := LastRead(events, n - 1, p);
        if i.None? then before else WriteSeen(before, RowAt(row, events, i.value, ttl), p, events[i.value].now, ttl).0
  }

  // Event n is a write that makes its process the leader, on the read at i.
  predicate GrantedAt(row: Option<LeaseRow>, events: seq<Event>, i: nat, n: nat, ttl: nat)
    requires n < |events|
  {
    events[n].Write? && LastRead(events, n, events[n].p) == Some(i) && i < n &&
    WriteSeen(RowAt(row, events, n, ttl), RowAt(row, events, i, ttl), events[n].p, events[i].now, ttl).1
  }

  predicate Changes(row: Option<LeaseRow>, events: seq<Event>, k: nat, ttl: nat)
    requires k < |events|
  {
    RowAt(row, events, k + 1, ttl) != RowAt(row, events, k, ttl)
  }

  // No event between the read at i and the write at n changes the row.
  predicate Clean(row: Option<LeaseRow>, events: seq<Event>, i: nat, n: nat, ttl: nat)
    requires n < |events|
  {
    forall k :: i < k < n ==> !Changes(row, events, k, ttl)
  }

  // That holds for every acquire.
  predicate Undisturbed(row: Option<LeaseRow>, events: seq<Event>, ttl: nat) {
    forall n :: 0 <= n < |events| && events[n].Write? && LastRead(events, n, events[n].p).Some? ==>
      Clean(row, events, LastRead(events, n, events[n].p).value, n, ttl)
  }

  // The reads see a clock that never runs backwards.
  predicate ReadsForward(events: seq<Event>) {
    forall i, j :: 0 <= i < j < |events| && events[i].Read? && events[j].Read? ==> events[i].now <= events[j].now
  }

  lemma {:induction false} SameRow(row: Option<LeaseRow>, events: seq<Event>, i: nat, n: nat, k: nat, ttl: nat)
    requires i <= k <= n < |events| && events[i].Read? && events[n].Write?
      && LastRead(events, n, events[n].p) == Some(i)
    requires Undisturbed(row, events, ttl)
    ensures RowAt(row, events, k, ttl) == RowAt(row, events, i, ttl)
    decreases k
  {
    if k > i + 1 {
      SameRow(row, events, i, n, k - 1, ttl);
      assert !Changes(row, events, k - 1, ttl);
    }
  }

  // An undisturbed write decides on the row it writes to, like an atomic acquire at the time of its read.
  lemma WriteIsAtomic(row: Option<LeaseRow>, events: seq<Event>, i: nat, n: nat, ttl: nat)
    requires n < |events| && events[n].Write? && LastRead(events, n, events[n].p) == Some(i)
      && Undisturbed(row, events, ttl)
    ensures var now := RowAt(row, events, n, ttl);
      RowAt(row, events, n + 1, ttl) == WriteSeen(now, now, events[n].p, events[i].now, ttl).0
      && (GrantedAt(row, events, i, n, ttl) <==> WriteSeen(now, now, events[n].p, events[i].now, ttl).1)
  {
    SameRow(row, events, i, n, n, ttl);
  }

  // A write on a read later than the limit changes the row.
  predicate Takeover(row: Option<LeaseRow>, events: seq<Event>, k: nat, limit: int, ttl: nat)
    requires k < |events|
  {
    events[k].Write? && Changes(row, events, k, ttl) &&
    var i := LastRead(events, k, events[k].p);
    i.Some? && events[i.value].now > limit
  }

  // Somebody took the row over after it had timed out.
  ghost predicate TakenOver(row: Option<LeaseRow>, events: seq<Event>, n: nat, m: nat, limit: int, ttl: nat)
    requires m <= |events|
  {
    exists k :: n < k < m && Takeover(row, events, k, limit, ttl)
  }

  ghost predicate GaveUp(row: Option<LeaseRow>, events: seq<Event>, n: nat, m: nat, p: Pid, ttl: nat)
    requires m <= |events|
  {
    exists k ::
      n < k < m && events[k] == GiveUp(p) && RowAt(row, events, k, ttl).Some?
      && RowAt(row, events, k, ttl).value.owner == p
  }

  predicate Holds(row: Option<LeaseRow>, p: Pid, since: int) {
    row.Some? && row.value.owner == p && row.value.heartbeatAt >= since
  }

  lemma LaterRead(events: seq<Event>, n: nat, m: nat, p: Pid)
    requires n <= m <= |events| && LastRead(events, n, p).Some? && ReadsForward(events)
    ensures LastRead(events, m, p).Some?
      && events[LastRead(events, n, p).value].now <= events[LastRead(events, m, p).value].now
  {
    var i, j := LastRead(events, n, p).value, LastRead(events, m, p).value;
    if i < j { assert events[i].now <= events[j].now; }
  }

  lemma HolderStep(row: Option<LeaseRow>, events: seq<Event>, i: nat, n: nat, m: nat, ttl: nat)
    requires n < m < |events| && GrantedAt(row, events, i, n, ttl) && ReadsForward(events)
      && Undisturbed(row, events, ttl)
    requires Holds(RowAt(row, events, m, ttl), events[n].p, events[i].now)
    ensures Holds(RowAt(row, events, m + 1, ttl), events[n].p, events[i].now)
         || GaveUp(row, events, n, m + 1, events[n].p, ttl)
         || TakenOver(row, events, n, m + 1, events[i].now + ttl, ttl)
  {
    var p := events[n].p;
    match events[m]
    case Read(_, _) =>
    case GiveUp(q) => if q == p { assert GaveUp(row, events, n, m + 1, p, ttl); }
    case Write(q) =>
      var j := LastRead(events, m, q);
      if j.Some? {
        WriteIsAtomic(row, events, j.value, m, ttl);
        if q == p { LaterRead(events, n, m, p); }
        else if Takeover(row, events, m, events[i].now + ttl, ttl) {
          assert TakenOver(row, events, n, m + 1, events[i].now + ttl, ttl);
        }
      }
  }

  lemma GrantHolds(row: Option<LeaseRow>, events: seq<Event>, i: nat, n: nat, ttl: nat)
    requires n < |events| && GrantedAt(row, events, i, n, ttl) && Undisturbed(row, events, ttl)
    ensures Holds(RowAt(row, events, n + 1, ttl), events[n].p, events[i].now)
  {
    WriteIsAtomic(row, events, i, n, ttl);
  }

  lemma GaveUpStays(row: Option<LeaseRow>, events: seq<Event>, n: nat, m: nat, p: Pid, ttl: nat)
    requires m < |events| && GaveUp(row, events, n, m, p, ttl)
    ensures GaveUp(row, events, n, m + 1, p, ttl)
  {
  }

  lemma TakenOverStays(row: Option<LeaseRow>, events: seq<Event>, n: nat, m: nat, limit: int, ttl: nat)
    requires m < |events| && TakenOver(row, events, n, m, limit, ttl)
    ensures TakenOver(row, events, n, m + 1, limit, ttl)
  {
  }

  // From a grant on: still the holder, or released, or taken over after the time-out.
  ghost predicate Tenant(row: Option<LeaseRow>, events: seq<Event>, n: nat, m: nat, since: int, ttl: nat)
    requires n < m <= |events| && events[n].Write?
  {
    || Holds(RowAt(row, events, m, ttl), events[n].p, since)
    || GaveUp(row, events, n, m, events[n].p, ttl)
    || TakenOver(row, events, n, m, since + ttl, ttl)
  }

  lemma TenantStep(row: Option<LeaseRow>, events: seq<Event>, i: nat, n: nat, m: nat, ttl: nat)
    requires n < m < |events| && GrantedAt(row, events, i, n, ttl) && ReadsForward(events)
      && Undisturbed(row, events, ttl)
    requires Tenant(row, events, n, m, events[i].now, ttl)
    ensures Tenant(row, events, n, m + 1, events[i].now, ttl)
  {
    if GaveUp(row, events, n, m, events[n].p, ttl) { GaveUpStays(row, events, n, m, events[n].p, ttl); }
    else if TakenOver(row, events, n, m, events[i].now + ttl, ttl) {
      TakenOverStays(row, events, n, m, events[i].now + ttl, ttl);
    } else { HolderStep(row, events, i, n, m, ttl); }
  }

  lemma {:induction false} Tenancy(row: Option<LeaseRow>, events: seq<Event>, i: nat, n: nat, m: nat, ttl: nat)
    requires n < m <= |events| && GrantedAt(row, events, i, n, ttl) && ReadsForward(events)
      && Undisturbed(row, events, ttl)
    ensures Tenant(row, events, n, m, events[i].now, ttl)
    decreases m
  {
    if m == n + 1 {
      GrantHolds(row, events, i, n, ttl);
    } else {
      Tenancy(row, events, i, n, m - 1, ttl);
      TenantStep(row, events, i, n, m - 1, ttl);
    }
  }

  // A takeover that precedes an undisturbed write precedes its read.
  lemma TakeoverIsOlder(row: Option<LeaseRow>, events: seq<Event>, n: nat, j: nat, m: nat, limit: int, ttl: nat)
    requires m < |events| && events[m].Write? && LastRead(events, m, events[m].p) == Some(j)
    requires ReadsForward(events) && Undisturbed(row, events, ttl) && TakenOver(row, events, n, m, limit, ttl)
    ensures events[j].now > limit
  {
    var k :| n < k < m && Takeover(row, events, k, limit, ttl);
    var h := LastRead(events, k, events[k].p).value;
    assert Clean(row, events, j, m, ttl);
    assert !(j < k);
    assert h < j && events[h].now <= events[j].now;
  }

  lemma TimedOut(row: Option<LeaseRow>, events: seq<Event>, j: nat, m: nat, p: Pid, since: int, ttl: nat)
    requires m < |events| && GrantedAt(row, events, j, m, ttl) && Undisturbed(row, events, ttl)
    requires Holds(RowAt(row, events, m, ttl), p, since) && events[m].p != p
    ensures events[j].now - since > ttl
  {
    WriteIsAtomic(row, events, j, m, ttl);
  }

  // With undisturbed acquires and a forward clock, two different owners are both granted the lease only
  // if their reads are more than the TTL apart or the first one gave it up while it held it.
  lemma SplitExclusion(row: Option<LeaseRow>, events: seq<Event>, i: nat, n: nat, j: nat, m: nat, ttl: nat)
    requires n < m < |events| && ReadsForward(events) && Undisturbed(row, events, ttl)
    requires GrantedAt(row, events, i, n, ttl) && GrantedAt(row, events, j, m, ttl) && events[n].p != events[m].p
    ensures events[j].now - events[i].now > ttl || GaveUp(row, events, n, m, events[n].p, ttl)
  {
    Tenancy(row, events, i, n, m, ttl);
    if TakenOver(row, events, n, m, events[i].now + ttl, ttl) {
      TakeoverIsOlder(row, events, n, j, m, events[i].now + ttl, ttl);
    } else if Holds(RowAt(row, events, m, ttl), events[n].p, events[i].now) {
      TimedOut(row, events, j, m, events[n].p, events[i].now, ttl);
    }
  }
}
