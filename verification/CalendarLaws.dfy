/** What the calendar gate answers in terms of the bridge file: which files count, what each row becomes,
    and exactly when a decision allows, with either setting of fail-closed. */
module CalendarLaws {
  import opened Records
  import opened Calendar

  // ------------------------------------------------------------------ rows

  // MT5's importance codes.
  predicate CodeMeans(code: int, impact: Impact) {
    match impact
    case High => code == 3
    case Medium => code == 2
    case Low => code in {0, 1}
  }

  // The impact of a row: by its importance word, else by its raw word, else by its code, else by the code
  // of its type; the first of them that is there decides.
  predicate Ranked(row: Row, impact: Impact)
    requires row.Row?
  {
    if row.named.Some? then row.named.value == impact
    else if row.raw.Some? then row.raw.value == impact
    else if row.code.Some? then CodeMeans(row.code.value, impact)
    else row.typeCode.Some? && CodeMeans(row.typeCode.value, impact)
  }

  // The exported instant lies within a second of the server's time less the offset; without one, the
  // latter is the instant.
  predicate Dated(row: Row, offset: int, when: real)
    requires row.Row?
  {
    && row.server.At?
    && var derived := row.server.instant - offset as real;
      match row.utc
      case Garbled => false
      case Absent => when == derived
      case At(instant) => when == instant && -1.0 <= instant - derived <= 1.0
  }

  predicate Identified(row: Row, id: Id)
    requires row.Row?
  {
    if row.valueId.Some? then id == ByValue(row.valueId.value)
    else row.eventId.Some? && row.server.At? && id == ByEvent(row.eventId.value, row.server.instant)
  }

  // The event a row of a traded currency becomes.
  predicate Becomes(row: Row, offset: int, e: Event) {
    row.Row? && e.currency == row.currency && Ranked(row, e.impact) && Dated(row, offset, e.when)
      && Identified(row, e.id)
  }

  predicate Traded(row: Row, currencies: set<string>) {
    row.Row? && row.currency in currencies
  }

  lemma RankIs(row: Row, impact: Impact)
    requires row.Row?
    ensures Ranked(row, impact) <==> ImportanceOf(row) == Some(impact)
  {
  }

  lemma DateIs(row: Row, offset: int, when: real)
    requires row.Row?
    ensures Dated(row, offset, when) <==> Datable(row, offset) && When(row, offset) == when
  {
  }

  // A row of a traded currency is kept as the event it becomes; one that becomes none is damaged, as is
  // anything that is not an object; every other row is skipped.
  lemma VerdictIs(row: Row, offset: int, currencies: set<string>, e: Event)
    ensures VerdictOf(row, offset, currencies) == Keep(e) <==> Traded(row, currencies) && Becomes(row, offset, e)
    ensures VerdictOf(row, offset, currencies) == Skip <==> row.Row? && row.currency !in currencies
  {
    if row.Row? {
      RankIs(row, e.impact);
      DateIs(row, offset, e.when);
    }
  }

  lemma BadIs(row: Row, offset: int, currencies: set<string>)
    ensures VerdictOf(row, offset, currencies).Bad? <==>
      row.NotAnObject? || (Traded(row, currencies) && forall e :: !Becomes(row, offset, e))
  {
    var v := VerdictOf(row, offset, currencies);
    if v.Keep? { VerdictIs(row, offset, currencies, v.event); }
    forall e ensures Becomes(row, offset, e) && Traded(row, currencies) ==> v == Keep(e) {
      VerdictIs(row, offset, currencies, e);
    }
  }

  // ------------------------------------------------------------------ files

  // Status, age, clock and header of a usable bridge.
  predicate HeaderHolds(p: Payload, now: real, mtime: Option<real>, c: Config) {
    && p.Bridge? && p.statusOk && p.generatedAt.At?
    && now - c.maxAge <= p.generatedAt.instant <= now + c.tolerance
    && (mtime.Some? ==> -c.tolerance <= mtime.value - p.generatedAt.instant <= c.tolerance)
    && p.offset.Some? && -50400 <= Trunc(p.offset.value) <= 50400 && Trunc(p.offset.value) % 60 == 0
    && p.serverTime != Garbled && p.rows.List? && p.declared.Some? && Trunc(p.declared.value) == |p.rows.rows|
  }

  // Each row is an object, each traded one becomes an event, and there is one.
  ghost predicate RowsHold(rows: seq<Row>, offset: int, currencies: set<string>) {
    && (forall i :: 0 <= i < |rows| ==> rows[i].Row?)
    && (forall i :: 0 <= i < |rows| && Traded(rows[i], currencies) ==> exists e :: Becomes(rows[i], offset, e))
    && (exists i :: 0 <= i < |rows| && Traded(rows[i], currencies))
  }

  // Python's int() drops the fraction.
  lemma TruncIs(x: real, n: int)
    ensures Trunc(x) == n <==>
      if x >= 0.0 then n as real <= x < (n + 1) as real else (n - 1) as real < x <= n as real
  {
  }

  ghost predicate Holds(p: Payload, now: real, mtime: Option<real>, c: Config) {
    HeaderHolds(p, now, mtime, c) && RowsHold(p.rows.rows, Trunc(p.offset.value), c.currencies)
  }

  lemma RowsAre(rows: seq<Row>, offset: int, currencies: set<string>)
    ensures RowsHold(rows, offset, currencies) <==>
      (forall i :: 0 <= i < |rows| ==> !VerdictOf(rows[i], offset, currencies).Bad?)
        && exists i :: 0 <= i < |rows| && VerdictOf(rows[i], offset, currencies).Keep?
  {
    forall i | 0 <= i < |rows|
      ensures VerdictOf(rows[i], offset, currencies).Bad? <==>
        !rows[i].Row? || (Traded(rows[i], currencies) && forall e :: !Becomes(rows[i], offset, e))
    {
      BadIs(rows[i], offset, currencies);
    }
    forall i | 0 <= i < |rows| && !VerdictOf(rows[i], offset, currencies).Bad?
      ensures VerdictOf(rows[i], offset, currencies).Keep? <==> Traded(rows[i], currencies)
    {
    }
  }

  lemma UsableIs(p: Payload, now: real, mtime: Option<real>, c: Config)
    ensures Usable(p, now, mtime, c) <==> Holds(p, now, mtime, c)
  {
    if p.Bridge? && p.rows.List? && p.offset.Some? {
      RowsAre(p.rows.rows, Trunc(p.offset.value), c.currencies);
    }
  }

  // The events of an accepted file are exactly what its rows of traded currencies become.
  lemma AcceptedEvents(p: Payload, now: real, mtime: Option<real>, c: Config)
    ensures Parse(p, now, mtime, c).Success? <==> Holds(p, now, mtime, c)
    ensures Parse(p, now, mtime, c).Success? ==>
      var r := Parse(p, now, mtime, c).reading;
      && r.generatedAt == p.generatedAt.instant && r.offset == Trunc(p.offset.value)
      && forall e :: e in r.events <==>
           exists i :: 0 <= i < |p.rows.rows| && Traded(p.rows.rows[i], c.currencies)
             && Becomes(p.rows.rows[i], r.offset, e)
  {
    AcceptedFile(p, now, mtime, c);
    UsableIs(p, now, mtime, c);
    if Parse(p, now, mtime, c).Success? {
      var rows, offset := p.rows.rows, Trunc(p.offset.value);
      EventsAreTheTradedRows(rows, offset, c.currencies);
      EventsFrom(rows, offset, c.currencies, Parse(p, now, mtime, c).reading.events);
    }
  }

  lemma EventsFrom(rows: seq<Row>, offset: int, currencies: set<string>, events: seq<Event>)
    requires AllKept(rows, offset, currencies, events)
    requires forall e :: e in events ==> KeptFrom(e, rows, offset, currencies)
    ensures forall e :: e in events <==>
      exists i :: 0 <= i < |rows| && Traded(rows[i], currencies) && Becomes(rows[i], offset, e)
  {
    forall e ensures e in events <==>
      exists i :: 0 <= i < |rows| && Traded(rows[i], currencies) && Becomes(rows[i], offset, e)
    {
      forall i | 0 <= i < |rows|
        ensures VerdictOf(rows[i], offset, currencies) == Keep(e) <==>
          Traded(rows[i], currencies) && Becomes(rows[i], offset, e)
      {
        VerdictIs(rows[i], offset, currencies, e);
      }
      if e in events {
        var i :| 0 <= i < |rows| && VerdictOf(rows[i], offset, currencies) == Keep(e);
        assert Traded(rows[i], currencies) && Becomes(rows[i], offset, e);
      }
    }
  }

  // The snapshot's count of high-impact events, one event at a time.
  lemma HighCountGrows(events: seq<Event>, e: Event)
    ensures HighCount([]) == 0
    ensures HighCount(events + [e]) == HighCount(events) + match e.impact case High => 1 case _ => 0
  {
    assert (events + [e])[..|events|] == events;
  }

  // ------------------------------------------------------------------ why a file is refused

  // Dated too long ago, or too far ahead of the clock.
  predicate OffAge(p: Payload, now: real, c: Config) {
    p.Bridge? && p.statusOk && p.generatedAt.At?
      && (p.generatedAt.instant < now - c.maxAge || p.generatedAt.instant > now + c.tolerance)
  }

  // The bridge's own clock and the file's time differ by more than the tolerance.
  predicate OffClock(p: Payload, mtime: Option<real>, c: Config) {
    p.Bridge? && p.generatedAt.At? && mtime.Some?
      && (mtime.value - p.generatedAt.instant > c.tolerance || mtime.value - p.generatedAt.instant < -c.tolerance)
  }

  // A sound file without a single row of a traded currency.
  ghost predicate NothingTraded(p: Payload, now: real, mtime: Option<real>, c: Config) {
    HeaderHolds(p, now, mtime, c)
      && forall i :: 0 <= i < |p.rows.rows| ==> p.rows.rows[i].Row? && !Traded(p.rows.rows[i], c.currencies)
  }

  // Stale by age alone; unavailable when the bridge says so, its clock is off, or nothing is traded;
  // malformed in every other case.
  lemma RefusalIs(p: Payload, now: real, mtime: Option<real>, c: Config)
    ensures Parse(p, now, mtime, c) == Failure(Stale) <==> OffAge(p, now, c)
    ensures Parse(p, now, mtime, c) == Failure(Unavailable) <==>
      (p.Bridge? && !p.statusOk)
        || (p.Bridge? && p.generatedAt.At? && !OffAge(p, now, c) && OffClock(p, mtime, c))
        || NothingTraded(p, now, mtime, c)
  {
    if HeaderError(p, now, mtime, c).None? {
      var rows, offset := p.rows.rows, Trunc(p.offset.value);
      EventsAreTheTradedRows(rows, offset, c.currencies);
      if EventsOf(rows, offset, c.currencies).Some? { TradedRow(rows, offset, c.currencies); }
      NothingKept(rows, offset, c.currencies);
    }
  }

  lemma NothingKept(rows: seq<Row>, offset: int, currencies: set<string>)
    ensures (forall i :: 0 <= i < |rows| ==> VerdictOf(rows[i], offset, currencies) == Skip) <==>
      forall i :: 0 <= i < |rows| ==> rows[i].Row? && !Traded(rows[i], currencies)
  {
  }

  // A failed read keeps the events of the last good one and marks the snapshot; a good one replaces all.
  lemma SnapshotAfterRead(s: Snapshot, f: File, now: real, c: Config)
    ensures var t := Attempted(s, f, now, c);
      && t.lastAttempt == Some(now)
      && (t.healthy <==> f.content.Json? && Holds(f.content.payload, now, f.mtime, c))
      && (t.healthy ==> t.state == Fresh && t.lastSuccess == Some(now) && t.highImpact == HighCount(t.events))
      && (t.healthy ==> t.generatedAt == Some(f.content.payload.generatedAt.instant))
      && (!t.healthy ==> t.events == s.events && t.lastSuccess == s.lastSuccess && t.generatedAt == s.generatedAt)
      && (!t.healthy ==>
        t.state == if f.content.Json? && OffAge(f.content.payload, now, c) then StaleState else UnavailableState)
  {
    if f.content.Json? {
      AcceptedEvents(f.content.payload, now, f.mtime, c);
      RefusalIs(f.content.payload, now, f.mtime, c);
    }
  }

  // ------------------------------------------------------------------ decisions

  // A file is read again exactly when none was, or the interval since the last attempt is over: the
  // reading interval after a success, the retry interval after a failure.
  lemma ReadAgainIff(s: Snapshot, f: File, now: real, c: Config)
    requires s.lastAttempt != Some(now)
    ensures Refreshed(s, f, now, c).lastAttempt == Some(now) <==>
      s.lastAttempt.None? || now >= s.lastAttempt.value + if s.healthy then c.readSeconds else c.retrySeconds
    ensures Refreshed(s, f, now, c).lastAttempt != Some(now) ==> Refreshed(s, f, now, c) == s
  {
  }

  // A row of the file announces a high-impact event of the pair inside the window.
  ghost predicate Announces(row: Row, offset: int, pair: set<string>, now: real, c: Config) {
    && Traded(row, c.currencies) && row.currency in pair && Ranked(row, High)
    && exists e :: Becomes(row, offset, e) && now - c.window <= e.when <= now + c.window
  }

  ghost predicate Clear(p: Payload, pair: set<string>, now: real, c: Config)
    requires p.Bridge? && p.rows.List? && p.offset.Some?
  {
    forall i :: 0 <= i < |p.rows.rows| ==> !Announces(p.rows.rows[i], Trunc(p.offset.value), pair, now, c)
  }

  // With a usable file and a known pair a decision allows exactly when no row announces a high-impact
  // event of the pair inside the window; without them it allows exactly when the gate is not fail-closed.
  lemma FreshAllowIff(s: Snapshot, f: File, pair: Option<set<string>>, now: real, c: Config)
    ensures var d := FreshAnswer(s, f, pair, now, c);
      && (d.available <==> f.content.Json? && Holds(f.content.payload, now, f.mtime, c))
      && (d.allowed <==>
            if d.available && pair.Some? then Clear(f.content.payload, pair.value, now, c) else !c.failClosed)
  {
    if f.content.Json? {
      var p := f.content.payload;
      AcceptedEvents(p, now, f.mtime, c);
      if Holds(p, now, f.mtime, c) && pair.Some? {
        ClearIs(p, pair.value, now, c, Parse(p, now, f.mtime, c).reading.events);
      }
    }
  }

  lemma ClearIs(p: Payload, pair: set<string>, now: real, c: Config, events: seq<Event>)
    requires p.Bridge? && p.rows.List? && p.offset.Some?
    requires forall e :: e in events <==>
      exists i :: 0 <= i < |p.rows.rows| && Traded(p.rows.rows[i], c.currencies)
        && Becomes(p.rows.rows[i], Trunc(p.offset.value), e)
    ensures (forall e :: e in events ==> !Blocks(e, pair, now, c)) <==> Clear(p, pair, now, c)
  {
    var rows, offset := p.rows.rows, Trunc(p.offset.value);
    if Clear(p, pair, now, c) {
      forall e | e in events ensures !Blocks(e, pair, now, c) {
        var i :| 0 <= i < |rows| && Traded(rows[i], c.currencies) && Becomes(rows[i], offset, e);
        assert !Announces(rows[i], offset, pair, now, c);
      }
    }
    forall i | 0 <= i < |rows| && Announces(rows[i], offset, pair, now, c)
      ensures exists e :: e in events && Blocks(e, pair, now, c)
    {
      AnnouncementBlocks(rows[i], offset, pair, now, c);
    }
  }

  lemma AnnouncementBlocks(row: Row, offset: int, pair: set<string>, now: real, c: Config)
    requires Announces(row, offset, pair, now, c)
    ensures exists e :: Becomes(row, offset, e) && Blocks(e, pair, now, c)
  {
    var e :| Becomes(row, offset, e) && now - c.window <= e.when <= now + c.window;
    OneRank(row, e.impact, High);
  }

  lemma OneRank(row: Row, a: Impact, b: Impact)
    requires row.Row? && Ranked(row, a) && Ranked(row, b)
    ensures a == b
  {
  }
}
