/** app/news/mt5_calendar.py: the calendar bridge file, its validation, and the throttled provider.
    Instants are seconds. */
module Calendar {
  import opened Records

  datatype Impact = High | Medium | Low

  // A timestamp field: missing, not ISO-8601, or an instant.
  datatype Field = Absent | Garbled | At(instant: real)

  // `named` and `raw` are the levels of the two importance words, None an unknown word; the codes are integers.
  datatype Row =
    | NotAnObject
    | Row(currency: string, named: Option<Impact>, raw: Option<Impact>, code: Option<int>, typeCode: Option<int>,
          server: Field, utc: Field, valueId: Option<string>, eventId: Option<string>)

  datatype Rows = Missing | NotAList | List(rows: seq<Row>)

  // `offset` and `declared` are None when missing or not a number.
  datatype Payload =
    | NotAnObject
    | Bridge(statusOk: bool, generatedAt: Field, offset: Option<real>, serverTime: Field, rows: Rows,
      declared: Option<real>)

  datatype Id = ByValue(id: string) | ByEvent(event: string, server: real)
  datatype Event = Event(when: real, currency: string, impact: Impact, id: Id)
  datatype Reading = Reading(events: seq<Event>, generatedAt: real, offset: int, skew: Option<real>, highImpact: nat)
  datatype Error = Malformed | Stale | Unavailable
  datatype Parsed = Failure(error: Error) | Success(reading: Reading)

  datatype Config = Config(maxAge: real, tolerance: real, currencies: set<string>, readSeconds: real,
      retrySeconds: real, window: real, failClosed: bool)

  const MAX_OFFSET: int := 50400

  // ------------------------------------------------------------------ one file

  // Python's int() of a float.
  function Trunc(x: real): int {
    if x >= 0.0 then x.Floor else -((-x).Floor)
  }

  function ByCode(code: int): Option<Impact> {
    if code == 3 then Some(High) else if code == 2 then Some(Medium) else if code == 1 || code == 0 then Some(Low)
      else None
  }

  function ImportanceOf(row: Row): Option<Impact>
    requires row.Row?
  {
    if row.named.Some? then row.named
    else if row.raw.Some? then row.raw
    else if row.code.Some? then ByCode(row.code.value)
    else if row.typeCode.Some? then ByCode(row.typeCode.value)
    else None
  }

  datatype Verdict = Skip | Keep(event: Event) | Bad

  // The instant of a row: exported, or derived from the server's time.
  function When(row: Row, offset: int): real
    requires row.Row? && row.server.At?
  {
    if row.utc.At? then row.utc.instant else row.server.instant - offset as real
  }

  predicate Datable(row: Row, offset: int)
    requires row.Row?
  {
    row.server.At? && row.utc != Garbled && Abs(When(row, offset) - (row.server.instant - offset as real)) <= 1.0
  }

  function VerdictOf(row: Row, offset: int, currencies: set<string>): Verdict {
    if row.NotAnObject? then Bad
    else if row.currency !in currencies then Skip
    else if ImportanceOf(row).None? || !Datable(row, offset) || (row.valueId.None? && row.eventId.None?) then Bad
    else Keep(Event(When(row, offset), row.currency, ImportanceOf(row).value,
                    if row.valueId.Some? then ByValue(row.valueId.value)
                      else ByEvent(row.eventId.value, row.server.instant)))
  }

  // The events of the rows, in their order; None when a row is damaged.
  function EventsOf(rows: seq<Row>, offset: int, currencies: set<string>): Option<seq<Event>> {
    if rows == [] then Some([])
    else
      var before, last := EventsOf(rows[..|rows| - 1], offset, currencies),
        VerdictOf(rows[|rows| - 1], offset, currencies);
      if before.None? || last.Bad? then None
      else Some(if last.Keep? then before.value + [last.event] else before.value)
  }

  function HighCount(events: seq<Event>): nat {
    if events == [] then 0 else HighCount(events[..|events| - 1]) + if events[|events| - 1].impact == High then 1 else 0
  }

  function Skew(generatedAt: real, now: real, mtime: Option<real>): Option<real> {
    if mtime.None? then None else Some(Abs((now - mtime.value) - (now - generatedAt)))
  }

  // What is wrong before any row is looked at.
  function HeaderError(p: Payload, now: real, mtime: Option<real>, c: Config): Option<Error> {
    if p.NotAnObject? then Some(Malformed)
    else if !p.statusOk then Some(Unavailable)
    else if !p.generatedAt.At? then Some(Malformed)
    else
      var age, skew := now - p.generatedAt.instant, Skew(p.generatedAt.instant, now, mtime);
      if age > c.maxAge || age < -c.tolerance then Some(Stale)
      else if skew.Some? && skew.value > c.tolerance then Some(Unavailable)
      else if p.offset.None? || !SaneOffset(Trunc(p.offset.value)) || p.serverTime == Garbled then Some(Malformed)
      else if !p.rows.List? || p.declared.None? then Some(Malformed)
      else if Trunc(p.declared.value) != |p.rows.rows| then Some(Malformed)
      else if p.rows.rows == [] then Some(Unavailable)
      else None
  }

  predicate SaneOffset(offset: int) {
    -MAX_OFFSET <= offset <= MAX_OFFSET && offset % 60 == 0
  }

  function Parse(p: Payload, now: real, mtime: Option<real>, c: Config): Parsed {
    if HeaderError(p, now, mtime, c).Some? then Failure(HeaderError(p, now, mtime, c).value)
    else
      var events := EventsOf(p.rows.rows, Trunc(p.offset.value), c.currencies);
      if events.None? then Failure(Malformed)
      else if events.value == [] then Failure(Unavailable)
      else Success(Reading(events.value, p.generatedAt.instant, Trunc(p.offset.value),
        Skew(p.generatedAt.instant, now, mtime), HighCount(events.value)))
  }

  method ParseBridge(p: Payload, now: real, mtime: Option<real>, c: Config) returns (r: Parsed)
    ensures r == Parse(p, now, mtime, c)
  {
    if p.NotAnObject? {
      return Failure(Malformed);
    }
    if !p.statusOk {
      return Failure(Unavailable);
    }
    if !p.generatedAt.At? {
      return Failure(Malformed);
    }
    var age := now - p.generatedAt.instant;
    if age > c.maxAge || age < -c.tolerance {
      return Failure(Stale);
    }
    var skew := None;
    if mtime.Some? {
      skew := Some(Abs((now - mtime.value) - age));
      if skew.value > c.tolerance {
        return Failure(Unavailable);
      }
    }
    if p.offset.None? {
      return Failure(Malformed);
    }
    var offset := Trunc(p.offset.value);
    if !SaneOffset(offset) || p.serverTime == Garbled || !p.rows.List? || p.declared.None? {
      return Failure(Malformed);
    }
    if Trunc(p.declared.value) != |p.rows.rows| {
      return Failure(Malformed);
    }
    if p.rows.rows == [] {
      return Failure(Unavailable);
    }
    assert HeaderError(p, now, mtime, c).None?;
    var events := ReadRows(p.rows.rows, offset, c.currencies);
    if events.None? {
      return Failure(Malformed);
    }
    if events.value == [] {
      return Failure(Unavailable);
    }
    r := Success(Reading(events.value, p.generatedAt.instant, offset, skew, HighCount(events.value)));
  }

  // The loop over the rows: the first damaged row condemns the file.
  method ReadRows(rows: seq<Row>, offset: int, currencies: set<string>) returns (r: Option<seq<Event>>)
    ensures r == EventsOf(rows, offset, currencies)
  {
    var events, n := [], 0;
    while n < |rows|
      invariant 0 <= n <= |rows| && EventsOf(rows[..n], offset, currencies) == Some(events)
    {
      var row := rows[n];
      assert rows[..n + 1][..n] == rows[..n];
      ghost var verdict := VerdictOf(row, offset, currencies);
      if row.NotAnObject? {
        BadRow(rows, n, offset, currencies);
        return None;
      }
      if row.currency in currencies {
        var impact := ImportanceOf(row);
        if impact.None? || !Datable(row, offset) || (row.valueId.None? && row.eventId.None?) {
          BadRow(rows, n, offset, currencies);
          return None;
        }
        var id := if row.valueId.Some? then ByValue(row.valueId.value)
          else ByEvent(row.eventId.value, row.server.instant);
        events := events + [Event(When(row, offset), row.currency, impact.value, id)];
      }
      n := n + 1;
    }
    assert rows[..n] == rows;
    r := Some(events);
  }

  lemma {:induction false} BadRow(rows: seq<Row>, i: nat, offset: int, currencies: set<string>)
    requires i < |rows| && VerdictOf(rows[i], offset, currencies).Bad?
    ensures EventsOf(rows, offset, currencies) == None
  {
    if i < |rows| - 1 { BadRow(rows[..|rows| - 1], i, offset, currencies); }
  }

  // ------------------------------------------------------------------ what an accepted file guarantees

  function Skipped(rows: seq<Row>, currencies: set<string>): nat {
    if rows == [] then 0
    else
      var last := rows[|rows| - 1];
      Skipped(rows[..|rows| - 1], currencies) + if last.Row? && last.currency !in currencies then 1 else 0
  }

  predicate AllKept(rows: seq<Row>, offset: int, currencies: set<string>, events: seq<Event>) {
    forall i :: 0 <= i < |rows| ==> VerdictOf(rows[i], offset, currencies).Keep? ==>
      VerdictOf(rows[i], offset, currencies).event in events
  }

  predicate KeptFrom(e: Event, rows: seq<Row>, offset: int, currencies: set<string>) {
    exists i :: 0 <= i < |rows| && VerdictOf(rows[i], offset, currencies) == Keep(e)
  }

  lemma OneMoreRow(rows: seq<Row>, n: nat, offset: int, currencies: set<string>, before: seq<Event>)
    requires n == |rows| - 1 && AllKept(rows[..n], offset, currencies, before)
    requires forall e :: e in before ==> KeptFrom(e, rows[..n], offset, currencies)
    ensures var verdict := VerdictOf(rows[n], offset, currencies); var events := if verdict.Keep? then
      before + [verdict.event] else before;
      AllKept(rows, offset, currencies, events) && forall e :: e in events ==> KeptFrom(e, rows, offset, currencies)
  {
    var verdict := VerdictOf(rows[n], offset, currencies);
    var events := if verdict.Keep? then before + [verdict.event] else before;
    forall i | 0 <= i < |rows| && VerdictOf(rows[i], offset, currencies).Keep?
      ensures VerdictOf(rows[i], offset, currencies).event in events {
      if i < n { assert rows[..n][i] == rows[i]; }
    }
    forall e | e in events ensures KeptFrom(e, rows, offset, currencies) {
      if e in before {
        var i :| 0 <= i < n && VerdictOf(rows[..n][i], offset, currencies) == Keep(e);
        assert VerdictOf(rows[i], offset, currencies) == Keep(e);
      } else {
        assert VerdictOf(rows[n], offset, currencies) == Keep(e);
      }
    }
  }

  // Rows and events correspond: nothing in a traded currency is lost and nothing is invented.
  lemma {:induction false} EventsAreTheTradedRows(rows: seq<Row>, offset: int, currencies: set<string>)
    ensures var r := EventsOf(rows, offset, currencies);
      && (r.Some? <==> forall i :: 0 <= i < |rows| ==> !VerdictOf(rows[i], offset, currencies).Bad?)
      && (r.Some? ==> |r.value| + Skipped(rows, currencies) == |rows| && AllKept(rows, offset, currencies, r.value)
                      && forall e :: e in r.value ==> KeptFrom(e, rows, offset, currencies))
  {
    if rows != [] {
      var n := |rows| - 1;
      EventsAreTheTradedRows(rows[..n], offset, currencies);
      assert forall i :: 0 <= i < n ==> rows[..n][i] == rows[i];
      var before := EventsOf(rows[..n], offset, currencies);
      if before.Some? && !VerdictOf(rows[n], offset, currencies).Bad? {
        OneMoreRow(rows, n, offset, currencies, before.value);
      }
    }
  }

  // A usable bridge, in plain terms.
  predicate Usable(p: Payload, now: real, mtime: Option<real>, c: Config) {
    && p.Bridge? && p.statusOk && p.generatedAt.At?
    && -c.tolerance <= now - p.generatedAt.instant <= c.maxAge
    && (mtime.Some? ==> Abs(mtime.value - p.generatedAt.instant) <= c.tolerance)
    && p.offset.Some? && SaneOffset(Trunc(p.offset.value)) && p.serverTime != Garbled
    && p.rows.List? && p.declared.Some? && Trunc(p.declared.value) == |p.rows.rows|
    && (forall i :: 0 <= i < |p.rows.rows| ==> !VerdictOf(p.rows.rows[i], Trunc(p.offset.value), c.currencies).Bad?)
    && (exists i :: 0 <= i < |p.rows.rows| && VerdictOf(p.rows.rows[i], Trunc(p.offset.value), c.currencies).Keep?)
  }

  // A file is accepted exactly when it is usable; then kept and skipped rows add up to the declared
  // count, and every kept instant is within a second of the server's time less the offset.
  lemma AcceptedFile(p: Payload, now: real, mtime: Option<real>, c: Config)
    ensures Parse(p, now, mtime, c).Success? <==> Usable(p, now, mtime, c)
    ensures Parse(p, now, mtime, c).Success? ==>
      var reading := Parse(p, now, mtime, c).reading;
      && |reading.events| + Skipped(p.rows.rows, c.currencies) == Trunc(p.declared.value)
      && (forall e :: e in reading.events ==> FromRow(e, p.rows.rows, reading.offset))
  {
    if HeaderError(p, now, mtime, c).None? {
      EventsAreTheTradedRows(p.rows.rows, Trunc(p.offset.value), c.currencies);
      var rows, offset := p.rows.rows, Trunc(p.offset.value);
      if EventsOf(rows, offset, c.currencies).Some? { TradedRow(rows, offset, c.currencies); }
    }
  }

  predicate FromRow(e: Event, rows: seq<Row>, offset: int) {
    exists i :: 0 <= i < |rows| && rows[i].Row? && rows[i].currency == e.currency && rows[i].server.At?
                && Abs(e.when - (rows[i].server.instant - offset as real)) <= 1.0
  }

  lemma TradedRow(rows: seq<Row>, offset: int, currencies: set<string>)
    requires EventsOf(rows, offset, currencies).Some?
    ensures forall e :: e in EventsOf(rows, offset, currencies).value ==> FromRow(e, rows, offset)
    ensures EventsOf(rows, offset, currencies).value != [] <==> exists i ::
      0 <= i < |rows| && VerdictOf(rows[i], offset, currencies).Keep?
  {
    EventsAreTheTradedRows(rows, offset, currencies);
    var events := EventsOf(rows, offset, currencies).value;
    forall e | e in events ensures FromRow(e, rows, offset) {
      var i :| 0 <= i < |rows| && VerdictOf(rows[i], offset, currencies) == Keep(e);
    }
    if events != [] { assert events[0] in events; }
  }

  // ------------------------------------------------------------------ the provider

  // The file as one read finds it.
  datatype Content = NoFile | NotJson | Json(payload: Payload)
  datatype File = File(content: Content, mtime: Option<real>)

  function ReadFile(f: File, now: real, c: Config): Parsed {
    match f.content
    case NoFile => Failure(Unavailable)
    case NotJson => Failure(Malformed)
    case Json(p) => Parse(p, now, f.mtime, c)
  }

  datatype SnapshotState = NotAttempted | Fresh | StaleState | UnavailableState

  datatype Snapshot = Snapshot(
    events: seq<Event>, generatedAt: Option<real>, offset: Option<int>, skew: Option<real>, highImpact: nat,
    healthy: bool, state: SnapshotState, lastAttempt: Option<real>, lastSuccess: Option<real>)

  // What a read leaves behind, whatever was known before.
  function Attempted(s: Snapshot, f: File, now: real, c: Config): Snapshot {
    match ReadFile(f, now, c)
    case Failure(error) => s.(lastAttempt := Some(now), healthy := false, state := if error == Stale then StaleState
      else UnavailableState)
    case Success(r) => Snapshot(r.events, Some(r.generatedAt), Some(r.offset), r.skew, r.highImpact, true, Fresh,
      Some(now), Some(now))
  }

  predicate Due(s: Snapshot, now: real, c: Config) {
    s.lastAttempt.None? || now - s.lastAttempt.value >= if s.healthy then c.readSeconds else c.retrySeconds
  }

  function Refreshed(s: Snapshot, f: File, now: real, c: Config): Snapshot {
    if Due(s, now, c) then Attempted(s, f, now, c) else s
  }

  datatype Decision = Decision(allowed: bool, available: bool)

  predicate Blocks(e: Event, pair: set<string>, now: real, c: Config) {
    e.impact == High && e.currency in pair && Abs(e.when - now) <= c.window
  }

  // The gate's answer from a snapshot; `pair` is None for a symbol that cannot be mapped.
  function Answer(s: Snapshot, pair: Option<set<string>>, now: real, c: Config): Decision {
    if !s.healthy then Decision(!c.failClosed, false)
    else if s.generatedAt.None? || now - s.generatedAt.value > c.maxAge || pair.None? then Decision(!c.failClosed, true)
    else Decision(forall e :: e in s.events ==> !Blocks(e, pair.value, now, c), true)
  }

  class Mt5CalendarProvider {
    const config: Config
    var snapshot: Snapshot

    // `restored` are the cached events: evidence of an earlier read, never of a healthy provider.
    constructor (config: Config, restored: seq<Event>)
      ensures this.config == config
      ensures snapshot == Snapshot(restored, None, None, None, HighCount(restored), false, NotAttempted, None, None)
    {
      this.config := config;
      snapshot := Snapshot(restored, None, None, None, HighCount(restored), false, NotAttempted, None, None);
    }

    method Refresh(f: File, now: real)
      modifies this`snapshot
      ensures snapshot == Refreshed(old(snapshot), f, now, config)
    {
      if !Due(snapshot, now, config) {
        return;
      }
      snapshot := snapshot.(lastAttempt := Some(now));
      var parsed := Failure(Unavailable);
      match f.content {
        case NoFile =>
        case NotJson => parsed := Failure(Malformed);
        case Json(p) => parsed := ParseBridge(p, now, f.mtime, config);
      }
      if parsed.Failure? {
        Fail(parsed.error == Stale);
        return;
      }
      var r := parsed.reading;
      snapshot :=
        snapshot.(events := r.events, generatedAt := Some(r.generatedAt), offset := Some(r.offset), skew := r.skew,
        highImpact := r.highImpact);
      snapshot := snapshot.(healthy := true, state := Fresh, lastSuccess := Some(now));
    }

    method Fail(isStale: bool)
      modifies this`snapshot
      ensures snapshot == old(snapshot).(healthy := false, state := if isStale then StaleState else UnavailableState)
    {
      snapshot := snapshot.(healthy := false);
      snapshot := snapshot.(state := if isStale then StaleState else UnavailableState);
    }

    method Decide(pair: Option<set<string>>, f: File, now: real) returns (d: Decision)
      modifies this`snapshot
      ensures snapshot == Refreshed(old(snapshot), f, now, config) && d == Answer(snapshot, pair, now, config)
    {
      Refresh(f, now);
      if !snapshot.healthy {
        return Decision(!config.failClosed, false);
      }
      if snapshot.generatedAt.None? || now - snapshot.generatedAt.value > config.maxAge {
        return Decision(!config.failClosed, true);
      }
      if pair.None? {
        return Decision(!config.failClosed, true);
      }
      d := Decision(forall e :: e in snapshot.events ==> !Blocks(e, pair.value, now, config), true);
    }
  }

  // ------------------------------------------------------------------ the throttle refines the fresh read

  // The answer of a provider that reads the file at this very moment.
  function FreshAnswer(s: Snapshot, f: File, pair: Option<set<string>>, now: real, c: Config): Decision {
    Answer(Attempted(s, f, now, c), pair, now, c)
  }

  // The snapshot is what the last attempt left when the file was already `f`.
  ghost predicate Reflects(s: Snapshot, f: File, c: Config) {
    s.lastAttempt.Some? && exists before: Snapshot :: s == Attempted(before, f, s.lastAttempt.value, c)
  }

  // The clock skew does not depend on the moment of the read.
  lemma SkewIsTimeless(generatedAt: real, now: real, later: real, mtime: Option<real>)
    ensures Skew(generatedAt, now, mtime) == Skew(generatedAt, later, mtime)
  {
    if mtime.Some? {
      assert (now - mtime.value) - (now - generatedAt) == generatedAt - mtime.value;
      assert (later - mtime.value) - (later - generatedAt) == generatedAt - mtime.value;
    }
  }

  // Reading the same file later finds the same calendar, or finds it stale by age.
  lemma RereadIsTheSame(f: File, now: real, later: real, c: Config)
    requires now <= later && ReadFile(f, now, c).Success?
    ensures ReadFile(f, later, c) == if later - ReadFile(f, now, c).reading.generatedAt > c.maxAge then Failure(Stale)
      else ReadFile(f, now, c)
  {
    SkewIsTimeless(f.content.payload.generatedAt.instant, now, later, f.mtime);
  }

  // With a healthy snapshot of the same file the throttled answer to a fail-closed gate is the fresh one.
  lemma HealthyThrottleAgrees(s: Snapshot, f: File, pair: Option<set<string>>, now: real, c: Config)
    requires Reflects(s, f, c) && s.healthy && s.lastAttempt.value <= now && c.failClosed
    ensures Answer(s, pair, now, c).allowed == FreshAnswer(s, f, pair, now, c).allowed
  {
    RereadIsTheSame(f, s.lastAttempt.value, now, c);
  }

  // Every throttled allow is one that an immediate read of the bridge gives too.
  lemma ThrottledAllowIsFreshAllow(s: Snapshot, f: File, pair: Option<set<string>>, now: real, c: Config)
    requires Reflects(s, f, c) && s.lastAttempt.value <= now && c.failClosed
    requires Answer(Refreshed(s, f, now, c), pair, now, c).allowed
    ensures FreshAnswer(s, f, pair, now, c).allowed
  {
    if !Due(s, now, c) { HealthyThrottleAgrees(s, f, pair, now, c); }
  }

  // A sequence of decisions at these moments, over an unchanged file.
  function After(s: Snapshot, f: File, moments: seq<real>, c: Config): Snapshot {
    if moments == [] then s else Refreshed(After(s, f, moments[..|moments| - 1], c), f, moments[|moments| - 1], c)
  }

  predicate NonDecreasing(moments: seq<real>) {
    forall i, j :: 0 <= i < j < |moments| ==> moments[i] <= moments[j]
  }

  // Whatever the provider knew before, its first read of a file starts a stretch in which it reflects
  // that file, at every later moment, until the file changes.
  lemma {:induction false} StretchReflects(s: Snapshot, f: File, moments: seq<real>, c: Config)
    requires Reflects(s, f, c) && NonDecreasing(moments) && (moments != [] ==> s.lastAttempt.value <= moments[0])
    ensures var t := After(s, f, moments, c); Reflects(t, f, c) && t.lastAttempt.value <= if moments == [] then
      s.lastAttempt.value else moments[|moments| - 1]
  {
    if moments != [] {
      var n := |moments| - 1;
      StretchReflects(s, f, moments[..n], c);
      var before := After(s, f, moments[..n], c);
      if Due(before, moments[n], c) { assert Attempted(before, f, moments[n], c).lastAttempt == Some(moments[n]); }
    }
  }

  // So over any sequence of decisions on an unchanged file, a fail-closed allow is always a fresh allow.
  lemma RunAllowIsFreshAllow(s: Snapshot, f: File, moments: seq<real>, pair: Option<set<string>>, now: real, c: Config)
    requires Reflects(s, f, c) && NonDecreasing(moments + [now]) && s.lastAttempt.value <= (moments + [now])[0]
      && c.failClosed
    requires Answer(Refreshed(After(s, f, moments, c), f, now, c), pair, now, c).allowed
    ensures FreshAnswer(After(s, f, moments, c), f, pair, now, c).allowed
  {
    assert NonDecreasing(moments) by {
      forall i, j | 0 <= i < j < |moments| ensures moments[i] <= moments[j] {
        assert (moments + [now])[i] <= (moments + [now])[j];
      }
    }
    if moments != [] {
      assert (moments + [now])[0] == moments[0];
      assert (moments + [now])[|moments| - 1] <= (moments + [now])[|moments|];
    }
    StretchReflects(s, f, moments, c);
    ThrottledAllowIsFreshAllow(After(s, f, moments, c), f, pair, now, c);
  }

  // A high-impact row of a traded currency of the pair.
  predicate Relevant(row: Row, pair: set<string>, currencies: set<string>) {
    row.Row? && row.currency in currencies && row.currency in pair && ImportanceOf(row) == Some(High)
  }

  predicate Outside(row: Row, offset: int, now: real, window: real)
    requires row.Row?
  {
    row.server.At? && Abs(When(row, offset) - now) > window
  }

  // An allow of a fail-closed gate is a statement about the file: it is usable now, and no row of a
  // currency of the pair is a high-impact event inside the window.
  lemma FreshAllowMeansClear(s: Snapshot, f: File, pair: Option<set<string>>, now: real, c: Config)
    requires c.failClosed && FreshAnswer(s, f, pair, now, c).allowed
    ensures f.content.Json? && pair.Some? && Usable(f.content.payload, now, f.mtime, c)
    ensures var p := f.content.payload;
      forall row :: row in p.rows.rows && Relevant(row, pair.value, c.currencies) ==>
        Outside(row, Trunc(p.offset.value), now, c.window)
  {
    var p := f.content.payload;
    AcceptedFile(p, now, f.mtime, c);
    var events := Parse(p, now, f.mtime, c).reading.events;
    forall row | row in p.rows.rows && Relevant(row, pair.value, c.currencies)
      ensures Outside(row, Trunc(p.offset.value), now, c.window) {
      RelevantRowBlocks(p.rows.rows, row, Trunc(p.offset.value), pair.value, now, c, events);
    }
  }

  lemma RelevantRowBlocks(rows: seq<Row>, row: Row, offset: int, pair: set<string>, now: real, c: Config,
      events: seq<Event>)
    requires row in rows && Relevant(row, pair, c.currencies) && EventsOf(rows, offset, c.currencies) == Some(events)
    requires forall e :: e in events ==> !Blocks(e, pair, now, c)
    ensures Outside(row, offset, now, c.window)
  {
    EventsAreTheTradedRows(rows, offset, c.currencies);
    var i :| 0 <= i < |rows| && rows[i] == row;
    var verdict := VerdictOf(rows[i], offset, c.currencies);
    assert !verdict.Bad?;
    assert !Blocks(verdict.event, pair, now, c);
  }

  predicate RefusesWhereFreshAllows(s: Snapshot, f: File, pair: Option<set<string>>, now: real, c: Config) {
    !Answer(Refreshed(s, f, now, c), pair, now, c).allowed && FreshAnswer(s, f, pair, now, c).allowed
  }

  // A bridge whose clock runs half a second beyond the tolerance, with one harmless row.
  predicate Ahead(p: Payload, c: Config) {
    && c.failClosed && c.tolerance >= 0.0 && c.maxAge >= 1.0 && c.retrySeconds > 1.0 && "USD" in c.currencies
    && p == Bridge(true, At(c.tolerance + 0.5), Some(0.0), Absent,
      List([Row.Row("USD", Some(Low), None, None, None, At(0.0), Absent, Some("1"), None)]), Some(1.0))
  }

  lemma AheadIsSoonUsable(p: Payload, c: Config)
    requires Ahead(p, c)
    ensures Parse(p, 0.0, None, c) == Failure(Stale)
    ensures Parse(p, 1.0, None, c).Success? && Parse(p, 1.0, None, c).reading.generatedAt == c.tolerance + 0.5
    ensures forall e :: e in Parse(p, 1.0, None, c).reading.events ==> e.impact == Low
  {
    assert Trunc(0.0) == 0 && Trunc(1.0) == 1;
    assert Usable(p, 1.0, None, c) by { assert VerdictOf(p.rows.rows[0], 0, c.currencies).Keep?; }
    AcceptedFile(p, 1.0, None, c);
    var r := Parse(p, 1.0, None, c).reading;
    EventsAreTheTradedRows(p.rows.rows, 0, c.currencies);
    forall e | e in r.events ensures e.impact == Low {
      var i :| 0 <= i < |p.rows.rows| && VerdictOf(p.rows.rows[i], 0, c.currencies) == Keep(e);
    }
  }

  // An unhealthy snapshot only errs on the safe side, and it does err: a heartbeat too far in the
  // future is remembered as a failure until the retry, though a read now would allow.
  lemma ThrottleMayRefuse(c: Config, p: Payload)
    requires Ahead(p, c)
    ensures exists s ::
      Reflects(s, File(Json(p), None), c) && RefusesWhereFreshAllows(s, File(Json(p), None), Some({"USD"}), 1.0, c)
  {
    var f := File(Json(p), None);
    AheadIsSoonUsable(p, c);
    var before := Snapshot([], None, None, None, 0, false, NotAttempted, None, None);
    var s := Attempted(before, f, 0.0, c);
    assert Reflects(s, f, c);
    assert !s.healthy && !Due(s, 1.0, c);
    assert RefusesWhereFreshAllows(s, f, Some({"USD"}), 1.0, c);
  }
}
