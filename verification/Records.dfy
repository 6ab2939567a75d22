// Row types of app/database/base.py that more than one component reads or writes.
module Records {

  datatype Option<+T> = None | Some(value: T)

  datatype Status =
    | New | Pending | Executed | Submitted | Rejected | RiskRejected | Failed
    | Duplicate | Abandoned | Retired | Closed | PartiallyClosed

  // ALLOWED_STATUSES of the execution layer and GUARD_CONFIRMED_STATUSES of the reconciler.
  predicate Accepted(s: Status) {
    s == Executed || s == Submitted
  }

  // MATCHABLE_STATUSES of the reconciler: the rows whose status it may overwrite.
  predicate Matchable(status: Status) {
    status == Executed || status == Submitted || status == Closed || status == PartiallyClosed || status == Failed
  }

  // The row's status column, its `executed` flag and its creation time.
  datatype SignalRow = SignalRow(status: Status, executed: bool, createdAt: int)

  // One execution_guards row; the table's key is the idempotency key.
  datatype GuardRow = GuardRow(signalId: string, status: Status, createdAt: int, orderTicket: Option<string>)

  // The single one_trade_authorization row.
  datatype Authorization = Missing | Row(consumed: bool)

  // What one gateway listing gives back: an empty tuple while the terminal is disconnected, None when
  // MT5 does not answer, the rows otherwise.
  datatype Listing<+T> = Disconnected | Unanswered | Listed(rows: seq<T>)

  // The value the caller sees; it cannot tell a disconnected terminal from an empty one.
  function Returned<T>(l: Listing<T>): Option<seq<T>> {
    match l
    case Disconnected => Some([])
    case Unanswered => None
    case Listed(rows) => Some(rows)
  }

  function Abs(x: real): real {
    if x < 0.0 then -x else x
  }

  function Max(x: real, y: real): real {
    if x >= y then x else y
  }

  // Python's `a or b` on optional values.
  function Or<T>(a: Option<T>, b: Option<T>): Option<T> {
    if a.Some? then a else b
  }
}
