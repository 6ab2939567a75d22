# A verified model of the order path

This project models the part of the trading system that decides whether money moves: the execution
service and the scheduler's candidate step as a protocol of many processes over one database, the
reconciler, the persisted risk state, the pre-trade gate, sizing and brackets, the protection of a
filled position, the calendar gate, the trailing stop and the reported drawdown. `dafny verify
dfyconfig.toml` checks everything.

Money, prices and lots are exact reals; instants are whole seconds (reals in the calendar). Code that
updates rows or objects step by step is a class with those fields and methods; each method is proved
equal to a specification function of the old state, and the properties are lemmas about that function,
over all inputs and over all runs. Expressions are functions.

| file | models |
|---|---|
| `Records.dfy` | the row types several components share |
| `Lease.dfy`, `SplitLease.dfy` | the market-loop lease and its exclusion, with atomic acquires and with acquires in two statements |
| `OrderFence.dfy` | the protocol: any number of processes, every commit and broker call one step, crashes anywhere |
| `FenceKeys.dfy`, `FenceRetirement.dfy` | the fence for callers that derive the key from the trade; the reconciler's guard loop as a run of the protocol |
| `Execution.dfy` | `ExecutionService.submit` as one process runs it, and its embedding in the protocol |
| `RiskState.dfy` | `RiskStateStore`: day rows, inheritance, latches, counters, the one-trade authorization |
| `Grouping.dfy`, `GroupingLaws.dfy` | broker deals to positions; conservation, partition, feed order |
| `PositionLaws.dfy` | what each field of a grouped position says of its own deals |
| `Matching.dfy`, `MatchLaws.dfy` | trades against positions, tickets first; injection, complement, maximality; which position each trade gets |
| `Reconciliation.dfy`, `Bookkeeping.dfy`, `ReconcilerRun.dfy` | the rows and day totals a run writes; idempotence; P/L over any sequence of runs; guard retirement |
| `RowLaws.dfy` | what one application leaves in each column of a trade's row and in the day rows |
| `Sizing.dfy`, `VolumeRounding.dfy` | volumes from a loss budget; when a normalized volume is its own normalization |
| `Bracket.dfy` | stop validation, re-anchored levels, the request |
| `RiskGate.dfy`, `GateConditions.dfy`, `GateLaws.dfy` | `RiskEngine.assess`; exactly when it approves; what an approval means and how long a refusal lasts |
| `Session.dfy` | a session of one process: trade count and session loss over every run |
| `LostUpdates.dfy` | the day's count and P/L when several processes load and commit them at once |
| `Protection.dfy` | the read-back, repair and close after a fill, against a broker that may answer anything |
| `Calendar.dfy`, `CalendarLaws.dfy` | the bridge file, the throttled provider, its agreement with a fresh read; exactly when a decision allows |
| `Trailing.dfy` | the trailing stop over any observations |
| `Drawdown.dfy`, `Summaries.dfy` | the two drawdown computations; group summaries |

Results worth knowing before reading on:

* The broker sees at most one `order_send` per idempotency key, and live sends never outnumber one plus
  the manual re-authorizations. Neither proof uses the lease. The lease excludes two owners when an acquire
  is atomic, and as shipped when nothing changes the row between an acquire's read and its write
  (`SplitLease.SplitExclusion`); otherwise two processes can both believe they lead
  (`OrderFence.SplitAcquireAdmitsTwoLeaders`).
* `trade_id` alone does not stop a second send (`OrderFence.TradeIdAloneIsNoFence`); it does when the callers
  derive the key from it (`FenceKeys.AtMostOneSendPerTrade`). A guard that reconciliation RETIRED can still
  be followed by its one send (`OrderFence.RetiredGuardMayStillSend`); a guarded key can still be sent
  exactly while some process holds its reservation.
* The reconciler's module text promises to leave the guards alone when MT5 cannot be read. The gateway
  answers a disconnected terminal with empty tuples, which the code does not tell from an empty broker: then
  every stale PENDING guard without an accepted trade is retired and its NEW signal abandoned
  (`ReconcilerRun.DisconnectedTerminalRetires`; `ReconcilerRun.RetiredIff` says exactly which guards).
* Costs written to a trade while its position is open are never booked, so "booked = sum of net P/L" is
  false; the shortfall is exactly what was written open (`Bookkeeping.OpenNetIsNeverBooked`; two deals for
  which the day rows hold five where the trade's net is four: `Bookkeeping.OpeningCostIsNeverBooked`).
* Deal numbers, order numbers and position ids share one ticket table. Where each position's own deal leads
  back to it, runs repeat exactly when no position's id is a ticket of another position
  (`Reconciliation.IdempotentIff`); otherwise the second run rewrites a trade with another position's money
  (`Reconciliation.SharedTicketBreaksIdempotence`).
* A normalized volume normalizes to itself exactly when the rounding to eight decimals keeps its steps
  (`VolumeRounding.NormalizedAgainIff`). From 1e-8 up to 1.25 lots a step is safe for every volume and bound
  exactly when it is a multiple of 1e-8 lots (`VolumeRounding.OrdinaryStepIff`); steps of at most half of
  1e-8 lots and steps of five lots and more are always safe.
* A strategy stop on the wrong side of its own entry is mirrored to the right side and traded
  (`Bracket.WrongSidedStopIsMirrored`).
* Every candidate of one scan is judged with the number of open positions the scan began with, so one scan
  can open two positions where one is allowed (`Session.OneScanMayOpenTwo`). An order the broker answers as
  PLACED is accepted and counted but is no position yet, so a next scan can let a second one through as well
  (`Session.PendingOrderMayOpenTwo`). The session-loss bound is therefore stated for k acceptances a scan and
  p positions a scan misses (`Session.SessionLossIsBounded`). With one position allowed, "less than the
  session limit and one trade's limit" holds exactly when no accepted order is pending at a scan and a scan
  yields at most one candidate (`Session.OneTradeBoundByCandidatesIff`), or none at all. The operator decides
  the second half: a scan yields at most one candidate with the ensemble or with a single enabled strategy.
* Two processes that book on one day at once can lose updates: the trade count is exact if and only if no
  load and commit overlaps another commit, and otherwise short by at most one for each overlap
  (`LostUpdates.CountIsExactIffNothingOverlaps`); the booked P/L is off by at most one largest amount for each
  (`LostUpdates.LossIsBoundedByOverlaps`).
* The comment in `_find_position` says its fallback cannot pick a position of another order. It can, at the
  first read (`Protection.FirstReadMayHitAnother`) and at the second
  (`Protection.SecondReadMayHitAnother`); `Protection.CallsHitTheOrderIff` says exactly when every
  modification and close carries the order's ticket.
* The calendar module's own text refuses a heartbeat in the future; the code accepts one up to the clock
  tolerance, and the model follows the code.
* The break-even move is the last one a stop ever makes: at the open price there is no risk left to
  measure progress by (`Trailing.BreakEvenEndsTheTrail`).

## Model

| member | source | states |
|---|---|---|
| `Lease.SchedulerLock.AcquireDbLock` | app/services/scheduler.py:697-727 | as one atomic step, the lease is granted exactly when the row is absent, the caller's own or older than the TTL; a grant leaves one row of the caller with a fresh heartbeat, acquired now unless it was the caller's already, a refusal leaves the row alone |
| `Lease.SchedulerLock.ReleaseDbLock` | app/services/scheduler.py:729-738 | only the owner's row is deleted |
| `Lease.LeaseExclusion` | app/services/scheduler.py:697-738 | over any atomic calls with a forward clock, grants to two owners are more than the TTL apart or separated by a release by the holder |
| `Lease.HeartbeatForward` | app/services/scheduler.py:715-727 | while one row lives its heartbeat never goes back |
| `SplitLease.WriteIsAtomic` | app/services/scheduler.py:697-727 | a write with no change of the row since its read decides and writes like an atomic acquire at the time of the read |
| `SplitLease.SplitExclusion` | app/services/scheduler.py:697-738 | for acquires read and written in two statements, with no change of the row in between and a forward clock: grants to two owners have reads more than the TTL apart, or the first owner released while it held |
| `OrderFence.AtMostOneSendPerKey` | app/execution/service.py:100-171 | in every interleaving of any number of processes, with crashes between any two commits, stale-signal retries and guard retirement, no key reaches the broker twice |
| `OrderFence.GuardsAreNeverRemoved` | app/services/reconciliation.py:342-371 | every schedule keeps every guard row and only appends to the history |
| `OrderFence.GuardBeforeSend` | app/execution/service.py:258-267 | each send follows the only insertion of its key's guard, by the same process |
| `OrderFence.LiveSendOwnsItsGrant` | app/risk/state.py:167-184 | each live send owns an earlier winning consume of its own process and key, and no two sends own the same one |
| `OrderFence.LiveSendsAreAuthorized` | app/risk/state.py:143-199 | live sends <= winning consumes <= 1 + re-authorizations, over every run |
| `OrderFence.NoTradeIsInvented` | app/execution/service.py:269-296 | a trade row that claims contact with the broker is backed by a send of that trade |
| `OrderFence.GuardedKeySendsIffHeld` | app/execution/service.py:147-157 | from any state, some continuation sends a guarded key exactly when a process is between its reservation and its send |
| `OrderFence.RetiredGuardMayStillSend` | app/services/reconciliation.py:342-371 | a reachable state in which a RETIRED guard's holder has yet to send |
| `OrderFence.TradeIdAloneIsNoFence` | app/execution/service.py:103-110 | two callers with one trade_id and two keys both reach the broker |
| `FenceKeys.AtMostOneSendPerTrade` | app/execution/service.py:87-110 | when one trade always comes with one key, no trade reaches the broker twice, in every schedule |
| `OrderFence.SplitAcquireAdmitsTwoLeaders` | app/services/scheduler.py:697-727 | with the read and the write of the acquire apart, two processes both lead |
| `OrderFence.InvStep` | app/execution/service.py:100-171 | every single step keeps the ownership, history and credit invariant |
| `OrderFence.TakenUpIff` | app/services/scheduler.py:535-538 | a free process takes a signal up exactly when it is unrecorded, or NEW, not executed and older than the staleness limit |
| `OrderFence.ExecutedIsNeverTakenUp` | app/services/scheduler.py:628-632 | over every schedule, an executed signal stays executed and is never taken up again |
| `OrderFence.RecordedAs` | app/services/scheduler.py:608-626 | a new signal is recorded as NEW, dated by its candle; a recorded one is taken up as it is; one that appeared meanwhile ends the turn |
| `OrderFence.JudgedAs` | app/services/scheduler.py:540-579 | a candidate is submitted exactly when the gate approved it and neither a trade nor a guard of it exists; otherwise its signal is REJECTED for want of a bracket and RISK_REJECTED in every other case |
| `OrderFence.CompletedAs` | app/services/scheduler.py:579-586 | after a call a signal that is still NEW takes the result's status and any other keeps its own |
| `OrderFence.SettledIff` | app/services/reconciliation.py:342-366 | a guard is settled exactly when it is PENDING, old enough, and confirmed by an accepted trade or without a broker record |
| `OrderFence.RewrittenAs` | app/services/reconciliation.py:300-302 | reconciliation moves a trade that may have reached the broker to CLOSED or PARTIALLY_CLOSED and no other |
| `Execution.ExecutionService.Submit` | app/execution/service.py:100-171 | the new tables, history and result of one call are those of the specification, branch by branch |
| `Execution.ExecutionService.ReserveAuthorization` | app/execution/service.py:237-256 | the caller may send only if it flipped the flag; a lost or unreadable reply refuses |
| `Execution.ExecutionService.ReserveGuard` | app/execution/service.py:258-267 | the guard is owned exactly when the key was absent |
| `Execution.ExecutionService.Finish` | app/execution/service.py:269-296 | guard, trade and signal record the broker's answer together |
| `Execution.ExecutionService.SyncSignal` | app/execution/service.py:407-424 | the signal follows the outcome and never un-executes |
| `Execution.SubmitSendsIff` | app/execution/service.py:100-171 | a call reaches the broker exactly when no row of its intent exists, every check passes and, live, it wins the authorization; otherwise nothing is sent and no guard is written |
| `Execution.AnswerIsRecorded` | app/execution/service.py:152-171 | after a send, trade, guard, signal and result are all EXECUTED exactly for a filled order, SUBMITTED for a pending one, REJECTED for a refused one, FAILED for one whose fate is unknown; the signal counts as executed exactly when it did before or the order was filled or is pending; no other row moves |
| `Execution.RefusalIsRecorded` | app/execution/service.py:112-145 | a call refused before the send leaves REJECTED in trade, signal and result and no guard; the authorization is spent exactly when it was already, or its winning reply was lost |
| `Execution.SubmitIsARun` | app/execution/service.py:100-171 | one uninterrupted call is a schedule of the protocol moved by its own process only |
| `FenceRetirement.RetirementIsARun` | app/services/reconciliation.py:342-371 | one pass of the guard loop is a schedule of the protocol moved by its own process only, up to the order tickets the protocol does not follow |
| `RiskState.RiskStateStore.Load` | app/risk/state.py:50-69 | the day's row, materialised from the latest one when absent |
| `RiskState.RiskStateStore.AddRealizedPnl` | app/risk/state.py:79-84 | the whole table after the booking |
| `RiskState.RiskStateStore.ObserveEquity` | app/risk/state.py:86-95 | first equity is the start, the greatest the peak; None changes no value |
| `RiskState.RiskStateStore.RegisterTradeOpened` | app/risk/state.py:97-103 | the whole table with the day's count one higher |
| `RiskState.RiskStateStore.SetEmergencyLocked` | app/risk/state.py:108-113 | the whole table with the day's lock as given |
| `RiskState.RiskStateStore.SetKillSwitch` | app/risk/state.py:115-129 | the whole table with the day's reason as given, unwritten when it already is |
| `RiskState.RiskStateStore.ClearKillSwitch` | app/risk/state.py:131-136 | the whole table with the day's reason gone |
| `RiskState.RiskStateStore.ConsumeOneTradeAuthorization` | app/risk/state.py:167-184 | true only for the caller that flipped the flag; spent afterwards either way |
| `RiskState.RiskStateStore.AuthorizeOneTrade` | app/risk/state.py:186-199 | re-armed, whatever it was |
| `RiskState.AppliedIsLocal` | app/risk/state.py:50-136 | one operation changes one day: every other row stays, the day keeps one row, no other day appears |
| `RiskState.NewDayInherits` | app/risk/state.py:54-65 | a new day inherits lock, start and peak of the latest row and neither its kill switch nor its counters |
| `RiskState.LatchHolds` | app/risk/state.py:108-136 | a stopped day stays stopped over every run of operations that never clears it |
| `RiskState.LockReachesEveryNewDay` | app/risk/state.py:50-69 | with the lock on the latest row, every day first seen later is locked until someone unlocks |
| `RiskState.OlderDayLockIsNotInherited` | app/risk/state.py:54-61 | a lock set on a day older than the latest row is not inherited |
| `RiskState.BookingAddsUp` | app/risk/state.py:79-84 | over all days the total moves by exactly the amount booked |
| `RiskState.StartIsFirstPeakIsGreatest` | app/risk/state.py:86-95 | over any sequence of equities the start is the first unless there was one, the peak the greatest of all and of the one there was, and nothing else of the row moves |
| `Grouping.GroupDeals` | app/services/reconciliation.py:141-154 | the positions in id order, each built from exactly its own deals in feed order, and the number of ignored deals |
| `GroupingLaws.FeedIsPartitioned` | app/services/reconciliation.py:141-154 | ignored and grouped deals add up to the feed |
| `GroupingLaws.FeedIsConserved` | app/services/reconciliation.py:157-194 | profit, commission, swap and closed volume of all positions are those of the bot's own deals |
| `GroupingLaws.EntryVolumeIsConserved` | app/services/reconciliation.py:168-180 | over the positions that have entry volume, exactly the entry volume of the bot's own deals, for non-negative volumes |
| `GroupingLaws.WeightedPriceBetween` | app/services/reconciliation.py:134-138 | a weighted price lies between the least and the greatest deal price, for non-negative volumes |
| `GroupingLaws.FeedOrderIsIrrelevant` | app/services/reconciliation.py:141-194 | permuting the feed keeps every position's sums, prices, times, tickets and closed flag |
| `GroupingLaws.FeedOrderKeepsTheOrigin` | app/services/reconciliation.py:157-194 | where no two deals of a position share a moment, permuting the feed keeps its symbol, order ticket, entry deal and comment too |
| `PositionLaws.PositionsDescribeTheirDeals` | app/services/reconciliation.py:141-194 | one position for each id that a deal of the bot carries, in the order of the ids; its entry price times its entry lots is the turnover of its entry deals, and likewise for its exits; open time, close time, money, volumes, tickets, closed flag, origin and close reason are those of its own deals |
| `Matching.Match` | app/services/reconciliation.py:270-298 | the two greedy phases, in order, and the positions nobody took |
| `Matching.IndexTickets` | app/services/reconciliation.py:272-275 | a ticket leads to the first position that carries it |
| `Matching.MatchIsAMaximalInjection` | app/services/reconciliation.py:270-298 | a partial injection into the given positions; no unmatched trade has a free ticket or a free fit left |
| `Matching.RemainderIsTheComplement` | app/services/reconciliation.py:298 | the remainder is exactly the positions no trade was matched with |
| `MatchLaws.MatchFollowsTheRules` | app/services/reconciliation.py:270-298 | each trade is matched with the first carrier of the first of its three tickets whose first carrier no earlier trade took by ticket; without one, with the first position left that has its symbol up to case, its volume within 1e-6 and, where both are known, its time within the window; an unmatched trade is unlike every position left |
| `Reconciliation.ApplyIsStable` | app/services/reconciliation.py:300-340 | applying one position a second time changes nothing |
| `Reconciliation.RematchIsTheSame` | app/services/reconciliation.py:270-298 | after a run, the same positions match the same trades, now all by ticket, when deals and ids lead home |
| `Reconciliation.ReconciliationIsIdempotent` | app/services/reconciliation.py:270-340 | when each position's deal leads back to it and no position's id leads to another, a second run on the same positions, at any later moment, changes no trade and no day row |
| `Reconciliation.IdempotentIff` | app/services/reconciliation.py:270-340 | given deals that lead home, runs repeat for every trade table and every two moments exactly when no position's id is a ticket of another position |
| `Reconciliation.SharedTicketBreaksIdempotence` | app/services/reconciliation.py:141-283 | two deals and one trade for which the second run rewrites the trade with the other position's money |
| `RowLaws.RowSaysWhatTheBrokerSays` | app/services/reconciliation.py:300-325 | after one application every column is the broker's: CLOSED, PARTIALLY_CLOSED or the old status by the position's state; prices, volume and money within 1e-9; times, tickets and reason exactly; what the broker leaves open stays |
| `RowLaws.WrittenIsExact` | app/services/reconciliation.py:317-325 | a row that is written at all carries the broker's numbers exactly |
| `RowLaws.BookedOnTheDayOfTheExit` | app/services/reconciliation.py:321-331 | the change of profit, commission and swap together is booked into the day of the dated exit and no other, and not at all without one or within 1e-9 |
| `RowLaws.RunWritesTheMatched` | app/services/reconciliation.py:221-236 | a run writes the rows of matched trades and no others, and never a trade that did not reach the broker |
| `RowLaws.ConsideredAre` | app/services/reconciliation.py:221-222 | the trades considered are those with one of the five statuses |
| `Bookkeeping.BookedIsNetLessOpenWrites` | app/services/reconciliation.py:318-331 | for every trade and every sequence of runs: booked = net now - net before - written while open, within 1e-9 a run |
| `Bookkeeping.FirstSeenClosedIsBookedOnce` | app/services/reconciliation.py:318-331 | a fresh trade never written while open is booked its whole net once, however many runs saw it |
| `Bookkeeping.OpenNetIsNeverBooked` | app/services/reconciliation.py:326-331 | the naive sum is short by exactly the net written while open |
| `Bookkeeping.OpeningCostIsNeverBooked` | app/services/reconciliation.py:300-340 | an entry deal with a commission, read while open and again after its exit deal: the day rows hold five, the trade's net is four |
| `Bookkeeping.DayRowsHoldTheBookings` | app/services/reconciliation.py:326-331 | over any runs, the day rows together grow by what was booked for the trades |
| `ReconcilerRun.Reconciler.Run` | app/services/reconciliation.py:207-263 | all tables after a run, a history of None changing none; the summary's P/L is the growth of the day rows, and its counters are the numbers of matches by kind, of changed rows, of trades and positions left, and of guards retired and kept |
| `ReconcilerRun.Reconciler.ApplyPositions` | app/services/reconciliation.py:221-243 | trades and day rows of the whole loop, and counters that are the numbers of what happened |
| `ReconcilerRun.Reconciler.Apply` | app/services/reconciliation.py:300-331 | the row and day after one application; the reported booking is what reached the day rows |
| `ReconcilerRun.Reconciler.RetireOnEvidence` | app/services/reconciliation.py:245-250 | nothing is judged when open orders or live positions came back as None; an empty answer is judged, whoever gave it |
| `ReconcilerRun.Reconciler.RetireStaleGuards` | app/services/reconciliation.py:342-371 | every guard and signal after the loop, and how many guards were retired and kept |
| `ReconcilerRun.RunTwiceIsRunOnce` | app/services/reconciliation.py:207-263 | a second run on the same answers and moment changes no trade, day row, guard or signal, when deals and ids lead home |
| `ReconcilerRun.JudgedTwice` | app/services/reconciliation.py:342-371 | a judged guard is judged the same again and not retired twice |
| `ReconcilerRun.GuardsKeepTheirPlace` | app/services/reconciliation.py:342-371 | no run removes or re-keys a guard |
| `ReconcilerRun.RetiredIff` | app/services/reconciliation.py:207-263 | a run retires a guard exactly when no listing came back as None and the guard is PENDING, stale, unconfirmed by the trades as the run left them, and no listed record carries its comment with a ticket |
| `ReconcilerRun.DisconnectedTerminalRetires` | app/mt5/gateway.py:51-53 | with a disconnected terminal and nothing read, a guard is retired exactly when it is PENDING, stale and without an accepted trade, and its NEW signal is abandoned |
| `ReconcilerRun.OfflineWitness` | app/services/reconciliation.py:245-250 | one such guard and its signal |
| `ReconcilerRun.GuardBecomes` | app/services/reconciliation.py:342-371 | a guard takes the status and ticket of its accepted trade, else keeps PENDING with the ticket of a record that carries its comment, else is RETIRED; nothing happens to it before it is old enough |
| `ReconcilerRun.RecordsAre` | app/services/reconciliation.py:381-390 | the records that can confirm a guard are the deals, under their own, their order's or their position's number, the open orders and the live positions |
| `ReconcilerRun.FoundIsTheFirst` | app/services/reconciliation.py:381-390 | a record found is the first with the comment and a ticket |
| `ReconcilerRun.OrderCommentIs` | app/services/reconciliation.py:197-200 | the comment, character by character |
| `ReconcilerRun.ShortIdsHaveTheirOwnComment` | app/services/reconciliation.py:197-200 | alphanumeric ids of at most 24 characters have different comments |
| `ReconcilerRun.RecentDealsAre` | app/services/reconciliation.py:209-218 | the run looks at the undated deals and those within the lookback, five minutes wider on both sides |
| `ReconcilerRun.RunAppliesRecentPositions` | app/services/reconciliation.py:207-221 | an answered run applies the positions of its recent deals with the configured magic number, window and moment |
| `Sizing.FloorStepsIs` | app/risk/sizing.py:39-43 | the greatest whole number at most 1e-9 above the quotient |
| `Sizing.NormalizedIsTheLargest` | app/risk/sizing.py:58-67 | the largest multiple of the step that fits wish and maximum, rounded to eight decimals, or None exactly when every fitting multiple rounds below the minimum |
| `Sizing.NormalizeIsIdempotent` | app/risk/sizing.py:58-67 | for steps that are multiples of 1e-8 lots, a normalized volume normalizes to itself |
| `VolumeRounding.NormalizedAgainIff` | app/risk/sizing.py:58-67 | for every step, a normalized volume normalizes to itself exactly when rounding took off at most the epsilon of a step, or one step less rounds alike |
| `VolumeRounding.StableStepIff` | app/risk/sizing.py:58-67 | a step is safe for all volumes, minima and maxima exactly when it keeps every number of steps |
| `VolumeRounding.OrdinaryStepIff` | app/risk/sizing.py:58-67 | from 1e-8 up to 1.25 lots, that is exactly when the step is a multiple of 1e-8 lots |
| `VolumeRounding.FineStepIsStable` | app/risk/sizing.py:58-67 | steps of at most half of 1e-8 lots are always safe |
| `VolumeRounding.CoarseStepIsStable` | app/risk/sizing.py:39-43 | steps of five lots and more are always safe, because the snap covers the rounding |
| `Sizing.OffGridIsNotIdempotent` | app/risk/sizing.py:65-67 | a specification whose normalized volume is refused by the next normalization |
| `Sizing.NormalizeIsMonotone` | app/risk/sizing.py:58-67 | a larger wish never gets a smaller volume |
| `Sizing.SizeIsTheLargestAffordable` | app/risk/sizing.py:121-132 | the largest multiple the budget and the broker allow, rounded to eight decimals, or None exactly when all affordable ones round below the minimum |
| `Sizing.SizedLossWithinBudget` | app/risk/sizing.py:85-89 | the sized loss exceeds the budget by at most the epsilon of one step, and off the 1e-8 grid by half of the eighth decimal more |
| `Sizing.SizeGrowsWithBudget` | app/risk/sizing.py:121-132 | monotone in the budget |
| `Sizing.SizeShrinksWithDistance` | app/risk/sizing.py:121-132 | antitone in the stop distance |
| `Sizing.SizedIffLeastIsAffordable` | app/risk/sizing.py:121-132 | a trade is sized exactly when the least number of steps that reaches the broker's minimum is affordable; the budget is never stretched for it |
| `Sizing.SizedIffMinimumFits` | app/risk/sizing.py:121-139 | with a minimum of whole steps on the grid, that is exactly when the budget carries the loss of the minimum lot |
| `Sizing.PositionSizeFitsBoth` | app/risk/sizing.py:92-118 | the percentage size respects its budget, up to the same excess, and the free margin |
| `Sizing.PositionSizeIff` | app/risk/sizing.py:92-118 | a percentage size is given exactly when there is equity and a percentage, the budget can be sized, and the margin is known and within the free margin where one is given |
| `Sizing.RiskPerLotIs` | app/risk/sizing.py:46-55 | the loss of a lot is the stop's distance in ticks at the tick value, else the distance for each unit of the contract, and unknown in exactly the other cases |
| `Sizing.RequiredMarginIs` | app/risk/sizing.py:70-75 | the margin is the broker's figure for each lot, else its product with the leverage is the notional, and unknown in exactly the other cases |
| `Sizing.BufferedMarginIff` | app/risk/sizing.py:78-82 | a margin fits exactly when it is known and within the free margin less the buffer |
| `Bracket.ValidateStops` | app/execution/validation.py:30-63 | the reasons are exactly the broken rules; accepted exactly when none is |
| `Bracket.LevelsKeepTheGeometry` | app/services/scheduler.py:634-660 | every bracket lies on the tick grid, its stop at least the strategy's distance and less than a tick more, its reward at least the carried ratio and less than a tick more, stop and target on opposite sides |
| `Bracket.LevelsInTicks` | app/services/scheduler.py:83-89 | rounding away from the entry adds the distance rounded up, in whole ticks |
| `Bracket.BracketIff` | app/services/scheduler.py:634-660 | a signal gets a bracket exactly when it is anchorable and the rounded prices stay positive with the stop outside the broker's minimum; rounding never invalidates one |
| `Bracket.AnchorableIff` | app/services/scheduler.py:636-652 | a signal is anchorable exactly when it has a side, a stop away from its reference price, and a target, if any, that rewards the risk enough |
| `Bracket.BracketSitsAtTheQuote` | app/services/scheduler.py:653-660 | the entry is the ask for a buy and the bid for a sell, to the nearest tick |
| `Bracket.BracketKeepsTheSignal` | app/services/scheduler.py:641-660 | distance and reward in terms of the strategy's own entry, or the middle of the quote when it named none, its stop and its target |
| `Bracket.WrongSidedStopIsMirrored` | app/services/scheduler.py:641-642 | a stop and its mirror image about the entry get the same bracket |
| `Bracket.RequestCarriesTheBracket` | app/execution/service.py:178-202 | rounding in the request leaves entry, stop and target of a bracket unchanged |
| `Bracket.RequestIs` | app/execution/service.py:178-202 | any request carries the side and volume it was given, each price to the nearest unit of the last digit, and 0 for no target |
| `RiskGate.RiskEngine.ReadState` | app/risk/engine.py:230-255 | what is read, before this equity is recorded, and the table afterwards, for every way the store can fail |
| `RiskGate.RiskEngine.StopCheck` | app/risk/engine.py:327-342 | passes exactly for a positive stop strictly on the risk side and outside the minimum; raises exactly without a usable entry |
| `RiskGate.RiskEngine.TargetCheck` | app/risk/engine.py:344-352 | passes exactly for a positive target strictly beyond the entry |
| `RiskGate.RiskEngine.JudgeLimits` | app/risk/engine.py:413-425 | the limits that are reached and no others, in order |
| `RiskGate.RiskEngine.PersistLimits` | app/risk/engine.py:424-439 | the table with every latch the limits set, and the kill switch in force |
| `RiskGate.RiskEngine.Assess` | app/risk/engine.py:204-491 | all 22 results, the verdict, the numbers and the whole persisted effect; None exactly when the entry is unusable for a comparison |
| `RiskGate.Conclude` | app/risk/engine.py:470-472 | approved exactly when each of the 22 results is positive |
| `GateConditions.ApprovedIff` | app/risk/engine.py:204-491 | an assessment approves exactly when an explicit condition on facts, settings, the day's row, the store and the authorization holds |
| `GateConditions.MarketResults` | app/risk/engine.py:260-325 | results 1 to 8, each with its name and its condition |
| `GateConditions.OrderResults` | app/risk/engine.py:327-399 | results 9 to 15, each with its name and its condition |
| `GateConditions.StateResults` | app/risk/engine.py:401-468 | results 16 to 22, each with its name and its condition on the row that was read |
| `GateConditions.OneFailureRefuses` | app/risk/engine.py:470-472 | the 22 results are these lists in order, and a single negative one refuses |
| `GateConditions.NoStoreNoApproval` | app/risk/engine.py:227-228 | without a risk state nothing is approved |
| `GateLaws.StopRulesAgree` | app/risk/engine.py:327-356 | checks 9 to 11 and the executor's `validate_stops` accept exactly the same orders |
| `GateLaws.BracketPassesTheGate` | app/services/scheduler.py:653-660 | every bracket the scheduler anchors passes checks 9 to 11 |
| `GateLaws.ApprovedVolumeIsTheLargestSafe` | app/risk/engine.py:358-376 | an approved volume is the largest the budget affords, risks at most the per-trade limit, respects the lot cap, and survives the executor's normalization exactly when its steps are kept |
| `GateLaws.ApprovedOrderIsSentUnchanged` | app/execution/service.py:117-151 | on the same facts, and with the steps kept, the executor sends exactly the approved bracket and volume, or refuses exactly when the margin exceeds the free margin |
| `GateLaws.SentIff` | app/execution/service.py:117-151 | without looking at the gate, the executor sends exactly when the volume can be normalized, no stop rule is broken, and the margin is known and within the free margin |
| `GateLaws.AnAffordableLotPasses` | app/risk/engine.py:204-491 | the gate can be met: a live account with an unspent authorization, an anchored bracket and one affordable lot passes all 22 checks |
| `GateLaws.AssessmentsOnlyLatch` | app/risk/engine.py:272-295 | no assessment releases a lock or clears a kill switch |
| `GateLaws.StoppedDayNeverTrades` | app/risk/engine.py:460-468 | after a day's lock or kill switch, no assessment of that day approves, over every run of writes and assessments that never clears it |
| `GateLaws.ReachedLimitEndsTheDay` | app/risk/engine.py:413-438 | an assessment that finds a limit reached ends the day, even if P/L recovers |
| `GateLaws.DrawdownLocksEveryLaterDay` | app/risk/engine.py:424-431 | a drawdown seen on the newest day refuses every assessment of that and every later day until an unlock |
| `GateLaws.ReasonOfTheStop` | app/risk/engine.py:424-438 | the reason a stopped day gives is the one it was first stopped for, else the drawdown, else the reached limits in order; a drawdown locks the day as well |
| `GateLaws.LimitsInOrder` | app/risk/engine.py:416-431 | the reached limits are reported once each and in one order |
| `Session.DailyTradesAreBounded` | app/services/scheduler.py:547-591 | over every run, accepted orders of a day <= the maximum, or the day's count at the start when that was higher, + crashes before the count |
| `Session.SessionLossIsBounded` | app/services/scheduler.py:409-454 | with losses within the approved risk, at most k acceptances a scan and at most p positions a scan does not see, the session loss stays below session limit and what max_open_positions - 1 + k + p trades can lose |
| `Session.FewCandidatesFewAcceptances` | app/services/scheduler.py:435-454 | over every run, a scan's acceptances never outnumber its candidates |
| `Session.OneTradeBoundIff` | app/services/scheduler.py:409-454 | with one position allowed, every run stays strictly below session limit plus per-trade limit exactly when nothing is accepted, or a scan sees every position and one acceptance at most |
| `Session.OneTradeBoundByCandidatesIff` | app/services/scheduler.py:501-508 | the same in the number of candidates a scan yields: the bound holds exactly when no scan yields any, or each yields at most one and sees every position |
| `Session.OneScanMayOpenTwo` | app/services/scheduler.py:420-454 | one scan whose two candidates, judged on readable equity and exposure, are both accepted where one position is allowed, and whose booked losses exceed that limit within the same honest run |
| `Session.PendingOrderMayOpenTwo` | app/execution/service.py:166-167 | the same over two scans of one acceptance each, the second while the first order is pending |
| `Session.AssessmentIsNeutral` | app/risk/engine.py:235-256 | judging a candidate moves neither the day's P/L nor its trade count |
| `LostUpdates.CountIsExactIffNothingOverlaps` | app/risk/state.py:97-103 | in every interleaving of loads and commits the count is never too high, short by at most the overlapping pairs, and exact if and only if there are none |
| `LostUpdates.LossIsBoundedByOverlaps` | app/risk/state.py:79-84 | in every interleaving the booked P/L differs from the sum of the amounts by at most the largest amount for each overlapping pair |
| `LostUpdates.UndisturbedIsTheStore` | app/risk/state.py:79-103 | a load and commit with nothing between them is the store's own operation, and loses nothing |
| `Protection.Protector.FindPosition` | app/execution/service.py:361-374 | the first managed position with the ticket, else the lone managed one on the symbol |
| `Protection.Protector.VerifyProtection` | app/execution/service.py:298-359 | the report and every broker call, for every pair of reads and every answer |
| `Protection.SearchFindsOurs` | app/execution/service.py:361-374 | what is found is managed, the ticket's own whenever shown and the lone match otherwise; nothing is found exactly when neither exists |
| `Protection.VerifiedHoldsTheStop` | app/execution/service.py:376-384 | verified means the last read holds a managed position with the approved stop and target within half a point |
| `Protection.VerifiedOrCloseSent` | app/execution/service.py:298-359 | a found position ends verified or with one close sent after one modification, both on managed positions; otherwise nothing is sent |
| `Protection.CallsHitTheOrderIff` | app/execution/service.py:298-374 | every modification and close carries the order's ticket exactly when none is made, or the first read shows the order's position and, if a close is sent, the second read shows it, is None or shows no lone match |
| `Protection.NothingForeignIsTouched` | app/execution/service.py:361-374 | whatever the two reads show, every modification and close is for a position they showed whose magic number is the bot's or unread |
| `Protection.OrdersPositionIsFound` | app/execution/service.py:361-374 | a position of the bot, or with an unread magic number, that carries the ticket is found |
| `Protection.LonePositionIsFound` | app/execution/service.py:361-374 | without the ticket, the bot's only position on the symbol is found |
| `Protection.LeftAloneIff` | app/execution/service.py:317-344 | a found position is left alone exactly when it holds the stop and the requested target within half a point, and a repair counts exactly when the second read shows them |
| `Protection.FirstReadMayHitAnother` | app/execution/service.py:361-374 | a first read for which another order's position is modified and closed |
| `Protection.SecondReadMayHitAnother` | app/execution/service.py:337-344 | a second read for which another order's position is closed |
| `Calendar.ParseBridge` | app/news/mt5_calendar.py:192-344 | reading or error of every payload, in the code's order of checks |
| `Calendar.AcceptedFile` | app/news/mt5_calendar.py:192-344 | accepted exactly when usable; kept + skipped = declared; every kept instant within a second of server time less offset |
| `Calendar.EventsAreTheTradedRows` | app/news/mt5_calendar.py:271-325 | no row of a traded currency is lost and no event is invented |
| `Calendar.SkewIsTimeless` | app/news/mt5_calendar.py:234-241 | the clock skew does not depend on the moment of the read |
| `Calendar.Mt5CalendarProvider.Refresh` | app/news/mt5_calendar.py:456-490 | the snapshot after a refresh, due or not, whatever the file |
| `Calendar.Mt5CalendarProvider.Decide` | app/news/mt5_calendar.py:554-586 | snapshot and answer of a decision |
| `Calendar.HealthyThrottleAgrees` | app/news/mt5_calendar.py:419-424 | with a healthy snapshot of the same file the throttled answer is the fresh one |
| `Calendar.ThrottledAllowIsFreshAllow` | app/news/mt5_calendar.py:419-521 | every fail-closed throttled allow is one an immediate read gives too |
| `Calendar.RunAllowIsFreshAllow` | app/news/mt5_calendar.py:456-586 | the same over any sequence of decisions while the file is unchanged |
| `Calendar.FreshAllowMeansClear` | app/news/mt5_calendar.py:554-586 | an allow means the file is usable and no high-impact row of the pair lies inside the window |
| `Calendar.ThrottleMayRefuse` | app/news/mt5_calendar.py:419-424 | an unhealthy snapshot may refuse where a fresh read would allow |
| `CalendarLaws.FreshAllowIff` | app/news/mt5_calendar.py:554-586 | with a usable file and a known pair a decision allows exactly when no row announces a high-impact event of the pair inside the window; otherwise exactly when the gate is not fail-closed |
| `CalendarLaws.AcceptedEvents` | app/news/mt5_calendar.py:192-344 | which files count, in plain terms, and that their events are exactly what the rows of traded currencies become |
| `CalendarLaws.RefusalIs` | app/news/mt5_calendar.py:192-344 | stale exactly by age, unavailable exactly when the bridge says so, its clock is off or nothing is traded, malformed otherwise |
| `CalendarLaws.SnapshotAfterRead` | app/news/mt5_calendar.py:456-507 | a failed read keeps the events of the last good one and says why it failed; a good one replaces them |
| `CalendarLaws.ReadAgainIff` | app/news/mt5_calendar.py:419-424 | the file is read again exactly when none was, or the interval for a success or for a failure is over |
| `Trailing.PositionManager.Manage` | app/portfolio/manager.py:14-24 | the request sent and the stop held afterwards |
| `Trailing.ProposalsProtect` | app/portfolio/manager.py:19-24 | every requested stop improves by at least the minimum change and lies strictly on the losing side of the price |
| `Trailing.ProposalIff` | app/portfolio/manager.py:14-24 | a stop is requested exactly when there is something to work with, the position has the profit, and the change is protective by the minimum; it is the open price below the activation profit and a multiple of the ATR behind the price from there on |
| `Trailing.StopIsARatchet` | app/portfolio/manager.py:14-24 | over any observations the stop only moves in the protective direction |
| `Trailing.BreakEvenIsFinal` | app/portfolio/manager.py:16-17 | a stop at the open price never moves again |
| `Trailing.ChangesAreBounded` | app/portfolio/manager.py:22-24 | the number of changes times the minimum change is less than the room between the first stop and the best price, for both sides |
| `Trailing.BreakEvenEndsTheTrail` | app/portfolio/manager.py:21 | after a break-even move no observation changes the stop |
| `Drawdown.OnePass` | app/services/analytics.py:45-53 | the maximum is the greatest fall between any two points of the equity from zero, and equals the array form; the current value is the fall from the peak |
| `Drawdown.ArrayFormIsGreatestFall` | app/backtesting/engine.py:8-12 | prefix sums and prefix maxima find the same greatest fall, on every list |
| `Drawdown.GreatestFallIsUnique` | app/services/analytics.py:45-53 | the greatest fall is one number |
| `Summaries.Group` | app/services/analytics.py:98-102 | one group a name that occurs, summarising exactly the trades of that name |
| `Summaries.GroupsAddUp` | app/services/analytics.py:79-102 | over the groups, trades, wins, losses, gross profit, gross loss and net add up to the whole |
| `Summaries.RatesAreShares` | app/services/analytics.py:56-95 | win rate times trades is the wins, profit factor times gross loss the gross profit; undefined exactly without trades, and without a loss |
| `Summaries.BreakevenIsTheRest` | app/services/analytics.py:79-95 | the breakeven trades are those with a net of zero |

## Left out

- IdempotentIff: for positions whose own exit or entry deal is ticketed and leads back to them; a position whose deal has no ticket is not characterised.
- AcquireDbLock: one step here, and a row always has a heartbeat; the code reads and writes in two statements (`SplitLease`, `OrderFence`) and treats a row without any time as stale.
- LeaseExclusion: for atomic acquires; `SplitLease.SplitExclusion` covers two statements.
- HeartbeatForward: for atomic acquires.
- ReleaseDbLock: its read and its delete are one step.
- AtMostOneSendPerKey: one process runs one candidate at a time; a process with several threads is several processes of the model.
- Submit: the preflight and the pre-send checks are one outcome here, and the protection step follows outside; the checks on volume, stops and margin are modelled in `GateLaws.PreSend`.
- Finish: the order ticket, the prices of the fill and the audit record are not stored; the fence carries statuses only.
- SyncSignal: the signal's order ticket is not stored, and a signal it creates is dated by the clock where the code takes the signal's own timestamp.
- Assess: one day for all its store calls, so an assessment that straddles midnight is not modelled; a store that fails in the read fails for the rest of the call.
- PersistLimits: its latch writes do not fail on their own.
- ApprovedOrderIsSentUnchanged: on unchanged facts; the executor reads the symbol, the account and the margin again.
- LossIsBoundedByOverlaps: on an existing day row, one column; two processes that both create the row are not modelled.
- SessionLossIsBounded: a loss is booked on the day it is read, on the day row in use.
- DailyTradesAreBounded: the count is written on the day of the assessment.
- VerifyProtection: an exception out of a positions read ends the call and is not modelled.
- Group: the order of the names in the result is not modelled.
- FeedOrderIsIrrelevant: `exit_deal` and `close_reason` follow the feed's order in the code and are left out of the comparison; so are `symbol`, `order_ticket`, `entry_deal` and `comment`, which follow it among deals of one moment (`GroupingLaws.FeedOrderKeepsTheOrigin`).
- FeedOrderKeepsTheOrigin: says nothing of `exit_deal` and `close_reason`.
- OrdinaryStepIff: steps between half of 1e-8 and 1e-8 lots and between 1.25 and 5 lots are covered by `VolumeRounding.StableStepIff` only.
- ParseBridge: event titles, countries, actual, forecast and previous values; currencies are compared as given in upper case.
- MT5 gateway calls, SQL sessions, file reads, HTTP routes, threads and clocks: parameters and atomic steps.
- IEEE rounding and the conversion of floats to decimals: exact reals.
- Kill-switch and rejection texts, audit records, log lines and hashed identities: tags and distinct keys; a persisted kill-switch reason is never blank.
- `isalnum`, `upper` and text order: on ASCII characters.
- Strategies, indicators, ensemble voting, momentum and spread computation: inputs of the gate.
- Account matching, symbol universe, trading modes: a flag each.
- Order filling modes, deviations and comments of the request.
- The news cache, the Trading Economics client and the static calendar.
- `monte_carlo`, `average_risk_reward`, `performance` and the dashboard figures.
