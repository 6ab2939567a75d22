/** One key per trade: when the callers of the fence derive the key from the trade, the fence on keys is
    a fence on trades. */
module FenceKeys {
  import opened Records
  import opened Lease
  import opened OrderFence

  predicate Keyed(i: Intent, keyOf: string -> string) {
    i.key == keyOf(i.tradeId)
  }

  // Every caller uses the key of its trade; the scheduler's identity is its own key.
  predicate KeyedSchedule(schedule: seq<Action>, keyOf: string -> string) {
    forall k :: 0 <= k < |schedule| ==> KeyedAction(schedule[k], keyOf)
  }

  predicate KeyedAction(a: Action, keyOf: string -> string) {
    (a.Call? ==> Keyed(a.intent, keyOf)) && (a.Look? ==> keyOf(a.signalId) == a.signalId)
  }

  function IntentOf(l: Local): Option<Intent> {
    match l
    case Looked(i, _) => Some(i)
    case Candidate(i) => Some(i)
    case Submitting(i) => Some(i)
    case TradeClear(i) => Some(i)
    case GuardClear(i) => Some(i)
    case Spending(i) => Some(i)
    case Racing(i) => Some(i)
    case Refusing(i) => Some(i)
    case Cleared(i, _) => Some(i)
    case Holding(i, _) => Some(i)
    case Answered(i, _) => Some(i)
    case Returned(i, _) => Some(i)
    case _ => None
  }

  predicate KeyedProcs(s: State, keyOf: string -> string) {
    forall p :: p in s.procs && IntentOf(s.procs[p]).Some? ==> Keyed(IntentOf(s.procs[p]).value, keyOf)
  }

  predicate KeyedLog(log: seq<Event>, keyOf: string -> string) {
    forall k :: 0 <= k < |log| && log[k].Sent? ==> Keyed(log[k].intent, keyOf)
  }

  // A process works on the intent it had, or on the one it was just given.
  predicate Loyal(s: State, a: Action, t: State) {
    forall p :: p in t.procs && IntentOf(t.procs[p]).Some? ==>
      || (p in s.procs && IntentOf(s.procs[p]) == IntentOf(t.procs[p]))
      || (a.Call? && IntentOf(t.procs[p]) == Some(a.intent))
      || (a.Look? && IntentOf(t.procs[p]) == Some(Intent(a.signalId, a.signalId, a.signalId)))
  }

  lemma LoyalCandidate(s: State, a: Action)
    requires a.Elapse? || a.Crash? || a.Look? || a.Persist?
    ensures Loyal(s, a, Step(s, a))
  {
  }

  lemma LoyalEntry(s: State, a: Action)
    requires a.Gate? || a.Call? || a.Complete?
    ensures Loyal(s, a, Step(s, a))
  {
  }

  lemma LoyalChecks(s: State, a: Action)
    requires a.CheckTrade? || a.CheckGuard? || a.Materialise?
    ensures Loyal(s, a, Step(s, a))
  {
  }

  lemma LoyalRefusals(s: State, a: Action)
    requires a.Preflight? || a.Refuse?
    ensures Loyal(s, a, Step(s, a))
  {
  }

  lemma LoyalSends(s: State, a: Action)
    requires a.Reserve? || a.Send?
    ensures Loyal(s, a, Step(s, a))
  {
  }

  lemma LoyalConsume(s: State, a: Action)
    requires a.Consume?
    ensures Loyal(s, a, Step(s, a))
  {
  }

  lemma LoyalFinish(s: State, a: Action)
    requires a.Finish? || a.Rewrite?
    ensures Loyal(s, a, Step(s, a))
  {
  }

  lemma LoyalUpkeep(s: State, a: Action)
    requires a.Inspect? || a.Settle?
    ensures Loyal(s, a, Step(s, a))
  {
  }

  lemma LoyalRearm(s: State, a: Action)
    requires a.RearmRead? || a.RearmWrite?
    ensures Loyal(s, a, Step(s, a))
  {
  }

  lemma LoyalLease(s: State, a: Action)
    requires a.AcquireRead? || a.AcquireWrite? || a.Release?
    ensures Loyal(s, a, Step(s, a))
  {
  }

  lemma LoyalStep(s: State, a: Action)
    ensures Loyal(s, a, Step(s, a))
  {
    if a.Elapse? || a.Crash? || a.Look? || a.Persist? { LoyalCandidate(s, a); }
    else if a.Gate? || a.Call? || a.Complete? { LoyalEntry(s, a); }
    else if a.CheckTrade? || a.CheckGuard? || a.Materialise? { LoyalChecks(s, a); }
    else if a.Preflight? || a.Refuse? { LoyalRefusals(s, a); }
    else if a.Consume? { LoyalConsume(s, a); }
    else if a.Reserve? || a.Send? { LoyalSends(s, a); }
    else if a.Finish? || a.Rewrite? { LoyalFinish(s, a); }
    else if a.Inspect? || a.Settle? { LoyalUpkeep(s, a); }
    else if a.RearmRead? || a.RearmWrite? { LoyalRearm(s, a); }
    else { LoyalLease(s, a); }
  }

  // What a step adds to the history, if it is a send, is the intent of its process.
  lemma SentIsHeld(s: State, a: Action, k: nat)
    requires |s.log| <= k < |Step(s, a).log| && Step(s, a).log[k].Sent?
    ensures a.Send? && Loc(s, a.p).Holding? && Step(s, a).log[k].intent == Loc(s, a.p).intent
  {
    Classify(s, a);
    if a.Consume? { ConsumedLog(s, a.p, a.reply); }
  }

  lemma ConsumedLog(s: State, p: Pid, reply: Reply)
    ensures var t := Step(s, Consume(p, reply));
      t.log == s.log || (Loc(s, p).Racing? && t.log == s.log + [Won(p, Loc(s, p).intent.key)])
  {
  }

  lemma KeyedStep(s: State, a: Action, keyOf: string -> string)
    requires KeyedProcs(s, keyOf) && KeyedLog(s.log, keyOf) && KeyedAction(a, keyOf)
    ensures KeyedProcs(Step(s, a), keyOf) && KeyedLog(Step(s, a).log, keyOf)
  {
    var t := Step(s, a);
    LoyalStep(s, a);
    StepGrows(s, a);
    LoyalIsKeyed(s, a, t, keyOf);
    forall k | 0 <= k < |t.log| && t.log[k].Sent? ensures Keyed(t.log[k].intent, keyOf) {
      if k >= |s.log| { SentIsHeld(s, a, k); } else { assert t.log[k] == s.log[k]; }
    }
  }

  lemma LoyalIsKeyed(s: State, a: Action, t: State, keyOf: string -> string)
    requires Loyal(s, a, t) && KeyedProcs(s, keyOf) && KeyedAction(a, keyOf)
    ensures KeyedProcs(t, keyOf)
  {
  }

  lemma {:induction false} KeyedRun(s: State, schedule: seq<Action>, keyOf: string -> string)
    requires KeyedProcs(s, keyOf) && KeyedLog(s.log, keyOf) && KeyedSchedule(schedule, keyOf)
    ensures KeyedLog(Run(s, schedule).log, keyOf)
    decreases |schedule|
  {
    if schedule != [] {
      KeyedStep(s, schedule[0], keyOf);
      KeyedRun(Step(s, schedule[0]), schedule[1..], keyOf);
    }
  }

  // If one trade always comes with one key, no trade reaches the broker twice. With two keys for one
  // trade it can: OrderFence.TradeIdAloneIsNoFence.
  lemma AtMostOneSendPerTrade(s: State, schedule: seq<Action>, keyOf: string -> string)
    requires Init(s) && KeyedSchedule(schedule, keyOf)
    ensures var log := Run(s, schedule).log;
      forall k, l :: 0 <= k < l < |log| && log[k].Sent? && log[l].Sent? ==>
        log[k].intent.tradeId != log[l].intent.tradeId
  {
    AtMostOneSendPerKey(s, schedule);
    KeyedRun(s, schedule, keyOf);
  }
}
