/** What an applied chat settlement leaves besides its charge: status and reason, the shown message, and the token columns. */
module ChatEndings {
  import opened Common
  import opened Wallet
  import opened ChatRows
  import opened ChatDecision
  import opened ChatTransactions
  import opened ChatSettlement
  import opened ChatRuns
  import opened ChatUsage
  import opened ChatVerdicts
  import opened ChatCharges

  // ---------- tokens ----------

  /** The quantity the items report for these categories. */
  function Quantity(items: seq<UsageItem>, categories: set<Category>): nat {
    if items == [] then 0
    else Quantity(items[..|items| - 1], categories) + if Last(items).category in categories then Last(items).quantity else 0
  }

  function Reported(rows: seq<AttemptRow>, categories: set<Category>): nat {
    if rows == [] then 0
    else Reported(rows[..|rows| - 1], categories) + if Last(rows).usage.Complete? then Quantity(Last(rows).usage.items, categories) else 0
  }

  const PROMPT: set<Category> := {Input, CacheRead, CacheWrite}
  const COMPLETION: set<Category> := {Output}

  lemma {:induction false} QuantityFront(items: seq<UsageItem>, categories: set<Category>)
    requires items != []
    ensures Quantity(items, categories)
         == Quantity(items[1..], categories) + if items[0].category in categories then items[0].quantity else 0
    decreases |items|
  {
    if |items| > 1 {
      var front := items[..|items| - 1];
      QuantityFront(front, categories);
      assert front[1..] == items[1..][..|items| - 2] && Last(items[1..]) == Last(items);
    } else {
      assert items[1..] == [] && items[..0] == [];
    }
  }

  lemma {:induction false} TotalsAreQuantities(items: seq<UsageItem>)
    ensures PromptTotal(items) == Quantity(items, PROMPT) && CompletionTotal(items) == Quantity(items, COMPLETION)
    decreases |items|
  {
    if items != [] {
      TotalsAreQuantities(items[1..]);
      QuantityFront(items, PROMPT);
      QuantityFront(items, COMPLETION);
    }
  }

  /** A tool call that nobody answered yet goes back to its caller exactly when the tokens it reports fit their column. */
  lemma ToolCallIsHandedBack(attempts: seq<AttemptRow>)
    requires attempts != [] && 0 < Last(attempts).no < MAX_UINT32
    ensures var latest := Last(attempts);
            NextAttempt(attempts, false) == ReturnToolResult
            <==> latest.state == Succeeded && latest.candidate == Some(ToolCalls) && latest.usage.Complete?
                 && Quantity(latest.usage.items, PROMPT) + Quantity(latest.usage.items, COMPLETION) <= MAX_INT64
  {
    if Last(attempts).usage.Complete? { TotalsAreQuantities(Last(attempts).usage.items); }
  }

  lemma {:induction false} ReportedFront(rows: seq<AttemptRow>, categories: set<Category>)
    requires rows != []
    ensures Reported(rows, categories)
         == Reported(rows[1..], categories) + if rows[0].usage.Complete? then Quantity(rows[0].usage.items, categories) else 0
    decreases |rows|
  {
    if |rows| > 1 {
      var front := rows[..|rows| - 1];
      ReportedFront(front, categories);
      assert front[1..] == rows[1..][..|rows| - 2] && Last(rows[1..]) == Last(rows);
    } else {
      assert rows[1..] == [] && rows[..0] == [];
    }
  }

  lemma {:induction false} BillableTokens(f: Facts, attempts: seq<AttemptRow>)
    requires forall a :: a in attempts && f.stopped == Some(a.id) ==> Stopped(f, a)
    ensures BillablePrompt(f, attempts) == Reported(ChargeableOf(f, attempts), PROMPT)
    ensures BillableCompletion(f, attempts) == Reported(ChargeableOf(f, attempts), COMPLETION)
    decreases |attempts|
  {
    if attempts != [] {
      BillableTokens(f, attempts[1..]);
      assert attempts[0] in attempts;
      assert Billable(f, attempts[0]) <==> Chargeable(f, attempts[0]) && attempts[0].usage.Complete?;
      if Chargeable(f, attempts[0]) {
        var rows := ChargeableOf(f, attempts);
        assert rows[0] == attempts[0] && rows[1..] == ChargeableOf(f, attempts[1..]);
        ReportedFront(rows, PROMPT);
        ReportedFront(rows, COMPLETION);
        if attempts[0].usage.Complete? { TotalsAreQuantities(attempts[0].usage.items); }
      } else {
        assert ChargeableOf(f, attempts) == ChargeableOf(f, attempts[1..]);
      }
    }
  }

  lemma OnlyLastStopped(db: ChatDb, f: Facts)
    requires FactsOf(db, f)
    ensures forall a :: a in f.attempts && f.stopped == Some(a.id) ==> Stopped(f, a)
  {
    StoppedIsLast(db, f);
    NormalizedRows(db);
    if db.attempts != [] { StopOfLast(db, f); }
    forall a | a in f.attempts && f.stopped == Some(a.id) ensures Stopped(f, a) {
      assert a.id == Last(f.attempts).id;
      LastById(f.attempts, a);
      assert Chargeable(f, Last(f.attempts));
    }
  }

  lemma LastById(n: seq<AttemptRow>, a: AttemptRow)
    requires n != [] && a in n && a.id == Last(n).id && forall i, j :: 0 <= i < j < |n| ==> n[i].id != n[j].id
    ensures a == Last(n)
  {
    var i :| 0 <= i < |n| && n[i] == a;
  }

  /** The token columns hold what the charged rows report: prompt and cache tokens on one side, completion tokens on the other. */
  lemma SettlementTokens(pricer: Pricer, db: ChatDb, rows: seq<AttemptRow>)
    requires OpenRun(db) && ChargedRows(db, rows) && Settle(pricer, db).Ok?
    ensures var after := Settle(pricer, db).value.0;
            && after.run.promptTokens == Reported(rows, PROMPT) && after.run.completionTokens == Reported(rows, COMPLETION)
            && Reported(rows, PROMPT) + Reported(rows, COMPLETION) <= MAX_INT64
  {
    var attempts, f, d := AppliedFrom(pricer, db);
    JudgedParts(pricer, db, attempts, f, d);
    DecidedEnds(pricer, db, f, d);
    BillableRows(db, f, rows);
    OnlyLastStopped(db, f);
    BillableTokens(f, f.attempts);
    WrittenTokens(db.(attempts := attempts), f, d);
  }

  lemma WrittenTokens(db: ChatDb, f: Facts, d: Decision)
    requires ApplyDecision(db, f, d).Ok?
    ensures var after := ApplyDecision(db, f, d).value;
            && after.run.promptTokens == BillablePrompt(f, f.attempts) && after.run.completionTokens == BillableCompletion(f, f.attempts)
            && BillablePrompt(f, f.attempts) + BillableCompletion(f, f.attempts) <= MAX_INT64
            && after.run.status == d.runStatus && after.run.reason == d.reason
  {
  }

  // ---------- the shown message ----------

  /** What a finished run shows: its answer, in the message that stood there with the same text or in a new one; the stopped
      message it had; or nothing but what was delivered before it failed. The command and the run point at it. */
  ghost predicate Shows(db: ChatDb, after: ChatDb, answer: Option<string>) {
    match after.run.status
    case RunSuccess =>
      && answer.Some? && answer.value != "" && after.message.Some? && after.message.value.content == answer.value
      && !after.message.value.deleted && after.command.assistant == after.run.assistant == Some(after.message.value.id)
      && (db.message.Some? ==> after.message == db.message)
    case RunCanceled =>
      && db.message.Some? && after.message == db.message && db.message.value.stopped
      && after.command.assistant == after.run.assistant == Some(db.message.value.id)
    case _ =>
      && db.message.None?
      && (if db.command.deliverySeq == 0 then after.message.None? && after.run.assistant.None?
          else after.message.Some? && after.message.value.stopped && after.run.assistant == Some(after.message.value.id))
  }

  function AnswerOf(candidate: Option<Candidate>): Option<string> {
    if candidate.Some? && candidate.value.FinalAnswer? then Some(candidate.value.answer) else None
  }

  lemma WrittenMessage(db: ChatDb, f: Facts, d: Decision)
    requires ApplyDecision(db, f, d).Ok?
    ensures var after := ApplyDecision(db, f, d).value;
            && after.run.status == d.runStatus
            && Shows(db, after, AnswerOf(if d.candidate.Some? then Some(d.candidate.value.1) else None))
  {
  }

  /** A settled run shows the answer of its latest attempt, its stopped message, or what was delivered before it failed. */
  lemma SettlementShows(pricer: Pricer, db: ChatDb)
    requires OpenRun(db) && Settle(pricer, db).Ok?
    ensures Shows(db, Settle(pricer, db).value.0, if db.attempts == [] then None else AnswerOf(Last(db.attempts).candidate))
  {
    var attempts, f, d := DecisionOf(pricer, db);
    WrittenMessage(db.(attempts := attempts), f, d);
    if d.runStatus == RunSuccess {
      SuccessHasAnswer(pricer, db, attempts, f, d);
      LastKept(db);
    }
  }

  lemma DecisionOf(pricer: Pricer, db: ChatDb) returns (attempts: seq<AttemptRow>, f: Facts, d: Decision)
    requires OpenBilling(db.run) && Settle(pricer, db).Ok?
    ensures Judge(pricer, db) == Ok((attempts, f, d)) && attempts == Normalize(db.command, db.attempts)
    ensures ApplyDecision(db.(attempts := attempts), f, d) == Ok(Settle(pricer, db).value.0)
  {
    attempts, f, d := Judge(pricer, db).value.0, Judge(pricer, db).value.1, Judge(pricer, db).value.2;
  }

  lemma LastKept(db: ChatDb)
    requires db.attempts != [] && Last(Normalize(db.command, db.attempts)).state == Succeeded
    ensures Last(Normalize(db.command, db.attempts)) == Last(db.attempts)
  {
  }

  // ---------- the attempts and the command ----------

  /** The row a settlement leaves of an attempt: a prepared one was never sent, of a dispatched one only the request id is known,
      and no result candidate stays behind. */
  function ClosedRow(a: AttemptRow): AttemptRow {
    match a.state
    case Prepared => AttemptRow(a.id, a.no, a.evidence, Canceled, NotDispatched, Unavailable, None, None, None)
    case Dispatched => AttemptRow(a.id, a.no, a.evidence, OutcomeUnknown, SendUnknown, Unavailable, None, a.requestId, None)
    case _ => a.(candidate := None)
  }

  function CommandFor(status: RunStatus): CommandState {
    match status
    case RunSuccess => CommandSucceeded
    case RunCanceled => CommandCanceled
    case RunOutcomeUnknown => CommandOutcomeUnknown
    case _ => CommandFailed
  }

  lemma ClosedAt(db: ChatDb, i: nat)
    requires OpenRun(db) && i < |db.attempts|
    requires Terminal(Normalize(db.command, db.attempts)[i].state)
    ensures Normalize(db.command, db.attempts)[i].(candidate := None) == ClosedRow(db.attempts[i])
    ensures db.attempts[i].state == Prepared ==> db.command.cancelRequested || db.command.marker == PreDispatchMarker
    ensures db.attempts[i].state == Dispatched ==> db.command.state == CommandOutcomeUnknown
  {
    NormalizedRows(db);
    assert AttemptConsistent(db.attempts[i]);
  }

  lemma WrittenCommand(db: ChatDb, f: Facts, d: Decision)
    requires ApplyDecision(db, f, d).Ok?
    ensures var after := ApplyDecision(db, f, d).value;
            && after.attempts == ClearCandidates(db.attempts)
            && after.command == db.command.(state := CommandFor(after.run.status), finished := true, owner := None,
                                            assistant := after.run.assistant,
                                            marker := if after.run.status == RunSuccess || after.run.status == RunCanceled
                                                      then NoMarker else OtherMarker)
  {
  }

  /** A settlement leaves no attempt open: it closes a prepared one only after a stop or a failure before dispatch, and a sent one
      only once its command was given up. The command ends as the run does and belongs to nobody any more. */
  lemma SettlementCloses(pricer: Pricer, db: ChatDb)
    requires OpenRun(db) && Settle(pricer, db).Ok?
    ensures var after := Settle(pricer, db).value.0;
            && |after.attempts| == |db.attempts|
            && (forall i :: 0 <= i < |db.attempts| ==> after.attempts[i] == ClosedRow(db.attempts[i]))
            && (forall a :: a in db.attempts && a.state == Prepared ==>
                  db.command.cancelRequested || db.command.marker == PreDispatchMarker)
            && (forall a :: a in db.attempts && a.state == Dispatched ==> db.command.state == CommandOutcomeUnknown)
            && after.command == db.command.(state := CommandFor(after.run.status), finished := true, owner := None,
                                            assistant := after.run.assistant,
                                            marker := if after.run.status == RunSuccess || after.run.status == RunCanceled
                                                      then NoMarker else OtherMarker)
  {
    var attempts, f, d := DecisionOf(pricer, db);
    JudgedParts(pricer, db, attempts, f, d);
    DecisionFollowsTrigger(pricer, f);
    FactsOfOpenRun(db);
    forall i | 0 <= i < |attempts| ensures Terminal(attempts[i].state) { assert attempts[i] in f.attempts; }
    forall i | 0 <= i < |db.attempts| { ClosedAt(db, i); }
    WrittenCommand(db.(attempts := attempts), f, d);
  }

  // ---------- status and reason ----------

  /** Why rows that would be charged were not: their price exceeds the hold, or they have none. */
  function UnpaidReason(pricer: Pricer, legacy: bool, held: int, rows: seq<AttemptRow>): BillingReason {
    var price := pricer.settle(rows);
    if !legacy && rows != [] && (forall a :: a in rows ==> a.usage.Complete?) && price.Priced?
       && QuoteAccepted(rows, price.units, price.items) && price.units > held
    then UnbilledOverHold else UnbilledUsageIncomplete
  }

  function PaidReason(pricer: Pricer, legacy: bool, held: int, rows: seq<AttemptRow>): BillingReason {
    if Affordable(pricer, legacy, held, rows) then SettledCompleteUsage else UnpaidReason(pricer, legacy, held, rows)
  }

  /** How a run ends, read from the rows before its settlement. */
  function EndReason(pricer: Pricer, db: ChatDb, rows: seq<AttemptRow>): BillingReason {
    var paid := PaidReason(pricer, db.run.legacy, db.charge.held, rows);
    if db.command.cancelRequested then
      if forall a :: a in db.attempts ==> a.dispatch == NotDispatched then ReleasedBeforeDispatch
      else if ChargeableEnd(db) then paid
      else UnbilledUsageIncomplete
    else
      match db.command.marker
      case PreDispatchMarker => ReleasedBeforeDispatch
      case LocalMarker => ReleasedProviderFailed
      case InitialInsufficientMarker => ReleasedInsufficientBalance
      case TopUpInsufficientMarker => if rows == [] then ReleasedInsufficientBalance else paid
      case _ =>
        if db.attempts == [] then ReleasedBeforeDispatch
        else
          match Last(db.attempts).state
          case Succeeded => if RequiresLocalFailure(Last(db.attempts)) then ReleasedProviderFailed else paid
          case Failed => ReleasedProviderFailed
          case _ => ReleasedOutcomeUnknown
  }

  function EndStatus(pricer: Pricer, db: ChatDb, rows: seq<AttemptRow>): RunStatus {
    if db.command.cancelRequested then RunCanceled
    else if db.command.marker != TopUpInsufficientMarker && Charged(pricer, db, rows) then RunSuccess
    else if EndReason(pricer, db, rows) == ReleasedOutcomeUnknown then RunOutcomeUnknown
    else RunFailed
  }

  ghost predicate EndsFor(pricer: Pricer, f: Facts, rows: seq<AttemptRow>, paid: BillingReason) {
    && ChargeableOf(f, f.attempts) == rows
    && (f.hold.Some? ==> paid == PaidReason(pricer, f.run.legacy, f.hold.value.held, rows))
  }

  lemma PricedReason(pricer: Pricer, f: Facts, rows: seq<AttemptRow>, paid: BillingReason, status: RunStatus, publish: bool)
    requires EndsFor(pricer, f, rows, paid) && f.hold.Some? && PriceOrUnbilled(pricer, f, status, publish).Ok?
    requires status != RunOutcomeUnknown && status != RunRunning
    ensures var d := PriceOrUnbilled(pricer, f, status, publish).value;
            && d.reason == paid
            && d.runStatus == (if paid == SettledCompleteUsage || status == RunCanceled then status else RunFailed)
  {
  }

  /** The reason and the status of a decision by its trigger. */
  lemma ReasonByTrigger(pricer: Pricer, f: Facts, d: Decision, rows: seq<AttemptRow>, paid: BillingReason)
    requires EndsFor(pricer, f, rows, paid) && Decide(pricer, f) == Ok(d)
    requires f.trigger == Success || f.trigger == UserStop || f.trigger == ContinuationTopUpInsufficient ==> f.hold.Some?
    ensures match f.trigger
            case Success => d.reason == paid && d.runStatus == (if paid == SettledCompleteUsage then RunSuccess else RunFailed)
            case UserStop =>
              d.reason == (if AllSucceededOrStopped(f) then paid else UnbilledUsageIncomplete) && d.runStatus == RunCanceled
            case UserStopBeforeDispatch => d.reason == ReleasedBeforeDispatch && d.runStatus == RunCanceled
            case PreDispatchFailed => d.reason == ReleasedBeforeDispatch && d.runStatus == RunFailed
            case LocalFailure => d.reason == ReleasedProviderFailed && d.runStatus == RunFailed
            case InitialInsufficient => d.reason == ReleasedInsufficientBalance && d.runStatus == RunFailed
            case ContinuationTopUpInsufficient =>
              d.reason == (if rows == [] then ReleasedInsufficientBalance else paid) && d.runStatus == RunFailed
            case ProviderFailed => d.reason == ReleasedProviderFailed && d.runStatus == RunFailed
            case OutcomeUnknownTrigger => d.reason == ReleasedOutcomeUnknown && d.runStatus == RunOutcomeUnknown
  {
    match f.trigger {
      case Success => PricedReason(pricer, f, rows, paid, RunSuccess, true);
      case UserStop => if AllSucceededOrStopped(f) { PricedReason(pricer, f, rows, paid, RunCanceled, false); }
      case ContinuationTopUpInsufficient =>
        if rows != [] && !f.run.legacy { PricedReason(pricer, f, rows, paid, RunFailed, false); }
      case _ =>
    }
  }

  lemma SameDispatch(db: ChatDb, i: nat)
    requires OpenRun(db) && i < |db.attempts|
    ensures Normalize(db.command, db.attempts)[i].dispatch == NotDispatched <==> db.attempts[i].dispatch == NotDispatched
  {
    assert AttemptConsistent(db.attempts[i]);
  }

  lemma NothingDispatched(db: ChatDb)
    requires OpenRun(db)
    ensures (forall a :: a in db.attempts ==> a.dispatch == NotDispatched)
       <==> (forall a :: a in Normalize(db.command, db.attempts) ==> a.dispatch == NotDispatched)
  {
    var n := Normalize(db.command, db.attempts);
    if forall a :: a in db.attempts ==> a.dispatch == NotDispatched {
      forall a | a in n ensures a.dispatch == NotDispatched {
        var i :| 0 <= i < |n| && n[i] == a;
        SameDispatch(db, i);
      }
    }
    if forall a :: a in n ==> a.dispatch == NotDispatched {
      forall a | a in db.attempts ensures a.dispatch == NotDispatched {
        var i :| 0 <= i < |n| && db.attempts[i] == a;
        SameDispatch(db, i);
      }
    }
  }

  lemma StopTrigger(command: CommandRow, n: seq<AttemptRow>)
    requires command.cancelRequested
    ensures DeriveTrigger(command, n)
         == Ok(if forall a :: a in n ==> a.dispatch == NotDispatched then UserStopBeforeDispatch else UserStop)
  {
  }

  lemma StopReason(pricer: Pricer, db: ChatDb, f: Facts, d: Decision, rows: seq<AttemptRow>)
    requires FactsOf(db, f) && MoneyFactsConsistent(f) && Decide(pricer, f) == Ok(d) && ChargedRows(db, rows)
    requires db.command.cancelRequested
    ensures d.reason == EndReason(pricer, db, rows) && d.runStatus == RunCanceled
  {
    var paid := PaidReason(pricer, db.run.legacy, db.charge.held, rows);
    TriggerOf(db, f);
    NothingDispatched(db);
    StopTrigger(db.command, f.attempts);
    BillableRows(db, f, rows);
    MoneyOfFacts(db, f);
    ReasonByTrigger(pricer, f, d, rows, paid);
    if f.trigger == UserStop {
      StopEnds(db, f, rows);
      EmptyIsUnpaid(pricer, db, rows);
    }
  }

  lemma EmptyIsUnpaid(pricer: Pricer, db: ChatDb, rows: seq<AttemptRow>)
    ensures rows == [] ==> PaidReason(pricer, db.run.legacy, db.charge.held, rows) == UnbilledUsageIncomplete
  {
  }

  lemma MoneyOfFacts(db: ChatDb, f: Facts)
    requires FactsOf(db, f) && MoneyFactsConsistent(f)
    ensures f.run == db.run && (f.hold.Some? ==> f.hold.value.held == db.charge.held)
    ensures f.trigger == Success || f.trigger == UserStop || f.trigger == ContinuationTopUpInsufficient ==> f.hold.Some?
  {
    FactsOfOpenRun(db);
  }

  /** The trigger of a run nobody stopped and no marker decides. */
  lemma AttemptReason(pricer: Pricer, db: ChatDb, f: Facts, rows: seq<AttemptRow>)
    requires FactsOf(db, f) && !db.command.cancelRequested && !DecisiveMarker(db.command.marker)
    requires f.attempts == Normalize(db.command, db.attempts) && DeriveTrigger(db.command, f.attempts) == Ok(f.trigger)
    requires f.trigger == ProviderFailed ==> f.attempts != [] && Last(f.attempts).state == Failed
    ensures EndReason(pricer, db, rows)
         == match f.trigger
            case Success => PaidReason(pricer, db.run.legacy, db.charge.held, rows)
            case PreDispatchFailed => ReleasedBeforeDispatch
            case OutcomeUnknownTrigger => ReleasedOutcomeUnknown
            case _ => ReleasedProviderFailed
    ensures f.trigger == Success || f.trigger == PreDispatchFailed || f.trigger == OutcomeUnknownTrigger
            || f.trigger == LocalFailure || f.trigger == ProviderFailed
  {
  }

  lemma MarkedReason(pricer: Pricer, db: ChatDb, f: Facts, rows: seq<AttemptRow>)
    requires !db.command.cancelRequested && DecisiveMarker(db.command.marker) && DeriveTrigger(db.command, f.attempts) == Ok(f.trigger)
    ensures EndReason(pricer, db, rows)
         == match f.trigger
            case PreDispatchFailed => ReleasedBeforeDispatch
            case LocalFailure => ReleasedProviderFailed
            case InitialInsufficient => ReleasedInsufficientBalance
            case _ => if rows == [] then ReleasedInsufficientBalance else PaidReason(pricer, db.run.legacy, db.charge.held, rows)
    ensures f.trigger == PreDispatchFailed || f.trigger == LocalFailure || f.trigger == InitialInsufficient
            || f.trigger == ContinuationTopUpInsufficient
    ensures f.trigger == ContinuationTopUpInsufficient <==> db.command.marker == TopUpInsufficientMarker
  {
  }

  /** The decision has the stored reason, and the status that goes with it. */
  ghost predicate EndsAs(pricer: Pricer, db: ChatDb, f: Facts, d: Decision, rows: seq<AttemptRow>) {
    && d.reason == EndReason(pricer, db, rows)
    && d.runStatus == (if f.trigger == Success && d.reason == SettledCompleteUsage then RunSuccess
                       else if d.reason == ReleasedOutcomeUnknown then RunOutcomeUnknown else RunFailed)
  }

  lemma MarkedEnds(pricer: Pricer, db: ChatDb, f: Facts, d: Decision, rows: seq<AttemptRow>)
    requires FactsOf(db, f) && MoneyFactsConsistent(f) && Decide(pricer, f) == Ok(d)
    requires ChargedRows(db, rows) && !db.command.cancelRequested && DecisiveMarker(db.command.marker)
    ensures EndsAs(pricer, db, f, d, rows) && f.trigger != Success
  {
    TriggerOf(db, f);
    BillableRows(db, f, rows);
    MoneyOfFacts(db, f);
    MarkedReason(pricer, db, f, rows);
    ReasonByTrigger(pricer, f, d, rows, PaidReason(pricer, db.run.legacy, db.charge.held, rows));
  }

  lemma ProviderEnds(f: Facts)
    requires AttemptFactsConsistent(f)
    ensures f.trigger == ProviderFailed ==> f.attempts != [] && Last(f.attempts).state == Failed
  {
  }

  lemma UnmarkedEnds(pricer: Pricer, db: ChatDb, f: Facts, d: Decision, rows: seq<AttemptRow>)
    requires FactsOf(db, f) && MoneyFactsConsistent(f) && Decide(pricer, f) == Ok(d)
    requires f.trigger == ProviderFailed ==> f.attempts != [] && Last(f.attempts).state == Failed
    requires ChargedRows(db, rows) && !db.command.cancelRequested && !DecisiveMarker(db.command.marker)
    ensures EndsAs(pricer, db, f, d, rows)
  {
    TriggerOf(db, f);
    BillableRows(db, f, rows);
    MoneyOfFacts(db, f);
    AttemptReason(pricer, db, f, rows);
    ReasonByTrigger(pricer, f, d, rows, PaidReason(pricer, db.run.legacy, db.charge.held, rows));
  }

  lemma UnstoppedReason(pricer: Pricer, db: ChatDb, f: Facts, d: Decision, rows: seq<AttemptRow>)
    requires FactsOf(db, f) && MoneyFactsConsistent(f) && AttemptFactsConsistent(f) && Decide(pricer, f) == Ok(d)
    requires ChargedRows(db, rows) && !db.command.cancelRequested
    ensures EndsAs(pricer, db, f, d, rows) && (f.trigger == Success ==> !DecisiveMarker(db.command.marker))
  {
    ProviderEnds(f);
    if DecisiveMarker(db.command.marker) { MarkedEnds(pricer, db, f, d, rows); } else { UnmarkedEnds(pricer, db, f, d, rows); }
  }

  function BillingOf(reason: BillingReason): BillingStatus {
    match reason
    case PendingReason => BillingPending
    case HeldReason => BillingHeld
    case SettledCompleteUsage => BillingSettled
    case UnbilledUsageIncomplete => BillingUnbilled
    case UnbilledOverHold => BillingUnbilled
    case _ => BillingReleased
  }

  lemma PricedBilling(pricer: Pricer, f: Facts, status: RunStatus, publish: bool)
    ensures var d := PriceOrUnbilled(pricer, f, status, publish); d.Ok? ==> d.value.billing == BillingOf(d.value.reason)
  {
  }

  lemma DecidedBilling(pricer: Pricer, f: Facts)
    requires Decide(pricer, f).Ok?
    ensures Decide(pricer, f).value.billing == BillingOf(Decide(pricer, f).value.reason)
  {
    match f.trigger {
      case Success => PricedBilling(pricer, f, RunSuccess, true);
      case UserStop => PricedBilling(pricer, f, RunCanceled, false);
      case ContinuationTopUpInsufficient => PricedBilling(pricer, f, RunFailed, false);
      case _ =>
    }
  }

  lemma SettledBilling(pricer: Pricer, db: ChatDb)
    requires OpenRun(db) && Settle(pricer, db).Ok?
    ensures Settle(pricer, db).value.0.run.billing == BillingOf(Settle(pricer, db).value.0.run.reason)
  {
    var attempts, f, d := AppliedFrom(pricer, db);
    JudgedParts(pricer, db, attempts, f, d);
    DecidedBilling(pricer, f);
    WrittenTokens(db.(attempts := attempts), f, d);
  }

  /** The status and the reason of every applied settlement, from the rows before it. */
  lemma SettlementEnds(pricer: Pricer, db: ChatDb, rows: seq<AttemptRow>)
    requires OpenRun(db) && ChargedRows(db, rows) && Settle(pricer, db).Ok?
    ensures var after := Settle(pricer, db).value.0;
            && after.run.reason == EndReason(pricer, db, rows) && after.run.status == EndStatus(pricer, db, rows)
            && after.run.billing == BillingOf(after.run.reason)
  {
    SettledBilling(pricer, db);
    var attempts, f, d := AppliedFrom(pricer, db);
    JudgedParts(pricer, db, attempts, f, d);
    DecidedEnds(pricer, db, f, d);
    WrittenTokens(db.(attempts := attempts), f, d);
    SettlementCharges(pricer, db, rows);
    JudgedAttempts(pricer, db, attempts, f, d);
    if db.command.cancelRequested {
      StopReason(pricer, db, f, d, rows);
    } else {
      UnstoppedReason(pricer, db, f, d, rows);
      SuccessIsCharged(pricer, db, f, rows, d);
    }
  }

  lemma JudgedAttempts(pricer: Pricer, db: ChatDb, attempts: seq<AttemptRow>, f: Facts, d: Decision)
    requires Judge(pricer, db) == Ok((attempts, f, d))
    ensures AttemptFactsConsistent(f)
  {
  }

  lemma SuccessIsCharged(pricer: Pricer, db: ChatDb, f: Facts, rows: seq<AttemptRow>, d: Decision)
    requires FactsOf(db, f) && MoneyFactsConsistent(f) && Decide(pricer, f) == Ok(d) && ChargedRows(db, rows)
    requires !db.command.cancelRequested && d.reason == EndReason(pricer, db, rows)
    ensures f.trigger == Success && d.reason == SettledCompleteUsage
            <==> db.command.marker != TopUpInsufficientMarker && Charged(pricer, db, rows)
  {
    DecidedCharge(pricer, db, f, d, rows);
    DecisionFollowsTrigger(pricer, f);
    TriggerOf(db, f);
    BillableRows(db, f, rows);
    MoneyOfFacts(db, f);
    ReasonByTrigger(pricer, f, d, rows, PaidReason(pricer, db.run.legacy, db.charge.held, rows));
    if DecisiveMarker(db.command.marker) { MarkedReason(pricer, db, f, rows); }
  }
}
