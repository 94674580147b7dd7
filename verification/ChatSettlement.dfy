/** The settlement transaction of a paid chat run: money, command, run, charge and candidates change together or not at all. */
module ChatSettlement {
  import opened Common
  import opened Wallet
  import opened ChatRows
  import opened ChatDecision
  import opened ChatTransactions

  // ---------- replay ----------

  predicate TerminalBilling(db: ChatDb) {
    !OpenBilling(db.run) && db.charge.status != ChargeOpen
  }

  predicate CommandMatchesRun(command: CommandRow, run: RunRow) {
    && command.finished
    && match run.status
       case RunRunning => false
       case RunSuccess => command.state == CommandSucceeded && command.assistant.Some? && command.assistant == run.assistant
       case RunCanceled => command.state == CommandCanceled && command.assistant.Some? && command.assistant == run.assistant
       case RunOutcomeUnknown => command.state == CommandOutcomeUnknown && command.assistant == run.assistant
       case RunFailed => command.state == CommandFailed && command.assistant == run.assistant
  }

  predicate HoldMatchesBilling(db: ChatDb) {
    var hold := FindHold(db.book.holds, db.run.id);
    match db.run.billing
    case BillingSettled =>
      && db.charge.status == ChargeSettled && hold.Some? && hold.value.status == HoldCaptured
      && hold.value.held == 0 && hold.value.captured == db.charge.actual
    case BillingReleased =>
      db.charge.status == ChargeReleased && db.charge.actual == 0
      && (hold.Some? ==> hold.value.status == HoldReleased && hold.value.held == 0 && hold.value.captured == 0)
    case BillingUnbilled =>
      db.charge.status == ChargeUnbilled && db.charge.actual == 0
      && hold.Some? && hold.value.status == HoldReleased && hold.value.held == 0 && hold.value.captured == 0
    case _ => false
  }

  predicate ReplayAccepted(db: ChatDb) {
    && db.charge.finalized && db.charge.runId == db.run.id && db.charge.userId == db.run.userId && db.charge.actual >= 0
    && HoldMatchesBilling(db)
    && CommandMatchesRun(db.command, db.run)
    && forall i :: 0 <= i < |db.attempts| ==> db.attempts[i].candidate.None?
  }

  // ---------- the steps of an applied settlement ----------

  function ApplyMoney(db: ChatDb, f: Facts, d: Decision): Result<Book, SettleError> {
    match d.action
    case CaptureMoney =>
      if f.hold.None? then Err(InconsistentFacts)
      else (match Capture(db.book, db.run.id, d.actual)
            case Err(e) => Err(MoneyRefused(e))
            case Ok((book, row)) => if (d.actual == 0) == row.None? then Ok(book) else Err(MoneyRefused(Integrity)))
    case ReleaseMoney =>
      if f.hold.None? then
        if f.trigger == InitialInsufficient || f.trigger == UserStopBeforeDispatch || f.trigger == PreDispatchFailed then Ok(db.book)
        else Err(InconsistentFacts)
      else (match Release(db.book, db.run.id)
            case Err(e) => Err(MoneyRefused(e))
            case Ok(book) => Ok(book))
  }

  datatype CommandTarget = CommandTarget(state: CommandState, content: string)

  function CommandInput(d: Decision): Result<CommandTarget, SettleError> {
    match d.runStatus
    case RunSuccess =>
      if !d.publish then Err(CandidateMismatch)
      else if d.candidate.Some? && d.candidate.value.1.FinalAnswer? && d.candidate.value.1.answer != "" then
        Ok(CommandTarget(CommandSucceeded, d.candidate.value.1.answer))
      else Err(CandidateMismatch)
    case RunCanceled => Ok(CommandTarget(CommandCanceled, ""))
    case RunOutcomeUnknown => Ok(CommandTarget(CommandOutcomeUnknown, ""))
    case RunFailed => Ok(CommandTarget(CommandFailed, ""))
    case RunRunning => Err(InconsistentFacts)
  }

  predicate CommandMayFinish(current: CommandState, target: CommandState) {
    current == Pending || current == Claimed || current == Running || current == CommandOutcomeUnknown
    || (current == CommandFailed && target == CommandFailed)
  }

  /** The reply message a finished command shows, created when none exists yet. */
  function FinishMessage(db: ChatDb, t: CommandTarget): Result<(ChatDb, Option<nat>), SettleError> {
    match t.state
    case CommandSucceeded =>
      if db.command.cancelRequested then Err(CommandConflict)
      else if db.message.Some? && (db.message.value.content != t.content || db.message.value.deleted) then Err(CommandConflict)
      else if db.conversationDeleted then Err(CommandConflict)
      else if db.message.Some? then Ok((db, Some(db.message.value.id)))
      else Ok((db.(message := Some(Message(db.nextId, t.content, false, false)), nextId := db.nextId + 1), Some(db.nextId)))
    case CommandCanceled =>
      if !db.command.cancelRequested || db.command.assistant.None? || db.message.None? then Err(CommandConflict)
      else if db.message.value.id != db.command.assistant.value || !db.message.value.stopped then Err(CommandConflict)
      else if db.message.value.deleted && !db.conversationDeleted then Err(CommandConflict)
      else Ok((db, Some(db.message.value.id)))
    case _ =>
      if db.message.Some? || db.command.assistant.Some? then Err(CommandConflict)
      else if db.command.deliverySeq > 0 then
        if !db.prefixReadable || db.conversationDeleted then Err(CommandConflict)
        else Ok((db.(message := Some(Message(db.nextId, "", true, false)), nextId := db.nextId + 1), Some(db.nextId)))
      else Ok((db, None))
  }

  function FinishCommand(db: ChatDb, t: CommandTarget): Result<(ChatDb, Option<nat>), SettleError> {
    match FinishMessage(db, t)
    case Err(e) => Err(e)
    case Ok((shown, assistant)) =>
      if !CommandMayFinish(db.command.state, t.state) then Err(CommandConflict)
      else
        var c := shown.command.(state := t.state, finished := true, owner := None,
                                assistant := if assistant.Some? then assistant else shown.command.assistant,
                                marker := if t.state == CommandSucceeded || t.state == CommandCanceled then NoMarker else OtherMarker);
        Ok((shown.(command := c), assistant))
  }

  predicate Billable(f: Facts, a: AttemptRow) {
    (a.state == Succeeded || f.stopped == Some(a.id)) && a.usage.Complete?
  }

  function BillablePrompt(f: Facts, attempts: seq<AttemptRow>): nat {
    if attempts == [] then 0
    else (if Billable(f, attempts[0]) then PromptTotal(attempts[0].usage.items) else 0) + BillablePrompt(f, attempts[1..])
  }

  function BillableCompletion(f: Facts, attempts: seq<AttemptRow>): nat {
    if attempts == [] then 0
    else (if Billable(f, attempts[0]) then CompletionTotal(attempts[0].usage.items) else 0) + BillableCompletion(f, attempts[1..])
  }

  function FinishRunAndCharge(db: ChatDb, f: Facts, d: Decision, assistant: Option<nat>): Result<ChatDb, SettleError> {
    var prompt, completion := BillablePrompt(f, f.attempts), BillableCompletion(f, f.attempts);
    if prompt + completion > MAX_INT64 then Err(TokenOverflow)
    else if (d.runStatus == RunSuccess || d.runStatus == RunCanceled) && assistant.None? then Err(CommandConflict)
    else if db.run.status != RunRunning || !OpenBilling(db.run)
            || db.charge.status != ChargeOpen || db.charge.finalized
    then Err(TerminalConflict)
    else
      var run := db.run.(status := d.runStatus, billing := d.billing, reason := d.reason, assistant := assistant,
                         promptTokens := prompt, completionTokens := completion);
      var charge := db.charge.(actual := if d.charge == ChargeSettled then d.actual else 0, status := d.charge, finalized := true,
                               items := if d.charge == ChargeSettled then db.charge.items + d.items else db.charge.items);
      Ok(db.(run := run, charge := charge))
  }

  function ClearCandidates(attempts: seq<AttemptRow>): (r: seq<AttemptRow>)
    ensures |r| == |attempts|
    ensures forall i :: 0 <= i < |attempts| ==> r[i] == attempts[i].(candidate := None)
  {
    seq(|attempts|, i requires 0 <= i < |attempts| => attempts[i].(candidate := None))
  }

  function ApplyDecision(db: ChatDb, f: Facts, d: Decision): Result<ChatDb, SettleError> {
    match ApplyMoney(db, f, d)
    case Err(e) => Err(e)
    case Ok(book) =>
      match CommandInput(d)
      case Err(e) => Err(e)
      case Ok(target) =>
        match FinishCommand(db.(book := book), target)
        case Err(e) => Err(e)
        case Ok((finished, assistant)) =>
          match FinishRunAndCharge(finished, f, d, assistant)
          case Err(e) => Err(e)
          case Ok(settled) => Ok(settled.(attempts := ClearCandidates(settled.attempts)))
  }

  datatype Settlement = Applied | Replayed

  /** What an open run is settled as: the normalized attempts, the facts read from them, and the decision. */
  function Judge(pricer: Pricer, db: ChatDb): Result<(seq<AttemptRow>, Facts, Decision), SettleError> {
    var attempts := Normalize(db.command, db.attempts);
    match BuildFacts(db, attempts)
    case Err(e) => Err(e)
    case Ok(f) =>
      if !MoneyFactsConsistent(f) || !AttemptFactsConsistent(f) then Err(InconsistentFacts)
      else
        match Decide(pricer, f)
        case Err(e) => Err(e)
        case Ok(d) => Ok((attempts, f, d))
  }

  function Settle(pricer: Pricer, db: ChatDb): Result<(ChatDb, Settlement), SettleError> {
    if TerminalBilling(db) then
      if ReplayAccepted(db) then Ok((db, Replayed)) else Err(InvalidReplay)
    else if db.run.status != RunRunning || db.charge.status != ChargeOpen || db.charge.finalized then Err(NotOpen)
    else
      match Judge(pricer, db)
      case Err(e) => Err(e)
      case Ok((attempts, f, d)) =>
        match ApplyDecision(db.(attempts := attempts), f, d)
        case Err(e) => Err(e)
        case Ok(db') => Ok((db', Applied))
  }

  // ---------- the decision is coherent ----------

  /** What the store relies on about a decision: statuses, money action and units fit together,
      and nothing settles for more than the hold. */
  ghost predicate Coherent(f: Facts, d: Decision) {
    && (match d.billing
        case BillingSettled =>
          && d.charge == ChargeSettled && d.action == CaptureMoney && f.hold.Some? && 0 <= d.actual <= f.hold.value.held
          && SumAmounts(d.items) == d.actual
          && d.runStatus != RunOutcomeUnknown && (d.publish <==> d.runStatus == RunSuccess)
        case BillingReleased => d.charge == ChargeReleased && d.action == ReleaseMoney && d.actual == 0 && d.runStatus != RunSuccess
        case BillingUnbilled => d.charge == ChargeUnbilled && d.action == ReleaseMoney && f.hold.Some? && d.runStatus != RunSuccess
        case _ => false)
    && d.runStatus != RunRunning
    && (f.hold.None? ==> WithoutHold(f))
  }

  lemma PricedIsCoherent(pricer: Pricer, f: Facts, status: RunStatus, publish: bool)
    requires f.hold.Some? && PriceOrUnbilled(pricer, f, status, publish).Ok?
    requires (status == RunSuccess && publish) || ((status == RunCanceled || status == RunFailed) && !publish)
    ensures Coherent(f, PriceOrUnbilled(pricer, f, status, publish).value)
  {
  }

  lemma DecideIsCoherent(pricer: Pricer, f: Facts)
    requires MoneyFactsConsistent(f) && Decide(pricer, f).Ok?
    ensures Coherent(f, Decide(pricer, f).value)
  {
    match f.trigger {
      case Success => PricedIsCoherent(pricer, f, RunSuccess, true);
      case UserStop => if AllSucceededOrStopped(f) { PricedIsCoherent(pricer, f, RunCanceled, false); }
      case ContinuationTopUpInsufficient =>
        if ChargeableOf(f, f.attempts) != [] && !f.run.legacy { PricedIsCoherent(pricer, f, RunFailed, false); }
      case _ =>
    }
  }

  /** Money is charged only for complete usage of a replayable run, within the hold, and item by item. */
  lemma SettledOnlyForCompleteUsage(pricer: Pricer, f: Facts)
    requires MoneyFactsConsistent(f) && Decide(pricer, f).Ok? && Decide(pricer, f).value.billing == BillingSettled
    ensures var d := Decide(pricer, f).value;
            && !f.run.legacy
            && (exists a :: a in f.attempts && Chargeable(f, a))
            && (forall a :: a in f.attempts && Chargeable(f, a) ==> a.usage.Complete?)
            && (forall i :: 0 <= i < |d.items| ==> exists a :: a in f.attempts && Chargeable(f, a) && a.id == d.items[i].attemptId)
  {
    var billable := ChargeableOf(f, f.attempts);
    assert billable[0] in billable;
  }

  /** How a run ends follows from its trigger: unknown and canceled ends are for their own triggers only, nothing is charged
      for a local, provider or pre-dispatch failure, and a success publishes the candidate of an attempt it charges for. */
  lemma DecisionFollowsTrigger(pricer: Pricer, f: Facts)
    requires Decide(pricer, f).Ok?
    ensures var d := Decide(pricer, f).value;
            && (d.runStatus == RunOutcomeUnknown <==> f.trigger == OutcomeUnknownTrigger)
            && (d.runStatus == RunCanceled <==> f.trigger == UserStop || f.trigger == UserStopBeforeDispatch)
            && (d.runStatus == RunSuccess ==> f.trigger == Success && d.billing == BillingSettled)
            && (d.billing == BillingSettled ==> f.trigger == Success || f.trigger == UserStop || f.trigger == ContinuationTopUpInsufficient)
            && (d.reason == ReleasedBeforeDispatch <==> f.trigger == UserStopBeforeDispatch || f.trigger == PreDispatchFailed)
            && (d.reason == ReleasedBeforeDispatch ==> forall a :: a in f.attempts ==> a.dispatch != SentOut)
            && (d.publish ==> d.candidate == f.candidate && f.candidate.Some?
                              && exists a :: a in f.attempts && a.id == f.candidate.value.0 && (a.state == Succeeded || Stopped(f, a)))
    ensures forall a :: a in f.attempts ==> !Intermediate(a)
  {
    if Decide(pricer, f).value.publish {
      var billable := ChargeableOf(f, f.attempts);
      var a :| a in billable && a.id == f.candidate.value.0;
      assert a in f.attempts;
    }
  }

  lemma SuccessTrigger(command: CommandRow, attempts: seq<AttemptRow>)
    requires DeriveTrigger(command, attempts) == Ok(Success)
    ensures !command.cancelRequested && attempts != [] && Last(attempts).state == Succeeded
    ensures !Last(attempts).usage.Complete? || (Last(attempts).candidate.Some? && Last(attempts).candidate.value.FinalAnswer?)
  {
  }

  lemma FactsAboutLatest(db: ChatDb, attempts: seq<AttemptRow>)
    requires BuildFacts(db, attempts).Ok?
    ensures var f := BuildFacts(db, attempts).value;
            && DeriveTrigger(db.command, attempts) == Ok(f.trigger) && |f.attempts| == |attempts|
            && (attempts != [] ==> Last(f.attempts).id == Last(attempts).id
                                   && (Last(f.attempts).usage.Complete? ==> Last(f.attempts).usage == Last(attempts).usage)
                                   && f.candidate == (if Last(attempts).candidate.None? then None
                                                      else Some((Last(attempts).id, Last(attempts).candidate.value))))
  {
  }

  lemma JudgedParts(pricer: Pricer, db: ChatDb, attempts: seq<AttemptRow>, f: Facts, d: Decision)
    requires Judge(pricer, db) == Ok((attempts, f, d))
    ensures BuildFacts(db, attempts) == Ok(f) && Decide(pricer, f) == Ok(d)
    ensures forall i, j :: 0 <= i < j < |f.attempts| ==> f.attempts[i].id != f.attempts[j].id
  {
  }

  /** A run that ends in success ends with a final answer of a completely reported attempt. */
  lemma SuccessHasAnswer(pricer: Pricer, db: ChatDb, attempts: seq<AttemptRow>, f: Facts, d: Decision)
    requires Judge(pricer, db) == Ok((attempts, f, d)) && d.runStatus == RunSuccess
    ensures attempts != [] && Last(attempts).state == Succeeded && Last(attempts).usage.Complete?
    ensures Last(attempts).candidate.Some? && Last(attempts).candidate.value.FinalAnswer?
    ensures d.candidate == Some((Last(attempts).id, Last(attempts).candidate.value))
    ensures !db.command.cancelRequested
  {
    JudgedParts(pricer, db, attempts, f, d);
    SuccessParts(pricer, db, attempts, f, d);
  }

  lemma SuccessParts(pricer: Pricer, db: ChatDb, attempts: seq<AttemptRow>, f: Facts, d: Decision)
    requires BuildFacts(db, attempts) == Ok(f) && Decide(pricer, f) == Ok(d) && d.runStatus == RunSuccess
    requires forall i, j :: 0 <= i < j < |f.attempts| ==> f.attempts[i].id != f.attempts[j].id
    ensures attempts != [] && Last(attempts).state == Succeeded && Last(attempts).usage.Complete?
    ensures Last(attempts).candidate.Some? && Last(attempts).candidate.value.FinalAnswer?
    ensures d.candidate == Some((Last(attempts).id, Last(attempts).candidate.value)) && !db.command.cancelRequested
  {
    FactsAboutLatest(db, attempts);
    DecisionFollowsTrigger(pricer, f);
    SuccessTrigger(db.command, attempts);
    LatestIsCharged(pricer, f);
  }

  lemma LatestIsCharged(pricer: Pricer, f: Facts)
    requires Decide(pricer, f).Ok? && Decide(pricer, f).value.runStatus == RunSuccess && f.attempts != []
    requires forall i, j :: 0 <= i < j < |f.attempts| ==> f.attempts[i].id != f.attempts[j].id
    requires f.candidate.Some? ==> f.candidate.value.0 == Last(f.attempts).id
    ensures Last(f.attempts).usage.Complete? && f.candidate.Some?
  {
    var billable := ChargeableOf(f, f.attempts);
    var a :| a in billable && a.id == f.candidate.value.0;
    SameIdIsLatest(f.attempts, a);
  }

  lemma SameIdIsLatest(attempts: seq<AttemptRow>, a: AttemptRow)
    requires attempts != [] && a in attempts && a.id == Last(attempts).id
    requires forall i, j :: 0 <= i < j < |attempts| ==> attempts[i].id != attempts[j].id
    ensures a == Last(attempts)
  {
    var i :| 0 <= i < |attempts| && attempts[i] == a;
  }

  // ---------- applied settlements are replayable ----------

  lemma MoneyMoves(db: ChatDb, f: Facts, d: Decision)
    requires Valid(db.book) && MoneyFactsConsistent(f) && Coherent(f, d)
    requires f.run == db.run && f.charge == db.charge && f.hold == FindHold(db.book.holds, db.run.id)
    ensures ApplyMoney(db, f, d).Ok?
    ensures var book := ApplyMoney(db, f, d).value;
            && Valid(book) && SameOtherHolds(db.book, book, db.run.id)
            && book.balance == db.book.balance - (if d.charge == ChargeSettled then d.actual else 0)
            && book.held == db.book.held - (if f.hold.Some? then f.hold.value.held else 0)
            && FindHold(book.holds, db.run.id) ==
                 (if f.hold.None? then None
                  else Some(if d.charge == ChargeSettled then Hold(db.run.id, 0, d.actual, HoldCaptured)
                            else Hold(db.run.id, 0, 0, HoldReleased)))
  {
    if f.hold.Some? {
      if d.action == CaptureMoney {
        CaptureOutcome(db.book, db.run.id, d.actual);
        CaptureKeepsValid(db.book, db.run.id, d.actual);
      } else {
        ReleaseOutcome(db.book, db.run.id);
        ReleaseKeepsValid(db.book, db.run.id);
      }
    }
  }

  lemma FinishedCommandMatches(db: ChatDb, t: CommandTarget)
    requires FinishCommand(db, t).Ok?
    requires t.state == CommandSucceeded || t.state == CommandCanceled || t.state == CommandOutcomeUnknown || t.state == CommandFailed
    ensures var (db', assistant) := FinishCommand(db, t).value;
            && db'.command.finished && db'.command.state == t.state && db'.command.assistant == assistant
            && (t.state == CommandSucceeded || t.state == CommandCanceled ==> assistant.Some?)
            && db' == db.(command := db'.command, message := db'.message, nextId := db'.nextId)
            && db'.command.maxAttempts == db.command.maxAttempts
  {
  }

  /** The rows an applied decision leaves, in terms of the rows and the decision alone. */
  ghost predicate Settled(db: ChatDb, db': ChatDb, f: Facts, d: Decision) {
    && Valid(db'.book) && SameOtherHolds(db.book, db'.book, db.run.id)
    && db'.attempts == ClearCandidates(db.attempts)
    && db'.run.id == db.run.id && db'.run.userId == db.run.userId
    && db'.run.status == d.runStatus && db'.run.billing == d.billing
    && db'.charge.runId == db.charge.runId && db'.charge.userId == db.charge.userId && db'.charge.held == db.charge.held
    && db'.charge.status == d.charge && db'.charge.finalized
    && db'.charge.actual == (if d.charge == ChargeSettled then d.actual else 0)
    && db'.charge.items == (if d.charge == ChargeSettled then db.charge.items + d.items else db.charge.items)
    && db'.book.balance == db.book.balance - db'.charge.actual
    && db'.book.held == db.book.held - (if f.hold.Some? then f.hold.value.held else 0)
    && FindHold(db'.book.holds, db.run.id) ==
         (if f.hold.None? then None
          else Some(if d.charge == ChargeSettled then Hold(db.run.id, 0, d.actual, HoldCaptured) else Hold(db.run.id, 0, 0, HoldReleased)))
    && CommandMatchesRun(db'.command, db'.run)
    && db'.command.maxAttempts == db.command.maxAttempts
  }

  lemma AppliedDecision(db: ChatDb, f: Facts, d: Decision)
    requires Valid(db.book) && MoneyFactsConsistent(f) && Coherent(f, d)
    requires f.run == db.run && f.charge == db.charge && f.hold == FindHold(db.book.holds, db.run.id)
    requires ApplyDecision(db, f, d).Ok?
    ensures Settled(db, ApplyDecision(db, f, d).value, f, d)
  {
    MoneyMoves(db, f, d);
    FinishedCommandMatches(db.(book := ApplyMoney(db, f, d).value), CommandInput(d).value);
  }

  /** An applied settlement is the application of one coherent decision about the locked rows. */
  lemma AppliedFrom(pricer: Pricer, db: ChatDb) returns (attempts: seq<AttemptRow>, f: Facts, d: Decision)
    requires Valid(db.book) && Settle(pricer, db).Ok? && Settle(pricer, db).value.1 == Applied
    ensures Judge(pricer, db) == Ok((attempts, f, d)) && attempts == Normalize(db.command, db.attempts)
    ensures MoneyFactsConsistent(f) && Coherent(f, d)
    ensures f.run == db.run && f.charge == db.charge && f.hold == FindHold(db.book.holds, db.run.id)
    ensures Settled(db.(attempts := attempts), Settle(pricer, db).value.0, f, d)
  {
    attempts, f, d := Judge(pricer, db).value.0, Judge(pricer, db).value.1, Judge(pricer, db).value.2;
    DecideIsCoherent(pricer, f);
    AppliedDecision(db.(attempts := attempts), f, d);
  }

  /** Settlement happens once: whatever a settlement writes, the next call takes the replay branch and changes no row. */
  lemma SettledOnce(pricer: Pricer, db: ChatDb)
    requires Valid(db.book) && Settle(pricer, db).Ok?
    ensures var db' := Settle(pricer, db).value.0;
            ReplayAccepted(db') && TerminalBilling(db') && Settle(pricer, db') == Ok((db', Replayed))
  {
    if Settle(pricer, db).value.1 == Applied { var attempts, f, d := AppliedFrom(pricer, db); }
  }

  /** Once a settlement is judged the wallet never refuses it: what can still stop it is the reply command or its message, an
      empty answer, or token sums too large for their columns. */
  lemma MoneyNeverRefuses(pricer: Pricer, db: ChatDb)
    requires Valid(db.book) && !TerminalBilling(db) && db.run.status == RunRunning && OpenBilling(db.run)
    requires db.charge.status == ChargeOpen && !db.charge.finalized && Judge(pricer, db).Ok?
    ensures match Settle(pricer, db)
            case Ok((_, how)) => how == Applied
            case Err(e) => e == CommandConflict || e == TokenOverflow || e == CandidateMismatch
  {
    var (attempts, f, d) := Judge(pricer, db).value;
    DecideIsCoherent(pricer, f);
    MoneyMoves(db.(attempts := attempts), f, d);
    AppliesUnlessCommand(db.(attempts := attempts), f, d);
  }

  lemma AppliesUnlessCommand(db: ChatDb, f: Facts, d: Decision)
    requires ApplyMoney(db, f, d).Ok? && Coherent(f, d)
    requires db.run.status == RunRunning && OpenBilling(db.run) && db.charge.status == ChargeOpen && !db.charge.finalized
    ensures match ApplyDecision(db, f, d)
            case Ok(_) => true
            case Err(e) => e == CommandConflict || e == TokenOverflow || e == CandidateMismatch
  {
  }

  ghost predicate MoneyMovedExactly(db: ChatDb, db': ChatDb) {
    && db.book.balance - db'.book.balance == db'.charge.actual == SumAmounts(db'.charge.items)
    && CapturedUnits(db'.book.holds, db.run.id) == db'.charge.actual
    && 0 <= db'.charge.actual <= db.charge.held
    && (db'.run.billing != BillingSettled ==> db'.charge.actual == 0)
    && match FindHold(db.book.holds, db.run.id)
       case None => FindHold(db'.book.holds, db.run.id) == None && db'.book.held == db.book.held
       case Some(h) => db'.book.held == db.book.held - h.held && Spent(db'.book, db.run.id)
  }

  lemma SettledMoney(db: ChatDb, db': ChatDb, f: Facts, d: Decision)
    requires f.charge == db.charge && f.hold == FindHold(db.book.holds, db.run.id) && db.charge.items == []
    requires MoneyFactsConsistent(f) && Coherent(f, d) && Settled(db, db', f, d)
    ensures MoneyMovedExactly(db, db')
  {
    assert [] + d.items == d.items;
  }

  /** What the wallet loses is what the charge records and what its items add up to; it never exceeds the hold,
      and a run that is not settled costs nothing and gives its whole hold back. */
  lemma SettlementMovesExactlyTheCharge(pricer: Pricer, db: ChatDb)
    requires Valid(db.book) && Settle(pricer, db).Ok? && Settle(pricer, db).value.1 == Applied && db.charge.items == []
    ensures MoneyMovedExactly(db, Settle(pricer, db).value.0)
  {
    var attempts, f, d := AppliedFrom(pricer, db);
    SettledMoney(db.(attempts := attempts), Settle(pricer, db).value.0, f, d);
  }
}
