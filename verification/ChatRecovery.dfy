/** Recovery and settlement read the same rows separately; these lemmas say where they agree. */
module ChatRecovery {
  import opened Common
  import opened Wallet
  import opened ChatRows
  import opened ChatDecision
  import opened ChatTransactions
  import opened ChatSettlement
  import opened ChatUsage
  import ChatRuns

  /** The provider gave up on the run, or the numbers are used up. */
  predicate ProviderExhausted(command: CommandRow, latest: AttemptRow) {
    command.marker == ProviderMarker || (command.maxAttempts > 0 && latest.no >= command.maxAttempts)
  }

  /** A complete tool call, or a failure after which numbers are left: the run goes on. */
  predicate GoesOn(command: CommandRow, latest: AttemptRow) {
    if latest.state == Failed then !ProviderExhausted(command, latest) else ChatRuns.MayContinue(latest)
  }

  /** An execution that finds the latest attempt terminal asks for the settlement exactly when the settlement, reading what that
      execution leaves behind, finds a trigger. Where they differ the execution asks and the settlement stays pending: a
      canceled attempt of a run that is not exhausted, a context guard that refuses to continue a run that could go on, and a
      provider failure recorded beside a complete tool call (which is recorded only after a failed attempt). */
  lemma RecoveryAgreesWithSettlement(command: CommandRow, attempts: seq<AttemptRow>, toolInput: bool, guardRefuses: bool)
    requires !command.cancelRequested && attempts != [] && Terminal(Last(attempts).state)
    requires 0 < Last(attempts).no < MAX_UINT32
    ensures var latest, choice := Last(attempts), Choose(command, attempts, toolInput, guardRefuses);
            var asks := choice.AskFinalization?;
            var decides := DeriveTrigger(if asks then Marked(command, attempts, choice.marker) else command, attempts).Ok?;
            && (decides ==> asks)
            && (asks && !decides <==>
                  if FinalizationMarked(command.marker) then
                    command.marker == ProviderMarker && latest.state == Succeeded && GoesOn(command, latest)
                  else
                    || (latest.state == Canceled && !ProviderExhausted(command, latest))
                    || (toolInput && guardRefuses && GoesOn(command, latest)))
    ensures Last(attempts).state == Succeeded && !Choose(command, attempts, toolInput, guardRefuses).AskFinalization? ==>
              Last(attempts).candidate == Some(ToolCalls) && Last(attempts).usage.Complete?
  {
    var latest := Last(attempts);
    var choice := Choose(command, attempts, toolInput, guardRefuses);
    if FinalizationMarked(command.marker) {
      assert choice == AskFinalization(command.marker);
    } else if toolInput && guardRefuses {
      assert choice == AskFinalization(ContextMarker);
    } else {
      match latest.state {
        case Failed => assert LimitExceeded(latest.no + 1, command.maxAttempts) <==> ProviderExhausted(command, latest);
        case _ =>
      }
    }
  }

  /** Recovery goes on with the next number after an attempt that may be followed, picks up exactly a prepared one, waits for
      exactly a dispatched one, and hands back exactly a tool call that was not answered yet. */
  lemma RecoveryContinuesInOrder(attempts: seq<AttemptRow>, toolInput: bool)
    requires forall i :: 0 <= i < |attempts| ==> attempts[i].no == i + 1
    requires |attempts| < MAX_UINT32
    ensures match NextAttempt(attempts, toolInput)
            case StartAttempt(no) => no == |attempts| + 1 && (attempts != [] ==> ChatRuns.MayContinue(Last(attempts)))
            case RecoverPrepared(no) => no == |attempts| && Last(attempts).state == Prepared
            case OutcomeUnresolved => Last(attempts).state == Dispatched
            case ReturnToolResult => !toolInput && ChatRuns.MayContinue(Last(attempts)) && Last(attempts).state == Succeeded
            case TotalsOverflow => !toolInput && ChatRuns.MayContinue(Last(attempts)) && Last(attempts).state == Succeeded
            case Finalize => Terminal(Last(attempts).state) && !ChatRuns.MayContinue(Last(attempts))
            case NumbersExhausted => false
    ensures attempts != [] && Last(attempts).state == Prepared ==> NextAttempt(attempts, toolInput).RecoverPrepared?
    ensures attempts != [] && Last(attempts).state == Dispatched ==> NextAttempt(attempts, toolInput).OutcomeUnresolved?
  {
  }

  // ---------- when the transactions commit ----------

  /** A dispatch commits exactly for a prepared attempt with the caller's evidence, whose quote still rests on what the earlier
      successes are worth and fits the hold, under a live lease without a cancel request. */
  lemma DispatchOutcome(pricer: Pricer, db: ChatDb, lease: Lease, now: int, no: nat, evidence: Evidence, rows: seq<AttemptRow>)
    requires ChatRuns.AttemptsInOrder(db) && ChatRuns.MoneyInOrder(db) && EarlierSuccesses(db.attempts, no, rows)
    ensures MarkDispatched(pricer, db, lease, now, no, evidence).Ok? <==>
              && db.run.billing == BillingHeld && 1 <= no <= |db.attempts|
              && db.attempts[no - 1].state == Prepared && db.attempts[no - 1].evidence == evidence
              && WorthOf(pricer, rows) == Some(evidence.quote.prior) && 0 <= evidence.quote.prior <= db.charge.held
              && evidence.quote.callMax > 0 && evidence.quote.target == evidence.quote.prior + evidence.quote.callMax
              && Runnable(db.command, lease, now)
  {
    ChatRuns.FindInOrder(db.attempts, no);
    HoldFacts(db.book, db.run.id);
    PriorUsage(pricer, db, no, rows);
  }

  /** A prepared attempt is picked up again exactly when its quote still rests on what the earlier successes are worth; the hold
      stays as it is. */
  lemma RecoverOutcome(pricer: Pricer, db: ChatDb, lease: Lease, no: nat, rows: seq<AttemptRow>)
    requires ChatRuns.AttemptsInOrder(db) && ChatRuns.MoneyInOrder(db) && EarlierSuccesses(db.attempts, no, rows)
    requires db.run.billing == BillingHeld && 1 <= no <= |db.attempts| && db.attempts[no - 1].state == Prepared
    ensures var quote := db.attempts[no - 1].evidence.quote;
            match PrepareRecovered(pricer, db, lease, no)
            case Ok((after, p)) =>
              && p == Ready(db.attempts[no - 1].evidence) && after.charge == db.charge && after.attempts == db.attempts
              && WorthOf(pricer, rows) == Some(quote.prior) && quote.callMax > 0 && quote.target == quote.prior + quote.callMax
            case Err(_) =>
              !(WorthOf(pricer, rows) == Some(quote.prior) && 0 <= quote.prior <= db.charge.held
                && quote.callMax > 0 && quote.target == quote.prior + quote.callMax)
  {
    ChatRuns.FindInOrder(db.attempts, no);
    PriorUsage(pricer, db, no, rows);
    ReservedOrShort(db, db.charge.held);
    if ReserveOrTopUp(db, db.charge.held).Ok? { ChatRuns.ReservationAgrees(db, db.charge.held); }
  }

  /** An outcome is recorded exactly on the dispatched attempt it belongs to, or accepted again when it is the stored one. */
  lemma RecordOutcomeCommits(db: ChatDb, no: nat, evidence: Evidence, o: Outcome)
    requires ChatRuns.AttemptsInOrder(db) && ChatRuns.MoneyInOrder(db)
    ensures RecordOutcome(db, no, evidence, o).Ok? <==>
              && ValidOutcome(o) && OpenBilling(db.run) && 1 <= no <= |db.attempts|
              && if db.attempts[no - 1].state == Dispatched then db.attempts[no - 1].evidence == evidence
                 else Terminal(db.attempts[no - 1].state) && OutcomeOf(db.attempts[no - 1]) == o
  {
    ChatRuns.FindInOrder(db.attempts, no);
  }

  /** A new preparation that the wallet can cover stores exactly one prepared row and raises the hold to exactly what the earlier
      successes are worth plus what this call may cost; one it cannot cover stores only the failure marker. */
  lemma PrepareOutcome(pricer: Pricer, db: ChatDb, lease: Lease, now: int, request: nat, callMax: int, rows: seq<AttemptRow>)
    requires ChatRuns.AttemptsInOrder(db) && ChatRuns.MoneyInOrder(db) && OpenBilling(db.run) && Runnable(db.command, lease, now)
    requires EarlierSuccesses(db.attempts, |db.attempts| + 1, rows)
    requires WorthOf(pricer, rows).Some? && 0 <= WorthOf(pricer, rows).value <= db.charge.held
    requires 0 < callMax <= MAX_INT64 - WorthOf(pricer, rows).value
    ensures var no, prior := |db.attempts| + 1, WorthOf(pricer, rows).value;
            var target := Max(db.charge.held, prior + callMax);
            var evidence := Evidence(request, Quote(callMax, prior, prior + callMax));
            match PrepareNew(pricer, db, lease, now, no, request, callMax)
            case Err(_) => false
            case Ok((after, p)) =>
              if target - db.charge.held <= db.book.balance - db.book.held then
                p == Ready(evidence) && after.attempts == db.attempts + [ChatRuns.NewRow(db, evidence)] && after.charge.held == target
              else
                p == Preparation.Refused && after.attempts == db.attempts && after.charge == db.charge && after.book == db.book
                && after.command == db.command.(marker := if db.charge.held > 0 then TopUpInsufficientMarker else InitialInsufficientMarker)
  {
    var no, prior := |db.attempts| + 1, WorthOf(pricer, rows).value;
    var target := Max(db.charge.held, prior + callMax);
    PriorUsage(pricer, db, no, rows);
    PrepareIsReserveThenPut(pricer, db, lease, now, request, callMax, prior);
    ReservedOrShort(db, target);
    if ReserveOrTopUp(db, target).Ok? {
      ChatRuns.ReservationAgrees(db, target);
      NextRowIsPut(ReserveOrTopUp(db, target).value, lease, now, Evidence(request, Quote(callMax, prior, prior + callMax)));
    }
  }

  /** Whatever number is prepared, for however many attempts: usage that is not completely reported stops it, and a preparation
      that succeeds is quoted on all earlier successes and fully reserved. */
  lemma PreparationCoversUsage(pricer: Pricer, db: ChatDb, lease: Lease, now: int, no: nat, request: nat, callMax: int,
                                  rows: seq<AttemptRow>)
    requires ChatRuns.AttemptsInOrder(db) && ChatRuns.MoneyInOrder(db) && OpenBilling(db.run) && EarlierSuccesses(db.attempts, no, rows)
    ensures match WorthOf(pricer, rows)
            case None => PrepareNew(pricer, db, lease, now, no, request, callMax) == Err(UsageUnpriced)
            case Some(u) =>
              match PrepareNew(pricer, db, lease, now, no, request, callMax)
              case Ok((after, Ready(evidence))) =>
                && 0 <= u <= db.charge.held && evidence == Evidence(request, Quote(callMax, u, u + callMax))
                && after.charge.held == Max(db.charge.held, u + callMax)
                && FindHold(after.book.holds, db.run.id) == Some(Hold(db.run.id, Max(db.charge.held, u + callMax), 0, HoldActive))
              case Ok((after, Refused)) => after.charge == db.charge && after.book == db.book && after.attempts == db.attempts
              case Err(e) => rows != [] && !(0 <= u <= db.charge.held) ==> e == InvalidPrepared
  {
    PriorUsage(pricer, db, no, rows);
    if PriorUnits(pricer, db, no).Ok? { PricedPreparation(pricer, db, lease, now, no, request, callMax, PriorUnits(pricer, db, no).value); }
  }

  lemma PricedPreparation(pricer: Pricer, db: ChatDb, lease: Lease, now: int, no: nat, request: nat, callMax: int, prior: int)
    requires ChatRuns.AttemptsInOrder(db) && ChatRuns.MoneyInOrder(db) && OpenBilling(db.run) && PriorUnits(pricer, db, no) == Ok(prior)
    ensures match PrepareNew(pricer, db, lease, now, no, request, callMax)
            case Ok((after, Ready(evidence))) =>
              && evidence == Evidence(request, Quote(callMax, prior, prior + callMax))
              && after.charge.held == Max(db.charge.held, prior + callMax)
              && FindHold(after.book.holds, db.run.id) == Some(Hold(db.run.id, Max(db.charge.held, prior + callMax), 0, HoldActive))
            case Ok((after, Refused)) => after.charge == db.charge && after.book == db.book && after.attempts == db.attempts
            case Err(_) => true
  {
    if PrepareNew(pricer, db, lease, now, no, request, callMax).Ok? {
      var refused, target, evidence, put := ChatRuns.PreparedFrom(pricer, db, lease, now, no, request, callMax);
      if !refused {
        ChatRuns.ReservationAgrees(db, target);
        HoldFacts(ReserveOrTopUp(db, target).value.book, db.run.id);
        if put { ReservedMoneyStays(ReserveOrTopUp(db, target).value, lease, now, no, evidence); }
      }
    }
  }

  lemma ReservedMoneyStays(db: ChatDb, lease: Lease, now: int, no: nat, evidence: Evidence)
    ensures match PutPrepared(db, lease, now, no, evidence)
            case Ok((after, p)) => p == Ready(evidence) && after.charge == db.charge && after.book == db.book
            case Err(_) => true
  {
  }

  lemma PrepareIsReserveThenPut(pricer: Pricer, db: ChatDb, lease: Lease, now: int, request: nat, callMax: int, prior: int)
    requires ChatRuns.AttemptsInOrder(db) && RunAndChargeLockable(db)
    requires PriorUnits(pricer, db, |db.attempts| + 1) == Ok(prior) && 0 < callMax <= MAX_INT64 - prior
    ensures var no := |db.attempts| + 1;
            var target := Max(db.charge.held, prior + callMax);
            PrepareNew(pricer, db, lease, now, no, request, callMax)
              == match ReserveOrTopUp(db, target)
                 case Err(e) =>
                   if e == HoldRefused(Insufficient) then
                     RecordRefusal(db, lease, if db.charge.held > 0 then TopUpInsufficientMarker else InitialInsufficientMarker)
                   else Err(e)
                 case Ok(reserved) => PutPrepared(reserved, lease, now, no, Evidence(request, Quote(callMax, prior, prior + callMax)))
  {
    ChatRuns.FindInOrder(db.attempts, |db.attempts| + 1);
  }

  /** A reservation of an open run at or above its hold either commits or finds the wallet short. */
  lemma ReservedOrShort(db: ChatDb, target: int)
    requires ChatRuns.MoneyInOrder(db) && OpenBilling(db.run) && target > 0 && target >= db.charge.held
    ensures if target - db.charge.held <= db.book.balance - db.book.held then ReserveOrTopUp(db, target).Ok?
            else ReserveOrTopUp(db, target) == Err(HoldRefused(Insufficient))
  {
    ChatRuns.ReservationOutcome(db, target);
    ReserveOutcome(db.book, db.run.id, target);
  }

  lemma NextRowIsPut(db: ChatDb, lease: Lease, now: int, evidence: Evidence)
    requires (forall i :: 0 <= i < |db.attempts| ==> db.attempts[i].no == i + 1) && Runnable(db.command, lease, now)
    ensures PutPrepared(db, lease, now, |db.attempts| + 1, evidence)
              == Ok((db.(attempts := db.attempts + [ChatRuns.NewRow(db, evidence)], nextId := db.nextId + 1), Ready(evidence)))
  {
    ChatRuns.FindInOrder(db.attempts, |db.attempts| + 1);
  }
}
