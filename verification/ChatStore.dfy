/** The chat transactions as the stores run them: rows are read under lock and written one after another,
    and an error puts back every row the transaction started from. */
module ChatStore {
  import opened Common
  import opened Wallet
  import opened WalletTable
  import opened ChatRows
  import opened ChatDecision
  import opened ChatTransactions
  import opened ChatSettlement

  // ---------- token totals ----------

  /** The sums of one usage, refused as soon as either no longer fits. */
  method AddUsage(items: seq<UsageItem>, prompt0: nat, completion0: nat) returns (fits: bool, prompt: nat, completion: nat)
    requires prompt0 <= MAX_INT64 && completion0 <= MAX_INT64
    ensures fits <==> prompt0 + PromptTotal(items) <= MAX_INT64 && completion0 + CompletionTotal(items) <= MAX_INT64
    ensures fits ==> prompt == prompt0 + PromptTotal(items) && completion == completion0 + CompletionTotal(items)
  {
    prompt, completion := prompt0, completion0;
    var i := 0;
    assert items[0..] == items;
    while i < |items|
      invariant i <= |items|
      invariant prompt0 + PromptTotal(items) == prompt + PromptTotal(items[i..])
      invariant completion0 + CompletionTotal(items) == completion + CompletionTotal(items[i..])
      invariant prompt <= MAX_INT64 && completion <= MAX_INT64
    {
      assert items[i..][1..] == items[i + 1..];
      if PromptCategory(items[i].category) {
        if items[i].quantity > MAX_INT64 - prompt { return false, 0, 0; }
        prompt := prompt + items[i].quantity;
      } else if items[i].category == Output {
        if items[i].quantity > MAX_INT64 - completion { return false, 0, 0; }
        completion := completion + items[i].quantity;
      }
      i := i + 1;
    }
    fits := true;
  }

  /** A persisted tool call is handed back with totals exactly when they fit. */
  method ChatResultUsageTotals(usage: Usage) returns (r: Option<(nat, nat)>)
    ensures r.Some? <==> usage.Complete? && PromptTotal(usage.items) + CompletionTotal(usage.items) <= MAX_INT64
    ensures r.Some? ==> r.value == (PromptTotal(usage.items), CompletionTotal(usage.items))
  {
    if !usage.Complete? { return None; }
    var fits, prompt, completion := AddUsage(usage.items, 0, 0);
    if !fits || prompt > MAX_INT64 - completion { return None; }
    r := Some((prompt, completion));
  }

  /** Tokens of every billable attempt, refused exactly when the run's columns cannot hold their sum. */
  method FinalizationTokenTotals(f: Facts) returns (r: Option<(nat, nat)>)
    ensures r.Some? <==> BillablePrompt(f, f.attempts) + BillableCompletion(f, f.attempts) <= MAX_INT64
    ensures r.Some? ==> r.value == (BillablePrompt(f, f.attempts), BillableCompletion(f, f.attempts))
  {
    var prompt: nat, completion: nat := 0, 0;
    var k := 0;
    assert f.attempts[0..] == f.attempts;
    while k < |f.attempts|
      invariant k <= |f.attempts|
      invariant BillablePrompt(f, f.attempts) == prompt + BillablePrompt(f, f.attempts[k..])
      invariant BillableCompletion(f, f.attempts) == completion + BillableCompletion(f, f.attempts[k..])
      invariant prompt <= MAX_INT64 && completion <= MAX_INT64
    {
      var a := f.attempts[k];
      assert f.attempts[k..][1..] == f.attempts[k + 1..];
      if Billable(f, a) {
        var fits, p, c := AddUsage(a.usage.items, prompt, completion);
        if !fits { return None; }
        prompt, completion := p, c;
      }
      k := k + 1;
    }
    if prompt > MAX_INT64 - completion { return None; }
    r := Some((prompt, completion));
  }

  // ---------- the store ----------

  class Store {
    const wallet: Table
    var run: RunRow
    var charge: ChargeRow
    var command: CommandRow
    var attempts: seq<AttemptRow>
    var message: Option<Message>
    var conversationDeleted: bool
    var prefixReadable: bool
    var nextId: nat

    function Rows(): ChatDb
      reads this, wallet
    {
      ChatDb(run, charge, command, attempts, wallet.Rows(), message, conversationDeleted, prefixReadable, nextId)
    }

    constructor (wallet: Table, run: RunRow, charge: ChargeRow, command: CommandRow)
      ensures this.wallet == wallet
      ensures Rows() == ChatDb(run, charge, command, [], wallet.Rows(), None, false, false, 0)
    {
      this.wallet := wallet;
      this.run, this.charge, this.command := run, charge, command;
      attempts, message := [], None;
      conversationDeleted, prefixReadable, nextId := false, false, 0;
    }

    /** Rolls a transaction back to the rows it started from. */
    method Rollback(db: ChatDb)
      modifies this, wallet
      ensures Rows() == db
    {
      run, charge, command, attempts, message := db.run, db.charge, db.command, db.attempts, db.message;
      conversationDeleted, prefixReadable, nextId := db.conversationDeleted, db.prefixReadable, db.nextId;
      wallet.Rollback(db.book);
    }

    method ReserveOrTopUp(target: int) returns (r: Result<(), GatewayError>)
      modifies this, wallet
      ensures var expected := ChatTransactions.ReserveOrTopUp(old(Rows()), target);
              match r
              case Ok(_) => expected == Ok(Rows())
              case Err(e) => expected == Err(e) && Rows() == old(Rows())
    {
      var start := Rows();
      var reserved := wallet.ReserveHold(run.id, target);
      if reserved.Err? { return Err(HoldRefused(reserved.error)); }
      if reserved.value.status != HoldActive || reserved.value.held != target {
        Rollback(start);
        return Err(HoldMismatch);
      }
      if !OpenBilling(run) {
        Rollback(start);
        return Err(NotReservable);
      }
      run := run.(billing := BillingHeld, reason := HeldReason);
      if charge.status != ChargeOpen {
        Rollback(start);
        return Err(NotReservable);
      }
      if charge.held < target { charge := charge.(held := target); }
      if charge.held != target {
        Rollback(start);
        return Err(HoldMismatch);
      }
      r := Ok(());
    }

    method PutPrepared(lease: Lease, now: int, no: nat, evidence: Evidence) returns (r: Result<Preparation, GatewayError>)
      modifies this
      ensures var expected := ChatTransactions.PutPrepared(old(Rows()), lease, now, no, evidence);
              match r
              case Ok(p) => expected == Ok((Rows(), p))
              case Err(e) => expected == Err(e) && Rows() == old(Rows())
    {
      if !Runnable(command, lease, now) { return Err(LeaseLost); }
      var existing := FindAttempt(attempts, no);
      if existing.Some? {
        if attempts[existing.value].evidence != evidence { return Err(DuplicateAttempt); }
        return Ok(Ready(evidence));
      }
      if no != MaxNo(attempts) + 1 { return Err(NotNext); }
      attempts := attempts + [AttemptRow(nextId, no, evidence, Prepared, NotDispatched, Unavailable, None, None, None)];
      nextId := nextId + 1;
      r := Ok(Ready(evidence));
    }

    method MarkDispatched(pricer: Pricer, lease: Lease, now: int, no: nat, evidence: Evidence) returns (r: Result<(), GatewayError>)
      modifies this
      ensures var expected := ChatTransactions.MarkDispatched(pricer, old(Rows()), lease, now, no, evidence);
              match r
              case Ok(_) => expected == Ok(Rows())
              case Err(e) => expected == Err(e) && Rows() == old(Rows())
    {
      var db := Rows();
      if !RunAndChargeLockable(db) { return Err(NotReservable); }
      var prior := PriorUnits(pricer, db, no);
      if prior.Err? { return Err(prior.error); }
      if !ActiveHoldEnsured(db, charge.held) { return Err(HoldMismatch); }
      var at := FindAttempt(attempts, no);
      if at.None? { return Err(PreparedMissing); }
      var row := attempts[at.value];
      if row.state != Prepared { return Err(PreparedMissing); }
      if row.evidence != evidence { return Err(DuplicateAttempt); }
      if !EvidenceCurrent(db, evidence, prior.value) { return Err(InvalidPrepared); }
      if !Runnable(command, lease, now) { return Err(LeaseLost); }
      attempts := attempts[at.value := row.(state := Dispatched, dispatch := SentOut)];
      r := Ok(());
    }

    method RecordTerminalOutcome(no: nat, o: Outcome) returns (r: Result<OutcomeWrite, GatewayError>)
      modifies this`attempts
      ensures var expected := WriteOutcome(old(attempts), no, o);
              match r
              case Ok(w) => expected == Ok((attempts, w))
              case Err(e) => expected == Err(e) && attempts == old(attempts)
    {
      var at := FindAttempt(attempts, no);
      if at.None? { return Err(PreparedMissing); }
      var row := attempts[at.value];
      if row.state != Dispatched {
        if !Terminal(row.state) || row.usage.Unreadable? { return Err(InvalidOutcome); }
        return Ok(OutcomeWrite(OutcomeOf(row), true));
      }
      attempts := attempts[at.value := WithOutcome(row, o)];
      r := Ok(OutcomeWrite(o, false));
    }

    method NormalizeForFinalization()
      modifies this`attempts
      ensures attempts == Normalize(command, old(attempts))
    {
      if attempts == [] { return; }
      var last := |attempts| - 1;
      var latest := attempts[last];
      if (command.cancelRequested || command.marker == PreDispatchMarker) && latest.state == Prepared && latest.dispatch == NotDispatched {
        attempts := attempts[last := latest.(state := Canceled, usage := Unavailable,
                                             candidate := None, requestId := None, response := None)];
      } else if command.state == CommandOutcomeUnknown && latest.state == Dispatched {
        attempts := attempts[last := latest.(state := OutcomeUnknown, dispatch := SendUnknown, usage := Unavailable,
                                             candidate := None, response := None)];
      }
    }

    method ApplyMoney(f: Facts, d: Decision) returns (r: Result<(), SettleError>)
      modifies wallet
      ensures var expected := ChatSettlement.ApplyMoney(old(Rows()), f, d);
              match r case Ok(_) => expected == Ok(wallet.Rows()) case Err(e) => expected == Err(e)
    {
      match d.action {
        case CaptureMoney =>
          if f.hold.None? { return Err(InconsistentFacts); }
          var captured := wallet.CaptureHold(run.id, d.actual);
          if captured.Err? { return Err(MoneyRefused(captured.error)); }
          if (d.actual == 0) != captured.value.None? { return Err(MoneyRefused(Integrity)); }
        case ReleaseMoney =>
          if f.hold.None? {
            if f.trigger != InitialInsufficient && f.trigger != UserStopBeforeDispatch && f.trigger != PreDispatchFailed {
              return Err(InconsistentFacts);
            }
          } else {
            var released := wallet.ReleaseHold(run.id);
            if released.Err? { return Err(MoneyRefused(released.error)); }
          }
      }
      r := Ok(());
    }

    /** Stores a new assistant message under the next id. */
    method CreateMessage(content: string, stopped: bool) returns (id: nat)
      modifies this`message, this`nextId
      ensures id == old(nextId) && nextId == id + 1 && message == Some(Message(id, content, stopped, false))
    {
      id := nextId;
      message := Some(Message(id, content, stopped, false));
      nextId := nextId + 1;
    }

    /** Finds the message a finished command shows, or creates it. */
    method ShowMessage(t: CommandTarget) returns (r: Result<Option<nat>, SettleError>)
      modifies this`message, this`nextId
      ensures var expected := FinishMessage(old(Rows()), t);
              match r
              case Ok(assistant) => expected == Ok((Rows(), assistant))
              case Err(e) => expected == Err(e) && Rows() == old(Rows())
    {
      if t.state == CommandSucceeded {
        if command.cancelRequested { return Err(CommandConflict); }
        if message.Some? && (message.value.content != t.content || message.value.deleted) { return Err(CommandConflict); }
        if conversationDeleted { return Err(CommandConflict); }
        if message.Some? { return Ok(Some(message.value.id)); }
        var id := CreateMessage(t.content, false);
        return Ok(Some(id));
      }
      if t.state == CommandCanceled {
        if !command.cancelRequested || command.assistant.None? || message.None? { return Err(CommandConflict); }
        if message.value.id != command.assistant.value || !message.value.stopped { return Err(CommandConflict); }
        if message.value.deleted && !conversationDeleted { return Err(CommandConflict); }
        return Ok(Some(message.value.id));
      }
      if message.Some? || command.assistant.Some? { return Err(CommandConflict); }
      if command.deliverySeq == 0 { return Ok(None); }
      if !prefixReadable || conversationDeleted { return Err(CommandConflict); }
      var id := CreateMessage("", true);
      r := Ok(Some(id));
    }

    method FinishCommand(t: CommandTarget) returns (r: Result<Option<nat>, SettleError>)
      modifies this`command, this`message, this`nextId
      ensures var expected := ChatSettlement.FinishCommand(old(Rows()), t);
              match r case Ok(assistant) => expected == Ok((Rows(), assistant)) case Err(e) => expected == Err(e)
    {
      var shown := ShowMessage(t);
      if shown.Err? { return Err(shown.error); }
      var assistant := shown.value;
      if !CommandMayFinish(command.state, t.state) { return Err(CommandConflict); }
      command := command.(state := t.state, finished := true, owner := None,
                          assistant := if assistant.Some? then assistant else command.assistant,
                          marker := if t.state == CommandSucceeded || t.state == CommandCanceled then NoMarker else OtherMarker);
      r := Ok(assistant);
    }

    method FinishRunAndCharge(f: Facts, d: Decision, assistant: Option<nat>) returns (r: Result<(), SettleError>)
      modifies this`run, this`charge
      ensures var expected := ChatSettlement.FinishRunAndCharge(old(Rows()), f, d, assistant);
              match r case Ok(_) => expected == Ok(Rows()) case Err(e) => expected == Err(e)
    {
      var totals := FinalizationTokenTotals(f);
      if totals.None? { return Err(TokenOverflow); }
      if (d.runStatus == RunSuccess || d.runStatus == RunCanceled) && assistant.None? { return Err(CommandConflict); }
      if run.status != RunRunning || !OpenBilling(run) { return Err(TerminalConflict); }
      run := run.(status := d.runStatus, billing := d.billing, reason := d.reason, assistant := assistant,
                  promptTokens := totals.value.0, completionTokens := totals.value.1);
      if charge.status != ChargeOpen || charge.finalized { return Err(TerminalConflict); }
      charge := charge.(actual := if d.charge == ChargeSettled then d.actual else 0, status := d.charge, finalized := true,
                        items := if d.charge == ChargeSettled then charge.items + d.items else charge.items);
      r := Ok(());
    }

    method ClearResultCandidates()
      modifies this`attempts
      ensures attempts == ClearCandidates(old(attempts))
    {
      attempts := ClearCandidates(attempts);
    }

    /** The writes of one decision; an error leaves them half done for the caller to roll back. */
    method ApplyDecision(f: Facts, d: Decision) returns (r: Result<(), SettleError>)
      modifies this, wallet
      ensures var expected := ChatSettlement.ApplyDecision(old(Rows()), f, d);
              match r case Ok(_) => expected == Ok(Rows()) case Err(e) => expected == Err(e)
    {
      var money := ApplyMoney(f, d);
      if money.Err? { return Err(money.error); }
      var target := CommandInput(d);
      if target.Err? { return Err(target.error); }
      var finished := FinishCommand(target.value);
      if finished.Err? { return Err(finished.error); }
      var settled := FinishRunAndCharge(f, d, finished.value);
      if settled.Err? { return Err(settled.error); }
      ClearResultCandidates();
      r := Ok(());
    }

    /** All of the settlement or none of it. */
    method WithLockedSettlement(pricer: Pricer) returns (r: Result<Settlement, SettleError>)
      modifies this, wallet
      ensures var expected := Settle(pricer, old(Rows()));
              match r
              case Ok(s) => expected == Ok((Rows(), s))
              case Err(e) => expected == Err(e) && Rows() == old(Rows())
    {
      var start := Rows();
      if TerminalBilling(start) {
        if !ReplayAccepted(start) { return Err(InvalidReplay); }
        return Ok(Replayed);
      }
      if run.status != RunRunning || charge.status != ChargeOpen || charge.finalized { return Err(NotOpen); }
      var judged := Judge(pricer, start);
      NormalizeForFinalization();
      if judged.Err? {
        Rollback(start);
        return Err(judged.error);
      }
      var applied := ApplyDecision(judged.value.1, judged.value.2);
      if applied.Err? {
        Rollback(start);
        return Err(applied.error);
      }
      r := Ok(Applied);
    }
  }
}
