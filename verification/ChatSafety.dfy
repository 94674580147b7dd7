/** Safety of every run: the invariant is kept by each step, so it holds after any sequence of them. */
module ChatSafety {
  import opened Common
  import opened Wallet
  import opened ChatRows
  import opened ChatDecision
  import opened ChatTransactions
  import opened ChatSettlement
  import opened ChatRuns

  /** The database part of a step keeps its invariants and only advances the attempts. */
  ghost predicate RowsFollow(s: System, s': System) {
    && AttemptsInOrder(s'.db) && MoneyInOrder(s'.db) && Advances(s.db, s'.db)
    && s'.db.command.maxAttempts == s.db.command.maxAttempts
  }

  lemma SentStays(s: System, s': System, no: nat, evidence: Evidence)
    requires RowsFollow(s, s') && SentWith(s.db, no, evidence)
    ensures SentWith(s'.db, no, evidence)
  {
    assert RowAdvances(s.db, s'.db, no - 1);
  }

  lemma ChosenStays(s: System, s': System, w: nat)
    requires RowsFollow(s, s') && WorkerInOrder(s, w) && WorkerOf(s, w).Chosen? && WorkerOf(s', w) == WorkerOf(s, w)
    ensures WorkerInOrder(s', w)
  {
    var no := WorkerOf(s, w).no;
    if !WorkerOf(s, w).recover && no > 1 {
      assert RowAdvances(s.db, s'.db, no - 2);
    }
  }

  lemma WorkerStays(s: System, s': System, w: nat)
    requires RowsFollow(s, s') && WorkerInOrder(s, w) && WorkerOf(s', w) == WorkerOf(s, w) && s'.calls == s.calls
    ensures WorkerInOrder(s', w)
  {
    match WorkerOf(s, w) {
      case Chosen(no, recover) => ChosenStays(s, s', w);
      case MayCall(no, evidence) => SentStays(s, s', no, evidence);
      case _ =>
    }
  }

  lemma CallsStay(s: System, s': System)
    requires RowsFollow(s, s') && CallsInOrder(s) && s'.calls == s.calls
    ensures CallsInOrder(s')
  {
    forall k | 0 <= k < |s.calls| ensures SentWith(s'.db, s.calls[k].no, s.calls[k].evidence) {
      SentStays(s, s', s.calls[k].no, s.calls[k].evidence);
    }
  }

  lemma OneCallerStays(s: System, s': System, w: nat)
    requires OneCaller(s)
    requires forall v: nat :: v != w ==> WorkerOf(s', v) == WorkerOf(s, v)
    requires WorkerOf(s', w).MayCall? ==> forall v: nat :: v != w && WorkerOf(s, v).MayCall? ==> WorkerOf(s, v).no != WorkerOf(s', w).no
    ensures OneCaller(s')
  {
    forall u: nat, v: nat | u != v && WorkerOf(s', u).MayCall? && WorkerOf(s', v).MayCall?
      ensures WorkerOf(s', u).no != WorkerOf(s', v).no
    {
      assert u != w ==> WorkerOf(s', u) == WorkerOf(s, u);
      assert v != w ==> WorkerOf(s', v) == WorkerOf(s, v);
    }
  }

  /** A step that moves one worker, to a position other than MayCall or Called, keeps everything in order. */
  lemma QuietStep(s: System, s': System, w: nat)
    requires InOrder(s) && RowsFollow(s, s') && s'.calls == s.calls
    requires forall v: nat :: v != w ==> WorkerOf(s', v) == WorkerOf(s, v)
    requires !WorkerOf(s', w).MayCall? && WorkerInOrder(s', w)
    ensures InOrder(s')
  {
    CallsStay(s, s');
    OneCallerStays(s, s', w);
    forall v: nat ensures WorkerInOrder(s', v) {
      if v != w { WorkerStays(s, s', v); }
    }
  }

  /** A step of the database alone. */
  lemma RowStep(s: System, s': System)
    requires InOrder(s) && RowsFollow(s, s') && s'.calls == s.calls && s'.workers == s.workers
    ensures InOrder(s')
  {
    CallsStay(s, s');
    assert forall v: nat :: WorkerOf(s', v) == WorkerOf(s, v);
    forall v: nat ensures WorkerInOrder(s', v) { WorkerStays(s, s', v); }
  }

  lemma SameRowsFollow(s: System, s': System)
    requires InOrder(s) && s'.db == s.db
    ensures RowsFollow(s, s')
  {
  }

  lemma LookInOrder(pricer: Pricer, s: System, st: Step)
    requires InOrder(s) && st.Look?
    ensures InOrder(Take(pricer, s, st)) && Take(pricer, s, st).db == s.db && Take(pricer, s, st).calls == s.calls
  {
    var s' := Take(pricer, s, st);
    SameRowsFollow(s, s');
    QuietStep(s, s', st.w);
  }

  lemma NewRows(pricer: Pricer, s: System, st: Step)
    requires InOrder(s) && st.Prepare? && WorkerOf(s, st.w).Chosen? && !WorkerOf(s, st.w).recover
    ensures var prepared := PrepareNew(pricer, s.db, st.lease, st.now, WorkerOf(s, st.w).no, st.request, st.callMax);
            prepared.Ok? ==> RowsFollow(s, s.(db := prepared.value.0))
  {
    assert WorkerInOrder(s, st.w);
    var no := WorkerOf(s, st.w).no;
    if PrepareNew(pricer, s.db, st.lease, st.now, no, st.request, st.callMax).Ok? {
      PreparedInOrder(pricer, s.db, st.lease, st.now, no, st.request, st.callMax);
    }
  }

  /** A preparation moves only the worker that makes it, and not to MayCall. */
  lemma PrepareShape(pricer: Pricer, s: System, st: Step) returns (db: ChatDb)
    requires st.Prepare? && WorkerOf(s, st.w).Chosen?
    ensures var s' := StepPrepare(pricer, s, st);
            && s'.db == db && s'.calls == s.calls
            && s'.workers == s.workers[st.w := WorkerOf(s', st.w)]
            && (WorkerOf(s', st.w).Idle? || WorkerOf(s', st.w).Holding?)
    ensures var worker := WorkerOf(s, st.w);
            var prepared := if worker.recover then PrepareRecovered(pricer, s.db, st.lease, worker.no)
                            else PrepareNew(pricer, s.db, st.lease, st.now, worker.no, st.request, st.callMax);
            db == if prepared.Ok? then prepared.value.0 else s.db
  {
    db := StepPrepare(pricer, s, st).db;
  }

  lemma PrepareStepInOrder(pricer: Pricer, s: System, st: Step)
    requires InOrder(s) && st.Prepare?
    ensures var s' := Take(pricer, s, st); InOrder(s') && RowsFollow(s, s') && s'.calls == s.calls
  {
    var s' := Take(pricer, s, st);
    SameRowsFollow(s, s);
    var worker := WorkerOf(s, st.w);
    if worker.Chosen? {
      var db := PrepareShape(pricer, s, st);
      assert RowsFollow(s, s.(db := db)) by {
        if !worker.recover { NewRows(pricer, s, st); }
        else if PrepareRecovered(pricer, s.db, st.lease, worker.no).Ok? { RecoveredInOrder(pricer, s.db, st.lease, worker.no); }
      }
      QuietStep(s, s', st.w);
    }
  }

  lemma DispatchStepInOrder(pricer: Pricer, s: System, st: Step)
    requires InOrder(s) && st.Dispatch?
    ensures var s' := Take(pricer, s, st); InOrder(s') && RowsFollow(s, s') && s'.calls == s.calls
  {
    var s' := Take(pricer, s, st);
    var worker := WorkerOf(s, st.w);
    SameRowsFollow(s, s.(workers := s'.workers));
    if worker.Holding? {
      if MarkDispatched(pricer, s.db, st.lease, st.now, worker.no, worker.evidence).Ok? {
        DispatchedInOrder(pricer, s.db, st.lease, st.now, worker.no, worker.evidence);
        GainsCall(s, s', st.w, worker.no, worker.evidence);
      } else {
        QuietStep(s, s', st.w);
      }
    }
  }

  /** The worker whose transaction moved a row out of the prepared state is the only one that may call for it. */
  lemma GainsCall(s: System, s': System, w: nat, no: nat, evidence: Evidence)
    requires InOrder(s) && RowsFollow(s, s') && s'.calls == s.calls
    requires s'.workers == s.workers[w := MayCall(no, evidence)]
    requires 1 <= no <= |s.db.attempts| && s.db.attempts[no - 1].state == Prepared && SentWith(s'.db, no, evidence)
    ensures InOrder(s')
  {
    CallsStay(s, s');
    forall v: nat | v != w && WorkerOf(s, v).MayCall? ensures WorkerOf(s, v).no != no {
      assert WorkerInOrder(s, v);
    }
    OneCallerStays(s, s', w);
    forall v: nat ensures WorkerInOrder(s', v) {
      assert WorkerInOrder(s, v);
      if v == w {
        forall k | 0 <= k < |s.calls| ensures s.calls[k].no != no { assert SentWith(s.db, s.calls[k].no, s.calls[k].evidence); }
      } else if WorkerOf(s, v).MayCall? {
        SentStays(s, s', WorkerOf(s, v).no, WorkerOf(s, v).evidence);
      } else if WorkerOf(s, v).Chosen? {
        ChosenStays(s, s', v);
      }
    }
  }

  lemma CallInOrder(s: System, w: nat)
    requires InOrder(s)
    ensures var s' := StepCall(s, w); InOrder(s') && s'.db == s.db
  {
    var s' := StepCall(s, w);
    assert WorkerInOrder(s, w);
    if WorkerOf(s, w).MayCall? {
      var no := WorkerOf(s, w).no;
      OneCallerStays(s, s', w);
      assert s'.calls[|s.calls|] == ProviderCall(no, WorkerOf(s, w).evidence);
      forall v: nat ensures WorkerInOrder(s', v) {
        assert WorkerInOrder(s, v);
        if v != w && WorkerOf(s, v).Called? {
          var call := ProviderCall(WorkerOf(s, v).no, WorkerOf(s, v).evidence);
          assert call in s.calls;
        }
      }
    }
  }

  lemma RecordStepInOrder(pricer: Pricer, s: System, st: Step)
    requires InOrder(s) && st.Record?
    ensures var s' := Take(pricer, s, st); InOrder(s') && RowsFollow(s, s') && s'.calls == s.calls
  {
    var s' := Take(pricer, s, st);
    var worker := WorkerOf(s, st.w);
    SameRowsFollow(s, s.(workers := s'.workers));
    if worker.Called? {
      if RecordOutcome(s.db, worker.no, worker.evidence, st.outcome).Ok? {
        RecordedInOrder(s.db, worker.no, worker.evidence, st.outcome);
      }
      QuietStep(s, s', st.w);
    }
  }

  lemma CommandChangeInOrder(s: System, db: ChatDb)
    requires InOrder(s) && CommandChangeAllowed(s.db, db.command, db.nextId)
    requires db == s.db.(command := db.command, message := db.message, conversationDeleted := db.conversationDeleted,
                         prefixReadable := db.prefixReadable, nextId := db.nextId)
    ensures RowsFollow(s, s.(db := db))
  {
  }

  lemma MarkFailureInOrder(s: System, lease: Lease, marker: Marker)
    requires InOrder(s) && MarkTrigger(s.db, lease, marker).Ok?
    ensures RowsFollow(s, s.(db := MarkTrigger(s.db, lease, marker).value)) && OpenBilling(s.db.run)
  {
  }

  lemma WalletStepInOrder(s: System, op: Op)
    requires InOrder(s) && (op.DoCredit? || op.runId != s.db.run.id)
    ensures RowsFollow(s, s.(db := s.db.(book := Apply(s.db.book, op))))
  {
    WalletElsewhereInOrder(s.db, op);
  }

  /** Steps of the rows alone. */
  lemma RowOnlyStepInOrder(pricer: Pricer, s: System, st: Step)
    requires InOrder(s) && (st.MarkFailure? || st.SettleRun? || st.CommandChanges? || st.WalletElsewhere?)
    ensures var s' := Take(pricer, s, st); RowsFollow(s, s') && s' == s.(db := s'.db)
  {
    SameRowsFollow(s, s);
    match st {
      case MarkFailure(lease, marker) => if MarkTrigger(s.db, lease, marker).Ok? { MarkFailureInOrder(s, lease, marker); }
      case SettleRun => if Settle(pricer, s.db).Ok? { SettledInOrder(pricer, s.db); }
      case CommandChanges(_, _, _, _, _) => if Take(pricer, s, st) != s { CommandChangeInOrder(s, Take(pricer, s, st).db); }
      case WalletElsewhere(op) => if op.DoCredit? || op.runId != s.db.run.id { WalletStepInOrder(s, op); }
    }
  }

  lemma CrashInOrder(pricer: Pricer, s: System, w: nat)
    requires InOrder(s)
    ensures InOrder(Take(pricer, s, Crash(w))) && Take(pricer, s, Crash(w)).db == s.db
    ensures Take(pricer, s, Crash(w)).calls == s.calls
  {
    var s' := Take(pricer, s, Crash(w));
    SameRowsFollow(s, s');
    QuietStep(s, s', w);
  }

  /** Every step keeps the invariant and advances the rows. */
  lemma StepInOrder(pricer: Pricer, s: System, st: Step)
    requires InOrder(s)
    ensures var s' := Take(pricer, s, st); InOrder(s') && Advances(s.db, s'.db) && s.calls <= s'.calls
  {
    SameRowsFollow(s, s);
    match st {
      case Look(_, _, _) => LookInOrder(pricer, s, st);
      case Prepare(_, _, _, _, _) => PrepareStepInOrder(pricer, s, st);
      case Dispatch(_, _, _) => DispatchStepInOrder(pricer, s, st);
      case CallProvider(_) => CallInOrder(s, st.w);
      case Record(_, _) => RecordStepInOrder(pricer, s, st);
      case Crash(w) => CrashInOrder(pricer, s, w);
      case _ =>
        RowOnlyStepInOrder(pricer, s, st);
        RowStep(s, Take(pricer, s, st));
    }
  }

  lemma {:induction false} RunInOrder(pricer: Pricer, s: System, steps: seq<Step>)
    requires InOrder(s)
    ensures InOrder(Execute(pricer, s, steps))
    decreases |steps|
  {
    if steps != [] {
      StepInOrder(pricer, s, steps[0]);
      RunInOrder(pricer, Take(pricer, s, steps[0]), steps[1..]);
    }
  }

  // ---------- what every run guarantees ----------

  lemma FreshInOrder(s: System)
    requires Fresh(s)
    ensures InOrder(s)
  {
    assert forall w: nat :: WorkerOf(s, w) == Worker.Idle;
    assert MoneyInOrder(s.db);
    assert AttemptsInOrder(s.db) && CallsInOrder(s);
    assert OneCaller(s);
    assert forall w: nat :: WorkerInOrder(s, w);
  }

  /** However workers race, crash and recover: attempt numbers are consecutive within the limit, no number is ever sent to
      the provider twice, every call carries the stored request of its number, and only attempts that failed or asked for
      tools are followed by another. */
  lemma ProviderIsCalledOncePerAttempt(pricer: Pricer, start: System, steps: seq<Step>)
    requires Fresh(start)
    ensures var s := Execute(pricer, start, steps);
            && (forall i :: 0 <= i < |s.db.attempts| ==> s.db.attempts[i].no == i + 1)
            && (s.db.command.maxAttempts > 0 ==> |s.db.attempts| <= s.db.command.maxAttempts)
            && (forall j, k :: 0 <= j < k < |s.calls| ==> s.calls[j].no != s.calls[k].no)
            && (forall k :: 0 <= k < |s.calls| ==> SentWith(s.db, s.calls[k].no, s.calls[k].evidence))
            && (OpenBilling(s.db.run) ==> forall i :: 0 <= i < |s.db.attempts| - 1 ==> MayContinue(s.db.attempts[i]))
  {
    FreshInOrder(start);
    RunInOrder(pricer, start, steps);
  }

  /** In every reachable state an open run with a hold has charge and hold in agreement and covering every quote,
      and a run that is no longer open is accepted by the replay branch. */
  lemma MoneyAgreesInEveryRun(pricer: Pricer, start: System, steps: seq<Step>)
    requires Fresh(start)
    ensures MoneyAgrees(pricer, Execute(pricer, start, steps).db)
  {
    FreshInOrder(start);
    RunInOrder(pricer, start, steps);
    OrderedMoneyAgrees(pricer, Execute(pricer, start, steps).db);
  }

  ghost predicate MoneyAgrees(pricer: Pricer, db: ChatDb) {
    && Valid(db.book)
    && (db.run.billing == BillingHeld ==>
          && FindHold(db.book.holds, db.run.id) == Some(Hold(db.run.id, db.charge.held, 0, HoldActive))
          && forall i :: 0 <= i < |db.attempts| ==> db.attempts[i].evidence.quote.target <= db.charge.held)
    && (!OpenBilling(db.run) ==>
          && Settle(pricer, db) == Ok((db, Replayed))
          && CapturedUnits(db.book.holds, db.run.id) == db.charge.actual <= db.charge.held)
  }

  lemma OrderedMoneyAgrees(pricer: Pricer, db: ChatDb)
    requires MoneyInOrder(db)
    ensures MoneyAgrees(pricer, db)
  {
    HoldFacts(db.book, db.run.id);
  }

  ghost predicate SameRows(db: ChatDb, db': ChatDb) {
    && db'.run == db.run && db'.charge == db.charge && db'.attempts == db.attempts && db'.command == db.command
    && FindHold(db'.book.holds, db.run.id) == FindHold(db.book.holds, db.run.id)
    && DebitsOf(db'.book.ledger, db.run.id) == DebitsOf(db.book.ledger, db.run.id)
  }

  lemma DebitsElsewhere(book: Book, op: Op, runId: nat)
    requires Valid(book) && (op.DoCredit? || op.runId != runId)
    ensures DebitsOf(Apply(book, op).ledger, runId) == DebitsOf(book.ledger, runId)
  {
    if op.DoCredit? {
      LedgerAppend(book.ledger, Recharge(op.rechargeId, op.amount, book.balance, book.balance + op.amount), runId);
    } else {
      ApplyElsewhere(book, op, runId);
    }
  }

  lemma WalletStepSameRows(db: ChatDb, op: Op)
    requires Valid(db.book) && (op.DoCredit? || op.runId != db.run.id)
    ensures SameRows(db, db.(book := Apply(db.book, op)))
  {
    HoldElsewhere(db.book, op, db.run.id);
    DebitsElsewhere(db.book, op, db.run.id);
  }

  /** No transaction of the run commits once its billing is closed, except the replayed settlement. */
  lemma ClosedRefuses(pricer: Pricer, db: ChatDb)
    requires MoneyInOrder(db) && !OpenBilling(db.run)
    ensures forall lease, now, no, request, callMax :: PrepareNew(pricer, db, lease, now, no, request, callMax).Err?
    ensures forall lease, no :: PrepareRecovered(pricer, db, lease, no).Err?
    ensures forall lease, now, no, evidence :: MarkDispatched(pricer, db, lease, now, no, evidence).Err?
    ensures forall no, evidence, o :: RecordOutcome(db, no, evidence, o).Err?
    ensures forall lease, marker :: MarkTrigger(db, lease, marker).Err?
    ensures Settle(pricer, db) == Ok((db, Replayed))
  {
    assert !RunAndChargeLockable(db);
    assert db.command.state != Running;
  }

  lemma ClosedTransaction(pricer: Pricer, s: System, st: Step)
    requires InOrder(s) && !OpenBilling(s.db.run)
    requires st.Prepare? || st.Dispatch? || st.Record? || st.MarkFailure? || st.SettleRun?
    ensures Take(pricer, s, st).db == s.db
  {
    ClosedRefuses(pricer, s.db);
    if st.Prepare? && WorkerOf(s, st.w).Chosen? { var db := PrepareShape(pricer, s, st); }
  }

  lemma ClosedStep(pricer: Pricer, s: System, st: Step)
    requires InOrder(s) && !OpenBilling(s.db.run)
    ensures SameRows(s.db, Take(pricer, s, st).db)
  {
    if st.WalletElsewhere? {
      if st.op.DoCredit? || st.op.runId != s.db.run.id { WalletStepSameRows(s.db, st.op); }
    } else if st.Look? || st.CallProvider? || st.Crash? {
      assert Take(pricer, s, st).db == s.db;
    } else if !st.CommandChanges? {
      ClosedTransaction(pricer, s, st);
    }
  }

  /** Once settled, nothing any worker, retry or other run does changes the run, its charge, its command, its attempts,
      its hold or its ledger row. */
  lemma {:induction false} SettledRunIsFinal(pricer: Pricer, s: System, steps: seq<Step>)
    requires InOrder(s) && !OpenBilling(s.db.run)
    ensures SameRows(s.db, Execute(pricer, s, steps).db)
    decreases |steps|
  {
    if steps != [] {
      ClosedStep(pricer, s, steps[0]);
      StepInOrder(pricer, s, steps[0]);
      SettledRunIsFinal(pricer, Take(pricer, s, steps[0]), steps[1..]);
    }
  }

  /** A stored terminal outcome is never overwritten; settlement may only clear its candidate. */
  lemma {:induction false} TerminalOutcomeIsFinal(pricer: Pricer, s: System, steps: seq<Step>, i: nat)
    requires InOrder(s) && i < |s.db.attempts| && Terminal(s.db.attempts[i].state)
    ensures var db' := Execute(pricer, s, steps).db;
            && i < |db'.attempts|
            && (db'.attempts[i] == s.db.attempts[i]
                || (!OpenBilling(db'.run) && db'.attempts[i] == s.db.attempts[i].(candidate := None)))
    decreases |steps|
  {
    if steps != [] {
      var s' := Take(pricer, s, steps[0]);
      StepInOrder(pricer, s, steps[0]);
      assert RowAdvances(s.db, s'.db, i);
      TerminalOutcomeIsFinal(pricer, s', steps[1..], i);
      if !OpenBilling(s'.db.run) { SettledRunIsFinal(pricer, s', steps[1..]); }
    }
  }

  /** A second write of an outcome answers with the stored one and changes nothing. */
  lemma OutcomeWriteReplays(attempts: seq<AttemptRow>, no: nat, first: Outcome, second: Outcome)
    requires forall i :: 0 <= i < |attempts| ==> attempts[i].no == i + 1
    requires 1 <= no <= |attempts| && attempts[no - 1].state == Dispatched && ValidOutcome(first)
    ensures var written := WriteOutcome(attempts, no, first);
            && written.Ok? && written.value.1 == OutcomeWrite(first, false)
            && WriteOutcome(written.value.0, no, second) == Ok((written.value.0, OutcomeWrite(first, true)))
  {
    FindInOrder(attempts, no);
    FindInOrder(WriteOutcome(attempts, no, first).value.0, no);
  }

  ghost predicate NoCallPending(s: System) {
    s.db.command.cancelRequested && forall w: nat :: !WorkerOf(s, w).MayCall?
  }

  lemma CancelDispatch(pricer: Pricer, s: System, st: Step)
    requires NoCallPending(s) && st.Dispatch?
    ensures NoCallPending(Take(pricer, s, st)) && Take(pricer, s, st).calls == s.calls
  {
    var s' := Take(pricer, s, st);
    forall w: nat ensures !WorkerOf(s', w).MayCall? { assert !WorkerOf(s, w).MayCall?; }
  }

  lemma CancelStep(pricer: Pricer, s: System, st: Step)
    requires NoCallPending(s)
    ensures var s' := Take(pricer, s, st); NoCallPending(s') && s'.calls == s.calls
  {
    var s' := Take(pricer, s, st);
    match st {
      case Dispatch(_, _, _) => CancelDispatch(pricer, s, st);
      case SettleRun => if Settle(pricer, s.db).Ok? { SettleKeepsCancel(pricer, s.db); }
      case Prepare(_, _, _, _, _) => CancelPrepare(pricer, s, st);
      case _ =>
    }
    if !st.Dispatch? && !st.Prepare? {
      forall w: nat ensures !WorkerOf(s', w).MayCall? { assert !WorkerOf(s, w).MayCall?; }
    }
  }

  lemma CancelPrepare(pricer: Pricer, s: System, st: Step)
    requires NoCallPending(s) && st.Prepare?
    ensures NoCallPending(Take(pricer, s, st)) && Take(pricer, s, st).calls == s.calls
  {
    if WorkerOf(s, st.w).Chosen? {
      var db := PrepareShape(pricer, s, st);
      var worker := WorkerOf(s, st.w);
      if !worker.recover && PrepareNew(pricer, s.db, st.lease, st.now, worker.no, st.request, st.callMax).Ok? {
        PrepareKeepsCancel(pricer, s.db, st.lease, st.now, worker.no, st.request, st.callMax);
      }
      var s' := Take(pricer, s, st);
      forall w: nat ensures !WorkerOf(s', w).MayCall? { assert !WorkerOf(s, w).MayCall?; }
    }
  }

  lemma PrepareKeepsCancel(pricer: Pricer, db: ChatDb, lease: Lease, now: int, no: nat, request: nat, callMax: int)
    requires PrepareNew(pricer, db, lease, now, no, request, callMax).Ok?
    ensures PrepareNew(pricer, db, lease, now, no, request, callMax).value.0.command.cancelRequested == db.command.cancelRequested
  {
    var refused, target, evidence, put := PreparedFrom(pricer, db, lease, now, no, request, callMax);
  }

  lemma SettleKeepsCancel(pricer: Pricer, db: ChatDb)
    requires Settle(pricer, db).Ok?
    ensures Settle(pricer, db).value.0.command.cancelRequested == db.command.cancelRequested
  {
    if Settle(pricer, db).value.1 == Applied {
      var (attempts, f, d) := Judge(pricer, db).value;
      FinishKeepsCancel(db.(attempts := attempts), f, d);
    }
  }

  lemma FinishKeepsCancel(db: ChatDb, f: Facts, d: Decision)
    requires ApplyDecision(db, f, d).Ok?
    ensures ApplyDecision(db, f, d).value.command.cancelRequested == db.command.cancelRequested
  {
  }

  /** Once a stop request has committed and no dispatch is in flight, the provider is never called for this run again. */
  lemma {:induction false} NoCallAfterCancel(pricer: Pricer, s: System, steps: seq<Step>)
    requires NoCallPending(s)
    ensures Execute(pricer, s, steps).calls == s.calls
    decreases |steps|
  {
    if steps != [] {
      CancelStep(pricer, s, steps[0]);
      NoCallAfterCancel(pricer, Take(pricer, s, steps[0]), steps[1..]);
    }
  }
}
