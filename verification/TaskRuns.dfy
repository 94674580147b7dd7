/** Runs of a text or image task: any number of workers, crashes and lease changes, and the re-run that ends them. */
module TaskRuns {
  import opened Common
  import opened Wallet
  import opened ChatRows
  import opened ChatDecision
  import opened ChatTransactions
  import opened ChatSettlement
  import opened TaskTransactions
  import ChatEndings
  import ChatRuns

  // ---------- the invariant ----------

  /** What a task provider hands back: no stop request reaches it, a failure carries no candidate, and an image
      success carries one that decodes. */
  predicate FromProvider(kind: Kind, o: Outcome) {
    && ValidOutcome(o) && o.state != Canceled
    && (o.state != Succeeded ==> o.candidate.None?)
    && (kind == ImageTask && o.state == Succeeded ==>
          o.candidate.Some? && o.candidate.value.FinalAnswer? && o.candidate.value.answer != "")
  }

  ghost predicate AttemptInOrder(kind: Kind, a: AttemptRow) {
    match a.state
    case Prepared => a.dispatch == NotDispatched && a.usage == Unavailable && a.candidate.None? && a.response.None?
    case Dispatched => a.dispatch == SentOut && a.usage == Unavailable && a.candidate.None? && a.response.None?
    case _ => FromProvider(kind, OutcomeOf(a))
  }

  ghost predicate OpenInOrder(kind: Kind, db: TaskDb) {
    var hold := FindHold(db.book.holds, db.run.id);
    && db.run.status == RunRunning && db.charge.status == ChargeOpen && !db.charge.finalized
    && db.charge.actual == 0 && db.charge.items == [] && db.task.status == TaskRunning && !db.task.finished
    && (db.run.billing == BillingPending ==> db.run.reason == PendingReason && hold.None? && db.charge.held == 0 && db.attempts == [])
    && (db.run.billing == BillingHeld ==>
          && db.run.reason == HeldReason && hold == Some(Hold(db.run.id, db.charge.held, 0, HoldActive)) && db.charge.held > 0
          && |db.attempts| == 1 && AttemptInOrder(kind, db.attempts[0])
          && db.attempts[0].evidence.quote.prior == 0
          && 0 < db.attempts[0].evidence.quote.callMax == db.attempts[0].evidence.quote.target <= db.charge.held)
    && (db.task.output.Some? ==>
          && kind == TextTask && db.attempts != [] && db.attempts[0].state == Succeeded
          && db.attempts[0].candidate == Some(FinalAnswer(db.task.output.value)))
  }

  ghost predicate TaskInOrder(kind: Kind, db: TaskDb) {
    && Valid(db.book) && db.charge.runId == db.run.id && db.charge.userId == db.run.userId
    && |db.attempts| <= 1 && (db.attempts != [] ==> db.attempts[0].no == 1)
    && if OpenBilling(db.run) then OpenInOrder(kind, db)
       else TerminalBilling(Rows(db)) && db.task.status != TaskRunning && (db.attempts != [] ==> Terminal(db.attempts[0].state))
  }

  /** Neither what is stored nor whether it may be sent ever moves backwards. */
  ghost predicate Follows(before: TaskDb, after: TaskDb) {
    && |before.attempts| <= |after.attempts|
    && (before.attempts != [] ==> after.attempts != [] && after.attempts[0].evidence == before.attempts[0].evidence)
    && (before.attempts != [] && before.attempts[0].state != Prepared ==> after.attempts != [] && after.attempts[0].state != Prepared)
    && (!OpenBilling(before.run) ==> after.run == before.run && after.charge == before.charge && after.attempts == before.attempts
                                     && FindHold(after.book.holds, before.run.id) == FindHold(before.book.holds, before.run.id))
  }

  // ---------- each transaction ----------

  lemma NoPrior(kind: Kind, pricer: Pricer, db: TaskDb)
    requires TaskInOrder(kind, db) && OpenBilling(db.run)
    ensures PriorUnits(pricer, Rows(db), 1) == Ok(0)
  {
    assert PriorSucceeded(db.attempts, 1) == [];
  }

  lemma FindFirst(attempts: seq<AttemptRow>, no: nat)
    requires |attempts| <= 1 && (attempts != [] ==> attempts[0].no == 1)
    ensures FindAttempt(attempts, no) == if attempts != [] && no == 1 then Some(0) else None
  {
  }

  lemma TaskReservation(kind: Kind, db: TaskDb, target: int)
    requires TaskInOrder(kind, db) && ReserveOrTopUp(Rows(db), target).Ok?
    ensures OpenBilling(db.run)
    ensures var after := WithMoney(db, ReserveOrTopUp(Rows(db), target).value);
            && Valid(after.book) && after.run == db.run.(billing := BillingHeld, reason := HeldReason)
            && after.charge == db.charge.(held := target) && target >= db.charge.held && target > 0
            && FindHold(after.book.holds, db.run.id) == Some(Hold(db.run.id, target, 0, HoldActive))
            && (db.attempts != [] ==> TaskInOrder(kind, after))
  {
    ChatRuns.ReservationAgrees(Rows(db), target);
    HoldFacts(ReserveOrTopUp(Rows(db), target).value.book, db.run.id);
  }

  lemma PreparedNewInOrder(kind: Kind, pricer: Pricer, db: TaskDb, lease: Lease, now: int, request: nat, callMax: int)
    requires TaskInOrder(kind, db) && TaskPrepareNew(kind, pricer, db, lease, now, 1, request, callMax).Ok?
    ensures var (after, p) := TaskPrepareNew(kind, pricer, db, lease, now, 1, request, callMax).value;
            && TaskInOrder(kind, after) && Follows(db, after) && OpenBilling(db.run) && OpenBilling(after.run)
            && after.task.owner == db.task.owner && after.task.token == db.task.token && after.task.expires == db.task.expires
            && (p.Ready? ==> after.attempts != [] && after.attempts[0].state == Prepared && after.attempts[0].evidence == p.evidence
                             && after.task == db.task && (db.attempts != [] ==> after.attempts == db.attempts))
            && (p.Refused? ==>
                  && after.attempts == db.attempts
                  && (MayWrite(kind, db.task, lease, now) ==> after.task.code == InsufficientCode))
  {
    NoPrior(kind, pricer, db);
    FindFirst(db.attempts, 1);
    var target := Max(db.charge.held, callMax);
    var reserved := ReserveOrTopUp(Rows(db), target);
    if reserved.Ok? {
      TaskReservation(kind, db, target);
      ReservedTask(kind, pricer, db, lease, now, request, callMax);
    } else {
      assert TaskPrepareNew(kind, pricer, db, lease, now, 1, request, callMax) == RecordTaskRefusal(kind, db, lease, now);
    }
  }

  /** A committed first preparation is the reservation and its row, or the reservation beside the row that is there. */
  lemma ReservedTask(kind: Kind, pricer: Pricer, db: TaskDb, lease: Lease, now: int, request: nat, callMax: int)
    requires PriorUnits(pricer, Rows(db), 1) == Ok(0) && FindAttempt(db.attempts, 1) == (if db.attempts != [] then Some(0) else None)
    requires ReserveOrTopUp(Rows(db), Max(db.charge.held, callMax)).Ok?
    requires TaskPrepareNew(kind, pricer, db, lease, now, 1, request, callMax).Ok?
    ensures var (after, p) := TaskPrepareNew(kind, pricer, db, lease, now, 1, request, callMax).value;
            var reserved := WithMoney(db, ReserveOrTopUp(Rows(db), Max(db.charge.held, callMax)).value);
            var evidence := Evidence(request, Quote(callMax, 0, callMax));
            && p == Ready(evidence) && callMax > 0
            && if db.attempts != [] then after == reserved && db.attempts[0].state == Prepared && db.attempts[0].evidence == evidence
               else
                 var row := AttemptRow(db.nextId, 1, evidence, Prepared, NotDispatched, Unavailable, None, None, None);
                 after == reserved.(attempts := [row], nextId := db.nextId + 1)
  {
  }

  lemma PreparedAgainInOrder(kind: Kind, pricer: Pricer, db: TaskDb, lease: Lease, now: int)
    requires TaskInOrder(kind, db) && TaskPrepareRecovered(kind, pricer, db, lease, now, 1).Ok?
    ensures var (after, p) := TaskPrepareRecovered(kind, pricer, db, lease, now, 1).value;
            && TaskInOrder(kind, after) && Follows(db, after) && OpenBilling(db.run) && OpenBilling(after.run)
            && after.attempts == db.attempts
            && after.task.owner == db.task.owner && after.task.token == db.task.token && after.task.expires == db.task.expires
            && (p.Ready? ==> after.attempts != [] && after.attempts[0].state == Prepared && after.attempts[0].evidence == p.evidence
                             && after.task == db.task)
            && (p.Refused? && MayWrite(kind, db.task, lease, now) ==> after.task.code == InsufficientCode)
  {
    NoPrior(kind, pricer, db);
    FindFirst(db.attempts, 1);
    if ReserveOrTopUp(Rows(db), db.charge.held).Ok? { TaskReservation(kind, db, db.charge.held); }
  }

  lemma DispatchedTaskInOrder(kind: Kind, pricer: Pricer, db: TaskDb, lease: Lease, now: int, no: nat, evidence: Evidence)
    requires TaskInOrder(kind, db) && TaskMarkDispatched(kind, pricer, db, lease, now, no, evidence).Ok?
    ensures var after := TaskMarkDispatched(kind, pricer, db, lease, now, no, evidence).value;
            && TaskInOrder(kind, after) && Follows(db, after) && no == 1 && OpenBilling(after.run)
            && db.attempts != [] && db.attempts[0].state == Prepared
            && after.attempts != [] && after.attempts[0].state == Dispatched && after.attempts[0].evidence == evidence
            && after.task == db.task && after.dispatchedAt == Some(now)
  {
    FindFirst(db.attempts, no);
  }

  lemma RecordedTaskInOrder(kind: Kind, db: TaskDb, lease: Lease, now: int, no: nat, evidence: Evidence, o: Outcome)
    requires TaskInOrder(kind, db) && FromProvider(kind, o) && TaskRecordOutcome(kind, db, lease, now, no, evidence, o).Ok?
    ensures var after := TaskRecordOutcome(kind, db, lease, now, no, evidence, o).value;
            && TaskInOrder(kind, after) && Follows(db, after) && OpenBilling(after.run)
            && after.attempts != [] && OutcomeOf(after.attempts[0]) == o && after == db.(attempts := after.attempts)
  {
    FindFirst(db.attempts, no);
  }

  lemma MarkedUnknownInOrder(kind: Kind, db: TaskDb, lease: Lease, now: int)
    requires TaskInOrder(kind, db) && TaskMarkUnknown(kind, db, lease, now).Ok?
    ensures var after := TaskMarkUnknown(kind, db, lease, now).value;
            && TaskInOrder(kind, after) && Follows(db, after) && after == db.(attempts := after.attempts)
            && (OpenBilling(db.run) && db.attempts != [] && db.attempts[0].state == Dispatched ==>
                  after.attempts[0].state == OutcomeUnknown)
  {
  }

  lemma FailedInOrder(kind: Kind, db: TaskDb, lease: Lease, now: int, code: TaskCode)
    requires TaskInOrder(kind, db) && TaskMarkFailure(kind, db, lease, now, code).Ok?
    ensures var after := TaskMarkFailure(kind, db, lease, now, code).value;
            && TaskInOrder(kind, after) && Follows(db, after)
            && after == db.(task := after.task) && after.task == db.task.(code := after.task.code)
  {
  }

  lemma PersistedInOrder(db: TaskDb)
    requires TaskInOrder(TextTask, db) && PersistTextCandidate(db).Ok?
    ensures TaskInOrder(TextTask, PersistTextCandidate(db).value) && Follows(db, PersistTextCandidate(db).value)
  {
  }

  // ---------- settlement ----------

  /** The stored facts decide: an attempt that reached an end, or a recorded failure before anything was sent. */
  predicate Decidable(db: TaskDb) {
    if db.attempts == [] then db.task.code != NoCode
    else Terminal(db.attempts[0].state) || (db.attempts[0].state == Prepared && db.task.code != NoCode)
  }

  /** The answer a publishing settlement needs is where the settlement looks for it. */
  predicate Publishable(kind: Kind, db: TaskDb) {
    db.attempts != [] && db.attempts[0].state == Succeeded && db.task.code == NoCode ==>
      && db.attempts[0].candidate.Some? && db.attempts[0].candidate.value.FinalAnswer? && db.attempts[0].candidate.value.answer != ""
      && (kind == TextTask ==> db.task.output == Some(db.attempts[0].candidate.value.answer))
  }

  lemma TaskMoneyHolds(kind: Kind, db: TaskDb)
    requires TaskInOrder(kind, db) && OpenBilling(db.run) && TaskFacts(db, NormalizeTask(db.task, db.attempts)).Ok?
    ensures MoneyFactsConsistent(TaskFacts(db, NormalizeTask(db.task, db.attempts)).value)
  {
  }

  lemma TaskAttemptHolds(kind: Kind, db: TaskDb)
    requires TaskInOrder(kind, db) && OpenBilling(db.run) && TaskFacts(db, NormalizeTask(db.task, db.attempts)).Ok?
    ensures AttemptFactsConsistent(TaskFacts(db, NormalizeTask(db.task, db.attempts)).value)
  {
    TaskRowHolds(kind, db);
    TaskTriggerFacts(db, TaskFacts(db, NormalizeTask(db.task, db.attempts)).value);
  }

  lemma TaskRowHolds(kind: Kind, db: TaskDb)
    requires TaskInOrder(kind, db) && OpenBilling(db.run)
    ensures var n := ReadTaskUsage(NormalizeTask(db.task, db.attempts));
            && |n| <= 1 && (n != [] ==> n[0].no == 1 && AttemptConsistent(n[0]))
            && (n != [] && n[0].state == Canceled ==> n[0].candidate.None? && db.task.code != NoCode && n[0].dispatch == NotDispatched)
            && (n != [] && n[0].state != Succeeded ==> n[0].candidate.None?)
  {
  }

  lemma TaskFactsHold(kind: Kind, db: TaskDb)
    requires TaskInOrder(kind, db) && OpenBilling(db.run) && TaskFacts(db, NormalizeTask(db.task, db.attempts)).Ok?
    ensures var f := TaskFacts(db, NormalizeTask(db.task, db.attempts)).value; MoneyFactsConsistent(f) && AttemptFactsConsistent(f)
    ensures db.task.code != InsufficientCode ==> Decidable(db)
  {
    TaskMoneyHolds(kind, db);
    TaskAttemptHolds(kind, db);
  }

  /** The settlement stays pending exactly while nothing decides; otherwise only pricing can refuse it. */
  lemma JudgedExactlyWhenDecidable(kind: Kind, pricer: Pricer, db: TaskDb)
    requires TaskInOrder(kind, db) && OpenBilling(db.run) && Publishable(kind, db)
    ensures JudgeTask(pricer, db) == Err(StillPending) <==> !Decidable(db)
    ensures Decidable(db) ==> JudgeTask(pricer, db).Ok? || JudgeTask(pricer, db) == Err(PricingFailed)
  {
    var attempts := NormalizeTask(db.task, db.attempts);
    if TaskFacts(db, attempts).Ok? {
      var f := TaskFacts(db, attempts).value;
      TaskFactsHold(kind, db);
      DecideForTask(kind, pricer, db, f);
    }
  }

  lemma DecideForTask(kind: Kind, pricer: Pricer, db: TaskDb, f: Facts)
    requires TaskInOrder(kind, db) && OpenBilling(db.run) && Publishable(kind, db)
    requires TaskFacts(db, NormalizeTask(db.task, db.attempts)) == Ok(f)
    ensures Decide(pricer, f) == Err(StillPending) <==> !Decidable(db)
    ensures Decidable(db) ==> Decide(pricer, f).Ok? || Decide(pricer, f) == Err(PricingFailed)
  {
    if f.attempts != [] {
      OneAttempt(f, f.attempts[0]);
      if Intermediate(f.attempts[0]) { assert f.attempts[0] in f.attempts; } else { SingleDecides(pricer, f); }
    } else {
      NoneDecides(pricer, f);
    }
  }

  lemma OneAttempt(f: Facts, a: AttemptRow)
    requires f.attempts == [a]
    ensures ChargeableOf(f, f.attempts) == if Chargeable(f, a) then [a] else []
    ensures forall x :: x in f.attempts <==> x == a
  {
    assert ChargeableOf(f, [a][1..]) == [];
  }

  lemma NoneDecides(pricer: Pricer, f: Facts)
    requires f.attempts == [] && (f.trigger == PreDispatchFailed || f.trigger == InitialInsufficient)
    ensures Decide(pricer, f).Ok?
  {
  }

  /** Pricing the one attempt of a task either yields a decision or fails in the pricer. */
  lemma SinglePrices(pricer: Pricer, f: Facts, status: RunStatus, publish: bool)
    requires |f.attempts| == 1
    requires (publish ==> Chargeable(f, f.attempts[0]) && f.candidate.Some? && f.candidate.value.0 == f.attempts[0].id)
    ensures var d := PriceOrUnbilled(pricer, f, status, publish); d.Ok? || d == Err(PricingFailed)
  {
    OneAttempt(f, f.attempts[0]);
    if publish { assert f.attempts[0] in ChargeableOf(f, f.attempts); }
  }

  lemma SingleDecides(pricer: Pricer, f: Facts)
    requires |f.attempts| == 1 && !Intermediate(f.attempts[0])
    requires f.trigger != UserStop && f.trigger != UserStopBeforeDispatch
    requires f.trigger == PreDispatchFailed ==> f.attempts[0].dispatch == NotDispatched
    requires f.trigger == Success ==> f.attempts[0].state == Succeeded && f.candidate.Some? && f.candidate.value.0 == f.attempts[0].id
    ensures Decide(pricer, f).Ok? || Decide(pricer, f) == Err(PricingFailed)
  {
    var a := f.attempts[0];
    OneAttempt(f, a);
    if f.trigger == Success {
      assert a in f.attempts;
      SinglePrices(pricer, f, RunSuccess, true);
    } else if f.trigger == ContinuationTopUpInsufficient {
      SinglePrices(pricer, f, RunFailed, false);
    }
  }

  ghost predicate About(db: TaskDb, f: Facts) {
    f.run == db.run && f.charge == db.charge && f.hold == FindHold(db.book.holds, db.run.id)
  }

  /** What the decision about a task says beyond its money. */
  ghost predicate FitsTask(db: TaskDb, f: Facts, d: Decision) {
    && d.candidate == f.candidate
    && (f.candidate == if db.attempts == [] || Last(NormalizeTask(db.task, db.attempts)).candidate.None? then None
                       else Some((db.attempts[0].id, Last(NormalizeTask(db.task, db.attempts)).candidate.value)))
    && (d.runStatus == RunSuccess <==> d.publish)
    && (d.publish ==> d.billing == BillingSettled && db.attempts != [] && db.attempts[0].state == Succeeded && db.task.code == NoCode)
    && (d.billing == BillingSettled ==> d.publish || db.task.code == InsufficientCode)
    && (d.publish <==> d.billing == BillingSettled && db.task.code != InsufficientCode)
  }

  lemma PricedFits(pricer: Pricer, f: Facts, status: RunStatus, publish: bool)
    requires PriceOrUnbilled(pricer, f, status, publish).Ok? && (status == RunSuccess || status == RunFailed)
    requires publish <==> status == RunSuccess
    ensures var d := PriceOrUnbilled(pricer, f, status, publish).value;
            && d.candidate == f.candidate
            && (d.runStatus == RunSuccess <==> d.publish)
            && (d.publish <==> d.billing == BillingSettled && publish)
  {
  }

  lemma JudgedFits(kind: Kind, pricer: Pricer, db: TaskDb) returns (f: Facts, d: Decision)
    requires TaskInOrder(kind, db) && OpenBilling(db.run) && JudgeTask(pricer, db).Ok?
    ensures JudgeTask(pricer, db) == Ok((f, d)) && About(db, f) && FitsTask(db, f, d)
    ensures MoneyFactsConsistent(f) && Coherent(f, d)
    ensures db.attempts != [] ==> Terminal(Last(NormalizeTask(db.task, db.attempts)).state)
  {
    f, d := JudgeTask(pricer, db).value.0, JudgeTask(pricer, db).value.1;
    DecideIsCoherent(pricer, f);
    if f.attempts != [] { assert f.attempts[0] in f.attempts; }
    DecisionFits(pricer, db, f, d);
  }

  lemma DecisionFits(pricer: Pricer, db: TaskDb, f: Facts, d: Decision)
    requires |db.attempts| <= 1
    requires TaskFacts(db, NormalizeTask(db.task, db.attempts)) == Ok(f) && Decide(pricer, f) == Ok(d)
    ensures FitsTask(db, f, d)
  {
    match f.trigger {
      case Success => PricedFits(pricer, f, RunSuccess, true);
      case ContinuationTopUpInsufficient =>
        if ChargeableOf(f, f.attempts) != [] && !f.run.legacy { PricedFits(pricer, f, RunFailed, false); }
      case _ =>
    }
  }

  ghost predicate TaskClosed(kind: Kind, db: TaskDb, after: TaskDb, d: Decision) {
    && TaskInOrder(kind, after) && Follows(db, after) && !OpenBilling(after.run)
    && db.book.balance - after.book.balance == after.charge.actual == SumAmounts(after.charge.items)
    && 0 <= after.charge.actual <= db.charge.held
    && CapturedUnits(after.book.holds, db.run.id) == after.charge.actual
    && (FindHold(db.book.holds, db.run.id).Some? ==> Spent(after.book, db.run.id))
    && after.run.billing == d.billing && after.charge.actual == (if d.billing == BillingSettled then d.actual else 0)
    && (after.task.status == TaskSuccess <==> d.publish)
  }

  /** What finishing a task writes, in terms of the decision alone. */
  ghost predicate TaskFinished(db: TaskDb, after: TaskDb, d: Decision) {
    && after.run.id == db.run.id && after.run.userId == db.run.userId && after.run.billing == d.billing && after.run.status == d.runStatus
    && after.charge.runId == db.charge.runId && after.charge.userId == db.charge.userId && after.charge.held == db.charge.held
    && after.charge.status == d.charge && after.charge.finalized
    && after.charge.actual == (if d.charge == ChargeSettled then d.actual else 0)
    && after.charge.items == (if d.charge == ChargeSettled then db.charge.items + d.items else db.charge.items)
    && after.task.status == (if d.publish then TaskSuccess else TaskFailed) && after.book == db.book
    && after.attempts == ClearCandidates(NormalizeTask(db.task, db.attempts))
  }

  lemma FinishedTask(kind: Kind, db: TaskDb, f: Facts, d: Decision)
    requires db.task.status == TaskRunning && db.run.status == RunRunning && OpenBilling(db.run)
    requires db.charge.status == ChargeOpen && !db.charge.finalized && (d.runStatus == RunSuccess <==> d.publish)
    ensures match FinishTask(kind, db, f, d)
            case Ok(after) => TaskFinished(db, after, d)
            case Err(e) => e == TokenOverflow
                           || (e == CandidateMismatch && d.publish
                               && !(d.candidate.Some? && d.candidate.value.1.FinalAnswer? && d.candidate.value.1.answer != ""
                                    && (kind == TextTask ==> db.task.output == Some(d.candidate.value.1.answer))))
  {
  }

  lemma FinishedCloses(kind: Kind, db: TaskDb, book: Book, after: TaskDb, f: Facts, d: Decision)
    requires TaskInOrder(kind, db) && OpenBilling(db.run) && About(db, f) && MoneyFactsConsistent(f) && Coherent(f, d)
    requires TaskFinished(db.(book := book), after, d) && Valid(book)
    requires db.attempts != [] ==> Terminal(Last(NormalizeTask(db.task, db.attempts)).state)
    requires book.balance == db.book.balance - (if d.charge == ChargeSettled then d.actual else 0)
    requires FindHold(book.holds, db.run.id) ==
               (if f.hold.None? then None
                else Some(if d.charge == ChargeSettled then Hold(db.run.id, 0, d.actual, HoldCaptured)
                          else Hold(db.run.id, 0, 0, HoldReleased)))
    ensures TaskClosed(kind, db, after, d)
  {
    assert [] + d.items == d.items;
  }

  lemma AppliedTask(kind: Kind, db: TaskDb, f: Facts, d: Decision)
    requires TaskInOrder(kind, db) && OpenBilling(db.run) && About(db, f) && FitsTask(db, f, d)
    requires MoneyFactsConsistent(f) && Coherent(f, d)
    requires db.attempts != [] ==> Terminal(Last(NormalizeTask(db.task, db.attempts)).state)
    ensures var applied := ApplyTask(kind, db, f, d);
            if applied.Ok? then TaskClosed(kind, db, applied.value, d)
            else applied == Err(TokenOverflow) || (applied == Err(CandidateMismatch) && !Publishable(kind, db))
  {
    MoneyMoves(Rows(db), f, d);
    var book := ApplyMoney(Rows(db), f, d).value;
    FinishedTask(kind, db.(book := book), f, d);
    var applied := FinishTask(kind, db.(book := book), f, d);
    if applied.Ok? { FinishedCloses(kind, db, book, applied.value, f, d); }
  }

  /** A settlement that judges also applies; it fails otherwise only when the token columns cannot hold the sum. */
  lemma JudgedApplies(kind: Kind, pricer: Pricer, db: TaskDb, lease: Lease, now: int)
    requires TaskInOrder(kind, db) && OpenBilling(db.run) && Publishable(kind, db)
    requires kind == ImageTask ==> MayWrite(kind, db.task, lease, now)
    requires JudgeTask(pricer, db).Ok?
    ensures var settled := TaskSettle(kind, pricer, db, lease, now);
            (settled.Ok? && settled.value.1 == Applied) || settled == Err(SettleRefused(TokenOverflow))
  {
    var f, d := JudgedFits(kind, pricer, db);
    AppliedTask(kind, db, f, d);
  }

  /** An applied task settlement closes the run, moves exactly the charge, and spends the hold. */
  lemma TaskSettled(kind: Kind, pricer: Pricer, db: TaskDb, lease: Lease, now: int)
    requires TaskInOrder(kind, db) && TaskSettle(kind, pricer, db, lease, now).Ok?
    ensures var (after, how) := TaskSettle(kind, pricer, db, lease, now).value;
            && TaskInOrder(kind, after) && Follows(db, after) && !OpenBilling(after.run)
            && (how == Replayed ==> after == db)
            && (how == Applied ==>
                  && OpenBilling(db.run) && JudgeTask(pricer, db).Ok?
                  && TaskClosed(kind, db, after, JudgeTask(pricer, db).value.1))
  {
    if OpenBilling(db.run) {
      var f, d := JudgedFits(kind, pricer, db);
      AppliedTask(kind, db, f, d);
    }
  }

  // ---------- what a task is charged ----------

  /** The stored facts under which a task is charged: a complete success of a replayable run with no failure but a short balance
      beside it, at a price the checks accept and the hold covers. */
  predicate Charges(pricer: Pricer, db: TaskDb) {
    && db.attempts != [] && db.attempts[0].state == Succeeded && db.attempts[0].usage.Complete? && !db.run.legacy
    && (db.task.code == NoCode || db.task.code == InsufficientCode)
    && var price := pricer.settle([db.attempts[0]]);
       price.Priced? && QuoteAccepted([db.attempts[0]], price.units, price.items) && price.units <= db.charge.held
  }

  function ChargeOf(pricer: Pricer, db: TaskDb): int {
    if Charges(pricer, db) then pricer.settle([db.attempts[0]]).units else 0
  }

  lemma OneChargeable(db: TaskDb, f: Facts)
    requires |db.attempts| == 1 && f.attempts == ReadTaskUsage(NormalizeTask(db.task, db.attempts)) && f.stopped == None
    ensures |f.attempts| == 1 && (db.attempts[0].usage.Complete? && db.attempts[0].state == Succeeded ==> f.attempts == db.attempts)
    ensures ChargeableOf(f, f.attempts) == if db.attempts[0].state == Succeeded then f.attempts else []
    ensures db.attempts[0].state == Succeeded ==> f.attempts[0].usage.Complete? == db.attempts[0].usage.Complete?
  {
    OneAttempt(f, f.attempts[0]);
  }

  /** Pricing a single succeeded attempt. */
  lemma SinglePrice(pricer: Pricer, f: Facts, status: RunStatus, publish: bool)
    requires |f.attempts| == 1 && f.attempts[0].state == Succeeded && f.hold.Some?
    requires ChargeableOf(f, f.attempts) == f.attempts
    requires publish ==> f.candidate.Some? && f.candidate.value.0 == f.attempts[0].id
    ensures var price := pricer.settle(f.attempts);
            var charged := !f.run.legacy && f.attempts[0].usage.Complete? && price.Priced? && price.units <= f.hold.value.held
                           && QuoteAccepted(f.attempts, price.units, price.items);
            match PriceOrUnbilled(pricer, f, status, publish)
            case Ok(d) => (d.billing == BillingSettled <==> charged) && (charged ==> d.actual == price.units)
            case Err(_) => !charged
  {
    assert f.attempts[0] in f.attempts;
  }

  /** The decision charges the task exactly when the stored facts do, and exactly their price. */
  ghost predicate ChargedAs(pricer: Pricer, db: TaskDb, d: Decision) {
    (d.billing == BillingSettled <==> Charges(pricer, db)) && (Charges(pricer, db) ==> d.actual == ChargeOf(pricer, db))
  }

  /** A judged task is charged exactly under those facts, and exactly that price. */
  lemma JudgedCharge(kind: Kind, pricer: Pricer, db: TaskDb)
    requires TaskInOrder(kind, db) && OpenBilling(db.run)
    ensures match JudgeTask(pricer, db)
            case Ok((f, d)) => ChargedAs(pricer, db, d)
            case Err(e) => Charges(pricer, db) ==> e != PricingFailed
  {
    var attempts := NormalizeTask(db.task, db.attempts);
    if TaskFacts(db, attempts).Ok? {
      var f := TaskFacts(db, attempts).value;
      TaskFactsHold(kind, db);
      if f.attempts == [] { NoneDecides(pricer, f); } else { DecidedCharge(kind, pricer, db, f); }
    }
  }

  lemma DecidedCharge(kind: Kind, pricer: Pricer, db: TaskDb, f: Facts)
    requires TaskInOrder(kind, db) && OpenBilling(db.run) && f.attempts != []
    requires TaskFacts(db, NormalizeTask(db.task, db.attempts)) == Ok(f)
    ensures match Decide(pricer, f)
            case Ok(d) => ChargedAs(pricer, db, d)
            case Err(e) => Charges(pricer, db) ==> e != PricingFailed
  {
    OneChargeable(db, f);
    if f.trigger == Success || f.trigger == ContinuationTopUpInsufficient {
      PricedCharge(kind, pricer, db, f);
    } else {
      assert db.attempts[0].state == Succeeded ==> f.trigger == LocalFailure;
    }
  }

  lemma PricedCharge(kind: Kind, pricer: Pricer, db: TaskDb, f: Facts)
    requires TaskInOrder(kind, db) && OpenBilling(db.run) && f.attempts != []
    requires TaskFacts(db, NormalizeTask(db.task, db.attempts)) == Ok(f)
    requires f.trigger == Success || f.trigger == ContinuationTopUpInsufficient
    ensures match Decide(pricer, f)
            case Ok(d) => ChargedAs(pricer, db, d)
            case Err(e) => Charges(pricer, db) ==> e != PricingFailed
  {
    OneChargeable(db, f);
    OneAttempt(f, f.attempts[0]);
    if db.attempts[0].state == Succeeded {
      if f.trigger == ContinuationTopUpInsufficient { SinglePrice(pricer, f, RunFailed, false); }
      else if f.candidate.Some? { SinglePrice(pricer, f, RunSuccess, true); }
    }
  }

  /** The token columns hold the usage a settlement would write. */
  predicate TokensFit(db: TaskDb) {
    db.attempts != [] && db.attempts[0].state == Succeeded && db.attempts[0].usage.Complete? ==>
      PromptTotal(db.attempts[0].usage.items) + CompletionTotal(db.attempts[0].usage.items) <= MAX_INT64
  }

  lemma SingleTokens(db: TaskDb, f: Facts)
    requires |db.attempts| <= 1 && f.attempts == ReadTaskUsage(NormalizeTask(db.task, db.attempts)) && f.stopped == None
    ensures BillablePrompt(f, f.attempts) + BillableCompletion(f, f.attempts) <= MAX_INT64 <==> TokensFit(db)
  {
    if f.attempts != [] { assert f.attempts[1..] == []; }
  }

  lemma OverflowOnlyWithoutRoom(kind: Kind, db: TaskDb, f: Facts, d: Decision)
    requires FinishTask(kind, db, f, d).Ok? || FinishTask(kind, db, f, d) == Err(TokenOverflow)
    ensures FinishTask(kind, db, f, d).Ok? <==> BillablePrompt(f, f.attempts) + BillableCompletion(f, f.attempts) <= MAX_INT64
  {
  }

  /** What a settlement attempt leaves on the charge of an open task: its price if it is charged and its tokens fit, and nothing
      otherwise. */
  lemma ChargedBySettlement(kind: Kind, pricer: Pricer, db: TaskDb, lease: Lease, now: int)
    requires TaskInOrder(kind, db) && OpenBilling(db.run) && Publishable(kind, db)
    requires kind == ImageTask ==> MayWrite(kind, db.task, lease, now)
    ensures match TaskSettle(kind, pricer, db, lease, now)
            case Ok((after, _)) => after.charge.actual == (if TokensFit(db) then ChargeOf(pricer, db) else 0)
            case Err(_) => Charges(pricer, db) ==> !TokensFit(db)
  {
    JudgedCharge(kind, pricer, db);
    JudgedExactlyWhenDecidable(kind, pricer, db);
    if JudgeTask(pricer, db).Ok? {
      var f, d := JudgedFits(kind, pricer, db);
      JudgedApplies(kind, pricer, db, lease, now);
      AppliedTask(kind, db, f, d);
      SettledTokens(kind, pricer, db, f, d);
    }
  }

  lemma SettledTokens(kind: Kind, pricer: Pricer, db: TaskDb, f: Facts, d: Decision)
    requires TaskInOrder(kind, db) && OpenBilling(db.run) && JudgeTask(pricer, db) == Ok((f, d))
    requires MoneyFactsConsistent(f) && Coherent(f, d) && About(db, f)
    requires ApplyTask(kind, db, f, d).Ok? || ApplyTask(kind, db, f, d) == Err(TokenOverflow)
    ensures ApplyTask(kind, db, f, d).Ok? <==> TokensFit(db)
  {
    MoneyMoves(Rows(db), f, d);
    SingleTokens(db, f);
    OverflowOnlyWithoutRoom(kind, db.(book := ApplyMoney(Rows(db), f, d).value), f, d);
  }

  // ---------- what a settled task keeps ----------

  /** Why a task ends, read from the rows before its settlement. */
  function TaskReason(pricer: Pricer, db: TaskDb): BillingReason {
    var paid := ChatEndings.PaidReason(pricer, db.run.legacy, db.charge.held, db.attempts);
    if db.task.code == InsufficientCode then
      if db.attempts != [] && db.attempts[0].state == Succeeded then paid else ReleasedInsufficientBalance
    else if db.attempts == [] then ReleasedBeforeDispatch
    else
      match db.attempts[0].state
      case Succeeded => if db.task.code == NoCode then paid else ReleasedProviderFailed
      case Failed =>
        if db.task.code != NoCode && db.attempts[0].dispatch == NotDispatched then ReleasedBeforeDispatch else ReleasedProviderFailed
      case OutcomeUnknown => ReleasedOutcomeUnknown
      case _ => ReleasedBeforeDispatch
  }

  /** What finishing a task writes to the task and the run, in terms of facts and decision. */
  lemma FinishedFields(kind: Kind, db: TaskDb, f: Facts, d: Decision)
    requires FinishTask(kind, db, f, d).Ok? && (d.runStatus == RunSuccess <==> d.publish)
    ensures var after := FinishTask(kind, db, f, d).value;
            && after.task.finished && after.run.status == d.runStatus && after.run.reason == d.reason
            && after.run.promptTokens == BillablePrompt(f, f.attempts) && after.run.completionTokens == BillableCompletion(f, f.attempts)
            && if d.publish then
                 && after.task.status == TaskSuccess && after.task.code == NoCode
                 && d.candidate.Some? && d.candidate.value.1.FinalAnswer? && d.candidate.value.1.answer != ""
                 && after.task.output == Some(d.candidate.value.1.answer)
                 && (kind == TextTask ==> after.task.output == db.task.output)
               else
                 && after.task.status == TaskFailed && after.task.output.None?
                 && after.task.code == FinalCode(db.task, f)
  {
  }

  lemma TaskTriggerFacts(db: TaskDb, f: Facts)
    requires |db.attempts| <= 1 && TaskFacts(db, NormalizeTask(db.task, db.attempts)) == Ok(f)
    ensures DeriveTaskTrigger(db.task, NormalizeTask(db.task, db.attempts)) == Ok(f.trigger)
    ensures f.attempts == ReadTaskUsage(NormalizeTask(db.task, db.attempts)) && f.stopped == None && f.run == db.run
    ensures FinalCode(db.task, f) == if db.task.code == NoCode then ProviderFailedCode else db.task.code
  {
  }

  lemma TaskTokens(db: TaskDb, f: Facts)
    requires |db.attempts| <= 1 && f.attempts == ReadTaskUsage(NormalizeTask(db.task, db.attempts)) && f.stopped == None
    ensures var rows := if db.attempts != [] && db.attempts[0].state == Succeeded then db.attempts else [];
            && BillablePrompt(f, f.attempts) == ChatEndings.Reported(rows, ChatEndings.PROMPT)
            && BillableCompletion(f, f.attempts) == ChatEndings.Reported(rows, ChatEndings.COMPLETION)
  {
    ChatEndings.BillableTokens(f, f.attempts);
    if db.attempts != [] {
      OneChargeable(db, f);
      if db.attempts[0].state == Succeeded {
        assert db.attempts[..0] == [] && f.attempts[..0] == [];
      }
    }
  }

  /** The trigger of a task, and the reason it stands for. */
  lemma TaskTriggerReason(pricer: Pricer, db: TaskDb, t: Trigger, paid: BillingReason)
    requires |db.attempts| <= 1 && DeriveTaskTrigger(db.task, NormalizeTask(db.task, db.attempts)) == Ok(t)
    requires db.attempts != [] ==>
               db.attempts[0].state != Canceled && (db.attempts[0].state == Prepared ==> db.attempts[0].dispatch == NotDispatched)
    requires paid == ChatEndings.PaidReason(pricer, db.run.legacy, db.charge.held, db.attempts)
    ensures TaskReason(pricer, db)
         == match t
            case Success => paid
            case LocalFailure => ReleasedProviderFailed
            case ProviderFailed => ReleasedProviderFailed
            case OutcomeUnknownTrigger => ReleasedOutcomeUnknown
            case InitialInsufficient => ReleasedInsufficientBalance
            case ContinuationTopUpInsufficient =>
              if db.attempts != [] && db.attempts[0].state == Succeeded then paid else ReleasedInsufficientBalance
            case _ => ReleasedBeforeDispatch
    ensures t != UserStop && t != UserStopBeforeDispatch
    ensures t == InitialInsufficient || t == ContinuationTopUpInsufficient <==> db.task.code == InsufficientCode
    ensures t == Success ==> db.attempts != [] && db.attempts[0].state == Succeeded
  {
  }

  lemma TaskReasons(kind: Kind, pricer: Pricer, db: TaskDb, f: Facts, d: Decision)
    requires TaskInOrder(kind, db) && OpenBilling(db.run) && JudgeTask(pricer, db) == Ok((f, d)) && About(db, f) && MoneyFactsConsistent(f)
    ensures d.reason == TaskReason(pricer, db)
    ensures d.runStatus == (if d.reason == SettledCompleteUsage && db.task.code != InsufficientCode then RunSuccess
                            else if d.reason == ReleasedOutcomeUnknown then RunOutcomeUnknown else RunFailed)
  {
    TaskTriggerFacts(db, f);
    var paid := ChatEndings.PaidReason(pricer, db.run.legacy, db.charge.held, db.attempts);
    TaskTriggerReason(pricer, db, f.trigger, paid);
    assert d.reason == TaskReason(pricer, db) && ReasonedAs(db, f, d) by { TaskDecisionReason(pricer, db, f, d, paid); }
  }

  ghost predicate ReasonedAs(db: TaskDb, f: Facts, d: Decision) {
    d.runStatus == (if d.reason == SettledCompleteUsage && f.trigger != ContinuationTopUpInsufficient && f.trigger != InitialInsufficient
                    then RunSuccess
                    else if d.reason == ReleasedOutcomeUnknown then RunOutcomeUnknown else RunFailed)
  }

  lemma TaskDecisionReason(pricer: Pricer, db: TaskDb, f: Facts, d: Decision, paid: BillingReason)
    requires |db.attempts| <= 1 && Decide(pricer, f) == Ok(d) && f.run == db.run && f.stopped == None
    requires f.attempts == ReadTaskUsage(NormalizeTask(db.task, db.attempts)) && MoneyFactsConsistent(f)
    requires f.charge == db.charge && f.trigger != UserStop && f.trigger != UserStopBeforeDispatch
    requires paid == ChatEndings.PaidReason(pricer, db.run.legacy, db.charge.held, db.attempts)
    requires f.trigger == Success ==> db.attempts != [] && db.attempts[0].state == Succeeded
    ensures ReasonedAs(db, f, d)
    ensures d.reason
         == match f.trigger
            case Success => paid
            case LocalFailure => ReleasedProviderFailed
            case ProviderFailed => ReleasedProviderFailed
            case OutcomeUnknownTrigger => ReleasedOutcomeUnknown
            case InitialInsufficient => ReleasedInsufficientBalance
            case ContinuationTopUpInsufficient =>
              if db.attempts != [] && db.attempts[0].state == Succeeded then paid else ReleasedInsufficientBalance
            case _ => ReleasedBeforeDispatch
  {
    var rows := ChargeableOf(f, f.attempts);
    var reason := ChatEndings.PaidReason(pricer, f.run.legacy, f.charge.held, rows);
    if db.attempts != [] { OneChargeable(db, f); }
    if db.attempts != [] && db.attempts[0].state == Succeeded { SamePaid(pricer, db, f); }
    TriggerHold(f);
    ChatEndings.ReasonByTrigger(pricer, f, d, rows, reason);
  }

  lemma TriggerHold(f: Facts)
    requires MoneyFactsConsistent(f)
    ensures f.trigger == Success || f.trigger == UserStop || f.trigger == ContinuationTopUpInsufficient ==> f.hold.Some?
    ensures f.hold.Some? ==> f.hold.value.held == f.charge.held
  {
  }

  lemma SamePaid(pricer: Pricer, db: TaskDb, f: Facts)
    requires |db.attempts| == 1 && db.attempts[0].state == Succeeded && f.stopped == None
    requires f.attempts == ReadTaskUsage(NormalizeTask(db.task, db.attempts)) && ChargeableOf(f, f.attempts) == f.attempts
    ensures ChatEndings.PaidReason(pricer, db.run.legacy, db.charge.held, f.attempts)
         == ChatEndings.PaidReason(pricer, db.run.legacy, db.charge.held, db.attempts)
  {
    OneChargeable(db, f);
    assert forall a :: a in f.attempts <==> a == f.attempts[0];
    assert forall a :: a in db.attempts <==> a == db.attempts[0];
  }

  /** A settled task keeps the answer of its attempt, without a code, exactly if it is charged with no failure beside it. Otherwise
      it keeps no output and the stored failure code, or that of the provider. Its run says why, and what the attempt reported. */
  lemma SettledTaskKeeps(kind: Kind, pricer: Pricer, db: TaskDb, lease: Lease, now: int)
    requires TaskInOrder(kind, db) && OpenBilling(db.run) && TaskSettle(kind, pricer, db, lease, now).Ok?
    ensures var after := TaskSettle(kind, pricer, db, lease, now).value.0;
            var rows := if db.attempts != [] && db.attempts[0].state == Succeeded then db.attempts else [];
            && (if Charges(pricer, db) && db.task.code == NoCode then
                  && after.task.status == TaskSuccess && after.task.code == NoCode
                  && db.attempts[0].candidate.Some? && db.attempts[0].candidate.value.FinalAnswer?
                  && db.attempts[0].candidate.value.answer != ""
                  && after.task.output == Some(db.attempts[0].candidate.value.answer)
                else
                  && after.task.status == TaskFailed && after.task.output.None?
                  && after.task.code == if db.task.code == NoCode then ProviderFailedCode else db.task.code)
            && after.run.reason == TaskReason(pricer, db)
            && after.run.status == (if after.task.status == TaskSuccess then RunSuccess
                                    else if after.run.reason == ReleasedOutcomeUnknown then RunOutcomeUnknown else RunFailed)
            && after.run.promptTokens == ChatEndings.Reported(rows, ChatEndings.PROMPT)
            && after.run.completionTokens == ChatEndings.Reported(rows, ChatEndings.COMPLETION)
  {
    var f, d := JudgedFits(kind, pricer, db);
    JudgedCharge(kind, pricer, db);
    TaskTriggerFacts(db, f);
    TaskTokens(db, f);
    TaskReasons(kind, pricer, db, f, d);
    FinishedFields(kind, db.(book := ApplyMoney(Rows(db), f, d).value), f, d);
  }

  /** A text settlement is replayed by every later call, except for one that charged a task whose balance ran out: the replay
      check accepts charged tasks only when they succeeded. */
  lemma TextSettledOnce(pricer: Pricer, db: TaskDb, lease: Lease, now: int, lease': Lease, now': int)
    requires TaskInOrder(TextTask, db) && OpenBilling(db.run) && TaskSettle(TextTask, pricer, db, lease, now).Ok?
    ensures var after := TaskSettle(TextTask, pricer, db, lease, now).value.0;
            TaskSettle(TextTask, pricer, after, lease', now')
              == if db.task.code == InsufficientCode && Charges(pricer, db) then Err(SettleRefused(InvalidReplay))
                 else Ok((after, Replayed))
  {
    var f, d := JudgedFits(TextTask, pricer, db);
    JudgedCharge(TextTask, pricer, db);
    AppliedReplay(db, f, d);
  }

  lemma AppliedReplay(db: TaskDb, f: Facts, d: Decision)
    requires TaskInOrder(TextTask, db) && OpenBilling(db.run) && About(db, f) && FitsTask(db, f, d)
    requires MoneyFactsConsistent(f) && Coherent(f, d) && ApplyTask(TextTask, db, f, d).Ok?
    ensures var after := ApplyTask(TextTask, db, f, d).value;
            && after.run.billing == d.billing && TerminalBilling(Rows(after))
            && (TaskReplayAccepted(TextTask, after) <==> !(db.task.code == InsufficientCode && d.billing == BillingSettled))
  {
    MoneyMoves(Rows(db), f, d);
  }

  /** An image settlement gives up the lease, so no later call, under any lease, reaches its rows again. */
  lemma ImageSettlesOnce(pricer: Pricer, db: TaskDb, lease: Lease, now: int, lease': Lease, now': int)
    requires OpenBilling(db.run) && TaskSettle(ImageTask, pricer, db, lease, now).Ok?
    ensures TaskSettle(ImageTask, pricer, TaskSettle(ImageTask, pricer, db, lease, now).value.0, lease', now') == Err(TaskLeaseLost)
  {
  }
}
