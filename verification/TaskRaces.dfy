/** Runs of a task that end in its odd states: a failure stored beside a prepared attempt, and a charge whose replay is refused. */
module TaskRaces {
  import opened Common
  import opened Wallet
  import opened ChatRows
  import opened ChatDecision
  import opened ChatTransactions
  import opened ChatSettlement
  import opened TaskTransactions
  import opened TaskRuns
  import opened TaskSafety
  import ChatRuns

  function FirstEvidence(request: nat, callMax: int): Evidence {
    Evidence(request, Quote(callMax, 0, callMax))
  }

  function FirstRow(db: TaskDb, request: nat, callMax: int): AttemptRow {
    AttemptRow(db.nextId, 1, FirstEvidence(request, callMax), Prepared, NotDispatched, Unavailable, None, None, None)
  }

  /** A first preparation stores its row, or finds the wallet short. */
  lemma FirstPreparation(kind: Kind, pricer: Pricer, db: TaskDb, lease: Lease, now: int, request: nat, callMax: int)
    requires TaskInOrder(kind, db) && OpenBilling(db.run) && db.attempts == [] && db.charge.held == 0
    requires MayWrite(kind, db.task, lease, now) && 0 < callMax <= MAX_INT64
    ensures TaskPrepareNew(kind, pricer, db, lease, now, 1, request, callMax).Ok?
    ensures var (after, p) := TaskPrepareNew(kind, pricer, db, lease, now, 1, request, callMax).value;
            if callMax <= db.book.balance - db.book.held then
              && p == Ready(FirstEvidence(request, callMax)) && after.attempts == [FirstRow(db, request, callMax)]
              && after.task == db.task && after.charge.held == callMax && after.run.legacy == db.run.legacy && OpenBilling(after.run)
            else p == Preparation.Refused && after == db.(task := db.task.(code := InsufficientCode))
  {
    NoPrior(kind, pricer, db);
    ReserveOutcome(db.book, db.run.id, callMax);
    if callMax <= db.book.balance - db.book.held {
      ReserveKeepsValid(db.book, db.run.id, callMax);
      HoldFacts(db.book, db.run.id);
      assert ReserveOrTopUp(Rows(db), callMax).Ok?;
      TaskReservation(kind, db, callMax);
    }
  }

  lemma StepOn(kind: Kind, pricer: Pricer, s: TaskSystem, steps: seq<TaskStep>, step: TaskStep)
    ensures Execute(kind, pricer, s, steps + [step]) == Take(kind, pricer, Execute(kind, pricer, s, steps), step)
    decreases |steps|
  {
    if steps == [] {
      assert [] + [step] == [step] && [step][1..] == [];
    } else {
      assert (steps + [step])[1..] == steps[1..] + [step];
      StepOn(kind, pricer, Take(kind, pricer, s, steps[0]), steps[1..], step);
    }
  }

  lemma FourSteps(kind: Kind, pricer: Pricer, s: TaskSystem, a: TaskStep, b: TaskStep, c: TaskStep, d: TaskStep)
    ensures Execute(kind, pricer, s, [a] + [b] + [c] + [d])
         == Take(kind, pricer, Take(kind, pricer, Take(kind, pricer, Take(kind, pricer, s, a), b), c), d)
  {
    StepOn(kind, pricer, s, [], a);
    assert [] + [a] == [a] && Execute(kind, pricer, s, []) == s;
    StepOn(kind, pricer, s, [a], b);
    StepOn(kind, pricer, s, [a] + [b], c);
    StepOn(kind, pricer, s, [a] + [b] + [c], d);
  }

  /** A fresh task whose worker may write and whose wallet is the only open question. */
  ghost predicate Startable(kind: Kind, s: TaskSystem, lease: Lease, now: int, callMax: int) {
    TaskFresh(s) && MayWrite(kind, s.db.task, lease, now) && s.db.task.code == NoCode && 0 < callMax <= MAX_INT64
  }

  // ---------- a failure beside a prepared attempt ----------

  lemma LookFirst(kind: Kind, pricer: Pricer, s: TaskSystem, w: nat)
    requires s.db.task.status == TaskRunning && s.db.attempts == [] && s.db.task.code == NoCode
    ensures Take(kind, pricer, s, Look(w)) == Move(s, w, Chosen(false))
  {
  }

  lemma PrepareFirst(kind: Kind, pricer: Pricer, s: TaskSystem, w: nat, lease: Lease, now: int, request: nat, callMax: int)
    requires SystemInOrder(kind, s) && WorkerOf(s, w) == Chosen(false)
    requires OpenBilling(s.db.run) && s.db.attempts == [] && s.db.charge.held == 0
    requires MayWrite(kind, s.db.task, lease, now) && 0 < callMax <= MAX_INT64
    ensures var s' := Take(kind, pricer, s, Prepare(w, lease, now, request, callMax));
            && SystemInOrder(kind, s')
            && if callMax <= s.db.book.balance - s.db.book.held then
                 && WorkerOf(s', w) == Holding(FirstEvidence(request, callMax)) && s'.db.attempts == [FirstRow(s.db, request, callMax)]
                 && s'.db.task == s.db.task && s'.db.charge.held == callMax && s'.db.run.legacy == s.db.run.legacy
                 && OpenBilling(s'.db.run)
               else s' == Move(s, w, Idle).(db := s.db.(task := s.db.task.(code := InsufficientCode)))
  {
    var st := Prepare(w, lease, now, request, callMax);
    FirstPreparation(kind, pricer, s.db, lease, now, request, callMax);
    assert Take(kind, pricer, s, st) == TakePrepare(kind, pricer, s, st);
    TaskStepInOrder(kind, pricer, s, st);
  }

  lemma FailThenCrash(kind: Kind, pricer: Pricer, s: TaskSystem, w: nat, lease: Lease, now: int, code: TaskCode)
    requires SystemInOrder(kind, s) && MayWrite(kind, s.db.task, lease, now)
    ensures var s' := Take(kind, pricer, Take(kind, pricer, s, MarkFailure(lease, now, code)), Crash(w));
            TaskInOrder(kind, s'.db) && s'.db == s.db.(task := s.db.task.(code := code))
  {
    FailedInOrder(kind, s.db, lease, now, code);
  }

  lemma FirstPrepared(kind: Kind, pricer: Pricer, s: TaskSystem, lease: Lease, now: int, request: nat, callMax: int)
    returns (s2: TaskSystem)
    requires Startable(kind, s, lease, now, callMax) && callMax <= s.db.book.balance - s.db.book.held
    ensures s2 == Take(kind, pricer, Take(kind, pricer, s, Look(0)), Prepare(0, lease, now, request, callMax))
    ensures SystemInOrder(kind, s2) && OpenBilling(s2.db.run)
    ensures s2.db.attempts == [FirstRow(s.db, request, callMax)] && s2.db.task == s.db.task
  {
    FreshTaskInOrder(kind, s);
    LookFirst(kind, pricer, s, 0);
    TaskStepInOrder(kind, pricer, s, Look(0));
    var s1 := Take(kind, pricer, s, Look(0));
    PrepareFirst(kind, pricer, s1, 0, lease, now, request, callMax);
    s2 := Take(kind, pricer, s1, Prepare(0, lease, now, request, callMax));
  }

  /** A worker prepares, records a failure of its preflight and crashes before settling it. */
  lemma FailureBesidePreparedAttempt(kind: Kind, pricer: Pricer, s: TaskSystem, lease: Lease, now: int, request: nat, callMax: int,
                                     code: TaskCode)
    requires Startable(kind, s, lease, now, callMax) && callMax <= s.db.book.balance - s.db.book.held
    ensures var db := Execute(kind, pricer, s,
                              [Look(0)] + [Prepare(0, lease, now, request, callMax)] + [MarkFailure(lease, now, code)] + [Crash(0)]).db;
            && TaskInOrder(kind, db) && OpenBilling(db.run) && MayWrite(kind, db.task, lease, now)
            && db.attempts == [FirstRow(s.db, request, callMax)] && db.task.code == code
  {
    FourSteps(kind, pricer, s, Look(0), Prepare(0, lease, now, request, callMax), MarkFailure(lease, now, code), Crash(0));
    var s2 := FirstPrepared(kind, pricer, s, lease, now, request, callMax);
    FailThenCrash(kind, pricer, s2, 0, lease, now, code);
  }

  // ---------- a charge whose replay is refused ----------

  /** Two workers take up a text task; the first to reserve finds the wallet short, a recharge arrives, and the other sends the
      attempt. */
  function Race(lease: Lease, now: int, request: nat, callMax: int, rechargeId: nat, amount: int): seq<TaskStep> {
    [Look(0)] + [Look(1)] + [Prepare(1, lease, now, request, callMax)] + [WalletElsewhere(DoCredit(rechargeId, amount))]
    + [Prepare(0, lease, now, request, callMax)]
  }

  predicate RechargeArrives(book: Book, callMax: int, rechargeId: nat, amount: int) {
    && book.balance - book.held < callMax <= book.balance + amount - book.held
    && RechargesOf(book.ledger, rechargeId) == [] && amount > 0 && book.recharged + amount <= MAX_INT64
  }

  lemma CreditArrives(kind: Kind, pricer: Pricer, s: TaskSystem, callMax: int, rechargeId: nat, amount: int)
    requires SystemInOrder(kind, s) && RechargeArrives(s.db.book, callMax, rechargeId, amount)
    ensures var s' := Take(kind, pricer, s, WalletElsewhere(DoCredit(rechargeId, amount)));
            && SystemInOrder(kind, s') && s' == s.(db := s.db.(book := s'.db.book))
            && callMax <= s'.db.book.balance - s'.db.book.held
  {
    CreditKeepsValid(s.db.book, rechargeId, amount);
    TaskStepInOrder(kind, pricer, s, WalletElsewhere(DoCredit(rechargeId, amount)));
  }

  lemma TwoLooks(pricer: Pricer, s: TaskSystem) returns (s2: TaskSystem)
    requires TaskFresh(s) && s.db.task.code == NoCode
    ensures s2 == Execute(TextTask, pricer, s, [Look(0)] + [Look(1)])
    ensures SystemInOrder(TextTask, s2) && s2.db == s.db && WorkerOf(s2, 0) == Chosen(false) && WorkerOf(s2, 1) == Chosen(false)
  {
    FreshTaskInOrder(TextTask, s);
    StepOn(TextTask, pricer, s, [], Look(0));
    assert [] + [Look(0)] == [Look(0)] && Execute(TextTask, pricer, s, []) == s;
    StepOn(TextTask, pricer, s, [Look(0)], Look(1));
    LookFirst(TextTask, pricer, s, 0);
    var s1 := Take(TextTask, pricer, s, Look(0));
    LookFirst(TextTask, pricer, s1, 1);
    TaskStepInOrder(TextTask, pricer, s, Look(0));
    TaskStepInOrder(TextTask, pricer, s1, Look(1));
    s2 := Take(TextTask, pricer, s1, Look(1));
  }

  lemma RaceLeavesShortBalance(pricer: Pricer, s: TaskSystem, lease: Lease, now: int, request: nat, callMax: int, rechargeId: nat,
                               amount: int)
    returns (s5: TaskSystem)
    requires Startable(TextTask, s, lease, now, callMax) && RechargeArrives(s.db.book, callMax, rechargeId, amount)
    ensures s5 == Execute(TextTask, pricer, s, Race(lease, now, request, callMax, rechargeId, amount))
    ensures SystemInOrder(TextTask, s5) && OpenBilling(s5.db.run) && WorkerOf(s5, 0) == Holding(FirstEvidence(request, callMax))
    ensures s5.db.attempts == [FirstRow(s.db, request, callMax)] && s5.db.task == s.db.task.(code := InsufficientCode)
    ensures s5.db.charge.held == callMax && s5.db.run.legacy == s.db.run.legacy
  {
    var first, second, credit := Prepare(0, lease, now, request, callMax), Prepare(1, lease, now, request, callMax),
                                 WalletElsewhere(DoCredit(rechargeId, amount));
    var s2 := TwoLooks(pricer, s);
    StepOn(TextTask, pricer, s, [Look(0)] + [Look(1)], second);
    StepOn(TextTask, pricer, s, [Look(0)] + [Look(1)] + [second], credit);
    StepOn(TextTask, pricer, s, [Look(0)] + [Look(1)] + [second] + [credit], first);
    PrepareFirst(TextTask, pricer, s2, 1, lease, now, request, callMax);
    var s3 := Take(TextTask, pricer, s2, second);
    CreditArrives(TextTask, pricer, s3, callMax, rechargeId, amount);
    var s4 := Take(TextTask, pricer, s3, credit);
    PrepareFirst(TextTask, pricer, s4, 0, lease, now, request, callMax);
    s5 := Take(TextTask, pricer, s4, first);
  }

  /** The provider answers the attempt with a complete success. */
  function Answered(lease: Lease, now: int, o: Outcome): seq<TaskStep> {
    [Dispatch(0, lease, now)] + [CallProvider(0)] + [Record(0, lease, now, o)] + [PersistCandidate]
  }

  predicate Answers(o: Outcome) {
    && FromProvider(TextTask, o) && o.state == Succeeded && o.usage.Complete?
    && o.candidate.Some? && o.candidate.value.FinalAnswer? && o.candidate.value.answer != ""
    && PromptTotal(o.usage.items) + CompletionTotal(o.usage.items) <= MAX_INT64
  }

  lemma DispatchFirst(pricer: Pricer, s: TaskSystem, lease: Lease, now: int, evidence: Evidence)
    requires SystemInOrder(TextTask, s) && OpenBilling(s.db.run) && MayWrite(TextTask, s.db.task, lease, now)
    requires WorkerOf(s, 0) == Holding(evidence) && s.db.attempts != [] && s.db.attempts[0].state == Prepared
    requires s.db.attempts[0].evidence == evidence
    ensures var s' := Take(TextTask, pricer, s, Dispatch(0, lease, now));
            && SystemInOrder(TextTask, s') && WorkerOf(s', 0) == MayCall(evidence)
            && s'.db == s.db.(attempts := [s.db.attempts[0].(state := Dispatched, dispatch := SentOut)], dispatchedAt := Some(now))
  {
    var env := Env(now, lease, true, true, true, 0, 0, Outcome(Failed, NotDispatched, Unavailable, None, None, None));
    PreparedCanBeSent(TextTask, pricer, s.db, env, evidence);
    FindFirst(s.db.attempts, 1);
    TaskStepInOrder(TextTask, pricer, s, Dispatch(0, lease, now));
  }

  lemma RecordFirst(pricer: Pricer, s: TaskSystem, lease: Lease, now: int, evidence: Evidence, o: Outcome)
    requires SystemInOrder(TextTask, s) && OpenBilling(s.db.run) && WorkerOf(s, 0) == Called(evidence) && FromProvider(TextTask, o)
    requires s.db.attempts != [] && s.db.attempts[0].state == Dispatched && s.db.attempts[0].evidence == evidence
    ensures var s' := Take(TextTask, pricer, s, Record(0, lease, now, o));
            SystemInOrder(TextTask, s') && s'.db == s.db.(attempts := [WithOutcome(s.db.attempts[0], o)])
  {
    FindFirst(s.db.attempts, 1);
    TaskStepInOrder(TextTask, pricer, s, Record(0, lease, now, o));
  }

  lemma CallFirst(pricer: Pricer, s: TaskSystem, evidence: Evidence)
    requires SystemInOrder(TextTask, s) && WorkerOf(s, 0) == MayCall(evidence)
    ensures var s' := Take(TextTask, pricer, s, CallProvider(0));
            SystemInOrder(TextTask, s') && s'.db == s.db && WorkerOf(s', 0) == Called(evidence)
  {
    TaskStepInOrder(TextTask, pricer, s, CallProvider(0));
  }

  lemma SentFirst(pricer: Pricer, s: TaskSystem, lease: Lease, now: int, evidence: Evidence, o: Outcome) returns (s3: TaskSystem)
    requires SystemInOrder(TextTask, s) && OpenBilling(s.db.run) && MayWrite(TextTask, s.db.task, lease, now)
    requires WorkerOf(s, 0) == Holding(evidence) && s.db.attempts != [] && s.db.attempts[0].state == Prepared
    requires s.db.attempts[0].evidence == evidence && FromProvider(TextTask, o)
    ensures s3 == Take(TextTask, pricer, Take(TextTask, pricer, Take(TextTask, pricer, s, Dispatch(0, lease, now)), CallProvider(0)),
                       Record(0, lease, now, o))
    ensures SystemInOrder(TextTask, s3)
    ensures s3.db == s.db.(attempts := [WithOutcome(s.db.attempts[0], o)], dispatchedAt := Some(now))
  {
    DispatchFirst(pricer, s, lease, now, evidence);
    var s1 := Take(TextTask, pricer, s, Dispatch(0, lease, now));
    CallFirst(pricer, s1, evidence);
    var s2 := Take(TextTask, pricer, s1, CallProvider(0));
    RecordFirst(pricer, s2, lease, now, evidence, o);
    s3 := Take(TextTask, pricer, s2, Record(0, lease, now, o));
    assert WithOutcome(s1.db.attempts[0], o) == WithOutcome(s.db.attempts[0], o);
  }

  /** Sending a prepared text attempt and storing its answer changes the attempt and the output alone. */
  lemma AnswerStored(pricer: Pricer, s: TaskSystem, lease: Lease, now: int, evidence: Evidence, o: Outcome) returns (s4: TaskSystem)
    requires SystemInOrder(TextTask, s) && OpenBilling(s.db.run) && MayWrite(TextTask, s.db.task, lease, now)
    requires WorkerOf(s, 0) == Holding(evidence) && s.db.attempts != [] && s.db.attempts[0].state == Prepared
    requires s.db.attempts[0].evidence == evidence && Answers(o)
    ensures s4 == Execute(TextTask, pricer, s, Answered(lease, now, o))
    ensures SystemInOrder(TextTask, s4)
    ensures s4.db == s.db.(attempts := [WithOutcome(s.db.attempts[0], o)], dispatchedAt := Some(now),
                           task := s.db.task.(output := Some(o.candidate.value.answer)))
  {
    FourSteps(TextTask, pricer, s, Dispatch(0, lease, now), CallProvider(0), Record(0, lease, now, o), PersistCandidate);
    var s3 := SentFirst(pricer, s, lease, now, evidence, o);
    assert s.db.task.output.None?;
    StoresAnswer(s3.db);
    s4 := PersistLast(pricer, s3);
  }

  lemma PersistLast(pricer: Pricer, s: TaskSystem) returns (s': TaskSystem)
    requires SystemInOrder(TextTask, s) && PersistTextCandidate(s.db).Ok?
    ensures s' == Take(TextTask, pricer, s, PersistCandidate)
    ensures SystemInOrder(TextTask, s') && s'.db == PersistTextCandidate(s.db).value
  {
    TaskStepInOrder(TextTask, pricer, s, PersistCandidate);
    s' := Take(TextTask, pricer, s, PersistCandidate);
  }

  lemma StoresAnswer(db: TaskDb)
    requires |db.attempts| == 1 && db.attempts[0].state == Succeeded && db.task.status == TaskRunning && db.task.output.None?
    requires db.attempts[0].candidate.Some? && db.attempts[0].candidate.value.FinalAnswer? && db.attempts[0].candidate.value.answer != ""
    ensures PersistTextCandidate(db) == Ok(db.(task := db.task.(output := Some(db.attempts[0].candidate.value.answer))))
  {
  }

  /** After this run the settlement charges the task and every later settlement refuses its own result, for any wallet that the
      recharge lifts over the quote and any price within it. */
  lemma RacedChargeIsNotReplayed(pricer: Pricer, s: TaskSystem, lease: Lease, now: int, request: nat, callMax: int,
                                 rechargeId: nat, amount: int, o: Outcome)
    requires Startable(TextTask, s, lease, now, callMax) && RechargeArrives(s.db.book, callMax, rechargeId, amount)
    requires Answers(o) && !s.db.run.legacy
    requires var row := WithOutcome(FirstRow(s.db, request, callMax), o);
             var price := pricer.settle([row]);
             price.Priced? && QuoteAccepted([row], price.units, price.items) && price.units <= callMax
    ensures var db := Execute(TextTask, pricer, Execute(TextTask, pricer, s, Race(lease, now, request, callMax, rechargeId, amount)),
                              Answered(lease, now, o)).db;
            var settled := TaskSettle(TextTask, pricer, db, lease, now);
            && settled.Ok? && settled.value.0.run.billing == BillingSettled
            && TaskSettle(TextTask, pricer, settled.value.0, lease, now) == Err(SettleRefused(InvalidReplay))
  {
    var s5 := RaceLeavesShortBalance(pricer, s, lease, now, request, callMax, rechargeId, amount);
    var s9 := AnswerStored(pricer, s5, lease, now, FirstEvidence(request, callMax), o);
    ShortBalanceCharged(pricer, s9.db, lease, now);
  }

  lemma ShortBalanceCharged(pricer: Pricer, db: TaskDb, lease: Lease, now: int)
    requires TaskInOrder(TextTask, db) && OpenBilling(db.run) && db.task.code == InsufficientCode && Charges(pricer, db) && TokensFit(db)
    ensures var settled := TaskSettle(TextTask, pricer, db, lease, now);
            && settled.Ok? && settled.value.0.run.billing == BillingSettled
            && TaskSettle(TextTask, pricer, settled.value.0, lease, now) == Err(SettleRefused(InvalidReplay))
  {
    ChargedBySettlement(TextTask, pricer, db, lease, now);
    JudgedCharge(TextTask, pricer, db);
    TaskSettled(TextTask, pricer, db, lease, now);
    TextSettledOnce(pricer, db, lease, now, lease, now);
  }
}
