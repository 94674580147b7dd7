/** A task calls its provider at most once in any run, and one undisturbed re-run ends it from every state a crash leaves. */
module TaskSafety {
  import opened Common
  import opened Wallet
  import opened ChatRows
  import opened ChatDecision
  import opened ChatTransactions
  import opened ChatSettlement
  import opened TaskTransactions
  import opened TaskRuns
  import ChatRuns

  datatype TaskWorker = Idle | Chosen(recover: bool) | Holding(evidence: Evidence) | MayCall(evidence: Evidence)
    | Called(evidence: Evidence)

  datatype TaskSystem = TaskSystem(db: TaskDb, workers: map<nat, TaskWorker>, calls: seq<Evidence>)

  datatype TaskStep =
    | Look(w: nat)
    | Prepare(w: nat, lease: Lease, now: int, request: nat, callMax: int)
    | Dispatch(w: nat, lease: Lease, now: int)
    | CallProvider(w: nat)
    | Record(w: nat, lease: Lease, now: int, outcome: Outcome)
    | MarkUnknown(lease: Lease, now: int)
    | MarkFailure(lease: Lease, now: int, code: TaskCode)
    | PersistCandidate
    | SettleTask(lease: Lease, now: int)
    | LeaseChanges(owner: Option<nat>, token: nat, expires: int)
    | WalletElsewhere(op: Op)
    | Crash(w: nat)

  /** A dispatched text attempt may be given up only when its deadline has passed, or was never stored. */
  predicate Stale(db: TaskDb, now: int) {
    db.dispatchedAt.None? || now >= db.dispatchedAt.value + TEXT_GENERATE_SECONDS
  }

  function WorkerOf(s: TaskSystem, w: nat): TaskWorker {
    if w in s.workers then s.workers[w] else Idle
  }

  function Move(s: TaskSystem, w: nat, worker: TaskWorker): TaskSystem {
    s.(workers := s.workers[w := worker])
  }

  function TakePrepare(kind: Kind, pricer: Pricer, s: TaskSystem, st: TaskStep): TaskSystem
    requires st.Prepare?
  {
    var worker := WorkerOf(s, st.w);
    if !worker.Chosen? then s
    else
      var prepared := if worker.recover then TaskPrepareRecovered(kind, pricer, s.db, st.lease, st.now, 1)
                      else TaskPrepareNew(kind, pricer, s.db, st.lease, st.now, 1, st.request, st.callMax);
      match prepared
      case Err(_) => Move(s, st.w, Idle)
      case Ok((db, Refused)) => Move(s, st.w, Idle).(db := db)
      case Ok((db, Ready(evidence))) => Move(s, st.w, Holding(evidence)).(db := db)
  }

  function OrSame(db: TaskDb, r: Result<TaskDb, GatewayError>): TaskDb {
    match r case Ok(after) => after case Err(_) => db
  }

  function Take(kind: Kind, pricer: Pricer, s: TaskSystem, st: TaskStep): TaskSystem {
    match st
    case Look(w) =>
      if s.db.task.status != TaskRunning then Move(s, w, Idle)
      else if s.db.attempts == [] then Move(s, w, if s.db.task.code == NoCode then Chosen(false) else Idle)
      else Move(s, w, if Last(s.db.attempts).state == Prepared then Chosen(true) else Idle)
    case Prepare(_, _, _, _, _) => TakePrepare(kind, pricer, s, st)
    case Dispatch(w, lease, now) =>
      var worker := WorkerOf(s, w);
      if !worker.Holding? then s
      else (match TaskMarkDispatched(kind, pricer, s.db, lease, now, 1, worker.evidence)
            case Err(_) => Move(s, w, Idle)
            case Ok(db) => Move(s, w, MayCall(worker.evidence)).(db := db))
    case CallProvider(w) =>
      var worker := WorkerOf(s, w);
      if worker.MayCall? then Move(s, w, Called(worker.evidence)).(calls := s.calls + [worker.evidence]) else s
    case Record(w, lease, now, outcome) =>
      var worker := WorkerOf(s, w);
      if !worker.Called? || !FromProvider(kind, outcome) then s
      else Move(s, w, Idle).(db := OrSame(s.db, TaskRecordOutcome(kind, s.db, lease, now, 1, worker.evidence, outcome)))
    case MarkUnknown(lease, now) =>
      if kind == TextTask && !Stale(s.db, now) then s else s.(db := OrSame(s.db, TaskMarkUnknown(kind, s.db, lease, now)))
    case MarkFailure(lease, now, code) => s.(db := OrSame(s.db, TaskMarkFailure(kind, s.db, lease, now, code)))
    case PersistCandidate => if kind == TextTask then s.(db := OrSame(s.db, PersistTextCandidate(s.db))) else s
    case SettleTask(lease, now) =>
      (match TaskSettle(kind, pricer, s.db, lease, now) case Ok((db, _)) => s.(db := db) case Err(_) => s)
    case LeaseChanges(owner, token, expires) =>
      if s.db.task.status == TaskRunning then s.(db := s.db.(task := s.db.task.(owner := owner, token := token, expires := expires))) else s
    case WalletElsewhere(op) =>
      if !op.DoCredit? && op.runId == s.db.run.id then s else s.(db := s.db.(book := Apply(s.db.book, op)))
    case Crash(w) => Move(s, w, Idle)
  }

  function Execute(kind: Kind, pricer: Pricer, s: TaskSystem, steps: seq<TaskStep>): TaskSystem
    decreases |steps|
  {
    if steps == [] then s else Execute(kind, pricer, Take(kind, pricer, s, steps[0]), steps[1..])
  }

  // ---------- at most one call ----------

  ghost predicate Sent(db: TaskDb) {
    db.attempts != [] && db.attempts[0].state != Prepared
  }

  ghost predicate SentWith(db: TaskDb, evidence: Evidence) {
    Sent(db) && db.attempts[0].evidence == evidence
  }

  /** The right to call exists once: unused before the attempt is sent, held by one worker, or spent. */
  ghost predicate OneCall(s: TaskSystem) {
    && |s.calls| <= 1
    && (s.calls != [] ==> SentWith(s.db, s.calls[0]))
    && (forall w: nat :: WorkerOf(s, w).MayCall? ==> SentWith(s.db, WorkerOf(s, w).evidence) && s.calls == [])
    && (forall v: nat, w: nat :: v != w ==> !WorkerOf(s, v).MayCall? || !WorkerOf(s, w).MayCall?)
  }

  ghost predicate SystemInOrder(kind: Kind, s: TaskSystem) {
    TaskInOrder(kind, s.db) && OneCall(s)
  }

  lemma RowsMove(kind: Kind, s: TaskSystem, s': TaskSystem)
    requires SystemInOrder(kind, s) && TaskInOrder(kind, s'.db) && Follows(s.db, s'.db) && s'.calls == s.calls
    requires forall w: nat :: WorkerOf(s', w).MayCall? ==> WorkerOf(s', w) == WorkerOf(s, w)
    ensures SystemInOrder(kind, s')
  {
  }

  lemma GainsCall(kind: Kind, s: TaskSystem, s': TaskSystem, w: nat)
    requires SystemInOrder(kind, s) && TaskInOrder(kind, s'.db) && s'.calls == s.calls && !Sent(s.db)
    requires s'.workers == s.workers[w := WorkerOf(s', w)] && WorkerOf(s', w).MayCall? && SentWith(s'.db, WorkerOf(s', w).evidence)
    ensures SystemInOrder(kind, s')
  {
    assert forall v: nat :: v != w ==> WorkerOf(s', v) == WorkerOf(s, v);
  }

  lemma SpendsCall(kind: Kind, s: TaskSystem, s': TaskSystem, w: nat)
    requires SystemInOrder(kind, s) && WorkerOf(s, w).MayCall? && s'.db == s.db && s'.calls == s.calls + [WorkerOf(s, w).evidence]
    requires s'.workers == s.workers[w := WorkerOf(s', w)] && !WorkerOf(s', w).MayCall?
    ensures SystemInOrder(kind, s')
  {
    forall v: nat ensures !WorkerOf(s', v).MayCall? {
      if v != w { assert WorkerOf(s', v) == WorkerOf(s, v); }
    }
  }

  /** A preparation moves only the worker that makes it, and not to MayCall. */
  lemma PrepareShape(kind: Kind, pricer: Pricer, s: TaskSystem, st: TaskStep)
    requires st.Prepare? && WorkerOf(s, st.w).Chosen?
    ensures var s' := TakePrepare(kind, pricer, s, st);
            var prepared := if WorkerOf(s, st.w).recover then TaskPrepareRecovered(kind, pricer, s.db, st.lease, st.now, 1)
                            else TaskPrepareNew(kind, pricer, s.db, st.lease, st.now, 1, st.request, st.callMax);
            && s'.db == (if prepared.Ok? then prepared.value.0 else s.db) && s'.calls == s.calls
            && s'.workers == s.workers[st.w := WorkerOf(s', st.w)] && !WorkerOf(s', st.w).MayCall?
  {
  }

  lemma PreparedRows(kind: Kind, pricer: Pricer, db: TaskDb, st: TaskStep, recover: bool)
    requires TaskInOrder(kind, db) && st.Prepare?
    ensures var prepared := if recover then TaskPrepareRecovered(kind, pricer, db, st.lease, st.now, 1)
                            else TaskPrepareNew(kind, pricer, db, st.lease, st.now, 1, st.request, st.callMax);
            prepared.Ok? ==> TaskInOrder(kind, prepared.value.0) && Follows(db, prepared.value.0)
  {
    if recover {
      if TaskPrepareRecovered(kind, pricer, db, st.lease, st.now, 1).Ok? { PreparedAgainInOrder(kind, pricer, db, st.lease, st.now); }
    } else {
      if TaskPrepareNew(kind, pricer, db, st.lease, st.now, 1, st.request, st.callMax).Ok? {
        PreparedNewInOrder(kind, pricer, db, st.lease, st.now, st.request, st.callMax);
      }
    }
  }

  lemma PrepareRows(kind: Kind, pricer: Pricer, s: TaskSystem, st: TaskStep)
    requires SystemInOrder(kind, s) && st.Prepare?
    ensures var s' := TakePrepare(kind, pricer, s, st);
            && TaskInOrder(kind, s'.db) && Follows(s.db, s'.db) && s'.calls == s.calls
            && (s'.workers == s.workers || (s'.workers == s.workers[st.w := WorkerOf(s', st.w)] && !WorkerOf(s', st.w).MayCall?))
  {
    if WorkerOf(s, st.w).Chosen? {
      PrepareShape(kind, pricer, s, st);
      PreparedRows(kind, pricer, s.db, st, WorkerOf(s, st.w).recover);
    }
  }

  lemma OtherUseOfWallet(kind: Kind, db: TaskDb, op: Op)
    requires TaskInOrder(kind, db) && (op.DoCredit? || op.runId != db.run.id)
    ensures TaskInOrder(kind, db.(book := Apply(db.book, op))) && Follows(db, db.(book := Apply(db.book, op)))
  {
    ApplyKeepsValid(db.book, op);
    ChatRuns.HoldElsewhere(db.book, op, db.run.id);
    BookSwap(kind, db, Apply(db.book, op));
  }

  lemma BookSwap(kind: Kind, db: TaskDb, book: Book)
    requires TaskInOrder(kind, db) && Valid(book) && FindHold(book.holds, db.run.id) == FindHold(db.book.holds, db.run.id)
    ensures TaskInOrder(kind, db.(book := book)) && Follows(db, db.(book := book))
  {
  }

  lemma DispatchStepInOrder(kind: Kind, pricer: Pricer, s: TaskSystem, st: TaskStep)
    requires SystemInOrder(kind, s) && st.Dispatch?
    ensures SystemInOrder(kind, Take(kind, pricer, s, st)) && Follows(s.db, Take(kind, pricer, s, st).db)
  {
    var s' := Take(kind, pricer, s, st);
    var worker := WorkerOf(s, st.w);
    if worker.Holding? {
      if TaskMarkDispatched(kind, pricer, s.db, st.lease, st.now, 1, worker.evidence).Ok? {
        DispatchedTaskInOrder(kind, pricer, s.db, st.lease, st.now, 1, worker.evidence);
        GainsCall(kind, s, s', st.w);
      } else {
        RowsMove(kind, s, s');
      }
    }
  }

  lemma RecordStepInOrder(kind: Kind, pricer: Pricer, s: TaskSystem, st: TaskStep)
    requires SystemInOrder(kind, s) && st.Record?
    ensures SystemInOrder(kind, Take(kind, pricer, s, st)) && Follows(s.db, Take(kind, pricer, s, st).db)
  {
    var s' := Take(kind, pricer, s, st);
    var worker := WorkerOf(s, st.w);
    if worker.Called? && FromProvider(kind, st.outcome) {
      if TaskRecordOutcome(kind, s.db, st.lease, st.now, 1, worker.evidence, st.outcome).Ok? {
        RecordedTaskInOrder(kind, s.db, st.lease, st.now, 1, worker.evidence, st.outcome);
      }
      RowsMove(kind, s, s');
    }
  }

  /** Steps that touch only the rows: abandoning, failing, saving the answer, settling, and what others do. */
  lemma RowStepInOrder(kind: Kind, pricer: Pricer, s: TaskSystem, st: TaskStep)
    requires SystemInOrder(kind, s)
    requires st.MarkUnknown? || st.MarkFailure? || st.PersistCandidate? || st.SettleTask? || st.LeaseChanges? || st.WalletElsewhere?
    ensures var s' := Take(kind, pricer, s, st); TaskInOrder(kind, s'.db) && Follows(s.db, s'.db) && s' == s.(db := s'.db)
  {
    match st {
      case MarkUnknown(_, _) => MarkStepInOrder(kind, pricer, s, st);
      case MarkFailure(_, _, _) => MarkStepInOrder(kind, pricer, s, st);
      case PersistCandidate => if kind == TextTask && PersistTextCandidate(s.db).Ok? { PersistedInOrder(s.db); }
      case SettleTask(lease, now) => SettleStepInOrder(kind, pricer, s, lease, now);
      case WalletElsewhere(op) => if op.DoCredit? || op.runId != s.db.run.id { OtherUseOfWallet(kind, s.db, op); }
      case LeaseChanges(_, _, _) =>
    }
  }

  lemma SettleStepInOrder(kind: Kind, pricer: Pricer, s: TaskSystem, lease: Lease, now: int)
    requires SystemInOrder(kind, s)
    ensures var s' := Take(kind, pricer, s, SettleTask(lease, now));
            TaskInOrder(kind, s'.db) && Follows(s.db, s'.db) && s' == s.(db := s'.db)
  {
    if TaskSettle(kind, pricer, s.db, lease, now).Ok? { TaskSettled(kind, pricer, s.db, lease, now); }
  }

  lemma MarkStepInOrder(kind: Kind, pricer: Pricer, s: TaskSystem, st: TaskStep)
    requires SystemInOrder(kind, s) && (st.MarkUnknown? || st.MarkFailure?)
    ensures var s' := Take(kind, pricer, s, st); TaskInOrder(kind, s'.db) && Follows(s.db, s'.db) && s' == s.(db := s'.db)
  {
    if st.MarkUnknown? {
      if TaskMarkUnknown(kind, s.db, st.lease, st.now).Ok? { MarkedUnknownInOrder(kind, s.db, st.lease, st.now); }
    } else {
      if TaskMarkFailure(kind, s.db, st.lease, st.now, st.code).Ok? { FailedInOrder(kind, s.db, st.lease, st.now, st.code); }
    }
  }

  lemma RowsOnly(kind: Kind, s: TaskSystem, s': TaskSystem)
    requires SystemInOrder(kind, s) && TaskInOrder(kind, s'.db) && Follows(s.db, s'.db) && s' == s.(db := s'.db)
    ensures SystemInOrder(kind, s')
  {
    RowsMove(kind, s, s');
  }

  /** Steps that move a worker without touching the rows. */
  lemma WorkerStepInOrder(kind: Kind, pricer: Pricer, s: TaskSystem, st: TaskStep)
    requires SystemInOrder(kind, s) && (st.Look? || st.Crash? || st.CallProvider?)
    ensures SystemInOrder(kind, Take(kind, pricer, s, st)) && Follows(s.db, Take(kind, pricer, s, st).db)
  {
    var s' := Take(kind, pricer, s, st);
    if st.CallProvider? {
      if WorkerOf(s, st.w).MayCall? { SpendsCall(kind, s, s', st.w); }
    } else {
      RowsMove(kind, s, s');
    }
  }

  lemma PrepareStepInOrder(kind: Kind, pricer: Pricer, s: TaskSystem, st: TaskStep)
    requires SystemInOrder(kind, s) && st.Prepare?
    ensures SystemInOrder(kind, Take(kind, pricer, s, st)) && Follows(s.db, Take(kind, pricer, s, st).db)
  {
    PrepareRows(kind, pricer, s, st);
    var s' := TakePrepare(kind, pricer, s, st);
    assert s' == Take(kind, pricer, s, st);
    RowsMove(kind, s, s');
  }

  lemma TaskStepInOrder(kind: Kind, pricer: Pricer, s: TaskSystem, st: TaskStep)
    requires SystemInOrder(kind, s)
    ensures SystemInOrder(kind, Take(kind, pricer, s, st)) && Follows(s.db, Take(kind, pricer, s, st).db)
  {
    match st {
      case Prepare(_, _, _, _, _) => PrepareStepInOrder(kind, pricer, s, st);
      case Dispatch(_, _, _) => DispatchStepInOrder(kind, pricer, s, st);
      case Record(_, _, _, _) => RecordStepInOrder(kind, pricer, s, st);
      case Look(_) => WorkerStepInOrder(kind, pricer, s, st);
      case Crash(_) => WorkerStepInOrder(kind, pricer, s, st);
      case CallProvider(_) => WorkerStepInOrder(kind, pricer, s, st);
      case _ => RowStepInOrder(kind, pricer, s, st); RowsOnly(kind, s, Take(kind, pricer, s, st));
    }
  }

  lemma {:induction false} TaskRunInOrder(kind: Kind, pricer: Pricer, s: TaskSystem, steps: seq<TaskStep>)
    requires SystemInOrder(kind, s)
    ensures SystemInOrder(kind, Execute(kind, pricer, s, steps))
    decreases |steps|
  {
    if steps != [] {
      TaskStepInOrder(kind, pricer, s, steps[0]);
      TaskRunInOrder(kind, pricer, Take(kind, pricer, s, steps[0]), steps[1..]);
    }
  }

  ghost predicate TaskFresh(s: TaskSystem) {
    && s.workers == map[] && s.calls == [] && s.db.attempts == [] && s.db.task.status == TaskRunning
    && !s.db.task.finished && s.db.task.output.None?
    && Valid(s.db.book) && FindHold(s.db.book.holds, s.db.run.id).None?
    && s.db.run.status == RunRunning && s.db.run.billing == BillingPending && s.db.run.reason == PendingReason
    && s.db.charge == ChargeRow(s.db.run.id, s.db.run.userId, 0, 0, ChargeOpen, false, [])
  }

  lemma FreshTaskInOrder(kind: Kind, s: TaskSystem)
    requires TaskFresh(s)
    ensures SystemInOrder(kind, s)
  {
    assert forall w: nat :: WorkerOf(s, w) == Idle;
    assert OneCall(s);
    assert OpenInOrder(kind, s.db);
  }

  /** In its whole life a text or image task sends one provider attempt at most, whatever workers, crashes and leases do,
      and a call carries the request stored with the attempt, which has left the prepared state for good. */
  lemma TaskCallsProviderAtMostOnce(kind: Kind, pricer: Pricer, start: TaskSystem, steps: seq<TaskStep>)
    requires TaskFresh(start)
    ensures var s := Execute(kind, pricer, start, steps);
            && |s.calls| <= 1 && |s.db.attempts| <= 1
            && (s.calls != [] ==> s.db.attempts != [] && s.db.attempts[0].state != Prepared && s.calls[0] == s.db.attempts[0].evidence)
            && TaskInOrder(kind, s.db)
  {
    FreshTaskInOrder(kind, start);
    TaskRunInOrder(kind, pricer, start, steps);
  }

  // ---------- one re-run ends the task ----------

  /** What one execution of the task meets outside its rows. */
  datatype Env = Env(now: int, lease: Lease, ready: bool, assembled: bool, preflight: bool, request: nat, callMax: int, outcome: Outcome)

  function Conclude(kind: Kind, pricer: Pricer, db: TaskDb, env: Env): TaskDb {
    match TaskSettle(kind, pricer, db, env.lease, env.now) case Ok((after, _)) => after case Err(_) => db
  }

  function FailAndConclude(kind: Kind, pricer: Pricer, db: TaskDb, env: Env, code: TaskCode): TaskDb {
    match TaskMarkFailure(kind, db, env.lease, env.now, code)
    case Err(_) => db
    case Ok(failed) => Conclude(kind, pricer, failed, env)
  }

  predicate HasTerminalAttempt(db: TaskDb, no: nat) {
    exists a :: a in db.attempts && a.no == no && Terminal(a.state)
  }

  function AfterError(kind: Kind, pricer: Pricer, db: TaskDb, env: Env, no: nat, e: GatewayError): TaskDb {
    if kind == ImageTask && e == LeaseLost then db
    else if HasTerminalAttempt(db, no) then Conclude(kind, pricer, db, env)
    else FailAndConclude(kind, pricer, db, env, OtherCode)
  }

  /** The provider has been called; its outcome is stored and the task concluded. */
  function AfterCall(kind: Kind, pricer: Pricer, db: TaskDb, env: Env, no: nat, evidence: Evidence): TaskDb {
    match TaskRecordOutcome(kind, db, env.lease, env.now, no, evidence, env.outcome)
    case Err(e) => AfterError(kind, pricer, db, env, no, e)
    case Ok(recorded) =>
      if env.outcome.state != Succeeded then Conclude(kind, pricer, recorded, env)
      else if kind == TextTask then
        (match PersistTextCandidate(recorded) case Err(_) => recorded case Ok(saved) => Conclude(kind, pricer, saved, env))
      else if env.outcome.candidate.None? then FailAndConclude(kind, pricer, recorded, env, ProviderFailedCode)
      else Conclude(kind, pricer, recorded, env)
  }

  /** An attempt another worker already sent is left to that worker. */
  function SendPrepared(kind: Kind, pricer: Pricer, ready: TaskDb, env: Env, no: nat, evidence: Evidence): (TaskDb, bool) {
    if !env.preflight then (AfterError(kind, pricer, ready, env, no, InvalidPrepared), false)
    else
      match TaskMarkDispatched(kind, pricer, ready, env.lease, env.now, no, evidence)
      case Err(e) => (if e == PreparedMissing || e == DuplicateAttempt then ready else AfterError(kind, pricer, ready, env, no, e), false)
      case Ok(sent) => (AfterCall(kind, pricer, sent, env, no, evidence), true)
  }

  function DispatchTask(kind: Kind, pricer: Pricer, db: TaskDb, env: Env, no: nat, recover: bool): (TaskDb, bool) {
    if !env.ready then (FailAndConclude(kind, pricer, db, env, OtherCode), false)
    else if !recover && !env.assembled then (AfterError(kind, pricer, db, env, no, InvalidPrepared), false)
    else
      var prepared := if recover then TaskPrepareRecovered(kind, pricer, db, env.lease, env.now, no)
                      else TaskPrepareNew(kind, pricer, db, env.lease, env.now, no, env.request, env.callMax);
      match prepared
      case Err(e) => (AfterError(kind, pricer, db, env, no, e), false)
      case Ok((refused, Refused)) => (Conclude(kind, pricer, refused, env), false)
      case Ok((ready, Ready(evidence))) => SendPrepared(kind, pricer, ready, env, no, evidence)
  }

  /** One execution of a task by a worker nobody disturbs; the second component says whether it called the provider. */
  function Rerun(kind: Kind, pricer: Pricer, db: TaskDb, env: Env): (TaskDb, bool) {
    if db.task.status != TaskRunning then (db, false)
    else if db.attempts == [] then
      if db.task.code != NoCode then (Conclude(kind, pricer, db, env), false) else DispatchTask(kind, pricer, db, env, 1, false)
    else
      match Last(db.attempts).state
      case Succeeded =>
        if kind == ImageTask then (Conclude(kind, pricer, db, env), false)
        else (match PersistTextCandidate(db)
              case Err(_) => (db, false)
              case Ok(saved) => (Conclude(kind, pricer, saved, env), false))
      case Dispatched =>
        if kind == TextTask && !Stale(db, env.now) then (db, false)
        else (match TaskMarkUnknown(kind, db, env.lease, env.now)
              case Err(_) => (db, false)
              case Ok(closed) => (Conclude(kind, pricer, closed, env), false))
      case Prepared => DispatchTask(kind, pricer, db, env, Last(db.attempts).no, true)
      case _ => (Conclude(kind, pricer, db, env), false)
  }

  /** Settled, or refused for a reason no re-run can change: the pricer failed, or the token columns are too small. */
  ghost predicate Ended(kind: Kind, pricer: Pricer, db: TaskDb, env: Env) {
    || !OpenBilling(db.run)
    || TaskSettle(kind, pricer, db, env.lease, env.now) == Err(SettleRefused(PricingFailed))
    || TaskSettle(kind, pricer, db, env.lease, env.now) == Err(SettleRefused(TokenOverflow))
  }

  lemma ConcludeEnds(kind: Kind, pricer: Pricer, db: TaskDb, env: Env)
    requires TaskInOrder(kind, db) && OpenBilling(db.run) && Decidable(db) && Publishable(kind, db)
    requires kind == ImageTask ==> MayWrite(kind, db.task, env.lease, env.now)
    ensures Ended(kind, pricer, Conclude(kind, pricer, db, env), env)
  {
    JudgedExactlyWhenDecidable(kind, pricer, db);
    if JudgeTask(pricer, db).Ok? {
      JudgedApplies(kind, pricer, db, env.lease, env.now);
      if TaskSettle(kind, pricer, db, env.lease, env.now).Ok? { TaskSettled(kind, pricer, db, env.lease, env.now); }
    }
  }

  lemma FailEnds(kind: Kind, pricer: Pricer, db: TaskDb, env: Env, code: TaskCode)
    requires TaskInOrder(kind, db) && OpenBilling(db.run) && MayWrite(kind, db.task, env.lease, env.now) && code != NoCode
    requires db.attempts == [] || db.attempts[0].state == Prepared || Terminal(db.attempts[0].state)
    ensures Ended(kind, pricer, FailAndConclude(kind, pricer, db, env, code), env)
  {
    FailedInOrder(kind, db, env.lease, env.now, code);
    ConcludeEnds(kind, pricer, TaskMarkFailure(kind, db, env.lease, env.now, code).value, env);
  }

  lemma PersistEnds(pricer: Pricer, db: TaskDb, env: Env)
    requires TaskInOrder(TextTask, db) && OpenBilling(db.run) && db.attempts != [] && db.attempts[0].state == Succeeded
    ensures PersistTextCandidate(db).Ok?
    ensures Ended(TextTask, pricer, Conclude(TextTask, pricer, PersistTextCandidate(db).value, env), env)
  {
    PersistedInOrder(db);
    ConcludeEnds(TextTask, pricer, PersistTextCandidate(db).value, env);
  }

  /** What was just prepared and is still owned can be sent. */
  lemma PreparedCanBeSent(kind: Kind, pricer: Pricer, db: TaskDb, env: Env, evidence: Evidence)
    requires TaskInOrder(kind, db) && OpenBilling(db.run) && MayWrite(kind, db.task, env.lease, env.now)
    requires db.attempts != [] && db.attempts[0].state == Prepared && db.attempts[0].evidence == evidence
    ensures TaskMarkDispatched(kind, pricer, db, env.lease, env.now, 1, evidence).Ok?
  {
    NoPrior(kind, pricer, db);
    FindFirst(db.attempts, 1);
    HoldFacts(db.book, db.run.id);
  }

  lemma CallEnds(kind: Kind, pricer: Pricer, db: TaskDb, env: Env, evidence: Evidence)
    requires TaskInOrder(kind, db) && OpenBilling(db.run)
    requires MayWrite(kind, db.task, env.lease, env.now) && FromProvider(kind, env.outcome)
    requires db.attempts != [] && db.attempts[0].state == Dispatched && db.attempts[0].evidence == evidence
    ensures Ended(kind, pricer, AfterCall(kind, pricer, db, env, 1, evidence), env)
  {
    FindFirst(db.attempts, 1);
    var recorded := TaskRecordOutcome(kind, db, env.lease, env.now, 1, evidence, env.outcome);
    assert recorded.Ok?;
    RecordedTaskInOrder(kind, db, env.lease, env.now, 1, evidence, env.outcome);
    if env.outcome.state == Succeeded && kind == TextTask {
      PersistEnds(pricer, recorded.value, env);
    } else {
      ConcludeEnds(kind, pricer, recorded.value, env);
    }
  }

  lemma DispatchEnds(kind: Kind, pricer: Pricer, db: TaskDb, env: Env, recover: bool)
    requires TaskInOrder(kind, db) && OpenBilling(db.run)
    requires MayWrite(kind, db.task, env.lease, env.now) && FromProvider(kind, env.outcome)
    requires if recover then db.attempts != [] && db.attempts[0].state == Prepared else db.attempts == []
    ensures Ended(kind, pricer, DispatchTask(kind, pricer, db, env, 1, recover).0, env)
  {
    FailEnds(kind, pricer, db, env, OtherCode);
    ErrorEnds(kind, pricer, db, env, InvalidPrepared);
    var prepared := if recover then TaskPrepareRecovered(kind, pricer, db, env.lease, env.now, 1)
                    else TaskPrepareNew(kind, pricer, db, env.lease, env.now, 1, env.request, env.callMax);
    PrepareKeepsLease(kind, pricer, db, env, recover);
    if prepared.Err? {
      ErrorEnds(kind, pricer, db, env, prepared.error);
    } else if prepared.value.1.Refused? {
      ConcludeEnds(kind, pricer, prepared.value.0, env);
    } else {
      SendEnds(kind, pricer, prepared.value.0, env, prepared.value.1.evidence);
    }
  }

  /** The rest of a dispatch once the attempt is prepared. */
  lemma SendEnds(kind: Kind, pricer: Pricer, ready: TaskDb, env: Env, evidence: Evidence)
    requires TaskInOrder(kind, ready) && OpenBilling(ready.run)
    requires MayWrite(kind, ready.task, env.lease, env.now) && FromProvider(kind, env.outcome)
    requires ready.attempts != [] && ready.attempts[0].state == Prepared && ready.attempts[0].evidence == evidence
    ensures Ended(kind, pricer, SendPrepared(kind, pricer, ready, env, 1, evidence).0, env)
  {
    if env.preflight {
      PreparedCanBeSent(kind, pricer, ready, env, evidence);
      DispatchedTaskInOrder(kind, pricer, ready, env.lease, env.now, 1, evidence);
      CallEnds(kind, pricer, TaskMarkDispatched(kind, pricer, ready, env.lease, env.now, 1, evidence).value, env, evidence);
    } else {
      ErrorEnds(kind, pricer, ready, env, InvalidPrepared);
    }
  }

  /** A failure before the provider was reached is recorded and settled in the same execution. */
  lemma ErrorEnds(kind: Kind, pricer: Pricer, db: TaskDb, env: Env, e: GatewayError)
    requires TaskInOrder(kind, db) && OpenBilling(db.run) && MayWrite(kind, db.task, env.lease, env.now)
    requires db.attempts == [] || db.attempts[0].state == Prepared
    requires e != LeaseLost
    ensures Ended(kind, pricer, AfterError(kind, pricer, db, env, 1, e), env)
  {
    NoTerminalYet(db);
    AfterEarlyError(kind, pricer, db, env, e);
    FailEnds(kind, pricer, db, env, OtherCode);
  }

  lemma NoTerminalYet(db: TaskDb)
    requires |db.attempts| <= 1 && (db.attempts == [] || db.attempts[0].state == Prepared)
    ensures !HasTerminalAttempt(db, 1)
  {
  }

  lemma AfterEarlyError(kind: Kind, pricer: Pricer, db: TaskDb, env: Env, e: GatewayError)
    requires e != LeaseLost && !HasTerminalAttempt(db, 1)
    ensures AfterError(kind, pricer, db, env, 1, e) == FailAndConclude(kind, pricer, db, env, OtherCode)
  {
  }

  lemma PrepareKeepsLease(kind: Kind, pricer: Pricer, db: TaskDb, env: Env, recover: bool)
    requires TaskInOrder(kind, db) && OpenBilling(db.run) && MayWrite(kind, db.task, env.lease, env.now)
    requires if recover then db.attempts != [] && db.attempts[0].state == Prepared else db.attempts == []
    ensures var prepared := if recover then TaskPrepareRecovered(kind, pricer, db, env.lease, env.now, 1)
                            else TaskPrepareNew(kind, pricer, db, env.lease, env.now, 1, env.request, env.callMax);
            match prepared
            case Err(e) => e != LeaseLost
            case Ok((after, p)) =>
              && TaskInOrder(kind, after) && OpenBilling(after.run) && MayWrite(kind, after.task, env.lease, env.now)
              && (p.Refused? ==> Decidable(after) && after.attempts == db.attempts && after.task.code != NoCode)
              && (p.Ready? ==> after.attempts != [] && after.attempts[0].state == Prepared && after.attempts[0].evidence == p.evidence)
  {
    NoPrior(kind, pricer, db);
    if recover {
      if TaskPrepareRecovered(kind, pricer, db, env.lease, env.now, 1).Ok? { PreparedAgainInOrder(kind, pricer, db, env.lease, env.now); }
    } else if TaskPrepareNew(kind, pricer, db, env.lease, env.now, 1, env.request, env.callMax).Ok? {
      PreparedNewInOrder(kind, pricer, db, env.lease, env.now, env.request, env.callMax);
    }
  }

  /** From every state workers and crashes can leave, one re-run that nobody disturbs (past the deadline of a dispatched
      text attempt; holding the lease of an image task) settles the task, or only its price stands in the way. */
  lemma OneRerunEndsTheTask(kind: Kind, pricer: Pricer, db: TaskDb, env: Env)
    requires TaskInOrder(kind, db) && OpenBilling(db.run) && FromProvider(kind, env.outcome)
    requires kind == ImageTask ==> MayWrite(kind, db.task, env.lease, env.now)
    requires kind == TextTask && db.attempts != [] && db.attempts[0].state == Dispatched ==> Stale(db, env.now)
    ensures Ended(kind, pricer, Rerun(kind, pricer, db, env).0, env)
    ensures Rerun(kind, pricer, db, env).1 ==> db.attempts == [] || db.attempts[0].state == Prepared
  {
    if db.attempts == [] {
      if db.task.code == NoCode { DispatchEnds(kind, pricer, db, env, false); } else { ConcludeEnds(kind, pricer, db, env); }
    } else {
      match db.attempts[0].state {
        case Succeeded => if kind == TextTask { PersistEnds(pricer, db, env); } else { ConcludeEnds(kind, pricer, db, env); }
        case Dispatched =>
          MarkedUnknownInOrder(kind, db, env.lease, env.now);
          ConcludeEnds(kind, pricer, TaskMarkUnknown(kind, db, env.lease, env.now).value, env);
        case Prepared => DispatchEnds(kind, pricer, db, env, true);
        case _ => ConcludeEnds(kind, pricer, db, env);
      }
    }
  }

  /** Before its deadline a dispatched text attempt is left alone. */
  lemma EarlyRerunWaits(pricer: Pricer, db: TaskDb, env: Env)
    requires TaskInOrder(TextTask, db) && db.attempts != [] && db.attempts[0].state == Dispatched
    ensures Rerun(TextTask, pricer, db, env) == (db, false)
       <==> db.dispatchedAt.Some? && env.now < db.dispatchedAt.value + 15 * 60
  {
    if Stale(db, env.now) {
      OneRerunKeepsMoving(pricer, db, env);
    }
  }

  /** So a text attempt that was sent is left to its worker for a quarter of an hour, and taken over after that. */
  lemma SentAttemptIsLeftAlone(pricer: Pricer, db: TaskDb, lease: Lease, now: int, no: nat, evidence: Evidence, env: Env)
    requires TaskInOrder(TextTask, db) && TaskMarkDispatched(TextTask, pricer, db, lease, now, no, evidence).Ok?
    ensures var sent := TaskMarkDispatched(TextTask, pricer, db, lease, now, no, evidence).value;
            Rerun(TextTask, pricer, sent, env) == (sent, false) <==> env.now < now + 15 * 60
  {
    DispatchedTaskInOrder(TextTask, pricer, db, lease, now, no, evidence);
    EarlyRerunWaits(pricer, TaskMarkDispatched(TextTask, pricer, db, lease, now, no, evidence).value, env);
  }

  lemma OneRerunKeepsMoving(pricer: Pricer, db: TaskDb, env: Env)
    requires TaskInOrder(TextTask, db) && db.attempts != [] && db.attempts[0].state == Dispatched && Stale(db, env.now)
    ensures Rerun(TextTask, pricer, db, env).0 != db
  {
    MarkedUnknownInOrder(TextTask, db, env.lease, env.now);
    var closed := TaskMarkUnknown(TextTask, db, env.lease, env.now).value;
    if TaskSettle(TextTask, pricer, closed, env.lease, env.now).Ok? { TaskSettled(TextTask, pricer, closed, env.lease, env.now); }
  }

  // ---------- a recorded failure does not stop a prepared attempt ----------

  lemma ConcludeCharge(kind: Kind, pricer: Pricer, db: TaskDb, env: Env)
    requires TaskInOrder(kind, db) && OpenBilling(db.run) && Publishable(kind, db)
    requires kind == ImageTask ==> MayWrite(kind, db.task, env.lease, env.now)
    ensures Conclude(kind, pricer, db, env).charge.actual == if TokensFit(db) then ChargeOf(pricer, db) else 0
  {
    ChargedBySettlement(kind, pricer, db, env.lease, env.now);
  }

  /** What a task with this attempt sent is charged once the provider answers `o`. */
  function ChargeAfter(pricer: Pricer, db: TaskDb, o: Outcome): int
    requires db.attempts != []
  {
    var answered := db.(attempts := [WithOutcome(db.attempts[0], o)]);
    if o.candidate.Some? && o.candidate.value.FinalAnswer? && o.candidate.value.answer != "" && TokensFit(answered)
    then ChargeOf(pricer, answered) else 0
  }

  lemma CallCharge(kind: Kind, pricer: Pricer, db: TaskDb, env: Env, evidence: Evidence)
    requires TaskInOrder(kind, db) && OpenBilling(db.run) && MayWrite(kind, db.task, env.lease, env.now)
    requires FromProvider(kind, env.outcome)
    requires db.attempts != [] && db.attempts[0].state == Dispatched && db.attempts[0].evidence == evidence
    ensures AfterCall(kind, pricer, db, env, 1, evidence).charge.actual == ChargeAfter(pricer, db, env.outcome)
  {
    FindFirst(db.attempts, 1);
    var recorded := TaskRecordOutcome(kind, db, env.lease, env.now, 1, evidence, env.outcome);
    assert recorded.Ok?;
    RecordedTaskInOrder(kind, db, env.lease, env.now, 1, evidence, env.outcome);
    assert recorded.value.attempts == [WithOutcome(db.attempts[0], env.outcome)];
    if env.outcome.state == Succeeded && kind == TextTask {
      PersistedInOrder(recorded.value);
      ConcludeCharge(kind, pricer, PersistTextCandidate(recorded.value).value, env);
    } else {
      ConcludeCharge(kind, pricer, recorded.value, env);
    }
  }

  lemma PreparedIsReadyAgain(kind: Kind, pricer: Pricer, db: TaskDb, env: Env)
    requires TaskInOrder(kind, db) && OpenBilling(db.run) && db.attempts != [] && db.attempts[0].state == Prepared
    ensures match TaskPrepareRecovered(kind, pricer, db, env.lease, env.now, 1)
            case Err(_) => false
            case Ok((ready, p)) =>
              && p == Ready(db.attempts[0].evidence) && ready.task == db.task && ready.attempts == db.attempts
              && ready.charge == db.charge && ready.run.legacy == db.run.legacy
  {
    NoPrior(kind, pricer, db);
    FindFirst(db.attempts, 1);
    HoldFacts(db.book, db.run.id);
    ReserveOutcome(db.book, db.run.id, db.charge.held);
    ReserveKeepsValid(db.book, db.run.id, db.charge.held);
  }

  /** A failure recorded while an attempt is prepared never stops the next execution from sending it: whatever the stored code,
      the provider is called exactly when it is ready and its preflight passes. What the answer then costs depends on the code:
      an answered success is charged as if nothing had been recorded when the code says that the balance was short, and nothing
      is charged beside any other code. */
  lemma PreparedAttemptIsSentDespiteFailure(kind: Kind, pricer: Pricer, db: TaskDb, env: Env)
    requires TaskInOrder(kind, db) && OpenBilling(db.run) && MayWrite(kind, db.task, env.lease, env.now)
    requires db.attempts != [] && db.attempts[0].state == Prepared && FromProvider(kind, env.outcome)
    ensures Rerun(kind, pricer, db, env).1 <==> env.ready && env.preflight
    ensures Rerun(kind, pricer, db, env).1 ==>
              Rerun(kind, pricer, db, env).0.charge.actual == ChargeAfter(pricer, db, env.outcome)
    ensures db.task.code != NoCode && db.task.code != InsufficientCode ==> ChargeAfter(pricer, db, env.outcome) == 0
    ensures ChargeAfter(pricer, db.(task := db.task.(code := InsufficientCode)), env.outcome)
         == ChargeAfter(pricer, db.(task := db.task.(code := NoCode)), env.outcome)
  {
    assert Rerun(kind, pricer, db, env) == DispatchTask(kind, pricer, db, env, 1, true);
    if env.ready && env.preflight { var ready, sent := ReadyToSend(kind, pricer, db, env); }
    ShortBalanceCosts(pricer, db, env.outcome);
  }

  lemma ReadyToSend(kind: Kind, pricer: Pricer, db: TaskDb, env: Env) returns (ready: TaskDb, sent: TaskDb)
    requires TaskInOrder(kind, db) && OpenBilling(db.run) && MayWrite(kind, db.task, env.lease, env.now)
    requires db.attempts != [] && db.attempts[0].state == Prepared && FromProvider(kind, env.outcome)
    ensures TaskPrepareRecovered(kind, pricer, db, env.lease, env.now, 1) == Ok((ready, Ready(db.attempts[0].evidence)))
    ensures TaskMarkDispatched(kind, pricer, ready, env.lease, env.now, 1, db.attempts[0].evidence) == Ok(sent)
    ensures AfterCall(kind, pricer, sent, env, 1, db.attempts[0].evidence).charge.actual == ChargeAfter(pricer, db, env.outcome)
  {
    PreparedIsReadyAgain(kind, pricer, db, env);
    PreparedAgainInOrder(kind, pricer, db, env.lease, env.now);
    var evidence := db.attempts[0].evidence;
    ready := TaskPrepareRecovered(kind, pricer, db, env.lease, env.now, 1).value.0;
    PreparedCanBeSent(kind, pricer, ready, env, evidence);
    DispatchedTaskInOrder(kind, pricer, ready, env.lease, env.now, 1, evidence);
    sent := TaskMarkDispatched(kind, pricer, ready, env.lease, env.now, 1, evidence).value;
    SentCostsTheSame(kind, pricer, db, ready, sent, env, evidence);
    CallCharge(kind, pricer, sent, env, evidence);
  }

  lemma SentCostsTheSame(kind: Kind, pricer: Pricer, db: TaskDb, ready: TaskDb, sent: TaskDb, env: Env, evidence: Evidence)
    requires |db.attempts| == 1 && db.attempts[0].no == 1 && ready.attempts == db.attempts
    requires ready.task == db.task && ready.charge == db.charge && ready.run.legacy == db.run.legacy
    requires TaskMarkDispatched(kind, pricer, ready, env.lease, env.now, 1, evidence) == Ok(sent)
    ensures ChargeAfter(pricer, sent, env.outcome) == ChargeAfter(pricer, db, env.outcome)
  {
    FindFirst(ready.attempts, 1);
    assert WithOutcome(sent.attempts[0], env.outcome) == WithOutcome(db.attempts[0], env.outcome);
  }

  lemma ShortBalanceCosts(pricer: Pricer, db: TaskDb, o: Outcome)
    requires db.attempts != []
    ensures ChargeAfter(pricer, db.(task := db.task.(code := InsufficientCode)), o)
         == ChargeAfter(pricer, db.(task := db.task.(code := NoCode)), o)
  {
  }
}
