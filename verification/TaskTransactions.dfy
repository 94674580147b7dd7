/** Paid text and image tasks: one provider attempt per run, with the transactions a task worker runs.
    Text tasks have no lease; every write of an image task is guarded by one. */
module TaskTransactions {
  import opened Common
  import opened Wallet
  import opened ChatRows
  import opened ChatDecision
  import opened ChatTransactions
  import opened ChatSettlement

  datatype Kind = TextTask | ImageTask

  datatype TaskStatus = TaskRunning | TaskSuccess | TaskFailed

  datatype TaskCode = NoCode | InsufficientCode | ProviderFailedCode | OtherCode

  /** `output` is the stored answer of a text task, or what an image task has published. */
  datatype TaskRow = TaskRow(status: TaskStatus, code: TaskCode, output: Option<string>, finished: bool,
                             owner: Option<nat>, token: nat, expires: int)

  datatype TaskDb = TaskDb(run: RunRow, charge: ChargeRow, task: TaskRow, attempts: seq<AttemptRow>, dispatchedAt: Option<int>,
                           book: Book, nextId: nat)

  const TEXT_GENERATE_SECONDS: int := 15 * 60

  const NO_COMMAND := CommandRow(Running, 0, None, 0, 0, false, NoMarker, None, 0, false)

  /** The rows of a task as the stores shared with chat see them; a task has no reply command. */
  function Rows(db: TaskDb): ChatDb {
    ChatDb(db.run, db.charge, NO_COMMAND, db.attempts, db.book, None, false, false, db.nextId)
  }

  function WithMoney(db: TaskDb, rows: ChatDb): TaskDb {
    db.(run := rows.run, charge := rows.charge, book := rows.book)
  }

  /** Image writes require the live lease of a running task; text writes only a running task. */
  predicate MayWrite(kind: Kind, task: TaskRow, lease: Lease, now: int) {
    && task.status == TaskRunning
    && (kind == ImageTask ==> task.owner == Some(lease.owner) && task.token == lease.token && task.expires > now)
  }

  // ---------- attempt transactions ----------

  function RecordTaskRefusal(kind: Kind, db: TaskDb, lease: Lease, now: int): Result<(TaskDb, Preparation), GatewayError> {
    if MayWrite(kind, db.task, lease, now) then Ok((db.(task := db.task.(code := InsufficientCode)), Refused))
    else if kind == TextTask then Ok((db, Refused))
    else Err(LeaseLost)
  }

  function TaskPrepareNew(kind: Kind, pricer: Pricer, db: TaskDb, lease: Lease, now: int, no: nat, request: nat, callMax: int)
    : Result<(TaskDb, Preparation), GatewayError>
  {
    if !RunAndChargeLockable(Rows(db)) then Err(NotReservable)
    else
      match PriorUnits(pricer, Rows(db), no)
      case Err(e) => Err(e)
      case Ok(prior) =>
        if no == 0 || callMax <= 0 || prior > MAX_INT64 - callMax then Err(InvalidPrepared)
        else
          var evidence := Evidence(request, Quote(callMax, prior, prior + callMax));
          var target := Max(db.charge.held, prior + callMax);
          match ReserveOrTopUp(Rows(db), target)
          case Err(e) => if e == HoldRefused(Insufficient) then RecordTaskRefusal(kind, db, lease, now) else Err(e)
          case Ok(reserved) =>
            match FindAttempt(db.attempts, no)
            case Some(i) =>
              if db.attempts[i].state == Prepared && db.attempts[i].evidence == evidence then Ok((WithMoney(db, reserved), Ready(evidence)))
              else Err(DuplicateAttempt)
            case None =>
              if !MayWrite(kind, db.task, lease, now) then Err(LeaseLost)
              else
                var row := AttemptRow(db.nextId, no, evidence, Prepared, NotDispatched, Unavailable, None, None, None);
                Ok((WithMoney(db, reserved).(attempts := db.attempts + [row], nextId := db.nextId + 1), Ready(evidence)))
  }

  function TaskPrepareRecovered(kind: Kind, pricer: Pricer, db: TaskDb, lease: Lease, now: int, no: nat)
    : Result<(TaskDb, Preparation), GatewayError>
  {
    if !RunAndChargeLockable(Rows(db)) then Err(NotReservable)
    else
      match PriorUnits(pricer, Rows(db), no)
      case Err(e) => Err(e)
      case Ok(prior) =>
        if db.charge.held <= 0 then Err(PreparedMissing)
        else
          match ReserveOrTopUp(Rows(db), db.charge.held)
          case Err(e) => if e == HoldRefused(Insufficient) then RecordTaskRefusal(kind, db, lease, now) else Err(e)
          case Ok(reserved) =>
            match FindAttempt(db.attempts, no)
            case None => Err(PreparedMissing)
            case Some(i) =>
              if db.attempts[i].state != Prepared then Err(PreparedMissing)
              else if !EvidenceCurrent(Rows(db), db.attempts[i].evidence, prior) then Err(InvalidPrepared)
              else Ok((WithMoney(db, reserved), Ready(db.attempts[i].evidence)))
  }

  function TaskMarkDispatched(kind: Kind, pricer: Pricer, db: TaskDb, lease: Lease, now: int, no: nat, evidence: Evidence)
    : Result<TaskDb, GatewayError>
  {
    if !RunAndChargeLockable(Rows(db)) then Err(NotReservable)
    else
      match PriorUnits(pricer, Rows(db), no)
      case Err(e) => Err(e)
      case Ok(prior) =>
        if !ActiveHoldEnsured(Rows(db), db.charge.held) then Err(HoldMismatch)
        else
          match FindAttempt(db.attempts, no)
          case None => Err(PreparedMissing)
          case Some(i) =>
            var row := db.attempts[i];
            if row.state != Prepared then Err(PreparedMissing)
            else if row.evidence != evidence then Err(DuplicateAttempt)
            else if !EvidenceCurrent(Rows(db), evidence, prior) then Err(InvalidPrepared)
            else if !MayWrite(kind, db.task, lease, now) then Err(LeaseLost)
            else Ok(db.(attempts := db.attempts[i := row.(state := Dispatched, dispatch := SentOut)], dispatchedAt := Some(now)))
  }

  function TaskRecordOutcome(kind: Kind, db: TaskDb, lease: Lease, now: int, no: nat, evidence: Evidence, o: Outcome)
    : Result<TaskDb, GatewayError>
  {
    match RecordOutcome(Rows(db), no, evidence, o)
    case Err(e) => Err(e)
    case Ok(rows) =>
      if kind == ImageTask && rows.attempts != db.attempts && !MayWrite(kind, db.task, lease, now) then Err(LeaseLost)
      else Ok(db.(attempts := rows.attempts))
  }

  /** Closes an attempt whose outcome was never recorded. */
  function AbandonAttempt(a: AttemptRow): AttemptRow {
    a.(state := OutcomeUnknown, dispatch := SendUnknown, usage := Unavailable)
  }

  function TaskMarkUnknown(kind: Kind, db: TaskDb, lease: Lease, now: int): Result<TaskDb, GatewayError> {
    if db.attempts == [] || Last(db.attempts).state != Dispatched then (if kind == TextTask then Ok(db) else Err(LeaseLost))
    else if kind == ImageTask && !MayWrite(kind, db.task, lease, now) then Err(LeaseLost)
    else
      var a := AbandonAttempt(Last(db.attempts));
      Ok(db.(attempts := db.attempts[|db.attempts| - 1 := if kind == ImageTask then a.(candidate := None) else a]))
  }

  function TaskMarkFailure(kind: Kind, db: TaskDb, lease: Lease, now: int, code: TaskCode): Result<TaskDb, GatewayError> {
    if MayWrite(kind, db.task, lease, now) then Ok(db.(task := db.task.(code := code)))
    else if kind == TextTask then Ok(db)
    else Err(LeaseLost)
  }

  /** Stores the answer of a succeeded text attempt, or the failure code when it has none. */
  function PersistTextCandidate(db: TaskDb): Result<TaskDb, GatewayError> {
    if db.attempts == [] || Last(db.attempts).state != Succeeded then Ok(db)
    else
      var candidate := Last(db.attempts).candidate;
      if candidate.None? || !candidate.value.FinalAnswer? || candidate.value.answer == "" then
        Ok(if db.task.status == TaskRunning then db.(task := db.task.(code := ProviderFailedCode)) else db)
      else if db.task.output.Some? then
        if db.task.output.value == candidate.value.answer then Ok(db) else Err(DuplicateAttempt)
      else if db.task.status != TaskRunning then Err(DuplicateAttempt)
      else Ok(db.(task := db.task.(output := Some(candidate.value.answer))))
  }

  // ---------- settlement ----------

  function DeriveTaskTrigger(task: TaskRow, attempts: seq<AttemptRow>): Result<Trigger, SettleError> {
    if task.code == InsufficientCode then Ok(if attempts == [] then InitialInsufficient else ContinuationTopUpInsufficient)
    else if attempts == [] then
      if task.code != NoCode then Ok(PreDispatchFailed) else Err(StillPending)
    else
      var latest := Last(attempts);
      match latest.state
      case Succeeded => Ok(if task.code != NoCode then LocalFailure else Success)
      case Failed => Ok(if task.code != NoCode && latest.dispatch == NotDispatched then PreDispatchFailed else ProviderFailed)
      case Canceled => Ok(if task.code != NoCode && latest.dispatch == NotDispatched then PreDispatchFailed else ProviderFailed)
      case OutcomeUnknown => Ok(OutcomeUnknownTrigger)
      case Prepared => Err(StillPending)
      case Dispatched => Err(StillPending)
  }

  function NormalizeTask(task: TaskRow, attempts: seq<AttemptRow>): (r: seq<AttemptRow>)
    ensures |r| == |attempts|
  {
    if attempts == [] || task.code == NoCode || Last(attempts).state != Prepared || Last(attempts).dispatch != NotDispatched then attempts
    else attempts[|attempts| - 1 := Last(attempts).(state := Canceled, usage := Unavailable,
                                                    candidate := None, requestId := None, response := None)]
  }

  function ReadTaskUsage(attempts: seq<AttemptRow>): (r: seq<AttemptRow>)
    ensures |r| == |attempts|
    ensures forall i :: 0 <= i < |attempts| ==>
              r[i] == if attempts[i].usage.Unreadable? then attempts[i].(usage := Unavailable) else attempts[i]
  {
    seq(|attempts|, i requires 0 <= i < |attempts| =>
      if attempts[i].usage.Unreadable? then attempts[i].(usage := Unavailable) else attempts[i])
  }

  function TaskFacts(db: TaskDb, attempts: seq<AttemptRow>): Result<Facts, SettleError> {
    if db.run.status != RunRunning then Err(InconsistentFacts)
    else
      match DeriveTaskTrigger(db.task, attempts)
      case Err(e) => Err(e)
      case Ok(trigger) =>
        var current := if attempts == [] then None else Some(Last(attempts).id);
        var candidate := if attempts == [] || Last(attempts).candidate.None? then None
                         else Some((Last(attempts).id, Last(attempts).candidate.value));
        Ok(Facts(db.run, db.charge, FindHold(db.book.holds, db.run.id), ReadTaskUsage(attempts), trigger, None, current, candidate))
  }

  function JudgeTask(pricer: Pricer, db: TaskDb): Result<(Facts, Decision), SettleError> {
    match TaskFacts(db, NormalizeTask(db.task, db.attempts))
    case Err(e) => Err(e)
    case Ok(f) =>
      if !MoneyFactsConsistent(f) || !AttemptFactsConsistent(f) then Err(InconsistentFacts)
      else
        match Decide(pricer, f)
        case Err(e) => Err(e)
        case Ok(d) => Ok((f, d))
  }

  function FinalCode(task: TaskRow, f: Facts): TaskCode {
    if f.trigger == InitialInsufficient || f.trigger == ContinuationTopUpInsufficient then InsufficientCode
    else if task.code != NoCode then task.code
    else ProviderFailedCode
  }

  function FinishTask(kind: Kind, db: TaskDb, f: Facts, d: Decision): Result<TaskDb, SettleError> {
    var prompt, completion := BillablePrompt(f, f.attempts), BillableCompletion(f, f.attempts);
    var publish := d.runStatus == RunSuccess && d.publish;
    var answered := d.candidate.Some? && d.candidate.value.1.FinalAnswer? && d.candidate.value.1.answer != "";
    if publish && !answered then Err(CandidateMismatch)
    else if publish && kind == TextTask && db.task.output != Some(d.candidate.value.1.answer) then Err(CandidateMismatch)
    else if db.task.status != TaskRunning then Err(TerminalConflict)
    else if prompt + completion > MAX_INT64 then Err(TokenOverflow)
    else if db.run.status != RunRunning || !OpenBilling(db.run)
            || db.charge.status != ChargeOpen || db.charge.finalized
    then Err(TerminalConflict)
    else
      var task := db.task.(status := if publish then TaskSuccess else TaskFailed, finished := true,
                           code := if publish then NoCode else FinalCode(db.task, f),
                           output := if publish then Some(d.candidate.value.1.answer) else None,
                           owner := if kind == ImageTask then None else db.task.owner);
      var run := db.run.(status := d.runStatus, billing := d.billing, reason := d.reason, assistant := None,
                         promptTokens := prompt, completionTokens := completion);
      var charge := db.charge.(actual := if d.charge == ChargeSettled then d.actual else 0, status := d.charge, finalized := true,
                               items := if d.charge == ChargeSettled then db.charge.items + d.items else db.charge.items);
      Ok(db.(task := task, run := run, charge := charge, attempts := ClearCandidates(NormalizeTask(db.task, db.attempts))))
  }

  function ApplyTask(kind: Kind, db: TaskDb, f: Facts, d: Decision): Result<TaskDb, SettleError> {
    match ApplyMoney(Rows(db), f, d)
    case Err(e) => Err(e)
    case Ok(book) => FinishTask(kind, db.(book := book), f, d)
  }

  predicate TaskReplayAccepted(kind: Kind, db: TaskDb) {
    var hold := FindHold(db.book.holds, db.run.id);
    var released := hold.Some? ==> hold.value.status == HoldReleased && hold.value.held == 0 && hold.value.captured == 0;
    && db.charge.finalized && db.charge.runId == db.run.id && db.charge.userId == db.run.userId && db.task.finished
    && (forall a :: a in db.attempts ==> a.candidate.None?)
    && match db.run.billing
       case BillingSettled =>
         && db.charge.status == ChargeSettled && db.task.status == TaskSuccess && db.task.output.Some?
         && hold.Some? && hold.value.status == HoldCaptured && hold.value.held == 0 && hold.value.captured == db.charge.actual
       case BillingReleased =>
         && db.task.status == TaskFailed && db.task.output.None? && db.charge.actual == 0 && released
         && (kind == ImageTask ==> db.charge.status == ChargeReleased)
       case BillingUnbilled =>
         && db.task.status == TaskFailed && db.task.output.None? && db.charge.actual == 0 && released
         && (kind == ImageTask ==> db.charge.status == ChargeUnbilled && hold.Some?)
       case _ => false
  }

  datatype TaskSettleError = SettleRefused(error: SettleError) | TaskLeaseLost

  function TaskSettle(kind: Kind, pricer: Pricer, db: TaskDb, lease: Lease, now: int): Result<(TaskDb, Settlement), TaskSettleError> {
    if kind == ImageTask && !(db.task.owner == Some(lease.owner) && db.task.token == lease.token && db.task.expires > now) then
      Err(TaskLeaseLost)
    else if TerminalBilling(Rows(db)) then
      if TaskReplayAccepted(kind, db) then Ok((db, Replayed)) else Err(SettleRefused(InvalidReplay))
    else if db.run.status != RunRunning || db.charge.status != ChargeOpen || db.charge.finalized || db.task.status != TaskRunning then
      Err(SettleRefused(NotOpen))
    else if kind == ImageTask && db.task.output.Some? then Err(SettleRefused(TerminalConflict))
    else
      match JudgeTask(pricer, db)
      case Err(e) => Err(SettleRefused(e))
      case Ok((f, d)) =>
        match ApplyTask(kind, db, f, d)
        case Err(e) => Err(SettleRefused(e))
        case Ok(db') => Ok((db', Applied))
  }
}
