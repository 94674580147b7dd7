/** The database transactions of a paid chat run before settlement. Each is one atomic step:
    it returns the committed rows, or an error after which nothing has changed. */
module ChatTransactions {
  import opened Common
  import opened Wallet
  import opened ChatRows
  import opened ChatDecision

  datatype GatewayError =
    | NotReservable | UsageUnpriced | InvalidPrepared | PreparedMissing | DuplicateAttempt
    | HoldRefused(wallet: WalletError) | HoldMismatch | LeaseLost | NotNext | InvalidOutcome

  // ---------- recovery: what the next provider attempt is ----------

  datatype Next =
    | StartAttempt(no: nat) | RecoverPrepared(no: nat) | Finalize | ReturnToolResult
    | OutcomeUnresolved | NumbersExhausted | TotalsOverflow

  /** A terminal attempt that must be settled rather than followed by another provider request. */
  predicate ReplaysFinalization(a: AttemptRow) {
    a.state != Succeeded || a.candidate.None? || !a.usage.Complete? || a.candidate.value.FinalAnswer? || a.candidate != Some(ToolCalls)
  }

  predicate PromptCategory(c: Category) {
    c == Input || c == CacheRead || c == CacheWrite
  }

  function PromptTotal(items: seq<UsageItem>): nat {
    if items == [] then 0 else (if PromptCategory(items[0].category) then items[0].quantity else 0) + PromptTotal(items[1..])
  }

  function CompletionTotal(items: seq<UsageItem>): nat {
    if items == [] then 0 else (if items[0].category == Output then items[0].quantity else 0) + CompletionTotal(items[1..])
  }

  function NextAttempt(attempts: seq<AttemptRow>, toolInput: bool): Next {
    if attempts == [] then StartAttempt(1)
    else
      var latest := Last(attempts);
      if latest.no == 0 || latest.no >= MAX_UINT32 then NumbersExhausted
      else
        match latest.state
        case Prepared => RecoverPrepared(latest.no)
        case Succeeded =>
          if ReplaysFinalization(latest) then Finalize
          else if toolInput then StartAttempt(latest.no + 1)
          else if PromptTotal(latest.usage.items) + CompletionTotal(latest.usage.items) > MAX_INT64 then TotalsOverflow
          else ReturnToolResult
        case Failed => StartAttempt(latest.no + 1)
        case Dispatched => OutcomeUnresolved
        case OutcomeUnknown => Finalize
        case Canceled => Finalize
  }

  predicate LimitExceeded(no: nat, maxAttempts: nat) {
    maxAttempts > 0 && no > maxAttempts
  }

  /** A stored marker that sends the next execution straight to the settlement. */
  predicate FinalizationMarked(marker: Marker) {
    || marker == ProviderMarker || marker == LocalMarker || marker == PreDispatchMarker
    || marker == InitialInsufficientMarker || marker == TopUpInsufficientMarker
  }

  /** What an execution of the run does: ask for its settlement, under this marker, send an attempt, or neither. */
  datatype Choice = AskFinalization(marker: Marker) | SendAttempt(no: nat, recover: bool) | HandBackResult | GiveUp

  /** `toolInput` says that the request continues a tool call, `guardRefuses` that its context no longer allows that. */
  function Choose(command: CommandRow, attempts: seq<AttemptRow>, toolInput: bool, guardRefuses: bool): Choice {
    if FinalizationMarked(command.marker) then AskFinalization(command.marker)
    else if toolInput && guardRefuses then AskFinalization(ContextMarker)
    else
      match NextAttempt(attempts, toolInput)
      case StartAttempt(no) => if LimitExceeded(no, command.maxAttempts) then AskFinalization(LocalMarker) else SendAttempt(no, false)
      case RecoverPrepared(no) => if LimitExceeded(no, command.maxAttempts) then AskFinalization(LocalMarker) else SendAttempt(no, true)
      case Finalize => AskFinalization(command.marker)
      case ReturnToolResult => HandBackResult
      case _ => GiveUp
  }

  /** The command as the settlement reads it: under the marker of the execution that asked, unless the latest attempt ended in
      something that is no answer. */
  function Marked(command: CommandRow, attempts: seq<AttemptRow>, marker: Marker): CommandRow {
    if attempts != [] && Last(attempts).state == Succeeded && RequiresLocalFailure(Last(attempts)) then command.(marker := LocalMarker)
    else command.(marker := marker)
  }

  // ---------- locks and guards ----------

  predicate RunAndChargeLockable(db: ChatDb) {
    && db.run.status == RunRunning && OpenBilling(db.run)
    && db.charge.userId == db.run.userId && db.charge.status == ChargeOpen && db.charge.held >= 0 && db.charge.actual == 0
  }

  predicate HoldsLease(command: CommandRow, lease: Lease) {
    command.state == Running && command.owner == Some(lease.owner) && command.token == lease.token
  }

  /** The owner guard of a dispatch: running, still leased, lease not expired, no cancel requested. */
  predicate Runnable(command: CommandRow, lease: Lease, now: int) {
    HoldsLease(command, lease) && !command.cancelRequested && command.expires > now
  }

  function FindAttempt(attempts: seq<AttemptRow>, no: nat): (r: Option<nat>)
    ensures r.Some? ==> r.value < |attempts| && attempts[r.value].no == no
    ensures r.None? ==> forall i :: 0 <= i < |attempts| ==> attempts[i].no != no
  {
    if attempts == [] then None
    else if Last(attempts).no == no then Some(|attempts| - 1)
    else FindAttempt(attempts[..|attempts| - 1], no)
  }

  function MaxNo(attempts: seq<AttemptRow>): nat {
    if attempts == [] then 0
    else
      var rest := MaxNo(attempts[..|attempts| - 1]);
      if Last(attempts).no > rest then Last(attempts).no else rest
  }

  // ---------- money ----------

  function PriorSucceeded(attempts: seq<AttemptRow>, no: nat): seq<AttemptRow> {
    if attempts == [] then []
    else (if attempts[0].no < no && attempts[0].state == Succeeded then [attempts[0]] else []) + PriorSucceeded(attempts[1..], no)
  }

  function PriorUnits(pricer: Pricer, db: ChatDb, no: nat): Result<int, GatewayError> {
    var rows := PriorSucceeded(db.attempts, no);
    if rows == [] then Ok(0)
    else if exists a :: a in rows && !a.usage.Complete? then Err(UsageUnpriced)
    else
      match pricer.prior(rows)
      case None => Err(UsageUnpriced)
      case Some(units) => if 0 <= units <= db.charge.held then Ok(units) else Err(InvalidPrepared)
  }

  function ReserveOrTopUp(db: ChatDb, target: int): Result<ChatDb, GatewayError> {
    match Reserve(db.book, db.run.id, target)
    case Err(e) => Err(HoldRefused(e))
    case Ok((book, hold)) =>
      if hold.status != HoldActive || hold.held != target then Err(HoldMismatch)
      else if !OpenBilling(db.run) then Err(NotReservable)
      else if db.charge.status != ChargeOpen then Err(NotReservable)
      else
        var held := if db.charge.held < target then target else db.charge.held;
        if held != target then Err(HoldMismatch)
        else Ok(db.(book := book, run := db.run.(billing := BillingHeld, reason := HeldReason), charge := db.charge.(held := held)))
  }

  predicate ActiveHoldEnsured(db: ChatDb, target: int) {
    var hold := FindHold(db.book.holds, db.run.id);
    && target > 0
    && hold.Some? && hold.value.status == HoldActive && hold.value.held == target && hold.value.captured == 0
    && db.book.held >= hold.value.held && db.book.balance >= db.book.held
    && db.charge.status == ChargeOpen && db.charge.held == target
  }

  // ---------- reserve and prepare ----------

  datatype Preparation = Ready(evidence: Evidence) | Refused

  /** A refused reservation commits nothing but the failure marker, and only for the lease holder. */
  function RecordRefusal(db: ChatDb, lease: Lease, marker: Marker): Result<(ChatDb, Preparation), GatewayError> {
    if HoldsLease(db.command, lease) then Ok((db.(command := db.command.(marker := marker)), Refused)) else Err(LeaseLost)
  }

  function PutPrepared(db: ChatDb, lease: Lease, now: int, no: nat, evidence: Evidence): Result<(ChatDb, Preparation), GatewayError> {
    if !Runnable(db.command, lease, now) then Err(LeaseLost)
    else
      match FindAttempt(db.attempts, no)
      case Some(i) => if db.attempts[i].evidence == evidence then Ok((db, Ready(evidence))) else Err(DuplicateAttempt)
      case None =>
        if no != MaxNo(db.attempts) + 1 then Err(NotNext)
        else
          var row := AttemptRow(db.nextId, no, evidence, Prepared, NotDispatched, Unavailable, None, None, None);
          Ok((db.(attempts := db.attempts + [row], nextId := db.nextId + 1), Ready(evidence)))
  }

  function PrepareNew(pricer: Pricer, db: ChatDb, lease: Lease, now: int, no: nat, request: nat, callMax: int)
    : Result<(ChatDb, Preparation), GatewayError>
  {
    if !RunAndChargeLockable(db) then Err(NotReservable)
    else
      match PriorUnits(pricer, db, no)
      case Err(e) => Err(e)
      case Ok(prior) =>
        if no == 0 || callMax <= 0 || prior > MAX_INT64 - callMax then Err(InvalidPrepared)
        else
          var evidence := Evidence(request, Quote(callMax, prior, prior + callMax));
          var target := Max(db.charge.held, prior + callMax);
          match ReserveOrTopUp(db, target)
          case Err(e) =>
            if e == HoldRefused(Insufficient) then
              RecordRefusal(db, lease, if db.charge.held > 0 then TopUpInsufficientMarker else InitialInsufficientMarker)
            else Err(e)
          case Ok(reserved) =>
            match FindAttempt(db.attempts, no)
            case Some(i) =>
              if db.attempts[i].state == Prepared then
                if db.attempts[i].evidence == evidence then Ok((reserved, Ready(evidence))) else Err(DuplicateAttempt)
              else PutPrepared(reserved, lease, now, no, evidence)
            case None => PutPrepared(reserved, lease, now, no, evidence)
  }

  predicate EvidenceCurrent(db: ChatDb, evidence: Evidence, prior: int) {
    && evidence.quote.callMax > 0 && evidence.quote.target == evidence.quote.prior + evidence.quote.callMax
    && evidence.quote.prior == prior && evidence.quote.target <= db.charge.held
  }

  function PrepareRecovered(pricer: Pricer, db: ChatDb, lease: Lease, no: nat): Result<(ChatDb, Preparation), GatewayError> {
    if !RunAndChargeLockable(db) then Err(NotReservable)
    else
      match PriorUnits(pricer, db, no)
      case Err(e) => Err(e)
      case Ok(prior) =>
        if db.charge.held <= 0 then Err(PreparedMissing)
        else
          match ReserveOrTopUp(db, db.charge.held)
          case Err(e) => if e == HoldRefused(Insufficient) then RecordRefusal(db, lease, TopUpInsufficientMarker) else Err(e)
          case Ok(reserved) =>
            match FindAttempt(db.attempts, no)
            case None => Err(PreparedMissing)
            case Some(i) =>
              if db.attempts[i].state != Prepared then Err(PreparedMissing)
              else if !EvidenceCurrent(db, db.attempts[i].evidence, prior) then Err(InvalidPrepared)
              else Ok((reserved, Ready(db.attempts[i].evidence)))
  }

  // ---------- dispatch and outcome ----------

  function MarkDispatched(pricer: Pricer, db: ChatDb, lease: Lease, now: int, no: nat, evidence: Evidence): Result<ChatDb, GatewayError> {
    if !RunAndChargeLockable(db) then Err(NotReservable)
    else
      match PriorUnits(pricer, db, no)
      case Err(e) => Err(e)
      case Ok(prior) =>
        if !ActiveHoldEnsured(db, db.charge.held) then Err(HoldMismatch)
        else
          match FindAttempt(db.attempts, no)
          case None => Err(PreparedMissing)
          case Some(i) =>
            var row := db.attempts[i];
            if row.state != Prepared then Err(PreparedMissing)
            else if row.evidence != evidence then Err(DuplicateAttempt)
            else if !EvidenceCurrent(db, evidence, prior) then Err(InvalidPrepared)
            else if !Runnable(db.command, lease, now) then Err(LeaseLost)
            else Ok(db.(attempts := db.attempts[i := row.(state := Dispatched, dispatch := SentOut)]))
  }

  datatype OutcomeWrite = OutcomeWrite(outcome: Outcome, replayed: bool)

  /** The store's own write: a dispatched row takes the outcome, any other terminal row answers with what it stores. */
  function WriteOutcome(attempts: seq<AttemptRow>, no: nat, o: Outcome): Result<(seq<AttemptRow>, OutcomeWrite), GatewayError> {
    match FindAttempt(attempts, no)
    case None => Err(PreparedMissing)
    case Some(i) =>
      var row := attempts[i];
      if row.state == Dispatched then Ok((attempts[i := WithOutcome(row, o)], OutcomeWrite(o, false)))
      else if !Terminal(row.state) || row.usage.Unreadable? then Err(InvalidOutcome)
      else Ok((attempts, OutcomeWrite(OutcomeOf(row), true)))
  }

  function RecordOutcome(db: ChatDb, no: nat, evidence: Evidence, o: Outcome): Result<ChatDb, GatewayError> {
    if !ValidOutcome(o) then Err(InvalidOutcome)
    else if !RunAndChargeLockable(db) then Err(NotReservable)
    else
      match WriteOutcome(db.attempts, no, o)
      case Err(_) => Err(InvalidOutcome)
      case Ok((attempts, written)) =>
        if !written.replayed && db.attempts[FindAttempt(db.attempts, no).value].evidence != evidence then Err(DuplicateAttempt)
        else if written.outcome != o then Err(DuplicateAttempt)
        else Ok(db.(attempts := attempts))
  }

  function MarkTrigger(db: ChatDb, lease: Lease, marker: Marker): Result<ChatDb, GatewayError> {
    if HoldsLease(db.command, lease) then Ok(db.(command := db.command.(marker := marker))) else Err(LeaseLost)
  }
}
