/** Which settlement a run's stored rows call for: the finalization trigger, the facts and the decision. */
module ChatDecision {
  import opened Common
  import opened Wallet
  import opened ChatRows

  datatype Trigger =
    | Success | UserStop | UserStopBeforeDispatch | PreDispatchFailed | LocalFailure
    | InitialInsufficient | ContinuationTopUpInsufficient | ProviderFailed | OutcomeUnknownTrigger

  datatype SettleError =
    | StillPending | InconsistentFacts | NotOpen | InvalidReplay | PricingFailed | CandidateMismatch
    | TerminalConflict | CommandConflict | TokenOverflow | MoneyRefused(error: WalletError)

  // ---------- trigger ----------

  /** A succeeded attempt whose usage is complete but whose candidate is neither an answer nor a tool call. */
  predicate RequiresLocalFailure(a: AttemptRow) {
    && a.usage.Complete?
    && (a.candidate.None? || (!a.candidate.value.FinalAnswer? && a.candidate.value != ToolCalls))
  }

  function DeriveTrigger(command: CommandRow, attempts: seq<AttemptRow>): Result<Trigger, SettleError> {
    if command.cancelRequested then
      Ok(if exists a :: a in attempts && a.dispatch != NotDispatched then UserStop else UserStopBeforeDispatch)
    else if command.marker == PreDispatchMarker then Ok(PreDispatchFailed)
    else if command.marker == LocalMarker then Ok(LocalFailure)
    else if command.marker == InitialInsufficientMarker then Ok(InitialInsufficient)
    else if command.marker == TopUpInsufficientMarker then Ok(ContinuationTopUpInsufficient)
    else if attempts == [] then
      if command.state == CommandFailed then Ok(PreDispatchFailed) else Err(StillPending)
    else
      var latest := Last(attempts);
      match latest.state
      case Succeeded =>
        if latest.candidate.Some? && latest.candidate.value.FinalAnswer? then Ok(Success)
        else if latest.candidate == Some(ToolCalls) && latest.usage.Complete? then Err(StillPending)
        else if RequiresLocalFailure(latest) then Ok(LocalFailure)
        else Ok(Success)
      case OutcomeUnknown => Ok(OutcomeUnknownTrigger)
      case Failed =>
        if command.marker == ProviderMarker || (command.maxAttempts > 0 && latest.no >= command.maxAttempts)
        then Ok(ProviderFailed)
        else Err(StillPending)
      case Canceled =>
        if command.marker == ProviderMarker || (command.maxAttempts > 0 && latest.no >= command.maxAttempts)
        then Ok(ProviderFailed)
        else Err(StillPending)
      case Prepared => Err(StillPending)
      case Dispatched => Err(StillPending)
  }

  /** The attempts as the settlement transaction first closes an abandoned latest one. */
  function Normalize(command: CommandRow, attempts: seq<AttemptRow>): (r: seq<AttemptRow>)
    ensures |r| == |attempts|
    ensures forall i :: 0 <= i < |attempts| - 1 ==> r[i] == attempts[i]
  {
    if attempts == [] then attempts
    else
      var last := |attempts| - 1;
      var latest := attempts[last];
      if (command.cancelRequested || command.marker == PreDispatchMarker)
         && latest.state == Prepared && latest.dispatch == NotDispatched then
        attempts[last := latest.(state := Canceled, usage := Unavailable, candidate := None, requestId := None, response := None)]
      else if command.state == CommandOutcomeUnknown && latest.state == Dispatched then
        attempts[last := latest.(state := OutcomeUnknown, dispatch := SendUnknown, usage := Unavailable,
          candidate := None, response := None)]
      else attempts
  }

  // ---------- facts ----------

  datatype Facts = Facts(run: RunRow, charge: ChargeRow, hold: Option<Hold>, attempts: seq<AttemptRow>, trigger: Trigger,
                         stopped: Option<nat>, current: Option<nat>, candidate: Option<(nat, Candidate)>)

  /** Unreadable usage counts as unavailable once the attempt is terminal. */
  function ReadUsage(a: AttemptRow): AttemptRow {
    if a.usage.Unreadable? && Terminal(a.state) then a.(usage := Unavailable) else a
  }

  function ReadAll(attempts: seq<AttemptRow>): (r: seq<AttemptRow>)
    ensures |r| == |attempts|
    ensures forall i :: 0 <= i < |attempts| ==> r[i] == ReadUsage(attempts[i])
  {
    seq(|attempts|, i requires 0 <= i < |attempts| => ReadUsage(attempts[i]))
  }

  function BuildFacts(db: ChatDb, attempts: seq<AttemptRow>): Result<Facts, SettleError> {
    if db.run.status != RunRunning then Err(InconsistentFacts)
    else
      match DeriveTrigger(db.command, attempts)
      case Err(e) => Err(e)
      case Ok(trigger) =>
        if exists a :: a in attempts && a.usage.Unreadable? && !Terminal(a.state) then Err(InconsistentFacts)
        else
          var stopped := if attempts != [] && trigger == UserStop && Last(attempts).state == Canceled && Last(attempts).dispatch == SentOut
                         then Some(Last(attempts).id) else None;
          var current := if attempts == [] then None else Some(Last(attempts).id);
          var candidate := if attempts == [] || Last(attempts).candidate.None? then None
                           else Some((Last(attempts).id, Last(attempts).candidate.value));
          Ok(Facts(db.run, db.charge, FindHold(db.book.holds, db.run.id), ReadAll(attempts), trigger, stopped, current, candidate))
  }

  predicate AttemptConsistent(a: AttemptRow) {
    && !a.usage.Unreadable?
    && match a.state
       case Prepared => a.dispatch == NotDispatched
       case Dispatched => a.dispatch == SentOut
       case _ => ValidOutcome(OutcomeOf(a))
  }

  predicate WithoutHold(f: Facts) {
    && (f.trigger == InitialInsufficient || f.trigger == UserStopBeforeDispatch || f.trigger == PreDispatchFailed)
    && f.hold.None?
  }

  predicate MoneyFactsConsistent(f: Facts) {
    && f.charge.runId == f.run.id && f.charge.userId == f.run.userId
    && f.charge.status == ChargeOpen && f.charge.actual == 0
    && if WithoutHold(f) then
         f.run.billing == BillingPending && f.run.reason == PendingReason && f.charge.held == 0
       else
         && f.trigger != InitialInsufficient
         && f.run.billing == BillingHeld && f.run.reason == HeldReason
         && f.hold.Some?
         && var h := f.hold.value;
            h.runId == f.run.id && h.status == HoldActive && h.captured == 0 && h.held >= 0 && f.charge.held == h.held
  }

  predicate AttemptFactsConsistent(f: Facts) {
    && (forall i :: 0 <= i < |f.attempts| ==> f.attempts[i].no > 0 && AttemptConsistent(f.attempts[i]))
    && (forall i, j :: 0 <= i < j < |f.attempts| ==> f.attempts[i].id != f.attempts[j].id && f.attempts[i].no != f.attempts[j].no)
    && (f.trigger == ProviderFailed ==> f.attempts != [] && Last(f.attempts).state == Failed)
    && (f.trigger == OutcomeUnknownTrigger ==> f.attempts != [] && Last(f.attempts).state == OutcomeUnknown)
    && (f.trigger == InitialInsufficient ==> f.attempts == [])
    && (f.trigger == PreDispatchFailed ==> f.candidate.None?)
  }

  // ---------- decision ----------

  datatype MoneyAction = CaptureMoney | ReleaseMoney

  datatype Decision = Decision(runStatus: RunStatus, billing: BillingStatus, reason: BillingReason, charge: ChargeStatus,
                               action: MoneyAction, publish: bool, candidate: Option<(nat, Candidate)>, actual: int, items: seq<ChargeItem>)

  datatype Price = Priced(units: int, items: seq<ChargeItem>) | UsageIncomplete | PriceError

  /** The pricer of the run: the ceiling for prior usage, and the settlement price. */
  datatype Pricer = Pricer(prior: seq<AttemptRow> -> Option<int>, settle: seq<AttemptRow> -> Price)

  function ReleaseAs(f: Facts, status: RunStatus, reason: BillingReason): Decision {
    Decision(status, BillingReleased, reason, ChargeReleased, ReleaseMoney, false, f.candidate, 0, [])
  }

  function UnbilledAs(f: Facts, status: RunStatus): Decision {
    Decision(status, BillingUnbilled, UnbilledUsageIncomplete, ChargeUnbilled, ReleaseMoney, false, f.candidate, 0, [])
  }

  predicate Stopped(f: Facts, a: AttemptRow) {
    f.stopped == Some(a.id) && a.state == Canceled && a.dispatch == SentOut
  }

  /** Attempts whose usage may be charged, were the run billable at all. */
  predicate Chargeable(f: Facts, a: AttemptRow) {
    a.state == Succeeded || Stopped(f, a)
  }

  function ChargeableOf(f: Facts, attempts: seq<AttemptRow>): (r: seq<AttemptRow>)
    ensures forall a :: a in r <==> a in attempts && Chargeable(f, a)
  {
    if attempts == [] then []
    else (if Chargeable(f, attempts[0]) then [attempts[0]] else []) + ChargeableOf(f, attempts[1..])
  }

  predicate Intermediate(a: AttemptRow) {
    a.state == Prepared || a.state == Dispatched
  }

  predicate OnlySucceededOrFailed(attempts: seq<AttemptRow>) {
    && (forall a :: a in attempts ==> a.state == Succeeded || a.state == Failed)
    && (exists a :: a in attempts && a.state == Succeeded)
  }

  predicate AllSucceededOrStopped(f: Facts) {
    && (forall a :: a in f.attempts ==> a.state == Succeeded || a.state == Failed || Stopped(f, a))
    && (exists a :: a in f.attempts && Chargeable(f, a))
  }

  function SumAmounts(items: seq<ChargeItem>): int {
    if items == [] then 0 else items[0].amount + SumAmounts(items[1..])
  }

  predicate QuoteAccepted(billable: seq<AttemptRow>, units: int, items: seq<ChargeItem>) {
    && units >= 0
    && (forall i :: 0 <= i < |items| ==> items[i].amount >= 0 && exists a :: a in billable && a.id == items[i].attemptId)
    && (forall i, j :: 0 <= i < j < |items| ==> items[i].attemptId != items[j].attemptId || items[i].identity != items[j].identity)
    && SumAmounts(items) == units
    && units <= MAX_INT64
  }

  function UnbilledStatus(status: RunStatus): RunStatus {
    if status == RunCanceled then RunCanceled else RunFailed
  }

  function PriceOrUnbilled(pricer: Pricer, f: Facts, status: RunStatus, publish: bool): Result<Decision, SettleError> {
    var billable := ChargeableOf(f, f.attempts);
    if f.run.legacy || billable == [] || exists a :: a in billable && !a.usage.Complete? then Ok(UnbilledAs(f, UnbilledStatus(status)))
    else
      match pricer.settle(billable)
      case UsageIncomplete => Ok(UnbilledAs(f, UnbilledStatus(status)))
      case PriceError => Err(PricingFailed)
      case Priced(units, items) =>
        if !QuoteAccepted(billable, units, items) then Err(PricingFailed)
        else if f.hold.None? || units > f.hold.value.held then
          Ok(UnbilledAs(f, UnbilledStatus(status)).(reason := UnbilledOverHold, actual := units, items := items))
        else if publish && !(f.candidate.Some? && exists a :: a in billable && a.id == f.candidate.value.0) then Err(CandidateMismatch)
        else Ok(Decision(status, BillingSettled, SettledCompleteUsage, ChargeSettled, CaptureMoney, publish, f.candidate, units, items))
  }

  function Decide(pricer: Pricer, f: Facts): Result<Decision, SettleError> {
    if exists a :: a in f.attempts && Intermediate(a) then Err(StillPending)
    else
      var sent := exists a :: a in f.attempts && a.dispatch == SentOut;
      match f.trigger
      case Success => if OnlySucceededOrFailed(f.attempts) then PriceOrUnbilled(pricer, f, RunSuccess, true) else Err(StillPending)
      case UserStopBeforeDispatch => if sent then Err(StillPending) else Ok(ReleaseAs(f, RunCanceled, ReleasedBeforeDispatch))
      case PreDispatchFailed => if sent then Err(StillPending) else Ok(ReleaseAs(f, RunFailed, ReleasedBeforeDispatch))
      case LocalFailure => Ok(ReleaseAs(f, RunFailed, ReleasedProviderFailed))
      case UserStop => if AllSucceededOrStopped(f) then PriceOrUnbilled(pricer, f, RunCanceled, false) else Ok(UnbilledAs(f, RunCanceled))
      case ProviderFailed => Ok(ReleaseAs(f, RunFailed, ReleasedProviderFailed))
      case OutcomeUnknownTrigger => Ok(ReleaseAs(f, RunOutcomeUnknown, ReleasedOutcomeUnknown))
      case InitialInsufficient => Ok(ReleaseAs(f, RunFailed, ReleasedInsufficientBalance))
      case ContinuationTopUpInsufficient =>
        if ChargeableOf(f, f.attempts) == [] then Ok(ReleaseAs(f, RunFailed, ReleasedInsufficientBalance))
        else if f.run.legacy then Ok(UnbilledAs(f, RunFailed))
        else PriceOrUnbilled(pricer, f, RunFailed, false)
  }
}
