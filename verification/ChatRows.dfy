/** The rows one paid chat run owns: the run, its charge, its reply command, its provider attempts,
    the reply message and the user's wallet book. A transaction maps these rows to new rows or fails. */
module ChatRows {
  import opened Common
  import opened Wallet

  datatype AttemptState = Prepared | Dispatched | Succeeded | Failed | Canceled | OutcomeUnknown

  datatype DispatchState = NotDispatched | SentOut | SendUnknown

  /** How a stored result candidate parses. */
  datatype Candidate = FinalAnswer(answer: string) | ToolCalls | EmptyResult | Malformed

  datatype Category = Input | Output | CacheRead | CacheWrite | Media

  datatype UsageItem = UsageItem(category: Category, quantity: nat)

  /** Stored usage: explicitly unavailable, complete, or unreadable. */
  datatype Usage = Unavailable | Complete(items: seq<UsageItem>) | Unreadable

  datatype Quote = Quote(callMax: int, prior: int, target: int)

  /** The exact prepared request (identified by its hash) and the quote bound to it. */
  datatype Evidence = Evidence(request: nat, quote: Quote)

  datatype AttemptRow = AttemptRow(id: nat, no: nat, evidence: Evidence, state: AttemptState, dispatch: DispatchState,
                                   usage: Usage, candidate: Option<Candidate>, requestId: Option<nat>, response: Option<nat>)

  datatype Outcome = Outcome(state: AttemptState, dispatch: DispatchState, usage: Usage, candidate: Option<Candidate>,
                             requestId: Option<nat>, response: Option<nat>)

  datatype CommandState =
    | Pending | Claimed | Running
    | CommandSucceeded | CommandFailed | CommandCanceled | CommandOutcomeUnknown | CommandTimedOut

  /** The pair (last error code, last error message) of a command, as the finalizer reads it.
      ContextMarker is a context-guard code with the local-failure message. */
  datatype Marker =
    | NoMarker | PreDispatchMarker | LocalMarker | ProviderMarker
    | InitialInsufficientMarker | TopUpInsufficientMarker
    | RetryMarker | ContextMarker | OtherMarker

  datatype CommandRow = CommandRow(state: CommandState, maxAttempts: nat, owner: Option<nat>, token: nat, expires: int,
                                   cancelRequested: bool, marker: Marker, assistant: Option<nat>, deliverySeq: nat, finished: bool)

  datatype RunStatus = RunRunning | RunSuccess | RunFailed | RunCanceled | RunOutcomeUnknown

  datatype BillingStatus = BillingPending | BillingHeld | BillingSettled | BillingReleased | BillingUnbilled

  datatype BillingReason =
    | PendingReason | HeldReason | SettledCompleteUsage
    | ReleasedBeforeDispatch | ReleasedInsufficientBalance | ReleasedProviderFailed | ReleasedOutcomeUnknown
    | UnbilledUsageIncomplete | UnbilledOverHold

  datatype ChargeStatus = ChargeOpen | ChargeSettled | ChargeReleased | ChargeUnbilled

  datatype ChargeItem = ChargeItem(attemptId: nat, identity: nat, amount: int)

  /** `legacy` marks a run whose request identity is not replayable, so none of its attempts may be billed. */
  datatype RunRow = RunRow(id: nat, userId: nat, legacy: bool, status: RunStatus, billing: BillingStatus, reason: BillingReason,
                           assistant: Option<nat>, promptTokens: nat, completionTokens: nat)

  datatype ChargeRow = ChargeRow(runId: nat, userId: nat, held: int, actual: int, status: ChargeStatus,
    finalized: bool, items: seq<ChargeItem>)

  datatype Message = Message(id: nat, content: string, stopped: bool, deleted: bool)

  datatype ChatDb = ChatDb(run: RunRow, charge: ChargeRow, command: CommandRow, attempts: seq<AttemptRow>, book: Book,
                           message: Option<Message>, conversationDeleted: bool, prefixReadable: bool, nextId: nat)

  datatype Lease = Lease(owner: nat, token: nat)

  predicate Terminal(state: AttemptState) {
    state == Succeeded || state == Failed || state == Canceled || state == OutcomeUnknown
  }

  predicate OpenBilling(run: RunRow) {
    run.billing == BillingPending || run.billing == BillingHeld
  }

  /** The row a terminal outcome write leaves. */
  function WithOutcome(row: AttemptRow, o: Outcome): AttemptRow {
    row.(state := o.state, dispatch := o.dispatch, usage := o.usage, candidate := o.candidate,
         requestId := o.requestId, response := o.response)
  }

  function OutcomeOf(row: AttemptRow): Outcome {
    Outcome(row.state, row.dispatch, row.usage, row.candidate, row.requestId, row.response)
  }

  /** The checks on a terminal outcome before it may be stored or settled. */
  predicate ValidOutcome(o: Outcome) {
    && Terminal(o.state)
    && !o.usage.Unreadable?
    && (o.response.Some? ==> o.dispatch != NotDispatched)
    && match o.state
       case Succeeded => o.dispatch == SentOut && o.requestId.Some? && o.response.Some?
       case OutcomeUnknown => o.dispatch == SendUnknown && o.usage == Unavailable
       case _ =>
         && o.dispatch != SendUnknown
         && (o.dispatch == NotDispatched ==> !o.usage.Complete?)
         && (o.dispatch == SentOut && o.usage.Complete? ==> o.requestId.Some? && o.response.Some?)
  }
}
