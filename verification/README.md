# Verification model of the admin backend

A Dafny model of the parts of the backend whose correctness is hardest to see from the code: paid AI attempts and their
settlement, the Redis protocols they and the scheduler rely on, the OpenAPI schema builder, identifiers and encodings, and
the machines that stage responses, files and shutdowns. `dafny verify dfyconfig.toml` checks the whole project.

## What is modelled

**Paid chat runs** (`Wallet`, `WalletTable`, `Chat*`). A run owns a charge, a wallet hold, a reply command and a list of
provider attempts. Each database transaction is one function from the locked rows to new rows or an error; `ChatStore` and
`WalletTable` are the same transactions written row by row with rollback, proved equal to those functions. `ChatRuns` lets
any number of workers, crashes, lease changes, cancel requests, settlements and other users of the wallet interleave, with the
provider call as a step of its own; `ChatSafety` proves what holds in every such run, and `ChatVerdicts` says for each state they
reach whether it can be settled. `ChatUsage`, `ChatCharges` and `ChatEndings` say from the stored rows alone what earlier attempts
count for, what a run is charged and how it ends. The wallet and the settlement decision are modelled from their own sources, not assumed.

**Text and image jobs** (`Task*`). One attempt per run, with the lease-guarded writes of images and the deadline of texts:
at most one provider call ever, and one undisturbed execution ends a job from any state a crash leaves; `TaskRaces` gives the
runs that end in odd states.

**Output bound** (`OutputBound`), **fenced lease and scheduler** (`LeaseLock`, `Scheduler`), **verification codes**
(`CodeDelivery`), **schema builder** (`SchemaBuilder`, and `SchemaMeaning` for the JSON a schema accepts), **event ids** (`EventId`), **usage snapshots** (`UsageSnapshot`),
**required audit** (`AuditWriter`), **bundle publication** (`BundlePublish`), **runtime lifecycle** (`Lifecycle`), **heading
paths** (`HeadingStack`) and **text decoding** (`Utf16Text`) follow. Event ids follow the ULID specification
(sections Encoding and Sorting), text decoding follows RFC 2781 (sections 2.1, 2.2 and 3.2).

## What the proofs say about the code

Some expectations do not hold; each is stated as a lemma together with the exact condition.

- A canceled chat attempt settles exactly with a stored stop request or a marker that decides by itself
  (`ChatVerdicts.CanceledSettlesExactly`). No run gets stuck on this, because the stop probe of the provider fires only after the
  request was stored (`ChatVerdicts.CanceledRunSettles`); without that discipline one would (`ChatVerdicts.UnaskedCancelIsStuck`).
- A context-guard failure is recorded under its own error code, which the trigger does not read. The run then settles exactly
  when its attempts decide without it, so not after a complete tool call, nor after a failure with numbers left
  (`ChatVerdicts.ContextFailureSettlesExactly`). These are also the exceptions of `ChatRecovery.RecoveryAgreesWithSettlement`,
  with the canceled attempt and a provider failure stored beside a tool call, which is only stored after a failed attempt.
- The replay check of text jobs accepts a charge only for a success, so it refuses the settlement of a job that was charged
  after its balance ran out (`TaskRuns.TextSettledOnce` says exactly when, `TaskRaces.RacedChargeIsNotReplayed` gives the run).
- A failure recorded while an attempt is prepared never stops the next execution from sending it
  (`TaskSafety.PreparedAttemptIsSentDespiteFailure`, reached by `TaskRaces.FailureBesidePreparedAttempt`).
- Request preparation converges for bodies that spell the cap exactly when the cap does not flip across a power of ten
  (`OutputBound.ConvergesExactlyWithoutFlip`).
- A scheduled job whose release is not answered reports its lease as kept although it may have been lost: exactly when more
  than a time to live passed since its last renewal and no later renewal noticed (`Scheduler.UnansweredReleaseOutcome`,
  `Scheduler.UnansweredReleaseKeepsTheLease`; an example is `Scheduler.UnansweredReleaseHidesALoss`).
- The schema of a model accepts null exactly for pointers, interfaces and raw JSON (`SchemaMeaning.NullIsForPointers`). Go writes
  null for a nil slice, map or byte slice as well, so a response that leaves one nil does not meet its own contract.
- Different usage items can share a key, exactly when the tier of one continues the unit of the other across the separator
  (`UsageSnapshot.KeysCollideExactly`). The adapters only write the unit "token", for which keys identify items
  (`UsageSnapshot.UndividedUnitsIdentify`).

## How time and the outside world enter

Clocks are parameters or steps that move time forward. The provider, the pricer, JSON validity, UTF-8 validity, SHA-256 and
random bytes are parameters; nothing is assumed about them beyond what a statement names. Redis drops a key when its expiry
lies in the past. File operations fail as an arbitrary oracle says.

## Model

| member | source | states |
|---|---|---|
| `ChatSafety.ProviderIsCalledOncePerAttempt` | internal/runtime/ai_billing_gateway.go:106-236 | in every run of any number of workers, crashes, lease changes and retries: attempt numbers are 1, 2, 3, ... and stay within a positive limit, no number is sent to the provider twice, each call carries the request stored for its number, and only failed or tool-calling attempts are followed by another |
| `ChatSafety.MoneyAgreesInEveryRun` | internal/runtime/ai_billing_gateway.go:792-816 | in every reachable state an open run with a hold has exactly its charge on hold and covers every stored quote; a run that is no longer open is accepted by the replay branch and its captured units are its charge |
| `ChatSafety.SettledRunIsFinal` | internal/runtime/ai_billing_finalizer.go:301-314 | once settled, nothing that happens later changes the run, charge, command, attempts, hold or ledger row |
| `ChatSafety.TerminalOutcomeIsFinal` | internal/runtime/ai_billing_gateway.go:1233-1292 | a stored terminal outcome is never overwritten in any run; settlement may only clear its candidate |
| `ChatSafety.OutcomeWriteReplays` | internal/runtime/ai_billing_gateway.go:1233-1292 | the first outcome written to a dispatched attempt is stored; every later write answers with it and changes nothing |
| `ChatSafety.NoCallAfterCancel` | internal/runtime/ai_billing_gateway.go:1433-1455 | after a stop request has committed with no dispatch in flight the provider is never called for the run again |
| `ChatSafety.StepInOrder` | internal/runtime/ai_billing_gateway.go:106-232 | every single step keeps the invariant from which the statements about whole runs follow, and only moves attempts forward |
| `ChatSafety.RunInOrder` | internal/runtime/ai_billing_gateway.go:106-232 | the invariant holds after any sequence of steps |
| `ChatSafety.GainsCall` | internal/module/ai/aigateway/gateway.go:318-331 | the worker whose transaction took an attempt out of the prepared state is the only one that may call the provider for it |
| `ChatSafety.ClosedRefuses` | internal/runtime/ai_billing_gateway.go:805-813 | no reservation, dispatch, outcome or trigger commits for a run whose billing is closed; settlement replays |
| `ChatRuns.ReservationAgrees` | internal/runtime/ai_billing_gateway.go:978-1016 | a committed reservation leaves the hold, the charge and the target equal, never below the earlier target, and keeps the wallet valid |
| `ChatRuns.ReservationOutcome` | internal/runtime/ai_billing_gateway.go:978-1062 | a reservation of an open run commits exactly when its target is not below what is held and the wallet covers the difference |
| `ChatRecovery.RecoveryAgreesWithSettlement` | internal/runtime/ai_billing_gateway.go:106-138 | for a terminal latest attempt and any stored marker an execution (its marker test, its context guard, the next attempt and the attempt limit) asks for the settlement exactly when the settlement, reading the marker that execution leaves, finds a trigger; the exact exceptions are a canceled attempt of a run that is not exhausted, a context guard that refuses a run that could go on, and a provider failure stored beside a complete tool call; the only succeeded attempt that goes on is a complete tool call |
| `ChatRecovery.RecoveryContinuesInOrder` | internal/runtime/ai_billing_gateway.go:460-518 | recovery starts exactly the next number, picks up exactly a prepared attempt, waits for exactly a dispatched one and finalizes exactly what must not be followed |
| `ChatEndings.ToolCallIsHandedBack` | internal/runtime/ai_billing_gateway.go:460-518 | a tool call that was not answered goes back to its caller exactly when it is completely reported and its tokens fit |
| `ChatRecovery.DispatchOutcome` | internal/module/ai/aigateway/gateway.go:270-336 | a dispatch commits exactly for a prepared attempt with the caller's evidence whose quote rests on what all earlier successes are worth and fits the hold, under a live lease without a stop request |
| `ChatRecovery.RecordOutcomeCommits` | internal/module/ai/aigateway/gateway.go:483-531 | exact condition under which an outcome is recorded or accepted again |
| `ChatRecovery.PrepareOutcome` | internal/module/ai/aigateway/gateway.go:192-268 | with any number of earlier successes, a preparation the wallet covers stores exactly one prepared row and holds exactly what they are worth plus this call (or what was already held); one it cannot cover stores only the failure marker |
| `ChatRecovery.PreparationCoversUsage` | internal/runtime/ai_billing_gateway.go:840-870 | whatever number is prepared: an earlier success without complete usage refuses it, and a preparation that succeeds is quoted on all earlier successes and leaves hold and charge at the larger of the hold and that quote |
| `ChatRecovery.RecoverOutcome` | internal/module/ai/aigateway/gateway.go:102-167 | a prepared attempt is picked up again exactly when its quote still rests on what all earlier successes are worth; charge and attempts stay |
| `ChatVerdicts.JudgedExactlyWhenDecidable` | internal/runtime/ai_billing_finalizer.go:30-95 | the exact stored facts (stop request, marker, billing status, latest attempt, command state) under which the settlement of an open run finds a decision or only the pricer refuses it |
| `ChatVerdicts.EveryOpenRunIsJudgedExactlyWhenDecidable` | internal/runtime/ai_billing_finalizer.go:276-330 | the same in every open state that any run reaches |
| `ChatVerdicts.ContextFailureSettlesExactly` | internal/runtime/ai_billing_gateway.go:289-294 | with a context-guard failure recorded an open run settles exactly when its attempts decide without it |
| `ChatVerdicts.CanceledSettlesExactly` | internal/runtime/ai_billing_finalizer.go:84-94 | a canceled latest attempt settles exactly with a stored stop request or a marker that decides by itself |
| `ChatVerdicts.CanceledRunSettles` | internal/module/ai/aigateway/chat_provider.go:180-183 | in every run whose provider reports a canceled outcome only after its stop probe fired, a canceled attempt of an open run has its stop request and settles |
| `ChatVerdicts.UnaskedCancelIsStuck` | internal/runtime/ai_billing_finalizer.go:84-94 | a provider that reported a canceled outcome nobody asked for would leave a run that no settlement decides |
| `ChatSettlement.SettledOnce` | internal/runtime/ai_billing_finalizer.go:276-384 | whatever a settlement writes is accepted by the replay check, and the next call replays it without changing a row |
| `ChatSettlement.SettlementMovesExactlyTheCharge` | internal/runtime/ai_billing_finalizer.go:538-582 | the wallet loses exactly the charge, which is the sum of its items and never more than the hold; anything not settled costs nothing and frees the hold |
| `ChatCharges.SettlementCharges` | internal/module/ai/aigateway/finalizer.go:242-278 | a settlement charges exactly when the run ended in an answer, a stop after everything came in or a balance too short to go on, and all its successes and the stopped attempt are completely reported, accepted by the pricer and within the hold; the charge and its items are then the price of exactly those attempts in their order, and 0 otherwise |
| `ChatEndings.SettlementEnds` | internal/module/ai/aigateway/finalizer.go:192-278 | status, reason and billing of a settled run, read from the rows before it |
| `ChatEndings.SettlementTokens` | internal/runtime/ai_billing_finalizer.go:687-714 | the token columns are the input and cache tokens, and the output tokens, that the charged attempts report |
| `ChatEndings.SettlementShows` | internal/module/ai/replycommand/finalization.go:65-229 | a successful run shows the answer of its latest attempt, a canceled one its stopped message, a failed one only what was delivered before |
| `ChatEndings.SettlementCloses` | internal/runtime/ai_billing_finalizer.go:433-474 | a settlement leaves no attempt open: what becomes of a prepared and of a dispatched one and when it may, and the command that ends as the run does |
| `ChatSettlement.MoneyNeverRefuses` | internal/runtime/ai_billing_finalizer.go:329-352 | once a settlement is judged neither the wallet nor the run, charge and attempt rows refuse it: only the command or its message, an empty answer or token sums that do not fit can |
| `ChatSettlement.DecideIsCoherent` | internal/module/ai/aigateway/finalizer.go:192-278 | every decision fits together: statuses, money action, units within the hold, publication only of a success |
| `ChatSettlement.DecisionFollowsTrigger` | internal/module/ai/aigateway/finalizer.go:192-236 | which triggers lead to which end of the run, which can be charged, and whose candidate is published |
| `ChatSettlement.SettledOnlyForCompleteUsage` | internal/module/ai/aigateway/finalizer.go:238-278 | money is charged only for a replayable run, complete usage of every chargeable attempt, and item by item for such attempts |
| `ChatSettlement.SuccessHasAnswer` | internal/runtime/ai_billing_finalizer.go:30-95 | a run that ends in success ends with the final answer of a completely reported attempt and no cancel request |
| `ChatSettlement.MoneyMoves` | internal/runtime/ai_billing_finalizer.go:538-566 | a coherent decision is always accepted by the wallet and has exactly its effect on balance, held units and the hold of the run |
| `ChatSettlement.AppliedDecision` | internal/runtime/ai_billing_finalizer.go:626-685 | the rows an applied decision leaves |
| `ChatSettlement.FinishedCommandMatches` | internal/module/ai/replycommand/finalization.go:65-229 | a finished command carries the target state and the shown message |
| `ChatStore.Store.ReserveOrTopUp` | internal/runtime/ai_billing_gateway.go:978-1062 | row by row with rollback, equal to the transaction it implements |
| `ChatStore.Store.PutPrepared` | internal/module/ai/replycommand/attempt.go:124-304 | row by row, equal to the transaction it implements |
| `ChatStore.Store.MarkDispatched` | internal/runtime/ai_billing_gateway.go:1193-1209 | equal to the transaction it implements; an error changes nothing |
| `ChatStore.Store.RecordTerminalOutcome` | internal/runtime/ai_billing_gateway.go:1233-1292 | writes the outcome of a dispatched attempt, answers for any other terminal one with what is stored |
| `ChatStore.Store.NormalizeForFinalization` | internal/runtime/ai_billing_finalizer.go:433-474 | closes an abandoned latest attempt in place |
| `ChatStore.Store.ApplyMoney` | internal/runtime/ai_billing_finalizer.go:538-566 | capture or release as decided, refusing a decision the hold contradicts |
| `ChatStore.Store.FinishCommand` | internal/module/ai/replycommand/finalization.go:65-229 | finishes the reply command and the message it shows |
| `ChatStore.Store.FinishRunAndCharge` | internal/runtime/ai_billing_finalizer.go:626-685 | run and charge compare-and-set with token totals |
| `ChatStore.Store.WithLockedSettlement` | internal/runtime/ai_billing_finalizer.go:276-384 | all of the settlement or none of it: equal to the settlement function, and an error puts every row back |
| `ChatStore.ChatResultUsageTotals` | internal/runtime/ai_billing_gateway.go:520-544 | a persisted tool call gets totals exactly when its usage is complete and their sum fits |
| `ChatStore.FinalizationTokenTotals` | internal/runtime/ai_billing_finalizer.go:687-714 | the token sums of all billable attempts, refused exactly when they do not fit |
| `Wallet.MoneyIsConserved` | internal/module/payment/wallet/hold.go:36-382 | after any history the holds are covered by the balance, the balance is recharges minus captures and what the ledger replays to, and a run is debited at most once, for exactly its captured units |
| `Wallet.HistoryKeeps` | internal/module/payment/wallet/hold.go:36-382 | any history keeps a valid wallet valid, and a spent hold and its ledger rows never change again |
| `Wallet.ReserveOutcome` | internal/module/payment/wallet/hold.go:36-134 | a reservation on a valid wallet is refused only for a spent hold or missing funds |
| `Wallet.ReserveKeepsValid` | internal/module/payment/wallet/hold.go:36-134 | a reservation keeps the wallet valid, reaches the larger of hold and target and touches no other hold |
| `Wallet.CaptureOutcome` | internal/module/payment/wallet/hold.go:136-223 | a capture succeeds exactly on an active hold that covers it, or as the replay of itself |
| `Wallet.CaptureKeepsValid` | internal/module/payment/wallet/hold.go:136-223 | a capture takes its units once, frees the rest of the hold and writes exactly one ledger row for a positive amount |
| `Wallet.CaptureTwice` | internal/module/payment/wallet/hold.go:171-185 | repeating a capture finds its ledger row and changes nothing |
| `Wallet.ReleaseOutcome` | internal/module/payment/wallet/hold.go:232-301 | a release succeeds exactly for a hold that was not captured |
| `Wallet.ReleaseKeepsValid` | internal/module/payment/wallet/hold.go:232-301 | a release frees the whole hold, costs nothing and can be repeated |
| `Wallet.CreditKeepsValid` | internal/module/payment/wallet/hold.go:337-382 | a recharge is credited once |
| `Wallet.SpentIsFinal` | internal/module/payment/wallet/hold.go:481-523 | no operation of a run changes the wallet once its hold is spent |
| `WalletTable.Table.ActiveTotalMatches` | internal/module/payment/wallet/hold.go:452-461 | recomputes the active holds and compares them with the wallet row |
| `WalletTable.Table.ReserveHold` | internal/module/payment/wallet/hold.go:36-134 | the reservation as the repository runs it, with rollback |
| `WalletTable.Table.CaptureHold` | internal/module/payment/wallet/hold.go:136-223 | the capture as the repository runs it, with rollback |
| `WalletTable.Table.ReleaseHold` | internal/module/payment/wallet/hold.go:232-301 | the release as the repository runs it, with rollback |
| `TaskSafety.TaskCallsProviderAtMostOnce` | internal/runtime/ai_billing_text.go:95-231 | in its whole life a text or image job makes at most one provider call, whatever workers, crashes and leases do, and that call carries the request stored with its attempt |
| `TaskSafety.OneRerunEndsTheTask` | internal/runtime/ai_billing_text.go:95-150 | from every state workers and crashes can leave, one undisturbed execution after the deadline (text) or under the lease (image) settles the job, or only its price or token sums stand in the way |
| `TaskSafety.EarlyRerunWaits` | internal/runtime/ai_billing_text.go:310-318 | a dispatched text attempt is left alone exactly until its deadline |
| `TaskSafety.SentAttemptIsLeftAlone` | internal/runtime/ai_billing_text.go:310-318 | a text attempt that was just sent is left to its worker for 15 minutes and taken over after that |
| `TaskSafety.PreparedAttemptIsSentDespiteFailure` | internal/runtime/ai_billing_text.go:133-134 | whatever failure code is stored beside a prepared attempt, the next execution calls the provider exactly when it is ready and its preflight passes; the answer is charged as without a failure when the code says the balance was short, and not at all beside another code |
| `TaskRaces.FailureBesidePreparedAttempt` | internal/runtime/ai_billing_text.go:280-286 | a run from the start of a job that leaves any failure code beside a prepared attempt |
| `TaskRaces.FirstPreparation` | internal/module/ai/aigateway/gateway.go:192-268 | the only preparation of a job quotes, holds and stores exactly its own maximum, or records that the balance is too short |
| `TaskSafety.TaskStepInOrder` | internal/runtime/ai_billing_image.go:134-182 | every step keeps the invariant of a job and its single right to call |
| `TaskRuns.JudgedExactlyWhenDecidable` | internal/runtime/ai_billing_text.go:511-569 | settlement stays pending exactly while no end or recorded failure is stored; otherwise only pricing can refuse it |
| `TaskRuns.JudgedApplies` | internal/runtime/ai_billing_text.go:633-695 | a judged settlement applies unless the token sums do not fit |
| `TaskRuns.TaskSettled` | internal/runtime/ai_billing_image.go:647-723 | a settlement closes the run, moves exactly its charge and spends the hold, or replays without a change |
| `TaskRuns.SettledTaskKeeps` | internal/runtime/ai_billing_image.go:880-897 | a job keeps the answer of its attempt and no failure code exactly when it is charged with no failure stored beside it; any other keeps no answer and the stored failure code, or the provider's; status, reason and token columns are stated from the rows before |
| `TaskRuns.TextSettledOnce` | internal/runtime/ai_billing_text.go:720-742 | every later call replays a text settlement, except exactly where a job with a short balance is charged: a complete success of a replayable run at an accepted price within the hold; then the replay check refuses it |
| `TaskRuns.JudgedCharge` | internal/runtime/ai_billing_text.go:530-569 | a judged job is charged exactly under those stored facts, and exactly that price |
| `TaskRuns.ChargedBySettlement` | internal/runtime/ai_billing_text.go:633-742 | what a settlement leaves on the charge of an open job |
| `TaskRaces.RacedChargeIsNotReplayed` | internal/runtime/ai_billing_text.go:378-395 | two preparations of one text job and a recharge between them end in a charge whose replay is refused |
| `TaskRuns.ImageSettlesOnce` | internal/runtime/ai_billing_image.go:870-876 | an image settlement gives up the lease: any later call, under any lease, is refused as lease lost |
| `OutputBound.PrepareConverged` | internal/runtime/ai_billing_gateway.go:628-694 | the loop equals its specification, makes at most five transport calls, and what it accepts was prepared with the cap it returns |
| `OutputBound.AcceptedRequestFitsTheWindow` | internal/runtime/ai_billing_gateway.go:628-694 | whatever the transport answers: the cap is positive, at most the snapshot maximum, exactly what the body leaves, and input bound plus cap fit the window |
| `OutputBound.AcceptedRequest` | internal/runtime/ai_billing_gateway.go:628-694 | every accepted request, inline, by file or with an unknown window: its body was prepared with the returned cap and is of the returned schema, and its input bound is the whole window of a file manifest or the bytes of an inline request |
| `OutputBound.FirstRequestDecides` | internal/runtime/ai_billing_gateway.go:628-694 | when a file manifest, a request with an unknown window or another schema is accepted, decided by the first prepared request |
| `OutputBound.ConvergesForConstantSize` | internal/infra/ai/types.go:57-65 | if the size does not depend on the cap it converges exactly when anything is left for output, to the obvious cap |
| `OutputBound.ConvergesExactlyWithoutFlip` | internal/runtime/ai_billing_gateway.go:654-693 | for bodies that spell the cap it converges exactly when room is left and the cap does not flip across a power of ten |
| `OutputBound.FlipExample` | internal/runtime/ai_billing_gateway.go:691-693 | a concrete cap that alternates between 999 and 1000 for ever |
| `LeaseLock.TokensIncrease` | internal/infra/redislock/redislock.go:18-26 | over all time the fencing tokens handed out for a key strictly increase, one by one |
| `LeaseLock.AcquireOutcome` | internal/infra/redislock/redislock.go:72-88 | a key is acquired exactly while no lease on it is live, with the next token, and lives for its time to live to the millisecond |
| `LeaseLock.RenewOutcome` | internal/infra/redislock/redislock.go:90-106 | a renewal succeeds exactly for the live lease and moves its end |
| `LeaseLock.ReleaseOutcome` | internal/infra/redislock/redislock.go:108-120 | a release succeeds exactly for the live lease and leaves other keys alone; its key is free at once and the next holder gets the next token |
| `LeaseLock.OnlyOneLeaseIsLive` | internal/infra/redislock/redislock.go:28-41 | renewal and release agree, and two leases of one key are never both live |
| `LeaseLock.ReleaseMeansUndisturbed` | internal/infra/redislock/redislock.go:108-120 | a lease that can be released was held in every state since it was acquired and nobody acquired the key in between |
| `LeaseLock.LostStaysLost` | internal/infra/redislock/redislock.go:28-41 | a lost lease is never live again |
| `LeaseLock.Server.AcquireLease` | internal/infra/redislock/redislock.go:72-88 | the acquire script on the server state |
| `LeaseLock.Server.RenewLease` | internal/infra/redislock/redislock.go:90-106 | the renew script on the server state |
| `LeaseLock.Server.ReleaseLease` | internal/infra/redislock/redislock.go:108-120 | the release script on the server state |
| `Scheduler.WrapTask` | internal/infra/scheduler/scheduler.go:261-347 | a job under its lease: skipped when held, renewed until a renewal fails, released and reported |
| `Scheduler.ReleasedJobRanAlone` | internal/infra/scheduler/scheduler.go:261-347 | a job whose release succeeded lost no renewal and was the only holder from its acquisition to its release |
| `Scheduler.UnansweredReleaseOutcome` | internal/infra/scheduler/scheduler.go:331-345 | without an answer to its release a job reports a loss exactly when one of its renewals came too late, and otherwise still holds its lease exactly when that lease has life left, whatever the others did |
| `Scheduler.AnsweredReleaseTells` | internal/infra/scheduler/scheduler.go:331-345 | with an answer to its release a job reports a loss exactly when it no longer held its lease, and no other release failure |
| `Scheduler.UnansweredReleaseKeepsTheLease` | internal/infra/scheduler/scheduler.go:331-345 | so a job that reports no loss, and whose lease only it used, still held it exactly when no more than a time to live had passed since its acquisition or last renewal |
| `Scheduler.UnansweredReleaseHidesALoss` | internal/infra/scheduler/scheduler.go:331-345 | a loss that goes unreported: the lease runs out and another holder runs inside the job |
| `CodeDelivery.ReadersSeeOnlyDelivered` | internal/module/auth/code_store.go:22-52 | Get and Consume never see a pending code; a consumed code is gone |
| `CodeDelivery.ReadableOnlyThroughCommit` | internal/module/auth/code_store.go:87-98 | a code becomes readable only through a plain set or a commit by the owner of a live lock |
| `CodeDelivery.ConsumesNeverExceedDeliveries` | internal/module/auth/code_store.go:33-52 | in every run successful consumes never outnumber commits and plain sets |
| `CodeDelivery.LostLockIsLostForEver` | internal/module/auth/code_store.go:54-115 | an owner whose lock is gone can never set, renew, commit or roll back again |
| `CodeDelivery.CommitMeansUndisturbed` | internal/module/auth/code_store.go:87-98 | a commit proves that the lock was held in every state and that every other delivery failed meanwhile |
| `CodeDelivery.DeadlineIsFixedAtSetPending` | internal/module/auth/code_store.go:61-78 | a stored code keeps the deadline it was stored with and is readable exactly from its commit to that deadline |
| `CodeDelivery.DeliveryRoundTrip` | internal/module/auth/code_store.go:183-272 | an undisturbed delivery: unreadable while pending, readable after the commit, consumable, lock free again |
| `CodeDelivery.AcquireOutcome` | internal/module/auth/code_store.go:54-59 | a delivery is acquired exactly while the lock is free, and then holds it for exactly its time to live |
| `CodeDelivery.RenewOutcome` | internal/module/auth/code_store.go:80-85 | a renewal succeeds exactly for the holder, who then holds the lock for exactly the new time to live |
| `CodeDelivery.SetOutcome` | internal/module/auth/code_store.go:147-152 | a plainly set code is readable for exactly its time to live, or for ever without one |
| `CodeDelivery.SetPendingOutcome` | internal/module/auth/code_store.go:61-78 | a code becomes pending exactly under the lock and before its deadline, and is read by nobody |
| `CodeDelivery.CommitOutcome` | internal/module/auth/code_store.go:87-98 | exact answers of a commit; a successful one makes the code readable until its deadline and frees the lock |
| `CodeDelivery.RollbackOutcome` | internal/module/auth/code_store.go:100-115 | exact answers of a rollback; a successful one removes its own pending code and frees the lock |
| `CodeDelivery.SlowDeliveryCommits` | internal/module/auth/code_store.go:80-98 | a delivery that renews often enough commits however long it takes, as long as its deadline has not passed |
| `CodeDelivery.CodeStore.GetCode` | internal/module/auth/code_store.go:22-31 | the get script |
| `CodeDelivery.CodeStore.ConsumeCode` | internal/module/auth/code_store.go:33-52 | the consume script |
| `CodeDelivery.CodeStore.SetPendingDelivery` | internal/module/auth/code_store.go:61-78 | the set-pending script |
| `CodeDelivery.CodeStore.RenewDelivery` | internal/module/auth/code_store.go:80-85 | the renew script |
| `CodeDelivery.CodeStore.CommitDelivery` | internal/module/auth/code_store.go:87-98 | the commit script |
| `CodeDelivery.CodeStore.RollbackDelivery` | internal/module/auth/code_store.go:100-115 | the rollback script |
| `SchemaBuilder.Builder.SchemaForModel` | internal/admincontract/openapi_models.go:182-193 | the walk terminates on cyclic types; on success every reference names a stored component, no name has two owners, required names are declared at every level, and the result equals the description of the type; it fails only for an indescribable struct or a shared name |
| `SchemaBuilder.Builder.SchemaForType` | internal/admincontract/openapi_models.go:195-257 | one type: equal to its description, with references that resolve or are under construction |
| `SchemaBuilder.Builder.ComponentReference` | internal/admincontract/openapi_models.go:259-281 | one component: stored once, its construction undone on an error |
| `SchemaBuilder.Builder.FieldsSchema` | internal/admincontract/openapi_models.go:305-338 | the fields of a struct, in order |
| `SchemaBuilder.Builder.AddFieldTo` | internal/admincontract/openapi_models.go:307-337 | one field: skipped, merged with its duplicates refused, or added as a property |
| `SchemaBuilder.Builder.AddSchema` | internal/admincontract/openapi_models.go:605-614 | an operation schema is added exactly when its name is free |
| `SchemaBuilder.ReferencesReachTheirStructs` | internal/admincontract/openapi_models.go:259-281 | every reference names a component and reaches the description of the struct that owns the name, unless somebody else stored a schema under it; when no such name is a component name every reference does |
| `SchemaMeaning.DescribedExactly` | internal/admincontract/openapi_models.go:195-257 | the schema of a type accepts exactly the JSON values the type has in its mode, by induction on the value: lists are arrays, maps are objects, byte slices base64 texts, pointers may be null, structs are closed objects with their required members |
| `SchemaMeaning.ModelAcceptsExactlyItsValues` | internal/admincontract/openapi_models.go:182-193 | the same for a finished builder, down to every component a schema refers to |
| `SchemaMeaning.NullIsForPointers` | internal/admincontract/openapi_models.go:195-257 | null is accepted exactly for pointers, interfaces and raw JSON |
| `SchemaMeaning.NamesCollideExactly` | internal/admincontract/openapi_models.go:270-287 | two structs share a component name exactly when they have one base name in one mode |
| `SchemaBuilder.DescribedIsDeclared` | internal/admincontract/openapi_models.go:302-341 | every description requires only properties it declares, at every level |
| `SchemaBuilder.PlainStructDescribed` | internal/admincontract/openapi_models.go:302-341 | a struct without embedded fields has exactly its visible fields as properties and requires exactly what its mode requires |
| `EventId.NewEventID` | internal/infra/realtime/envelope.go:175-200 | the id as computed: bytes from the low end, digits divided off from the low end |
| `EventId.IdRoundTrip` | internal/infra/realtime/envelope.go:175-212 | refused exactly for a time outside 48 bits; otherwise valid, and its digits decode to timestamp and random bytes |
| `EventId.IdsSortByTime` | internal/infra/realtime/envelope.go:175-200 | ids sort by millisecond whatever the random bytes, and by those within one |
| `EventId.OrderRevealsTime` | internal/infra/realtime/envelope.go:175-200 | the order of ids never contradicts their timestamps |
| `EventId.ValidExactlyForNumbers` | internal/infra/realtime/envelope.go:202-212 | the ids that pass the check are exactly the encodings of 128-bit numbers |
| `EventId.AlphabetLetters` | internal/infra/realtime/envelope.go:23 | the alphabet is the digits and the capital letters without I, L, O and U |
| `UsageSnapshot.SnapshotRoundTrip` | internal/infra/ai/types.go:107-150 | storing and loading gives back the provider bytes exactly, so complete raw usage stays complete; only invalid bytes cannot be stored |
| `UsageSnapshot.ProjectionIsCompact` | internal/infra/ai/types.go:123-138 | compacting a projection changes nothing, whatever the bytes |
| `UsageSnapshot.ProjectionIsSafe` | internal/infra/ai/types.go:123-138 | a projection holds no HTML character, and bytes without such characters and separators are only compacted |
| `UsageSnapshot.EscapesNameTheirCharacter` | internal/infra/ai/types.go:123-138 | every escape is an escape of the character it stands for |
| `UsageSnapshot.ReformattedCopyLoads` | internal/infra/ai/types.go:127-138 | a readable copy that was only spaced out still loads; any other difference is refused |
| `UsageSnapshot.RestoreHashVerified` | internal/infra/ai/types.go:152-178 | legacy bytes change only into bytes with the stored hash |
| `UsageSnapshot.LegacyChangesOnlyIntoHash` | internal/runtime/ai_billing_gateway.go:939-966 | a legacy snapshot is complete after loading exactly when its stored or restored bytes have the stored hash |
| `UsageSnapshot.LegacyRestoresCompactBytes` | internal/infra/ai/types.go:152-178 | compact bytes without backslashes are restored exactly |
| `UsageSnapshot.ValidateUsageItems` | internal/infra/ai/types.go:258-277 | accepts exactly non-empty lists of allowed items with different keys |
| `UsageSnapshot.KeysCollideExactly` | internal/infra/ai/types.go:271-274 | two allowed items share a key exactly when they are of one category and agree in unit and tier, or the tier of one continues the unit of the other across the separator |
| `UsageSnapshot.DifferentItemsRefusedExactly` | internal/infra/ai/types.go:258-277 | a list of different allowed items is refused exactly for such a pair |
| `UsageSnapshot.UndividedUnitsIdentify` | internal/infra/ai/types.go:258-277 | for units without the separator a list is valid exactly when its items are allowed and differ |
| `UsageSnapshot.KeysCanCollide` | internal/infra/ai/types.go:271-274 | a pair with a separator inside a unit that collides |
| `UsageSnapshot.Receiver.UnmarshalJSON` | internal/infra/ai/types.go:119-150 | loading assigns the whole snapshot or leaves the receiver alone |
| `AuditWriter.RunRequired` | internal/middleware/operation_log.go:152-260 | the recorder is called exactly once, before anything reaches the client, with the status and body a direct writer would have sent; the client then gets that response or only the internal error |
| `AuditWriter.ReleaseEqualsDirect` | internal/middleware/operation_log.go:464-492 | releasing what was staged equals writing directly, unless more than a MiB was written |
| `AuditWriter.StagedHoldsTheFirstMiB` | internal/middleware/operation_log.go:401-420 | the staged body is the first MiB of everything written, the overflow mark says whether there was more, the size counts all |
| `AuditWriter.RequiredAuditWriter.Write` | internal/middleware/operation_log.go:401-420 | one write: refused once sealed, otherwise counted and kept up to the limit |
| `AuditWriter.OverflowIsRefused` | internal/middleware/operation_log.go:238-250 | an overflowing response is withheld whole |
| `BundlePublish.WriteAtomic` | internal/admincontract/bundle.go:151-207 | at every point, under any failures, a complete old bundle is at the output or backup path or the complete new one at the output; each outcome says which |
| `BundlePublish.Swap` | internal/admincontract/bundle.go:182-206 | the renames: a failed publication whose restore works leaves the old bundle at the output |
| `BundlePublish.StageFiles` | internal/admincontract/bundle.go:171-181 | on success the staged directory holds exactly the files of the bundle |
| `BundlePublish.NamesStayInside` | internal/admincontract/bundle.go:272-276 | a cleaned name is allowed exactly when its first segment is one of its own |
| `BundlePublish.Check` | internal/admincontract/bundle.go:209-255 | accepts exactly the files of the bundle |
| `BundlePublish.PublishThenCheck` | internal/admincontract/bundle.go:151-255 | a publication that reports success is accepted by the check |
| `Lifecycle.EveryCloserRunsExactlyOnce` | internal/runtime/api.go:258-398 | in every interleaving of Start with any number of Shutdown calls no close function runs twice, and once all have returned each produced one has run exactly once |
| `Lifecycle.ShutdownAloneRunsInReverse` | internal/runtime/cleanup.go:49-77 | without a race a Shutdown runs everything produced, last produced first |
| `Lifecycle.Cleanup.Add` | internal/runtime/cleanup.go:34-47 | registration is refused exactly once closed |
| `Lifecycle.Cleanup.Close` | internal/runtime/cleanup.go:49-77 | the first Close runs all entries in reverse, later ones nothing |
| `Lifecycle.ApiRuntime.Start` | internal/runtime/api.go:258-332 | an undisturbed Start leaves every close function registered or has run all of them in reverse |
| `Lifecycle.ApiRuntime.Shutdown` | internal/runtime/api.go:334-349 | an undisturbed Shutdown runs what is registered in reverse |
| `HeadingStack.StackHoldsOpenHeadings` | internal/infra/documentparser/markdown.go:49-59 | the stack is as deep as the last heading, and slot i is the latest heading of level i that no shallower one closed |
| `HeadingStack.HeadingOpens` | internal/infra/documentparser/markdown.go:49-59 | what one more heading or body text does to the stack in each format |
| `HeadingStack.CompactConcat` | internal/infra/documentparser/markdown.go:195-203 | a path lists the headings of its parts in order |
| `HeadingStack.EmittedAt` | internal/infra/documentparser/markdown.go:41-103 | every item with text yields the block at its place, under the headings open at it |
| `HeadingStack.EmittedFrom` | internal/infra/documentparser/markdown.go:41-103 | and there is no other block |
| `HeadingStack.ParseItems` | internal/infra/documentparser/markdown.go:41-103 | parsing succeeds exactly when text was found within the limits; blocks are numbered from 0 and keep the path they were given |
| `HeadingStack.BlockCollector.Add` | internal/infra/documentparser/limits.go:115-139 | adds a block with its own copy of the path exactly within the limits |
| `HeadingStack.Headings.Open` | internal/infra/documentparser/docx.go:128-136 | truncates, pads and appends in the reused slice |
| `HeadingStack.Headings.CompactPath` | internal/infra/documentparser/markdown.go:195-203 | the non-empty headings in a slice of their own |
| `Utf16Text.DecodeText` | internal/infra/documentparser/txt.go:45-88 | the decoder with its skipping index equals the specification |
| `Utf16Text.AcceptsExactlyUtf16` | internal/infra/documentparser/txt.go:45-76 | marked input is accepted exactly when it is the UTF-16 encoding of code points other than NUL, which are returned |
| `Utf16Text.DecodesDocument` | internal/infra/documentparser/txt.go:45-76 | decoding inverts encoding in both byte orders; NUL is refused as binary |
| `Utf16Text.AcceptsExactlyUtf8` | internal/infra/documentparser/txt.go:77-88 | input without a UTF-16 mark is accepted exactly when it is valid UTF-8 without NUL, and given back without its UTF-8 mark; each refusal has its own condition |
| `Utf16Text.DecodesUtf8` | internal/infra/documentparser/txt.go:77-88 | a UTF-8 text comes back with and without a mark |
| `Utf16Text.KnownDocuments` | internal/infra/documentparser/txt.go:45-76 | concrete documents byte by byte, in both orders and with a surrogate pair |

## Left out

- Stored JSON evidence of attempts (prepared request, quote, context plan) is taken as readable and identified by its hash; only
  stored usage may be unreadable. Complete usage stands for complete usage with matching raw bytes, which the outcome check
  demands before it is stored.
- An absent wallet is an empty one; owner mismatches between wallet, hold and run, and the ledger summary text, are not modelled.
- Claims, renewals, retries, cancel requests and orphan handling of reply commands are one step that may change a command that has
  not ended arbitrarily, except for its attempt limit and a cancel request once made.
- ChatVerdicts.CanceledRunSettles: the stop probe, which reads a stored request before a provider may report a canceled outcome,
  is a hypothesis about the run.
- Pricing rules: the pricer is a parameter that may answer anything; the checks on its answer are modelled.
- Run events, dashboard projections, realtime delivery, delivery chunks, memory and index hand-offs after a settlement.
- Error codes and localized messages beyond the ones later decisions read; durations and timestamps written to rows.
- Image settlement models the published files as one output text, and the lease as held or not at one instant per execution:
  a lease that expires in the middle of an execution is a step of `TaskSafety.Take`, not of `TaskSafety.Rerun`.
- TaskSafety.OneRerunEndsTheTask: assumes that a provider of a job never reports a canceled outcome, that a failure carries no
  candidate and that an image success carries one that decodes, as the job providers are written; the wallet may change only
  between executions.
- Attempt evidence of image inputs (`safeImageInputUpperBound`), object storage and attachment loading.
- SchemaBuilder.Builder.SchemaForModel: the order of required names and of properties, validation keywords inside a property
  schema, and query parameters are not modelled; embedding is assumed acyclic, and a field's validation
  tokens either apply or not; an operation may take a component's name before the walk needs it
  (`SchemaBuilder.ReferencesReachTheirStructs` states when it does not).
- SchemaMeaning.DescribedExactly: validation keywords are not part of a schema's meaning, the date-time and base64 formats are
  parameters, slices and maps are taken as present, and of two fields of one struct with the same name the last one counts, where
  Go's encoding drops both.
- Scheduler.WrapTask: a scheduler without a lease store simply runs its job; trimming of names, metrics and logs are left out, and
  the goroutine that renews is a sequence of ticks between the commands of others.
- CodeDelivery: one code key with its lock key; the generation of owners is fresh by assumption where a statement says so.
- UsageSnapshot: JSON parsing is reduced to white space, strings and escapes; base64 of the exact copy is the identity.
- AuditWriter.RunRequired: a missing recorder, hijacking and close notification are left out; the connection must be untouched
  when the middleware is entered.
- BundlePublish.WriteAtomic: one publisher at a time; artifact generation is left out, and a bundle name is a cleaned flat key:
  names are not normalized, and two names where one is a directory of the other are not distinguished.
- Lifecycle: health reports and contexts are left out; a close function is an entry in a journal.
- HeadingStack.ParseItems: Markdown and DOCX parsing, style names and locators are left out; items arrive as headings and texts
  with their trimmed text, and MaxParagraphs counts items.
- Utf16Text.DecodeText: UTF-8 validity is a parameter and UTF-8 input is kept as bytes.
- Route tables, configuration, telemetry, HTTP, WebSocket, GORM and SQL text, `providers.go` and `worker.go`: they would add only
  easy members.
