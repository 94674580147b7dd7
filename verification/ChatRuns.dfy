/** Every run of any number of workers on one paid chat run: transactions, provider calls, crashes, lease changes,
    cancel requests and other users of the same wallet interleave in any order. */
module ChatRuns {
  import opened Common
  import opened Wallet
  import opened ChatRows
  import opened ChatDecision
  import opened ChatTransactions
  import opened ChatSettlement

  /** Where a worker is between two of its steps; a crash forgets it. */
  datatype Worker =
    | Idle
    | Chosen(no: nat, recover: bool)
    | Holding(no: nat, evidence: Evidence)
    | MayCall(no: nat, evidence: Evidence)
    | Called(no: nat, evidence: Evidence)

  datatype ProviderCall = ProviderCall(no: nat, evidence: Evidence)

  datatype System = System(db: ChatDb, workers: map<nat, Worker>, calls: seq<ProviderCall>)

  datatype Step =
    | Look(w: nat, toolInput: bool, guardRefuses: bool)
    | Prepare(w: nat, lease: Lease, now: int, request: nat, callMax: int)
    | Dispatch(w: nat, lease: Lease, now: int)
    | CallProvider(w: nat)
    | Record(w: nat, outcome: Outcome)
    | MarkFailure(lease: Lease, marker: Marker)
    | SettleRun
    | CommandChanges(command: CommandRow, message: Option<Message>, conversationDeleted: bool, prefixReadable: bool, nextId: nat)
    | WalletElsewhere(op: Op)
    | Crash(w: nat)

  function WorkerOf(s: System, w: nat): Worker {
    if w in s.workers then s.workers[w] else Idle
  }

  function SetWorker(s: System, w: nat, worker: Worker): System {
    s.(workers := s.workers[w := worker])
  }

  predicate Unended(state: CommandState) {
    state == Pending || state == Claimed || state == Running
  }

  /** Commands are claimed, renewed, canceled, retried and ended by other components. Each of them finds the command in a state
      that has not ended, keeps its attempt limit and never takes a cancel request back; none looks at the run. */
  predicate CommandChangeAllowed(db: ChatDb, command: CommandRow, nextId: nat) {
    && (command != db.command ==> Unended(db.command.state))
    && command.maxAttempts == db.command.maxAttempts
    && (db.command.cancelRequested ==> command.cancelRequested)
    && nextId >= db.nextId
  }

  function StepLook(s: System, st: Step): System
    requires st.Look?
  {
    match Choose(s.db.command, s.db.attempts, st.toolInput, st.guardRefuses)
    case SendAttempt(no, recover) => SetWorker(s, st.w, Chosen(no, recover))
    case _ => SetWorker(s, st.w, Idle)
  }

  function StepPrepare(pricer: Pricer, s: System, st: Step): System
    requires st.Prepare?
  {
    var worker := WorkerOf(s, st.w);
    if !worker.Chosen? then s
    else
      var prepared := if worker.recover then PrepareRecovered(pricer, s.db, st.lease, worker.no)
                      else PrepareNew(pricer, s.db, st.lease, st.now, worker.no, st.request, st.callMax);
      match prepared
      case Err(_) => SetWorker(s, st.w, Idle)
      case Ok((db, Refused)) => SetWorker(s, st.w, Idle).(db := db)
      case Ok((db, Ready(evidence))) => SetWorker(s, st.w, Holding(worker.no, evidence)).(db := db)
  }

  function StepDispatch(pricer: Pricer, s: System, st: Step): System
    requires st.Dispatch?
  {
    var worker := WorkerOf(s, st.w);
    if !worker.Holding? then s
    else
      match MarkDispatched(pricer, s.db, st.lease, st.now, worker.no, worker.evidence)
      case Err(_) => SetWorker(s, st.w, Idle)
      case Ok(db) => SetWorker(s, st.w, MayCall(worker.no, worker.evidence)).(db := db)
  }

  function StepCall(s: System, w: nat): System {
    var worker := WorkerOf(s, w);
    if worker.MayCall? then
      SetWorker(s, w, Called(worker.no, worker.evidence)).(calls := s.calls + [ProviderCall(worker.no, worker.evidence)])
    else s
  }

  function StepRecord(s: System, st: Step): System
    requires st.Record?
  {
    var worker := WorkerOf(s, st.w);
    if !worker.Called? then s
    else
      match RecordOutcome(s.db, worker.no, worker.evidence, st.outcome)
      case Err(_) => SetWorker(s, st.w, Idle)
      case Ok(db) => SetWorker(s, st.w, Idle).(db := db)
  }

  /** One step; a step the worker cannot take, or a transaction that fails, changes no row. */
  function Take(pricer: Pricer, s: System, st: Step): System {
    match st
    case Look(_, _, _) => StepLook(s, st)
    case Prepare(_, _, _, _, _) => StepPrepare(pricer, s, st)
    case Dispatch(_, _, _) => StepDispatch(pricer, s, st)
    case CallProvider(w) => StepCall(s, w)
    case Record(_, _) => StepRecord(s, st)
    case MarkFailure(lease, marker) =>
      (match MarkTrigger(s.db, lease, marker) case Err(_) => s case Ok(db) => s.(db := db))
    case SettleRun => (match Settle(pricer, s.db) case Err(_) => s case Ok((db, _)) => s.(db := db))
    case CommandChanges(command, message, deleted, readable, nextId) =>
      if CommandChangeAllowed(s.db, command, nextId) then
        s.(db := s.db.(command := command, message := message, conversationDeleted := deleted,
          prefixReadable := readable, nextId := nextId))
      else s
    case WalletElsewhere(op) =>
      if !op.DoCredit? && op.runId == s.db.run.id then s else s.(db := s.db.(book := Apply(s.db.book, op)))
    case Crash(w) => SetWorker(s, w, Idle)
  }

  function Execute(pricer: Pricer, s: System, steps: seq<Step>): System
    decreases |steps|
  {
    if steps == [] then s else Execute(pricer, Take(pricer, s, steps[0]), steps[1..])
  }

  // ---------- the invariant ----------

  /** A worker may go past this attempt: it failed, or it asked for tools with complete usage. */
  predicate MayContinue(a: AttemptRow) {
    a.state == Failed || (a.state == Succeeded && a.candidate == Some(ToolCalls) && a.usage.Complete?)
  }

  /** Numbers are 1, 2, 3, ... within the limit, and every attempt but the latest was one to continue after. */
  ghost predicate AttemptsInOrder(db: ChatDb) {
    && (forall i :: 0 <= i < |db.attempts| ==> db.attempts[i].no == i + 1)
    && (forall i :: 0 <= i < |db.attempts| ==> db.attempts[i].id < db.nextId)
    && (forall i, j :: 0 <= i < j < |db.attempts| ==> db.attempts[i].id != db.attempts[j].id)
    && (db.command.maxAttempts > 0 ==> |db.attempts| <= db.command.maxAttempts)
    && (forall i :: 0 <= i < |db.attempts| - 1 ==> db.attempts[i].state == Failed || db.attempts[i].state == Succeeded)
    && (OpenBilling(db.run) ==> forall i :: 0 <= i < |db.attempts| - 1 ==> MayContinue(db.attempts[i]))
  }

  /** While a run is open its hold, its charge and every quote agree; once it is not, the replay branch accepts it. */
  ghost predicate MoneyInOrder(db: ChatDb) {
    && Valid(db.book)
    && db.charge.runId == db.run.id && db.charge.userId == db.run.userId
    && if OpenBilling(db.run) then
         var hold := FindHold(db.book.holds, db.run.id);
         && db.run.status == RunRunning && db.charge.status == ChargeOpen && !db.charge.finalized
         && db.charge.actual == 0 && db.charge.items == []
         && (db.run.billing == BillingPending ==> hold.None? && db.charge.held == 0 && db.attempts == [])
         && (db.run.billing == BillingHeld ==>
               hold.Some? && hold.value.status == HoldActive && hold.value.captured == 0
                 && hold.value.held == db.charge.held && db.charge.held > 0)
         && (forall i :: 0 <= i < |db.attempts| ==> db.attempts[i].evidence.quote.target <= db.charge.held)
       else
         TerminalBilling(db) && ReplayAccepted(db) && db.charge.actual <= db.charge.held
  }

  /** This number has left the prepared state with this evidence. */
  ghost predicate SentWith(db: ChatDb, no: nat, evidence: Evidence) {
    1 <= no <= |db.attempts| && db.attempts[no - 1].state != Prepared && db.attempts[no - 1].evidence == evidence
  }

  ghost predicate WorkerInOrder(s: System, w: nat) {
    match WorkerOf(s, w)
    case Idle => true
    case Chosen(no, recover) =>
      && (s.db.command.maxAttempts > 0 ==> no <= s.db.command.maxAttempts)
      && (!recover && no > 1 ==> no - 1 <= |s.db.attempts| && (OpenBilling(s.db.run) ==> MayContinue(s.db.attempts[no - 2])))
    case Holding(no, evidence) => true
    case MayCall(no, evidence) =>
      && SentWith(s.db, no, evidence)
      && (forall k :: 0 <= k < |s.calls| ==> s.calls[k].no != no)
    case Called(no, evidence) => ProviderCall(no, evidence) in s.calls
  }

  ghost predicate CallsInOrder(s: System) {
    && (forall k :: 0 <= k < |s.calls| ==> SentWith(s.db, s.calls[k].no, s.calls[k].evidence))
    && (forall j, k :: 0 <= j < k < |s.calls| ==> s.calls[j].no != s.calls[k].no)
  }

  /** No two workers may call the provider for the same number. */
  ghost predicate OneCaller(s: System) {
    forall v: nat, w: nat :: v != w && WorkerOf(s, v).MayCall? && WorkerOf(s, w).MayCall? ==> WorkerOf(s, v).no != WorkerOf(s, w).no
  }

  ghost predicate InOrder(s: System) {
    && AttemptsInOrder(s.db) && MoneyInOrder(s.db) && CallsInOrder(s) && OneCaller(s)
    && forall w: nat :: WorkerInOrder(s, w)
  }

  /** A newly accepted run: nothing attempted, nothing held, no worker has looked at it. */
  ghost predicate Fresh(s: System) {
    && s.workers == map[] && s.calls == [] && s.db.attempts == []
    && Valid(s.db.book) && FindHold(s.db.book.holds, s.db.run.id).None?
    && s.db.run.status == RunRunning && s.db.run.billing == BillingPending && s.db.run.reason == PendingReason
    && s.db.charge == ChargeRow(s.db.run.id, s.db.run.userId, 0, 0, ChargeOpen, false, [])
  }

  /** What any single row change may do to the attempts. */
  ghost predicate Advances(before: ChatDb, after: ChatDb) {
    && |before.attempts| <= |after.attempts| <= |before.attempts| + 1
    && (forall i :: 0 <= i < |before.attempts| ==> RowAdvances(before, after, i))
    && (|after.attempts| > |before.attempts| ==>
          && OpenBilling(before.run)
          && Last(after.attempts).state == Prepared
          && (before.attempts == [] || MayContinue(Last(before.attempts))))
    && (!OpenBilling(before.run) ==> !OpenBilling(after.run) && after.attempts == before.attempts && after.charge == before.charge)
    && before.charge.held <= after.charge.held
  }

  ghost predicate RowAdvances(before: ChatDb, after: ChatDb, i: nat)
    requires i < |before.attempts| && i < |after.attempts|
  {
    var a, b := before.attempts[i], after.attempts[i];
    && b.no == a.no && b.id == a.id && b.evidence == a.evidence
    && (a.state != Prepared ==> b.state != Prepared)
    && (a.state == Prepared ==> b.state == Prepared || b.state == Dispatched || b.state == Canceled)
    && (Terminal(a.state) ==> b == a || (!OpenBilling(after.run) && b == a.(candidate := None)))
  }

  // ---------- locating rows ----------

  lemma {:induction false} FindInOrder(attempts: seq<AttemptRow>, no: nat)
    requires forall i :: 0 <= i < |attempts| ==> attempts[i].no == i + 1
    ensures MaxNo(attempts) == |attempts|
    ensures FindAttempt(attempts, no) == if 1 <= no <= |attempts| then Some(no - 1) else None
  {
    if attempts != [] {
      FindInOrder(attempts[..|attempts| - 1], no);
    }
  }

  // ---------- each transaction ----------

  /** Every committed reservation leaves charge and hold at the target, which is never below the earlier one. */
  lemma ReservationAgrees(db: ChatDb, target: int)
    requires Valid(db.book) && ReserveOrTopUp(db, target).Ok?
    ensures var db' := ReserveOrTopUp(db, target).value;
            var hold := FindHold(db'.book.holds, db.run.id);
            && db' == db.(book := db'.book, run := db'.run, charge := db'.charge)
            && db'.run == db.run.(billing := BillingHeld, reason := HeldReason)
            && db'.charge == db.charge.(held := target)
            && Valid(db'.book) && SameOtherHolds(db.book, db'.book, db.run.id)
            && hold.Some? && hold.value.status == HoldActive && hold.value.captured == 0
            && hold.value.held == db'.charge.held == target
            && target >= db.charge.held && target > 0
            && db'.book.balance == db.book.balance
  {
    ReserveKeepsValid(db.book, db.run.id, target);
    var book := Reserve(db.book, db.run.id, target).value.0;
    HoldFacts(book, db.run.id);
  }

  /** While the run is open, a reservation commits exactly when its target is no smaller than what is held
      and the wallet can cover the difference. */
  lemma ReservationOutcome(db: ChatDb, target: int)
    requires MoneyInOrder(db) && OpenBilling(db.run) && target > 0
    ensures ReserveOrTopUp(db, target).Ok? <==>
              db.charge.held <= target && target - db.charge.held <= db.book.balance - db.book.held
  {
    ReserveOutcome(db.book, db.run.id, target);
    if Reserve(db.book, db.run.id, target).Ok? { ReserveKeepsValid(db.book, db.run.id, target); }
  }

  function NewRow(db: ChatDb, evidence: Evidence): AttemptRow {
    AttemptRow(db.nextId, |db.attempts| + 1, evidence, Prepared, NotDispatched, Unavailable, None, None, None)
  }

  lemma RowsWithNewRow(db: ChatDb, evidence: Evidence)
    requires AttemptsInOrder(db) && (db.command.maxAttempts > 0 ==> |db.attempts| < db.command.maxAttempts)
    requires db.attempts != [] ==> MayContinue(Last(db.attempts))
    ensures AttemptsInOrder(db.(attempts := db.attempts + [NewRow(db, evidence)], nextId := db.nextId + 1))
  {
    var rows := db.attempts + [NewRow(db, evidence)];
    assert forall i :: 0 <= i < |db.attempts| ==> rows[i] == db.attempts[i];
  }

  lemma AdvancesWithNewRow(db: ChatDb, evidence: Evidence)
    requires OpenBilling(db.run) && (db.attempts != [] ==> MayContinue(Last(db.attempts)))
    ensures Advances(db, db.(attempts := db.attempts + [NewRow(db, evidence)], nextId := db.nextId + 1))
  {
  }

  lemma MoneyWithNewRow(db: ChatDb, evidence: Evidence)
    requires MoneyInOrder(db) && db.run.billing == BillingHeld && evidence.quote.target <= db.charge.held
    ensures MoneyInOrder(db.(attempts := db.attempts + [NewRow(db, evidence)], nextId := db.nextId + 1))
  {
  }

  lemma PutIsNewRow(db: ChatDb, lease: Lease, now: int, no: nat, evidence: Evidence)
    requires AttemptsInOrder(db) && PutPrepared(db, lease, now, no, evidence).Ok?
    ensures var db' := PutPrepared(db, lease, now, no, evidence).value.0;
            db' == db || (no == |db.attempts| + 1 && db' == db.(attempts := db.attempts + [NewRow(db, evidence)], nextId := db.nextId + 1))
  {
    FindInOrder(db.attempts, no);
  }

  lemma PutInOrder(db: ChatDb, lease: Lease, now: int, no: nat, evidence: Evidence)
    requires AttemptsInOrder(db) && MoneyInOrder(db) && db.run.billing == BillingHeld && evidence.quote.target <= db.charge.held
    requires db.command.maxAttempts > 0 ==> no <= db.command.maxAttempts
    requires no > 1 ==> no - 1 <= |db.attempts| && MayContinue(db.attempts[no - 2])
    requires PutPrepared(db, lease, now, no, evidence).Ok?
    ensures var (db', p) := PutPrepared(db, lease, now, no, evidence).value;
            AttemptsInOrder(db') && MoneyInOrder(db') && Advances(db, db')
            && db' == db.(attempts := db'.attempts, nextId := db'.nextId)
  {
    PutIsNewRow(db, lease, now, no, evidence);
    if PutPrepared(db, lease, now, no, evidence).value.0 != db {
      RowsWithNewRow(db, evidence);
      AdvancesWithNewRow(db, evidence);
      MoneyWithNewRow(db, evidence);
    }
  }

  lemma ReservedInOrder(db: ChatDb, target: int)
    requires AttemptsInOrder(db) && MoneyInOrder(db) && ReserveOrTopUp(db, target).Ok?
    ensures var db' := ReserveOrTopUp(db, target).value;
            AttemptsInOrder(db') && MoneyInOrder(db') && Advances(db, db') && OpenBilling(db.run)
  {
    ReservationAgrees(db, target);
  }

  /** A committed preparation is a recorded refusal, or a reservation followed by at most one new row. */
  lemma PreparedFrom(pricer: Pricer, db: ChatDb, lease: Lease, now: int, no: nat, request: nat, callMax: int)
    returns (refused: bool, target: int, evidence: Evidence, put: bool)
    requires PrepareNew(pricer, db, lease, now, no, request, callMax).Ok?
    ensures RunAndChargeLockable(db) && PriorUnits(pricer, db, no).Ok?
    ensures var prior := PriorUnits(pricer, db, no).value;
            && target == Max(db.charge.held, prior + callMax) && evidence == Evidence(request, Quote(callMax, prior, prior + callMax))
            && PrepareNew(pricer, db, lease, now, no, request, callMax).value.1 == if refused then Refused else Ready(evidence)
    ensures var db' := PrepareNew(pricer, db, lease, now, no, request, callMax).value.0;
            if refused then db' == db.(command := db'.command) && db'.command == db.command.(marker := db'.command.marker)
            else
              && ReserveOrTopUp(db, target).Ok? && evidence.quote.target <= target
              && var reserved := ReserveOrTopUp(db, target).value;
                 if put then PutPrepared(reserved, lease, now, no, evidence).Ok?
                   && db' == PutPrepared(reserved, lease, now, no, evidence).value.0
                 else db' == reserved
  {
    var prior := PriorUnits(pricer, db, no).value;
    target := Max(db.charge.held, prior + callMax);
    evidence := Evidence(request, Quote(callMax, prior, prior + callMax));
    var reservation := ReserveOrTopUp(db, target);
    refused := reservation.Err?;
    var row := FindAttempt(db.attempts, no);
    put := row.None? || db.attempts[row.value].state != Prepared;
    if refused {
      assert PrepareNew(pricer, db, lease, now, no, request, callMax)
          == RecordRefusal(db, lease, if db.charge.held > 0 then TopUpInsufficientMarker else InitialInsufficientMarker);
    } else if put {
      assert PrepareNew(pricer, db, lease, now, no, request, callMax) == PutPrepared(reservation.value, lease, now, no, evidence);
    }
  }

  lemma AdvancesAfterReservation(db: ChatDb, reserved: ChatDb, after: ChatDb)
    requires Advances(db, reserved) && Advances(reserved, after) && reserved.attempts == db.attempts
    requires OpenBilling(db.run) && OpenBilling(reserved.run)
    ensures Advances(db, after)
  {
    forall i | 0 <= i < |db.attempts| ensures RowAdvances(db, after, i) {
      assert RowAdvances(db, reserved, i) && RowAdvances(reserved, after, i);
    }
  }

  lemma PreparedInOrder(pricer: Pricer, db: ChatDb, lease: Lease, now: int, no: nat, request: nat, callMax: int)
    requires AttemptsInOrder(db) && MoneyInOrder(db)
    requires db.command.maxAttempts > 0 ==> no <= db.command.maxAttempts
    requires no > 1 ==> no - 1 <= |db.attempts| && (OpenBilling(db.run) ==> MayContinue(db.attempts[no - 2]))
    requires PrepareNew(pricer, db, lease, now, no, request, callMax).Ok?
    ensures var (db', p) := PrepareNew(pricer, db, lease, now, no, request, callMax).value;
            AttemptsInOrder(db') && MoneyInOrder(db') && Advances(db, db') && db'.command.maxAttempts == db.command.maxAttempts
            && OpenBilling(db'.run)
  {
    var refused, target, evidence, put := PreparedFrom(pricer, db, lease, now, no, request, callMax);
    if !refused { PreparedAfterReservation(db, lease, now, no, target, evidence, put); }
  }

  lemma PreparedAfterReservation(db: ChatDb, lease: Lease, now: int, no: nat, target: int, evidence: Evidence, put: bool)
    requires AttemptsInOrder(db) && MoneyInOrder(db) && OpenBilling(db.run)
    requires db.command.maxAttempts > 0 ==> no <= db.command.maxAttempts
    requires no > 1 ==> no - 1 <= |db.attempts| && MayContinue(db.attempts[no - 2])
    requires ReserveOrTopUp(db, target).Ok? && evidence.quote.target <= target
    requires put ==> PutPrepared(ReserveOrTopUp(db, target).value, lease, now, no, evidence).Ok?
    ensures var reserved := ReserveOrTopUp(db, target).value;
            var db' := if put then PutPrepared(reserved, lease, now, no, evidence).value.0 else reserved;
            AttemptsInOrder(db') && MoneyInOrder(db') && Advances(db, db') && db'.command.maxAttempts == db.command.maxAttempts
            && OpenBilling(db'.run)
  {
    var reserved := ReserveOrTopUp(db, target).value;
    ReservationAgrees(db, target);
    ReservedInOrder(db, target);
    if put {
      PutInOrder(reserved, lease, now, no, evidence);
      AdvancesAfterReservation(db, reserved, PutPrepared(reserved, lease, now, no, evidence).value.0);
    }
  }

  lemma RecoveredInOrder(pricer: Pricer, db: ChatDb, lease: Lease, no: nat)
    requires AttemptsInOrder(db) && MoneyInOrder(db) && PrepareRecovered(pricer, db, lease, no).Ok?
    ensures var (db', p) := PrepareRecovered(pricer, db, lease, no).value;
            AttemptsInOrder(db') && MoneyInOrder(db') && Advances(db, db') && db'.command.maxAttempts == db.command.maxAttempts
            && OpenBilling(db'.run) && db'.attempts == db.attempts
  {
    if ReserveOrTopUp(db, db.charge.held).Ok? { ReservationAgrees(db, db.charge.held); }
  }

  lemma DispatchedInOrder(pricer: Pricer, db: ChatDb, lease: Lease, now: int, no: nat, evidence: Evidence)
    requires AttemptsInOrder(db) && MoneyInOrder(db) && MarkDispatched(pricer, db, lease, now, no, evidence).Ok?
    ensures var db' := MarkDispatched(pricer, db, lease, now, no, evidence).value;
            && AttemptsInOrder(db') && MoneyInOrder(db') && Advances(db, db') && db'.command == db.command && db'.run == db.run
            && 1 <= no <= |db.attempts| && db.attempts[no - 1].state == Prepared && SentWith(db', no, evidence)
            && Runnable(db.command, lease, now) && db.charge.held >= evidence.quote.target
  {
    FindInOrder(db.attempts, no);
  }

  /** Replacing one row's progress keeps the money in order. */
  lemma MoneyWithRow(db: ChatDb, i: nat, row: AttemptRow)
    requires MoneyInOrder(db) && OpenBilling(db.run) && i < |db.attempts| && row.evidence == db.attempts[i].evidence
    ensures MoneyInOrder(db.(attempts := db.attempts[i := row]))
  {
  }

  lemma RowsWithOutcome(db: ChatDb, i: nat, o: Outcome)
    requires AttemptsInOrder(db) && OpenBilling(db.run) && i < |db.attempts| && db.attempts[i].state == Dispatched
    ensures var db' := db.(attempts := db.attempts[i := WithOutcome(db.attempts[i], o)]);
            i == |db.attempts| - 1 && AttemptsInOrder(db') && (Terminal(o.state) ==> Advances(db, db'))
  {
  }

  lemma RecordedRow(db: ChatDb, no: nat, evidence: Evidence, o: Outcome)
    requires AttemptsInOrder(db) && RecordOutcome(db, no, evidence, o).Ok?
    ensures OpenBilling(db.run) && Terminal(o.state) && 1 <= no <= |db.attempts|
    ensures var db' := RecordOutcome(db, no, evidence, o).value;
            if db.attempts[no - 1].state == Dispatched
              then db' == db.(attempts := db.attempts[no - 1 := WithOutcome(db.attempts[no - 1], o)])
            else db' == db && OutcomeOf(db.attempts[no - 1]) == o
  {
    FindInOrder(db.attempts, no);
  }

  lemma RecordedInOrder(db: ChatDb, no: nat, evidence: Evidence, o: Outcome)
    requires AttemptsInOrder(db) && MoneyInOrder(db) && RecordOutcome(db, no, evidence, o).Ok?
    ensures var db' := RecordOutcome(db, no, evidence, o).value;
            && AttemptsInOrder(db') && MoneyInOrder(db') && Advances(db, db') && db'.command == db.command && db'.run == db.run
            && 1 <= no <= |db.attempts| && OutcomeOf(db'.attempts[no - 1]) == o
  {
    RecordedRow(db, no, evidence, o);
    if db.attempts[no - 1].state == Dispatched {
      MoneyWithRow(db, no - 1, WithOutcome(db.attempts[no - 1], o));
      RowsWithOutcome(db, no - 1, o);
    }
  }

  lemma ClosedInOrder(db: ChatDb, db': ChatDb)
    requires AttemptsInOrder(db) && OpenBilling(db.run) && !OpenBilling(db'.run)
    requires db'.attempts == ClearCandidates(Normalize(db.command, db.attempts))
    requires db'.command.maxAttempts == db.command.maxAttempts && db'.nextId >= db.nextId && db'.charge.held == db.charge.held
    ensures AttemptsInOrder(db') && Advances(db, db')
  {
  }

  lemma SettledInOrder(pricer: Pricer, db: ChatDb)
    requires AttemptsInOrder(db) && MoneyInOrder(db) && Settle(pricer, db).Ok?
    ensures var db' := Settle(pricer, db).value.0;
            AttemptsInOrder(db') && MoneyInOrder(db') && Advances(db, db') && db'.command.maxAttempts == db.command.maxAttempts
            && !OpenBilling(db'.run)
  {
    SettledOnce(pricer, db);
    if Settle(pricer, db).value.1 == Applied {
      var db' := Settle(pricer, db).value.0;
      var attempts, f, d := AppliedFrom(pricer, db);
      SettledMoneyRow(db.(attempts := attempts), db', f, d);
      SettledIds(db.(attempts := attempts), f, d);
      ClosedInOrder(db, db');
    }
  }

  lemma SettledIds(db: ChatDb, f: Facts, d: Decision)
    requires ApplyDecision(db, f, d).Ok?
    ensures ApplyDecision(db, f, d).value.nextId >= db.nextId
  {
  }

  lemma SettledMoneyRow(db: ChatDb, db': ChatDb, f: Facts, d: Decision)
    requires f.charge == db.charge && f.hold == FindHold(db.book.holds, db.run.id)
    requires MoneyFactsConsistent(f) && Coherent(f, d) && Settled(db, db', f, d)
    ensures db'.charge.actual <= db'.charge.held == db.charge.held
  {
  }

  /** The rest of a run only looks at its own hold in the book. */
  lemma MoneyWithBook(db: ChatDb, book: Book)
    requires MoneyInOrder(db) && Valid(book) && FindHold(book.holds, db.run.id) == FindHold(db.book.holds, db.run.id)
    ensures MoneyInOrder(db.(book := book))
  {
  }

  lemma HoldElsewhere(book: Book, op: Op, runId: nat)
    requires Valid(book) && (op.DoCredit? || op.runId != runId)
    ensures FindHold(Apply(book, op).holds, runId) == FindHold(book.holds, runId)
  {
    if op.DoCredit? {
      if Credit(book, op.rechargeId, op.amount).Ok? { CreditKeepsValid(book, op.rechargeId, op.amount); }
    } else {
      ApplyElsewhere(book, op, runId);
    }
  }

  lemma WalletElsewhereInOrder(db: ChatDb, op: Op)
    requires MoneyInOrder(db) && (op.DoCredit? || op.runId != db.run.id)
    ensures MoneyInOrder(db.(book := Apply(db.book, op)))
  {
    ApplyKeepsValid(db.book, op);
    HoldElsewhere(db.book, op, db.run.id);
    MoneyWithBook(db, Apply(db.book, op));
  }
}
