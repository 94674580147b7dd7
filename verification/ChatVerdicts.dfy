/** When an open chat run can be settled: the exact stored facts, for every state a run can reach. */
module ChatVerdicts {
  import opened Common
  import opened Wallet
  import opened ChatRows
  import opened ChatDecision
  import opened ChatTransactions
  import opened ChatSettlement
  import opened ChatRuns
  import ChatRecovery
  import ChatSafety

  // ---------- what every reachable run stores ----------

  /** While a run is open its attempts are consistent rows and its billing reason follows its billing status. */
  ghost predicate Readable(db: ChatDb) {
    OpenBilling(db.run) ==>
      && db.run.reason == (if db.run.billing == BillingPending then PendingReason else HeldReason)
      && forall i :: 0 <= i < |db.attempts| ==> AttemptConsistent(db.attempts[i])
  }

  lemma PreparedReadable(pricer: Pricer, db: ChatDb, lease: Lease, now: int, no: nat, request: nat, callMax: int)
    requires AttemptsInOrder(db) && MoneyInOrder(db) && Readable(db) && PrepareNew(pricer, db, lease, now, no, request, callMax).Ok?
    ensures Readable(PrepareNew(pricer, db, lease, now, no, request, callMax).value.0)
  {
    var refused, target, evidence, put := PreparedFrom(pricer, db, lease, now, no, request, callMax);
    if !refused {
      ReservationAgrees(db, target);
      var reserved := ReserveOrTopUp(db, target).value;
      assert Readable(reserved) && AttemptsInOrder(reserved);
      if put { PutReadable(reserved, lease, now, no, evidence); }
    }
  }

  lemma PutReadable(db: ChatDb, lease: Lease, now: int, no: nat, evidence: Evidence)
    requires AttemptsInOrder(db) && Readable(db) && PutPrepared(db, lease, now, no, evidence).Ok?
    ensures Readable(PutPrepared(db, lease, now, no, evidence).value.0)
  {
    PutIsNewRow(db, lease, now, no, evidence);
  }

  lemma RecoveredReadable(pricer: Pricer, db: ChatDb, lease: Lease, no: nat)
    requires MoneyInOrder(db) && Readable(db) && PrepareRecovered(pricer, db, lease, no).Ok?
    ensures Readable(PrepareRecovered(pricer, db, lease, no).value.0)
  {
    if ReserveOrTopUp(db, db.charge.held).Ok? { ReservationAgrees(db, db.charge.held); }
  }

  lemma PrepareStepReadable(pricer: Pricer, s: System, st: Step)
    requires InOrder(s) && Readable(s.db) && st.Prepare?
    ensures Readable(Take(pricer, s, st).db)
  {
    var worker := WorkerOf(s, st.w);
    if worker.Chosen? {
      var db := ChatSafety.PrepareShape(pricer, s, st);
      if worker.recover {
        if PrepareRecovered(pricer, s.db, st.lease, worker.no).Ok? { RecoveredReadable(pricer, s.db, st.lease, worker.no); }
      } else if PrepareNew(pricer, s.db, st.lease, st.now, worker.no, st.request, st.callMax).Ok? {
        PreparedReadable(pricer, s.db, st.lease, st.now, worker.no, st.request, st.callMax);
      }
    }
  }

  lemma RecordStepReadable(pricer: Pricer, s: System, st: Step)
    requires InOrder(s) && Readable(s.db) && st.Record?
    ensures Readable(StepRecord(s, st).db)
  {
    var worker := WorkerOf(s, st.w);
    if worker.Called? && RecordOutcome(s.db, worker.no, worker.evidence, st.outcome).Ok? {
      RecordedRow(s.db, worker.no, worker.evidence, st.outcome);
      assert OutcomeOf(WithOutcome(s.db.attempts[worker.no - 1], st.outcome)) == st.outcome;
    }
  }

  lemma DispatchStepReadable(pricer: Pricer, s: System, st: Step)
    requires Readable(s.db) && st.Dispatch?
    ensures Readable(StepDispatch(pricer, s, st).db)
  {
  }

  lemma SameAttempts(pricer: Pricer, s: System, st: Step)
    requires st.Look? || st.CallProvider? || st.MarkFailure? || st.CommandChanges? || st.WalletElsewhere? || st.Crash?
    ensures Take(pricer, s, st).db.attempts == s.db.attempts && Take(pricer, s, st).db.run == s.db.run
  {
  }

  lemma StepReadable(pricer: Pricer, s: System, st: Step)
    requires InOrder(s) && Readable(s.db)
    ensures Readable(Take(pricer, s, st).db)
  {
    match st {
      case Prepare(_, _, _, _, _) => PrepareStepReadable(pricer, s, st);
      case Dispatch(_, _, _) => DispatchStepReadable(pricer, s, st);
      case Record(_, _) => RecordStepReadable(pricer, s, st);
      case SettleRun => if Settle(pricer, s.db).Ok? { SettledInOrder(pricer, s.db); }
      case _ => SameAttempts(pricer, s, st);
    }
  }

  lemma {:induction false} RunReadable(pricer: Pricer, s: System, steps: seq<Step>)
    requires InOrder(s) && Readable(s.db)
    ensures InOrder(Execute(pricer, s, steps)) && Readable(Execute(pricer, s, steps).db)
    decreases |steps|
  {
    if steps != [] {
      ChatSafety.StepInOrder(pricer, s, steps[0]);
      StepReadable(pricer, s, steps[0]);
      RunReadable(pricer, Take(pricer, s, steps[0]), steps[1..]);
    }
  }

  // ---------- the facts a settlement can act on ----------

  /** No attempt is under way, or the settlement itself closes the one that is. */
  predicate LatestEnds(db: ChatDb) {
    db.attempts == [] ||
    match Last(db.attempts).state
    case Prepared => db.command.cancelRequested || db.command.marker == PreDispatchMarker
    case Dispatched => db.command.state == CommandOutcomeUnknown
    case _ => true
  }

  /** Nothing certainly reached the provider: an attempt given up as unknown does not count. */
  predicate NothingSent(db: ChatDb) {
    forall a :: a in db.attempts && a.dispatch == SentOut ==> a.state == Dispatched && db.command.state == CommandOutcomeUnknown
  }

  /** What the latest attempt alone decides. */
  predicate LatestDecides(db: ChatDb) {
    if db.attempts == [] then db.command.state == CommandFailed
    else
      var latest := Last(db.attempts);
      match latest.state
      case Succeeded => !(latest.candidate == Some(ToolCalls) && latest.usage.Complete?)
      case Failed => ChatRecovery.ProviderExhausted(db.command, latest)
      case OutcomeUnknown => true
      case Dispatched => true
      case _ => false
  }

  predicate Decidable(db: ChatDb) {
    && LatestEnds(db)
    && (db.command.cancelRequested ||
        match db.command.marker
        case PreDispatchMarker =>
          && NothingSent(db)
          && (db.attempts != [] && Terminal(Last(db.attempts).state) ==> Last(db.attempts).candidate.None?)
        case LocalMarker => db.run.billing == BillingHeld
        case TopUpInsufficientMarker => db.run.billing == BillingHeld
        case InitialInsufficientMarker => db.run.billing == BillingPending
        case _ => LatestDecides(db))
  }

  ghost predicate OpenRun(db: ChatDb) {
    AttemptsInOrder(db) && MoneyInOrder(db) && Readable(db) && OpenBilling(db.run)
  }

  /** A decision, or one that only the pricer refused. */
  predicate JudgedOrUnpriced(pricer: Pricer, db: ChatDb) {
    Judge(pricer, db).Ok? || Judge(pricer, db) == Err(PricingFailed)
  }

  lemma NormalizedRows(db: ChatDb)
    requires OpenRun(db)
    ensures var n := Normalize(db.command, db.attempts);
            && (forall i :: 0 <= i < |n| ==> AttemptConsistent(n[i]) && n[i].no == i + 1 && n[i].id == db.attempts[i].id)
            && (forall i :: 0 <= i < |n| - 1 ==> n[i] == db.attempts[i] && (n[i].state == Failed || n[i].state == Succeeded))
            && ReadAll(n) == n
            && (LatestEnds(db) <==> n == [] || Terminal(Last(n).state))
  {
    var n := Normalize(db.command, db.attempts);
    assert forall i :: 0 <= i < |n| ==> ReadUsage(n[i]) == n[i];
  }

  lemma FactsOfOpenRun(db: ChatDb)
    requires OpenRun(db)
    ensures var n := Normalize(db.command, db.attempts);
            match DeriveTrigger(db.command, n)
            case Err(e) => e == StillPending && BuildFacts(db, n) == Err(StillPending)
            case Ok(t) =>
              && BuildFacts(db, n).Ok?
              && var f := BuildFacts(db, n).value;
                 && f.trigger == t && f.attempts == n && f.run == db.run && f.charge == db.charge
                 && f.hold == FindHold(db.book.holds, db.run.id)
                 && (f.stopped.Some? ==> n != [] && f.stopped == Some(Last(n).id))
                 && f.candidate == (if n == [] || Last(n).candidate.None? then None else Some((Last(n).id, Last(n).candidate.value)))
  {
    NormalizedRows(db);
  }

  /** Which triggers the money and attempt checks let through. */
  predicate FactsAllow(db: ChatDb, n: seq<AttemptRow>, t: Trigger) {
    && (db.run.billing == BillingPending ==> t == InitialInsufficient || t == UserStopBeforeDispatch || t == PreDispatchFailed)
    && (t == InitialInsufficient ==> db.run.billing == BillingPending)
    && (t == ProviderFailed ==> n != [] && Last(n).state == Failed)
    && (t == PreDispatchFailed ==> n == [] || Last(n).candidate.None?)
  }

  lemma FactsCheck(db: ChatDb, f: Facts)
    requires OpenRun(db) && BuildFacts(db, Normalize(db.command, db.attempts)) == Ok(f)
    ensures MoneyFactsConsistent(f) && AttemptFactsConsistent(f) <==> FactsAllow(db, f.attempts, f.trigger)
  {
    NormalizedRows(db);
    FactsOfOpenRun(db);
    HoldFacts(db.book, db.run.id);
  }

  lemma UnpublishedPrices(pricer: Pricer, f: Facts, status: RunStatus)
    ensures var d := PriceOrUnbilled(pricer, f, status, false); d.Ok? || d == Err(PricingFailed)
  {
  }

  lemma OthersDecide(pricer: Pricer, f: Facts)
    requires f.trigger != Success && forall a :: a in f.attempts ==> !Intermediate(a)
    ensures Decide(pricer, f).Ok? || Decide(pricer, f) == Err(PricingFailed) <==>
              (f.trigger == PreDispatchFailed || f.trigger == UserStopBeforeDispatch ==>
                 forall a :: a in f.attempts ==> a.dispatch != SentOut)
  {
    UnpublishedPrices(pricer, f, RunCanceled);
    UnpublishedPrices(pricer, f, RunFailed);
  }

  /** A success publishes the candidate of the latest attempt, which is among those charged for. */
  lemma SuccessDecides(pricer: Pricer, f: Facts)
    requires f.trigger == Success && OnlySucceededOrFailed(f.attempts) && f.attempts != [] && Last(f.attempts).state == Succeeded
    requires Last(f.attempts).usage.Complete? ==> f.candidate.Some? && f.candidate.value.0 == Last(f.attempts).id
    ensures Decide(pricer, f).Ok? || Decide(pricer, f) == Err(PricingFailed)
  {
    assert Last(f.attempts) in f.attempts && Last(f.attempts) in ChargeableOf(f, f.attempts);
    assert !exists a :: a in f.attempts && Intermediate(a);
    PublishedPrices(pricer, f);
  }

  lemma PublishedPrices(pricer: Pricer, f: Facts)
    requires f.attempts != [] && Last(f.attempts) in ChargeableOf(f, f.attempts)
    requires Last(f.attempts).usage.Complete? ==> f.candidate.Some? && f.candidate.value.0 == Last(f.attempts).id
    ensures var d := PriceOrUnbilled(pricer, f, RunSuccess, true); d.Ok? || d == Err(PricingFailed)
  {
  }

  /** With consistent facts only an attempt under way, a failure before dispatch beside a sent attempt, or the pricer stands
      between the facts and a decision. */
  lemma FactsDecide(pricer: Pricer, db: ChatDb, f: Facts)
    requires OpenRun(db) && BuildFacts(db, Normalize(db.command, db.attempts)) == Ok(f)
    ensures Decide(pricer, f).Ok? || Decide(pricer, f) == Err(PricingFailed) <==>
              LatestEnds(db) && (f.trigger == PreDispatchFailed ==> NothingSent(db))
  {
    var n := f.attempts;
    FactsOfOpenRun(db);
    assert LatestEnds(db) <==> forall a :: a in n ==> !Intermediate(a) by { EndedRows(db); }
    if LatestEnds(db) && f.trigger == Success {
      SuccessFacts(db, f);
      SuccessDecides(pricer, f);
    } else if LatestEnds(db) {
      OthersDecide(pricer, f);
      if f.trigger == PreDispatchFailed { SentAfterNormalization(db); }
      if f.trigger == UserStopBeforeDispatch { StopBeforeDispatch(db.command, n); }
    }
  }

  lemma EndedRows(db: ChatDb)
    requires OpenRun(db)
    ensures LatestEnds(db) <==> forall a :: a in Normalize(db.command, db.attempts) ==> !Intermediate(a)
  {
    NormalizedRows(db);
    var n := Normalize(db.command, db.attempts);
    if n != [] { assert Last(n) in n; }
  }

  lemma SuccessFacts(db: ChatDb, f: Facts)
    requires OpenRun(db) && BuildFacts(db, Normalize(db.command, db.attempts)) == Ok(f) && f.trigger == Success
    ensures OnlySucceededOrFailed(f.attempts) && f.attempts != [] && Last(f.attempts).state == Succeeded
    ensures Last(f.attempts).usage.Complete? ==> f.candidate.Some? && f.candidate.value.0 == Last(f.attempts).id
  {
    NormalizedRows(db);
    FactsOfOpenRun(db);
    SuccessTrigger(db.command, f.attempts);
    assert Last(f.attempts) in f.attempts;
  }

  lemma StopBeforeDispatch(command: CommandRow, n: seq<AttemptRow>)
    requires DeriveTrigger(command, n) == Ok(UserStopBeforeDispatch)
    ensures forall a :: a in n ==> a.dispatch != SentOut
  {
  }

  lemma SentAfterNormalization(db: ChatDb)
    requires OpenRun(db) && LatestEnds(db)
    ensures NothingSent(db) <==> forall a :: a in Normalize(db.command, db.attempts) ==> a.dispatch != SentOut
  {
    var n := Normalize(db.command, db.attempts);
    forall i | 0 <= i < |n|
      ensures n[i].dispatch != SentOut <==>
                (db.attempts[i].dispatch != SentOut || (db.attempts[i].state == Dispatched && db.command.state == CommandOutcomeUnknown))
    {
      assert AttemptConsistent(db.attempts[i]);
    }
  }

  /** The settlement of an open run finds a decision, or only the pricer in its way, exactly when the stored facts are decidable. */
  lemma JudgedExactlyWhenDecidable(pricer: Pricer, db: ChatDb)
    requires OpenRun(db)
    ensures JudgedOrUnpriced(pricer, db) <==> Decidable(db)
  {
    var n := Normalize(db.command, db.attempts);
    FactsOfOpenRun(db);
    if DeriveTrigger(db.command, n).Ok? {
      var f := BuildFacts(db, n).value;
      FactsCheck(db, f);
      FactsDecide(pricer, db, f);
      TriggerMatches(db, f.trigger);
    } else {
      NoTrigger(db);
    }
  }

  predicate DecisiveMarker(marker: Marker) {
    marker == PreDispatchMarker || marker == LocalMarker || marker == InitialInsufficientMarker || marker == TopUpInsufficientMarker
  }

  lemma StopMatches(db: ChatDb, n: seq<AttemptRow>, t: Trigger)
    requires db.command.cancelRequested && DeriveTrigger(db.command, n) == Ok(t)
    requires MoneyInOrder(db) && OpenBilling(db.run) && n == Normalize(db.command, db.attempts)
    ensures FactsAllow(db, n, t) && t != PreDispatchFailed
  {
  }

  lemma MarkerMatches(db: ChatDb, n: seq<AttemptRow>, t: Trigger)
    requires !db.command.cancelRequested && DecisiveMarker(db.command.marker) && DeriveTrigger(db.command, n) == Ok(t)
    requires OpenBilling(db.run) && n == Normalize(db.command, db.attempts)
    requires db.attempts != [] ==> AttemptConsistent(Last(db.attempts))
    ensures LatestEnds(db) ==> (Decidable(db) <==> FactsAllow(db, n, t) && (t == PreDispatchFailed ==> NothingSent(db)))
  {
    match db.command.marker {
      case PreDispatchMarker =>
        assert LatestEnds(db) && db.attempts != [] && !Terminal(Last(db.attempts).state) ==> Last(n).candidate.None?;
      case _ =>
    }
  }

  lemma AttemptMatches(db: ChatDb, n: seq<AttemptRow>, t: Trigger)
    requires !db.command.cancelRequested && !DecisiveMarker(db.command.marker) && DeriveTrigger(db.command, n) == Ok(t)
    requires MoneyInOrder(db) && OpenBilling(db.run) && n == Normalize(db.command, db.attempts)
    ensures LatestEnds(db) ==> (Decidable(db) <==> FactsAllow(db, n, t) && (t == PreDispatchFailed ==> NothingSent(db)))
  {
  }

  lemma TriggerMatches(db: ChatDb, t: Trigger)
    requires OpenRun(db) && DeriveTrigger(db.command, Normalize(db.command, db.attempts)) == Ok(t)
    ensures Decidable(db) <==>
              FactsAllow(db, Normalize(db.command, db.attempts), t) && LatestEnds(db) && (t == PreDispatchFailed ==> NothingSent(db))
  {
    var n := Normalize(db.command, db.attempts);
    if db.command.cancelRequested { StopMatches(db, n, t); }
    else if DecisiveMarker(db.command.marker) { MarkerMatches(db, n, t); }
    else { AttemptMatches(db, n, t); }
  }

  lemma NoTrigger(db: ChatDb)
    requires OpenRun(db) && DeriveTrigger(db.command, Normalize(db.command, db.attempts)).Err?
    ensures !Decidable(db)
  {
    NormalizedRows(db);
  }

  /** So in every state any run reaches while it is open. */
  lemma EveryOpenRunIsJudgedExactlyWhenDecidable(pricer: Pricer, start: System, steps: seq<Step>)
    requires Fresh(start)
    ensures var db := Execute(pricer, start, steps).db; OpenBilling(db.run) ==> (JudgedOrUnpriced(pricer, db) <==> Decidable(db))
  {
    ChatSafety.FreshInOrder(start);
    RunReadable(pricer, start, steps);
    var db := Execute(pricer, start, steps).db;
    if OpenBilling(db.run) { JudgedExactlyWhenDecidable(pricer, db); }
  }

  // ---------- a context guard that refuses ----------

  /** A context-guard failure is stored under a code the trigger does not read, so the run settles exactly where the attempts
      decide without it: nothing was attempted and the command failed, the latest attempt is an answer or an unusable success,
      its outcome is unknown, or it failed with no number left. */
  lemma ContextFailureSettlesExactly(pricer: Pricer, db: ChatDb)
    requires OpenRun(db) && db.command.marker == ContextMarker && !db.command.cancelRequested
    ensures JudgedOrUnpriced(pricer, db) <==>
              if db.attempts == [] then db.command.state == CommandFailed
              else
                var latest := Last(db.attempts);
                || latest.state == OutcomeUnknown
                || (latest.state == Succeeded && !MayContinue(latest))
                || (latest.state == Failed && 0 < db.command.maxAttempts == latest.no)
                || (latest.state == Dispatched && db.command.state == CommandOutcomeUnknown)
  {
    JudgedExactlyWhenDecidable(pricer, db);
  }

  // ---------- a canceled attempt ----------

  /** A canceled latest attempt settles exactly with a stored stop request or a marker that decides by itself. */
  lemma CanceledSettlesExactly(pricer: Pricer, db: ChatDb)
    requires OpenRun(db) && db.attempts != [] && Last(db.attempts).state == Canceled
    ensures JudgedOrUnpriced(pricer, db) <==>
              || db.command.cancelRequested
              || db.command.marker == LocalMarker || db.command.marker == TopUpInsufficientMarker
              || (db.command.marker == PreDispatchMarker && Last(db.attempts).candidate.None?
                  && forall a :: a in db.attempts ==> a.dispatch != SentOut)
  {
    JudgedExactlyWhenDecidable(pricer, db);
    NothingUnderWay(db);
  }

  lemma NothingUnderWay(db: ChatDb)
    requires AttemptsInOrder(db) && db.attempts != [] && Terminal(Last(db.attempts).state)
    ensures NothingSent(db) <==> forall a :: a in db.attempts ==> a.dispatch != SentOut
  {
    assert forall a :: a in db.attempts ==> a.state != Dispatched;
  }

  /** A provider reports a canceled outcome only after its stop probe fired, which takes a stop request read from the command. */
  ghost predicate StopsHonestly(pricer: Pricer, s: System, steps: seq<Step>)
    decreases |steps|
  {
    steps == [] ||
    ((steps[0].Record? && steps[0].outcome.state == Canceled ==> s.db.command.cancelRequested)
     && StopsHonestly(pricer, Take(pricer, s, steps[0]), steps[1..]))
  }

  ghost predicate CanceledAfterRequest(db: ChatDb) {
    OpenBilling(db.run) ==> forall a :: a in db.attempts && a.state == Canceled ==> db.command.cancelRequested
  }

  lemma PreparedStop(pricer: Pricer, db: ChatDb, lease: Lease, now: int, no: nat, request: nat, callMax: int)
    requires AttemptsInOrder(db) && MoneyInOrder(db) && CanceledAfterRequest(db)
    requires PrepareNew(pricer, db, lease, now, no, request, callMax).Ok?
    ensures CanceledAfterRequest(PrepareNew(pricer, db, lease, now, no, request, callMax).value.0)
  {
    var refused, target, evidence, put := PreparedFrom(pricer, db, lease, now, no, request, callMax);
    if !refused {
      ReservationAgrees(db, target);
      var reserved := ReserveOrTopUp(db, target).value;
      assert AttemptsInOrder(reserved) && CanceledAfterRequest(reserved);
      if put { PutIsNewRow(reserved, lease, now, no, evidence); }
    }
  }

  lemma PreparedRowsAndStop(pricer: Pricer, s: System, st: Step)
    requires InOrder(s) && st.Prepare? && CanceledAfterRequest(s.db)
    ensures CanceledAfterRequest(StepPrepare(pricer, s, st).db)
  {
    var worker := WorkerOf(s, st.w);
    if worker.Chosen? {
      var db := ChatSafety.PrepareShape(pricer, s, st);
      if worker.recover {
        if PrepareRecovered(pricer, s.db, st.lease, worker.no).Ok? { RecoveredInOrder(pricer, s.db, st.lease, worker.no); }
      } else if PrepareNew(pricer, s.db, st.lease, st.now, worker.no, st.request, st.callMax).Ok? {
        PreparedStop(pricer, s.db, st.lease, st.now, worker.no, st.request, st.callMax);
      }
    }
  }

  lemma RecordedStop(s: System, st: Step)
    requires InOrder(s) && st.Record? && CanceledAfterRequest(s.db)
    requires st.outcome.state == Canceled ==> s.db.command.cancelRequested
    ensures CanceledAfterRequest(StepRecord(s, st).db)
  {
    var worker := WorkerOf(s, st.w);
    if worker.Called? && RecordOutcome(s.db, worker.no, worker.evidence, st.outcome).Ok? {
      RecordedRow(s.db, worker.no, worker.evidence, st.outcome);
    }
  }

  lemma DispatchedStop(pricer: Pricer, s: System, st: Step)
    requires st.Dispatch? && CanceledAfterRequest(s.db)
    ensures CanceledAfterRequest(StepDispatch(pricer, s, st).db)
  {
  }

  lemma StopStep(pricer: Pricer, s: System, st: Step)
    requires InOrder(s) && CanceledAfterRequest(s.db) && (st.Record? && st.outcome.state == Canceled ==> s.db.command.cancelRequested)
    ensures CanceledAfterRequest(Take(pricer, s, st).db)
  {
    match st {
      case Prepare(_, _, _, _, _) => PreparedRowsAndStop(pricer, s, st);
      case Record(_, _) => RecordedStop(s, st);
      case Dispatch(_, _, _) => DispatchedStop(pricer, s, st);
      case SettleRun => if Settle(pricer, s.db).Ok? { SettledInOrder(pricer, s.db); }
      case _ => SameAttempts(pricer, s, st);
    }
  }

  lemma {:induction false} RunStops(pricer: Pricer, s: System, steps: seq<Step>)
    requires InOrder(s) && Readable(s.db) && CanceledAfterRequest(s.db) && StopsHonestly(pricer, s, steps)
    ensures var s' := Execute(pricer, s, steps); InOrder(s') && Readable(s'.db) && CanceledAfterRequest(s'.db)
    decreases |steps|
  {
    if steps != [] {
      ChatSafety.StepInOrder(pricer, s, steps[0]);
      StepReadable(pricer, s, steps[0]);
      StopStep(pricer, s, steps[0]);
      RunStops(pricer, Take(pricer, s, steps[0]), steps[1..]);
    }
  }

  /** In every run of such providers a canceled attempt of an open run has its stop request, so it always settles. */
  lemma CanceledRunSettles(pricer: Pricer, start: System, steps: seq<Step>)
    requires Fresh(start) && StopsHonestly(pricer, start, steps)
    ensures var db := Execute(pricer, start, steps).db;
            OpenBilling(db.run) && db.attempts != [] && Last(db.attempts).state == Canceled ==>
              db.command.cancelRequested && JudgedOrUnpriced(pricer, db)
  {
    ChatSafety.FreshInOrder(start);
    RunStops(pricer, start, steps);
    var db := Execute(pricer, start, steps).db;
    if OpenBilling(db.run) && db.attempts != [] && Last(db.attempts).state == Canceled {
      assert Last(db.attempts) in db.attempts;
      CanceledSettlesExactly(pricer, db);
    }
  }

  /** One undisturbed execution of a first attempt: look, prepare, dispatch, call, record. */
  function FirstAttempt(lease: Lease, now: int, request: nat, callMax: int, o: Outcome): seq<Step> {
    [Look(0, false, false), Prepare(0, lease, now, request, callMax), Dispatch(0, lease, now), CallProvider(0), Record(0, o)]
  }

  lemma OneStep(pricer: Pricer, s: System, step: Step, rest: seq<Step>)
    ensures Execute(pricer, s, [step] + rest) == Execute(pricer, Take(pricer, s, step), rest)
  {
    assert ([step] + rest)[1..] == rest;
  }

  lemma FiveSteps(pricer: Pricer, s: System, a: Step, b: Step, c: Step, d: Step, e: Step)
    ensures Execute(pricer, s, [a, b, c, d, e])
         == Take(pricer, Take(pricer, Take(pricer, Take(pricer, Take(pricer, s, a), b), c), d), e)
  {
    var s1 := Take(pricer, s, a);
    var s2 := Take(pricer, s1, b);
    var s3 := Take(pricer, s2, c);
    OneStep(pricer, s, a, [b, c, d, e]);
    OneStep(pricer, s1, b, [c, d, e]);
    OneStep(pricer, s2, c, [d, e]);
    OneStep(pricer, s3, d, [e]);
    OneStep(pricer, Take(pricer, s3, d), e, []);
    assert [a] + [b, c, d, e] == [a, b, c, d, e] && [b] + [c, d, e] == [b, c, d, e] && [c] + [d, e] == [c, d, e];
    assert [d] + [e] == [d, e] && [e] + [] == [e];
  }

  lemma FirstRow(pricer: Pricer, db: ChatDb, lease: Lease, now: int, request: nat, callMax: int)
    requires AttemptsInOrder(db) && MoneyInOrder(db) && db.attempts == [] && db.run.billing == BillingPending
    requires Runnable(db.command, lease, now) && 0 < callMax <= db.book.balance - db.book.held && callMax <= MAX_INT64
    ensures var evidence := Evidence(request, Quote(callMax, 0, callMax));
            match PrepareNew(pricer, db, lease, now, 1, request, callMax)
            case Err(_) => false
            case Ok((after, p)) =>
              && p == Ready(evidence) && after.attempts == [NewRow(db, evidence)]
              && after.command == db.command && after.run.billing == BillingHeld
  {
    ChatRecovery.PrepareOutcome(pricer, db, lease, now, request, callMax, []);
    PrepareKeepsCommand(pricer, db, lease, now, request, callMax);
  }

  lemma FirstPrepared(pricer: Pricer, s: System, lease: Lease, now: int, request: nat, callMax: int)
    requires Fresh(s) && Runnable(s.db.command, lease, now) && s.db.command.marker == NoMarker
    requires 0 < callMax <= s.db.book.balance - s.db.book.held && callMax <= MAX_INT64
    ensures var evidence := Evidence(request, Quote(callMax, 0, callMax));
            var s2 := Take(pricer, Take(pricer, s, Look(0, false, false)), Prepare(0, lease, now, request, callMax));
            && InOrder(s2) && WorkerOf(s2, 0) == Holding(1, evidence) && s2.db.attempts == [NewRow(s.db, evidence)]
            && s2.db.command == s.db.command && s2.db.run.billing == BillingHeld
  {
    var look, prepare := Look(0, false, false), Prepare(0, lease, now, request, callMax);
    ChatSafety.FreshInOrder(s);
    var s1 := FirstLook(pricer, s);
    FirstRow(pricer, s.db, lease, now, request, callMax);
    assert Take(pricer, s1, prepare) == StepPrepare(pricer, s1, prepare);
    ChatSafety.StepInOrder(pricer, s, look);
    ChatSafety.StepInOrder(pricer, s1, prepare);
  }

  lemma FirstLook(pricer: Pricer, s: System) returns (s1: System)
    requires Fresh(s) && s.db.command.marker == NoMarker
    ensures s1 == Take(pricer, s, Look(0, false, false)) && s1.db == s.db && WorkerOf(s1, 0) == Chosen(1, false)
  {
    s1 := StepLook(s, Look(0, false, false));
  }

  lemma FirstSends(pricer: Pricer, db: ChatDb, lease: Lease, now: int, evidence: Evidence)
    requires AttemptsInOrder(db) && MoneyInOrder(db) && Runnable(db.command, lease, now)
    requires db.run.billing == BillingHeld && |db.attempts| == 1 && db.attempts[0].state == Prepared
    requires db.attempts[0].evidence == evidence && evidence.quote == Quote(evidence.quote.callMax, 0, evidence.quote.callMax)
    requires evidence.quote.callMax > 0
    ensures MarkDispatched(pricer, db, lease, now, 1, evidence)
         == Ok(db.(attempts := [db.attempts[0].(state := Dispatched, dispatch := SentOut)]))
  {
    ChatRecovery.DispatchOutcome(pricer, db, lease, now, 1, evidence, []);
    FindInOrder(db.attempts, 1);
    var sent := db.attempts[0].(state := Dispatched, dispatch := SentOut);
    assert db.attempts[0 := sent] == [sent];
  }

  lemma HoldingSends(pricer: Pricer, s: System, lease: Lease, now: int, evidence: Evidence)
    requires InOrder(s) && WorkerOf(s, 0) == Holding(1, evidence) && Runnable(s.db.command, lease, now)
    requires s.db.run.billing == BillingHeld && |s.db.attempts| == 1 && s.db.attempts[0].state == Prepared
    requires s.db.attempts[0].evidence == evidence && evidence.quote == Quote(evidence.quote.callMax, 0, evidence.quote.callMax)
    requires evidence.quote.callMax > 0
    ensures var s' := Take(pricer, s, Dispatch(0, lease, now));
            && InOrder(s') && WorkerOf(s', 0) == MayCall(1, evidence) && s'.db.command == s.db.command && s'.db.run == s.db.run
            && |s'.db.attempts| == 1 && s'.db.attempts[0].state == Dispatched && s'.db.attempts[0].evidence == evidence
  {
    FirstSends(pricer, s.db, lease, now, evidence);
    assert Take(pricer, s, Dispatch(0, lease, now)) == StepDispatch(pricer, s, Dispatch(0, lease, now));
    ChatSafety.StepInOrder(pricer, s, Dispatch(0, lease, now));
  }

  lemma PrepareKeepsCommand(pricer: Pricer, db: ChatDb, lease: Lease, now: int, request: nat, callMax: int)
    requires Valid(db.book) && PrepareNew(pricer, db, lease, now, 1, request, callMax).Ok?
    ensures var (after, p) := PrepareNew(pricer, db, lease, now, 1, request, callMax).value;
            p.Ready? ==> after.command == db.command && after.run.billing == BillingHeld
  {
  }

  lemma SentIsRecorded(pricer: Pricer, s: System, evidence: Evidence, o: Outcome)
    requires InOrder(s) && OpenBilling(s.db.run) && WorkerOf(s, 0) == MayCall(1, evidence) && ValidOutcome(o)
    requires |s.db.attempts| == 1 && s.db.attempts[0].state == Dispatched && s.db.attempts[0].evidence == evidence
    ensures var s' := Take(pricer, Take(pricer, s, CallProvider(0)), Record(0, o));
            && s'.db.run == s.db.run && s'.db.command == s.db.command
            && |s'.db.attempts| == 1 && OutcomeOf(s'.db.attempts[0]) == o
  {
    var s1 := StepCall(s, 0);
    assert Take(pricer, s, CallProvider(0)) == s1 && WorkerOf(s1, 0) == Called(1, evidence) && s1.db == s.db;
    ChatRecovery.RecordOutcomeCommits(s.db, 1, evidence, o);
    RecordedRow(s.db, 1, evidence, o);
    RecordedInOrder(s.db, 1, evidence, o);
    assert Take(pricer, s1, Record(0, o)) == StepRecord(s1, Record(0, o));
  }

  lemma FirstAttemptEnds(pricer: Pricer, s: System, lease: Lease, now: int, request: nat, callMax: int, o: Outcome)
    requires Fresh(s) && Runnable(s.db.command, lease, now) && s.db.command.marker == NoMarker
    requires 0 < callMax <= s.db.book.balance - s.db.book.held && callMax <= MAX_INT64 && ValidOutcome(o)
    ensures var db := Execute(pricer, s, FirstAttempt(lease, now, request, callMax, o)).db;
            OpenBilling(db.run) && db.command == s.db.command && |db.attempts| == 1 && OutcomeOf(db.attempts[0]) == o
  {
    var evidence := Evidence(request, Quote(callMax, 0, callMax));
    var look, prepare, dispatch := Look(0, false, false), Prepare(0, lease, now, request, callMax), Dispatch(0, lease, now);
    var s2 := Take(pricer, Take(pricer, s, look), prepare);
    FirstPrepared(pricer, s, lease, now, request, callMax);
    HoldingSends(pricer, s2, lease, now, evidence);
    SentIsRecorded(pricer, Take(pricer, s2, dispatch), evidence, o);
    FiveSteps(pricer, s, look, prepare, dispatch, CallProvider(0), Record(0, o));
  }

  lemma CanceledWithoutRequest(pricer: Pricer, s: System, steps: seq<Step>)
    requires Fresh(s) && OpenBilling(Execute(pricer, s, steps).db.run)
    requires |Execute(pricer, s, steps).db.attempts| == 1 && Execute(pricer, s, steps).db.attempts[0].state == Canceled
    requires !Execute(pricer, s, steps).db.command.cancelRequested && Execute(pricer, s, steps).db.command.marker == NoMarker
    ensures !JudgedOrUnpriced(pricer, Execute(pricer, s, steps).db)
  {
    ChatSafety.FreshInOrder(s);
    RunReadable(pricer, s, steps);
    CanceledSettlesExactly(pricer, Execute(pricer, s, steps).db);
  }

  /** Were a provider to report a canceled outcome that nobody asked for, its run would be stuck: no settlement applies. */
  lemma UnaskedCancelIsStuck(pricer: Pricer, s: System, lease: Lease, now: int, request: nat, callMax: int, o: Outcome)
    requires Fresh(s) && Runnable(s.db.command, lease, now) && s.db.command.marker == NoMarker
    requires 0 < callMax <= s.db.book.balance - s.db.book.held && callMax <= MAX_INT64
    requires ValidOutcome(o) && o.state == Canceled
    ensures var db := Execute(pricer, s, FirstAttempt(lease, now, request, callMax, o)).db;
            && OpenBilling(db.run) && |db.attempts| == 1 && db.attempts[0].state == Canceled && !db.command.cancelRequested
            && !JudgedOrUnpriced(pricer, db)
  {
    var steps := FirstAttempt(lease, now, request, callMax, o);
    FirstAttemptEnds(pricer, s, lease, now, request, callMax, o);
    CanceledWithoutRequest(pricer, s, steps);
  }
}
