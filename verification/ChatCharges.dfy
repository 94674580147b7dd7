/** What a chat run is charged, and how it ends, in terms of the rows stored before its settlement. */
module ChatCharges {
  import opened Common
  import opened Wallet
  import opened ChatRows
  import opened ChatDecision
  import opened ChatTransactions
  import opened ChatSettlement
  import opened ChatRuns
  import opened ChatUsage
  import opened ChatVerdicts

  /** The attempt the user stopped while its answer was coming in. */
  predicate StoppedLast(db: ChatDb, a: AttemptRow) {
    db.command.cancelRequested && db.attempts != [] && a == Last(db.attempts) && a.state == Canceled && a.dispatch == SentOut
  }

  /** Every success and the stopped attempt, in the order of their numbers. */
  ghost predicate ChargedRows(db: ChatDb, rows: seq<AttemptRow>) {
    Ascending(rows) && forall a :: a in rows <==> a in db.attempts && (a.state == Succeeded || StoppedLast(db, a))
  }

  /** The run ends in a way that is charged: an answer, a stop after its answers came in, or a balance too short to go on. */
  predicate ChargeableEnd(db: ChatDb) {
    db.attempts != [] &&
    var latest := Last(db.attempts);
    if db.command.cancelRequested then latest.state == Succeeded || latest.state == Failed || StoppedLast(db, latest)
    else
      || db.command.marker == TopUpInsufficientMarker
      || (!DecisiveMarker(db.command.marker) && latest.state == Succeeded
          && latest.candidate.Some? && latest.candidate.value.FinalAnswer?)
  }

  /** These rows have a price that is accepted and within the hold. */
  predicate Affordable(pricer: Pricer, legacy: bool, held: int, rows: seq<AttemptRow>) {
    && !legacy && rows != [] && (forall a :: a in rows ==> a.usage.Complete?)
    && var price := pricer.settle(rows);
       price.Priced? && QuoteAccepted(rows, price.units, price.items) && price.units <= held
  }

  predicate Charged(pricer: Pricer, db: ChatDb, rows: seq<AttemptRow>) {
    ChargeableEnd(db) && Affordable(pricer, db.run.legacy, db.charge.held, rows)
  }

  // ---------- the billable attempts are the charged rows ----------

  lemma {:induction false} ChargeableAscend(f: Facts, attempts: seq<AttemptRow>)
    requires Ascending(attempts)
    ensures Ascending(ChargeableOf(f, attempts))
    decreases |attempts|
  {
    if attempts != [] {
      TailMembers(attempts);
      ChargeableAscend(f, attempts[1..]);
      FirstIsSmallest(attempts);
      var rest := ChargeableOf(f, attempts[1..]);
      forall j | 0 <= j < |rest| ensures attempts[0].no < rest[j].no { assert rest[j] in rest && rest[j] in attempts; }
    }
  }

  ghost predicate FactsOf(db: ChatDb, f: Facts) {
    && OpenRun(db) && BuildFacts(db, Normalize(db.command, db.attempts)) == Ok(f)
    && (f.attempts != [] ==> Terminal(Last(f.attempts).state))
  }

  lemma StoppedIsLast(db: ChatDb, f: Facts)
    requires FactsOf(db, f)
    ensures f.attempts == Normalize(db.command, db.attempts) && |f.attempts| == |db.attempts|
    ensures forall i :: 0 <= i < |db.attempts| ==>
              (Chargeable(f, f.attempts[i]) <==> db.attempts[i].state == Succeeded || StoppedLast(db, db.attempts[i]))
    ensures forall i :: 0 <= i < |db.attempts| && Chargeable(f, f.attempts[i]) ==> f.attempts[i] == db.attempts[i]
  {
    NormalizedRows(db);
    FactsOfOpenRun(db);
    var n := f.attempts;
    if db.attempts != [] {
      StopOfLast(db, f);
      assert Last(n) == n[|n| - 1] && Last(db.attempts) == db.attempts[|n| - 1];
    }
  }

  lemma StopOfLast(db: ChatDb, f: Facts)
    requires FactsOf(db, f) && db.attempts != [] && f.attempts == Normalize(db.command, db.attempts)
    ensures f.stopped == if StoppedLast(db, Last(db.attempts)) then Some(Last(f.attempts).id) else None
  {
    assert Last(f.attempts) in f.attempts;
  }

  lemma BillableRows(db: ChatDb, f: Facts, rows: seq<AttemptRow>)
    requires FactsOf(db, f) && ChargedRows(db, rows)
    ensures ChargeableOf(f, f.attempts) == rows
  {
    StoppedIsLast(db, f);
    NormalizedRows(db);
    ChargeableAscend(f, f.attempts);
    var billable := ChargeableOf(f, f.attempts);
    forall a ensures a in billable <==> a in rows {
      if a in billable {
        var i :| 0 <= i < |f.attempts| && f.attempts[i] == a;
        assert db.attempts[i] in db.attempts;
      }
      if a in rows {
        var i :| 0 <= i < |db.attempts| && db.attempts[i] == a;
        assert f.attempts[i] in f.attempts;
      }
    }
    OrderIsUnique(billable, rows);
  }

  // ---------- the charge ----------

  /** The decision charges these rows exactly if `charged`, and then at their price. */
  ghost predicate DecidesCharge(pricer: Pricer, rows: seq<AttemptRow>, d: Decision, charged: bool) {
    && (d.billing == BillingSettled <==> charged)
    && (charged ==> pricer.settle(rows) == Priced(d.actual, d.items))
  }

  ghost predicate ChargedAs(pricer: Pricer, db: ChatDb, rows: seq<AttemptRow>, d: Decision) {
    DecidesCharge(pricer, rows, d, Charged(pricer, db, rows))
  }

  lemma PricedDecision(pricer: Pricer, f: Facts, rows: seq<AttemptRow>, status: RunStatus, publish: bool)
    requires ChargeableOf(f, f.attempts) == rows && f.hold.Some? && PriceOrUnbilled(pricer, f, status, publish).Ok?
    ensures DecidesCharge(pricer, rows, PriceOrUnbilled(pricer, f, status, publish).value,
                          Affordable(pricer, f.run.legacy, f.hold.value.held, rows))
  {
  }

  lemma HeldIsCharged(db: ChatDb, f: Facts)
    requires FactsOf(db, f) && MoneyFactsConsistent(f) && f.hold.Some?
    ensures f.hold.value.held == db.charge.held && f.run == db.run
  {
    FactsOfOpenRun(db);
  }

  /** A stop is charged once something was sent and everything sent has come in. */
  lemma StopCharged(pricer: Pricer, db: ChatDb, f: Facts, d: Decision, rows: seq<AttemptRow>)
    requires FactsOf(db, f) && MoneyFactsConsistent(f) && Decide(pricer, f) == Ok(d) && ChargedRows(db, rows)
    requires db.command.cancelRequested
    ensures ChargedAs(pricer, db, rows, d)
  {
    BillableRows(db, f, rows);
    FactsOfOpenRun(db);
    StoppedIsLast(db, f);
    if f.trigger == UserStop {
      HeldIsCharged(db, f);
      StopEnds(db, f, rows);
      if AllSucceededOrStopped(f) { PricedDecision(pricer, f, rows, RunCanceled, false); }
    } else {
      TriggerOf(db, f);
      NothingToCharge(db, f, rows);
    }
  }

  /** A charged row reached the provider. */
  lemma ChargedWasSent(db: ChatDb, rows: seq<AttemptRow>, a: AttemptRow)
    requires OpenRun(db) && ChargedRows(db, rows) && a in rows
    ensures a.dispatch == SentOut
  {
    var i :| 0 <= i < |db.attempts| && db.attempts[i] == a;
    assert AttemptConsistent(db.attempts[i]);
  }

  lemma NothingToCharge(db: ChatDb, f: Facts, rows: seq<AttemptRow>)
    requires OpenRun(db) && ChargedRows(db, rows) && ChargeableOf(f, f.attempts) == rows
    requires DeriveTrigger(db.command, f.attempts) == Ok(UserStopBeforeDispatch)
    ensures rows == []
  {
    StopBeforeDispatch(db.command, f.attempts);
    if rows != [] { ChargedWasSent(db, rows, rows[0]); }
  }

  lemma StopEnds(db: ChatDb, f: Facts, rows: seq<AttemptRow>)
    requires FactsOf(db, f) && ChargedRows(db, rows) && f.trigger == UserStop && db.command.cancelRequested
    requires f.attempts == Normalize(db.command, db.attempts) && ChargeableOf(f, f.attempts) == rows
    ensures AllSucceededOrStopped(f) <==> ChargeableEnd(db) && rows != []
  {
    StoppedIsLast(db, f);
    EndStates(db, f);
    assert (exists a :: a in f.attempts && Chargeable(f, a)) <==> rows != [] by { SomeChargeable(f, rows); }
  }

  lemma SomeChargeable(f: Facts, rows: seq<AttemptRow>)
    requires ChargeableOf(f, f.attempts) == rows
    ensures (exists a :: a in f.attempts && Chargeable(f, a)) <==> rows != []
  {
    if rows != [] { assert rows[0] in rows; }
  }

  /** Everything came in exactly when the latest attempt did. */
  lemma EndStates(db: ChatDb, f: Facts)
    requires FactsOf(db, f) && db.command.cancelRequested && f.attempts == Normalize(db.command, db.attempts)
    requires forall i :: 0 <= i < |db.attempts| ==>
               (Chargeable(f, f.attempts[i]) <==> db.attempts[i].state == Succeeded || StoppedLast(db, db.attempts[i]))
    ensures f.attempts != [] ==>
              ((forall a :: a in f.attempts ==> a.state == Succeeded || a.state == Failed || Stopped(f, a)) <==> ChargeableEnd(db))
  {
    var n := f.attempts;
    if n != [] {
      assert Last(n) in n;
      assert Chargeable(f, Last(n)) <==> Last(db.attempts).state == Succeeded || StoppedLast(db, Last(db.attempts));
      LatestCameIn(db, f);
      forall a | a in n && a != Last(n) ensures a.state == Succeeded || a.state == Failed { EarlierCameIn(db, a); }
    }
  }

  lemma EarlierCameIn(db: ChatDb, a: AttemptRow)
    requires OpenRun(db) && a in Normalize(db.command, db.attempts) && a != Last(Normalize(db.command, db.attempts))
    ensures a.state == Succeeded || a.state == Failed
  {
    NormalizedRows(db);
    var n := Normalize(db.command, db.attempts);
    var i :| 0 <= i < |n| && n[i] == a;
  }

  lemma LatestCameIn(db: ChatDb, f: Facts)
    requires FactsOf(db, f) && db.command.cancelRequested && f.attempts == Normalize(db.command, db.attempts) && f.attempts != []
    requires Chargeable(f, Last(f.attempts)) <==> Last(db.attempts).state == Succeeded || StoppedLast(db, Last(db.attempts))
    ensures Last(f.attempts).state == Succeeded || Last(f.attempts).state == Failed || Stopped(f, Last(f.attempts)) <==> ChargeableEnd(db)
  {
  }

  lemma ShortDecision(pricer: Pricer, f: Facts, d: Decision, rows: seq<AttemptRow>)
    requires f.trigger == ContinuationTopUpInsufficient && Decide(pricer, f) == Ok(d) && ChargeableOf(f, f.attempts) == rows && f.hold.Some?
    ensures DecidesCharge(pricer, rows, d, Affordable(pricer, f.run.legacy, f.hold.value.held, rows))
  {
    if rows != [] && !f.run.legacy { PricedDecision(pricer, f, rows, RunFailed, false); }
  }

  lemma ShortBalanceCharged(pricer: Pricer, db: ChatDb, f: Facts, d: Decision, rows: seq<AttemptRow>)
    requires FactsOf(db, f) && MoneyFactsConsistent(f) && Decide(pricer, f) == Ok(d) && ChargedRows(db, rows)
    requires f.trigger == ContinuationTopUpInsufficient && !db.command.cancelRequested
    ensures ChargedAs(pricer, db, rows, d)
  {
    BillableRows(db, f, rows);
    ShortHeld(f);
    HeldIsCharged(db, f);
    ShortDecision(pricer, f, d, rows);
    ShortEnds(db, f, rows);
    ChargeOfEnd(pricer, db, f, d, rows);
  }

  lemma ShortHeld(f: Facts)
    requires MoneyFactsConsistent(f) && f.trigger == ContinuationTopUpInsufficient
    ensures f.hold.Some?
  {
  }

  lemma ChargeOfEnd(pricer: Pricer, db: ChatDb, f: Facts, d: Decision, rows: seq<AttemptRow>)
    requires f.hold.Some? && f.hold.value.held == db.charge.held && f.run == db.run && (rows != [] ==> ChargeableEnd(db))
    requires DecidesCharge(pricer, rows, d, Affordable(pricer, f.run.legacy, f.hold.value.held, rows))
    ensures ChargedAs(pricer, db, rows, d)
  {
  }

  lemma ShortEnds(db: ChatDb, f: Facts, rows: seq<AttemptRow>)
    requires FactsOf(db, f) && ChargedRows(db, rows) && !db.command.cancelRequested && f.trigger == ContinuationTopUpInsufficient
    ensures rows != [] ==> ChargeableEnd(db)
  {
    TriggerOf(db, f);
    if rows != [] { assert rows[0] in rows && rows[0] in db.attempts; }
  }

  lemma TriggerOf(db: ChatDb, f: Facts)
    requires FactsOf(db, f)
    ensures DeriveTrigger(db.command, f.attempts) == Ok(f.trigger) && f.attempts == Normalize(db.command, db.attempts)
    ensures !db.command.cancelRequested && f.trigger == ContinuationTopUpInsufficient ==> db.command.marker == TopUpInsufficientMarker
  {
    FactsOfOpenRun(db);
  }

  lemma AnswerCharged(pricer: Pricer, db: ChatDb, f: Facts, d: Decision, rows: seq<AttemptRow>)
    requires FactsOf(db, f) && MoneyFactsConsistent(f) && Decide(pricer, f) == Ok(d) && ChargedRows(db, rows)
    requires f.trigger == Success
    ensures ChargedAs(pricer, db, rows, d)
  {
    BillableRows(db, f, rows);
    FactsOfOpenRun(db);
    HeldIsCharged(db, f);
    PricedDecision(pricer, f, rows, RunSuccess, true);
    AnswerEnds(db, f, rows);
  }

  lemma AnswerEnds(db: ChatDb, f: Facts, rows: seq<AttemptRow>)
    requires FactsOf(db, f) && ChargedRows(db, rows) && f.trigger == Success && f.attempts == Normalize(db.command, db.attempts)
    ensures (forall a :: a in rows ==> a.usage.Complete?) ==> ChargeableEnd(db)
  {
    NormalizedRows(db);
    FactsOfOpenRun(db);
    SuccessTrigger(db.command, f.attempts);
    assert Last(db.attempts) == Last(f.attempts) && Last(db.attempts) in db.attempts && Last(db.attempts) in rows;
  }

  lemma OtherEnds(db: ChatDb, n: seq<AttemptRow>, t: Trigger)
    requires DeriveTrigger(db.command, n) == Ok(t) && t != Success && t != ContinuationTopUpInsufficient && !db.command.cancelRequested
    requires n == Normalize(db.command, db.attempts)
    ensures !ChargeableEnd(db)
  {
  }

  lemma OthersUncharged(pricer: Pricer, db: ChatDb, f: Facts, d: Decision, rows: seq<AttemptRow>)
    requires FactsOf(db, f) && Decide(pricer, f) == Ok(d) && !db.command.cancelRequested
    requires f.trigger != Success && f.trigger != ContinuationTopUpInsufficient
    ensures ChargedAs(pricer, db, rows, d)
  {
    assert !ChargeableEnd(db) by {
      TriggerOf(db, f);
      OtherEnds(db, f.attempts, f.trigger);
    }
    assert d.billing != BillingSettled by {
      TriggerOf(db, f);
      NotStopped(db.command, f.attempts);
      DecisionFollowsTrigger(pricer, f);
    }
  }

  lemma NotStopped(command: CommandRow, n: seq<AttemptRow>)
    requires !command.cancelRequested
    ensures DeriveTrigger(command, n) != Ok(UserStop)
  {
  }

  lemma DecidedCharge(pricer: Pricer, db: ChatDb, f: Facts, d: Decision, rows: seq<AttemptRow>)
    requires FactsOf(db, f) && MoneyFactsConsistent(f) && Decide(pricer, f) == Ok(d) && ChargedRows(db, rows)
    ensures ChargedAs(pricer, db, rows, d)
  {
    FactsOfOpenRun(db);
    if db.command.cancelRequested { StopCharged(pricer, db, f, d, rows); }
    else if f.trigger == Success { AnswerCharged(pricer, db, f, d, rows); }
    else if f.trigger == ContinuationTopUpInsufficient { ShortBalanceCharged(pricer, db, f, d, rows); }
    else { OthersUncharged(pricer, db, f, d, rows); }
  }

  /** A settlement charges a run exactly when it ends in an answer, a stop after its answers came in, or a balance too short to go
      on, all its successes (and the stopped attempt) are completely reported, and their price is accepted and held. It then
      charges that price, item by item, and otherwise nothing. */
  lemma SettlementCharges(pricer: Pricer, db: ChatDb, rows: seq<AttemptRow>)
    requires OpenRun(db) && ChargedRows(db, rows) && Settle(pricer, db).Ok?
    ensures var (after, how) := Settle(pricer, db).value;
            && how == Applied
            && (after.run.billing == BillingSettled <==> Charged(pricer, db, rows))
            && after.charge.actual == (if Charged(pricer, db, rows) then pricer.settle(rows).units else 0)
            && after.charge.items == (if Charged(pricer, db, rows) then pricer.settle(rows).items else [])
            && db.book.balance - after.book.balance == after.charge.actual
  {
    var attempts, f, d := AppliedFrom(pricer, db);
    JudgedParts(pricer, db, attempts, f, d);
    DecidedEnds(pricer, db, f, d);
    DecidedCharge(pricer, db, f, d, rows);
  }

  lemma DecidedEnds(pricer: Pricer, db: ChatDb, f: Facts, d: Decision)
    requires OpenRun(db) && BuildFacts(db, Normalize(db.command, db.attempts)) == Ok(f) && Decide(pricer, f) == Ok(d)
    ensures FactsOf(db, f)
  {
    FactsOfOpenRun(db);
    NormalizedRows(db);
    if f.attempts != [] { assert Last(f.attempts) in f.attempts; }
  }
}
