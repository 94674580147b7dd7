/** Which attempts of a run count: as prior usage of the next attempt, and for the charge. A selection is described by its members
    alone, in the order of their numbers. */
module ChatUsage {
  import opened Common
  import opened Wallet
  import opened ChatRows
  import opened ChatDecision
  import opened ChatTransactions

  predicate Ascending(rows: seq<AttemptRow>) {
    forall i, j :: 0 <= i < j < |rows| ==> rows[i].no < rows[j].no
  }

  /** Every earlier attempt that succeeded, and no other. */
  ghost predicate EarlierSuccesses(attempts: seq<AttemptRow>, no: nat, rows: seq<AttemptRow>) {
    Ascending(rows) && forall a :: a in rows <==> a in attempts && a.no < no && a.state == Succeeded
  }

  /** What that usage is worth: nothing without it, and no price at all once one of them was not reported completely. */
  function WorthOf(pricer: Pricer, rows: seq<AttemptRow>): Option<int> {
    if rows == [] then Some(0)
    else if exists a :: a in rows && !a.usage.Complete? then None
    else pricer.prior(rows)
  }

  /** There is one way to put a set of rows in the order of their numbers. */
  lemma {:induction false} OrderIsUnique(a: seq<AttemptRow>, b: seq<AttemptRow>)
    requires Ascending(a) && Ascending(b) && forall x :: x in a <==> x in b
    ensures a == b
    decreases |a|
  {
    if a == [] {
      assert forall i :: 0 <= i < |b| ==> b[i] in b;
    } else {
      assert a[0] in a && a[0] in b;
      FirstIsSmallest(a);
      FirstIsSmallest(b);
      assert b[0] in b && b[0] in a;
      assert a[0] == b[0];
      TailMembers(a);
      TailMembers(b);
      OrderIsUnique(a[1..], b[1..]);
      assert a == [a[0]] + a[1..] && b == [b[0]] + b[1..];
    }
  }

  lemma FirstIsSmallest(rows: seq<AttemptRow>)
    requires Ascending(rows) && rows != []
    ensures forall x :: x in rows ==> x == rows[0] || rows[0].no < x.no
  {
  }

  lemma TailMembers(rows: seq<AttemptRow>)
    requires Ascending(rows) && rows != []
    ensures Ascending(rows[1..]) && forall x :: x in rows[1..] <==> x in rows && x != rows[0]
  {
    assert rows == [rows[0]] + rows[1..];
    forall x | x in rows[1..] ensures x != rows[0] {
      var i :| 0 <= i < |rows[1..]| && rows[1..][i] == x;
      assert rows[i + 1] == x;
    }
  }

  lemma {:induction false} PriorAreEarlierSuccesses(attempts: seq<AttemptRow>, no: nat)
    requires Ascending(attempts)
    ensures EarlierSuccesses(attempts, no, PriorSucceeded(attempts, no))
    decreases |attempts|
  {
    if attempts != [] {
      TailMembers(attempts);
      PriorAreEarlierSuccesses(attempts[1..], no);
      assert attempts == [attempts[0]] + attempts[1..];
      var rest := PriorSucceeded(attempts[1..], no);
      FirstIsSmallest(attempts);
      forall j | 0 <= j < |rest| ensures attempts[0].no < rest[j].no { assert rest[j] in rest; }
    }
  }

  /** The rows the gateway prices as prior usage are exactly the earlier successes. */
  lemma PriorUsage(pricer: Pricer, db: ChatDb, no: nat, rows: seq<AttemptRow>)
    requires Ascending(db.attempts) && EarlierSuccesses(db.attempts, no, rows)
    ensures match WorthOf(pricer, rows)
            case None => PriorUnits(pricer, db, no) == Err(UsageUnpriced)
            case Some(u) =>
              PriorUnits(pricer, db, no) == if rows == [] || 0 <= u <= db.charge.held then Ok(u) else Err(InvalidPrepared)
  {
    PriorAreEarlierSuccesses(db.attempts, no);
    OrderIsUnique(rows, PriorSucceeded(db.attempts, no));
  }
}
