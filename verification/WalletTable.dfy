/** The wallet repository as it works: reads rows under lock, writes them one by one, and rolls back on an error. */
module WalletTable {
  import opened Common
  import opened Wallet

  class Table {
    var balance: int
    var held: int
    var consumed: int
    var recharged: int
    var holds: seq<Hold>
    var ledger: seq<Entry>

    function Rows(): Book
      reads this
    {
      Book(balance, held, consumed, recharged, holds, ledger)
    }

    constructor ()
      ensures Rows() == EMPTY_BOOK
    {
      balance, held, consumed, recharged := 0, 0, 0, 0;
      holds, ledger := [], [];
    }

    /** Restores the rows a transaction started from. */
    method Rollback(book: Book)
      modifies this
      ensures Rows() == book
    {
      balance, held, consumed, recharged := book.balance, book.held, book.consumed, book.recharged;
      holds, ledger := book.holds, book.ledger;
    }

    /** SELECT SUM(held_units) over the active holds, compared with the wallet row. */
    method ActiveTotalMatches() returns (matches: bool)
      ensures matches <==> ActiveTotal(holds) == held
    {
      var total := 0;
      var i := |holds|;
      while i > 0
        invariant 0 <= i <= |holds|
        invariant total == ActiveTotal(holds[i..])
      {
        i := i - 1;
        assert holds[i..][1..] == holds[i + 1..];
        total := total + (if holds[i].status == HoldActive then holds[i].held else 0);
      }
      assert holds[0..] == holds;
      matches := total == held;
    }

    method LockHoldByRun(runId: nat) returns (i: nat)
      ensures i == HoldIndex(holds, runId)
    {
      i := 0;
      while i < |holds| && holds[i].runId != runId
        invariant i <= |holds|
        invariant forall j :: 0 <= j < i ==> holds[j].runId != runId
      {
        i := i + 1;
      }
    }

    method ReserveHold(runId: nat, target: int) returns (r: Result<Hold, WalletError>)
      modifies this
      ensures var expected := Reserve(old(Rows()), runId, target);
              match r
              case Ok(h) => expected == Ok((Rows(), h))
              case Err(e) => expected == Err(e) && Rows() == old(Rows())
    {
      if target <= 0 { return Err(InvalidInput); }
      if held < 0 || balance < held { return Err(Integrity); }
      var matches := ActiveTotalMatches();
      if !matches { return Err(Integrity); }
      var start := Rows();
      var i := LockHoldByRun(runId);
      var delta := target;
      if i < |holds| {
        if holds[i].status != HoldActive || holds[i].held <= 0 || holds[i].captured != 0 { return Err(Integrity); }
        if target <= holds[i].held { return Ok(holds[i]); }
        delta := target - holds[i].held;
      }
      if delta > balance - held { return Err(Insufficient); }
      if held > MAX_INT64 - delta { return Err(Integrity); }
      if i == |holds| {
        holds := holds + [Hold(runId, target, 0, HoldActive)];
      } else {
        holds := holds[i := holds[i].(held := holds[i].held + delta)];
      }
      held := held + delta;
      matches := ActiveTotalMatches();
      if !matches {
        Rollback(start);
        return Err(Integrity);
      }
      r := Ok(holds[i]);
    }

    method CaptureHold(runId: nat, actual: int) returns (r: Result<Option<Entry>, WalletError>)
      modifies this
      ensures var expected := Capture(old(Rows()), runId, actual);
              match r
              case Ok(row) => expected == Ok((Rows(), row))
              case Err(e) => expected == Err(e) && Rows() == old(Rows())
    {
      if actual < 0 { return Err(InvalidInput); }
      if balance < held { return Err(Integrity); }
      var matches := ActiveTotalMatches();
      if !matches { return Err(Integrity); }
      var start := Rows();
      var i := LockHoldByRun(runId);
      if i == |holds| { return Err(NotFound); }
      if holds[i].status != HoldActive {
        if holds[i].status != HoldCaptured || actual != holds[i].captured || !CapturedFactHolds(Rows(), holds[i]) {
          return Err(Integrity);
        }
        return Ok(if holds[i].captured == 0 then None else Some(DebitsOf(ledger, runId)[0]));
      }
      if holds[i].held <= 0 || holds[i].captured != 0 { return Err(Integrity); }
      if actual > holds[i].held || held < holds[i].held || balance < actual { return Err(Underflow); }
      var remaining := held - holds[i].held;
      var balanceAfter := balance - actual;
      if actual > 0 && consumed > MAX_INT64 - actual { return Err(Integrity); }
      var row: Option<Entry> := None;
      if actual > 0 {
        var entry := Debit(runId, actual, balance, balanceAfter);
        ledger := ledger + [entry];
        row := Some(entry);
      }
      balance, consumed, held := balanceAfter, consumed + actual, remaining;
      holds := holds[i := Hold(runId, 0, actual, HoldCaptured)];
      matches := ActiveTotalMatches();
      if !matches {
        Rollback(start);
        return Err(Integrity);
      }
      r := Ok(row);
    }

    method ReleaseHold(runId: nat) returns (r: Result<(), WalletError>)
      modifies this
      ensures var expected := Release(old(Rows()), runId);
              match r
              case Ok(_) => expected == Ok(Rows())
              case Err(e) => expected == Err(e) && Rows() == old(Rows())
    {
      if balance < held { return Err(Integrity); }
      var matches := ActiveTotalMatches();
      if !matches { return Err(Integrity); }
      var start := Rows();
      var i := LockHoldByRun(runId);
      if i == |holds| { return Err(NotFound); }
      if holds[i].status != HoldActive {
        if holds[i].status != HoldReleased || !ReleasedFactHolds(Rows(), holds[i]) { return Err(Integrity); }
        return Ok(());
      }
      if holds[i].held <= 0 || holds[i].captured != 0 { return Err(Integrity); }
      if held < holds[i].held { return Err(Underflow); }
      held := held - holds[i].held;
      holds := holds[i := Hold(runId, 0, 0, HoldReleased)];
      matches := ActiveTotalMatches();
      if !matches {
        Rollback(start);
        return Err(Integrity);
      }
      r := Ok(());
    }
  }
}
