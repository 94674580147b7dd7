/** One user's wallet: its balance, the holds AI runs place on it, and its ledger.
    Rows are kept in insertion order, as the hold and transaction tables keep them. */
module Wallet {
  import opened Common

  datatype HoldStatus = HoldActive | HoldCaptured | HoldReleased

  datatype Hold = Hold(runId: nat, held: int, captured: int, status: HoldStatus)

  datatype Entry =
    | Recharge(rechargeId: nat, amount: int, before: int, after: int)
    | Debit(runId: nat, amount: int, before: int, after: int)

  datatype Book = Book(balance: int, held: int, consumed: int, recharged: int, holds: seq<Hold>, ledger: seq<Entry>)

  datatype WalletError = InvalidInput | Insufficient | Underflow | Integrity | NotFound

  const EMPTY_BOOK := Book(0, 0, 0, 0, [], [])

  // ---------- queries ----------

  function ActiveUnits(h: Hold): int {
    if h.status == HoldActive then h.held else 0
  }

  /** The sum the integrity check recomputes under lock. */
  function ActiveTotal(holds: seq<Hold>): int {
    if holds == [] then 0 else ActiveUnits(holds[0]) + ActiveTotal(holds[1..])
  }

  function CapturedTotal(holds: seq<Hold>): int {
    if holds == [] then 0 else holds[0].captured + CapturedTotal(holds[1..])
  }

  /** Position of the hold of a run, or the table size when the run has none. */
  function HoldIndex(holds: seq<Hold>, runId: nat): (i: nat)
    ensures i <= |holds|
    ensures i < |holds| ==> holds[i].runId == runId
    ensures forall j :: 0 <= j < i ==> holds[j].runId != runId
  {
    if holds == [] then 0
    else if holds[0].runId == runId then 0
    else
      var rest := HoldIndex(holds[1..], runId);
      assert forall j :: 1 <= j < rest + 1 ==> holds[j] == holds[1..][j - 1];
      rest + 1
  }

  function FindHold(holds: seq<Hold>, runId: nat): Option<Hold> {
    var i := HoldIndex(holds, runId);
    if i < |holds| then Some(holds[i]) else None
  }

  function DebitsOf(ledger: seq<Entry>, runId: nat): seq<Entry> {
    if ledger == [] then []
    else (if ledger[0].Debit? && ledger[0].runId == runId then [ledger[0]] else []) + DebitsOf(ledger[1..], runId)
  }

  function RechargesOf(ledger: seq<Entry>, rechargeId: nat): seq<Entry> {
    if ledger == [] then []
    else (if ledger[0].Recharge? && ledger[0].rechargeId == rechargeId then [ledger[0]] else []) + RechargesOf(ledger[1..], rechargeId)
  }

  /** The balance an auditor obtains by replaying the ledger from zero. */
  function Replayed(ledger: seq<Entry>): int {
    if ledger == [] then 0
    else
      var e := Last(ledger);
      Replayed(ledger[..|ledger| - 1]) + (if e.Debit? then -e.amount else e.amount)
  }

  // ---------- the three hold operations and a recharge ----------

  predicate CapturedFactHolds(book: Book, h: Hold) {
    var debits := DebitsOf(book.ledger, h.runId);
    && h.held == 0 && h.captured >= 0
    && (h.captured == 0 ==> debits == [])
    && (h.captured > 0 ==> |debits| == 1 && debits[0].amount == h.captured
                           && debits[0].before - debits[0].amount == debits[0].after && debits[0].after >= 0)
  }

  predicate ReleasedFactHolds(book: Book, h: Hold) {
    h.held == 0 && h.captured == 0 && DebitsOf(book.ledger, h.runId) == []
  }

  predicate ActiveFactHolds(h: Hold) {
    h.status == HoldActive && h.held > 0 && h.captured == 0
  }

  function Reserve(book: Book, runId: nat, target: int): Result<(Book, Hold), WalletError> {
    if target <= 0 then Err(InvalidInput)
    else if book.held < 0 || book.balance < book.held || ActiveTotal(book.holds) != book.held then Err(Integrity)
    else
      var i := HoldIndex(book.holds, runId);
      if i < |book.holds| then
        var h := book.holds[i];
        if !ActiveFactHolds(h) then Err(Integrity)
        else if target <= h.held then Ok((book, h))
        else
          var delta := target - h.held;
          if delta > book.balance - book.held then Err(Insufficient)
          else if book.held > MAX_INT64 - delta then Err(Integrity)
          else
            var h' := h.(held := target);
            var book' := book.(holds := book.holds[i := h'], held := book.held + delta);
            if ActiveTotal(book'.holds) != book'.held then Err(Integrity) else Ok((book', h'))
      else if target > book.balance - book.held then Err(Insufficient)
      else if book.held > MAX_INT64 - target then Err(Integrity)
      else
        var h := Hold(runId, target, 0, HoldActive);
        var book' := book.(holds := book.holds + [h], held := book.held + target);
        if ActiveTotal(book'.holds) != book'.held then Err(Integrity) else Ok((book', h))
  }

  /** The second component is the ledger row written by, or found for, the capture. */
  function Capture(book: Book, runId: nat, actual: int): Result<(Book, Option<Entry>), WalletError> {
    if actual < 0 then Err(InvalidInput)
    else if book.balance < book.held || ActiveTotal(book.holds) != book.held then Err(Integrity)
    else
      var i := HoldIndex(book.holds, runId);
      if i == |book.holds| then Err(NotFound)
      else
        var h := book.holds[i];
        if h.status != HoldActive then
          if h.status != HoldCaptured || actual != h.captured || !CapturedFactHolds(book, h) then Err(Integrity)
          else
            var debits := DebitsOf(book.ledger, runId);
            Ok((book, if h.captured == 0 then None else Some(debits[0])))
        else if !ActiveFactHolds(h) then Err(Integrity)
        else if actual > h.held || book.held < h.held || book.balance < actual then Err(Underflow)
        else if actual > 0 && book.consumed > MAX_INT64 - actual then Err(Integrity)
        else
          var row := Debit(runId, actual, book.balance, book.balance - actual);
          var h' := Hold(runId, 0, actual, HoldCaptured);
          var book' := book.(balance := book.balance - actual, consumed := book.consumed + actual,
                             held := book.held - h.held, holds := book.holds[i := h'],
                             ledger := if actual > 0 then book.ledger + [row] else book.ledger);
          if ActiveTotal(book'.holds) != book'.held then Err(Integrity)
          else Ok((book', if actual > 0 then Some(row) else None))
  }

  function Release(book: Book, runId: nat): Result<Book, WalletError> {
    if book.balance < book.held || ActiveTotal(book.holds) != book.held then Err(Integrity)
    else
      var i := HoldIndex(book.holds, runId);
      if i == |book.holds| then Err(NotFound)
      else
        var h := book.holds[i];
        if h.status != HoldActive then
          if h.status != HoldReleased || !ReleasedFactHolds(book, h) then Err(Integrity) else Ok(book)
        else if !ActiveFactHolds(h) then Err(Integrity)
        else if book.held < h.held then Err(Underflow)
        else
          var book' := book.(held := book.held - h.held, holds := book.holds[i := Hold(runId, 0, 0, HoldReleased)]);
          if ActiveTotal(book'.holds) != book'.held then Err(Integrity) else Ok(book')
  }

  function Credit(book: Book, rechargeId: nat, amount: int): Result<Book, WalletError> {
    if amount <= 0 then Err(InvalidInput)
    else
      var existing := RechargesOf(book.ledger, rechargeId);
      if |existing| > 1 then Err(Integrity)
      else if |existing| == 1 then
        if existing[0].amount == amount then Ok(book) else Err(Integrity)
      else if book.balance > MAX_INT64 - amount || book.recharged > MAX_INT64 - amount then Err(Integrity)
      else Ok(book.(balance := book.balance + amount, recharged := book.recharged + amount,
                    ledger := book.ledger + [Recharge(rechargeId, amount, book.balance, book.balance + amount)]))
  }

  // ---------- the invariant every operation keeps ----------

  ghost predicate HoldShape(h: Hold) {
    match h.status
    case HoldActive => h.held > 0 && h.captured == 0
    case HoldCaptured => h.held == 0 && h.captured >= 0
    case HoldReleased => h.held == 0 && h.captured == 0
  }

  function CapturedUnits(holds: seq<Hold>, runId: nat): int {
    match FindHold(holds, runId)
    case None => 0
    case Some(h) => h.captured
  }

  /** A run with captured units has exactly one ledger row, for exactly those units; any other run has none. */
  ghost predicate LedgerAgrees(book: Book, runId: nat) {
    var debits := DebitsOf(book.ledger, runId);
    var units := CapturedUnits(book.holds, runId);
    && (units <= 0 ==> debits == [])
    && (units > 0 ==> |debits| == 1 && debits[0].amount == units
                      && debits[0].after == debits[0].before - units && debits[0].after >= 0)
  }

  ghost predicate UniqueRuns(holds: seq<Hold>) {
    forall i, j :: 0 <= i < j < |holds| ==> holds[i].runId != holds[j].runId
  }

  ghost predicate Valid(book: Book) {
    && 0 <= book.held <= book.balance <= MAX_INT64
    && 0 <= book.consumed
    && book.balance == book.recharged - book.consumed
    && book.recharged <= MAX_INT64
    && book.held == ActiveTotal(book.holds)
    && book.consumed == CapturedTotal(book.holds)
    && book.balance == Replayed(book.ledger)
    && UniqueRuns(book.holds)
    && (forall i :: 0 <= i < |book.holds| ==> HoldShape(book.holds[i]))
    && (forall r: nat :: LedgerAgrees(book, r))
    && (forall c: nat :: |RechargesOf(book.ledger, c)| <= 1)
  }

  // ---------- sums and lookups under an update ----------

  lemma {:induction false} TotalsUpdate(holds: seq<Hold>, i: nat, h: Hold)
    requires i < |holds|
    ensures ActiveTotal(holds[i := h]) == ActiveTotal(holds) - ActiveUnits(holds[i]) + ActiveUnits(h)
    ensures CapturedTotal(holds[i := h]) == CapturedTotal(holds) - holds[i].captured + h.captured
  {
    if i == 0 {
      assert holds[i := h][1..] == holds[1..];
    } else {
      assert holds[i := h][1..] == holds[1..][i - 1 := h];
      TotalsUpdate(holds[1..], i - 1, h);
    }
  }

  lemma {:induction false} TotalsAppend(holds: seq<Hold>, h: Hold)
    ensures ActiveTotal(holds + [h]) == ActiveTotal(holds) + ActiveUnits(h)
    ensures CapturedTotal(holds + [h]) == CapturedTotal(holds) + h.captured
  {
    if holds == [] {
      assert holds + [h] == [h];
    } else {
      assert (holds + [h])[1..] == holds[1..] + [h];
      TotalsAppend(holds[1..], h);
    }
  }

  lemma {:induction false} ActiveTotalCovers(holds: seq<Hold>, i: nat)
    requires i < |holds|
    requires forall j :: 0 <= j < |holds| ==> HoldShape(holds[j])
    ensures 0 <= ActiveUnits(holds[i]) <= ActiveTotal(holds)
  {
    assert forall j :: 0 <= j < |holds[1..]| ==> holds[1..][j] == holds[j + 1];
    if i > 0 { ActiveTotalCovers(holds[1..], i - 1); }
    assert HoldShape(holds[0]);
    ActiveTotalNonNegative(holds[1..]);
  }

  lemma {:induction false} ActiveTotalNonNegative(holds: seq<Hold>)
    requires forall j :: 0 <= j < |holds| ==> HoldShape(holds[j])
    ensures ActiveTotal(holds) >= 0
  {
    if holds != [] {
      assert HoldShape(holds[0]);
      assert forall j :: 0 <= j < |holds[1..]| ==> holds[1..][j] == holds[j + 1];
      ActiveTotalNonNegative(holds[1..]);
    }
  }

  lemma FindAfterUpdate(holds: seq<Hold>, i: nat, h: Hold, r: nat)
    requires i < |holds| && UniqueRuns(holds) && h.runId == holds[i].runId
    ensures FindHold(holds[i := h], r) == if r == h.runId then Some(h) else FindHold(holds, r)
  {
    var updated := holds[i := h];
    assert forall j :: 0 <= j < |holds| ==> updated[j].runId == holds[j].runId;
    var a, b := HoldIndex(holds, r), HoldIndex(updated, r);
    assert a < |holds| ==> updated[a].runId == r;
    assert b < |holds| ==> holds[b].runId == r;
  }

  lemma {:induction false} FindAfterAppend(holds: seq<Hold>, h: Hold, r: nat)
    requires forall i :: 0 <= i < |holds| ==> holds[i].runId != h.runId
    ensures FindHold(holds + [h], r) == if r == h.runId then Some(h) else FindHold(holds, r)
  {
    if holds == [] {
      assert holds + [h] == [h];
    } else {
      assert (holds + [h])[1..] == holds[1..] + [h];
      FindAfterAppend(holds[1..], h, r);
    }
  }

  lemma {:induction false} LedgerAppend(ledger: seq<Entry>, e: Entry, r: nat)
    ensures DebitsOf(ledger + [e], r) == DebitsOf(ledger, r) + (if e.Debit? && e.runId == r then [e] else [])
    ensures RechargesOf(ledger + [e], r) == RechargesOf(ledger, r) + (if e.Recharge? && e.rechargeId == r then [e] else [])
    ensures Replayed(ledger + [e]) == Replayed(ledger) + (if e.Debit? then -e.amount else e.amount)
  {
    assert (ledger + [e])[..|ledger|] == ledger;
    if ledger == [] {
      assert ledger + [e] == [e];
    } else {
      assert (ledger + [e])[1..] == ledger[1..] + [e];
      LedgerAppend(ledger[1..], e, r);
    }
  }

  // ---------- what each operation does to a valid book ----------

  ghost predicate SameOtherHolds(before: Book, after: Book, runId: nat) {
    forall r: nat :: r != runId ==> FindHold(after.holds, r) == FindHold(before.holds, r)
  }

  lemma HoldFacts(book: Book, runId: nat)
    requires Valid(book)
    ensures match FindHold(book.holds, runId)
            case None => true
            case Some(h) => HoldShape(h) && h.runId == runId && ActiveUnits(h) <= book.held
                            && (h.status == HoldCaptured ==> CapturedFactHolds(book, h))
                            && (h.status == HoldReleased ==> ReleasedFactHolds(book, h))
  {
    var i := HoldIndex(book.holds, runId);
    if i < |book.holds| {
      ActiveTotalCovers(book.holds, i);
      assert LedgerAgrees(book, runId);
    }
  }

  /** On a valid book a reservation is refused only for a spent hold or for lack of available balance:
      none of the other integrity checks can fire. */
  lemma ReserveOutcome(book: Book, runId: nat, target: int)
    requires Valid(book) && target > 0
    ensures var outcome := Reserve(book, runId, target);
            var available := book.balance - book.held;
            match FindHold(book.holds, runId)
            case None => if target <= available then outcome.Ok? else outcome == Err(Insufficient)
            case Some(h) => if h.status != HoldActive then outcome == Err(Integrity)
                            else if target - h.held <= available then outcome.Ok? else outcome == Err(Insufficient)
  {
    HoldFacts(book, runId);
    var i := HoldIndex(book.holds, runId);
    if i < |book.holds| {
      TotalsUpdate(book.holds, i, book.holds[i].(held := target));
    } else {
      TotalsAppend(book.holds, Hold(runId, target, 0, HoldActive));
    }
  }

  lemma ReserveKeepsValid(book: Book, runId: nat, target: int)
    requires Valid(book) && Reserve(book, runId, target).Ok?
    ensures var (book', h) := Reserve(book, runId, target).value;
            && Valid(book')
            && FindHold(book'.holds, runId) == Some(h) && h.status == HoldActive
            && h.held == (match FindHold(book.holds, runId) case None => target case Some(g) => if target <= g.held then g.held else target)
            && SameOtherHolds(book, book', runId)
            && book'.balance == book.balance && book'.ledger == book.ledger
  {
    HoldFacts(book, runId);
    var (book', h) := Reserve(book, runId, target).value;
    var i := HoldIndex(book.holds, runId);
    if i < |book.holds| {
      if book' != book {
        TotalsUpdate(book.holds, i, h);
        forall r: nat ensures FindHold(book'.holds, r) == if r == runId then Some(h) else FindHold(book.holds, r) {
          FindAfterUpdate(book.holds, i, h, r);
        }
        forall r: nat ensures LedgerAgrees(book', r) { assert LedgerAgrees(book, r); }
      }
    } else {
      TotalsAppend(book.holds, h);
      forall r: nat ensures FindHold(book'.holds, r) == if r == runId then Some(h) else FindHold(book.holds, r) {
        FindAfterAppend(book.holds, h, r);
      }
      forall r: nat ensures LedgerAgrees(book', r) { assert LedgerAgrees(book, r); }
    }
  }

  /** A capture succeeds exactly on an active hold that covers it, or as the replay of the same capture. */
  lemma CaptureOutcome(book: Book, runId: nat, actual: int)
    requires Valid(book)
    ensures Capture(book, runId, actual).Ok? <==>
              match FindHold(book.holds, runId)
              case None => false
              case Some(h) =>
                0 <= actual
                && if h.status == HoldActive then actual <= h.held else h.status == HoldCaptured && actual == h.captured
  {
    HoldFacts(book, runId);
    var i := HoldIndex(book.holds, runId);
    if i < |book.holds| && actual >= 0 {
      TotalsUpdate(book.holds, i, Hold(runId, 0, actual, HoldCaptured));
    }
  }

  /** The book a capture of an active hold leaves. */
  function Captured(book: Book, i: nat, actual: int): Book
    requires i < |book.holds|
  {
    var h := book.holds[i];
    book.(balance := book.balance - actual, consumed := book.consumed + actual,
          held := book.held - h.held, holds := book.holds[i := Hold(h.runId, 0, actual, HoldCaptured)],
          ledger := if actual > 0 then book.ledger + [Debit(h.runId, actual, book.balance, book.balance - actual)] else book.ledger)
  }

  lemma CapturedRunAgrees(book: Book, i: nat, actual: int, r: nat)
    requires Valid(book) && i < |book.holds| && book.holds[i].status == HoldActive && 0 <= actual <= book.balance
    ensures var book' := Captured(book, i, actual);
            && LedgerAgrees(book', r) && |RechargesOf(book'.ledger, r)| <= 1
            && FindHold(book'.holds, r) == (if r == book.holds[i].runId then Some(book'.holds[i]) else FindHold(book.holds, r))
  {
    assert LedgerAgrees(book, r);
    FindAfterUpdate(book.holds, i, Captured(book, i, actual).holds[i], r);
    FindAfterUpdate(book.holds, i, book.holds[i], r);
    assert book.holds[i := book.holds[i]] == book.holds;
    if actual > 0 { LedgerAppend(book.ledger, Debit(book.holds[i].runId, actual, book.balance, book.balance - actual), r); }
  }

  lemma CapturedIsValid(book: Book, i: nat, actual: int)
    requires Valid(book) && i < |book.holds| && book.holds[i].status == HoldActive && 0 <= actual <= book.holds[i].held
    ensures Valid(Captured(book, i, actual))
  {
    var book' := Captured(book, i, actual);
    ActiveTotalCovers(book.holds, i);
    TotalsUpdate(book.holds, i, book'.holds[i]);
    ActiveTotalNonNegative(book'.holds);
    if actual > 0 { LedgerAppend(book.ledger, Last(book'.ledger), 0); }
    forall r: nat ensures LedgerAgrees(book', r) && |RechargesOf(book'.ledger, r)| <= 1 {
      CapturedRunAgrees(book, i, actual, r);
    }
  }

  lemma CaptureKeepsValid(book: Book, runId: nat, actual: int)
    requires Valid(book) && Capture(book, runId, actual).Ok?
    ensures var (book', row) := Capture(book, runId, actual).value;
            var taken := match FindHold(book.holds, runId) case None => 0 case Some(h) => if h.status == HoldActive then actual else 0;
            && Valid(book')
            && FindHold(book'.holds, runId) == Some(Hold(runId, 0, actual, HoldCaptured))
            && SameOtherHolds(book, book', runId)
            && book'.balance == book.balance - taken
            && book'.held == book.held - (match FindHold(book.holds, runId) case None => 0 case Some(h) => h.held)
            && (row.None? <==> actual == 0)
            && (row.Some? ==> DebitsOf(book'.ledger, runId) == [row.value] && row.value.amount == actual)
  {
    HoldFacts(book, runId);
    var i := HoldIndex(book.holds, runId);
    assert LedgerAgrees(book, runId);
    if book.holds[i].status == HoldActive {
      CapturedIsValid(book, i, actual);
      forall r: nat
        ensures FindHold(Captured(book, i, actual).holds, r)
             == if r == runId then Some(Hold(runId, 0, actual, HoldCaptured)) else FindHold(book.holds, r)
      {
        CapturedRunAgrees(book, i, actual, r);
      }
      if actual > 0 { LedgerAppend(book.ledger, Debit(runId, actual, book.balance, book.balance - actual), runId); }
    }
  }

  /** Repeating a capture finds the ledger row the first one wrote and changes nothing. */
  lemma CaptureTwice(book: Book, runId: nat, actual: int)
    requires Valid(book) && Capture(book, runId, actual).Ok?
    ensures var (book', row) := Capture(book, runId, actual).value;
            Capture(book', runId, actual) == Ok((book', row))
  {
    CaptureKeepsValid(book, runId, actual);
    var (book', row) := Capture(book, runId, actual).value;
    HoldFacts(book', runId);
  }

  lemma ReleaseOutcome(book: Book, runId: nat)
    requires Valid(book)
    ensures Release(book, runId).Ok? <==>
              match FindHold(book.holds, runId) case None => false case Some(h) => h.status != HoldCaptured
  {
    HoldFacts(book, runId);
    var i := HoldIndex(book.holds, runId);
    if i < |book.holds| {
      TotalsUpdate(book.holds, i, Hold(runId, 0, 0, HoldReleased));
    }
  }

  lemma ReleaseKeepsValid(book: Book, runId: nat)
    requires Valid(book) && Release(book, runId).Ok?
    ensures var book' := Release(book, runId).value;
            && Valid(book')
            && FindHold(book'.holds, runId) == Some(Hold(runId, 0, 0, HoldReleased))
            && SameOtherHolds(book, book', runId)
            && book'.balance == book.balance && book'.ledger == book.ledger
            && book'.held == book.held - (match FindHold(book.holds, runId) case None => 0 case Some(h) => h.held)
            && Release(book', runId) == Ok(book')
  {
    HoldFacts(book, runId);
    var book' := Release(book, runId).value;
    var i := HoldIndex(book.holds, runId);
    if book.holds[i].status == HoldActive {
      var h' := Hold(runId, 0, 0, HoldReleased);
      TotalsUpdate(book.holds, i, h');
      forall r: nat ensures FindHold(book'.holds, r) == if r == runId then Some(h') else FindHold(book.holds, r) {
        FindAfterUpdate(book.holds, i, h', r);
      }
      forall r: nat ensures LedgerAgrees(book', r) { assert LedgerAgrees(book, r); }
      HoldFacts(book', runId);
    }
  }

  lemma CreditKeepsValid(book: Book, rechargeId: nat, amount: int)
    requires Valid(book) && Credit(book, rechargeId, amount).Ok?
    ensures var book' := Credit(book, rechargeId, amount).value;
            && Valid(book') && book'.holds == book.holds
            && book'.balance == book.balance + (if RechargesOf(book.ledger, rechargeId) == [] then amount else 0)
            && Credit(book', rechargeId, amount) == Ok(book')
  {
    var book' := Credit(book, rechargeId, amount).value;
    assert |RechargesOf(book.ledger, rechargeId)| <= 1;
    if book' != book {
      var row := Recharge(rechargeId, amount, book.balance, book.balance + amount);
      LedgerAppend(book.ledger, row, rechargeId);
      forall r: nat ensures LedgerAgrees(book', r) && |RechargesOf(book'.ledger, r)| <= 1 {
        LedgerAppend(book.ledger, row, r);
        assert LedgerAgrees(book, r) && |RechargesOf(book.ledger, r)| <= 1;
      }
    }
  }

  // ---------- whole histories ----------

  datatype Op =
    | DoReserve(runId: nat, target: int)
    | DoCapture(runId: nat, actual: int)
    | DoRelease(runId: nat)
    | DoCredit(rechargeId: nat, amount: int)

  /** One committed operation; a refused one rolls back and leaves the book as it was. */
  function Apply(book: Book, op: Op): Book {
    match op
    case DoReserve(r, t) => (match Reserve(book, r, t) case Ok(v) => v.0 case Err(_) => book)
    case DoCapture(r, a) => (match Capture(book, r, a) case Ok(v) => v.0 case Err(_) => book)
    case DoRelease(r) => (match Release(book, r) case Ok(b) => b case Err(_) => book)
    case DoCredit(c, a) => (match Credit(book, c, a) case Ok(b) => b case Err(_) => book)
  }

  function Run(book: Book, ops: seq<Op>): Book
    decreases |ops|
  {
    if ops == [] then book else Run(Apply(book, ops[0]), ops[1..])
  }

  ghost predicate Spent(book: Book, runId: nat) {
    FindHold(book.holds, runId).Some? && FindHold(book.holds, runId).value.status != HoldActive
  }

  lemma ApplyKeepsValid(book: Book, op: Op)
    requires Valid(book)
    ensures Valid(Apply(book, op))
  {
    match op {
      case DoReserve(r, t) => if Reserve(book, r, t).Ok? { ReserveKeepsValid(book, r, t); }
      case DoCapture(r, a) => if Capture(book, r, a).Ok? { CaptureKeepsValid(book, r, a); }
      case DoRelease(r) => if Release(book, r).Ok? { ReleaseKeepsValid(book, r); }
      case DoCredit(c, a) => if Credit(book, c, a).Ok? { CreditKeepsValid(book, c, a); }
    }
  }

  /** A capture writes no ledger row for any other run, nor for a hold already spent. */
  lemma CaptureLedgerFrame(book: Book, r: nat, actual: int, runId: nat)
    requires Valid(book) && Capture(book, r, actual).Ok?
    requires r == runId ==> Spent(book, runId)
    ensures DebitsOf(Capture(book, r, actual).value.0.ledger, runId) == DebitsOf(book.ledger, runId)
  {
    if actual > 0 { LedgerAppend(book.ledger, Debit(r, actual, book.balance, book.balance - actual), runId); }
  }

  /** No operation on a run whose hold is spent changes the book. */
  lemma SpentIsFinal(book: Book, runId: nat, units: int)
    requires Spent(book, runId)
    ensures Apply(book, DoReserve(runId, units)) == book
    ensures Apply(book, DoCapture(runId, units)) == book
    ensures Apply(book, DoRelease(runId)) == book
  {
  }

  lemma ApplyKeepsSpent(book: Book, op: Op, runId: nat)
    requires Valid(book) && Spent(book, runId)
    ensures FindHold(Apply(book, op).holds, runId) == FindHold(book.holds, runId)
    ensures DebitsOf(Apply(book, op).ledger, runId) == DebitsOf(book.ledger, runId)
  {
    if op.DoCredit? {
      LedgerAppend(book.ledger, Recharge(op.rechargeId, op.amount, book.balance, book.balance + op.amount), runId);
    } else if op.runId == runId {
      SpentIsFinal(book, runId, if op.DoReserve? then op.target else if op.DoCapture? then op.actual else 0);
    } else {
      ApplyElsewhere(book, op, runId);
    }
  }

  lemma ApplyElsewhere(book: Book, op: Op, runId: nat)
    requires Valid(book) && !op.DoCredit? && op.runId != runId
    ensures FindHold(Apply(book, op).holds, runId) == FindHold(book.holds, runId)
    ensures DebitsOf(Apply(book, op).ledger, runId) == DebitsOf(book.ledger, runId)
  {
    match op {
      case DoReserve(r, t) => if Reserve(book, r, t).Ok? { ReserveKeepsValid(book, r, t); }
      case DoCapture(r, a) => if Capture(book, r, a).Ok? { CaptureKeepsValid(book, r, a); CaptureLedgerFrame(book, r, a, runId); }
      case DoRelease(r) => if Release(book, r).Ok? { ReleaseKeepsValid(book, r); }
    }
  }

  /** Every history from a valid book keeps it valid, and a spent hold and its ledger rows never change again. */
  lemma {:induction false} HistoryKeeps(book: Book, ops: seq<Op>, runId: nat)
    requires Valid(book)
    ensures Valid(Run(book, ops))
    ensures Spent(book, runId) ==> FindHold(Run(book, ops).holds, runId) == FindHold(book.holds, runId)
                                   && DebitsOf(Run(book, ops).ledger, runId) == DebitsOf(book.ledger, runId)
    decreases |ops|
  {
    if ops != [] {
      ApplyKeepsValid(book, ops[0]);
      if Spent(book, runId) { ApplyKeepsSpent(book, ops[0], runId); }
      HistoryKeeps(Apply(book, ops[0]), ops[1..], runId);
    }
  }

  ghost predicate Conserved(book: Book, runId: nat) {
    && 0 <= ActiveTotal(book.holds) == book.held <= book.balance
    && book.balance == book.recharged - CapturedTotal(book.holds) == Replayed(book.ledger)
    && |DebitsOf(book.ledger, runId)| <= 1
    && (CapturedUnits(book.holds, runId) > 0 <==> DebitsOf(book.ledger, runId) != [])
    && forall e :: e in DebitsOf(book.ledger, runId) ==> e.amount == CapturedUnits(book.holds, runId)
  }

  /** In every history of a wallet: holds never exceed the balance, the balance is what was recharged minus what was
      captured, the ledger replays to it, and each run is debited at most once, for exactly its captured units. */
  lemma MoneyIsConserved(ops: seq<Op>, runId: nat)
    ensures Conserved(Run(EMPTY_BOOK, ops), runId)
  {
    EmptyBookIsValid();
    HistoryConserves(EMPTY_BOOK, ops, runId);
  }

  lemma HistoryConserves(start: Book, ops: seq<Op>, runId: nat)
    requires Valid(start)
    ensures Conserved(Run(start, ops), runId)
  {
    HistoryKeeps(start, ops, runId);
    ValidBookConserves(Run(start, ops), runId);
  }

  lemma EmptyBookIsValid()
    ensures Valid(EMPTY_BOOK)
  {
  }

  lemma ValidBookConserves(book: Book, runId: nat)
    requires Valid(book)
    ensures Conserved(book, runId)
  {
    assert LedgerAgrees(book, runId);
  }
}
