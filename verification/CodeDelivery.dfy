/** Verification codes: a delivery takes a lock, stores a pending code, and commits or rolls back; readers see only
    delivered codes. The code key and the lock key expire separately. */
module CodeDelivery {
  import opened Common

  /** A plain code, or the hash a delivery writes. */
  datatype CodeValue = Plain(code: string) | Pending(owner: string, code: string) | Delivered(owner: string, code: string)

  datatype Stored<V> = Stored(value: V, expires: Option<int>)

  /** One code key, its delivery lock, and the server clock in milliseconds. */
  datatype Keys = Keys(code: Option<Stored<CodeValue>>, lock: Option<Stored<string>>, now: int)

  function Alive<V>(s: Option<Stored<V>>, now: int): Option<V> {
    if s.Some? && (s.value.expires.None? || now <= s.value.expires.value) then Some(s.value.value) else None
  }

  function Code(k: Keys): Option<CodeValue> {
    Alive(k.code, k.now)
  }

  function LockOwner(k: Keys): Option<string> {
    Alive(k.lock, k.now)
  }

  // ---------- the scripts ----------

  function Get(k: Keys): string {
    match Code(k)
    case None => ""
    case Some(Plain(c)) => c
    case Some(Delivered(_, c)) => c
    case Some(Pending(_, _)) => ""
  }

  function Consume(k: Keys, expected: string): (Keys, bool) {
    match Code(k)
    case None => (k, false)
    case Some(Pending(_, _)) => (k, false)
    case Some(v) => if expected != "" && v.code == expected then (k.(code := None), true) else (k, false)
  }

  function Set(k: Keys, code: string, ttl: Option<int>): Keys {
    k.(code := Some(Stored(Plain(code), if ttl.Some? then Some(k.now + ttl.value) else None)))
  }

  function Acquire(k: Keys, owner: string, ttl: int): (Keys, bool) {
    if LockOwner(k).Some? then (k, false) else (k.(lock := Some(Stored(owner, Some(k.now + ttl)))), true)
  }

  function SetPending(k: Keys, owner: string, code: string, deadline: int): (Keys, int) {
    if LockOwner(k) != Some(owner) then (k, 0)
    else if deadline <= k.now then (k, -1)
    else (k.(code := Some(Stored(Pending(owner, code), Some(deadline)))), 1)
  }

  function Renew(k: Keys, owner: string, ttl: int): (Keys, int) {
    if LockOwner(k) != Some(owner) then (k, 0) else (k.(lock := Some(Stored(owner, Some(k.now + ttl)))), 1)
  }

  function Commit(k: Keys, owner: string): (Keys, int) {
    if LockOwner(k) != Some(owner) then (k, -1)
    else
      match Code(k)
      case Some(Pending(holder, c)) =>
        if holder != owner then (k, -2) else (k.(code := Some(Stored(Delivered(holder, c), k.code.value.expires)), lock := None), 1)
      case _ => (k, -2)
  }

  function Rollback(k: Keys, owner: string): (Keys, int) {
    if LockOwner(k) != Some(owner) then (k, -1)
    else
      match Code(k)
      case None => (k.(lock := None), 1)
      case Some(Pending(holder, _)) => if holder == owner then (k.(code := None, lock := None), 1) else (k, -2)
      case _ => (k, -2)
  }

  // ---------- runs ----------

  datatype Op =
    | DoGet
    | DoConsume(expected: string)
    | DoSet(code: string, lifetime: Option<int>)
    | DoAcquire(owner: string, ttl: int)
    | DoSetPending(owner: string, code: string, deadline: int)
    | DoRenew(owner: string, ttl: int)
    | DoCommit(owner: string)
    | DoRollback(owner: string)
    | Elapse(ms: nat)

  function Apply(k: Keys, op: Op): Keys {
    match op
    case DoGet => k
    case DoConsume(expected) => Consume(k, expected).0
    case DoSet(code, ttl) => Set(k, code, ttl)
    case DoAcquire(owner, ttl) => Acquire(k, owner, ttl).0
    case DoSetPending(owner, code, deadline) => SetPending(k, owner, code, deadline).0
    case DoRenew(owner, ttl) => Renew(k, owner, ttl).0
    case DoCommit(owner) => Commit(k, owner).0
    case DoRollback(owner) => Rollback(k, owner).0
    case Elapse(ms) => k.(now := k.now + ms)
  }

  function Run(k: Keys, ops: seq<Op>): Keys
    decreases |ops|
  {
    if ops == [] then k else Run(Apply(k, ops[0]), ops[1..])
  }

  predicate Commits(k: Keys, op: Op) {
    op.DoCommit? && Commit(k, op.owner).1 == 1
  }

  predicate Consumes(k: Keys, op: Op) {
    op.DoConsume? && Consume(k, op.expected).1
  }

  function CountCommitsAndSets(k: Keys, ops: seq<Op>): nat
    decreases |ops|
  {
    if ops == [] then 0
    else (if Commits(k, ops[0]) || ops[0].DoSet? then 1 else 0) + CountCommitsAndSets(Apply(k, ops[0]), ops[1..])
  }

  function CountConsumes(k: Keys, ops: seq<Op>): nat
    decreases |ops|
  {
    if ops == [] then 0
    else (if Consumes(k, ops[0]) then 1 else 0) + CountConsumes(Apply(k, ops[0]), ops[1..])
  }

  predicate Readable(k: Keys) {
    Code(k).Some? && !Code(k).value.Pending?
  }

  // ---------- readers never see a pending code ----------

  /** A code that can be read or consumed is a plain one or one whose delivery committed. */
  lemma ReadersSeeOnlyDelivered(k: Keys, expected: string)
    ensures Get(k) != "" ==> Readable(k)
    ensures Consume(k, expected).1 <==> expected != "" && Readable(k) && Code(k).value.code == expected
    ensures Consume(k, expected).1 ==>
              && Get(k) == expected
              && Get(Consume(k, expected).0) == ""
              && !Consume(Consume(k, expected).0, expected).1
    ensures !Consume(k, expected).1 ==> Consume(k, expected).0 == k
  {
  }

  /** A readable code appears only through a Set or a commit by the owner of a live lock. */
  lemma ReadableOnlyThroughCommit(k: Keys, op: Op)
    requires Readable(Apply(k, op)) && (!Readable(k) || Code(Apply(k, op)) != Code(k))
    ensures op.DoSet? || (op.DoCommit? && LockOwner(k) == Some(op.owner) && Code(k).Some? && Code(k).value.Pending?
                          && Code(k).value.owner == op.owner && Code(Apply(k, op)) == Some(Delivered(op.owner, Code(k).value.code)))
  {
  }

  /** In every run successful consumes never outnumber commits and plain sets, counting a code that was readable at the start. */
  lemma {:induction false} ConsumesNeverExceedDeliveries(k: Keys, ops: seq<Op>)
    ensures CountConsumes(k, ops) + (if Readable(Run(k, ops)) then 1 else 0)
            <= CountCommitsAndSets(k, ops) + (if Readable(k) then 1 else 0)
    decreases |ops|
  {
    if ops != [] {
      var k' := Apply(k, ops[0]);
      ConsumesNeverExceedDeliveries(k', ops[1..]);
      if Readable(k') && !Readable(k) { ReadableOnlyThroughCommit(k, ops[0]); }
    }
  }

  // ---------- deliveries ----------

  /** A delivery's owner string is drawn once: after its lock is taken, no later acquisition uses it. */
  ghost predicate FreshOwner(ops: seq<Op>, owner: string) {
    forall i :: 0 <= i < |ops| ==> ops[i].DoAcquire? ==> ops[i].owner != owner
  }

  lemma LockStaysLost(k: Keys, op: Op, owner: string)
    requires LockOwner(k) != Some(owner) && (op.DoAcquire? ==> op.owner != owner)
    ensures LockOwner(Apply(k, op)) != Some(owner)
  {
  }

  /** An owner whose lock is gone can never set, renew, commit or roll back again, whatever happens next. */
  lemma {:induction false} LostLockIsLostForEver(k: Keys, ops: seq<Op>, owner: string, code: string, deadline: int, ttl: int)
    requires LockOwner(k) != Some(owner) && FreshOwner(ops, owner)
    ensures var k' := Run(k, ops);
            && LockOwner(k') != Some(owner)
            && SetPending(k', owner, code, deadline) == (k', 0)
            && Renew(k', owner, ttl) == (k', 0)
            && Commit(k', owner) == (k', -1)
            && Rollback(k', owner) == (k', -1)
    decreases |ops|
  {
    if ops != [] {
      LockStaysLost(k, ops[0], owner);
      LostLockIsLostForEver(Apply(k, ops[0]), ops[1..], owner, code, deadline, ttl);
    }
  }

  /** So a commit that succeeds proves that the lock was held in every state since it was taken, and that no other delivery
      acquired, stored a pending code, committed or rolled back in between. */
  lemma {:induction false} CommitMeansUndisturbed(k: Keys, ops: seq<Op>, owner: string)
    requires FreshOwner(ops, owner) && Commit(Run(k, ops), owner).1 == 1
    ensures forall i :: 0 <= i <= |ops| ==> LockOwner(Run(k, ops[..i])) == Some(owner)
    ensures forall i :: 0 <= i < |ops| ==>
              && (ops[i].DoAcquire? ==> !Acquire(Run(k, ops[..i]), ops[i].owner, ops[i].ttl).1)
              && (ops[i].DoSetPending? && ops[i].owner != owner ==>
                    SetPending(Run(k, ops[..i]), ops[i].owner, ops[i].code, ops[i].deadline).1 == 0)
              && (ops[i].DoCommit? && ops[i].owner != owner ==> Commit(Run(k, ops[..i]), ops[i].owner).1 == -1)
              && (ops[i].DoRollback? && ops[i].owner != owner ==> Rollback(Run(k, ops[..i]), ops[i].owner).1 == -1)
  {
    forall i | 0 <= i <= |ops| ensures LockOwner(Run(k, ops[..i])) == Some(owner) {
      RunSplit(k, ops, i);
      if LockOwner(Run(k, ops[..i])) != Some(owner) {
        LostLockIsLostForEver(Run(k, ops[..i]), ops[i..], owner, "", 0, 1);
      }
    }
  }

  lemma {:induction false} RunSplit(k: Keys, ops: seq<Op>, i: nat)
    requires i <= |ops|
    ensures Run(k, ops) == Run(Run(k, ops[..i]), ops[i..])
    decreases i
  {
    if i == 0 {
      assert ops[0..] == ops;
    } else {
      RunSplit(Apply(k, ops[0]), ops[1..], i - 1);
      assert ops[..i][1..] == ops[1..][..i - 1] && ops[1..][i - 1..] == ops[i..];
    }
  }

  // ---------- what each script does, and for how long ----------

  /** The lock is free to take exactly while nobody holds it; it is then held for its time to live, to the millisecond. */
  lemma AcquireOutcome(k: Keys, owner: string, ttl: int, ms: nat)
    requires ttl >= 1
    ensures var (k', acquired) := Acquire(k, owner, ttl);
            && (acquired <==> LockOwner(k).None?) && k'.code == k.code && k'.now == k.now
            && (!acquired ==> k' == k)
            && (acquired ==> LockOwner(Apply(k', Elapse(ms))) == if ms <= ttl then Some(owner) else None)
  {
  }

  /** A renewal succeeds exactly for the holder, and gives it a full time to live from now. */
  lemma RenewOutcome(k: Keys, owner: string, ttl: int, ms: nat)
    requires ttl >= 1
    ensures var (k', result) := Renew(k, owner, ttl);
            && (result == 1 <==> LockOwner(k) == Some(owner)) && k'.code == k.code && k'.now == k.now
            && (result != 1 ==> k' == k && result == 0)
            && (result == 1 ==> LockOwner(Apply(k', Elapse(ms))) == if ms <= ttl then Some(owner) else None)
  {
  }

  /** A plain code is readable at once and until its lifetime is over, for ever without one. */
  lemma SetOutcome(k: Keys, code: string, ttl: Option<int>, ms: nat)
    requires ttl.Some? ==> ttl.value >= 1
    ensures var k' := Set(k, code, ttl);
            && k'.lock == k.lock && k'.now == k.now
            && Code(Apply(k', Elapse(ms))) == (if ttl.None? || ms <= ttl.value then Some(Plain(code)) else None)
            && Get(Apply(k', Elapse(ms))) == (if ttl.None? || ms <= ttl.value then code else "")
  {
  }

  /** A pending code is stored exactly by the holder of the lock, before its deadline, and lives until then. */
  lemma SetPendingOutcome(k: Keys, owner: string, code: string, deadline: int, ms: nat)
    ensures var (k', result) := SetPending(k, owner, code, deadline);
            && (result == 1 <==> LockOwner(k) == Some(owner) && deadline > k.now) && k'.lock == k.lock && k'.now == k.now
            && (result == -1 <==> LockOwner(k) == Some(owner) && deadline <= k.now)
            && (result != 1 ==> k' == k)
            && (result == 1 ==>
                  Code(Apply(k', Elapse(ms))) == if k.now + ms <= deadline then Some(Pending(owner, code)) else None)
  {
  }

  /** A commit succeeds exactly for the holder of the lock whose pending code is still there; it delivers that code and frees the
      lock. */
  lemma CommitOutcome(k: Keys, owner: string)
    ensures var (k', result) := Commit(k, owner);
            var mine := Code(k).Some? && Code(k).value.Pending? && Code(k).value.owner == owner;
            && (result == 1 <==> LockOwner(k) == Some(owner) && mine)
            && (result == -1 <==> LockOwner(k) != Some(owner))
            && (result != 1 ==> k' == k)
            && (result == 1 ==> Code(k') == Some(Delivered(owner, Code(k).value.code)) && LockOwner(k').None?)
  {
  }

  /** A rollback succeeds exactly for the holder of the lock while no other code stands in its way; it leaves neither its code nor
      the lock. */
  lemma RollbackOutcome(k: Keys, owner: string)
    ensures var (k', result) := Rollback(k, owner);
            var mine := Code(k).Some? && Code(k).value.Pending? && Code(k).value.owner == owner;
            && (result == 1 <==> LockOwner(k) == Some(owner) && (Code(k).None? || mine))
            && (result == -1 <==> LockOwner(k) != Some(owner))
            && (result != 1 ==> k' == k)
            && (result == 1 ==> Code(k').None? && LockOwner(k').None?)
  {
  }

  /** The commands of a sender that waits, renews, waits, renews and so on. */
  function Waiting(owner: string, ttl: int, waits: seq<nat>): seq<Op> {
    if waits == [] then [] else [Elapse(waits[0]), DoRenew(owner, ttl)] + Waiting(owner, ttl, waits[1..])
  }

  function Total(waits: seq<nat>): nat {
    if waits == [] then 0 else waits[0] + Total(waits[1..])
  }

  lemma RunConcat(k: Keys, a: seq<Op>, b: seq<Op>)
    ensures Run(k, a + b) == Run(Run(k, a), b)
    decreases |a|
  {
    if a == [] {
      assert a + b == b;
    } else {
      assert (a + b)[1..] == a[1..] + b;
      RunConcat(Apply(k, a[0]), a[1..], b);
    }
  }

  /** Renewals in time keep a delivery alive however long it takes: if no wait exceeds the time to live of the lock, the commit
      succeeds whenever the code's own deadline has not passed, and the code is readable until that deadline. */
  lemma {:induction false} SlowDeliveryCommits(k: Keys, owner: string, code: string, deadline: int, ttl: int, left: int, waits: seq<nat>)
    requires k.lock == Some(Stored(owner, Some(k.now + left))) && left >= 0 && ttl >= 1
    requires k.code == Some(Stored(Pending(owner, code), Some(deadline)))
    requires waits != [] ==> waits[0] <= left
    requires forall i :: 1 <= i < |waits| ==> waits[i] <= ttl
    ensures var k' := Run(k, Waiting(owner, ttl, waits));
            && k'.now == k.now + Total(waits) && LockOwner(k') == Some(owner)
            && (Commit(k', owner).1 == 1 <==> k.now + Total(waits) <= deadline)
            && (Commit(k', owner).1 == 1 ==> Get(Commit(k', owner).0) == code)
    decreases |waits|
  {
    if waits != [] {
      var step := [Elapse(waits[0]), DoRenew(owner, ttl)];
      var waited := Apply(k, Elapse(waits[0]));
      var renewed := Apply(waited, DoRenew(owner, ttl));
      RunConcat(k, step, Waiting(owner, ttl, waits[1..]));
      assert Run(k, step) == renewed by {
        assert step[0] == Elapse(waits[0]) && step[1..] == [DoRenew(owner, ttl)];
        assert Run(k, step) == Run(waited, [DoRenew(owner, ttl)]);
        assert [DoRenew(owner, ttl)][1..] == [] && Run(renewed, []) == renewed;
      }
      assert forall i :: 0 <= i < |waits[1..]| ==> waits[1..][i] == waits[i + 1];
      SlowDeliveryCommits(renewed, owner, code, deadline, ttl, ttl, waits[1..]);
    }
  }

  // ---------- deadlines ----------

  ghost predicate IsDelivery(k: Keys, owner: string, code: string, deadline: int) {
    k.code == Some(Stored(Pending(owner, code), Some(deadline))) || k.code == Some(Stored(Delivered(owner, code), Some(deadline)))
  }

  predicate Replaces(op: Op) {
    op.DoSet? || op.DoSetPending?
  }

  /** Renewals, commits and other deliveries' attempts never move the deadline a pending code was stored with: until the
      code is replaced or removed it keeps that deadline, and it is readable at no time after it. */
  lemma {:induction false} DeadlineIsFixedAtSetPending(k: Keys, ops: seq<Op>, owner: string, code: string, deadline: int)
    requires IsDelivery(k, owner, code, deadline)
    requires forall i :: 0 <= i < |ops| ==> !Replaces(ops[i])
    ensures var k' := Run(k, ops);
            && (k'.code.None? || IsDelivery(k', owner, code, deadline))
            && (Readable(k') <==> k'.code == Some(Stored(Delivered(owner, code), Some(deadline))) && k'.now <= deadline)
            && Get(k') == (if Readable(k') then code else "")
    decreases |ops|
  {
    if ops != [] {
      var k' := Apply(k, ops[0]);
      if k'.code.None? {
        NothingAppears(k', ops[1..]);
      } else {
        DeadlineIsFixedAtSetPending(k', ops[1..], owner, code, deadline);
      }
    }
  }

  lemma {:induction false} NothingAppears(k: Keys, ops: seq<Op>)
    requires k.code.None? && forall i :: 0 <= i < |ops| ==> !ops[i].DoSet? && !ops[i].DoSetPending?
    ensures Run(k, ops).code.None?
    decreases |ops|
  {
    if ops != [] { NothingAppears(Apply(k, ops[0]), ops[1..]); }
  }

  /** An undisturbed delivery: the code becomes readable with the commit, not before, and the lock is free again. */
  lemma DeliveryRoundTrip(k: Keys, owner: string, code: string, ttl: int, deadline: int)
    requires LockOwner(k).None? && ttl >= 1 && deadline > k.now && code != ""
    ensures var (locked, ok) := Acquire(k, owner, ttl);
            var (pending, stored) := SetPending(locked, owner, code, deadline);
            var (done, committed) := Commit(pending, owner);
            && ok && stored == 1 && committed == 1
            && Get(pending) == "" && Get(done) == code && LockOwner(done).None?
            && Consume(done, code).1
            && Rollback(pending, owner) == (k.(code := None, lock := None), 1)
  {
  }

  // ---------- the store ----------

  /** The key space as the scripts change it. */
  class CodeStore {
    var code: Option<Stored<CodeValue>>
    var lock: Option<Stored<string>>
    var now: int

    function State(): Keys
      reads this
    {
      Keys(code, lock, now)
    }

    constructor ()
      ensures State() == Keys(None, None, 0)
    {
      code, lock, now := None, None, 0;
    }

    method GetCode() returns (value: string)
      ensures value == Get(State())
    {
      value := "";
      if Code(State()).Some? {
        match Code(State()).value {
          case Plain(c) => value := c;
          case Delivered(_, c) => value := c;
          case Pending(_, _) =>
        }
      }
    }

    method ConsumeCode(expected: string) returns (consumed: bool)
      modifies this`code
      ensures (State(), consumed) == Consume(old(State()), expected)
    {
      if expected == "" { return false; }
      var found := Code(State());
      if found.None? || found.value.Pending? || found.value.code != expected { return false; }
      code := None;
      consumed := true;
    }

    method SetCode(value: string, ttl: Option<int>)
      modifies this`code
      ensures State() == Set(old(State()), value, ttl)
    {
      code := Some(Stored(Plain(value), if ttl.Some? then Some(now + ttl.value) else None));
    }

    method AcquireDelivery(owner: string, ttl: int) returns (acquired: bool)
      modifies this`lock
      ensures (State(), acquired) == Acquire(old(State()), owner, ttl)
    {
      if LockOwner(State()).Some? { return false; }
      lock := Some(Stored(owner, Some(now + ttl)));
      acquired := true;
    }

    method SetPendingDelivery(owner: string, value: string, deadline: int) returns (result: int)
      modifies this`code
      ensures (State(), result) == SetPending(old(State()), owner, value, deadline)
    {
      if LockOwner(State()) != Some(owner) { return 0; }
      if deadline <= now { return -1; }
      code := None;
      code := Some(Stored(Pending(owner, value), None));
      code := Some(code.value.(expires := Some(deadline)));
      result := 1;
    }

    method RenewDelivery(owner: string, ttl: int) returns (result: int)
      modifies this`lock
      ensures (State(), result) == Renew(old(State()), owner, ttl)
    {
      if LockOwner(State()) != Some(owner) { return 0; }
      lock := Some(lock.value.(expires := Some(now + ttl)));
      result := 1;
    }

    method CommitDelivery(owner: string) returns (result: int)
      modifies this`code, this`lock
      ensures (State(), result) == Commit(old(State()), owner)
    {
      if LockOwner(State()) != Some(owner) { return -1; }
      var found := Code(State());
      if found.None? || !found.value.Pending? || found.value.owner != owner { return -2; }
      code := Some(code.value.(value := Delivered(owner, found.value.code)));
      lock := None;
      result := 1;
    }

    method RollbackDelivery(owner: string) returns (result: int)
      modifies this`code, this`lock
      ensures (State(), result) == Rollback(old(State()), owner)
    {
      if LockOwner(State()) != Some(owner) { return -1; }
      var found := Code(State());
      if found.Some? && found.value.Pending? && found.value.owner == owner {
        code := None;
      } else if found.Some? {
        return -2;
      }
      lock := None;
      result := 1;
    }
  }
}
