/** The fenced lease: three scripts over one key space that holds both lease hashes and fencing counters. */
module LeaseLock {
  import opened Common

  datatype Entry = LeaseHash(owner: string, token: nat, expires: int) | Counter(value: nat)

  /** Redis as the scripts see it; `now` is the server clock. */
  datatype Redis = Redis(entries: map<string, Entry>, now: int)

  datatype Lease = Lease(key: string, owner: string, token: nat)

  datatype LeaseError = NotAcquired | LeaseLost | InvalidInput | ScriptError

  function FencingKey(key: string): string {
    key + ":fencing-token"
  }

  /** A key whose expiry has passed is gone. */
  function Visible(r: Redis, key: string): Option<Entry> {
    if key !in r.entries then None
    else if r.entries[key].LeaseHash? && r.now > r.entries[key].expires then None
    else Some(r.entries[key])
  }

  // ---------- the scripts ----------

  function AcquireScript(r: Redis, key: string, owner: string, ttl: int): Result<(Redis, nat), LeaseError> {
    if Visible(r, key).Some? then Err(NotAcquired)
    else
      var counter := Visible(r, FencingKey(key));
      if counter.Some? && !counter.value.Counter? then Err(ScriptError)
      else
        var last := if counter.Some? then counter.value.value else 0;
        if last >= MAX_INT64 then Err(ScriptError)
        else
          var entries := r.entries[FencingKey(key) := Counter(last + 1)][key := LeaseHash(owner, last + 1, r.now + ttl)];
          Ok((r.(entries := entries), last + 1))
  }

  predicate Holds(r: Redis, lease: Lease) {
    var entry := Visible(r, lease.key);
    entry.Some? && entry.value.LeaseHash? && entry.value.owner == lease.owner && entry.value.token == lease.token
  }

  predicate WrongType(r: Redis, key: string) {
    var entry := Visible(r, key);
    entry.Some? && entry.value.Counter?
  }

  predicate ValidLease(lease: Lease) {
    lease.key != "" && lease.owner != "" && lease.token > 0
  }

  // ---------- the store ----------

  function Acquire(r: Redis, key: string, owner: string, ttl: int): Result<(Redis, Lease), LeaseError> {
    if key == "" || owner == "" || ttl < 1 then Err(InvalidInput)
    else
      match AcquireScript(r, key, owner, ttl)
      case Err(e) => Err(e)
      case Ok((r', token)) => Ok((r', Lease(key, owner, token)))
  }

  function Renew(r: Redis, lease: Lease, ttl: int): Result<Redis, LeaseError> {
    if !ValidLease(lease) || ttl < 1 then Err(InvalidInput)
    else if WrongType(r, lease.key) then Err(ScriptError)
    else if Holds(r, lease) then Ok(r.(entries := r.entries[lease.key := LeaseHash(lease.owner, lease.token, r.now + ttl)]))
    else Err(LeaseLost)
  }

  function Release(r: Redis, lease: Lease): Result<Redis, LeaseError> {
    if !ValidLease(lease) then Err(InvalidInput)
    else if WrongType(r, lease.key) then Err(ScriptError)
    else if Holds(r, lease) then Ok(r.(entries := r.entries - {lease.key}))
    else Err(LeaseLost)
  }

  // ---------- runs ----------

  datatype Op =
    | DoAcquire(key: string, owner: string, ttl: int)
    | DoRenew(lease: Lease, ttl: int)
    | DoRelease(lease: Lease)
    | Elapse(ms: nat)

  function KeyOf(op: Op): string
    requires !op.Elapse?
  {
    match op case DoAcquire(k, _, _) => k case DoRenew(l, _) => l.key case DoRelease(l) => l.key
  }

  function Apply(r: Redis, op: Op): Redis {
    match op
    case DoAcquire(k, o, t) => (match Acquire(r, k, o, t) case Ok(v) => v.0 case Err(_) => r)
    case DoRenew(l, t) => (match Renew(r, l, t) case Ok(r') => r' case Err(_) => r)
    case DoRelease(l) => (match Release(r, l) case Ok(r') => r' case Err(_) => r)
    case Elapse(ms) => r.(now := r.now + ms)
  }

  function Run(r: Redis, ops: seq<Op>): Redis
    decreases |ops|
  {
    if ops == [] then r else Run(Apply(r, ops[0]), ops[1..])
  }

  /** The fencing tokens a run hands out for one key, in order. */
  function Granted(r: Redis, ops: seq<Op>, key: string): seq<nat>
    decreases |ops|
  {
    if ops == [] then []
    else
      var op := ops[0];
      var here := if op.DoAcquire? && op.key == key && Acquire(r, key, op.owner, op.ttl).Ok?
                  then [Acquire(r, key, op.owner, op.ttl).value.1.token] else [];
      here + Granted(Apply(r, op), ops[1..], key)
  }

  /** No lease key in use is another key's counter key. */
  ghost predicate Apart(keys: set<string>) {
    forall a, b :: a in keys && b in keys ==> a != FencingKey(b)
  }

  ghost predicate Uses(ops: seq<Op>, keys: set<string>) {
    forall i :: 0 <= i < |ops| ==> ops[i].Elapse? || KeyOf(ops[i]) in keys
  }

  function LastToken(r: Redis, key: string): nat {
    var k := FencingKey(key);
    if k in r.entries && r.entries[k].Counter? then r.entries[k].value else 0
  }

  /** Leases sit under lease keys, counters under counter keys, and no stored lease is newer than its counter. */
  ghost predicate WellFormed(r: Redis, keys: set<string>) {
    && Apart(keys)
    && forall k :: k in keys ==>
         && (FencingKey(k) in r.entries ==> r.entries[FencingKey(k)].Counter?)
         && (k in r.entries ==> r.entries[k].LeaseHash? && r.entries[k].token <= LastToken(r, k))
  }

  lemma FencingKeyInjective(a: string, b: string)
    requires FencingKey(a) == FencingKey(b)
    ensures a == b
  {
    assert FencingKey(a)[..|a|] == a && FencingKey(b)[..|b|] == b;
  }

  lemma ApplyKeepsOrder(r: Redis, op: Op, keys: set<string>, key: string)
    requires WellFormed(r, keys) && key in keys && (op.Elapse? || KeyOf(op) in keys)
    ensures WellFormed(Apply(r, op), keys)
    ensures var granted := op.DoAcquire? && op.key == key && Acquire(r, key, op.owner, op.ttl).Ok?;
            LastToken(Apply(r, op), key) == LastToken(r, key) + (if granted then 1 else 0)
  {
    forall a, b | FencingKey(a) == FencingKey(b) ensures a == b { FencingKeyInjective(a, b); }
  }

  /** Over all time the tokens handed out for a key strictly increase, beyond every token handed out before. */
  lemma {:induction false} TokensIncrease(r: Redis, ops: seq<Op>, keys: set<string>, key: string)
    requires WellFormed(r, keys) && Uses(ops, keys) && key in keys
    ensures var tokens := Granted(r, ops, key);
            && (forall i :: 0 <= i < |tokens| ==> tokens[i] == LastToken(r, key) + i + 1)
            && (forall i, j :: 0 <= i < j < |tokens| ==> tokens[i] < tokens[j])
            && LastToken(Run(r, ops), key) == LastToken(r, key) + |tokens|
            && WellFormed(Run(r, ops), keys)
    decreases |ops|
  {
    if ops != [] {
      ApplyKeepsOrder(r, ops[0], keys, key);
      TokensIncrease(Apply(r, ops[0]), ops[1..], keys, key);
    }
  }

  /** A key can be acquired exactly while no lease on it is live (and tokens have not run out); the lease then lives for its
      time to live, to the millisecond, if nobody touches it. */
  lemma AcquireOutcome(r: Redis, keys: set<string>, key: string, owner: string, ttl: int, ms: nat)
    requires WellFormed(r, keys) && key in keys && key != "" && owner != "" && ttl >= 1
    ensures Acquire(r, key, owner, ttl).Ok? <==> Visible(r, key).None? && LastToken(r, key) < MAX_INT64
    ensures Acquire(r, key, owner, ttl).Ok? ==>
              var (r', lease) := Acquire(r, key, owner, ttl).value;
              && lease == Lease(key, owner, LastToken(r, key) + 1) && ValidLease(lease)
              && (Holds(Apply(r', Elapse(ms)), lease) <==> ms <= ttl)
  {
    assert FencingKey(key) != key;
  }

  /** A renewal succeeds exactly for the live lease and moves its end to a full time to live from now. */
  lemma RenewOutcome(r: Redis, keys: set<string>, lease: Lease, ttl: int, ms: nat)
    requires WellFormed(r, keys) && lease.key in keys && ValidLease(lease) && ttl >= 1
    ensures Renew(r, lease, ttl).Ok? <==> Holds(r, lease)
    ensures Renew(r, lease, ttl).Ok? ==> (Holds(Apply(Renew(r, lease, ttl).value, Elapse(ms)), lease) <==> ms <= ttl)
  {
    if Renew(r, lease, ttl).Ok? {
      var r' := Renew(r, lease, ttl).value;
      assert r'.entries[lease.key] == LeaseHash(lease.owner, lease.token, r.now + ttl);
    }
  }

  /** A release succeeds exactly for the live lease. Its key is then free, and the next holder gets the next token. */
  lemma ReleaseOutcome(r: Redis, keys: set<string>, lease: Lease, owner: string, ttl: int)
    requires WellFormed(r, keys) && lease.key in keys && ValidLease(lease)
    ensures Release(r, lease).Ok? <==> Holds(r, lease)
    ensures Release(r, lease).Ok? ==>
              var r' := Release(r, lease).value;
              && Visible(r', lease.key).None? && LastToken(r', lease.key) == LastToken(r, lease.key) && r'.now == r.now
              && (forall k :: k != lease.key ==> Visible(r', k) == Visible(r, k))
              && (owner != "" && ttl >= 1 && LastToken(r, lease.key) < MAX_INT64 ==>
                    Acquire(r', lease.key, owner, ttl).Ok?
                    && Acquire(r', lease.key, owner, ttl).value.1 == Lease(lease.key, owner, LastToken(r, lease.key) + 1))
  {
    assert FencingKey(lease.key) != lease.key by { assert |FencingKey(lease.key)| != |lease.key|; }
    if Release(r, lease).Ok? {
      var r' := Release(r, lease).value;
      assert lease.key !in r'.entries;
      assert forall k :: k != lease.key ==> (k in r'.entries <==> k in r.entries);
    }
  }

  /** Only the newest token of a key can be renewed or released, and only one owner can do so. */
  lemma OnlyOneLeaseIsLive(r: Redis, keys: set<string>, a: Lease, b: Lease)
    requires WellFormed(r, keys) && a.key in keys && a.key == b.key && ValidLease(a)
    ensures Renew(r, a, 1).Ok? <==> Release(r, a).Ok?
    ensures Release(r, a).Ok? && Release(r, b).Ok? ==> a == b
    ensures Release(r, a).Ok? ==> a.token <= LastToken(r, a.key)
  {
  }

  // ---------- a released lease was never shared ----------

  lemma HolderStep(r: Redis, op: Op, keys: set<string>, lease: Lease)
    requires WellFormed(r, keys) && lease.key in keys && (op.Elapse? || KeyOf(op) in keys)
    requires lease.token <= LastToken(r, lease.key) && Holds(Apply(r, op), lease)
    ensures Holds(r, lease)
    ensures !(op.DoAcquire? && op.key == lease.key && Acquire(r, op.key, op.owner, op.ttl).Ok?)
  {
    forall a, b | FencingKey(a) == FencingKey(b) ensures a == b { FencingKeyInjective(a, b); }
  }

  /** If a lease can still be released after a run, it was held in every state of that run and nobody acquired the key. */
  lemma {:induction false} ReleaseMeansUndisturbed(r: Redis, ops: seq<Op>, keys: set<string>, lease: Lease)
    requires WellFormed(r, keys) && Uses(ops, keys) && lease.key in keys && lease.token <= LastToken(r, lease.key)
    requires Release(Run(r, ops), lease).Ok?
    ensures forall i :: 0 <= i <= |ops| ==> Holds(Run(r, ops[..i]), lease)
    ensures Granted(r, ops, lease.key) == []
    decreases |ops|
  {
    if ops == [] {
      assert ops[..0] == [];
    } else {
      ApplyKeepsOrder(r, ops[0], keys, lease.key);
      ReleaseMeansUndisturbed(Apply(r, ops[0]), ops[1..], keys, lease);
      assert Run(Apply(r, ops[0]), ops[1..][..0]) == Apply(r, ops[0]);
      HolderStep(r, ops[0], keys, lease);
      forall i | 0 <= i <= |ops| ensures Holds(Run(r, ops[..i]), lease) {
        if i > 0 { assert ops[..i][0] == ops[0] && ops[..i][1..] == ops[1..][..i - 1]; }
      }
    }
  }

  /** Once lost, a lease is never live again: the key's tokens have moved past it, or can only move past it. */
  lemma {:induction false} LostStaysLost(r: Redis, ops: seq<Op>, keys: set<string>, lease: Lease)
    requires WellFormed(r, keys) && Uses(ops, keys) && lease.key in keys && lease.token <= LastToken(r, lease.key)
    requires !Holds(r, lease)
    ensures !Holds(Run(r, ops), lease)
    decreases |ops|
  {
    if ops != [] {
      ApplyKeepsOrder(r, ops[0], keys, lease.key);
      if Holds(Apply(r, ops[0]), lease) { HolderStep(r, ops[0], keys, lease); }
      LostStaysLost(Apply(r, ops[0]), ops[1..], keys, lease);
    }
  }

  // ---------- the server the scripts run in ----------

  class Server {
    var entries: map<string, Entry>
    var now: int

    function State(): Redis
      reads this
    {
      Redis(entries, now)
    }

    constructor ()
      ensures State() == Redis(map[], 0)
    {
      entries, now := map[], 0;
    }

    method AcquireLease(key: string, owner: string, ttl: int) returns (r: Result<Lease, LeaseError>)
      modifies this`entries
      ensures match r
              case Ok(lease) => Acquire(old(State()), key, owner, ttl) == Ok((State(), lease))
              case Err(e) => Acquire(old(State()), key, owner, ttl) == Err(e) && State() == old(State())
    {
      if key == "" || owner == "" || ttl < 1 { return Err(InvalidInput); }
      if Visible(State(), key).Some? { return Err(NotAcquired); }
      var counter := Visible(State(), FencingKey(key));
      var last := 0;
      if counter.Some? {
        if !counter.value.Counter? { return Err(ScriptError); }
        last := counter.value.value;
      }
      if last >= MAX_INT64 { return Err(ScriptError); }
      entries := entries[FencingKey(key) := Counter(last + 1)];
      entries := entries[key := LeaseHash(owner, last + 1, now + ttl)];
      r := Ok(Lease(key, owner, last + 1));
    }

    method RenewLease(lease: Lease, ttl: int) returns (r: Result<(), LeaseError>)
      modifies this`entries
      ensures match r
              case Ok(_) => Renew(old(State()), lease, ttl) == Ok(State())
              case Err(e) => Renew(old(State()), lease, ttl) == Err(e) && State() == old(State())
    {
      if !ValidLease(lease) || ttl < 1 { return Err(InvalidInput); }
      if WrongType(State(), lease.key) { return Err(ScriptError); }
      if !Holds(State(), lease) { return Err(LeaseLost); }
      entries := entries[lease.key := entries[lease.key].(expires := now + ttl)];
      r := Ok(());
    }

    method ReleaseLease(lease: Lease) returns (r: Result<(), LeaseError>)
      modifies this`entries
      ensures match r
              case Ok(_) => Release(old(State()), lease) == Ok(State())
              case Err(e) => Release(old(State()), lease) == Err(e) && State() == old(State())
    {
      if !ValidLease(lease) { return Err(InvalidInput); }
      if WrongType(State(), lease.key) { return Err(ScriptError); }
      if !Holds(State(), lease) { return Err(LeaseLost); }
      entries := entries - {lease.key};
      r := Ok(());
    }

    method Perform(op: Op)
      modifies this
      ensures State() == Apply(old(State()), op)
    {
      match op {
        case DoAcquire(k, o, t) => var _ := AcquireLease(k, o, t);
        case DoRenew(l, t) => var _ := RenewLease(l, t);
        case DoRelease(l) => var _ := ReleaseLease(l);
        case Elapse(ms) => now := now + ms;
      }
    }
  }
}
