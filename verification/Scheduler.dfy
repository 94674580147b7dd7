/** A scheduled job run under a lease: acquire, renew while the task runs, release, and report. */
module Scheduler {
  import opened Common
  import opened LeaseLock

  /** What happens while the task runs: somebody else's command, or a tick of the job's own renewal. */
  datatype Event = Other(op: Op) | RenewTick

  datatype ReleaseAnswer = Answered | Unreachable

  datatype Report = Report(ran: bool, lost: bool, releaseFailed: bool, taskFailed: bool, acquireFailed: bool)

  /** The server after the task, and whether the renewal gave up; a failed renewal is the last one. */
  function During(r: Redis, lease: Lease, ttl: int, events: seq<Event>, lost: bool): (Redis, bool)
    decreases |events|
  {
    if events == [] then (r, lost)
    else
      match events[0]
      case Other(op) => During(Apply(r, op), lease, ttl, events[1..], lost)
      case RenewTick =>
        if lost then During(r, lease, ttl, events[1..], true)
        else
          match Renew(r, lease, ttl)
          case Ok(r') => During(r', lease, ttl, events[1..], false)
          case Err(_) => During(r, lease, ttl, events[1..], true)
  }

  function ReportOf(acquired: Option<LeaseError>, lost: bool, release: Option<LeaseError>, unreachable: bool, taskFailed: bool): Report {
    match acquired
    case Some(NotAcquired) => Report(false, false, false, false, false)
    case Some(_) => Report(false, false, false, false, true)
    case None =>
      Report(true, lost || release == Some(LeaseLost),
             unreachable || (release.Some? && release.value != LeaseLost), taskFailed, false)
  }

  /** The events of a job as commands of the whole system. */
  function Commands(r: Redis, lease: Lease, ttl: int, events: seq<Event>, lost: bool): (ops: seq<Op>)
    decreases |events|
  {
    if events == [] then []
    else
      match events[0]
      case Other(op) => [op] + Commands(Apply(r, op), lease, ttl, events[1..], lost)
      case RenewTick =>
        if lost then Commands(r, lease, ttl, events[1..], true)
        else [DoRenew(lease, ttl)] + Commands(Apply(r, DoRenew(lease, ttl)), lease, ttl, events[1..], Renew(r, lease, ttl).Err?)
  }

  lemma {:induction false} CommandsRun(r: Redis, lease: Lease, ttl: int, events: seq<Event>, lost: bool)
    ensures Run(r, Commands(r, lease, ttl, events, lost)) == During(r, lease, ttl, events, lost).0
    decreases |events|
  {
    if events != [] {
      var ops := Commands(r, lease, ttl, events, lost);
      match events[0] {
        case Other(op) =>
          CommandsRun(Apply(r, op), lease, ttl, events[1..], lost);
          assert ops[0] == op && ops[1..] == Commands(Apply(r, op), lease, ttl, events[1..], lost);
        case RenewTick =>
          if lost {
            CommandsRun(r, lease, ttl, events[1..], true);
          } else {
            var op := DoRenew(lease, ttl);
            CommandsRun(Apply(r, op), lease, ttl, events[1..], Renew(r, lease, ttl).Err?);
            assert ops[0] == op && ops[1..] == Commands(Apply(r, op), lease, ttl, events[1..], Renew(r, lease, ttl).Err?);
          }
      }
    }
  }

  lemma {:induction false} CommandsUse(r: Redis, lease: Lease, ttl: int, events: seq<Event>, lost: bool, keys: set<string>)
    requires lease.key in keys
    requires forall i :: 0 <= i < |events| && events[i].Other? ==> events[i].op.Elapse? || KeyOf(events[i].op) in keys
    ensures Uses(Commands(r, lease, ttl, events, lost), keys)
    decreases |events|
  {
    if events != [] {
      assert forall i :: 0 <= i < |events[1..]| ==> events[1..][i] == events[i + 1];
      match events[0] {
        case Other(op) => CommandsUse(Apply(r, op), lease, ttl, events[1..], lost, keys);
        case RenewTick =>
          if lost { CommandsUse(r, lease, ttl, events[1..], true, keys); }
          else { CommandsUse(Apply(r, DoRenew(lease, ttl)), lease, ttl, events[1..], Renew(r, lease, ttl).Err?, keys); }
      }
    }
  }

  /** The job as it runs. The task's own outcome and the reachability of the server at release time come from outside. */
  method WrapTask(server: Server, key: string, owner: string, ttl: int, events: seq<Event>, taskFailed: bool, release: ReleaseAnswer)
    returns (report: Report, ghost held: Option<Lease>)
    modifies server
    ensures match Acquire(old(server.State()), key, owner, ttl)
            case Err(e) => held == None && report == ReportOf(Some(e), false, None, false, false) && server.State() == old(server.State())
            case Ok((start, lease)) =>
              && held == Some(lease)
              && var (finish, lost) := During(start, lease, ttl, events, false);
                 match release
                 case Unreachable => server.State() == finish && report == ReportOf(None, lost, None, true, taskFailed)
                 case Answered =>
                   match Release(finish, lease)
                   case Ok(after) => server.State() == after && report == ReportOf(None, lost, None, false, taskFailed)
                   case Err(e) => server.State() == finish && report == ReportOf(None, lost, Some(e), false, taskFailed)
    ensures report.ran <==> Acquire(old(server.State()), key, owner, ttl).Ok?
    ensures report.acquireFailed <==> Acquire(old(server.State()), key, owner, ttl).Err?
                                      && Acquire(old(server.State()), key, owner, ttl) != Err(NotAcquired)
    ensures report.taskFailed <==> report.ran && taskFailed
    ensures report.releaseFailed ==> report.ran
    ensures report.ran && release == Unreachable ==> report.releaseFailed
  {
    held := None;
    var acquired := server.AcquireLease(key, owner, ttl);
    if acquired.Err? {
      if acquired.error == NotAcquired { return Report(false, false, false, false, false), None; }
      return Report(false, false, false, false, true), None;
    }
    var lease := acquired.value;
    held := Some(lease);
    ghost var start := server.State();
    var lost := false;
    var i := 0;
    assert events[0..] == events;
    while i < |events|
      invariant i <= |events|
      invariant During(start, lease, ttl, events, false) == During(server.State(), lease, ttl, events[i..], lost)
    {
      assert events[i..][1..] == events[i + 1..];
      match events[i] {
        case Other(op) => server.Perform(op);
        case RenewTick =>
          if !lost {
            var renewed := server.RenewLease(lease, ttl);
            lost := renewed.Err?;
          }
      }
      i := i + 1;
    }
    if release == Unreachable {
      return Report(true, lost, true, taskFailed, false), held;
    }
    var released := server.ReleaseLease(lease);
    if released.Err? {
      return Report(true, lost || released.error == LeaseLost, released.error != LeaseLost, taskFailed, false), held;
    }
    report := Report(true, lost, false, taskFailed, false);
  }

  /** A job that could release its lease ran its whole task as the only holder: from its own acquisition to the release
      the key never belonged to anybody else, not even for a moment. */
  lemma ReleasedJobRanAlone(r: Redis, keys: set<string>, key: string, owner: string, ttl: int, events: seq<Event>)
    requires WellFormed(r, keys) && key in keys && Acquire(r, key, owner, ttl).Ok?
    requires forall i :: 0 <= i < |events| && events[i].Other? ==> events[i].op.Elapse? || KeyOf(events[i].op) in keys
    ensures var (start, lease) := Acquire(r, key, owner, ttl).value;
            var ops := Commands(start, lease, ttl, events, false);
            Release(During(start, lease, ttl, events, false).0, lease).Ok? ==>
              && !During(start, lease, ttl, events, false).1
              && Granted(start, ops, key) == []
              && forall i :: 0 <= i <= |ops| ==> Holds(Run(start, ops[..i]), lease)
  {
    var (start, lease) := Acquire(r, key, owner, ttl).value;
    var ops := Commands(start, lease, ttl, events, false);
    ApplyKeepsOrder(r, DoAcquire(key, owner, ttl), keys, key);
    CommandsUse(start, lease, ttl, events, false, keys);
    CommandsRun(start, lease, ttl, events, false);
    if Release(During(start, lease, ttl, events, false).0, lease).Ok? {
      ReleaseMeansUndisturbed(start, ops, keys, lease);
      NeverLost(start, lease, ttl, events, keys);
    }
  }

  /** With an answer to its release a job reports a loss exactly when it no longer held its lease, and its release has then not
      failed otherwise. */
  lemma AnsweredReleaseTells(r: Redis, keys: set<string>, key: string, owner: string, ttl: int, events: seq<Event>, taskFailed: bool)
    requires WellFormed(r, keys) && key in keys && Acquire(r, key, owner, ttl).Ok?
    requires forall i :: 0 <= i < |events| && events[i].Other? ==> events[i].op.Elapse? || KeyOf(events[i].op) in keys
    ensures var (start, lease) := Acquire(r, key, owner, ttl).value;
            var (finish, lost) := During(start, lease, ttl, events, false);
            var released := Release(finish, lease);
            var report := ReportOf(None, lost, if released.Ok? then None else Some(released.error), false, taskFailed);
            (report.lost <==> !Holds(finish, lease)) && !report.releaseFailed
  {
    var (start, lease) := Acquire(r, key, owner, ttl).value;
    var ops := Commands(start, lease, ttl, events, false);
    ApplyKeepsOrder(r, DoAcquire(key, owner, ttl), keys, key);
    CommandsUse(start, lease, ttl, events, false, keys);
    CommandsRun(start, lease, ttl, events, false);
    TokensIncrease(start, ops, keys, key);
    var finish := During(start, lease, ttl, events, false).0;
    ReleaseOutcome(finish, keys, lease, owner, ttl);
    if Release(finish, lease).Ok? { NeverLost(start, lease, ttl, events, keys); }
  }

  /** A renewal that fails is a lease that cannot be released either. */
  lemma {:induction false} NeverLost(r: Redis, lease: Lease, ttl: int, events: seq<Event>, keys: set<string>)
    requires WellFormed(r, keys) && lease.key in keys && ttl >= 1 && ValidLease(lease) && lease.token <= LastToken(r, lease.key)
    requires forall i :: 0 <= i < |events| && events[i].Other? ==> events[i].op.Elapse? || KeyOf(events[i].op) in keys
    requires Release(During(r, lease, ttl, events, false).0, lease).Ok?
    ensures !During(r, lease, ttl, events, false).1
    decreases |events|
  {
    if events != [] {
      assert forall i :: 0 <= i < |events[1..]| ==> events[1..][i] == events[i + 1];
      var op := if events[0].Other? then events[0].op else DoRenew(lease, ttl);
      ApplyKeepsOrder(r, op, keys, lease.key);
      if events[0].RenewTick? && Renew(r, lease, ttl).Err? {
        CommandsUse(r, lease, ttl, events[1..], true, keys);
        CommandsRun(r, lease, ttl, events[1..], true);
        LostStaysLost(r, Commands(r, lease, ttl, events[1..], true), keys, lease);
      } else {
        NeverLost(Apply(r, op), lease, ttl, events[1..], keys);
      }
    }
  }

  // ---------- what a job may conclude without an answer to its release ----------

  /** How long the lease still lives, negative once it is gone, as the commands on it tell: elapsing time uses it up, a renewal
      that comes in time (the job's own, or one that carries its lease) gives a full time to live, a release ends it. */
  function LifeAfter(lease: Lease, ttl: int, left: int, events: seq<Event>): int
    decreases |events|
  {
    if events == [] then left
    else
      var next :=
        if left < 0 then -1
        else
          match events[0]
          case RenewTick => ttl
          case Other(op) =>
            match op
            case Elapse(ms) => left - ms
            case DoRelease(l) => if l == lease then -1 else left
            case DoRenew(l, t) => if l == lease && t >= 1 then t else left
            case DoAcquire(_, _, _) => left;
      LifeAfter(lease, ttl, next, events[1..])
  }

  /** Some renewal of the job itself came too late. */
  predicate TickedTooLate(lease: Lease, ttl: int, left: int, events: seq<Event>)
    decreases |events|
  {
    events != [] &&
    ((events[0].RenewTick? && left < 0) || TickedTooLate(lease, ttl, LifeAfter(lease, ttl, left, events[..1]), events[1..]))
  }

  /** The lease lives for exactly `left` more. */
  ghost predicate Lives(r: Redis, lease: Lease, left: int) {
    && (Holds(r, lease) <==> left >= 0)
    && (left >= 0 ==> r.entries[lease.key].expires == r.now + left)
  }

  lemma FirstEvent(lease: Lease, ttl: int, left: int, events: seq<Event>)
    requires events != []
    ensures LifeAfter(lease, ttl, left, events) == LifeAfter(lease, ttl, LifeAfter(lease, ttl, left, events[..1]), events[1..])
  {
    assert events[..1][1..] == [];
  }

  lemma LifeOfOne(r: Redis, lease: Lease, ttl: int, left: int, op: Op, keys: set<string>)
    requires WellFormed(r, keys) && lease.key in keys && ValidLease(lease) && lease.token <= LastToken(r, lease.key)
    requires op.Elapse? || KeyOf(op) in keys
    requires Lives(r, lease, left) && ttl >= 1
    ensures Lives(Apply(r, op), lease, LifeAfter(lease, ttl, left, [Other(op)]))
  {
    forall a, b | FencingKey(a) == FencingKey(b) ensures a == b { FencingKeyInjective(a, b); }
    assert [Other(op)][1..] == [];
    if left < 0 && Holds(Apply(r, op), lease) { HolderStep(r, op, keys, lease); }
  }

  /** Without an answer to its release a job reports a loss exactly when one of its renewals came too late. Otherwise it reports
      its lease as kept, and rightly so exactly when the lease has life left, whatever others did meanwhile. */
  lemma {:induction false} UnansweredReleaseOutcome(r: Redis, lease: Lease, ttl: int, left: int, events: seq<Event>, keys: set<string>)
    requires WellFormed(r, keys) && lease.key in keys && ValidLease(lease) && lease.token <= LastToken(r, lease.key) && ttl >= 1
    requires forall i :: 0 <= i < |events| && events[i].Other? ==> events[i].op.Elapse? || KeyOf(events[i].op) in keys
    requires Lives(r, lease, left)
    ensures var (finish, lost) := During(r, lease, ttl, events, false);
            && (ReportOf(None, lost, None, true, false).lost <==> TickedTooLate(lease, ttl, left, events))
            && (!lost ==> (Holds(finish, lease) <==> LifeAfter(lease, ttl, left, events) >= 0))
    decreases |events|
  {
    if events != [] {
      assert forall i :: 0 <= i < |events[1..]| ==> events[1..][i] == events[i + 1];
      FirstEvent(lease, ttl, left, events);
      assert events[..1] == [events[0]];
      match events[0] {
        case Other(op) =>
          LifeOfOne(r, lease, ttl, left, op, keys);
          ApplyKeepsOrder(r, op, keys, lease.key);
          UnansweredReleaseOutcome(Apply(r, op), lease, ttl, LifeAfter(lease, ttl, left, [events[0]]), events[1..], keys);
        case RenewTick =>
          RenewOutcome(r, keys, lease, ttl, 0);
          if left < 0 {
            LostIsReported(r, lease, ttl, events[1..]);
          } else {
            assert LifeAfter(lease, ttl, left, [events[0]]) == ttl by { assert [events[0]][1..] == []; }
            ApplyKeepsOrder(r, DoRenew(lease, ttl), keys, lease.key);
            UnansweredReleaseOutcome(Renew(r, lease, ttl).value, lease, ttl, ttl, events[1..], keys);
          }
      }
    }
  }

  lemma {:induction false} LostIsReported(r: Redis, lease: Lease, ttl: int, events: seq<Event>)
    ensures During(r, lease, ttl, events, true).1
    decreases |events|
  {
    if events != [] {
      LostIsReported(match events[0] case Other(op) => Apply(r, op) case RenewTick => r, lease, ttl, events[1..]);
    }
  }

  /** The time since the last renewal tick, or since `waited` before the first event when there was none. */
  function WaitedAfter(waited: nat, events: seq<Event>): nat
    decreases |events|
  {
    if events == [] then waited
    else
      WaitedAfter(if events[0].RenewTick? then 0 else if events[0].op.Elapse? then waited + events[0].op.ms else waited, events[1..])
  }

  /** Nobody else presents this job's owner and token. */
  predicate OwnLease(lease: Lease, events: seq<Event>) {
    forall i :: 0 <= i < |events| && events[i].Other? ==>
      !(events[i].op.DoRelease? && events[i].op.lease == lease) && !(events[i].op.DoRenew? && events[i].op.lease == lease)
  }

  lemma {:induction false} OwnLeaseLives(lease: Lease, ttl: int, left: int, waited: nat, events: seq<Event>)
    requires OwnLease(lease, events) && ttl >= 1 && !TickedTooLate(lease, ttl, left, events)
    requires if left >= 0 then left == ttl - waited else waited > ttl
    ensures LifeAfter(lease, ttl, left, events) >= 0 <==> WaitedAfter(waited, events) <= ttl
    decreases |events|
  {
    if events != [] {
      assert forall i :: 0 <= i < |events[1..]| ==> events[1..][i] == events[i + 1];
      FirstEvent(lease, ttl, left, events);
      assert events[..1] == [events[0]] && [events[0]][1..] == [];
      OwnLeaseLives(lease, ttl, LifeAfter(lease, ttl, left, [events[0]]),
                    if events[0].RenewTick? then 0 else if events[0].op.Elapse? then waited + events[0].op.ms else waited, events[1..]);
    }
  }

  /** So a job that reports no loss, and whose lease only it used, still held that lease at the end exactly when no more than a
      time to live had passed since its acquisition or its last renewal. */
  lemma UnansweredReleaseKeepsTheLease(r: Redis, keys: set<string>, key: string, owner: string, ttl: int, events: seq<Event>)
    requires WellFormed(r, keys) && key in keys && Acquire(r, key, owner, ttl).Ok?
    requires forall i :: 0 <= i < |events| && events[i].Other? ==> events[i].op.Elapse? || KeyOf(events[i].op) in keys
    requires OwnLease(Acquire(r, key, owner, ttl).value.1, events)
    ensures var (start, lease) := Acquire(r, key, owner, ttl).value;
            var (finish, lost) := During(start, lease, ttl, events, false);
            !ReportOf(None, lost, None, true, false).lost ==> (Holds(finish, lease) <==> WaitedAfter(0, events) <= ttl)
  {
    var (start, lease) := Acquire(r, key, owner, ttl).value;
    ApplyKeepsOrder(r, DoAcquire(key, owner, ttl), keys, key);
    AcquireOutcome(r, keys, key, owner, ttl, 0);
    UnansweredReleaseOutcome(start, lease, ttl, ttl, events, keys);
    if !During(start, lease, ttl, events, false).1 { OwnLeaseLives(lease, ttl, ttl, 0, events); }
  }

  /** One such loss: the lease runs out, another owner runs inside the task, and the report says kept. */
  lemma UnansweredReleaseHidesALoss()
    ensures var r := Redis(map[], 0);
            var events := [Other(Elapse(20)), Other(DoAcquire("job", "b", 10))];
            Acquire(r, "job", "a", 10).Ok? &&
            var (start, lease) := Acquire(r, "job", "a", 10).value;
            var (finish, lost) := During(start, lease, 10, events, false);
            && Holds(finish, Lease("job", "b", 2))
            && !ReportOf(None, lost, None, true, false).lost
  {
    var r := Redis(map[], 0);
    assert FencingKey("job") == "job:fencing-token";
    assert FencingKey("job") != "job" by { assert |FencingKey("job")| != |"job"|; }
    var (start, lease) := Acquire(r, "job", "a", 10).value;
    var late := Apply(start, Elapse(20));
    assert Acquire(late, "job", "b", 10).Ok?;
    var events := [Other(Elapse(20)), Other(DoAcquire("job", "b", 10))];
    assert events[1..] == [Other(DoAcquire("job", "b", 10))];
    assert events[1..][1..] == [];
    assert During(late, lease, 10, events[1..], false) == During(Apply(late, DoAcquire("job", "b", 10)), lease, 10, [], false);
  }
}
