/** Starting and stopping the API runtime: hooks produce close functions, Start registers them, and whoever stops the
    runtime first runs them. Start and any number of Shutdown calls interleave between their locked sections. */
module Lifecycle {
  import opened Common

  /** What one start hook does; a missing hook produces nothing. */
  datatype Hook = Fails | NoCloser | Closer

  datatype RuntimeState = NotStarted | Started | Stopped

  datatype StartAt =
    | Ready | AtHook(i: nat) | Registering(i: nat) | ClosingSelf(i: nat)
    | Failing | Cleaning | RunningClosers(rest: seq<nat>) | Serving | StartReturned

  datatype ShutdownAt = Called | Stopping | Closing(rest: seq<nat>) | ShutdownReturned

  /** Close functions are named by the hook that produced them. `made` lists them as produced, `log` as they were run. */
  datatype Runtime = Runtime(state: RuntimeState, closed: bool, entries: seq<nat>, start: StartAt, shutdowns: seq<ShutdownAt>,
                             made: seq<nat>, log: seq<nat>)

  const FRESH := Runtime(NotStarted, false, [], Ready, [], [], [])

  datatype Step = StartStep(serveFails: bool, canceled: bool) | CallShutdown | ShutdownStep(t: nat)

  function NextStart(r: Runtime, hooks: seq<Hook>, serveFails: bool, canceled: bool): Runtime {
    match r.start
    case Ready =>
      if canceled || r.state != NotStarted then r.(start := StartReturned) else r.(state := Started, start := AtHook(0))
    case AtHook(i) =>
      if i >= |hooks| then r.(start := Serving)
      else (match hooks[i]
            case Fails => r.(start := Failing)
            case NoCloser => r.(start := AtHook(i + 1))
            case Closer => r.(made := r.made + [i], start := Registering(i)))
    case Registering(i) =>
      if r.closed then r.(start := ClosingSelf(i)) else r.(entries := r.entries + [i], start := AtHook(i + 1))
    case ClosingSelf(i) => r.(log := r.log + [i], start := Failing)
    case Failing => r.(state := Stopped, start := Cleaning)
    case Cleaning => if r.closed then r.(start := StartReturned) else r.(closed := true, entries := [], start := RunningClosers(r.entries))
    case RunningClosers(rest) =>
      if rest == [] then r.(start := StartReturned)
      else r.(log := r.log + [Last(rest)], start := RunningClosers(rest[..|rest| - 1]))
    case Serving => r.(start := if serveFails then Failing else StartReturned)
    case StartReturned => r
  }

  function NextShutdown(r: Runtime, t: nat): Runtime
    requires t < |r.shutdowns|
  {
    match r.shutdowns[t]
    case Called => r.(state := Stopped, shutdowns := r.shutdowns[t := Stopping])
    case Stopping =>
      if r.closed then r.(shutdowns := r.shutdowns[t := ShutdownReturned])
      else r.(closed := true, entries := [], shutdowns := r.shutdowns[t := Closing(r.entries)])
    case Closing(rest) =>
      if rest == [] then r.(shutdowns := r.shutdowns[t := ShutdownReturned])
      else r.(log := r.log + [Last(rest)], shutdowns := r.shutdowns[t := Closing(rest[..|rest| - 1])])
    case ShutdownReturned => r
  }

  function Next(r: Runtime, hooks: seq<Hook>, st: Step): Runtime {
    match st
    case StartStep(serveFails, canceled) => NextStart(r, hooks, serveFails, canceled)
    case CallShutdown => r.(shutdowns := r.shutdowns + [Called])
    case ShutdownStep(t) => if t < |r.shutdowns| then NextShutdown(r, t) else r
  }

  function Run(r: Runtime, hooks: seq<Hook>, steps: seq<Step>): Runtime
    decreases |steps|
  {
    if steps == [] then r else Run(Next(r, hooks, steps[0]), hooks, steps[1..])
  }

  // ---------- every close function is somewhere, once ----------

  function Occurs(s: seq<nat>, x: nat): nat {
    multiset(s)[x]
  }

  /** How often the close function `x` waits in this place. */
  function StartHolds(s: StartAt, x: nat): nat {
    match s
    case Registering(i) => if i == x then 1 else 0
    case ClosingSelf(i) => if i == x then 1 else 0
    case RunningClosers(rest) => Occurs(rest, x)
    case _ => 0
  }

  function ShutdownHolds(s: ShutdownAt, x: nat): nat {
    if s.Closing? then Occurs(s.rest, x) else 0
  }

  function AllShutdownsHold(s: seq<ShutdownAt>, x: nat): nat {
    if s == [] then 0 else AllShutdownsHold(s[..|s| - 1], x) + ShutdownHolds(Last(s), x)
  }

  lemma OccursAppend(s: seq<nat>, y: nat, x: nat)
    ensures Occurs(s + [y], x) == Occurs(s, x) + if y == x then 1 else 0
  {
  }

  lemma OccursLast(s: seq<nat>, x: nat)
    requires s != []
    ensures Occurs(s, x) == Occurs(s[..|s| - 1], x) + if Last(s) == x then 1 else 0
  {
    assert s == s[..|s| - 1] + [Last(s)];
    OccursAppend(s[..|s| - 1], Last(s), x);
  }

  lemma {:induction false} HoldsUpdate(s: seq<ShutdownAt>, t: nat, at: ShutdownAt, x: nat)
    requires t < |s|
    ensures AllShutdownsHold(s[t := at], x) + ShutdownHolds(s[t], x) == AllShutdownsHold(s, x) + ShutdownHolds(at, x)
  {
    var n := |s| - 1;
    if t < n {
      assert s[t := at][..n] == s[..n][t := at];
      HoldsUpdate(s[..n], t, at, x);
    } else {
      assert s[t := at][..n] == s[..n];
    }
  }

  lemma {:induction false} NothingHeld(s: seq<ShutdownAt>, x: nat)
    requires forall t :: 0 <= t < |s| ==> ShutdownHolds(s[t], x) == 0
    ensures AllShutdownsHold(s, x) == 0
  {
    if s != [] { NothingHeld(s[..|s| - 1], x); }
  }

  function HookOf(s: StartAt): int {
    match s case AtHook(i) => i case Registering(i) => i + 1 case _ => -1
  }

  /** What was produced is what was run plus what still waits to be run. */
  ghost predicate Balanced(r: Runtime, x: nat) {
    Occurs(r.made, x) == Occurs(r.log, x) + Occurs(r.entries, x) + StartHolds(r.start, x) + AllShutdownsHold(r.shutdowns, x)
  }

  ghost predicate InOrder(r: Runtime) {
    && (forall i, j :: 0 <= i < j < |r.made| ==> r.made[i] < r.made[j])
    && (HookOf(r.start) >= 0 ==> forall i :: 0 <= i < |r.made| ==> r.made[i] < HookOf(r.start))
    && (r.start.Ready? ==> r.made == [])
    && (r.closed ==> r.entries == [])
    && (r.start.ClosingSelf? ==> r.closed)
    && (!r.closed ==> OpenOrder(r))
  }

  ghost predicate OpenOrder(r: Runtime) {
    && r.log == [] && !r.start.RunningClosers?
    && r.made == r.entries + (if r.start.Registering? then [r.start.i] else [])
    && forall t :: 0 <= t < |r.shutdowns| ==> r.shutdowns[t].Called? || r.shutdowns[t].Stopping?
  }

  lemma ShutdownKeepsOrder(r: Runtime, t: nat)
    requires InOrder(r) && t < |r.shutdowns|
    ensures InOrder(NextShutdown(r, t))
  {
  }

  lemma ShutdownKeepsBalance(r: Runtime, t: nat, x: nat)
    requires Balanced(r, x) && t < |r.shutdowns|
    ensures Balanced(NextShutdown(r, t), x)
  {
    var r' := NextShutdown(r, t);
    HoldsUpdate(r.shutdowns, t, r'.shutdowns[t], x);
    assert r.shutdowns[t := r'.shutdowns[t]] == r'.shutdowns;
    if r.shutdowns[t].Closing? && r.shutdowns[t].rest != [] {
      OccursAppend(r.log, Last(r.shutdowns[t].rest), x);
      OccursLast(r.shutdowns[t].rest, x);
    }
  }

  lemma HookKeepsOrder(r: Runtime, hooks: seq<Hook>, serveFails: bool, canceled: bool)
    requires InOrder(r) && (r.start.AtHook? || r.start.Registering?)
    ensures InOrder(NextStart(r, hooks, serveFails, canceled))
  {
    var r' := NextStart(r, hooks, serveFails, canceled);
    assert r'.made == r.made || r'.made == r.made + [r.start.i];
  }

  lemma StartKeepsOrder(r: Runtime, hooks: seq<Hook>, serveFails: bool, canceled: bool)
    requires InOrder(r)
    ensures InOrder(NextStart(r, hooks, serveFails, canceled))
  {
    if r.start.AtHook? || r.start.Registering? {
      HookKeepsOrder(r, hooks, serveFails, canceled);
    } else {
      assert NextStart(r, hooks, serveFails, canceled).made == r.made;
    }
  }

  /** The four start steps that move a close function from one place to another. */
  lemma MoveKeepsBalance(r: Runtime, r': Runtime, y: nat, x: nat)
    requires Balanced(r, x) && r'.shutdowns == r.shutdowns
    requires
      var once := if y == x then 1 else 0;
      || (r'.made == r.made + [y] && r'.log == r.log && r'.entries == r.entries && StartHolds(r'.start, x) == StartHolds(r.start, x) + once)
      || (r'.made == r.made && r'.log == r.log + [y] && r'.entries == r.entries && StartHolds(r.start, x) == StartHolds(r'.start, x) + once)
      || (r'.made == r.made && r'.log == r.log && r'.entries == r.entries + [y] && StartHolds(r.start, x) == StartHolds(r'.start, x) + once)
    ensures Balanced(r', x)
  {
    OccursAppend(r.made, y, x);
    OccursAppend(r.log, y, x);
    OccursAppend(r.entries, y, x);
  }

  /** Any other step leaves the journal alone; taking all entries moves them together. */
  lemma WaitingKeepsBalance(r: Runtime, r': Runtime, x: nat)
    requires Balanced(r, x) && r'.made == r.made && r'.log == r.log && r'.shutdowns == r.shutdowns
    requires Occurs(r'.entries, x) + StartHolds(r'.start, x) == Occurs(r.entries, x) + StartHolds(r.start, x)
    ensures Balanced(r', x)
  {
  }

  lemma MovingStep(r: Runtime, hooks: seq<Hook>, serveFails: bool, canceled: bool, x: nat)
    requires Balanced(r, x) && (r.start.Registering? || r.start.ClosingSelf? || r.start.RunningClosers?)
    ensures Balanced(NextStart(r, hooks, serveFails, canceled), x)
  {
    var r' := NextStart(r, hooks, serveFails, canceled);
    if r.start.RunningClosers? {
      if r.start.rest != [] {
        OccursLast(r.start.rest, x);
        MoveKeepsBalance(r, r', Last(r.start.rest), x);
      } else {
        WaitingKeepsBalance(r, r', x);
      }
    } else if r.start.Registering? && r.closed {
      WaitingKeepsBalance(r, r', x);
    } else {
      MoveKeepsBalance(r, r', r.start.i, x);
    }
  }

  lemma HookMakes(r: Runtime, i: nat, x: nat)
    requires Balanced(r, x) && r.start == AtHook(i)
    ensures Balanced(r.(made := r.made + [i], start := Registering(i)), x)
  {
    OccursAppend(r.made, i, x);
  }

  lemma HookStep(r: Runtime, hooks: seq<Hook>, serveFails: bool, canceled: bool, x: nat)
    requires Balanced(r, x) && r.start.AtHook?
    ensures Balanced(NextStart(r, hooks, serveFails, canceled), x)
  {
    if r.start.i < |hooks| && hooks[r.start.i] == Closer {
      HookMakes(r, r.start.i, x);
    } else {
      WaitingKeepsBalance(r, NextStart(r, hooks, serveFails, canceled), x);
    }
  }

  lemma CleaningStep(r: Runtime, hooks: seq<Hook>, serveFails: bool, canceled: bool, x: nat)
    requires Balanced(r, x) && r.start.Cleaning?
    ensures Balanced(NextStart(r, hooks, serveFails, canceled), x)
  {
    assert Occurs([], x) == 0;
    WaitingKeepsBalance(r, NextStart(r, hooks, serveFails, canceled), x);
  }

  /** A step that only moves the control of Start. */
  lemma ControlStep(r: Runtime, hooks: seq<Hook>, serveFails: bool, canceled: bool, x: nat)
    requires Balanced(r, x) && (r.start.Ready? || r.start.Failing? || r.start.Serving? || r.start.StartReturned?)
    ensures Balanced(NextStart(r, hooks, serveFails, canceled), x)
  {
    var r' := NextStart(r, hooks, serveFails, canceled);
    assert StartHolds(r.start, x) == 0 && StartHolds(r'.start, x) == 0;
    WaitingKeepsBalance(r, r', x);
  }

  lemma StartKeepsBalance(r: Runtime, hooks: seq<Hook>, serveFails: bool, canceled: bool, x: nat)
    requires Balanced(r, x)
    ensures Balanced(NextStart(r, hooks, serveFails, canceled), x)
  {
    if r.start.Registering? || r.start.ClosingSelf? || r.start.RunningClosers? {
      MovingStep(r, hooks, serveFails, canceled, x);
    } else if r.start.AtHook? {
      HookStep(r, hooks, serveFails, canceled, x);
    } else if r.start.Cleaning? {
      CleaningStep(r, hooks, serveFails, canceled, x);
    } else {
      ControlStep(r, hooks, serveFails, canceled, x);
    }
  }

  lemma CallKeeps(r: Runtime, hooks: seq<Hook>, x: nat)
    requires InOrder(r) && Balanced(r, x)
    ensures InOrder(Next(r, hooks, CallShutdown)) && Balanced(Next(r, hooks, CallShutdown), x)
  {
    assert (r.shutdowns + [Called])[..|r.shutdowns|] == r.shutdowns;
  }

  lemma {:induction false} RunKeeps(r: Runtime, hooks: seq<Hook>, steps: seq<Step>, x: nat)
    requires InOrder(r) && Balanced(r, x)
    ensures InOrder(Run(r, hooks, steps)) && Balanced(Run(r, hooks, steps), x)
    decreases |steps|
  {
    if steps != [] {
      match steps[0] {
        case StartStep(serveFails, canceled) =>
          StartKeepsOrder(r, hooks, serveFails, canceled);
          StartKeepsBalance(r, hooks, serveFails, canceled, x);
        case CallShutdown => CallKeeps(r, hooks, x);
        case ShutdownStep(t) => 
          if t < |r.shutdowns| {
            ShutdownKeepsOrder(r, t);
            ShutdownKeepsBalance(r, t, x);
          }
      }
      RunKeeps(Next(r, hooks, steps[0]), hooks, steps[1..], x);
    }
  }

  ghost predicate AllReturned(r: Runtime) {
    r.start == StartReturned && r.shutdowns != [] && forall t :: 0 <= t < |r.shutdowns| ==> r.shutdowns[t] == ShutdownReturned
  }

  /** In every interleaving: no close function ever runs twice, only what a hook produced is run, and once Start and the
      Shutdown calls have all returned each produced one has run exactly once. */
  lemma EveryCloserRunsExactlyOnce(hooks: seq<Hook>, steps: seq<Step>, x: nat)
    ensures var r := Run(FRESH, hooks, steps);
            && Occurs(r.log, x) <= Occurs(r.made, x) <= 1
            && (AllReturned(r) ==> Occurs(r.log, x) == if x in r.made then 1 else 0)
  {
    RunKeeps(FRESH, hooks, steps, x);
    var r := Run(FRESH, hooks, steps);
    DistinctOccurs(r.made, x);
    if AllReturned(r) {
      assert r.shutdowns[0] == ShutdownReturned;
      NothingHeld(r.shutdowns, x);
    }
  }

  lemma {:induction false} DistinctOccurs(s: seq<nat>, x: nat)
    requires forall i, j :: 0 <= i < j < |s| ==> s[i] < s[j]
    ensures Occurs(s, x) == if x in s then 1 else 0
  {
    if s != [] {
      DistinctOccurs(s[..|s| - 1], x);
      OccursLast(s, x);
      assert forall i :: 0 <= i < |s| - 1 ==> s[i] < Last(s);
    }
  }

  // ---------- order without a race ----------

  function Reversed(s: seq<nat>): seq<nat> {
    if s == [] then [] else [Last(s)] + Reversed(s[..|s| - 1])
  }

  function Repeat(st: Step, n: nat): seq<Step> {
    if n == 0 then [] else [st] + Repeat(st, n - 1)
  }

  lemma {:induction false} ClosersRunInReverse(r: Runtime, hooks: seq<Hook>, t: nat)
    requires t < |r.shutdowns| && r.shutdowns[t].Closing?
    ensures var r' := Run(r, hooks, Repeat(ShutdownStep(t), |r.shutdowns[t].rest| + 1));
            r'.log == r.log + Reversed(r.shutdowns[t].rest) && r'.shutdowns == r.shutdowns[t := ShutdownReturned]
    decreases |r.shutdowns[t].rest|
  {
    var rest := r.shutdowns[t].rest;
    var steps := Repeat(ShutdownStep(t), |rest| + 1);
    assert steps[0] == ShutdownStep(t) && steps[1..] == Repeat(ShutdownStep(t), |rest|);
    var r' := Next(r, hooks, ShutdownStep(t));
    if rest == [] {
      assert steps[1..] == [];
      assert Run(r', hooks, []) == r';
    } else {
      OneCloser(r, hooks, t);
      ClosersRunInReverse(r', hooks, t);
      LogGrowsInReverse(r.log, rest);
    }
  }

  lemma OneCloser(r: Runtime, hooks: seq<Hook>, t: nat)
    requires t < |r.shutdowns| && r.shutdowns[t].Closing? && r.shutdowns[t].rest != []
    ensures var rest, r' := r.shutdowns[t].rest, Next(r, hooks, ShutdownStep(t));
            && r'.shutdowns == r.shutdowns[t := Closing(rest[..|rest| - 1])] && r'.log == r.log + [Last(rest)]
            && r'.shutdowns[t := ShutdownReturned] == r.shutdowns[t := ShutdownReturned]
  {
  }

  lemma LogGrowsInReverse(log: seq<nat>, rest: seq<nat>)
    requires rest != []
    ensures log + [Last(rest)] + Reversed(rest[..|rest| - 1]) == log + Reversed(rest)
  {
    Regroup(log, [Last(rest)], Reversed(rest[..|rest| - 1]));
  }

  lemma Regroup(a: seq<nat>, b: seq<nat>, c: seq<nat>)
    ensures a + b + c == a + (b + c)
  {
  }

  /** Whenever nobody has stopped the runtime yet and Start is not in the middle of registering, a Shutdown that is left
      alone runs everything that was produced, last produced first. */
  lemma ShutdownAloneRunsInReverse(hooks: seq<Hook>, steps: seq<Step>, t: nat)
    requires var r := Run(FRESH, hooks, steps);
             !r.closed && !r.start.Registering? && t < |r.shutdowns| && r.shutdowns[t] == Called
    ensures var r := Run(FRESH, hooks, steps);
            var r' := Run(r, hooks, Repeat(ShutdownStep(t), |r.made| + 3));
            r'.log == Reversed(r.made) && r'.closed && t < |r'.shutdowns| && r'.shutdowns[t] == ShutdownReturned
  {
    RunKeeps(FRESH, hooks, steps, 0);
    OpenShutdownRuns(Run(FRESH, hooks, steps), hooks, t);
  }

  lemma OpenShutdownRuns(r: Runtime, hooks: seq<Hook>, t: nat)
    requires !r.closed && r.log == [] && r.entries == r.made && t < |r.shutdowns| && r.shutdowns[t] == Called
    ensures var r' := Run(r, hooks, Repeat(ShutdownStep(t), |r.made| + 3));
            r'.log == Reversed(r.made) && r'.closed && t < |r'.shutdowns| && r'.shutdowns[t] == ShutdownReturned
  {
    var n := |r.made|;
    var step := ShutdownStep(t);
    assert Repeat(step, n + 3)[1..] == Repeat(step, n + 2) && Repeat(step, n + 2)[1..] == Repeat(step, n + 1);
    var stopping := Next(r, hooks, step);
    var closing := Next(stopping, hooks, step);
    ClosersRunInReverse(closing, hooks, t);
    StaysClosed(closing, hooks, Repeat(step, n + 1));
  }

  lemma {:induction false} StaysClosed(r: Runtime, hooks: seq<Hook>, steps: seq<Step>)
    requires r.closed
    ensures Run(r, hooks, steps).closed
    decreases |steps|
  {
    if steps != [] { StaysClosed(Next(r, hooks, steps[0]), hooks, steps[1..]); }
  }

  // ---------- the objects ----------

  /** Runs a close function: here, writes its name down. */
  class Journal {
    var log: seq<nat>

    constructor ()
      ensures log == []
    {
      log := [];
    }

    method Invoke(closer: nat)
      modifies this
      ensures log == old(log) + [closer]
    {
      log := log + [closer];
    }
  }

  class Cleanup {
    var closed: bool
    var entries: seq<nat>

    constructor ()
      ensures !closed && entries == []
    {
      closed, entries := false, [];
    }

    method Add(closer: nat) returns (added: bool)
      modifies this
      ensures added <==> !old(closed)
      ensures closed == old(closed) && entries == if added then old(entries) + [closer] else old(entries)
    {
      if closed { return false; }
      entries := entries + [closer];
      added := true;
    }

    method Close(journal: Journal)
      modifies this, journal
      ensures closed && entries == if old(closed) then old(entries) else []
      ensures journal.log == old(journal.log) + if old(closed) then [] else Reversed(old(entries))
    {
      if closed { return; }
      closed := true;
      var taken := entries;
      entries := [];
      var index := |taken|;
      assert taken[..index] == taken;
      while index > 0
        invariant 0 <= index <= |taken| && closed && entries == []
        invariant journal.log + Reversed(taken[..index]) == old(journal.log) + Reversed(taken)
      {
        assert taken[..index][..index - 1] == taken[..index - 1];
        index := index - 1;
        journal.Invoke(taken[index]);
      }
    }
  }

  class ApiRuntime {
    var state: RuntimeState
    const cleanup: Cleanup
    const journal: Journal

    constructor ()
      ensures state == NotStarted && fresh(cleanup) && fresh(journal)
      ensures !cleanup.closed && cleanup.entries == [] && journal.log == []
    {
      state := NotStarted;
      cleanup := new Cleanup();
      journal := new Journal();
    }

    method BeginStart() returns (begun: bool)
      modifies this
      ensures begun <==> old(state) == NotStarted
      ensures state == if begun then Started else old(state)
    {
      if state != NotStarted { return false; }
      state := Started;
      begun := true;
    }

    method FailStart()
      modifies this, cleanup, journal
      ensures state == Stopped && cleanup.closed && cleanup.entries == if old(cleanup.closed) then old(cleanup.entries) else []
      ensures journal.log == old(journal.log) + if old(cleanup.closed) then [] else Reversed(old(cleanup.entries))
    {
      state := Stopped;
      cleanup.Close(journal);
    }

    /** A start nobody interferes with: it either leaves every produced close function registered, or has run all of them in
        reverse; a runtime that is not new is left alone. */
    method Start(hooks: seq<Hook>, serveFails: bool) returns (started: bool, made: seq<nat>)
      requires !cleanup.closed && cleanup.entries == [] && journal.log == []
      modifies this, cleanup, journal
      ensures old(state) != NotStarted ==> !started && made == [] && state == old(state) && !cleanup.closed
      ensures old(state) == NotStarted ==> (started <==> !serveFails && forall i :: 0 <= i < |hooks| ==> !hooks[i].Fails?)
      ensures started ==> state == Started && cleanup.entries == made && !cleanup.closed && journal.log == []
      ensures !started && old(state) == NotStarted ==> state == Stopped && cleanup.closed && journal.log == Reversed(made)
      ensures forall i: nat :: i in made ==> i < |hooks| && hooks[i] == Closer
    {
      made := [];
      var begun := BeginStart();
      if !begun { return false, made; }
      var i := 0;
      while i < |hooks|
        invariant i <= |hooks| && state == Started && !cleanup.closed && cleanup.entries == made && journal.log == []
        invariant forall j :: 0 <= j < i ==> !hooks[j].Fails?
        invariant forall j: nat :: j in made ==> j < i && hooks[j] == Closer
      {
        match hooks[i] {
          case Fails =>
            FailStart();
            return false, made;
          case NoCloser =>
          case Closer =>
            made := made + [i];
            var added := cleanup.Add(i);
        }
        i := i + 1;
      }
      if serveFails {
        FailStart();
        return false, made;
      }
      started := true;
    }

    method Shutdown()
      modifies this, cleanup, journal
      ensures state == Stopped && cleanup.closed
      ensures journal.log == old(journal.log) + if old(cleanup.closed) then [] else Reversed(old(cleanup.entries))
    {
      state := Stopped;
      cleanup.Close(journal);
    }
  }
}
