/**
 The cached stream resolve: two cache reads, the key's lock, the two reads again, a
 permit, the resolve, the store, and the drops on the way out. Any number of tasks
 interleave at the grain of one shared-memory access; waiting tasks may be cancelled
 or time out, the clock advances, and the sweeps run at any moment.
 */
module ResolveProtocol {
  import opened Options
  import opened Counting
  import opened KeyLock

  const SUCCESS_TTL_MS := 60_000
  const FAILURE_TTL_MS := 45_000

  /** Where a task stands; `lock` is the mutex object it holds a reference to. */
  datatype Phase =
    | ReadingSuccess
    | ReadingFailure
    | NeedsLock
    | QueuedForLock(lock: nat)
    | RereadingSuccess(lock: nat)
    | RereadingFailure(lock: nat)
    | QueuedForPermit(lock: nat)
    | Resolving(lock: nat)
    | DroppingPermit(lock: nat)
    | DroppingGuard(lock: nat)
    | DroppingReference(lock: nat)
    | Finished
  {
    predicate HasReference() {
      QueuedForLock? || DroppingReference? || HasGuard()
    }

    predicate HasGuard() {
      RereadingSuccess? || RereadingFailure? || QueuedForPermit? || DroppingGuard? || HasPermit()
    }

    predicate HasPermit() {
      Resolving? || DroppingPermit?
    }

    /** How many steps, at most, separate the task from its end. */
    function Rank(): nat {
      match this
      case ReadingSuccess => 11
      case ReadingFailure => 10
      case NeedsLock => 9
      case QueuedForLock(_) => 8
      case RereadingSuccess(_) => 7
      case RereadingFailure(_) => 6
      case QueuedForPermit(_) => 5
      case Resolving(_) => 4
      case DroppingPermit(_) => 3
      case DroppingGuard(_) => 2
      case DroppingReference(_) => 1
      case Finished => 0
    }
  }

  datatype Task = Task(key: string, phase: Phase)

  /** How a resolve ends; a `TooBusy` upstream (status 429) is not remembered. */
  datatype Outcome = Resolved | Failed | TooBusy

  datatype State = State(
    now: int,
    maxConcurrent: nat,
    table: Table,
    locked: set<nat>,
    permits: nat,
    successes: map<string, int>,  // expiry of the cached result
    failures: map<string, int>,   // expiry of the cached failure
    tasks: seq<Task>)

  function Init(maxConcurrent: nat, now: int): State {
    var n := if maxConcurrent < 1 then 1 else maxConcurrent;
    State(now, n, EMPTY_TABLE, {}, n, map[], map[], [])
  }

  predicate Fresh(cache: map<string, int>, key: string, now: int) {
    key in cache && now <= cache[key]
  }

  datatype Action =
    | Arrive(key: string)
    | ReadSuccess(t: nat)
    | ReadFailure(t: nat)
    | TakeReference(t: nat)
    | Lock(t: nat)
    | TakePermit(t: nat)
    | Finish(t: nat, outcome: Outcome)
    | Drop(t: nat)
    | Abandon(t: nat)                // cancellation, or the permit queue timing out
    | Tick(ms: nat)
    | SweepLocks(visited: set<string>)
    | Forget(successKeys: set<string>, failureKeys: set<string>)  // prune and trim of the caches
  {
    /** A step some task takes by itself on its way to the end. */
    predicate Progress() {
      ReadSuccess? || ReadFailure? || TakeReference? || Lock? || TakePermit? || Finish? || Drop?
    }
  }

  predicate Enabled(s: State, a: Action) {
    match a
    case Arrive(_) => true
    case ReadSuccess(t) => t < |s.tasks| && (s.tasks[t].phase.ReadingSuccess? || s.tasks[t].phase.RereadingSuccess?)
    case ReadFailure(t) => t < |s.tasks| && (s.tasks[t].phase.ReadingFailure? || s.tasks[t].phase.RereadingFailure?)
    case TakeReference(t) => t < |s.tasks| && s.tasks[t].phase.NeedsLock?
    case Lock(t) => t < |s.tasks| && s.tasks[t].phase.QueuedForLock? && s.tasks[t].phase.lock !in s.locked
    case TakePermit(t) => t < |s.tasks| && s.tasks[t].phase.QueuedForPermit? && s.permits > 0
    case Finish(t, _) => t < |s.tasks| && s.tasks[t].phase.Resolving?
    case Drop(t) =>
      t < |s.tasks| && (s.tasks[t].phase.DroppingPermit? || s.tasks[t].phase.DroppingGuard?
                        || s.tasks[t].phase.DroppingReference?)
    case Abandon(t) =>
      t < |s.tasks| && (s.tasks[t].phase.QueuedForLock? || s.tasks[t].phase.QueuedForPermit?
                        || s.tasks[t].phase.Resolving?)
    case Tick(_) => true
    case SweepLocks(_) => true
    case Forget(_, _) => true
  }

  function Move(s: State, t: nat, phase: Phase): State
    requires t < |s.tasks|
  {
    s.(tasks := s.tasks[t := s.tasks[t].(phase := phase)])
  }

  function Apply(s: State, a: Action): State
    requires Enabled(s, a)
  {
    match a
    case Arrive(key) => s.(tasks := s.tasks + [Task(key, ReadingSuccess)])
    case ReadSuccess(t) =>
      var hit := Fresh(s.successes, s.tasks[t].key, s.now);
      (match s.tasks[t].phase
       case ReadingSuccess => Move(s, t, if hit then Finished else ReadingFailure)
       case RereadingSuccess(lock) => Move(s, t, if hit then DroppingGuard(lock) else RereadingFailure(lock)))
    case ReadFailure(t) =>
      var hit := Fresh(s.failures, s.tasks[t].key, s.now);
      (match s.tasks[t].phase
       case ReadingFailure => Move(s, t, if hit then Finished else NeedsLock)
       case RereadingFailure(lock) => Move(s, t, if hit then DroppingGuard(lock) else QueuedForPermit(lock)))
    case TakeReference(t) =>
      var (table, lock) := GetOrInsert(s.table, s.tasks[t].key);
      Move(s, t, QueuedForLock(lock)).(table := table)
    case Lock(t) =>
      var lock := s.tasks[t].phase.lock;
      Move(s, t, RereadingSuccess(lock)).(locked := s.locked + {lock})
    case TakePermit(t) =>
      Move(s, t, Resolving(s.tasks[t].phase.lock)).(permits := s.permits - 1)
    case Finish(t, outcome) =>
      var key := s.tasks[t].key;
      var s' := Move(s, t, DroppingPermit(s.tasks[t].phase.lock));
      (match outcome
       case Resolved => s'.(successes := s.successes[key := s.now + SUCCESS_TTL_MS])
       case Failed => s'.(failures := s.failures[key := s.now + FAILURE_TTL_MS])
       case TooBusy => s')
    case Drop(t) =>
      (match s.tasks[t].phase
       case DroppingPermit(lock) => Move(s, t, DroppingGuard(lock)).(permits := s.permits + 1)
       case DroppingGuard(lock) => Move(s, t, DroppingReference(lock)).(locked := s.locked - {lock})
       case DroppingReference(_) => Move(s, t, Finished))
    case Abandon(t) =>
      (match s.tasks[t].phase
       case QueuedForLock(lock) => Move(s, t, DroppingReference(lock))
       case QueuedForPermit(lock) => Move(s, t, DroppingGuard(lock))
       case Resolving(lock) => Move(s, t, DroppingPermit(lock)))
    case Tick(ms) => s.(now := s.now + ms)
    case SweepLocks(visited) => s.(table := Remove(s.table, IdleKeys(s.table, Held(s.tasks), visited)))
    case Forget(successKeys, failureKeys) =>
      s.(successes := s.successes - successKeys, failures := s.failures - failureKeys)
  }

  function Reference(task: Task): Option<Handle> {
    if task.phase.HasReference() then Some(Handle(task.key, task.phase.lock)) else None
  }

  /** The lock references held by the tasks, task by task. */
  function Held(tasks: seq<Task>): seq<Option<Handle>> {
    seq(|tasks|, i requires 0 <= i < |tasks| => Reference(tasks[i]))
  }

  function Guard(task: Task): Option<nat> {
    if task.phase.HasGuard() then Some(task.phase.lock) else None
  }

  /** The locks they hold locked, task by task. */
  function Guards(tasks: seq<Task>): seq<Option<nat>> {
    seq(|tasks|, i requires 0 <= i < |tasks| => Guard(tasks[i]))
  }

  const HOLDS_PERMIT: Task -> bool := (task: Task) => task.phase.HasPermit()
  const IS_RESOLVING: Task -> bool := (task: Task) => task.phase.Resolving?

  // ----- Invariant ---------------------------------------------------------------

  predicate StillMisses(task: Task, successes: map<string, int>, failures: map<string, int>, now: int) {
    && (task.phase.RereadingFailure? || task.phase.QueuedForPermit? || task.phase.Resolving?
        ==> !Fresh(successes, task.key, now))
    && (task.phase.QueuedForPermit? || task.phase.Resolving? ==> !Fresh(failures, task.key, now))
  }

  /** What the second reads established still holds: only the guard's owner stores. */
  ghost predicate ReadsStillMiss(s: State) {
    forall i :: 0 <= i < |s.tasks| ==> StillMisses(s.tasks[i], s.successes, s.failures, s.now)
  }

  ghost predicate Inv(s: State) {
    && s.maxConcurrent >= 1
    && Coherent(s.table, Held(s.tasks))
    && Exclusive(Guards(s.tasks), s.locked)
    && ReadsStillMiss(s)
    && s.permits + Count(s.tasks, HOLDS_PERMIT) == s.maxConcurrent
  }

  lemma GuardOwnersDiffer(s: State, i: nat, j: nat)
    requires Inv(s) && i < |s.tasks| && j < |s.tasks| && i != j
    requires s.tasks[i].phase.HasGuard() && s.tasks[j].phase.HasGuard()
    ensures s.tasks[i].key != s.tasks[j].key
  {
    var held, guards := Held(s.tasks), Guards(s.tasks);
    assert held[i] == Reference(s.tasks[i]) && held[j] == Reference(s.tasks[j]);
    assert guards[i] == Guard(s.tasks[i]) && guards[j] == Guard(s.tasks[j]);
    SameKeySameObject(s.table, held, i, j);
  }

  /** The action is a step of one task, the one it names. */
  predicate OfTask(a: Action) {
    a.Progress() || a.Abandon?
  }

  /** A task's step changes that task's phase only. */
  lemma StepOfOneTask(s: State, a: Action)
    requires Enabled(s, a) && OfTask(a)
    ensures var s' := Apply(s, a);
            && |s'.tasks| == |s.tasks| && s'.tasks == s.tasks[a.t := s'.tasks[a.t]]
            && s'.tasks[a.t].key == s.tasks[a.t].key && s'.maxConcurrent == s.maxConcurrent
  {
  }

  /** It brings the task nearer its end. */
  lemma StepNearsEnd(s: State, a: Action)
    requires Enabled(s, a) && OfTask(a)
    ensures var s' := Apply(s, a); |s'.tasks| == |s.tasks| && s'.tasks[a.t].phase.Rank() < s.tasks[a.t].phase.Rank()
  {
    match a
    case Drop(_) =>
    case Abandon(_) =>
    case ReadSuccess(_) =>
    case ReadFailure(_) =>
    case _ => OtherStepsNearEnd(s, a);
  }

  lemma OtherStepsNearEnd(s: State, a: Action)
    requires Enabled(s, a) && (a.TakeReference? || a.Lock? || a.TakePermit? || a.Finish?)
    ensures var s' := Apply(s, a); |s'.tasks| == |s.tasks| && s'.tasks[a.t].phase.Rank() < s.tasks[a.t].phase.Rank()
  {
  }

  /** Its reference stays on one lock. */
  lemma StepOfReferences(s: State, a: Action)
    requires Enabled(s, a) && OfTask(a) && !a.TakeReference?
    ensures var s' := Apply(s, a); var before, after := s.tasks[a.t].phase, s'.tasks[a.t].phase;
            s'.table == s.table && (after.HasReference() ==> before.HasReference() && after.lock == before.lock)
  {
  }

  /** A lock is locked and unlocked with the guard. */
  lemma StepOfGuards(s: State, a: Action)
    requires Enabled(s, a) && OfTask(a)
    ensures var s' := Apply(s, a); GuardMoves(Guard(s.tasks[a.t]), Guard(s'.tasks[a.t]), s.locked, s'.locked)
  {
    match a
    case Lock(_) =>
    case Drop(_) =>
    case _ => StepKeepsLocked(s, a);
  }

  lemma StepKeepsLocked(s: State, a: Action)
    requires Enabled(s, a) && OfTask(a) && !a.Lock? && !a.Drop?
    ensures var s' := Apply(s, a); s'.locked == s.locked && Guard(s'.tasks[a.t]) == Guard(s.tasks[a.t])
  {
  }

  lemma StepOfPermits(s: State, a: Action)
    requires Enabled(s, a) && OfTask(a)
    ensures var s' := Apply(s, a); var before, after := s.tasks[a.t].phase, s'.tasks[a.t].phase;
            s'.permits + (if after.HasPermit() then 1 else 0) == s.permits + (if before.HasPermit() then 1 else 0)
  {
  }

  lemma CoherentMove(table: Table, tasks: seq<Task>, t: nat, task: Task)
    requires Coherent(table, Held(tasks)) && t < |tasks|
    requires task.phase.HasReference() ==> Reference(task) == Reference(tasks[t])
    ensures Coherent(table, Held(tasks[t := task]))
  {
    assert Held(tasks[t := task]) == Held(tasks)[t := Reference(task)];
    assert Held(tasks)[t] == Reference(tasks[t]);
  }

  lemma CoherenceStep(s: State, a: Action)
    requires Inv(s) && Enabled(s, a)
    ensures var s' := Apply(s, a); Coherent(s'.table, Held(s'.tasks))
  {
    var s' := Apply(s, a);
    if a.TakeReference? {
      var key := s.tasks[a.t].key;
      GetOrInsertKeepsCoherence(s.table, Held(s.tasks), a.t, key);
      assert Held(s'.tasks) == Held(s.tasks)[a.t := Some(Handle(key, GetOrInsert(s.table, key).1))];
    } else if OfTask(a) {
      StepOfOneTask(s, a);
      StepOfReferences(s, a);
      CoherentMove(s.table, s.tasks, a.t, s'.tasks[a.t]);
    } else if a.SweepLocks? {
      SweepKeepsCoherence(s.table, Held(s.tasks), a.visited, IdleKeys(s.table, Held(s.tasks), a.visited));
    } else if a.Arrive? {
      assert Held(s'.tasks) == Held(s.tasks) + [None];
    }
  }

  lemma GuardsStep(s: State, a: Action)
    requires Inv(s) && Enabled(s, a)
    ensures var s' := Apply(s, a); Exclusive(Guards(s'.tasks), s'.locked)
  {
    var s' := Apply(s, a);
    if OfTask(a) {
      StepOfOneTask(s, a);
      StepOfGuards(s, a);
      GuardMoveKeepsExclusive(Guards(s.tasks), s.locked, a.t, Guard(s'.tasks[a.t]), s'.locked);
      assert Guards(s'.tasks) == Guards(s.tasks)[a.t := Guard(s'.tasks[a.t])];
    } else if a.Arrive? {
      OneMoreTask(Guards(s.tasks), s.locked);
      assert Guards(s'.tasks) == Guards(s.tasks) + [None];
    }
  }

  lemma OthersStillMiss(s: State, a: Action, i: nat)
    requires Inv(s) && Enabled(s, a) && i < |s.tasks| && !(OfTask(a) && a.t == i)
    ensures var s' := Apply(s, a); StillMisses(s.tasks[i], s'.successes, s'.failures, s'.now)
  {
    if a.Finish? && s.tasks[i].phase.HasGuard() {
      GuardOwnersDiffer(s, i, a.t);
    }
  }

  lemma OwnReadsMiss(s: State, a: Action)
    requires Inv(s) && Enabled(s, a) && OfTask(a)
    ensures var s' := Apply(s, a); StillMisses(s'.tasks[a.t], s'.successes, s'.failures, s'.now)
  {
  }

  lemma ReadsStep(s: State, a: Action)
    requires Inv(s) && Enabled(s, a)
    ensures ReadsStillMiss(Apply(s, a))
  {
    var s' := Apply(s, a);
    forall i: nat | i < |s'.tasks| ensures StillMisses(s'.tasks[i], s'.successes, s'.failures, s'.now) {
      if OfTask(a) {
        StepOfOneTask(s, a);
      }
      if OfTask(a) && a.t == i {
        OwnReadsMiss(s, a);
      } else if i < |s.tasks| {
        OthersStillMiss(s, a, i);
      }
    }
  }

  lemma PermitsStep(s: State, a: Action)
    requires Inv(s) && Enabled(s, a)
    ensures var s' := Apply(s, a);
            s'.maxConcurrent == s.maxConcurrent && s'.permits + Count(s'.tasks, HOLDS_PERMIT) == s'.maxConcurrent
  {
    if OfTask(a) {
      StepOfOneTask(s, a);
      StepOfPermits(s, a);
      CountUpdate(s.tasks, a.t, Apply(s, a).tasks[a.t], HOLDS_PERMIT);
    } else if a.Arrive? {
      CountAppend(s.tasks, Task(a.key, ReadingSuccess), HOLDS_PERMIT);
    }
  }

  /** Every step, of any task or of the environment, keeps the invariant. */
  lemma StepKeepsInv(s: State, a: Action)
    requires Inv(s) && Enabled(s, a)
    ensures Inv(Apply(s, a))
  {
    CoherenceStep(s, a);
    GuardsStep(s, a);
    ReadsStep(s, a);
    PermitsStep(s, a);
  }

  // ----- Runs --------------------------------------------------------------------

  predicate CanRun(s: State, run: seq<Action>)
    decreases |run|
  {
    run == [] || (Enabled(s, run[0]) && CanRun(Apply(s, run[0]), run[1..]))
  }

  function After(s: State, run: seq<Action>): State
    requires CanRun(s, run)
    decreases |run|
  {
    if run == [] then s else After(Apply(s, run[0]), run[1..])
  }

  lemma {:induction false} RunKeepsInv(s: State, run: seq<Action>)
    requires Inv(s) && CanRun(s, run)
    ensures Inv(After(s, run))
    decreases |run|
  {
    if run != [] {
      StepKeepsInv(s, run[0]);
      RunKeepsInv(Apply(s, run[0]), run[1..]);
    }
  }

  lemma InitHolds(maxConcurrent: nat, now: int)
    ensures Inv(Init(maxConcurrent, now))
  {
  }

  /** In every reachable state, at most one task is inside a key's critical section. */
  lemma MutualExclusion(maxConcurrent: nat, now: int, run: seq<Action>, i: nat, j: nat)
    requires CanRun(Init(maxConcurrent, now), run)
    requires var tasks := After(Init(maxConcurrent, now), run).tasks;
             && i < |tasks| && j < |tasks| && tasks[i].key == tasks[j].key
             && tasks[i].phase.HasGuard() && tasks[j].phase.HasGuard()
    ensures i == j
  {
    InitHolds(maxConcurrent, now);
    RunKeepsInv(Init(maxConcurrent, now), run);
    if i != j {
      GuardOwnersDiffer(After(Init(maxConcurrent, now), run), i, j);
    }
  }

  /** In every reachable state, the tasks that refer to a lock of one key refer to the one in the map. */
  lemma OneLockPerKey(maxConcurrent: nat, now: int, run: seq<Action>, i: nat)
    requires CanRun(Init(maxConcurrent, now), run)
    requires var tasks := After(Init(maxConcurrent, now), run).tasks;
             i < |tasks| && tasks[i].phase.HasReference()
    ensures var s := After(Init(maxConcurrent, now), run);
            s.tasks[i].key in s.table.ids && s.table.ids[s.tasks[i].key] == s.tasks[i].phase.lock
  {
    InitHolds(maxConcurrent, now);
    RunKeepsInv(Init(maxConcurrent, now), run);
    var s := After(Init(maxConcurrent, now), run);
    assert Held(s.tasks)[i] == Reference(s.tasks[i]);
  }

  lemma {:induction false} CountImplied(tasks: seq<Task>)
    ensures Count(tasks, IS_RESOLVING) <= Count(tasks, HOLDS_PERMIT)
  {
    if tasks != [] {
      CountImplied(tasks[..|tasks| - 1]);
    }
  }

  /** In every reachable state, at most `max(1, maxConcurrent)` resolves are running. */
  lemma ResolvesBounded(maxConcurrent: nat, now: int, run: seq<Action>)
    requires CanRun(Init(maxConcurrent, now), run)
    ensures Count(After(Init(maxConcurrent, now), run).tasks, IS_RESOLVING)
         <= if maxConcurrent < 1 then 1 else maxConcurrent
  {
    InitHolds(maxConcurrent, now);
    RunKeepsInv(Init(maxConcurrent, now), run);
    CountImplied(After(Init(maxConcurrent, now), run).tasks);
    MaxConcurrentFixed(Init(maxConcurrent, now), run);
  }

  lemma {:induction false} MaxConcurrentFixed(s: State, run: seq<Action>)
    requires CanRun(s, run)
    ensures After(s, run).maxConcurrent == s.maxConcurrent
    decreases |run|
  {
    if run != [] {
      MaxConcurrentFixed(Apply(s, run[0]), run[1..]);
    }
  }

  /**
   In every run, a resolve starts, and goes on, only while nothing unexpired is cached
   for its key, however long the task queued for its permit after the reads.
   */
  lemma ResolvesOnlyOnMiss(maxConcurrent: nat, now: int, run: seq<Action>, t: nat)
    requires CanRun(Init(maxConcurrent, now), run)
    requires var s := After(Init(maxConcurrent, now), run);
             Enabled(s, TakePermit(t)) || Enabled(s, Finish(t, Resolved))
    ensures var s := After(Init(maxConcurrent, now), run);
            !Fresh(s.successes, s.tasks[t].key, s.now) && !Fresh(s.failures, s.tasks[t].key, s.now)
  {
    InitHolds(maxConcurrent, now);
    RunKeepsInv(Init(maxConcurrent, now), run);
  }

  // ----- One resolve a lifetime ------------------------------------------------------

  /** The two caches. */
  datatype Memory = Successes | Failures

  function Remembered(s: State, m: Memory): map<string, int> {
    if m.Successes? then s.successes else s.failures
  }

  predicate Forgets(a: Action, m: Memory, key: string) {
    a.Forget? && key in if m.Successes? then a.successKeys else a.failureKeys
  }

  /** The step is the start of a resolve for `key`. */
  predicate StartsResolve(s: State, a: Action, key: string)
    requires Enabled(s, a)
  {
    a.TakePermit? && s.tasks[a.t].key == key
  }

  function Resolves(s: State, run: seq<Action>, key: string): nat
    requires CanRun(s, run)
    decreases |run|
  {
    if run == [] then 0
    else (if StartsResolve(s, run[0], key) then 1 else 0) + Resolves(Apply(s, run[0]), run[1..], key)
  }

  lemma {:induction false} ClockAdvances(s: State, run: seq<Action>)
    requires CanRun(s, run)
    ensures After(s, run).now >= s.now
    decreases |run|
  {
    if run != [] {
      ClockAdvances(Apply(s, run[0]), run[1..]);
    }
  }

  lemma EntryStays(s: State, a: Action, m: Memory, key: string)
    requires Inv(s) && Enabled(s, a) && Fresh(Remembered(s, m), key, s.now) && !Forgets(a, m, key)
    ensures var after := Remembered(Apply(s, a), m); key in after && after[key] == Remembered(s, m)[key]
  {
  }

  /**
   Once a result or a failure is remembered for a key, no resolve for the key starts until
   that has expired or been forgotten, however many callers come and whatever they do.
   */
  lemma {:induction false} OneResolvePerLifetime(s: State, run: seq<Action>, m: Memory, key: string)
    requires Inv(s) && CanRun(s, run) && Fresh(Remembered(s, m), key, s.now)
    requires After(s, run).now <= Remembered(s, m)[key] && forall i :: 0 <= i < |run| ==> !Forgets(run[i], m, key)
    ensures Resolves(s, run, key) == 0
    ensures var after := Remembered(After(s, run), m); key in after && after[key] == Remembered(s, m)[key]
    decreases |run|
  {
    if run != [] {
      var s' := Apply(s, run[0]);
      StepKeepsInv(s, run[0]);
      EntryStays(s, run[0], m, key);
      ClockAdvances(s', run[1..]);
      assert forall i :: 0 <= i < |run[1..]| ==> run[1..][i] == run[i + 1];
      OneResolvePerLifetime(s', run[1..], m, key);
    }
  }

  lemma {:induction false} RunAppend(s: State, first: seq<Action>, rest: seq<Action>)
    requires CanRun(s, first + rest)
    ensures CanRun(s, first) && CanRun(After(s, first), rest) && After(s, first + rest) == After(After(s, first), rest)
    decreases |first|
  {
    if first == [] {
      assert first + rest == rest;
    } else {
      assert (first + rest)[1..] == first[1..] + rest;
      RunAppend(Apply(s, first[0]), first[1..], rest);
    }
  }

  /** How long, and where, the end of a resolve is remembered. */
  function MemoryOf(outcome: Outcome): Memory {
    if outcome.Resolved? then Successes else Failures
  }

  function LifetimeOf(outcome: Outcome): int {
    if outcome.Resolved? then 60_000 else 45_000
  }

  /**
   In any run from the start: after a resolve that succeeded none starts for its key within
   a minute, after one that failed none within 45 seconds, unless that is forgotten.
   */
  lemma StoredIsResolvedOnce(maxConcurrent: nat, now: int, before: seq<Action>, t: nat, outcome: Outcome,
                             rest: seq<Action>)
    requires !outcome.TooBusy?
    requires CanRun(Init(maxConcurrent, now), before + [Finish(t, outcome)] + rest)
    requires CanRun(Init(maxConcurrent, now), before) && t < |After(Init(maxConcurrent, now), before).tasks|
    requires var key := After(Init(maxConcurrent, now), before).tasks[t].key;
             forall i :: 0 <= i < |rest| ==> !Forgets(rest[i], MemoryOf(outcome), key)
    requires After(Init(maxConcurrent, now), before + [Finish(t, outcome)] + rest).now
          <= After(Init(maxConcurrent, now), before).now + LifetimeOf(outcome)
    ensures var stored := before + [Finish(t, outcome)];
            && CanRun(Init(maxConcurrent, now), stored) && CanRun(After(Init(maxConcurrent, now), stored), rest)
            && Resolves(After(Init(maxConcurrent, now), stored), rest,
                        After(Init(maxConcurrent, now), before).tasks[t].key) == 0
  {
    var init, a := Init(maxConcurrent, now), Finish(t, outcome);
    var s := After(init, before);
    RunAppend(init, before + [a], rest);
    RunAppend(init, before, [a]);
    assert [a][1..] == [];
    InitHolds(maxConcurrent, now);
    RunKeepsInv(init, before);
    StepKeepsInv(s, a);
    OneResolvePerLifetime(Apply(s, a), rest, MemoryOf(outcome), s.tasks[t].key);
  }

  /** Someone who came while something was remembered: still reading the caches, or done. */
  predicate WithoutLock(task: Task, m: Memory) {
    task.phase.ReadingSuccess? || task.phase.Finished? || (m.Failures? && task.phase.ReadingFailure?)
  }

  predicate NewcomersWithoutLock(tasks: seq<Task>, m: Memory, from: nat, key: string) {
    forall i :: from <= i < |tasks| && tasks[i].key == key ==> WithoutLock(tasks[i], m)
  }

  lemma NewcomerStep(s: State, a: Action, m: Memory, key: string, from: nat)
    requires Inv(s) && Enabled(s, a) && Fresh(Remembered(s, m), key, s.now)
    requires from <= |s.tasks| && NewcomersWithoutLock(s.tasks, m, from, key)
    ensures NewcomersWithoutLock(Apply(s, a).tasks, m, from, key) && |Apply(s, a).tasks| >= |s.tasks|
  {
    if OfTask(a) {
      StepOfOneTask(s, a);
    }
  }

  /** Whoever comes while something is remembered for a key never waits for the key's lock. */
  lemma {:induction false} NewcomersTakeNoLock(s: State, run: seq<Action>, m: Memory, key: string, from: nat)
    requires Inv(s) && CanRun(s, run) && Fresh(Remembered(s, m), key, s.now)
    requires After(s, run).now <= Remembered(s, m)[key] && forall i :: 0 <= i < |run| ==> !Forgets(run[i], m, key)
    requires from <= |s.tasks| && NewcomersWithoutLock(s.tasks, m, from, key)
    ensures NewcomersWithoutLock(After(s, run).tasks, m, from, key)
    decreases |run|
  {
    if run != [] {
      var s' := Apply(s, run[0]);
      StepKeepsInv(s, run[0]);
      EntryStays(s, run[0], m, key);
      NewcomerStep(s, run[0], m, key, from);
      ClockAdvances(s', run[1..]);
      assert forall i :: 0 <= i < |run[1..]| ==> run[1..][i] == run[i + 1];
      NewcomersTakeNoLock(s', run[1..], m, key, from);
    }
  }

  // ----- One caller alone ------------------------------------------------------------

  lemma Prepend(s: State, a: Action, next: State, run: seq<Action>)
    requires Enabled(s, a) && Apply(s, a) == next && CanRun(next, run)
    ensures CanRun(s, [a] + run) && After(s, [a] + run) == After(next, run)
  {
    assert ([a] + run)[1..] == run;
  }

  ghost predicate AtRest(s: State) {
    Inv(s) && forall i :: 0 <= i < |s.tasks| ==> s.tasks[i].phase.Finished?
  }

  lemma RestIsFree(s: State)
    requires AtRest(s)
    ensures s.locked == {} && s.permits == s.maxConcurrent >= 1
  {
    NothingLocked(Guards(s.tasks), s.locked);
    CountZero(s.tasks, HOLDS_PERMIT);
  }

  /** What one call on its own does when nothing is remembered: the reads, the lock, the reads again, the resolve. */
  function Entering(t: nat, key: string): seq<Action> {
    [Arrive(key), ReadSuccess(t), ReadFailure(t), TakeReference(t), Lock(t), ReadSuccess(t), ReadFailure(t),
     TakePermit(t)]
  }

  function Leaving(t: nat, outcome: Outcome): seq<Action> {
    [Finish(t, outcome), Drop(t), Drop(t), Drop(t)]
  }

  function At(s: State, key: string, phase: Phase): State {
    s.(tasks := s.tasks + [Task(key, phase)])
  }

  lemma OneReads(s: State, key: string, rest: seq<Action>)
    requires !Fresh(s.successes, key, s.now) && !Fresh(s.failures, key, s.now)
    requires CanRun(At(s, key, NeedsLock), rest)
    ensures var t, run := |s.tasks|, [Arrive(key)] + ([ReadSuccess(|s.tasks|)] + ([ReadFailure(|s.tasks|)] + rest));
            CanRun(s, run) && After(s, run) == After(At(s, key, NeedsLock), rest)
  {
    var t := |s.tasks|;
    MoveLast(s, key, ReadingFailure, NeedsLock);
    MoveLast(s, key, ReadingSuccess, ReadingFailure);
    Prepend(At(s, key, ReadingFailure), ReadFailure(t), At(s, key, NeedsLock), rest);
    Prepend(At(s, key, ReadingSuccess), ReadSuccess(t), At(s, key, ReadingFailure), [ReadFailure(t)] + rest);
    Prepend(s, Arrive(key), At(s, key, ReadingSuccess), [ReadSuccess(t)] + ([ReadFailure(t)] + rest));
  }

  lemma MoveLast(s: State, key: string, phase: Phase, next: Phase)
    ensures Move(At(s, key, phase), |s.tasks|, next) == At(s, key, next)
  {
  }

  lemma OneLocks(s: State, key: string, rest: seq<Action>)
    requires s.locked == {}
    requires var (table, lock) := GetOrInsert(s.table, key);
             CanRun(At(s.(table := table, locked := {lock}), key, RereadingSuccess(lock)), rest)
    ensures var (table, lock) := GetOrInsert(s.table, key); var t := |s.tasks|;
            var run := [TakeReference(t)] + ([Lock(t)] + rest);
            && CanRun(At(s, key, NeedsLock), run)
            && After(At(s, key, NeedsLock), run)
               == After(At(s.(table := table, locked := {lock}), key, RereadingSuccess(lock)), rest)
  {
    var t := |s.tasks|;
    var (table, lock) := GetOrInsert(s.table, key);
    MoveLast(s, key, NeedsLock, QueuedForLock(lock));
    MoveLast(s.(table := table), key, QueuedForLock(lock), RereadingSuccess(lock));
    Prepend(At(s.(table := table), key, QueuedForLock(lock)), Lock(t),
            At(s.(table := table, locked := {lock}), key, RereadingSuccess(lock)), rest);
    Prepend(At(s, key, NeedsLock), TakeReference(t), At(s.(table := table), key, QueuedForLock(lock)),
            [Lock(t)] + rest);
  }

  lemma OneRereads(s: State, key: string, lock: nat, rest: seq<Action>)
    requires !Fresh(s.successes, key, s.now) && !Fresh(s.failures, key, s.now) && s.permits > 0
    requires CanRun(At(s.(permits := s.permits - 1), key, Resolving(lock)), rest)
    ensures var t := |s.tasks|; var run := [ReadSuccess(t)] + ([ReadFailure(t)] + ([TakePermit(t)] + rest));
            && CanRun(At(s, key, RereadingSuccess(lock)), run)
            && After(At(s, key, RereadingSuccess(lock)), run)
               == After(At(s.(permits := s.permits - 1), key, Resolving(lock)), rest)
  {
    var t := |s.tasks|;
    MoveLast(s, key, RereadingSuccess(lock), RereadingFailure(lock));
    MoveLast(s, key, RereadingFailure(lock), QueuedForPermit(lock));
    MoveLast(s, key, QueuedForPermit(lock), Resolving(lock));
    Prepend(At(s, key, QueuedForPermit(lock)), TakePermit(t), At(s.(permits := s.permits - 1), key, Resolving(lock)),
            rest);
    Prepend(At(s, key, RereadingFailure(lock)), ReadFailure(t), At(s, key, QueuedForPermit(lock)),
            [TakePermit(t)] + rest);
    Prepend(At(s, key, RereadingSuccess(lock)), ReadSuccess(t), At(s, key, RereadingFailure(lock)),
            [ReadFailure(t)] + ([TakePermit(t)] + rest));
  }

  function Remember(s: State, key: string, outcome: Outcome): State {
    match outcome
    case Resolved => s.(successes := s.successes[key := s.now + 60_000])
    case Failed => s.(failures := s.failures[key := s.now + 45_000])
    case TooBusy => s
  }

  /** The drops on the way out: permit, guard, reference. */
  lemma OneDrops(s: State, key: string, lock: nat)
    requires s.locked == {lock}
    ensures var t := |s.tasks|; var run := [Drop(t)] + ([Drop(t)] + ([Drop(t)] + []));
            && CanRun(At(s, key, DroppingPermit(lock)), run)
            && After(At(s, key, DroppingPermit(lock)), run)
               == At(s.(permits := s.permits + 1, locked := {}), key, Finished)
  {
    var t, back := |s.tasks|, s.(permits := s.permits + 1);
    var free := back.(locked := {});
    MoveLast(s, key, DroppingPermit(lock), DroppingGuard(lock));
    MoveLast(back, key, DroppingGuard(lock), DroppingReference(lock));
    MoveLast(free, key, DroppingReference(lock), Finished);
    assert s.locked - {lock} == {};
    Prepend(At(free, key, DroppingReference(lock)), Drop(t), At(free, key, Finished), []);
    Prepend(At(back, key, DroppingGuard(lock)), Drop(t), At(free, key, DroppingReference(lock)), [Drop(t)] + []);
    Prepend(At(s, key, DroppingPermit(lock)), Drop(t), At(back, key, DroppingGuard(lock)),
            [Drop(t)] + ([Drop(t)] + []));
  }

  lemma OneLeaves(s: State, key: string, lock: nat, outcome: Outcome)
    requires s.locked == {lock}
    ensures var t := |s.tasks|;
            && CanRun(At(s, key, Resolving(lock)), Leaving(t, outcome))
            && After(At(s, key, Resolving(lock)), Leaving(t, outcome))
               == At(Remember(s, key, outcome).(permits := s.permits + 1, locked := {}), key, Finished)
  {
    var t, r := |s.tasks|, Remember(s, key, outcome);
    MoveLast(s, key, Resolving(lock), DroppingPermit(lock));
    OneDrops(r, key, lock);
    Prepend(At(s, key, Resolving(lock)), Finish(t, outcome), At(r, key, DroppingPermit(lock)),
            [Drop(t)] + ([Drop(t)] + ([Drop(t)] + [])));
    assert Leaving(t, outcome) == [Finish(t, outcome)] + ([Drop(t)] + ([Drop(t)] + ([Drop(t)] + [])));
  }

  /**
   One call on its own, with nothing remembered: it resolves, what it got is remembered for a
   minute or 45 seconds (or, from an upstream too busy, not at all, so that the next one
   resolves again), and the lock and the permit are returned.
   */
  lemma CallerAlone(s: State, key: string, outcome: Outcome)
    requires AtRest(s) && !Fresh(s.successes, key, s.now) && !Fresh(s.failures, key, s.now)
    ensures var run := Entering(|s.tasks|, key) + Leaving(|s.tasks|, outcome);
            && CanRun(s, run)
            && After(s, run) == At(Remember(s, key, outcome).(table := GetOrInsert(s.table, key).0), key, Finished)
  {
    RestIsFree(s);
    var inside := Inside(s, GetOrInsert(s.table, key));
    OneLeaves(inside, key, GetOrInsert(s.table, key).1, outcome);
    OneEnters(s, key, Leaving(|s.tasks|, outcome));
    AllReturned(s, key, outcome, GetOrInsert(s.table, key));
  }

  /** With the given lock held, and a permit. */
  function Inside(s: State, entry: (Table, nat)): (inside: State)
    requires s.permits > 0
    ensures |inside.tasks| == |s.tasks|
  {
    s.(table := entry.0, locked := {entry.1}, permits := s.permits - 1)
  }

  lemma AllReturned(s: State, key: string, outcome: Outcome, entry: (Table, nat))
    requires s.locked == {} && s.permits > 0
    ensures var inside := Inside(s, entry);
            Remember(inside, key, outcome).(permits := inside.permits + 1, locked := {})
            == Remember(s, key, outcome).(table := entry.0)
  {
  }

  lemma OneEnters(s: State, key: string, rest: seq<Action>)
    requires s.locked == {} && s.permits > 0 && !Fresh(s.successes, key, s.now) && !Fresh(s.failures, key, s.now)
    requires var entry := GetOrInsert(s.table, key); CanRun(At(Inside(s, entry), key, Resolving(entry.1)), rest)
    ensures var entry := GetOrInsert(s.table, key); var run := Entering(|s.tasks|, key) + rest;
            && CanRun(s, run)
            && After(s, run) == After(At(Inside(s, entry), key, Resolving(entry.1)), rest)
  {
    var t := |s.tasks|;
    var (table, lock) := GetOrInsert(s.table, key);
    var last3 := [ReadSuccess(t)] + ([ReadFailure(t)] + ([TakePermit(t)] + rest));
    OneRereads(s.(table := table, locked := {lock}), key, lock, rest);
    OneLocks(s, key, last3);
    OneReads(s, key, [TakeReference(t)] + ([Lock(t)] + last3));
    EnteringThen(t, key, rest);
  }

  lemma EnteringThen(t: nat, key: string, rest: seq<Action>)
    ensures var last3 := [ReadSuccess(t)] + ([ReadFailure(t)] + ([TakePermit(t)] + rest));
            Entering(t, key) + rest
            == [Arrive(key)] + ([ReadSuccess(t)] + ([ReadFailure(t)] + ([TakeReference(t)] + ([Lock(t)] + last3))))
  {
  }

  /** With a result remembered the call is over after the first read, with a failure after the second. */
  lemma CallerServedFromMemory(s: State, key: string)
    requires Fresh(s.successes, key, s.now) || Fresh(s.failures, key, s.now)
    ensures var t := |s.tasks|;
            var run := if Fresh(s.successes, key, s.now) then [Arrive(key), ReadSuccess(t)]
                       else [Arrive(key), ReadSuccess(t), ReadFailure(t)];
            CanRun(s, run) && After(s, run) == At(s, key, Finished)
  {
    var t := |s.tasks|;
    if Fresh(s.successes, key, s.now) {
      MoveLast(s, key, ReadingSuccess, Finished);
      Prepend(At(s, key, ReadingSuccess), ReadSuccess(t), At(s, key, Finished), []);
      Prepend(s, Arrive(key), At(s, key, ReadingSuccess), [ReadSuccess(t)] + []);
      assert [Arrive(key), ReadSuccess(t)] == [Arrive(key)] + ([ReadSuccess(t)] + []);
    } else {
      MoveLast(s, key, ReadingSuccess, ReadingFailure);
      MoveLast(s, key, ReadingFailure, Finished);
      Prepend(At(s, key, ReadingFailure), ReadFailure(t), At(s, key, Finished), []);
      Prepend(At(s, key, ReadingSuccess), ReadSuccess(t), At(s, key, ReadingFailure), [ReadFailure(t)] + []);
      Prepend(s, Arrive(key), At(s, key, ReadingSuccess), [ReadSuccess(t)] + ([ReadFailure(t)] + []));
      assert [Arrive(key), ReadSuccess(t), ReadFailure(t)]
          == [Arrive(key)] + ([ReadSuccess(t)] + ([ReadFailure(t)] + []));
    }
  }

  /** Only the end of a resolve remembers, only pruning and trimming forget, and only the clock moves the time. */
  lemma CachesChange(s: State, a: Action)
    requires Enabled(s, a)
    ensures !a.Finish? && !a.Forget? ==> Apply(s, a).successes == s.successes && Apply(s, a).failures == s.failures
    ensures a.Forget? ==>
              Apply(s, a) == s.(successes := map k | k in s.successes && k !in a.successKeys :: s.successes[k],
                                failures := map k | k in s.failures && k !in a.failureKeys :: s.failures[k])
    ensures Apply(s, a).now == if a.Tick? then s.now + a.ms else s.now
  {
  }

  /** A sweep of the locks removes, of those it visits, the ones nobody refers to, and changes nothing else. */
  lemma SweepRemovesIdle(s: State, visited: set<string>, key: string)
    ensures var s' := Apply(s, SweepLocks(visited));
            && s' == s.(table := s'.table) && s'.table.ids.Keys <= s.table.ids.Keys
            && (key in s.table.ids ==>
                  (key in s'.table.ids
                   <==> key !in visited || exists i :: 0 <= i < |s.tasks| && RefersTo(s.tasks[i], s.table.ids[key])))
  {
    IdleIffUnreferenced(s.table, Held(s.tasks), visited, key);
    assert forall i :: 0 <= i < |s.tasks| ==> Held(s.tasks)[i] == Reference(s.tasks[i]);
  }

  predicate RefersTo(task: Task, lock: nat) {
    task.phase.HasReference() && task.phase.lock == lock
  }

  // ----- Progress ----------------------------------------------------------------

  function Measure(tasks: seq<Task>): nat {
    if tasks == [] then 0 else Measure(tasks[..|tasks| - 1]) + tasks[|tasks| - 1].phase.Rank()
  }

  lemma {:induction false} MeasureUpdate(tasks: seq<Task>, t: nat, task: Task)
    requires t < |tasks|
    ensures Measure(tasks[t := task]) == Measure(tasks) - tasks[t].phase.Rank() + task.phase.Rank()
  {
    var n := |tasks| - 1;
    if t == n {
      assert tasks[t := task][..n] == tasks[..n];
    } else {
      assert tasks[t := task][..n] == tasks[..n][t := task];
      MeasureUpdate(tasks[..n], t, task);
    }
  }

  /** Each step of a task, abandoning included, brings the whole system strictly nearer its end. */
  lemma TaskStepsDecrease(s: State, a: Action)
    requires Enabled(s, a) && OfTask(a)
    ensures Measure(Apply(s, a).tasks) < Measure(s.tasks)
  {
    StepOfOneTask(s, a);
    StepNearsEnd(s, a);
    MeasureUpdate(s.tasks, a.t, Apply(s, a).tasks[a.t]);
  }

  /** While a task is unfinished, some task can take a step without cancellation or timeout. */
  lemma {:induction false} NoDeadlock(s: State, t: nat) returns (a: Action)
    requires Inv(s) && t < |s.tasks| && !s.tasks[t].phase.Finished?
    ensures Enabled(s, a) && a.Progress()
  {
    if u: nat :| u < |s.tasks| && s.tasks[u].phase.HasPermit() {
      a := if s.tasks[u].phase.Resolving? then Finish(u, Resolved) else Drop(u);
    } else if u: nat :| u < |s.tasks| && s.tasks[u].phase.HasGuard() {
      CountZero(s.tasks, HOLDS_PERMIT);
      a := match s.tasks[u].phase
           case RereadingSuccess(_) => ReadSuccess(u)
           case RereadingFailure(_) => ReadFailure(u)
           case QueuedForPermit(_) => TakePermit(u)
           case _ => Drop(u);
    } else {
      NothingLocked(Guards(s.tasks), s.locked);
      a := match s.tasks[t].phase
           case ReadingSuccess => ReadSuccess(t)
           case ReadingFailure => ReadFailure(t)
           case NeedsLock => TakeReference(t)
           case QueuedForLock(_) => Lock(t)
           case _ => Drop(t);
    }
  }

  /** From every reachable state the tasks can all finish, in at most `Measure` steps of their own. */
  lemma {:induction false} EveryoneCanFinish(s: State) returns (run: seq<Action>)
    requires Inv(s)
    ensures CanRun(s, run) && |run| <= Measure(s.tasks)
    ensures forall i :: 0 <= i < |run| ==> run[i].Progress()
    ensures forall i :: 0 <= i < |After(s, run).tasks| ==> After(s, run).tasks[i].phase.Finished?
    decreases Measure(s.tasks)
  {
    if t: nat :| t < |s.tasks| && !s.tasks[t].phase.Finished? {
      var a := NoDeadlock(s, t);
      StepKeepsInv(s, a);
      TaskStepsDecrease(s, a);
      var rest := EveryoneCanFinish(Apply(s, a));
      run := [a] + rest;
      assert run[1..] == rest;
    } else {
      run := [];
    }
  }
}
