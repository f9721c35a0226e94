/**
 The single flights of the live proxy, one for playlists and one for segments: a cache read,
 the key's lock, the read again, the fetch, the store, and the drops on the way out. Any
 number of viewers interleave at the grain of one shared-memory access; any of them may go
 away while it waits, the clock advances, and the sweeps run at any moment.
 */
module SingleFlight {
  import opened Options
  import opened KeyLock

  /** Where a viewer's request stands; `lock` is the mutex object it holds a reference to. */
  datatype Phase =
    | Reading
    | NeedsLock
    | QueuedForLock(lock: nat)
    | Rereading(lock: nat)
    | Fetching(lock: nat)
    | DroppingGuard(lock: nat)
    | DroppingReference(lock: nat)
    | Finished
  {
    predicate HasReference() {
      QueuedForLock? || DroppingReference? || HasGuard()
    }

    predicate HasGuard() {
      Rereading? || Fetching? || DroppingGuard?
    }

    /** How many steps, at most, separate the request from its end. */
    function Rank(): nat {
      match this
      case Reading => 7
      case NeedsLock => 6
      case QueuedForLock(_) => 5
      case Rereading(_) => 4
      case Fetching(_) => 3
      case DroppingGuard(_) => 2
      case DroppingReference(_) => 1
      case Finished => 0
    }
  }

  datatype Task = Task(key: string, phase: Phase)

  /** `cache` has the time until which each entry is fresh. */
  datatype State = State(now: int, table: Table, locked: set<nat>, cache: map<string, int>, tasks: seq<Task>)

  function Init(now: int): State {
    State(now, EMPTY_TABLE, {}, map[], [])
  }

  predicate Fresh(s: State, key: string) {
    key in s.cache && s.now <= s.cache[key]
  }

  datatype Action =
    | Arrive(key: string)
    | Read(t: nat)
    | TakeReference(t: nat)
    | Lock(t: nat)
    | Reread(t: nat)
    | Finish(t: nat, lifetime: Option<int>)   // of what is stored; errors, and some answers, are not
    | Drop(t: nat)
    | Abandon(t: nat)
    | Tick(ms: nat)
    | SweepLocks(visited: set<string>)
    | Forget(keys: set<string>)               // prune, and the eviction at a store
  {
    /** A step some request takes by itself on its way to the end. */
    predicate Progress() {
      Read? || TakeReference? || Lock? || Reread? || Finish? || Drop?
    }

    predicate OfTask() {
      Progress() || Abandon?
    }
  }

  predicate Enabled(s: State, a: Action) {
    match a
    case Arrive(_) => true
    case Read(t) => t < |s.tasks| && s.tasks[t].phase.Reading?
    case TakeReference(t) => t < |s.tasks| && s.tasks[t].phase.NeedsLock?
    case Lock(t) => t < |s.tasks| && s.tasks[t].phase.QueuedForLock? && s.tasks[t].phase.lock !in s.locked
    case Reread(t) => t < |s.tasks| && s.tasks[t].phase.Rereading?
    case Finish(t, _) => t < |s.tasks| && s.tasks[t].phase.Fetching?
    case Drop(t) => t < |s.tasks| && (s.tasks[t].phase.DroppingGuard? || s.tasks[t].phase.DroppingReference?)
    case Abandon(t) => t < |s.tasks| && (s.tasks[t].phase.QueuedForLock? || s.tasks[t].phase.Fetching?)
    case Tick(_) => true
    case SweepLocks(_) => true
    case Forget(_) => true
  }

  function Move(s: State, t: nat, phase: Phase): State
    requires t < |s.tasks|
  {
    s.(tasks := s.tasks[t := s.tasks[t].(phase := phase)])
  }

  function Apply(s: State, a: Action): State
    requires Enabled(s, a)
  {
    match a
    case Arrive(key) => s.(tasks := s.tasks + [Task(key, Reading)])
    case Read(t) => Move(s, t, if Fresh(s, s.tasks[t].key) then Finished else NeedsLock)
    case TakeReference(t) =>
      var (table, lock) := GetOrInsert(s.table, s.tasks[t].key);
      Move(s, t, QueuedForLock(lock)).(table := table)
    case Lock(t) => Move(s, t, Rereading(s.tasks[t].phase.lock)).(locked := s.locked + {s.tasks[t].phase.lock})
    case Reread(t) =>
      var lock := s.tasks[t].phase.lock;
      Move(s, t, if Fresh(s, s.tasks[t].key) then DroppingGuard(lock) else Fetching(lock))
    case Finish(t, lifetime) =>
      var s' := Move(s, t, DroppingGuard(s.tasks[t].phase.lock));
      if lifetime.None? then s' else s'.(cache := s.cache[s.tasks[t].key := s.now + lifetime.value])
    case Drop(t) =>
      (match s.tasks[t].phase
       case DroppingGuard(lock) => Move(s, t, DroppingReference(lock)).(locked := s.locked - {lock})
       case DroppingReference(_) => Move(s, t, Finished))
    case Abandon(t) =>
      (match s.tasks[t].phase
       case QueuedForLock(lock) => Move(s, t, DroppingReference(lock))
       case Fetching(lock) => Move(s, t, DroppingGuard(lock)))
    case Tick(ms) => s.(now := s.now + ms)
    case SweepLocks(visited) => s.(table := Remove(s.table, IdleKeys(s.table, Held(s.tasks), visited)))
    case Forget(keys) => s.(cache := s.cache - keys)
  }

  function Reference(task: Task): Option<Handle> {
    if task.phase.HasReference() then Some(Handle(task.key, task.phase.lock)) else None
  }

  /** The lock references held by the requests, one by one. */
  function Held(tasks: seq<Task>): seq<Option<Handle>> {
    seq(|tasks|, i requires 0 <= i < |tasks| => Reference(tasks[i]))
  }

  function Guard(task: Task): Option<nat> {
    if task.phase.HasGuard() then Some(task.phase.lock) else None
  }

  function Guards(tasks: seq<Task>): seq<Option<nat>> {
    seq(|tasks|, i requires 0 <= i < |tasks| => Guard(tasks[i]))
  }

  // ----- Invariant -----------------------------------------------------------------------

  /** Whoever fetches still finds nothing: only the guard's owner stores. */
  predicate FetchersMiss(s: State) {
    forall i :: 0 <= i < |s.tasks| && s.tasks[i].phase.Fetching? ==> !Fresh(s, s.tasks[i].key)
  }

  ghost predicate Inv(s: State) {
    Coherent(s.table, Held(s.tasks)) && Exclusive(Guards(s.tasks), s.locked) && FetchersMiss(s)
  }

  lemma GuardOwnersDiffer(s: State, i: nat, j: nat)
    requires Inv(s) && i < |s.tasks| && j < |s.tasks| && i != j
    requires s.tasks[i].phase.HasGuard() && s.tasks[j].phase.HasGuard()
    ensures s.tasks[i].key != s.tasks[j].key
  {
    var held, guards := Held(s.tasks), Guards(s.tasks);
    assert held[i] == Reference(s.tasks[i]) && held[j] == Reference(s.tasks[j]);
    assert guards[i] == Guard(s.tasks[i]) && guards[j] == Guard(s.tasks[j]);
    SameKeySameObject(s.table, held, i, j);
  }

  /** A request's step changes that request's phase only, and brings it nearer its end. */
  lemma StepOfOneTask(s: State, a: Action)
    requires Enabled(s, a) && a.OfTask()
    ensures var s' := Apply(s, a);
            && |s'.tasks| == |s.tasks| && s'.tasks == s.tasks[a.t := s'.tasks[a.t]]
            && s'.tasks[a.t].key == s.tasks[a.t].key && s'.now == s.now
            && s'.tasks[a.t].phase.Rank() < s.tasks[a.t].phase.Rank()
  {
  }

  lemma StepOfReferences(s: State, a: Action)
    requires Enabled(s, a) && a.OfTask() && !a.TakeReference?
    ensures var s' := Apply(s, a); var after := Reference(s'.tasks[a.t]);
            s'.table == s.table && (after.Some? ==> after == Reference(s.tasks[a.t]))
  {
  }

  lemma StepOfGuards(s: State, a: Action)
    requires Enabled(s, a) && a.OfTask()
    ensures var s' := Apply(s, a); GuardMoves(Guard(s.tasks[a.t]), Guard(s'.tasks[a.t]), s.locked, s'.locked)
  {
  }

  lemma CoherenceStep(s: State, a: Action)
    requires Inv(s) && Enabled(s, a)
    ensures var s' := Apply(s, a); Coherent(s'.table, Held(s'.tasks))
  {
    var s', held := Apply(s, a), Held(s.tasks);
    if a.TakeReference? {
      var key := s.tasks[a.t].key;
      GetOrInsertKeepsCoherence(s.table, held, a.t, key);
      assert Held(s'.tasks) == held[a.t := Some(Handle(key, GetOrInsert(s.table, key).1))];
    } else if a.OfTask() {
      StepOfOneTask(s, a);
      StepOfReferences(s, a);
      assert held[a.t] == Reference(s.tasks[a.t]);
      assert Held(s'.tasks) == held[a.t := Reference(s'.tasks[a.t])];
    } else if a.SweepLocks? {
      SweepKeepsCoherence(s.table, held, a.visited, IdleKeys(s.table, held, a.visited));
    } else if a.Arrive? {
      assert Held(s'.tasks) == held + [None];
    }
  }

  lemma GuardsStep(s: State, a: Action)
    requires Inv(s) && Enabled(s, a)
    ensures var s' := Apply(s, a); Exclusive(Guards(s'.tasks), s'.locked)
  {
    var s', guards := Apply(s, a), Guards(s.tasks);
    if a.OfTask() {
      StepOfOneTask(s, a);
      StepOfGuards(s, a);
      GuardMoveKeepsExclusive(guards, s.locked, a.t, Guard(s'.tasks[a.t]), s'.locked);
      assert Guards(s'.tasks) == guards[a.t := Guard(s'.tasks[a.t])];
    } else if a.Arrive? {
      OneMoreTask(guards, s.locked);
      assert Guards(s'.tasks) == guards + [None];
    }
  }

  /** What is stored is stored by the one request that may fetch the key. */
  lemma FetchersStep(s: State, a: Action)
    requires Inv(s) && Enabled(s, a)
    ensures FetchersMiss(Apply(s, a))
  {
    var s' := Apply(s, a);
    forall i: nat | i < |s'.tasks| && s'.tasks[i].phase.Fetching? ensures !Fresh(s', s'.tasks[i].key) {
      if a.OfTask() {
        StepOfOneTask(s, a);
      }
      if a.Finish? && i != a.t {
        GuardOwnersDiffer(s, i, a.t);
      }
    }
  }

  /** Every step, of any request or of the environment, keeps the invariant. */
  lemma StepKeepsInv(s: State, a: Action)
    requires Inv(s) && Enabled(s, a)
    ensures Inv(Apply(s, a))
  {
    CoherenceStep(s, a);
    GuardsStep(s, a);
    FetchersStep(s, a);
  }

  // ----- Runs ----------------------------------------------------------------------------

  predicate CanRun(s: State, run: seq<Action>)
    decreases |run|
  {
    run == [] || (Enabled(s, run[0]) && CanRun(Apply(s, run[0]), run[1..]))
  }

  function After(s: State, run: seq<Action>): State
    requires CanRun(s, run)
    decreases |run|
  {
    if run == [] then s else After(Apply(s, run[0]), run[1..])
  }

  lemma {:induction false} RunKeepsInv(s: State, run: seq<Action>)
    requires Inv(s) && CanRun(s, run)
    ensures Inv(After(s, run))
    decreases |run|
  {
    if run != [] {
      StepKeepsInv(s, run[0]);
      RunKeepsInv(Apply(s, run[0]), run[1..]);
    }
  }

  /** In every reachable state at most one request for a key fetches, or holds its guard. */
  lemma MutualExclusion(now: int, run: seq<Action>, i: nat, j: nat)
    requires CanRun(Init(now), run)
    requires var tasks := After(Init(now), run).tasks;
             && i < |tasks| && j < |tasks| && tasks[i].key == tasks[j].key
             && tasks[i].phase.HasGuard() && tasks[j].phase.HasGuard()
    ensures i == j
  {
    RunKeepsInv(Init(now), run);
    if i != j {
      GuardOwnersDiffer(After(Init(now), run), i, j);
    }
  }

  // ----- One fetch a lifetime ------------------------------------------------------------

  /** The step is the start of a fetch for `key`. */
  predicate StartsFetch(s: State, a: Action, key: string)
    requires Enabled(s, a)
  {
    a.Reread? && s.tasks[a.t].key == key && !Fresh(s, key)
  }

  function Fetches(s: State, run: seq<Action>, key: string): nat
    requires CanRun(s, run)
    decreases |run|
  {
    if run == [] then 0
    else (if StartsFetch(s, run[0], key) then 1 else 0) + Fetches(Apply(s, run[0]), run[1..], key)
  }

  predicate Forgets(a: Action, key: string) {
    a.Forget? && key in a.keys
  }

  lemma {:induction false} ClockAdvances(s: State, run: seq<Action>)
    requires CanRun(s, run)
    ensures After(s, run).now >= s.now
    decreases |run|
  {
    if run != [] {
      ClockAdvances(Apply(s, run[0]), run[1..]);
    }
  }

  lemma EntryStays(s: State, a: Action, key: string)
    requires Inv(s) && Enabled(s, a) && Fresh(s, key) && !Forgets(a, key)
    ensures key in Apply(s, a).cache && Apply(s, a).cache[key] == s.cache[key]
  {
  }

  /**
   Once something is stored for a key, no request for the key starts a fetch until it has
   expired or been evicted, however many viewers come and whatever they do.
   */
  lemma {:induction false} OneFetchPerLifetime(s: State, run: seq<Action>, key: string)
    requires Inv(s) && CanRun(s, run) && Fresh(s, key) && After(s, run).now <= s.cache[key]
    requires forall i :: 0 <= i < |run| ==> !Forgets(run[i], key)
    ensures Fetches(s, run, key) == 0
    ensures key in After(s, run).cache && After(s, run).cache[key] == s.cache[key]
    decreases |run|
  {
    if run != [] {
      var s' := Apply(s, run[0]);
      StepKeepsInv(s, run[0]);
      EntryStays(s, run[0], key);
      ClockAdvances(s', run[1..]);
      assert forall i :: 0 <= i < |run[1..]| ==> run[1..][i] == run[i + 1];
      OneFetchPerLifetime(s', run[1..], key);
    }
  }

  lemma {:induction false} RunAppend(s: State, first: seq<Action>, rest: seq<Action>)
    requires CanRun(s, first + rest)
    ensures CanRun(s, first) && CanRun(After(s, first), rest) && After(s, first + rest) == After(After(s, first), rest)
    decreases |first|
  {
    if first == [] {
      assert first + rest == rest;
    } else {
      assert (first + rest)[1..] == first[1..] + rest;
      RunAppend(Apply(s, first[0]), first[1..], rest);
    }
  }

  /**
   In any run from the start: after a fetch that stored, none starts for its key within the lifetime
   of what it stored.
   */
  lemma StoredIsFetchedOnce(now: int, before: seq<Action>, t: nat, lifetime: nat, rest: seq<Action>)
    requires CanRun(Init(now), before + [Finish(t, Some(lifetime))] + rest)
    requires CanRun(Init(now), before) && t < |After(Init(now), before).tasks|
    requires var key := After(Init(now), before).tasks[t].key; forall i :: 0 <= i < |rest| ==> !Forgets(rest[i], key)
    requires After(Init(now), before + [Finish(t, Some(lifetime))] + rest).now <= After(Init(now), before).now
               + lifetime
    ensures var stored := before + [Finish(t, Some(lifetime))];
            && CanRun(Init(now), stored) && CanRun(After(Init(now), stored), rest)
            && Fetches(After(Init(now), stored), rest, After(Init(now), before).tasks[t].key) == 0
  {
    var s, a := After(Init(now), before), Finish(t, Some(lifetime));
    RunAppend(Init(now), before + [a], rest);
    RunAppend(Init(now), before, [a]);
    assert [a][1..] == [];
    RunKeepsInv(Init(now), before);
    StepKeepsInv(s, a);
    OneFetchPerLifetime(Apply(s, a), rest, s.tasks[t].key);
  }

  // ----- One viewer alone ----------------------------------------------------------------

  lemma Prepend(s: State, a: Action, next: State, run: seq<Action>)
    requires Enabled(s, a) && Apply(s, a) == next && CanRun(next, run)
    ensures CanRun(s, [a] + run) && After(s, [a] + run) == After(next, run)
  {
    assert ([a] + run)[1..] == run;
  }

  function At(s: State, key: string, phase: Phase): State {
    s.(tasks := s.tasks + [Task(key, phase)])
  }

  lemma MoveLast(s: State, key: string, phase: Phase, next: Phase)
    ensures Move(At(s, key, phase), |s.tasks|, next) == At(s, key, next)
  {
  }

  function Entering(t: nat, key: string): seq<Action> {
    [Arrive(key), Read(t), TakeReference(t), Lock(t), Reread(t)]
  }

  function Leaving(t: nat, lifetime: Option<int>): seq<Action> {
    [Finish(t, lifetime), Drop(t), Drop(t)]
  }

  lemma OneEnters(s: State, key: string, rest: seq<Action>)
    requires s.locked == {} && !Fresh(s, key)
    requires var entry := GetOrInsert(s.table, key); CanRun(At(Inside(s, entry), key, Fetching(entry.1)), rest)
    ensures var entry := GetOrInsert(s.table, key); var run := Entering(|s.tasks|, key) + rest;
            CanRun(s, run) && After(s, run) == After(At(Inside(s, entry), key, Fetching(entry.1)), rest)
  {
    var t := |s.tasks|;
    var (table, lock) := GetOrInsert(s.table, key);
    var inside := s.(table := table, locked := {lock});
    MoveLast(s, key, Reading, NeedsLock);
    MoveLast(s, key, NeedsLock, QueuedForLock(lock));
    MoveLast(s.(table := table), key, QueuedForLock(lock), Rereading(lock));
    MoveLast(inside, key, Rereading(lock), Fetching(lock));
    var queued := At(s.(table := table), key, QueuedForLock(lock));
    Prepend(At(inside, key, Rereading(lock)), Reread(t), At(inside, key, Fetching(lock)), rest);
    Prepend(queued, Lock(t), At(inside, key, Rereading(lock)), [Reread(t)] + rest);
    Prepend(At(s, key, NeedsLock), TakeReference(t), queued, [Lock(t)] + ([Reread(t)] + rest));
    EnteringThen(t, key, rest);
    Prepend(At(s, key, Reading), Read(t), At(s, key, NeedsLock),
            [TakeReference(t)] + ([Lock(t)] + ([Reread(t)] + rest)));
    Prepend(s, Arrive(key), At(s, key, Reading),
            [Read(t)] + ([TakeReference(t)] + ([Lock(t)] + ([Reread(t)] + rest))));
  }

  lemma EnteringThen(t: nat, key: string, rest: seq<Action>)
    ensures Entering(t, key) + rest
         == [Arrive(key)] + ([Read(t)] + ([TakeReference(t)] + ([Lock(t)] + ([Reread(t)] + rest))))
  {
  }

  function Store(s: State, key: string, lifetime: Option<int>): State {
    if lifetime.None? then s else s.(cache := s.cache[key := s.now + lifetime.value])
  }

  lemma OneLeaves(s: State, key: string, lock: nat, lifetime: Option<int>)
    requires s.locked == {lock}
    ensures var t := |s.tasks|;
            && CanRun(At(s, key, Fetching(lock)), Leaving(t, lifetime))
            && After(At(s, key, Fetching(lock)), Leaving(t, lifetime))
               == At(Store(s, key, lifetime).(locked := {}), key, Finished)
  {
    var t, stored := |s.tasks|, Store(s, key, lifetime);
    var free := stored.(locked := {});
    MoveLast(s, key, Fetching(lock), DroppingGuard(lock));
    MoveLast(stored, key, DroppingGuard(lock), DroppingReference(lock));
    MoveLast(free, key, DroppingReference(lock), Finished);
    assert s.locked - {lock} == {};
    Prepend(At(free, key, DroppingReference(lock)), Drop(t), At(free, key, Finished), []);
    Prepend(At(stored, key, DroppingGuard(lock)), Drop(t), At(free, key, DroppingReference(lock)), [Drop(t)] + []);
    Prepend(At(s, key, Fetching(lock)), Finish(t, lifetime), At(stored, key, DroppingGuard(lock)),
            [Drop(t)] + ([Drop(t)] + []));
    assert Leaving(t, lifetime) == [Finish(t, lifetime)] + ([Drop(t)] + ([Drop(t)] + []));
  }

  /** With nothing stored and nobody inside, one viewer fetches, stores what may be stored, and returns the lock. */
  lemma ViewerAlone(s: State, key: string, lifetime: Option<int>)
    requires s.locked == {} && !Fresh(s, key)
    ensures var run := Entering(|s.tasks|, key) + Leaving(|s.tasks|, lifetime);
            && CanRun(s, run)
            && After(s, run) == At(Store(s, key, lifetime).(table := GetOrInsert(s.table, key).0), key, Finished)
  {
    var entry := GetOrInsert(s.table, key);
    OneLeaves(Inside(s, entry), key, entry.1, lifetime);
    OneEnters(s, key, Leaving(|s.tasks|, lifetime));
    AllReturned(s, key, lifetime, entry);
  }

  function Inside(s: State, entry: (Table, nat)): (inside: State)
    ensures |inside.tasks| == |s.tasks|
  {
    s.(table := entry.0, locked := {entry.1})
  }

  lemma AllReturned(s: State, key: string, lifetime: Option<int>, entry: (Table, nat))
    requires s.locked == {}
    ensures Store(Inside(s, entry), key, lifetime).(locked := {}) == Store(s, key, lifetime).(table := entry.0)
  {
  }

  /** With something stored the request is over after the first read. */
  lemma ViewerServedFromCache(s: State, key: string)
    requires Fresh(s, key)
    ensures var run := [Arrive(key), Read(|s.tasks|)];
            CanRun(s, run) && After(s, run) == At(s, key, Finished)
  {
    var t := |s.tasks|;
    MoveLast(s, key, Reading, Finished);
    Prepend(At(s, key, Reading), Read(t), At(s, key, Finished), []);
    Prepend(s, Arrive(key), At(s, key, Reading), [Read(t)] + []);
    assert [Arrive(key), Read(t)] == [Arrive(key)] + ([Read(t)] + []);
  }

  /** Only the end of a fetch stores, only eviction and pruning forget, and only the clock moves the time. */
  lemma CacheChanges(s: State, a: Action)
    requires Enabled(s, a)
    ensures !a.Finish? && !a.Forget? ==> Apply(s, a).cache == s.cache
    ensures a.Forget? ==> Apply(s, a) == s.(cache := map k | k in s.cache && k !in a.keys :: s.cache[k])
    ensures Apply(s, a).now == if a.Tick? then s.now + a.ms else s.now
  {
  }

  /** A sweep of the locks removes, of those it visits, the ones nobody refers to, and changes nothing else. */
  lemma SweepRemovesIdle(s: State, visited: set<string>, key: string)
    ensures var s' := Apply(s, SweepLocks(visited));
            && s' == s.(table := s'.table) && s'.table.ids.Keys <= s.table.ids.Keys
            && (key in s.table.ids ==>
                  (key in s'.table.ids
                   <==> key !in visited || exists i :: 0 <= i < |s.tasks| && RefersTo(s.tasks[i], s.table.ids[key])))
  {
    IdleIffUnreferenced(s.table, Held(s.tasks), visited, key);
    assert forall i :: 0 <= i < |s.tasks| ==> Held(s.tasks)[i] == Reference(s.tasks[i]);
  }

  predicate RefersTo(task: Task, lock: nat) {
    task.phase.HasReference() && task.phase.lock == lock
  }

  // ----- Progress ------------------------------------------------------------------------

  function Measure(tasks: seq<Task>): nat {
    if tasks == [] then 0 else Measure(tasks[..|tasks| - 1]) + tasks[|tasks| - 1].phase.Rank()
  }

  lemma {:induction false} MeasureUpdate(tasks: seq<Task>, t: nat, task: Task)
    requires t < |tasks|
    ensures Measure(tasks[t := task]) == Measure(tasks) - tasks[t].phase.Rank() + task.phase.Rank()
  {
    var n := |tasks| - 1;
    if t == n {
      assert tasks[t := task][..n] == tasks[..n];
    } else {
      assert tasks[t := task][..n] == tasks[..n][t := task];
      MeasureUpdate(tasks[..n], t, task);
    }
  }

  /** While a request is unfinished, some request can take a step without anybody going away. */
  lemma NoDeadlock(s: State, t: nat) returns (a: Action)
    requires Inv(s) && t < |s.tasks| && !s.tasks[t].phase.Finished?
    ensures Enabled(s, a) && a.Progress()
  {
    if u: nat :| u < |s.tasks| && s.tasks[u].phase.HasGuard() {
      a := match s.tasks[u].phase
           case Rereading(_) => Reread(u)
           case Fetching(_) => Finish(u, None)
           case _ => Drop(u);
    } else {
      NothingLocked(Guards(s.tasks), s.locked);
      a := match s.tasks[t].phase
           case Reading => Read(t)
           case NeedsLock => TakeReference(t)
           case QueuedForLock(_) => Lock(t)
           case _ => Drop(t);
    }
  }

  /** From every reachable state the requests can all finish, in at most `Measure` steps of their own. */
  lemma {:induction false} EveryoneCanFinish(s: State) returns (run: seq<Action>)
    requires Inv(s)
    ensures CanRun(s, run) && |run| <= Measure(s.tasks)
    ensures forall i :: 0 <= i < |run| ==> run[i].Progress()
    ensures forall i :: 0 <= i < |After(s, run).tasks| ==> After(s, run).tasks[i].phase.Finished?
    decreases Measure(s.tasks)
  {
    if t: nat :| t < |s.tasks| && !s.tasks[t].phase.Finished? {
      var a := NoDeadlock(s, t);
      var s' := Apply(s, a);
      StepKeepsInv(s, a);
      StepOfOneTask(s, a);
      MeasureUpdate(s.tasks, a.t, s'.tasks[a.t]);
      var rest := EveryoneCanFinish(s');
      run := [a] + rest;
      assert run[1..] == rest;
    } else {
      run := [];
    }
  }
}
