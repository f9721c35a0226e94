/**
 Per-provider permits: each provider has a semaphore in a shared map, a call waits for
 one of its permits with a timeout, and a sweep removes the semaphores that are full
 and that nothing but the map refers to. Calls interleave at the grain of one access.
 */
module ProviderBudget {
  import opened Options
  import opened Counting
  import opened KeyLock
  import opened Text

  datatype Phase =
    | Called
    | Waiting(semaphore: nat)
    | Holding(semaphore: nat)
    | Returned(semaphore: nat)   // the permit is back, its semaphore reference not yet dropped
    | Finished

  /** `key` is the provider's name, trimmed and in lower case. */
  datatype Call = Call(key: string, phase: Phase)

  datatype State = State(maxPerProvider: nat, table: Table, available: map<nat, nat>, calls: seq<Call>)

  function Init(maxPerProvider: nat): State {
    State(if maxPerProvider < 1 then 1 else maxPerProvider, EMPTY_TABLE, map[], [])
  }

  function Key(provider: string): string {
    AsciiLowercase(Trim(provider))
  }

  /** Two names that differ only in the case of ASCII letters and in white space around them are one provider. */
  lemma SpellingsAgree(a: string, b: string)
    requires |Trim(a)| == |Trim(b)|
    requires forall i :: 0 <= i < |Trim(a)| ==>
               var c, d := Trim(a)[i], Trim(b)[i];
               c == d || ('A' <= c <= 'Z' && d as int == c as int + 32)
                   || ('A' <= d <= 'Z' && c as int == d as int + 32)
    ensures Key(a) == Key(b)
  {
  }

  datatype Action =
    | Arrive(provider: string)
    | Enter(c: nat)
    | Grant(c: nat)
    | GiveUp(c: nat)      // the wait timed out or the call was cancelled
    | Return(c: nat)
    | Release(c: nat)
    | Sweep(visited: set<string>)

  predicate Enabled(s: State, a: Action) {
    match a
    case Arrive(_) => true
    case Enter(c) => c < |s.calls| && s.calls[c].phase.Called?
    case Grant(c) => c < |s.calls| && s.calls[c].phase.Waiting?
                     && s.calls[c].phase.semaphore in s.available && s.available[s.calls[c].phase.semaphore] > 0
    case GiveUp(c) => c < |s.calls| && s.calls[c].phase.Waiting?
    case Return(c) => c < |s.calls| && s.calls[c].phase.Holding? && s.calls[c].phase.semaphore in s.available
    case Release(c) => c < |s.calls| && s.calls[c].phase.Returned?
    case Sweep(_) => true
  }

  function Move(s: State, c: nat, phase: Phase): State
    requires c < |s.calls|
  {
    s.(calls := s.calls[c := s.calls[c].(phase := phase)])
  }

  /** Get-or-insert of a provider's semaphore; a new one has all its permits. */
  function Obtain(table: Table, available: map<nat, nat>, maxPerProvider: nat,
                  key: string): (Table, map<nat, nat>, nat) {
    var (table', id) := GetOrInsert(table, key);
    (table', if key in table.ids then available else available[id := maxPerProvider], id)
  }

  /** The entries the sweep drops: every permit home and no reference but the map's. */
  function Idle(table: Table, available: map<nat, nat>, maxPerProvider: nat, held: seq<Option<Handle>>,
                visited: set<string>): set<string> {
    set k | k in IdleKeys(table, held, visited) && k in table.ids
            && table.ids[k] in available && available[table.ids[k]] == maxPerProvider
  }

  function Apply(s: State, a: Action): State
    requires Enabled(s, a)
  {
    match a
    case Arrive(provider) => s.(calls := s.calls + [Call(Key(provider), Called)])
    case Enter(c) =>
      var key := s.calls[c].key;
      if key == "" then Move(s, c, Finished)
      else
        var (table, available, id) := Obtain(s.table, s.available, s.maxPerProvider, key);
        Move(s, c, Waiting(id)).(table := table, available := available)
    case Grant(c) =>
      var id := s.calls[c].phase.semaphore;
      Move(s, c, Holding(id)).(available := s.available[id := s.available[id] - 1])
    case GiveUp(c) => Move(s, c, Finished)
    case Return(c) =>
      var id := s.calls[c].phase.semaphore;
      Move(s, c, Returned(id)).(available := s.available[id := s.available[id] + 1])
    case Release(c) => Move(s, c, Finished)
    case Sweep(visited) =>
      s.(table := Remove(s.table, Idle(s.table, s.available, s.maxPerProvider, Held(s.calls), visited)))
  }

  function Reference(call: Call): Option<Handle> {
    if call.phase.Called? || call.phase.Finished? then None
    else Some(Handle(call.key, call.phase.semaphore))
  }

  function Held(calls: seq<Call>): seq<Option<Handle>> {
    seq(|calls|, i requires 0 <= i < |calls| => Reference(calls[i]))
  }

  function HoldsFrom(id: nat): Call -> bool {
    (call: Call) => call.phase.Holding? && call.phase.semaphore == id
  }

  /** Calls of one provider, whatever the spelling, that hold a permit. */
  function HoldsFor(key: string): Call -> bool {
    (call: Call) => call.phase.Holding? && call.key == key
  }

  // ----- Invariant ---------------------------------------------------------------

  ghost predicate PermitsConserved(s: State) {
    && (forall id :: 0 <= id < s.table.next ==> id in s.available)
    && (forall id :: id in s.available ==> id < s.table.next)
    && (forall id :: id in s.available ==> s.available[id] + Count(s.calls, HoldsFrom(id)) == s.maxPerProvider)
  }

  ghost predicate Inv(s: State) {
    && s.maxPerProvider >= 1
    && Coherent(s.table, Held(s.calls))
    && PermitsConserved(s)
  }

  lemma CoherentMove(table: Table, calls: seq<Call>, c: nat, call: Call)
    requires Coherent(table, Held(calls)) && c < |calls|
    requires Reference(call) == None || Reference(call) == Reference(calls[c])
    ensures Coherent(table, Held(calls[c := call]))
  {
    assert Held(calls[c := call]) == Held(calls)[c := Reference(call)];
    assert Held(calls)[c] == Reference(calls[c]);
  }

  lemma ReferenceInRange(s: State, c: nat)
    requires Inv(s) && c < |s.calls| && Reference(s.calls[c]).Some?
    ensures s.calls[c].key in s.table.ids
    ensures s.table.ids[s.calls[c].key] == s.calls[c].phase.semaphore
    ensures s.calls[c].phase.semaphore in s.available
  {
    assert Held(s.calls)[c] == Reference(s.calls[c]);
  }

  lemma CoherenceStep(s: State, a: Action)
    requires Inv(s) && Enabled(s, a)
    ensures var s' := Apply(s, a); Coherent(s'.table, Held(s'.calls))
  {
    var s' := Apply(s, a);
    match a
    case Arrive(_) => assert Held(s'.calls) == Held(s.calls) + [None];
    case Enter(c) =>
      var key := s.calls[c].key;
      if key == "" {
        CoherentMove(s.table, s.calls, c, s'.calls[c]);
      } else {
        GetOrInsertKeepsCoherence(s.table, Held(s.calls), c, key);
        assert Held(s'.calls) == Held(s.calls)[c := Some(Handle(key, GetOrInsert(s.table, key).1))];
      }
    case Sweep(visited) =>
      SweepKeepsCoherence(s.table, Held(s.calls), visited,
                          Idle(s.table, s.available, s.maxPerProvider, Held(s.calls), visited));
    case _ => CoherentMove(s.table, s.calls, a.c, s'.calls[a.c]);
  }

  lemma NewSemaphoreUnheld(s: State, id: nat)
    requires Inv(s) && id !in s.available
    ensures Count(s.calls, HoldsFrom(id)) == 0
  {
    forall i | 0 <= i < |s.calls| ensures !HoldsFrom(id)(s.calls[i]) {
      if s.calls[i].phase.Holding? {
        ReferenceInRange(s, i);
      }
    }
    CountZero(s.calls, HoldsFrom(id));
  }

  /** The permits of one semaphore after a step. */
  predicate Conserved(s: State, id: nat) {
    id in s.available && id < s.table.next && s.available[id] + Count(s.calls, HoldsFrom(id)) == s.maxPerProvider
  }

  lemma EnterConserves(s: State, c: nat, id: nat)
    requires Inv(s) && Enabled(s, Enter(c)) && id in Apply(s, Enter(c)).available
    ensures Conserved(Apply(s, Enter(c)), id)
  {
    CountUpdate(s.calls, c, Apply(s, Enter(c)).calls[c], HoldsFrom(id));
    if id !in s.available {
      NewSemaphoreUnheld(s, id);
    }
  }

  lemma MoveConserves(s: State, a: Action, id: nat)
    requires Inv(s) && Enabled(s, a) && !a.Arrive? && !a.Sweep? && !a.Enter? && id in Apply(s, a).available
    ensures Conserved(Apply(s, a), id)
  {
    CountUpdate(s.calls, a.c, Apply(s, a).calls[a.c], HoldsFrom(id));
  }

  lemma PermitsStep(s: State, a: Action)
    requires Inv(s) && Enabled(s, a)
    ensures PermitsConserved(Apply(s, a))
  {
    var s' := Apply(s, a);
    forall id | id in s'.available ensures Conserved(s', id) {
      match a
      case Arrive(provider) => CountAppend(s.calls, Call(Key(provider), Called), HoldsFrom(id));
      case Sweep(_) =>
      case Enter(c) => EnterConserves(s, c, id);
      case _ => MoveConserves(s, a, id);
    }
  }

  lemma StepKeepsInv(s: State, a: Action)
    requires Inv(s) && Enabled(s, a)
    ensures Inv(Apply(s, a)) && Apply(s, a).maxPerProvider == s.maxPerProvider
  {
    CoherenceStep(s, a);
    PermitsStep(s, a);
  }

  // ----- Runs --------------------------------------------------------------------

  predicate CanRun(s: State, run: seq<Action>)
    decreases |run|
  {
    run == [] || (Enabled(s, run[0]) && CanRun(Apply(s, run[0]), run[1..]))
  }

  function After(s: State, run: seq<Action>): State
    requires CanRun(s, run)
    decreases |run|
  {
    if run == [] then s else After(Apply(s, run[0]), run[1..])
  }

  lemma {:induction false} RunKeepsInv(s: State, run: seq<Action>)
    requires Inv(s) && CanRun(s, run)
    ensures Inv(After(s, run)) && After(s, run).maxPerProvider == s.maxPerProvider
    decreases |run|
  {
    if run != [] {
      StepKeepsInv(s, run[0]);
      RunKeepsInv(Apply(s, run[0]), run[1..]);
    }
  }

  /** The calls of one provider that hold a permit hold it from the semaphore in the map. */
  lemma HoldersOfKey(s: State, key: string)
    requires Inv(s)
    ensures Count(s.calls, HoldsFor(key))
         == if key in s.table.ids then Count(s.calls, HoldsFrom(s.table.ids[key])) else 0
  {
    forall i | 0 <= i < |s.calls|
      ensures HoldsFor(key)(s.calls[i]) == (key in s.table.ids && HoldsFrom(s.table.ids[key])(s.calls[i]))
    {
      if s.calls[i].phase.Holding? {
        ReferenceInRange(s, i);
      }
    }
    if key in s.table.ids {
      CountAgree(s.calls, HoldsFor(key), s.calls, HoldsFrom(s.table.ids[key]));
    } else {
      CountZero(s.calls, HoldsFor(key));
    }
  }

  /** In every reachable state, sweeps included, no provider has more than its permits outstanding. */
  lemma OutstandingBounded(maxPerProvider: nat, run: seq<Action>, key: string)
    requires CanRun(Init(maxPerProvider), run)
    ensures Count(After(Init(maxPerProvider), run).calls, HoldsFor(key))
         <= if maxPerProvider < 1 then 1 else maxPerProvider
  {
    RunKeepsInv(Init(maxPerProvider), run);
    HoldersOfKey(After(Init(maxPerProvider), run), key);
  }

  /** In every reachable state, all calls that hold or await permits of one provider share one semaphore. */
  lemma OneSemaphorePerProvider(maxPerProvider: nat, run: seq<Action>, i: nat, j: nat)
    requires CanRun(Init(maxPerProvider), run)
    requires var calls := After(Init(maxPerProvider), run).calls;
             i < |calls| && j < |calls| && Reference(calls[i]).Some? && Reference(calls[j]).Some?
    ensures var calls := After(Init(maxPerProvider), run).calls;
            calls[i].key == calls[j].key
            <==> calls[i].phase.semaphore == calls[j].phase.semaphore
  {
    RunKeepsInv(Init(maxPerProvider), run);
    var s := After(Init(maxPerProvider), run);
    assert Held(s.calls)[i] == Reference(s.calls[i]) && Held(s.calls)[j] == Reference(s.calls[j]);
    SameKeySameObject(s.table, Held(s.calls), i, j);
  }

  /**
   Isolation: a waiting call can be granted exactly when its own provider has a permit
   to spare, whatever every other provider is doing.
   */
  lemma GrantedIffOwnBudgetAllows(maxPerProvider: nat, run: seq<Action>, c: nat)
    requires CanRun(Init(maxPerProvider), run)
    requires var calls := After(Init(maxPerProvider), run).calls; c < |calls| && calls[c].phase.Waiting?
    ensures var s := After(Init(maxPerProvider), run);
            Enabled(s, Grant(c)) <==> Count(s.calls, HoldsFor(s.calls[c].key)) < s.maxPerProvider
  {
    RunKeepsInv(Init(maxPerProvider), run);
    var s := After(Init(maxPerProvider), run);
    ReferenceInRange(s, c);
    HoldersOfKey(s, s.calls[c].key);
  }

  /**
   The reference count in the sweep's test is needed: were an entry dropped while a call
   waits on it, the provider's next call would be given a second semaphore.
   */
  lemma WithoutCountingTwoSemaphores(s: State, c: nat, d: nat)
    requires Inv(s) && c < |s.calls| && d < |s.calls|
    requires s.calls[c].phase.Waiting? && s.calls[d].phase.Called? && s.calls[c].key == s.calls[d].key != ""
    ensures var swept := s.(table := Remove(s.table, {s.calls[c].key}));
            var s' := Apply(swept, Enter(d));
            s'.calls[c].phase.Waiting? && s'.calls[d].phase.Waiting?
            && s'.calls[c].phase.semaphore != s'.calls[d].phase.semaphore
  {
    ReferenceInRange(s, c);
  }

  /** A call is for its provider in whatever spelling it comes. */
  lemma ArrivesUnderItsKey(s: State, provider: string)
    ensures Apply(s, Arrive(provider)) == s.(calls := s.calls + [Call(Key(provider), Called)])
  {
  }

  // ----- Progress --------------------------------------------------------------------

  /** How many steps, at most, separate the call from its end. */
  function Rank(phase: Phase): nat {
    match phase
    case Called => 4
    case Waiting(_) => 3
    case Holding(_) => 2
    case Returned(_) => 1
    case Finished => 0
  }

  /** Each step of a call, giving up included, brings that call nearer its end and no other anywhere. */
  lemma CallStepsDecrease(s: State, a: Action)
    requires Enabled(s, a) && !a.Arrive? && !a.Sweep?
    ensures var s' := Apply(s, a);
            && s'.calls == s.calls[a.c := s'.calls[a.c]] && s'.calls[a.c].key == s.calls[a.c].key
            && Rank(s'.calls[a.c].phase) < Rank(s.calls[a.c].phase)
  {
  }

  /** Who gives up ends there, without a permit and without a reference; who has a permit gives it back. */
  lemma CallEnds(s: State, a: Action)
    requires Enabled(s, a) && (a.GiveUp? || a.Return? || a.Release?)
    ensures var s' := Apply(s, a); var id := s.calls[a.c].phase.semaphore;
            && s'.table == s.table
            && s'.available == (if a.Return? then s.available[id := s.available[id] + 1] else s.available)
            && s'.calls[a.c].phase == if a.Return? then Returned(id) else Finished
  {
  }

  /** A sweep removes, of the semaphores it visits, those with every permit home and no reference but the map's. */
  lemma SweepRemovesIdle(s: State, visited: set<string>, key: string)
    requires Inv(s) && key in s.table.ids
    ensures var s' := Apply(s, Sweep(visited)); var id := s.table.ids[key];
            && s' == s.(table := s'.table)
            && (key in s'.table.ids
                <==> key !in visited || s.available[id] < s.maxPerProvider
                     || exists i :: 0 <= i < |s.calls| && RefersTo(s.calls[i], id))
  {
    var id := s.table.ids[key];
    IdleIffUnreferenced(s.table, Held(s.calls), visited, key);
    assert id in s.available && s.available[id] <= s.maxPerProvider;
    assert forall i :: 0 <= i < |s.calls| ==> Held(s.calls)[i] == Reference(s.calls[i]);
  }

  predicate RefersTo(call: Call, id: nat) {
    !call.phase.Called? && !call.phase.Finished? && call.phase.semaphore == id
  }

  // ----- The object ------------------------------------------------------------------

  /** The shared map and the permits at home, with the two operations that change the map. */
  class ProviderConcurrencyBudgets {
    const maxPerProvider: nat
    var permits: Table
    var available: map<nat, nat>

    /** Every semaphore in the map has its permits counted. */
    ghost predicate Valid()
      reads this
    {
      forall k :: k in permits.ids ==> permits.ids[k] in available
    }

    constructor (maxPerProvider: nat)
      ensures Valid()
      ensures this.maxPerProvider == Init(maxPerProvider).maxPerProvider
      ensures permits == Init(maxPerProvider).table && available == Init(maxPerProvider).available
    {
      this.maxPerProvider := if maxPerProvider < 1 then 1 else maxPerProvider;
      permits, available := EMPTY_TABLE, map[];
    }

    /** What `acquire` does before it waits; a blank name gets no semaphore. */
    method Enter(provider: string) returns (semaphore: Option<nat>)
      requires Valid()
      modifies this
      ensures Valid()
      ensures Key(provider) == "" ==> semaphore == None && permits == old(permits) && available == old(available)
      ensures Key(provider) != "" ==>
                semaphore.Some?
                && (permits, available, semaphore.value)
                   == Obtain(old(permits), old(available), maxPerProvider, Key(provider))
    {
      var key := AsciiLowercase(Trim(provider));
      if key == "" {
        return None;
      }
      if key !in permits.ids {
        available := available[permits.next := maxPerProvider];
        permits := Table(permits.ids[key := permits.next], permits.next + 1);
      }
      semaphore := Some(permits.ids[key]);
    }

    /** `held` stands for what `Arc::strong_count` reports. */
    method PruneIdle(held: seq<Option<Handle>>)
      requires Valid()
      modifies this`permits
      ensures Valid()
      ensures permits
                == Remove(old(permits), Idle(old(permits), available, maxPerProvider, held, old(permits).ids.Keys))
    {
      var before := permits;
      var pending := permits.ids.Keys;
      while pending != {}
        invariant pending <= before.ids.Keys
        invariant permits == Remove(before, Idle(before, available, maxPerProvider, held, before.ids.Keys - pending))
        decreases pending
      {
        var key :| key in pending;
        var keep := available[before.ids[key]] != maxPerProvider || StrongCount(held, before.ids[key]) > 1;
        if !keep {
          permits := permits.(ids := permits.ids - {key});
        }
        OneMoreVisited(before, available, maxPerProvider, held, before.ids.Keys - pending, key);
        assert before.ids.Keys - (pending - {key}) == before.ids.Keys - pending + {key};
        pending := pending - {key};
      }
      assert before.ids.Keys - pending == before.ids.Keys;
    }
  }

  lemma OneMoreVisited(table: Table, available: map<nat, nat>, maxPerProvider: nat, held: seq<Option<Handle>>,
                       visited: set<string>, key: string)
    requires key in table.ids && table.ids[key] in available
    ensures Idle(table, available, maxPerProvider, held, visited + {key})
         == Idle(table, available, maxPerProvider, held, visited)
          + if available[table.ids[key]] != maxPerProvider || StrongCount(held, table.ids[key]) > 1 then {} else {key}
  {
  }
}
