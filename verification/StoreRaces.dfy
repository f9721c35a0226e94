/**
 Stores that overlap. A store inserts its entry, passes over the map shard by shard to
 collect what is there, and then removes the oldest entries it collected, one by one, until
 those it leaves meet the budgets. Other stores, and the removal of expired entries, may
 come between any two of these steps.
 */
module StoreRaces {
  import opened Options
  import opened Eviction

  datatype Phase =
    | Inserted
    | Collecting(seen: Entries, visited: set<Key>)
    | Removing(kept: Entries, left: seq<Key>)   // what it leaves, and what it has still to remove
    | Returned

  /** `maxBytes` is absent for the resolve caches, which have no byte budget. */
  datatype State = State(maxEntries: nat, maxBytes: Option<nat>, entries: Entries, stores: seq<Phase>)

  function Init(maxEntries: nat, maxBytes: Option<nat>): State {
    State(maxEntries, maxBytes, map[], [])
  }

  datatype Action =
    | Insert(key: Key, entry: Entry)
    | Begin(s: nat)                              // of the pass; the trims pass twice, first to count
    | Visit(s: nat, shard: set<Key>)             // its keys, whether stored by now or not
    | Choose(s: nat, order: seq<Key>, n: nat)    // the pass is over: the oldest `n` are to go
    | RemoveNext(s: nat)
    | Return(s: nat)
    | Drop(keys: set<Key>)                       // expired entries, by whoever finds them

  ghost function ByteBudget(s: State, seen: Entries): nat {
    if s.maxBytes.Some? then s.maxBytes.value else TotalBytes(seen)
  }

  ghost predicate Enabled(s: State, a: Action) {
    match a
    case Insert(_, _) => true
    case Begin(i) => i < |s.stores| && (s.stores[i].Inserted? || s.stores[i].Collecting?)
    case Visit(i, _) => i < |s.stores| && s.stores[i].Collecting?
    case Choose(i, order, n) =>
      && i < |s.stores| && s.stores[i].Collecting? && s.entries.Keys <= s.stores[i].visited
      && ShortestPrefix(s.stores[i].seen, order, n, s.maxEntries, ByteBudget(s, s.stores[i].seen))
    case RemoveNext(i) => i < |s.stores| && s.stores[i].Removing? && s.stores[i].left != []
    case Return(i) => i < |s.stores| && s.stores[i].Removing? && s.stores[i].left == []
    case Drop(_) => true
  }

  function Shard(m: Entries, shard: set<Key>): Entries {
    map k | k in m && k in shard :: m[k]
  }

  ghost function Apply(s: State, a: Action): State
    requires Enabled(s, a)
  {
    match a
    case Insert(key, entry) => s.(entries := s.entries[key := entry], stores := s.stores + [Inserted])
    case Begin(i) => s.(stores := s.stores[i := Collecting(map[], {})])
    case Visit(i, shard) =>
      s.(stores := s.stores[i := Collecting(s.stores[i].seen + Shard(s.entries, shard), s.stores[i].visited + shard)])
    case Choose(i, order, n) =>
      s.(stores := s.stores[i := Removing(Without(s.stores[i].seen, order, n), order[..n])])
    case RemoveNext(i) =>
      s.(entries := s.entries - {s.stores[i].left[0]},
         stores := s.stores[i := s.stores[i].(left := s.stores[i].left[1..])])
    case Return(i) => s.(stores := s.stores[i := Returned])
    case Drop(keys) => s.(entries := s.entries - keys)
  }

  // ----- Invariant -----------------------------------------------------------------------

  ghost predicate Meets(m: Entries, maxEntries: nat, maxBytes: Option<nat>) {
    |m| <= maxEntries && (maxBytes.Some? ==> TotalBytes(m) <= maxBytes.value)
  }

  predicate Agrees(m: Entries, k: Key, entry: Entry) {
    k in m && m[k] == entry
  }

  /** What this store knows is enough to bring the map within the budgets. */
  ghost predicate Covers(p: Phase, s: State) {
    match p
    case Inserted => true
    case Collecting(seen, visited) => forall k :: k in s.entries && k in visited ==> Agrees(seen, k, s.entries[k])
    case Removing(kept, left) =>
      Meets(kept, s.maxEntries, s.maxBytes) && forall k :: k in s.entries ==> k in left || Agrees(kept, k, s.entries[k])
    case Returned => false
  }

  ghost predicate SomeoneCovers(s: State) {
    exists i :: 0 <= i < |s.stores| && Covers(s.stores[i], s)
  }

  /** The budgets are met, or some store under way sees to it. */
  ghost predicate Inv(s: State) {
    Meets(s.entries, s.maxEntries, s.maxBytes) || SomeoneCovers(s)
  }

  lemma MeetsMonotone(m: Entries, part: Entries, maxEntries: nat, maxBytes: Option<nat>)
    requires Meets(m, maxEntries, maxBytes) && forall k :: k in part ==> Agrees(m, k, part[k])
    ensures Meets(part, maxEntries, maxBytes)
  {
    var gone := m.Keys - part.Keys;
    WithinMonotone(m, gone, maxEntries, if maxBytes.Some? then maxBytes.value else TotalBytes(m));
    assert m - gone == part;
  }

  /** Removing entries leaves a store as able as before. */
  lemma CoversFewer(p: Phase, s: State, s': State)
    requires Covers(p, s) && s'.maxEntries == s.maxEntries && s'.maxBytes == s.maxBytes
    requires forall k :: k in s'.entries ==> Agrees(s.entries, k, s'.entries[k])
    ensures Covers(p, s')
  {
  }

  lemma SomeoneStillCovers(s: State, s': State, i: nat)
    requires i < |s.stores| && |s.stores| <= |s'.stores| && s'.stores[i] == s.stores[i] && Covers(s.stores[i], s)
    requires s'.maxEntries == s.maxEntries && s'.maxBytes == s.maxBytes
    requires forall k :: k in s'.entries ==> Agrees(s.entries, k, s'.entries[k])
    ensures SomeoneCovers(s')
  {
    CoversFewer(s.stores[i], s, s');
    assert Covers(s'.stores[i], s');
  }

  lemma VisitCovers(s: State, i: nat, shard: set<Key>)
    requires i < |s.stores| && s.stores[i].Collecting? && Covers(s.stores[i], s)
    ensures Covers(Collecting(s.stores[i].seen + Shard(s.entries, shard), s.stores[i].visited + shard), s)
  {
  }

  lemma ChooseCovers(s: State, i: nat, order: seq<Key>, n: nat)
    requires Enabled(s, Choose(i, order, n)) && Covers(s.stores[i], s)
    ensures Covers(Removing(Without(s.stores[i].seen, order, n), order[..n]), s)
  {
    var seen := s.stores[i].seen;
    WithoutContents(seen, order, n);
    WithoutSize(seen, order, n);
    forall k | k in s.entries && k !in order[..n] ensures Agrees(Without(seen, order, n), k, s.entries[k]) {
      assert Agrees(seen, k, s.entries[k]);
    }
  }

  lemma RemoveCovers(s: State, i: nat)
    requires Enabled(s, RemoveNext(i)) && Covers(s.stores[i], s)
    ensures var s' := Apply(s, RemoveNext(i)); Covers(s'.stores[i], s')
  {
    var left := s.stores[i].left;
    assert left == [left[0]] + left[1..];
  }

  /** The acting store covers after its step if it did before, or else has met the budgets. */
  lemma OwnStepCovers(s: State, a: Action)
    requires Enabled(s, a) && !a.Insert? && !a.Drop? && Covers(s.stores[a.s], s)
    ensures Inv(Apply(s, a))
  {
    var s' := Apply(s, a);
    match a
    case Begin(i) => assert Covers(s'.stores[i], s');
    case Visit(i, shard) =>
      VisitCovers(s, i, shard);
      assert Covers(s'.stores[i], s');
    case Choose(i, order, n) =>
      ChooseCovers(s, i, order, n);
      assert Covers(s'.stores[i], s');
    case RemoveNext(i) => RemoveCovers(s, i);
    case Return(i) => MeetsMonotone(s.stores[i].kept, s.entries, s.maxEntries, s.maxBytes);
  }

  /** No step but an insertion adds to the map. */
  lemma OnlyInsertAdds(s: State, a: Action)
    requires Enabled(s, a) && !a.Insert?
    ensures var s' := Apply(s, a);
            && (forall k :: k in s'.entries ==> Agrees(s.entries, k, s'.entries[k]))
            && s'.maxEntries == s.maxEntries && s'.maxBytes == s.maxBytes && |s'.stores| == |s.stores|
            && forall i :: 0 <= i < |s.stores| && (a.Drop? || i != a.s) ==> s'.stores[i] == s.stores[i]
  {
  }

  lemma StepKeepsInv(s: State, a: Action)
    requires Inv(s) && Enabled(s, a)
    ensures Inv(Apply(s, a))
  {
    var s' := Apply(s, a);
    if a.Insert? {
      assert Covers(s'.stores[|s.stores|], s');
    } else {
      OnlyInsertAdds(s, a);
      if Meets(s.entries, s.maxEntries, s.maxBytes) {
        MeetsMonotone(s.entries, s'.entries, s.maxEntries, s.maxBytes);
      } else {
        var i :| 0 <= i < |s.stores| && Covers(s.stores[i], s);
        if !a.Drop? && a.s == i {
          OwnStepCovers(s, a);
        } else {
          SomeoneStillCovers(s, s', i);
        }
      }
    }
  }

  // ----- Runs ------------------------------------------------------------------------------

  ghost predicate CanRun(s: State, run: seq<Action>)
    decreases |run|
  {
    run == [] || (Enabled(s, run[0]) && CanRun(Apply(s, run[0]), run[1..]))
  }

  ghost function After(s: State, run: seq<Action>): State
    requires CanRun(s, run)
    decreases |run|
  {
    if run == [] then s else After(Apply(s, run[0]), run[1..])
  }

  lemma {:induction false} RunKeepsInv(s: State, run: seq<Action>)
    requires Inv(s) && CanRun(s, run)
    ensures Inv(After(s, run)) && After(s, run).maxEntries == s.maxEntries && After(s, run).maxBytes == s.maxBytes
    decreases |run|
  {
    if run != [] {
      StepKeepsInv(s, run[0]);
      RunKeepsInv(Apply(s, run[0]), run[1..]);
    }
  }

  /** However the stores overlap, both budgets hold whenever none is under way. */
  lemma BudgetsHoldAtRest(maxEntries: nat, maxBytes: Option<nat>, run: seq<Action>)
    requires CanRun(Init(maxEntries, maxBytes), run)
    requires var stores := After(Init(maxEntries, maxBytes), run).stores;
             forall i :: 0 <= i < |stores| ==> stores[i].Returned?
    ensures Meets(After(Init(maxEntries, maxBytes), run).entries, maxEntries, maxBytes)
  {
    RunKeepsInv(Init(maxEntries, maxBytes), run);
  }

  // ----- What overlapping stores lose --------------------------------------------------------

  /** With one place: the second store is to remove `a`, which is stored again before it does. */
  ghost function Raced(a: Key, b: Key, entry: Entry): seq<Action> {
    [Insert(a, entry), Insert(b, entry), Begin(1), Visit(1, {a, b}), Choose(1, [a, b], 1),
     Insert(a, entry.(storedAt := entry.storedAt + 1)), RemoveNext(1)]
  }

  lemma OldestOfTwo(a: Key, b: Key, entry: Entry, seen: Entries)
    requires a != b && seen == map[a := entry, b := entry]
    ensures ShortestPrefix(seen, [a, b], 1, 1, TotalBytes(seen))
  {
    var order := [a, b];
    assert AgeOrder(seen, order);
    BytesFromSuffix(seen, order, 0, 1);
    WithoutSize(seen, order, 0);
    OneFits(seen, order, TotalBytes(seen));
  }

  lemma OneFits(seen: Entries, order: seq<Key>, total: nat)
    requires AgeOrder(seen, order) && |order| == 2 && BytesFrom(seen, order, 1) <= BytesFrom(seen, order, 0) == total
    ensures ShortestPrefix(seen, order, 1, 1, total)
  {
    assert !Fits(seen, order, 0, 1, total);
  }

  lemma ChosenOldest(a: Key, b: Key, entry: Entry)
    requires a != b
    ensures var s := State(1, None, map[a := entry, b := entry],
                           [Inserted, Collecting(map[a := entry, b := entry], {a, b})]);
            && Enabled(s, Choose(1, [a, b], 1))
            && Apply(s, Choose(1, [a, b], 1)).entries == s.entries
            && Apply(s, Choose(1, [a, b], 1)).stores == [Inserted, Removing(map[b := entry], [a])]
  {
    var seen := map[a := entry, b := entry];
    OldestOfTwo(a, b, entry, seen);
    assert [a, b][..1] == [a];
    assert Without(seen, [a, b], 1) == seen - {a} == map[b := entry];
  }

  /** So the entry stored last, strictly the newest and within the budget, can be the one that goes. */
  lemma NewestMayGo(a: Key, b: Key, entry: Entry)
    requires a != b
    ensures CanRun(Init(1, None), Raced(a, b, entry))
    ensures After(Init(1, None), Raced(a, b, entry)).entries == map[b := entry]
  {
    var last3 := [Choose(1, [a, b], 1), Insert(a, entry.(storedAt := entry.storedAt + 1)), RemoveNext(1)];
    RacedEnd(a, b, entry);
    RacedStart(a, b, entry, last3);
    assert Raced(a, b, entry)
        == [Insert(a, entry)] + ([Insert(b, entry)] + ([Begin(1)] + ([Visit(1, {a, b})] + last3)));
  }

  /** Up to the choice. */
  lemma RacedStart(a: Key, b: Key, entry: Entry, rest: seq<Action>)
    requires a != b
    requires var both := map[a := entry, b := entry];
             CanRun(State(1, None, both, [Inserted, Collecting(both, {a, b})]), rest)
    ensures var both := map[a := entry, b := entry];
            var run := [Insert(a, entry)] + ([Insert(b, entry)] + ([Begin(1)] + ([Visit(1, {a, b})] + rest)));
            && CanRun(Init(1, None), run)
            && After(Init(1, None), run) == After(State(1, None, both, [Inserted, Collecting(both, {a, b})]), rest)
  {
    var both := map[a := entry, b := entry];
    var s2 := State(1, None, both, [Inserted, Inserted]);
    var s3 := State(1, None, both, [Inserted, Collecting(map[], {})]);
    VisitedBoth(both, {a, b});
    Prepend(s3, Visit(1, {a, b}), State(1, None, both, [Inserted, Collecting(both, {a, b})]), rest);
    Prepend(s2, Begin(1), s3, [Visit(1, {a, b})] + rest);
    TwoInserted(a, b, entry, [Begin(1)] + ([Visit(1, {a, b})] + rest));
  }

  lemma TwoInserted(a: Key, b: Key, entry: Entry, rest: seq<Action>)
    requires a != b && CanRun(State(1, None, map[a := entry, b := entry], [Inserted, Inserted]), rest)
    ensures var s2 := State(1, None, map[a := entry, b := entry], [Inserted, Inserted]);
            && CanRun(Init(1, None), [Insert(a, entry)] + ([Insert(b, entry)] + rest))
            && After(Init(1, None), [Insert(a, entry)] + ([Insert(b, entry)] + rest)) == After(s2, rest)
  {
    var s1 := State(1, None, map[a := entry], [Inserted]);
    var s2 := State(1, None, map[a := entry, b := entry], [Inserted, Inserted]);
    Prepend(s1, Insert(b, entry), s2, rest);
    Prepend(Init(1, None), Insert(a, entry), s1, [Insert(b, entry)] + rest);
  }

  /** From the choice on. */
  lemma RacedEnd(a: Key, b: Key, entry: Entry)
    requires a != b
    ensures var both := map[a := entry, b := entry];
            var s := State(1, None, both, [Inserted, Collecting(both, {a, b})]);
            var run := [Choose(1, [a, b], 1), Insert(a, entry.(storedAt := entry.storedAt + 1)), RemoveNext(1)];
            CanRun(s, run) && After(s, run).entries == map[b := entry]
  {
    var newer, both := entry.(storedAt := entry.storedAt + 1), map[a := entry, b := entry];
    var s4 := State(1, None, both, [Inserted, Collecting(both, {a, b})]);
    var s5 := State(1, None, both, [Inserted, Removing(map[b := entry], [a])]);
    var s6 := State(1, None, both[a := newer], [Inserted, Removing(map[b := entry], [a]), Inserted]);
    ChosenOldest(a, b, entry);
    var s7 := Apply(s6, RemoveNext(1));
    assert s7.entries == map[b := entry];
    Prepend(s6, RemoveNext(1), s7, []);
    assert [RemoveNext(1)] + [] == [RemoveNext(1)];
    Prepend(s5, Insert(a, newer), s6, [RemoveNext(1)]);
    Prepend(s4, Choose(1, [a, b], 1), s5, [Insert(a, newer)] + [RemoveNext(1)]);
    assert [Choose(1, [a, b], 1)] + ([Insert(a, newer)] + [RemoveNext(1)])
        == [Choose(1, [a, b], 1), Insert(a, newer), RemoveNext(1)];
  }

  lemma VisitedBoth(m: Entries, shard: set<Key>)
    requires m.Keys == shard
    ensures map[] + Shard(m, shard) == m && {} + shard == shard
  {
  }

  lemma Prepend(s: State, a: Action, next: State, run: seq<Action>)
    requires Enabled(s, a) && Apply(s, a) == next && CanRun(next, run)
    ensures CanRun(s, [a] + run) && After(s, [a] + run) == After(next, run)
  {
    assert ([a] + run)[1..] == run;
  }
}
