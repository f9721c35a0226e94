/**
 Shared objects (mutexes, semaphores) found through a map by key. Callers take a
 handle (an `Arc` clone) with get-or-insert; a background sweep removes the entries
 whose reference count is 1, that is, those only the map refers to.
 */
module KeyLock {
  import opened Options
  import opened Counting

  /** One `Arc` clone held outside the map. */
  datatype Handle = Handle(key: string, id: nat)

  /** The map, and the identity the next object to be created will get. */
  datatype Table = Table(ids: map<string, nat>, next: nat)

  const EMPTY_TABLE := Table(map[], 0)

  function GetOrInsert(t: Table, key: string): (Table, nat)
  {
    if key in t.ids then (t, t.ids[key])
    else (Table(t.ids[key := t.next], t.next + 1), t.next)
  }

  function Refers(id: nat): Option<Handle> -> bool
  {
    (h: Option<Handle>) => h.Some? && h.value.id == id
  }

  /** `Arc::strong_count` of an object that is in the map. */
  function StrongCount(held: seq<Option<Handle>>, id: nat): nat
  {
    1 + Count(held, Refers(id))
  }

  /** The keys a sweep over `visited` removes. */
  function IdleKeys(t: Table, held: seq<Option<Handle>>, visited: set<string>): set<string>
  {
    set k | k in visited && k in t.ids && StrongCount(held, t.ids[k]) == 1
  }

  /** A sweep removes, of what it visits, exactly the entries whose object no handle refers to. */
  lemma IdleIffUnreferenced(t: Table, held: seq<Option<Handle>>, visited: set<string>, key: string)
    ensures key in IdleKeys(t, held, visited)
            <==> key in visited && key in t.ids
                 && forall i :: 0 <= i < |held| && held[i].Some? ==> held[i].value.id != t.ids[key]
  {
    if key in t.ids {
      if i :| 0 <= i < |held| && held[i].Some? && held[i].value.id == t.ids[key] {
        CountPositive(held, i, Refers(t.ids[key]));
      } else {
        CountZero(held, Refers(t.ids[key]));
      }
    }
  }

  function Remove(t: Table, keys: set<string>): Table
  {
    t.(ids := t.ids - keys)
  }

  ghost predicate WellFormed(t: Table)
  {
    && (forall k :: k in t.ids ==> t.ids[k] < t.next)
    && (forall k, l :: k in t.ids && l in t.ids && k != l ==> t.ids[k] != t.ids[l])
  }

  /** Every handle anywhere refers to the very object the map has for its key. */
  ghost predicate Coherent(t: Table, held: seq<Option<Handle>>)
  {
    && WellFormed(t)
    && forall i :: 0 <= i < |held| && held[i].Some? ==>
         held[i].value.key in t.ids && t.ids[held[i].value.key] == held[i].value.id
  }

  lemma GetOrInsertKeepsCoherence(t: Table, held: seq<Option<Handle>>, i: nat, key: string)
    requires Coherent(t, held) && i < |held|
    ensures var (t', id) := GetOrInsert(t, key);
            Coherent(t', held[i := Some(Handle(key, id))])
  {
  }

  /** Counting references is enough: a sweep never removes an object somebody refers to. */
  lemma {:induction false} SweepKeepsCoherence(t: Table, held: seq<Option<Handle>>, visited: set<string>,
                                               removed: set<string>)
    requires Coherent(t, held)
    requires removed <= IdleKeys(t, held, visited)
    ensures Coherent(Remove(t, removed), held)
  {
    var t' := Remove(t, removed);
    forall i | 0 <= i < |held| && held[i].Some?
      ensures held[i].value.key in t'.ids && t'.ids[held[i].value.key] == held[i].value.id
    {
      CountPositive(held, i, Refers(held[i].value.id));
    }
  }

  /** Handles name the same object exactly when they were obtained for the same key. */
  lemma SameKeySameObject(t: Table, held: seq<Option<Handle>>, i: nat, j: nat)
    requires Coherent(t, held) && i < |held| && j < |held| && held[i].Some? && held[j].Some?
    ensures held[i].value.key == held[j].value.key <==> held[i].value.id == held[j].value.id
  {
  }

  // ----- Guards of mutexes -------------------------------------------------------------------

  /** `guards[i]` is the mutex that task `i` holds locked: every locked one has exactly one owner. */
  ghost predicate Exclusive(guards: seq<Option<nat>>, locked: set<nat>)
  {
    && (forall i :: 0 <= i < |guards| && guards[i].Some? ==> guards[i].value in locked)
    && (forall i, j :: 0 <= i < |guards| && 0 <= j < |guards| && guards[i].Some? && guards[i] == guards[j] ==> i == j)
    && forall lock :: lock in locked ==> Some(lock) in guards
  }

  /** A mutex is locked with a guard taken, and unlocked with a guard dropped. */
  ghost predicate GuardMoves(before: Option<nat>, after: Option<nat>, locked: set<nat>, locked': set<nat>)
  {
    if before == after then locked' == locked
    else if before.None? then after.value !in locked && locked' == locked + {after.value}
    else after.None? && locked' == locked - {before.value}
  }

  lemma GuardMoveKeepsExclusive(guards: seq<Option<nat>>, locked: set<nat>, t: nat, after: Option<nat>,
                                locked': set<nat>)
    requires Exclusive(guards, locked) && t < |guards| && GuardMoves(guards[t], after, locked, locked')
    ensures Exclusive(guards[t := after], locked')
  {
    var guards' := guards[t := after];
    forall lock | lock in locked' ensures Some(lock) in guards' {
      if lock in locked {
        var i :| 0 <= i < |guards| && guards[i] == Some(lock);
        assert guards'[i] == Some(lock) || i == t;
        assert guards'[t] == after;
      } else {
        assert guards'[t] == Some(lock);
      }
    }
  }

  lemma OneMoreTask(guards: seq<Option<nat>>, locked: set<nat>)
    requires Exclusive(guards, locked)
    ensures Exclusive(guards + [None], locked)
  {
    forall lock | lock in locked ensures Some(lock) in guards + [None] {
      var i :| 0 <= i < |guards| && guards[i] == Some(lock);
      assert (guards + [None])[i] == Some(lock);
    }
  }

  /** While nobody holds a guard, nothing is locked. */
  lemma NothingLocked(guards: seq<Option<nat>>, locked: set<nat>)
    requires Exclusive(guards, locked) && forall i :: 0 <= i < |guards| ==> guards[i].None?
    ensures locked == {}
  {
    if lock :| lock in locked {
      assert Some(lock) in guards;
    }
  }

  // ----- The map -----------------------------------------------------------------------------

  /** The map itself. `strongCount` stands for what `Arc::strong_count` reports. */
  class LockMap {
    var table: Table

    constructor ()
      ensures table == EMPTY_TABLE
    {
      table := EMPTY_TABLE;
    }

    method KeyLock(key: string) returns (id: nat)
      modifies this
      ensures (table, id) == GetOrInsert(old(table), key)
    {
      if key !in table.ids {
        table := Table(table.ids[key := table.next], table.next + 1);
      }
      id := table.ids[key];
    }

    method PruneIdle(held: seq<Option<Handle>>)
      modifies this
      ensures table == Remove(old(table), IdleKeys(old(table), held, old(table).ids.Keys))
    {
      var before := table;
      var pending := table.ids.Keys;
      while pending != {}
        invariant pending <= before.ids.Keys
        invariant table == Remove(before, IdleKeys(before, held, before.ids.Keys - pending))
        decreases pending
      {
        var key :| key in pending;
        if StrongCount(held, before.ids[key]) == 1 {
          table := table.(ids := table.ids - {key});
        }
        ghost var visited := before.ids.Keys - (pending - {key});
        assert IdleKeys(before, held, visited)
            == IdleKeys(before, held, before.ids.Keys - pending)
             + if StrongCount(held, before.ids[key]) == 1 then {key} else {};
        pending := pending - {key};
      }
      assert before.ids.Keys - pending == before.ids.Keys;
    }
  }
}
