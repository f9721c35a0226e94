/**
 The bounded in-memory caches: expired entries go first, then the oldest ones until
 both the entry budget and the byte budget hold. Clock readings are parameters.
 */
module Eviction {
  import opened Options

  /** A cache key, compared as a whole. */
  datatype Key = Key(text: string)

  /** `tag` is the content type of a segment, or the Cache-Control of a playlist. */
  datatype Entry = Entry(tag: string, body: string, storedAt: int, ttl: int)

  type Entries = map<Key, Entry>

  predicate Expired(e: Entry, now: int) {
    now - e.storedAt > e.ttl
  }

  function Live(m: Entries, now: int): Entries {
    map k | k in m && !Expired(m[k], now) :: m[k]
  }

  ghost function TotalBytes(m: Entries): nat {
    if m == map[] then 0
    else
      var k :| k in m;
      |m[k].body| + TotalBytes(m - {k})
  }

  ghost predicate Within(m: Entries, maxEntries: nat, maxBytes: nat) {
    |m| <= maxEntries && TotalBytes(m) <= maxBytes
  }

  /** `order` lists every key of `m` once, the oldest entry first. */
  ghost predicate AgeOrder(m: Entries, order: seq<Key>) {
    && (forall k :: k in m ==> k in order)
    && (forall i :: 0 <= i < |order| ==> order[i] in m)
    && (forall i, j :: 0 <= i < j < |order| ==> order[i] != order[j])
    && (forall i, j :: 0 <= i < j < |order| ==> m[order[i]].storedAt <= m[order[j]].storedAt)
  }

  /** What is left of `m` without the first `n` keys of `order`. */
  function Without(m: Entries, order: seq<Key>, n: nat): Entries
    requires n <= |order|
  {
    if n == 0 then m else Without(m, order, n - 1) - {order[n - 1]}
  }

  function BytesFrom(m: Entries, order: seq<Key>, n: nat): nat
    requires n <= |order| && forall i :: 0 <= i < |order| ==> order[i] in m
    decreases |order| - n
  {
    if n == |order| then 0 else |m[order[n]].body| + BytesFrom(m, order, n + 1)
  }

  predicate Fits(m: Entries, order: seq<Key>, n: nat, maxEntries: nat, maxBytes: nat)
    requires n <= |order| && forall i :: 0 <= i < |order| ==> order[i] in m
  {
    |order| - n <= maxEntries && BytesFrom(m, order, n) <= maxBytes
  }

  /** Removing the first `n` of `order` meets both budgets, and removing fewer does not. */
  ghost predicate ShortestPrefix(live: Entries, order: seq<Key>, n: nat, maxEntries: nat, maxBytes: nat) {
    && AgeOrder(live, order) && n <= |order|
    && Fits(live, order, n, maxEntries, maxBytes)
    && (forall i :: 0 <= i < n ==> !Fits(live, order, i, maxEntries, maxBytes))
  }

  /** The survivors are the age-ordered entries minus the shortest oldest prefix that meets the budgets. */
  ghost predicate Evicted(live: Entries, kept: Entries, maxEntries: nat, maxBytes: nat) {
    exists order, n: nat :: ShortestPrefix(live, order, n, maxEntries, maxBytes) && kept == Without(live, order, n)
  }

  lemma {:induction false} TotalBytesRemove(m: Entries, k: Key)
    requires k in m
    ensures TotalBytes(m) == |m[k].body| + TotalBytes(m - {k})
    decreases m
  {
    var l :| l in m && TotalBytes(m) == |m[l].body| + TotalBytes(m - {l});
    if l != k {
      TotalBytesRemove(m - {l}, k);
      TotalBytesRemove(m - {k}, l);
      assert m - {l} - {k} == m - {k} - {l};
    }
  }

  lemma OneEntryLess(m: Entries, k: Key)
    requires k in m
    ensures |m - {k}| == |m| - 1 && TotalBytes(m) == |m[k].body| + TotalBytes(m - {k})
  {
    assert (m - {k}).Keys == m.Keys - {k};
    TotalBytesRemove(m, k);
  }

  lemma RemoveInTwo(m: Entries, removed: set<Key>, k: Key)
    requires k in removed
    ensures m - {k} - (removed - {k}) == m - removed
  {
  }

  lemma RemoveNone(m: Entries, removed: set<Key>)
    requires removed == {}
    ensures m - removed == m
  {
  }

  /** A part of what is within the budgets is within them. */
  lemma {:induction false} WithinMonotone(m: Entries, removed: set<Key>, maxEntries: nat, maxBytes: nat)
    requires Within(m, maxEntries, maxBytes)
    ensures Within(m - removed, maxEntries, maxBytes)
    decreases removed
  {
    if k :| k in removed {
      if k in m {
        OneEntryLess(m, k);
      } else {
        assert m - {k} == m;
      }
      WithinMonotone(m - {k}, removed - {k}, maxEntries, maxBytes);
      RemoveInTwo(m, removed, k);
    } else {
      RemoveNone(m, removed);
    }
  }

  lemma {:induction false} WithoutContents(m: Entries, order: seq<Key>, n: nat)
    requires n <= |order|
    ensures forall k :: k in Without(m, order, n) <==> k in m && k !in order[..n]
    ensures forall k :: k in Without(m, order, n) ==> Without(m, order, n)[k] == m[k]
  {
    if n > 0 {
      WithoutContents(m, order, n - 1);
      assert order[..n] == order[..n - 1] + [order[n - 1]];
    }
  }

  lemma StillThere(m: Entries, order: seq<Key>, n: nat)
    requires n < |order| && order[n] in m
    requires forall i, j :: 0 <= i < j < |order| ==> order[i] != order[j]
    ensures order[n] in Without(m, order, n) && Without(m, order, n)[order[n]] == m[order[n]]
  {
    WithoutContents(m, order, n);
    assert order[n] !in order[..n];
  }

  lemma WithoutAll(m: Entries, order: seq<Key>)
    requires AgeOrder(m, order)
    ensures Without(m, order, |order|) == map[]
  {
    WithoutContents(m, order, |order|);
    assert order[..|order|] == order;
  }

  /** The entry count and the byte total of what remains, read off the order. */
  lemma WithoutSize(m: Entries, order: seq<Key>, n: nat)
    requires AgeOrder(m, order) && n <= |order|
    ensures |Without(m, order, n)| == |order| - n
    ensures TotalBytes(Without(m, order, n)) == BytesFrom(m, order, n)
  {
    WithoutAll(m, order);
    forall i: nat | i < |order| ensures IsThere(m, order, i) {
      StillThere(m, order, i);
    }
    WithoutSizeFrom(m, order, n);
  }

  predicate IsThere(m: Entries, order: seq<Key>, n: nat)
    requires n < |order|
  {
    order[n] in m && order[n] in Without(m, order, n) && Without(m, order, n)[order[n]] == m[order[n]]
  }

  lemma {:induction false} WithoutSizeFrom(m: Entries, order: seq<Key>, n: nat)
    requires n <= |order| && Without(m, order, |order|) == map[] && forall i :: 0 <= i < |order| ==> order[i] in m
    requires forall i: nat :: i < |order| ==> IsThere(m, order, i)
    ensures |Without(m, order, n)| == |order| - n
    ensures TotalBytes(Without(m, order, n)) == BytesFrom(m, order, n)
    decreases |order| - n
  {
    if n < |order| {
      assert IsThere(m, order, n);
      WithoutSizeFrom(m, order, n + 1);
      assert Without(m, order, n + 1) == Without(m, order, n) - {order[n]};
      OneEntryLess(Without(m, order, n), order[n]);
    }
  }

  ghost predicate DistinctAges(m: Entries) {
    forall k, l :: k in m && l in m && m[k].storedAt == m[l].storedAt ==> k == l
  }

  lemma {:induction false} AgeOrderUnique(m: Entries, o1: seq<Key>, o2: seq<Key>, n: nat)
    requires AgeOrder(m, o1) && AgeOrder(m, o2) && DistinctAges(m) && n <= |o1| && n <= |o2|
    ensures o1[..n] == o2[..n]
  {
    if n > 0 {
      AgeOrderUnique(m, o1, o2, n - 1);
      assert o1[n - 1] == o2[n - 1] by {
        NoOlder(m, o1, o2, n - 1);
        NoOlder(m, o2, o1, n - 1);
      }
      TakeOneMore(o1, n);
      TakeOneMore(o2, n);
    }
  }

  lemma TakeOneMore(order: seq<Key>, n: nat)
    requires 0 < n <= |order|
    ensures order[..n] == order[..n - 1] + [order[n - 1]]
  {
  }

  lemma NoOlder(m: Entries, o1: seq<Key>, o2: seq<Key>, n: nat)
    requires AgeOrder(m, o1) && AgeOrder(m, o2) && n < |o1| && n < |o2| && o1[..n] == o2[..n]
    ensures m[o2[n]].storedAt <= m[o1[n]].storedAt
  {
    var i :| 0 <= i < |o2| && o2[i] == o1[n];
    forall h | 0 <= h < n ensures o1[h] == o2[h] {
      SamePrefixAt(o1, o2, n, h);
    }
  }

  lemma SamePrefixAt(o1: seq<Key>, o2: seq<Key>, n: nat, h: nat)
    requires h < n <= |o1| && n <= |o2| && o1[..n] == o2[..n]
    ensures o1[h] == o2[h]
  {
    assert o1[..n][h] == o2[..n][h];
  }

  lemma ShortestPrefixUnique(live: Entries, o1: seq<Key>, n1: nat, o2: seq<Key>, n2: nat, maxEntries: nat,
                             maxBytes: nat)
    requires ShortestPrefix(live, o1, n1, maxEntries, maxBytes) && ShortestPrefix(live, o2, n2, maxEntries, maxBytes)
    requires DistinctAges(live) && n1 <= n2
    ensures Without(live, o1, n1) == Without(live, o2, n2)
  {
    WithoutSize(live, o1, 0);
    WithoutSize(live, o2, 0);
    assert |o1| == |o2|;
    AgeOrderUnique(live, o1, o2, |o1|);
    assert o1[..|o1|] == o1 && o2[..|o2|] == o2;
  }

  /** With distinct ages the survivors are determined by the entries and the budgets alone. */
  lemma EvictionIsDetermined(live: Entries, k1: Entries, k2: Entries, maxEntries: nat, maxBytes: nat)
    requires Evicted(live, k1, maxEntries, maxBytes) && Evicted(live, k2, maxEntries, maxBytes)
    requires DistinctAges(live)
    ensures k1 == k2
  {
    var o1, n1: nat :| ShortestPrefix(live, o1, n1, maxEntries, maxBytes) && k1 == Without(live, o1, n1);
    var o2, n2: nat :| ShortestPrefix(live, o2, n2, maxEntries, maxBytes) && k2 == Without(live, o2, n2);
    if n1 <= n2 {
      ShortestPrefixUnique(live, o1, n1, o2, n2, maxEntries, maxBytes);
    } else {
      ShortestPrefixUnique(live, o2, n2, o1, n1, maxEntries, maxBytes);
    }
  }

  /** Nothing expired remains, both budgets hold, and whatever remains is as it was stored. */
  lemma EvictionMeetsBudgets(entries: Entries, now: int, kept: Entries, maxEntries: nat, maxBytes: nat)
    requires Evicted(Live(entries, now), kept, maxEntries, maxBytes)
    ensures Within(kept, maxEntries, maxBytes)
    ensures forall k :: k in kept ==> k in entries && kept[k] == entries[k] && !Expired(kept[k], now)
  {
    var live := Live(entries, now);
    var order, n: nat :| ShortestPrefix(live, order, n, maxEntries, maxBytes) && kept == Without(live, order, n);
    WithoutContents(live, order, n);
    WithoutSize(live, order, n);
  }

  lemma KeptAreNewer(live: Entries, order: seq<Key>, n: nat, k: Key, l: Key)
    requires AgeOrder(live, order) && n <= |order| && k in order[..n] && l in live && l !in order[..n]
    ensures live[k].storedAt <= live[l].storedAt
  {
    var i :| 0 <= i < n && order[..n][i] == k;
    var j :| 0 <= j < |order| && order[j] == l;
    assert order[i] == k;
    InPrefix(order, n, j);
  }

  /** Every survivor is at least as new as every unexpired entry that was removed. */
  lemma SurvivorsAreNewer(live: Entries, kept: Entries, maxEntries: nat, maxBytes: nat, k: Key, l: Key)
    requires Evicted(live, kept, maxEntries, maxBytes)
    requires k in live && k !in kept && l in kept
    ensures l in live && live[k].storedAt <= live[l].storedAt
  {
    var order, n: nat :| ShortestPrefix(live, order, n, maxEntries, maxBytes) && kept == Without(live, order, n);
    WithoutContents(live, order, n);
    KeptAreNewer(live, order, n, k, l);
  }

  /** Without pressure nothing unexpired is removed. */
  lemma NoEvictionWithinBudgets(live: Entries, kept: Entries, maxEntries: nat, maxBytes: nat)
    requires Evicted(live, kept, maxEntries, maxBytes) && Within(live, maxEntries, maxBytes)
    ensures kept == live
  {
    var order, n: nat :| ShortestPrefix(live, order, n, maxEntries, maxBytes) && kept == Without(live, order, n);
    WithoutSize(live, order, 0);
    assert Fits(live, order, 0, maxEntries, maxBytes);
  }

  lemma NewestIsLast(m: Entries, order: seq<Key>, k: Key)
    requires AgeOrder(m, order) && k in m
    requires forall l :: l in m && l != k ==> m[l].storedAt < m[k].storedAt
    ensures |order| > 0 && order[|order| - 1] == k
  {
    var last := |order| - 1;
    assert m[order[last]].storedAt >= m[k].storedAt;
  }

  lemma NewestFits(live: Entries, order: seq<Key>, n: nat, maxEntries: nat, maxBytes: nat, last: nat)
    requires ShortestPrefix(live, order, n, maxEntries, maxBytes) && |order| == last + 1
    ensures n <= last <==> |live[order[last]].body| <= maxBytes && maxEntries >= 1
  {
    assert BytesFrom(live, order, last) == |live[order[last]].body|;
    if n <= last {
      BytesFromSuffix(live, order, n, last);
    } else {
      assert !Fits(live, order, last, maxEntries, maxBytes);
    }
  }

  lemma InTake(order: seq<Key>, n: nat, j: nat)
    requires j < n <= |order|
    ensures order[j] in order[..n]
  {
    assert order[..n][j] == order[j];
  }

  lemma InPrefix(order: seq<Key>, n: nat, j: nat)
    requires n <= |order| && j < |order| && forall h, i :: 0 <= h < i < |order| ==> order[h] != order[i]
    ensures order[j] in order[..n] <==> j < n
  {
    if j < n {
      InTake(order, n, j);
    }
  }

  /** A strictly newest entry survives exactly when the budgets have room for it alone. */
  lemma NewestSurvives(live: Entries, kept: Entries, maxEntries: nat, maxBytes: nat, k: Key)
    requires Evicted(live, kept, maxEntries, maxBytes)
    requires k in live && forall l :: l in live && l != k ==> live[l].storedAt < live[k].storedAt
    ensures k in kept <==> |live[k].body| <= maxBytes && maxEntries >= 1
  {
    var order, n: nat :| ShortestPrefix(live, order, n, maxEntries, maxBytes) && kept == Without(live, order, n);
    NewestIsLast(live, order, k);
    NewestFits(live, order, n, maxEntries, maxBytes, |order| - 1);
    LastIsLeft(live, order, n, k);
  }

  lemma LastIsLeft(live: Entries, order: seq<Key>, n: nat, k: Key)
    requires AgeOrder(live, order) && n <= |order| && order != [] && order[|order| - 1] == k
    ensures k in Without(live, order, n) <==> n < |order|
  {
    WithoutContents(live, order, n);
    InPrefix(order, n, |order| - 1);
  }

  lemma {:induction false} BytesFromSuffix(m: Entries, order: seq<Key>, i: nat, j: nat)
    requires i <= j <= |order| && forall h :: 0 <= h < |order| ==> order[h] in m
    ensures BytesFrom(m, order, j) <= BytesFrom(m, order, i)
    decreases j - i
  {
    if i < j {
      BytesFromSuffix(m, order, i + 1, j);
    }
  }

  // ----- The algorithm -----------------------------------------------------------

  lemma PutBack(m: Entries, rest: set<Key>, k: Key)
    requires k in rest && k in m
    ensures (m - rest)[k := m[k]] == m - (rest - {k})
  {
  }

  /** The keys of `m`, oldest first; equally old ones in no particular order. */
  method SortByAge(m: Entries) returns (order: seq<Key>)
    ensures AgeOrder(m, order)
  {
    order := [];
    var rest := m.Keys;
    while rest != {}
      invariant rest <= m.Keys && AgeOrder(m - rest, order)
      decreases rest
    {
      var k :| k in rest;
      var sorted := m - rest;
      var i: nat := |order|;
      while i > 0 && sorted[order[i - 1]].storedAt > m[k].storedAt
        invariant i <= |order|
        invariant forall j :: i <= j < |order| ==> sorted[order[j]].storedAt > m[k].storedAt
      {
        i := i - 1;
      }
      InsertKeepsAgeOrder(sorted, order, k, m[k], i);
      order := order[..i] + [k] + order[i..];
      PutBack(m, rest, k);
      rest := rest - {k};
    }
    RemoveNone(m, rest);
  }

  lemma InsertKeepsAgeOrder(m: Entries, order: seq<Key>, k: Key, e: Entry, i: nat)
    requires AgeOrder(m, order) && k !in m && i <= |order|
    requires i > 0 ==> m[order[i - 1]].storedAt <= e.storedAt
    requires forall j :: i <= j < |order| ==> m[order[j]].storedAt > e.storedAt
    ensures AgeOrder(m[k := e], order[..i] + [k] + order[i..])
  {
    PlacedKeepsAgeOrder(m, order, k, e, i, order[..i] + [k] + order[i..]);
  }

  /** `placed` is `order` with `k` put in at `i`. */
  predicate IsPlaced(order: seq<Key>, k: Key, i: nat, placed: seq<Key>) {
    && i <= |order| && |placed| == |order| + 1 && placed[i] == k
    && forall j {:trigger placed[j]} :: 0 <= j < |placed| && j != i ==> placed[j] == order[if j < i then j else j - 1]
  }

  lemma PlacedMembers(order: seq<Key>, k: Key, i: nat, placed: seq<Key>, l: Key)
    requires IsPlaced(order, k, i, placed) && (l == k || l in order)
    ensures l in placed
  {
    if l != k {
      var j :| 0 <= j < |order| && order[j] == l;
      assert placed[if j < i then j else j + 1] == l;
    }
  }

  lemma PlacedPair(m: Entries, order: seq<Key>, k: Key, e: Entry, i: nat, placed: seq<Key>, a: nat, b: nat)
    requires AgeOrder(m, order) && k !in m && IsPlaced(order, k, i, placed) && a < b < |placed|
    requires i > 0 ==> m[order[i - 1]].storedAt <= e.storedAt
    requires forall j :: i <= j < |order| ==> m[order[j]].storedAt > e.storedAt
    ensures placed[a] != placed[b] && placed[a] in m[k := e] && placed[b] in m[k := e]
    ensures m[k := e][placed[a]].storedAt <= m[k := e][placed[b]].storedAt
  {
    if i > 0 && a < i {
      assert m[order[a]].storedAt <= m[order[i - 1]].storedAt;
    }
  }

  lemma PlacedKeepsAgeOrder(m: Entries, order: seq<Key>, k: Key, e: Entry, i: nat, placed: seq<Key>)
    requires AgeOrder(m, order) && k !in m && IsPlaced(order, k, i, placed)
    requires i > 0 ==> m[order[i - 1]].storedAt <= e.storedAt
    requires forall j :: i <= j < |order| ==> m[order[j]].storedAt > e.storedAt
    ensures AgeOrder(m[k := e], placed)
  {
    forall l | l in m[k := e] ensures l in placed {
      PlacedMembers(order, k, i, placed, l);
    }
    forall a: nat, b: nat | a < b < |placed|
      ensures placed[a] != placed[b] && placed[a] in m[k := e] && placed[b] in m[k := e]
              && m[k := e][placed[a]].storedAt <= m[k := e][placed[b]].storedAt
    {
      PlacedPair(m, order, k, e, i, placed, a, b);
    }
  }

  /** The summed length of the entries. */
  method SumBytes(live: Entries, order: seq<Key>) returns (total: nat)
    requires forall i :: 0 <= i < |order| ==> order[i] in live
    ensures total == BytesFrom(live, order, 0)
  {
    total := 0;
    var n: nat := |order|;
    while n > 0
      invariant n <= |order| && total == BytesFrom(live, order, n)
    {
      n := n - 1;
      total := total + |live[order[n]].body|;
    }
  }

  method EvictExpiredThenOldest(entries: Entries, maxEntries: nat, maxBytes: nat, now: int) returns (kept: Entries)
    ensures Evicted(Live(entries, now), kept, maxEntries, maxBytes)
  {
    var live := Live(entries, now);
    var order := SortByAge(live);
    kept := live;
    var total: int := SumBytes(live, order);
    var i: nat := 0;
    while i < |order| && !(|order| - i <= maxEntries && total <= maxBytes)
      invariant i <= |order|
      invariant kept == Without(live, order, i) && total == BytesFrom(live, order, i)
      invariant forall j :: 0 <= j < i ==> !Fits(live, order, j, maxEntries, maxBytes)
    {
      kept := kept - {order[i]};
      total := total - |live[order[i]].body|;
      i := i + 1;
    }
    assert ShortestPrefix(live, order, i, maxEntries, maxBytes);
  }

  lemma LiveWithin(m: Entries, now: int, maxEntries: nat, maxBytes: nat)
    requires Within(m, maxEntries, maxBytes)
    ensures Within(Live(m, now), maxEntries, maxBytes)
  {
    var gone := m.Keys - Live(m, now).Keys;
    WithinMonotone(m, gone, maxEntries, maxBytes);
    assert Live(m, now) == m - gone;
  }

  // ----- The caches --------------------------------------------------------------

  const SEGMENT_TTL_MS := 25_000
  const PLAYLIST_MAX_ENTRIES := 64
  const PLAYLIST_MAX_TOTAL_BYTES := 48 * 1024 * 1024

  /** Finished live segments; a body that is empty or beyond the whole budget is not taken. */
  class LiveSegmentOutputCache {
    const maxEntries: nat
    const maxTotalBytes: nat
    var entries: Entries
    /** The value last taken for each key, kept forever. */
    ghost var lastStored: Entries

    ghost predicate Valid()
      reads this
    {
      && (forall k :: k in entries ==> k in lastStored && entries[k] == lastStored[k])
      && Within(entries, maxEntries, maxTotalBytes)
    }

    constructor (maxEntries: nat, maxTotalBytes: nat)
      ensures Valid() && entries == map[] && lastStored == map[]
      ensures this.maxEntries == maxEntries && this.maxTotalBytes == maxTotalBytes
    {
      this.maxEntries, this.maxTotalBytes := maxEntries, maxTotalBytes;
      entries, lastStored := map[], map[];
    }

    /** What was stored last for the key and has not expired, or nothing. */
    method GetFresh(key: Key, now: int) returns (r: Option<Entry>)
      requires Valid()
      ensures r.Some? <==> key in entries && now - entries[key].storedAt <= entries[key].ttl
      ensures r.Some? ==> key in lastStored && r.value == lastStored[key]
    {
      r := if key in entries && !Expired(entries[key], now) then Some(entries[key]) else None;
    }

    method Store(key: Key, contentType: string, bytes: string, storedAt: int, now: int)
      requires Valid()
      modifies this
      ensures Valid()
      ensures bytes == "" || |bytes| > maxTotalBytes ==> entries == old(entries) && lastStored == old(lastStored)
      ensures 0 < |bytes| <= maxTotalBytes ==>
                var entry := Entry(contentType, bytes, storedAt, 25_000);
                && lastStored == old(lastStored)[key := entry]
                && Evicted(Live(old(entries)[key := entry], now), entries, maxEntries, maxTotalBytes)
    {
      if bytes == "" || |bytes| > maxTotalBytes {
        return;
      }
      var entry := Entry(contentType, bytes, storedAt, SEGMENT_TTL_MS);
      lastStored := lastStored[key := entry];
      var stored := entries[key := entry];
      entries := EvictExpiredThenOldest(stored, maxEntries, maxTotalBytes, now);
      EvictionMeetsBudgets(stored, now, entries, maxEntries, maxTotalBytes);
    }

    method Prune(now: int)
      requires Valid()
      modifies this
      ensures Valid() && entries == Live(old(entries), now) && lastStored == old(lastStored)
    {
      LiveWithin(entries, now, maxEntries, maxTotalBytes);
      entries := Live(entries, now);
    }
  }

  /** Rewritten playlists, each with its own lifetime; every body is taken. */
  class LiveHlsPlaylistCache {
    var entries: Entries
    ghost var lastStored: Entries

    ghost predicate Valid()
      reads this
    {
      && (forall k :: k in entries ==> k in lastStored && entries[k] == lastStored[k])
      && Within(entries, PLAYLIST_MAX_ENTRIES, PLAYLIST_MAX_TOTAL_BYTES)
    }

    constructor ()
      ensures Valid() && entries == map[] && lastStored == map[]
    {
      entries, lastStored := map[], map[];
    }

    method GetFresh(key: Key, now: int) returns (r: Option<Entry>)
      requires Valid()
      ensures r.Some? <==> key in entries && now - entries[key].storedAt <= entries[key].ttl
      ensures r.Some? ==> key in lastStored && r.value == lastStored[key]
    {
      r := if key in entries && !Expired(entries[key], now) then Some(entries[key]) else None;
    }

    method Store(key: Key, body: string, ttl: int, cacheControl: string, storedAt: int, now: int)
      requires Valid()
      modifies this
      ensures Valid() && |entries| <= 64 && TotalBytes(entries) <= 50_331_648
      ensures var entry := Entry(cacheControl, body, storedAt, ttl);
              && lastStored == old(lastStored)[key := entry]
              && Evicted(Live(old(entries)[key := entry], now), entries, 64, 50_331_648)
    {
      var entry := Entry(cacheControl, body, storedAt, ttl);
      lastStored := lastStored[key := entry];
      var stored := entries[key := entry];
      entries := EvictExpiredThenOldest(stored, PLAYLIST_MAX_ENTRIES, PLAYLIST_MAX_TOTAL_BYTES, now);
      EvictionMeetsBudgets(stored, now, entries, PLAYLIST_MAX_ENTRIES, PLAYLIST_MAX_TOTAL_BYTES);
    }

    method Prune(now: int)
      requires Valid()
      modifies this
      ensures Valid() && entries == Live(old(entries), now) && lastStored == old(lastStored)
    {
      LiveWithin(entries, now, PLAYLIST_MAX_ENTRIES, PLAYLIST_MAX_TOTAL_BYTES);
      entries := Live(entries, now);
    }
  }

  const RESOLVE_TTL_MS := 60_000
  const RESOLVE_FAILURE_TTL_MS := 45_000
  const RESOLVE_MAX_ENTRIES := 512

  lemma OverflowIsShortest(m: Entries, order: seq<Key>, overflow: nat)
    requires AgeOrder(m, order)
    requires overflow == if |order| <= RESOLVE_MAX_ENTRIES then 0 else |order| - RESOLVE_MAX_ENTRIES
    ensures ShortestPrefix(m, order, overflow, RESOLVE_MAX_ENTRIES, TotalBytes(m))
  {
    WithoutSize(m, order, 0);
    BytesFromSuffix(m, order, 0, overflow);
  }

  /** The trim of the resolve cache: the same policy without expiry and without a byte budget. */
  method Trim(m: Entries) returns (kept: Entries)
    ensures Evicted(m, kept, 512, TotalBytes(m))
    ensures |m| <= 512 ==> kept == m
    ensures |m| > 512 ==> |kept| == 512
  {
    var order := SortByAge(m);
    WithoutSize(m, order, 0);
    kept := m;
    var overflow: nat := if |order| <= RESOLVE_MAX_ENTRIES then 0 else |order| - RESOLVE_MAX_ENTRIES;
    for i := 0 to overflow
      invariant kept == Without(m, order, i)
    {
      kept := kept - {order[i]};
    }
    OverflowIsShortest(m, order, overflow);
    WithoutSize(m, order, overflow);
  }

  /** Remembered resolves and remembered failures, each bounded in number and time. */
  class SportsStreamResolveCache {
    var entries: Entries
    var failures: Entries

    constructor ()
      ensures entries == map[] && failures == map[]
    {
      entries, failures := map[], map[];
    }

    method Fresh(key: Key, now: int) returns (r: Option<Entry>)
      ensures r.Some? <==> key in entries && now <= entries[key].storedAt + entries[key].ttl
      ensures r.Some? ==> r.value == entries[key]
    {
      r := if key in entries && !Expired(entries[key], now) then Some(entries[key]) else None;
    }

    method Insert(key: Key, resolved: string, cachedAt: int)
      modifies this`entries
      ensures var m := old(entries)[key := Entry("", resolved, cachedAt, 60_000)];
              Evicted(m, entries, 512, TotalBytes(m))
    {
      entries := Trim(entries[key := Entry("", resolved, cachedAt, RESOLVE_TTL_MS)]);
    }

    method FreshFailure(key: Key, now: int) returns (r: Option<Entry>)
      ensures r.Some? <==> key in failures && now <= failures[key].storedAt + failures[key].ttl
      ensures r.Some? ==> r.value == failures[key]
    {
      r := if key in failures && !Expired(failures[key], now) then Some(failures[key]) else None;
    }

    method InsertFailure(key: Key, message: string, cachedAt: int)
      modifies this`failures
      ensures var m := old(failures)[key := Entry("", message, cachedAt, 45_000)];
              Evicted(m, failures, 512, TotalBytes(m))
    {
      failures := Trim(failures[key := Entry("", message, cachedAt, RESOLVE_FAILURE_TTL_MS)]);
    }

    /** Exactly what has expired goes; the rest stays as it is. */
    method Prune(now: int)
      modifies this
      ensures forall k :: k in entries <==> k in old(entries) && now <= old(entries)[k].storedAt + old(entries)[k].ttl
      ensures forall k :: k in entries ==> entries[k] == old(entries)[k]
      ensures forall k :: k in failures
                <==> k in old(failures) && now <= old(failures)[k].storedAt + old(failures)[k].ttl
      ensures forall k :: k in failures ==> failures[k] == old(failures)[k]
    {
      entries, failures := Live(entries, now), Live(failures, now);
    }
  }
}
