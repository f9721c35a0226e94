/**
 The sliding-window limiter and the exponential failure cooldown. Each is a class over
 an in-place map; the maps' step functions are proved against unbounded histories.
 The clock is a parameter and, as the histories assume, does not run backwards.
 */
module RateLimit {
  import opened Options
  import opened Decimal

  // ----- Sliding window ----------------------------------------------------------

  type Hits = map<string, seq<int>>

  /** The timestamps of `s` later than `cutoff`. */
  function After(s: seq<int>, cutoff: int): seq<int> {
    if s == [] then []
    else
      var rest := After(s[..|s| - 1], cutoff);
      if s[|s| - 1] > cutoff then rest + [s[|s| - 1]] else rest
  }

  lemma {:induction false} AfterMembers(s: seq<int>, cutoff: int)
    ensures forall t :: t in After(s, cutoff) <==> t in s && t > cutoff
  {
    if s != [] {
      AfterMembers(s[..|s| - 1], cutoff);
    }
  }

  lemma AnyAfter(s: seq<int>, cutoff: int)
    ensures After(s, cutoff) != [] <==> exists t :: t in s && t > cutoff
    ensures forall t :: t in After(s, cutoff) <==> t in s && t > cutoff
  {
    AfterMembers(s, cutoff);
    if After(s, cutoff) != [] {
      assert After(s, cutoff)[0] in After(s, cutoff);
    }
  }

  function Bucket(hits: Hits, key: string): seq<int> {
    if key in hits then hits[key] else []
  }

  function Check(hits: Hits, maxHits: nat, windowMs: int, key: string, now: int): (Hits, bool) {
    var recent := After(Bucket(hits, key), now - windowMs);
    if |recent| >= maxHits then (hits[key := recent], false) else (hits[key := recent + [now]], true)
  }

  function Pruned(hits: Hits, windowMs: int, now: int): Hits {
    map k | k in hits && After(hits[k], now - windowMs) != [] :: After(hits[k], now - windowMs)
  }

  lemma PrunedMembers(hits: Hits, windowMs: int, now: int)
    ensures var pruned := Pruned(hits, windowMs, now);
            && (forall k :: k in pruned <==> k in hits && exists t :: t in hits[k] && t > now - windowMs)
            && (forall k :: k in pruned ==> forall t :: t in pruned[k] <==> t in hits[k] && t > now - windowMs)
  {
    var pruned := Pruned(hits, windowMs, now);
    forall k | k in hits
      ensures k in pruned <==> exists t :: t in hits[k] && t > now - windowMs
      ensures k in pruned ==> forall t :: t in pruned[k] <==> t in hits[k] && t > now - windowMs
    {
      AnyAfter(hits[k], now - windowMs);
    }
  }

  class RateLimiter {
    const windowMs: int
    const maxHits: nat
    var hits: Hits

    constructor (maxHits: nat, windowMs: int)
      ensures this.windowMs == (if windowMs < 1 then 1 else windowMs)
      ensures this.maxHits == (if maxHits < 1 then 1 else maxHits)
      ensures hits == map[]
    {
      this.windowMs := if windowMs < 1 then 1 else windowMs;
      this.maxHits := if maxHits < 1 then 1 else maxHits;
      hits := map[];
    }

    method CheckAndRecord(key: string, now: int) returns (allowed: bool)
      modifies this
      ensures (hits, allowed) == Check(old(hits), maxHits, windowMs, key, now)
    {
      var entry := if key in hits then hits[key] else [];
      entry := After(entry, now - windowMs);
      hits := hits[key := entry];
      if |entry| >= maxHits {
        return false;
      }
      assert hits[key := entry + [now]] == old(hits)[key := entry + [now]];
      hits := hits[key := entry + [now]];
      return true;
    }

    method Prune(now: int)
      modifies this
      ensures hits == Pruned(old(hits), windowMs, now)
      ensures forall k :: k in hits <==> k in old(hits) && exists t :: t in old(hits)[k] && t > now - windowMs
      ensures forall k :: k in hits ==> forall t :: t in hits[k] <==> t in old(hits)[k] && t > now - windowMs
    {
      PrunedMembers(hits, windowMs, now);
      hits := Pruned(hits, windowMs, now);
    }
  }

  /** What happens to a limiter: attempts and background sweeps. */
  datatype Event = Attempt(key: string, at: int) | Sweep(at: int)

  /** The limiter after the events, and its answers to the attempts, in order. */
  function Run(events: seq<Event>, maxHits: nat, windowMs: int): (Hits, seq<bool>) {
    if events == [] then (map[], [])
    else
      var (hits, answers) := Run(events[..|events| - 1], maxHits, windowMs);
      match events[|events| - 1]
      case Attempt(key, now) =>
        var (hits', allowed) := Check(hits, maxHits, windowMs, key, now);
        (hits', answers + [allowed])
      case Sweep(now) => (Pruned(hits, windowMs, now), answers)
  }

  /** An attempt is accepted iff fewer than `maxHits` accepted ones of its key lie in the last window. */
  function LogCheck(log: Hits, maxHits: nat, windowMs: int, key: string, now: int): (Hits, bool) {
    var allowed := |After(Bucket(log, key), now - windowMs)| < maxHits;
    (if allowed then log[key := Bucket(log, key) + [now]] else log, allowed)
  }

  /** The reference: every accepted attempt is kept for ever, and sweeps do nothing. */
  function Log(events: seq<Event>, maxHits: nat, windowMs: int): (Hits, seq<bool>) {
    if events == [] then (map[], [])
    else
      var (log, answers) := Log(events[..|events| - 1], maxHits, windowMs);
      match events[|events| - 1]
      case Attempt(key, now) =>
        var (log', allowed) := LogCheck(log, maxHits, windowMs, key, now);
        (log', answers + [allowed])
      case Sweep(_) => (log, answers)
  }

  ghost predicate Chronological(events: seq<Event>) {
    forall i, j :: 0 <= i < j < |events| ==> events[i].at <= events[j].at
  }

  lemma {:induction false} AfterAppend(s: seq<int>, t: int, cutoff: int)
    ensures After(s + [t], cutoff) == After(s, cutoff) + if t > cutoff then [t] else []
  {
    assert (s + [t])[..|s|] == s;
  }

  lemma {:induction false} AfterAfter(s: seq<int>, early: int, late: int)
    requires early <= late
    ensures After(After(s, early), late) == After(s, late)
  {
    if s != [] {
      AfterAfter(s[..|s| - 1], early, late);
      AfterAppend(After(s[..|s| - 1], early), s[|s| - 1], late);
    }
  }

  /** The two agree on everything later than `from`. */
  ghost predicate AgreeFrom(a: seq<int>, b: seq<int>, from: int) {
    forall cutoff :: cutoff >= from ==> After(a, cutoff) == After(b, cutoff)
  }

  /** The buckets agree on everything that an attempt at `now` or later can see. */
  ghost predicate Agree(hits: Hits, log: Hits, windowMs: int, now: int) {
    forall k :: AgreeFrom(Bucket(hits, k), Bucket(log, k), now - windowMs)
  }

  lemma PrunedAgrees(a: seq<int>, b: seq<int>, from: int)
    requires AgreeFrom(a, b, from)
    ensures AgreeFrom(After(a, from), b, from)
  {
    forall cutoff | cutoff >= from ensures After(After(a, from), cutoff) == After(b, cutoff) {
      AfterAfter(a, from, cutoff);
    }
  }

  lemma GrownAgrees(a: seq<int>, b: seq<int>, t: int, from: int)
    requires AgreeFrom(a, b, from)
    ensures AgreeFrom(a + [t], b + [t], from)
  {
    forall cutoff | cutoff >= from ensures After(a + [t], cutoff) == After(b + [t], cutoff) {
      AfterAppend(a, t, cutoff);
      AfterAppend(b, t, cutoff);
    }
  }

  lemma BucketOfUpdate(hits: Hits, key: string, bucket: seq<int>, k: string)
    ensures Bucket(hits[key := bucket], k) == if k == key then bucket else Bucket(hits, k)
  {
  }

  lemma UpdateAgrees(hits: Hits, log: Hits, key: string, a: seq<int>, b: seq<int>, windowMs: int, now: int)
    requires Agree(hits, log, windowMs, now) && AgreeFrom(a, b, now - windowMs)
    ensures Agree(hits[key := a], log[key := b], windowMs, now)
  {
    var hits', log' := hits[key := a], log[key := b];
    forall k ensures AgreeFrom(Bucket(hits', k), Bucket(log', k), now - windowMs) {
      assert AgreeFrom(Bucket(hits, k), Bucket(log, k), now - windowMs);
      BucketOfUpdate(hits, key, a, k);
      BucketOfUpdate(log, key, b, k);
    }
  }

  lemma NoUpdateAgrees(hits: Hits, log: Hits, key: string, a: seq<int>, windowMs: int, now: int)
    requires Agree(hits, log, windowMs, now) && AgreeFrom(a, Bucket(log, key), now - windowMs)
    ensures Agree(hits[key := a], log, windowMs, now)
  {
    var hits' := hits[key := a];
    forall k ensures AgreeFrom(Bucket(hits', k), Bucket(log, k), now - windowMs) {
      assert AgreeFrom(Bucket(hits, k), Bucket(log, k), now - windowMs);
      BucketOfUpdate(hits, key, a, k);
    }
  }

  lemma CheckAgrees(hits: Hits, log: Hits, maxHits: nat, windowMs: int, key: string, now: int)
    requires Agree(hits, log, windowMs, now)
    ensures Check(hits, maxHits, windowMs, key, now).1 == LogCheck(log, maxHits, windowMs, key, now).1
    ensures Agree(Check(hits, maxHits, windowMs, key, now).0, LogCheck(log, maxHits, windowMs, key, now).0, windowMs,
                  now)
  {
    var from := now - windowMs;
    var a, b := Bucket(hits, key), Bucket(log, key);
    assert AgreeFrom(a, b, from);
    assert After(a, from) == After(b, from);
    PrunedAgrees(a, b, from);
    if |After(a, from)| >= maxHits {
      assert Check(hits, maxHits, windowMs, key, now) == (hits[key := After(a, from)], false);
      assert LogCheck(log, maxHits, windowMs, key, now) == (log, false);
      NoUpdateAgrees(hits, log, key, After(a, from), windowMs, now);
    } else {
      assert Check(hits, maxHits, windowMs, key, now) == (hits[key := After(a, from) + [now]], true);
      assert LogCheck(log, maxHits, windowMs, key, now) == (log[key := b + [now]], true);
      GrownAgrees(After(a, from), b, now, from);
      UpdateAgrees(hits, log, key, After(a, from) + [now], b + [now], windowMs, now);
    }
  }

  lemma BucketOfPruned(hits: Hits, windowMs: int, now: int, k: string)
    ensures Bucket(Pruned(hits, windowMs, now), k) == After(Bucket(hits, k), now - windowMs)
  {
  }

  lemma PruneAgreesAt(hits: Hits, log: Hits, windowMs: int, now: int, k: string)
    requires AgreeFrom(Bucket(hits, k), Bucket(log, k), now - windowMs)
    ensures AgreeFrom(Bucket(Pruned(hits, windowMs, now), k), Bucket(log, k), now - windowMs)
  {
    BucketOfPruned(hits, windowMs, now, k);
    PrunedAgrees(Bucket(hits, k), Bucket(log, k), now - windowMs);
  }

  lemma PruneAgrees(hits: Hits, log: Hits, windowMs: int, now: int)
    requires Agree(hits, log, windowMs, now)
    ensures Agree(Pruned(hits, windowMs, now), log, windowMs, now)
  {
    forall k ensures AgreeFrom(Bucket(Pruned(hits, windowMs, now), k), Bucket(log, k), now - windowMs) {
      PruneAgreesAt(hits, log, windowMs, now, k);
    }
  }

  lemma AgreeLater(hits: Hits, log: Hits, windowMs: int, now: int, later: int)
    requires Agree(hits, log, windowMs, now) && now <= later
    ensures Agree(hits, log, windowMs, later)
  {
    forall k ensures AgreeFrom(Bucket(hits, k), Bucket(log, k), later - windowMs) {
      assert AgreeFrom(Bucket(hits, k), Bucket(log, k), now - windowMs);
    }
  }

  /**
   The limiter refines the unbounded log: over any chronological run of attempts and
   sweeps the answers are the same, and so is everything a later attempt can see.
   */
  lemma {:induction false} RefinesLog(events: seq<Event>, maxHits: nat, windowMs: int)
    requires Chronological(events)
    ensures Run(events, maxHits, windowMs).1 == Log(events, maxHits, windowMs).1
    ensures events != [] ==>
              Agree(Run(events, maxHits, windowMs).0, Log(events, maxHits, windowMs).0, windowMs,
                    events[|events| - 1].at)
  {
    if events != [] {
      var before := events[..|events| - 1];
      var last := events[|events| - 1];
      RefinesLog(before, maxHits, windowMs);
      var hits, log := Run(before, maxHits, windowMs).0, Log(before, maxHits, windowMs).0;
      assert Agree(hits, log, windowMs, last.at) by {
        if before != [] {
          AgreeLater(hits, log, windowMs, before[|before| - 1].at, last.at);
        }
      }
      match last
      case Attempt(key, now) => CheckAgrees(hits, log, maxHits, windowMs, key, now);
      case Sweep(now) => PruneAgrees(hits, log, windowMs, now);
    }
  }

  /** The sweeps taken out of a run. */
  function Attempts(events: seq<Event>): seq<Event> {
    if events == [] then []
    else
      var rest := Attempts(events[..|events| - 1]);
      if events[|events| - 1].Attempt? then rest + [events[|events| - 1]] else rest
  }

  lemma {:induction false} LogIgnoresSweeps(events: seq<Event>, maxHits: nat, windowMs: int)
    ensures Log(events, maxHits, windowMs) == Log(Attempts(events), maxHits, windowMs)
  {
    if events != [] {
      var rest := Attempts(events[..|events| - 1]);
      LogIgnoresSweeps(events[..|events| - 1], maxHits, windowMs);
      assert (rest + [events[|events| - 1]])[..|rest|] == rest;
    }
  }

  lemma {:induction false} AttemptsChronological(events: seq<Event>)
    requires Chronological(events)
    ensures Chronological(Attempts(events))
    ensures forall a :: a in Attempts(events) ==> a in events
  {
    if events != [] {
      AttemptsChronological(events[..|events| - 1]);
      var rest := Attempts(events[..|events| - 1]);
      forall i | 0 <= i < |rest| ensures rest[i].at <= events[|events| - 1].at {
        assert rest[i] in events[..|events| - 1];
      }
    }
  }

  /** Pruning at any moments changes no answer. */
  lemma SweepsAreInvisible(events: seq<Event>, maxHits: nat, windowMs: int)
    requires Chronological(events)
    ensures Run(events, maxHits, windowMs).1 == Run(Attempts(events), maxHits, windowMs).1
  {
    AttemptsChronological(events);
    RefinesLog(events, maxHits, windowMs);
    RefinesLog(Attempts(events), maxHits, windowMs);
    LogIgnoresSweeps(events, maxHits, windowMs);
  }

  /** How many elements of `s` lie in the half-open window from `start` (excluded) to `end` (included). */
  function Between(s: seq<int>, start: int, end: int): nat {
    if s == [] then 0
    else Between(s[..|s| - 1], start, end) + if start < s[|s| - 1] <= end then 1 else 0
  }

  lemma {:induction false} BetweenAfter(s: seq<int>, early: int, start: int, end: int)
    requires early <= start
    ensures Between(s, start, end) <= |After(s, early)|
  {
    if s != [] {
      BetweenAfter(s[..|s| - 1], early, start, end);
    }
  }

  /** No window of length `windowMs`, wherever it lies, holds more than `maxHits` accepted attempts of a key. */
  lemma {:induction false} NoWindowOverfull(events: seq<Event>, maxHits: nat, windowMs: int, key: string, end: int)
    ensures Between(Bucket(Log(events, maxHits, windowMs).0, key), end - windowMs, end) <= maxHits
  {
    if events != [] {
      var before := events[..|events| - 1];
      NoWindowOverfull(before, maxHits, windowMs, key, end);
      var last := events[|events| - 1];
      var s := Bucket(Log(before, maxHits, windowMs).0, key);
      if last.Attempt? && last.key == key {
        assert (s + [last.at])[..|s|] == s;
        if last.at <= end {
          BetweenAfter(s, last.at - windowMs, end - windowMs, end);
        }
      }
    }
  }

  /** The events that concern one key. */
  function Of(events: seq<Event>, key: string): seq<Event> {
    if events == [] then []
    else
      var rest := Of(events[..|events| - 1], key);
      var last := events[|events| - 1];
      if last.Attempt? && last.key == key then rest + [last] else rest
  }

  lemma {:induction false} OfChronological(events: seq<Event>, key: string)
    requires Chronological(events)
    ensures Chronological(Of(events, key))
    ensures forall a :: a in Of(events, key) ==> a in events
  {
    if events != [] {
      OfChronological(events[..|events| - 1], key);
      var rest := Of(events[..|events| - 1], key);
      forall i | 0 <= i < |rest| ensures rest[i].at <= events[|events| - 1].at {
        assert rest[i] in events[..|events| - 1];
      }
    }
  }

  /** Of the answers, those to the attempts of one key, in order. */
  function AnswersOf(events: seq<Event>, answers: seq<bool>, key: string): seq<bool> {
    if events == [] || answers == [] then []
    else
      var before, last := events[..|events| - 1], events[|events| - 1];
      if last.Sweep? then AnswersOf(before, answers, key)
      else
        var rest := AnswersOf(before, answers[..|answers| - 1], key);
        if last.key == key then rest + [answers[|answers| - 1]] else rest
  }

  lemma {:induction false} AnswerCount(events: seq<Event>, maxHits: nat, windowMs: int)
    ensures |Log(events, maxHits, windowMs).1| == |Attempts(events)|
  {
    if events != [] {
      AnswerCount(events[..|events| - 1], maxHits, windowMs);
    }
  }

  lemma {:induction false} NoAttempts(events: seq<Event>, key: string)
    requires Attempts(events) == []
    ensures Of(events, key) == []
  {
    if events != [] {
      NoAttempts(events[..|events| - 1], key);
    }
  }

  lemma LogStep(events: seq<Event>, e: Event, maxHits: nat, windowMs: int)
    ensures var (log, answers) := Log(events, maxHits, windowMs);
            Log(events + [e], maxHits, windowMs)
            == if e.Sweep? then (log, answers)
               else
                 var (log', allowed) := LogCheck(log, maxHits, windowMs, e.key, e.at);
                 (log', answers + [allowed])
  {
    assert (events + [e])[..|events|] == events;
  }

  /** In the log the bucket of a key, and the answers for it, depend on its own attempts alone. */
  lemma {:induction false} LogKeysIndependent(events: seq<Event>, maxHits: nat, windowMs: int, key: string)
    ensures Bucket(Log(events, maxHits, windowMs).0, key) == Bucket(Log(Of(events, key), maxHits, windowMs).0, key)
    ensures AnswersOf(events, Log(events, maxHits, windowMs).1, key) == Log(Of(events, key), maxHits, windowMs).1
  {
    if events != [] {
      var before, last := events[..|events| - 1], events[|events| - 1];
      assert before + [last] == events;
      LogKeysIndependent(before, maxHits, windowMs, key);
      LogStep(before, last, maxHits, windowMs);
      LogStep(Of(before, key), last, maxHits, windowMs);
      var answers := Log(before, maxHits, windowMs).1;
      if last.Sweep? {
        if answers == [] {
          AnswerCount(before, maxHits, windowMs);
          NoAttempts(before, key);
        }
      } else {
        var allowed := LogCheck(Log(before, maxHits, windowMs).0, maxHits, windowMs, last.key, last.at).1;
        assert (answers + [allowed])[..|answers|] == answers;
      }
    }
  }

  /** Keys do not interact: the limiter answers the attempts of a key as if there were no others. */
  lemma KeysIndependent(events: seq<Event>, maxHits: nat, windowMs: int, key: string)
    requires Chronological(events)
    ensures AnswersOf(events, Run(events, maxHits, windowMs).1, key) == Run(Of(events, key), maxHits, windowMs).1
  {
    OfChronological(events, key);
    RefinesLog(events, maxHits, windowMs);
    RefinesLog(Of(events, key), maxHits, windowMs);
    LogKeysIndependent(events, maxHits, windowMs, key);
  }

  // ----- Failure cooldown --------------------------------------------------------

  function Saturate(n: int): int {
    if n > I64_MAX then I64_MAX else if n < I64_MIN then I64_MIN else n
  }

  function Pow2(n: nat): nat {
    if n == 0 then 1 else 2 * Pow2(n - 1)
  }

  datatype FailureEntry = FailureEntry(failures: nat, retryAt: int, lastFailure: int)

  function Min(a: int, b: int): int {
    if a < b then a else b
  }

  function Max(a: int, b: int): int {
    if a > b then a else b
  }

  /** The cooldown after the given number of failures in a row, in unbounded arithmetic. */
  function Delay(baseMs: int, maxMs: int, failures: nat): int
    requires failures >= 1
  {
    Min(baseMs * Pow2(failures - 1), maxMs)
  }

  function Failure(previous: Option<FailureEntry>, baseMs: int, maxMs: int, retentionMs: int, now: int): FailureEntry {
    var failures: nat :=
      if previous.Some? && now - previous.value.lastFailure <= retentionMs
      then Min(previous.value.failures + 1, 31) else 1;
    var delay := Min(Saturate(baseMs * Pow2(Max(failures - 1, 0))), maxMs);
    FailureEntry(failures, Saturate(now + delay), now)
  }

  function RetryAfter(entry: Option<FailureEntry>, now: int): int {
    if entry.None? then 0 else Max(Saturate(entry.value.retryAt - now), 0)
  }

  class FailureBackoff {
    const baseDelayMs: int
    const maxDelayMs: int
    const retentionMs: int
    var failures: map<string, FailureEntry>

    predicate Valid() {
      1 <= baseDelayMs <= maxDelayMs <= I64_MAX
    }

    constructor (baseDelayMs: int, maxDelayMs: int, retentionMs: int)
      requires baseDelayMs <= I64_MAX && maxDelayMs <= I64_MAX
      ensures Valid()
      ensures this.baseDelayMs == Max(baseDelayMs, 1) && this.retentionMs == Max(retentionMs, 1)
      ensures this.maxDelayMs == Max(maxDelayMs, Max(baseDelayMs, 1)) && failures == map[]
    {
      this.baseDelayMs := Max(baseDelayMs, 1);
      this.maxDelayMs := Max(maxDelayMs, Max(baseDelayMs, 1));
      this.retentionMs := Max(retentionMs, 1);
      failures := map[];
    }

    function Entry(key: string): Option<FailureEntry>
      reads this
    {
      if key in failures then Some(failures[key]) else None
    }

    /** The time left, never negative; none once the entry's time has come. */
    method RetryAfterMs(key: string, now: int) returns (ms: int)
      ensures ms >= 0
      ensures ms == 0 <==> key !in failures || failures[key].retryAt <= now
      ensures ms > 0 ==> ms == Min(failures[key].retryAt - now, I64_MAX)
      ensures ms == RetryAfter(Entry(key), now)
    {
      ms := RetryAfter(Entry(key), now);
    }

    method RecordFailure(key: string, now: int) returns (delay: int)
      requires Valid()
      modifies this
      ensures var entry := Failure(old(Entry(key)), baseDelayMs, maxDelayMs, retentionMs, now);
              && failures == old(failures)[key := entry]
              && entry.failures >= 1 && delay == Delay(baseDelayMs, maxDelayMs, entry.failures)
              && entry.retryAt == Saturate(now + delay)
    {
      var previous := Entry(key);
      var count: nat := 1;
      if previous.Some? && now - previous.value.lastFailure <= retentionMs {
        count := Min(previous.value.failures + 1, 31);
      }
      delay := Min(Saturate(baseDelayMs * Pow2(Max(count - 1, 0))), maxDelayMs);
      failures := failures[key := FailureEntry(count, Saturate(now + delay), now)];
      SaturatedDelay(baseDelayMs, maxDelayMs, count);
    }

    /** The key is forgotten, and no other. */
    method RecordSuccess(key: string)
      modifies this
      ensures key !in failures
      ensures forall k :: k != key ==> (k in failures <==> k in old(failures))
      ensures forall k :: k in failures ==> failures[k] == old(failures)[k]
    {
      failures := failures - {key};
    }

    /** Exactly the entries that are `retentionMs` old go; the others stay as they are. */
    method Prune(now: int)
      modifies this
      ensures forall k :: k in failures <==> k in old(failures) && now - old(failures)[k].lastFailure < retentionMs
      ensures forall k :: k in failures ==> failures[k] == old(failures)[k]
    {
      failures := map k | k in failures && failures[k].lastFailure > now - retentionMs :: failures[k];
    }
  }

  /** Saturating the product never changes the delay. */
  lemma SaturatedDelay(baseMs: int, maxMs: int, failures: nat)
    requires 1 <= baseMs <= maxMs <= I64_MAX && failures >= 1
    ensures Min(Saturate(baseMs * Pow2(failures - 1)), maxMs) == Delay(baseMs, maxMs, failures)
  {
    PowPositive(failures - 1, baseMs);
  }

  /** The length of the run of failures at the end of `times` with no gap beyond the retention. */
  function Streak(times: seq<int>, retentionMs: int): nat {
    if times == [] then 0
    else if |times| > 1 && times[|times| - 1] - times[|times| - 2] <= retentionMs
    then Streak(times[..|times| - 1], retentionMs) + 1
    else 1
  }

  /** The entry after failures at the given times and no success between them. */
  function Failures(times: seq<int>, baseMs: int, maxMs: int, retentionMs: int): Option<FailureEntry> {
    if times == [] then None
    else
      var previous := Failures(times[..|times| - 1], baseMs, maxMs, retentionMs);
      Some(Failure(previous, baseMs, maxMs, retentionMs, times[|times| - 1]))
  }

  lemma FailureShape(previous: Option<FailureEntry>, baseMs: int, maxMs: int, retentionMs: int, now: int)
    requires 1 <= baseMs <= maxMs <= I64_MAX
    ensures var entry := Failure(previous, baseMs, maxMs, retentionMs, now);
            && entry.failures == (if previous.Some? && now - previous.value.lastFailure <= retentionMs
                                  then Min(previous.value.failures + 1, 31) else 1)
            && entry.lastFailure == now
            && entry.retryAt == Saturate(now + Delay(baseMs, maxMs, entry.failures))
  {
    var n := Failure(previous, baseMs, maxMs, retentionMs, now).failures;
    SaturatedDelay(baseMs, maxMs, n);
  }

  /** The k-th failure in a row is answered by base * 2^(min(k, 31) - 1) milliseconds, capped, whatever came before. */
  lemma {:induction false} CooldownDoubles(times: seq<int>, baseMs: int, maxMs: int, retentionMs: int)
    requires times != [] && 1 <= baseMs <= maxMs <= I64_MAX
    ensures var entry := Failures(times, baseMs, maxMs, retentionMs).value;
            var now := times[|times| - 1];
            var streak := Streak(times, retentionMs);
            && streak >= 1 && entry.lastFailure == now
            && entry.failures == Min(streak, 31)
            && entry.retryAt == Saturate(now + Delay(baseMs, maxMs, Min(streak, 31)))
  {
    var before := times[..|times| - 1];
    FailureShape(Failures(before, baseMs, maxMs, retentionMs), baseMs, maxMs, retentionMs, times[|times| - 1]);
    if before != [] {
      CooldownDoubles(before, baseMs, maxMs, retentionMs);
    }
  }

  /** Consecutive cooldowns never shrink, and stop growing only at the cap. */
  lemma DelayGrows(baseMs: int, maxMs: int, failures: nat)
    requires failures >= 1 && 1 <= baseMs <= maxMs
    ensures var d := Delay(baseMs, maxMs, failures);
            1 <= d <= maxMs && Delay(baseMs, maxMs, failures + 1) == Min(2 * d, maxMs)
  {
    assert baseMs * Pow2(failures) == 2 * (baseMs * Pow2(failures - 1));
    PowPositive(failures - 1, baseMs);
  }

  lemma {:induction false} PowPositive(n: nat, baseMs: int)
    requires baseMs >= 1
    ensures baseMs * Pow2(n) >= 1
  {
    if n > 0 {
      PowPositive(n - 1, baseMs);
      assert baseMs * Pow2(n) == 2 * (baseMs * Pow2(n - 1));
    }
  }

  /**
   Unlike the limiter's, this sweep can be seen: removing an entry at `sweep`, as the
   sweep does once the entry is `retentionMs` old, changes no later answer exactly when
   it is strictly older than that and its own cooldown is over.
   */
  lemma SweepVisibility(entry: FailureEntry, baseMs: int, maxMs: int, retentionMs: int, sweep: int)
    requires entry.failures >= 1 && entry.lastFailure <= sweep - retentionMs
    requires I64_MIN <= entry.retryAt - sweep <= I64_MAX
    ensures (forall now :: now >= sweep ==>
              && RetryAfter(Some(entry), now) == RetryAfter(None, now)
              && Failure(Some(entry), baseMs, maxMs, retentionMs, now)
                 == Failure(None, baseMs, maxMs, retentionMs, now))
        <==> entry.lastFailure < sweep - retentionMs && entry.retryAt <= sweep
  {
    if entry.lastFailure == sweep - retentionMs {
      assert Failure(Some(entry), baseMs, maxMs, retentionMs, sweep).failures >= 2;
      assert Failure(None, baseMs, maxMs, retentionMs, sweep).failures == 1;
    }
    if entry.retryAt > sweep {
      assert RetryAfter(Some(entry), sweep) > 0;
    }
  }

  /**
   An entry exactly `retentionMs` old when it is swept: a failure right then is the first again, and
   its cooldown half as long.
   */
  lemma SweepAtTheBoundaryShows(baseMs: int, maxMs: int, retentionMs: int, sweep: int)
    requires 1 <= baseMs && 2 * baseMs <= maxMs <= I64_MAX && retentionMs >= 1
    ensures var entry := FailureEntry(1, sweep - retentionMs + baseMs, sweep - retentionMs);
            && Failure(Some(entry), baseMs, maxMs, retentionMs, sweep)
               == FailureEntry(2, Saturate(sweep + 2 * baseMs), sweep)
            && Failure(None, baseMs, maxMs, retentionMs, sweep) == FailureEntry(1, Saturate(sweep + baseMs), sweep)
  {
    var entry := FailureEntry(1, sweep - retentionMs + baseMs, sweep - retentionMs);
    FailureShape(Some(entry), baseMs, maxMs, retentionMs, sweep);
    FailureShape(None, baseMs, maxMs, retentionMs, sweep);
    assert Pow2(0) == 1 && Pow2(1) == 2;
  }
}
