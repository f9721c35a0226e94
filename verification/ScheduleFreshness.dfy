/**
 How long a fetched sports schedule is served without asking again. Times are
 milliseconds since the epoch, as unbounded integers.
 */
module ScheduleFreshness {
  import opened Options

  const LIVE_TTL_MS := 60_000
  const NEAR_LIVE_TTL_MS := 180_000
  const EMPTY_TTL_MS := 300_000
  const FUTURE_TTL_MS := 1_800_000
  const STALE_IF_ERROR_MS := 86_400_000
  const SOON_MS := 7_200_000

  datatype Match = Match(start: int, end: int)

  /** `matches` is absent when the payload has no array of that name. */
  datatype Payload = Payload(source: string, matches: Option<seq<Match>>)

  predicate LiveAt(m: Match, t: int) {
    m.start <= t < m.end
  }

  predicate StartsSoon(m: Match, t: int) {
    m.start > t && m.start - t <= SOON_MS
  }

  ghost predicate AnyLive(p: Payload, t: int) {
    p.matches.Some? && exists i :: 0 <= i < |p.matches.value| && LiveAt(p.matches.value[i], t)
  }

  ghost predicate AnySoon(p: Payload, t: int) {
    p.matches.Some? && exists i :: 0 <= i < |p.matches.value| && StartsSoon(p.matches.value[i], t)
  }

  ghost function FreshTtl(p: Payload, fetchedAt: int): int {
    if p.matches.None? || p.matches.value == [] then EMPTY_TTL_MS
    else if AnyLive(p, fetchedAt) then LIVE_TTL_MS
    else if AnySoon(p, fetchedAt) then NEAR_LIVE_TTL_MS
    else FUTURE_TTL_MS
  }

  method SportsScheduleFreshTtlMs(p: Payload, now: int) returns (ttl: int)
    ensures ttl == FreshTtl(p, now)
  {
    if p.matches.None? {
      return EMPTY_TTL_MS;
    }
    var matches := p.matches.value;
    if matches == [] {
      return EMPTY_TTL_MS;
    }
    var startsSoon := false;
    for i := 0 to |matches|
      invariant forall j :: 0 <= j < i ==> !LiveAt(matches[j], now)
      invariant startsSoon <==> exists j :: 0 <= j < i && StartsSoon(matches[j], now)
    {
      if matches[i].start <= now && now < matches[i].end {
        assert LiveAt(matches[i], now);
        return LIVE_TTL_MS;
      }
      if matches[i].start > now && matches[i].start - now <= SOON_MS {
        assert StartsSoon(matches[i], now);
        startsSoon := true;
      }
    }
    ttl := if startsSoon then NEAR_LIVE_TTL_MS else FUTURE_TTL_MS;
  }

  /**
   Whatever is listed, a payload still counted fresh while a match in it is live is at
   most 180 seconds old, although fresh payloads may be half an hour old.
   */
  lemma LivePayloadIsRecent(p: Payload, fetchedAt: int, servedAt: int)
    requires fetchedAt <= servedAt <= fetchedAt + FreshTtl(p, fetchedAt)
    requires AnyLive(p, servedAt)
    ensures servedAt - fetchedAt <= NEAR_LIVE_TTL_MS
  {
    var i :| 0 <= i < |p.matches.value| && LiveAt(p.matches.value[i], servedAt);
    assert LiveAt(p.matches.value[i], fetchedAt) || StartsSoon(p.matches.value[i], fetchedAt)
        || servedAt > fetchedAt + FUTURE_TTL_MS;
  }

  /** The bound is reached: a match that starts right after the fetch is served 180 seconds late. */
  lemma BoundIsReached(fetchedAt: int)
    ensures var p := Payload("", Some([Match(fetchedAt + 1, fetchedAt + 1_000_000)]));
            FreshTtl(p, fetchedAt) == NEAR_LIVE_TTL_MS && AnyLive(p, fetchedAt + NEAR_LIVE_TTL_MS)
  {
    var p := Payload("", Some([Match(fetchedAt + 1, fetchedAt + 1_000_000)]));
    assert StartsSoon(p.matches.value[0], fetchedAt) && LiveAt(p.matches.value[0], fetchedAt + NEAR_LIVE_TTL_MS);
  }

  /**
   How long each kind of schedule is fresh: a minute while a match in it is live, three minutes
   while one starts within two hours, half an hour else, and five minutes if it lists nothing.
   */
  lemma Lifetimes(p: Payload, t: int)
    ensures p.matches == None || p.matches == Some([]) ==> FreshTtl(p, t) == 300_000
    ensures p.matches.Some? && p.matches.value != [] ==>
              var live := exists m :: m in p.matches.value && m.start <= t < m.end;
              var soon := exists m :: m in p.matches.value && t < m.start <= t + 7_200_000;
              FreshTtl(p, t) == if live then 60_000 else if soon then 180_000 else 1_800_000
  {
    if p.matches.Some? {
      var matches := p.matches.value;
      if m :| m in matches && m.start <= t < m.end {
        var i :| 0 <= i < |matches| && matches[i] == m;
        assert LiveAt(matches[i], t);
      }
      if m :| m in matches && t < m.start <= t + 7_200_000 {
        var i :| 0 <= i < |matches| && matches[i] == m;
        assert StartsSoon(matches[i], t);
      }
      if i :| 0 <= i < |matches| && LiveAt(matches[i], t) {
        assert matches[i] in matches;
      }
      if i :| 0 <= i < |matches| && StartsSoon(matches[i], t) {
        assert matches[i] in matches;
      }
    }
  }

  datatype Cached = Cached(payload: Payload, fetchedAt: int, freshUntil: int, staleUntil: int)

  class SportsScheduleCache {
    var entries: map<string, Cached>

    ghost predicate Valid()
      reads this
    {
      forall k :: k in entries ==>
        && entries[k].freshUntil == entries[k].fetchedAt + FreshTtl(entries[k].payload, entries[k].fetchedAt)
        && entries[k].staleUntil == entries[k].fetchedAt + STALE_IF_ERROR_MS
    }

    constructor ()
      ensures Valid() && entries == map[]
    {
      entries := map[];
    }

    /** A payload served as fresh, at or after its fetch, is recent whenever a match in it is live. */
    method Fresh(key: string, now: int) returns (r: Option<Payload>)
      requires Valid()
      ensures r.Some?
              <==> key in entries
                    && now <= entries[key].fetchedAt + FreshTtl(entries[key].payload, entries[key].fetchedAt)
      ensures r.Some? ==> r.value == entries[key].payload
      ensures r.Some? && AnyLive(r.value, now) ==> now - entries[key].fetchedAt <= NEAR_LIVE_TTL_MS
    {
      if key in entries && now <= entries[key].freshUntil {
        r := Some(entries[key].payload);
        if AnyLive(r.value, now) && now >= entries[key].fetchedAt {
          LivePayloadIsRecent(r.value, entries[key].fetchedAt, now);
        }
      } else {
        r := None;
      }
    }

    /** After a failed fetch the last payload is served for a day. */
    method Stale(key: string, now: int) returns (r: Option<Payload>)
      requires Valid()
      ensures r.Some? <==> key in entries && now - entries[key].fetchedAt <= 86_400_000
      ensures r.Some? ==> r.value == entries[key].payload
    {
      r := if key in entries && now <= entries[key].staleUntil then Some(entries[key].payload) else None;
    }

    method Insert(key: string, payload: Payload, fetchedAt: int)
      requires Valid()
      modifies this
      ensures Valid()
      ensures key in entries && entries[key].payload == payload && entries[key].fetchedAt == fetchedAt
      ensures entries == old(entries)[key := entries[key]]
    {
      var ttl := SportsScheduleFreshTtlMs(payload, fetchedAt);
      entries := entries[key := Cached(payload, fetchedAt, fetchedAt + ttl, fetchedAt + STALE_IF_ERROR_MS)];
    }
  }
}
