/**
 The service worker's artwork warm-up: at most three downloads at a time, at most a
 hundred queued or running, one promise per URL.
 */
module WarmQueue {
  import opened Options

  const WARM_CACHE_LIMIT := 100
  const WARM_CACHE_CONCURRENCY := 3

  datatype Url = Url(href: string)

  /** A queued download; `promise` names the promise its completion resolves. */
  datatype Job = Job(url: Url, promise: nat)

  /**
   `running` holds the downloads whose callbacks are outstanding. The last four fields
   are the history: jobs accepted, jobs started, promises resolved, promises made.
   */
  datatype Queue = Queue(
    pending: seq<Job>, byUrl: map<Url, nat>, active: nat, running: map<Url, nat>,
    accepted: seq<Job>, started: seq<Job>, resolved: seq<nat>, promises: nat)

  const EMPTY_QUEUE := Queue([], map[], 0, map[], [], [], [], 0)

  function Start(q: Queue): Queue
    requires q.pending != []
  {
    var job := q.pending[0];
    q.(pending := q.pending[1..], active := q.active + 1,
       running := q.running[job.url := job.promise], started := q.started + [job])
  }

  function Drain(q: Queue): Queue
    decreases |q.pending|
  {
    if q.active < WARM_CACHE_CONCURRENCY && q.pending != [] then Drain(Start(q)) else q
  }

  function Add(q: Queue, url: Url): Queue {
    var job := Job(url, q.promises);
    q.(byUrl := q.byUrl[url := job.promise], pending := q.pending + [job],
       accepted := q.accepted + [job], promises := q.promises + 1)
  }

  /** The queue afterwards, and the promise handed out; none when the limit is reached. */
  function Enqueue(q: Queue, url: Url): (Queue, Option<nat>) {
    if url in q.byUrl then (q, Some(q.byUrl[url]))
    else if |q.byUrl| >= WARM_CACHE_LIMIT then (q, None)
    else
      (Drain(Add(q, url)), Some(q.promises))
  }

  /** A download ended, well or badly. */
  function Finish(q: Queue, url: Url): Queue
    requires url in q.running && q.active > 0
  {
    Drain(q.(active := q.active - 1, byUrl := q.byUrl - {url}, running := q.running - {url},
             resolved := q.resolved + [q.running[url]]))
  }

  // ----- Invariant ---------------------------------------------------------------

  ghost predicate Bounded(q: Queue) {
    && q.active == |q.running| <= WARM_CACHE_CONCURRENCY
    && |q.byUrl| == |q.pending| + q.active <= WARM_CACHE_LIMIT
  }

  ghost predicate IsPending(pending: seq<Job>, url: Url) {
    exists i :: 0 <= i < |pending| && pending[i].url == url
  }

  /** The URL map is exactly what is pending and what is running, without duplicates. */
  ghost predicate MapExact(pending: seq<Job>, byUrl: map<Url, nat>, running: map<Url, nat>) {
    && (forall i :: 0 <= i < |pending| ==> pending[i].url in byUrl && byUrl[pending[i].url] == pending[i].promise)
    && (forall i :: 0 <= i < |pending| ==> pending[i].url !in running)
    && (forall i, j :: 0 <= i < j < |pending| ==> pending[i].url != pending[j].url)
    && (forall u :: u in running ==> u in byUrl && byUrl[u] == running[u])
    && (forall u :: u in byUrl ==> u in running || IsPending(pending, u))
  }

  ghost predicate IsOpen(byUrl: map<Url, nat>, promise: nat) {
    exists u :: u in byUrl && byUrl[u] == promise
  }

  /** Every promise made is either resolved, once, or open in the map, once. */
  ghost predicate PromisesExact(byUrl: map<Url, nat>, resolved: seq<nat>, promises: nat) {
    && (forall u, v :: u in byUrl && v in byUrl && u != v ==> byUrl[u] != byUrl[v])
    && (forall i, j :: 0 <= i < j < |resolved| ==> resolved[i] != resolved[j])
    && (forall u :: u in byUrl ==> byUrl[u] < promises && byUrl[u] !in resolved)
    && (forall p :: p in resolved ==> p < promises)
    && (forall p: nat :: p < promises ==> p in resolved || IsOpen(byUrl, p))
  }

  /** Everything but the demand that idle slots are filled. */
  ghost predicate Consistent(q: Queue) {
    && Bounded(q)
    && MapExact(q.pending, q.byUrl, q.running)
    && PromisesExact(q.byUrl, q.resolved, q.promises)
    && q.accepted == q.started + q.pending   // first in, first out
  }

  ghost predicate Inv(q: Queue) {
    Consistent(q) && (q.pending != [] ==> q.active == WARM_CACHE_CONCURRENCY)
  }

  lemma StartMapExact(pending: seq<Job>, byUrl: map<Url, nat>, running: map<Url, nat>)
    requires MapExact(pending, byUrl, running) && pending != []
    ensures MapExact(pending[1..], byUrl, running[pending[0].url := pending[0].promise])
  {
    var rest := pending[1..];
    forall u | u in byUrl && u !in running && u != pending[0].url ensures IsPending(rest, u) {
      var i :| 0 <= i < |pending| && pending[i].url == u;
      assert rest[i - 1].url == u;
    }
  }

  lemma StartKeepsConsistent(q: Queue)
    requires Consistent(q) && q.pending != [] && q.active < WARM_CACHE_CONCURRENCY
    ensures Consistent(Start(q))
  {
    var q' := Start(q);
    var job := q.pending[0];
    StartMapExact(q.pending, q.byUrl, q.running);
    OneMoreKey(q.running, job.url, job.promise);
    StartKeepsOrder(q.started, q.pending);
  }

  lemma OneMoreKey(m: map<Url, nat>, url: Url, promise: nat)
    requires url !in m
    ensures |m[url := promise]| == |m| + 1
  {
    assert m[url := promise].Keys == m.Keys + {url};
  }

  lemma StartKeepsOrder(started: seq<Job>, pending: seq<Job>)
    requires pending != []
    ensures (started + [pending[0]]) + pending[1..] == started + pending
  {
  }

  lemma {:induction false} DrainKeepsConsistent(q: Queue)
    requires Consistent(q)
    ensures Inv(Drain(q))
    ensures |Drain(q).pending| + Drain(q).active == |q.pending| + q.active
    ensures Drain(q).byUrl == q.byUrl && Drain(q).resolved == q.resolved && Drain(q).promises == q.promises
    decreases |q.pending|
  {
    if q.active < WARM_CACHE_CONCURRENCY && q.pending != [] {
      StartKeepsConsistent(q);
      DrainKeepsConsistent(Start(q));
    }
  }

  /** Every download that was running is still running, for the same promise. */
  predicate GoesOn(running: map<Url, nat>, after: map<Url, nat>) {
    forall u :: u in running ==> u in after && after[u] == running[u]
  }

  /** What runs now and did not before was pending. */
  ghost predicate NewWerePending(running: map<Url, nat>, pending: seq<Job>, after: map<Url, nat>) {
    forall u :: u in after && u !in running ==> IsPending(pending, u)
  }

  lemma StartStartsPending(pending: seq<Job>, byUrl: map<Url, nat>, running: map<Url, nat>)
    requires MapExact(pending, byUrl, running) && pending != []
    ensures var after := running[pending[0].url := pending[0].promise];
            GoesOn(running, after) && NewWerePending(running, pending, after)
    ensures forall u :: IsPending(pending[1..], u) ==> IsPending(pending, u)
  {
    assert IsPending(pending, pending[0].url);
    forall u | IsPending(pending[1..], u) ensures IsPending(pending, u) {
      var i :| 0 <= i < |pending[1..]| && pending[1..][i].url == u;
      assert pending[i + 1].url == u;
    }
  }

  lemma StartedThen(running: map<Url, nat>, pending: seq<Job>, next: map<Url, nat>, rest: seq<Job>, after: map<Url,
                    nat>)
    requires GoesOn(running, next) && GoesOn(next, after)
    requires NewWerePending(running, pending, next) && NewWerePending(next, rest, after)
    requires forall u :: IsPending(rest, u) ==> IsPending(pending, u)
    ensures GoesOn(running, after) && NewWerePending(running, pending, after)
  {
  }

  /** Draining only starts jobs that were pending: what runs goes on, and nothing else is touched. */
  lemma {:induction false} DrainOnlyStarts(q: Queue)
    requires Consistent(q)
    ensures var d := Drain(q);
            && d.accepted == q.accepted && d.byUrl == q.byUrl && d.resolved == q.resolved && d.promises == q.promises
            && q.started <= d.started && GoesOn(q.running, d.running)
            && NewWerePending(q.running, q.pending, d.running)
    decreases |q.pending|
  {
    if q.active < WARM_CACHE_CONCURRENCY && q.pending != [] {
      var s := Start(q);
      StartKeepsConsistent(q);
      DrainOnlyStarts(s);
      StartStartsPending(q.pending, q.byUrl, q.running);
      StartedThen(q.running, q.pending, s.running, s.pending, Drain(s).running);
    }
  }

  /** A new URL adds one job and one promise, after all the others; whatever was queued or running stays so. */
  lemma EnqueueOnlyAdds(q: Queue, url: Url)
    requires Inv(q) && url !in q.byUrl && |q.byUrl| < WARM_CACHE_LIMIT
    ensures var (q', promise) := Enqueue(q, url);
            && promise == Some(q.promises) && q'.promises == q.promises + 1
            && q'.accepted == q.accepted + [Job(url, q.promises)]
            && q'.byUrl == q.byUrl[url := q.promises] && q'.resolved == q.resolved
            && q.started <= q'.started && GoesOn(q.running, q'.running)
            && NewWerePending(q.running, q.pending + [Job(url, q.promises)], q'.running)
  {
    var added := Add(q, url);
    AddKeepsConsistent(q, url);
    DrainOnlyStarts(added);
  }

  /** The end of a download ends that one: the others go on, and only pending ones start. */
  lemma FinishOnlyEndsOne(q: Queue, url: Url)
    requires Inv(q) && url in q.running && q.active > 0
    ensures var q' := Finish(q, url);
            && q'.accepted == q.accepted && q'.byUrl == q.byUrl - {url} && url !in q'.running
            && q.started <= q'.started && GoesOn(q.running - {url}, q'.running)
            && NewWerePending(q.running - {url}, q.pending, q'.running)
  {
    var q1 := q.(active := q.active - 1, byUrl := q.byUrl - {url}, running := q.running - {url},
                 resolved := q.resolved + [q.running[url]]);
    RemoveMapExact(q.pending, q.byUrl, q.running, url);
    ResolvePromise(q.byUrl, q.resolved, q.promises, url);
    OneKeyLess(q.running, url);
    OneKeyLess(q.byUrl, url);
    DrainOnlyStarts(q1);
  }

  lemma AddMapExact(pending: seq<Job>, byUrl: map<Url, nat>, running: map<Url, nat>, job: Job)
    requires MapExact(pending, byUrl, running) && job.url !in byUrl
    ensures MapExact(pending + [job], byUrl[job.url := job.promise], running)
  {
    var pending' := pending + [job];
    assert pending'[|pending|] == job;
    forall u | u in byUrl && u !in running ensures IsPending(pending', u) {
      var i :| 0 <= i < |pending| && pending[i].url == u;
      assert pending'[i].url == u;
    }
  }

  lemma AddPromise(byUrl: map<Url, nat>, resolved: seq<nat>, promises: nat, url: Url)
    requires PromisesExact(byUrl, resolved, promises) && url !in byUrl
    ensures PromisesExact(byUrl[url := promises], resolved, promises + 1)
  {
    var byUrl' := byUrl[url := promises];
    assert byUrl'[url] == promises;
    forall p: nat | p < promises && p !in resolved ensures IsOpen(byUrl', p) {
      var u :| u in byUrl && byUrl[u] == p;
      assert byUrl'[u] == p;
    }
  }

  lemma AddKeepsConsistent(q: Queue, url: Url)
    requires Consistent(q) && url !in q.byUrl && |q.byUrl| < WARM_CACHE_LIMIT
    ensures Consistent(Add(q, url))
  {
    var job := Job(url, q.promises);
    AddMapExact(q.pending, q.byUrl, q.running, job);
    AddPromise(q.byUrl, q.resolved, q.promises, url);
    OneMoreKey(q.byUrl, url, q.promises);
    assert q.accepted + [job] == q.started + (q.pending + [job]);
  }

  lemma EnqueueKeepsInv(q: Queue, url: Url)
    requires Inv(q)
    ensures Inv(Enqueue(q, url).0)
    ensures var (q', promise) := Enqueue(q, url);
            && (promise.None? <==> url !in q.byUrl && |q.byUrl| == 100)
            && (promise.Some? ==> url in q'.byUrl && q'.byUrl[url] == promise.value)
            && (url in q.byUrl || promise.None? ==> q' == q)
  {
    if url !in q.byUrl && |q.byUrl| < WARM_CACHE_LIMIT {
      AddKeepsConsistent(q, url);
      DrainKeepsConsistent(Add(q, url));
    }
  }

  lemma RemoveMapExact(pending: seq<Job>, byUrl: map<Url, nat>, running: map<Url, nat>, url: Url)
    requires MapExact(pending, byUrl, running) && url in running
    ensures MapExact(pending, byUrl - {url}, running - {url})
  {
  }

  lemma ResolvePromise(byUrl: map<Url, nat>, resolved: seq<nat>, promises: nat, url: Url)
    requires PromisesExact(byUrl, resolved, promises) && url in byUrl
    ensures PromisesExact(byUrl - {url}, resolved + [byUrl[url]], promises)
  {
    var resolved' := resolved + [byUrl[url]];
    assert resolved'[|resolved|] == byUrl[url];
    forall p: nat | p < promises && p !in resolved && p != byUrl[url] ensures IsOpen(byUrl - {url}, p) {
      var u :| u in byUrl && byUrl[u] == p;
      assert (byUrl - {url})[u] == p;
    }
    assert forall p :: p in resolved' <==> p in resolved || p == byUrl[url];
  }

  lemma OneKeyLess(m: map<Url, nat>, url: Url)
    requires url in m
    ensures |m - {url}| == |m| - 1
  {
    assert (m - {url}).Keys == m.Keys - {url};
  }

  lemma FinishKeepsInv(q: Queue, url: Url)
    requires Inv(q) && url in q.running && q.active > 0
    ensures var q' := Finish(q, url);
            && Inv(q')
            && |q'.pending| + q'.active == |q.pending| + q.active - 1
            && q'.resolved == q.resolved + [q.byUrl[url]] && q'.promises == q.promises
  {
    var q1 := q.(active := q.active - 1, byUrl := q.byUrl - {url}, running := q.running - {url},
                 resolved := q.resolved + [q.running[url]]);
    RemoveMapExact(q.pending, q.byUrl, q.running, url);
    ResolvePromise(q.byUrl, q.resolved, q.promises, url);
    OneKeyLess(q.running, url);
    OneKeyLess(q.byUrl, url);
    DrainKeepsConsistent(q1);
  }

  // ----- Runs --------------------------------------------------------------------

  datatype Event = Queued(url: Url) | Finished(url: Url)

  predicate CanRun(q: Queue, events: seq<Event>)
    decreases |events|
  {
    events == [] ||
    match events[0]
    case Queued(url) => CanRun(Enqueue(q, url).0, events[1..])
    case Finished(url) => url in q.running && q.active > 0 && CanRun(Finish(q, url), events[1..])
  }

  function After(q: Queue, events: seq<Event>): Queue
    requires CanRun(q, events)
    decreases |events|
  {
    if events == [] then q
    else
      match events[0]
      case Queued(url) => After(Enqueue(q, url).0, events[1..])
      case Finished(url) => After(Finish(q, url), events[1..])
  }

  lemma {:induction false} RunKeepsInv(q: Queue, events: seq<Event>)
    requires Inv(q) && CanRun(q, events)
    ensures Inv(After(q, events))
    decreases |events|
  {
    if events != [] {
      match events[0] {
        case Queued(url) =>
          EnqueueKeepsInv(q, url);
          RunKeepsInv(Enqueue(q, url).0, events[1..]);
        case Finished(url) =>
          FinishKeepsInv(q, url);
          RunKeepsInv(Finish(q, url), events[1..]);
      }
    }
  }

  /** After every event of every run the queue is bounded, duplicate-free, FIFO and leaves no slot idle. */
  lemma EveryRun(events: seq<Event>)
    requires CanRun(EMPTY_QUEUE, events)
    ensures var q := After(EMPTY_QUEUE, events);
            && Inv(q) && |q.running| <= 3 && |q.pending| + |q.running| == |q.byUrl| <= 100
            && (q.pending != [] ==> |q.running| == 3)
  {
    RunKeepsInv(EMPTY_QUEUE, events);
  }

  /** While anything is queued or running, some download is running whose end can come. */
  lemma SomethingRuns(q: Queue) returns (url: Url)
    requires Inv(q) && |q.pending| + q.active > 0
    ensures url in q.running && q.active > 0
  {
    assert q.running != map[];
    url :| url in q.running;
  }

  /** As many endings as there are jobs, in any order, empty the queue and resolve every promise ever made. */
  lemma {:induction false} AllWorkDrains(q: Queue, events: seq<Event>)
    requires Inv(q) && CanRun(q, events)
    requires |events| == |q.pending| + q.active && forall e :: e in events ==> e.Finished?
    ensures var q' := After(q, events);
            q'.pending == [] && q'.byUrl == map[] && q'.promises == q.promises
            && forall p: nat :: p < q.promises ==> p in q'.resolved
    decreases |events|
  {
    if events != [] {
      assert events[0] in events;
      FinishKeepsInv(q, events[0].url);
      AllWorkDrains(Finish(q, events[0].url), events[1..]);
    }
  }

  // ----- The worker's variables ----------------------------------------------------

  class WarmScheduler {
    var pendingWarmJobs: seq<Job>
    var warmJobsByUrl: map<Url, nat>
    var activeWarmJobs: nat
    var runningWarmJobs: map<Url, nat>
    var promises: nat
    ghost var accepted: seq<Job>
    ghost var started: seq<Job>
    ghost var resolved: seq<nat>

    ghost function State(): Queue
      reads this
    {
      Queue(pendingWarmJobs, warmJobsByUrl, activeWarmJobs, runningWarmJobs, accepted, started, resolved, promises)
    }

    constructor ()
      ensures State() == EMPTY_QUEUE
    {
      pendingWarmJobs, warmJobsByUrl, activeWarmJobs, runningWarmJobs, promises := [], map[], 0, map[], 0;
      accepted, started, resolved := [], [], [];
    }

    method DrainWarmJobs()
      modifies this
      ensures State() == Drain(old(State()))
    {
      while activeWarmJobs < WARM_CACHE_CONCURRENCY && |pendingWarmJobs| > 0
        invariant Drain(State()) == Drain(old(State()))
        decreases |pendingWarmJobs|
      {
        var job := pendingWarmJobs[0];
        pendingWarmJobs := pendingWarmJobs[1..];
        activeWarmJobs := activeWarmJobs + 1;
        runningWarmJobs := runningWarmJobs[job.url := job.promise];
        started := started + [job];
      }
    }

    method QueueWarmUrl(url: Url) returns (promise: Option<nat>)
      modifies this
      ensures (State(), promise) == Enqueue(old(State()), url)
    {
      if url in warmJobsByUrl {
        return Some(warmJobsByUrl[url]);
      }
      if |warmJobsByUrl| >= WARM_CACHE_LIMIT {
        return None;
      }
      var job := Job(url, promises);
      promises := promises + 1;
      warmJobsByUrl := warmJobsByUrl[url := job.promise];
      pendingWarmJobs := pendingWarmJobs + [job];
      accepted := accepted + [job];
      DrainWarmJobs();
      return Some(job.promise);
    }

    /** The callback at the end of a download. */
    method OnFinished(url: Url)
      requires url in runningWarmJobs && activeWarmJobs > 0
      modifies this
      ensures State() == Finish(old(State()), url)
    {
      activeWarmJobs := activeWarmJobs - 1;
      warmJobsByUrl := warmJobsByUrl - {url};
      resolved := resolved + [runningWarmJobs[url]];
      runningWarmJobs := runningWarmJobs - {url};
      DrainWarmJobs();
    }
  }
}
