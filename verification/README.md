# StreamArena: verified cores

A model in Dafny of the parts of StreamArena that decide something hard, with proofs.
`dafny verify dfyconfig.toml` checks all of it. One module a file:

| modules | what they model |
|---|---|
| `KeyLock`, `ResolveProtocol`, `SingleFlight`, `ProviderBudget` | per-key locks and semaphores in a shared map, the cached single-flight resolve, the single flights of the live proxy, and the sweeps that drop unreferenced entries, as transition systems over any number of interleaved tasks |
| `MediaPlaylist`, `MediaServed`, `MediaExamples`, `MasterPlaylist`, `AttributeList`, `UriAttribute` | the HLS rewriter: the rolling window and its renumbering, against what a player reads and line by line, the 1080p cap, the edits of attribute lists and of URIs |
| `FormUrl`, `SignedPayload`, `LiveGrants`, `LiveRequests`, `GrantChain`, `RoutedPlaylists` | signed proxy URLs: the query format, the signed bytes, building and authorizing, arbitrary requests, what every URI of a playlist becomes, and chains of playlists in which one request leads to the next |
| `Eviction`, `RateLimit`, `ScheduleFreshness`, `WarmQueue` | bounded caches and limiters, as classes over the maps they update, against plain histories |
| `StoreRaces` | overlapping stores into one of those caches, as a transition system |
| `Calendar` | the two calendar conversions, against a count of days |
| `Slugs`, `Library`, `LibraryEntries` | the normaliser of the media library, told from the JSON, and writing and reading the library file |
| `Options`, `Counting`, `Text`, `Decimal` | what these share |

Clocks, the upstream's answers, HMAC, base64 and URL parsing are parameters. What is needed
of them is stated where it is needed: `LiveGrants.Lawful` (decoding undoes encoding; the
empty text is no URL; a parsed URL parses to itself, is trimmed, not empty and free of control
bytes) and
`Slugs.Lowers` (lower-casing leaves no capital ASCII letter and leaves slugs alone). Both
have instances; no cryptographic strength is assumed except where a lemma says so.

## What the proofs show of the code

Where a property does not hold of the code in full, the model keeps the code and the lemma
gives the exact condition.

- **Calendar.** `civil_from_unix_days` is documented as the inverse of the other conversion.
  It is from 0000-03-01 on. Before that its negative branch adds Hinnant's adjustment to a
  division that already floors, and is one day late, except on the last day of each era of
  400 years (`Calendar.DaysOfCivil`). The start-time parser takes days up to 31 in every
  month, so a 31st of June is accepted and falls on the 1st of July
  (`Calendar.ParsedDateRoundTrip`), and any hours and minutes (`Calendar.StartFallsOnItsDate`).
- **Rolling playlists.** What a player reads of a segment depends on the lines before it: the
  keys in effect, the map with the keys in effect when it was declared, and where a byte
  range without an offset continues the segment before. A tag declared only before a dropped
  segment is dropped with it, and a BYTERANGE before the first segment moves to the header
  and then applies to the first segment served. `MediaPlaylist.KeepsEffectiveTags` says on
  the upstream's lines when a player reads the same; playlists of any length from nine
  segments on fail it with a key or a map at the top only, with ranges that continue each
  other, and with a map declared again before its key (`MediaExamples.KeyAtTheTopIsLost`,
  `MediaExamples.MapAtTheTopIsLost`, `MediaExamples.ContinuedRangeIsLost`,
  `MediaExamples.MapBeforeKey`). No discontinuity number is served: a number in effect at the
  cut is lost unless it is 0 or set again (`MediaPlaylist.KeepsDiscontinuityNumbers`,
  `MediaExamples.SequenceNumberIsLost`). The upstream's own start tag may stay beside the one
  added (`MediaPlaylist.AtMostOneStartTag`, `MediaExamples.TwoStartTags`). When a stream
  ends, the playlist with the end tag is passed on whole, and the served media sequence may
  step back (`MediaPlaylist.EndOfStreamMayStepBack`, `MediaExamples.EndTagStepsBack`).
- **1080p cap.** Outside section 4.3.4.2 of RFC 8216 a removed tag can supersede a kept one,
  whose variant then gets the wrong URI (`MasterPlaylist.SupersededTag`);
  `MasterPlaylist.CapIsFilterIffNothingMisread` says where.
- **CODECS edit.** A trailing empty attribute is lost on re-reading, so the edit is not
  idempotent on `T:A,,` (`AttributeList.EmptyLastAttribute`, `AttributeList.EditIsIdempotent`).
- **Referers.** The limit of 2048 bytes is checked before normalisation. A referer that grows
  past it when normalised is signed, but not read back, and its URL is never authorized
  (`LiveGrants.SamePayload`, `LiveGrants.LongRefererIsNotReadBack`).
- **Playlist cache.** The cache key joins its fields with bars, which the query of a URL may
  contain. Two requests with different sources and referers can share a key, and a cached
  playlist (`SignedPayload.CacheKeyCollision`); never two that differ in trust, expiry or
  session. `SignedPayload.CacheKeyIdentifiesIff` gives the exact condition.
- **Bounded caches.** A store inserts, collects and removes in separate steps. However stores
  overlap, the budgets hold whenever none is under way (`StoreRaces.BudgetsHoldAtRest`), but
  an entry can be removed for being old just after it was stored again
  (`StoreRaces.NewestMayGo`): that a strictly newest entry survives holds of one store at a
  time.
- **Grants.** A listed host that is not public (http, for one) is served without its grant
  below a trusted playlist, and nothing below it is signed (`GrantChain.ListedSourceLosesGrant`,
  `GrantChain.NoGrantReappears`). Below a session-bound root this cannot happen.
- **Failure cooldown.** The sweep of the limiter is invisible; the sweep of `FailureBackoff`
  is not, at the boundary of the retention and while a cooldown outlasts it
  (`RateLimit.SweepVisibility`, `RateLimit.SweepAtTheBoundaryShows`).
- **Library.** A number that is given and not positive is replaced by the position in the
  list, which is not limited to 999; a second pass limits it (`Library.NumberZeroIsNotStable`).
  `Library.ProjectionIff` gives the exact condition, `Library.SecondPass` exactly what changes.

## Model

| member | source | states |
|---|---|---|
| KeyLock.GetOrInsertKeepsCoherence | src/key_lock.rs:11-15 | taking a reference keeps every reference on the object its key has in the map |
| KeyLock.SweepKeepsCoherence | src/live.rs:1256-1261 | the test on the reference count is enough: a sweep over any of the entries never removes an object somebody refers to |
| KeyLock.IdleIffUnreferenced | src/live.rs:1256-1261 | of the entries it visits a sweep removes exactly those nobody refers to |
| KeyLock.SameKeySameObject | src/key_lock.rs:6-15 | two references are to one object exactly when they are for one key |
| KeyLock.LockMap.KeyLock | src/live.rs:1248-1254 | get-or-insert: the object in the map, or a new one |
| KeyLock.LockMap.PruneIdle | src/live.rs:1256-1261 | the sweep removes exactly the entries whose count is 1 |
| ResolveProtocol.StepKeepsInv | src/football.rs:2506-2579 | every step of any task, of cancellation, timeout, clock, lock sweep and cache pruning keeps the invariant: coherent references, one guard a lock, reads that still miss, permits conserved |
| ResolveProtocol.RunKeepsInv | src/football.rs:2506-2579 | so does every run |
| ResolveProtocol.MutualExclusion | src/football.rs:2529-2546 | in every reachable state at most one task is inside a key's critical section |
| ResolveProtocol.OneLockPerKey | src/football.rs:561-566 | in every reachable state all references to a key's lock are to the one in the map, sweeps included |
| ResolveProtocol.SweepRemovesIdle | src/football.rs:561-566 | a sweep of the locks removes, of those it visits, the ones nobody refers to, and changes nothing else |
| ResolveProtocol.ResolvesBounded | src/football.rs:568-581 | at most max(1, limit) resolves are running |
| ResolveProtocol.ResolvesOnlyOnMiss | src/football.rs:2531-2550 | a resolve starts, and goes on, only while no unexpired success or failure is cached for its key, however long it queued for the permit |
| ResolveProtocol.OneResolvePerLifetime | src/football.rs:2512-2560 | however many callers come, in every run no resolve for a key starts while a result or a failure is remembered for it, neither expired nor forgotten |
| ResolveProtocol.StoredIsResolvedOnce | src/football.rs:2550-2574 | in every run from the start: after a resolve that succeeded none starts for its key within a minute, after one that failed none within 45 seconds, unless that is forgotten |
| ResolveProtocol.NewcomersTakeNoLock | src/football.rs:2512-2527 | whoever comes while something is remembered for a key never takes the key's lock |
| ResolveProtocol.CallerAlone | src/football.rs:2506-2579 | one call on its own resolves, leaves the result or failure remembered (of an upstream too busy, nothing, so that the next call resolves again), and returns lock and permit |
| ResolveProtocol.CallerServedFromMemory | src/football.rs:2512-2527 | with a result remembered a call is over after the first read, with a failure after the second |
| ResolveProtocol.TaskStepsDecrease | src/football.rs:2506-2579 | each step of a task brings the whole system nearer its end |
| ResolveProtocol.NoDeadlock | src/football.rs:2529-2549 | while a task is unfinished some task can step, without cancellation or timeout |
| ResolveProtocol.EveryoneCanFinish | src/football.rs:2506-2579 | from every reachable state all tasks can finish, within a stated number of steps |
| ResolveProtocol.GuardOwnersDiffer | src/football.rs:2529-2530 | two guards are held for two different keys |
| SingleFlight.StepKeepsInv | src/live.rs:157-227 | every step of any viewer's request for a playlist or a segment, of going away, clock, lock sweep and eviction keeps the invariant: coherent references, one guard a lock, fetches that still miss |
| SingleFlight.RunKeepsInv | src/live.rs:473-524 | so does every run |
| SingleFlight.MutualExclusion | src/live.rs:171-172 | in every reachable state at most one request for a key fetches, whatever the sweep of the locks does |
| SingleFlight.OneFetchPerLifetime | src/live.rs:145-175 | however many viewers come, in every run no request for a key starts a fetch while what is stored for it is neither expired nor evicted |
| SingleFlight.StoredIsFetchedOnce | src/live.rs:145-175 | in every run from the start, a fetch that stored is the last for its key within the lifetime of what it stored, evictions aside |
| SingleFlight.ViewerAlone | src/live.rs:157-227 | one viewer on its own fetches, stores what may be stored, and returns the lock |
| SingleFlight.ViewerServedFromCache | src/live.rs:157-164 | with something stored the request is over after the first read |
| SingleFlight.NoDeadlock | src/live.rs:1238-1261 | while a request is unfinished some request can step, without anybody going away |
| SingleFlight.EveryoneCanFinish | src/live.rs:473-524 | from every reachable state all requests can finish, within a stated number of steps |
| ProviderBudget.ProviderConcurrencyBudgets.Enter | src/provider_budget.rs:25-33 | names are trimmed and lower-cased; a blank one gets no semaphore, any other the one in the map or a new full one |
| ProviderBudget.ProviderConcurrencyBudgets.PruneIdle | src/provider_budget.rs:44-49 | the sweep removes exactly the semaphores with all permits home and no reference but the map's |
| ProviderBudget.StepKeepsInv | src/provider_budget.rs:25-49 | every step of any call and of the sweep conserves the permits of every semaphore and keeps references coherent |
| ProviderBudget.RunKeepsInv | src/provider_budget.rs:25-49 | so does every run |
| ProviderBudget.HoldersOfKey | src/provider_budget.rs:25-33 | all permits held for a provider, in any spelling, are from the semaphore in the map |
| ProviderBudget.OutstandingBounded | src/provider_budget.rs:18-42 | in every reachable state no provider has more than its permits outstanding |
| ProviderBudget.OneSemaphorePerProvider | src/provider_budget.rs:44-49 | no sweep ever leads to a second semaphore beside one still held or awaited |
| ProviderBudget.GrantedIffOwnBudgetAllows | src/provider_budget.rs:9-42 | a waiting call can be granted iff its own provider has a permit to spare, whatever the others do |
| ProviderBudget.CallStepsDecrease | src/provider_budget.rs:25-42 | each step of a call, giving up included, brings that call nearer its end and changes no other |
| ProviderBudget.SpellingsAgree | src/provider_budget.rs:25-33 | names that differ only in the case of ASCII letters and in white space around them are one provider |
| ProviderBudget.SweepRemovesIdle | src/provider_budget.rs:44-49 | a sweep removes, of the semaphores it visits, those with every permit home and no reference but the map's, and changes nothing else |
| ProviderBudget.WithoutCountingTwoSemaphores | src/provider_budget.rs:44-49 | were references not counted, one sweep would lead to two semaphores for a provider |
| MediaPlaylist.ScanPlaylist | src/live.rs:3265-3341 | the line-by-line scan, against its specification |
| MediaPlaylist.TakeLine | src/live.rs:3273-3341 | one pass of that loop on a line as it came, against the step of the specification on the line with its URI proxied |
| MediaPlaylist.RewriteRollingPlaylist | src/live.rs:3343-3381 | the whole rolling rewrite, against its specification |
| MediaPlaylist.ScanIsFaithful | src/live.rs:3273-3341 | what the scan has put in header, blocks and pending lines reads, for a player, as the lines so far |
| MediaPlaylist.ServesTheEdge | src/live.rs:3351-3380 | what is served is the last min(8, n) segments, in order, each under its upstream number and with its duration, for every playlist |
| MediaPlaylist.KeepsEffectiveTags | src/live.rs:3285-3325 | every served segment keeps its keys, its map with the keys that apply to it, and its part of the resource, up to proxying, iff nothing is cut or the tags between the last dropped segment and the first served one declare every key format the former was read with, before their map, have a map if it had one, and need no byte range from before them |
| MediaServed.RewrittenLineByLine | src/live.rs:3484-3512 | of every line only the URI changes, to what the proxy makes of it: kind, format, method and text stay |
| MediaServed.ServedPlaylist | src/live.rs:3265-3381 | a rolling playlist is served as the upstream's header tags, the start tag, the number and the lines of the last min(8, n) segments, in order, each such line the upstream's with its URI proxied |
| MediaServed.HeaderTagsAreServed | src/live.rs:3285-3303 | every header tag of the upstream (target duration, version) is still served, with its text |
| MediaServed.ServedVod | src/live.rs:3383-3434 | an ended playlist is served line by line |
| UriAttribute.OnlyTheUriChanges | src/live.rs:3484-3512 | in the text of a tag what stands between the first `URI="` and the next quote is replaced, if it can be resolved, and nothing before or after it |
| UriAttribute.OthersStay | src/live.rs:3493-3505 | a text without a quoted URI stays as it is |
| UriAttribute.ReadsProxied | src/live.rs:3484-3512 | reading the new text finds the proxied URI at the same place, if that has no quote |
| MediaExamples.KeyAtTheTopIsLost | src/live.rs:3285-3325 | a key before the first segment only is lost to those served, however many are cut off |
| MediaExamples.MapAtTheTopIsLost | src/live.rs:3285-3325 | so is a map |
| MediaExamples.ContinuedRangeIsLost | src/live.rs:3285-3325 | from nine segments on, ranges that continue each other leave the first one served with nothing to continue |
| MediaExamples.MapBeforeKey | src/live.rs:3285-3325 | a key and a map at the top, and both again before the first served segment: nothing is lost if the key comes first again, and the key of the map if it comes second |
| MediaPlaylist.KeepsDiscontinuityNumbers | src/live.rs:3285-3325 | every served segment keeps its discontinuity number iff nothing is cut, the number of the last dropped one is 0, or the tags of the first served one set it |
| MediaExamples.SequenceNumberIsLost | src/live.rs:3285-3325 | a discontinuity, or a number set that is not 0, before the first segment only: it is lost, even if no discontinuity is cut off |
| MediaPlaylist.AtMostOneStartTag | src/live.rs:3355-3371 | of an upstream with at most one start tag, at most one is served iff the upstream's stands neither before the first segment nor with one of the last eight, or these last less than 4 seconds |
| MediaExamples.TwoStartTags | src/live.rs:3355-3371 | whatever follows an upstream start tag, if the last eight segments last 4 seconds two are served |
| MediaPlaylist.VodKeepsEverything | src/live.rs:3383-3434 | an ended playlist keeps all segments, numbers, keys and maps, up to proxying |
| MediaPlaylist.ReadingProxied | src/live.rs:3484-3512 | a player reads of the rewritten lines what it reads of the upstream's, with the URIs of segments, keys and maps proxied and nothing else changed |
| MediaPlaylist.EveryUriIsProxied | src/live.rs:3265-3381 | the rewritten playlist has no URI, of a key, map, tag or segment, that did not go through the proxy; only a rolling one without segments is passed on as it came |
| MediaPlaylist.StartTagFromServedSegments | src/live.rs:3355-3371 | the start tag is computed from the durations of exactly the segments served |
| MediaPlaylist.StartTagBounds | src/live.rs:3362-3371 | there is a start tag iff the window lasts 4 seconds; its offset is in [2, 18], at most half the window, and one of these two bounds |
| MediaPlaylist.ServedSequenceNeverDecreases | src/live.rs:3351-3373 | over any run of polls of a conforming upstream the served media sequence never decreases |
| MediaPlaylist.NumberNamesOneSegment | src/live.rs:3351-3380 | over any such run a served number always names the upstream's segment of that number |
| MediaPlaylist.EndOfStreamMayStepBack | src/live.rs:3250-3262 | with the end tag the served sequence steps back exactly when the last playlist reaches further back than the window served before |
| MediaExamples.EndTagStepsBack | src/live.rs:3250-3262 | nine segments or more polled, then the same with the end tag: the served sequence goes back to 0 |
| MasterPlaylist.AnyKeepable | src/live.rs:3075-3085 | whether any variant is within 1080 lines, or of unknown height |
| MasterPlaylist.CapExternalEmbedMasterTo1080p | src/live.rs:3086-3119 | the capping loop, against its specification |
| MasterPlaylist.CapIsIdempotent | src/live.rs:3075-3119 | capping twice is capping once, on every input |
| MasterPlaylist.CapIsSubsequence | src/live.rs:3075-3119 | the cap only leaves lines out |
| MasterPlaylist.CapKeepsWhatStays | src/live.rs:3086-3119 | line by line, in order: the cap removes the tags that are too high and the URIs that go with one, and nothing else |
| MasterPlaylist.NothingKeepable | src/live.rs:3075-3085 | with no variant within 1080 lines, or of unknown height, nothing is removed |
| MasterPlaylist.CapIsFilter | src/live.rs:3086-3119 | reading the capped master gives exactly the variants within the cap, iff no tag too high comes between a kept tag and the URI read with it |
| MasterPlaylist.CapIsFilterIffNothingMisread | src/live.rs:3086-3119 | the same by positions in the master: iff there is no kept tag, a later one too high with no kept tag and no URI that stays between, and then a URI that stays |
| MasterPlaylist.CapOfConformingMaster | src/live.rs:3075-3119 | on masters whose URI follows its tag it is that filter, or the identity when nothing qualifies, and the result conforms again |
| MasterPlaylist.SupersededTag | src/live.rs:3095-3112 | a master outside the RFC whose only kept tag ends up with a removed variant's URI |
| MasterPlaylist.VariantsOfRewritten | src/live.rs:3143-3182 | rewriting proxies the variants one by one and leaves heights and order alone |
| MasterPlaylist.LineRewritten | src/live.rs:3143-3182 | of every line only the URI changes, by the playlist proxy for variants, renditions and I-frame playlists and by the resource proxy for the rest |
| MasterPlaylist.EveryUriIsProxied | src/live.rs:3128-3187 | every URI of the rewritten master is the playlist or the resource proxy of a URI of the master |
| AttributeList.SplitAttributes | src/live.rs:3211-3230 | the quote-aware split, against its specification |
| AttributeList.RemoveStreamInfCodecsAttribute | src/live.rs:3211-3241 | the edited line, against its specification |
| AttributeList.ScanGivesAttributeParts | src/live.rs:3218-3230 | the parts are those of an attribute list: commas inside quotes never split |
| AttributeList.IsCodecsIff | src/live.rs:3232-3239 | an attribute is dropped iff, white space before it aside, it is named CODECS, in any case |
| AttributeList.FilterAppend | src/live.rs:3232-3239 | exactly those are dropped, and the others stay in order |
| AttributeList.TagStays | src/live.rs:3211-3241 | the tag in front stays, and so does a line without a colon |
| AttributeList.SplitOfJoin | src/live.rs:3211-3241 | splitting what was joined gives the parts back, but for a last empty one |
| AttributeList.EditIsExact | src/live.rs:3211-3241 | re-splitting the edited line gives the original attributes minus those named CODECS, in order, iff the last one kept is not empty |
| AttributeList.EditIsIdempotent | src/live.rs:3211-3241 | the edit is idempotent iff the last one kept is not an empty one after others |
| AttributeList.EditWithoutEmptyAttributes | src/live.rs:3211-3241 | on lists without empty attributes it is exact and idempotent |
| AttributeList.EmptyLastAttribute | src/live.rs:3211-3241 | a line that the edit changes when applied again |
| FormUrl.EncodeByteIs | src/live.rs:1853-1855 | what is written for each byte: itself, a plus for a blank, or `%` and two upper-case digits |
| FormUrl.DecodeOfEncode | src/live.rs:1853-1855 | a value is read back whatever bytes it has |
| FormUrl.DecodeIs | src/live.rs:1681-1685 | what any text is decoded to: a plus is a blank, `%` and two hexadecimal digits a byte, all else itself |
| FormUrl.HexValueIs | src/live.rs:1681-1685 | the hexadecimal digits, in either case |
| FormUrl.ParseIs | src/live.rs:1681-1685 | any query is cut at each `&`, and empty pieces give nothing |
| FormUrl.PieceIs | src/live.rs:1681-1685 | a piece is cut at its first `=`, and without one has an empty value |
| FormUrl.ParseOfQuery | src/live.rs:1681-1685 | parsing a built query gives back exactly the pairs, in order |
| SignedPayload.PayloadInjective | src/live.rs:2908-2932 | over NUL-free fields the signed bytes are equal iff kind, input, referer, expiry and binding are |
| LiveRequests.PayloadText | src/live.rs:2908-2932 | the signed bytes, field by field |
| SignedPayload.CacheKeySeparatesGrants | src/live.rs:1274-1287 | requests that share a cached playlist agree on trust, directness, expiry and session, whatever bars their URLs contain, and on source and referer when these have none |
| SignedPayload.CacheKeyCollides | src/live.rs:1274-1287 | the key of source a with referer b, bar, c is that of source a, bar, b with referer c, whatever these are |
| SignedPayload.CacheKeyCollision | src/live.rs:1274-1287 | such a pair, with different sources and referers |
| SignedPayload.CacheKeyIdentifiesIff | src/live.rs:1274-1287 | every request with the key of a given one has its source and referer iff neither of these contains a bar |
| LiveGrants.ParametersRoundTrip | src/live.rs:1681-1685 | each parameter of a built query is read back as it was written |
| LiveGrants.ParamsOfProxyUrl | src/live.rs:2587-2648 | the handlers read from a proxy URL exactly the parameters the builder put in |
| LiveGrants.ExpiryRoundTrip | src/live.rs:2773-2785 | a rendered expiry is read back iff it is a non-negative i64 in its window |
| LiveGrants.ExpiryIsCanonical | src/live.rs:2773-2785 | of all texts only the canonical rendering of an expiry is read as it, so a signed URL has one spelling of its expiry |
| LiveGrants.RefererSeen | src/live.rs:1834-1851 | a request sees the referer that was written iff it has at most 2048 bytes |
| LiveGrants.FieldsRoundTrip | src/live.rs:2587-2648 | a signed URL, with or without legacy signature and `vod`, has exactly the fields it was built from |
| LiveGrants.AuthorizeRoundTrip | src/live.rs:2803-2858 | it is authorized, for its own expiry, iff the binding is well formed, the expiry is in its window, and the grant seen has the code of the grant signed |
| LiveGrants.SameGrant | src/live.rs:1834-1851 | the two grants are one iff the normal form of the referer has at most 2048 bytes |
| LiveGrants.SamePayload | src/live.rs:2908-2932 | and so are their signed bytes |
| LiveGrants.SignedUrlIsServed | src/live.rs:1695-1759 | the handler serves a signed URL with exactly the source, referer, expiry and session signed, iff it comes in the window and to the session |
| LiveGrants.TrustedIff | src/live.rs:2691-2718 | exactly when a signed URL is trusted |
| LiveRequests.ServedIff | src/live.rs:1695-1759 | exactly which requests are served: without a session those for listed sources and the trusted ones, with one the trusted ones of that session |
| LiveRequests.ServedAs | src/live.rs:1695-1759 | and as what: the source asked for, the normal referer, the expiry that authorized it, direct iff trusted, without a session and asked for |
| LiveRequests.NoSource | src/live.rs:1700-1709 | a request whose input is missing or no URL is refused |
| LiveRequests.ListedIsServedPlain | src/live.rs:1742-1744 | a listed source, http or https, is served untrusted without any signature |
| LiveRequests.AuthorizedUntilIff | src/live.rs:2803-2847 | parameters are authorized until an expiry iff that is written canonically, in its window, and signed for source, referer and session |
| LiveRequests.AuthorizedByLegacyIff | src/live.rs:2849-2858 | parameters without expiry and session are authorized iff the legacy code is right and still accepted |
| LiveRequests.LegacyEnds | src/live.rs:2787-2798 | a legacy code is accepted at most a minute past the end that is configured, and never without one |
| LiveRequests.WindowIs | src/live.rs:2773-2785 | the window reaches from a minute before to six hours and a minute after, saturation or not |
| LiveRequests.BindingIsPlain | src/live.rs:1868-1880 | a session binding has 43 characters that a query carries as they are |
| LiveRequests.InputIff | src/live.rs:3018-3022 | the normal form of an input: that of the URL it is, or else the text trimmed |
| LiveRequests.RefererIff | src/live.rs:1834-1851 | exactly when a referer has a normal form, and which |
| LiveGrants.LongRefererIsNotReadBack | src/live.rs:1834-1851 | where different messages have different codes, a URL signed with a referer that outgrew the limit is never authorized |
| LiveGrants.LongRefererExample | src/live.rs:1834-1851 | such a referer, in a world where this is so |
| LiveGrants.PublicExpirySteps | src/live.rs:1917-1922 | new grants share their expiry for a quarter of an hour, never last over four hours, never under three and three quarters, and are in their window |
| GrantChain.EveryUriIsChild | src/live.rs:180-197 | whatever the upstream playlist contains, every URI it is served with is a proxy URL with the grant of the request, or is off the proxy |
| RoutedPlaylists.RouteRoutes | src/live.rs:3332-3340 | what a URI is served as: itself if it cannot be resolved, the direct URL for direct requests and hosts, and else a proxy URL that asks for exactly what it resolves to, with the request's referer and grant |
| RoutedPlaylists.RequestForUri | src/live.rs:1695-1759 | the request for that URL, if served, has as source what the URI resolves to, and the referer passed on |
| RoutedPlaylists.MasterIsServed | src/live.rs:3128-3187 | a master is served line by line, capped exactly for trusted, relayed requests without a full ladder; variants, renditions and I-frame playlists go to the playlist handler, the rest to the resource handler |
| RoutedPlaylists.VodIsServed | src/live.rs:3383-3434 | an ended playlist is served line by line, every URI routed with `vod` |
| RoutedPlaylists.RollingIsServed | src/live.rs:3265-3381 | a rolling one is header tags, start tag, number and last segments, every URI routed without `vod` |
| GrantChain.UnsignedUrl | src/live.rs:2594-2606 | without a grant a URL has no marker and no session |
| GrantChain.OnlyItsOwnExpiry | src/live.rs:2824-2847 | signed fields are authorized for their own expiry or not at all |
| GrantChain.ChildInherits | src/live.rs:1695-1759 | a request for a URL of a playlist has the grant of the playlist's request, or none; none is possible only without a session and for listed sources |
| GrantChain.GrantIsInherited | src/live.rs:180-197 | any number of generations down, whatever the playlists, a trusted request has the expiry and the session of the root and comes within that expiry; below a session-bound root every request is trusted and of that session |
| GrantChain.NoGrantReappears | src/live.rs:180-197 | below a request without a grant there are none |
| GrantChain.ChildIsTrustedIff | src/live.rs:2691-2728 | exactly when a child of a trusted request is trusted again |
| GrantChain.ListedSourceLosesGrant | src/live.rs:1715-1745 | a listed source that is not public is served without the grant of its playlist |
| GrantChain.ListedSourceExample | src/live.rs:2658-2670 | there are such sources |
| Eviction.SortByAge | src/live.rs:1074-1074 | the sort by age lists every key once, oldest first |
| Eviction.EvictExpiredThenOldest | src/live.rs:1050-1082 | what remains is the unexpired entries minus the shortest oldest prefix that meets both budgets |
| Eviction.EvictionIsDetermined | src/live.rs:1060-1082 | with distinct ages the survivors are determined, whatever the sort does |
| Eviction.EvictionMeetsBudgets | src/live.rs:1050-1082 | both budgets hold, nothing expired remains, what remains is as stored |
| Eviction.SurvivorsAreNewer | src/live.rs:1074-1081 | every survivor is at least as new as every unexpired entry removed |
| Eviction.NoEvictionWithinBudgets | src/live.rs:1071-1073 | without pressure nothing unexpired is removed |
| Eviction.NewestSurvives | src/live.rs:1075-1081 | of one store at a time: a strictly newest entry survives iff the budgets have room for it alone |
| StoreRaces.StepKeepsInv | src/live.rs:1019-1082 | every step of overlapping stores keeps: the budgets are met, or some store under way knows enough to see to it |
| StoreRaces.BudgetsHoldAtRest | src/live.rs:1019-1082 | after any run of overlapping stores both budgets hold whenever none is under way |
| StoreRaces.NewestMayGo | src/live.rs:1074-1081 | a run of three stores after which the newest entry, within the budget, is gone |
| Eviction.LiveSegmentOutputCache.GetFresh | src/live.rs:1118-1124 | the last value stored for the key, if unexpired, or nothing |
| Eviction.LiveSegmentOutputCache.Store | src/live.rs:1126-1146 | an empty or oversized body changes nothing; any other is stored and the policy applied; both budgets hold after every operation, with no other store in between |
| Eviction.LiveSegmentOutputCache.Prune | src/live.rs:1148-1152 | exactly the expired entries go |
| Eviction.LiveHlsPlaylistCache.GetFresh | src/live.rs:1011-1017 | the last value stored for the key, if unexpired, or nothing |
| Eviction.LiveHlsPlaylistCache.Store | src/live.rs:1019-1037 | every body is stored with its own lifetime and the policy applied; both budgets hold, with no other store in between |
| Eviction.LiveHlsPlaylistCache.Prune | src/live.rs:1039-1043 | exactly the expired entries go |
| Eviction.Trim | src/football.rs:583-617 | the trim of the resolve cache is the same policy with no byte budget |
| Eviction.SportsStreamResolveCache.Fresh | src/football.rs:523-528 | a remembered resolve, up to and including its expiry |
| Eviction.SportsStreamResolveCache.Insert | src/football.rs:530-540 | stored for a minute, then trimmed to 512, with no other insertion in between |
| Eviction.SportsStreamResolveCache.FreshFailure | src/football.rs:542-547 | a remembered failure, up to and including its expiry |
| Eviction.SportsStreamResolveCache.InsertFailure | src/football.rs:549-559 | stored for 45 seconds, then trimmed to 512, with no other insertion in between |
| Eviction.SportsStreamResolveCache.Prune | src/football.rs:619-623 | of either map an entry stays iff it has not expired, and is then as it was |
| RateLimit.RateLimiter.CheckAndRecord | src/rate_limit.rs:123-137 | one attempt, against the step function |
| RateLimit.RateLimiter.Prune | src/rate_limit.rs:140-150 | a key stays iff it has an attempt within the window, with exactly its attempts within the window |
| RateLimit.RefinesLog | src/rate_limit.rs:123-150 | over every chronological run the answers are those of an unbounded log: accepted iff fewer than the limit were accepted in the last window |
| RateLimit.SweepsAreInvisible | src/rate_limit.rs:140-150 | leaving out the sweeps changes no answer |
| RateLimit.NoWindowOverfull | src/rate_limit.rs:131-136 | no window of that length ever holds more than the limit |
| RateLimit.KeysIndependent | src/rate_limit.rs:130-137 | the limiter answers the attempts of a key as it would without those of the others |
| RateLimit.FailureBackoff.RetryAfterMs | src/rate_limit.rs:73-80 | never negative, zero iff there is no entry or its time has come, and else the time left |
| RateLimit.FailureBackoff.RecordFailure | src/rate_limit.rs:82-109 | the new entry, the exact delay of its count, and the time to retry; no other key changes |
| RateLimit.FailureBackoff.RecordSuccess | src/rate_limit.rs:58-63 | the key is forgotten; every other is present as before, with its entry |
| RateLimit.FailureBackoff.Prune | src/rate_limit.rs:65-71 | a key stays iff its last failure is within the retention, with its entry |
| RateLimit.FailureShape | src/rate_limit.rs:82-109 | saturation never changes a delay |
| RateLimit.CooldownDoubles | src/rate_limit.rs:87-99 | the k-th failure in a row is answered by base * 2^(min(k, 31) - 1), capped, whatever came before |
| RateLimit.DelayGrows | src/rate_limit.rs:93-99 | delays double up to the cap and never shrink |
| RateLimit.SweepVisibility | src/rate_limit.rs:65-71 | dropping an entry changes no later answer iff it is strictly older than the retention and its cooldown is over |
| RateLimit.SweepAtTheBoundaryShows | src/rate_limit.rs:65-71 | an entry exactly as old as the retention when it is swept: the next failure is the first again, and its cooldown half as long |
| ScheduleFreshness.SportsScheduleFreshTtlMs | src/football.rs:734-765 | the loop finds whether a match is live, or else starts within two hours |
| ScheduleFreshness.LivePayloadIsRecent | src/football.rs:734-765 | a payload still fresh while a listed match is live is at most 180 seconds old |
| ScheduleFreshness.Lifetimes | src/football.rs:734-765 | a minute while a listed match is live, three minutes while one starts within two hours, half an hour else, five minutes for an empty list |
| ScheduleFreshness.BoundIsReached | src/football.rs:755-764 | and may be exactly that old |
| ScheduleFreshness.SportsScheduleCache.Fresh | src/football.rs:421-426 | fresh entries are served, recent ones if a match is live |
| ScheduleFreshness.SportsScheduleCache.Stale | src/football.rs:428-433 | after an error the last payload is served for a day |
| ScheduleFreshness.SportsScheduleCache.Insert | src/football.rs:435-447 | the entry, with both its limits, replaces the key's |
| WarmQueue.EnqueueKeepsInv | public/sw.js:443-454 | queueing keeps the invariant: at most 3 active, the URL map exactly pending plus active without duplicates and at most 100, nothing pending beside an idle slot, first in first out, every promise open once or resolved once |
| WarmQueue.FinishKeepsInv | public/sw.js:460-465 | so does a completion, which resolves its one promise and lowers pending plus active by one |
| WarmQueue.EnqueueOnlyAdds | public/sw.js:443-454 | a new URL adds one job and one promise after all the others; whatever was queued or running stays so |
| WarmQueue.FinishOnlyEndsOne | public/sw.js:460-465 | the end of a download ends that one; the others go on, and only queued ones start |
| WarmQueue.EveryRun | public/sw.js:443-467 | the invariant holds after every run of events |
| WarmQueue.SomethingRuns | public/sw.js:456-467 | while work is left, a download is running |
| WarmQueue.AllWorkDrains | public/sw.js:456-467 | once queueing stops, as many completions as there are jobs empty the queue |
| WarmQueue.WarmScheduler.DrainWarmJobs | public/sw.js:456-467 | the loop, against the step function |
| WarmQueue.WarmScheduler.QueueWarmUrl | public/sw.js:443-454 | one call, against the step function |
| WarmQueue.WarmScheduler.OnFinished | public/sw.js:460-465 | one completion, against the step function |
| Calendar.CountsDays | src/football.rs:2472-2479 | the conversion is the count of days of the Gregorian calendar |
| Calendar.NextDayIsOneMore | src/football.rs:2472-2479 | the next calendar day is one more |
| Calendar.CivilOfDays | src/home_bootstrap.rs:661-675 | every valid date from 0000-03-01 on comes back from its day number |
| Calendar.CivilIsValid | src/home_bootstrap.rs:661-675 | from then on every day number is the number of one valid date |
| Calendar.DaysOfCivil | src/home_bootstrap.rs:661-675 | the round trip of a day number holds iff it is from then on, or the last of an era |
| Calendar.BeforeTheEras | src/home_bootstrap.rs:662-664 | before that the result is a day late, but for the last day of an era |
| Calendar.ParsedDateRoundTrip | src/football.rs:2463-2466 | a date the parser accepts survives the round trip iff it exists |
| Calendar.StartFallsOnItsDate | src/football.rs:2463-2467 | the UTC day of a parsed start is the day written iff that exists and hours and minutes make a time within a day |
| Calendar.TimeOfStart | src/football.rs:2457-2467 | its time of day is the one written |
| Calendar.StartIsParsedIff | src/football.rs:2461-2463 | exactly which numbers are taken for a date |
| Calendar.TextOrder | src/home_bootstrap.rs:656-659 | for years up to 9999 dates as text are in calendar order |
| Calendar.CalendarOrder | src/football.rs:2472-2479 | and so are day numbers |
| Calendar.ReleasedIffNotAfterToday | src/home_bootstrap.rs:510-521 | the release check, which compares text, passes iff the date is not after today |
| Calendar.ReleasedAsTrimmed | src/home_bootstrap.rs:510-521 | white space around a release date does not count, and what is no date is never released |
| Slugs.NormalizeTwice | src/library.rs:307-315 | collapsing white space is idempotent |
| Slugs.WriteSlug | src/library.rs:318-328 | the loop, against the pieces of the text |
| Slugs.Slugify | src/library.rs:317-335 | the slug is the alphanumeric pieces in lower case joined by single dashes, or the fallback |
| Slugs.PiecesOfJoin | src/library.rs:307-335 | cutting what was joined gives back the pieces |
| Slugs.PiecesSplit | src/library.rs:307-335 | any separator cuts: the pieces of the whole are those before it and those after it |
| Slugs.SlugIsSlug | src/library.rs:317-335 | every slug is of lower-case letters and digits with single dashes between |
| Slugs.SlugOfSlug | src/library.rs:317-335 | a slug is its own slug |
| Library.SortSorts | src/library.rs:249-249 | the episodes are sorted by season and number |
| Library.SortIsStable | src/library.rs:249-249 | for each season and number the same episodes are left, in their order |
| Library.NormalizedMovieIsTidy | src/library.rs:186-210 | what a normalised movie is: trimmed, collapsed, with an id and a thumbnail |
| LibraryEntries.MovieIsKeptIff | src/library.rs:186-192 | a movie is kept iff it is an object whose title and source have a character that is not white space |
| LibraryEntries.MovieIs | src/library.rs:194-209 | where each field comes from: the same words as in the JSON, or the slug of the title, the default thumbnail, the current time |
| Library.TidyMovieStays | src/library.rs:186-210 | a movie that is so is normalised to itself |
| Library.NormalizedEpisodeIsTidy | src/library.rs:263-305 | what a normalised episode is |
| LibraryEntries.EpisodeIsKeptIff | src/library.rs:268-272 | an episode is kept iff it is an object whose source has words |
| LibraryEntries.EpisodeIs | src/library.rs:273-304 | where each field comes from, numbers and default titles included |
| Library.TidyEpisodeStays | src/library.rs:263-305 | such an episode stays, wherever it is listed, but for a number over 999 |
| Library.NormalizedSeriesIsTidy | src/library.rs:212-261 | what a normalised series is: a slug for its id, a kind that its title agrees with, sorted episodes |
| LibraryEntries.SeriesIsKeptIff | src/library.rs:212-247 | a series is kept iff it is an object whose title has words and one of whose episodes is kept |
| LibraryEntries.SeriesIs | src/library.rs:212-261 | where each field comes from: the slug of id or title, the kind asked for or inferred, and the kept episodes of the list, sorted, those of one number in the order of the list |
| LibraryEntries.LibraryIs | src/library.rs:158-184 | movies and series are those kept of the two lists, in their order |
| Library.TidySeriesStays | src/library.rs:212-261 | such a series stays but for episode numbers over 999, which become 999 in place |
| Library.SecondPass | src/library.rs:158-184 | normalising what a normalisation wrote changes exactly that |
| Library.ProjectionIff | src/library.rs:381-386 | normalisation is a projection iff no kept series lists, from its thousandth place on, an episode with a number that is given and not positive |
| Library.NumberZeroIsNotStable | src/library.rs:381-386 | a thousand episodes or more, the last with number 0: what is read is not what was written |
| Library.ReadsWhatWasWritten | src/library.rs:93-112 | with at most 999 episodes a series a read returns what the write returned, and in any case from the second write on |
| Library.LibraryStore.Read | src/library.rs:93-104 | a missing file is an empty library, an unreadable one an error, any other is normalised as it is read |
| Library.LibraryStore.Write | src/library.rs:106-112 | on success the file holds what is returned, and reading it back gives that under the same condition; a failing write leaves the file |
| Library.LibraryStore.Mutate | src/library.rs:78-91 | on an error, of the file, of the change or of the write, the file stays; otherwise it holds the normalised change |

## Left out

- The fetches, resolvers, child processes, gzip and DNS: a fetch or resolve is a nondeterministic success or failure.
- The order in which tokio serves waiters: any waiter may be next, so fairness between waiters is not stated.
- In the resolve protocol and the single flights, pruning and trimming of the two caches may drop any entries at any moment; what they drop exactly is in `Eviction`. The clock does not run backwards.
- DashMap shards: one map operation is one step, as the code's own locking makes it.
- Eviction.LiveSegmentOutputCache.Store: inserting and evicting are one step here, so what remains exactly is stated without other stores in between; `StoreRaces` has overlapping ones, and states the budgets only.
- Eviction.LiveHlsPlaylistCache.Store: likewise.
- Eviction.SportsStreamResolveCache.Insert: inserting and trimming are one step here, likewise.
- Eviction.SportsStreamResolveCache.InsertFailure: likewise.
- The mutexes of `RateLimit` and `Library` are not modelled: each operation is one step, as it is under its mutex.
- The date of a served segment that has no program date of its own and follows one that is dropped.
- HMAC, base64, HMAC keys and `Url` are arbitrary functions; the lossy UTF-8 decoding of query values is not modelled, text is its bytes.
- i64 is unbounded but in `FailureBackoff` and the expiry windows, where it saturates; the casts to 32 bits of the calendar are left out. In `Library` a number outside i64 is one that is not an `Int`.
- Durations are reals, and the start tag's three decimals are not modelled.
- How a line is classified (prefixes, the RESOLUTION attribute, numbers in tags) and what the text of tags says beyond their URI, key format and height. Lines with durations, dates and discontinuities are taken to have no URI.
- Tables of hosts: which are listed, public, direct, exempt from the cap, or sent without a referer; `strip_video_only_stream_inf_codecs` decides when the CODECS edit applies; the English-audio defaults.
- A text that is neither a master nor a media playlist, which is passed on as it came.
- Moving URLs to Worker or direct hosts, which changes neither path nor parameters; renewing expiring WideIPTV tokens, which changes a request's source only.
- The settings of the legacy rollout, which come from the environment: whether legacy signatures are emitted and until when they are accepted are parameters.
- The text of JSON: writing and parsing it is taken to be a round trip; fields the normaliser does not look at.
- `normalize_upload_content_type`, file names and titles, auth, e-mail, health, bootstrap persistence and the scripts: easy members or I/O.
