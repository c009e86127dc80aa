# VideoLibrary backend: a verified model

The backend records a view of a video, keeps the list of videos in Redis, and promises that the cached list catches up
with the database whatever crashes, times out or is retried on the way. This project models the three parts of the
backend whose correctness is hardest to see from any one function, and proves what they promise.

**The versioned list cache and the transactional outbox.** `Protocol` is one transition system. Its state is the videos
table with the history of committed increments, the outbox rows, the Redis payload and version keys, the open flights of
every application instance, and every call in progress. Instances, readers, increments, invalidations, outbox workers and
late SQL statements take atomic steps in any order. A call that takes no further step has crashed. INCR and DEL are
separate steps, because the pipeline is not a transaction; a caller may give up before or after a command it sent has
executed, and commands that a Redis client repeats may execute again. `ProtocolInvariant`, `ProtocolSteps` and
`DatabaseSteps` prove one inductive invariant; `Theorems` and `Counting` derive the guarantees, each over every run from
every initial state. `Freshness` and `ListFreshness` say exactly when a list can still miss a commit, `LateMarks` exactly
when a failed row can still become processed; `StaleJoiner` and `LateMarks` end in runs in which that happens, put together
with `Runs`. `Caching` and `Retries` say what the safety results leave open: that an undisturbed load is stored and served and
that flights end, and that no row is given up before its fifth claim. `CacheCode` and `WorkerCode` hold the code of the cache, the video service and the worker as methods on a shared
`System`, one remote command per step, with any number of steps of all the other calls between two commands. On a reliable
system, where no command of the method's own is lost, the contracts also promise success, and name what can still prevent it.

**One outbox worker.** `OutboxWorker` is the worker's batch over a table of its own, under one of four conditions, from nothing
failing to anything failing; `OutboxOutcomes` says what becomes of the rows when nothing fails and when every invalidation does;
`OutboxProgress` is its loop, and proves that it finishes and how far a row can be overtaken. `Backoff` is the retry delay in
Go's integer types. `WorkerCode.StatementSettles` ties the table to the transition system.

**The rate limiter.** `RateLimiter` has the bounded table as a class and the ideal unbounded windows it refines;
`RateLimitBound` has the exact bound over an interval of any number of windows.

**The OpenAPI bundler.** `Pointer` resolves JSON Pointers (sections 3 and 4 of RFC 6901) over trees of mappings, lists and
scalars; `Bundle` rewrites references and assembles the bundled document.

`Basics`, `Videos` and `Outbox` hold the shared vocabulary: the listing query, the history of commits, the SQL statements
over outbox rows.

Steps of the transition system and the code they stand for:

- `BeginDel`, `OfDel`: `Cache.Del` and the repair of a corrupt payload, backend/internal/repo/redis/cache.go:57-58, 138-139, 164-174
- `BeginGet`, `OfGet`: `GetOrLoadVideos` and `loadAndCacheVideos`, backend/internal/repo/redis/cache.go:53-126, with the script at 180-190
- `BeginIncrement`, `OfIncrement`: backend/internal/usecase/video.go:104-117, backend/internal/repo/persistent/video.go:67-112
- `BeginList`, `FinishList`: backend/internal/usecase/video.go:69-91
- `Fetch`, `OfHandle`, `ExecuteSql`: backend/internal/app/outbox.go:77-165 and the statements of backend/internal/repo/persistent/sqlc/outbox.sql.go
- `Tick`, `StartInstance`, `CorruptEntry`, `EvictEntry`, `InsertForeign`: the environment
- `RepeatIncr`, `RepeatScript`: a repeated INCR, and a repeated compare-and-set; a repeated DEL is an `EvictEntry`

Where the code and its comments differ, the model follows the code. `IncrementViews` is documented to invalidate the list
synchronously, yet a `ListVideos` call that joins an open flight can still be answered with an older list
(`StaleJoiner.JoinerCanMiss`); `ListFreshness.ListMissesWhen` is the exact condition. A failed row can become processed,
because the statement that marks a row processed does not look at `failed_at` (`LateMarks.FailedAndProcessed`);
`LateMarks.FailedMayBeProcessed` is the exact condition. A limit below one lets one request through in each window; the
bounds of `RateLimitBound` are stated for every limit.

`dafny verify dfyconfig.toml` checks the whole project.

## Model

| member | source | states |
|---|---|---|
| Theorems.NewestCoherence | backend/internal/app/outbox.go:109-145 | Once the row of the newest commit is processed, whatever became of the older ones, a well-formed cached payload is the current listing of the database |
| Theorems.QuiescentCoherence | backend/internal/app/outbox.go:109-145 | In every reachable state in which every invalidation row is processed, a well-formed cached payload is the current listing of the database, whatever interleaving, crash or partial Redis call led there |
| Theorems.VersionFence | backend/internal/repo/redis/cache.go:164-190 | From the moment an invalidation's INCR and DEL have executed, no cached list lacks a commit made before it began, and every loader whose snapshot lacks one fails its compare-and-set |
| Theorems.StaleStoreFails | backend/internal/repo/redis/cache.go:180-190 | A loader below the fence leaves the cached entry as it is |
| Caching.LoadIsCached | backend/internal/repo/redis/cache.go:95-126 | A lookup that reads version and list and runs its script is answered with that list; the list is cached with its full life if no INCR executed between the version read and the script, and otherwise the entry stays as it was |
| Caching.CachedIsServed | backend/internal/repo/redis/cache.go:53-69 | Until a DEL, an eviction, a corruption or another script displaces it, a cached list answers every lookup before it expires, and every later one misses |
| Caching.FlightsEnd | backend/internal/repo/redis/cache.go:71-76 | In every reachable state an open flight is a load of its instance that has not returned, so the next miss after it leads a new one |
| Theorems.BoundedStaleness | backend/internal/repo/redis/cache.go:100-126 | If successful stores run within d of their read, a payload that can be hit is the database's exact state at one moment less than d plus the truncated, at least one millisecond long life ago, even when events end as failed |
| Theorems.EntryLifeTruncates | backend/internal/repo/redis/cache.go:110-113 | The life of an entry is the time to live cut down to whole milliseconds, and one millisecond when that leaves none |
| Theorems.ProcessedMeansInvalidated | backend/internal/app/outbox.go:113-144 | A processed row has an invalidation that began after its increment committed and whose INCR and DEL both executed, even with stale workers, duplicate claims and late marks |
| Theorems.GetAfterDelIsFresh | backend/internal/repo/redis/cache.go:53-86 | On one instance, a lookup that begins after a Del executed returns a list with every commit made before that Del began, on the hit, miss, joined and corrupt paths |
| Theorems.ListHoldsSuccessfulIncrements | backend/internal/usecase/video.go:69-91 | Every answer of a list flight holds every increment that returned success on the instance before the flight's leader began |
| Freshness.LookupMissesWhen | backend/internal/repo/redis/cache.go:53-86 | On any instance, a lookup can still return a list without one of the commits covered by an executed invalidation if and only if it holds a list read before that commit, waits for a load that does, or would join one |
| Freshness.NewLookupMissesWhen | backend/internal/repo/redis/cache.go:71-76 | A lookup that begins now can miss such a commit if and only if its instance's open flight has already read an older list |
| Freshness.OwnFlightIsFresh | backend/internal/repo/redis/cache.go:138-139 | On the instance that ran the invalidation no open flight has |
| Freshness.HoldsWhenRead | backend/internal/repo/persistent/sqlc/video.sql.go:78-87 | A list holds the first n commits just when it was read after them: no two moments have the same listing |
| ListFreshness.ListMissesWhen | backend/internal/usecase/video.go:69-91 | A ListVideos call, leading or joining, on any instance, can still be answered without an increment that returned success if and only if the lookup it waits for, or the flight that lookup would join, has already read an older list |
| StaleJoiner.JoinerCanMiss | backend/internal/usecase/video.go:69-81 | A run in which a call joins a flight on the same instance after an increment returned success and is answered without it |
| LateMarks.ProcessedWhenMarked | backend/internal/repo/persistent/sqlc/outbox.sql.go:142-150 | An unprocessed row, failed or not, is processed later if and only if a statement marking it executed in between, and a failed one keeps its failure |
| LateMarks.FailedMayBeProcessed | backend/internal/repo/persistent/sqlc/outbox.sql.go:142-150 | A failed row can still become processed if and only if a mark is on its way or the handler of an old claim can still complete an invalidation and send one |
| LateMarks.FailedAndProcessed | backend/internal/repo/persistent/sqlc/outbox.sql.go:121-150 | A run in which the fifth claim fails a row and the first then marks it processed |
| Theorems.LocksAreShort | backend/internal/app/outbox.go:164 | At no moment is a live row locked for more than thirty seconds from then |
| Theorems.RowLifecycle | backend/internal/repo/persistent/sqlc/outbox.sql.go:14-165 | Terminal rows hold no claim and no lock and are never claimed again, processed rows never change, failed ones can only become processed, and attempts never fall |
| Theorems.ClaimSeparation | backend/internal/repo/persistent/sqlc/outbox.sql.go:15-30 | Between two claims of a row without a release of it, strictly more than thirty seconds pass, for any number of workers |
| DatabaseSteps.RunKeepsInv | backend/internal/repo/redis/cache.go:89-190 | The inductive invariant of cache, calls and outbox holds after every run, and every run moves versions, marks, histories, rows and calls only forward |
| DatabaseSteps.StepKeepsInv | backend/internal/repo/redis/cache.go:89-190 | Every step of every call and of the environment keeps the invariant |
| DatabaseSteps.ExecuteKeepsDatabase | backend/internal/repo/persistent/sqlc/outbox.sql.go:121-165 | A statement arriving at any time marks a row processed only when each of its commits is below the fence |
| DatabaseSteps.CommitKeepsDatabase | backend/internal/repo/persistent/sqlc/video.sql.go:38-64 | A commit keeps table, history and rows in agreement: the table is the replayed history, each commit has its row with the counter it reached |
| ProtocolSteps.ReadKeepsCall | backend/internal/repo/redis/cache.go:95-103 | A snapshot read after the version holds every commit covered by an INCR executed before the version read, and is the exact listing at its moment |
| ProtocolSteps.GetKeepsEntry | backend/internal/repo/redis/cache.go:115-121 | A store that passes the version check leaves a cached list with every commit below the fence |
| Counting.ViewConservation | backend/internal/repo/persistent/sqlc/video.sql.go:38-64 | A video's counter has grown by exactly the number of outbox rows recorded for it, nothing else of it changed, and a missing video has no rows |
| Counting.ViewsRecordedOnce | backend/internal/repo/persistent/sqlc/video.sql.go:54-58 | The rows of a video carry exactly the values from the initial counter plus one to the current counter, none twice |
| Counting.CallsBracketViews | backend/internal/usecase/video.go:104-117 | Successful calls are at most the recorded views, and those at most the calls made |
| Counting.AtMostFourReleases | backend/internal/app/outbox.go:147-165 | Over any run and any number of workers a row is released at most four times, for at most fifteen seconds of delay in all |
| Counting.ReleasesDiffer | backend/internal/app/outbox.go:151-164 | Two releases of a row come from claims with different attempts values |
| Retries.NoEarlyFailure | backend/internal/app/outbox.go:147-165 | In every reachable state a failed row of the known type has been claimed at least five times |
| Retries.SettledClaims | backend/internal/app/outbox.go:147-165 | In every reachable state a settled claim of such a row asked for a release at attempts one to four, and for a failure from the fifth on |
| Videos.ListingUnique | backend/internal/repo/persistent/sqlc/video.sql.go:78-87 | One table has one listing in the order of the query |
| Videos.SelectVideos | backend/internal/repo/persistent/video.go:44-56 | Returns every video of the table and nothing else, later created_at first and smaller id first among equals |
| Videos.ReplayCounts | backend/internal/repo/persistent/sqlc/video.sql.go:39-44 | Replaying a history changes each video only in its counter, by the number of its increments |
| Outbox.PicksUnique | backend/internal/repo/persistent/sqlc/outbox.sql.go:15-24 | The claiming query decides which rows are claimed: two possible results hold the same rows |
| Outbox.StatementsAdvance | backend/internal/repo/persistent/sqlc/outbox.sql.go:121-165 | Each of the three statements moves a row only forward and keeps its invariant |
| Outbox.ClaimsAdvance | backend/internal/repo/persistent/sqlc/outbox.sql.go:25-30 | Claiming live rows moves them only forward and keeps their invariant |
| CacheCode.System.Do | backend/internal/repo/redis/cache.go:53-126 | One command of a caller keeps the whole system sound |
| CacheCode.System.Others | backend/internal/repo/redis/cache.go:53-126 | Any run of all other calls keeps the system sound and leaves the caller's own calls as they are |
| CacheCode.IncrCommand | backend/internal/repo/redis/cache.go:166 | INCR adds one to the counter, a missing one reading as zero, and leaves the payload |
| CacheCode.DelCommand | backend/internal/repo/redis/cache.go:167 | DEL removes the payload, leaves the version, and completes the invalidation only after a successful INCR |
| CacheCode.BumpVersionAndDelete | backend/internal/repo/redis/cache.go:164-174 | Success means that INCR and then DEL executed; with no command lost it fails only on a version at the top of its range |
| CacheCode.ForgetAndInvalidate | backend/internal/repo/redis/cache.go:138-141 | The flight is forgotten before the pipeline, and success means that the whole invalidation executed |
| CacheCode.Del | backend/internal/repo/redis/cache.go:129-145 | Key after key: without a client nothing happens; an empty key ends it, with all keys before it done; done with the list key, the instance is marked with every commit made before the call; with no command lost only a full version makes it fail |
| CacheCode.DelListKey | backend/internal/repo/redis/cache.go:138-141 | A success means that a whole invalidation covering every commit made before it executed |
| CacheCode.ReadCommand | backend/internal/repo/redis/cache.go:53-69 | An unexpired entry is a hit with exactly its list or, when corrupt, begins a repair; otherwise it is a miss |
| CacheCode.EnterGroup | backend/internal/repo/redis/cache.go:71-76 | The call joins the flight that is open, or leads a new one |
| CacheCode.QueryVersion | backend/internal/repo/redis/cache.go:147-162 | A reply is exactly the counter at that moment, zero when the key is missing |
| CacheCode.QueryVideos | backend/internal/repo/redis/cache.go:100-103 | A reply is exactly the listing of the table at that moment, and the version read before is kept |
| CacheCode.ScriptCommand | backend/internal/repo/redis/cache.go:180-190 | The entry is replaced, with its truncated life, just when the version is the one read; the loader returns its list either way |
| CacheCode.StoreVideos | backend/internal/repo/redis/cache.go:115-126 | A reply returns exactly the snapshot that was loaded; an error gives the caller nothing, though the script may still run |
| CacheCode.LoadAndCacheVideos | backend/internal/repo/redis/cache.go:89-127 | A success returns the list this loader read; a failure ends the call; with no command lost it succeeds |
| CacheCode.RepairAndLoad | backend/internal/repo/redis/cache.go:56-62 | A corrupt payload is invalidated completely before the load, which runs outside any flight; with no command lost only a full version prevents success |
| CacheCode.JoinOrLoad | backend/internal/repo/redis/cache.go:71-86 | On a miss the call leads the flight or shares what its leader returned, is left waiting only while that flight has not landed, and with no command lost fails only with its leader |
| CacheCode.Lookup | backend/internal/repo/redis/cache.go:53-86 | Every path ends in the list the call returned, in a failure of the call, or in waiting for a flight; with no command lost it fails only with its leader or on a full version |
| CacheCode.GetOrLoadVideos | backend/internal/repo/redis/cache.go:37-87 | A returned list is the exact listing of some moment and holds every commit made before any Del that had executed on the instance; failures are limited as for the lookup |
| CacheCode.CommitTransaction | backend/internal/repo/persistent/video.go:93-109 | Exactly one commit is added for the caller, its new unclaimed outbox row and the video row read back carry the counter it reached, and nothing else of either table changes |
| CacheCode.CommitViews | backend/internal/repo/persistent/video.go:67-112 | Success reports one new commit with the counter it gave; a missing video is reported only when there is none and nothing was committed; with no command lost one of the two happens, except for a taken event id or a counter at its top |
| CacheCode.IncrementViews | backend/internal/usecase/video.go:104-117 | Success means one new commit of this video and an executed invalidation, so every later lookup on the instance holds it; with no command lost a missing video is reported as such and any other increment succeeds, with the exceptions above and a full version |
| CacheCode.ListVideos | backend/internal/usecase/video.go:64-92 | An answer to the flight's leader holds every commit made before any Del executed on the instance; any other answer is an exact listing of some moment |
| WorkerCode.RunStatement | backend/internal/repo/persistent/sqlc/outbox.sql.go:121-165 | A reply means the row shows the statement's effect; without a reply, which only a lost command explains, the statement may execute later |
| WorkerCode.ReleaseOrFail | backend/internal/app/outbox.go:147-165 | With attempts one to four the claim asks for a release with its backoff counted from now, and from the fifth on to be failed; with no command lost the row shows it |
| WorkerCode.FailUnsupported | backend/internal/app/outbox.go:122-133 | A row of unknown type is asked to be failed, and a reply means that it is no longer live |
| WorkerCode.InvalidateList | backend/internal/app/outbox.go:113-121 | Success means a whole invalidation that began after the claim, covering every commit made before it |
| WorkerCode.ProcessEvent | backend/internal/app/outbox.go:109-145 | A claim reported as done has its row marked processed after an invalidation this claim began and asked for no release, or is of unknown type and failed; any other asked once to be released or failed; with no command lost every claim is done, unless the version is full |
| WorkerCode.IssuedStays | backend/internal/app/outbox.go:122-165 | Whatever runs in between, a statement issued for a claim stays a mark, the release or failure its attempts call for, or the failure of an unknown type |
| WorkerCode.StatementSettles | backend/internal/repo/persistent/sqlc/outbox.sql.go:121-165 | A statement issued for the newest claim of a live row, executing at any later time, leaves the row as the single worker's does and no other row changed |
| OutboxWorker.PickRows | backend/internal/repo/persistent/sqlc/outbox.sql.go:15-24 | Picks exactly the first of the eligible rows by created_at and then id, up to the limit, unless a counter would leave INTEGER |
| OutboxWorker.Table.FetchUnprocessed | backend/internal/repo/persistent/sqlc/outbox.sql.go:14-42 | The picked rows, and only they, are claimed for thirty seconds with one more attempt; a query that fails changes nothing or, when its reply was lost, has claimed a batch nobody handles |
| OutboxWorker.ReleaseOrFail | backend/internal/app/outbox.go:147-165 | A live row is released with its backoff at attempts one to four and failed from the fifth on, never processed, or stays claimed when the call was lost; a row no longer live and all other rows stay as they are |
| OutboxWorker.ProcessEvent | backend/internal/app/outbox.go:109-145 | When nothing fails a row of the known type is processed and reported so; when every invalidation fails it is given up, released or failed; an unknown type is failed; in between it ends processed or given up, and success is reported only of a processed row |
| OutboxWorker.ProcessBatch | backend/internal/app/outbox.go:77-95 | It claims sixteen eligible rows or all of them, handles each so and touches no other; when nothing fails it counts them all, when every invalidation fails just those of unknown type |
| OutboxProgress.Termination | backend/internal/app/outbox.go:59-165 | However the cache and the marks fail and whatever rows arrive, the first n rows take at most 5n claims, and 160 turns for every row the table then has leave all of them processed or failed |
| OutboxProgress.TurnPays | backend/internal/app/outbox.go:69-73 | While a row is live a turn uses up a claim or a second of waiting: claims reset the wait to at most 31 seconds, pauses shorten it |
| OutboxProgress.FirstRowsFinish | backend/internal/app/outbox.go:77-165 | However many rows keep arriving behind the first n, 5n turns that each find one of them ready while one is live leave all of them processed or failed |
| OutboxProgress.EmptyClaim | backend/internal/repo/persistent/sqlc/outbox.sql.go:15-24 | A batch is empty just when no row is eligible |
| OutboxProgress.BatchDrops | backend/internal/app/outbox.go:147-165 | Over any set of rows a turn uses up one claim for each row of the set it claimed |
| OutboxProgress.BoundedOvertaking | backend/internal/repo/persistent/sqlc/outbox.sql.go:15-30 | A row with k rows ahead of it is passed over by at most floor(5k/16) fetches while none arrives ahead of it |
| OutboxProgress.PassingClaims | backend/internal/repo/persistent/sqlc/outbox.sql.go:21-22 | A fetch that passes over an eligible row claims sixteen rows ahead of it |
| OutboxProgress.Run | backend/internal/app/outbox.go:59-75 | Each turn is one batch that sees the rows that arrived before it, and between two turns rows are only added, unless a counter reached the top of INTEGER |
| OutboxOutcomes.ClaimProcesses | backend/internal/app/outbox.go:113-144 | When nothing fails, the turn that claims a row of the known type processes it and counts every claim |
| OutboxOutcomes.WellRunProcesses | backend/internal/app/outbox.go:59-165 | When nothing fails, no row of the known type ever fails, and 160 turns for every row the table then has leave all that were live at the start processed |
| OutboxOutcomes.DownRunFails | backend/internal/app/outbox.go:19-165 | When every invalidation fails, a row fails by its fifth claim and not before and is never processed, so n rows take all of their 5n claims |
| Backoff.OutboxRetryBackoff | backend/internal/app/outbox.go:167-181 | For every int32 the loop returns min(2^(max(attempts,1)-1), 30) seconds without leaving int64 |
| Backoff.BackoffMonotone | backend/internal/app/outbox.go:167-181 | The delay grows with the attempts and lies between one and thirty seconds |
| Backoff.FirstBackoffs | backend/internal/app/outbox.go:172-180 | The delays before the fifth attempt are one, two, four and eight seconds |
| RateLimiter.Limiter.Allow | backend/internal/controller/restapi/middleware/rate_limit.go:50-77 | The answer and the whole new table are those of the decision that the refinement is proved about |
| RateLimiter.Limiter.CleanupExpired | backend/internal/controller/restapi/middleware/rate_limit.go:79-89 | From 1024 entries on exactly the expired ones are removed; below, nothing; those that stay are unchanged |
| RateLimiter.TableRefines | backend/internal/controller/restapi/middleware/rate_limit.go:50-89 | After every history the table holds at most 4096 entries and each key's ideal window, or has dropped it after it expired |
| RateLimiter.LimiterRefinesIdeal | backend/internal/controller/restapi/middleware/rate_limit.go:50-77 | Each answer is that of the ideal unbounded window of the key over the requests not refused for capacity, and a capacity refusal happens just when the key is new and 4096 windows are open |
| RateLimiter.FullMeansAllOpen | backend/internal/controller/restapi/middleware/rate_limit.go:58-63 | The cleanup leaves no room just when the table is at its bound and no entry has expired |
| RateLimitBound.SharpBound | backend/internal/controller/restapi/middleware/rate_limit.go:50-77 | In any half-open interval of n windows at most (n+1)*limit-1 requests of a key are allowed, whatever other keys do and whenever the cleanup runs; a limit below one counts as one |
| RateLimitBound.BoundIsReached | backend/internal/controller/restapi/middleware/rate_limit.go:50-77 | For every limit, below one as well, every n and every window of at least two nanoseconds some history reaches the bound |
| RateLimitBound.HitsAreIdeal | backend/internal/controller/restapi/middleware/rate_limit.go:50-89 | The requests of a key allowed in an interval are those the ideal limiter allows |
| RateLimitBound.HitsAccounted | backend/internal/controller/restapi/middleware/rate_limit.go:65-76 | Windows opened in an interval are a window apart, each lets through its limit, and one opened before it all but its first request |
| Pointer.ResolvePointer | backend/script/bundle-openapi.py:71-86 | The loop resolves a pointer as the walk over its unescaped keys does, with the same error |
| Pointer.UnescapeUndoesEscape | backend/script/bundle-openapi.py:83 | The two replace passes, in the order of the code, undo the escaping of every key |
| Pointer.SplitJoined | backend/script/bundle-openapi.py:82 | Splitting at slashes gives back the escaped keys that were joined |
| Pointer.PointerRoundTrip | backend/script/bundle-openapi.py:71-86 | The pointer built from any key path, with or without its hash, resolves to exactly what the path reaches, or to its error |
| Pointer.PointerReaches | backend/script/bundle-openapi.py:81-86 | A pointer resolves to a node if and only if its keys lead there, mapping by mapping |
| Pointer.WrittenResolves | backend/script/bundle-openapi.py:71-86 | Whatever the keys contain and whatever fields are beside them, a node written under nested keys is what the pointer of those keys resolves to |
| Pointer.PointerRefused | backend/script/bundle-openapi.py:72-79 | Exactly the pointers that are neither empty nor begin, after one hash at most, with a slash are refused |
| Bundle.NormalizeRefs | backend/script/bundle-openapi.py:95-109 | The traversal of mappings and lists computes the tree that NormalizesExactly describes |
| Bundle.RewritesExactly | backend/script/bundle-openapi.py:112-123 | A reference becomes `#/components/schemas/` and a name if and only if it is one of the three spellings of the schema file followed by that name, and every other reference is left alone |
| Bundle.NormalizesExactly | backend/script/bundle-openapi.py:95-109 | Position by position the tree keeps its shape, scalars and texts, and only references that begin with a spelling of the schema file become local ones to the same name |
| Bundle.NormalizeIdempotent | backend/script/bundle-openapi.py:95-109 | Normalising twice is normalising once |
| Bundle.RewrittenOnce | backend/script/bundle-openapi.py:112-123 | A rewritten reference matches none of the prefixes |
| Bundle.NormalizeCommutes | backend/script/bundle-openapi.py:71-109 | Normalising and following a key path commute, to the same node or the same error; at a string `$ref` the text is the rewritten one |
| Bundle.ExternalRefReaches | backend/script/bundle-openapi.py:89-92 | The reference made from a file and any key path resolves to exactly what the path reaches in that file, or to its error; the bare file name to the whole file |
| Bundle.BundleOpenapi | backend/script/bundle-openapi.py:126-147 | The loops compute the document that PathInlined, PathKept, SectionInlined, SectionKept and RestKept describe, or none when a reference they follow leads nowhere |
| Bundle.PathInlined | backend/script/bundle-openapi.py:131-135 | A path item that is nothing but a reference by file, or by file and keys, is replaced by the node named, normalised, and the bundle has the paths of the entry and no others |
| Bundle.PathKept | backend/script/bundle-openapi.py:131-135 | Any other path item stays in its place, normalised |
| Bundle.SectionInlined | backend/script/bundle-openapi.py:137-146 | Schemas and security schemes that are nothing but a reference are replaced in the same way |
| Bundle.SectionKept | backend/script/bundle-openapi.py:137-146 | Any other section of the components stays in its place, normalised |
| Bundle.RestKept | backend/script/bundle-openapi.py:129-146 | The other fields of the entry stay as they are, and missing paths or components become empty |
| Bundle.BundlesWhenAllLoads | backend/script/bundle-openapi.py:126-147 | There is a document if and only if paths and components, where present, are mappings and each of their references that is followed names a loaded mapping and a node in it |
| Bundle.BrokenPathFails | backend/script/bundle-openapi.py:89-92 | A path item whose file is missing or no mapping, or whose keys lead nowhere in it, leaves no document |
| Bundle.SchemaFragment | backend/script/bundle-openapi.py:112-123 | What follows the prefix is the pointer the reference has into the schema file |
| Bundle.ReferencePreserved | backend/script/bundle-openapi.py:112-146 | When the schemas section is a whole-document reference, a rewritten reference resolves in the bundled document to the normalised form of what it resolved to in the schema file, or to the same error |
| Bundle.NormalizeReaches | backend/script/bundle-openapi.py:95-109 | Normalising commutes with going to any position, through mappings and lists |
| Bundle.PlacesNormalized | backend/script/bundle-openapi.py:131-146 | At every position of the paths and components the bundled document holds the normalised form of what the inlined document holds there |
| Bundle.ReferencesRewritten | backend/script/bundle-openapi.py:95-109 | At every such position, in lists too, the bundled document holds a reference if and only if the inlined document held one that rewrites to it |
| Bundle.NoSchemaFileRefs | backend/script/bundle-openapi.py:95-123 | No mapping anywhere in the paths or components of a bundled document refers to the schema file by any of its spellings |
| Bundle.MeaningPreserved | backend/script/bundle-openapi.py:126-147 | End to end, every reference by one of the three spellings, anywhere in paths and components, is replaced by the local one to the same name, which resolves to the normalised form of what it meant in the schema file, or to the same error |

## Left out

- CacheCode.ListVideos: freshness is stated for the leader of a flight only, because it fails for those who join; ListFreshness.ListMissesWhen is the exact condition.
- CacheCode.BumpVersionAndDelete: a failure says nothing of what executed, as in the code; it may be nothing, INCR alone, DEL after a failed INCR, or both.
- CacheCode.JoinOrLoad: a call whose flight has not landed replies `Waiting` in place of blocking, and only then.
- CacheCode.Del: other keys hold nothing the model knows, and the version key is not among the keys to delete.
- CacheCode.GetOrLoadVideos: the argument errors for an empty key, a missing client or a time to live below one are not modelled.
- OutboxWorker.ProcessEvent: no other worker and no late statement touches the table; Protocol and WorkerCode have both.
- OutboxProgress.Run: the worker is left running under conditions in which no claim, release or failure is lost; OutboxWorker.ProcessBatch covers those too.
- OutboxProgress.Termination: no call that claims, releases or fails a row is lost, since a row whose every release is lost is claimed for ever; marks and the cache may fail at will.
- WorkerCode.ProcessEvent: each claim is handled by its own call, which allows every order of the sequential worker and more.
- Counting.AtMostFourReleases: releases are counted when they are requested, executed or not.
- RateLimiter.LimiterRefinesIdeal: the count is unbounded; a Go int would wrap after 2^63-1 requests in one window.
- RateLimitBound.SharpBound: times do not decrease in the order in which requests take the lock, though the code reads the clock before the lock; times count from Go's zero time and are not negative.
- Bundle.NormalizeRefs: documents are values, so the rewrite in place and YAML aliases shared between nodes are not captured; mappings have string keys and no order.
- Bundle.MeaningPreserved: references inside the schema file of the form `#/Name` are not rewritten by the script and nothing is claimed of them.
- One clock for every host and the database, and entries that expire exactly at their time; context timeouts are failures that can happen at any step.
- Redis losing data other than the payload, and eviction of the version key. PostgreSQL and singleflight are atomic step contracts.
- JSON: a payload is a listing or corrupt. `failure_error` texts and the payload column beyond the video and its counter are not kept.
- The initial library is the videos table after the migrations of backend/migrations have run, and from then on it gains and loses no rows; a migration that inserts or edits videos writes no outbox row.
- `mapVideo`, `publicFilePath`, `GetVideo`, client address parsing, HTTP routing, configuration, wiring and logging.
- Percent-decoding of fragments and array indices in pointers, which the bundler does not implement; file paths are names of loaded documents; `merge-schemas.py`.
