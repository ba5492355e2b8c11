# Verified models of the stateful algorithms

This project models, in Dafny, the stateful parts of the system-design lab and proves what their
documentation promises of them, or exactly when the code keeps the promise. `dafny verify dfyconfig.toml`
checks everything.

| files | what they model |
|---|---|
| `Pipeline.dfy` | the upload pipeline and the track cache as one transition system: Create handlers, upload workers and Get handlers over object storage, two tables, a topic and a Redis cache |
| `PipelineSafety.dfy` | what every run of it keeps, with no assumption on scheduling or failures |
| `PipelineRows.dfy` | what the tables say and where it comes from, on every run |
| `PipelineCache.dfy` | cache coherence and the status machine, each under the care it needs and no more |
| `PipelineLimits.dfy` | redelivery, stuck tracks, and how far the conditional claim excludes |
| `PipelineStale.dfy` | how cache hits go stale, and a run for each lapse that lets one |
| `PipelineFresh.dfy` | exactly when hits stay fresh, in every reachable state |
| `PipelineCode.dfy` | `process`, `Create` and `Get` as code over mutable stores, each shown to take exactly the steps of its process |
| `Analytics.dfy`, `Consumer.dfy`, `ConsumerRuns.dfy` | the play-event transaction, and at-least-once consumption with marks, commits and crashes |
| `TokenBucket.dfy`, `TokenBucketRuns.dfy` | the two Lua token buckets, their equivalence, and when expiry shows |
| `TokenBucketSkew.dfy`, `TokenBucketBounds.dfy`, `TokenBucketRetry.dfy` | clocks that step back, admission bounds, retry times |
| `LoginLimit.dfy` | the INCR/EXPIRE login limiter under interleaving |
| `ConsistentHash.dfy`, `RingRuns.dfy` | the hash ring with its sort and binary search, against a cyclic-successor specification |
| `Timeline.dfy`, `TimelineRuns.dfy` | fan-out-on-write timelines, against the full history and against fan-out on read |
| `Playlist.dfy`, `PlaylistWalks.dfy` | cursor pagination of playlists, at rest and under concurrent edits |
| `Formatting.dfy` | the decimal numbers inside the keys |

A program that updates state is a class whose methods are proved against functions on values; the results
about whole runs are lemmas about those functions. SQL statements, Redis commands and scripts, S3 puts and
Kafka appends are atomic. Failures are chosen freely by the environment: an operation on a remote store may
succeed, fail, or take effect and still report an error. Where a program is shown as code, those answers are its inputs,
and its contract says which steps it takes under them. Times, tokens and rates are exact reals.

The token buckets have two kinds of clock. Refills are computed from the callers' readings; keys expire on Redis's own clock.
A `Skew` says how far callers' clocks may be ahead of or behind Redis's, and its `Spread` how far callers may be apart; on
one clock it is 0. Every result about expiry is stated for a given skew.

## What the code does where its comments say more

- The login limiter is called a sliding window (`ratelimit.go:48,76`). It is a fixed window that starts at the
  first attempt: nine attempts can pass within fifteen minutes (`NineDoPass`), never ten (`NineInAnyWindow`), and
  `PromiseIff` says in which states the promised five hold. If the first attempt's EXPIRE is lost, the address can
  be locked out for ever; `LockedOutIff` says exactly when it is.
- `phase-2.md:188-192` says the conditional update lets one consumer claim the work. The affected-row count is not
  read, so every worker that stands at the claim goes on, whatever the others did: of a track past pending no further
  pass can start exactly when nobody stands there (`ClaimExcludesIff`, `MorePassesIff`).
- Listings complete, cache hits of a ready track stay fresh exactly when no worker is at work on it (`ReadyHitsFreshIff`;
  `StaysFreshIff` covers every track in every reachable state). A second worker, a "set ready" that reports an error after taking effect, or a failing
  formats query, which `Get` ignores, are each enough for a stale hit (`SecondWorkerStales`, `LostAckStales`,
  `CutListingStales`).
- `PROGRESS.md:112-113` expects a track to end up ready after the worker is killed. A track whose worker died after
  the claim stays `processing` for ever (`StuckIff`, `CrashStrands`).
- `kafka.go:130` says a failed record will be redelivered. After a restart it is, exactly if no later record of the
  fetch succeeded (`RedeliveredIff`); `FailedRecordIsLost` is a run in which it is not, and `CommitCoversIff` says on every
  run what a commit covers. What remains is that every committed record was attempted.
- The two token-bucket scripts are the same algorithm only while callers' readings do not fall (`ScriptsAgreeIff`). Their
  TTLs are long enough only for clocks that are close: the stream limiter's bound survives expiry exactly if callers are
  at most an hour apart (`StreamRateLimitBoundedIff`), the stand-alone one's exactly if the TTL less the spread fills the
  bucket (`ApiBoundedIff`).
- A ring in which two nodes share a position loses it, or hides one of its owners, in some run (`NodeMapIff`, `OwnerIff`).
- `README.md:188` says insertion and deletion do not break the cursor. Deleting the cursor's own track ends the walk
  (`RemovedCursorEndsWalk`); `CursorSurvivesIff` and `CursorHoldsIff` say exactly which edits a cursor survives. Playlists
  given positions and then extended through AddTrack repeat the added track (`AddToPositionedRepeats`). Rows
  inserted by one statement share their time, and of more than a page of them only the first page is ever returned
  (`EqualTimesTruncate`). `WalkExactIff` and `CrawlExact` say when paging is exact.

## Model

| member | source | states |
|---|---|---|
| PipelineSafety.ReadyMeansComplete | beatstream/internal/worker/upload.go:98-135 | in every run (any interleaving of workers, crashes, redeliveries, lost acknowledgements) a ready track made by Create has exactly one format row per bitrate, under its own key, each object stored |
| PipelineSafety.KeysNameObjects | beatstream/internal/handler/tracks.go:213-240 | in every run each audio key in tracks, each format key and each published event names an object already stored |
| PipelineSafety.ApplyKeepsSafe | beatstream/internal/worker/upload.go:60-156 | every single step of every process keeps the invariant behind the two results above |
| PipelineSafety.ApplyExtends | beatstream/internal/worker/upload.go:111-125 | objects, tracks and encoded bitrates are never lost by any step |
| PipelineSafety.UpsertHas | beatstream/internal/worker/upload.go:116-121 | the upsert keeps every bitrate there was and adds the new one |
| PipelineRows.UpsertIs | beatstream/internal/worker/upload.go:116-121 | the upsert puts the new row in the place of the one of its bitrate and leaves exactly the others |
| PipelineRows.RowAfter | beatstream/internal/worker/upload.go:71-135 | field by field what each step does to a track's row; in particular the claim only acts on pending, and nothing but a play counts |
| PipelineRows.ClaimedFromPending | beatstream/internal/worker/upload.go:71-73 | no step makes a track processing unless it was pending or processing |
| PipelineRows.FinishedForEver | beatstream/internal/worker/upload.go:66-75 | on every run, with no care, a track once ready or error is one of the two for ever |
| PipelineRows.ObjectsDistinct | beatstream/internal/handler/tracks.go:198-240 | on every run tracks made by Create share no object: originals and renditions are all distinct |
| PipelineRows.ReadyViewListsAll | beatstream/internal/handler/tracks.go:96-117 | on every run the fresh view of a ready track made by Create lists 64, 128, 320 in order, each with its row's size |
| PipelineRows.ReadyIsMeasured | beatstream/internal/worker/upload.go:92-130 | on every run its duration and the sizes of its formats are ones a worker on that track measured in the run |
| PipelineSafety.UpsertAscends | beatstream/internal/worker/upload.go:116-121 | the upsert keeps bitrates unique and in order |
| PipelineCache.CacheHitIsFresh | beatstream/internal/handler/tracks.go:84-124 | on fully careful runs (one process per track, "set ready" acknowledged, complete listings) a cached view equals a fresh read in every field but play_count, which is never ahead, although Get reads row and formats apart |
| PipelineCache.ApplyKeepsCoherent | beatstream/internal/handler/tracks.go:96-124 | each step keeps worker places, passes and statuses in agreement under whatever degree of care it has; with full care also the cache and the readers' half-built views |
| PipelineCache.ReadyIsFinal | beatstream/internal/worker/upload.go:66-75 | once ready, a track's row and formats stay as they are, given one process per track and acknowledged "set ready"; readers may fail as they like |
| PipelineCache.StatusMovesForward | beatstream/internal/worker/upload.go:71-135 | under the same two conditions a status moves only pending to processing to ready or error |
| PipelineCache.AtMostOnePass | beatstream/internal/worker/upload.go:60-77 | with one process per track at a time, and nothing else supposed, the transcode pass starts at most once per track, and never while it is pending |
| PipelineLimits.RedeliveryIsIdle | beatstream/internal/worker/upload.go:61-69 | redelivering the event of a track past pending returns the system to the very same state |
| PipelineLimits.AbandonedForEver | beatstream/internal/worker/upload.go:66-69 | with no worker at work on it, a track past pending keeps its row (play_count may rise) and formats on every run |
| PipelineLimits.StuckIff | beatstream/internal/worker/upload.go:66-75 | a processing track is stuck on all continuations iff no worker is at work on it |
| PipelineLimits.CrashStrands | beatstream/internal/worker/upload.go:66-75 | a run from empty stores, one crash after the claim, that ends in a track stuck for ever |
| PipelineLimits.CanFail | beatstream/internal/worker/upload.go:79-124 | from every place after the check, and whatever the status, an error leads to markError and status error |
| PipelineLimits.MorePassesIff | beatstream/internal/worker/upload.go:71-77 | of a track past pending, more than n further passes can start iff more than n workers stand at the claim |
| PipelineLimits.ClaimExcludesIff | beatstream/internal/worker/upload.go:71-77 | so no further pass can start iff nobody stands at the claim: status processing alone does not exclude |
| PipelineStale.Completes | beatstream/internal/worker/upload.go:98-135 | a worker at work, not yet marking an error, makes the track ready if nothing fails any more, then stops or, its acknowledgement lost, goes to markError |
| PipelineLimits.BothClaim | beatstream/internal/worker/upload.go:71-75 | two workers that both read pending both go on to transcode |
| PipelineStale.FreshIff | beatstream/internal/worker/upload.go:120-135 | of a track past pending whose hits are sound: they stay fresh on all continuations with complete listings iff no worker at work can still fail it once ready |
| PipelineStale.ReadyHitsFreshIff | beatstream/internal/worker/upload.go:175-177 | of a ready track: iff no worker at all is at work on it |
| PipelineFresh.StaysFreshIff | beatstream/internal/handler/tracks.go:84-124 | in every reachable state, for a track in any status: hits stay fresh on all continuations with complete listings iff what is cached or about to be is fresh now and nobody can still spoil it |
| PipelineFresh.RunKeepsViews | beatstream/internal/handler/tracks.go:96-124 | on every run a cached view is of a ready row, agrees with its track in all that never changes, and its play_count is not ahead |
| PipelineStale.SecondWorkerStales | beatstream/internal/worker/upload.go:60-77 | a run from empty stores, with two workers on one track and nothing else amiss, that ends in a stale hit |
| PipelineStale.LostAckStales | beatstream/internal/worker/upload.go:129-135 | the same with a single delivery and a lost acknowledgement of "set ready" |
| PipelineStale.CutListingStales | beatstream/internal/handler/tracks.go:107-123 | the same with a single delivery, all acknowledged, and a formats query cut short |
| PipelineStale.CachedIffAllListed | beatstream/internal/handler/tracks.go:107-123 | what a reader caches is a fresh view iff the formats query delivered every row |
| PipelineCode.Backend.Process | beatstream/internal/worker/upload.go:60-156 | under any answers of the environment the worker takes exactly its own steps to the end; nil iff the track is there and not pending, and then nothing changed, or everything succeeded, and then the row is ready with the measured duration and each rendition's row and object are there with the measured size |
| PipelineCode.AnswersFixRun | beatstream/internal/worker/upload.go:60-156 | the answers determine those steps, and with them the stores |
| PipelineCode.Backend.Encode | beatstream/internal/worker/upload.go:98-127 | one loop pass: upload, then upsert, as answered; success, iff both succeed, adds the bitrate, failure heads for markError |
| PipelineCode.Backend.CheckAndClaim | beatstream/internal/worker/upload.go:61-75 | status check and conditional claim; goes on iff the track is pending and the claim acknowledged; nil iff it is there and not pending; the only change is pending to processing |
| PipelineCode.Backend.MarkErrorAndStop | beatstream/internal/worker/upload.go:175-177 | one unconditional status error as its only step and only change, its own failure ignored |
| PipelineCode.Backend.Create | beatstream/internal/handler/tracks.go:198-245 | object tracks/<id>/audio, pending row, event in that order, stopping at the first error, as the very steps of the run; 202 iff all three succeed |
| PipelineCode.Backend.Get | beatstream/internal/handler/tracks.go:77-126 | cache hit, or row and formats queries and a cache fill for ready tracks only, as the very steps of the run; 404 iff no hit and no row came; the answer shows the row and exactly the format rows that came |
| Pipeline.FormatKeysDiffer | beatstream/internal/worker/transcode.go:21-23 | no two renditions, of one track or of two, share an object key |
| Pipeline.AudioKeysDiffer | beatstream/internal/handler/tracks.go:199 | no two tracks share the key of their original |
| Pipeline.FormatKeysSpelled | beatstream/internal/worker/transcode.go:12-23 | the three bitrates and their keys, literally |
| Pipeline.FreshViewShows | beatstream/internal/handler/tracks.go:96-117 | the fresh view shows the row's fields and every format row's bitrate and size, in order |
| ConsumerRuns.NeverUndercounts | beatstream/internal/queue/kafka.go:118-136 | without handler errors, in every run with crashes, redelivery and concurrent sessions: committed records of a track <= its new play events <= its deliveries |
| ConsumerRuns.PlaysBracketed | beatstream/internal/queue/kafka.go:118-136 | the same bracket with handler errors, for committed records that never failed |
| ConsumerRuns.CommittedWasAttempted | beatstream/internal/queue/kafka.go:127-134 | every committed record was handed to the handler, and recorded unless a handling failed |
| ConsumerRuns.RedeliveredIff | beatstream/internal/queue/kafka.go:118-136 | for any fetch, then a commit and a restart: a failed record is below the committed offset, and not handed out again, iff a later record of the fetch succeeded |
| ConsumerRuns.FailedRecordIsLost | beatstream/internal/queue/kafka.go:128-133 | a run from an empty topic after which the first of two records is committed, behind the new session, and left no play event |
| ConsumerRuns.CommitCoversIff | beatstream/internal/queue/kafka.go:118-136 | on every run, however sessions interleave: a session's commit covers an offset iff it joined past it or has since succeeded at it or later |
| ConsumerRuns.FetchRun | beatstream/internal/queue/kafka.go:127-134 | a whole fetch in the transition system: position, marks and database after it |
| ConsumerRuns.MarkedIsPassed | beatstream/internal/queue/kafka.go:127-134 | on every run no session has marked past its position |
| ConsumerRuns.PlayCountConserved | beatstream/internal/worker/analytics.go:58-85 | over every run play_count moves exactly as the number of play events does |
| Consumer.Client.EachRecord | beatstream/internal/queue/kafka.go:127-134 | the fetch loop handles each record in order, as the transition system's session does; afterwards the mark covers record j iff it did before or j or a later record succeeded |
| Analytics.AnalyticsWorker.Record | beatstream/internal/worker/analytics.go:58-85 | both writes or neither, on every error path: the event itself appended and its track's counter one up, iff nothing failed before the commit took effect; nil iff that was acknowledged |
| Analytics.AnalyticsWorker.HandleRecord | beatstream/internal/worker/analytics.go:47-56 | undecodable bytes are an error and change nothing, otherwise record |
| Analytics.HandleConserves | beatstream/internal/worker/analytics.go:65-81 | one handling keeps play_count minus play events |
| TokenBucketRuns.ScriptsEquivalent | beatstream/internal/middleware/ratelimit.go:29-44 | on readings that do not fall the script that writes on denial and the one that does not decide every request alike, also if each key is dropped at times of its own that its TTL covers |
| TokenBucketRuns.AlwaysAlikeIff | beatstream/internal/middleware/ratelimit.go:38-42 | over all expiries they decide alike iff both TTLs, less the clocks' spread, fill the bucket |
| TokenBucketRuns.Simulation | interview-prep/rate-limiter/main.go:25-41 | the two scripts, or one with and one without dropped keys, stay on the same token level and answer alike |
| TokenBucketRuns.Execute | interview-prep/rate-limiter/main.go:18-42 | the object, running either script, answers and ends as the functions on runs say |
| TokenBucketRuns.FullBucketBurst | beatstream/internal/middleware/ratelimit.go:33-43 | either script lets exactly max requests through at one moment: the first max, and not the next |
| TokenBucketSkew.ScriptsAgreeIff | beatstream/internal/middleware/ratelimit.go:33-43 | a sequence of clock readings makes the scripts decide alike, for all buckets and positive costs, iff it is nondecreasing |
| TokenBucketRuns.ApiExpiryInvisible | interview-prep/rate-limiter/main.go:40 | with TTL 2*ceil(max/rate) dropping overdue keys changes no reply, waits included, on one clock and on clocks up to max/rate apart |
| TokenBucketRuns.ExpiryInvisibleIff | beatstream/internal/middleware/ratelimit.go:38-42 | for either script: expiry is hidden on all runs within a skew iff the TTL, less the spread, fills the bucket (or the bucket is empty) |
| TokenBucketRuns.StreamRateLimitHidesExpiryIff | beatstream/internal/middleware/ratelimit.go:109-131 | at the middleware's rate maxPerHour/3600: iff callers are at most an hour apart |
| TokenBucketBounds.ApiAdmissionBound | interview-prep/rate-limiter/main.go:29-40 | in any order of timestamps, grants from one admitted request to another total at most max + rate*(t_j - t_i), without expiry, or over any on Redis's clock that the TTL outlasts |
| TokenBucketBounds.ApiBoundedIff | interview-prep/rate-limiter/main.go:29-40 | the bound survives expiry on all runs within a skew iff the TTL, less the spread, fills the bucket |
| TokenBucketBounds.ApiBoundedOnCloseClocks | interview-prep/rate-limiter/main.go:40 | in particular on one clock, and on clocks up to max/rate apart |
| TokenBucketBounds.ApiPotential | interview-prep/rate-limiter/main.go:29-39 | while the key lives, tokens - rate*last_refill never rises and pays for every grant, on any clocks |
| TokenBucketBounds.StreamAdmissionBound | beatstream/internal/middleware/ratelimit.go:33-43 | grants over any run segment, in any order of timestamps, total at most max + rate * (sum of forward clock jumps), without expiry, or over any on Redis's clock that the TTL covers |
| TokenBucketBounds.StreamBoundedIff | beatstream/internal/middleware/ratelimit.go:33-43 | that bound survives expiry on all runs within a skew iff the TTL 7200, less the spread, fills the bucket (or the bucket is empty) |
| TokenBucketBounds.StreamRateLimitBoundedIff | beatstream/internal/middleware/ratelimit.go:109-131 | at the middleware's rate: iff callers are at most an hour apart |
| TokenBucketBounds.StreamAdmissionBoundOrdered | beatstream/internal/middleware/ratelimit.go:33-43 | on ordered timestamps that is max + rate*(t_j - t_i) |
| TokenBucketBounds.StreamStoredInRange | beatstream/internal/middleware/ratelimit.go:33-43 | stored tokens stay in [0, max] on any clocks and any key drops |
| TokenBucketRetry.RetryAfterExact | interview-prep/rate-limiter/main.go:33-36 | while the key lives, a denied request is denied again one second before the announced time, and granted at it iff its cost fits the bucket, whatever denials come between |
| TokenBucketRetry.RetryAfterOverExpiry | interview-prep/rate-limiter/main.go:33-40 | the same over any expiry of a durable key, on readings that do not fall: denied up to one second before, and from the announced time on granted iff the cost fits |
| TokenBucket.Redis.StreamScript | beatstream/internal/middleware/ratelimit.go:22-45 | the script's reply and the whole new key: level capped at the capacity, elapsed time clamped at 0, last_refill now, deadline 7200 s ahead; other keys untouched |
| TokenBucket.Redis.ApiScript | interview-prep/rate-limiter/main.go:18-42 | the script's reply, the wait as the ceiling of missing/rate, and the whole new key with a deadline of twice the ceiling of max/rate; nothing written on denial |
| TokenBucket.Redis.StreamRateLimit | beatstream/internal/middleware/ratelimit.go:109-150 | one request of an address consumes one token of its own bucket |
| TokenBucket.Redis.Allow | interview-prep/rate-limiter/main.go:64-82 | the Go wrapper passes integers through and reports the script's answer |
| LoginLimit.SlidingBound | beatstream/internal/middleware/ratelimit.go:69-95 | over every interleaving of INCR and EXPIRE at most 2*max - 1 attempts pass in any half-open window |
| LoginLimit.NineInAnyWindow | beatstream/internal/middleware/ratelimit.go:59-62 | with the program's constants, at most nine in any 900 seconds |
| LoginLimit.FourMoreInTheWindow | beatstream/internal/middleware/ratelimit.go:59-79 | after a first attempt at t whose EXPIRE ran, at most four more pass before t + 900 |
| LoginLimit.LifetimeBound | beatstream/internal/middleware/ratelimit.go:69-84 | at most max attempts pass per key lifetime |
| LoginLimit.CeilingBounds | beatstream/internal/middleware/ratelimit.go:69-84 | the most that can still pass before a time, from any reachable state |
| LoginLimit.CeilingReached | beatstream/internal/middleware/ratelimit.go:69-84 | some run reaches that ceiling exactly |
| LoginLimit.PromiseIff | beatstream/internal/middleware/ratelimit.go:47-53 | max per window holds from a state iff the counter cannot run out within the window or is already full |
| LoginLimit.NineDoPass | beatstream/internal/middleware/ratelimit.go:76-79 | a run in which nine pass in one window |
| LoginLimit.LockedOutIff | beatstream/internal/middleware/ratelimit.go:69-84 | no attempt ever passes again on any run iff the counter is full, has no deadline, and no attempt still owes the EXPIRE |
| LoginLimit.LostExpiryLocksOut | beatstream/internal/middleware/ratelimit.go:76-79 | a run from the start that gets there: the first attempt loses its EXPIRE |
| LoginLimit.RunKeepsInv | beatstream/internal/middleware/ratelimit.go:69-79 | at most one attempt ever owes an EXPIRE, and until it runs the key cannot vanish |
| LoginLimit.Redis.LoginRateLimit | beatstream/internal/middleware/ratelimit.go:64-95 | one attempt takes the step INCR, then on the first attempt EXPIRE with 900 seconds unless that command is lost, and no other; passes iff it is at most the fifth |
| ConsistentHash.Ring.Add | interview-prep/consistent-hashing/main.go:25-33 | exactly the hashes of <node>-v0 to <node>-v(n-1) are taken over, whoever had them; list re-sorted and holding exactly the map's positions |
| ConsistentHash.Ring.Remove | interview-prep/consistent-hashing/main.go:35-46 | exactly the hashes of <node>-v0 to <node>-v(n-1) are deleted, whoever had them; list rebuilt |
| ConsistentHash.Ring.Get | interview-prep/consistent-hashing/main.go:48-60 | the owner of the first position clockwise, wrapping; "" on an empty ring |
| ConsistentHash.Search | interview-prep/consistent-hashing/main.go:53-55 | least index whose position is not below h, or the length |
| ConsistentHash.SortPositions | interview-prep/consistent-hashing/main.go:32 | ascending permutation |
| ConsistentHash.VnodeKeysDiffer | interview-prep/consistent-hashing/main.go:27-28 | distinct virtual nodes hash distinct keys, so collisions come from the hash alone |
| ConsistentHash.PositionsAre | interview-prep/consistent-hashing/main.go:26-28 | a position is a node's iff it is the hash of its name, "-v" and the decimal numeral of a number from 0 to n-1 |
| ConsistentHash.FirstVnode | interview-prep/consistent-hashing/main.go:26-28 | numbering starts with <node>-v0 |
| Formatting.DecimalIsNumeral | interview-prep/consistent-hashing/main.go:27 | what %d prints reads back as the number in base ten, without leading zeros |
| RingRuns.LookupIsOwner | interview-prep/consistent-hashing/main.go:48-60 | after any Adds and Removes without collisions, a lookup answers n iff n owns the first live position clockwise |
| RingRuns.LookupEmpty | interview-prep/consistent-hashing/main.go:49-51 | with no live position every lookup answers "" |
| RingRuns.RunIsNodeMap | interview-prep/consistent-hashing/main.go:25-46 | without collisions the map is exactly the live nodes' positions, each under its node |
| RingRuns.OrderIrrelevant | interview-prep/consistent-hashing/main.go:25-60 | two runs that leave the same nodes in leave the same ring |
| RingRuns.AddOnlySteals | interview-prep/consistent-hashing/main.go:25-33 | after Add each point keeps its owner or goes to the new node, with no assumption on collisions, and exactly which |
| RingRuns.RemoveIsComplete | interview-prep/consistent-hashing/main.go:35-46 | after Remove nothing maps to the node, in any reachable ring |
| RingRuns.RemoveMovesOnly | interview-prep/consistent-hashing/main.go:35-46 | a point moves on Remove only if its position was one of the node's |
| RingRuns.RemoveIsMinimal | interview-prep/consistent-hashing/main.go:35-46 | without collisions only keys the node owned move |
| RingRuns.RemoveUndoesAdd | interview-prep/consistent-hashing/main.go:25-46 | Remove after Add restores the map iff none of the node's positions was occupied |
| RingRuns.AddRemoveRestores | interview-prep/consistent-hashing/main.go:25-60 | without collisions, adding an absent node and removing it restores every lookup |
| RingRuns.NodeMapIff | interview-prep/consistent-hashing/main.go:25-46 | for any hash: the ring is the live nodes' positions after every run over some names iff no two of the names collide |
| RingRuns.OwnerIff | interview-prep/consistent-hashing/main.go:48-60 | for any hash: lookups answer the owners after every run over some names iff no two of the names collide |
| RingRuns.Execute | interview-prep/consistent-hashing/main.go:66-110 | the object goes through the specification's states for every sequence of operations |
| Timeline.InMemoryStore.Follow | interview-prep/twitter-timeline/main.go:37-41 | one edge more of this pair and of no other, lists in order of following, and no timeline shows anything else |
| TimelineRuns.RunFollowers | interview-prep/twitter-timeline/main.go:37-41 | after any run an author's list holds each user once per follow |
| TimelineRuns.Execute | interview-prep/twitter-timeline/main.go:37-58 | the object goes through the specification's states, so its timelines and follower lists are those of the two references |
| Timeline.InMemoryStore.PostTweet | interview-prep/twitter-timeline/main.go:45-58 | next ID, tweet stored, one capped push per follower entry: the ID leads each follower's timeline of at most 200, and no other timeline changes |
| Timeline.InMemoryStore.GetTimeline | interview-prep/twitter-timeline/main.go:61-76 | the tweets of the first limit IDs that exist |
| Timeline.Prepend | interview-prep/twitter-timeline/main.go:79-85 | the new ID first, then a prefix of the old ones, as long as there is room |
| TimelineRuns.TimelineRefinesHistory | interview-prep/twitter-timeline/main.go:53-56 | after any run each stored timeline is the first 200 of the full newest-first history, one copy per edge at posting time |
| TimelineRuns.ViewShowsHistory | interview-prep/twitter-timeline/main.go:61-76 | GetTimeline shows the first min(limit, 200) of that history; the existence check never drops one |
| TimelineRuns.WriteEqualsReadIff | interview-prep/twitter-timeline/main.go:43-58 | written history equals the fan-out-on-read merge iff each post found one edge to its author if the user follows that author by now, and none otherwise |
| TimelineRuns.GetTimelineReadsMerge | interview-prep/twitter-timeline/main.go:61-76 | if all follows come first and none repeats, GetTimeline(u, n), n <= 200, is the first n of the merge, IDs strictly falling |
| TimelineRuns.LateFollowDiffers | interview-prep/twitter-timeline/main.go:37-58 | a follow after a post makes the two differ |
| Playlist.PlaylistTracks.ListTracks | beatstream/internal/handler/playlists.go:85-147 | the first fifty rows selected, by position and then time, each once; next cursor the last of them iff more are selected |
| Playlist.PlaylistTracks.AddTrack | beatstream/internal/handler/playlists.go:149-169 | one row more, at position 0 and the current time, or no change if the track is there; order and key kept |
| Playlist.PlaylistTracks.RemoveTrack | beatstream/internal/handler/playlists.go:194-206 | exactly the track's row goes |
| PlaylistWalks.FollowCursors | beatstream/internal/handler/playlists.go:84-146 | following next_cursor to the end terminates on every table at rest and collects the walk |
| PlaylistWalks.WalkExactIff | beatstream/internal/handler/playlists.go:103-113 | the walk returns every row once and in order iff each page's last row separates earlier from later times |
| PlaylistWalks.WalkExact | beatstream/internal/handler/playlists.go:103-113 | in particular when added_at rises strictly along the sort order |
| PlaylistWalks.EqualTimesTruncate | beatstream/internal/handler/playlists.go:110-111 | rows with one common time: only the first page is ever returned |
| PlaylistWalks.AddToPositionedRepeats | beatstream/internal/handler/playlists.go:103-113 | a track added to a playlist with positions from 1 on comes first in order and last in time: of two pages or more, the walk returns it twice |
| PlaylistWalks.CrawlExact | beatstream/internal/handler/playlists.go:85-147 | with any adds at times no row has, later or earlier, and removals of tracks other than the current cursor, between pages, every track present throughout is returned exactly once and all in order |
| PlaylistWalks.EditedPlaylistIsFilled | beatstream/internal/handler/playlists.go:159-163 | a playlist edited only through the handlers, no two rows at one time, meets CrawlExact's hypothesis, in whatever order the inserts commit |
| PlaylistWalks.RemovedCursorEndsWalk | beatstream/internal/handler/playlists.go:110 | after removing the cursor's track the next page is empty and final |
| PlaylistWalks.CursorHoldsIff | beatstream/internal/handler/playlists.go:103-113 | on whatever table: a cursor selects what is later than its row was iff, its track gone, nothing later is left, or, its track there or there again, no row's time lies between its old and new times |
| PlaylistWalks.CursorSurvivesIff | beatstream/internal/handler/playlists.go:103-113 | after any edits between pages, re-adding the track later included, iff its row is still there or nothing later is left |

## Left out

- HTTP routing, authentication, headers, logging, tracing and metrics: wrappers over libraries.
- ffmpeg, ffprobe, temporary files, presigned URLs, Kafka connection code: only their success or failure appears.
- Create's input checks, the artist lookup and the content type: single-branch facts before the first step.
- Stream, search, recommendations, favourites, admin queries, the URL shortener and everything under web and infrastructure.
- Fail-open branches when Redis is down, the X-User-ID exemption, and the login limiter's Retry-After header.
- CRC-32: the hash is a parameter, and no balance of keys is claimed. The sort stands for the library's.
- Floating-point rounding and Redis number formatting; int64 overflow of tweet IDs and counters.
- Upload consumption is modelled by delivering any event at any time, which covers every offset-commit behaviour; offsets themselves appear only for play events.
- The codec column, since only 'ogg' is ever written, and the contents of stored objects.
- TokenBucket.Redis.ApiScript: needs a positive rate; at zero the script divides by it, and what EXPIRE and the reply make of the infinite result is up to the Redis version.
- TokenBucket.Redis.Allow: needs a positive rate, for the same reason.
- Timeline.InMemoryStore.GetTimeline: needs limit >= 0, because the program panics on a negative one.
- Playlist.PlaylistTracks.AddTrack: the foreign keys to playlists and tracks, whose violation is an error answer, are not modelled.
- Playlist.PlaylistTracks.ListTracks: rows that tie in (position, added_at) keep one fixed order, where SQL may reorder them from query to query.
- PipelineCache.CacheHitIsFresh: holds on careful runs only; StaysFreshIff and CachedIffAllListed say exactly what happens otherwise.
