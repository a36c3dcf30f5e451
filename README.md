# tiered_caching in Dafny

A model of the core of the `tiered_caching` Ruby library. The library is a
caching layer built from interchangeable stores that answer `get`, `set`,
`getset`, `delete` and `clear`.

- `CacheLine` is an ordered list of tiers. `get` walks them top-down. A value
  found deep down is promoted into the tiers that missed it, and one
  "Cache miss at level i" warning is logged per missed tier.
- `ReplicatingStore` spreads each key over R consecutive buckets, taken
  modulo N, of N backing stores. `get` scans forward from the key's primary
  bucket and repairs the buckets it scanned before the hit.
- `RedisStore` is a circuit breaker around a Redis connection that can
  raise. The first failure logs one warning, drops the connection, forgets
  the getset script id and stamps the time. Guarded calls (`set`, `get`,
  `getset`) then do nothing until 5 seconds have passed; `delete` and
  `clear` go straight to the connection and bypass the breaker.
- `HashStore` is the map-backed store; it answers only `get` and `set`.
  The tiers and buckets of the other components are generic map stores
  that also answer `delete` and `clear`.

Stores are modelled as `map<K, V>`. `V` stands for Ruby's truthy values and
absence is `None`.

The walk with promotion is shared by `CacheLine#internal_get` and
`ReplicatingStore#recursive_get`. It is written once, as
`Promotion.ReadThrough`, over a list of store positions:

- the cache line walks `0, 1, …, n-1`;
- the replicating store walks `(h+i) mod N` for `i` below its scan length.

Each class method is proved against that function, and the properties are
lemmas about it.

The Redis server is a value: `Server(data, expiring, loaded)`. The class keeps:

- the server;
- the breaker fields `@active_connection`, `@disconnect_time`, `@getset_sha`
  and `@getset_ttl_sha`;
- a ghost log of the commands sent;
- a ghost log of the warnings.

Three things are explicit parameters:

- which command of a guarded block raises: `failAt`, its position in the
  block;
- the wall clock: `now`, in whole seconds, read once per call;
- the key hash of the replicating store: `keyHash`, given to the
  constructor, because MD5 is foreign code.

Files:

- `optional.dfy`: the `Option` type.
- `hash_store.dfy`: `HashStore`, and the map operations `Lookup` and `GetOrInsert`.
- `promotion.dfy`: the shared read-through walk.
- `cache_line.dfy`: `CacheLine`.
- `replicating_store.dfy`: bucket arithmetic and `ReplicatingStore`.
- `redis_store.dfy`: the remote server, the breaker as functions, and `RedisStore`.

## Model

| member | source | states |
|---|---|---|
| HashStores.Lookup | lib/tiered_caching/hash_store.rb:6 | reading a key: a value exactly when the key is present, and then the stored one |
| HashStores.GetOrInsert | spec/classes/redis_store_spec.rb:156-163 | the getset script: the stored value is kept and returned when present; otherwise the candidate is stored and returned; either way the key ends up holding the answer |
| HashStores.GetOrInsertIdempotent | spec/support/store_helpers.rb:4-17 | a second get-or-insert on the same key returns what the first returned and changes nothing, whatever its candidate |
| HashStores.HashStore.constructor | lib/tiered_caching/hash_store.rb:8-10 | starts from the contents of the given map (held as a value, see Left out) |
| HashStores.HashStore.Set | lib/tiered_caching/hash_store.rb:5 | `set` returns its value, and the map becomes the old map with `key` bound to it; every other key reads as before |
| HashStores.HashStore.Get | lib/tiered_caching/hash_store.rb:6 | `get` answers a value exactly when the key is present, and that value is the stored one; it changes nothing |
| HashStores.SetThenGet | lib/tiered_caching/hash_store.rb:5-6 | after `set(k, v)`, `get(k)` is `v` and a key never set is nil |
| Promotion.MissWarnings | lib/tiered_caching/cache_line.rb:38 | one "cache miss" warning per missed level, in order |
| Promotion.ReadThrough | lib/tiered_caching/cache_line.rb:33-42 | the walk: positions before the answer all missed and are reported in order; a value is found exactly when the walk stops before the end, and it is the first holder's value; every missed position, and only those, receives the found value; nothing is written when nothing is found |
| Promotion.AfterMiss | lib/tiered_caching/cache_line.rb:37-40 | one missed step: its position is logged before the later misses, the answer is the rest of the walk's, and on a hit only that position is written with the answer |
| Promotion.ProbingStep | lib/tiered_caching/cache_line.rb:37-39 | (helper) a miss at the current position prepends it to the misses of the rest of the walk |
| Promotion.AnsweringStep | lib/tiered_caching/cache_line.rb:39-40 | (helper) the promotion write at a missed position keeps the answer and the write-set invariant |
| Promotion.StopsAtFirstHit | lib/tiered_caching/cache_line.rb:37 | the walk's misses are exactly the positions before the first holder: deeper stores are never queried |
| Promotion.NothingFoundNothingWritten | lib/tiered_caching/cache_line.rb:33-42 | when no probed store holds the key, the answer is nil, every position is a miss and no store changes |
| Promotion.FirstProbeHit | lib/tiered_caching/cache_line.rb:37 | a hit at the first position answers it with no miss and no write |
| CacheLines.Levels | lib/tiered_caching/cache_line.rb:33 | the tier indexes `0..n-1`, in order |
| CacheLines.WriteAll | lib/tiered_caching/cache_line.rb:14 | every tier gets `key` bound to the value, and nothing else changes |
| CacheLines.ClearedCount | lib/tiered_caching/cache_line.rb:26 | how many tiers `tiers[0...depth]` selects, with Ruby's slice rules: `depth` itself when in range, all tiers beyond, counted from the end when negative |
| CacheLines.CacheLine.constructor | lib/tiered_caching/cache_line.rb:4-7 | a named line with no tiers |
| CacheLines.CacheLine.Append | lib/tiered_caching/cache_line.rb:9-11 | `<<` appends the tier at the end and keeps the earlier tiers in order |
| CacheLines.CacheLine.Set | lib/tiered_caching/cache_line.rb:13-15 | `set` answers the given value, or else the block's value with the block run once; every tier is written with it |
| CacheLines.CacheLine.FirstHolder | lib/tiered_caching/cache_line.rb:33-37 | the loop finds the first tier holding the key, or the tier count, and logs each tier it reads, in order |
| CacheLines.CacheLine.PromoteAbove | lib/tiered_caching/cache_line.rb:39-40 | the tiers above the hit get the value; the rest are unchanged |
| CacheLines.CacheLine.Get | lib/tiered_caching/cache_line.rb:17-42 | `get` answers as the walk over `0..n-1` does, leaves the tiers as the walk writes them, logs one warning per missed level in order, and probes exactly the missed tiers plus the hit |
| CacheLines.CacheLine.GetSet | lib/tiered_caching/cache_line.rb:21-23 | `getset` answers a found value without running the block (and promotes it); otherwise it runs the block once and writes its value to every tier |
| CacheLines.CacheLine.Clear | lib/tiered_caching/cache_line.rb:25-27 | `clear(depth)` empties exactly the first `ClearedCount(depth, n)` tiers and leaves the others alone |
| CacheLines.GetPromotesAbove | lib/tiered_caching/cache_line.rb:37-41 | after a hit at tier `j`: the misses are `0..j-1`, the answer is tier `j`'s value, tiers `0..j-1` all hold it and tiers `j..` are unchanged; without a hit, all tiers missed and none changed |
| CacheLines.SetThenGet | lib/tiered_caching/cache_line.rb:13-42 | after `set`, `get` answers the value from tier 0 with no miss (nil with no tiers) |
| CacheLines.PromotionScenario | spec/shared_examples/cache_line.rb:127-150 | three tiers with the value only in the lowest: `get` answers it, a lookup of the key in each of the three tiers then answers that value, and misses at levels 0 and 1 are logged |
| CacheLines.GetSetScenario | spec/shared_examples/cache_line.rb:168-183 | `getset` returns a previously set value without running the block; otherwise it runs the block once and caches the result for the next call |
| Replication.StoreIndex | lib/tiered_caching/replicating_store.rb:54-56 | `index % count` is a bucket below `count` |
| Replication.Bucket | lib/tiered_caching/replicating_store.rb:54-56 | the bucket `i` steps after the primary one is `(h+i) mod N`, below N |
| Replication.Replicas | lib/tiered_caching/replicating_store.rb:48-52 | the buckets of `replication_range`: every `(h+i) mod N` with `0 <= i < R`, nothing else, all below N |
| Replication.ScanLength | lib/tiered_caching/replicating_store.rb:15-37 | how many buckets `get` scans before the index reaches `(h+R) mod N`, for any integer R: at least one and at most N |
| Replication.ScanOrder | lib/tiered_caching/replicating_store.rb:39-46 | the scan visits `(h+i) mod N` for `i` below its length, in order, and each bucket is valid |
| Replication.BucketAt | lib/tiered_caching/replicating_store.rb:54-56 | (helper) `(h+i) mod N` with no modulo, for `i <= N` |
| Replication.DistinctOffsets | lib/tiered_caching/replicating_store.rb:48-56 | (helper) offsets less than N apart land in different buckets |
| Replication.NextBucket | lib/tiered_caching/replicating_store.rb:43 | `store_index(index+1)` after offset `j` is offset `j+1` |
| Replication.EndBucket | lib/tiered_caching/replicating_store.rb:17 | `store_index(h + R)` is the bucket at the scan length |
| Replication.ScanStop | lib/tiered_caching/replicating_store.rb:34 | the scan reaches the end index exactly when the scan length is used up |
| Replication.ReplicasStep | lib/tiered_caching/replicating_store.rb:48-52 | one more replica adds the next bucket |
| Replication.NoReplicas | lib/tiered_caching/replicating_store.rb:48-52 | with `R <= 0` the range `start...start+R` is empty, so `set` and `delete` touch no bucket |
| Replication.NegativeFactorScan | lib/tiered_caching/replicating_store.rb:15-37 | with `-N < R < 0`, `get` still scans `N + R` buckets, none of which `set` wrote |
| Replication.ReplicaCount | lib/tiered_caching/replicating_store.rb:48-52 | with `R <= N` the replication range covers exactly R distinct buckets |
| Replication.FullFactorCoversAll | lib/tiered_caching/replicating_store.rb:3-13 | with `R >= N` (the default `R = N` included) every store is a replica |
| Replication.ScanMatchesReplicas | lib/tiered_caching/replicating_store.rb:15-52 | with `1 <= R <= N`, `get` scans exactly R buckets, these are the buckets `set` writes, and the scan starts at the primary bucket |
| Replication.PrimaryIsReplica | lib/tiered_caching/replicating_store.rb:15-56 | the primary bucket `h mod N` is written by `set` and is scanned first |
| Replication.ReplicatingStore.constructor | lib/tiered_caching/replicating_store.rb:3-6 | the stores as given; R as given (any integer, negative included), or N by default |
| Replication.ReplicatingStore.Set | lib/tiered_caching/replicating_store.rb:8-13 | `set` returns its value and writes it to exactly the stores in the replication range; other stores are unchanged |
| Replication.ReplicatingStore.Delete | lib/tiered_caching/replicating_store.rb:21-25 | `delete` removes the key from exactly the stores `set` writes to |
| Replication.ReplicatingStore.Clear | lib/tiered_caching/replicating_store.rb:27-29 | `clear` empties all N stores, whatever R is |
| Replication.ReplicatingStore.ScanMisses | lib/tiered_caching/replicating_store.rb:33-46 | the loop counts the scanned buckets that miss before the first holder, or the whole scan length, and logs each bucket it reads, in scan order |
| Replication.ReplicatingStore.Repair | lib/tiered_caching/replicating_store.rb:44 | the value is written back to exactly the buckets that missed |
| Replication.ReplicatingStore.Get | lib/tiered_caching/replicating_store.rb:15-46 | `get` answers as the walk over the scan order does, leaves the stores as the walk writes them (read-repair), logs one warning per missed bucket, and probes the missed buckets plus the hit |
| Replication.GetAfterSet | lib/tiered_caching/replicating_store.rb:8-19 | after `set`, `get` answers the value from the primary bucket with no miss and no write |
| Replication.OutsideWindowNotFound | lib/tiered_caching/replicating_store.rb:33-37 | a key held only outside the R-bucket window is not found: `get` answers nil, every scanned bucket misses and no store changes |
| Replication.FiveBucketWalk | lib/tiered_caching/replicating_store.rb:39-46 | five buckets with primary 2 and the value only in bucket 0: the misses are 2, 3, 4, all three are repaired, and buckets 0 and 1 are unchanged |
| Replication.ReadRepairScenario | spec/classes/replicating_store_spec.rb:125-143 | the same walk through the class: the answer is the value; afterwards a lookup of the key answers that value in buckets 2, 3, 4 and 0 and nothing in bucket 1; three misses are logged |
| Replication.NarrowWindowScenario | spec/classes/replicating_store_spec.rb:147-154 | with R = 1, a value in a bucket other than the primary is not found, nothing is written, and one miss is logged |
| RedisStores.Exec | lib/tiered_caching/redis_store.rb:11-49 | one command that goes through: GET reads, the getset script is the get-or-insert, SET overwrites and drops any TTL, DEL removes, FLUSHALL empties, SCRIPT LOAD registers the script |
| RedisStores.Issue | lib/tiered_caching/redis_store.rb:59-62 | a block runs its commands in order until the first one raises; a command raises only at the oracle's position or as an unloaded `evalsha`; loaded scripts stay loaded |
| RedisStores.Reconnect | lib/tiered_caching/redis_store.rb:53-57 | the connection is active afterwards exactly when it was, or a failure is stamped and 5 seconds have passed; nothing else changes |
| RedisStores.Trip | lib/tiered_caching/redis_store.rb:62-67 | the rescue: the connection is dropped, the time stamped `now`, `@getset_sha` cleared; the server and the TTL script id are kept |
| RedisStores.Attempt | lib/tiered_caching/redis_store.rb:59-68 | a block on the active connection: the commands sent are a prefix of the block; on failure the last one sent is the one that raised, the breaker trips and the answer is nil; otherwise the whole block was sent and only the server changed |
| RedisStores.Guard | lib/tiered_caching/redis_store.rb:52-70 | `with_connection`: while the connection stays down the call changes nothing, sends nothing and answers nil; otherwise it sends a prefix of the block, at least its first command |
| RedisStores.SetCommands | lib/tiered_caching/redis_store.rb:21-24 | the `set` block: SET, then EXPIRE with the TTL exactly when one is configured |
| RedisStores.SetOp | lib/tiered_caching/redis_store.rb:20-26 | `set` sends a prefix of its block, its guarded call answers nil (the method answers the value), and the TTL script id and the loaded scripts are untouched |
| RedisStores.GetOp | lib/tiered_caching/redis_store.rb:28-30 | `get` sends at most one GET, never changes the server, and a GET that went through answers the stored value |
| RedisStores.GetsetCommands | lib/tiered_caching/redis_store.rb:32-50 | the `getset` block: a `script load` exactly when the id is not memoised, then an `evalsha` of the key with `[value]`, or `[value, ttl]` with a TTL |
| RedisStores.GetsetOp | lib/tiered_caching/redis_store.rb:32-70 | `getset` while the connection stays down changes nothing and answers nil; it runs the block at most once, sends at most two commands, and a failure trips the breaker and answers nil |
| RedisStores.GetsetAttempt | lib/tiered_caching/redis_store.rb:33-50 | the `getset` block: it sends a non-empty prefix of its commands; the block runs exactly when the id was memoised or its load went through; a memoised id survives unless a plain-script failure clears it |
| RedisStores.IssueOne | lib/tiered_caching/redis_store.rb:59-62 | (helper) the outcome of a one-command block |
| RedisStores.IssueTwo | lib/tiered_caching/redis_store.rb:59-62 | (helper) the outcome of a two-command block |
| RedisStores.GuardStaysConsistent | lib/tiered_caching/redis_store.rb:52-70 | `set` and `get` keep the breaker consistent: a dropped connection has a failure time, and a cached script id names a loaded script |
| RedisStores.GetsetStaysConsistent | lib/tiered_caching/redis_store.rb:32-50 | `getset` keeps the breaker consistent: an id is memoised only after its load went through |
| RedisStores.SetWrites | lib/tiered_caching/redis_store.rb:20-24 | a `set` that goes through writes the value; with a TTL it sends EXPIRE and the key gets the TTL; without one it sends only SET and the key has no TTL |
| RedisStores.GuardTrips | lib/tiered_caching/redis_store.rb:59-68 | a guarded call fails exactly when a command of its block raised; then the connection is dropped, the failure time is `now`, `@getset_sha` is cleared, `@getset_ttl_sha` is kept and the call answers nil |
| RedisStores.GetsetTrips | lib/tiered_caching/redis_store.rb:32-68 | a `getset` fails exactly when the connection is up after the reconnect check and its block raises; then the connection is dropped, the time stamped `now`, `@getset_sha` cleared, at least one command sent and nil answered (nothing is said of the TTL id, which the failing call may itself have memoised) |
| RedisStores.SilentWhileTripped | lib/tiered_caching/redis_store.rb:53-60 | while tripped and within 5 seconds of the failure, `set`, `get` and `getset` send nothing, log nothing, change nothing, answer nil and do not run the getset block |
| RedisStores.ReconnectsAfterWindow | lib/tiered_caching/redis_store.rb:53-57 | once 5 seconds have passed, `get` reaches the connection again and, if the GET goes through, answers the stored value with the connection active |
| RedisStores.GetsetConforms | lib/tiered_caching/redis_store.rb:32-40 | a `getset` that goes through answers and stores as the get-or-insert script does, runs the block once, ends with the script id memoised, and finishes with an `evalsha` of the key and `[value]`, or `[value, ttl]` with a TTL |
| RedisStores.GetsetReusesSha | lib/tiered_caching/redis_store.rb:44-50 | with the id memoised, `getset` sends only the `evalsha`, with no `script load` |
| RedisStores.GetsetFailureForgetsPlainShaOnly | lib/tiered_caching/redis_store.rb:35-65 | a failed `script load` leaves the block unevaluated; an `evalsha` that raises after a good load clears `@getset_sha` but keeps the TTL script id |
| RedisStores.GetsetReloadsAfterTrip | lib/tiered_caching/redis_store.rb:44-65 | after a failed `getset` without a TTL, the next `getset` once the connection is back sends `script load` again and then the `evalsha` |
| RedisStores.NoScriptNeverRaised | lib/tiered_caching/redis_store.rb:44-50 | on a server that keeps its scripts, while the breaker is consistent, `getset` fails only when the connection raises, never with NOSCRIPT |
| RedisStores.ScriptFlush | lib/tiered_caching/redis_store.rb:44-50 | the server dropping every loaded script while keeping its data, behind the store's memoised ids |
| RedisStores.FlushStrandsTtlSha | lib/tiered_caching/redis_store.rb:48-50 | a flush under a store that memoised the TTL id leaves that id naming an unloaded script, and the store inconsistent |
| RedisStores.StrandedTtlShaPersists | lib/tiered_caching/redis_store.rb:48-67 | a stranded TTL id stays stranded through `getset`, `set` and `get`: each TTL `getset` that reaches the connection sends the stale `evalsha` alone, fails and answers nil, every window after every reconnect |
| RedisStores.PlainShaRecovers | lib/tiered_caching/redis_store.rb:44-67 | a stranded plain id costs one failure: the `rescue` clears `@getset_sha`, and the `getset` after the window reloads the script, succeeds with the get-or-insert answer and memoises the id again |
| RedisStores.GetsetKeepsFirst | spec/classes/redis_store_spec.rb:156-163 | a second `getset` of a key answers what the first stored and changes no data, whatever its own block computes |
| RedisStores.GetAfterSet | spec/classes/redis_store_spec.rb:44-107 | a `get` after a successful `set` answers the value |
| RedisStores.RedisStore.constructor | lib/tiered_caching/redis_store.rb:14-18 | the store starts with an active connection, no failure time and no memoised ids |
| RedisStores.RedisStore.ReconnectIfDue | lib/tiered_caching/redis_store.rb:53-57 | the connection becomes active once 5 seconds have passed since the failure |
| RedisStores.RedisStore.Send | lib/tiered_caching/redis_store.rb:61 | (helper) one command on the connection: it either raises and changes nothing, or runs as `Exec` does |
| RedisStores.RedisStore.TripOn | lib/tiered_caching/redis_store.rb:62-67 | (helper) the `rescue`: log one warning, drop the connection, clear `@getset_sha`, stamp `now` |
| RedisStores.RedisStore.Set | lib/tiered_caching/redis_store.rb:20-26 | `set` returns its value whatever happens, and the state, the commands sent and the warnings logged are those of the guarded call; the breaker stays consistent |
| RedisStores.RedisStore.SetBlock | lib/tiered_caching/redis_store.rb:21-24 | (helper) the `set` block on an active connection |
| RedisStores.RedisStore.Get | lib/tiered_caching/redis_store.rb:28-30 | `get` answers, changes state, sends and logs as the guarded call does |
| RedisStores.RedisStore.Getset | lib/tiered_caching/redis_store.rb:32-40 | `getset` answers, changes state, sends, logs and runs the block as the guarded call does |
| RedisStores.RedisStore.GetsetBlock | lib/tiered_caching/redis_store.rb:33-39 | (helper) the `getset` block on an active connection |
| RedisStores.RedisStore.EvalCached | lib/tiered_caching/redis_store.rb:35-49 | (helper) `getset` with the id already memoised |
| RedisStores.RedisStore.LoadThenEval | lib/tiered_caching/redis_store.rb:35-49 | (helper) `getset` that first loads and memoises the id |
| RedisStores.RedisStore.Delete | lib/tiered_caching/redis_store.rb:11 | `delete` goes straight to `del`, breaker or not: the key is removed, or the error reaches the caller; the breaker fields are untouched and stay consistent |
| RedisStores.RedisStore.Clear | lib/tiered_caching/redis_store.rb:12 | `clear` goes straight to `flushall`, breaker or not: all data and times to live go, the scripts stay, the breaker fields are untouched and stay consistent |
| RedisStores.BreakerScenario | spec/classes/redis_store_spec.rb:67-98 | a `set` whose SET raises still answers its value and logs once; a `get` 3 seconds later sends nothing and answers nil; at 5 seconds a `set` and a `get` reach the server and the value is read back |
| RedisStores.ScriptCacheScenario | spec/classes/redis_store_spec.rb:167-176 | two `getset`s: the script is loaded once, both `evalsha`s carry `keys: [key]` and `argv: [value]`, and the second answers the first value |
| RedisStores.TtlShaScenario | lib/tiered_caching/redis_store.rb:35-65 | with a TTL, a failed `evalsha` keeps the TTL script id, so the `getset` after reconnecting sends the `evalsha` alone |

## Left out

- The other library files are not part of this model:
  - `simple_lock.rb`, the distributed lock;
  - `async_store.rb`, which is concurrency;
  - `serializing_store.rb`, which wraps Ruby `Marshal`;
  - `safe_connection_pool.rb`;
  - `cache_master.rb` and `cached_object.rb`, which use a process-global line and Ruby's class system;
  - `logging.rb`, which is I/O configuration.
- Logging is a ghost list of warnings, not I/O. A warning records its origin and level, or the breaker's action; the exception text is not modelled.
- `Replication.ReplicatingStore` takes the key hash as a parameter `keyHash: K -> nat`. MD5 of `to_s` is foreign code.
- `RedisStores` never calls `Time.now`. It takes `now` as whole seconds, read once per call; the code reads it twice, once to test the 5-second window and once in the `rescue`.
- Redis and Lua are an abstract server.
  - Both getset scripts are the get-or-insert of `spec/classes/redis_store_spec.rb:156-163`. `getset_ttl.lua` is not part of this model, so its effect on the time to live is not modelled.
  - Keys never expire with time: the time to live is only recorded.
  - The server loses its scripts only through `RedisStores.ScriptFlush`, a transition applied from outside the store; the `RedisStore` class has no operation for it.
- `RedisStores.Issue`: a command that raises has no effect on the server. A partial write is not modelled.
- Ruby `nil` and `false` cannot be stored as values. Absence is `None`, matching how `||` treats both as a miss.
- A block given to `getset` that raises is not modelled. The candidate is a parameter, and `blockRuns` counts the block's evaluations.
- `RedisStores.RedisStore.Delete` and `RedisStores.RedisStore.Clear` do not model the reply of `del` or `flushall`. Only their effect is modelled, and whether the error propagates.
- Tiers and buckets are maps held by value. `HashStore` copies the caller's hash instead of wrapping it by reference (`lib/tiered_caching/hash_store.rb:8-10`), so a write through the store is not seen through the caller's hash, nor the reverse. Two tiers cannot alias one store object, and a tier's own `get`/`set` are not re-dispatched (a tier that is itself a `RedisStore` or a `ReplicatingStore` is not modelled).
- `Replication.ReplicatingStore.constructor` requires at least one backing store. The Ruby constructor accepts an empty list; then `get` raises `ZeroDivisionError` in `store_index`, and so do `set` and `delete` when R >= 1. That configuration is not modelled.
- `RedisStores.NoScriptNeverRaised` holds only on a server that keeps its scripts. After a script flush or a Redis restart a memoised TTL id is never forgotten, so every TTL `getset` fails again after each reconnect (`RedisStores.StrandedTtlShaPersists`), while the plain id recovers after one failure (`RedisStores.PlainShaRecovers`).
- `HashStore` defines only `get` and `set` (`lib/tiered_caching/hash_store.rb:5-6`). Over `HashStore` tiers or buckets, `CacheLine#clear` and `ReplicatingStore#delete`/`#clear` would raise `NoMethodError`. The model's tiers and buckets are generic stores answering `delete` and `clear` as well, so that failure is not modelled.
- `CacheLine#delete`, `#clear_local` and `#append_local_cache`, and a default depth for `clear`, are exercised by the shared examples. `cache_line.rb` does not define them, so they are not modelled.

Notes on the code as modelled:

- The code accepts any integer R (`lib/tiered_caching/replicating_store.rb:3-6`), and so does the model. With `R <= 0`, `set` and `delete` touch no bucket (`Replication.NoReplicas`), yet `get` still scans `R mod N` buckets (Ruby's modulo, never negative), or N when that is 0 (`Replication.NegativeFactorScan`). The lemmas that equate the scan with the write range assume `1 <= R <= N`.
- A failure clears only `@getset_sha` (`lib/tiered_caching/redis_store.rb:65`). The TTL script id stays memoised, as `RedisStores.GetsetFailureForgetsPlainShaOnly` and `RedisStores.TtlShaScenario` state. Once the server has lost its scripts this keeps a TTL store failing for good, while a plain store recovers (`RedisStores.StrandedTtlShaPersists`, `RedisStores.PlainShaRecovers`).
- The tests stub the key's `hash` for bucket placement, while the code hashes with MD5. Both are covered by the abstract `keyHash`.
