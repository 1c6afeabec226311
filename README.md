# Subgraph pool cache: a Dafny model

This project models the lookup-or-fetch cache that the routing API's subgraph
pool providers use (`lib/handlers/router-entities/aws-subgraph-provider.ts`).
A process-wide local cache (`POOL_CACHE`, a NodeCache with a fixed TTL of 240)
fronts a durable copy of each pool list held in S3:

- the local key of a chain is `pools<chainId>`: it names the chain only, so the
  V2 and V3 providers of one chain read and write the same slot;
- `getPools` returns a live cached list without touching S3; on a miss it calls
  `cachePoolsFromS3`;
- `cachePoolsFromS3` builds the durable key, fetches the object, fails when the
  body is absent or does not parse, and only after both succeed stores the list
  under the chain's local key and returns it;
- each provider's `EagerBuild` warms the cache through `cachePoolsFromS3` before
  constructing the provider. The V2 `EagerBuild` passes the V3 tag when it warms
  the cache (line 90). The model keeps this behaviour as written.

Modules:

- `Wrappers` (wrappers.dfy): `Option` and `Result`.
- `PoolCacheKeys` (keys.dfy): `ChainId` (a number), `Protocol` (`V2 | V3`), the decimal
  rendering of a chain id, and `LocalPoolCacheKey`.
- `LocalCache` (local_cache.dfy): entries with their write instant, the TTL rule
  (`Get` hits while `now - setAt < 240`), and `Set`.
- `SubgraphProvider` (subgraph_provider.dfy): the protocol as functions from the
  cache contents and the clock to an `Outcome` (the result, the cache afterwards,
  and the remote requests made), with the lemmas about it. `V3Provider` and
  `V2Provider` are the two subclass constructors; they fix the protocol tag.
- `PoolCacheState` (pool_cache.dfy): class `PoolCache`, the process-wide cache as an
  object with the map, the clock and a ghost log of remote requests. Its methods
  follow the source step by step, and each one's `ensures` ties its result and new
  state to the function of the same name in `SubgraphProvider`.

The remote store, the durable-key builder `S3_POOL_CACHE_KEY` (defined in
`lib/util/pool-cache-key`, which is not part of this model) and the UTF-8 decoding
plus `JSON.parse` of the body are the three fields of an `Env` value passed to
every call. They are uninterpreted. The source has one fixed `S3_POOL_CACHE_KEY`, but the model does not
require two calls to use the same `poolCacheKey`; every lemma holds whichever builder each call uses. `getObject` answers `Rejected` when the S3 promise
rejects, and otherwise the object's body or no body. `parse` returns `None` when
parsing throws. Passing a different `Env` to a later call models a store whose
contents have changed in between.

Three points of the source the model keeps as written:

- Only an absent `Body` is the "could not get subgraph pool cache" error (line 57). A body
  that is present but empty is a Buffer, which is truthy, so it goes to the parser.
- The V2 warm path uses the V3 tag (line 90). It is not corrected here.
  `EagerBuildV2UsesV3Tag` states what it does.
- Both providers share one element type `P` (the source's bound
  `V2SubgraphPool | V3SubgraphPool`). NodeCache is untyped, so the source does serve a
  list cached through one protocol to the other. `VariantsShareOneSlot` shows it.

## Model

| member | source | states |
|---|---|---|
| PoolCacheKeys.Decimal | lib/handlers/router-entities/aws-subgraph-provider.ts:15 | the chain id rendered in the key is a non-empty string of decimal digits, one digit exactly for ids below 10 |
| PoolCacheKeys.DecimalInjective | lib/handlers/router-entities/aws-subgraph-provider.ts:15 | two chain ids render to the same digits exactly when they are equal |
| PoolCacheKeys.LocalPoolCacheKeyInjective | lib/handlers/router-entities/aws-subgraph-provider.ts:15 | two chains share a local slot exactly when they are the same chain |
| LocalCache.Set | lib/handlers/router-entities/aws-subgraph-provider.ts:14 | after a write at `now`, the key's lookup yields the written list exactly while less than 240 has passed, and lookups of every other key are as before |
| LocalCache.ExpiryIsPermanent | lib/handlers/router-entities/aws-subgraph-provider.ts:14 | once a key's lookup misses, every later lookup of it misses until it is written again |
| SubgraphProvider.CachePoolsFromS3 | lib/handlers/router-entities/aws-subgraph-provider.ts:51-53 | every cachePoolsFromS3 call makes exactly one remote request, for the bucket and the durable key of (baseKey, chainId, protocol) |
| SubgraphProvider.HitServesStoredList | lib/handlers/router-entities/aws-subgraph-provider.ts:23-32 | on a live entry for the provider's chain, getPools returns exactly the stored list, makes no request and writes nothing |
| SubgraphProvider.FetchesIffExpired | lib/handlers/router-entities/aws-subgraph-provider.ts:23-38 | getPools makes no request exactly when the chain's entry exists and is younger than 240, and otherwise exactly one, for the provider's own durable key |
| SubgraphProvider.FailureLeavesCacheUnchanged | lib/handlers/router-entities/aws-subgraph-provider.ts:53-65 | a getPools call that fails leaves the cache contents as they were |
| SubgraphProvider.NoBodyFails | lib/handlers/router-entities/aws-subgraph-provider.ts:55-59 | an object without a body yields the no-body error for the protocol, never a list, and the cache is unchanged |
| SubgraphProvider.RejectedFetchFails | lib/handlers/router-entities/aws-subgraph-provider.ts:53 | a rejected getObject propagates as an error and the cache is unchanged |
| SubgraphProvider.MalformedBodyFails | lib/handlers/router-entities/aws-subgraph-provider.ts:61-65 | a body that does not parse yields the parse error and the cache is unchanged, because the write comes after the parse |
| SubgraphProvider.SuccessStoresParsedList | lib/handlers/router-entities/aws-subgraph-provider.ts:61-67 | on success the result is the parsed list, and the new cache is the old one with only the chain's key set to that list written at `now` |
| SubgraphProvider.OtherChainsUntouched | lib/handlers/router-entities/aws-subgraph-provider.ts:65 | a getPools call for one chain never changes what lookups of another chain's key see, at any instant |
| SubgraphProvider.SecondCallWithinTtlIsHit | lib/handlers/router-entities/aws-subgraph-provider.ts:23-32 | after a successful miss at `now`, any getPools of a provider of the same chain (any protocol, any store contents) at an instant within 240 returns the same list with no request and no write |
| SubgraphProvider.ExpiredEntryRefetches | lib/handlers/router-entities/aws-subgraph-provider.ts:23-38 | once 240 has passed since the write, the next getPools is a miss that goes through cachePoolsFromS3 again with exactly one request |
| SubgraphProvider.VariantsShareOneSlot | lib/handlers/router-entities/aws-subgraph-provider.ts:15-23 | a list cached through the V3 provider of a chain is returned to a V2 provider of that chain, with no request |
| SubgraphProvider.EagerBuildV3Warms | lib/handlers/router-entities/aws-subgraph-provider.ts:75-80 | V3 EagerBuild makes one request with the V3 key, leaves exactly the cache cachePoolsFromS3 leaves, succeeds exactly when fetch and parse succeed, keeps the error and the cache on failure, and on success returns the V3 provider whose first getPools within the TTL is a hit |
| SubgraphProvider.EagerBuildV2UsesV3Tag | lib/handlers/router-entities/aws-subgraph-provider.ts:88-93 | V2 EagerBuild requests the V3-tagged durable key and has the same effect on cache and store as the V3 EagerBuild, yet returns a V2 provider, which is then served that V3-tagged list |
| SubgraphProvider.ServeFromLiveEntry | lib/handlers/router-entities/aws-subgraph-provider.ts:23-32 | any run of getPools calls at instants where the entry is live returns its list every time, makes no request and leaves the cache as it was |
| SubgraphProvider.OneFetchPerTtlWindow | lib/handlers/router-entities/aws-subgraph-provider.ts:20-41 | a run of getPools calls that starts with a successful miss and stays within 240 of it makes exactly one remote request, and every call returns the list it fetched |
| PoolCacheState.PoolCache.constructor | lib/handlers/router-entities/aws-subgraph-provider.ts:14 | the cache starts empty, with no requests made |
| PoolCacheState.PoolCache.Get | lib/handlers/router-entities/aws-subgraph-provider.ts:23 | returns the stored list exactly when the lookup hits under the TTL rule, and changes nothing |
| PoolCacheState.PoolCache.Set | lib/handlers/router-entities/aws-subgraph-provider.ts:65 | the key's entry becomes the list written at the current instant, and no other key changes |
| PoolCacheState.PoolCache.CachePoolsFromS3 | lib/handlers/router-entities/aws-subgraph-provider.ts:44-68 | result, new cache and request log are those of the CachePoolsFromS3 function; a failure leaves the cache as it was |
| PoolCacheState.PoolCache.GetPools | lib/handlers/router-entities/aws-subgraph-provider.ts:20-41 | result, new cache and request log are those of the GetPools function; on a hit the stored list is returned with no request and no write |
| PoolCacheState.PoolCache.EagerBuildV3 | lib/handlers/router-entities/aws-subgraph-provider.ts:75-80 | result, new cache and request log are those of the EagerBuildV3 function |
| PoolCacheState.PoolCache.EagerBuildV2 | lib/handlers/router-entities/aws-subgraph-provider.ts:88-93 | result, new cache and request log are those of the EagerBuildV2 function; the provider returned is tagged V2 |

## Left out

- The S3 client, `new S3()` and `getObject(...).promise()`: network I/O. They are the uninterpreted `Env.getObject`, answered once per call.
- The UTF-8 decoding of the buffer and `JSON.parse`: library calls. They are the uninterpreted partial `Env.parse`, which either yields a list or fails.
- Bodies whose JSON is valid but not an array: the model covers only bodies that parse to a JSON array or fail to parse. The source casts any parsed value to a pool list without checking it, and three behaviours follow that the model does not express. A parsed `null` makes `pools.length` in the log call (line 63) throw before the write at line 65. A cached number, boolean or plain object is a hit whose `cachedPools.slice(0, 5)` (line 27) throws, so every call within the TTL fails. A cached `0`, `false` or `""` is falsy at line 25, so every call is a miss and fetches again.
- `S3_POOL_CACHE_KEY`: lib/util/pool-cache-key is not part of this model. It is the uninterpreted `Env.poolCacheKey`, so nothing is assumed about its injectivity.
- The `log.info` calls and the `slice(0, 5)` sample: logging, with no effect on results for the JSON-array bodies the model covers (see the line above for the other bodies).
- Async scheduling: concurrent misses on one key that both fetch and both write are not modelled. Each call runs to completion before the next.
- Fetch latency: each call takes no time on the model's clock. The entry a miss writes is stamped with the instant of its lookup. In the source, `POOL_CACHE.set` (line 65) runs only after the awaited `getObject` (line 53) resolves, so the TTL window starts later by the fetch latency. A call made 240 after the lookup, or later by less than the fetch latency, misses by `ExpiredEntryRefetches` but can still hit in the source.
- NodeCache internals: the clock counts in the TTL's unit, and an entry is live while `now - setAt < 240`. NodeCache compares expiry times in milliseconds, so the exact boundary instant is not modelled. NodeCache also deletes an expired entry when it is read. The model keeps it in the map instead. No lookup can tell the difference, but this is why "the cache is unchanged" on a failed miss means the map is unchanged, including any expired entry.
- `useClones: false`: the model returns the stored sequence value. Reference identity and in-place mutation by callers are not modelled.
- The generic bounds `V2SubgraphPool | V3SubgraphPool` and the `IV2SubgraphProvider`/`IV3SubgraphProvider` interfaces: external types. Pool records are the opaque type parameter `P`.
- `Protocol` has only the two tags the providers use. `ChainId` is any natural number rather than the closed list of chain ids the router package enumerates.
- Providers hold only fixed configuration and are values (`Provider`). `getPools` and `EagerBuild` are methods of `PoolCache`, the object that owns the cache they read and write.
