# hm-dianping flash-sale and shop-cache core, modelled in Dafny

This project models the Redis-backed core of the hm-dianping service:

- **Order ids (`IdWorker`).** `RedisIdWorker.nextId` packs the seconds since 2025-11-03 into the high bits of a Java `long`. The low 32 bits hold a per-prefix, per-day Redis counter. Java's `<<` and `|` on `long` are written out on integers.
- **Owner-token lock (`RedisLock`).** `SimpleRedisLock` keeps a lease lock on `lock:` + name. The key's value is the owner's token: the process UUID, then the thread id. `unlock()` deletes the key only while it still holds the caller's token.
- **Admission and fulfilment (`VoucherOrders`).**
  - `setKillVoucher` draws an order id and maps the admission script's code to a response.
  - The consumer thread reads `stream.orders` as consumer `c1` of group `g1` and handles each order under the per-user lock.
  - `createVoucherOrder` is one transaction: duplicate check, conditional stock decrement, insert.
  - An entry is acknowledged only when handling returns normally. After an exception, `handlePendingList` replays the pending list.
- **Cache-aside reads (`Cache`).** `CacheClient` offers two reads:
  - pass-through, which caches an empty-string sentinel for a missing entity;
  - logical expiry, where a `RedisData` envelope carries its own expiry time, a stale hit is still answered, and the winner of `lock:shop:` + id schedules a rebuild.
- **Shop service (`ShopService`).** `ShopServiceImpl` provides:
  - `queryById` through the logical-expiry read;
  - `update`, which writes the database first and then deletes the cache key;
  - the mutex rebuild `queryWithMutex`;
  - cache warm-up with `saveShopToRedis`.

The project has two layers:

- **Specification functions.** Each operation is a function over a value state: the key/value store `Kv`, the order `Tables`, the order `Stream` and the shop rows. The properties are lemmas about these functions.
- **Classes.** Each component that the Java code updates in place is a class (`RedisStore`, `SimpleRedisLock`, `RedisIdWorker`, `OrderTables`, `OrderStreamLog`, `ShopTable`, `CacheClient`, `ShopServiceImpl`, `VoucherOrderServiceImpl`). Each of its methods ensures that its result and new state are what the specification function gives for the old state.

The store is one map from key to value. Each value records the TTL it was written with. The passage of a key's TTL is the explicit action `RedisStore.ExpireKey`.

The following are parameters, not modelled behaviour:

- the clock (an epoch second, or a `DateTime` reading);
- the current user;
- the owner thread;
- what the database answers.

A Java call that may throw returns `Call<T>`, either `Returns(v)` or `Throws`. The `Result` DTO is `Response<T>`.

Constants from `RedisConstants` used by the model:

| constant | value |
|---|---|
| `CACHE_SHOP_KEY` | `cache:shop:` |
| `LOCK_SHOP_KEY` | `lock:shop:` |
| `CACHE_NULL_TTL` | 2 minutes |
| `CACHE_SHOP_TTL` | 30 minutes |

`RedisConstants.java` is not part of this model, so these values are assumed. Only `CACHE_NULL_TTL` appears as a number in a contract: the 120-second sentinel TTL in `Cache.PassThroughMiss`.

Three library calls are defined directly from the library's documented behaviour, with nothing further to prove about them:

- `Cache.ToBean` stands for hutool's `JSONUtil.toBean`;
- `ShopDb.ShopTable.Load` stands for MyBatis-Plus `getById`;
- `OrderStream.ReadPending` stands for `XREADGROUP ... 0`, which reads the pending list.

What the core relies on about them is proved in `Cache.DocNotBlank`, `Cache.PassThroughHit` and `VoucherOrders.PendingStepEffect`; `ShopDb.ShopTable.GetById` is the method through which `Load` is used.

Where the commented mutex design of `queryWithMutex` and its code disagree, the model follows the code (see Findings). It also models the intended design, separately.

## Model

| member | source | states |
|---|---|---|
| `Decimal.NatToStringDigits` | hm-dianping/src/main/java/com/hmdp/utils/RedisIdWorker.java:32 | the decimal rendering of a count is a canonical digit string whose value is the count, starting with 0 only for zero |
| `Decimal.ParseIntToString` | hm-dianping/src/main/java/com/hmdp/utils/RedisIdWorker.java:32 | Redis parses back every 64-bit value Java renders (the counter written by one INCR is read by the next) |
| `Decimal.ParseIntCanonical` | hm-dianping/src/main/java/com/hmdp/utils/RedisIdWorker.java:32 | a string parses to a value exactly when it is that value's rendering: Redis accepts only canonical counters |
| `Decimal.IntToStringInjective` | hm-dianping/src/main/java/com/hmdp/utils/SimpleRedisLock.java:36 | distinct 64-bit values render to distinct strings (thread ids in tokens, ids in keys) |
| `Redis.IncrFresh` | hm-dianping/src/main/java/com/hmdp/utils/RedisIdWorker.java:32 | INCR of a counter nobody wrote returns 1 and leaves the counter at 1 |
| `Redis.IncrEffect` | hm-dianping/src/main/java/com/hmdp/utils/RedisIdWorker.java:32 | a successful INCR returns the old counter plus one, leaves that value stored, adds at most its own key and keeps every other key; a failed one changes nothing |
| `Redis.IncrTwice` | hm-dianping/src/main/java/com/hmdp/utils/RedisIdWorker.java:32 | two successive INCRs of one key return consecutive values |
| `Redis.RedisStore.Increment` | hm-dianping/src/main/java/com/hmdp/utils/RedisIdWorker.java:32 | the in-place INCR returns and stores exactly what the INCR function of the old store gives |
| `Redis.RedisStore.SetIfAbsent` | hm-dianping/src/main/java/com/hmdp/utils/SimpleRedisLock.java:39-40 | SET NX writes exactly when the key is absent and reports whether it wrote |
| `Redis.RedisStore.Set` | hm-dianping/src/main/java/com/hmdp/utils/CacheClient.java:30 | SET overwrites the key's value and TTL and nothing else |
| `Redis.RedisStore.Delete` | hm-dianping/src/main/java/com/hmdp/service/impl/ShopServiceImpl.java:78 | DEL removes exactly the key and reports whether it existed |
| `Redis.RedisStore.ExpireKey` | hm-dianping/src/main/java/com/hmdp/utils/CacheClient.java:80 | a key written with a lease disappears when its TTL passes; a key without one stays |
| `IdWorker.AnchorIsNovember3` | hm-dianping/src/main/java/com/hmdp/utils/RedisIdWorker.java:38-41 | BEGIN_TIMESTAMP is the UTC epoch second of 2025-11-03T00:00:00, the value the class's main prints |
| `IdWorker.ShiftLeftExact` | hm-dianping/src/main/java/com/hmdp/utils/RedisIdWorker.java:35 | timeStamp << 32 loses no bit while the time fits in 31 bits |
| `IdWorker.OrExact` | hm-dianping/src/main/java/com/hmdp/utils/RedisIdWorker.java:35 | or-ing a count below 2^32 into a multiple of 2^32 adds it: the fields do not overlap |
| `IdWorker.PackValue` | hm-dianping/src/main/java/com/hmdp/utils/RedisIdWorker.java:35 | within the bounds the id is timeStamp * 2^32 + count |
| `IdWorker.PackFields` | hm-dianping/src/main/java/com/hmdp/utils/RedisIdWorker.java:35 | within the bounds the id is a non-negative long whose low 32 bits are the count and whose high bits are the time |
| `IdWorker.PackInjective` | hm-dianping/src/main/java/com/hmdp/utils/RedisIdWorker.java:35 | within the bounds distinct (time, count) pairs give distinct ids |
| `IdWorker.PackOrdered` | hm-dianping/src/main/java/com/hmdp/utils/RedisIdWorker.java:35 | within the bounds ids order by time first and count second |
| `IdWorker.PackCollidesBeyondCountBits` | hm-dianping/src/main/java/com/hmdp/utils/RedisIdWorker.java:35 | a count of 2^32 spills into the time field: its id equals the next second's first id |
| `IdWorker.NextIdCounter` | hm-dianping/src/main/java/com/hmdp/utils/RedisIdWorker.java:23-36 | each call advances the counter icr:prefix:date by one and packs that count behind the elapsed seconds |
| `IdWorker.NextIdFrame` | hm-dianping/src/main/java/com/hmdp/utils/RedisIdWorker.java:32 | nextId touches only its own counter key; a failed INCR changes nothing |
| `IdWorker.NextIdValue` | hm-dianping/src/main/java/com/hmdp/utils/RedisIdWorker.java:23-36 | while time and count fit, the id is (now - BEGIN_TIMESTAMP) * 2^32 + the new count |
| `IdWorker.SameDayIdsIncrease` | hm-dianping/src/main/java/com/hmdp/utils/RedisIdWorker.java:23-36 | two successive calls on one day with a clock that does not go back return strictly increasing ids |
| `IdWorker.RedisIdWorker.NextIdAt` | hm-dianping/src/main/java/com/hmdp/utils/RedisIdWorker.java:23-36 | the method returns and leaves in the store what NextId gives for the clock's epoch second and its yyyy:MM:dd date |
| `RedisLock.TryLockEffect` | hm-dianping/src/main/java/com/hmdp/utils/SimpleRedisLock.java:31-44 | acquisition succeeds exactly when the key is free; then the key holds the caller's token with the lease, and no other key changes |
| `RedisLock.NotReentrant` | hm-dianping/src/main/java/com/hmdp/utils/SimpleRedisLock.java:31-44 | a second acquisition by the holder itself fails and keeps its token |
| `RedisLock.LockUnlockRoundTrip` | hm-dianping/src/main/java/com/hmdp/utils/SimpleRedisLock.java:46-53 | acquire then release by the same token restores the store exactly |
| `RedisLock.UnlockByOwner` | hm-dianping/src/main/java/com/hmdp/utils/SimpleRedisLock.java:57-69 | release by the token stored in the key deletes the key |
| `RedisLock.UnlockByOtherIsNoop` | hm-dianping/src/main/java/com/hmdp/utils/SimpleRedisLock.java:57-69 | release by any other token leaves the store unchanged |
| `RedisLock.LockKeyInjective` | hm-dianping/src/main/java/com/hmdp/utils/SimpleRedisLock.java:15 | locks of different names use different keys |
| `RedisLock.NamesIndependent` | hm-dianping/src/main/java/com/hmdp/utils/SimpleRedisLock.java:39-40 | acquiring or releasing one lock never changes the key of a lock with another name |
| `RedisLock.TokensOfThreadsDiffer` | hm-dianping/src/main/java/com/hmdp/utils/SimpleRedisLock.java:36 | two threads of one process have different tokens |
| `RedisLock.TokensOfProcessesDiffer` | hm-dianping/src/main/java/com/hmdp/utils/SimpleRedisLock.java:16 | threads of two processes (different 32-character UUIDs) have different tokens |
| `RedisLock.ReleaseAfterLapseKeepsNewOwner` | hm-dianping/src/main/java/com/hmdp/utils/SimpleRedisLock.java:46-53 | after the first owner's lease lapses and another token takes the lock, the first owner's release leaves the new owner's key intact |
| `RedisLock.SimpleRedisLock.TryLockAs` | hm-dianping/src/main/java/com/hmdp/utils/SimpleRedisLock.java:31-44 | the in-place tryLock answers and writes what TryLock gives for the thread's token |
| `RedisLock.SimpleRedisLock.UnlockAs` | hm-dianping/src/main/java/com/hmdp/utils/SimpleRedisLock.java:57-69 | the get, compare, delete steps leave the store exactly as the atomic release Unlock does |
| `ShopDb.ShopTable.GetById` | hm-dianping/src/main/java/com/hmdp/service/impl/ShopServiceImpl.java:150 | getById answers Load and changes no row |
| `ShopDb.ShopTable.UpdateById` | hm-dianping/src/main/java/com/hmdp/service/impl/ShopServiceImpl.java:70 | updateById rewrites the row of a present id; a null or unknown id matches nothing; a down database throws |
| `OrderStream.Append` | hm-dianping/src/main/java/com/hmdp/service/impl/VoucherOrderServiceImpl.java:217-223 | the admission script's XADD puts the order at the end of the stream and keeps the stream well formed |
| `OrderStream.Remove` | hm-dianping/src/main/java/com/hmdp/service/impl/VoucherOrderServiceImpl.java:105 | XACK keeps exactly the pending deliveries of other ids |
| `OrderStream.ReadNewEffect` | hm-dianping/src/main/java/com/hmdp/service/impl/VoucherOrderServiceImpl.java:83-87 | reading with lastConsumed returns the next undelivered entry with its fields and advances the group's delivery point by exactly one, so no entry is skipped or delivered twice; the entry joins the pending list above every pending id; at the end it returns nothing and changes nothing |
| `OrderStream.AckEffect` | hm-dianping/src/main/java/com/hmdp/service/impl/VoucherOrderServiceImpl.java:105 | acknowledging removes exactly the deliveries of that id and keeps the stream well formed |
| `OrderStream.AckOldest` | hm-dianping/src/main/java/com/hmdp/service/impl/VoucherOrderServiceImpl.java:144 | acknowledging the oldest pending entry drops exactly the head of the pending list |
| `OrderStream.OrderStreamLog.Add` | hm-dianping/src/main/java/com/hmdp/service/impl/VoucherOrderServiceImpl.java:217-223 | the in-place XADD leaves the stream Append gives |
| `OrderStream.OrderStreamLog.ReadNext` | hm-dianping/src/main/java/com/hmdp/service/impl/VoucherOrderServiceImpl.java:83-87 | the in-place read returns and leaves what ReadNew gives |
| `OrderStream.OrderStreamLog.ReadOldestPending` | hm-dianping/src/main/java/com/hmdp/service/impl/VoucherOrderServiceImpl.java:122-126 | the read from offset 0 returns the oldest pending entry and changes nothing |
| `OrderStream.OrderStreamLog.Acknowledge` | hm-dianping/src/main/java/com/hmdp/service/impl/VoucherOrderServiceImpl.java:144 | the in-place XACK leaves the stream Ack gives |
| `OrderDb.CountDetectsOrder` | hm-dianping/src/main/java/com/hmdp/service/impl/VoucherOrderServiceImpl.java:350-354 | the duplicate query counts at least one row exactly when the user already holds an order for the voucher |
| `OrderDb.OrderTables.CountOrders` | hm-dianping/src/main/java/com/hmdp/service/impl/VoucherOrderServiceImpl.java:350-354 | the duplicate query throws when the database is down; otherwise its count is at least one exactly when the user already holds an order for the voucher |
| `OrderDb.OrderTables.DecrementStock` | hm-dianping/src/main/java/com/hmdp/service/impl/VoucherOrderServiceImpl.java:362-366 | the conditional update succeeds exactly when the voucher's stock is positive, and then lowers it by one and changes nothing else |
| `OrderDb.OrderTables.Save` | hm-dianping/src/main/java/com/hmdp/service/impl/VoucherOrderServiceImpl.java:375 | the insert succeeds exactly when the order id is not taken, adding exactly that row |
| `OrderDb.OrderTables.Rollback` | hm-dianping/src/main/java/com/hmdp/service/impl/VoucherOrderServiceImpl.java:342 | the transaction's rollback restores both tables to their contents at its start |
| `Cache.DocNotBlank` | hm-dianping/src/main/java/com/hmdp/utils/CacheClient.java:63 | a cached entity is never blank, so the hit branch takes it |
| `Cache.TailRoundTrip` | hm-dianping/src/main/java/com/hmdp/utils/CacheClient.java:40 | the data member of a RedisData envelope decodes back to what was encoded, null included |
| `Cache.RedisDataRoundTrip` | hm-dianping/src/main/java/com/hmdp/utils/CacheClient.java:116 | decoding the text setWithLogicalExpire wrote gives back its expiry and data |
| `Cache.FlagTryLockEffect` | hm-dianping/src/main/java/com/hmdp/utils/CacheClient.java:158-162 | the flag lock is won exactly when the key is free; the winner leaves "1" there and nothing else changes |
| `Cache.FlagUnlockFreesOtherWinner` | hm-dianping/src/main/java/com/hmdp/utils/CacheClient.java:164-166 | unlock has no owner check: after a lapse, the first winner's unlock frees the second winner's lock and a third caller wins at once |
| `Cache.PassThroughHit` | hm-dianping/src/main/java/com/hmdp/utils/CacheClient.java:63-66 | a cached entity is returned without the loader and without a store change |
| `Cache.PassThroughSentinel` | hm-dianping/src/main/java/com/hmdp/utils/CacheClient.java:70-72 | a present blank value (the empty-string sentinel) answers null without the loader |
| `Cache.PassThroughMiss` | hm-dianping/src/main/java/com/hmdp/utils/CacheClient.java:74-88 | an absent key runs the loader and returns its answer; null caches "" for CACHE_NULL_TTL minutes, an entity is cached with the caller's TTL, an exception writes nothing |
| `Cache.PassThroughCachesMiss` | hm-dianping/src/main/java/com/hmdp/utils/CacheClient.java:55-89 | after a miss that loaded normally, the next query gives the same answer from the cache without the loader |
| `Cache.LogicalExpireBlank` | hm-dianping/src/main/java/com/hmdp/utils/CacheClient.java:109-112 | an absent or blank key answers null, touching neither the lock nor the loader |
| `Cache.LogicalExpireFresh` | hm-dianping/src/main/java/com/hmdp/utils/CacheClient.java:120-125 | an envelope expiring after now answers its data with nothing changed |
| `Cache.LogicalExpireStale` | hm-dianping/src/main/java/com/hmdp/utils/CacheClient.java:127-153 | an expired envelope still answers its stale data; the rebuild is submitted exactly when lock:shop:id was free, and only the lock key changes |
| `Cache.RebuildRefreshes` | hm-dianping/src/main/java/com/hmdp/utils/CacheClient.java:137-148 | the rebuild task frees the lock in every case, and after a normal load a query within the new window answers the reloaded data without a rebuild |
| `Cache.SetWithLogicalExpireThenQuery` | hm-dianping/src/main/java/com/hmdp/utils/CacheClient.java:33-41 | a value set with a logical expiry is answered by a logical-expiry query within the window, unchanged and without a rebuild |
| `Cache.CacheClient.Set` | hm-dianping/src/main/java/com/hmdp/utils/CacheClient.java:28-31 | set writes the entity's JSON under the key with the TTL converted to seconds |
| `Cache.CacheClient.SetWithLogicalExpire` | hm-dianping/src/main/java/com/hmdp/utils/CacheClient.java:33-41 | setWithLogicalExpire writes the envelope with expiry now plus the converted time and no store TTL |
| `Cache.CacheClient.QueryWithPassThrough` | hm-dianping/src/main/java/com/hmdp/utils/CacheClient.java:55-89 | the method answers and writes what PassThrough gives, and reads the table only when PassThrough says the loader ran |
| `Cache.CacheClient.QueryWithLogicalExpire` | hm-dianping/src/main/java/com/hmdp/utils/CacheClient.java:103-154 | the method answers, writes and submits what LogicalExpire gives |
| `Cache.CacheClient.RebuildTask` | hm-dianping/src/main/java/com/hmdp/utils/CacheClient.java:137-148 | the submitted task reloads once and leaves the store Rebuild gives |
| `Cache.CacheClient.TryLock` | hm-dianping/src/main/java/com/hmdp/utils/CacheClient.java:158-162 | tryLock answers and writes what FlagTryLock gives |
| `Cache.CacheClient.Unlock` | hm-dianping/src/main/java/com/hmdp/utils/CacheClient.java:164-166 | unlock deletes the key whatever it holds |
| `ShopService.QueryByIdResponse` | hm-dianping/src/main/java/com/hmdp/service/impl/ShopServiceImpl.java:43-62 | queryById fails with "店铺不存在！" exactly when the logical-expiry query answers null, answers ok(shop) exactly when it answers the shop, and throws when it throws |
| `ShopService.UpdateInvalidates` | hm-dianping/src/main/java/com/hmdp/service/impl/ShopServiceImpl.java:64-81 | an update with an id answers ok and deletes exactly the shop's cache key |
| `ShopService.UpdateWithoutId` | hm-dianping/src/main/java/com/hmdp/service/impl/ShopServiceImpl.java:72-75 | an update with a null id fails with "店铺id不能为空！" and leaves the cache alone |
| `ShopService.UpdateThenQueryByIdFails` | hm-dianping/src/main/java/com/hmdp/service/impl/ShopServiceImpl.java:44-81 | after an update, queryById answers "店铺不存在！" until the cache is warmed again |
| `ShopService.MutexHit` | hm-dianping/src/main/java/com/hmdp/service/impl/ShopServiceImpl.java:95-108 | a cached shop is answered and a blank sentinel answers null, whatever the mutex key, without the database |
| `ShopService.MutexAsWrittenForgetsMiss` | hm-dianping/src/main/java/com/hmdp/service/impl/ShopServiceImpl.java:110-145 | as written, every miss ends with the store as it started: the finally unlock deletes what was just cached |
| `ShopService.MutexAsWrittenNeverRetries` | hm-dianping/src/main/java/com/hmdp/service/impl/ShopServiceImpl.java:115-121 | as written, a call that no other caller interleaves with between the GET at line 97 and the tryLock at line 115 never takes the sleep-and-retry branch |
| `ShopService.MutexAsWrittenRereads` | hm-dianping/src/main/java/com/hmdp/service/impl/ShopServiceImpl.java:94-146 | as written, two successive queries of an uncached shop both read the database |
| `ShopService.MutexRetry` | hm-dianping/src/main/java/com/hmdp/service/impl/ShopServiceImpl.java:115-121 | on a miss with the mutex held, the call is the retry on the store the other callers left; as written, the finally then deletes the mutex key whoever holds it; corrected, the retry's store is kept; with no retry left the outcome is Retry and nothing changes |
| `ShopService.MutexCorrectedCachesMiss` | hm-dianping/src/main/java/com/hmdp/service/impl/ShopServiceImpl.java:110-146 | corrected, a miss that loads normally caches its answer and frees the mutex, so the next query answers it without the database |
| `ShopService.MutexRetryDeletesOthersLock` | hm-dianping/src/main/java/com/hmdp/service/impl/ShopServiceImpl.java:118-142 | with the mutex on lock:shop:id but the unlock as written, a caller that retried frees a third caller's mutex, so a fourth caller wins it while the third still holds it |
| `ShopService.MutexCorrectedRetryKeepsOthersLock` | hm-dianping/src/main/java/com/hmdp/service/impl/ShopServiceImpl.java:118-142 | corrected, in the same situation the third caller still holds the mutex after the retrying caller returns |
| `ShopService.MutexCorrectedWritesOnlyWhenLoading` | hm-dianping/src/main/java/com/hmdp/service/impl/ShopServiceImpl.java:113-143 | corrected, a call that did not read the database ends with a store it or its last retry started from: it writes nothing |
| `ShopService.ShopKeysDiffer` | hm-dianping/src/main/java/com/hmdp/service/impl/ShopServiceImpl.java:111 | the cache key and the mutex key of one shop differ |
| `ShopService.SaveThenQueryById` | hm-dianping/src/main/java/com/hmdp/service/impl/ShopServiceImpl.java:148-159 | a warmed shop is served by queryById until its logical expiry, ok(shop) or "店铺不存在！" for a missing one, with no rebuild and no store change |
| `ShopService.ShopServiceImpl.QueryByIdAt` | hm-dianping/src/main/java/com/hmdp/service/impl/ShopServiceImpl.java:43-62 | the method answers, writes and submits what QueryById gives |
| `ShopService.ShopServiceImpl.UpdateShop` | hm-dianping/src/main/java/com/hmdp/service/impl/ShopServiceImpl.java:64-81 | the method updates the row and then leaves the cache Update gives for the table's answer |
| `ShopService.ShopServiceImpl.QueryWithMutex` | hm-dianping/src/main/java/com/hmdp/service/impl/ShopServiceImpl.java:94-146 | the method answers and writes what QueryWithMutexAsWritten gives for the stores its retries start from, reading the table only on a miss that took the mutex |
| `ShopService.ShopServiceImpl.QueryWithMutexFixed` | hm-dianping/src/main/java/com/hmdp/service/impl/ShopServiceImpl.java:94-146 | the corrected method answers and writes what QueryWithMutexCorrected gives |
| `ShopService.ShopServiceImpl.QueryWithMutexOn` | hm-dianping/src/main/java/com/hmdp/service/impl/ShopServiceImpl.java:94-146 | one call with the mutex at a given key, recursing on a retry and unlocking afterwards when asked, answers and writes what QueryWithMutexUsing gives |
| `ShopService.ShopServiceImpl.SaveShopToRedisAt` | hm-dianping/src/main/java/com/hmdp/service/impl/ShopServiceImpl.java:148-159 | the method loads the shop once and leaves the store SaveShopToRedis gives |
| `ShopService.ShopServiceImpl.TryLock` | hm-dianping/src/main/java/com/hmdp/service/impl/ShopServiceImpl.java:83-87 | tryLock answers and writes what FlagTryLock gives |
| `ShopService.ShopServiceImpl.Unlock` | hm-dianping/src/main/java/com/hmdp/service/impl/ShopServiceImpl.java:89-91 | unlock deletes the key whatever it holds |
| `VoucherOrders.CreateDuplicate` | hm-dianping/src/main/java/com/hmdp/service/impl/VoucherOrderServiceImpl.java:350-358 | a user who already holds an order for the voucher returns with nothing changed |
| `VoucherOrders.CreateNoStock` | hm-dianping/src/main/java/com/hmdp/service/impl/VoucherOrderServiceImpl.java:362-372 | without stock left no order is saved and nothing changes |
| `VoucherOrders.CreateSaved` | hm-dianping/src/main/java/com/hmdp/service/impl/VoucherOrderServiceImpl.java:342-377 | an order is saved exactly when the database is up, the user has no order for the voucher, stock is positive and the id is free; then stock drops by one and exactly that row is added; otherwise nothing changes |
| `VoucherOrders.CreateKeepsInvariants` | hm-dianping/src/main/java/com/hmdp/service/impl/VoucherOrderServiceImpl.java:342-377 | every call keeps stock non-negative and at most one order per user and voucher |
| `VoucherOrders.CreateConserves` | hm-dianping/src/main/java/com/hmdp/service/impl/VoucherOrderServiceImpl.java:362-375 | every call keeps stock plus placed orders of every voucher constant |
| `VoucherOrders.CreateAllKeepsInvariants` | hm-dianping/src/main/java/com/hmdp/service/impl/VoucherOrderServiceImpl.java:342-377 | over any sequence of calls stock stays non-negative and no user gets two orders for a voucher |
| `VoucherOrders.CreateAllConserves` | hm-dianping/src/main/java/com/hmdp/service/impl/VoucherOrderServiceImpl.java:362-375 | over any sequence of calls stock plus orders of every voucher stays constant |
| `VoucherOrders.NoOversell` | hm-dianping/src/main/java/com/hmdp/service/impl/VoucherOrderServiceImpl.java:362-375 | over any sequence of calls a voucher never has more orders than it was issued with |
| `VoucherOrders.HandleLockBusy` | hm-dianping/src/main/java/com/hmdp/service/impl/VoucherOrderServiceImpl.java:188-194 | a busy user lock makes the handler return normally with nothing written |
| `VoucherOrders.HandleRunsCreate` | hm-dianping/src/main/java/com/hmdp/service/impl/VoucherOrderServiceImpl.java:196-204 | with the user lock free the handler runs the transaction, rethrows its exception, and releases the lock in every case |
| `VoucherOrders.HandleKeepsStore` | hm-dianping/src/main/java/com/hmdp/service/impl/VoucherOrderServiceImpl.java:179-205 | the handler leaves the store as it found it |
| `VoucherOrders.HandleThrowsChangesNothing` | hm-dianping/src/main/java/com/hmdp/service/impl/VoucherOrderServiceImpl.java:196-204 | a handler that throws has changed neither the store nor the tables |
| `VoucherOrders.StepsKeepValid` | hm-dianping/src/main/java/com/hmdp/service/impl/VoucherOrderServiceImpl.java:78-152 | both consumer loops keep the stream well formed |
| `VoucherOrders.ConsumerAcksIffReturns` | hm-dianping/src/main/java/com/hmdp/service/impl/VoucherOrderServiceImpl.java:83-113 | a new entry is read exactly when one is undelivered, and then it is the next one and the delivery point advances by one; it is acknowledged exactly when handling returns normally and otherwise stays pending at the end of the list |
| `VoucherOrders.LockBusyEntryAcked` | hm-dianping/src/main/java/com/hmdp/service/impl/VoucherOrderServiceImpl.java:102-105 | an entry whose user lock is held elsewhere is acknowledged with no order written |
| `VoucherOrders.PendingStepEffect` | hm-dianping/src/main/java/com/hmdp/service/impl/VoucherOrderServiceImpl.java:122-149 | the pending pass reads the oldest pending entry, drops it when handling returns and keeps the stream as it was on an exception; on an empty list it stops |
| `VoucherOrders.PoisonEntryRepeats` | hm-dianping/src/main/java/com/hmdp/service/impl/VoucherOrderServiceImpl.java:118-151 | a pending entry whose handling throws leaves the whole state unchanged, so the loop reads it again |
| `VoucherOrders.PendingStepShrinks` | hm-dianping/src/main/java/com/hmdp/service/impl/VoucherOrderServiceImpl.java:122-144 | one pending iteration leaves a suffix of the pending list |
| `VoucherOrders.PendingRunShrinks` | hm-dianping/src/main/java/com/hmdp/service/impl/VoucherOrderServiceImpl.java:118-152 | the pending pass never adds to the pending list and keeps the stream well formed |
| `VoucherOrders.ContinueShrinks` | hm-dianping/src/main/java/com/hmdp/service/impl/VoucherOrderServiceImpl.java:129-132 | after one iteration, the rest of the pending pass leaves a suffix of what that iteration left |
| `VoucherOrders.CrashRecovery` | hm-dianping/src/main/java/com/hmdp/service/impl/VoucherOrderServiceImpl.java:78-152 | an entry read but not acknowledged before a crash stays pending, and the pending pass then saves the order once and acknowledges it |
| `VoucherOrders.IntValue` | hm-dianping/src/main/java/com/hmdp/service/impl/VoucherOrderServiceImpl.java:226 | intValue gives a 32-bit int that equals the code whenever the code fits |
| `VoucherOrders.SetKillVoucherOutcome` | hm-dianping/src/main/java/com/hmdp/service/impl/VoucherOrderServiceImpl.java:209-237 | admission answers ok(orderId) exactly when the script code reads 0, "库存不足" exactly when it reads 1, "不能重复下单" otherwise; failures of nextId or the script throw |
| `VoucherOrders.RejectedRequestDrawsId` | hm-dianping/src/main/java/com/hmdp/service/impl/VoucherOrderServiceImpl.java:214 | every request that returns draws an order id, advancing the day's counter by one, even when rejected |
| `VoucherOrders.VoucherOrderServiceImpl.CreateVoucherOrder` | hm-dianping/src/main/java/com/hmdp/service/impl/VoucherOrderServiceImpl.java:342-377 | the transaction answers and leaves the tables Create gives, rolling back when the insert throws |
| `VoucherOrders.VoucherOrderServiceImpl.HandleVoucherOrder` | hm-dianping/src/main/java/com/hmdp/service/impl/VoucherOrderServiceImpl.java:179-205 | the handler answers and leaves the store and tables Handle gives for the consumer thread's token |
| `VoucherOrders.VoucherOrderServiceImpl.ConsumeNext` | hm-dianping/src/main/java/com/hmdp/service/impl/VoucherOrderServiceImpl.java:78-105 | one iteration of run leaves what ConsumerStep gives |
| `VoucherOrders.VoucherOrderServiceImpl.ConsumePending` | hm-dianping/src/main/java/com/hmdp/service/impl/VoucherOrderServiceImpl.java:118-144 | one iteration of handlePendingList leaves what PendingStep gives |
| `VoucherOrders.VoucherOrderServiceImpl.HandlePendingList` | hm-dianping/src/main/java/com/hmdp/service/impl/VoucherOrderServiceImpl.java:118-152 | the loop leaves what PendingRun gives, stopping on an empty pending list |
| `VoucherOrders.VoucherOrderServiceImpl.RunOnce` | hm-dianping/src/main/java/com/hmdp/service/impl/VoucherOrderServiceImpl.java:78-116 | one iteration of run, with the pending pass after a failure, leaves what ConsumerStep and PendingRun give |
| `VoucherOrders.VoucherOrderServiceImpl.SetKillVoucherAt` | hm-dianping/src/main/java/com/hmdp/service/impl/VoucherOrderServiceImpl.java:209-237 | admission answers and leaves the store SetKillVoucher gives for the clock's reading |

## Left out

- The admission script (`seckill.lua`) and the release script (`unlock.lua`) are not part of this model. `SetKillVoucher` takes the admission script as a function from its three string arguments to its result code. The script's own effect on Redis is not modelled: the stock and order sets, and its `XADD`. `OrderStream.Append` stands for that `XADD`. `RedisLock.Unlock` models the release script as the atomic form of the get, compare, delete sequence in `SimpleRedisLock.java:57-69`.
- Stream transport is not modelled: blocking reads with the 2-second timeout, read errors, and the string encoding of stream ids. An entry id is its position in the stream. The pending list holds the fields of each delivered entry, as `XREADGROUP` from offset 0 returns them. `BeanUtil.fillBeanWithMap` is the identity on those fields.
- Threads, executors and `Thread.sleep` are not modelled. The rebuild task that `queryWithLogicalExpire` submits is the separate method `CacheClient.RebuildTask`. The sleep in the retry branch of `queryWithMutex` is modelled by the parameter `later`: each retry starts from the next store in that list, which stands for what the other callers wrote during the sleep. When the list runs out, the call ends with the outcome `Retry`. Other interleavings of several threads are not modelled, so the lock lemmas speak of sequences of calls.
- Redis.RedisStore.Set, Redis.RedisStore.SetIfAbsent and Redis.RedisStore.Delete never fail: in this model, Redis commands other than INCR never throw. The same holds for the release script and for the per-user lock's `tryLock()` and `unlock()`. In the source, each of these can throw: a lost connection, or Redisson's `IllegalMonitorStateException` when `unlock()` runs after the lease is gone. Because `tryLock()` at `VoucherOrderServiceImpl.java:188` is outside the `try`, such an exception would leave the entry pending. The model does not cover that path.
- RedisLock.TryLock and Cache.CacheClient.Set store `Expires(t)` for any `t`. Redis refuses `SET ... EX t` for `t <= 0` with "invalid expire time", and the Java call would then throw. No caller in the core passes such a value.
- The endless `while (true)` loops of `run` and `handlePendingList` are cut off after a `fuel` number of iterations (`PendingRun`, `RunOnce`). The model does not describe a pass that never ends. `PoisonEntryRepeats` shows when one would not end: an entry whose handling keeps throwing.
- The per-user lock is Redisson's `RLock` on `lock:order:` + userId. It is modelled as a `SimpleRedisLock` named `order:` + userId: the same key, a 30-second lease and an owner token. Redisson's re-entrancy, watchdog renewal and hash encoding are not modelled. In the model, the consumer thread always releases the lock before it reads the next entry, so re-entrancy is never exercised.
- The Spring AOP proxy is not modelled. `handleVoucherOrder` calls `proxy.createVoucherOrder`, and the `proxy` field is first set by a successful `setKillVoucher`. The model assumes it is set.
- `@Transactional` is modelled as a snapshot of both tables that is restored when the insert throws (`OrderTables.Rollback`). Database isolation between concurrent transactions is not modelled.
- hutool's JSON is replaced by a small codec. An entity is its JSON object text (`ShopDb.Doc`). A `RedisData` envelope is `{"expireTime":<seconds>,"data":<object>}`. The model proves the round trip of this codec. hutool's exact output format is not modelled.
- `LocalDateTime` appears in two forms:
  - in `setWithLogicalExpire` and `saveShopToRedis` it is an epoch second `now`;
  - for `nextId` it is a `DateTime` with a four-digit year, because `yyyy` prints exactly four digits only in that range.
- Overflow of `now + seconds` is outside the `long` range that `RedisDataRoundTrip` assumes. The lemmas that read an envelope back require that the expiry fits in a `long`.
- IdWorker.NextIdValue and IdWorker.SameDayIdsIncrease hold only while the elapsed time fits in 31 bits and the day's count in 32 bits. `IdWorker.PackCollidesBeyondCountBits` shows what the packing does beyond that.
- `Redis.IsBlankChar` follows hutool's list of blank characters as far as it covers `char` values. Supplementary characters are not modelled.
- `UserHolder.getUser()` is the parameter `userId`. A missing login is not modelled.
- The shop table's `ghost` field `calls` counts database reads, so that the contracts can say when the database is consulted. It has no counterpart in the source.
- `ShopTypeServiceImpl` and the test class are not part of this model. They are context, not core.

## Findings

| source | as written | input that shows it | evidently intended | confidence | as-written member | corrected member |
|---|---|---|---|---|---|---|
| hm-dianping/src/main/java/com/hmdp/service/impl/ShopServiceImpl.java:111 | the mutex key of `queryWithMutex` is `CACHE_SHOP_KEY + id`, the cache key itself, so the `finally` unlock deletes the entry just cached; unless two callers race between the GET at line 97 and the tryLock at line 115, the retry branch is not taken | a shop id absent from the cache: the query loads the shop, caches it, then deletes it; the next query reads the database again | the mutex on its own key (`LOCK_SHOP_KEY + id`), so that a miss is cached and concurrent callers retry instead of reloading | high (not executed) | `ShopService.MutexAsWrittenForgetsMiss` | `ShopService.MutexCorrectedCachesMiss` |
| hm-dianping/src/main/java/com/hmdp/service/impl/ShopServiceImpl.java:120 | the retry `return queryWithMutex(id)` sits inside the `try`, so once the retry returns, the `finally` at lines 140-142 deletes the mutex key although this call never took the mutex | with the mutex on its own key `LOCK_SHOP_KEY + id` (the correction of the row above), since with the cache key as mutex no third caller can take it while the shop is cached: a cache miss with the mutex held; during the sleep the holder caches the shop and a third caller takes the mutex; the retry answers from the cache, then deletes the third caller's mutex, and a fourth caller wins it | release the mutex only in the call that acquired it (retry outside the `try`, or unlock only when `isLock`) | high (not executed) | `ShopService.MutexRetryDeletesOthersLock` | `ShopService.MutexCorrectedRetryKeepsOthersLock` |
