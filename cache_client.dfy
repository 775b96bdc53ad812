/**
 * `CacheClient`: cache-aside reads over the string store.
 *
 * - Pass-through: a miss loads from the database and caches either the entity
 *   (with a TTL) or the empty-string sentinel (with `CACHE_NULL_TTL` minutes).
 * - Logical expiry: the cached value is a `RedisData` envelope with its own
 *   expiry time and no store TTL; a stale hit is still returned, and whoever
 *   wins the rebuild lock schedules a rebuild task.
 *
 * The clock is the parameter `now` (epoch seconds); the rebuild task, which
 * the source submits to a thread pool, is the separate method `RebuildTask`.
 */
module Cache {
  import opened Base
  import opened Decimal
  import opened Redis
  import opened ShopDb

  /** `RedisConstants.LOCK_SHOP_KEY`. */
  const LockShopKey: string := "lock:shop:"

  /** `RedisConstants.CACHE_NULL_TTL`, in minutes. */
  const CacheNullTtl: int := 2

  /** The lease of the rebuild lock, in seconds. */
  const RebuildLockTtl: int := 10

  /** `keyPrefix + id`. */
  function CacheKey(keyPrefix: string, id: int): string {
    keyPrefix + IntToString(id)
  }

  /** `JSONUtil.toBean(json, type)`: only JSON object text decodes; anything else throws. */
  function ToBean(json: string): (r: Call<Doc>)
    ensures r.Returns? <==> IsJsonObject(json)
    ensures r.Returns? ==> r.value == json
  {
    if IsJsonObject(json) then Returns(json) else Throws
  }

  /** The serialisation of an entity is never blank: it starts with '{'. */
  lemma DocNotBlank(d: Doc)
    ensures !IsBlank(Some(d))
  {
    assert !IsBlankChar(d[0]);
  }

  // --------------------------------------------------------- RedisData codec

  /** `RedisData`: the logical expiry (epoch seconds) and the wrapped entity, if any. */
  datatype RedisData = RedisData(expireTime: int, data: Option<Doc>)

  const ExpireField: string := "{\"expireTime\":"
  const DataField: string := ",\"data\":"

  /** `JSONUtil.toJsonStr(redisData)`; a null `data` is omitted. */
  function EncodeRedisData(rd: RedisData): string {
    ExpireField + IntToString(rd.expireTime) + EncodeTail(rd.data)
  }

  /** What follows the expiry: the optional data member and the closing brace. */
  function EncodeTail(data: Option<Doc>): string {
    match data
    case None => "}"
    case Some(d) => DataField + d + "}"
  }

  function DecodeTail(tail: string): Call<Option<Doc>> {
    if tail == "}" then Returns(None)
    else if IsPrefix(DataField, tail) && |tail| > |DataField| && tail[|tail| - 1] == '}'
            && IsJsonObject(tail[|DataField|..|tail| - 1]) then
      Returns(Some(tail[|DataField|..|tail| - 1]))
    else Throws
  }

  lemma TailRoundTrip(data: Option<Doc>)
    ensures DecodeTail(EncodeTail(data)) == Returns(data)
    ensures EncodeTail(data)[0] != '-' && !IsDigit(EncodeTail(data)[0])
  {
    if data.Some? {
      var tail := EncodeTail(data);
      assert tail[|DataField|..|tail| - 1] == data.value;
      assert tail[..|DataField|] == DataField;
    }
  }

  predicate IsNumberChar(c: char) {
    c == '-' || IsDigit(c)
  }

  /** The length of the longest prefix of `s` made of number characters. */
  function NumberLength(s: string): (n: nat)
    ensures n <= |s|
  {
    if s == [] || !IsNumberChar(s[0]) then 0 else 1 + NumberLength(s[1..])
  }

  /** `JSONUtil.toBean(json, RedisData.class)`: throws on text that is not an envelope. */
  function DecodeRedisData(json: string): Call<RedisData> {
    if !IsPrefix(ExpireField, json) then Throws
    else
      var rest := json[|ExpireField|..];
      var n := NumberLength(rest);
      match ParseInt(rest[..n])
      case None => Throws
      case Some(e) =>
        match DecodeTail(rest[n..])
        case Throws => Throws
        case Returns(data) => Returns(RedisData(e, data))
  }

  /** A number prefix stops exactly at the first character that cannot be part of a number. */
  lemma {:induction false} NumberLengthStops(num: string, tail: string)
    requires forall i :: 0 <= i < |num| ==> IsNumberChar(num[i])
    requires tail == [] || !IsNumberChar(tail[0])
    ensures NumberLength(num + tail) == |num|
    decreases |num|
  {
    if num != [] {
      assert (num + tail)[1..] == num[1..] + tail;
      NumberLengthStops(num[1..], tail);
    } else {
      assert num + tail == tail;
    }
  }

  /** The rendering of a 64-bit value is made of number characters. */
  lemma RenderingIsNumber(e: int)
    ensures forall i :: 0 <= i < |IntToString(e)| ==> IsNumberChar(IntToString(e)[i])
  {
    if e < 0 {
      NatToStringDigits(-e);
      var s := IntToString(e);
      forall i | 0 <= i < |s|
        ensures IsNumberChar(s[i])
      {
        if i > 0 {
          assert s[i] == NatToString(-e)[i - 1];
        }
      }
    } else {
      NatToStringDigits(e);
    }
  }

  /** Decoding an encoded envelope gives it back, for any expiry a `long` can hold. */
  lemma RedisDataRoundTrip(rd: RedisData)
    requires MinLong <= rd.expireTime <= MaxLong
    ensures DecodeRedisData(EncodeRedisData(rd)) == Returns(rd)
  {
    var num := IntToString(rd.expireTime);
    var tail := EncodeTail(rd.data);
    var json := EncodeRedisData(rd);
    assert json == ExpireField + (num + tail);
    var rest := json[|ExpireField|..];
    assert rest == num + tail;
    TailRoundTrip(rd.data);
    SplitNumber(rd.expireTime, tail);
    ParseIntToString(rd.expireTime);
  }

  /** The number scanner splits a rendered value from a tail that opens with a brace or comma. */
  lemma SplitNumber(e: int, tail: string)
    requires tail != [] && !IsNumberChar(tail[0])
    ensures var rest := IntToString(e) + tail;
            var n := NumberLength(rest);
            rest[..n] == IntToString(e) && rest[n..] == tail
  {
    var num := IntToString(e);
    RenderingIsNumber(e);
    NumberLengthStops(num, tail);
    assert (num + tail)[..|num|] == num;
    assert (num + tail)[|num|..] == tail;
  }

  // ------------------------------------------------------------ the flag lock

  /** `tryLock(key)`: SET key "1" NX EX 10. */
  function FlagTryLock(kv: Kv, key: string): (bool, Kv) {
    if key in kv then (false, kv) else (true, kv[key := Entry("1", Expires(RebuildLockTtl))])
  }

  /** The flag lock is won exactly when the key is free, and it then holds "1". */
  lemma FlagTryLockEffect(kv: Kv, key: string)
    ensures var (ok, kv') := FlagTryLock(kv, key);
            && (ok <==> key !in kv)
            && (ok ==> Lookup(kv', key) == Some("1") && kv' - {key} == kv - {key})
            && (!ok ==> kv' == kv)
  {
    var (ok, kv') := FlagTryLock(kv, key);
    if ok {
      assert kv' - {key} == kv - {key};
    }
  }

  /**
   * `unlock(key)` deletes without an owner check. When the first winner's
   * lease lapses and a second caller wins the flag, the first winner's unlock
   * frees the second one's lock, so a third caller wins it at once.
   */
  lemma FlagUnlockFreesOtherWinner(kv: Kv, key: string)
    requires key !in kv
    ensures var first := FlagTryLock(kv, key);
            var lapsed := first.1 - {key};
            var second := FlagTryLock(lapsed, key);
            var third := FlagTryLock(second.1 - {key}, key);
            && first.0 && second.0 && Lookup(second.1, key) == Some("1")
            && third.0
  {
  }

  // ----------------------------------------------------------- pass-through

  /**
   * `queryWithPassThrough` on the key `key`, given what the loader answers if it
   * is called: the result, the store afterwards, and whether the loader ran.
   */
  function PassThrough(kv: Kv, key: string, loaded: Call<Option<Doc>>, ttlSeconds: int): (Call<Option<Doc>>, Kv, bool) {
    var json := Lookup(kv, key);
    if !IsBlank(json) then
      (match ToBean(json.value) case Throws => Throws case Returns(d) => Returns(Some(d)), kv, false)
    else if json.Some? then (Returns(None), kv, false)
    else
      match loaded
      case Throws => (Throws, kv, true)
      case Returns(None) => (Returns(None), kv[key := Entry("", Expires(ToSeconds(CacheNullTtl, Minutes)))], true)
      case Returns(Some(d)) => (Returns(Some(d)), kv[key := Entry(d, Expires(ttlSeconds))], true)
  }

  /** A cached entity is returned as is; the loader does not run and the store does not change. */
  lemma PassThroughHit(kv: Kv, key: string, d: Doc, loaded: Call<Option<Doc>>, ttlSeconds: int)
    requires Lookup(kv, key) == Some(d)
    ensures PassThrough(kv, key, loaded, ttlSeconds) == (Returns(Some(d)), kv, false)
  {
    DocNotBlank(d);
  }

  /** A present blank value (the null sentinel) answers null; the loader does not run. */
  lemma PassThroughSentinel(kv: Kv, key: string, loaded: Call<Option<Doc>>, ttlSeconds: int)
    requires key in kv && IsBlank(Lookup(kv, key))
    ensures PassThrough(kv, key, loaded, ttlSeconds) == (Returns(None), kv, false)
  {
  }

  /**
   * On an absent key the loader runs: a missing entity caches "" for two
   * minutes, a found one is cached with the caller's TTL and returned, and a
   * loader exception leaves the store alone.
   */
  lemma PassThroughMiss(kv: Kv, key: string, loaded: Call<Option<Doc>>, ttlSeconds: int)
    requires key !in kv
    ensures var (r, kv', called) := PassThrough(kv, key, loaded, ttlSeconds);
            && called
            && r == loaded
            && (loaded == Returns(None) ==> kv' == kv[key := Entry("", Expires(120))])
            && (loaded.Returns? && loaded.value.Some? ==> kv' == kv[key := Entry(loaded.value.value, Expires(ttlSeconds))])
            && (loaded.Throws? ==> kv' == kv)
  {
  }

  /**
   * A miss that loaded normally is answered from the cache by the next query:
   * the same result, without the loader, whatever it would now return.
   */
  lemma PassThroughCachesMiss(kv: Kv, key: string, loaded: Call<Option<Doc>>, later: Call<Option<Doc>>, ttlSeconds: int)
    requires key !in kv && loaded.Returns?
    ensures var (r1, kv1, _) := PassThrough(kv, key, loaded, ttlSeconds);
            PassThrough(kv1, key, later, ttlSeconds) == (r1, kv1, false)
  {
    var (r1, kv1, _) := PassThrough(kv, key, loaded, ttlSeconds);
    if loaded.value.Some? {
      PassThroughHit(kv1, key, loaded.value.value, later, ttlSeconds);
    } else {
      assert IsBlank(Lookup(kv1, key));
    }
  }

  // -------------------------------------------------------- logical expiry

  /** The key of the rebuild lock: a fixed prefix, whatever the cache prefix. */
  function ShopLockKey(id: int): string {
    LockShopKey + IntToString(id)
  }

  /**
   * The synchronous part of `queryWithLogicalExpire` at time `now`: the result,
   * the store afterwards, and whether a rebuild task was submitted.
   */
  function LogicalExpire(kv: Kv, keyPrefix: string, id: int, now: int): (Call<Option<Doc>>, Kv, bool) {
    var json := Lookup(kv, CacheKey(keyPrefix, id));
    if IsBlank(json) then (Returns(None), kv, false)
    else
      match DecodeRedisData(json.value)
      case Throws => (Throws, kv, false)
      case Returns(rd) =>
        if rd.expireTime > now then (Returns(rd.data), kv, false)
        else
          var (isLock, kv') := FlagTryLock(kv, ShopLockKey(id));
          (Returns(rd.data), kv', isLock)
  }

  /**
   * The rebuild task: reload, write a new envelope, and release the lock in
   * every case; a loader exception skips the write.
   */
  function Rebuild(kv: Kv, key: string, lockKey: string, loaded: Call<Option<Doc>>, seconds: int, now: int): Kv {
    match loaded
    case Throws => kv - {lockKey}
    case Returns(reloaded) =>
      kv[key := Entry(EncodeRedisData(RedisData(now + seconds, reloaded)), Persist)] - {lockKey}
  }

  /** An absent or blank key answers null; neither the lock nor the loader is touched. */
  lemma LogicalExpireBlank(kv: Kv, keyPrefix: string, id: int, now: int)
    requires IsBlank(Lookup(kv, CacheKey(keyPrefix, id)))
    ensures LogicalExpire(kv, keyPrefix, id, now) == (Returns(None), kv, false)
  {
  }

  /** An envelope whose expiry lies strictly after `now` answers its payload; nothing changes. */
  lemma LogicalExpireFresh(kv: Kv, keyPrefix: string, id: int, now: int, rd: RedisData)
    requires Lookup(kv, CacheKey(keyPrefix, id)) == Some(EncodeRedisData(rd))
    requires MinLong <= rd.expireTime <= MaxLong && rd.expireTime > now
    ensures LogicalExpire(kv, keyPrefix, id, now) == (Returns(rd.data), kv, false)
  {
    RedisDataRoundTrip(rd);
    EnvelopeNotBlank(rd);
  }

  /**
   * An expired envelope still answers its stale payload; the rebuild is
   * submitted exactly when the lock "lock:shop:" + id was free, and the lock is
   * the only key that changes.
   */
  lemma LogicalExpireStale(kv: Kv, keyPrefix: string, id: int, now: int, rd: RedisData)
    requires Lookup(kv, CacheKey(keyPrefix, id)) == Some(EncodeRedisData(rd))
    requires MinLong <= rd.expireTime <= MaxLong && rd.expireTime <= now
    ensures var (r, kv', rebuild) := LogicalExpire(kv, keyPrefix, id, now);
            && r == Returns(rd.data)
            && (rebuild <==> ShopLockKey(id) !in kv)
            && (rebuild ==> Lookup(kv', ShopLockKey(id)) == Some("1"))
            && kv' - {ShopLockKey(id)} == kv - {ShopLockKey(id)}
  {
    RedisDataRoundTrip(rd);
    EnvelopeNotBlank(rd);
    FlagTryLockEffect(kv, ShopLockKey(id));
  }

  lemma EnvelopeNotBlank(rd: RedisData)
    ensures !IsBlank(Some(EncodeRedisData(rd)))
  {
    assert EncodeRedisData(rd)[0] == '{';
  }

  /**
   * After the rebuild task the lock is free, and a normal load leaves an
   * envelope expiring `seconds` after `now` that a later query within that
   * window answers from the cache, with no further rebuild.
   */
  lemma RebuildRefreshes(kv: Kv, keyPrefix: string, id: int, loaded: Call<Option<Doc>>, seconds: int, now: int, later: int)
    requires MinLong <= now + seconds <= MaxLong
    requires now <= later < now + seconds
    ensures var kv' := Rebuild(kv, CacheKey(keyPrefix, id), ShopLockKey(id), loaded, seconds, now);
            && ShopLockKey(id) !in kv'
            && (loaded.Returns? && CacheKey(keyPrefix, id) != ShopLockKey(id) ==>
                  LogicalExpire(kv', keyPrefix, id, later) == (Returns(loaded.value), kv', false))
  {
    var key := CacheKey(keyPrefix, id);
    var kv' := Rebuild(kv, key, ShopLockKey(id), loaded, seconds, now);
    if loaded.Returns? && key != ShopLockKey(id) {
      var rd := RedisData(now + seconds, loaded.value);
      assert Lookup(kv', key) == Some(EncodeRedisData(rd));
      LogicalExpireFresh(kv', keyPrefix, id, later, rd);
    }
  }

  /**
   * `setWithLogicalExpire` followed, within the window, by a logical-expiry
   * query of the same key answers the value that was set and changes nothing.
   */
  lemma SetWithLogicalExpireThenQuery(kv: Kv, keyPrefix: string, id: int, value: Option<Doc>, seconds: int, now: int, later: int)
    requires MinLong <= now + seconds <= MaxLong
    requires now <= later < now + seconds
    ensures var kv' := kv[CacheKey(keyPrefix, id) := Entry(EncodeRedisData(RedisData(now + seconds, value)), Persist)];
            LogicalExpire(kv', keyPrefix, id, later) == (Returns(value), kv', false)
  {
    var rd := RedisData(now + seconds, value);
    var kv' := kv[CacheKey(keyPrefix, id) := Entry(EncodeRedisData(rd), Persist)];
    LogicalExpireFresh(kv', keyPrefix, id, later, rd);
  }

  /** The helper bound to one store. */
  class CacheClient {
    const store: RedisStore

    constructor (store: RedisStore)
      ensures this.store == store
    {
      this.store := store;
    }

    /** `set(key, value, time, unit)`: the entity's JSON with a store TTL. */
    method Set(key: string, value: Doc, time: int, unit: TimeUnit)
      modifies store
      ensures store.data == old(store.data)[key := Entry(value, Expires(ToSeconds(time, unit)))]
    {
      store.Set(key, value, Expires(ToSeconds(time, unit)));
    }

    /** `setWithLogicalExpire(key, value, time, unit)` at time `now`: an envelope with no store TTL. */
    method SetWithLogicalExpire(key: string, value: Option<Doc>, time: int, unit: TimeUnit, now: int)
      modifies store
      ensures store.data == old(store.data)[key := Entry(EncodeRedisData(RedisData(now + ToSeconds(time, unit), value)), Persist)]
    {
      var redisData := RedisData(now + ToSeconds(time, unit), value);
      store.Set(key, EncodeRedisData(redisData), Persist);
    }

    /** `queryWithPassThrough(keyPrefix, id, type, db::getById, time, unit)`. */
    method QueryWithPassThrough(keyPrefix: string, id: int, db: ShopTable, time: int, unit: TimeUnit) returns (r: Call<Option<Doc>>)
      modifies store, db
      ensures var (res, kv, called) := PassThrough(old(store.data), CacheKey(keyPrefix, id), old(db.Load(id)), ToSeconds(time, unit));
              && r == res && store.data == kv
              && db.calls == old(db.calls) + (if called then 1 else 0)
      ensures db.rows == old(db.rows) && db.down == old(db.down)
    {
      var key := keyPrefix + IntToString(id);
      var json := store.Get(key);
      if !IsBlank(json) {
        var bean := ToBean(json.value);
        r := if bean.Throws? then Throws else Returns(Some(bean.value));
        return;
      }
      if json.Some? {
        r := Returns(None);
        return;
      }
      var loaded := db.GetById(id);
      if loaded.Throws? {
        r := Throws;
        return;
      }
      if loaded.value.None? {
        store.Set(key, "", Expires(ToSeconds(CacheNullTtl, Minutes)));
        r := Returns(None);
        return;
      }
      Set(key, loaded.value.value, time, unit);
      r := loaded;
    }

    /**
     * The synchronous part of `queryWithLogicalExpire(keyPrefix, id, ...)` at
     * time `now`; `rebuild` reports that the rebuild task was submitted.
     */
    method QueryWithLogicalExpire(keyPrefix: string, id: int, now: int) returns (r: Call<Option<Doc>>, rebuild: bool)
      modifies store
      ensures (r, store.data, rebuild) == LogicalExpire(old(store.data), keyPrefix, id, now)
    {
      var key := keyPrefix + IntToString(id);
      var json := store.Get(key);
      rebuild := false;
      if IsBlank(json) {
        r := Returns(None);
        return;
      }
      var redisData := DecodeRedisData(json.value);
      if redisData.Throws? {
        r := Throws;
        return;
      }
      r := Returns(redisData.value.data);
      if redisData.value.expireTime > now {
        return;
      }
      var lockKey := LockShopKey + IntToString(id);
      rebuild := TryLock(lockKey);
    }

    /** The submitted rebuild: reload through `db`, write the envelope, release the lock. */
    method RebuildTask(keyPrefix: string, id: int, db: ShopTable, time: int, unit: TimeUnit, now: int)
      modifies store, db
      ensures store.data == Rebuild(old(store.data), CacheKey(keyPrefix, id), ShopLockKey(id), old(db.Load(id)), ToSeconds(time, unit), now)
      ensures db.rows == old(db.rows) && db.down == old(db.down) && db.calls == old(db.calls) + 1
    {
      var key := keyPrefix + IntToString(id);
      var lockKey := LockShopKey + IntToString(id);
      var reloaded := db.GetById(id);
      if reloaded.Returns? {
        SetWithLogicalExpire(key, reloaded.value, time, unit, now);
      }
      Unlock(lockKey);
    }

    /** `tryLock(key)`. */
    method TryLock(key: string) returns (ok: bool)
      modifies store
      ensures (ok, store.data) == FlagTryLock(old(store.data), key)
    {
      ok := store.SetIfAbsent(key, "1", Expires(RebuildLockTtl));
    }

    /** `unlock(key)`: deletes whatever the key holds. */
    method Unlock(key: string)
      modifies store
      ensures store.data == old(store.data) - {key}
    {
      var _ := store.Delete(key);
    }
  }
}
