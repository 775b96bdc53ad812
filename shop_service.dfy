/**
 * `ShopServiceImpl`: shop reads through the logical-expiry cache, update then
 * invalidate, the mutex-based rebuild `queryWithMutex`, and cache warm-up
 * `saveShopToRedis`.
 */
module ShopService {
  import opened Base
  import opened Decimal
  import opened Redis
  import opened ShopDb
  import opened Cache

  /** `RedisConstants.CACHE_SHOP_KEY`. */
  const CacheShopKey: string := "cache:shop:"

  /** `RedisConstants.CACHE_SHOP_TTL`, in minutes. */
  const CacheShopTtl: int := 30

  const ShopNotFound: string := "店铺不存在！"
  const ShopIdRequired: string := "店铺id不能为空！"

  function ShopKey(id: int): string {
    CacheShopKey + IntToString(id)
  }

  // --------------------------------------------------------------- queryById

  /** `queryById(id)` at time `now`: the response, the store, and whether a rebuild was submitted. */
  function QueryById(kv: Kv, id: int, now: int): (Call<Response<Doc>>, Kv, bool) {
    var (shop, kv', rebuild) := LogicalExpire(kv, CacheShopKey, id, now);
    var response := match shop
      case Throws => Throws
      case Returns(None) => Returns(Fail(ShopNotFound))
      case Returns(Some(d)) => Returns(Ok(d));
    (response, kv', rebuild)
  }

  /** The response fails exactly when the cache query answers null, and is ok(shop) otherwise. */
  lemma QueryByIdResponse(kv: Kv, id: int, now: int)
    ensures var (r, kv', rebuild) := QueryById(kv, id, now);
            var (shop, kvc, rebuildc) := LogicalExpire(kv, CacheShopKey, id, now);
            && kv' == kvc && rebuild == rebuildc
            && (r == Returns(Fail(ShopNotFound)) <==> shop == Returns(None))
            && (forall d :: r == Returns(Ok(d)) <==> shop == Returns(Some(d)))
            && (r.Throws? <==> shop.Throws?)
  {
  }

  // ------------------------------------------------------------------ update

  /**
   * The cache side of `update(shop)`, given what the database update did: an
   * exception propagates before the cache is touched, a null id fails, and
   * otherwise the cache key is deleted.
   */
  function Update(kv: Kv, id: Option<int>, updated: Call<bool>): (Call<Response<()>>, Kv) {
    if updated.Throws? then (Throws, kv)
    else if id.None? then (Returns(Fail(ShopIdRequired)), kv)
    else (Returns(Ok(())), kv - {ShopKey(id.value)})
  }

  /** With an id, the update leaves the shop's cache key absent and every other key as it was. */
  lemma UpdateInvalidates(kv: Kv, id: int, updated: Call<bool>)
    requires updated.Returns?
    ensures var (r, kv') := Update(kv, Some(id), updated);
            r == Returns(Ok(())) && ShopKey(id) !in kv' && kv' == kv - {ShopKey(id)}
  {
  }

  /** A null id fails with "店铺id不能为空！" and leaves the cache alone. */
  lemma UpdateWithoutId(kv: Kv, updated: Call<bool>)
    requires updated.Returns?
    ensures Update(kv, None, updated) == (Returns(Fail(ShopIdRequired)), kv)
  {
  }

  /**
   * After an update, `queryById` answers "店铺不存在！" until the cache is
   * warmed again: the logical-expiry read treats the deleted key as a missing
   * shop and never consults the database.
   */
  lemma UpdateThenQueryByIdFails(kv: Kv, id: int, updated: Call<bool>, now: int)
    requires updated.Returns?
    ensures var kv' := Update(kv, Some(id), updated).1;
            QueryById(kv', id, now) == (Returns(Fail(ShopNotFound)), kv', false)
  {
    var kv' := Update(kv, Some(id), updated).1;
    assert Lookup(kv', CacheKey(CacheShopKey, id)) == None;
  }

  // ---------------------------------------------------------- queryWithMutex

  /**
   * The outcome of one `queryWithMutex` call: a result, or `Retry` when the
   * call was still sleeping and retrying after the retries the model follows.
   */
  datatype MutexOutcome = Done(result: Call<Option<Doc>>) | Retry

  /**
   * One call of `queryWithMutex(id)` whose mutex lives at `lockKey`, given
   * what `getById` answers if it is called: the outcome, the store afterwards,
   * and whether the database was read.
   *
   * A caller that finds the mutex taken sleeps and calls itself again; the
   * store that call starts from is the next element of `later` (what the
   * other callers left during the sleep). With `releaseAfterRetry`, the
   * `finally` block of the retrying call deletes `lockKey` once the inner
   * call returns, as the source does because its retry sits inside the `try`;
   * without it, only a call that took the mutex releases it. Every path that
   * took the mutex releases it.
   */
  function QueryWithMutexUsing(kv: Kv, id: int, lockKey: string, loaded: Call<Option<Doc>>,
                               later: seq<Kv>, releaseAfterRetry: bool): (MutexOutcome, Kv, bool)
    decreases |later|
  {
    var key := ShopKey(id);
    var shopJson := Lookup(kv, key);
    if !IsBlank(shopJson) then
      (Done(match ToBean(shopJson.value) case Throws => Throws case Returns(d) => Returns(Some(d))), kv, false)
    else if shopJson.Some? then (Done(Returns(None)), kv, false)
    else
      var (isLock, locked) := FlagTryLock(kv, lockKey);
      if !isLock then
        if later == [] then (Retry, kv, false)
        else
          var (out, after, called) := QueryWithMutexUsing(later[0], id, lockKey, loaded, later[1..], releaseAfterRetry);
          (out, if releaseAfterRetry then after - {lockKey} else after, called)
      else
        match loaded
        case Throws => (Done(Throws), locked - {lockKey}, true)
        case Returns(None) =>
          (Done(Returns(None)), locked[key := Entry("", Expires(ToSeconds(CacheNullTtl, Minutes)))] - {lockKey}, true)
        case Returns(Some(d)) =>
          (Done(Returns(Some(d))), locked[key := Entry(d, Expires(ToSeconds(CacheShopTtl, Minutes)))] - {lockKey}, true)
  }

  /** `queryWithMutex` as written: the mutex key is the cache key itself, and a retry unlocks afterwards. */
  function QueryWithMutexAsWritten(kv: Kv, id: int, loaded: Call<Option<Doc>>, later: seq<Kv>): (MutexOutcome, Kv, bool) {
    QueryWithMutexUsing(kv, id, ShopKey(id), loaded, later, true)
  }

  /** `queryWithMutex` with the mutex on `LOCK_SHOP_KEY + id`, as its comments describe, and otherwise as written. */
  function QueryWithMutexSeparateLock(kv: Kv, id: int, loaded: Call<Option<Doc>>, later: seq<Kv>): (MutexOutcome, Kv, bool) {
    QueryWithMutexUsing(kv, id, ShopLockKey(id), loaded, later, true)
  }

  /** `queryWithMutex` corrected: the mutex on `LOCK_SHOP_KEY + id`, released only by the call that took it. */
  function QueryWithMutexCorrected(kv: Kv, id: int, loaded: Call<Option<Doc>>, later: seq<Kv>): (MutexOutcome, Kv, bool) {
    QueryWithMutexUsing(kv, id, ShopLockKey(id), loaded, later, false)
  }

  /** Whatever the mutex key, a cached shop is answered and a blank sentinel answers null, without the database. */
  lemma MutexHit(kv: Kv, id: int, lockKey: string, loaded: Call<Option<Doc>>, later: seq<Kv>, releaseAfterRetry: bool)
    requires ShopKey(id) in kv
    ensures var (out, kv', called) := QueryWithMutexUsing(kv, id, lockKey, loaded, later, releaseAfterRetry);
            && !called && kv' == kv
            && (IsBlank(Lookup(kv, ShopKey(id))) ==> out == Done(Returns(None)))
            && (forall d: Doc :: Lookup(kv, ShopKey(id)) == Some(d) ==> out == Done(Returns(Some(d))))
  {
    forall d: Doc | Lookup(kv, ShopKey(id)) == Some(d) {
      DocNotBlank(d);
    }
  }

  /**
   * As written, in a call that no other caller interleaves with between the
   * cache read and the `tryLock`, every miss path (shop found, shop missing,
   * database exception) ends with the store exactly as it started: the
   * `finally` unlock deletes what was just cached.
   */
  lemma MutexAsWrittenForgetsMiss(kv: Kv, id: int, loaded: Call<Option<Doc>>, later: seq<Kv>)
    requires ShopKey(id) !in kv
    ensures var (out, kv', called) := QueryWithMutexAsWritten(kv, id, loaded, later);
            && out == Done(loaded) && called && kv' == kv
  {
    var key := ShopKey(id);
    var locked := kv[key := Entry("1", Expires(RebuildLockTtl))];
    assert locked - {key} == kv;
  }

  /**
   * As written, a call that no other caller interleaves with between the
   * cache read and the `tryLock` never takes the retry branch: a miss finds
   * the mutex key (the cache key itself) free. Two callers racing between
   * those two steps can still make one of them retry; the model does not
   * interleave them.
   */
  lemma MutexAsWrittenNeverRetries(kv: Kv, id: int, loaded: Call<Option<Doc>>, later: seq<Kv>)
    ensures QueryWithMutexAsWritten(kv, id, loaded, later).0 != Retry
  {
    if ShopKey(id) !in kv {
      MutexAsWrittenForgetsMiss(kv, id, loaded, later);
    }
  }

  /**
   * As written, two successive queries of a shop that is not cached both read
   * the database, whatever the first one loaded.
   */
  lemma MutexAsWrittenRereads(kv: Kv, id: int, first: Call<Option<Doc>>, second: Call<Option<Doc>>, later: seq<Kv>)
    requires ShopKey(id) !in kv
    ensures var kv1 := QueryWithMutexAsWritten(kv, id, first, later).1;
            QueryWithMutexAsWritten(kv1, id, second, later).2
  {
    MutexAsWrittenForgetsMiss(kv, id, first, later);
    MutexAsWrittenForgetsMiss(kv, id, second, later);
  }

  /**
   * On a miss with the mutex held by another caller, the call becomes the
   * retry on the next store; as written, the mutex key is then deleted
   * whoever holds it by the time the retry returns; corrected, the retry's
   * store is kept as it is.
   */
  lemma MutexRetry(kv: Kv, id: int, lockKey: string, loaded: Call<Option<Doc>>, later: seq<Kv>, releaseAfterRetry: bool)
    requires ShopKey(id) !in kv && lockKey in kv
    ensures var (out, kv', called) := QueryWithMutexUsing(kv, id, lockKey, loaded, later, releaseAfterRetry);
            && (later == [] ==> out == Retry && kv' == kv && !called)
            && (later != [] ==>
                  var (inner, kvi, calledi) := QueryWithMutexUsing(later[0], id, lockKey, loaded, later[1..], releaseAfterRetry);
                  && out == inner && called == calledi
                  && kv' == (if releaseAfterRetry then kvi - {lockKey} else kvi))
            && (later != [] && releaseAfterRetry ==> lockKey !in kv')
  {
  }

  /**
   * With the mutex on its own key but the unlock as written, a caller that
   * retried deletes the mutex of a later holder: the shop is cached by the
   * time it retries, a third caller holds the mutex, and after the answer the
   * mutex is free for a fourth caller.
   */
  lemma MutexRetryDeletesOthersLock(kv: Kv, id: int, loaded: Call<Option<Doc>>, w: Kv, d: Doc)
    requires ShopKey(id) !in kv && ShopLockKey(id) in kv
    requires Lookup(w, ShopKey(id)) == Some(d) && ShopLockKey(id) in w
    ensures var (out, kv', called) := QueryWithMutexSeparateLock(kv, id, loaded, [w]);
            && out == Done(Returns(Some(d))) && !called
            && ShopLockKey(id) !in kv'
            && FlagTryLock(kv', ShopLockKey(id)).0
  {
    assert [w][1..] == [];
    MutexRetry(kv, id, ShopLockKey(id), loaded, [w], true);
    MutexHit(w, id, ShopLockKey(id), loaded, [], true);
  }

  /**
   * Corrected, a caller that retried leaves the mutex as the other callers
   * left it: in the same situation the third caller still holds it.
   */
  lemma MutexCorrectedRetryKeepsOthersLock(kv: Kv, id: int, loaded: Call<Option<Doc>>, w: Kv, d: Doc)
    requires ShopKey(id) !in kv && ShopLockKey(id) in kv
    requires Lookup(w, ShopKey(id)) == Some(d) && ShopLockKey(id) in w
    ensures var (out, kv', called) := QueryWithMutexCorrected(kv, id, loaded, [w]);
            && out == Done(Returns(Some(d))) && !called
            && kv' == w
            && !FlagTryLock(kv', ShopLockKey(id)).0
  {
    assert [w][1..] == [];
    MutexRetry(kv, id, ShopLockKey(id), loaded, [w], false);
    MutexHit(w, id, ShopLockKey(id), loaded, [], false);
  }

  /**
   * Corrected, a call that did not read the database writes nothing: it ends
   * with the store it started from or the one its last retry started from,
   * so it never frees a mutex another caller holds.
   */
  lemma {:induction false} MutexCorrectedWritesOnlyWhenLoading(kv: Kv, id: int, loaded: Call<Option<Doc>>, later: seq<Kv>)
    ensures var (out, kv', called) := QueryWithMutexCorrected(kv, id, loaded, later);
            !called ==> kv' == kv || exists i :: 0 <= i < |later| && kv' == later[i]
    decreases |later|
  {
    if ShopKey(id) !in kv && ShopLockKey(id) in kv && later != [] {
      MutexRetry(kv, id, ShopLockKey(id), loaded, later, false);
      MutexCorrectedWritesOnlyWhenLoading(later[0], id, loaded, later[1..]);
      var (out, kv', called) := QueryWithMutexCorrected(kv, id, loaded, later);
      if !called && kv' != later[0] {
        var j :| 0 <= j < |later[1..]| && kv' == later[1..][j];
        assert kv' == later[j + 1];
      }
    }
  }

  /**
   * Corrected, a miss that loads normally caches its answer and frees the
   * mutex: the next query gives the same answer without the database.
   */
  lemma MutexCorrectedCachesMiss(kv: Kv, id: int, loaded: Call<Option<Doc>>, later: Call<Option<Doc>>, retries: seq<Kv>)
    requires ShopKey(id) !in kv && ShopLockKey(id) !in kv && loaded.Returns?
    ensures var (out, kv1, called) := QueryWithMutexCorrected(kv, id, loaded, retries);
            && out == Done(loaded) && called
            && ShopLockKey(id) !in kv1
            && QueryWithMutexCorrected(kv1, id, later, retries) == (Done(loaded), kv1, false)
  {
    var (out, kv1, called) := QueryWithMutexCorrected(kv, id, loaded, retries);
    ShopKeysDiffer(id);
    assert ShopKey(id) in kv1;
    MutexHit(kv1, id, ShopLockKey(id), later, retries, false);
    if loaded.value.None? {
      assert IsBlank(Lookup(kv1, ShopKey(id)));
    } else {
      assert Lookup(kv1, ShopKey(id)) == Some(loaded.value.value);
    }
  }

  /** The cache key and the mutex key of one shop differ ("cache:" against "lock:"). */
  lemma ShopKeysDiffer(id: int)
    ensures ShopKey(id) != ShopLockKey(id)
  {
    assert ShopKey(id)[0] == 'c' && ShopLockKey(id)[0] == 'l';
  }

  // --------------------------------------------------------- saveShopToRedis

  /** `saveShopToRedis(id, expireSeconds)` at time `now`, given what `getById` answers. */
  function SaveShopToRedis(kv: Kv, id: int, loaded: Call<Option<Doc>>, expireSeconds: int, now: int): (Call<()>, Kv) {
    match loaded
    case Throws => (Throws, kv)
    case Returns(shop) => (Returns(()), kv[ShopKey(id) := Entry(EncodeRedisData(RedisData(now + expireSeconds, shop)), Persist)])
  }

  /**
   * A warmed shop is served by `queryById` until its logical expiry: ok(shop)
   * for a shop that exists, "店铺不存在！" for one that does not, with no
   * rebuild and no store change.
   */
  lemma SaveThenQueryById(kv: Kv, id: int, shop: Option<Doc>, expireSeconds: int, now: int, later: int)
    requires MinLong <= now + expireSeconds <= MaxLong
    requires now <= later < now + expireSeconds
    ensures var (saved, kv') := SaveShopToRedis(kv, id, Returns(shop), expireSeconds, now);
            && saved == Returns(())
            && kv'[ShopKey(id)].ttl == Persist
            && QueryById(kv', id, later) == (if shop.Some? then Returns(Ok(shop.value)) else Returns(Fail(ShopNotFound)), kv', false)
  {
    SetWithLogicalExpireThenQuery(kv, CacheShopKey, id, shop, expireSeconds, now, later);
  }

  /** The shop service, wired to the store, the shop table and the cache helper. */
  class ShopServiceImpl {
    const store: RedisStore
    const db: ShopTable
    const cacheClient: CacheClient

    predicate Valid() {
      cacheClient.store == store
    }

    constructor (store: RedisStore, db: ShopTable)
      ensures this.store == store && this.db == db && Valid()
    {
      this.store := store;
      this.db := db;
      this.cacheClient := new CacheClient(store);
    }

    /** `queryById(id)` at time `now`; `rebuild` reports a submitted rebuild task. */
    method QueryByIdAt(id: int, now: int) returns (r: Call<Response<Doc>>, rebuild: bool)
      requires Valid()
      modifies store
      ensures (r, store.data, rebuild) == QueryById(old(store.data), id, now)
    {
      var shop;
      shop, rebuild := cacheClient.QueryWithLogicalExpire(CacheShopKey, id, now);
      if shop.Throws? {
        r := Throws;
      } else if shop.value.None? {
        r := Returns(Fail(ShopNotFound));
      } else {
        r := Returns(Ok(shop.value.value));
      }
    }

    /** `update(shop)` for a shop whose id may be null. */
    method UpdateShop(id: Option<int>, doc: Doc) returns (r: Call<Response<()>>)
      modifies store, db
      ensures var updated := if old(db.down) then Throws else Returns(id.Some? && id.value in old(db.rows));
              (r, store.data) == Update(old(store.data), id, updated)
      ensures db.rows == if !old(db.down) && id.Some? && id.value in old(db.rows) then old(db.rows)[id.value := doc] else old(db.rows)
    {
      var updated := db.UpdateById(id, doc);
      if updated.Throws? {
        r := Throws;
        return;
      }
      if id.None? {
        r := Returns(Fail(ShopIdRequired));
        return;
      }
      var key := CacheShopKey + IntToString(id.value);
      var _ := store.Delete(key);
      r := Returns(Ok(()));
    }

    /** `queryWithMutex(id)` as written; `later` gives the store each retry starts from. */
    method QueryWithMutex(id: int, later: seq<Kv>) returns (out: MutexOutcome)
      modifies store, db
      ensures var (o, kv, called) := QueryWithMutexAsWritten(old(store.data), id, old(db.Load(id)), later);
              && out == o && store.data == kv
              && db.calls == old(db.calls) + (if called then 1 else 0)
      ensures db.rows == old(db.rows) && db.down == old(db.down)
    {
      out := QueryWithMutexOn(id, CacheShopKey + IntToString(id), later, true);
    }

    /** `queryWithMutex(id)` with the mutex on `LOCK_SHOP_KEY + id`, released only by the call that took it. */
    method QueryWithMutexFixed(id: int, later: seq<Kv>) returns (out: MutexOutcome)
      modifies store, db
      ensures var (o, kv, called) := QueryWithMutexCorrected(old(store.data), id, old(db.Load(id)), later);
              && out == o && store.data == kv
              && db.calls == old(db.calls) + (if called then 1 else 0)
      ensures db.rows == old(db.rows) && db.down == old(db.down)
    {
      out := QueryWithMutexOn(id, LockShopKey + IntToString(id), later, false);
    }

    method QueryWithMutexOn(id: int, lockKey: string, later: seq<Kv>, releaseAfterRetry: bool) returns (out: MutexOutcome)
      modifies store, db
      ensures var (o, kv, called) := QueryWithMutexUsing(old(store.data), id, lockKey, old(db.Load(id)), later, releaseAfterRetry);
              && out == o && store.data == kv
              && db.calls == old(db.calls) + (if called then 1 else 0)
      ensures db.rows == old(db.rows) && db.down == old(db.down)
      decreases |later|
    {
      var key := CacheShopKey + IntToString(id);
      var shopJson := store.Get(key);
      if !IsBlank(shopJson) {
        var bean := ToBean(shopJson.value);
        out := Done(if bean.Throws? then Throws else Returns(Some(bean.value)));
        return;
      }
      if shopJson.Some? {
        out := Done(Returns(None));
        return;
      }
      var isLock := TryLock(lockKey);
      if !isLock {
        if later == [] {
          out := Retry;
          return;
        }
        // Thread.sleep(50): the other callers leave the store as `later[0]`
        store.data := later[0];
        out := QueryWithMutexOn(id, lockKey, later[1..], releaseAfterRetry);
        if releaseAfterRetry {
          Unlock(lockKey);
        }
        return;
      }
      var shop := db.GetById(id);
      if shop.Throws? {
        out := Done(Throws);
      } else if shop.value.None? {
        store.Set(key, "", Expires(ToSeconds(CacheNullTtl, Minutes)));
        out := Done(Returns(None));
      } else {
        store.Set(key, shop.value.value, Expires(ToSeconds(CacheShopTtl, Minutes)));
        out := Done(shop);
      }
      Unlock(lockKey);
    }

    /** `saveShopToRedis(id, expireSeconds)` at time `now`. */
    method SaveShopToRedisAt(id: int, expireSeconds: int, now: int) returns (r: Call<()>)
      modifies store, db
      ensures (r, store.data) == SaveShopToRedis(old(store.data), id, old(db.Load(id)), expireSeconds, now)
      ensures db.rows == old(db.rows) && db.down == old(db.down) && db.calls == old(db.calls) + 1
    {
      var shop := db.GetById(id);
      if shop.Throws? {
        r := Throws;
        return;
      }
      var redisData := RedisData(now + expireSeconds, shop.value);
      store.Set(CacheShopKey + IntToString(id), EncodeRedisData(redisData), Persist);
      r := Returns(());
    }

    /** The service's own `tryLock(key)`. */
    method TryLock(key: string) returns (ok: bool)
      modifies store
      ensures (ok, store.data) == FlagTryLock(old(store.data), key)
    {
      ok := store.SetIfAbsent(key, "1", Expires(RebuildLockTtl));
    }

    /** The service's own `unlock(key)`. */
    method Unlock(key: string)
      modifies store
      ensures store.data == old(store.data) - {key}
    {
      var _ := store.Delete(key);
    }
  }
}
