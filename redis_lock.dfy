/**
 * `SimpleRedisLock`: a lease lock on the key "lock:" + name whose value is the
 * owner's token, the process-wide random prefix followed by the thread id.
 * Release compares the stored token with the caller's and deletes only on a
 * match (the get/compare/delete that the release script performs atomically).
 */
module RedisLock {
  import opened Base
  import opened Decimal
  import opened Redis

  /** `key_prefix`. */
  const KeyPrefix: string := "lock:"

  function LockKey(name: string): string {
    KeyPrefix + name
  }

  /** `ID_PREFIX`: the process's random UUID in its 32-hex-digit form, then '-'. */
  function IdPrefix(uuid: string): string {
    uuid + "-"
  }

  /** The owner token of one thread of one process. */
  function Token(uuid: string, threadId: int): string {
    IdPrefix(uuid) + IntToString(threadId)
  }

  /** `tryLock(timeoutSec)`: SET key token NX EX timeoutSec. */
  function TryLock(kv: Kv, name: string, token: string, timeoutSec: int): (bool, Kv) {
    var key := LockKey(name);
    if key in kv then (false, kv) else (true, kv[key := Entry(token, Expires(timeoutSec))])
  }

  /** `unlock()`: delete the key only while it still holds the caller's token. */
  function Unlock(kv: Kv, name: string, token: string): Kv {
    var key := LockKey(name);
    if Lookup(kv, key) == Some(token) then kv - {key} else kv
  }

  /**
   * Acquisition succeeds exactly when the key is absent; on success the key
   * holds the caller's token with the lease, and no other key changes.
   */
  lemma TryLockEffect(kv: Kv, name: string, token: string, timeoutSec: int)
    ensures var (ok, kv') := TryLock(kv, name, token, timeoutSec);
            && (ok <==> LockKey(name) !in kv)
            && (ok ==> Lookup(kv', LockKey(name)) == Some(token) && kv'[LockKey(name)].ttl == Expires(timeoutSec))
            && (!ok ==> kv' == kv)
            && kv'.Keys == kv.Keys + {LockKey(name)}
            && forall k :: k in kv && k != LockKey(name) ==> kv'[k] == kv[k]
  {
  }

  /** The lock is not re-entrant: a second acquisition by the same token fails and keeps the token. */
  lemma NotReentrant(kv: Kv, name: string, token: string, timeoutSec: int)
    requires TryLock(kv, name, token, timeoutSec).0
    ensures var kv1 := TryLock(kv, name, token, timeoutSec).1;
            var (again, kv2) := TryLock(kv1, name, token, timeoutSec);
            !again && kv2 == kv1 && Lookup(kv2, LockKey(name)) == Some(token)
  {
  }

  /** Acquire then release by the same token restores the store exactly. */
  lemma LockUnlockRoundTrip(kv: Kv, name: string, token: string, timeoutSec: int)
    requires TryLock(kv, name, token, timeoutSec).0
    ensures Unlock(TryLock(kv, name, token, timeoutSec).1, name, token) == kv
  {
    var kv1 := TryLock(kv, name, token, timeoutSec).1;
    assert kv1 - {LockKey(name)} == kv;
  }

  /** Release by the token that holds the lock frees the key. */
  lemma UnlockByOwner(kv: Kv, name: string, token: string)
    requires Lookup(kv, LockKey(name)) == Some(token)
    ensures LockKey(name) !in Unlock(kv, name, token)
    ensures Unlock(kv, name, token) == kv - {LockKey(name)}
  {
  }

  /** Release by any other token is a no-op: the holder's key stays intact. */
  lemma UnlockByOtherIsNoop(kv: Kv, name: string, token: string)
    requires Lookup(kv, LockKey(name)) != Some(token)
    ensures Unlock(kv, name, token) == kv
  {
  }

  /** Lock keys of different names differ. */
  lemma LockKeyInjective(a: string, b: string)
    ensures LockKey(a) == LockKey(b) ==> a == b
  {
    if LockKey(a) == LockKey(b) {
      assert a == LockKey(a)[|KeyPrefix|..];
      assert b == LockKey(b)[|KeyPrefix|..];
    }
  }

  /** Acquiring or releasing one lock never touches the key of a lock with another name. */
  lemma NamesIndependent(kv: Kv, a: string, b: string, token: string, timeoutSec: int)
    requires a != b
    ensures Lookup(TryLock(kv, a, token, timeoutSec).1, LockKey(b)) == Lookup(kv, LockKey(b))
    ensures Lookup(Unlock(kv, a, token), LockKey(b)) == Lookup(kv, LockKey(b))
  {
    LockKeyInjective(a, b);
  }

  /** Two threads of one process own different tokens. */
  lemma TokensOfThreadsDiffer(uuid: string, t1: int, t2: int)
    requires MinLong <= t1 <= MaxLong && MinLong <= t2 <= MaxLong && t1 != t2
    ensures Token(uuid, t1) != Token(uuid, t2)
  {
    IntToStringInjective(t1, t2);
    var n := |IdPrefix(uuid)|;
    assert Token(uuid, t1)[n..] == IntToString(t1);
    assert Token(uuid, t2)[n..] == IntToString(t2);
  }

  /** Threads of two processes (two different 32-character UUIDs) own different tokens. */
  lemma TokensOfProcessesDiffer(u1: string, u2: string, t1: int, t2: int)
    requires |u1| == 32 && |u2| == 32 && u1 != u2
    ensures Token(u1, t1) != Token(u2, t2)
  {
    assert Token(u1, t1)[..32] == u1;
    assert Token(u2, t2)[..32] == u2;
  }

  /**
   * The lease hazard is contained: once the first owner's lease has lapsed and
   * another token holds the lock, the first owner's release leaves it intact.
   */
  lemma ReleaseAfterLapseKeepsNewOwner(kv: Kv, name: string, first: string, second: string, timeoutSec: int)
    requires first != second
    requires TryLock(kv, name, first, timeoutSec).0
    ensures var lapsed := TryLock(kv, name, first, timeoutSec).1 - {LockKey(name)};
            var (ok, kv2) := TryLock(lapsed, name, second, timeoutSec);
            ok && Unlock(kv2, name, first) == kv2 && Lookup(kv2, LockKey(name)) == Some(second)
  {
  }

  /** One lock object: its name, the shared store and the process's UUID. */
  class SimpleRedisLock {
    const name: string
    const store: RedisStore
    const uuid: string

    constructor (name: string, store: RedisStore, uuid: string)
      ensures this.name == name && this.store == store && this.uuid == uuid
    {
      this.name := name;
      this.store := store;
      this.uuid := uuid;
    }

    /** `tryLock(timeoutSec)` called from the thread `threadId`. */
    method TryLockAs(timeoutSec: int, threadId: int) returns (ok: bool)
      modifies store
      ensures (ok, store.data) == TryLock(old(store.data), name, Token(uuid, threadId), timeoutSec)
    {
      var threadToken := IdPrefix(uuid) + IntToString(threadId);
      ok := store.SetIfAbsent(KeyPrefix + name, threadToken, Expires(timeoutSec));
    }

    /** `unlock()` called from the thread `threadId`. */
    method UnlockAs(threadId: int)
      modifies store
      ensures store.data == Unlock(old(store.data), name, Token(uuid, threadId))
    {
      var threadToken := IdPrefix(uuid) + IntToString(threadId);
      var id := store.Get(KeyPrefix + name);
      if id == Some(threadToken) {
        var _ := store.Delete(KeyPrefix + name);
      }
    }
  }
}
