/**
 * The string store behind `StringRedisTemplate`: a map from key to string value,
 * each entry tagged with the TTL it was written with. Time passing is the
 * explicit action `ExpireKey`, which drops a key that carries a TTL.
 */
module Redis {
  import opened Base
  import opened Decimal

  /** The store-level expiry of a key: none (`PERSIST`), or a lease in seconds. */
  datatype Ttl = Persist | Expires(seconds: int)

  datatype Entry = Entry(value: string, ttl: Ttl)

  type Kv = map<string, Entry>

  /** `TimeUnit` values the core passes to the store. */
  datatype TimeUnit = Seconds | Minutes

  /** `unit.toSeconds(time)`. */
  function ToSeconds(time: int, unit: TimeUnit): int {
    match unit
    case Seconds => time
    case Minutes => time * 60
  }

  /** GET: the value stored under `key`, or null. */
  function Lookup(kv: Kv, key: string): (r: Option<string>)
    ensures r.Some? <==> key in kv
  {
    if key in kv then Some(kv[key].value) else None
  }

  /**
   * hutool `CharUtil.isBlankChar`: Java whitespace, Unicode space separators,
   * and the extra characters hutool treats as blank.
   */
  predicate IsBlankChar(c: char) {
    var n := c as int;
    || n == 0 || 9 <= n <= 13 || 28 <= n <= 32 || n == 0xA0 || n == 0x1680 || n == 0x180E
    || 0x2000 <= n <= 0x200A || n == 0x2028 || n == 0x2029 || n == 0x202A || n == 0x202F
    || n == 0x205F || n == 0x2800 || n == 0x3000 || n == 0x3164 || n == 0xFEFF
  }

  /** hutool `StrUtil.isBlank`: null, empty, or blank characters only. */
  predicate IsBlank(s: Option<string>) {
    s.None? || forall i :: 0 <= i < |s.value| ==> IsBlankChar(s.value[i])
  }

  /** The counter Redis reads before INCR: 0 when absent, None when not a 64-bit integer. */
  function CounterValue(kv: Kv, key: string): Option<int> {
    if key in kv then ParseInt(kv[key].value) else Some(0)
  }

  /**
   * INCR: the incremented counter, stored back as its decimal rendering with the
   * key's TTL kept; Redis raises an error (Java throws) on a non-integer value or
   * on overflow, and then nothing changes.
   */
  function Incr(kv: Kv, key: string): (Call<int>, Kv) {
    match CounterValue(kv, key)
    case None => (Throws, kv)
    case Some(n) =>
      if n == MaxLong then (Throws, kv)
      else
        var ttl := if key in kv then kv[key].ttl else Persist;
        (Returns(n + 1), kv[key := Entry(IntToString(n + 1), ttl)])
  }

  /** INCR on a key nobody wrote returns 1. */
  lemma IncrFresh(kv: Kv, key: string)
    requires key !in kv
    ensures Incr(kv, key).0 == Returns(1)
    ensures CounterValue(Incr(kv, key).1, key) == Some(1)
  {
    ParseIntToString(1);
  }

  /**
   * INCR changes exactly one key, and the counter it leaves reads back as the
   * value it returned.
   */
  lemma IncrEffect(kv: Kv, key: string)
    ensures Incr(kv, key).0.Returns? ==>
      && CounterValue(kv, key).Some?
      && Incr(kv, key).0.value == CounterValue(kv, key).value + 1
      && CounterValue(Incr(kv, key).1, key) == Some(Incr(kv, key).0.value)
      && Incr(kv, key).1.Keys == kv.Keys + {key}
      && forall k :: k in kv && k != key ==> Incr(kv, key).1[k] == kv[k]
    ensures Incr(kv, key).0.Throws? ==> Incr(kv, key).1 == kv
  {
    var (r, kv') := Incr(kv, key);
    if r.Returns? {
      ParseIntToString(r.value);
    }
  }

  /** Two INCRs of one key return strictly increasing values (consecutive ones). */
  lemma IncrTwice(kv: Kv, key: string)
    requires Incr(kv, key).0.Returns?
    ensures var (r1, kv1) := Incr(kv, key);
            Incr(kv1, key).0.Returns? ==> Incr(kv1, key).0.value == r1.value + 1
  {
    IncrEffect(kv, key);
  }

  /** The shared store, updated in place by every component. */
  class RedisStore {
    var data: Kv

    constructor ()
      ensures data == map[]
    {
      data := map[];
    }

    /** GET. */
    function Get(key: string): Option<string>
      reads this
    {
      Lookup(data, key)
    }

    /** SET key value [EX ttl]: overwrites the value and the TTL. */
    method Set(key: string, value: string, ttl: Ttl)
      modifies this
      ensures data == old(data)[key := Entry(value, ttl)]
    {
      data := data[key := Entry(value, ttl)];
    }

    /** SET key value NX [EX ttl]: writes only when the key is absent. */
    method SetIfAbsent(key: string, value: string, ttl: Ttl) returns (ok: bool)
      modifies this
      ensures ok <==> key !in old(data)
      ensures data == if ok then old(data)[key := Entry(value, ttl)] else old(data)
    {
      ok := key !in data;
      if ok {
        data := data[key := Entry(value, ttl)];
      }
    }

    /** DEL: removes the key; reports whether it existed. */
    method Delete(key: string) returns (existed: bool)
      modifies this
      ensures existed <==> key in old(data)
      ensures data == old(data) - {key}
    {
      existed := key in data;
      data := data - {key};
    }

    /** INCR. */
    method Increment(key: string) returns (r: Call<int>)
      modifies this
      ensures (r, data) == Incr(old(data), key)
    {
      var current := if key in data then ParseInt(data[key].value) else Some(0);
      if current.None? || current.value == MaxLong {
        r := Throws;
        return;
      }
      var ttl := if key in data then data[key].ttl else Persist;
      data := data[key := Entry(IntToString(current.value + 1), ttl)];
      r := Returns(current.value + 1);
    }

    /** The passage of a key's TTL: a key written with a lease disappears. */
    method ExpireKey(key: string)
      modifies this
      ensures data == if key in old(data) && old(data)[key].ttl.Expires? then old(data) - {key} else old(data)
    {
      if key in data && data[key].ttl.Expires? {
        data := data - {key};
      }
    }
  }
}
