/**
 * `RedisIdWorker`: 64-bit order ids made of the seconds elapsed since a fixed
 * anchor (high bits) and a per-prefix, per-day Redis counter (low 32 bits).
 * Java's `long` shift and bitwise or are written out on integers.
 */
module IdWorker {
  import opened Base
  import opened Decimal
  import opened Redis

  /** `BEGIN_TIMESTAMP`: 2025-11-03T00:00:00 as UTC epoch seconds. */
  const BeginTimestamp: int := 1762128000

  /** `COUNT_BITS`. */
  const CountBits: nat := 32

  const TwoTo31: int := 0x8000_0000
  const TwoTo32: int := 0x1_0000_0000
  const TwoTo63: int := 0x8000_0000_0000_0000
  const TwoTo64: int := 0x1_0000_0000_0000_0000

  // ---------------------------------------------------------------- the clock

  /** A reading of `LocalDateTime.now()`. */
  datatype DateTime = DateTime(year: int, month: int, day: int, hour: int, minute: int, second: int)

  function DaysInMonth(year: int, month: int): int {
    if month == 2 then (if (year % 4 == 0 && year % 100 != 0) || year % 400 == 0 then 29 else 28)
    else if month == 4 || month == 6 || month == 9 || month == 11 then 30
    else 31
  }

  /**
   * The readings the clock produces: a `LocalDateTime` with a four-digit year
   * (the range in which `yyyy` prints exactly four digits).
   */
  predicate ValidDateTime(t: DateTime) {
    && 1 <= t.year <= 9999 && 1 <= t.month <= 12 && 1 <= t.day <= DaysInMonth(t.year, t.month)
    && 0 <= t.hour < 24 && 0 <= t.minute < 60 && 0 <= t.second < 60
  }

  /** Days from 1970-01-01 to the given civil date (proleptic Gregorian calendar). */
  function DaysFromCivil(year: int, month: int, day: int): int {
    var y := if month <= 2 then year - 1 else year;
    var era := y / 400;
    var yoe := y - era * 400;
    var doy := (153 * (if month > 2 then month - 3 else month + 9) + 2) / 5 + day - 1;
    var doe := yoe * 365 + yoe / 4 - yoe / 100 + doy;
    era * 146097 + doe - 719468
  }

  /** `toEpochSecond(ZoneOffset.UTC)`: the local date-time read as UTC. */
  function EpochSecond(t: DateTime): int {
    DaysFromCivil(t.year, t.month, t.day) * 86400 + t.hour * 3600 + t.minute * 60 + t.second
  }

  /** `n` in decimal, left-padded with zeros to `width` digits. */
  function ZeroPad(n: nat, width: nat): string {
    var s := NatToString(n);
    if |s| >= width then s else seq(width - |s|, _ => '0') + s
  }

  /** `now.format(ofPattern("yyyy:MM:dd"))`. */
  function DateKey(t: DateTime): string
    requires ValidDateTime(t)
  {
    ZeroPad(t.year, 4) + ":" + ZeroPad(t.month, 2) + ":" + ZeroPad(t.day, 2)
  }

  /** The Redis key of the counter for one prefix and one day. */
  function CounterKey(keyPrefix: string, date: string): string {
    "icr:" + keyPrefix + ":" + date
  }

  /** The anchor is midnight of 2025-11-03, as the class's `main` computes it. */
  lemma AnchorIsNovember3()
    ensures EpochSecond(DateTime(2025, 11, 3, 0, 0, 0)) == BeginTimestamp
    ensures ValidDateTime(DateTime(2025, 11, 3, 0, 0, 0))
  {
  }

  // ------------------------------------------------------- 64-bit arithmetic

  function Pow2(k: nat): (r: nat)
    ensures r >= 1
  {
    if k == 0 then 1 else 2 * Pow2(k - 1)
  }

  /** The bits of a Java `long` read as an unsigned number. */
  function Unsigned64(x: int): nat {
    x % TwoTo64
  }

  /** The Java `long` whose two's-complement bits are the low 64 bits of `u`. */
  function Signed64(u: int): (r: int)
    ensures MinLong <= r <= MaxLong
  {
    var w := u % TwoTo64;
    if w < TwoTo63 then w else w - TwoTo64
  }

  /** Bitwise or of the low `n` bits of two naturals. */
  function OrBits(x: nat, y: nat, n: nat): nat {
    if n == 0 then 0
    else (if x % 2 == 1 || y % 2 == 1 then 1 else 0) + 2 * OrBits(x / 2, y / 2, n - 1)
  }

  /** Java `x << k` on `long`: bits shifted out at the top are lost. */
  function ShiftLeft(x: int, k: nat): int {
    Signed64(x * Pow2(k))
  }

  /** Java `a | b` on `long`. */
  function Or(a: int, b: int): int {
    Signed64(OrBits(Unsigned64(a), Unsigned64(b), 64))
  }

  /** `(timeStamp << COUNT_BITS) | count`. */
  function Pack(ts: int, count: int): int {
    Or(ShiftLeft(ts, CountBits), count)
  }

  lemma {:induction false} Pow2Add(a: nat, b: nat)
    ensures Pow2(a + b) == Pow2(a) * Pow2(b)
  {
    if a > 0 {
      Pow2Add(a - 1, b);
      assert Pow2(a + b) == 2 * Pow2(a - 1 + b);
    }
  }

  lemma Pow2Values()
    ensures Pow2(32) == TwoTo32 && Pow2(64) == TwoTo64
  {
    Pow2Of16();
    Pow2Add(16, 16);
    Pow2Add(32, 32);
  }

  lemma Pow2Of16()
    ensures Pow2(16) == 0x1_0000
  {
    assert Pow2(4) == 16;
    Pow2Add(4, 4);
    Pow2Add(8, 8);
  }

  /** Or with zero leaves a number that fits in `n` bits unchanged. */
  lemma {:induction false} OrBitsZero(x: nat, n: nat)
    requires x < Pow2(n)
    ensures OrBits(x, 0, n) == x
  {
    if n > 0 {
      OrBitsZero(x / 2, n - 1);
    }
  }

  /** Or of a number shifted by `k` with one below 2^k is their sum: the bits are disjoint. */
  lemma {:induction false} OrBitsDisjoint(a: nat, c: nat, k: nat, n: nat)
    requires k <= n && c < Pow2(k) && a * Pow2(k) < Pow2(n)
    ensures OrBits(a * Pow2(k), c, n) == a * Pow2(k) + c
  {
    if k == 0 {
      OrBitsZero(a, n);
    } else {
      assert a * Pow2(k) == 2 * (a * Pow2(k - 1));
      OrBitsDisjoint(a, c / 2, k - 1, n - 1);
    }
  }

  /** `ts << 32` for a time below 2^31 is `ts * 2^32`: no bit is lost. */
  lemma ShiftLeftExact(ts: int)
    requires 0 <= ts < TwoTo31
    ensures ShiftLeft(ts, CountBits) == ts * TwoTo32
  {
    Pow2Values();
  }

  /** `x | count` for `x` a multiple of 2^32 is `x + count`. */
  lemma OrExact(ts: int, count: int)
    requires 0 <= ts < TwoTo31 && 0 <= count < TwoTo32
    ensures Or(ts * TwoTo32, count) == ts * TwoTo32 + count
  {
    Pow2Values();
    var x := ts * TwoTo32;
    ShiftedBound(ts);
    assert Unsigned64(x) == x && Unsigned64(count) == count;
    OrBitsDisjoint(ts, count, 32, 64);
    assert OrBits(x, count, 64) == x + count;
    assert (x + count) % TwoTo64 == x + count;
  }

  lemma ShiftedBound(ts: int)
    requires 0 <= ts < TwoTo31
    ensures 0 <= ts * TwoTo32 && ts * TwoTo32 + TwoTo32 <= TwoTo63
  {
    assert ts * TwoTo32 + TwoTo32 == (ts + 1) * TwoTo32;
  }

  /** Within the bounds, the packed id is `ts * 2^32 + count`. */
  lemma PackValue(ts: int, count: int)
    requires 0 <= ts < TwoTo31 && 0 <= count < TwoTo32
    ensures Pack(ts, count) == ts * TwoTo32 + count
  {
    ShiftLeftExact(ts);
    OrExact(ts, count);
  }

  /** Within the bounds, the id is non-negative, its low 32 bits are the count and its high bits the time. */
  lemma PackFields(ts: int, count: int)
    requires 0 <= ts < TwoTo31 && 0 <= count < TwoTo32
    ensures 0 <= Pack(ts, count) <= MaxLong
    ensures Pack(ts, count) % TwoTo32 == count
    ensures Pack(ts, count) / TwoTo32 == ts
  {
    PackValue(ts, count);
    SplitFields(ts, count);
  }

  lemma SplitFields(ts: int, count: int)
    requires 0 <= ts < TwoTo31 && 0 <= count < TwoTo32
    ensures 0 <= ts * TwoTo32 + count <= MaxLong
    ensures (ts * TwoTo32 + count) % TwoTo32 == count
    ensures (ts * TwoTo32 + count) / TwoTo32 == ts
  {
  }

  /** Within the bounds, distinct (time, count) pairs give distinct ids. */
  lemma PackInjective(ts1: int, c1: int, ts2: int, c2: int)
    requires 0 <= ts1 < TwoTo31 && 0 <= c1 < TwoTo32
    requires 0 <= ts2 < TwoTo31 && 0 <= c2 < TwoTo32
    ensures Pack(ts1, c1) == Pack(ts2, c2) ==> ts1 == ts2 && c1 == c2
  {
    PackFields(ts1, c1);
    PackFields(ts2, c2);
  }

  /** Within the bounds, ids order lexicographically by (time, count). */
  lemma PackOrdered(ts1: int, c1: int, ts2: int, c2: int)
    requires 0 <= ts1 < TwoTo31 && 0 <= c1 < TwoTo32
    requires 0 <= ts2 < TwoTo31 && 0 <= c2 < TwoTo32
    ensures ts1 < ts2 ==> Pack(ts1, c1) < Pack(ts2, c2)
    ensures ts1 == ts2 && c1 < c2 ==> Pack(ts1, c1) < Pack(ts2, c2)
  {
    PackValue(ts1, c1);
    PackValue(ts2, c2);
  }

  /** A count of 2^32 spills into the time bits: its id collides with the next second's first id. */
  lemma PackCollidesBeyondCountBits()
    ensures Pack(0, TwoTo32) == Pack(1, 0)
  {
    PackValue(1, 0);
    Pow2Values();
    OrBitsZero(TwoTo32, 64);
    assert OrBits(0, TwoTo32, 64) == TwoTo32 by { OrBitsSymmetric(0, TwoTo32, 64); }
  }

  lemma {:induction false} OrBitsSymmetric(x: nat, y: nat, n: nat)
    ensures OrBits(x, y, n) == OrBits(y, x, n)
  {
    if n > 0 {
      OrBitsSymmetric(x / 2, y / 2, n - 1);
    }
  }

  // --------------------------------------------------------------- nextId

  /**
   * `nextId(keyPrefix)` when the clock reads `nowEpochSecond` (its
   * `toEpochSecond(UTC)`) on the day rendered `date` (its "yyyy:MM:dd"): the id
   * and the store afterwards.
   */
  function NextId(kv: Kv, keyPrefix: string, nowEpochSecond: int, date: string): (Call<int>, Kv) {
    var timeStamp := nowEpochSecond - BeginTimestamp;
    var (count, kv') := Incr(kv, CounterKey(keyPrefix, date));
    match count
    case Throws => (Throws, kv')
    case Returns(c) => (Returns(Pack(timeStamp, c)), kv')
  }

  /**
   * Each call increments the counter keyed by the prefix and the current date
   * by one, and the id is that count behind the seconds since the anchor.
   */
  lemma NextIdCounter(kv: Kv, keyPrefix: string, nowEpochSecond: int, date: string)
    ensures var key := CounterKey(keyPrefix, date);
            var (r, kv') := NextId(kv, keyPrefix, nowEpochSecond, date);
            r.Returns? ==>
              && CounterValue(kv, key).Some?
              && CounterValue(kv', key) == Some(CounterValue(kv, key).value + 1)
              && r.value == Pack(nowEpochSecond - BeginTimestamp, CounterValue(kv, key).value + 1)
  {
    IncrEffect(kv, CounterKey(keyPrefix, date));
  }

  /** No other key of the store changes; a failed INCR changes nothing. */
  lemma NextIdFrame(kv: Kv, keyPrefix: string, nowEpochSecond: int, date: string)
    ensures var key := CounterKey(keyPrefix, date);
            var (r, kv') := NextId(kv, keyPrefix, nowEpochSecond, date);
            && (r.Returns? ==> kv'.Keys == kv.Keys + {key} && forall k :: k in kv && k != key ==> kv'[k] == kv[k])
            && (r.Throws? ==> kv' == kv)
  {
    IncrEffect(kv, CounterKey(keyPrefix, date));
  }

  /**
   * While the time fits in 31 bits and the count in 32, the id is the time
   * times 2^32 plus the count this call produced.
   */
  lemma NextIdValue(kv: Kv, keyPrefix: string, nowEpochSecond: int, date: string)
    requires 0 <= nowEpochSecond - BeginTimestamp < TwoTo31
    requires var c := CounterValue(kv, CounterKey(keyPrefix, date)); c.Some? && 0 <= c.value && c.value + 1 < TwoTo32
    ensures var r := NextId(kv, keyPrefix, nowEpochSecond, date).0;
            r.Returns? ==> r.value == (nowEpochSecond - BeginTimestamp) * TwoTo32 + CounterValue(kv, CounterKey(keyPrefix, date)).value + 1
  {
    var c := CounterValue(kv, CounterKey(keyPrefix, date)).value;
    NextIdCounter(kv, keyPrefix, nowEpochSecond, date);
    PackValue(nowEpochSecond - BeginTimestamp, c + 1);
  }

  /**
   * Two successive calls with one prefix on one day return distinct ids, the
   * later one larger, as long as the clock does not go back and the counter
   * stays below 2^32.
   */
  lemma SameDayIdsIncrease(kv: Kv, keyPrefix: string, date: string, now1: int, now2: int)
    requires 0 <= now1 - BeginTimestamp <= now2 - BeginTimestamp < TwoTo31
    requires var c := CounterValue(kv, CounterKey(keyPrefix, date)); c.Some? && 0 <= c.value && c.value + 2 < TwoTo32
    ensures var (r1, kv1) := NextId(kv, keyPrefix, now1, date);
            var r2 := NextId(kv1, keyPrefix, now2, date).0;
            r1.Returns? && r2.Returns? ==> r1.value < r2.value
  {
    var key := CounterKey(keyPrefix, date);
    var c := CounterValue(kv, key).value;
    var (r1, kv1) := NextId(kv, keyPrefix, now1, date);
    if r1.Returns? {
      NextIdValue(kv, keyPrefix, now1, date);
      NextIdCounter(kv, keyPrefix, now1, date);
      assert CounterValue(kv1, key) == Some(c + 1);
      NextIdValue(kv1, keyPrefix, now2, date);
    }
  }

  /** The component that hands out order ids; the counters live in the shared store. */
  class RedisIdWorker {
    const store: RedisStore

    constructor (store: RedisStore)
      ensures this.store == store
    {
      this.store := store;
    }

    /** `nextId(keyPrefix)` with the clock reading `now`. */
    method NextIdAt(keyPrefix: string, now: DateTime) returns (r: Call<int>)
      requires ValidDateTime(now)
      modifies store
      ensures (r, store.data) == NextId(old(store.data), keyPrefix, EpochSecond(now), DateKey(now))
    {
      var nowEpochSecond := EpochSecond(now);
      var timeStamp := nowEpochSecond - BeginTimestamp;
      var date := DateKey(now);
      var count := store.Increment("icr:" + keyPrefix + ":" + date);
      if count.Throws? {
        r := Throws;
        return;
      }
      r := Returns(Or(ShiftLeft(timeStamp, CountBits), count.value));
    }
  }
}
