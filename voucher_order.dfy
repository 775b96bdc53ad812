/**
 * `VoucherOrderServiceImpl`: flash-sale admission (`setKillVoucher`) and
 * asynchronous fulfilment.
 *
 * - Admission draws an order id, runs the admission script, and maps its
 *   result code to a response. The script itself is a parameter: it answers
 *   for the arguments it is given, and its effect on Redis is not modelled.
 * - Fulfilment reads the order stream and handles each order under a per-user
 *   lock. `createVoucherOrder` is one transaction: duplicate check, conditional
 *   stock decrement, insert. An entry is acknowledged only when handling
 *   returns normally; otherwise the pending list is replayed.
 */
module VoucherOrders {
  import opened Base
  import opened Decimal
  import opened Redis
  import opened RedisLock
  import opened IdWorker
  import opened OrderStream
  import opened OrderDb

  /** The lease of the per-user lock, in seconds: the lock client's default watchdog lease. */
  const LockLease: int := 30

  const OrderPrefix: string := "order"
  const OutOfStock: string := "库存不足"
  const DuplicateOrder: string := "不能重复下单"

  /** How `createVoucherOrder` returns normally. */
  datatype CreateOutcome = Duplicate | NoStock | Saved

  /** How `handleVoucherOrder` returns normally. */
  datatype HandleOutcome = LockBusy | Handled(created: CreateOutcome)

  /** One read of the stream: no entry, an entry handled and acknowledged, or an entry whose handling threw. */
  datatype StepOutcome = NoEntry | Acked(id: nat) | Failed(id: nat)

  /** Everything fulfilment reads and writes: the store, the tables and the stream. */
  datatype Sys = Sys(kv: Kv, db: Tables, stream: Stream)

  /** The per-user lock "lock:order:" + userId, as a lock named "order:" + userId. */
  function OrderLockName(userId: int): string {
    "order:" + IntToString(userId)
  }

  // ------------------------------------------------------ createVoucherOrder

  /** `createVoucherOrder(order)`: one transaction; an exception rolls it back. */
  function Create(db: Tables, o: VoucherOrder): (Call<CreateOutcome>, Tables) {
    if db.down then (Throws, db)
    else if HasOrder(db.orders, o.userId, o.voucherId) then (Returns(Duplicate), db)
    else if !(o.voucherId in db.stock && db.stock[o.voucherId] > 0) then (Returns(NoStock), db)
    else if o.id in db.orders then (Throws, db)
    else
      (Returns(Saved), db.(stock := db.stock[o.voucherId := db.stock[o.voucherId] - 1],
                           orders := db.orders[o.id := OrderRow(o.userId, o.voucherId)]))
  }

  predicate StockNonNegative(db: Tables) {
    forall v :: v in db.stock ==> db.stock[v] >= 0
  }

  /** At most one order per (user, voucher): equal rows are the same order. */
  predicate OnePerUser(orders: map<int, OrderRow>) {
    forall a, b :: a in orders && b in orders && orders[a] == orders[b] ==> a == b
  }

  /** A user who already holds an order for the voucher changes nothing. */
  lemma CreateDuplicate(db: Tables, o: VoucherOrder)
    requires !db.down && HasOrder(db.orders, o.userId, o.voucherId)
    ensures Create(db, o) == (Returns(Duplicate), db)
  {
  }

  /** Without stock left, no order is inserted and nothing changes. */
  lemma CreateNoStock(db: Tables, o: VoucherOrder)
    requires !(o.voucherId in db.stock && db.stock[o.voucherId] > 0)
    ensures Create(db, o).1 == db
    ensures Create(db, o).0.Returns? ==> Create(db, o).0.value != Saved
  {
  }

  /**
   * A saved order took the last check: the voucher's stock drops by exactly
   * one, exactly one row is added, and every other stock and row stays.
   */
  lemma CreateSaved(db: Tables, o: VoucherOrder)
    ensures var (r, db') := Create(db, o);
            r == Returns(Saved) <==>
              && !db.down && !HasOrder(db.orders, o.userId, o.voucherId)
              && o.voucherId in db.stock && db.stock[o.voucherId] > 0 && o.id !in db.orders
    ensures var (r, db') := Create(db, o);
            r == Returns(Saved) ==>
              && db'.stock == db.stock[o.voucherId := db.stock[o.voucherId] - 1]
              && db'.orders == db.orders[o.id := OrderRow(o.userId, o.voucherId)]
              && o.id !in db.orders
    ensures var (r, db') := Create(db, o);
            r != Returns(Saved) ==> db' == db
  {
  }

  /** Non-negative stock and one order per (user, voucher) survive every call. */
  lemma CreateKeepsInvariants(db: Tables, o: VoucherOrder)
    requires StockNonNegative(db) && OnePerUser(db.orders)
    ensures StockNonNegative(Create(db, o).1) && OnePerUser(Create(db, o).1.orders)
  {
  }

  /** The voucher's stock plus its placed orders: what the voucher was issued with. */
  function Issued(db: Tables, voucherId: int): int {
    (if voucherId in db.stock then db.stock[voucherId] else 0) + |OrderIdsFor(db.orders, voucherId)|
  }

  /** Every call keeps stock plus orders of every voucher constant: a saved order takes one unit of stock. */
  lemma CreateConserves(db: Tables, o: VoucherOrder, w: int)
    ensures Issued(Create(db, o).1, w) == Issued(db, w)
  {
    var (r, db') := Create(db, o);
    CreateSaved(db, o);
    if r == Returns(Saved) {
      if w == o.voucherId {
        assert OrderIdsFor(db'.orders, w) == OrderIdsFor(db.orders, w) + {o.id};
      } else {
        assert OrderIdsFor(db'.orders, w) == OrderIdsFor(db.orders, w);
      }
    }
  }

  /** A sequence of `createVoucherOrder` calls, one after another. */
  function CreateAll(db: Tables, os: seq<VoucherOrder>): Tables
    decreases |os|
  {
    if os == [] then db else CreateAll(Create(db, os[0]).1, os[1..])
  }

  /** Over any sequence of calls, stock stays non-negative and no (user, voucher) gets two orders. */
  lemma {:induction false} CreateAllKeepsInvariants(db: Tables, os: seq<VoucherOrder>)
    requires StockNonNegative(db) && OnePerUser(db.orders)
    ensures StockNonNegative(CreateAll(db, os)) && OnePerUser(CreateAll(db, os).orders)
    decreases |os|
  {
    if os != [] {
      CreateKeepsInvariants(db, os[0]);
      CreateAllKeepsInvariants(Create(db, os[0]).1, os[1..]);
    }
  }

  /** Over any sequence of calls, stock plus orders of every voucher stays constant. */
  lemma {:induction false} CreateAllConserves(db: Tables, os: seq<VoucherOrder>, w: int)
    ensures Issued(CreateAll(db, os), w) == Issued(db, w)
    decreases |os|
  {
    if os != [] {
      CreateConserves(db, os[0], w);
      CreateAllConserves(Create(db, os[0]).1, os[1..], w);
    }
  }

  /** No oversell: a voucher never ends with more orders than its stock and orders at the start. */
  lemma NoOversell(db: Tables, os: seq<VoucherOrder>, w: int)
    requires StockNonNegative(db) && OnePerUser(db.orders)
    ensures |OrderIdsFor(CreateAll(db, os).orders, w)| <= Issued(db, w)
  {
    CreateAllConserves(db, os, w);
    CreateAllKeepsInvariants(db, os);
  }

  // ------------------------------------------------------ handleVoucherOrder

  /** `handleVoucherOrder(order)` by the lock owner `token`. */
  function Handle(kv: Kv, db: Tables, o: VoucherOrder, token: string): (Call<HandleOutcome>, Kv, Tables) {
    var name := OrderLockName(o.userId);
    var (isLock, locked) := TryLock(kv, name, token, LockLease);
    if !isLock then (Returns(LockBusy), kv, db)
    else
      var (c, db') := Create(db, o);
      (match c case Throws => Throws case Returns(x) => Returns(Handled(x)), Unlock(locked, name, token), db')
  }

  /** A busy user lock makes the handler return normally with nothing written. */
  lemma HandleLockBusy(kv: Kv, db: Tables, o: VoucherOrder, token: string)
    requires LockKey(OrderLockName(o.userId)) in kv
    ensures Handle(kv, db, o, token) == (Returns(LockBusy), kv, db)
  {
  }

  /**
   * With the user lock free, the handler runs the transaction and releases
   * the lock in every case: the store ends as it started.
   */
  lemma HandleRunsCreate(kv: Kv, db: Tables, o: VoucherOrder, token: string)
    requires LockKey(OrderLockName(o.userId)) !in kv
    ensures var (r, kv', db') := Handle(kv, db, o, token);
            var (c, dbc) := Create(db, o);
            && kv' == kv && db' == dbc
            && (r.Throws? <==> c.Throws?)
            && (c.Returns? ==> r == Returns(Handled(c.value)))
  {
    LockUnlockRoundTrip(kv, OrderLockName(o.userId), token, LockLease);
  }

  /** The handler never leaves anything behind in the store. */
  lemma HandleKeepsStore(kv: Kv, db: Tables, o: VoucherOrder, token: string)
    ensures Handle(kv, db, o, token).1 == kv
  {
    if LockKey(OrderLockName(o.userId)) !in kv {
      HandleRunsCreate(kv, db, o, token);
    }
  }

  /** A handler that throws has changed neither the store nor the tables. */
  lemma HandleThrowsChangesNothing(kv: Kv, db: Tables, o: VoucherOrder, token: string)
    requires Handle(kv, db, o, token).0.Throws?
    ensures Handle(kv, db, o, token).1 == kv && Handle(kv, db, o, token).2 == db
  {
    HandleKeepsStore(kv, db, o, token);
  }

  // ------------------------------------------------------ the consumer steps

  /** What the consumer does with one order: `handleVoucherOrder`, or any other handler. */
  type Handler = (Kv, Tables, VoucherOrder) -> (Call<HandleOutcome>, Kv, Tables)

  /** `handleVoucherOrder` run by the lock owner `token`. */
  function HandlerFor(token: string): Handler {
    (kv, db, o) => Handle(kv, db, o, token)
  }

  /** One iteration of `VoucherOrderHandler.run` up to the recovery call. */
  function ConsumerStep(sys: Sys, handle: Handler): (StepOutcome, Sys) {
    var (e, st1) := ReadNew(sys.stream);
    match e
    case None => (NoEntry, sys)
    case Some(d) =>
      var (h, kv1, db1) := handle(sys.kv, sys.db, d.order);
      if h.Returns? then (Acked(d.id), Sys(kv1, db1, Ack(st1, d.id)))
      else (Failed(d.id), Sys(kv1, db1, st1))
  }

  /** One iteration of `handlePendingList`: the oldest pending entry, handled and acknowledged on success. */
  function PendingStep(sys: Sys, handle: Handler): (StepOutcome, Sys) {
    match ReadPending(sys.stream)
    case None => (NoEntry, sys)
    case Some(d) =>
      var (h, kv1, db1) := handle(sys.kv, sys.db, d.order);
      if h.Returns? then (Acked(d.id), Sys(kv1, db1, Ack(sys.stream, d.id)))
      else (Failed(d.id), Sys(kv1, db1, sys.stream))
  }

  /** `handlePendingList` cut off after `fuel` iterations; it stops on an empty pending list. */
  function PendingRun(sys: Sys, handle: Handler, fuel: nat): Sys
    decreases fuel, 0
  {
    if fuel == 0 then sys else PendingContinue(PendingStep(sys, handle), handle, fuel - 1)
  }

  /** The loop after one iteration: it stops on an empty pending list and otherwise goes on. */
  function PendingContinue(step: (StepOutcome, Sys), handle: Handler, fuel: nat): Sys
    decreases fuel, 1
  {
    if step.0.NoEntry? then step.1 else PendingRun(step.1, handle, fuel)
  }

  /** Both consumer loops keep the stream well formed. */
  lemma StepsKeepValid(sys: Sys, handle: Handler)
    requires Valid(sys.stream)
    ensures Valid(ConsumerStep(sys, handle).1.stream)
    ensures Valid(PendingStep(sys, handle).1.stream)
  {
    ReadNewEffect(sys.stream);
    var (e, st1) := ReadNew(sys.stream);
    if e.Some? {
      AckEffect(st1, e.value.id);
    }
    if sys.stream.pending != [] {
      AckEffect(sys.stream, sys.stream.pending[0].id);
    }
  }

  /**
   * A new entry is acknowledged exactly when its handling returns normally;
   * one whose handling threw stays pending for the recovery pass.
   */
  lemma ConsumerAcksIffReturns(sys: Sys, handle: Handler)
    requires Valid(sys.stream)
    ensures var (out, s) := ConsumerStep(sys, handle);
            && (out.NoEntry? <==> sys.stream.delivered == |sys.stream.entries|)
            && (out.NoEntry? ==> s == sys)
            && (!out.NoEntry? ==> out.id == sys.stream.delivered)
            && (out.Acked? <==> !out.NoEntry? && handle(sys.kv, sys.db, sys.stream.entries[out.id]).0.Returns?)
            && (out.Acked? ==> s.stream.pending == sys.stream.pending)
            && (out.Failed? ==> s.stream.pending == sys.stream.pending + [Delivery(out.id, sys.stream.entries[out.id])])
            && s.stream.entries == sys.stream.entries
            && s.stream.delivered == sys.stream.delivered + (if out.NoEntry? then 0 else 1)
  {
    ReadNewEffect(sys.stream);
    var (e, st1) := ReadNew(sys.stream);
    if e.Some? {
      RemoveLast(sys.stream.pending, e.value);
    }
  }

  /**
   * An entry whose user lock is held elsewhere is acknowledged with no order
   * written: the early return counts as normal completion.
   */
  lemma LockBusyEntryAcked(sys: Sys, token: string)
    requires Valid(sys.stream) && sys.stream.delivered < |sys.stream.entries|
    requires LockKey(OrderLockName(sys.stream.entries[sys.stream.delivered].userId)) in sys.kv
    ensures var (out, s) := ConsumerStep(sys, HandlerFor(token));
            && out == Acked(sys.stream.delivered)
            && s.db == sys.db && s.kv == sys.kv && s.stream.pending == sys.stream.pending
  {
    ConsumerAcksIffReturns(sys, HandlerFor(token));
  }

  /** The pending pass reads the oldest pending entry, drops it on success, and keeps it on an exception. */
  lemma PendingStepEffect(sys: Sys, handle: Handler)
    requires Valid(sys.stream)
    ensures var (out, s) := PendingStep(sys, handle);
            && (out.NoEntry? <==> sys.stream.pending == [])
            && (out.NoEntry? ==> s == sys)
            && (!out.NoEntry? ==> out.id == sys.stream.pending[0].id)
            && (out.Acked? <==> !out.NoEntry? && handle(sys.kv, sys.db, sys.stream.pending[0].order).0.Returns?)
            && (out.Acked? ==> s.stream.pending == sys.stream.pending[1..])
            && (out.Failed? ==> s.stream == sys.stream)
            && s.stream.entries == sys.stream.entries && s.stream.delivered == sys.stream.delivered
  {
    if sys.stream.pending != [] {
      AckOldest(sys.stream);
    }
  }

  /**
   * A pending entry whose handling throws is a fixed point of the pending
   * pass: the state is unchanged, so the loop reads the same entry again
   * (for as long as the cause of the exception persists).
   */
  lemma PoisonEntryRepeats(sys: Sys, token: string)
    requires sys.stream.pending != []
    requires Handle(sys.kv, sys.db, sys.stream.pending[0].order, token).0.Throws?
    ensures PendingStep(sys, HandlerFor(token)) == (Failed(sys.stream.pending[0].id), sys)
  {
    HandleThrowsChangesNothing(sys.kv, sys.db, sys.stream.pending[0].order, token);
  }

  /** `a` is what is left of `b` after dropping some of its first elements. */
  predicate IsSuffix(a: seq<Delivery>, b: seq<Delivery>) {
    |a| <= |b| && a == b[|b| - |a|..]
  }

  lemma SuffixTransitive(a: seq<Delivery>, b: seq<Delivery>, c: seq<Delivery>)
    requires IsSuffix(a, b) && IsSuffix(b, c)
    ensures IsSuffix(a, c)
  {
    assert b[|b| - |a|..] == c[|c| - |a|..];
  }

  /** One step of the pending pass leaves a suffix of the pending list. */
  lemma PendingStepShrinks(sys: Sys, handle: Handler)
    requires Valid(sys.stream)
    ensures var s := PendingStep(sys, handle).1;
            && Valid(s.stream) && s.stream.entries == sys.stream.entries
            && IsSuffix(s.stream.pending, sys.stream.pending)
  {
    PendingStepEffect(sys, handle);
    StepsKeepValid(sys, handle);
    var p := sys.stream.pending;
    if p != [] {
      assert p[1..] == p[|p| - |p[1..]|..];
    }
    assert p == p[|p| - |p|..];
  }

  /** The pending pass never adds to the pending list: what is left is a suffix of it. */
  lemma {:induction false} PendingRunShrinks(sys: Sys, handle: Handler, fuel: nat)
    requires Valid(sys.stream)
    ensures var r := PendingRun(sys, handle, fuel);
            && Valid(r.stream) && r.stream.entries == sys.stream.entries
            && IsSuffix(r.stream.pending, sys.stream.pending)
    decreases fuel, 0
  {
    var p := sys.stream.pending;
    if fuel == 0 {
      assert p == p[|p| - |p|..];
    } else {
      var step := PendingStep(sys, handle);
      PendingStepShrinks(sys, handle);
      ContinueShrinks(step, handle, fuel - 1);
      SuffixTransitive(PendingContinue(step, handle, fuel - 1).stream.pending, step.1.stream.pending, p);
    }
  }

  /** What is left after the rest of the pending pass is a suffix of the pending list after one step. */
  lemma {:induction false} ContinueShrinks(step: (StepOutcome, Sys), handle: Handler, fuel: nat)
    requires Valid(step.1.stream)
    ensures var r := PendingContinue(step, handle, fuel);
            && Valid(r.stream) && r.stream.entries == step.1.stream.entries
            && IsSuffix(r.stream.pending, step.1.stream.pending)
    decreases fuel, 1
  {
    if step.0.NoEntry? {
      var p := step.1.stream.pending;
      assert p == p[|p| - |p|..];
    } else {
      PendingRunShrinks(step.1, handle, fuel);
    }
  }

  /**
   * Crash recovery: a consumer that stopped after reading an entry and before
   * acknowledging it leaves it pending, and the pending pass then stores the
   * order exactly once and acknowledges it.
   */
  lemma CrashRecovery(sys: Sys, token: string)
    requires Valid(sys.stream) && sys.stream.pending == [] && sys.stream.delivered < |sys.stream.entries|
    requires var o := sys.stream.entries[sys.stream.delivered];
             && !sys.db.down && !HasOrder(sys.db.orders, o.userId, o.voucherId)
             && o.voucherId in sys.db.stock && sys.db.stock[o.voucherId] > 0 && o.id !in sys.db.orders
             && LockKey(OrderLockName(o.userId)) !in sys.kv
    ensures var crashed := sys.(stream := ReadNew(sys.stream).1);
            var o := sys.stream.entries[sys.stream.delivered];
            var (out, s) := PendingStep(crashed, HandlerFor(token));
            && crashed.stream.pending == [Delivery(sys.stream.delivered, o)]
            && out == Acked(sys.stream.delivered)
            && s.stream.pending == []
            && s.db.orders == sys.db.orders[o.id := OrderRow(o.userId, o.voucherId)]
            && s.kv == sys.kv
  {
    var crashed := sys.(stream := ReadNew(sys.stream).1);
    var o := sys.stream.entries[sys.stream.delivered];
    ReadNewEffect(sys.stream);
    assert crashed.stream.pending == [Delivery(sys.stream.delivered, o)];
    HandleRunsCreate(sys.kv, sys.db, o, token);
    CreateSaved(sys.db, o);
    PendingStepEffect(crashed, HandlerFor(token));
  }

  // ---------------------------------------------------------- setKillVoucher

  /** `Long.intValue()`: the low 32 bits, read as a signed `int`. */
  function IntValue(x: int): (r: int)
    ensures -TwoTo31 <= r < TwoTo31
    ensures -TwoTo31 <= x < TwoTo31 ==> r == x
  {
    var w := x % TwoTo32;
    if w < TwoTo31 then w else w - TwoTo32
  }

  /**
   * `setKillVoucher(voucherId)` for the user `userId` with the clock at
   * `nowEpochSecond` on the day `date`; `script` is the admission script's
   * answer for its arguments (voucher id, user id, order id, as strings).
   */
  function SetKillVoucher(kv: Kv, userId: int, voucherId: int, nowEpochSecond: int, date: string,
                          script: (string, string, string) -> Call<int>): (Call<Response<int>>, Kv) {
    var (orderId, kv1) := NextId(kv, OrderPrefix, nowEpochSecond, date);
    match orderId
    case Throws => (Throws, kv1)
    case Returns(id) =>
      match script(IntToString(voucherId), IntToString(userId), IntToString(id))
      case Throws => (Throws, kv1)
      case Returns(result) =>
        var r := IntValue(result);
        if r != 0 then (Returns(Fail(if r == 1 then OutOfStock else DuplicateOrder)), kv1)
        else (Returns(Ok(id)), kv1)
  }

  /**
   * Admission answers ok with the drawn order id exactly when the script's
   * code reads as 0, "库存不足" when it reads as 1, and "不能重复下单" for any
   * other code; the id is drawn (and the day's counter advanced) in every case.
   */
  lemma SetKillVoucherOutcome(kv: Kv, userId: int, voucherId: int, nowEpochSecond: int, date: string,
                              script: (string, string, string) -> Call<int>)
    ensures var (resp, kv') := SetKillVoucher(kv, userId, voucherId, nowEpochSecond, date, script);
            var (orderId, kv1) := NextId(kv, OrderPrefix, nowEpochSecond, date);
            && kv' == kv1
            && (orderId.Throws? ==> resp.Throws?)
            && (orderId.Returns? ==>
                  var code := script(IntToString(voucherId), IntToString(userId), IntToString(orderId.value));
                  && (code.Throws? <==> resp.Throws?)
                  && (code.Returns? ==>
                        && (resp == Returns(Ok(orderId.value)) <==> IntValue(code.value) == 0)
                        && (resp == Returns(Fail(OutOfStock)) <==> IntValue(code.value) == 1)
                        && (resp == Returns(Fail(DuplicateOrder)) <==> IntValue(code.value) !in {0, 1})))
  {
  }

  /** A rejected request still consumes an order id: the day's counter advances by one. */
  lemma RejectedRequestDrawsId(kv: Kv, userId: int, voucherId: int, nowEpochSecond: int, date: string,
                               script: (string, string, string) -> Call<int>)
    requires SetKillVoucher(kv, userId, voucherId, nowEpochSecond, date, script).0.Returns?
    ensures var kv' := SetKillVoucher(kv, userId, voucherId, nowEpochSecond, date, script).1;
            var key := CounterKey(OrderPrefix, date);
            CounterValue(kv, key).Some? && CounterValue(kv', key) == Some(CounterValue(kv, key).value + 1)
  {
    NextIdCounter(kv, OrderPrefix, nowEpochSecond, date);
  }

  /** The service, wired to the store, the order tables and the order stream. */
  class VoucherOrderServiceImpl {
    const store: RedisStore
    const tables: OrderTables
    const stream: OrderStreamLog
    const idWorker: RedisIdWorker
    /** The lock client's id in this process. */
    const clientId: string
    /** The thread of the single-thread order executor. */
    const consumerThread: int
    /** The owner token of the consumer thread's user locks. */
    const ownerToken: string

    predicate Wired() {
      idWorker.store == store && ownerToken == Token(clientId, consumerThread)
    }

    constructor (store: RedisStore, tables: OrderTables, stream: OrderStreamLog, clientId: string, consumerThread: int)
      ensures this.store == store && this.tables == tables && this.stream == stream
      ensures this.clientId == clientId && this.consumerThread == consumerThread && Wired()
      ensures ownerToken == Token(clientId, consumerThread)
    {
      this.store := store;
      this.tables := tables;
      this.stream := stream;
      this.clientId := clientId;
      this.consumerThread := consumerThread;
      this.ownerToken := Token(clientId, consumerThread);
      this.idWorker := new RedisIdWorker(store);
    }

    function SysState(): Sys
      reads store, tables, stream
    {
      Sys(store.data, tables.State(), stream.State())
    }

    /** `createVoucherOrder(voucherOrder)`. */
    method CreateVoucherOrder(o: VoucherOrder) returns (r: Call<CreateOutcome>)
      modifies tables
      ensures (r, tables.State()) == Create(old(tables.State()), o)
    {
      var tx := tables.State();
      var count := tables.CountOrders(o.userId, o.voucherId);
      if count.Throws? {
        r := Throws;
        return;
      }
      if count.value >= 1 {
        r := Returns(Duplicate);
        return;
      }
      var success := tables.DecrementStock(o.voucherId);
      if success.Throws? {
        r := Throws;
        return;
      }
      if !success.value {
        r := Returns(NoStock);
        return;
      }
      var saved := tables.Save(o);
      if saved.Throws? {
        tables.Rollback(tx);
        r := Throws;
        return;
      }
      r := Returns(Saved);
    }

    /** `handleVoucherOrder(voucherOrder)` on the consumer thread. */
    method HandleVoucherOrder(o: VoucherOrder) returns (r: Call<HandleOutcome>)
      requires Wired()
      modifies store, tables
      ensures (r, store.data, tables.State()) == Handle(old(store.data), old(tables.State()), o, ownerToken)
    {
      var lock := new SimpleRedisLock(OrderLockName(o.userId), store, clientId);
      var isLock := lock.TryLockAs(LockLease, consumerThread);
      if !isLock {
        r := Returns(LockBusy);
        return;
      }
      var created := CreateVoucherOrder(o);
      lock.UnlockAs(consumerThread);
      r := if created.Throws? then Throws else Returns(Handled(created.value));
    }

    /** One iteration of `run` before the recovery call. */
    method ConsumeNext() returns (out: StepOutcome)
      requires Wired()
      modifies store, tables, stream
      ensures (out, SysState()) == ConsumerStep(old(SysState()), HandlerFor(ownerToken))
    {
      var e := stream.ReadNext();
      if e.None? {
        out := NoEntry;
        return;
      }
      var h := HandleVoucherOrder(e.value.order);
      if h.Throws? {
        out := Failed(e.value.id);
        return;
      }
      stream.Acknowledge(e.value.id);
      out := Acked(e.value.id);
    }

    /** One iteration of `handlePendingList`. */
    method ConsumePending() returns (out: StepOutcome)
      requires Wired()
      modifies store, tables, stream
      ensures (out, SysState()) == PendingStep(old(SysState()), HandlerFor(ownerToken))
    {
      var e := stream.ReadOldestPending();
      if e.None? {
        out := NoEntry;
        return;
      }
      var h := HandleVoucherOrder(e.value.order);
      if h.Throws? {
        out := Failed(e.value.id);
        return;
      }
      stream.Acknowledge(e.value.id);
      out := Acked(e.value.id);
    }

    /** `handlePendingList()`, cut off after `fuel` iterations. */
    method HandlePendingList(fuel: nat)
      requires Wired()
      modifies store, tables, stream
      ensures SysState() == PendingRun(old(SysState()), HandlerFor(ownerToken), fuel)
    {
      var left := fuel;
      while left > 0
        invariant PendingRun(SysState(), HandlerFor(ownerToken), left) == PendingRun(old(SysState()), HandlerFor(ownerToken), fuel)
        decreases left
      {
        var out := ConsumePending();
        if out.NoEntry? {
          return;
        }
        left := left - 1;
      }
    }

    /** One iteration of `run`: on an exception, the pending pass (cut off after `fuel` iterations). */
    method RunOnce(fuel: nat) returns (out: StepOutcome)
      requires Wired()
      modifies store, tables, stream
      ensures var (o, s) := ConsumerStep(old(SysState()), HandlerFor(ownerToken));
              && out == o
              && SysState() == if o.Failed? then PendingRun(s, HandlerFor(ownerToken), fuel) else s
    {
      out := ConsumeNext();
      if out.Failed? {
        HandlePendingList(fuel);
      }
    }

    /** `setKillVoucher(voucherId)` for the user `userId` with the clock at `now`. */
    method SetKillVoucherAt(voucherId: int, userId: int, now: DateTime, script: (string, string, string) -> Call<int>)
      returns (r: Call<Response<int>>)
      requires ValidDateTime(now) && Wired()
      modifies store
      ensures (r, store.data) == SetKillVoucher(old(store.data), userId, voucherId, EpochSecond(now), DateKey(now), script)
    {
      var orderId := idWorker.NextIdAt(OrderPrefix, now);
      if orderId.Throws? {
        r := Throws;
        return;
      }
      var result := script(IntToString(voucherId), IntToString(userId), IntToString(orderId.value));
      if result.Throws? {
        r := Throws;
        return;
      }
      var code := IntValue(result.value);
      if code != 0 {
        r := Returns(Fail(if code == 1 then OutOfStock else DuplicateOrder));
        return;
      }
      r := Returns(Ok(orderId.value));
    }
  }
}
