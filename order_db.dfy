/**
 * The two tables the order path writes: `tb_seckill_voucher.stock` per voucher
 * and `tb_voucher_order` rows by order id. A database that is down makes every
 * call throw.
 */
module OrderDb {
  import opened Base
  import opened OrderStream

  datatype OrderRow = OrderRow(userId: int, voucherId: int)

  datatype Tables = Tables(stock: map<int, int>, orders: map<int, OrderRow>, down: bool)

  /** The ids of the orders placed for one voucher. */
  function OrderIdsFor(orders: map<int, OrderRow>, voucherId: int): set<int> {
    set id | id in orders && orders[id].voucherId == voucherId
  }

  /** The ids of one user's orders for one voucher: what the duplicate query counts. */
  function OrderIdsOf(orders: map<int, OrderRow>, userId: int, voucherId: int): set<int> {
    set id | id in orders && orders[id] == OrderRow(userId, voucherId)
  }

  /** The user already holds an order for the voucher. */
  predicate HasOrder(orders: map<int, OrderRow>, userId: int, voucherId: int) {
    exists id :: id in orders && orders[id] == OrderRow(userId, voucherId)
  }

  /** The count is at least one exactly when the user already has an order for the voucher. */
  lemma CountDetectsOrder(orders: map<int, OrderRow>, userId: int, voucherId: int)
    ensures |OrderIdsOf(orders, userId, voucherId)| >= 1 <==> HasOrder(orders, userId, voucherId)
  {
    var ids := OrderIdsOf(orders, userId, voucherId);
    if HasOrder(orders, userId, voucherId) {
      var id :| id in orders && orders[id] == OrderRow(userId, voucherId);
      assert {id} <= ids;
      assert |{id}| <= |ids|;
    } else {
      assert forall k :: k !in ids;
      assert ids == {};
    }
  }

  class OrderTables {
    var stock: map<int, int>
    var orders: map<int, OrderRow>
    var down: bool

    constructor (stock: map<int, int>)
      ensures State() == Tables(stock, map[], false)
    {
      this.stock := stock;
      orders := map[];
      down := false;
    }

    function State(): Tables
      reads this
    {
      Tables(stock, orders, down)
    }

    /** `query().eq("user_id", ..).eq("voucher_id", ..).count()`. */
    method CountOrders(userId: int, voucherId: int) returns (r: Call<nat>)
      ensures r == if down then Throws else Returns(|OrderIdsOf(orders, userId, voucherId)|)
      ensures r.Returns? ==> (r.value >= 1 <==> HasOrder(orders, userId, voucherId))
    {
      CountDetectsOrder(orders, userId, voucherId);
      if down {
        r := Throws;
      } else {
        r := Returns(|OrderIdsOf(orders, userId, voucherId)|);
      }
    }

    /** `update().setSql("stock = stock - 1").eq("voucher_id", ..).gt("stock", 0)`. */
    method DecrementStock(voucherId: int) returns (r: Call<bool>)
      modifies this
      ensures old(down) ==> r == Throws && State() == old(State())
      ensures !old(down) ==> r == Returns(voucherId in old(stock) && old(stock)[voucherId] > 0)
      ensures r == Returns(true) ==> State() == old(State()).(stock := old(stock)[voucherId := old(stock)[voucherId] - 1])
      ensures r != Returns(true) ==> State() == old(State())
    {
      if down {
        r := Throws;
      } else if voucherId in stock && stock[voucherId] > 0 {
        stock := stock[voucherId := stock[voucherId] - 1];
        r := Returns(true);
      } else {
        r := Returns(false);
      }
    }

    /** `save(voucherOrder)`: an insert; a taken primary key throws. */
    method Save(order: VoucherOrder) returns (r: Call<()>)
      modifies this
      ensures r.Returns? <==> !old(down) && order.id !in old(orders)
      ensures State() == if r.Returns? then old(State()).(orders := old(orders)[order.id := OrderRow(order.userId, order.voucherId)]) else old(State())
    {
      if down || order.id in orders {
        r := Throws;
      } else {
        orders := orders[order.id := OrderRow(order.userId, order.voucherId)];
        r := Returns(());
      }
    }

    /** Transaction rollback: both tables return to their contents at the start of the transaction. */
    method Rollback(saved: Tables)
      modifies this
      ensures State() == old(State()).(stock := saved.stock, orders := saved.orders)
    {
      stock := saved.stock;
      orders := saved.orders;
    }
  }
}
