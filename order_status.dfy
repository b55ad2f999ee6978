/** `updateOrderStatus` and `getOrderStatus` of
    src/services/orderStatusService.ts. */
module OrderStatus {
  import opened Wrappers
  import opened Orders

  const OrderNotFound := "Order not found"
  const StatusUpdated := "Order status updated successfully"

  /** `updateOrderStatus(orderId, status)` on the tables: any status string is
      accepted, with no check of the current one. */
  function UpdateStatus(t: Tables, orderId: nat, status: string): (r: (Result<string>, Tables))
    ensures orderId !in t.orders ==> r == (Err(OrderNotFound), t)
    ensures orderId in t.orders ==>
      r.0 == Ok(StatusUpdated) && r.1 == t.(orders := t.orders[orderId := t.orders[orderId].(status := Some(status))])
  {
    if orderId !in t.orders then (Err(OrderNotFound), t)
    else (Ok(StatusUpdated), t.(orders := t.orders[orderId := t.orders[orderId].(status := Some(status))]))
  }

  /** `getOrderStatus(orderId)`: the status, `None` while null. */
  function StatusOf(t: Tables, orderId: nat): (r: Result<Option<string>>)
    ensures r.Err? <==> orderId !in t.orders
    ensures r.Err? ==> r.error == OrderNotFound
  {
    if orderId in t.orders then Ok(t.orders[orderId].status) else Err(OrderNotFound)
  }

  /** Reading right after writing gives the written status, and every other
      order reads as before. */
  lemma UpdateThenRead(t: Tables, orderId: nat, status: string, other: nat)
    requires orderId in t.orders
    ensures StatusOf(UpdateStatus(t, orderId, status).1, orderId) == Ok(Some(status))
    ensures other != orderId ==> StatusOf(UpdateStatus(t, orderId, status).1, other) == StatusOf(t, other)
  {
  }

  /** A status update moves from any status to any other, including back to
      PENDING, which makes a decided order modifiable again. */
  lemma NoTransitionCheck(t: Tables, orderId: nat, s1: string, s2: string)
    requires orderId in t.orders
    ensures var t1 := UpdateStatus(t, orderId, s1).1;
      UpdateStatus(t1, orderId, s2).0.Ok? && StatusOf(UpdateStatus(t1, orderId, s2).1, orderId) == Ok(Some(s2))
  {
  }

  method UpdateOrderStatus(db: OrderDb, orderId: nat, status: string) returns (r: Result<string>)
    requires db.Valid()
    modifies db
    ensures db.Valid()
    ensures (r, db.Contents()) == UpdateStatus(old(db.Contents()), orderId, status)
  {
    if orderId !in db.orders {
      return Err(OrderNotFound);
    }
    var order := db.orders[orderId];
    db.SetOrder(orderId, order.(status := Some(status)));
    return Ok(StatusUpdated);
  }

  method GetOrderStatus(db: OrderDb, orderId: nat) returns (r: Result<Option<string>>)
    ensures r.Err? <==> orderId !in db.orders
    ensures r.Ok? ==> r.value == db.orders[orderId].status
    ensures r.Err? ==> r.error == OrderNotFound
  {
    if orderId !in db.orders {
      return Err(OrderNotFound);
    }
    return Ok(db.orders[orderId].status);
  }

  /** Set a status, then read it back. */
  method SetAndRead(db: OrderDb, orderId: nat, status: string) returns (read: Result<Option<string>>)
    requires db.Valid() && orderId in db.orders
    modifies db
    ensures read == Ok(Some(status))
    ensures forall id | id in old(db.orders) && id != orderId :: id in db.orders && db.orders[id] == old(db.orders)[id]
  {
    var _ := UpdateOrderStatus(db, orderId, status);
    read := GetOrderStatus(db, orderId);
  }
}
