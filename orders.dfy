/** The order, order-item and audit-log tables the order services read and
    write, as in-memory state. */
module Orders {
  import opened Wrappers

  /** An order row. Amounts are kept as the decimal text the message carried;
      `status` and `rejectionReason` are `None` while null. */
  datatype Order = Order(
    buyerCookie: string,
    totalAmount: string,
    discountAmount: string,
    taxAmount: string,
    currency: string,
    status: Option<string>,
    rejectionReason: Option<string>)

  /** An order-item row; `itemType` is `None` while null. */
  datatype OrderItem = OrderItem(orderId: nat, itemId: string, quantity: int, unitPrice: string,
                                 itemType: Option<string>)

  datatype AuditEntry = AuditEntry(eventType: string, description: string)

  /** The contents of the tables; `nextId` is the id the next inserted order
      gets. */
  datatype Tables = Tables(orders: map<nat, Order>, items: seq<OrderItem>, auditLog: seq<AuditEntry>,
                           nextId: nat)

  /** The error the store raises for a second order with the same buyer cookie. */
  const UniqueViolation := "UNIQUE constraint failed: orders.buyer_cookie"

  /** `buyer_cookie` is unique on orders, and ids are handed out upwards. */
  ghost predicate WellFormed(t: Tables) {
    && (forall a, b | a in t.orders && b in t.orders && t.orders[a].buyerCookie == t.orders[b].buyerCookie :: a == b)
    && (forall id | id in t.orders :: id < t.nextId)
  }

  predicate HasCookie(orders: map<nat, Order>, cookie: string) {
    exists id | id in orders :: orders[id].buyerCookie == cookie
  }

  /** Inserting an order header: refused when its cookie is taken, otherwise
      stored under a fresh id. */
  function InsertOrder(t: Tables, o: Order): (r: (Result<nat>, Tables))
    ensures r.0.Err? <==> HasCookie(t.orders, o.buyerCookie)
    ensures r.0.Err? ==> r.0.error == UniqueViolation && r.1 == t
    ensures r.0.Ok? ==> r.1.orders == t.orders[r.0.value := o] && r.1.nextId > r.0.value
    ensures r.0.Ok? && WellFormed(t) ==> r.0.value !in t.orders
    ensures r.1.items == t.items && r.1.auditLog == t.auditLog
  {
    if HasCookie(t.orders, o.buyerCookie) then (Err(UniqueViolation), t)
    else (Ok(t.nextId), t.(orders := t.orders[t.nextId := o], nextId := t.nextId + 1))
  }

  /** The store keeps its invariant through every insert. */
  lemma InsertKeepsWellFormed(t: Tables, o: Order)
    requires WellFormed(t)
    ensures WellFormed(InsertOrder(t, o).1)
    ensures InsertOrder(t, o).0.Ok? <==> !HasCookie(t.orders, o.buyerCookie)
  {
  }

  /** The tables, as mutable state. */
  class OrderDb {
    var orders: map<nat, Order>
    var items: seq<OrderItem>
    var auditLog: seq<AuditEntry>
    var nextId: nat

    function Contents(): Tables
      reads this
    {
      Tables(orders, items, auditLog, nextId)
    }

    ghost predicate Valid()
      reads this
    {
      WellFormed(Contents())
    }

    constructor ()
      ensures Valid() && Contents() == Tables(map[], [], [], 0)
    {
      orders := map[];
      items := [];
      auditLog := [];
      nextId := 0;
    }

    method Insert(o: Order) returns (r: Result<nat>)
      requires Valid()
      modifies this
      ensures Valid()
      ensures (r, Contents()) == InsertOrder(old(Contents()), o)
    {
      InsertKeepsWellFormed(Contents(), o);
      if HasCookie(orders, o.buyerCookie) {
        return Err(UniqueViolation);
      }
      r := Ok(nextId);
      orders := orders[nextId := o];
      nextId := nextId + 1;
    }

    method InsertItems(rows: seq<OrderItem>)
      requires Valid()
      modifies this
      ensures Valid()
      ensures Contents() == old(Contents()).(items := old(items) + rows)
    {
      items := items + rows;
    }

    /** `logEvent(eventType, description)`. */
    method LogEvent(eventType: string, description: string)
      requires Valid()
      modifies this
      ensures Valid()
      ensures Contents() == old(Contents()).(auditLog := old(auditLog) + [AuditEntry(eventType, description)])
    {
      auditLog := auditLog + [AuditEntry(eventType, description)];
    }

    method SetOrder(id: nat, o: Order)
      requires Valid() && id in orders && o.buyerCookie == orders[id].buyerCookie
      modifies this
      ensures Valid()
      ensures Contents() == old(Contents()).(orders := old(orders)[id := o])
    {
      orders := orders[id := o];
    }

    method SetItems(rows: seq<OrderItem>)
      requires Valid()
      modifies this
      ensures Valid()
      ensures Contents() == old(Contents()).(items := rows)
    {
      items := rows;
    }
  }
}
