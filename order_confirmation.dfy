/** `confirmOrder(orderId, status, reason)` of
    src/services/orderConfirmationService.ts: the supplier confirms or
    rejects a PENDING order, and the decision is logged. */
module OrderConfirmation {
  import opened Wrappers
  import opened Orders
  import opened Text

  datatype Decision = Confirmed | Rejected

  function StatusText(d: Decision): string {
    match d
    case Confirmed => "confirmed"
    case Rejected => "rejected"
  }

  function EventType(d: Decision): string {
    match d
    case Confirmed => "OrderConfirmed"
    case Rejected => "OrderRejected"
  }

  const OrderNotFound := "Order not found"
  const CannotModify := "Order cannot be modified"
  const Pending := "PENDING"

  /** The audit description `Order <id> <status>`. */
  function Description(orderId: nat, d: Decision): string {
    "Order " + (NatToString(orderId) + " " + StatusText(d))
  }

  /** `confirmOrder` on the tables. `auditError` is the error `logEvent`
      throws, if it does; the status update is then already written. */
  function Confirm(t: Tables, orderId: nat, d: Decision, reason: Option<string>, auditError: Option<string>)
    : (r: (Result<string>, Tables))
    ensures orderId !in t.orders ==> r == (Err(OrderNotFound), t)
    ensures orderId in t.orders && t.orders[orderId].status != Some(Pending) ==> r == (Err(CannotModify), t)
    ensures r.0.Ok? ==> r.0.value == "Order " + StatusText(d) + " successfully"
    ensures r.0.Ok? ==> r.1.auditLog == t.auditLog + [AuditEntry(EventType(d), Description(orderId, d))]
    ensures r.1 != t ==>
      && orderId in t.orders && t.orders[orderId].status == Some(Pending)
      && r.1.orders == t.orders[orderId := t.orders[orderId].(
           status := Some(StatusText(d)),
           rejectionReason := if d == Rejected then reason else None)]
      && r.1.items == t.items && r.1.nextId == t.nextId
    ensures orderId in t.orders && t.orders[orderId].status == Some(Pending) ==>
      && r.1 != t
      && (r.0.Ok? <==> auditError.None?)
      && (auditError.Some? ==> r.0 == Err(auditError.value) && r.1.auditLog == t.auditLog)
  {
    if orderId !in t.orders then (Err(OrderNotFound), t)
    else
      var o := t.orders[orderId];
      if o.status != Some(Pending) then (Err(CannotModify), t)
      else
        var o' := o.(status := Some(StatusText(d)), rejectionReason := if d == Rejected then reason else None);
        var t' := t.(orders := t.orders[orderId := o']);
        assert StatusText(d)[0] != 'P' && t'.orders[orderId] != o;
        if auditError.Some? then (Err(auditError.value), t')
        else (Ok("Order " + StatusText(d) + " successfully"),
              t'.(auditLog := t.auditLog + [AuditEntry(EventType(d), Description(orderId, d))]))
  }

  /** A decided order stays decided: a second confirmation of it fails with
      "Order cannot be modified" and changes nothing. */
  lemma SecondConfirmFails(t: Tables, orderId: nat, d: Decision, reason: Option<string>, audit: Option<string>,
                           d2: Decision, reason2: Option<string>, audit2: Option<string>)
    requires Confirm(t, orderId, d, reason, audit).1 != t
    ensures var t1 := Confirm(t, orderId, d, reason, audit).1;
      Confirm(t1, orderId, d2, reason2, audit2) == (Err(CannotModify), t1)
  {
    var t1 := Confirm(t, orderId, d, reason, audit).1;
    assert t1.orders[orderId].status == Some(StatusText(d));
    assert StatusText(d)[0] != 'P';
  }

  /** The audit descriptions of different orders differ. */
  lemma DescriptionsIdentifyOrders(a: nat, b: nat, d: Decision, e: Decision)
    requires Description(a, d) == Description(b, e)
    ensures a == b
  {
    var ta := NatToString(a) + " " + StatusText(d);
    var tb := NatToString(b) + " " + StatusText(e);
    assert ta == Description(a, d)[6..];
    assert tb == Description(b, e)[6..];
    DigitsBeforeSpace(NatToString(a), NatToString(b), StatusText(d), StatusText(e));
    NatToStringInjective(a, b);
  }

  /** A run of digits ends at the first space after it. */
  lemma DigitsBeforeSpace(x: string, y: string, s: string, t: string)
    requires forall i | 0 <= i < |x| :: '0' <= x[i] <= '9'
    requires forall i | 0 <= i < |y| :: '0' <= y[i] <= '9'
    requires x + " " + s == y + " " + t
    ensures x == y
  {
    var u := x + " " + s;
    assert u[|x|] == ' ' && u[|y|] == ' ';
    assert forall i | 0 <= i < |y| :: u[i] == y[i];
    assert forall i | 0 <= i < |x| :: u[i] == x[i];
    assert |x| == |y|;
    assert x == u[..|x|] && y == u[..|y|];
  }

  /** `confirmOrder(orderId, status, reason)`. */
  method ConfirmOrder(db: OrderDb, orderId: nat, d: Decision, reason: Option<string>, auditError: Option<string>)
    returns (r: Result<string>)
    requires db.Valid()
    modifies db
    ensures db.Valid()
    ensures (r, db.Contents()) == Confirm(old(db.Contents()), orderId, d, reason, auditError)
  {
    if orderId !in db.orders {
      return Err(OrderNotFound);
    }
    var order := db.orders[orderId];
    if order.status != Some(Pending) {
      return Err(CannotModify);
    }
    db.SetOrder(orderId, order.(status := Some(StatusText(d)),
                                rejectionReason := if d == Rejected then reason else None));
    if auditError.Some? {
      return Err(auditError.value);
    }
    db.LogEvent(EventType(d), Description(orderId, d));
    return Ok("Order " + StatusText(d) + " successfully");
  }

  /** Confirming a PENDING order twice: the first call succeeds and logs one
      event, the second fails and logs nothing. */
  method ConfirmTwice(db: OrderDb, orderId: nat) returns (first: Result<string>, second: Result<string>)
    requires db.Valid() && orderId in db.orders && db.orders[orderId].status == Some(Pending)
    modifies db
    ensures first == Ok("Order confirmed successfully")
    ensures second == Err(CannotModify)
    ensures db.auditLog == old(db.auditLog) + [AuditEntry("OrderConfirmed", Description(orderId, Confirmed))]
  {
    ghost var t := db.Contents();
    first := ConfirmOrder(db, orderId, Confirmed, None, None);
    assert db.Contents() != t by {
      assert db.orders[orderId].status == Some("confirmed");
    }
    SecondConfirmFails(t, orderId, Confirmed, None, None, Confirmed, None, None);
    second := ConfirmOrder(db, orderId, Confirmed, None, None);
    assert "Order " + "confirmed" + " successfully" == "Order confirmed successfully";
  }
}
