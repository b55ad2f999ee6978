/** How the order services fit together: the intake pipeline stores a new
    order with a null status, and confirmation and modification act only on
    orders whose status is PENDING. */
module OrderLifecycle {
  import opened Wrappers
  import opened Cxml
  import opened Orders
  import PunchoutOrder
  import OrderStatus
  import OrderConfirmation
  import OrderModification

  /** An order just placed by the intake pipeline can be neither confirmed
      nor modified: its status is null, not PENDING. Only after its status
      is set to PENDING does a confirmation go through. */
  lemma PlacedOrderNeedsPending(t: Tables, held: set<string>, msg: PunchOutOrderMessage,
                                fx: PunchoutOrder.Effects, d: OrderConfirmation.Decision, reason: Option<string>,
                                mods: seq<OrderModification.Modification>)
    requires WellFormed(t)
    requires PunchoutOrder.HandleOrder(t, held, Valid(msg), fx).outcome.Processed?
    ensures var placed := PunchoutOrder.HandleOrder(t, held, Valid(msg), fx).tables;
      && OrderConfirmation.Confirm(placed, t.nextId, d, reason, None) == (Err(OrderConfirmation.CannotModify), placed)
      && OrderModification.Modify(placed, t.nextId, mods) == (Err(OrderModification.CannotModify), placed)
    ensures var placed := PunchoutOrder.HandleOrder(t, held, Valid(msg), fx).tables;
      var pending := OrderStatus.UpdateStatus(placed, t.nextId, OrderConfirmation.Pending).1;
      OrderConfirmation.Confirm(pending, t.nextId, d, reason, None).0 ==
        Ok("Order " + OrderConfirmation.StatusText(d) + " successfully")
  {
    PunchoutOrder.SuccessPath(t, held, msg, fx);
    var placed := PunchoutOrder.HandleOrder(t, held, Valid(msg), fx).tables;
    assert placed.orders[t.nextId] == PunchoutOrder.HeaderRow(msg);
  }
}
