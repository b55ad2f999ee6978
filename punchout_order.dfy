/** The order-intake pipeline of src/services/punchoutOrderService.ts:
    validate, lock the buyer cookie, store the order header, batch-insert the
    items through `retry`, publish, log, release the lock. */
module PunchoutOrder {
  import opened Wrappers
  import opened Text
  import opened Cxml
  import opened Orders
  import Lock
  import Retry

  const ErrorPrefix := "Error processing PunchOutOrderMessage: "
  const InvalidMessagePrefix := "Invalid PunchOutOrderMessage: "
  const AlreadyProcessing := "Order is already being processed for this buyer"
  const ItemsErrorPrefix := "Error inserting order items: "
  const LockPrefix := "lock:buyer:"
  const LockTimeout := 5000
  const BatchRetries := 3
  const BatchDelay := 1000
  const OrderPlaced := "OrderPlaced"

  /** The acknowledgement document, with the template's own line breaks and
      indentation. */
  const OrderAck := "\n      <cXML>\n        <Response>\n          <Status code=\"200\" text=\"Order Processed Successfully\"/>\n        </Response>\n      </cXML>\n    "

  /** How the calls to services outside the model settle: the currency
      conversion, the batch insert of the items, the order-placed publish and
      the audit-log insert; `Some(message)` is the error each throws. */
  datatype Effects = Effects(
    conversionError: Option<string>,
    batchError: Option<string>,
    publishError: Option<string>,
    auditError: Option<string>)

  /** The observable steps, in the order they happen. */
  datatype Event =
    | LockTaken(key: string)
    | OrderInserted(orderId: nat)
    | ItemsInserted(orderId: nat, count: nat)
    | OrderPublished(orderId: nat)
    | AuditLogged(eventType: string)
    | LockReleased(key: string)

  /** `{ success: true, responseXml }` or `{ success: false, error }`. */
  datatype Outcome = Processed(responseXml: string) | Failed(error: string)

  /** The outcome and the new state: tables, held lock keys, steps taken. */
  datatype Intake = Intake(outcome: Outcome, tables: Tables, held: set<string>, events: seq<Event>)

  function LockKey(buyerCookie: string): string {
    LockPrefix + buyerCookie
  }

  /** The order header row; an absent discount or tax is stored as zero. */
  function HeaderRow(m: PunchOutOrderMessage): (o: Order)
    ensures o.buyerCookie == m.buyerCookie
    ensures o.totalAmount == m.header.total.value && o.currency == m.header.total.currency
    ensures o.discountAmount == (if m.header.discount.Some? then m.header.discount.value.value else "0")
    ensures o.taxAmount == (if m.header.tax.Some? then m.header.tax.value.value else "0")
    ensures o.status.None? && o.rejectionReason.None?
  {
    Order(
      m.buyerCookie,
      m.header.total.value,
      if m.header.discount.Some? then m.header.discount.value.value else "0",
      if m.header.tax.Some? then m.header.tax.value.value else "0",
      m.header.total.currency,
      None,
      None)
  }

  function ItemRow(item: ItemIn, orderId: nat): OrderItem {
    OrderItem(orderId, item.itemId, item.quantity, item.unitPrice.value,
              Some(if item.itemType.Some? then ItemTypeName(item.itemType.value) else "physical"))
  }

  /** The rows `insertOrderItemsInBatch` builds: one per item, in order, all
      with the same order id, the item type defaulting to "physical". */
  function BatchRows(items: seq<ItemIn>, orderId: nat): (rows: seq<OrderItem>)
    ensures |rows| == |items|
    ensures forall i | 0 <= i < |rows| :: rows[i].orderId == orderId && rows[i].itemId == items[i].itemId
    ensures forall i | 0 <= i < |rows| :: rows[i].itemType == Some("physical") <==>
      (items[i].itemType.None? || items[i].itemType == Some(Physical))
    ensures forall i | 0 <= i < |rows| ::
      rows[i].quantity == items[i].quantity && rows[i].unitPrice == items[i].unitPrice.value
    ensures forall i | 0 <= i < |rows| ::
      items[i].itemType.Some? ==> rows[i].itemType == Some(ItemTypeName(items[i].itemType.value))
    ensures forall i | 0 <= i < |rows| :: items[i].itemType.None? ==> rows[i].itemType == Some("physical")
    decreases |items|
  {
    if items == [] then [] else [ItemRow(items[0], orderId)] + BatchRows(items[1..], orderId)
  }

  /** `insertOrderItemsInBatch` resolves to `{ success: true }` or to
      `{ success: false, error }`; it never throws. */
  datatype BatchResult = BatchOk | BatchFailed(error: string)

  function InsertOrderItemsInBatch(t: Tables, items: seq<ItemIn>, orderId: nat, batchError: Option<string>)
    : (r: (BatchResult, Tables))
    ensures r.0.BatchOk? <==> batchError.None?
    ensures r.0.BatchOk? ==> r.1 == t.(items := t.items + BatchRows(items, orderId))
    ensures r.0.BatchFailed? ==> r.0.error == batchError.value && r.1 == t
  {
    if batchError.Some? then (BatchFailed(batchError.value), t)
    else (BatchOk, t.(items := t.items + BatchRows(items, orderId)))
  }

  /** Because the batch call never throws, `retry` around it makes exactly
      one call, waits nothing, and returns the batch result. */
  lemma BatchRetriedOnce(b: BatchResult)
    ensures Retry.RetryRun((_: nat) => Retry.Success(b), 0, BatchRetries, BatchDelay)
      == Retry.Run(Retry.Returned(b), 1, [])
  {
    Retry.NeverThrowsCalledOnce((_: nat) => Retry.Success(b), 0, BatchRetries, BatchDelay);
  }

  /** `handlePunchOutOrderMessage` on the tables and the held lock keys. */
  function HandleOrder(t: Tables, held: set<string>, input: Checked<PunchOutOrderMessage>, fx: Effects): Intake
  {
    match input
    case ParseError(m) => Intake(Failed(ErrorPrefix + m), t, held, [])
    case SchemaError(m) => Intake(Failed(ErrorPrefix + InvalidMessagePrefix + m), t, held, [])
    case Valid(msg) =>
      var key := LockKey(msg.buyerCookie);
      if key in held then Intake(Failed(ErrorPrefix + AlreadyProcessing), t, held, [])
      else
        var locked := held + {key};
        var ev0 := [LockTaken(key)];
        if fx.conversionError.Some? then Intake(Failed(ErrorPrefix + fx.conversionError.value), t, locked, ev0)
        else
          var (inserted, t1) := InsertOrder(t, HeaderRow(msg));
          if inserted.Err? then Intake(Failed(ErrorPrefix + inserted.error), t, locked, ev0)
          else
            var id := inserted.value;
            var ev1 := ev0 + [OrderInserted(id)];
            var (batch, t2) := InsertOrderItemsInBatch(t1, msg.items, id, fx.batchError);
            if batch.BatchFailed? then Intake(Failed(ErrorPrefix + ItemsErrorPrefix + batch.error), t1, locked, ev1)
            else
              var ev2 := ev1 + [ItemsInserted(id, |msg.items|)];
              if fx.publishError.Some? then Intake(Failed(ErrorPrefix + fx.publishError.value), t2, locked, ev2)
              else
                var ev3 := ev2 + [OrderPublished(id)];
                if fx.auditError.Some? then Intake(Failed(ErrorPrefix + fx.auditError.value), t2, locked, ev3)
                else
                  var t3 := t2.(auditLog := t2.auditLog + [AuditEntry(OrderPlaced, PlacedDescription(id))]);
                  Intake(Processed(OrderAck), t3, locked - {key}, ev3 + [AuditLogged(OrderPlaced), LockReleased(key)])
  }

  function PlacedDescription(orderId: nat): string {
    "Order placed with ID " + NatToString(orderId)
  }

  // ---------------------------------------------------------------------
  // Properties of the pipeline

  /** An invalid document is refused before the lock: nothing is stored,
      locked or done. */
  lemma InvalidTouchesNothing(t: Tables, held: set<string>, input: Checked<PunchOutOrderMessage>, fx: Effects)
    requires !input.Valid?
    ensures var r := HandleOrder(t, held, input, fx);
      r.tables == t && r.held == held && r.events == [] && r.outcome.Failed?
    ensures input.SchemaError? ==>
      HandleOrder(t, held, input, fx).outcome.error == ErrorPrefix + InvalidMessagePrefix + input.message
  {
  }

  /** While the buyer's lock is held, a message for that buyer is refused and
      nothing is stored. */
  lemma LockedBuyerRefused(t: Tables, held: set<string>, msg: PunchOutOrderMessage, fx: Effects)
    requires LockKey(msg.buyerCookie) in held
    ensures HandleOrder(t, held, Valid(msg), fx) == Intake(Failed(ErrorPrefix + AlreadyProcessing), t, held, [])
  {
  }

  /** The success path, in order: lock, header, items, publish, audit,
      release. One order with the message's header is stored under a fresh
      id, followed by one item row per item, the lock is free again, and the
      acknowledgement is returned. */
  lemma SuccessPath(t: Tables, held: set<string>, msg: PunchOutOrderMessage, fx: Effects)
    requires WellFormed(t)
    requires HandleOrder(t, held, Valid(msg), fx).outcome.Processed?
    ensures var r := HandleOrder(t, held, Valid(msg), fx);
      var key := LockKey(msg.buyerCookie);
      var id := t.nextId;
      && key !in held && r.held == held
      && r.outcome.responseXml == OrderAck
      && r.events == [LockTaken(key), OrderInserted(id), ItemsInserted(id, |msg.items|), OrderPublished(id),
                      AuditLogged(OrderPlaced), LockReleased(key)]
      && id !in t.orders && r.tables.orders == t.orders[id := HeaderRow(msg)]
      && r.tables.items == t.items + BatchRows(msg.items, id)
      && r.tables.auditLog == t.auditLog + [AuditEntry(OrderPlaced, PlacedDescription(id))]
  {
  }

  /** The catch block does not release: a failure after the lock was taken
      leaves the buyer's key held. */
  lemma FailureKeepsLock(t: Tables, held: set<string>, msg: PunchOutOrderMessage, fx: Effects)
    requires LockKey(msg.buyerCookie) !in held
    requires HandleOrder(t, held, Valid(msg), fx).outcome.Failed?
    ensures HandleOrder(t, held, Valid(msg), fx).held == held + {LockKey(msg.buyerCookie)}
    ensures HandleOrder(t, held, Valid(msg), fx).events[0] == LockTaken(LockKey(msg.buyerCookie))
  {
  }

  /** Whatever happens, the store keeps at most one order per buyer cookie. */
  lemma KeepsCookiesUnique(t: Tables, held: set<string>, input: Checked<PunchOutOrderMessage>, fx: Effects)
    requires WellFormed(t)
    ensures WellFormed(HandleOrder(t, held, input, fx).tables)
  {
    if input.Valid? {
      InsertKeepsWellFormed(t, HeaderRow(input.document));
    }
  }

  /** A second submission of an order that went through fails, stores
      nothing, and leaves the lock held, so that every later submission for
      that buyer is refused as already being processed. */
  lemma ResubmissionFails(t: Tables, held: set<string>, msg: PunchOutOrderMessage, fx: Effects,
                          again: PunchOutOrderMessage, fx2: Effects, fx3: Effects)
    requires WellFormed(t)
    requires HandleOrder(t, held, Valid(msg), fx).outcome.Processed?
    requires again.buyerCookie == msg.buyerCookie
    ensures var first := HandleOrder(t, held, Valid(msg), fx);
      var second := HandleOrder(first.tables, first.held, Valid(again), fx2);
      && second.outcome.Failed?
      && second.tables.orders == first.tables.orders && second.tables.items == first.tables.items
      && LockKey(msg.buyerCookie) in second.held
      && HandleOrder(second.tables, second.held, Valid(again), fx3).outcome == Failed(ErrorPrefix + AlreadyProcessing)
  {
    var first := HandleOrder(t, held, Valid(msg), fx);
    SuccessPath(t, held, msg, fx);
    assert first.tables.orders[t.nextId].buyerCookie == again.buyerCookie;
    assert HasCookie(first.tables.orders, HeaderRow(again).buyerCookie);
  }

  // ---------------------------------------------------------------------
  // The pipeline as a sequence of calls

  /** `handlePunchOutOrderMessage(xmlString)`, where `input` is what parsing
      and validating `xmlString` gave; `events` records the steps. */
  method HandlePunchOutOrderMessage(db: OrderDb, locks: Lock.LockStore, input: Checked<PunchOutOrderMessage>,
                                    fx: Effects)
    returns (outcome: Outcome, ghost events: seq<Event>)
    requires db.Valid()
    modifies db, locks
    ensures db.Valid()
    ensures Intake(outcome, db.Contents(), locks.held, events)
         == HandleOrder(old(db.Contents()), old(locks.held), input, fx)
  {
    events := [];
    if input.ParseError? {
      return Failed(ErrorPrefix + input.message), events;
    }
    if input.SchemaError? {
      return Failed(ErrorPrefix + InvalidMessagePrefix + input.message), events;
    }
    var msg := input.document;
    var key := LockKey(msg.buyerCookie);
    var acquired := locks.AcquireLock(key, LockTimeout);
    if !acquired {
      return Failed(ErrorPrefix + AlreadyProcessing), events;
    }
    events := events + [LockTaken(key)];
    if fx.conversionError.Some? {
      return Failed(ErrorPrefix + fx.conversionError.value), events;
    }
    var inserted := db.Insert(HeaderRow(msg));
    if inserted.Err? {
      return Failed(ErrorPrefix + inserted.error), events;
    }
    var orderId := inserted.value;
    events := events + [OrderInserted(orderId)];
    outcome, events := PlaceItems(db, locks, msg, orderId, fx, events);
  }

  /** From the batch insert on, once the header is stored as `orderId`. */
  method PlaceItems(db: OrderDb, locks: Lock.LockStore, msg: PunchOutOrderMessage, orderId: nat, fx: Effects,
                    ghost before: seq<Event>)
    returns (outcome: Outcome, ghost events: seq<Event>)
    requires db.Valid()
    modifies db, locks
    ensures db.Valid()
    ensures var key := LockKey(msg.buyerCookie);
      var (batch, t2) := InsertOrderItemsInBatch(old(db.Contents()), msg.items, orderId, fx.batchError);
      var ev2 := before + [ItemsInserted(orderId, |msg.items|)];
      var ev3 := ev2 + [OrderPublished(orderId)];
      Intake(outcome, db.Contents(), locks.held, events) ==
        if batch.BatchFailed? then
          Intake(Failed(ErrorPrefix + ItemsErrorPrefix + batch.error), old(db.Contents()), old(locks.held), before)
        else if fx.publishError.Some? then
          Intake(Failed(ErrorPrefix + fx.publishError.value), t2, old(locks.held), ev2)
        else if fx.auditError.Some? then
          Intake(Failed(ErrorPrefix + fx.auditError.value), t2, old(locks.held), ev3)
        else
          Intake(Processed(OrderAck),
                 t2.(auditLog := t2.auditLog + [AuditEntry(OrderPlaced, PlacedDescription(orderId))]),
                 old(locks.held) - {key}, ev3 + [AuditLogged(OrderPlaced), LockReleased(key)])
  {
    events := before;
    var batch := BatchOk;
    if fx.batchError.Some? {
      batch := BatchFailed(fx.batchError.value);
    } else {
      db.InsertItems(BatchRows(msg.items, orderId));
    }
    // The batch insert resolves to its result and never throws, so the
    // `retry` wrapped around it calls it once and waits nothing
    // (BatchRetriedOnce): the single insert above is the whole retried step.
    if batch.BatchFailed? {
      return Failed(ErrorPrefix + ItemsErrorPrefix + batch.error), events;
    }
    events := events + [ItemsInserted(orderId, |msg.items|)];
    if fx.publishError.Some? {
      return Failed(ErrorPrefix + fx.publishError.value), events;
    }
    events := events + [OrderPublished(orderId)];
    if fx.auditError.Some? {
      return Failed(ErrorPrefix + fx.auditError.value), events;
    }
    db.LogEvent(OrderPlaced, PlacedDescription(orderId));
    var key := LockKey(msg.buyerCookie);
    locks.ReleaseLock(key);
    events := events + [AuditLogged(OrderPlaced), LockReleased(key)];
    outcome := Processed(OrderAck);
  }
}
