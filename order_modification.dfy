/** `modifyOrder(orderId, modifications)` of
    src/services/orderModificationService.ts: on a PENDING order, apply
    update / remove / add modifications to its items one after another. */
module OrderModification {
  import opened Wrappers
  import opened Orders

  /** One element of `modifications`; `action` is free text. */
  datatype Modification = Modification(action: string, itemId: string, quantity: int, unitPrice: string)

  const CannotModify := "Order cannot be modified. It has either been processed or does not exist."
  const ModifiedMessage := "Order modified successfully"
  const Pending := "PENDING"

  /** The rows `where({ orderId, itemId })` selects. */
  predicate Selects(it: OrderItem, orderId: nat, itemId: string) {
    it.orderId == orderId && it.itemId == itemId
  }

  /** The row `.first()` returns, if any. */
  function FirstMatch(items: seq<OrderItem>, orderId: nat, itemId: string): (r: Option<OrderItem>)
    ensures r.Some? <==> exists i | 0 <= i < |items| :: Selects(items[i], orderId, itemId)
    ensures r.Some? ==> r.value in items && Selects(r.value, orderId, itemId)
    decreases |items|
  {
    if items == [] then None
    else if Selects(items[0], orderId, itemId) then Some(items[0])
    else
      var r := FirstMatch(items[1..], orderId, itemId);
      assert forall i | 1 <= i < |items| :: items[i] == items[1..][i - 1];
      r
  }

  /** The `update`: every selected row gets the new quantity and unit price;
      nothing else changes. */
  function UpdateRows(items: seq<OrderItem>, orderId: nat, itemId: string, quantity: int, unitPrice: string)
    : (r: seq<OrderItem>)
    ensures |r| == |items|
    ensures forall i | 0 <= i < |items| ::
      r[i] == if Selects(items[i], orderId, itemId) then items[i].(quantity := quantity, unitPrice := unitPrice)
              else items[i]
    decreases |items|
  {
    if items == [] then []
    else
      var first := if Selects(items[0], orderId, itemId) then items[0].(quantity := quantity, unitPrice := unitPrice)
                   else items[0];
      [first] + UpdateRows(items[1..], orderId, itemId, quantity, unitPrice)
  }

  /** The `delete`: the rows that are not selected, in their order. */
  function RemoveRows(items: seq<OrderItem>, orderId: nat, itemId: string): (r: seq<OrderItem>)
    ensures forall x :: x in r <==> x in items && !Selects(x, orderId, itemId)
    ensures |r| <= |items|
    ensures forall x :: multiset(r)[x] == if Selects(x, orderId, itemId) then 0 else multiset(items)[x]
    decreases |items|
  {
    if items == [] then []
    else
      var rest := RemoveRows(items[1..], orderId, itemId);
      assert forall x :: x in items <==> x == items[0] || x in items[1..];
      assert items == [items[0]] + items[1..];
      assert multiset(items) == multiset{items[0]} + multiset(items[1..]);
      if Selects(items[0], orderId, itemId) then rest else [items[0]] + rest
  }

  /** The `delete` keeps the order of the rows it leaves: removing from two
      runs of rows one after the other is removing from each. */
  lemma {:induction false} RemoveRowsAppend(a: seq<OrderItem>, b: seq<OrderItem>, orderId: nat, itemId: string)
    ensures RemoveRows(a + b, orderId, itemId) == RemoveRows(a, orderId, itemId) + RemoveRows(b, orderId, itemId)
    decreases |a|
  {
    if a == [] {
      assert a + b == b;
    } else {
      assert (a + b)[0] == a[0] && (a + b)[1..] == a[1..] + b;
      RemoveRowsAppend(a[1..], b, orderId, itemId);
    }
  }

  /** The row the `insert` adds; the item type is left null. */
  function NewRow(orderId: nat, m: Modification): OrderItem {
    OrderItem(orderId, m.itemId, m.quantity, m.unitPrice, None)
  }

  /** One pass of the loop body. */
  function ApplyModification(items: seq<OrderItem>, orderId: nat, m: Modification): seq<OrderItem>
  {
    var existing := FirstMatch(items, orderId, m.itemId);
    if m.action == "update" && existing.Some? then UpdateRows(items, orderId, m.itemId, m.quantity, m.unitPrice)
    else if m.action == "remove" && existing.Some? then RemoveRows(items, orderId, m.itemId)
    else if m.action == "add" then items + [NewRow(orderId, m)]
    else items
  }

  /** The items after the modifications, applied in order. */
  function ApplyAll(items: seq<OrderItem>, orderId: nat, mods: seq<Modification>): seq<OrderItem>
    decreases |mods|
  {
    if mods == [] then items
    else ApplyModification(ApplyAll(items, orderId, mods[..|mods| - 1]), orderId, mods[|mods| - 1])
  }

  predicate Modifiable(t: Tables, orderId: nat) {
    orderId in t.orders && t.orders[orderId].status == Some(Pending)
  }

  /** `modifyOrder` on the tables: the error for a missing or non-PENDING
      order, with nothing changed; otherwise success and the new items. */
  function Modify(t: Tables, orderId: nat, mods: seq<Modification>): (r: (Result<string>, Tables))
    ensures r.0.Err? <==> !Modifiable(t, orderId)
    ensures r.0.Err? ==> r.0.error == CannotModify && r.1 == t
    ensures r.0.Ok? ==> r.0.value == ModifiedMessage
    ensures r.1.orders == t.orders && r.1.auditLog == t.auditLog && r.1.nextId == t.nextId
  {
    if !Modifiable(t, orderId) then (Err(CannotModify), t)
    else (Ok(ModifiedMessage), t.(items := ApplyAll(t.items, orderId, mods)))
  }

  /** The items of one order, in table order. */
  function ItemsOf(items: seq<OrderItem>, orderId: nat): seq<OrderItem>
    decreases |items|
  {
    if items == [] then []
    else (if items[0].orderId == orderId then [items[0]] else []) + ItemsOf(items[1..], orderId)
  }

  lemma {:induction false} ItemsOfAppend(a: seq<OrderItem>, b: seq<OrderItem>, o: nat)
    ensures ItemsOf(a + b, o) == ItemsOf(a, o) + ItemsOf(b, o)
    decreases |a|
  {
    if a == [] {
      assert a + b == b;
    } else {
      var head := if a[0].orderId == o then [a[0]] else [];
      calc {
        ItemsOf(a + b, o);
        { assert (a + b)[0] == a[0] && (a + b)[1..] == a[1..] + b; }
        head + ItemsOf(a[1..] + b, o);
        { ItemsOfAppend(a[1..], b, o); }
        head + (ItemsOf(a[1..], o) + ItemsOf(b, o));
        (head + ItemsOf(a[1..], o)) + ItemsOf(b, o);
      }
    }
  }

  lemma {:induction false} UpdateKeepsOthers(items: seq<OrderItem>, orderId: nat, itemId: string, q: int,
                                             p: string, other: nat)
    requires other != orderId
    ensures ItemsOf(UpdateRows(items, orderId, itemId, q, p), other) == ItemsOf(items, other)
    decreases |items|
  {
    if items != [] {
      var r := UpdateRows(items, orderId, itemId, q, p);
      assert r[1..] == UpdateRows(items[1..], orderId, itemId, q, p);
      UpdateKeepsOthers(items[1..], orderId, itemId, q, p, other);
    }
  }

  lemma {:induction false} RemoveKeepsOthers(items: seq<OrderItem>, orderId: nat, itemId: string, other: nat)
    requires other != orderId
    ensures ItemsOf(RemoveRows(items, orderId, itemId), other) == ItemsOf(items, other)
    decreases |items|
  {
    if items != [] {
      var rest := RemoveRows(items[1..], orderId, itemId);
      RemoveKeepsOthers(items[1..], orderId, itemId, other);
      if !Selects(items[0], orderId, itemId) {
        assert ([items[0]] + rest)[0] == items[0] && ([items[0]] + rest)[1..] == rest;
      }
    }
  }

  /** Only the items of the modified order are touched: every other order's
      items are the same rows in the same order. */
  lemma {:induction false} OtherOrdersUntouched(items: seq<OrderItem>, orderId: nat, mods: seq<Modification>,
                                                other: nat)
    requires other != orderId
    ensures ItemsOf(ApplyAll(items, orderId, mods), other) == ItemsOf(items, other)
    decreases |mods|
  {
    if mods != [] {
      var before := ApplyAll(items, orderId, mods[..|mods| - 1]);
      OtherOrdersUntouched(items, orderId, mods[..|mods| - 1], other);
      var m := mods[|mods| - 1];
      if m.action == "update" && FirstMatch(before, orderId, m.itemId).Some? {
        UpdateKeepsOthers(before, orderId, m.itemId, m.quantity, m.unitPrice, other);
      } else if m.action == "remove" && FirstMatch(before, orderId, m.itemId).Some? {
        RemoveKeepsOthers(before, orderId, m.itemId, other);
      } else if m.action == "add" {
        ItemsOfAppend(before, [NewRow(orderId, m)], other);
        assert ItemsOf([NewRow(orderId, m)], other) == [];
      }
    }
  }

  /** `add` inserts even when a row with that item id already exists;
      `update` and `remove` of a missing item, and any other action, are
      no-ops. */
  lemma AddAlwaysInserts(items: seq<OrderItem>, orderId: nat, m: Modification)
    ensures m.action == "add" ==> ApplyModification(items, orderId, m) == items + [NewRow(orderId, m)]
    ensures m.action !in {"update", "remove", "add"} ==> ApplyModification(items, orderId, m) == items
    ensures (forall i | 0 <= i < |items| :: !Selects(items[i], orderId, m.itemId)) && m.action != "add" ==>
      ApplyModification(items, orderId, m) == items
  {
  }

  /** Each modification sees the earlier ones: after a `remove`, an `update`
      of the same item finds nothing and changes nothing. */
  lemma RemoveThenUpdate(items: seq<OrderItem>, orderId: nat, itemId: string, q: int, p: string)
    requires exists i | 0 <= i < |items| :: Selects(items[i], orderId, itemId)
    ensures ApplyAll(items, orderId, [Modification("remove", itemId, q, p), Modification("update", itemId, q, p)])
      == RemoveRows(items, orderId, itemId)
  {
    var mods := [Modification("remove", itemId, q, p), Modification("update", itemId, q, p)];
    assert mods[..1][..0] == [];
    assert ApplyAll(items, orderId, mods[..1]) == RemoveRows(items, orderId, itemId);
    var r := RemoveRows(items, orderId, itemId);
    assert forall i | 0 <= i < |r| :: !Selects(r[i], orderId, itemId) by {
      forall i | 0 <= i < |r| ensures !Selects(r[i], orderId, itemId) {
        assert r[i] in r;
      }
    }
    assert FirstMatch(r, orderId, itemId).None?;
    assert mods[..2] == mods;
    assert ApplyAll(items, orderId, mods) == ApplyModification(r, orderId, mods[1]);
  }

  /** `modifyOrder(orderId, modifications)`, one modification per pass. */
  method ModifyOrder(db: OrderDb, orderId: nat, mods: seq<Modification>) returns (r: Result<string>)
    requires db.Valid()
    modifies db
    ensures db.Valid()
    ensures (r, db.Contents()) == Modify(old(db.Contents()), orderId, mods)
  {
    if orderId !in db.orders || db.orders[orderId].status != Some(Pending) {
      return Err(CannotModify);
    }
    ghost var start := db.Contents();
    for i := 0 to |mods|
      invariant db.Valid()
      invariant db.Contents() == start.(items := ApplyAll(start.items, orderId, mods[..i]))
    {
      var m := mods[i];
      var existing := FirstMatch(db.items, orderId, m.itemId);
      if m.action == "update" && existing.Some? {
        db.SetItems(UpdateRows(db.items, orderId, m.itemId, m.quantity, m.unitPrice));
      } else if m.action == "remove" && existing.Some? {
        db.SetItems(RemoveRows(db.items, orderId, m.itemId));
      } else if m.action == "add" {
        db.InsertItems([NewRow(orderId, m)]);
      }
      assert mods[..i + 1][..i] == mods[..i];
    }
    assert mods[..|mods|] == mods;
    return Ok(ModifiedMessage);
  }
}
