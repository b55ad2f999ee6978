/** `transformPunchOutOrderMessage` of src/services/etlService.ts. */
module Etl {
  import opened Wrappers
  import opened Cxml
  import PunchoutService

  /** The items mapped one by one, front to back. */
  function MapItems(items: seq<RawItem>): (out: seq<ItemDetails>)
    ensures |out| == |items|
    decreases |items|
  {
    if items == [] then [] else [Project(items[0])] + MapItems(items[1..])
  }

  /** The transformed items, `None` when there is no `OrderMessage` or no
      `ItemIn`; a parser error is thrown on. */
  function TransformPunchOutOrderMessage(parsed: Result<RawDocument>): (r: Result<Option<seq<ItemDetails>>>)
    ensures parsed.Err? ==> r == Err(parsed.error)
    ensures parsed.Ok? ==> r.Ok? && (r.value.None? <==> ItemsOf(parsed.value).None?)
  {
    match parsed
    case Err(e) => Err(e)
    case Ok(doc) =>
      match ItemsOf(doc)
      case None => Ok(None)
      case Some(items) => Ok(Some(MapItems(items)))
  }

  /** Element by element: the i-th output is the i-th item's projection. */
  lemma {:induction false} MapItemsAt(items: seq<RawItem>)
    ensures forall i | 0 <= i < |items| :: MapItems(items)[i] == Project(items[i])
    decreases |items|
  {
    if items != [] {
      MapItemsAt(items[1..]);
      forall i | 1 <= i < |items| ensures MapItems(items)[i] == Project(items[i]) {
        assert MapItems(items)[i] == MapItems(items[1..])[i - 1];
      }
    }
  }

  /** The transformation keeps length and order, copies `ItemID` and
      `Quantity`, and takes the price text when both `UnitPrice` and `Money`
      are there. */
  lemma TransformShape(parsed: Result<RawDocument>)
    requires parsed.Ok? && ItemsOf(parsed.value).Some?
    ensures var items := ItemsOf(parsed.value).value;
      var out := TransformPunchOutOrderMessage(parsed).value.value;
      |out| == |items| &&
      forall i | 0 <= i < |items| ::
        out[i].itemId == items[i].itemId && out[i].quantity == items[i].quantity &&
        (items[i].unitPrice.None? || items[i].unitPrice.value.money.None? ==> out[i].unitPrice.None?)
  {
    MapItemsAt(ItemsOf(parsed.value).value);
  }

  /** It yields exactly the item details the PunchOut service's order-message
      handler returns for the same document. */
  lemma SameAsServiceMapping(parsed: Result<RawDocument>)
    requires parsed.Ok?
    ensures PunchoutService.HandlePunchOutOrderMessage(parsed)
      == PunchoutService.Mapped(TransformPunchOutOrderMessage(parsed).value)
  {
    if ItemsOf(parsed.value).Some? {
      var items := ItemsOf(parsed.value).value;
      MapItemsAt(items);
      assert PunchoutService.HandlePunchOutOrderMessage(parsed).orderDetails.value == MapItems(items);
    }
  }
}
