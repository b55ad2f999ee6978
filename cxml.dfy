/** The cXML documents the services read, as the parser and the schema
    validation hand them over. Parsing and validation themselves are not
    modelled: a service receives their outcome. */
module Cxml {
  import opened Wrappers

  /** `Money` with its `currency` attribute and its text. */
  datatype Money = Money(currency: string, value: string)

  /** The item types the order schema admits. */
  datatype ItemType = Physical | Digital | ServiceItem

  function ItemTypeName(t: ItemType): string {
    match t
    case Physical => "physical"
    case Digital => "digital"
    case ServiceItem => "service"
  }

  /** A validated `ItemIn`. */
  datatype ItemIn = ItemIn(itemId: string, quantity: int, unitPrice: Money, itemType: Option<ItemType>)

  datatype OrderMessageHeader = OrderMessageHeader(total: Money, discount: Option<Money>, tax: Option<Money>)

  /** A validated `PunchOutOrderMessage`. */
  datatype PunchOutOrderMessage = PunchOutOrderMessage(
    header: OrderMessageHeader,
    buyerCookie: string,
    items: seq<ItemIn>)

  /** A validated `PunchOutSetupRequest`. */
  datatype SetupRequest = SetupRequest(
    fromCredential: string,
    toCredential: string,
    senderCredential: string,
    userAgent: Option<string>,
    buyerCookie: string,
    browserFormPost: string)

  /** What parsing and validating a document yields: the parser's error, the
      schema's error message, or the validated document. */
  datatype Checked<T> = ParseError(message: string) | SchemaError(message: string) | Valid(document: T)

  // Unvalidated documents, read with optional chaining

  /** `UnitPrice` with an optional `Money`, whose `value` may be missing. */
  datatype RawPrice = RawPrice(money: Option<RawMoney>)
  datatype RawMoney = RawMoney(value: Option<string>)

  /** An unvalidated `ItemIn`; any field may be missing. */
  datatype RawItem = RawItem(itemId: Option<string>, quantity: Option<string>, unitPrice: Option<RawPrice>)

  datatype RawOrderMessage = RawOrderMessage(itemIn: Option<seq<RawItem>>)

  /** A parsed document, as far as `xmlData?.OrderMessage?.ItemIn` reads it. */
  datatype RawDocument = RawDocument(orderMessage: Option<RawOrderMessage>)

  /** The object each item is mapped to; `None` is `undefined`. */
  datatype ItemDetails = ItemDetails(itemId: Option<string>, quantity: Option<string>, unitPrice: Option<string>)

  /** `{ itemId: item.ItemID, quantity: item.Quantity, unitPrice: item.UnitPrice?.Money?.value }`. */
  function Project(item: RawItem): (d: ItemDetails)
    ensures d.itemId == item.itemId && d.quantity == item.quantity
    ensures d.unitPrice.Some? <==>
      item.unitPrice.Some? && item.unitPrice.value.money.Some? && item.unitPrice.value.money.value.value.Some?
    ensures d.unitPrice.Some? ==> d.unitPrice == item.unitPrice.value.money.value.value
  {
    var price := match item.unitPrice
      case None => None
      case Some(p) => match p.money
        case None => None
        case Some(m) => m.value;
    ItemDetails(item.itemId, item.quantity, price)
  }

  /** `xmlData?.OrderMessage?.ItemIn`. */
  function ItemsOf(doc: RawDocument): Option<seq<RawItem>> {
    match doc.orderMessage
    case None => None
    case Some(m) => m.itemIn
  }
}
