/** src/services/punchoutService.ts: the PunchOut setup handshake, the setup
    response document, and the order-message item mapping. */
module PunchoutService {
  import opened Wrappers
  import opened Cxml

  datatype Supplier = Supplier(credential: string, catalogUrl: Option<string>)

  /** `{ success: true, buyerCookie, supplierUrl }` or `{ success: false, error }`. */
  datatype SetupResult = SessionStarted(buyerCookie: string, supplierUrl: Option<string>) | SetupFailed(error: string)

  const SetupErrorPrefix := "Error in handlePunchOutSetupRequest: "
  const InvalidSetupPrefix := "Invalid PunchOutSetupRequest: "
  const InvalidCredentials := "Invalid buyer or supplier credentials"

  /** `handlePunchOutSetupRequest`, with the buyer lookup as the set of known
      buyer credentials and the supplier lookup as a map from credential to
      supplier row. */
  function HandlePunchOutSetupRequest(input: Checked<SetupRequest>, buyers: set<string>,
                                      suppliers: map<string, Supplier>): (r: SetupResult)
    ensures input.ParseError? ==> r == SetupFailed(SetupErrorPrefix + input.message)
    ensures input.SchemaError? ==> r == SetupFailed(SetupErrorPrefix + InvalidSetupPrefix + input.message)
    ensures r.SessionStarted? <==>
      input.Valid? && input.document.fromCredential in buyers && input.document.toCredential in suppliers
    ensures r.SessionStarted? ==>
      r.buyerCookie == input.document.buyerCookie &&
      r.supplierUrl == suppliers[input.document.toCredential].catalogUrl
  {
    match input
    case ParseError(m) => SetupFailed(SetupErrorPrefix + m)
    case SchemaError(m) => SetupFailed(SetupErrorPrefix + InvalidSetupPrefix + m)
    case Valid(req) =>
      if req.fromCredential !in buyers || req.toCredential !in suppliers then
        SetupFailed(SetupErrorPrefix + InvalidCredentials)
      else SessionStarted(req.buyerCookie, suppliers[req.toCredential].catalogUrl)
  }

  /** Unknown credentials on either side fail with the credentials message. */
  lemma UnknownPartyFails(req: SetupRequest, buyers: set<string>, suppliers: map<string, Supplier>)
    requires req.fromCredential !in buyers || req.toCredential !in suppliers
    ensures HandlePunchOutSetupRequest(Valid(req), buyers, suppliers) == SetupFailed(SetupErrorPrefix + InvalidCredentials)
  {
  }

  /** The template text around the start page URL. */
  const SetupResponseOpen := "\n    <cXML>\n      <Response>\n        <PunchOutSetupResponse>\n          <StartPage>\n            "
  const SetupResponseClose := "\n          </StartPage>\n        </PunchOutSetupResponse>\n      </Response>\n    </cXML>\n  "

  /** `createPunchOutSetupResponse(buyerCookie, supplierUrl)`. */
  function CreatePunchOutSetupResponse(buyerCookie: string, supplierUrl: string): (xml: string)
    ensures var start := |SetupResponseOpen|;
      |xml| == start + |"<URL>" + supplierUrl + "</URL>"| + |SetupResponseClose| &&
      xml[start..start + |"<URL>" + supplierUrl + "</URL>"|] == "<URL>" + supplierUrl + "</URL>"
  {
    var element := "<URL>" + supplierUrl + "</URL>";
    var xml := SetupResponseOpen + element + SetupResponseClose;
    assert xml[|SetupResponseOpen|..|SetupResponseOpen| + |element|] == element;
    xml
  }

  /** `part` occurs in `s` at position `i`. */
  predicate OccursAt(s: string, part: string, i: nat) {
    i + |part| <= |s| && s[i..i + |part|] == part
  }

  predicate Contains(s: string, part: string) {
    exists i: nat | i <= |s| :: OccursAt(s, part, i)
  }

  /** The start page appears verbatim inside a `<URL>` element, and the buyer
      cookie plays no part. */
  lemma SetupResponseCarriesUrl(buyerCookie: string, otherCookie: string, supplierUrl: string)
    ensures Contains(CreatePunchOutSetupResponse(buyerCookie, supplierUrl), "<URL>" + supplierUrl + "</URL>")
    ensures CreatePunchOutSetupResponse(buyerCookie, supplierUrl) == CreatePunchOutSetupResponse(otherCookie, supplierUrl)
  {
    var xml := CreatePunchOutSetupResponse(buyerCookie, supplierUrl);
    assert OccursAt(xml, "<URL>" + supplierUrl + "</URL>", |SetupResponseOpen|);
  }

  /** `handlePunchOutOrderMessage` of this file: `{ success: true,
      orderDetails }` (details `None` for `undefined`), or the parser's error. */
  datatype OrderMessageResult = Mapped(orderDetails: Option<seq<ItemDetails>>) | MappingFailed(error: string)

  function HandlePunchOutOrderMessage(parsed: Result<RawDocument>): (r: OrderMessageResult)
    ensures parsed.Err? ==> r == MappingFailed(parsed.error)
    ensures parsed.Ok? ==> r.Mapped? && (r.orderDetails.None? <==> ItemsOf(parsed.value).None?)
    ensures parsed.Ok? && r.orderDetails.Some? ==>
      var items := ItemsOf(parsed.value).value;
      |r.orderDetails.value| == |items| &&
      forall i | 0 <= i < |items| :: r.orderDetails.value[i] == Project(items[i])
  {
    match parsed
    case Err(e) => MappingFailed(e)
    case Ok(doc) =>
      match ItemsOf(doc)
      case None => Mapped(None)
      case Some(items) => Mapped(Some(seq(|items|, i requires 0 <= i < |items| => Project(items[i]))))
  }

  /** test/punchoutService.test.ts:36-53: the one item keeps its id, quantity
      and price text. The mapping passes the quantity through unchanged, in
      whatever type the XML parser gives it; the model's parser yields text,
      so the quantity here is "2", where the test expects the number 2. */
  lemma OrderMessageExample()
    ensures var item := RawItem(Some("item123"), Some("2"), Some(RawPrice(Some(RawMoney(Some("100.00"))))));
      HandlePunchOutOrderMessage(Ok(RawDocument(Some(RawOrderMessage(Some([item]))))))
        == Mapped(Some([ItemDetails(Some("item123"), Some("2"), Some("100.00"))]))
  {
    var item := RawItem(Some("item123"), Some("2"), Some(RawPrice(Some(RawMoney(Some("100.00"))))));
    var r := HandlePunchOutOrderMessage(Ok(RawDocument(Some(RawOrderMessage(Some([item]))))));
    assert r.orderDetails.value[0] == Project(item);
    assert r.orderDetails.value == [ItemDetails(Some("item123"), Some("2"), Some("100.00"))];
  }
}
