/**
 * The `/api/orders` handlers over an abstract order store. The store is the
 * sequence of stored documents; `POST` appends the request body it accepted,
 * `GET` lists every document. The session, the body decoding, the date parser,
 * the store's identifiers and timestamps and its failures are parameters.
 */
module OrdersRoute {
  import opened Wrappers
  import opened Json
  import opened Zod
  import opened Strings
  import OrderSchemas
  import PhonePattern
  import OrderTypes

  /** A stored document: the store's identifier and timestamp, and the body as it was sent. */
  datatype StoredOrder = StoredOrder(id: string, createdAt: string, data: Payload)

  /**
   * The decoded request body. A JSON object carries its keys; any other JSON
   * value except `null` spreads to no key at all, so it is the empty payload;
   * `null` makes the handler throw when it reads `data.orderValue`.
   */
  datatype Body = Unparsable(message: string) | JsonNull | JsonObject(data: Payload)

  datatype ResponseBody =
    | OrderJson(order: StoredOrder)
    | OrdersJson(orders: seq<StoredOrder>)
    | IssuesJson(issues: seq<Issue>)
    | ErrorJson(message: string)

  datatype Response = Redirect(location: string) | Json(status: int, body: ResponseBody)

  /** The message of the error thrown by reading a key of `null`. */
  const NullBodyMessage: string := "Cannot read properties of null (reading 'orderValue')"

  /**
   * The copy `POST` validates: the body with `orderValue` converted by
   * `String(...)` and `deliveryDate` by `new Date(...)`.
   */
  function ValidationCopy(data: Payload, textParses: bool): Payload {
    data.(orderValue := Str(JsString(data.orderValue)), deliveryDate := NewDate(data.deliveryDate, textParses))
  }

  /** Whether `POST` accepts a body: its validation copy passes the live create schema. */
  predicate Accepts(data: Payload, textParses: bool) {
    OrderSchemas.SafeParseCreate(OrderSchemas.Live, ValidationCopy(data, textParses)).Success?
  }

  class OrderStore {
    var documents: seq<StoredOrder>

    constructor (initial: seq<StoredOrder>)
      ensures documents == initial
    {
      documents := initial;
    }

    /**
     * `POST /api/orders`: no session redirects before the body is read; a body
     * that cannot be decoded, or is `null`, or a store failure answers 500 with
     * the error's message; a body whose validation copy fails answers 400 with
     * the issues; otherwise the raw body (not the parsed copy) is appended and
     * returned. Only the last case changes the store.
     */
    method Post(session: bool, body: Body, textParses: bool, id: string, createdAt: string, failure: Option<string>)
      returns (r: Response)
      modifies this
      ensures !session ==> r == Redirect("/")
      ensures session && body.Unparsable? ==> r == Json(500, ErrorJson(body.message))
      ensures session && body.JsonNull? ==> r == Json(500, ErrorJson(NullBodyMessage))
      ensures session && body.JsonObject? && !Accepts(body.data, textParses) ==>
        r == Json(400, IssuesJson(OrderSchemas.CreateIssues(OrderSchemas.Live, ValidationCopy(body.data, textParses))))
      ensures session && body.JsonObject? && Accepts(body.data, textParses) && failure.Some? ==>
        r == Json(500, ErrorJson(failure.value))
      ensures session && body.JsonObject? && Accepts(body.data, textParses) && failure.None? ==>
        r == Json(200, OrderJson(StoredOrder(id, createdAt, body.data)))
      ensures documents ==
        if r.Json? && r.status == 200 then old(documents) + [StoredOrder(id, createdAt, body.data)] else old(documents)
    {
      if !session {
        return Redirect("/");
      }
      if body.Unparsable? {
        return Json(500, ErrorJson(body.message));
      }
      if body.JsonNull? {
        return Json(500, ErrorJson(NullBodyMessage));
      }
      var data := body.data;
      var validated := OrderSchemas.SafeParseCreate(OrderSchemas.Live, ValidationCopy(data, textParses));
      if validated.Failure? {
        return Json(400, IssuesJson(validated.error));
      }
      if failure.Some? {
        return Json(500, ErrorJson(failure.value));
      }
      var order := StoredOrder(id, createdAt, data);
      documents := documents + [order];
      return Json(200, OrderJson(order));
    }

    /** `GET /api/orders`: every stored document, with no filter by user; the store is unchanged. */
    method Get(session: bool, failure: Option<string>) returns (r: Response)
      ensures !session ==> r == Redirect("/")
      ensures session && failure.Some? ==> r == Json(500, ErrorJson(failure.value))
      ensures session && failure.None? ==> r == Json(200, OrdersJson(documents))
    {
      if !session {
        return Redirect("/");
      }
      if failure.Some? {
        return Json(500, ErrorJson(failure.value));
      }
      return Json(200, OrdersJson(documents));
    }
  }

  /**
   * What an accepted body holds: the name, the phone as typed (matching the
   * pattern, so with 10 or 11 digits), the details, the delivery type, the
   * payment method and the user, each as the schema demands; a delivery has an
   * address.
   */
  lemma AcceptedBodyShape(data: Payload, textParses: bool)
    requires Accepts(data, textParses)
    ensures data.fullName.Str? && |data.fullName.s| >= 3
    ensures data.phone.Str? && PhonePattern.Matches(data.phone.s) && 10 <= |Digits(data.phone.s)| <= 11
    ensures data.details.Str? && |data.details.s| >= 10
    ensures data.deliveryType.Str? && data.deliveryType.s in OrderTypes.DeliveryTags
    ensures data.deliveryType == Str("entrega") ==> Truthy(data.deliveryAddress)
    ensures data.paymentMethod.Str? && data.paymentMethod.s in OrderTypes.PaymentTags
    ensures data.userId.Str?
  {
    OrderSchemas.SafeParseCreateSpec(OrderSchemas.Live, ValidationCopy(data, textParses));
    PhonePattern.MatchesDigitCount(data.phone.s);
  }

  /**
   * The conversion with `String(...)` makes the total's check vacuous: a
   * missing or numeric `orderValue` is never reported.
   */
  lemma OrderValueNeverReported(data: Payload, textParses: bool)
    ensures IssuesAt(OrderSchemas.CreateIssues(OrderSchemas.Live, ValidationCopy(data, textParses)), Some(OrderValue)) == []
  {
    OrderSchemas.CreateOrderValueRule(OrderSchemas.Live, ValidationCopy(data, textParses));
  }

  /**
   * The conversion with `new Date(...)` turns a missing delivery date into an
   * invalid one, so it is reported as an invalid date rather than with the
   * schema's own message for a missing date.
   */
  lemma MissingDateReportedInvalid(data: Payload, textParses: bool)
    requires data.deliveryDate == Undefined
    ensures IssuesAt(OrderSchemas.CreateIssues(OrderSchemas.Live, ValidationCopy(data, textParses)), Some(DeliveryDate))
      == [Issue(Some(DeliveryDate), InvalidDate)]
  {
    var copy := ValidationCopy(data, textParses);
    OrderSchemas.CreateIssuesAtKey(OrderSchemas.Live, copy, DeliveryDate);
    OrderSchemas.CreateFieldIsDate(OrderSchemas.Live, copy);
  }
}
