/**
 * JavaScript values as they reach the order schemas and handlers: the decoded
 * JSON request bodies and the values of the order forms.
 */
module Json {
  import opened Strings

  /**
   * A JavaScript value. Numbers are integer-valued; objects and arrays are kept
   * without their contents, which no modelled rule inspects. `Date` is a `Date`
   * object, `valid` false for an "Invalid Date".
   */
  datatype Value =
    | Undefined
    | Null
    | Bool(b: bool)
    | Num(n: int)
    | Str(s: string)
    | Date(valid: bool)
    | Object
    | Array

  /** The type name the validation library reports for a received value. */
  function TypeName(v: Value): string {
    match v
    case Undefined => "undefined"
    case Null => "null"
    case Bool(_) => "boolean"
    case Num(_) => "number"
    case Str(_) => "string"
    case Date(_) => "date"
    case Object => "object"
    case Array => "array"
  }

  /** JavaScript truthiness, as used by `!data.deliveryAddress`. */
  predicate Truthy(v: Value) {
    match v
    case Undefined => false
    case Null => false
    case Bool(b) => b
    case Num(n) => n != 0
    case Str(s) => s != ""
    case _ => true
  }

  /**
   * `String(v)`. An array is rendered as the empty string (exact only for the
   * empty array) and a valid date as an empty text: no rule reads either text.
   */
  function JsString(v: Value): (r: string)
    ensures v.Str? ==> r == v.s
  {
    match v
    case Undefined => "undefined"
    case Null => "null"
    case Bool(b) => if b then "true" else "false"
    case Num(n) => IntToString(n)
    case Str(s) => s
    case Date(valid) => if valid then "" else "Invalid Date"
    case Object => "[object Object]"
    case Array => ""
  }

  /** The largest absolute time value, in milliseconds, a `Date` can hold. */
  const MaxTime: int := 8_640_000_000_000_000

  /**
   * `new Date(v)`. Whether the date parser accepts a string (or the string an
   * object converts to) is the parameter `textParses`.
   */
  function NewDate(v: Value, textParses: bool): (r: Value)
    ensures r.Date?
    ensures v == Undefined ==> !r.valid
  {
    match v
    case Undefined => Date(false)
    case Null => Date(true)
    case Bool(_) => Date(true)
    case Num(n) => Date(-MaxTime <= n <= MaxTime)
    case Str(_) => Date(textParses)
    case Date(valid) => Date(valid)
    case Object => Date(textParses)
    case Array => Date(textParses)
  }

  /** The keys the order schemas know, `KeyName` spelling each as the body does. */
  datatype Key =
    | FullName | Phone | Details | DeliveryType | DeliveryAddress | DeliveryDate | DeliveryTime
    | OrderValue | PaymentMethod | Paid | Status | CancellationReason | UserId | Id | Term

  function KeyName(k: Key): string {
    match k
    case FullName => "fullName"
    case Phone => "phone"
    case Details => "details"
    case DeliveryType => "deliveryType"
    case DeliveryAddress => "deliveryAddress"
    case DeliveryDate => "deliveryDate"
    case DeliveryTime => "deliveryTime"
    case OrderValue => "orderValue"
    case PaymentMethod => "paymentMethod"
    case Paid => "paid"
    case Status => "status"
    case CancellationReason => "cancellationReason"
    case UserId => "userId"
    case Id => "id"
    case Term => "term"
  }

  /**
   * An order-shaped object: the keys the order schemas read. A key the body
   * does not carry is `Undefined`; keys the schemas do not know are not kept.
   */
  datatype Payload = Payload(
    fullName: Value,
    phone: Value,
    details: Value,
    deliveryType: Value,
    deliveryAddress: Value,
    deliveryDate: Value,
    deliveryTime: Value,
    orderValue: Value,
    paymentMethod: Value,
    paid: Value,
    status: Value,
    cancellationReason: Value,
    userId: Value)

  /** `{}` */
  const EmptyPayload: Payload := Payload(
    Undefined, Undefined, Undefined, Undefined, Undefined, Undefined, Undefined,
    Undefined, Undefined, Undefined, Undefined, Undefined, Undefined)
}
