/**
 * The order schemas, in their two versions: the live one, which checks the
 * phone against a fixed pattern and keeps it as typed and takes `orderValue`
 * as a string, and the one next to the API routes, which reduces the phone to
 * its digits and takes `orderValue` as a number. Everything else is shared.
 */
module OrderSchemas {
  import opened Wrappers
  import opened Json
  import opened Zod
  import opened Strings
  import opened OrderRules
  import OrderTypes
  import PhonePattern

  /** `Live` is `schemas/orderSchemas.ts`, `Api` is `app/api/schemas/orderSchemas.ts`. */
  datatype Version = Live | Api

  /** Whether a phone string passes the version's phone rule. */
  predicate PhoneAccepts(version: Version, s: string) {
    match version
    case Live => PhonePattern.Matches(s)
    case Api => 10 <= |Digits(s)| <= 11
  }

  /** The parsed phone: as typed, or with every non-digit deleted. */
  function PhoneImage(version: Version, s: string): string {
    match version
    case Live => s
    case Api => Digits(s)
  }

  /**
   * `z.string().regex(pattern, { message })`, or
   * `z.string().transform(deleteNonDigits).refine(10 <= length <= 11, { message })`.
   */
  function PhoneField(version: Version, v: Value, optional: bool): (f: Field)
    ensures f.key == Phone && Sound(f)
    ensures f.aborted <==> !(v.Str? || (optional && v == Undefined))
    ensures f.issues == (if v.Str? || (optional && v == Undefined) then [] else Primitive(Phone, v, StringKind, RequiredMsg, optional).issues)
      + (if v.Str? && !PhoneAccepts(version, v.s) then [Issue(Some(Phone), PhoneMsg)] else [])
    ensures f.value == if v.Str? then Str(PhoneImage(version, v.s)) else if optional && v == Undefined then v else Undefined
  {
    var typed := Primitive(Phone, v, StringKind, RequiredMsg, optional);
    match version
    case Live => Check(typed, typed.value.Str? && PhonePattern.Matches(typed.value.s), PhoneMsg)
    case Api =>
      var digits := Transform(typed, Digits(JsString(typed.value)));
      Check(digits, digits.value.Str? && 10 <= |digits.value.s| <= 11, PhoneMsg)
  }

  /** The type `orderValue` must have: a string, or a number. */
  function OrderValueKind(version: Version): Kind {
    match version
    case Live => StringKind
    case Api => NumberKind
  }

  /** The message for a missing `orderValue`: the live version's own, or the library's. */
  function OrderValueRequiredMsg(version: Version): Message {
    match version
    case Live => ValueMsg
    case Api => RequiredMsg
  }

  /** `fullName`: a string of at least three characters. */
  function NameField(v: Value, optional: bool): (f: Field)
    ensures f.key == FullName && Sound(f)
    ensures f.issues == [] <==> (v.Str? && |v.s| >= 3) || (optional && v == Undefined)
    ensures !f.aborted ==> f.value == v
    ensures v.Str? && |v.s| < 3 ==> f.issues == [Issue(Some(FullName), NameMsg)]
  {
    MinLength(Primitive(FullName, v, StringKind, RequiredMsg, optional), 3, NameMsg)
  }

  /** `details`: a string of at least ten characters. */
  function DetailsField(v: Value, optional: bool): (f: Field)
    ensures f.key == Details && Sound(f)
    ensures f.issues == [] <==> (v.Str? && |v.s| >= 10) || (optional && v == Undefined)
    ensures !f.aborted ==> f.value == v
    ensures v.Str? && |v.s| < 10 ==> f.issues == [Issue(Some(Details), DetailsMsg)]
  {
    MinLength(Primitive(Details, v, StringKind, RequiredMsg, optional), 10, DetailsMsg)
  }

  /** `deliveryType`: "retirada" or "entrega". */
  function DeliveryTypeField(v: Value, optional: bool): (f: Field)
    ensures f.key == DeliveryType && Sound(f)
    ensures f.issues == [] <==> (v.Str? && v.s in OrderTypes.DeliveryTags) || (optional && v == Undefined)
    ensures !f.aborted ==> f.value == v
  {
    EnumField(DeliveryType, v, OrderTypes.DeliveryTags, optional, false)
  }

  /** `deliveryAddress`: an optional string. */
  function AddressField(v: Value): (f: Field)
    ensures f.key == DeliveryAddress && Sound(f)
    ensures f.issues == [] <==> v.Str? || v == Undefined
    ensures !f.aborted ==> f.value == v
  {
    Primitive(DeliveryAddress, v, StringKind, RequiredMsg, true)
  }

  /** `deliveryDate`: a valid date. */
  function DeliveryDateField(v: Value, optional: bool): (f: Field)
    ensures f.key == DeliveryDate && Sound(f)
    ensures f.issues == [] <==> v == Date(true) || (optional && v == Undefined)
    ensures !f.aborted ==> f.value == v
    ensures v == Date(false) ==> f.issues == [Issue(Some(DeliveryDate), InvalidDate)]
    ensures v == Undefined && !optional ==> f.issues == [Issue(Some(DeliveryDate), DateMsg)]
  {
    DateField(DeliveryDate, v, DateMsg, optional)
  }

  /** `deliveryTime`: a string. */
  function TimeField(v: Value, optional: bool): (f: Field)
    ensures f.key == DeliveryTime && Sound(f)
    ensures f.issues == [] <==> v.Str? || (optional && v == Undefined)
    ensures !f.aborted ==> f.value == v
  {
    Primitive(DeliveryTime, v, StringKind, TimeMsg, optional)
  }

  /** `orderValue`: a string in the live version, a number in the other. */
  function OrderValueField(version: Version, v: Value, optional: bool): (f: Field)
    ensures f.key == OrderValue && Sound(f)
    ensures f.issues == [] <==> HasKind(v, OrderValueKind(version)) || (optional && v == Undefined)
    ensures !f.aborted ==> f.value == v
    ensures v == Undefined && !optional ==> f.issues == [Issue(Some(OrderValue), OrderValueRequiredMsg(version))]
  {
    Primitive(OrderValue, v, OrderValueKind(version), OrderValueRequiredMsg(version), optional)
  }

  /** `paymentMethod`: `z.nativeEnum(PaymentMethod)`. */
  function PaymentField(v: Value, optional: bool): (f: Field)
    ensures f.key == PaymentMethod && Sound(f)
    ensures f.issues == [] <==> (v.Str? && v.s in OrderTypes.PaymentTags) || (optional && v == Undefined)
    ensures !f.aborted ==> f.value == v
  {
    EnumField(PaymentMethod, v, OrderTypes.PaymentTags, optional, true)
  }

  /** `paid`: an optional boolean. */
  function PaidField(v: Value): (f: Field)
    ensures f.key == Paid && Sound(f)
    ensures f.issues == [] <==> v.Bool? || v == Undefined
    ensures !f.aborted ==> f.value == v
  {
    Primitive(Paid, v, BooleanKind, RequiredMsg, true)
  }

  /** `status`: an optional `z.nativeEnum(OrderStatus)`. */
  function StatusField(v: Value): (f: Field)
    ensures f.key == Status && Sound(f)
    ensures f.issues == [] <==> (v.Str? && v.s in OrderTypes.StatusTags) || v == Undefined
    ensures !f.aborted ==> f.value == v
  {
    EnumField(Status, v, OrderTypes.StatusTags, true, true)
  }

  /** `cancellationReason`: an optional string. */
  function ReasonField(v: Value): (f: Field)
    ensures f.key == CancellationReason && Sound(f)
    ensures f.issues == [] <==> v.Str? || v == Undefined
    ensures !f.aborted ==> f.value == v
  {
    Primitive(CancellationReason, v, StringKind, RequiredMsg, true)
  }

  /** `userId`: a string. */
  function UserField(v: Value, optional: bool): (f: Field)
    ensures f.key == UserId && Sound(f)
    ensures f.issues == [] <==> v.Str? || (optional && v == Undefined)
    ensures !f.aborted ==> f.value == v
  {
    Primitive(UserId, v, StringKind, UserMsg, optional)
  }

  /** The keys of `createOrderSchema`, in schema order. */
  const CreateKeys: seq<Key> := [FullName, Phone, Details, DeliveryType, DeliveryAddress,
    DeliveryDate, DeliveryTime, OrderValue, PaymentMethod, UserId]

  /** The schema of each key of `createOrderSchema`; a key outside the shape is stripped. */
  function CreateField(version: Version, p: Payload, key: Key): (f: Field)
    ensures f.key == key && Sound(f)
  {
    match key
    case FullName => NameField(p.fullName, false)
    case Phone => PhoneField(version, p.phone, false)
    case Details => DetailsField(p.details, false)
    case DeliveryType => DeliveryTypeField(p.deliveryType, false)
    case DeliveryAddress => AddressField(p.deliveryAddress)
    case DeliveryDate => DeliveryDateField(p.deliveryDate, false)
    case DeliveryTime => TimeField(p.deliveryTime, false)
    case OrderValue => OrderValueField(version, p.orderValue, false)
    case PaymentMethod => PaymentField(p.paymentMethod, false)
    case UserId => UserField(p.userId, false)
    case _ => Pass(key, Undefined)
  }

  function CreateFields(version: Version, p: Payload): (fs: seq<Field>)
    ensures |fs| == |CreateKeys|
    ensures forall k | 0 <= k < |fs| :: fs[k] == CreateField(version, p, CreateKeys[k])
  {
    seq(|CreateKeys|, k requires 0 <= k < |CreateKeys| => CreateField(version, p, CreateKeys[k]))
  }

  /** The parsed object: each key's parsed value; keys outside the schema are dropped. */
  function CreateParsed(version: Version, p: Payload): Payload {
    Payload(NameField(p.fullName, false).value, PhoneField(version, p.phone, false).value,
      DetailsField(p.details, false).value, DeliveryTypeField(p.deliveryType, false).value,
      AddressField(p.deliveryAddress).value, DeliveryDateField(p.deliveryDate, false).value,
      TimeField(p.deliveryTime, false).value, OrderValueField(version, p.orderValue, false).value,
      PaymentField(p.paymentMethod, false).value, Undefined, Undefined, Undefined,
      UserField(p.userId, false).value)
  }

  /** The issues `createOrderSchema.safeParse` reports. */
  function CreateIssues(version: Version, p: Payload): seq<Issue> {
    ObjectIssues(CreateFields(version, p), DeliveryRule(CreateParsed(version, p)))
  }

  function SafeParseCreate(version: Version, p: Payload): (r: Result<Payload, seq<Issue>>)
    ensures r.Success? <==> CreateIssues(version, p) == []
  {
    var issues := CreateIssues(version, p);
    if issues == [] then Success(CreateParsed(version, p)) else Failure(issues)
  }

  /** The keys of `updateOrderSchema`, in schema order. */
  const UpdateKeys: seq<Key> := [FullName, Phone, Details, DeliveryType, DeliveryAddress,
    DeliveryDate, DeliveryTime, OrderValue, PaymentMethod, Paid, Status, CancellationReason, UserId]

  /** The schema of each key of `updateOrderSchema`, every one optional. */
  function UpdateField(version: Version, p: Payload, key: Key): (f: Field)
    ensures f.key == key && Sound(f)
  {
    match key
    case FullName => NameField(p.fullName, true)
    case Phone => PhoneField(version, p.phone, true)
    case Details => DetailsField(p.details, true)
    case DeliveryType => DeliveryTypeField(p.deliveryType, true)
    case DeliveryAddress => AddressField(p.deliveryAddress)
    case DeliveryDate => DeliveryDateField(p.deliveryDate, true)
    case DeliveryTime => TimeField(p.deliveryTime, true)
    case OrderValue => OrderValueField(version, p.orderValue, true)
    case PaymentMethod => PaymentField(p.paymentMethod, true)
    case Paid => PaidField(p.paid)
    case Status => StatusField(p.status)
    case CancellationReason => ReasonField(p.cancellationReason)
    case UserId => UserField(p.userId, true)
    case _ => Pass(key, Undefined)
  }

  function UpdateFields(version: Version, p: Payload): (fs: seq<Field>)
    ensures |fs| == |UpdateKeys|
    ensures forall k | 0 <= k < |fs| :: fs[k] == UpdateField(version, p, UpdateKeys[k])
  {
    seq(|UpdateKeys|, k requires 0 <= k < |UpdateKeys| => UpdateField(version, p, UpdateKeys[k]))
  }

  function UpdateParsed(version: Version, p: Payload): Payload {
    Payload(NameField(p.fullName, true).value, PhoneField(version, p.phone, true).value,
      DetailsField(p.details, true).value, DeliveryTypeField(p.deliveryType, true).value,
      AddressField(p.deliveryAddress).value, DeliveryDateField(p.deliveryDate, true).value,
      TimeField(p.deliveryTime, true).value, OrderValueField(version, p.orderValue, true).value,
      PaymentField(p.paymentMethod, true).value, PaidField(p.paid).value,
      StatusField(p.status).value, ReasonField(p.cancellationReason).value,
      UserField(p.userId, true).value)
  }

  /** The issues `updateOrderSchema.safeParse` reports. */
  function UpdateIssues(version: Version, p: Payload): seq<Issue> {
    ObjectIssues(UpdateFields(version, p), DeliveryRule(UpdateParsed(version, p)) + CancelRule(UpdateParsed(version, p)))
  }

  function SafeParseUpdate(version: Version, p: Payload): (r: Result<Payload, seq<Issue>>)
    ensures r.Success? <==> UpdateIssues(version, p) == []
  {
    var issues := UpdateIssues(version, p);
    if issues == [] then Success(UpdateParsed(version, p)) else Failure(issues)
  }

  /** Each key of the create shape appears once. */
  lemma CreateFieldsWellFormed(version: Version, p: Payload)
    ensures AllSound(CreateFields(version, p)) && DistinctKeys(CreateFields(version, p))
  {
    var fs := CreateFields(version, p);
    CreateKeysDistinct();
    assert forall k | 0 <= k < |fs| :: fs[k].key == CreateKeys[k];
  }

  lemma CreateKeysDistinct()
    ensures forall j, k | 0 <= j < k < |CreateKeys| :: CreateKeys[j] != CreateKeys[k]
  {
  }

  /** What each key of `createOrderSchema` demands on its own. */
  predicate CreateKeysValid(version: Version, p: Payload) {
    p.fullName.Str? && |p.fullName.s| >= 3
    && p.phone.Str? && PhoneAccepts(version, p.phone.s)
    && p.details.Str? && |p.details.s| >= 10
    && p.deliveryType.Str? && p.deliveryType.s in OrderTypes.DeliveryTags
    && (p.deliveryAddress.Str? || p.deliveryAddress == Undefined)
    && p.deliveryDate == Date(true)
    && p.deliveryTime.Str?
    && HasKind(p.orderValue, OrderValueKind(version))
    && p.paymentMethod.Str? && p.paymentMethod.s in OrderTypes.PaymentTags
    && p.userId.Str?
  }

  lemma CreateKeyPasses(version: Version, p: Payload, key: Key)
    requires CreateKeysValid(version, p)
    ensures CreateField(version, p, key).issues == []
  {
    match key
    case FullName =>
    case Phone =>
    case Details =>
    case DeliveryType =>
    case DeliveryAddress =>
    case DeliveryDate =>
    case DeliveryTime =>
    case OrderValue =>
    case PaymentMethod =>
    case UserId =>
    case _ =>
  }

  lemma CreateKeysPassSound(version: Version, p: Payload)
    requires forall k | 0 <= k < |CreateKeys| :: CreateField(version, p, CreateKeys[k]).issues == []
    ensures CreateKeysValid(version, p)
  {
    CreateFirstKeysSound(version, p);
    CreateLastKeysSound(version, p);
  }

  lemma CreateFirstKeysSound(version: Version, p: Payload)
    requires forall k | 0 <= k < |CreateKeys| :: CreateField(version, p, CreateKeys[k]).issues == []
    ensures p.fullName.Str? && |p.fullName.s| >= 3 && p.phone.Str? && PhoneAccepts(version, p.phone.s)
    ensures p.details.Str? && |p.details.s| >= 10
    ensures p.deliveryType.Str? && p.deliveryType.s in OrderTypes.DeliveryTags
    ensures p.deliveryAddress.Str? || p.deliveryAddress == Undefined
  {
    CreateCustomerKeysSound(version, p);
    assert CreateField(version, p, CreateKeys[2]) == DetailsField(p.details, false);
    assert CreateField(version, p, CreateKeys[3]) == DeliveryTypeField(p.deliveryType, false);
    assert CreateField(version, p, CreateKeys[4]) == AddressField(p.deliveryAddress);
  }

  lemma CreateCustomerKeysSound(version: Version, p: Payload)
    requires forall k | 0 <= k < |CreateKeys| :: CreateField(version, p, CreateKeys[k]).issues == []
    ensures p.fullName.Str? && |p.fullName.s| >= 3 && p.phone.Str? && PhoneAccepts(version, p.phone.s)
  {
    assert CreateField(version, p, CreateKeys[0]) == NameField(p.fullName, false);
    assert CreateField(version, p, CreateKeys[1]) == PhoneField(version, p.phone, false);
  }

  lemma CreateScheduleKeysSound(version: Version, p: Payload)
    requires forall k | 0 <= k < |CreateKeys| :: CreateField(version, p, CreateKeys[k]).issues == []
    ensures p.deliveryDate == Date(true) && p.deliveryTime.Str?
  {
    assert CreateField(version, p, CreateKeys[5]) == DeliveryDateField(p.deliveryDate, false);
    assert CreateField(version, p, CreateKeys[6]) == TimeField(p.deliveryTime, false);
  }

  lemma CreateLastKeysSound(version: Version, p: Payload)
    requires forall k | 0 <= k < |CreateKeys| :: CreateField(version, p, CreateKeys[k]).issues == []
    ensures p.deliveryDate == Date(true) && p.deliveryTime.Str? && HasKind(p.orderValue, OrderValueKind(version))
    ensures p.paymentMethod.Str? && p.paymentMethod.s in OrderTypes.PaymentTags && p.userId.Str?
  {
    CreateScheduleKeysSound(version, p);
    assert CreateField(version, p, CreateKeys[7]) == OrderValueField(version, p.orderValue, false);
    assert CreateField(version, p, CreateKeys[8]) == PaymentField(p.paymentMethod, false);
    assert CreateField(version, p, CreateKeys[9]) == UserField(p.userId, false);
  }

  lemma CreateKeysPass(version: Version, p: Payload)
    ensures (forall k | 0 <= k < |CreateKeys| :: CreateField(version, p, CreateKeys[k]).issues == [])
      <==> CreateKeysValid(version, p)
  {
    if forall k | 0 <= k < |CreateKeys| :: CreateField(version, p, CreateKeys[k]).issues == [] {
      CreateKeysPassSound(version, p);
    }
    if CreateKeysValid(version, p) {
      forall k | 0 <= k < |CreateKeys| ensures CreateField(version, p, CreateKeys[k]).issues == [] {
        CreateKeyPasses(version, p, CreateKeys[k]);
      }
    }
  }

  /** A valid payload parses to itself with its phone replaced by the parsed phone and the keys outside the shape dropped. */
  lemma CreateParsedValue(version: Version, p: Payload)
    requires CreateKeysValid(version, p)
    ensures CreateParsed(version, p) == p.(phone := Str(PhoneImage(version, p.phone.s)),
      paid := Undefined, status := Undefined, cancellationReason := Undefined)
  {
    CreateKeyPasses(version, p, FullName);
    CreateKeyPasses(version, p, Details);
    CreateKeyPasses(version, p, DeliveryType);
    CreateKeyPasses(version, p, DeliveryAddress);
    CreateKeyPasses(version, p, DeliveryDate);
    CreateKeyPasses(version, p, DeliveryTime);
    CreateKeyPasses(version, p, OrderValue);
    CreateKeyPasses(version, p, PaymentMethod);
    CreateKeyPasses(version, p, UserId);
  }

  /**
   * `createOrderSchema.safeParse` succeeds exactly on a payload every key of
   * which is valid and that names an address whenever it asks for delivery;
   * the parsed order is the payload with the phone parsed and the keys outside
   * the shape dropped.
   */
  lemma SafeParseCreateSpec(version: Version, p: Payload)
    ensures SafeParseCreate(version, p).Success? <==>
      CreateKeysValid(version, p) && !(p.deliveryType == Str("entrega") && !Truthy(p.deliveryAddress))
    ensures SafeParseCreate(version, p).Success? ==>
      SafeParseCreate(version, p).value == p.(phone := Str(PhoneImage(version, p.phone.s)),
        paid := Undefined, status := Undefined, cancellationReason := Undefined)
  {
    CreateIssuesEmpty(version, p);
    if CreateKeysValid(version, p) {
      CreateParsedValue(version, p);
      CreateRefinementValid(version, p);
    }
  }

  /** No issue at all exactly when every key passes and the address rule is silent. */
  lemma CreateIssuesEmpty(version: Version, p: Payload)
    ensures CreateIssues(version, p) == [] <==> CreateKeysValid(version, p) && DeliveryRule(CreateParsed(version, p)) == []
  {
    var fs := CreateFields(version, p);
    CreateFieldsWellFormed(version, p);
    ObjectIssuesEmpty(fs, DeliveryRule(CreateParsed(version, p)));
    CreateFieldsPass(version, p);
  }

  lemma CreateFieldsPass(version: Version, p: Payload)
    ensures (forall k | 0 <= k < |CreateFields(version, p)| :: CreateFields(version, p)[k].issues == [])
      <==> CreateKeysValid(version, p)
  {
    var fs := CreateFields(version, p);
    CreateKeysPass(version, p);
    assert (forall k | 0 <= k < |fs| :: fs[k].issues == [])
       <==> (forall k | 0 <= k < |CreateKeys| :: CreateField(version, p, CreateKeys[k]).issues == []);
  }

  /** On valid keys the address rule sees the payload's own delivery type and address. */
  lemma CreateRefinementValid(version: Version, p: Payload)
    requires CreateKeysValid(version, p)
    ensures DeliveryRule(CreateParsed(version, p)) == [] <==> !(p.deliveryType == Str("entrega") && !Truthy(p.deliveryAddress))
  {
    CreateParsedValue(version, p);
  }

  /** With distinct keys, the issues about a key other than the address are that key's schema's. */
  lemma CreateIssuesAt(version: Version, p: Payload, k: nat)
    requires k < |CreateKeys| && CreateKeys[k] != DeliveryAddress
    ensures IssuesAt(CreateIssues(version, p), Some(CreateKeys[k])) == CreateField(version, p, CreateKeys[k]).issues
  {
    CreateFieldsWellFormed(version, p);
    IssuesAtUnderDeliveryRule(CreateFields(version, p), CreateParsed(version, p), k);
  }

  /** The same, by key. */
  lemma CreateIssuesAtKey(version: Version, p: Payload, key: Key)
    requires key in CreateKeys && key != DeliveryAddress
    ensures IssuesAt(CreateIssues(version, p), Some(key)) == CreateField(version, p, key).issues
  {
    var k :| 0 <= k < |CreateKeys| && CreateKeys[k] == key;
    CreateIssuesAt(version, p, k);
  }

  /** The create schema's checks of the keys whose rules are stated below. */
  lemma CreateFieldIsName(version: Version, p: Payload)
    ensures CreateField(version, p, FullName) == NameField(p.fullName, false)
  {
  }

  lemma CreateFieldIsPhone(version: Version, p: Payload)
    ensures CreateField(version, p, Phone) == PhoneField(version, p.phone, false)
  {
  }

  lemma CreateFieldIsDetails(version: Version, p: Payload)
    ensures CreateField(version, p, Details) == DetailsField(p.details, false)
  {
  }

  lemma CreateFieldIsDate(version: Version, p: Payload)
    ensures CreateField(version, p, DeliveryDate) == DeliveryDateField(p.deliveryDate, false)
  {
  }

  lemma CreateFieldIsOrderValue(version: Version, p: Payload)
    ensures CreateField(version, p, OrderValue) == OrderValueField(version, p.orderValue, false)
  {
  }

  /**
   * The phone is reported exactly when it is not a string the version's
   * phone rule accepts, with the form's message when it is a string.
   */
  lemma CreatePhoneRule(version: Version, p: Payload)
    ensures IssuesAt(CreateIssues(version, p), Some(Phone)) == [] <==> p.phone.Str? && PhoneAccepts(version, p.phone.s)
    ensures p.phone.Str? && !PhoneAccepts(version, p.phone.s) ==>
      IssuesAt(CreateIssues(version, p), Some(Phone)) == [Issue(Some(Phone), PhoneMsg)]
  {
    CreateIssuesAtKey(version, p, Phone);
    CreateFieldIsPhone(version, p);
  }

  /** The name needs three characters, with its own message. */
  lemma CreateNameRule(version: Version, p: Payload)
    ensures IssuesAt(CreateIssues(version, p), Some(FullName)) == [] <==> p.fullName.Str? && |p.fullName.s| >= 3
    ensures p.fullName.Str? && |p.fullName.s| < 3 ==>
      IssuesAt(CreateIssues(version, p), Some(FullName)) == [Issue(Some(FullName), NameMsg)]
  {
    CreateIssuesAtKey(version, p, FullName);
    CreateFieldIsName(version, p);
  }

  /** The details need ten characters, with their own message. */
  lemma CreateDetailsRule(version: Version, p: Payload)
    ensures IssuesAt(CreateIssues(version, p), Some(Details)) == [] <==> p.details.Str? && |p.details.s| >= 10
    ensures p.details.Str? && |p.details.s| < 10 ==>
      IssuesAt(CreateIssues(version, p), Some(Details)) == [Issue(Some(Details), DetailsMsg)]
  {
    CreateIssuesAtKey(version, p, Details);
    CreateFieldIsDetails(version, p);
  }

  /** The total is required, a string in the live version and a number in the other. */
  lemma CreateOrderValueRule(version: Version, p: Payload)
    ensures IssuesAt(CreateIssues(version, p), Some(OrderValue)) == [] <==> HasKind(p.orderValue, OrderValueKind(version))
    ensures p.orderValue == Undefined ==>
      IssuesAt(CreateIssues(version, p), Some(OrderValue)) == [Issue(Some(OrderValue), OrderValueRequiredMsg(version))]
  {
    CreateIssuesAtKey(version, p, OrderValue);
    CreateFieldIsOrderValue(version, p);
  }

  /**
   * When no key aborted, the address issue is reported exactly for a
   * delivery without a truthy address, whatever else failed; a pick-up never
   * gets it.
   */
  lemma CreateAddressRule(version: Version, p: Payload)
    requires !AnyAborted(CreateFields(version, p))
    ensures AddressIssue in CreateIssues(version, p) <==> p.deliveryType == Str("entrega") && !Truthy(p.deliveryAddress)
  {
    CreateAddressNotKeyed(version, p);
    RefinementIssue(CreateFields(version, p), DeliveryRule(CreateParsed(version, p)), AddressIssue);
    DeliveryRuleRaises(CreateParsed(version, p));
    CreateDeliveryKept(version, p);
  }

  /** No key of the create schema raises the address issue. */
  lemma CreateAddressNotKeyed(version: Version, p: Payload)
    requires !AnyAborted(CreateFields(version, p))
    ensures AddressIssue !in AllIssues(CreateFields(version, p))
  {
    var fs := CreateFields(version, p);
    CreateFieldsWellFormed(version, p);
    assert fs[4] == AddressField(p.deliveryAddress);
    NotKeyIssue(fs, AddressIssue, 4);
  }

  /** When no key aborted, the parsed delivery type and address are the payload's. */
  lemma CreateDeliveryKept(version: Version, p: Payload)
    requires !AnyAborted(CreateFields(version, p))
    ensures CreateParsed(version, p).deliveryType == p.deliveryType
    ensures CreateParsed(version, p).deliveryAddress == p.deliveryAddress
  {
    CreateTypeKept(version, p);
    CreateAddressKept(version, p);
  }

  lemma CreateTypeKept(version: Version, p: Payload)
    requires !AnyAborted(CreateFields(version, p))
    ensures CreateParsed(version, p).deliveryType == p.deliveryType
  {
    var f := CreateFields(version, p)[3];
    assert !f.aborted;
    assert f == CreateField(version, p, DeliveryType);
    assert f == DeliveryTypeField(p.deliveryType, false);
  }

  lemma CreateAddressKept(version: Version, p: Payload)
    requires !AnyAborted(CreateFields(version, p))
    ensures CreateParsed(version, p).deliveryAddress == p.deliveryAddress
  {
    var f := CreateFields(version, p)[4];
    assert !f.aborted;
    assert f == CreateField(version, p, DeliveryAddress);
    assert f == AddressField(p.deliveryAddress);
  }

  lemma UpdateFieldsWellFormed(version: Version, p: Payload)
    ensures AllSound(UpdateFields(version, p)) && DistinctKeys(UpdateFields(version, p))
  {
    var fs := UpdateFields(version, p);
    UpdateKeysDistinct();
    assert forall k | 0 <= k < |fs| :: fs[k].key == UpdateKeys[k];
  }

  lemma UpdateKeysDistinct()
    ensures forall j, k | 0 <= j < k < |UpdateKeys| :: UpdateKeys[j] != UpdateKeys[k]
  {
  }

  /**
   * What each key of `updateOrderSchema` demands on its own: absent, or of the
   * create schema's form. The keys are grouped as the order is: the customer,
   * the delivery, the payment, and the order's progress with its owner.
   */
  predicate UpdateKeysValid(version: Version, p: Payload) {
    UpdateCustomerValid(version, p) && UpdateDeliveryValid(p) && UpdatePaymentValid(version, p) && UpdateProgressValid(p)
  }

  predicate UpdateCustomerValid(version: Version, p: Payload) {
    (p.fullName == Undefined || (p.fullName.Str? && |p.fullName.s| >= 3))
    && (p.phone == Undefined || (p.phone.Str? && PhoneAccepts(version, p.phone.s)))
    && (p.details == Undefined || (p.details.Str? && |p.details.s| >= 10))
  }

  predicate UpdateDeliveryValid(p: Payload) {
    (p.deliveryType == Undefined || (p.deliveryType.Str? && p.deliveryType.s in OrderTypes.DeliveryTags))
    && (p.deliveryAddress == Undefined || p.deliveryAddress.Str?)
    && (p.deliveryDate == Undefined || p.deliveryDate == Date(true))
    && (p.deliveryTime == Undefined || p.deliveryTime.Str?)
  }

  predicate UpdatePaymentValid(version: Version, p: Payload) {
    (p.orderValue == Undefined || HasKind(p.orderValue, OrderValueKind(version)))
    && (p.paymentMethod == Undefined || (p.paymentMethod.Str? && p.paymentMethod.s in OrderTypes.PaymentTags))
    && (p.paid == Undefined || p.paid.Bool?)
  }

  predicate UpdateProgressValid(p: Payload) {
    (p.status == Undefined || (p.status.Str? && p.status.s in OrderTypes.StatusTags))
    && (p.cancellationReason == Undefined || p.cancellationReason.Str?)
    && (p.userId == Undefined || p.userId.Str?)
  }

  lemma UpdateKeyPasses(version: Version, p: Payload, key: Key)
    requires UpdateKeysValid(version, p)
    ensures UpdateField(version, p, key).issues == []
  {
    match key
    case FullName =>
    case Phone =>
    case Details =>
    case DeliveryType =>
    case DeliveryAddress =>
    case DeliveryDate =>
    case DeliveryTime =>
    case OrderValue =>
    case PaymentMethod =>
    case Paid =>
    case Status =>
    case CancellationReason =>
    case UserId =>
    case _ =>
  }

  lemma UpdateKeysPassSound(version: Version, p: Payload)
    requires forall k | 0 <= k < |UpdateKeys| :: UpdateField(version, p, UpdateKeys[k]).issues == []
    ensures UpdateKeysValid(version, p)
  {
    UpdateCustomerSound(version, p);
    UpdateDeliverySound(version, p);
    UpdatePaymentSound(version, p);
    UpdateProgressSound(version, p);
  }

  lemma UpdateCustomerSound(version: Version, p: Payload)
    requires forall k | 0 <= k < |UpdateKeys| :: UpdateField(version, p, UpdateKeys[k]).issues == []
    ensures UpdateCustomerValid(version, p)
  {
    assert UpdateField(version, p, UpdateKeys[0]).issues == [];
    assert UpdateField(version, p, UpdateKeys[1]).issues == [];
    assert UpdateField(version, p, UpdateKeys[2]).issues == [];
  }

  lemma UpdateDeliverySound(version: Version, p: Payload)
    requires forall k | 0 <= k < |UpdateKeys| :: UpdateField(version, p, UpdateKeys[k]).issues == []
    ensures UpdateDeliveryValid(p)
  {
    assert UpdateField(version, p, UpdateKeys[3]).issues == [];
    assert UpdateField(version, p, UpdateKeys[4]).issues == [];
    assert UpdateField(version, p, UpdateKeys[5]).issues == [];
    assert UpdateField(version, p, UpdateKeys[6]).issues == [];
  }

  lemma UpdatePaymentSound(version: Version, p: Payload)
    requires forall k | 0 <= k < |UpdateKeys| :: UpdateField(version, p, UpdateKeys[k]).issues == []
    ensures UpdatePaymentValid(version, p)
  {
    assert UpdateField(version, p, UpdateKeys[7]).issues == [];
    assert UpdateField(version, p, UpdateKeys[8]).issues == [];
    assert UpdateField(version, p, UpdateKeys[9]).issues == [];
  }

  lemma UpdateProgressSound(version: Version, p: Payload)
    requires forall k | 0 <= k < |UpdateKeys| :: UpdateField(version, p, UpdateKeys[k]).issues == []
    ensures UpdateProgressValid(p)
  {
    assert UpdateField(version, p, UpdateKeys[10]).issues == [];
    assert UpdateField(version, p, UpdateKeys[11]).issues == [];
    assert UpdateField(version, p, UpdateKeys[12]).issues == [];
  }

  lemma UpdateKeysPass(version: Version, p: Payload)
    ensures (forall k | 0 <= k < |UpdateKeys| :: UpdateField(version, p, UpdateKeys[k]).issues == [])
      <==> UpdateKeysValid(version, p)
  {
    if forall k | 0 <= k < |UpdateKeys| :: UpdateField(version, p, UpdateKeys[k]).issues == [] {
      UpdateKeysPassSound(version, p);
    }
    if UpdateKeysValid(version, p) {
      forall k | 0 <= k < |UpdateKeys| ensures UpdateField(version, p, UpdateKeys[k]).issues == [] {
        UpdateKeyPasses(version, p, UpdateKeys[k]);
      }
    }
  }

  /** A valid update parses to itself, its phone replaced by the parsed phone. */
  lemma UpdateParsedValue(version: Version, p: Payload)
    requires UpdateKeysValid(version, p)
    ensures UpdateParsed(version, p) == p.(phone := if p.phone.Str? then Str(PhoneImage(version, p.phone.s)) else p.phone)
  {
    var q := UpdateParsed(version, p);
    assert q.fullName == p.fullName && q.details == p.details;
    assert q.phone == if p.phone.Str? then Str(PhoneImage(version, p.phone.s)) else p.phone;
    assert q.deliveryType == p.deliveryType && q.deliveryAddress == p.deliveryAddress;
    assert q.deliveryDate == p.deliveryDate && q.deliveryTime == p.deliveryTime;
    assert q.orderValue == p.orderValue && q.paymentMethod == p.paymentMethod && q.paid == p.paid;
    assert q.status == p.status && q.cancellationReason == p.cancellationReason && q.userId == p.userId;
  }

  /**
   * `updateOrderSchema.safeParse` succeeds exactly on a payload every present
   * key of which is valid, that names an address whenever it sets delivery and
   * a reason whenever it cancels; the parsed update is the payload itself, its
   * phone parsed.
   */
  lemma SafeParseUpdateSpec(version: Version, p: Payload)
    ensures SafeParseUpdate(version, p).Success? <==>
      UpdateKeysValid(version, p)
      && !(p.deliveryType == Str("entrega") && !Truthy(p.deliveryAddress))
      && !(p.status == Str("Cancelado") && !Truthy(p.cancellationReason))
    ensures SafeParseUpdate(version, p).Success? ==>
      SafeParseUpdate(version, p).value == p.(phone := if p.phone.Str? then Str(PhoneImage(version, p.phone.s)) else p.phone)
  {
    UpdateIssuesEmpty(version, p);
    if UpdateKeysValid(version, p) {
      UpdateParsedValue(version, p);
    }
  }

  /** No issue at all exactly when every key passes and neither refinement fires. */
  lemma UpdateIssuesEmpty(version: Version, p: Payload)
    ensures UpdateIssues(version, p) == [] <==>
      UpdateKeysValid(version, p)
      && DeliveryRule(UpdateParsed(version, p)) == [] && CancelRule(UpdateParsed(version, p)) == []
  {
    var fs := UpdateFields(version, p);
    var refinement := DeliveryRule(UpdateParsed(version, p)) + CancelRule(UpdateParsed(version, p));
    UpdateFieldsWellFormed(version, p);
    assert UpdateIssues(version, p) == ObjectIssues(fs, refinement);
    ObjectIssuesEmpty(fs, refinement);
    assert refinement == [] <==> DeliveryRule(UpdateParsed(version, p)) == [] && CancelRule(UpdateParsed(version, p)) == [];
    UpdateFieldsPass(version, p);
  }

  lemma UpdateFieldsPass(version: Version, p: Payload)
    ensures (forall k | 0 <= k < |UpdateFields(version, p)| :: UpdateFields(version, p)[k].issues == [])
      <==> UpdateKeysValid(version, p)
  {
    var fs := UpdateFields(version, p);
    UpdateKeysPass(version, p);
    assert (forall k | 0 <= k < |fs| :: fs[k].issues == [])
       <==> (forall k | 0 <= k < |UpdateKeys| :: UpdateField(version, p, UpdateKeys[k]).issues == []);
  }

  /**
   * An update that sets no key, or only the address to some string (clearing
   * it, say), passes in both versions and parses to itself.
   */
  lemma UpdatePartialPasses(version: Version, p: Payload)
    requires p.(deliveryAddress := Undefined) == EmptyPayload
    requires p.deliveryAddress == Undefined || p.deliveryAddress.Str?
    ensures SafeParseUpdate(version, p) == Success(p)
  {
    assert UpdateKeysValid(version, p);
    SafeParseUpdateSpec(version, p);
  }

  /**
   * When no key aborted, the cancellation issue is reported exactly for a
   * cancellation without a truthy reason, whatever else failed.
   */
  lemma UpdateCancelRule(version: Version, p: Payload)
    requires !AnyAborted(UpdateFields(version, p))
    ensures CancelIssue in UpdateIssues(version, p) <==> p.status == Str("Cancelado") && !Truthy(p.cancellationReason)
  {
    UpdateFieldsWellFormed(version, p);
    UnkeyedNotKeyIssue(UpdateFields(version, p), CancelIssue);
    UpdateRefinementIssue(version, p, CancelIssue);
    UpdateRulesRaise(UpdateParsed(version, p));
    UpdateRefinementKept(version, p);
  }

  /** The same address rule as on creation, for an update that sets delivery. */
  lemma UpdateAddressRule(version: Version, p: Payload)
    requires !AnyAborted(UpdateFields(version, p))
    ensures AddressIssue in UpdateIssues(version, p) <==> p.deliveryType == Str("entrega") && !Truthy(p.deliveryAddress)
  {
    UpdateAddressNotKeyed(version, p);
    UpdateRefinementIssue(version, p, AddressIssue);
    UpdateRulesRaise(UpdateParsed(version, p));
    UpdateRefinementKept(version, p);
  }

  /** No key of the update schema raises the address issue. */
  lemma UpdateAddressNotKeyed(version: Version, p: Payload)
    requires !AnyAborted(UpdateFields(version, p))
    ensures AddressIssue !in AllIssues(UpdateFields(version, p))
  {
    var fs := UpdateFields(version, p);
    UpdateFieldsWellFormed(version, p);
    assert fs[4] == AddressField(p.deliveryAddress);
    NotKeyIssue(fs, AddressIssue, 4);
  }

  /** When no key aborted, an issue no key raised is reported exactly when one of the two rules raises it. */
  lemma UpdateRefinementIssue(version: Version, p: Payload, i: Issue)
    requires !AnyAborted(UpdateFields(version, p)) && i !in AllIssues(UpdateFields(version, p))
    ensures i in UpdateIssues(version, p) <==> i in DeliveryRule(UpdateParsed(version, p)) + CancelRule(UpdateParsed(version, p))
  {
    RefinementIssue(UpdateFields(version, p), DeliveryRule(UpdateParsed(version, p)) + CancelRule(UpdateParsed(version, p)), i);
  }

  /** When no key aborted, the refinements see the payload's own delivery type, address, status and reason. */
  lemma UpdateRefinementKept(version: Version, p: Payload)
    requires !AnyAborted(UpdateFields(version, p))
    ensures UpdateParsed(version, p).deliveryType == p.deliveryType
    ensures UpdateParsed(version, p).deliveryAddress == p.deliveryAddress
    ensures UpdateParsed(version, p).status == p.status
    ensures UpdateParsed(version, p).cancellationReason == p.cancellationReason
  {
    UpdateTypeKept(version, p);
    UpdateAddressKept(version, p);
    UpdateStatusKept(version, p);
    UpdateReasonKept(version, p);
  }

  lemma UpdateTypeKept(version: Version, p: Payload)
    requires !AnyAborted(UpdateFields(version, p))
    ensures UpdateParsed(version, p).deliveryType == p.deliveryType
  {
    var f := UpdateFields(version, p)[3];
    assert !f.aborted;
    assert f == UpdateField(version, p, DeliveryType);
    assert f == DeliveryTypeField(p.deliveryType, true);
  }

  lemma UpdateAddressKept(version: Version, p: Payload)
    requires !AnyAborted(UpdateFields(version, p))
    ensures UpdateParsed(version, p).deliveryAddress == p.deliveryAddress
  {
    var f := UpdateFields(version, p)[4];
    assert !f.aborted;
    assert f == UpdateField(version, p, DeliveryAddress);
    assert f == AddressField(p.deliveryAddress);
  }

  lemma UpdateStatusKept(version: Version, p: Payload)
    requires !AnyAborted(UpdateFields(version, p))
    ensures UpdateParsed(version, p).status == p.status
  {
    var f := UpdateFields(version, p)[10];
    assert !f.aborted;
    assert f == UpdateField(version, p, Status);
    assert f == StatusField(p.status);
  }

  lemma UpdateReasonKept(version: Version, p: Payload)
    requires !AnyAborted(UpdateFields(version, p))
    ensures UpdateParsed(version, p).cancellationReason == p.cancellationReason
  {
    var f := UpdateFields(version, p)[11];
    assert !f.aborted;
    assert f == UpdateField(version, p, CancellationReason);
    assert f == ReasonField(p.cancellationReason);
  }

  /** Every phone the pattern accepts also passes the digit-count rule of the other version. */
  lemma PatternPhoneHasDigitCount(s: string)
    ensures PhoneAccepts(Live, s) ==> PhoneAccepts(Api, s)
  {
    if PhonePattern.Matches(s) {
      PhonePattern.MatchesDigitCount(s);
    }
  }

  /**
   * The converse fails: the digit-count rule ignores every non-digit, the
   * pattern does not, so a letter in front of ten or eleven digits passes
   * only the first.
   */
  lemma DigitCountAcceptsMore(c: char, d: string)
    requires !IsDigit(c) && c != '(' && AllDigits(d) && 10 <= |d| <= 11
    ensures PhoneAccepts(Api, [c] + d) && !PhoneAccepts(Live, [c] + d)
  {
    DigitsAppend([c], d);
    DigitsOfNonDigits([c]);
    DigitsOfDigits(d);
  }
}
