/**
 * The order data model: order status and payment method enumerations with
 * their string tags, the delivery type, the `Order` record, and the badge
 * colour of each status.
 */
module OrderTypes {
  import opened Wrappers

  datatype OrderStatus = NovoPedido | EmPreparo | Finalizado | Entregue | Cancelado

  function StatusTag(s: OrderStatus): string {
    match s
    case NovoPedido => "Novo pedido"
    case EmPreparo => "Em preparo"
    case Finalizado => "Finalizado"
    case Entregue => "Entregue"
    case Cancelado => "Cancelado"
  }

  /** The five status tags, in declaration order. */
  const StatusTags: seq<string> := ["Novo pedido", "Em preparo", "Finalizado", "Entregue", "Cancelado"]

  /** The status a tag denotes, if any. */
  function ParseStatus(tag: string): (r: Option<OrderStatus>)
    ensures r.Some? ==> StatusTag(r.value) == tag
    ensures r.None? ==> tag !in StatusTags
  {
    if tag == "Novo pedido" then Some(NovoPedido)
    else if tag == "Em preparo" then Some(EmPreparo)
    else if tag == "Finalizado" then Some(Finalizado)
    else if tag == "Entregue" then Some(Entregue)
    else if tag == "Cancelado" then Some(Cancelado)
    else None
  }

  /** Exactly five statuses, each with its own tag: tags and statuses correspond one to one. */
  lemma StatusTagsExact(s: OrderStatus)
    ensures ParseStatus(StatusTag(s)) == Some(s)
    ensures StatusTag(s) in StatusTags
    ensures |StatusTags| == 5
    ensures forall j, k | 0 <= j < k < 5 :: StatusTags[j] != StatusTags[k]
  {
  }

  datatype PaymentMethod = PIX | Dinheiro | Cartao | NaoDefinido

  function PaymentTag(m: PaymentMethod): string {
    match m
    case PIX => "PIX"
    case Dinheiro => "Dinheiro"
    case Cartao => "Cartão"
    case NaoDefinido => "Não definido"
  }

  /** The four payment method tags, in declaration order. */
  const PaymentTags: seq<string> := ["PIX", "Dinheiro", "Cartão", "Não definido"]

  function ParsePayment(tag: string): (r: Option<PaymentMethod>)
    ensures r.Some? ==> PaymentTag(r.value) == tag
    ensures r.None? ==> tag !in PaymentTags
  {
    if tag == "PIX" then Some(PIX)
    else if tag == "Dinheiro" then Some(Dinheiro)
    else if tag == "Cartão" then Some(Cartao)
    else if tag == "Não definido" then Some(NaoDefinido)
    else None
  }

  /** Exactly four payment methods, each with its own tag. */
  lemma PaymentTagsExact(m: PaymentMethod)
    ensures ParsePayment(PaymentTag(m)) == Some(m)
    ensures PaymentTag(m) in PaymentTags
    ensures |PaymentTags| == 4
    ensures forall j, k | 0 <= j < k < 4 :: PaymentTags[j] != PaymentTags[k]
  {
  }

  /** `"retirada" | "entrega"`: pick-up or delivery. */
  datatype DeliveryType = Retirada | Entrega

  function DeliveryTag(d: DeliveryType): string {
    match d
    case Retirada => "retirada"
    case Entrega => "entrega"
  }

  const DeliveryTags: seq<string> := ["retirada", "entrega"]

  /** `string | null`, possibly absent. */
  datatype Nullable = Absent | Null | Text(text: string)

  datatype Order = Order(
    id: string,
    createdAt: string,
    fullName: string,
    phone: string,
    details: string,
    deliveryType: DeliveryType,
    deliveryAddress: Option<string>,
    deliveryDate: string,
    deliveryTime: string,
    orderValue: int,
    status: OrderStatus,
    cancellationReason: Nullable,
    paymentMethod: PaymentMethod,
    paid: bool)

  /** The badge classes of one colour family. */
  function Palette(color: string): string {
    "bg-" + color + "-100 text-" + color + "-800 focus:bg-" + color + "-200 focus:text-"
    + color + "-900 focus:ring-" + color + "-800"
  }

  /** The colour family of each status; gray for any other value. */
  function ColorFamily(tag: string): (family: string)
    ensures tag in StatusTags <==> family != "gray"
  {
    match ParseStatus(tag)
    case Some(NovoPedido) => "blue"
    case Some(EmPreparo) => "yellow"
    case Some(Finalizado) => "green"
    case Some(Entregue) => "purple"
    case Some(Cancelado) => "red"
    case None => "gray"
  }

  /**
   * `getStatusColor`: the classes of the status's own colour family, gray for
   * anything else. The argument is the status's runtime tag, so values outside
   * the enumeration reach the default branch. The source spells out the six
   * class strings; each is `Palette` of its family.
   */
  function StatusColor(status: string): (r: string)
    ensures status in StatusTags <==> r != Palette("gray")
  {
    PaletteInjective(ColorFamily(status), "gray");
    Palette(ColorFamily(status))
  }

  /** The colour family can be read back from the palette: different families, different classes. */
  lemma PaletteInjective(a: string, b: string)
    ensures Palette(a) == Palette(b) ==> a == b
  {
    if Palette(a) == Palette(b) {
      assert |Palette(a)| == 63 + 5 * |a| && |Palette(b)| == 63 + 5 * |b|;
      assert Palette(a)[3..3 + |a|] == a;
      assert Palette(b)[3..3 + |b|] == b;
    }
  }

  /**
   * Each status has its own colour, and none is the gray reserved for
   * unknown values: the mapping restricted to the enumeration is injective.
   */
  lemma StatusColorInjective(a: OrderStatus, b: OrderStatus)
    ensures a != b ==> StatusColor(StatusTag(a)) != StatusColor(StatusTag(b))
    ensures StatusColor(StatusTag(a)) != Palette("gray")
  {
    PaletteInjective(ColorFamily(StatusTag(a)), ColorFamily(StatusTag(b)));
    PaletteInjective(ColorFamily(StatusTag(a)), "gray");
  }

  /** Any value outside the enumeration gets the gray classes. */
  lemma StatusColorDefault(tag: string)
    requires tag !in StatusTags
    ensures StatusColor(tag) == Palette("gray")
  {
  }
}
