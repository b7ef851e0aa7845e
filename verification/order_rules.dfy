/**
 * What the two versions of the order schemas share word for word: the issue
 * messages and the cross-field refinements (an address for a delivery, a
 * reason for a cancellation).
 */
module OrderRules {
  import opened Wrappers
  import opened Json
  import opened Zod

  const NameMsg: Message := Text("Nome deve ter pelo menos 3 caracteres.")
  const PhoneMsg: Message := Text("Número de WhatsApp inválido.")
  const DetailsMsg: Message := Text("Detalhes devem ter pelo menos 10 caracteres.")
  const DateMsg: Message := Text("A data de entrega é obrigatória.")
  const TimeMsg: Message := Text("A hora de entrega é obrigatória.")
  const ValueMsg: Message := Text("O valor total é obrigatório.")
  const UserMsg: Message := Text("O ID do usuário é obrigatório.")
  const IdMsg: Message := Text("O ID do pedido é obrigatório.")
  const AddressMsg: Message := Text("O endereço de entrega é obrigatório")
  const CancelMsg: Message := Text("O motivo do cancelamento é obrigatório")

  /** The issue a delivery without an address raises, at `deliveryAddress`. */
  const AddressIssue: Issue := Issue(Some(DeliveryAddress), AddressMsg)

  /** The issue a cancellation without a reason raises, with no path. */
  const CancelIssue: Issue := Issue(None, CancelMsg)

  /** `deliveryType === "entrega" && !deliveryAddress` on the parsed object. */
  function DeliveryRule(parsed: Payload): (r: seq<Issue>)
    ensures r == [] || r == [AddressIssue]
  {
    if parsed.deliveryType == Str("entrega") && !Truthy(parsed.deliveryAddress) then [AddressIssue] else []
  }

  /** `status === OrderStatus.Cancelado && !cancellationReason` on the parsed object. */
  function CancelRule(parsed: Payload): (r: seq<Issue>)
    ensures r == [] || r == [CancelIssue]
  {
    if parsed.status == Str("Cancelado") && !Truthy(parsed.cancellationReason) then [CancelIssue] else []
  }

  /** The address issue is raised exactly for a delivery without a truthy address. */
  lemma DeliveryRuleRaises(parsed: Payload)
    ensures AddressIssue in DeliveryRule(parsed) <==> parsed.deliveryType == Str("entrega") && !Truthy(parsed.deliveryAddress)
  {
  }

  /** Under the address rule, the issues about any key but the address are that key's schema's own. */
  lemma IssuesAtUnderDeliveryRule(fs: seq<Field>, parsed: Payload, k: nat)
    requires AllSound(fs) && DistinctKeys(fs) && k < |fs| && fs[k].key != DeliveryAddress
    ensures IssuesAt(ObjectIssues(fs, DeliveryRule(parsed)), Some(fs[k].key)) == fs[k].issues
  {
    ObjectIssuesAt(fs, DeliveryRule(parsed), k);
  }

  /** Side by side, each of the two rules raises its issue on its own condition. */
  lemma UpdateRulesRaise(parsed: Payload)
    ensures AddressIssue in DeliveryRule(parsed) + CancelRule(parsed)
      <==> parsed.deliveryType == Str("entrega") && !Truthy(parsed.deliveryAddress)
    ensures CancelIssue in DeliveryRule(parsed) + CancelRule(parsed)
      <==> parsed.status == Str("Cancelado") && !Truthy(parsed.cancellationReason)
  {
    assert AddressIssue != CancelIssue;
  }

  /** `getOrderByIdSchema`: `id` must be a string, any string. */
  function GetByIdIssues(id: Value): (r: seq<Issue>)
    ensures r == [] <==> id.Str?
  {
    Primitive(Id, id, StringKind, IdMsg, false).issues
  }

  /** `filterOrderSchema`: `term` is an optional string. */
  function FilterIssues(term: Value): (r: seq<Issue>)
    ensures r == [] <==> term.Str? || term == Undefined
  {
    Primitive(Term, term, StringKind, RequiredMsg, true).issues
  }

  /** The lookup schema accepts every string id, the empty one included; a missing id gets its message. */
  lemma GetByIdAcceptsEmpty()
    ensures GetByIdIssues(Str("")) == []
    ensures GetByIdIssues(Undefined) == [Issue(Some(Id), IdMsg)]
  {
  }
}
