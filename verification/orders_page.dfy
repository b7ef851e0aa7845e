/**
 * The order list page: the list shown, the filter text typed, and the handlers
 * that replace an order by the one the service returns after a status,
 * payment or paid change, or replace the whole list by a filter's result.
 * The service's answers are parameters.
 */
module OrdersPage {
  import opened Wrappers
  import opened OrderTypes

  /**
   * `list.map(p => p.id === id ? updated : p)`: every entry with the id is
   * replaced, every other entry stays where it is.
   */
  function ReplaceById(list: seq<Order>, id: string, updated: Order): (r: seq<Order>)
    ensures |r| == |list|
    ensures forall i | 0 <= i < |list| && list[i].id == id :: r[i] == updated
    ensures forall i | 0 <= i < |list| && list[i].id != id :: r[i] == list[i]
  {
    if list == [] then []
    else [if list[0].id == id then updated else list[0]] + ReplaceById(list[1..], id, updated)
  }

  /** A list without the id is left as it is. */
  lemma ReplaceByIdAbsent(list: seq<Order>, id: string, updated: Order)
    requires forall i | 0 <= i < |list| :: list[i].id != id
    ensures ReplaceById(list, id, updated) == list
  {
  }

  /** Replacing twice with the same order is replacing once. */
  lemma ReplaceByIdIdempotent(list: seq<Order>, id: string, updated: Order)
    ensures ReplaceById(ReplaceById(list, id, updated), id, updated) == ReplaceById(list, id, updated)
  {
    var once := ReplaceById(list, id, updated);
    var twice := ReplaceById(once, id, updated);
    forall i | 0 <= i < |list| ensures twice[i] == once[i] {
      if list[i].id != id && once[i].id == id {
        assert false;
      }
    }
  }

  /** An updated order with the same id keeps every entry's id where it was. */
  lemma ReplaceByIdKeepsIds(list: seq<Order>, id: string, updated: Order)
    requires updated.id == id
    ensures forall i | 0 <= i < |list| :: ReplaceById(list, id, updated)[i].id == list[i].id
  {
  }

  /** The page's state. */
  class OrdersView {
    var orders: seq<Order>
    var filter: string

    /** The page loads every order from the service (`initial`) and starts with an empty filter. */
    constructor (initial: seq<Order>)
      ensures orders == initial && filter == ""
    {
      orders := initial;
      filter := "";
    }

    /** `handleFiltroChange`: the filter text follows the input. */
    method SetFilter(text: string)
      modifies this
      ensures filter == text && orders == old(orders)
    {
      filter := text;
    }

    /**
     * `aplicarFiltro`: the filter text is sent to the service as the term
     * (`term`), and its answer `result` replaces the whole list.
     */
    method ApplyFilter(result: seq<Order>) returns (term: string)
      modifies this
      ensures term == filter && filter == old(filter)
      ensures orders == result
    {
      term := filter;
      orders := result;
    }

    /**
     * What the three change handlers do with the service's answer: an order
     * replaces every entry with the id; no order leaves the list unchanged.
     */
    method ApplyUpdate(id: string, returned: Option<Order>)
      modifies this
      ensures orders == if returned.Some? then ReplaceById(old(orders), id, returned.value) else old(orders)
      ensures filter == old(filter)
    {
      if returned.Some? {
        orders := ReplaceById(orders, id, returned.value);
      }
    }

    /** `handleStatusChange`: the service is asked to set `status` on `id` and answers `returned`. */
    method HandleStatusChange(id: string, status: OrderStatus, returned: Option<Order>)
      modifies this
      ensures orders == if returned.Some? then ReplaceById(old(orders), id, returned.value) else old(orders)
      ensures filter == old(filter)
    {
      ApplyUpdate(id, returned);
    }

    /** `handleFormaPagamentoChange`: the service is asked to set `payment` on `id` and answers `returned`. */
    method HandlePaymentChange(id: string, payment: PaymentMethod, returned: Option<Order>)
      modifies this
      ensures orders == if returned.Some? then ReplaceById(old(orders), id, returned.value) else old(orders)
      ensures filter == old(filter)
    {
      ApplyUpdate(id, returned);
    }

    /** `handlePagoToggle`: the service is asked to flip `paid` on `id` and answers `returned`. */
    method HandlePaidToggle(id: string, returned: Option<Order>)
      modifies this
      ensures orders == if returned.Some? then ReplaceById(old(orders), id, returned.value) else old(orders)
      ensures filter == old(filter)
    {
      ApplyUpdate(id, returned);
    }
  }

  /** The page's badge classes of one colour family: the background and the text colour. */
  function ShortPalette(color: string): string {
    "bg-" + color + "-100 text-" + color + "-800"
  }

  /**
   * The page's own `getStatusColor`: the pair of its status's family, gray for
   * anything else. The page keeps this shorter copy of the colour table and
   * does not call the shared `getStatusColor` (`StatusColor`); the two tables
   * agree on the families, as `PageStatusColorIsPrefix` shows.
   */
  function PageStatusColor(status: string): (r: string)
    ensures status in StatusTags <==> r != ShortPalette("gray")
  {
    ShortPaletteInjective(ColorFamily(status), "gray");
    ShortPalette(ColorFamily(status))
  }

  /** Different families, different pairs. */
  lemma ShortPaletteInjective(a: string, b: string)
    ensures ShortPalette(a) == ShortPalette(b) ==> a == b
  {
    if ShortPalette(a) == ShortPalette(b) {
      assert |ShortPalette(a)| == 17 + 2 * |a| && |ShortPalette(b)| == 17 + 2 * |b|;
      assert ShortPalette(a)[3..3 + |a|] == a;
      assert ShortPalette(b)[3..3 + |b|] == b;
    }
  }

  /** Each status has its own pair, and none is the gray one. */
  lemma PageStatusColorInjective(a: OrderStatus, b: OrderStatus)
    ensures a != b ==> PageStatusColor(StatusTag(a)) != PageStatusColor(StatusTag(b))
    ensures PageStatusColor(StatusTag(a)) != ShortPalette("gray")
  {
    ShortPaletteInjective(ColorFamily(StatusTag(a)), ColorFamily(StatusTag(b)));
    StatusTagsExact(a);
  }

  /** The page's pair for a status is how the shared colour classes of that status begin. */
  lemma PageStatusColorIsPrefix(status: string)
    ensures PageStatusColor(status) <= StatusColor(status)
  {
    ShortPaletteIsPrefix(ColorFamily(status));
  }

  /** For any family, the page's pair is how the shared classes begin. */
  lemma ShortPaletteIsPrefix(c: string)
    ensures ShortPalette(c) <= Palette(c)
  {
    assert Palette(c) == ShortPalette(c) + (" focus:bg-" + c + "-200 focus:text-" + c + "-900 focus:ring-" + c + "-800");
  }
}
