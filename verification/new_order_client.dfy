/**
 * The new-order form that is in use: its default values, the rewriting of the
 * typed money amount into the text handed to `parseFloat`, and the submit
 * handler, which either flags a missing delivery address or sends the order
 * and then navigates to the order list.
 */
module NewOrderClient {
  import opened Wrappers
  import opened Json
  import opened Strings
  import opened Zod
  import OrderRules
  import OrderSchemas
  import OrderTypes

  /**
   * `s.replace(/[^\d,]/g, "").replace(",", ".")`: keep the digits and commas,
   * then turn the first comma into the decimal point.
   */
  function NormalizeOrderValue(s: string): (r: string)
  {
    ReplaceFirst(DigitsAndCommas(s), ",", ".")
  }

  /** The normalised text has exactly the digits of the typed amount. */
  lemma NormalizeKeepsDigits(s: string)
    ensures Digits(NormalizeOrderValue(s)) == Digits(s)
  {
    ReplaceFirstCharDigits(DigitsAndCommas(s), ',', '.');
    DigitsOfDigitsAndCommas(s);
  }

  /** Without a comma the normalised text is the bare digit string. */
  lemma NormalizeNoComma(s: string)
    requires ',' !in s
    ensures NormalizeOrderValue(s) == Digits(s)
  {
    DigitsAndCommasNoComma(s);
    DigitsHaveNo(Digits(s), ',');
    ReplaceFirstCharAbsent(Digits(s), ',', ".");
  }

  /**
   * Everything before the first comma is reduced to its digits, the comma
   * becomes the decimal point, and only the digits and commas after it are kept.
   */
  lemma NormalizeFirstComma(before: string, after: string)
    requires ',' !in before
    ensures NormalizeOrderValue(before + "," + after) == Digits(before) + "." + DigitsAndCommas(after)
  {
    var d, t := Digits(before), DigitsAndCommas(after);
    DigitsAndCommasAppend(before + ",", after);
    DigitsAndCommasAppend(before, ",");
    DigitsAndCommasNoComma(before);
    assert DigitsAndCommas(",") == ",";
    assert DigitsAndCommas(before + "," + after) == d + [','] + t;
    DigitsHaveNo(d, ',');
    ReplaceFirstChar(d, ',', t, ".");
  }

  /**
   * With exactly one comma the result is the integer part's digits, a point,
   * and the cents' digits: thousands separators of any number are dropped.
   */
  lemma NormalizeOneComma(before: string, after: string)
    requires ',' !in before && ',' !in after
    ensures NormalizeOrderValue(before + "," + after) == Digits(before) + "." + Digits(after)
  {
    NormalizeFirstComma(before, after);
    DigitsAndCommasNoComma(after);
  }

  /**
   * An amount written with an ASCII space after "R$", as the form's default
   * value is, then the whole part, a comma and the cents, becomes "whole.cents".
   */
  lemma NormalizeMasked(whole: string, cents: string)
    requires AllDigits(whole) && AllDigits(cents)
    ensures NormalizeOrderValue("R$ " + whole + "," + cents) == whole + "." + cents
  {
    MaskedWhole(whole);
    DigitsHaveNo(cents, ',');
    NormalizeOneComma("R$ " + whole, cents);
    DigitsOfDigits(cents);
  }

  /** The whole part "R$ whole" has no comma and just the digits of whole. */
  lemma MaskedWhole(whole: string)
    requires AllDigits(whole)
    ensures ',' !in "R$ " + whole
    ensures Digits("R$ " + whole) == whole
  {
    DigitsHaveNo(whole, ',');
    DigitsAppend("R$ ", whole);
    DigitsOfNonDigits("R$ ");
    DigitsOfDigits(whole);
  }

  /**
   * With thousands separators, "R$ 1.234,56" say, every separator is dropped:
   * the result is the whole part's digits, a point and the cents.
   */
  lemma NormalizeGrouped(head: string, groups: string, cents: string)
    requires AllDigits(head) && AllDigits(groups) && AllDigits(cents)
    ensures NormalizeOrderValue("R$ " + head + "." + groups + "," + cents) == head + groups + "." + cents
  {
    var whole := "R$ " + head + "." + groups;
    GroupedWhole(head, groups);
    DigitsHaveNo(cents, ',');
    assert "R$ " + head + "." + groups + "," + cents == whole + "," + cents;
    NormalizeOneComma(whole, cents);
    DigitsOfDigits(cents);
  }

  /** The whole part "R$ head.groups" has no comma and the digits of head and groups. */
  lemma GroupedWhole(head: string, groups: string)
    requires AllDigits(head) && AllDigits(groups)
    ensures ',' !in "R$ " + head + "." + groups
    ensures Digits("R$ " + head + "." + groups) == head + groups
  {
    DigitsBetweenSeparators("R$ ", head, ".", groups);
  }

  /** Separators without digits around two digit strings leave just those digits. */
  lemma DigitsBetweenSeparators(prefix: string, head: string, sep: string, groups: string)
    requires AllDigits(head) && AllDigits(groups)
    requires forall i | 0 <= i < |prefix| :: !IsDigit(prefix[i])
    requires forall i | 0 <= i < |sep| :: !IsDigit(sep[i])
    ensures Digits(prefix + head + sep + groups) == head + groups
  {
    var a := prefix + head;
    var b := a + sep;
    DigitsOfNonDigits(prefix);
    DigitsOfDigits(head);
    DigitsAppend(prefix, head);
    assert Digits(a) == head;
    DigitsOfNonDigits(sep);
    DigitsAppend(a, sep);
    assert Digits(b) == head;
    DigitsOfDigits(groups);
    DigitsAppend(b, groups);
  }

  /**
   * The symbol and the no-break space (U+00A0) that the "pt-BR" currency
   * format puts before a "BRL" amount.
   */
  const CurrencyPrefix: string := "R$\U{00A0}"

  /** The "pt-BR" grouping of a whole part's digits: a "." before each group of three from the right. */
  function GroupThousands(s: string): (r: string)
    requires AllDigits(s)
    ensures forall i | 0 <= i < |r| :: IsDigit(r[i]) || r[i] == '.'
    ensures Digits(r) == s
    decreases |s|
  {
    if |s| <= 3 then
      DigitsOfDigits(s);
      s
    else
      var head, tail := s[..|s| - 3], s[|s| - 3..];
      var r := GroupThousands(head) + "." + tail;
      DigitsAppend(GroupThousands(head) + ".", tail);
      DigitsAppend(GroupThousands(head), ".");
      DigitsOfNonDigits(".");
      DigitsOfDigits(tail);
      assert head + tail == s;
      r
  }

  /** `Number(s)` for a string of ASCII digits: its decimal value, 0 for "". */
  function DigitsValue(s: string): (n: nat)
    requires AllDigits(s)
    decreases |s|
  {
    if s == [] then 0 else DigitsValue(s[..|s| - 1]) * 10 + (s[|s| - 1] as int - '0' as int)
  }

  /** The two-digit cents of an amount held in cents. */
  function Cents(amount: nat): (r: string)
    ensures |r| == 2 && AllDigits(r)
  {
    [DigitChar(amount % 100 / 10), DigitChar(amount % 10)]
  }

  /**
   * `new Intl.NumberFormat("pt-BR", {style: "currency", currency: "BRL"}).format(amount / 100)`
   * for an amount held in cents: the prefix, the grouped whole part, a comma and two cents digits.
   */
  function FormatCurrency(amount: nat): (r: string)
  {
    CurrencyPrefix + GroupThousands(NatToString(amount / 100)) + "," + Cents(amount)
  }

  /**
   * The amount field's `onChange`: the typed text's digits, read as a number
   * of cents and formatted as currency, become the field's new value.
   */
  function AmountInput(typed: string): (r: string)
  {
    FormatCurrency(DigitsValue(Digits(typed)))
  }

  /** The prefix holds no digit, no comma and no ASCII space. */
  lemma CurrencyPrefixChars()
    ensures forall i | 0 <= i < |CurrencyPrefix| :: !IsDigit(CurrencyPrefix[i])
    ensures ',' !in CurrencyPrefix && '.' !in CurrencyPrefix && ' ' !in CurrencyPrefix
  {
  }

  /**
   * A formatted amount, the prefix then a whole part without a comma, a comma
   * and digits, becomes the whole part's digits, a point and those digits.
   */
  lemma NormalizeFormatted(whole: string, cents: string)
    requires ',' !in whole && AllDigits(cents)
    ensures NormalizeOrderValue(CurrencyPrefix + whole + "," + cents) == Digits(whole) + "." + cents
  {
    FormattedWhole(whole);
    NormalizeOneComma(CurrencyPrefix + whole, cents);
    DigitsOfDigits(cents);
  }

  /** The prefix followed by a whole part without a comma has no comma and the whole part's digits. */
  lemma FormattedWhole(whole: string)
    requires ',' !in whole
    ensures ',' !in CurrencyPrefix + whole
    ensures Digits(CurrencyPrefix + whole) == Digits(whole)
  {
    CurrencyPrefixChars();
    DigitsAppend(CurrencyPrefix, whole);
    DigitsOfNonDigits(CurrencyPrefix);
  }

  /**
   * Whatever is typed, the live form sends the typed amount's whole part, a
   * point and its two cents digits: the number of cents the field shows.
   */
  lemma NormalizeAmountInput(typed: string)
    ensures var amount := DigitsValue(Digits(typed));
      NormalizeOrderValue(AmountInput(typed)) == NatToString(amount / 100) + "." + Cents(amount)
  {
    var amount := DigitsValue(Digits(typed));
    var whole := GroupThousands(NatToString(amount / 100));
    NormalizeFormatted(whole, Cents(amount));
  }

  /** The default "R$ 0,00" becomes "0.00". */
  lemma NormalizeDefault()
    ensures NormalizeOrderValue("R$ 0,00") == "0.00"
  {
    assert "R$ 0,00" == "R$ " + "0" + "," + "00";
    NormalizeMasked("0", "00");
    assert "0" + "." + "00" == "0.00";
  }

  /** The form's default values; the delivery date has none. */
  const Defaults: Payload := EmptyPayload.(
    userId := Str("67b932c6bcc4e92a3fe5cf25"),
    fullName := Str(""),
    phone := Str(""),
    details := Str(""),
    deliveryType := Str("retirada"),
    deliveryAddress := Str(""),
    orderValue := Str("R$ 0,00"),
    deliveryTime := Str(""),
    paymentMethod := Str(OrderTypes.PaymentTag(OrderTypes.NaoDefinido)))

  /**
   * The defaults are a pick-up order paid by an undecided method, with a zero
   * total; they do not pass the form's schema: the empty name, the empty
   * phone, the empty details and the missing delivery date are each reported.
   */
  lemma DefaultsRejected()
    ensures Defaults.deliveryType == Str(OrderTypes.DeliveryTag(OrderTypes.Retirada))
    ensures OrderTypes.ParsePayment(Defaults.paymentMethod.s) == Some(OrderTypes.NaoDefinido)
    ensures NormalizeOrderValue(Defaults.orderValue.s) == "0.00"
    ensures OrderSchemas.SafeParseCreate(OrderSchemas.Live, Defaults).Failure?
    ensures DefaultIssuesAt(FullName) == [Issue(Some(FullName), OrderRules.NameMsg)]
    ensures DefaultIssuesAt(Phone) == [Issue(Some(Phone), OrderRules.PhoneMsg)]
    ensures DefaultIssuesAt(Details) == [Issue(Some(Details), OrderRules.DetailsMsg)]
    ensures DefaultIssuesAt(DeliveryDate) == [Issue(Some(DeliveryDate), OrderRules.DateMsg)]
  {
    NormalizeDefault();
    OrderTypes.PaymentTagsExact(OrderTypes.NaoDefinido);
    OrderSchemas.CreateNameRule(OrderSchemas.Live, Defaults);
    OrderSchemas.CreatePhoneRule(OrderSchemas.Live, Defaults);
    OrderSchemas.CreateDetailsRule(OrderSchemas.Live, Defaults);
    OrderSchemas.CreateIssuesAtKey(OrderSchemas.Live, Defaults, DeliveryDate);
    OrderSchemas.CreateFieldIsDate(OrderSchemas.Live, Defaults);
  }

  /** The issues the live create schema reports at `key` for the defaults. */
  function DefaultIssuesAt(key: Key): seq<Issue> {
    IssuesAt(OrderSchemas.CreateIssues(OrderSchemas.Live, Defaults), Some(key))
  }

  /** The submit guard: a delivery without an address. */
  predicate AddressMissing(values: Payload) {
    values.deliveryType == Str("entrega") && !Truthy(values.deliveryAddress)
  }

  /**
   * The form submits only values its schema parsed, and the schema already
   * rejects a delivery without an address, so the guard never fires on them.
   */
  lemma GuardUnreachableAfterValidation(p: Payload)
    requires OrderSchemas.SafeParseCreate(OrderSchemas.Live, p).Success?
    ensures !AddressMissing(OrderSchemas.SafeParseCreate(OrderSchemas.Live, p).value)
  {
    OrderSchemas.SafeParseCreateSpec(OrderSchemas.Live, p);
  }

  /**
   * An order sent to the service: the form values, with `orderValue` replaced
   * by `parseFloat(orderValueText)` and `deliveryDate` by its ISO text.
   */
  datatype CreateRequest = CreateRequest(values: Payload, orderValueText: string)

  /** How the submit handler ends: it returns, or it rejects with the service's error. */
  datatype Outcome = Returned | Rejected

  /** The form's effects: the errors set on fields, the orders sent, and the current route. */
  class NewOrderForm {
    var errors: seq<Key>
    var requests: seq<CreateRequest>
    var location: Option<string>

    constructor ()
      ensures errors == [] && requests == [] && location == None
    {
      errors := [];
      requests := [];
      location := None;
    }

    /**
     * `onSubmit`: a delivery without an address sets an error on
     * `deliveryAddress` and returns, sending nothing. Otherwise the order is
     * sent; only when the service resolves (`createSucceeds`) does the form
     * navigate to "/pedidos", and when it rejects the handler rejects too.
     */
    method Submit(values: Payload, createSucceeds: bool) returns (outcome: Outcome)
      requires values.orderValue.Str?
      modifies this
      ensures AddressMissing(values) ==>
        outcome == Returned && errors == old(errors) + [DeliveryAddress]
        && requests == old(requests) && location == old(location)
      ensures !AddressMissing(values) ==>
        errors == old(errors)
        && requests == old(requests) + [CreateRequest(values, NormalizeOrderValue(values.orderValue.s))]
        && (createSucceeds ==> outcome == Returned && location == Some("/pedidos"))
        && (!createSucceeds ==> outcome == Rejected && location == old(location))
    {
      if values.deliveryType == Str("entrega") && !Truthy(values.deliveryAddress) {
        errors := errors + [DeliveryAddress];
        return Returned;
      }
      requests := requests + [CreateRequest(values, NormalizeOrderValue(values.orderValue.s))];
      if !createSucceeds {
        return Rejected;
      }
      location := Some("/pedidos");
      return Returned;
    }
  }
}
