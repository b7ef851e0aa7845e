/**
 * The older new-order page: its own form schema, which is the live create
 * schema without the user id and with Portuguese key names, and a submit
 * handler that rewrites the money amount with three first-occurrence
 * replacements, fires the order off without waiting and navigates at once.
 *
 * The form's keys `nomeCompleto`, `whatsapp`, `detalhes`, `tipoEntrega`,
 * `enderecoEntrega`, `dataEntrega`, `horaEntrega`, `valorTotal` and
 * `formaPagamento` are written here as the `Key`s `FullName`, `Phone`,
 * `Details`, `DeliveryType`, `DeliveryAddress`, `DeliveryDate`,
 * `DeliveryTime`, `OrderValue` and `PaymentMethod`.
 */
module NewOrderPage {
  import opened Wrappers
  import opened Json
  import opened Zod
  import opened Strings
  import opened OrderRules
  import OrderSchemas
  import NewOrderClient

  /** The keys of the page's `formSchema`, in schema order. */
  const FormKeys: seq<Key> := [FullName, Phone, Details, DeliveryType, DeliveryAddress,
    DeliveryDate, DeliveryTime, OrderValue, PaymentMethod]

  /** Each key is declared exactly as in the live create schema. */
  function FormFields(p: Payload): (fs: seq<Field>)
    ensures |fs| == |FormKeys|
    ensures forall k | 0 <= k < |fs| :: fs[k] == OrderSchemas.CreateField(OrderSchemas.Live, p, FormKeys[k])
  {
    seq(|FormKeys|, k requires 0 <= k < |FormKeys| => OrderSchemas.CreateField(OrderSchemas.Live, p, FormKeys[k]))
  }

  /** The issues `formSchema.safeParse` reports: the keys', then the address rule unless a key aborted. */
  function FormIssues(p: Payload): seq<Issue> {
    ObjectIssues(FormFields(p), DeliveryRule(OrderSchemas.CreateParsed(OrderSchemas.Live, p)))
  }

  /**
   * The page's schema is the live create schema without the user id: on any
   * values, it reports exactly the issues the live schema reports once a user
   * id is present. So the name, phone, details and address rules are the live
   * ones, messages included.
   */
  lemma FormSchemaIsLiveWithoutUser(p: Payload, user: string)
    ensures FormIssues(p) == OrderSchemas.CreateIssues(OrderSchemas.Live, p.(userId := Str(user)))
  {
    var q := p.(userId := Str(user));
    var fs := FormFields(p);
    var last := OrderSchemas.CreateField(OrderSchemas.Live, q, UserId);
    FieldsWithUser(p, user);
    AllIssuesAppend(fs, [last]);
    assert AllIssues([last]) == [];
    AbortedWithUser(fs, last);
    RuleWithoutUser(p, user);
    assert AllIssues(fs + [last]) == AllIssues(fs);
  }

  /** The address rule does not look at the user id. */
  lemma RuleWithoutUser(p: Payload, user: string)
    ensures DeliveryRule(OrderSchemas.CreateParsed(OrderSchemas.Live, p.(userId := Str(user))))
      == DeliveryRule(OrderSchemas.CreateParsed(OrderSchemas.Live, p))
  {
    SameFieldWithoutUser(p, user, DeliveryType);
    SameFieldWithoutUser(p, user, DeliveryAddress);
  }

  /** The live create schema's keys are the page's keys followed by the user id. */
  lemma FieldsWithUser(p: Payload, user: string)
    ensures OrderSchemas.CreateFields(OrderSchemas.Live, p.(userId := Str(user)))
      == FormFields(p) + [OrderSchemas.CreateField(OrderSchemas.Live, p.(userId := Str(user)), UserId)]
    ensures OrderSchemas.CreateField(OrderSchemas.Live, p.(userId := Str(user)), UserId).issues == []
    ensures !OrderSchemas.CreateField(OrderSchemas.Live, p.(userId := Str(user)), UserId).aborted
  {
    var q := p.(userId := Str(user));
    var fs := FormFields(p);
    var gs := OrderSchemas.CreateFields(OrderSchemas.Live, q);
    forall k | 0 <= k < |fs| ensures gs[k] == fs[k] {
      SameFieldWithoutUser(p, user, FormKeys[k]);
    }
  }

  /** A key that does not abort changes nothing about whether the object aborts. */
  lemma AbortedWithUser(fs: seq<Field>, last: Field)
    requires !last.aborted
    ensures AnyAborted(fs + [last]) <==> AnyAborted(fs)
  {
    var gs := fs + [last];
    if AnyAborted(gs) {
      var k :| 0 <= k < |gs| && gs[k].aborted;
      assert k < |fs| && fs[k].aborted;
    }
    if AnyAborted(fs) {
      var k :| 0 <= k < |fs| && fs[k].aborted;
      assert gs[k].aborted;
    }
  }

  /** Setting the user id changes no other key's schema result. */
  lemma SameFieldWithoutUser(p: Payload, user: string, key: Key)
    requires key != UserId
    ensures OrderSchemas.CreateField(OrderSchemas.Live, p.(userId := Str(user)), key)
      == OrderSchemas.CreateField(OrderSchemas.Live, p, key)
  {
  }

  /**
   * So the page reports a short name, a phone outside the pattern, short
   * details and a delivery without an address as the live schema does.
   */
  lemma FormRules(p: Payload)
    ensures IssuesAt(FormIssues(p), Some(FullName)) == [] <==> p.fullName.Str? && |p.fullName.s| >= 3
    ensures IssuesAt(FormIssues(p), Some(Details)) == [] <==> p.details.Str? && |p.details.s| >= 10
    ensures p.phone.Str? ==>
      (IssuesAt(FormIssues(p), Some(Phone)) == [] <==> OrderSchemas.PhoneAccepts(OrderSchemas.Live, p.phone.s))
  {
    var q := p.(userId := Str(""));
    FormSchemaIsLiveWithoutUser(p, "");
    OrderSchemas.CreateNameRule(OrderSchemas.Live, q);
    OrderSchemas.CreateDetailsRule(OrderSchemas.Live, q);
    OrderSchemas.CreatePhoneRule(OrderSchemas.Live, q);
  }

  /**
   * `valorTotal.replace("R$ ", "").replace(".", "").replace(",", ".")`: each
   * replacement touches the first occurrence only.
   */
  function RewriteValueAsWritten(s: string): (r: string)
  {
    ReplaceFirst(ReplaceFirst(ReplaceFirst(s, "R$ ", ""), ".", ""), ",", ".")
  }

  /** Without a thousands separator the rewrite gives "whole.cents". */
  lemma RewriteNoSeparator(whole: string, cents: string)
    requires AllDigits(whole) && AllDigits(cents)
    ensures RewriteValueAsWritten("R$ " + whole + "," + cents) == whole + "." + cents
    ensures RewriteValueAsWritten("R$ " + whole + "," + cents) == NewOrderClient.NormalizeOrderValue("R$ " + whole + "," + cents)
  {
    var rest := whole + "," + cents;
    assert "R$ " + whole + "," + cents == "R$ " + rest;
    DropCurrency(rest);
    DigitsHaveNo(whole, '.');
    DigitsHaveNo(cents, '.');
    assert '.' !in rest;
    ReplaceFirstCharAbsent(rest, '.', "");
    DigitsHaveNo(whole, ',');
    CommaToPoint(whole, cents);
    NewOrderClient.NormalizeMasked(whole, cents);
  }

  /** The first replacement drops the leading "R$ ". */
  lemma DropCurrency(rest: string)
    ensures ReplaceFirst("R$ " + rest, "R$ ", "") == rest
  {
    ReplaceFirstLeading("R$ ", rest, "");
    assert "" + rest == rest;
  }

  /** The second replacement drops the first point, the one after the leading digits. */
  lemma DropFirstPoint(head: string, tail: string)
    requires AllDigits(head)
    ensures ReplaceFirst(head + "." + tail, ".", "") == head + tail
  {
    DigitsHaveNo(head, '.');
    ReplaceFirstChar(head, '.', tail, "");
    assert head + "" + tail == head + tail;
  }

  /** The third replacement turns the first comma into a point. */
  lemma CommaToPoint(whole: string, cents: string)
    requires ',' !in whole
    ensures ReplaceFirst(whole + "," + cents, ",", ".") == whole + "." + cents
  {
    ReplaceFirstChar(whole, ',', cents, ".");
  }

  /** With one thousands separator the rewrite drops it. */
  lemma RewriteOneSeparator(head: string, groups: string, cents: string)
    requires AllDigits(head) && AllDigits(groups) && AllDigits(cents)
    ensures RewriteValueAsWritten("R$ " + head + "." + groups + "," + cents) == head + groups + "." + cents
  {
    var tail := groups + "," + cents;
    var rest := head + "." + tail;
    OneSeparatorShape(head, groups, cents);
    DropCurrency(rest);
    DropFirstPoint(head, tail);
    DigitsHaveNo(head, ',');
    DigitsHaveNo(groups, ',');
    CommaToPoint(head + groups, cents);
  }

  /** How "R$ head.groups,cents" regroups around the point and the comma. */
  lemma OneSeparatorShape(head: string, groups: string, cents: string)
    ensures "R$ " + head + "." + groups + "," + cents == "R$ " + (head + "." + (groups + "," + cents))
    ensures head + (groups + "," + cents) == (head + groups) + "," + cents
  {
    var s := "R$ " + head + "." + groups + "," + cents;
    var t := "R$ " + (head + "." + (groups + "," + cents));
    assert |s| == |t|;
    forall k | 0 <= k < |s| ensures s[k] == t[k] {
      if k < 3 + |head| + 1 + |groups| {
        assert s[k] == ("R$ " + head + "." + groups)[k];
        assert t[k] == ("R$ " + head + "." + groups)[k];
      } else {
        assert s[k] == ("," + cents)[k - (3 + |head| + 1 + |groups|)];
        assert t[k] == ("," + cents)[k - (3 + |head| + 1 + |groups|)];
      }
    }
  }

  /**
   * So on amounts written with an ASCII space after "R$", as the default value
   * is, with at most one thousands separator the page and the live form send
   * the same text.
   */
  lemma RewriteAgreesUpToOneSeparator(head: string, groups: string, cents: string)
    requires AllDigits(head) && AllDigits(groups) && AllDigits(cents)
    ensures RewriteValueAsWritten("R$ " + head + "," + cents) == NewOrderClient.NormalizeOrderValue("R$ " + head + "," + cents)
    ensures RewriteValueAsWritten("R$ " + head + "." + groups + "," + cents)
      == NewOrderClient.NormalizeOrderValue("R$ " + head + "." + groups + "," + cents)
  {
    RewriteNoSeparator(head, cents);
    RewriteOneSeparator(head, groups, cents);
    NewOrderClient.NormalizeGrouped(head, groups, cents);
  }

  /**
   * On a formatted amount the first replacement finds no "R$ " with an ASCII
   * space, since the prefix carries a no-break space, and leaves the prefix in;
   * the second drops the whole part's first "." only; the third turns the
   * comma into a point.
   */
  lemma RewriteFormatted(whole: string, cents: string)
    requires ' ' !in whole && ',' !in whole && AllDigits(cents)
    ensures RewriteValueAsWritten(NewOrderClient.CurrencyPrefix + whole + "," + cents)
      == NewOrderClient.CurrencyPrefix + ReplaceFirst(whole, ".", "") + "." + cents
  {
    var prefix := NewOrderClient.CurrencyPrefix;
    var s := prefix + whole + "," + cents;
    NewOrderClient.CurrencyPrefixChars();
    DigitsHaveNo(cents, ' ');
    DigitsHaveNo(cents, '.');
    assert ' ' !in s;
    ReplaceFirstMissing(s, "R$ ", 2, "");
    assert s == prefix + (whole + ("," + cents));
    ReplaceFirstCharAfter(prefix, '.', whole + ("," + cents), "");
    ReplaceFirstCharBefore(whole, '.', "," + cents, "");
    var kept := ReplaceFirst(whole, ".", "");
    ReplaceFirstCharRemoves(whole, '.', ',');
    assert ',' !in prefix + kept;
    assert prefix + (kept + ("," + cents)) == (prefix + kept) + "," + cents;
    ReplaceFirstChar(prefix + kept, ',', cents, ".");
  }

  /**
   * `parseFloat` skips leading white space and reads the longest prefix that
   * is a decimal literal or "Infinity"; a text whose first character can
   * neither be skipped nor start one gives NaN.
   */
  predicate ParseFloatGivesNaN(s: string) {
    s == [] || !(IsWhitespace(s[0]) || IsDigit(s[0]) || s[0] in "+-.I")
  }

  /** A text whose first character is a digit, so that `parseFloat` reads a number from it. */
  predicate StartsWithDigit(s: string) {
    s != [] && IsDigit(s[0])
  }

  /**
   * Whatever is typed into the amount field, the page hands `parseFloat` a
   * text that still begins with "R$", so the total it sends is NaN; the live
   * form hands it a text that begins with a digit.
   */
  lemma TypedAmountNotANumber(typed: string)
    ensures var amount := NewOrderClient.DigitsValue(Digits(typed));
      RewriteValueAsWritten(NewOrderClient.AmountInput(typed))
      == NewOrderClient.CurrencyPrefix + ReplaceFirst(NewOrderClient.GroupThousands(NatToString(amount / 100)), ".", "")
         + "." + NewOrderClient.Cents(amount)
    ensures ParseFloatGivesNaN(RewriteValueAsWritten(NewOrderClient.AmountInput(typed)))
    ensures StartsWithDigit(NewOrderClient.NormalizeOrderValue(NewOrderClient.AmountInput(typed)))
  {
    var amount := NewOrderClient.DigitsValue(Digits(typed));
    var whole := NewOrderClient.GroupThousands(NatToString(amount / 100));
    GroupedHasNoSeparator(NatToString(amount / 100));
    RewriteFormatted(whole, NewOrderClient.Cents(amount));
    PrefixGivesNaN(ReplaceFirst(whole, ".", "") + "." + NewOrderClient.Cents(amount));
    LiveTextStartsWithDigit(typed);
  }

  /** A grouped whole part has neither an ASCII space nor a comma. */
  lemma GroupedHasNoSeparator(s: string)
    requires AllDigits(s)
    ensures ' ' !in NewOrderClient.GroupThousands(s) && ',' !in NewOrderClient.GroupThousands(s)
  {
  }

  /** A text that begins with the currency prefix gives NaN. */
  lemma PrefixGivesNaN(rest: string)
    ensures ParseFloatGivesNaN(NewOrderClient.CurrencyPrefix + rest)
  {
    assert (NewOrderClient.CurrencyPrefix + rest)[0] == 'R';
  }

  /** The live form's text for a typed amount begins with a digit. */
  lemma LiveTextStartsWithDigit(typed: string)
    ensures StartsWithDigit(NewOrderClient.NormalizeOrderValue(NewOrderClient.AmountInput(typed)))
  {
    var amount := NewOrderClient.DigitsValue(Digits(typed));
    NewOrderClient.NormalizeAmountInput(typed);
    var whole := NatToString(amount / 100);
    assert (whole + "." + NewOrderClient.Cents(amount))[0] == whole[0];
  }

  /** With two thousands separators the second survives the rewrite. */
  lemma RewriteTwoSeparators(a: string, b: string, c: string, cents: string)
    requires AllDigits(a) && AllDigits(b) && AllDigits(c) && AllDigits(cents)
    ensures RewriteValueAsWritten(NewOrderClient.CurrencyPrefix + (a + "." + b + "." + c) + "," + cents)
      == NewOrderClient.CurrencyPrefix + (a + b + "." + c) + "." + cents
  {
    TwoGroupsNoSeparator(a, b, c);
    RewriteFormatted(a + "." + b + "." + c, cents);
    DropFirstPoint(a, b + "." + c);
    assert a + (b + "." + c) == a + b + "." + c;
  }

  /** The live form's rewrite drops every thousands separator. */
  lemma NormalizeTwoSeparators(a: string, b: string, c: string, cents: string)
    requires AllDigits(a) && AllDigits(b) && AllDigits(c) && AllDigits(cents)
    ensures NewOrderClient.NormalizeOrderValue(NewOrderClient.CurrencyPrefix + (a + "." + b + "." + c) + "," + cents)
      == a + b + c + "." + cents
  {
    TwoGroupsDigits(a, b, c);
    NewOrderClient.NormalizeFormatted(a + "." + b + "." + c, cents);
  }

  /** "a.b.c" has no comma and the digits of a, b and c. */
  lemma TwoGroupsDigits(a: string, b: string, c: string)
    requires AllDigits(a) && AllDigits(b) && AllDigits(c)
    ensures ',' !in a + "." + b + "." + c
    ensures Digits(a + "." + b + "." + c) == a + b + c
  {
    TwoGroupsNoSeparator(a, b, c);
    DigitsBetween(a, b);
    DigitsBetween(a + "." + b, c);
    DigitsOfDigits(a);
    DigitsOfDigits(b);
    DigitsOfDigits(c);
  }

  /** "a.b.c" has neither an ASCII space nor a comma. */
  lemma TwoGroupsNoSeparator(a: string, b: string, c: string)
    requires AllDigits(a) && AllDigits(b) && AllDigits(c)
    ensures ' ' !in a + "." + (b + "." + c) && ',' !in a + "." + (b + "." + c)
    ensures a + "." + (b + "." + c) == a + "." + b + "." + c
  {
    var whole := a + "." + (b + "." + c);
    forall i | 0 <= i < |whole| ensures IsDigit(whole[i]) || whole[i] == '.' {
      if i < |a| {
        assert whole[i] == a[i];
      } else if i == |a| || i == |a| + 1 + |b| {
      } else if i < |a| + 1 + |b| {
        assert whole[i] == b[i - |a| - 1];
      } else {
        assert whole[i] == c[i - |a| - 2 - |b|];
      }
    }
  }

  /** Joining two strings with a "." keeps just their digits. */
  lemma DigitsBetween(x: string, y: string)
    ensures Digits(x + "." + y) == Digits(x) + Digits(y)
  {
    DigitsAppend(x + ".", y);
    DigitsAppend(x, ".");
    DigitsOfNonDigits(".");
  }

  /** An amount with two thousands separators, as the currency format writes it. */
  const LargeAmount: string := NewOrderClient.CurrencyPrefix + "1.234.567,89"

  /**
   * `LargeAmount` is sent as the text "R$", a no-break space, "1234.567.89",
   * which `parseFloat` reads as NaN; the live form's rewrite sends "1234567.89".
   */
  lemma SecondSeparatorSurvives()
    ensures RewriteValueAsWritten(LargeAmount) == NewOrderClient.CurrencyPrefix + "1234.567.89"
    ensures ParseFloatGivesNaN(RewriteValueAsWritten(LargeAmount))
    ensures NewOrderClient.NormalizeOrderValue(LargeAmount) == "1234567.89"
  {
    LargeAmountParts();
    RewriteTwoSeparators("1", "234", "567", "89");
    NormalizeTwoSeparators("1", "234", "567", "89");
  }

  /** The amount's digit groups. */
  lemma LargeAmountParts()
    ensures LargeAmount == NewOrderClient.CurrencyPrefix + ("1" + "." + "234" + "." + "567") + "," + "89"
    ensures NewOrderClient.CurrencyPrefix + ("1" + "234" + "." + "567") + "." + "89" == NewOrderClient.CurrencyPrefix + "1234.567.89"
    ensures "1" + "234" + "567" + "." + "89" == "1234567.89"
    ensures AllDigits("1") && AllDigits("234") && AllDigits("567") && AllDigits("89")
  {
  }

  /** The page's form effects: the errors set on fields, the orders sent, and the current route. */
  class LegacyOrderForm {
    var errors: seq<Key>
    var requests: seq<NewOrderClient.CreateRequest>
    var location: Option<string>

    constructor ()
      ensures errors == [] && requests == [] && location == None
    {
      errors := [];
      requests := [];
      location := None;
    }

    /**
     * `onSubmit`: a delivery without an address sets an error on the address
     * and returns. Otherwise the order is handed to the service without
     * waiting for it, and the page navigates to "/pedidos" whatever the
     * service later does.
     */
    method Submit(values: Payload)
      requires values.orderValue.Str?
      modifies this
      ensures NewOrderClient.AddressMissing(values) ==>
        errors == old(errors) + [DeliveryAddress] && requests == old(requests) && location == old(location)
      ensures !NewOrderClient.AddressMissing(values) ==>
        errors == old(errors)
        && requests == old(requests) + [NewOrderClient.CreateRequest(values, RewriteValueAsWritten(values.orderValue.s))]
        && location == Some("/pedidos")
    {
      if values.deliveryType == Str("entrega") && !Truthy(values.deliveryAddress) {
        errors := errors + [DeliveryAddress];
        return;
      }
      requests := requests + [NewOrderClient.CreateRequest(values, RewriteValueAsWritten(values.orderValue.s))];
      location := Some("/pedidos");
    }
  }
}
