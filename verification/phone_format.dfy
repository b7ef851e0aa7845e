/**
 * `formatPhoneNumber`: strip every non-digit, then rewrite an 11-digit string
 * with the template "(XX) X XXXX-XXXX" and a 10-digit string with
 * "(XX) XXXX-XXXX". The three regular-expression replacements run one after
 * the other, each on the previous one's output.
 */
module PhoneFormat {
  import opened Strings

  /** "($1) $2 $3-$4" with groups of 2, 1, 4 and 4 digits. */
  function Template11(d: string): string
    requires |d| == 11
  {
    "(" + d[0..2] + ") " + d[2..3] + " " + d[3..7] + "-" + d[7..11]
  }

  /** "($1) $2-$3" with groups of 2, 4 and 4 digits. */
  function Template10(d: string): string
    requires |d| == 10
  {
    "(" + d[0..2] + ") " + d[2..6] + "-" + d[6..10]
  }

  /** `.replace(/^(\d{2})(\d{1})(\d{4})(\d{4})$/, "($1) $2 $3-$4")` */
  function ElevenDigitStep(s: string): string {
    if |s| == 11 && AllDigits(s) then Template11(s) else s
  }

  /** `.replace(/^(\d{2})(\d{4})(\d{4})$/, "($1) $2-$3")` */
  function TenDigitStep(s: string): string {
    if |s| == 10 && AllDigits(s) then Template10(s) else s
  }

  function FormatPhoneNumber(phone: string): string {
    TenDigitStep(ElevenDigitStep(Digits(phone)))
  }

  /**
   * The chain of replacements applies at most one template: the output of the
   * 11-digit template has non-digits, so the 10-digit rule never rewrites it.
   */
  lemma FormatPhoneNumberCases(phone: string)
    ensures var d := Digits(phone);
            FormatPhoneNumber(phone)
            == if |d| == 11 then Template11(d) else if |d| == 10 then Template10(d) else d
  {
    var d := Digits(phone);
    if |d| == 11 {
      assert Template11(d)[0] == '(';
      assert !AllDigits(Template11(d));
    }
  }

  /** An 11-digit number formats to 16 characters, a 10-digit one to 14. */
  lemma FormatPhoneNumberLength(phone: string)
    ensures |Digits(phone)| == 11 ==> |FormatPhoneNumber(phone)| == 16
    ensures |Digits(phone)| == 10 ==> |FormatPhoneNumber(phone)| == 14
    ensures |Digits(phone)| !in {10, 11} ==> FormatPhoneNumber(phone) == Digits(phone)
  {
    FormatPhoneNumberCases(phone);
  }

  /** Digits of a literal separator are none. */
  lemma DigitsOfSeparators()
    ensures Digits("(") == [] && Digits(") ") == [] && Digits(" ") == [] && Digits("-") == []
  {
    DigitsOfNonDigits("(");
    DigitsOfNonDigits(") ");
    DigitsOfNonDigits(" ");
    DigitsOfNonDigits("-");
  }

  lemma Template11Digits(d: string)
    requires |d| == 11 && AllDigits(d)
    ensures Digits(Template11(d)) == d
  {
    DigitsOfSeparators();
    var a, b, c, e := d[0..2], d[2..3], d[3..7], d[7..11];
    DigitsOfDigits(a); DigitsOfDigits(b); DigitsOfDigits(c); DigitsOfDigits(e);
    DigitsAppend("(", a);
    DigitsAppend("(" + a, ") ");
    DigitsAppend("(" + a + ") ", b);
    DigitsAppend("(" + a + ") " + b, " ");
    DigitsAppend("(" + a + ") " + b + " ", c);
    DigitsAppend("(" + a + ") " + b + " " + c, "-");
    DigitsAppend("(" + a + ") " + b + " " + c + "-", e);
    assert a + b + c + e == d;
  }

  lemma Template10Digits(d: string)
    requires |d| == 10 && AllDigits(d)
    ensures Digits(Template10(d)) == d
  {
    DigitsOfSeparators();
    var a, b, c := d[0..2], d[2..6], d[6..10];
    DigitsOfDigits(a); DigitsOfDigits(b); DigitsOfDigits(c);
    DigitsAppend("(", a);
    DigitsAppend("(" + a, ") ");
    DigitsAppend("(" + a + ") ", b);
    DigitsAppend("(" + a + ") " + b, "-");
    DigitsAppend("(" + a + ") " + b + "-", c);
    assert a + b + c == d;
  }

  /** Round trip: deleting the non-digits of the formatted number gives the input's digits. */
  lemma FormatPhoneNumberKeepsDigits(phone: string)
    ensures Digits(FormatPhoneNumber(phone)) == Digits(phone)
  {
    var d := Digits(phone);
    FormatPhoneNumberCases(phone);
    if |d| == 11 {
      Template11Digits(d);
    } else if |d| == 10 {
      Template10Digits(d);
    } else {
      DigitsOfDigits(d);
    }
  }

  /** Formatting an already formatted number returns it unchanged. */
  lemma FormatPhoneNumberIdempotent(phone: string)
    ensures FormatPhoneNumber(FormatPhoneNumber(phone)) == FormatPhoneNumber(phone)
  {
    FormatPhoneNumberKeepsDigits(phone);
  }
}
