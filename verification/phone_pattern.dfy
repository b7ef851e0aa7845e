/**
 * The phone rule of the order schemas, `/^\(?(\d{2})\)?\s?9?\s?\d{4}-?\d{4}$/`,
 * as a backtracking recognizer (`Matches`), together with an independent
 * description of the same language as a sequence of optional parts
 * (`PhoneParts`, `Render`), and proofs that the two agree.
 */
module PhonePattern {
  import opened Strings
  import PhoneFormat

  /** `\d{4}-?\d{4}$` */
  predicate LineNumber(s: string) {
    (|s| == 8 && AllDigits(s))
    || (|s| == 9 && AllDigits(s[..4]) && s[4] == '-' && AllDigits(s[5..]))
  }

  /** `\s?\d{4}-?\d{4}$`, what follows the optional 9. */
  predicate AfterNine(s: string) {
    LineNumber(s) || (|s| > 0 && IsWhitespace(s[0]) && LineNumber(s[1..]))
  }

  /** `9?\s?\d{4}-?\d{4}$` */
  predicate AfterSpace(s: string) {
    AfterNine(s) || (|s| > 0 && s[0] == '9' && AfterNine(s[1..]))
  }

  /** `\s?9?\s?\d{4}-?\d{4}$` */
  predicate AfterClose(s: string) {
    AfterSpace(s) || (|s| > 0 && IsWhitespace(s[0]) && AfterSpace(s[1..]))
  }

  /** `\)?\s?9?\s?\d{4}-?\d{4}$` */
  predicate AfterArea(s: string) {
    AfterClose(s) || (|s| > 0 && s[0] == ')' && AfterClose(s[1..]))
  }

  /** `(\d{2})\)?\s?9?\s?\d{4}-?\d{4}$` */
  predicate AreaOnward(s: string) {
    |s| >= 2 && IsDigit(s[0]) && IsDigit(s[1]) && AfterArea(s[2..])
  }

  /** The whole pattern, anchored at both ends. */
  predicate Matches(s: string) {
    AreaOnward(s) || (|s| > 0 && s[0] == '(' && AreaOnward(s[1..]))
  }

  /** The parts a matching string is made of, each optional part as a flag or a string of length at most one. */
  datatype PhoneParts = PhoneParts(
    open: bool, area: string, close: bool, space1: string,
    nine: bool, space2: string, prefix: string, dash: bool, line: string)

  function Opt(present: bool, c: char): string {
    if present then [c] else []
  }

  function LineText(p: PhoneParts): string { p.prefix + Opt(p.dash, '-') + p.line }
  function AfterNineText(p: PhoneParts): string { p.space2 + LineText(p) }
  function AfterSpaceText(p: PhoneParts): string { Opt(p.nine, '9') + AfterNineText(p) }
  function AfterCloseText(p: PhoneParts): string { p.space1 + AfterSpaceText(p) }
  function AfterAreaText(p: PhoneParts): string { Opt(p.close, ')') + AfterCloseText(p) }
  function AreaOnwardText(p: PhoneParts): string { p.area + AfterAreaText(p) }

  /** The string the parts spell. */
  function Render(p: PhoneParts): string { Opt(p.open, '(') + AreaOnwardText(p) }

  predicate LineShaped(p: PhoneParts) {
    |p.prefix| == 4 && AllDigits(p.prefix) && |p.line| == 4 && AllDigits(p.line)
  }
  predicate AfterNineShaped(p: PhoneParts) {
    LineShaped(p) && |p.space2| <= 1 && AllWhitespace(p.space2)
  }
  predicate AfterCloseShaped(p: PhoneParts) {
    AfterNineShaped(p) && |p.space1| <= 1 && AllWhitespace(p.space1)
  }

  /** The parts form a string of the language: two area digits, two groups of four, optional separators. */
  predicate WellShaped(p: PhoneParts) {
    AfterCloseShaped(p) && |p.area| == 2 && AllDigits(p.area)
  }

  // Completeness: every string the parts describe is recognized.

  lemma LineComplete(p: PhoneParts)
    requires LineShaped(p)
    ensures LineNumber(LineText(p))
  {
    var s := LineText(p);
    if p.dash {
      assert s[..4] == p.prefix && s[4] == '-' && s[5..] == p.line;
    } else {
      assert s == p.prefix + p.line;
    }
  }

  lemma AfterNineComplete(p: PhoneParts)
    requires AfterNineShaped(p)
    ensures AfterNine(AfterNineText(p))
  {
    LineComplete(p);
    if |p.space2| == 1 {
      assert AfterNineText(p)[1..] == LineText(p);
    } else {
      assert AfterNineText(p) == LineText(p);
    }
  }

  lemma AfterCloseComplete(p: PhoneParts)
    requires AfterCloseShaped(p)
    ensures AfterClose(AfterCloseText(p))
  {
    AfterNineComplete(p);
    var t := AfterSpaceText(p);
    if p.nine {
      assert t[1..] == AfterNineText(p);
    } else {
      assert t == AfterNineText(p);
    }
    assert AfterSpace(t);
    if |p.space1| == 1 {
      assert AfterCloseText(p)[1..] == t;
    } else {
      assert AfterCloseText(p) == t;
    }
  }

  /** Every string spelled by well-shaped parts matches the pattern. */
  lemma MatchesRender(p: PhoneParts)
    requires WellShaped(p)
    ensures Matches(Render(p))
  {
    AfterCloseComplete(p);
    var t := AfterAreaText(p);
    if p.close {
      assert t[1..] == AfterCloseText(p);
    } else {
      assert t == AfterCloseText(p);
    }
    var u := AreaOnwardText(p);
    assert u[2..] == t;
    assert AreaOnward(u);
    if p.open {
      assert Render(p)[1..] == u;
    } else {
      assert Render(p) == u;
    }
  }

  // Soundness: every recognized string is spelled by some well-shaped parts.

  function ParseLine(s: string): (p: PhoneParts)
    requires LineNumber(s)
    ensures LineShaped(p) && LineText(p) == s
  {
    if |s| == 8 then
      var p := PhoneParts(false, "", false, "", false, "", s[..4], false, s[4..]);
      assert LineText(p) == s;
      p
    else
      var p := PhoneParts(false, "", false, "", false, "", s[..4], true, s[5..]);
      assert LineText(p) == s[..4] + [s[4]] + s[5..] == s;
      p
  }

  function ParseAfterNine(s: string): (p: PhoneParts)
    requires AfterNine(s)
    ensures AfterNineShaped(p) && AfterNineText(p) == s
  {
    if LineNumber(s) then
      ParseLine(s).(space2 := "")
    else
      var p := ParseLine(s[1..]).(space2 := s[..1]);
      assert AfterNineText(p) == s[..1] + s[1..] == s;
      p
  }

  function ParseAfterSpace(s: string): (p: PhoneParts)
    requires AfterSpace(s)
    ensures AfterNineShaped(p) && AfterSpaceText(p) == s
  {
    if AfterNine(s) then
      ParseAfterNine(s).(nine := false)
    else
      var p := ParseAfterNine(s[1..]).(nine := true);
      assert AfterSpaceText(p) == [s[0]] + s[1..] == s;
      p
  }

  function ParseAfterClose(s: string): (p: PhoneParts)
    requires AfterClose(s)
    ensures AfterCloseShaped(p) && AfterCloseText(p) == s
  {
    if AfterSpace(s) then
      var q := ParseAfterSpace(s);
      SpaceStep(s, q, "");
      q.(space1 := "")
    else
      var q := ParseAfterSpace(s[1..]);
      SpaceStep(s, q, s[..1]);
      q.(space1 := s[..1])
  }

  function ParseAfterArea(s: string): (p: PhoneParts)
    requires AfterArea(s)
    ensures AfterCloseShaped(p) && AfterAreaText(p) == s
  {
    if AfterClose(s) then
      var q := ParseAfterClose(s);
      CloseStep(s, q, false);
      q.(close := false)
    else
      var q := ParseAfterClose(s[1..]);
      CloseStep(s, q, true);
      q.(close := true)
  }

  function ParseAreaOnward(s: string): (p: PhoneParts)
    requires AreaOnward(s)
    ensures WellShaped(p) && AreaOnwardText(p) == s
  {
    var q := ParseAfterArea(s[2..]);
    AreaStep(s, q);
    q.(area := s[..2])
  }

  /** The parts of a matching string: the recognizer accepts only the language `Render` spells. */
  function Parse(s: string): (p: PhoneParts)
    requires Matches(s)
    ensures WellShaped(p) && Render(p) == s
  {
    if AreaOnward(s) then
      var q := ParseAreaOnward(s);
      OpenStep(s, q, false);
      q.(open := false)
    else
      var q := ParseAreaOnward(s[1..]);
      OpenStep(s, q, true);
      q.(open := true)
  }

  /** The optional space before the 9, taken from the front of `s`. */
  lemma SpaceStep(s: string, q: PhoneParts, space: string)
    requires AfterNineShaped(q)
    requires if space == "" then AfterSpaceText(q) == s
      else |s| > 0 && space == s[..1] && IsWhitespace(s[0]) && AfterSpaceText(q) == s[1..]
    ensures AfterCloseShaped(q.(space1 := space)) && AfterCloseText(q.(space1 := space)) == s
  {
    var p := q.(space1 := space);
    assert AfterSpaceText(p) == AfterSpaceText(q);
    if space != "" {
      assert AfterCloseText(p) == s[..1] + s[1..];
    }
  }

  /** The optional closing parenthesis, taken from the front of `s`. */
  lemma CloseStep(s: string, q: PhoneParts, close: bool)
    requires AfterCloseShaped(q)
    requires if close then |s| > 0 && s[0] == ')' && AfterCloseText(q) == s[1..] else AfterCloseText(q) == s
    ensures AfterCloseShaped(q.(close := close)) && AfterAreaText(q.(close := close)) == s
  {
    var p := q.(close := close);
    assert AfterCloseText(p) == AfterCloseText(q);
    if close {
      assert AfterAreaText(p) == [s[0]] + s[1..];
    }
  }

  /** The two area digits at the front of `s`. */
  lemma AreaStep(s: string, q: PhoneParts)
    requires AfterCloseShaped(q) && |s| >= 2 && IsDigit(s[0]) && IsDigit(s[1]) && AfterAreaText(q) == s[2..]
    ensures WellShaped(q.(area := s[..2])) && AreaOnwardText(q.(area := s[..2])) == s
  {
    var p := q.(area := s[..2]);
    assert AfterAreaText(p) == AfterAreaText(q);
    assert AreaOnwardText(p) == s[..2] + s[2..];
  }

  /** The optional opening parenthesis, taken from the front of `s`. */
  lemma OpenStep(s: string, q: PhoneParts, open: bool)
    requires WellShaped(q)
    requires if open then |s| > 0 && s[0] == '(' && AreaOnwardText(q) == s[1..] else AreaOnwardText(q) == s
    ensures WellShaped(q.(open := open)) && Render(q.(open := open)) == s
  {
    var p := q.(open := open);
    assert AreaOnwardText(p) == AreaOnwardText(q);
    if open {
      assert Render(p) == [s[0]] + s[1..];
    }
  }

  // Digit count.

  lemma DigitsOfOpt(present: bool, c: char)
    requires !IsDigit(c)
    ensures Digits(Opt(present, c)) == []
  {
    DigitsOfNonDigits(Opt(present, c));
  }

  lemma DigitsOfSpace(s: string)
    requires AllWhitespace(s)
    ensures Digits(s) == []
  {
    DigitsOfNonDigits(s);
  }

  lemma DigitsOfLineText(p: PhoneParts)
    requires LineShaped(p)
    ensures Digits(LineText(p)) == p.prefix + p.line
  {
    DigitsOfOpt(p.dash, '-');
    DigitsOfDigits(p.prefix); DigitsOfDigits(p.line);
    DigitsAppend(p.prefix + Opt(p.dash, '-'), p.line);
    DigitsAppend(p.prefix, Opt(p.dash, '-'));
  }

  lemma DigitsOfAfterSpaceText(p: PhoneParts)
    requires AfterNineShaped(p)
    ensures Digits(AfterSpaceText(p)) == Opt(p.nine, '9') + p.prefix + p.line
  {
    DigitsOfLineText(p);
    DigitsOfSpace(p.space2);
    DigitsAppend(p.space2, LineText(p));
    DigitsOfDigits(Opt(p.nine, '9'));
    DigitsAppend(Opt(p.nine, '9'), AfterNineText(p));
  }

  lemma DigitsOfAfterAreaText(p: PhoneParts)
    requires AfterCloseShaped(p)
    ensures Digits(AfterAreaText(p)) == Opt(p.nine, '9') + p.prefix + p.line
  {
    DigitsOfAfterSpaceText(p);
    DigitsOfSpace(p.space1);
    DigitsAppend(p.space1, AfterSpaceText(p));
    DigitsOfOpt(p.close, ')');
    DigitsAppend(Opt(p.close, ')'), AfterCloseText(p));
  }

  /** The digits of a well-shaped phone: area, the optional 9, prefix and line. */
  lemma DigitsOfRender(p: PhoneParts)
    requires WellShaped(p)
    ensures Digits(Render(p)) == p.area + Opt(p.nine, '9') + p.prefix + p.line
  {
    DigitsOfAfterAreaText(p);
    DigitsOfDigits(p.area);
    DigitsAppend(p.area, AfterAreaText(p));
    DigitsOfOpt(p.open, '(');
    DigitsAppend(Opt(p.open, '('), AreaOnwardText(p));
  }

  /** Every accepted phone holds exactly 10 or 11 digits (11 exactly when the optional 9 is present). */
  lemma MatchesDigitCount(s: string)
    requires Matches(s)
    ensures |Digits(s)| == 10 || |Digits(s)| == 11
  {
    var p := Parse(s);
    DigitsOfRender(p);
  }

  /** The two parentheses are optional each on its own, so a phone with only one of them passes. */
  lemma UnbalancedParenthesesMatch(p: PhoneParts)
    requires WellShaped(p)
    ensures Matches(Render(p.(open := true, close := false)))
    ensures Matches(Render(p.(open := false, close := true)))
  {
    MatchesRender(p.(open := true, close := false));
    MatchesRender(p.(open := false, close := true));
  }

  /** A masked mobile number, whose lone digit is 9, is accepted. */
  lemma MaskedMobileMatches(d: string)
    requires |d| == 11 && AllDigits(d) && d[2] == '9'
    ensures Matches(PhoneFormat.Template11(d))
  {
    var s := PhoneFormat.Template11(d);
    assert |s| == 16;
    var line := s[7..];
    assert line[..4] == d[3..7] && line[4] == '-' && line[5..] == d[7..11];
    assert LineNumber(line);
    assert s[6] == ' ' && s[7..] == s[6..][1..];
    assert AfterNine(s[6..]);
    assert s[5] == '9' && s[6..] == s[5..][1..];
    assert AfterSpace(s[5..]);
    assert s[4] == ' ' && s[5..] == s[4..][1..];
    assert AfterClose(s[4..]);
    assert s[3] == ')' && s[4..] == s[3..][1..];
    assert AfterArea(s[3..]);
    assert s[1] == d[0] && s[2] == d[1] && s[3..] == s[1..][2..];
    assert AreaOnward(s[1..]);
  }

  /**
   * The mask lets any digit stand in the lone position, but the pattern only
   * admits a literal 9 there: every other masked value is rejected.
   */
  lemma MaskedOtherDigitRejected(d: string)
    requires |d| == 11 && AllDigits(d) && d[2] != '9'
    ensures !Matches(PhoneFormat.Template11(d))
  {
    var s := PhoneFormat.Template11(d);
    assert |s| == 16 && s[0] == '(' && s[3] == ')' && s[4] == ' ' && s[5] == d[2] && s[6] == ' ';
    var t := s[1..][2..];
    assert |t| == 13 && t[0] == ')' && t[1] == ' ' && t[2] == d[2];
    assert !AfterClose(t);
    assert !AfterClose(t[1..]) by {
      var u := t[1..];
      assert |u| == 12 && u[0] == ' ' && u[1] == d[2];
      assert !AfterSpace(u);
      assert u[1..][0] == d[2] && |u[1..]| == 11;
      assert !AfterSpace(u[1..]);
    }
  }
}
