/**
 * The string operations the application performs through JavaScript regular
 * expressions and `String.prototype.replace`, written out character by character.
 */
module Strings {

  /** `\d` in a JavaScript regular expression without the `u` flag: an ASCII digit. */
  predicate IsDigit(c: char) {
    '0' <= c <= '9'
  }

  predicate AllDigits(s: string) {
    forall i | 0 <= i < |s| :: IsDigit(s[i])
  }

  /** `s.replace(/\D/g, "")`: the digits of `s`, in order. */
  function Digits(s: string): (r: string)
    ensures AllDigits(r)
    ensures |r| <= |s|
  {
    if s == [] then []
    else (if IsDigit(s[0]) then [s[0]] else []) + Digits(s[1..])
  }

  lemma {:induction false} DigitsAppend(a: string, b: string)
    ensures Digits(a + b) == Digits(a) + Digits(b)
  {
    if a == [] {
      assert a + b == b;
    } else {
      assert (a + b)[1..] == a[1..] + b;
      DigitsAppend(a[1..], b);
    }
  }

  /** Removing non-digits from a digit string changes nothing. */
  lemma {:induction false} DigitsOfDigits(s: string)
    requires AllDigits(s)
    ensures Digits(s) == s
  {
    if s != [] {
      DigitsOfDigits(s[1..]);
    }
  }

  /** A string without digits has no digits to keep. */
  lemma {:induction false} DigitsOfNonDigits(s: string)
    requires forall i | 0 <= i < |s| :: !IsDigit(s[i])
    ensures Digits(s) == []
  {
    if s != [] {
      DigitsOfNonDigits(s[1..]);
    }
  }

  /** `\s` in a JavaScript regular expression: the ECMAScript white space and line terminators. */
  predicate IsWhitespace(c: char) {
    c == ' ' || c == '\t' || c == '\n' || c == '\r' || c == '\U{000B}' || c == '\U{000C}'
    || c == '\U{00A0}' || c == '\U{1680}' || ('\U{2000}' <= c <= '\U{200A}')
    || c == '\U{2028}' || c == '\U{2029}' || c == '\U{202F}' || c == '\U{205F}'
    || c == '\U{3000}' || c == '\U{FEFF}'
  }

  predicate AllWhitespace(s: string) {
    forall i | 0 <= i < |s| :: IsWhitespace(s[i])
  }

  /** ASCII lower-casing of one character. */
  function LowerChar(c: char): (r: char)
    ensures IsDigit(c) <==> IsDigit(r)
  {
    if 'A' <= c <= 'Z' then (c as int + 32) as char else c
  }

  function Lower(s: string): (r: string)
    ensures |r| == |s|
    ensures forall i | 0 <= i < |s| :: r[i] == LowerChar(s[i])
  {
    seq(|s|, i requires 0 <= i < |s| => LowerChar(s[i]))
  }

  /** `pat` occurs in `s` starting at index `i`. */
  predicate OccursAt(s: string, pat: string, i: int) {
    0 <= i && i + |pat| <= |s| && s[i..i + |pat|] == pat
  }

  /** The first index at or after `k` where `pat` occurs in `s`, or -1. */
  function FirstIndexFrom(s: string, pat: string, k: nat): (r: int)
    decreases |s| - k
    ensures r == -1 || (k <= r && OccursAt(s, pat, r))
    ensures forall j | k <= j && (r == -1 || j < r) :: !OccursAt(s, pat, j)
  {
    if k + |pat| > |s| then -1
    else if s[k..k + |pat|] == pat then k
    else FirstIndexFrom(s, pat, k + 1)
  }

  /** An occurrence fixes each character it covers. */
  lemma OccursAtChar(s: string, pat: string, j: int, i: nat)
    requires OccursAt(s, pat, j) && i < |pat|
    ensures s[j + i] == pat[i]
  {
    assert s[j..j + |pat|][i] == s[j + i];
  }

  /** `s.indexOf(pat)`: the leftmost occurrence of `pat`, or -1. */
  function IndexOf(s: string, pat: string): (r: int)
    ensures r == -1 <==> forall j :: !OccursAt(s, pat, j)
    ensures r != -1 ==> OccursAt(s, pat, r) && forall j | j < r :: !OccursAt(s, pat, j)
  {
    FirstIndexFrom(s, pat, 0)
  }

  /** A substring test: `pat` occurs somewhere in `s`. */
  predicate Contains(s: string, pat: string) {
    IndexOf(s, pat) != -1
  }

  /**
   * `s.replace(pat, rep)` with a string pattern: only the leftmost occurrence
   * is replaced (an empty pattern matches at index 0).
   */
  function ReplaceFirst(s: string, pat: string, rep: string): (r: string)
  {
    var i := IndexOf(s, pat);
    if i == -1 then s else s[..i] + rep + s[i + |pat|..]
  }

  /** A string pattern that starts the string is replaced there. */
  lemma ReplaceFirstLeading(pat: string, rest: string, rep: string)
    ensures ReplaceFirst(pat + rest, pat, rep) == rep + rest
  {
    var s := pat + rest;
    assert s[0..|pat|] == pat;
    assert OccursAt(s, pat, 0);
    assert s[|pat|..] == rest;
  }

  /** A one-character pattern is replaced at its first occurrence only, whatever follows it. */
  lemma ReplaceFirstChar(before: string, c: char, after: string, rep: string)
    requires c !in before
    ensures ReplaceFirst(before + [c] + after, [c], rep) == before + rep + after
  {
    var s := before + [c] + after;
    assert s[|before|..|before| + 1] == [c];
    forall j | j < |before| && OccursAt(s, [c], j) ensures false {
      OccursAtChar(s, [c], j, 0);
    }
    assert OccursAt(s, [c], |before|);
    assert IndexOf(s, [c]) == |before|;
    assert s[..|before|] == before;
    assert s[|before| + 1..] == after;
  }

  /** A one-character pattern that does not occur leaves the string as it is. */
  lemma ReplaceFirstCharAbsent(s: string, c: char, rep: string)
    requires c !in s
    ensures ReplaceFirst(s, [c], rep) == s
  {
    forall j | OccursAt(s, [c], j) ensures false {
      OccursAtChar(s, [c], j, 0);
    }
  }

  /** A pattern with a character the string lacks does not occur, so nothing is replaced. */
  lemma ReplaceFirstMissing(s: string, pat: string, k: nat, rep: string)
    requires k < |pat| && pat[k] !in s
    ensures ReplaceFirst(s, pat, rep) == s
  {
    forall j | OccursAt(s, pat, j) ensures false {
      OccursAtChar(s, pat, j, k);
    }
  }

  /** The first occurrence of `c` in `s`: nothing before it is `c`. */
  lemma FirstOccurrence(s: string, c: char) returns (i: nat)
    requires c in s
    ensures i < |s| && s[i] == c && c !in s[..i]
    ensures s == s[..i] + [c] + s[i + 1..]
  {
    var j :| 0 <= j < |s| && s[j] == c;
    assert s[j..j + 1] == [c];
    assert OccursAt(s, [c], j);
    i := IndexOf(s, [c]);
    OccursAtChar(s, [c], i, 0);
    forall k | 0 <= k < i ensures s[k] != c {
      if s[k] == c {
        assert s[k..k + 1] == [c];
        assert OccursAt(s, [c], k);
      }
    }
  }

  /** A prefix without `c` is left alone: the replacement happens in what follows it. */
  lemma ReplaceFirstCharAfter(prefix: string, c: char, rest: string, rep: string)
    requires c !in prefix
    ensures ReplaceFirst(prefix + rest, [c], rep) == prefix + ReplaceFirst(rest, [c], rep)
  {
    if c in rest {
      var i := FirstOccurrence(rest, c);
      ReplaceFirstCharSplit(prefix, rest[..i], c, rest[i + 1..], rep);
    } else {
      assert c !in prefix + rest;
      ReplaceFirstCharAbsent(prefix + rest, c, rep);
      ReplaceFirstCharAbsent(rest, c, rep);
    }
  }

  /** `ReplaceFirstCharAfter` once the first `c` after the prefix is found. */
  lemma ReplaceFirstCharSplit(prefix: string, before: string, c: char, after: string, rep: string)
    requires c !in prefix && c !in before
    ensures ReplaceFirst(prefix + (before + [c] + after), [c], rep) == prefix + ReplaceFirst(before + [c] + after, [c], rep)
  {
    NotInConcat(c, prefix, before);
    ConcatRegroup(prefix, before, [c], after);
    ConcatRegroup(prefix, before, rep, after);
    ReplaceFirstChar(prefix + before, c, after, rep);
    ReplaceFirstChar(before, c, after, rep);
  }

  lemma NotInConcat(c: char, x: string, y: string)
    requires c !in x && c !in y
    ensures c !in x + y
  {
  }

  lemma ConcatRegroup(x: string, y: string, z: string, w: string)
    ensures x + (y + z + w) == (x + y) + z + w
  {
  }

  /** When `s` holds `c`, or `t` does not, the replacement in `s + t` happens in `s`. */
  lemma ReplaceFirstCharBefore(s: string, c: char, t: string, rep: string)
    requires c in s || c !in t
    ensures ReplaceFirst(s + t, [c], rep) == ReplaceFirst(s, [c], rep) + t
  {
    if c in s {
      var i := FirstOccurrence(s, c);
      ReplaceFirstCharBeforeSplit(s[..i], c, s[i + 1..], t, rep);
    } else {
      NotInConcat(c, s, t);
      ReplaceFirstCharAbsent(s + t, c, rep);
      ReplaceFirstCharAbsent(s, c, rep);
    }
  }

  /** `ReplaceFirstCharBefore` once the first `c` in `s` is found. */
  lemma ReplaceFirstCharBeforeSplit(before: string, c: char, after: string, t: string, rep: string)
    requires c !in before
    ensures ReplaceFirst(before + [c] + after + t, [c], rep) == ReplaceFirst(before + [c] + after, [c], rep) + t
  {
    ConcatTail(before, [c], after, t);
    ConcatTail(before, rep, after, t);
    ReplaceFirstChar(before, c, after + t, rep);
    ReplaceFirstChar(before, c, after, rep);
  }

  lemma ConcatTail(x: string, y: string, z: string, w: string)
    ensures x + y + z + w == x + y + (z + w)
  {
  }

  /** Removing the first `c` brings in no new character. */
  lemma ReplaceFirstCharRemoves(s: string, c: char, d: char)
    requires d !in s
    ensures d !in ReplaceFirst(s, [c], "")
  {
    if c in s {
      var i := FirstOccurrence(s, c);
      ReplaceFirstChar(s[..i], c, s[i + 1..], "");
      assert s[..i] + "" + s[i + 1..] == s[..i] + s[i + 1..];
    } else {
      ReplaceFirstCharAbsent(s, c, "");
    }
  }

  /** Replacing one non-digit by another keeps the digits. */
  lemma ReplaceFirstCharDigits(s: string, c: char, rep: char)
    requires !IsDigit(c) && !IsDigit(rep)
    ensures Digits(ReplaceFirst(s, [c], [rep])) == Digits(s)
  {
    var i := IndexOf(s, [c]);
    if i != -1 {
      OccursAtChar(s, [c], i, 0);
      assert s == s[..i] + [c] + s[i + 1..];
      DigitsAppend(s[..i] + [c], s[i + 1..]);
      DigitsAppend(s[..i], [c]);
      DigitsAppend(s[..i] + [rep], s[i + 1..]);
      DigitsAppend(s[..i], [rep]);
    }
  }

  /** A digit string holds no separator. */
  lemma DigitsHaveNo(s: string, c: char)
    requires AllDigits(s) && !IsDigit(c)
    ensures c !in s
  {
  }

  /** `c` is kept by `s.replace(/[^\d,]/g, "")`. */
  predicate IsDigitOrComma(c: char) {
    IsDigit(c) || c == ','
  }

  /** `s.replace(/[^\d,]/g, "")`: the digits and commas of `s`, in order. */
  function DigitsAndCommas(s: string): (r: string)
    ensures forall i | 0 <= i < |r| :: IsDigitOrComma(r[i])
  {
    if s == [] then []
    else (if IsDigitOrComma(s[0]) then [s[0]] else []) + DigitsAndCommas(s[1..])
  }

  lemma {:induction false} DigitsAndCommasAppend(a: string, b: string)
    ensures DigitsAndCommas(a + b) == DigitsAndCommas(a) + DigitsAndCommas(b)
  {
    if a == [] {
      assert a + b == b;
    } else {
      assert (a + b)[1..] == a[1..] + b;
      DigitsAndCommasAppend(a[1..], b);
    }
  }

  /** Without commas, keeping digits and commas is keeping digits. */
  lemma {:induction false} DigitsAndCommasNoComma(s: string)
    requires ',' !in s
    ensures DigitsAndCommas(s) == Digits(s)
  {
    if s != [] {
      assert ',' !in s[1..];
      DigitsAndCommasNoComma(s[1..]);
    }
  }

  /** Keeping digits and commas, then digits, is keeping digits. */
  lemma {:induction false} DigitsOfDigitsAndCommas(s: string)
    ensures Digits(DigitsAndCommas(s)) == Digits(s)
  {
    if s != [] {
      DigitsOfDigitsAndCommas(s[1..]);
      DigitsAppend(if IsDigitOrComma(s[0]) then [s[0]] else [], DigitsAndCommas(s[1..]));
    }
  }

  /** The decimal digit character for `d`. */
  function DigitChar(d: nat): (c: char)
    requires d < 10
    ensures IsDigit(c)
  {
    ('0' as int + d) as char
  }

  function NatToString(n: nat): (r: string)
    ensures r != [] && AllDigits(r)
  {
    if n < 10 then [DigitChar(n)] else NatToString(n / 10) + [DigitChar(n % 10)]
  }

  /** `String(n)` for an integer-valued JavaScript number. */
  function IntToString(n: int): string {
    if n < 0 then "-" + NatToString(-n) else NatToString(n)
  }
}
