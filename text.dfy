/**
 * The pieces of JavaScript's string library the storefront relies on: the `\s`
 * class and `trim`, the `\D` class, `includes`, `replace` of a single
 * character, `Number#toString` on integers, `parseInt(s, 10)` and `parseFloat`.
 */
module Text {
  import opened Wrappers
  import Seqs

  /** White space as JavaScript's `\s` and `String.prototype.trim` understand it. */
  predicate IsWhitespace(c: char) {
    || c == ' ' || c == '\t' || c == '\n' || c == '\r' || c == '\U{000B}' || c == '\U{000C}'
    || c == '\U{00A0}' || c == '\U{1680}' || ('\U{2000}' <= c <= '\U{200A}')
    || c == '\U{2028}' || c == '\U{2029}' || c == '\U{202F}' || c == '\U{205F}'
    || c == '\U{3000}' || c == '\U{FEFF}'
  }

  predicate IsNotWhitespace(c: char) { !IsWhitespace(c) }

  predicate IsDigit(c: char) { '0' <= c <= '9' }

  predicate AllDigits(s: string) { forall i :: 0 <= i < |s| ==> IsDigit(s[i]) }

  predicate AllWhitespace(s: string) { forall i :: 0 <= i < |s| ==> IsWhitespace(s[i]) }

  /** Leading white space removed: what is dropped is white space, and what is left starts with something else. */
  function TrimStart(s: string): (r: string)
    ensures |r| <= |s| && r == s[|s| - |r|..]
    ensures AllWhitespace(s[..|s| - |r|])
    ensures r == [] || !IsWhitespace(r[0])
  {
    if s != [] && IsWhitespace(s[0]) then TrimStart(s[1..]) else s
  }

  /** Trailing white space removed: what is dropped is white space, and what is left ends with something else. */
  function TrimEnd(s: string): (r: string)
    ensures |r| <= |s| && r == s[..|r|]
    ensures AllWhitespace(s[|r|..])
    ensures r == [] || !IsWhitespace(r[|r| - 1])
  {
    if s != [] && IsWhitespace(s[|s| - 1]) then TrimEnd(s[..|s| - 1]) else s
  }

  /** `s.trim()`. */
  function Trim(s: string): string {
    TrimEnd(TrimStart(s))
  }

  /** `s.trim()` is empty (falsy) exactly when `s` is made of white space only. */
  lemma TrimEmptyIff(s: string)
    ensures Trim(s) == [] <==> AllWhitespace(s)
  {
    var t := TrimStart(s);
    if Trim(s) == [] {
      assert AllWhitespace(t[0..]);
      assert t == [];
      assert s == s[..|s| - |t|];
    } else {
      var r := Trim(s);
      assert r == t[..|r|] && t == s[|s| - |t|..];
      assert s[|s| - |t|] == r[0];
      if t != [] {
        assert !IsWhitespace(s[|s| - |t|]);
      }
    }
  }

  /** `s.replace(/\s/g, "")`. */
  function RemoveWhitespace(s: string): string {
    Seqs.Filter(s, IsNotWhitespace)
  }

  /** Digits are not white space, so removing white space from digits changes nothing. */
  lemma DigitsKeepNoWhitespace(s: string)
    requires AllDigits(s)
    ensures RemoveWhitespace(s) == s
  {
    forall i | 0 <= i < |s| ensures IsNotWhitespace(s[i]) {
      assert IsDigit(s[i]);
    }
    Seqs.FilterKeepsAll(s, IsNotWhitespace);
  }

  /** `s.replace(/\D/g, "")`. */
  function KeepDigits(s: string): (r: string)
    ensures AllDigits(r)
  {
    Seqs.Filter(s, IsDigit)
  }

  /** Input made of digits only goes through `KeepDigits` unchanged. */
  lemma KeepDigitsOfDigits(s: string)
    requires AllDigits(s)
    ensures KeepDigits(s) == s
  {
    Seqs.FilterKeepsAll(s, IsDigit);
  }

  /** `s.startsWith(p)`. */
  predicate StartsWith(s: string, p: string) {
    |p| <= |s| && s[..|p|] == p
  }

  /** `s.includes(sub)`. */
  predicate Contains(s: string, sub: string)
    decreases |s|
  {
    StartsWith(s, sub) || (s != [] && Contains(s[1..], sub))
  }

  /** `sub` occurs in `s` starting at position `i`. */
  predicate OccursAt(s: string, sub: string, i: int) {
    0 <= i && i + |sub| <= |s| && s[i..i + |sub|] == sub
  }

  /** An occurrence anywhere is found by `includes`. */
  lemma {:induction false} OccurrenceIsFound(s: string, sub: string, i: nat)
    requires OccursAt(s, sub, i)
    ensures Contains(s, sub)
    decreases i
  {
    if i == 0 {
      assert StartsWith(s, sub);
    } else {
      assert OccursAt(s[1..], sub, i - 1) by {
        assert s[1..][i - 1..i - 1 + |sub|] == s[i..i + |sub|];
      }
      OccurrenceIsFound(s[1..], sub, i - 1);
    }
  }

  /** What `includes` finds is an occurrence. */
  lemma {:induction false} FoundIsOccurrence(s: string, sub: string)
    requires Contains(s, sub)
    ensures exists i :: OccursAt(s, sub, i)
    decreases |s|
  {
    if StartsWith(s, sub) {
      assert OccursAt(s, sub, 0);
    } else {
      FoundIsOccurrence(s[1..], sub);
      var i :| OccursAt(s[1..], sub, i);
      assert s[1..][i..i + |sub|] == s[i + 1..i + 1 + |sub|];
      assert OccursAt(s, sub, i + 1);
    }
  }

  /** `includes` finds `sub` exactly when it occurs at some position of `s`. */
  lemma ContainsIff(s: string, sub: string)
    ensures Contains(s, sub) <==> exists i :: OccursAt(s, sub, i)
  {
    if Contains(s, sub) {
      FoundIsOccurrence(s, sub);
    } else {
      forall i | OccursAt(s, sub, i) ensures false {
        OccurrenceIsFound(s, sub, i);
      }
    }
  }

  /** `s.replace(c, d)` with a one-character pattern: only the first `c` becomes `d`. */
  function ReplaceFirst(s: string, c: char, d: char): (r: string)
    ensures |r| == |s|
    ensures c !in s ==> r == s
  {
    if s == [] then []
    else if s[0] == c then [d] + s[1..]
    else [s[0]] + ReplaceFirst(s[1..], c, d)
  }

  /** At the first occurrence `i` of `c`, `d` takes its place and everything else is kept. */
  lemma {:induction false} ReplaceFirstAt(s: string, c: char, d: char, i: nat)
    requires i < |s| && s[i] == c && c !in s[..i]
    ensures ReplaceFirst(s, c, d) == s[..i] + [d] + s[i + 1..]
  {
    if i > 0 {
      assert s[0] == s[..i][0];
      assert c !in s[1..][..i - 1] by {
        assert s[1..][..i - 1] == s[..i][1..];
      }
      ReplaceFirstAt(s[1..], c, d, i - 1);
      assert s[..i] == [s[0]] + s[1..][..i - 1];
    }
  }

  /** Every character of the result is the one at the same place or `d`. */
  lemma {:induction false} ReplaceFirstChars(s: string, c: char, d: char)
    ensures forall k :: 0 <= k < |s| ==> ReplaceFirst(s, c, d)[k] in {s[k], d}
  {
    if s != [] && s[0] != c {
      ReplaceFirstChars(s[1..], c, d);
      assert forall k :: 1 <= k < |s| ==> ReplaceFirst(s, c, d)[k] == ReplaceFirst(s[1..], c, d)[k - 1];
    }
  }

  function DigitValue(c: char): int { c as int - '0' as int }

  /** The value of a string of decimal digits, read left to right. */
  function DecimalValue(d: string): (n: nat)
    requires AllDigits(d)
  {
    if d == [] then 0 else 10 * DecimalValue(d[..|d| - 1]) + DigitValue(d[|d| - 1])
  }

  /** `n.toString()` for a non-negative integer: the shortest decimal numeral of `n`. */
  function Decimal(n: nat): (d: string)
    ensures |d| >= 1 && AllDigits(d)
    ensures DecimalValue(d) == n
    ensures |d| > 1 ==> d[0] != '0'
  {
    var last := ['0' + (n % 10) as char];
    if n < 10 then
      last
    else
      var d := Decimal(n / 10) + last;
      assert d[..|d| - 1] == Decimal(n / 10);
      d
  }

  function Pow10(k: nat): (p: nat)
    ensures p >= 1
  {
    if k == 0 then 1 else 10 * Pow10(k - 1)
  }

  /** A number with k digits (between 10^(k-1) and 10^k) is written with exactly k characters. */
  lemma {:induction false} DecimalLength(n: nat, k: nat)
    requires k >= 1 && Pow10(k - 1) <= n < Pow10(k)
    ensures |Decimal(n)| == k
  {
    if k > 1 {
      DecimalLength(n / 10, k - 1);
    }
  }

  /** `i.toString()` for any integer. */
  function IntToString(i: int): string {
    if i < 0 then "-" + Decimal(-i) else Decimal(i)
  }

  /** The longest prefix of `s` made of digits. */
  function DigitPrefix(s: string): (r: string)
    ensures |r| <= |s| && r == s[..|r|] && AllDigits(r)
    ensures |r| == |s| || !IsDigit(s[|r|])
  {
    if s != [] && IsDigit(s[0]) then
      var r := [s[0]] + DigitPrefix(s[1..]);
      assert r == s[..|r|];
      r
    else []
  }

  /**
   * `parseInt(s, 10)`: skip leading white space, read an optional sign, then
   * as many digits as there are; `None` stands for `NaN` (no digit at all).
   */
  function ParseInt(s: string): Option<int> {
    var t := TrimStart(s);
    var signed := t != [] && (t[0] == '-' || t[0] == '+');
    var digits := DigitPrefix(if signed then t[1..] else t);
    if digits == [] then None
    else
      var magnitude: int := DecimalValue(digits);
      Some(if signed && t[0] == '-' then -magnitude else magnitude)
  }

  /**
   * `parseFloat(s)` on decimal notation: skip leading white space, read an
   * optional sign, the digits before an optional ".", and the digits after it;
   * `None` (`NaN`) when neither part has a digit.  What follows is ignored.
   */
  function ParseFloat(s: string): Option<real> {
    var t := TrimStart(s);
    var signed := t != [] && (t[0] == '-' || t[0] == '+');
    var body := if signed then t[1..] else t;
    var whole := DigitPrefix(body);
    var rest := body[|whole|..];
    var fraction := if rest != [] && rest[0] == '.' then DigitPrefix(rest[1..]) else [];
    if whole == [] && fraction == [] then None
    else
      var magnitude := Magnitude(whole, fraction);
      Some(if signed && t[0] == '-' then -magnitude else magnitude)
  }

  /** The value of the decimal numeral `whole.fraction`: each fraction digit moves in front of the point, then a tenth is taken. */
  function Magnitude(whole: string, fraction: string): (m: real)
    requires AllDigits(whole) && AllDigits(fraction)
    ensures m >= 0.0
    ensures fraction == [] ==> m == DecimalValue(whole) as real
    decreases |fraction|
  {
    if fraction == [] then DecimalValue(whole) as real
    else Magnitude(whole + [fraction[0]], fraction[1..]) / 10.0
  }

  /** On a plain numeral, `parseFloat` is its decimal value. */
  lemma ParseFloatOfDigits(d: string)
    requires d != [] && AllDigits(d)
    ensures ParseFloat(d) == Some(DecimalValue(d) as real)
  {
    assert IsDigit(d[0]) && !IsWhitespace(d[0]);
    var t := TrimStart(d);
    assert t == d;
    assert !(t[0] == '-' || t[0] == '+');
    DigitPrefixOfDigits(d);
    var rest := d[|DigitPrefix(d)|..];
    assert rest == [];
  }

  /** The digit prefix of a numeral is all of it. */
  lemma {:induction false} DigitPrefixOfDigits(d: string)
    requires AllDigits(d)
    ensures DigitPrefix(d) == d
  {
    if d != [] {
      assert IsDigit(d[0]);
      DigitPrefixOfDigits(d[1..]);
    }
  }

  /** On two decimal digits, `parseInt` is the two-digit value. */
  lemma ParseIntTwoDigits(s: string)
    requires |s| == 2 && AllDigits(s)
    ensures ParseInt(s) == Some(10 * DigitValue(s[0]) + DigitValue(s[1]))
  {
    assert !IsWhitespace(s[0]) && s[0] != '-' && s[0] != '+';
    assert TrimStart(s) == s;
    assert DigitPrefix(s[1..][1..]) == [];
    assert DigitPrefix(s[1..]) == s[1..];
    assert DigitPrefix(s) == s;
    assert s[..1] == [s[0]];
    assert DecimalValue(s[..1]) == DigitValue(s[0]);
  }

  /** `parseFloat` reads `i.toString()` back as `i`. */
  lemma ParseFloatOfIntToString(i: int)
    ensures ParseFloat(IntToString(i)) == Some(i as real)
  {
    if i < 0 {
      var d := Decimal(-i);
      var t := IntToString(i);
      assert !IsWhitespace(t[0]);
      assert TrimStart(t) == t;
      assert t[1..] == d;
      DigitPrefixOfDigits(d);
      assert d[|DigitPrefix(d)|..] == [];
    } else {
      ParseFloatOfDigits(Decimal(i));
    }
  }

  /** A numeral written by `toString` has no character besides digits and a leading "-". */
  lemma IntToStringChars(i: int, c: char)
    requires c != '-' && !IsDigit(c)
    ensures c !in IntToString(i)
  {
  }
}
