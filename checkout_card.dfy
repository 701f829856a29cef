/**
 * The card fields of the checkout page: brand detection from the leading
 * digits, the MM/YY expiry check against the current month, and the three
 * `onChange` normalisers that rewrite what the customer types.
 */
module CheckoutCard {
  import opened Wrappers
  import opened Text
  import Seqs

  /** `"visa" | "mastercard" | "amex" | null`. */
  datatype CardBrand = Visa | Mastercard | Amex | NoBrand

  /** The classification `detectCardBrand` applies once white space is gone. */
  function BrandOfDigits(c: string): (b: CardBrand)
    ensures b == Visa <==> StartsWith(c, "4")
    ensures b == Amex <==> StartsWith(c, "34") || StartsWith(c, "37")
    ensures b == Mastercard <==> |c| >= 2 && ((c[0] == '5' && '1' <= c[1] <= '5') || (c[0] == '2' && '2' <= c[1] <= '7'))
  {
    assert StartsWith(c, "4") ==> c[..1][0] == '4';
    assert StartsWith(c, "34") || StartsWith(c, "37") ==> c[..2][0] == '3';
    if StartsWith(c, "4") then Visa
    else if |c| >= 2 && ((c[0] == '5' && '1' <= c[1] <= '5') || (c[0] == '2' && '2' <= c[1] <= '7')) then Mastercard
    else if StartsWith(c, "34") || StartsWith(c, "37") then Amex
    else NoBrand
  }

  /** `detectCardBrand(cardNumber)`. */
  function DetectCardBrand(cardNumber: string): CardBrand {
    BrandOfDigits(RemoveWhitespace(cardNumber))
  }

  /** The brand is decided by the first two characters alone. */
  lemma BrandByFirstTwo(c: string, d: string)
    requires |c| >= 2 && |d| >= 2 && c[..2] == d[..2]
    ensures BrandOfDigits(c) == BrandOfDigits(d)
  {
    assert c[0] == d[0] && c[1] == d[1];
    assert c[..1] == d[..1];
  }

  // ---------------------------------------------------------------- card number

  /** Amex numbers (leading 34 or 37) have 15 digits, every other card 16. */
  function CardNumberMaxLength(digits: string): nat {
    if StartsWith(digits, "34") || StartsWith(digits, "37") then 15 else 16
  }

  /** `s.replace(/(.{4})/g, "$1 ")`: a space after every complete group of four characters. */
  function SpaceAfterFours(s: string): string
    decreases |s|
  {
    if |s| < 4 then s else s[..4] + " " + SpaceAfterFours(s[4..])
  }

  /** The digits the card-number field keeps: all typed digits, cut to the brand's length. */
  function CardDigits(input: string): (d: string)
    ensures AllDigits(d) && |d| <= CardNumberMaxLength(KeepDigits(input)) && |d| <= |KeepDigits(input)|
    ensures d == KeepDigits(input)[..|d|]
    ensures |KeepDigits(input)| <= CardNumberMaxLength(KeepDigits(input)) ==> d == KeepDigits(input)
    ensures |KeepDigits(input)| > CardNumberMaxLength(KeepDigits(input)) ==> |d| == CardNumberMaxLength(KeepDigits(input))
  {
    var digits := KeepDigits(input);
    var n := CardNumberMaxLength(digits);
    if |digits| <= n then digits else digits[..n]
  }

  /** The card-number `onChange` normaliser: keep the digits, cut to length, group by four, trim. */
  function FormatCardNumber(input: string): string {
    Trim(SpaceAfterFours(CardDigits(input)))
  }

  /** On digits, the grouping puts a space exactly at every fifth position and a digit everywhere else. */
  lemma {:induction false} SpaceAfterFoursPositions(s: string)
    requires AllDigits(s)
    ensures |SpaceAfterFours(s)| == |s| + |s| / 4
    ensures forall i :: 0 <= i < |SpaceAfterFours(s)| ==>
      if i % 5 == 4 then SpaceAfterFours(s)[i] == ' ' else IsDigit(SpaceAfterFours(s)[i])
    decreases |s|
  {
    if |s| >= 4 {
      var rest := SpaceAfterFours(s[4..]);
      SpaceAfterFoursPositions(s[4..]);
      var g := s[..4] + " " + rest;
      assert SpaceAfterFours(s) == g;
      forall i | 0 <= i < |g| ensures if i % 5 == 4 then g[i] == ' ' else IsDigit(g[i]) {
        if i >= 5 {
          assert g[i] == rest[i - 5];
          assert i % 5 == (i - 5) % 5;
        }
      }
    }
  }

  /** Removing the white space from the grouping gives back the characters grouped. */
  lemma {:induction false} SpaceAfterFoursUndone(s: string)
    requires AllDigits(s)
    ensures RemoveWhitespace(SpaceAfterFours(s)) == s
    decreases |s|
  {
    if |s| < 4 {
      DigitsKeepNoWhitespace(s);
    } else {
      var head, rest := s[..4], SpaceAfterFours(s[4..]);
      SpaceAfterFoursUndone(s[4..]);
      Seqs.FilterConcat(head + " ", rest, IsNotWhitespace);
      Seqs.FilterConcat(head, " ", IsNotWhitespace);
      assert RemoveWhitespace(" ") == [];
      DigitsKeepNoWhitespace(head);
      assert head + s[4..] == s;
    }
  }

  /** Trimming the grouped digits removes at most the trailing space. */
  lemma TrimmedGrouping(d: string)
    requires AllDigits(d)
    ensures TrimStart(SpaceAfterFours(d)) == SpaceAfterFours(d)
    ensures Trim(SpaceAfterFours(d)) == SpaceAfterFours(d)[..|Trim(SpaceAfterFours(d))|]
    ensures RemoveWhitespace(Trim(SpaceAfterFours(d))) == d
  {
    var g := SpaceAfterFours(d);
    SpaceAfterFoursPositions(d);
    SpaceAfterFoursUndone(d);
    if g != [] {
      assert IsDigit(g[0]);
    }
    var r := TrimEnd(g);
    assert g == r + g[|r|..];
    Seqs.FilterConcat(r, g[|r|..], IsNotWhitespace);
    Seqs.FilterKeepsNone(g[|r|..], IsNotWhitespace);
  }

  /**
   * What the card-number field holds after any input: groups of four digits
   * separated by single spaces, no trailing space, and the spaces removed give
   * back the typed digits cut to 15 (Amex) or 16.
   */
  lemma FormatCardNumberShape(input: string)
    ensures RemoveWhitespace(FormatCardNumber(input)) == CardDigits(input)
    ensures forall i :: 0 <= i < |FormatCardNumber(input)| ==> (FormatCardNumber(input)[i] == ' ' <==> i % 5 == 4)
    ensures FormatCardNumber(input) == [] || FormatCardNumber(input)[|FormatCardNumber(input)| - 1] != ' '
  {
    var d := CardDigits(input);
    TrimmedGrouping(d);
    SpaceAfterFoursPositions(d);
    var g := SpaceAfterFours(d);
    var r := FormatCardNumber(input);
    assert r == Trim(g) && r == g[..|r|];
    assert RemoveWhitespace(r) == d;
  }

  /** Cutting the typed digits to the card length never changes their brand. */
  lemma CardDigitsKeepBrand(input: string)
    ensures BrandOfDigits(CardDigits(input)) == BrandOfDigits(KeepDigits(input))
  {
    var digits := KeepDigits(input);
    var d := CardDigits(input);
    if |digits| >= 2 {
      assert |d| >= 2;
      assert d[..2] == digits[..2];
      BrandByFirstTwo(d, digits);
    } else {
      assert d == digits;
    }
  }

  /** The brand icon shown for the formatted field is the brand of the digits typed. */
  lemma FormattedNumberKeepsBrand(input: string)
    ensures DetectCardBrand(FormatCardNumber(input)) == BrandOfDigits(KeepDigits(input))
  {
    var d := CardDigits(input);
    TrimmedGrouping(d);
    var r := FormatCardNumber(input);
    assert RemoveWhitespace(r) == d;
    assert DetectCardBrand(r) == BrandOfDigits(d);
    CardDigitsKeepBrand(input);
  }

  // ---------------------------------------------------------------- CVV

  /** The CVV `onChange` normaliser: digits only, at most 4 for an Amex card number and 3 otherwise. */
  function NormalizeCvv(input: string, brand: CardBrand): (r: string)
    ensures AllDigits(r)
    ensures |r| <= (if brand == Amex then 4 else 3) && |r| <= |KeepDigits(input)|
    ensures r == KeepDigits(input)[..|r|]
    ensures |KeepDigits(input)| <= (if brand == Amex then 4 else 3) ==> r == KeepDigits(input)
    ensures |KeepDigits(input)| > (if brand == Amex then 4 else 3) ==> |r| == (if brand == Amex then 4 else 3)
  {
    var digits := KeepDigits(input);
    var n := if brand == Amex then 4 else 3;
    if |digits| <= n then digits else digits[..n]
  }

  // ---------------------------------------------------------------- expiry

  /** `s.split(sep)`. */
  function Split(s: string, sep: char): (parts: seq<string>)
    ensures |parts| >= 1
  {
    if s == [] then [""]
    else if s[0] == sep then [""] + Split(s[1..], sep)
    else
      var rest := Split(s[1..], sep);
      [[s[0]] + rest[0]] + rest[1..]
  }

  lemma {:induction false} SplitWithoutSeparator(s: string, sep: char)
    requires forall i :: 0 <= i < |s| ==> s[i] != sep
    ensures Split(s, sep) == [s]
  {
    if s != [] {
      SplitWithoutSeparator(s[1..], sep);
      assert [s[0]] + s[1..] == s;
    }
  }

  lemma {:induction false} SplitAtFirstSeparator(a: string, b: string, sep: char)
    requires forall i :: 0 <= i < |a| ==> a[i] != sep
    ensures Split(a + [sep] + b, sep) == [a] + Split(b, sep)
  {
    if a == [] {
      assert a + [sep] + b == [sep] + b;
    } else {
      assert (a + [sep] + b)[1..] == a[1..] + [sep] + b;
      SplitAtFirstSeparator(a[1..], b, sep);
      assert [a[0]] + a[1..] == a;
    }
  }

  /**
   * `validateExpiryDate(value)` with the current year and month (1-12) passed
   * in.  `parseInt` may give `NaN` (`None`), and every comparison with `NaN`
   * is false, so such a part never rejects.
   */
  function ValidateExpiryDate(value: string, currentYear: int, currentMonth: int): (ok: bool)
    ensures |value| < 5 ==> ok
    ensures |Split(value, '/')| < 2 || |Split(value, '/')[0]| != 2 || |Split(value, '/')[1]| != 2 ==> ok
  {
    if |value| < 5 then true
    else
      var parts := Split(value, '/');
      if |parts| < 2 then true
      else
        var month, year := parts[0], parts[1];
        if month == [] || year == [] || |month| != 2 || |year| != 2 then true
        else
          !ExpiryRejected(ParseInt(month), ParseInt(year), currentYear, currentMonth)
  }

  /** The three rejecting comparisons of `validateExpiryDate`, each false when a side it reads is `NaN`. */
  function ExpiryRejected(month: Option<int>, yy: Option<int>, currentYear: int, currentMonth: int): bool {
    || (month.Some? && (month.value < 1 || month.value > 12))
    || (yy.Some? && 2000 + yy.value < currentYear)
    || (yy.Some? && 2000 + yy.value == currentYear && month.Some? && month.value < currentMonth)
  }

  /**
   * On a complete two-digit "MM/YY", the expiry is rejected exactly when the
   * month is outside 1-12 or (20YY, MM) comes before the current year and month.
   */
  lemma ValidateExpiryTwoDigits(mm: string, yy: string, currentYear: int, currentMonth: int)
    requires |mm| == 2 && |yy| == 2 && AllDigits(mm) && AllDigits(yy)
    ensures var month := 10 * DigitValue(mm[0]) + DigitValue(mm[1]);
            var year := 2000 + 10 * DigitValue(yy[0]) + DigitValue(yy[1]);
            !ValidateExpiryDate(mm + "/" + yy, currentYear, currentMonth) <==>
              month < 1 || month > 12 || year < currentYear || (year == currentYear && month < currentMonth)
  {
    forall i | 0 <= i < |yy| ensures yy[i] != '/' {
      assert IsDigit(yy[i]);
    }
    forall i | 0 <= i < |mm| ensures mm[i] != '/' {
      assert IsDigit(mm[i]);
    }
    SplitWithoutSeparator(yy, '/');
    SplitAtFirstSeparator(mm, yy, '/');
    assert mm + "/" + yy == mm + ['/'] + yy;
    assert Split(mm + "/" + yy, '/') == [mm, yy];
    ParseIntTwoDigits(mm);
    ParseIntTwoDigits(yy);
  }

  /** The expiry `onChange` normaliser: digits only, a "/" after the first two, at most "MM/YY". */
  function NormalizeExpiry(input: string): (r: string)
    ensures |r| <= 5
    ensures var d := KeepDigits(input);
            if |d| < 2 then r == d
            else 3 <= |r| <= |d| + 1 && r[..2] == d[..2] && r[2] == '/' && r[3..] == d[2..|r| - 1]
    ensures var d := KeepDigits(input); |d| >= 2 ==> |r| == (if |d| < 4 then |d| else 4) + 1
  {
    var digits := KeepDigits(input);
    var value := if |digits| >= 2 then digits[..2] + "/" + digits[2..if |digits| < 4 then |digits| else 4] else digits;
    value[..if |value| <= 5 then |value| else 5]
  }

  /** The message the expiry field shows when a complete date is rejected. */
  const ExpiryErrorMessage := "La fecha de vencimiento no puede ser anterior a la fecha actual"

  /** The expiry error after an input: set only for a complete "MM/YY" that fails validation, cleared otherwise. */
  function ExpiryError(formatted: string, currentYear: int, currentMonth: int): string {
    if |formatted| == 5 && !ValidateExpiryDate(formatted, currentYear, currentMonth) then ExpiryErrorMessage else ""
  }

  /**
   * Typing into the expiry field raises the error exactly when at least four
   * digits were typed and the first four, read as MM/YY, name an impossible
   * month or a month already past.
   */
  lemma ExpiryErrorIff(input: string, currentYear: int, currentMonth: int)
    ensures var d := KeepDigits(input);
            ExpiryError(NormalizeExpiry(input), currentYear, currentMonth) != "" <==>
              |d| >= 4 &&
              var month := 10 * DigitValue(d[0]) + DigitValue(d[1]);
              var year := 2000 + 10 * DigitValue(d[2]) + DigitValue(d[3]);
              month < 1 || month > 12 || year < currentYear || (year == currentYear && month < currentMonth)
  {
    var d := KeepDigits(input);
    var r := NormalizeExpiry(input);
    if |d| >= 4 {
      assert |r| == 5;
      assert r == d[..2] + "/" + d[2..4];
      ValidateExpiryTwoDigits(d[..2], d[2..4], currentYear, currentMonth);
    } else if |d| >= 2 {
      assert |r| < 5;
    }
  }
}
