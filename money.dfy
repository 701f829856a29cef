/**
 * Prices as the storefront reads and writes them.  The display form is "$"
 * followed by the amount rounded half-up and grouped with "." every three
 * digits ("$1.234.567").  Reading a price deletes every "$" and "." and hands
 * the rest to `parseFloat`, in one place after turning the first "," into a
 * decimal point.
 */
module Money {
  import opened Wrappers
  import opened Text
  import Seqs

  /** `Math.round`: the nearest integer, halves rounded up. */
  function Round(x: real): (n: int)
    ensures n as real - 0.5 <= x < n as real + 0.5
  {
    (x + 0.5).Floor
  }

  lemma RoundInteger(n: int)
    ensures Round(n as real) == n
  {
  }

  /** The characters the price parser deletes: the regular expression `/[$.]/`. */
  predicate IsPriceMark(c: char) { c == '$' || c == '.' }

  predicate KeptByParser(c: char) { !IsPriceMark(c) }

  /** `s.replace(/[$.]/g, "")`. */
  function StripPriceMarks(s: string): string {
    Seqs.Filter(s, KeptByParser)
  }

  /** `parseFloat(price.replace(/[$.]/g, ""))`, the category page's reading; `None` is `NaN`. */
  function ParsePrice(s: string): Option<real> {
    ParseFloat(StripPriceMarks(s))
  }

  /** `price.replace(/[$.]/g, "").replace(",", ".")`: the marks removed and a decimal comma turned into a point. */
  function Cleaned(s: string): string {
    ReplaceFirst(StripPriceMarks(s), ',', '.')
  }

  /** `parseFloat(price.replace(/[$.]/g, "").replace(",", "."))`, the reading of the cart, the checkout and the price block. */
  function ParseCommaPrice(s: string): Option<real> {
    ParseFloat(Cleaned(s))
  }

  /**
   * A grouped numeral: a "." at every fourth position counted from the right
   * (the 4th, 8th, ... character from the end) and a digit everywhere else.
   */
  predicate Grouped(g: string) {
    forall i :: 0 <= i < |g| ==> if (|g| - i) % 4 == 0 then g[i] == '.' else IsDigit(g[i])
  }

  /** Digit grouping of `toLocaleString("es-AR")`: a "." before every group of three digits counted from the right. */
  function GroupThousands(d: string): (r: string)
    requires AllDigits(d)
    ensures d != [] ==> r != [] && r[0] == d[0]
    ensures d != [] ==> |r| == |d| + (|d| - 1) / 3
    ensures Grouped(r)
    decreases |d|
  {
    if |d| <= 3 then d
    else
      var head, tail := d[..|d| - 3], d[|d| - 3..];
      var g := GroupThousands(head);
      GroupedAppend(g, tail);
      g + "." + tail
  }

  /** A "." and three more digits after a grouped numeral give a grouped numeral. */
  lemma GroupedAppend(g: string, tail: string)
    requires Grouped(g) && |tail| == 3 && AllDigits(tail)
    ensures Grouped(g + "." + tail)
  {
    var r := g + "." + tail;
    forall i | 0 <= i < |r| ensures if (|r| - i) % 4 == 0 then r[i] == '.' else IsDigit(r[i]) {
      if i < |g| {
        assert r[i] == g[i];
        assert (|r| - i) % 4 == (|g| - i) % 4;
      } else if i > |g| {
        assert r[i] == tail[i - |g| - 1];
      }
    }
  }

  /** `formatPrice(x)`: "$", a "-" for negative amounts, then the rounded magnitude grouped by thousands. */
  function FormatPrice(x: real): (r: string)
    ensures |r| >= 2 && r[0] == '$'
    ensures r[1] == '-' <==> Round(x) < 0
    ensures Round(x) >= 0 ==> IsDigit(r[1])
    ensures var digits := Decimal(if Round(x) < 0 then -Round(x) else Round(x));
      var g := r[if Round(x) < 0 then 2 else 1..];
      |g| == |digits| + (|digits| - 1) / 3 && Grouped(g)
  {
    var n := Round(x);
    var g := GroupThousands(Decimal(if n < 0 then -n else n));
    var r := "$" + (if n < 0 then "-" else "") + g;
    assert r[if n < 0 then 2 else 1..] == g;
    r
  }

  /** Grouping inserts only "." marks: the parser's stripping undoes it. */
  lemma {:induction false} StripGroupThousands(d: string)
    requires AllDigits(d)
    ensures StripPriceMarks(GroupThousands(d)) == d
    decreases |d|
  {
    if |d| <= 3 {
      Seqs.FilterKeepsAll(d, KeptByParser);
    } else {
      var head, tail := d[..|d| - 3], d[|d| - 3..];
      var g := GroupThousands(head);
      assert GroupThousands(d) == g + "." + tail;
      StripGroupThousands(head);
      Seqs.FilterConcat(g, ".", KeptByParser);
      Seqs.FilterConcat(g + ".", tail, KeptByParser);
      assert StripPriceMarks(".") == [];
      Seqs.FilterKeepsAll(tail, KeptByParser);
      Seqs.TakeDrop(d, |d| - 3);
    }
  }

  /** Stripping the marks from a formatted price leaves the rounded amount written in decimal. */
  lemma StripFormatted(x: real)
    ensures StripPriceMarks(FormatPrice(x)) == IntToString(Round(x))
  {
    var n := Round(x);
    var sign := if n < 0 then "-" else "";
    var digits := Decimal(if n < 0 then -n else n);
    var g := GroupThousands(digits);
    StripGroupThousands(digits);
    Seqs.FilterConcat("$" + sign, g, KeptByParser);
    Seqs.FilterConcat("$", sign, KeptByParser);
    assert StripPriceMarks("$") == [];
    Seqs.FilterKeepsAll(sign, KeptByParser);
    assert FormatPrice(x) == ("$" + sign) + g;
  }

  /** Reading back a formatted price gives the rounded amount. */
  lemma FormatPriceParses(x: real)
    ensures ParsePrice(FormatPrice(x)) == Some(Round(x) as real)
  {
    StripFormatted(x);
    ParseFloatOfIntToString(Round(x));
  }

  /** The decimal-comma reading of a formatted price also gives the rounded amount. */
  lemma FormatPriceCommaParses(x: real)
    ensures ParseCommaPrice(FormatPrice(x)) == Some(Round(x) as real)
  {
    StripFormatted(x);
    IntToStringChars(Round(x), ',');
    ParseFloatOfIntToString(Round(x));
  }

  /** A price whose marks removed leave an integer numeral reads back, under both readings, as that integer. */
  lemma NumeralReadsBack(price: string, n: int)
    requires StripPriceMarks(price) == IntToString(n)
    ensures ParsePrice(price) == Some(n as real)
    ensures ParseCommaPrice(price) == Some(n as real)
  {
    IntToStringChars(n, ',');
    ParseFloatOfIntToString(n);
  }

  /** For every whole amount, `parse(formatPrice(n)) == n` under both readings. */
  lemma FormatPriceRoundTrip(n: int)
    ensures ParsePrice(FormatPrice(n as real)) == Some(n as real)
    ensures ParseCommaPrice(FormatPrice(n as real)) == Some(n as real)
  {
    RoundInteger(n);
    FormatPriceParses(n as real);
    FormatPriceCommaParses(n as real);
  }

  /** A displayed price is a fixed point: reading it and formatting the amount read gives the same text. */
  lemma ReformatIsIdempotent(x: real)
    ensures ParsePrice(FormatPrice(x)).Some?
    ensures FormatPrice(ParsePrice(FormatPrice(x)).value) == FormatPrice(x)
  {
    FormatPriceParses(x);
    SameRoundSameText(x, Round(x) as real);
  }

  /** Two amounts that round alike are written alike. */
  lemma SameRoundSameText(x: real, y: real)
    requires Round(x) == Round(y)
    ensures FormatPrice(x) == FormatPrice(y)
  {
  }

  /** Without a comma, the two readings agree. */
  lemma CommaFreeReadsAlike(s: string)
    requires ',' !in s
    ensures ParseCommaPrice(s) == ParsePrice(s)
  {
    Seqs.FilterMembers(s, KeptByParser);
  }
}
