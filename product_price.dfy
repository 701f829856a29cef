/**
 * The product card's price block: which amount is shown plainly, which one is
 * struck through, which one is highlighted and which caption goes with it,
 * decided by the presence of a cash price, the price label and the
 * "last units" flag.  Without a cash price, a "previous price" 20% above the
 * current one is made up and struck through.
 */
module ProductPrice {
  import opened Wrappers
  import opened Text
  import Seqs
  import opened Money

  datatype PriceLabel = Transferencia | Oportunidad | Credito

  /** The component's props; the optional ones are `None` when omitted. */
  datatype Props = Props(price: string, cashPrice: Option<string>, priceLabel: Option<PriceLabel>, isLastUnits: Option<bool>)

  /**
   * What the block shows: the first amount (struck through or not, with the
   * "Tarjeta de Crédito/Débito" caption or not), then an optional highlighted
   * amount with its note.
   */
  datatype Layout = Layout(shown: string, struck: bool, cardCaption: bool, highlighted: Option<string>, note: string)

  const CashNote := "con Transferencia o Efectivo"
  const DiscountNote := "15% OFF con Transferencia o Efectivo"
  const LastUnitsNote := "\U{00DA}ltimas Unidades"
  /** The caption of the "oportunidad" layout, one letter short as the component writes it. */
  const OpportunityNote := "\U{00DA}ltimas Unidade"

  /** A JavaScript string is truthy when it is present and not empty. */
  predicate Truthy(s: Option<string>) { s.Some? && s.value != "" }

  /** The layout `ProductPrice` renders for the given props. */
  function Render(props: Props): (r: Layout)
    ensures var tag := props.priceLabel.GetOr(Transferencia);
      var lastUnits := props.isLastUnits.GetOr(false);
      && (r.struck <==>
            if Truthy(props.cashPrice) then tag == Oportunidad || (tag != Credito && lastUnits)
            else lastUnits)
      && r.cardCaption == !r.struck
      && (Truthy(props.cashPrice) ==> r.shown == props.price && r.highlighted == props.cashPrice)
      && (!Truthy(props.cashPrice) ==>
            if lastUnits then r.shown == PreviousPrice(props.price) && r.highlighted == Some(props.price)
            else r.shown == props.price && r.highlighted == None)
    ensures var tag := props.priceLabel.GetOr(Transferencia);
      var lastUnits := props.isLastUnits.GetOr(false);
      && (r.note == CashNote <==> Truthy(props.cashPrice) && tag == Credito)
      && (r.note == OpportunityNote <==> Truthy(props.cashPrice) && tag == Oportunidad)
      && (r.note == DiscountNote <==> Truthy(props.cashPrice) && tag == Transferencia && !lastUnits)
      && (r.note == LastUnitsNote <==> lastUnits && (!Truthy(props.cashPrice) || tag == Transferencia))
      && (r.note == "" <==> !Truthy(props.cashPrice) && !lastUnits)
  {
    var tag := props.priceLabel.GetOr(Transferencia);
    var lastUnits := props.isLastUnits.GetOr(false);
    if Truthy(props.cashPrice) then
      var cash := props.cashPrice.value;
      if tag == Credito then Layout(props.price, false, true, Some(cash), CashNote)
      else if tag == Oportunidad then Layout(props.price, true, false, Some(cash), OpportunityNote)
      else if lastUnits then Layout(props.price, true, false, Some(if cash != "" then cash else props.price), LastUnitsNote)
      else Layout(props.price, false, true, Some(cash), DiscountNote)
    else if lastUnits then
      Layout(PreviousPrice(props.price), true, false, Some(props.price), LastUnitsNote)
    else
      Layout(props.price, false, true, None, "")
  }

  /** Omitted props behave as label "transferencia" and no "last units". */
  lemma OmittedPropsDefault(price: string, cashPrice: Option<string>)
    ensures Render(Props(price, cashPrice, None, None))
         == Render(Props(price, cashPrice, Some(Transferencia), Some(false)))
  {
  }

  /** With a cash price, label "oportunidad" wins over the "last units" flag. */
  lemma OpportunityIgnoresLastUnits(price: string, cash: string, lastUnits: Option<bool>)
    requires cash != ""
    ensures Render(Props(price, Some(cash), Some(Oportunidad), lastUnits))
         == Layout(price, true, false, Some(cash), OpportunityNote)
  {
  }

  /**
   * `calculatePreviousPrice`: the price unchanged when it does not read as a
   * number; otherwise 1.2 times its value, rounded and written as a price.
   */
  function PreviousPrice(price: string): string {
    Markup(price, ParseCommaPrice(price))
  }

  /**
   * The previous price given what `parseFloat` read from the current one: the
   * current price when nothing was read, otherwise a price that reads back as
   * 1.2 times the value read, rounded.
   */
  function Markup(price: string, reading: Option<real>): (r: string)
    ensures reading == None ==> r == price
    ensures reading.Some? ==> |r| >= 2 && r[0] == '$' && StripPriceMarks(r) == IntToString(Round(1.2 * reading.value))
    ensures reading.Some? ==> Money.Grouped(r[if Round(1.2 * reading.value) < 0 then 2 else 1..])
  {
    match reading
    case None => price
    case Some(value) => StripFormatted(1.2 * value); FormatPrice(1.2 * value)
  }

  /** A marked-up price reads back, by the component's own reading, as 1.2 times the value read, rounded. */
  lemma MarkupReadsBack(price: string, v: real)
    ensures ParseCommaPrice(Markup(price, Some(v))) == Some(Round(1.2 * v) as real)
  {
    var r := Markup(price, Some(v));
    assert StripPriceMarks(r) == IntToString(Round(1.2 * v));
    NumeralReadsBack(r, Round(1.2 * v));
  }

  /** A price that does not read as a number is its own previous price. */
  lemma UnreadablePriceKept(price: string)
    requires ParseCommaPrice(price) == None
    ensures PreviousPrice(price) == price
  {
  }

  /**
   * On a whole-peso price written by the store's own formatting, the previous
   * price is the markup of the amount itself, so (by `Markup`'s contract) it
   * reads back as 1.2 times the amount, rounded, which is never below the amount.
   */
  lemma PreviousOfFormatted(n: nat)
    ensures PreviousPrice(FormatPrice(n as real)) == Markup(FormatPrice(n as real), Some(n as real))
    ensures Round(1.2 * n as real) >= n
  {
    FormatPriceRoundTrip(n);
  }

  predicate NoDigits(s: string) { forall i :: 0 <= i < |s| ==> !IsDigit(s[i]) }

  /** A price with no digit at all (such as "Consultar") is struck through as it is. */
  lemma NoDigitsNoPreviousPrice(price: string)
    requires NoDigits(price)
    ensures PreviousPrice(price) == price
  {
    var stripped := StripPriceMarks(price);
    Seqs.FilterMembers(price, KeptByParser);
    assert NoDigits(stripped) by {
      forall i | 0 <= i < |stripped| ensures !IsDigit(stripped[i]) {
        assert stripped[i] in stripped;
        var j :| 0 <= j < |price| && price[j] == stripped[i];
      }
    }
    var c := Cleaned(price);
    assert NoDigits(c) by {
      ReplaceFirstChars(stripped, ',', '.');
      forall k | 0 <= k < |c| ensures !IsDigit(c[k]) {
        assert c[k] in {stripped[k], '.'};
      }
    }
    NoDigitsParseFloat(c);
  }

  /** `parseFloat` of a text with no digit is `NaN`. */
  lemma NoDigitsParseFloat(s: string)
    requires NoDigits(s)
    ensures ParseFloat(s) == None
  {
    var t := TrimStart(s);
    assert NoDigits(t) by {
      forall i | 0 <= i < |t| ensures !IsDigit(t[i]) {
        assert t[i] == s[|s| - |t| + i];
      }
    }
    var signed := t != [] && (t[0] == '-' || t[0] == '+');
    var body := if signed then t[1..] else t;
    assert NoDigits(body) by {
      forall i | 0 <= i < |body| ensures !IsDigit(body[i]) {
        assert body[i] == if signed then t[i + 1] else t[i];
      }
    }
    assert DigitPrefix(body) == [];
    var rest := body[|DigitPrefix(body)|..];
    assert rest == body;
    if rest != [] && rest[0] == '.' {
      assert rest[1..] == [] || !IsDigit(rest[1..][0]);
      assert DigitPrefix(rest[1..]) == [];
    }
  }
}
