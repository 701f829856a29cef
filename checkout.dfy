/**
 * The checkout page: the pricing engine (subtotal, 15% discount for transfer
 * or cash, 60% interest on 12 card installments), the order text handed to the
 * messaging link for transfer and cash, and the checkout action itself.
 */
module Checkout {
  import opened Wrappers
  import opened Text
  import Seqs
  import Money
  import opened CartStore
  import opened CheckoutCard

  datatype PaymentMethod = Transferencia | Efectivo | Tarjeta
  datatype Installments = One | Three | Six | Twelve
  datatype DeliveryOption = Envio | Retiro
  datatype ShippingMethod = ViaCargo | Andreani | FletePrivado

  /** The customer form, every field as typed (after its normaliser, where it has one). */
  datatype FormData = FormData(
    name: string, email: string, address: string, city: string, postalCode: string,
    cardNumber: string, cardExpiry: string, cardCvv: string, cardholderName: string, documentId: string)

  const EmptyForm := FormData("", "", "", "", "", "", "", "", "", "")

  // ---------------------------------------------------------------- pricing

  /** One line's contribution to `calculateSubtotal`: the list price (never the cash price) times quantity. */
  function SubtotalLine(item: CartItem): real {
    LineAmount(Money.ParseCommaPrice(item.product.price), item.quantity)
  }

  /** `calculateSubtotal()`. */
  function Subtotal(items: seq<CartItem>): real {
    if items == [] then 0.0 else Subtotal(items[..|items| - 1]) + SubtotalLine(items[|items| - 1])
  }

  /** `calculateDiscount()`. */
  function Discount(subtotal: real, payment: PaymentMethod): real {
    if payment == Transferencia || payment == Efectivo then subtotal * 0.15 else 0.0
  }

  /** `calculateInterest()`. */
  function Interest(subtotal: real, payment: PaymentMethod, installments: Installments): real {
    if payment == Tarjeta && installments == Twelve then subtotal * 0.6 else 0.0
  }

  /** `calculateTotal()`. */
  function Total(subtotal: real, payment: PaymentMethod, installments: Installments): real {
    subtotal - Discount(subtotal, payment) + Interest(subtotal, payment, installments)
  }

  /**
   * The pricing rule: transfer and cash pay 85% of the subtotal, card in 12
   * installments 160%, card in 1, 3 or 6 installments the subtotal itself; a
   * discount and an interest never apply together.
   */
  lemma PricingRule(subtotal: real, payment: PaymentMethod, installments: Installments)
    ensures Discount(subtotal, payment) == 0.0 || Interest(subtotal, payment, installments) == 0.0
    ensures payment != Tarjeta ==> Total(subtotal, payment, installments) == 0.85 * subtotal
    ensures payment == Tarjeta && installments == Twelve ==> Total(subtotal, payment, installments) == 1.6 * subtotal
    ensures payment == Tarjeta && installments != Twelve ==> Total(subtotal, payment, installments) == subtotal
  {
  }

  /** The discount and interest lines of the summary appear exactly when their amount is positive. */
  lemma SummaryLinesShown(subtotal: real, payment: PaymentMethod, installments: Installments)
    ensures Discount(subtotal, payment) > 0.0 <==> (payment == Transferencia || payment == Efectivo) && subtotal > 0.0
    ensures Interest(subtotal, payment, installments) > 0.0 <==> payment == Tarjeta && installments == Twelve && subtotal > 0.0
    ensures !(Discount(subtotal, payment) > 0.0 && Interest(subtotal, payment, installments) > 0.0)
  {
  }

  /** When no line has a cash price, the checkout subtotal and the cart's own total agree. */
  lemma {:induction false} SubtotalMatchesCartTotal(items: seq<CartItem>)
    requires forall i :: 0 <= i < |items| ==> items[i].product.cashPrice.None? || items[i].product.cashPrice == Some("")
    ensures Subtotal(items) == CartTotal(items)
  {
    if items != [] {
      SubtotalMatchesCartTotal(items[..|items| - 1]);
    }
  }

  /** Appending a zero digit multiplies by ten. */
  lemma DecimalTimesTen(n: nat)
    requires n >= 1
    ensures Decimal(10 * n) == Decimal(n) + "0"
  {
    assert (10 * n) / 10 == n && (10 * n) % 10 == 0;
  }

  /** Multiplying by a thousand appends three zero digits. */
  lemma DecimalThousands(t: nat)
    requires t >= 1
    ensures Decimal(t * 1000) == Decimal(t) + "000"
  {
    var t10, t100 := 10 * t, 100 * t;
    DecimalTimesTen(t);
    DecimalTimesTen(t10);
    assert 10 * t10 == t100;
    DecimalTimesTen(t100);
    assert 10 * t100 == t * 1000;
  }

  /** Five digits are grouped as two, ".", three. */
  lemma GroupFiveDigits(d: string)
    requires |d| == 5 && AllDigits(d)
    ensures Money.GroupThousands(d) == d[..2] + "." + d[2..]
  {
    assert Money.GroupThousands(d[..2]) == d[..2];
  }

  /** `formatPrice` on a whole amount of tens of thousands of pesos: "$" then the thousands, ".", "000". */
  lemma FormatTensOfThousands(t: nat)
    requires 10 <= t < 100
    ensures Money.FormatPrice((t * 1000) as real) == "$" + Decimal(t) + ".000"
  {
    var n := t * 1000;
    Money.RoundInteger(n);
    DecimalThousands(t);
    var d := Decimal(n);
    DecimalLength(t, 2);
    GroupFiveDigits(d);
    assert d[..2] == Decimal(t) && d[2..] == "000";
    assert Money.FormatPrice(n as real) == "$" + "" + Money.GroupThousands(d);
  }

  /** The list price "$10.000" reads as 10000 pesos. */
  lemma TenThousandParses()
    ensures Money.ParseCommaPrice("$10.000") == Some(10000.0)
  {
    assert Decimal(1) == "1";
    assert Decimal(10) == "10";
    FormatTensOfThousands(10);
    assert "$" + Decimal(10) + ".000" == "$10.000";
    Money.FormatPriceRoundTrip(10000);
  }

  /** The subtotal of a cart holding one "$10.000" line ordered `q` times. */
  lemma TenThousandLine(p: CartProduct, q: int)
    requires p.price == "$10.000"
    ensures Subtotal([CartItem(p, q)]) == 10000.0 * q as real
  {
    TenThousandParses();
    assert [CartItem(p, q)][..0] == [];
  }

  /** One "$10.000" line ordered twice, paid by transfer: $20.000 less a 3000-peso discount, "$17.000" in all. */
  lemma TransferScenario(p: CartProduct)
    requires p.price == "$10.000"
    ensures Subtotal([CartItem(p, 2)]) == 20000.0
    ensures Discount(20000.0, Transferencia) == 3000.0
    ensures Money.FormatPrice(Total(20000.0, Transferencia, One)) == "$17.000"
  {
    TenThousandLine(p, 2);
    TransferTotal();
  }

  lemma TransferTotal()
    ensures Discount(20000.0, Transferencia) == 3000.0
    ensures Money.FormatPrice(Total(20000.0, Transferencia, One)) == "$17.000"
  {
    assert Total(20000.0, Transferencia, One) == 17000.0;
    FormatSeventeenThousand();
  }

  lemma FormatSeventeenThousand()
    ensures Money.FormatPrice(17000.0) == "$17.000"
  {
    assert Decimal(17) == "17" by {
      assert Decimal(1) == "1";
    }
    FormatTensOfThousands(17);
  }

  /** One "$10.000" line paid by card in 12 installments: 6000 pesos of interest, "$16.000" in all. */
  lemma TwelveInstallmentsScenario(p: CartProduct)
    requires p.price == "$10.000"
    ensures Subtotal([CartItem(p, 1)]) == 10000.0
    ensures Interest(10000.0, Tarjeta, Twelve) == 6000.0
    ensures Money.FormatPrice(Total(10000.0, Tarjeta, Twelve)) == "$16.000"
  {
    TenThousandLine(p, 1);
    TwelveInstallmentsTotal();
  }

  lemma TwelveInstallmentsTotal()
    ensures Interest(10000.0, Tarjeta, Twelve) == 6000.0
    ensures Money.FormatPrice(Total(10000.0, Tarjeta, Twelve)) == "$16.000"
  {
    assert Total(10000.0, Tarjeta, Twelve) == 16000.0;
    FormatSixteenThousand();
  }

  lemma FormatSixteenThousand()
    ensures Money.FormatPrice(16000.0) == "$16.000"
  {
    assert Decimal(16) == "16" by {
      assert Decimal(1) == "1";
    }
    FormatTensOfThousands(16);
  }

  // ---------------------------------------------------------------- order message

  const Greeting := "Hola Nordic Home! Quiero realizar el siguiente pedido:\n\n"

  /** The address line: address, city and postal code joined by ", ", with "CP: " before the postal code. */
  function AddressLine(form: FormData): string {
    var withCity :=
      if form.city == "" then form.address
      else form.address + (if form.address != "" then ", " + form.city else form.city);
    if form.postalCode == "" then withCity
    else withCity + (if withCity != "" then ", CP: " + form.postalCode else "CP: " + form.postalCode)
  }

  /** The customer lines, each present only when its fields are not empty. */
  function CustomerLines(form: FormData): string {
    (if form.name != "" then "\U{1F464} Cliente: " + form.name + "\n" else "")
    + (if form.email != "" then "\U{1F4E7} Email: " + form.email + "\n" else "")
    + (if form.address != "" || form.city != "" || form.postalCode != ""
       then "\U{1F4CD} Direcci\U{00F3}n: " + AddressLine(form) + "\n" else "")
  }

  function ShippingName(m: ShippingMethod): string {
    match m
    case ViaCargo => "Via Cargo"
    case Andreani => "Andreani"
    case FletePrivado => "Flete Privado"
  }

  function DeliveryLine(option: DeliveryOption, shipping: ShippingMethod): string {
    if option == Envio then "\U{1F69A} Env\U{00ED}o: " + ShippingName(shipping) + "\n" else "\U{1F3EA} Retiro en local\n"
  }

  /** The product line of the item numbered `n`: "n. name xquantity - price c/u". */
  function NumberedLine(n: int, item: CartItem): string {
    IntToString(n) + ". " + item.product.name + " x" + IntToString(item.quantity) + " - " + DisplayPrice(item.product) + " c/u\n"
  }

  /** `line(first, items[0]) + line(first + 1, items[1]) + ...`: one line per item, numbered on from `first`. */
  function NumberedLines(items: seq<CartItem>, first: int, line: (int, CartItem) -> string): string {
    if items == [] then ""
    else NumberedLines(items[..|items| - 1], first, line) + line(first + |items| - 1, items[|items| - 1])
  }

  /** Numbering runs on across a split of the cart: the second part continues where the first stopped. */
  lemma {:induction false} NumberedLinesSplit(a: seq<CartItem>, b: seq<CartItem>, first: int, line: (int, CartItem) -> string)
    ensures NumberedLines(a + b, first, line) == NumberedLines(a, first, line) + NumberedLines(b, first + |a|, line)
    decreases |b|
  {
    if b == [] {
      assert a + b == a;
    } else {
      var b' := b[..|b| - 1];
      assert (a + b)[..|a + b| - 1] == a + b';
      NumberedLinesSplit(a, b', first, line);
      Seqs.AppendAssoc(NumberedLines(a, first, line), NumberedLines(b', first + |a|, line),
                       line(first + |a| + |b| - 1, b[|b| - 1]));
    }
  }

  /** The product lines of `items`, numbered from `first` in cart order. */
  function ProductLinesFrom(items: seq<CartItem>, first: int): string {
    NumberedLines(items, first, NumberedLine)
  }

  /** Adding the next item of the cart adds its line, numbered from 1. */
  lemma ProductLinesNext(items: seq<CartItem>, i: nat)
    requires i < |items|
    ensures ProductLinesFrom(items[..i + 1], 1) == ProductLinesFrom(items[..i], 1) + NumberedLine(i + 1, items[i])
  {
    assert items[..i + 1][..i] == items[..i];
  }

  /** Items are numbered from 1 in cart order: the line of item k reads "k+1. ...", between the lines before and after it. */
  lemma ProductLineOfItem(items: seq<CartItem>, k: nat)
    requires k < |items|
    ensures ProductLinesFrom(items, 1) ==
      ProductLinesFrom(items[..k], 1) + NumberedLine(k + 1, items[k]) + ProductLinesFrom(items[k + 1..], k + 2)
  {
    Seqs.TakeDrop(items, k + 1);
    NumberedLinesSplit(items[..k + 1], items[k + 1..], 1, NumberedLine);
    ProductLinesNext(items, k);
  }

  function PaymentText(payment: PaymentMethod, installments: Installments): string {
    match payment
    case Transferencia => "Transferencia (15% OFF)"
    case Efectivo => "Efectivo contra entrega/retiro en local (15% OFF)"
    case Tarjeta =>
      "Tarjeta de Cr\U{00E9}dito/D\U{00E9}bito" +
      match installments
      case One => " - 1 pago \U{00FA}nico"
      case Three => " - 3 cuotas sin inter\U{00E9}s"
      case Six => " - 6 cuotas sin inter\U{00E9}s"
      case Twelve => " - 12 cuotas con inter\U{00E9}s"
  }

  /** The totals block; the discount and interest lines are written only when positive. */
  function Summary(subtotal: real, payment: PaymentMethod, installments: Installments): string {
    var discount := Discount(subtotal, payment);
    var interest := Interest(subtotal, payment, installments);
    "\U{1F4B0} Resumen:\n"
    + "Subtotal: " + Money.FormatPrice(subtotal) + "\n"
    + (if discount > 0.0 then "Descuento (15%): -" + Money.FormatPrice(discount) + "\n" else "")
    + (if interest > 0.0 then "Inter\U{00E9}s (60%): +" + Money.FormatPrice(interest) + "\n" else "")
    + "Total: " + Money.FormatPrice(Total(subtotal, payment, installments))
  }

  /** What comes before the product lines. */
  function MessageHead(form: FormData, option: DeliveryOption, shipping: ShippingMethod): string {
    Greeting + CustomerLines(form) + DeliveryLine(option, shipping) + "\n" + "\U{1F4E6} Productos:\n"
  }

  /** What comes after the product lines. */
  function MessageTail(items: seq<CartItem>, payment: PaymentMethod, installments: Installments): string {
    "\n" + "\U{1F4B3} M\U{00E9}todo de Pago: " + PaymentText(payment, installments) + "\n\n"
    + Summary(Subtotal(items), payment, installments)
  }

  /** `generateWhatsAppMessage()` of the checkout page. */
  function OrderMessage(form: FormData, option: DeliveryOption, shipping: ShippingMethod,
                        items: seq<CartItem>, payment: PaymentMethod, installments: Installments): string {
    MessageHead(form, option, shipping) + ProductLinesFrom(items, 1) + MessageTail(items, payment, installments)
  }

  /** The message-building loop of `generateWhatsAppMessage`, one `message +=` per cart line. */
  method BuildOrderMessage(form: FormData, option: DeliveryOption, shipping: ShippingMethod,
                           items: seq<CartItem>, payment: PaymentMethod, installments: Installments)
    returns (message: string)
    ensures message == OrderMessage(form, option, shipping, items, payment, installments)
  {
    var head := MessageHead(form, option, shipping);
    message := head;
    var i := 0;
    while i < |items|
      invariant 0 <= i <= |items|
      invariant message == head + ProductLinesFrom(items[..i], 1)
    {
      var line := NumberedLine(i + 1, items[i]);
      ProductLinesNext(items, i);
      Seqs.AppendAssoc(head, ProductLinesFrom(items[..i], 1), line);
      message := message + line;
      i := i + 1;
    }
    assert items[..i] == items;
    message := message + MessageTail(items, payment, installments);
  }

  // ---------------------------------------------------------------- order number

  /** `Math.floor(10000000 + random * 90000000).toString()` for a draw `random` in [0, 1). */
  function OrderNumber(random: real): (number: string)
    requires 0.0 <= random < 1.0
    ensures |number| == 8 && AllDigits(number)
    ensures 10000000 <= DecimalValue(number) <= 99999999
  {
    var n := (10000000.0 + random * 90000000.0).Floor;
    assert 10000000 <= n < 100000000;
    assert Pow10(7) == 10000000 && Pow10(8) == 100000000;
    DecimalLength(n, 8);
    Decimal(n)
  }

  // ---------------------------------------------------------------- the page

  /**
   * The checkout page's state.  `cart` is the shared cart store; the current
   * date and `Math.random` are parameters of the handlers that read them.
   */
  class CheckoutPage {
    const cart: Cart
    var paymentMethod: PaymentMethod
    var deliveryOption: DeliveryOption
    var shippingMethod: ShippingMethod
    var installments: Installments
    var form: FormData
    var expiryError: string
    var orderCompleted: bool
    var orderNumber: string

    constructor (cart: Cart)
      ensures this.cart == cart
      ensures paymentMethod == Transferencia && deliveryOption == Envio && shippingMethod == ViaCargo && installments == One
      ensures form == EmptyForm && expiryError == "" && !orderCompleted && orderNumber == ""
    {
      this.cart := cart;
      paymentMethod, deliveryOption, shippingMethod, installments := Transferencia, Envio, ViaCargo, One;
      form, expiryError, orderCompleted, orderNumber := EmptyForm, "", false, "";
    }

    /** The brand shown beside the card-number field. */
    function Brand(): CardBrand
      reads this
    {
      DetectCardBrand(form.cardNumber)
    }

    method OnCardNumberChange(input: string)
      modifies this`form
      ensures form == old(form).(cardNumber := FormatCardNumber(input))
      ensures Brand() == BrandOfDigits(KeepDigits(input))
    {
      form := form.(cardNumber := FormatCardNumber(input));
      FormattedNumberKeepsBrand(input);
    }

    method OnCardExpiryChange(input: string, currentYear: int, currentMonth: int)
      modifies this`form, this`expiryError
      ensures form == old(form).(cardExpiry := NormalizeExpiry(input))
      ensures expiryError == ExpiryError(NormalizeExpiry(input), currentYear, currentMonth)
    {
      var formatted := NormalizeExpiry(input);
      expiryError := ExpiryError(formatted, currentYear, currentMonth);
      form := form.(cardExpiry := formatted);
    }

    method OnCardCvvChange(input: string)
      modifies this`form
      ensures form == old(form).(cardCvv := NormalizeCvv(input, old(Brand())))
    {
      form := form.(cardCvv := NormalizeCvv(input, Brand()));
    }

    /**
     * `handleCheckout()`.  An empty cart is ignored.  A card payment draws an
     * order number, marks the order completed and empties the cart.  Transfer
     * and cash return the order text for the messaging link and change nothing.
     */
    method HandleCheckout(random: real) returns (outgoing: Option<string>)
      requires 0.0 <= random < 1.0
      modifies this`orderNumber, this`orderCompleted, cart
      ensures old(cart.items) == [] ==>
        outgoing == None && cart.items == [] && orderNumber == old(orderNumber) && orderCompleted == old(orderCompleted)
      ensures old(cart.items) != [] && paymentMethod == Tarjeta ==>
        && outgoing == None && orderCompleted && cart.items == []
        && orderNumber == OrderNumber(random)
        && 10000000 <= DecimalValue(orderNumber) <= 99999999
      ensures old(cart.items) != [] && paymentMethod != Tarjeta ==>
        && outgoing == Some(OrderMessage(form, deliveryOption, shippingMethod, old(cart.items), paymentMethod, installments))
        && cart.items == old(cart.items) && orderNumber == old(orderNumber) && orderCompleted == old(orderCompleted)
    {
      if |cart.items| == 0 {
        return None;
      }
      if paymentMethod == Tarjeta {
        orderNumber := OrderNumber(random);
        orderCompleted := true;
        cart.ClearCart();
        return None;
      }
      var message := BuildOrderMessage(form, deliveryOption, shippingMethod, cart.items, paymentMethod, installments);
      return Some(message);
    }

    /** `handleClearCart()`: empties the cart only when the customer confirms. */
    method HandleClearCart(confirmed: bool)
      modifies cart
      ensures cart.items == if confirmed then [] else old(cart.items)
    {
      if confirmed {
        cart.ClearCart();
      }
    }
  }
}
