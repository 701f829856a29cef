/**
 * The cart dropdown's order text: a fixed greeting, one line per cart item
 * ("{quantity}x {name} ({price})"), then the cart total written as a price.
 */
module CartDropdown {
  import opened Wrappers
  import opened Text
  import Seqs
  import opened Money
  import opened CartStore

  const Greeting := "Hola Nordic Home! Quiero realizar el siguiente pedido:\n\n"
  const TotalLabel := "\nTotal: "

  /** The line of one cart item, with the cash price when there is one. */
  function ItemLine(item: CartItem): string {
    IntToString(item.quantity) + "x " + item.product.name + " (" + DisplayPrice(item.product) + ")\n"
  }

  /** The item lines of `items`, in cart order. */
  function ItemLines(items: seq<CartItem>): string {
    if items == [] then "" else ItemLines(items[..|items| - 1]) + ItemLine(items[|items| - 1])
  }

  /** What `generateWhatsAppMessage()` of the dropdown returns for a cart holding `items`. */
  function DropdownMessage(items: seq<CartItem>): string {
    Greeting + ItemLines(items) + TotalLabel + FormatPrice(CartTotal(items))
  }

  /** The lines of two consecutive parts of the cart are the first part's lines followed by the second's. */
  lemma {:induction false} ItemLinesSplit(a: seq<CartItem>, b: seq<CartItem>)
    ensures ItemLines(a + b) == ItemLines(a) + ItemLines(b)
    decreases |b|
  {
    if b == [] {
      assert a + b == a;
    } else {
      var b' := b[..|b| - 1];
      assert (a + b)[..|a + b| - 1] == a + b';
      ItemLinesSplit(a, b');
      Seqs.AppendAssoc(ItemLines(a), ItemLines(b'), ItemLine(b[|b| - 1]));
    }
  }

  /** Adding the next item of the cart adds its line. */
  lemma ItemLinesNext(items: seq<CartItem>, i: nat)
    requires i < |items|
    ensures ItemLines(items[..i + 1]) == ItemLines(items[..i]) + ItemLine(items[i])
  {
    assert items[..i + 1][..i] == items[..i];
  }

  /** Exactly one line per item, in cart order: item k's line sits between the lines of the items before and after it. */
  lemma ItemLineOf(items: seq<CartItem>, k: nat)
    requires k < |items|
    ensures ItemLines(items) == ItemLines(items[..k]) + ItemLine(items[k]) + ItemLines(items[k + 1..])
  {
    Seqs.TakeDrop(items, k + 1);
    ItemLinesSplit(items[..k + 1], items[k + 1..]);
    ItemLinesNext(items, k);
  }

  /**
   * The message starts with the greeting and its blank line, and ends with
   * "Total: " and the cart total written as a price.
   */
  lemma MessageFrame(items: seq<CartItem>)
    ensures var m := DropdownMessage(items);
      var total := FormatPrice(CartTotal(items));
      && StartsWith(m, Greeting)
      && |total| < |m| && m[|m| - |total|..] == total
      && m[..|m| - |total|] == Greeting + ItemLines(items) + TotalLabel
  {
    var body := ItemLines(items) + TotalLabel + FormatPrice(CartTotal(items));
    Seqs.AppendAssoc(Greeting, ItemLines(items), TotalLabel);
    Seqs.AppendAssoc(Greeting + ItemLines(items), TotalLabel, FormatPrice(CartTotal(items)));
    Seqs.AppendAssoc(Greeting, ItemLines(items) + TotalLabel, FormatPrice(CartTotal(items)));
    assert DropdownMessage(items) == Greeting + body;
  }

  /** The total written at the end of the message reads back as the cart total rounded to the peso. */
  lemma TotalReadsBack(items: seq<CartItem>)
    ensures ParseCommaPrice(FormatPrice(CartTotal(items))) == Some(Round(CartTotal(items)) as real)
  {
    FormatPriceCommaParses(CartTotal(items));
  }

  /** An empty cart yields the greeting and a zero total. */
  lemma EmptyCartMessage()
    ensures DropdownMessage([]) == Greeting + TotalLabel + "$0"
  {
    assert Decimal(0) == "0";
    assert FormatPrice(0.0) == "$" + "" + "0";
  }

  /** `generateWhatsAppMessage`: the greeting, then `message +=` once per cart line, then the total. */
  method GenerateMessage(cart: Cart) returns (message: string)
    ensures message == DropdownMessage(cart.items)
  {
    var items := cart.items;
    message := Greeting;
    var i := 0;
    while i < |items|
      invariant 0 <= i <= |items|
      invariant message == Greeting + ItemLines(items[..i])
    {
      var line := ItemLine(items[i]);
      ItemLinesNext(items, i);
      Seqs.AppendAssoc(Greeting, ItemLines(items[..i]), line);
      message := message + line;
      i := i + 1;
    }
    assert items[..i] == items;
    var total := FormatPrice(cart.GetCartTotal());
    message := message + TotalLabel + total;
  }
}
