/**
 * The cart store: an ordered list of line items, at most one per product id,
 * replaced wholesale by every operation (`setCartItems(prev => ...)`), plus two
 * read-only folds over it.
 */
module CartStore {
  import opened Wrappers
  import Seqs
  import Money

  /** What `addToCart` receives: every `CartItem` field except `quantity`. */
  datatype CartProduct = CartProduct(
    id: string, name: string, price: string, cashPrice: Option<string>, image: string, slug: string)

  /** A line item: the product's fields and the quantity ordered. */
  datatype CartItem = CartItem(product: CartProduct, quantity: int)

  /** What the saved-cart slot of local storage yielded when the store was mounted. */
  datatype StoredCart = Absent | Malformed | Saved(items: seq<CartItem>)

  /** `item.cashPrice || item.price`: an absent or empty cash price falls back to the list price. */
  function DisplayPrice(p: CartProduct): string {
    if p.cashPrice.Some? && p.cashPrice.value != "" then p.cashPrice.value else p.price
  }

  /** One line's contribution to `getCartTotal`: parsed display price times quantity, 0 when the price does not parse. */
  function LineTotal(item: CartItem): real {
    LineAmount(Money.ParseCommaPrice(DisplayPrice(item.product)), item.quantity)
  }

  /** `isNaN(numericPrice) ? 0 : numericPrice * item.quantity`, given what `parseFloat` read. */
  function LineAmount(reading: Option<real>, quantity: int): real {
    match reading
    case Some(price) => price * quantity as real
    case None => 0.0
  }

  predicate HasId(items: seq<CartItem>, id: string) {
    exists i :: 0 <= i < |items| && items[i].product.id == id
  }

  /** At most one line per product id. */
  predicate IdsUnique(items: seq<CartItem>) {
    forall i, j :: 0 <= i < j < |items| ==> items[i].product.id != items[j].product.id
  }

  /** How many lines carry `id`. */
  function Occurrences(items: seq<CartItem>, id: string): nat {
    if items == [] then 0
    else Occurrences(items[..|items| - 1], id) + (if items[|items| - 1].product.id == id then 1 else 0)
  }

  /** `prevItems.map(item => item.id === id ? {...item, quantity: item.quantity + q} : item)`. */
  function AddQuantity(items: seq<CartItem>, id: string, q: int): seq<CartItem> {
    seq(|items|, i requires 0 <= i < |items| =>
      if items[i].product.id == id then items[i].(quantity := items[i].quantity + q) else items[i])
  }

  /** `prevItems.map(item => item.id === id ? {...item, quantity} : item)`. */
  function SetQuantity(items: seq<CartItem>, id: string, q: int): seq<CartItem> {
    seq(|items|, i requires 0 <= i < |items| =>
      if items[i].product.id == id then items[i].(quantity := q) else items[i])
  }

  /** The line items after `addToCart(p, q)`: merge into an existing line, else append. */
  function Added(items: seq<CartItem>, p: CartProduct, q: int): seq<CartItem> {
    if HasId(items, p.id) then AddQuantity(items, p.id, q) else items + [CartItem(p, q)]
  }

  /** The line items after `removeFromCart(id)`: `prevItems.filter(item => item.id !== id)`. */
  function Removed(items: seq<CartItem>, id: string): seq<CartItem> {
    if items == [] then []
    else (if items[0].product.id == id then [] else [items[0]]) + Removed(items[1..], id)
  }

  /** The line items after `updateQuantity(id, q)`: a quantity of zero or less removes the line. */
  function Updated(items: seq<CartItem>, id: string, q: int): seq<CartItem> {
    if q <= 0 then Removed(items, id) else SetQuantity(items, id, q)
  }

  /** `getTotalItems`: `reduce((total, item) => total + item.quantity, 0)`. */
  function TotalItems(items: seq<CartItem>): int {
    if items == [] then 0 else TotalItems(items[..|items| - 1]) + items[|items| - 1].quantity
  }

  /** `getCartTotal`: `reduce((total, item) => total + lineTotal(item), 0)`. */
  function CartTotal(items: seq<CartItem>): real {
    if items == [] then 0.0 else CartTotal(items[..|items| - 1]) + LineTotal(items[|items| - 1])
  }

  // ---------------------------------------------------------------- folds

  /** The item count of two carts laid end to end is the sum of their counts. */
  lemma {:induction false} TotalItemsAppend(a: seq<CartItem>, b: seq<CartItem>)
    ensures TotalItems(a + b) == TotalItems(a) + TotalItems(b)
    decreases |b|
  {
    if b == [] {
      assert a + b == a;
    } else {
      var b' := b[..|b| - 1];
      assert (a + b)[..|a + b| - 1] == a + b';
      TotalItemsAppend(a, b');
    }
  }

  /** The cart total of two carts laid end to end is the sum of their totals. */
  lemma {:induction false} CartTotalAppend(a: seq<CartItem>, b: seq<CartItem>)
    ensures CartTotal(a + b) == CartTotal(a) + CartTotal(b)
    decreases |b|
  {
    if b == [] {
      assert a + b == a;
    } else {
      var b' := b[..|b| - 1];
      assert (a + b)[..|a + b| - 1] == a + b';
      CartTotalAppend(a, b');
    }
  }

  /** A line whose price does not read as a number adds nothing: the total is that of the other lines. */
  lemma UnreadableLineAddsNothing(items: seq<CartItem>, i: int)
    requires 0 <= i < |items| && Money.ParseCommaPrice(DisplayPrice(items[i].product)).None?
    ensures CartTotal(items) == CartTotal(items[..i]) + CartTotal(items[i + 1..])
  {
    assert LineTotal(items[i]) == 0.0;
    ZeroLineAddsNothing(items, i);
  }

  /** Splitting the cart around one line whose amount is zero. */
  lemma ZeroLineAddsNothing(items: seq<CartItem>, i: int)
    requires 0 <= i < |items| && LineTotal(items[i]) == 0.0
    ensures CartTotal(items) == CartTotal(items[..i]) + CartTotal(items[i + 1..])
  {
    var before, line, after := items[..i], items[i], items[i + 1..];
    Seqs.SplitAt(items, i);
    CartTotalAppend(before + [line], after);
    assert CartTotal(before + [line]) == CartTotal(before) + LineTotal(line);
  }

  lemma UnreadableLinesAddNothing(items: seq<CartItem>)
    ensures forall i :: 0 <= i < |items| && Money.ParseCommaPrice(DisplayPrice(items[i].product)).None? ==>
      CartTotal(items) == CartTotal(items[..i]) + CartTotal(items[i + 1..])
  {
    forall i | 0 <= i < |items| && Money.ParseCommaPrice(DisplayPrice(items[i].product)).None?
      ensures CartTotal(items) == CartTotal(items[..i]) + CartTotal(items[i + 1..])
    {
      UnreadableLineAddsNothing(items, i);
    }
  }

  /** A line whose price the store wrote itself contributes that amount once per unit ordered. */
  lemma LineOfFormattedPrice(item: CartItem, amount: int)
    requires DisplayPrice(item.product) == Money.FormatPrice(amount as real)
    ensures LineTotal(item) == amount as real * item.quantity as real
  {
    Money.FormatPriceRoundTrip(amount);
    LineOfReading(item, amount as real);
  }

  /** A line contributes the amount read from its price once per unit ordered. */
  lemma LineOfReading(item: CartItem, price: real)
    requires Money.ParseCommaPrice(DisplayPrice(item.product)) == Some(price)
    ensures LineTotal(item) == price * item.quantity as real
  {
    LineAmountOf(Money.ParseCommaPrice(DisplayPrice(item.product)), item.quantity, price);
  }

  lemma LineAmountOf(reading: Option<real>, quantity: int, price: real)
    requires reading == Some(price)
    ensures LineAmount(reading, quantity) == price * quantity as real
  {
  }

  /** With every quantity at least 1, the item count is at least the number of lines (and 0 only for the empty cart). */
  lemma {:induction false} TotalItemsAtLeastLines(items: seq<CartItem>)
    ensures (forall i :: 0 <= i < |items| ==> items[i].quantity >= 1) ==> TotalItems(items) >= |items|
  {
    if items != [] {
      TotalItemsAtLeastLines(items[..|items| - 1]);
    }
  }

  // ---------------------------------------------------------------- addToCart

  /** On a cart with unique ids, a present id occurs exactly once and an absent one never. */
  lemma {:induction false} OccurrencesUnique(items: seq<CartItem>, id: string)
    requires IdsUnique(items)
    ensures Occurrences(items, id) == if HasId(items, id) then 1 else 0
  {
    if items != [] {
      var init := items[..|items| - 1];
      OccurrencesUnique(init, id);
      if items[|items| - 1].product.id == id {
        assert !HasId(init, id);
      } else if HasId(items, id) {
        var k :| 0 <= k < |items| && items[k].product.id == id;
        assert init[k].product.id == id;
      }
    }
  }

  /** Adding `q` to every line with `id` raises the item count by `q` per such line. */
  lemma {:induction false} TotalItemsAddQuantity(items: seq<CartItem>, id: string, q: int)
    ensures TotalItems(AddQuantity(items, id, q)) == TotalItems(items) + q * Occurrences(items, id)
  {
    if items != [] {
      var init := items[..|items| - 1];
      TotalItemsAddQuantity(init, id, q);
      assert AddQuantity(items, id, q)[..|items| - 1] == AddQuantity(init, id, q);
    }
  }

  /** `addToCart(p, q)` on a cart with unique ids raises the item count by exactly `q`, whether it merges or appends. */
  lemma AddedTotalItems(items: seq<CartItem>, p: CartProduct, q: int)
    requires IdsUnique(items)
    ensures TotalItems(Added(items, p, q)) == TotalItems(items) + q
  {
    if HasId(items, p.id) {
      TotalItemsAddQuantity(items, p.id, q);
      OccurrencesUnique(items, p.id);
    } else {
      assert (items + [CartItem(p, q)])[..|items|] == items;
    }
  }

  /** `addToCart` keeps the ids unique, and the set of ids grows by the added product's id only. */
  lemma AddedKeepsIdsUnique(items: seq<CartItem>, p: CartProduct, q: int)
    requires IdsUnique(items)
    ensures IdsUnique(Added(items, p, q))
    ensures HasId(Added(items, p, q), p.id)
    ensures forall id :: HasId(Added(items, p, q), id) <==> HasId(items, id) || id == p.id
  {
    var r := Added(items, p, q);
    if HasId(items, p.id) {
      forall id ensures HasId(r, id) <==> HasId(items, id) || id == p.id {
        if HasId(r, id) {
          var k :| 0 <= k < |r| && r[k].product.id == id;
          assert items[k].product.id == id;
        }
        if HasId(items, id) {
          var k :| 0 <= k < |items| && items[k].product.id == id;
          assert r[k].product.id == id;
        }
      }
    } else {
      assert r[|items|].product.id == p.id;
      forall id ensures HasId(r, id) <==> HasId(items, id) || id == p.id {
        if HasId(items, id) {
          var k :| 0 <= k < |items| && items[k].product.id == id;
          assert r[k].product.id == id;
        }
      }
    }
  }

  /** Adding the same new product twice, with quantities q1 and q2, leaves one line with q1 + q2, not two lines. */
  lemma AddTwiceMerges(items: seq<CartItem>, p: CartProduct, q1: int, q2: int)
    requires !HasId(items, p.id)
    ensures Added(Added(items, p, q1), p, q2) == items + [CartItem(p, q1 + q2)]
  {
    var once := items + [CartItem(p, q1)];
    assert once[|items|].product.id == p.id;
    var twice := Added(once, p, q2);
    assert |twice| == |items| + 1;
    forall i | 0 <= i < |items| ensures twice[i] == items[i] {
      assert items[i].product.id != p.id;
    }
  }

  // ---------------------------------------------------------------- removeFromCart

  /** `removeFromCart(id)` keeps exactly the lines whose id differs, each as it was. */
  lemma {:induction false} RemovedMembers(items: seq<CartItem>, id: string)
    ensures forall x :: x in Removed(items, id) <==> x in items && x.product.id != id
  {
    if items != [] {
      RemovedMembers(items[1..], id);
      assert items == [items[0]] + items[1..];
    }
  }

  /** The lines `removeFromCart` keeps stay in their original order. */
  lemma {:induction false} RemovedIsSubsequence(items: seq<CartItem>, id: string)
    ensures Seqs.IsSubsequence(Removed(items, id), items)
  {
    if items != [] {
      RemovedIsSubsequence(items[1..], id);
      if items[0].product.id == id {
        assert Removed(items, id) == Removed(items[1..], id);
        Seqs.SubsequenceOfTail(Removed(items, id), items);
      } else {
        assert Removed(items, id)[1..] == Removed(items[1..], id);
      }
    }
  }

  /** Removing an id that is not in the cart changes nothing. */
  lemma {:induction false} RemoveAbsentIsNoOp(items: seq<CartItem>, id: string)
    requires !HasId(items, id)
    ensures Removed(items, id) == items
  {
    if items != [] {
      assert !HasId(items[1..], id) by {
        forall k | 0 <= k < |items[1..]| ensures items[1..][k].product.id != id {
          assert items[1..][k] == items[k + 1];
        }
      }
      RemoveAbsentIsNoOp(items[1..], id);
      assert items == [items[0]] + items[1..];
    }
  }

  /** On a cart with unique ids, removing the id of line k deletes exactly line k. */
  lemma {:induction false} RemoveUniqueLine(items: seq<CartItem>, k: nat)
    requires IdsUnique(items) && k < |items|
    ensures Removed(items, items[k].product.id) == items[..k] + items[k + 1..]
  {
    var id := items[k].product.id;
    var tail := items[1..];
    assert IdsUnique(tail) by {
      forall i, j | 0 <= i < j < |tail| ensures tail[i].product.id != tail[j].product.id {
        assert tail[i] == items[i + 1] && tail[j] == items[j + 1];
      }
    }
    if k == 0 {
      assert !HasId(tail, id) by {
        forall j | 0 <= j < |tail| ensures tail[j].product.id != id {
          assert tail[j] == items[j + 1];
        }
      }
      RemoveAbsentIsNoOp(tail, id);
    } else {
      assert tail[k - 1] == items[k];
      RemoveUniqueLine(tail, k - 1);
      assert items[0].product.id != id;
      assert items[..k] == [items[0]] + tail[..k - 1];
      assert items[k + 1..] == tail[k..];
    }
  }

  /** `removeFromCart` keeps the ids unique and leaves no line with the removed id. */
  lemma RemovedKeepsIdsUnique(items: seq<CartItem>, id: string)
    requires IdsUnique(items)
    ensures IdsUnique(Removed(items, id))
    ensures !HasId(Removed(items, id), id)
  {
    var r := Removed(items, id);
    assert !HasId(r, id) by {
      RemovedMembers(items, id);
      forall i | 0 <= i < |r| ensures r[i].product.id != id {
        assert r[i] in r;
      }
    }
    if HasId(items, id) {
      var k :| 0 <= k < |items| && items[k].product.id == id;
      RemoveUniqueLine(items, k);
      forall i, j | 0 <= i < j < |r| ensures r[i].product.id != r[j].product.id {
        var i' := if i < k then i else i + 1;
        var j' := if j < k then j else j + 1;
        assert r[i] == items[i'] && r[j] == items[j'];
      }
    } else {
      RemoveAbsentIsNoOp(items, id);
    }
  }

  // ---------------------------------------------------------------- updateQuantity

  /** `updateQuantity` keeps the ids unique. */
  lemma UpdatedKeepsIdsUnique(items: seq<CartItem>, id: string, q: int)
    requires IdsUnique(items)
    ensures IdsUnique(Updated(items, id, q))
  {
    if q <= 0 {
      RemovedKeepsIdsUnique(items, id);
    }
  }

  /** On a cart with unique ids, setting a positive quantity on a present line changes the item count by the difference. */
  lemma {:induction false} TotalItemsSetQuantity(items: seq<CartItem>, k: nat, q: int)
    requires IdsUnique(items) && k < |items|
    ensures TotalItems(SetQuantity(items, items[k].product.id, q)) == TotalItems(items) - items[k].quantity + q
  {
    var id := items[k].product.id;
    var before := items[..k] + [items[k]] + items[k + 1..];
    var after := items[..k] + [items[k].(quantity := q)] + items[k + 1..];
    assert items == before;
    assert SetQuantity(items, id, q) == after by {
      forall i | 0 <= i < |items| ensures SetQuantity(items, id, q)[i] == after[i] {
        if i != k {
          assert items[i].product.id != id;
        }
      }
    }
    TotalItemsAppend(items[..k] + [items[k]], items[k + 1..]);
    TotalItemsAppend(items[..k], [items[k]]);
    TotalItemsAppend(items[..k] + [items[k].(quantity := q)], items[k + 1..]);
    TotalItemsAppend(items[..k], [items[k].(quantity := q)]);
  }

  /**
   * The store object.  Every operation replaces `items` with a new sequence,
   * as the source replaces the `cartItems` state.  `Valid` is the invariant the
   * rest of the storefront relies on: one line per id and positive quantities.
   */
  class Cart {
    var items: seq<CartItem>

    ghost predicate Valid()
      reads this
    {
      IdsUnique(items) && forall i :: 0 <= i < |items| ==> items[i].quantity >= 1
    }

    constructor ()
      ensures items == [] && Valid()
    {
      items := [];
    }

    /** Mount-time load: a saved cart replaces the items; an absent or unreadable slot leaves them as they are. */
    method LoadSaved(slot: StoredCart)
      modifies this
      ensures items == if slot.Saved? then slot.items else old(items)
    {
      if slot.Saved? {
        items := slot.items;
      }
    }

    method AddToCart(product: CartProduct, quantity: int := 1)
      modifies this
      ensures HasId(old(items), product.id) ==>
        |items| == |old(items)| &&
        forall i :: 0 <= i < |items| ==>
          items[i].product == old(items)[i].product &&
          items[i].quantity == old(items)[i].quantity + (if old(items)[i].product.id == product.id then quantity else 0)
      ensures !HasId(old(items), product.id) ==> items == old(items) + [CartItem(product, quantity)]
      ensures old(IdsUnique(items)) ==> TotalItems(items) == old(TotalItems(items)) + quantity
      ensures old(Valid()) && quantity >= 1 ==> Valid()
    {
      if IdsUnique(items) {
        AddedTotalItems(items, product, quantity);
        AddedKeepsIdsUnique(items, product, quantity);
      }
      items := Added(items, product, quantity);
    }

    method RemoveFromCart(id: string)
      modifies this
      ensures items == Removed(old(items), id)
      ensures forall x :: x in items <==> x in old(items) && x.product.id != id
      ensures Seqs.IsSubsequence(items, old(items))
      ensures !HasId(old(items), id) ==> items == old(items)
      ensures old(Valid()) ==> Valid()
    {
      RemovedMembers(items, id);
      RemovedIsSubsequence(items, id);
      if !HasId(items, id) {
        RemoveAbsentIsNoOp(items, id);
      }
      if IdsUnique(items) {
        RemovedKeepsIdsUnique(items, id);
      }
      items := Removed(items, id);
    }

    method UpdateQuantity(id: string, quantity: int)
      modifies this
      ensures quantity <= 0 ==> items == Removed(old(items), id)
      ensures quantity > 0 ==>
        |items| == |old(items)| &&
        forall i :: 0 <= i < |items| ==>
          items[i].product == old(items)[i].product &&
          items[i].quantity == if items[i].product.id == id then quantity else old(items)[i].quantity
      ensures old(Valid()) ==> Valid()
    {
      if quantity <= 0 {
        RemoveFromCart(id);
        return;
      }
      if IdsUnique(items) {
        UpdatedKeepsIdsUnique(items, id, quantity);
      }
      items := SetQuantity(items, id, quantity);
    }

    method ClearCart()
      modifies this
      ensures items == [] && Valid()
    {
      items := [];
    }

    /** `getTotalItems()`. */
    function GetTotalItems(): (n: int)
      reads this
      ensures Valid() ==> n >= |items| && (n == 0 <==> items == [])
    {
      TotalItemsAtLeastLines(items);
      TotalItems(items)
    }

    /** `getCartTotal()`. */
    function GetCartTotal(): (total: real)
      reads this
      ensures items == [] ==> total == 0.0
      ensures forall i :: 0 <= i < |items| && Money.ParseCommaPrice(DisplayPrice(items[i].product)).None? ==>
        total == CartTotal(items[..i]) + CartTotal(items[i + 1..])
    {
      UnreadableLinesAddNothing(items);
      CartTotal(items)
    }
  }
}
