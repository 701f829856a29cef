# Nordic Home storefront: a Dafny model of its logic

This project models the parts of the Nordic Home storefront that hold logic:

- the **cart store**, a list of line items keyed by product id with add, remove, update and clear operations and two folds, the item count and the cart total;
- the **checkout page**:
  - card-brand detection, and the card number, expiry and CVV input normalisers;
  - expiry validation against a supplied current year and month;
  - the pricing engine (subtotal, 15% discount, 60% interest on 12 installments, total);
  - the numbered order message for transfer and cash;
  - the checkout action and its empty-cart guard;
- the **kitchen category page**: restrict to "cocina", then search, then price bounds, then sort a copy;
- the **header quick search**: the first five matches by name or slug, and the search box's open/clear state;
- the **filter panel**: checkbox changes on tag lists, availability flags, and reset;
- the **product price block**: which amount is struck through, which is highlighted, which caption goes with them, and the made-up "previous price" that is 20% higher;
- the **cart dropdown**: the order text, one line per item, then the total.

Modules follow the source files:

| Module | Source file |
|---|---|
| `CartStore` | `contexts/cart-context.tsx` |
| `CheckoutCard` and `Checkout` | `app/carrito/page.tsx` |
| `Kitchen` | `app/cocina/page.tsx` |
| `QuickSearch` | `components/header.tsx` |
| `FilterPanel` | `components/filter-panel.tsx` |
| `ProductPrice` | `components/product-price.tsx` |
| `CartDropdown` | `components/cart-dropdown.tsx` |

Shared modules:

- `Money` holds the price text: the `formatPrice` of the checkout page and the dropdown, and the two ways prices are read.
- `Text` holds the JavaScript string operations: `trim`, `\s`, `\D`, `includes`, single-character `replace`, `toString`, `parseInt` and `parseFloat`.
- `Seqs` holds `filter` and ordered subsequences.
- `Sorting` holds `Array.prototype.sort` as a stable insertion sort.
- `Catalog` holds the product record and the name-or-slug match.

State the source updates in place is modelled as classes:

- `CartStore.Cart` holds `items`.
- `Checkout.CheckoutPage` holds the payment choices, the form, the expiry error and the order number.
- `QuickSearch.SearchBox` holds `searchQuery` and `isDropdownOpen`.

The two `message +=` loops are methods proved against the message functions. Everything the source computes as an expression is modelled as functions.

How prices are read and computed:

- A price is read as JavaScript does: every "$" and "." is deleted, and the rest goes to `parseFloat`, which reads a leading numeral and ignores what follows. `None` stands for `NaN`.
- The cart, the checkout and the price block first turn the first "," into a decimal point (`Money.ParseCommaPrice`). The kitchen page does not (`Money.ParsePrice`).
- Totals are exact `real` sums.
- `Math.round` is `floor(x + 0.5)`.
- `formatPrice` writes "$", a "-" when the amount rounds to a negative integer, and the rounded magnitude with a "." before every group of three digits.

Two behaviours of the code are modelled as written:

- The checkout subtotal reads each line's list price only (`app/carrito/page.tsx:118`). The cart total and the message lines use the cash price when there is one. So the two totals agree only for carts without cash prices (`Checkout.SubtotalMatchesCartTotal`).
- The "oportunidad" caption reads "Últimas Unidade", one letter short (the constant `ProductPrice.OpportunityNote`).

A worked case: one "$10.000" line ordered twice and paid by transfer gives a subtotal of 20000, a discount of 3000 and a total of "$17.000" (`Checkout.TransferScenario`).

## Model

| member | source | states |
|---|---|---|
| CartStore.Cart.constructor | contexts/cart-context.tsx:28 | the store starts with no line items, and the store invariant holds (unique ids, positive quantities) |
| CartStore.Cart.LoadSaved | contexts/cart-context.tsx:31-40 | a saved cart replaces the items; an absent or unreadable slot leaves them as they were |
| CartStore.Cart.AddToCart | contexts/cart-context.tsx:47-59 | a present id: same length, `quantity` added to the line with that id only, every product kept; a new id: exactly one line `(product, quantity)` appended at the end; on unique ids the item count grows by `quantity`; the invariant is kept for `quantity >= 1` |
| CartStore.Cart.RemoveFromCart | contexts/cart-context.tsx:61-63 | the new items are exactly the old lines with a different id, in their old order; nothing changes when the id is absent; the invariant is kept |
| CartStore.Cart.UpdateQuantity | contexts/cart-context.tsx:65-73 | a quantity ≤ 0 is `removeFromCart`; a positive one sets the quantity of the lines with that id and keeps products, order and length; the invariant is kept |
| CartStore.Cart.ClearCart | contexts/cart-context.tsx:88-90 | the items become empty, which satisfies the invariant |
| CartStore.Cart.GetTotalItems | contexts/cart-context.tsx:84-86 | on a valid cart the item count is at least the number of lines and is 0 exactly for the empty cart |
| CartStore.Cart.GetCartTotal | contexts/cart-context.tsx:75-82 | the empty cart totals 0; a line whose price does not read as a number leaves the total of the lines before it plus the lines after it |
| CartStore.DisplayPrice | contexts/cart-context.tsx:77 | `item.cashPrice \|\| item.price`: the cash price when present and not empty, the list price otherwise |
| CartStore.Added | contexts/cart-context.tsx:47-59 | `addToCart`'s update: a present id adds the quantity on its lines, a new id appends one line |
| CartStore.Removed | contexts/cart-context.tsx:61-63 | `removeFromCart`'s update: the lines with another id, in order |
| CartStore.Updated | contexts/cart-context.tsx:65-73 | `updateQuantity`'s update: removal for a quantity ≤ 0, the quantity set on the id's lines otherwise |
| CartStore.TotalItems | contexts/cart-context.tsx:84-86 | `getTotalItems`: the sum of the quantities, folded left to right |
| CartStore.CartTotal | contexts/cart-context.tsx:75-82 | `getCartTotal`: the sum of the line amounts, folded left to right |
| CartStore.UnreadableLineAddsNothing | contexts/cart-context.tsx:79-80 | a line whose price does not read as a number adds nothing: the total is that of the other lines |
| CartStore.ZeroLineAddsNothing | contexts/cart-context.tsx:75-82 | a line of amount 0 splits the total into the lines before and after it |
| CartStore.TotalItemsAppend | contexts/cart-context.tsx:84-86 | the item count is additive over concatenated carts |
| CartStore.CartTotalAppend | contexts/cart-context.tsx:75-82 | the cart total is additive over concatenated carts |
| CartStore.LineOfReading | contexts/cart-context.tsx:77-80 | a line contributes the value read from `cashPrice \|\| price` times its quantity |
| CartStore.LineOfFormattedPrice | contexts/cart-context.tsx:77-80 | a line whose display price is `formatPrice(n)` contributes `n` times its quantity |
| CartStore.TotalItemsAtLeastLines | contexts/cart-context.tsx:84-86 | with every quantity ≥ 1, the item count is at least the number of lines |
| CartStore.TotalItemsAddQuantity | contexts/cart-context.tsx:51-55 | the merging `map` adds `q` to the count once per line carrying the id |
| CartStore.AddedTotalItems | contexts/cart-context.tsx:47-59 | on unique ids, `addToCart(p, q)` raises the count by exactly `q`, whether it merges or appends |
| CartStore.AddedKeepsIdsUnique | contexts/cart-context.tsx:47-59 | `addToCart` keeps ids unique, and the ids present afterwards are the old ones plus the added one |
| CartStore.AddTwiceMerges | contexts/cart-context.tsx:47-59 | adding a new product twice leaves one line carrying the sum of both quantities |
| CartStore.RemovedMembers | contexts/cart-context.tsx:61-63 | a line survives `removeFromCart(id)` exactly when it was there and has another id |
| CartStore.RemovedIsSubsequence | contexts/cart-context.tsx:61-63 | the surviving lines keep their relative order |
| CartStore.RemoveAbsentIsNoOp | contexts/cart-context.tsx:61-63 | removing an absent id changes nothing |
| CartStore.RemoveUniqueLine | contexts/cart-context.tsx:61-63 | on unique ids, removing line k's id deletes exactly line k |
| CartStore.RemovedKeepsIdsUnique | contexts/cart-context.tsx:61-63 | removal keeps ids unique and leaves no line with the removed id |
| CartStore.UpdatedKeepsIdsUnique | contexts/cart-context.tsx:65-73 | `updateQuantity` keeps ids unique |
| CartStore.TotalItemsSetQuantity | contexts/cart-context.tsx:67-72 | setting line k's quantity to q changes the count by q minus its old quantity |
| Money.ParsePrice | app/cocina/page.tsx:59 | the kitchen's reading: `parseFloat` after deleting every "$" and "." |
| Money.ParseCommaPrice | contexts/cart-context.tsx:79 | the cart's reading: "$" and "." deleted, the first "," turned into ".", then `parseFloat` |
| Money.GroupThousands | app/carrito/page.tsx:113 | the grouping keeps the numeral's first digit in front, adds one "." per complete group of three digits after the first digit, and puts a "." exactly at every fourth position from the right, digits everywhere else |
| Money.GroupedAppend | app/carrito/page.tsx:113 | a "." and three more digits after a grouped numeral give a grouped numeral |
| Money.FormatPrice | app/carrito/page.tsx:112-114 | the text starts with "$", followed by "-" exactly when the amount rounds below zero, and by a digit otherwise; after them comes the numeral of the rounded magnitude with a "." exactly at every fourth position from the right |
| Money.Round | app/carrito/page.tsx:113 | `Math.round(x)` is the integer within half a unit of x, halves rounded up |
| Money.RoundInteger | app/carrito/page.tsx:113 | rounding leaves an integer unchanged |
| Money.StripGroupThousands | app/carrito/page.tsx:112-119 | deleting the "." marks undoes the thousands grouping |
| Money.StripFormatted | app/carrito/page.tsx:112-119 | with its marks deleted, `formatPrice(x)` is the numeral of `Math.round(x)` |
| Money.FormatPriceParses | app/cocina/page.tsx:59 | the kitchen page's reading of `formatPrice(x)` is the rounded amount |
| Money.FormatPriceCommaParses | app/carrito/page.tsx:112-119 | the decimal-comma reading of `formatPrice(x)` is the rounded amount |
| Money.FormatPriceRoundTrip | app/carrito/page.tsx:112-119 | both readings give every whole amount n back from `formatPrice(n)` |
| Money.ReformatIsIdempotent | app/carrito/page.tsx:112-114 | a displayed price is a fixed point: formatting the amount read from it gives the same text |
| Money.SameRoundSameText | app/carrito/page.tsx:112-114 | amounts that round alike are displayed alike |
| Money.NumeralReadsBack | app/carrito/page.tsx:119 | a price whose digits, marks deleted, are the numeral of n reads back as n under both readings |
| Money.CommaFreeReadsAlike | app/carrito/page.tsx:119 | without a "," the cart's reading and the kitchen's reading agree |
| Text.TrimEmptyIff | components/header.tsx:57 | `s.trim()` is empty exactly when `s` is all white space |
| Text.ContainsIff | components/header.tsx:62-63 | `includes` holds exactly when the needle occurs at some position |
| Text.ReplaceFirstAt | app/carrito/page.tsx:119 | `replace(",", ".")` changes the first "," only and keeps every other character |
| Text.ParseFloatOfIntToString | app/carrito/page.tsx:119 | `parseFloat` reads `n.toString()` back as n |
| Text.ParseIntTwoDigits | app/carrito/page.tsx:95-96 | `parseInt` of two digits is their two-digit value |
| Text.TrimStart | components/header.tsx:57 | the leading white space is dropped: the result is a suffix, what precedes it is all white space, and it does not start with white space |
| Text.TrimEnd | components/header.tsx:57 | the trailing white space is dropped: the result is a prefix, what follows it is all white space, and it does not end with white space |
| Text.KeepDigits | app/carrito/page.tsx:680 | `replace(/\D/g, "")` leaves only digits |
| Text.KeepDigitsOfDigits | app/carrito/page.tsx:680 | a digit string goes through `replace(/\D/g, "")` unchanged |
| Text.StartsWith | app/carrito/page.tsx:22-29 | `s.startsWith(p)`: p is a prefix of s |
| Text.Contains | components/header.tsx:62-63 | `s.includes(sub)`: sub starts at the first position or occurs in the rest |
| Text.RemoveWhitespace | app/carrito/page.tsx:20 | `replace(/\s/g, "")`: every JavaScript white-space character deleted |
| Text.IntToString | components/cart-dropdown.tsx:39 | `toString` of an integer: "-" for a negative one, then the numeral of its magnitude |
| Text.Trim | components/header.tsx:57 | `trim()`: the leading, then the trailing white space dropped |
| Text.ParseInt | app/carrito/page.tsx:95-96 | `parseInt(s, 10)`: leading white space skipped, an optional sign, the leading digits; `NaN` without one |
| Text.ParseFloat | app/carrito/page.tsx:119 | `parseFloat` on decimal notation: leading white space skipped, an optional sign, digits with an optional "." fraction, the rest ignored; `NaN` without a digit |
| Text.ReplaceFirst | app/carrito/page.tsx:119 | `replace(",", ".")` keeps the length and leaves a text without "," unchanged |
| Text.DigitPrefix | app/carrito/page.tsx:119 | the longest run of digits at the start of the text, as `parseFloat` consumes it |
| Text.Decimal | app/carrito/page.tsx:113 | `toString` of a natural number: at least one digit, no leading zero, and the digits denote the number |
| Seqs.Filter | app/cocina/page.tsx:43 | `filter` keeps no more elements than it was given, and every element kept passes the test |
| CheckoutCard.BrandOfDigits | app/carrito/page.tsx:22-33 | Visa exactly for a leading "4"; Mastercard exactly for a leading 51-55 or 22-27; Amex exactly for a leading "34" or "37" |
| CheckoutCard.DetectCardBrand | app/carrito/page.tsx:19-33 | `detectCardBrand`: white space removed, then the classification by leading digits |
| CheckoutCard.BrandByFirstTwo | app/carrito/page.tsx:19-33 | the brand is decided by the first two characters once white space is removed |
| CheckoutCard.CardDigits | app/carrito/page.tsx:680-683 | the kept digits are a prefix of the typed digits: all of them when they fit, otherwise exactly 15 for a 34/37 prefix and 16 for any other |
| CheckoutCard.FormatCardNumber | app/carrito/page.tsx:680-685 | the card-number normaliser: the kept digits, a space after every group of four, trimmed |
| CheckoutCard.SpaceAfterFours | app/carrito/page.tsx:684 | `replace(/(.{4})/g, "$1 ")`: a space after every complete group of four characters |
| CheckoutCard.SpaceAfterFoursPositions | app/carrito/page.tsx:684 | on digits, `replace(/(.{4})/g, "$1 ")` puts a space exactly at every fifth position |
| CheckoutCard.SpaceAfterFoursUndone | app/carrito/page.tsx:684 | removing the spaces gives the digits back |
| CheckoutCard.TrimmedGrouping | app/carrito/page.tsx:684 | `trim` drops at most the trailing space of the grouping |
| CheckoutCard.FormatCardNumberShape | app/carrito/page.tsx:680-685 | the field holds the kept digits with a space at every fifth position and none at the end |
| CheckoutCard.CardDigitsKeepBrand | app/carrito/page.tsx:680-683 | cutting to the card length never changes the brand |
| CheckoutCard.FormattedNumberKeepsBrand | app/carrito/page.tsx:87 | the brand detected on the formatted field is the brand of the digits typed |
| CheckoutCard.NormalizeCvv | app/carrito/page.tsx:747-751 | the CVV is a prefix of the typed digits: all of them when they fit, otherwise exactly 4 for Amex and 3 for any other brand |
| CheckoutCard.Split | app/carrito/page.tsx:92 | `split` yields at least one part |
| CheckoutCard.SplitWithoutSeparator | app/carrito/page.tsx:92 | a text without "/" splits into itself |
| CheckoutCard.SplitAtFirstSeparator | app/carrito/page.tsx:92 | the first part ends at the first "/" |
| CheckoutCard.ValidateExpiryDate | app/carrito/page.tsx:89-93 | an input shorter than 5 characters, or one whose "/" split lacks two 2-character parts, is accepted |
| CheckoutCard.ValidateExpiryTwoDigits | app/carrito/page.tsx:95-109 | for two-digit MM/YY the date is rejected exactly when the month is outside 1..12 or (2000+YY, MM) is before the current year and month |
| CheckoutCard.NormalizeExpiry | app/carrito/page.tsx:708-713 | at most 5 characters; fewer than two typed digits are kept as they are; otherwise the first two digits, "/", then the next typed digits, at most two, so the length is one more than min(typed, 4) |
| CheckoutCard.ExpiryErrorIff | app/carrito/page.tsx:708-725 | the expiry error is set exactly for a complete "MM/YY" that fails validation, and cleared otherwise |
| Checkout.Subtotal | app/carrito/page.tsx:116-122 | `calculateSubtotal`: each line's list price read with the decimal comma, times its quantity, 0 when unreadable, summed |
| Checkout.Discount | app/carrito/page.tsx:124-130 | `calculateDiscount`: 15% of the subtotal for transfer and cash, 0 otherwise |
| Checkout.Interest | app/carrito/page.tsx:132-138 | `calculateInterest`: 60% of the subtotal for a card in 12 installments, 0 otherwise |
| Checkout.Total | app/carrito/page.tsx:140-145 | `calculateTotal`: subtotal minus discount plus interest |
| Checkout.OrderMessage | app/carrito/page.tsx:147-222 | the order text: customer and delivery head, one numbered line per item, then payment and summary |
| Checkout.PricingRule | app/carrito/page.tsx:124-145 | transfer and cash pay 0.85 of the subtotal, card in 12 installments 1.6, other card plans 1.0; discount and interest never both apply |
| Checkout.SummaryLinesShown | app/carrito/page.tsx:213-218 | the discount and interest lines are written exactly when their amount is positive, never both |
| Checkout.SubtotalMatchesCartTotal | app/carrito/page.tsx:116-122 | without cash prices, the checkout subtotal equals the cart total |
| Checkout.FormatTensOfThousands | app/carrito/page.tsx:112-114 | `formatPrice(t × 1000)` for two-digit t is "$", t, ".000" |
| Checkout.TenThousandParses | app/carrito/page.tsx:119 | "$10.000" reads as 10000 |
| Checkout.TenThousandLine | app/carrito/page.tsx:116-122 | a "$10.000" line ordered q times makes a subtotal of 10000 × q |
| Checkout.TransferScenario | app/carrito/page.tsx:116-145 | two units at "$10.000" by transfer: subtotal 20000, discount 3000, total "$17.000" |
| Checkout.TwelveInstallmentsScenario | app/carrito/page.tsx:116-145 | one unit at "$10.000" by card in 12 installments: interest 6000, total "$16.000" |
| Checkout.NumberedLinesSplit | app/carrito/page.tsx:179-182 | numbering runs on across a split of the cart |
| Checkout.NumberedLine | app/carrito/page.tsx:179-182 | one product line: number, name, "x" and quantity, then `cashPrice \|\| price` and "c/u" |
| Checkout.ProductLinesNext | app/carrito/page.tsx:179-182 | the next item adds its own line, numbered one past the items before it |
| Checkout.ProductLineOfItem | app/carrito/page.tsx:179-182 | item k has exactly one line, numbered k+1, between the lines of the items before and after it |
| Checkout.BuildOrderMessage | app/carrito/page.tsx:147-222 | the `message +=` loop yields the head, one numbered line per item in cart order, then payment and summary |
| Checkout.OrderNumber | app/carrito/page.tsx:224-227 | the order number has 8 digits and lies in [10000000, 99999999] |
| Checkout.CheckoutPage.constructor | app/carrito/page.tsx:67-86 | the initial choices (transfer, shipping, Via Cargo, 1 installment), an empty form and no order |
| Checkout.CheckoutPage.OnCardNumberChange | app/carrito/page.tsx:679-686 | only the card-number field changes, to the formatted number, and the brand shown is the brand of the digits typed |
| Checkout.CheckoutPage.OnCardExpiryChange | app/carrito/page.tsx:708-728 | the expiry field gets the normalised text and the error is recomputed from it |
| Checkout.CheckoutPage.OnCardCvvChange | app/carrito/page.tsx:747-751 | only the CVV field changes, normalised for the brand shown before the change |
| Checkout.CheckoutPage.HandleCheckout | app/carrito/page.tsx:229-246 | an empty cart changes nothing; a card payment sets an 8-digit order number, marks the order completed and empties the cart; transfer and cash hand out the order message and change nothing |
| Checkout.CheckoutPage.HandleClearCart | app/carrito/page.tsx:248-252 | the cart is emptied exactly when the customer confirms |
| Kitchen.Filtered | app/cocina/page.tsx:42-69 | the filter chain: category "cocina", then the query, then the minimum and maximum price when set |
| Kitchen.KitchenProducts | app/cocina/page.tsx:42-96 | the page's list: the filtered list, sorted on a copy with the option's comparator unless "default" |
| Kitchen.FilteredIsListed | app/cocina/page.tsx:42-69 | the chain of category, search and bound filters is one filter by a single predicate `Listed` |
| Kitchen.FilteredSpec | app/cocina/page.tsx:42-69 | before sorting, the list holds exactly the listed catalog products, as an order-preserving subsequence of the catalog |
| Kitchen.SortedIsPermutation | app/cocina/page.tsx:71-96 | the page shows a permutation of the filtered list, and for "default" the filtered list itself |
| Kitchen.ResultsAreListed | app/cocina/page.tsx:42-96 | every product shown is a catalog product in "cocina" that matches the query and respects the bounds |
| Kitchen.KeyOrdersAreTotal | app/cocina/page.tsx:78-81 | when every price parses, both price comparators are total preorders |
| Kitchen.KeySorts | app/cocina/page.tsx:76-81 | sorting by `priceA - priceB` leaves the prices non-decreasing |
| Kitchen.KeySortsReversed | app/cocina/page.tsx:76-81 | sorting by `priceB - priceA` leaves the prices non-increasing |
| Kitchen.PriceAscending | app/cocina/page.tsx:76-82 | "price-asc": the prices never decrease along the page |
| Kitchen.PriceDescending | app/cocina/page.tsx:76-82 | "price-desc": the prices never increase along the page |
| Kitchen.BoundMakesPricesParse | app/cocina/page.tsx:56-69 | once a bound is set, every listed price parses |
| Kitchen.NameOrdersAreTotal | app/cocina/page.tsx:84-92 | under a total collation both name comparators are total preorders |
| Kitchen.NameAscending | app/cocina/page.tsx:84-88 | "name-asc": lower-cased names in collation order |
| Kitchen.NameDescending | app/cocina/page.tsx:84-91 | "name-desc": the reversed comparator, so reverse collation order |
| Kitchen.TiesKeepCatalogOrder | app/cocina/page.tsx:76-96 | on a total preorder, the products the option's comparator ties with any given one appear in their filtered (catalog) order |
| Kitchen.KeyTiesAreSameKey | app/cocina/page.tsx:78-81 | under a price comparator, the products tied with p are exactly those of p's price |
| Kitchen.KeyTiesKeepOrder | app/cocina/page.tsx:76-81 | sorting by a price comparator keeps products of equal price in their order |
| Kitchen.PriceTiesKeepCatalogOrder | app/cocina/page.tsx:76-82 | "price-asc" and "price-desc": products of equal price keep their catalog order |
| Kitchen.NameTiesKeepCatalogOrder | app/cocina/page.tsx:76-92 | "name-asc" and "name-desc": products whose names the collation ties keep their catalog order |
| Kitchen.ReversedNamesDescend | app/cocina/page.tsx:84-92 | read back to front, a list in "name-asc" order is in "name-desc" order |
| Kitchen.NameSortsSorted | app/cocina/page.tsx:84-92 | under a total collation both name sorts leave their list in order and permute it |
| Kitchen.PermutationKeepsNamesDistinct | app/cocina/page.tsx:84-92 | a permutation of a list without tied names has none either |
| Kitchen.OrderedReverse | app/cocina/page.tsx:84-92 | without tied names, a list in "name-desc" order is the reverse of any permutation of it in "name-asc" order |
| Kitchen.NameSortsAreReverses | app/cocina/page.tsx:84-92 | without tied names, the "name-desc" sort is the reverse of the "name-asc" sort |
| Kitchen.NameDescendingIsReversed | app/cocina/page.tsx:84-92 | when no two listed names tie, the page in "name-desc" order is the "name-asc" page reversed |
| Kitchen.EqualBoundsFixThePrice | app/cocina/page.tsx:56-69 | with the same minimum and maximum, the page shows exactly the matching kitchen products whose price equals that value, and nothing when it does not read as a number |
| Kitchen.InitialListing | app/cocina/page.tsx:24-44 | with the initial filters and a blank query, every kitchen product in catalog order |
| Kitchen.InitialFiltersAreReset | app/cocina/page.tsx:24-35 | the page's initial filters are the panel's reset record |
| Kitchen.OnlyBoundsMatter | app/cocina/page.tsx:42-69 | availability flags and tag lists do not affect the listing |
| Sorting.Insert | app/cocina/page.tsx:76 | one insertion step adds exactly the inserted element |
| Sorting.SortBy | app/cocina/page.tsx:76 | `[...filtered].sort(...)` is a permutation of its input |
| Sorting.InsertSorted | app/cocina/page.tsx:76 | inserting into an ordered list keeps it ordered |
| Sorting.SortBySorted | app/cocina/page.tsx:76 | on a total preorder, the result is in comparator order |
| Sorting.SortByKeepsTies | app/cocina/page.tsx:76 | a list already in comparator order is unchanged |
| Sorting.FilterInsert | app/cocina/page.tsx:76 | an insertion step puts the inserted element after every element tied with it |
| Sorting.SortByStable | app/cocina/page.tsx:76 | the sort is stable: the elements tied with any given one keep their relative order |
| Sorting.MultisetRest | app/cocina/page.tsx:76 | permutations with the same first element are permutations after it |
| Sorting.SortedHeadsAgree | app/cocina/page.tsx:76 | two ordered permutations without ties start with the same element |
| Sorting.SortedPermutationsAgree | app/cocina/page.tsx:76 | without ties, a list has a single ordered permutation |
| Catalog.MatchesQuery | components/header.tsx:61-64 | the normalised name or the normalised slug includes the normalised query |
| QuickSearch.Results | components/header.tsx:56-66 | at most five results, none for a blank query, each matching the normalised query by name or slug |
| QuickSearch.ResultsAreFirstMatches | components/header.tsx:59-65 | the results are the first min(5, matches) matches, in catalog order |
| QuickSearch.FewMatchesAllListed | components/header.tsx:59-65 | with fewer than five results, every match is listed |
| QuickSearch.ClearedBoxShowsNothing | components/header.tsx:57 | the cleared query lists nothing |
| QuickSearch.SearchBox.constructor | components/header.tsx:23-24 | an empty query and a closed dropdown |
| QuickSearch.SearchBox.HandleInputChange | components/header.tsx:83-86 | the raw value is stored, and the dropdown is open exactly when it is not blank |
| QuickSearch.SearchBox.HandleSearch | components/header.tsx:68-75 | a non-blank query navigates with the trimmed text, then clears the query and closes the dropdown; otherwise nothing changes |
| QuickSearch.SearchBox.HandleFocus | components/header.tsx:136 | focus opens the dropdown when the query is not blank, and never closes it |
| QuickSearch.SearchBox.HandleProductClick | components/header.tsx:88-91 | the query is cleared and the dropdown closed |
| FilterPanel.DisponibilidadChange | components/filter-panel.tsx:55-63 | `handleDisponibilidadChange`: the named availability flag set, everything else spread from the old state |
| FilterPanel.TipoMuebleChange | components/filter-panel.tsx:65-72 | `handleTipoMuebleChange`: the value appended when checked, every occurrence removed otherwise |
| FilterPanel.ArrayFilterChange | components/filter-panel.tsx:74-85 | `handleArrayFilterChange`: the same update on the list the key names |
| FilterPanel.WithTags | components/filter-panel.tsx:80-85 | the spread update changes the named list and nothing else |
| FilterPanel.Extensionality | components/filter-panel.tsx:6-23 | two states agreeing on flags, bounds and every list are equal |
| FilterPanel.Reset | components/filter-panel.tsx:92-107 | both flags false, both bounds "", all seven lists empty |
| FilterPanel.CheckAppends | components/filter-panel.tsx:82-83 | checking appends the value at the end, even when it is already listed |
| FilterPanel.UncheckRemovesAll | components/filter-panel.tsx:84 | unchecking removes every occurrence and keeps every other value, as often as before and in order |
| FilterPanel.UncheckKeepsCounts | components/filter-panel.tsx:84 | every other value keeps its number of occurrences |
| FilterPanel.UncheckOnKey | components/filter-panel.tsx:79-85 | the unchecked key's list loses every occurrence of the value |
| FilterPanel.ArrayChangeFrame | components/filter-panel.tsx:80-85 | a checkbox change leaves the flags, the bounds and the other lists unchanged |
| FilterPanel.TipoMuebleIsArrayChange | components/filter-panel.tsx:65-72 | `handleTipoMuebleChange` is `handleArrayFilterChange` on `tipoMueble` |
| FilterPanel.CheckThenUncheck | components/filter-panel.tsx:79-85 | checking then unchecking a value that was absent restores the state |
| FilterPanel.UncheckAbsentIsNoOp | components/filter-panel.tsx:84 | unchecking an absent value changes nothing |
| FilterPanel.DisponibilidadChangeSetsFlag | components/filter-panel.tsx:55-63 | the named flag takes the new value; the other flag and every other field are kept |
| FilterPanel.DisponibilidadChangeIdempotent | components/filter-panel.tsx:55-63 | repeating a flag change changes nothing more |
| ProductPrice.Render | components/product-price.tsx:8-102 | the decision table: what is struck, whether the card caption is shown, what is shown and highlighted, and which note goes with it (the cash note exactly for "credito", the opportunity note exactly for "oportunidad", the 15% note exactly for "transferencia" without last units, the last-units note exactly when flagged without another label, none exactly without cash price and last units) |
| ProductPrice.OmittedPropsDefault | components/product-price.tsx:8 | omitted props are label "transferencia" and no last units |
| ProductPrice.OpportunityIgnoresLastUnits | components/product-price.tsx:27-37 | with a cash price, "oportunidad" wins over the last-units flag |
| ProductPrice.PreviousPrice | components/product-price.tsx:70-81 | `calculatePreviousPrice`: the markup of the price by what the cart's reading gets from it |
| ProductPrice.Markup | components/product-price.tsx:70-81 | nothing read leaves the price unchanged; otherwise the result starts with "$", is grouped with a "." at every fourth position from the right, and, marks deleted, is the numeral of round(1.2 × value) |
| ProductPrice.MarkupReadsBack | components/product-price.tsx:72-80 | the previous price reads back, by the component's own reading, as round(1.2 × value) |
| ProductPrice.UnreadablePriceKept | components/product-price.tsx:72-73 | a price that does not read as a number is its own previous price |
| ProductPrice.PreviousOfFormatted | components/product-price.tsx:70-81 | on `formatPrice(n)` the reading is n itself, so the previous price is the markup of n, and round(1.2 × n) is never below n |
| ProductPrice.NoDigitsNoPreviousPrice | components/product-price.tsx:72-73 | a price with no digit is struck through as it is |
| ProductPrice.NoDigitsParseFloat | components/product-price.tsx:72 | `parseFloat` of a text with no digit is `NaN` |
| CartDropdown.DropdownMessage | components/cart-dropdown.tsx:35-44 | the dropdown's order text: greeting, one line per item, then "\nTotal: " and the formatted cart total |
| CartDropdown.ItemLine | components/cart-dropdown.tsx:37-40 | one item line: quantity, "x", name and `cashPrice \|\| price` in parentheses |
| CartDropdown.ItemLinesSplit | components/cart-dropdown.tsx:37-40 | the lines of two parts of a cart are the first part's lines followed by the second's |
| CartDropdown.ItemLinesNext | components/cart-dropdown.tsx:37-40 | the next item adds its own line |
| CartDropdown.ItemLineOf | components/cart-dropdown.tsx:37-40 | item k has exactly one line, between the lines of the items before and after it |
| CartDropdown.MessageFrame | components/cart-dropdown.tsx:35-44 | the text starts with the greeting and ends with "\nTotal: " followed by `formatPrice(getCartTotal())`, the item lines between them |
| CartDropdown.TotalReadsBack | components/cart-dropdown.tsx:41-42 | the total written reads back as the cart total rounded to the peso |
| CartDropdown.EmptyCartMessage | components/cart-dropdown.tsx:35-44 | an empty cart gives the greeting, "\nTotal: " and "$0" |
| CartDropdown.GenerateMessage | components/cart-dropdown.tsx:35-44 | the `message +=` loop over the cart yields the dropdown's order text |

## Left out

- Saving the cart to local storage (`contexts/cart-context.tsx:42-45`) is left out. JSON decoding of the saved slot is left out too: `CartStore.Cart.LoadSaved` receives the decoded slot.
- `new Date()` and `Math.random` are parameters: the current year and month, and a draw in [0, 1).
- `window.open`, `encodeURIComponent`, `router.push` and `confirm` are external calls:
  - `HandleCheckout` returns the message it would send;
  - `HandleSearch` returns the trimmed query it would navigate with;
  - `HandleClearCart` receives the customer's answer.
- `normalizeString` (NFD decomposition, diacritic removal, lower case), `toLowerCase` and `localeCompare(_, "es")` are abstract functions. The name sorts are proved for any total collation.
- `parseFloat` is modelled on decimal notation only. Exponents, "Infinity" and IEEE double rounding are not modelled. Amounts are exact reals, so the floating-point error of `numericPrice * 1.2` and of the 0.15 and 0.6 products is not represented.
- Kitchen.PriceAscending: stated only when every listed price parses. An unreadable price makes the comparator return `NaN`, and the order JavaScript then produces is implementation-defined. The model's sort treats such pairs as ties.
- Kitchen.NameAscending: stated for a collation whose `<= 0` is total and transitive, as a locale collation is; the collation itself is not modelled.
- Sorting.SortBy: the engine's sort algorithm is modelled as an insertion sort. `Array.prototype.sort` is required to be stable, and the model's sort is proved stable (`Sorting.SortByStable`) and, on a comparator without ties, proved to have a single possible result (`Sorting.SortedPermutationsAgree`). That the engine's algorithm picks the same order among tied elements follows from stability and is not itself modelled.
- Money.FormatPrice: amounts in [-0.5, 0) are written "$0", but JavaScript rounds them to negative zero and writes "$-0". Exact reals have no signed zero, so the model does not represent this. `Money.SameRoundSameText` and `Money.ReformatIsIdempotent` therefore hold of the model and not of JavaScript on those amounts. The storefront formats only totals, discounts, interest and prices, and none of these is negative.
- Money.FormatPrice: the model puts a "." before every group of three digits, so four-digit amounts are written "$1.234". Whether `toLocaleString("es-AR")` groups a four-digit amount depends on the locale's minimum grouping digits, and that data is not part of this model.
- Quantities and amounts are unbounded; integer precision beyond 2^53 is not modelled.
- Left out as rendering or plumbing without logic to prove:
  - JSX rendering;
  - the sticky header, scroll and click-outside listeners;
  - the cart dropdown's open toggle;
  - the filter panel's apply button and its prop-to-state sync;
  - the plain form setters;
  - the postal-code and document-number `slice(0, 10)` normalisers.
