/**
 * The kitchen category page (`/cocina`): the list it shows is the catalog
 * restricted to the "cocina" category, then to the search query, then to the
 * price bounds, then sorted on a copy by the chosen option.
 */
module Kitchen {
  import opened Wrappers
  import opened Text
  import Seqs
  import Money
  import Sorting
  import opened Catalog
  import FilterPanel

  datatype SortOption = Default | PriceAsc | PriceDesc | NameAsc | NameDesc

  /**
   * The locale-dependent string operations the page calls: `normalizeString`,
   * `toLowerCase` and `localeCompare(_, "es")` (negative, zero or positive).
   */
  datatype Locale = Locale(normalize: string -> string, lower: string -> string, compare: (string, string) -> int)

  /** The page's `initialFilters`. */
  const InitialFilters := FilterPanel.FilterState(FilterPanel.Availability(false, false), "", "", [], [], [], [], [], [], [])

  // ---------------------------------------------------------------- the filters

  function InCategory(): Product -> bool {
    (p: Product) => p.category == "cocina"
  }

  /** `parseFloat(p.price.replace(/[$.]/g, ""))`. */
  function Price(p: Product): Option<real> {
    Money.ParsePrice(p.price)
  }

  /** `price >= minPrice`, false whenever either side is `NaN`. */
  predicate PriceAtLeast(p: Product, bound: string) {
    match (Price(p), ParseFloat(bound))
    case (Some(price), Some(min)) => price >= min
    case _ => false
  }

  /** `price <= maxPrice`, false whenever either side is `NaN`. */
  predicate PriceAtMost(p: Product, bound: string) {
    match (Price(p), ParseFloat(bound))
    case (Some(price), Some(max)) => price <= max
    case _ => false
  }

  function AtLeast(bound: string): Product -> bool {
    p => PriceAtLeast(p, bound)
  }

  function AtMost(bound: string): Product -> bool {
    p => PriceAtMost(p, bound)
  }

  /** The search stage: only a query with something besides white space filters, with the whole normalised query. */
  function Searched(s: seq<Product>, query: string, locale: Locale): seq<Product> {
    if Trim(query) != [] then Seqs.Filter(s, Matches(locale.normalize, locale.normalize(query))) else s
  }

  /** The price stages: a bound filters when its text is not empty. */
  function WithMin(s: seq<Product>, bound: string): seq<Product> {
    if bound != "" then Seqs.Filter(s, AtLeast(bound)) else s
  }

  function WithMax(s: seq<Product>, bound: string): seq<Product> {
    if bound != "" then Seqs.Filter(s, AtMost(bound)) else s
  }

  /** The list before sorting. */
  function Filtered(catalog: seq<Product>, query: string, filters: FilterPanel.FilterState, locale: Locale): seq<Product> {
    var kitchen := Seqs.Filter(catalog, InCategory());
    WithMax(WithMin(Searched(kitchen, query, locale), filters.precioMin), filters.precioMax)
  }

  // ---------------------------------------------------------------- the sort

  /** `keyA - keyB <= 0`, with a `NaN` difference counting as 0. */
  predicate KeyNotAfter(key: Product -> Option<real>, a: Product, b: Product) {
    match (key(a), key(b))
    case (Some(x), Some(y)) => x <= y
    case _ => true
  }

  /** `(a, b) => key(a) - key(b)` as "may stay before". */
  function KeyOrder(key: Product -> Option<real>): (Product, Product) -> bool {
    (a, b) => KeyNotAfter(key, a, b)
  }

  /** `(a, b) => key(b) - key(a)` as "may stay before". */
  function ReversedKeyOrder(key: Product -> Option<real>): (Product, Product) -> bool {
    (a, b) => KeyNotAfter(key, b, a)
  }

  /** The comparator of each option, as "may stay before". */
  function Order(option: SortOption, locale: Locale): (Product, Product) -> bool {
    match option
    case PriceAsc => KeyOrder(Price)
    case PriceDesc => ReversedKeyOrder(Price)
    case NameAsc => (a: Product, b: Product) => locale.compare(locale.lower(a.name), locale.lower(b.name)) <= 0
    case NameDesc => (a: Product, b: Product) => locale.compare(locale.lower(b.name), locale.lower(a.name)) <= 0
    case Default => (a, b) => true
  }

  /** `kitchenProducts`. */
  function KitchenProducts(catalog: seq<Product>, query: string, option: SortOption,
                           filters: FilterPanel.FilterState, locale: Locale): seq<Product> {
    var filtered := Filtered(catalog, query, filters, locale);
    if option == Default then filtered else Sorting.SortBy(filtered, Order(option, locale))
  }

  // ---------------------------------------------------------------- the reference definition

  /** What a product must satisfy to be listed, stated once for all stages. */
  predicate Listed(p: Product, query: string, filters: FilterPanel.FilterState, locale: Locale) {
    && p.category == "cocina"
    && (Trim(query) != [] ==> MatchesQuery(locale.normalize, locale.normalize(query), p))
    && (filters.precioMin != "" ==> PriceAtLeast(p, filters.precioMin))
    && (filters.precioMax != "" ==> PriceAtMost(p, filters.precioMax))
  }

  function ListedBy(query: string, filters: FilterPanel.FilterState, locale: Locale): Product -> bool {
    p => Listed(p, query, filters, locale)
  }

  /** A filter whose predicate is the conjunction of two others is two filters in a row. */
  lemma FilterStage(s: seq<Product>, before: Product -> bool, stage: Product -> bool, applied: bool,
                    after: Product -> bool)
    requires forall p :: after(p) == (before(p) && (applied ==> stage(p)))
    ensures (if applied then Seqs.Filter(Seqs.Filter(s, before), stage) else Seqs.Filter(s, before)) == Seqs.Filter(s, after)
  {
    if applied {
      Seqs.FilterFilter(s, before, stage, after);
    } else {
      Seqs.FilterSamePredicate(s, before, after);
    }
  }

  /** What the first two stages keep: the category, and the query when there is one. */
  predicate SearchedSoFar(p: Product, query: string, locale: Locale) {
    p.category == "cocina" && (Trim(query) != [] ==> MatchesQuery(locale.normalize, locale.normalize(query), p))
  }

  function SearchedBy(query: string, locale: Locale): Product -> bool {
    p => SearchedSoFar(p, query, locale)
  }

  /** What the first three stages keep: the above, and the lower bound when it is set. */
  predicate BoundedBelow(p: Product, query: string, min: string, locale: Locale) {
    SearchedSoFar(p, query, locale) && (min != "" ==> PriceAtLeast(p, min))
  }

  function BoundedBelowBy(query: string, min: string, locale: Locale): Product -> bool {
    p => BoundedBelow(p, query, min, locale)
  }

  lemma SearchStageIsFilter(catalog: seq<Product>, query: string, locale: Locale)
    ensures Searched(Seqs.Filter(catalog, InCategory()), query, locale) == Seqs.Filter(catalog, SearchedBy(query, locale))
  {
    FilterStage(catalog, InCategory(), Matches(locale.normalize, locale.normalize(query)), Trim(query) != [], SearchedBy(query, locale));
  }

  lemma MinStageIsFilter(catalog: seq<Product>, query: string, min: string, locale: Locale)
    ensures WithMin(Seqs.Filter(catalog, SearchedBy(query, locale)), min) == Seqs.Filter(catalog, BoundedBelowBy(query, min, locale))
  {
    FilterStage(catalog, SearchedBy(query, locale), AtLeast(min), min != "", BoundedBelowBy(query, min, locale));
  }

  lemma MaxStageIsFilter(catalog: seq<Product>, query: string, filters: FilterPanel.FilterState, locale: Locale)
    ensures WithMax(Seqs.Filter(catalog, BoundedBelowBy(query, filters.precioMin, locale)), filters.precioMax)
         == Seqs.Filter(catalog, ListedBy(query, filters, locale))
  {
    FilterStage(catalog, BoundedBelowBy(query, filters.precioMin, locale), AtMost(filters.precioMax),
                filters.precioMax != "", ListedBy(query, filters, locale));
  }

  /** The chain of filters is one filter of the catalog by `Listed`. */
  lemma FilteredIsListed(catalog: seq<Product>, query: string, filters: FilterPanel.FilterState, locale: Locale)
    ensures Filtered(catalog, query, filters, locale) == Seqs.Filter(catalog, ListedBy(query, filters, locale))
  {
    SearchStageIsFilter(catalog, query, locale);
    MinStageIsFilter(catalog, query, filters.precioMin, locale);
    MaxStageIsFilter(catalog, query, filters, locale);
  }

  // ---------------------------------------------------------------- properties

  /**
   * Before sorting, the page lists exactly the catalog products that are in
   * "cocina", match the query when there is one and respect each bound that
   * is set, in catalog order.
   */
  lemma FilteredSpec(catalog: seq<Product>, query: string, filters: FilterPanel.FilterState, locale: Locale)
    ensures var r := Filtered(catalog, query, filters, locale);
      && (forall i :: 0 <= i < |r| ==> r[i] in catalog && Listed(r[i], query, filters, locale))
      && (forall i :: 0 <= i < |catalog| && Listed(catalog[i], query, filters, locale) ==> catalog[i] in r)
      && Seqs.IsSubsequence(r, catalog)
  {
    var listed := ListedBy(query, filters, locale);
    var r := Seqs.Filter(catalog, listed);
    Seqs.FilterMembers(catalog, listed);
    Seqs.FilterIsSubsequence(catalog, listed);
    forall i | 0 <= i < |r| ensures r[i] in catalog && Listed(r[i], query, filters, locale) {
      assert listed(r[i]);
    }
    forall i | 0 <= i < |catalog| && Listed(catalog[i], query, filters, locale) ensures catalog[i] in r {
      assert listed(catalog[i]);
    }
    FilteredIsListed(catalog, query, filters, locale);
  }

  /** Sorting only reorders: the page shows the filtered products, each as often as before. */
  lemma SortedIsPermutation(catalog: seq<Product>, query: string, option: SortOption,
                            filters: FilterPanel.FilterState, locale: Locale)
    ensures multiset(KitchenProducts(catalog, query, option, filters, locale)) == multiset(Filtered(catalog, query, filters, locale))
    ensures option == Default ==> KitchenProducts(catalog, query, option, filters, locale) == Filtered(catalog, query, filters, locale)
  {
  }

  /** Every product on the page is a catalog product that satisfies `Listed`, whatever the sort. */
  lemma ResultsAreListed(catalog: seq<Product>, query: string, option: SortOption,
                         filters: FilterPanel.FilterState, locale: Locale, p: Product)
    requires p in KitchenProducts(catalog, query, option, filters, locale)
    ensures p in catalog && Listed(p, query, filters, locale)
  {
    var r := Filtered(catalog, query, filters, locale);
    assert p in r by {
      SortedIsPermutation(catalog, query, option, filters, locale);
      assert p in multiset(KitchenProducts(catalog, query, option, filters, locale));
    }
    var i :| 0 <= i < |r| && r[i] == p;
    FilteredSpec(catalog, query, filters, locale);
  }

  /** With a sort option other than "default", the page sorts the filtered list with that option's comparator. */
  lemma SortStage(catalog: seq<Product>, query: string, option: SortOption,
                  filters: FilterPanel.FilterState, locale: Locale)
    requires option != Default
    ensures KitchenProducts(catalog, query, option, filters, locale) ==
      Sorting.SortBy(Filtered(catalog, query, filters, locale), Order(option, locale))
  {
  }

  /** On elements whose keys are all defined, both key comparators are total preorders. */
  lemma KeyOrdersAreTotal(s: seq<Product>, key: Product -> Option<real>)
    requires forall p :: p in s ==> key(p).Some?
    ensures Sorting.TotalPreorderOn(s, KeyOrder(key))
    ensures Sorting.TotalPreorderOn(s, ReversedKeyOrder(key))
  {
    var asc, desc := KeyOrder(key), ReversedKeyOrder(key);
    forall a, b | a in s && b in s ensures asc(a, b) || asc(b, a) {
      assert key(a).Some? && key(b).Some?;
    }
    forall a, b, c | a in s && b in s && c in s && asc(a, b) && asc(b, c) ensures asc(a, c) {
      assert key(a).Some? && key(b).Some? && key(c).Some?;
    }
    forall a, b | a in s && b in s ensures desc(a, b) || desc(b, a) {
      assert key(a).Some? && key(b).Some?;
    }
    forall a, b, c | a in s && b in s && c in s && desc(a, b) && desc(b, c) ensures desc(a, c) {
      assert key(a).Some? && key(b).Some? && key(c).Some?;
    }
  }

  /** Along `r`, the key is defined and never decreases. */
  predicate KeysAscending(r: seq<Product>, key: Product -> Option<real>) {
    forall i, j :: 0 <= i < j < |r| ==> key(r[i]).Some? && key(r[j]).Some? && key(r[i]).value <= key(r[j]).value
  }

  /** Along `r`, the key is defined and never increases. */
  predicate KeysDescending(r: seq<Product>, key: Product -> Option<real>) {
    forall i, j :: 0 <= i < j < |r| ==> key(r[i]).Some? && key(r[j]).Some? && key(r[i]).value >= key(r[j]).value
  }

  /** A list in key order whose keys are all defined has non-decreasing keys. */
  lemma KeyOrderedAscending(r: seq<Product>, key: Product -> Option<real>)
    requires Sorting.SortedBy(r, KeyOrder(key))
    requires forall p :: p in r ==> key(p).Some?
    ensures KeysAscending(r, key)
  {
    forall i, j | 0 <= i < j < |r|
      ensures key(r[i]).Some? && key(r[j]).Some? && key(r[i]).value <= key(r[j]).value
    {
      assert r[i] in r && r[j] in r;
      assert KeyOrder(key)(r[i], r[j]);
    }
  }

  /** A list in reversed key order whose keys are all defined has non-increasing keys. */
  lemma KeyOrderedDescending(r: seq<Product>, key: Product -> Option<real>)
    requires Sorting.SortedBy(r, ReversedKeyOrder(key))
    requires forall p :: p in r ==> key(p).Some?
    ensures KeysDescending(r, key)
  {
    forall i, j | 0 <= i < j < |r|
      ensures key(r[i]).Some? && key(r[j]).Some? && key(r[i]).value >= key(r[j]).value
    {
      assert r[i] in r && r[j] in r;
      assert ReversedKeyOrder(key)(r[i], r[j]);
    }
  }

  /** Sorting keeps the elements, so every key stays defined. */
  lemma SortKeepsKeysDefined(s: seq<Product>, leq: (Product, Product) -> bool, key: Product -> Option<real>)
    requires forall p :: p in s ==> key(p).Some?
    ensures forall p :: p in Sorting.SortBy(s, leq) ==> key(p).Some?
  {
    var r := Sorting.SortBy(s, leq);
    forall p | p in r ensures key(p).Some? {
      assert p in multiset(r);
      assert p in multiset(s);
    }
  }

  /** Sorting by a numeric key, on a list whose keys are all defined, leaves the keys non-decreasing. */
  lemma KeySorts(s: seq<Product>, key: Product -> Option<real>)
    requires forall p :: p in s ==> key(p).Some?
    ensures KeysAscending(Sorting.SortBy(s, KeyOrder(key)), key)
  {
    KeyOrdersAreTotal(s, key);
    Sorting.SortBySorted(s, KeyOrder(key));
    SortKeepsKeysDefined(s, KeyOrder(key), key);
    KeyOrderedAscending(Sorting.SortBy(s, KeyOrder(key)), key);
  }

  /** Sorting by the reversed key comparator leaves the keys non-increasing. */
  lemma KeySortsReversed(s: seq<Product>, key: Product -> Option<real>)
    requires forall p :: p in s ==> key(p).Some?
    ensures KeysDescending(Sorting.SortBy(s, ReversedKeyOrder(key)), key)
  {
    KeyOrdersAreTotal(s, key);
    Sorting.SortBySorted(s, ReversedKeyOrder(key));
    SortKeepsKeysDefined(s, ReversedKeyOrder(key), key);
    KeyOrderedDescending(Sorting.SortBy(s, ReversedKeyOrder(key)), key);
  }

  /** "price-asc": when every listed price parses, prices never decrease along the page. */
  lemma PriceAscending(catalog: seq<Product>, query: string, filters: FilterPanel.FilterState, locale: Locale)
    requires forall p :: p in Filtered(catalog, query, filters, locale) ==> Price(p).Some?
    ensures KeysAscending(KitchenProducts(catalog, query, PriceAsc, filters, locale), Price)
  {
    SortStage(catalog, query, PriceAsc, filters, locale);
    KeySorts(Filtered(catalog, query, filters, locale), Price);
  }

  /** "price-desc": when every listed price parses, prices never increase along the page. */
  lemma PriceDescending(catalog: seq<Product>, query: string, filters: FilterPanel.FilterState, locale: Locale)
    requires forall p :: p in Filtered(catalog, query, filters, locale) ==> Price(p).Some?
    ensures KeysDescending(KitchenProducts(catalog, query, PriceDesc, filters, locale), Price)
  {
    SortStage(catalog, query, PriceDesc, filters, locale);
    KeySortsReversed(Filtered(catalog, query, filters, locale), Price);
  }

  /** A price bound drops every product whose price does not parse, so the price sorts then order every pair. */
  lemma BoundMakesPricesParse(catalog: seq<Product>, query: string, filters: FilterPanel.FilterState, locale: Locale)
    requires filters.precioMin != "" || filters.precioMax != ""
    ensures forall p :: p in Filtered(catalog, query, filters, locale) ==> Price(p).Some?
  {
    FilteredIsListed(catalog, query, filters, locale);
    var s := Filtered(catalog, query, filters, locale);
    forall p | p in s ensures Price(p).Some? {
      var i :| 0 <= i < |s| && s[i] == p;
      assert Listed(s[i], query, filters, locale);
    }
  }

  /** The collation orders strings totally: `compare(x, y) <= 0` is total and transitive. */
  ghost predicate CollationIsTotal(locale: Locale) {
    && (forall x, y :: locale.compare(x, y) <= 0 || locale.compare(y, x) <= 0)
    && (forall x, y, z :: locale.compare(x, y) <= 0 && locale.compare(y, z) <= 0 ==> locale.compare(x, z) <= 0)
  }

  /** Under a total collation, both name comparators order any list totally. */
  lemma NameOrdersAreTotal(s: seq<Product>, locale: Locale)
    requires CollationIsTotal(locale)
    ensures Sorting.TotalPreorderOn(s, Order(NameAsc, locale))
    ensures Sorting.TotalPreorderOn(s, Order(NameDesc, locale))
  {
    var asc, desc := Order(NameAsc, locale), Order(NameDesc, locale);
    var key := (p: Product) => locale.lower(p.name);
    forall a, b ensures asc(a, b) || asc(b, a) {
      assert locale.compare(key(a), key(b)) <= 0 || locale.compare(key(b), key(a)) <= 0;
    }
    forall a, b ensures desc(a, b) || desc(b, a) {
      assert locale.compare(key(a), key(b)) <= 0 || locale.compare(key(b), key(a)) <= 0;
    }
    forall a, b, c | asc(a, b) && asc(b, c) ensures asc(a, c) {
      assert locale.compare(key(a), key(b)) <= 0 && locale.compare(key(b), key(c)) <= 0;
    }
    forall a, b, c | desc(a, b) && desc(b, c) ensures desc(a, c) {
      assert locale.compare(key(c), key(b)) <= 0 && locale.compare(key(b), key(a)) <= 0;
    }
  }

  /** "name-asc": lower-cased names in collation order. */
  lemma NameAscending(catalog: seq<Product>, query: string, filters: FilterPanel.FilterState, locale: Locale)
    requires CollationIsTotal(locale)
    ensures var r := KitchenProducts(catalog, query, NameAsc, filters, locale);
      forall i, j :: 0 <= i < j < |r| ==> locale.compare(locale.lower(r[i].name), locale.lower(r[j].name)) <= 0
  {
    var s := Filtered(catalog, query, filters, locale);
    SortStage(catalog, query, NameAsc, filters, locale);
    NameOrdersAreTotal(s, locale);
    Sorting.SortBySorted(s, Order(NameAsc, locale));
  }

  /** "name-desc": the reversed comparator, so lower-cased names in reverse collation order. */
  lemma NameDescending(catalog: seq<Product>, query: string, filters: FilterPanel.FilterState, locale: Locale)
    requires CollationIsTotal(locale)
    ensures var r := KitchenProducts(catalog, query, NameDesc, filters, locale);
      forall i, j :: 0 <= i < j < |r| ==> locale.compare(locale.lower(r[j].name), locale.lower(r[i].name)) <= 0
  {
    var s := Filtered(catalog, query, filters, locale);
    SortStage(catalog, query, NameDesc, filters, locale);
    NameOrdersAreTotal(s, locale);
    Sorting.SortBySorted(s, Order(NameDesc, locale));
  }

  // ---------------------------------------------------------------- ties and bounds

  /** Products the option's comparator ties with `p` keep their catalog order on the page. */
  lemma TiesKeepCatalogOrder(catalog: seq<Product>, query: string, option: SortOption,
                             filters: FilterPanel.FilterState, locale: Locale, p: Product)
    requires Sorting.TotalPreorderOn(Filtered(catalog, query, filters, locale) + [p], Order(option, locale))
    ensures var tied := Sorting.TiedWith(Order(option, locale), p);
      Seqs.Filter(KitchenProducts(catalog, query, option, filters, locale), tied)
        == Seqs.Filter(Filtered(catalog, query, filters, locale), tied)
  {
    if option != Default {
      SortStage(catalog, query, option, filters, locale);
      Sorting.SortByStable(Filtered(catalog, query, filters, locale), Order(option, locale), p);
    }
  }

  function SameKey(key: Product -> Option<real>, p: Product): Product -> bool {
    q => key(q) == key(p)
  }

  function SamePrice(p: Product): Product -> bool {
    SameKey(Price, p)
  }

  /** Under a key order or its reverse, the products tied with `p` are those with the same key. */
  lemma {:induction false} KeyTiesAreSameKey(s: seq<Product>, key: Product -> Option<real>,
                                             leq: (Product, Product) -> bool, p: Product)
    requires leq == KeyOrder(key) || leq == ReversedKeyOrder(key)
    requires forall i :: 0 <= i < |s| ==> key(s[i]).Some?
    requires key(p).Some?
    ensures Seqs.Filter(s, Sorting.TiedWith(leq, p)) == Seqs.Filter(s, SameKey(key, p))
  {
    var tied := Sorting.TiedWith(leq, p);
    forall i | 0 <= i < |s| ensures tied(s[i]) == SameKey(key, p)(s[i]) {
      assert key(s[i]).Some?;
    }
    Seqs.FilterSamePredicate(s, tied, SameKey(key, p));
  }

  /** Sorting by a key order or its reverse keeps products with equal keys in their order. */
  lemma KeyTiesKeepOrder(s: seq<Product>, key: Product -> Option<real>, leq: (Product, Product) -> bool, p: Product)
    requires leq == KeyOrder(key) || leq == ReversedKeyOrder(key)
    requires forall q :: q in s ==> key(q).Some?
    requires p in s
    ensures Seqs.Filter(Sorting.SortBy(s, leq), SameKey(key, p)) == Seqs.Filter(s, SameKey(key, p))
  {
    assert forall q :: q in s + [p] ==> q in s;
    KeyOrdersAreTotal(s + [p], key);
    Sorting.SortByStable(s, leq, p);
    SortKeepsKeysDefined(s, leq, key);
    var r := Sorting.SortBy(s, leq);
    assert forall i :: 0 <= i < |r| ==> r[i] in r;
    KeyTiesAreSameKey(r, key, leq, p);
    KeyTiesAreSameKey(s, key, leq, p);
  }

  /** "price-asc" and "price-desc": products with equal prices keep their catalog order. */
  lemma PriceTiesKeepCatalogOrder(catalog: seq<Product>, query: string, option: SortOption,
                                  filters: FilterPanel.FilterState, locale: Locale, p: Product)
    requires option == PriceAsc || option == PriceDesc
    requires forall q :: q in Filtered(catalog, query, filters, locale) ==> Price(q).Some?
    requires p in Filtered(catalog, query, filters, locale)
    ensures Seqs.Filter(KitchenProducts(catalog, query, option, filters, locale), SamePrice(p))
         == Seqs.Filter(Filtered(catalog, query, filters, locale), SamePrice(p))
  {
    SortStage(catalog, query, option, filters, locale);
    KeyTiesKeepOrder(Filtered(catalog, query, filters, locale), Price, Order(option, locale), p);
  }

  /** "name-asc" and "name-desc": products whose names the collation ties keep their catalog order. */
  lemma NameTiesKeepCatalogOrder(catalog: seq<Product>, query: string, option: SortOption,
                                 filters: FilterPanel.FilterState, locale: Locale, p: Product)
    requires CollationIsTotal(locale)
    requires option == NameAsc || option == NameDesc
    ensures var tied := Sorting.TiedWith(Order(option, locale), p);
      Seqs.Filter(KitchenProducts(catalog, query, option, filters, locale), tied)
        == Seqs.Filter(Filtered(catalog, query, filters, locale), tied)
  {
    NameOrdersAreTotal(Filtered(catalog, query, filters, locale) + [p], locale);
    TiesKeepCatalogOrder(catalog, query, option, filters, locale, p);
  }

  /** No two different products of `s` have names the collation ties. */
  ghost predicate NamesDistinct(s: seq<Product>, locale: Locale) {
    forall p, q ::
      p in s && q in s
      && locale.compare(locale.lower(p.name), locale.lower(q.name)) <= 0
      && locale.compare(locale.lower(q.name), locale.lower(p.name)) <= 0
      ==> p == q
  }

  /** Read back to front, a list sorted by "name-asc" is sorted by "name-desc". */
  lemma ReversedNamesDescend(up: seq<Product>, locale: Locale)
    requires Sorting.SortedBy(up, Order(NameAsc, locale))
    ensures Sorting.SortedBy(Seqs.Reverse(up), Order(NameDesc, locale))
  {
    var rev := Seqs.Reverse(up);
    forall i, j | 0 <= i < j < |rev| ensures Order(NameDesc, locale)(rev[i], rev[j]) {
      assert Order(NameAsc, locale)(up[|up| - 1 - j], up[|up| - 1 - i]);
    }
  }

  lemma NameSortsSorted(s: seq<Product>, locale: Locale)
    requires CollationIsTotal(locale)
    ensures Sorting.SortedBy(Sorting.SortBy(s, Order(NameAsc, locale)), Order(NameAsc, locale))
    ensures Sorting.SortedBy(Sorting.SortBy(s, Order(NameDesc, locale)), Order(NameDesc, locale))
    ensures multiset(Sorting.SortBy(s, Order(NameAsc, locale))) == multiset(s)
    ensures multiset(Sorting.SortBy(s, Order(NameDesc, locale))) == multiset(s)
  {
    NameOrdersAreTotal(s, locale);
    Sorting.SortBySorted(s, Order(NameAsc, locale));
    Sorting.SortBySorted(s, Order(NameDesc, locale));
  }

  /** A permutation of a list without tied names has no tied names either. */
  lemma PermutationKeepsNamesDistinct(s: seq<Product>, t: seq<Product>, locale: Locale)
    requires NamesDistinct(s, locale)
    requires multiset(t) == multiset(s)
    ensures NamesDistinct(t, locale)
  {
    forall p | p in t ensures p in s {
      assert p in multiset(t);
    }
  }

  /** Sorting a list without tied names by "name-desc" reverses its "name-asc" sort. */
  lemma NameSortsAreReverses(s: seq<Product>, locale: Locale)
    requires CollationIsTotal(locale)
    requires NamesDistinct(s, locale)
    ensures Sorting.SortBy(s, Order(NameDesc, locale)) == Seqs.Reverse(Sorting.SortBy(s, Order(NameAsc, locale)))
  {
    NameSortsSorted(s, locale);
    OrderedReverse(s, Sorting.SortBy(s, Order(NameAsc, locale)), Sorting.SortBy(s, Order(NameDesc, locale)), locale);
  }

  /** Without tied names, the list in "name-desc" order is the reverse of any permutation in "name-asc" order. */
  lemma OrderedReverse(s: seq<Product>, up: seq<Product>, down: seq<Product>, locale: Locale)
    requires NamesDistinct(s, locale)
    requires multiset(up) == multiset(s) && multiset(down) == multiset(s)
    requires Sorting.SortedBy(up, Order(NameAsc, locale)) && Sorting.SortedBy(down, Order(NameDesc, locale))
    ensures down == Seqs.Reverse(up)
  {
    var desc := Order(NameDesc, locale);
    ReversedNamesDescend(up, locale);
    PermutationKeepsNamesDistinct(s, down, locale);
    NamesDistinctNoTies(down, locale);
    Sorting.SortedPermutationsAgree(down, Seqs.Reverse(up), desc);
  }

  /** In a list without tied names, the "name-desc" comparator ties no two different products. */
  lemma NamesDistinctNoTies(t: seq<Product>, locale: Locale)
    requires NamesDistinct(t, locale)
    ensures forall u, v :: u in t && v in t && Order(NameDesc, locale)(u, v) && Order(NameDesc, locale)(v, u) ==> u == v
  {
  }

  /** When no two listed names tie, "name-desc" lists exactly the reverse of "name-asc". */
  lemma NameDescendingIsReversed(catalog: seq<Product>, query: string, filters: FilterPanel.FilterState, locale: Locale)
    requires CollationIsTotal(locale)
    requires NamesDistinct(Filtered(catalog, query, filters, locale), locale)
    ensures KitchenProducts(catalog, query, NameDesc, filters, locale)
         == Seqs.Reverse(KitchenProducts(catalog, query, NameAsc, filters, locale))
  {
    SortStage(catalog, query, NameAsc, filters, locale);
    SortStage(catalog, query, NameDesc, filters, locale);
    NameSortsAreReverses(Filtered(catalog, query, filters, locale), locale);
  }

  /**
   * Equal bounds fix the price: with the same text as minimum and maximum,
   * the page shows exactly the kitchen products matching the query whose
   * price equals the value read from that text, and nothing when it does not
   * read as a number.
   */
  lemma EqualBoundsFixThePrice(catalog: seq<Product>, query: string, option: SortOption,
                               filters: FilterPanel.FilterState, locale: Locale)
    requires filters.precioMin != "" && filters.precioMin == filters.precioMax
    ensures forall q :: q in KitchenProducts(catalog, query, option, filters, locale) <==>
      q in catalog && SearchedSoFar(q, query, locale)
      && ParseFloat(filters.precioMin).Some? && Price(q) == ParseFloat(filters.precioMin)
  {
    var r := KitchenProducts(catalog, query, option, filters, locale);
    var s := Filtered(catalog, query, filters, locale);
    forall q
      ensures q in r <==>
        (q in catalog && SearchedSoFar(q, query, locale)
         && ParseFloat(filters.precioMin).Some? && Price(q) == ParseFloat(filters.precioMin))
    {
      if q in r {
        ResultsAreListed(catalog, query, option, filters, locale, q);
      }
      if q in catalog && SearchedSoFar(q, query, locale)
        && ParseFloat(filters.precioMin).Some? && Price(q) == ParseFloat(filters.precioMin)
      {
        assert Listed(q, query, filters, locale);
        var i :| 0 <= i < |catalog| && catalog[i] == q;
        FilteredSpec(catalog, query, filters, locale);
        assert q in s;
        SortedIsPermutation(catalog, query, option, filters, locale);
        assert q in multiset(r);
      }
    }
  }

  /** With the initial filters and a blank query, the page lists every kitchen product in catalog order. */
  lemma InitialListing(catalog: seq<Product>, query: string, locale: Locale)
    requires Trim(query) == []
    ensures KitchenProducts(catalog, query, Default, InitialFilters, locale) == Seqs.Filter(catalog, InCategory())
  {
  }

  /** The page's initial filters are the panel's reset filters. */
  lemma InitialFiltersAreReset(f: FilterPanel.FilterState)
    ensures InitialFilters == FilterPanel.Reset(f)
  {
  }

  /** Only the price bounds of the filter record affect the listing; availability and tag lists are ignored. */
  lemma OnlyBoundsMatter(catalog: seq<Product>, query: string, option: SortOption,
                         f: FilterPanel.FilterState, g: FilterPanel.FilterState, locale: Locale)
    requires f.precioMin == g.precioMin && f.precioMax == g.precioMax
    ensures KitchenProducts(catalog, query, option, f, locale) == KitchenProducts(catalog, query, option, g, locale)
  {
  }
}
