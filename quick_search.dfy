/**
 * The header's quick search: the dropdown shows the first five catalog
 * products whose normalised name or slug contains the normalised query, and
 * three handlers move the search box between typing, searching and picking.
 */
module QuickSearch {
  import opened Wrappers
  import opened Text
  import Seqs
  import opened Catalog

  const MaxResults := 5

  /** `filteredProducts`: nothing for a blank query, else the first five matches in catalog order. */
  function Results(catalog: seq<Product>, query: string, normalize: string -> string): (r: seq<Product>)
    ensures |r| <= MaxResults
    ensures Trim(query) == [] ==> r == []
    ensures forall i :: 0 <= i < |r| ==> MatchesQuery(normalize, normalize(query), r[i])
  {
    if Trim(query) == [] then []
    else
      var matches := Seqs.Filter(catalog, Matches(normalize, normalize(query)));
      matches[..if |matches| < MaxResults then |matches| else MaxResults]
  }

  /**
   * With a query that is not blank, the results are the first matches: a
   * prefix of all matches in catalog order, as long as there are matches up
   * to five; every result is a catalog product, in catalog order.
   */
  lemma ResultsAreFirstMatches(catalog: seq<Product>, query: string, normalize: string -> string)
    requires Trim(query) != []
    ensures var all := Seqs.Filter(catalog, Matches(normalize, normalize(query)));
      var r := Results(catalog, query, normalize);
      && r == all[..|r|]
      && (|r| == MaxResults || r == all)
      && (forall i :: 0 <= i < |r| ==> r[i] in catalog)
      && Seqs.IsSubsequence(r, catalog)
  {
    var all := Seqs.Filter(catalog, Matches(normalize, normalize(query)));
    var r := Results(catalog, query, normalize);
    Seqs.FilterMembers(catalog, Matches(normalize, normalize(query)));
    Seqs.FilterIsSubsequence(catalog, Matches(normalize, normalize(query)));
    forall i | 0 <= i < |r| ensures r[i] in catalog {
      assert r[i] == all[i];
    }
    PrefixOfSubsequence(r, all, catalog);
  }

  /** A prefix of a subsequence of `b` is a subsequence of `b`. */
  lemma {:induction false} PrefixOfSubsequence(p: seq<Product>, a: seq<Product>, b: seq<Product>)
    requires Seqs.IsSubsequence(a, b)
    requires |p| <= |a| && p == a[..|p|]
    ensures Seqs.IsSubsequence(p, b)
    decreases |b|
  {
    if p != [] {
      assert b != [];
      if a[0] == b[0] {
        assert p[1..] == a[1..][..|p| - 1];
        PrefixOfSubsequence(p[1..], a[1..], b[1..]);
      } else {
        PrefixOfSubsequence(p, a, b[1..]);
      }
    }
  }

  /** Every matching catalog product is listed while fewer than five products are. */
  lemma FewMatchesAllListed(catalog: seq<Product>, query: string, normalize: string -> string, p: Product)
    requires Trim(query) != [] && p in catalog && MatchesQuery(normalize, normalize(query), p)
    requires |Results(catalog, query, normalize)| < MaxResults
    ensures p in Results(catalog, query, normalize)
  {
    var i :| 0 <= i < |catalog| && catalog[i] == p;
    Seqs.FilterMembers(catalog, Matches(normalize, normalize(query)));
  }

  /** The search box state of the header. */
  class SearchBox {
    var searchQuery: string
    var isDropdownOpen: bool

    constructor ()
      ensures searchQuery == "" && !isDropdownOpen
    {
      searchQuery := "";
      isDropdownOpen := false;
    }

    /** `handleInputChange`: keeps the raw text and opens the dropdown when it is not blank. */
    method HandleInputChange(value: string)
      modifies this
      ensures searchQuery == value
      ensures isDropdownOpen <==> |Trim(value)| > 0
    {
      searchQuery := value;
      isDropdownOpen := |Trim(value)| > 0;
    }

    /**
     * `handleSearch`: with a query that is not blank, returns the trimmed query
     * for the results page and resets the box; otherwise changes nothing.
     */
    method HandleSearch() returns (destination: Option<string>)
      modifies this
      ensures Trim(old(searchQuery)) != [] ==>
        destination == Some(Trim(old(searchQuery))) && searchQuery == "" && !isDropdownOpen
      ensures Trim(old(searchQuery)) == [] ==>
        destination == None && searchQuery == old(searchQuery) && isDropdownOpen == old(isDropdownOpen)
    {
      if Trim(searchQuery) != [] {
        destination := Some(Trim(searchQuery));
        searchQuery := "";
        isDropdownOpen := false;
      } else {
        destination := None;
      }
    }

    /** The input's focus handler: reopens the dropdown when the query is not blank. */
    method HandleFocus()
      modifies this`isDropdownOpen
      ensures isDropdownOpen <==> old(isDropdownOpen) || Trim(searchQuery) != []
    {
      if Trim(searchQuery) != [] {
        isDropdownOpen := true;
      }
    }

    /** `handleProductClick`: resets the box. */
    method HandleProductClick()
      modifies this
      ensures searchQuery == "" && !isDropdownOpen
    {
      searchQuery := "";
      isDropdownOpen := false;
    }
  }

  /** After a search or a product click the dropdown lists nothing. */
  lemma ClearedBoxShowsNothing(catalog: seq<Product>, normalize: string -> string)
    ensures Results(catalog, "", normalize) == []
  {
    assert Trim("") == [];
  }
}
