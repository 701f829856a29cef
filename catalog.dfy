/**
 * Catalog products as the listing pages and the header search see them, and
 * the text match both searches use.  `normalizeString` (Unicode NFD, combining
 * marks removed, lower case) is a parameter: the model does not implement
 * Unicode decomposition.
 */
module Catalog {
  import opened Text

  /** A catalog entry; `price` is the display string, e.g. "$189.000". */
  datatype Product = Product(slug: string, name: string, category: string, price: string)

  /**
   * The search predicate of both the header and the category page: the
   * normalised name or the normalised slug contains the normalised query.
   */
  predicate MatchesQuery(normalize: string -> string, normalizedQuery: string, p: Product) {
    Contains(normalize(p.name), normalizedQuery) || Contains(normalize(p.slug), normalizedQuery)
  }

  /** The same test as the predicate handed to `filter`. */
  function Matches(normalize: string -> string, normalizedQuery: string): Product -> bool {
    p => MatchesQuery(normalize, normalizedQuery, p)
  }
}
