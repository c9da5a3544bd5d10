/** The dish record the dish and menu screens share, and the name keywords that classify it. */
module Catalog {
  import opened Wrappers
  import opened Text

  /**
   * A dish as the API returns it. Prices are JavaScript numbers, modelled as exact
   * reals; the rating, photo and relation arrays play no part in the bookkeeping.
   */
  datatype Dish = Dish(dishId: int, dishName: string, dishDescription: Option<string>, dishPrice: real)

  /** The upper-cased name contains "SALADE". */
  predicate HasSalade(name: string) { Contains(ToUpper(name), "SALADE") }

  /** The upper-cased name contains "DESSERT". */
  predicate HasDessert(name: string) { Contains(ToUpper(name), "DESSERT") }

  /** Neither keyword occurs in the name. */
  predicate IsOtherName(name: string) { !HasSalade(name) && !HasDessert(name) }

  /**
   * The search test of the dish lists, for an already lower-cased, non-empty term:
   * the lower-cased name contains it, or the description is present and does.
   * (An empty description contains no non-empty term, so it adds nothing.)
   */
  predicate MatchesSearch(d: Dish, term: string) {
    || Contains(ToLower(d.dishName), term)
    || (d.dishDescription.Some? && d.dishDescription.value != "" && Contains(ToLower(d.dishDescription.value), term))
  }
}
