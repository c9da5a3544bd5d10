/**
 * The dish list screen: classification of a dish by its name, the pipeline that
 * derives the visible list (search, type filter, keyword groups, per-group sort,
 * concatenation), and the local reconciliation after a load, a delete and a bulk
 * price change per category, plus the price dialog's input handling.
 */
module DishTable {
  import opened Wrappers
  import opened Text
  import opened Seqs
  import opened Http
  import opened Ui
  import opened Catalog
  import opened Forms

  /** The category `getDishType` assigns: exclusive, with SALADE taking precedence. */
  datatype DishType = Salade | Dessert | OtherType

  /** The type filter menu. */
  datatype TypeFilter = AllTypes | SaladesOnly | DessertsOnly | OthersOnly

  /** The sort menu. */
  datatype SortOrder = ByName | ByPrice

  /** `getDishType`: salade if the upper-cased name contains SALADE, else dessert if it contains DESSERT, else other. */
  function GetDishType(name: string): (t: DishType)
    ensures t == Salade <==> HasSalade(name)
    ensures t == Dessert <==> !HasSalade(name) && HasDessert(name)
    ensures t == OtherType <==> IsOtherName(name)
  {
    if HasSalade(name) then Salade else if HasDessert(name) then Dessert else OtherType
  }

  predicate IsSaladeDish(d: Dish) { HasSalade(d.dishName) }

  predicate IsDessertDish(d: Dish) { HasDessert(d.dishName) }

  predicate IsOtherDish(d: Dish) { IsOtherName(d.dishName) }

  // ----- The derivation pipeline -----

  /** Step 1: a non-empty search term keeps the dishes matching its lower-cased form; an empty one keeps all. */
  function SearchStep(ds: seq<Dish>, term: string): seq<Dish> {
    if term == "" then ds else Filter(ds, d => MatchesSearch(d, ToLower(term)))
  }

  /** Which dishes the type filter lets through. */
  predicate Admits(f: TypeFilter, d: Dish) {
    match f
    case AllTypes => true
    case SaladesOnly => IsSaladeDish(d)
    case DessertsOnly => IsDessertDish(d)
    case OthersOnly => IsOtherDish(d)
  }

  /** Step 2: the type filter; "all" leaves the list as it is. */
  function TypeStep(ds: seq<Dish>, f: TypeFilter): seq<Dish> {
    match f
    case AllTypes => ds
    case SaladesOnly => Filter(ds, IsSaladeDish)
    case DessertsOnly => Filter(ds, IsDessertDish)
    case OthersOnly => Filter(ds, IsOtherDish)
  }

  /** Step 3: the three keyword groups. The first two overlap: a name with both keywords is in both. */
  function SaladeGroup(ds: seq<Dish>): seq<Dish> { Filter(ds, IsSaladeDish) }

  function DessertGroup(ds: seq<Dish>): seq<Dish> { Filter(ds, IsDessertDish) }

  function OtherGroup(ds: seq<Dish>): seq<Dish> { Filter(ds, IsOtherDish) }

  /** The unsorted grouping that the load, delete and price handlers write directly. */
  function Grouped(ds: seq<Dish>): seq<Dish> { SaladeGroup(ds) + DessertGroup(ds) + OtherGroup(ds) }

  /** `localeCompare` on names, taken as code-point lexicographic order. */
  predicate NameLe(a: Dish, b: Dish) { LexLe(a.dishName, b.dishName) }

  /** `a.dishPrice - b.dishPrice <= 0`. */
  predicate PriceLe(a: Dish, b: Dish) { a.dishPrice <= b.dishPrice }

  /** The comparator for the chosen sort order, read as "may come first". */
  function DishLe(order: SortOrder): (Dish, Dish) -> bool {
    match order
    case ByName => NameLe
    case ByPrice => PriceLe
  }

  /** Both comparators order every pair of dishes consistently. */
  lemma DishLeTotalPreorder(order: SortOrder)
    ensures TotalPreorder(DishLe(order))
  {
    if order == ByName {
      forall a: Dish, b: Dish
        ensures NameLe(a, b) || NameLe(b, a)
      {
        LexLeTotal(a.dishName, b.dishName);
      }
      forall a: Dish, b: Dish, c: Dish | NameLe(a, b) && NameLe(b, c)
        ensures NameLe(a, c)
      {
        LexLeTransitive(a.dishName, b.dishName, c.dishName);
      }
    }
  }

  /** Step 4: `sortDishes` on one group. */
  function SortDishes(ds: seq<Dish>, order: SortOrder): seq<Dish> { Sort(ds, DishLe(order)) }

  /** Steps 1 and 2. */
  function Selected(dishes: seq<Dish>, term: string, f: TypeFilter): seq<Dish> {
    TypeStep(SearchStep(dishes, term), f)
  }

  /** The whole derivation effect: the three groups of the selected dishes, each sorted, concatenated. */
  function DeriveView(dishes: seq<Dish>, term: string, f: TypeFilter, order: SortOrder): seq<Dish> {
    var r := Selected(dishes, term, f);
    SortDishes(SaladeGroup(r), order) + SortDishes(DessertGroup(r), order) + SortDishes(OtherGroup(r), order)
  }

  /** The search step keeps exactly the matching dishes (all of them for an empty term), as often as they occur. */
  lemma SearchStepSpec(ds: seq<Dish>, term: string, d: Dish)
    ensures d in SearchStep(ds, term) <==> d in ds && (term == "" || MatchesSearch(d, ToLower(term)))
    ensures multiset(SearchStep(ds, term))[d]
         == if term == "" || MatchesSearch(d, ToLower(term)) then multiset(ds)[d] else 0
  {
    if term != "" {
      FilterMembership(ds, d => MatchesSearch(d, ToLower(term)), d);
      FilterCounts(ds, d => MatchesSearch(d, ToLower(term)), d);
    }
  }

  /** The type step keeps exactly the dishes the filter admits, as often as they occur. */
  lemma TypeStepSpec(ds: seq<Dish>, f: TypeFilter, d: Dish)
    ensures d in TypeStep(ds, f) <==> d in ds && Admits(f, d)
    ensures multiset(TypeStep(ds, f))[d] == if Admits(f, d) then multiset(ds)[d] else 0
  {
    match f
    case AllTypes =>
    case SaladesOnly =>
      FilterMembership(ds, IsSaladeDish, d);
      FilterCounts(ds, IsSaladeDish, d);
    case DessertsOnly =>
      FilterMembership(ds, IsDessertDish, d);
      FilterCounts(ds, IsDessertDish, d);
    case OthersOnly =>
      FilterMembership(ds, IsOtherDish, d);
      FilterCounts(ds, IsOtherDish, d);
  }

  /** How many times a selected dish occurs after grouping: twice when its name has both keywords, once otherwise. */
  function Copies(d: Dish): nat { if IsSaladeDish(d) && IsDessertDish(d) then 2 else 1 }

  /**
   * The view is three consecutive blocks: the salade group, the dessert group and
   * the rest, each a sorted permutation of its group, so nothing is ordered across blocks.
   */
  lemma DeriveViewBlocks(dishes: seq<Dish>, term: string, f: TypeFilter, order: SortOrder)
    ensures var r := Selected(dishes, term, f);
            var view := DeriveView(dishes, term, f, order);
            var a := |SaladeGroup(r)|;
            var b := |DessertGroup(r)|;
            && |view| == a + b + |OtherGroup(r)|
            && Sorted(view[..a], DishLe(order)) && multiset(view[..a]) == multiset(SaladeGroup(r))
            && Sorted(view[a..a + b], DishLe(order)) && multiset(view[a..a + b]) == multiset(DessertGroup(r))
            && Sorted(view[a + b..], DishLe(order)) && multiset(view[a + b..]) == multiset(OtherGroup(r))
            && (forall i | 0 <= i < a :: IsSaladeDish(view[i]))
            && (forall i | a <= i < a + b :: IsDessertDish(view[i]))
            && (forall i | a + b <= i < |view| :: IsOtherDish(view[i]))
  {
    var r := Selected(dishes, term, f);
    DishLeTotalPreorder(order);
    FilterSatisfies(r, IsSaladeDish);
    FilterSatisfies(r, IsDessertDish);
    FilterSatisfies(r, IsOtherDish);
    SortedBlocks(SaladeGroup(r), DessertGroup(r), OtherGroup(r), DishLe(order), IsSaladeDish, IsDessertDish, IsOtherDish);
  }

  /** Grouping counts a dish once per group it belongs to. */
  lemma GroupsCount(r: seq<Dish>, d: Dish)
    ensures multiset(SaladeGroup(r))[d] + multiset(DessertGroup(r))[d] + multiset(OtherGroup(r))[d]
         == multiset(r)[d] * Copies(d)
  {
    FilterCounts(r, IsSaladeDish, d);
    FilterCounts(r, IsDessertDish, d);
    FilterCounts(r, IsOtherDish, d);
  }

  /**
   * Every dish of the list that passes the search and the type filter is in the view,
   * once for each keyword group it falls in, and nothing else is.
   */
  lemma DeriveViewCounts(dishes: seq<Dish>, term: string, f: TypeFilter, order: SortOrder, d: Dish)
    ensures multiset(DeriveView(dishes, term, f, order))[d]
         == if (term == "" || MatchesSearch(d, ToLower(term))) && Admits(f, d) then multiset(dishes)[d] * Copies(d) else 0
  {
    SelectedCount(dishes, term, f, d);
    SortedGroupsCount(Selected(dishes, term, f), order, d);
  }

  /** Search and type filter keep a dish as often as it occurs when it passes both, and drop it otherwise. */
  lemma SelectedCount(dishes: seq<Dish>, term: string, f: TypeFilter, d: Dish)
    ensures multiset(Selected(dishes, term, f))[d]
         == if (term == "" || MatchesSearch(d, ToLower(term))) && Admits(f, d) then multiset(dishes)[d] else 0
  {
    SearchStepSpec(dishes, term, d);
    TypeStepSpec(SearchStep(dishes, term), f, d);
  }

  /** Sorting the groups keeps the counts of the grouping. */
  lemma SortedGroupsCount(r: seq<Dish>, order: SortOrder, d: Dish)
    ensures multiset(SortDishes(SaladeGroup(r), order) + SortDishes(DessertGroup(r), order) + SortDishes(OtherGroup(r), order))[d]
         == multiset(r)[d] * Copies(d)
  {
    GroupsCount(r, d);
  }

  /** The unsorted grouping keeps the same counts. */
  lemma GroupedCounts(ds: seq<Dish>, d: Dish)
    ensures multiset(Grouped(ds))[d] == multiset(ds)[d] * Copies(d)
  {
    GroupsCount(ds, d);
  }

  /** The exclusive type and the overlapping groups agree except on names with both keywords. */
  lemma DishTypeAndGroups(d: Dish)
    ensures GetDishType(d.dishName) == Salade <==> IsSaladeDish(d)
    ensures GetDishType(d.dishName) == OtherType <==> IsOtherDish(d)
    ensures GetDishType(d.dishName) == Dessert ==> IsDessertDish(d)
    ensures IsDessertDish(d) && GetDishType(d.dishName) != Dessert ==> IsSaladeDish(d)
  {
  }

  /** With one dish per group, listed salade first, then dessert, then other, the view keeps them as they are, whatever the order. */
  lemma {:induction false} OnePerGroup(a: Dish, b: Dish, c: Dish, order: SortOrder)
    requires IsSaladeDish(a) && !IsDessertDish(a)
    requires IsDessertDish(b) && !IsSaladeDish(b)
    requires IsOtherDish(c)
    ensures DeriveView([a, b, c], "", AllTypes, order) == [a, b, c]
  {
    var ds := [a, b, c];
    FilterThree(a, b, c, IsSaladeDish);
    FilterThree(a, b, c, IsDessertDish);
    FilterThree(a, b, c, IsOtherDish);
    SortSingleton(a, order);
    SortSingleton(b, order);
    SortSingleton(c, order);
  }

  lemma SortSingleton(d: Dish, order: SortOrder)
    ensures SortDishes([d], order) == [d]
  {
    assert [d][..0] == [];
  }

  /**
   * The price order holds only inside a group: a salade listed before a cheaper dessert
   * stays before it when sorting by price, so the view is not ordered by price.
   */
  lemma NotSortedByPrice(v: seq<Dish>, a: Dish, b: Dish, c: Dish)
    requires v == [a, b, c] && b.dishPrice < a.dishPrice
    ensures !Sorted(v, PriceLe)
  {
    assert !PriceLe(v[0], v[1]);
  }

  lemma PriceSortIsPerGroup(a: Dish, b: Dish, c: Dish)
    requires IsSaladeDish(a) && !IsDessertDish(a)
    requires IsDessertDish(b) && !IsSaladeDish(b)
    requires IsOtherDish(c)
    requires b.dishPrice < a.dishPrice
    ensures !Sorted(DeriveView([a, b, c], "", AllTypes, ByPrice), PriceLe)
  {
    OnePerGroup(a, b, c, ByPrice);
    NotSortedByPrice(DeriveView([a, b, c], "", AllTypes, ByPrice), a, b, c);
  }

  // ----- The bulk price change -----

  /** `getDishType(name) === category`, as a test on names. */
  function OfType(category: DishType): string -> bool {
    name => GetDishType(name) == category
  }

  /** Two different categories share no name. */
  lemma OfTypeDisjoint(c1: DishType, c2: DishType, name: string)
    requires c1 != c2
    ensures !(OfType(c1)(name) && OfType(c2)(name))
  {
  }

  /**
   * The local list after a successful bulk change: the dishes whose name passes `kind`
   * get price `p`, the others stay as they are. (The screen uses `OfType(category)`.)
   */
  function Reprice(ds: seq<Dish>, kind: string -> bool, p: real): (r: seq<Dish>)
    ensures |r| == |ds|
    decreases |ds|
  {
    if ds == [] then []
    else [if kind(ds[0].dishName) then ds[0].(dishPrice := p) else ds[0]] + Reprice(ds[1..], kind, p)
  }

  /** Exactly the dishes of the category get the new price; ids, names and descriptions never change. */
  lemma {:induction false} RepriceSpec(ds: seq<Dish>, kind: string -> bool, p: real, i: int)
    requires 0 <= i < |ds|
    ensures Reprice(ds, kind, p)[i].(dishPrice := 0.0) == ds[i].(dishPrice := 0.0)
    ensures Reprice(ds, kind, p)[i].dishPrice == if kind(ds[i].dishName) then p else ds[i].dishPrice
    decreases |ds|
  {
    if i > 0 {
      RepriceSpec(ds[1..], kind, p, i - 1);
    }
  }

  /** Re-applying the same change changes nothing more. */
  lemma {:induction false} RepriceIdempotent(ds: seq<Dish>, kind: string -> bool, p: real)
    ensures Reprice(Reprice(ds, kind, p), kind, p) == Reprice(ds, kind, p)
    decreases |ds|
  {
    if ds != [] {
      RepriceIdempotent(ds[1..], kind, p);
    }
  }

  /** The number of dishes whose name passes `kind`. */
  function KindCount(ds: seq<Dish>, kind: string -> bool): nat
    decreases |ds|
  {
    if ds == [] then 0 else (if kind(ds[0].dishName) then 1 else 0) + KindCount(ds[1..], kind)
  }

  /** The sum of their prices. */
  function KindSum(ds: seq<Dish>, kind: string -> bool): real
    decreases |ds|
  {
    if ds == [] then 0.0 else (if kind(ds[0].dishName) then ds[0].dishPrice else 0.0) + KindSum(ds[1..], kind)
  }

  /** The mean price of those dishes, 0 when there are none (exact, without rounding). */
  function KindAverage(ds: seq<Dish>, kind: string -> bool): (avg: real)
    ensures KindCount(ds, kind) == 0 ==> avg == 0.0
    ensures KindCount(ds, kind) > 0 ==> avg * KindCount(ds, kind) as real == KindSum(ds, kind)
  {
    var n := KindCount(ds, kind);
    if n == 0 then 0.0 else KindSum(ds, kind) / n as real
  }

  /** `getAveragePriceByCategory`. */
  function CategoryAverage(ds: seq<Dish>, category: DishType): real {
    KindAverage(ds, OfType(category))
  }

  /** Repricing keeps every name, so no dish changes category. */
  lemma {:induction false} RepriceCount(ds: seq<Dish>, kind: string -> bool, p: real, other: string -> bool)
    ensures KindCount(Reprice(ds, kind, p), other) == KindCount(ds, other)
    decreases |ds|
  {
    if ds != [] {
      var r := Reprice(ds, kind, p);
      assert r[1..] == Reprice(ds[1..], kind, p);
      RepriceCount(ds[1..], kind, p, other);
    }
  }

  /** The repriced dishes sum to their number times the new price. */
  lemma {:induction false} RepriceSumSame(ds: seq<Dish>, kind: string -> bool, p: real)
    ensures KindSum(Reprice(ds, kind, p), kind) == KindCount(ds, kind) as real * p
    decreases |ds|
  {
    if ds != [] {
      var r := Reprice(ds, kind, p);
      assert r[1..] == Reprice(ds[1..], kind, p);
      RepriceSumSame(ds[1..], kind, p);
    }
  }

  /** A disjoint category keeps its sum. */
  lemma {:induction false} RepriceSumOther(ds: seq<Dish>, kind: string -> bool, p: real, other: string -> bool)
    requires forall name :: !(kind(name) && other(name))
    ensures KindSum(Reprice(ds, kind, p), other) == KindSum(ds, other)
    decreases |ds|
  {
    if ds != [] {
      var r := Reprice(ds, kind, p);
      assert r[1..] == Reprice(ds[1..], kind, p);
      RepriceSumOther(ds[1..], kind, p, other);
    }
  }

  /** After a change the category's average, which its price dialog shows next, is the new price. */
  lemma RepriceAverageSame(ds: seq<Dish>, category: DishType, p: real)
    requires KindCount(ds, OfType(category)) > 0
    ensures CategoryAverage(Reprice(ds, OfType(category), p), category) == p
  {
    RepriceAverage(ds, OfType(category), p);
  }

  /** The same for any test on names: after repricing, the mean of the repriced dishes is the new price. */
  lemma RepriceAverage(ds: seq<Dish>, kind: string -> bool, p: real)
    requires KindCount(ds, kind) > 0
    ensures KindAverage(Reprice(ds, kind, p), kind) == p
  {
    var r := Reprice(ds, kind, p);
    RepriceCount(ds, kind, p, kind);
    RepriceSumSame(ds, kind, p);
    var n := KindCount(r, kind) as real;
    MeanOfEqual(KindAverage(r, kind), n, p);
  }

  /** A mean `m` of `n > 0` values each equal to `p` is `p`. */
  lemma MeanOfEqual(m: real, n: real, p: real)
    requires n > 0.0 && m * n == n * p
    ensures m == p
  {
    assert (m - p) * n == 0.0;
  }

  /** The other two categories' averages are unchanged. */
  lemma RepriceAverageOther(ds: seq<Dish>, category: DishType, p: real, other: DishType)
    requires other != category
    ensures CategoryAverage(Reprice(ds, OfType(category), p), other) == CategoryAverage(ds, other)
  {
    var kind, okind := OfType(category), OfType(other);
    RepriceCount(ds, kind, p, okind);
    forall name
      ensures !(kind(name) && okind(name))
    {
      OfTypeDisjoint(category, other, name);
    }
    RepriceSumOther(ds, kind, p, okind);
  }

  // ----- Delete -----

  /** The list after a confirmed delete: every dish with another id, in the same order. */
  function Without(ds: seq<Dish>, id: int): seq<Dish> { Filter(ds, (d: Dish) => d.dishId != id) }

  /** No dish with the deleted id remains; every other dish stays, as often as before. */
  lemma WithoutSpec(ds: seq<Dish>, id: int, d: Dish)
    ensures d in Without(ds, id) <==> d in ds && d.dishId != id
    ensures multiset(Without(ds, id))[d] == if d.dishId == id then 0 else multiset(ds)[d]
  {
    FilterMembership(ds, (d: Dish) => d.dishId != id, d);
    FilterCounts(ds, (d: Dish) => d.dishId != id, d);
  }

  /** Deleting never lets the deleted id reach the next derived view, whatever the search, filter and order. */
  lemma DeletedNotInView(ds: seq<Dish>, id: int, term: string, f: TypeFilter, order: SortOrder)
    ensures forall d | d in DeriveView(Without(ds, id), term, f, order) :: d.dishId != id
  {
    forall d | d in DeriveView(Without(ds, id), term, f, order)
      ensures d.dishId != id
    {
      DeriveViewCounts(Without(ds, id), term, f, order, d);
      WithoutSpec(ds, id, d);
    }
  }

  /** The ids a bulk change sends a PATCH for: the dishes whose name passes `kind`, in list order. */
  function Targets(ds: seq<Dish>, kind: string -> bool): (ids: seq<int>)
    ensures |ids| == KindCount(ds, kind)
    decreases |ds|
  {
    if ds == [] then []
    else (if kind(ds[0].dishName) then [ds[0].dishId] else []) + Targets(ds[1..], kind)
  }

  /** A PATCH goes out for an id exactly when some dish of the category has it. */
  lemma {:induction false} TargetsSpec(ds: seq<Dish>, kind: string -> bool, id: int)
    ensures id in Targets(ds, kind) <==> exists d | d in ds :: d.dishId == id && kind(d.dishName)
    decreases |ds|
  {
    if ds != [] {
      TargetsSpec(ds[1..], kind, id);
      assert ds == [ds[0]] + ds[1..];
    }
  }

  /** The confirmation text of a bulk change. */
  function PriceUpdatedMessage(category: DishType): string {
    "Prix des " + (match category case Salade => "salades" case Dessert => "desserts" case OtherType => "autres plats")
      + " mis à jour avec succès !"
  }

  /**
   * `fetchDishes`: the array under `$values`, or the error it throws when there is none.
   * Reading `$values` of a `null` body throws a `TypeError` before the format test.
   */
  function FetchDishes(body: Json<Dish>): (r: Outcome<seq<Dish>>)
    ensures r.Done? ==> body.Object? && exists i | 0 <= i < |body.props| :: body.props[i] == ("$values", Items(r.value))
    ensures body.Null? ==> r == Failed(PlainError(NullReadMessage("$values")))
    ensures r.Failed? && !body.Null? ==> r.failure == PlainError(InvalidFormat)
    ensures body.Object? && (exists i | 0 <= i < |body.props| :: body.props[i].0 == "$values"
                                && forall j | 0 <= j < i :: body.props[j].0 != "$values")
            ==> (r.Done? <==> Property(body.props, "$values").value.Items?)
  {
    if body.Null? then Failed(PlainError(NullReadMessage("$values")))
    else if body.Object? && Property(body.props, "$values").Some? && Property(body.props, "$values").value.Items?
    then Done(Property(body.props, "$values").value.items)
    else Failed(PlainError(InvalidFormat))
  }

  /** `Promise.all` resolved: every request succeeded. */
  predicate AllSucceeded(outcomes: seq<bool>) { forall k | 0 <= k < |outcomes| :: outcomes[k] }

  const InvalidFormat := "Format de réponse invalide : attendu un tableau sous $values."

  /** The open state of the three price dialogs. */
  datatype DialogFlags = DialogFlags(salade: bool, dessert: bool, other: bool)

  /** The flags after opening the dialog of `category`. */
  function Opened(f: DialogFlags, category: DishType): DialogFlags {
    match category
    case Salade => f.(salade := true)
    case Dessert => f.(dessert := true)
    case OtherType => f.(other := true)
  }

  /** The flags after closing the dialog of `category`. */
  function Closed(f: DialogFlags, category: DishType): DialogFlags {
    match category
    case Salade => f.(salade := false)
    case Dessert => f.(dessert := false)
    case OtherType => f.(other := false)
  }

  /** The dish list screen's state. */
  class DishTableScreen {
    var dishes: seq<Dish>
    var filteredDishes: seq<Dish>
    var loading: bool
    var error: Option<string>
    var deleteDialogOpen: bool
    var dishToDelete: Option<Dish>
    var snackbar: Snackbar
    var searchTerm: string
    var sortOrder: SortOrder
    var filterType: TypeFilter
    var saladePriceDialogOpen: bool
    var dessertPriceDialogOpen: bool
    var otherPriceDialogOpen: bool
    var updatingPrices: bool

    constructor()
      ensures dishes == [] && filteredDishes == [] && loading && error.None?
      ensures !deleteDialogOpen && dishToDelete.None? && snackbar == Hidden
      ensures searchTerm == "" && sortOrder == ByName && filterType == AllTypes
      ensures !saladePriceDialogOpen && !dessertPriceDialogOpen && !otherPriceDialogOpen && !updatingPrices
    {
      dishes, filteredDishes, loading, error := [], [], true, None;
      deleteDialogOpen, dishToDelete, snackbar := false, None, Hidden;
      searchTerm, sortOrder, filterType := "", ByName, AllTypes;
      saladePriceDialogOpen, dessertPriceDialogOpen, otherPriceDialogOpen, updatingPrices := false, false, false, false;
    }

    /** The derivation effect, run whenever the list, the search term, the sort order or the type filter changes. */
    method RecomputeView()
      modifies this`filteredDishes
      ensures filteredDishes == DeriveView(dishes, searchTerm, filterType, sortOrder)
    {
      var r := TypeStep(SearchStep(dishes, searchTerm), filterType);
      var salades := SortDishes(SaladeGroup(r), sortOrder);
      var desserts := SortDishes(DessertGroup(r), sortOrder);
      var autres := SortDishes(OtherGroup(r), sortOrder);
      filteredDishes := salades + desserts + autres;
    }

    /**
     * `loadDishes`, given how the GET ended: a well-formed list replaces the dishes and
     * the view becomes its unsorted grouping; any failure keeps both and sets the error.
     */
    method LoadDishes(response: Outcome<Json<Dish>>)
      modifies this`loading, this`dishes, this`filteredDishes, this`error
      ensures !loading
      ensures response.Done? && FetchDishes(response.value).Done? ==>
                dishes == FetchDishes(response.value).value && filteredDishes == Grouped(dishes) && error.None?
      ensures response.Failed? ==>
                dishes == old(dishes) && filteredDishes == old(filteredDishes)
                && error == Some("Erreur: " + MessageText(response.failure))
      ensures response.Done? && response.value.Null? ==>
                && dishes == old(dishes) && filteredDishes == old(filteredDishes)
                && error == Some("Erreur: " + NullReadMessage("$values"))
      ensures response.Done? && !response.value.Null? && FetchDishes(response.value).Failed? ==>
                dishes == old(dishes) && filteredDishes == old(filteredDishes) && error == Some("Erreur: " + InvalidFormat)
    {
      loading := true;
      var fetched := if response.Done? then FetchDishes(response.value) else Failed(response.failure);
      if fetched.Done? {
        var data := fetched.value;
        dishes := data;
        filteredDishes := SaladeGroup(data) + DessertGroup(data) + OtherGroup(data);
        error := None;
      } else {
        error := Some("Erreur: " + MessageText(fetched.failure));
      }
      loading := false;
    }

    /** `handleDeleteClick`: remember the dish and open the confirmation. */
    method HandleDeleteClick(d: Dish)
      modifies this`dishToDelete, this`deleteDialogOpen
      ensures dishToDelete == Some(d) && deleteDialogOpen
    {
      dishToDelete := Some(d);
      deleteDialogOpen := true;
    }

    /** `handleDeleteSuccess`: drop the dish locally (no refetch), regroup, confirm, close the dialog. */
    method HandleDeleteSuccess(deletedId: int)
      modifies this`dishes, this`filteredDishes, this`snackbar, this`deleteDialogOpen, this`dishToDelete
      ensures dishes == Without(old(dishes), deletedId)
      ensures filteredDishes == Grouped(dishes)
      ensures snackbar == Snackbar(true, "Le plat \"" + (if old(dishToDelete).Some? then old(dishToDelete).value.dishName else "undefined")
                                     + "\" a été supprimé avec succès.", Success)
      ensures !deleteDialogOpen && dishToDelete.None?
    {
      var updated := Without(dishes, deletedId);
      dishes := updated;
      filteredDishes := SaladeGroup(updated) + DessertGroup(updated) + OtherGroup(updated);
      var name := if dishToDelete.Some? then dishToDelete.value.dishName else "undefined";
      snackbar := Snackbar(true, "Le plat \"" + name + "\" a été supprimé avec succès.", Success);
      deleteDialogOpen := false;
      dishToDelete := None;
    }

    /** The three "change the price of a category" buttons, disabled while a bulk change runs. */
    method OpenPriceDialog(category: DishType)
      modifies this`saladePriceDialogOpen, this`dessertPriceDialogOpen, this`otherPriceDialogOpen
      ensures updatingPrices ==> unchanged(this)
      ensures !updatingPrices ==> PriceDialogs() == Opened(old(PriceDialogs()), category)
    {
      if !updatingPrices {
        match category
        case Salade => saladePriceDialogOpen := true;
        case Dessert => dessertPriceDialogOpen := true;
        case OtherType => otherPriceDialogOpen := true;
      }
    }

    /** Which of the three price dialogs are open. */
    function PriceDialogs(): DialogFlags
      reads this
    {
      DialogFlags(saladePriceDialogOpen, dessertPriceDialogOpen, otherPriceDialogOpen)
    }

    /** `getAveragePriceByCategory` on the current list. */
    function AveragePrice(category: DishType): (avg: real)
      reads this
      ensures KindCount(dishes, OfType(category)) == 0 ==> avg == 0.0
      ensures KindCount(dishes, OfType(category)) > 0 ==>
                avg * KindCount(dishes, OfType(category)) as real == KindSum(dishes, OfType(category))
    {
      CategoryAverage(dishes, category)
    }

    /**
     * `updatePricesByCategory` up to its `await`, given `newPrice.toString()`: the buttons
     * are disabled and one PATCH goes out per dish of the category, in list order; their
     * ids are returned with the body every one of them carries, the price text alone.
     */
    method BeginPriceUpdate(category: DishType, priceText: string) returns (patched: seq<int>, body: FormData)
      modifies this`updatingPrices
      ensures updatingPrices
      ensures patched == Targets(dishes, OfType(category))
      ensures body == [("dishPrice", Value(priceText))]
      ensures Lookup(body, "dishPrice") == Some(Value(priceText))
    {
      updatingPrices := true;
      patched := Targets(dishes, OfType(category));
      body := [];
      body := body + [("dishPrice", Value(priceText))];
    }

    /**
     * The rest of `updatePricesByCategory`, once `Promise.all` has settled: `outcomes[k]`
     * tells whether the k-th PATCH succeeded. Only when all did is the local list
     * repriced and regrouped (no refetch, no sort) and the category's dialog closed.
     */
    method FinishPriceUpdate(category: DishType, newPrice: real, patched: seq<int>, outcomes: seq<bool>)
      requires |outcomes| == |patched|
      modifies this`updatingPrices, this`dishes, this`filteredDishes, this`snackbar,
               this`saladePriceDialogOpen, this`dessertPriceDialogOpen, this`otherPriceDialogOpen
      ensures !updatingPrices
      ensures AllSucceeded(outcomes) ==>
                && dishes == Reprice(old(dishes), OfType(category), newPrice)
                && filteredDishes == Grouped(dishes)
                && snackbar == Snackbar(true, PriceUpdatedMessage(category), Success)
                && PriceDialogs() == Closed(old(PriceDialogs()), category)
      ensures !AllSucceeded(outcomes) ==>
                && dishes == old(dishes) && filteredDishes == old(filteredDishes)
                && snackbar == Snackbar(true, "Erreur lors de la mise à jour des prix.", Error)
                && PriceDialogs() == old(PriceDialogs())
    {
      if AllSucceeded(outcomes) {
        CloseDialog(category);
        snackbar := Snackbar(true, PriceUpdatedMessage(category), Success);
        var updated := Reprice(dishes, OfType(category), newPrice);
        dishes := updated;
        filteredDishes := SaladeGroup(updated) + DessertGroup(updated) + OtherGroup(updated);
      } else {
        snackbar := Snackbar(true, "Erreur lors de la mise à jour des prix.", Error);
      }
      updatingPrices := false;
    }

    /** Closes the price dialog of one category. */
    method CloseDialog(category: DishType)
      modifies this`saladePriceDialogOpen, this`dessertPriceDialogOpen, this`otherPriceDialogOpen
      ensures PriceDialogs() == Closed(old(PriceDialogs()), category)
    {
      match category
      case Salade => saladePriceDialogOpen := false;
      case Dessert => dessertPriceDialogOpen := false;
      case OtherType => otherPriceDialogOpen := false;
    }
  }

  /** The price dialog of a category: its text field and its error line. */
  class PriceUpdateDialog {
    var price: string
    var error: string

    /**
     * Initial state. `rendered` is `currentPrice.toString()`, supplied by the caller
     * (number formatting is not modelled); a zero price gives an empty field.
     */
    constructor(currentPrice: real, rendered: string)
      ensures price == (if currentPrice != 0.0 then ReplaceFirst(rendered, '.', ',') else "")
      ensures error == ""
    {
      price := if currentPrice != 0.0 then ReplaceFirst(rendered, '.', ',') else "";
      error := "";
    }

    /** The open effect: an open dialog with a non-zero price shows it with a decimal comma; otherwise the field is emptied. */
    method OnOpenChange(open: bool, currentPrice: real, rendered: string)
      modifies this
      ensures price == (if open && currentPrice != 0.0 then ReplaceFirst(rendered, '.', ',') else "")
      ensures error == ""
    {
      if open && currentPrice != 0.0 {
        price := ReplaceFirst(rendered, '.', ',');
      } else {
        price := "";
      }
      error := "";
    }

    /** `handlePriceChange`: only the digits and commas of the typed text are kept. */
    method HandlePriceChange(value: string)
      modifies this`price
      ensures price == KeepPriceChars(value)
      ensures forall i | 0 <= i < |price| :: IsPriceChar(price[i])
    {
      price := KeepPriceChars(value);
    }

    /**
     * `handleSubmit`. `parsed` is `parseFloat` of the text with its first comma made a dot
     * (`None` for NaN), supplied by the caller. The price is passed on only when the
     * field is non-empty and the number is positive; otherwise an error is shown.
     */
    method HandleSubmit(parsed: Option<real>) returns (submitted: Option<real>)
      modifies this`error
      ensures price == "" ==> submitted.None? && error == "Veuillez entrer un prix valide"
      ensures price != "" && (parsed.None? || parsed.value <= 0.0) ==>
                submitted.None? && error == "Le prix doit être un nombre positif"
      ensures price != "" && parsed.Some? && parsed.value > 0.0 ==> submitted == parsed && error == old(error)
    {
      if price == "" {
        error := "Veuillez entrer un prix valide";
        return None;
      }
      if parsed.None? || parsed.value <= 0.0 {
        error := "Le prix doit être un nombre positif";
        return None;
      }
      submitted := parsed;
    }
  }
}
