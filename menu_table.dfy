/**
 * The menu list screen: reading the menus out of the API body and filling in the
 * missing fields, the search-and-sort effect, expanding a row, deleting a menu,
 * and the message shown when the fetch fails.
 */
module MenuTable {
  import opened Wrappers
  import opened Text
  import opened Seqs
  import opened Http
  import opened Ui

  /** A dish line of a menu as the API sends it: any field may be missing. */
  datatype RawDish = RawDish(dishName: Option<string>, dishQuantity: Option<int>, dishId: Option<int>)

  /**
   * A menu as the API sends it. `dishes` is `None` when the `dishes` object or its
   * `$values` array is missing.
   */
  datatype RawMenu = RawMenu(menuId: int, menuDescription: Option<string>, isMenuOfTheDay: Option<bool>,
                             dishes: Option<seq<RawDish>>)

  /** A dish line of a menu once normalised. */
  datatype MenuDish = MenuDish(dishName: string, dishQuantity: int, dishId: Option<int>)

  /** A menu row of the screen. */
  datatype Menu = Menu(menuId: int, menuDescription: string, isMenuOfTheDay: bool, dishes: seq<MenuDish>, expanded: bool)

  const NoDishName := "Nom non disponible"

  /** `s || d` on an optional string: the empty string is falsy. */
  function StringOr(s: Option<string>, d: string): string {
    if s.Some? && s.value != "" then s.value else d
  }

  /** `q || 0` on an optional number: zero is falsy. */
  function QuantityOrZero(q: Option<int>): int {
    if q.Some? then q.value else 0
  }

  /** The label a menu without a description gets. */
  function DefaultDescription(menuId: int): string { "Menu " + IntToString(menuId) }

  /** One dish line, with its name and quantity filled in. */
  function NormaliseDish(d: RawDish): (r: MenuDish)
    ensures r.dishName != ""
    ensures r.dishName == NoDishName <==> d.dishName.None? || d.dishName.value in {"", NoDishName}
    ensures r.dishQuantity == if d.dishQuantity.Some? then d.dishQuantity.value else 0
    ensures r.dishId == d.dishId
  {
    MenuDish(StringOr(d.dishName, NoDishName), QuantityOrZero(d.dishQuantity), d.dishId)
  }

  /** One menu, with every missing field filled in and the row collapsed. */
  function NormaliseMenu(m: RawMenu): (r: Menu)
    ensures r.menuId == m.menuId && !r.expanded
    ensures r.menuDescription != ""
    ensures m.menuDescription.Some? && m.menuDescription.value != "" ==> r.menuDescription == m.menuDescription.value
    ensures m.menuDescription.None? || m.menuDescription.value == "" ==> r.menuDescription == DefaultDescription(m.menuId)
    ensures r.isMenuOfTheDay <==> m.isMenuOfTheDay == Some(true)
    ensures m.dishes.None? ==> r.dishes == []
    ensures m.dishes.Some? ==> |r.dishes| == |m.dishes.value|
                               && forall i | 0 <= i < |r.dishes| :: r.dishes[i] == NormaliseDish(m.dishes.value[i])
  {
    var dishes := if m.dishes.Some? then seq(|m.dishes.value|, i requires 0 <= i < |m.dishes.value| => NormaliseDish(m.dishes.value[i])) else [];
    Menu(m.menuId, StringOr(m.menuDescription, DefaultDescription(m.menuId)), m.isMenuOfTheDay == Some(true), dishes, false)
  }

  function NormaliseAll(ms: seq<RawMenu>): (r: seq<Menu>)
    ensures |r| == |ms|
    ensures forall i | 0 <= i < |ms| :: r[i] == NormaliseMenu(ms[i])
  {
    seq(|ms|, i requires 0 <= i < |ms| => NormaliseMenu(ms[i]))
  }

  /** What the API would send for a row it had itself produced. */
  function Raw(m: Menu): RawMenu {
    RawMenu(m.menuId, Some(m.menuDescription), Some(m.isMenuOfTheDay),
            Some(seq(|m.dishes|, i requires 0 <= i < |m.dishes| => RawDish(Some(m.dishes[i].dishName), Some(m.dishes[i].dishQuantity), m.dishes[i].dishId))))
  }

  /** A collapsed row with a description and dish names survives being sent and normalised again. */
  lemma NormaliseRaw(m: Menu)
    requires m.menuDescription != "" && !m.expanded
    requires forall i | 0 <= i < |m.dishes| :: m.dishes[i].dishName != ""
    ensures NormaliseMenu(Raw(m)) == m
  {
    var r := NormaliseMenu(Raw(m));
    assert r.dishes == m.dishes;
  }

  /**
   * The menus of the body: the `$values` array of an object that has one, the body
   * itself when it is an array, and no menus otherwise.
   */
  function Extracted(data: Json<RawMenu>): (r: seq<RawMenu>)
    ensures data.Items? ==> r == data.items
    ensures data.Object? && Property(data.props, "$values").Some? && Property(data.props, "$values").value.Items? ==>
              r == Property(data.props, "$values").value.items
    ensures data.Null? || data.Scalar? ==> r == []
  {
    if data.Object? && Property(data.props, "$values").Some? && Property(data.props, "$values").value.Items?
    then Property(data.props, "$values").value.items
    else if data.Items? then data.items
    else []
  }

  /** An object whose `$values` is missing or not an array holds no menus. */
  lemma ExtractedNothing(props: seq<(string, Json<RawMenu>)>)
    requires Property(props, "$values").None? || !Property(props, "$values").value.Items?
    ensures Extracted(Object(props)) == []
  {
  }

  /** Both envelopes of the same menus read back as those menus. */
  lemma ExtractedEnvelopes(ms: seq<RawMenu>, extra: seq<(string, Json<RawMenu>)>)
    ensures Extracted(Items(ms)) == ms
    ensures Extracted(Object([("$values", Items(ms))] + extra)) == ms
  {
    var props := [("$values", Items(ms))] + extra;
    assert props[0] == ("$values", Items(ms));
  }

  const TimeoutMessage := "Le serveur met trop de temps à répondre."
  const UnreachableMessage := "Impossible de se connecter au serveur. Vérifiez que le serveur est en cours d'exécution."
  const UnknownMessage := "Erreur inconnue lors de la récupération des données."

  /** The error line for a failed fetch, by the first class the failure falls in. */
  function FetchErrorMessage(f: Failure): (msg: string)
    ensures f.AxiosError? && f.code == Some("ECONNABORTED") ==> msg == TimeoutMessage
    ensures f.AxiosError? && f.code != Some("ECONNABORTED") && f.message == "Network Error" ==> msg == UnreachableMessage
    ensures f.AxiosError? && f.code != Some("ECONNABORTED") && f.message != "Network Error" && f.response.Some? ==>
              msg == "Erreur " + IntToString(f.response.value.status) + ": " + OrElse(ResponseMessage(f), f.message)
    ensures f.AxiosError? && f.code != Some("ECONNABORTED") && f.message != "Network Error" && f.response.None? ==>
              msg == "Erreur de connexion: " + f.message
    ensures !f.AxiosError? ==> msg == UnknownMessage
  {
    match f
    case AxiosError(code, message, response) =>
      if code == Some("ECONNABORTED") then TimeoutMessage
      else if message == "Network Error" then UnreachableMessage
      else if response.Some? then "Erreur " + IntToString(response.value.status) + ": " + OrElse(ResponseMessage(f), message)
      else "Erreur de connexion: " + message
    case _ => UnknownMessage
  }

  /** A failure that is not a timeout, not a network error and carries a response shows its status code. */
  lemma StatusShown(f: Failure)
    requires f.AxiosError? && f.code != Some("ECONNABORTED") && f.message != "Network Error" && f.response.Some?
    ensures IsPrefix("Erreur " + IntToString(f.response.value.status) + ": ", FetchErrorMessage(f))
  {
  }

  /** The menu's description matches the (not yet lower-cased) search term. */
  predicate DescriptionMatches(m: Menu, term: string) {
    Contains(ToLower(m.menuDescription), ToLower(term))
  }

  /** The search step of the effect: an empty term keeps every menu. */
  function Searched(ms: seq<Menu>, term: string): seq<Menu> {
    if term != "" then Filter(ms, (m: Menu) => DescriptionMatches(m, term)) else ms
  }

  /** The comparator: menus of the day first, then by descending number of dishes. */
  predicate MenuLe(a: Menu, b: Menu) {
    (a.isMenuOfTheDay && !b.isMenuOfTheDay) || (a.isMenuOfTheDay == b.isMenuOfTheDay && |a.dishes| >= |b.dishes|)
  }

  lemma MenuLeTotalPreorder()
    ensures TotalPreorder(MenuLe)
  {
  }

  /** The effect on `menus` and `searchTerm`. */
  function DeriveMenus(ms: seq<Menu>, term: string): seq<Menu> {
    Sort(Searched(ms, term), MenuLe)
  }

  /** A menu is in the view exactly when it is in the list and its description contains the term, as often as in the list. */
  lemma DeriveMenusMembers(ms: seq<Menu>, term: string, m: Menu)
    ensures m in DeriveMenus(ms, term) <==> m in ms && (term == "" || DescriptionMatches(m, term))
    ensures multiset(DeriveMenus(ms, term))[m] == if term == "" || DescriptionMatches(m, term) then multiset(ms)[m] else 0
  {
    var p := (x: Menu) => DescriptionMatches(x, term);
    SortMembership(Searched(ms, term), MenuLe, m);
    if term != "" {
      FilterMembership(ms, p, m);
      FilterCounts(ms, p, m);
    }
  }

  /**
   * The view's order: no ordinary menu precedes a menu of the day, and menus with the
   * same flag come by non-increasing number of dishes.
   */
  lemma DeriveMenusOrder(ms: seq<Menu>, term: string)
    ensures var v := DeriveMenus(ms, term);
            forall i, j | 0 <= i < j < |v| ::
              && (v[j].isMenuOfTheDay ==> v[i].isMenuOfTheDay)
              && (v[i].isMenuOfTheDay == v[j].isMenuOfTheDay ==> |v[i].dishes| >= |v[j].dishes|)
  {
    MenuLeTotalPreorder();
    SortSorted(Searched(ms, term), MenuLe);
  }

  /** The row update of `handleToggleExpand`. */
  function Flip(menuId: int): Menu -> Menu {
    (m: Menu) => if m.menuId == menuId then m.(expanded := !m.expanded) else m
  }

  /** `handleToggleExpand` on one list. */
  function Toggled(ms: seq<Menu>, menuId: int): seq<Menu> { Map(ms, Flip(menuId)) }

  /** Only the rows with that id change, and in them only `expanded`, which is negated. */
  lemma ToggledSpec(ms: seq<Menu>, menuId: int, i: int)
    requires 0 <= i < |ms|
    ensures |Toggled(ms, menuId)| == |ms|
    ensures ms[i].menuId == menuId ==> Toggled(ms, menuId)[i] == ms[i].(expanded := !ms[i].expanded)
    ensures ms[i].menuId != menuId ==> Toggled(ms, menuId)[i] == ms[i]
  {
  }

  /** Toggling twice restores the list. */
  lemma ToggledTwice(ms: seq<Menu>, menuId: int)
    ensures Toggled(Toggled(ms, menuId), menuId) == ms
  {
    var t := Toggled(Toggled(ms, menuId), menuId);
    forall i | 0 <= i < |ms|
      ensures t[i] == ms[i]
    {
      ToggledSpec(ms, menuId, i);
      ToggledSpec(Toggled(ms, menuId), menuId, i);
    }
  }

  /** Toggling the view in place gives what the effect derives from the toggled list. */
  lemma ToggledView(ms: seq<Menu>, term: string, menuId: int)
    ensures DeriveMenus(Toggled(ms, menuId), term) == Toggled(DeriveMenus(ms, term), menuId)
  {
    var f := Flip(menuId);
    if term != "" {
      MapFilter(ms, f, (m: Menu) => DescriptionMatches(m, term));
    }
    MapSort(Searched(ms, term), MenuLe, f);
  }

  /** The local update of a confirmed delete. */
  function WithoutMenu(ms: seq<Menu>, menuId: int): seq<Menu> { Filter(ms, (m: Menu) => m.menuId != menuId) }

  /** After a delete no menu has that id, and every other menu stays, in order. */
  lemma WithoutMenuSpec(ms: seq<Menu>, menuId: int, m: Menu)
    ensures m in WithoutMenu(ms, menuId) <==> m in ms && m.menuId != menuId
    ensures multiset(WithoutMenu(ms, menuId))[m] == if m.menuId != menuId then multiset(ms)[m] else 0
  {
    FilterMembership(ms, (x: Menu) => x.menuId != menuId, m);
    FilterCounts(ms, (x: Menu) => x.menuId != menuId, m);
  }

  /** The message of a successful delete. */
  function DeletedMessage(m: Menu): string {
    "Le menu \"" + m.menuDescription + "\" a été supprimé avec succès."
  }

  /** The menu list screen's state. */
  class MenuTableScreen {
    var menus: seq<Menu>
    var filteredMenus: seq<Menu>
    var loading: bool
    var error: Option<string>
    var searchTerm: string
    var openDeleteConfirm: bool
    var currentMenu: Option<Menu>
    var snackbar: Snackbar

    constructor()
      ensures menus == [] && filteredMenus == [] && loading && error.None? && searchTerm == ""
      ensures !openDeleteConfirm && currentMenu.None? && snackbar == Hidden
    {
      menus, filteredMenus, loading, error, searchTerm := [], [], true, None, "";
      openDeleteConfirm, currentMenu, snackbar := false, None, Hidden;
    }

    /**
     * `fetchMenus`, given how the GET ended. The error is cleared first and loading
     * ends false. A body holding no menus empties both lists; otherwise both become
     * the normalised menus, in the body's order (the sort is the effect's job). A
     * failure keeps the lists and classifies the error.
     */
    method FetchMenus(response: Outcome<Json<RawMenu>>)
      modifies this`loading, this`error, this`menus, this`filteredMenus
      ensures !loading
      ensures response.Done? ==>
                && error.None?
                && menus == NormaliseAll(Extracted(response.value))
                && filteredMenus == menus
      ensures response.Done? && Extracted(response.value) == [] ==> menus == [] && filteredMenus == []
      ensures response.Failed? ==>
                && error == Some(FetchErrorMessage(response.failure))
                && menus == old(menus) && filteredMenus == old(filteredMenus)
    {
      loading := true;
      error := None;
      if response.Done? {
        var extracted := Extracted(response.value);
        if |extracted| == 0 {
          menus := [];
          filteredMenus := [];
        } else {
          var normalised := NormaliseAll(extracted);
          menus := normalised;
          filteredMenus := normalised;
        }
      } else {
        error := Some(FetchErrorMessage(response.failure));
      }
      loading := false;
    }

    /** The filter-and-sort effect, run when `menus` or `searchTerm` changes. */
    method RecomputeView()
      modifies this`filteredMenus
      ensures filteredMenus == DeriveMenus(menus, searchTerm)
    {
      var result := menus;
      var term := searchTerm;
      if term != "" {
        result := Filter(result, (m: Menu) => DescriptionMatches(m, term));
      }
      filteredMenus := Sort(result, MenuLe);
    }

    /** Typing in the search field, followed by the effect. */
    method SetSearchTerm(term: string)
      modifies this`searchTerm, this`filteredMenus
      ensures searchTerm == term
      ensures filteredMenus == DeriveMenus(menus, term)
    {
      searchTerm := term;
      RecomputeView();
    }

    /**
     * `handleToggleExpand`: the row is flipped in both lists, so a view that agreed with
     * the effect still does.
     */
    method ToggleExpand(menuId: int)
      modifies this`menus, this`filteredMenus
      ensures menus == Toggled(old(menus), menuId)
      ensures filteredMenus == Toggled(old(filteredMenus), menuId)
      ensures old(filteredMenus) == DeriveMenus(old(menus), searchTerm) ==> filteredMenus == DeriveMenus(menus, searchTerm)
    {
      ToggledView(menus, searchTerm, menuId);
      menus := Toggled(menus, menuId);
      filteredMenus := Toggled(filteredMenus, menuId);
    }

    /** `handleDeleteClick`: remember the menu and open the confirmation. */
    method HandleDeleteClick(m: Menu)
      modifies this`currentMenu, this`openDeleteConfirm
      ensures currentMenu == Some(m) && openDeleteConfirm
    {
      currentMenu := Some(m);
      openDeleteConfirm := true;
    }

    /**
     * `handleConfirmDelete`, given whether the DELETE succeeded. Without a current menu
     * nothing happens. On success the menu's id leaves both lists and the dialog closes;
     * on failure only the error snackbar changes.
     */
    method ConfirmDelete(succeeded: bool)
      modifies this`menus, this`filteredMenus, this`snackbar, this`openDeleteConfirm
      ensures old(currentMenu).None? ==> unchanged(this)
      ensures currentMenu.Some? && succeeded ==>
                && menus == WithoutMenu(old(menus), currentMenu.value.menuId)
                && filteredMenus == WithoutMenu(old(filteredMenus), currentMenu.value.menuId)
                && snackbar == Snackbar(true, DeletedMessage(currentMenu.value), Success)
                && !openDeleteConfirm
      ensures currentMenu.Some? && !succeeded ==>
                && menus == old(menus) && filteredMenus == old(filteredMenus)
                && snackbar == Snackbar(true, "Erreur lors de la suppression du menu.", Error)
                && openDeleteConfirm == old(openDeleteConfirm)
    {
      if currentMenu.None? {
        return;
      }
      var target := currentMenu.value;
      if succeeded {
        menus := WithoutMenu(menus, target.menuId);
        filteredMenus := WithoutMenu(filteredMenus, target.menuId);
        snackbar := Snackbar(true, DeletedMessage(target), Success);
        openDeleteConfirm := false;
      } else {
        snackbar := Snackbar(true, "Erreur lors de la suppression du menu.", Error);
      }
    }
  }
}
