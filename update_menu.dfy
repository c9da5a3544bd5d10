/**
 * The menu details dialog: the menu fetched by id, its description edited in place,
 * and dishes added to or removed from it on the server, after which the menu is
 * fetched again. The dish selector hides the dishes already in the menu.
 */
module UpdateMenu {
  import opened Wrappers
  import opened Seqs
  import opened Http
  import opened Catalog
  import opened Forms

  /** A link between the menu and one of its dishes. */
  datatype MenuDishLink = MenuDishLink(menuDishId: int, menuId: int, dishId: int)

  /** The menu as the API sends it; the description and the dish links may be missing. */
  datatype MenuRecord = MenuRecord(menuId: int, menuDescription: Option<string>, menuDishes: Option<seq<MenuDishLink>>)

  /** The body of `GET /menu/<id>`: an object with a `$values` array, or the menu itself. */
  datatype MenuBody = Values(values: seq<MenuRecord>) | Plain(record: MenuRecord)

  const LoadMenuError := "Impossible de charger les données du menu."
  const LoadDishesError := "Impossible de charger la liste des plats disponibles."
  const DescriptionSaved := "Description du menu mise à jour avec succès !"
  const DescriptionError := "Erreur lors de la mise à jour de la description. Veuillez réessayer."
  const DishAdded := "Plat ajouté au menu avec succès !"
  const AddError := "Erreur lors de l'ajout du plat au menu. Veuillez réessayer."
  const DishRemoved := "Plat retiré du menu avec succès !"
  const RemoveError := "Erreur lors du retrait du plat du menu. Veuillez réessayer."

  /**
   * The menu a body names: the first of `$values` (none when `$values` is empty, since
   * even an empty array is truthy), or the body itself.
   */
  function FetchedMenu(body: MenuBody): (r: Option<MenuRecord>)
    ensures body.Plain? ==> r == Some(body.record)
    ensures body.Values? ==> (r.Some? <==> |body.values| > 0) && (r.Some? ==> r.value == body.values[0])
  {
    match body
    case Values(vs) => if |vs| > 0 then Some(vs[0]) else None
    case Plain(m) => Some(m)
  }

  /** Some dish link of the menu names the dish. */
  predicate Linked(links: seq<MenuDishLink>, dishId: int) {
    exists i | 0 <= i < |links| :: links[i].dishId == dishId
  }

  /** `getFilteredAvailableDishes`. */
  function FilteredAvailable(menu: Option<MenuRecord>, available: seq<Dish>): seq<Dish> {
    if menu.None? || menu.value.menuDishes.None? then available
    else Filter(available, (d: Dish) => !Linked(menu.value.menuDishes.value, d.dishId))
  }

  /**
   * With no menu or no dish links every available dish is offered; otherwise exactly
   * the available dishes the menu does not link, each as often as it is available, in order.
   */
  lemma FilteredAvailableSpec(menu: Option<MenuRecord>, available: seq<Dish>, d: Dish)
    ensures menu.None? || menu.value.menuDishes.None? ==> FilteredAvailable(menu, available) == available
    ensures menu.Some? && menu.value.menuDishes.Some? ==>
              && (d in FilteredAvailable(menu, available) <==> d in available && !Linked(menu.value.menuDishes.value, d.dishId))
              && multiset(FilteredAvailable(menu, available))[d] ==
                   if Linked(menu.value.menuDishes.value, d.dishId) then 0 else multiset(available)[d]
  {
    if menu.Some? && menu.value.menuDishes.Some? {
      var p := (x: Dish) => !Linked(menu.value.menuDishes.value, x.dishId);
      FilterMembership(available, p, d);
      FilterCounts(available, p, d);
    }
  }

  /** The dialog's state for the menu `menuId`. */
  class MenuDialog {
    const menuId: int
    var menu: Option<MenuRecord>
    var menuDescription: string
    var isEditingDescription: bool
    var availableDishes: seq<Dish>
    var selectedDish: Option<Dish>
    var error: string
    var successMessage: string
    var loading: bool
    var fetchLoading: bool
    var dishesLoading: bool
    var tabValue: int

    constructor(id: int)
      ensures menuId == id && menu.None? && menuDescription == "" && !isEditingDescription
      ensures availableDishes == [] && selectedDish.None? && error == "" && successMessage == ""
      ensures !loading && fetchLoading && dishesLoading && tabValue == 0
    {
      menuId := id;
      menu, menuDescription, isEditingDescription, availableDishes := None, "", false, [];
      selectedDish, error, successMessage := None, "", "";
      loading, fetchLoading, dishesLoading, tabValue := false, true, true, 0;
    }

    /**
     * `fetchMenuData`, given how the GET ended. A body naming a menu sets it and its
     * description (missing gives ""). An empty `$values` first clears the menu and then
     * fails on reading its description, like a failed request, which sets the error.
     */
    method FetchMenuData(response: Outcome<MenuBody>)
      modifies this`fetchLoading, this`menu, this`menuDescription, this`error
      ensures !fetchLoading
      ensures response.Done? && FetchedMenu(response.value).Some? ==>
                && menu == FetchedMenu(response.value)
                && menuDescription == menu.value.menuDescription.GetOr("") && error == old(error)
      ensures response.Done? && FetchedMenu(response.value).None? ==>
                menu.None? && menuDescription == old(menuDescription) && error == LoadMenuError
      ensures response.Failed? ==> menu == old(menu) && menuDescription == old(menuDescription) && error == LoadMenuError
    {
      fetchLoading := true;
      if response.Done? {
        var menuData := FetchedMenu(response.value);
        menu := menuData;
        if menuData.Some? {
          menuDescription := menuData.value.menuDescription.GetOr("");
        } else {
          error := LoadMenuError;
        }
      } else {
        error := LoadMenuError;
      }
      fetchLoading := false;
    }

    /**
     * `fetchAvailableDishes`, given how the GET ended: `$values` when present, else the
     * body. A `null` body throws on reading `$values`, like a failed request.
     */
    method FetchAvailableDishes(response: Outcome<ListBody<Dish>>)
      modifies this`dishesLoading, this`availableDishes, this`error
      ensures !dishesLoading
      ensures response.Done? && !response.value.NullList? ==>
                availableDishes == response.value.items && error == old(error)
      ensures response.Failed? || response.value.NullList? ==>
                availableDishes == old(availableDishes) && error == LoadDishesError
    {
      dishesLoading := true;
      var fetched := if response.Done? then Unwrapped(response.value) else Failed(response.failure);
      if fetched.Done? {
        availableDishes := fetched.value;
      } else {
        error := LoadDishesError;
      }
      dishesLoading := false;
    }

    method HandleTabChange(newValue: int)
      modifies this`tabValue
      ensures tabValue == newValue
    {
      tabValue := newValue;
    }

    /** `handleClose`: messages cleared, editing off, no selection, first tab; returns whether `onClose` is called. */
    method HandleClose(hasOnClose: bool) returns (callsOnClose: bool)
      modifies this`error, this`successMessage, this`isEditingDescription, this`selectedDish, this`tabValue
      ensures error == "" && successMessage == "" && !isEditingDescription && selectedDish.None? && tabValue == 0
      ensures callsOnClose == hasOnClose
    {
      error := "";
      successMessage := "";
      isEditingDescription := false;
      selectedDish := None;
      tabValue := 0;
      callsOnClose := hasOnClose;
    }

    method StartEditingDescription()
      modifies this`isEditingDescription
      ensures isEditingDescription
    {
      isEditingDescription := true;
    }

    method SetMenuDescription(value: string)
      modifies this`menuDescription
      ensures menuDescription == value
    {
      menuDescription := value;
    }

    method SelectDish(dish: Option<Dish>)
      modifies this`selectedDish
      ensures selectedDish == dish
    {
      selectedDish := dish;
    }

    /**
     * `handleUpdateDescription`, given whether the PATCH succeeded. Success keeps the
     * new description in the local menu and ends editing; a failure sets the error and
     * keeps the menu. Returns the body sent and whether `onSuccess` is called.
     */
    method HandleUpdateDescription(succeeded: bool, hasOnSuccess: bool) returns (form: FormData, callsOnSuccess: bool)
      modifies this`loading, this`error, this`successMessage, this`isEditingDescription, this`menu
      ensures form == [("newDescription", Value(menuDescription))]
      ensures !loading
      ensures succeeded ==>
                && successMessage == DescriptionSaved && error == "" && !isEditingDescription
                && menu == (if old(menu).Some? then Some(old(menu).value.(menuDescription := Some(menuDescription))) else None)
                && callsOnSuccess == hasOnSuccess
      ensures !succeeded ==>
                && error == DescriptionError && successMessage == "" && isEditingDescription == old(isEditingDescription)
                && menu == old(menu) && !callsOnSuccess
    {
      loading := true;
      error := "";
      successMessage := "";
      form := [("newDescription", Value(menuDescription))];
      if succeeded {
        successMessage := DescriptionSaved;
        isEditingDescription := false;
        if menu.Some? {
          menu := Some(menu.value.(menuDescription := Some(menuDescription)));
        }
        callsOnSuccess := hasOnSuccess;
      } else {
        error := DescriptionError;
        callsOnSuccess := false;
      }
      loading := false;
    }

    /** The add button is disabled with no dish selected or while a request runs. */
    predicate AddDisabled()
      reads this
    {
      selectedDish.None? || loading
    }

    /**
     * `handleAddDishToMenu`, given whether the POST succeeded and how the following
     * refetch ended. No selection sends nothing and changes nothing. Success clears the
     * selection and refetches the menu; a failure sets the error and keeps the menu.
     * Returns the dish id posted and whether `onSuccess` is called.
     */
    method HandleAddDishToMenu(succeeded: bool, refetch: Outcome<MenuBody>, hasOnSuccess: bool)
      returns (posted: Option<int>, callsOnSuccess: bool)
      modifies this`loading, this`error, this`successMessage, this`selectedDish,
               this`fetchLoading, this`menu, this`menuDescription
      ensures old(selectedDish).None? ==> posted.None? && !callsOnSuccess && unchanged(this)
      ensures old(selectedDish).Some? ==> posted == Some(old(selectedDish).value.dishId) && !loading
      ensures !old(AddDisabled()) ==> posted.Some?
      ensures old(selectedDish).Some? && succeeded ==>
                && successMessage == DishAdded && selectedDish.None? && callsOnSuccess == hasOnSuccess && !fetchLoading
                && (refetch.Done? && FetchedMenu(refetch.value).Some? ==>
                      && menu == FetchedMenu(refetch.value) && error == ""
                      && menuDescription == menu.value.menuDescription.GetOr(""))
                && (refetch.Done? && FetchedMenu(refetch.value).None? ==>
                      menu.None? && menuDescription == old(menuDescription) && error == LoadMenuError)
                && (refetch.Failed? ==>
                      menu == old(menu) && menuDescription == old(menuDescription) && error == LoadMenuError)
      ensures old(selectedDish).Some? && !succeeded ==>
                && error == AddError && successMessage == "" && selectedDish == old(selectedDish)
                && menu == old(menu) && menuDescription == old(menuDescription)
                && fetchLoading == old(fetchLoading) && !callsOnSuccess
    {
      if selectedDish.None? {
        return None, false;
      }
      loading := true;
      error := "";
      successMessage := "";
      posted := Some(selectedDish.value.dishId);
      if succeeded {
        successMessage := DishAdded;
        selectedDish := None;
        FetchMenuData(refetch);
        callsOnSuccess := hasOnSuccess;
      } else {
        error := AddError;
        callsOnSuccess := false;
      }
      loading := false;
    }

    /**
     * `handleRemoveDishFromMenu`, given whether the DELETE succeeded and how the
     * following refetch ended. The menu changes only through the refetch.
     */
    method HandleRemoveDishFromMenu(dishId: int, succeeded: bool, refetch: Outcome<MenuBody>, hasOnSuccess: bool)
      returns (callsOnSuccess: bool)
      modifies this`loading, this`error, this`successMessage, this`fetchLoading, this`menu, this`menuDescription
      ensures !loading
      ensures succeeded ==>
                && successMessage == DishRemoved && callsOnSuccess == hasOnSuccess && !fetchLoading
                && (refetch.Done? && FetchedMenu(refetch.value).Some? ==>
                      && menu == FetchedMenu(refetch.value) && error == ""
                      && menuDescription == menu.value.menuDescription.GetOr(""))
                && (refetch.Done? && FetchedMenu(refetch.value).None? ==>
                      menu.None? && menuDescription == old(menuDescription) && error == LoadMenuError)
                && (refetch.Failed? ==>
                      menu == old(menu) && menuDescription == old(menuDescription) && error == LoadMenuError)
      ensures !succeeded ==>
                && error == RemoveError && successMessage == "" && menu == old(menu)
                && menuDescription == old(menuDescription) && fetchLoading == old(fetchLoading)
                && !callsOnSuccess
    {
      loading := true;
      error := "";
      successMessage := "";
      if succeeded {
        successMessage := DishRemoved;
        FetchMenuData(refetch);
        callsOnSuccess := hasOnSuccess;
      } else {
        error := RemoveError;
        callsOnSuccess := false;
      }
      loading := false;
    }
  }
}
