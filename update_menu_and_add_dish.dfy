/**
 * The "edit a menu" dialog: the menu's description, the dishes already in it (each can
 * be removed), and one pending pick of a dish and quantity that can be added.
 */
module UpdateMenuAndAddDish {
  import opened Wrappers
  import opened Seqs
  import opened Http
  import opened Catalog
  import MenuTable

  type MenuDish = MenuTable.MenuDish

  /** The pending pick; dish id 0 means "no dish chosen yet". */
  datatype DishSelection = DishSelection(dishId: int, dishQuantity: int)

  /** The body of `POST /menu/<id>`: a dish to add and the description to keep. */
  datatype AddDto = AddDto(dishId: int, quantity: int, newDescription: string)

  /** The body of the `DELETE /menu` request. */
  datatype RemoveCommand = RemoveCommand(menuId: int, dishId: int)

  const BlankPick := DishSelection(0, 1)
  const NewDishKey := "new-dish"
  const SelectDishMessage := "Veuillez sélectionner un plat"

  /** The pick is valid when a dish is chosen; its errors are then none, and otherwise just "new-dish". */
  function PickErrors(pick: DishSelection): (errors: map<string, string>)
    ensures pick.dishId <= 0 <==> errors.Keys == {NewDishKey}
    ensures pick.dishId > 0 <==> errors == map[]
  {
    if pick.dishId <= 0 then map[NewDishKey := SelectDishMessage] else map[]
  }

  /** The "description only" save: the dish id -1 and quantity 0 tell the server not to add a dish. */
  function DescriptionOnly(description: string): (dto: AddDto)
    ensures dto.dishId < 0 && dto.quantity == 0 && dto.newDescription == description
  {
    AddDto(-1, 0, description)
  }

  /** A dish id some dish of the menu has. */
  predicate InMenu(existing: seq<MenuDish>, dishId: int) {
    exists i | 0 <= i < |existing| :: existing[i].dishId == Some(dishId)
  }

  /** The dishes the selector offers: the available ones not already in the menu, in order. */
  function Offered(available: seq<Dish>, existing: seq<MenuDish>): (r: seq<Dish>)
    ensures |r| <= |available|
    ensures forall i | 0 <= i < |r| :: !InMenu(existing, r[i].dishId)
  {
    FilterSatisfies(available, (d: Dish) => !InMenu(existing, d.dishId));
    Filter(available, (d: Dish) => !InMenu(existing, d.dishId))
  }

  /** A dish is offered exactly when it is available and its id is not in the menu. */
  lemma OfferedSpec(available: seq<Dish>, existing: seq<MenuDish>, d: Dish)
    ensures d in Offered(available, existing) <==> d in available && !InMenu(existing, d.dishId)
    ensures multiset(Offered(available, existing))[d] == if InMenu(existing, d.dishId) then 0 else multiset(available)[d]
  {
    FilterMembership(available, (x: Dish) => !InMenu(existing, x.dishId), d);
    FilterCounts(available, (x: Dish) => !InMenu(existing, x.dishId), d);
  }

  /** `availableDishes.find(d => d.dishId === id)`. */
  function Find(available: seq<Dish>, dishId: int): (r: Option<Dish>)
    ensures r.Some? ==> r.value in available && r.value.dishId == dishId
    ensures r.None? <==> forall i | 0 <= i < |available| :: available[i].dishId != dishId
    decreases |available|
  {
    if available == [] then None
    else if available[0].dishId == dishId then Some(available[0])
    else Find(available[1..], dishId)
  }

  /** The menu's dishes after removing a dish: every line with that id goes, the others stay in order. */
  function WithoutDish(existing: seq<MenuDish>, dishId: int): seq<MenuDish> {
    Filter(existing, (d: MenuDish) => d.dishId != Some(dishId))
  }

  lemma WithoutDishSpec(existing: seq<MenuDish>, dishId: int, d: MenuDish)
    ensures d in WithoutDish(existing, dishId) <==> d in existing && d.dishId != Some(dishId)
    ensures !InMenu(WithoutDish(existing, dishId), dishId)
  {
    var p := (x: MenuDish) => x.dishId != Some(dishId);
    FilterMembership(existing, p, d);
    FilterSatisfies(existing, p);
  }

  /** A removed dish is offered again, if it is available. */
  lemma RemovedIsOffered(available: seq<Dish>, existing: seq<MenuDish>, d: Dish)
    requires d in available
    ensures d in Offered(available, WithoutDish(existing, d.dishId))
  {
    WithoutDishSpec(existing, d.dishId, MenuTable.MenuDish("", 0, None));
    OfferedSpec(available, WithoutDish(existing, d.dishId), d);
  }

  /** A dish added to the menu is no longer offered. */
  lemma AddedIsNotOffered(available: seq<Dish>, existing: seq<MenuDish>, line: MenuDish, d: Dish)
    requires line.dishId == Some(d.dishId)
    ensures d !in Offered(available, existing + [line])
  {
    var e := existing + [line];
    assert e[|existing|] == line;
    OfferedSpec(available, e, d);
  }

  /**
   * The error text of a failed call: a string body as it is, an object body's message
   * (or else the error's), the error's message when there is no body, else the default.
   */
  function ServerErrorText(f: Failure, default: string): (msg: string)
    ensures !f.AxiosError? ==> msg == default
    ensures f.AxiosError? && f.response.Some? && f.response.value.data.Text? && f.response.value.data.text != "" ==>
              msg == f.response.value.data.text
    ensures f.AxiosError? && f.response.Some? && f.response.value.data.Record? ==>
              msg == OrElse(f.response.value.data.message, f.message)
    ensures f.AxiosError? && (f.response.None? || f.response.value.data.NoBody? || f.response.value.data == Body.Text("")) ==>
              msg == (if f.message != "" then f.message else default)
  {
    if !f.AxiosError? then default
    else if f.response.Some? && f.response.value.data.Text? && f.response.value.data.text != "" then f.response.value.data.text
    else if f.response.Some? && f.response.value.data.Record? then OrElse(f.response.value.data.message, f.message)
    else if f.message != "" then f.message
    else default
  }

  /** How the add POST ended: the server answered (telling whether the dish was already there), or it failed. */
  datatype AddOutcome = Answered(dishAlreadyExists: bool) | AddFailed(failure: Failure)

  /** The dialog's state. */
  class UpdateMenuDialog {
    var menuDescription: string
    var existingDishes: seq<MenuDish>
    var newDish: DishSelection
    var availableDishes: seq<Dish>
    var isLoading: bool
    var fetchingDishes: bool
    var validationErrors: map<string, string>
    var message: Option<string>
    var snackbarOpen: bool
    var snackbarSuccess: bool

    constructor()
      ensures menuDescription == "" && existingDishes == [] && newDish == BlankPick && availableDishes == []
      ensures !isLoading && !fetchingDishes && validationErrors == map[] && message.None?
      ensures !snackbarOpen && snackbarSuccess
    {
      menuDescription, existingDishes, newDish, availableDishes := "", [], BlankPick, [];
      isLoading, fetchingDishes, validationErrors, message := false, false, map[], None;
      snackbarOpen, snackbarSuccess := false, true;
    }

    /** The open effect with a menu: its description and dishes are copied, the pick and the errors reset (the fetch follows). */
    method Open(currentMenu: MenuTable.Menu)
      modifies this`menuDescription, this`validationErrors, this`message, this`newDish, this`existingDishes
      ensures menuDescription == currentMenu.menuDescription && existingDishes == currentMenu.dishes
      ensures newDish == BlankPick && validationErrors == map[] && message.None?
    {
      menuDescription := currentMenu.menuDescription;
      validationErrors := map[];
      message := None;
      newDish := BlankPick;
      if |currentMenu.dishes| > 0 {
        existingDishes := currentMenu.dishes;
      } else {
        existingDishes := [];
      }
    }

    /** `fetchDishes`, given how the GET ended: the unwrapped dish array, or an error snackbar. */
    method FetchDishes(response: Outcome<Json<Dish>>)
      modifies this`fetchingDishes, this`availableDishes, this`message, this`snackbarOpen, this`snackbarSuccess
      ensures !fetchingDishes
      ensures response.Done? ==>
                && availableDishes == ArrayOf(response.value) && message == old(message)
                && snackbarOpen == old(snackbarOpen) && snackbarSuccess == old(snackbarSuccess)
      ensures response.Failed? ==>
                && availableDishes == old(availableDishes)
                && message == Some("Impossible de charger les plats disponibles.") && snackbarOpen && !snackbarSuccess
    {
      fetchingDishes := true;
      if response.Done? {
        var dishes := UnwrapArray(response.value);
        availableDishes := dishes;
      } else {
        message := Some("Impossible de charger les plats disponibles.");
        snackbarSuccess := false;
        snackbarOpen := true;
      }
      fetchingDishes := false;
    }

    /** `handleDishChange`: the pick's dish changes; choosing one clears the pick's error. */
    method HandleDishChange(dishId: int)
      modifies this`newDish, this`validationErrors
      ensures newDish == old(newDish).(dishId := dishId)
      ensures dishId > 0 ==> validationErrors == old(validationErrors) - {NewDishKey}
      ensures dishId <= 0 ==> validationErrors == old(validationErrors)
    {
      newDish := newDish.(dishId := dishId);
      if dishId > 0 {
        validationErrors := validationErrors - {NewDishKey};
      }
    }

    /** `handleQuantityChange` (the field passes `parseInt(text) || 1`). */
    method HandleQuantityChange(quantity: int)
      modifies this`newDish
      ensures newDish == old(newDish).(dishQuantity := quantity)
    {
      newDish := newDish.(dishQuantity := quantity);
    }

    /** `validateForm`. */
    method ValidateForm() returns (valid: bool)
      modifies this`validationErrors
      ensures validationErrors == PickErrors(newDish)
      ensures valid <==> newDish.dishId > 0
    {
      var errors: map<string, string> := map[];
      valid := true;
      if newDish.dishId <= 0 {
        errors := errors[NewDishKey := SelectDishMessage];
        valid := false;
      }
      validationErrors := errors;
    }

    /**
     * `handleRemoveDish`, given the menu and how the DELETE ended. No dish id (or 0), or
     * no menu, does nothing. Success drops every line of that dish.
     */
    method HandleRemoveDish(dishId: Option<int>, currentMenu: Option<MenuTable.Menu>, failure: Option<Failure>)
      returns (sent: Option<RemoveCommand>)
      modifies this`isLoading, this`existingDishes, this`message, this`snackbarOpen, this`snackbarSuccess
      ensures dishId.None? || dishId.value == 0 || currentMenu.None? ==> sent.None? && unchanged(this)
      ensures dishId.Some? && dishId.value != 0 && currentMenu.Some? ==>
                && sent == Some(RemoveCommand(currentMenu.value.menuId, dishId.value))
                && !isLoading && snackbarOpen
                && (failure.None? ==>
                      existingDishes == WithoutDish(old(existingDishes), dishId.value)
                      && message == Some("Plat supprimé avec succès !") && snackbarSuccess)
                && (failure.Some? ==>
                      existingDishes == old(existingDishes)
                      && message == Some(ServerErrorText(failure.value, "Une erreur est survenue lors de la suppression du plat"))
                      && !snackbarSuccess)
    {
      if dishId.None? || dishId.value == 0 || currentMenu.None? {
        return None;
      }
      isLoading := true;
      sent := Some(RemoveCommand(currentMenu.value.menuId, dishId.value));
      if failure.None? {
        existingDishes := WithoutDish(existingDishes, dishId.value);
        message := Some("Plat supprimé avec succès !");
        snackbarSuccess := true;
      } else {
        message := Some(ServerErrorText(failure.value, "Une erreur est survenue lors de la suppression du plat"));
        snackbarSuccess := false;
      }
      snackbarOpen := true;
      isLoading := false;
    }

    /**
     * `handleAddDish`, given the menu and how the POST ended. The form is validated
     * first; an invalid pick or no menu sends nothing. A dish the server already has
     * changes no list; otherwise the dish, if found among the available ones, is
     * appended with the pick's quantity, and the pick is reset.
     */
    method HandleAddDish(currentMenu: Option<MenuTable.Menu>, outcome: AddOutcome) returns (sent: Option<AddDto>)
      modifies this`validationErrors, this`isLoading, this`existingDishes, this`newDish, this`message,
               this`snackbarOpen, this`snackbarSuccess
      ensures validationErrors == PickErrors(old(newDish))
      ensures old(newDish).dishId <= 0 || currentMenu.None? ==>
                && sent.None? && existingDishes == old(existingDishes) && newDish == old(newDish)
                && message == old(message) && isLoading == old(isLoading)
                && snackbarOpen == old(snackbarOpen) && snackbarSuccess == old(snackbarSuccess)
      ensures old(newDish).dishId > 0 && currentMenu.Some? ==>
                && sent == Some(AddDto(old(newDish).dishId, old(newDish).dishQuantity, menuDescription))
                && !isLoading && snackbarOpen
      ensures old(newDish).dishId > 0 && currentMenu.Some? && outcome == Answered(true) ==>
                && existingDishes == old(existingDishes) && newDish == old(newDish) && !snackbarSuccess
                && message == Some("Le plat \"" + (var f := Find(availableDishes, old(newDish).dishId);
                                                  if f.Some? then f.value.dishName else "undefined")
                                   + "\" est déjà dans ce menu.")
      ensures old(newDish).dishId > 0 && currentMenu.Some? && outcome == Answered(false) ==>
                && existingDishes == old(existingDishes) +
                     (var f := Find(availableDishes, old(newDish).dishId);
                      if f.Some? then [MenuTable.MenuDish(f.value.dishName, old(newDish).dishQuantity, Some(old(newDish).dishId))] else [])
                && newDish == BlankPick && message == Some("Plat ajouté avec succès !") && snackbarSuccess
      ensures old(newDish).dishId > 0 && currentMenu.Some? && outcome.AddFailed? ==>
                && existingDishes == old(existingDishes) && newDish == old(newDish) && !snackbarSuccess
                && message == Some(ServerErrorText(outcome.failure, "Une erreur est survenue lors de l'ajout du plat"))
    {
      var valid := ValidateForm();
      if !valid || currentMenu.None? {
        return None;
      }
      isLoading := true;
      sent := Some(AddDto(newDish.dishId, newDish.dishQuantity, menuDescription));
      match outcome {
        case Answered(alreadyExists) =>
          var selected := Find(availableDishes, newDish.dishId);
          if alreadyExists {
            var name := if selected.Some? then selected.value.dishName else "undefined";
            message := Some("Le plat \"" + name + "\" est déjà dans ce menu.");
            snackbarSuccess := false;
          } else {
            if selected.Some? {
              existingDishes := existingDishes + [MenuTable.MenuDish(selected.value.dishName, newDish.dishQuantity, Some(newDish.dishId))];
            }
            newDish := BlankPick;
            message := Some("Plat ajouté avec succès !");
            snackbarSuccess := true;
          }
        case AddFailed(f) =>
          message := Some(ServerErrorText(f, "Une erreur est survenue lors de l'ajout du plat"));
          snackbarSuccess := false;
      }
      snackbarOpen := true;
      isLoading := false;
    }

    /**
     * `handleSubmit`: only the description is saved, with the "no dish" sentinel. Success
     * schedules the parent's `onSuccess` and `onClose`.
     */
    method HandleSubmit(currentMenu: Option<MenuTable.Menu>, failure: Option<Failure>) returns (sent: Option<AddDto>, closeScheduled: bool)
      modifies this`isLoading, this`message, this`snackbarOpen, this`snackbarSuccess
      ensures currentMenu.None? ==> sent.None? && !closeScheduled && unchanged(this)
      ensures currentMenu.Some? ==> sent == Some(DescriptionOnly(menuDescription)) && !isLoading && snackbarOpen
      ensures currentMenu.Some? && failure.None? ==>
                message == Some("Menu mis à jour avec succès !") && snackbarSuccess && closeScheduled
      ensures currentMenu.Some? && failure.Some? ==>
                && message == Some(ServerErrorText(failure.value, "Une erreur est survenue lors de la mise à jour du menu"))
                && !snackbarSuccess && !closeScheduled
    {
      if currentMenu.None? {
        return None, false;
      }
      isLoading := true;
      sent := Some(AddDto(-1, 0, menuDescription));
      if failure.None? {
        message := Some("Menu mis à jour avec succès !");
        snackbarSuccess := true;
        closeScheduled := true;
      } else {
        message := Some(ServerErrorText(failure.value, "Une erreur est survenue lors de la mise à jour du menu"));
        snackbarSuccess := false;
        closeScheduled := false;
      }
      snackbarOpen := true;
      isLoading := false;
    }
  }
}
