/**
 * The "new menu" dialog: a description and a list of rows, each a dish choice and a
 * quantity. Rows with no dish chosen are flagged by the validation and left out of
 * the menu that is sent.
 */
module AddMenuComponent {
  import opened Wrappers
  import opened Text
  import opened Seqs
  import opened Http
  import opened Catalog

  /** A row of the dialog; dish id 0 means "no dish chosen yet". */
  datatype DishSelection = DishSelection(dishId: int, dishQuantity: int)

  /** The body of the POST. */
  datatype MenuDto = MenuDto(menuDescription: string, dishes: seq<DishSelection>)

  /** The row a new dialog and the "add a dish" button start with. */
  const BlankRow := DishSelection(0, 1)

  const SelectDishMessage := "Veuillez sélectionner un plat"

  /**
   * The validation errors of the rows, keyed by row index (the source's key
   * `dish-<index>`): one for every row without a chosen dish.
   */
  function RowErrors(rows: seq<DishSelection>): map<int, string> {
    map i | 0 <= i < |rows| && rows[i].dishId <= 0 :: SelectDishMessage
  }

  /** A row with a dish chosen. */
  predicate Chosen(r: DishSelection) { r.dishId > 0 }

  /** Some row has a dish chosen. */
  predicate HasValidDish(rows: seq<DishSelection>) { exists i | 0 <= i < |rows| :: Chosen(rows[i]) }

  /** The menu sent: the description and the rows with a dish chosen, in order, with their quantities. */
  function DtoOf(description: string, rows: seq<DishSelection>): MenuDto {
    MenuDto(description, Filter(rows, Chosen))
  }

  /** The menu sent lists each row with a chosen dish as often as it occurs, and nothing else; it lists none exactly when the form is invalid. */
  lemma DtoOfSpec(description: string, rows: seq<DishSelection>, r: DishSelection)
    ensures DtoOf(description, rows).menuDescription == description
    ensures r in DtoOf(description, rows).dishes <==> r in rows && r.dishId > 0
    ensures multiset(DtoOf(description, rows).dishes)[r] == if r.dishId > 0 then multiset(rows)[r] else 0
    ensures DtoOf(description, rows).dishes == [] <==> !HasValidDish(rows)
  {
    FilterMembership(rows, Chosen, r);
    FilterCounts(rows, Chosen, r);
    if HasValidDish(rows) {
      var i :| 0 <= i < |rows| && Chosen(rows[i]);
      FilterMembership(rows, Chosen, rows[i]);
    } else if Filter(rows, Chosen) != [] {
      FilterMembership(rows, Chosen, Filter(rows, Chosen)[0]);
    }
  }

  /** `rows.filter((_, i) => i !== index)`. */
  function RemoveAt<T>(rows: seq<T>, index: int): seq<T> {
    if 0 <= index < |rows| then rows[..index] + rows[index + 1..] else rows
  }

  /** Removing a row shifts the later rows up by one and keeps the earlier ones; an index out of range removes nothing. */
  lemma RemoveAtSpec<T>(rows: seq<T>, index: int)
    ensures 0 <= index < |rows| ==> |RemoveAt(rows, index)| == |rows| - 1
    ensures !(0 <= index < |rows|) ==> RemoveAt(rows, index) == rows
    ensures forall k | 0 <= k < |RemoveAt(rows, index)| ::
              RemoveAt(rows, index)[k] == if 0 <= index <= k then rows[k + 1] else rows[k]
  {
  }

  const DefaultSubmitError := "Une erreur est survenue lors de la création du menu"

  /** The message of a failed POST: the server's message, else the error's, else a default. */
  function SubmitErrorText(f: Failure): (msg: string)
    ensures !f.AxiosError? ==> msg == DefaultSubmitError
    ensures f.AxiosError? && ResponseMessage(f).Some? && ResponseMessage(f).value != "" ==> msg == ResponseMessage(f).value
    ensures f.AxiosError? && (ResponseMessage(f).None? || ResponseMessage(f).value == "") ==>
              msg == (if f.message != "" then f.message else DefaultSubmitError)
  {
    if !f.AxiosError? then DefaultSubmitError
    else OrElse(ResponseMessage(f), if f.message != "" then f.message else DefaultSubmitError)
  }

  /** The dialog's state. */
  class AddMenuForm {
    var menuDescription: string
    var selectedDishes: seq<DishSelection>
    var availableDishes: seq<Dish>
    var isLoading: bool
    var fetchingDishes: bool
    var validationErrors: map<int, string>
    var message: Option<string>
    var snackbarOpen: bool
    var snackbarSuccess: bool

    /** There is always at least one row. */
    predicate Valid()
      reads this
    {
      |selectedDishes| >= 1
    }

    constructor()
      ensures Valid()
      ensures menuDescription == "" && selectedDishes == [BlankRow] && availableDishes == []
      ensures !isLoading && !fetchingDishes && validationErrors == map[] && message.None?
      ensures !snackbarOpen && snackbarSuccess
    {
      menuDescription, selectedDishes, availableDishes := "", [BlankRow], [];
      isLoading, fetchingDishes, validationErrors, message := false, false, map[], None;
      snackbarOpen, snackbarSuccess := false, true;
    }

    /** The open effect: an empty description, one blank row, no errors, no message (the fetch follows). */
    method Open()
      modifies this`menuDescription, this`selectedDishes, this`validationErrors, this`message
      ensures Valid()
      ensures menuDescription == "" && selectedDishes == [BlankRow] && validationErrors == map[] && message.None?
    {
      menuDescription := "";
      selectedDishes := [BlankRow];
      validationErrors := map[];
      message := None;
    }

    /** `fetchDishes`, given how the GET ended: the unwrapped dish array, or an error snackbar. */
    method FetchDishes(response: Outcome<Json<Dish>>)
      modifies this`fetchingDishes, this`availableDishes, this`message, this`snackbarOpen, this`snackbarSuccess
      ensures !fetchingDishes
      ensures response.Done? ==>
                && availableDishes == ArrayOf(response.value) && message == old(message)
                && snackbarOpen == old(snackbarOpen) && snackbarSuccess == old(snackbarSuccess)
      ensures response.Failed? ==>
                && availableDishes == old(availableDishes)
                && message == Some("Impossible de charger les plats disponibles.") && snackbarOpen && !snackbarSuccess
    {
      fetchingDishes := true;
      if response.Done? {
        var dishes := UnwrapArray(response.value);
        availableDishes := dishes;
      } else {
        message := Some("Impossible de charger les plats disponibles.");
        snackbarSuccess := false;
        snackbarOpen := true;
      }
      fetchingDishes := false;
    }

    /** `handleDishChange`: only that row's dish changes; choosing a dish clears that row's error. */
    method HandleDishChange(index: int, dishId: int)
      requires 0 <= index < |selectedDishes|
      modifies this`selectedDishes, this`validationErrors
      ensures selectedDishes == old(selectedDishes)[index := old(selectedDishes)[index].(dishId := dishId)]
      ensures dishId > 0 ==> validationErrors == old(validationErrors) - {index}
      ensures dishId <= 0 ==> validationErrors == old(validationErrors)
    {
      var updated := selectedDishes;
      updated := updated[index := updated[index].(dishId := dishId)];
      selectedDishes := updated;
      if dishId > 0 {
        validationErrors := validationErrors - {index};
      }
    }

    /** `handleQuantityChange`: only that row's quantity changes. */
    method HandleQuantityChange(index: int, quantity: int)
      requires 0 <= index < |selectedDishes|
      modifies this`selectedDishes
      ensures selectedDishes == old(selectedDishes)[index := old(selectedDishes)[index].(dishQuantity := quantity)]
    {
      var updated := selectedDishes;
      updated := updated[index := updated[index].(dishQuantity := quantity)];
      selectedDishes := updated;
    }

    /** The quantity field: `parseInt(text) || 1`, so text that is not a number, or 0, gives 1. */
    method HandleQuantityInput(index: int, text: string)
      requires 0 <= index < |selectedDishes|
      modifies this`selectedDishes
      ensures selectedDishes == old(selectedDishes)[index := old(selectedDishes)[index].(dishQuantity := ParseIntOrOne(text))]
      ensures selectedDishes[index].dishQuantity != 0
    {
      HandleQuantityChange(index, ParseIntOrOne(text));
    }

    /** `addDishSelection`: one blank row more at the end. */
    method AddDishSelection()
      modifies this`selectedDishes
      ensures selectedDishes == old(selectedDishes) + [BlankRow]
    {
      selectedDishes := selectedDishes + [BlankRow];
    }

    /** `removeDishSelection`: a row goes only when there are several, with the error under its index. */
    method RemoveDishSelection(index: int)
      requires Valid()
      modifies this`selectedDishes, this`validationErrors
      ensures Valid()
      ensures |old(selectedDishes)| > 1 ==>
                selectedDishes == RemoveAt(old(selectedDishes), index) && validationErrors == old(validationErrors) - {index}
      ensures |old(selectedDishes)| == 1 ==> selectedDishes == old(selectedDishes) && validationErrors == old(validationErrors)
    {
      if |selectedDishes| > 1 {
        RemoveAtSpec(selectedDishes, index);
        selectedDishes := RemoveAt(selectedDishes, index);
        validationErrors := validationErrors - {index};
      }
    }

    /** `validateForm`: one error per row without a dish; valid when some row has one. */
    method ValidateForm() returns (valid: bool)
      modifies this`validationErrors
      ensures validationErrors == RowErrors(selectedDishes)
      ensures valid <==> HasValidDish(selectedDishes)
    {
      var errors: map<int, string> := map[];
      var hasValidDish := false;
      var i := 0;
      while i < |selectedDishes|
        invariant 0 <= i <= |selectedDishes|
        invariant errors == map k | 0 <= k < i && selectedDishes[k].dishId <= 0 :: SelectDishMessage
        invariant hasValidDish <==> exists k | 0 <= k < i :: Chosen(selectedDishes[k])
      {
        if selectedDishes[i].dishId <= 0 {
          errors := errors[i := SelectDishMessage];
        } else {
          hasValidDish := true;
        }
        i := i + 1;
      }
      valid := hasValidDish;
      validationErrors := errors;
    }

    /**
     * `handleSubmit`, given how the POST ended. An invalid form sends nothing. Otherwise
     * the menu of the chosen rows is sent; success shows the confirmation and schedules
     * the parent's `onSuccess` and `onClose`, a failure shows the error text.
     */
    method HandleSubmit(failure: Option<Failure>) returns (sent: Option<MenuDto>, closeScheduled: bool)
      modifies this`validationErrors, this`isLoading, this`message, this`snackbarOpen, this`snackbarSuccess
      ensures validationErrors == RowErrors(selectedDishes)
      ensures !HasValidDish(selectedDishes) ==>
                && sent.None? && !closeScheduled && message == old(message) && isLoading == old(isLoading)
                && snackbarOpen == old(snackbarOpen) && snackbarSuccess == old(snackbarSuccess)
      ensures HasValidDish(selectedDishes) ==> sent == Some(DtoOf(menuDescription, selectedDishes)) && !isLoading && snackbarOpen
      ensures HasValidDish(selectedDishes) && failure.None? ==>
                message == Some("Menu ajouté avec succès !") && snackbarSuccess && closeScheduled
      ensures HasValidDish(selectedDishes) && failure.Some? ==>
                message == Some(SubmitErrorText(failure.value)) && !snackbarSuccess && !closeScheduled
    {
      var valid := ValidateForm();
      if !valid {
        return None, false;
      }
      isLoading := true;
      var validDishes := Filter(selectedDishes, Chosen);
      sent := Some(MenuDto(menuDescription, validDishes));
      if failure.None? {
        message := Some("Menu ajouté avec succès !");
        snackbarSuccess := true;
        closeScheduled := true;
      } else {
        message := Some(SubmitErrorText(failure.value));
        snackbarSuccess := false;
        closeScheduled := false;
      }
      snackbarOpen := true;
      isLoading := false;
    }
  }
}
