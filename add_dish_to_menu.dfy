/**
 * The "add dishes to a menu" dialog: the search over the available dishes and the
 * selection, a map from dish id to quantity, that the dish buttons and the plus and
 * minus buttons edit and that the submit button sends.
 */
module AddDishToMenu {
  import opened Wrappers
  import opened Text
  import opened Seqs
  import opened Http
  import opened Catalog

  /** The selection: dish id to quantity. */
  type Selection = map<int, int>

  /** Every stored quantity is positive. */
  predicate Positive(sel: Selection) { forall id | id in sel :: sel[id] > 0 }

  /** The search effect: a blank term shows every dish; otherwise name or description must contain the lower-cased term. */
  function SearchDishes(dishes: seq<Dish>, term: string): seq<Dish> {
    if Trim(term) == "" then dishes else Filter(dishes, (d: Dish) => MatchesSearch(d, ToLower(term)))
  }

  /** A dish is shown exactly when it is available and the term is blank or matches it. */
  lemma SearchDishesSpec(dishes: seq<Dish>, term: string, d: Dish)
    ensures d in SearchDishes(dishes, term) <==> d in dishes && (AllSpace(term) || MatchesSearch(d, ToLower(term)))
    ensures multiset(SearchDishes(dishes, term))[d] ==
              if AllSpace(term) || MatchesSearch(d, ToLower(term)) then multiset(dishes)[d] else 0
  {
    if !AllSpace(term) {
      FilterMembership(dishes, (x: Dish) => MatchesSearch(x, ToLower(term)), d);
      FilterCounts(dishes, (x: Dish) => MatchesSearch(x, ToLower(term)), d);
    }
  }

  /** `isAlreadyInMenu`: some dish of the menu has that id. */
  predicate InMenu(menuDishes: seq<Dish>, dishId: int) {
    exists i | 0 <= i < |menuDishes| :: menuDishes[i].dishId == dishId
  }

  /** `handleQuantityChange`: a quantity <= 0 removes the entry, a positive one is stored. */
  function SetQuantity(sel: Selection, dishId: int, q: int): (r: Selection)
    ensures q <= 0 ==> dishId !in r
    ensures q > 0 ==> dishId in r && r[dishId] == q
    ensures forall id | id != dishId :: (id in r <==> id in sel) && (id in r ==> r[id] == sel[id])
    ensures Positive(sel) ==> Positive(r)
  {
    if q <= 0 then sel - {dishId} else sel[dishId := q]
  }

  /** `selectedDishes.get(id) || 1`: a missing (or zero) entry counts as 1. */
  function Current(sel: Selection, dishId: int): int {
    if dishId in sel && sel[dishId] != 0 then sel[dishId] else 1
  }

  /** `handleDishClick`: a dish of the menu is ignored; otherwise a selected dish is dropped and another is added with quantity 1. */
  function Clicked(sel: Selection, menuDishes: seq<Dish>, dishId: int): (r: Selection)
    ensures InMenu(menuDishes, dishId) ==> r == sel
    ensures !InMenu(menuDishes, dishId) && dishId in sel ==> r == sel - {dishId}
    ensures !InMenu(menuDishes, dishId) && dishId !in sel ==> r == sel[dishId := 1]
    ensures Positive(sel) ==> Positive(r)
  {
    if InMenu(menuDishes, dishId) then sel
    else if dishId in sel then sel - {dishId}
    else sel[dishId := 1]
  }

  /** `incrementQuantity`. */
  function Incremented(sel: Selection, dishId: int): (r: Selection)
    ensures Positive(sel) ==> dishId in r && r[dishId] == (if dishId in sel then sel[dishId] + 1 else 2)
    ensures forall id | id != dishId :: (id in r <==> id in sel) && (id in r ==> r[id] == sel[id])
  {
    SetQuantity(sel, dishId, Current(sel, dishId) + 1)
  }

  /** `decrementQuantity`: above 1 the quantity goes down by one; at 1 (or missing) the entry goes. */
  function Decremented(sel: Selection, dishId: int): (r: Selection)
    ensures Current(sel, dishId) > 1 ==> dishId in r && r[dishId] == Current(sel, dishId) - 1
    ensures Current(sel, dishId) <= 1 ==> dishId !in r
    ensures forall id | id != dishId :: (id in r <==> id in sel) && (id in r ==> r[id] == sel[id])
  {
    var q := Current(sel, dishId);
    if q > 1 then SetQuantity(sel, dishId, q - 1) else sel - {dishId}
  }

  /** Decrementing never stores a zero: positive selections stay positive under every handler. */
  lemma HandlersKeepPositive(sel: Selection, menuDishes: seq<Dish>, dishId: int, q: int)
    requires Positive(sel)
    ensures Positive(Clicked(sel, menuDishes, dishId))
    ensures Positive(SetQuantity(sel, dishId, q))
    ensures Positive(Incremented(sel, dishId))
    ensures Positive(Decremented(sel, dishId))
  {
    var inc := Incremented(sel, dishId);
    assert forall id | id in inc :: inc[id] > 0 by {
      forall id | id in inc
        ensures inc[id] > 0
      {
        if id != dishId {
          assert inc[id] == sel[id];
        }
      }
    }
  }

  /** Clicking an unselected dish outside the menu twice gives the selection back. */
  lemma ClickTwice(sel: Selection, menuDishes: seq<Dish>, dishId: int)
    requires dishId !in sel
    ensures Clicked(Clicked(sel, menuDishes, dishId), menuDishes, dishId) == sel
  {
  }

  /** Plus then minus restores a selected entry. */
  lemma IncrementThenDecrement(sel: Selection, dishId: int)
    requires Positive(sel) && dishId in sel
    ensures Decremented(Incremented(sel, dishId), dishId) == sel
  {
    var r := Decremented(Incremented(sel, dishId), dishId);
    assert r.Keys == sel.Keys;
  }

  /** Plus on a dish that is not selected stores 2, not 1: the missing entry is read as 1 first. */
  lemma IncrementAbsent(sel: Selection, dishId: int)
    requires dishId !in sel
    ensures Incremented(sel, dishId)[dishId] == 2
    ensures Decremented(Incremented(sel, dishId), dishId) == sel[dishId := 1]
  {
    var r := Decremented(Incremented(sel, dishId), dishId);
    assert r.Keys == sel[dishId := 1].Keys;
  }

  const EmptySelectionMessage := "Veuillez sélectionner au moins un plat à ajouter au menu."
  const AlreadyInMenuMessage := "Ce plat existe déjà dans le menu."
  const AddFailedMessage := "Une erreur s'est produite lors de l'ajout des plats au menu."

  /** The message of a rejected `Promise.all`: a first rejection with status 400 means the dish is already there. */
  function SubmitErrorMessage(f: Failure): (msg: string)
    ensures msg == AlreadyInMenuMessage <==> f.AxiosError? && f.response.Some? && f.response.value.status == 400
    ensures msg != AlreadyInMenuMessage ==> msg == AddFailedMessage
  {
    if f.AxiosError? && f.response.Some? && f.response.value.status == 400 then AlreadyInMenuMessage else AddFailedMessage
  }

  /** What the parent hears, in order. */
  datatype Callback = OnSuccess | OnClose

  /** The dialog's state. */
  class AddDishToMenuDialog {
    var availableDishes: seq<Dish>
    var filteredDishes: seq<Dish>
    var menuDishes: seq<Dish>
    var selected: Selection
    var searchTerm: string
    var loading: bool
    var submitting: bool
    var error: string

    constructor()
      ensures availableDishes == [] && filteredDishes == [] && menuDishes == [] && selected == map[]
      ensures searchTerm == "" && loading && !submitting && error == ""
    {
      availableDishes, filteredDishes, menuDishes, selected := [], [], [], map[];
      searchTerm, loading, submitting, error := "", true, false, "";
    }

    /** The open effect: the selection is emptied (the two fetches follow). */
    method Open()
      modifies this`selected
      ensures selected == map[]
    {
      selected := map[];
    }

    /**
     * `fetchAvailableDishes`, given how the GET ended: `$values ?? body` becomes both
     * lists. A `null` body throws on reading `$values`, like a failed request.
     */
    method FetchAvailableDishes(response: Outcome<ListBody<Dish>>)
      modifies this`availableDishes, this`filteredDishes, this`error, this`loading
      ensures !loading
      ensures response.Done? && !response.value.NullList? ==>
                && availableDishes == response.value.items && filteredDishes == response.value.items
                && error == old(error)
      ensures response.Failed? || response.value.NullList? ==>
                && availableDishes == old(availableDishes) && filteredDishes == old(filteredDishes)
                && error == "Impossible de charger la liste des plats disponibles."
    {
      loading := true;
      var fetched := if response.Done? then Unwrapped(response.value) else Failed(response.failure);
      if fetched.Done? {
        availableDishes := fetched.value;
        filteredDishes := fetched.value;
      } else {
        error := "Impossible de charger la liste des plats disponibles.";
      }
      loading := false;
    }

    /**
     * `fetchMenuDishes`: the dishes already in the menu (`$values ?? body`), or an error
     * by kind of failure. The `TypeError` of a `null` body is not an axios error.
     */
    method FetchMenuDishes(response: Outcome<ListBody<Dish>>)
      modifies this`menuDishes, this`error
      ensures response.Done? && !response.value.NullList? ==> menuDishes == response.value.items && error == old(error)
      ensures response.Failed? && response.failure.AxiosError? ==>
                menuDishes == old(menuDishes) && error == "Impossible de charger les plats du menu. Vérifiez que l'ID du menu est valide."
      ensures (response.Failed? && !response.failure.AxiosError?) || (response.Done? && response.value.NullList?) ==>
                menuDishes == old(menuDishes) && error == "Une erreur inconnue est survenue."
    {
      var fetched := if response.Done? then Unwrapped(response.value) else Failed(response.failure);
      if fetched.Done? {
        menuDishes := fetched.value;
      } else if fetched.failure.AxiosError? {
        error := "Impossible de charger les plats du menu. Vérifiez que l'ID du menu est valide.";
      } else {
        error := "Une erreur inconnue est survenue.";
      }
    }

    /** The search effect, run when the term or the available dishes change. */
    method RecomputeView()
      modifies this`filteredDishes
      ensures filteredDishes == SearchDishes(availableDishes, searchTerm)
    {
      if Trim(searchTerm) == "" {
        filteredDishes := availableDishes;
        return;
      }
      var term := ToLower(searchTerm);
      filteredDishes := Filter(availableDishes, (d: Dish) => MatchesSearch(d, term));
    }

    method HandleDishClick(dishId: int)
      modifies this`selected
      ensures selected == Clicked(old(selected), menuDishes, dishId)
    {
      if InMenu(menuDishes, dishId) {
        return;
      }
      var updated := selected;
      if dishId in updated {
        updated := updated - {dishId};
      } else {
        updated := updated[dishId := 1];
      }
      selected := updated;
    }

    method HandleQuantityChange(dishId: int, newQuantity: int)
      modifies this`selected
      ensures selected == SetQuantity(old(selected), dishId, newQuantity)
    {
      var updated := selected;
      if newQuantity <= 0 {
        updated := updated - {dishId};
      } else {
        updated := updated[dishId := newQuantity];
      }
      selected := updated;
    }

    method IncrementQuantity(dishId: int)
      modifies this`selected
      ensures selected == Incremented(old(selected), dishId)
    {
      var current := Current(selected, dishId);
      HandleQuantityChange(dishId, current + 1);
    }

    method DecrementQuantity(dishId: int)
      modifies this`selected
      ensures selected == Decremented(old(selected), dishId)
    {
      var current := Current(selected, dishId);
      if current > 1 {
        HandleQuantityChange(dishId, current - 1);
      } else {
        var updated := selected;
        updated := updated - {dishId};
        selected := updated;
      }
    }

    /** The submit button is enabled only when not submitting and something is selected. */
    predicate SubmitEnabled()
      reads this
    {
      !submitting && |selected| > 0
    }

    /** The POSTs `handleSubmit` sends: one per selected dish, with its quantity. */
    method BeginSubmit() returns (requests: Selection)
      modifies this`error, this`submitting
      ensures |old(selected)| == 0 ==> requests == map[] && error == EmptySelectionMessage && submitting == old(submitting)
      ensures |old(selected)| > 0 ==> requests == selected && error == "" && submitting
      ensures old(SubmitEnabled()) ==> requests != map[] && error == ""
    {
      if |selected| == 0 {
        error := EmptySelectionMessage;
        return map[];
      }
      submitting := true;
      error := "";
      requests := selected;
    }

    /**
     * The rest of `handleSubmit`, once `Promise.all` has settled (`failure` is its first
     * rejection, if any): success tells the parent, first `onSuccess` then `onClose`.
     */
    method FinishSubmit(failure: Option<Failure>) returns (calls: seq<Callback>)
      modifies this`error, this`submitting
      ensures !submitting
      ensures failure.None? ==> calls == [OnSuccess, OnClose] && error == old(error)
      ensures failure.Some? ==> calls == [] && error == SubmitErrorMessage(failure.value)
    {
      if failure.None? {
        calls := [OnSuccess, OnClose];
      } else {
        calls := [];
        error := SubmitErrorMessage(failure.value);
      }
      submitting := false;
    }
  }
}
