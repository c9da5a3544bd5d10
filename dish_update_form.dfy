/**
 * The dish edit form: loading the dish into the text fields, tracking which fields the
 * user touched, and sending only those (and the photo, if one was chosen) in the PATCH.
 */
module DishUpdateForm {
  import opened Wrappers
  import opened Text
  import opened Http
  import opened Forms

  /** The dish as the API sends it; every field but the id may be missing. */
  datatype DishDto = DishDto(dishId: int, dishName: Option<string>, dishDescription: Option<string>,
                             dishPrice: Option<real>, dishPhoto: Option<string>)

  /** The body of the GET: an object with a `$values` array, or the dish itself. */
  datatype DishBody = Values(values: seq<DishDto>) | Plain(dto: DishDto)

  /** The text fields of the form; the price is the text shown, with a decimal comma. */
  datatype DishFields = DishFields(dishId: int, dishName: string, dishDescription: string, dishPrice: string)

  /** `formatPriceForBackend`: the first comma becomes a dot. */
  function PriceForBackend(price: string): (r: string)
    ensures |r| == |price|
    ensures forall j | 0 <= j < |price| && j != IndexOf(price, ',') :: r[j] == price[j]
    ensures IndexOf(price, ',') < |price| ==> r[IndexOf(price, ',')] == '.'
  {
    ReplaceFirst(price, ',', '.')
  }

  /** `formatPriceForDisplay`, given `price.toString()`: the first dot becomes a comma. */
  function PriceForDisplay(rendered: string): string { ReplaceFirst(rendered, '.', ',') }

  /** The dish the GET names: the first of `$values`, or the body itself; an empty `$values` names none. */
  function FetchedDto(body: DishBody): Option<DishDto> {
    match body
    case Values(vs) => if |vs| > 0 then Some(vs[0]) else None
    case Plain(dto) => Some(dto)
  }

  /** The fields filled from a fetched dish: missing texts are empty, a missing price shows as 0. */
  function FieldsOf(dto: DishDto, render: real -> string): DishFields {
    DishFields(dto.dishId, dto.dishName.GetOr(""), dto.dishDescription.GetOr(""),
               PriceForDisplay(render(dto.dishPrice.GetOr(0.0))))
  }

  const FieldNames: set<string> := {"dishName", "dishDescription", "dishPrice"}

  /** The PATCH body: each touched text field (the price with a decimal dot), then the photo if one was chosen. */
  function Payload(d: DishFields, changed: set<string>, photo: Option<File>): FormData {
    (if "dishName" in changed then [("dishName", Value(d.dishName))] else [])
    + (if "dishDescription" in changed then [("dishDescription", Value(d.dishDescription))] else [])
    + (if "dishPrice" in changed then [("dishPrice", Value(PriceForBackend(d.dishPrice)))] else [])
    + (if photo.Some? then [("Photo", Upload(photo.value))] else [])
  }

  /** The entry of the body under any key. */
  lemma PayloadAt(d: DishFields, changed: set<string>, photo: Option<File>, key: string)
    ensures Lookup(Payload(d, changed, photo), key) ==
              if key == "dishName" && key in changed then Some(Value(d.dishName))
              else if key == "dishDescription" && key in changed then Some(Value(d.dishDescription))
              else if key == "dishPrice" && key in changed then Some(Value(PriceForBackend(d.dishPrice)))
              else if key == "Photo" && photo.Some? then Some(Upload(photo.value))
              else None
  {
    var n: FormData := if "dishName" in changed then [("dishName", Value(d.dishName))] else [];
    var ds: FormData := if "dishDescription" in changed then [("dishDescription", Value(d.dishDescription))] else [];
    var pr: FormData := if "dishPrice" in changed then [("dishPrice", Value(PriceForBackend(d.dishPrice)))] else [];
    var ph: FormData := if photo.Some? then [("Photo", Upload(photo.value))] else [];
    assert Payload(d, changed, photo) == n + ds + pr + ph;
    LookupAppend(n, ds, key);
    LookupAppend(n + ds, pr, key);
    LookupAppend(n + ds + pr, ph, key);
  }

  /** What the body sends under each key: the texts as typed, the price with its comma made a dot, the chosen file. */
  lemma PayloadLookup(d: DishFields, changed: set<string>, photo: Option<File>)
    ensures Lookup(Payload(d, changed, photo), "dishName") == if "dishName" in changed then Some(Value(d.dishName)) else None
    ensures Lookup(Payload(d, changed, photo), "dishDescription") ==
              if "dishDescription" in changed then Some(Value(d.dishDescription)) else None
    ensures Lookup(Payload(d, changed, photo), "dishPrice") ==
              if "dishPrice" in changed then Some(Value(PriceForBackend(d.dishPrice))) else None
    ensures Lookup(Payload(d, changed, photo), "Photo") == if photo.Some? then Some(Upload(photo.value)) else None
  {
    PayloadAt(d, changed, photo, "dishName");
    PayloadAt(d, changed, photo, "dishDescription");
    PayloadAt(d, changed, photo, "dishPrice");
    PayloadAt(d, changed, photo, "Photo");
  }

  /** The body has no key besides the three field names and "Photo", and at most four entries. */
  lemma PayloadKeys(d: DishFields, changed: set<string>, photo: Option<File>, key: string)
    ensures Has(Payload(d, changed, photo), key) ==> key in FieldNames || key == "Photo"
    ensures |Payload(d, changed, photo)| <= 4
  {
    PayloadAt(d, changed, photo, key);
  }

  /** Price text that went through the sanitiser comes back unchanged from the server's decimal dot. */
  lemma SanitisedPriceRoundTrip(typed: string)
    ensures PriceForDisplay(PriceForBackend(KeepPriceChars(typed))) == KeepPriceChars(typed)
  {
    PriceTextRoundTrip(KeepPriceChars(typed));
  }

  const LoadError := "Erreur lors du chargement des données du plat."
  const UpdatedMessage := "Plat mis à jour avec succès !"
  const UpdateError := "Erreur lors de la mise à jour du plat. Veuillez réessayer."

  /** The form's state, for the dish `dishId` it was opened on. */
  class UpdateForm {
    const dishId: int
    var dishData: DishFields
    var dishPhoto: Option<File>
    var loading: bool
    var fetchLoading: bool
    var error: string
    var successMessage: string
    var imagePreview: Option<string>
    var originalImageUrl: Option<string>
    var fieldsChanged: set<string>

    constructor(id: int)
      ensures dishId == id && dishData == DishFields(id, "", "", "") && dishPhoto.None?
      ensures !loading && fetchLoading && error == "" && successMessage == ""
      ensures imagePreview.None? && originalImageUrl.None? && fieldsChanged == {}
    {
      dishId, dishData, dishPhoto := id, DishFields(id, "", "", ""), None;
      loading, fetchLoading, error, successMessage := false, true, "", "";
      imagePreview, originalImageUrl, fieldsChanged := None, None, {};
    }

    /** The open effect: nothing is touched yet (the fetch follows). */
    method Open()
      modifies this`fieldsChanged
      ensures fieldsChanged == {}
      ensures SubmitDisabled()
    {
      fieldsChanged := {};
    }

    /**
     * `fetchDishData`, given how the GET ended and `toString` on numbers. A dish fills the
     * fields and, when it has a photo, the original image; a failure, or an empty
     * `$values` (whose first element is undefined), only sets the error.
     */
    method FetchDishData(response: Outcome<DishBody>, render: real -> string)
      modifies this`fetchLoading, this`dishData, this`originalImageUrl, this`error
      ensures !fetchLoading
      ensures response.Done? && FetchedDto(response.value).Some? ==>
                var dto := FetchedDto(response.value).value;
                && dishData == FieldsOf(dto, render)
                && originalImageUrl == (if dto.dishPhoto.Some? && dto.dishPhoto.value != "" then dto.dishPhoto else old(originalImageUrl))
                && error == old(error)
      ensures response.Failed? || FetchedDto(response.value).None? ==>
                dishData == old(dishData) && originalImageUrl == old(originalImageUrl) && error == LoadError
    {
      fetchLoading := true;
      var dto := if response.Done? then FetchedDto(response.value) else None;
      if dto.Some? {
        dishData := FieldsOf(dto.value, render);
        if dto.value.dishPhoto.Some? && dto.value.dishPhoto.value != "" {
          originalImageUrl := dto.value.dishPhoto;
        }
      } else {
        error := LoadError;
      }
      fetchLoading := false;
    }

    /** `handleChange`: the field is marked touched; the price keeps only digits and commas, the others are stored as typed. */
    method HandleChange(name: string, value: string)
      modifies this`fieldsChanged, this`dishData
      ensures fieldsChanged == old(fieldsChanged) + {name}
      ensures SubmitDisabled() <==> loading
      ensures name == "dishPrice" ==> dishData == old(dishData).(dishPrice := KeepPriceChars(value))
      ensures name == "dishName" ==> dishData == old(dishData).(dishName := value)
      ensures name == "dishDescription" ==> dishData == old(dishData).(dishDescription := value)
      ensures name !in FieldNames ==> dishData == old(dishData)
    {
      fieldsChanged := fieldsChanged + {name};
      if name == "dishPrice" {
        dishData := dishData.(dishPrice := KeepPriceChars(value));
      } else if name == "dishName" {
        dishData := dishData.(dishName := value);
      } else if name == "dishDescription" {
        dishData := dishData.(dishDescription := value);
      }
    }

    /** `handleFileChange`: the first chosen file is stored and the photo marked touched; no files, no change. */
    method HandleFileChange(files: seq<File>)
      modifies this`dishPhoto, this`fieldsChanged
      ensures |files| > 0 ==> dishPhoto == Some(files[0]) && fieldsChanged == old(fieldsChanged) + {"Photo"}
      ensures |files| == 0 ==> dishPhoto == old(dishPhoto) && fieldsChanged == old(fieldsChanged)
    {
      if |files| > 0 {
        dishPhoto := Some(files[0]);
        fieldsChanged := fieldsChanged + {"Photo"};
      }
    }

    /** The `FileReader`'s `onload`: the preview shows the data URL. */
    method PreviewLoaded(dataUrl: string)
      modifies this`imagePreview
      ensures imagePreview == Some(dataUrl)
    {
      imagePreview := Some(dataUrl);
    }

    /** `resetForm` (and `handleClose`, which calls it): everything but the dish id is cleared. */
    method ResetForm()
      modifies this`dishData, this`dishPhoto, this`imagePreview, this`originalImageUrl, this`error,
               this`successMessage, this`fieldsChanged
      ensures dishData == DishFields(dishId, "", "", "") && dishPhoto.None?
      ensures imagePreview.None? && originalImageUrl.None? && error == "" && successMessage == "" && fieldsChanged == {}
    {
      dishData := DishFields(dishId, "", "", "");
      dishPhoto := None;
      imagePreview := None;
      originalImageUrl := None;
      error := "";
      successMessage := "";
      fieldsChanged := {};
    }

    /** The submit button is disabled while saving or while nothing was touched. */
    predicate SubmitDisabled()
      reads this
    {
      loading || |fieldsChanged| == 0
    }

    /** The `FormData` `handleSubmit` builds, one conditional `append` at a time. */
    method BuildPayload() returns (form: FormData)
      ensures form == Payload(dishData, fieldsChanged, dishPhoto)
    {
      form := [];
      if "dishName" in fieldsChanged {
        form := form + [("dishName", Value(dishData.dishName))];
      }
      if "dishDescription" in fieldsChanged {
        form := form + [("dishDescription", Value(dishData.dishDescription))];
      }
      if "dishPrice" in fieldsChanged {
        form := form + [("dishPrice", Value(PriceForBackend(dishData.dishPrice)))];
      }
      if dishPhoto.Some? {
        form := form + [("Photo", Upload(dishPhoto.value))];
      }
    }

    /**
     * `handleSubmit`, given whether the PATCH succeeded and whether the parent passed
     * `onSuccess`. Returns the body sent and whether the delayed `onSuccess` and close
     * were scheduled.
     */
    method HandleSubmit(succeeded: bool, hasOnSuccess: bool) returns (form: FormData, closeScheduled: bool)
      modifies this`error, this`successMessage, this`loading
      ensures form == Payload(dishData, fieldsChanged, dishPhoto)
      ensures !loading
      ensures succeeded ==> successMessage == UpdatedMessage && error == "" && closeScheduled == hasOnSuccess
      ensures !succeeded ==> error == UpdateError && successMessage == "" && !closeScheduled
    {
      error := "";
      successMessage := "";
      loading := true;
      form := BuildPayload();
      if succeeded {
        successMessage := UpdatedMessage;
        closeScheduled := hasOnSuccess;
      } else {
        error := UpdateError;
        closeScheduled := false;
      }
      loading := false;
    }
  }
}
