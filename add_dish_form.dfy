/**
 * The "new dish" form: its four fields, the two required-field checks, and the
 * multipart body of the POST (a fixed quantity of 1, the salad flag derived from the
 * name, the price with a decimal dot, and the photo only when one was chosen).
 */
module AddDishForm {
  import opened Wrappers
  import opened Text
  import opened Catalog
  import opened Forms

  /** The form's fields: the texts as held in the inputs, and the chosen photo. */
  datatype DishData = DishData(dishName: string, dishDescription: string, dishPrice: string, dishPhoto: Option<File>)

  const EmptyData := DishData("", "", "", None)

  const NameRequired := "Le nom du plat est obligatoire"
  const PriceRequired := "Le prix du plat est obligatoire"
  const AddedMessage := "Plat ajouté avec succès !"
  const AddError := "Erreur lors de l'ajout du plat. Veuillez réessayer."

  /** `handleChange`: the named text field takes the value, the price keeping only digits and commas. */
  function Changed(d: DishData, name: string, value: string): (r: DishData)
    ensures r.dishPhoto == d.dishPhoto
    ensures name == "DishName" ==> r == d.(dishName := value)
    ensures name == "DishDescription" ==> r == d.(dishDescription := value)
    ensures name == "DishPrice" ==> r == d.(dishPrice := KeepPriceChars(value))
    ensures forall i | 0 <= i < |r.dishPrice| :: IsPriceChar(r.dishPrice[i]) || r.dishPrice == d.dishPrice
    ensures name !in {"DishName", "DishDescription", "DishPrice"} ==> r == d
  {
    if name == "DishName" then d.(dishName := value)
    else if name == "DishDescription" then d.(dishDescription := value)
    else if name == "DishPrice" then d.(dishPrice := KeepPriceChars(value))
    else d
  }

  /** Typing the same text twice into a field leaves what the first change left. */
  lemma ChangedIdempotent(d: DishData, name: string, value: string)
    ensures Changed(Changed(d, name, value), name, value) == Changed(d, name, value)
  {
    if name == "DishPrice" {
      KeepPriceCharsIdempotent(value);
    }
  }

  /** The required-field checks of `handleSubmit`, in order: a blank name first, then a blank price. */
  function CheckFields(d: DishData): (error: Option<string>)
    ensures error == Some(NameRequired) <==> AllSpace(d.dishName)
    ensures error == Some(PriceRequired) <==> !AllSpace(d.dishName) && AllSpace(d.dishPrice)
    ensures error.None? <==> !AllSpace(d.dishName) && !AllSpace(d.dishPrice)
  {
    if Trim(d.dishName) == "" then Some(NameRequired)
    else if Trim(d.dishPrice) == "" then Some(PriceRequired)
    else None
  }

  /** A price that went through the sanitiser is blank exactly when it is empty. */
  lemma SanitisedPriceBlank(s: string)
    requires forall i | 0 <= i < |s| :: IsPriceChar(s[i])
    ensures AllSpace(s) <==> s == ""
  {
    if s != "" {
      assert IsPriceChar(s[0]);
      assert !IsSpace(s[0]);
    }
  }

  /** `isSalad.toString()`. */
  function SaladFlag(name: string): (flag: string)
    ensures flag == "true" <==> HasSalade(name)
    ensures flag == "true" || flag == "false"
  {
    if HasSalade(name) then "true" else "false"
  }

  /** The POST body: name, description, quantity "1", the salad flag, the price with a dot, then the photo if chosen. */
  function Payload(d: DishData): FormData {
    [("DishName", Value(d.dishName))]
    + [("DishDescription", Value(d.dishDescription))]
    + [("DishQuantity", Value("1"))]
    + [("IsSalad", Value(SaladFlag(d.dishName)))]
    + [("DishPrice", Value(ReplaceFirst(d.dishPrice, ',', '.')))]
    + (if d.dishPhoto.Some? then [("DishPhoto", Upload(d.dishPhoto.value))] else [])
  }

  /** The entry of the body under any key. */
  lemma PayloadAt(d: DishData, key: string)
    ensures Lookup(Payload(d), key) ==
              if key == "DishName" then Some(Value(d.dishName))
              else if key == "DishDescription" then Some(Value(d.dishDescription))
              else if key == "DishQuantity" then Some(Value("1"))
              else if key == "IsSalad" then Some(Value(SaladFlag(d.dishName)))
              else if key == "DishPrice" then Some(Value(ReplaceFirst(d.dishPrice, ',', '.')))
              else if key == "DishPhoto" && d.dishPhoto.Some? then Some(Upload(d.dishPhoto.value))
              else None
  {
    var a: FormData := [("DishName", Value(d.dishName))];
    var b: FormData := [("DishDescription", Value(d.dishDescription))];
    var c: FormData := [("DishQuantity", Value("1"))];
    var s: FormData := [("IsSalad", Value(SaladFlag(d.dishName)))];
    var p: FormData := [("DishPrice", Value(ReplaceFirst(d.dishPrice, ',', '.')))];
    var ph: FormData := if d.dishPhoto.Some? then [("DishPhoto", Upload(d.dishPhoto.value))] else [];
    assert Payload(d) == a + b + c + s + p + ph;
    LookupAppend(a, b, key);
    LookupAppend(a + b, c, key);
    LookupAppend(a + b + c, s, key);
    LookupAppend(a + b + c + s, p, key);
    LookupAppend(a + b + c + s + p, ph, key);
  }

  /**
   * What the body sends: the quantity is always "1", the salad flag is "true" exactly
   * when the name contains SALADE, the price has its first comma made a dot, and the
   * photo is there exactly when one was chosen.
   */
  lemma PayloadLookup(d: DishData)
    ensures Lookup(Payload(d), "DishQuantity") == Some(Value("1"))
    ensures Lookup(Payload(d), "IsSalad") == Some(Value("true")) <==> HasSalade(d.dishName)
    ensures Lookup(Payload(d), "DishPrice") == Some(Value(ReplaceFirst(d.dishPrice, ',', '.')))
    ensures Has(Payload(d), "DishPhoto") <==> d.dishPhoto.Some?
    ensures d.dishPhoto.Some? ==> Lookup(Payload(d), "DishPhoto") == Some(Upload(d.dishPhoto.value))
  {
    PayloadAt(d, "DishQuantity");
    PayloadAt(d, "IsSalad");
    PayloadAt(d, "DishPrice");
    PayloadAt(d, "DishPhoto");
  }

  /** What a successful POST schedules: the parent's `onSuccess` then the close, the way back to the table, or nothing. */
  datatype AfterAdd = SuccessThenClose | NavigateToTable | NothingScheduled

  /** What closing does after the reset: the parent's `onClose`, going back a page, or nothing. */
  datatype CloseAction = CallOnClose | NavigateBack | NoCloseAction

  /** The form's state. */
  class DishForm {
    var dishData: DishData
    var error: string
    var successMessage: string
    var loading: bool
    var imagePreview: Option<string>

    constructor()
      ensures dishData == EmptyData && error == "" && successMessage == "" && !loading && imagePreview.None?
    {
      dishData, error, successMessage, loading, imagePreview := EmptyData, "", "", false, None;
    }

    method HandleChange(name: string, value: string)
      modifies this`dishData
      ensures dishData == Changed(old(dishData), name, value)
    {
      dishData := Changed(dishData, name, value);
    }

    /** `handleFileChange`: the first chosen file becomes the photo; no file changes nothing. */
    method HandleFileChange(files: seq<File>)
      modifies this`dishData
      ensures |files| > 0 ==> dishData == old(dishData).(dishPhoto := Some(files[0]))
      ensures |files| == 0 ==> dishData == old(dishData)
    {
      if |files| > 0 {
        dishData := dishData.(dishPhoto := Some(files[0]));
      }
    }

    /** The file reader's `onload`: the preview is the data URL read. */
    method PreviewLoaded(dataUrl: string)
      modifies this`imagePreview
      ensures imagePreview == Some(dataUrl)
    {
      imagePreview := Some(dataUrl);
    }

    /** `resetForm`: all four fields, the preview and both messages are cleared. */
    method ResetForm()
      modifies this`dishData, this`imagePreview, this`error, this`successMessage
      ensures dishData == EmptyData && imagePreview.None? && error == "" && successMessage == ""
    {
      dishData := EmptyData;
      imagePreview := None;
      error := "";
      successMessage := "";
    }

    /** `handleClose`: reset, then the parent's `onClose` if there is one, else back a page when standalone. */
    method HandleClose(hasOnClose: bool, isStandalone: bool) returns (action: CloseAction)
      modifies this`dishData, this`imagePreview, this`error, this`successMessage
      ensures dishData == EmptyData && imagePreview.None? && error == "" && successMessage == ""
      ensures action == if hasOnClose then CallOnClose else if isStandalone then NavigateBack else NoCloseAction
    {
      ResetForm();
      if hasOnClose {
        action := CallOnClose;
      } else if isStandalone {
        action := NavigateBack;
      } else {
        action := NoCloseAction;
      }
    }

    /** The `FormData` `handleSubmit` builds, one `append` at a time. */
    method BuildPayload() returns (form: FormData)
      ensures form == Payload(dishData)
    {
      form := [];
      form := form + [("DishName", Value(dishData.dishName))];
      form := form + [("DishDescription", Value(dishData.dishDescription))];
      form := form + [("DishQuantity", Value("1"))];
      form := form + [("IsSalad", Value(SaladFlag(dishData.dishName)))];
      form := form + [("DishPrice", Value(ReplaceFirst(dishData.dishPrice, ',', '.')))];
      if dishData.dishPhoto.Some? {
        form := form + [("DishPhoto", Upload(dishData.dishPhoto.value))];
      }
    }

    /** The part of `handleSubmit` after both checks passed: the POST and what follows it. */
    method Post(succeeded: bool, hasOnSuccess: bool, isStandalone: bool) returns (sent: Option<FormData>, after: AfterAdd)
      requires error == "" && successMessage == ""
      modifies this`dishData, this`imagePreview, this`error, this`successMessage
      ensures sent == Some(Payload(old(dishData)))
      ensures !succeeded ==>
                && after == NothingScheduled && error == AddError && successMessage == ""
                && dishData == old(dishData) && imagePreview == old(imagePreview)
      ensures succeeded && (hasOnSuccess || isStandalone) ==>
                && after == (if hasOnSuccess then SuccessThenClose else NavigateToTable)
                && successMessage == AddedMessage && error == ""
                && dishData == old(dishData) && imagePreview == old(imagePreview)
      ensures succeeded && !hasOnSuccess && !isStandalone ==>
                && after == NothingScheduled
                && dishData == EmptyData && imagePreview.None? && error == "" && successMessage == ""
    {
      var form := BuildPayload();
      sent := Some(form);
      after := NothingScheduled;
      if succeeded {
        successMessage := AddedMessage;
        if hasOnSuccess {
          after := SuccessThenClose;
        } else if isStandalone {
          after := NavigateToTable;
        } else {
          ResetForm();
        }
      } else {
        error := AddError;
      }
    }

    /**
     * `handleSubmit`, given whether the POST succeeded and what the parent passed. A
     * failed check sets its error and sends nothing. After a success the form is reset
     * at once only when there is neither `onSuccess` nor a standalone page, and that
     * reset also clears the success message just set.
     */
    method HandleSubmit(succeeded: bool, hasOnSuccess: bool, isStandalone: bool)
      returns (sent: Option<FormData>, after: AfterAdd)
      modifies this`dishData, this`imagePreview, this`error, this`successMessage, this`loading
      ensures !loading
      ensures CheckFields(old(dishData)).Some? ==>
                && sent.None? && after == NothingScheduled && error == CheckFields(old(dishData)).value
                && successMessage == "" && dishData == old(dishData) && imagePreview == old(imagePreview)
      ensures CheckFields(old(dishData)).None? ==> sent == Some(Payload(old(dishData)))
      ensures CheckFields(old(dishData)).None? && !succeeded ==>
                && after == NothingScheduled && error == AddError && successMessage == ""
                && dishData == old(dishData) && imagePreview == old(imagePreview)
      ensures CheckFields(old(dishData)).None? && succeeded && (hasOnSuccess || isStandalone) ==>
                && after == (if hasOnSuccess then SuccessThenClose else NavigateToTable)
                && successMessage == AddedMessage && error == ""
                && dishData == old(dishData) && imagePreview == old(imagePreview)
      ensures CheckFields(old(dishData)).None? && succeeded && !hasOnSuccess && !isStandalone ==>
                && after == NothingScheduled
                && dishData == EmptyData && imagePreview.None? && error == "" && successMessage == ""
    {
      var check := CheckFields(dishData);
      error := "";
      successMessage := "";
      loading := true;
      if check.Some? {
        error := check.value;
        loading := false;
        return None, NothingScheduled;
      }
      sent, after := Post(succeeded, hasOnSuccess, isStandalone);
      loading := false;
    }
  }
}
