/**
 * The rules the profile screens share: the email and phone patterns written out by
 * hand, the password length and match rules, the upload limits, the profile picture
 * URL, and the multipart body of the profile update. Also the profile form whose
 * state and checks the profile editor and the user page's edit panel both have.
 */
module ProfileRules {
  import opened Wrappers
  import opened Text
  import opened Http
  import opened Forms

  const ServerUrl := "http://localhost:5180"

  // ----- the email pattern `/\S+@\S+\.\S+/`, unanchored -----

  /** No white space in `s[a..b]`. */
  predicate NoSpaceIn(s: string, a: int, b: int)
    requires 0 <= a <= b <= |s|
  {
    forall k | a <= k < b :: !IsSpace(s[k])
  }

  /**
   * A match of the email pattern with its `@` at `p` and its `.` at `q`: a non-space
   * before the `@`, one or more non-space characters between `@` and `.`, and a
   * non-space after the `.` (each `\S+` needs one character next to the separator).
   */
  predicate EmailAt(s: string, p: int, q: int) {
    && 1 <= p && p + 2 <= q && q + 1 < |s|
    && !IsSpace(s[p - 1]) && s[p] == '@' && NoSpaceIn(s, p + 1, q) && s[q] == '.' && !IsSpace(s[q + 1])
  }

  /** `/\S+@\S+\.\S+/.test(s)`: the pattern matches somewhere in `s`. */
  predicate EmailLike(s: string) {
    exists p, q | 0 <= p < q < |s| :: EmailAt(s, p, q)
  }

  /** The pattern is not anchored: text around a matching string keeps it matching. */
  lemma EmailLikeInContext(x: string, s: string, y: string)
    requires EmailLike(s)
    ensures EmailLike(x + s + y)
  {
    var p, q :| 0 <= p < q < |s| && EmailAt(s, p, q);
    var t := x + s + y;
    forall k | 0 <= k < |s|
      ensures t[|x| + k] == s[k]
    {
    }
    assert NoSpaceIn(t, |x| + p + 1, |x| + q) by {
      forall k | |x| + p + 1 <= k < |x| + q
        ensures !IsSpace(t[k])
      {
        assert t[k] == s[k - |x|];
      }
    }
    assert EmailAt(t, |x| + p, |x| + q);
  }

  /** A matching string has an `@`, a `.` after it, and at least five characters. */
  lemma EmailLikeShape(s: string)
    requires EmailLike(s)
    ensures |s| >= 5
    ensures exists p, q | 0 <= p < q < |s| :: s[p] == '@' && s[q] == '.'
  {
    var p, q :| 0 <= p < q < |s| && EmailAt(s, p, q);
  }

  /** Any three non-empty runs of non-space characters joined by `@` and `.` match. */
  lemma EmailLikeOfParts(x: string, y: string, z: string)
    requires x != "" && y != "" && z != ""
    requires NoSpaceIn(x, 0, |x|) && NoSpaceIn(y, 0, |y|) && NoSpaceIn(z, 0, |z|)
    ensures EmailLike(x + "@" + y + "." + z)
  {
    var s := x + "@" + y + "." + z;
    var p, q := |x|, |x| + 1 + |y|;
    assert s[p - 1] == x[|x| - 1];
    assert s[p] == '@';
    assert NoSpaceIn(s, p + 1, q) by {
      forall k | p + 1 <= k < q
        ensures !IsSpace(s[k])
      {
        assert s[k] == y[k - p - 1];
      }
    }
    assert s[q] == '.';
    assert s[q + 1] == z[0];
    assert EmailAt(s, p, q);
  }

  // ----- the phone pattern `/^[0-9+\s()-]{8,15}$/` -----

  predicate IsPhoneChar(c: char) {
    IsDigit(c) || c == '+' || IsSpace(c) || c == '(' || c == ')' || c == '-'
  }

  /** The whole string is 8 to 15 characters, each a digit, `+`, white space, a parenthesis or `-`. */
  predicate PhoneLike(s: string) {
    8 <= |s| <= 15 && forall i | 0 <= i < |s| :: IsPhoneChar(s[i])
  }

  // ----- the field checks of `validateForm` -----

  const EmailRequired := "L'adresse email est requise"
  const EmailInvalid := "Adresse email invalide"
  const PhoneInvalid := "Numéro de téléphone invalide"
  const PasswordTooShort := "Le mot de passe doit contenir au moins 6 caractères"
  const PasswordMismatch := "Les mots de passe ne correspondent pas"

  /** The email check: required, then the pattern. */
  function EmailError(email: string): (e: Option<string>)
    ensures e == Some(EmailRequired) <==> email == ""
    ensures e == Some(EmailInvalid) <==> email != "" && !EmailLike(email)
    ensures e.None? <==> EmailLike(email)
  {
    if email == "" then Some(EmailRequired)
    else if !EmailLike(email) then Some(EmailInvalid)
    else None
  }

  /** The phone check: an empty phone passes, any other must match the pattern. */
  function PhoneError(phone: string): (e: Option<string>)
    ensures e.None? <==> phone == "" || PhoneLike(phone)
    ensures e.Some? ==> e.value == PhoneInvalid
  {
    if phone != "" && !PhoneLike(phone) then Some(PhoneInvalid) else None
  }

  /** The password check: an empty password passes; otherwise at least six characters, then equal to the confirmation. */
  function PasswordError(password: string, confirm: string): (e: Option<string>)
    ensures e == Some(PasswordTooShort) <==> 0 < |password| < 6
    ensures e == Some(PasswordMismatch) <==> |password| >= 6 && password != confirm
    ensures e.None? <==> password == "" || (|password| >= 6 && password == confirm)
  {
    if password != "" && |password| < 6 then Some(PasswordTooShort)
    else if password != "" && password != confirm then Some(PasswordMismatch)
    else None
  }

  /** The form is valid when none of the three checks reports an error. */
  predicate ProfileValid(email: string, phone: string, password: string, confirm: string) {
    EmailError(email).None? && PhoneError(phone).None? && PasswordError(password, confirm).None?
  }

  // ----- uploads and pictures -----

  const MaxUploadBytes := 5 * 1024 * 1024
  const NotAnImage := "Veuillez sélectionner une image valide"
  const UploadTooLarge := "L'image ne doit pas dépasser 5MB"

  /** `type.match("image.*")`: the MIME type contains `image` anywhere. */
  predicate IsImageType(mimeType: string) { Contains(mimeType, "image") }

  /** The upload check: the type first, then the size (at most 5 MiB). */
  function UploadError(f: File): (e: Option<string>)
    ensures e == Some(NotAnImage) <==> !IsImageType(f.mimeType)
    ensures e == Some(UploadTooLarge) <==> IsImageType(f.mimeType) && f.size > 5242880
    ensures e.None? <==> IsImageType(f.mimeType) && f.size <= 5242880
  {
    if !IsImageType(f.mimeType) then Some(NotAnImage)
    else if f.size > MaxUploadBytes then Some(UploadTooLarge)
    else None
  }

  /** The stored picture name as a URL under the server's uploads; an empty name or the text "null" gives the default. */
  function PictureUrl(name: Option<string>, default: string): (url: string)
    ensures name.None? || name.value == "" || name.value == "null" ==> url == default
    ensures name.Some? && name.value != "" && name.value != "null" ==> url == ServerUrl + "/uploads/" + name.value
  {
    if name.Some? && name.value != "" && name.value != "null" then ServerUrl + "/uploads/" + name.value else default
  }

  // ----- the update body -----

  /**
   * The PATCH body: the two names, the email and the phone, then the user id where
   * the screen sends one, the new password if one was typed, and the chosen picture.
   */
  function ProfilePayload(firstName: string, lastName: string, email: string, phone: string,
                          userId: Option<string>, password: string, file: Option<File>): FormData
  {
    [("firstName", Value(firstName))]
    + [("lastName", Value(lastName))]
    + [("emailAddress", Value(email))]
    + [("phoneNumber", Value(phone))]
    + (if userId.Some? then [("UserId", Value(userId.value))] else [])
    + (if password != "" then [("updatedPassword", Value(password))] else [])
    + (if file.Some? then [("profilePicture", Upload(file.value))] else [])
  }

  /** The entry of the body under any key. */
  lemma ProfilePayloadAt(firstName: string, lastName: string, email: string, phone: string,
                         userId: Option<string>, password: string, file: Option<File>, key: string)
    ensures Lookup(ProfilePayload(firstName, lastName, email, phone, userId, password, file), key) ==
              if key == "firstName" then Some(Value(firstName))
              else if key == "lastName" then Some(Value(lastName))
              else if key == "emailAddress" then Some(Value(email))
              else if key == "phoneNumber" then Some(Value(phone))
              else if key == "UserId" && userId.Some? then Some(Value(userId.value))
              else if key == "updatedPassword" && password != "" then Some(Value(password))
              else if key == "profilePicture" && file.Some? then Some(Upload(file.value))
              else None
  {
    var a: FormData := [("firstName", Value(firstName))];
    var b: FormData := [("lastName", Value(lastName))];
    var c: FormData := [("emailAddress", Value(email))];
    var d: FormData := [("phoneNumber", Value(phone))];
    var u: FormData := if userId.Some? then [("UserId", Value(userId.value))] else [];
    var w: FormData := if password != "" then [("updatedPassword", Value(password))] else [];
    var f: FormData := if file.Some? then [("profilePicture", Upload(file.value))] else [];
    assert ProfilePayload(firstName, lastName, email, phone, userId, password, file) == a + b + c + d + u + w + f;
    LookupAppend(a, b, key);
    LookupAppend(a + b, c, key);
    LookupAppend(a + b + c, d, key);
    LookupAppend(a + b + c + d, u, key);
    LookupAppend(a + b + c + d + u, w, key);
    LookupAppend(a + b + c + d + u + w, f, key);
  }

  /** The optional entries: the user id, the password and the picture are sent exactly when given. */
  lemma ProfilePayloadOptional(firstName: string, lastName: string, email: string, phone: string,
                               userId: Option<string>, password: string, file: Option<File>)
    ensures var form := ProfilePayload(firstName, lastName, email, phone, userId, password, file);
            && (Has(form, "UserId") <==> userId.Some?)
            && (Has(form, "updatedPassword") <==> password != "")
            && (Has(form, "profilePicture") <==> file.Some?)
            && Lookup(form, "emailAddress") == Some(Value(email))
  {
    ProfilePayloadAt(firstName, lastName, email, phone, userId, password, file, "UserId");
    ProfilePayloadAt(firstName, lastName, email, phone, userId, password, file, "updatedPassword");
    ProfilePayloadAt(firstName, lastName, email, phone, userId, password, file, "profilePicture");
    ProfilePayloadAt(firstName, lastName, email, phone, userId, password, file, "emailAddress");
  }

  /** A user as `GET /user/<id>` returns it; every field may be missing. */
  datatype UserRecord = UserRecord(firstName: Option<string>, lastName: Option<string>, emailAddress: Option<string>,
                                   phoneNumber: Option<string>, profilePicture: Option<string>)

  const LoadUserError := "Erreur de récupération des données utilisateur"
  const ProfileUpdated := "Profil mis à jour avec succès !"
  const UpdateProfileError := "Erreur de mise à jour du profil"

  /** The error text of a failed PATCH: the server's message, else the default. */
  function UpdateErrorText(f: Failure): (msg: string)
    ensures ResponseMessage(f).Some? && ResponseMessage(f).value != "" ==> msg == ResponseMessage(f).value
    ensures ResponseMessage(f).None? || ResponseMessage(f).value == "" ==> msg == UpdateProfileError
  {
    OrElse(ResponseMessage(f), UpdateProfileError)
  }

  const UnknownError := "Erreur inconnue"
  const LoadPrefix := "Erreur lors du chargement des données utilisateur: "

  /**
   * What a failed load of the user says on the read-only view and the profile card: the
   * error's message for an `Error`, else an unknown error.
   */
  function LoadErrorText(f: Failure): (msg: string)
    ensures f.NonError? ==> msg == UnknownError
    ensures !f.NonError? ==> msg == LoadPrefix + MessageOf(f)
  {
    if f.NonError? then UnknownError else LoadPrefix + MessageOf(f)
  }

  /** The input fields of the form. */
  datatype Field = FirstName | LastName | Email | Phone | Password | ConfirmPassword

  /** The state of the profile form of the profile editor and of the user page's edit panel. */
  class ProfileForm {
    var userImage: Option<string>
    var firstName: string
    var lastName: string
    var email: string
    var phoneNumber: string
    var password: string
    var confirmPassword: string
    var error: Option<string>
    var file: Option<File>
    var loading: bool
    var submitting: bool
    var success: Option<string>
    var passwordError: Option<string>
    var emailError: Option<string>
    var phoneError: Option<string>

    /** A stored file always passed the upload check. */
    predicate Valid()
      reads this
    {
      file.Some? ==> UploadError(file.value).None?
    }

    constructor()
      ensures Valid()
      ensures userImage.None? && firstName == "" && lastName == "" && email == "" && phoneNumber == ""
      ensures password == "" && confirmPassword == "" && error.None? && file.None? && loading && !submitting
      ensures success.None? && passwordError.None? && emailError.None? && phoneError.None?
    {
      userImage, firstName, lastName, email, phoneNumber := None, "", "", "", "";
      password, confirmPassword, error, file, loading, submitting := "", "", None, None, true, false;
      success, passwordError, emailError, phoneError := None, None, None, None;
    }

    /**
     * The load effect, given how the GET ended and the screen's default picture: the
     * picture URL and the four text fields (missing gives ""), or the error.
     */
    method LoadProfile(response: Outcome<UserRecord>, defaultImage: string)
      modifies this`loading, this`userImage, this`firstName, this`lastName, this`email, this`phoneNumber, this`error
      ensures !loading
      ensures response.Done? ==>
                var u := response.value;
                && userImage == Some(PictureUrl(u.profilePicture, defaultImage))
                && firstName == u.firstName.GetOr("") && lastName == u.lastName.GetOr("")
                && email == u.emailAddress.GetOr("") && phoneNumber == u.phoneNumber.GetOr("")
                && error == old(error)
      ensures response.Failed? ==>
                && error == Some(LoadUserError) && userImage == old(userImage) && firstName == old(firstName)
                && lastName == old(lastName) && email == old(email) && phoneNumber == old(phoneNumber)
    {
      loading := true;
      if response.Done? {
        var u := response.value;
        userImage := Some(PictureUrl(u.profilePicture, defaultImage));
        firstName := u.firstName.GetOr("");
        lastName := u.lastName.GetOr("");
        email := u.emailAddress.GetOr("");
        phoneNumber := u.phoneNumber.GetOr("");
      } else {
        error := Some(LoadUserError);
      }
      loading := false;
    }

    /** An input's `onChange`: only that field takes the value. */
    method SetField(field: Field, value: string)
      modifies this`firstName, this`lastName, this`email, this`phoneNumber, this`password, this`confirmPassword
      ensures firstName == (if field == FirstName then value else old(firstName))
      ensures lastName == (if field == LastName then value else old(lastName))
      ensures email == (if field == Email then value else old(email))
      ensures phoneNumber == (if field == Phone then value else old(phoneNumber))
      ensures password == (if field == Password then value else old(password))
      ensures confirmPassword == (if field == ConfirmPassword then value else old(confirmPassword))
    {
      match field
      case FirstName => firstName := value;
      case LastName => lastName := value;
      case Email => email := value;
      case Phone => phoneNumber := value;
      case Password => password := value;
      case ConfirmPassword => confirmPassword := value;
    }

    /** `handleFileChange`: the first chosen file is stored unless it fails the upload check, which sets the error instead. */
    method HandleFileChange(files: seq<File>)
      requires Valid()
      modifies this`error, this`file
      ensures Valid()
      ensures |files| == 0 ==> error == old(error) && file == old(file)
      ensures |files| > 0 && UploadError(files[0]).Some? ==> error == UploadError(files[0]) && file == old(file)
      ensures |files| > 0 && UploadError(files[0]).None? ==> file == Some(files[0]) && error == old(error)
    {
      if |files| > 0 {
        var selectedFile := files[0];
        if !IsImageType(selectedFile.mimeType) {
          error := Some(NotAnImage);
          return;
        }
        if selectedFile.size > 5 * 1024 * 1024 {
          error := Some(UploadTooLarge);
          return;
        }
        file := Some(selectedFile);
      }
    }

    /** The file reader's `onloadend`: the picture shows the data URL read. */
    method PreviewLoaded(dataUrl: string)
      modifies this`userImage
      ensures userImage == Some(dataUrl)
    {
      userImage := Some(dataUrl);
    }

    /** `validateForm`: each check sets or clears only its own error; the form is valid when all three pass. */
    method ValidateForm() returns (isValid: bool)
      modifies this`emailError, this`phoneError, this`passwordError
      ensures emailError == EmailError(email)
      ensures phoneError == PhoneError(phoneNumber)
      ensures passwordError == PasswordError(password, confirmPassword)
      ensures isValid <==> ProfileValid(email, phoneNumber, password, confirmPassword)
    {
      isValid := true;
      if email == "" {
        emailError := Some(EmailRequired);
        isValid := false;
      } else if !EmailLike(email) {
        emailError := Some(EmailInvalid);
        isValid := false;
      } else {
        emailError := None;
      }
      if phoneNumber != "" && !PhoneLike(phoneNumber) {
        phoneError := Some(PhoneInvalid);
        isValid := false;
      } else {
        phoneError := None;
      }
      if password != "" && |password| < 6 {
        passwordError := Some(PasswordTooShort);
        isValid := false;
      } else if password != "" && password != confirmPassword {
        passwordError := Some(PasswordMismatch);
        isValid := false;
      } else {
        passwordError := None;
      }
    }
  }
}
