/**
 * The standalone profile management page: an email and a password match check (no
 * length rule and no upload limits), then the shared update body without a user id.
 */
module ProfileManagement {
  import opened Wrappers
  import opened Http
  import opened Forms
  import opened ProfileRules

  /** The user as this page reads it: the email under `email`, the picture under `ProfilePicture`. */
  datatype UserBody = UserBody(firstName: Option<string>, lastName: Option<string>, email: Option<string>,
                               phoneNumber: Option<string>, ProfilePicture: Option<string>)

  const EmailMissing := "Veuillez saisir votre adresse email ou un nouveau."
  const PasswordsDiffer := "Les mots de passe ne correspondent pas."

  /** The checks of `handleSubmit`, in order: an email is required, then a typed password must match its confirmation. */
  function SubmitError(email: string, password: string, confirm: string): (e: Option<string>)
    ensures e == Some(EmailMissing) <==> email == ""
    ensures e == Some(PasswordsDiffer) <==> email != "" && password != "" && password != confirm
    ensures e.None? <==> email != "" && (password == "" || password == confirm)
  {
    if email == "" then Some(EmailMissing)
    else if password != "" && password != confirm then Some(PasswordsDiffer)
    else None
  }

  /** Unlike the shared form's rules, a short password that matches is accepted. */
  lemma NoLengthRule(email: string, password: string)
    requires email != "" && 0 < |password| < 6
    ensures SubmitError(email, password, password).None?
    ensures PasswordError(password, password) == Some(PasswordTooShort)
  {
  }

  /** The page's state. */
  class ManagementPage {
    var userImage: Option<string>
    var firstName: string
    var lastName: string
    var email: string
    var phoneNumber: string
    var password: string
    var confirmPassword: string
    var error: Option<string>
    var file: Option<File>

    constructor()
      ensures userImage.None? && firstName == "" && lastName == "" && email == "" && phoneNumber == ""
      ensures password == "" && confirmPassword == "" && error.None? && file.None?
    {
      userImage, firstName, lastName, email, phoneNumber := None, "", "", "", "";
      password, confirmPassword, error, file := "", "", None, None;
    }

    /** The load effect, given how the GET ended and the imported social image. */
    method Load(response: Outcome<UserBody>, socialImage: string)
      modifies this`userImage, this`firstName, this`lastName, this`email, this`phoneNumber, this`error
      ensures response.Done? ==>
                var u := response.value;
                && userImage == Some(PictureUrl(u.ProfilePicture, socialImage))
                && firstName == u.firstName.GetOr("") && lastName == u.lastName.GetOr("")
                && email == u.email.GetOr("") && phoneNumber == u.phoneNumber.GetOr("") && error == old(error)
      ensures response.Failed? ==>
                && error == Some(LoadUserError) && userImage == old(userImage) && email == old(email)
                && firstName == old(firstName) && lastName == old(lastName) && phoneNumber == old(phoneNumber)
    {
      if response.Done? {
        var u := response.value;
        userImage := Some(PictureUrl(u.ProfilePicture, socialImage));
        firstName := u.firstName.GetOr("");
        lastName := u.lastName.GetOr("");
        email := u.email.GetOr("");
        phoneNumber := u.phoneNumber.GetOr("");
      } else {
        error := Some(LoadUserError);
      }
    }

    /** `handleFileChange`: the first chosen file is stored as it is. */
    method HandleFileChange(files: seq<File>)
      modifies this`file
      ensures |files| > 0 ==> file == Some(files[0])
      ensures |files| == 0 ==> file == old(file)
    {
      if |files| > 0 {
        file := Some(files[0]);
      }
    }

    /** The reader's `onloadend`: the picture shows the data URL read from the chosen file. */
    method PreviewLoaded(dataUrl: string)
      modifies this`userImage
      ensures userImage == Some(dataUrl)
    {
      userImage := Some(dataUrl);
    }

    /**
     * `handleSubmit`, given how the PATCH ended (`None` for success) and the object URL
     * the browser makes for the chosen file. A failed check sets its error and sends
     * nothing. Success shows the chosen file as the picture; returns whether the page
     * navigates to the profile.
     */
    method HandleSubmit(failure: Option<Failure>, objectUrl: string) returns (sent: Option<FormData>, navigates: bool)
      modifies this`error, this`userImage
      ensures SubmitError(email, password, confirmPassword).Some? ==>
                sent.None? && !navigates && error == SubmitError(email, password, confirmPassword) && userImage == old(userImage)
      ensures SubmitError(email, password, confirmPassword).None? ==>
                && sent == Some(ProfilePayload(firstName, lastName, email, phoneNumber, None, password, file))
                && (failure.None? ==> error.None? && navigates && userImage == (if file.Some? then Some(objectUrl) else old(userImage)))
                && (failure.Some? ==> error == Some(UpdateProfileError) && !navigates && userImage == old(userImage))
    {
      error := None;
      if email == "" {
        error := Some(EmailMissing);
        return None, false;
      }
      if password != "" && password != confirmPassword {
        error := Some(PasswordsDiffer);
        return None, false;
      }
      var form: FormData := [];
      form := form + [("firstName", Value(firstName))];
      form := form + [("lastName", Value(lastName))];
      form := form + [("emailAddress", Value(email))];
      form := form + [("phoneNumber", Value(phoneNumber))];
      if password != "" {
        form := form + [("updatedPassword", Value(password))];
      }
      if file.Some? {
        form := form + [("profilePicture", Upload(file.value))];
      }
      assert form == ProfilePayload(firstName, lastName, email, phoneNumber, None, password, file);
      sent := Some(form);
      if failure.None? {
        if file.Some? {
          userImage := Some(objectUrl);
        }
        navigates := true;
      } else {
        error := Some(UpdateProfileError);
        navigates := false;
      }
    }
  }
}
