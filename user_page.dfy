/**
 * The user page: a read-only view of the profile and, once "edit" is chosen, the
 * shared profile form, which sends no user id; cancelling or a saved form goes back.
 */
module UserPage {
  import opened Wrappers
  import opened Http
  import opened Forms
  import opened ProfileRules

  const ViewDefaultPicture := "/assets/social.png"

  /** The view's picture: any non-empty stored name, under the server's uploads; otherwise the default. */
  function ViewPictureUrl(name: Option<string>): (url: string)
    ensures name.Some? && name.value != "" ==> url == ServerUrl + "/uploads/" + name.value
    ensures name.None? || name.value == "" ==> url == ViewDefaultPicture
  {
    if name.Some? && name.value != "" then ServerUrl + "/uploads/" + name.value else ViewDefaultPicture
  }

  /**
   * The view and the edit form choose the same picture, except for the stored text
   * "null", which the view shows as a file of that name.
   */
  lemma ViewPictureAgreesWithForm(name: Option<string>)
    ensures name != Some("null") ==> ViewPictureUrl(name) == PictureUrl(name, ViewDefaultPicture)
    ensures ViewPictureUrl(Some("null")) == ServerUrl + "/uploads/null"
    ensures PictureUrl(Some("null"), ViewDefaultPicture) == ViewDefaultPicture
  {
  }

  /** The read-only view's state. */
  class ProfileView {
    var userData: Option<UserRecord>
    var profilePicture: Option<string>
    var loading: bool
    var error: string

    constructor()
      ensures userData.None? && profilePicture.None? && loading && error == ""
    {
      userData, profilePicture, loading, error := None, None, true, "";
    }

    /** The fetch effect, given how the GET ended. */
    method FetchUserData(response: Outcome<UserRecord>)
      modifies this`loading, this`userData, this`profilePicture, this`error
      ensures !loading
      ensures response.Done? ==>
                userData == Some(response.value) && profilePicture == Some(ViewPictureUrl(response.value.profilePicture))
                && error == old(error)
      ensures response.Failed? ==>
                userData == old(userData) && profilePicture == Some(ViewDefaultPicture)
                && error == LoadErrorText(response.failure)
    {
      loading := true;
      if response.Done? {
        userData := Some(response.value);
        var name := response.value.profilePicture;
        if name.Some? && name.value != "" {
          profilePicture := Some(ServerUrl + "/uploads/" + name.value);
        } else {
          profilePicture := Some(ViewDefaultPicture);
        }
      } else {
        if response.failure.NonError? {
          error := UnknownError;
        } else {
          error := LoadPrefix + MessageOf(response.failure);
        }
        profilePicture := Some(ViewDefaultPicture);
      }
      loading := false;
    }
  }

  /** The edit panel's load effect, with the imported social image as the default picture. */
  method LoadEditPanel(form: ProfileForm, response: Outcome<UserRecord>, socialImage: string)
    modifies form`loading, form`userImage, form`firstName, form`lastName, form`email, form`phoneNumber, form`error
    ensures !form.loading
    ensures response.Done? ==>
              var u := response.value;
              && form.userImage == Some(PictureUrl(u.profilePicture, socialImage))
              && form.firstName == u.firstName.GetOr("") && form.lastName == u.lastName.GetOr("")
              && form.email == u.emailAddress.GetOr("") && form.phoneNumber == u.phoneNumber.GetOr("")
              && form.error == old(form.error)
    ensures response.Failed? ==>
              && form.error == Some(LoadUserError) && form.userImage == old(form.userImage)
              && form.firstName == old(form.firstName) && form.lastName == old(form.lastName)
              && form.email == old(form.email) && form.phoneNumber == old(form.phoneNumber)
  {
    form.LoadProfile(response, socialImage);
  }

  /**
   * The edit panel's `handleSubmit`, given how the PATCH ended (`None` for success).
   * An invalid form sends nothing; the body has no user id; `submitting` ends false on
   * both outcomes, and success schedules the return to the view.
   */
  method HandleSubmit(form: ProfileForm, failure: Option<Failure>) returns (sent: Option<FormData>, cancelScheduled: bool)
    modifies form`error, form`success, form`emailError, form`phoneError, form`passwordError, form`submitting
    ensures form.emailError == EmailError(form.email) && form.phoneError == PhoneError(form.phoneNumber)
    ensures form.passwordError == PasswordError(form.password, form.confirmPassword)
    ensures !ProfileValid(form.email, form.phoneNumber, form.password, form.confirmPassword) ==>
              sent.None? && !cancelScheduled && form.error.None? && form.success.None?
              && form.submitting == old(form.submitting)
    ensures ProfileValid(form.email, form.phoneNumber, form.password, form.confirmPassword) ==>
              && sent == Some(ProfilePayload(form.firstName, form.lastName, form.email, form.phoneNumber, None, form.password, form.file))
              && !form.submitting
              && (failure.None? ==> form.success == Some(ProfileUpdated) && form.error.None? && cancelScheduled)
              && (failure.Some? ==> form.error == Some(UpdateErrorText(failure.value)) && form.success.None? && !cancelScheduled)
  {
    form.error := None;
    form.success := None;
    var valid := form.ValidateForm();
    if !valid {
      return None, false;
    }
    form.submitting := true;
    sent := Some(ProfilePayload(form.firstName, form.lastName, form.email, form.phoneNumber, None, form.password, form.file));
    if failure.None? {
      form.success := Some(ProfileUpdated);
      cancelScheduled := true;
    } else {
      form.error := Some(UpdateErrorText(failure.value));
      cancelScheduled := false;
    }
    form.submitting := false;
  }

  /** The page: the view, or the edit panel while editing. */
  class Page {
    var isEditing: bool

    constructor()
      ensures !isEditing
    {
      isEditing := false;
    }

    method HandleEditProfile()
      modifies this`isEditing
      ensures isEditing
    {
      isEditing := true;
    }

    method HandleCancelEdit()
      modifies this`isEditing
      ensures !isEditing
    {
      isEditing := false;
    }
  }
}
