/**
 * The profile editor page: the shared profile form, sent with the signed-in user's id.
 */
module EditProfile {
  import opened Wrappers
  import opened Http
  import opened Forms
  import opened ProfileRules

  const DefaultPicture := "/src/assets/social.png"
  const NotSignedIn := "Utilisateur non connecté."

  /** The load effect of the page, with its default picture. */
  method Load(form: ProfileForm, response: Outcome<UserRecord>)
    modifies form`loading, form`userImage, form`firstName, form`lastName, form`email, form`phoneNumber, form`error
    ensures !form.loading
    ensures response.Done? ==>
              var u := response.value;
              && form.userImage == Some(PictureUrl(u.profilePicture, DefaultPicture))
              && form.firstName == u.firstName.GetOr("") && form.lastName == u.lastName.GetOr("")
              && form.email == u.emailAddress.GetOr("") && form.phoneNumber == u.phoneNumber.GetOr("")
              && form.error == old(form.error)
    ensures response.Failed? ==>
              && form.error == Some(LoadUserError) && form.userImage == old(form.userImage)
              && form.firstName == old(form.firstName) && form.lastName == old(form.lastName)
              && form.email == old(form.email) && form.phoneNumber == old(form.phoneNumber)
  {
    form.LoadProfile(response, DefaultPicture);
  }

  /**
   * `handleSubmit`, given the signed-in user's id and how the PATCH ended (`None` for
   * success). An invalid form, or no user id, sends nothing; otherwise the body carries
   * the user id, and success schedules the way back to the user page.
   */
  method HandleSubmit(form: ProfileForm, userId: Option<string>, failure: Option<Failure>)
    returns (sent: Option<FormData>, navigationScheduled: bool)
    modifies form`error, form`success, form`emailError, form`phoneError, form`passwordError, form`submitting
    ensures form.emailError == EmailError(form.email) && form.phoneError == PhoneError(form.phoneNumber)
    ensures form.passwordError == PasswordError(form.password, form.confirmPassword)
    ensures !ProfileValid(form.email, form.phoneNumber, form.password, form.confirmPassword) ==>
              sent.None? && !navigationScheduled && form.error.None? && form.success.None?
              && form.submitting == old(form.submitting)
    ensures ProfileValid(form.email, form.phoneNumber, form.password, form.confirmPassword) && (userId.None? || userId.value == "") ==>
              sent.None? && !navigationScheduled && form.error == Some(NotSignedIn) && form.success.None?
              && form.submitting == old(form.submitting)
    ensures ProfileValid(form.email, form.phoneNumber, form.password, form.confirmPassword) && userId.Some? && userId.value != "" ==>
              && sent == Some(ProfilePayload(form.firstName, form.lastName, form.email, form.phoneNumber, userId, form.password, form.file))
              && !form.submitting
              && (failure.None? ==> form.success == Some(ProfileUpdated) && form.error.None? && navigationScheduled)
              && (failure.Some? ==> form.error == Some(UpdateErrorText(failure.value)) && form.success.None? && !navigationScheduled)
  {
    form.error := None;
    form.success := None;
    var valid := form.ValidateForm();
    if !valid {
      return None, false;
    }
    if userId.None? || userId.value == "" {
      form.error := Some(NotSignedIn);
      return None, false;
    }
    form.submitting := true;
    sent := Some(ProfilePayload(form.firstName, form.lastName, form.email, form.phoneNumber, userId, form.password, form.file));
    if failure.None? {
      form.success := Some(ProfileUpdated);
      navigationScheduled := true;
    } else {
      form.error := Some(UpdateErrorText(failure.value));
      navigationScheduled := false;
    }
    form.submitting := false;
  }
}
