/**
 * The caterer registration form: six text fields, a live "passwords match" flag, and
 * the registration request with its success and error messages.
 */
module RegisterForm {
  import opened Wrappers
  import opened Http

  datatype RegisterData = RegisterData(firstName: string, lastName: string, email: string, phoneNumber: string,
                                       password: string, confirmPassword: string)

  const EmptyData := RegisterData("", "", "", "", "", "")

  /** The body of `POST /auth/register`. */
  datatype RegisterDto = RegisterDto(firstName: string, lastName: string, emailAddress: string, phoneNumber: string,
                                     password: string, isCaterer: bool)

  const Mismatch := "Les mots de passe ne correspondent pas."
  const Registered := "Inscription réussie !"
  const UnknownError := "Une erreur inconnue est survenue."

  /** `{...prev, [name]: value}` for the form's own field names; any other name leaves the fields as they are. */
  function WithField(d: RegisterData, name: string, value: string): (r: RegisterData)
    ensures name == "firstName" ==> r == d.(firstName := value)
    ensures name == "lastName" ==> r == d.(lastName := value)
    ensures name == "email" ==> r == d.(email := value)
    ensures name == "phoneNumber" ==> r == d.(phoneNumber := value)
    ensures name == "password" ==> r == d.(password := value)
    ensures name == "confirmPassword" ==> r == d.(confirmPassword := value)
    ensures name !in {"firstName", "lastName", "email", "phoneNumber", "password", "confirmPassword"} ==> r == d
  {
    if name == "firstName" then d.(firstName := value)
    else if name == "lastName" then d.(lastName := value)
    else if name == "email" then d.(email := value)
    else if name == "phoneNumber" then d.(phoneNumber := value)
    else if name == "password" then d.(password := value)
    else if name == "confirmPassword" then d.(confirmPassword := value)
    else d
  }

  /** The request: the email under `emailAddress`, always as a caterer. */
  function DtoOf(d: RegisterData): (dto: RegisterDto)
    ensures dto.isCaterer
    ensures dto.emailAddress == d.email && dto.password == d.password
    ensures dto.firstName == d.firstName && dto.lastName == d.lastName && dto.phoneNumber == d.phoneNumber
  {
    RegisterDto(d.firstName, d.lastName, d.email, d.phoneNumber, d.password, true)
  }

  /** The success text: the body's message if it has a non-empty one, else the default. */
  function SuccessText(body: Body): (msg: string)
    ensures body.Record? && body.message.Some? && body.message.value != "" ==> msg == body.message.value
    ensures !(body.Record? && body.message.Some? && body.message.value != "") ==> msg == Registered
  {
    if body.Record? then OrElse(body.message, Registered) else Registered
  }

  /**
   * The error text: with a server response, a string body as it is (even empty), else
   * the body's non-empty message, else the default; without a response, the default.
   */
  function ErrorText(f: Failure): (msg: string)
    ensures !(f.AxiosError? && f.response.Some?) ==> msg == UnknownError
    ensures f.AxiosError? && f.response.Some? && f.response.value.data.Text? ==> msg == f.response.value.data.text
    ensures f.AxiosError? && f.response.Some? && f.response.value.data.Record? ==> msg == OrElse(f.response.value.data.message, UnknownError)
    ensures f.AxiosError? && f.response.Some? && f.response.value.data.NoBody? ==> msg == UnknownError
  {
    if f.AxiosError? && f.response.Some? then
      match f.response.value.data
      case Text(t) => t
      case Record(m) => OrElse(m, UnknownError)
      case NoBody => UnknownError
    else UnknownError
  }

  /** The form's state. */
  class Register {
    var formData: RegisterData
    var errorMessage: string
    var successMessage: string
    var loading: bool
    var passwordsMatch: bool

    /** The flag tells whether the two password fields hold the same text. */
    predicate Valid()
      reads this
    {
      passwordsMatch == (formData.password == formData.confirmPassword)
    }

    constructor()
      ensures Valid()
      ensures formData == EmptyData && errorMessage == "" && successMessage == "" && !loading && passwordsMatch
    {
      formData, errorMessage, successMessage, loading, passwordsMatch := EmptyData, "", "", false, true;
    }

    /**
     * `handleChange`: the field takes the value; editing either password field sets the
     * flag from the new value and the other field's stored value.
     */
    method HandleChange(name: string, value: string)
      requires Valid()
      modifies this`formData, this`passwordsMatch
      ensures Valid()
      ensures formData == WithField(old(formData), name, value)
      ensures name == "password" ==> passwordsMatch == (value == old(formData).confirmPassword)
      ensures name == "confirmPassword" ==> passwordsMatch == (old(formData).password == value)
      ensures name != "password" && name != "confirmPassword" ==> passwordsMatch == old(passwordsMatch)
    {
      var before := formData;
      formData := WithField(formData, name, value);
      if name == "password" || name == "confirmPassword" {
        var newPassword := if name == "password" then value else before.password;
        var newConfirmPassword := if name == "confirmPassword" then value else before.confirmPassword;
        passwordsMatch := newPassword == newConfirmPassword;
      }
    }

    /** The submit button is disabled while loading or while the passwords differ. */
    predicate SubmitDisabled()
      reads this
    {
      loading || !passwordsMatch
    }

    /**
     * `handleRegister`, given how the POST ended. Different passwords set the error and
     * send nothing. Success sets the message, clears the error and schedules the way
     * to the login page.
     */
    method HandleRegister(response: Outcome<Body>) returns (sent: Option<RegisterDto>, loginScheduled: bool)
      modifies this`errorMessage, this`successMessage, this`loading
      ensures formData.password != formData.confirmPassword ==>
                sent.None? && !loginScheduled && errorMessage == Mismatch
                && successMessage == old(successMessage) && loading == old(loading)
      ensures formData.password == formData.confirmPassword ==> sent == Some(DtoOf(formData)) && !loading
      ensures formData.password == formData.confirmPassword && response.Done? ==>
                successMessage == SuccessText(response.value) && errorMessage == "" && loginScheduled
      ensures formData.password == formData.confirmPassword && response.Failed? ==>
                errorMessage == ErrorText(response.failure) && successMessage == old(successMessage) && !loginScheduled
    {
      if formData.password != formData.confirmPassword {
        errorMessage := Mismatch;
        return None, false;
      }
      loading := true;
      sent := Some(RegisterDto(formData.firstName, formData.lastName, formData.email, formData.phoneNumber,
                               formData.password, true));
      if response.Done? {
        successMessage := SuccessText(response.value);
        errorMessage := "";
        loginScheduled := true;
      } else {
        errorMessage := ErrorText(response.failure);
        loginScheduled := false;
      }
      loading := false;
    }
  }

  /** While the form keeps its invariant, an enabled button never meets the mismatch check. */
  lemma EnabledSubmitPassesCheck(r: Register)
    requires r.Valid() && !r.SubmitDisabled()
    ensures r.formData.password == r.formData.confirmPassword
  {
  }
}
