/**
 * The password reset page: the token comes from the link's query string, a live
 * match flag guards the button, and the reset request is sent after the two checks.
 */
module ResetPasswordPage {
  import opened Wrappers
  import opened Http

  /** The body of the reset request. */
  datatype ResetDto = ResetDto(token: string, newPassword: string)

  const TokenMissing := "Token manquant."
  const Mismatch := "Les mots de passe ne correspondent pas."
  const ResetDone := "Mot de passe réinitialisé avec succès."
  const ResetFailed := "Erreur lors de la réinitialisation du mot de passe."
  const OtherError := "Une erreur s'est produite. Veuillez réessayer."

  /** The match flag: false exactly when a confirmation was typed and differs. */
  predicate MatchFlag(newPassword: string, confirm: string) {
    !(confirm != "" && newPassword != confirm)
  }

  /** The error text of a failed request: the error's non-empty message, else a default. */
  function ErrorText(f: Failure): (msg: string)
    ensures f.NonError? ==> msg == OtherError
    ensures !f.NonError? && MessageOf(f) != "" ==> msg == MessageOf(f)
    ensures !f.NonError? && MessageOf(f) == "" ==> msg == ResetFailed
  {
    if f.NonError? then OtherError else OrElse(Some(MessageOf(f)), ResetFailed)
  }

  /** The page's state; `token` is the `token` query parameter of the link. */
  class ResetPage {
    const token: Option<string>
    var newPassword: string
    var confirmPassword: string
    var error: string
    var successMessage: string
    var loading: bool
    var passwordsMatch: bool

    constructor(queryToken: Option<string>)
      ensures token == queryToken && newPassword == "" && confirmPassword == "" && error == ""
      ensures successMessage == "" && !loading && passwordsMatch
    {
      token := queryToken;
      newPassword, confirmPassword, error, successMessage, loading, passwordsMatch := "", "", "", "", false, true;
    }

    /** The token effect: a missing or empty token sets the error. */
    method CheckToken()
      modifies this`error
      ensures token.None? || token.value == "" ==> error == TokenMissing
      ensures token.Some? && token.value != "" ==> error == old(error)
    {
      if token.None? || token.value == "" {
        error := TokenMissing;
      }
    }

    /** The match effect, run after either password field changes. */
    method UpdateMatch()
      modifies this`passwordsMatch
      ensures passwordsMatch == MatchFlag(newPassword, confirmPassword)
    {
      if confirmPassword != "" && newPassword != confirmPassword {
        passwordsMatch := false;
      } else {
        passwordsMatch := true;
      }
    }

    /** Typing a new password, followed by the match effect. */
    method HandlePasswordChange(value: string)
      modifies this`newPassword, this`passwordsMatch
      ensures newPassword == value && passwordsMatch == MatchFlag(value, confirmPassword)
    {
      newPassword := value;
      UpdateMatch();
    }

    /** Typing the confirmation, followed by the match effect. */
    method HandleConfirmPasswordChange(value: string)
      modifies this`confirmPassword, this`passwordsMatch
      ensures confirmPassword == value && passwordsMatch == MatchFlag(newPassword, value)
    {
      confirmPassword := value;
      UpdateMatch();
    }

    predicate SubmitDisabled()
      reads this
    {
      loading || !passwordsMatch
    }

    /**
     * `handleSubmit`, given how the POST ended (the response status, or the failure).
     * The mismatch check comes first, then the token check; either sets its error and
     * sends nothing. Only status 200 sets the success message and schedules the login page.
     */
    method HandleSubmit(response: Outcome<int>) returns (sent: Option<ResetDto>, loginScheduled: bool)
      modifies this`error, this`successMessage, this`loading
      ensures newPassword != confirmPassword ==>
                sent.None? && !loginScheduled && error == Mismatch && successMessage == old(successMessage) && loading == old(loading)
      ensures newPassword == confirmPassword && (token.None? || token.value == "") ==>
                sent.None? && !loginScheduled && error == TokenMissing && successMessage == old(successMessage) && loading == old(loading)
      ensures newPassword == confirmPassword && token.Some? && token.value != "" ==>
                && sent == Some(ResetDto(token.value, newPassword)) && !loading
                && (response.Done? && response.value == 200 ==> successMessage == ResetDone && error == old(error) && loginScheduled)
                && (response.Done? && response.value != 200 ==> successMessage == old(successMessage) && error == old(error) && !loginScheduled)
                && (response.Failed? ==> error == ErrorText(response.failure) && successMessage == old(successMessage) && !loginScheduled)
    {
      if newPassword != confirmPassword {
        error := Mismatch;
        return None, false;
      }
      if token.None? || token.value == "" {
        error := TokenMissing;
        return None, false;
      }
      loading := true;
      sent := Some(ResetDto(token.value, newPassword));
      loginScheduled := false;
      if response.Done? {
        if response.value == 200 {
          successMessage := ResetDone;
          loginScheduled := true;
        }
      } else {
        if response.failure.NonError? {
          error := OtherError;
        } else {
          error := OrElse(Some(MessageOf(response.failure)), ResetFailed);
        }
      }
      loading := false;
    }
  }

  /**
   * The flag does not guard an empty confirmation: with a new password typed and the
   * confirmation still empty the button is enabled, yet the submit stops at the mismatch check.
   */
  lemma EmptyConfirmationPassesFlag(p: ResetPage)
    requires p.newPassword != "" && p.confirmPassword == "" && !p.loading
    requires p.passwordsMatch == MatchFlag(p.newPassword, p.confirmPassword)
    ensures !p.SubmitDisabled() && p.newPassword != p.confirmPassword
  {
  }

  /** Otherwise the flag is exactly the submit's equality check. */
  lemma FlagMatchesCheck(newPassword: string, confirm: string)
    requires confirm != ""
    ensures MatchFlag(newPassword, confirm) <==> newPassword == confirm
  {
  }
}
