/**
 * The registration form: the local password checks before the register
 * request, and which error the page shows.
 */
module RegisterPage {
  import opened Wrappers
  import opened Text
  import opened ClientTypes

  const MismatchError := "הסיסמאות לא תואמות"
  const TooShortError := "הסיסמה חייבת להכיל לפחות 6 תווים"
  const RegisterFailedError := "שגיאה בהרשמה"
  const MinPasswordLength: nat := 6

  /**
   * The local checks in order: a password that differs from its
   * confirmation, then one shorter than 6 characters; a password of 6 or
   * more that matches passes.
   */
  function PasswordProblem(password: string, confirmation: string): (r: Option<string>)
    ensures r.None? <==> password == confirmation && |password| >= MinPasswordLength
    ensures password != confirmation ==> r == Some(MismatchError)
    ensures password == confirmation && |password| < MinPasswordLength ==> r == Some(TooShortError)
  {
    if password != confirmation then Some(MismatchError)
    else if |password| < MinPasswordLength then Some(TooShortError)
    else None
  }

  /** The page shows its own error when there is one, and the store's error otherwise. */
  function DisplayedError(localError: string, storeError: Option<string>): (r: Option<string>)
    ensures localError != [] ==> r == Some(localError)
    ensures localError == [] ==> r == storeError
  {
    if localError != [] then Some(localError) else storeError
  }

  /** A failed local check is what the page shows, whatever error the store holds. */
  lemma LocalProblemShown(password: string, confirmation: string, storeError: Option<string>)
    requires PasswordProblem(password, confirmation).Some?
    ensures DisplayedError(PasswordProblem(password, confirmation).value, storeError) == PasswordProblem(password, confirmation)
  {
    assert MismatchError != [] && TooShortError != [];
  }

  /** What the form hands to the register request. */
  datatype RegisterInput = RegisterInput(name: string, email: string, password: string)

  class RegisterForm {
    var name: string
    var email: string
    var password: string
    var confirmPassword: string
    var localError: string

    constructor ()
      ensures name == [] && email == [] && password == [] && confirmPassword == [] && localError == []
    {
      name := [];
      email := [];
      password := [];
      confirmPassword := [];
      localError := [];
    }

    /**
     * `handleSubmit`, with the register request's outcome passed in: the
     * local error is cleared, then the password checks run in order and the
     * first failure is shown without sending anything; otherwise name, email
     * and password are sent, success navigates to the dashboard and a
     * rejection shows its reason (or a default when it has none).
     */
    method HandleSubmit(outcome: Settled) returns (sent: Option<RegisterInput>, navigateTo: Option<string>)
      modifies this
      ensures name == old(name) && email == old(email)
      ensures password == old(password) && confirmPassword == old(confirmPassword)
      ensures PasswordProblem(password, confirmPassword).Some? ==>
        sent == None && navigateTo == None && localError == PasswordProblem(password, confirmPassword).value
      ensures PasswordProblem(password, confirmPassword).None? ==>
        && sent == Some(RegisterInput(name, email, password))
        && match outcome
           case Fulfilled => navigateTo == Some(DashboardPath) && localError == []
           case Rejected(reason) =>
             navigateTo == None && localError == (if Truthy(reason) then reason.value else RegisterFailedError)
      ensures sent.Some? ==> |sent.value.password| >= MinPasswordLength
    {
      localError := [];
      if password != confirmPassword {
        localError := MismatchError;
        return None, None;
      }
      if |password| < MinPasswordLength {
        localError := TooShortError;
        return None, None;
      }
      sent := Some(RegisterInput(name, email, password));
      match outcome
      case Fulfilled =>
        navigateTo := Some(DashboardPath);
      case Rejected(reason) =>
        navigateTo := None;
        localError := if Truthy(reason) then reason.value else RegisterFailedError;
    }
  }
}
