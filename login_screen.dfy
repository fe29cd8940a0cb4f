/**
 * The decision logic of `LoginScreen`: the input validator, the login
 * click and the field edits. `android.util.Patterns.EMAIL_ADDRESS` is the
 * uninterpreted predicate `matchesEmail`.
 */
module LoginScreen {
  import opened Wrappers
  import opened KotlinText
  import opened ApiResults
  import opened AuthView

  const EmailRequired := "Email is required"
  const EmailInvalid := "Enter a valid email"
  const PasswordRequired := "Password is required"
  const PasswordTooShort := "Password must be at least 6 characters"

  /** The email field's error after validation; `None` when the email is accepted. */
  function EmailError(email: string, matchesEmail: string -> bool): (r: Option<string>)
    ensures r == Some(EmailRequired) <==> IsBlank(email)
    ensures r == Some(EmailInvalid) <==> !IsBlank(email) && !matchesEmail(email)
    ensures r.None? <==> !IsBlank(email) && matchesEmail(email)
  {
    if IsBlank(email) then Some(EmailRequired)
    else if !matchesEmail(email) then Some(EmailInvalid)
    else None
  }

  /** The password field's error; the length is Kotlin's, in UTF-16 code units. */
  function PasswordError(password: string): (r: Option<string>)
    ensures r == Some(PasswordRequired) <==> IsBlank(password)
    ensures r == Some(PasswordTooShort) <==> !IsBlank(password) && Utf16Length(password) < 6
    ensures r.None? <==> !IsBlank(password) && Utf16Length(password) >= 6
  {
    if IsBlank(password) then Some(PasswordRequired)
    else if Utf16Length(password) < 6 then Some(PasswordTooShort)
    else None
  }

  /**
   * An accepted password has at least three characters (each counts for at
   * most two UTF-16 units) and six when all of them are in the Basic
   * Multilingual Plane.
   */
  lemma AcceptedPasswordLength(password: string)
    requires PasswordError(password).None?
    ensures |password| >= 3
    ensures (forall i :: 0 <= i < |password| ==> password[i] as int <= 0xFFFF) ==> |password| >= 6
  {
  }

  /** A six-space password is blank, so it is "required", not "too short". */
  lemma SpacesAreNotAPassword()
    ensures PasswordError("      ") == Some(PasswordRequired)
  {
    assert IsWhitespace(' ');
  }

  class LoginForm {
    const viewModel: AuthViewModel
    const matchesEmail: string -> bool
    var email: string
    var password: string
    var emailError: Option<string>
    var passwordError: Option<string>

    constructor (viewModel: AuthViewModel, matchesEmail: string -> bool)
      ensures this.viewModel == viewModel && this.matchesEmail == matchesEmail
      ensures email == "" && password == "" && emailError == None && passwordError == None
    {
      this.viewModel := viewModel;
      this.matchesEmail := matchesEmail;
      email := "";
      password := "";
      emailError := None;
      passwordError := None;
    }

    /**
     * `validateInputs`: both fields are checked every time, so both errors
     * can be set at once; the inputs are valid exactly when neither is.
     */
    method ValidateInputs() returns (isValid: bool)
      modifies this
      ensures emailError == EmailError(email, matchesEmail)
      ensures passwordError == PasswordError(password)
      ensures isValid <==> emailError.None? && passwordError.None?
      ensures email == old(email) && password == old(password)
    {
      isValid := true;
      if IsBlank(email) {
        emailError := Some(EmailRequired);
        isValid := false;
      } else if !matchesEmail(email) {
        emailError := Some(EmailInvalid);
        isValid := false;
      } else {
        emailError := None;
      }

      if IsBlank(password) {
        passwordError := Some(PasswordRequired);
        isValid := false;
      } else if Utf16Length(password) < 6 {
        passwordError := Some(PasswordTooShort);
        isValid := false;
      } else {
        passwordError := None;
      }
    }

    /** `handleLoginClick`: the view model's `login` runs only when validation passes. */
    method HandleLoginClick()
      modifies this, viewModel
      ensures emailError == EmailError(email, matchesEmail) && passwordError == PasswordError(password)
      ensures emailError.None? && passwordError.None? ==>
                viewModel.loginStates == old(viewModel.loginStates) + [Loading, Success(())] &&
                viewModel.uiEvents == old(viewModel.uiEvents) + [LoginSuccess]
      ensures emailError.None? && passwordError.None? ==> viewModel.loginState == Success(())
      ensures !(emailError.None? && passwordError.None?) ==>
                viewModel.loginStates == old(viewModel.loginStates) &&
                viewModel.loginState == old(viewModel.loginState) &&
                viewModel.uiEvents == old(viewModel.uiEvents)
      ensures email == old(email) && password == old(password)
      ensures viewModel.logoutEvent == old(viewModel.logoutEvent)
    {
      var valid := ValidateInputs();
      if valid {
        viewModel.Login(email, password);
      }
    }

    /** Editing the email clears the email error only. */
    method OnEmailChange(value: string)
      modifies this
      ensures email == value && emailError == None
      ensures password == old(password) && passwordError == old(passwordError)
    {
      email := value;
      emailError := None;
    }

    /** Editing the password clears the password error only. */
    method OnPasswordChange(value: string)
      modifies this
      ensures password == value && passwordError == None
      ensures email == old(email) && emailError == old(emailError)
    {
      password := value;
      passwordError := None;
    }
  }
}
