/** The sign-in / sign-up form: field validation with inline error texts,
    and the two submit handlers that call the auth service and, for
    sign-in, the session provider. */
module AuthScreen {
  import opened Wrappers
  import opened Storage
  import opened FormValidation
  import AuthService
  import AuthContext

  datatype FormAlert = NoAlert | WrongCredentials | Registered | RegistrationFailed

  class AuthForm {
    var email: string
    var password: string
    var name: string
    var surname: string
    /** Which of the two forms is shown. */
    var isLogin: bool
    var emailError: string
    var passwordError: string

    constructor ()
      ensures email == "" && password == "" && name == "" && surname == ""
      ensures isLogin && emailError == "" && passwordError == ""
    {
      email, password, name, surname := "", "", "", "";
      isLogin := true;
      emailError, passwordError := "", "";
    }

    /** `validateEmail`: the verdict of the e-mail pattern, with the error
        text shown exactly when it fails. */
    method ValidateEmail() returns (ok: bool)
      modifies this`emailError
      ensures ok <==> MatchesEmailPattern(email)
      ensures emailError == if ok then "" else EmailErrorText
    {
      EmailScanMatchesPattern(email);
      ok := IsEmail(email);
      emailError := if ok then "" else EmailErrorText;
    }

    /** `validatePassword`, likewise for the password pattern. */
    method ValidatePassword() returns (ok: bool)
      modifies this`passwordError
      ensures ok <==> MatchesPasswordPattern(password)
      ensures passwordError == if ok then "" else PasswordErrorText
    {
      PasswordScanMatchesPattern(password);
      ok := IsPassword(password);
      passwordError := if ok then "" else PasswordErrorText;
    }

    /** `!validateEmail(email) || !validatePassword(password)`: the password
        is only checked, and its error only updated, when the e-mail passes. */
    method ValidateBoth() returns (ok: bool)
      modifies this`emailError, this`passwordError
      ensures ok <==> MatchesEmailPattern(email) && MatchesPasswordPattern(password)
      ensures emailError == if MatchesEmailPattern(email) then "" else EmailErrorText
      ensures !MatchesEmailPattern(email) ==> passwordError == old(passwordError)
      ensures MatchesEmailPattern(email) ==>
                passwordError == if MatchesPasswordPattern(password) then "" else PasswordErrorText
    {
      ok := ValidateEmail();
      if ok {
        ok := ValidatePassword();
      }
    }

    /** `handleLogin`. Nothing is sent unless both fields pass. A reply
        carrying a token signs the user in with it; a rejected request, a
        reply without data, or one without a token (which the store
        refuses to write) ends in the credentials alert with the session
        as it was. */
    method HandleLogin(provider: AuthContext.AuthProvider, reply: AuthService.AuthReply)
      returns (sent: Option<AuthService.AuthRequest>, alert: FormAlert)
      modifies this`emailError, this`passwordError, provider`isAuthenticated, provider.store
      ensures sent.Some? <==> MatchesEmailPattern(email) && MatchesPasswordPattern(password)
      ensures sent.Some? ==> sent.value == AuthService.LoginRequest(email, password)
      ensures sent.None? ==> alert == NoAlert && provider.store.items == old(provider.store.items)
                             && provider.isAuthenticated == old(provider.isAuthenticated)
      ensures sent.Some? && reply.Answered? && reply.data.Some? && reply.data.value.accessToken.Some? ==>
                && alert == NoAlert
                && provider.store.items == old(provider.store.items)[AccessTokenKey := reply.data.value.accessToken.value]
                && provider.isAuthenticated == Some(true)
      ensures sent.Some? && !(reply.Answered? && reply.data.Some? && reply.data.value.accessToken.Some?) ==>
                && alert == WrongCredentials
                && provider.store.items == old(provider.store.items)
                && provider.isAuthenticated == old(provider.isAuthenticated)
    {
      var valid := ValidateBoth();
      if !valid {
        return None, NoAlert;
      }
      var response, request := AuthService.LoginUser(provider.store, email, password, reply);
      sent := Some(request);
      if response.Ok? && response.value.Some? {
        provider.Login(response.value.value);
        alert := NoAlert;
      } else {
        alert := WrongCredentials;
      }
    }

    /** `handleRegister`. On success the form switches to sign-in; the
        session status is not touched, though a returned token is kept. */
    method HandleRegister(store: KeyValueStore, reply: AuthService.AuthReply)
      returns (sent: Option<AuthService.AuthRequest>, alert: FormAlert)
      modifies this`emailError, this`passwordError, this`isLogin, store
      ensures sent.Some? <==> MatchesEmailPattern(email) && MatchesPasswordPattern(password)
      ensures sent.Some? ==> sent.value == AuthService.RegisterRequest(name, surname, email, password)
      ensures sent.None? ==> alert == NoAlert && store.items == old(store.items) && isLogin == old(isLogin)
      ensures sent.Some? && reply.Answered? && reply.data.Some? ==>
                && alert == Registered && isLogin
                && store.items == AuthService.AfterReply(old(store.items), reply.data.value)
      ensures sent.Some? && !(reply.Answered? && reply.data.Some?) ==>
                alert == RegistrationFailed && store.items == old(store.items) && isLogin == old(isLogin)
    {
      var valid := ValidateBoth();
      if !valid {
        return None, NoAlert;
      }
      var response, request := AuthService.RegisterUser(store, name, surname, email, password, reply);
      sent := Some(request);
      if response.Ok? {
        isLogin := true;
        alert := Registered;
      } else {
        alert := RegistrationFailed;
      }
    }
  }
}
