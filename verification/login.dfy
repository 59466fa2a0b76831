/**
 * The login screen: its form fields, the Login button's validation and the
 * callback that receives the login result.
 */
module Login {
  import opened Wrappers
  import opened Text
  import opened Auth
  import opened Routes

  const EnterEmailAndPassword: string := "Please enter email and password"
  const InvalidCredentials: string := "Invalid Credentials"

  /**
   * The Login button: a blank email or password is reported and nothing is
   * called; otherwise `loginUser` is called exactly once with the fields as typed.
   */
  function LoginDecision(email: string, password: string): (effects: seq<Effect>)
    ensures ViewModelCalls(effects) == (if IsBlank(email) || IsBlank(password) then 0 else 1)
    ensures ViewModelCalls(effects) == 0 ==> effects == [ShowToast(EnterEmailAndPassword)]
    ensures ViewModelCalls(effects) == 1 ==> effects == [LoginUser(email, password)]
  {
    if IsBlank(email) || IsBlank(password) then [ShowToast(EnterEmailAndPassword)]
    else [LoginUser(email, password)]
  }

  /**
   * The `loggedInUser` callback: no user means a toast and no navigation; a
   * user means navigation home and no toast.
   */
  function LoggedInUser(user: Option<User>): (effects: seq<Effect>)
    ensures |effects| == 1
    ensures effects[0].Navigate? <==> user.Some?
    ensures effects[0].Navigate? ==> effects[0].route == RoutHome
    ensures effects[0].ShowToast? <==> user.None?
    ensures effects[0].ShowToast? ==> effects[0].message == InvalidCredentials
  {
    match user
    case None => [ShowToast(InvalidCredentials)]
    case Some(_) => [Navigate(RoutHome)]
  }

  class LoginScreen {
    var email: string
    var password: string
    var passwordVisible: bool

    /** First composition: empty fields, password hidden. */
    constructor ()
      ensures email == "" && password == "" && !passwordVisible
    {
      email, password, passwordVisible := "", "", false;
    }

    /** The email field's `onValueChange`. */
    method EditEmail(text: string)
      modifies this`email
      ensures email == text
    {
      email := text;
    }

    /** The password field's `onValueChange`. */
    method EditPassword(text: string)
      modifies this`password
      ensures password == text
    {
      password := text;
    }

    /** The password field's eye icon. */
    method TogglePasswordVisible()
      modifies this`passwordVisible
      ensures passwordVisible == !old(passwordVisible)
    {
      passwordVisible := !passwordVisible;
    }

    /** The Login button's `onClick`. */
    method OnLoginClick() returns (effects: seq<Effect>)
      ensures effects == LoginDecision(email, password)
    {
      effects := LoginDecision(email, password);
    }
  }
}
