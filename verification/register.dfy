/**
 * The registration screen: its form fields, the role dropdown and the Register
 * button's validation.
 */
module Register {
  import opened Text
  import opened Auth

  /** The roles the dropdown offers; the first is the default. */
  const RoleOptions: seq<string> := ["Business person", "Student", "Other"]

  const AllFieldsRequired: string := "All fields are required"
  const PasswordsDoNotMatch: string := "Passwords do not match"

  predicate AnyBlank(username: string, email: string, password: string, confirmPassword: string)
  {
    IsBlank(username) || IsBlank(email) || IsBlank(password) || IsBlank(confirmPassword)
  }

  /**
   * The Register button: blank fields are reported first, then a password
   * mismatch; only a complete, matching form registers, exactly once, with the
   * fields taken verbatim, and then reports success.
   */
  function RegisterDecision(username: string, email: string, password: string, confirmPassword: string, role: string)
    : (effects: seq<Effect>)
    ensures ViewModelCalls(effects) <= 1
    ensures ViewModelCalls(effects) == 1 <==> !AnyBlank(username, email, password, confirmPassword) && password == confirmPassword
    ensures ViewModelCalls(effects) == 1 ==>
      effects == [RegisterUser(User(username, email, role, password)), RegisterSuccess]
    ensures ViewModelCalls(effects) == 0 ==>
      effects == [ShowToast(if AnyBlank(username, email, password, confirmPassword) then AllFieldsRequired else PasswordsDoNotMatch)]
  {
    if AnyBlank(username, email, password, confirmPassword) then [ShowToast(AllFieldsRequired)]
    else if password != confirmPassword then [ShowToast(PasswordsDoNotMatch)]
    else
      var effects := [RegisterUser(User(username, email, role, password)), RegisterSuccess];
      assert effects[1..] == [RegisterSuccess] && effects[1..][1..] == [];
      assert ViewModelCalls(effects[1..]) == 0;
      effects
  }

  datatype Field = Username | MonthlyIncome | Email | Password | ConfirmPassword

  class RegisterScreen {
    var username: string
    var monthlyIncome: string
    var email: string
    var password: string
    var confirmPassword: string
    var passwordVisible: bool
    var confirmPasswordVisible: bool
    var role: string

    /** The role is always one the dropdown offers. */
    ghost predicate Valid()
      reads this
    {
      role in RoleOptions
    }

    /** First composition: empty fields, hidden passwords, the default role. */
    constructor ()
      ensures Valid()
      ensures username == monthlyIncome == email == password == confirmPassword == ""
      ensures !passwordVisible && !confirmPasswordVisible
      ensures role == "Business person"
    {
      username, monthlyIncome, email, password, confirmPassword := "", "", "", "", "";
      passwordVisible, confirmPasswordVisible := false, false;
      role := RoleOptions[0];
    }

    /** A text field's `onValueChange`: that field takes the new text, the others keep theirs. */
    method Edit(field: Field, text: string)
      requires Valid()
      modifies this
      ensures Valid()
      ensures username == (if field == Username then text else old(username))
      ensures monthlyIncome == (if field == MonthlyIncome then text else old(monthlyIncome))
      ensures email == (if field == Email then text else old(email))
      ensures password == (if field == Password then text else old(password))
      ensures confirmPassword == (if field == ConfirmPassword then text else old(confirmPassword))
      ensures role == old(role)
      ensures passwordVisible == old(passwordVisible) && confirmPasswordVisible == old(confirmPasswordVisible)
    {
      match field
      case Username => username := text;
      case MonthlyIncome => monthlyIncome := text;
      case Email => email := text;
      case Password => password := text;
      case ConfirmPassword => confirmPassword := text;
    }

    /** A role item's `onClick`. */
    method SelectRole(option: string)
      requires Valid() && option in RoleOptions
      modifies this`role
      ensures Valid() && role == option
    {
      role := option;
    }

    /** The password field's eye icon. */
    method TogglePasswordVisible()
      modifies this`passwordVisible
      ensures passwordVisible == !old(passwordVisible)
    {
      passwordVisible := !passwordVisible;
    }

    /** The confirmation field's eye icon. */
    method ToggleConfirmPasswordVisible()
      modifies this`confirmPasswordVisible
      ensures confirmPasswordVisible == !old(confirmPasswordVisible)
    {
      confirmPasswordVisible := !confirmPasswordVisible;
    }

    /**
     * The Register button's `onClick`. Monthly income is neither checked nor
     * passed on, and a registered user always carries an offered role.
     */
    method OnRegisterClick() returns (effects: seq<Effect>)
      requires Valid()
      ensures effects == RegisterDecision(username, email, password, confirmPassword, role)
      ensures forall k :: 0 <= k < |effects| && effects[k].RegisterUser? ==> effects[k].user.role in RoleOptions
    {
      effects := RegisterDecision(username, email, password, confirmPassword, role);
    }
  }
}
