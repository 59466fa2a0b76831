/**
 * What the authentication screens hand to their collaborators: the user record
 * and the observable effects of a button press or a callback (a toast, a call
 * into the auth view-model, a navigation).
 */
module Auth {

  /** The user record that registration builds from the form. */
  datatype User = User(username: string, email: string, role: string, password: string)

  datatype Effect =
    | ShowToast(message: string)                   // a short toast with this text
    | RegisterUser(user: User)                     // `authViewModel.registerUser(user)`
    | RegisterSuccess                              // `onRegisterSuccess()`
    | LoginUser(email: string, password: string)   // `authViewModel.loginUser(email, password)`
    | Navigate(route: string)                      // `navController.navigate(route)`

  /** How many times `effects` calls into the view-model (register or login). */
  function ViewModelCalls(effects: seq<Effect>): nat
  {
    if effects == [] then 0
    else (if effects[0].RegisterUser? || effects[0].LoginUser? then 1 else 0) + ViewModelCalls(effects[1..])
  }
}
