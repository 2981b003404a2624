/**
 * The sign-up and sign-in page. The auth provider's answers are inputs: a
 * sign-up or sign-in either succeeds or fails with the provider's message.
 * The page has three steps: sign up, sign in, and the confirmation shown
 * after signing up.
 */
module AuthPage {
  import opened Base
  import Backend

  datatype Step = SignUp | Login | ShowCredentials

  /** What the auth provider answered. */
  datatype AuthResult = Succeeded | Failed(message: string)

  /** Where a signed-in parent is sent: the dashboard when they own a row, the form otherwise. */
  function Destination(found: bool): (route: string)
    ensures route == "/dashboard" <==> found
    ensures route == "/form" <==> !found
  {
    if found then "/dashboard" else "/form"
  }

  class AuthPage {
    const table: Backend.Table
    var step: Step
    var loading: bool
    var error: Option<string>
    var navigations: seq<string>

    /** The page opens on the sign-up step. */
    constructor (table: Backend.Table)
      ensures this.table == table
      ensures step == SignUp && !loading && error == None && navigations == []
    {
      this.table := table;
      step := SignUp;
      loading := false;
      error := None;
      navigations := [];
    }

    /** The redirect effect: a signed-in visitor is sent on by whether they own a row. */
    method RedirectEffect(user: Option<Backend.User>, lookupFailed: bool)
      modifies this
      ensures user.None? ==> navigations == old(navigations)
      ensures user.Some? ==>
                navigations == old(navigations) + [Destination(table.Lookup(Some(user.value.id), lookupFailed).Some?)]
      ensures step == old(step) && loading == old(loading) && error == old(error)
    {
      if user.Some? {
        var data := table.Lookup(Some(user.value.id), lookupFailed);
        navigations := navigations + [Destination(data.Some?)];
      }
    }

    /**
     * `handleSignUp`: a failure shows the provider's message and stays on the
     * step; a success moves to the confirmation step. Loading is off afterwards.
     */
    method HandleSignUp(result: AuthResult)
      modifies this
      ensures !loading && navigations == old(navigations)
      ensures result.Failed? ==> error == Some(result.message) && step == old(step)
      ensures result.Succeeded? ==> error == None && step == ShowCredentials
    {
      error := None;
      loading := true;
      loading := false;
      if result.Failed? {
        error := Some(result.message);
      } else {
        step := ShowCredentials;
      }
    }

    /**
     * `handleLogin`: a failure shows the provider's message and navigates
     * nowhere; a success looks up the row of the user the client reports
     * (none matches an absent user) and navigates by `Destination`.
     */
    method HandleLogin(result: AuthResult, signedIn: Option<Backend.User>, lookupFailed: bool)
      modifies this
      ensures !loading && step == old(step)
      ensures result.Failed? ==> error == Some(result.message) && navigations == old(navigations)
      ensures result.Succeeded? ==>
                && error == None
                && navigations == old(navigations) + [Destination(table.Lookup(Backend.IdOf(signedIn), lookupFailed).Some?)]
    {
      error := None;
      loading := true;
      loading := false;
      if result.Failed? {
        error := Some(result.message);
      } else {
        var data := table.Lookup(Backend.IdOf(signedIn), lookupFailed);
        navigations := navigations + [Destination(data.Some?)];
      }
    }

    /** The form's submit: sign-up on the sign-up step, sign-in on the sign-in step, nothing otherwise. */
    method OnSubmit(result: AuthResult, signedIn: Option<Backend.User>, lookupFailed: bool)
      modifies this
      ensures old(step) == ShowCredentials ==>
        step == old(step) && loading == old(loading) && error == old(error) && navigations == old(navigations)
      ensures old(step) != ShowCredentials ==> !loading
      ensures old(step) == SignUp ==> navigations == old(navigations)
      ensures old(step) == SignUp && result.Succeeded? ==> step == ShowCredentials && error == None
      ensures old(step) == Login ==> step == Login
      ensures old(step) == Login && result.Succeeded? ==>
        && error == None
        && navigations == old(navigations) + [Destination(table.Lookup(Backend.IdOf(signedIn), lookupFailed).Some?)]
      ensures old(step) != ShowCredentials && result.Failed? ==>
        error == Some(result.message) && navigations == old(navigations) && step == old(step)
    {
      if step == SignUp {
        HandleSignUp(result);
      } else if step == Login {
        HandleLogin(result, signedIn, lookupFailed);
      }
    }

    /** `switchToLogin`. */
    method SwitchToLogin()
      modifies this
      ensures step == Login && error == None
      ensures loading == old(loading) && navigations == old(navigations)
    {
      step := Login;
      error := None;
    }

    /** `switchToSignUp`. */
    method SwitchToSignUp()
      modifies this
      ensures step == SignUp && error == None
      ensures loading == old(loading) && navigations == old(navigations)
    {
      step := SignUp;
      error := None;
    }

    /** The confirmation step's button: on to the form. */
    method ProceedToForm()
      modifies this
      ensures navigations == old(navigations) + ["/form"]
      ensures step == old(step) && loading == old(loading) && error == old(error)
    {
      navigations := navigations + ["/form"];
    }
  }
}
