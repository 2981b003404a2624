/**
 * The form page: it sends a visitor without a session to the sign-in page,
 * a parent who already has a row to the dashboard, and shows the admission
 * form to a parent who has none.
 */
module FormPage {
  import opened Base
  import Backend

  /** What the page renders. */
  datatype View = LoadingView | NothingView | FormView(afterSubmitRedirect: string)

  /**
   * The render rule: the loading view while auth is loading or the lookup
   * has not answered, nothing without a user or when a row exists, and
   * otherwise the form, which moves on to "/enter-outlook" after submitting.
   */
  function PageView(user: Option<Backend.User>, loading: bool, hasForm: Option<bool>): (v: View)
    ensures v == LoadingView <==> loading || hasForm.None?
    ensures v.FormView? <==> !loading && user.Some? && hasForm == Some(false)
    ensures v.FormView? ==> v.afterSubmitRedirect == "/enter-outlook"
  {
    if loading || hasForm.None? then LoadingView
    else if user.None? || hasForm.value then NothingView
    else FormView("/enter-outlook")
  }

  /** The routes the effect navigates to, given what the lookup found. */
  function EffectRoutes(user: Option<Backend.User>, loading: bool, found: bool): (r: seq<string>)
    ensures "/auth" in r <==> !loading && user.None?
    ensures "/dashboard" in r <==> user.Some? && found
  {
    (if !loading && user.None? then ["/auth"] else [])
    + (if user.Some? && found then ["/dashboard"] else [])
  }

  /** The `hasForm` state after the effect. */
  function HasFormAfter(user: Option<Backend.User>, found: bool, hasForm: Option<bool>): Option<bool> {
    if user.Some? then Some(found) else hasForm
  }

  /**
   * For one lookup result the page never both renders the form and moves to
   * the dashboard; with a user and no row it renders the form.
   */
  lemma NeverFormAndDashboard(user: Option<Backend.User>, loading: bool, found: bool, hasForm: Option<bool>)
    ensures var v := PageView(user, loading, HasFormAfter(user, found, hasForm));
      !(v.FormView? && "/dashboard" in EffectRoutes(user, loading, found))
    ensures user.Some? && !found && !loading ==>
      PageView(user, loading, HasFormAfter(user, found, hasForm)) == FormView("/enter-outlook")
  {
  }

  class FormPage {
    const table: Backend.Table
    var hasForm: Option<bool>
    var navigations: seq<string>

    constructor (table: Backend.Table)
      ensures this.table == table && hasForm == None && navigations == []
    {
      this.table := table;
      hasForm := None;
      navigations := [];
    }

    /**
     * The page's effect: without a user once loading is over it moves to
     * "/auth"; with a user it looks up the user's row, records whether there
     * is one, and moves to "/dashboard" if there is.
     */
    method RunEffect(user: Option<Backend.User>, loading: bool, lookupFailed: bool)
      modifies this
      ensures var found := user.Some? && table.Lookup(Some(user.value.id), lookupFailed).Some?;
        && hasForm == HasFormAfter(user, found, old(hasForm))
        && navigations == old(navigations) + EffectRoutes(user, loading, found)
    {
      if !loading && user.None? {
        navigations := navigations + ["/auth"];
      }
      if user.Some? {
        var data := table.Lookup(Some(user.value.id), lookupFailed);
        if data.Some? {
          hasForm := Some(true);
          navigations := navigations + ["/dashboard"];
        } else {
          hasForm := Some(false);
        }
      }
    }
  }
}
