/** The route guard that wraps every authenticated page: on mount it checks the
    stored `userData` once, and it renders its children only once that check has
    admitted the user. */
module ProtectedRoutes {
  import opened Options
  import opened JsValues
  import opened Browser
  import opened AuthGate

  /** What the guard renders. */
  datatype View = Spinner | Nothing | Children

  class ProtectedRoute {
    var isAuthenticated: bool
    var isLoading: bool

    constructor ()
      ensures !isAuthenticated && isLoading
    {
      isAuthenticated := false;
      isLoading := true;
    }

    /** The render choice: the spinner while loading, nothing while not
        authenticated (a redirect is under way), otherwise the children. */
    function Render(): (v: View)
      reads this
      ensures v == Children <==> !isLoading && isAuthenticated
      ensures v == Spinner <==> isLoading
    {
      if isLoading then Spinner else if !isAuthenticated then Nothing else Children
    }

    /** `checkAuth()`: no data redirects and leaves storage alone; unparsable or
        invalid data is removed and redirects; valid data authenticates. Loading
        ends on every path. */
    method CheckAuth(st: SessionStorage, parse: Parser) returns (nav: Option<Route>)
      modifies this, st
      ensures !isLoading
      ensures var v := GateVerdict(old(st.items), parse);
        (v.NoSession? ==> st.items == old(st.items) && nav == Some(LoginRoute) && isAuthenticated == old(isAuthenticated))
        && (v.Unparsable? || v.Invalid? ==>
              st.items == old(st.items) - {UserDataKey} && nav == Some(LoginRoute) && isAuthenticated == old(isAuthenticated))
        && (v.Accepted? ==> st.items == old(st.items) && nav == None && isAuthenticated)
    {
      var verdict := StoredVerdict(st.GetItem(UserDataKey), parse);
      match verdict {
        case NoSession =>
          nav := Some(LoginRoute);
        case Unparsable =>
          st.RemoveItem(UserDataKey);
          nav := Some(LoginRoute);
        case Invalid =>
          st.RemoveItem(UserDataKey);
          nav := Some(LoginRoute);
        case Accepted(_) =>
          isAuthenticated := true;
          nav := None;
      }
      // `finally`
      isLoading := false;
    }
  }

  /** Mounting a guard and letting its check run: the children are shown exactly
      when the stored data is accepted, and storage then is untouched. */
  method MountProtectedRoute(st: SessionStorage, parse: Parser) returns (view: View, nav: Option<Route>)
    modifies st
    ensures view == Children <==> GateVerdict(old(st.items), parse).Accepted?
    ensures view == Children ==> st.items == old(st.items) && nav == None
    ensures view != Children ==> view == Nothing && nav == Some(LoginRoute)
  {
    var guard := new ProtectedRoute();
    nav := guard.CheckAuth(st, parse);
    view := guard.Render();
  }
}
