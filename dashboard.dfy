/** The dashboard page: its mount-time session check, logout, the administrator
    test on the stored login data and the navigation built from it. */
module DashboardPage {
  import opened Options
  import opened JsValues
  import opened Browser
  import opened Toasts
  import opened AuthGate

  /** One entry of the sidebar navigation. */
  datatype NavItem = NavItem(id: string, name: string, icon: string)

  /** `userData?.user?.role === 'admin'`: the dashboard's own administrator marker,
      a different one from the `ROLE_ADMIN` role list the user and store pages use. */
  predicate IsAdmin(userData: Value)
  {
    Get(Get(userData, "user"), "role") == Str("admin")
  }

  const FixedItems: seq<NavItem> := [
    NavItem("overview", "Overview", "dashboard"),
    NavItem("products", "Products", "box"),
    NavItem("orders", "Orders", "shopping-cart"),
    NavItem("analytics", "Analytics", "chart"),
    NavItem("settings", "Settings", "cog")
  ]

  const UsersItem := NavItem("users", "Users", "users")

  /** `navigationItems`: the five fixed entries, then the users entry for an
      administrator only. */
  function NavigationItems(userData: Value): (items: seq<NavItem>)
    ensures 5 <= |items| && items[..5] == FixedItems
    ensures |items| == 6 <==> IsAdmin(userData)
    ensures |items| == 5 <==> !IsAdmin(userData)
    ensures |items| == 6 ==> items[5] == UsersItem
  {
    FixedItems + (if IsAdmin(userData) then [UsersItem] else [])
  }

  class Dashboard {
    var userData: Value
    var activeTab: string
    var isLoading: bool

    constructor ()
      ensures userData == Null && activeTab == "overview" && isLoading
    {
      userData := Null;
      activeTab := "overview";
      isLoading := true;
    }

    /** The mount-time check. Without data it redirects and stays loading;
        unparsable or invalid data is removed and redirects; valid data becomes the
        page's `userData` and loading ends. */
    method CheckSession(st: SessionStorage, parse: Parser) returns (nav: Option<Route>)
      modifies this, st
      ensures activeTab == old(activeTab)
      ensures var v := GateVerdict(old(st.items), parse);
        (v.NoSession? ==>
              st.items == old(st.items) && nav == Some(LoginRoute)
              && isLoading == old(isLoading) && userData == old(userData))
        && (v.Unparsable? || v.Invalid? ==>
              st.items == old(st.items) - {UserDataKey} && nav == Some(LoginRoute)
              && isLoading == old(isLoading) && userData == old(userData))
        && (v.Accepted? ==> st.items == old(st.items) && nav == None && userData == v.data && !isLoading)
    {
      match StoredVerdict(st.GetItem(UserDataKey), parse) {
        case NoSession =>
          nav := Some(LoginRoute);
        case Unparsable =>
          st.RemoveItem(UserDataKey);
          nav := Some(LoginRoute);
        case Invalid =>
          st.RemoveItem(UserDataKey);
          nav := Some(LoginRoute);
        case Accepted(data) =>
          userData := data;
          isLoading := false;
          nav := None;
      }
    }

    /** `handleLogout()`: removes `userData` only, so `sessionTimestamp` stays, and
        asks for the "Logged out successfully" success toast. */
    method HandleLogout(st: SessionStorage) returns (nav: Route, toast: Option<ToastCall>)
      modifies st
      ensures st.items == old(st.items) - {UserDataKey}
      ensures nav == LoginRoute
      ensures toast == Some(ToastCall(SuccessKind, Str("Logged out successfully")))
    {
      st.RemoveItem(UserDataKey);
      nav := LoginRoute;
      toast := MessageToast(Obj(map["message" := Str("Logged out successfully")]), "success");
    }

    /** The navigation of the current state. */
    function Navigation(): seq<NavItem>
      reads this
    {
      NavigationItems(userData)
    }

    /** The user-management panel shows only on the users tab for an administrator. */
    predicate ShowsUsersPanel()
      reads this
    {
      activeTab == "users" && IsAdmin(userData)
    }
  }

  // ---- properties ----

  /** The users panel is shown only when the users entry is in the navigation. */
  lemma UsersPanelNeedsUsersEntry(d: Dashboard)
    requires d.ShowsUsersPanel()
    ensures UsersItem in d.Navigation()
  {
    assert d.Navigation()[5] == UsersItem;
  }
}
