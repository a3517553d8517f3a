/** The login page: on mount it forwards a user with valid stored data to the
    dashboard and discards data that is not valid; on submit it logs in through the
    tab's endpoint and, on success, stores the response and starts the session. */
module LoginPage {
  import opened Options
  import opened JsStrings
  import opened JsValues
  import opened Browser
  import opened Toasts
  import opened AuthGate
  import Api
  import SessionManager

  /** The tab alone chooses the endpoint: "user" logs in as a user, anything else
      as an administrator. */
  function LoginCall(activeTab: string, username: string, password: string): (c: Api.Call)
    ensures c.UserLogin? <==> activeTab == "user"
    ensures c.AdminLogin? <==> activeTab != "user"
    ensures c.username == username && c.password == password
  {
    if activeTab == "user" then Api.UserLogin(username, password) else Api.AdminLogin(username, password)
  }

  /** `response && response.success` */
  predicate LoginSucceeded(response: Value)
  {
    Truthy(response) && Truthy(Get(response, "success"))
  }

  class Login {
    var username: string
    var password: string
    var isLoading: bool
    var activeTab: string

    constructor ()
      ensures username == "" && password == "" && !isLoading && activeTab == "user"
    {
      username, password := "", "";
      isLoading := false;
      activeTab := "user";
    }

    /** The mount-time check: valid stored data goes to the dashboard untouched;
        data that does not parse or is not valid is removed; no data, nothing. */
    method CheckExistingSession(st: SessionStorage, parse: Parser) returns (nav: Option<Route>)
      modifies st
      ensures var v := GateVerdict(old(st.items), parse);
        (v.Accepted? ==> st.items == old(st.items) && nav == Some(DashboardRoute))
        && (v.NoSession? ==> st.items == old(st.items) && nav == None)
        && (v.Unparsable? || v.Invalid? ==> st.items == old(st.items) - {UserDataKey} && nav == None)
    {
      nav := None;
      match StoredVerdict(st.GetItem(UserDataKey), parse) {
        case NoSession =>
        case Accepted(_) =>
          nav := Some(DashboardRoute);
        case Invalid =>
          st.RemoveItem(UserDataKey);
        case Unparsable =>
          st.RemoveItem(UserDataKey);
      }
    }

    /** `handleSubmit`: the login call is made with the form's credentials against
        the HTTP outcome given. A successful response is stored as `userData`
        (through `JSON.stringify`), the session is stamped with `now`, a success
        toast is asked for and the dashboard follows; otherwise storage is left as
        it was and the response is shown as an error. The login calls never reject,
        so the `catch` branch is not reachable. */
    method HandleSubmit(st: SessionStorage, now: nat, outcome: Api.HttpOutcome, parse: Parser, stringify: Stringifier)
      returns (sent: Option<Api.Request>, toast: Option<ToastCall>, nav: Option<Route>)
      modifies this, st
      ensures !isLoading
      ensures username == old(username) && password == old(password) && activeTab == old(activeTab)
      ensures var call := LoginCall(old(activeTab), old(username), old(password));
        var response := Api.Invoke(call, outcome, parse).settled.value;
        Api.Invoke(call, outcome, parse).settled.Resolved?
        && sent == Some(Api.RequestFor(call))
        && (LoginSucceeded(response) ==>
              st.items == SessionManager.Stamped(old(st.items)[UserDataKey := stringify(response)], now)
              && toast == ShowBackendMessage(response, "success", parse) && nav == Some(DashboardRoute))
        && (!LoginSucceeded(response) ==>
              st.items == old(st.items) && toast == ShowBackendMessage(response, "error", parse) && nav == None)
    {
      isLoading := true;
      var call := LoginCall(activeTab, username, password);
      var exchange := Api.Invoke(call, outcome, parse);
      Api.RejectsOnlyInTwoPlaces(call, outcome, parse);
      sent := exchange.sent;
      var response := exchange.settled.value;
      if LoginSucceeded(response) {
        st.SetItem(UserDataKey, stringify(response));
        SessionManager.InitializeSession(st, now);
        toast := ShowBackendMessage(response, "success", parse);
        // navigate('/dashboard') after 500 ms
        nav := Some(DashboardRoute);
      } else {
        toast := ShowBackendMessage(response, "error", parse);
        nav := None;
      }
      // `finally`
      isLoading := false;
    }
  }

  // ---- properties ----

  /** What a successful login stores is admitted by every gate and is a live
      session at the login time, provided the stringified response reads back as
      the response and is not empty (as `JSON.stringify` of an object is). */
  lemma StoredLoginIsAdmitted(items: map<string, string>, response: Value, now: nat, parse: Parser, stringify: Stringifier)
    requires LoginSucceeded(response)
    requires stringify(response) != "" && parse(stringify(response)) == Parsed(response)
    ensures var after := SessionManager.Stamped(items[UserDataKey := stringify(response)], now);
      GateVerdict(after, parse) == Accepted(response) && !SessionManager.IsSessionExpired(after, now)
  {
    var stored := items[UserDataKey := stringify(response)];
    VerdictIgnoresTimestamp(stored, NatToString(now), parse);
    SessionManager.StampedSessionIsLive(stored, now);
  }
}
