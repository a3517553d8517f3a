/** The user-management page: the user list it loads, its search and status
    filters, the per-row administrator badge and the administrator-only gate. */
module UsersPage {
  import opened Options
  import opened JsStrings
  import opened JsValues
  import opened ArrayOps
  import opened Toasts
  import opened Viewers
  import Api

  /** The search part of `filteredUsers`. */
  predicate MatchesSearch(user: Value, term: string)
  {
    ContainsFolded(Get(user, "username"), term) || ContainsFolded(Get(user, "email"), term)
    || TextContains(Get(user, "userId"), term)
  }

  /** The status part of `filteredUsers`. */
  predicate MatchesStatus(user: Value, statusFilter: string)
  {
    var status := Get(user, "status");
    statusFilter == "all"
    || (Truthy(status) && AsText(status).Some? && Lower(AsText(status).value) == Lower(statusFilter))
    || (statusFilter == "active" && Get(user, "success") == Bool(true))
    || (statusFilter == "inactive" && Get(user, "success") == Bool(false))
  }

  predicate Listed(user: Value, term: string, statusFilter: string)
  {
    MatchesSearch(user, term) && MatchesStatus(user, statusFilter)
  }

  /** `filteredUsers`: the users that match both the search and the status filter. */
  function FilteredUsers(users: seq<Value>, term: string, statusFilter: string): (r: seq<Value>)
    ensures forall u :: u in r <==> u in users && Listed(u, term, statusFilter)
    ensures forall u :: u in users ==>
      multiset(r)[u] == if Listed(u, term, statusFilter) then multiset(users)[u] else 0
  {
    Filter(users, u => Listed(u, term, statusFilter))
  }

  /** The users kept by a successful fetch: the response itself when it is an
      array, otherwise none. */
  function NormalizedUsers(response: Value): (r: seq<Value>)
    ensures !response.Arr? ==> r == []
    ensures Usable(response) && response.Arr? ==> r == response.items
  {
    if Usable(response) && response.Arr? then response.items else []
  }

  /** What the page renders. */
  datatype PageView = CrashedView | AccessDenied | Listing(rows: seq<Value>)

  class UsersPage {
    var users: seq<Value>
    var loading: bool
    var searchTerm: string
    var statusFilter: string

    constructor ()
      ensures users == [] && !loading && searchTerm == "" && statusFilter == "all"
    {
      users := [];
      loading := false;
      searchTerm := "";
      statusFilter := "all";
    }

    /** Render: a viewer without 'ROLE_ADMIN' gets the access-denied view, never the
        list. */
    function View(viewer: Viewer): (v: PageView)
      reads this
      ensures v.Listing? <==> viewer.Viewer? && viewer.isAdmin
      ensures v.Listing? ==> v.rows == FilteredUsers(users, searchTerm, statusFilter)
    {
      if viewer.Crashed? then CrashedView
      else if !viewer.isAdmin then AccessDenied
      else Listing(FilteredUsers(users, searchTerm, statusFilter))
    }

    /** `fetchAllUsers()`: a usable response that is an array becomes the list and a
        success toast; a usable non-array response empties the list; an unusable one
        empties it and is shown as an error. `getAllUsers` never rejects, so the
        `catch` branch is not reachable. */
    method FetchAllUsers(token: Value, outcome: Api.HttpOutcome, parse: Parser)
      returns (sent: Option<Api.Request>, toast: Option<ToastCall>)
      modifies this
      ensures !loading && searchTerm == old(searchTerm) && statusFilter == old(statusFilter)
      ensures var ex := Api.Invoke(Api.GetAllUsers(token), outcome, parse);
        ex.settled.Resolved? && sent == ex.sent
        && users == NormalizedUsers(ex.settled.value)
        && (Usable(ex.settled.value) ==> toast == Some(ToastCall(SuccessKind, Str("Users loaded successfully"))))
        && (!Usable(ex.settled.value) ==> toast == ShowBackendMessage(ex.settled.value, "error", parse))
    {
      loading := true;
      var call := Api.GetAllUsers(token);
      var ex := Api.Invoke(call, outcome, parse);
      Api.RejectsOnlyInTwoPlaces(call, outcome, parse);
      sent := ex.sent;
      var response := ex.settled.value;
      if Usable(response) {
        users := if response.Arr? then response.items else [];
        NoticeToast(true, Str("Users loaded successfully"), "success");
        toast := MessageToast(Notice(true, Str("Users loaded successfully")), "success");
      } else {
        toast := ShowBackendMessage(response, "error", parse);
        users := [];
      }
      loading := false;
    }

    /** `handleDeleteUser(userId)`: nothing without confirmation; otherwise a
        usable response gives a success toast and a reload of the list, any other
        is shown as an error. */
    method HandleDeleteUser(userId: Value, token: Value, confirmed: bool, outcome: Api.HttpOutcome, parse: Parser)
      returns (sent: Option<Api.Request>, toast: Option<ToastCall>, reload: bool)
      ensures !confirmed ==> sent == None && toast == None && !reload
      ensures confirmed ==>
        var ex := Api.Invoke(Api.DeleteUser(userId, token), outcome, parse);
        ex.settled.Resolved? && sent == ex.sent && reload == Usable(ex.settled.value)
        && (reload ==> toast == Some(ToastCall(SuccessKind, Str("User deleted successfully"))))
        && (!reload ==> toast == ShowBackendMessage(ex.settled.value, "error", parse))
    {
      if !confirmed {
        return None, None, false;
      }
      var call := Api.DeleteUser(userId, token);
      var ex := Api.Invoke(call, outcome, parse);
      Api.RejectsOnlyInTwoPlaces(call, outcome, parse);
      sent := ex.sent;
      reload := Usable(ex.settled.value);
      if reload {
        NoticeToast(true, Str("User deleted successfully"), "success");
        toast := MessageToast(Notice(true, Str("User deleted successfully")), "success");
      } else {
        toast := ShowBackendMessage(ex.settled.value, "error", parse);
      }
    }
  }

  // ---- properties ----

  /** The filtered list keeps the users' order: it is a subsequence of the list. */
  lemma FilteredUsersKeepOrder(users: seq<Value>, term: string, statusFilter: string)
    ensures IsSubsequence(FilteredUsers(users, term, statusFilter), users)
  {
    FilterIsSubsequence(users, u => Listed(u, term, statusFilter));
  }

  /** Even with an empty search term, a user without username, email and userId
      is not listed. */
  lemma EmptyTermNeedsAnIdentity(user: Value, statusFilter: string)
    requires IsNullish(Get(user, "username")) && IsNullish(Get(user, "email")) && IsNullish(Get(user, "userId"))
    ensures !Listed(user, "", statusFilter)
  {
  }

  /** With an empty term and the 'all' filter, a list in which every user has a
      string username is shown whole. */
  lemma EmptyTermShowsNamedUsers(users: seq<Value>)
    requires forall i :: 0 <= i < |users| ==> Get(users[i], "username").Str?
    ensures FilteredUsers(users, "", "all") == users
  {
    forall i | 0 <= i < |users| ensures Listed(users[i], "", "all") {
      assert StartsWith(Lower(Get(users[i], "username").s), Lower(""));
    }
    FilterAll(users, u => Listed(u, "", "all"));
  }

  /** The status filter compares case-insensitively, and falls back to the
      `success` flag for 'active' and 'inactive'. */
  lemma StatusFilterCases(user: Value, statusFilter: string)
    requires statusFilter != "all"
    ensures MatchesStatus(user, statusFilter) <==>
      (Get(user, "status").Str? && Get(user, "status").s != ""
        && Lower(Get(user, "status").s) == Lower(statusFilter))
      || (statusFilter == "active" && Get(user, "success") == Bool(true))
      || (statusFilter == "inactive" && Get(user, "success") == Bool(false))
  {
  }
}
