/** The store-management page: owner names, the store search, the owner dropdown
    of active users, the create and edit forms, and how a delete response is
    reported. */
module StorePage {
  import opened Options
  import opened JsStrings
  import opened JsValues
  import opened ArrayOps
  import opened Toasts
  import Api

  const DeletedMessage := "Store deleted successfully"

  /** `user.id === ownerId` */
  predicate OwnsId(user: Value, ownerId: Value)
  {
    StrictEquals(Get(user, "id"), ownerId)
  }

  /** `getOwnerName(ownerId)`: 'Unassigned' without an owner id; otherwise the
      first user with that id gives `username || name || "User <id>"`, and no such
      user gives "User <id>". The name is never empty. */
  function OwnerName(ownerId: Value, allUsers: seq<Value>): (r: Value)
    ensures Truthy(r)
    ensures !Truthy(ownerId) ==> r == Str("Unassigned")
    ensures Truthy(ownerId) && (forall u :: u in allUsers ==> !OwnsId(u, ownerId)) ==>
              r == Str("User " + ToJsString(ownerId))
    ensures forall i ::
              (Truthy(ownerId) && 0 <= i < |allUsers| && OwnsId(allUsers[i], ownerId)
               && forall j :: 0 <= j < i ==> !OwnsId(allUsers[j], ownerId)) ==>
              r == Or(Get(allUsers[i], "username"), Or(Get(allUsers[i], "name"), Str("User " + ToJsString(ownerId))))
  {
    if !Truthy(ownerId) then Str("Unassigned")
    else
      var fallback := Str("User " + ToJsString(ownerId));
      match FindIndex(allUsers, u => OwnsId(u, ownerId))
      case None => fallback
      case Some(i) => Or(Get(allUsers[i], "username"), Or(Get(allUsers[i], "name"), fallback))
  }

  /** One store's test in `filterStores`: name, location or owner name contain the
      term ignoring case, or the owner id or store id text contains it exactly. */
  predicate StoreMatches(store: Value, term: string, allUsers: seq<Value>)
  {
    ContainsFolded(Get(store, "name"), term) || ContainsFolded(Get(store, "location"), term)
    || TextContains(Get(store, "ownerId"), term) || TextContains(Get(store, "id"), term)
    || ContainsFolded(OwnerName(Get(store, "ownerId"), allUsers), term)
  }

  /** `filterStores()`: a blank term shows every store; otherwise the matching
      stores. */
  function FilteredStores(stores: seq<Value>, term: string, allUsers: seq<Value>): (r: seq<Value>)
    ensures Blank(term) ==> r == stores
    ensures !Blank(term) ==> forall s :: s in r <==> s in stores && StoreMatches(s, term, allUsers)
    ensures !Blank(term) ==> forall s :: s in stores ==>
      multiset(r)[s] == if StoreMatches(s, term, allUsers) then multiset(stores)[s] else 0
  {
    if Blank(term) then stores else Filter(stores, s => StoreMatches(s, term, allUsers))
  }

  /** `user.status === 'ACTIVE' || user.status === 'active'` */
  predicate IsActive(user: Value)
  {
    Get(user, "status") == Str("ACTIVE") || Get(user, "status") == Str("active")
  }

  /** The owner dropdown: the active users, in list order. */
  function ActiveUsers(allUsers: seq<Value>): (r: seq<Value>)
    ensures forall u :: u in r <==> u in allUsers && IsActive(u)
    ensures forall u :: u in allUsers ==> multiset(r)[u] == if IsActive(u) then multiset(allUsers)[u] else 0
  {
    Filter(allUsers, IsActive)
  }

  /** No `null` or `undefined` among the entries. */
  predicate NoNullishEntry(items: seq<Value>)
  {
    forall u :: u in items ==> !IsNullish(u)
  }

  /** The user list `fetchUsers` keeps: the usable response when it is an array,
      else its `data` when that is an array, else nothing. A `data` that is not an
      array, or a list holding `null` or `undefined`, makes the status filter throw,
      and the `catch` empties both lists. */
  function FetchedUsers(response: Value): (r: seq<Value>)
    ensures NoNullishEntry(r)
    ensures !Usable(response) ==> r == []
    ensures Usable(response) && response.Arr? ==>
      r == if NoNullishEntry(response.items) then response.items else []
    ensures Usable(response) && !response.Arr? && Get(response, "data").Arr? ==>
      r == if NoNullishEntry(Get(response, "data").items) then Get(response, "data").items else []
    ensures Usable(response) && !response.Arr? && !Get(response, "data").Arr? ==> r == []
  {
    if !Usable(response) then []
    else
      var data := if response.Arr? then response else Or(Get(response, "data"), Arr([]));
      if !data.Arr? || !NoNullishEntry(data.items) then []
      else data.items
  }

  /** The store list `fetchStores` keeps: the usable response when it is an array,
      else its `data` when that is an array; anything else leaves no list. */
  function FetchedStores(response: Value): (r: seq<Value>)
    ensures !Usable(response) ==> r == []
    ensures Usable(response) && response.Arr? ==> r == response.items
    ensures Usable(response) && !response.Arr? && Get(response, "data").Arr? ==>
      r == Get(response, "data").items
    ensures Usable(response) && !response.Arr? && !Truthy(Get(response, "data")) ==> r == []
  {
    if !Usable(response) then []
    else
      var data := if response.Arr? then response else Or(Get(response, "data"), Arr([]));
      if data.Arr? then data.items else []
  }

  /** `parseInt(formData.ownerId)` as sent: a number, or `null` for NaN (which is
      what `JSON.stringify` writes for it). */
  function OwnerIdValue(text: string): (v: Value)
    ensures v.Num? || v.Null?
    ensures v.Null? <==> ParseInt(text).None?
    ensures ParseInt(text).Some? ==> v == Num(ParseInt(text).value)
  {
    match ParseInt(text)
    case Some(n) => Num(n)
    case None => Null
  }

  /** The create/edit form (`formData`). */
  datatype Form = Form(name: string, location: string, ownerId: string)

  const EmptyForm := Form("", "", "")

  /** Create needs all three fields non-blank after trimming. */
  predicate CreateFormComplete(f: Form)
  {
    !Blank(f.name) && !Blank(f.location) && !Blank(f.ownerId)
  }

  /** The `createStore` call a complete form makes. */
  function CreateCall(f: Form, token: Value): (c: Api.Call)
    ensures c.CreateStore? && c.name == f.name && c.location == f.location && c.token == token
    ensures c.ownerId == OwnerIdValue(f.ownerId)
  {
    Api.CreateStore(f.name, f.location, OwnerIdValue(f.ownerId), token)
  }

  /** The `updateStore` call an edit makes: the selected store's id and its
      original owner id, with the form's name and location. */
  function EditCall(f: Form, selected: Value, token: Value): (c: Api.Call)
    ensures c.UpdateStore? && c.id == Get(selected, "id") && c.ownerId == Get(selected, "ownerId")
    ensures c.name == f.name && c.location == f.location && c.token == token
  {
    Api.UpdateStore(Get(selected, "id"), f.name, f.location, Get(selected, "ownerId"), token)
  }

  /** Edit needs name and location non-blank; the owner is not edited. */
  predicate EditFormComplete(f: Form)
  {
    !Blank(f.name) && !Blank(f.location)
  }

  /** How `handleDeleteStore` reads a resolved delete response. */
  datatype Report = Report(success: bool, message: Value)

  function DeleteReport(response: Value): (r: Report)
    ensures Truthy(r.message) <==> response != Str("")
    ensures !r.success ==> response.Str? || Get(response, "success") == Bool(false)
  {
    match response
    case Str(text) =>
      var folded := Lower(text);
      Report(Includes(folded, "success") || Includes(folded, "deleted"), response)
    case Undefined => Report(true, Str(DeletedMessage))
    case Null => Report(true, Str(DeletedMessage))
    case Bool(b) => Report(true, Str(DeletedMessage))
    case Num(_) => Report(true, Str(DeletedMessage))
    case Arr(_) => Report(Get(response, "success") != Bool(false), Or(Get(response, "message"), Str(DeletedMessage)))
    case Obj(_) => Report(Get(response, "success") != Bool(false), Or(Get(response, "message"), Str(DeletedMessage)))
  }

  /** The toast and reload after a delete settles. A rejection whose message
      contains 'Unexpected token' counts as a success; any other rejection shows
      its message (or the fixed fallback). */
  function DeleteFeedback(settled: Api.Settled): (r: (Option<ToastCall>, bool))
    ensures r.1 <==> r.0.Some? && r.0.value.kind == SuccessKind
    ensures settled.Rejected? ==> r.0.Some?
  {
    match settled
    case Resolved(response) =>
      var report := DeleteReport(response);
      if report.success then (MessageToast(Notice(true, report.message), "success"), true)
      else (MessageToast(Notice(false, report.message), "error"), false)
    case Rejected(m) =>
      if Includes(m, "Unexpected token") then (MessageToast(Notice(true, Str(DeletedMessage)), "success"), true)
      else (MessageToast(Notice(false, Str(if m != "" then m else "Failed to delete store")), "error"), false)
  }

  /** The common end of the create and edit handlers: the request sent, the toast
      and whether the lists reload. A usable result gives the success toast and a
      reload; anything else is shown as an error. */
  function SaveOutcome(call: Api.Call, successMessage: string, outcome: Api.HttpOutcome, parse: Parser)
    : (Option<Api.Request>, Option<ToastCall>, bool)
  {
    var ex := Api.Invoke(call, outcome, parse);
    match ex.settled
    case Resolved(response) =>
      if Usable(response) then (ex.sent, MessageToast(Notice(true, Str(successMessage)), "success"), true)
      else (ex.sent, ShowBackendMessage(response, "error", parse), false)
    case Rejected(message) =>
      // the `catch`: `{ success: false, message: error.message }`
      (ex.sent, MessageToast(Notice(false, Str(message)), "error"), false)
  }

  /** The store calls never reject, so the `catch` is not reachable: a save reloads
      exactly when the result is usable, with the success toast, and otherwise
      shows the result as an error. */
  lemma SaveOutcomeMeaning(call: Api.Call, successMessage: string, outcome: Api.HttpOutcome, parse: Parser)
    requires call.CreateStore? || call.UpdateStore?
    requires successMessage != ""
    ensures var ex := Api.Invoke(call, outcome, parse);
      var (sent, toast, reload) := SaveOutcome(call, successMessage, outcome, parse);
      ex.settled.Resolved? && sent == ex.sent && reload == Usable(ex.settled.value)
      && (reload ==> toast == Some(ToastCall(SuccessKind, Str(successMessage))))
      && (!reload ==> toast == ShowBackendMessage(ex.settled.value, "error", parse))
  {
    Api.RejectsOnlyInTwoPlaces(call, outcome, parse);
  }

  class StorePage {
    var stores: seq<Value>
    var allUsers: seq<Value>
    var users: seq<Value>
    var loading: bool
    var deleteLoading: bool
    var searchTerm: string

    /** The page's invariant: the dropdown holds the active users of the lookup list. */
    predicate Valid()
      reads this
    {
      users == ActiveUsers(allUsers)
    }

    constructor ()
      ensures Valid()
      ensures stores == [] && allUsers == [] && users == [] && !loading && !deleteLoading && searchTerm == ""
    {
      stores, allUsers, users := [], [], [];
      loading, deleteLoading := false, false;
      searchTerm := "";
    }

    /** The stores on screen. */
    function Visible(): seq<Value>
      reads this
    {
      FilteredStores(stores, searchTerm, allUsers)
    }

    /** `fetchUsers()`: both lists come from one `getAllUsers` result. */
    method FetchUsers(token: Value, outcome: Api.HttpOutcome, parse: Parser) returns (sent: Option<Api.Request>)
      modifies this
      ensures Valid()
      ensures var ex := Api.Invoke(Api.GetAllUsers(token), outcome, parse);
        ex.settled.Resolved? && sent == ex.sent && allUsers == FetchedUsers(ex.settled.value)
      ensures stores == old(stores) && searchTerm == old(searchTerm)
      ensures loading == old(loading) && deleteLoading == old(deleteLoading)
      ensures forall u :: u in users <==> u in allUsers && IsActive(u)
    {
      var call := Api.GetAllUsers(token);
      var ex := Api.Invoke(call, outcome, parse);
      Api.RejectsOnlyInTwoPlaces(call, outcome, parse);
      sent := ex.sent;
      allUsers := FetchedUsers(ex.settled.value);
      users := ActiveUsers(allUsers);
    }

    /** `fetchStores()`: a usable result becomes the list with a success toast;
        otherwise the list empties and the result is shown as an error. */
    method FetchStores(token: Value, outcome: Api.HttpOutcome, parse: Parser)
      returns (sent: Option<Api.Request>, toast: Option<ToastCall>)
      modifies this
      ensures !loading && allUsers == old(allUsers) && users == old(users)
      ensures searchTerm == old(searchTerm) && deleteLoading == old(deleteLoading)
      ensures Valid() <==> old(Valid())
      ensures var ex := Api.Invoke(Api.GetAllStores(token), outcome, parse);
        ex.settled.Resolved? && sent == ex.sent && stores == FetchedStores(ex.settled.value)
        && (Usable(ex.settled.value) ==> toast == Some(ToastCall(SuccessKind, Str("Stores loaded successfully"))))
        && (!Usable(ex.settled.value) ==> toast == ShowBackendMessage(ex.settled.value, "error", parse))
    {
      loading := true;
      var call := Api.GetAllStores(token);
      var ex := Api.Invoke(call, outcome, parse);
      Api.RejectsOnlyInTwoPlaces(call, outcome, parse);
      sent := ex.sent;
      var response := ex.settled.value;
      stores := FetchedStores(response);
      if Usable(response) {
        NoticeToast(true, Str("Stores loaded successfully"), "success");
        toast := MessageToast(Notice(true, Str("Stores loaded successfully")), "success");
      } else {
        toast := ShowBackendMessage(response, "error", parse);
      }
      loading := false;
    }

    /** `handleDeleteStore`: nothing without confirmation; otherwise `deleteStore`
        runs with the spinner on, and its settlement decides the toast and the
        reload. The spinner is off afterwards. */
    method HandleDeleteStore(storeId: Value, token: Value, confirmed: bool, outcome: Api.HttpOutcome, parse: Parser)
      returns (sent: Option<Api.Request>, toast: Option<ToastCall>, reload: bool)
      modifies this
      ensures stores == old(stores) && allUsers == old(allUsers) && users == old(users)
      ensures loading == old(loading) && searchTerm == old(searchTerm)
      ensures Valid() <==> old(Valid())
      ensures !confirmed ==> sent == None && toast == None && !reload && deleteLoading == old(deleteLoading)
      ensures confirmed ==>
        var ex := Api.Invoke(Api.DeleteStore(storeId, token), outcome, parse);
        sent == ex.sent && (toast, reload) == DeleteFeedback(ex.settled) && !deleteLoading
    {
      if !confirmed {
        return None, None, false;
      }
      deleteLoading := true;
      var ex := Api.Invoke(Api.DeleteStore(storeId, token), outcome, parse);
      sent := ex.sent;
      toast, reload := DeleteFeedback(ex.settled).0, DeleteFeedback(ex.settled).1;
      deleteLoading := false;
    }
  }

  /** The create and edit dialogs of the page: the shared `formData`, the store
      being edited and which dialog is open. */
  class StoreEditor {
    var formData: Form
    var selectedStore: Value
    var showCreateModal: bool
    var showEditModal: bool

    constructor ()
      ensures formData == EmptyForm && selectedStore == Null && !showCreateModal && !showEditModal
    {
      formData := EmptyForm;
      selectedStore := Null;
      showCreateModal, showEditModal := false, false;
    }

    /** `openCreateModal()`: an empty form in the create dialog. */
    method OpenCreateModal()
      modifies this
      ensures formData == EmptyForm && showCreateModal
      ensures selectedStore == old(selectedStore) && showEditModal == old(showEditModal)
    {
      formData := EmptyForm;
      showCreateModal := true;
    }

    /** `openEditModal(store)`: the form shows the store's name and location; the
        owner field is left empty. */
    method OpenEditModal(store: Value)
      modifies this
      ensures selectedStore == store && showEditModal
      ensures formData == Form(if Get(store, "name").Str? then Get(store, "name").s else "",
                               if Get(store, "location").Str? then Get(store, "location").s else "", "")
      ensures showCreateModal == old(showCreateModal)
    {
      selectedStore := store;
      formData := Form(if Get(store, "name").Str? then Get(store, "name").s else "",
                       if Get(store, "location").Str? then Get(store, "location").s else "", "");
      showEditModal := true;
    }

    /** `handleCreateStore`: with a blank field, one error toast and no request;
        otherwise `createStore` with the parsed owner id. Success closes the modal,
        clears the form and asks for a reload; failure keeps both. */
    method HandleCreateStore(token: Value, outcome: Api.HttpOutcome, parse: Parser)
      returns (sent: Option<Api.Request>, toast: Option<ToastCall>, reload: bool)
      modifies this
      ensures selectedStore == old(selectedStore) && showEditModal == old(showEditModal)
      ensures !CreateFormComplete(old(formData)) ==>
        sent == None && !reload && toast == Some(ToastCall(ErrorKind, Str("All fields are required")))
        && formData == old(formData) && showCreateModal == old(showCreateModal)
      ensures CreateFormComplete(old(formData)) ==>
        (sent, toast, reload) == SaveOutcome(CreateCall(old(formData), token), "Store created successfully", outcome, parse)
        && (reload ==> !showCreateModal && formData == EmptyForm)
        && (!reload ==> showCreateModal == old(showCreateModal) && formData == old(formData))
    {
      if !CreateFormComplete(formData) {
        NoticeToast(false, Str("All fields are required"), "error");
        toast := MessageToast(Notice(false, Str("All fields are required")), "error");
        return None, toast, false;
      }
      var (s, t, r) := SaveOutcome(CreateCall(formData, token), "Store created successfully", outcome, parse);
      sent, toast, reload := s, t, r;
      if reload {
        showCreateModal := false;
        formData := EmptyForm;
      }
    }

    /** `handleEditStore`: name and location must be non-blank; the update sends the
        selected store's id and its original owner id. */
    method HandleEditStore(token: Value, outcome: Api.HttpOutcome, parse: Parser)
      returns (sent: Option<Api.Request>, toast: Option<ToastCall>, reload: bool)
      requires !IsNullish(selectedStore)
      modifies this
      ensures selectedStore == old(selectedStore) && showCreateModal == old(showCreateModal)
      ensures !EditFormComplete(old(formData)) ==>
        sent == None && !reload
        && toast == Some(ToastCall(ErrorKind, Str("Store name and location are required")))
        && formData == old(formData) && showEditModal == old(showEditModal)
      ensures EditFormComplete(old(formData)) ==>
        (sent, toast, reload) == SaveOutcome(EditCall(old(formData), old(selectedStore), token),
                                             "Store updated successfully", outcome, parse)
        && (reload ==> !showEditModal && formData == EmptyForm)
        && (!reload ==> showEditModal == old(showEditModal) && formData == old(formData))
    {
      if !EditFormComplete(formData) {
        NoticeToast(false, Str("Store name and location are required"), "error");
        toast := MessageToast(Notice(false, Str("Store name and location are required")), "error");
        return None, toast, false;
      }
      var result := SaveOutcome(EditCall(formData, selectedStore, token), "Store updated successfully", outcome, parse);
      sent, toast, reload := result.0, result.1, result.2;
      if reload {
        showEditModal := false;
        formData := EmptyForm;
      }
    }

  }

  // ---- properties ----

  /** The filtered stores keep the list's order. */
  lemma FilteredStoresKeepOrder(stores: seq<Value>, term: string, allUsers: seq<Value>)
    ensures IsSubsequence(FilteredStores(stores, term, allUsers), stores)
  {
    if Blank(term) {
      FilterIsSubsequence(stores, s => true);
      FilterAll(stores, s => true);
    } else {
      FilterIsSubsequence(stores, s => StoreMatches(s, term, allUsers));
    }
  }

  /** 'Active' in any other capitalisation keeps a user out of the dropdown. */
  lemma MixedCaseActiveIsExcluded(allUsers: seq<Value>, user: Value)
    requires Get(user, "status") == Str("Active")
    ensures user !in ActiveUsers(allUsers)
  {
  }

  /** A string response succeeds iff it mentions 'success' or 'deleted' in any case,
      and its message is the string as received. */
  lemma StringDeleteResponse(text: string)
    ensures DeleteReport(Str(text)).success <==>
      Includes(Lower(text), "success") || Includes(Lower(text), "deleted")
    ensures DeleteReport(Str(text)).message == Str(text)
  {
  }

  /** `true`, `null` and `undefined` are successes with the default message; an
      object succeeds unless its `success` is `false`, with its message or the
      default. */
  lemma ValueDeleteResponses(response: Value)
    ensures response == Bool(true) || IsNullish(response) ==> DeleteReport(response) == Report(true, Str(DeletedMessage))
    ensures response.Obj? ==>
      DeleteReport(response) == Report(Get(response, "success") != Bool(false),
                                       Or(Get(response, "message"), Str(DeletedMessage)))
  {
  }

  /** A rejection mentioning 'Unexpected token' is reported as a success and
      reloads; any other rejection is a failure. */
  lemma RejectedDeleteFeedback(m: string)
    ensures DeleteFeedback(Api.Rejected(m)).1 <==> Includes(m, "Unexpected token")
    ensures DeleteFeedback(Api.Rejected(m)).0.Some?
    ensures DeleteFeedback(Api.Rejected(m)).0.value.kind == (if Includes(m, "Unexpected token") then SuccessKind else ErrorKind)
  {
  }

  /** A 2xx delete whose body is empty resolves to the empty string, which reads as
      a failure with an empty message: no toast is shown and the list is not
      reloaded. */
  lemma EmptyDeleteBodyIsSilent(storeId: Value, token: Value, status: int, parse: Parser)
    requires Api.IsOk(status) && parse("").SyntaxError?
    ensures var ex := Api.Invoke(Api.DeleteStore(storeId, token), Api.HttpResponse(status, ""), parse);
      ex.settled == Api.Resolved(Str("")) && DeleteFeedback(ex.settled) == (None, false)
  {
    assert !Includes(Lower(""), "success") by {
      assert !StartsWith("", "success");
    }
    assert !Includes(Lower(""), "deleted") by {
      assert !StartsWith("", "deleted");
    }
  }

  /** A 2xx "Store deleted successfully" text body is a success with that text. */
  lemma PlainTextDeleteSucceeds(storeId: Value, token: Value, status: int, parse: Parser)
    requires Api.IsOk(status) && parse(DeletedMessage).SyntaxError?
    ensures var ex := Api.Invoke(Api.DeleteStore(storeId, token), Api.HttpResponse(status, DeletedMessage), parse);
      DeleteFeedback(ex.settled) == (Some(ToastCall(SuccessKind, Str(DeletedMessage))), true)
  {
    Api.DeleteStoreOutcomes(storeId, token, status, DeletedMessage, parse);
    DeletedMessageReadsAsSuccess();
    NoticeToast(true, Str(DeletedMessage), "success");
  }

  lemma DeletedMessageReadsAsSuccess()
    ensures DeleteReport(Str(DeletedMessage)) == Report(true, Str(DeletedMessage))
  {
    var folded := Lower(DeletedMessage);
    assert folded[6..13] == "deleted";
    IncludesAt(folded, "deleted", 6);
  }
}
