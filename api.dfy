/** The REST client: how each operation builds its request (method, URL, headers,
    body), its token guard, and how an HTTP outcome becomes the value the returned
    promise settles with. The network itself is an input: the outcome of the one
    `fetch` call. */
module Api {
  import opened Options
  import opened JsStrings
  import opened JsValues

  const BaseUrl := "http://localhost:8081/api"
  const TokenRequired := "Token is required for authentication"

  // ---- cleanErrorMessage ----

  /** At `s[p..]`: the key between double quotes, matched ASCII-case-insensitively
      (`key` is lower case). */
  predicate QuotedKeyAt(s: string, p: nat, key: string)
  {
    p + |key| + 2 <= |s| && s[p] == '"' && Lower(s[p + 1..p + 1 + |key|]) == key && s[p + 1 + |key|] == '"'
  }

  /** First index at or after `i` that is not white space (`\s*`, greedy). */
  function SkipWhitespace(s: string, i: nat): (j: nat)
    requires i <= |s|
    ensures i <= j <= |s| && (j < |s| ==> !IsWhitespace(s[j]))
    decreases |s| - i
  {
    if i == |s| || !IsWhitespace(s[i]) then i else SkipWhitespace(s, i + 1)
  }

  /** First index at or after `i` holding a double quote (`[^"]*`, greedy). */
  function SkipNonQuote(s: string, i: nat): (j: nat)
    requires i <= |s|
    ensures i <= j <= |s| && (j < |s| ==> s[j] == '"')
    ensures forall k :: i <= k < j ==> s[k] != '"'
    decreases |s| - i
  {
    if i == |s| || s[i] == '"' then i else SkipNonQuote(s, i + 1)
  }

  /** The capture of `^\{.*"key"\s*:\s*"([^"]+)".*\}$` when the leading `.*` ends
      at `p`; `s` already starts with `{` and ends with `}`. Once `p` is fixed the
      rest of the pattern leaves no choice. */
  function FieldMatchAt(s: string, key: string, p: nat): (r: Option<string>)
    requires 1 <= p <= |s|
    ensures r.Some? ==> r.value != [] && forall k :: 0 <= k < |r.value| ==> r.value[k] != '"'
  {
    if !(NoLineTerminator(s[1..p]) && QuotedKeyAt(s, p, key)) then None
    else
      var colon := SkipWhitespace(s, p + |key| + 2);
      if colon == |s| || s[colon] != ':' then None
      else
        var open := SkipWhitespace(s, colon + 1);
        if open == |s| || s[open] != '"' then None
        else
          var close := SkipNonQuote(s, open + 1);
          if close == open + 1 || close + 1 >= |s| || !NoLineTerminator(s[close + 1..|s| - 1]) then None
          else Some(s[open + 1..close])
  }

  /** The greedy `.*` backtracks from the longest prefix: the last position that
      yields a match wins. */
  function LastFieldMatch(s: string, key: string, p: nat): (r: Option<string>)
    requires p <= |s|
    ensures r.Some? ==> r.value != []
    decreases p
  {
    if p == 0 then None
    else
      match FieldMatchAt(s, key, p)
      case Some(capture) => Some(capture)
      case None => LastFieldMatch(s, key, p - 1)
  }

  /** `s.replace(/^\{.*"key"\s*:\s*"([^"]+)".*\}$/i, '$1')` */
  function ReplaceQuotedField(s: string, key: string): string
  {
    if |s| >= 2 && s[0] == '{' && s[|s| - 1] == '}' then
      match LastFieldMatch(s, key, |s|)
      case Some(capture) => capture
      case None => s
    else s
  }

  /** Length of the match of `success\s*:\s*(true|false)\s*,?\s*` (case-insensitive)
      at the start of `s`, if any. */
  function SuccessFlagLength(s: string): (r: Option<nat>)
    ensures r.Some? ==> 0 < r.value <= |s|
  {
    if !(|s| >= 7 && Lower(s[..7]) == "success") then None
    else
      var colon := SkipWhitespace(s, 7);
      if colon == |s| || s[colon] != ':' then None
      else
        var word := SkipWhitespace(s, colon + 1);
        var afterWord :=
          if word + 4 <= |s| && Lower(s[word..word + 4]) == "true" then word + 4
          else if word + 5 <= |s| && Lower(s[word..word + 5]) == "false" then word + 5
          else 0;
        if afterWord == 0 then None
        else
          var comma := SkipWhitespace(s, afterWord);
          var afterComma := if comma < |s| && s[comma] == ',' then comma + 1 else comma;
          Some(SkipWhitespace(s, afterComma))
  }

  /** `s.replace(/success\s*:\s*(true|false)\s*,?\s*\/gi, '')`: scanning left to
      right, every match is cut out and the scan resumes after it. */
  function StripSuccessFlags(s: string): string
    decreases |s|
  {
    if s == [] then []
    else
      match SuccessFlagLength(s)
      case Some(n) => StripSuccessFlags(s[n..])
      case None => [s[0]] + StripSuccessFlags(s[1..])
  }

  /** No `{` or `}` anywhere in the text. */
  predicate NoBraces(s: string)
  {
    forall k :: 0 <= k < |s| ==> s[k] != '{' && s[k] != '}'
  }

  /** `s.replace(/[{}]/g, '')` */
  function RemoveBraces(s: string): (r: string)
    ensures NoBraces(r)
  {
    if s == [] then []
    else if s[0] == '{' || s[0] == '}' then RemoveBraces(s[1..])
    else [s[0]] + RemoveBraces(s[1..])
  }

  /** A character of the class `[",\s]`. */
  predicate IsEdgeJunk(c: char)
  {
    c == '"' || c == ',' || IsWhitespace(c)
  }

  function StripLeadingJunk(s: string): (r: string)
    ensures |r| <= |s| && r == s[|s| - |r|..]
    ensures r == [] || !IsEdgeJunk(r[0])
  {
    if s == [] || !IsEdgeJunk(s[0]) then s else StripLeadingJunk(s[1..])
  }

  function StripTrailingJunk(s: string): (r: string)
    ensures |r| <= |s| && r == s[..|r|]
    ensures r == [] || !IsEdgeJunk(r[|r| - 1])
  {
    if s == [] || !IsEdgeJunk(s[|s| - 1]) then s else StripTrailingJunk(s[..|s| - 1])
  }

  /** `s.replace(/^[",\s]+|[",\s]+$/g, '')`: the leading and the trailing run of
      quotes, commas and white space go (all of it, when the string is nothing else). */
  function StripEdgeJunk(s: string): string
  {
    StripTrailingJunk(StripLeadingJunk(s))
  }

  /** The five rewrites `cleanErrorMessage` applies to text that is not JSON. */
  function Cleaned(errorData: string): (r: string)
    ensures NoBraces(r)
    ensures r != "" ==> !IsEdgeJunk(r[0]) && !IsEdgeJunk(r[|r| - 1])
  {
    var unwrapped := ReplaceQuotedField(ReplaceQuotedField(errorData, "message"), "error");
    StripEdgeJunkKeepsNoBraces(RemoveBraces(StripSuccessFlags(unwrapped)));
    StripEdgeJunk(RemoveBraces(StripSuccessFlags(unwrapped)))
  }

  /** `cleanErrorMessage(errorData)`. JSON with a truthy `message` gives that field;
      other non-null JSON gives the text back; text that is not JSON, and the JSON
      `null` (whose `.message` throws), gives the cleaned text, or the original text
      when cleaning leaves nothing. */
  function CleanErrorMessage(errorData: string, parse: Parser): (r: Value)
    ensures errorData != "" ==> Truthy(r)
  {
    match parse(errorData)
    case Parsed(json) =>
      if IsNullish(json) then CleanedText(errorData)
      else if Truthy(Get(json, "message")) then Get(json, "message")
      else Str(errorData)
    case SyntaxError(_) => CleanedText(errorData)
  }

  /** `cleanMessage || errorData` */
  function CleanedText(errorData: string): Value
  {
    var c := Cleaned(errorData);
    Str(if c != "" then c else errorData)
  }

  /** `new Error(v).message` */
  function ErrorMessageOf(v: Value): string
  {
    if v.Undefined? then "" else ToJsString(v)
  }

  /** `a || b` on strings. */
  function OrElse(a: string, b: string): string
  {
    if a != "" then a else b
  }

  // ---- the operations ----

  /** The optional profile fields of `registerUser` (`null` when not given). */
  datatype Extras = Extras(phone: Option<string>, location: Option<string>, city: Option<string>,
                           state: Option<string>, country: Option<string>)

  /** One call of an exported API function, with its arguments. */
  datatype Call =
    | RegisterAdmin(username: string, email: string, password: string, confirmPassword: string,
                    phone: string, location: string, city: string, state: string, country: string)
    | AdminLogin(username: string, password: string)
    | RegisterUser(username: string, email: string, password: string, confirmPassword: string,
                   token: Value, extras: Extras)
    | UserLogin(username: string, password: string)
    | GetAllUsers(token: Value)
    | GetUserById(id: Value, token: Value)
    | UpdatePassword(currentpassword: string, newpassword: string, confirmpassword: string, token: Value)
    | ForgetPassword(username: string, passwordData: Value)
    | DeleteUser(id: Value, token: Value)
    | CreateStore(name: string, location: string, ownerId: Value, token: Value)
    | GetAllStores(token: Value)
    | GetStoreById(id: Value, token: Value)
    | UpdateStore(id: Value, name: string, location: string, ownerId: Value, token: Value)
    | DeleteStore(id: Value, token: Value)

  /** How an operation treats its bearer token. */
  datatype TokenRule =
    | NoAuth            // takes no token
    | OptionalBearer    // sends it when truthy
    | RequiredBearer    // a falsy token throws inside the `try`: a failure result, no request
    | RequiredBeforeTry // a falsy token throws before the `try`: the promise rejects
    | UncheckedBearer   // always sends `Bearer ${token}`, even for a missing token

  function Rule(c: Call): TokenRule
  {
    if c.RegisterAdmin? || c.AdminLogin? || c.UserLogin? || c.ForgetPassword? then NoAuth
    else if c.RegisterUser? then RequiredBeforeTry
    else if c.GetAllStores? || c.GetStoreById? then OptionalBearer
    else if c.DeleteStore? then UncheckedBearer
    else RequiredBearer
  }

  function Token(c: Call): Value
  {
    if Rule(c) == NoAuth then Undefined else c.token
  }

  /** The text an operation returns as `message` when the error's own is empty. */
  function Fallback(c: Call): (m: string)
    ensures !c.DeleteStore? ==> m != ""
  {
    match c
    case RegisterAdmin(_, _, _, _, _, _, _, _, _) => "Registration failed"
    case AdminLogin(_, _) => "Login failed"
    case RegisterUser(_, _, _, _, _, _) => "Registration failed"
    case UserLogin(_, _) => "Login failed"
    case GetAllUsers(_) => "Failed to fetch users"
    case GetUserById(_, _) => "Failed to fetch user data"
    case UpdatePassword(_, _, _, _) => "Failed to update password"
    case ForgetPassword(_, _) => "Failed to reset password"
    case DeleteUser(_, _) => "Failed to delete user"
    case CreateStore(_, _, _, _) => "Failed to create store"
    case GetAllStores(_) => "Failed to fetch stores"
    case GetStoreById(_, _) => "Failed to fetch store data"
    case UpdateStore(_, _, _, _, _) => "Failed to update store"
    case DeleteStore(_, _) => ""
  }

  datatype Request = Request(httpMethod: string, url: string, headers: map<string, string>, body: Option<Value>)

  function HttpMethod(c: Call): string
  {
    if c.GetAllUsers? || c.GetUserById? || c.GetAllStores? || c.GetStoreById? then "GET"
    else if c.UpdatePassword? || c.ForgetPassword? || c.UpdateStore? then "PUT"
    else if c.DeleteUser? || c.DeleteStore? then "DELETE"
    else "POST"
  }

  function Url(c: Call): (r: string)
    ensures StartsWith(r, BaseUrl + "/")
  {
    match c
    case RegisterAdmin(_, _, _, _, _, _, _, _, _) => BaseUrl + "/users/admin/register"
    case AdminLogin(_, _) => BaseUrl + "/users/admin/login"
    case RegisterUser(_, _, _, _, _, _) => BaseUrl + "/users/register"
    case UserLogin(_, _) => BaseUrl + "/users/login"
    case GetAllUsers(_) => BaseUrl + "/users"
    case GetUserById(id, _) => BaseUrl + "/users/" + ToJsString(id)
    case UpdatePassword(_, _, _, _) => BaseUrl + "/users/password"
    case ForgetPassword(username, _) => BaseUrl + "/users/forget-password/" + username
    case DeleteUser(id, _) => BaseUrl + "/users/" + ToJsString(id)
    case CreateStore(_, _, _, _) => BaseUrl + "/stores"
    case GetAllStores(_) => BaseUrl + "/stores"
    case GetStoreById(id, _) => BaseUrl + "/stores/" + ToJsString(id)
    case UpdateStore(id, _, _, _, _) => BaseUrl + "/stores/" + ToJsString(id)
    case DeleteStore(id, _) => BaseUrl + "/stores/" + ToJsString(id)
  }

  /** `body.field = value` when `value && value.trim() !== ''`. */
  function WithOptional(body: map<string, Value>, field: string, value: Option<string>): map<string, Value>
  {
    if value.Some? && !Blank(value.value) then body[field := Str(value.value)] else body
  }

  /** The object passed to `JSON.stringify` as the request body, if any. */
  function Body(c: Call): (r: Option<Value>)
    ensures r.None? <==> HttpMethod(c) == "GET" || HttpMethod(c) == "DELETE"
  {
    match c
    case RegisterAdmin(u, e, p, cp, ph, loc, city, st, country) =>
      Some(Obj(map["username" := Str(u), "email" := Str(e), "password" := Str(p), "confirmPassword" := Str(cp),
                   "phone" := Str(ph), "location" := Str(loc), "city" := Str(city), "state" := Str(st),
                   "country" := Str(country)]))
    case AdminLogin(u, p) => Some(Obj(map["username" := Str(u), "password" := Str(p)]))
    case RegisterUser(u, e, p, cp, _, x) =>
      var base := map["username" := Str(u), "email" := Str(e), "password" := Str(p), "confirmPassword" := Str(cp)];
      Some(Obj(WithOptional(WithOptional(WithOptional(WithOptional(WithOptional(base,
        "phone", x.phone), "location", x.location), "city", x.city), "state", x.state), "country", x.country)))
    case UserLogin(u, p) => Some(Obj(map["username" := Str(u), "password" := Str(p)]))
    case UpdatePassword(cur, np, cp, _) =>
      Some(Obj(map["currentpassword" := Str(cur), "newpassword" := Str(np), "confirmpassword" := Str(cp)]))
    case ForgetPassword(_, data) => Some(data)
    case CreateStore(name, loc, owner, _) => Some(Obj(map["name" := Str(name), "location" := Str(loc), "ownerId" := owner]))
    case UpdateStore(_, name, loc, owner, _) => Some(Obj(map["name" := Str(name), "location" := Str(loc), "ownerId" := owner]))
    case _ => None
  }

  /** Whether the operation puts an `Authorization` header on its request. */
  predicate SendsBearer(c: Call)
  {
    Rule(c) == UncheckedBearer || (Rule(c) != NoAuth && Truthy(Token(c)))
  }

  /** The headers object: `Content-Type` always, `Authorization: Bearer <token>` in
      the form of section 2.1 of RFC 6750 when the token is sent. */
  function Headers(c: Call): (r: map<string, string>)
    ensures "Content-Type" in r && r["Content-Type"] == "application/json"
    ensures "Authorization" in r <==> SendsBearer(c)
  {
    var base := map["Content-Type" := "application/json"];
    if SendsBearer(c) then base["Authorization" := "Bearer " + ToJsString(Token(c))] else base
  }

  function RequestFor(c: Call): Request
  {
    Request(HttpMethod(c), Url(c), Headers(c), Body(c))
  }

  /** What the single `fetch` produces: a network failure (the `TypeError` it
      rejects with) or a response with status and body text. */
  datatype HttpOutcome = NetworkFailure(message: string) | HttpResponse(status: int, body: string)

  /** `response.ok` */
  predicate IsOk(status: int)
  {
    200 <= status <= 299
  }

  /** How the returned promise settles. */
  datatype Settled = Resolved(value: Value) | Rejected(message: string)

  /** The request that went out, if any, and the settled result. */
  datatype Exchange = Exchange(sent: Option<Request>, settled: Settled)

  /** The `try` block shared by every operation but `deleteStore`, with its `catch`
      turning any error into `{ success: false, message: error.message || fallback }`. */
  function Respond(outcome: HttpOutcome, parse: Parser, fallback: string): (r: Value)
    ensures outcome.HttpResponse? && IsOk(outcome.status) && parse(outcome.body).Parsed? ==>
      r == parse(outcome.body).value
    ensures fallback != "" && !(outcome.HttpResponse? && IsOk(outcome.status) && parse(outcome.body).Parsed?) ==>
      Get(r, "success") == Bool(false) && Truthy(Get(r, "message"))
  {
    match outcome
    case NetworkFailure(m) => FailureResult(OrElse(m, fallback))
    case HttpResponse(status, body) =>
      if !IsOk(status) then FailureResult(OrElse(ErrorMessageOf(CleanErrorMessage(body, parse)), fallback))
      else
        match parse(body)
        case Parsed(data) => data
        case SyntaxError(m) => FailureResult(OrElse(m, fallback))
  }

  /** `deleteStore`: a non-2xx status rejects with "HTTP error! status: N"; a 2xx
      body is returned parsed when it is JSON, as raw text otherwise. Every error is
      rethrown. */
  function DeleteStoreSettles(outcome: HttpOutcome, parse: Parser): (s: Settled)
    ensures s.Rejected? <==> outcome.NetworkFailure? || !IsOk(outcome.status)
    ensures outcome.HttpResponse? && IsOk(outcome.status) && parse(outcome.body).SyntaxError? ==>
      s == Resolved(Str(outcome.body))
  {
    match outcome
    case NetworkFailure(m) => Rejected(m)
    case HttpResponse(status, body) =>
      if !IsOk(status) then Rejected("HTTP error! status: " + IntToString(status))
      else
        match parse(body)
        case Parsed(data) => Resolved(data)
        case SyntaxError(_) => Resolved(Str(body))
  }

  /** One call of an API function against one HTTP outcome. */
  function Invoke(c: Call, outcome: HttpOutcome, parse: Parser): (e: Exchange)
    ensures e.sent.Some? ==> e.sent.value == RequestFor(c)
    ensures e.sent.None? ==> e.settled == Rejected(TokenRequired) || e.settled == Resolved(FailureResult(TokenRequired))
  {
    if Rule(c) == RequiredBeforeTry && !Truthy(Token(c)) then Exchange(None, Rejected(TokenRequired))
    else if Rule(c) == RequiredBearer && !Truthy(Token(c)) then Exchange(None, Resolved(FailureResult(TokenRequired)))
    else if c.DeleteStore? then Exchange(Some(RequestFor(c)), DeleteStoreSettles(outcome, parse))
    else Exchange(Some(RequestFor(c)), Resolved(Respond(outcome, parse, Fallback(c))))
  }

  // ---- properties ----

  /** The promise rejects only for `registerUser` without a token and for
      `deleteStore` on a network failure or a non-2xx status; every other call
      resolves. */
  lemma RejectsOnlyInTwoPlaces(c: Call, outcome: HttpOutcome, parse: Parser)
    ensures Invoke(c, outcome, parse).settled.Rejected? <==>
      (c.RegisterUser? && !Truthy(c.token)) ||
      (c.DeleteStore? && (outcome.NetworkFailure? || !IsOk(outcome.status)))
  {
  }

  /** The token-checked operations make no request without a truthy token and
      resolve to the fixed failure result. */
  lemma MissingTokenMeansNoRequest(c: Call, outcome: HttpOutcome, parse: Parser)
    ensures Invoke(c, outcome, parse).sent.None? <==>
      (Rule(c) == RequiredBearer || Rule(c) == RequiredBeforeTry) && !Truthy(Token(c))
    ensures Rule(c) == RequiredBearer && !Truthy(Token(c)) ==>
      Invoke(c, outcome, parse).settled == Resolved(FailureResult(TokenRequired))
  {
  }

  /** Every request carries `Content-Type: application/json`; it carries
      `Authorization: Bearer <token>` exactly when the token is truthy, except that
      `deleteStore` always does and the unauthenticated operations never do. */
  lemma RequestHeaders(c: Call, outcome: HttpOutcome, parse: Parser)
    requires Invoke(c, outcome, parse).sent.Some?
    ensures var h := Invoke(c, outcome, parse).sent.value.headers;
      "Content-Type" in h && h["Content-Type"] == "application/json"
      && ("Authorization" in h <==> c.DeleteStore? || (Rule(c) != NoAuth && Truthy(Token(c))))
      && ("Authorization" in h ==> h["Authorization"] == "Bearer " + ToJsString(Token(c)))
  {
  }

  /** A non-2xx status on any operation but `deleteStore` resolves to
      `{ success: false, message }`, the message being the cleaned error text or,
      when that is empty, the operation's fallback; it is never empty. */
  lemma ErrorStatusBecomesFailureResult(c: Call, status: int, body: string, parse: Parser)
    requires !c.DeleteStore? && !IsOk(status)
    requires Invoke(c, HttpResponse(status, body), parse).sent.Some?
    ensures var m := ErrorMessageOf(CleanErrorMessage(body, parse));
      Invoke(c, HttpResponse(status, body), parse).settled ==
        Resolved(FailureResult(if m != "" then m else Fallback(c)))
      && (if m != "" then m else Fallback(c)) != ""
  {
    assert Invoke(c, HttpResponse(status, body), parse).settled ==
      Resolved(Respond(HttpResponse(status, body), parse, Fallback(c)));
  }

  /** A JSON error body with a non-empty string `message` resolves to a failure
      result carrying exactly that message. */
  lemma JsonErrorMessageSurfaces(c: Call, status: int, body: string, fields: map<string, Value>, message: string, parse: Parser)
    requires !c.DeleteStore? && !IsOk(status)
    requires (Rule(c) != RequiredBeforeTry && Rule(c) != RequiredBearer) || Truthy(Token(c))
    requires parse(body) == Parsed(Obj(fields)) && "message" in fields && fields["message"] == Str(message)
    requires message != ""
    ensures Invoke(c, HttpResponse(status, body), parse).settled == Resolved(FailureResult(message))
  {
  }

  /** `deleteStore`: a non-2xx status rejects with the status text; a 2xx body that
      is not JSON comes back as the raw text, the empty body included. */
  lemma DeleteStoreOutcomes(id: Value, token: Value, status: int, body: string, parse: Parser)
    ensures var s := Invoke(DeleteStore(id, token), HttpResponse(status, body), parse).settled;
      (!IsOk(status) ==> s == Rejected("HTTP error! status: " + IntToString(status)))
      && (IsOk(status) && parse(body).SyntaxError? ==> s == Resolved(Str(body)))
      && (IsOk(status) && parse(body).Parsed? ==> s == Resolved(parse(body).value))
  {
  }

  // ---- properties of cleanErrorMessage ----

  /** JSON whose `message` is truthy yields that message. */
  lemma CleanErrorMessageTakesMessage(errorData: string, parse: Parser)
    requires parse(errorData).Parsed? && Truthy(Get(parse(errorData).value, "message"))
    ensures CleanErrorMessage(errorData, parse) == Get(parse(errorData).value, "message")
  {
  }

  /** Non-null JSON without a truthy `message` yields the input unchanged. */
  lemma CleanErrorMessageKeepsOtherJson(errorData: string, parse: Parser)
    requires parse(errorData).Parsed? && !IsNullish(parse(errorData).value)
    requires !Truthy(Get(parse(errorData).value, "message"))
    ensures CleanErrorMessage(errorData, parse) == Str(errorData)
  {
  }

  /** Text that is not JSON yields the cleaned text, or the input when cleaning
      leaves nothing; the cleaned text has no braces and no leading or trailing
      quote, comma or white space. */
  lemma CleanErrorMessageOfText(errorData: string, parse: Parser)
    requires parse(errorData).SyntaxError?
    ensures var c := Cleaned(errorData);
      CleanErrorMessage(errorData, parse) == Str(if c != "" then c else errorData)
      && NoBraces(c) && (c != "" ==> !IsEdgeJunk(c[0]) && !IsEdgeJunk(c[|c| - 1]))
  {
    var unwrapped := ReplaceQuotedField(ReplaceQuotedField(errorData, "message"), "error");
    StripEdgeJunkKeepsNoBraces(RemoveBraces(StripSuccessFlags(unwrapped)));
  }

  lemma SliceKeepsNoBraces(s: string, i: nat, j: nat)
    requires NoBraces(s) && i <= j <= |s|
    ensures NoBraces(s[i..j])
  {
    forall k | 0 <= k < j - i ensures s[i..j][k] != '{' && s[i..j][k] != '}' {
      assert s[i..j][k] == s[i + k];
    }
  }

  /** Stripping the edges only removes characters, so no brace comes back. */
  lemma StripEdgeJunkKeepsNoBraces(s: string)
    requires NoBraces(s)
    ensures var c := StripEdgeJunk(s);
      NoBraces(c) && (c != "" ==> !IsEdgeJunk(c[0]) && !IsEdgeJunk(c[|c| - 1]))
  {
    var lead := StripLeadingJunk(s);
    SliceKeepsNoBraces(s, |s| - |lead|, |s|);
    var c := StripTrailingJunk(lead);
    SliceKeepsNoBraces(lead, 0, |c|);
    if c != "" {
      assert c[0] == lead[0];
    }
  }

  /** `{"message":"<v>"}` written with no spaces. */
  function MessageObjectText(v: string): (s: string)
    ensures |s| == |v| + 14 && s[0] == '{' && s[|s| - 1] == '}'
  {
    "{\"message\":\"" + v + "\"}"
  }

  /** A value free of double quotes. */
  predicate NoQuote(v: string)
  {
    forall k :: 0 <= k < |v| ==> v[k] != '"'
  }

  /** In the message object the only double quotes are the four it is written with. */
  lemma MessageObjectQuotes(v: string, k: nat)
    requires NoQuote(v) && k < |MessageObjectText(v)| && MessageObjectText(v)[k] == '"'
    ensures k == 1 || k == 9 || k == 11 || k == 12 + |v|
  {
    var s := MessageObjectText(v);
    assert s[..12] == "{\"message\":\"";
    assert forall j :: 12 <= j < 12 + |v| ==> s[j] == v[j - 12];
  }

  /** No later start of the leading `.*` completes the message pattern. */
  lemma NoLaterMessageMatch(v: string, p: nat)
    requires NoQuote(v) && 1 < p <= |MessageObjectText(v)|
    ensures FieldMatchAt(MessageObjectText(v), "message", p).None?
  {
    var s := MessageObjectText(v);
    assert s[3] == 'e' && s[10] == ':';
    assert 17 <= |s| ==> Lower(s[10..17])[0] == ':';
    if QuotedKeyAt(s, p, "message") {
      MessageObjectQuotes(v, p);
      MessageObjectQuotes(v, p + 8);
      if p == 11 {
        assert SkipWhitespace(s, 20) == 20;
      }
    }
  }

  /** With the leading `.*` empty, the message pattern captures `v`. */
  lemma FirstMessageMatch(v: string)
    requires v != "" && NoQuote(v) && NoLineTerminator(v)
    ensures FieldMatchAt(MessageObjectText(v), "message", 1) == Some(v)
  {
    var s := MessageObjectText(v);
    assert s[2..9] == "message";
    assert Lower(s[2..9]) == "message";
    assert QuotedKeyAt(s, 1, "message");
    assert s[10] == ':' && s[11] == '"';
    assert SkipWhitespace(s, 10) == 10;
    assert SkipWhitespace(s, 11) == 11;
    assert forall j :: 12 <= j < 12 + |v| ==> s[j] == v[j - 12];
    assert s[12 + |v|] == '"';
    assert SkipNonQuote(s, 12) == 12 + |v|;
    assert s[12..12 + |v|] == v;
  }

  /** The message pattern unwraps `{"message":"<v>"}` to `v`, for every non-empty
      `v` without double quotes or line terminators. */
  lemma UnwrapsMessageField(v: string)
    requires v != "" && NoQuote(v) && NoLineTerminator(v)
    ensures ReplaceQuotedField(MessageObjectText(v), "message") == v
  {
    var s := MessageObjectText(v);
    FirstMessageMatch(v);
    var p := |s|;
    while p > 1
      invariant 1 <= p <= |s|
      invariant LastFieldMatch(s, "message", |s|) == LastFieldMatch(s, "message", p)
    {
      NoLaterMessageMatch(v, p);
      p := p - 1;
    }
  }

  /** A value without `:` holds no `success: true/false` flag to strip. */
  lemma {:induction false} NoColonKeepsText(v: string)
    requires forall k :: 0 <= k < |v| ==> v[k] != ':'
    ensures StripSuccessFlags(v) == v
    decreases |v|
  {
    if v != [] {
      assert SuccessFlagLength(v).None?;
      NoColonKeepsText(v[1..]);
      assert v == [v[0]] + v[1..];
    }
  }

  lemma {:induction false} NoBracesKeepsText(v: string)
    requires NoBraces(v)
    ensures RemoveBraces(v) == v
  {
    if v != [] {
      NoBracesKeepsText(v[1..]);
      assert v == [v[0]] + v[1..];
    }
  }

  /** A backend error body `{"message":"<v>"}` that the parser rejects is shown as
      `v` itself, for every plain message: non-empty, with no double quote, brace,
      colon or line terminator, and no comma or white space at either end. */
  lemma CleansWrappedMessage(v: string, parse: Parser)
    requires v != "" && NoQuote(v) && NoLineTerminator(v)
    requires NoBraces(v) && forall k :: 0 <= k < |v| ==> v[k] != ':'
    requires !IsEdgeJunk(v[0]) && !IsEdgeJunk(v[|v| - 1])
    requires parse(MessageObjectText(v)).SyntaxError?
    ensures CleanErrorMessage(MessageObjectText(v), parse) == Str(v)
  {
    UnwrapsMessageField(v);
    NoColonKeepsText(v);
    NoBracesKeepsText(v);
    assert StripLeadingJunk(v) == v;
    assert StripTrailingJunk(v) == v;
  }
}
