/** The toast helpers: which toast, if any, each one asks the page to show. The
    page-level `window.showToast` hook is the one external call; a helper's effect
    is returned as the call it would make, on the assumption that the hook is
    installed. */
module Toasts {
  import opened Options
  import opened JsStrings
  import opened JsValues

  datatype Kind = SuccessKind | ErrorKind | InfoKind

  /** One `window.showToast(message, kind, duration)` call. */
  datatype ToastCall = ToastCall(kind: Kind, message: Value)

  /** The part of `showBackendMessage` after any string has been parsed: a truthy
      `message` becomes one toast, a success toast only for the type 'success'. */
  function MessageToast(response: Value, requested: string): Option<ToastCall>
  {
    if Truthy(response) && Truthy(Get(response, "message")) then
      Some(ToastCall(if requested == "success" then SuccessKind else ErrorKind, Get(response, "message")))
    else None
  }

  /** `showBackendMessage(response, type)`: a string is parsed first; a string that
      is not JSON is shown as an error whatever the type asked for. */
  function ShowBackendMessage(response: Value, requested: string, parse: Parser): (r: Option<ToastCall>)
    ensures r.Some? && r.value.kind == SuccessKind ==> requested == "success" && Truthy(r.value.message)
    ensures !response.Str? ==> (r.Some? <==> Truthy(response) && Truthy(Get(response, "message")))
  {
    match response
    case Str(text) =>
      (match parse(text)
       case SyntaxError(_) => Some(ToastCall(ErrorKind, response))
       case Parsed(v) => MessageToast(v, requested))
    case _ => MessageToast(response, requested)
  }

  /** The capture of `/message: (.+)$/`: the text after the leftmost
      "message: " whose remainder is non-empty and free of line terminators. */
  function MessageTail(s: string): (r: Option<string>)
    ensures r.Some? ==> r.value != [] && NoLineTerminator(r.value)
    decreases |s|
  {
    if StartsWith(s, "message: ") && |s| > 9 && NoLineTerminator(s[9..]) then Some(s[9..])
    else if s == [] then None
    else MessageTail(s[1..])
  }

  /** `showLoginErrorToast(error)`, given `error.message`: always one error toast;
      for an "HTTP error!" text ending in "message: <json>" whose JSON has a truthy
      `message`, that inner message, otherwise the whole error text. Reading
      `.message` of a parsed `null` throws and lands in the same fallback. */
  function ShowLoginErrorToast(errorMessage: string, parse: Parser): (r: ToastCall)
    ensures r.kind == ErrorKind
    ensures r.message == Str(errorMessage) || Truthy(r.message)
  {
    var whole := ToastCall(ErrorKind, Str(errorMessage));
    if errorMessage != "" && Includes(errorMessage, "HTTP error!") then
      match MessageTail(errorMessage)
      case None => whole
      case Some(json) =>
        match parse(json)
        case SyntaxError(_) => whole
        case Parsed(inner) =>
          if IsNullish(inner) || !Truthy(Get(inner, "message")) then whole
          else ToastCall(ErrorKind, Get(inner, "message"))
    else whole
  }

  // ---- properties ----

  /** A string that is not JSON becomes exactly one error toast carrying the raw
      string, even when a success toast was asked for. */
  lemma UnparsableStringIsErrorToast(text: string, requested: string, parse: Parser)
    requires parse(text).SyntaxError?
    ensures ShowBackendMessage(Str(text), requested, parse) == Some(ToastCall(ErrorKind, Str(text)))
  {
  }

  /** A string that parses is shown exactly as the parsed value would be. */
  lemma ParsedStringActsAsValue(text: string, v: Value, requested: string, parse: Parser)
    requires parse(text) == Parsed(v) && !v.Str?
    ensures ShowBackendMessage(Str(text), requested, parse) == ShowBackendMessage(v, requested, parse)
  {
  }

  /** A toast appears iff the (parsed) response has a truthy `message`; its kind is
      success iff the type is 'success', so 'info' shows as an error. */
  lemma ToastIffMessage(response: Value, requested: string, parse: Parser)
    requires !response.Str?
    ensures ShowBackendMessage(response, requested, parse).Some? <==> Truthy(response) && Truthy(Get(response, "message"))
    ensures ShowBackendMessage(response, requested, parse).Some? ==>
      ShowBackendMessage(response, requested, parse).value ==
        ToastCall(if requested == "success" then SuccessKind else ErrorKind, Get(response, "message"))
  {
  }

  /** A notice the page builds with a truthy message is exactly one toast with
      that message. */
  lemma NoticeToast(success: bool, message: Value, requested: string)
    requires Truthy(message)
    ensures MessageToast(Notice(success, message), requested) ==
      Some(ToastCall(if requested == "success" then SuccessKind else ErrorKind, message))
  {
  }

  /** Without "HTTP error!" the whole error message is shown. */
  lemma LoginErrorWithoutHttpMarker(errorMessage: string, parse: Parser)
    requires !Includes(errorMessage, "HTTP error!")
    ensures ShowLoginErrorToast(errorMessage, parse) == ToastCall(ErrorKind, Str(errorMessage))
  {
  }

  /** The inner message is shown exactly when the text has "HTTP error!" and its
      trailing JSON parses to a value with a truthy `message`; every other case
      shows the full text. */
  lemma LoginErrorInnerMessage(errorMessage: string, parse: Parser)
    ensures var t := ShowLoginErrorToast(errorMessage, parse);
      t.kind == ErrorKind &&
      (t.message != Str(errorMessage) ==>
         Includes(errorMessage, "HTTP error!") && MessageTail(errorMessage).Some? &&
         parse(MessageTail(errorMessage).value).Parsed? &&
         t.message == Get(parse(MessageTail(errorMessage).value).value, "message") && Truthy(t.message))
    ensures (Includes(errorMessage, "HTTP error!") && MessageTail(errorMessage).Some?
             && parse(MessageTail(errorMessage).value).Parsed?
             && !IsNullish(parse(MessageTail(errorMessage).value).value)
             && Truthy(Get(parse(MessageTail(errorMessage).value).value, "message"))) ==>
        ShowLoginErrorToast(errorMessage, parse) ==
          ToastCall(ErrorKind, Get(parse(MessageTail(errorMessage).value).value, "message"))
  {
  }
}
