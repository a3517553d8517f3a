/** The check the three authentication gates (the protected route, the login page
    on mount and the dashboard on mount) make of the stored `userData`: present,
    parsable, truthy, with a truthy `success`. None of them looks at
    `sessionTimestamp`. */
module AuthGate {
  import opened Options
  import opened JsValues
  import opened Browser
  import SessionManager

  /** What a gate concludes from the stored text. */
  datatype Verdict =
    | NoSession          // `!userData`: missing or empty
    | Unparsable         // `JSON.parse` throws
    | Invalid            // `!parsedData || !parsedData.success`
    | Accepted(data: Value)

  function StoredVerdict(stored: Option<string>, parse: Parser): (v: Verdict)
    ensures v.Accepted? ==> stored.Some? && parse(stored.value) == Parsed(v.data)
                            && Truthy(v.data) && Truthy(Get(v.data, "success"))
  {
    if stored.None? || stored.value == "" then NoSession
    else
      match parse(stored.value)
      case SyntaxError(_) => Unparsable
      case Parsed(data) =>
        if !Truthy(data) || !Truthy(Get(data, "success")) then Invalid else Accepted(data)
  }

  /** The verdict on a storage snapshot. */
  function GateVerdict(items: map<string, string>, parse: Parser): Verdict
  {
    StoredVerdict(if UserDataKey in items then Some(items[UserDataKey]) else None, parse)
  }

  // ---- properties ----

  /** The verdict is `NoSession` exactly when `userData` is missing or empty, and
      `Accepted` exactly when it parses to a value with a truthy `success`. */
  lemma VerdictCases(items: map<string, string>, parse: Parser)
    ensures GateVerdict(items, parse).NoSession? <==> !Present(items, UserDataKey)
    ensures GateVerdict(items, parse).Accepted? <==>
      Present(items, UserDataKey) && parse(items[UserDataKey]).Parsed?
      && Truthy(parse(items[UserDataKey]).value) && Truthy(Get(parse(items[UserDataKey]).value, "success"))
  {
  }

  /** The gates never consult `sessionTimestamp`: writing or removing it does not
      change the verdict. */
  lemma VerdictIgnoresTimestamp(items: map<string, string>, stamp: string, parse: Parser)
    ensures GateVerdict(items[TimestampKey := stamp], parse) == GateVerdict(items, parse)
    ensures GateVerdict(items - {TimestampKey}, parse) == GateVerdict(items, parse)
  {
    assert UserDataKey != TimestampKey;
  }

  /** So a gate admits a session the session manager calls expired: stored login
      data with no timestamp at all is accepted. */
  lemma GateAdmitsExpiredSession(stored: string, data: Value, now: nat, parse: Parser)
    requires stored != "" && parse(stored) == Parsed(data)
    requires Truthy(data) && Truthy(Get(data, "success"))
    ensures GateVerdict(map[UserDataKey := stored], parse) == Accepted(data)
    ensures SessionManager.IsSessionExpired(map[UserDataKey := stored], now)
  {
    assert !Present(map[UserDataKey := stored], TimestampKey);
  }
}
