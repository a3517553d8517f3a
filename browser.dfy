/** The browser facilities the application uses: the tab-scoped `sessionStorage`
    and the routes it navigates to. */
module Browser {
  import opened Options

  /** The two storage keys the application uses. */
  const UserDataKey := "userData"
  const TimestampKey := "sessionTimestamp"

  datatype Route = LoginRoute | DashboardRoute

  /** `sessionStorage`: a string-to-string map owned by one browser tab. */
  class SessionStorage {
    var items: map<string, string>

    constructor (initial: map<string, string>)
      ensures items == initial
    {
      items := initial;
    }

    /** `getItem(key)`: `None` stands for the `null` a missing key gives. */
    function GetItem(key: string): (r: Option<string>)
      reads this
      ensures r.Some? <==> key in items
      ensures r.Some? ==> r.value == items[key]
    {
      if key in items then Some(items[key]) else None
    }

    method SetItem(key: string, value: string)
      modifies this
      ensures items == old(items)[key := value]
    {
      items := items[key := value];
    }

    method RemoveItem(key: string)
      modifies this
      ensures items == old(items) - {key}
    {
      items := items - {key};
    }
  }

  /** `!sessionStorage.getItem(key)` is false: the key holds a non-empty string.
      (An empty string is falsy, so the application treats it like a missing key.) */
  predicate Present(items: map<string, string>, key: string)
  {
    key in items && items[key] != ""
  }
}
