/** The session lifecycle kept in `sessionStorage`: a login stamps the time, user
    activity and validation refresh the stamp while the session is live, and an
    idle period of more than 60 minutes expires it. "Now" (`Date.now()`) is a
    parameter of every operation that reads the clock. */
module SessionManager {
  import opened Options
  import opened JsStrings
  import opened JsValues
  import opened Browser
  import opened Toasts

  /** 60 minutes in milliseconds. */
  const SessionTimeout: nat := 60 * 60 * 1000

  const ExpiredMessage := "Your session has expired. Please log in again."

  /** `isSessionExpired()`: expired when either key is missing or empty; otherwise
      when strictly more than the timeout has passed since the stored stamp. A stamp
      `parseInt` reads as NaN never compares greater, so it never expires. */
  function IsSessionExpired(items: map<string, string>, now: nat): (r: bool)
    ensures !r ==> Present(items, UserDataKey) && Present(items, TimestampKey)
    ensures !r && ParseInt(items[TimestampKey]).Some? ==> now <= ParseInt(items[TimestampKey]).value + SessionTimeout
  {
    if !Present(items, UserDataKey) || !Present(items, TimestampKey) then true
    else
      match ParseInt(items[TimestampKey])
      case None => false
      case Some(stamp) => now - stamp > SessionTimeout
  }

  /** The storage after a stamp with time `now`. */
  function Stamped(items: map<string, string>, now: nat): map<string, string>
  {
    items[TimestampKey := NatToString(now)]
  }

  /** `initializeSession()` */
  method InitializeSession(st: SessionStorage, now: nat)
    modifies st
    ensures st.items == Stamped(old(st.items), now)
  {
    st.SetItem(TimestampKey, NatToString(now));
  }

  /** `updateSessionActivity()` */
  method UpdateSessionActivity(st: SessionStorage, now: nat)
    modifies st
    ensures st.items == Stamped(old(st.items), now)
  {
    st.SetItem(TimestampKey, NatToString(now));
  }

  /** `clearExpiredSession()`: removes both keys and asks for the expiry toast. */
  method ClearExpiredSession(st: SessionStorage) returns (toast: Option<ToastCall>)
    modifies st
    ensures st.items == old(st.items) - {UserDataKey, TimestampKey}
    ensures toast == Some(ToastCall(ErrorKind, Str(ExpiredMessage)))
  {
    st.RemoveItem(UserDataKey);
    st.RemoveItem(TimestampKey);
    // showBackendMessage({ success: false, message: ExpiredMessage }, 'error')
    NoticeToast(false, Str(ExpiredMessage), "error");
    toast := MessageToast(Notice(false, Str(ExpiredMessage)), "error");
  }

  /** `handleSessionExpiration(navigate)`: on an expired session, clear it and
      redirect to the login page. */
  method HandleSessionExpiration(st: SessionStorage, now: nat)
    returns (expired: bool, nav: Option<Route>, toast: Option<ToastCall>)
    modifies st
    ensures expired == IsSessionExpired(old(st.items), now)
    ensures expired ==> st.items == old(st.items) - {UserDataKey, TimestampKey}
                        && nav == Some(LoginRoute) && toast == Some(ToastCall(ErrorKind, Str(ExpiredMessage)))
    ensures !expired ==> st.items == old(st.items) && nav == None && toast == None
  {
    if IsSessionExpired(st.items, now) {
      toast := ClearExpiredSession(st);
      nav := Some(LoginRoute);
      return true, nav, toast;
    }
    return false, None, None;
  }

  /** `validateSession(navigate)`: false on an expired session (which is cleared);
      otherwise the stamp is refreshed and the session is live right after. */
  method ValidateSession(st: SessionStorage, now: nat)
    returns (valid: bool, nav: Option<Route>, toast: Option<ToastCall>)
    modifies st
    ensures valid == !IsSessionExpired(old(st.items), now)
    ensures !valid ==> st.items == old(st.items) - {UserDataKey, TimestampKey} && nav == Some(LoginRoute)
                       && toast == Some(ToastCall(ErrorKind, Str(ExpiredMessage)))
    ensures valid ==> st.items == Stamped(old(st.items), now) && nav == None && toast == None
                      && !IsSessionExpired(st.items, now)
  {
    var expired;
    expired, nav, toast := HandleSessionExpiration(st, now);
    if expired {
      return false, nav, toast;
    }
    UpdateSessionActivity(st, now);
    StampedSessionIsLive(old(st.items), now);
    valid := true;
  }

  /** The `updateActivity` listener of `setupActivityListeners`: refresh the stamp
      only while the session is live, so activity never revives an expired one. */
  method OnUserActivity(st: SessionStorage, now: nat)
    modifies st
    ensures IsSessionExpired(old(st.items), now) ==> st.items == old(st.items)
    ensures !IsSessionExpired(old(st.items), now) ==> st.items == Stamped(old(st.items), now)
    ensures IsSessionExpired(old(st.items), now) ==>
              forall later: nat :: later >= now ==> IsSessionExpired(st.items, later)
  {
    if !IsSessionExpired(st.items, now) {
      UpdateSessionActivity(st, now);
    } else {
      forall later: nat | later >= now
        ensures IsSessionExpired(st.items, later)
      {
        ExpiryIsMonotonic(st.items, now, later);
      }
    }
  }

  /** One tick of the 5-minute interval set by `setupSessionMonitoring`: on an
      expired session the interval is cleared and the expiry handled. */
  method MonitorTick(st: SessionStorage, now: nat)
    returns (stopInterval: bool, nav: Option<Route>, toast: Option<ToastCall>)
    modifies st
    ensures stopInterval == IsSessionExpired(old(st.items), now)
    ensures stopInterval ==> st.items == old(st.items) - {UserDataKey, TimestampKey} && nav == Some(LoginRoute)
                             && toast == Some(ToastCall(ErrorKind, Str(ExpiredMessage)))
    ensures !stopInterval ==> st.items == old(st.items) && nav == None && toast == None
  {
    stopInterval := IsSessionExpired(st.items, now);
    nav, toast := None, None;
    if stopInterval {
      var handled;
      handled, nav, toast := HandleSessionExpiration(st, now);
    }
  }

  // ---- properties of the expiry predicate ----

  /** A missing or empty `userData` or `sessionTimestamp` means expired. */
  lemma MissingKeyMeansExpired(items: map<string, string>, now: nat)
    requires !Present(items, UserDataKey) || !Present(items, TimestampKey)
    ensures IsSessionExpired(items, now)
  {
  }

  /** Expiry is monotonic in time for a fixed storage. */
  lemma ExpiryIsMonotonic(items: map<string, string>, now: nat, later: nat)
    requires now <= later && IsSessionExpired(items, now)
    ensures IsSessionExpired(items, later)
  {
  }

  /** A stamp that `parseInt` cannot read keeps the session live forever. */
  lemma UnreadableStampNeverExpires(items: map<string, string>, now: nat)
    requires Present(items, UserDataKey) && Present(items, TimestampKey)
    requires ParseInt(items[TimestampKey]).None?
    ensures !IsSessionExpired(items, now)
  {
  }

  /** With `userData` present, a session stamped at `stamp` is live at `now` iff at
      most 60 minutes have passed: exactly 60 minutes idle is still live. */
  lemma StampedSessionLiveWithinTimeout(items: map<string, string>, stamp: nat, now: nat)
    requires Present(items, UserDataKey)
    ensures !IsSessionExpired(Stamped(items, stamp), now) <==> now - stamp <= SessionTimeout
  {
    ParseIntOfNatToString(stamp);
  }

  /** A stamp written now leaves a session with `userData` live now; a session
      without `userData` stays expired whatever is stamped. */
  lemma StampedSessionIsLive(items: map<string, string>, now: nat)
    ensures !IsSessionExpired(Stamped(items, now), now) <==> Present(items, UserDataKey)
  {
    if Present(items, UserDataKey) {
      StampedSessionLiveWithinTimeout(items, now, now);
    }
  }

  /** Stamping touches only `sessionTimestamp`. */
  lemma StampChangesOnlyTimestamp(items: map<string, string>, now: nat, key: string)
    requires key != TimestampKey
    ensures (key in Stamped(items, now) <==> key in items)
    ensures key in items ==> Stamped(items, now)[key] == items[key]
  {
  }

  /** Clearing is idempotent. */
  lemma ClearIsIdempotent(items: map<string, string>)
    ensures (items - {UserDataKey, TimestampKey}) - {UserDataKey, TimestampKey} == items - {UserDataKey, TimestampKey}
  {
  }
}
