/**
 * The admin dashboard's password sign-in: two browser storage slots, the
 * session flag and the session id, set together by login and removed
 * together by logout.
 *
 * The slots are fields of an `AdminSession` object; `hasWindow` says whether
 * the code runs in a browser. The session id's clock reading and random digits
 * are parameters.
 */
module AdminAuth {
  import opened Wrappers
  import opened Strings

  /** The hard-coded admin password, an opaque constant here. */
  const ADMIN_PASSWORD: string := "lovermac31"

  /** The result object of `adminLogin`. */
  datatype LoginResult = LoginResult(success: bool, error: Option<string>)

  /**
   * `generateSessionId`: `admin_`, the clock reading in milliseconds, `_`, and
   * the base-36 digits taken from a random number (possibly none).
   */
  function SessionId(now: nat, randomDigits: string): (id: string)
    ensures id != []
    ensures "admin_" <= id
  {
    "admin_" + NatToString(now) + "_" + randomDigits
  }

  /** The clock reading a session id carries: the digits after `admin_`. */
  function SessionTime(id: string): Option<nat> {
    if "admin_" <= id then Some(ParseDigits(LeadingDigits(id[6..]))) else None
  }

  /** A session id gives back the clock reading it was made from. */
  lemma SessionTimeRoundTrip(now: nat, randomDigits: string)
    ensures SessionTime(SessionId(now, randomDigits)) == Some(now)
  {
    var s := NatToString(now);
    var id := SessionId(now, randomDigits);
    assert id[6..] == s + ("_" + randomDigits);
    LeadingDigitsOf(s, "_" + randomDigits);
    ParseNatToString(now);
  }

  /** Sessions opened at distinct instants get distinct ids, whatever their random digits. */
  lemma SessionIdsDistinct(t1: nat, t2: nat, digits1: string, digits2: string)
    requires t1 != t2
    ensures SessionId(t1, digits1) != SessionId(t2, digits2)
  {
    SessionTimeRoundTrip(t1, digits1);
    SessionTimeRoundTrip(t2, digits2);
  }

  class AdminSession {
    /** Whether a browser `window` (and with it `localStorage`) exists. */
    const hasWindow: bool
    /** The `meridian_admin_session` slot. */
    var session: Option<string>
    /** The `meridian_admin_session_id` slot. */
    var sessionId: Option<string>

    constructor (hasWindow: bool, session: Option<string>, sessionId: Option<string>)
      ensures this.hasWindow == hasWindow && this.session == session && this.sessionId == sessionId
    {
      this.hasWindow := hasWindow;
      this.session := session;
      this.sessionId := sessionId;
    }

    /** `isAdminAuthenticated`: in a browser, the flag reads `active` and the id slot holds a non-empty string. */
    predicate IsAdminAuthenticated()
      reads this
    {
      hasWindow && session == Some("active") && sessionId.Some? && sessionId.value != ""
    }

    /** `getAdminSessionId`: the id slot, or null without a browser. */
    function GetAdminSessionId(): (r: Option<string>)
      reads this
      ensures !hasWindow ==> r.None?
      ensures hasWindow ==> r == sessionId
    {
      if hasWindow then sessionId else None
    }

    /**
     * `adminLogin`: a wrong password fails without touching storage; the right
     * one sets both slots, replacing any session already there. Past the
     * password check, a missing `localStorage` throws.
     */
    method AdminLogin(password: string, now: nat, randomDigits: string) returns (o: Outcome<LoginResult>)
      modifies this
      ensures password != ADMIN_PASSWORD ==> o == Returned(LoginResult(false, Some("Invalid password")))
      ensures password != ADMIN_PASSWORD || !hasWindow ==> session == old(session) && sessionId == old(sessionId)
      ensures password == ADMIN_PASSWORD && !hasWindow ==> o.Threw?
      ensures password == ADMIN_PASSWORD && hasWindow ==> o == Returned(LoginResult(true, None))
      ensures password == ADMIN_PASSWORD && hasWindow ==> session == Some("active") && sessionId == Some(SessionId(now, randomDigits))
      ensures password == ADMIN_PASSWORD && hasWindow ==> IsAdminAuthenticated()
    {
      if password != ADMIN_PASSWORD {
        return Returned(LoginResult(false, Some("Invalid password")));
      }
      if !hasWindow {
        return Threw("localStorage is not defined");
      }
      var id := SessionId(now, randomDigits);
      session := Some("active");
      sessionId := Some(id);
      return Returned(LoginResult(true, None));
    }

    /** `adminLogout`: removes both slots; without a browser the storage access throws. */
    method AdminLogout() returns (o: Outcome<()>)
      modifies this
      ensures !hasWindow ==> o.Threw? && session == old(session) && sessionId == old(sessionId)
      ensures hasWindow ==> o.Returned? && session.None? && sessionId.None?
      ensures !IsAdminAuthenticated()
    {
      if !hasWindow {
        return Threw("localStorage is not defined");
      }
      session := None;
      sessionId := None;
      return Returned(());
    }
  }

  /** Without a browser nobody is an authenticated admin and there is no session id, whatever the slots hold. */
  lemma NoWindowNoAdmin(s: AdminSession)
    requires !s.hasWindow
    ensures !s.IsAdminAuthenticated() && s.GetAdminSessionId().None?
  {
  }
}
