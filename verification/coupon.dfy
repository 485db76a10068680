/**
 * The coupon validation endpoint: `POST` reads `couponCode` from the JSON
 * body, looks it up upper-cased in the `VALID_COUPONS` table and answers with
 * a status code and a JSON body.
 *
 * The body is the parsed JSON value, or `None` when it does not parse; the
 * current time and the time the table was built are parameters
 * (milliseconds).
 */
module CouponRoute {
  import opened Wrappers
  import opened Json
  import opened Strings

  const DAY_MS: int := 24 * 60 * 60 * 1000

  /** One entry of `VALID_COUPONS`: the unlocked episodes, the expiry as written, and the instant it denotes. */
  datatype Coupon = Coupon(episodes: seq<string>, expiresAt: string, expiryMs: int)

  /**
   * `VALID_COUPONS`, built when the module is loaded at `loadTime`. The trial
   * coupon expires seven days later; `trialExpiresAt` is that instant's
   * `toISOString()` rendering. A date-only string denotes midnight UTC.
   */
  function ValidCoupons(loadTime: int, trialExpiresAt: string): (table: map<string, Coupon>)
    ensures table.Keys == {"DEMO-2026-001", "STUDENT-REACT-101", "TRIAL-7DAYS"}
  {
    map[
      "DEMO-2026-001" := Coupon(["all"], "2026-12-31", 1798675200000),
      "STUDENT-REACT-101" := Coupon(["understanding-react-hooks", "state-management"], "2026-06-30", 1782777600000),
      "TRIAL-7DAYS" := Coupon(["all"], trialExpiresAt, loadTime + 7 * DAY_MS)
    ]
  }

  /** The JSON bodies the endpoint answers with. */
  datatype ResponseBody =
    | ErrorBody(error: string)
    | Rejected(message: string)
    | Accepted(message: string, unlockedEpisodes: seq<string>, expiresAt: string)

  datatype Response = Response(status: nat, body: ResponseBody)

  /**
   * `POST`: a body that does not parse or is `null`, and a truthy code that is
   * not a string (it has no `toUpperCase`), end in the catch-all 500; a falsy
   * code is a 400; everything else is looked up upper-cased.
   */
  function Post(body: Option<JsonValue>, table: map<string, Coupon>, now: int): (r: Response)
    ensures r.status == 500 <==> body.None? || Member(body.value, "couponCode").None?
                                  || (Truthy(Member(body.value, "couponCode").value) && !Member(body.value, "couponCode").value.Str?)
    ensures r.status == 500 ==> r.body == ErrorBody("Failed to validate coupon")
    ensures r.status == 400 <==> body.Some? && Member(body.value, "couponCode").Some? && !Truthy(Member(body.value, "couponCode").value)
    ensures r.status == 400 ==> r.body == ErrorBody("Coupon code is required")
    ensures body.Some? && Member(body.value, "couponCode").Some? && Member(body.value, "couponCode").value.Str?
            && Truthy(Member(body.value, "couponCode").value)
            ==> r == Lookup(Member(body.value, "couponCode").value.s, table, now)
    ensures r.body.Accepted? ==> r.status == 200
  {
    if body.None? then Response(500, ErrorBody("Failed to validate coupon"))
    else
      match Member(body.value, "couponCode")
      case None => Response(500, ErrorBody("Failed to validate coupon"))
      case Some(code) =>
        if !Truthy(code) then Response(400, ErrorBody("Coupon code is required"))
        else if !code.Str? then Response(500, ErrorBody("Failed to validate coupon"))
        else Lookup(code.s, table, now)
  }

  /** The table lookup for a non-empty string code. */
  function Lookup(code: string, table: map<string, Coupon>, now: int): (r: Response)
    ensures r.status == 200
    ensures ToUpper(code) !in table ==> r.body == Rejected("Invalid or expired coupon code")
    ensures ToUpper(code) in table && table[ToUpper(code)].expiryMs < now ==> r.body == Rejected("Coupon has expired")
    ensures r.body.Accepted? <==> ToUpper(code) in table && now <= table[ToUpper(code)].expiryMs
    ensures r.body.Accepted? ==> r.body == Accepted("Coupon accepted!", table[ToUpper(code)].episodes, table[ToUpper(code)].expiresAt)
  {
    var key := ToUpper(code);
    if key !in table then Response(200, Rejected("Invalid or expired coupon code"))
    else
      var coupon := table[key];
      if coupon.expiryMs < now then Response(200, Rejected("Coupon has expired"))
      else Response(200, Accepted("Coupon accepted!", coupon.episodes, coupon.expiresAt))
  }

  /** The request body `{"couponCode": code}`. */
  function CodeBody(code: JsonValue): JsonValue {
    Object(map["couponCode" := code])
  }

  /** A missing, empty, `null` or otherwise falsy code is a 400 "Coupon code is required". */
  lemma MissingCodeRejected(code: JsonValue, table: map<string, Coupon>, now: int)
    requires !Truthy(code)
    ensures Post(Some(CodeBody(code)), table, now) == Response(400, ErrorBody("Coupon code is required"))
    ensures Post(Some(Object(map[])), table, now) == Response(400, ErrorBody("Coupon code is required"))
  {
  }

  /** Codes that differ only in the case of their letters get the same answer. */
  lemma {:induction false} CaseInsensitive(c1: string, c2: string, table: map<string, Coupon>, now: int)
    requires ToUpper(c1) == ToUpper(c2)
    ensures Post(Some(CodeBody(Str(c1))), table, now) == Post(Some(CodeBody(Str(c2))), table, now)
  {
    if c1 == [] || c2 == [] {
      assert |c1| == |ToUpper(c1)| == |ToUpper(c2)| == |c2|;
    }
  }

  /** The table's keys are upper-case already, so each of them, typed as is, reaches its own entry. */
  lemma KeysAreUpperCase(loadTime: int, trialExpiresAt: string)
    ensures forall k :: k in ValidCoupons(loadTime, trialExpiresAt) ==> k != [] && ToUpper(k) == k
  {
    UpperOfUpper("DEMO-2026-001");
    UpperOfUpper("STUDENT-REACT-101");
    UpperOfUpper("TRIAL-7DAYS");
  }

  /** A code is accepted up to its expiry instant, inclusive, and rejected as expired from the next millisecond. */
  lemma ExpiryBoundary(table: map<string, Coupon>, code: string)
    requires code in table && code != [] && ToUpper(code) == code
    ensures Post(Some(CodeBody(Str(code))), table, table[code].expiryMs).body
              == Accepted("Coupon accepted!", table[code].episodes, table[code].expiresAt)
    ensures Post(Some(CodeBody(Str(code))), table, table[code].expiryMs + 1).body == Rejected("Coupon has expired")
  {
  }

  /** Lower-case spelling of a table key reaches the same entry: `"trial-7days"` right after load is accepted. */
  lemma LowerCaseTrialAccepted(loadTime: int, trialExpiresAt: string)
    ensures Post(Some(CodeBody(Str("trial-7days"))), ValidCoupons(loadTime, trialExpiresAt), loadTime).body
         == Accepted("Coupon accepted!", ["all"], trialExpiresAt)
  {
    assert ToUpper("trial-7days") == "TRIAL-7DAYS";
  }
}
