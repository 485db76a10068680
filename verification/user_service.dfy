/**
 * The user service: creating a user document, and the two history
 * sub-collections `episodeViews` and `couponsRedeemed` of a user.
 *
 * The collection is an in-memory map held by a `UserService` object. A
 * document is a map from field name to value; a `Date` is its instant in
 * milliseconds (`Number`). A write that fails is the input flag
 * `writeFails`, and the clock reading `new Date()` is the parameter `now`.
 */
module UserService {
  import opened Wrappers
  import opened Json

  type Document = map<string, JsonValue>

  /** One record of a history sub-collection: what was viewed or redeemed, and when. */
  datatype HistoryRecord = HistoryRecord(key: string, at: int)

  /** The fields `createUserDocument` writes before the caller's fields are spread over them. */
  function Defaults(userId: string, userData: Document, now: int): (d: Document)
    ensures d.Keys == {"id", "email", "displayName", "createdAt", "lastLoginAt", "subscriptionStatus",
                       "couponsRedeemed", "episodesWatched", "totalChatMessages"}
  {
    var email := if "email" in userData then userData["email"] else Undefined;
    var displayName := if "displayName" in userData then userData["displayName"] else Undefined;
    map[
      "id" := Str(userId),
      "email" := if Truthy(email) then email else Str(""),
      "displayName" := if Truthy(displayName) then displayName else Str("New User"),
      "createdAt" := Number(now),
      "lastLoginAt" := Number(now),
      "subscriptionStatus" := Str("free"),
      "couponsRedeemed" := Array([]),
      "episodesWatched" := Array([]),
      "totalChatMessages" := Number(0)
    ]
  }

  /**
   * `{ ...defaults, ...userData }`: every field the caller passes, `id` and
   * empty strings included, overrides the default; the other defaults stay.
   */
  function NewUser(userId: string, userData: Document, now: int): (u: Document)
    ensures u.Keys == Defaults(userId, userData, now).Keys + userData.Keys
    ensures forall k :: k in userData ==> u[k] == userData[k]
    ensures forall k :: k in Defaults(userId, userData, now) && k !in userData ==> u[k] == Defaults(userId, userData, now)[k]
  {
    Defaults(userId, userData, now) + userData
  }

  /**
   * A caller's `email` or `displayName`, falsy or not, is what is stored:
   * the `|| ""` and `|| "New User"` matter only when the field is absent.
   */
  lemma DefaultsOnlyForAbsentFields(userId: string, userData: Document, now: int)
    ensures "email" !in userData ==> NewUser(userId, userData, now)["email"] == Str("")
    ensures "displayName" !in userData ==> NewUser(userId, userData, now)["displayName"] == Str("New User")
    ensures "email" in userData ==> NewUser(userId, userData, now)["email"] == userData["email"]
    ensures "displayName" in userData ==> NewUser(userId, userData, now)["displayName"] == userData["displayName"]
    ensures "id" !in userData ==> NewUser(userId, userData, now)["id"] == Str(userId)
  {
    var d := Defaults(userId, userData, now);
    assert d["email"] == (if "email" in userData && Truthy(userData["email"]) then userData["email"] else Str(""));
    assert d["displayName"] == (if "displayName" in userData && Truthy(userData["displayName"]) then userData["displayName"] else Str("New User"));
    assert d["id"] == Str(userId);
  }

  /** Without caller fields the new user is the default record. */
  lemma NoDataGivesDefaultRecord(userId: string, now: int)
    ensures NewUser(userId, map[], now) == map[
              "id" := Str(userId), "email" := Str(""), "displayName" := Str("New User"),
              "createdAt" := Number(now), "lastLoginAt" := Number(now), "subscriptionStatus" := Str("free"),
              "couponsRedeemed" := Array([]), "episodesWatched" := Array([]), "totalChatMessages" := Number(0)]
  {
    var none: Document := map[];
    assert Defaults(userId, none, now) + none == Defaults(userId, none, now);
  }

  /** A caller `id` wins over the document id: the stored `id` field can differ from the key it is stored under. */
  lemma CallerIdWins(userId: string, otherId: string, now: int)
    ensures NewUser(userId, map["id" := Str(otherId)], now)["id"] == Str(otherId)
  {
  }

  /** The `users` collection and the history sub-collections of each user. */
  class UserService {
    var users: map<string, Document>
    var episodeViews: map<string, seq<HistoryRecord>>
    var couponsRedeemed: map<string, seq<HistoryRecord>>

    constructor ()
      ensures users == map[] && episodeViews == map[] && couponsRedeemed == map[]
    {
      users := map[];
      episodeViews := map[];
      couponsRedeemed := map[];
    }

    /** The records of one user's history, empty when there are none. */
    static function History(h: map<string, seq<HistoryRecord>>, userId: string): seq<HistoryRecord> {
      if userId in h then h[userId] else []
    }

    /**
     * `createUserDocument`: writes the new user over any existing document
     * (no merge) and returns what it wrote; a failed write, or an empty id
     * (no document path), is re-thrown and changes nothing.
     */
    method CreateUserDocument(userId: string, userData: Document, now: int, writeFails: bool) returns (o: Outcome<Document>)
      modifies this
      ensures o.Threw? <==> writeFails || userId == ""
      ensures o.Threw? ==> users == old(users)
      ensures o.Returned? ==> o.value == NewUser(userId, userData, now) && users == old(users)[userId := o.value]
      ensures episodeViews == old(episodeViews) && couponsRedeemed == old(couponsRedeemed)
    {
      if userId == "" || writeFails {
        return Threw("Error creating user document");
      }
      var newUser := NewUser(userId, userData, now);
      users := users[userId := newUser];
      o := Returned(newUser);
    }

    /**
     * `logEpisodeView`: adds one `{episodeId, viewedAt}` record to the user's
     * `episodeViews`; a failure is logged and swallowed, leaving it as it was.
     */
    method LogEpisodeView(userId: string, episodeId: string, now: int, writeFails: bool)
      modifies this
      ensures History(episodeViews, userId) ==
                if writeFails || userId == "" then History(old(episodeViews), userId)
                else History(old(episodeViews), userId) + [HistoryRecord(episodeId, now)]
      ensures forall u :: u != userId ==> History(episodeViews, u) == History(old(episodeViews), u)
      ensures users == old(users) && couponsRedeemed == old(couponsRedeemed)
    {
      if userId == "" || writeFails {
        return;
      }
      episodeViews := episodeViews[userId := History(episodeViews, userId) + [HistoryRecord(episodeId, now)]];
    }

    /**
     * `redeemCoupon`: adds one `{couponCode, redeemedAt}` record to the
     * user's `couponsRedeemed`; a failure is logged and swallowed.
     */
    method RedeemCoupon(userId: string, couponCode: string, now: int, writeFails: bool)
      modifies this
      ensures History(couponsRedeemed, userId) ==
                if writeFails || userId == "" then History(old(couponsRedeemed), userId)
                else History(old(couponsRedeemed), userId) + [HistoryRecord(couponCode, now)]
      ensures forall u :: u != userId ==> History(couponsRedeemed, u) == History(old(couponsRedeemed), u)
      ensures users == old(users) && episodeViews == old(episodeViews)
    {
      if userId == "" || writeFails {
        return;
      }
      couponsRedeemed := couponsRedeemed[userId := History(couponsRedeemed, userId) + [HistoryRecord(couponCode, now)]];
    }
  }

  /** Each successful log adds exactly one record: the history's length counts the successful calls. */
  method LogTwice(s: UserService, userId: string, first: string, second: string, now: int)
    requires userId != ""
    modifies s
    ensures UserService.History(s.episodeViews, userId)
         == UserService.History(old(s.episodeViews), userId) + [HistoryRecord(first, now), HistoryRecord(second, now)]
  {
    s.LogEpisodeView(userId, first, now, false);
    s.LogEpisodeView(userId, second, now, false);
  }
}
