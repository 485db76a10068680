/**
 * The learner's email-only sign-in: one browser storage slot holds the
 * serialised `CurrentUser`; login writes it, logout removes it, and every
 * query reads it back.
 *
 * The storage slot is a field of an `AuthSession` object; `hasWindow` says
 * whether the code runs in a browser (on the server `localStorage` does not
 * exist). The clock reading of `loginTime` is the parameter `now`.
 */
module AuthService {
  import opened Wrappers
  import opened Strings

  /** `CurrentUser`; `loginTime` in milliseconds (it survives the JSON round trip through the slot). */
  datatype CurrentUser = CurrentUser(email: string, displayName: string, loginTime: int)

  /**
   * What `JSON.parse` makes of the slot when the `loginTime` assignment that
   * follows succeeds, that is, an object or an array: a full user record, or
   * any other object, of which only its `email` member matters (present when it
   * is a string).
   */
  datatype ParsedUser = User(user: CurrentUser) | OtherObject(email: Option<string>)

  /**
   * The content of the `meridian_user` slot: nothing (or an empty string), text
   * that parses to an object, or text that does not. The last includes `null`
   * and primitive values, on which the `loginTime` assignment throws in module
   * (strict) code, so that `getCurrentUser` catches and answers null.
   */
  datatype StoredUser = Empty | Holds(parsed: ParsedUser) | Unparsable

  /** The `email` member of a parsed object, when it is a string. */
  function EmailOf(p: ParsedUser): Option<string> {
    match p
    case User(u) => Some(u.email)
    case OtherObject(email) => email
  }

  /** `email.toLowerCase().trim()`. */
  function NormalizeEmail(email: string): string {
    Trim(ToLower(email))
  }

  /** A normalised email is no longer than the raw one, has no upper-case letter, and no whitespace at either end. */
  lemma NormalizedShape(email: string)
    ensures |NormalizeEmail(email)| <= |email|
    ensures forall i :: 0 <= i < |NormalizeEmail(email)| ==> !IsAsciiUpper(NormalizeEmail(email)[i])
    ensures var r := NormalizeEmail(email); r == [] || (!IsWhitespace(r[0]) && !IsWhitespace(r[|r| - 1]))
  {
    var lowered := ToLower(email);
    var k := LeadingWhitespace(lowered);
    var r := Trim(lowered);
    NoUpperInSlice(lowered, k, k + |r|);
  }

  lemma NoUpperInSlice(t: string, a: nat, b: nat)
    requires a <= b <= |t|
    requires forall i :: 0 <= i < |t| ==> t[i] == LowerChar(t[i])
    ensures forall i :: 0 <= i < b - a ==> !IsAsciiUpper(t[a..b][i])
  {
  }

  /** A string with no whitespace at either end is its own trim. */
  lemma TrimOfTrimmed(s: string)
    requires s == [] || (!IsWhitespace(s[0]) && !IsWhitespace(s[|s| - 1]))
    ensures Trim(s) == s
  {
    assert TrimStart(s) == s;
    assert TrimEnd(s) == s;
  }

  /** Normalising an already normalised email changes nothing. */
  lemma NormalizeIdempotent(email: string)
    ensures NormalizeEmail(NormalizeEmail(email)) == NormalizeEmail(email)
  {
    var r := NormalizeEmail(email);
    NormalizedShape(email);
    assert ToLower(r) == r;
    TrimOfTrimmed(r);
  }

  /** `s.split('@')[0]`: the text before the first `@`, or all of `s` when it has none. */
  function BeforeFirstAt(s: string): (r: string)
    ensures r <= s
    ensures forall i :: 0 <= i < |r| ==> r[i] != '@'
    ensures r == s || s[|r|] == '@'
    decreases |s|
  {
    if s == [] || s[0] == '@' then [] else [s[0]] + BeforeFirstAt(s[1..])
  }

  /** The record `loginUser` stores: a missing or empty display name falls back to the raw email's local part. */
  function NewUser(email: string, displayName: Option<string>, now: int): (u: CurrentUser)
    ensures u.email == NormalizeEmail(email) && u.loginTime == now
    ensures displayName.Some? && displayName.value != "" ==> u.displayName == displayName.value
    ensures displayName.None? || displayName.value == "" ==> u.displayName == BeforeFirstAt(email)
  {
    CurrentUser(NormalizeEmail(email),
                if displayName.Some? && displayName.value != "" then displayName.value else BeforeFirstAt(email),
                now)
  }

  /** The number of UTF-16 code units JavaScript stores for `c`: two for a character outside the Basic Multilingual Plane. */
  function CodeUnits(c: char): nat {
    if c as int > 0xFFFF then 2 else 1
  }

  /** A JavaScript string's `length`: its UTF-16 code units. */
  function Utf16Length(s: string): nat
    decreases |s|
  {
    if s == [] then 0 else CodeUnits(s[0]) + Utf16Length(s[1..])
  }

  /** What `/[^a-zA-Z0-9]/g` → `_` makes of one character: the regex has no `u` flag, so each code unit of a non-matching character becomes `_`. */
  function SanitizeChar(c: char): string {
    if IsAsciiAlnum(c) then [c] else if CodeUnits(c) == 2 then "__" else "_"
  }

  predicate InBmp(s: string) {
    forall i :: 0 <= i < |s| ==> CodeUnits(s[i]) == 1
  }

  /**
   * The replacement that turns an email into a document id. The id is as long
   * as the email in code units and holds only ASCII letters, digits and `_`.
   */
  function Sanitize(s: string): (r: string)
    ensures |r| == Utf16Length(s)
    ensures forall i :: 0 <= i < |r| ==> IsAsciiAlnum(r[i]) || r[i] == '_'
    decreases |s|
  {
    if s == [] then [] else SanitizeChar(s[0]) + Sanitize(s[1..])
  }

  /** Within the Basic Multilingual Plane the replacement goes character by character. */
  lemma {:induction false} SanitizeBmp(s: string)
    requires InBmp(s)
    ensures |Sanitize(s)| == |s|
    ensures forall i :: 0 <= i < |s| ==> Sanitize(s)[i] == (if IsAsciiAlnum(s[i]) then s[i] else '_')
    decreases |s|
  {
    if s != [] {
      var t := s[1..];
      assert forall i :: 0 <= i < |t| ==> t[i] == s[i + 1];
      SanitizeBmp(t);
      var r := Sanitize(s);
      assert r == SanitizeChar(s[0]) + Sanitize(t);
      forall i | 0 <= i < |s| ensures r[i] == (if IsAsciiAlnum(s[i]) then s[i] else '_') {
        if i > 0 {
          assert r[i] == Sanitize(t)[i - 1];
        }
      }
    }
  }

  /** Sanitising a sanitised id changes nothing. */
  lemma {:induction false} SanitizeIdempotent(s: string)
    ensures Sanitize(Sanitize(s)) == Sanitize(s)
  {
    SanitizeFixes(Sanitize(s));
  }

  /** An id made only of ASCII letters, digits and `_` is left as it is. */
  lemma {:induction false} SanitizeFixes(t: string)
    requires forall i :: 0 <= i < |t| ==> IsAsciiAlnum(t[i]) || t[i] == '_'
    ensures Sanitize(t) == t
    decreases |t|
  {
    if t != [] {
      SanitizeFixes(t[1..]);
      assert t == [t[0]] + t[1..];
    }
  }

  /** Sanitising one character in front of a string. */
  lemma SanitizeCons(c: char, s: string)
    ensures Sanitize([c] + s) == SanitizeChar(c) + Sanitize(s)
  {
    assert ([c] + s)[1..] == s;
  }

  /** The domain `x.io` keeps its letters and loses its dot. */
  lemma SanitizeXIo()
    ensures Sanitize("x.io") == "x_io"
  {
    SanitizeCons('o', "");
    assert ['o'] + "" == "o";
    SanitizeCons('i', "o");
    assert ['i'] + "o" == "io";
    SanitizeCons('.', "io");
    assert ['.'] + "io" == ".io";
    SanitizeCons('x', ".io");
    assert ['x'] + ".io" == "x.io";
  }

  /** Sanitising `c` and then `c2` in front of the domain `x.io`. */
  lemma SanitizeDomain(c: char, c2: char)
    ensures Sanitize([c, c2] + "x.io") == SanitizeChar(c) + SanitizeChar(c2) + "x_io"
  {
    SanitizeXIo();
    SanitizeCons(c2, "x.io");
    SanitizeCons(c, [c2] + "x.io");
    assert [c, c2] + "x.io" == [c] + ([c2] + "x.io");
  }

  /** The local part `b` with its `@` and domain. */
  lemma SanitizeLocalB()
    ensures Sanitize("b@x.io") == "b_x_io"
  {
    SanitizeDomain('b', '@');
    assert ['b', '@'] + "x.io" == "b@x.io";
  }

  /** The dotted local part `a.b`. */
  lemma SanitizeDotted()
    ensures Sanitize("a.b@x.io") == "a_b_x_io"
  {
    SanitizeLocalB();
    SanitizeCons('.', "b@x.io");
    assert ['.'] + "b@x.io" == ".b@x.io";
  }

  /** The underscored local part `a_b`. */
  lemma SanitizeUnderscored()
    ensures Sanitize("a_b@x.io") == "a_b_x_io"
  {
    SanitizeLocalB();
    SanitizeCons('_', "b@x.io");
    assert ['_'] + "b@x.io" == "_b@x.io";
  }

  /** Different emails can share a document id: the replacement is not injective. */
  lemma SanitizeMerges()
    ensures "a.b@x.io" != "a_b@x.io" && Sanitize("a.b@x.io") == Sanitize("a_b@x.io") == "a_b_x_io"
  {
    SanitizeDotted();
    SanitizeUnderscored();
    assert "a.b@x.io"[1] != "a_b@x.io"[1];
  }

  /** A character outside the Basic Multilingual Plane is two code units and becomes two underscores. */
  lemma SanitizeAstral()
    ensures Sanitize("a\U{1F600}@x.io") == "a___x_io"
  {
    SanitizeDomain('\U{1F600}', '@');
    assert ['\U{1F600}', '@'] + "x.io" == "\U{1F600}@x.io";
  }

  class AuthSession {
    /** Whether a browser `window` (and with it `localStorage`) exists. */
    const hasWindow: bool
    /** The `meridian_user` storage slot. */
    var slot: StoredUser

    constructor (hasWindow: bool, slot: StoredUser)
      ensures this.hasWindow == hasWindow && this.slot == slot
    {
      this.hasWindow := hasWindow;
      this.slot := slot;
    }

    /**
     * `loginUser`: stores and returns the normalised user. Without a browser the
     * storage access throws and nothing is stored.
     */
    method LoginUser(email: string, displayName: Option<string>, now: int) returns (o: Outcome<CurrentUser>)
      modifies this
      ensures !hasWindow ==> o.Threw? && slot == old(slot)
      ensures hasWindow ==> o == Returned(NewUser(email, displayName, now)) && slot == Holds(User(o.value))
      ensures hasWindow ==> GetCurrentUser() == Some(User(o.value)) && IsAuthenticated()
    {
      if !hasWindow {
        return Threw("localStorage is not defined");
      }
      var user := NewUser(email, displayName, now);
      slot := Holds(User(user));
      return Returned(user);
    }

    /**
     * `getCurrentUser`: whatever object the slot parses to; null without a
     * browser, for an empty slot, or for text that does not give an object.
     */
    function GetCurrentUser(): (r: Option<ParsedUser>)
      reads this
      ensures r.Some? <==> hasWindow && slot.Holds?
      ensures r.Some? ==> r.value == slot.parsed
    {
      if !hasWindow then None
      else match slot
        case Holds(parsed) => Some(parsed)
        case _ => None
    }

    /** `logoutUser`: empties the slot; without a browser the storage access throws. */
    method LogoutUser() returns (o: Outcome<()>)
      modifies this
      ensures !hasWindow ==> o.Threw? && slot == old(slot)
      ensures hasWindow ==> o.Returned? && slot == Empty
      ensures GetCurrentUser().None? && !IsAuthenticated()
    {
      if !hasWindow {
        return Threw("localStorage is not defined");
      }
      slot := Empty;
      return Returned(());
    }

    /** `isAuthenticated`: the slot parses to an object. */
    predicate IsAuthenticated()
      reads this
    {
      GetCurrentUser().Some?
    }

    /**
     * `getUserId`: null when nobody is signed in; the sanitised email of the
     * current user; a thrown `TypeError` when the stored object has no string
     * `email` to call `replace` on.
     */
    function GetUserId(): (r: Outcome<Option<string>>)
      reads this
      ensures r == Returned(None) <==> !IsAuthenticated()
      ensures r.Threw? <==> IsAuthenticated() && EmailOf(GetCurrentUser().value).None?
      ensures r.Returned? && r.value.Some? ==> r.value.value == Sanitize(EmailOf(GetCurrentUser().value).value)
    {
      match GetCurrentUser()
      case None => Returned(None)
      case Some(parsed) =>
        match EmailOf(parsed)
        case None => Threw("TypeError: cannot read properties of undefined (reading 'replace')")
        case Some(e) => Returned(Some(Sanitize(e)))
    }
  }

  /** A signed-in learner's id is the sanitised form of the stored email. */
  lemma SignedInUserId(session: AuthSession, u: CurrentUser)
    requires session.hasWindow && session.slot == Holds(User(u))
    ensures session.IsAuthenticated()
    ensures session.GetUserId() == Returned(Some(Sanitize(u.email)))
  {
  }

  /** A slot holding `{}` counts as signed in, yet asking for the user id throws. */
  lemma EmptyObjectSignedInWithoutId(session: AuthSession)
    requires session.hasWindow && session.slot == Holds(OtherObject(None))
    ensures session.IsAuthenticated() && session.GetUserId().Threw?
  {
  }
}
