/**
 * The learner sign-in form: `handleLogin` rejects a blank email, then one that
 * does not have the simplified shape `/^[^\s@]+@[^\s@]+\.[^\s@]+$/`, and only
 * then marks the form busy and signs in.
 */
module LoginPage {
  import opened Wrappers
  import opened Strings
  import opened AuthService

  /** A character of `[^\s@]`. */
  predicate PartChar(c: char) {
    !IsWhitespace(c) && c != '@'
  }

  /** `[^\s@]+`: a non-empty run of characters that are neither whitespace nor `@`. */
  predicate IsPart(x: string) {
    |x| > 0 && forall i :: 0 <= i < |x| ==> PartChar(x[i])
  }

  /** `s` reads `local@host.tld` with the `@` at `at` and the chosen `.` at `dot`, each part a `[^\s@]+` run. */
  predicate SplitsAt(s: string, at: int, dot: int) {
    0 < at && at + 1 < dot && dot + 1 < |s| && s[at] == '@' && s[dot] == '.'
    && IsPart(s[..at]) && IsPart(s[at + 1..dot]) && IsPart(s[dot + 1..])
  }

  /** The language of the pattern, read off the regular expression: some split into its three parts exists. */
  ghost predicate MatchesEmailPattern(s: string) {
    exists at, dot :: SplitsAt(s, at, dot)
  }

  /**
   * The check as a single pass: cut at the first `@`; the local part and the
   * domain are `[^\s@]+` runs, and the domain has a `.` that is neither its
   * first nor its last character.
   */
  predicate AcceptsEmail(s: string) {
    var local := BeforeFirstAt(s);
    var at := |local|;
    at > 0 && at < |s| && IsPart(local)
    && var domain := s[at + 1..];
       IsPart(domain) && |domain| >= 3 && '.' in domain[1..|domain| - 1]
  }

  /** When `s[..at]` has no `@` and `s[at]` is one, the text before the first `@` is `s[..at]`. */
  lemma {:induction false} FirstAt(s: string, at: nat)
    requires at < |s| && s[at] == '@'
    requires forall i :: 0 <= i < at ==> s[i] != '@'
    ensures BeforeFirstAt(s) == s[..at]
    decreases at
  {
    if at > 0 {
      FirstAt(s[1..], at - 1);
    }
  }

  /** What the single-pass check accepts, the pattern matches. */
  lemma AcceptedMatches(s: string)
    requires AcceptsEmail(s)
    ensures MatchesEmailPattern(s)
  {
    var at := |BeforeFirstAt(s)|;
    var domain := s[at + 1..];
    var inner := domain[1..|domain| - 1];
    var i :| 0 <= i < |inner| && inner[i] == '.';
    var dot := at + 2 + i;
    assert s[..at] == BeforeFirstAt(s);
    assert s[at + 1..dot] == domain[..i + 1];
    assert s[dot + 1..] == domain[i + 2..];
    assert SplitsAt(s, at, dot);
  }

  /** What the pattern matches, the single-pass check accepts. */
  lemma MatchedAccepted(s: string)
    requires MatchesEmailPattern(s)
    ensures AcceptsEmail(s)
  {
    var at, dot :| SplitsAt(s, at, dot);
    var local, host, tld := s[..at], s[at + 1..dot], s[dot + 1..];
    assert forall i :: 0 <= i < at ==> s[i] == local[i];
    FirstAt(s, at);
    var domain := s[at + 1..];
    assert domain == host + ['.'] + tld;
    forall i | 0 <= i < |domain| ensures PartChar(domain[i]) {
      if i < |host| {
        assert domain[i] == host[i];
      } else if i > |host| {
        assert domain[i] == tld[i - |host| - 1];
      }
    }
    assert domain[1..|domain| - 1][|host| - 1] == '.';
  }

  /** The single-pass check accepts exactly the strings the pattern matches. */
  lemma AcceptsIffMatches(s: string)
    ensures AcceptsEmail(s) <==> MatchesEmailPattern(s)
  {
    if AcceptsEmail(s) {
      AcceptedMatches(s);
    }
    if MatchesEmailPattern(s) {
      MatchedAccepted(s);
    }
  }

  /** A blank email never has the shape, so the blank check only changes which message is shown. */
  lemma BlankNeverAccepted(s: string)
    requires IsBlank(s)
    ensures !AcceptsEmail(s)
  {
    BlankIffAllWhitespace(s);
    if s != [] {
      assert !PartChar(s[0]);
    }
  }

  /** Whitespace at either end fails the check. */
  lemma RejectsPadding(s: string)
    requires s != [] && (IsWhitespace(s[0]) || IsWhitespace(s[|s| - 1]))
    ensures !AcceptsEmail(s)
  {
    var at := |BeforeFirstAt(s)|;
    if at > 0 {
      assert BeforeFirstAt(s)[0] == s[0];
    }
    if at + 1 < |s| {
      assert s[at + 1..][|s| - at - 2] == s[|s| - 1];
    }
  }

  /** A second `@` fails the check. */
  lemma RejectsSecondAt(s: string, i: nat, j: nat)
    requires i < j < |s| && s[i] == '@' && s[j] == '@'
    ensures !AcceptsEmail(s)
  {
    var at := |BeforeFirstAt(s)|;
    assert at <= i;
    assert s[at + 1..][j - at - 1] == '@';
  }

  /** An accepted email has no whitespace at all, so `loginUser` stores it merely lower-cased. */
  lemma AcceptedEmailOnlyLowercased(s: string)
    requires AcceptsEmail(s)
    ensures NormalizeEmail(s) == ToLower(s)
  {
    var at := |BeforeFirstAt(s)|;
    var domain := s[at + 1..];
    var lowered := ToLower(s);
    assert s[0] == BeforeFirstAt(s)[0];
    assert s[|s| - 1] == domain[|domain| - 1];
    assert !IsWhitespace(lowered[0]) && !IsWhitespace(lowered[|lowered| - 1]);
    TrimOfTrimmed(lowered);
  }

  /**
   * The two checks of `handleLogin` as one value: the alert they raise, or
   * nothing when the email passes both. A blank email gets its own message.
   */
  function ValidationAlert(email: string): Option<string> {
    if IsBlank(email) then Some("Please enter your email")
    else if !AcceptsEmail(email) then Some("Please enter a valid email address")
    else None
  }

  /** The form goes on to sign in exactly when the email has the pattern's shape; a blank email gets its own message. */
  lemma ValidationAlertSpec(email: string)
    ensures ValidationAlert(email).None? <==> AcceptsEmail(email)
    ensures ValidationAlert(email) == Some("Please enter your email") <==> IsBlank(email)
    ensures ValidationAlert(email).Some? && !IsBlank(email) ==> ValidationAlert(email) == Some("Please enter a valid email address")
  {
    if IsBlank(email) {
      BlankNeverAccepted(email);
    }
  }

  /** The form's state: its two fields, the busy flag, the last alert shown and where the router was sent. */
  class LoginForm {
    /** The two input fields, as they read when the form is submitted. */
    const email: string
    const displayName: string
    var isLoading: bool
    var alert: Option<string>
    var redirectedTo: Option<string>

    constructor (email: string, displayName: string)
      ensures this.email == email && this.displayName == displayName
      ensures !isLoading && alert.None? && redirectedTo.None?
    {
      this.email := email;
      this.displayName := displayName;
      isLoading := false;
      alert := None;
      redirectedTo := None;
    }

    /**
     * `handleLogin`: the two checks come first and leave the form idle; after
     * them the form is busy and `loginUser` gets the email and, for an empty
     * field, no display name. A throwing login resets the busy flag.
     */
    method HandleLogin(auth: AuthSession, now: int)
      modifies this, auth
      ensures ValidationAlert(email).Some? ==> (alert == ValidationAlert(email) && isLoading == old(isLoading)
                                                && redirectedTo == old(redirectedTo) && auth.slot == old(auth.slot))
      ensures ValidationAlert(email).None? ==> SignedIn(auth, now, old(alert), old(redirectedTo))
    {
      var problem := ValidationAlert(email);
      if problem.Some? {
        alert := problem;
        return;
      }
      isLoading := true;
      var name := if displayName == "" then None else Some(displayName);
      var o := auth.LoginUser(email, name, now);
      if o.Threw? {
        alert := Some("Login failed. Please try again.");
        isLoading := false;
      } else {
        redirectedTo := Some("/");
      }
    }

    /**
     * The state after the login call: in a browser the form stays busy, the
     * router goes home and the slot holds the new user; otherwise the call
     * throws, the form is idle again with a failure alert, and nothing is stored.
     */
    ghost predicate SignedIn(auth: AuthSession, now: int, alert0: Option<string>, redirectedTo0: Option<string>)
      reads this, auth
    {
      && (auth.hasWindow ==>
           isLoading && alert == alert0 && redirectedTo == Some("/")
           && auth.slot == Holds(User(NewUser(email, if displayName == "" then None else Some(displayName), now))))
      && (!auth.hasWindow ==>
           !isLoading && alert == Some("Login failed. Please try again.") && redirectedTo == redirectedTo0)
    }
  }
}
