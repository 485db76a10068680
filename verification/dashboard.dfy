/**
 * The view helpers of the enhanced admin dashboard: the relative-time labels
 * of the activity feed and user table, the search-and-plan filter of the user
 * table, and the minutes-and-seconds rendering of watch time.
 *
 * Times are milliseconds; the clock reading `new Date()` is the parameter
 * `now`, and the locale rendering `toLocaleDateString()` of the date is the
 * opaque parameter `localeDate`.
 */
module Dashboard {
  import opened Wrappers
  import opened Seqs
  import opened Strings
  import opened AdminAnalytics

  const MINUTE_MS: nat := 60000
  const HOUR_MS: nat := 3600000
  const DAY_MS: nat := 86400000

  // ----- relative time -----

  /**
   * `formatRelativeTime`: the whole minutes, hours and days elapsed, each
   * rounded down, pick the first label that applies.
   */
  function FormatRelativeTime(now: int, date: int, localeDate: string): string {
    var diff := now - date;
    var minutes := diff / MINUTE_MS;
    var hours := diff / HOUR_MS;
    var days := diff / DAY_MS;
    if minutes < 1 then "Just now"
    else if minutes < 60 then NatToString(minutes) + "m ago"
    else if hours < 24 then NatToString(hours) + "h ago"
    else if days < 7 then NatToString(days) + "d ago"
    else localeDate
  }

  /**
   * The label by elapsed time: under a minute (a date in the future
   * included) is "Just now", then minutes up to the hour, hours up to the
   * day, days up to the week, and the calendar date from seven days on.
   */
  lemma RelativeTimeBuckets(now: int, date: int, localeDate: string)
    ensures var diff, r := now - date, FormatRelativeTime(now, date, localeDate);
            && (diff < MINUTE_MS ==> r == "Just now")
            && (MINUTE_MS <= diff < HOUR_MS ==> 1 <= diff / MINUTE_MS < 60 && r == NatToString(diff / MINUTE_MS) + "m ago")
            && (HOUR_MS <= diff < DAY_MS ==> 1 <= diff / HOUR_MS < 24 && r == NatToString(diff / HOUR_MS) + "h ago")
            && (DAY_MS <= diff < 7 * DAY_MS ==> 1 <= diff / DAY_MS < 7 && r == NatToString(diff / DAY_MS) + "d ago")
            && (7 * DAY_MS <= diff ==> r == localeDate)
  {
  }

  /** Reads a "`n`m ago", "`n`h ago" or "`n`d ago" label back into its count and the unit it counts. */
  function ReadAgo(text: string): Option<(nat, nat)> {
    var ds := LeadingDigits(text);
    var suffix := text[|ds|..];
    if ds == [] then None
    else if suffix == "m ago" then Some((ParseDigits(ds), MINUTE_MS))
    else if suffix == "h ago" then Some((ParseDigits(ds), HOUR_MS))
    else if suffix == "d ago" then Some((ParseDigits(ds), DAY_MS))
    else None
  }

  lemma ReadAgoLabel(n: nat, suffix: string)
    requires suffix == "m ago" || suffix == "h ago" || suffix == "d ago"
    ensures LeadingDigits(NatToString(n) + suffix) == NatToString(n)
    ensures (NatToString(n) + suffix)[|NatToString(n)|..] == suffix
  {
    LeadingDigitsOf(NatToString(n), suffix);
  }

  /**
   * Between a minute and a week, the label names a unit and a count that is
   * the elapsed time rounded down to whole units: it never overstates the
   * time elapsed, and understates it by less than one unit.
   */
  lemma AgoLabelRoundsDown(now: int, date: int, localeDate: string)
    requires MINUTE_MS <= now - date < 7 * DAY_MS
    ensures var diff := now - date;
            ReadAgo(FormatRelativeTime(now, date, localeDate)).Some?
            && var (n, unit) := ReadAgo(FormatRelativeTime(now, date, localeDate)).value;
               n >= 1 && n * unit <= diff < (n + 1) * unit
  {
    var diff := now - date;
    var unit: nat := if diff < HOUR_MS then MINUTE_MS else if diff < DAY_MS then HOUR_MS else DAY_MS;
    var suffix := if diff < HOUR_MS then "m ago" else if diff < DAY_MS then "h ago" else "d ago";
    var n: nat := diff / unit;
    RelativeTimeBuckets(now, date, localeDate);
    assert FormatRelativeTime(now, date, localeDate) == NatToString(n) + suffix;
    ReadAgoLabel(n, suffix);
    ParseNatToString(n);
    assert ReadAgo(NatToString(n) + suffix) == Some((n, unit));
  }

  // ----- the user table -----

  /** The plan dropdown: every user, or one subscription type. */
  datatype PlanFilter = AllPlans | OnlyPlan(plan: SubscriptionType)

  /** The search box: the lower-cased term occurs in the lower-cased email or display name. */
  predicate MatchesSearch(u: UserWithStats, term: string) {
    Contains(ToLower(u.email), ToLower(term)) || Contains(ToLower(u.displayName), ToLower(term))
  }

  predicate MatchesPlan(u: UserWithStats, filter: PlanFilter) {
    filter.AllPlans? || u.subscription == filter.plan
  }

  /** Both filters pass. */
  predicate Listed(u: UserWithStats, term: string, filter: PlanFilter) {
    MatchesSearch(u, term) && MatchesPlan(u, filter)
  }

  function TableFilter(term: string, filter: PlanFilter): UserWithStats -> bool {
    u => Listed(u, term, filter)
  }

  /**
   * `filteredUsers`: the loaded users that pass both the search and the plan
   * filter, in their loaded order; nothing before the data has loaded.
   */
  function FilteredUsers(users: Option<seq<UserWithStats>>, term: string, filter: PlanFilter): (r: seq<UserWithStats>)
    ensures users.None? ==> r == []
    ensures users.Some? ==> IsSubsequence(r, users.value)
    ensures forall i :: 0 <= i < |r| ==> Listed(r[i], term, filter)
    ensures users.Some? ==> forall i :: 0 <= i < |users.value| && Listed(users.value[i], term, filter) ==> users.value[i] in r
  {
    if users.None? then []
    else
      FilterIsSubsequence(users.value, TableFilter(term, filter));
      Filter(users.value, TableFilter(term, filter))
  }

  /** An empty search with every plan selected lists every loaded user, in order. */
  lemma EmptySearchListsEveryone(users: seq<UserWithStats>)
    ensures FilteredUsers(Some(users), "", AllPlans) == users
  {
    forall i | 0 <= i < |users| ensures TableFilter("", AllPlans)(users[i]) {
      EmptyIsContained(ToLower(users[i].email));
    }
    FilterAll(users, TableFilter("", AllPlans));
  }

  /** A user on another plan is never listed, whatever the search. */
  lemma OtherPlansHidden(users: seq<UserWithStats>, term: string, plan: SubscriptionType)
    ensures forall u :: u in FilteredUsers(Some(users), term, OnlyPlan(plan)) ==> u.subscription == plan
  {
    var r := FilteredUsers(Some(users), term, OnlyPlan(plan));
    forall u | u in r ensures u.subscription == plan {
      var i :| 0 <= i < |r| && r[i] == u;
    }
  }

  // ----- watch time -----

  /** `${Math.floor(t / 60)}m ${t % 60}s` for a watch time of `t` seconds. */
  function WatchTimeLabel(t: nat): string {
    NatToString(t / 60) + ("m " + (NatToString(t % 60) + "s"))
  }

  /** Reads a "`m`m `s`s" label back into seconds; `None` when the text is not one or shows 60 seconds or more. */
  function ReadWatchTime(text: string): Option<nat> {
    var ms := LeadingDigits(text);
    var rest := text[|ms|..];
    if ms == [] || |rest| < 2 || rest[..2] != "m " then None
    else
      match ReadSeconds(rest[2..])
      case None => None
      case Some(seconds) => Some(ParseDigits(ms) * 60 + seconds)
  }

  /** Reads the "`s`s" part: digits for fewer than 60 seconds, then `s`. */
  function ReadSeconds(text: string): Option<nat> {
    var ss := LeadingDigits(text);
    if ss == [] || text[|ss|..] != "s" || ParseDigits(ss) >= 60 then None
    else Some(ParseDigits(ss))
  }

  /** The label reads back as the watch time it renders, with fewer than 60 seconds shown. */
  lemma WatchTimeRoundTrip(t: nat)
    ensures ReadWatchTime(WatchTimeLabel(t)) == Some(t)
  {
    ReadMinutesSeconds(t / 60, t % 60);
  }

  lemma ReadMinutesSeconds(minutes: nat, seconds: nat)
    requires seconds < 60
    ensures ReadWatchTime(NatToString(minutes) + ("m " + (NatToString(seconds) + "s"))) == Some(minutes * 60 + seconds)
  {
    var tail := NatToString(seconds) + "s";
    assert ("m " + tail)[..2] == "m " && ("m " + tail)[2..] == tail;
    ReadSecondsOf(seconds);
    ParseNatToString(minutes);
    ReadAfterMinutes(NatToString(minutes), "m " + tail, minutes, seconds);
  }

  lemma ReadAfterMinutes(ds: string, rest: string, minutes: nat, seconds: nat)
    requires ds != [] && AllDigits(ds) && ParseDigits(ds) == minutes
    requires |rest| >= 2 && rest[..2] == "m " && ReadSeconds(rest[2..]) == Some(seconds)
    ensures ReadWatchTime(ds + rest) == Some(minutes * 60 + seconds)
  {
    assert rest[0] == rest[..2][0] == 'm';
    LeadingDigitsOf(ds, rest);
  }

  lemma ReadSecondsOf(seconds: nat)
    requires seconds < 60
    ensures ReadSeconds(NatToString(seconds) + "s") == Some(seconds)
  {
    var s := NatToString(seconds);
    LeadingDigitsOf(s, "s");
    assert (s + "s")[|s|..] == "s";
    ParseNatToString(seconds);
  }
}
