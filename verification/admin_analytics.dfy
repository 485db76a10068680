/**
 * The admin dashboard's analytics service: per-user statistics derived from the
 * `users` and `chats` collections, the dashboard counters folded from them, the
 * synthesised recent-activity feed, and the database health probe.
 *
 * The document store is an in-memory snapshot (`Database`) that a read either
 * returns or fails to return; clock readings are parameters.
 */
module AdminAnalytics {
  import opened Wrappers
  import opened Seqs
  import opened Strings
  import opened Rounding

  /** Number of episodes the completion rate is measured against (the catalogue size the code assumes). */
  const EPISODE_COUNT: nat := 5
  /** Length of the recent-activity feed. */
  const FEED_LIMIT: nat := 10

  // ----- stored documents, as the dashboard reads them -----

  /** One value of a user document's `episodeProgress` map; `lastPosition` may be missing (seconds). */
  datatype ProgressEntry = ProgressEntry(lastPosition: Option<nat>, isCompleted: bool)

  datatype SubscriptionType = Free | Trial | Premium

  /**
   * A document of the `users` collection. `progress` is `Object.values` of its
   * `episodeProgress` map (empty when the map is missing); other optional fields
   * are `Option`s; times are milliseconds.
   */
  datatype UserDoc = UserDoc(
    id: string,
    email: Option<string>,
    displayName: Option<string>,
    createdAt: Option<int>,
    lastLogin: Option<int>,
    subscription: Option<SubscriptionType>,
    progress: seq<ProgressEntry>)

  /** One message stored in a chat document; only its role matters here. */
  datatype StoredMessage = StoredMessage(role: string)

  /** A document of the `chats` collection; `messages` may be missing. */
  datatype ChatDoc = ChatDoc(userId: string, messages: Option<seq<StoredMessage>>)

  /** The two collections the service reads. */
  datatype Database = Database(users: seq<UserDoc>, chats: seq<ChatDoc>)

  /** `UserWithStats`: a user record with its three derived counters. */
  datatype UserWithStats = UserWithStats(
    uid: string,
    email: string,
    displayName: string,
    createdAt: int,
    lastLogin: int,
    subscription: SubscriptionType,
    progress: seq<ProgressEntry>,
    episodesWatched: nat,
    messagesCount: nat,
    watchTime: nat)

  // ----- per-user statistics -----

  /** `progress.lastPosition || 0`. */
  function Position(e: ProgressEntry): nat {
    e.lastPosition.GetOr(0)
  }

  predicate IsCompleted(e: ProgressEntry) {
    e.isCompleted
  }

  /** The number of progress entries marked completed. */
  function CompletedCount(entries: seq<ProgressEntry>): nat {
    |Filter(entries, IsCompleted)|
  }

  /** The summed positions of all progress entries, a missing position counting 0. */
  function WatchTime(entries: seq<ProgressEntry>): nat {
    SumBy(entries, Position)
  }

  /** The number of messages whose role is exactly `"user"`. */
  function UserMessages(messages: seq<StoredMessage>): nat {
    |Filter(messages, (m: StoredMessage) => m.role == "user")|
  }

  /** The user-role messages of one chat document, a missing `messages` list counting 0. */
  function ChatUserMessageCount(c: ChatDoc): nat {
    UserMessages(c.messages.GetOr([]))
  }

  /** User-role messages summed over chat documents. */
  function ChatUserMessages(chats: seq<ChatDoc>): nat {
    SumBy(chats, ChatUserMessageCount)
  }

  /** The query `where('userId', '==', uid)` over the `chats` collection. */
  function ChatsOf(chats: seq<ChatDoc>, uid: string): seq<ChatDoc> {
    Filter(chats, (c: ChatDoc) => c.userId == uid)
  }

  /** `value || fallback` for an optional string. */
  function OrDefault(value: Option<string>, fallback: string): string {
    if value.Some? && value.value != "" then value.value else fallback
  }

  /** The record `fetchUsersWithStats` builds for one user document, given the chats and the current time. */
  function StatsOf(doc: UserDoc, chats: seq<ChatDoc>, now: int): UserWithStats {
    UserWithStats(
      doc.id,
      OrDefault(doc.email, "unknown@example.com"),
      OrDefault(doc.displayName, "Unknown User"),
      doc.createdAt.GetOr(now),
      doc.lastLogin.GetOr(now),
      doc.subscription.GetOr(Free),
      doc.progress,
      CompletedCount(doc.progress),
      ChatUserMessages(ChatsOf(chats, doc.id)),
      WatchTime(doc.progress))
  }

  /**
   * Derives one user's statistics the way the service does: the user-role
   * messages of that user's chats and the positions of all progress entries are
   * accumulated in two loops.
   */
  method UserStats(doc: UserDoc, chats: seq<ChatDoc>, now: int) returns (u: UserWithStats)
    ensures u.uid == doc.id && u.progress == doc.progress
    ensures u.episodesWatched == CompletedCount(doc.progress)
    ensures u.messagesCount == ChatUserMessages(ChatsOf(chats, doc.id))
    ensures u.watchTime == WatchTime(doc.progress)
    ensures u == StatsOf(doc, chats, now)
  {
    var userChats := ChatsOf(chats, doc.id);
    var messagesCount := 0;
    for i := 0 to |userChats|
      invariant messagesCount == ChatUserMessages(userChats[..i])
    {
      var chat := userChats[i];
      messagesCount := messagesCount + UserMessages(chat.messages.GetOr([]));
      assert userChats[..i + 1] == userChats[..i] + [chat];
      SumByAppend(userChats[..i], [chat], ChatUserMessageCount);
    }
    assert userChats[..|userChats|] == userChats;

    var watchTime := 0;
    var entries := doc.progress;
    for i := 0 to |entries|
      invariant watchTime == WatchTime(entries[..i])
    {
      watchTime := watchTime + Position(entries[i]);
      assert entries[..i + 1] == entries[..i] + [entries[i]];
      SumByAppend(entries[..i], [entries[i]], Position);
    }
    assert entries[..|entries|] == entries;

    u := UserWithStats(
      doc.id,
      OrDefault(doc.email, "unknown@example.com"),
      OrDefault(doc.displayName, "Unknown User"),
      doc.createdAt.GetOr(now),
      doc.lastLogin.GetOr(now),
      doc.subscription.GetOr(Free),
      entries,
      CompletedCount(entries),
      messagesCount,
      watchTime);
  }

  /**
   * `fetchUsersWithStats`: one record per user document, in document order; a
   * failed read yields the empty list.
   */
  method FetchUsersWithStats(db: Fetch<Database>, now: int) returns (users: seq<UserWithStats>)
    ensures db.Failed? ==> users == []
    ensures db.Fetched? ==> |users| == |db.value.users|
    ensures db.Fetched? ==> forall i :: 0 <= i < |users| ==> users[i] == StatsOf(db.value.users[i], db.value.chats, now)
  {
    users := [];
    if db.Fetched? {
      var docs := db.value.users;
      for i := 0 to |docs|
        invariant |users| == i
        invariant forall k :: 0 <= k < i ==> users[k] == StatsOf(docs[k], db.value.chats, now)
      {
        var u := UserStats(docs[i], db.value.chats, now);
        users := users + [u];
      }
    }
  }

  /** A user's completed count never exceeds the number of progress entries, and reaches it only when all are completed. */
  lemma CompletedCountBounds(entries: seq<ProgressEntry>)
    ensures CompletedCount(entries) <= |entries|
    ensures CompletedCount(entries) == |entries| <==> forall i :: 0 <= i < |entries| ==> entries[i].isCompleted
  {
    FilterAll(entries, IsCompleted);
    if CompletedCount(entries) == |entries| {
      FilterFullLength(entries, IsCompleted);
    }
  }

  /** A filter that keeps as many elements as it was given keeps all of them. */
  lemma {:induction false} FilterFullLength<T>(xs: seq<T>, p: T -> bool)
    requires |Filter(xs, p)| == |xs|
    ensures Filter(xs, p) == xs
    decreases |xs|
  {
    if xs != [] {
      FilterFullLength(xs[1..], p);
    }
  }

  /**
   * The three counters do not depend on the order in which the progress map's
   * values and the chat documents are visited.
   */
  lemma StatsIgnoreOrder(entries: seq<ProgressEntry>, entries': seq<ProgressEntry>, chats: seq<ChatDoc>, chats': seq<ChatDoc>)
    requires multiset(entries) == multiset(entries')
    requires multiset(chats) == multiset(chats')
    ensures CompletedCount(entries) == CompletedCount(entries')
    ensures WatchTime(entries) == WatchTime(entries')
    ensures ChatUserMessages(chats) == ChatUserMessages(chats')
  {
    FilterLengthPermutation(entries, entries', IsCompleted);
    SumByPermutation(entries, entries', Position);
    SumByPermutation(chats, chats', ChatUserMessageCount);
  }

  /** Only user-role messages count: a chat whose messages are all from the assistant adds nothing. */
  lemma {:induction false} AssistantMessagesDoNotCount(messages: seq<StoredMessage>)
    requires forall i :: 0 <= i < |messages| ==> messages[i].role != "user"
    ensures UserMessages(messages) == 0
    decreases |messages|
  {
    if messages != [] {
      assert forall i :: 0 <= i < |messages| - 1 ==> messages[1..][i] == messages[i + 1];
      AssistantMessagesDoNotCount(messages[1..]);
    }
  }

  // ----- dashboard counters -----

  /** `UserAnalytics` as `calculateAnalytics` returns it; the rates are whole numbers. */
  datatype Analytics = Analytics(
    totalUsers: nat,
    activeToday: nat,
    episodesWatched: nat,
    chatMessages: nat,
    averageWatchTime: nat,
    completionRate: nat)

  /** The user logged in at or after `todayStart` (today's local midnight). */
  function LoggedInSince(todayStart: int): UserWithStats -> bool {
    (u: UserWithStats) => u.lastLogin >= todayStart
  }

  function ActiveSince(users: seq<UserWithStats>, todayStart: int): seq<UserWithStats> {
    Filter(users, LoggedInSince(todayStart))
  }

  function EpisodesOf(u: UserWithStats): nat { u.episodesWatched }
  function MessagesOf(u: UserWithStats): nat { u.messagesCount }
  function WatchTimeOf(u: UserWithStats): nat { u.watchTime }

  function SumEpisodes(users: seq<UserWithStats>): nat {
    SumBy(users, EpisodesOf)
  }

  function SumMessages(users: seq<UserWithStats>): nat {
    SumBy(users, MessagesOf)
  }

  function SumWatchTime(users: seq<UserWithStats>): nat {
    SumBy(users, WatchTimeOf)
  }

  /**
   * `calculateAnalytics`: the totals are exact sums, the average and the
   * completion rate are rounded quotients guarded against an empty user list,
   * and the active count never exceeds the user count.
   */
  function CalculateAnalytics(users: seq<UserWithStats>, todayStart: int): (a: Analytics)
    ensures a.totalUsers == |users|
    ensures a.episodesWatched == SumEpisodes(users) && a.chatMessages == SumMessages(users)
    ensures a.activeToday <= a.totalUsers
    ensures users == [] ==> a.averageWatchTime == 0 && a.completionRate == 0 && a.activeToday == 0
    ensures users != [] ==> IsRoundedQuotient(a.averageWatchTime, SumWatchTime(users), |users|)
    ensures users != [] ==> IsRoundedQuotient(a.completionRate, 100 * a.episodesWatched, EPISODE_COUNT * |users|)
  {
    var totalUsers := |users|;
    var possible := totalUsers * EPISODE_COUNT;
    Analytics(
      totalUsers,
      |ActiveSince(users, todayStart)|,
      SumEpisodes(users),
      SumMessages(users),
      if totalUsers > 0 then RoundDiv(SumWatchTime(users), totalUsers) else 0,
      if possible > 0 then RoundDiv(100 * SumEpisodes(users), possible) else 0)
  }

  /** `activeToday` counts exactly the users who logged in at or after midnight. */
  lemma ActiveTodayCountsRecentLogins(users: seq<UserWithStats>, todayStart: int)
    ensures CalculateAnalytics(users, todayStart).activeToday == SumBy(users, Indicator(LoggedInSince(todayStart)))
    ensures (forall i :: 0 <= i < |users| ==> users[i].lastLogin >= todayStart) ==> CalculateAnalytics(users, todayStart).activeToday == |users|
  {
    FilterLengthIsCount(users, LoggedInSince(todayStart));
    FilterAll(users, LoggedInSince(todayStart));
  }

  /** When no user has more completions than there are episodes, the completion rate is a percentage (at most 100). */
  lemma CompletionRateAtMostHundred(users: seq<UserWithStats>, todayStart: int)
    requires forall i :: 0 <= i < |users| ==> users[i].episodesWatched <= EPISODE_COUNT
    ensures CalculateAnalytics(users, todayStart).completionRate <= 100
  {
    SumByBounded(users, EpisodesOf, EPISODE_COUNT);
    var a := CalculateAnalytics(users, todayStart);
    if users != [] {
      var b := EPISODE_COUNT * |users|;
      assert 100 * a.episodesWatched <= 100 * b;
      assert 2 * a.completionRate * b < 2 * 100 * b + 2 * b;
      LessAfterScaling(a.completionRate, 101, b);
    }
  }

  /** Cancels a positive factor: kept apart so that the non-linear step is proved without the rest of the context. */
  lemma LessAfterScaling(x: nat, y: nat, b: nat)
    requires b > 0 && 2 * x * b < 2 * y * b
    ensures x < y
  {
  }

  // ----- recent-activity feed -----

  datatype ActivityKind = Login | EpisodeComplete | ChatMessageSent | Signup

  /** An `ActivityLog` entry; `timestamp` in milliseconds. */
  datatype Activity = Activity(
    id: string,
    kind: ActivityKind,
    userId: string,
    userEmail: string,
    userName: string,
    details: string,
    timestamp: int)

  /** The login entry of the user at position `index`, stamped with the last login time. */
  function LoginEntry(u: UserWithStats, index: nat): Activity {
    Activity("activity_" + NatToString(index) + "_login", Login, u.uid, u.email, u.displayName,
             "User logged in", u.lastLogin)
  }

  /** The completion entry, reporting how many episodes the user completed. */
  function EpisodeEntry(u: UserWithStats, index: nat): Activity {
    Activity("activity_" + NatToString(index) + "_episode", EpisodeComplete, u.uid, u.email, u.displayName,
             "Completed " + NatToString(u.episodesWatched) + " episode(s)", u.lastLogin)
  }

  /** The chat entry, reporting how many messages the user sent. */
  function ChatEntry(u: UserWithStats, index: nat): Activity {
    Activity("activity_" + NatToString(index) + "_chat", ChatMessageSent, u.uid, u.email, u.displayName,
             "Sent " + NatToString(u.messagesCount) + " message(s)", u.lastLogin)
  }

  /**
   * The entries synthesised for the user at position `index`: always a login,
   * then a completion entry exactly when the user completed an episode and a
   * chat entry exactly when the user sent a message, all stamped with the last
   * login time.
   */
  function ActivitiesOf(u: UserWithStats, index: nat): (r: seq<Activity>)
    ensures 1 <= |r| <= 3 && r[0] == LoginEntry(u, index)
    ensures |r| == 1 + CompletionFlag(u) + ChatFlag(u)
    ensures forall k :: 0 <= k < |r| ==> r[k].userId == u.uid && r[k].timestamp == u.lastLogin
  {
    [LoginEntry(u, index)]
      + (if u.episodesWatched > 0 then [EpisodeEntry(u, index)] else [])
      + (if u.messagesCount > 0 then [ChatEntry(u, index)] else [])
  }

  /** A user's entries include a completion entry exactly when the user completed an episode, and a chat entry exactly when the user sent a message. */
  lemma ActivityKinds(u: UserWithStats, index: nat)
    ensures (exists k :: 0 <= k < |ActivitiesOf(u, index)| && ActivitiesOf(u, index)[k].kind == EpisodeComplete) <==> u.episodesWatched > 0
    ensures (exists k :: 0 <= k < |ActivitiesOf(u, index)| && ActivitiesOf(u, index)[k].kind == ChatMessageSent) <==> u.messagesCount > 0
  {
    var r := ActivitiesOf(u, index);
    if u.episodesWatched > 0 {
      assert r[1].kind == EpisodeComplete;
    }
    if u.messagesCount > 0 {
      assert r[|r| - 1].kind == ChatMessageSent;
    }
  }

  /** 1 for a user with completions, else 0. */
  function CompletionFlag(u: UserWithStats): nat {
    if u.episodesWatched > 0 then 1 else 0
  }

  /** 1 for a user with messages, else 0. */
  function ChatFlag(u: UserWithStats): nat {
    if u.messagesCount > 0 then 1 else 0
  }

  /** The entries of the first `n` users, in user order. */
  function Synthesized(users: seq<UserWithStats>, n: nat): seq<Activity>
    requires n <= |users|
  {
    if n == 0 then [] else Synthesized(users, n - 1) + ActivitiesOf(users[n - 1], n - 1)
  }

  /** The number of synthesised entries: one per user, plus one per user with completions, plus one per user with messages. */
  lemma {:induction false} SynthesizedLength(users: seq<UserWithStats>, n: nat)
    requires n <= |users|
    ensures |Synthesized(users, n)| == n + SumBy(users[..n], CompletionFlag) + SumBy(users[..n], ChatFlag)
    decreases n
  {
    if n > 0 {
      var u := users[n - 1];
      SynthesizedLength(users, n - 1);
      assert users[..n] == users[..n - 1] + [u];
      SumByAppend(users[..n - 1], [u], CompletionFlag);
      SumByAppend(users[..n - 1], [u], ChatFlag);
      assert |ActivitiesOf(u, n - 1)| == 1 + SumBy([u], CompletionFlag) + SumBy([u], ChatFlag);
    }
  }

  /** The `forEach` loop of `fetchRecentActivity` that pushes each user's entries. */
  method SynthesizeActivities(users: seq<UserWithStats>) returns (activities: seq<Activity>)
    ensures activities == Synthesized(users, |users|)
  {
    activities := [];
    for i := 0 to |users|
      invariant activities == Synthesized(users, i)
    {
      var u := users[i];
      ghost var before := activities;
      activities := activities + [LoginEntry(u, i)];
      if u.episodesWatched > 0 {
        activities := activities + [EpisodeEntry(u, i)];
      }
      if u.messagesCount > 0 {
        activities := activities + [ChatEntry(u, i)];
      }
      assert activities == before + ActivitiesOf(u, i);
      assert Synthesized(users, i + 1) == Synthesized(users, i) + ActivitiesOf(u, i);
    }
  }

  /** Newest first: timestamps never increase along the list. */
  predicate SortedNewestFirst(s: seq<Activity>) {
    forall i, j :: 0 <= i < j < |s| ==> s[i].timestamp >= s[j].timestamp
  }

  /** The entries of `s` stamped `t`, in their order in `s`. */
  function WithTime(s: seq<Activity>, t: int): seq<Activity> {
    Filter(s, AtTime(t))
  }

  function AtTime(t: int): Activity -> bool {
    (a: Activity) => a.timestamp == t
  }

  lemma WithTimeCons(x: Activity, xs: seq<Activity>)
    ensures forall t :: WithTime([x] + xs, t) == (if x.timestamp == t then [x] else []) + WithTime(xs, t)
  {
    assert ([x] + xs)[1..] == xs;
  }

  /** Inserts `a` in front of every entry no newer than it. */
  function InsertByTime(a: Activity, sorted: seq<Activity>): (r: seq<Activity>)
    requires SortedNewestFirst(sorted)
    ensures SortedNewestFirst(r)
    ensures multiset(r) == multiset(sorted) + multiset{a}
    ensures |r| == |sorted| + 1 && (r[0] == a || (sorted != [] && r[0] == sorted[0]))
    decreases |sorted|
  {
    if sorted == [] || a.timestamp >= sorted[0].timestamp then [a] + sorted
    else
      var tail := InsertByTime(a, sorted[1..]);
      assert sorted == [sorted[0]] + sorted[1..];
      [sorted[0]] + tail
  }

  /** Among the entries with its timestamp, the inserted entry comes first and the others keep their order. */
  lemma {:induction false} InsertKeepsTies(a: Activity, sorted: seq<Activity>)
    requires SortedNewestFirst(sorted)
    ensures forall t :: WithTime(InsertByTime(a, sorted), t) == (if t == a.timestamp then [a] else []) + WithTime(sorted, t)
    decreases |sorted|
  {
    if sorted == [] || a.timestamp >= sorted[0].timestamp {
      WithTimeCons(a, sorted);
    } else {
      var tail := InsertByTime(a, sorted[1..]);
      InsertKeepsTies(a, sorted[1..]);
      assert sorted == [sorted[0]] + sorted[1..];
      WithTimeCons(sorted[0], sorted[1..]);
      WithTimeCons(sorted[0], tail);
    }
  }

  /**
   * `activities.sort((a, b) => b.timestamp - a.timestamp)`: newest first, same
   * entries, and stable, as JavaScript's sort is: entries with equal
   * timestamps keep their order in the input.
   */
  function SortNewestFirst(s: seq<Activity>): (r: seq<Activity>)
    ensures SortedNewestFirst(r)
    ensures multiset(r) == multiset(s) && |r| == |s|
    ensures forall t :: WithTime(r, t) == WithTime(s, t)
    decreases |s|
  {
    if s == [] then []
    else
      assert s == [s[0]] + s[1..];
      WithTimeCons(s[0], s[1..]);
      InsertKeepsTies(s[0], SortNewestFirst(s[1..]));
      InsertByTime(s[0], SortNewestFirst(s[1..]))
  }

  /** Cutting a list keeps, for every timestamp, a prefix of that timestamp's entries. */
  lemma WithTimePrefix(s: seq<Activity>, k: nat)
    requires k <= |s|
    ensures forall t :: WithTime(s[..k], t) <= WithTime(s, t)
  {
    assert s == s[..k] + s[k..];
    forall t ensures WithTime(s[..k], t) <= WithTime(s, t) {
      FilterAppend(s[..k], s[k..], AtTime(t));
    }
  }

  /**
   * A prefix of a newest-first arrangement of `all` is newest first, is drawn
   * from `all`, and every entry of `all` outside it is no newer than any entry in it.
   */
  lemma PrefixIsNewest(s: seq<Activity>, all: seq<Activity>, k: nat)
    requires SortedNewestFirst(s) && k <= |s| && multiset(s) == multiset(all)
    ensures SortedNewestFirst(s[..k])
    ensures multiset(s[..k]) <= multiset(all)
    ensures forall x, y :: x in s[..k] && y in multiset(all) - multiset(s[..k]) ==> y.timestamp <= x.timestamp
  {
    var front, back := s[..k], s[k..];
    assert s == front + back;
    assert multiset(all) - multiset(front) == multiset(back);
    PrefixBeforeRest(s, k);
  }

  lemma PrefixBeforeRest(s: seq<Activity>, k: nat)
    requires SortedNewestFirst(s) && k <= |s|
    ensures forall x, y :: x in s[..k] && y in multiset(s[k..]) ==> y.timestamp <= x.timestamp
  {
    forall x: Activity, y: Activity | x in s[..k] && y in multiset(s[k..]) ensures y.timestamp <= x.timestamp {
      var i :| 0 <= i < k && s[..k][i] == x;
      var j :| 0 <= j < |s| - k && s[k..][j] == y;
      assert s[i] == x && s[k + j] == y;
    }
  }

  /**
   * `.sort(newest first).slice(0, 10)`: at most ten entries, taken from `all`,
   * newest first, and no entry left out is newer than any entry kept; among
   * entries with equal timestamps, the first ones of `all` are kept, in order.
   */
  function TakeNewest(all: seq<Activity>): (feed: seq<Activity>)
    ensures |feed| == if |all| < FEED_LIMIT then |all| else FEED_LIMIT
    ensures SortedNewestFirst(feed)
    ensures multiset(feed) <= multiset(all)
    ensures forall x, y :: x in feed && y in multiset(all) - multiset(feed) ==> y.timestamp <= x.timestamp
    ensures forall t :: WithTime(feed, t) <= WithTime(all, t)
  {
    var sorted := SortNewestFirst(all);
    var k := if |sorted| < FEED_LIMIT then |sorted| else FEED_LIMIT;
    PrefixIsNewest(sorted, all, k);
    WithTimePrefix(sorted, k);
    sorted[..k]
  }

  /**
   * `fetchRecentActivity`: the entries synthesised for every user, sorted newest
   * first and cut to ten; one login entry per user, plus one per user with a
   * completed episode, plus one per user with a sent message.
   */
  method FetchRecentActivity(db: Fetch<Database>, now: int) returns (feed: seq<Activity>, ghost users: seq<UserWithStats>, ghost all: seq<Activity>)
    ensures db.Failed? ==> users == [] && all == [] && feed == []
    ensures db.Fetched? ==> |users| == |db.value.users|
                            && forall i :: 0 <= i < |users| ==> users[i] == StatsOf(db.value.users[i], db.value.chats, now)
    ensures all == Synthesized(users, |users|)
    ensures db.Fetched? ==> (|all| == |db.value.users| + SumBy(db.value.users, DocCompletionFlag)
                                      + SumBy(db.value.users, DocChatFlag(db.value.chats)))
    ensures feed == TakeNewest(all)
    ensures |feed| <= FEED_LIMIT && SortedNewestFirst(feed)
    ensures db.Fetched? && |db.value.users| >= FEED_LIMIT ==> |feed| == FEED_LIMIT
    ensures db.Fetched? && db.value.users != [] ==> feed != []
  {
    var records := FetchUsersWithStats(db, now);
    var activities := SynthesizeActivities(records);
    users, all := records, activities;
    feed := TakeNewest(activities);
    SynthesizedLength(records, |records|);
    assert records[..|records|] == records;
    if db.Fetched? {
      CountsCarryOver(db.value.users, records, db.value.chats, now);
    }
  }

  /** 1 for a user document with a completed progress entry, else 0. */
  function DocCompletionFlag(d: UserDoc): nat {
    if CompletedCount(d.progress) > 0 then 1 else 0
  }

  /** 1 for a user document whose chats hold a user-role message, else 0. */
  function DocChatFlag(chats: seq<ChatDoc>): UserDoc -> nat {
    (d: UserDoc) => if ChatUserMessages(ChatsOf(chats, d.id)) > 0 then 1 else 0
  }

  /** The per-user indicator sums are the same whether taken over the documents or over their derived records. */
  lemma {:induction false} CountsCarryOver(docs: seq<UserDoc>, users: seq<UserWithStats>, chats: seq<ChatDoc>, now: int)
    requires |users| == |docs|
    requires forall i :: 0 <= i < |users| ==> users[i] == StatsOf(docs[i], chats, now)
    ensures SumBy(users, CompletionFlag) == SumBy(docs, DocCompletionFlag)
    ensures SumBy(users, ChatFlag) == SumBy(docs, DocChatFlag(chats))
    decreases |docs|
  {
    if docs != [] {
      CountsCarryOver(docs[1..], users[1..], chats, now);
    }
  }

  // ----- system health -----

  datatype HealthStatus = Healthy | Warning | Critical

  /** The outcome of the one-document probe query: its response time in milliseconds, or a failure. */
  datatype Probe = ProbeFailed | Responded(responseTime: nat)

  /**
   * `SystemHealth`; `totalRequests24h` and `errorRate` are random mock values
   * on success and are modelled as `None` there.
   */
  datatype SystemHealth = SystemHealth(
    status: HealthStatus,
    apiResponseTime: nat,
    databaseConnected: bool,
    lastUpdate: int,
    totalRequests24h: Option<nat>,
    errorRate: Option<nat>)

  function Severity(s: HealthStatus): nat {
    match s
    case Healthy => 0
    case Warning => 1
    case Critical => 2
  }

  /** The status thresholds: under 500 ms is healthy, under 1000 ms a warning, otherwise critical. */
  function StatusFor(responseTime: nat): (s: HealthStatus)
    ensures s == Healthy <==> responseTime < 500
    ensures s == Warning <==> 500 <= responseTime < 1000
    ensures s == Critical <==> responseTime >= 1000
  {
    if responseTime < 500 then Healthy else if responseTime < 1000 then Warning else Critical
  }

  /** A slower probe never reports a better status. */
  lemma StatusMonotone(t1: nat, t2: nat)
    requires t1 <= t2
    ensures Severity(StatusFor(t1)) <= Severity(StatusFor(t2))
  {
  }

  /** `getSystemHealth`: a failed probe reports a critical, disconnected database with a 100 % error rate. */
  function GetSystemHealth(probe: Probe, now: int): (h: SystemHealth)
    ensures probe.ProbeFailed? ==> h.status == Critical && !h.databaseConnected && h.errorRate == Some(100)
                                   && h.apiResponseTime == 0 && h.totalRequests24h == Some(0)
    ensures probe.Responded? ==> h.databaseConnected && h.status == StatusFor(probe.responseTime)
                                 && h.apiResponseTime == probe.responseTime
    ensures h.lastUpdate == now
  {
    match probe
    case ProbeFailed => SystemHealth(Critical, 0, false, now, Some(0), Some(100))
    case Responded(t) => SystemHealth(StatusFor(t), t, true, now, None, None)
  }

  // ----- the dashboard bundle -----

  datatype AdminDashboardData = AdminDashboardData(
    analytics: Analytics,
    users: seq<UserWithStats>,
    recentActivity: seq<Activity>,
    systemHealth: SystemHealth)

  /**
   * `fetchAdminDashboard`: the users and their counters from one read of the
   * collections, the feed from a second read (`fetchRecentActivity` fetches the
   * users again), and the health probe. Every part absorbs its own failure, so
   * the bundle is always produced.
   */
  method FetchAdminDashboard(first: Fetch<Database>, second: Fetch<Database>, probe: Probe, now: int, todayStart: int)
    returns (d: AdminDashboardData, ghost records: seq<UserWithStats>)
    ensures first.Failed? ==> d.users == [] && d.analytics.totalUsers == 0
    ensures first.Fetched? ==> |d.users| == |first.value.users| == d.analytics.totalUsers
    ensures first.Fetched? ==> forall i :: 0 <= i < |d.users| ==> d.users[i] == StatsOf(first.value.users[i], first.value.chats, now)
    ensures second.Failed? ==> records == []
    ensures second.Fetched? ==> |records| == |second.value.users|
                                && forall i :: 0 <= i < |records| ==> records[i] == StatsOf(second.value.users[i], second.value.chats, now)
    ensures d.recentActivity == TakeNewest(Synthesized(records, |records|))
    ensures d.analytics == CalculateAnalytics(d.users, todayStart)
    ensures second.Failed? ==> d.recentActivity == []
    ensures |d.recentActivity| <= FEED_LIMIT && SortedNewestFirst(d.recentActivity)
    ensures second.Fetched? && |second.value.users| >= FEED_LIMIT ==> |d.recentActivity| == FEED_LIMIT
    ensures d.systemHealth == GetSystemHealth(probe, now)
  {
    var users := FetchUsersWithStats(first, now);
    var analytics := CalculateAnalytics(users, todayStart);
    var recentActivity, secondRecords, all := FetchRecentActivity(second, now);
    records := secondRecords;
    var systemHealth := GetSystemHealth(probe, now);
    d := AdminDashboardData(analytics, users, recentActivity, systemHealth);
  }
}
