/**
 * The demo user list and `getMockAnalytics`, the counters the simple admin
 * page shows. Times are milliseconds; the module-load time `now` and today's
 * local midnight are parameters.
 */
module MockUsers {
  import opened Seqs
  import opened Rounding
  import opened AdminAnalytics

  const MINUTE: int := 60 * 1000
  const HOUR: int := 60 * MINUTE
  const DAY: int := 24 * HOUR

  /** `User`: a demo account with the ids of the coupons it redeemed and the episodes it watched. */
  datatype User = User(
    id: string,
    email: string,
    displayName: string,
    createdAt: int,
    lastLoginAt: int,
    subscriptionStatus: SubscriptionType,
    couponsRedeemed: seq<string>,
    episodesWatched: seq<string>,
    totalChatMessages: nat)

  /** `UserAnalytics`; `averageMessagesPerUser` is held in hundredths (1800 stands for 18.00). */
  datatype UserAnalytics = UserAnalytics(
    totalUsers: nat,
    totalEpisodesWatched: nat,
    totalCouponsRedeemed: nat,
    totalChatMessages: nat,
    averageMessagesPerUserHundredths: nat,
    activeUsersToday: nat)

  /** `mockUsers`, with its dates computed from the time `now` at which the module was loaded. */
  function MockUsersAt(now: int): (users: seq<User>)
    ensures |users| == 5
    ensures forall i :: 0 <= i < |users| ==> users[i].createdAt < users[i].lastLoginAt < now
  {
    [ User("user_001", "sarah.chen@example.com", "Sarah Chen", now - 6 * DAY, now - 2 * HOUR, Premium,
           ["DEMO-2026-001"],
           ["understanding-react-hooks", "state-management", "component-lifecycle", "hooks-advanced", "performance-optimization"],
           47),
      User("user_002", "michael.rodriguez@example.com", "Michael Rodriguez", now - 4 * DAY, now - 1 * DAY, Trial,
           ["TRIAL-7DAYS"],
           ["understanding-react-hooks", "state-management"],
           12),
      User("user_003", "emily.johnson@example.com", "Emily Johnson", now - 2 * DAY, now - 30 * MINUTE, Free,
           [],
           ["understanding-react-hooks"],
           3),
      User("user_004", "david.kim@example.com", "David Kim", now - 5 * DAY, now - 5 * HOUR, Premium,
           ["DEMO-2026-001", "STUDENT-REACT-101"],
           ["understanding-react-hooks", "state-management", "component-lifecycle"],
           28),
      User("user_005", "priya.patel@example.com", "Priya Patel", now - 1 * DAY, now - 15 * MINUTE, Free,
           [],
           [],
           0) ]
  }

  function WatchedCount(u: User): nat { |u.episodesWatched| }
  function RedeemedCount(u: User): nat { |u.couponsRedeemed| }
  function ChatMessagesOf(u: User): nat { u.totalChatMessages }

  /** The user's last login is at or after `todayStart`. */
  function ActiveOn(todayStart: int): User -> bool {
    (u: User) => u.lastLoginAt >= todayStart
  }

  /**
   * `getMockAnalytics` over a user list: the totals are the sums of the list
   * lengths and message counts, the average is rounded to hundredths and is 0
   * for an empty list, and the active count never exceeds the user count.
   */
  function GetMockAnalytics(users: seq<User>, todayStart: int): (a: UserAnalytics)
    ensures a.totalUsers == |users|
    ensures a.totalEpisodesWatched == SumBy(users, WatchedCount)
    ensures a.totalCouponsRedeemed == SumBy(users, RedeemedCount)
    ensures a.totalChatMessages == SumBy(users, ChatMessagesOf)
    ensures users == [] ==> a.averageMessagesPerUserHundredths == 0 && a.activeUsersToday == 0
    ensures users != [] ==> IsRoundedQuotient(a.averageMessagesPerUserHundredths, 100 * a.totalChatMessages, |users|)
    ensures a.activeUsersToday <= a.totalUsers
  {
    var totalUsers := |users|;
    var totalChatMessages := SumBy(users, ChatMessagesOf);
    UserAnalytics(
      totalUsers,
      SumBy(users, WatchedCount),
      SumBy(users, RedeemedCount),
      totalChatMessages,
      if totalUsers > 0 then RoundDiv(100 * totalChatMessages, totalUsers) else 0,
      |Filter(users, ActiveOn(todayStart))|)
  }

  /** `activeUsersToday` is the number of users whose last login falls on or after midnight. */
  lemma ActiveUsersAreRecentLogins(users: seq<User>, todayStart: int)
    ensures GetMockAnalytics(users, todayStart).activeUsersToday == SumBy(users, Indicator(ActiveOn(todayStart)))
    ensures (forall i :: 0 <= i < |users| ==> users[i].lastLoginAt < todayStart) ==> GetMockAnalytics(users, todayStart).activeUsersToday == 0
  {
    FilterLengthIsCount(users, ActiveOn(todayStart));
    if forall i :: 0 <= i < |users| ==> users[i].lastLoginAt < todayStart {
      NoneActive(users, todayStart);
    }
  }

  lemma {:induction false} NoneActive(users: seq<User>, todayStart: int)
    requires forall i :: 0 <= i < |users| ==> users[i].lastLoginAt < todayStart
    ensures Filter(users, ActiveOn(todayStart)) == []
    decreases |users|
  {
    if users != [] {
      assert forall i :: 0 <= i < |users| - 1 ==> users[1..][i] == users[i + 1];
      NoneActive(users[1..], todayStart);
    }
  }

  /**
   * The demo data's counters: five users, eleven watched episodes, four
   * redeemed coupons, 90 messages (18.00 per user), and four users active
   * today once it is at least five hours past midnight; the fifth logged in a
   * day ago, before midnight.
   */
  lemma MockAnalyticsValues(now: int, todayStart: int)
    requires todayStart + 5 * HOUR <= now < todayStart + DAY
    ensures GetMockAnalytics(MockUsersAt(now), todayStart)
         == UserAnalytics(5, 11, 4, 90, 1800, 4)
  {
    var users := MockUsersAt(now);
    MockTotals(now);
    MockActiveCount(now, todayStart);
    RoundExact(1800, 5);
  }

  lemma MockTotals(now: int)
    ensures SumBy(MockUsersAt(now), WatchedCount) == 11
    ensures SumBy(MockUsersAt(now), RedeemedCount) == 4
    ensures SumBy(MockUsersAt(now), ChatMessagesOf) == 90
  {
    var users := MockUsersAt(now);
    SumOfFive(users, WatchedCount);
    SumOfFive(users, RedeemedCount);
    SumOfFive(users, ChatMessagesOf);
  }

  lemma MockActiveCount(now: int, todayStart: int)
    requires todayStart + 5 * HOUR <= now < todayStart + DAY
    ensures |Filter(MockUsersAt(now), ActiveOn(todayStart))| == 4
  {
    var users := MockUsersAt(now);
    FilterLengthIsCount(users, ActiveOn(todayStart));
    SumOfFive(users, Indicator(ActiveOn(todayStart)));
  }

  /** A sum over five users, written out. */
  lemma SumOfFive(users: seq<User>, f: User -> nat)
    requires |users| == 5
    ensures SumBy(users, f) == f(users[0]) + f(users[1]) + f(users[2]) + f(users[3]) + f(users[4])
  {
    var t1 := users[1..];
    var t2 := t1[1..];
    var t3 := t2[1..];
    var t4 := t3[1..];
    assert t1[0] == users[1] && t2[0] == users[2] && t3[0] == users[3] && t4[0] == users[4];
    assert t4[1..] == [];
    assert SumBy(t4, f) == f(users[4]);
    assert SumBy(t3, f) == f(users[3]) + SumBy(t4, f);
    assert SumBy(t2, f) == f(users[2]) + SumBy(t3, f);
    assert SumBy(t1, f) == f(users[1]) + SumBy(t2, f);
  }
}
