# Meridian Learning — a verified model of the application core

Meridian Learning is a small e-learning web application. Learners watch lesson
videos, chat with an AI tutor about the lesson, redeem coupons that unlock
episodes, and browse a help centre. An administrator signs in with a password
to see a dashboard built from the user and chat collections.

This project models the parts of the application that compute or keep state,
one Dafny module per source file, and proves what each part promises:

| module | file | models |
|---|---|---|
| `AdminAnalytics` | `admin_analytics.dfy` | per-user statistics, dashboard counters, the recent-activity feed, the health probe |
| `MockUsers` | `mock_users.dfy` | the mock user list and its analytics |
| `FirestoreService` | `progress_store.dfy` | saving and reading video progress in the `users` collection |
| `UserService` | `user_service.dfy` | creating a user document and logging views and coupon redemptions |
| `CouponRoute` | `coupon.dfy` | the coupon validation endpoint |
| `ChatRoute` | `chat_route.dfy` | the chat endpoint: validation, the message list, the event stream and reading it back |
| `AuthService` | `auth_service.dfy` | the learner's email-only sign-in held in browser storage |
| `AdminAuth` | `admin_auth.dfy` | the admin password sign-in and its two storage slots |
| `LoginPage` | `login_page.dfy` | the learner login form: the blank check, the email pattern, `handleLogin` |
| `Dashboard` | `dashboard.dfy` | relative-time labels, the user-table filter, watch-time labels |
| `HelpPage` | `help_page.dfy` | FAQ search, grouping by category, open items, helpful votes |
| `Episodes` | `episodes.dfy` | the episode catalogue and its lookups |
| `VideoPlayer` | `video_player.dfy` | the clock label and the player's event handlers |
| `ChatPanel` | `chat_panel.dfy` | the lesson chat panel: its message list and one send |

The shared modules `Wrappers` (`Option`, `Outcome` for a value or a thrown
error, `Fetch` for a read that succeeds or fails), `Json` (JSON values,
truthiness, member access), `Strings` (`trim`, the `\s` class, case mapping,
`includes`, decimal digits), `Seqs` (filter and sums) and `Rounding`
(`Math.round` of a quotient) hold the JavaScript behaviour the modules share.

Conventions of the model:

- The document store is an in-memory map or snapshot. A read or write that fails
  is an input flag, or a `Fetch` value that is `Failed`.
- Clock readings (`new Date()`, `Date.now()`) are parameters in milliseconds.
  So is today's local midnight (`todayStart`). `Math.random` output is a
  parameter too.
- Browser storage slots are fields of a class. `hasWindow` says whether the code
  runs in a browser. Without one, `localStorage` access throws.
- Stateful code (the progress store, the user service, the sign-in sessions, the
  login form, the help page state, the video player, the chat panel) is a class
  whose methods update its fields. Loops that accumulate (`fetchUsersWithStats`,
  the activity synthesis, the chat relay, the FAQ grouping, the history `forEach`)
  are methods with loop invariants, proved against the functions that define their results.

## Model

| member | source | states |
|---|---|---|
| `Rounding.RoundDiv` | src/lib/admin-analytics.ts:100 | `Math.round(a / b)` on naturals: the result is within half of `a / b`, rounding half up |
| `Rounding.RoundedQuotientUnique` | src/lib/admin-analytics.ts:113 | only one natural is the rounded quotient, so every rounded counter is determined by its inputs |
| `Strings.Trim` | src/lib/auth-service.ts:19 | `trim()` returns the middle of the string: what it drops at both ends is all whitespace, and the result neither starts nor ends with whitespace |
| `Strings.BlankIffAllWhitespace` | src/components/ChatPanel.tsx:26 | `!s.trim()` holds exactly when every character is whitespace |
| `Strings.ToUpper` | src/app/api/coupon/route.ts:30 | upper-casing keeps the length and maps each character on its own |
| `Strings.ContainsAt` | src/app/help/page.tsx:314-316 | `includes` holds exactly when the substring occurs at some position |
| `Strings.ParseNatToString` | src/components/VideoPlayer.tsx:60 | a rendered whole number reads back as itself |
| `AdminAnalytics.UserStats` | src/lib/admin-analytics.ts:44-80 | one user's record: `episodesWatched` counts the completed progress entries, `messagesCount` counts user-role messages over the user's chats, `watchTime` sums positions with a missing one counting 0 |
| `AdminAnalytics.FetchUsersWithStats` | src/lib/admin-analytics.ts:35-89 | one record per user document, in order, each that document's statistics; an empty list when the read fails |
| `AdminAnalytics.CompletedCountBounds` | src/lib/admin-analytics.ts:45-48 | the completed count never exceeds the number of entries and equals it exactly when every entry is completed |
| `AdminAnalytics.StatsIgnoreOrder` | src/lib/admin-analytics.ts:46-67 | the three counters do not depend on the order of progress entries or chat documents |
| `AdminAnalytics.AssistantMessagesDoNotCount` | src/lib/admin-analytics.ts:58-60 | messages whose role is not `user` add nothing to `messagesCount` |
| `AdminAnalytics.CalculateAnalytics` | src/lib/admin-analytics.ts:92-124 | the totals are exact sums; the average watch time and the completion rate are rounded quotients, 0 for no users; active users never exceed total users |
| `AdminAnalytics.ActiveTodayCountsRecentLogins` | src/lib/admin-analytics.ts:102-108 | `activeToday` counts the users whose last login is at or after midnight, and is every user when all logged in today |
| `AdminAnalytics.CompletionRateAtMostHundred` | src/lib/admin-analytics.ts:110-114 | when no user has completed more than the five catalogue episodes, the completion rate is at most 100 |
| `AdminAnalytics.StatsOf` | src/lib/admin-analytics.ts:69-80 | one document's record: the `||` fallbacks for email, name, dates and plan, and the three counters; `UserStats` is proved equal to it |
| `AdminAnalytics.ActivitiesOf` | src/lib/admin-analytics.ts:135-171 | each user gives a login entry first, plus one entry per completion flag and chat flag, all stamped with the last login |
| `AdminAnalytics.ActivityKinds` | src/lib/admin-analytics.ts:147-171 | a user has a completion entry exactly when they completed an episode, and a chat entry exactly when they sent a message |
| `AdminAnalytics.Synthesized` | src/lib/admin-analytics.ts:133-172 | the entries of the first `n` users, concatenated in user order; its length and the loop are stated below |
| `AdminAnalytics.SynthesizedLength` | src/lib/admin-analytics.ts:133-172 | the synthesised list has one entry per user plus one per user with a completion plus one per user with a message |
| `AdminAnalytics.SynthesizeActivities` | src/lib/admin-analytics.ts:133-172 | the `forEach` loop builds exactly the per-user entries, concatenated in user order |
| `AdminAnalytics.CountsCarryOver` | src/lib/admin-analytics.ts:131-172 | the completion and chat flags summed over the derived records equal those summed over the stored documents |
| `AdminAnalytics.InsertByTime` | src/lib/admin-analytics.ts:175 | inserting into a newest-first list keeps it newest-first and adds exactly that entry |
| `AdminAnalytics.InsertKeepsTies` | src/lib/admin-analytics.ts:175 | the inserted entry goes ahead of the entries with its timestamp, which keep their order |
| `AdminAnalytics.SortNewestFirst` | src/lib/admin-analytics.ts:175 | the sort returns a permutation of its input, ordered by non-increasing timestamp, and stable: for every timestamp, its entries keep their input order |
| `AdminAnalytics.PrefixIsNewest` | src/lib/admin-analytics.ts:175 | a prefix of a sorted permutation is sorted, and no entry left out is newer than one kept |
| `AdminAnalytics.TakeNewest` | src/lib/admin-analytics.ts:175 | the feed has `min(n, 10)` entries, newest first, drawn from the activities, and no entry left out is newer than one shown; for every timestamp the feed keeps the first of its entries, in their input order |
| `AdminAnalytics.FetchRecentActivity` | src/lib/admin-analytics.ts:127-180 | the feed is `TakeNewest` of the entries synthesised from the documents' statistic records, in user order, counted as above; it is full once there are ten users and non-empty once there is one; an empty feed when the read fails |
| `AdminAnalytics.StatusFor` | src/lib/admin-analytics.ts:192 | healthy under 500 ms, warning from 500 to under 1000 ms, critical from 1000 ms |
| `AdminAnalytics.StatusMonotone` | src/lib/admin-analytics.ts:192 | a slower probe never reports a better status |
| `AdminAnalytics.GetSystemHealth` | src/lib/admin-analytics.ts:183-210 | a failed probe is critical and disconnected with a 100 % error rate; an answered one is connected with the status of its response time |
| `AdminAnalytics.FetchAdminDashboard` | src/lib/admin-analytics.ts:213-225 | the users are the `StatsOf` records of the first read's documents, in order, and the counters are computed from them; the feed is `TakeNewest` of the activities synthesised from the `StatsOf` records of the second read's documents, newest first and at most ten long; the health is the probe's; every part absorbs its own failure |
| `MockUsers.MockUsersAt` | src/lib/mockUsers.ts:26-92 | five users, each created before their last login, which is before now |
| `MockUsers.GetMockAnalytics` | src/lib/mockUsers.ts:94-125 | the totals are the list length and the sums of list lengths and message counts; the average is rounded to hundredths, 0 for no users; active users never exceed total users |
| `MockUsers.ActiveUsersAreRecentLogins` | src/lib/mockUsers.ts:111-115 | `activeUsersToday` counts users who logged in at or after midnight, and is 0 when nobody did |
| `MockUsers.NoneActive` | src/lib/mockUsers.ts:113-115 | when every login is before midnight, the filter keeps nobody |
| `MockUsers.MockTotals` | src/lib/mockUsers.ts:96-107 | the mock list holds 11 watched episodes, 4 redeemed coupons and 90 chat messages |
| `MockUsers.MockActiveCount` | src/lib/mockUsers.ts:111-115 | from five hours after midnight on, four of the five mock users logged in today |
| `MockUsers.MockAnalyticsValues` | src/lib/mockUsers.ts:94-125 | the mock analytics are 5 users, 11 episodes, 4 coupons, 90 messages, an average of 18.00, and 4 active |
| `FirestoreService.WrittenEntry` | src/lib/firestore-service.ts:23-28 | an omitted `isCompleted` is stored as false, and `completedAt` is present exactly when the entry is completed |
| `FirestoreService.MergeEntry` | src/lib/firestore-service.ts:31-39 | a merging write replaces every field it carries and keeps a stored `completedAt` when it carries none |
| `FirestoreService.SaveEffect` | src/lib/firestore-service.ts:31-39 | the save creates the document if needed and rewrites only the one entry |
| `FirestoreService.SaveThenRead` | src/lib/firestore-service.ts:12-66 | reading back a saved entry gives the saved position and completion flag |
| `FirestoreService.SaveKeepsEverythingElse` | src/lib/firestore-service.ts:30-39 | every other entry, and every document's other fields, are unchanged by a save |
| `FirestoreService.OmittedFlagClearsCompletion` | src/lib/firestore-service.ts:25-39 | a save without `isCompleted` after a completing save leaves the entry not completed, while the merge keeps the old `completedAt` |
| `FirestoreService.AllProgress` | src/lib/firestore-service.ts:83-88 | a user's progress map holds exactly the entries stored for that user |
| `FirestoreService.ProgressStore.SaveVideoProgress` | src/lib/firestore-service.ts:12-46 | a successful save applies the merge above; a failed write is re-thrown and changes nothing |
| `FirestoreService.ProgressStore.GetVideoProgress` | src/lib/firestore-service.ts:51-71 | the stored entry, or null for a missing document, a missing entry or a failed read |
| `FirestoreService.ProgressStore.GetAllVideoProgress` | src/lib/firestore-service.ts:76-93 | the user's progress map, or an empty map for a missing document or a failed read |
| `FirestoreService.ProgressStore.MarkEpisodeComplete` | src/lib/firestore-service.ts:98-114 | the same effect as a save with `isCompleted: true`: the entry becomes completed at the final position, stamped now |
| `UserService.Defaults` | src/lib/userService.ts:8-17 | the default record has exactly the nine fields of a user |
| `UserService.NewUser` | src/lib/userService.ts:8-19 | every field the caller passes wins over the default; every other default stays |
| `UserService.DefaultsOnlyForAbsentFields` | src/lib/userService.ts:10-18 | an absent email or display name gets `""` or `"New User"`; a present one, falsy or not, is stored as given; an absent id is the document id |
| `UserService.NoDataGivesDefaultRecord` | src/lib/userService.ts:8-17 | without caller fields the new user is the default record, field by field |
| `UserService.CallerIdWins` | src/lib/userService.ts:18 | a caller's `id` replaces the document id inside the record |
| `UserService.UserService.CreateUserDocument` | src/lib/userService.ts:5-26 | the new record replaces any existing document and is returned; a failed write is re-thrown and changes nothing |
| `UserService.UserService.LogEpisodeView` | src/lib/userService.ts:28-41 | one `{episodeId, viewedAt}` record is added to this user's history; a failure is swallowed; other users are unchanged |
| `UserService.UserService.RedeemCoupon` | src/lib/userService.ts:53-66 | one `{couponCode, redeemedAt}` record is added to this user's history; a failure is swallowed; other users are unchanged |
| `UserService.LogTwice` | src/lib/userService.ts:28-41 | two successful logs add exactly two records, in call order |
| `CouponRoute.ValidCoupons` | src/app/api/coupon/route.ts:4-17 | the table holds exactly the three coupon codes |
| `CouponRoute.Post` | src/app/api/coupon/route.ts:19-62 | a body that does not parse or is `null`, and a truthy code that is not a string, give the 500; a falsy or absent code, exactly, gives the 400 "Coupon code is required"; a truthy string code gets the table lookup's answer; an accepted answer is always a 200 |
| `CouponRoute.Lookup` | src/app/api/coupon/route.ts:30-54 | an unknown code and an expired code are rejected with status 200; a code is accepted exactly when its upper-case form is in the table and not yet expired, with the table's episodes and expiry |
| `CouponRoute.MissingCodeRejected` | src/app/api/coupon/route.ts:23-28 | a missing or falsy code is a 400 "Coupon code is required" |
| `CouponRoute.CaseInsensitive` | src/app/api/coupon/route.ts:30 | codes with the same upper-case form get the same answer |
| `CouponRoute.KeysAreUpperCase` | src/app/api/coupon/route.ts:4-17 | every table key is already upper-case, so each is reachable as written |
| `CouponRoute.ExpiryBoundary` | src/app/api/coupon/route.ts:39-47 | a coupon is accepted at its expiry instant and rejected as expired one millisecond later |
| `CouponRoute.LowerCaseTrialAccepted` | src/app/api/coupon/route.ts:13-54 | `"trial-7days"` right after the table is built unlocks all episodes |
| `ChatRoute.HistoryItems` | src/app/api/chat/route.ts:42 | only an array history is used; anything else gives no items |
| `ChatRoute.HistoryMessage` | src/app/api/chat/route.ts:43-47 | role `user` stays `user`, every other role becomes `assistant`; the content is passed on |
| `ChatRoute.BuildMessages` | src/app/api/chat/route.ts:39-55 | the list is the history in order, each item mapped, followed by the current message as a user message; a `null` item throws |
| `ChatRoute.EscapeChar` | src/app/api/chat/route.ts:73 | an escaped character is never empty and never contains a line break |
| `ChatRoute.Escape` | src/app/api/chat/route.ts:73 | a `JSON.stringify` string body never contains a line break |
| `ChatRoute.TextFrame` | src/app/api/chat/route.ts:73 | `data: ` + `JSON.stringify({ text })` + a blank line; the lemma below shows it is one event |
| `ChatRoute.TextFrameIsOneEvent` | src/app/api/chat/route.ts:73 | a text frame is one line ending in a blank line, so it carries exactly one event |
| `ChatRoute.DeltaTexts` | src/app/api/chat/route.ts:70-75 | there are never more relayed texts than chunks |
| `ChatRoute.DeltaTextsAreFiltered` | src/app/api/chat/route.ts:70-75 | the relayed texts are exactly those of the text-delta chunks, in order |
| `ChatRoute.Framed` | src/app/api/chat/route.ts:73 | one frame per relayed text |
| `ChatRoute.Relay` | src/app/api/chat/route.ts:67-83 | one frame per text delta, then the terminator and close; a failing model stream keeps the frames sent, adds no terminator and errors the stream |
| `ChatRoute.ReadEscaped` | src/app/api/chat/route.ts:73 | unescaping a `JSON.stringify` string body gives back the original text |
| `ChatRoute.RelayReadsBack` | src/app/api/chat/route.ts:67-83 | a client reading the stream gets every relayed text back in order, then the terminator exactly when the stream completed |
| `ChatRoute.Post` | src/app/api/chat/route.ts:11-104 | a missing, empty or non-string message is a 400 and reaches no model; a body that does not parse or a throwing history item or model call is a 500; otherwise the answer is the event stream of the request built above |
| `AuthService.NormalizeEmail` | src/lib/auth-service.ts:19 | `email.toLowerCase().trim()`; its shape and idempotence are the two lemmas below |
| `AuthService.NormalizedShape` | src/lib/auth-service.ts:19 | the stored email is no longer than the raw one, has no upper-case letter and no whitespace at either end |
| `AuthService.NormalizeIdempotent` | src/lib/auth-service.ts:19 | normalising a normalised email changes nothing |
| `AuthService.BeforeFirstAt` | src/lib/auth-service.ts:20 | `split('@')[0]` is the prefix before the first `@`, or the whole string when there is none |
| `AuthService.NewUser` | src/lib/auth-service.ts:17-22 | the stored email is normalised; a missing or empty display name falls back to the raw email's local part |
| `AuthService.Sanitize` | src/lib/auth-service.ts:76 | the id has the email's length in UTF-16 code units and holds only ASCII letters, digits and `_` |
| `AuthService.SanitizeBmp` | src/lib/auth-service.ts:76 | for an email within the Basic Multilingual Plane, letters and digits stay and every other character becomes one `_` |
| `AuthService.SanitizeAstral` | src/lib/auth-service.ts:76 | a character outside the Basic Multilingual Plane becomes two underscores, one per code unit: `a😀@x.io` gives `a___x_io` |
| `AuthService.SanitizeFixes` | src/lib/auth-service.ts:76 | an id of ASCII letters, digits and `_` is left unchanged |
| `AuthService.SanitizeIdempotent` | src/lib/auth-service.ts:76 | sanitising a sanitised id changes nothing |
| `AuthService.SanitizeMerges` | src/lib/auth-service.ts:74-76 | two different emails can share one document id |
| `AuthService.AuthSession.LoginUser` | src/lib/auth-service.ts:17-29 | the new user is stored and returned, and is then the current user; without a browser the call throws and stores nothing |
| `AuthService.AuthSession.GetCurrentUser` | src/lib/auth-service.ts:34-49 | the object the slot parses to, a full user or any other object; null without a browser, for an empty slot, and for text that does not parse or parses to `null` or a primitive |
| `AuthService.AuthSession.LogoutUser` | src/lib/auth-service.ts:54-57 | after logout nobody is signed in |
| `AuthService.AuthSession.IsAuthenticated` | src/lib/auth-service.ts:62-64 | signed in exactly when `getCurrentUser` answers an object |
| `AuthService.AuthSession.GetUserId` | src/lib/auth-service.ts:70-77 | null exactly when nobody is signed in; a thrown error exactly when the stored object has no string `email`; otherwise the sanitised email |
| `AuthService.SignedInUserId` | src/lib/auth-service.ts:70-77 | a learner signed in through `loginUser` gets the sanitised stored email as id |
| `AuthService.EmptyObjectSignedInWithoutId` | src/lib/auth-service.ts:40-76 | a slot holding `{}` counts as signed in, yet `getUserId` throws |
| `AdminAuth.SessionId` | src/lib/admin-auth.ts:9-11 | a session id is never empty and starts with `admin_` |
| `AdminAuth.SessionTimeRoundTrip` | src/lib/admin-auth.ts:10 | the clock reading can be read back from the session id |
| `AdminAuth.SessionIdsDistinct` | src/lib/admin-auth.ts:9-11 | sessions opened at different instants get different ids, whatever the random digits |
| `AdminAuth.AdminSession.IsAdminAuthenticated` | src/lib/admin-auth.ts:14-21 | in a browser, the session slot holds `active` and the id slot a non-empty string |
| `AdminAuth.AdminSession.GetAdminSessionId` | src/lib/admin-auth.ts:24-27 | the id slot, or null without a browser |
| `AdminAuth.AdminSession.AdminLogin` | src/lib/admin-auth.ts:30-46 | a wrong password fails with "Invalid password" and leaves both slots unchanged; the right one sets both, replacing any session, and authenticates |
| `AdminAuth.AdminSession.AdminLogout` | src/lib/admin-auth.ts:49-52 | both slots are removed and the admin is no longer authenticated |
| `AdminAuth.NoWindowNoAdmin` | src/lib/admin-auth.ts:14-27 | without a browser nobody is an authenticated admin and there is no session id |
| `LoginPage.AcceptedMatches` | src/app/login/page.tsx:149-150 | what the single-pass check accepts matches `/^[^\s@]+@[^\s@]+\.[^\s@]+$/` |
| `LoginPage.MatchedAccepted` | src/app/login/page.tsx:149-150 | what the pattern matches, the single-pass check accepts |
| `LoginPage.AcceptsIffMatches` | src/app/login/page.tsx:149-150 | the check and the pattern accept the same strings |
| `LoginPage.BlankNeverAccepted` | src/app/login/page.tsx:143-153 | a blank email never has the pattern's shape |
| `LoginPage.RejectsPadding` | src/app/login/page.tsx:149-150 | whitespace at either end fails the pattern |
| `LoginPage.RejectsSecondAt` | src/app/login/page.tsx:149-150 | a second `@` fails the pattern |
| `LoginPage.AcceptedEmailOnlyLowercased` | src/app/login/page.tsx:149-159 | an accepted email has no whitespace, so sign-in only lower-cases it |
| `LoginPage.ValidationAlert` | src/app/login/page.tsx:143-153 | the blank message, then the format message, else no alert; its cases are stated by the lemma below |
| `LoginPage.ValidationAlertSpec` | src/app/login/page.tsx:143-153 | no alert exactly when the email has the pattern's shape; the blank message exactly for a blank email, the format message otherwise |
| `LoginPage.LoginForm.HandleLogin` | src/app/login/page.tsx:140-168 | a failed check shows its alert and changes nothing else; otherwise the form becomes busy and signs in with the email and, for an empty field, no display name; a throwing sign-in resets the busy flag |
| `Dashboard.FormatRelativeTime` | src/app/admin/dashboard-enhanced.tsx:529-541 | the relative label from floored minutes, hours and days; its buckets are stated by the two lemmas below |
| `Dashboard.RelativeTimeBuckets` | src/app/admin/dashboard-enhanced.tsx:529-541 | under a minute, a future date included, is "Just now"; then whole minutes, hours and days; from seven days the calendar date |
| `Dashboard.AgoLabelRoundsDown` | src/app/admin/dashboard-enhanced.tsx:531-539 | between a minute and a week, the label's count is the elapsed time rounded down to whole units, at least 1 |
| `Dashboard.FilteredUsers` | src/app/admin/dashboard-enhanced.tsx:102-111 | exactly the loaded users that pass both the search and the plan filter, in loaded order; nothing before the data loads |
| `Dashboard.EmptySearchListsEveryone` | src/app/admin/dashboard-enhanced.tsx:102-111 | an empty search with every plan selected lists every user in order |
| `Dashboard.OtherPlansHidden` | src/app/admin/dashboard-enhanced.tsx:107-108 | with one plan selected, no user on another plan is listed |
| `Dashboard.WatchTimeLabel` | src/app/admin/dashboard-enhanced.tsx:437 | whole minutes, `m `, the remaining seconds, `s`; it reads back by the lemma below |
| `Dashboard.WatchTimeRoundTrip` | src/app/admin/dashboard-enhanced.tsx:437 | the "`m`m `s`s" label reads back as the watch time it shows, with fewer than 60 seconds |
| `HelpPage.FilteredFaqs` | src/app/help/page.tsx:309-318 | a blank query lists every FAQ; otherwise exactly the FAQs whose lower-cased question, answer or category contains the lower-cased query, in order |
| `HelpPage.QueryIsNotTrimmed` | src/app/help/page.tsx:310-311 | a listed FAQ contains the lower-cased query with its surrounding spaces |
| `HelpPage.CategoriesInOrder` | src/app/help/page.tsx:343-352 | each category is named once, in order of first appearance |
| `HelpPage.CategoriesListed` | src/app/help/page.tsx:343-352 | a category is named exactly when some FAQ has it |
| `HelpPage.GroupFaqs` | src/app/help/page.tsx:343-352 | the groups are keyed by the categories present; each group is the FAQs of its category in original order; the group sizes sum to the number of FAQs |
| `HelpPage.EachFaqInItsOwnGroup` | src/app/help/page.tsx:345-350 | an FAQ is in a group exactly when the group is its own category's |
| `HelpPage.Toggled` | src/app/help/page.tsx:320-328 | toggling flips the one id and leaves every other id as it was |
| `HelpPage.ToggleTwice` | src/app/help/page.tsx:320-328 | toggling the same id twice restores the set |
| `HelpPage.FeedbackKey` | src/app/help/page.tsx:332 | the key `${id}-${isHelpful}`; it determines both parts by the lemma below |
| `HelpPage.FeedbackKeyInjective` | src/app/help/page.tsx:332 | different votes give different keys |
| `HelpPage.HelpState.constructor` | src/app/help/page.tsx:305-306 | no item open and no vote recorded |
| `HelpPage.HelpState.ToggleItem` | src/app/help/page.tsx:320-328 | the open set is toggled at the id; the votes are unchanged |
| `HelpPage.HelpState.HandleHelpful` | src/app/help/page.tsx:330-334 | the vote's key is added and nothing is removed; the open set is unchanged |
| `Episodes.GetEpisodeById` | src/lib/episodes.ts:38-40 | a catalogue episode with the id, and null exactly when no catalogue episode has it |
| `Episodes.GetAllEpisodes` | src/lib/episodes.ts:42-44 | the catalogue itself |
| `Episodes.FindEpisode` | src/lib/episodes.ts:39 | null exactly when no catalogue episode has the id; otherwise a catalogue episode with that id |
| `Episodes.FindReturnsFirst` | src/lib/episodes.ts:39 | when ids repeat, the first match in catalogue order is returned |
| `Episodes.LookupAgreesWithCatalogue` | src/lib/episodes.ts:38-44 | a found episode carries the id asked for and is in the catalogue; every catalogue episode is found by its id |
| `VideoPlayer.FormatTime` | src/components/VideoPlayer.tsx:56-61 | `0:00` for zero or NaN, else floored minutes and two-digit floored seconds; its properties are the lemmas below |
| `VideoPlayer.ClockRoundTrip` | src/components/VideoPlayer.tsx:56-61 | for a time that is not negative, the label reads back as the whole seconds elapsed, with a seconds field of two digits below 60 |
| `VideoPlayer.FormatAsFields` | src/components/VideoPlayer.tsx:58-60 | a non-negative time shows its whole minutes, a colon and its padded whole seconds within the minute |
| `VideoPlayer.FloorParts` | src/components/VideoPlayer.tsx:58-59 | the minutes and the truncating remainder give the minutes and seconds of the whole seconds |
| `VideoPlayer.PaddedSeconds` | src/components/VideoPlayer.tsx:60 | a padded number below 100 is two digits with that value |
| `VideoPlayer.NaNShowsStart` | src/components/VideoPlayer.tsx:57 | `NaN`, and any time under a second, shows as the start |
| `VideoPlayer.Player.constructor` | src/components/VideoPlayer.tsx:12-16 | paused at the start, with the duration not yet known |
| `VideoPlayer.Player.ChangeEpisode` | src/components/VideoPlayer.tsx:18-24 | a new episode, with the element mounted, stops playback and rewinds to the start; nothing else changes |
| `VideoPlayer.Player.PlayPause` | src/components/VideoPlayer.tsx:26-35 | the playing flag flips when the element is mounted; nothing else changes |
| `VideoPlayer.PlayPauseTwice` | src/components/VideoPlayer.tsx:26-35 | two clicks restore the playing flag |
| `VideoPlayer.Player.Seek` | src/components/VideoPlayer.tsx:63-69 | the chosen time becomes the current time; nothing else changes |
| `VideoPlayer.Player.TimeUpdate` | src/components/VideoPlayer.tsx:37-41 | the element's position becomes the current time; nothing else changes |
| `VideoPlayer.Player.LoadedMetadata` | src/components/VideoPlayer.tsx:43-47 | the element's duration is recorded; nothing else changes |
| `VideoPlayer.Player.Ended` | src/components/VideoPlayer.tsx:49-54 | playback stops, and `onComplete` is counted exactly once when it was given |
| `ChatPanel.ResponseJson` | src/components/ChatPanel.tsx:47 | a body that cannot begin a JSON text does not parse |
| `ChatPanel.JsonReply` | src/components/ChatPanel.tsx:46-68 | the AI text is always truthy; it is the fallback text exactly after a network error, a status that is not ok, a body that does not parse, a body without a reply, or a reply that is the fallback text |
| `ChatPanel.PanelDropsStreamedReply` | src/components/ChatPanel.tsx:46-47 | the panel as written shows the fallback text for every event stream the chat route sends |
| `ChatPanel.StreamReply` | src/components/ChatPanel.tsx:46-54 | the reply read from the event stream is always truthy |
| `ChatPanel.StreamText` | src/app/api/chat/route.ts:73-76 | the texts of the stream's frames joined in order up to `[DONE]`, or null for a stream that ends without it; stated by the lemma below |
| `ChatPanel.StreamedReplyShown` | src/components/ChatPanel.tsx:46-54 | reading the stream shows exactly the streamed text joined in order, the default text for an empty reply, and the fallback text for a stream cut off |
| `ChatPanel.RequestAccepted` | src/components/ChatPanel.tsx:40-44 | the body the panel sends always passes the chat route's checks |
| `ChatPanel.Panel.constructor` | src/components/ChatPanel.tsx:14-22 | the greeting alone, with id `1`, and an empty input |
| `ChatPanel.Panel.Type` | src/components/ChatPanel.tsx:120 | the input takes the typed text; the messages are unchanged |
| `ChatPanel.Panel.SendMessage` | src/components/ChatPanel.tsx:25-69 | a blank input sends nothing and changes nothing; otherwise the untrimmed input is sent, the input is cleared, and exactly two messages are appended, the user's and then the AI's |
| `ChatPanel.Panel.SendMessageStreamed` | src/components/ChatPanel.tsx:25-69 | the same send, with the AI message read from the event stream |

## Left out

- The Firebase SDK, the network and latency. The document store is an in-memory map or snapshot, and a failure is an input.
- Firestore's automatic ids for history records. A user's history is a list in write order.
- Asynchrony: promises, `Promise.all` and interleaved sends are not modelled. Each operation runs to completion.
- React rendering, CSS, animations, timers, scrolling, `confirm` dialogs and the 30-second dashboard refresh.
- The mock trend numbers on the dashboard.
- `handleKeyPress`, which routes Enter to the send handler, and the router's page changes other than the login redirect.
- `logChatMessage` in src/lib/userService.ts. It only writes to the console and changes no stored data.
- `getAdminData` in src/lib/admin-auth.ts. It returns a constant display record.
- The system prompt text of the chat route. Only the episode title that feeds it is recorded.
- The `details` field of the chat route's 500 answer.
- The Anthropic SDK stream, `ReadableStream` and `TextEncoder`. The model's answer is a list of chunks plus failure flags. The stream is its frames as text.
- `JSON.parse` in the chat panel. A response carries the value its body parses to.
- Lone UTF-16 surrogates in streamed text. Dafny characters are Unicode scalar values.
- `toLocaleDateString` is an opaque parameter.
- Case mapping covers ASCII letters only; other letters keep their case.
- Floating point. Watch times and positions are whole seconds, `Math.round` is half-up rounding on naturals, and `averageMessagesPerUser` is in hundredths.
- `AdminAnalytics.CalculateAnalytics`: computes the completion rate as `100 * e / (5 * n)` rounded. It does not model the floating-point order `(e / (5 * n)) * 100` of the source.
- The random `totalRequests24h` and `errorRate` of a successful health probe. They are `None`.
- `VideoPlayer.FormatTime`: times of plus or minus infinity are not modelled. The round trip is proved for times that are not negative.
- The `<video>` element's own loading, playing and pausing, and the promise `play()` returns. `mounted` says whether the element reference is set.
- `createdAt` and `updatedAt` of an episode are midnight UTC of their date.
- The FAQ catalogue's contents and the category icons of the help page. The FAQ list is a parameter. Its category names are taken to be neither integer-like (which `Object.entries` would list first, in numeric order) nor `Object.prototype` members such as `constructor` (on which the grouping's `push` would throw).
- `UserService.UserService.CreateUserDocument`: an id with a `/` names a nested path, which the model does not distinguish. An empty id is treated as an invalid path that throws.
- Two `new Date()` readings in one call are taken as the same instant.
- The learner profile and the progress store use the same `users` collection in the application. The model keeps them as two separate stores.
- `LoginPage.LoginForm.HandleLogin`: the page's `alert` calls are recorded as the last alert shown.

## Findings

| source | as written | input that shows it | evidently intended | confidence | as-written member | corrected member |
|---|---|---|---|---|---|---|
| src/components/ChatPanel.tsx:46-47 | the panel parses the chat route's answer with `response.json()`, but the route answers with a `text/event-stream` whose body starts with `data: ` | any successful exchange, e.g. the message "Hi" answered with the streamed text "Hello" | show the streamed reply in the AI message | not executed | `ChatPanel.PanelDropsStreamedReply` | `ChatPanel.StreamedReplyShown` |
