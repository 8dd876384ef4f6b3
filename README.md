# TikTok affiliate-invitation bot, server core, in Dafny

This project models the server side of the TikTok Shop affiliate-invitation bot
(`The-TikTok-Bot-for-Digi4U/server`). It proves properties of:

- the creator filter: follower-count parsing, range and category screening,
  upsert, the eligibility rule, scoring and ranking;
- the in-memory store `MemStorage`: id counters, tables, queries, dashboard
  metrics and the status/uptime report;
- the two session managers, as classes with their lifecycle fields and the
  invitation loop as a bounded `while` loop;
- the activity logger: summary counts and hourly timeline buckets;
- the metadata builders and mergers;
- the configuration validator and the query-parameter handling of the HTTP routes.

Modules, one per concern:

- `Schema`, `Json`, `Wrappers`: the records of the shared schema and the JSON values
  that metadata bags hold.
- `Text`, `JsMath`, `Seqs`, `Sorting`: JavaScript primitives made explicit.
  - `x || d` on numbers is `JsMath.OrDefault`.
  - `Math.round` is `JsMath.Round`.
  - `Array.prototype.sort` is a stable insertion sort, with an in-place array version.
  - `slice` is `Seqs.JsSlice`.
- `StoreModel`, `StoreProps`, `Storage`: the store.
  - `StoreModel` is the store as a value, with one function per operation.
  - `StoreProps` holds the lemmas about those functions.
  - `Storage.MemStorage` is the class, whose fields are the source's maps and counters.
    Every method leaves `State()` equal to the matching `StoreModel` function of the old state.
- `FollowerCount`, `CreatorFilter`: the creator filter.
- `MetadataManager`: the metadata builders. A metadata object is a
  `map<string, Json.Value>`, and a spread `{...a, ...b}` is `a + b`.
- `ActivityLogger`: logging wrappers, the summary, and `createTimeline` as a loop.
- `Lifecycle`: the guard logic of start/pause/resume/stop that both managers share, as a
  state machine over `(isRunning, shouldStop, currentSession set)`.
- `Driver`, `Clock`: the browser driver and time.
  - `Driver.BrowserDriver` keeps the `initialized`/`loggedIn` flags. The outcome of every
    browser call is a parameter.
  - `Clock.Clock` holds the current time in milliseconds. A wait advances it by an
    amount chosen anywhere within the wait's bounds.
- `SessionManager`, `EnhancedSessionManager`: the two managers. The per-creator and
  per-batch effect on the store is a pure function. Each loop method is proved equal
  to that function over the trace of what happened.
- `Routes`: JavaScript `parseInt`, the `limit`/`hours` query parameters, the zod
  configuration schema with the min/max check, and the start route's guard.

Timestamps are integer milliseconds. A JavaScript `Date` stored in metadata is
`Json.JDate(ms)`. Scores are `real`.

"Today" (`setHours(0,0,0,0)`) is `Schema.StartOfDay`. It is computed in UTC.

Some lemmas show where two parts of the source disagree:

- `CreatorFilter.BoundaryDisagreesWithStore`: the filter and the store treat a creator
  invited exactly 24 h ago differently.
- `CreatorFilter.StoreIgnoresRejectionCooldown`: the store offers a rejected creator
  that the filter would hold back for 7 days.
- `Lifecycle.FailedStartCanResume`: a failed start leaves `currentSession` set, so
  `resumeSession` then succeeds.

## Model

| member | source | states |
|---|---|---|
| Text.Lower | The-TikTok-Bot-for-Digi4U/server/bot/creator-filter.ts:22-24 | lower-casing keeps the length and maps every character through the ASCII lower-case map (ASCII only; see Left out) |
| JsMath.Round | The-TikTok-Bot-for-Digi4U/server/storage.ts:364 | `Math.round` gives the integer within half a unit, ties going up |
| JsMath.Rem | The-TikTok-Bot-for-Digi4U/server/storage.ts:381-382 | JavaScript `%` takes the sign of the dividend, is smaller than the divisor in magnitude, and differs from the dividend by a whole multiple of the divisor |
| JsMath.FloorDiv | The-TikTok-Bot-for-Digi4U/server/storage.ts:381-382 | `Math.floor(a / b)` is the largest q with q·b ≤ a |
| Schema.ThrownToString | The-TikTok-Bot-for-Digi4U/server/bot/session-manager.ts:225 | `String(error)` of an Error with a name and a message is `name: message` |
| Schema.StartOfDay | The-TikTok-Bot-for-Digi4U/server/storage.ts:350-351 | the result is a midnight (a whole number of days) and the day starting there contains t |
| Seqs.Filter | The-TikTok-Bot-for-Digi4U/server/storage.ts:273-293 | `filter` keeps exactly the elements that satisfy the predicate, and no more of them than the input has |
| Seqs.CountDisjoint | The-TikTok-Bot-for-Digi4U/server/storage.ts:295-302 | counts under two exclusive predicates add up to the count under their disjunction, at most the length |
| Seqs.CountMonotone | The-TikTok-Bot-for-Digi4U/server/bot/activity-logger.ts:106-117 | a stronger predicate never counts more |
| Seqs.JsSlice | The-TikTok-Bot-for-Digi4U/server/storage.ts:320-324 | `slice(0, n)` has length min(n, len) for n ≥ 0, max(0, len + n) for negative n, and is a prefix |
| Seqs.Listed | The-TikTok-Bot-for-Digi4U/server/storage.ts:232-243 | `Array.from(map.values())` has at most as many entries as ids were handed out |
| Seqs.ListedComplete | The-TikTok-Bot-for-Digi4U/server/storage.ts:206-221 | with ids 1..n all present, the listing is exactly the records in id order |
| Seqs.ListedIgnoresAbove | The-TikTok-Bot-for-Digi4U/server/storage.ts:206-221 | a record stored above the counter is not listed |
| Seqs.ListedUpdate | The-TikTok-Bot-for-Digi4U/server/storage.ts:223-230 | overwriting record k changes only position k - 1 of the listing |
| Sorting.InsertPermutes | The-TikTok-Bot-for-Digi4U/server/bot/creator-filter.ts:149-154 | one insertion step adds exactly the inserted element |
| Sorting.InsertKeepsSorted | The-TikTok-Bot-for-Digi4U/server/bot/creator-filter.ts:149-154 | inserting into a non-increasing sequence keeps it non-increasing |
| Sorting.SortDescSortsAndPermutes | The-TikTok-Bot-for-Digi4U/server/bot/creator-filter.ts:149-154 | the descending sort is sorted by the key and is a permutation of its input |
| Sorting.SortedPrefixIsTop | The-TikTok-Bot-for-Digi4U/server/bot/creator-filter.ts:149-156 | the first k of the sorted sequence are sorted, drawn from the input, and score at least as high as every element left out |
| Sorting.InsertAt | The-TikTok-Bot-for-Digi4U/server/bot/creator-filter.ts:149-154 | insertion places the element after every key at least as large and before every smaller key (stable) |
| Sorting.InsertIntoPrefix | The-TikTok-Bot-for-Digi4U/server/bot/creator-filter.ts:149-154 | the in-place step turns a[..i+1] into the insertion of a[i] into the sorted prefix and leaves the rest untouched |
| Sorting.SortInPlace | The-TikTok-Bot-for-Digi4U/server/bot/creator-filter.ts:149-154 | sorting the array in place leaves it equal to the descending sort of its old contents |
| StoreModel.Initial | The-TikTok-Bot-for-Digi4U/server/storage.ts:67-126 | a new store is well formed, has no sessions, creators or activities, and holds the default configuration |
| StoreModel.FindByUsername | The-TikTok-Bot-for-Digi4U/server/storage.ts:269-271 | `find` by username returns a creator with that username, and returns nothing exactly when none has it |
| StoreProps.CreateBotSessionAppends | The-TikTok-Bot-for-Digi4U/server/storage.ts:206-221 | a new session is appended under a fresh id above every existing one; status defaults to idle and the three counters to 0; start and end time and settings are as supplied, null when absent; metadata is dropped and `createdAt` is now; the other sessions and tables are unchanged |
| StoreProps.CreateCreatorAppends | The-TikTok-Bot-for-Digi4U/server/storage.ts:245-258 | a new creator is appended under a fresh id above every existing one; `username`, `lastInvited` and `inviteStatus` are as supplied, null when absent; followers and category are as supplied except that zero followers and an empty category are stored as null; metadata is null and `createdAt` is now; nothing else changes |
| StoreProps.LogActivityAppends | The-TikTok-Bot-for-Digi4U/server/storage.ts:305-318 | the activity log only grows, by one record with a fresh, larger id |
| StoreProps.UpdateBotSessionLocal | The-TikTok-Bot-for-Digi4U/server/storage.ts:223-230 | an unknown id changes nothing and returns undefined; a known id overwrites only the supplied fields of that one session: each of status, end time, the three counters and metadata is the supplied value or the old one, and id, start time, settings and `createdAt` are kept |
| StoreProps.UpdateCreatorLocal | The-TikTok-Bot-for-Digi4U/server/storage.ts:260-267 | an unknown id changes nothing and returns undefined; a known id overwrites only the supplied fields of that one creator: each of followers, category, `lastInvited`, `inviteStatus` and metadata is the supplied value or the old one, and id, username and `createdAt` are kept |
| StoreProps.CurrentSessionIsNewestActive | The-TikTok-Bot-for-Digi4U/server/storage.ts:232-236 | the current session is none exactly when no session is running or paused, and otherwise a running or paused one with the latest `createdAt` |
| StoreProps.RecentSessionsAreNewest | The-TikTok-Bot-for-Digi4U/server/storage.ts:238-243 | recent sessions are min(limit, count) sessions, newest first, drawn from the table |
| StoreProps.RecentActivitiesAreNewest | The-TikTok-Bot-for-Digi4U/server/storage.ts:320-324 | recent activities are min(limit, count) activities, newest first, drawn from the log |
| StoreProps.ActivitiesBySessionExact | The-TikTok-Bot-for-Digi4U/server/storage.ts:326-330 | the activities of a session are exactly those tagged with its id, newest first |
| StoreProps.CreatorsForInvitationSound | The-TikTok-Bot-for-Digi4U/server/storage.ts:273-293 | at most `limit` creators, each in range, not invited in the last 24 h and not accepted, and they are the first such in insertion order |
| StoreProps.CreatorStatsBound | The-TikTok-Bot-for-Digi4U/server/storage.ts:295-302 | active + pending never exceeds the total |
| StoreProps.AcceptanceRateIsRoundedPercent | The-TikTok-Bot-for-Digi4U/server/storage.ts:364 | the rate is 0 with nothing sent, otherwise within half a point of 100·accepted/sent, and between 0 and 100 when accepted ≤ sent |
| StoreProps.MetricsFacts | The-TikTok-Bot-for-Digi4U/server/storage.ts:349-372 | the sent count is bounded by the log, daily current equals it, active creators come from the stats, revenue is 50 per active creator, and the daily target is `dailyLimit \|\| 500` |
| StoreProps.UptimePartsBounds | The-TikTok-Bot-for-Digi4U/server/storage.ts:380-382 | the hours and minutes of the uptime are the whole hours and whole remaining minutes of the elapsed time |
| StoreProps.UptimeExamples | The-TikTok-Bot-for-Digi4U/server/storage.ts:378-384 | the uptime reads "2h 5m" after 2 h 5 min 59 s and "0m" under a minute |
| StoreProps.StatusFacts | The-TikTok-Bot-for-Digi4U/server/storage.ts:374-396 | the status reports the current session; without one it is idle with uptime "0m", with one it carries that session's status |
| StoreProps.UpdateBotConfigMerges | The-TikTok-Bot-for-Digi4U/server/storage.ts:337-346 | each of the eight updatable fields (follower bounds, daily limit, action delay, categories, sub-categories, product names, `isActive`) is the supplied value or the old one, the id is kept, `updatedAt` is now, and the stored config is the one returned |
| Storage.MemStorage.constructor | The-TikTok-Bot-for-Digi4U/server/storage.ts:67-84 | a new store is the initial state |
| Storage.MemStorage.CreateBotSession | The-TikTok-Bot-for-Digi4U/server/storage.ts:206-221 | the new state and the session are those of `StoreModel.CreateBotSession` |
| Storage.MemStorage.UpdateBotSession | The-TikTok-Bot-for-Digi4U/server/storage.ts:223-230 | the new state and the result are those of `StoreModel.UpdateBotSession` |
| Storage.MemStorage.CreateCreator | The-TikTok-Bot-for-Digi4U/server/storage.ts:245-258 | the new state and the creator are those of `StoreModel.CreateCreator` |
| Storage.MemStorage.UpdateCreator | The-TikTok-Bot-for-Digi4U/server/storage.ts:260-267 | the new state and the result are those of `StoreModel.UpdateCreator` |
| Storage.MemStorage.LogActivity | The-TikTok-Bot-for-Digi4U/server/storage.ts:305-318 | the new state and the activity are those of `StoreModel.LogActivity` |
| Storage.MemStorage.UpdateBotConfig | The-TikTok-Bot-for-Digi4U/server/storage.ts:337-346 | the new state and the config are those of `StoreModel.UpdateBotConfig` |
| Storage.MemStorage.GetCurrentSession | The-TikTok-Bot-for-Digi4U/server/storage.ts:232-236 | the loop over the session table returns the newest running or paused session |
| Storage.MemStorage.GetRecentSessions | The-TikTok-Bot-for-Digi4U/server/storage.ts:238-243 | the query returns `StoreModel.RecentSessions` of the current state |
| Storage.MemStorage.GetRecentActivities | The-TikTok-Bot-for-Digi4U/server/storage.ts:320-324 | the query returns `StoreModel.RecentActivities` of the current state |
| Storage.MemStorage.GetActivitiesBySession | The-TikTok-Bot-for-Digi4U/server/storage.ts:326-330 | the query returns `StoreModel.ActivitiesBySession` of the current state |
| Storage.MemStorage.GetCreatorByUsername | The-TikTok-Bot-for-Digi4U/server/storage.ts:269-271 | the scan returns the first creator with that username, or none |
| Storage.MemStorage.GetBotConfig | The-TikTok-Bot-for-Digi4U/server/storage.ts:333-335 | the stored configuration, or none |
| FollowerCount.Clean | The-TikTok-Bot-for-Digi4U/server/bot/creator-filter.ts:70 | after upper-casing and stripping, only digits, `.`, K, M and B remain, and never more characters than the input |
| FollowerCount.RemoveFirst | The-TikTok-Bot-for-Digi4U/server/bot/creator-filter.ts:75-84 | `replace` of a one-character string removes exactly one occurrence when there is one and otherwise leaves the text alone |
| FollowerCount.LeadingDigits | The-TikTok-Bot-for-Digi4U/server/bot/creator-filter.ts:86 | the longest prefix of digits |
| FollowerCount.Decimal | The-TikTok-Bot-for-Digi4U/server/bot/creator-filter.ts:86 | the value of a decimal numeral is non-negative |
| FollowerCount.NumberValue | The-TikTok-Bot-for-Digi4U/server/bot/creator-filter.ts:86 | `parseFloat(...) \|\| 0` on the cleaned text is never negative |
| FollowerCount.RoundWhole | The-TikTok-Bot-for-Digi4U/server/bot/creator-filter.ts:87 | rounding a whole number times a multiplier gives the exact product |
| FollowerCount.CleanAppend | The-TikTok-Bot-for-Digi4U/server/bot/creator-filter.ts:70 | cleaning works character by character |
| FollowerCount.CleanKeepsDigits | The-TikTok-Bot-for-Digi4U/server/bot/creator-filter.ts:70 | a digit string is already clean |
| FollowerCount.CleanIdempotent | The-TikTok-Bot-for-Digi4U/server/bot/creator-filter.ts:70 | cleaning twice is cleaning once |
| FollowerCount.CleanLower | The-TikTok-Bot-for-Digi4U/server/bot/creator-filter.ts:70 | cleaning does not see letter case |
| FollowerCount.RemoveFirstAfter | The-TikTok-Bot-for-Digi4U/server/bot/creator-filter.ts:75-84 | the first occurrence is found after a prefix that lacks the character |
| FollowerCount.LeadingDigitsStop | The-TikTok-Bot-for-Digi4U/server/bot/creator-filter.ts:86 | the digit prefix stops at the first non-digit |
| FollowerCount.ParseDecimal | The-TikTok-Bot-for-Digi4U/server/bot/creator-filter.ts:86 | `parseFloat` reads `ip.fp` as its decimal value |
| FollowerCount.ParseWhole | The-TikTok-Bot-for-Digi4U/server/bot/creator-filter.ts:86 | `parseFloat` reads a digit string as its value |
| FollowerCount.ParsePlainCount | The-TikTok-Bot-for-Digi4U/server/bot/creator-filter.ts:66-88 | a plain count such as "890" parses to itself |
| FollowerCount.NumberCharsOf | The-TikTok-Bot-for-Digi4U/server/bot/creator-filter.ts:70 | a decimal numeral only holds characters cleaning keeps |
| FollowerCount.UpperSuffix | The-TikTok-Bot-for-Digi4U/server/bot/creator-filter.ts:70 | a suffix letter of either case survives cleaning as K, M or B with the same multiplier |
| FollowerCount.SuffixStage | The-TikTok-Bot-for-Digi4U/server/bot/creator-filter.ts:75-87 | a numeral followed by a suffix is split into the numeral and that suffix's multiplier |
| FollowerCount.ParseSuffixedCount | The-TikTok-Bot-for-Digi4U/server/bot/creator-filter.ts:75-87 | n followed by K, M or B (any case) parses to n times 1000, 10^6 or 10^9 |
| FollowerCount.ParseFractionalCount | The-TikTok-Bot-for-Digi4U/server/bot/creator-filter.ts:75-87 | `ip.fp` with a suffix parses to the rounded product of the decimal and the multiplier |
| FollowerCount.CleanKeepsNumber | The-TikTok-Bot-for-Digi4U/server/bot/creator-filter.ts:70 | text made of number characters is left as it is |
| FollowerCount.ParseIgnoresNoise | The-TikTok-Bot-for-Digi4U/server/bot/creator-filter.ts:66-88 | parsing the text and parsing its cleaned form agree |
| FollowerCount.ParseIgnoresCase | The-TikTok-Bot-for-Digi4U/server/bot/creator-filter.ts:66-88 | parsing does not depend on letter case |
| FollowerCount.KBeatsM | The-TikTok-Bot-for-Digi4U/server/bot/creator-filter.ts:75-87 | "1M5K" counts as thousands: K takes precedence over M |
| FollowerCount.MBeatsB | The-TikTok-Bot-for-Digi4U/server/bot/creator-filter.ts:75-87 | "2B3M" counts as millions: M takes precedence over B |
| FollowerCount.NoDigitsIsZero | The-TikTok-Bot-for-Digi4U/server/bot/creator-filter.ts:66-88 | missing or unparseable text counts as 0 |
| FollowerCount.MillionsExample | The-TikTok-Bot-for-Digi4U/server/bot/creator-filter.ts:75-87 | "1.2M" is 1200000 |
| FollowerCount.ThousandsExample | The-TikTok-Bot-for-Digi4U/server/bot/creator-filter.ts:75-87 | "15.5k" is 15500 |
| CreatorFilter.EligibleIffCooledDown | The-TikTok-Bot-for-Digi4U/server/bot/creator-filter.ts:90-113 | a creator is ineligible exactly when accepted, invited within 24 h, or rejected within 7 days |
| CreatorFilter.EligibleStaysEligible | The-TikTok-Bot-for-Digi4U/server/bot/creator-filter.ts:90-113 | an eligible creator stays eligible as time passes |
| CreatorFilter.BoundaryDisagreesWithStore | The-TikTok-Bot-for-Digi4U/server/bot/creator-filter.ts:96-102 | a creator invited exactly 24 h ago is eligible here but not a candidate for the store's invitation query |
| CreatorFilter.StoreIgnoresRejectionCooldown | The-TikTok-Bot-for-Digi4U/server/bot/creator-filter.ts:104-110 | a creator rejected two days ago is ineligible here yet a candidate for the store's invitation query |
| CreatorFilter.FilterCreators | The-TikTok-Bot-for-Digi4U/server/bot/creator-filter.ts:5-64 | the loop leaves the store and the returned list as the left fold of the per-creator step over the input |
| CreatorFilter.IngestReturnsScreenedEligible | The-TikTok-Bot-for-Digi4U/server/bot/creator-filter.ts:5-64 | every returned creator is eligible and comes from an input creator inside the follower range and matching the categories |
| CreatorFilter.IngestOneEmits | The-TikTok-Bot-for-Digi4U/server/bot/creator-filter.ts:8-55 | one profile yields a creator exactly when it passes both screens and its record is eligible, and then yields that record: the stored one as it was before the refresh, or the new pending one, which is always eligible; a profile that fails a screen leaves the store alone |
| CreatorFilter.IngestOneStores | The-TikTok-Bot-for-Digi4U/server/bot/creator-filter.ts:33-49 | after a passing profile the record found under its username carries the parsed follower count and the profile's category; a new one is pending and never invited, a known one keeps its id, `lastInvited` and `inviteStatus` |
| CreatorFilter.IngestEmitsInOrder | The-TikTok-Bot-for-Digi4U/server/bot/creator-filter.ts:5-64 | the result lists, in input order (strictly increasing positions), the record each emitting profile yielded, judged in the store the earlier profiles left |
| CreatorFilter.EmittedAtExact | The-TikTok-Bot-for-Digi4U/server/bot/creator-filter.ts:5-64 | a profile's position is among the returned ones exactly when it passes both screens and its record is eligible: every such profile is returned and no other |
| CreatorFilter.CreateNewUpserts | The-TikTok-Bot-for-Digi4U/server/bot/creator-filter.ts:35-42 | an unseen username is stored as one new creator, which is then the record found under that username; usernames stay unique and none is lost |
| CreatorFilter.UpdateExistingUpserts | The-TikTok-Bot-for-Digi4U/server/bot/creator-filter.ts:43-48 | the record found under a known username afterwards is the old one with the supplied followers and category written over it: same id, same username, same `createdAt`, other fields kept unless supplied; usernames stay unique and none is lost |
| CreatorFilter.IngestOneUpserts | The-TikTok-Bot-for-Digi4U/server/bot/creator-filter.ts:33-49 | after one raw creator, usernames stay unique, a passing profile's username is stored, and no stored username is lost |
| CreatorFilter.IngestUpserts | The-TikTok-Bot-for-Digi4U/server/bot/creator-filter.ts:5-64 | the whole run keeps usernames unique, stores every passing profile's username, and loses no stored username |
| CreatorFilter.FirstMatchIsFirst | The-TikTok-Bot-for-Digi4U/server/bot/creator-filter.ts:115-137 | with no keyword hit the category is "General", otherwise it is the first table entry with a hit |
| CreatorFilter.CategorizeIsFirstMatchingCategory | The-TikTok-Bot-for-Digi4U/server/bot/creator-filter.ts:115-137 | the category of a profile is the first of the fixed table whose keyword occurs in the lower-cased username, bio and posts |
| CreatorFilter.Score | The-TikTok-Bot-for-Digi4U/server/bot/creator-filter.ts:159-185 | the score is never negative, and is 0 when followers are missing or 0 |
| CreatorFilter.ClosenessPeaksAtOptimum | The-TikTok-Bot-for-Digi4U/server/bot/creator-filter.ts:163-170 | the closeness term is at most 1, and is 1 exactly at min + 25 % of the band |
| CreatorFilter.ScoreAtMost | The-TikTok-Bot-for-Digi4U/server/bot/creator-filter.ts:159-185 | the score never exceeds 1.2 |
| CreatorFilter.CategoryBonus | The-TikTok-Bot-for-Digi4U/server/bot/creator-filter.ts:172-176 | a listed category never scores lower than an unlisted one, and scores 0.2 more while the score stays positive |
| CreatorFilter.RejectionNeverHelps | The-TikTok-Bot-for-Digi4U/server/bot/creator-filter.ts:178-184 | a rejected status never scores higher than any other status |
| CreatorFilter.DefaultOptimum | The-TikTok-Bot-for-Digi4U/server/bot/creator-filter.ts:159-185 | under the default band the optimum is 257500, where a Beauty creator scores 1.2 and a Gaming creator 1.0 |
| CreatorFilter.GetRecommendedCreators | The-TikTok-Bot-for-Digi4U/server/bot/creator-filter.ts:139-157 | the method, with its in-place sort, returns the recommendation function of the current store |
| CreatorFilter.RecommendedOk | The-TikTok-Bot-for-Digi4U/server/bot/creator-filter.ts:139-157 | with a config: exactly min(limit, |candidates|) creators from the 2·limit candidates, sorted by score non-increasing, each a candidate, none outscored by a candidate left out |
| CreatorFilter.RecommendedFailsWithoutConfig | The-TikTok-Bot-for-Digi4U/server/bot/creator-filter.ts:140-143 | the call fails exactly when no config is stored, with "Bot configuration not found" |
| MetadataManager.Stamped | The-TikTok-Bot-for-Digi4U/server/bot/metadata-manager.ts:28-48 | a spread merge with a time stamp: updates override, base keys are kept, and the stamp key is now |
| MetadataManager.UpdateSessionMetadataMerges | The-TikTok-Bot-for-Digi4U/server/bot/metadata-manager.ts:28-37 | updates override, existing-only keys are kept, missing metadata is empty, and `timestamp` is now |
| MetadataManager.UpdateCreatorMetadataMerges | The-TikTok-Bot-for-Digi4U/server/bot/metadata-manager.ts:39-48 | updates override, existing-only keys are kept, missing metadata is empty, and `lastInteraction` is now |
| MetadataManager.UpdateSessionMetadataIdempotent | The-TikTok-Bot-for-Digi4U/server/bot/metadata-manager.ts:28-37 | applying the same update twice at the same time is applying it once |
| MetadataManager.AddInteractionAppends | The-TikTok-Bot-for-Digi4U/server/bot/metadata-manager.ts:50-68 | the history is the old history plus exactly one entry `{type, timestamp: now, sessionId}` at the end |
| MetadataManager.AddInteractionsExtendHistory | The-TikTok-Bot-for-Digi4U/server/bot/metadata-manager.ts:50-68 | repeated interactions extend the history by one entry each, in order, keeping the old prefix |
| MetadataManager.AddInteractionsAppendEntries | The-TikTok-Bot-for-Digi4U/server/bot/metadata-manager.ts:50-68 | after repeated interactions the history is the old history followed by one entry per kind, in call order |
| MetadataManager.CreatorMetadataInviteTime | The-TikTok-Bot-for-Digi4U/server/bot/metadata-manager.ts:11-16 | `inviteTime` defaults to now, a supplied one wins, and every supplied key is kept |
| MetadataManager.ActivityMetadataTiming | The-TikTok-Bot-for-Digi4U/server/bot/metadata-manager.ts:18-26 | the other `timing` fields are kept and `timing.inviteTime` is always now |
| MetadataManager.StopMetadataContents | The-TikTok-Bot-for-Digi4U/server/bot/metadata-manager.ts:105-116 | the stop envelope holds the final stats, `sessionDuration` now − start and a timestamp, and a `stopReason` exactly when a reason is given |
| MetadataManager.PauseMetadataContents | The-TikTok-Bot-for-Digi4U/server/bot/metadata-manager.ts:90-96 | the pause envelope holds `pauseTime` now, the time since the start and a timestamp |
| MetadataManager.ErrorMetadataText | The-TikTok-Bot-for-Digi4U/server/bot/metadata-manager.ts:74-79 | the error text is the message of an Error and the string itself otherwise, stamped with now |
| ActivityLogger.Log | The-TikTok-Bot-for-Digi4U/server/bot/activity-logger.ts:5-19 | logging appends the activity to the store and never fails |
| ActivityLogger.ErrorActivityContents | The-TikTok-Bot-for-Digi4U/server/bot/activity-logger.ts:21-31 | an error activity has type `error` and description `context: message`; its metadata keeps the caller's keys, holds the stack exactly when there is one, and is stamped with now |
| ActivityLogger.PerformanceActivityContents | The-TikTok-Bot-for-Digi4U/server/bot/activity-logger.ts:33-44 | a metric activity has type `performance`, reads `metric: value` followed by the unit, and records metric, value, unit and time |
| ActivityLogger.UserActionActivityContents | The-TikTok-Bot-for-Digi4U/server/bot/activity-logger.ts:46-56 | a user action has type `user_action` and the action as description; the given user id replaces any in the metadata, none given leaves no `userId` |
| ActivityLogger.BotActionLinks | The-TikTok-Bot-for-Digi4U/server/bot/activity-logger.ts:58-69 | a stored bot action has type `bot_action`, the action as description, the session and creator ids given, and the caller's metadata keys plus a timestamp |
| ActivityLogger.KindCount | The-TikTok-Bot-for-Digi4U/server/bot/activity-logger.ts:79-85 | a count by type never exceeds the number of activities |
| ActivityLogger.ByTypeCounts | The-TikTok-Bot-for-Digi4U/server/bot/activity-logger.ts:86-91 | `byType` has exactly the types that occur, each mapped to its count |
| ActivityLogger.SumValuesBump | The-TikTok-Bot-for-Digi4U/server/bot/activity-logger.ts:86-91 | one `byType[type]++` adds one to the sum |
| ActivityLogger.ByTypeSumsToTotal | The-TikTok-Bot-for-Digi4U/server/bot/activity-logger.ts:79-91 | the values of `byType` sum to `total` |
| ActivityLogger.CountByType | The-TikTok-Bot-for-Digi4U/server/bot/activity-logger.ts:86-91 | the `forEach` loop builds the `byType` map |
| ActivityLogger.CountIn | The-TikTok-Bot-for-Digi4U/server/bot/activity-logger.ts:106-117 | a bucket count never exceeds the number of activities |
| ActivityLogger.CreateTimeline | The-TikTok-Bot-for-Digi4U/server/bot/activity-logger.ts:96-121 | the `unshift` loop builds the bucket sequence |
| ActivityLogger.TimelineSpansHours | The-TikTok-Bot-for-Digi4U/server/bot/activity-logger.ts:97-98 | min(hours, 24) buckets of width hours / count hours cover exactly `hours` hours |
| ActivityLogger.TimelineTimestamps | The-TikTok-Bot-for-Digi4U/server/bot/activity-logger.ts:102-119 | exactly `count` buckets, bucket j ending (count − 1 − j) widths before now, so the last one ends at now |
| ActivityLogger.TimelineIncreasing | The-TikTok-Bot-for-Digi4U/server/bot/activity-logger.ts:100-119 | the buckets are ordered oldest first |
| ActivityLogger.CountInKindAtMost | The-TikTok-Bot-for-Digi4U/server/bot/activity-logger.ts:106-117 | a bucket's count by type is at most its total count |
| ActivityLogger.BucketsBounded | The-TikTok-Bot-for-Digi4U/server/bot/activity-logger.ts:106-117 | in every bucket, invites ≤ count and errors ≤ count |
| ActivityLogger.CountInSplit | The-TikTok-Bot-for-Digi4U/server/bot/activity-logger.ts:106-117 | half-open windows split without overlap or gap |
| ActivityLogger.TimelineTiles | The-TikTok-Bot-for-Digi4U/server/bot/activity-logger.ts:96-121 | the bucket counts, invites and errors add up to those of the whole window [now − count·width, now) |
| ActivityLogger.CountInEmpty | The-TikTok-Bot-for-Digi4U/server/bot/activity-logger.ts:106-117 | an empty window counts nothing |
| ActivityLogger.GetActivitySummary | The-TikTok-Bot-for-Digi4U/server/bot/activity-logger.ts:71-94 | the method returns the summary of the current store |
| ActivityLogger.RecentSinceStored | The-TikTok-Bot-for-Digi4U/server/bot/activity-logger.ts:72-78 | the summarised activities are exactly those among the newest 1000 with `createdAt ≥ now − hours` |
| ActivityLogger.SummaryCounts | The-TikTok-Bot-for-Digi4U/server/bot/activity-logger.ts:79-91 | total is their number, errors/invitesSent/invitesAccepted are counts by type, and `byType` sums to total |
| ActivityLogger.SummaryTimeline | The-TikTok-Bot-for-Digi4U/server/bot/activity-logger.ts:92-93 | the summary's timeline has min(hours, 24) buckets covering the whole window |
| ActivityLogger.TimelineWindow | The-TikTok-Bot-for-Digi4U/server/bot/activity-logger.ts:102-119 | the first bucket ends one width after now − count·width, the last ends at now, and together they count the whole window |
| ActivityLogger.KindsDisjoint | The-TikTok-Bot-for-Digi4U/server/bot/activity-logger.ts:79-85 | errors + invites sent + invites accepted never exceed total |
| Lifecycle.StepKeepsConsistent | The-TikTok-Bot-for-Digi4U/server/bot/session-manager.ts:21-137 | every lifecycle operation keeps "running implies a session" |
| Lifecycle.RunKeepsConsistent | The-TikTok-Bot-for-Digi4U/server/bot/session-manager.ts:21-137 | from a fresh manager, any sequence of operations keeps "running implies a session" |
| Lifecycle.StartGuard | The-TikTok-Bot-for-Digi4U/server/bot/session-manager.ts:21-44 | start throws and changes nothing while running or without config; otherwise there is a session and no stop request; it succeeds exactly when not running, configured, and the browser step works |
| Lifecycle.PauseThenResumeRefused | The-TikTok-Bot-for-Digi4U/server/bot/session-manager.ts:74-94 | after a successful pause the manager still runs with a stop request, the loop halts, and resume is refused |
| Lifecycle.FailedStartCanResume | The-TikTok-Bot-for-Digi4U/server/bot/session-manager.ts:62-71 | a start whose browser step throws leaves a session set and not running, and a resume then succeeds |
| Lifecycle.StopIdempotent | The-TikTok-Bot-for-Digi4U/server/bot/session-manager.ts:117-137 | stop always succeeds with `shouldStop`, not running and no session, and a second stop changes nothing |
| Lifecycle.LoopRunsOnlyAfterStartOrResume | The-TikTok-Bot-for-Digi4U/server/bot/session-manager.ts:140 | the loop condition holds only right after a start or a resume |
| Clock.Clock.constructor | The-TikTok-Bot-for-Digi4U/server/bot/session-manager.ts:252-256 | a clock starts at the given time |
| Clock.Clock.SleepBetween | The-TikTok-Bot-for-Digi4U/server/bot/enhanced-session-manager.ts:26-30 | a random wait lasts some amount within [lo, hi) and advances the clock by it |
| Clock.Clock.Sleep | The-TikTok-Bot-for-Digi4U/server/bot/session-manager.ts:252-256 | a fixed wait advances the clock by exactly that amount |
| Driver.BrowserDriver.constructor | The-TikTok-Bot-for-Digi4U/server/bot/puppeteer-manager.ts:370-403 | a new driver is neither initialised nor logged in |
| Driver.BrowserDriver.Initialize | The-TikTok-Bot-for-Digi4U/server/bot/puppeteer-manager.ts:19-122 | the launch fails with the given error or succeeds and marks the driver initialised |
| Driver.BrowserDriver.Login | The-TikTok-Bot-for-Digi4U/server/bot/puppeteer-manager.ts:124-171 | login without a browser throws "Browser not initialized"; otherwise its outcome is the given one and a true result logs in |
| Driver.BrowserDriver.SendInvite | The-TikTok-Bot-for-Digi4U/server/bot/puppeteer-manager.ts:354-368 | a driver that checks login throws unless initialised and logged in; otherwise the send returns the given boolean |
| Driver.BrowserDriver.Close | The-TikTok-Bot-for-Digi4U/server/bot/puppeteer-manager.ts:370-403 | closing clears both flags |
| Driver.BrowserDriver.GetStatus | The-TikTok-Bot-for-Digi4U/server/bot/puppeteer-manager.ts:370-403 | the status reports the two flags |
| SessionManager.Successes | The-TikTok-Bot-for-Digi4U/server/bot/session-manager.ts:178-208 | the sent invitations of a batch are at most its length |
| SessionManager.CreatorStepEffect | The-TikTok-Bot-for-Digi4U/server/bot/session-manager.ts:176-232 | a sent invitation marks the creator sent and adds 1 to `invitesSent` and `successfulInvites`; a false result or a throw adds 1 to `errorCount` only |
| SessionManager.LogKeepsSync | The-TikTok-Bot-for-Digi4U/server/storage.ts:305-318 | logging stores one new activity under the next id and leaves sessions and creators, and so the counter sync, as they were |
| SessionManager.BatchCounters | The-TikTok-Bot-for-Digi4U/server/bot/session-manager.ts:173-233 | over a batch, the invitation counters grow by the sends and `errorCount` by the failures, so no counter decreases |
| SessionManager.BatchSnoc | The-TikTok-Bot-for-Digi4U/server/bot/session-manager.ts:173-233 | a batch with one more creator is the batch followed by that creator's step |
| SessionManager.TraceSnoc | The-TikTok-Bot-for-Digi4U/server/bot/session-manager.ts:173-178 | the trace of the per-creator loop extends by one creator, in input order, with the outcome and time of its send |
| SessionManager.SessionManager.constructor | The-TikTok-Bot-for-Digi4U/server/bot/session-manager.ts:15-19 | a new manager is fresh: not running, no stop request, no session |
| SessionManager.SessionManager.StartSession | The-TikTok-Bot-for-Digi4U/server/bot/session-manager.ts:21-72 | the flags follow `Lifecycle.Start`; a refused start changes nothing; otherwise a running session is created and logged, and a failing browser step marks it stopped and re-throws |
| SessionManager.SessionManager.PauseSession | The-TikTok-Bot-for-Digi4U/server/bot/session-manager.ts:74-89 | the flags follow `Lifecycle.Pause`; on success the session becomes paused and a `session_pause` is logged; a refusal changes nothing |
| SessionManager.SessionManager.ResumeSession | The-TikTok-Bot-for-Digi4U/server/bot/session-manager.ts:91-115 | the flags follow `Lifecycle.Resume`; on success the session becomes running and a `session_resume` is logged; a refusal changes nothing |
| SessionManager.SessionManager.StopSession | The-TikTok-Bot-for-Digi4U/server/bot/session-manager.ts:117-137 | the flags follow `Lifecycle.Stop` and the driver is closed; with a session it is marked stopped and a `session_stop` is logged, without one the store is unchanged |
| SessionManager.SessionManager.GetStatus | The-TikTok-Bot-for-Digi4U/server/bot/session-manager.ts:266-273 | the status reports the fields as they are and changes nothing |
| SessionManager.SessionManager.Delay | The-TikTok-Bot-for-Digi4U/server/bot/session-manager.ts:252-256 | the wait is ms ± 2500 with a floor of 1000 |
| SessionManager.SessionManager.ProcessCreator | The-TikTok-Bot-for-Digi4U/server/bot/session-manager.ts:176-232 | one creator: the send outcome comes from the driver's state and the given result, and the store and session become that outcome's step |
| SessionManager.SessionManager.ProcessBatch | The-TikTok-Bot-for-Digi4U/server/bot/session-manager.ts:173-233 | the for loop checks the stop flag before each creator, handles all of them when no stop is requested, and leaves the store and session as the batch fold over the trace |
| SessionManager.SessionManager.LoopIteration | The-TikTok-Bot-for-Digi4U/server/bot/session-manager.ts:141-237 | it exits exactly when today's invites reach `dailyLimit`, stopping with "Daily limit reached"; an empty batch only logs; otherwise every fetched creator is processed in order, each with the outcome the driver state and the page give it, and the counters grow |
| SessionManager.SessionManager.RunInvitationLoop | The-TikTok-Bot-for-Digi4U/server/bot/session-manager.ts:139-250 | the loop stops early only when its condition fails, and while the session lasts its counters never decrease |
| EnhancedSessionManager.BatchSnoc | The-TikTok-Bot-for-Digi4U/server/bot/enhanced-session-manager.ts:216-241 | a batch with one more creator is the batch followed by that creator's step |
| EnhancedSessionManager.ThrowCount | The-TikTok-Bot-for-Digi4U/server/bot/enhanced-session-manager.ts:292-309 | the creators that threw are at most the batch |
| EnhancedSessionManager.SentStepEffect | The-TikTok-Bot-for-Digi4U/server/bot/enhanced-session-manager.ts:243-290 | a sent invitation marks the creator sent with `lastInvited` and fresh metadata, adds 1 to both invitation counters, logs one `invite_sent`, and leaves other creators alone |
| EnhancedSessionManager.ErrorStepEffect | The-TikTok-Bot-for-Digi4U/server/bot/enhanced-session-manager.ts:292-309 | a throw logs one `error` activity and adds 1 to `errorCount` only |
| EnhancedSessionManager.CreatorStepEffect | The-TikTok-Bot-for-Digi4U/server/bot/enhanced-session-manager.ts:243-309 | a sent invitation counts as a success, a false result changes nothing at all, a throw counts as one error |
| EnhancedSessionManager.BatchCounters | The-TikTok-Bot-for-Digi4U/server/bot/enhanced-session-manager.ts:216-241 | over a batch, the invitation counters grow by the sends and `errorCount` by the throws, so no counter decreases |
| EnhancedSessionManager.EnhancedSessionManager.constructor | The-TikTok-Bot-for-Digi4U/server/bot/enhanced-session-manager.ts:17-21 | a new manager is fresh with `lastActionTime` 0 |
| EnhancedSessionManager.EnhancedSessionManager.EnforceHumanLikeDelay | The-TikTok-Bot-for-Digi4U/server/bot/enhanced-session-manager.ts:23-33 | it waits within [min, max) only when less than `min` has passed since the last action, and always sets `lastActionTime` to now, which never goes down |
| EnhancedSessionManager.EnhancedSessionManager.OpenBrowser | The-TikTok-Bot-for-Digi4U/server/bot/enhanced-session-manager.ts:70-75 | the browser step fails with the launch error, or "Login failed" when login returns false, or the login's own error |
| EnhancedSessionManager.EnhancedSessionManager.StartSession | The-TikTok-Bot-for-Digi4U/server/bot/enhanced-session-manager.ts:35-95 | the flags follow `Lifecycle.Start`; a refused start changes nothing; otherwise a session is created in `initializing`, made running after login or marked `error` with an end time on failure |
| EnhancedSessionManager.EnhancedSessionManager.OpenSession | The-TikTok-Bot-for-Digi4U/server/bot/enhanced-session-manager.ts:46-68 | the session is created from the start insert and its start is logged under the next activity id, with the stored counters in step |
| EnhancedSessionManager.EnhancedSessionManager.PauseSession | The-TikTok-Bot-for-Digi4U/server/bot/enhanced-session-manager.ts:97-116 | the flags follow `Lifecycle.Pause`; on success the session is paused with pause metadata and logged; a refusal changes nothing |
| EnhancedSessionManager.EnhancedSessionManager.ResumeSession | The-TikTok-Bot-for-Digi4U/server/bot/enhanced-session-manager.ts:118-147 | the flags follow `Lifecycle.Resume`; on success the session runs again, is logged and `lastActionTime` is now; a refusal changes nothing |
| EnhancedSessionManager.EnhancedSessionManager.StopSession | The-TikTok-Bot-for-Digi4U/server/bot/enhanced-session-manager.ts:149-184 | the flags follow `Lifecycle.Stop`; with a session the stats are taken before it is marked stopped; without one the store is unchanged |
| EnhancedSessionManager.EnhancedSessionManager.GetStatus | The-TikTok-Bot-for-Digi4U/server/bot/enhanced-session-manager.ts:194-203 | the status reports the fields and the time since the last action and changes nothing |
| EnhancedSessionManager.EnhancedSessionManager.Record | The-TikTok-Bot-for-Digi4U/server/bot/enhanced-session-manager.ts:253-309 | the store and session become the step for the given outcome, leaving the flags alone |
| EnhancedSessionManager.EnhancedSessionManager.ProcessCreator | The-TikTok-Bot-for-Digi4U/server/bot/enhanced-session-manager.ts:243-251 | one creator after the human-like delay: the outcome comes from the driver, and the store and session become that outcome's step |
| EnhancedSessionManager.EnhancedSessionManager.ProcessBatch | The-TikTok-Bot-for-Digi4U/server/bot/enhanced-session-manager.ts:216-241 | the stop flag is checked before each creator, all are handled when no stop is requested, and the store and session become the batch fold over the trace |
| EnhancedSessionManager.EnhancedSessionManager.LoopIteration | The-TikTok-Bot-for-Digi4U/server/bot/enhanced-session-manager.ts:205-241 | the flags stay, counters and `lastActionTime` never decrease; without a config it logs one error activity and changes no creator |
| EnhancedSessionManager.EnhancedSessionManager.RunInvitationLoop | The-TikTok-Bot-for-Digi4U/server/bot/enhanced-session-manager.ts:205-214 | the loop stops early only when its condition fails, the counters never decrease and neither does `lastActionTime` |
| Routes.TrimStart | The-TikTok-Bot-for-Digi4U/server/routes.ts:194-195 | `parseInt` skips the leading white space and nothing else |
| Routes.DigitPrefix | The-TikTok-Bot-for-Digi4U/server/routes.ts:194-195 | `parseInt` reads the longest run of decimal digits |
| Routes.HexPrefix | The-TikTok-Bot-for-Digi4U/server/routes.ts:194-195 | after `0x`, `parseInt` reads the longest run of hexadecimal digits |
| Routes.UnsignedReadsDecimal | The-TikTok-Bot-for-Digi4U/server/routes.ts:194-195 | an unsigned decimal numeral followed by a non-digit reads as its value |
| Routes.ParseIntUnsigned | The-TikTok-Bot-for-Digi4U/server/routes.ts:194-195 | text without leading space or sign is read unsigned |
| Routes.ParseIntMinus | The-TikTok-Bot-for-Digi4U/server/routes.ts:194-195 | a leading minus negates what follows, NaN staying NaN |
| Routes.ParseIntReadsDecimal | The-TikTok-Bot-for-Digi4U/server/routes.ts:194-195 | `parseInt("n…")` is n |
| Routes.ParseIntReadsNegative | The-TikTok-Bot-for-Digi4U/server/routes.ts:194-195 | `parseInt("-n…")` is −n |
| Routes.ParseIntNaN | The-TikTok-Bot-for-Digi4U/server/routes.ts:194-195 | an absent parameter, an empty one, or one starting with a letter is NaN |
| Routes.ParseIntNoDigit | The-TikTok-Bot-for-Digi4U/server/routes.ts:194-195 | text starting with neither space, sign nor digit is NaN |
| Routes.ActivitiesLimit | The-TikTok-Bot-for-Digi4U/server/routes.ts:194-195 | as written: NaN or 0 gives 50, any other number n gives min(n, 200) |
| Routes.NegativeLimitBreaksCap | The-TikTok-Bot-for-Digi4U/server/routes.ts:194-195 | `limit=-3` passes through, and with over 203 activities the answer holds more than 200 of them |
| Routes.CappedActivitiesLimit | The-TikTok-Bot-for-Digi4U/server/routes.ts:194-195 | the corrected limit lies in 1..200: positive n gives min(n, 200), anything else 50 |
| Routes.CappedAgreesWhenNotNegative | The-TikTok-Bot-for-Digi4U/server/routes.ts:194-195 | the corrected limit agrees with the code as written unless the parameter is negative |
| Routes.ActivitiesLimitCapExample | The-TikTok-Bot-for-Digi4U/server/routes.ts:194-195 | `limit=500` is capped to 200 |
| Routes.ActivitiesLimitDefaultExample | The-TikTok-Bot-for-Digi4U/server/routes.ts:194-195 | no `limit` means 50 |
| Routes.GetActivities | The-TikTok-Bot-for-Digi4U/server/routes.ts:192-204 | the route answers the newest activities under the corrected limit, never more than 200 |
| Routes.SummaryHours | The-TikTok-Bot-for-Digi4U/server/routes.ts:208-209 | `hours` is the parsed number, or 24 when it is NaN or 0 |
| Routes.CreatorsLimit | The-TikTok-Bot-for-Digi4U/server/routes.ts:222 | the creators `limit` is the parsed number, or 20 when it is NaN or 0 |
| Routes.GetCreators | The-TikTok-Bot-for-Digi4U/server/routes.ts:220-231 | the route answers invitation candidates from the store under that limit, never more than a positive limit and never more than 20 without one |
| Routes.GetSummary | The-TikTok-Bot-for-Digi4U/server/routes.ts:206-218 | the route answers the summary for those hours |
| Routes.Issues | The-TikTok-Bot-for-Digi4U/server/routes.ts:146-157 | at most one issue per schema field |
| Routes.IssuesExact | The-TikTok-Bot-for-Digi4U/server/routes.ts:146-157 | a key is reported exactly when it is a schema field that is present and breaks its rule |
| Routes.NoIssuesMeansAllSatisfied | The-TikTok-Bot-for-Digi4U/server/routes.ts:146-157 | no issues exactly when every supplied schema field satisfies its rule |
| Routes.ValidateConfigAccepts | The-TikTok-Bot-for-Digi4U/server/routes.ts:146-178 | an update is accepted exactly when the body is an object, every supplied field is in range, and not both bounds are non-zero with max ≤ min |
| Routes.ValidatedUpdate | The-TikTok-Bot-for-Digi4U/server/routes.ts:146-168 | an accepted update carries exactly the supplied schema fields |
| Routes.ZeroSkipsComparison | The-TikTok-Bot-for-Digi4U/server/routes.ts:159-166 | {min 10, max 0} is accepted since 0 skips the comparison, while {min 10, max 5} is rejected |
| Routes.ZeroDailyLimitRejected | The-TikTok-Bot-for-Digi4U/server/routes.ts:146-157 | `dailyLimit` 0 is reported as out of range |
| Routes.UpdateConfig | The-TikTok-Bot-for-Digi4U/server/routes.ts:144-190 | a rejected body leaves the store unchanged; an accepted one is merged into the config and logged as a user action |
| Routes.AsError | The-TikTok-Bot-for-Digi4U/server/routes.ts:59-62 | a non-Error thrown value is wrapped into an Error with its text as message |
| Routes.StartRoute | The-TikTok-Bot-for-Digi4U/server/routes.ts:45-68 | while running the route refuses before calling `startSession` and changes nothing; otherwise the flags follow `Lifecycle.Start` and the start or its failure is logged |
| Routes.ReportStart | The-TikTok-Bot-for-Digi4U/server/routes.ts:51-66 | a start that returned a session answers with it and logs a user action; one that threw answers with the error and logs it with its stack |

## Left out

- Browser automation: the Puppeteer internals of `puppeteer-manager.ts`,
  `enhanced-puppeteer-manager.ts` and `human-behavior.ts`. They are reduced to
  `Driver.BrowserDriver`, which has the two flags. Launch, login and send outcomes are
  parameters.
- Every activity the two drivers log into the store themselves. The model's driver does
  not reach into the store. Among them are 'Browser initialized successfully' or
  `system_error` on launch (`puppeteer-manager.ts:106-119`), `login_success` (:153), an
  extra `invite_sent` on every successful `sendInvite` (:357-361) and 'Browser closed' on
  every `close()` (:384-388); `enhanced-puppeteer-manager.ts` logs the same kinds
  (:56, :133, :144, :267, :294). The consequences for the managers follow.
- `SessionManager.SessionManager.StopSession`: "without a session the store is unchanged"
  ignores the 'Browser closed' activity that `close()` logs in the source, and with a
  session that activity is missing from the log as well.
- `SessionManager.SessionManager.StartSession`: the log lacks the driver's launch and
  login activities.
- `SessionManager.SessionManager.LoopIteration`: the daily-limit check counts only the
  manager's own `invite_sent` rows. In the source each successful send writes two (the
  manager's and the driver's), so the source stops after about half of `dailyLimit`
  sends, and the model after `dailyLimit` of them.
- `EnhancedSessionManager.EnhancedSessionManager.StopSession`: "without one the store is
  unchanged" likewise ignores the driver's 'Browser closed' activity.
- `EnhancedSessionManager.EnhancedSessionManager.StartSession`: the log lacks the
  driver's launch and login activities.
- Timers, `Math.random` and concurrency.
  - A wait advances `Clock.Clock` by an amount somewhere within its bounds.
  - The fire-and-forget loop is `RunInvitationLoop`; its run count is a parameter.
  - Operations do not interleave with a running loop, so `shouldStop` is plain state.
- Console output and `NODE_ENV` logging: they have no observable effect.
- IEEE 754 doubles are modelled over exact rationals.
  - `parseFloat` is the exact decimal value.
  - `Math.round` rounds exactly.
  - JSON numbers are integers.
- `parseInt` is exact for every integer, so inputs beyond 2^53 lose no precision.
- The server's local time zone: "today" begins at midnight UTC.
- `ActivityLogger.GetActivitySummary`: times are unbounded integers, while a JavaScript
  `Date` holds only ±8.64e15 ms. For `hours` of roughly 2.4e9 and more, `since`
  (`activity-logger.ts:72`) is an Invalid Date and the source counts nothing; for larger
  `hours` such as 3000000000 the bucket ends leave the range, `toISOString()`
  (:104, :113) throws RangeError and the route answers 500. The model returns a full
  summary in both cases.
- `Routes.GetSummary`: for the same `hours` the source answers 500 or an empty count;
  the model answers the full summary.
- `Text.Lower`: folds only 'A'..'Z'. JavaScript `toLowerCase` folds all of Unicode (É to
  é; İ even becomes two characters, so the length can change). The category screen
  (`CreatorFilter.Passes`, hence `CreatorFilter.IngestOneEmits`,
  `CreatorFilter.IngestEmitsInOrder`, `CreatorFilter.FilterCreators`) and the keyword
  categorisation (`CreatorFilter.CategorizeIsFirstMatchingCategory`) can therefore
  differ from the source on text outside ASCII.
- The seeded sample creators and activities of `storage.ts`, and the default user. They
  are data, not behaviour.
- The user operations of `storage.ts`. They are not part of the bot core.
- Routes beyond the validator, the query parameters and the start guard:
  - the HTTP status codes and JSON envelopes;
  - the remaining Express handlers;
  - query parameters given more than once, which arrive as arrays.
- The error stack is passed in as a parameter, since it comes from the JavaScript runtime.
- The outer `catch` of both invitation loops. Every store operation in this model
  succeeds, so that branch cannot run.
  - For the enhanced loop this means `handleLoopError` only runs for the
    missing-configuration error of `getRecommendedCreators`.
  - The store's `log` failure that `ActivityLogger.log` swallows cannot occur either.
- `createInitialSessionMetadata` is built and passed to `createBotSession`, but the
  store's `createBotSession` drops the field, as it does in the source.
- `EnhancedSessionManager.EnhancedSessionManager.LoopIteration`: when a config is
  stored, the contract states only that the flags stay and that counters and
  `lastActionTime` never decrease. It does not state the batch's exact effect.
  That effect is stated per batch by `ProcessBatch` and `BatchCounters`.
- `EnhancedSessionManager.SentStepEffect`: the `invite_sent` activity it logs (built by
  `EnhancedSessionManager.SuccessActivity`) carries `timing.timeSinceLastAction` 0. In the
  source it is the time `sendInvite` and the two store updates took after the pacing
  delay reset `lastActionTime`; the model lets no time pass inside `sendInvite`.
- `FollowerCount.ParseFractionalCount`: rounding is exact rational rounding, not
  `Math.round` on a double.

## Findings

| source | as written | input that shows it | evidently intended | confidence | as-written member | corrected member |
|---|---|---|---|---|---|---|
| The-TikTok-Bot-for-Digi4U/server/routes.ts:194-195 | `Math.min(parseInt(limit) \|\| 50, 200)` caps only from above. A negative `limit` survives, and `getRecentActivities` slices with it, dropping that many activities from the end. | `GET /api/activities?limit=-3` with more than 203 activities stored answers with more than 200 activities | the answer holds at most 200 activities | not executed | Routes.ActivitiesLimit, Routes.NegativeLimitBreaksCap | Routes.CappedActivitiesLimit (used by Routes.GetActivities) |
