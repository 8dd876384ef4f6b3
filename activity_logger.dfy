/** `ActivityLogger` of server/bot/activity-logger.ts: builds the activity rows the bot
    writes, and summarises the recent ones by type and by hour. */
module ActivityLogger {
  import opened Wrappers
  import opened Schema
  import opened Json
  import opened StoreModel
  import Storage
  import Seqs
  import Text
  import Sorting

  // ---------------------------------------------------------------- writing

  /** `log(activity)`: the row goes to the store. The in-memory store never throws, so the
      `catch` that swallows a failure has nothing to catch here. */
  method Log(store: Storage.MemStorage, ins: InsertActivity, now: int)
    requires store.Valid()
    modifies store
    ensures store.Valid()
    ensures store.State() == StoreModel.LogActivity(old(store.State()), ins, now).0
  {
    var _ := store.LogActivity(ins, now);
  }

  /** `{ ...metadata }`: undefined spreads nothing. */
  function Spread(metadata: Option<Object>): Object {
    metadata.GetOr(map[])
  }

  /** Setting `key` to a value that may be `undefined`: an undefined value leaves no key,
      which is how the object reaches the store's JSON column. */
  function SetMaybe(o: Object, key: string, v: Option<Value>): Object {
    if v.Some? then o[key := v.value] else o - {key}
  }

  /** `error.message` of the value caught as `Error`; a thrown non-`Error` has none. */
  function MessageText(error: Thrown): string {
    match error
    case ErrorValue(_, m) => m
    case OtherValue(_) => "undefined"
  }

  /** `logError(error, context, metadata)`; `stack` is `error.stack`. */
  function ErrorActivity(error: Thrown, stack: Option<string>, context: string, metadata: Option<Object>, now: int): InsertActivity {
    var m := SetMaybe(Spread(metadata), "stack", if stack.Some? then Some(JStr(stack.value)) else None);
    InsertActivity(ACTIVITY_ERROR, context + ": " + MessageText(error), Some(m["timestamp" := JDate(now)]), None, None)
  }

  /** `logPerformanceMetric(metric, value, unit)` for a whole-number value. */
  function PerformanceActivity(metric: string, value: int, unit: string, now: int): InsertActivity {
    InsertActivity("performance", metric + ": " + Text.IntToString(value) + unit,
      Some(map["metric" := JStr(metric), "value" := JNum(value), "unit" := JStr(unit), "timestamp" := JDate(now)]),
      None, None)
  }

  /** The unit `logPerformanceMetric` uses when none is given. */
  const DEFAULT_UNIT: string := "ms"

  /** `logUserAction(action, userId, metadata)` */
  function UserActionActivity(action: string, userId: Option<int>, metadata: Option<Object>, now: int): InsertActivity {
    var m := SetMaybe(Spread(metadata), "userId", if userId.Some? then Some(JNum(userId.value)) else None);
    InsertActivity(ACTIVITY_USER_ACTION, action, Some(m["timestamp" := JDate(now)]), None, None)
  }

  /** `logBotAction(action, sessionId, creatorId, metadata)` */
  function BotActionActivity(action: string, sessionId: Option<nat>, creatorId: Option<nat>, metadata: Option<Object>, now: int): InsertActivity {
    InsertActivity(ACTIVITY_BOT_ACTION, action, Some(Spread(metadata)["timestamp" := JDate(now)]), sessionId, creatorId)
  }

  /** An error row is typed `error`, reads `context: message`, carries the stack exactly
      when there is one, stamps the time and keeps every other key of the metadata. */
  lemma ErrorActivityContents(error: Thrown, stack: Option<string>, context: string, metadata: Option<Object>, now: int)
    ensures var r := ErrorActivity(error, stack, context, metadata, now);
      && r.kind == ACTIVITY_ERROR
      && r.description == context + ": " + (if error.ErrorValue? then error.message else "undefined")
      && r.metadata.Some? && r.metadata.value["timestamp"] == JDate(now)
      && ("stack" in r.metadata.value <==> stack.Some?)
      && (stack.Some? ==> r.metadata.value["stack"] == JStr(stack.value))
      && (metadata.Some? ==> forall k | k in metadata.value && k != "stack" && k != "timestamp" ::
            k in r.metadata.value && r.metadata.value[k] == metadata.value[k])
      && r.sessionId.None? && r.creatorId.None?
  {
  }

  /** A metric row reads `metric: value unit` and records the three parts. */
  lemma PerformanceActivityContents(metric: string, value: int, unit: string, now: int)
    ensures var r := PerformanceActivity(metric, value, unit, now);
      && r.kind == "performance"
      && r.description == metric + ": " + Text.IntToString(value) + unit
      && r.metadata == Some(map["metric" := JStr(metric), "value" := JNum(value), "unit" := JStr(unit), "timestamp" := JDate(now)])
  {
  }

  /** The user id given replaces any in the metadata; none given leaves no `userId`. */
  lemma UserActionActivityContents(action: string, userId: Option<int>, metadata: Option<Object>, now: int)
    ensures var r := UserActionActivity(action, userId, metadata, now);
      && r.kind == ACTIVITY_USER_ACTION && r.description == action
      && r.metadata.Some? && r.metadata.value["timestamp"] == JDate(now)
      && ("userId" in r.metadata.value <==> userId.Some?)
      && (userId.Some? ==> r.metadata.value["userId"] == JNum(userId.value))
      && (metadata.Some? ==> forall k | k in metadata.value && k != "userId" && k != "timestamp" ::
            k in r.metadata.value && r.metadata.value[k] == metadata.value[k])
  {
  }

  /** A bot action is linked to the session and creator given, once stored. */
  lemma BotActionLinks(st: StoreState, action: string, sessionId: Option<nat>, creatorId: Option<nat>, metadata: Option<Object>, now: int)
    ensures var a := StoreModel.LogActivity(st, BotActionActivity(action, sessionId, creatorId, metadata, now), now).1;
      && a.kind == ACTIVITY_BOT_ACTION && a.description == action
      && a.sessionId == NonZero(sessionId) && a.creatorId == NonZero(creatorId)
      && a.metadata.Some? && a.metadata.value.Keys == Spread(metadata).Keys + {"timestamp"}
  {
  }

  // ---------------------------------------------------------------- counting

  /** `acts.filter(a => a.type === kind).length` */
  function KindCount(acts: seq<Activity>, kind: string): (r: nat)
    ensures r <= |acts|
  {
    if acts == [] then 0
    else KindCount(acts[..|acts| - 1], kind) + (if acts[|acts| - 1].kind == kind then 1 else 0)
  }

  /** One step of `byType[a.type] = (byType[a.type] || 0) + 1`. */
  function Bump(m: map<string, nat>, kind: string): map<string, nat> {
    m[kind := (if kind in m then m[kind] else 0) + 1]
  }

  /** The `byType` table after the `forEach` over `acts`. */
  function ByType(acts: seq<Activity>): map<string, nat> {
    if acts == [] then map[] else Bump(ByType(acts[..|acts| - 1]), acts[|acts| - 1].kind)
  }

  /** `byType` has a key exactly for the kinds that occur, holding how often each occurs. */
  lemma {:induction false} ByTypeCounts(acts: seq<Activity>)
    ensures forall k :: k in ByType(acts) <==> KindCount(acts, k) > 0
    ensures forall k | k in ByType(acts) :: ByType(acts)[k] == KindCount(acts, k)
  {
    if acts != [] {
      ByTypeCounts(acts[..|acts| - 1]);
    }
  }

  /** The values of a count table added up. */
  ghost function SumValues(m: map<string, nat>): nat
    decreases |m|
  {
    if m == map[] then 0 else var k :| k in m; m[k] + SumValues(m - {k})
  }

  /** The sum does not depend on which key is taken first. */
  lemma {:induction false} SumValuesRemove(m: map<string, nat>, k: string)
    requires k in m
    ensures SumValues(m) == m[k] + SumValues(m - {k})
    decreases |m|
  {
    var j :| j in m && SumValues(m) == m[j] + SumValues(m - {j});
    if j != k {
      SumValuesRemove(m - {j}, k);
      SumValuesRemove(m - {k}, j);
      assert m - {j} - {k} == m - {k} - {j};
    }
  }

  /** One `byType[kind] += 1` adds one to the sum. */
  lemma SumValuesBump(m: map<string, nat>, kind: string)
    ensures SumValues(Bump(m, kind)) == SumValues(m) + 1
  {
    var b := Bump(m, kind);
    SumValuesRemove(b, kind);
    if kind in m {
      SumValuesRemove(m, kind);
      assert b - {kind} == m - {kind};
    } else {
      assert b - {kind} == m;
    }
  }

  /** The values of `byType` add up to the number of activities counted. */
  lemma {:induction false} ByTypeSumsToTotal(acts: seq<Activity>)
    ensures SumValues(ByType(acts)) == |acts|
  {
    if acts != [] {
      ByTypeSumsToTotal(acts[..|acts| - 1]);
      SumValuesBump(ByType(acts[..|acts| - 1]), acts[|acts| - 1].kind);
    }
  }

  /** The `forEach` loop that fills `byType`. */
  method CountByType(acts: seq<Activity>) returns (byType: map<string, nat>)
    ensures byType == ByType(acts)
  {
    byType := map[];
    for i := 0 to |acts|
      invariant byType == ByType(acts[..i])
    {
      assert acts[..i + 1][..i] == acts[..i];
      byType := Bump(byType, acts[i].kind);
    }
    assert acts[..|acts|] == acts;
  }

  // ---------------------------------------------------------------- timeline

  /** One entry of the timeline: the bucket's end, and its counts. */
  datatype Bucket = Bucket(timestamp: int, count: nat, invites: nat, errors: nat)

  /** Activities created in `[lo, hi)`, of the given kind when one is given. */
  function CountIn(acts: seq<Activity>, lo: int, hi: int, kind: Option<string>): (r: nat)
    ensures r <= |acts|
  {
    if acts == [] then 0
    else
      var a := acts[0];
      (if lo <= a.createdAt < hi && (kind.None? || a.kind == kind.value) then 1 else 0)
      + CountIn(acts[1..], lo, hi, kind)
  }

  /** `Math.min(hours, 24)` as a loop bound: at most one bucket an hour, at most 24. */
  function BucketCount(hours: int): nat {
    if hours <= 0 then 0 else Seqs.Min(hours, 24)
  }

  /** `bucketSize * 60 * 60 * 1000` in milliseconds: exactly an hour up to 24 hours, and
      `hours / 24` hours, that is `hours * 150000` ms, beyond. */
  function BucketWidth(hours: int): nat {
    if hours <= 24 then HOUR_MS else hours * 150000
  }

  /** Bucket `i` counted back from `now`: `[now - (i+1)w, now - i w)`. */
  function BucketAt(acts: seq<Activity>, now: int, w: nat, i: nat): Bucket {
    var lo, hi := now - (i + 1) * w, now - i * w;
    Bucket(hi, CountIn(acts, lo, hi, None), CountIn(acts, lo, hi, Some(ACTIVITY_INVITE_SENT)),
           CountIn(acts, lo, hi, Some(ACTIVITY_ERROR)))
  }

  /** The first `n` buckets back from `now`, oldest first, as the `unshift`s leave them. */
  function Timeline(acts: seq<Activity>, now: int, w: nat, n: nat): seq<Bucket> {
    if n == 0 then [] else [BucketAt(acts, now, w, n - 1)] + Timeline(acts, now, w, n - 1)
  }

  /** `createTimeline(activities, hours)` */
  method CreateTimeline(acts: seq<Activity>, hours: int, now: int) returns (timeline: seq<Bucket>)
    ensures timeline == Timeline(acts, now, BucketWidth(hours), BucketCount(hours))
  {
    var buckets := BucketCount(hours);
    var w := BucketWidth(hours);
    timeline := [];
    for i := 0 to buckets
      invariant timeline == Timeline(acts, now, w, i)
    {
      var lo, hi := now - (i + 1) * w, now - i * w;
      var b := Bucket(hi, CountIn(acts, lo, hi, None), CountIn(acts, lo, hi, Some(ACTIVITY_INVITE_SENT)),
                      CountIn(acts, lo, hi, Some(ACTIVITY_ERROR)));
      timeline := [b] + timeline;
    }
  }

  /** The buckets together span exactly the requested hours. */
  lemma TimelineSpansHours(hours: int)
    requires hours > 0
    ensures BucketCount(hours) * BucketWidth(hours) == hours * HOUR_MS
  {
  }

  /** Entry `j` ends `n-1-j` widths before now: the last ends at now, and the ends rise. */
  lemma {:induction false} TimelineTimestamps(acts: seq<Activity>, now: int, w: nat, n: nat)
    ensures |Timeline(acts, now, w, n)| == n
    ensures forall j :: 0 <= j < n ==> Timeline(acts, now, w, n)[j].timestamp == now - (n - 1 - j) * w
  {
    if n > 0 {
      TimelineTimestamps(acts, now, w, n - 1);
    }
  }

  /** With a positive width the timestamps strictly increase. */
  lemma TimelineIncreasing(acts: seq<Activity>, now: int, w: nat, n: nat)
    requires w > 0
    ensures forall j, k :: 0 <= j < k < |Timeline(acts, now, w, n)| ==>
      Timeline(acts, now, w, n)[j].timestamp < Timeline(acts, now, w, n)[k].timestamp
  {
    TimelineTimestamps(acts, now, w, n);
    var t := Timeline(acts, now, w, n);
    forall j, k | 0 <= j < k < |t| ensures t[j].timestamp < t[k].timestamp {
      assert (n - 1 - k) * w < (n - 1 - j) * w;
    }
  }

  /** Counting one kind never gives more than counting all. */
  lemma {:induction false} CountInKindAtMost(acts: seq<Activity>, lo: int, hi: int, kind: string)
    ensures CountIn(acts, lo, hi, Some(kind)) <= CountIn(acts, lo, hi, None)
  {
    if acts != [] {
      CountInKindAtMost(acts[1..], lo, hi, kind);
    }
  }

  /** In every bucket the invites and the errors are part of the count. */
  lemma {:induction false} BucketsBounded(acts: seq<Activity>, now: int, w: nat, n: nat)
    ensures forall j :: 0 <= j < |Timeline(acts, now, w, n)| ==>
      Timeline(acts, now, w, n)[j].invites <= Timeline(acts, now, w, n)[j].count &&
      Timeline(acts, now, w, n)[j].errors <= Timeline(acts, now, w, n)[j].count
  {
    if n > 0 {
      BucketsBounded(acts, now, w, n - 1);
      var lo, hi := now - n * w, now - (n - 1) * w;
      CountInKindAtMost(acts, lo, hi, ACTIVITY_INVITE_SENT);
      CountInKindAtMost(acts, lo, hi, ACTIVITY_ERROR);
    }
  }

  /** Adjacent windows add up. */
  lemma {:induction false} CountInSplit(acts: seq<Activity>, lo: int, mid: int, hi: int, kind: Option<string>)
    requires lo <= mid <= hi
    ensures CountIn(acts, lo, hi, kind) == CountIn(acts, lo, mid, kind) + CountIn(acts, mid, hi, kind)
  {
    if acts != [] {
      CountInSplit(acts[1..], lo, mid, hi, kind);
    }
  }

  function SumCounts(t: seq<Bucket>): nat {
    if t == [] then 0 else t[0].count + SumCounts(t[1..])
  }

  function SumInvites(t: seq<Bucket>): nat {
    if t == [] then 0 else t[0].invites + SumInvites(t[1..])
  }

  function SumErrors(t: seq<Bucket>): nat {
    if t == [] then 0 else t[0].errors + SumErrors(t[1..])
  }

  /** The buckets tile `[now - n w, now)`: no activity in it is missed or counted twice. */
  lemma {:induction false} TimelineTiles(acts: seq<Activity>, now: int, w: nat, n: nat)
    ensures SumCounts(Timeline(acts, now, w, n)) == CountIn(acts, now - n * w, now, None)
    ensures SumInvites(Timeline(acts, now, w, n)) == CountIn(acts, now - n * w, now, Some(ACTIVITY_INVITE_SENT))
    ensures SumErrors(Timeline(acts, now, w, n)) == CountIn(acts, now - n * w, now, Some(ACTIVITY_ERROR))
  {
    if n == 0 {
      CountInEmpty(acts, now, None);
      CountInEmpty(acts, now, Some(ACTIVITY_INVITE_SENT));
      CountInEmpty(acts, now, Some(ACTIVITY_ERROR));
    } else {
      TimelineTiles(acts, now, w, n - 1);
      var lo, mid := now - n * w, now - (n - 1) * w;
      assert lo <= mid;
      CountInSplit(acts, lo, mid, now, None);
      CountInSplit(acts, lo, mid, now, Some(ACTIVITY_INVITE_SENT));
      CountInSplit(acts, lo, mid, now, Some(ACTIVITY_ERROR));
      var t := Timeline(acts, now, w, n);
      assert t[1..] == Timeline(acts, now, w, n - 1);
    }
  }

  lemma {:induction false} CountInEmpty(acts: seq<Activity>, at: int, kind: Option<string>)
    ensures CountIn(acts, at, at, kind) == 0
  {
    if acts != [] {
      CountInEmpty(acts[1..], at, kind);
    }
  }

  // ---------------------------------------------------------------- summary

  /** The object `getActivitySummary` returns. */
  datatype Summary = Summary(
    total: nat,
    byType: map<string, nat>,
    errors: nat,
    invitesSent: nat,
    invitesAccepted: nat,
    timeline: seq<Bucket>)

  /** How many recent activities the summary reads from the store. */
  const SUMMARY_WINDOW: int := 1000

  function Since(hours: int, now: int): int { now - hours * HOUR_MS }

  /** The activities the summary counts: the 1000 newest, created since `hours` ago. */
  function RecentSince(st: StoreState, hours: int, now: int): seq<Activity> {
    Seqs.Filter(RecentActivities(st, SUMMARY_WINDOW), (a: Activity) => a.createdAt >= Since(hours, now))
  }

  /** `getActivitySummary(hours)`, both its clock readings being `now`. */
  function ActivitySummary(st: StoreState, hours: int, now: int): Summary {
    var recent := RecentSince(st, hours, now);
    Summary(|recent|, ByType(recent), KindCount(recent, ACTIVITY_ERROR), KindCount(recent, ACTIVITY_INVITE_SENT),
            KindCount(recent, ACTIVITY_INVITE_ACCEPTED),
            Timeline(recent, now, BucketWidth(hours), BucketCount(hours)))
  }

  method GetActivitySummary(store: Storage.MemStorage, hours: int, now: int) returns (r: Summary)
    ensures r == ActivitySummary(store.State(), hours, now)
  {
    var activities := store.GetRecentActivities(SUMMARY_WINDOW);
    var since := Since(hours, now);
    var recent := Seqs.Filter(activities, (a: Activity) => a.createdAt >= since);
    var timeline := CreateTimeline(recent, hours, now);
    var byType := CountByType(recent);
    r := Summary(|recent|, map[], KindCount(recent, ACTIVITY_ERROR), KindCount(recent, ACTIVITY_INVITE_SENT),
                 KindCount(recent, ACTIVITY_INVITE_ACCEPTED), timeline);
    r := r.(byType := byType);
  }

  /** Every counted activity is a stored one created since the window opened, and there
      are at most 1000 of them. */
  lemma RecentSinceStored(st: StoreState, hours: int, now: int)
    ensures var recent := RecentSince(st, hours, now);
      && |recent| <= SUMMARY_WINDOW
      && forall i :: 0 <= i < |recent| ==> recent[i] in Activities(st) && recent[i].createdAt >= now - hours * HOUR_MS
  {
    var recent := RecentSince(st, hours, now);
    var all := Sorting.SortDesc(Activities(st), ActivityTime);
    Sorting.SortDescSortsAndPermutes(Activities(st), ActivityTime);
    var window := Seqs.JsSlice(all, SUMMARY_WINDOW);
    assert RecentActivities(st, SUMMARY_WINDOW) == window;
    forall i | 0 <= i < |recent| ensures recent[i] in Activities(st) {
      var x := recent[i];
      assert x in window;
      assert x in multiset(all);
    }
  }

  /** The per-type table agrees with the named counts, and the named counts are parts of
      the total. */
  lemma SummaryCounts(st: StoreState, hours: int, now: int)
    ensures var r := ActivitySummary(st, hours, now);
      var recent := RecentSince(st, hours, now);
      && r.total == |recent|
      && SumValues(r.byType) == r.total
      && (forall k | k in r.byType :: r.byType[k] == KindCount(recent, k) && r.byType[k] <= r.total)
      && (r.errors > 0 <==> ACTIVITY_ERROR in r.byType)
      && (r.errors > 0 ==> r.byType[ACTIVITY_ERROR] == r.errors)
      && r.errors + r.invitesSent + r.invitesAccepted <= r.total
  {
    var recent := RecentSince(st, hours, now);
    ByTypeCounts(recent);
    ByTypeSumsToTotal(recent);
    KindsDisjoint(recent);
  }

  /** For a positive span the timeline has one bucket an hour up to 24, its buckets span
      the requested hours back from now, and it counts exactly the counted activities
      created before now. */
  lemma SummaryTimeline(st: StoreState, hours: int, now: int)
    requires hours > 0
    ensures var r := ActivitySummary(st, hours, now);
      var recent := RecentSince(st, hours, now);
      && |r.timeline| == BucketCount(hours)
      && r.timeline[0].timestamp == now - hours * HOUR_MS + BucketWidth(hours)
      && r.timeline[|r.timeline| - 1].timestamp == now
      && SumCounts(r.timeline) == CountIn(recent, now - hours * HOUR_MS, now, None)
      && SumInvites(r.timeline) == CountIn(recent, now - hours * HOUR_MS, now, Some(ACTIVITY_INVITE_SENT))
      && SumErrors(r.timeline) == CountIn(recent, now - hours * HOUR_MS, now, Some(ACTIVITY_ERROR))
  {
    var recent := RecentSince(st, hours, now);
    var n, w := BucketCount(hours), BucketWidth(hours);
    TimelineSpansHours(hours);
    TimelineWindow(recent, now, w, n);
    assert ActivitySummary(st, hours, now).timeline == Timeline(recent, now, w, n);
  }

  /** The window of `n > 0` buckets of width `w`: first end, last end and totals. */
  lemma TimelineWindow(acts: seq<Activity>, now: int, w: nat, n: nat)
    requires n > 0
    ensures var t := Timeline(acts, now, w, n);
      && |t| == n
      && t[0].timestamp == now - n * w + w
      && t[n - 1].timestamp == now
      && SumCounts(t) == CountIn(acts, now - n * w, now, None)
      && SumInvites(t) == CountIn(acts, now - n * w, now, Some(ACTIVITY_INVITE_SENT))
      && SumErrors(t) == CountIn(acts, now - n * w, now, Some(ACTIVITY_ERROR))
  {
    TimelineTimestamps(acts, now, w, n);
    TimelineTiles(acts, now, w, n);
    assert (n - 1) * w == n * w - w;
  }

  /** The three named kinds are distinct, so their counts add up to at most the total. */
  lemma {:induction false} KindsDisjoint(acts: seq<Activity>)
    ensures KindCount(acts, ACTIVITY_ERROR) + KindCount(acts, ACTIVITY_INVITE_SENT) + KindCount(acts, ACTIVITY_INVITE_ACCEPTED) <= |acts|
  {
    if acts != [] {
      KindsDisjoint(acts[..|acts| - 1]);
    }
  }
}
