/** The in-memory store of server/storage.ts as a value: its id-keyed tables, its id
    counters and its single configuration row, with every store operation as a function
    from the old state to the new one. The `MemStorage` class runs these in place. */
module StoreModel {
  import opened Wrappers
  import opened Schema
  import opened Seqs
  import Sorting
  import JsMath
  import Json
  import Text

  /** The tables; `lastSessionId` and the other counters hold the last id handed out. */
  datatype StoreState = StoreState(
    sessions: map<nat, Session>,
    creators: map<nat, Creator>,
    activities: map<nat, Activity>,
    config: Option<BotConfig>,
    lastSessionId: nat,
    lastCreatorId: nat,
    lastActivityId: nat)

  /** Ids 1..last are exactly the keys, and every record carries its own key. */
  ghost predicate SessionsKeyed(m: map<nat, Session>, last: nat) {
    (forall id :: id in m <==> 1 <= id <= last) && forall id | id in m :: m[id].id == id
  }

  ghost predicate CreatorsKeyed(m: map<nat, Creator>, last: nat) {
    (forall id :: id in m <==> 1 <= id <= last) && forall id | id in m :: m[id].id == id
  }

  ghost predicate ActivitiesKeyed(m: map<nat, Activity>, last: nat) {
    (forall id :: id in m <==> 1 <= id <= last) && forall id | id in m :: m[id].id == id
  }

  ghost predicate WellFormed(st: StoreState) {
    SessionsKeyed(st.sessions, st.lastSessionId)
    && CreatorsKeyed(st.creators, st.lastCreatorId)
    && ActivitiesKeyed(st.activities, st.lastActivityId)
  }

  /** `Array.from(this.botSessions.values())` and its siblings: insertion order. */
  function Sessions(st: StoreState): seq<Session> { Listed(st.sessions, st.lastSessionId) }
  function Creators(st: StoreState): seq<Creator> { Listed(st.creators, st.lastCreatorId) }
  function Activities(st: StoreState): seq<Activity> { Listed(st.activities, st.lastActivityId) }

  /** The configuration the constructor installs. */
  function DefaultConfig(now: int): BotConfig {
    BotConfig(1, Some(10000), Some(1000000), Some(500), Some(45000),
      ["Beauty", "Fashion", "Lifestyle", "Fitness"], [], [], false, now)
  }

  /** The store right after construction: no sessions, creators or activities yet. */
  function Initial(now: int): (st: StoreState)
    ensures WellFormed(st)
    ensures Sessions(st) == [] && Creators(st) == [] && Activities(st) == []
    ensures st.config == Some(DefaultConfig(now))
  {
    StoreState(map[], map[], map[], Some(DefaultConfig(now)), 0, 0, 0)
  }

  // ---------------------------------------------------------------- sessions

  /** `x || null` on a nullable id or count: `0` becomes null. */
  function NonZero(x: Option<nat>): Option<nat> {
    if x == Some(0) then None else x
  }

  /** The record `createBotSession` builds. It does not copy `metadata`. */
  function NewSession(id: nat, ins: InsertSession, now: int): Session {
    Session(id, ins.status.GetOr(Idle), ins.startTime, ins.endTime,
      ins.invitesSent.GetOr(0), ins.successfulInvites.GetOr(0), ins.errorCount.GetOr(0),
      ins.settings, None, now)
  }

  function CreateBotSession(st: StoreState, ins: InsertSession, now: int): (StoreState, Session) {
    var s := NewSession(st.lastSessionId + 1, ins, now);
    (st.(sessions := st.sessions[s.id := s], lastSessionId := s.id), s)
  }

  /** `{ ...session, ...updates }` */
  function ApplySessionUpdate(s: Session, u: SessionUpdate): Session {
    s.(status := u.status.GetOr(s.status),
       endTime := if u.endTime.Some? then u.endTime else s.endTime,
       invitesSent := u.invitesSent.GetOr(s.invitesSent),
       successfulInvites := u.successfulInvites.GetOr(s.successfulInvites),
       errorCount := u.errorCount.GetOr(s.errorCount),
       metadata := if u.metadata.Some? then u.metadata else s.metadata)
  }

  function UpdateBotSession(st: StoreState, id: nat, u: SessionUpdate): (StoreState, Option<Session>) {
    if id in st.sessions then
      var s := ApplySessionUpdate(st.sessions[id], u);
      (st.(sessions := st.sessions[id := s]), Some(s))
    else (st, None)
  }

  function SessionTime(s: Session): real { s.createdAt as real }

  predicate IsActiveSession(s: Session) { s.status == Running || s.status == Paused }

  /** `getCurrentSession`: the newest running or paused session. */
  function CurrentSession(st: StoreState): Option<Session> {
    var active := Sorting.SortDesc(Filter(Sessions(st), IsActiveSession), SessionTime);
    if active == [] then None else Some(active[0])
  }

  /** `getRecentSessions(limit)`: newest first. */
  function RecentSessions(st: StoreState, limit: int): seq<Session> {
    JsSlice(Sorting.SortDesc(Sessions(st), SessionTime), limit)
  }

  // ---------------------------------------------------------------- creators

  /** `x || null` on a nullable string: `''` becomes null. */
  function NonEmpty(x: Option<string>): Option<string> {
    if x == Some("") then None else x
  }

  /** The record `createCreator` builds: falsy followers and category become null, and
      the invite status stays null unless given. */
  function NewCreator(id: nat, ins: InsertCreator, now: int): Creator {
    Creator(id, ins.username, NonZero(ins.followers), NonEmpty(ins.category),
      ins.lastInvited, ins.inviteStatus, None, now)
  }

  function CreateCreator(st: StoreState, ins: InsertCreator, now: int): (StoreState, Creator) {
    var c := NewCreator(st.lastCreatorId + 1, ins, now);
    (st.(creators := st.creators[c.id := c], lastCreatorId := c.id), c)
  }

  /** `{ ...creator, ...updates }` */
  function ApplyCreatorUpdate(c: Creator, u: CreatorUpdate): Creator {
    c.(followers := u.followers.GetOr(c.followers),
       category := u.category.GetOr(c.category),
       lastInvited := if u.lastInvited.Some? then u.lastInvited else c.lastInvited,
       inviteStatus := if u.inviteStatus.Some? then u.inviteStatus else c.inviteStatus,
       metadata := if u.metadata.Some? then u.metadata else c.metadata)
  }

  function UpdateCreator(st: StoreState, id: nat, u: CreatorUpdate): (StoreState, Option<Creator>) {
    if id in st.creators then
      var c := ApplyCreatorUpdate(st.creators[id], u);
      (st.(creators := st.creators[id := c]), Some(c))
    else (st, None)
  }

  /** `Array.prototype.find` by username. */
  function FindByUsername(cs: seq<Creator>, username: string): (r: Option<Creator>)
    ensures r.Some? ==> r.value in cs && r.value.username == username
    ensures r.None? <==> forall i :: 0 <= i < |cs| ==> cs[i].username != username
  {
    if cs == [] then None
    else if cs[0].username == username then Some(cs[0])
    else FindByUsername(cs[1..], username)
  }

  function CreatorByUsername(st: StoreState, username: string): Option<Creator> {
    FindByUsername(Creators(st), username)
  }

  /** The filter of `getCreatorsForInvitation`: a truthy follower count inside
      `[minFollowers || 0, maxFollowers || 999999999]`, not invited in the last 24 hours
      (strictly before `now - 24h`), and not accepted. */
  predicate InvitationCandidate(c: Creator, cfg: Option<BotConfig>, now: int) {
    var lo := if cfg.Some? then JsMath.OrDefault(cfg.value.minFollowers, 0) else 0;
    var hi := if cfg.Some? then JsMath.OrDefault(cfg.value.maxFollowers, 999999999) else 999999999;
    && c.followers.Some? && c.followers.value != 0
    && lo <= c.followers.value <= hi
    && (c.lastInvited.None? || c.lastInvited.value < now - DAY_MS)
    && c.inviteStatus != Some(Accepted)
  }

  function CreatorsForInvitation(st: StoreState, limit: int, now: int): seq<Creator> {
    JsSlice(Filter(Creators(st), (c: Creator) => InvitationCandidate(c, st.config, now)), limit)
  }

  datatype CreatorCounts = CreatorCounts(total: nat, active: nat, pending: nat)

  predicate IsAccepted(c: Creator) { c.inviteStatus == Some(Accepted) }
  predicate IsPendingOrSent(c: Creator) { c.inviteStatus == Some(Pending) || c.inviteStatus == Some(Sent) }

  /** `getCreatorStats` */
  function CreatorStats(st: StoreState): CreatorCounts {
    var cs := Creators(st);
    CreatorCounts(|cs|, Count(cs, IsAccepted), Count(cs, IsPendingOrSent))
  }

  // ---------------------------------------------------------------- activities

  /** The record `logActivity` builds: a zero session or creator id becomes null. */
  function NewActivity(id: nat, ins: InsertActivity, now: int): Activity {
    Activity(id, ins.kind, ins.description, ins.metadata, NonZero(ins.sessionId), NonZero(ins.creatorId), now)
  }

  function LogActivity(st: StoreState, ins: InsertActivity, now: int): (StoreState, Activity) {
    var a := NewActivity(st.lastActivityId + 1, ins, now);
    (st.(activities := st.activities[a.id := a], lastActivityId := a.id), a)
  }

  function ActivityTime(a: Activity): real { a.createdAt as real }

  /** `getRecentActivities(limit)`: newest first. */
  function RecentActivities(st: StoreState, limit: int): seq<Activity> {
    JsSlice(Sorting.SortDesc(Activities(st), ActivityTime), limit)
  }

  /** `getActivitiesBySession(sessionId)`: that session's activities, newest first. */
  function ActivitiesBySession(st: StoreState, sessionId: nat): seq<Activity> {
    Sorting.SortDesc(Filter(Activities(st), (a: Activity) => a.sessionId == Some(sessionId)), ActivityTime)
  }

  // ---------------------------------------------------------------- configuration

  /** What `{ ...existing!, ... }` spreads when no configuration row exists: no fields. */
  const BLANK_CONFIG: BotConfig := BotConfig(0, None, None, None, None, [], [], [], false, 0)

  /** `{ ...existing, ...updates }` */
  function ApplyConfigUpdate(c: BotConfig, u: ConfigUpdate): BotConfig {
    c.(minFollowers := if u.minFollowers.Some? then u.minFollowers else c.minFollowers,
       maxFollowers := if u.maxFollowers.Some? then u.maxFollowers else c.maxFollowers,
       dailyLimit := if u.dailyLimit.Some? then u.dailyLimit else c.dailyLimit,
       actionDelay := if u.actionDelay.Some? then u.actionDelay else c.actionDelay,
       categories := u.categories.GetOr(c.categories),
       subCategories := u.subCategories.GetOr(c.subCategories),
       productNames := u.productNames.GetOr(c.productNames),
       isActive := u.isActive.GetOr(c.isActive))
  }

  function UpdateBotConfig(st: StoreState, u: ConfigUpdate, now: int): (StoreState, BotConfig) {
    var c := ApplyConfigUpdate(st.config.GetOr(BLANK_CONFIG), u).(updatedAt := now);
    (st.(config := Some(c)), c)
  }

  // ---------------------------------------------------------------- dashboard

  datatype DashboardMetrics = DashboardMetrics(
    invitesSent: nat,
    acceptanceRate: int,
    activeCreators: nat,
    estimatedRevenue: nat,
    dailyCurrent: nat,
    dailyTarget: int)

  predicate IsInviteSent(a: Activity) { a.kind == ACTIVITY_INVITE_SENT }
  predicate IsInviteAccepted(a: Activity) { a.kind == ACTIVITY_INVITE_ACCEPTED }

  /** `Math.round(accepted / sent * 100)`, or 0 when nothing was sent. */
  function AcceptanceRate(accepted: nat, sent: nat): int {
    if sent > 0 then JsMath.Round(accepted as real / sent as real * 100.0) else 0
  }

  /** `getDashboardMetrics`, where `startOfDay` is local midnight of the current day. */
  function Metrics(st: StoreState, startOfDay: int): DashboardMetrics {
    var today := Filter(Activities(st), (a: Activity) => a.createdAt >= startOfDay);
    var sent := Count(today, IsInviteSent);
    var accepted := Count(today, IsInviteAccepted);
    var active := CreatorStats(st).active;
    DashboardMetrics(sent, AcceptanceRate(accepted, sent), active, active * 50, sent,
      if st.config.Some? then JsMath.OrDefault(st.config.value.dailyLimit, 500) else 500)
  }

  /** Whole hours and the minutes left over of an uptime in milliseconds. */
  function UptimeParts(ms: int): (int, int) {
    (JsMath.FloorDiv(ms, HOUR_MS), JsMath.FloorDiv(JsMath.Rem(ms, HOUR_MS), MINUTE_MS))
  }

  /** The `uptime` text of `getBotStatus`. */
  function Uptime(ms: int): string {
    var (h, m) := UptimeParts(ms);
    if h > 0 then Text.IntToString(h) + "h " + Text.IntToString(m) + "m" else Text.IntToString(m) + "m"
  }

  datatype BotStatus = BotStatus(
    status: SessionStatus,
    currentSession: Option<Session>,
    todayInvites: nat,
    successRate: int,
    activeCreators: nat,
    uptime: string)

  /** `getBotStatus` */
  function Status(st: StoreState, now: int, startOfDay: int): BotStatus {
    StatusOf(CurrentSession(st), Metrics(st, startOfDay), now)
  }

  /** The report built from the current session and today's metrics. */
  function StatusOf(cur: Option<Session>, m: DashboardMetrics, now: int): BotStatus {
    var uptime := if cur.Some? && cur.value.startTime.Some? then Uptime(now - cur.value.startTime.value) else "0m";
    BotStatus(if cur.Some? then cur.value.status else Idle, cur, m.invitesSent, m.acceptanceRate, m.activeCreators, uptime)
  }
}
