/** The records of shared/schema.ts: bot sessions, creators, activities and the bot
    configuration, with the shapes the store accepts for inserting and updating them. */
module Schema {
  import opened Wrappers
  import Json

  const SECOND_MS: int := 1000
  const MINUTE_MS: int := 60 * SECOND_MS
  const HOUR_MS: int := 60 * MINUTE_MS
  const DAY_MS: int := 24 * HOUR_MS
  const MAX_SAFE_INTEGER: int := 9007199254740991

  /** `bot_sessions.status` */
  datatype SessionStatus = Idle | Initializing | Running | Paused | Stopped | Error

  /** `creators.invite_status` */
  datatype InviteStatus = Pending | Sent | Accepted | Rejected

  /** A `bot_config` row. The nullable integer columns stay optional so that
      `x ?? d` and `x || d` can be told apart. */
  datatype BotConfig = BotConfig(
    id: nat,
    minFollowers: Option<int>,
    maxFollowers: Option<int>,
    dailyLimit: Option<int>,
    actionDelay: Option<int>,
    categories: seq<string>,
    subCategories: seq<string>,
    productNames: seq<string>,
    isActive: bool,
    updatedAt: int)

  /** A `bot_sessions` row; timestamps are milliseconds since the epoch. */
  datatype Session = Session(
    id: nat,
    status: SessionStatus,
    startTime: Option<int>,
    endTime: Option<int>,
    invitesSent: nat,
    successfulInvites: nat,
    errorCount: nat,
    settings: Option<BotConfig>,
    metadata: Option<Json.Object>,
    createdAt: int)

  /** A `creators` row. */
  datatype Creator = Creator(
    id: nat,
    username: string,
    followers: Option<nat>,
    category: Option<string>,
    lastInvited: Option<int>,
    inviteStatus: Option<InviteStatus>,
    metadata: Option<Json.Object>,
    createdAt: int)

  /** An `activities` row; `kind` is the source's `type` column. */
  datatype Activity = Activity(
    id: nat,
    kind: string,
    description: string,
    metadata: Option<Json.Object>,
    sessionId: Option<nat>,
    creatorId: Option<nat>,
    createdAt: int)

  /** `InsertBotSession`: every field optional. */
  datatype InsertSession = InsertSession(
    status: Option<SessionStatus>,
    startTime: Option<int>,
    endTime: Option<int>,
    invitesSent: Option<nat>,
    successfulInvites: Option<nat>,
    errorCount: Option<nat>,
    settings: Option<BotConfig>,
    metadata: Option<Json.Object>)

  /** `Partial<BotSession>` as the callers pass it: `None` is a key not supplied. */
  datatype SessionUpdate = SessionUpdate(
    status: Option<SessionStatus>,
    endTime: Option<int>,
    invitesSent: Option<nat>,
    successfulInvites: Option<nat>,
    errorCount: Option<nat>,
    metadata: Option<Json.Object>)

  /** `InsertCreator` */
  datatype InsertCreator = InsertCreator(
    username: string,
    followers: Option<nat>,
    category: Option<string>,
    lastInvited: Option<int>,
    inviteStatus: Option<InviteStatus>)

  /** `Partial<Creator>`: the outer `None` is a key not supplied; for the nullable
      columns the inner option is the value written (which may be null). */
  datatype CreatorUpdate = CreatorUpdate(
    followers: Option<Option<nat>>,
    category: Option<Option<string>>,
    lastInvited: Option<int>,
    inviteStatus: Option<InviteStatus>,
    metadata: Option<Json.Object>)

  /** `InsertActivity` */
  datatype InsertActivity = InsertActivity(
    kind: string,
    description: string,
    metadata: Option<Json.Object>,
    sessionId: Option<nat>,
    creatorId: Option<nat>)

  /** `Partial<BotConfig>` as the configuration validator produces it. */
  datatype ConfigUpdate = ConfigUpdate(
    minFollowers: Option<int>,
    maxFollowers: Option<int>,
    dailyLimit: Option<int>,
    actionDelay: Option<int>,
    categories: Option<seq<string>>,
    subCategories: Option<seq<string>>,
    productNames: Option<seq<string>>,
    isActive: Option<bool>)

  /** The session counters, as snapshotted into `finalStats`. */
  datatype Stats = Stats(invitesSent: nat, successfulInvites: nat, errorCount: nat)

  /** A value thrown in the source: an `Error` (with its name and message) or anything else. */
  datatype Thrown = ErrorValue(name: string, message: string) | OtherValue(text: string)

  /** What a call into the browser or the store did: returned a value or threw. */
  datatype Attempt<T> = Returns(value: T) | Throws(error: Thrown)

  /** How a `Promise<void>` settled: it resolved, or it rejected with the value thrown. */
  datatype Completion = Done | Raised(error: Thrown)

  /** `new Error(message)` */
  function Failure(message: string): Thrown {
    ErrorValue("Error", message)
  }

  /** `error instanceof Error ? error.message : 'Unknown error'` */
  function MessageOrUnknown(e: Thrown): string {
    match e
    case ErrorValue(_, m) => m
    case OtherValue(_) => "Unknown error"
  }

  /** `String(error)`: for an `Error`, `Error.prototype.toString`. */
  function ThrownToString(e: Thrown): (r: string)
    ensures e.ErrorValue? && e.name != "" && e.message != "" ==> r == e.name + ": " + e.message
  {
    match e
    case ErrorValue(n, m) => if n == "" then m else if m == "" then n else n + ": " + m
    case OtherValue(t) => t
  }

  /** A nullable number as JSON. */
  function NumOrNull(x: Option<int>): Json.Value {
    if x.Some? then Json.JNum(x.value) else Json.JNull
  }

  function StringsJson(xs: seq<string>): seq<Json.Value> {
    if xs == [] then [] else [Json.JStr(xs[0])] + StringsJson(xs[1..])
  }

  /** A configuration row as the JSON object placed into activity metadata. */
  function ConfigJson(c: BotConfig): Json.Value {
    Json.JObj(map[
      "id" := Json.JNum(c.id), "minFollowers" := NumOrNull(c.minFollowers),
      "maxFollowers" := NumOrNull(c.maxFollowers), "dailyLimit" := NumOrNull(c.dailyLimit),
      "actionDelay" := NumOrNull(c.actionDelay), "categories" := Json.JArr(StringsJson(c.categories)),
      "subCategories" := Json.JArr(StringsJson(c.subCategories)),
      "productNames" := Json.JArr(StringsJson(c.productNames)),
      "isActive" := Json.JBool(c.isActive), "updatedAt" := Json.JDate(c.updatedAt)])
  }

  /** `{ username, followers, category }` of a creator, as the invite activities record it. */
  function CreatorSummaryJson(c: Creator): Json.Object {
    map["username" := Json.JStr(c.username),
        "followers" := if c.followers.Some? then Json.JNum(c.followers.value) else Json.JNull,
        "category" := if c.category.Some? then Json.JStr(c.category.value) else Json.JNull]
  }

  /** Local midnight of the day holding `t`, taking the local zone to be UTC. */
  function StartOfDay(t: int): (r: int)
    ensures r <= t < r + DAY_MS
    ensures r % DAY_MS == 0
  {
    t - t % DAY_MS
  }

  function SessionStats(s: Session): Stats {
    Stats(s.invitesSent, s.successfulInvites, s.errorCount)
  }

  const ACTIVITY_INVITE_SENT: string := "invite_sent"
  const ACTIVITY_INVITE_ACCEPTED: string := "invite_accepted"
  const ACTIVITY_ERROR: string := "error"
  const ACTIVITY_INFO: string := "info"
  const ACTIVITY_SESSION_START: string := "session_start"
  const ACTIVITY_SESSION_PAUSE: string := "session_pause"
  const ACTIVITY_SESSION_RESUME: string := "session_resume"
  const ACTIVITY_SESSION_STOP: string := "session_stop"
  const ACTIVITY_USER_ACTION: string := "user_action"
  const ACTIVITY_BOT_ACTION: string := "bot_action"
}
