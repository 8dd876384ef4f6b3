/** `SessionManager` of server/bot/session-manager.ts: runs one bot session at a time
    over the shared store, a browser driver and the clock. */
module SessionManager {
  import opened Wrappers
  import opened Schema
  import opened Json
  import opened StoreModel
  import Storage
  import Driver
  import Clock
  import Lifecycle
  import ActivityLogger
  import Seqs

  // ---------------------------------------------------------------- what the store receives

  /** The row `startSession` inserts: running, started now, counters at zero. */
  function StartInsert(config: BotConfig, now: int): InsertSession {
    InsertSession(Some(Running), Some(now), None, Some(0), Some(0), Some(0), Some(config), None)
  }

  function SessionActivity(kind: string, description: string, sessionId: nat, metadata: Option<Object>): InsertActivity {
    InsertActivity(kind, description, metadata, Some(sessionId), None)
  }

  function StartActivity(sessionId: nat, config: BotConfig): InsertActivity {
    SessionActivity(ACTIVITY_SESSION_START, "Bot session started (Test Mode)", sessionId,
      Some(map["config" := ConfigJson(config), "testMode" := JBool(true)]))
  }

  /** The end of a session: its status and `endTime`. */
  function EndUpdate(status: SessionStatus, now: int): SessionUpdate {
    SessionUpdate(Some(status), Some(now), None, None, None, None)
  }

  function StatusUpdate(status: SessionStatus): SessionUpdate {
    SessionUpdate(Some(status), None, None, None, None, None)
  }

  /** What `stopSession(reason)` logs: the reason, or a default for none or `''`. */
  function StopActivity(sessionId: nat, reason: Option<string>): InsertActivity {
    SessionActivity(ACTIVITY_SESSION_STOP,
      if reason.Some? && reason.value != "" then reason.value else "Bot session stopped", sessionId,
      Some(if reason.Some? then map["reason" := JStr(reason.value)] else map[]))
  }

  /** The error the browser steps of `startSession` end with, if any: the plain manager
      ignores what `login()` returns and only a throw counts. */
  function BrowserError(launch: Option<Thrown>, login: Attempt<bool>): Option<Thrown> {
    if launch.Some? then launch else if login.Throws? then Some(login.error) else None
  }

  /** The store after an accepted `startSession`. */
  function StartStore(st: StoreState, config: BotConfig, now: int, browserError: Option<Thrown>): StoreState {
    var (st1, s) := StoreModel.CreateBotSession(st, StartInsert(config, now), now);
    var st2 := StoreModel.LogActivity(st1, StartActivity(s.id, config), now).0;
    if browserError.Some? then StoreModel.UpdateBotSession(st2, s.id, EndUpdate(Stopped, now)).0 else st2
  }

  /** The store after `stopSession(reason)` with a current session. */
  function StopStore(st: StoreState, s: Session, reason: Option<string>, now: int): StoreState {
    var st1 := StoreModel.UpdateBotSession(st, s.id, EndUpdate(Stopped, now)).0;
    StoreModel.LogActivity(st1, StopActivity(s.id, reason), now).0
  }

  // ---------------------------------------------------------------- one creator

  /** The delay after each creator and each batch: `actionDelay || 45000`. */
  function ActionDelay(config: BotConfig): int {
    if config.actionDelay.Some? && config.actionDelay.value != 0 then config.actionDelay.value else 45000
  }

  function InviteActivity(s: Session, c: Creator): InsertActivity {
    InsertActivity(ACTIVITY_INVITE_SENT, "Invitation sent to " + c.username, Some(CreatorSummaryJson(c)), Some(s.id), Some(c.id))
  }

  function CreatorErrorActivity(s: Session, c: Creator, e: Thrown): InsertActivity {
    InsertActivity(ACTIVITY_ERROR, "Error processing creator " + c.username + ": " + MessageOrUnknown(e),
      Some(map["error" := JStr(ThrownToString(e))]), Some(s.id), Some(c.id))
  }

  function SentUpdate(now: int): CreatorUpdate {
    CreatorUpdate(None, None, Some(now), Some(Sent), None)
  }

  function CountersUpdate(s: Session): SessionUpdate {
    SessionUpdate(None, None, Some(s.invitesSent), Some(s.successfulInvites), None, None)
  }

  function ErrorCountUpdate(s: Session): SessionUpdate {
    SessionUpdate(None, None, None, None, Some(s.errorCount), None)
  }

  /** The store and the in-memory session after one creator of the batch, where `sent`
      is what `sendInvite` did and `now` the time it was called. */
  function CreatorStep(st: StoreState, s: Session, c: Creator, sent: Attempt<bool>, now: int): (StoreState, Session) {
    match sent
    case Returns(true) =>
      var st1 := StoreModel.UpdateCreator(st, c.id, SentUpdate(now)).0;
      var s1 := s.(invitesSent := s.invitesSent + 1, successfulInvites := s.successfulInvites + 1);
      var st2 := StoreModel.UpdateBotSession(st1, s.id, CountersUpdate(s1)).0;
      (StoreModel.LogActivity(st2, InviteActivity(s1, c), now).0, s1)
    case Returns(false) =>
      var s1 := s.(errorCount := s.errorCount + 1);
      (StoreModel.UpdateBotSession(st, s.id, ErrorCountUpdate(s1)).0, s1)
    case Throws(e) =>
      var st1 := StoreModel.LogActivity(st, CreatorErrorActivity(s, c, e), now).0;
      var s1 := s.(errorCount := s.errorCount + 1);
      (StoreModel.UpdateBotSession(st1, s.id, ErrorCountUpdate(s1)).0, s1)
  }

  /** One processed creator: who, what `sendInvite` did, and when. */
  datatype Processed = Processed(creator: Creator, sent: Attempt<bool>, at: int)

  function Batch(st: StoreState, s: Session, done: seq<Processed>): (StoreState, Session) {
    if done == [] then (st, s)
    else
      var (st1, s1) := Batch(st, s, done[..|done| - 1]);
      var p := done[|done| - 1];
      CreatorStep(st1, s1, p.creator, p.sent, p.at)
  }

  /** How many of the processed creators were invited. */
  function Successes(done: seq<Processed>): (r: nat)
    ensures r <= |done|
  {
    if done == [] then 0 else Successes(done[..|done| - 1]) + (if done[|done| - 1].sent == Returns(true) then 1 else 0)
  }

  /** The stored copy of the session carries the in-memory counters. */
  ghost predicate InSync(st: StoreState, s: Session) {
    s.id in st.sessions ==>
      && st.sessions[s.id].invitesSent == s.invitesSent
      && st.sessions[s.id].successfulInvites == s.successfulInvites
      && st.sessions[s.id].errorCount == s.errorCount
  }

  /** One creator: a sent invitation adds one to `invitesSent` and `successfulInvites`,
      marks that creator `sent` at that time and logs `invite_sent`; a refusal or a
      throw adds one to `errorCount` only and leaves the creators as they were. The
      stored session keeps the in-memory counters. */
  lemma CreatorStepEffect(st: StoreState, s: Session, c: Creator, sent: Attempt<bool>, now: int)
    requires WellFormed(st) && InSync(st, s)
    ensures var (st1, s1) := CreatorStep(st, s, c, sent, now);
      && WellFormed(st1) && InSync(st1, s1) && s1.id == s.id
      && (sent == Returns(true) ==>
            && s1 == s.(invitesSent := s.invitesSent + 1, successfulInvites := s.successfulInvites + 1)
            && (c.id in st.creators ==> st1.creators[c.id].inviteStatus == Some(Sent) && st1.creators[c.id].lastInvited == Some(now))
            && st1.lastActivityId == st.lastActivityId + 1
            && st1.activities[st1.lastActivityId].kind == ACTIVITY_INVITE_SENT
            && st1.activities[st1.lastActivityId].creatorId == NonZero(Some(c.id)))
      && (sent != Returns(true) ==>
            && s1 == s.(errorCount := s.errorCount + 1)
            && st1.creators == st.creators)
      && (forall id | id in st.creators && id != c.id :: id in st1.creators && st1.creators[id] == st.creators[id])
      && (forall id | id in st.sessions && id != s.id :: id in st1.sessions && st1.sessions[id] == st.sessions[id])
  {
    match sent
    case Returns(true) => SentEffect(st, s, c, now);
    case Returns(false) =>
    case Throws(e) => ThrownEffect(st, s, c, e, now);
  }

  /** Logging an activity adds one row under the next id and touches nothing else. */
  lemma LogKeepsSync(st: StoreState, s: Session, ins: InsertActivity, now: int)
    requires WellFormed(st) && InSync(st, s)
    ensures var st1 := StoreModel.LogActivity(st, ins, now).0;
      && WellFormed(st1) && InSync(st1, s)
      && st1.creators == st.creators && st1.sessions == st.sessions
      && st1.lastActivityId == st.lastActivityId + 1
      && st1.activities[st1.lastActivityId] == StoreModel.NewActivity(st1.lastActivityId, ins, now)
  {
  }

  /** Writing the counters of `s1` back to its row keeps store and memory in step. */
  lemma WriteBackKeepsSync(st: StoreState, s1: Session, u: SessionUpdate)
    requires WellFormed(st)
    requires u.invitesSent.Some? ==> u.invitesSent.value == s1.invitesSent
    requires u.successfulInvites.Some? ==> u.successfulInvites.value == s1.successfulInvites
    requires u.errorCount.Some? ==> u.errorCount.value == s1.errorCount
    requires s1.id in st.sessions ==>
      (u.invitesSent.Some? || st.sessions[s1.id].invitesSent == s1.invitesSent)
      && (u.successfulInvites.Some? || st.sessions[s1.id].successfulInvites == s1.successfulInvites)
      && (u.errorCount.Some? || st.sessions[s1.id].errorCount == s1.errorCount)
    ensures var st1 := StoreModel.UpdateBotSession(st, s1.id, u).0;
      && WellFormed(st1) && InSync(st1, s1)
      && st1.creators == st.creators && st1.activities == st.activities && st1.lastActivityId == st.lastActivityId
      && (forall id | id in st.sessions && id != s1.id :: id in st1.sessions && st1.sessions[id] == st.sessions[id])
  {
  }

  lemma SentEffect(st: StoreState, s: Session, c: Creator, now: int)
    requires WellFormed(st) && InSync(st, s)
    ensures var (st1, s1) := CreatorStep(st, s, c, Returns(true), now);
      && WellFormed(st1) && InSync(st1, s1)
      && s1 == s.(invitesSent := s.invitesSent + 1, successfulInvites := s.successfulInvites + 1)
      && (c.id in st.creators ==> st1.creators[c.id].inviteStatus == Some(Sent) && st1.creators[c.id].lastInvited == Some(now))
      && st1.lastActivityId == st.lastActivityId + 1
      && st1.activities[st1.lastActivityId].kind == ACTIVITY_INVITE_SENT
      && st1.activities[st1.lastActivityId].creatorId == NonZero(Some(c.id))
      && (forall id | id in st.creators && id != c.id :: id in st1.creators && st1.creators[id] == st.creators[id])
      && (forall id | id in st.sessions && id != s.id :: id in st1.sessions && st1.sessions[id] == st.sessions[id])
  {
    var st1 := StoreModel.UpdateCreator(st, c.id, SentUpdate(now)).0;
    var s1 := s.(invitesSent := s.invitesSent + 1, successfulInvites := s.successfulInvites + 1);
    var st2 := StoreModel.UpdateBotSession(st1, s.id, CountersUpdate(s1)).0;
    assert WellFormed(st1) && InSync(st1, s) && st1.sessions == st.sessions && st1.lastActivityId == st.lastActivityId;
    WriteBackKeepsSync(st1, s1, CountersUpdate(s1));
    LogKeepsSync(st2, s1, InviteActivity(s1, c), now);
  }

  lemma ThrownEffect(st: StoreState, s: Session, c: Creator, e: Thrown, now: int)
    requires WellFormed(st) && InSync(st, s)
    ensures var (st1, s1) := CreatorStep(st, s, c, Throws(e), now);
      && WellFormed(st1) && InSync(st1, s1)
      && s1 == s.(errorCount := s.errorCount + 1) && st1.creators == st.creators
      && (forall id | id in st.sessions && id != s.id :: id in st1.sessions && st1.sessions[id] == st.sessions[id])
  {
    var st1 := StoreModel.LogActivity(st, CreatorErrorActivity(s, c, e), now).0;
    LogKeepsSync(st, s, CreatorErrorActivity(s, c, e), now);
    WriteBackKeepsSync(st1, s.(errorCount := s.errorCount + 1), ErrorCountUpdate(s.(errorCount := s.errorCount + 1)));
  }

  /** A batch: `invitesSent` and `successfulInvites` grow by the invitations sent,
      `errorCount` by the rest, so no counter goes down and every processed creator
      adds exactly one to `invitesSent + errorCount`. */
  lemma {:induction false} BatchCounters(st: StoreState, s: Session, done: seq<Processed>)
    requires WellFormed(st) && InSync(st, s)
    ensures var (st1, s1) := Batch(st, s, done);
      && WellFormed(st1) && InSync(st1, s1) && s1.id == s.id
      && s1.invitesSent == s.invitesSent + Successes(done)
      && s1.successfulInvites == s.successfulInvites + Successes(done)
      && s1.errorCount == s.errorCount + (|done| - Successes(done))
      && s1.invitesSent + s1.errorCount == s.invitesSent + s.errorCount + |done|
      && s1.status == s.status
  {
    if done != [] {
      var init := done[..|done| - 1];
      BatchCounters(st, s, init);
      var (st1, s1) := Batch(st, s, init);
      var p := done[|done| - 1];
      CreatorStepEffect(st1, s1, p.creator, p.sent, p.at);
    }
  }

  lemma BatchSnoc(st: StoreState, s: Session, prev: seq<Processed>, p: Processed)
    ensures Batch(st, s, prev + [p]) == CreatorStep(Batch(st, s, prev).0, Batch(st, s, prev).1, p.creator, p.sent, p.at)
  {
    assert (prev + [p])[..|prev|] == prev;
  }

  /** What `sendInvite` gives a manager whose driver has the given guard outcome. */
  function SendOutcome(refused: bool, sent: bool): Attempt<bool> {
    if refused then Throws(Failure("Not logged in or browser not initialized")) else Returns(sent)
  }

  /** The processed creators are the first ones of the batch, each with the outcome the
      driver gave, in time order within `[lo, hi]`. */
  ghost predicate Trace(done: seq<Processed>, creators: seq<Creator>, refused: bool, sent: string -> bool, lo: int, hi: int) {
    && |done| <= |creators|
    && (forall k :: 0 <= k < |done| ==> done[k].creator == creators[k] && done[k].sent == SendOutcome(refused, sent(creators[k].username)))
    && (forall k, j :: 0 <= k < j < |done| ==> done[k].at <= done[j].at)
    && (forall k :: 0 <= k < |done| ==> lo <= done[k].at <= hi)
  }

  lemma TraceSnoc(done: seq<Processed>, creators: seq<Creator>, refused: bool, sent: string -> bool, lo: int, mid: int, hi: int, p: Processed)
    requires Trace(done, creators, refused, sent, lo, mid) && |done| < |creators|
    requires p.creator == creators[|done|] && p.sent == SendOutcome(refused, sent(p.creator.username))
    requires lo <= mid <= p.at <= hi
    ensures Trace(done + [p], creators, refused, sent, lo, hi)
  {
  }

  /** A trace stays one when the window it lies in closes later. */
  lemma TraceLater(done: seq<Processed>, creators: seq<Creator>, refused: bool, sent: string -> bool, lo: int, hi: int, later: int)
    requires Trace(done, creators, refused, sent, lo, hi) && hi <= later
    ensures Trace(done, creators, refused, sent, lo, later)
  {
  }

  /** `t` is a later state of session `s`: same session, no counter lower. */
  predicate Grew(s: Session, t: Session) {
    t.id == s.id && t.invitesSent >= s.invitesSent && t.successfulInvites >= s.successfulInvites && t.errorCount >= s.errorCount
  }

  /** `todayInvites`: `invite_sent` rows since midnight among the 1000 newest. */
  function TodayInvites(st: StoreState, startOfDay: int): nat {
    Seqs.Count(RecentActivities(st, 1000), (a: Activity) => a.kind == ACTIVITY_INVITE_SENT && a.createdAt >= startOfDay)
  }

  /** `config.dailyLimit != null && todayInvites >= config.dailyLimit` */
  predicate DailyLimitReached(config: BotConfig, st: StoreState, startOfDay: int) {
    config.dailyLimit.Some? && TodayInvites(st, startOfDay) >= config.dailyLimit.value
  }

  /** The number of creators a batch asks the store for. */
  const BATCH_SIZE: int := 5

  /** `getStatus()` */
  datatype ManagerStatus = ManagerStatus(isRunning: bool, currentSession: Option<Session>, puppeteer: Driver.DriverStatus)

  // ---------------------------------------------------------------- the manager

  class SessionManager {
    const store: Storage.MemStorage
    const driver: Driver.BrowserDriver
    const clock: Clock.Clock
    var currentSession: Option<Session>
    var isRunning: bool
    var shouldStop: bool

    function Flags(): Lifecycle.Flags
      reads this
    {
      Lifecycle.Flags(isRunning, shouldStop, currentSession.Some?)
    }

    ghost predicate Valid()
      reads this, store
    {
      store.Valid() && (currentSession.Some? ==> InSync(store.State(), currentSession.value))
    }

    constructor (store: Storage.MemStorage, driver: Driver.BrowserDriver, clock: Clock.Clock)
      requires store.Valid()
      ensures Valid() && Flags() == Lifecycle.FRESH
      ensures this.store == store && this.driver == driver && this.clock == clock
    {
      this.store := store;
      this.driver := driver;
      this.clock := clock;
      currentSession := None;
      isRunning := false;
      shouldStop := false;
    }

    /** `startSession()`, where `launch` and `login` are what the driver's `initialize`
        and `login` do. The flags follow `Lifecycle.Start`; an accepted start creates the
        running session and logs it, and a failing browser step marks it `stopped`. */
    method StartSession(launch: Option<Thrown>, login: Attempt<bool>) returns (r: Attempt<Session>)
      requires Valid()
      modifies this, store, driver
      ensures Valid()
      ensures var (done, flags) := Lifecycle.Start(old(Flags()), old(store.config).Some?, BrowserError(launch, login));
        && Flags() == flags
        && (done == Done <==> r.Returns?)
        && (done.Raised? ==> r == Throws(done.error))
      ensures old(isRunning) || old(store.config).None? ==>
        store.State() == old(store.State()) && currentSession == old(currentSession) && unchanged(driver)
      ensures !old(isRunning) && old(store.config).Some? ==>
        var created := StoreModel.CreateBotSession(old(store.State()), StartInsert(old(store.config).value, clock.now), clock.now).1;
        && store.State() == StartStore(old(store.State()), old(store.config).value, clock.now, BrowserError(launch, login))
        && currentSession == Some(created)
        && (r.Returns? ==> r.value == created)
    {
      if isRunning {
        return Throws(Lifecycle.ALREADY_RUNNING);
      }
      var config := store.config;
      if config.None? {
        return Throws(Lifecycle.NO_CONFIG);
      }
      r := Launch(config.value, launch, login);
    }

    /** The accepted part of `startSession()`, from `createBotSession` on. */
    method Launch(config: BotConfig, launch: Option<Thrown>, login: Attempt<bool>) returns (r: Attempt<Session>)
      requires Valid() && !isRunning
      modifies this, store, driver
      ensures Valid()
      ensures var failure := BrowserError(launch, login);
        var created := StoreModel.CreateBotSession(old(store.State()), StartInsert(config, clock.now), clock.now).1;
        && Flags() == Lifecycle.Start(old(Flags()), true, failure).1
        && r == (if failure.Some? then Throws(failure.value) else Returns(created))
        && store.State() == StartStore(old(store.State()), config, clock.now, failure)
        && currentSession == Some(created)
    {
      ghost var f0 := Flags();
      var s := Begin(config);
      var failure := OpenBrowser(launch, login);
      if failure.Some? {
        isRunning := false;
        var _ := store.UpdateBotSession(s.id, EndUpdate(Stopped, clock.now));
      }
      r := if failure.Some? then Throws(failure.value) else Returns(s);
      assert Lifecycle.Start(f0, true, failure).1 == Flags();
    }

    /** `createBotSession`, the flags and the `session_start` log, before the browser
        is touched. */
    method Begin(config: BotConfig) returns (s: Session)
      requires Valid()
      modifies this, store
      ensures Valid() && InSync(store.State(), s)
      ensures var (st1, created) := StoreModel.CreateBotSession(old(store.State()), StartInsert(config, clock.now), clock.now);
        && s == created
        && store.State() == StoreModel.LogActivity(st1, StartActivity(s.id, config), clock.now).0
      ensures currentSession == Some(s) && isRunning && !shouldStop
    {
      var now := clock.now;
      s := store.CreateBotSession(StartInsert(config, now), now);
      currentSession := Some(s);
      isRunning := true;
      shouldStop := false;
      ActivityLogger.Log(store, StartActivity(s.id, config), now);
    }

    /** `initialize()` then `login()`: the error the start ends with, if any. */
    method OpenBrowser(launch: Option<Thrown>, login: Attempt<bool>) returns (failure: Option<Thrown>)
      modifies driver
      ensures failure == BrowserError(launch, login)
    {
      failure := None;
      var launched := driver.Initialize(launch);
      if launched.Raised? {
        failure := Some(launched.error);
      } else {
        var loggedIn := driver.Login(login);
        if loggedIn.Throws? {
          failure := Some(loggedIn.error);
        }
      }
    }

    /** `pauseSession()`: the flags follow `Lifecycle.Pause`; when accepted the stored
        session is marked `paused` and the pause is logged. */
    method PauseSession() returns (r: Completion)
      requires Valid()
      modifies this, store
      ensures Valid()
      ensures (r, Flags()) == Lifecycle.Pause(old(Flags()))
      ensures currentSession == old(currentSession)
      ensures r.Raised? ==> store.State() == old(store.State())
      ensures r == Done ==> store.State() == StoreModel.LogActivity(
        StoreModel.UpdateBotSession(old(store.State()), currentSession.value.id, StatusUpdate(Paused)).0,
        SessionActivity(ACTIVITY_SESSION_PAUSE, "Bot session paused", currentSession.value.id, None), clock.now).0
    {
      if !isRunning || currentSession.None? {
        return Raised(Lifecycle.NOTHING_TO_PAUSE);
      }
      shouldStop := true;
      var id := currentSession.value.id;
      var _ := store.UpdateBotSession(id, StatusUpdate(Paused));
      ActivityLogger.Log(store, SessionActivity(ACTIVITY_SESSION_PAUSE, "Bot session paused", id, None), clock.now);
      r := Done;
    }

    /** `resumeSession()` up to starting the loop again: the flags follow
        `Lifecycle.Resume`; when accepted the stored session is `running` again. */
    method ResumeSession() returns (r: Completion)
      requires Valid()
      modifies this, store
      ensures Valid()
      ensures (r, Flags()) == Lifecycle.Resume(old(Flags()), old(store.config).Some?)
      ensures currentSession == old(currentSession)
      ensures r.Raised? ==> store.State() == old(store.State())
      ensures r == Done ==> store.State() == StoreModel.LogActivity(
        StoreModel.UpdateBotSession(old(store.State()), currentSession.value.id, StatusUpdate(Running)).0,
        SessionActivity(ACTIVITY_SESSION_RESUME, "Bot session resumed", currentSession.value.id, None), clock.now).0
    {
      if isRunning || currentSession.None? {
        return Raised(Lifecycle.CANNOT_RESUME);
      }
      if store.config.None? {
        return Raised(Lifecycle.NO_CONFIG);
      }
      shouldStop := false;
      isRunning := true;
      var id := currentSession.value.id;
      var _ := store.UpdateBotSession(id, StatusUpdate(Running));
      ActivityLogger.Log(store, SessionActivity(ACTIVITY_SESSION_RESUME, "Bot session resumed", id, None), clock.now);
      r := Done;
    }

    /** `stopSession(reason)`: the flags follow `Lifecycle.Stop`; a current session is
        marked `stopped` and the stop logged; the browser is closed either way. */
    method StopSession(reason: Option<string>)
      requires Valid()
      modifies this, store, driver
      ensures Valid()
      ensures Flags() == Lifecycle.Stop(old(Flags())).1
      ensures !driver.initialized && !driver.loggedIn
      ensures old(currentSession).None? ==> store.State() == old(store.State())
      ensures old(currentSession).Some? ==> store.State() == StopStore(old(store.State()), old(currentSession).value, reason, clock.now)
    {
      shouldStop := true;
      isRunning := false;
      if currentSession.Some? {
        var id := currentSession.value.id;
        var _ := store.UpdateBotSession(id, EndUpdate(Stopped, clock.now));
        ActivityLogger.Log(store, StopActivity(id, reason), clock.now);
      }
      driver.Close();
      currentSession := None;
    }

    method GetStatus() returns (r: ManagerStatus)
      ensures r == ManagerStatus(isRunning, currentSession, Driver.DriverStatus(driver.initialized, driver.loggedIn))
    {
      var d := driver.GetStatus();
      r := ManagerStatus(isRunning, currentSession, d);
    }

    /** `delay(ms)`: `Math.max(1000, ms + r)` for a jitter `r` in `[-2500, 2500)`. */
    method Delay(ms: int)
      modifies clock
      ensures ms + 2500 <= 1000 ==> clock.now == old(clock.now) + 1000
      ensures ms + 2500 > 1000 ==> Seqs.Max(1000, ms - 2500) <= clock.now - old(clock.now) < ms + 2500
    {
      if ms + 2500 <= 1000 {
        clock.Sleep(1000);
      } else {
        var _ := clock.SleepBetween(Seqs.Max(1000, ms - 2500), ms + 2500);
      }
    }

    /** The `try` around one creator: `sendInvite`, then the updates `CreatorStep`
        describes, then the action delay unless the call threw. */
    method ProcessCreator(c: Creator, config: BotConfig, sent: string -> bool) returns (p: Processed)
      requires Valid() && currentSession.Some?
      modifies this, store, clock
      ensures Valid() && currentSession.Some?
      ensures Flags() == old(Flags())
      ensures p.creator == c && p.at == old(clock.now) && clock.now >= old(clock.now)
      ensures p.sent == SendOutcome(driver.checksLogin && !(driver.initialized && driver.loggedIn), sent(c.username))
      ensures (store.State(), currentSession.value) == CreatorStep(old(store.State()), old(currentSession.value), c, p.sent, p.at)
    {
      var now := clock.now;
      var outcome := driver.SendInvite(c.username, sent(c.username));
      Record(c, outcome, now);
      if outcome.Returns? {
        Delay(ActionDelay(config));
      }
      p := Processed(c, outcome, now);
    }

    /** What the `try` writes for one send outcome. */
    method Record(c: Creator, outcome: Attempt<bool>, now: int)
      requires Valid() && currentSession.Some?
      modifies this, store
      ensures Valid() && currentSession.Some?
      ensures Flags() == old(Flags())
      ensures (store.State(), currentSession.value) == CreatorStep(old(store.State()), old(currentSession.value), c, outcome, now)
    {
      var s := currentSession.value;
      CreatorStepEffect(store.State(), s, c, outcome, now);
      match outcome {
        case Returns(true) =>
          var _ := store.UpdateCreator(c.id, SentUpdate(now));
          s := s.(invitesSent := s.invitesSent + 1, successfulInvites := s.successfulInvites + 1);
          var _ := store.UpdateBotSession(s.id, CountersUpdate(s));
          ActivityLogger.Log(store, InviteActivity(s, c), now);
        case Returns(false) =>
          s := s.(errorCount := s.errorCount + 1);
          var _ := store.UpdateBotSession(s.id, ErrorCountUpdate(s));
        case Throws(e) =>
          ActivityLogger.Log(store, CreatorErrorActivity(s, c, e), now);
          s := s.(errorCount := s.errorCount + 1);
          var _ := store.UpdateBotSession(s.id, ErrorCountUpdate(s));
      }
      currentSession := Some(s);
    }

    /** The `for` over one batch: each creator is tried in turn while the stop flag is
        clear; `sent` says for each username whether the page sent the invitation. The
        result lists the creators processed, with what `sendInvite` did and when. */
    method ProcessBatch(creators: seq<Creator>, config: BotConfig, sent: string -> bool) returns (done: seq<Processed>)
      requires Valid() && currentSession.Some?
      modifies this, store, clock
      ensures Valid() && currentSession.Some?
      ensures Flags() == old(Flags())
      ensures !old(shouldStop) ==> |done| == |creators|
      ensures Trace(done, creators, driver.checksLogin && !(driver.initialized && driver.loggedIn), sent, old(clock.now), clock.now)
      ensures (store.State(), currentSession.value) == Batch(old(store.State()), old(currentSession.value), done)
    {
      ghost var refused := driver.checksLogin && !(driver.initialized && driver.loggedIn);
      ghost var st0, s0, t0 := store.State(), currentSession.value, clock.now;
      done := [];
      var i := 0;
      while i < |creators|
        invariant 0 <= i <= |creators| && |done| == i
        invariant Valid() && currentSession.Some? && Flags() == old(Flags())
        invariant t0 <= clock.now
        invariant Trace(done, creators, refused, sent, t0, clock.now)
        invariant (store.State(), currentSession.value) == Batch(st0, s0, done)
      {
        if shouldStop {
          break;
        }
        var p := BatchStep(creators, config, sent, done, st0, s0, t0);
        done := done + [p];
        i := i + 1;
      }
    }

    /** One turn of the `for`: the next creator is processed and the trace grows by it. */
    method BatchStep(creators: seq<Creator>, config: BotConfig, sent: string -> bool, done: seq<Processed>,
                     ghost st0: StoreState, ghost s0: Session, ghost t0: int) returns (p: Processed)
      requires Valid() && currentSession.Some? && |done| < |creators|
      requires t0 <= clock.now
      requires Trace(done, creators, driver.checksLogin && !(driver.initialized && driver.loggedIn), sent, t0, clock.now)
      requires (store.State(), currentSession.value) == Batch(st0, s0, done)
      modifies this, store, clock
      ensures Valid() && currentSession.Some? && Flags() == old(Flags())
      ensures t0 <= clock.now
      ensures Trace(done + [p], creators, driver.checksLogin && !(driver.initialized && driver.loggedIn), sent, t0, clock.now)
      ensures (store.State(), currentSession.value) == Batch(st0, s0, done + [p])
    {
      ghost var mid := clock.now;
      var c := creators[|done|];
      p := ProcessCreator(c, config, sent);
      BatchSnoc(st0, s0, done, p);
      TraceSnoc(done, creators, driver.checksLogin && !(driver.initialized && driver.loggedIn), sent, t0, mid, clock.now, p);
    }

    /** One pass of the `while` in `runInvitationLoop`: the daily limit is checked
        first and stops the session; otherwise up to five creators from
        `getCreatorsForInvitation` are processed. Returns whether the loop breaks. */
    method LoopIteration(config: BotConfig, sent: string -> bool) returns (exit: bool, done: seq<Processed>)
      requires Valid() && Lifecycle.LoopContinues(Flags())
      modifies this, store, driver, clock
      ensures Valid()
      ensures var startOfDay := StartOfDay(old(clock.now));
        && (DailyLimitReached(config, old(store.State()), startOfDay) <==> exit)
        && (exit ==> done == [] && Flags() == Lifecycle.Stop(old(Flags())).1
                     && store.State() == StopStore(old(store.State()), old(currentSession).value, Some("Daily limit reached"), old(clock.now)))
        && (!exit ==> Flags() == old(Flags()))
      ensures !exit ==>
        var batch := StoreModel.CreatorsForInvitation(old(store.State()), BATCH_SIZE, old(clock.now));
        && (batch == [] ==> done == [] && store.State() == StoreModel.LogActivity(old(store.State()),
              SessionActivity(ACTIVITY_INFO, "No eligible creators found for invitation", old(currentSession).value.id, None), old(clock.now)).0)
        && (batch != [] ==>
              && |done| == |batch| && (forall i :: 0 <= i < |done| ==> done[i].creator == batch[i])
              && Trace(done, batch, driver.checksLogin && !(old(driver.initialized) && old(driver.loggedIn)), sent, old(clock.now), clock.now)
              && (store.State(), currentSession.value) == Batch(old(store.State()), old(currentSession).value, done))
      ensures clock.now >= old(clock.now)
      ensures !exit ==> currentSession.Some? && Grew(old(currentSession).value, currentSession.value)
    {
      done := [];
      var now := clock.now;
      var activities := store.GetRecentActivities(1000);
      var startOfDay := StartOfDay(now);
      var todayInvites := Seqs.Count(activities, (a: Activity) => a.kind == ACTIVITY_INVITE_SENT && a.createdAt >= startOfDay);
      if config.dailyLimit.Some? && todayInvites >= config.dailyLimit.value {
        StopSession(Some("Daily limit reached"));
        return true, [];
      }
      var creators := StoreModel.CreatorsForInvitation(store.State(), BATCH_SIZE, now);
      if creators == [] {
        ActivityLogger.Log(store, SessionActivity(ACTIVITY_INFO, "No eligible creators found for invitation", currentSession.value.id, None), now);
        Delay(60000);
        return false, [];
      }
      done := BatchAndWait(creators, config, sent);
      exit := false;
    }

    /** A non-empty batch followed by the `actionDelay` pause. */
    method BatchAndWait(creators: seq<Creator>, config: BotConfig, sent: string -> bool) returns (done: seq<Processed>)
      requires Valid() && currentSession.Some? && !shouldStop && creators != []
      modifies this, store, clock
      ensures Valid() && currentSession.Some? && Flags() == old(Flags())
      ensures |done| == |creators| && clock.now >= old(clock.now)
      ensures Trace(done, creators, driver.checksLogin && !(driver.initialized && driver.loggedIn), sent, old(clock.now), clock.now)
      ensures (store.State(), currentSession.value) == Batch(old(store.State()), old(currentSession.value), done)
      ensures Grew(old(currentSession.value), currentSession.value)
    {
      ghost var st0, s0, t0 := store.State(), currentSession.value, clock.now;
      done := ProcessBatch(creators, config, sent);
      ghost var t1 := clock.now;
      BatchCounters(st0, s0, done);
      Delay(ActionDelay(config));
      TraceLater(done, creators, driver.checksLogin && !(driver.initialized && driver.loggedIn), sent, t0, t1, clock.now);
    }

    /** `runInvitationLoop(config)` for at most `rounds` passes: it runs while
        `isRunning && !shouldStop && currentSession`, and while the session lasts its
        counters never go down. */
    method RunInvitationLoop(config: BotConfig, sent: string -> bool, rounds: nat) returns (passes: nat)
      requires Valid()
      modifies this, store, driver, clock
      ensures Valid()
      ensures passes <= rounds
      ensures passes < rounds ==> !Lifecycle.LoopContinues(Flags())
      ensures currentSession.Some? ==> old(currentSession).Some? && Grew(old(currentSession).value, currentSession.value)
      ensures clock.now >= old(clock.now)
    {
      passes := 0;
      while passes < rounds && isRunning && !shouldStop && currentSession.Some?
        invariant Valid() && passes <= rounds
        invariant currentSession.Some? ==> old(currentSession).Some? && Grew(old(currentSession).value, currentSession.value)
        invariant clock.now >= old(clock.now)
        decreases rounds - passes
      {
        var exit, _ := LoopIteration(config, sent);
        passes := passes + 1;
        if exit {
          break;
        }
      }
    }
  }
}
