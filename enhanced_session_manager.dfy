/** `EnhancedSessionManager` of server/bot/enhanced-session-manager.ts: the session
    manager that paces its actions, stamps metadata on every record it writes and picks
    creators by score. */
module EnhancedSessionManager {
  import opened Wrappers
  import opened Schema
  import opened Json
  import opened StoreModel
  import Storage
  import Driver
  import Clock
  import Lifecycle
  import ActivityLogger
  import MetadataManager
  import CreatorFilter
  import SessionManager

  // ---------------------------------------------------------------- what the store receives

  /** The row `startSession` inserts: initializing, started now, counters at zero, and
      the initial metadata (which the in-memory store does not keep). */
  function StartInsert(config: BotConfig, now: int): InsertSession {
    InsertSession(Some(Initializing), Some(now), None, Some(0), Some(0), Some(0), Some(config),
      Some(MetadataManager.CreateInitialSessionMetadata(now)))
  }

  function StartActivity(sessionId: nat, config: BotConfig, now: int): InsertActivity {
    SessionManager.SessionActivity(ACTIVITY_SESSION_START, "Enhanced bot session started with human-like behavior", sessionId,
      Some(MetadataManager.CreateActivityMetadata(map["config" := ConfigJson(config), "enhanced" := JBool(true)], now)))
  }

  /** The error a start ends with: a failed launch, a throwing login, or a login that
      returned `false`. */
  function BrowserError(launch: Option<Thrown>, login: Attempt<bool>): Option<Thrown> {
    if launch.Some? then launch
    else if login.Throws? then Some(login.error)
    else if login == Returns(false) then Some(Failure("Login failed"))
    else None
  }

  /** The row update after a failed start. */
  function FailedUpdate(e: Thrown, now: int): SessionUpdate {
    SessionUpdate(Some(Error), Some(now), None, None, None, Some(MetadataManager.CreateErrorMetadata(e, now)))
  }

  /** The store after an accepted `startSession`: the session is `running` once the
      login succeeded, and `error` otherwise. */
  function StartStore(st: StoreState, config: BotConfig, now: int, browserError: Option<Thrown>): StoreState {
    var (st2, s) := OpenStore(st, config, now);
    StoreModel.UpdateBotSession(st2, s.id, StartOutcome(browserError, now)).0
  }

  /** `StartStore` step by step: the session is created `initializing`, the start is
      logged, then the row gets its outcome. */
  lemma StartStoreSteps(st: StoreState, config: BotConfig, now: int, browserError: Option<Thrown>)
    ensures var (st1, s) := StoreModel.CreateBotSession(st, StartInsert(config, now), now);
      && s.status == Initializing
      && StartStore(st, config, now, browserError) == StoreModel.UpdateBotSession(
           StoreModel.LogActivity(st1, StartActivity(s.id, config, now), now).0, s.id, StartOutcome(browserError, now)).0
  {
  }

  /** The session row and the start activity, written before the browser is touched. */
  function OpenStore(st: StoreState, config: BotConfig, now: int): (StoreState, Session) {
    var (st1, s) := StoreModel.CreateBotSession(st, StartInsert(config, now), now);
    (StoreModel.LogActivity(st1, StartActivity(s.id, config, now), now).0, s)
  }

  /** The row update that ends a start: `running`, or `error` with the error's metadata. */
  function StartOutcome(browserError: Option<Thrown>, now: int): SessionUpdate {
    if browserError.Some? then FailedUpdate(browserError.value, now) else SessionManager.StatusUpdate(Running)
  }

  /** `this.currentSession.startTime || new Date()` */
  function StartOr(s: Session, now: int): int {
    if s.startTime.Some? then s.startTime.value else now
  }

  function PauseUpdate(s: Session, now: int): SessionUpdate {
    SessionUpdate(Some(Paused), None, None, None, None, Some(MetadataManager.CreateSessionPauseMetadata(StartOr(s, now), now)))
  }

  function PauseActivity(s: Session, now: int): InsertActivity {
    SessionManager.SessionActivity(ACTIVITY_SESSION_PAUSE, "Bot session paused", s.id,
      Some(MetadataManager.CreateActivityMetadata(
        map["sessionDuration" := JNum(MetadataManager.SessionDuration(StartOr(s, now), now))], now)))
  }

  function ResumeUpdate(now: int): SessionUpdate {
    SessionUpdate(Some(Running), None, None, None, None, Some(MetadataManager.CreateSessionResumeMetadata(now)))
  }

  function ResumeActivity(sessionId: nat, now: int): InsertActivity {
    SessionManager.SessionActivity(ACTIVITY_SESSION_RESUME, "Bot session resumed", sessionId,
      Some(MetadataManager.CreateActivityMetadata(map["timestamp" := JDate(now)], now)))
  }

  function StopUpdate(s: Session, reason: Option<string>, now: int): SessionUpdate {
    SessionUpdate(Some(Stopped), Some(now), None, None, None,
      Some(MetadataManager.CreateSessionStopMetadata(StartOr(s, now), reason, SessionStats(s), now)))
  }

  function StopActivity(s: Session, reason: Option<string>, now: int): InsertActivity {
    var data := (if reason.Some? then map["reason" := JStr(reason.value)] else map[])
      + map["stats" := MetadataManager.StatsObject(SessionStats(s)),
            "sessionDuration" := JNum(MetadataManager.SessionDuration(StartOr(s, now), now))];
    SessionManager.SessionActivity(ACTIVITY_SESSION_STOP,
      if reason.Some? && reason.value != "" then reason.value else "Bot session stopped", s.id,
      Some(MetadataManager.CreateActivityMetadata(data, now)))
  }

  /** The store after `stopSession(reason)` with a current session. */
  function StopStore(st: StoreState, s: Session, reason: Option<string>, now: int): StoreState {
    var st1 := StoreModel.UpdateBotSession(st, s.id, StopUpdate(s, reason, now)).0;
    StoreModel.LogActivity(st1, StopActivity(s, reason, now), now).0
  }

  // ---------------------------------------------------------------- one creator

  function SentUpdate(s: Session, now: int): CreatorUpdate {
    CreatorUpdate(None, None, Some(now), Some(Sent),
      Some(MetadataManager.CreateCreatorMetadata(map["sessionId" := JNum(s.id)], now)))
  }

  /** `logCreatorSuccess(creator)`; the pacing delay has just set `lastActionTime` to
      now, so the time since the last action reads 0. */
  function SuccessActivity(s: Session, c: Creator, now: int): InsertActivity {
    InsertActivity(ACTIVITY_INVITE_SENT, "Successfully sent invitation to " + c.username,
      Some(MetadataManager.CreateActivityMetadata(
        CreatorSummaryJson(c)["timing" := JObj(map["timeSinceLastAction" := JNum(0)])], now)),
      Some(s.id), Some(c.id))
  }

  function CreatorErrorActivity(s: Session, c: Creator, e: Thrown, now: int): InsertActivity {
    InsertActivity(ACTIVITY_ERROR, "Error processing creator " + c.username,
      Some(MetadataManager.CreateErrorMetadata(e, now)), Some(s.id), Some(c.id))
  }

  /** The store and the in-memory session after one creator: `processCreator` on
      success, nothing on `false`, `handleCreatorError` on a throw. */
  function CreatorStep(st: StoreState, s: Session, c: Creator, sent: Attempt<bool>, now: int): (StoreState, Session) {
    match sent
    case Returns(true) =>
      var st1 := StoreModel.UpdateCreator(st, c.id, SentUpdate(s, now)).0;
      var s1 := s.(invitesSent := s.invitesSent + 1, successfulInvites := s.successfulInvites + 1);
      var st2 := StoreModel.UpdateBotSession(st1, s.id, SessionManager.CountersUpdate(s1)).0;
      (StoreModel.LogActivity(st2, SuccessActivity(s1, c, now), now).0, s1)
    case Returns(false) => (st, s)
    case Throws(e) =>
      var st1 := StoreModel.LogActivity(st, CreatorErrorActivity(s, c, e, now), now).0;
      var s1 := s.(errorCount := s.errorCount + 1);
      (StoreModel.UpdateBotSession(st1, s.id, SessionManager.ErrorCountUpdate(s1)).0, s1)
  }

  function Batch(st: StoreState, s: Session, done: seq<SessionManager.Processed>): (StoreState, Session) {
    if done == [] then (st, s)
    else
      var (st1, s1) := Batch(st, s, done[..|done| - 1]);
      var p := done[|done| - 1];
      CreatorStep(st1, s1, p.creator, p.sent, p.at)
  }

  lemma BatchSnoc(st: StoreState, s: Session, prev: seq<SessionManager.Processed>, p: SessionManager.Processed)
    ensures Batch(st, s, prev + [p]) == CreatorStep(Batch(st, s, prev).0, Batch(st, s, prev).1, p.creator, p.sent, p.at)
  {
    assert (prev + [p])[..|prev|] == prev;
  }

  /** How many processed creators threw. */
  function ThrowCount(done: seq<SessionManager.Processed>): (r: nat)
    ensures r <= |done|
  {
    if done == [] then 0 else ThrowCount(done[..|done| - 1]) + (if done[|done| - 1].sent.Throws? then 1 else 0)
  }

  /** A sent invitation marks the creator `sent` with fresh metadata, adds one to
      `invitesSent` and `successfulInvites`, and logs one `invite_sent` activity. */
  lemma SentStepEffect(st: StoreState, s: Session, c: Creator, now: int)
    requires WellFormed(st) && SessionManager.InSync(st, s)
    ensures var (st1, s1) := CreatorStep(st, s, c, Returns(true), now);
      && WellFormed(st1) && SessionManager.InSync(st1, s1)
      && s1 == s.(invitesSent := s.invitesSent + 1, successfulInvites := s.successfulInvites + 1)
      && (c.id in st.creators ==>
            && st1.creators[c.id].inviteStatus == Some(Sent) && st1.creators[c.id].lastInvited == Some(now)
            && st1.creators[c.id].metadata == Some(MetadataManager.CreateCreatorMetadata(map["sessionId" := JNum(s.id)], now)))
      && st1.lastActivityId == st.lastActivityId + 1
      && st1.activities[st1.lastActivityId].kind == ACTIVITY_INVITE_SENT
      && (forall id | id in st.creators && id != c.id :: id in st1.creators && st1.creators[id] == st.creators[id])
  {
    var st1 := StoreModel.UpdateCreator(st, c.id, SentUpdate(s, now)).0;
    var s1 := s.(invitesSent := s.invitesSent + 1, successfulInvites := s.successfulInvites + 1);
    SentCreatorPart(st, s, c, now);
    SentCountersPart(st1, s, s1, c, now);
  }

  /** The creator half of a sent invitation: only that creator changes. */
  lemma SentCreatorPart(st: StoreState, s: Session, c: Creator, now: int)
    requires WellFormed(st) && SessionManager.InSync(st, s)
    ensures var st1 := StoreModel.UpdateCreator(st, c.id, SentUpdate(s, now)).0;
      && WellFormed(st1) && SessionManager.InSync(st1, s)
      && st1.lastActivityId == st.lastActivityId
      && (c.id in st.creators ==>
            && st1.creators[c.id].inviteStatus == Some(Sent) && st1.creators[c.id].lastInvited == Some(now)
            && st1.creators[c.id].metadata == Some(MetadataManager.CreateCreatorMetadata(map["sessionId" := JNum(s.id)], now)))
      && (forall id | id in st.creators && id != c.id :: id in st1.creators && st1.creators[id] == st.creators[id])
  {
  }

  /** The session and log half of a sent invitation: the creators stay as they are. */
  lemma SentCountersPart(st1: StoreState, s: Session, s1: Session, c: Creator, now: int)
    requires WellFormed(st1) && SessionManager.InSync(st1, s)
    requires s1 == s.(invitesSent := s.invitesSent + 1, successfulInvites := s.successfulInvites + 1)
    ensures var st2 := StoreModel.UpdateBotSession(st1, s.id, SessionManager.CountersUpdate(s1)).0;
      var st3 := StoreModel.LogActivity(st2, SuccessActivity(s1, c, now), now).0;
      && WellFormed(st3) && SessionManager.InSync(st3, s1) && st3.creators == st1.creators
      && st3.lastActivityId == st1.lastActivityId + 1
      && st3.activities[st3.lastActivityId].kind == ACTIVITY_INVITE_SENT
  {
    var st2 := StoreModel.UpdateBotSession(st1, s.id, SessionManager.CountersUpdate(s1)).0;
    SessionManager.WriteBackKeepsSync(st1, s1, SessionManager.CountersUpdate(s1));
    SessionManager.LogKeepsSync(st2, s1, SuccessActivity(s1, c, now), now);
  }

  /** A throw logs one `error` activity and adds one to `errorCount` only. */
  lemma ErrorStepEffect(st: StoreState, s: Session, c: Creator, e: Thrown, now: int)
    requires WellFormed(st) && SessionManager.InSync(st, s)
    ensures var (st1, s1) := CreatorStep(st, s, c, Throws(e), now);
      && WellFormed(st1) && SessionManager.InSync(st1, s1)
      && s1 == s.(errorCount := s.errorCount + 1) && st1.creators == st.creators
      && st1.lastActivityId == st.lastActivityId + 1
      && st1.activities[st1.lastActivityId].kind == ACTIVITY_ERROR
  {
    var st1 := StoreModel.LogActivity(st, CreatorErrorActivity(s, c, e, now), now).0;
    assert WellFormed(st1) && SessionManager.InSync(st1, s) && st1.creators == st.creators;
  }

  /** One creator: a sent invitation counts as a success, a `false` changes nothing at
      all, a throw counts as an error. */
  lemma CreatorStepEffect(st: StoreState, s: Session, c: Creator, sent: Attempt<bool>, now: int)
    requires WellFormed(st) && SessionManager.InSync(st, s)
    ensures var (st1, s1) := CreatorStep(st, s, c, sent, now);
      && WellFormed(st1) && SessionManager.InSync(st1, s1) && s1.id == s.id
      && (sent == Returns(true) ==> s1 == s.(invitesSent := s.invitesSent + 1, successfulInvites := s.successfulInvites + 1))
      && (sent == Returns(false) ==> st1 == st && s1 == s)
      && (sent.Throws? ==> s1 == s.(errorCount := s.errorCount + 1) && st1.creators == st.creators)
  {
    match sent
    case Returns(true) => SentStepEffect(st, s, c, now);
    case Returns(false) =>
    case Throws(e) => ErrorStepEffect(st, s, c, e, now);
  }

  /** A batch: the invitation counters grow by the invitations sent and `errorCount`
      by the creators that threw; a refused send counts nowhere. */
  lemma {:induction false} BatchCounters(st: StoreState, s: Session, done: seq<SessionManager.Processed>)
    requires WellFormed(st) && SessionManager.InSync(st, s)
    ensures var (st1, s1) := Batch(st, s, done);
      && WellFormed(st1) && SessionManager.InSync(st1, s1)
      && s1.invitesSent == s.invitesSent + SessionManager.Successes(done)
      && s1.successfulInvites == s.successfulInvites + SessionManager.Successes(done)
      && s1.errorCount == s.errorCount + ThrowCount(done)
      && SessionManager.Grew(s, s1)
  {
    if done != [] {
      var init := done[..|done| - 1];
      BatchCounters(st, s, init);
      var (st1, s1) := Batch(st, s, init);
      var p := done[|done| - 1];
      CreatorStepEffect(st1, s1, p.creator, p.sent, p.at);
    }
  }

  /** `getStatus()` */
  datatype ManagerStatus = ManagerStatus(
    isRunning: bool,
    currentSession: Option<Session>,
    puppeteer: Driver.DriverStatus,
    lastActionTime: int,
    timeSinceLastAction: int)

  // ---------------------------------------------------------------- the manager

  class EnhancedSessionManager {
    const store: Storage.MemStorage
    const driver: Driver.BrowserDriver
    const clock: Clock.Clock
    var currentSession: Option<Session>
    var isRunning: bool
    var shouldStop: bool
    var lastActionTime: int

    function Flags(): Lifecycle.Flags
      reads this
    {
      Lifecycle.Flags(isRunning, shouldStop, currentSession.Some?)
    }

    /** The store is well formed, the stored session carries the in-memory counters, and
        the last action is never in the future. */
    ghost predicate Valid()
      reads this, store, clock
    {
      && store.Valid()
      && (currentSession.Some? ==> SessionManager.InSync(store.State(), currentSession.value))
      && lastActionTime <= clock.now
    }

    /** `Date.now()` is never before the epoch, where `lastActionTime` starts. */
    constructor (store: Storage.MemStorage, driver: Driver.BrowserDriver, clock: Clock.Clock)
      requires store.Valid() && clock.now >= 0
      ensures Valid() && Flags() == Lifecycle.FRESH && lastActionTime == 0
      ensures this.store == store && this.driver == driver && this.clock == clock
    {
      this.store := store;
      this.driver := driver;
      this.clock := clock;
      currentSession := None;
      isRunning := false;
      shouldStop := false;
      lastActionTime := 0;
    }

    /** `enforceHumanLikeDelay(minDelay, maxDelay)`: waits between the bounds only when
        the last action was less than `minDelay` ago, then records the time. */
    method EnforceHumanLikeDelay(minDelay: int, maxDelay: int)
      requires Valid() && 0 <= minDelay < maxDelay
      modifies this, clock
      ensures Valid()
      ensures old(clock.now) - old(lastActionTime) < minDelay ==> minDelay <= clock.now - old(clock.now) < maxDelay
      ensures old(clock.now) - old(lastActionTime) >= minDelay ==> clock.now == old(clock.now)
      ensures lastActionTime == clock.now && lastActionTime >= old(lastActionTime)
      ensures Flags() == old(Flags()) && currentSession == old(currentSession)
    {
      var now := clock.now;
      if now - lastActionTime < minDelay {
        var _ := clock.SleepBetween(minDelay, maxDelay);
      }
      lastActionTime := clock.now;
    }

    /** `initialize()` then `login()`: the error the start ends with, if any. */
    method OpenBrowser(launch: Option<Thrown>, login: Attempt<bool>) returns (failure: Option<Thrown>)
      modifies driver
      ensures failure == BrowserError(launch, login)
    {
      failure := None;
      var launched := driver.Initialize(launch);
      if launched.Raised? {
        failure := Some(launched.error);
      } else {
        var loggedIn := driver.Login(login);
        if loggedIn.Throws? {
          failure := Some(loggedIn.error);
        } else if !loggedIn.value {
          failure := Some(Failure("Login failed"));
        }
      }
    }

    /** `startSession()`: the flags follow `Lifecycle.Start`; the session is created
        `initializing` and only marked `running` once the login returned true; a failed
        browser step marks it `error` with the error's metadata. */
    method StartSession(launch: Option<Thrown>, login: Attempt<bool>) returns (r: Attempt<Session>)
      requires Valid()
      modifies this, store, driver
      ensures Valid()
      ensures var (done, flags) := Lifecycle.Start(old(Flags()), old(store.config).Some?, BrowserError(launch, login));
        && Flags() == flags
        && (done == Done <==> r.Returns?)
        && (done.Raised? ==> r == Throws(done.error))
      ensures lastActionTime >= old(lastActionTime)
      ensures old(isRunning) || old(store.config).None? ==>
        store.State() == old(store.State()) && currentSession == old(currentSession) && unchanged(driver)
        && lastActionTime == old(lastActionTime)
      ensures !old(isRunning) && old(store.config).Some? ==>
        var created := StoreModel.CreateBotSession(old(store.State()), StartInsert(old(store.config).value, clock.now), clock.now).1;
        && store.State() == StartStore(old(store.State()), old(store.config).value, clock.now, BrowserError(launch, login))
        && currentSession == Some(created) && created.status == Initializing
        && lastActionTime == clock.now
        && (r.Returns? ==> r.value == created)
    {
      if isRunning {
        return Throws(Lifecycle.ALREADY_RUNNING);
      }
      var config := store.config;
      if config.None? {
        return Throws(Lifecycle.NO_CONFIG);
      }
      r := Launch(config.value, launch, login);
    }

    /** The accepted part of `startSession()`, from `createBotSession` to the final
        status update. */
    method Launch(config: BotConfig, launch: Option<Thrown>, login: Attempt<bool>) returns (r: Attempt<Session>)
      requires Valid() && !isRunning
      modifies this, store, driver
      ensures Valid()
      ensures var failure := BrowserError(launch, login);
        var created := StoreModel.CreateBotSession(old(store.State()), StartInsert(config, clock.now), clock.now).1;
        && Flags() == Lifecycle.Start(old(Flags()), true, failure).1
        && r == (if failure.Some? then Throws(failure.value) else Returns(created))
        && store.State() == StartStore(old(store.State()), config, clock.now, failure)
        && currentSession == Some(created) && created.status == Initializing
        && lastActionTime == clock.now
    {
      ghost var f0, st0 := Flags(), store.State();
      var s := Begin(config);
      var failure := OpenBrowser(launch, login);
      FinishStart(s, failure);
      StartStoreSteps(st0, config, clock.now, failure);
      r := if failure.Some? then Throws(failure.value) else Returns(s);
      assert Lifecycle.Start(f0, true, failure).1 == Flags();
    }

    /** The session row, the `session_start` log and the flags `startSession()` sets
        before it touches the browser. */
    method Begin(config: BotConfig) returns (s: Session)
      requires Valid()
      modifies this, store
      ensures Valid()
      ensures s == StoreModel.CreateBotSession(old(store.State()), StartInsert(config, clock.now), clock.now).1
      ensures store.State() == StoreModel.LogActivity(
        StoreModel.CreateBotSession(old(store.State()), StartInsert(config, clock.now), clock.now).0,
        StartActivity(s.id, config, clock.now), clock.now).0
      ensures currentSession == Some(s) && isRunning && !shouldStop && lastActionTime == clock.now
    {
      s := OpenSession(config, clock.now);
      MarkRunning(s);
    }

    /** `createBotSession` and the `session_start` log. */
    method OpenSession(config: BotConfig, now: int) returns (s: Session)
      requires store.Valid()
      modifies store
      ensures store.Valid() && SessionManager.InSync(store.State(), s)
      ensures s == StoreModel.CreateBotSession(old(store.State()), StartInsert(config, now), now).1
      ensures store.State() == StoreModel.LogActivity(
        StoreModel.CreateBotSession(old(store.State()), StartInsert(config, now), now).0, StartActivity(s.id, config, now), now).0
    {
      s := store.CreateBotSession(StartInsert(config, now), now);
      SessionManager.LogKeepsSync(store.State(), s, StartActivity(s.id, config, now), now);
      ActivityLogger.Log(store, StartActivity(s.id, config, now), now);
    }

    /** The flags of a started session; the pacing starts from now. */
    method MarkRunning(s: Session)
      requires store.Valid() && SessionManager.InSync(store.State(), s)
      modifies this
      ensures Valid()
      ensures currentSession == Some(s) && isRunning && !shouldStop && lastActionTime == clock.now
    {
      currentSession := Some(s);
      isRunning := true;
      shouldStop := false;
      lastActionTime := clock.now;
    }

    /** The end of `startSession()`: the stored session becomes `running`, or `error`
        with the manager no longer running. */
    method FinishStart(s: Session, failure: Option<Thrown>)
      requires Valid() && currentSession == Some(s) && isRunning
      modifies this, store
      ensures Valid() && currentSession == Some(s)
      ensures isRunning == failure.None? && shouldStop == old(shouldStop) && lastActionTime == old(lastActionTime)
      ensures store.State() == StoreModel.UpdateBotSession(old(store.State()), s.id, StartOutcome(failure, clock.now)).0
    {
      if failure.Some? {
        isRunning := false;
      }
      var _ := store.UpdateBotSession(s.id, StartOutcome(failure, clock.now));
    }

    /** `pauseSession()`: the flags follow `Lifecycle.Pause`; when accepted the stored
        session is `paused` with pause metadata. */
    method PauseSession() returns (r: Completion)
      requires Valid()
      modifies this, store
      ensures Valid()
      ensures (r, Flags()) == Lifecycle.Pause(old(Flags()))
      ensures currentSession == old(currentSession) && lastActionTime == old(lastActionTime)
      ensures r.Raised? ==> store.State() == old(store.State())
      ensures r == Done ==> store.State() == StoreModel.LogActivity(
        StoreModel.UpdateBotSession(old(store.State()), currentSession.value.id, PauseUpdate(currentSession.value, clock.now)).0,
        PauseActivity(currentSession.value, clock.now), clock.now).0
    {
      if !isRunning || currentSession.None? {
        return Raised(Lifecycle.NOTHING_TO_PAUSE);
      }
      shouldStop := true;
      var s := currentSession.value;
      var _ := store.UpdateBotSession(s.id, PauseUpdate(s, clock.now));
      ActivityLogger.Log(store, PauseActivity(s, clock.now), clock.now);
      r := Done;
    }

    /** `resumeSession()` up to starting the loop again: the flags follow
        `Lifecycle.Resume`; when accepted the pacing restarts from now. */
    method ResumeSession() returns (r: Completion)
      requires Valid()
      modifies this, store
      ensures Valid()
      ensures (r, Flags()) == Lifecycle.Resume(old(Flags()), old(store.config).Some?)
      ensures currentSession == old(currentSession)
      ensures r.Raised? ==> store.State() == old(store.State()) && lastActionTime == old(lastActionTime)
      ensures r == Done ==> lastActionTime == clock.now && store.State() == StoreModel.LogActivity(
        StoreModel.UpdateBotSession(old(store.State()), currentSession.value.id, ResumeUpdate(clock.now)).0,
        ResumeActivity(currentSession.value.id, clock.now), clock.now).0
      ensures lastActionTime >= old(lastActionTime)
    {
      if isRunning || currentSession.None? {
        return Raised(Lifecycle.CANNOT_RESUME);
      }
      if store.config.None? {
        return Raised(Lifecycle.NO_CONFIG);
      }
      shouldStop := false;
      isRunning := true;
      lastActionTime := clock.now;
      var id := currentSession.value.id;
      var _ := store.UpdateBotSession(id, ResumeUpdate(clock.now));
      ActivityLogger.Log(store, ResumeActivity(id, clock.now), clock.now);
      r := Done;
    }

    /** `stopSession(reason)`: the flags follow `Lifecycle.Stop`; the stats are taken
        from the session before it is updated, and the session is cleared afterwards. */
    method StopSession(reason: Option<string>)
      requires Valid()
      modifies this, store, driver
      ensures Valid()
      ensures Flags() == Lifecycle.Stop(old(Flags())).1 && lastActionTime == old(lastActionTime)
      ensures !driver.initialized && !driver.loggedIn
      ensures old(currentSession).None? ==> store.State() == old(store.State())
      ensures old(currentSession).Some? ==> store.State() == StopStore(old(store.State()), old(currentSession).value, reason, clock.now)
    {
      shouldStop := true;
      isRunning := false;
      if currentSession.Some? {
        var s := currentSession.value;
        var _ := store.UpdateBotSession(s.id, StopUpdate(s, reason, clock.now));
        ActivityLogger.Log(store, StopActivity(s, reason, clock.now), clock.now);
      }
      driver.Close();
      currentSession := None;
    }

    /** `getStatus()` reads and changes nothing. */
    method GetStatus() returns (r: ManagerStatus)
      ensures r == ManagerStatus(isRunning, currentSession, Driver.DriverStatus(driver.initialized, driver.loggedIn),
                                 lastActionTime, clock.now - lastActionTime)
    {
      var d := driver.GetStatus();
      r := ManagerStatus(isRunning, currentSession, d, lastActionTime, clock.now - lastActionTime);
    }

    /** What `processCreator` and `handleCreatorError` write for one send outcome. */
    method Record(c: Creator, outcome: Attempt<bool>, now: int)
      requires Valid() && currentSession.Some?
      modifies this, store
      ensures Valid() && currentSession.Some?
      ensures Flags() == old(Flags()) && lastActionTime == old(lastActionTime)
      ensures (store.State(), currentSession.value) == CreatorStep(old(store.State()), old(currentSession.value), c, outcome, now)
    {
      var s := currentSession.value;
      match outcome {
        case Returns(true) =>
          SentStepEffect(store.State(), s, c, now);
          var _ := store.UpdateCreator(c.id, SentUpdate(s, now));
          s := s.(invitesSent := s.invitesSent + 1, successfulInvites := s.successfulInvites + 1);
          var _ := store.UpdateBotSession(s.id, SessionManager.CountersUpdate(s));
          ActivityLogger.Log(store, SuccessActivity(s, c, now), now);
        case Returns(false) =>
        case Throws(e) =>
          ErrorStepEffect(store.State(), s, c, e, now);
          ActivityLogger.Log(store, CreatorErrorActivity(s, c, e, now), now);
          s := s.(errorCount := s.errorCount + 1);
          var _ := store.UpdateBotSession(s.id, SessionManager.ErrorCountUpdate(s));
      }
      currentSession := Some(s);
    }

    /** One creator of the batch: the pacing delay, then `processCreator`, with
        `handleCreatorError` and its delay when it throws. */
    method ProcessCreator(c: Creator, sent: string -> bool) returns (p: SessionManager.Processed)
      requires Valid() && currentSession.Some?
      modifies this, store, clock
      ensures Valid() && currentSession.Some?
      ensures Flags() == old(Flags()) && lastActionTime >= old(lastActionTime)
      ensures p.creator == c && old(clock.now) <= p.at <= clock.now
      ensures p.sent == SessionManager.SendOutcome(driver.checksLogin && !(driver.initialized && driver.loggedIn), sent(c.username))
      ensures (store.State(), currentSession.value) == CreatorStep(old(store.State()), old(currentSession.value), c, p.sent, p.at)
    {
      EnforceHumanLikeDelay(45000, 90000);
      var now := clock.now;
      var outcome := driver.SendInvite(c.username, sent(c.username));
      Record(c, outcome, now);
      if outcome.Throws? {
        EnforceHumanLikeDelay(60000, 120000);
      }
      p := SessionManager.Processed(c, outcome, now);
    }

    /** The `for` of `processCreatorBatch`; the stop flag is checked before each creator. */
    method ProcessBatch(creators: seq<Creator>, sent: string -> bool) returns (done: seq<SessionManager.Processed>)
      requires Valid() && currentSession.Some?
      modifies this, store, clock
      ensures Valid() && currentSession.Some?
      ensures Flags() == old(Flags()) && lastActionTime >= old(lastActionTime)
      ensures !old(shouldStop) ==> |done| == |creators|
      ensures SessionManager.Trace(done, creators, driver.checksLogin && !(driver.initialized && driver.loggedIn), sent, old(clock.now), clock.now)
      ensures (store.State(), currentSession.value) == Batch(old(store.State()), old(currentSession.value), done)
    {
      ghost var refused := driver.checksLogin && !(driver.initialized && driver.loggedIn);
      ghost var st0, s0, t0 := store.State(), currentSession.value, clock.now;
      done := [];
      var i := 0;
      while i < |creators|
        invariant 0 <= i <= |creators| && |done| == i
        invariant Valid() && currentSession.Some? && Flags() == old(Flags())
        invariant t0 <= clock.now && lastActionTime >= old(lastActionTime)
        invariant SessionManager.Trace(done, creators, refused, sent, t0, clock.now)
        invariant (store.State(), currentSession.value) == Batch(st0, s0, done)
      {
        if shouldStop {
          break;
        }
        var p := BatchStep(creators, sent, done, st0, s0, t0);
        done := done + [p];
        i := i + 1;
      }
    }

    /** One turn of the `for`: the next creator is processed and the trace grows by it. */
    method BatchStep(creators: seq<Creator>, sent: string -> bool, done: seq<SessionManager.Processed>,
                     ghost st0: StoreState, ghost s0: Session, ghost t0: int) returns (p: SessionManager.Processed)
      requires Valid() && currentSession.Some? && |done| < |creators|
      requires t0 <= clock.now
      requires SessionManager.Trace(done, creators, driver.checksLogin && !(driver.initialized && driver.loggedIn), sent, t0, clock.now)
      requires (store.State(), currentSession.value) == Batch(st0, s0, done)
      modifies this, store, clock
      ensures Valid() && currentSession.Some? && Flags() == old(Flags()) && lastActionTime >= old(lastActionTime)
      ensures t0 <= clock.now
      ensures SessionManager.Trace(done + [p], creators, driver.checksLogin && !(driver.initialized && driver.loggedIn), sent, t0, clock.now)
      ensures (store.State(), currentSession.value) == Batch(st0, s0, done + [p])
    {
      ghost var mid := clock.now;
      var c := creators[|done|];
      p := ProcessCreator(c, sent);
      BatchSnoc(st0, s0, done, p);
      SessionManager.TraceSnoc(done, creators, driver.checksLogin && !(driver.initialized && driver.loggedIn), sent, t0, mid, clock.now, p);
    }

    /** One pass of `runEnhancedInvitationLoop`: the pacing delay, then
        `processCreatorBatch` over `getRecommendedCreators(5)`; a missing configuration
        makes that throw, and `handleLoopError` logs it and backs off. */
    method LoopIteration(sent: string -> bool) returns (done: seq<SessionManager.Processed>)
      requires Valid() && Lifecycle.LoopContinues(Flags())
      modifies this, store, clock
      ensures Valid() && Flags() == old(Flags()) && lastActionTime >= old(lastActionTime)
      ensures currentSession.Some? && SessionManager.Grew(old(currentSession).value, currentSession.value)
      ensures clock.now >= old(clock.now)
      ensures old(store.config).None? ==>
        && done == [] && currentSession == old(currentSession)
        && store.State().creators == old(store.State()).creators
        && store.State().lastActivityId == old(store.State()).lastActivityId + 1
        && store.State().activities[store.State().lastActivityId].kind == ACTIVITY_ERROR
    {
      done := [];
      EnforceHumanLikeDelay(30000, 60000);
      var recommended := CreatorFilter.GetRecommendedCreators(store, 5, clock.now);
      var id := currentSession.value.id;
      match recommended {
        case Err(e) =>
          ActivityLogger.Log(store, SessionManager.SessionActivity(ACTIVITY_ERROR, "Session loop error", id,
            Some(MetadataManager.CreateErrorMetadata(e, clock.now))), clock.now);
          EnforceHumanLikeDelay(180000, 300000);
        case Ok(creators) =>
          if creators == [] {
            ActivityLogger.Log(store, SessionManager.SessionActivity(ACTIVITY_INFO, "No eligible creators found for invitation", id,
              Some(MetadataManager.CreateActivityMetadata(map[], clock.now))), clock.now);
            EnforceHumanLikeDelay(120000, 180000);
          } else {
            ghost var st0, s0 := store.State(), currentSession.value;
            done := ProcessBatch(creators, sent);
            BatchCounters(st0, s0, done);
          }
      }
    }

    /** `runEnhancedInvitationLoop(config)` for at most `rounds` passes; while the
        session lasts its counters never go down, and neither does `lastActionTime`. */
    method RunInvitationLoop(sent: string -> bool, rounds: nat) returns (passes: nat)
      requires Valid()
      modifies this, store, clock
      ensures Valid() && passes <= rounds
      ensures passes < rounds ==> !Lifecycle.LoopContinues(Flags())
      ensures currentSession == None ==> old(currentSession) == None
      ensures currentSession.Some? ==> old(currentSession).Some? && SessionManager.Grew(old(currentSession).value, currentSession.value)
      ensures lastActionTime >= old(lastActionTime)
    {
      passes := 0;
      while passes < rounds && isRunning && !shouldStop && currentSession.Some?
        invariant Valid() && passes <= rounds
        invariant currentSession.Some? <==> old(currentSession).Some?
        invariant currentSession.Some? ==> SessionManager.Grew(old(currentSession).value, currentSession.value)
        invariant lastActionTime >= old(lastActionTime)
        decreases rounds - passes
      {
        var _ := LoopIteration(sent);
        passes := passes + 1;
      }
    }
  }
}
