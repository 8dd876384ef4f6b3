/** The lifecycle both session managers share (server/bot/session-manager.ts and
    server/bot/enhanced-session-manager.ts): the guards of start, pause, resume and stop
    over the flags `isRunning`, `shouldStop` and whether `currentSession` is set. */
module Lifecycle {
  import opened Wrappers
  import opened Schema

  datatype Flags = Flags(isRunning: bool, shouldStop: bool, hasSession: bool)

  /** A freshly constructed manager. */
  const FRESH: Flags := Flags(false, false, false)

  const ALREADY_RUNNING: Thrown := Failure("Session is already running")
  const NO_CONFIG: Thrown := Failure("Bot configuration not found")
  const NOTHING_TO_PAUSE: Thrown := Failure("No active session to pause")
  const CANNOT_RESUME: Thrown := Failure("Cannot resume session")

  /** `startSession()`: refused while running or without a configuration; otherwise a
      session is created and the manager runs, unless the browser step then fails with
      `browserError`, which leaves the session set and the manager not running. */
  function Start(f: Flags, hasConfig: bool, browserError: Option<Thrown>): (Completion, Flags) {
    if f.isRunning then (Raised(ALREADY_RUNNING), f)
    else if !hasConfig then (Raised(NO_CONFIG), f)
    else if browserError.Some? then (Raised(browserError.value), Flags(false, false, true))
    else (Done, Flags(true, false, true))
  }

  /** `pauseSession()`: asks the loop to stop but leaves the manager running. */
  function Pause(f: Flags): (Completion, Flags) {
    if !f.isRunning || !f.hasSession then (Raised(NOTHING_TO_PAUSE), f)
    else (Done, f.(shouldStop := true))
  }

  /** `resumeSession()`: only a session that is set and not running can resume. */
  function Resume(f: Flags, hasConfig: bool): (Completion, Flags) {
    if f.isRunning || !f.hasSession then (Raised(CANNOT_RESUME), f)
    else if !hasConfig then (Raised(NO_CONFIG), f)
    else (Done, Flags(true, false, true))
  }

  /** `stopSession()`: always succeeds and clears everything. */
  function Stop(f: Flags): (Completion, Flags) {
    (Done, Flags(false, true, false))
  }

  /** The loop condition `isRunning && !shouldStop && currentSession`. */
  predicate LoopContinues(f: Flags) {
    f.isRunning && !f.shouldStop && f.hasSession
  }

  /** An operation on the manager, with what the environment supplies to it. */
  datatype Op = StartOp(hasConfig: bool, browserError: Option<Thrown>) | PauseOp | ResumeOp(hasConfig: bool) | StopOp

  function Step(f: Flags, op: Op): (Completion, Flags) {
    match op
    case StartOp(c, e) => Start(f, c, e)
    case PauseOp => Pause(f)
    case ResumeOp(c) => Resume(f, c)
    case StopOp => Stop(f)
  }

  /** The flags after a sequence of operations, each applied to the previous flags. */
  function Run(f: Flags, ops: seq<Op>): Flags {
    if ops == [] then f else Step(Run(f, ops[..|ops| - 1]), ops[|ops| - 1]).1
  }

  /** A running manager always has a session. */
  predicate Consistent(f: Flags) {
    f.isRunning ==> f.hasSession
  }

  lemma StepKeepsConsistent(f: Flags, op: Op)
    requires Consistent(f)
    ensures Consistent(Step(f, op).1)
  {
  }

  /** Whatever the managers are asked to do, a running manager has a session. */
  lemma {:induction false} RunKeepsConsistent(ops: seq<Op>)
    ensures Consistent(Run(FRESH, ops))
  {
    if ops != [] {
      RunKeepsConsistent(ops[..|ops| - 1]);
      StepKeepsConsistent(Run(FRESH, ops[..|ops| - 1]), ops[|ops| - 1]);
    }
  }

  /** Starting is refused exactly while running, and a refused start changes nothing. */
  lemma StartGuard(f: Flags, hasConfig: bool, browserError: Option<Thrown>)
    ensures f.isRunning ==> Start(f, hasConfig, browserError) == (Raised(ALREADY_RUNNING), f)
    ensures !f.isRunning && !hasConfig ==> Start(f, hasConfig, browserError) == (Raised(NO_CONFIG), f)
    ensures !f.isRunning && hasConfig ==> Start(f, hasConfig, browserError).1.hasSession && !Start(f, hasConfig, browserError).1.shouldStop
    ensures Start(f, hasConfig, browserError).0 == Done <==> !f.isRunning && hasConfig && browserError.None?
  {
  }

  /** A successful pause leaves the manager running with the stop flag set, so the loop
      ends but a resume straight after it is refused. */
  lemma PauseThenResumeRefused(f: Flags, hasConfig: bool)
    requires Pause(f).0 == Done
    ensures Pause(f).1.isRunning && Pause(f).1.shouldStop && !LoopContinues(Pause(f).1)
    ensures Resume(Pause(f).1, hasConfig) == (Raised(CANNOT_RESUME), Pause(f).1)
  {
  }

  /** A start whose browser step fails leaves a session behind that a resume accepts. */
  lemma FailedStartCanResume(f: Flags, e: Thrown)
    requires !f.isRunning
    ensures Start(f, true, Some(e)) == (Raised(e), Flags(false, false, true))
    ensures Resume(Start(f, true, Some(e)).1, true) == (Done, Flags(true, false, true))
  {
  }

  /** Stopping twice is stopping once, and never fails. */
  lemma StopIdempotent(f: Flags)
    ensures Stop(Stop(f).1) == Stop(f)
    ensures Stop(f).0 == Done && !Stop(f).1.isRunning && Stop(f).1.shouldStop && !Stop(f).1.hasSession
  {
  }

  /** Only a start or a resume lets the loop run: after a pause or a stop it ends. */
  lemma LoopRunsOnlyAfterStartOrResume(ops: seq<Op>)
    requires LoopContinues(Run(FRESH, ops))
    ensures ops != [] && (ops[|ops| - 1].StartOp? || ops[|ops| - 1].ResumeOp?)
  {
  }
}
