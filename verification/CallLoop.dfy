/** The life of one bot in a call, as seen from its poll loop: what a poll reads, how the
    loop moves, and how it can end. Both platform loops are proved to follow this machine. */
module CallLoop {
  import opened Common
  import opened Calls

  const EXIT_OK := 0
  const EXIT_NEVER_ADMITTED := 2
  const EXIT_REMOVED := 3
  const EXIT_JOIN_TIMEOUT := 4
  const EXIT_BOT_ERROR := 5
  const EXIT_SILENT_RECORDING := 7

  const ENDED_CONFIRMATION_POLLS := 3

  /** What makes a join impossible. */
  datatype Obstacle = AntiBotWall | SignInRequired | AuthenticatedOnly | DesktopRequired | PasscodeMissing

  /** Why the loop ended, one name for each text. */
  datatype Reason =
    | StopRequested
    | RecorderFailed
    | Wall(obstacle: Obstacle)
    | WaitingTimeout
    | NotStartedTimeout
    | RemovedNotice
    | EndedNotice
    | RecorderDied
    | MaxDuration
    | LeftAlone
    | RoomEmpty
    | CountUnavailable
    | ControlsGone

  datatype Timeouts = Timeouts(waitingRoom: real, emptyRoom: real, aloneGrace: real, maxRecord: real)

  datatype BotOutcome = BotOutcome(exitCode: int, endReason: Option<EndReason>, reason: Reason, recordingStarted: bool)
  {
    predicate Valid() {
      && (endReason == Some(Removed) ==> exitCode == EXIT_REMOVED)
      && (endReason.Some? && endReason != Some(Removed) ==> exitCode == EXIT_OK)
    }
  }

  /** A loop returns an outcome, or an exception of a page query leaves it. */
  datatype LoopExit = Returned(outcome: BotOutcome) | Raised

  /** How a poll shows that the bot is in the call: by evidence that lets the room be
      counted, by evidence that only keeps the bot in, or not at all. */
  datatype Evidence = InCall | Held | Gone

  /** What the state predicates report about one page. */
  datatype Signs = Signs(
    removed: bool,
    ended: bool,
    admitted: bool,
    wall: Option<Obstacle>,   // why the join is impossible
    notStarted: bool,         // the host has not started the meeting
    evidence: Evidence,
    count: Option<nat>,
    alone: bool)

  /** One iteration: the time, the stop flag, the page, the recorder's child process, and
      which of the calls into the browser raise. */
  datatype Poll<+P> = Poll(
    now: real,
    stop: bool,
    page: P,
    alive: bool,          // the recorder's child still runs
    startOk: bool,        // the recorder would start
    startOrphans: bool,   // a start that fails does so with its child spawned already
    readFault: bool,      // the removal, ended or admission queries raise
    probeFault: bool,     // the wall, participant or leave-control queries raise
    leaveFault: bool,     // leaving the call raises
    waitFault: bool)      // the evidence screenshot's queries or the wait raise

  type Reading = Poll<Signs>

  datatype LoopState = LoopState(
    recording: bool,
    admittedAt: real,
    sawOthers: bool,
    aloneSince: Option<real>,
    unknownSince: Option<real>,
    missed: nat)

  const WAITING := LoopState(false, 0.0, false, None, None, 0)

  datatype Event = StartFailed | RecorderStarted | Announced | LeaveTried | RecorderStopped

  datatype Move = Stay(state: LoopState, events: seq<Event>) | Leave(exit: LoopExit, events: seq<Event>)

  /** Leaves the call, then stops the recorder whether or not leaving raised. */
  function FinishRecording(p: Reading, code: int, endReason: Option<EndReason>, reason: Reason): Move {
    if p.leaveFault then Leave(Raised, [RecorderStopped])
    else Leave(Returned(BotOutcome(code, endReason, reason, true)), [LeaveTried, RecorderStopped])
  }

  /** Stops the recorder without leaving: the page says that the call is over. */
  function StopRecording(code: int, endReason: EndReason, reason: Reason): Move {
    Leave(Returned(BotOutcome(code, Some(endReason), reason, true)), [RecorderStopped])
  }

  function Refused(code: int, reason: Reason): LoopExit {
    Returned(BotOutcome(code, None, reason, false))
  }

  /** The wait at the end of an iteration. */
  function Wait(s: LoopState, p: Reading): Move {
    if p.waitFault then Leave(Raised, []) else Stay(s, [])
  }

  predicate Others(p: Reading) {
    p.page.count.Some? && p.page.count.value >= 2
  }

  /** The admission: the recorder starts and is announced, and the loop goes on without a wait. */
  function AdmitStep(s: LoopState, now: real, startOk: bool): Move {
    if !startOk then Leave(Refused(EXIT_BOT_ERROR, RecorderFailed), [StartFailed])
    else Stay(s.(recording := true, admittedAt := now, unknownSince := Some(now)), [RecorderStarted, Announced])
  }

  function WaitingStep(t: Timeouts, start: real, s: LoopState, p: Reading): Move {
    if p.page.admitted then AdmitStep(s, p.now, p.startOk) else KnockingStep(t, start, s, p)
  }

  function KnockingStep(t: Timeouts, start: real, s: LoopState, p: Reading): Move {
    if p.probeFault then Leave(Raised, [])
    else if p.page.wall.Some? then Leave(Refused(EXIT_BOT_ERROR, Wall(p.page.wall.value)), [])
    else if p.now - start >= t.waitingRoom then
      Leave(Refused(EXIT_NEVER_ADMITTED, if p.page.notStarted then NotStartedTimeout else WaitingTimeout), [])
    else Wait(s, p)
  }

  function RoomStep(t: Timeouts, s: LoopState, p: Reading): Move {
    if Others(p) then
      Wait(s.(missed := 0, sawOthers := true, aloneSince := None, unknownSince := None), p)
    else if p.page.alone then
      if s.sawOthers then
        if s.aloneSince.None? then Wait(s.(missed := 0, aloneSince := Some(p.now)), p)
        else if p.now - s.aloneSince.value >= t.aloneGrace then FinishRecording(p, EXIT_OK, Some(Alone), LeftAlone)
        else Wait(s.(missed := 0), p)
      else if p.now - s.admittedAt >= t.emptyRoom then FinishRecording(p, EXIT_JOIN_TIMEOUT, None, RoomEmpty)
      else Wait(s.(missed := 0, unknownSince := None), p)
    else if s.sawOthers then
      Wait(s.(missed := 0, aloneSince := None, unknownSince := None), p)
    else
      var since := if s.unknownSince.Some? then s.unknownSince.value else p.now;
      if p.now - since >= t.emptyRoom then FinishRecording(p, EXIT_BOT_ERROR, None, CountUnavailable)
      else Wait(s.(missed := 0, unknownSince := Some(since)), p)
  }

  /** What ends the call before the evidence is looked at. */
  function OverStep(t: Timeouts, s: LoopState, p: Reading): Option<Move> {
    if p.page.removed then Some(StopRecording(EXIT_REMOVED, Removed, RemovedNotice))
    else if p.page.ended then Some(StopRecording(EXIT_OK, CallEnded, EndedNotice))
    else if !p.alive then Some(FinishRecording(p, EXIT_BOT_ERROR, None, RecorderDied))
    else if p.now - s.admittedAt >= t.maxRecord then Some(FinishRecording(p, EXIT_OK, Some(GiveUp), MaxDuration))
    else if p.probeFault then Some(Leave(Raised, []))
    else None
  }

  function EvidenceStep(t: Timeouts, s: LoopState, p: Reading): Move {
    match p.page.evidence
    case InCall => RoomStep(t, s, p)
    case Held => Wait(s.(missed := 0), p)
    case Gone =>
      if s.missed + 1 >= ENDED_CONFIRMATION_POLLS then StopRecording(EXIT_OK, CallEnded, ControlsGone)
      else Wait(s.(missed := s.missed + 1), p)
  }

  function InCallStep(t: Timeouts, s: LoopState, p: Reading): Move {
    match OverStep(t, s, p)
    case Some(move) => move
    case None => EvidenceStep(t, s, p)
  }

  function Step(t: Timeouts, start: real, s: LoopState, p: Reading): Move {
    if p.stop then
      if s.recording then FinishRecording(p, EXIT_OK, None, StopRequested)
      else Leave(Refused(EXIT_OK, StopRequested), [])
    else if p.readFault then Leave(Raised, [])
    else if !s.recording then WaitingStep(t, start, s, p)
    else InCallStep(t, s, p)
  }

  // Whole traces

  /** The loop's state after `n` polls of the trace; None when it has ended before. */
  function After(t: Timeouts, start: real, ts: seq<Reading>, n: nat): Option<LoopState>
    requires n <= |ts|
  {
    if n == 0 then Some(WAITING)
    else
      match After(t, start, ts, n - 1)
      case None => None
      case Some(s) =>
        var m := Step(t, start, s, ts[n - 1]);
        if m.Stay? then Some(m.state) else None
  }

  /** The loop reaches poll `k` and ends there. */
  predicate EndsAt(t: Timeouts, start: real, ts: seq<Reading>, k: nat, exit: LoopExit) {
    && k < |ts|
    && var s := After(t, start, ts, k);
       s.Some? && var m := Step(t, start, s.value, ts[k]); m.Leave? && m.exit == exit
  }

  /** Everything the loop has done to the recorder and the call in its first `n` polls. */
  function Log(t: Timeouts, start: real, ts: seq<Reading>, n: nat): seq<Event>
    requires n <= |ts|
  {
    if n == 0 then []
    else
      Log(t, start, ts, n - 1) +
      match After(t, start, ts, n - 1)
      case None => []
      case Some(s) => Step(t, start, s, ts[n - 1]).events
  }

  /** One more poll: the log grows by what the step did, and the loop goes on or ends. */
  lemma OnePollMore(t: Timeouts, start: real, ts: seq<Reading>, n: nat, s: LoopState, m: Move)
    requires n < |ts| && After(t, start, ts, n) == Some(s) && m == Step(t, start, s, ts[n])
    ensures Log(t, start, ts, n + 1) == Log(t, start, ts, n) + m.events
    ensures m.Stay? ==> After(t, start, ts, n + 1) == Some(m.state)
    ensures m.Leave? ==> EndsAt(t, start, ts, n, m.exit)
  {
  }

  /** A trace ends at most once. */
  lemma {:induction false} EndedStaysEnded(t: Timeouts, start: real, ts: seq<Reading>, i: nat, j: nat)
    requires i <= j <= |ts| && After(t, start, ts, i).None?
    ensures After(t, start, ts, j).None?
  {
    if i < j {
      EndedStaysEnded(t, start, ts, i, j - 1);
    }
  }

  lemma EndsOnce(t: Timeouts, start: real, ts: seq<Reading>, i: nat, e: LoopExit, j: nat, f: LoopExit)
    requires EndsAt(t, start, ts, i, e) && EndsAt(t, start, ts, j, f)
    ensures i == j && e == f
  {
    if i < j {
      EndedStaysEnded(t, start, ts, i + 1, j);
    } else if j < i {
      EndedStaysEnded(t, start, ts, j + 1, i);
    }
  }
}
