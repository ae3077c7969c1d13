/** The call-orchestration protocol as a transition system.

    Everything the system holds about one call is one `Call` record: its row, who holds
    the row's lock, how far its coroutine is, its container, scratch WAV and stored
    object, the webhook dispatches that are due, and a history. A step acts on one call,
    or is a sweep's own bookkeeping, intake, time passing, or a crash. One step is one
    session block, or one external effect between two blocks. */
module Orchestration {
  import opened Common
  import opened Transcripts
  import opened Calls
  import opened BotExit

  const STALE_CALL_GRACE := 300
  const PROCESSING_STALE_CUTOFF := 2400
  const SECONDS_PER_DAY := 86400

  datatype Config = Config(
    concurrencyLimit: nat,
    webhookMaxAttempts: nat,
    maxRecordDuration: nat,
    doneRetentionDays: nat,
    failedRetentionDays: nat)
  {
    function RecordingCutoff(): nat {
      maxRecordDuration + STALE_CALL_GRACE
    }

    /** How long a row may rest in a status before the stale sweep takes it. */
    function Cutoff(status: CallStatus): nat {
      if status.Processing? then PROCESSING_STALE_CUTOFF else RecordingCutoff()
    }

    function Window(status: CallStatus): nat {
      SECONDS_PER_DAY * (if status.Done? then doneRetentionDays else failedRetentionDays)
    }
  }

  datatype Verdict = Admit | Refuse(reason: FailureReason)

  /** A row lock that is held from one step to a later one. */
  datatype Holder =
    | Claim(verdict: Verdict, begun: int)                        // poll_once, between snapshot and commit
    | Delivery(begun: int, tries: nat, over: bool, ackedAt: Option<int>) // webhook delivery
    | Reclaim(begun: int)                                        // retention, object deleted, commit due

  /** Where a call's coroutine is. */
  datatype Pc =
    | Started
    | Spawning
    | Streaming(signalled: bool)
    | Exited(code: int, result: Option<EndReason>)
    | Uploading(endReason: EndReason)
    | Sourcing(endReason: EndReason)
    | Transcribing(endReason: EndReason)
    | Finishing(endReason: EndReason, transcript: Transcript)
    | FailingUpload
    | FailingTranscription(detail: string)
    | Scrubbing

  /** What has happened to the call so far. */
  datatype History = History(
    claims: nat,
    claimedAt: int,
    spawns: nat,
    dispatches: nat,
    posts: nat,
    acks: nat,
    terminalAt: Option<int>,
    recorded: bool,
    urlWasSet: bool,
    reclaimedAt: Option<int>)

  datatype Call = Call(
    row: Row,
    lock: Option<Holder>,
    task: Option<Pc>,
    container: bool,
    scratch: bool,
    stored: bool,
    due: nat,           // dispatch_webhook calls that have not read the row yet
    past: History)

  function NewCall(now: int): Call {
    Call(NewRow(now), None, None, false, false, false, 0,
         History(0, 0, 0, 0, 0, 0, None, false, false, None))
  }

  datatype Reply = Accepted | Rejected | Unavailable   // 2xx; other below 500; 5xx or network error

  datatype CallAction =
    | LockForClaim(diskOk: bool)
    | CommitClaim
    | CheckJoinable
    | Spawn(ok: bool)
    | SignalRecording
    | WriteWav
    | StopContainer
    | EndStream(code: int, result: Option<EndReason>)
    | ApplyExit
    | Upload(ok: bool)
    | OpenSource(fault: Option<string>)
    | Transcribe(outcome: Result<Transcript, string>)
    | CommitFailure
    | CommitDone
    | Scrub(ok: bool)
    | BeginDispatch
    | Post(reply: Reply)
    | EndDelivery
    | CommitReclaim
    | SweepAway(reason: FailureReason)   // one id of a stale or orphan sweep
    | DeleteObject                       // one id of a retention sweep

  /** Writes a terminal status and makes the dispatch of this path due. */
  function Close(c: Call, row: Row, now: int): Call {
    c.(row := row, due := c.due + 1, past := c.past.(terminalAt := Some(now)))
  }

  /** The same for the two paths that write the URL and delete the scratch WAV first. */
  function ClosedWithUrl(c: Call, row: Row, now: int): Call {
    c.(row := row, task := Some(Scrubbing), past := c.past.(terminalAt := Some(now), urlWasSet := true))
  }

  // The actions on one call, in the order of its life. Each is None when not enabled.

  /** The check of a claim: too many active calls come before a full disk. */
  function Judge(limit: nat, active: nat, diskOk: bool): Verdict {
    if active > limit then Refuse(ConcurrencyLimit) else if !diskOk then Refuse(DiskFull) else Admit
  }

  /** poll_once, first half: lock a queued row and take the counts. `active` is the number
      of active rows that the snapshot sees, this one included. */
  function LockedForClaim(cfg: Config, c: Call, diskOk: bool, active: nat, now: int): Option<Call> {
    if !c.row.status.Queued? || c.lock.Some? then None
    else Some(c.(lock := Some(Claim(Judge(cfg.concurrencyLimit, active, diskOk), now))))
  }

  /** poll_once, second half: commit the verdict and release the row. The row is stamped with
      the time the transaction began. */
  function ClaimCommitted(c: Call, now: int): Option<Call> {
    match c.lock
    case Some(Claim(Admit, begun)) =>
      (match Transition(c.row, Joining, NO_CHANGES, begun)
       case Ok(row) =>
         Some(c.(row := row, lock := None, task := Some(Started),
                 past := c.past.(claims := c.past.claims + 1, claimedAt := now)))
       case Err(_) => Some(c.(lock := None)))
    case Some(Claim(Refuse(reason), begun)) =>
      (match Transition(c.row, Failed, FailChanges(reason), begun)
       case Ok(row) => Some(Close(c.(lock := None), row, now))
       case Err(_) => Some(c.(lock := None)))
    case _ => None
  }

  function JoinableChecked(c: Call): Option<Call> {
    if c.task != Some(Started) then None
    else Some(c.(task := if c.row.status.Joining? then Some(Spawning) else None))
  }

  function Spawned(c: Call, ok: bool): Option<Call> {
    if c.task != Some(Spawning) then None
    else if ok then
      Some(c.(task := Some(Streaming(false)), container := true, past := c.past.(spawns := c.past.spawns + 1)))
    else
      Some(c.(task := Some(Exited(-1, None))))
  }

  /** The bot's first `recording started` line. */
  function RecordingSignalled(c: Call, now: int): Option<Call> {
    if c.task != Some(Streaming(false)) then None
    else
      match Transition(c.row, Recording, NO_CHANGES, now)
      case Ok(row) => if c.lock.None? then Some(c.(row := row, task := Some(Streaming(true)))) else None
      case Err(_) => Some(c.(task := Some(Streaming(true))))
  }

  function WavWritten(c: Call): Option<Call> {
    if c.container then Some(c.(scratch := true, past := c.past.(recorded := true))) else None
  }

  /** The container ends by itself, or a sweep kills it. */
  function ContainerStopped(c: Call): Option<Call> {
    if c.container then Some(c.(container := false)) else None
  }

  function StreamEnded(c: Call, code: int, result: Option<EndReason>): Option<Call> {
    if c.task.Some? && c.task.value.Streaming? && !c.container then
      Some(c.(task := Some(Exited(code, result))))
    else None
  }

  function ExitApplied(c: Call, now: int): Option<Call> {
    if c.task.None? || !c.task.value.Exited? then None
    else
      match Decide(c.row.status, c.task.value.code, c.task.value.result)
      case Ignore => Some(c.(task := None))
      case ToProcessing(endReason) =>
        (match Transition(c.row, Processing, NO_CHANGES, now)
         case Ok(row) => if c.lock.None? then Some(c.(row := row, task := Some(Uploading(endReason)))) else None
         case Err(_) => Some(c.(task := None)))
      case Fail(reason) =>
        (match Transition(c.row, Failed, FailChanges(reason), now)
         case Ok(row) => if c.lock.None? then Some(Close(c.(task := None), row, now)) else None
         case Err(_) => Some(c.(task := None)))
  }

  function Uploaded(c: Call, ok: bool): Option<Call> {
    if c.task.None? || !c.task.value.Uploading? then None
    else if ok && c.scratch then
      Some(c.(stored := true, task := Some(Sourcing(c.task.value.endReason))))
    else
      Some(c.(task := Some(FailingUpload)))
  }

  function SourceOpened(c: Call, fault: Option<string>): Option<Call> {
    if c.task.None? || !c.task.value.Sourcing? then None
    else
      match fault
      case None => Some(c.(task := Some(Transcribing(c.task.value.endReason))))
      case Some(detail) => Some(c.(task := Some(FailingTranscription(detail))))
  }

  function Transcribed(c: Call, outcome: Result<Transcript, string>): Option<Call> {
    if c.task.None? || !c.task.value.Transcribing? then None
    else
      match outcome
      case Ok(transcript) => Some(c.(task := Some(Finishing(c.task.value.endReason, transcript))))
      case Err(detail) => Some(c.(task := Some(FailingTranscription(detail))))
  }

  function FailureCommitted(c: Call, now: int): Option<Call> {
    match c.task
    case Some(FailingUpload) =>
      (match Transition(c.row, Failed, FailChanges(UploadFailed), now)
       case Ok(row) => if c.lock.None? then Some(Close(c.(task := None), row, now)) else None
       case Err(_) => Some(c.(task := None)))
    case Some(FailingTranscription(detail)) =>
      (match Transition(c.row, Failed, FailChanges(TranscriptionFailed(detail)).(audioUrl := true), now)
       case Ok(row) => if c.lock.None? then Some(ClosedWithUrl(c, row, now)) else None
       case Err(_) => Some(c.(task := None)))
    case _ => None
  }

  function DoneCommitted(c: Call, now: int): Option<Call> {
    match c.task
    case Some(Finishing(endReason, transcript)) =>
      (match Transition(c.row, Done, DoneChanges(endReason, transcript), now)
       case Ok(row) => if c.lock.None? then Some(ClosedWithUrl(c, row, now)) else None
       case Err(_) => Some(c.(task := None)))
    case _ => None
  }

  /** Deletes the scratch WAV, best effort, and goes on to the dispatch. */
  function Scrubbed(c: Call, ok: bool): Option<Call> {
    if c.task != Some(Scrubbing) then None
    else Some(c.(task := None, scratch := c.scratch && !ok, due := c.due + 1))
  }

  function DispatchBegun(cfg: Config, c: Call, now: int): Option<Call> {
    if c.due == 0 then None
    else if c.row.webhookDeliveredAt.Some? || !c.row.status.Terminal() then Some(c.(due := c.due - 1))
    else if c.lock.None? then
      Some(c.(due := c.due - 1,
              lock := Some(Delivery(now, 0, cfg.webhookMaxAttempts == 0, None)),
              past := c.past.(dispatches := c.past.dispatches + 1)))
    else None
  }

  /** One attempt of the delivery loop; the loop is over when the reply ends it or no attempt is left. */
  function Posted(cfg: Config, c: Call, reply: Reply, now: int): Option<Call> {
    match c.lock
    case Some(Delivery(begun, tries, false, ackedAt)) =>
      Some(c.(lock := Some(Delivery(begun, tries + 1, !reply.Unavailable? || tries + 1 >= cfg.webhookMaxAttempts,
                                    if reply.Accepted? then Some(now) else ackedAt)),
              past := c.past.(posts := c.past.posts + 1,
                              acks := c.past.acks + if reply.Accepted? then 1 else 0)))
    case _ => None
  }

  /** Commits the delivery: when its loop is over, or early when an unexpected error ends it. */
  function DeliveryEnded(c: Call): Option<Call> {
    match c.lock
    case Some(Delivery(begun, tries, _, ackedAt)) =>
      Some(c.(lock := None,
              row := c.row.(webhookAttempts := c.row.webhookAttempts + tries,
                            webhookDeliveredAt := ackedAt,
                            updatedAt := if tries > 0 then begun else c.row.updatedAt)))
    case _ => None
  }

  /** Retention, second half: null the URL and release the row. */
  function ReclaimCommitted(c: Call): Option<Call> {
    match c.lock
    case Some(Reclaim(begun)) => Some(c.(lock := None, row := c.row.(audioUrl := false, updatedAt := begun)))
    case _ => None
  }

  /** A stale or orphan sweep fails the call unless it is terminal already. */
  function SweptAside(c: Call, reason: FailureReason, now: int): Option<Call> {
    match Transition(c.row, Failed, FailChanges(reason), now)
    case Ok(row) => if c.lock.None? then Some(Close(c, row, now)) else None
    case Err(_) => Some(c)
  }

  /** Retention, first half: lock the row again and delete the object. Neither the age nor
      the URL is looked at a second time. */
  function ObjectDeleted(c: Call, now: int): Option<Call> {
    if c.lock.Some? then None
    else Some(c.(stored := false, lock := Some(Reclaim(now)), past := c.past.(reclaimedAt := Some(now))))
  }

  function Act(cfg: Config, c: Call, a: CallAction, now: int, active: nat): Option<Call> {
    match a
    case LockForClaim(diskOk) => LockedForClaim(cfg, c, diskOk, active, now)
    case CommitClaim => ClaimCommitted(c, now)
    case CheckJoinable => JoinableChecked(c)
    case Spawn(ok) => Spawned(c, ok)
    case SignalRecording => RecordingSignalled(c, now)
    case WriteWav => WavWritten(c)
    case StopContainer => ContainerStopped(c)
    case EndStream(code, result) => StreamEnded(c, code, result)
    case ApplyExit => ExitApplied(c, now)
    case Upload(ok) => Uploaded(c, ok)
    case OpenSource(fault) => SourceOpened(c, fault)
    case Transcribe(outcome) => Transcribed(c, outcome)
    case CommitFailure => FailureCommitted(c, now)
    case CommitDone => DoneCommitted(c, now)
    case Scrub(ok) => Scrubbed(c, ok)
    case BeginDispatch => DispatchBegun(cfg, c, now)
    case Post(reply) => Posted(cfg, c, reply, now)
    case EndDelivery => DeliveryEnded(c)
    case CommitReclaim => ReclaimCommitted(c)
    case SweepAway(reason) => SweptAside(c, reason, now)
    case DeleteObject => ObjectDeleted(c, now)
  }

  /** Sweeps in progress: each remembers the ids its first query returned. */
  datatype Sweep =
    | Stale(snapshot: int, todo: set<CallId>)
    | Orphan(todo: set<CallId>)
    | Retain(snapshot: int, todo: set<CallId>)

  datatype World = World(
    clock: int,
    calls: map<CallId, Call>,
    intakes: nat,              // API creates past the ceiling check, insert due
    sweeps: map<nat, Sweep>,
    lastSweep: int)            // snapshot time of the newest stale sweep that has completed

  const START := World(0, map[], 0, map[], 0)

  /** What a crash (of one runner, of several, or of the API) takes with it. */
  datatype Wreck = Wreck(
    tasks: set<CallId>, locks: set<CallId>, dispatches: map<CallId, nat>, sweeps: set<nat>, intakes: nat)

  datatype Action =
    | Tick(seconds: nat)
    | CheckIntake
    | InsertCall(id: CallId)
    | OnCall(id: CallId, act: CallAction)
    | SelectStale(n: nat)
    | SelectOrphans(n: nat)
    | SelectExpired(n: nat)
    | SweepCall(n: nat, id: CallId)
    | SkipCall(n: nat, id: CallId)
    | FinishSweep(n: nat)
    | Crash(wreck: Wreck)

  predicate OverdueAt(cfg: Config, row: Row, now: int) {
    row.status.InFlight() && row.updatedAt < now - cfg.Cutoff(row.status)
  }

  predicate ExpiredAt(cfg: Config, row: Row, now: int) {
    row.status.Terminal() && row.audioUrl && row.updatedAt < now - cfg.Window(row.status)
  }

  function ActiveCalls(w: World): set<CallId> {
    set id | id in w.calls && w.calls[id].row.status.Active()
  }

  /** Actions that only a sweep takes on a call. */
  predicate SweepOnly(a: CallAction) {
    a.SweepAway? || a.DeleteObject?
  }

  function CrashCall(c: Call, id: CallId, wreck: Wreck): Call {
    c.(task := if id in wreck.tasks then None else c.task,
       lock := if id in wreck.locks then None else c.lock,
       due := if id in wreck.dispatches && wreck.dispatches[id] <= c.due then wreck.dispatches[id] else c.due)
  }

  function Without(s: Sweep, id: CallId): Sweep {
    match s
    case Stale(snapshot, todo) => Stale(snapshot, todo - {id})
    case Orphan(todo) => Orphan(todo - {id})
    case Retain(snapshot, todo) => Retain(snapshot, todo - {id})
  }

  /** What a sweep does to the next id on its list. */
  function SweepAction(s: Sweep): CallAction {
    match s
    case Stale(_, _) => SweepAway(StaleCall)
    case Orphan(_) => SweepAway(WorkerRestart)
    case Retain(_, _) => DeleteObject
  }

  /** The effect of an action on a call by id. */
  function ActOn(cfg: Config, w: World, id: CallId, a: CallAction): Option<World> {
    if id in w.calls then
      match Act(cfg, w.calls[id], a, w.clock, |ActiveCalls(w)|)
      case Some(c) => Some(w.(calls := w.calls[id := c]))
      case None => None
    else None
  }

  function Next(cfg: Config, w: World, a: Action): Option<World> {
    match a
    case Tick(seconds) => Some(w.(clock := w.clock + seconds))
    case CheckIntake =>
      if |ActiveCalls(w)| >= cfg.concurrencyLimit then None else Some(w.(intakes := w.intakes + 1))
    case InsertCall(id) =>
      if w.intakes > 0 && id !in w.calls then
        Some(w.(intakes := w.intakes - 1, calls := w.calls[id := NewCall(w.clock)]))
      else None
    case OnCall(id, act) =>
      if SweepOnly(act) then None else ActOn(cfg, w, id, act)
    case SelectStale(n) =>
      if n in w.sweeps then None
      else Some(w.(sweeps := w.sweeps[n := Stale(w.clock, set id | id in w.calls && OverdueAt(cfg, w.calls[id].row, w.clock))]))
    case SelectOrphans(n) =>
      if n in w.sweeps then None
      else Some(w.(sweeps := w.sweeps[n := Orphan(set id | id in w.calls && w.calls[id].container)]))
    case SelectExpired(n) =>
      if n in w.sweeps then None
      else Some(w.(sweeps := w.sweeps[n := Retain(w.clock,
        set id | id in w.calls && ExpiredAt(cfg, w.calls[id].row, w.clock) && w.calls[id].lock.None?)]))
    case SweepCall(n, id) =>
      if n in w.sweeps && id in w.sweeps[n].todo then
        match ActOn(cfg, w, id, SweepAction(w.sweeps[n]))
        case Some(w') => Some(w'.(sweeps := w'.sweeps[n := Without(w.sweeps[n], id)]))
        case None => None
      else None
    case SkipCall(n, id) =>
      // Retention only: the row is locked, or the deletion failed and was rolled back.
      if n in w.sweeps && w.sweeps[n].Retain? && id in w.sweeps[n].todo then
        Some(w.(sweeps := w.sweeps[n := Without(w.sweeps[n], id)]))
      else None
    case FinishSweep(n) =>
      if n in w.sweeps && w.sweeps[n].todo == {} then
        Some(w.(sweeps := w.sweeps - {n},
                lastSweep := if w.sweeps[n].Stale? then Max(w.lastSweep, w.sweeps[n].snapshot) else w.lastSweep))
      else None
    case Crash(wreck) =>
      Some(w.(calls := map id | id in w.calls :: CrashCall(w.calls[id], id, wreck),
              sweeps := w.sweeps - wreck.sweeps,
              intakes := if wreck.intakes <= w.intakes then w.intakes - wreck.intakes else 0))
  }

  /** The state after a run of actions from the empty system; None if some action was not enabled. */
  function Exec(cfg: Config, run: seq<Action>): Option<World> {
    if run == [] then Some(START)
    else
      match Exec(cfg, run[..|run| - 1])
      case None => None
      case Some(w) => Next(cfg, w, run[|run| - 1])
  }
}
