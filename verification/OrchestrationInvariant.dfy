/** What every reachable state keeps: a local invariant of each call, and the few facts
    that span calls. */
module OrchestrationInvariant {
  import opened Common
  import opened Transcripts
  import opened Calls
  import opened BotExit
  import opened Orchestration

  predicate SweptAway(row: Row) {
    row.status.Failed? && row.failureReason.Some? && row.failureReason.value.BySweep()
  }

  /** The row of a call whose coroutine is past its exit: still processing, unless a sweep took it. */
  predicate ProcessingOrSwept(row: Row) {
    row.status.Processing? || SweptAway(row)
  }

  /** The two endings that write the URL: done, and a transcription that failed after the upload. */
  predicate EndsWithUrl(row: Row) {
    || row.status.Done?
    || (row.status.Failed? && row.failureReason.Some? && row.failureReason.value.TranscriptionFailed?)
  }

  predicate LockOk(c: Call, now: int) {
    match c.lock
    case None => true
    case Some(Claim(Admit, begun)) => c.row.status.Queued? && begun <= now
    case Some(Claim(Refuse(reason), begun)) =>
      c.row.status.Queued? && (reason.ConcurrencyLimit? || reason.DiskFull?) && begun <= now
    case Some(Delivery(begun, _, _, _)) => c.row.status.Terminal() && c.row.updatedAt <= begun <= now
    case Some(Reclaim(begun)) => c.row.status.Terminal() && !c.stored && c.past.urlWasSet && c.row.updatedAt <= begun <= now
  }

  predicate TaskOk(c: Call) {
    match c.task
    case None => true
    case Some(Started) => c.past.spawns == 0 && !c.stored && !c.past.urlWasSet && c.past.claims == 1
    case Some(Spawning) => c.past.spawns == 0 && !c.stored && !c.past.urlWasSet && c.past.claims == 1
    case Some(Streaming(_)) => !c.stored && !c.past.urlWasSet && c.past.claims == 1
    case Some(Exited(_, _)) => !c.container && !c.stored && !c.past.urlWasSet && c.past.claims == 1
    case Some(Uploading(_)) => !c.container && !c.stored && !c.past.urlWasSet && ProcessingOrSwept(c.row)
    case Some(FailingUpload) => !c.container && !c.stored && !c.past.urlWasSet && ProcessingOrSwept(c.row)
    case Some(Scrubbing) => !c.container && c.past.urlWasSet
    case Some(_) => !c.container && c.stored && !c.past.urlWasSet && ProcessingOrSwept(c.row)
  }

  predicate HistoryOk(c: Call) {
    && c.past.spawns <= c.past.claims <= 1
    && (c.row.status.Queued? ==> c.past.claims == 0)
    && (c.row.status.InFlight() || c.row.status.Done? ==> c.past.claims == 1)
    && (c.past.claims == 0 ==> c.task.None?)
    && (c.container || c.past.recorded || c.scratch ==> c.past.spawns == 1)
  }

  /** The dispatches of a call: those due, those begun, and the one that scrubbing leads to. */
  function Dispatches(c: Call): nat {
    c.due + c.past.dispatches + if c.task == Some(Scrubbing) then 1 else 0
  }

  predicate DispatchOk(cfg: Config, c: Call) {
    && Dispatches(c) <= 1
    && (Dispatches(c) > 0 ==> c.row.status.Terminal())
    && (c.past.dispatches == 0 ==> c.past.posts == 0)
    && c.past.posts <= cfg.webhookMaxAttempts
    && c.past.acks <= 1
    && c.row.webhookAttempts <= c.past.posts
    && (c.row.webhookDeliveredAt.Some? || c.past.acks > 0 ==> c.past.dispatches == 1)
    && (c.past.posts == 0 ==> c.past.acks == 0)
    && (match c.lock
        case Some(Delivery(_, tries, over, ackedAt)) =>
          && c.past.dispatches == 1 && c.past.posts == tries && c.row.webhookAttempts == 0 && c.row.webhookDeliveredAt.None?
          && (over || tries < cfg.webhookMaxAttempts)
          && (c.past.acks > 0 ==> over)
        case _ => true)
  }

  predicate AudioOk(cfg: Config, c: Call) {
    && (c.stored ==> c.row.status.Processing? || c.row.audioUrl || SweptAway(c.row))
    && (c.row.audioUrl ==> c.past.urlWasSet)
    && (c.past.urlWasSet <==> EndsWithUrl(c.row))
    && (c.past.urlWasSet && !c.row.audioUrl ==> !c.stored)
    && (c.past.urlWasSet ==> c.stored || c.past.reclaimedAt.Some?)
    && (c.past.recorded ==> c.scratch || c.stored || c.past.reclaimedAt.Some?)
    && (c.past.reclaimedAt.Some? ==>
          && c.past.terminalAt.Some? && c.past.urlWasSet
          && c.past.reclaimedAt.value > c.past.terminalAt.value + cfg.Window(c.row.status))
  }

  /** Since when an in-flight row has its status. A claim is stamped with the beginning of its
      transaction, so a joining row may be older by its stamp. */
  function RestingSince(c: Call): int {
    if c.row.status.Joining? then c.past.claimedAt else c.row.updatedAt
  }

  /** The call has rested past the cutoff of its status. */
  predicate LateAt(cfg: Config, c: Call, now: int) {
    c.row.status.InFlight() && RestingSince(c) < now - cfg.Cutoff(c.row.status)
  }

  predicate TimesOk(c: Call, now: int) {
    && c.row.updatedAt <= now
    && (c.row.status.Terminal() <==> c.past.terminalAt.Some?)
    && (c.past.terminalAt.Some? && c.past.urlWasSet ==> c.past.terminalAt.value <= c.row.updatedAt)
    && (c.past.claims == 1 && !c.row.status.Terminal() ==> c.past.claimedAt <= RestingSince(c) <= now)
    && (c.row.status.InFlight() ==> c.row.updatedAt <= RestingSince(c))
  }

  predicate CallOk(cfg: Config, c: Call, now: int) {
    && WellShaped(c.row)
    && LockOk(c, now)
    && TaskOk(c)
    && HistoryOk(c)
    && DispatchOk(cfg, c)
    && AudioOk(cfg, c)
    && TimesOk(c, now)
  }

  /** What lets a retention sweep delete the object of a call on its list. */
  predicate MayDelete(cfg: Config, c: Call, snapshot: int) {
    && c.past.terminalAt.Some? && c.past.urlWasSet
    && snapshot > c.past.terminalAt.value + cfg.Window(c.row.status)
  }

  lemma LockForClaimOk(cfg: Config, c: Call, now: int, diskOk: bool, active: nat)
    requires CallOk(cfg, c, now)
    ensures var r := LockedForClaim(cfg, c, diskOk, active, now); r.Some? ==> CallOk(cfg, r.value, now)
  {
  }

  lemma CommitClaimOk(cfg: Config, c: Call, now: int)
    requires CallOk(cfg, c, now)
    ensures var r := ClaimCommitted(c, now); r.Some? ==> CallOk(cfg, r.value, now)
  {
  }

  lemma CheckJoinableOk(cfg: Config, c: Call, now: int)
    requires CallOk(cfg, c, now)
    ensures var r := JoinableChecked(c); r.Some? ==> CallOk(cfg, r.value, now)
  {
  }

  lemma SpawnOk(cfg: Config, c: Call, now: int, ok: bool)
    requires CallOk(cfg, c, now)
    ensures var r := Spawned(c, ok); r.Some? ==> CallOk(cfg, r.value, now)
  {
  }

  lemma SignalRecordingOk(cfg: Config, c: Call, now: int)
    requires CallOk(cfg, c, now)
    ensures var r := RecordingSignalled(c, now); r.Some? ==> CallOk(cfg, r.value, now)
  {
  }

  lemma WriteWavOk(cfg: Config, c: Call, now: int)
    requires CallOk(cfg, c, now)
    ensures var r := WavWritten(c); r.Some? ==> CallOk(cfg, r.value, now)
  {
  }

  lemma StopContainerOk(cfg: Config, c: Call, now: int)
    requires CallOk(cfg, c, now)
    ensures var r := ContainerStopped(c); r.Some? ==> CallOk(cfg, r.value, now)
  {
  }

  lemma EndStreamOk(cfg: Config, c: Call, now: int, code: int, result: Option<EndReason>)
    requires CallOk(cfg, c, now)
    ensures var r := StreamEnded(c, code, result); r.Some? ==> CallOk(cfg, r.value, now)
  {
  }

  lemma ApplyExitOk(cfg: Config, c: Call, now: int)
    requires CallOk(cfg, c, now)
    ensures var r := ExitApplied(c, now); r.Some? ==> CallOk(cfg, r.value, now)
  {
    if c.task.Some? && c.task.value.Exited? {
      match Decide(c.row.status, c.task.value.code, c.task.value.result)
      case Ignore =>
      case ToProcessing(endReason) =>
        if c.lock.None? && c.row.status.Recording? {
          ProcessingOk(cfg, c, now, endReason);
        }
      case Fail(reason) =>
        if c.lock.None? && !c.row.status.Terminal() {
          ExitFailureOk(cfg, c, now, reason);
        }
    }
  }

  lemma ProcessingOk(cfg: Config, c: Call, now: int, endReason: EndReason)
    requires CallOk(cfg, c, now) && c.task.Some? && c.task.value.Exited? && c.lock.None?
    requires c.row.status.Recording?
    ensures CallOk(cfg, c.(row := Write(c.row, Processing, NO_CHANGES, now), task := Some(Uploading(endReason))), now)
  {
  }

  lemma ExitFailureOk(cfg: Config, c: Call, now: int, reason: FailureReason)
    requires CallOk(cfg, c, now) && c.task.Some? && c.task.value.Exited? && c.lock.None?
    requires !c.row.status.Terminal() && !reason.TranscriptionFailed?
    ensures CallOk(cfg, Close(c.(task := None), Write(c.row, Failed, FailChanges(reason), now), now), now)
  {
  }

  lemma UploadOk(cfg: Config, c: Call, now: int, ok: bool)
    requires CallOk(cfg, c, now)
    ensures var r := Uploaded(c, ok); r.Some? ==> CallOk(cfg, r.value, now)
  {
  }

  lemma OpenSourceOk(cfg: Config, c: Call, now: int, fault: Option<string>)
    requires CallOk(cfg, c, now)
    ensures var r := SourceOpened(c, fault); r.Some? ==> CallOk(cfg, r.value, now)
  {
  }

  lemma TranscribeOk(cfg: Config, c: Call, now: int, outcome: Result<Transcript, string>)
    requires CallOk(cfg, c, now)
    ensures var r := Transcribed(c, outcome); r.Some? ==> CallOk(cfg, r.value, now)
  {
  }

  lemma CommitFailureOk(cfg: Config, c: Call, now: int)
    requires CallOk(cfg, c, now)
    ensures var r := FailureCommitted(c, now); r.Some? ==> CallOk(cfg, r.value, now)
  {
  }

  lemma CommitDoneOk(cfg: Config, c: Call, now: int)
    requires CallOk(cfg, c, now)
    ensures var r := DoneCommitted(c, now); r.Some? ==> CallOk(cfg, r.value, now)
  {
  }

  lemma ScrubOk(cfg: Config, c: Call, now: int, ok: bool)
    requires CallOk(cfg, c, now)
    ensures var r := Scrubbed(c, ok); r.Some? ==> CallOk(cfg, r.value, now)
  {
  }

  lemma BeginDispatchOk(cfg: Config, c: Call, now: int)
    requires CallOk(cfg, c, now)
    ensures var r := DispatchBegun(cfg, c, now); r.Some? ==> CallOk(cfg, r.value, now)
  {
  }

  lemma PostOk(cfg: Config, c: Call, now: int, reply: Reply)
    requires CallOk(cfg, c, now)
    ensures var r := Posted(cfg, c, reply, now); r.Some? ==> CallOk(cfg, r.value, now)
  {
  }

  lemma EndDeliveryOk(cfg: Config, c: Call, now: int)
    requires CallOk(cfg, c, now)
    ensures var r := DeliveryEnded(c); r.Some? ==> CallOk(cfg, r.value, now)
  {
  }

  lemma CommitReclaimOk(cfg: Config, c: Call, now: int)
    requires CallOk(cfg, c, now)
    ensures var r := ReclaimCommitted(c); r.Some? ==> CallOk(cfg, r.value, now)
  {
  }

  lemma SweepAwayOk(cfg: Config, c: Call, now: int, reason: FailureReason)
    requires CallOk(cfg, c, now) && reason.BySweep()
    ensures var r := SweptAside(c, reason, now); r.Some? ==> CallOk(cfg, r.value, now)
  {
  }

  lemma DeleteObjectOk(cfg: Config, c: Call, now: int)
    requires CallOk(cfg, c, now) && MayDelete(cfg, c, now)
    ensures var r := ObjectDeleted(c, now); r.Some? ==> CallOk(cfg, r.value, now)
  {
  }

  /** The actions up to the bot's exit. */
  predicate UpToExit(a: CallAction) {
    || a.LockForClaim? || a.CommitClaim? || a.CheckJoinable? || a.Spawn? || a.SignalRecording?
    || a.WriteWav? || a.StopContainer? || a.EndStream? || a.ApplyExit?
  }

  /** The actions up to the start of the bot. */
  predicate UpToSpawn(a: CallAction) {
    a.LockForClaim? || a.CommitClaim? || a.CheckJoinable? || a.Spawn?
  }

  /** The actions between the exit and the terminal commit. */
  predicate InPipeline(a: CallAction) {
    a.Upload? || a.OpenSource? || a.Transcribe? || a.CommitFailure? || a.CommitDone? || a.Scrub?
  }

  lemma ActUpToExitKeepsCallOk(cfg: Config, c: Call, a: CallAction, now: int, active: nat)
    requires CallOk(cfg, c, now)
    requires UpToExit(a)
    ensures Act(cfg, c, a, now, active).Some? ==> CallOk(cfg, Act(cfg, c, a, now, active).value, now)
  {
    match a
    case LockForClaim(diskOk) => LockForClaimOk(cfg, c, now, diskOk, active);
    case CommitClaim => CommitClaimOk(cfg, c, now);
    case CheckJoinable => CheckJoinableOk(cfg, c, now);
    case Spawn(ok) => SpawnOk(cfg, c, now, ok);
    case SignalRecording => SignalRecordingOk(cfg, c, now);
    case WriteWav => WriteWavOk(cfg, c, now);
    case StopContainer => StopContainerOk(cfg, c, now);
    case EndStream(code, result) => EndStreamOk(cfg, c, now, code, result);
    case ApplyExit => ApplyExitOk(cfg, c, now);
  }

  /** Every enabled action on a call keeps the call's invariant. */
  lemma ActKeepsCallOk(cfg: Config, c: Call, a: CallAction, now: int, active: nat)
    requires CallOk(cfg, c, now)
    requires a.DeleteObject? ==> MayDelete(cfg, c, now)
    requires a.SweepAway? ==> a.reason.BySweep()
    ensures Act(cfg, c, a, now, active).Some? ==> CallOk(cfg, Act(cfg, c, a, now, active).value, now)
  {
    if UpToExit(a) {
      ActUpToExitKeepsCallOk(cfg, c, a, now, active);
      return;
    }
    match a
    case Upload(ok) => UploadOk(cfg, c, now, ok);
    case OpenSource(fault) => OpenSourceOk(cfg, c, now, fault);
    case Transcribe(outcome) => TranscribeOk(cfg, c, now, outcome);
    case CommitFailure => CommitFailureOk(cfg, c, now);
    case CommitDone => CommitDoneOk(cfg, c, now);
    case Scrub(ok) => ScrubOk(cfg, c, now, ok);
    case BeginDispatch => BeginDispatchOk(cfg, c, now);
    case Post(reply) => PostOk(cfg, c, now, reply);
    case EndDelivery => EndDeliveryOk(cfg, c, now);
    case CommitReclaim => CommitReclaimOk(cfg, c, now);
    case SweepAway(reason) => SweepAwayOk(cfg, c, now, reason);
    case DeleteObject => DeleteObjectOk(cfg, c, now);
  }

  // Facts that span calls

  /** Calls that are in flight, and calls whose claim has passed the ceiling but has not committed. */
  function Occupied(w: World): set<CallId> {
    set id | id in w.calls && Occupies(w.calls[id])
  }

  predicate Occupies(c: Call) {
    c.row.status.InFlight() || (c.lock.Some? && c.lock.value.Claim? && c.lock.value.verdict.Admit?)
  }

  predicate SweepOk(cfg: Config, w: World, s: Sweep) {
    && (!s.Orphan? ==> s.snapshot <= w.clock)
    && (s.Retain? ==> forall id :: id in s.todo ==> id in w.calls && MayDelete(cfg, w.calls[id], s.snapshot))
    && (s.Stale? ==> forall id :: id in w.calls && LateAt(cfg, w.calls[id], s.snapshot) ==> id in s.todo)
  }

  ghost predicate CallsInv(cfg: Config, w: World) {
    forall id :: id in w.calls ==> CallOk(cfg, w.calls[id], w.clock)
  }

  ghost predicate SweepsInv(cfg: Config, w: World) {
    && (forall n :: n in w.sweeps ==> SweepOk(cfg, w, w.sweeps[n]))
    && w.lastSweep <= w.clock
    && (forall id :: id in w.calls ==> !LateAt(cfg, w.calls[id], w.lastSweep))
  }

  ghost predicate Inv(cfg: Config, w: World) {
    && CallsInv(cfg, w)
    && |Occupied(w)| <= cfg.concurrencyLimit
    && SweepsInv(cfg, w)
  }

  /** A call moves on: a terminal call stays as it ended, an in-flight row is fresh or untouched. */
  predicate Onward(c: Call, c': Call, now: int) {
    && (c'.row.status.InFlight() ==> RestingSince(c') == now || (c'.row.status == c.row.status && RestingSince(c') == RestingSince(c)))
    && (c.past.terminalAt.Some? ==> c'.past.terminalAt == c.past.terminalAt && c'.row.status == c.row.status)
    && (c.past.urlWasSet ==> c'.past.urlWasSet)
  }

  lemma ActMovesOn(cfg: Config, c: Call, a: CallAction, now: int, active: nat)
    requires CallOk(cfg, c, now)
    ensures var r := Act(cfg, c, a, now, active); r.Some? ==> Onward(c, r.value, now)
  {
    if UpToExit(a) {
      ActUpToExitMovesOn(cfg, c, a, now, active);
    }
  }

  lemma ActUpToExitMovesOn(cfg: Config, c: Call, a: CallAction, now: int, active: nat)
    requires CallOk(cfg, c, now) && UpToExit(a)
    ensures var r := Act(cfg, c, a, now, active); r.Some? ==> Onward(c, r.value, now)
  {
  }

  /** Only a claim that passes the ceiling check makes a call occupied. */
  lemma OnlyClaimsOccupy(cfg: Config, c: Call, a: CallAction, now: int, active: nat)
    requires CallOk(cfg, c, now)
    ensures var r := Act(cfg, c, a, now, active);
            r.Some? && Occupies(r.value) && !Occupies(c) ==>
              a.LockForClaim? && c.row.status.Active() && active <= cfg.concurrencyLimit
  {
  }

  lemma TimePasses(cfg: Config, c: Call, now: int, later: int)
    requires CallOk(cfg, c, now) && now <= later
    ensures CallOk(cfg, c, later)
  {
  }

  lemma NewCallIsOk(cfg: Config, now: int)
    ensures CallOk(cfg, NewCall(now), now)
  {
  }

  lemma CrashKeepsCallOk(cfg: Config, c: Call, id: CallId, wreck: Wreck, now: int)
    requires CallOk(cfg, c, now)
    ensures CallOk(cfg, CrashCall(c, id, wreck), now)
    ensures Occupies(CrashCall(c, id, wreck)) ==> Occupies(c)
    ensures Onward(c, CrashCall(c, id, wreck), now)
  {
  }
}
