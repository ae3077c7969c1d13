/** What single steps of the protocol decide and record, stated on the rows and in numbers, without
    the protocol's own definitions. */
module OrchestrationPolicy {
  import opened Common
  import opened Calls
  import opened Orchestration
  import opened OrchestrationInvariant
  import opened OrchestrationRuns
  import opened OrchestrationTheorems

  /** A claim locks the oldest free queued row and decides at once: admitted exactly when the active
      calls, itself included, are within the limit and the disk has room. */
  lemma ClaimsDecideExactly(cfg: Config, w: World, id: CallId, diskOk: bool)
    requires id in w.calls
    ensures var active, r := |ActiveCalls(w)|, Next(cfg, w, OnCall(id, LockForClaim(diskOk)));
      && (r.Some? <==> w.calls[id].row.status.Queued? && w.calls[id].lock.None?)
      && (r.Some? ==>
            && r.value.calls[id].row == w.calls[id].row
            && r.value.calls[id].lock.Some? && r.value.calls[id].lock.value.Claim?
            && r.value.calls[id].lock.value.begun == w.clock
            && var verdict := r.value.calls[id].lock.value.verdict;
               && (verdict == Admit <==> active <= cfg.concurrencyLimit && diskOk)
               && (verdict == Refuse(ConcurrencyLimit) <==> active > cfg.concurrencyLimit)
               && (verdict == Refuse(DiskFull) <==> active <= cfg.concurrencyLimit && !diskOk))
  {
  }

  /** What a claim decided is what its commit writes, stamped with the time its transaction began. */
  lemma ClaimsCommitTheirVerdict(cfg: Config, run: seq<Action>, w: World, id: CallId)
    requires Reaches(cfg, run, w) && id in w.calls
    requires w.calls[id].lock.Some? && w.calls[id].lock.value.Claim?
    ensures var verdict, r := w.calls[id].lock.value.verdict, Next(cfg, w, OnCall(id, CommitClaim));
      && r.Some? && r.value.calls[id].lock.None?
      && r.value.calls[id].row.updatedAt == w.calls[id].lock.value.begun
      && (r.value.calls[id].row.status.Joining? <==> verdict == Admit)
      && (forall reason :: r.value.calls[id].row.failureReason == Some(reason) <==> verdict == Refuse(reason))
  {
    RunsKeepInv(cfg, run);
    assert CallOk(cfg, w.calls[id], w.clock);
  }

  /** Active calls are those queued, joining, recording or processing. */
  lemma ActiveMeans(w: World, id: CallId)
    ensures id in ActiveCalls(w) <==>
      id in w.calls && w.calls[id].row.status in {Queued, Joining, CallStatus.Recording, Processing}
  {
  }

  /** Intake lets a create through exactly while fewer calls than the limit are active. */
  lemma IntakeDecidesExactly(cfg: Config, w: World)
    ensures Next(cfg, w, CheckIntake).Some? <==> |ActiveCalls(w)| < cfg.concurrencyLimit
    ensures |ActiveCalls(w)| < cfg.concurrencyLimit ==> Next(cfg, w, CheckIntake) == Some(w.(intakes := w.intakes + 1))
  {
  }

  /** The stale query lists exactly the calls that have rested too long, in seconds. */
  lemma StaleQueryListsExactly(cfg: Config, w: World, n: nat, id: CallId)
    requires n !in w.sweeps
    ensures var r := Next(cfg, w, SelectStale(n));
      && r.Some? && r.value.calls == w.calls && n in r.value.sweeps && r.value.sweeps[n].Stale?
      && (id in r.value.sweeps[n].todo <==>
            && id in w.calls
            && var row := w.calls[id].row;
               || ((row.status.Joining? || row.status.Recording?) && w.clock - row.updatedAt > cfg.maxRecordDuration + 300)
               || (row.status.Processing? && w.clock - row.updatedAt > 2400))
  {
  }

  /** The orphan query lists exactly the calls with a container. */
  lemma OrphanQueryListsExactly(cfg: Config, w: World, n: nat, id: CallId)
    requires n !in w.sweeps
    ensures var r := Next(cfg, w, SelectOrphans(n));
      && r.Some? && r.value.calls == w.calls && n in r.value.sweeps && r.value.sweeps[n].Orphan?
      && (id in r.value.sweeps[n].todo <==> id in w.calls && w.calls[id].container)
  {
  }

  /** The retention query lists exactly the free rows with a URL that are past the window of their
      status, in seconds. */
  lemma RetentionQueryListsExactly(cfg: Config, w: World, n: nat, id: CallId)
    requires n !in w.sweeps
    ensures var r := Next(cfg, w, SelectExpired(n));
      && r.Some? && r.value.calls == w.calls && n in r.value.sweeps && r.value.sweeps[n].Retain?
      && (id in r.value.sweeps[n].todo <==>
            && id in w.calls && w.calls[id].lock.None? && w.calls[id].row.audioUrl
            && var row := w.calls[id].row;
               || (row.status.Done? && row.updatedAt + 86400 * cfg.doneRetentionDays < w.clock)
               || (row.status.Failed? && row.updatedAt + 86400 * cfg.failedRetentionDays < w.clock))
  {
  }

  /** What a stale or an orphan sweep does to a listed call: it fails it as stale_call, or as
      worker_restart, unless it has ended. */
  lemma SweepsDoTheirKind(cfg: Config, w: World, n: nat, id: CallId)
    requires n in w.sweeps && !w.sweeps[n].Retain? && id in w.sweeps[n].todo && id in w.calls && w.calls[id].lock.None?
    ensures var c, r := w.calls[id], Next(cfg, w, SweepCall(n, id));
      && r.Some?
      && var c' := r.value.calls[id];
         if c.row.status.Done? || c.row.status.Failed? then c' == c
         else
           var reason := if w.sweeps[n].Stale? then StaleCall else WorkerRestart;
           && c'.row == c.row.(status := Failed, failureReason := Some(reason), updatedAt := w.clock)
           && c'.due == c.due + 1
  {
  }

  /** Retention deletes a listed call's object and holds the row for the commit, which clears the URL. */
  lemma RetentionDoesItsKind(cfg: Config, w: World, n: nat, id: CallId)
    requires n in w.sweeps && w.sweeps[n].Retain? && id in w.sweeps[n].todo && id in w.calls && w.calls[id].lock.None?
    ensures var c, r := w.calls[id], Next(cfg, w, SweepCall(n, id));
      && r.Some?
      && var c' := r.value.calls[id];
         c' == c.(stored := false, lock := Some(Reclaim(w.clock)), past := c.past.(reclaimedAt := Some(w.clock)))
  {
  }

  // The history is what happened

  /** Each entry of the history changes exactly with the event it stands for, and carries its time. */
  predicate Honest(c: Call, a: CallAction, c': Call, now: int) {
    && c'.past.claims == c.past.claims + (if c.row.status.Queued? && c'.row.status.Joining? then 1 else 0)
    && c'.past.claimedAt == (if c.row.status.Queued? && c'.row.status.Joining? then now else c.past.claimedAt)
    && c'.past.spawns == c.past.spawns + (if !c.container && c'.container then 1 else 0)
    && c'.past.dispatches == c.past.dispatches + (if c.lock.None? && c'.lock.Some? && c'.lock.value.Delivery? then 1 else 0)
    && c'.past.posts == c.past.posts + (if a.Post? then 1 else 0)
    && c'.past.acks == c.past.acks + (if a == Post(Accepted) then 1 else 0)
    && c'.past.terminalAt ==
         (if !c.row.status.Terminal() && c'.row.status.Terminal() then Some(now) else c.past.terminalAt)
    && c'.past.recorded == (c.past.recorded || a.WriteWav?)
    && c'.past.urlWasSet == (c.past.urlWasSet || (!c.row.audioUrl && c'.row.audioUrl))
    && c'.past.reclaimedAt == (if a.DeleteObject? then Some(now) else c.past.reclaimedAt)
  }

  lemma HistoryIsHonest(cfg: Config, c: Call, a: CallAction, now: int, active: nat)
    requires CallOk(cfg, c, now)
    ensures var r := Act(cfg, c, a, now, active); r.Some? ==> Honest(c, a, r.value, now)
  {
    if UpToSpawn(a) {
      HistoryIsHonestUpToSpawn(cfg, c, a, now, active);
    } else if UpToExit(a) {
      HistoryIsHonestUpToExit(cfg, c, a, now, active);
    } else if InPipeline(a) {
      HistoryIsHonestInPipeline(cfg, c, a, now, active);
    } else {
      HistoryIsHonestAfterTheEnd(cfg, c, a, now, active);
    }
  }

  lemma HistoryIsHonestAfterTheEnd(cfg: Config, c: Call, a: CallAction, now: int, active: nat)
    requires CallOk(cfg, c, now) && !UpToExit(a) && !InPipeline(a)
    ensures var r := Act(cfg, c, a, now, active); r.Some? ==> Honest(c, a, r.value, now)
  {
  }

  lemma HistoryIsHonestUpToSpawn(cfg: Config, c: Call, a: CallAction, now: int, active: nat)
    requires CallOk(cfg, c, now) && UpToSpawn(a)
    ensures var r := Act(cfg, c, a, now, active); r.Some? ==> Honest(c, a, r.value, now)
  {
  }

  lemma HistoryIsHonestUpToExit(cfg: Config, c: Call, a: CallAction, now: int, active: nat)
    requires CallOk(cfg, c, now) && UpToExit(a) && !UpToSpawn(a)
    ensures var r := Act(cfg, c, a, now, active); r.Some? ==> Honest(c, a, r.value, now)
  {
  }

  lemma HistoryIsHonestInPipeline(cfg: Config, c: Call, a: CallAction, now: int, active: nat)
    requires CallOk(cfg, c, now) && InPipeline(a)
    ensures var r := Act(cfg, c, a, now, active); r.Some? ==> Honest(c, a, r.value, now)
  {
    if a.CommitFailure? || a.CommitDone? {
      HistoryIsHonestAtTheEnd(cfg, c, a, now, active);
    }
  }

  lemma HistoryIsHonestAtTheEnd(cfg: Config, c: Call, a: CallAction, now: int, active: nat)
    requires CallOk(cfg, c, now) && (a.CommitFailure? || a.CommitDone?)
    ensures var r := Act(cfg, c, a, now, active); r.Some? ==> Honest(c, a, r.value, now)
  {
  }

  /** Where audio comes from and goes: a scratch WAV from a recording to a deletion that works, a stored
      object from the upload of one to a retention sweep. */
  lemma AudioComesAndGoes(cfg: Config, c: Call, a: CallAction, now: int, active: nat)
    ensures var r := Act(cfg, c, a, now, active);
      r.Some? ==>
        && (!c.scratch ==> (r.value.scratch <==> a.WriteWav?))
        && (c.scratch ==> (r.value.scratch <==> a != Scrub(true)))
        && (!c.stored ==> (r.value.stored <==> a == Upload(true) && c.scratch))
        && (c.stored ==> (r.value.stored <==> !a.DeleteObject?))
  {
  }

  /** A post counts as one try; an acceptance is kept with its time, and the loop goes on only after a
      network error or a 5xx, while tries are left. */
  lemma PostsExactly(cfg: Config, c: Call, reply: Reply, now: int, active: nat)
    requires c.lock.Some? && c.lock.value.Delivery? && !c.lock.value.over
    ensures var d, r := c.lock.value, Act(cfg, c, Post(reply), now, active);
      && r.Some? && r.value.row == c.row && r.value.lock.Some?
      && r.value.lock.value == Delivery(d.begun, d.tries + 1, r.value.lock.value.over,
                                        if reply == Accepted then Some(now) else d.ackedAt)
      && (r.value.lock.value.over <==> reply != Unavailable || d.tries + 1 >= cfg.webhookMaxAttempts)
  {
  }

  /** The end of a delivery puts its tries and its acceptance on the row. */
  lemma DeliveriesEndExactly(cfg: Config, c: Call, now: int, active: nat)
    requires c.lock.Some? && c.lock.value.Delivery?
    ensures var d, r := c.lock.value, Act(cfg, c, EndDelivery, now, active);
      && r.Some? && r.value.lock.None?
      && r.value.row.webhookAttempts == c.row.webhookAttempts + d.tries
      && r.value.row.webhookDeliveredAt == d.ackedAt
      && r.value.row.updatedAt == if d.tries > 0 then d.begun else c.row.updatedAt
  {
  }

  /** The bot's recording signal moves a joining row; if a sweep came first, the row stays as it is and
      the stream goes on. */
  lemma SignalsDecideExactly(cfg: Config, c: Call, now: int, active: nat)
    requires c.task == Some(Streaming(false)) && c.lock.None?
    ensures var r := Act(cfg, c, SignalRecording, now, active);
      && r.Some? && r.value.task == Some(Streaming(true))
      && r.value.row == if c.row.status.Joining? then c.row.(status := CallStatus.Recording, updatedAt := now) else c.row
  {
  }

  /** A commit of the pipeline that comes after a sweep changes nothing and dispatches nothing: the
      coroutine just ends. */
  lemma LateCommitsChangeNothing(cfg: Config, c: Call, a: CallAction, now: int, active: nat)
    requires c.row.status.Done? || c.row.status.Failed?
    requires c.task.Some? && match a
      case ApplyExit => c.task.value.Exited?
      case CommitFailure => c.task.value.FailingUpload? || c.task.value.FailingTranscription?
      case CommitDone => c.task.value.Finishing?
      case _ => false
    ensures Act(cfg, c, a, now, active) == Some(c.(task := None))
  {
  }

  /** A crash takes exactly what it is said to take, and no row, container, file or object. */
  lemma CrashesTakeExactly(cfg: Config, w: World, wreck: Wreck, id: CallId)
    requires id in w.calls
    ensures var r := Next(cfg, w, Crash(wreck));
      && r.Some? && id in r.value.calls
      && var c, c' := w.calls[id], r.value.calls[id];
         && c' == c.(task := c'.task, lock := c'.lock, due := c'.due)
         && c'.task == (if id in wreck.tasks then None else c.task)
         && c'.lock == (if id in wreck.locks then None else c.lock)
         && (id in wreck.dispatches && wreck.dispatches[id] <= c.due ==> c'.due == wreck.dispatches[id])
         && (id !in wreck.dispatches ==> c'.due == c.due)
         && r.value.sweeps == w.sweeps - wreck.sweeps && r.value.clock == w.clock
         && r.value.intakes == (if wreck.intakes <= w.intakes then w.intakes - wreck.intakes else 0)
  {
  }
}
