/** The safety theorems of the orchestration protocol, for every run: any number of
    runners, racing intake, interleaved sweeps, failures and crashes. */
module OrchestrationTheorems {
  import opened Common
  import opened Calls
  import opened Orchestration
  import opened OrchestrationInvariant
  import opened OrchestrationRuns

  ghost predicate Reaches(cfg: Config, run: seq<Action>, w: World) {
    Exec(cfg, run) == Some(w)
  }

  /** One enabled action further. */
  lemma Extend(cfg: Config, run: seq<Action>, w: World, a: Action)
    requires Reaches(cfg, run, w) && Next(cfg, w, a).Some?
    ensures Reaches(cfg, run + [a], Next(cfg, w, a).value)
  {
    assert (run + [a])[..|run|] == run;
  }

  function InFlightCalls(w: World): set<CallId> {
    set id | id in w.calls && w.calls[id].row.status.InFlight()
  }

  /** The ceiling: joining, recording and processing calls together never exceed the limit,
      not even counting the claims that have passed the check and not yet committed. */
  lemma ConcurrencyCeiling(cfg: Config, run: seq<Action>, w: World)
    requires Reaches(cfg, run, w)
    ensures |InFlightCalls(w)| <= |Occupied(w)| <= cfg.concurrencyLimit
  {
    RunsKeepInv(cfg, run);
    SubsetSize(InFlightCalls(w), Occupied(w));
  }

  /** Rows: what each status may hold, and that a call is claimed and spawned at most once. */
  lemma RowsAreWellShaped(cfg: Config, run: seq<Action>, w: World, id: CallId)
    requires Reaches(cfg, run, w) && id in w.calls
    ensures var c := w.calls[id];
      && (c.row.status !in {Done, Failed} ==>
            c.row.endReason.None? && c.row.failureReason.None? && c.row.transcript.None? && !c.row.audioUrl)
      && (c.row.status.Done? ==> c.row.endReason.Some? && c.row.transcript.Some? && c.row.failureReason.None?)
      && (c.row.status.Failed? ==>
            && c.row.failureReason.Some? && c.row.endReason.None? && c.row.transcript.None?
            && (c.row.audioUrl ==> c.row.failureReason.value.TranscriptionFailed?))
      && c.past.spawns <= c.past.claims <= 1
      && (c.container ==> c.past.spawns == 1)
  {
    RunsKeepInv(cfg, run);
  }

  /** From step to step a row's status never falls in rank, and once terminal the row's
      outcome (status, reasons, transcript) is frozen. */
  lemma OutcomesAreFrozen(cfg: Config, run: seq<Action>, a: Action, w: World, w': World, id: CallId)
    requires Reaches(cfg, run, w) && Reaches(cfg, run + [a], w') && id in w.calls
    ensures id in w'.calls && OutcomeKept(w.calls[id].row, w'.calls[id].row)
  {
    assert (run + [a])[..|run|] == run;
    StepsMoveCalls(cfg, w, a);
    var act := ActionOn(w, a, id);
    if act.Some? {
      OutcomeStep(cfg, w.calls[id], act.value, w.clock, |ActiveCalls(w)|);
    }
  }

  predicate OutcomeKept(row: Row, row': Row) {
    if row'.status == row.status then
      && row'.endReason == row.endReason
      && row'.failureReason == row.failureReason
      && row'.transcript == row.transcript
    else
      !row.status.Terminal() && row'.status.Rank() > row.status.Rank()
  }

  lemma OutcomeStep(cfg: Config, c: Call, a: CallAction, now: int, active: nat)
    ensures var r := Act(cfg, c, a, now, active); r.Some? ==> OutcomeKept(c.row, r.value.row)
  {
    if UpToExit(a) {
      OutcomeStepUpToExit(cfg, c, a, now, active);
    } else {
      OutcomeStepAfterExit(cfg, c, a, now, active);
    }
  }

  lemma OutcomeStepUpToExit(cfg: Config, c: Call, a: CallAction, now: int, active: nat)
    requires UpToExit(a)
    ensures var r := Act(cfg, c, a, now, active); r.Some? ==> OutcomeKept(c.row, r.value.row)
  {
    if UpToSpawn(a) {
      OutcomeStepUpToSpawn(cfg, c, a, now, active);
    }
  }

  lemma OutcomeStepUpToSpawn(cfg: Config, c: Call, a: CallAction, now: int, active: nat)
    requires UpToSpawn(a)
    ensures var r := Act(cfg, c, a, now, active); r.Some? ==> OutcomeKept(c.row, r.value.row)
  {
  }

  lemma OutcomeStepAfterExit(cfg: Config, c: Call, a: CallAction, now: int, active: nat)
    requires !UpToExit(a)
    ensures var r := Act(cfg, c, a, now, active); r.Some? ==> OutcomeKept(c.row, r.value.row)
  {
  }

  // Audio

  /** A stored object always has an owner: a call still processing, a row that carries its
      URL, or a row that a sweep failed. The other way round, a row that carries a URL has
      its object, unless retention deleted it; and a URL that is null again has none. */
  lemma StoredObjectsAreOwned(cfg: Config, run: seq<Action>, w: World, id: CallId)
    requires Reaches(cfg, run, w) && id in w.calls
    ensures var c := w.calls[id];
      && (c.stored ==>
            || c.row.status.Processing? || c.row.audioUrl
            || (c.row.status.Failed? && c.row.failureReason in {Some(StaleCall), Some(WorkerRestart)}))
      && (c.row.audioUrl ==> c.stored || c.past.reclaimedAt.Some?)
      && (c.past.urlWasSet && !c.row.audioUrl ==> !c.stored && c.past.reclaimedAt.Some?)
  {
    RunsKeepInv(cfg, run);
  }

  /** No recording is lost: it is in scratch, in the store, or retention reclaimed it, and
      that only strictly later than the window after the call became terminal. */
  lemma NoAudioIsLost(cfg: Config, run: seq<Action>, w: World, id: CallId)
    requires Reaches(cfg, run, w) && id in w.calls && w.calls[id].past.recorded
    ensures var c := w.calls[id];
      || c.scratch || c.stored
      || (c.past.reclaimedAt.Some? && c.past.terminalAt.Some?
          && (|| (c.row.status.Done? && c.past.reclaimedAt.value > c.past.terminalAt.value + 86400 * cfg.doneRetentionDays)
              || (c.row.status.Failed? && c.past.reclaimedAt.value > c.past.terminalAt.value + 86400 * cfg.failedRetentionDays)))
  {
    RunsKeepInv(cfg, run);
  }

  /** No object is deleted inside its retention window, although the sweep lets go of the
      rows between its query and each deletion. */
  lemma RetentionWaits(cfg: Config, run: seq<Action>, w: World, id: CallId)
    requires Reaches(cfg, run, w) && id in w.calls && w.calls[id].past.reclaimedAt.Some?
    ensures var c := w.calls[id];
      && c.past.terminalAt.Some?
      && (|| (c.row.status.Done? && c.past.terminalAt.value + 86400 * cfg.doneRetentionDays < c.past.reclaimedAt.value)
          || (c.row.status.Failed? && c.past.terminalAt.value + 86400 * cfg.failedRetentionDays < c.past.reclaimedAt.value))
  {
    RunsKeepInv(cfg, run);
  }

  // Webhooks

  /** At most one dispatch per call over the whole run, only of a terminal call; so the
      attempts stay within the configured maximum and at most one is accepted. */
  lemma AtMostOneDispatch(cfg: Config, run: seq<Action>, w: World, id: CallId)
    requires Reaches(cfg, run, w) && id in w.calls
    ensures var c := w.calls[id];
      && c.past.dispatches + c.due <= 1
      && (c.past.dispatches + c.due > 0 ==> c.row.status.Terminal())
      && c.row.webhookAttempts <= c.past.posts <= cfg.webhookMaxAttempts
      && c.past.acks <= 1
      && (c.row.webhookDeliveredAt.Some? ==> c.past.dispatches == 1)
  {
    RunsKeepInv(cfg, run);
  }

  ghost predicate CrashFree(run: seq<Action>) {
    forall k :: 0 <= k < |run| ==> !run[k].Crash?
  }

  /** What the delivery in progress, if there is one, has not written to the row yet. */
  function TriesInProgress(c: Call): nat {
    if c.lock.Some? && c.lock.value.Delivery? then c.lock.value.tries else 0
  }

  predicate Acknowledged(c: Call) {
    c.row.webhookDeliveredAt.Some? || (c.lock.Some? && c.lock.value.Delivery? && c.lock.value.ackedAt.Some?)
  }

  /** The webhook books of one call balance. */
  predicate Balanced(c: Call) {
    && (c.row.status.Terminal() ==> Dispatches(c) == 1)
    && c.row.webhookAttempts + TriesInProgress(c) == c.past.posts
    && (Acknowledged(c) <==> c.past.acks == 1)
  }

  ghost predicate AllBalanced(w: World) {
    forall id :: id in w.calls ==> Balanced(w.calls[id])
  }

  /** Only a crash can drop a dispatch: in a run without one, a call is terminal exactly
      when its one dispatch is due, under way, done, or next after its scrubbing; every post
      is counted on the row or in the delivery, and an acceptance is recorded there too. */
  lemma {:induction false} DispatchIsCertainWithoutCrash(cfg: Config, run: seq<Action>, w: World)
    requires Reaches(cfg, run, w) && CrashFree(run)
    ensures AllBalanced(w)
    ensures forall id :: id in w.calls ==> (w.calls[id].row.status.Terminal() <==> Dispatches(w.calls[id]) == 1)
  {
    if run != [] {
      var before := run[..|run| - 1];
      RunsKeepInv(cfg, before);
      DispatchIsCertainWithoutCrash(cfg, before, Exec(cfg, before).value);
      DispatchNext(cfg, Exec(cfg, before).value, run[|run| - 1]);
    }
    RunsKeepInv(cfg, run);
    DispatchNeedsTerminal(cfg, w);
  }

  lemma DispatchNeedsTerminal(cfg: Config, w: World)
    requires CallsInv(cfg, w)
    ensures forall id :: id in w.calls && Dispatches(w.calls[id]) > 0 ==> w.calls[id].row.status.Terminal()
  {
  }

  lemma DispatchNext(cfg: Config, w: World, a: Action)
    requires CallsInv(cfg, w) && AllBalanced(w) && !a.Crash?
    ensures var r := Next(cfg, w, a); r.Some? ==> AllBalanced(r.value)
  {
    var r := Next(cfg, w, a);
    if r.Some? {
      StepsMoveCalls(cfg, w, a);
      forall id | id in r.value.calls ensures Balanced(r.value.calls[id]) {
        MoveKeepsBalance(cfg, w, r.value, a, id);
      }
    }
  }

  lemma MoveKeepsBalance(cfg: Config, w: World, w': World, a: Action, id: CallId)
    requires id in w'.calls && Moved(cfg, w, w', a, id) && !a.Crash?
    requires id in w.calls ==> CallOk(cfg, w.calls[id], w.clock) && Balanced(w.calls[id])
    ensures Balanced(w'.calls[id])
  {
    var act := ActionOn(w, a, id);
    if id in w.calls && act.Some? {
      ActKeepsBalance(cfg, w.calls[id], act.value, w.clock, |ActiveCalls(w)|);
    }
  }

  lemma ActKeepsBalance(cfg: Config, c: Call, a: CallAction, now: int, active: nat)
    requires CallOk(cfg, c, now) && Balanced(c)
    ensures var r := Act(cfg, c, a, now, active); r.Some? ==> Balanced(r.value)
  {
    if UpToExit(a) {
      ActUpToExitKeepsBalance(cfg, c, a, now, active);
    } else if InPipeline(a) {
      PipelineKeepsBalance(cfg, c, a, now, active);
    } else {
      DeliveryKeepsBalance(cfg, c, a, now, active);
    }
  }

  lemma ActUpToExitKeepsBalance(cfg: Config, c: Call, a: CallAction, now: int, active: nat)
    requires CallOk(cfg, c, now) && Balanced(c) && UpToExit(a)
    ensures var r := Act(cfg, c, a, now, active); r.Some? ==> Balanced(r.value)
  {
    if UpToSpawn(a) {
      ActUpToSpawnKeepsBalance(cfg, c, a, now, active);
    }
  }

  lemma ActUpToSpawnKeepsBalance(cfg: Config, c: Call, a: CallAction, now: int, active: nat)
    requires CallOk(cfg, c, now) && Balanced(c) && UpToSpawn(a)
    ensures var r := Act(cfg, c, a, now, active); r.Some? ==> Balanced(r.value)
  {
  }

  lemma PipelineKeepsBalance(cfg: Config, c: Call, a: CallAction, now: int, active: nat)
    requires CallOk(cfg, c, now) && Balanced(c) && InPipeline(a)
    ensures var r := Act(cfg, c, a, now, active); r.Some? ==> Balanced(r.value)
  {
    if a.CommitFailure? {
      FailureKeepsBalance(cfg, c, now);
    } else if a.CommitDone? {
      DoneKeepsBalance(cfg, c, now);
    }
  }

  lemma FailureKeepsBalance(cfg: Config, c: Call, now: int)
    requires CallOk(cfg, c, now) && Balanced(c)
    ensures var r := FailureCommitted(c, now); r.Some? ==> Balanced(r.value)
  {
  }

  lemma DoneKeepsBalance(cfg: Config, c: Call, now: int)
    requires CallOk(cfg, c, now) && Balanced(c)
    ensures var r := DoneCommitted(c, now); r.Some? ==> Balanced(r.value)
  {
  }

  lemma DeliveryKeepsBalance(cfg: Config, c: Call, a: CallAction, now: int, active: nat)
    requires CallOk(cfg, c, now) && Balanced(c) && !UpToExit(a) && !InPipeline(a)
    ensures var r := Act(cfg, c, a, now, active); r.Some? ==> Balanced(r.value)
  {
  }
}
