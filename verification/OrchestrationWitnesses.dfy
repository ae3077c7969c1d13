/** Concrete runs: a whole life of a call, and where the protocol promises less than its documentation. */
module OrchestrationWitnesses {
  import opened Common
  import opened Transcripts
  import opened Calls
  import opened Orchestration
  import OrchestrationInvariant
  import OrchestrationRuns
  import opened OrchestrationTheorems
  import opened OrchestrationAudio
  import opened OrchestrationWebhooks

  lemma ExtendOnCall(cfg: Config, run: seq<Action>, w: World, id: CallId, act: CallAction, c: Call)
    requires Reaches(cfg, run, w) && id in w.calls && !SweepOnly(act)
    requires Act(cfg, w.calls[id], act, w.clock, |ActiveCalls(w)|) == Some(c)
    ensures Reaches(cfg, run + [OnCall(id, act)], w.(calls := w.calls[id := c]))
  {
    Extend(cfg, run, w, OnCall(id, act));
  }

  /** Intake: one call, queued at time 0. */
  lemma FirstCall(cfg: Config)
    requires cfg.concurrencyLimit >= 1
    ensures Reaches(cfg, [CheckIntake, InsertCall(0)], START.(calls := map[0 := NewCall(0)]))
  {
    assert ActiveCalls(START) == {};
    Extend(cfg, [], START, CheckIntake);
    Extend(cfg, [CheckIntake], START.(intakes := 1), InsertCall(0));
    assert [] + [CheckIntake] == [CheckIntake];
    assert [CheckIntake] + [InsertCall(0)] == [CheckIntake, InsertCall(0)];
  }

  /** The state with one call, at time 0. */
  function Solo(c: Call): World {
    START.(calls := map[0 := c])
  }

  /** One action on the only call; the count of active calls matters to a claim only. */
  lemma Do(cfg: Config, run: seq<Action>, c: Call, act: CallAction, c': Call) returns (run': seq<Action>)
    requires Reaches(cfg, run, Solo(c)) && !SweepOnly(act)
    requires Act(cfg, c, act, 0, 1) == Some(c')
    requires act.LockForClaim? ==> c.row.status.Active()
    ensures Reaches(cfg, run', Solo(c'))
  {
    if act.LockForClaim? {
      assert ActiveCalls(Solo(c)) == {0};
    }
    ExtendOnCall(cfg, run, Solo(c), 0, act, c');
    assert Solo(c).calls[0 := c'] == Solo(c').calls;
    run' := run + [OnCall(0, act)];
  }

  /** A call whose bot is running. */
  lemma SpawnedCall(cfg: Config) returns (run: seq<Action>, c: Call)
    requires cfg.concurrencyLimit >= 1
    ensures Reaches(cfg, run, Solo(c))
    ensures c.row == NewRow(0).(status := Joining) && c.due == 0 && c.lock.None?
    ensures c.task == Some(Streaming(false)) && c.container && !c.stored
  {
    FirstCall(cfg);
    var c0 := NewCall(0);
    var c1 := c0.(lock := Some(Claim(Admit, 0)));
    run := Do(cfg, [CheckIntake, InsertCall(0)], c0, LockForClaim(true), c1);
    var c2 := c0.(row := NewRow(0).(status := Joining), task := Some(Started), past := c0.past.(claims := 1));
    run := Do(cfg, run, c1, CommitClaim, c2);
    var c3 := c2.(task := Some(Spawning));
    run := Do(cfg, run, c2, CheckJoinable, c3);
    c := c3.(task := Some(Streaming(false)), container := true, past := c3.past.(spawns := 1));
    run := Do(cfg, run, c3, Spawn(true), c);
  }

  /** A call whose bot has recorded and exited. */
  lemma ExitedCall(cfg: Config) returns (run: seq<Action>, c: Call)
    requires cfg.concurrencyLimit >= 1
    ensures Reaches(cfg, run, Solo(c))
    ensures c.row == NewRow(0).(status := Recording) && c.due == 0 && c.lock.None?
    ensures c.task == Some(Exited(0, Some(GiveUp))) && !c.container && c.scratch && !c.stored
  {
    var c0;
    run, c0 := SpawnedCall(cfg);
    var c1 := c0.(scratch := true, past := c0.past.(recorded := true));
    run := Do(cfg, run, c0, WriteWav, c1);
    var c2 := c1.(row := NewRow(0).(status := Recording), task := Some(Streaming(true)));
    run := Do(cfg, run, c1, SignalRecording, c2);
    var c3 := c2.(container := false);
    run := Do(cfg, run, c2, StopContainer, c3);
    c := c3.(task := Some(Exited(0, Some(GiveUp))));
    run := Do(cfg, run, c3, EndStream(0, Some(GiveUp)), c);
  }

  /** A call that has uploaded its audio and is now to be transcribed. */
  lemma UploadedCall(cfg: Config) returns (run: seq<Action>, c: Call)
    requires cfg.concurrencyLimit >= 1
    ensures Reaches(cfg, run, Solo(c))
    ensures c.row == NewRow(0).(status := Processing) && c.due == 0 && c.lock.None?
    ensures c.task == Some(Sourcing(GiveUp)) && c.scratch && c.stored
  {
    var c0;
    run, c0 := ExitedCall(cfg);
    var c1 := c0.(row := NewRow(0).(status := Processing), task := Some(Uploading(GiveUp)));
    run := Do(cfg, run, c0, ApplyExit, c1);
    c := c1.(stored := true, task := Some(Sourcing(GiveUp)));
    run := Do(cfg, run, c1, Upload(true), c);
  }

  /** A call that is done, its dispatch due. */
  lemma DoneCall(cfg: Config, transcript: Transcript) returns (run: seq<Action>, c: Call)
    requires cfg.concurrencyLimit >= 1
    ensures Reaches(cfg, run, Solo(c))
    ensures c.row == NewRow(0).(status := Done, endReason := Some(GiveUp), transcript := Some(transcript), audioUrl := true)
    ensures c.lock.None? && c.task.None? && c.due == 1 && !c.scratch && c.stored
  {
    var c0;
    run, c0 := UploadedCall(cfg);
    var c1 := c0.(task := Some(Transcribing(GiveUp)));
    run := Do(cfg, run, c0, OpenSource(None), c1);
    var c2 := c0.(task := Some(Finishing(GiveUp, transcript)));
    run := Do(cfg, run, c1, Transcribe(Ok(transcript)), c2);
    var row := Write(c0.row, Done, DoneChanges(GiveUp, transcript), 0);
    var c3 := ClosedWithUrl(c2, row, 0);
    run := Do(cfg, run, c2, CommitDone, c3);
    c := c3.(task := None, scratch := false, due := 1);
    run := Do(cfg, run, c3, Scrub(true), c);
  }

  /** A call that is done and delivered with one post. */
  lemma DeliveredCall(cfg: Config, transcript: Transcript) returns (run: seq<Action>, c: Call)
    requires cfg.concurrencyLimit >= 1 && cfg.webhookMaxAttempts >= 1
    ensures Reaches(cfg, run, Solo(c))
    ensures c.row == NewRow(0).(status := Done, endReason := Some(GiveUp), transcript := Some(transcript),
                                audioUrl := true, webhookAttempts := 1, webhookDeliveredAt := Some(0))
    ensures c.lock.None? && c.task.None? && c.due == 0 && !c.scratch && c.stored
  {
    var c0;
    run, c0 := DoneCall(cfg, transcript);
    var c1 := c0.(due := 0, lock := Some(Delivery(0, 0, false, None)), past := c0.past.(dispatches := c0.past.dispatches + 1));
    run := Do(cfg, run, c0, BeginDispatch, c1);
    var c2 := c1.(lock := Some(Delivery(0, 1, true, Some(0))),
                  past := c1.past.(posts := c1.past.posts + 1, acks := c1.past.acks + 1));
    run := Do(cfg, run, c1, Post(Accepted), c2);
    c := c2.(lock := None, row := c0.row.(webhookAttempts := 1, webhookDeliveredAt := Some(0)));
    run := Do(cfg, run, c2, EndDelivery, c);
  }

  /** A retention pass selects the only call once it has expired. */
  lemma SelectedCall(cfg: Config, run: seq<Action>, c: Call, later: nat) returns (run': seq<Action>)
    requires Reaches(cfg, run, Solo(c)) && c.lock.None? && ExpiredAt(cfg, c.row, later)
    ensures Reaches(cfg, run', World(later, map[0 := c], 0, map[0 := Retain(later, {0})], 0))
  {
    Extend(cfg, run, Solo(c), Tick(later));
    var w1 := Solo(c).(clock := later);
    var w2 := Next(cfg, w1, SelectExpired(0)).value;
    assert w2.sweeps[0].todo == {0};
    assert w2.sweeps == map[0 := Retain(later, {0})];
    Extend(cfg, run + [Tick(later)], w1, SelectExpired(0));
    run' := run + [Tick(later)] + [SelectExpired(0)];
  }

  /** The pass then deletes the object and commits the cleared URL. */
  lemma ReclaimedCall(cfg: Config, run: seq<Action>, c: Call, later: nat) returns (run': seq<Action>)
    requires Reaches(cfg, run, World(later, map[0 := c], 0, map[0 := Retain(later, {0})], 0)) && c.lock.None?
    ensures Reaches(cfg, run', World(later, map[0 := Reclaimed(c, later)], 0, map[0 := Retain(later, {})], 0))
  {
    var w := World(later, map[0 := c], 0, map[0 := Retain(later, {0})], 0);
    var deleted := ObjectDeleted(c, later).value;
    var w1 := Next(cfg, w, SweepCall(0, 0)).value;
    assert w1.calls == map[0 := deleted];
    assert {0} - {0} == {};
    assert w1.sweeps == map[0 := Retain(later, {})];
    Extend(cfg, run, w, SweepCall(0, 0));
    var w' := World(later, map[0 := deleted], 0, map[0 := Retain(later, {})], 0);
    var done := Reclaimed(c, later);
    assert w'.calls[0 := done] == map[0 := done];
    Extend(cfg, run + [SweepCall(0, 0)], w', OnCall(0, CommitReclaim));
    run' := run + [SweepCall(0, 0)] + [OnCall(0, CommitReclaim)];
  }

  function Reclaimed(c: Call, now: int): Call {
    c.(stored := false, row := c.row.(audioUrl := false, updatedAt := now), past := c.past.(reclaimedAt := Some(now)))
  }

  /** The whole life of a call can happen: queued, recorded, transcribed, delivered once, its WAV
      scrubbed, and its object reclaimed by retention one second after the window. */
  lemma WholeLifeOfACall(cfg: Config, transcript: Transcript)
    requires cfg.concurrencyLimit >= 1 && cfg.webhookMaxAttempts >= 1
    ensures exists run, w ::
      && Reaches(cfg, run, w) && 0 in w.calls
      && var c := w.calls[0];
         && c.row.status.Done? && c.row.endReason == Some(GiveUp) && c.row.transcript == Some(transcript)
         && c.row.webhookDeliveredAt.Some? && c.row.webhookAttempts == 1
         && !c.row.audioUrl && !c.stored && !c.scratch && c.due == 0 && c.task.None?
  {
    var run, c := DeliveredCall(cfg, transcript);
    var later := cfg.Window(Done) + 1;
    var run' := SelectedCall(cfg, run, c, later);
    run' := ReclaimedCall(cfg, run', c, later);
    assert Reaches(cfg, run', World(later, map[0 := Reclaimed(c, later)], 0, map[0 := Retain(later, {})], 0));
  }

  /** A call whose upload failed, its dispatch due. */
  lemma UploadFailedCall(cfg: Config) returns (run: seq<Action>, c: Call)
    requires cfg.concurrencyLimit >= 1
    ensures Reaches(cfg, run, Solo(c))
    ensures c.row == NewRow(0).(status := Failed, failureReason := Some(UploadFailed))
    ensures c.task.None? && !c.container && c.scratch && !c.stored && c.due == 1
  {
    var c0;
    run, c0 := ExitedCall(cfg);
    var c1 := c0.(row := NewRow(0).(status := Processing), task := Some(Uploading(GiveUp)));
    run := Do(cfg, run, c0, ApplyExit, c1);
    var c2 := c1.(task := Some(FailingUpload));
    run := Do(cfg, run, c1, Upload(false), c2);
    c := Close(c2.(task := None), Write(c1.row, Failed, FailChanges(UploadFailed), 0), 0);
    run := Do(cfg, run, c2, CommitFailure, c);
  }

  /** The data-retention text promises that the audio of every failed call is deleted after its
      window. The WAV of a call whose upload failed never is: nothing that can still happen
      touches it. */
  lemma UploadFailureKeepsTheWav(cfg: Config)
    requires cfg.concurrencyLimit >= 1
    ensures exists run, w ::
      && Reaches(cfg, run, w) && 0 in w.calls
      && w.calls[0].row.failureReason == Some(UploadFailed)
      && AtRest(w.calls[0]) && AudioStays(cfg, run, 0)
  {
    var run, c := UploadFailedCall(cfg);
    AudioStaysExactly(cfg, run, Solo(c), 0);
  }

  /** Every terminal transition is documented to send a webhook. A crash between the commit and the
      dispatch breaks that: the call has ended, and however the run goes on nothing is sent. */
  lemma CrashLosesADispatch(cfg: Config)
    requires cfg.concurrencyLimit >= 1
    ensures exists run, w ::
      && Reaches(cfg, run, w) && 0 in w.calls
      && w.calls[0].row.status.Failed? && NeverSent(cfg, run, 0)
  {
    var run, c := UploadFailedCall(cfg);
    OrchestrationRuns.RunsKeepInv(cfg, run);
    assert Solo(c).calls[0] == c && OrchestrationInvariant.CallOk(cfg, c, 0);
    var crash := Crash(Wreck({}, {}, map[0 := 0], {}, 0));
    var w' := Next(cfg, Solo(c), crash).value;
    Extend(cfg, run, Solo(c), crash);
    assert w'.calls[0] == c.(due := 0);
    assert AtRest(c.(due := 0));
    NeverSentExactly(cfg, run + [crash], w', 0);
  }

  /** Nor is the object of a call that the stale sweep fails after its upload: it stays in the store
      however the run goes on. */
  lemma StaleSweepLeaksAnObject(cfg: Config)
    requires cfg.concurrencyLimit >= 1
    ensures exists run, w ::
      && Reaches(cfg, run, w) && 0 in w.calls
      && w.calls[0].row.failureReason == Some(StaleCall)
      && ObjectStays(cfg, run, 0)
  {
    var run, c := UploadedCall(cfg);
    var w := Solo(c);
    Extend(cfg, run, w, Tick(PROCESSING_STALE_CUTOFF + 1));
    var run1, w1 := run + [Tick(PROCESSING_STALE_CUTOFF + 1)], w.(clock := PROCESSING_STALE_CUTOFF + 1);
    Extend(cfg, run1, w1, SelectStale(0));
    var run2, w2 := run1 + [SelectStale(0)], Next(cfg, w1, SelectStale(0)).value;
    Extend(cfg, run2, w2, SweepCall(0, 0));
    var run3, w3 := run2 + [SweepCall(0, 0)], Next(cfg, w2, SweepCall(0, 0)).value;
    assert w3.calls[0].row.failureReason == Some(StaleCall);
    SweptObjectsEscapeRetention(cfg, run3, w3, 0);
  }
}
