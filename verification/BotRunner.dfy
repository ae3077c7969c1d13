/** One runner as it works when nothing comes between its blocks: claims, sweeps, and the
    pipeline from a bot's exit to the terminal row. Each is tied to the protocol's steps. */
module BotRunner {
  import opened Common
  import opened Transcripts
  import opened Calls
  import opened BotExit
  import opened Orchestration
  import opened OrchestrationRuns

  /** How the outside answers: the upload, the source, the transcription. */
  datatype Outside = Outside(uploadOk: bool, sourceFault: Option<string>, transcription: Result<Transcript, string>)

  /** The row after the whole pipeline; `wav` is whether the scratch WAV exists, `t1` the time
      of the first block and `t2` that of the last. */
  function FinalRow(row: Row, code: int, result: Option<EndReason>, wav: bool, out: Outside, t1: int, t2: int): Row {
    match Decide(row.status, code, result)
    case Ignore => row
    case Fail(reason) => Write(row, Failed, FailChanges(reason), t1)
    case ToProcessing(endReason) => ProcessedRow(Write(row, Processing, NO_CHANGES, t1), endReason, wav, out, t2)
  }

  /** The row after the upload, the source and the transcription. */
  function ProcessedRow(row: Row, endReason: EndReason, wav: bool, out: Outside, now: int): Row {
    if !wav || !out.uploadOk then Write(row, Failed, FailChanges(UploadFailed), now)
    else if out.sourceFault.Some? then TranscriptionFailedRow(row, out.sourceFault.value, now)
    else
      match out.transcription
      case Err(detail) => TranscriptionFailedRow(row, detail, now)
      case Ok(transcript) => Write(row, Done, DoneChanges(endReason, transcript), now)
  }

  function TranscriptionFailedRow(row: Row, detail: string, now: int): Row {
    Write(row, Failed, FailChanges(TranscriptionFailed(detail)).(audioUrl := true), now)
  }

  /** The row a bot's exit meets when no sweep came. */
  function RowOfTheBot(row: Row, signalled: bool, now: int): Row {
    if signalled then Write(row, Recording, NO_CHANGES, now) else row
  }

  /** Calls that still run in a container of an earlier runner. */
  function Live(rows: map<CallId, Row>, containers: set<CallId>): set<CallId> {
    set id | id in containers && id in rows && !rows[id].status.Terminal()
  }

  /** The upload has landed: there is a WAV, the exit asks for it, and the store took it. */
  predicate Uploads(row: Row, code: int, result: Option<EndReason>, wav: bool, out: Outside) {
    Decide(row.status, code, result).ToProcessing? && wav && out.uploadOk
  }

  predicate Claimable(rows: map<CallId, Row>, locked: set<CallId>, id: CallId) {
    id in rows && rows[id].status.Queued? && id !in locked
  }

  /** The oldest queued row that nobody has locked; `order` lists the ids by creation. */
  function NextQueued(order: seq<CallId>, rows: map<CallId, Row>, locked: set<CallId>): (r: Option<CallId>)
    ensures r.None? ==> forall i :: 0 <= i < |order| && order[i] in rows && order[i] !in locked ==>
      !rows[order[i]].status.Queued?
    ensures r.Some? ==> r.value in rows && r.value !in locked && rows[r.value].status.Queued?
    ensures r.Some? ==>
      exists i :: 0 <= i < |order| && order[i] == r.value
                  && forall j :: 0 <= j < i && order[j] in rows && order[j] !in locked ==> !rows[order[j]].status.Queued?
  {
    if order == [] then None
    else
      var earlier, last := NextQueued(order[..|order| - 1], rows, locked), order[|order| - 1];
      if earlier.Some? then earlier else if Claimable(rows, locked, last) then Some(last) else None
  }

  /** Who is overdue, in seconds. */
  lemma OverdueInSeconds(cfg: Config, row: Row, now: int)
    ensures OverdueAt(cfg, row, now) <==>
      || ((row.status.Joining? || row.status.Recording?) && now - row.updatedAt > cfg.maxRecordDuration + 300)
      || (row.status.Processing? && now - row.updatedAt > 2400)
  {
  }

  function OverdueIds(cfg: Config, rows: map<CallId, Row>, now: int): set<CallId> {
    set id | id in rows && OverdueAt(cfg, rows[id], now)
  }

  /** The table after a sweep has failed the calls in `gone`. */
  ghost predicate AfterSweep(rows: map<CallId, Row>, gone: set<CallId>, reason: FailureReason, now: int,
                             rows': map<CallId, Row>)
  {
    && rows'.Keys == rows.Keys
    && forall id :: id in rows ==>
         rows'[id] == if id in gone then Write(rows[id], Failed, FailChanges(reason), now) else rows[id]
  }

  /** The loop of a sweep takes one more call. */
  lemma OneMoreSwept(rows: map<CallId, Row>, gone: set<CallId>, reason: FailureReason, now: int,
                     rows': map<CallId, Row>, id: CallId)
    requires AfterSweep(rows, gone, reason, now, rows') && id in rows && id !in gone && !rows[id].status.Terminal()
    ensures Transition(rows'[id], Failed, FailChanges(reason), now).Ok?
    ensures var row := Write(rows'[id], Failed, FailChanges(reason), now);
      AfterSweep(rows, gone + {id}, reason, now, rows'[id := row])
    ensures multiset(gone + {id}) == multiset(gone) + multiset{id}
  {
  }

  class Runner {
    const service: CallService
    var tasks: set<CallId>            // coroutines started for claimed calls
    var containers: set<CallId>
    var scratch: set<CallId>
    var store: set<CallId>
    var dispatched: multiset<CallId>

    constructor (service: CallService)
      ensures this.service == service && tasks == {} && containers == {} && scratch == {} && store == {}
      ensures dispatched == multiset{}
    {
      this.service := service;
      tasks, containers, scratch, store, dispatched := {}, {}, {}, {}, multiset{};
    }

    /** Takes the oldest free queued call and claims or refuses it. An admission leaves no more
        calls in flight than the limit, whatever was in the table before. */
    method PollOnce(order: seq<CallId>, locked: set<CallId>, diskOk: bool, now: int) returns (found: bool)
      requires service.Valid()
      modifies this`tasks, this`dispatched, service`rows
      ensures service.Valid()
      ensures found == NextQueued(order, old(service.rows), locked).Some?
      ensures !found ==> service.rows == old(service.rows) && tasks == old(tasks) && dispatched == old(dispatched)
      ensures found ==>
        var id := NextQueued(order, old(service.rows), locked).value;
        var row := old(service.rows[id]);
        var active := |InFlightIds(old(service.rows))| + |QueuedIds(old(service.rows))|;
        if active <= service.concurrencyLimit && diskOk then
          && service.rows == old(service.rows)[id := row.(status := Joining, updatedAt := now)]
          && tasks == old(tasks) + {id} && dispatched == old(dispatched)
          && |InFlightIds(service.rows)| <= service.concurrencyLimit
        else
          var reason := if active > service.concurrencyLimit then ConcurrencyLimit else DiskFull;
          && service.rows ==
               old(service.rows)[id := row.(status := Failed, failureReason := Some(reason), updatedAt := now)]
          && tasks == old(tasks) && dispatched == old(dispatched) + multiset{id}
    {
      var next := NextQueued(order, service.rows, locked);
      if next.None? {
        return false;
      }
      var id := next.value;
      ghost var before := service.rows;
      var active := service.CountActive();
      ActiveIdsSplit(before);
      if active > service.concurrencyLimit {
        var _ := service.MarkFailed(id, ConcurrencyLimit, now);
        dispatched := dispatched + multiset{id};
      } else if !diskOk {
        var _ := service.MarkFailed(id, DiskFull, now);
        dispatched := dispatched + multiset{id};
      } else {
        var _ := service.MarkBotStarted(id, now);
        tasks := tasks + {id};
        SubsetSize(InFlightIds(service.rows), ActiveIds(before));
      }
      found := true;
    }

    /** Fails every call past its cutoff and sends its webhook, also when its container cannot
        be killed, and touches nothing else. */
    method StaleSweep(cfg: Config, now: int, unkillable: set<CallId>)
      requires service.Valid()
      modifies this`containers, this`dispatched, service`rows
      ensures service.Valid()
      ensures AfterSweep(old(service.rows), OverdueIds(cfg, old(service.rows), now), StaleCall, now, service.rows)
      ensures forall id :: id in old(service.rows) ==>
        var row := old(service.rows)[id];
        service.rows[id] ==
          if (|| ((row.status.Joining? || row.status.Recording?) && now - row.updatedAt > cfg.maxRecordDuration + 300)
              || (row.status.Processing? && now - row.updatedAt > 2400))
          then row.(status := Failed, failureReason := Some(StaleCall), updatedAt := now)
          else row
      ensures containers == old(containers) - (OverdueIds(cfg, old(service.rows), now) - unkillable)
      ensures dispatched == old(dispatched) + multiset(OverdueIds(cfg, old(service.rows), now))
    {
      ghost var before := service.rows;
      var todo := OverdueIds(cfg, service.rows, now);
      ghost var stale, gone: set<CallId> := todo, {};
      while todo != {}
        invariant forall x :: x in stale <==> x in todo || x in gone
        invariant todo !! gone
        invariant service.Valid() && AfterSweep(before, gone, StaleCall, now, service.rows)
        invariant forall x :: x in containers <==> x in old(containers) && (x in gone ==> x in unkillable)
        invariant dispatched == old(dispatched) + multiset(gone)
        decreases todo
      {
        var id :| id in todo;
        todo := todo - {id};
        if id !in unkillable {
          containers := containers - {id};
        }
        OneMoreSwept(before, gone, StaleCall, now, service.rows, id);
        var failed := FailUnlessTerminal(id, StaleCall, now);
        if failed {
          dispatched := dispatched + multiset{id};
        }
        gone := gone + {id};
      }
      assert gone == stale;
      forall id | id in before ensures id in gone <==> OverdueAt(cfg, before[id], now) {
        OverdueInSeconds(cfg, before[id], now);
      }
    }

    /** One id of a sweep: a terminal call stays as it is. */
    method FailUnlessTerminal(id: CallId, reason: FailureReason, now: int) returns (failed: bool)
      requires service.Valid() && id in service.rows
      modifies service`rows
      ensures service.Valid()
      ensures failed == !old(service.rows[id]).status.Terminal()
      ensures failed ==> service.rows == old(service.rows)[id := Write(old(service.rows[id]), Failed, FailChanges(reason), now)]
      ensures !failed ==> service.rows == old(service.rows)
    {
      var r := service.MarkFailed(id, reason, now);
      failed := r.Ok?;
    }

    /** At startup: fails every call that still has a container and is not terminal, removes the
        containers that can be killed, and sends a webhook for each call it failed. */
    method OrphanSweep(listed: bool, now: int, unkillable: set<CallId>)
      requires service.Valid()
      modifies this`containers, this`dispatched, service`rows
      ensures service.Valid()
      ensures !listed ==> service.rows == old(service.rows) && containers == old(containers) && dispatched == old(dispatched)
      ensures listed ==>
        var gone := Live(old(service.rows), old(containers));
        && AfterSweep(old(service.rows), gone, WorkerRestart, now, service.rows)
        && containers == old(containers) * unkillable
        && dispatched == old(dispatched) + multiset(gone)
    {
      if !listed {
        return;
      }
      ghost var before := service.rows;
      ghost var live, gone: set<CallId> := Live(service.rows, containers), {};
      var todo := containers;
      while todo != {}
        invariant todo <= old(containers)
        invariant forall x :: x in containers <==> x in old(containers) && (x in todo || x in unkillable)
        invariant forall x :: x in gone <==> x in live && x !in todo
        invariant forall x :: x in todo && x in before && !before[x].status.Terminal() ==> x in live
        invariant service.Valid() && AfterSweep(before, gone, WorkerRestart, now, service.rows)
        invariant dispatched == old(dispatched) + multiset(gone)
        decreases todo
      {
        var id :| id in todo;
        todo := todo - {id};
        var failed := false;
        if id in service.rows {
          if id in live {
            OneMoreSwept(before, gone, WorkerRestart, now, service.rows, id);
          }
          failed := FailUnlessTerminal(id, WorkerRestart, now);
        }
        if id !in unkillable {
          containers := containers - {id};
        }
        if failed {
          dispatched := dispatched + multiset{id};
          gone := gone + {id};
        }
      }
      assert gone == live;
    }

    /** The coroutine of a claimed call, from its check to the terminal row. `signalled` is
        whether the bot reported that the recording started, `wav` whether it left a file. */
    method RunCall(id: CallId, signalled: bool, wav: bool, code: int, result: Option<EndReason>, out: Outside,
                   t0: int, t1: int, t2: int)
      requires service.Valid()
      modifies this, service`rows
      ensures service.Valid() && containers == old(containers) && tasks == old(tasks)
      ensures id !in old(service.rows) || !old(service.rows[id]).status.Joining? ==>
        service.rows == old(service.rows) && scratch == old(scratch) && store == old(store) && dispatched == old(dispatched)
      ensures id in old(service.rows) && old(service.rows[id]).status.Joining? ==>
        var row := RowOfTheBot(old(service.rows[id]), signalled, t0);
        var hasWav := wav || id in old(scratch);
        && service.rows == old(service.rows)[id := FinalRow(row, code, result, hasWav, out, t1, t2)]
        && service.rows[id].status.Terminal()
        && dispatched == old(dispatched) + multiset{id}
        && (id in store <==> id in old(store) || Uploads(row, code, result, hasWav, out))
        && (id in scratch <==> hasWav && !Uploads(row, code, result, hasWav, out))
    {
      if id !in service.rows || !service.rows[id].status.Joining? {
        return;
      }
      if signalled {
        var _ := service.MarkRecording(id, t0);
      }
      if wav {
        scratch := scratch + {id};
      }
      ApplyExitStatus(id, code, result, out, t1, t2);
    }

    /** Maps a bot exit and carries the call to its terminal status: one row moves, one
        dispatch goes out, the WAV leaves scratch only after the row carries its URL. */
    method ApplyExitStatus(id: CallId, code: int, result: Option<EndReason>, out: Outside, t1: int, t2: int)
      requires service.Valid()
      modifies this`scratch, this`store, this`dispatched, service`rows
      ensures service.Valid()
      ensures id !in old(service.rows) ==>
        service.rows == old(service.rows) && scratch == old(scratch) && store == old(store) && dispatched == old(dispatched)
      ensures id in old(service.rows) ==>
        var row := old(service.rows[id]);
        var uploads := Uploads(row, code, result, id in old(scratch), out);
        && service.rows == old(service.rows)[id := FinalRow(row, code, result, id in old(scratch), out, t1, t2)]
        && dispatched == old(dispatched) + (if row.status.Terminal() then multiset{} else multiset{id})
        && store == old(store) + (if uploads then {id} else {})
        && scratch == old(scratch) - (if uploads then {id} else {})
    {
      if id !in service.rows || service.rows[id].status.Terminal() {
        return;
      }
      var decision := Decide(service.rows[id].status, code, result);
      if decision.Fail? {
        var _ := service.MarkFailed(id, decision.reason, t1);
        dispatched := dispatched + multiset{id};
        return;
      }
      var _ := service.MarkProcessing(id, t1);
      ProcessCall(id, decision.endReason, out, t2);
    }

    /** Uploads the WAV of a processing call and transcribes it; an upload that does not land ends it. */
    method ProcessCall(id: CallId, endReason: EndReason, out: Outside, now: int)
      requires service.Valid() && id in service.rows && service.rows[id].status.Processing?
      modifies this`scratch, this`store, this`dispatched, service`rows
      ensures service.Valid()
      ensures service.rows ==
        old(service.rows)[id := ProcessedRow(old(service.rows[id]), endReason, id in old(scratch), out, now)]
      ensures dispatched == old(dispatched) + multiset{id}
      ensures var landed := id in old(scratch) && out.uploadOk;
        && store == old(store) + (if landed then {id} else {})
        && scratch == old(scratch) - (if landed then {id} else {})
    {
      var uploaded := UploadCallAudio(id, out.uploadOk, now);
      if uploaded {
        TranscribeCall(id, endReason, out, now);
      }
    }

    /** The upload has landed: opens its source and transcribes it, and ends the call either way. */
    method TranscribeCall(id: CallId, endReason: EndReason, out: Outside, now: int)
      requires service.Valid() && id in service.rows && service.rows[id].status.Processing? && out.uploadOk
      modifies this`scratch, this`store, this`dispatched, service`rows
      ensures service.Valid()
      ensures service.rows == old(service.rows)[id := ProcessedRow(old(service.rows[id]), endReason, true, out, now)]
      ensures scratch == old(scratch) - {id} && store == old(store) && dispatched == old(dispatched) + multiset{id}
    {
      if out.sourceFault.Some? {
        MarkTranscriptionFailed(id, out.sourceFault.value, now);
        return;
      }
      match out.transcription
      case Err(detail) => MarkTranscriptionFailed(id, detail, now);
      case Ok(transcript) => FinishDoneCall(id, endReason, transcript, now);
    }

    method UploadCallAudio(id: CallId, uploadOk: bool, now: int) returns (uploaded: bool)
      requires service.Valid() && id in service.rows && service.rows[id].status.Processing?
      modifies this`scratch, this`store, this`dispatched, service`rows
      ensures service.Valid() && scratch == old(scratch)
      ensures uploaded == (id in scratch && uploadOk)
      ensures uploaded ==>
        service.rows == old(service.rows) && store == old(store) + {id} && dispatched == old(dispatched)
      ensures !uploaded ==>
        && service.rows == old(service.rows)[id := Write(old(service.rows[id]), Failed, FailChanges(UploadFailed), now)]
        && store == old(store) && dispatched == old(dispatched) + multiset{id}
    {
      uploaded := id in scratch && uploadOk;
      if uploaded {
        store := store + {id};
      } else {
        var _ := service.MarkFailed(id, UploadFailed, now);
        dispatched := dispatched + multiset{id};
      }
    }

    method MarkTranscriptionFailed(id: CallId, detail: string, now: int)
      requires service.Valid() && id in service.rows && service.rows[id].status.Processing?
      modifies this`scratch, this`store, this`dispatched, service`rows
      ensures service.Valid()
      ensures service.rows == old(service.rows)[id := TranscriptionFailedRow(old(service.rows[id]), detail, now)]
      ensures scratch == old(scratch) - {id} && store == old(store) && dispatched == old(dispatched) + multiset{id}
    {
      var _ := service.MarkFailed(id, TranscriptionFailed(detail), now);
      service.SetAudioUrl(id, now);
      scratch := scratch - {id};
      dispatched := dispatched + multiset{id};
    }

    method FinishDoneCall(id: CallId, endReason: EndReason, transcript: Transcript, now: int)
      requires service.Valid() && id in service.rows && service.rows[id].status.Processing?
      modifies this`scratch, this`store, this`dispatched, service`rows
      ensures service.Valid()
      ensures service.rows == old(service.rows)[id := Write(old(service.rows[id]), Done, DoneChanges(endReason, transcript), now)]
      ensures scratch == old(scratch) - {id} && store == old(store) && dispatched == old(dispatched) + multiset{id}
    {
      var _ := service.MarkDone(id, endReason, transcript, now);
      scratch := scratch - {id};
      dispatched := dispatched + multiset{id};
    }
  }

  /** A poll that refuses also reports true: one queued call, and a full disk. */
  method RefusalExample() returns (found: bool, row: Row)
    ensures found && row.status.Failed? && row.failureReason == Some(DiskFull)
  {
    var service := new CallService(1);
    assert ActiveIds(service.rows) == {};
    var created := service.Create(0, 0);
    ActiveIdsSplit(service.rows);
    var runner := new Runner(service);
    ghost var order: seq<CallId> := [0];
    assert order[..0] == [] && Claimable(service.rows, {}, order[0]);
    found := runner.PollOnce([0], {}, false, 1);
    row := service.rows[0];
  }

  // The same pipeline as a run of the protocol

  /** The protocol's own steps for a call whose bot has exited, with nothing in between. */
  function Drive(c: Call, out: Outside, t1: int, t2: int): Option<Call> {
    match ExitApplied(c, t1)
    case None => None
    case Some(c1) => if c1.task.None? then Some(c1) else Scrubs(DriveUpload(c1, out, t2))
  }

  /** The deletion of the WAV, where the path comes to it, working. */
  function Scrubs(c: Option<Call>): Option<Call> {
    if c.Some? && c.value.task == Some(Scrubbing) then Scrubbed(c.value, true) else c
  }

  function DriveUpload(c: Call, out: Outside, now: int): Option<Call> {
    match Uploaded(c, out.uploadOk)
    case None => None
    case Some(c1) =>
      if c1.task == Some(FailingUpload) then FailureCommitted(c1, now)
      else
        match SourceOpened(c1, out.sourceFault)
        case None => None
        case Some(c2) =>
          if c2.task.Some? && c2.task.value.FailingTranscription? then FailureCommitted(c2, now)
          else
            match Transcribed(c2, out.transcription)
            case None => None
            case Some(c3) =>
              if c3.task.Some? && c3.task.value.Finishing? then DoneCommitted(c3, now) else FailureCommitted(c3, now)
  }

  lemma UploadFollowsTheProtocol(c: Call, out: Outside, now: int)
    requires c.lock.None? && c.row.status.Processing? && c.task.Some? && c.task.value.Uploading?
    ensures var r, lands := Scrubs(DriveUpload(c, out, now)), c.scratch && out.uploadOk;
      && r.Some? && r.value.task.None?
      && r.value.row == ProcessedRow(c.row, c.task.value.endReason, c.scratch, out, now)
      && r.value.stored == (c.stored || lands)
      && r.value.scratch == (c.scratch && !lands)
      && r.value.due == c.due + 1
  {
  }

  /** The runner's pipeline and the protocol agree: the same final row, stored object and scratch WAV,
      and the dispatch due. */
  lemma PipelineFollowsTheProtocol(c: Call, out: Outside, t1: int, t2: int)
    requires c.lock.None? && c.task.Some? && c.task.value.Exited?
    ensures var code, result, r := c.task.value.code, c.task.value.result, Drive(c, out, t1, t2);
      && r.Some?
      && r.value.row == FinalRow(c.row, code, result, c.scratch, out, t1, t2)
      && r.value.stored == (c.stored || Uploads(c.row, code, result, c.scratch, out))
      && r.value.scratch == (c.scratch && !Uploads(c.row, code, result, c.scratch, out))
      && r.value.due == c.due + (if c.row.status.Terminal() then 0 else 1)
      && r.value.task.None?
  {
    var decision := Decide(c.row.status, c.task.value.code, c.task.value.result);
    if decision.ToProcessing? {
      var row := Write(c.row, Processing, NO_CHANGES, t1);
      assert ExitApplied(c, t1) == Some(c.(row := row, task := Some(Uploading(decision.endReason))));
      UploadFollowsTheProtocol(c.(row := row, task := Some(Uploading(decision.endReason))), out, t2);
    }
  }

  /** The protocol's steps from the check of a claimed call to the bot's exit. */
  function DriveSession(c: Call, signalled: bool, wav: bool, code: int, result: Option<EndReason>, now: int): Option<Call> {
    match JoinableChecked(c)
    case None => None
    case Some(c1) =>
      if c1.task.None? then Some(c1)
      else
        match Spawned(c1, true)
        case None => None
        case Some(c2) =>
          match if signalled then RecordingSignalled(c2, now) else Some(c2)
          case None => None
          case Some(c3) =>
            match if wav then WavWritten(c3) else Some(c3)
            case None => None
            case Some(c4) =>
              match ContainerStopped(c4)
              case None => None
              case Some(c5) => StreamEnded(c5, code, result)
  }

  /** The runner's coroutine and the protocol agree up to the exit: a call that is not joining is let
      go without a bot, and any other meets its exit with the row and the WAV that the bot left. */
  lemma SessionFollowsTheProtocol(c: Call, signalled: bool, wav: bool, code: int, result: Option<EndReason>, now: int)
    requires c.lock.None? && c.task == Some(Started) && !c.container
    ensures var r := DriveSession(c, signalled, wav, code, result, now);
      && r.Some?
      && (if !c.row.status.Joining? then r.value == c.(task := None)
          else
            && r.value.row == RowOfTheBot(c.row, signalled, now)
            && r.value.task == Some(Exited(code, result))
            && r.value.scratch == (wav || c.scratch) && !r.value.container
            && r.value.stored == c.stored && r.value.due == c.due && r.value.lock.None?
            && r.value.past.spawns == c.past.spawns + 1)
  {
  }

  /** A bot that cannot be started exits with -1 and fails its call with that code. */
  lemma FailedSpawnMeans(c: Call, out: Outside, t1: int, t2: int)
    requires c.lock.None? && c.task == Some(Spawning) && c.row.status.Joining?
    ensures var spawned := Spawned(c, false);
      && spawned.Some? && spawned.value.container == c.container
      && var r := Drive(spawned.value, out, t1, t2);
         r.Some? && r.value.row == c.row.(status := Failed, failureReason := Some(BotError(-1)), updatedAt := t1)
  {
  }

  /** A claim and the protocol agree: locking the row and committing the verdict, with nothing in
      between, leave the claimed row, and start the coroutine or make the refusal's webhook due. */
  lemma ClaimFollowsTheProtocol(cfg: Config, c: Call, diskOk: bool, active: nat, now: int)
    requires c.row.status.Queued? && c.lock.None?
    ensures var locked := LockedForClaim(cfg, c, diskOk, active, now);
      && locked.Some?
      && var r := ClaimCommitted(locked.value, now);
         && r.Some? && r.value.lock.None?
         && (if active <= cfg.concurrencyLimit && diskOk then
               && r.value.row == c.row.(status := Joining, updatedAt := now)
               && r.value.task == Some(Started) && r.value.due == c.due
             else
               var reason := if active > cfg.concurrencyLimit then ConcurrencyLimit else DiskFull;
               && r.value.row == c.row.(status := Failed, failureReason := Some(reason), updatedAt := now)
               && r.value.task == c.task && r.value.due == c.due + 1)
  {
  }

  /** In full: after an orphan sweep the calls that had a container and had not ended are failed as
      worker_restart, and all others are as before. */
  lemma OrphansInFull(rows: map<CallId, Row>, containers: set<CallId>, now: int, rows': map<CallId, Row>)
    requires AfterSweep(rows, Live(rows, containers), WorkerRestart, now, rows')
    ensures rows'.Keys == rows.Keys
    ensures forall id :: id in rows ==>
      rows'[id] ==
        if id in containers && !rows[id].status.Done? && !rows[id].status.Failed?
        then rows[id].(status := Failed, failureReason := Some(WorkerRestart), updatedAt := now)
        else rows[id]
  {
  }

  /** A sweep and the protocol agree on every call on the sweep's list. */
  lemma SweepFollowsTheProtocol(c: Call, reason: FailureReason, now: int)
    requires c.lock.None?
    ensures var r := SweptAside(c, reason, now);
      && r.Some?
      && (if c.row.status.Terminal() then r.value == c
          else r.value.row == Write(c.row, Failed, FailChanges(reason), now) && r.value.due == c.due + 1)
  {
  }

  /** After a stale sweep no row is overdue, so an immediate second sweep finds nothing. */
  lemma StaleSweepIsComplete(cfg: Config, rows: map<CallId, Row>, now: int, rows': map<CallId, Row>)
    requires AfterSweep(rows, OverdueIds(cfg, rows, now), StaleCall, now, rows')
    ensures OverdueIds(cfg, rows', now) == {}
  {
  }
}
