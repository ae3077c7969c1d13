/** From the polls of a call loop to the final row. */
module EndToEnd {
  import opened Common
  import opened Transcripts
  import opened Calls
  import opened CallLoop
  import opened CallLoopMeaning
  import opened CallLoopExits
  import opened BotRunner
  import opened Audio

  function FinalizeRecording(o: BotOutcome, v: WavVerdict): int {
    if o.exitCode != EXIT_OK || !o.recordingStarted then o.exitCode
    else
      match v
      case Audible => EXIT_OK
      case Silent => EXIT_SILENT_RECORDING
      case Missing => EXIT_BOT_ERROR
      case Unreadable => EXIT_BOT_ERROR
  }

  function ProcessExitCode(e: LoopExit, v: WavVerdict): int {
    match e
    case Raised => EXIT_BOT_ERROR
    case Returned(o) => FinalizeRecording(o, v)
  }

  /** The end reason on the bot's result line: the loop's own, whatever the WAV check said. */
  function ResultLine(e: LoopExit): Option<EndReason> {
    match e
    case Raised => None
    case Returned(o) => o.endReason
  }

  /** The row when the bot exits, if no sweep came: recording if the recorder has started. */
  predicate RowAtExit(row: Row, recording: bool) {
    WellShaped(row) && row.status == if recording then CallStatus.Recording else CallStatus.Joining
  }

  /** The whole way: a trace that ends at poll `k`, the WAV's verdict, the outside's answers. */
  function RowInTheEnd(row: Row, e: LoopExit, v: WavVerdict, wav: bool, out: Outside, t1: int, t2: int): Row {
    FinalRow(row, ProcessExitCode(e, v), ResultLine(e), wav, out, t1, t2)
  }

  predicate Succeeds(wav: bool, out: Outside) {
    wav && out.uploadOk && out.sourceFault.None? && out.transcription.Ok?
  }

  /** The exits that go on to the upload: 0 and 3 of a recording bot, and 7 when it left as alone. */
  predicate GoesOn(row: Row, code: int, result: Option<EndReason>) {
    row.status.Recording? && (code == 0 || code == 3 || (code == 7 && result == Some(EndReason.Alone)))
  }

  /** The exit table, first half: which exits end done, and with what. */
  lemma ExitTable(row: Row, code: int, result: Option<EndReason>, wav: bool, out: Outside, t1: int, t2: int)
    requires WellShaped(row) && !row.status.Terminal()
    ensures var r, lands := FinalRow(row, code, result, wav, out, t1, t2), GoesOn(row, code, result) && wav && out.uploadOk;
      && (r.status.Done? <==> lands && out.sourceFault.None? && out.transcription.Ok?)
      && (r.status.Done? ==>
            && r.endReason == Some(if code == 7 then EndReason.Alone
                                   else if code == 3 then EndReason.Removed
                                   else if result.Some? then result.value
                                   else EndReason.CallEnded)
            && r.transcript == Some(out.transcription.value))
      && (r.status.Done? || r.status.Failed?)
      && (r.audioUrl <==> lands)
      && r.updatedAt == (if GoesOn(row, code, result) then t2 else t1)
  {
  }

  /** Second half: why the others fail, each reason with its own code. */
  lemma FailureTable(row: Row, code: int, result: Option<EndReason>, wav: bool, out: Outside, t1: int, t2: int)
    requires WellShaped(row) && !row.status.Terminal()
    ensures var r, goesOn := FinalRow(row, code, result, wav, out, t1, t2).failureReason, GoesOn(row, code, result);
      && (r == Some(NeverAdmitted) <==> code == 2)
      && (r == Some(NoShow) <==> code == 4 && row.status.Recording?)
      && (r == Some(JoinTimeout) <==> code == 4 && !row.status.Recording?)
      && (r == Some(ConsentMissing) <==> code == 6)
      && (r == Some(SilentRecording) <==> code == 7 && !goesOn)
      && (forall n :: r == Some(BotError(n)) <==> n == code && code !in {2, 4, 6, 7} && !goesOn)
      && (r == Some(UploadFailed) <==> goesOn && !(wav && out.uploadOk))
  {
  }

  lemma TranscriptionFailureTable(row: Row, code: int, result: Option<EndReason>, wav: bool, out: Outside, t1: int, t2: int,
                                  detail: string)
    requires WellShaped(row) && !row.status.Terminal()
    ensures FinalRow(row, code, result, wav, out, t1, t2).failureReason == Some(TranscriptionFailed(detail)) <==>
      && GoesOn(row, code, result) && wav && out.uploadOk
      && (if out.sourceFault.Some? then out.sourceFault.value == detail
          else out.transcription.Err? && out.transcription.error == detail)
  {
  }

  /** done/alone: exactly the loop's alone outcome, with a WAV that is audible or silent, and a
      pipeline that succeeds; and then others were once seen in the call. */
  lemma DoneAloneMeans(t: Timeouts, start: real, ts: seq<Reading>, k: nat, e: LoopExit, row: Row,
                       v: WavVerdict, wav: bool, out: Outside, t1: int, t2: int)
    requires EndsAt(t, start, ts, k, e) && Ordered(ts)
    requires RowAtExit(row, After(t, start, ts, k).value.recording)
    ensures var r := RowInTheEnd(row, e, v, wav, out, t1, t2);
      && (r.endReason == Some(EndReason.Alone) <==>
            e == RoomExit(EXIT_OK, Some(EndReason.Alone), LeftAlone) && (v.Audible? || v.Silent?) && Succeeds(wav, out))
      && (r.endReason == Some(EndReason.Alone) ==> r.status.Done? && OthersSeen(ts, AdmittedAt(ts, k), k))
  {
    if e.Returned? {
      OutcomesNameTheirBranch(t, start, ts, k, e.outcome);
      if e.outcome.endReason == Some(EndReason.Alone) {
        AloneMeans(t, start, ts, k);
        OthersAreRemembered(t, start, ts, k);
        var a := AdmittedAt(ts, k);
        var u: nat :| AloneFrom(ts, a, u, k);
        OthersSeenLater(ts, a, u, k);
      }
    }
  }

  /** failed/no_show: exactly the loop's empty room, in which no poll ever showed anyone else.
      An exit 4 always comes after the recording began, so no row ends as join_timeout. */
  lemma NoShowMeans(t: Timeouts, start: real, ts: seq<Reading>, k: nat, e: LoopExit, row: Row,
                    v: WavVerdict, wav: bool, out: Outside, t1: int, t2: int)
    requires EndsAt(t, start, ts, k, e)
    requires RowAtExit(row, After(t, start, ts, k).value.recording)
    ensures var r := RowInTheEnd(row, e, v, wav, out, t1, t2);
      && (r.failureReason == Some(NoShow) <==> e == RoomExit(EXIT_JOIN_TIMEOUT, None, RoomEmpty))
      && (r.failureReason == Some(NoShow) ==> r.status.Failed? && !OthersSeen(ts, AdmittedAt(ts, k), k))
      && r.failureReason != Some(JoinTimeout)
  {
    FailureTable(row, ProcessExitCode(e, v), ResultLine(e), wav, out, t1, t2);
    if e.Returned? {
      OutcomesNameTheirBranch(t, start, ts, k, e.outcome);
      if e.outcome.exitCode == EXIT_JOIN_TIMEOUT {
        EmptyRoomMeans(t, start, ts, k);
      }
    }
  }

  /** failed/silent_recording: a clean recorded end other than alone, and a silent WAV. */
  lemma SilentMeans(t: Timeouts, start: real, ts: seq<Reading>, k: nat, e: LoopExit, row: Row,
                    v: WavVerdict, wav: bool, out: Outside, t1: int, t2: int)
    requires EndsAt(t, start, ts, k, e)
    requires RowAtExit(row, After(t, start, ts, k).value.recording)
    ensures RowInTheEnd(row, e, v, wav, out, t1, t2).failureReason == Some(SilentRecording) <==>
      e.Returned? && e.outcome.exitCode == EXIT_OK && e.outcome.recordingStarted && v.Silent?
      && e.outcome.endReason != Some(EndReason.Alone)
  {
  }

  /** done/removed: exactly when the page showed the removal while recording, and the pipeline
      succeeds, whatever the WAV check would say. */
  lemma DoneRemovedMeans(t: Timeouts, start: real, ts: seq<Reading>, k: nat, e: LoopExit, row: Row,
                         v: WavVerdict, wav: bool, out: Outside, t1: int, t2: int)
    requires EndsAt(t, start, ts, k, e)
    requires RowAtExit(row, After(t, start, ts, k).value.recording)
    ensures var r := RowInTheEnd(row, e, v, wav, out, t1, t2);
      r.status.Done? && r.endReason == Some(EndReason.Removed) <==>
        && RecordsAt(t, start, ts, k) && !ts[k].stop && !ts[k].readFault && ts[k].page.removed
        && Succeeds(wav, out)
  {
    ExitTable(row, ProcessExitCode(e, v), ResultLine(e), wav, out, t1, t2);
    AdmissionIsRemembered(t, start, ts, k);
    RemovalMeans(t, start, ts, k);
    if e.Returned? {
      OutcomeTable(t, start, ts, k, e.outcome);
    }
  }

  /** done/give_up: exactly when the time limit ended the recording, the WAV is audible and the
      pipeline succeeds. */
  lemma DoneGiveUpMeans(t: Timeouts, start: real, ts: seq<Reading>, k: nat, e: LoopExit, row: Row,
                        v: WavVerdict, wav: bool, out: Outside, t1: int, t2: int)
    requires EndsAt(t, start, ts, k, e)
    requires RowAtExit(row, After(t, start, ts, k).value.recording)
    ensures var r := RowInTheEnd(row, e, v, wav, out, t1, t2);
      r.status.Done? && r.endReason == Some(EndReason.GiveUp) <==>
        && RecordsAt(t, start, ts, k) && !ts[k].stop && !ts[k].readFault && !ts[k].page.removed && !ts[k].page.ended
        && ts[k].alive && ts[k].now - ts[AdmittedAt(ts, k)].now >= t.maxRecord && !ts[k].leaveFault
        && v.Audible? && Succeeds(wav, out)
  {
    ExitTable(row, ProcessExitCode(e, v), ResultLine(e), wav, out, t1, t2);
    AdmissionIsRemembered(t, start, ts, k);
    TimeLimitMeans(t, start, ts, k);
    if e.Returned? {
      OutcomeTable(t, start, ts, k, e.outcome);
    }
  }

  /** done/call_ended: the remaining clean ends of a recording with an audible WAV, that is the page's
      notice, the missing controls, and the operator's stop. */
  lemma DoneCallEndedMeans(t: Timeouts, start: real, ts: seq<Reading>, k: nat, e: LoopExit, row: Row,
                           v: WavVerdict, wav: bool, out: Outside, t1: int, t2: int)
    requires EndsAt(t, start, ts, k, e)
    requires RowAtExit(row, After(t, start, ts, k).value.recording)
    ensures var r := RowInTheEnd(row, e, v, wav, out, t1, t2);
      r.status.Done? && r.endReason == Some(EndReason.CallEnded) <==>
        && (|| e == RoomExit(0, Some(EndReason.CallEnded), EndedNotice)
            || e == RoomExit(0, Some(EndReason.CallEnded), ControlsGone)
            || e == RoomExit(0, None, StopRequested))
        && v.Audible? && Succeeds(wav, out)
  {
    ExitTable(row, ProcessExitCode(e, v), ResultLine(e), wav, out, t1, t2);
    AdmissionIsRemembered(t, start, ts, k);
    if e.Returned? {
      OutcomeTable(t, start, ts, k, e.outcome);
    }
  }

  /** failed/never_admitted: exactly when the waiting time has passed without an admission or a wall. */
  lemma NeverAdmittedMeans(t: Timeouts, start: real, ts: seq<Reading>, k: nat, e: LoopExit, row: Row,
                           v: WavVerdict, wav: bool, out: Outside, t1: int, t2: int)
    requires EndsAt(t, start, ts, k, e)
    requires RowAtExit(row, After(t, start, ts, k).value.recording)
    ensures RowInTheEnd(row, e, v, wav, out, t1, t2).failureReason == Some(NeverAdmitted) <==>
      WaitsAt(t, start, ts, k) && StillOutside(ts[k]) && ts[k].page.wall.None? && ts[k].now - start >= t.waitingRoom
  {
    FailureTable(row, ProcessExitCode(e, v), ResultLine(e), wav, out, t1, t2);
    WaitingTimeoutMeans(t, start, ts, k, WaitingTimeout);
    WaitingTimeoutMeans(t, start, ts, k, NotStartedTimeout);
    if e.Returned? {
      OutcomeTable(t, start, ts, k, e.outcome);
    }
  }

  /** failed/bot_error: exit 5 exactly after an exception, an outcome of the loop that is an error, or a
      clean recorded end whose WAV is missing or unreadable; exit 0 exactly after an early stop. */
  lemma BotErrorMeans(t: Timeouts, start: real, ts: seq<Reading>, k: nat, e: LoopExit, row: Row,
                      v: WavVerdict, wav: bool, out: Outside, t1: int, t2: int, n: int)
    requires EndsAt(t, start, ts, k, e)
    requires RowAtExit(row, After(t, start, ts, k).value.recording)
    ensures RowInTheEnd(row, e, v, wav, out, t1, t2).failureReason == Some(BotError(n)) <==>
      || (n == 5 && (|| e.Raised? || e.outcome.exitCode == 5
                     || (e.outcome.exitCode == 0 && e.outcome.recordingStarted && (v.Missing? || v.Unreadable?))))
      || (n == 0 && WaitsAt(t, start, ts, k) && ts[k].stop)
  {
    FailureTable(row, ProcessExitCode(e, v), ResultLine(e), wav, out, t1, t2);
    AdmissionIsRemembered(t, start, ts, k);
    StopMeans(t, start, ts, k);
    if e.Returned? {
      OutcomeTable(t, start, ts, k, e.outcome);
    }
  }

  /** An operator stop, for every verdict on the WAV, also when leaving raises. The row ends done
      exactly when the bot was recording, could leave, left an audible WAV, and the pipeline
      succeeds; and then as call_ended, although the loop names no end reason and the bot's exit
      table promises none. A stop before the recording fails the call. */
  lemma OperatorStopMeans(t: Timeouts, start: real, ts: seq<Reading>, k: nat, e: LoopExit, row: Row,
                          v: WavVerdict, wav: bool, out: Outside, t1: int, t2: int)
    requires EndsAt(t, start, ts, k, e) && ts[k].stop
    requires RowAtExit(row, After(t, start, ts, k).value.recording)
    ensures var recording, r := After(t, start, ts, k).value.recording, RowInTheEnd(row, e, v, wav, out, t1, t2);
      && (r.status.Done? <==> recording && !ts[k].leaveFault && v.Audible? && Succeeds(wav, out))
      && (r.status.Done? ==> r.endReason == Some(EndReason.CallEnded))
      && (!r.status.Done? ==> r.status.Failed? && r.endReason.None?)
      && (!recording ==> r.failureReason == Some(BotError(EXIT_OK)))
  {
  }

  /** For example: admitted at 0 s and stopped at 10 s, with an audible WAV and a pipeline that
      succeeds. The bot's result line names no reason; the row ends done as call_ended. */
  lemma OperatorStopExample(transcript: Transcript)
    ensures var t := Timeouts(600.0, 300.0, 60.0, 10800.0);
      var signs := Signs(false, false, true, None, false, InCall, Some(2), false);
      var ts := [Poll(0.0, false, signs, true, true, false, false, false, false, false),
                 Poll(10.0, true, signs, true, true, false, false, false, false, false)];
      var e := Returned(BotOutcome(EXIT_OK, None, StopRequested, true));
      var row := NewRow(0).(status := CallStatus.Recording);
      && EndsAt(t, 0.0, ts, 1, e)
      && ResultLine(e).None?
      && var r := RowInTheEnd(row, e, Audible, true, Outside(true, None, Ok(transcript)), 0, 0);
         r.status.Done? && r.endReason == Some(EndReason.CallEnded)
  {
    var t := Timeouts(600.0, 300.0, 60.0, 10800.0);
    var signs := Signs(false, false, true, None, false, InCall, Some(2), false);
    var ts := [Poll(0.0, false, signs, true, true, false, false, false, false, false),
               Poll(10.0, true, signs, true, true, false, false, false, false, false)];
    OnePollMore(t, 0.0, ts, 0, WAITING, Step(t, 0.0, WAITING, ts[0]));
  }

  /** So the end reason that the exit table promises for an operator stop is never stored on a
      done row: no call of any kind ends done without one. */
  lemma DoneNamesItsReason(row: Row, e: LoopExit, v: WavVerdict, wav: bool, out: Outside, t1: int, t2: int)
    requires WellShaped(row) && !row.status.Terminal()
    ensures var r := RowInTheEnd(row, e, v, wav, out, t1, t2); r.status.Done? <==> r.endReason.Some?
  {
  }
}
