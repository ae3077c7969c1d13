/** The recorder: a child process that writes the WAV, driven by the call loops. */
module RecorderControl {
  import opened Common
  import opened Calls
  import opened CallLoop

  class Recorder {
    var hasProc: bool     // a child is owned
    var childAlive: bool  // the owned child has not exited by itself

    constructor ()
      ensures !hasProc
    {
      hasProc, childAlive := false, false;
    }

    predicate IsRunning()
      reads this
    {
      hasProc && childAlive
    }

    /** After an ending with this outcome the child is gone; only when the start itself failed, and
        did so late, the child runs on. */
    predicate LeftBy(o: BotOutcome, startOrphans: bool)
      reads this
    {
      if o.reason.RecorderFailed? && startOrphans then IsRunning() else !hasProc
    }

    /** Spawns the child and watches it through the start grace; a child that exits at once is let
        go. When the start raises between the two, the child runs on and stays owned. */
    method Start(ok: bool, orphans: bool) returns (started: bool)
      modifies this
      ensures started == ok
      ensures hasProc == IsRunning() == (ok || orphans)
    {
      hasProc, childAlive := true, ok || orphans;
      if !ok && orphans {
        return false;
      }
      if !childAlive {
        hasProc := false;
      }
      started := ok;
    }

    /** Lets go of the child first, then terminates it; without a child nothing happens. */
    method Stop()
      modifies this
      ensures !hasProc && !IsRunning()
    {
      if !hasProc {
        return;
      }
      hasProc := false;
      childAlive := false;
    }

    /** What polling the child shows at one moment. */
    method Observe(alive: bool)
      modifies this`childAlive
      ensures childAlive == alive
    {
      childAlive := alive;
    }
  }

  /** Once recording, no ending is a failed start. */
  lemma OnlyStartsOrphan(t: Timeouts, s: LoopState, p: Reading)
    ensures var m := InCallStep(t, s, p);
      m.Leave? && m.exit.Returned? ==> !m.exit.outcome.reason.RecorderFailed? && m.exit.outcome.recordingStarted
  {
  }

  /** The admitting poll: starts the recorder and announces it, or gives up at once. */
  method StartRecording(recorder: Recorder, before: LoopState, now: real, ok: bool, orphans: bool)
    returns (s: LoopState, exit: Option<LoopExit>, events: seq<Event>)
    requires !recorder.hasProc
    modifies recorder
    ensures AdmitStep(before, now, ok) == if exit.Some? then Leave(exit.value, events) else Stay(s, events)
    ensures exit.None? ==> recorder.hasProc && s.recording
    ensures exit.Some? ==> exit.value.Returned? && recorder.LeftBy(exit.value.outcome, orphans)
  {
    var started := recorder.Start(ok, orphans);
    if !started {
      return before, Some(Refused(EXIT_BOT_ERROR, RecorderFailed)), [StartFailed];
    }
    s := before.(recording := true, admittedAt := now, unknownSince := Some(now));
    exit, events := None, [RecorderStarted, Announced];
  }

  /** A poll that has not been admitted: nothing is started, and the loop waits or gives up. */
  method PollKnocking(t: Timeouts, start: real, s: LoopState, p: Reading) returns (exit: Option<LoopExit>)
    ensures KnockingStep(t, start, s, p) == if exit.Some? then Leave(exit.value, []) else Stay(s, [])
    ensures exit.Some? && exit.value.Returned? ==> !exit.value.outcome.reason.RecorderFailed?
  {
    if p.probeFault {
      return Some(Raised);
    }
    if p.page.wall.Some? {
      return Some(Refused(EXIT_BOT_ERROR, Wall(p.page.wall.value)));
    }
    if p.now - start >= t.waitingRoom {
      var reason := if p.page.notStarted then NotStartedTimeout else WaitingTimeout;
      return Some(Refused(EXIT_NEVER_ADMITTED, reason));
    }
    exit := if p.waitFault then Some(Raised) else None;
  }

  /** Leaves the call if that does not raise; the recorder is stopped either way. */
  method Finish(recorder: Recorder, leaveFault: bool, code: int, endReason: Option<EndReason>, reason: Reason)
    returns (exit: LoopExit, events: seq<Event>)
    modifies recorder
    ensures !recorder.hasProc
    ensures leaveFault ==> exit == Raised && events == [RecorderStopped]
    ensures !leaveFault ==>
      exit == Returned(BotOutcome(code, endReason, reason, true)) && events == [LeaveTried, RecorderStopped]
  {
    events := if leaveFault then [] else [LeaveTried];
    recorder.Stop();
    events := events + [RecorderStopped];
    exit := if leaveFault then Raised else Returned(BotOutcome(code, endReason, reason, true));
  }

  method HandleStop(recorder: Recorder, leaveFault: bool, recording: bool)
    returns (exit: LoopExit, events: seq<Event>)
    modifies recorder
    ensures recording ==> !recorder.hasProc
    ensures !recording ==>
      exit == Refused(EXIT_OK, StopRequested) && events == [] && recorder.hasProc == old(recorder.hasProc)
    ensures recording && leaveFault ==> exit == Raised && events == [RecorderStopped]
    ensures recording && !leaveFault ==>
      exit == Returned(BotOutcome(EXIT_OK, None, StopRequested, true)) && events == [LeaveTried, RecorderStopped]
  {
    if !recording {
      return Refused(EXIT_OK, StopRequested), [];
    }
    exit, events := Finish(recorder, leaveFault, EXIT_OK, None, StopRequested);
  }

  /** Ends the call when the page says so, the recorder has died, or the time is up. */
  method CheckOver(recorder: Recorder, t: Timeouts, s: LoopState, p: Reading)
    returns (exit: Option<LoopExit>, events: seq<Event>)
    requires recorder.hasProc && recorder.childAlive == p.alive
    modifies recorder
    ensures OverStep(t, s, p) == if exit.Some? then Some(Leave(exit.value, events)) else None
    ensures exit.None? ==> recorder.hasProc && events == []
    ensures exit.Some? && exit.value.Returned? ==> !recorder.hasProc
  {
    exit, events := None, [];
    var e: LoopExit;
    if p.page.removed {
      recorder.Stop();
      return Some(Returned(BotOutcome(EXIT_REMOVED, Some(Removed), RemovedNotice, true))), [RecorderStopped];
    }
    if p.page.ended {
      recorder.Stop();
      return Some(Returned(BotOutcome(EXIT_OK, Some(CallEnded), EndedNotice, true))), [RecorderStopped];
    }
    if !recorder.IsRunning() {
      e, events := Finish(recorder, p.leaveFault, EXIT_BOT_ERROR, None, RecorderDied);
      return Some(e), events;
    }
    if p.now - s.admittedAt >= t.maxRecord {
      e, events := Finish(recorder, p.leaveFault, EXIT_OK, Some(GiveUp), MaxDuration);
      return Some(e), events;
    }
    if p.probeFault {
      exit := Some(Raised);
    }
  }

  /** Watches who is in the room, on a poll with in-call evidence: moves the alone and
      unknown timers, and ends the call when one of them has run out. */
  method WatchRoom(recorder: Recorder, t: Timeouts, before: LoopState, p: Reading)
    returns (s: LoopState, exit: Option<LoopExit>, events: seq<Event>)
    modifies recorder
    ensures exit.Some? ==> RoomStep(t, before, p) == Leave(exit.value, events) && !recorder.hasProc
    ensures exit.None? ==> RoomStep(t, before, p) == Wait(s, p) && events == []
    ensures exit.None? ==> recorder.hasProc == old(recorder.hasProc) && s.recording == before.recording
  {
    s, events := before.(missed := 0), [];
    var e: LoopExit;
    var count, alone, now := p.page.count, p.page.alone, p.now;
    if count.Some? && count.value >= 2 {
      s := s.(sawOthers := true, aloneSince := None, unknownSince := None);
    } else if alone {
      if s.sawOthers {
        if s.aloneSince.None? {
          s := s.(aloneSince := Some(now));
        } else if now - s.aloneSince.value >= t.aloneGrace {
          e, events := Finish(recorder, p.leaveFault, EXIT_OK, Some(Alone), LeftAlone);
          return s, Some(e), events;
        }
      } else {
        s := s.(unknownSince := None);
        if now - s.admittedAt >= t.emptyRoom {
          e, events := Finish(recorder, p.leaveFault, EXIT_JOIN_TIMEOUT, None, RoomEmpty);
          return s, Some(e), events;
        }
      }
    } else if s.sawOthers {
      s := s.(aloneSince := None, unknownSince := None);
    } else {
      if s.unknownSince.None? {
        s := s.(unknownSince := Some(now));
      }
      if now - s.unknownSince.value >= t.emptyRoom {
        e, events := Finish(recorder, p.leaveFault, EXIT_BOT_ERROR, None, CountUnavailable);
        return s, Some(e), events;
      }
    }
    exit := None;
  }
}
