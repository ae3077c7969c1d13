/** What the Zoom page predicates make of one snapshot of the page. */
module ZoomStates {
  import opened Common
  import opened CallLoop

  datatype ZoomPage = ZoomPage(
    waitingNotice: bool,
    notStartedNotice: bool,
    leaveControl: bool,
    endControl: bool,         // the bot has been made host
    removedDialog: bool,
    removedText: bool,
    endedDialog: bool,
    endedText: bool,
    signInWall: bool,
    authenticatedWall: bool,
    desktopWall: bool,
    passcodeWall: bool,
    countChip: Option<nat>,   // the number on the participants control, when there is one
    aloneHint: bool)
  {
    predicate InCallControls() {
      leaveControl || endControl
    }

    predicate IsAdmitted() {
      if waitingNotice then false
      else if notStartedNotice then false
      else InCallControls()
    }

    predicate IsRemoved() {
      if removedDialog then true
      else if !removedText then false
      else !InCallControls()
    }

    predicate IsCallEnded() {
      if endedDialog then true
      else if !endedText then false
      else !InCallControls()
    }

    function ParticipantCount(): Option<nat> {
      if InCallControls() then countChip else None
    }

    predicate BotAloneInCall() {
      InCallControls() &&
      match ParticipantCount()
      case Some(n) => if n == 1 then true else if n > 1 then false else aloneHint
      case None => aloneHint
    }

    /** The first wall that shows, in the order of the checks. */
    function FatalWall(): Option<Obstacle> {
      if signInWall then Some(SignInRequired)
      else if authenticatedWall then Some(AuthenticatedOnly)
      else if desktopWall then Some(DesktopRequired)
      else if passcodeWall then Some(PasscodeMissing)
      else None
    }
  }

  function Signs(page: ZoomPage): Signs {
    CallLoop.Signs(
      page.IsRemoved(),
      page.IsCallEnded(),
      page.IsAdmitted(),
      page.FatalWall(),
      page.notStartedNotice,
      if page.InCallControls() then InCall else Gone,
      page.ParticipantCount(),
      page.BotAloneInCall())
  }

  type ZoomPoll = Poll<ZoomPage>

  function Read(p: ZoomPoll): Reading {
    Poll(p.now, p.stop, Signs(p.page), p.alive, p.startOk, p.startOrphans, p.readFault, p.probeFault, p.leaveFault, p.waitFault)
  }

  function View(trace: seq<ZoomPoll>): (r: seq<Reading>)
    ensures |r| == |trace| && forall i :: 0 <= i < |trace| ==> r[i] == Read(trace[i])
  {
    seq(|trace|, i requires 0 <= i < |trace| => Read(trace[i]))
  }
}

/** The Zoom poll loop. */
module ZoomLoop {
  import opened Common
  import opened Calls
  import opened CallLoop
  import opened LateStarts
  import opened RecorderControl
  import opened ZoomStates

  /** An iteration before the recording has started. Joining computer audio after the
      announcement is best effort and changes nothing here. */
  method PollWaiting(recorder: Recorder, start: real, t: Timeouts, before: LoopState, p: ZoomPoll)
    returns (s: LoopState, exit: Option<LoopExit>, events: seq<Event>)
    requires !before.recording && !recorder.hasProc && !p.stop && !p.readFault
    modifies recorder
    ensures Step(t, start, before, Read(p)) == if exit.Some? then Leave(exit.value, events) else Stay(s, events)
    ensures exit.None? ==> recorder.hasProc == s.recording
    ensures exit.Some? && exit.value.Returned? ==> recorder.LeftBy(exit.value.outcome, p.startOrphans)
  {
    if p.page.IsAdmitted() {
      s, exit, events := StartRecording(recorder, before, p.now, p.startOk, p.startOrphans);
    } else {
      exit := PollKnocking(t, start, before, Read(p));
      s, events := before, [];
    }
  }

  /** An iteration while recording: the toolbar alone anchors the bot in the call. */
  method PollInCall(recorder: Recorder, start: real, t: Timeouts, before: LoopState, p: ZoomPoll)
    returns (s: LoopState, exit: Option<LoopExit>, events: seq<Event>)
    requires before.recording && recorder.hasProc && recorder.childAlive == p.alive && !p.stop && !p.readFault
    modifies recorder
    ensures Step(t, start, before, Read(p)) == if exit.Some? then Leave(exit.value, events) else Stay(s, events)
    ensures exit.None? ==> recorder.hasProc && s.recording
    ensures exit.Some? && exit.value.Returned? ==> recorder.LeftBy(exit.value.outcome, p.startOrphans)
  {
    OnlyStartsOrphan(t, before, Read(p));
    s := before;
    var anchor := p.page.InCallControls();
    exit, events := CheckOver(recorder, t, s, Read(p));
    if exit.Some? {
      return;
    }
    if anchor {
      s, exit, events := WatchRoom(recorder, t, s, Read(p));
      if exit.Some? {
        return;
      }
    } else {
      s := s.(missed := s.missed + 1);
      if s.missed >= ENDED_CONFIRMATION_POLLS {
        recorder.Stop();
        return s, Some(Returned(BotOutcome(EXIT_OK, Some(CallEnded), ControlsGone, true))), [RecorderStopped];
      }
    }
    if p.waitFault {
      exit := Some(Raised);
    }
  }

  /** One iteration of the loop. */
  method PollOnce(recorder: Recorder, start: real, t: Timeouts, before: LoopState, p: ZoomPoll)
    returns (s: LoopState, exit: Option<LoopExit>, events: seq<Event>)
    requires recorder.hasProc == before.recording
    modifies recorder
    ensures Step(t, start, before, Read(p)) == if exit.Some? then Leave(exit.value, events) else Stay(s, events)
    ensures exit.None? ==> recorder.hasProc == s.recording
    ensures exit.Some? && exit.value.Returned? ==> recorder.LeftBy(exit.value.outcome, p.startOrphans)
  {
    s, exit, events := before, None, [];
    recorder.Observe(p.alive);
    if p.stop {
      var e: LoopExit;
      e, events := HandleStop(recorder, p.leaveFault, s.recording);
      exit := Some(e);
    } else if p.readFault {
      exit := Some(Raised);
    } else if !s.recording {
      s, exit, events := PollWaiting(recorder, start, t, s, p);
    } else {
      s, exit, events := PollInCall(recorder, start, t, s, p);
    }
  }

  /** Polls until the call is over, or until the trace is used up. */
  method RunCallLoop(trace: seq<ZoomPoll>, start: real, t: Timeouts, recorder: Recorder)
    returns (exit: Option<LoopExit>, at: nat, log: seq<Event>)
    requires !recorder.hasProc
    modifies recorder
    ensures exit.Some? ==> EndsAt(t, start, View(trace), at, exit.value) && log == Log(t, start, View(trace), at + 1)
    ensures exit.None? ==> at == |trace| && After(t, start, View(trace), at).Some? && log == Log(t, start, View(trace), at)
    ensures exit.Some? && exit.value.Returned? ==>
      recorder.LeftBy(exit.value.outcome, trace[at].startOrphans)
  {
    ghost var view := View(trace);
    var s, events := WAITING, [];
    exit, at, log := None, 0, [];
    while at < |trace|
      invariant at <= |trace| && exit.None?
      invariant After(t, start, view, at) == Some(s)
      invariant log == Log(t, start, view, at)
      invariant recorder.hasProc == s.recording
    {
      ghost var before := s;
      s, exit, events := PollOnce(recorder, start, t, s, trace[at]);
      OnePollMore(t, start, view, at, before, if exit.Some? then Leave(exit.value, events) else Stay(s, events));
      log := log + events;
      if exit.Some? {
        return;
      }
      at := at + 1;
    }
  }

  /** The caller of the loop: an exception stops the recorder if it still runs, and goes on. */
  method JoinAndRecord(trace: seq<ZoomPoll>, start: real, t: Timeouts)
    returns (exit: Option<LoopExit>, at: nat, log: seq<Event>, recorder: Recorder)
    ensures exit.Some? ==> EndsAt(t, start, View(trace), at, exit.value)
    ensures exit.None? ==> at == |trace| && After(t, start, View(trace), at).Some?
    ensures exit.Some? ==> (recorder.IsRunning() <==> exists k: nat :: StartsLate(t, start, View(trace), k))
    ensures exit.Some? ==> var l := Log(t, start, View(trace), at + 1); log == l || log == l + [RecorderStopped]
  {
    recorder := new Recorder();
    exit, at, log := RunCallLoop(trace, start, t, recorder);
    if exit == Some(Raised) {
      if recorder.IsRunning() {
        recorder.Stop();
        log := log + [RecorderStopped];
      }
    }
    if exit.Some? {
      LateStartOfTheTrace(t, start, View(trace), at, exit.value);
    }
  }

  /** It happens: one poll that admits the bot, and a start that fails late. */
  method LateStartExample() returns (exit: Option<LoopExit>, recorder: Recorder)
    ensures exit == Some(Refused(EXIT_BOT_ERROR, RecorderFailed)) && recorder.IsRunning()
  {
    var t := Timeouts(600.0, 300.0, 60.0, 10800.0);
    var p := Poll(0.0, false, ZoomPage(false, false, true, false, false, false, false, false, false, false, false, false, None, false),
                  true, false, true, false, false, false, false);
    ghost var view := View([p]);
    assert StartsLate(t, 0.0, view, 0);
    LateStartsEndTheLoop(t, 0.0, view, 0);
    var at, log;
    exit, at, log, recorder := JoinAndRecord([p], 0.0, t);
    assert After(t, 0.0, view, 1).None?;
    EndsOnce(t, 0.0, view, 0, Refused(EXIT_BOT_ERROR, RecorderFailed), at, exit.value);
  }
}
