/** The other exits of the call loops, read off the trace, in the numbers of the exit-code table:
    for each, the exact condition on the poll that ends the loop, both ways. */
module CallLoopExits {
  import opened Common
  import opened Calls
  import opened CallLoop
  import opened CallLoopMeaning

  /** The loop reaches poll `k` while it still waits for the admission. */
  predicate WaitsAt(t: Timeouts, start: real, ts: seq<Reading>, k: nat) {
    k < |ts| && After(t, start, ts, k).Some? && AdmittedAt(ts, k) == k
  }

  /** The loop reaches poll `k` after the admission. */
  predicate RecordsAt(t: Timeouts, start: real, ts: seq<Reading>, k: nat) {
    k < |ts| && After(t, start, ts, k).Some? && AdmittedAt(ts, k) < k
  }

  /** Removed: exit 3, exactly when the page shows the removal at a poll that is not a stop. */
  lemma RemovalMeans(t: Timeouts, start: real, ts: seq<Reading>, k: nat)
    ensures EndsAt(t, start, ts, k, Returned(BotOutcome(3, Some(Removed), RemovedNotice, true))) <==>
      RecordsAt(t, start, ts, k) && !ts[k].stop && !ts[k].readFault && ts[k].page.removed
  {
    if k < |ts| && After(t, start, ts, k).Some? {
      AdmissionIsRemembered(t, start, ts, k);
    }
  }

  /** Ended: exit 0, exactly when the page shows the end and no removal. */
  lemma EndMeans(t: Timeouts, start: real, ts: seq<Reading>, k: nat)
    ensures EndsAt(t, start, ts, k, Returned(BotOutcome(0, Some(CallEnded), EndedNotice, true))) <==>
      RecordsAt(t, start, ts, k) && !ts[k].stop && !ts[k].readFault && !ts[k].page.removed && ts[k].page.ended
  {
    if k < |ts| && After(t, start, ts, k).Some? {
      AdmissionIsRemembered(t, start, ts, k);
    }
  }

  /** A dead recorder: exit 5, exactly when the child is gone in a call that goes on, and leaving works. */
  lemma RecorderDeathMeans(t: Timeouts, start: real, ts: seq<Reading>, k: nat)
    ensures EndsAt(t, start, ts, k, Returned(BotOutcome(5, None, RecorderDied, true))) <==>
      && RecordsAt(t, start, ts, k) && !ts[k].stop && !ts[k].readFault && !ts[k].page.removed && !ts[k].page.ended
      && !ts[k].alive && !ts[k].leaveFault
  {
    if k < |ts| && After(t, start, ts, k).Some? {
      AdmissionIsRemembered(t, start, ts, k);
    }
  }

  /** The time limit: exit 0 and give_up, exactly when the longest recording time has passed since
      the admission in a call that goes on with a recorder that runs. */
  lemma TimeLimitMeans(t: Timeouts, start: real, ts: seq<Reading>, k: nat)
    ensures EndsAt(t, start, ts, k, Returned(BotOutcome(0, Some(GiveUp), MaxDuration, true))) <==>
      && RecordsAt(t, start, ts, k) && !ts[k].stop && !ts[k].readFault && !ts[k].page.removed && !ts[k].page.ended
      && ts[k].alive && ts[k].now - ts[AdmittedAt(ts, k)].now >= t.maxRecord && !ts[k].leaveFault
  {
    if k < |ts| && After(t, start, ts, k).Some? {
      AdmissionIsRemembered(t, start, ts, k);
    }
  }

  /** A stop: exit 0 without an end reason, exactly at a poll that asks for it; while recording the
      leaving must work. */
  lemma StopMeans(t: Timeouts, start: real, ts: seq<Reading>, k: nat)
    ensures EndsAt(t, start, ts, k, Returned(BotOutcome(0, None, StopRequested, true))) <==>
      RecordsAt(t, start, ts, k) && ts[k].stop && !ts[k].leaveFault
    ensures EndsAt(t, start, ts, k, Returned(BotOutcome(0, None, StopRequested, false))) <==>
      WaitsAt(t, start, ts, k) && ts[k].stop
  {
    if k < |ts| && After(t, start, ts, k).Some? {
      AdmissionIsRemembered(t, start, ts, k);
    }
  }

  /** A poll on which a waiting bot is neither stopped nor admitted, and the page can be read. */
  predicate StillOutside(p: Reading) {
    !p.stop && !p.readFault && !p.page.admitted && !p.probeFault
  }

  /** Never admitted: exit 2, exactly when the waiting time has passed and no wall shows; the page
      tells whether the host has started the meeting. */
  lemma WaitingTimeoutMeans(t: Timeouts, start: real, ts: seq<Reading>, k: nat, reason: Reason)
    requires reason.WaitingTimeout? || reason.NotStartedTimeout?
    ensures EndsAt(t, start, ts, k, Returned(BotOutcome(2, None, reason, false))) <==>
      && WaitsAt(t, start, ts, k) && StillOutside(ts[k]) && ts[k].page.wall.None?
      && ts[k].now - start >= t.waitingRoom && ts[k].page.notStarted == reason.NotStartedTimeout?
  {
    if k < |ts| && After(t, start, ts, k).Some? {
      AdmissionIsRemembered(t, start, ts, k);
    }
  }

  /** A wall: exit 5, exactly when it shows to a bot that is not admitted. */
  lemma WallMeans(t: Timeouts, start: real, ts: seq<Reading>, k: nat, o: Obstacle)
    ensures EndsAt(t, start, ts, k, Returned(BotOutcome(5, None, Wall(o), false))) <==>
      WaitsAt(t, start, ts, k) && StillOutside(ts[k]) && ts[k].page.wall == Some(o)
  {
    if k < |ts| && After(t, start, ts, k).Some? {
      AdmissionIsRemembered(t, start, ts, k);
    }
  }

  /** A failed start: exit 5, exactly at an admission whose start fails. */
  lemma FailedStartMeans(t: Timeouts, start: real, ts: seq<Reading>, k: nat)
    ensures EndsAt(t, start, ts, k, Returned(BotOutcome(5, None, RecorderFailed, false))) <==>
      WaitsAt(t, start, ts, k) && !ts[k].stop && !ts[k].readFault && ts[k].page.admitted && !ts[k].startOk
  {
    if k < |ts| && After(t, start, ts, k).Some? {
      AdmissionIsRemembered(t, start, ts, k);
    }
  }

  /** The table: what each reason stands for. With the meanings above and those of the room, this
      leaves no outcome of a loop without its condition. */
  lemma OutcomeTable(t: Timeouts, start: real, ts: seq<Reading>, k: nat, o: BotOutcome)
    requires EndsAt(t, start, ts, k, Returned(o))
    ensures o ==
      match o.reason
      case StopRequested => BotOutcome(0, None, o.reason, o.recordingStarted)
      case RecorderFailed => BotOutcome(5, None, o.reason, false)
      case Wall(_) => BotOutcome(5, None, o.reason, false)
      case WaitingTimeout => BotOutcome(2, None, o.reason, false)
      case NotStartedTimeout => BotOutcome(2, None, o.reason, false)
      case RemovedNotice => BotOutcome(3, Some(Removed), o.reason, true)
      case EndedNotice => BotOutcome(0, Some(CallEnded), o.reason, true)
      case RecorderDied => BotOutcome(5, None, o.reason, true)
      case MaxDuration => BotOutcome(0, Some(GiveUp), o.reason, true)
      case LeftAlone => BotOutcome(0, Some(Alone), o.reason, true)
      case RoomEmpty => BotOutcome(4, None, o.reason, true)
      case CountUnavailable => BotOutcome(5, None, o.reason, true)
      case ControlsGone => BotOutcome(0, Some(CallEnded), o.reason, true)
    ensures o.recordingStarted <==> AdmittedAt(ts, k) < k
  {
    AdmissionIsRemembered(t, start, ts, k);
  }

  /** The loop never goes on past a poll on which it could not look, leave or wait. A leaving that
      raises lets only those outcomes through that need no leaving. */
  lemma FaultsEndTheLoop(t: Timeouts, start: real, ts: seq<Reading>, k: nat)
    requires k < |ts|
    ensures ts[k].readFault && !ts[k].stop ==> After(t, start, ts, k + 1).None?
    ensures RecordsAt(t, start, ts, k) && (ts[k].probeFault || ts[k].waitFault) ==> After(t, start, ts, k + 1).None?
    ensures WaitsAt(t, start, ts, k) && !ts[k].page.admitted && (ts[k].probeFault || ts[k].waitFault) ==>
      After(t, start, ts, k + 1).None?
    ensures RecordsAt(t, start, ts, k) && ts[k].probeFault && !ts[k].stop ==>
      forall o :: EndsAt(t, start, ts, k, Returned(o)) ==>
        o.reason in {RemovedNotice, EndedNotice, RecorderDied, MaxDuration}
    ensures RecordsAt(t, start, ts, k) && ts[k].leaveFault ==>
      forall o :: EndsAt(t, start, ts, k, Returned(o)) ==> o.reason in {RemovedNotice, EndedNotice, ControlsGone}
  {
    if After(t, start, ts, k).Some? {
      AdmissionIsRemembered(t, start, ts, k);
    }
  }

  /** An exception leaves the loop only at a poll on which something raised; on a poll without a
      fault the loop returns or goes on. */
  lemma ExceptionsNeedAFault(t: Timeouts, start: real, ts: seq<Reading>, k: nat)
    ensures EndsAt(t, start, ts, k, Raised) ==>
      ts[k].readFault || ts[k].probeFault || ts[k].leaveFault || ts[k].waitFault
    ensures WaitsAt(t, start, ts, k) && !ts[k].stop ==>
      (EndsAt(t, start, ts, k, Raised) <==>
         || ts[k].readFault
         || (!ts[k].page.admitted
             && (ts[k].probeFault
                 || (ts[k].page.wall.None? && ts[k].now - start < t.waitingRoom && ts[k].waitFault))))
    ensures RecordsAt(t, start, ts, k) && ts[k].stop ==> (EndsAt(t, start, ts, k, Raised) <==> ts[k].leaveFault)
    ensures RecordsAt(t, start, ts, k) && !ts[k].stop && ts[k].readFault ==> EndsAt(t, start, ts, k, Raised)
  {
    if k < |ts| && After(t, start, ts, k).Some? {
      AdmissionIsRemembered(t, start, ts, k);
    }
  }
}
