/** The two platforms side by side: Zoom's immunity to notice text, and how far the Meet and
    Zoom loops agree. */
module Platforms {
  import opened Common
  import opened Calls
  import opened CallLoop
  import opened CallLoopMeaning
  import Meet = MeetStates
  import Zoom = ZoomStates

  type MeetPoll = Meet.MeetPoll
  type ZoomPoll = Zoom.ZoomPoll

  // What the pages say

  /** A Meet page, in its own marks. */
  lemma MeetPagesMean(page: Meet.MeetPage)
    ensures var s := Meet.Signs(page);
      && (s.admitted <==> page.leaveControl && !page.knocking)
      && (s.removed <==> page.removedNotice) && (s.ended <==> page.endedNotice)
      && (s.wall == if page.joinBlocked then Some(AntiBotWall) else None) && !s.notStarted
      && (s.evidence.Gone? <==> !page.leaveControl) && (s.evidence.Held? <==> page.leaveControl && page.knocking)
      && (forall n :: s.count == Some(n) <==> page.leaveControl && page.countChip == Some(n))
      && (s.alone <==>
            page.leaveControl && (page.countChip == Some(1) || (page.countChip in {None, Some(0)} && page.aloneHint)))
  {
  }

  /** A Zoom page, in its own marks. Leave and End count alike. */
  lemma ZoomPagesMean(page: Zoom.ZoomPage)
    ensures var s, controls := Zoom.Signs(page), page.leaveControl || page.endControl;
      && (s.admitted <==> controls && !page.waitingNotice && !page.notStartedNotice)
      && (s.removed <==> page.removedDialog || (page.removedText && !controls))
      && (s.ended <==> page.endedDialog || (page.endedText && !controls))
      && (s.notStarted <==> page.notStartedNotice)
      && (s.evidence.Gone? <==> !controls) && (s.evidence.InCall? <==> controls)
      && (forall n :: s.count == Some(n) <==> controls && page.countChip == Some(n))
      && (s.alone <==>
            controls && (page.countChip == Some(1) || (page.countChip in {None, Some(0)} && page.aloneHint)))
  {
  }

  /** The walls of Zoom in the order in which they are looked for. */
  lemma ZoomWallsMean(page: Zoom.ZoomPage)
    ensures var wall := Zoom.Signs(page).wall;
      && (wall == Some(SignInRequired) <==> page.signInWall)
      && (wall == Some(AuthenticatedOnly) <==> !page.signInWall && page.authenticatedWall)
      && (wall == Some(DesktopRequired) <==> !page.signInWall && !page.authenticatedWall && page.desktopWall)
      && (wall == Some(PasscodeMissing) <==>
            !page.signInWall && !page.authenticatedWall && !page.desktopWall && page.passcodeWall)
      && (wall.None? <==> !page.signInWall && !page.authenticatedWall && !page.desktopWall && !page.passcodeWall)
      && wall != Some(AntiBotWall)
  {
  }

  /** Neither loop ever leaves for an empty room, or for having been left alone, on a poll that shows
      no count and no hint, or that counts anyone else. */
  lemma UnknownIsNeverLeft(t: Timeouts, start: real, mt: seq<MeetPoll>, zt: seq<ZoomPoll>, k: nat, o: BotOutcome)
    requires o.endReason == Some(Alone) || o.exitCode == 4
    ensures EndsAt(t, start, Meet.View(mt), k, Returned(o)) ==>
      mt[k].page.leaveControl
      && (mt[k].page.countChip == Some(1) || (mt[k].page.countChip in {None, Some(0)} && mt[k].page.aloneHint))
    ensures EndsAt(t, start, Zoom.View(zt), k, Returned(o)) ==>
      (zt[k].page.leaveControl || zt[k].page.endControl)
      && (zt[k].page.countChip == Some(1) || (zt[k].page.countChip in {None, Some(0)} && zt[k].page.aloneHint))
  {
    if EndsAt(t, start, Meet.View(mt), k, Returned(o)) {
      LeavingNeedsAnAloneSign(t, start, Meet.View(mt), k, o);
      MeetPagesMean(mt[k].page);
    }
    if EndsAt(t, start, Zoom.View(zt), k, Returned(o)) {
      LeavingNeedsAnAloneSign(t, start, Zoom.View(zt), k, o);
      ZoomPagesMean(zt[k].page);
    }
  }

  lemma LeavingNeedsAnAloneSign(t: Timeouts, start: real, ts: seq<Reading>, k: nat, o: BotOutcome)
    requires EndsAt(t, start, ts, k, Returned(o)) && (o.endReason == Some(Alone) || o.exitCode == 4)
    ensures ts[k].page.alone
  {
  }

  // Zoom's notices

  /** The toolbar shows and no terminal dialog does; any free-standing text may be there. */
  predicate LiveCall(page: Zoom.ZoomPage) {
    page.InCallControls() && !page.removedDialog && !page.endedDialog
  }

  /** A poll at which the toolbar shows and no dialog does: whatever text is on the page, the Zoom
      loop does not report a removal or the end of the call there. */
  lemma NoticesCannotEndALiveCall(t: Timeouts, start: real, trace: seq<ZoomPoll>, k: nat, o: BotOutcome)
    requires EndsAt(t, start, Zoom.View(trace), k, Returned(o))
    requires LiveCall(trace[k].page)
    ensures o.endReason != Some(Removed) && o.endReason != Some(CallEnded)
  {
    var s, p := After(t, start, Zoom.View(trace), k).value, Zoom.View(trace)[k];
    assert p == Zoom.Read(trace[k]);
    assert !p.page.removed && !p.page.ended && p.page.evidence.InCall?;
  }

  /** The same poll, but for free-standing removal or ended text next to the toolbar. */
  predicate SameButForText(p: ZoomPoll, q: ZoomPoll) {
    if p.page.InCallControls() then
      q == p.(page := p.page.(removedText := q.page.removedText, endedText := q.page.endedText))
    else q == p
  }

  /** Such text does not interfere at all: wherever it is put in or taken out on polls with the
      toolbar up, the loop sees the same trace, so it ends at the same poll with the same outcome. */
  lemma NoticeTextDoesNotInterfere(t: Timeouts, start: real, trace: seq<ZoomPoll>, other: seq<ZoomPoll>)
    requires |trace| == |other| && forall i :: 0 <= i < |trace| ==> SameButForText(trace[i], other[i])
    ensures Zoom.View(trace) == Zoom.View(other)
    ensures forall k: nat, e :: EndsAt(t, start, Zoom.View(trace), k, e) <==> EndsAt(t, start, Zoom.View(other), k, e)
  {
    forall i | 0 <= i < |trace| ensures Zoom.View(trace)[i] == Zoom.View(other)[i] {
      assert SameButForText(trace[i], other[i]);
    }
  }

  /** Without dialogs and texts, the missing toolbar is the only other way to a reported end,
      and it takes exactly three polls in a row. */
  lemma ToolbarGoneForThreePolls(t: Timeouts, start: real, trace: seq<ZoomPoll>, k: nat)
    requires k < |trace| && Settled(t, start, Zoom.View(trace), k)
    ensures var ts := Zoom.View(trace);
      EndsAt(t, start, ts, k, RoomExit(EXIT_OK, Some(CallEnded), ControlsGone)) <==>
        && AdmittedAt(ts, k) + 2 < k
        && !trace[k].page.InCallControls() && !trace[k - 1].page.InCallControls() && !trace[k - 2].page.InCallControls()
  {
    var ts := Zoom.View(trace);
    ControlsGoneMeans(t, start, ts, k);
    if k >= 2 {
      EvidenceIsTheToolbar(trace, k);
      EvidenceIsTheToolbar(trace, k - 1);
      EvidenceIsTheToolbar(trace, k - 2);
    }
  }

  lemma EvidenceIsTheToolbar(trace: seq<ZoomPoll>, j: nat)
    requires j < |trace|
    ensures Zoom.View(trace)[j].page.evidence.Gone? <==> !trace[j].page.InCallControls()
  {
  }

  // Parity

  /** Two polls show the same, apart from how each platform words it. */
  predicate SamePoll(m: MeetPoll, z: ZoomPoll) {
    && m.now == z.now && m.stop == z.stop && m.alive == z.alive && m.startOk == z.startOk
    && m.readFault == z.readFault && m.probeFault == z.probeFault
    && m.leaveFault == z.leaveFault && m.waitFault == z.waitFault
    && m.page.removedNotice == z.page.IsRemoved()
    && m.page.endedNotice == z.page.IsCallEnded()
    && m.page.IsAdmitted() == z.page.IsAdmitted()
    && m.page.joinBlocked == z.page.FatalWall().Some?
    && m.page.ParticipantCount() == z.page.ParticipantCount()
    && m.page.BotAloneInCall() == z.page.BotAloneInCall()
  }

  /** Both platforms' controls show or neither's; waiting text may show. */
  predicate SameControls(m: MeetPoll, z: ZoomPoll) {
    m.page.leaveControl == z.page.InCallControls()
  }

  /** Two traces that show the same at every poll, the controls included once the bot is admitted. */
  ghost predicate SamePages(mt: seq<MeetPoll>, zt: seq<ZoomPoll>) {
    && |mt| == |zt|
    && (forall i :: 0 <= i < |mt| ==> SamePoll(mt[i], zt[i]))
    && (forall i: nat :: i < |mt| && AdmittedAt(Meet.View(mt), i) < i ==> SameControls(mt[i], zt[i]))
  }

  /** The same exit code, end reason and recording flag; the texts may differ. */
  predicate SameExit(e: LoopExit, f: LoopExit) {
    match (e, f)
    case (Raised, Raised) => true
    case (Returned(o), Returned(q)) =>
      o.exitCode == q.exitCode && o.endReason == q.endReason && o.recordingStarted == q.recordingStarted
    case _ => false
  }

  predicate SameMove(m: Move, n: Move) {
    if m.Stay? then n == m
    else n.Leave? && n.events == m.events && SameExit(m.exit, n.exit)
  }

  /** When a look at the room makes no difference. Without the look the poll only waits and the
      timers stay as they are; so no timer may be due or about to be set or cleared, unless the wait
      raises and so ends the loop either way. */
  predicate RoomIsQuiet(t: Timeouts, s: LoopState, p: Reading) {
    if TwoOrMore(p) then p.waitFault || (s.sawOthers && s.aloneSince.None? && s.unknownSince.None?)
    else if p.page.alone && s.sawOthers then
      if s.aloneSince.Some? then p.now - s.aloneSince.value < t.aloneGrace else p.waitFault
    else if p.page.alone then
      p.now - s.admittedAt < t.emptyRoom && (p.waitFault || s.unknownSince.None?)
    else if s.sawOthers then p.waitFault || (s.aloneSince.None? && s.unknownSince.None?)
    else if s.unknownSince.Some? then p.now - s.unknownSince.value < t.emptyRoom
    else p.waitFault && t.emptyRoom > 0.0
  }

  /** When waiting text makes no difference to a recording bot: something ends the call before the
      evidence is looked at, there is no such text, the controls are gone anyway, or the room is quiet. */
  predicate Harmless(t: Timeouts, s: LoopState, m: MeetPoll) {
    var p := Meet.Read(m);
    || m.stop || m.readFault || OverStep(t, s, p).Some?
    || !m.page.knocking || !m.page.leaveControl
    || RoomIsQuiet(t, s, p)
  }

  ghost predicate HarmlessAt(t: Timeouts, start: real, mt: seq<MeetPoll>, k: nat)
    requires k < |mt|
  {
    forall s :: After(t, start, Meet.View(mt), k) == Some(s) && s.recording ==> Harmless(t, s, mt[k])
  }

  lemma QuietRooms(t: Timeouts, s: LoopState, p: Reading)
    ensures RoomIsQuiet(t, s, p) <==> SameMove(Wait(s.(missed := 0), p), RoomStep(t, s, p))
  {
  }

  lemma SameRoom(t: Timeouts, s: LoopState, m: MeetPoll, z: ZoomPoll)
    requires SamePoll(m, z)
    ensures RoomStep(t, s, Meet.Read(m)) == RoomStep(t, s, Zoom.Read(z))
    ensures OverStep(t, s, Meet.Read(m)) == OverStep(t, s, Zoom.Read(z))
  {
  }

  /** The exact condition: on the same poll with the same controls the two loops move the same way
      if and only if waiting text is harmless there. */
  lemma StepsAgreeExactly(t: Timeouts, start: real, s: LoopState, m: MeetPoll, z: ZoomPoll)
    requires SamePoll(m, z) && SameControls(m, z) && s.recording
    ensures SameMove(Step(t, start, s, Meet.Read(m)), Step(t, start, s, Zoom.Read(z))) <==> Harmless(t, s, m)
  {
    SameRoom(t, s, m, z);
    QuietRooms(t, s, Meet.Read(m));
    var p, q := Meet.Read(m), Zoom.Read(z);
    if !m.page.knocking || !m.page.leaveControl {
      assert p.page.evidence == q.page.evidence;
    } else if !m.stop && !m.readFault && OverStep(t, s, p).None? {
      assert Step(t, start, s, p) == Wait(s.(missed := 0), p);
      assert Step(t, start, s, q) == RoomStep(t, s, q);
    }
  }

  lemma WaitingStepsAgree(t: Timeouts, start: real, s: LoopState, m: MeetPoll, z: ZoomPoll)
    requires SamePoll(m, z) && !s.recording
    ensures SameMove(Step(t, start, s, Meet.Read(m)), Step(t, start, s, Zoom.Read(z)))
  {
  }

  /** In every state the first loop is in, the two move the same way. */
  ghost predicate MoveAlike(t: Timeouts, start: real, ms: seq<Reading>, zs: seq<Reading>, k: nat)
    requires k < |ms| == |zs|
  {
    forall s :: After(t, start, ms, k) == Some(s) ==> SameMove(Step(t, start, s, ms[k]), Step(t, start, s, zs[k]))
  }

  /** The exact condition along a trace, poll by poll. */
  lemma PollsAgreeExactly(t: Timeouts, start: real, mt: seq<MeetPoll>, zt: seq<ZoomPoll>, k: nat)
    requires SamePages(mt, zt) && k < |mt|
    ensures MoveAlike(t, start, Meet.View(mt), Zoom.View(zt), k) <==> HarmlessAt(t, start, mt, k)
  {
    var after := After(t, start, Meet.View(mt), k);
    if after.Some? {
      AdmissionIsRemembered(t, start, Meet.View(mt), k);
      if after.value.recording {
        StepsAgreeExactly(t, start, after.value, mt[k], zt[k]);
      } else {
        WaitingStepsAgree(t, start, after.value, mt[k], zt[k]);
      }
    }
  }

  lemma {:induction false} SameStates(t: Timeouts, start: real, ms: seq<Reading>, zs: seq<Reading>, n: nat)
    requires n <= |ms| == |zs| && forall k: nat :: k < n ==> MoveAlike(t, start, ms, zs, k)
    ensures After(t, start, ms, n) == After(t, start, zs, n)
  {
    if n > 0 {
      SameStates(t, start, ms, zs, n - 1);
      assert MoveAlike(t, start, ms, zs, n - 1);
    }
  }

  lemma SameEnds(t: Timeouts, start: real, ms: seq<Reading>, zs: seq<Reading>, k: nat)
    requires k < |ms| == |zs| && After(t, start, ms, k) == After(t, start, zs, k) && MoveAlike(t, start, ms, zs, k)
    ensures forall e :: EndsAt(t, start, ms, k, e) ==> exists f :: EndsAt(t, start, zs, k, f) && SameExit(e, f)
    ensures forall f :: EndsAt(t, start, zs, k, f) ==> exists e :: EndsAt(t, start, ms, k, e) && SameExit(e, f)
  {
    var s := After(t, start, ms, k);
    if s.Some? {
      var m, z := Step(t, start, s.value, ms[k]), Step(t, start, s.value, zs[k]);
      if m.Leave? {
        assert EndsAt(t, start, ms, k, m.exit) && EndsAt(t, start, zs, k, z.exit) && SameExit(m.exit, z.exit);
      }
    }
  }

  /** Parity: on traces that show the same, and on which waiting text is harmless up to poll `k`, the
      Meet loop ends at that poll exactly when the Zoom loop does, with the same exit code, end
      reason and recording flag; otherwise both go on in the same state. */
  lemma LoopsAgree(t: Timeouts, start: real, mt: seq<MeetPoll>, zt: seq<ZoomPoll>, k: nat)
    requires SamePages(mt, zt) && k < |mt| && forall j: nat :: j <= k ==> HarmlessAt(t, start, mt, j)
    ensures After(t, start, Meet.View(mt), k) == After(t, start, Zoom.View(zt), k)
    ensures forall e :: EndsAt(t, start, Meet.View(mt), k, e) ==>
      exists f :: EndsAt(t, start, Zoom.View(zt), k, f) && SameExit(e, f)
    ensures forall f :: EndsAt(t, start, Zoom.View(zt), k, f) ==>
      exists e :: EndsAt(t, start, Meet.View(mt), k, e) && SameExit(e, f)
  {
    var ms, zs := Meet.View(mt), Zoom.View(zt);
    forall j: nat | j <= k ensures MoveAlike(t, start, ms, zs, j) {
      PollsAgreeExactly(t, start, mt, zt, j);
    }
    SameStates(t, start, ms, zs, k);
    SameEnds(t, start, ms, zs, k);
  }

  /** Where they part: at the first poll where waiting text is not harmless, both loops are in the
      same state and recording, and their moves differ. */
  lemma LoopsPart(t: Timeouts, start: real, mt: seq<MeetPoll>, zt: seq<ZoomPoll>, k: nat)
    requires SamePages(mt, zt) && k < |mt| && forall j: nat :: j < k ==> HarmlessAt(t, start, mt, j)
    requires !HarmlessAt(t, start, mt, k)
    ensures var ms, zs := Meet.View(mt), Zoom.View(zt);
      && After(t, start, ms, k) == After(t, start, zs, k)
      && After(t, start, ms, k).Some?
      && var s := After(t, start, ms, k).value;
         && s.recording && !SameMove(Step(t, start, s, ms[k]), Step(t, start, s, zs[k]))
         && Step(t, start, s, ms[k]) == Wait(s.(missed := 0), ms[k])
         && Step(t, start, s, zs[k]) == RoomStep(t, s, zs[k])
  {
    var ms, zs := Meet.View(mt), Zoom.View(zt);
    forall j: nat | j < k ensures MoveAlike(t, start, ms, zs, j) {
      PollsAgreeExactly(t, start, mt, zt, j);
    }
    SameStates(t, start, ms, zs, k);
    var s := After(t, start, ms, k).value;
    AdmissionIsRemembered(t, start, ms, k);
    StepsAgreeExactly(t, start, s, mt[k], zt[k]);
    SameRoom(t, s, mt[k], zt[k]);
  }

  /** In particular without waiting text after the admission: nothing parts the loops. */
  lemma NoTextIsHarmless(t: Timeouts, start: real, mt: seq<MeetPoll>, k: nat)
    requires k < |mt| && (AdmittedAt(Meet.View(mt), k) < k ==> !mt[k].page.knocking)
    ensures HarmlessAt(t, start, mt, k)
  {
    if After(t, start, Meet.View(mt), k).Some? {
      AdmissionIsRemembered(t, start, Meet.View(mt), k);
    }
  }

  function MeetExample(now: real, knocking: bool, count: nat): MeetPoll {
    Poll(now, false, Meet.MeetPage(knocking, true, false, false, false, Some(count), false),
         true, true, false, false, false, false, false)
  }

  function ZoomExample(now: real, waiting: bool, count: nat): ZoomPoll {
    Poll(now, false,
         Zoom.ZoomPage(waiting, false, true, false, false, false, false, false, false, false, false, false, Some(count), false),
         true, true, false, false, false, false, false)
  }

  const EXAMPLE_TIMEOUTS := Timeouts(600.0, 300.0, 60.0, 10800.0)

  /** Admitted at 0 s, another participant at 10 s, alone from 20 s on, waiting text only at 80 s. */
  function ExampleTime(i: nat): real {
    if i == 3 then 80.0 else 10.0 * (i as real)
  }

  function ExampleCount(i: nat): nat {
    if i == 1 then 2 else 1
  }

  function MeetTrace(): (r: seq<MeetPoll>)
    ensures |r| == 4
  {
    seq(4, i requires 0 <= i < 4 => MeetExample(ExampleTime(i), i == 3, ExampleCount(i)))
  }

  function ZoomTrace(): (r: seq<ZoomPoll>)
    ensures |r| == 4
  {
    seq(4, i requires 0 <= i < 4 => ZoomExample(ExampleTime(i), i == 3, ExampleCount(i)))
  }

  const ALONE_SINCE_20 := WAITING.(recording := true, sawOthers := true, aloneSince := Some(20.0))

  lemma MeetTraceRuns()
    ensures After(EXAMPLE_TIMEOUTS, 0.0, Meet.View(MeetTrace()), 3) == Some(ALONE_SINCE_20)
    ensures After(EXAMPLE_TIMEOUTS, 0.0, Meet.View(MeetTrace()), 4).Some?
  {
    var t, ts := EXAMPLE_TIMEOUTS, Meet.View(MeetTrace());
    var s1 := WAITING.(recording := true, unknownSince := Some(0.0));
    OnePollMore(t, 0.0, ts, 0, WAITING, Stay(s1, [RecorderStarted, Announced]));
    var s2 := s1.(sawOthers := true, unknownSince := None);
    OnePollMore(t, 0.0, ts, 1, s1, Stay(s2, []));
    OnePollMore(t, 0.0, ts, 2, s2, Stay(ALONE_SINCE_20, []));
    OnePollMore(t, 0.0, ts, 3, ALONE_SINCE_20, Stay(ALONE_SINCE_20, []));
  }

  lemma ZoomTraceRuns()
    ensures EndsAt(EXAMPLE_TIMEOUTS, 0.0, Zoom.View(ZoomTrace()), 3, RoomExit(EXIT_OK, Some(Alone), LeftAlone))
  {
    var t, ts := EXAMPLE_TIMEOUTS, Zoom.View(ZoomTrace());
    var s1 := WAITING.(recording := true, unknownSince := Some(0.0));
    OnePollMore(t, 0.0, ts, 0, WAITING, Stay(s1, [RecorderStarted, Announced]));
    var s2 := s1.(sawOthers := true, unknownSince := None);
    OnePollMore(t, 0.0, ts, 1, s1, Stay(s2, []));
    OnePollMore(t, 0.0, ts, 2, s2, Stay(ALONE_SINCE_20, []));
  }

  lemma ExamplePollsAreTheSame(now: real, text: bool, count: nat)
    ensures SamePoll(MeetExample(now, text, count), ZoomExample(now, text, count))
    ensures SameControls(MeetExample(now, text, count), ZoomExample(now, text, count))
  {
  }

  lemma ExampleTracesAreTheSame()
    ensures SamePages(MeetTrace(), ZoomTrace())
  {
    forall i | 0 <= i < 4
      ensures SamePoll(MeetTrace()[i], ZoomTrace()[i]) && SameControls(MeetTrace()[i], ZoomTrace()[i])
    {
      ExamplePollsAreTheSame(ExampleTime(i), i == 3, ExampleCount(i));
    }
  }

  lemma LastPollIsHarmful()
    ensures !Harmless(EXAMPLE_TIMEOUTS, ALONE_SINCE_20, MeetTrace()[3])
  {
    assert RoomStep(EXAMPLE_TIMEOUTS, ALONE_SINCE_20, Meet.Read(MeetExample(80.0, true, 1))).Leave?;
  }

  /** They do part, on whole traces from the start: these two show the same at every poll, and only
      the last one carries waiting text. Zoom leaves as alone there; Meet stays. */
  lemma WaitingTextExample()
    ensures SamePages(MeetTrace(), ZoomTrace())
    ensures forall j: nat :: j < 3 ==> !MeetTrace()[j].page.knocking && !ZoomTrace()[j].page.waitingNotice
    ensures EndsAt(EXAMPLE_TIMEOUTS, 0.0, Zoom.View(ZoomTrace()), 3, RoomExit(EXIT_OK, Some(Alone), LeftAlone))
    ensures After(EXAMPLE_TIMEOUTS, 0.0, Meet.View(MeetTrace()), 4).Some?
    ensures !HarmlessAt(EXAMPLE_TIMEOUTS, 0.0, MeetTrace(), 3)
  {
    ExampleTracesAreTheSame();
    MeetTraceRuns();
    ZoomTraceRuns();
    LastPollIsHarmful();
  }
}
