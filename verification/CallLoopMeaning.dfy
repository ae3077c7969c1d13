/** What the ways to end mean, read off the whole trace of polls: for each, the exact
    condition on the polls so far, both ways. */
module CallLoopMeaning {
  import opened Common
  import opened Calls
  import opened CallLoop

  /** Time does not run backwards from poll to poll. */
  ghost predicate Ordered(ts: seq<Reading>) {
    forall i, j :: 0 <= i <= j < |ts| ==> ts[i].now <= ts[j].now
  }

  /** The poll that admitted the bot, among the first `n`; `n` when there is none. */
  function AdmittedAt(ts: seq<Reading>, n: nat): (a: nat)
    requires n <= |ts|
    ensures a <= n && (a < n ==> ts[a].page.admitted)
  {
    if n == 0 then 0
    else if AdmittedAt(ts, n - 1) < n - 1 then AdmittedAt(ts, n - 1)
    else if ts[n - 1].page.admitted then n - 1
    else n
  }

  /** The loop reaches poll `k` while recording, and nothing ends it before the evidence is looked at. */
  predicate Settled(t: Timeouts, start: real, ts: seq<Reading>, k: nat)
    requires k < |ts|
  {
    var s := After(t, start, ts, k);
    && s.Some? && s.value.recording
    && !ts[k].stop && !ts[k].readFault && OverStep(t, s.value, ts[k]).None?
  }

  predicate InCallAt(ts: seq<Reading>, a: nat, j: nat) {
    a < j < |ts| && ts[j].page.evidence.InCall?
  }

  /** The page counts at least two participants, the bot among them. */
  predicate TwoOrMore(p: Reading) {
    p.page.count.Some? && p.page.count.value >= 2
  }

  predicate AlonePoll(p: Reading) {
    !TwoOrMore(p) && p.page.alone
  }

  predicate UnknownPoll(p: Reading) {
    !TwoOrMore(p) && !p.page.alone
  }

  /** Some in-call poll before `n` showed at least two participants. */
  ghost predicate OthersSeen(ts: seq<Reading>, a: nat, n: nat) {
    exists i: nat :: i < n && InCallAt(ts, a, i) && TwoOrMore(ts[i])
  }

  /** From poll `u` up to `n`, every in-call poll shows the bot alone, others having been seen before `u`. */
  ghost predicate AloneFrom(ts: seq<Reading>, a: nat, u: nat, n: nat) {
    && u < n <= |ts| && InCallAt(ts, a, u) && OthersSeen(ts, a, u)
    && forall j: nat :: u <= j < n && InCallAt(ts, a, j) ==> AlonePoll(ts[j])
  }

  /** From poll `u` (the admission itself, or an in-call poll) up to `n`, no in-call poll tells who is there. */
  ghost predicate UnknownFrom(ts: seq<Reading>, a: nat, u: nat, n: nat) {
    && a <= u < n <= |ts|
    && (u == a || (InCallAt(ts, a, u) && UnknownPoll(ts[u])))
    && forall j: nat :: u < j < n && InCallAt(ts, a, j) ==> UnknownPoll(ts[j])
  }

  /** How many of the polls just before `n` show no in-call evidence at all. */
  function TrailingGone(ts: seq<Reading>, a: nat, n: nat): nat
    requires n <= |ts|
  {
    if n <= a + 1 || !ts[n - 1].page.evidence.Gone? then 0 else 1 + TrailingGone(ts, a, n - 1)
  }

  // What the loop's variables remember

  /** What a poll that does not end the recording leaves in the loop's variables. */
  function Remember(s: LoopState, p: Reading): LoopState {
    match p.page.evidence
    case Held => s.(missed := 0)
    case Gone => s.(missed := s.missed + 1)
    case InCall =>
      if TwoOrMore(p) then s.(missed := 0, sawOthers := true, aloneSince := None, unknownSince := None)
      else if !p.page.alone then
        if s.sawOthers then s.(missed := 0, aloneSince := None, unknownSince := None)
        else s.(missed := 0, unknownSince := if s.unknownSince.Some? then s.unknownSince else Some(p.now))
      else if s.sawOthers then s.(missed := 0, aloneSince := if s.aloneSince.Some? then s.aloneSince else Some(p.now))
      else s.(missed := 0, unknownSince := None)
  }

  /** One poll further: still waiting, just admitted, or recording on. */
  lemma Onward(t: Timeouts, start: real, ts: seq<Reading>, n: nat)
    requires 0 < n <= |ts| && After(t, start, ts, n).Some?
    ensures After(t, start, ts, n - 1).Some?
    ensures var s, s', p := After(t, start, ts, n - 1).value, After(t, start, ts, n).value, ts[n - 1];
      if s.recording then s' == Remember(s, p)
      else if p.page.admitted then s' == s.(recording := true, admittedAt := p.now, unknownSince := Some(p.now))
      else s' == s
  {
  }

  lemma {:induction false} AdmissionIsRemembered(t: Timeouts, start: real, ts: seq<Reading>, n: nat)
    requires n <= |ts| && After(t, start, ts, n).Some?
    ensures var s, a := After(t, start, ts, n).value, AdmittedAt(ts, n);
      && s.recording == (a < n)
      && (s.recording ==> s.admittedAt == ts[a].now)
      && (!s.recording ==> s == WAITING)
  {
    if n > 0 {
      Onward(t, start, ts, n);
      AdmissionIsRemembered(t, start, ts, n - 1);
    }
  }

  lemma {:induction false} GoneIsCounted(t: Timeouts, start: real, ts: seq<Reading>, n: nat)
    requires n <= |ts| && After(t, start, ts, n).Some?
    ensures var s, a := After(t, start, ts, n).value, AdmittedAt(ts, n);
      s.missed == TrailingGone(ts, a, n) < ENDED_CONFIRMATION_POLLS
  {
    if n > 0 {
      GoneIsCounted(t, start, ts, n - 1);
      AdmissionIsRemembered(t, start, ts, n - 1);
    }
  }

  lemma {:induction false} OthersAreRemembered(t: Timeouts, start: real, ts: seq<Reading>, n: nat)
    requires n <= |ts| && After(t, start, ts, n).Some?
    ensures After(t, start, ts, n).value.sawOthers <==> OthersSeen(ts, AdmittedAt(ts, n), n)
  {
    if n > 0 {
      Onward(t, start, ts, n);
      OthersAreRemembered(t, start, ts, n - 1);
      AdmissionIsRemembered(t, start, ts, n - 1);
      OthersSeenStep(ts, AdmittedAt(ts, n), n);
    }
  }

  /** Seeing others is decided poll by poll. */
  lemma OthersSeenStep(ts: seq<Reading>, a: nat, n: nat)
    requires 0 < n <= |ts|
    ensures OthersSeen(ts, a, n) <==> OthersSeen(ts, a, n - 1) || (InCallAt(ts, a, n - 1) && TwoOrMore(ts[n - 1]))
  {
    if OthersSeen(ts, a, n - 1) {
      var i: nat :| i < n - 1 && InCallAt(ts, a, i) && TwoOrMore(ts[i]);
      assert i < n && InCallAt(ts, a, i) && TwoOrMore(ts[i]);
    }
  }

  /** The alone timer after `n` polls: set exactly while the bot has been alone from some
      poll on, to the time of such a poll, and never to a later time than any of them. */
  ghost predicate AloneTimer(ts: seq<Reading>, a: nat, x: Option<real>, n: nat)
    requires n <= |ts|
  {
    && (x.Some? ==> exists u: nat :: AloneFrom(ts, a, u, n) && ts[u].now == x.value)
    && (forall u: nat :: AloneFrom(ts, a, u, n) ==> x.Some? && x.value <= ts[u].now)
  }

  lemma AloneFromStep(ts: seq<Reading>, a: nat, u: nat, n: nat)
    requires 0 < n <= |ts| && u < n - 1
    ensures AloneFrom(ts, a, u, n) <==>
      AloneFrom(ts, a, u, n - 1) && (InCallAt(ts, a, n - 1) ==> AlonePoll(ts[n - 1]))
  {
  }

  lemma AloneTimerStep(ts: seq<Reading>, a: nat, x: Option<real>, n: nat, x': Option<real>)
    requires 0 < n <= |ts| && a < n - 1 && Ordered(ts) && AloneTimer(ts, a, x, n - 1)
    requires x' ==
      if !InCallAt(ts, a, n - 1) then x
      else if !AlonePoll(ts[n - 1]) || !OthersSeen(ts, a, n - 1) then None
      else if x.Some? then x
      else Some(ts[n - 1].now)
    ensures AloneTimer(ts, a, x', n)
  {
    if x'.Some? {
      if x.Some? {
        var u: nat :| AloneFrom(ts, a, u, n - 1) && ts[u].now == x.value;
        AloneFromStep(ts, a, u, n);
      } else {
        assert AloneFrom(ts, a, n - 1, n);
      }
    }
    forall u: nat | AloneFrom(ts, a, u, n) ensures x'.Some? && x'.value <= ts[u].now {
      if u < n - 1 {
        AloneFromStep(ts, a, u, n);
        OthersSeenLater(ts, a, u, n - 1);
      } else if x.Some? {
        var v: nat :| AloneFrom(ts, a, v, n - 1) && ts[v].now == x.value;
      }
    }
  }

  lemma OthersSeenLater(ts: seq<Reading>, a: nat, m: nat, n: nat)
    requires m <= n <= |ts| && OthersSeen(ts, a, m)
    ensures OthersSeen(ts, a, n)
  {
    var i: nat :| i < m && InCallAt(ts, a, i) && TwoOrMore(ts[i]);
    assert i < n && InCallAt(ts, a, i) && TwoOrMore(ts[i]);
  }

  lemma {:induction false} LonelinessIsTimed(t: Timeouts, start: real, ts: seq<Reading>, n: nat)
    requires n <= |ts| && After(t, start, ts, n).Some? && Ordered(ts)
    ensures AloneTimer(ts, AdmittedAt(ts, n), After(t, start, ts, n).value.aloneSince, n)
  {
    if n > 0 {
      var a := AdmittedAt(ts, n);
      Onward(t, start, ts, n);
      var s, s' := After(t, start, ts, n - 1).value, After(t, start, ts, n).value;
      LonelinessIsTimed(t, start, ts, n - 1);
      AdmissionIsRemembered(t, start, ts, n - 1);
      OthersAreRemembered(t, start, ts, n - 1);
      if s.recording {
        if s.aloneSince.Some? {
          AloneTimerNeedsOthers(ts, a, s.aloneSince, n - 1);
        }
        AloneTimerStep(ts, a, s.aloneSince, n, s'.aloneSince);
      }
    }
  }

  lemma AloneTimerNeedsOthers(ts: seq<Reading>, a: nat, x: Option<real>, n: nat)
    requires n <= |ts| && AloneTimer(ts, a, x, n) && x.Some?
    ensures OthersSeen(ts, a, n)
  {
    var u: nat :| AloneFrom(ts, a, u, n);
    OthersSeenLater(ts, a, u, n);
  }

  /** The unknown timer after `n` polls, as long as nobody else has been seen: it starts at the admission. */
  ghost predicate UnknownTimer(ts: seq<Reading>, a: nat, x: Option<real>, n: nat)
    requires n <= |ts|
  {
    && (x.Some? ==> exists u: nat :: UnknownFrom(ts, a, u, n) && ts[u].now == x.value)
    && (forall u: nat :: UnknownFrom(ts, a, u, n) ==> x.Some? && x.value <= ts[u].now)
  }

  lemma UnknownFromStep(ts: seq<Reading>, a: nat, u: nat, n: nat)
    requires 0 < n <= |ts| && u < n - 1
    ensures UnknownFrom(ts, a, u, n) <==>
      UnknownFrom(ts, a, u, n - 1) && (InCallAt(ts, a, n - 1) ==> UnknownPoll(ts[n - 1]))
  {
  }

  lemma UnknownTimerStep(ts: seq<Reading>, a: nat, x: Option<real>, n: nat, x': Option<real>)
    requires 0 < n <= |ts| && a < n - 1 && Ordered(ts) && UnknownTimer(ts, a, x, n - 1)
    requires x' ==
      if !InCallAt(ts, a, n - 1) then x
      else if !UnknownPoll(ts[n - 1]) then None
      else if x.Some? then x
      else Some(ts[n - 1].now)
    ensures UnknownTimer(ts, a, x', n)
  {
    if x'.Some? {
      if x.Some? {
        var u: nat :| UnknownFrom(ts, a, u, n - 1) && ts[u].now == x.value;
        UnknownFromStep(ts, a, u, n);
      } else {
        assert UnknownFrom(ts, a, n - 1, n);
      }
    }
    forall u: nat | UnknownFrom(ts, a, u, n) ensures x'.Some? && x'.value <= ts[u].now {
      if u < n - 1 {
        UnknownFromStep(ts, a, u, n);
      } else if x.Some? {
        var v: nat :| UnknownFrom(ts, a, v, n - 1) && ts[v].now == x.value;
      }
    }
  }

  /** Comparing the timer with a period says that some spell of ignorance has lasted that long. */
  lemma UnknownTimerReads(ts: seq<Reading>, a: nat, x: real, n: nat, now: real, period: real)
    requires n <= |ts| && UnknownTimer(ts, a, Some(x), n)
    ensures now - x >= period <==> exists u: nat :: UnknownFrom(ts, a, u, n) && now - ts[u].now >= period
  {
  }

  lemma {:induction false} IgnoranceIsTimed(t: Timeouts, start: real, ts: seq<Reading>, n: nat)
    requires n <= |ts| && After(t, start, ts, n).Some? && Ordered(ts)
    requires var s := After(t, start, ts, n).value; s.recording && !s.sawOthers
    ensures UnknownTimer(ts, AdmittedAt(ts, n), After(t, start, ts, n).value.unknownSince, n)
  {
    var a := AdmittedAt(ts, n);
    AdmissionIsRemembered(t, start, ts, n);
    Onward(t, start, ts, n);
    var s, s' := After(t, start, ts, n - 1).value, After(t, start, ts, n).value;
    AdmissionIsRemembered(t, start, ts, n - 1);
    if s.recording {
      IgnoranceIsTimed(t, start, ts, n - 1);
      UnknownTimerStep(ts, a, s.unknownSince, n, s'.unknownSince);
    } else {
      assert UnknownFrom(ts, a, a, n);
    }
  }

  // The exits

  /** An exit that the participants decide. */
  function RoomExit(code: int, endReason: Option<EndReason>, reason: Reason): LoopExit {
    Returned(BotOutcome(code, endReason, reason, true))
  }

  /** `alone`: others were seen once, and since some poll at least the grace period ago every
      in-call poll shows the bot alone. Polls without in-call evidence do not restart the clock. */
  lemma AloneMeans(t: Timeouts, start: real, ts: seq<Reading>, k: nat)
    requires k < |ts| && Ordered(ts) && Settled(t, start, ts, k) && !ts[k].leaveFault
    ensures var a := AdmittedAt(ts, k);
      EndsAt(t, start, ts, k, RoomExit(EXIT_OK, Some(Alone), LeftAlone)) <==>
        && InCallAt(ts, a, k) && AlonePoll(ts[k])
        && exists u: nat :: AloneFrom(ts, a, u, k) && ts[k].now - ts[u].now >= t.aloneGrace
  {
    var s, a := After(t, start, ts, k).value, AdmittedAt(ts, k);
    AdmissionIsRemembered(t, start, ts, k);
    OthersAreRemembered(t, start, ts, k);
    LonelinessIsTimed(t, start, ts, k);
    if s.aloneSince.Some? {
      AloneTimerNeedsOthers(ts, a, s.aloneSince, k);
    }
  }

  /** Exit 4: no in-call poll has ever shown anyone else, the room shows empty now, and the
      empty-room time has passed since the admission. */
  lemma EmptyRoomMeans(t: Timeouts, start: real, ts: seq<Reading>, k: nat)
    requires k < |ts| && Settled(t, start, ts, k) && !ts[k].leaveFault
    ensures var a := AdmittedAt(ts, k);
      EndsAt(t, start, ts, k, RoomExit(EXIT_JOIN_TIMEOUT, None, RoomEmpty)) <==>
        && InCallAt(ts, a, k) && AlonePoll(ts[k]) && !OthersSeen(ts, a, k)
        && ts[k].now - ts[a].now >= t.emptyRoom
  {
    AdmissionIsRemembered(t, start, ts, k);
    OthersAreRemembered(t, start, ts, k);
  }

  /** When the loop starts to count ignorance, if it does not yet. */
  function UnknownSince(s: LoopState, now: real): real {
    if s.unknownSince.Some? then s.unknownSince.value else now
  }

  lemma UnknownRoomStep(t: Timeouts, start: real, ts: seq<Reading>, k: nat)
    requires k < |ts| && Settled(t, start, ts, k) && !ts[k].leaveFault
    ensures var s := After(t, start, ts, k).value;
      EndsAt(t, start, ts, k, RoomExit(EXIT_BOT_ERROR, None, CountUnavailable)) <==>
        && ts[k].page.evidence.InCall? && UnknownPoll(ts[k]) && !s.sawOthers
        && ts[k].now - UnknownSince(s, ts[k].now) >= t.emptyRoom
  {
  }

  lemma IgnoranceLasted(t: Timeouts, start: real, ts: seq<Reading>, k: nat)
    requires k < |ts| && Ordered(ts) && Settled(t, start, ts, k)
    requires InCallAt(ts, AdmittedAt(ts, k), k) && UnknownPoll(ts[k]) && !After(t, start, ts, k).value.sawOthers
    ensures var a, since := AdmittedAt(ts, k), UnknownSince(After(t, start, ts, k).value, ts[k].now);
      ts[k].now - since >= t.emptyRoom <==>
        exists u: nat :: UnknownFrom(ts, a, u, k + 1) && ts[k].now - ts[u].now >= t.emptyRoom
  {
    var s, a := After(t, start, ts, k).value, AdmittedAt(ts, k);
    IgnoranceIsTimed(t, start, ts, k);
    UnknownTimerStep(ts, a, s.unknownSince, k + 1, Some(UnknownSince(s, ts[k].now)));
    UnknownTimerReads(ts, a, UnknownSince(s, ts[k].now), k + 1, ts[k].now, t.emptyRoom);
  }

  /** The unavailable count: nobody else was ever seen, and for at least the empty-room time
      no in-call poll could tell who is in the room. Unknown is never taken for empty. */
  lemma UnknownRoomMeans(t: Timeouts, start: real, ts: seq<Reading>, k: nat)
    requires k < |ts| && Ordered(ts) && Settled(t, start, ts, k) && !ts[k].leaveFault
    ensures var a := AdmittedAt(ts, k);
      EndsAt(t, start, ts, k, RoomExit(EXIT_BOT_ERROR, None, CountUnavailable)) <==>
        && InCallAt(ts, a, k) && UnknownPoll(ts[k]) && !OthersSeen(ts, a, k)
        && exists u: nat :: UnknownFrom(ts, a, u, k + 1) && ts[k].now - ts[u].now >= t.emptyRoom
  {
    AdmissionIsRemembered(t, start, ts, k);
    OthersAreRemembered(t, start, ts, k);
    UnknownRoomStep(t, start, ts, k);
    if ts[k].page.evidence.InCall? && UnknownPoll(ts[k]) && !After(t, start, ts, k).value.sawOthers {
      IgnoranceLasted(t, start, ts, k);
    }
  }

  /** The missing toolbar: exactly three polls in a row without any in-call evidence, all
      after the admission. */
  lemma ControlsGoneMeans(t: Timeouts, start: real, ts: seq<Reading>, k: nat)
    requires k < |ts| && Settled(t, start, ts, k)
    ensures var a := AdmittedAt(ts, k);
      EndsAt(t, start, ts, k, RoomExit(EXIT_OK, Some(CallEnded), ControlsGone)) <==>
        a + 2 < k && ts[k].page.evidence.Gone? && ts[k - 1].page.evidence.Gone? && ts[k - 2].page.evidence.Gone?
  {
    GoneIsCounted(t, start, ts, k);
    AdmissionIsRemembered(t, start, ts, k);
  }

  /** The codes and end reasons stand for nothing else: each of these outcomes is only ever
      returned by the branch that its meaning above describes. */
  lemma OutcomesNameTheirBranch(t: Timeouts, start: real, ts: seq<Reading>, k: nat, o: BotOutcome)
    requires EndsAt(t, start, ts, k, Returned(o))
    ensures o.endReason == Some(Alone) ==> o == RoomExit(EXIT_OK, Some(Alone), LeftAlone).outcome
    ensures o.exitCode == EXIT_JOIN_TIMEOUT ==> o == RoomExit(EXIT_JOIN_TIMEOUT, None, RoomEmpty).outcome
    ensures o.reason.LeftAlone? || o.reason.RoomEmpty? || o.reason.CountUnavailable? ==>
      Settled(t, start, ts, k) && !ts[k].leaveFault
    ensures o.reason.ControlsGone? ==> Settled(t, start, ts, k)
    ensures o.reason.LeftAlone? <==> o.endReason == Some(Alone)
    ensures o.reason.RoomEmpty? <==> o.exitCode == EXIT_JOIN_TIMEOUT
  {
  }
}
