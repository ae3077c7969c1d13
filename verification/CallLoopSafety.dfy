/** What every run of a call loop guarantees: it ends in time, its outcome is well formed,
    and the recorder is started once, announced once and stopped. */
module CallLoopSafety {
  import opened CallLoop
  import opened CallLoopMeaning

  // Time

  /** An iteration takes at most `longest`, and at least `shortest` unless it is the one
      that admits the bot: that one goes on without a wait. */
  predicate PacedAt(ts: seq<Reading>, i: nat, shortest: real, longest: real)
    requires i + 1 < |ts|
  {
    && ts[i].now <= ts[i + 1].now <= ts[i].now + longest
    && (AdmittedAt(ts, i + 1) != i ==> ts[i].now + shortest <= ts[i + 1].now)
  }

  ghost predicate Paced(ts: seq<Reading>, start: real, shortest: real, longest: real) {
    && 0.0 < shortest <= longest
    && (ts != [] ==> start <= ts[0].now <= start + longest)
    && forall i: nat :: i + 1 < |ts| ==> PacedAt(ts, i, shortest, longest)
  }

  predicate Sane(t: Timeouts) {
    t.waitingRoom >= 0.0 && t.maxRecord >= 0.0
  }

  /** The latest time at which the loop still polls. */
  function Deadline(t: Timeouts, start: real, longest: real): real {
    start + t.waitingRoom + t.maxRecord + 2.0 * longest
  }

  lemma WaitingIsBounded(t: Timeouts, start: real, ts: seq<Reading>, k: nat, shortest: real, longest: real)
    requires k < |ts| && Paced(ts, start, shortest, longest) && Sane(t)
    requires After(t, start, ts, k).Some? && !After(t, start, ts, k).value.recording
    ensures ts[k].now <= start + t.waitingRoom + longest
  {
    if k > 0 {
      Onward(t, start, ts, k);
      assert PacedAt(ts, k - 1, shortest, longest);
    }
  }

  lemma RecordingIsBounded(t: Timeouts, start: real, ts: seq<Reading>, k: nat, shortest: real, longest: real)
    requires k < |ts| && Paced(ts, start, shortest, longest) && Sane(t)
    requires After(t, start, ts, k).Some? && After(t, start, ts, k).value.recording
    ensures ts[k].now <= ts[AdmittedAt(ts, k)].now + t.maxRecord + longest
  {
    Onward(t, start, ts, k);
    AdmissionIsRemembered(t, start, ts, k);
    AdmissionIsRemembered(t, start, ts, k - 1);
    assert PacedAt(ts, k - 1, shortest, longest);
  }

  lemma {:induction false} AfterEarlier(t: Timeouts, start: real, ts: seq<Reading>, i: nat, j: nat)
    requires i <= j <= |ts| && After(t, start, ts, j).Some?
    ensures After(t, start, ts, i).Some?
  {
    if After(t, start, ts, i).None? {
      EndedStaysEnded(t, start, ts, i, j);
    }
  }

  /** No poll is later than the deadline. */
  lemma PollsAreInTime(t: Timeouts, start: real, ts: seq<Reading>, k: nat, shortest: real, longest: real)
    requires k < |ts| && Paced(ts, start, shortest, longest) && Sane(t)
    requires After(t, start, ts, k).Some?
    ensures ts[k].now <= Deadline(t, start, longest)
  {
    if After(t, start, ts, k).value.recording {
      var a := AdmittedAt(ts, k);
      AdmissionIsRemembered(t, start, ts, k);
      AfterEarlier(t, start, ts, a, k);
      AdmissionIsRemembered(t, start, ts, a);
      AdmittedAtIsFirst(ts, a, k);
      WaitingIsBounded(t, start, ts, a, shortest, longest);
      RecordingIsBounded(t, start, ts, k, shortest, longest);
    } else {
      WaitingIsBounded(t, start, ts, k, shortest, longest);
    }
  }

  lemma {:induction false} AdmittedAtIsFirst(ts: seq<Reading>, m: nat, n: nat)
    requires m <= n <= |ts| && m <= AdmittedAt(ts, n)
    ensures AdmittedAt(ts, m) == m
  {
    if m < n {
      AdmittedAtIsFirst(ts, m, n - 1);
    }
  }

  /** How many of the first `n` polls were followed by a wait, not counting the last. */
  function Waits(ts: seq<Reading>, n: nat): nat
    requires 0 < n <= |ts|
  {
    if AdmittedAt(ts, n - 1) < n - 1 then n - 2 else n - 1
  }

  lemma MoreTakesLonger(x: real, i: nat, j: nat)
    requires i <= j && 0.0 <= x
    ensures x * (i as real) <= x * (j as real)
  {
  }

  lemma OneMoreTakes(x: real, i: nat)
    ensures x * ((i + 1) as real) == x * (i as real) + x
  {
  }

  /** Every poll but the admitting one brings the clock forward. */
  lemma {:induction false} ClockAdvances(ts: seq<Reading>, start: real, n: nat, shortest: real, longest: real)
    requires 0 < n <= |ts| && Paced(ts, start, shortest, longest)
    ensures ts[n - 1].now >= start + shortest * (Waits(ts, n) as real)
  {
    if n > 1 {
      ClockAdvances(ts, start, n - 1, shortest, longest);
      var i: nat := n - 2;
      assert PacedAt(ts, i, shortest, longest);
      assert Waits(ts, n) == Waits(ts, n - 1) + if AdmittedAt(ts, i + 1) != i then 1 else 0;
      OneMoreTakes(shortest, Waits(ts, n - 1));
    }
  }

  lemma {:induction false} SomePollEnds(t: Timeouts, start: real, ts: seq<Reading>, n: nat)
    requires n <= |ts| && After(t, start, ts, n).None?
    ensures exists k: nat, e :: k < n && EndsAt(t, start, ts, k, e)
  {
    var s := After(t, start, ts, n - 1);
    if s.None? {
      SomePollEnds(t, start, ts, n - 1);
      var k: nat, e :| k < n - 1 && EndsAt(t, start, ts, k, e);
      assert k < n && EndsAt(t, start, ts, k, e);
    } else {
      assert EndsAt(t, start, ts, n - 1, Step(t, start, s.value, ts[n - 1]).exit);
    }
  }

  lemma FewPollsFit(ts: seq<Reading>, start: real, n: nat, shortest: real, longest: real, deadline: real)
    requires 2 <= n <= |ts| && Paced(ts, start, shortest, longest) && ts[n - 1].now <= deadline
    ensures shortest * ((n - 2) as real) <= deadline - start
  {
    ClockAdvances(ts, start, n, shortest, longest);
    MoreTakesLonger(shortest, n - 2, Waits(ts, n));
  }

  /** A loop that is still running has not polled more often than fits before the deadline. */
  lemma PollsAreFew(t: Timeouts, start: real, ts: seq<Reading>, n: nat, shortest: real, longest: real)
    requires 2 <= n <= |ts| && Paced(ts, start, shortest, longest) && Sane(t)
    requires After(t, start, ts, n).Some?
    ensures shortest * ((n - 2) as real) <= t.waitingRoom + t.maxRecord + 2.0 * longest
  {
    AfterEarlier(t, start, ts, n - 1, n);
    PollsAreInTime(t, start, ts, n - 1, shortest, longest);
    FewPollsFit(ts, start, n, shortest, longest, Deadline(t, start, longest));
  }

  /** Termination: once there are more polls than fit before the deadline, the loop has ended,
      and it ended no later than the deadline. */
  lemma LoopEndsInTime(t: Timeouts, start: real, ts: seq<Reading>, shortest: real, longest: real)
    requires Paced(ts, start, shortest, longest) && Sane(t)
    requires |ts| >= 2 && shortest * ((|ts| - 2) as real) > t.waitingRoom + t.maxRecord + 2.0 * longest
    ensures exists k: nat, e :: EndsAt(t, start, ts, k, e) && ts[k].now <= Deadline(t, start, longest)
  {
    if After(t, start, ts, |ts|).Some? {
      PollsAreFew(t, start, ts, |ts|, shortest, longest);
    } else {
      SomePollEnds(t, start, ts, |ts|);
      var k: nat, e :| k < |ts| && EndsAt(t, start, ts, k, e);
      PollsAreInTime(t, start, ts, k, shortest, longest);
    }
  }

  // The recorder and the outcome

  /** As long as the loop runs it has done nothing, or started the recorder and announced it once. */
  lemma {:induction false} LogWhileRunning(t: Timeouts, start: real, ts: seq<Reading>, n: nat)
    requires n <= |ts| && After(t, start, ts, n).Some?
    ensures Log(t, start, ts, n) ==
      if After(t, start, ts, n).value.recording then [RecorderStarted, Announced] else []
  {
    if n > 0 {
      Onward(t, start, ts, n);
      LogWhileRunning(t, start, ts, n - 1);
      var s, p := After(t, start, ts, n - 1).value, ts[n - 1];
      OnePollMore(t, start, ts, n - 1, s, Step(t, start, s, p));
      StaysAreSilent(t, start, s, p);
    }
  }

  lemma StaysAreSilent(t: Timeouts, start: real, s: LoopState, p: Reading)
    ensures var m := Step(t, start, s, p);
      m.Stay? ==> m.events == if !s.recording && p.page.admitted then [RecorderStarted, Announced] else []
  {
  }

  /** Everything a loop can have done by the time it ends. The recorder is started at most
      once, announced at most once and only after its start. A returned outcome after a start
      has stopped it; an exception leaves it started only for the caller's handler to stop. */
  lemma SessionLogs(t: Timeouts, start: real, ts: seq<Reading>, k: nat, e: LoopExit)
    requires EndsAt(t, start, ts, k, e)
    ensures var log := Log(t, start, ts, k + 1);
      if After(t, start, ts, k).value.recording then
        || (e.Returned? && e.outcome.recordingStarted
            && log in {[RecorderStarted, Announced, LeaveTried, RecorderStopped], [RecorderStarted, Announced, RecorderStopped]})
        || (e.Raised? && log in {[RecorderStarted, Announced, RecorderStopped], [RecorderStarted, Announced]})
      else
        log in {[], [StartFailed]} && (e.Returned? ==> !e.outcome.recordingStarted)
  {
    LogWhileRunning(t, start, ts, k);
    var s := After(t, start, ts, k).value;
    var ev := Step(t, start, s, ts[k]).events;
    OnePollMore(t, start, ts, k, s, Step(t, start, s, ts[k]));
    LeavesAreBrief(t, start, s, ts[k]);
    var run := [RecorderStarted, Announced];
    assert run + [LeaveTried, RecorderStopped] == [RecorderStarted, Announced, LeaveTried, RecorderStopped];
    assert run + [RecorderStopped] == [RecorderStarted, Announced, RecorderStopped];
    assert run + [] == run && [] + ev == ev;
  }

  lemma LeavesAreBrief(t: Timeouts, start: real, s: LoopState, p: Reading)
    requires Step(t, start, s, p).Leave?
    ensures var m := Step(t, start, s, p);
      if s.recording then
        || (m.exit.Returned? && m.exit.outcome.recordingStarted
            && (m.events == [LeaveTried, RecorderStopped] || m.events == [RecorderStopped]))
        || (m.exit.Raised? && (m.events == [RecorderStopped] || m.events == []))
      else
        (m.events == [] || m.events == [StartFailed]) && (m.exit.Returned? ==> !m.exit.outcome.recordingStarted)
  {
  }

  /** Every returned outcome obeys the rules for outcomes. */
  lemma OutcomesAreValid(t: Timeouts, start: real, ts: seq<Reading>, k: nat, o: BotOutcome)
    requires EndsAt(t, start, ts, k, Returned(o))
    ensures o.Valid()
  {
  }
}
