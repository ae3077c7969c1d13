/** The one way to leave a recorder behind, read off the trace: a start that fails after it has
    spawned its child, at the poll that admits the bot. */
module LateStarts {
  import opened Common
  import opened CallLoop
  import opened CallLoopMeaning

  /** A poll on which a waiting bot does nothing but wait. */
  predicate Quiet(t: Timeouts, start: real, p: Reading) {
    && !p.stop && !p.readFault && !p.page.admitted && !p.probeFault && p.page.wall.None? && !p.waitFault
    && p.now - start < t.waitingRoom
  }

  ghost predicate QuietUntil(t: Timeouts, start: real, ts: seq<Reading>, k: nat)
    requires k <= |ts|
  {
    forall j :: 0 <= j < k ==> Quiet(t, start, ts[j])
  }

  /** At poll `k` the bot is admitted for the first time, and the start fails late. */
  ghost predicate StartsLate(t: Timeouts, start: real, ts: seq<Reading>, k: nat) {
    && k < |ts| && QuietUntil(t, start, ts, k)
    && !ts[k].stop && !ts[k].readFault && ts[k].page.admitted && !ts[k].startOk && ts[k].startOrphans
  }

  /** A waiting loop goes on waiting exactly over a quiet poll. */
  lemma QuietStep(t: Timeouts, start: real, p: Reading)
    ensures Quiet(t, start, p) <==> Step(t, start, WAITING, p).Stay? && !Step(t, start, WAITING, p).state.recording
    ensures Quiet(t, start, p) ==> Step(t, start, WAITING, p) == Stay(WAITING, [])
  {
  }

  /** The loop still waits after `n` polls exactly when all of them were quiet. */
  lemma {:induction false} WaitingMeansQuiet(t: Timeouts, start: real, ts: seq<Reading>, n: nat)
    requires n <= |ts|
    ensures After(t, start, ts, n) == Some(WAITING) <==> QuietUntil(t, start, ts, n)
  {
    if n > 0 {
      WaitingMeansQuiet(t, start, ts, n - 1);
      QuietStep(t, start, ts[n - 1]);
      var before := After(t, start, ts, n - 1);
      if After(t, start, ts, n) == Some(WAITING) {
        AdmissionIsRemembered(t, start, ts, n - 1);
        Onward(t, start, ts, n);
        assert before == Some(WAITING);
      }
    }
  }

  /** A failed start is the ending of an admission, and of nothing else. */
  lemma FailedStartStep(t: Timeouts, start: real, s: LoopState, p: Reading)
    ensures var m := Step(t, start, s, p);
      m.Leave? && m.exit.Returned? && m.exit.outcome.reason.RecorderFailed? <==>
        !s.recording && !p.stop && !p.readFault && p.page.admitted && !p.startOk
  {
  }

  /** Where the loop ends, a failed start that orphans its child is a late start of the trace. */
  lemma LateStartsExactly(t: Timeouts, start: real, ts: seq<Reading>, k: nat, e: LoopExit)
    requires EndsAt(t, start, ts, k, e)
    ensures e.Returned? && e.outcome.reason.RecorderFailed? && ts[k].startOrphans <==> StartsLate(t, start, ts, k)
  {
    FailedStartStep(t, start, After(t, start, ts, k).value, ts[k]);
    AdmissionIsRemembered(t, start, ts, k);
    WaitingMeansQuiet(t, start, ts, k);
  }

  /** A trace with a late start ends there. */
  lemma LateStartsEndTheLoop(t: Timeouts, start: real, ts: seq<Reading>, k: nat)
    requires StartsLate(t, start, ts, k)
    ensures EndsAt(t, start, ts, k, Refused(EXIT_BOT_ERROR, RecorderFailed))
  {
    WaitingMeansQuiet(t, start, ts, k);
  }

  /** So, once the loop has ended, the trace alone decides whether a child is left. */
  lemma LateStartOfTheTrace(t: Timeouts, start: real, ts: seq<Reading>, at: nat, e: LoopExit)
    requires EndsAt(t, start, ts, at, e)
    ensures e.Returned? && e.outcome.reason.RecorderFailed? && ts[at].startOrphans <==>
      exists k: nat :: StartsLate(t, start, ts, k)
  {
    LateStartsExactly(t, start, ts, at, e);
    forall k: nat | StartsLate(t, start, ts, k) ensures k == at {
      LateStartsEndTheLoop(t, start, ts, k);
      EndsOnce(t, start, ts, k, Refused(EXIT_BOT_ERROR, RecorderFailed), at, e);
    }
  }
}
