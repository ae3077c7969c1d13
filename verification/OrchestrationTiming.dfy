/** Time bounds: with the stale sweep running, no claimed call is stranded; and a call
    that keeps to the cutoffs is never failed as stale. */
module OrchestrationTiming {
  import opened Common
  import opened Calls
  import opened Orchestration
  import opened OrchestrationInvariant
  import opened OrchestrationRuns
  import opened OrchestrationTheorems

  /** All along the run, some stale sweep whose snapshot is at most `gap` seconds old has completed. */
  ghost predicate Watched(cfg: Config, run: seq<Action>, gap: nat) {
    forall k :: 0 <= k <= |run| && Exec(cfg, run[..k]).Some? ==>
      Exec(cfg, run[..k]).value.clock <= Exec(cfg, run[..k]).value.lastSweep + gap
  }

  /** How long after its claim a call may still rest in a status, whatever happens. */
  function Bound(cfg: Config, gap: nat): nat {
    2 * (cfg.maxRecordDuration + 300) + 2400 + 3 * gap
  }

  predicate OnTime(cfg: Config, c: Call, gap: nat) {
    c.past.claims == 1 ==>
      match c.row.status
      case Queued => true
      case Joining => true
      case Recording => c.row.updatedAt <= c.past.claimedAt + cfg.RecordingCutoff() + gap
      case Processing => c.row.updatedAt <= c.past.claimedAt + 2 * cfg.RecordingCutoff() + 2 * gap
      case _ => c.past.terminalAt.Some? ==> c.past.terminalAt.value <= c.past.claimedAt + Bound(cfg, gap)
  }

  /** Every action that moves a row finds it at most one cutoff and one gap old. */
  lemma ActKeepsOnTime(cfg: Config, c: Call, a: CallAction, now: int, active: nat, lastSweep: int, gap: nat)
    requires CallOk(cfg, c, now) && OnTime(cfg, c, gap)
    requires !LateAt(cfg, c, lastSweep) && lastSweep <= now <= lastSweep + gap
    ensures var r := Act(cfg, c, a, now, active); r.Some? ==> OnTime(cfg, r.value, gap)
  {
    if UpToExit(a) {
      ActUpToExitKeepsOnTime(cfg, c, a, now, active, lastSweep, gap);
    } else {
      ActAfterExitKeepsOnTime(cfg, c, a, now, active, lastSweep, gap);
    }
  }

  lemma ActUpToExitKeepsOnTime(cfg: Config, c: Call, a: CallAction, now: int, active: nat, lastSweep: int, gap: nat)
    requires CallOk(cfg, c, now) && OnTime(cfg, c, gap) && UpToExit(a)
    requires !LateAt(cfg, c, lastSweep) && lastSweep <= now <= lastSweep + gap
    ensures var r := Act(cfg, c, a, now, active); r.Some? ==> OnTime(cfg, r.value, gap)
  {
  }

  lemma ActAfterExitKeepsOnTime(cfg: Config, c: Call, a: CallAction, now: int, active: nat, lastSweep: int, gap: nat)
    requires CallOk(cfg, c, now) && OnTime(cfg, c, gap) && !UpToExit(a)
    requires !LateAt(cfg, c, lastSweep) && lastSweep <= now <= lastSweep + gap
    ensures var r := Act(cfg, c, a, now, active); r.Some? ==> OnTime(cfg, r.value, gap)
  {
    if InPipeline(a) {
      PipelineKeepsOnTime(cfg, c, a, now, active, lastSweep, gap);
    }
  }

  lemma PipelineKeepsOnTime(cfg: Config, c: Call, a: CallAction, now: int, active: nat, lastSweep: int, gap: nat)
    requires CallOk(cfg, c, now) && OnTime(cfg, c, gap) && InPipeline(a)
    requires !LateAt(cfg, c, lastSweep) && lastSweep <= now <= lastSweep + gap
    ensures var r := Act(cfg, c, a, now, active); r.Some? ==> OnTime(cfg, r.value, gap)
  {
  }

  ghost predicate AllOnTime(cfg: Config, w: World, gap: nat) {
    forall id :: id in w.calls ==> OnTime(cfg, w.calls[id], gap)
  }

  lemma NextKeepsOnTime(cfg: Config, w: World, a: Action, gap: nat)
    requires Inv(cfg, w) && AllOnTime(cfg, w, gap) && w.clock <= w.lastSweep + gap
    ensures var r := Next(cfg, w, a); r.Some? ==> AllOnTime(cfg, r.value, gap)
  {
    var r := Next(cfg, w, a);
    if r.Some? {
      StepsMoveCalls(cfg, w, a);
      forall id | id in r.value.calls ensures OnTime(cfg, r.value.calls[id], gap) {
        MoveKeepsOnTime(cfg, w, r.value, a, id, gap);
      }
    }
  }

  lemma MoveKeepsOnTime(cfg: Config, w: World, w': World, a: Action, id: CallId, gap: nat)
    requires id in w'.calls && Moved(cfg, w, w', a, id)
    requires id in w.calls ==>
      CallOk(cfg, w.calls[id], w.clock) && OnTime(cfg, w.calls[id], gap) && !LateAt(cfg, w.calls[id], w.lastSweep)
    requires w.lastSweep <= w.clock <= w.lastSweep + gap
    ensures OnTime(cfg, w'.calls[id], gap)
  {
    var act := ActionOn(w, a, id);
    if id in w.calls && act.Some? {
      ActKeepsOnTime(cfg, w.calls[id], act.value, w.clock, |ActiveCalls(w)|, w.lastSweep, gap);
    }
  }

  lemma {:induction false} RunsKeepOnTime(cfg: Config, run: seq<Action>, gap: nat)
    requires Watched(cfg, run, gap) && Exec(cfg, run).Some?
    ensures AllOnTime(cfg, Exec(cfg, run).value, gap)
  {
    if run != [] {
      var before := run[..|run| - 1];
      assert forall k :: 0 <= k <= |before| ==> before[..k] == run[..k];
      assert before[..|before|] == before;
      RunsKeepInv(cfg, before);
      RunsKeepOnTime(cfg, before, gap);
      NextKeepsOnTime(cfg, Exec(cfg, before).value, run[|run| - 1], gap);
    }
  }

  /** No stranded call: crashes included, a claimed call is terminal at the latest
      2 * (max record duration + 300) + 2400 + 3 * gap seconds after its claim. */
  lemma NoCallIsStranded(cfg: Config, run: seq<Action>, w: World, id: CallId, gap: nat)
    requires Reaches(cfg, run, w) && Watched(cfg, run, gap)
    requires id in w.calls && w.calls[id].past.claims == 1
    ensures var c := w.calls[id];
      if c.row.status.Terminal() then
        c.past.terminalAt.Some?
        && c.past.terminalAt.value <= c.past.claimedAt + 2 * (cfg.maxRecordDuration + 300) + 2400 + 3 * gap
      else
        w.clock <= c.past.claimedAt + 2 * (cfg.maxRecordDuration + 300) + 2400 + 3 * gap
  {
    RunsKeepInv(cfg, run);
    RunsKeepOnTime(cfg, run, gap);
    assert run[..|run|] == run;
    assert CallOk(cfg, w.calls[id], w.clock);
  }

  // The converse worry: that the sweep fails a call that is doing fine

  /** A row has not rested longer than its status allows, in seconds from its stamp. */
  predicate InGoodTime(cfg: Config, row: Row, now: int) {
    && (row.status.Joining? || row.status.Recording? ==> now - row.updatedAt <= cfg.maxRecordDuration + 300)
    && (row.status.Processing? ==> now - row.updatedAt <= 2400)
  }

  /** The sweep's query lists exactly the rows that are not in good time. */
  lemma OverdueIsLate(cfg: Config, row: Row, now: int)
    ensures OverdueAt(cfg, row, now) <==> !InGoodTime(cfg, row, now)
  {
  }

  /** All along the run, the call has never rested in a status longer than that. */
  ghost predicate Prompt(cfg: Config, run: seq<Action>, id: CallId) {
    forall k :: 0 <= k <= |run| && Exec(cfg, run[..k]).Some? && id in Exec(cfg, run[..k]).value.calls ==>
      InGoodTime(cfg, Exec(cfg, run[..k]).value.calls[id].row, Exec(cfg, run[..k]).value.clock)
  }

  ghost predicate Untouched(w: World, id: CallId) {
    && (forall n :: n in w.sweeps && w.sweeps[n].Stale? ==> id !in w.sweeps[n].todo)
    && (id in w.calls ==> w.calls[id].row.failureReason != Some(StaleCall))
  }

  lemma OnlySweepsFailAsStale(cfg: Config, c: Call, a: CallAction, now: int, active: nat)
    requires LockOk(c, now) && c.row.failureReason != Some(StaleCall)
    ensures var r := Act(cfg, c, a, now, active);
      r.Some? && r.value.row.failureReason == Some(StaleCall) ==> a == SweepAway(StaleCall)
  {
    if UpToExit(a) {
      NoExitFailsAsStale(cfg, c, a, now, active);
    }
  }

  lemma NoExitFailsAsStale(cfg: Config, c: Call, a: CallAction, now: int, active: nat)
    requires LockOk(c, now) && c.row.failureReason != Some(StaleCall) && UpToExit(a)
    ensures var r := Act(cfg, c, a, now, active); r.Some? ==> r.value.row.failureReason != Some(StaleCall)
  {
  }

  lemma NextKeepsUntouched(cfg: Config, w: World, a: Action, id: CallId)
    requires CallsInv(cfg, w) && Untouched(w, id)
    requires id in w.calls ==> !OverdueAt(cfg, w.calls[id].row, w.clock)
    ensures var r := Next(cfg, w, a); r.Some? ==> Untouched(r.value, id)
  {
    NextKeepsOffLists(cfg, w, a, id);
    StepsMoveCalls(cfg, w, a);
    var r := Next(cfg, w, a);
    if r.Some? && id in r.value.calls {
      UnlistedIsNotSwept(cfg, w, a, id);
      MoveKeepsUntouched(cfg, w, r.value, a, id);
    }
  }

  lemma UnlistedIsNotSwept(cfg: Config, w: World, a: Action, id: CallId)
    requires Untouched(w, id) && Next(cfg, w, a).Some?
    ensures ActionOn(w, a, id) != Some(SweepAway(StaleCall))
  {
  }

  lemma MoveKeepsUntouched(cfg: Config, w: World, w': World, a: Action, id: CallId)
    requires id in w'.calls && Moved(cfg, w, w', a, id) && Untouched(w, id)
    requires id in w.calls ==> CallOk(cfg, w.calls[id], w.clock)
    requires ActionOn(w, a, id) != Some(SweepAway(StaleCall))
    ensures w'.calls[id].row.failureReason != Some(StaleCall)
  {
    var act := ActionOn(w, a, id);
    if id in w.calls && act.Some? {
      OnlySweepsFailAsStale(cfg, w.calls[id], act.value, w.clock, |ActiveCalls(w)|);
    }
  }

  lemma NextKeepsOffLists(cfg: Config, w: World, a: Action, id: CallId)
    requires forall n :: n in w.sweeps && w.sweeps[n].Stale? ==> id !in w.sweeps[n].todo
    requires id in w.calls ==> !OverdueAt(cfg, w.calls[id].row, w.clock)
    ensures var r := Next(cfg, w, a);
      r.Some? ==> forall n :: n in r.value.sweeps && r.value.sweeps[n].Stale? ==> id !in r.value.sweeps[n].todo
  {
  }

  /** A call that keeps to the cutoffs is never failed as stale, and no sweep ever lists it. */
  lemma {:induction false} PromptCallsAreNeverStale(cfg: Config, run: seq<Action>, w: World, id: CallId)
    requires Reaches(cfg, run, w) && Prompt(cfg, run, id)
    ensures Untouched(w, id)
  {
    if run != [] {
      var before := run[..|run| - 1];
      assert forall k :: 0 <= k <= |before| ==> before[..k] == run[..k];
      assert before[..|before|] == before;
      var w0 := Exec(cfg, before).value;
      if id in w0.calls {
        OverdueIsLate(cfg, w0.calls[id].row, w0.clock);
      }
      RunsKeepInv(cfg, before);
      PromptCallsAreNeverStale(cfg, before, w0, id);
      NextKeepsUntouched(cfg, w0, run[|run| - 1], id);
    }
  }
}
