/** How soon retention deletes an object that has a URL: within its window and one round of passes. */
module OrchestrationRetention {
  import opened Common
  import opened Calls
  import opened Orchestration
  import opened OrchestrationInvariant
  import opened OrchestrationRuns
  import opened OrchestrationTheorems
  import opened OrchestrationIntake

  /** Retention sweep `n` begins at step `i` and completes at step `j`. It is not disturbed over the
      call: the row is free at the query, and the sweep neither skips it nor dies. */
  ghost predicate CleanPass(cfg: Config, run: seq<Action>, id: CallId, n: nat, i: nat, j: nat) {
    && i < j < |run| && run[i] == SelectExpired(n) && run[j] == FinishSweep(n)
    && (forall m :: i < m < j ==> Undisturbed(run[m], n, id))
    && (At(cfg, run, i).Some? && id in At(cfg, run, i).value.calls ==> At(cfg, run, i).value.calls[id].lock.None?)
  }

  predicate Undisturbed(a: Action, n: nat, id: CallId) {
    && a != SkipCall(n, id) && a != FinishSweep(n)
    && (a.Crash? ==> n !in a.wreck.sweeps)
  }

  /** A step in the middle of the run. */
  lemma MiddleStep(cfg: Config, run: seq<Action>, k: nat)
    requires k < |run| && Exec(cfg, run).Some?
    ensures At(cfg, run, k).Some? && At(cfg, run, k + 1).Some?
    ensures Inv(cfg, At(cfg, run, k).value)
    ensures Next(cfg, At(cfg, run, k).value, run[k]) == At(cfg, run, k + 1)
  {
    PrefixesRun(cfg, run, k);
    RunsKeepInv(cfg, run[..k]);
  }

  // Back from the present row to the row that the query saw

  /** An action that leaves a row terminal with a URL found it so, or ended the call just now. */
  predicate HadUrl(c: Call, c': Call, now: int) {
    c'.row.status.Terminal() && c'.row.audioUrl ==>
      && c'.row.updatedAt >= c.row.updatedAt
      && (c'.past.terminalAt == Some(now) || (c.row.status == c'.row.status && c.row.audioUrl))
  }

  lemma ActHadUrl(cfg: Config, c: Call, a: CallAction, now: int, active: nat)
    requires CallOk(cfg, c, now)
    ensures var r := Act(cfg, c, a, now, active); r.Some? ==> HadUrl(c, r.value, now)
  {
    OutcomeStep(cfg, c, a, now, active);
  }

  /** The row at `u`, an earlier state, when the call had ended before `u`. */
  predicate SeenBy(u: World, w: World, id: CallId) {
    id in w.calls && w.calls[id].row.status.Terminal() && w.calls[id].row.audioUrl
    && w.calls[id].past.terminalAt.Some? && w.calls[id].past.terminalAt.value < u.clock ==>
      && id in u.calls && u.calls[id].row.audioUrl
      && u.calls[id].row.status == w.calls[id].row.status
      && u.calls[id].row.updatedAt <= w.calls[id].row.updatedAt
  }

  lemma MoveHadUrl(cfg: Config, u: World, w: World, w': World, a: Action, id: CallId)
    requires id in w'.calls && Moved(cfg, w, w', a, id) && u.clock <= w.clock && SeenBy(u, w, id)
    requires id in w.calls ==> CallOk(cfg, w.calls[id], w.clock)
    ensures SeenBy(u, w', id)
  {
    var act := ActionOn(w, a, id);
    if id in w.calls && act.Some? {
      ActHadUrl(cfg, w.calls[id], act.value, w.clock, |ActiveCalls(w)|);
      ActMovesOn(cfg, w.calls[id], act.value, w.clock, |ActiveCalls(w)|);
    }
  }

  lemma NextHadUrl(cfg: Config, u: World, w: World, a: Action, id: CallId)
    requires Inv(cfg, w) && u.clock <= w.clock && SeenBy(u, w, id)
    ensures var r := Next(cfg, w, a); r.Some? ==> w.clock <= r.value.clock && SeenBy(u, r.value, id)
  {
    var r := Next(cfg, w, a);
    if r.Some? && id in r.value.calls {
      StepsMoveCalls(cfg, w, a);
      MoveHadUrl(cfg, u, w, r.value, a, id);
    }
  }

  lemma {:induction false} QuerySawTheRow(cfg: Config, run: seq<Action>, id: CallId, i: nat, k: nat)
    requires i <= k <= |run| && Exec(cfg, run).Some?
    ensures At(cfg, run, i).Some? && At(cfg, run, k).Some?
    ensures At(cfg, run, i).value.clock <= At(cfg, run, k).value.clock
    ensures SeenBy(At(cfg, run, i).value, At(cfg, run, k).value, id)
  {
    PrefixesRun(cfg, run, i);
    if i == k {
      RunsKeepInv(cfg, run[..k]);
    } else {
      QuerySawTheRow(cfg, run, id, i, k - 1);
      MiddleStep(cfg, run, k - 1);
      NextHadUrl(cfg, At(cfg, run, i).value, At(cfg, run, k - 1).value, run[k - 1], id);
    }
  }

  // Forward from the query

  /** The object of a call that had a URL is gone. */
  predicate Gone(w: World, id: CallId) {
    id in w.calls && w.calls[id].past.urlWasSet && !w.calls[id].stored
  }

  predicate Listed(w: World, n: nat, id: CallId) {
    n in w.sweeps && w.sweeps[n].Retain? && id in w.sweeps[n].todo
  }

  /** Nothing is ever stored again for a call that had a URL. */
  lemma NothingIsStoredAgain(cfg: Config, c: Call, a: CallAction, now: int, active: nat)
    requires CallOk(cfg, c, now) && c.past.urlWasSet && !c.stored
    ensures var r := Act(cfg, c, a, now, active); r.Some? ==> r.value.past.urlWasSet && !r.value.stored
  {
    ActMovesOn(cfg, c, a, now, active);
  }

  lemma NextKeepsGone(cfg: Config, w: World, a: Action, id: CallId)
    requires Inv(cfg, w) && Gone(w, id)
    ensures var r := Next(cfg, w, a); r.Some? ==> Gone(r.value, id)
  {
    var r := Next(cfg, w, a);
    if r.Some? {
      StepsMoveCalls(cfg, w, a);
      assert Moved(cfg, w, r.value, a, id);
      var act := ActionOn(w, a, id);
      if act.Some? {
        NothingIsStoredAgain(cfg, w.calls[id], act.value, w.clock, |ActiveCalls(w)|);
      }
    }
  }

  lemma ListedHadUrl(cfg: Config, w: World, n: nat, id: CallId)
    requires Inv(cfg, w) && Listed(w, n, id)
    ensures id in w.calls && w.calls[id].past.urlWasSet
  {
    assert SweepOk(cfg, w, w.sweeps[n]);
  }

  lemma ServingDeletes(cfg: Config, w: World, n: nat, id: CallId)
    requires Listed(w, n, id) && id in w.calls && w.calls[id].past.urlWasSet
    ensures var r := Next(cfg, w, SweepCall(n, id)); r.Some? ==> Gone(r.value, id)
  {
  }

  /** Nothing else takes the call off the list. */
  lemma OthersLeaveTheList(cfg: Config, w: World, a: Action, n: nat, id: CallId)
    requires Listed(w, n, id) && Undisturbed(a, n, id) && a != SweepCall(n, id)
    ensures var r := Next(cfg, w, a); r.Some? ==> Listed(r.value, n, id)
  {
  }

  predicate Served(w: World, n: nat, id: CallId) {
    Listed(w, n, id) || Gone(w, id)
  }

  /** An undisturbed listed call stays on the list until its object is deleted. */
  lemma NextServesTheList(cfg: Config, w: World, a: Action, n: nat, id: CallId)
    requires Inv(cfg, w) && Served(w, n, id) && Undisturbed(a, n, id)
    ensures var r := Next(cfg, w, a); r.Some? ==> Served(r.value, n, id)
  {
    if Gone(w, id) {
      NextKeepsGone(cfg, w, a, id);
    } else if a == SweepCall(n, id) {
      ListedHadUrl(cfg, w, n, id);
      ServingDeletes(cfg, w, n, id);
    } else {
      OthersLeaveTheList(cfg, w, a, n, id);
    }
  }

  lemma {:induction false} TheListIsServed(cfg: Config, run: seq<Action>, id: CallId, n: nat, i: nat, j: nat, k: nat)
    requires Exec(cfg, run).Some? && i < k <= j < |run| && forall m :: i < m < j ==> Undisturbed(run[m], n, id)
    requires At(cfg, run, i + 1).Some? && Listed(At(cfg, run, i + 1).value, n, id)
    ensures At(cfg, run, k).Some? && Served(At(cfg, run, k).value, n, id)
  {
    if k > i + 1 {
      TheListIsServed(cfg, run, id, n, i, j, k - 1);
      ServedStep(cfg, run, id, n, k - 1);
    }
  }

  lemma ServedStep(cfg: Config, run: seq<Action>, id: CallId, n: nat, k: nat)
    requires Exec(cfg, run).Some? && k < |run| && Undisturbed(run[k], n, id)
    requires At(cfg, run, k).Some? && Served(At(cfg, run, k).value, n, id)
    ensures At(cfg, run, k + 1).Some? && Served(At(cfg, run, k + 1).value, n, id)
  {
    MiddleStep(cfg, run, k);
    NextServesTheList(cfg, At(cfg, run, k).value, run[k], n, id);
  }

  lemma {:induction false} GoneIsForEver(cfg: Config, run: seq<Action>, id: CallId, j: nat, k: nat)
    requires j <= k <= |run| && Exec(cfg, run).Some? && At(cfg, run, j).Some? && Gone(At(cfg, run, j).value, id)
    ensures At(cfg, run, k).Some? && Gone(At(cfg, run, k).value, id)
  {
    if j < k {
      GoneIsForEver(cfg, run, id, j, k - 1);
      GoneStep(cfg, run, id, k - 1);
    }
  }

  lemma GoneStep(cfg: Config, run: seq<Action>, id: CallId, k: nat)
    requires Exec(cfg, run).Some? && k < |run| && At(cfg, run, k).Some? && Gone(At(cfg, run, k).value, id)
    ensures At(cfg, run, k + 1).Some? && Gone(At(cfg, run, k + 1).value, id)
  {
    MiddleStep(cfg, run, k);
    NextKeepsGone(cfg, At(cfg, run, k).value, run[k], id);
  }

  /** A clean pass whose query finds the call expired leaves no object. */
  lemma CleanPassesReclaim(cfg: Config, run: seq<Action>, w: World, id: CallId, n: nat, i: nat, j: nat)
    requires Reaches(cfg, run, w) && CleanPass(cfg, run, id, n, i, j)
    requires At(cfg, run, i).Some? && id in At(cfg, run, i).value.calls
    requires ExpiredAt(cfg, At(cfg, run, i).value.calls[id].row, At(cfg, run, i).value.clock)
    ensures Gone(w, id)
  {
    PrefixesRun(cfg, run, i);
    TheListIsServed(cfg, run, id, n, i, j, j);
    PrefixesRun(cfg, run, j);
    GoneIsForEver(cfg, run, id, j, |run|);
    assert run[..|run|] == run;
  }

  /** The upper bound: an object whose row has a URL is never older than its window by more than the
      age of the newest clean pass over it. The age of the row counts from its last stamp, which is
      the end of the call or the beginning of its delivery. */
  lemma RetentionIsPrompt(cfg: Config, run: seq<Action>, w: World, id: CallId, n: nat, i: nat, j: nat, gap: nat)
    requires Reaches(cfg, run, w) && CleanPass(cfg, run, id, n, i, j)
    requires At(cfg, run, i).Some? && w.clock <= At(cfg, run, i).value.clock + gap
    requires id in w.calls && w.calls[id].row.status.Terminal() && w.calls[id].row.audioUrl && w.calls[id].stored
    ensures var row := w.calls[id].row;
      w.clock <= row.updatedAt + 86400 * (if row.status.Done? then cfg.doneRetentionDays else cfg.failedRetentionDays) + gap
  {
    RunsKeepInv(cfg, run);
    assert CallOk(cfg, w.calls[id], w.clock);
    QuerySawTheRow(cfg, run, id, i, |run|);
    assert run[..|run|] == run;
    var u, row := At(cfg, run, i).value, w.calls[id].row;
    if w.clock > row.updatedAt + cfg.Window(row.status) + gap {
      assert ExpiredAt(cfg, u.calls[id].row, u.clock);
      CleanPassesReclaim(cfg, run, w, id, n, i, j);
      assert false;
    }
  }
}
