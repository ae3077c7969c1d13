/** Which ended calls never send their webhook. */
module OrchestrationWebhooks {
  import opened Calls
  import opened Orchestration
  import opened OrchestrationInvariant
  import opened OrchestrationRuns
  import opened OrchestrationTheorems
  import opened OrchestrationAudio

  /** Nothing acts for the ended call any more, and no dispatch is due or has begun. */
  predicate Forgotten(c: Call) {
    AtRest(c) && c.due == 0 && c.past.dispatches == 0
  }

  lemma ActForgets(cfg: Config, c: Call, a: CallAction, now: int, active: nat)
    requires CallOk(cfg, c, now) && Forgotten(c)
    ensures var r := Act(cfg, c, a, now, active); r.Some? ==> Forgotten(r.value)
  {
  }

  lemma NextForgets(cfg: Config, w: World, a: Action, id: CallId)
    requires CallsInv(cfg, w) && id in w.calls && Forgotten(w.calls[id])
    ensures var r := Next(cfg, w, a); r.Some? ==> id in r.value.calls && Forgotten(r.value.calls[id])
  {
    var r := Next(cfg, w, a);
    if r.Some? {
      StepsMoveCalls(cfg, w, a);
      assert Moved(cfg, w, r.value, a, id);
      var act := ActionOn(w, a, id);
      if act.Some? {
        ActForgets(cfg, w.calls[id], act.value, w.clock, |ActiveCalls(w)|);
      }
    }
  }

  lemma {:induction false} ForgottenForEver(cfg: Config, run: seq<Action>, w: World, more: seq<Action>, w': World, id: CallId)
    requires Reaches(cfg, run, w) && Reaches(cfg, run + more, w') && id in w.calls && Forgotten(w.calls[id])
    ensures id in w'.calls && Forgotten(w'.calls[id])
  {
    if more == [] {
      assert run + more == run;
    } else {
      LastStep(cfg, run, more, w');
      var most := more[..|more| - 1];
      var before := Exec(cfg, run + most).value;
      ForgottenForEver(cfg, run, w, most, before, id);
      RunsKeepInv(cfg, run + most);
      NextForgets(cfg, before, more[|more| - 1], id);
    }
  }

  /** Commits the reclaim that holds the row, if there is one. */
  lemma FreeRow(cfg: Config, run: seq<Action>, w: World, id: CallId) returns (more: seq<Action>, w': World)
    requires Reaches(cfg, run, w) && id in w.calls && AtRest(w.calls[id]) && w.calls[id].due > 0
    ensures CrashFree(more) && Reaches(cfg, run + more, w') && id in w'.calls
    ensures AtRest(w'.calls[id]) && w'.calls[id].due > 0 && w'.calls[id].lock.None?
  {
    RunsKeepInv(cfg, run);
    assert CallOk(cfg, w.calls[id], w.clock);
    if w.calls[id].lock.None? {
      more, w' := [], w;
      assert run + more == run;
    } else {
      more, w' := [OnCall(id, CommitReclaim)], Next(cfg, w, OnCall(id, CommitReclaim)).value;
      Extend(cfg, run, w, OnCall(id, CommitReclaim));
    }
  }

  lemma FreeDueBegins(cfg: Config, run: seq<Action>, w: World, id: CallId) returns (w': World)
    requires Reaches(cfg, run, w) && id in w.calls && AtRest(w.calls[id]) && w.calls[id].due > 0 && w.calls[id].lock.None?
    ensures Reaches(cfg, run + [OnCall(id, BeginDispatch)], w') && id in w'.calls && w'.calls[id].past.dispatches == 1
  {
    RunsKeepInv(cfg, run);
    assert CallOk(cfg, w.calls[id], w.clock);
    w' := Next(cfg, w, OnCall(id, BeginDispatch)).value;
    Extend(cfg, run, w, OnCall(id, BeginDispatch));
  }

  /** A due dispatch can begin. */
  lemma DueCanBegin(cfg: Config, run: seq<Action>, w: World, id: CallId) returns (more: seq<Action>, w': World)
    requires Reaches(cfg, run, w) && id in w.calls && AtRest(w.calls[id]) && w.calls[id].due > 0
    ensures CrashFree(more) && Reaches(cfg, run + more, w') && id in w'.calls && w'.calls[id].past.dispatches == 1
  {
    var m1, w1 := FreeRow(cfg, run, w, id);
    w' := FreeDueBegins(cfg, run + m1, w1, id);
    more := m1 + [OnCall(id, BeginDispatch)];
    assert run + m1 + [OnCall(id, BeginDispatch)] == run + more;
  }

  /** However the run goes on, the call's webhook is not sent. */
  ghost predicate NeverSent(cfg: Config, run: seq<Action>, id: CallId) {
    forall more, w' :: Reaches(cfg, run + more, w') ==> id in w'.calls && w'.calls[id].past.dispatches == 0
  }

  /** The exact condition: an ended call that nothing acts for stays without its webhook for ever if and
      only if its dispatch is neither due nor has begun. No sweep makes up for it. */
  lemma NeverSentExactly(cfg: Config, run: seq<Action>, w: World, id: CallId)
    requires Reaches(cfg, run, w) && id in w.calls && AtRest(w.calls[id])
    ensures NeverSent(cfg, run, id) <==> w.calls[id].due == 0 && w.calls[id].past.dispatches == 0
  {
    var c := w.calls[id];
    if c.due == 0 && c.past.dispatches == 0 {
      forall more, w' | Reaches(cfg, run + more, w') ensures id in w'.calls && w'.calls[id].past.dispatches == 0 {
        ForgottenForEver(cfg, run, w, more, w', id);
      }
    } else if c.past.dispatches == 0 {
      var more, w' := DueCanBegin(cfg, run, w, id);
    } else {
      assert Reaches(cfg, run + [], w) by {
        assert run + [] == run;
      }
    }
  }
}
