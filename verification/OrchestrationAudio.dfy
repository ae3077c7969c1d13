/** What becomes of a call's audio in the rest of a run: which audio stays for ever, and how soon
    retention deletes the other. */
module OrchestrationAudio {
  import opened Common
  import opened Calls
  import opened Orchestration
  import opened OrchestrationInvariant
  import opened OrchestrationRuns
  import opened OrchestrationTheorems

  // What lasts

  /** A call that has ended, without a coroutine that could still act for it or a bot that writes. */
  predicate AtRest(c: Call) {
    c.row.status.Terminal() && c.task.None? && !c.container
  }

  /** What no action ever changes about a terminal call: whether a sweep failed it, that its object
      stays if one did, that it is at rest, and then its scratch WAV. */
  predicate Lasting(c: Call, c': Call) {
    c.row.status.Terminal() ==>
      && c'.row.status == c.row.status
      && (SweptAway(c'.row) <==> SweptAway(c.row))
      && (SweptAway(c.row) && c.stored ==> c'.stored)
      && (AtRest(c) ==> AtRest(c') && c'.scratch == c.scratch)
  }

  lemma ActLeavesLasting(cfg: Config, c: Call, a: CallAction, now: int, active: nat)
    requires CallOk(cfg, c, now) && (a.DeleteObject? ==> MayDelete(cfg, c, now))
    ensures var r := Act(cfg, c, a, now, active); r.Some? ==> Lasting(c, r.value)
  {
    OutcomeStep(cfg, c, a, now, active);
  }

  /** A step of a sweep deletes only what the invariant lets it delete. */
  lemma SweepsMayDelete(cfg: Config, w: World, a: Action, id: CallId)
    requires Inv(cfg, w) && id in w.calls && Next(cfg, w, a).Some?
    requires ActionOn(w, a, id) == Some(DeleteObject)
    ensures MayDelete(cfg, w.calls[id], w.clock)
  {
    if a.SweepCall? {
      assert SweepOk(cfg, w, w.sweeps[a.n]);
    }
  }

  lemma MoveLeavesLasting(cfg: Config, w: World, w': World, a: Action, id: CallId)
    requires id in w.calls && id in w'.calls && Moved(cfg, w, w', a, id) && CallOk(cfg, w.calls[id], w.clock)
    requires ActionOn(w, a, id) == Some(DeleteObject) ==> MayDelete(cfg, w.calls[id], w.clock)
    ensures Lasting(w.calls[id], w'.calls[id])
  {
    var act := ActionOn(w, a, id);
    if act.Some? {
      ActLeavesLasting(cfg, w.calls[id], act.value, w.clock, |ActiveCalls(w)|);
    }
  }

  lemma NextLeavesLasting(cfg: Config, w: World, a: Action, id: CallId)
    requires Inv(cfg, w) && id in w.calls
    ensures var r := Next(cfg, w, a); r.Some? ==> id in r.value.calls && Lasting(w.calls[id], r.value.calls[id])
  {
    var r := Next(cfg, w, a);
    if r.Some? {
      StepsMoveCalls(cfg, w, a);
      if ActionOn(w, a, id) == Some(DeleteObject) {
        SweepsMayDelete(cfg, w, a, id);
      }
      MoveLeavesLasting(cfg, w, r.value, a, id);
    }
  }

  /** The last action of a run that goes on. */
  lemma LastStep(cfg: Config, run: seq<Action>, more: seq<Action>, w: World)
    requires more != [] && Reaches(cfg, run + more, w)
    ensures var most := more[..|more| - 1];
      && Exec(cfg, run + most).Some?
      && Next(cfg, Exec(cfg, run + most).value, more[|more| - 1]) == Some(w)
  {
    assert (run + more)[..|run + more| - 1] == run + more[..|more| - 1];
  }

  lemma {:induction false} WhatLasts(cfg: Config, run: seq<Action>, w: World, more: seq<Action>, w': World, id: CallId)
    requires Reaches(cfg, run, w) && Reaches(cfg, run + more, w')
    requires id in w.calls && w.calls[id].row.status.Terminal()
    ensures id in w'.calls && Lasting(w.calls[id], w'.calls[id])
  {
    if more == [] {
      assert run + more == run;
    } else {
      LastStep(cfg, run, more, w');
      var most := more[..|more| - 1];
      var before := Exec(cfg, run + most).value;
      WhatLasts(cfg, run, w, most, before, id);
      RunsKeepInv(cfg, run + most);
      NextLeavesLasting(cfg, before, more[|more| - 1], id);
    }
  }

  // What goes

  /** A sweep number that is not in use. */
  lemma {:induction false} SomeNumberIsFree(used: set<nat>) returns (n: nat)
    ensures forall m :: m in used ==> m < n
  {
    if used == {} {
      n := 0;
    } else {
      var m :| m in used;
      var bound := SomeNumberIsFree(used - {m});
      n := Max(bound, m + 1);
      forall k | k in used ensures k < n {
        assert k == m || k in used - {m};
      }
    }
  }

  /** Ends the delivery that holds the row, if there is one. */
  lemma LetGo(cfg: Config, run: seq<Action>, w: World, id: CallId) returns (more: seq<Action>, w': World)
    requires Reaches(cfg, run, w) && id in w.calls && w.calls[id].row.status.Terminal() && w.calls[id].stored
    ensures CrashFree(more) && Reaches(cfg, run + more, w') && id in w'.calls && w'.calls[id].lock.None?
    ensures var c, c' := w.calls[id], w'.calls[id];
      c'.row.status == c.row.status && c'.row.audioUrl == c.row.audioUrl && c'.scratch == c.scratch
  {
    RunsKeepInv(cfg, run);
    assert CallOk(cfg, w.calls[id], w.clock);
    if w.calls[id].lock.None? {
      more, w' := [], w;
      assert run + more == run;
    } else {
      more, w' := [OnCall(id, EndDelivery)], Next(cfg, w, OnCall(id, EndDelivery)).value;
      Extend(cfg, run, w, OnCall(id, EndDelivery));
    }
  }

  /** Waits until the window is over, and begins a retention sweep, which lists the call. */
  lemma ListUp(cfg: Config, run: seq<Action>, w: World, id: CallId) returns (more: seq<Action>, w': World, n: nat)
    requires Reaches(cfg, run, w) && id in w.calls && w.calls[id].lock.None?
    requires w.calls[id].row.status.Terminal() && w.calls[id].row.audioUrl
    ensures CrashFree(more) && Reaches(cfg, run + more, w') && w'.calls == w.calls
    ensures n in w'.sweeps && w'.sweeps[n].Retain? && id in w'.sweeps[n].todo
  {
    RunsKeepInv(cfg, run);
    assert CallOk(cfg, w.calls[id], w.clock);
    n := SomeNumberIsFree(w.sweeps.Keys);
    assert n !in w.sweeps;
    var wait := Tick(cfg.Window(w.calls[id].row.status) + 1);
    Extend(cfg, run, w, wait);
    var w1 := Next(cfg, w, wait).value;
    Extend(cfg, run + [wait], w1, SelectExpired(n));
    w' := Next(cfg, w1, SelectExpired(n)).value;
    more := [wait, SelectExpired(n)];
    assert run + [wait] + [SelectExpired(n)] == run + more;
  }

  /** The sweep deletes the object. */
  lemma SweepUp(cfg: Config, run: seq<Action>, w: World, id: CallId, n: nat) returns (more: seq<Action>, w': World)
    requires Reaches(cfg, run, w) && id in w.calls && w.calls[id].lock.None?
    requires n in w.sweeps && w.sweeps[n].Retain? && id in w.sweeps[n].todo
    ensures CrashFree(more) && Reaches(cfg, run + more, w') && id in w'.calls
    ensures !w'.calls[id].stored && w'.calls[id].scratch == w.calls[id].scratch
  {
    Extend(cfg, run, w, SweepCall(n, id));
    more, w' := [SweepCall(n, id)], Next(cfg, w, SweepCall(n, id)).value;
  }

  /** From every terminal call whose object has a URL, the run can go on to its deletion. */
  lemma ObjectCanGo(cfg: Config, run: seq<Action>, w: World, id: CallId) returns (more: seq<Action>, w': World)
    requires Reaches(cfg, run, w) && id in w.calls && w.calls[id].row.status.Terminal()
    requires w.calls[id].stored && w.calls[id].row.audioUrl
    ensures CrashFree(more) && Reaches(cfg, run + more, w') && id in w'.calls
    ensures !w'.calls[id].stored && w'.calls[id].scratch == w.calls[id].scratch
  {
    var m1, w1 := LetGo(cfg, run, w, id);
    var m2, w2, n := ListUp(cfg, run + m1, w1, id);
    var m3;
    m3, w' := SweepUp(cfg, run + m1 + m2, w2, id, n);
    more := m1 + m2 + m3;
    assert run + m1 + m2 + m3 == run + more;
  }

  // Who keeps audio

  /** However the run goes on, the call's object is still there. */
  ghost predicate ObjectStays(cfg: Config, run: seq<Action>, id: CallId) {
    forall more, w' :: Reaches(cfg, run + more, w') ==> id in w'.calls && w'.calls[id].stored
  }

  /** However the run goes on, some copy of the call's audio is still there. */
  ghost predicate AudioStays(cfg: Config, run: seq<Action>, id: CallId) {
    forall more, w' :: Reaches(cfg, run + more, w') ==> id in w'.calls && (w'.calls[id].scratch || w'.calls[id].stored)
  }

  /** Of the objects that outlive their call, exactly those of swept calls stay whatever comes:
      their rows carry no URL, and no retention sweep of any continuation deletes them. */
  lemma SweptObjectsEscapeRetention(cfg: Config, run: seq<Action>, w: World, id: CallId)
    requires Reaches(cfg, run, w) && id in w.calls
    requires w.calls[id].row.status.Terminal() && w.calls[id].stored
    ensures SweptAway(w.calls[id].row) <==> !w.calls[id].row.audioUrl
    ensures SweptAway(w.calls[id].row) <==> ObjectStays(cfg, run, id)
  {
    RunsKeepInv(cfg, run);
    assert CallOk(cfg, w.calls[id], w.clock);
    if SweptAway(w.calls[id].row) {
      forall more, w' | Reaches(cfg, run + more, w') ensures id in w'.calls && w'.calls[id].stored {
        WhatLasts(cfg, run, w, more, w', id);
      }
    } else {
      var more, w' := ObjectCanGo(cfg, run, w, id);
    }
  }

  /** The exact condition for the retention policy. Once nothing acts for an ended call any more,
      its audio stays in every continuation if and only if its WAV is still in scratch, which
      nothing cleans up, or its object was left by a sweep. */
  lemma AudioStaysExactly(cfg: Config, run: seq<Action>, w: World, id: CallId)
    requires Reaches(cfg, run, w) && id in w.calls && AtRest(w.calls[id])
    ensures var c := w.calls[id];
      AudioStays(cfg, run, id) <==> c.scratch || (c.stored && SweptAway(c.row))
  {
    var c := w.calls[id];
    if c.scratch || (c.stored && SweptAway(c.row)) {
      forall more, w' | Reaches(cfg, run + more, w')
        ensures id in w'.calls && (w'.calls[id].scratch || w'.calls[id].stored)
      {
        WhatLasts(cfg, run, w, more, w', id);
      }
    } else if c.stored {
      RunsKeepInv(cfg, run);
      var more, w' := ObjectCanGo(cfg, run, w, id);
    } else {
      assert Reaches(cfg, run + [], w) by {
        assert run + [] == run;
      }
    }
  }

  /** Read off the row: a recorded call that ended without the URL (every failure but that of the
      transcription) keeps its audio for ever; one that ended with it keeps it exactly when the
      best-effort deletion of its WAV did not work. */
  lemma RecordingsWithoutUrlStay(cfg: Config, run: seq<Action>, w: World, id: CallId)
    requires Reaches(cfg, run, w) && id in w.calls && AtRest(w.calls[id]) && w.calls[id].past.recorded
    ensures var c := w.calls[id];
      AudioStays(cfg, run, id) <==> !EndsWithUrl(c.row) || c.scratch
  {
    RunsKeepInv(cfg, run);
    assert CallOk(cfg, w.calls[id], w.clock);
    AudioStaysExactly(cfg, run, w, id);
  }
}
