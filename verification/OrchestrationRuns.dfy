/** The invariant over whole runs. */
module OrchestrationRuns {
  import opened Common
  import opened Calls
  import opened Orchestration
  import opened OrchestrationInvariant

  // What one step does to one call

  /** The action on a call that a step contains, if it contains one. */
  function ActionOn(w: World, a: Action, id: CallId): Option<CallAction> {
    if a.OnCall? && a.id == id then Some(a.act)
    else if a.SweepCall? && a.id == id && a.n in w.sweeps then Some(SweepAction(w.sweeps[a.n]))
    else None
  }

  predicate Moved(cfg: Config, w: World, w': World, a: Action, id: CallId)
    requires id in w'.calls
  {
    if id !in w.calls then w'.calls[id] == NewCall(w.clock)
    else
      match ActionOn(w, a, id)
      case Some(act) => Act(cfg, w.calls[id], act, w.clock, |ActiveCalls(w)|) == Some(w'.calls[id])
      case None => w'.calls[id] == if a.Crash? then CrashCall(w.calls[id], id, a.wreck) else w.calls[id]
  }

  /** A step creates a call, acts on it, wrecks it in a crash, or leaves it as it was. */
  lemma StepsMoveCalls(cfg: Config, w: World, a: Action)
    ensures var r := Next(cfg, w, a);
      r.Some? ==> w.calls.Keys <= r.value.calls.Keys && forall id :: id in r.value.calls ==> Moved(cfg, w, r.value, a, id)
  {
  }

  // The ceiling

  lemma SubsetSize<T>(a: set<T>, b: set<T>)
    requires a <= b
    ensures |a| <= |b|
  {
    assert b == a + (b - a);
  }

  /** A claim that passes the check finds room: all occupied calls are active, and the
      claimed call is active but not yet occupied. */
  lemma ClaimFindsRoom(cfg: Config, w: World, id: CallId)
    requires CallsInv(cfg, w) && id in w.calls
    requires w.calls[id].row.status.Active() && |ActiveCalls(w)| <= cfg.concurrencyLimit
    ensures |Occupied(w) + {id}| <= cfg.concurrencyLimit
  {
    forall x | x in Occupied(w) ensures x in ActiveCalls(w) {
      assert CallOk(cfg, w.calls[x], w.clock);
    }
    SubsetSize(Occupied(w) + {id}, ActiveCalls(w));
  }

  /** A call may be replaced by one that is occupied if it was so already, or if there is room. */
  lemma ReplacedKeepsCeiling(cfg: Config, w: World, id: CallId, c: Call)
    requires CallsInv(cfg, w) && |Occupied(w)| <= cfg.concurrencyLimit && id in w.calls
    requires Occupies(c) && !Occupies(w.calls[id]) ==>
      w.calls[id].row.status.Active() && |ActiveCalls(w)| <= cfg.concurrencyLimit
    ensures |Occupied(w.(calls := w.calls[id := c]))| <= cfg.concurrencyLimit
  {
    var w' := w.(calls := w.calls[id := c]);
    if Occupies(c) && !Occupies(w.calls[id]) {
      ClaimFindsRoom(cfg, w, id);
      SubsetSize(Occupied(w'), Occupied(w) + {id});
    } else {
      SubsetSize(Occupied(w'), Occupied(w));
    }
  }

  lemma ActOnKeepsCeiling(cfg: Config, w: World, id: CallId, a: CallAction)
    requires CallsInv(cfg, w) && |Occupied(w)| <= cfg.concurrencyLimit
    ensures var r := ActOn(cfg, w, id, a); r.Some? ==> |Occupied(r.value)| <= cfg.concurrencyLimit
  {
    if id in w.calls {
      var c := Act(cfg, w.calls[id], a, w.clock, |ActiveCalls(w)|);
      OnlyClaimsOccupy(cfg, w.calls[id], a, w.clock, |ActiveCalls(w)|);
      if c.Some? {
        ReplacedKeepsCeiling(cfg, w, id, c.value);
      }
    }
  }

  // The sweeps

  /** Whatever moves calls on without touching the sweeps keeps what the sweeps rely on. */
  lemma SweepsSurvive(cfg: Config, w: World, w': World)
    requires SweepsInv(cfg, w) && w.clock <= w'.clock && w'.lastSweep == w.lastSweep
    requires forall n :: n in w'.sweeps ==> n in w.sweeps && w'.sweeps[n] == w.sweeps[n]
    requires w.calls.Keys <= w'.calls.Keys
    requires forall id :: id in w.calls ==> Onward(w.calls[id], w'.calls[id], w.clock)
    requires forall id :: id in w'.calls && id !in w.calls ==> !w'.calls[id].row.status.InFlight()
    ensures SweepsInv(cfg, w')
  {
    forall n | n in w'.sweeps ensures SweepOk(cfg, w', w'.sweeps[n]) {
      assert SweepOk(cfg, w, w.sweeps[n]);
    }
  }

  lemma ReplacedKeepsSweeps(cfg: Config, w: World, id: CallId, c: Call)
    requires SweepsInv(cfg, w) && id in w.calls && Onward(w.calls[id], c, w.clock)
    ensures SweepsInv(cfg, w.(calls := w.calls[id := c]))
  {
    SweepsSurvive(cfg, w, w.(calls := w.calls[id := c]));
  }

  lemma ActOnKeepsSweeps(cfg: Config, w: World, id: CallId, a: CallAction)
    requires CallsInv(cfg, w) && SweepsInv(cfg, w)
    ensures var r := ActOn(cfg, w, id, a); r.Some? ==> SweepsInv(cfg, r.value)
  {
    if id in w.calls {
      var c := Act(cfg, w.calls[id], a, w.clock, |ActiveCalls(w)|);
      ActMovesOn(cfg, w.calls[id], a, w.clock, |ActiveCalls(w)|);
      if c.Some? {
        ReplacedKeepsSweeps(cfg, w, id, c.value);
      }
    }
  }

  // Each kind of step keeps the invariant

  lemma ActOnKeepsCalls(cfg: Config, w: World, id: CallId, a: CallAction)
    requires CallsInv(cfg, w) && id in w.calls
    requires a.DeleteObject? ==> MayDelete(cfg, w.calls[id], w.clock)
    requires a.SweepAway? ==> a.reason.BySweep()
    ensures var r := ActOn(cfg, w, id, a); r.Some? ==> CallsInv(cfg, r.value)
  {
    ActKeepsCallOk(cfg, w.calls[id], a, w.clock, |ActiveCalls(w)|);
  }

  lemma ActOnKeepsInv(cfg: Config, w: World, id: CallId, a: CallAction)
    requires Inv(cfg, w) && id in w.calls
    requires a.DeleteObject? ==> MayDelete(cfg, w.calls[id], w.clock)
    requires a.SweepAway? ==> a.reason.BySweep()
    ensures var r := ActOn(cfg, w, id, a); r.Some? ==> Inv(cfg, r.value)
  {
    ActOnKeepsCalls(cfg, w, id, a);
    ActOnKeepsCeiling(cfg, w, id, a);
    ActOnKeepsSweeps(cfg, w, id, a);
  }

  /** A call that a sweep has dealt with is not in flight any more. */
  lemma SweptIsNotInFlight(cfg: Config, c: Call, reason: FailureReason, now: int, active: nat)
    ensures var r := Act(cfg, c, SweepAway(reason), now, active); r.Some? ==> !r.value.row.status.InFlight()
  {
  }

  lemma SweepCallKeepsInv(cfg: Config, w: World, n: nat, id: CallId)
    requires Inv(cfg, w)
    ensures var r := Next(cfg, w, SweepCall(n, id)); r.Some? ==> Inv(cfg, r.value)
  {
    var r := Next(cfg, w, SweepCall(n, id));
    if r.Some? {
      var s := w.sweeps[n];
      assert SweepOk(cfg, w, s);
      ActOnKeepsInv(cfg, w, id, SweepAction(s));
      SweptIsNotInFlight(cfg, w.calls[id], StaleCall, w.clock, |ActiveCalls(w)|);
      ShorterListIsOk(cfg, ActOn(cfg, w, id, SweepAction(s)).value, n, id);
    }
  }

  /** Taking a call off a sweep's list is fine once it is not in flight, and for the other sweeps always. */
  lemma ShorterListIsOk(cfg: Config, w: World, n: nat, id: CallId)
    requires Inv(cfg, w) && n in w.sweeps
    requires w.sweeps[n].Stale? ==> id !in w.calls || !w.calls[id].row.status.InFlight()
    ensures Inv(cfg, w.(sweeps := w.sweeps[n := Without(w.sweeps[n], id)]))
  {
    var w' := w.(sweeps := w.sweeps[n := Without(w.sweeps[n], id)]);
    assert Occupied(w') == Occupied(w);
    assert SweepOk(cfg, w, w.sweeps[n]);
    forall m | m in w'.sweeps ensures SweepOk(cfg, w', w'.sweeps[m]) {
      assert m in w.sweeps;
    }
  }

  lemma SelectionKeepsInv(cfg: Config, w: World, a: Action)
    requires Inv(cfg, w) && (a.SelectStale? || a.SelectOrphans? || a.SelectExpired?)
    ensures var r := Next(cfg, w, a); r.Some? ==> Inv(cfg, r.value)
  {
    var r := Next(cfg, w, a);
    if r.Some? {
      var w' := r.value;
      assert Occupied(w') == Occupied(w);
      forall n | n in w'.sweeps ensures SweepOk(cfg, w', w'.sweeps[n]) {
        if n in w.sweeps {
          assert SweepOk(cfg, w, w.sweeps[n]);
        } else if a.SelectExpired? {
          forall id | id in w'.sweeps[n].todo ensures MayDelete(cfg, w.calls[id], w.clock) {
            assert CallOk(cfg, w.calls[id], w.clock);
          }
        }
      }
    }
  }

  /** A stale sweep that has worked off its list leaves no call that was overdue at its snapshot. */
  lemma FinishKeepsInv(cfg: Config, w: World, n: nat)
    requires Inv(cfg, w)
    ensures var r := Next(cfg, w, FinishSweep(n)); r.Some? ==> Inv(cfg, r.value)
  {
    var r := Next(cfg, w, FinishSweep(n));
    if r.Some? {
      assert Occupied(r.value) == Occupied(w);
      assert SweepOk(cfg, w, w.sweeps[n]);
      forall m | m in r.value.sweeps ensures SweepOk(cfg, r.value, r.value.sweeps[m]) {
        assert SweepOk(cfg, w, w.sweeps[m]);
      }
    }
  }

  lemma TickKeepsInv(cfg: Config, w: World, seconds: nat)
    requires Inv(cfg, w)
    ensures Inv(cfg, w.(clock := w.clock + seconds))
  {
    var w' := w.(clock := w.clock + seconds);
    forall id | id in w'.calls ensures CallOk(cfg, w'.calls[id], w'.clock) {
      TimePasses(cfg, w.calls[id], w.clock, w'.clock);
    }
    assert Occupied(w') == Occupied(w);
    SweepsSurvive(cfg, w, w');
  }

  lemma InsertKeepsInv(cfg: Config, w: World, id: CallId)
    requires Inv(cfg, w)
    ensures var r := Next(cfg, w, InsertCall(id)); r.Some? ==> Inv(cfg, r.value)
  {
    var r := Next(cfg, w, InsertCall(id));
    if r.Some? {
      NewCallIsOk(cfg, w.clock);
      InsertOccupiesNothing(w, id);
      SweepsSurvive(cfg, w, r.value);
    }
  }

  lemma InsertOccupiesNothing(w: World, id: CallId)
    requires id !in w.calls && w.intakes > 0
    ensures Occupied(w.(intakes := w.intakes - 1, calls := w.calls[id := NewCall(w.clock)])) == Occupied(w)
  {
  }

  lemma CrashKeepsInv(cfg: Config, w: World, wreck: Wreck)
    requires Inv(cfg, w)
    ensures Inv(cfg, Next(cfg, w, Crash(wreck)).value)
  {
    var w' := Next(cfg, w, Crash(wreck)).value;
    forall id | id in w.calls
      ensures CallOk(cfg, w'.calls[id], w'.clock) && Onward(w.calls[id], w'.calls[id], w.clock)
      ensures Occupies(w'.calls[id]) ==> Occupies(w.calls[id])
    {
      CrashKeepsCallOk(cfg, w.calls[id], id, wreck, w.clock);
    }
    SubsetSize(Occupied(w'), Occupied(w));
    SweepsSurvive(cfg, w, w');
  }

  lemma NextKeepsInv(cfg: Config, w: World, a: Action)
    requires Inv(cfg, w)
    ensures var r := Next(cfg, w, a); r.Some? ==> Inv(cfg, r.value)
  {
    match a
    case Tick(seconds) => TickKeepsInv(cfg, w, seconds);
    case InsertCall(id) => InsertKeepsInv(cfg, w, id);
    case CheckIntake => CheckKeepsInv(cfg, w);
    case OnCall(id, act) =>
      if id in w.calls && !SweepOnly(act) {
        ActOnKeepsInv(cfg, w, id, act);
      }
    case SweepCall(n, id) => SweepCallKeepsInv(cfg, w, n, id);
    case SkipCall(n, id) => SkipKeepsInv(cfg, w, n, id);
    case FinishSweep(n) => FinishKeepsInv(cfg, w, n);
    case Crash(wreck) => CrashKeepsInv(cfg, w, wreck);
    case _ => SelectionKeepsInv(cfg, w, a);
  }

  lemma SkipKeepsInv(cfg: Config, w: World, n: nat, id: CallId)
    requires Inv(cfg, w)
    ensures var r := Next(cfg, w, SkipCall(n, id)); r.Some? ==> Inv(cfg, r.value)
  {
    if n in w.sweeps && w.sweeps[n].Retain? {
      ShorterListIsOk(cfg, w, n, id);
    }
  }

  lemma CheckKeepsInv(cfg: Config, w: World)
    requires Inv(cfg, w)
    ensures var r := Next(cfg, w, CheckIntake); r.Some? ==> Inv(cfg, r.value)
  {
    assert Next(cfg, w, CheckIntake).Some? ==> Occupied(Next(cfg, w, CheckIntake).value) == Occupied(w);
  }

  /** Every state that any run reaches satisfies the invariant. */
  lemma {:induction false} RunsKeepInv(cfg: Config, run: seq<Action>)
    ensures Exec(cfg, run).Some? ==> Inv(cfg, Exec(cfg, run).value)
  {
    if run != [] {
      var before := run[..|run| - 1];
      RunsKeepInv(cfg, before);
      if Exec(cfg, before).Some? {
        NextKeepsInv(cfg, Exec(cfg, before).value, run[|run| - 1]);
      }
    } else {
      assert Occupied(START) == {};
    }
  }
}
