/** Intake: when the API's count-then-insert keeps the ceiling on the queue, and how it fails. */
module OrchestrationIntake {
  import opened Common
  import opened Calls
  import opened Orchestration
  import opened OrchestrationRuns
  import opened OrchestrationTheorems

  /** Active calls, and creates that have been let through but have not inserted yet. */
  function Booked(w: World): nat {
    |ActiveCalls(w)| + w.intakes
  }

  /** Nothing but an insert makes a call active. */
  lemma ActivityFades(cfg: Config, w: World, a: Action)
    ensures var r := Next(cfg, w, a);
      r.Some? && !a.InsertCall? ==> ActiveCalls(r.value) <= ActiveCalls(w)
  {
    var r := Next(cfg, w, a);
    if r.Some? && !a.InsertCall? {
      StepsMoveCalls(cfg, w, a);
      forall id | id in ActiveCalls(r.value) ensures id in ActiveCalls(w) {
        assert Moved(cfg, w, r.value, a, id);
        var act := ActionOn(w, a, id);
        if id in w.calls && act.Some? {
          OutcomeStep(cfg, w.calls[id], act.value, w.clock, |ActiveCalls(w)|);
        }
      }
    }
  }

  /** Only an insert raises the number of active calls, by one. */
  lemma StepActivates(cfg: Config, w: World, a: Action)
    ensures var r := Next(cfg, w, a);
      r.Some? ==>
        if a.InsertCall? then |ActiveCalls(r.value)| == |ActiveCalls(w)| + 1
        else |ActiveCalls(r.value)| <= |ActiveCalls(w)|
  {
    var r := Next(cfg, w, a);
    if r.Some? {
      if a.InsertCall? {
        assert ActiveCalls(r.value) == ActiveCalls(w) + {a.id};
      } else {
        ActivityFades(cfg, w, a);
        SubsetSize(ActiveCalls(r.value), ActiveCalls(w));
      }
    }
  }

  /** A check books one place; no other step books any. */
  lemma StepBooks(cfg: Config, w: World, a: Action)
    ensures var r := Next(cfg, w, a);
      r.Some? ==>
        if a.CheckIntake? then Booked(r.value) == Booked(w) + 1
        else Booked(r.value) <= Booked(w)
  {
    var r := Next(cfg, w, a);
    if r.Some? {
      StepActivates(cfg, w, a);
      if a.CheckIntake? {
        assert ActiveCalls(r.value) == ActiveCalls(w);
      }
    }
  }

  /** The state after the first `k` actions. */
  ghost function At(cfg: Config, run: seq<Action>, k: nat): Option<World>
    requires k <= |run|
  {
    Exec(cfg, run[..k])
  }

  lemma {:induction false} PrefixesRun(cfg: Config, run: seq<Action>, k: nat)
    requires k <= |run| && Exec(cfg, run).Some?
    ensures At(cfg, run, k).Some?
    ensures k < |run| ==> At(cfg, run, k + 1).Some? && Next(cfg, At(cfg, run, k).value, run[k]) == At(cfg, run, k + 1)
    decreases |run| - k
  {
    if k < |run| {
      PrefixesRun(cfg, run, k + 1);
      assert run[..k + 1][..k] == run[..k];
    } else {
      assert run[..k] == run;
    }
  }

  /** Every check finds a place that is neither taken nor promised. */
  ghost predicate ChecksFindPlaces(cfg: Config, run: seq<Action>) {
    forall k :: 0 <= k < |run| && run[k].CheckIntake? && At(cfg, run, k).Some? ==>
      Booked(At(cfg, run, k).value) < cfg.concurrencyLimit
  }

  ghost predicate WithinLimit(cfg: Config, run: seq<Action>, k: nat)
    requires k <= |run|
  {
    At(cfg, run, k).Some? ==> Booked(At(cfg, run, k).value) <= cfg.concurrencyLimit
  }

  lemma {:induction false} PlacesSuffice(cfg: Config, run: seq<Action>, k: nat)
    requires k <= |run| && Exec(cfg, run).Some? && ChecksFindPlaces(cfg, run)
    ensures WithinLimit(cfg, run, k)
  {
    if k > 0 {
      PlacesSuffice(cfg, run, k - 1);
      PrefixesRun(cfg, run, k - 1);
      StepBooks(cfg, At(cfg, run, k - 1).value, run[k - 1]);
    } else {
      assert ActiveCalls(START) == {};
    }
  }

  /** Active calls together with creates under way stay within the limit all along if and only if
      no check overlooks a create that is under way and takes the last place. That suffices for the
      active calls alone, but it is more than they need: the check may let through creates that
      never come, or come when there is room again. */
  lemma BookingsKeepTheLimitExactly(cfg: Config, run: seq<Action>)
    requires Exec(cfg, run).Some?
    ensures (forall k: nat :: k <= |run| ==> WithinLimit(cfg, run, k)) <==> ChecksFindPlaces(cfg, run)
  {
    if ChecksFindPlaces(cfg, run) {
      forall k: nat | k <= |run| ensures WithinLimit(cfg, run, k) {
        PlacesSuffice(cfg, run, k);
      }
    } else {
      var k: nat :| k < |run| && run[k].CheckIntake? && At(cfg, run, k).Some?
                    && Booked(At(cfg, run, k).value) >= cfg.concurrencyLimit;
      PrefixesRun(cfg, run, k);
      StepBooks(cfg, At(cfg, run, k).value, run[k]);
      assert !WithinLimit(cfg, run, k + 1);
    }
  }

  ghost predicate ActiveWithinLimit(cfg: Config, run: seq<Action>, k: nat)
    requires k <= |run|
  {
    At(cfg, run, k).Some? ==> |ActiveCalls(At(cfg, run, k).value)| <= cfg.concurrencyLimit
  }

  /** Every insert still finds a place, whatever the check before it has seen. */
  ghost predicate InsertsFindPlaces(cfg: Config, run: seq<Action>) {
    forall k :: 0 <= k < |run| && run[k].InsertCall? && At(cfg, run, k).Some? ==>
      |ActiveCalls(At(cfg, run, k).value)| < cfg.concurrencyLimit
  }

  lemma {:induction false} RoomForEachInsert(cfg: Config, run: seq<Action>, k: nat)
    requires k <= |run| && Exec(cfg, run).Some? && InsertsFindPlaces(cfg, run)
    ensures ActiveWithinLimit(cfg, run, k)
  {
    if k > 0 {
      RoomForEachInsert(cfg, run, k - 1);
      PrefixesRun(cfg, run, k - 1);
      StepActivates(cfg, At(cfg, run, k - 1).value, run[k - 1]);
    } else {
      assert ActiveCalls(START) == {};
    }
  }

  /** The exact condition for the limit on the active calls, for every run: it holds all along if
      and only if every insert still finds a place. The check comes too early to be that guard. */
  lemma IntakeKeepsTheLimitExactly(cfg: Config, run: seq<Action>)
    requires Exec(cfg, run).Some?
    ensures (forall k: nat :: k <= |run| ==> ActiveWithinLimit(cfg, run, k)) <==> InsertsFindPlaces(cfg, run)
  {
    if InsertsFindPlaces(cfg, run) {
      forall k: nat | k <= |run| ensures ActiveWithinLimit(cfg, run, k) {
        RoomForEachInsert(cfg, run, k);
      }
    } else {
      var k: nat :| k < |run| && run[k].InsertCall? && At(cfg, run, k).Some?
                    && |ActiveCalls(At(cfg, run, k).value)| >= cfg.concurrencyLimit;
      PrefixesRun(cfg, run, k);
      StepActivates(cfg, At(cfg, run, k).value, run[k]);
      assert !ActiveWithinLimit(cfg, run, k + 1);
    }
  }

  /** Creates that come one at a time, each inserted or gone before the next one counts. */
  ghost predicate OneIntakeAtATime(cfg: Config, run: seq<Action>) {
    forall k :: 0 <= k < |run| && run[k].CheckIntake? && At(cfg, run, k).Some? ==> At(cfg, run, k).value.intakes == 0
  }

  /** Such creates never take the active calls past the limit, whatever else goes on. */
  lemma SerialIntakeKeepsTheLimit(cfg: Config, run: seq<Action>, w: World)
    requires Reaches(cfg, run, w) && OneIntakeAtATime(cfg, run)
    ensures |ActiveCalls(w)| + w.intakes <= cfg.concurrencyLimit
  {
    forall k | 0 <= k < |run| && run[k].CheckIntake? && At(cfg, run, k).Some?
      ensures Booked(At(cfg, run, k).value) < cfg.concurrencyLimit
    {
      PrefixesRun(cfg, run, k);
    }
    PlacesSuffice(cfg, run, |run|);
    assert run[..|run|] == run;
  }

  // The race

  function Ids(n: nat): (r: set<CallId>)
    ensures |r| == n && forall id: CallId :: id in r <==> id < n
  {
    if n == 0 then {} else Ids(n - 1) + {n - 1}
  }

  /** `n` new calls and `m` creates under way, at time 0. */
  function Queue(n: nat, m: nat): World {
    START.(calls := map id | id in Ids(n) :: NewCall(0), intakes := m)
  }

  lemma QueueIsActive(n: nat, m: nat)
    ensures ActiveCalls(Queue(n, m)) == Ids(n)
  {
  }

  lemma {:induction false} ManyChecks(cfg: Config, m: nat) returns (run: seq<Action>)
    requires cfg.concurrencyLimit >= 1
    ensures Reaches(cfg, run, Queue(0, m))
  {
    if m == 0 {
      run := [];
      assert Queue(0, 0) == START;
    } else {
      run := ManyChecks(cfg, m - 1);
      QueueIsActive(0, m - 1);
      Extend(cfg, run, Queue(0, m - 1), CheckIntake);
      assert Next(cfg, Queue(0, m - 1), CheckIntake) == Some(Queue(0, m));
      run := run + [CheckIntake];
    }
  }

  lemma OneInsert(cfg: Config, n: nat, m: nat)
    requires n > 0
    ensures Next(cfg, Queue(n - 1, m + 1), InsertCall(n - 1)) == Some(Queue(n, m))
  {
    assert Queue(n - 1, m + 1).calls[n - 1 := NewCall(0)] == Queue(n, m).calls;
  }

  lemma {:induction false} ManyInserts(cfg: Config, n: nat, m: nat) returns (run: seq<Action>)
    requires cfg.concurrencyLimit >= 1
    ensures Reaches(cfg, run, Queue(n, m))
  {
    if n == 0 {
      run := ManyChecks(cfg, m);
    } else {
      run := ManyInserts(cfg, n - 1, m + 1);
      OneInsert(cfg, n, m);
      Extend(cfg, run, Queue(n - 1, m + 1), InsertCall(n - 1));
      run := run + [InsertCall(n - 1)];
    }
  }

  /** Two racing checks with room for one: bookings pass the limit, yet with one insert the active
      calls keep it, so the condition on the checks is sufficient and not necessary. */
  lemma BookingsAskForMore(cfg: Config)
    requires cfg.concurrencyLimit == 1
    ensures var run := [CheckIntake, CheckIntake, InsertCall(0)];
      Exec(cfg, run).Some? && !ChecksFindPlaces(cfg, run) && InsertsFindPlaces(cfg, run)
  {
    var run := [CheckIntake, CheckIntake, InsertCall(0)];
    QueueIsActive(0, 0);
    QueueIsActive(0, 1);
    QueueIsActive(0, 2);
    assert Queue(0, 0) == START;
    Extend(cfg, [], Queue(0, 0), CheckIntake);
    Extend(cfg, [CheckIntake], Queue(0, 1), CheckIntake);
    Extend(cfg, [CheckIntake, CheckIntake], Queue(0, 2), InsertCall(0));
    assert run[..1] == [] + [CheckIntake] && run[..2] == [CheckIntake] + [CheckIntake];
    assert run == [CheckIntake, CheckIntake] + [InsertCall(0)];
    assert At(cfg, run, 1) == Some(Queue(0, 1)) && At(cfg, run, 2) == Some(Queue(0, 2));
    assert Booked(Queue(0, 1)) == 1;
  }

  /** Creates that all count before any inserts: for every limit, any number of active calls. */
  lemma IntakeRaceOverfillsTheQueue(cfg: Config, n: nat)
    requires cfg.concurrencyLimit >= 1
    ensures exists run, w :: Reaches(cfg, run, w) && |ActiveCalls(w)| == n
  {
    var run := ManyInserts(cfg, n, 0);
    QueueIsActive(n, 0);
    assert Reaches(cfg, run, Queue(n, 0));
  }
}
