/** Why a healthy call is never failed as stale: the phases of its processing, each within its own
    budget, add up to no more than the cutoff. The length of the whole stretch is derived from
    the steps of the run. */
module ProcessingBudget {
  import opened Calls
  import opened Orchestration
  import opened OrchestrationInvariant
  import opened OrchestrationRuns
  import opened OrchestrationTheorems
  import opened OrchestrationTiming
  import opened TranscriptionRetries

  /** The phases of a processing call; `Elsewhere` is every other place a coroutine can be. */
  datatype Phase = Elsewhere | InUpload | InSource | InTranscription | AtCommit

  function PhaseOf(c: Call): Phase {
    match c.task
    case Some(Uploading(_)) => InUpload
    case Some(Sourcing(_)) => InSource
    case Some(Transcribing(_)) => InTranscription
    case Some(Finishing(_, _)) => AtCommit
    case Some(FailingUpload) => AtCommit
    case Some(FailingTranscription(_)) => AtCommit
    case _ => Elsewhere
  }

  /** Most seconds for each phase; the transcription is given by its attempts, with the policy's
      sleeps between them. */
  datatype Budget = Budget(upload: nat, source: nat, attempts: seq<int>, commit: nat)
  {
    predicate Valid() {
      && upload + source + commit <= 415
      && 1 <= |attempts| <= RETRY_ATTEMPTS
      && forall i :: 0 <= i < |attempts| ==> 0 <= attempts[i] <= READ_TIMEOUT
    }

    function Transcription(): int
      requires Valid()
    {
      Elapsed(attempts, BACKOFF[..|attempts| - 1])
    }

    function Limit(phase: Phase): int
      requires Valid()
    {
      match phase
      case Elsewhere => 0
      case InUpload => upload
      case InSource => source
      case InTranscription => Transcription()
      case AtCommit => commit
    }

    /** The latest that a phase begins, counted from the beginning of the processing. */
    function Offset(phase: Phase): int
      requires Valid()
    {
      match phase
      case Elsewhere => 0
      case InUpload => 0
      case InSource => upload
      case InTranscription => upload + source
      case AtCommit => upload + source + Transcription()
    }
  }

  /** The call is processing and its coroutine is at it. */
  predicate Healthy(c: Call) {
    c.row.status.Processing? ==> !PhaseOf(c).Elsewhere?
  }

  /** What one action does to a call that is processing afterwards: it brings it there and begins the
      upload, leaves it in its phase, or takes it to a later one. */
  predicate MovesOnInPhase(c: Call, c': Call, now: int) {
    c'.row.status.Processing? ==>
      if !c.row.status.Processing? then
        c'.row.updatedAt == now && PhaseOf(c').InUpload? && PhaseOf(c).Elsewhere?
      else
        && c'.row.updatedAt == c.row.updatedAt
        && (PhaseOf(c') == PhaseOf(c) || Follows(PhaseOf(c), PhaseOf(c')))
  }

  predicate Follows(p: Phase, q: Phase) {
    || (p.InUpload? && (q.InSource? || q.AtCommit?))
    || (p.InSource? && (q.InTranscription? || q.AtCommit?))
    || (p.InTranscription? && q.AtCommit?)
  }

  lemma ActMovesOnInPhase(cfg: Config, c: Call, a: CallAction, now: int, active: nat)
    requires CallOk(cfg, c, now) && Healthy(c)
    ensures var r := Act(cfg, c, a, now, active); r.Some? ==> MovesOnInPhase(c, r.value, now)
  {
    if UpToExit(a) {
      ActUpToExitMovesOnInPhase(cfg, c, a, now, active);
    } else if InPipeline(a) {
      PipelineMovesOnInPhase(cfg, c, a, now, active);
    }
  }

  lemma ActUpToExitMovesOnInPhase(cfg: Config, c: Call, a: CallAction, now: int, active: nat)
    requires CallOk(cfg, c, now) && Healthy(c) && UpToExit(a)
    ensures var r := Act(cfg, c, a, now, active); r.Some? ==> MovesOnInPhase(c, r.value, now)
  {
  }

  lemma PipelineMovesOnInPhase(cfg: Config, c: Call, a: CallAction, now: int, active: nat)
    requires CallOk(cfg, c, now) && Healthy(c) && InPipeline(a)
    ensures var r := Act(cfg, c, a, now, active); r.Some? ==> MovesOnInPhase(c, r.value, now)
  {
  }

  // Along a run

  function PhaseIn(cfg: Config, run: seq<Action>, id: CallId): Phase {
    match Exec(cfg, run)
    case Some(w) => if id in w.calls then PhaseOf(w.calls[id]) else Elsewhere
    case None => Elsewhere
  }

  /** When the call entered the phase it is in at the end of the run. */
  function Since(cfg: Config, run: seq<Action>, id: CallId): int
    requires Exec(cfg, run).Some?
  {
    if run == [] then START.clock
    else
      var before := run[..|run| - 1];
      if PhaseIn(cfg, before, id) == PhaseIn(cfg, run, id) then Since(cfg, before, id)
      else Exec(cfg, run).value.clock
  }

  /** At the end of the run: the call is within its cutoff before processing, and within the budget
      of its present phase while processing. */
  ghost predicate WithinPhase(cfg: Config, run: seq<Action>, id: CallId, b: Budget)
    requires b.Valid()
  {
    Exec(cfg, run).Some? && id in Exec(cfg, run).value.calls ==>
      var w := Exec(cfg, run).value;
      if w.calls[id].row.status.Processing? then w.clock <= Since(cfg, run, id) + b.Limit(PhaseIn(cfg, run, id))
      else InGoodTime(cfg, w.calls[id].row, w.clock)
  }

  /** All along the run. */
  ghost predicate OnBudget(cfg: Config, run: seq<Action>, id: CallId, b: Budget)
    requires b.Valid()
  {
    forall k :: 0 <= k <= |run| ==> WithinPhase(cfg, run[..k], id, b)
  }

  /** No crash takes the call's coroutine. */
  ghost predicate Spared(run: seq<Action>, id: CallId) {
    forall k :: 0 <= k < |run| && run[k].Crash? ==> id !in run[k].wreck.tasks
  }

  /** Where a processing call is, and that its phase did not begin late. */
  ghost predicate InStep(cfg: Config, run: seq<Action>, id: CallId, b: Budget)
    requires b.Valid() && Exec(cfg, run).Some?
  {
    id in Exec(cfg, run).value.calls ==>
      var c := Exec(cfg, run).value.calls[id];
      && Healthy(c)
      && (c.row.status.Processing? ==> Since(cfg, run, id) <= c.row.updatedAt + b.Offset(PhaseOf(c)))
  }

  /** One step of the run, as the call sees it. */
  lemma StepMovesOnInPhase(cfg: Config, w: World, a: Action, id: CallId)
    requires CallsInv(cfg, w) && (a.Crash? ==> id !in a.wreck.tasks)
    requires id in w.calls ==> Healthy(w.calls[id])
    ensures var r := Next(cfg, w, a); r.Some? && id in r.value.calls ==>
      if id in w.calls then MovesOnInPhase(w.calls[id], r.value.calls[id], w.clock)
      else !r.value.calls[id].row.status.Processing?
  {
    var r := Next(cfg, w, a);
    if r.Some? && id in r.value.calls {
      StepsMoveCalls(cfg, w, a);
      if id in w.calls {
        MoveMovesOnInPhase(cfg, w, r.value, a, id);
      }
    }
  }

  lemma MoveMovesOnInPhase(cfg: Config, w: World, w': World, a: Action, id: CallId)
    requires id in w.calls && id in w'.calls && Moved(cfg, w, w', a, id)
    requires CallOk(cfg, w.calls[id], w.clock) && Healthy(w.calls[id]) && (a.Crash? ==> id !in a.wreck.tasks)
    ensures MovesOnInPhase(w.calls[id], w'.calls[id], w.clock)
  {
    var act := ActionOn(w, a, id);
    if act.Some? {
      ActMovesOnInPhase(cfg, w.calls[id], act.value, w.clock, |ActiveCalls(w)|);
    }
  }

  /** A step that changes the phase does not take time. */
  lemma PhasesTakeNoTime(cfg: Config, w: World, a: Action, id: CallId)
    ensures var r := Next(cfg, w, a);
      r.Some? && r.value.clock != w.clock ==> r.value.calls == w.calls
  {
  }

  lemma InStepNext(cfg: Config, run: seq<Action>, id: CallId, b: Budget)
    requires b.Valid() && run != [] && Exec(cfg, run).Some?
    requires run[|run| - 1].Crash? ==> id !in run[|run| - 1].wreck.tasks
    requires Exec(cfg, run[..|run| - 1]).Some? && InStep(cfg, run[..|run| - 1], id, b)
    requires WithinPhase(cfg, run[..|run| - 1], id, b)
    ensures InStep(cfg, run, id, b)
  {
    var before, a := run[..|run| - 1], run[|run| - 1];
    var w, w' := Exec(cfg, before).value, Exec(cfg, run).value;
    RunsKeepInv(cfg, before);
    StepMovesOnInPhase(cfg, w, a, id);
    PhasesTakeNoTime(cfg, w, a, id);
    if id in w.calls && id in w'.calls && w.calls[id].row.status.Processing? && w'.calls[id].row.status.Processing? {
      var p, q := PhaseOf(w.calls[id]), PhaseOf(w'.calls[id]);
      if Follows(p, q) {
        PhasesAddUp(b, p, q);
      }
    }
  }

  lemma PhasesAddUp(b: Budget, p: Phase, q: Phase)
    requires b.Valid() && Follows(p, q)
    ensures b.Offset(p) + b.Limit(p) <= b.Offset(q)
  {
    PolicyTime(b.attempts);
  }

  lemma {:induction false} RunsKeepInStep(cfg: Config, run: seq<Action>, id: CallId, b: Budget)
    requires b.Valid() && Exec(cfg, run).Some? && OnBudget(cfg, run, id, b) && Spared(run, id)
    ensures InStep(cfg, run, id, b)
  {
    if run != [] {
      var before := run[..|run| - 1];
      assert forall k :: 0 <= k <= |before| ==> before[..k] == run[..k];
      assert before[..|before|] == before;
      RunsKeepInStep(cfg, before, id, b);
      InStepNext(cfg, run, id, b);
    }
  }

  /** On budget, a call is never overdue: upload, source and commit take at most 415 s together and
      the transcription at most 1985 s, which is 2400 s, the cutoff. */
  lemma OnBudgetIsNotOverdue(cfg: Config, run: seq<Action>, id: CallId, b: Budget)
    requires b.Valid() && Exec(cfg, run).Some? && OnBudget(cfg, run, id, b) && Spared(run, id)
    requires id in Exec(cfg, run).value.calls
    ensures InGoodTime(cfg, Exec(cfg, run).value.calls[id].row, Exec(cfg, run).value.clock)
  {
    RunsKeepInStep(cfg, run, id, b);
    PolicyTime(b.attempts);
    assert run[..|run|] == run;
    assert WithinPhase(cfg, run, id, b);
  }

  /** So no stale sweep ever lists it or fails it, however the sweeps and all other calls fall. */
  lemma CallsInBudgetAreNeverStale(cfg: Config, run: seq<Action>, w: World, id: CallId, b: Budget)
    requires Reaches(cfg, run, w) && b.Valid() && OnBudget(cfg, run, id, b) && Spared(run, id)
    ensures Untouched(w, id)
  {
    forall k | 0 <= k <= |run| && Exec(cfg, run[..k]).Some? && id in Exec(cfg, run[..k]).value.calls
      ensures InGoodTime(cfg, Exec(cfg, run[..k]).value.calls[id].row, Exec(cfg, run[..k]).value.clock)
    {
      assert forall j :: 0 <= j <= k ==> run[..k][..j] == run[..j];
      OnBudgetIsNotOverdue(cfg, run[..k], id, b);
    }
    PromptCallsAreNeverStale(cfg, run, w, id);
  }
}
