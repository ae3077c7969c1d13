/** Call rows, the status machine and the service that updates rows. */
module Calls {
  import opened Common
  import opened Transcripts

  type CallId = nat

  datatype CallStatus = Queued | Joining | Recording | Processing | Done | Failed
  {
    predicate Active() {
      Queued? || InFlight()
    }

    predicate InFlight() {
      Joining? || Recording? || Processing?
    }

    predicate Terminal() {
      Done? || Failed?
    }

    function Rank(): nat {
      match this
      case Queued => 0
      case Joining => 1
      case Recording => 2
      case Processing => 3
      case Done => 4
      case Failed => 4
    }
  }

  datatype EndReason = CallEnded | Removed | Alone | GiveUp

  datatype FailureReason =
    | ConcurrencyLimit
    | DiskFull
    | WorkerRestart
    | StaleCall
    | UploadFailed
    | TranscriptionFailed(detail: string)
    | NeverAdmitted
    | NoShow
    | JoinTimeout
    | ConsentMissing
    | SilentRecording
    | BotError(code: int)
  {
    /** The two reasons a sweep gives: the call's own coroutine did not choose them. */
    predicate BySweep() {
      StaleCall? || WorkerRestart?
    }
  }

  /** One row of the calls table. `audioUrl` is whether the column is set:
      its text is always the canonical object URI of the call. */
  datatype Row = Row(
    status: CallStatus,
    endReason: Option<EndReason>,
    failureReason: Option<FailureReason>,
    transcript: Option<Transcript>,
    audioUrl: bool,
    updatedAt: int,
    webhookAttempts: nat,
    webhookDeliveredAt: Option<int>)

  function NewRow(now: int): Row {
    Row(Queued, None, None, None, false, now, 0, None)
  }

  /** The columns a transition may write besides the status. */
  datatype Changes = Changes(
    endReason: Option<EndReason>,
    failureReason: Option<FailureReason>,
    transcript: Option<Transcript>,
    audioUrl: bool)

  const NO_CHANGES := Changes(None, None, None, false)

  datatype ServiceError = NotFound | Conflict

  function LegalTransitions(status: CallStatus): set<CallStatus> {
    match status
    case Queued => {Joining, Failed}
    case Joining => {Recording, Failed}
    case Recording => {Processing, Failed}
    case Processing => {Done, Failed}
    case Done => {}
    case Failed => {}
  }

  /** Writes the given columns; every write refreshes `updatedAt`. */
  function Write(row: Row, to: CallStatus, changes: Changes, now: int): Row {
    row.(status := to,
         endReason := if changes.endReason.Some? then changes.endReason else row.endReason,
         failureReason := if changes.failureReason.Some? then changes.failureReason else row.failureReason,
         transcript := if changes.transcript.Some? then changes.transcript else row.transcript,
         audioUrl := row.audioUrl || changes.audioUrl,
         updatedAt := now)
  }

  function Transition(row: Row, to: CallStatus, changes: Changes, now: int): Result<Row, ServiceError> {
    if to in LegalTransitions(row.status) then Ok(Write(row, to, changes, now)) else Err(Conflict)
  }

  function FailChanges(reason: FailureReason): Changes {
    NO_CHANGES.(failureReason := Some(reason))
  }

  function DoneChanges(endReason: EndReason, transcript: Transcript): Changes {
    Changes(Some(endReason), None, Some(transcript), true)
  }

  /** What a row may hold in each status. */
  predicate WellShaped(row: Row) {
    && (!row.status.Terminal() ==>
          row.endReason.None? && row.failureReason.None? && row.transcript.None? && !row.audioUrl)
    && (row.status.Done? ==>
          row.endReason.Some? && row.transcript.Some? && row.failureReason.None?)
    && (row.status.Failed? ==>
          && row.failureReason.Some? && row.endReason.None? && row.transcript.None?
          && (row.audioUrl ==> row.failureReason.value.TranscriptionFailed?))
  }

  function ActiveIds(rows: map<CallId, Row>): set<CallId> {
    set id | id in rows && rows[id].status.Active()
  }

  function InFlightIds(rows: map<CallId, Row>): set<CallId> {
    set id | id in rows && rows[id].status.InFlight()
  }

  function QueuedIds(rows: map<CallId, Row>): set<CallId> {
    set id | id in rows && rows[id].status.Queued?
  }

  /** The active calls are those in flight and those still queued, each counted once. */
  lemma ActiveIdsSplit(rows: map<CallId, Row>)
    ensures |ActiveIds(rows)| == |InFlightIds(rows)| + |QueuedIds(rows)|
    ensures forall id :: id in QueuedIds(rows) ==> |InFlightIds(rows)| < |ActiveIds(rows)|
  {
    assert ActiveIds(rows) == InFlightIds(rows) + QueuedIds(rows);
    assert InFlightIds(rows) !! QueuedIds(rows);
  }

  /** A legal transition strictly raises the rank, so no status is ever entered twice
      and a terminal row never moves again. */
  lemma TransitionsClimb(row: Row, to: CallStatus, changes: Changes, now: int)
    ensures Transition(row, to, changes, now).Ok? ==> row.status.Rank() < to.Rank()
    ensures row.status.Terminal() <==> forall s: CallStatus :: Transition(row, s, changes, now) == Err(Conflict)
  {
    if !row.status.Terminal() {
      assert Transition(row, Failed, changes, now).Ok?;
    }
  }

  /** The service object: its rows change in place, one session block at a time. */
  class CallService {
    var rows: map<CallId, Row>
    const concurrencyLimit: nat

    ghost predicate Valid()
      reads this
    {
      forall id :: id in rows ==> WellShaped(rows[id])
    }

    constructor (limit: nat)
      ensures Valid() && rows == map[] && concurrencyLimit == limit
    {
      rows := map[];
      concurrencyLimit := limit;
    }

    /** Counts the calls in flight together with those still queued: a call that waits for
        its claim is in the count already. */
    method CountActive() returns (n: nat)
      ensures n == |InFlightIds(rows)| + |QueuedIds(rows)|
      ensures forall id :: id in rows && rows[id].status.Queued? ==> |InFlightIds(rows)| < n
    {
      n := |ActiveIds(rows)|;
      ActiveIdsSplit(rows);
      assert forall id :: id in rows && rows[id].status.Queued? ==> id in QueuedIds(rows);
    }

    /** Queue intake: refused once the active calls have reached the limit. */
    method Create(id: CallId, now: int) returns (r: Result<Row, ServiceError>)
      requires Valid() && id !in rows
      modifies this`rows
      ensures Valid()
      ensures r.Ok? <==> old(|InFlightIds(rows)| + |QueuedIds(rows)|) < concurrencyLimit
      ensures r.Ok? ==> rows == old(rows)[id := Row(Queued, None, None, None, false, now, 0, None)]
      ensures r.Ok? ==> |ActiveIds(rows)| <= concurrencyLimit
      ensures r.Err? ==> r.error == Conflict && rows == old(rows)
    {
      var active := CountActive();
      ActiveIdsSplit(rows);
      if active >= concurrencyLimit {
        return Err(Conflict);
      }
      ghost var before := ActiveIds(rows);
      rows := rows[id := NewRow(now)];
      assert ActiveIds(rows) == before + {id};
      r := Ok(NewRow(now));
    }

    method MarkBotStarted(id: CallId, now: int) returns (r: Result<Row, ServiceError>)
      requires Valid()
      modifies this`rows
      ensures Valid() && Marked(old(rows), rows, id, Joining, NO_CHANGES, now, r)
      ensures r.Ok? <==> id in old(rows) && old(rows[id]).status.Queued?
      ensures r.Ok? ==> rows == old(rows)[id := old(rows[id]).(status := Joining, updatedAt := now)]
      ensures r.Err? ==> rows == old(rows)
    {
      r := MoveTo(id, Joining, NO_CHANGES, now);
    }

    method MarkRecording(id: CallId, now: int) returns (r: Result<Row, ServiceError>)
      requires Valid()
      modifies this`rows
      ensures Valid() && Marked(old(rows), rows, id, Recording, NO_CHANGES, now, r)
      ensures r.Ok? <==> id in old(rows) && old(rows[id]).status.Joining?
      ensures r.Ok? ==> rows == old(rows)[id := old(rows[id]).(status := Recording, updatedAt := now)]
      ensures r.Err? ==> rows == old(rows)
    {
      r := MoveTo(id, Recording, NO_CHANGES, now);
    }

    method MarkProcessing(id: CallId, now: int) returns (r: Result<Row, ServiceError>)
      requires Valid()
      modifies this`rows
      ensures Valid() && Marked(old(rows), rows, id, Processing, NO_CHANGES, now, r)
      ensures r.Ok? <==> id in old(rows) && old(rows[id]).status.Recording?
      ensures r.Ok? ==> rows == old(rows)[id := old(rows[id]).(status := Processing, updatedAt := now)]
      ensures r.Err? ==> rows == old(rows)
    {
      r := MoveTo(id, Processing, NO_CHANGES, now);
    }

    method MarkDone(id: CallId, endReason: EndReason, transcript: Transcript, now: int)
      returns (r: Result<Row, ServiceError>)
      requires Valid()
      modifies this`rows
      ensures Valid() && Marked(old(rows), rows, id, Done, DoneChanges(endReason, transcript), now, r)
      ensures r.Ok? <==> id in old(rows) && old(rows[id]).status.Processing?
      ensures r.Ok? ==> rows == old(rows)[id := old(rows[id]).(status := Done, endReason := Some(endReason), transcript := Some(transcript),
                                                               audioUrl := true, updatedAt := now)]
      ensures r.Err? ==> rows == old(rows)
    {
      r := MoveTo(id, Done, DoneChanges(endReason, transcript), now);
    }

    method MarkFailed(id: CallId, reason: FailureReason, now: int) returns (r: Result<Row, ServiceError>)
      requires Valid()
      modifies this`rows
      ensures Valid() && Marked(old(rows), rows, id, Failed, FailChanges(reason), now, r)
      ensures r.Ok? <==> id in old(rows) && !old(rows[id]).status.Done? && !old(rows[id]).status.Failed?
      ensures r.Ok? ==> rows == old(rows)[id := old(rows[id]).(status := Failed, failureReason := Some(reason), updatedAt := now)]
      ensures r.Err? ==> rows == old(rows)
    {
      r := MoveTo(id, Failed, FailChanges(reason), now);
    }

    /** The repository's plain update of the URL column. */
    method SetAudioUrl(id: CallId, now: int)
      requires Valid() && id in rows
      requires rows[id].status.Failed? && rows[id].failureReason.value.TranscriptionFailed?
      modifies this`rows
      ensures Valid() && rows == old(rows)[id := old(rows[id]).(audioUrl := true, updatedAt := now)]
    {
      rows := rows[id := rows[id].(audioUrl := true, updatedAt := now)];
    }

    /** The shared part of every mark: look the row up, check the table, write. */
    method MoveTo(id: CallId, to: CallStatus, changes: Changes, now: int) returns (r: Result<Row, ServiceError>)
      requires Valid()
      requires WellShaped(Write(NewRow(now), to, changes, now))
      modifies this`rows
      ensures Valid() && Marked(old(rows), rows, id, to, changes, now, r)
    {
      if id !in rows {
        return Err(NotFound);
      }
      r := Transition(rows[id], to, changes, now);
      if r.Ok? {
        rows := rows[id := r.value];
      }
    }
  }

  /** The whole effect of a mark on the table: one row written or nothing at all. */
  ghost predicate Marked(before: map<CallId, Row>, after: map<CallId, Row>, id: CallId, to: CallStatus,
                         changes: Changes, now: int, r: Result<Row, ServiceError>)
  {
    if id !in before then
      r == Err(NotFound) && after == before
    else if to in LegalTransitions(before[id].status) then
      && r == Ok(Write(before[id], to, changes, now))
      && after == before[id := Write(before[id], to, changes, now)]
      && before[id].status.Rank() < after[id].status.Rank()
    else
      r == Err(Conflict) && after == before
  }
}
