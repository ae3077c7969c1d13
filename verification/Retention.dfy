/** One retention pass, as one worker runs it. */
module Retention {
  import opened Calls
  import opened Orchestration

  /** The rows one query returns: one status, past its window, with a URL, and not locked. */
  function ExpiredRows(cfg: Config, rows: map<CallId, Row>, status: CallStatus, now: int, locked: set<CallId>): set<CallId>
  {
    set id | id in rows && id !in locked && rows[id].status == status && rows[id].audioUrl
             && rows[id].updatedAt < now - cfg.Window(status)
  }

  /** Who is past the window, in seconds: each status has its own. */
  lemma ExpiredInSeconds(cfg: Config, row: Row, now: int)
    ensures ExpiredAt(cfg, row, now) <==>
      && row.audioUrl
      && (|| (row.status.Done? && row.updatedAt + 86400 * cfg.doneRetentionDays < now)
          || (row.status.Failed? && row.updatedAt + 86400 * cfg.failedRetentionDays < now))
  {
  }

  /** What a pass reclaims: expired at the query, and then neither locked nor failing to delete. */
  function Reclaimable(cfg: Config, rows: map<CallId, Row>, now: int, lockedAtQuery: set<CallId>,
                       lockedLater: set<CallId>, deleteFails: set<CallId>): (r: set<CallId>)
    ensures forall id :: id in r <==>
      && id in rows && ExpiredAt(cfg, rows[id], now)
      && id !in lockedAtQuery && id !in lockedLater && id !in deleteFails
  {
    ExpiredRows(cfg, rows, Done, now, lockedAtQuery) + ExpiredRows(cfg, rows, Failed, now, lockedAtQuery)
      - lockedLater - deleteFails
  }

  function Nulled(row: Row, now: int): Row {
    row.(audioUrl := false, updatedAt := now)
  }

  /** The table after the URLs of `gone` have been nulled. */
  ghost predicate AfterPass(rows: map<CallId, Row>, gone: set<CallId>, now: int, rows': map<CallId, Row>) {
    && rows'.Keys == rows.Keys
    && forall id :: id in rows ==> rows'[id] == if id in gone then Nulled(rows[id], now) else rows[id]
  }

  lemma OneMoreReclaimed(rows: map<CallId, Row>, gone: set<CallId>, now: int, rows': map<CallId, Row>, id: CallId)
    requires AfterPass(rows, gone, now, rows') && id in rows && id !in gone
    ensures AfterPass(rows, gone + {id}, now, rows'[id := Nulled(rows'[id], now)])
  {
  }

  class Worker {
    var rows: map<CallId, Row>
    var store: set<CallId>

    constructor (rows: map<CallId, Row>, store: set<CallId>)
      ensures this.rows == rows && this.store == store
    {
      this.rows, this.store := rows, store;
    }

    /** Reclaims exactly the expired rows that stay unlocked and whose deletion works: deletes
        their objects, nulls their URLs, counts them, and touches nothing else. */
    method EnforceRetention(cfg: Config, now: int, lockedAtQuery: set<CallId>, lockedLater: set<CallId>,
                            deleteFails: set<CallId>, misconfigured: bool) returns (reclaimed: nat)
      modifies this
      ensures misconfigured ==> reclaimed == 0 && rows == old(rows) && store == old(store)
      ensures !misconfigured ==>
        var gone := Reclaimable(cfg, old(rows), now, lockedAtQuery, lockedLater, deleteFails);
        && reclaimed == |gone|
        && store == old(store) - gone
        && AfterPass(old(rows), gone, now, rows)
      ensures !misconfigured ==> rows.Keys == old(rows).Keys && forall id :: id in old(rows) ==>
        var row := old(rows)[id];
        if (&& row.audioUrl && id !in lockedAtQuery && id !in lockedLater && id !in deleteFails
            && (|| (row.status.Done? && row.updatedAt + 86400 * cfg.doneRetentionDays < now)
                || (row.status.Failed? && row.updatedAt + 86400 * cfg.failedRetentionDays < now)))
        then rows[id] == row.(audioUrl := false, updatedAt := now) && id !in store
        else rows[id] == row && (id in store <==> id in old(store))
    {
      if misconfigured {
        return 0;
      }
      var expired := ExpiredRows(cfg, rows, Done, now, lockedAtQuery) + ExpiredRows(cfg, rows, Failed, now, lockedAtQuery);
      ghost var before := rows;
      reclaimed := ReclaimEach(expired, now, lockedLater, deleteFails);
      forall id | id in before
        ensures id in Reclaimable(cfg, before, now, lockedAtQuery, lockedLater, deleteFails) <==>
          id !in lockedAtQuery && id !in lockedLater && id !in deleteFails && ExpiredAt(cfg, before[id], now)
      {
        ExpiredInSeconds(cfg, before[id], now);
      }
    }

    /** The loop over the ids that the query returned. */
    method ReclaimEach(expired: set<CallId>, now: int, locked: set<CallId>, deleteFails: set<CallId>)
      returns (reclaimed: nat)
      requires expired <= rows.Keys
      modifies this
      ensures reclaimed == |expired - locked - deleteFails|
      ensures store == old(store) - (expired - locked - deleteFails)
      ensures AfterPass(old(rows), expired - locked - deleteFails, now, rows)
    {
      reclaimed := 0;
      var todo := expired;
      ghost var wanted, gone := expired - locked - deleteFails, {};
      while todo != {}
        invariant todo <= expired <= rows.Keys
        invariant forall x :: x in gone <==> x in wanted && x !in todo
        invariant reclaimed == |gone|
        invariant store == old(store) - gone
        invariant AfterPass(old(rows), gone, now, rows)
        decreases todo
      {
        var id :| id in todo;
        todo := todo - {id};
        ghost var before := rows;
        var done := ReclaimRow(id, now, id in locked, id in deleteFails);
        if done {
          OneMoreReclaimed(old(rows), gone, now, before, id);
          reclaimed := reclaimed + 1;
          gone := gone + {id};
        }
      }
      assert gone == wanted;
    }

    /** One row: locked again, or skipped; then the object is deleted and the URL nulled, or nothing is. */
    method ReclaimRow(id: CallId, now: int, locked: bool, deleteFails: bool) returns (done: bool)
      requires id in rows
      modifies this
      ensures done == (!locked && !deleteFails)
      ensures done ==> store == old(store) - {id} && rows == old(rows)[id := Nulled(old(rows)[id], now)]
      ensures !done ==> store == old(store) && rows == old(rows)
    {
      if locked || deleteFails {
        return false;
      }
      store := store - {id};
      rows := rows[id := Nulled(rows[id], now)];
      done := true;
    }
  }

  /** A later pass finds nothing of what an earlier one reclaimed. */
  lemma ReclaimedRowsStayReclaimed(cfg: Config, rows: map<CallId, Row>, now: int, locked: set<CallId>,
                                   lockedLater: set<CallId>, fails: set<CallId>, rows': map<CallId, Row>, later: int)
    requires AfterPass(rows, Reclaimable(cfg, rows, now, locked, lockedLater, fails), now, rows')
    ensures forall id :: id in Reclaimable(cfg, rows, now, locked, lockedLater, fails) ==> !ExpiredAt(cfg, rows'[id], later)
  {
  }

  /** With nothing locked and nothing failing, a pass leaves no expired row behind. */
  lemma UndisturbedPassIsComplete(cfg: Config, rows: map<CallId, Row>, now: int, rows': map<CallId, Row>)
    requires AfterPass(rows, Reclaimable(cfg, rows, now, {}, {}, {}), now, rows')
    ensures forall id :: id in rows' ==> !ExpiredAt(cfg, rows'[id], now)
  {
  }

  /** One reclaim and the protocol agree: the same row, and the object is gone. */
  lemma ReclaimFollowsTheProtocol(c: Call, now: int)
    requires c.lock.None?
    ensures var deleted := ObjectDeleted(c, now);
      && deleted.Some?
      && var r := ReclaimCommitted(deleted.value);
         r.Some? && r.value.row == Nulled(c.row, now) && !r.value.stored && r.value.lock.None?
  {
  }
}
