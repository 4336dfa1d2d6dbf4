/** The durable job table and its transactions (app/jobs/repository.py). */
module JobRepository {
  import opened Prelude
  import opened JobModel
  import opened JobChange

  type Table = map<JobId, Row>

  // ---------------------------------------------------------------- specification of each transaction

  ghost predicate UniqueKeys(rows: Table) {
    forall i, j | i in rows && j in rows && rows[i].Key() == rows[j].Key() :: i == j
  }

  predicate KeyTaken(rows: Table, key: (PortalId, Fingerprint)) {
    exists id | id in rows :: rows[id].Key() == key
  }

  /** INSERT .. ON CONFLICT DO NOTHING. */
  function Inserted(rows: Table, id: JobId, row: Row): Table {
    if KeyTaken(rows, row.Key()) then rows else rows[id := row]
  }

  /** A guarded UPDATE of one row: no effect unless the row is processing. */
  function Transition(rows: Table, id: JobId, move: Move): Table {
    if id in rows && rows[id].status == Processing then rows[id := Moved(rows[id], move)] else rows
  }

  /** The due rows that a SKIP LOCKED scan can see. */
  function Due(rows: Table, now: Instant, locked: set<JobId>): set<JobId> {
    set id | id in rows && id !in locked && Claimable(rows[id], now)
  }

  predicate Before(a: Row, b: Row) {
    a.runAt < b.runAt || (a.runAt == b.runAt && a.createdAt <= b.createdAt)
  }

  /** The first `limit` visible due rows in (run_at, created_at) order. */
  ghost predicate IsClaimBatch(rows: Table, batch: seq<JobId>, limit: nat, now: Instant, locked: set<JobId>) {
    var due := Due(rows, now, locked);
    && |batch| == (if |due| < limit then |due| else limit)
    && (forall i, j | 0 <= i < j < |batch| :: batch[i] != batch[j])
    && (forall i | 0 <= i < |batch| :: batch[i] in due)
    && (forall i, j | 0 <= i < j < |batch| :: Before(rows[batch[i]], rows[batch[j]]))
    && (forall i, id | 0 <= i < |batch| && id in due && id !in batch :: Before(rows[batch[i]], rows[id]))
  }

  function ClaimAll(rows: Table, batch: seq<JobId>, worker: WorkerId, now: Instant): Table {
    map id | id in rows :: if id in batch then Moved(rows[id], Claimed(worker, now)) else rows[id]
  }

  function StaleIds(rows: Table, now: Instant, lockTimeout: real): set<JobId> {
    set id | id in rows && Stale(rows[id], now, lockTimeout)
  }

  function RecoverAll(rows: Table, now: Instant, lockTimeout: real): Table {
    map id | id in rows ::
      if Stale(rows[id], now, lockTimeout) then Moved(rows[id], Recovered(now, lockTimeout)) else rows[id]
  }

  /** The batch in terms of the columns: due rows that nobody else holds, each once, in order; all of them, or `limit`
      of them with none that comes before. */
  ghost predicate ClaimsFirst(rows: Table, batch: seq<JobId>, limit: nat, now: Instant, locked: set<JobId>) {
    && |batch| <= limit
    && (forall i | 0 <= i < |batch| :: batch[i] in rows && batch[i] !in locked && IsDue(rows[batch[i]], now))
    && (forall i, j | 0 <= i < j < |batch| :: batch[i] != batch[j] && ComesFirst(rows[batch[i]], rows[batch[j]]))
    && (forall id | id in rows && id !in locked && id !in batch && IsDue(rows[id], now) ::
          |batch| == limit && forall i | 0 <= i < |batch| :: ComesFirst(rows[batch[i]], rows[id]))
  }

  lemma BatchMeans(rows: Table, batch: seq<JobId>, limit: nat, now: Instant, locked: set<JobId>)
    requires IsClaimBatch(rows, batch, limit, now, locked)
    ensures ClaimsFirst(rows, batch, limit, now, locked)
  {
    var due := Due(rows, now, locked);
    forall id | id in rows && id !in locked && id !in batch && IsDue(rows[id], now)
      ensures |batch| == limit && forall i | 0 <= i < |batch| :: ComesFirst(rows[batch[i]], rows[id])
    {
      assert id in due;
      BatchIsPart(batch, due, id);
    }
  }

  lemma {:induction false} BatchIsPart(batch: seq<JobId>, due: set<JobId>, id: JobId)
    requires forall i, j | 0 <= i < j < |batch| :: batch[i] != batch[j]
    requires forall i | 0 <= i < |batch| :: batch[i] in due
    requires id in due && id !in batch
    ensures |batch| < |due|
  {
    if batch != [] {
      BatchIsPart(batch[1..], due - {batch[0]}, id);
    }
  }

  lemma ClaimAllMeans(rows: Table, batch: seq<JobId>, worker: WorkerId, now: Instant)
    ensures ClaimAll(rows, batch, worker, now).Keys == rows.Keys
    ensures forall id | id in rows ::
              if id in batch then Leases(rows[id], ClaimAll(rows, batch, worker, now)[id], worker, now)
              else ClaimAll(rows, batch, worker, now)[id] == rows[id]
  {
  }

  lemma StaleIdsMean(rows: Table, now: Instant, lockTimeout: real)
    ensures StaleIds(rows, now, lockTimeout) == set id | id in rows && IsStale(rows[id], now, lockTimeout)
  {
  }

  /** Nothing changed but this row. */
  predicate OnlyRow(before: Table, after: Table, id: JobId) {
    id in before && id in after && after == before[id := after[id]]
  }

  // ---------------------------------------------------------------- the table

  class AutomationJobRepository {
    var rows: Table

    constructor ()
      ensures rows == map[]
    {
      rows := map[];
    }

    /** INSERT .. ON CONFLICT DO NOTHING on (portal, event token), then read the row that holds the key. */
    method CreateIdempotent(freshId: JobId, row: Row) returns (id: JobId, existing: bool)
      requires UniqueKeys(rows) && freshId !in rows
      modifies this
      ensures UniqueKeys(rows)
      ensures existing <==> KeyTaken(old(rows), row.Key())
      ensures existing <==> exists i | i in old(rows) ::
                              old(rows)[i].portal == row.portal && old(rows)[i].fingerprint == row.fingerprint
      ensures if existing then rows == old(rows) else id == freshId && rows == old(rows)[freshId := row]
      ensures rows == Inserted(old(rows), freshId, row)
      ensures id in rows && rows[id].Key() == row.Key()
      ensures forall other | other in rows && rows[other].Key() == row.Key() :: other == id
    {
      var holders := set i | i in rows && rows[i].Key() == row.Key();
      if holders == {} {
        assert forall i | i in rows :: rows[i].Key() != row.Key() by {
          forall i | i in rows ensures rows[i].Key() != row.Key() {
            assert i !in holders;
          }
        }
        rows := rows[freshId := row];
        id, existing := freshId, false;
      } else {
        id :| id in holders;
        assert rows[id].Key() == row.Key();
        existing := true;
      }
    }

    /** The head of an ORDER BY run_at, created_at scan over `candidates`. */
    method Earliest(candidates: set<JobId>) returns (first: JobId)
      requires candidates != {} && candidates <= rows.Keys
      ensures first in candidates
      ensures forall id | id in candidates :: Before(rows[first], rows[id])
    {
      first :| first in candidates;
      var rest := candidates - {first};
      while rest != {}
        invariant rest <= candidates && first in candidates
        invariant forall id | id in candidates - rest :: Before(rows[first], rows[id])
        decreases rest
      {
        var id :| id in rest;
        if !Before(rows[first], rows[id]) {
          first := id;
        }
        rest := rest - {id};
      }
    }

    /** Claim a due batch: select in order, then lease each selected row. */
    method ClaimDueJobs(worker: WorkerId, limit: nat, now: Instant, locked: set<JobId>) returns (batch: seq<JobId>)
      modifies this
      ensures IsClaimBatch(old(rows), batch, limit, now, locked)
      ensures rows == ClaimAll(old(rows), batch, worker, now)
      ensures ClaimsFirst(old(rows), batch, limit, now, locked)
      ensures rows.Keys == old(rows).Keys && forall id | id in rows ::
                if id in batch then Leases(old(rows)[id], rows[id], worker, now) else rows[id] == old(rows)[id]
    {
      batch := Select(limit, now, locked);
      BatchMeans(rows, batch, limit, now, locked);
      ClaimAllMeans(rows, batch, worker, now);
      LeaseAll(batch, worker, now);
    }

    /** The loop over the selected rows. */
    method LeaseAll(batch: seq<JobId>, worker: WorkerId, now: Instant)
      requires forall i | 0 <= i < |batch| :: batch[i] in rows
      requires forall i, j | 0 <= i < j < |batch| :: batch[i] != batch[j]
      modifies this
      ensures rows == ClaimAll(old(rows), batch, worker, now)
    {
      ghost var before := rows;
      for k := 0 to |batch|
        invariant rows == ClaimAll(before, batch[..k], worker, now)
      {
        assert batch[k] !in batch[..k];
        assert batch[..k + 1] == batch[..k] + [batch[k]];
        rows := rows[batch[k] := Moved(rows[batch[k]], Claimed(worker, now))];
      }
      assert batch[..|batch|] == batch;
    }

    method Select(limit: nat, now: Instant, locked: set<JobId>) returns (batch: seq<JobId>)
      ensures IsClaimBatch(rows, batch, limit, now, locked)
    {
      var due := Due(rows, now, locked);
      var waiting := due;
      batch := [];
      while |batch| < limit && waiting != {}
        invariant waiting <= due && |batch| + |waiting| == |due| && |batch| <= limit
        invariant forall id :: id in batch <==> id in due && id !in waiting
        invariant forall i | 0 <= i < |batch| :: batch[i] in due
        invariant forall i, j | 0 <= i < j < |batch| :: batch[i] != batch[j]
        invariant forall i, j | 0 <= i < j < |batch| :: Before(rows[batch[i]], rows[batch[j]])
        invariant forall i, id | 0 <= i < |batch| && id in waiting :: Before(rows[batch[i]], rows[id])
        decreases waiting
      {
        var first := Earliest(waiting);
        batch := batch + [first];
        waiting := waiting - {first};
      }
    }

    /** Recover every processing row whose lease is stale; all other rows stay as they are. */
    method RecoverStaleJobs(now: Instant, lockTimeout: real) returns (count: nat)
      modifies this
      ensures rows == RecoverAll(old(rows), now, lockTimeout)
      ensures rows.Keys == old(rows).Keys && forall id | id in rows ::
                if IsStale(old(rows)[id], now, lockTimeout) then Recovers(old(rows)[id], rows[id], now)
                else rows[id] == old(rows)[id]
      ensures count == |set id | id in old(rows) && IsStale(old(rows)[id], now, lockTimeout)|
    {
      StaleIdsMean(rows, now, lockTimeout);
      ghost var before := rows;
      var stale := StaleIds(rows, now, lockTimeout);
      var todo := stale;
      count := 0;
      while todo != {}
        invariant todo <= stale && count + |todo| == |stale|
        invariant rows.Keys == before.Keys
        invariant forall id | id in rows ::
                    rows[id] == if id in stale && id !in todo then Moved(before[id], Recovered(now, lockTimeout))
                                else before[id]
        decreases todo
      {
        var id :| id in todo;
        rows := rows[id := Moved(rows[id], Recovered(now, lockTimeout))];
        todo := todo - {id};
        count := count + 1;
      }
    }

    /** The guard shared by every write-back: the row must be processing. */
    method Write(id: JobId, move: Move) returns (ok: bool)
      requires !move.Claimed? && !move.Recovered?
      modifies this
      ensures rows == Transition(old(rows), id, move)
      ensures ok <==> id in old(rows) && old(rows)[id].status == Processing
    {
      ok := id in rows && rows[id].status == Processing;
      if ok {
        rows := rows[id := Moved(rows[id], move)];
      }
    }

    method MarkCompleted(id: JobId, completedAt: Instant, values: ReturnValues) returns (ok: bool)
      modifies this
      ensures rows == Transition(old(rows), id, Finished(completedAt, values))
      ensures ok <==> id in old(rows) && old(rows)[id].status == Processing
      ensures if ok then OnlyRow(old(rows), rows, id) && Completes(old(rows)[id], rows[id], completedAt, values)
              else rows == old(rows)
    {
      ok := Write(id, Finished(completedAt, values));
    }

    method ScheduleRetry(id: JobId, runAt: Instant, error: string) returns (ok: bool)
      modifies this
      ensures rows == Transition(old(rows), id, Retried(runAt, error))
      ensures ok <==> id in old(rows) && old(rows)[id].status == Processing
      ensures if ok then OnlyRow(old(rows), rows, id) && Reschedules(old(rows)[id], rows[id], runAt, error)
              else rows == old(rows)
    {
      ok := Write(id, Retried(runAt, error));
    }

    method SchedulePoll(id: JobId, runAt: Instant, payload: Payload) returns (ok: bool)
      modifies this
      ensures rows == Transition(old(rows), id, Polled(runAt, payload))
      ensures ok <==> id in old(rows) && old(rows)[id].status == Processing
      ensures if ok then OnlyRow(old(rows), rows, id) && Polls(old(rows)[id], rows[id], runAt, payload)
              else rows == old(rows)
    {
      ok := Write(id, Polled(runAt, payload));
    }

    method SaveProcessingResult(id: JobId, payload: Payload, values: ReturnValues) returns (ok: bool)
      modifies this
      ensures rows == Transition(old(rows), id, Saved(payload, values))
      ensures ok <==> id in old(rows) && old(rows)[id].status == Processing
      ensures if ok then OnlyRow(old(rows), rows, id) && Checkpoints(old(rows)[id], rows[id], payload, values)
              else rows == old(rows)
    {
      ok := Write(id, Saved(payload, values));
    }

    method MarkFailed(id: JobId, error: string) returns (ok: bool)
      modifies this
      ensures rows == Transition(old(rows), id, MarkedFailed(error))
      ensures ok <==> id in old(rows) && old(rows)[id].status == Processing
      ensures if ok then OnlyRow(old(rows), rows, id) && Ends(old(rows)[id], rows[id], Failed, error)
              else rows == old(rows)
    {
      ok := Write(id, MarkedFailed(error));
    }

    method MarkExpired(id: JobId, error: string) returns (ok: bool)
      modifies this
      ensures rows == Transition(old(rows), id, MarkedExpired(error))
      ensures ok <==> id in old(rows) && old(rows)[id].status == Processing
      ensures if ok then OnlyRow(old(rows), rows, id) && Ends(old(rows)[id], rows[id], Expired, error)
              else rows == old(rows)
    {
      ok := Write(id, MarkedExpired(error));
    }

    /** The row a processor may work on, if it is still processing. */
    method GetProcessingJob(id: JobId) returns (job: Option<Row>)
      ensures job == if id in rows && rows[id].status == Processing then Some(rows[id]) else None
    {
      if id in rows && rows[id].status == Processing {
        job := Some(rows[id]);
      } else {
        job := None;
      }
    }
  }
}
