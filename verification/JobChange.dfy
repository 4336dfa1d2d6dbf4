/** What each write-back and each claim does to one row, column by column (app/jobs/repository.py). */
module JobChange {
  import opened Prelude
  import opened JobModel

  predicate Leases(before: Row, after: Row, worker: WorkerId, now: Instant) {
    after == before.(status := Processing, lockedAt := Some(now), lockedBy := Some(worker),
                     startedAt := if before.startedAt == None then Some(now) else before.startedAt,
                     attempts := before.attempts + 1)
  }

  predicate Reschedules(before: Row, after: Row, runAt: Instant, error: string) {
    after == before.(status := Retry, runAt := runAt, lockedAt := None, lockedBy := None, lastError := Some(error))
  }

  predicate Polls(before: Row, after: Row, runAt: Instant, payload: Payload) {
    after == before.(status := Retry, runAt := runAt, lockedAt := None, lockedBy := None, lastError := None,
                     payload := payload, attempts := if 0 < before.attempts then before.attempts - 1 else 0)
  }

  predicate Checkpoints(before: Row, after: Row, payload: Payload, values: ReturnValues) {
    after == before.(payload := payload, returnValues := values)
  }

  predicate Completes(before: Row, after: Row, completedAt: Instant, values: ReturnValues) {
    after == before.(status := Completed, completedAt := Some(completedAt), returnValues := values,
                     lockedAt := None, lockedBy := None, lastError := None)
  }

  predicate Ends(before: Row, after: Row, status: Status, error: string) {
    after == before.(status := status, lockedAt := None, lockedBy := None, lastError := Some(error))
  }

  /** A stale lease: back to the queue while there is budget, otherwise failed. */
  predicate Recovers(before: Row, after: Row, now: Instant) {
    if before.attempts < before.maxAttempts then Reschedules(before, after, now, "stale_processing_recovered")
    else Ends(before, after, Failed, "stale_processing_attempts_exhausted")
  }

  predicate IsStale(row: Row, now: Instant, lockTimeout: real) {
    row.status == Processing && row.lockedAt.Some? && now - row.lockedAt.value > lockTimeout
  }

  /** A claim may take the row: it waits, its time has come, and it has budget. */
  predicate IsDue(row: Row, now: Instant) {
    (row.status == Pending || row.status == Retry) && row.runAt <= now && row.attempts < row.maxAttempts
  }

  /** The order of a claim: the earlier run_at first, and the earlier created_at among equals. */
  predicate ComesFirst(a: Row, b: Row) {
    if a.runAt == b.runAt then a.createdAt <= b.createdAt else a.runAt < b.runAt
  }
}
