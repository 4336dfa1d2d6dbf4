/** The persisted job row and every transition a transaction can make on one row
    (app/models/job.py, app/jobs/repository.py). */
module JobModel {
  import opened Prelude

  type JobId = nat
  type PortalId = nat
  /** The fingerprint of an event token, taken to be injective. */
  type Fingerprint = nat
  type WorkerId = nat

  const MAX_ATTEMPTS := 10

  datatype Status = Pending | Retry | Processing | Completed | Failed | Expired

  /** One payload shape per robot; the robot code is the constructor. */
  datatype Payload =
    | PausePayload(scheduledAt: Instant, requestedDelay: nat)
    | RestPayload(createdAt: Instant, request: nat, requestCompleted: bool)
    | FieldPayload(createdAt: Instant, pollInterval: nat, timeout: nat, checks: nat)
  {
    /** What no transition may change: everything but the checkpoint flag and the poll counter. */
    function Identity(): Payload {
      match this
      case PausePayload(_, _) => this
      case RestPayload(createdAt, request, _) => RestPayload(createdAt, request, false)
      case FieldPayload(createdAt, interval, timeout, _) => FieldPayload(createdAt, interval, timeout, 0)
    }

    /** The instant before which the job must not run. */
    function NotBefore(): Instant {
      match this
      case PausePayload(scheduledAt, delay) => scheduledAt + delay as real
      case RestPayload(createdAt, _, _) => createdAt
      case FieldPayload(createdAt, _, _, _) => createdAt
    }
  }

  datatype ReturnValues =
    | Awaiting
    | PauseValues(scheduledAt: Instant, resumedAt: Instant, requestedDelay: nat, actualDelay: nat)
    | RestValues(result: nat)
    | FieldValues(fieldValue: nat, checks: nat, filledAt: Instant)
    | TimeoutValues(checks: nat)
    | ErrorValues(code: string)

  datatype Row = Row(
    portal: PortalId, fingerprint: Fingerprint, payload: Payload, returnValues: ReturnValues,
    runAt: Instant, status: Status, attempts: int, maxAttempts: nat,
    lockedAt: Option<Instant>, lockedBy: Option<WorkerId>, lastError: Option<string>,
    startedAt: Option<Instant>, completedAt: Option<Instant>, createdAt: Instant)
  {
    function Key(): (PortalId, Fingerprint) {
      (portal, fingerprint)
    }

    predicate Waiting() {
      status == Pending || status == Retry
    }

    predicate Ended() {
      status == Completed || status == Failed || status == Expired
    }

    function Unlocked(): Row {
      this.(lockedAt := None, lockedBy := None)
    }
  }

  /** The row changes that exist; each is one guarded UPDATE. */
  datatype Move =
    | Claimed(worker: WorkerId, now: Instant)
    | Retried(runAt: Instant, error: string)
    | Polled(runAt: Instant, payload: Payload)
    | Saved(payload: Payload, returnValues: ReturnValues)
    | Finished(completedAt: Instant, returnValues: ReturnValues)
    | MarkedFailed(error: string)
    | MarkedExpired(error: string)
    | Recovered(now: Instant, lockTimeout: real)

  function Moved(row: Row, move: Move): Row {
    match move
    case Claimed(worker, now) =>
      row.(status := Processing, lockedAt := Some(now), lockedBy := Some(worker),
           startedAt := if row.startedAt.Some? then row.startedAt else Some(now),
           attempts := row.attempts + 1)
    case Retried(runAt, error) =>
      row.Unlocked().(status := Retry, runAt := runAt, lastError := Some(error))
    case Polled(runAt, payload) =>
      row.Unlocked().(status := Retry, runAt := runAt, payload := payload, lastError := None,
                      attempts := if row.attempts - 1 < 0 then 0 else row.attempts - 1)
    case Saved(payload, returnValues) =>
      row.(payload := payload, returnValues := returnValues)
    case Finished(completedAt, returnValues) =>
      row.Unlocked().(status := Completed, completedAt := Some(completedAt), returnValues := returnValues,
                      lastError := None)
    case MarkedFailed(error) =>
      row.Unlocked().(status := Failed, lastError := Some(error))
    case MarkedExpired(error) =>
      row.Unlocked().(status := Expired, lastError := Some(error))
    case Recovered(now, _) =>
      if row.attempts >= row.maxAttempts
      then row.Unlocked().(status := Failed, lastError := Some("stale_processing_attempts_exhausted"))
      else row.Unlocked().(status := Retry, runAt := now, lastError := Some("stale_processing_recovered"))
  }

  predicate Claimable(row: Row, now: Instant) {
    row.Waiting() && row.runAt <= now && row.attempts < row.maxAttempts
  }

  predicate Stale(row: Row, now: Instant, lockTimeout: real) {
    row.status == Processing && row.lockedAt.Some? && row.lockedAt.value < now - lockTimeout
  }

  /** The WHERE clause under which each change takes effect. */
  predicate Guard(row: Row, move: Move) {
    match move
    case Claimed(_, now) => Claimable(row, now)
    case Recovered(now, lockTimeout) => Stale(row, now, lockTimeout)
    case _ => row.status == Processing
  }

  // ---------------------------------------------------------------- bookkeeping of moves

  datatype Kind = AClaim | ARetry | APoll | ASave | AnEnd | ARecovery | AnExhaustion

  /** What a move amounts to; recovery splits into a return to the queue and an exhausted budget. */
  function KindOf(row: Row, move: Move): Kind {
    match move
    case Claimed(_, _) => AClaim
    case Retried(_, _) => ARetry
    case Polled(_, _) => APoll
    case Saved(_, _) => ASave
    case Recovered(_, _) => if row.attempts >= row.maxAttempts then AnExhaustion else ARecovery
    case _ => AnEnd
  }

  // ---------------------------------------------------------------- what every row keeps

  /** Whether these return values may be reported for this payload: a pause is never short. */
  predicate Reportable(payload: Payload, values: ReturnValues) {
    payload.PausePayload? ==>
      && values.PauseValues?
      && values.scheduledAt == payload.scheduledAt
      && values.requestedDelay == payload.requestedDelay
      && payload.requestedDelay <= values.actualDelay
      && payload.NotBefore() <= values.resumedAt
  }

  ghost predicate RowOk(row: Row, clock: Instant) {
    // the lease columns are set exactly while the row is processing
    && (row.status == Processing <==> row.lockedAt.Some?)
    && (row.lockedAt.Some? <==> row.lockedBy.Some?)
    // the attempt budget
    && 0 <= row.attempts <= row.maxAttempts
    && (row.status == Processing || row.Ended() ==> 1 <= row.attempts)
    && (row.status == Pending ==> row.attempts == 0)
    // time
    && row.payload.NotBefore() <= row.runAt
    && (row.status == Processing ==> row.runAt <= row.lockedAt.value <= clock)
    && (row.status == Pending <==> row.startedAt.None?)
    && (row.status == Completed <==> row.completedAt.Some?)
    && (row.status == Completed ==> Reportable(row.payload, row.returnValues))
  }

  /** The columns that identify a job: no transition changes them. */
  predicate SameJob(a: Row, b: Row) {
    && a.Key() == b.Key()
    && a.maxAttempts == b.maxAttempts
    && a.createdAt == b.createdAt
    && a.payload.Identity() == b.payload.Identity()
  }

  /** A move that the system may attempt on this row: besides the guard, the written values fit the job. */
  ghost predicate Legal(row: Row, move: Move, clock: Instant) {
    && Guard(row, move)
    && match move
       case Claimed(_, now) => now <= clock
       case Recovered(now, lockTimeout) => now <= clock && 0.0 <= lockTimeout
       case Retried(runAt, _) => row.payload.NotBefore() <= runAt
       case Polled(runAt, payload) =>
         row.payload.NotBefore() <= runAt && payload.FieldPayload? && payload.Identity() == row.payload.Identity()
       case Saved(payload, _) => payload.RestPayload? && payload.Identity() == row.payload.Identity()
       case Finished(_, values) => Reportable(row.payload, values)
       case MarkedFailed(_) => true
       case MarkedExpired(_) => true
  }

  /** Every legal move keeps the row invariant, the job's identity and its first start. */
  lemma MoveKeepsRow(row: Row, move: Move, clock: Instant)
    requires RowOk(row, clock) && Legal(row, move, clock)
    ensures RowOk(Moved(row, move), clock)
    ensures SameJob(row, Moved(row, move))
    ensures row.startedAt.Some? ==> Moved(row, move).startedAt == row.startedAt
    ensures !row.Ended()
  {
  }

  /** The ledger of one move: attempts is claims minus polls, and also returns plus the current holding. */
  lemma MoveLedger(row: Row, move: Move, clock: Instant)
    requires RowOk(row, clock) && Legal(row, move, clock)
    ensures var kind := KindOf(row, move); var next := Moved(row, move);
            && next.attempts == row.attempts + (if kind == AClaim then 1 else if kind == APoll then -1 else 0)
            && next.attempts - Holding(next) == row.attempts - Holding(row)
                 + (if kind == ARetry || kind == ARecovery then 1 else 0)
  {
  }

  /** One while the row is held or once it ended under a holder. */
  function Holding(row: Row): int {
    if row.Waiting() then 0 else 1
  }

  /** Status changes still possible without another poll. */
  function Rank(row: Row): int {
    if row.Ended() then 0
    else 2 * (row.maxAttempts - row.attempts) + if row.status == Processing then 2 else 1
  }

  /** Every status change but a poll lowers the rank; a poll raises it by one. */
  lemma MoveRank(row: Row, move: Move, clock: Instant)
    requires RowOk(row, clock) && Legal(row, move, clock)
    ensures var kind := KindOf(row, move); var next := Moved(row, move);
            && 0 <= Rank(next)
            && Rank(next) <= Rank(row) + (if kind == APoll then 1 else if kind == ASave then 0 else -1)
  {
  }
}
