/** Accepting robot callbacks as durable jobs (app/jobs/service.py). */
module JobIntake {
  import opened Prelude
  import opened JobModel
  import opened JobRepository

  /** A normalized callback; authentication data and comments are not part of the model. */
  datatype Callback =
    | PauseCallback(portal: PortalId, fingerprint: Fingerprint, delay: nat)
    | RestCallback(portal: PortalId, fingerprint: Fingerprint, request: nat)
    | FieldCallback(portal: PortalId, fingerprint: Fingerprint, pollInterval: nat, timeout: nat)
  {
    function Key(): (PortalId, Fingerprint) {
      (portal, fingerprint)
    }

    /** The ranges that the payload normalizers enforce before a service sees the callback. */
    predicate InRange(minimumDelay: nat, maximumDelay: nat) {
      match this
      case PauseCallback(_, _, delay) => minimumDelay <= delay <= maximumDelay
      case RestCallback(_, _, _) => true
      case FieldCallback(_, _, interval, timeout) => 1 <= interval <= 86400 && 1 <= timeout <= 31_536_000
    }
  }

  function NewPayload(callback: Callback, now: Instant): Payload {
    match callback
    case PauseCallback(_, _, delay) => PausePayload(now, delay)
    case RestCallback(_, _, request) => RestPayload(now, request, false)
    case FieldCallback(_, _, interval, timeout) => FieldPayload(now, interval, timeout, 0)
  }

  /** A pause first runs when its delay has passed, a subscription at once. */
  function NewRow(callback: Callback, now: Instant, createdAt: Instant): Row {
    var payload := NewPayload(callback, now);
    Row(callback.portal, callback.fingerprint, payload, Awaiting, payload.NotBefore(), Pending, 0, MAX_ATTEMPTS,
        None, None, None, None, None, createdAt)
  }

  lemma NewRowOk(callback: Callback, now: Instant, createdAt: Instant, clock: Instant)
    ensures RowOk(NewRow(callback, now, createdAt), clock)
    ensures NewRow(callback, now, createdAt).Key() == callback.Key()
  {
  }

  /** What a fresh job says, column by column. */
  predicate IsNewJob(row: Row, callback: Callback, now: Instant, createdAt: Instant) {
    && row.portal == callback.portal && row.fingerprint == callback.fingerprint && row.createdAt == createdAt
    && row.status == Pending && row.attempts == 0 && row.maxAttempts == 10 && row.returnValues == Awaiting
    && row.lockedAt == None && row.lockedBy == None && row.lastError == None
    && row.startedAt == None && row.completedAt == None
    && match callback
       case PauseCallback(_, _, delay) =>
         && row.payload.PausePayload? && row.payload.scheduledAt == now && row.payload.requestedDelay == delay
         && row.runAt == now + delay as real
       case RestCallback(_, _, request) =>
         && row.payload.RestPayload? && row.payload.createdAt == now && row.payload.request == request
         && !row.payload.requestCompleted && row.runAt == now
       case FieldCallback(_, _, interval, timeout) =>
         && row.payload.FieldPayload? && row.payload.createdAt == now && row.payload.checks == 0
         && row.payload.pollInterval == interval && row.payload.timeout == timeout && row.runAt == now
  }

  lemma NewRowMeans(callback: Callback, now: Instant, createdAt: Instant)
    ensures IsNewJob(NewRow(callback, now, createdAt), callback, now, createdAt)
  {
  }

  datatype PortalView = PortalView(active: bool, tokenHash: Option<nat>)

  /** The stored portals; a callback names its portal by the member id, which is unique and stands for the row's id. */
  type Portals = map<PortalId, PortalView>

  datatype CredentialError = RobotCredentialError

  /** Nothing changed but this new row. */
  predicate OnlyNew(before: Table, after: Table, id: JobId) {
    id !in before && id in after && after == before[id := after[id]]
  }

  class IntakeService {
    const repository: AutomationJobRepository

    constructor (repository: AutomationJobRepository)
      ensures this.repository == repository
    {
      this.repository := repository;
    }

    /** Both services' `create`: refuse unknown, inactive or unproven portals, otherwise insert once per event token. */
    method Create(callback: Callback, portals: Portals, tokenHash: nat, freshId: JobId,
                  now: Instant, createdAt: Instant)
      returns (result: Result<(JobId, bool), CredentialError>)
      requires UniqueKeys(repository.rows) && freshId !in repository.rows
      modifies repository
      ensures UniqueKeys(repository.rows)
      ensures result.Ok? <==>
                callback.portal in portals && portals[callback.portal] == PortalView(true, Some(tokenHash))
      ensures result.Err? ==> repository.rows == old(repository.rows)
      ensures result.Ok? ==>
                && repository.rows == Inserted(old(repository.rows), freshId, NewRow(callback, now, createdAt))
                && (result.value.1 <==> KeyTaken(old(repository.rows), callback.Key()))
                && (if result.value.1 then repository.rows == old(repository.rows)
                    else
                      && OnlyNew(old(repository.rows), repository.rows, freshId) && result.value.0 == freshId
                      && IsNewJob(repository.rows[freshId], callback, now, createdAt))
                && result.value.0 in repository.rows
                && repository.rows[result.value.0].Key() == callback.Key()
                && repository.rows[result.value.0].portal == callback.portal
    {
      if callback.portal !in portals {
        return Err(RobotCredentialError);
      }
      var portal := portals[callback.portal];
      if !portal.active || portal.tokenHash != Some(tokenHash) {
        return Err(RobotCredentialError);
      }
      NewRowMeans(callback, now, createdAt);
      var id, existing := repository.CreateIdempotent(freshId, NewRow(callback, now, createdAt));
      result := Ok((id, existing));
    }
  }
}
