/** What a worker decides after each remote reply (app/jobs/processor.py). */
module JobProcessor {
  import opened Prelude
  import opened JobModel
  import opened Backoff

  /** How one remote call ends, as the processor can tell. `Unexpected` is any other exception. */
  datatype Reply<T> =
    | Answered(answer: T)
    | Denied(code: string)
    | AuthFailed
    | Permanent
    | RateLimited(hint: Hint)
    | Temporary(hint: Hint)
    | InvalidResponse
    | OAuthTemporary
    | Transport
    | Undecryptable
    | Unexpected

  /** Where a worker stands inside one `process` call. */
  datatype Pc =
    | Loaded                                   // _load returned the row
    | Calling                                  // the application call is out
    | Checkpointing(values: ReturnValues)      // the application call settled, its result is not saved yet
    | Delivering(values: ReturnValues)         // about to send bizproc.event.send
    | Sending(values: ReturnValues)            // bizproc.event.send is out
    | Reporting(move: Move)                    // the outcome is known, its transaction has not run yet

  function Floor(x: real): int {
    x.Floor
  }

  /** Whole seconds between two instants, never negative. */
  function ElapsedSeconds(from: Instant, to: Instant): nat {
    if to < from then 0 else Floor(to - from)
  }

  function PauseReturnValues(payload: Payload, resumedAt: Instant): ReturnValues
    requires payload.PausePayload?
  {
    PauseValues(payload.scheduledAt, resumedAt, payload.requestedDelay, ElapsedSeconds(payload.scheduledAt, resumedAt))
  }

  /** Back off while the snapshot still has budget, otherwise give up. */
  function RetryMove(job: Row, code: string, hint: Hint, now: Instant, random: real, settings: Settings): Move {
    if job.attempts >= job.maxAttempts
    then MarkedFailed(code + "_attempts_exhausted")
    else Retried(RetryAt(now, job.attempts, settings, random, hint), code)
  }

  // ---------------------------------------------------------------- the REST-request robot

  /** The return values that settle an application call, or None when the reply does not settle it. */
  function SettledValues(reply: Reply<nat>): Option<ReturnValues> {
    match reply
    case Answered(result) => Some(RestValues(result))
    case Transport => Some(ErrorValues("rest_request_outcome_unknown"))
    case Denied(_) => Some(ErrorValues("rest_request_failed"))
    case Permanent => Some(ErrorValues("rest_request_failed"))
    case InvalidResponse => Some(ErrorValues("rest_request_failed"))
    case AuthFailed => Some(ErrorValues("rest_request_failed"))
    case _ => None
  }

  /** None: the exception escapes `process` and the row waits for recovery. */
  function AfterRequest(job: Row, reply: Reply<nat>, now: Instant, random: real, settings: Settings): Option<Pc> {
    match reply
    case RateLimited(hint) => Some(Reporting(RetryMove(job, "rest_request_rate_limited", hint, now, random, settings)))
    case OAuthTemporary =>
      Some(Reporting(RetryMove(job, "oauth_temporarily_unavailable", NO_HINT, now, random, settings)))
    case _ => if SettledValues(reply).Some? then Some(Checkpointing(SettledValues(reply).value)) else None
  }

  // ---------------------------------------------------------------- the field-wait robot

  /** `Answered(None)`: the field is still empty. A poll is rescheduled only before the deadline. */
  function AfterCheck(job: Row, reply: Reply<Option<nat>>, now: Instant, random: real, settings: Settings): Option<Pc>
    requires job.payload.FieldPayload?
  {
    var payload := job.payload;
    var checks := payload.checks + 1;
    match reply
    case Answered(None) =>
      if now < payload.createdAt + payload.timeout as real
      then Some(Reporting(Polled(now + payload.pollInterval as real, payload.(checks := checks))))
      else Some(Delivering(TimeoutValues(checks)))
    case Answered(Some(value)) => Some(Delivering(FieldValues(value, checks, now)))
    case Undecryptable => Some(Reporting(MarkedFailed("invalid_persisted_job")))
    case RateLimited(hint) =>
      Some(Reporting(RetryMove(job, "field_check_temporary_error", hint, now, random, settings)))
    case Temporary(hint) =>
      Some(Reporting(RetryMove(job, "field_check_temporary_error", hint, now, random, settings)))
    case OAuthTemporary =>
      Some(Reporting(RetryMove(job, "field_check_temporary_error", NO_HINT, now, random, settings)))
    case Unexpected => None
    case _ => Some(Delivering(ErrorValues("field_check_failed")))
  }

  // ---------------------------------------------------------------- delivery

  /** Delivery of a REST-request or field-wait result. `Answered(true)` is a confirmed event. */
  function AfterSubscription(job: Row, values: ReturnValues, reply: Reply<bool>,
                             now: Instant, random: real, settings: Settings): Option<Pc>
  {
    match reply
    case Answered(confirmed) =>
      Some(Reporting(if confirmed then Finished(now, values) else MarkedFailed("event_delivery_failed")))
    case RateLimited(hint) =>
      Some(Reporting(RetryMove(job, "event_delivery_temporary_error", hint, now, random, settings)))
    case Temporary(hint) =>
      Some(Reporting(RetryMove(job, "event_delivery_temporary_error", hint, now, random, settings)))
    case OAuthTemporary =>
      Some(Reporting(RetryMove(job, "event_delivery_temporary_error", NO_HINT, now, random, settings)))
    case InvalidResponse =>
      Some(Reporting(RetryMove(job, "event_delivery_temporary_error", NO_HINT, now, random, settings)))
    case Transport =>
      Some(Reporting(RetryMove(job, "event_delivery_temporary_error", NO_HINT, now, random, settings)))
    case _ => Some(Reporting(MarkedFailed("event_delivery_failed")))
  }

  /** Delivery of a pause. A refused token after an unknown outcome is left to a person. */
  function AfterPause(job: Row, values: ReturnValues, reply: Reply<bool>,
                      now: Instant, random: real, settings: Settings): Option<Pc>
    requires values.PauseValues?
  {
    match reply
    case Answered(confirmed) =>
      Some(Reporting(if confirmed then Finished(values.resumedAt, values)
                     else MarkedFailed("event_delivery_not_confirmed")))
    case Denied(code) =>
      Some(Reporting(
             if code != "ACCESS_DENIED" then MarkedFailed("event_delivery_permission_denied")
             else if job.lastError == Some("event_delivery_outcome_unknown")
             then MarkedFailed("event_delivery_requires_manual_review")
             else MarkedExpired("event_token_invalid_or_expired")))
    case AuthFailed => Some(Reporting(MarkedFailed("portal_authentication_failed")))
    case Permanent => Some(Reporting(MarkedFailed("event_delivery_permanent_error")))
    case RateLimited(hint) =>
      Some(Reporting(RetryMove(job, "event_delivery_rate_limited", hint, now, random, settings)))
    case Temporary(hint) =>
      Some(Reporting(RetryMove(job, "event_delivery_temporary_error", hint, now, random, settings)))
    case InvalidResponse =>
      Some(Reporting(RetryMove(job, "event_delivery_invalid_response", NO_HINT, now, random, settings)))
    case OAuthTemporary =>
      Some(Reporting(RetryMove(job, "oauth_temporarily_unavailable", NO_HINT, now, random, settings)))
    case Transport =>
      Some(Reporting(RetryMove(job, "event_delivery_outcome_unknown", NO_HINT, now, random, settings)))
    case Undecryptable => Some(Reporting(MarkedFailed("portal_token_decryption_failed")))
    case Unexpected => None
  }

  function AfterSend(job: Row, values: ReturnValues, reply: Reply<bool>,
                     now: Instant, random: real, settings: Settings): Option<Pc>
    requires job.payload.PausePayload? ==> values.PauseValues?
  {
    if job.payload.PausePayload?
    then AfterPause(job, values, reply, now, random, settings)
    else AfterSubscription(job, values, reply, now, random, settings)
  }

  // ---------------------------------------------------------------- what the decisions keep

  /** What a worker's program counter promises about the row it loaded. */
  ghost predicate PcOk(job: Row, pc: Pc) {
    match pc
    case Loaded => true
    case Calling => job.payload.RestPayload?
    case Checkpointing(_) => job.payload.RestPayload?
    case Delivering(values) => Reportable(job.payload, values)
    case Sending(values) => Reportable(job.payload, values)
    case Reporting(move) =>
      match move {
        case Retried(runAt, _) =>
          && job.payload.NotBefore() <= runAt && job.attempts < job.maxAttempts
          && job.lockedAt.Some? && job.lockedAt.value <= runAt
        case Polled(runAt, payload) =>
          && job.payload.FieldPayload?
          && payload == job.payload.(checks := job.payload.checks + 1)
          && job.lockedAt.Some? && job.lockedAt.value + job.payload.pollInterval as real <= runAt
          && runAt - job.payload.pollInterval as real < job.payload.createdAt + job.payload.timeout as real
        case Finished(_, values) => Reportable(job.payload, values)
        case MarkedFailed(_) => true
        case MarkedExpired(_) => true
        case _ => false
      }
  }

  /** A pause that resumes after its due time reports at least the requested delay. */
  lemma ResumeIsReportable(payload: Payload, resumedAt: Instant)
    requires payload.PausePayload? && payload.NotBefore() <= resumedAt
    ensures Reportable(payload, PauseReturnValues(payload, resumedAt))
  {
  }

  /** The snapshot was taken from a processing row by now. */
  ghost predicate Held(job: Row, now: Instant) {
    job.payload.NotBefore() <= now && job.lockedAt.Some? && job.lockedAt.value <= now
  }

  lemma RetryMoveOk(job: Row, code: string, hint: Hint, now: Instant, random: real, settings: Settings)
    requires settings.Valid() && Held(job, now)
    ensures PcOk(job, Reporting(RetryMove(job, code, hint, now, random, settings)))
  {
    RetryAtLater(now, job.attempts, settings, random, hint);
  }

  lemma AfterRequestOk(job: Row, reply: Reply<nat>, now: Instant, random: real, settings: Settings)
    requires settings.Valid() && Held(job, now) && job.payload.RestPayload?
    ensures var next := AfterRequest(job, reply, now, random, settings);
            next.Some? ==>
              && PcOk(job, next.value)
              && (next.value.Checkpointing? <==> SettledValues(reply).Some?)
              && (next.value.Checkpointing? ==> next.value.values == SettledValues(reply).value)
              && (!next.value.Checkpointing? ==> next.value.Reporting? && EndsOrRetries(next.value.move))
    ensures var next := AfterRequest(job, reply, now, random, settings);
            && (next.None? <==> reply.Temporary? || reply.Undecryptable? || reply.Unexpected?)
            && (next.Some? && next.value.Reporting? && next.value.move.Retried? <==>
                  (reply.RateLimited? || reply.OAuthTemporary?) && job.attempts < job.maxAttempts)
  {
    match reply
    case RateLimited(hint) => RetryMoveOk(job, "rest_request_rate_limited", hint, now, random, settings);
    case OAuthTemporary => RetryMoveOk(job, "oauth_temporarily_unavailable", NO_HINT, now, random, settings);
    case _ =>
  }

  /** A move that neither completes nor polls. */
  predicate EndsOrRetries(move: Move) {
    move.Retried? || move.MarkedFailed? || move.MarkedExpired?
  }

  lemma AfterCheckOk(job: Row, reply: Reply<Option<nat>>, now: Instant, random: real, settings: Settings)
    requires settings.Valid() && Held(job, now) && job.payload.FieldPayload?
    ensures var next := AfterCheck(job, reply, now, random, settings);
            next.Some? ==>
              && PcOk(job, next.value)
              && (next.value.Delivering? || next.value.Reporting?)
              && (next.value.Reporting? ==> EndsOrRetries(next.value.move) || next.value.move.Polled?)
    ensures var next := AfterCheck(job, reply, now, random, settings);
            var open := now < job.payload.createdAt + job.payload.timeout as real;
            && (next.None? <==> reply == Unexpected)
            && (next.Some? && next.value.Reporting? && next.value.move.Polled? <==> reply == Answered(None) && open)
            && (reply == Answered(None) && !open ==> next == Some(Delivering(TimeoutValues(job.payload.checks + 1))))
            && (reply.Answered? && reply.answer.Some? ==>
                  next == Some(Delivering(FieldValues(reply.answer.value, job.payload.checks + 1, now))))
  {
    match reply
    case RateLimited(hint) => RetryMoveOk(job, "field_check_temporary_error", hint, now, random, settings);
    case Temporary(hint) => RetryMoveOk(job, "field_check_temporary_error", hint, now, random, settings);
    case OAuthTemporary => RetryMoveOk(job, "field_check_temporary_error", NO_HINT, now, random, settings);
    case _ =>
  }

  /** After a delivery the job completes exactly when the event was confirmed, with the values sent. */
  ghost predicate DeliveryOk(job: Row, values: ReturnValues, reply: Reply<bool>, next: Option<Pc>) {
    next.Some? ==>
      && PcOk(job, next.value) && next.value.Reporting?
      && (next.value.move.Finished? <==> reply == Answered(true))
      && (if next.value.move.Finished? then next.value.move.returnValues == values
          else EndsOrRetries(next.value.move))
  }

  lemma AfterSubscriptionOk(job: Row, values: ReturnValues, reply: Reply<bool>,
                            now: Instant, random: real, settings: Settings)
    requires settings.Valid() && Held(job, now) && Reportable(job.payload, values)
    ensures DeliveryOk(job, values, reply, AfterSubscription(job, values, reply, now, random, settings))
    ensures var next := AfterSubscription(job, values, reply, now, random, settings);
            && next.Some?
            && (next.value.move.Retried? <==>
                  (|| reply.RateLimited? || reply.Temporary? || reply.OAuthTemporary? || reply.InvalidResponse?
                   || reply.Transport?) && job.attempts < job.maxAttempts)
            && !next.value.move.MarkedExpired?
  {
    match reply
    case RateLimited(hint) => RetryMoveOk(job, "event_delivery_temporary_error", hint, now, random, settings);
    case Temporary(hint) => RetryMoveOk(job, "event_delivery_temporary_error", hint, now, random, settings);
    case OAuthTemporary => RetryMoveOk(job, "event_delivery_temporary_error", NO_HINT, now, random, settings);
    case InvalidResponse => RetryMoveOk(job, "event_delivery_temporary_error", NO_HINT, now, random, settings);
    case Transport => RetryMoveOk(job, "event_delivery_temporary_error", NO_HINT, now, random, settings);
    case _ =>
  }

  lemma AfterPauseOk(job: Row, values: ReturnValues, reply: Reply<bool>,
                     now: Instant, random: real, settings: Settings)
    requires settings.Valid() && Held(job, now) && values.PauseValues? && Reportable(job.payload, values)
    ensures DeliveryOk(job, values, reply, AfterPause(job, values, reply, now, random, settings))
    ensures var next := AfterPause(job, values, reply, now, random, settings);
            && (next.None? <==> reply == Unexpected)
            && (next.Some? && next.value.move.Retried? <==>
                  (|| reply.RateLimited? || reply.Temporary? || reply.OAuthTemporary? || reply.InvalidResponse?
                   || reply.Transport?) && job.attempts < job.maxAttempts)
            && (next.Some? && next.value.move.MarkedExpired? <==>
                  reply == Denied("ACCESS_DENIED") && job.lastError != Some("event_delivery_outcome_unknown"))
  {
    match reply
    case RateLimited(hint) => RetryMoveOk(job, "event_delivery_rate_limited", hint, now, random, settings);
    case Temporary(hint) => RetryMoveOk(job, "event_delivery_temporary_error", hint, now, random, settings);
    case InvalidResponse => RetryMoveOk(job, "event_delivery_invalid_response", NO_HINT, now, random, settings);
    case OAuthTemporary => RetryMoveOk(job, "oauth_temporarily_unavailable", NO_HINT, now, random, settings);
    case Transport => RetryMoveOk(job, "event_delivery_outcome_unknown", NO_HINT, now, random, settings);
    case _ =>
  }

  lemma AfterSendOk(job: Row, values: ReturnValues, reply: Reply<bool>,
                    now: Instant, random: real, settings: Settings)
    requires settings.Valid() && Held(job, now) && Reportable(job.payload, values)
    ensures DeliveryOk(job, values, reply, AfterSend(job, values, reply, now, random, settings))
  {
    if job.payload.PausePayload? {
      AfterPauseOk(job, values, reply, now, random, settings);
    } else {
      AfterSubscriptionOk(job, values, reply, now, random, settings);
    }
  }
}
