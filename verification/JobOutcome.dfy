/** What a `process` call leaves in the row it worked on, reply by reply and column by column
    (app/jobs/processor.py:99-463). */
module JobOutcome {
  import opened Prelude
  import opened JobModel
  import opened JobChange
  import opened JobProcessor
  import opened Backoff

  /** The hint of a reply, if its kind carries one. */
  function HintOf<T>(reply: Reply<T>): Hint {
    match reply
    case RateLimited(hint) => hint
    case Temporary(hint) => hint
    case _ => NO_HINT
  }

  /** With budget left in the loaded row the job comes back after exactly the backoff and the hints; without, it
      fails. */
  predicate BacksOff(before: Row, after: Row, job: Row, code: string, hint: Hint, now: Instant, random: real,
                     settings: Settings)
  {
    if job.attempts < job.maxAttempts
    then Reschedules(before, after, after.runAt, code)
         && WaitsExactly(after.runAt, now, job.attempts, settings, random, hint)
    else Ends(before, after, Failed, code + "_attempts_exhausted")
  }

  /** The outcomes of a delivery that are worth another attempt. */
  predicate WorthRetrying(reply: Reply<bool>) {
    reply.RateLimited? || reply.Temporary? || reply.OAuthTemporary? || reply.InvalidResponse? || reply.Transport?
  }

  /** Delivery of a REST-request or field-wait result. */
  predicate SubscriptionOutcome(before: Row, after: Row, job: Row, values: ReturnValues, reply: Reply<bool>,
                                now: Instant, random: real, settings: Settings)
  {
    if reply == Answered(true) then Completes(before, after, now, values)
    else if WorthRetrying(reply)
    then BacksOff(before, after, job, "event_delivery_temporary_error", HintOf(reply), now, random, settings)
    else Ends(before, after, Failed, "event_delivery_failed")
  }

  /** The error code that a pause records for an outcome worth another attempt. */
  function PauseCode(reply: Reply<bool>): string
    requires WorthRetrying(reply)
  {
    if reply.RateLimited? then "event_delivery_rate_limited"
    else if reply.Temporary? then "event_delivery_temporary_error"
    else if reply.OAuthTemporary? then "oauth_temporarily_unavailable"
    else if reply.InvalidResponse? then "event_delivery_invalid_response"
    else "event_delivery_outcome_unknown"
  }

  /** Delivery of a pause. */
  predicate PauseDelivery(before: Row, after: Row, job: Row, values: ReturnValues, reply: Reply<bool>,
                          now: Instant, random: real, settings: Settings)
    requires values.PauseValues?
  {
    if WorthRetrying(reply) then BacksOff(before, after, job, PauseCode(reply), HintOf(reply), now, random, settings)
    else
      match reply
      case Answered(true) => Completes(before, after, values.resumedAt, values)
      case Answered(false) => Ends(before, after, Failed, "event_delivery_not_confirmed")
      case Denied("ACCESS_DENIED") =>
        if job.lastError == Some("event_delivery_outcome_unknown")
        then Ends(before, after, Failed, "event_delivery_requires_manual_review")
        else Ends(before, after, Expired, "event_token_invalid_or_expired")
      case Denied(_) => Ends(before, after, Failed, "event_delivery_permission_denied")
      case AuthFailed => Ends(before, after, Failed, "portal_authentication_failed")
      case Permanent => Ends(before, after, Failed, "event_delivery_permanent_error")
      case Undecryptable => Ends(before, after, Failed, "portal_token_decryption_failed")
      case _ => after == before
  }

  /** The values of a pause that resumes: what was asked, and the whole seconds that really passed. */
  predicate PauseReports(values: ReturnValues, payload: Payload, resumedAt: Instant)
    requires payload.PausePayload?
  {
    && values.PauseValues?
    && values.scheduledAt == payload.scheduledAt && values.requestedDelay == payload.requestedDelay
    && values.resumedAt == resumedAt
    && if resumedAt < payload.scheduledAt then values.actualDelay == 0
       else values.actualDelay as real <= resumedAt - payload.scheduledAt < values.actualDelay as real + 1.0
  }

  /** A whole look at the field. */
  predicate FieldOutcome(before: Row, after: Row, job: Row, look: Reply<Option<nat>>, lookedAt: Instant,
                         lookRandom: real, reply: Reply<bool>, now: Instant, random: real, settings: Settings)
    requires job.payload.FieldPayload?
  {
    var checks := job.payload.checks + 1;
    match look
    case Answered(None) =>
      if lookedAt < job.payload.createdAt + job.payload.timeout as real
      then Polls(before, after, lookedAt + job.payload.pollInterval as real, job.payload.(checks := checks))
      else SubscriptionOutcome(before, after, job, TimeoutValues(checks), reply, now, random, settings)
    case Answered(Some(value)) =>
      SubscriptionOutcome(before, after, job, FieldValues(value, checks, lookedAt), reply, now, random, settings)
    case Undecryptable => Ends(before, after, Failed, "invalid_persisted_job")
    case Unexpected => after == before
    case _ =>
      if look.RateLimited? || look.Temporary? || look.OAuthTemporary?
      then BacksOff(before, after, job, "field_check_temporary_error", HintOf(look), lookedAt, lookRandom, settings)
      else SubscriptionOutcome(before, after, job, ErrorValues("field_check_failed"), reply, now, random, settings)
  }

  /** The values that settle an application call, reply by reply. */
  predicate SettlesWith(reply: Reply<nat>, values: ReturnValues) {
    match reply
    case Answered(result) => values == RestValues(result)
    case Transport => values == ErrorValues("rest_request_outcome_unknown")
    case _ =>
      && (reply.Denied? || reply.AuthFailed? || reply.Permanent? || reply.InvalidResponse?)
      && values == ErrorValues("rest_request_failed")
  }

  /** A whole REST request: with a checkpoint it is only delivered; otherwise a settled call is saved and delivered. */
  ghost predicate RestOutcome(before: Row, after: Row, job: Row, call: Reply<nat>, calledAt: Instant, callRandom: real,
                        reply: Reply<bool>, now: Instant, random: real, settings: Settings)
    requires job.payload.RestPayload?
  {
    if job.payload.requestCompleted
    then SubscriptionOutcome(before, after, job, job.returnValues, reply, now, random, settings)
    else if call.RateLimited?
    then BacksOff(before, after, job, "rest_request_rate_limited", call.hint, calledAt, callRandom, settings)
    else if call.OAuthTemporary?
    then BacksOff(before, after, job, "oauth_temporarily_unavailable", NO_HINT, calledAt, callRandom, settings)
    else if call.Temporary? || call.Undecryptable? || call.Unexpected? then after == before
    else
      exists saved: Row, values: ReturnValues ::
        && SettlesWith(call, values)
        && Checkpoints(before, saved, job.payload.(requestCompleted := true), values)
        && SubscriptionOutcome(saved, after, job, values, reply, now, random, settings)
  }

  /** A whole pause. */
  ghost predicate PauseOutcome(before: Row, after: Row, job: Row, resumedAt: Instant, reply: Reply<bool>, now: Instant,
                         random: real, settings: Settings)
    requires job.payload.PausePayload?
  {
    exists values: ReturnValues ::
      && PauseReports(values, job.payload, resumedAt)
      && PauseDelivery(before, after, job, values, reply, now, random, settings)
  }

  // ---------------------------------------------------------------- the decisions have these outcomes

  lemma RetryMoveBacksOff(before: Row, job: Row, code: string, hint: Hint, now: Instant, random: real,
                          settings: Settings)
    ensures BacksOff(before, Moved(before, RetryMove(job, code, hint, now, random, settings)), job, code, hint, now,
                     random, settings)
  {
    RetryAtWaits(now, job.attempts, settings, random, hint);
  }

  /** The row after a decision to report, or unchanged when the exception escapes. */
  function Reported(before: Row, next: Option<Pc>): Row {
    if next.Some? && next.value.Reporting? then Moved(before, next.value.move) else before
  }

  lemma AfterSubscriptionMeans(before: Row, job: Row, values: ReturnValues, reply: Reply<bool>,
                               now: Instant, random: real, settings: Settings)
    ensures var next := AfterSubscription(job, values, reply, now, random, settings);
            SubscriptionOutcome(before, Reported(before, next), job, values, reply, now, random, settings)
  {
    if WorthRetrying(reply) {
      RetryMoveBacksOff(before, job, "event_delivery_temporary_error", HintOf(reply), now, random, settings);
    }
  }

  lemma AfterPauseMeans(before: Row, job: Row, values: ReturnValues, reply: Reply<bool>,
                        now: Instant, random: real, settings: Settings)
    requires values.PauseValues?
    ensures var next := AfterPause(job, values, reply, now, random, settings);
            PauseDelivery(before, Reported(before, next), job, values, reply, now, random, settings)
  {
    if WorthRetrying(reply) {
      RetryMoveBacksOff(before, job, PauseCode(reply), HintOf(reply), now, random, settings);
    }
  }

  lemma PauseValuesReport(payload: Payload, resumedAt: Instant)
    requires payload.PausePayload?
    ensures PauseReports(PauseReturnValues(payload, resumedAt), payload, resumedAt)
  {
  }

  lemma SettledValuesMean(reply: Reply<nat>)
    ensures SettledValues(reply).Some? ==> SettlesWith(reply, SettledValues(reply).value)
    ensures SettledValues(reply).None? <==>
              || reply.RateLimited? || reply.Temporary? || reply.OAuthTemporary?
              || reply.Undecryptable? || reply.Unexpected?
  {
  }
}
