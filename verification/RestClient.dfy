/** Classification of REST responses and of Retry-After (app/bitrix/client.py), and what it means for retries. */
module RestClient {
  import opened Prelude
  import opened Backoff
  import opened JobModel
  import opened JobProcessor

  /** A Retry-After header after syntactic parsing (section 10.2.3 of RFC 9110). */
  datatype RetryAfter = Seconds(n: nat) | HttpDate(at: Instant) | Garbage

  datatype IntField = Absent | AnInteger(value: int) | NotAnInteger

  datatype TimeField = NoTime | TimeMap(operatingReset: Option<Instant>) | NotAMap

  /** `error` is present as text, or present but empty or not a text. */
  datatype ErrorField = NoError | ErrorCode(code: string) | OddError

  datatype Body =
    | NotAMapping
    | Mapping(error: ErrorField, result: Option<nat>, next: IntField, total: IntField, time: TimeField)

  datatype Response = Response(status: nat, jsonContent: bool, retryAfter: Option<RetryAfter>, body: Body)

  function Ceil(x: real): int {
    -((-x).Floor)
  }

  /** Seconds to wait; an unparsable header is no hint. */
  function ParseRetryAfter(header: Option<RetryAfter>, now: Instant): Option<real> {
    match header
    case Some(Seconds(n)) => Some(n as real)
    case Some(HttpDate(at)) => Some((if Ceil(at - now) < 0 then 0 else Ceil(at - now)) as real)
    case _ => None
  }

  function UpperChar(c: char): char {
    if 'a' <= c <= 'z' then c - 'a' + 'A' else c
  }

  function Upper(code: string): (upper: string)
    ensures |upper| == |code|
    ensures forall i | 0 <= i < |code| ::
              if 'a' <= code[i] <= 'z' then 'A' <= upper[i] <= 'Z' && upper[i] - 'A' == code[i] - 'a'
              else upper[i] == code[i]
  {
    seq(|code|, i requires 0 <= i < |code| => UpperChar(code[i]))
  }

  const AUTHENTICATION_CODES := {"EXPIRED_TOKEN", "NO_AUTH_FOUND", "INVALID_TOKEN", "WRONG_AUTH_TYPE"}
  const PERMISSION_CODES := {"ACCESS_DENIED", "INVALID_CREDENTIALS", "USER_ACCESS_ERROR", "INSUFFICIENT_SCOPE"}
  const RATE_LIMIT_CODES := {"QUERY_LIMIT_EXCEEDED", "OPERATION_TIME_LIMIT"}
  const TEMPORARY_CODES := {"INTERNAL_SERVER_ERROR", "ERROR_UNEXPECTED_ANSWER"}
  const PERMANENT_CODES := {"OVERLOAD_LIMIT"}
  const UNKNOWN_CODE := "UNKNOWN_BITRIX_ERROR"

  predicate Successful(status: nat) {
    200 <= status <= 299
  }

  function UnknownError<T>(status: nat, hint: Hint): Reply<T> {
    if status == 429 then RateLimited(hint)
    else if status in {500, 502, 503, 504} then Temporary(hint)
    else Permanent
  }

  function ClassifyError<T>(response: Response, error: ErrorField, time: TimeField, now: Instant): Reply<T> {
    var code := if error.ErrorCode? && error.code != "" then error.code else UNKNOWN_CODE;
    var normalized := Upper(code);
    var hint := Hint(ParseRetryAfter(response.retryAfter, now), if time.TimeMap? then time.operatingReset else None);
    if normalized in AUTHENTICATION_CODES then AuthFailed
    else if normalized in PERMISSION_CODES then Denied(code)
    else if normalized in RATE_LIMIT_CODES then RateLimited(hint)
    else if normalized in TEMPORARY_CODES then Temporary(hint)
    else if normalized in PERMANENT_CODES then Permanent
    else UnknownError(response.status, hint)
  }

  /** `_parse_response`: an error field decides before the HTTP status, the status before the content. */
  function Classify(response: Response, now: Instant): Reply<nat> {
    match response.body
    case Mapping(error, result, next, total, time) =>
      if !error.NoError? then ClassifyError(response, error, time, now)
      else if !Successful(response.status) then
        UnknownError(response.status, Hint(ParseRetryAfter(response.retryAfter, now), None))
      else if !response.jsonContent || result.None? || next.NotAnInteger? || total.NotAnInteger? || time.NotAMap?
      then InvalidResponse
      else Answered(result.value)
    case NotAMapping =>
      if !Successful(response.status) then
        UnknownError(response.status, Hint(ParseRetryAfter(response.retryAfter, now), None))
      else InvalidResponse
  }

  /** The response carries an error field with one of these codes, in any letter case. */
  predicate Names(response: Response, codes: set<string>) {
    response.body.Mapping? && response.body.error.ErrorCode? && Upper(response.body.error.code) in codes
  }

  predicate HasError(response: Response) {
    response.body.Mapping? && !response.body.error.NoError?
  }

  /** No code of the response decides, so that its HTTP status does. */
  predicate StatusDecides(response: Response) {
    && (HasError(response) || response.status < 200 || 300 <= response.status)
    && !Names(response, {"EXPIRED_TOKEN", "NO_AUTH_FOUND", "INVALID_TOKEN", "WRONG_AUTH_TYPE", "ACCESS_DENIED",
                         "INVALID_CREDENTIALS", "USER_ACCESS_ERROR", "INSUFFICIENT_SCOPE", "QUERY_LIMIT_EXCEEDED",
                         "OPERATION_TIME_LIMIT", "INTERNAL_SERVER_ERROR", "ERROR_UNEXPECTED_ANSWER", "OVERLOAD_LIMIT"})
  }

  /** Which response becomes which reply: the listed codes first, then the HTTP status, then the content. */
  lemma ClassificationIsExact(response: Response, now: Instant)
    ensures Classify(response, now).AuthFailed? <==>
              Names(response, {"EXPIRED_TOKEN", "NO_AUTH_FOUND", "INVALID_TOKEN", "WRONG_AUTH_TYPE"})
    ensures Classify(response, now).Denied? <==>
              Names(response, {"ACCESS_DENIED", "INVALID_CREDENTIALS", "USER_ACCESS_ERROR", "INSUFFICIENT_SCOPE"})
    ensures Classify(response, now).Denied? ==> response.body.error == ErrorCode(Classify(response, now).code)
    ensures Classify(response, now).RateLimited? <==>
              || Names(response, {"QUERY_LIMIT_EXCEEDED", "OPERATION_TIME_LIMIT"})
              || (StatusDecides(response) && response.status == 429)
    ensures Classify(response, now).Temporary? <==>
              || Names(response, {"INTERNAL_SERVER_ERROR", "ERROR_UNEXPECTED_ANSWER"})
              || (StatusDecides(response) && response.status in {500, 502, 503, 504})
    ensures Classify(response, now).Permanent? <==>
              || Names(response, {"OVERLOAD_LIMIT"})
              || (StatusDecides(response) && response.status !in {429, 500, 502, 503, 504})
    ensures Classify(response, now).InvalidResponse? <==>
              && !HasError(response) && 200 <= response.status <= 299
              && (|| !response.jsonContent || response.body.NotAMapping? || response.body.result == None
                  || response.body.next.NotAnInteger? || response.body.total.NotAnInteger?
                  || response.body.time.NotAMap?)
  {
    UnknownCodeIsUnlisted();
  }

  /** What a reply says about coming back: the header of the response, and the reset that its error names. */
  lemma HintIsExact(response: Response, now: Instant)
    requires Classify(response, now).RateLimited? || Classify(response, now).Temporary?
    ensures Classify(response, now).hint.retryAfter == ParseRetryAfter(response.retryAfter, now)
    ensures Classify(response, now).hint.operatingReset
         == if NamesReset(response) then response.body.time.operatingReset else None
  {
    UnknownCodeIsUnlisted();
  }

  /** The error codes that say by themselves that the call may be repeated. */
  predicate RepeatCode(error: ErrorField) {
    error.ErrorCode? && Upper(error.code) in RATE_LIMIT_CODES + TEMPORARY_CODES
  }

  /** The error codes that settle a call whatever the HTTP status. */
  predicate FinalCode(error: ErrorField) {
    error.ErrorCode? && Upper(error.code) in AUTHENTICATION_CODES + PERMISSION_CODES + PERMANENT_CODES
  }

  const LISTED_CODES :=
    AUTHENTICATION_CODES + PERMISSION_CODES + RATE_LIMIT_CODES + TEMPORARY_CODES + PERMANENT_CODES

  lemma UnknownCodeIsUnlisted()
    ensures Upper(UNKNOWN_CODE) !in LISTED_CODES && Upper("") !in LISTED_CODES
  {
    var unknown := Upper(UNKNOWN_CODE);
    assert |unknown| == 20 && unknown[0] == 'U' && Upper("") == "";
  }

  /** Exactly which responses leave an application call unsettled, so that a later claim of the job may issue it again:
      a throttling or temporary code under any HTTP status, and otherwise 429, 500, 502, 503 or 504 without a final
      code. */
  lemma WhichResponsesRepeat(response: Response, now: Instant)
    ensures SettledValues(Classify(response, now)).None?
       <==> var error := if response.body.Mapping? then response.body.error else NoError;
            RepeatCode(error) || (response.status in {429, 500, 502, 503, 504} && !FinalCode(error))
  {
    UnknownCodeIsUnlisted();
  }

  /** Only a success without an error field answers a call, and it answers with the result. */
  lemma WhichResponsesAnswer(response: Response, now: Instant, value: nat)
    ensures Classify(response, now) == Answered(value)
       <==> && Successful(response.status) && response.jsonContent
            && response.body.Mapping? && response.body.error.NoError? && response.body.result == Some(value)
            && !response.body.next.NotAnInteger? && !response.body.total.NotAnInteger? && !response.body.time.NotAMap?
  {
  }

  /** The parsed hint is never negative; waiting it out never comes back before the date, nor a second too late. */
  lemma RetryAfterIsExact(header: Option<RetryAfter>, now: Instant)
    ensures ParseRetryAfter(header, now).Some? ==> 0.0 <= ParseRetryAfter(header, now).value
    ensures ParseRetryAfter(header, now).None? <==> header == None || header == Some(Garbage)
    ensures header.Some? && header.value.Seconds? ==>
              ParseRetryAfter(header, now) == Some(header.value.n as real)
    ensures header.Some? && header.value.HttpDate? && header.value.at <= now ==>
              ParseRetryAfter(header, now) == Some(0.0)
    ensures header.Some? && header.value.HttpDate? ==>
              && ParseRetryAfter(header, now).Some?
              && header.value.at <= now + ParseRetryAfter(header, now).value
              && (now <= header.value.at ==> now + ParseRetryAfter(header, now).value < header.value.at + 1.0)
  {
  }

  predicate NamesReset(response: Response) {
    && response.body.Mapping? && !response.body.error.NoError?
    && response.body.time.TimeMap? && response.body.time.operatingReset.Some?
  }

  /** The earliest instant that a response read at `seen` asks callers to wait for, as far as its header says. */
  function HeaderAsks(header: Option<RetryAfter>, seen: Instant): Option<Instant> {
    match header
    case Some(Seconds(n)) => Some(seen + n as real)
    case Some(HttpDate(at)) => Some(at)
    case _ => None
  }

  /** From response to queue, in every step that retries: a job rescheduled after a throttled or temporary failure does
      not run before what the header asks for, in seconds or as a date, nor before the reset that the response named. */
  lemma HintedJobWaits(job: Row, response: Response, code: string, seen: Instant, now: Instant, random: real,
                       settings: Settings)
    requires settings.Valid() && seen <= now
    requires Classify(response, seen).RateLimited? || Classify(response, seen).Temporary?
    ensures var move := RetryMove(job, code, Classify(response, seen).hint, now, random, settings);
            var asked := HeaderAsks(response.retryAfter, seen);
            move.Retried? ==>
              && (asked.Some? ==> asked.value <= move.runAt)
              && (NamesReset(response) ==> response.body.time.operatingReset.value <= move.runAt)
  {
    RetryAfterIsExact(response.retryAfter, seen);
    var hint := Classify(response, seen).hint;
    RetryAtIsLeast(now, job.attempts, settings, random, hint, RetryAt(now, job.attempts, settings, random, hint));
  }
}
