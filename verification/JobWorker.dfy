/** The processor and the worker loop as they run on the job table, and why an uninterrupted `process` call is a run of
    the queue's transition system (app/jobs/processor.py, app/jobs/worker.py). */
module JobWorker {
  import opened Prelude
  import opened JobModel
  import opened JobRepository
  import opened JobChange
  import opened JobProcessor
  import opened JobOutcome
  import opened JobQueue
  import opened Backoff

  /** What the outside world answers during one `process` call, and when. */
  datatype Script = Script(
    usable: bool,
    firstAt: Instant, request: Reply<nat>, field: Reply<Option<nat>>, firstRandom: real,
    sentAt: Instant, delivered: Reply<bool>, sentRandom: real)

  // ---------------------------------------------------------------- one episode, as events

  /** The event that comes next for a task that is never interrupted. */
  function EventFor(task: Task, w: WorkerId, x: Script): Event {
    match task.pc
    case Loaded =>
      (match task.job.payload
       case PausePayload(_, _) => Propose(w)
       case RestPayload(_, _, completed) => if completed then Resume(w) else Issue(w)
       case FieldPayload(_, _, _, _) => Check(w, x.field, x.firstRandom))
    case Calling => Request(w, x.request, x.firstRandom)
    case Checkpointing(_) => Save(w)
    case Delivering(_) => Dispatch(w)
    case Sending(_) => Send(w, x.delivered, x.sentRandom)
    case Reporting(_) => Report(w)
  }

  /** The clock that the event reads. */
  function ReadingFor(task: Task, x: Script): Instant {
    if task.pc.Loaded? || task.pc.Calling? then x.firstAt else x.sentAt
  }

  function Stage(pc: Pc): nat {
    match pc
    case Loaded => 6
    case Calling => 5
    case Checkpointing(_) => 4
    case Delivering(_) => 3
    case Sending(_) => 2
    case Reporting(_) => 1
  }

  predicate OnTrack(task: Task) {
    match task.pc
    case Loaded => true
    case Calling => task.job.payload.RestPayload?
    case Checkpointing(_) => task.job.payload.RestPayload?
    case Delivering(values) => task.job.payload.PausePayload? ==> values.PauseValues?
    case Sending(values) => task.job.payload.PausePayload? ==> values.PauseValues?
    case Reporting(move) => !move.Claimed? && !move.Recovered?
  }

  lemma NextStaysOnTrack(task: Task, w: WorkerId, x: Script, clock: Instant, config: Config)
    requires OnTrack(task)
    ensures OnTask(EventFor(task, w, x)) && Ready(task, EventFor(task, w, x))
    ensures var next := NextPc(task, EventFor(task, w, x), clock, config);
            next.Some? ==> OnTrack(task.(pc := next.value)) && Stage(next.value) < Stage(task.pc)
  {
  }

  /** The table after the task has run to its end. */
  ghost function Finish(rows: Table, task: Task, x: Script, config: Config): Table
    requires OnTrack(task)
    decreases Stage(task.pc)
  {
    NextStaysOnTrack(task, 0, x, ReadingFor(task, x), config);
    var e := EventFor(task, 0, x);
    var written := WriteOf(task, e);
    var rows' := if written.Some? then Transition(rows, task.id, written.value) else rows;
    var next := NextPc(task, e, ReadingFor(task, x), config);
    if next.Some? then Finish(rows', task.(pc := next.value), x, config) else rows'
  }

  lemma FinishReporting(rows: Table, task: Task, x: Script, config: Config)
    requires OnTrack(task) && task.pc.Reporting?
    ensures Finish(rows, task, x, config) == Transition(rows, task.id, task.pc.move)
  {
  }

  lemma FinishSending(rows: Table, task: Task, x: Script, config: Config)
    requires OnTrack(task) && task.pc.Sending?
    ensures var next := AfterSend(task.job, task.pc.values, x.delivered, x.sentAt, x.sentRandom, config.retry);
            && (next.Some? ==> next.value.Reporting?)
            && Finish(rows, task, x, config) == if next.Some? then Transition(rows, task.id, next.value.move) else rows
  {
    var next := AfterSend(task.job, task.pc.values, x.delivered, x.sentAt, x.sentRandom, config.retry);
    NextStaysOnTrack(task, 0, x, x.sentAt, config);
    if next.Some? {
      FinishReporting(rows, task.(pc := next.value), x, config);
    }
  }

  /** A delivery goes out, ends, and its outcome is reported, if there is one. */
  lemma FinishDelivering(rows: Table, id: JobId, job: Row, values: ReturnValues, x: Script, config: Config)
    requires OnTrack(Task(id, job, Delivering(values)))
    ensures var next := AfterSend(job, values, x.delivered, x.sentAt, x.sentRandom, config.retry);
            && (next.Some? ==> next.value.Reporting?)
            && Finish(rows, Task(id, job, Delivering(values)), x, config)
               == if next.Some? then Transition(rows, id, next.value.move) else rows
  {
    FinishSending(rows, Task(id, job, Sending(values)), x, config);
    assert Finish(rows, Task(id, job, Delivering(values)), x, config)
        == Finish(rows, Task(id, job, Sending(values)), x, config);
  }

  /** A REST request either resumes with its checkpoint or goes to the call. */
  lemma FinishRest(rows: Table, id: JobId, job: Row, x: Script, config: Config)
    requires job.payload.RestPayload?
    ensures Finish(rows, Task(id, job, Loaded), x, config)
         == if job.payload.requestCompleted then Finish(rows, Task(id, job, Delivering(job.returnValues)), x, config)
            else Finish(rows, Task(id, job, Calling), x, config)
  {
  }

  /** The table after one whole `process` call. */
  ghost function Processed(rows: Table, id: JobId, x: Script, config: Config): Table {
    var task := LoadedTask(rows, id, x.usable);
    if task.Some? then Finish(rows, task.value, x, config) else rows
  }

  lemma WorkerDoesNotMatter(task: Task, v: WorkerId, w: WorkerId, x: Script, clock: Instant, config: Config)
    requires OnTrack(task)
    ensures OnTask(EventFor(task, v, x)) && Ready(task, EventFor(task, v, x))
    ensures OnTask(EventFor(task, w, x)) && Ready(task, EventFor(task, w, x))
    ensures NextPc(task, EventFor(task, v, x), clock, config) == NextPc(task, EventFor(task, w, x), clock, config)
    ensures WriteOf(task, EventFor(task, v, x)) == WriteOf(task, EventFor(task, w, x))
  {
  }

  /** One event of the transition system does to the table and the task what one step of `Finish` does. */
  lemma StepIsEvent(r: Run, w: WorkerId, x: Script) returns (next: Run)
    requires Valid(r) && After(r).Stands(w) && OnTrack(After(r).TaskOf(w))
    requires After(r).clock <= ReadingFor(After(r).TaskOf(w), x)
    ensures Valid(next) && Extends(next, r)
    ensures var s, t := After(r), After(next); var task := s.TaskOf(w);
            var e := EventFor(task, 0, x);
            && t.config == s.config && t.clock == ReadingFor(task, x) && t.At(w).queue == s.At(w).queue
            && OnTask(e) && Ready(task, e)
            && t.rows == (if WriteOf(task, e).Some? then Transition(s.rows, task.id, WriteOf(task, e).value)
                          else s.rows)
            && (t.Stands(w) <==> NextPc(task, e, t.clock, s.config).Some?)
            && (t.Stands(w) ==> t.TaskOf(w) == task.(pc := NextPc(task, e, t.clock, s.config).value))
  {
    var task := After(r).TaskOf(w);
    var reading := ReadingFor(task, x);
    WorkerDoesNotMatter(task, 0, w, x, reading, After(r).config);
    var ticked := Then(r, Tick(reading));
    assert Valid(ticked) && Extends(ticked, r);
    next := Then(ticked, EventFor(task, w, x));
  }

  lemma {:induction false} ExtendsTransitive(a: Run, b: Run, c: Run)
    requires Extends(b, a) && Extends(c, b)
    ensures Extends(c, a)
  {
    if c != b {
      ExtendsTransitive(a, b, c.before);
    }
  }

  /** An uninterrupted episode is a run of the transition system that ends with the worker free and the same table. */
  lemma {:induction false} EpisodeIsRun(r: Run, w: WorkerId, x: Script) returns (end: Run)
    requires Valid(r) && After(r).Stands(w) && OnTrack(After(r).TaskOf(w))
    requires After(r).clock <= ReadingFor(After(r).TaskOf(w), x) && x.firstAt <= x.sentAt
    ensures Valid(end) && Extends(end, r) && After(end).At(w) == Worker(After(r).At(w).queue, None)
    ensures After(end).config == After(r).config && After(end).clock <= x.sentAt
    ensures After(end).rows == Finish(After(r).rows, After(r).TaskOf(w), x, After(r).config)
    decreases Stage(After(r).TaskOf(w).pc)
  {
    var task := After(r).TaskOf(w);
    NextStaysOnTrack(task, 0, x, ReadingFor(task, x), After(r).config);
    var next := StepIsEvent(r, w, x);
    if After(next).Stands(w) {
      end := EpisodeIsRun(next, w, x);
      ExtendsTransitive(r, next, end);
    } else {
      end := next;
    }
  }

  /** One whole `process` call, from the load on, is a run of the transition system with the same final table. */
  lemma ProcessIsRun(r: Run, w: WorkerId, x: Script) returns (end: Run)
    requires Valid(r) && After(r).At(w).task.None? && After(r).At(w).queue != []
    requires After(r).clock <= x.firstAt <= x.sentAt
    ensures Valid(end) && Extends(end, r) && After(end).At(w) == Worker(After(r).At(w).queue[1..], None)
    ensures After(end).config == After(r).config && After(end).clock <= x.sentAt
    ensures After(end).rows == Processed(After(r).rows, After(r).At(w).queue[0], x, After(r).config)
  {
    var load := Load(w, x.usable);
    assert Enabled(After(r), load);
    var loaded := Then(r, load);
    assert Valid(loaded) && Extends(loaded, r);
    if After(loaded).Stands(w) {
      end := EpisodeIsRun(loaded, w, x);
      ExtendsTransitive(r, loaded, end);
    } else {
      end := loaded;
    }
  }

  // ---------------------------------------------------------------- what an episode leaves in its row

  ghost predicate InProcess(rows: Table, id: JobId) {
    id in rows && rows[id].status == Processing
  }

  /** A row that is not processing is left alone, and so is every other row. */
  lemma {:induction false} FinishNeedsProcessing(rows: Table, task: Task, x: Script, config: Config)
    requires OnTrack(task) && !InProcess(rows, task.id)
    ensures Finish(rows, task, x, config) == rows
    decreases Stage(task.pc)
  {
    NextStaysOnTrack(task, 0, x, ReadingFor(task, x), config);
    var next := NextPc(task, EventFor(task, 0, x), ReadingFor(task, x), config);
    if next.Some? {
      FinishNeedsProcessing(rows, task.(pc := next.value), x, config);
    }
  }

  lemma DeliveryMeans(rows: Table, id: JobId, job: Row, values: ReturnValues, x: Script, config: Config)
    requires OnTrack(Task(id, job, Delivering(values))) && InProcess(rows, id)
    ensures var after := Finish(rows, Task(id, job, Delivering(values)), x, config);
            && OnlyRow(rows, after, id)
            && if job.payload.PausePayload?
               then PauseDelivery(rows[id], after[id], job, values, x.delivered, x.sentAt, x.sentRandom, config.retry)
               else SubscriptionOutcome(rows[id], after[id], job, values, x.delivered, x.sentAt, x.sentRandom,
                                        config.retry)
  {
    FinishDelivering(rows, id, job, values, x, config);
    if job.payload.PausePayload? {
      AfterPauseMeans(rows[id], job, values, x.delivered, x.sentAt, x.sentRandom, config.retry);
    } else {
      AfterSubscriptionMeans(rows[id], job, values, x.delivered, x.sentAt, x.sentRandom, config.retry);
    }
  }

  lemma FinishCheckpointing(rows: Table, id: JobId, job: Row, values: ReturnValues, x: Script, config: Config)
    requires job.payload.RestPayload?
    ensures Finish(rows, Task(id, job, Checkpointing(values)), x, config)
         == Finish(Transition(rows, id, Saved(job.payload.(requestCompleted := true), values)),
                   Task(id, job, Delivering(values)), x, config)
  {
  }

  lemma FinishCalling(rows: Table, id: JobId, job: Row, x: Script, config: Config)
    requires job.payload.RestPayload?
    ensures var next := AfterRequest(job, x.request, x.firstAt, x.firstRandom, config.retry);
            && (next.Some? ==> OnTrack(Task(id, job, next.value)))
            && Finish(rows, Task(id, job, Calling), x, config)
               == if next.Some? then Finish(rows, Task(id, job, next.value), x, config) else rows
  {
    NextStaysOnTrack(Task(id, job, Calling), 0, x, x.firstAt, config);
  }

  lemma SavedCallMeans(rows: Table, id: JobId, job: Row, values: ReturnValues, x: Script, config: Config)
    requires job.payload.RestPayload? && !job.payload.requestCompleted && InProcess(rows, id)
    requires SettledValues(x.request) == Some(values)
    ensures var after := Finish(rows, Task(id, job, Checkpointing(values)), x, config);
            && OnlyRow(rows, after, id)
            && RestOutcome(rows[id], after[id], job, x.request, x.firstAt, x.firstRandom, x.delivered, x.sentAt,
                           x.sentRandom, config.retry)
  {
    var payload := job.payload.(requestCompleted := true);
    var saved := Moved(rows[id], Saved(payload, values));
    SettledValuesMean(x.request);
    FinishCheckpointing(rows, id, job, values, x, config);
    assert Checkpoints(rows[id], saved, payload, values);
    DeliveryMeans(rows[id := saved], id, job, values, x, config);
  }

  lemma CallMeans(rows: Table, id: JobId, job: Row, x: Script, config: Config)
    requires job.payload.RestPayload? && !job.payload.requestCompleted && InProcess(rows, id)
    ensures var after := Finish(rows, Task(id, job, Calling), x, config);
            && OnlyRow(rows, after, id)
            && RestOutcome(rows[id], after[id], job, x.request, x.firstAt, x.firstRandom, x.delivered, x.sentAt,
                           x.sentRandom, config.retry)
  {
    FinishCalling(rows, id, job, x, config);
    SettledValuesMean(x.request);
    var next := AfterRequest(job, x.request, x.firstAt, x.firstRandom, config.retry);
    if next.Some? && next.value.Checkpointing? {
      SavedCallMeans(rows, id, job, next.value.values, x, config);
    } else if next.Some? {
      FinishReporting(rows, Task(id, job, next.value), x, config);
      RetryMoveBacksOff(rows[id], job, "rest_request_rate_limited", HintOf(x.request), x.firstAt, x.firstRandom,
                        config.retry);
      RetryMoveBacksOff(rows[id], job, "oauth_temporarily_unavailable", NO_HINT, x.firstAt, x.firstRandom,
                        config.retry);
    }
  }

  lemma RestMeans(rows: Table, id: JobId, job: Row, x: Script, config: Config)
    requires job.payload.RestPayload? && InProcess(rows, id)
    ensures var after := Finish(rows, Task(id, job, Loaded), x, config);
            && OnlyRow(rows, after, id)
            && RestOutcome(rows[id], after[id], job, x.request, x.firstAt, x.firstRandom, x.delivered, x.sentAt,
                           x.sentRandom, config.retry)
  {
    FinishRest(rows, id, job, x, config);
    if job.payload.requestCompleted {
      DeliveryMeans(rows, id, job, job.returnValues, x, config);
    } else {
      CallMeans(rows, id, job, x, config);
    }
  }

  lemma FinishLooking(rows: Table, id: JobId, job: Row, x: Script, config: Config)
    requires job.payload.FieldPayload?
    ensures var next := AfterCheck(job, x.field, x.firstAt, x.firstRandom, config.retry);
            && (next.Some? ==> OnTrack(Task(id, job, next.value)))
            && Finish(rows, Task(id, job, Loaded), x, config)
               == if next.Some? then Finish(rows, Task(id, job, next.value), x, config) else rows
  {
    NextStaysOnTrack(Task(id, job, Loaded), 0, x, x.firstAt, config);
  }

  lemma FieldMeans(rows: Table, id: JobId, job: Row, x: Script, config: Config)
    requires job.payload.FieldPayload? && InProcess(rows, id)
    ensures var after := Finish(rows, Task(id, job, Loaded), x, config);
            && OnlyRow(rows, after, id)
            && FieldOutcome(rows[id], after[id], job, x.field, x.firstAt, x.firstRandom, x.delivered, x.sentAt,
                            x.sentRandom, config.retry)
  {
    FinishLooking(rows, id, job, x, config);
    var next := AfterCheck(job, x.field, x.firstAt, x.firstRandom, config.retry);
    if next.Some? && next.value.Delivering? {
      DeliveryMeans(rows, id, job, next.value.values, x, config);
    } else if next.Some? {
      FinishReporting(rows, Task(id, job, next.value), x, config);
      RetryMoveBacksOff(rows[id], job, "field_check_temporary_error", HintOf(x.field), x.firstAt, x.firstRandom,
                        config.retry);
    }
  }

  lemma PauseMeans(rows: Table, id: JobId, job: Row, x: Script, config: Config)
    requires job.payload.PausePayload? && InProcess(rows, id)
    ensures var after := Finish(rows, Task(id, job, Loaded), x, config);
            && OnlyRow(rows, after, id)
            && PauseOutcome(rows[id], after[id], job, x.firstAt, x.delivered, x.sentAt, x.sentRandom, config.retry)
  {
    var values := PauseReturnValues(job.payload, x.firstAt);
    assert Finish(rows, Task(id, job, Loaded), x, config) == Finish(rows, Task(id, job, Delivering(values)), x, config);
    PauseValuesReport(job.payload, x.firstAt);
    DeliveryMeans(rows, id, job, values, x, config);
  }

  /** What a REST-request job leaves behind: the outcome in its own processing row, and nothing else. */
  ghost predicate RestLeft(before: Table, after: Table, id: JobId, job: Row, x: Script, config: Config)
    requires job.payload.RestPayload?
  {
    if InProcess(before, id)
    then
      && OnlyRow(before, after, id)
      && RestOutcome(before[id], after[id], job, x.request, x.firstAt, x.firstRandom, x.delivered, x.sentAt,
                     x.sentRandom, config.retry)
    else after == before
  }

  ghost predicate FieldLeft(before: Table, after: Table, id: JobId, job: Row, x: Script, config: Config)
    requires job.payload.FieldPayload?
  {
    if InProcess(before, id)
    then
      && OnlyRow(before, after, id)
      && FieldOutcome(before[id], after[id], job, x.field, x.firstAt, x.firstRandom, x.delivered, x.sentAt,
                      x.sentRandom, config.retry)
    else after == before
  }

  ghost predicate PauseLeft(before: Table, after: Table, id: JobId, job: Row, x: Script, config: Config)
    requires job.payload.PausePayload?
  {
    if InProcess(before, id)
    then
      && OnlyRow(before, after, id)
      && PauseOutcome(before[id], after[id], job, x.firstAt, x.delivered, x.sentAt, x.sentRandom, config.retry)
    else after == before
  }

  lemma RestLeftBehind(rows: Table, id: JobId, job: Row, x: Script, config: Config)
    requires job.payload.RestPayload?
    ensures RestLeft(rows, Finish(rows, Task(id, job, Loaded), x, config), id, job, x, config)
  {
    if InProcess(rows, id) {
      RestMeans(rows, id, job, x, config);
    } else {
      FinishNeedsProcessing(rows, Task(id, job, Loaded), x, config);
    }
  }

  lemma FieldLeftBehind(rows: Table, id: JobId, job: Row, x: Script, config: Config)
    requires job.payload.FieldPayload?
    ensures FieldLeft(rows, Finish(rows, Task(id, job, Loaded), x, config), id, job, x, config)
  {
    if InProcess(rows, id) {
      FieldMeans(rows, id, job, x, config);
    } else {
      FinishNeedsProcessing(rows, Task(id, job, Loaded), x, config);
    }
  }

  lemma PauseLeftBehind(rows: Table, id: JobId, job: Row, x: Script, config: Config)
    requires job.payload.PausePayload?
    ensures PauseLeft(rows, Finish(rows, Task(id, job, Loaded), x, config), id, job, x, config)
  {
    if InProcess(rows, id) {
      PauseMeans(rows, id, job, x, config);
    } else {
      FinishNeedsProcessing(rows, Task(id, job, Loaded), x, config);
    }
  }

  /** What one whole `process` call leaves in a processing row. */
  ghost predicate ProcessOutcome(before: Row, after: Row, x: Script, config: Config) {
    if !x.usable then Ends(before, after, Failed, "invalid_persisted_job")
    else
      match before.payload
      case PausePayload(_, _) =>
        PauseOutcome(before, after, before, x.firstAt, x.delivered, x.sentAt, x.sentRandom, config.retry)
      case RestPayload(_, _, _) =>
        RestOutcome(before, after, before, x.request, x.firstAt, x.firstRandom, x.delivered, x.sentAt, x.sentRandom,
                    config.retry)
      case FieldPayload(_, _, _, _) =>
        FieldOutcome(before, after, before, x.field, x.firstAt, x.firstRandom, x.delivered, x.sentAt, x.sentRandom,
                     config.retry)
  }

  // ---------------------------------------------------------------- the processor on the table

  class AutomationJobProcessor {
    const repository: AutomationJobRepository
    const config: Config

    constructor (repository: AutomationJobRepository, config: Config)
      ensures this.repository == repository && this.config == config
    {
      this.repository := repository;
      this.config := config;
    }

    /** `_retry`: give up once the loaded row has no budget left, otherwise back off. */
    method RetryJob(id: JobId, job: Row, code: string, hint: Hint, now: Instant, random: real)
      modifies repository
      ensures repository.rows ==
              Transition(old(repository.rows), id, RetryMove(job, code, hint, now, random, config.retry))
      ensures if InProcess(old(repository.rows), id)
              then
                && OnlyRow(old(repository.rows), repository.rows, id)
                && BacksOff(old(repository.rows)[id], repository.rows[id], job, code, hint, now, random, config.retry)
              else repository.rows == old(repository.rows)
    {
      if InProcess(repository.rows, id) {
        RetryMoveBacksOff(repository.rows[id], job, code, hint, now, random, config.retry);
      }
      if job.attempts >= job.maxAttempts {
        var _ := repository.MarkFailed(id, code + "_attempts_exhausted");
      } else {
        var _ := repository.ScheduleRetry(id, RetryAt(now, job.attempts, config.retry, random, hint), code);
      }
    }

    /** `_deliver_subscription` */
    method DeliverSubscription(id: JobId, job: Row, values: ReturnValues, x: Script)
      requires !job.payload.PausePayload?
      modifies repository
      ensures repository.rows == Finish(old(repository.rows), Task(id, job, Delivering(values)), x, config)
      ensures if InProcess(old(repository.rows), id)
              then
                && OnlyRow(old(repository.rows), repository.rows, id)
                && SubscriptionOutcome(old(repository.rows)[id], repository.rows[id], job, values, x.delivered,
                                       x.sentAt, x.sentRandom, config.retry)
              else repository.rows == old(repository.rows)
    {
      if InProcess(repository.rows, id) {
        DeliveryMeans(repository.rows, id, job, values, x, config);
      } else {
        FinishNeedsProcessing(repository.rows, Task(id, job, Delivering(values)), x, config);
      }
      FinishDelivering(repository.rows, id, job, values, x, config);
      match x.delivered {
        case Answered(true) =>
          var _ := repository.MarkCompleted(id, x.sentAt, values);
        case RateLimited(hint) =>
          RetryJob(id, job, "event_delivery_temporary_error", hint, x.sentAt, x.sentRandom);
        case Temporary(hint) =>
          RetryJob(id, job, "event_delivery_temporary_error", hint, x.sentAt, x.sentRandom);
        case OAuthTemporary =>
          RetryJob(id, job, "event_delivery_temporary_error", NO_HINT, x.sentAt, x.sentRandom);
        case InvalidResponse =>
          RetryJob(id, job, "event_delivery_temporary_error", NO_HINT, x.sentAt, x.sentRandom);
        case Transport =>
          RetryJob(id, job, "event_delivery_temporary_error", NO_HINT, x.sentAt, x.sentRandom);
        case _ =>
          var _ := repository.MarkFailed(id, "event_delivery_failed");
      }
    }

    /** `_process_rest_request`: call once, checkpoint the result, deliver it. */
    method ProcessRestRequest(id: JobId, job: Row, x: Script)
      requires job.payload.RestPayload?
      modifies repository
      ensures repository.rows == Finish(old(repository.rows), Task(id, job, Loaded), x, config)
      ensures RestLeft(old(repository.rows), repository.rows, id, job, x, config)
    {
      RestLeftBehind(repository.rows, id, job, x, config);
      FinishRest(repository.rows, id, job, x, config);
      if job.payload.requestCompleted {
        DeliverSubscription(id, job, job.returnValues, x);
      } else {
        CallApplication(id, job, x);
      }
    }

    /** The application call of a REST request, its checkpoint and the delivery that follows. */
    method CallApplication(id: JobId, job: Row, x: Script)
      requires job.payload.RestPayload?
      modifies repository
      ensures repository.rows == Finish(old(repository.rows), Task(id, job, Calling), x, config)
    {
      FinishCalling(repository.rows, id, job, x, config);
      var values: ReturnValues;
      match x.request {
        case RateLimited(hint) =>
          RetryJob(id, job, "rest_request_rate_limited", hint, x.firstAt, x.firstRandom);
          return;
        case OAuthTemporary =>
          RetryJob(id, job, "oauth_temporarily_unavailable", NO_HINT, x.firstAt, x.firstRandom);
          return;
        case Temporary(_) => return;
        case Undecryptable => return;
        case Unexpected => return;
        case Answered(result) =>
          values := RestValues(result);
        case Transport =>
          values := ErrorValues("rest_request_outcome_unknown");
        case _ =>
          values := ErrorValues("rest_request_failed");
      }
      SaveAndDeliver(id, job, values, x);
    }

    method SaveAndDeliver(id: JobId, job: Row, values: ReturnValues, x: Script)
      requires job.payload.RestPayload?
      modifies repository
      ensures repository.rows == Finish(old(repository.rows), Task(id, job, Checkpointing(values)), x, config)
    {
      FinishCheckpointing(repository.rows, id, job, values, x, config);
      var _ := repository.SaveProcessingResult(id, job.payload.(requestCompleted := true), values);
      DeliverSubscription(id, job, values, x);
    }

    /** `_process_wait_field`: look at the field, poll again before the deadline, otherwise deliver what is known. */
    method ProcessWaitField(id: JobId, job: Row, x: Script)
      requires job.payload.FieldPayload?
      modifies repository
      ensures repository.rows == Finish(old(repository.rows), Task(id, job, Loaded), x, config)
      ensures FieldLeft(old(repository.rows), repository.rows, id, job, x, config)
    {
      FieldLeftBehind(repository.rows, id, job, x, config);
      LookAtField(id, job, x);
    }

    /** The look, and what follows from it. */
    method LookAtField(id: JobId, job: Row, x: Script)
      requires job.payload.FieldPayload?
      modifies repository
      ensures repository.rows == Finish(old(repository.rows), Task(id, job, Loaded), x, config)
    {
      var payload := job.payload;
      var checks := payload.checks + 1;
      var values: ReturnValues;
      match x.field {
        case Answered(None) =>
          if x.firstAt < payload.createdAt + payload.timeout as real {
            var _ := repository.SchedulePoll(id, x.firstAt + payload.pollInterval as real, payload.(checks := checks));
            return;
          }
          values := TimeoutValues(checks);
        case Answered(Some(value)) =>
          values := FieldValues(value, checks, x.firstAt);
        case Undecryptable =>
          var _ := repository.MarkFailed(id, "invalid_persisted_job");
          return;
        case RateLimited(hint) =>
          RetryJob(id, job, "field_check_temporary_error", hint, x.firstAt, x.firstRandom);
          return;
        case Temporary(hint) =>
          RetryJob(id, job, "field_check_temporary_error", hint, x.firstAt, x.firstRandom);
          return;
        case OAuthTemporary =>
          RetryJob(id, job, "field_check_temporary_error", NO_HINT, x.firstAt, x.firstRandom);
          return;
        case Unexpected =>
          return;
        case _ =>
          values := ErrorValues("field_check_failed");
      }
      DeliverSubscription(id, job, values, x);
    }

    /** The pause: fix the resume time, then deliver. */
    method ProcessPause(id: JobId, job: Row, x: Script)
      requires job.payload.PausePayload?
      modifies repository
      ensures repository.rows == Finish(old(repository.rows), Task(id, job, Loaded), x, config)
      ensures PauseLeft(old(repository.rows), repository.rows, id, job, x, config)
    {
      PauseLeftBehind(repository.rows, id, job, x, config);
      DeliverPause(id, job, PauseReturnValues(job.payload, x.firstAt), x);
    }

    /** Delivery of a pause, with its own sorting of the failures. */
    method DeliverPause(id: JobId, job: Row, values: ReturnValues, x: Script)
      requires job.payload.PausePayload? && values.PauseValues?
      modifies repository
      ensures repository.rows == Finish(old(repository.rows), Task(id, job, Delivering(values)), x, config)
      ensures if InProcess(old(repository.rows), id)
              then
                && OnlyRow(old(repository.rows), repository.rows, id)
                && PauseDelivery(old(repository.rows)[id], repository.rows[id], job, values, x.delivered, x.sentAt,
                                 x.sentRandom, config.retry)
              else repository.rows == old(repository.rows)
    {
      if InProcess(repository.rows, id) {
        DeliveryMeans(repository.rows, id, job, values, x, config);
      } else {
        FinishNeedsProcessing(repository.rows, Task(id, job, Delivering(values)), x, config);
      }
      FinishDelivering(repository.rows, id, job, values, x, config);
      match x.delivered {
        case Answered(true) =>
          var _ := repository.MarkCompleted(id, values.resumedAt, values);
        case Answered(false) =>
          var _ := repository.MarkFailed(id, "event_delivery_not_confirmed");
        case Denied(code) =>
          if code != "ACCESS_DENIED" {
            var _ := repository.MarkFailed(id, "event_delivery_permission_denied");
          } else if job.lastError == Some("event_delivery_outcome_unknown") {
            var _ := repository.MarkFailed(id, "event_delivery_requires_manual_review");
          } else {
            var _ := repository.MarkExpired(id, "event_token_invalid_or_expired");
          }
        case AuthFailed =>
          var _ := repository.MarkFailed(id, "portal_authentication_failed");
        case Permanent =>
          var _ := repository.MarkFailed(id, "event_delivery_permanent_error");
        case RateLimited(hint) =>
          RetryJob(id, job, "event_delivery_rate_limited", hint, x.sentAt, x.sentRandom);
        case Temporary(hint) =>
          RetryJob(id, job, "event_delivery_temporary_error", hint, x.sentAt, x.sentRandom);
        case InvalidResponse =>
          RetryJob(id, job, "event_delivery_invalid_response", NO_HINT, x.sentAt, x.sentRandom);
        case OAuthTemporary =>
          RetryJob(id, job, "oauth_temporarily_unavailable", NO_HINT, x.sentAt, x.sentRandom);
        case Transport =>
          RetryJob(id, job, "event_delivery_outcome_unknown", NO_HINT, x.sentAt, x.sentRandom);
        case Undecryptable =>
          var _ := repository.MarkFailed(id, "portal_token_decryption_failed");
        case Unexpected =>
      }
    }

    /** `process`: load the row, then run the robot it belongs to. */
    method Process(id: JobId, x: Script)
      modifies repository
      ensures repository.rows == Processed(old(repository.rows), id, x, config)
      ensures if InProcess(old(repository.rows), id)
              then
                && OnlyRow(old(repository.rows), repository.rows, id)
                && ProcessOutcome(old(repository.rows)[id], repository.rows[id], x, config)
              else repository.rows == old(repository.rows)
    {
      var loaded := repository.GetProcessingJob(id);
      if loaded.None? {
        return;
      }
      var job := loaded.value;
      if !x.usable {
        var _ := repository.MarkFailed(id, "invalid_persisted_job");
        return;
      }
      match job.payload {
        case RestPayload(_, _, _) => ProcessRestRequest(id, job, x);
        case FieldPayload(_, _, _, _) => ProcessWaitField(id, job, x);
        case PausePayload(_, _) => ProcessPause(id, job, x);
      }
    }
  }

  // ---------------------------------------------------------------- the worker loop

  /** What one turn of the loop meets: its two clock readings, the rows other transactions hold, the outside world's
      answers, and when a shutdown is noticed, if it is: before the claim, or after some number of jobs. */
  datatype Turn = Turn(now: Instant, claimedAt: Instant, locked: set<JobId>, answers: map<JobId, Script>,
                       stopBeforeClaim: bool, stopAfter: Option<nat>)
  {
    predicate Stops() {
      stopBeforeClaim || stopAfter.Some?
    }
  }

  const SILENT := Script(true, 0.0, Unexpected, Unexpected, 0.0, 0.0, Unexpected, 0.0)

  function AnswersFor(turn: Turn, id: JobId): Script {
    if id in turn.answers then turn.answers[id] else SILENT
  }

  /** The table after a batch was processed job by job, in order. */
  ghost function ProcessedAll(rows: Table, batch: seq<JobId>, turn: Turn, config: Config): Table {
    if batch == [] then rows
    else
      var last := |batch| - 1;
      Processed(ProcessedAll(rows, batch[..last], turn, config), batch[last], AnswersFor(turn, batch[last]), config)
  }

  /** The inner loop: process the claimed jobs in order until a shutdown is noticed. */
  method HandleBatch(processor: AutomationJobProcessor, batch: seq<JobId>, turn: Turn) returns (done: nat)
    modifies processor.repository
    ensures done == if turn.stopAfter.Some? && turn.stopAfter.value < |batch| then turn.stopAfter.value else |batch|
    ensures processor.repository.rows
         == ProcessedAll(old(processor.repository.rows), batch[..done], turn, processor.config)
  {
    done := 0;
    while done < |batch| && !(turn.stopAfter.Some? && turn.stopAfter.value <= done)
      invariant done <= |batch| && (turn.stopAfter.Some? ==> done <= turn.stopAfter.value)
      invariant processor.repository.rows
             == ProcessedAll(old(processor.repository.rows), batch[..done], turn, processor.config)
    {
      assert batch[..done + 1][..done] == batch[..done];
      processor.Process(batch[done], AnswersFor(turn, batch[done]));
      done := done + 1;
    }
  }

  /** One whole turn on the table: recover if due; unless a shutdown is noticed, claim in order and process what it
      leaves time for. */
  ghost predicate TurnOk(before: Table, after: Table, recover: bool, worker: WorkerId, batch: seq<JobId>, done: nat,
                         turn: Turn, config: Config)
  {
    var table := if recover then RecoverAll(before, turn.now, config.lockTimeout) else before;
    if turn.stopBeforeClaim then batch == [] && done == 0 && after == table
    else
      && IsClaimBatch(table, batch, config.batchSize, turn.claimedAt, turn.locked)
      && done == (if turn.stopAfter.Some? && turn.stopAfter.value < |batch| then turn.stopAfter.value else |batch|)
      && after == ProcessedAll(ClaimAll(table, batch, worker, turn.claimedAt), batch[..done], turn, config)
  }

  /** What one turn met and did: the table it found, whether it recovered, the batch it claimed, how many of its jobs it
      processed, and the table it left. */
  datatype Entry = Entry(turn: Turn, before: Table, recovered: bool, batch: seq<JobId>, done: nat, after: Table)

  ghost predicate EntryOk(entry: Entry, worker: WorkerId, config: Config) {
    TurnOk(entry.before, entry.after, entry.recovered, worker, entry.batch, entry.done, entry.turn, config)
  }

  ghost function EntryRule(worker: WorkerId, config: Config): Entry -> bool {
    entry => EntryOk(entry, worker, config)
  }

  /** The turns follow one another on the table. */
  ghost predicate Connected(first: Table, log: seq<Entry>, last: Table) {
    if log == [] then first == last
    else
      var n := |log| - 1;
      log[n].after == last && Connected(first, log[..n], log[n].before)
  }

  /** Each turn did its work, and only the last may have noticed a shutdown. */
  ghost predicate Logged(log: seq<Entry>, turns: seq<Turn>, rule: Entry -> bool) {
    && |log| <= |turns|
    && (forall k | 0 <= k < |log| :: log[k].turn == turns[k] && rule(log[k]))
    && (forall k | 0 <= k < |log| - 1 :: !turns[k].Stops())
  }

  /** The latest recovery, by its clock reading. */
  function LastRecovery(log: seq<Entry>): Option<Instant> {
    if log == [] then None
    else if log[|log| - 1].recovered then Some(log[|log| - 1].turn.now)
    else LastRecovery(log[..|log| - 1])
  }

  predicate RecoveryDue(last: Option<Instant>, now: Instant, interval: real) {
    last.None? || now >= last.value + interval
  }

  /** Recovery runs at the first turn and then whenever the interval has passed, and at no other turn. */
  ghost predicate Paced(log: seq<Entry>, interval: real) {
    forall k {:trigger log[..k]} | 0 <= k < |log| ::
      log[k].recovered <==> RecoveryDue(LastRecovery(log[..k]), log[k].turn.now, interval)
  }

  lemma PacedBefore(log: seq<Entry>, interval: real, n: nat)
    requires Paced(log, interval) && n <= |log|
    ensures Paced(log[..n], interval)
  {
    forall k | 0 <= k < n
      ensures log[..n][k].recovered <==> RecoveryDue(LastRecovery(log[..n][..k]), log[..n][k].turn.now, interval)
    {
      assert log[..n][..k] == log[..k];
    }
  }

  lemma {:induction false} LastRecoveryIsLate(log: seq<Entry>, interval: real, i: nat)
    requires Paced(log, interval) && 0.0 <= interval && i < |log| && log[i].recovered
    ensures LastRecovery(log).Some? && log[i].turn.now <= LastRecovery(log).value
  {
    var n := |log| - 1;
    if i < n {
      PacedBefore(log, interval, n);
      LastRecoveryIsLate(log[..n], interval, i);
    }
  }

  /** Any two recoveries of one worker are at least the interval apart. */
  lemma RecoveriesAreSpaced(log: seq<Entry>, interval: real, i: nat, j: nat)
    requires Paced(log, interval) && 0.0 <= interval && i < j < |log| && log[i].recovered && log[j].recovered
    ensures log[i].turn.now + interval <= log[j].turn.now
  {
    PacedBefore(log, interval, j);
    LastRecoveryIsLate(log[..j], interval, i);
  }

  /** No recovery is missed: a turn without one comes less than the interval after a turn with one. */
  lemma {:induction false} RecoveryComesInTime(log: seq<Entry>, interval: real, j: nat)
    requires Paced(log, interval) && j < |log| && !log[j].recovered
    ensures exists i | 0 <= i < j :: log[i].recovered && log[j].turn.now < log[i].turn.now + interval
  {
    assert !RecoveryDue(LastRecovery(log[..j]), log[j].turn.now, interval);
    var i := RecoveryFound(log[..j]);
    assert log[i].recovered;
  }

  lemma {:induction false} RecoveryFound(log: seq<Entry>) returns (i: nat)
    requires LastRecovery(log).Some?
    ensures i < |log| && log[i].recovered && LastRecovery(log) == Some(log[i].turn.now)
  {
    var n := |log| - 1;
    i := n;
    if !log[n].recovered {
      i := RecoveryFound(log[..n]);
    }
  }

  lemma PacedGoesOn(log: seq<Entry>, entry: Entry, interval: real)
    requires Paced(log, interval)
    requires entry.recovered <==> RecoveryDue(LastRecovery(log), entry.turn.now, interval)
    ensures Paced(log + [entry], interval)
    ensures LastRecovery(log + [entry]) == if entry.recovered then Some(entry.turn.now) else LastRecovery(log)
  {
    assert (log + [entry])[..|log|] == log;
    forall k | 0 <= k < |log|
      ensures (log + [entry])[k].recovered
         <==> RecoveryDue(LastRecovery((log + [entry])[..k]), (log + [entry])[k].turn.now, interval)
    {
      assert (log + [entry])[..k] == log[..k];
    }
  }

  lemma ConnectedGoesOn(first: Table, log: seq<Entry>, entry: Entry)
    requires Connected(first, log, entry.before)
    ensures Connected(first, log + [entry], entry.after)
  {
    assert (log + [entry])[..|log|] == log;
  }

  lemma LoggedGoesOn(log: seq<Entry>, entry: Entry, turns: seq<Turn>, rule: Entry -> bool)
    requires Logged(log, turns, rule) && |log| < |turns| && entry.turn == turns[|log|] && rule(entry)
    requires log != [] ==> !turns[|log| - 1].Stops()
    ensures Logged(log + [entry], turns, rule)
  {
  }

  /** The loop's `next_recovery`, an interval after the latest recovery. */
  function NextRecovery(log: seq<Entry>, interval: real): Option<Instant> {
    var last := LastRecovery(log);
    if last.None? then None else Some(last.value + interval)
  }

  /** What the loop has established after some turns; `next` is its next_recovery. */
  ghost predicate LoopOk(first: Table, log: seq<Entry>, last: Table, next: Option<Instant>, interval: real,
                         turns: seq<Turn>, rule: Entry -> bool)
  {
    && Connected(first, log, last) && Logged(log, turns, rule)
    && Paced(log, interval) && next == NextRecovery(log, interval)
  }

  lemma LoopGoesOn(first: Table, log: seq<Entry>, entry: Entry, next: Option<Instant>, interval: real,
                   turns: seq<Turn>, rule: Entry -> bool)
    requires LoopOk(first, log, entry.before, next, interval, turns, rule)
    requires |log| < |turns| && entry.turn == turns[|log|] && rule(entry)
    requires entry.recovered == (next.None? || entry.turn.now >= next.value)
    requires log != [] ==> !turns[|log| - 1].Stops()
    ensures LoopOk(first, log + [entry], entry.after,
                   if entry.recovered then Some(entry.turn.now + interval) else next, interval, turns, rule)
  {
    ConnectedGoesOn(first, log, entry);
    LoggedGoesOn(log, entry, turns, rule);
    PacedGoesOn(log, entry, interval);
  }

  /** One turn of the loop, and what there is to say about it. */
  method OneTurn(processor: AutomationJobProcessor, recover: bool, worker: WorkerId, turn: Turn) returns (entry: Entry)
    modifies processor.repository
    ensures entry.turn == turn && entry.recovered == recover
    ensures entry.before == old(processor.repository.rows) && entry.after == processor.repository.rows
    ensures EntryRule(worker, processor.config)(entry)
  {
    var before := processor.repository.rows;
    if recover {
      var _ := processor.repository.RecoverStaleJobs(turn.now, processor.config.lockTimeout);
    }
    if turn.stopBeforeClaim {
      return Entry(turn, before, recover, [], 0, processor.repository.rows);
    }
    var batch := processor.repository.ClaimDueJobs(worker, processor.config.batchSize, turn.claimedAt, turn.locked);
    var done := HandleBatch(processor, batch, turn);
    entry := Entry(turn, before, recover, batch, done, processor.repository.rows);
  }

  /** Recovery, claim and processing, turn by turn, until a shutdown, or for a single turn. Every claimed job is
      processed once and in order; only the last batch can be cut short. */
  method WorkerLoop(processor: AutomationJobProcessor, worker: WorkerId, interval: real, once: bool, turns: seq<Turn>)
    returns (log: seq<Entry>)
    modifies processor.repository
    ensures Connected(old(processor.repository.rows), log, processor.repository.rows)
    ensures Logged(log, turns, EntryRule(worker, processor.config))
    ensures Paced(log, interval)
    ensures |log| < |turns| ==> log != [] && (once || turns[|log| - 1].Stops())
    ensures once ==> |log| <= 1
  {
    var nextRecovery;
    log, nextRecovery := RunTurns(processor, worker, interval, once, turns);
  }

  method RunTurns(processor: AutomationJobProcessor, worker: WorkerId, interval: real, once: bool, turns: seq<Turn>)
    returns (log: seq<Entry>, nextRecovery: Option<Instant>)
    modifies processor.repository
    ensures LoopOk(old(processor.repository.rows), log, processor.repository.rows, nextRecovery, interval, turns,
                   EntryRule(worker, processor.config))
    ensures |log| <= |turns| && (|log| < |turns| ==> log != [] && (once || turns[|log| - 1].Stops()))
    ensures once ==> |log| <= 1
  {
    log, nextRecovery := [], None;
    for n := 0 to |turns|
      invariant |log| == n && (once ==> n == 0) && (0 < n ==> !turns[n - 1].Stops())
      invariant LoopOk(old(processor.repository.rows), log, processor.repository.rows, nextRecovery, interval,
                       turns, EntryRule(worker, processor.config))
    {
      var recover := nextRecovery.None? || turns[n].now >= nextRecovery.value;
      var entry := OneTurn(processor, recover, worker, turns[n]);
      LoopGoesOn(old(processor.repository.rows), log, entry, nextRecovery, interval, turns,
                 EntryRule(worker, processor.config));
      log := log + [entry];
      nextRecovery := if recover then Some(turns[n].now + interval) else nextRecovery;
      if once || turns[n].Stops() {
        return;
      }
    }
  }

  // ---------------------------------------------------------------- the loop as a run

  /** The latest reading before the k-th job of a batch. */
  function ReadingBefore(turn: Turn, batch: seq<JobId>, k: nat): Instant {
    if k == 0 || |batch| < k then turn.claimedAt else AnswersFor(turn, batch[k - 1]).sentAt
  }

  /** The readings of a turn follow the order in which it takes them. */
  ghost predicate InOrder(turn: Turn, batch: seq<JobId>, done: nat) {
    && turn.now <= turn.claimedAt && done <= |batch|
    && forall k | 0 <= k < done :: JobInOrder(turn, batch, k)
  }

  ghost predicate JobInOrder(turn: Turn, batch: seq<JobId>, k: nat)
    requires k < |batch|
  {
    ReadingBefore(turn, batch, k) <= AnswersFor(turn, batch[k]).firstAt <= AnswersFor(turn, batch[k]).sentAt
  }

  /** Where a worker stands after `k` jobs of its batch. */
  ghost predicate BatchAt(s: System, w: WorkerId, turn: Turn, batch: seq<JobId>, k: nat, claimed: Table,
                          config: Config)
  {
    && k <= |batch| && s.At(w) == Worker(batch[k..], None) && s.config == config
    && s.clock <= ReadingBefore(turn, batch, k)
    && s.rows == ProcessedAll(claimed, batch[..k], turn, config)
  }

  lemma OneMoreProcessed(claimed: Table, batch: seq<JobId>, k: nat, turn: Turn, config: Config)
    requires k < |batch|
    ensures ProcessedAll(claimed, batch[..k + 1], turn, config)
         == Processed(ProcessedAll(claimed, batch[..k], turn, config), batch[k], AnswersFor(turn, batch[k]), config)
  {
    assert batch[..k + 1][..k] == batch[..k];
  }

  lemma OneMoreJob(r: Run, w: WorkerId, turn: Turn, batch: seq<JobId>, k: nat, claimed: Table, config: Config)
    returns (end: Run)
    requires Valid(r) && BatchAt(After(r), w, turn, batch, k, claimed, config)
    requires k < |batch| && JobInOrder(turn, batch, k)
    ensures Valid(end) && Extends(end, r) && BatchAt(After(end), w, turn, batch, k + 1, claimed, config)
  {
    assert batch[k..][0] == batch[k] && batch[k..][1..] == batch[k + 1..];
    OneMoreProcessed(claimed, batch, k, turn, config);
    end := ProcessIsRun(r, w, AnswersFor(turn, batch[k]));
  }

  /** The processed part of a claimed batch is a run. */
  lemma {:induction false} BatchIsRun(r: Run, w: WorkerId, turn: Turn, batch: seq<JobId>, done: nat, claimed: Table,
                                      config: Config)
    returns (end: Run)
    requires Valid(r) && BatchAt(After(r), w, turn, batch, 0, claimed, config) && InOrder(turn, batch, done)
    ensures Valid(end) && Extends(end, r) && BatchAt(After(end), w, turn, batch, done, claimed, config)
  {
    if done == 0 {
      end := r;
    } else {
      var p := BatchIsRun(r, w, turn, batch, done - 1, claimed, config);
      end := OneMoreJob(p, w, turn, batch, done - 1, claimed, config);
      ExtendsTransitive(r, p, end);
    }
  }

  lemma RecoveryIsRun(r: Run, recover: bool, now: Instant) returns (end: Run)
    requires Valid(r) && After(r).clock <= now
    ensures Valid(end) && Extends(end, r)
    ensures After(end) == After(r).(clock := now,
                                    rows := if recover then RecoverAll(After(r).rows, now, After(r).config.lockTimeout)
                                            else After(r).rows)
  {
    end := Then(r, Tick(now));
    assert Valid(end) && Extends(end, r);
    if recover {
      var ticked := end;
      end := Then(ticked, Recover(now));
      assert Valid(end) && Extends(end, r);
    }
  }

  lemma ClaimIsRun(r: Run, w: WorkerId, batch: seq<JobId>, at: Instant, locked: set<JobId>) returns (end: Run)
    requires Valid(r) && After(r).At(w) == Worker([], None) && After(r).clock <= at
    requires IsClaimBatch(After(r).rows, batch, After(r).config.batchSize, at, locked)
    ensures Valid(end) && Extends(end, r) && After(end).At(w) == Worker(batch, None)
    ensures After(end).config == After(r).config && After(end).clock == at
    ensures After(end).rows == ClaimAll(After(r).rows, batch, w, at)
  {
    var ticked := Then(r, Tick(at));
    assert Valid(ticked) && After(ticked) == After(r).(clock := at) && Extends(ticked, r);
    end := Then(ticked, Claim(w, batch, at, locked));
    assert Valid(end) && Extends(end, r);
  }

  /** A shutdown drops the rest of the batch. */
  lemma StopIsRun(r: Run, w: WorkerId) returns (end: Run)
    requires Valid(r) && After(r).At(w).task.None?
    ensures Valid(end) && Extends(end, r) && After(end).At(w) == Worker([], None)
    ensures After(end).config == After(r).config && After(end).clock == After(r).clock
    ensures After(end).rows == After(r).rows
  {
    end := Then(r, Crash(w));
    assert Valid(end) && Extends(end, r);
  }

  /** The latest reading of a turn. */
  function LastReading(entry: Entry): Instant {
    if entry.turn.stopBeforeClaim then entry.turn.now else ReadingBefore(entry.turn, entry.batch, entry.done)
  }

  /** One turn of a free worker is a run of the transition system with the same final table: a recovery if due, a claim,
      the process calls, and a crash that drops what a shutdown left of the batch. */
  lemma TurnIsRun(r: Run, w: WorkerId, entry: Entry) returns (end: Run)
    requires Valid(r) && After(r).At(w) == Worker([], None) && EntryRule(w, After(r).config)(entry)
    requires entry.before == After(r).rows
    requires After(r).clock <= entry.turn.now && InOrder(entry.turn, entry.batch, entry.done)
    ensures Valid(end) && Extends(end, r) && After(end).At(w) == Worker([], None)
    ensures After(end).config == After(r).config && After(end).clock <= LastReading(entry)
    ensures After(end).rows == entry.after
  {
    var turn, config := entry.turn, After(r).config;
    var recovered := RecoveryIsRun(r, entry.recovered, turn.now);
    if turn.stopBeforeClaim {
      end := recovered;
    } else {
      var claimed := ClaimIsRun(recovered, w, entry.batch, turn.claimedAt, turn.locked);
      assert entry.batch[..0] == [] && entry.batch[0..] == entry.batch;
      var processed := BatchIsRun(claimed, w, turn, entry.batch, entry.done, After(claimed).rows, config);
      end := StopIsRun(processed, w);
      ExtendsTransitive(r, recovered, claimed);
      ExtendsTransitive(r, claimed, processed);
      ExtendsTransitive(r, processed, end);
    }
  }

  function ReadingAfter(clock: Instant, log: seq<Entry>): Instant {
    if log == [] then clock else LastReading(log[|log| - 1])
  }

  /** The readings of a whole log: each turn in order, and none before the turn that precedes it. */
  ghost predicate LogInOrder(clock: Instant, log: seq<Entry>)
    decreases |log|
  {
    log != [] ==>
      var n := |log| - 1;
      && LogInOrder(clock, log[..n]) && ReadingAfter(clock, log[..n]) <= log[n].turn.now
      && InOrder(log[n].turn, log[n].batch, log[n].done)
  }

  ghost predicate AllEntries(log: seq<Entry>, rule: Entry -> bool) {
    forall k | 0 <= k < |log| :: rule(log[k])
  }

  /** What the worker loop logs, turn after turn, is a run of the transition system with the same final table. */
  lemma {:induction false} LogIsRun(r: Run, w: WorkerId, log: seq<Entry>, last: Table, rule: Entry -> bool)
    returns (end: Run)
    requires Valid(r) && After(r).At(w) == Worker([], None) && Connected(After(r).rows, log, last)
    requires rule == EntryRule(w, After(r).config) && AllEntries(log, rule) && LogInOrder(After(r).clock, log)
    ensures Valid(end) && Extends(end, r) && After(end).At(w) == Worker([], None)
    ensures After(end).config == After(r).config && After(end).rows == last
    ensures After(end).clock <= ReadingAfter(After(r).clock, log)
    decreases |log|
  {
    if log == [] {
      end := r;
    } else {
      var n := |log| - 1;
      var p := LogIsRun(r, w, log[..n], log[n].before, rule);
      assert rule(log[n]);
      end := TurnIsRun(p, w, log[n]);
      ExtendsTransitive(r, p, end);
    }
  }
}
