/** The queue as a transition system: one event per database transaction, per remote reply and per
    clock step, taken by any number of workers in any order (app/jobs/worker.py, app/jobs/processor.py). */
module JobQueue {
  import opened Prelude
  import opened JobModel
  import opened JobRepository
  import opened JobIntake
  import opened JobProcessor
  import opened Backoff

  datatype Config = Config(retry: Settings, lockTimeout: real, batchSize: nat, minimumDelay: nat, maximumDelay: nat) {
    predicate Valid() {
      retry.Valid() && 1.0 <= lockTimeout && 1 <= batchSize && 1 <= minimumDelay <= maximumDelay
    }
  }

  /** A job being processed: the row as loaded, and where the processor stands. */
  datatype Task = Task(id: JobId, job: Row, pc: Pc)

  /** The rest of the claimed batch, and the job in hand. */
  datatype Worker = Worker(queue: seq<JobId>, task: Option<Task>)

  datatype System = System(config: Config, clock: Instant, rows: Table, workers: map<WorkerId, Worker>) {
    function At(w: WorkerId): Worker {
      if w in workers then workers[w] else Worker([], None)
    }

    predicate Stands(w: WorkerId) {
      At(w).task.Some?
    }

    function TaskOf(w: WorkerId): Task
      requires Stands(w)
    {
      At(w).task.value
    }

    function WithTask(w: WorkerId, task: Option<Task>): System {
      this.(workers := workers[w := At(w).(task := task)])
    }

    function WithPc(w: WorkerId, pc: Option<Pc>): System
      requires Stands(w)
    {
      WithTask(w, if pc.Some? then Some(TaskOf(w).(pc := pc.value)) else None)
    }
  }

  datatype Event =
    | Tick(now: Instant)
    | Intake(id: JobId, callback: Callback, now: Instant, createdAt: Instant)
    | Claim(worker: WorkerId, batch: seq<JobId>, now: Instant, locked: set<JobId>)
    | Recover(now: Instant)
    | Load(worker: WorkerId, usable: bool)                                 // _load and data validation
    | Propose(worker: WorkerId)                                            // pause: fix the resume time
    | Issue(worker: WorkerId)                                              // REST: the application call goes out
    | Request(worker: WorkerId, reply: Reply<nat>, random: real)           // REST: the application call ends
    | Resume(worker: WorkerId)                                             // REST: reuse the checkpoint
    | Check(worker: WorkerId, fieldReply: Reply<Option<nat>>, random: real)     // field wait: crm.item.get ends
    | Save(worker: WorkerId)                                               // REST: save_processing_result
    | Dispatch(worker: WorkerId)                                           // bizproc.event.send goes out
    | Send(worker: WorkerId, delivered: Reply<bool>, random: real)         // bizproc.event.send ends
    | Report(worker: WorkerId)                                             // the closing transaction
    | Abandon(worker: WorkerId)                                            // an exception escapes process
    | Crash(worker: WorkerId)                                              // the process dies or shuts down

  /** The task stands at a point where this event can happen. */
  predicate Ready(task: Task, e: Event) {
    match e
    case Propose(_) => task.pc.Loaded? && task.job.payload.PausePayload?
    case Issue(_) => task.pc.Loaded? && task.job.payload.RestPayload? && !task.job.payload.requestCompleted
    case Request(_, _, _) => task.pc.Calling? && task.job.payload.RestPayload?
    case Resume(_) => task.pc.Loaded? && task.job.payload.RestPayload? && task.job.payload.requestCompleted
    case Check(_, _, _) => task.pc.Loaded? && task.job.payload.FieldPayload?
    case Save(_) => task.pc.Checkpointing? && task.job.payload.RestPayload?
    case Dispatch(_) => task.pc.Delivering?
    case Send(_, _, _) =>
      task.pc.Sending? && (task.job.payload.PausePayload? ==> task.pc.values.PauseValues?)
    case Report(_) => task.pc.Reporting? && !task.pc.move.Claimed? && !task.pc.move.Recovered?
    case Abandon(_) => true
    case _ => false
  }

  predicate OnTask(e: Event) {
    !(e.Tick? || e.Intake? || e.Claim? || e.Recover? || e.Load? || e.Crash?)
  }

  /** The event can happen. Comparing with `true` keeps the guards folded in the many contracts that ask for it. */
  ghost predicate Enabled(s: System, e: Event) {
    GuardHolds(s, e) == true
  }

  /** The guard of each event. */
  ghost predicate GuardHolds(s: System, e: Event) {
    match e
    case Tick(now) => s.clock <= now
    case Intake(id, callback, now, createdAt) =>
      && callback.InRange(s.config.minimumDelay, s.config.maximumDelay)
      && now <= s.clock && createdAt <= s.clock && id !in s.rows
    case Claim(w, batch, now, locked) =>
      && s.At(w) == Worker([], None)
      && now <= s.clock && IsClaimBatch(s.rows, batch, s.config.batchSize, now, locked)
    case Recover(now) => now <= s.clock
    case Load(w, _) => s.At(w).task.None? && s.At(w).queue != []
    case Crash(_) => true
    case _ => s.Stands(e.worker) && Ready(s.TaskOf(e.worker), e)
  }

  /** The next program counter after an event on a task; None when the task is over. */
  function NextPc(task: Task, e: Event, clock: Instant, config: Config): Option<Pc>
    requires OnTask(e) && Ready(task, e)
  {
    match e
    case Propose(_) => Some(Delivering(PauseReturnValues(task.job.payload, clock)))
    case Issue(_) => Some(Calling)
    case Request(_, reply, random) => AfterRequest(task.job, reply, clock, random, config.retry)
    case Resume(_) => Some(Delivering(task.job.returnValues))
    case Check(_, reply, random) => AfterCheck(task.job, reply, clock, random, config.retry)
    case Save(_) => Some(Delivering(task.pc.values))
    case Dispatch(_) => Some(Sending(task.pc.values))
    case Send(_, delivered, random) =>
      AfterSend(task.job, task.pc.values, delivered, clock, random, config.retry)
    case _ => None
  }

  /** The row update that an event on a task commits, if any. */
  function WriteOf(task: Task, e: Event): Option<Move>
    requires OnTask(e) && Ready(task, e)
  {
    match e
    case Save(_) => Some(Saved(task.job.payload.(requestCompleted := true), task.pc.values))
    case Report(_) => Some(task.pc.move)
    case _ => None
  }

  function LoadedTask(rows: Table, id: JobId, usable: bool): Option<Task> {
    if id in rows && rows[id].status == Processing
    then Some(Task(id, rows[id], if usable then Loaded else Reporting(MarkedFailed("invalid_persisted_job"))))
    else None
  }

  ghost function Apply(s: System, e: Event): System
    requires Enabled(s, e)
  {
    match e
    case Tick(now) => s.(clock := now)
    case Intake(id, callback, now, createdAt) => s.(rows := Inserted(s.rows, id, NewRow(callback, now, createdAt)))
    case Claim(w, batch, now, locked) =>
      s.(rows := ClaimAll(s.rows, batch, w, now), workers := s.workers[w := Worker(batch, None)])
    case Recover(now) => s.(rows := RecoverAll(s.rows, now, s.config.lockTimeout))
    case Load(w, usable) =>
      var worker := s.At(w);
      s.(workers := s.workers[w := Worker(worker.queue[1..], LoadedTask(s.rows, worker.queue[0], usable))])
    case Crash(w) => s.(workers := s.workers[w := Worker([], None)])
    case _ =>
      var task := s.TaskOf(e.worker);
      var written := WriteOf(task, e);
      s.WithPc(e.worker, NextPc(task, e, s.clock, s.config))
       .(rows := if written.Some? then Transition(s.rows, task.id, written.value) else s.rows)
  }

  // ---------------------------------------------------------------- runs

  /** A finite run, latest event last. */
  datatype Run = Start(config: Config, clock: Instant) | Then(before: Run, event: Event)

  ghost predicate Valid(r: Run)
    decreases r, 0
  {
    match r
    case Start(config, _) => config.Valid()
    case Then(before, e) => Valid(before) && Enabled(After(before), e)
  }

  ghost function After(r: Run): System
    requires Valid(r)
    decreases r, 1
  {
    match r
    case Start(config, clock) => System(config, clock, map[], map[])
    case Then(before, e) => Apply(After(before), e)
  }

  /** `r` continues the run `p`. */
  ghost predicate Extends(r: Run, p: Run) {
    r == p || (r.Then? && Extends(r.before, p))
  }

  // ---------------------------------------------------------------- projection onto one row

  /** What an event does to one row, if anything. */
  ghost function MoveOf(s: System, e: Event, id: JobId): Option<Move>
    requires Enabled(s, e)
  {
    if id !in s.rows then None
    else match e
      case Claim(w, batch, now, _) => if id in batch then Some(Claimed(w, now)) else None
      case Recover(now) =>
        if Stale(s.rows[id], now, s.config.lockTimeout) then Some(Recovered(now, s.config.lockTimeout)) else None
      case Tick(_) => None
      case Intake(_, _, _, _) => None
      case Load(_, _) => None
      case Crash(_) => None
      case _ =>
        var task := s.TaskOf(e.worker);
        if task.id == id && s.rows[id].status == Processing then WriteOf(task, e) else None
  }

  /** The event is a step of a worker that has this job in hand. */
  ghost predicate ByTask(s: System, e: Event, id: JobId)
    requires Enabled(s, e)
  {
    OnTask(e) && s.TaskOf(e.worker).id == id
  }

  /** Every event acts on each existing row as at most one guarded move, and removes no row. */
  lemma Projection(s: System, e: Event, id: JobId)
    requires Enabled(s, e) && id in s.rows
    ensures id in Apply(s, e).rows
    ensures var m := MoveOf(s, e, id);
            Apply(s, e).rows[id] == if m.Some? then Moved(s.rows[id], m.value) else s.rows[id]
    ensures MoveOf(s, e, id).Some? ==> Guard(s.rows[id], MoveOf(s, e, id).value)
  {
  }

  /** A row appears only by intake of a callback with a new key. */
  lemma Appearance(s: System, e: Event, id: JobId)
    requires Enabled(s, e) && id !in s.rows && id in Apply(s, e).rows
    ensures e.Intake? && e.id == id && !KeyTaken(s.rows, e.callback.Key())
    ensures Apply(s, e).rows[id] == NewRow(e.callback, e.now, e.createdAt)
  {
  }

  // ---------------------------------------------------------------- the invariant of every interleaving

  ghost predicate TaskOk(task: Task, rows: Table, clock: Instant) {
    && task.id in rows
    && SameJob(task.job, rows[task.id])
    && task.job.status == Processing && RowOk(task.job, clock)
    && PcOk(task.job, task.pc)
  }

  ghost predicate Sound(s: System) {
    && s.config.Valid()
    && (forall id | id in s.rows :: RowOk(s.rows[id], s.clock))
    && (forall w | w in s.workers && s.workers[w].task.Some? :: TaskOk(s.workers[w].task.value, s.rows, s.clock))
  }

  lemma WriteIsLegal(task: Task, e: Event, rows: Table, clock: Instant)
    requires OnTask(e) && Ready(task, e) && TaskOk(task, rows, clock)
    requires WriteOf(task, e).Some? && rows[task.id].status == Processing
    ensures Legal(rows[task.id], WriteOf(task, e).value, clock)
  {
  }

  /** Whoever causes it, every move is legal: stale workers included. */
  lemma MoveIsLegal(s: System, e: Event, id: JobId)
    requires Sound(s) && Enabled(s, e) && MoveOf(s, e, id).Some?
    ensures Legal(s.rows[id], MoveOf(s, e, id).value, s.clock)
  {
    if OnTask(e) {
      WriteIsLegal(s.TaskOf(e.worker), e, s.rows, s.clock);
    }
  }

  lemma NextPcOk(task: Task, e: Event, rows: Table, clock: Instant, config: Config)
    requires OnTask(e) && Ready(task, e) && TaskOk(task, rows, clock) && config.Valid()
    ensures var next := NextPc(task, e, clock, config);
            next.Some? ==> PcOk(task.job, next.value)
  {
    match e
    case Propose(_) => ResumeIsReportable(task.job.payload, clock);
    case Request(_, reply, random) => AfterRequestOk(task.job, reply, clock, random, config.retry);
    case Check(_, reply, random) => AfterCheckOk(task.job, reply, clock, random, config.retry);
    case Send(_, delivered, random) => AfterSendOk(task.job, task.pc.values, delivered, clock, random, config.retry);
    case _ =>
  }

  lemma RowsStaySound(s: System, e: Event, id: JobId)
    requires Sound(s) && Enabled(s, e) && id in Apply(s, e).rows
    ensures RowOk(Apply(s, e).rows[id], Apply(s, e).clock)
    ensures id in s.rows ==> SameJob(s.rows[id], Apply(s, e).rows[id])
  {
    if id in s.rows {
      Projection(s, e, id);
      if MoveOf(s, e, id).Some? {
        MoveIsLegal(s, e, id);
        MoveKeepsRow(s.rows[id], MoveOf(s, e, id).value, s.clock);
      }
    } else {
      Appearance(s, e, id);
      NewRowOk(e.callback, e.now, e.createdAt, s.clock);
    }
  }

  /** How a worker's task can change in one event. */
  lemma TaskAfter(s: System, e: Event, w: WorkerId)
    requires Enabled(s, e) && Apply(s, e).At(w).task.Some?
    ensures var task := Apply(s, e).At(w).task.value;
            || (s.Stands(w) && task == s.TaskOf(w) && (OnTask(e) ==> e.worker != w))
            || (e.Load? && e.worker == w && s.At(w).queue != []
                && LoadedTask(s.rows, s.At(w).queue[0], e.usable) == Some(task))
            || (OnTask(e) && e.worker == w && s.Stands(w) && Ready(s.TaskOf(w), e)
                && NextPc(s.TaskOf(w), e, s.clock, s.config).Some?
                && task == s.TaskOf(w).(pc := NextPc(s.TaskOf(w), e, s.clock, s.config).value))
  {
  }

  /** A sound task stays sound whatever others do to its row. */
  lemma TaskStaysSound(s: System, e: Event, task: Task)
    requires Sound(s) && Enabled(s, e) && TaskOk(task, s.rows, s.clock)
    ensures TaskOk(task, Apply(s, e).rows, Apply(s, e).clock)
  {
    Projection(s, e, task.id);
    RowsStaySound(s, e, task.id);
  }

  lemma NewTaskIsSound(s: System, e: Event, w: WorkerId)
    requires Sound(s) && Enabled(s, e) && Apply(s, e).At(w).task.Some?
    ensures TaskOk(Apply(s, e).At(w).task.value, s.rows, s.clock)
  {
    TaskAfter(s, e, w);
    if OnTask(e) && e.worker == w {
      assert TaskOk(s.TaskOf(w), s.rows, s.clock);
      NextPcOk(s.TaskOf(w), e, s.rows, s.clock, s.config);
    }
  }

  lemma TasksStaySound(s: System, e: Event, w: WorkerId)
    requires Sound(s) && Enabled(s, e) && Apply(s, e).At(w).task.Some?
    ensures TaskOk(Apply(s, e).At(w).task.value, Apply(s, e).rows, Apply(s, e).clock)
  {
    NewTaskIsSound(s, e, w);
    TaskStaysSound(s, e, Apply(s, e).At(w).task.value);
  }

  lemma StepStaysSound(s: System, e: Event)
    requires Sound(s) && Enabled(s, e)
    ensures Sound(Apply(s, e))
  {
    var t := Apply(s, e);
    forall id | id in t.rows
      ensures RowOk(t.rows[id], t.clock)
    {
      RowsStaySound(s, e, id);
    }
    forall w | w in t.workers && t.workers[w].task.Some?
      ensures TaskOk(t.workers[w].task.value, t.rows, t.clock)
    {
      assert t.At(w) == t.workers[w];
      TasksStaySound(s, e, w);
    }
  }

  /** Any interleaving of intake, claims, replies, crashes and recoveries keeps every row sound. */
  lemma {:induction false} RunIsSound(r: Run)
    requires Valid(r)
    ensures Sound(After(r))
  {
    if r.Then? {
      RunIsSound(r.before);
      StepStaysSound(After(r.before), r.event);
    }
  }
}
