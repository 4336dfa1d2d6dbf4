/** The durable checkpoint of the REST-request robot: after an application call has settled none is issued any more, and
    every delivery carries its result (app/jobs/processor.py:169-242). */
module JobCheckpoint {
  import opened Prelude
  import opened JobModel
  import opened JobRepository
  import opened JobIntake
  import opened JobProcessor
  import opened JobQueue
  import opened JobLedger
  import opened JobLease

  /** What happens to the application calls of a job: one goes out, or one that is out ends. */
  datatype CallEvent = Issued | Ended(reply: Reply<nat>)

  ghost function CallsAfter(s: System, e: Event, id: JobId, calls: seq<CallEvent>): seq<CallEvent>
    requires Enabled(s, e)
  {
    if e.Issue? && ByTask(s, e, id) then calls + [Issued]
    else if e.Request? && ByTask(s, e, id) then calls + [Ended(e.reply)]
    else calls
  }

  /** The values of every bizproc.event.send that goes out, whether and however it ends. */
  ghost function SendsAfter(s: System, e: Event, id: JobId, sends: seq<ReturnValues>): seq<ReturnValues>
    requires Enabled(s, e)
  {
    if e.Dispatch? && ByTask(s, e, id) then sends + [s.TaskOf(e.worker).pc.values] else sends
  }

  ghost function Calls(r: Run, id: JobId): seq<CallEvent>
    requires Valid(r)
  {
    match r
    case Start(_, _) => []
    case Then(p, e) => CallsAfter(After(p), e, id, Calls(p, id))
  }

  ghost function Sends(r: Run, id: JobId): seq<ReturnValues>
    requires Valid(r)
  {
    match r
    case Start(_, _) => []
    case Then(p, e) => SendsAfter(After(p), e, id, Sends(p, id))
  }

  // ---------------------------------------------------------------- what must not happen

  function Settled(c: CallEvent): Option<ReturnValues> {
    if c.Ended? then SettledValues(c.reply) else None
  }

  /** The result of the latest settled call, if one has settled. */
  function Result(calls: seq<CallEvent>): Option<ReturnValues> {
    if calls == [] then None
    else
      var last := |calls| - 1;
      if Settled(calls[last]).Some? then Settled(calls[last]) else Result(calls[..last])
  }

  /** Once a call has settled, no call is issued any more and no other call settles. */
  predicate CallsOk(calls: seq<CallEvent>) {
    forall i, j | 0 <= i < j < |calls| && Settled(calls[i]).Some? :: calls[j].Ended? && Settled(calls[j]).None?
  }

  lemma {:induction false} ResultIsSettled(calls: seq<CallEvent>)
    ensures Result(calls).Some? <==> exists i | 0 <= i < |calls| :: Settled(calls[i]).Some?
  {
    if calls != [] {
      ResultIsSettled(calls[..|calls| - 1]);
      if i :| 0 <= i < |calls| - 1 && Settled(calls[i]).Some? {
        assert Settled(calls[..|calls| - 1][i]).Some?;
      }
    }
  }

  lemma OneMoreCall(calls: seq<CallEvent>, c: CallEvent)
    ensures Result(calls + [c]) == if Settled(c).Some? then Settled(c) else Result(calls)
    ensures CallsOk(calls + [c]) <==> CallsOk(calls) && (Result(calls).Some? ==> c.Ended? && Settled(c).None?)
  {
    var more := calls + [c];
    assert more[..|calls|] == calls;
    ResultIsSettled(calls);
    if CallsOk(more) {
      forall i, j | 0 <= i < j < |calls| && Settled(calls[i]).Some?
        ensures calls[j].Ended? && Settled(calls[j]).None?
      {
        assert Settled(more[i]).Some? && more[j] == calls[j];
      }
      if i :| 0 <= i < |calls| && Settled(calls[i]).Some? {
        assert Settled(more[i]).Some? && more[|calls|] == c;
      }
    }
  }

  ghost predicate AtCheckpoint(s: System, w: WorkerId, id: JobId) {
    s.Stands(w) && s.TaskOf(w).id == id && s.TaskOf(w).pc.Checkpointing?
  }

  ghost predicate SomeoneAtCheckpoint(s: System, id: JobId) {
    exists w :: AtCheckpoint(s, w, id)
  }

  ghost predicate IsRest(s: System, id: JobId) {
    id in s.rows && s.rows[id].payload.RestPayload?
  }

  /** A call was issued or settled after one had settled; or a settled result is lost: it is not stored and nobody is
      left who would store it. */
  ghost predicate Broken(s: System, id: JobId, calls: seq<CallEvent>)
    requires IsRest(s, id)
  {
    || !CallsOk(calls)
    || (Result(calls).Some? && !s.rows[id].payload.requestCompleted && !SomeoneAtCheckpoint(s, id))
  }

  // ---------------------------------------------------------------- the events that do it

  /** A result is stored, or a worker is about to store one. */
  ghost predicate Settling(s: System, id: JobId)
    requires IsRest(s, id)
  {
    s.rows[id].payload.requestCompleted || SomeoneAtCheckpoint(s, id)
  }

  /** A worker that loaded the row too early goes to the call, or its call settles, although a result is stored or about
      to be; the worker at the checkpoint crashes or fails to save; or it saves when the row is no longer processing. */
  ghost predicate CutsIn(s: System, e: Event, id: JobId)
    requires Enabled(s, e)
  {
    && IsRest(s, id)
    && (|| (e.Issue? && ByTask(s, e, id) && Settling(s, id))
        || (e.Request? && ByTask(s, e, id) && SettledValues(e.reply).Some? && Settling(s, id))
        || ((e.Crash? || e.Abandon?) && AtCheckpoint(s, e.worker, id))
        || (e.Save? && ByTask(s, e, id) && s.rows[id].status != Processing))
  }

  ghost predicate Prompt(r: Run, id: JobId)
    requires Valid(r)
  {
    r.Then? ==> Prompt(r.before, id) && !CutsIn(After(r.before), r.event, id)
  }

  // ---------------------------------------------------------------- the invariant

  /** The result that the checkpoint columns hold, if they do. */
  function Stored(row: Row): Option<ReturnValues>
    requires row.payload.RestPayload?
  {
    if row.payload.requestCompleted then Some(row.returnValues) else None
  }

  /** What a worker at each point of the processor knows about the checkpoint, whether it holds the row or not. */
  ghost predicate TaskBacked(s: System, w: WorkerId, id: JobId, result: Option<ReturnValues>)
    requires IsRest(s, id)
  {
    s.Stands(w) && s.TaskOf(w).id == id ==>
      var row, job, pc := s.rows[id], s.TaskOf(w).job, s.TaskOf(w).pc;
      && job.payload.RestPayload?
      && (job.payload.requestCompleted ==> Stored(row) == Some(job.returnValues))
      && (pc.Calling? ==> !job.payload.requestCompleted)
      && (pc.Checkpointing? ==> Stored(row) == None && result == Some(pc.values))
      && (pc.Delivering? ==> Stored(row) == Some(pc.values))
      && (pc.Sending? ==> Stored(row) == Some(pc.values))
      && (pc.Reporting? && pc.move.Finished? ==> Stored(row) == Some(pc.move.returnValues))
  }

  ghost predicate RowBacked(s: System, id: JobId, calls: seq<CallEvent>, sends: seq<ReturnValues>)
    requires IsRest(s, id)
  {
    var stored := Stored(s.rows[id]);
    && CallsOk(calls)
    && (stored.Some? ==> Result(calls) == stored)
    && (stored.None? && Result(calls).Some? ==> SomeoneAtCheckpoint(s, id))
    && (sends != [] ==> stored.Some?)
    && (forall k | 0 <= k < |sends| :: Some(sends[k]) == stored)
    && (s.rows[id].status == Completed ==> stored.Some?)
  }

  ghost predicate OneAtCheckpoint(s: System, id: JobId) {
    forall v, w | AtCheckpoint(s, v, id) && AtCheckpoint(s, w, id) :: v == w
  }

  ghost predicate Backed(s: System, id: JobId, calls: seq<CallEvent>, sends: seq<ReturnValues>) {
    && IsRest(s, id)
    && RowBacked(s, id, calls, sends) && OneAtCheckpoint(s, id)
    && (forall w :: TaskBacked(s, w, id, Result(calls)))
  }

  ghost predicate Stepping(s: System, e: Event, id: JobId, calls: seq<CallEvent>, sends: seq<ReturnValues>) {
    Sound(s) && Enabled(s, e) && Backed(s, id, calls, sends)
  }

  // ---------------------------------------------------------------- one step

  /** History and state agree: a result is stored or about to be exactly when a call has settled. */
  lemma SettlingMeansResult(s: System, id: JobId, calls: seq<CallEvent>, sends: seq<ReturnValues>)
    requires Backed(s, id, calls, sends)
    ensures Settling(s, id) <==> Result(calls).Some?
    ensures !Broken(s, id, calls)
  {
    if w :| AtCheckpoint(s, w, id) {
      assert TaskBacked(s, w, id, Result(calls));
    }
  }

  /** Unless something cuts in, an application call goes out only before any has settled and before anything was sent.
      */
  lemma CallsOnlyWhileUnsettled(s: System, e: Event, id: JobId, calls: seq<CallEvent>, sends: seq<ReturnValues>)
    requires Stepping(s, e, id, calls, sends) && !CutsIn(s, e, id) && e.Issue? && ByTask(s, e, id)
    ensures Result(calls).None? && Stored(s.rows[id]).None? && sends == []
  {
    SettlingMeansResult(s, id, calls, sends);
  }

  lemma CallsStayOk(s: System, e: Event, id: JobId, calls: seq<CallEvent>, sends: seq<ReturnValues>)
    requires Stepping(s, e, id, calls, sends)
    requires e.Issue? || e.Request? ==> !CutsIn(s, e, id)
    ensures CallsOk(CallsAfter(s, e, id, calls))
    ensures Result(CallsAfter(s, e, id, calls))
         == if e.Request? && ByTask(s, e, id) && SettledValues(e.reply).Some? then SettledValues(e.reply)
            else Result(calls)
  {
    SettlingMeansResult(s, id, calls, sends);
    if e.Issue? {
      OneMoreCall(calls, Issued);
    } else if e.Request? {
      OneMoreCall(calls, Ended(e.reply));
    }
  }

  /** A move other than a save leaves the stored result alone, provided that a completion repeats it. */
  lemma MoveAndStored(row: Row, move: Move, clock: Instant)
    requires row.payload.RestPayload? && Legal(row, move, clock)
    requires move.Finished? ==> Stored(row) == Some(move.returnValues)
    requires move.Saved? ==> move.payload.requestCompleted
    requires row.status == Completed ==> Stored(row).Some?
    ensures Moved(row, move).payload.RestPayload?
    ensures Stored(Moved(row, move)) == if move.Saved? then Some(move.returnValues) else Stored(row)
    ensures Moved(row, move).status == Completed ==> Stored(Moved(row, move)).Some?
  {
  }

  /** What a worker writes to the job: a save of its call's result, or a completion that repeats the stored one. */
  lemma MoveIsBacked(s: System, e: Event, id: JobId, calls: seq<CallEvent>, sends: seq<ReturnValues>)
    requires Stepping(s, e, id, calls, sends) && MoveOf(s, e, id).Some?
    ensures var move := MoveOf(s, e, id).value;
            && Legal(s.rows[id], move, s.clock)
            && (move.Finished? ==> Stored(s.rows[id]) == Some(move.returnValues))
            && (move.Saved? <==> e.Save?)
            && (e.Save? ==> ByTask(s, e, id) && move.payload.RestPayload? && move.payload.requestCompleted
                            && move.returnValues == s.TaskOf(e.worker).pc.values)
  {
    MoveIsLegal(s, e, id);
    if OnTask(e) {
      assert TaskBacked(s, e.worker, id, Result(calls));
      assert TaskOk(s.TaskOf(e.worker), s.rows, s.clock);
    }
  }

  /** The stored result changes only when the worker at the checkpoint saves. */
  lemma StoredAfter(s: System, e: Event, id: JobId, calls: seq<CallEvent>, sends: seq<ReturnValues>)
    requires Stepping(s, e, id, calls, sends)
    ensures IsRest(Apply(s, e), id)
    ensures Stored(Apply(s, e).rows[id])
         == if e.Save? && ByTask(s, e, id) && s.rows[id].status == Processing then Some(s.TaskOf(e.worker).pc.values)
            else Stored(s.rows[id])
    ensures Apply(s, e).rows[id].status == Completed ==> Stored(Apply(s, e).rows[id]).Some?
  {
    Projection(s, e, id);
    assert OnTask(e) ==> TaskBacked(s, e.worker, id, Result(calls));
    if MoveOf(s, e, id).Some? {
      MoveIsBacked(s, e, id, calls, sends);
      MoveAndStored(s.rows[id], MoveOf(s, e, id).value, s.clock);
    }
  }

  lemma CallSettles(s: System, e: Event, id: JobId)
    requires Sound(s) && Enabled(s, e) && e.Request? && ByTask(s, e, id)
    ensures AtCheckpoint(Apply(s, e), e.worker, id) <==> SettledValues(e.reply).Some?
    ensures !AtCheckpoint(s, e.worker, id)
  {
    assert TaskOk(s.TaskOf(e.worker), s.rows, s.clock);
    AfterRequestOk(s.TaskOf(e.worker).job, e.reply, s.clock, e.random, s.config.retry);
  }

  lemma OwnCheckpointAfter(s: System, e: Event, id: JobId)
    requires Enabled(s, e) && OnTask(e) && !e.Request?
    ensures !AtCheckpoint(Apply(s, e), e.worker, id)
    ensures AtCheckpoint(s, e.worker, id) ==> e.Save? || e.Abandon?
  {
    if e.Send? {
      var task := s.TaskOf(e.worker);
      assert !NextPc(task, e, s.clock, s.config).Some? || !NextPc(task, e, s.clock, s.config).value.Checkpointing?;
    }
  }

  lemma OthersCheckpointAfter(s: System, e: Event, w: WorkerId, id: JobId)
    requires Enabled(s, e) && !(OnTask(e) && e.worker == w)
    ensures AtCheckpoint(Apply(s, e), w, id) <==> AtCheckpoint(s, w, id) && !(e.Crash? && e.worker == w)
    ensures AtCheckpoint(Apply(s, e), w, id) ==> Apply(s, e).TaskOf(w) == s.TaskOf(w)
  {
  }

  /** A worker arrives at the checkpoint when its call settles, and leaves it by its own next event or a crash. */
  lemma CheckpointAfter(s: System, e: Event, w: WorkerId, id: JobId)
    requires Sound(s) && Enabled(s, e) && IsRest(s, id)
    ensures AtCheckpoint(Apply(s, e), w, id) <==>
              || (AtCheckpoint(s, w, id) && !((OnTask(e) || e.Crash?) && e.worker == w))
              || (e.Request? && ByTask(s, e, id) && e.worker == w && SettledValues(e.reply).Some?)
    ensures AtCheckpoint(Apply(s, e), w, id) && AtCheckpoint(s, w, id) ==> Apply(s, e).TaskOf(w) == s.TaskOf(w)
    ensures AtCheckpoint(s, w, id) && OnTask(e) && e.worker == w ==> e.Save? || e.Abandon?
  {
    if !(OnTask(e) && e.worker == w) {
      OthersCheckpointAfter(s, e, w, id);
    } else if !e.Request? {
      OwnCheckpointAfter(s, e, id);
    } else if s.TaskOf(w).id == id {
      CallSettles(s, e, id);
    }
  }

  lemma CheckpointStaysSingle(s: System, e: Event, id: JobId, calls: seq<CallEvent>, sends: seq<ReturnValues>)
    requires Stepping(s, e, id, calls, sends) && !CutsIn(s, e, id)
    ensures OneAtCheckpoint(Apply(s, e), id)
  {
    forall v, w | AtCheckpoint(Apply(s, e), v, id) && AtCheckpoint(Apply(s, e), w, id)
      ensures v == w
    {
      CheckpointAfter(s, e, v, id);
      CheckpointAfter(s, e, w, id);
    }
  }

  lemma RowStaysBacked(s: System, e: Event, id: JobId, calls: seq<CallEvent>, sends: seq<ReturnValues>)
    requires Stepping(s, e, id, calls, sends) && !CutsIn(s, e, id)
    ensures IsRest(Apply(s, e), id)
    ensures RowBacked(Apply(s, e), id, CallsAfter(s, e, id, calls), SendsAfter(s, e, id, sends))
  {
    StoredAfter(s, e, id, calls, sends);
    CallsStayOk(s, e, id, calls, sends);
    SettlingMeansResult(s, id, calls, sends);
    if OnTask(e) {
      assert TaskBacked(s, e.worker, id, Result(calls));
      CheckpointAfter(s, e, e.worker, id);
    }
    if w :| AtCheckpoint(s, w, id) {
      assert TaskBacked(s, w, id, Result(calls));
      CheckpointAfter(s, e, w, id);
    }
  }

  /** A worker that goes on with the job keeps to the checkpoint. */
  lemma OwnStepStaysBacked(s: System, e: Event, id: JobId, calls: seq<CallEvent>, sends: seq<ReturnValues>)
    requires Stepping(s, e, id, calls, sends) && !CutsIn(s, e, id) && ByTask(s, e, id)
    ensures IsRest(Apply(s, e), id)
    ensures TaskBacked(Apply(s, e), e.worker, id, Result(CallsAfter(s, e, id, calls)))
  {
    StoredAfter(s, e, id, calls, sends);
    CallsStayOk(s, e, id, calls, sends);
    SettlingMeansResult(s, id, calls, sends);
    var task := s.TaskOf(e.worker);
    assert TaskBacked(s, e.worker, id, Result(calls));
    assert TaskOk(task, s.rows, s.clock);
    if e.Request? {
      AfterRequestOk(task.job, e.reply, s.clock, e.random, s.config.retry);
    } else if e.Send? {
      AfterSendOk(task.job, task.pc.values, e.delivered, s.clock, e.random, s.config.retry);
    }
  }

  /** How a task on this job can look after an event that is not its own step. */
  lemma OthersTaskAfter(s: System, e: Event, w: WorkerId, id: JobId)
    requires Enabled(s, e) && IsRest(s, id) && !(ByTask(s, e, id) && e.worker == w)
    requires Apply(s, e).Stands(w) && Apply(s, e).TaskOf(w).id == id
    ensures || (s.Stands(w) && Apply(s, e).TaskOf(w) == s.TaskOf(w))
            || (&& e.Load? && Apply(s, e).TaskOf(w).job == s.rows[id]
                && (|| Apply(s, e).TaskOf(w).pc.Loaded?
                    || Apply(s, e).TaskOf(w).pc == Reporting(MarkedFailed("invalid_persisted_job"))))
  {
    TaskAfter(s, e, w);
    Projection(s, e, id);
  }

  /** While a save goes through, no other worker is past the call. */
  lemma OtherStepStaysBacked(s: System, e: Event, w: WorkerId, id: JobId,
                             calls: seq<CallEvent>, sends: seq<ReturnValues>)
    requires Stepping(s, e, id, calls, sends) && !CutsIn(s, e, id) && !(ByTask(s, e, id) && e.worker == w)
    ensures IsRest(Apply(s, e), id)
    ensures TaskBacked(Apply(s, e), w, id, Result(CallsAfter(s, e, id, calls)))
  {
    StoredAfter(s, e, id, calls, sends);
    CallsStayOk(s, e, id, calls, sends);
    SettlingMeansResult(s, id, calls, sends);
    if Apply(s, e).Stands(w) && Apply(s, e).TaskOf(w).id == id {
      OthersTaskAfter(s, e, w, id);
      assert TaskBacked(s, w, id, Result(calls));
      assert OnTask(e) ==> TaskBacked(s, e.worker, id, Result(calls));
      assert AtCheckpoint(s, w, id) && e.Save? && ByTask(s, e, id) ==> AtCheckpoint(s, e.worker, id);
    }
  }

  lemma StepStaysBacked(s: System, e: Event, id: JobId, calls: seq<CallEvent>, sends: seq<ReturnValues>)
    requires Stepping(s, e, id, calls, sends) && !CutsIn(s, e, id)
    ensures Backed(Apply(s, e), id, CallsAfter(s, e, id, calls), SendsAfter(s, e, id, sends))
  {
    RowStaysBacked(s, e, id, calls, sends);
    CheckpointStaysSingle(s, e, id, calls, sends);
    forall w
      ensures TaskBacked(Apply(s, e), w, id, Result(CallsAfter(s, e, id, calls)))
    {
      if ByTask(s, e, id) && e.worker == w {
        OwnStepStaysBacked(s, e, id, calls, sends);
      } else {
        OtherStepStaysBacked(s, e, w, id, calls, sends);
      }
    }
  }

  // ---------------------------------------------------------------- exactly what breaks the checkpoint

  lemma LateCallBreaks(s: System, e: Event, id: JobId, calls: seq<CallEvent>, sends: seq<ReturnValues>)
    requires Stepping(s, e, id, calls, sends) && CutsIn(s, e, id) && (e.Issue? || e.Request?)
    ensures IsRest(Apply(s, e), id) && Broken(Apply(s, e), id, CallsAfter(s, e, id, calls))
  {
    StoredAfter(s, e, id, calls, sends);
    SettlingMeansResult(s, id, calls, sends);
    OneMoreCall(calls, if e.Issue? then Issued else Ended(e.reply));
  }

  lemma LostResultBreaks(s: System, e: Event, id: JobId, calls: seq<CallEvent>, sends: seq<ReturnValues>)
    requires Stepping(s, e, id, calls, sends) && CutsIn(s, e, id) && !(e.Issue? || e.Request?)
    ensures IsRest(Apply(s, e), id) && Broken(Apply(s, e), id, CallsAfter(s, e, id, calls))
  {
    StoredAfter(s, e, id, calls, sends);
    assert AtCheckpoint(s, e.worker, id) && TaskBacked(s, e.worker, id, Result(calls));
    forall w
      ensures !AtCheckpoint(Apply(s, e), w, id)
    {
      CheckpointAfter(s, e, w, id);
    }
  }

  /** One event breaks the checkpoint if and only if it cuts in. */
  lemma CheckpointBreaks(s: System, e: Event, id: JobId, calls: seq<CallEvent>, sends: seq<ReturnValues>)
    requires Stepping(s, e, id, calls, sends)
    ensures IsRest(Apply(s, e), id)
    ensures Broken(Apply(s, e), id, CallsAfter(s, e, id, calls)) <==> CutsIn(s, e, id)
  {
    if !CutsIn(s, e, id) {
      StepStaysBacked(s, e, id, calls, sends);
      SettlingMeansResult(Apply(s, e), id, CallsAfter(s, e, id, calls), SendsAfter(s, e, id, sends));
    } else if e.Issue? || e.Request? {
      LateCallBreaks(s, e, id, calls, sends);
    } else {
      LostResultBreaks(s, e, id, calls, sends);
    }
  }

  // ---------------------------------------------------------------- whole runs

  lemma NoWorkBeforeIntake(s: System, e: Event, id: JobId)
    requires Sound(s) && Enabled(s, e) && id !in s.rows
    ensures !ByTask(s, e, id)
  {
    assert forall w :: s.Stands(w) ==> TaskOk(s.TaskOf(w), s.rows, s.clock);
  }

  lemma {:induction false} NoTaskBeforeIntake(r: Run, id: JobId)
    requires Valid(r) && id !in After(r).rows
    ensures Calls(r, id) == [] && Sends(r, id) == [] && Prompt(r, id) && NeverBroken(r, id)
  {
    if r.Then? {
      RunIsSound(r.before);
      if id in After(r.before).rows {
        Projection(After(r.before), r.event, id);
        assert false;
      }
      NoTaskBeforeIntake(r.before, id);
      NoWorkBeforeIntake(After(r.before), r.event, id);
    }
  }

  lemma FreshRowIsBacked(s: System, e: Event, id: JobId)
    requires Sound(s) && Enabled(s, e) && id !in s.rows && IsRest(Apply(s, e), id)
    ensures Backed(Apply(s, e), id, [], [])
  {
    Appearance(s, e, id);
    forall w
      ensures !(Apply(s, e).Stands(w) && Apply(s, e).TaskOf(w).id == id)
    {
      assert s.Stands(w) ==> TaskOk(s.TaskOf(w), s.rows, s.clock);
    }
  }

  lemma IntakeIsBacked(r: Run, id: JobId)
    requires Valid(r) && r.Then? && id !in After(r.before).rows && IsRest(After(r), id)
    ensures Backed(After(r), id, Calls(r, id), Sends(r, id)) && Prompt(r, id) && NeverBroken(r, id)
  {
    RunIsSound(r.before);
    NoTaskBeforeIntake(r.before, id);
    NoWorkBeforeIntake(After(r.before), r.event, id);
    FreshRowIsBacked(After(r.before), r.event, id);
    SettlingMeansResult(After(r), id, Calls(r, id), Sends(r, id));
  }

  lemma LastStepIsBacked(r: Run, id: JobId)
    requires Valid(r) && r.Then? && Backed(After(r.before), id, Calls(r.before, id), Sends(r.before, id))
    ensures IsRest(After(r), id)
    ensures Broken(After(r), id, Calls(r, id)) <==> CutsIn(After(r.before), r.event, id)
    ensures !CutsIn(After(r.before), r.event, id) ==> Backed(After(r), id, Calls(r, id), Sends(r, id))
  {
    RunIsSound(r.before);
    CheckpointBreaks(After(r.before), r.event, id, Calls(r.before, id), Sends(r.before, id));
    if !CutsIn(After(r.before), r.event, id) {
      StepStaysBacked(After(r.before), r.event, id, Calls(r.before, id), Sends(r.before, id));
    }
  }

  lemma AlwaysRest(r: Run, id: JobId)
    requires Valid(r) && IsRest(After(r), id)
    ensures r.Then? && (id in After(r.before).rows ==> IsRest(After(r.before), id))
  {
    LastStep(r, id);
  }

  lemma {:induction false} RunIsBacked(r: Run, id: JobId)
    requires Valid(r) && Prompt(r, id) && IsRest(After(r), id)
    ensures Backed(After(r), id, Calls(r, id), Sends(r, id))
  {
    AlwaysRest(r, id);
    if id in After(r.before).rows {
      RunIsBacked(r.before, id);
      LastStepIsBacked(r, id);
    } else {
      IntakeIsBacked(r, id);
    }
  }

  /** A worker that has a result in its hands, about to send it or sending it. */
  ghost predicate Carries(s: System, w: WorkerId, id: JobId) {
    s.Stands(w) && s.TaskOf(w).id == id && (s.TaskOf(w).pc.Delivering? || s.TaskOf(w).pc.Sending?)
  }

  /** After an application call has settled none is issued and none settles; and every delivery that goes out or is
      about to, over all retries, crashes, recoveries and stale workers, carries the one settled result, which is also
      what a completed row stores. Nothing is asked of the write-backs: only that no event cuts in. */
  lemma CheckpointHolds(r: Run, id: JobId)
    requires Valid(r) && Prompt(r, id) && IsRest(After(r), id)
    ensures forall i, j | 0 <= i < j < |Calls(r, id)| && Settled(Calls(r, id)[i]).Some? ::
              Calls(r, id)[j].Ended? && Settled(Calls(r, id)[j]).None?
    ensures forall k | 0 <= k < |Sends(r, id)| :: Result(Calls(r, id)) == Some(Sends(r, id)[k])
    ensures forall w | Carries(After(r), w, id) :: Result(Calls(r, id)) == Some(After(r).TaskOf(w).pc.values)
    ensures After(r).rows[id].status == Completed ==> Result(Calls(r, id)) == Some(After(r).rows[id].returnValues)
  {
    RunIsBacked(r, id);
    forall w | Carries(After(r), w, id)
      ensures Result(Calls(r, id)) == Some(After(r).TaskOf(w).pc.values)
    {
      assert TaskBacked(After(r), w, id, Result(Calls(r, id)));
    }
  }

  /** At no point of the run was the checkpoint broken. */
  ghost predicate NeverBroken(r: Run, id: JobId)
    requires Valid(r)
  {
    && (IsRest(After(r), id) ==> !Broken(After(r), id, Calls(r, id)))
    && (r.Then? ==> NeverBroken(r.before, id))
  }

  /** The exact condition: the checkpoint of a REST request is never broken if and only if no event cuts in. */
  lemma {:induction false} NeverBrokenIffPrompt(r: Run, id: JobId)
    requires Valid(r) && IsRest(After(r), id)
    ensures NeverBroken(r, id) <==> Prompt(r, id)
  {
    AlwaysRest(r, id);
    if id in After(r.before).rows {
      NeverBrokenIffPrompt(r.before, id);
      if Prompt(r.before, id) {
        RunIsBacked(r.before, id);
        LastStepIsBacked(r, id);
      }
    } else {
      IntakeIsBacked(r, id);
    }
  }

  // ---------------------------------------------------------------- the lease, kept from the call to its checkpoint

  /** Whoever has a call out or its result unsaved holds the row. */
  ghost predicate CallersHold(s: System, id: JobId) {
    forall w | s.Stands(w) && s.TaskOf(w).id == id && (s.TaskOf(w).pc.Calling? || s.TaskOf(w).pc.Checkpointing?) ::
      Holds(s, w, id)
  }

  /** Every call is over and its result saved before the lease of its worker is taken away, and no worker crashes or
      fails to save in between. */
  ghost predicate HeldCalls(r: Run, id: JobId)
    requires Valid(r)
  {
    && CallersHold(After(r), id)
    && (r.Then? ==>
          && HeldCalls(r.before, id)
          && (r.event.Crash? || r.event.Abandon? ==> !AtCheckpoint(After(r.before), r.event.worker, id)))
  }

  /** The holder of the row loaded it after the checkpoint, if there is one. */
  ghost predicate SnapshotFresh(s: System, w: WorkerId, id: JobId)
    requires IsRest(s, id)
  {
    s.Stands(w) && s.TaskOf(w).id == id && Holds(s, w, id) && (s.TaskOf(w).pc.Loaded? || s.TaskOf(w).pc.Calling?) ==>
      s.TaskOf(w).job.payload.RestPayload?
      && (s.rows[id].payload.requestCompleted ==> s.TaskOf(w).job.payload.requestCompleted)
  }

  lemma HolderDoesNotCutIn(s: System, e: Event, id: JobId, calls: seq<CallEvent>, sends: seq<ReturnValues>)
    requires Stepping(s, e, id, calls, sends) && CallersHold(s, id) && CallersHold(Apply(s, e), id)
    requires forall w :: SnapshotFresh(s, w, id)
    requires e.Crash? || e.Abandon? ==> !AtCheckpoint(s, e.worker, id)
    ensures !CutsIn(s, e, id)
  {
    if OnTask(e) && s.TaskOf(e.worker).id == id {
      assert TaskBacked(s, e.worker, id, Result(calls)) && SnapshotFresh(s, e.worker, id);
      if e.Issue? {
        assert Apply(s, e).TaskOf(e.worker).pc.Calling?;
        assert Holds(Apply(s, e), e.worker, id);
      }
    }
  }

  /** A worker with a task claims nothing. */
  lemma StandingHolder(s: System, e: Event, w: WorkerId, id: JobId)
    requires Enabled(s, e) && id in s.rows && s.Stands(w) && Holds(Apply(s, e), w, id)
    ensures Holds(s, w, id)
  {
    Projection(s, e, id);
  }

  /** Nobody else saves while this worker holds the row. */
  lemma HeldResultStays(s: System, e: Event, w: WorkerId, id: JobId, calls: seq<CallEvent>, sends: seq<ReturnValues>)
    requires Stepping(s, e, id, calls, sends) && CallersHold(s, id) && Holds(s, w, id)
    ensures IsRest(Apply(s, e), id)
    ensures !(e.Save? && e.worker == w) ==> Stored(Apply(s, e).rows[id]) == Stored(s.rows[id])
  {
    StoredAfter(s, e, id, calls, sends);
    if e.Save? && ByTask(s, e, id) {
      assert Holds(s, e.worker, id);
    }
  }

  lemma SnapshotStaysFresh(s: System, e: Event, w: WorkerId, id: JobId, calls: seq<CallEvent>, sends: seq<ReturnValues>)
    requires Stepping(s, e, id, calls, sends) && CallersHold(s, id) && SnapshotFresh(s, w, id)
    ensures IsRest(Apply(s, e), id) && SnapshotFresh(Apply(s, e), w, id)
  {
    var t := Apply(s, e);
    StoredAfter(s, e, id, calls, sends);
    if t.Stands(w) && t.TaskOf(w).id == id && Holds(t, w, id) && (t.TaskOf(w).pc.Loaded? || t.TaskOf(w).pc.Calling?) {
      TaskAfter(s, e, w);
      if s.Stands(w) {
        StandingHolder(s, e, w, id);
        HeldResultStays(s, e, w, id, calls, sends);
      }
    }
  }

  lemma {:induction false} HeldCallsArePrompt(r: Run, id: JobId)
    requires Valid(r) && HeldCalls(r, id) && IsRest(After(r), id)
    ensures Prompt(r, id)
    ensures forall w :: SnapshotFresh(After(r), w, id)
  {
    AlwaysRest(r, id);
    var s, e := After(r.before), r.event;
    RunIsSound(r.before);
    if id in s.rows {
      HeldCallsArePrompt(r.before, id);
      RunIsBacked(r.before, id);
      HolderDoesNotCutIn(s, e, id, Calls(r.before, id), Sends(r.before, id));
      forall w
        ensures SnapshotFresh(After(r), w, id)
      {
        SnapshotStaysFresh(s, e, w, id, Calls(r.before, id), Sends(r.before, id));
      }
    } else {
      IntakeIsBacked(r, id);
      Appearance(s, e, id);
    }
  }

  // ---------------------------------------------------------------- the windows before the checkpoint are real

  const CLAIMED_ROW := Moved(NewRow(RestCallback(0, 0, 0), 0.0, 0.0), Claimed(1, 0.0))

  /** Job 0 is a REST request that worker 1 claimed at once; worker 2 is idle. */
  ghost predicate FirstEpisode(s: System, clock: Instant) {
    && s.config == DEMO && s.clock == clock && s.rows.Keys == {0} && s.rows[0] == CLAIMED_ROW
    && s.At(2) == Worker([], None)
  }

  /** Job 0 was called for by nobody whose result is stored. */
  ghost predicate Uncalled(s: System) {
    0 in s.rows && s.rows[0].status == Processing && s.rows[0].payload == RestPayload(0.0, 0, false)
  }

  /** Two runs that differ in nothing but the workers. */
  ghost predicate SameTable(s: System, t: System) {
    s.rows == t.rows && s.config == t.config && s.clock == t.clock
  }

  lemma LoadOnly(p: Run, w: WorkerId) returns (r: Run)
    requires Valid(p) && Leased(p, 0) && After(p).At(w) == Worker([0], None) && Uncalled(After(p))
    ensures Valid(r) && Leased(r, 0) && Calls(r, 0) == Calls(p, 0) && SameTable(After(r), After(p))
    ensures After(r).At(w) == Worker([], Some(Task(0, After(p).rows[0], Loaded)))
    ensures forall v | v != w :: After(r).At(v) == After(p).At(v)
  {
    r := Then(p, Load(w, true));
    assert Valid(r);
  }

  lemma IssueOnly(p: Run, w: WorkerId, job: Row) returns (r: Run)
    requires Valid(p) && Leased(p, 0) && After(p).At(w) == Worker([], Some(Task(0, job, Loaded)))
    requires job.payload == RestPayload(0.0, 0, false)
    ensures Valid(r) && Leased(r, 0) && Calls(r, 0) == Calls(p, 0) + [Issued] && SameTable(After(r), After(p))
    ensures After(r).At(w) == Worker([], Some(Task(0, job, Calling))) && r == Then(p, Issue(w))
    ensures forall v | v != w :: After(r).At(v) == After(p).At(v)
  {
    r := Then(p, Issue(w));
    assert Valid(r);
  }

  lemma EndOnly(p: Run, w: WorkerId, job: Row, value: nat) returns (r: Run)
    requires Valid(p) && Leased(p, 0) && After(p).At(w) == Worker([], Some(Task(0, job, Calling)))
    requires job.payload == RestPayload(0.0, 0, false)
    ensures Valid(r) && Leased(r, 0) && SameTable(After(r), After(p))
    ensures Calls(r, 0) == Calls(p, 0) + [Ended(Answered(value))]
    ensures forall v | v != w :: After(r).At(v) == After(p).At(v)
  {
    r := Then(p, Request(w, Answered(value), 0.0));
    assert Valid(r);
  }

  lemma LoadAndIssue(p: Run, w: WorkerId) returns (r: Run)
    requires Valid(p) && Leased(p, 0) && After(p).At(w) == Worker([0], None) && Uncalled(After(p))
    ensures Valid(r) && Leased(r, 0) && Calls(r, 0) == Calls(p, 0) + [Issued] && SameTable(After(r), After(p))
    ensures After(r).At(w) == Worker([], Some(Task(0, After(p).rows[0], Calling)))
    ensures forall v | v != w :: After(r).At(v) == After(p).At(v)
  {
    var loaded := LoadOnly(p, w);
    r := IssueOnly(loaded, w, After(p).rows[0]);
  }

  lemma FirstEpisodeStart() returns (r: Run)
    ensures Valid(r) && Leased(r, 0) && Calls(r, 0) == [] && FirstEpisode(After(r), 0.0)
    ensures After(r).At(1) == Worker([0], None)
  {
    r := FirstClaim();
    assert Calls(r.before.before, 0) == [] && Calls(r.before, 0) == [] && Calls(r, 0) == [];
  }

  lemma Wait(p: Run) returns (r: Run)
    requires Valid(p) && Leased(p, 0) && FirstEpisode(After(p), 0.0)
    ensures Valid(r) && Leased(r, 0) && Calls(r, 0) == Calls(p, 0) && After(r) == After(p).(clock := 2.0)
  {
    r := Then(p, Tick(2.0));
  }

  lemma RecoverAfterwards(p: Run) returns (r: Run)
    requires Valid(p) && Leased(p, 0) && FirstEpisode(After(p), 2.0)
    ensures Valid(r) && Leased(r, 0) && Calls(r, 0) == Calls(p, 0)
    ensures After(r).config == DEMO && After(r).workers == After(p).workers && After(r).clock == 2.0
    ensures After(r).rows.Keys == {0} && After(r).rows[0].payload == RestPayload(0.0, 0, false)
    ensures Claimable(After(r).rows[0], 2.0)
  {
    r := Then(p, Recover(2.0));
  }

  lemma ClaimAgain(p: Run) returns (r: Run)
    requires Valid(p) && Leased(p, 0) && After(p).config == DEMO && After(p).At(2) == Worker([], None)
    requires After(p).clock == 2.0 && After(p).rows.Keys == {0}
    requires After(p).rows[0].payload == RestPayload(0.0, 0, false)
    requires Claimable(After(p).rows[0], 2.0)
    ensures Valid(r) && Leased(r, 0) && Calls(r, 0) == Calls(p, 0)
    ensures After(r).At(1) == After(p).At(1) && After(r).At(2) == Worker([0], None) && Uncalled(After(r))
  {
    OnlyDueRow(After(p).rows, 2.0);
    r := Then(p, Claim(2, [0], 2.0, {}));
    assert Valid(r);
  }

  /** After the first lease ran out worker 2 claims the job and calls. */
  lemma SecondEpisode(p: Run) returns (r: Run)
    requires Valid(p) && Leased(p, 0) && FirstEpisode(After(p), 0.0)
    ensures Valid(r) && Leased(r, 0) && Calls(r, 0) == Calls(p, 0) + [Issued] && Uncalled(After(r))
    ensures After(r).At(1) == After(p).At(1)
    ensures After(r).At(2) == Worker([], Some(Task(0, After(r).rows[0], Calling)))
  {
    var waited := Wait(p);
    var recovered := RecoverAfterwards(waited);
    var claimed := ClaimAgain(recovered);
    r := LoadAndIssue(claimed, 2);
  }

  /** A run under the lease that is not prompt: the j-th call event must not follow the i-th. */
  ghost predicate Repeats(r: Run, i: nat, j: nat) {
    && Valid(r) && Leased(r, 0) && i < j < |Calls(r, 0)| && Settled(Calls(r, 0)[i]).Some?
    && (Calls(r, 0)[j].Issued? || Settled(Calls(r, 0)[j]).Some?)
  }

  lemma RepeatIsNotPrompt(r: Run, i: nat, j: nat)
    requires Repeats(r, i, j) && Uncalled(After(r))
    ensures !Prompt(r, 0)
  {
    if Prompt(r, 0) {
      CheckpointHolds(r, 0);
    }
  }

  lemma CrashAfterTheCall() returns (r: Run)
    ensures Valid(r) && Leased(r, 0) && FirstEpisode(After(r), 0.0)
    ensures Calls(r, 0) == [Issued, Ended(Answered(5))]
  {
    var start := FirstEpisodeStart();
    var issued := LoadAndIssue(start, 1);
    var called := EndOnly(issued, 1, CLAIMED_ROW, 5);
    r := CrashOnly(called);
  }

  lemma CrashOnly(p: Run) returns (r: Run)
    requires Valid(p) && Leased(p, 0)
    ensures Valid(r) && Leased(r, 0) && Calls(r, 0) == Calls(p, 0) && SameTable(After(r), After(p))
    ensures After(r).At(2) == After(p).At(2)
  {
    r := Then(p, Crash(1));
  }

  /** The lease alone is not enough: after a crash between the settled call and its checkpoint a later claim issues the
      call again. */
  lemma CrashRepeatsTheCall() returns (r: Run)
    ensures Repeats(r, 1, 2) && Calls(r, 0) == [Issued, Ended(Answered(5)), Issued] && !Prompt(r, 0)
  {
    var crashed := CrashAfterTheCall();
    r := SecondEpisode(crashed);
    assert Settled(Calls(r, 0)[1]).Some?;
    RepeatIsNotPrompt(r, 1, 2);
  }

  lemma SettledWhileQueued() returns (r: Run)
    ensures Valid(r) && Leased(r, 0) && Uncalled(After(r)) && After(r).At(1) == Worker([0], None)
    ensures Calls(r, 0) == [Issued, Ended(Answered(5))]
  {
    var start := FirstEpisodeStart();
    var issued := SecondEpisode(start);
    r := EndOnly(issued, 2, After(issued).rows[0], 5);
  }

  /** Nor does it take a crash: a worker whose claimed job waited in its queue until the lease ran out loads the row
      once the next holder's call has settled, and issues the call again before the checkpoint is saved. */
  lemma QueuedJobRepeatsTheCall() returns (r: Run)
    ensures Repeats(r, 1, 2) && Calls(r, 0) == [Issued, Ended(Answered(5)), Issued] && !Prompt(r, 0)
    ensures r.event == Issue(1)
  {
    var settled := SettledWhileQueued();
    var loaded := LoadOnly(settled, 1);
    r := IssueOnly(loaded, 1, After(settled).rows[0]);
    assert Settled(Calls(r, 0)[1]).Some?;
    RepeatIsNotPrompt(r, 1, 2);
  }

  lemma SettledWhileCalling() returns (r: Run)
    ensures Valid(r) && Leased(r, 0) && Uncalled(After(r)) && Calls(r, 0) == [Issued, Issued, Ended(Answered(5))]
    ensures After(r).At(1) == Worker([], Some(Task(0, CLAIMED_ROW, Calling)))
  {
    var start := FirstEpisodeStart();
    var slow := LoadAndIssue(start, 1);
    var issued := SecondEpisode(slow);
    r := EndOnly(issued, 2, After(issued).rows[0], 5);
  }

  /** A call that outlives its lease can settle a second time, although it was issued before the other one settled. */
  lemma SlowCallSettlesTwice() returns (r: Run)
    ensures Repeats(r, 2, 3) && !Prompt(r, 0)
    ensures Calls(r, 0) == [Issued, Issued, Ended(Answered(5)), Ended(Answered(6))]
  {
    var settled := SettledWhileCalling();
    r := EndOnly(settled, 1, CLAIMED_ROW, 6);
    assert Settled(Calls(r, 0)[2]).Some? && Settled(Calls(r, 0)[3]).Some?;
    RepeatIsNotPrompt(r, 2, 3);
  }
}
