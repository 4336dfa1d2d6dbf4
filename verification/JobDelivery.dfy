/** How often the portal confirms the event of a job: at most once, and nothing is sent after that, exactly when no
    event cuts in between the confirmation and the completed row (app/jobs/processor.py:118-167, 335-365). */
module JobDelivery {
  import opened Prelude
  import opened JobModel
  import opened JobRepository
  import opened JobIntake
  import opened JobProcessor
  import opened JobQueue
  import opened JobLedger
  import opened JobLease

  /** What happens to bizproc.event.send: one goes out, or one that is out ends, confirmed or not. */
  datatype SendEvent = Dispatched | Ended(confirmed: bool)

  ghost function SendsAfter(s: System, e: Event, id: JobId, sends: seq<SendEvent>): seq<SendEvent>
    requires Enabled(s, e)
  {
    if e.Dispatch? && ByTask(s, e, id) then sends + [Dispatched]
    else if e.Send? && ByTask(s, e, id) then sends + [Ended(e.delivered == Answered(true))]
    else sends
  }

  ghost function Sends(r: Run, id: JobId): seq<SendEvent>
    requires Valid(r)
  {
    match r
    case Start(_, _) => []
    case Then(p, e) => SendsAfter(After(p), e, id, Sends(p, id))
  }

  // ---------------------------------------------------------------- what must not happen, and the events that do it

  /** Once the event was confirmed, nothing is sent any more and nothing else is confirmed. */
  predicate SendsOk(sends: seq<SendEvent>) {
    forall i, j | 0 <= i < j < |sends| && sends[i] == Ended(true) :: sends[j] == Ended(false)
  }

  lemma OneMoreSend(sends: seq<SendEvent>, d: SendEvent)
    ensures SendsOk(sends + [d]) <==> SendsOk(sends) && (Ended(true) in sends ==> d == Ended(false))
  {
    var more := sends + [d];
    if SendsOk(more) {
      forall i, j | 0 <= i < j < |sends| && sends[i] == Ended(true)
        ensures sends[j] == Ended(false)
      {
        assert more[i] == Ended(true) && more[j] == sends[j];
      }
      if i :| 0 <= i < |sends| && sends[i] == Ended(true) {
        assert more[i] == Ended(true) && more[|sends|] == d;
      }
    }
  }

  /** The event was confirmed to this worker, which has not reported it yet. */
  ghost predicate AtFinish(s: System, w: WorkerId, id: JobId) {
    s.Stands(w) && s.TaskOf(w).id == id && s.TaskOf(w).pc.Reporting? && s.TaskOf(w).pc.move.Finished?
  }

  ghost predicate SomeoneAtFinish(s: System, id: JobId) {
    exists w :: AtFinish(s, w, id)
  }

  /** The job is completed, or a worker is about to complete it. */
  ghost predicate Closing(s: System, id: JobId)
    requires id in s.rows
  {
    s.rows[id].status == Completed || SomeoneAtFinish(s, id)
  }

  /** Something was sent or confirmed after a confirmation; or a confirmation is lost: the job is not completed, and
      nobody is left who would complete it. */
  ghost predicate Broken(s: System, id: JobId, sends: seq<SendEvent>)
    requires id in s.rows
  {
    !SendsOk(sends) || (Ended(true) in sends && !Closing(s, id))
  }

  /** A worker sends, or its event is confirmed, although the job is completed or about to be; the worker to whom it was
      confirmed crashes or fails to report; or it reports when the row is no longer processing. */
  ghost predicate CutsIn(s: System, e: Event, id: JobId)
    requires Enabled(s, e)
  {
    && id in s.rows
    && (|| (e.Dispatch? && ByTask(s, e, id) && Closing(s, id))
        || (e.Send? && ByTask(s, e, id) && e.delivered == Answered(true) && Closing(s, id))
        || ((e.Crash? || e.Abandon?) && AtFinish(s, e.worker, id))
        || (e.Report? && AtFinish(s, e.worker, id) && s.rows[id].status != Processing))
  }

  ghost predicate Prompt(r: Run, id: JobId)
    requires Valid(r)
  {
    r.Then? ==> Prompt(r.before, id) && !CutsIn(After(r.before), r.event, id)
  }

  ghost predicate NeverBroken(r: Run, id: JobId)
    requires Valid(r)
  {
    && (id in After(r).rows ==> !Broken(After(r), id, Sends(r, id)))
    && (r.Then? ==> NeverBroken(r.before, id))
  }

  // ---------------------------------------------------------------- one step

  ghost predicate OneAtFinish(s: System, id: JobId) {
    forall v, w | AtFinish(s, v, id) && AtFinish(s, w, id) :: v == w
  }

  ghost predicate Backed(s: System, id: JobId, sends: seq<SendEvent>) {
    && id in s.rows && SendsOk(sends) && OneAtFinish(s, id)
    && (Ended(true) in sends <==> Closing(s, id))
    && (SomeoneAtFinish(s, id) ==> s.rows[id].status != Completed)
  }

  ghost predicate Stepping(s: System, e: Event, id: JobId, sends: seq<SendEvent>) {
    Sound(s) && Enabled(s, e) && Backed(s, id, sends)
  }

  lemma OwnFinishAfter(s: System, e: Event, id: JobId)
    requires Sound(s) && Enabled(s, e) && OnTask(e)
    ensures AtFinish(Apply(s, e), e.worker, id) <==> e.Send? && ByTask(s, e, id) && e.delivered == Answered(true)
    ensures AtFinish(s, e.worker, id) ==> e.Report? || e.Abandon?
  {
    var task := s.TaskOf(e.worker);
    assert TaskOk(task, s.rows, s.clock);
    if e.Send? {
      AfterSendOk(task.job, task.pc.values, e.delivered, s.clock, e.random, s.config.retry);
      assert e.delivered == Answered(true) ==> NextPc(task, e, s.clock, s.config).Some?;
    } else {
      SendDecides(s, e);
    }
  }

  lemma OthersFinishAfter(s: System, e: Event, w: WorkerId, id: JobId)
    requires Enabled(s, e) && !(OnTask(e) && e.worker == w)
    ensures AtFinish(Apply(s, e), w, id) <==> AtFinish(s, w, id) && !(e.Crash? && e.worker == w)
  {
  }

  /** A worker reaches the end when its event is confirmed, and leaves it by its own next event or a crash. */
  lemma FinishAfter(s: System, e: Event, w: WorkerId, id: JobId)
    requires Sound(s) && Enabled(s, e)
    ensures AtFinish(Apply(s, e), w, id) <==>
              || (AtFinish(s, w, id) && !((OnTask(e) || e.Crash?) && e.worker == w))
              || (e.Send? && ByTask(s, e, id) && e.worker == w && e.delivered == Answered(true))
    ensures AtFinish(s, w, id) && OnTask(e) && e.worker == w ==> e.Report? || e.Abandon?
  {
    if OnTask(e) && e.worker == w {
      OwnFinishAfter(s, e, id);
    } else {
      OthersFinishAfter(s, e, w, id);
    }
  }

  /** A row is completed only by the report of a confirmed event on a processing row. */
  lemma CompletedAfter(s: System, e: Event, id: JobId)
    requires Sound(s) && Enabled(s, e) && id in s.rows
    ensures id in Apply(s, e).rows
    ensures Apply(s, e).rows[id].status == Completed <==>
              || s.rows[id].status == Completed
              || (e.Report? && AtFinish(s, e.worker, id) && s.rows[id].status == Processing)
  {
    Projection(s, e, id);
    if MoveOf(s, e, id).Some? {
      MoveIsLegal(s, e, id);
    }
  }

  lemma SendsStayOk(s: System, e: Event, id: JobId, sends: seq<SendEvent>)
    requires Stepping(s, e, id, sends) && !CutsIn(s, e, id)
    ensures SendsOk(SendsAfter(s, e, id, sends))
    ensures Ended(true) in SendsAfter(s, e, id, sends) <==>
              Ended(true) in sends || (e.Send? && ByTask(s, e, id) && e.delivered == Answered(true))
  {
    if e.Dispatch? {
      OneMoreSend(sends, Dispatched);
    } else if e.Send? {
      OneMoreSend(sends, Ended(e.delivered == Answered(true)));
    }
  }

  lemma FinishStaysSingle(s: System, e: Event, id: JobId, sends: seq<SendEvent>)
    requires Stepping(s, e, id, sends) && !CutsIn(s, e, id)
    ensures OneAtFinish(Apply(s, e), id)
  {
    forall v, w | AtFinish(Apply(s, e), v, id) && AtFinish(Apply(s, e), w, id)
      ensures v == w
    {
      FinishAfter(s, e, v, id);
      FinishAfter(s, e, w, id);
    }
  }

  lemma ClosingAfter(s: System, e: Event, id: JobId, sends: seq<SendEvent>)
    requires Stepping(s, e, id, sends) && !CutsIn(s, e, id)
    ensures id in Apply(s, e).rows
    ensures Closing(Apply(s, e), id) <==>
              Closing(s, id) || (e.Send? && ByTask(s, e, id) && e.delivered == Answered(true))
    ensures SomeoneAtFinish(Apply(s, e), id) ==> Apply(s, e).rows[id].status != Completed
  {
    CompletedAfter(s, e, id);
    if w :| AtFinish(s, w, id) {
      FinishAfter(s, e, w, id);
    }
    if w :| AtFinish(Apply(s, e), w, id) {
      FinishAfter(s, e, w, id);
    }
    if OnTask(e) {
      FinishAfter(s, e, e.worker, id);
    }
  }

  lemma StepStaysBacked(s: System, e: Event, id: JobId, sends: seq<SendEvent>)
    requires Stepping(s, e, id, sends) && !CutsIn(s, e, id)
    ensures Backed(Apply(s, e), id, SendsAfter(s, e, id, sends))
  {
    SendsStayOk(s, e, id, sends);
    FinishStaysSingle(s, e, id, sends);
    ClosingAfter(s, e, id, sends);
  }

  /** One event repeats a delivery or loses its confirmation if and only if it cuts in. */
  lemma DeliveryBreaks(s: System, e: Event, id: JobId, sends: seq<SendEvent>)
    requires Stepping(s, e, id, sends)
    ensures id in Apply(s, e).rows
    ensures Broken(Apply(s, e), id, SendsAfter(s, e, id, sends)) <==> CutsIn(s, e, id)
  {
    CompletedAfter(s, e, id);
    if !CutsIn(s, e, id) {
      StepStaysBacked(s, e, id, sends);
    } else if e.Dispatch? || e.Send? {
      OneMoreSend(sends, if e.Dispatch? then Dispatched else Ended(true));
    } else {
      LostFinish(s, e, id, sends);
    }
  }

  lemma LostFinish(s: System, e: Event, id: JobId, sends: seq<SendEvent>)
    requires Stepping(s, e, id, sends) && CutsIn(s, e, id) && !(e.Dispatch? || e.Send?)
    ensures id in Apply(s, e).rows && Broken(Apply(s, e), id, SendsAfter(s, e, id, sends))
  {
    CompletedAfter(s, e, id);
    assert AtFinish(s, e.worker, id);
    forall w
      ensures !AtFinish(Apply(s, e), w, id)
    {
      FinishAfter(s, e, w, id);
    }
  }

  // ---------------------------------------------------------------- whole runs

  lemma NoWorkBeforeIntake(s: System, e: Event, id: JobId)
    requires Sound(s) && Enabled(s, e) && id !in s.rows
    ensures !ByTask(s, e, id)
  {
    assert forall w :: s.Stands(w) ==> TaskOk(s.TaskOf(w), s.rows, s.clock);
  }

  lemma {:induction false} NothingSentBeforeIntake(r: Run, id: JobId)
    requires Valid(r) && id !in After(r).rows
    ensures Sends(r, id) == [] && Prompt(r, id) && NeverBroken(r, id)
  {
    if r.Then? {
      RunIsSound(r.before);
      if id in After(r.before).rows {
        Projection(After(r.before), r.event, id);
        assert false;
      }
      NothingSentBeforeIntake(r.before, id);
      NoWorkBeforeIntake(After(r.before), r.event, id);
    }
  }

  lemma FreshRowIsBacked(s: System, e: Event, id: JobId)
    requires Sound(s) && Enabled(s, e) && id !in s.rows && id in Apply(s, e).rows
    ensures Backed(Apply(s, e), id, [])
  {
    Appearance(s, e, id);
    forall w
      ensures !AtFinish(Apply(s, e), w, id)
    {
      assert s.Stands(w) ==> TaskOk(s.TaskOf(w), s.rows, s.clock);
    }
  }

  lemma IntakeIsBacked(r: Run, id: JobId)
    requires Valid(r) && r.Then? && id !in After(r.before).rows && id in After(r).rows
    ensures Backed(After(r), id, Sends(r, id)) && Prompt(r, id) && NeverBroken(r, id)
  {
    RunIsSound(r.before);
    NothingSentBeforeIntake(r.before, id);
    NoWorkBeforeIntake(After(r.before), r.event, id);
    FreshRowIsBacked(After(r.before), r.event, id);
  }

  lemma LastStepIsBacked(r: Run, id: JobId)
    requires Valid(r) && r.Then? && Backed(After(r.before), id, Sends(r.before, id))
    ensures id in After(r).rows
    ensures Broken(After(r), id, Sends(r, id)) <==> CutsIn(After(r.before), r.event, id)
    ensures !CutsIn(After(r.before), r.event, id) ==> Backed(After(r), id, Sends(r, id))
  {
    RunIsSound(r.before);
    DeliveryBreaks(After(r.before), r.event, id, Sends(r.before, id));
    if !CutsIn(After(r.before), r.event, id) {
      StepStaysBacked(After(r.before), r.event, id, Sends(r.before, id));
    }
  }

  lemma {:induction false} RunIsBacked(r: Run, id: JobId)
    requires Valid(r) && Prompt(r, id) && id in After(r).rows
    ensures Backed(After(r), id, Sends(r, id))
  {
    if id in After(r.before).rows {
      RunIsBacked(r.before, id);
      LastStepIsBacked(r, id);
    } else {
      IntakeIsBacked(r, id);
    }
  }

  /** Unless an event cuts in, nothing is sent and nothing else is confirmed after a confirmation, over all retries,
      crashes, recoveries and stale workers, and a completed job was confirmed exactly once. */
  lemma DeliveredOnce(r: Run, id: JobId)
    requires Valid(r) && Prompt(r, id) && id in After(r).rows
    ensures SendsOk(Sends(r, id))
    ensures forall i, j | 0 <= i < |Sends(r, id)| && 0 <= j < |Sends(r, id)| ::
              Sends(r, id)[i] == Ended(true) && Sends(r, id)[j] == Ended(true) ==> i == j
    ensures After(r).rows[id].status == Completed ==> Ended(true) in Sends(r, id)
  {
    RunIsBacked(r, id);
  }

  /** The exact condition: a job's event is delivered without repetition and without loss if and only if no event cuts
      in. */
  lemma {:induction false} NeverBrokenIffPrompt(r: Run, id: JobId)
    requires Valid(r) && id in After(r).rows
    ensures NeverBroken(r, id) <==> Prompt(r, id)
  {
    if id in After(r.before).rows {
      NeverBrokenIffPrompt(r.before, id);
      if Prompt(r.before, id) {
        RunIsBacked(r.before, id);
        LastStepIsBacked(r, id);
      }
    } else {
      IntakeIsBacked(r, id);
    }
  }

  // ---------------------------------------------------------------- the lease, kept from the send to its report

  /** Whoever has a send out or its confirmation unreported holds the row. */
  ghost predicate SendersHold(s: System, id: JobId) {
    forall w | (s.Stands(w) && s.TaskOf(w).id == id && s.TaskOf(w).pc.Sending?) || AtFinish(s, w, id) :: Holds(s, w, id)
  }

  /** Every send is over and reported before the lease of its worker is taken away, and no worker crashes or fails to
      report after a confirmation. */
  ghost predicate HeldSends(r: Run, id: JobId)
    requires Valid(r)
  {
    && SendersHold(After(r), id)
    && (r.Then? ==>
          && HeldSends(r.before, id)
          && (r.event.Crash? || r.event.Abandon? ==> !AtFinish(After(r.before), r.event.worker, id)))
  }

  lemma HolderDoesNotCutIn(s: System, e: Event, id: JobId)
    requires Sound(s) && Enabled(s, e) && SendersHold(s, id) && SendersHold(Apply(s, e), id)
    requires e.Crash? || e.Abandon? ==> !AtFinish(s, e.worker, id)
    ensures !CutsIn(s, e, id)
  {
    if e.Dispatch? && ByTask(s, e, id) {
      assert Apply(s, e).TaskOf(e.worker).pc.Sending?;
      assert Holds(Apply(s, e), e.worker, id);
    }
  }

  lemma {:induction false} HeldSendsArePrompt(r: Run, id: JobId)
    requires Valid(r) && HeldSends(r, id)
    ensures Prompt(r, id)
  {
    if r.Then? {
      HeldSendsArePrompt(r.before, id);
      RunIsSound(r.before);
      HolderDoesNotCutIn(After(r.before), r.event, id);
    }
  }

  // ---------------------------------------------------------------- the window before the report is real

  /** One step of a worker that has job 0 in hand. */
  lemma Advance(p: Run, e: Event, job: Row, pc: Pc) returns (r: Run)
    requires Valid(p) && OnTask(e) && After(p).At(e.worker) == Worker([], Some(Task(0, job, pc)))
    requires Ready(Task(0, job, pc), e)
    ensures Valid(r)
    ensures Sends(r, 0) == Sends(p, 0) + (if e.Dispatch? then [Dispatched]
                                          else if e.Send? then [Ended(e.delivered == Answered(true))] else [])
    ensures After(r).config == After(p).config && After(r).clock == After(p).clock
    ensures var next := NextPc(Task(0, job, pc), e, After(p).clock, After(p).config);
            After(r).At(e.worker) == Worker([], if next.Some? then Some(Task(0, job, next.value)) else None)
    ensures var written := WriteOf(Task(0, job, pc), e);
            After(r).rows == if written.Some? then Transition(After(p).rows, 0, written.value) else After(p).rows
    ensures forall v | v != e.worker :: After(r).At(v) == After(p).At(v)
  {
    assert Enabled(After(p), e);
    r := Then(p, e);
  }

  const CLAIMED_ROW := Moved(NewRow(RestCallback(0, 0, 0), 0.0, 0.0), Claimed(1, 0.0))
  const SAVED_ROW := Moved(CLAIMED_ROW, Saved(RestPayload(0.0, 0, true), RestValues(5)))

  lemma FirstTask() returns (r: Run)
    ensures Valid(r) && After(r).config == DEMO && After(r).clock == 0.0 && Sends(r, 0) == []
    ensures After(r).rows.Keys == {0} && After(r).rows[0] == CLAIMED_ROW && After(r).At(2) == Worker([], None)
    ensures After(r).At(1) == Worker([], Some(Task(0, CLAIMED_ROW, Loaded)))
  {
    r := FirstLoad();
    assert Sends(r.before.before, 0) == [] && Sends(r.before, 0) == [];
  }

  lemma SaveResult() returns (r: Run)
    ensures Valid(r) && After(r).config == DEMO && After(r).clock == 0.0 && Sends(r, 0) == []
    ensures After(r).rows.Keys == {0} && After(r).rows[0] == SAVED_ROW && After(r).At(2) == Worker([], None)
    ensures After(r).At(1) == Worker([], Some(Task(0, CLAIMED_ROW, Delivering(RestValues(5)))))
  {
    var loaded := FirstTask();
    var issued := Advance(loaded, Issue(1), CLAIMED_ROW, Loaded);
    var settled := Advance(issued, Request(1, Answered(5), 0.0), CLAIMED_ROW, Calling);
    r := Advance(settled, Save(1), CLAIMED_ROW, Checkpointing(RestValues(5)));
  }

  lemma ConfirmThenCrash() returns (r: Run)
    ensures Valid(r) && After(r).config == DEMO && After(r).clock == 0.0
    ensures Sends(r, 0) == [Dispatched, Ended(true)]
    ensures After(r).rows.Keys == {0} && After(r).rows[0] == SAVED_ROW && After(r).At(2) == Worker([], None)
  {
    var saved := SaveResult();
    var sent := Advance(saved, Dispatch(1), CLAIMED_ROW, Delivering(RestValues(5)));
    var confirmed := Advance(sent, Send(1, Answered(true), 0.0), CLAIMED_ROW, Sending(RestValues(5)));
    r := CrashOnly(confirmed);
  }

  lemma CrashOnly(p: Run) returns (r: Run)
    requires Valid(p)
    ensures Valid(r) && Sends(r, 0) == Sends(p, 0)
    ensures After(r).rows == After(p).rows && After(r).config == After(p).config && After(r).clock == After(p).clock
    ensures After(r).At(2) == After(p).At(2)
  {
    r := Then(p, Crash(1));
  }

  lemma RecoverSaved(p: Run) returns (r: Run)
    requires Valid(p) && After(p).config == DEMO && After(p).clock == 0.0
    requires After(p).rows.Keys == {0} && After(p).rows[0] == SAVED_ROW && After(p).At(2) == Worker([], None)
    ensures Valid(r) && Sends(r, 0) == Sends(p, 0) && After(r).config == DEMO && After(r).clock == 2.0
    ensures After(r).rows.Keys == {0} && After(r).rows[0] == Moved(SAVED_ROW, Recovered(2.0, 1.0))
    ensures After(r).At(2) == Worker([], None)
  {
    var waited := Then(p, Tick(2.0));
    assert Valid(waited) && After(waited) == After(p).(clock := 2.0) && Sends(waited, 0) == Sends(p, 0);
    r := Then(waited, Recover(2.0));
  }

  lemma ReloadSaved(p: Run) returns (r: Run, job: Row)
    requires Valid(p) && After(p).config == DEMO && After(p).clock == 2.0 && After(p).At(2) == Worker([], None)
    requires After(p).rows.Keys == {0} && After(p).rows[0] == Moved(SAVED_ROW, Recovered(2.0, 1.0))
    ensures Valid(r) && Sends(r, 0) == Sends(p, 0)
    ensures After(r).At(2) == Worker([], Some(Task(0, job, Loaded))) && job.payload == RestPayload(0.0, 0, true)
    ensures 0 in After(r).rows
  {
    OnlyDueRow(After(p).rows, 2.0);
    var claimed := Then(p, Claim(2, [0], 2.0, {}));
    assert Valid(claimed) && After(claimed).At(2) == Worker([0], None) && Sends(claimed, 0) == Sends(p, 0);
    r := Then(claimed, Load(2, true));
    job := After(claimed).rows[0];
    assert Valid(r);
  }

  /** A crash between a confirmed delivery and its report makes a later claim send the event again. */
  lemma CrashRepeatsTheSend() returns (r: Run)
    ensures Valid(r) && Sends(r, 0) == [Dispatched, Ended(true), Dispatched] && !Prompt(r, 0)
  {
    var crashed := ConfirmThenCrash();
    var recovered := RecoverSaved(crashed);
    var loaded, job := ReloadSaved(recovered);
    var resumed := Advance(loaded, Resume(2), job, Loaded);
    r := Advance(resumed, Dispatch(2), job, Delivering(job.returnValues));
    ResentIsNotPrompt(r);
  }

  lemma ResentIsNotPrompt(r: Run)
    requires Valid(r) && Sends(r, 0) == [Dispatched, Ended(true), Dispatched] && 0 in After(r).rows
    ensures !Prompt(r, 0)
  {
    assert Sends(r, 0)[1] == Ended(true) && Sends(r, 0)[2] == Dispatched;
    if Prompt(r, 0) {
      DeliveredOnce(r, 0);
    }
  }
}
