/** What holds in every run of the queue, with no assumption on the workers. */
module JobLedger {
  import opened Prelude
  import opened JobModel
  import opened JobRepository
  import opened JobIntake
  import opened JobProcessor
  import opened JobQueue

  /** How many moves of one kind a run made on one row. */
  ghost function Count(r: Run, id: JobId, kind: Kind): nat
    requires Valid(r)
  {
    match r
    case Start(_, _) => 0
    case Then(p, e) =>
      var m := MoveOf(After(p), e, id);
      Count(p, id, kind) + if m.Some? && KindOf(After(p).rows[id], m.value) == kind then 1 else 0
  }

  /** All the status changes of one row in a run: every move but a checkpoint. */
  ghost function Changes(r: Run, id: JobId): nat
    requires Valid(r)
  {
    match r
    case Start(_, _) => 0
    case Then(p, e) => Changes(p, id) + if ChangesStatus(MoveOf(After(p), e, id)) then 1 else 0
  }

  predicate ChangesStatus(m: Option<Move>) {
    m.Some? && !m.value.Saved?
  }

  lemma {:induction false} NothingBeforeIntake(r: Run, id: JobId, kind: Kind)
    requires Valid(r) && id !in After(r).rows
    ensures Count(r, id, kind) == 0
  {
    if r.Then? {
      var s := After(r.before);
      if id in s.rows {
        Projection(s, r.event, id);
        assert false;
      }
      NothingBeforeIntake(r.before, id, kind);
    }
  }

  /** The state of one row before the last event of a run, for inductions over runs. */
  lemma LastStep(r: Run, id: JobId)
    requires Valid(r) && r.Then? && id in After(r).rows
    ensures Sound(After(r.before)) && Sound(After(r))
    ensures var s := After(r.before); var row := After(r).rows[id];
            if id in s.rows then
              var m := MoveOf(s, r.event, id);
              && SameJob(s.rows[id], row)
              && (m.None? ==> row == s.rows[id])
              && (m.Some? ==> Legal(s.rows[id], m.value, s.clock) && row == Moved(s.rows[id], m.value))
            else
              && r.event.Intake? && r.event.id == id && r.event.now <= s.clock
              && row == NewRow(r.event.callback, r.event.now, r.event.createdAt)
              && r.event.callback.InRange(s.config.minimumDelay, s.config.maximumDelay)
  {
    RunIsSound(r);
    RunIsSound(r.before);
    var s := After(r.before);
    if id in s.rows {
      Projection(s, r.event, id);
      RowsStaySound(s, r.event, id);
      if MoveOf(s, r.event, id).Some? {
        MoveIsLegal(s, r.event, id);
      }
    } else {
      Appearance(s, r.event, id);
    }
  }

  // ---------------------------------------------------------------- the attempt ledger

  /** Attempts are exactly the scheduled retries, plus the recoveries back to the queue, plus one while the row is
      held or once it ended; equally the claims minus the polls. */
  lemma {:induction false} AttemptLedger(r: Run, id: JobId)
    requires Valid(r) && id in After(r).rows
    ensures var row := After(r).rows[id];
            && row.attempts == Count(r, id, ARetry) + Count(r, id, ARecovery) + Holding(row)
            && Count(r, id, AClaim) == row.attempts + Count(r, id, APoll)
            && 0 <= row.attempts <= row.maxAttempts == MAX_ATTEMPTS
  {
    LastStep(r, id);
    var s := After(r.before);
    if id in s.rows {
      AttemptLedger(r.before, id);
      var m := MoveOf(s, r.event, id);
      if m.Some? {
        MoveLedger(s.rows[id], m.value, s.clock);
      }
    } else {
      NothingBeforeIntake(r.before, id, AClaim);
      NothingBeforeIntake(r.before, id, ARetry);
      NothingBeforeIntake(r.before, id, ARecovery);
      NothingBeforeIntake(r.before, id, APoll);
    }
  }

  /** The `greatest(attempts - 1, 0)` clip never takes effect: a polled row always has an attempt to give back. */
  lemma PollNeverClips(s: System, e: Event, id: JobId)
    requires Sound(s) && Enabled(s, e)
    requires MoveOf(s, e, id).Some? && MoveOf(s, e, id).value.Polled?
    ensures Apply(s, e).rows[id].attempts == s.rows[id].attempts - 1 >= 0
  {
    Projection(s, e, id);
    MoveIsLegal(s, e, id);
  }

  /** Only the field-wait robot polls. */
  lemma {:induction false} OnlyFieldWaitsPoll(r: Run, id: JobId)
    requires Valid(r) && id in After(r).rows && !After(r).rows[id].payload.FieldPayload?
    ensures Count(r, id, APoll) == 0
  {
    LastStep(r, id);
    if id in After(r.before).rows {
      OnlyFieldWaitsPoll(r.before, id);
    } else {
      NothingBeforeIntake(r.before, id, APoll);
    }
  }

  lemma {:induction false} NoChangesBeforeIntake(r: Run, id: JobId)
    requires Valid(r) && id !in After(r).rows
    ensures Changes(r, id) == 0
  {
    if r.Then? {
      if id in After(r.before).rows {
        Projection(After(r.before), r.event, id);
        assert false;
      }
      NoChangesBeforeIntake(r.before, id);
    }
  }

  lemma {:induction false} StatusChangesAreBounded(r: Run, id: JobId)
    requires Valid(r) && id in After(r).rows
    ensures Changes(r, id) + Rank(After(r).rows[id]) <= 2 * MAX_ATTEMPTS + 1 + 2 * Count(r, id, APoll)
    ensures 0 <= Rank(After(r).rows[id])
  {
    LastStep(r, id);
    var s := After(r.before);
    if id in s.rows {
      StatusChangesAreBounded(r.before, id);
      var m := MoveOf(s, r.event, id);
      if m.Some? {
        MoveRank(s.rows[id], m.value, s.clock);
      }
    } else {
      NoChangesBeforeIntake(r.before, id);
    }
  }

  /** Termination of pauses and REST requests: at most ten claims and twenty-one status changes, in any run. */
  lemma PauseAndRestTerminate(r: Run, id: JobId)
    requires Valid(r) && id in After(r).rows && !After(r).rows[id].payload.FieldPayload?
    ensures Count(r, id, AClaim) <= MAX_ATTEMPTS
    ensures Changes(r, id) <= 2 * MAX_ATTEMPTS + 1
  {
    AttemptLedger(r, id);
    OnlyFieldWaitsPoll(r, id);
    StatusChangesAreBounded(r, id);
  }

  // ---------------------------------------------------------------- a short pause is never short

  /** No interleaving of retries, hints, crashes and recoveries lets a pause run or resume early. */
  lemma PauseIsNeverShort(r: Run, id: JobId)
    requires Valid(r) && id in After(r).rows && After(r).rows[id].payload.PausePayload?
    ensures var row := After(r).rows[id];
            && row.payload.scheduledAt + row.payload.requestedDelay as real <= row.runAt
            && (row.status == Processing ==>
                  row.lockedAt.Some? &&
                  row.payload.scheduledAt + row.payload.requestedDelay as real <= row.lockedAt.value <= After(r).clock)
            && (row.status == Completed ==>
                  && row.returnValues.PauseValues?
                  && row.returnValues.requestedDelay == row.payload.requestedDelay
                  && row.returnValues.requestedDelay <= row.returnValues.actualDelay
                  && row.payload.scheduledAt + row.payload.requestedDelay as real <= row.returnValues.resumedAt)
  {
    RunIsSound(r);
  }

  // ---------------------------------------------------------------- leases, ends, confirmation

  /** In every run the lease columns are set exactly while the row is processing. */
  lemma LeaseCoupling(r: Run, id: JobId)
    requires Valid(r) && id in After(r).rows
    ensures var row := After(r).rows[id];
            && (row.lockedAt.Some? <==> row.status == Processing)
            && (row.lockedBy.Some? <==> row.status == Processing)
            && (row.startedAt.None? <==> row.status == Pending)
  {
    RunIsSound(r);
  }

  /** Rows are never lost, keep their identity, and do not change at all once ended. */
  lemma {:induction false} EndedRowsAreFinal(p: Run, r: Run, id: JobId)
    requires Valid(r) && Valid(p) && Extends(r, p) && id in After(p).rows
    ensures id in After(r).rows && SameJob(After(p).rows[id], After(r).rows[id])
    ensures After(p).rows[id].startedAt.Some? ==> After(r).rows[id].startedAt == After(p).rows[id].startedAt
    ensures After(p).rows[id].Ended() ==> After(r).rows[id] == After(p).rows[id]
  {
    if r != p {
      EndedRowsAreFinal(p, r.before, id);
      Projection(After(r.before), r.event, id);
      LastStep(r, id);
      var m := MoveOf(After(r.before), r.event, id);
      if m.Some? {
        MoveKeepsRow(After(r.before).rows[id], m.value, After(r.before).clock);
      }
    }
  }

  /** Every delivery that the portal confirmed, with the return values it carried. */
  ghost function Confirmed(r: Run, id: JobId): set<ReturnValues>
    requires Valid(r)
  {
    match r
    case Start(_, _) => {}
    case Then(p, e) =>
      if e.Send? && After(p).TaskOf(e.worker).id == id && e.delivered == Answered(true)
      then Confirmed(p, id) + {After(p).TaskOf(e.worker).pc.values}
      else Confirmed(p, id)
  }

  ghost predicate FinishBacked(r: Run, task: Task)
    requires Valid(r)
  {
    task.pc.Reporting? && task.pc.move.Finished? ==> task.pc.move.returnValues in Confirmed(r, task.id)
  }

  lemma SendDecides(s: System, e: Event)
    requires Sound(s) && Enabled(s, e) && OnTask(e)
    ensures var task := s.TaskOf(e.worker); var next := NextPc(task, e, s.clock, s.config);
            next.Some? && next.value.Reporting? && next.value.move.Finished? ==>
              e.Send? && e.delivered == Answered(true) && next.value.move.returnValues == task.pc.values
  {
    var task := s.TaskOf(e.worker);
    match e
    case Request(_, reply, random) => AfterRequestOk(task.job, reply, s.clock, random, s.config.retry);
    case Check(_, reply, random) => AfterCheckOk(task.job, reply, s.clock, random, s.config.retry);
    case Send(_, delivered, random) =>
      AfterSendOk(task.job, task.pc.values, delivered, s.clock, random, s.config.retry);
    case _ =>
  }

  lemma {:induction false} FinishMeansConfirmed(r: Run, w: WorkerId)
    requires Valid(r) && After(r).Stands(w)
    ensures FinishBacked(r, After(r).TaskOf(w))
  {
    if r.Then? {
      var s, e := After(r.before), r.event;
      RunIsSound(r.before);
      TaskAfter(s, e, w);
      if s.Stands(w) {
        FinishMeansConfirmed(r.before, w);
      }
      if OnTask(e) {
        SendDecides(s, e);
      }
    }
  }

  /** A completed row stores the return values of a delivery that the portal confirmed. */
  lemma {:induction false} CompletedMeansConfirmed(r: Run, id: JobId)
    requires Valid(r) && id in After(r).rows && After(r).rows[id].status == Completed
    ensures After(r).rows[id].returnValues in Confirmed(r, id)
  {
    LastStep(r, id);
    var s, e := After(r.before), r.event;
    if s.rows[id].status == Completed {
      CompletedMeansConfirmed(r.before, id);
    } else {
      FinishMeansConfirmed(r.before, e.worker);
    }
  }

  // ---------------------------------------------------------------- one claimer per processing episode

  /** The worker of the latest claim that took this row. */
  ghost function LastClaimer(r: Run, id: JobId): Option<WorkerId>
    requires Valid(r)
  {
    match r
    case Start(_, _) => None
    case Then(p, e) => if e.Claim? && id in e.batch then Some(e.worker) else LastClaimer(p, id)
  }

  /** A processing row is leased to the one worker that made the latest claim on it. */
  lemma {:induction false} OneClaimer(r: Run, id: JobId)
    requires Valid(r) && id in After(r).rows && After(r).rows[id].status == Processing
    ensures After(r).rows[id].lockedBy == LastClaimer(r, id) != None
  {
    LastStep(r, id);
    var s := After(r.before);
    if s.rows[id].status == Processing {
      OneClaimer(r.before, id);
      assert r.event.Claim? ==> id !in r.event.batch;
    }
  }

  // ---------------------------------------------------------------- intake

  /** In every run each (portal, event token) key belongs to at most one job. */
  lemma {:induction false} KeysStayUnique(r: Run)
    requires Valid(r)
    ensures UniqueKeys(After(r).rows)
  {
    if r.Then? {
      KeysStayUnique(r.before);
      var s := After(r.before);
      forall i, j | i in After(r).rows && j in After(r).rows && After(r).rows[i].Key() == After(r).rows[j].Key()
        ensures i == j
      {
        LastStep(r, i);
        LastStep(r, j);
      }
    }
  }

  /** A repeated callback, however late and whatever happened to the job, changes nothing and finds the same job. */
  lemma DuplicateIntake(p: Run, r: Run, id: JobId, e: Event)
    requires Valid(p) && Valid(r) && Extends(r, p) && id in After(p).rows
    requires Enabled(After(r), e) && e.Intake? && e.callback.Key() == After(p).rows[id].Key()
    ensures Apply(After(r), e) == After(r)
    ensures id in After(r).rows && After(r).rows[id].Key() == e.callback.Key()
    ensures forall other | other in After(r).rows && After(r).rows[other].Key() == e.callback.Key() :: other == id
  {
    EndedRowsAreFinal(p, r, id);
    KeysStayUnique(r);
    NewRowOk(e.callback, e.now, e.createdAt, After(r).clock);
  }

  // ---------------------------------------------------------------- one process call per claim

  /** Process calls by one worker on one job. */
  ghost function Loads(r: Run, w: WorkerId, id: JobId): nat
    requires Valid(r)
  {
    match r
    case Start(_, _) => 0
    case Then(p, e) =>
      Loads(p, w, id) + if e.Load? && e.worker == w && After(p).At(w).queue[0] == id then 1 else 0
  }

  /** Claims of one job by one worker. */
  ghost function ClaimsBy(r: Run, w: WorkerId, id: JobId): nat
    requires Valid(r)
  {
    match r
    case Start(_, _) => 0
    case Then(p, e) => ClaimsBy(p, w, id) + if e.Claim? && e.worker == w && id in e.batch then 1 else 0
  }

  lemma {:induction false} OccursOnce(batch: seq<JobId>, id: JobId)
    requires forall i, j | 0 <= i < j < |batch| :: batch[i] != batch[j]
    ensures multiset(batch)[id] == if id in batch then 1 else 0
  {
    if batch != [] {
      OccursOnce(batch[1..], id);
      assert batch == [batch[0]] + batch[1..];
    }
  }

  lemma PopOne(queue: seq<JobId>, id: JobId)
    requires queue != []
    ensures multiset(queue)[id] == multiset(queue[1..])[id] + if queue[0] == id then 1 else 0
  {
    assert queue == [queue[0]] + queue[1..];
  }

  /** How an event changes a worker's queue. */
  lemma QueueAfter(s: System, e: Event, w: WorkerId)
    requires Enabled(s, e)
    ensures Apply(s, e).At(w).queue ==
            if e.Claim? && e.worker == w then e.batch
            else if e.Load? && e.worker == w then s.At(w).queue[1..]
            else if e.Crash? && e.worker == w then []
            else s.At(w).queue
  {
  }

  /** A worker processes a job at most once per claim it made; what it has not processed is still queued or dropped. */
  lemma {:induction false} OneProcessPerClaim(r: Run, w: WorkerId, id: JobId)
    requires Valid(r)
    ensures Loads(r, w, id) + multiset(After(r).At(w).queue)[id] <= ClaimsBy(r, w, id)
  {
    if r.Then? {
      OneProcessPerClaim(r.before, w, id);
      QueueAfter(After(r.before), r.event, w);
      var queue := After(r.before).At(w).queue;
      if r.event.Claim? && r.event.worker == w {
        OccursOnce(r.event.batch, id);
      } else if r.event.Load? && r.event.worker == w {
        PopOne(queue, id);
      }
    }
  }
}
