/** What holds in runs where a write-back of a job takes effect only under the claim that its worker made. */
module JobLease {
  import opened Prelude
  import opened JobModel
  import opened JobRepository
  import opened JobIntake
  import opened JobProcessor
  import opened JobQueue
  import opened JobLedger
  import opened Backoff

  ghost predicate Holds(s: System, w: WorkerId, id: JobId) {
    id in s.rows && s.rows[id].status == Processing && s.rows[id].lockedBy == Some(w)
  }

  /** The lease hypothesis on one event and one job: what a worker writes to the row, it writes as the row's holder. The
      original does not check it: a write-back asks only for `processing`. Workers that lost the row may still load it,
      make their remote calls and report without effect. */
  ghost predicate LeasedEvent(s: System, e: Event, id: JobId)
    requires Enabled(s, e)
  {
    OnTask(e) && MoveOf(s, e, id).Some? ==> Holds(s, e.worker, id)
  }

  ghost predicate Leased(r: Run, id: JobId)
    requires Valid(r)
  {
    r.Then? ==> Leased(r.before, id) && LeasedEvent(After(r.before), r.event, id)
  }

  /** While a worker holds the row, its snapshot still says how the row is scheduled and budgeted. */
  ghost predicate Agrees(task: Task, row: Row) {
    && task.job.attempts == row.attempts
    && task.job.runAt == row.runAt
    && task.job.lockedAt == row.lockedAt
    && (task.pc.Loaded? || task.pc.Calling? || task.pc.Checkpointing? || !row.payload.RestPayload? ==>
          task.job.payload == row.payload && task.job.returnValues == row.returnValues)
  }

  ghost predicate HolderAgrees(s: System, w: WorkerId, id: JobId) {
    s.Stands(w) && s.TaskOf(w).id == id && Holds(s, w, id) ==> Agrees(s.TaskOf(w), s.rows[id])
  }

  /** A waiting row with no budget left: no claim takes it and no recovery frees it. */
  predicate DeadEnd(row: Row) {
    row.Waiting() && row.attempts >= row.maxAttempts
  }

  ghost predicate LeaseSound(s: System, id: JobId) {
    && Sound(s)
    && (forall w :: HolderAgrees(s, w, id))
    && (id in s.rows ==> !DeadEnd(s.rows[id]))
  }

  /** A worker that holds a row after an event of somebody else held it before, and the row did not change. */
  lemma HoldingIsStable(s: System, e: Event, w: WorkerId, id: JobId)
    requires Sound(s) && Enabled(s, e) && LeasedEvent(s, e, id)
    requires s.Stands(w) && id in s.rows && Holds(Apply(s, e), w, id)
    requires OnTask(e) ==> e.worker != w
    ensures Holds(s, w, id) && Apply(s, e).rows[id] == s.rows[id]
  {
    Projection(s, e, id);
  }

  /** A snapshot just taken agrees with the row it was taken from. */
  lemma LoadAgrees(s: System, e: Event, w: WorkerId, id: JobId)
    requires Enabled(s, e) && e.Load? && e.worker == w
    ensures HolderAgrees(Apply(s, e), w, id)
  {
  }

  /** A save leaves the schedule and the budget of the row alone. */
  lemma SaveAgrees(s: System, e: Event, w: WorkerId, id: JobId)
    requires Sound(s) && Enabled(s, e) && e.Save? && e.worker == w && HolderAgrees(s, w, id)
    ensures HolderAgrees(Apply(s, e), w, id)
  {
    if id in s.rows {
      Projection(s, e, id);
    }
  }

  /** Every other step of the holder that keeps the row leaves it as it was. */
  lemma OwnStepAgrees(s: System, e: Event, w: WorkerId, id: JobId)
    requires Sound(s) && Enabled(s, e) && OnTask(e) && !e.Save? && e.worker == w && HolderAgrees(s, w, id)
    ensures HolderAgrees(Apply(s, e), w, id)
  {
    var t := Apply(s, e);
    assert TaskOk(s.TaskOf(w), s.rows, s.clock);
    if t.Stands(w) && t.TaskOf(w).id == id && Holds(t, w, id) {
      TaskAfter(s, e, w);
      Projection(s, e, id);
      EarlyOrLate(s.TaskOf(w), e, s.clock, s.config);
    }
  }

  /** A task never goes back to the call or before. */
  lemma EarlyOrLate(task: Task, e: Event, clock: Instant, config: Config)
    requires OnTask(e) && Ready(task, e)
    ensures var next := NextPc(task, e, clock, config);
            next.Some? && (next.value.Loaded? || next.value.Calling? || next.value.Checkpointing?) ==>
              task.pc.Loaded? || task.pc.Calling?
  {
  }

  lemma AgreementStays(s: System, e: Event, w: WorkerId, id: JobId)
    requires LeaseSound(s, id) && Enabled(s, e) && LeasedEvent(s, e, id)
    ensures HolderAgrees(Apply(s, e), w, id)
  {
    assert HolderAgrees(s, w, id);
    var t := Apply(s, e);
    if e.Save? && e.worker == w {
      SaveAgrees(s, e, w, id);
    } else if OnTask(e) && e.worker == w {
      OwnStepAgrees(s, e, w, id);
    } else if e.Load? && e.worker == w {
      LoadAgrees(s, e, w, id);
    } else if t.Stands(w) && t.TaskOf(w).id == id && Holds(t, w, id) {
      TaskAfter(s, e, w);
      Projection(s, e, id);
      HoldingIsStable(s, e, w, id);
    }
  }

  /** Under the lease a retry is scheduled only while the row itself has budget left. */
  lemma HeldRetryHasBudget(s: System, e: Event, id: JobId)
    requires LeaseSound(s, id) && Enabled(s, e) && LeasedEvent(s, e, id)
    requires MoveOf(s, e, id).Some? && MoveOf(s, e, id).value.Retried?
    ensures s.rows[id].attempts < s.rows[id].maxAttempts
  {
    assert HolderAgrees(s, e.worker, id);
    assert TaskOk(s.TaskOf(e.worker), s.rows, s.clock);
  }

  lemma MoveKeepsBudget(row: Row, move: Move, clock: Instant)
    requires RowOk(row, clock) && Legal(row, move, clock)
    requires move.Retried? ==> row.attempts < row.maxAttempts
    ensures !DeadEnd(Moved(row, move))
  {
  }

  lemma BudgetStays(s: System, e: Event, id: JobId)
    requires LeaseSound(s, id) && Enabled(s, e) && LeasedEvent(s, e, id) && id in Apply(s, e).rows
    ensures !DeadEnd(Apply(s, e).rows[id])
  {
    if id in s.rows {
      Projection(s, e, id);
      var m := MoveOf(s, e, id);
      if m.Some? {
        MoveIsLegal(s, e, id);
        if m.value.Retried? {
          HeldRetryHasBudget(s, e, id);
        }
        MoveKeepsBudget(s.rows[id], m.value, s.clock);
      }
    } else {
      Appearance(s, e, id);
    }
  }

  lemma {:induction false} RunIsLeaseSound(r: Run, id: JobId)
    requires Valid(r) && Leased(r, id)
    ensures LeaseSound(After(r), id)
  {
    RunIsSound(r);
    if r.Then? {
      RunIsLeaseSound(r.before, id);
      forall w
        ensures HolderAgrees(After(r), w, id)
      {
        AgreementStays(After(r.before), r.event, w, id);
      }
      if id in After(r).rows {
        BudgetStays(After(r.before), r.event, id);
      }
    }
  }

  // ---------------------------------------------------------------- no dead ends

  /** The run that waits until `now` and then recovers stale leases. */
  function RecoveredAt(r: Run, now: Instant): Run {
    Then(Then(r, Tick(now)), Recover(now))
  }

  /** The run that waits until `now`, when worker `w` claims just this job while other transactions hold the rest. */
  ghost function ClaimedAt(r: Run, w: WorkerId, id: JobId, now: Instant): Run
    requires Valid(r)
  {
    Then(Then(r, Tick(now)), Claim(w, [id], now, After(r).rows.Keys - {id}))
  }

  ghost predicate OutOfProcessing(s: System, id: JobId) {
    id in s.rows && s.rows[id].status != Processing
  }

  /** A claim that sees a single row takes it exactly when it is due and has budget. */
  lemma OneCandidate(rows: Table, id: JobId, limit: nat, now: Instant)
    requires 1 <= limit && id in rows
    ensures IsClaimBatch(rows, [id], limit, now, rows.Keys - {id}) <==> Claimable(rows[id], now)
  {
    if Claimable(rows[id], now) {
      assert Due(rows, now, rows.Keys - {id}) == {id};
    } else {
      assert [id][0] !in Due(rows, now, rows.Keys - {id});
    }
  }

  lemma Ticked(r: Run, now: Instant)
    requires Valid(r) && After(r).clock <= now
    ensures Valid(Then(r, Tick(now))) && After(Then(r, Tick(now))) == After(r).(clock := now)
  {
  }

  lemma RecoveryTakes(r: Run, id: JobId, now: Instant)
    requires Valid(r) && id in After(r).rows && After(r).rows[id].status == Processing
    requires After(r).rows[id].lockedAt.Some? && After(r).clock <= now
    ensures After(r).rows[id].lockedAt.value + After(r).config.lockTimeout < now
       <==> Valid(RecoveredAt(r, now)) && OutOfProcessing(After(RecoveredAt(r, now)), id)
  {
    Ticked(r, now);
    assert Enabled(After(Then(r, Tick(now))), Recover(now));
    Projection(After(Then(r, Tick(now))), Recover(now), id);
  }

  lemma ClaimTakes(r: Run, id: JobId, w: WorkerId, now: Instant)
    requires Valid(r) && id in After(r).rows && After(r).rows[id].Waiting() && 1 <= After(r).config.batchSize
    requires After(r).clock <= now && After(r).At(w) == Worker([], None)
    ensures Claimable(After(r).rows[id], now)
       <==> Valid(ClaimedAt(r, w, id, now)) && Holds(After(ClaimedAt(r, w, id, now)), w, id)
  {
    Ticked(r, now);
    OneCandidate(After(r).rows, id, After(r).config.batchSize, now);
    assert Enabled(After(Then(r, Tick(now))), ClaimedAt(r, w, id, now).event) <==> Claimable(After(r).rows[id], now);
  }

  /** Under the lease every open job can move on: once run_at is reached any free worker can claim a waiting job, and as
      soon as its lease is stale a recovery takes a processing job out of processing. */
  lemma NoDeadEnds(r: Run, id: JobId, w: WorkerId, now: Instant)
    requires Valid(r) && Leased(r, id) && id in After(r).rows && !After(r).rows[id].Ended()
    requires After(r).clock <= now && After(r).At(w) == Worker([], None)
    ensures var row := After(r).rows[id];
            if row.status == Processing
            then
              && row.lockedAt.Some?
              && (row.lockedAt.value + After(r).config.lockTimeout < now <==>
                    Valid(RecoveredAt(r, now)) && OutOfProcessing(After(RecoveredAt(r, now)), id))
            else
              row.runAt <= now <==> Valid(ClaimedAt(r, w, id, now)) && Holds(After(ClaimedAt(r, w, id, now)), w, id)
  {
    RunIsLeaseSound(r, id);
    if After(r).rows[id].status == Processing {
      RecoveryTakes(r, id, now);
    } else {
      ClaimTakes(r, id, w, now);
    }
  }

  /** Without the lease, exactly one kind of event makes a dead end: a stale worker reschedules a retry on a row whose
      budget has meanwhile been used up. */
  lemma DeadEndArises(s: System, e: Event, id: JobId)
    requires Sound(s) && Enabled(s, e) && id in s.rows && !DeadEnd(s.rows[id])
    ensures DeadEnd(Apply(s, e).rows[id])
       <==> && e.Report? && s.TaskOf(e.worker).id == id && s.TaskOf(e.worker).pc.move.Retried?
            && s.rows[id].status == Processing && s.rows[id].attempts == s.rows[id].maxAttempts
  {
    Projection(s, e, id);
    if MoveOf(s, e, id).Some? {
      MoveIsLegal(s, e, id);
    }
  }

  /** The worker that does it acts on a snapshot from an earlier claim. */
  lemma DeadEndNeedsStaleSnapshot(s: System, e: Event, id: JobId)
    requires Sound(s) && Enabled(s, e) && id in s.rows && !DeadEnd(s.rows[id]) && DeadEnd(Apply(s, e).rows[id])
    ensures s.TaskOf(e.worker).job.attempts < s.rows[id].attempts
  {
    DeadEndArises(s, e, id);
  }

  /** A dead end is for ever: no later event of any run changes the row. */
  lemma {:induction false} DeadEndIsForever(p: Run, r: Run, id: JobId)
    requires Valid(p) && Valid(r) && Extends(r, p) && id in After(p).rows && DeadEnd(After(p).rows[id])
    ensures id in After(r).rows && After(r).rows[id] == After(p).rows[id]
  {
    if r != p {
      DeadEndIsForever(p, r.before, id);
      Projection(After(r.before), r.event, id);
    }
  }

  // A concrete run into a dead end: worker 1 decides to retry on attempt 1 and stalls; the row is recovered and
  // claimed again by worker 2, which crashes each time, until the budget is used up; then worker 1 reports.

  const DEMO := Config(Settings(1.0, 1.0, 0.0), 1.0, 1, 1, 1)

  /** Worker 1 is about to report a retry on job 0; worker 2 is idle; the budget is used up to `attempts`. */
  ghost predicate Waylaid(s: System, attempts: int) {
    && s.config == DEMO && s.rows.Keys == {0} && s.At(2) == Worker([], None)
    && s.rows[0].attempts == attempts && s.rows[0].maxAttempts == MAX_ATTEMPTS
    && s.Stands(1) && s.TaskOf(1).id == 0
    && s.TaskOf(1).pc.Reporting? && s.TaskOf(1).pc.move.Retried?
  }

  ghost predicate Stalled(r: Run, attempts: int) {
    && Valid(r) && Waylaid(After(r), attempts)
    && var s := After(r);
       && s.rows[0].status == Processing && s.rows[0].lockedAt.Some? && s.rows[0].lockedAt.value <= s.clock
  }

  lemma OnlyDueRow(rows: Table, now: Instant)
    requires rows.Keys == {0} && Claimable(rows[0], now)
    ensures IsClaimBatch(rows, [0], 1, now, {})
  {
    assert Due(rows, now, {}) == {0};
  }

  lemma FirstClaim() returns (r: Run)
    ensures r == Then(Then(Start(DEMO, 0.0), Intake(0, RestCallback(0, 0, 0), 0.0, 0.0)), Claim(1, [0], 0.0, {}))
    ensures Valid(r) && Leased(r, 0) && var s := After(r);
            && s.config == DEMO && s.clock == 0.0 && s.rows.Keys == {0}
            && s.At(1) == Worker([0], None) && s.At(2) == Worker([], None)
            && s.rows[0] == Moved(NewRow(RestCallback(0, 0, 0), 0.0, 0.0), Claimed(1, 0.0))
  {
    var r1 := Then(Start(DEMO, 0.0), Intake(0, RestCallback(0, 0, 0), 0.0, 0.0));
    assert Valid(r1) && After(r1).rows.Keys == {0};
    OnlyDueRow(After(r1).rows, 0.0);
    r := Then(r1, Claim(1, [0], 0.0, {}));
  }

  lemma FirstLoad() returns (r: Run)
    ensures Valid(r) && Leased(r, 0)
    ensures r == Then(Then(Then(Start(DEMO, 0.0), Intake(0, RestCallback(0, 0, 0), 0.0, 0.0)),
                           Claim(1, [0], 0.0, {})), Load(1, true))
    ensures var s := After(r);
            && s.config == DEMO && s.clock == 0.0 && s.rows.Keys == {0} && s.At(2) == Worker([], None)
            && s.rows[0] == Moved(NewRow(RestCallback(0, 0, 0), 0.0, 0.0), Claimed(1, 0.0))
            && s.At(1) == Worker([], Some(Task(0, s.rows[0], Loaded)))
  {
    var p := FirstClaim();
    r := Then(p, Load(1, true));
  }

  lemma FirstIssue() returns (r: Run)
    ensures Valid(r) && var s := After(r);
            && s.config == DEMO && s.clock == 0.0 && s.rows.Keys == {0} && s.At(2) == Worker([], None)
            && s.rows[0] == Moved(NewRow(RestCallback(0, 0, 0), 0.0, 0.0), Claimed(1, 0.0))
            && s.At(1) == Worker([], Some(Task(0, s.rows[0], Calling)))
  {
    var p := FirstLoad();
    r := Then(p, Issue(1));
    assert Valid(r);
  }

  lemma StallAtFirstAttempt() returns (r: Run)
    ensures Stalled(r, 1)
  {
    var p := FirstIssue();
    var request := Request(1, RateLimited(NO_HINT), 0.0);
    assert Enabled(After(p), request);
    r := Then(p, request);
  }

  lemma RecoverStalled(p: Run, attempts: int) returns (r: Run)
    requires Stalled(p, attempts) && attempts < MAX_ATTEMPTS
    ensures Valid(r) && Waylaid(After(r), attempts) && Claimable(After(r).rows[0], After(r).clock)
  {
    var now := After(p).clock + 2.0;
    var ticked := Then(p, Tick(now));
    assert Valid(ticked) && After(ticked) == After(p).(clock := now);
    r := Then(ticked, Recover(now));
    assert Stale(After(ticked).rows[0], now, DEMO.lockTimeout);
  }

  lemma ClaimAndCrash(p: Run, attempts: int) returns (r: Run)
    requires Valid(p) && Waylaid(After(p), attempts) && Claimable(After(p).rows[0], After(p).clock)
    ensures Stalled(r, attempts + 1)
  {
    var now := After(p).clock;
    OnlyDueRow(After(p).rows, now);
    var claim := Claim(2, [0], now, {});
    assert Enabled(After(p), claim);
    var claimed := Then(p, claim);
    assert Valid(claimed) && After(claimed).rows[0] == Moved(After(p).rows[0], Claimed(2, now));
    assert After(claimed).At(1) == After(p).At(1);
    r := Then(claimed, Crash(2));
    assert Valid(r) && After(r).rows == After(claimed).rows;
  }

  lemma StallOneMore(p: Run, attempts: int) returns (r: Run)
    requires Stalled(p, attempts) && attempts < MAX_ATTEMPTS
    ensures Stalled(r, attempts + 1)
  {
    var recovered := RecoverStalled(p, attempts);
    r := ClaimAndCrash(recovered, attempts);
  }

  lemma {:induction false} StallUntil(attempts: nat) returns (r: Run)
    requires 1 <= attempts <= MAX_ATTEMPTS
    ensures Stalled(r, attempts)
  {
    if attempts == 1 {
      r := StallAtFirstAttempt();
    } else {
      var p := StallUntil(attempts - 1);
      r := StallOneMore(p, attempts - 1);
    }
  }

  /** The lease hypothesis is needed: this run of the original's own guards strands a job for ever. */
  lemma DeadEndExists() returns (r: Run)
    ensures Valid(r) && 0 in After(r).rows && DeadEnd(After(r).rows[0]) && !Leased(r, 0)
  {
    var p := StallUntil(MAX_ATTEMPTS);
    r := Then(p, Report(1));
    assert Valid(r);
    RunIsSound(p);
    Projection(After(p), Report(1), 0);
    if Leased(r, 0) {
      RunIsLeaseSound(r, 0);
    }
  }

  // ---------------------------------------------------------------- field wait: polls are spaced and bounded

  lemma {:induction false} FieldRanges(r: Run, id: JobId)
    requires Valid(r) && id in After(r).rows && After(r).rows[id].payload.FieldPayload?
    ensures 1 <= After(r).rows[id].payload.pollInterval && 1 <= After(r).rows[id].payload.timeout
  {
    LastStep(r, id);
    if id in After(r.before).rows {
      FieldRanges(r.before, id);
    }
  }

  ghost predicate PollsSpaced(row: Row, polls: nat)
    requires row.payload.FieldPayload?
  {
    var payload := row.payload;
    && payload.checks == polls
    && payload.createdAt + Times(polls, payload.pollInterval as real) <= row.runAt
    && (0 < polls ==> Times(polls - 1, payload.pollInterval as real) < payload.timeout as real)
  }

  lemma MoveKeepsSpacing(row: Row, move: Move, polls: nat, clock: Instant)
    requires row.payload.FieldPayload? && PollsSpaced(row, polls) && RowOk(row, clock) && Legal(row, move, clock)
    requires move.Retried? ==> row.lockedAt.value <= move.runAt
    requires move.Polled? ==> PcOk(row, Reporting(move))
    ensures Moved(row, move).payload.FieldPayload?
    ensures PollsSpaced(Moved(row, move), polls + if KindOf(row, move) == APoll then 1 else 0)
  {
  }

  /** Under the lease a write-back was computed from the row as it stands. */
  lemma WriteMatchesRow(s: System, e: Event, id: JobId)
    requires LeaseSound(s, id) && Enabled(s, e) && LeasedEvent(s, e, id) && id in s.rows && MoveOf(s, e, id).Some?
    ensures var row := s.rows[id]; var move := MoveOf(s, e, id).value;
            && (move.Retried? || move.Polled? ==> row.lockedAt.Some?)
            && (move.Retried? ==> row.lockedAt.value <= move.runAt)
            && (move.Polled? && !row.payload.RestPayload? ==> PcOk(row, Reporting(move)))
  {
    if OnTask(e) {
      var task := s.TaskOf(e.worker);
      assert HolderAgrees(s, e.worker, id);
      assert PcOk(task.job, task.pc);
    }
  }

  lemma StepKeepsSpacing(s: System, e: Event, id: JobId, polls: nat)
    requires LeaseSound(s, id) && Enabled(s, e) && LeasedEvent(s, e, id) && id in s.rows && MoveOf(s, e, id).Some?
    requires s.rows[id].payload.FieldPayload? && PollsSpaced(s.rows[id], polls)
    ensures var row, move := s.rows[id], MoveOf(s, e, id).value;
            && Moved(row, move).payload.FieldPayload?
            && PollsSpaced(Moved(row, move), polls + if KindOf(row, move) == APoll then 1 else 0)
  {
    MoveIsLegal(s, e, id);
    WriteMatchesRow(s, e, id);
    MoveKeepsSpacing(s.rows[id], MoveOf(s, e, id).value, polls, s.clock);
  }

  lemma EventKeepsSpacing(s: System, e: Event, id: JobId, polls: nat)
    requires LeaseSound(s, id) && Enabled(s, e) && LeasedEvent(s, e, id) && id in s.rows
    requires s.rows[id].payload.FieldPayload? && PollsSpaced(s.rows[id], polls)
    ensures id in Apply(s, e).rows && Apply(s, e).rows[id].payload.FieldPayload?
    ensures var m := MoveOf(s, e, id);
            PollsSpaced(Apply(s, e).rows[id],
                        polls + if m.Some? && KindOf(s.rows[id], m.value) == APoll then 1 else 0)
  {
    Projection(s, e, id);
    if MoveOf(s, e, id).Some? {
      StepKeepsSpacing(s, e, id, polls);
    }
  }

  lemma LastStepKeepsSpacing(r: Run, id: JobId)
    requires Valid(r) && Leased(r, id) && r.Then?
    requires id in After(r.before).rows && After(r.before).rows[id].payload.FieldPayload?
    requires PollsSpaced(After(r.before).rows[id], Count(r.before, id, APoll))
    ensures id in After(r).rows && After(r).rows[id].payload.FieldPayload?
    ensures PollsSpaced(After(r).rows[id], Count(r, id, APoll))
  {
    RunIsLeaseSound(r.before, id);
    OneMoreCount(r, id, APoll);
    NextKeepsSpacing(After(r.before), r.event, id, Count(r.before, id, APoll), After(r), Count(r, id, APoll));
  }

  lemma OneMoreCount(r: Run, id: JobId, kind: Kind)
    requires Valid(r) && r.Then?
    ensures var m := MoveOf(After(r.before), r.event, id);
            Count(r, id, kind)
            == Count(r.before, id, kind)
               + if m.Some? && KindOf(After(r.before).rows[id], m.value) == kind then 1 else 0
  {
  }

  lemma NextKeepsSpacing(s: System, e: Event, id: JobId, polls: nat, t: System, more: nat)
    requires LeaseSound(s, id) && Enabled(s, e) && LeasedEvent(s, e, id) && id in s.rows && t == Apply(s, e)
    requires s.rows[id].payload.FieldPayload? && PollsSpaced(s.rows[id], polls)
    requires var m := MoveOf(s, e, id);
             more == polls + if m.Some? && KindOf(s.rows[id], m.value) == APoll then 1 else 0
    ensures id in t.rows && t.rows[id].payload.FieldPayload? && PollsSpaced(t.rows[id], more)
  {
    EventKeepsSpacing(s, e, id, polls);
  }

  /** Every poll pushes run_at a whole interval on, and none is scheduled past the deadline. */
  lemma {:induction false} PollsStaySpaced(r: Run, id: JobId)
    requires Valid(r) && Leased(r, id) && id in After(r).rows && After(r).rows[id].payload.FieldPayload?
    ensures PollsSpaced(After(r).rows[id], Count(r, id, APoll))
  {
    LastStep(r, id);
    if id in After(r.before).rows {
      PollsStaySpaced(r.before, id);
      LastStepKeepsSpacing(r, id);
    } else {
      NothingBeforeIntake(r.before, id, APoll);
    }
  }

  lemma SpacingBounds(row: Row, polls: nat)
    requires row.payload.FieldPayload? && PollsSpaced(row, polls) && 1 <= row.payload.pollInterval
    ensures polls <= Ceiling(row.payload.timeout, row.payload.pollInterval)
  {
    ShortOfCeiling(polls, row.payload.timeout, row.payload.pollInterval);
  }

  /** A field wait is polled at most ceil(timeout / interval) times and claimed at most ten times more, in any leased
      run: it terminates whatever fails, crashes or is recovered. */
  lemma FieldWaitTerminates(r: Run, id: JobId)
    requires Valid(r) && Leased(r, id) && id in After(r).rows && After(r).rows[id].payload.FieldPayload?
    ensures 0 < After(r).rows[id].payload.pollInterval
    ensures var payload := After(r).rows[id].payload; var most := Ceiling(payload.timeout, payload.pollInterval);
            && IsLeastCover(most, payload.timeout, payload.pollInterval)
            && Count(r, id, APoll) <= most
            && Count(r, id, AClaim) <= most + MAX_ATTEMPTS
            && Changes(r, id) <= 2 * MAX_ATTEMPTS + 1 + 2 * most
  {
    FieldRanges(r, id);
    CeilingIsLeast(After(r).rows[id].payload.timeout, After(r).rows[id].payload.pollInterval);
    PollsStaySpaced(r, id);
    SpacingBounds(After(r).rows[id], Count(r, id, APoll));
    AttemptLedger(r, id);
    StatusChangesAreBounded(r, id);
  }
}
