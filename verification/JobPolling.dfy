/** Why a field wait terminates in every run, even when stale workers report on a row that others have claimed since. */
module JobPolling {
  import opened Prelude
  import opened JobModel
  import opened JobRepository
  import opened JobIntake
  import opened JobProcessor
  import opened JobQueue
  import opened JobLedger
  import opened JobLease

  /** Polls form chains: a poll leads to the next claim, which permits one more poll. A chain starts at the intake, a
      retry or a recovery. `tokens` holds, for each worker whose latest claim of the job has not polled yet, the number
      of polls in the chain up to that claim; `depth` is that number for the claim to come. */
  datatype Chain = Chain(tokens: map<WorkerId, nat>, depth: nat)

  ghost function NextChain(c: Chain, s: System, e: Event, id: JobId): Chain
    requires Enabled(s, e)
  {
    match MoveOf(s, e, id)
    case Some(Claimed(w, _)) => c.(tokens := c.tokens[w := c.depth])
    case Some(Polled(_, _)) =>
      if OnTask(e) && e.worker in c.tokens then Chain(c.tokens - {e.worker}, c.tokens[e.worker] + 1) else c
    case Some(Retried(_, _)) => c.(depth := 0)
    case Some(Recovered(_, _)) => c.(depth := 0)
    case _ => c
  }

  ghost function ChainOf(r: Run, id: JobId): Chain
    requires Valid(r)
  {
    match r
    case Start(_, _) => Chain(map[], 0)
    case Then(p, e) => NextChain(ChainOf(p, id), After(p), e, id)
  }

  // ---------------------------------------------------------------- one poll per claim

  /** How often a worker still has this job in its queue or in hand. */
  ghost function InHand(s: System, w: WorkerId, id: JobId): nat {
    multiset(s.At(w).queue)[id] + if s.Stands(w) && s.TaskOf(w).id == id then 1 else 0
  }

  ghost predicate TokenHeld(s: System, c: Chain, w: WorkerId, id: JobId) {
    InHand(s, w, id) <= if w in c.tokens then 1 else 0
  }

  lemma ClaimInHand(s: System, e: Event, id: JobId)
    requires Enabled(s, e) && e.Claim?
    ensures InHand(Apply(s, e), e.worker, id) <= if MoveOf(s, e, id).Some? then 1 else 0
  {
    OccursOnce(e.batch, id);
  }

  lemma ReportFromHand(s: System, e: Event, id: JobId)
    requires Enabled(s, e) && e.Report? && s.TaskOf(e.worker).id == id
    ensures InHand(Apply(s, e), e.worker, id) < InHand(s, e.worker, id)
  {
  }

  lemma LoadInHand(s: System, e: Event, id: JobId)
    requires Enabled(s, e) && e.Load?
    ensures InHand(Apply(s, e), e.worker, id) <= InHand(s, e.worker, id)
  {
    PopOne(s.At(e.worker).queue, id);
  }

  lemma InHandAfter(s: System, e: Event, w: WorkerId, id: JobId)
    requires Enabled(s, e) && !(e.Claim? && e.worker == w) && !(e.Load? && e.worker == w)
    ensures InHand(Apply(s, e), w, id) <= InHand(s, w, id)
  {
    QueueAfter(s, e, w);
  }

  lemma StepKeepsTokens(s: System, c: Chain, e: Event, w: WorkerId, id: JobId)
    requires Enabled(s, e) && TokenHeld(s, c, w, id)
    ensures TokenHeld(Apply(s, e), NextChain(c, s, e, id), w, id)
  {
    if e.Claim? && e.worker == w {
      ClaimInHand(s, e, id);
    } else if e.Load? && e.worker == w {
      LoadInHand(s, e, id);
    } else {
      InHandAfter(s, e, w, id);
      if e.Report? && e.worker == w && s.TaskOf(w).id == id {
        ReportFromHand(s, e, id);
      }
    }
  }

  lemma {:induction false} TokensAreHeld(r: Run, w: WorkerId, id: JobId)
    requires Valid(r)
    ensures TokenHeld(After(r), ChainOf(r, id), w, id)
  {
    if r.Then? {
      TokensAreHeld(r.before, w, id);
      StepKeepsTokens(After(r.before), ChainOf(r.before, id), r.event, w, id);
    }
  }

  // ---------------------------------------------------------------- time passes along a chain

  /** The instant before which `n` polls in a row cannot have happened. */
  function Reach(payload: Payload, n: nat): Instant
    requires payload.FieldPayload?
  {
    payload.createdAt + Times(n, payload.pollInterval as real)
  }

  ghost predicate IsFieldWait(s: System, id: JobId) {
    id in s.rows && s.rows[id].payload.FieldPayload?
  }

  ghost predicate RowReached(s: System, c: Chain, id: JobId)
    requires IsFieldWait(s, id)
  {
    s.rows[id].Waiting() ==> Reach(s.rows[id].payload, c.depth) <= s.rows[id].runAt
  }

  /** A claim along a chain comes no earlier than its polls allow. */
  ghost predicate ClaimReached(s: System, c: Chain, w: WorkerId, id: JobId)
    requires IsFieldWait(s, id)
  {
    w in c.tokens ==> Reach(s.rows[id].payload, c.tokens[w]) <= s.clock
  }

  /** A poll about to be reported lies a whole interval further on. */
  ghost predicate PollReached(s: System, c: Chain, w: WorkerId, id: JobId)
    requires IsFieldWait(s, id)
  {
    w in c.tokens && s.Stands(w) && s.TaskOf(w).id == id && s.TaskOf(w).pc.Reporting? && s.TaskOf(w).pc.move.Polled? ==>
      Reach(s.rows[id].payload, c.tokens[w] + 1) <= s.TaskOf(w).pc.move.runAt
  }

  ghost predicate Reached(s: System, c: Chain, id: JobId)
    requires IsFieldWait(s, id)
  {
    RowReached(s, c, id) && forall w :: TokenHeld(s, c, w, id) && ClaimReached(s, c, w, id) && PollReached(s, c, w, id)
  }

  /** The polling schedule never changes. */
  lemma ScheduleStays(s: System, e: Event, id: JobId)
    requires Sound(s) && Enabled(s, e) && IsFieldWait(s, id)
    ensures IsFieldWait(Apply(s, e), id)
    ensures Apply(s, e).rows[id].payload.Identity() == s.rows[id].payload.Identity()
  {
    Projection(s, e, id);
    RowsStaySound(s, e, id);
  }

  /** Where a poll leaves the row: an interval beyond the reach of the claim it was made on. */
  lemma PollReaches(s: System, c: Chain, e: Event, id: JobId)
    requires Sound(s) && Enabled(s, e) && IsFieldWait(s, id) && Reached(s, c, id)
    requires MoveOf(s, e, id).Some? && MoveOf(s, e, id).value.Polled?
    ensures e.Report? && e.worker in c.tokens
    ensures Reach(s.rows[id].payload, c.tokens[e.worker] + 1) <= MoveOf(s, e, id).value.runAt
  {
    assert TokenHeld(s, c, e.worker, id) && PollReached(s, c, e.worker, id);
  }

  lemma MoveKeepsReach(row: Row, move: Move, depth: nat, next: nat, clock: Instant)
    requires RowOk(row, clock) && Legal(row, move, clock) && row.payload.FieldPayload?
    requires row.Waiting() ==> Reach(row.payload, depth) <= row.runAt
    requires move.Polled? ==> Reach(row.payload, next) <= move.runAt
    requires move.Retried? || move.Recovered? ==> next == 0
    ensures Moved(row, move).payload.FieldPayload?
    ensures Moved(row, move).Waiting() ==> Reach(Moved(row, move).payload, next) <= Moved(row, move).runAt
  {
  }

  lemma StepKeepsRowReached(s: System, c: Chain, e: Event, id: JobId)
    requires Sound(s) && Enabled(s, e) && IsFieldWait(s, id) && Reached(s, c, id)
    ensures IsFieldWait(Apply(s, e), id) && RowReached(Apply(s, e), NextChain(c, s, e, id), id)
  {
    Projection(s, e, id);
    var m := MoveOf(s, e, id);
    if m.Some? {
      MoveIsLegal(s, e, id);
      if m.value.Polled? {
        PollReaches(s, c, e, id);
      }
      MoveKeepsReach(s.rows[id], m.value, c.depth, NextChain(c, s, e, id).depth, s.clock);
    }
  }

  /** Only a look at the field decides to poll, and it does so an interval ahead of the clock. */
  lemma PollIsAhead(task: Task, e: Event, clock: Instant, config: Config)
    requires OnTask(e) && Ready(task, e) && task.job.payload.FieldPayload?
    ensures var next := NextPc(task, e, clock, config);
            next.Some? && next.value.Reporting? && next.value.move.Polled? ==>
              next.value.move.runAt == clock + task.job.payload.pollInterval as real
  {
  }

  lemma StepKeepsClaimReached(s: System, c: Chain, e: Event, w: WorkerId, id: JobId)
    requires Sound(s) && Enabled(s, e) && IsFieldWait(s, id) && RowReached(s, c, id) && ClaimReached(s, c, w, id)
    ensures IsFieldWait(Apply(s, e), id) && ClaimReached(Apply(s, e), NextChain(c, s, e, id), w, id)
  {
    ScheduleStays(s, e, id);
  }

  /** A worker in hand of the job keeps its token until it polls. */
  lemma TokenStays(s: System, c: Chain, e: Event, w: WorkerId, id: JobId)
    requires Enabled(s, e) && Apply(s, e).Stands(w) && w in NextChain(c, s, e, id).tokens
    ensures w in c.tokens && NextChain(c, s, e, id).tokens[w] == c.tokens[w]
  {
  }

  lemma StepKeepsPollReached(s: System, c: Chain, e: Event, w: WorkerId, id: JobId)
    requires Sound(s) && Enabled(s, e) && IsFieldWait(s, id) && ClaimReached(s, c, w, id) && PollReached(s, c, w, id)
    ensures IsFieldWait(Apply(s, e), id) && PollReached(Apply(s, e), NextChain(c, s, e, id), w, id)
  {
    ScheduleStays(s, e, id);
    var t := Apply(s, e);
    if t.Stands(w) && t.TaskOf(w).id == id && w in NextChain(c, s, e, id).tokens {
      TokenStays(s, c, e, w, id);
      TaskAfter(s, e, w);
      if OnTask(e) && e.worker == w {
        PollIsAhead(s.TaskOf(w), e, s.clock, s.config);
      }
    }
  }

  // ---------------------------------------------------------------- the budget of polls

  /** The polls still possible along a chain that has made `depth`, when no chain makes more than `most`. */
  function Worth(depth: nat, most: nat): nat {
    if depth < most then most - depth else 0
  }

  ghost function TotalWorth(tokens: map<WorkerId, nat>, most: nat): nat {
    if tokens == map[] then 0
    else
      var w :| w in tokens;
      Worth(tokens[w], most) + TotalWorth(tokens - {w}, most)
  }

  /** Any token can be taken out first. */
  lemma {:induction false} TakeToken(tokens: map<WorkerId, nat>, most: nat, w: WorkerId)
    requires w in tokens
    ensures TotalWorth(tokens, most) == Worth(tokens[w], most) + TotalWorth(tokens - {w}, most)
    decreases |tokens|
  {
    var v :| v in tokens
          && TotalWorth(tokens, most) == Worth(tokens[v], most) + TotalWorth(tokens - {v}, most);
    if v != w {
      TakeToken(tokens - {v}, most, w);
      TakeToken(tokens - {w}, most, v);
      assert tokens - {v} - {w} == tokens - {w} - {v};
    }
  }

  lemma PutToken(tokens: map<WorkerId, nat>, most: nat, w: WorkerId, depth: nat)
    ensures TotalWorth(tokens[w := depth], most) <= TotalWorth(tokens, most) + Worth(depth, most)
  {
    TakeToken(tokens[w := depth], most, w);
    assert tokens[w := depth] - {w} == tokens - {w};
    if w in tokens {
      TakeToken(tokens, most, w);
    } else {
      assert tokens - {w} == tokens;
    }
  }

  /** The polls of `starts` whole chains. */
  function Allowance(starts: nat, most: nat): nat {
    if starts == 0 then 0 else Allowance(starts - 1, most) + most
  }

  lemma {:induction false} AllowanceIsProduct(starts: nat, most: nat)
    ensures Allowance(starts, most) == starts * most
  {
    if 0 < starts {
      AllowanceIsProduct(starts - 1, most);
    }
  }

  lemma {:induction false} AllowanceMonotone(m: nat, n: nat, most: nat)
    requires m <= n
    ensures Allowance(m, most) <= Allowance(n, most)
  {
    if m < n {
      AllowanceMonotone(m, n - 1, most);
    }
  }

  /** The polls made and those still possible are covered by the chains started: one by the intake, and one by each
      retry and each recovery, which the attempts count. */
  ghost predicate Covered(row: Row, c: Chain, polls: nat, most: nat)
    requires Holding(row) <= row.attempts + 1
  {
    && polls + TotalWorth(c.tokens, most) + (if row.Waiting() then Worth(c.depth, most) else 0)
         <= Allowance(1 + row.attempts - Holding(row), most)
    && (row.Waiting() && 0 < c.depth ==> row.attempts < row.maxAttempts)
  }

  /** A chain ends at the deadline: whoever polls has made fewer polls than fit before it. */
  lemma PollFits(s: System, c: Chain, e: Event, id: JobId)
    requires Sound(s) && Enabled(s, e) && IsFieldWait(s, id) && Reached(s, c, id)
    requires 1 <= s.rows[id].payload.pollInterval
    requires MoveOf(s, e, id).Some? && MoveOf(s, e, id).value.Polled?
    ensures e.Report? && e.worker in c.tokens
    ensures c.tokens[e.worker] < Ceiling(s.rows[id].payload.timeout, s.rows[id].payload.pollInterval)
  {
    assert TokenHeld(s, c, e.worker, id) && PollReached(s, c, e.worker, id);
    var payload := s.rows[id].payload;
    assert TaskOk(s.TaskOf(e.worker), s.rows, s.clock);
    assert s.TaskOf(e.worker).job.payload.Identity() == payload.Identity();
    ShortOfCeiling(c.tokens[e.worker] + 1, payload.timeout, payload.pollInterval);
  }

  /** The one move that spends: a poll turns its claim's token into the row's next claim, one shorter. */
  lemma PollKeepsCovered(row: Row, move: Move, c: Chain, w: WorkerId, polls: nat, most: nat, clock: Instant)
    requires RowOk(row, clock) && Legal(row, move, clock) && move.Polled? && Covered(row, c, polls, most)
    requires w in c.tokens && c.tokens[w] < most
    ensures Covered(Moved(row, move), Chain(c.tokens - {w}, c.tokens[w] + 1), polls + 1, most)
  {
    TakeToken(c.tokens, most, w);
  }

  lemma OtherMoveKeepsCovered(s: System, e: Event, id: JobId, c: Chain, polls: nat, most: nat)
    requires Sound(s) && Enabled(s, e) && id in s.rows && Covered(s.rows[id], c, polls, most)
    requires MoveOf(s, e, id).Some? && !MoveOf(s, e, id).value.Polled?
    ensures RowOk(Moved(s.rows[id], MoveOf(s, e, id).value), s.clock)
    ensures Covered(Moved(s.rows[id], MoveOf(s, e, id).value), NextChain(c, s, e, id), polls, most)
  {
    var row, move := s.rows[id], MoveOf(s, e, id).value;
    MoveIsLegal(s, e, id);
    MoveKeepsRow(row, move, s.clock);
    if move.Claimed? {
      PutToken(c.tokens, most, move.worker, c.depth);
    }
  }

  // ---------------------------------------------------------------- whole runs

  ghost function MostPolls(payload: Payload): nat
    requires payload.FieldPayload? && 1 <= payload.pollInterval
  {
    Ceiling(payload.timeout, payload.pollInterval)
  }

  /** Everything that holds of a field wait, its chains and its polls so far. */
  ghost predicate Accounted(s: System, c: Chain, id: JobId, polls: nat) {
    && IsFieldWait(s, id)
    && var row := s.rows[id];
       && Holding(row) <= row.attempts + 1
       && 1 <= row.payload.pollInterval
       && Reached(s, c, id)
       && Covered(row, c, polls, MostPolls(row.payload))
  }

  lemma {:induction false} NoChainBeforeIntake(r: Run, id: JobId)
    requires Valid(r) && id !in After(r).rows
    ensures ChainOf(r, id) == Chain(map[], 0)
  {
    if r.Then? {
      if id in After(r.before).rows {
        Projection(After(r.before), r.event, id);
        assert false;
      }
      NoChainBeforeIntake(r.before, id);
    }
  }

  lemma FreshRowIsAccounted(s: System, e: Event, id: JobId)
    requires Enabled(s, e) && id !in s.rows && IsFieldWait(Apply(s, e), id)
    requires forall w :: TokenHeld(Apply(s, e), Chain(map[], 0), w, id)
    requires 1 <= Apply(s, e).rows[id].payload.pollInterval
    ensures Accounted(Apply(s, e), Chain(map[], 0), id, 0)
  {
    Appearance(s, e, id);
    AllowanceMonotone(0, 1, MostPolls(Apply(s, e).rows[id].payload));
  }

  lemma IntakeIsAccounted(r: Run, id: JobId)
    requires Valid(r) && r.Then? && id !in After(r.before).rows && IsFieldWait(After(r), id)
    ensures Accounted(After(r), ChainOf(r, id), id, Count(r, id, APoll))
  {
    NoChainBeforeIntake(r.before, id);
    NothingBeforeIntake(r.before, id, APoll);
    FieldRanges(r, id);
    assert ChainOf(r, id) == Chain(map[], 0);
    forall w
      ensures TokenHeld(After(r), Chain(map[], 0), w, id)
    {
      TokensAreHeld(r, w, id);
    }
    FreshRowIsAccounted(After(r.before), r.event, id);
  }

  lemma StepStaysReached(s: System, c: Chain, e: Event, id: JobId)
    requires Sound(s) && Enabled(s, e) && IsFieldWait(s, id) && Reached(s, c, id)
    ensures IsFieldWait(Apply(s, e), id) && Reached(Apply(s, e), NextChain(c, s, e, id), id)
  {
    StepKeepsRowReached(s, c, e, id);
    forall w
      ensures TokenHeld(Apply(s, e), NextChain(c, s, e, id), w, id)
      ensures ClaimReached(Apply(s, e), NextChain(c, s, e, id), w, id)
      ensures PollReached(Apply(s, e), NextChain(c, s, e, id), w, id)
    {
      assert TokenHeld(s, c, w, id);
      StepKeepsTokens(s, c, e, w, id);
      StepKeepsClaimReached(s, c, e, w, id);
      StepKeepsPollReached(s, c, e, w, id);
    }
  }

  ghost function PollsIn(s: System, e: Event, id: JobId): nat
    requires Enabled(s, e)
  {
    var m := MoveOf(s, e, id);
    if m.Some? && m.value.Polled? then 1 else 0
  }

  lemma PollStaysCovered(s: System, c: Chain, e: Event, id: JobId, polls: nat)
    requires Sound(s) && Enabled(s, e) && Accounted(s, c, id, polls)
    requires MoveOf(s, e, id).Some? && MoveOf(s, e, id).value.Polled?
    ensures RowOk(Moved(s.rows[id], MoveOf(s, e, id).value), s.clock)
    ensures Covered(Moved(s.rows[id], MoveOf(s, e, id).value), NextChain(c, s, e, id), polls + 1,
                    MostPolls(s.rows[id].payload))
  {
    MoveIsLegal(s, e, id);
    MoveKeepsRow(s.rows[id], MoveOf(s, e, id).value, s.clock);
    PollFits(s, c, e, id);
    PollKeepsCovered(s.rows[id], MoveOf(s, e, id).value, c, e.worker, polls, MostPolls(s.rows[id].payload), s.clock);
  }

  lemma StepStaysCovered(s: System, c: Chain, e: Event, id: JobId, polls: nat)
    requires Sound(s) && Enabled(s, e) && Accounted(s, c, id, polls)
    ensures IsFieldWait(Apply(s, e), id) && RowOk(Apply(s, e).rows[id], Apply(s, e).clock)
    ensures Covered(Apply(s, e).rows[id], NextChain(c, s, e, id), polls + PollsIn(s, e, id),
                    MostPolls(s.rows[id].payload))
  {
    ScheduleStays(s, e, id);
    Projection(s, e, id);
    RowsStaySound(s, e, id);
    if MoveOf(s, e, id).Some? {
      if MoveOf(s, e, id).value.Polled? {
        PollStaysCovered(s, c, e, id, polls);
      } else {
        OtherMoveKeepsCovered(s, e, id, c, polls, MostPolls(s.rows[id].payload));
      }
    }
  }

  lemma StepStaysAccounted(s: System, c: Chain, e: Event, id: JobId, polls: nat)
    requires Sound(s) && Enabled(s, e) && Accounted(s, c, id, polls)
    ensures Accounted(Apply(s, e), NextChain(c, s, e, id), id, polls + PollsIn(s, e, id))
  {
    StepStaysReached(s, c, e, id);
    ScheduleStays(s, e, id);
    StepStaysCovered(s, c, e, id, polls);
  }

  lemma LastStepIsAccounted(r: Run, id: JobId)
    requires Valid(r) && r.Then?
    requires Accounted(After(r.before), ChainOf(r.before, id), id, Count(r.before, id, APoll))
    ensures Accounted(After(r), ChainOf(r, id), id, Count(r, id, APoll))
  {
    RunIsSound(r.before);
    OneMorePoll(r, id);
    NextIsAccounted(After(r.before), ChainOf(r.before, id), r.event, id, Count(r.before, id, APoll),
                    After(r), ChainOf(r, id), Count(r, id, APoll));
  }

  lemma NextIsAccounted(s: System, c: Chain, e: Event, id: JobId, polls: nat, t: System, next: Chain, more: nat)
    requires Sound(s) && Enabled(s, e) && Accounted(s, c, id, polls)
    requires t == Apply(s, e) && next == NextChain(c, s, e, id) && more == polls + PollsIn(s, e, id)
    ensures Accounted(t, next, id, more)
  {
    StepStaysAccounted(s, c, e, id, polls);
  }

  lemma OneMorePoll(r: Run, id: JobId)
    requires Valid(r) && r.Then?
    ensures Count(r, id, APoll) == Count(r.before, id, APoll) + PollsIn(After(r.before), r.event, id)
  {
  }

  lemma AlwaysAFieldWait(r: Run, id: JobId)
    requires Valid(r) && IsFieldWait(After(r), id)
    ensures r.Then? && (id in After(r.before).rows ==> IsFieldWait(After(r.before), id))
  {
    LastStep(r, id);
  }

  lemma {:induction false} RunStaysAccounted(r: Run, id: JobId)
    requires Valid(r) && IsFieldWait(After(r), id)
    ensures Accounted(After(r), ChainOf(r, id), id, Count(r, id, APoll))
  {
    AlwaysAFieldWait(r, id);
    if id in After(r.before).rows {
      RunStaysAccounted(r.before, id);
      LastStepIsAccounted(r, id);
    } else {
      IntakeIsAccounted(r, id);
    }
  }

  lemma CoveredBounds(row: Row, c: Chain, polls: nat, most: nat)
    requires 0 <= row.attempts <= row.maxAttempts == MAX_ATTEMPTS && Covered(row, c, polls, most)
    requires !row.Waiting() ==> 1 <= row.attempts
    ensures polls <= MAX_ATTEMPTS * most
  {
    AllowanceMonotone(row.attempts + (if row.Waiting() && 0 < c.depth then 1 else 0), MAX_ATTEMPTS, most);
    AllowanceIsProduct(MAX_ATTEMPTS, most);
  }

  lemma PollsAreBounded(r: Run, id: JobId)
    requires Valid(r) && IsFieldWait(After(r), id)
    ensures 1 <= After(r).rows[id].payload.pollInterval
    ensures Count(r, id, APoll) <= MAX_ATTEMPTS * MostPolls(After(r).rows[id].payload)
  {
    RunStaysAccounted(r, id);
    AttemptLedger(r, id);
    CoveredBounds(After(r).rows[id], ChainOf(r, id), Count(r, id, APoll), MostPolls(After(r).rows[id].payload));
  }

  /** A field wait terminates in every run, whatever workers do with rows they no longer hold: each of at most ten
      chains polls at most ceil(timeout / interval) times, and everything else is bounded by the polls. */
  lemma FieldWaitTerminatesAnyway(r: Run, id: JobId)
    requires Valid(r) && IsFieldWait(After(r), id)
    ensures 1 <= After(r).rows[id].payload.pollInterval
    ensures var payload := After(r).rows[id].payload; var most := Ceiling(payload.timeout, payload.pollInterval);
            && IsLeastCover(most, payload.timeout, payload.pollInterval)
            && Count(r, id, APoll) <= MAX_ATTEMPTS * most
            && Count(r, id, AClaim) <= MAX_ATTEMPTS * most + MAX_ATTEMPTS
            && Changes(r, id) <= 2 * MAX_ATTEMPTS + 1 + 2 * (MAX_ATTEMPTS * most)
  {
    PollsAreBounded(r, id);
    CeilingIsLeast(After(r).rows[id].payload.timeout, After(r).rows[id].payload.pollInterval);
    AttemptLedger(r, id);
    StatusChangesAreBounded(r, id);
  }
}
