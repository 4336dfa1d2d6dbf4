/** Button launches as a transition system: reservations, remote starts, replies, result commits, releases and
    configuration changes interleave in any order (app/api/workflow_buttons.py). */
module LaunchProtocol {
  import opened Prelude
  import opened LaunchStore

  /** A `launch` request handler after its reservation was committed. */
  datatype Handler =
    | Committed(blockUntilReleased: bool)
    | Calling(blockUntilReleased: bool)
    | Answered(reply: StartReply, blockUntilReleased: bool)

  /** The clock reading, the button's settings and the caller's role when a record was reserved; kept beside the
      records. */
  datatype Stamp = Stamp(at: Instant, settings: ButtonSettings, admin: bool)

  datatype System = System(
    clock: Instant, buttons: seq<Button>, launches: seq<Launch>,
    handlers: map<LaunchId, Handler>, inFlight: set<LaunchId>, stamps: seq<Stamp>)
  {
    ghost predicate SameTarget(i: LaunchId, j: LaunchId)
      requires i < |launches| && j < |launches|
    {
      launches[i].button == launches[j].button && launches[i].deal == launches[j].deal
    }
  }

  datatype Event =
    | Tick(now: Instant)
    | Save(who: Actor, field: string, settings: ButtonSettings)
    | Reserve(who: Actor, field: string, deal: nat, request: nat, recent: Option<LaunchId>, createdAt: Instant)
    | Issue(id: LaunchId)                        // the remote start is sent
    | Finish(id: LaunchId)                       // the remote side is done with it, whatever was answered
    | Answer(id: LaunchId, reply: StartReply)    // the handler learns a result, or gives up
    | Commit(id: LaunchId)                       // the handler's second transaction
    | Drop(id: LaunchId)                         // the handler dies
    | Release(who: Actor, id: LaunchId)

  function DecisionOf(s: System, e: Event): Decision
    requires e.Reserve? && (e.recent.Some? ==> e.recent.value < |s.launches|)
  {
    Decide(s.buttons, s.launches, e.who, e.field, e.deal, e.request, e.recent, s.clock, e.createdAt)
  }

  ghost predicate Enabled(s: System, e: Event) {
    match e
    case Tick(now) => s.clock <= now
    case Save(who, _, settings) => settings.Valid()
    case Reserve(who, field, deal, _, recent, createdAt) =>
      && createdAt <= s.clock
      && (recent.Some? ==> recent.value < |s.launches|)
      && var b := FindButton(s.buttons, who.portal, field);
         if b.Some? then IsRecent(s.launches, b.value, deal, recent) else recent.None?
    case Issue(id) => id in s.handlers && s.handlers[id].Committed?
    case Finish(id) => id in s.inFlight
    case Answer(id, reply) => id in s.handlers && s.handlers[id].Calling? && (reply.Result? ==> id !in s.inFlight)
    case Commit(id) => id in s.handlers && s.handlers[id].Answered? && id < |s.launches|
    case Drop(id) => id in s.handlers
    case Release(_, _) => true
  }

  ghost function Apply(s: System, e: Event): System
    requires Enabled(s, e)
  {
    match e
    case Tick(now) => s.(clock := now)
    case Save(who, field, settings) =>
      if who.admin then s.(buttons := Saved(s.buttons, who.portal, field, settings)) else s
    case Reserve(_, _, _, _, _, _) =>
      var decision := DecisionOf(s, e);
      if decision.Reserved? then
        s.(launches := s.launches + [decision.record],
           handlers := s.handlers[|s.launches| := Committed(decision.settings.blockUntilReleased)],
           stamps := s.stamps + [Stamp(s.clock, decision.settings, e.who.admin)])
      else s
    case Issue(id) =>
      s.(handlers := s.handlers[id := Calling(s.handlers[id].blockUntilReleased)], inFlight := s.inFlight + {id})
    case Finish(id) => s.(inFlight := s.inFlight - {id})
    case Answer(id, reply) => s.(handlers := s.handlers[id := Answered(reply, s.handlers[id].blockUntilReleased)])
    case Commit(id) =>
      var outcome := Outcome(s.handlers[id].reply, s.handlers[id].blockUntilReleased);
      s.(launches := s.launches[id := s.launches[id].(status := outcome.0, workflow := outcome.1)],
         handlers := s.handlers - {id})
    case Drop(id) => s.(handlers := s.handlers - {id})
    case Release(who, id) =>
      if ReleaseRefusal(s.launches, who, id, s.clock).Some? then s
      else s.(launches := s.launches[id := s.launches[id].(releasedAt := Some(s.clock), releasedBy := Some(who.user))])
  }

  // ---------------------------------------------------------------- runs and hypotheses

  datatype Run = Start(clock: Instant) | Then(before: Run, event: Event)

  ghost predicate Valid(r: Run)
    decreases r, 0
  {
    r.Then? ==> Valid(r.before) && Enabled(After(r.before), r.event)
  }

  ghost function After(r: Run): System
    requires Valid(r)
    decreases r, 1
  {
    match r
    case Start(clock) => System(clock, [], [], map[], {}, [])
    case Then(before, e) => Apply(After(before), e)
  }

  ghost predicate Extends(r: Run, p: Run) {
    r == p || (r.Then? && Extends(r.before, p))
  }

  /** created_at is assigned in reservation order. It is the start time of the reserving transaction, which the
      original opens before the portal lock is taken, so this is a hypothesis on the run. */
  ghost predicate OrderedEvent(s: System, e: Event)
    requires Enabled(s, e)
  {
    e.Reserve? && DecisionOf(s, e).Reserved? ==>
      forall i | 0 <= i < |s.launches| && s.launches[i].For(DecisionOf(s, e).record.button, e.deal) ::
        s.launches[i].createdAt < e.createdAt
  }

  ghost predicate Ordered(r: Run)
    requires Valid(r)
  {
    r.Then? ==> Ordered(r.before) && OrderedEvent(After(r.before), r.event)
  }

  /** Every remote start is over less than 300 seconds after its record was created. */
  ghost predicate TimelyState(s: System) {
    forall id | id in s.inFlight && id < |s.launches| :: s.clock < s.launches[id].createdAt + 300.0
  }

  ghost predicate Timely(r: Run)
    requires Valid(r)
  {
    TimelyState(After(r)) && (r.Then? ==> Timely(r.before))
  }

  /** Every remote start is over less than 300 seconds after its record was reserved: the weaker hypothesis. */
  ghost predicate TimelySinceReservationState(s: System) {
    forall id | id in s.inFlight && id < |s.stamps| :: s.clock < s.stamps[id].at + 300.0
  }

  ghost predicate TimelySinceReservation(r: Run)
    requires Valid(r)
  {
    TimelySinceReservationState(After(r)) && (r.Then? ==> TimelySinceReservation(r.before))
  }

  // ---------------------------------------------------------------- invariants of every interleaving

  ghost predicate HandlersOk(s: System) {
    && |s.stamps| == |s.launches|
    && (forall id | id in s.handlers :: id < |s.launches| && s.launches[id].status == Starting)
    && (forall id | id in s.inFlight ::
          id < |s.launches| && (s.launches[id].status == Starting || s.launches[id].status == Unknown))
    && (forall id | id in s.handlers && s.handlers[id].Committed? :: id !in s.inFlight)
    && (forall id | id in s.handlers && s.handlers[id].Answered? && s.handlers[id].reply.Result? :: id !in s.inFlight)
  }

  ghost predicate RecordsOk(s: System) {
    && (forall i | 0 <= i < |s.buttons| :: s.buttons[i].settings.Valid())
    && (forall i, j | 0 <= i < j < |s.launches| ::
          !(s.launches[i].portal == s.launches[j].portal && s.launches[i].request == s.launches[j].request))
    && (forall i | 0 <= i < |s.launches| ::
          s.launches[i].releasedAt.Some? ==> s.launches[i].createdAt + 300.0 <= s.clock)
  }

  lemma StepKeepsHandlers(s: System, e: Event)
    requires HandlersOk(s) && Enabled(s, e)
    ensures HandlersOk(Apply(s, e))
  {
  }

  lemma SavedButtonsValid(buttons: seq<Button>, portal: PortalId, field: string, settings: ButtonSettings)
    requires settings.Valid() && forall i | 0 <= i < |buttons| :: buttons[i].settings.Valid()
    ensures forall i | 0 <= i < |Saved(buttons, portal, field, settings)| ::
              Saved(buttons, portal, field, settings)[i].settings.Valid()
  {
  }

  lemma StepKeepsRecords(s: System, e: Event)
    requires RecordsOk(s) && Enabled(s, e)
    ensures RecordsOk(Apply(s, e))
  {
    if e.Save? {
      SavedButtonsValid(s.buttons, e.who.portal, e.field, e.settings);
    }
  }

  lemma {:induction false} RunKeepsRecords(r: Run)
    requires Valid(r)
    ensures HandlersOk(After(r)) && RecordsOk(After(r))
  {
    if r.Then? {
      RunKeepsRecords(r.before);
      StepKeepsHandlers(After(r.before), r.event);
      StepKeepsRecords(After(r.before), r.event);
    }
  }

  // ---------------------------------------------------------------- reservations in order

  /** Later records of the same button and deal were created later, and every record but the newest is settled. */
  ghost predicate Succession(s: System) {
    forall i, j | 0 <= i < j < |s.launches| && s.SameTarget(i, j) ::
      s.launches[i].createdAt < s.launches[j].createdAt && s.launches[i].Settled()
  }

  /** Whatever the order, every launch of its button and deal has cooled down when a reservation is made. */
  lemma ReservationIsCool(s: System, e: Event, i: LaunchId)
    requires Enabled(s, e) && e.Reserve? && DecisionOf(s, e).Reserved?
    requires i < |s.launches| && s.launches[i].For(DecisionOf(s, e).record.button, e.deal)
    ensures s.launches[i].createdAt <= s.clock - DecisionOf(s, e).settings.cooldown as real
  {
    assert s.launches[i].createdAt <= s.launches[e.recent.value].createdAt;
  }

  /** What the reservation saw: under the ordering, the newest record, settled. */
  lemma ReservationSeesNewest(s: System, e: Event, i: LaunchId)
    requires Succession(s) && Enabled(s, e) && e.Reserve? && DecisionOf(s, e).Reserved?
    requires i < |s.launches| && s.launches[i].For(DecisionOf(s, e).record.button, e.deal)
    ensures s.launches[i].Settled()
  {
    var recent := e.recent.value;
    assert s.launches[i].createdAt <= s.launches[recent].createdAt;
    assert i < recent ==> s.SameTarget(i, recent);
    assert recent < i ==> s.SameTarget(recent, i);
  }

  lemma StepKeepsSuccession(s: System, e: Event)
    requires HandlersOk(s) && Succession(s) && Enabled(s, e) && OrderedEvent(s, e)
    ensures Succession(Apply(s, e))
  {
    var t := Apply(s, e);
    forall i, j | 0 <= i < j < |t.launches| && t.SameTarget(i, j)
      ensures t.launches[i].createdAt < t.launches[j].createdAt && t.launches[i].Settled()
    {
      if j == |s.launches| {
        ReservationSeesNewest(s, e, i);
      } else {
        assert s.SameTarget(i, j);
      }
    }
  }

  lemma {:induction false} RunKeepsSuccession(r: Run)
    requires Valid(r) && Ordered(r)
    ensures Succession(After(r))
  {
    if r.Then? {
      RunKeepsSuccession(r.before);
      RunKeepsRecords(r.before);
      StepKeepsSuccession(After(r.before), r.event);
    }
  }

  /** Events other than a reservation move no record and no stamp. */
  lemma TargetsStay(s: System, e: Event, i: LaunchId)
    requires |s.stamps| == |s.launches| && Enabled(s, e) && i < |s.launches|
    ensures |Apply(s, e).stamps| == |Apply(s, e).launches| && i < |Apply(s, e).launches|
    ensures Apply(s, e).launches[i].button == s.launches[i].button && Apply(s, e).launches[i].deal == s.launches[i].deal
    ensures Apply(s, e).launches[i].createdAt == s.launches[i].createdAt && Apply(s, e).stamps[i] == s.stamps[i]
    ensures |s.launches| < |Apply(s, e).launches| ==>
              && e.Reserve? && DecisionOf(s, e).Reserved? && |Apply(s, e).launches| == |s.launches| + 1
              && Apply(s, e).launches[|s.launches|] == DecisionOf(s, e).record
              && Apply(s, e).stamps[|s.launches|] == Stamp(s.clock, DecisionOf(s, e).settings, e.who.admin)
              && DecisionOf(s, e).record.deal == e.deal
  {
  }

  // ---------------------------------------------------------------- exactly when two launches are open

  /** Two unsettled launches of one button and deal. */
  ghost predicate OpenPair(s: System) {
    exists i, j | 0 <= i < j < |s.launches| ::
      s.SameTarget(i, j) && !s.launches[i].Settled() && !s.launches[j].Settled()
  }

  ghost predicate HasOpenLaunch(s: System, b: ButtonId, deal: nat) {
    exists i | 0 <= i < |s.launches| :: s.launches[i].For(b, deal) && !s.launches[i].Settled()
  }

  /** A reservation is made although an unsettled launch of its button and deal exists. */
  ghost predicate Overlooks(s: System, e: Event)
    requires Enabled(s, e)
  {
    e.Reserve? && DecisionOf(s, e).Reserved? && HasOpenLaunch(s, DecisionOf(s, e).record.button, e.deal)
  }

  /** A reservation overlooks an open launch only behind a settled one that was created no earlier. */
  lemma OverlookedIsHidden(s: System, e: Event, i: LaunchId)
    requires Enabled(s, e) && Overlooks(s, e) && i < |s.launches|
    requires s.launches[i].For(DecisionOf(s, e).record.button, e.deal) && !s.launches[i].Settled()
    ensures e.recent.Some? && e.recent.value < |s.launches| && e.recent.value != i
    ensures s.launches[e.recent.value].Settled() && s.launches[i].createdAt <= s.launches[e.recent.value].createdAt
  {
  }

  /** Settled launches stay settled. */
  lemma SettledStays(s: System, e: Event, i: LaunchId)
    requires HandlersOk(s) && Enabled(s, e) && i < |s.launches| && s.launches[i].Settled()
    ensures i < |Apply(s, e).launches| && Apply(s, e).launches[i].Settled()
  {
  }

  /** One event opens a second launch if and only if it is a reservation that overlooks an open one. */
  lemma OpenPairArises(s: System, e: Event)
    requires HandlersOk(s) && Enabled(s, e) && !OpenPair(s)
    ensures OpenPair(Apply(s, e)) <==> Overlooks(s, e)
  {
    var t := Apply(s, e);
    if Overlooks(s, e) {
      var i :| 0 <= i < |s.launches| && s.launches[i].For(DecisionOf(s, e).record.button, e.deal)
            && !s.launches[i].Settled();
      assert t.SameTarget(i, |s.launches|);
    }
    if i, j :| 0 <= i < j < |t.launches| && t.SameTarget(i, j) && !t.launches[i].Settled() && !t.launches[j].Settled() {
      TargetsStay(s, e, i);
      assert !s.launches[i].Settled() by {
        if s.launches[i].Settled() {
          SettledStays(s, e, i);
        }
      }
      if j < |s.launches| {
        TargetsStay(s, e, j);
        if s.launches[j].Settled() {
          SettledStays(s, e, j);
        } else {
          assert s.SameTarget(i, j);
        }
      }
    }
  }

  /** No reservation of the run overlooks an open launch. */
  ghost predicate Attentive(r: Run)
    requires Valid(r)
  {
    r.Then? ==> Attentive(r.before) && !Overlooks(After(r.before), r.event)
  }

  /** At no point of the run are two launches of one button and deal open. */
  ghost predicate NeverTwoOpen(r: Run)
    requires Valid(r)
  {
    !OpenPair(After(r)) && (r.Then? ==> NeverTwoOpen(r.before))
  }

  /** The exact condition on whole runs: never two open launches if and only if no reservation overlooks one. */
  lemma {:induction false} NeverTwoOpenIffAttentive(r: Run)
    requires Valid(r)
    ensures NeverTwoOpen(r) <==> Attentive(r)
  {
    if r.Then? {
      NeverTwoOpenIffAttentive(r.before);
      RunKeepsRecords(r.before);
      if NeverTwoOpen(r.before) {
        OpenPairArises(After(r.before), r.event);
      }
    }
  }

  /** created_at in reservation order is enough for that. */
  lemma {:induction false} OrderedIsAttentive(r: Run)
    requires Valid(r) && Ordered(r)
    ensures Attentive(r)
  {
    if r.Then? {
      OrderedIsAttentive(r.before);
      RunKeepsSuccession(r.before);
      var s, e := After(r.before), r.event;
      if Overlooks(s, e) {
        var i :| 0 <= i < |s.launches| && s.launches[i].For(DecisionOf(s, e).record.button, e.deal)
              && !s.launches[i].Settled();
        ReservationSeesNewest(s, e, i);
      }
    }
  }

  /** All launches of one button and deal but the newest are settled. */
  ghost predicate OlderSettled(s: System) {
    forall i, j | 0 <= i < j < |s.launches| && s.SameTarget(i, j) :: s.launches[i].Settled()
  }

  lemma StepKeepsOlderSettled(s: System, e: Event)
    requires HandlersOk(s) && OlderSettled(s) && Enabled(s, e) && !Overlooks(s, e)
    ensures OlderSettled(Apply(s, e))
  {
    var t := Apply(s, e);
    forall i, j | 0 <= i < j < |t.launches| && t.SameTarget(i, j)
      ensures t.launches[i].Settled()
    {
      TargetsStay(s, e, i);
      if j < |s.launches| {
        TargetsStay(s, e, j);
        assert s.SameTarget(i, j);
      } else {
        assert s.launches[i].For(DecisionOf(s, e).record.button, e.deal);
      }
      SettledStays(s, e, i);
    }
  }

  lemma {:induction false} AttentiveKeepsOlderSettled(r: Run)
    requires Valid(r) && Attentive(r)
    ensures OlderSettled(After(r))
  {
    if r.Then? {
      AttentiveKeepsOlderSettled(r.before);
      RunKeepsRecords(r.before);
      StepKeepsOlderSettled(After(r.before), r.event);
    }
  }

  /** For each button and deal every launch except the newest is started or released, so at most one launch is open:
      however result commits, releases and configuration changes race. */
  lemma AtMostOneOpenLaunch(r: Run, i: LaunchId, j: LaunchId)
    requires Valid(r) && Attentive(r)
    requires i < |After(r).launches| && j < |After(r).launches| && After(r).SameTarget(i, j)
    ensures i < j ==> After(r).launches[i].Settled()
    ensures !After(r).launches[i].Settled() && !After(r).launches[j].Settled() ==> i == j
  {
    AttentiveKeepsOlderSettled(r);
    assert After(r).SameTarget(j, i);
  }

  // ---------------------------------------------------------------- mutual exclusion of remote starts

  /** How a start can still be in flight after the next reservation, with no hypothesis on timing: only when it was
      released meanwhile, 300 seconds or more after its record was created. */
  lemma OverlapMeansReleased(r: Run, i: LaunchId, j: LaunchId)
    requires Valid(r) && Attentive(r) && i in After(r).inFlight && i < j < |After(r).launches|
    requires After(r).SameTarget(i, j)
    ensures After(r).launches[i].releasedAt.Some? && After(r).launches[i].createdAt + 300.0 <= After(r).clock
  {
    RunKeepsRecords(r);
    AttentiveKeepsOlderSettled(r);
  }

  /** With timely starts no two remote starts are in flight for the same button and deal. */
  lemma StartsExclude(r: Run, i: LaunchId, j: LaunchId)
    requires Valid(r) && Attentive(r) && Timely(r)
    requires i in After(r).inFlight && j in After(r).inFlight
    ensures i < |After(r).launches| && j < |After(r).launches|
    ensures After(r).SameTarget(i, j) ==> i == j
  {
    RunKeepsRecords(r);
    if After(r).SameTarget(i, j) && i < j {
      OverlapMeansReleased(r, i, j);
    } else if After(r).SameTarget(i, j) && j < i {
      assert After(r).SameTarget(j, i);
      OverlapMeansReleased(r, j, i);
    }
  }

  /** The 300 seconds may be counted from the reservation when the earlier transaction began with it. */
  lemma StartsExcludeSinceReservation(r: Run, i: LaunchId, j: LaunchId)
    requires Valid(r) && Attentive(r) && TimelySinceReservation(r)
    requires i in After(r).inFlight && j in After(r).inFlight && i < j
    ensures j < |After(r).launches| == |After(r).stamps|
    ensures After(r).SameTarget(i, j) ==> After(r).launches[i].createdAt < After(r).stamps[i].at
  {
    RunKeepsRecords(r);
    if After(r).SameTarget(i, j) {
      OverlapMeansReleased(r, i, j);
    }
  }

  // ---------------------------------------------------------------- spacing

  /** Every record was created no later than it was reserved, under a cooldown of at least ten seconds. */
  ghost predicate Stamped(s: System) {
    && |s.stamps| == |s.launches|
    && forall i | 0 <= i < |s.launches| ::
         s.launches[i].createdAt <= s.stamps[i].at <= s.clock && 10 <= s.stamps[i].settings.cooldown
  }

  /** Each reservation came a full cooldown after the creation of every earlier launch of its button and deal. */
  ghost predicate Spaced(s: System)
    requires |s.stamps| == |s.launches|
  {
    forall i, j | 0 <= i < j < |s.launches| && s.SameTarget(i, j) ::
      s.launches[i].createdAt + s.stamps[j].settings.cooldown as real <= s.stamps[j].at
  }

  lemma StepKeepsStamps(s: System, e: Event)
    requires HandlersOk(s) && RecordsOk(s) && Stamped(s) && Enabled(s, e)
    ensures Stamped(Apply(s, e))
  {
  }

  lemma StepKeepsSpacing(s: System, e: Event)
    requires |s.stamps| == |s.launches| && Spaced(s) && Enabled(s, e)
    ensures |Apply(s, e).stamps| == |Apply(s, e).launches| && Spaced(Apply(s, e))
  {
    var t := Apply(s, e);
    if s.launches != [] {
      TargetsStay(s, e, 0);
    }
    forall i, j | 0 <= i < j < |t.launches| && t.SameTarget(i, j)
      ensures t.launches[i].createdAt + t.stamps[j].settings.cooldown as real <= t.stamps[j].at
    {
      TargetsStay(s, e, i);
      if j < |s.launches| {
        TargetsStay(s, e, j);
        assert s.SameTarget(i, j);
      } else {
        ReservationIsCool(s, e, i);
      }
    }
  }

  /** Launch spacing over whole runs, for any two launches, in whatever order the transactions began and whatever `save`
      does to the cooldown between them. The wait is counted from created_at; counted from the earlier reservation it
      falls short by at most the age that the earlier transaction had reached when it reserved. */
  lemma {:induction false} LaunchesAreSpaced(r: Run)
    requires Valid(r)
    ensures Stamped(After(r)) && Spaced(After(r))
    ensures var s := After(r);
            forall i, j | 0 <= i < j < |s.launches| && s.SameTarget(i, j) ::
              s.stamps[j].at - s.stamps[i].at
              >= s.stamps[j].settings.cooldown as real - (s.stamps[i].at - s.launches[i].createdAt)
  {
    if r.Then? {
      LaunchesAreSpaced(r.before);
      RunKeepsRecords(r.before);
      StepKeepsStamps(After(r.before), r.event);
      StepKeepsSpacing(After(r.before), r.event);
    }
  }

  // ---------------------------------------------------------------- permission and configuration

  /** The record was reserved for somebody whom the settings of that moment let launch, with the template they name, and
      its outcome follows their choice to block until released. */
  ghost predicate AsConfigured(launch: Launch, stamp: Stamp) {
    && stamp.settings.enabled && (stamp.admin || launch.user in stamp.settings.allowed)
    && launch.template == stamp.settings.template
    && (launch.status == Blocked ==> stamp.settings.blockUntilReleased)
    && (launch.status == Started ==> !stamp.settings.blockUntilReleased)
    && (launch.workflow.Some? <==> launch.status == Blocked || launch.status == Started)
  }

  function BlockOf(handler: Handler): bool {
    match handler
    case Committed(block) => block
    case Calling(block) => block
    case Answered(_, block) => block
  }

  ghost predicate Configured(s: System) {
    && |s.stamps| == |s.launches|
    && (forall i | 0 <= i < |s.launches| :: AsConfigured(s.launches[i], s.stamps[i]))
    && (forall id | id in s.handlers && id < |s.stamps| ::
          BlockOf(s.handlers[id]) == s.stamps[id].settings.blockUntilReleased)
  }

  lemma ReservationIsPermitted(s: System, e: Event)
    requires Enabled(s, e) && e.Reserve? && DecisionOf(s, e).Reserved?
    ensures AsConfigured(DecisionOf(s, e).record, Stamp(s.clock, DecisionOf(s, e).settings, e.who.admin))
  {
  }

  /** What is kept beside the record are the settings that the button had. */
  lemma StampIsCurrent(s: System, e: Event)
    requires |s.stamps| == |s.launches| && Enabled(s, e) && e.Reserve? && DecisionOf(s, e).Reserved?
    ensures |Apply(s, e).stamps| == |s.stamps| + 1
    ensures exists b: nat ::
              && IsButton(s.buttons, b, e.who.portal, e.field)
              && Apply(s, e).stamps[|s.stamps|] == Stamp(s.clock, s.buttons[b].settings, e.who.admin)
  {
    assert IsButton(s.buttons, DecisionOf(s, e).record.button, e.who.portal, e.field);
  }

  lemma StepKeepsConfigured(s: System, e: Event)
    requires HandlersOk(s) && Configured(s) && Enabled(s, e)
    ensures Configured(Apply(s, e))
  {
    if e.Reserve? && DecisionOf(s, e).Reserved? {
      ReservationIsPermitted(s, e);
    }
  }

  /** In every run each record's user was an administrator or on the list in force when it was reserved, whatever `save`
      did to the list since; the launch runs the template of that moment, and blocks as was configured then. */
  lemma {:induction false} LaunchesArePermitted(r: Run)
    requires Valid(r)
    ensures Configured(After(r))
  {
    if r.Then? {
      LaunchesArePermitted(r.before);
      RunKeepsRecords(r.before);
      StepKeepsConfigured(After(r.before), r.event);
    }
  }

  // ---------------------------------------------------------------- idempotence

  ghost function Starts(r: Run, id: LaunchId): nat
    requires Valid(r)
  {
    match r
    case Start(_) => 0
    case Then(p, e) => Starts(p, id) + if e == Issue(id) then 1 else 0
  }

  /** Each record gets at most one remote start, none before the record is committed. */
  lemma {:induction false} OneStartPerRecord(r: Run, id: LaunchId)
    requires Valid(r)
    ensures Starts(r, id) <= 1
    ensures |After(r).launches| <= id || (id in After(r).handlers && After(r).handlers[id].Committed?) ==>
              Starts(r, id) == 0
  {
    if r.Then? {
      OneStartPerRecord(r.before, id);
      RunKeepsRecords(r.before);
    }
  }

  /** What a record keeps for ever: who asked for what, and a result once committed. */
  ghost predicate SameRecord(a: Launch, b: Launch) {
    && a.portal == b.portal && a.request == b.request && a.button == b.button && a.deal == b.deal && a.user == b.user
    && a.createdAt == b.createdAt
    && (a.status != Starting ==> a.status == b.status && a.workflow == b.workflow)
  }

  lemma StepKeepsRecord(s: System, e: Event, id: LaunchId)
    requires HandlersOk(s) && Enabled(s, e) && id < |s.launches|
    ensures id < |Apply(s, e).launches| && SameRecord(s.launches[id], Apply(s, e).launches[id])
  {
  }

  /** Records are never lost, and a committed result is final. */
  lemma {:induction false} RecordsPersist(p: Run, r: Run, id: LaunchId)
    requires Valid(p) && Valid(r) && Extends(r, p) && id < |After(p).launches|
    ensures id < |After(r).launches| && SameRecord(After(p).launches[id], After(r).launches[id])
  {
    if r != p {
      RecordsPersist(p, r.before, id);
      RunKeepsRecords(r.before);
      StepKeepsRecord(After(r.before), r.event, id);
    }
  }

  lemma FoundOnce(launches: seq<Launch>, portal: PortalId, request: nat, id: LaunchId)
    requires forall i, j | 0 <= i < j < |launches| ::
               !(launches[i].portal == launches[j].portal && launches[i].request == launches[j].request)
    requires id < |launches| && launches[id].portal == portal && launches[id].request == request
    ensures FindRequest(launches, portal, request) == Some(id)
  {
    var found := FindRequest(launches, portal, request).value;
    assert found < id || id < found || found == id;
  }

  /** A request id once used never reserves again: the same caller, button and deal get the first record back, any
      other use is refused, and the system does not change. */
  lemma RepeatReturnsTheRecord(p: Run, r: Run, id: LaunchId, e: Event)
    requires Valid(p) && Valid(r) && Extends(r, p) && id < |After(p).launches|
    requires Enabled(After(r), e) && e.Reserve?
    requires e.who.portal == After(p).launches[id].portal && e.request == After(p).launches[id].request
    ensures Apply(After(r), e) == After(r)
    ensures var l := After(p).launches[id]; var b := FindButton(After(r).buttons, e.who.portal, e.field);
            b.Some? && CanLaunch(After(r).buttons[b.value].settings, e.who) ==>
              DecisionOf(After(r), e) ==
              if l.button == b.value && l.deal == e.deal && l.user == e.who.user then Existing(id)
              else Refused(RequestIdTaken)
  {
    RecordsPersist(p, r, id);
    RunKeepsRecords(r);
    FoundOnce(After(r).launches, e.who.portal, e.request, id);
  }

  // ---------------------------------------------------------------- concrete runs at the edges

  const SETTINGS := ButtonSettings(1, {}, true, 10, false)
  const ADMIN := Actor(1, 1, true)

  /** The state after a single launch on button "UF" and deal 7. */
  ghost predicate OneLaunch(s: System, createdAt: Instant) {
    && s.buttons == [Button(1, "UF", SETTINGS)] && |s.launches| == |s.stamps| == 1
    && s.launches[0].portal == 1 && s.launches[0].request == 0 && s.launches[0].For(0, 7)
    && s.launches[0].createdAt == createdAt
  }

  /** The hypotheses under which a concrete run is looked at; `Timely` only when the first record is young enough. */
  ghost predicate Good(r: Run, createdAt: Instant, at: Instant) {
    Valid(r) && Ordered(r) && TimelySinceReservation(r) && (at < createdAt + 300.0 ==> Timely(r))
  }

  lemma OneButton(at: Instant) returns (r: Run)
    ensures Valid(r) && Ordered(r) && TimelySinceReservation(r) && Timely(r)
    ensures After(r) == System(at, [Button(1, "UF", SETTINGS)], [], map[], {}, [])
  {
    var start := Start(at);
    assert Valid(start) && Ordered(start) && TimelySinceReservation(start) && Timely(start);
    r := Then(start, Save(ADMIN, "UF", SETTINGS));
    assert Valid(r);
  }

  lemma OneReservedLaunch(createdAt: Instant, at: Instant) returns (r: Run)
    requires createdAt <= at
    ensures Valid(r) && Ordered(r) && TimelySinceReservation(r) && Timely(r)
    ensures var s := After(r);
            && OneLaunch(s, createdAt) && s.clock == s.stamps[0].at == at && s.inFlight == {}
            && s.handlers == map[0 := Committed(false)]
  {
    var p := OneButton(at);
    r := Then(p, Reserve(ADMIN, "UF", 7, 0, None, createdAt));
    assert Valid(r) && |After(r).launches| == 1;
  }

  lemma OneCallingLaunch(createdAt: Instant, at: Instant) returns (r: Run)
    requires createdAt <= at
    ensures Good(r, createdAt, at)
    ensures var s := After(r);
            && OneLaunch(s, createdAt) && s.clock == s.stamps[0].at == at && s.inFlight == {0}
            && s.handlers == map[0 := Calling(false)]
  {
    var p := OneReservedLaunch(createdAt, at);
    r := Then(p, Issue(0));
    assert Valid(r) && After(r).inFlight == {0};
  }

  /** One started launch, some time later. */
  lemma OneStartedLaunch(createdAt: Instant, at: Instant, later: Instant) returns (r: Run)
    requires createdAt <= at <= later
    ensures Good(r, createdAt, at)
    ensures var s := After(r);
            && OneLaunch(s, createdAt) && s.stamps[0].at == at && s.clock == later && s.inFlight == {}
            && s.launches[0].status == Started
  {
    var r3 := OneCallingLaunch(createdAt, at);
    var r4 := Then(r3, Finish(0));
    assert Valid(r4) && After(r4).inFlight == {} && Good(r4, createdAt, at);
    var r5 := Then(r4, Answer(0, Result("w")));
    assert Valid(r5) && Good(r5, createdAt, at);
    var r6 := Then(r5, Commit(0));
    assert Valid(r6) && Good(r6, createdAt, at);
    r := Then(r6, Tick(later));
    assert Valid(r);
  }

  const SECOND := Reserve(ADMIN, "UF", 7, 1, Some(0), 0.0)

  /** A second request for the same button and deal gets through once the first launch is settled and cooled down. */
  lemma SecondReservation(s: System, createdAt: Instant, firstCreatedAt: Instant)
    requires OneLaunch(s, firstCreatedAt) && s.launches[0].Settled()
    requires firstCreatedAt <= s.clock - 10.0 && createdAt <= s.clock
    ensures Enabled(s, SECOND.(createdAt := createdAt))
    ensures DecisionOf(s, SECOND.(createdAt := createdAt))
         == Reserved(Launch(1, 0, 1, 7, 1, 1, Starting, None, None, None, createdAt), SETTINGS)
  {
    var e := SECOND.(createdAt := createdAt);
    assert FindButton(s.buttons, 1, "UF") == Some(0);
    assert FindRequest(s.launches, 1, 1) == None;
  }

  // Disorder: a slow request, whose transaction began first, reserves last, and the next request looks past it.

  /** The newest record by created_at of i's button and deal, among those before j. */
  ghost predicate NewestBefore(s: System, m: LaunchId, i: LaunchId, j: LaunchId)
    requires i < |s.launches| && j <= |s.launches|
  {
    && m < j && s.SameTarget(m, i)
    && forall k | 0 <= k < j && s.SameTarget(k, i) :: s.launches[k].createdAt <= s.launches[m].createdAt
  }

  /** The i-th launch is open when the j-th is reserved only if another record is the newest. */
  ghost predicate HiddenBy(s: System, i: LaunchId, j: LaunchId)
    requires i < |s.launches| && j <= |s.launches|
  {
    exists m: LaunchId :: m != i && NewestBefore(s, m, i, j)
  }

  ghost predicate OpenOnesHidden(s: System) {
    forall i, j | 0 <= i < j < |s.launches| && s.SameTarget(i, j) && !s.launches[i].Settled() :: HiddenBy(s, i, j)
  }

  lemma HiddenStays(s: System, e: Event, i: LaunchId, j: LaunchId)
    requires |s.stamps| == |s.launches| && Enabled(s, e) && i < j <= |s.launches| && HiddenBy(s, i, j)
    ensures i < |Apply(s, e).launches| && j <= |Apply(s, e).launches| && HiddenBy(Apply(s, e), i, j)
  {
    var m: LaunchId :| m != i && NewestBefore(s, m, i, j);
    forall k | 0 <= k < j
      ensures k < |Apply(s, e).launches| && Apply(s, e).launches[k].createdAt == s.launches[k].createdAt
      ensures Apply(s, e).launches[k].button == s.launches[k].button
      ensures Apply(s, e).launches[k].deal == s.launches[k].deal
    {
      TargetsStay(s, e, k);
    }
    assert NewestBefore(Apply(s, e), m, i, j);
  }

  lemma ReservedBehind(s: System, e: Event, i: LaunchId)
    requires Enabled(s, e) && e.Reserve? && DecisionOf(s, e).Reserved? && i < |s.launches|
    requires s.launches[i].For(DecisionOf(s, e).record.button, e.deal) && !s.launches[i].Settled()
    ensures HiddenBy(s, i, |s.launches|)
  {
    assert NewestBefore(s, e.recent.value, i, |s.launches|);
  }

  lemma StepKeepsHidden(s: System, e: Event)
    requires HandlersOk(s) && Enabled(s, e) && OpenOnesHidden(s)
    ensures OpenOnesHidden(Apply(s, e))
  {
    var t := Apply(s, e);
    forall i, j | 0 <= i < j < |t.launches| && t.SameTarget(i, j) && !t.launches[i].Settled()
      ensures HiddenBy(t, i, j)
    {
      TargetsStay(s, e, i);
      if s.launches[i].Settled() {
        SettledStays(s, e, i);
      }
      if j < |s.launches| {
        TargetsStay(s, e, j);
        assert s.SameTarget(i, j);
      } else {
        ReservedBehind(s, e, i);
      }
      HiddenStays(s, e, i, j);
    }
  }

  lemma {:induction false} RunKeepsHidden(r: Run)
    requires Valid(r)
    ensures OpenOnesHidden(After(r))
  {
    if r.Then? {
      RunKeepsHidden(r.before);
      RunKeepsRecords(r.before);
      StepKeepsHidden(After(r.before), r.event);
    }
  }

  /** Two starts of one target are in flight, and another record was the newest when the later was reserved. */
  ghost predicate OverlapBehind(s: System, i: LaunchId, j: LaunchId, m: LaunchId) {
    && i in s.inFlight && j in s.inFlight && i < j < |s.launches| && s.SameTarget(i, j)
    && m != i && NewestBefore(s, m, i, j)
  }

  /** In a run with timely starts two are in flight for one button and deal: the earlier reserved was created at
      `hidden`, and the newest other record before the later one at `shown`. */
  ghost predicate Disordered(r: Run, hidden: Instant, shown: Instant) {
    && Valid(r) && Timely(r)
    && var s := After(r);
       exists i: LaunchId, j: LaunchId, m: LaunchId | OverlapBehind(s, i, j, m) ::
         && s.launches[i].createdAt == hidden && s.launches[m].createdAt == shown
  }

  ghost predicate SlowInFlight(s: System, hidden: Instant, shown: Instant) {
    && s.buttons == [Button(1, "UF", SETTINGS)] && s.clock == shown + 10.0 && s.inFlight == {1} && |s.launches| == 2
    && (forall i | 0 <= i < 2 ::
          s.launches[i].portal == 1 && s.launches[i].request == i && s.launches[i].For(0, 7))
    && s.launches[0].createdAt == shown && s.launches[0].status == Started && s.launches[1].createdAt == hidden
  }

  lemma SlowLaunch(hidden: Instant, shown: Instant) returns (r: Run)
    requires hidden <= shown && shown + 10.0 < hidden + 300.0
    ensures Valid(r) && Timely(r) && SlowInFlight(After(r), hidden, shown)
  {
    var p := OneStartedLaunch(shown, shown, shown + 10.0);
    SecondReservation(After(p), hidden, shown);
    var r1 := Then(p, SECOND.(createdAt := hidden));
    assert Valid(r1) && |After(r1).launches| == 2 && After(r1).handlers[1] == Committed(false) && Timely(r1);
    r := Then(r1, Issue(1));
    assert Valid(r);
  }

  lemma LookPast(s: System, hidden: Instant, shown: Instant)
    requires SlowInFlight(s, hidden, shown) && hidden <= shown
    ensures Enabled(s, THIRD.(createdAt := shown + 10.0))
    ensures DecisionOf(s, THIRD.(createdAt := shown + 10.0))
         == Reserved(Launch(1, 0, 2, 7, 1, 1, Starting, None, None, None, shown + 10.0), SETTINGS)
  {
    assert FindButton(s.buttons, 1, "UF") == Some(0);
    assert FindRequest(s.launches, 1, 2) == None;
    assert IsRecent(s.launches, 0, 7, Some(0));
  }

  const THIRD := Reserve(ADMIN, "UF", 7, 2, Some(0), 0.0)

  lemma DisorderedRun(hidden: Instant, shown: Instant) returns (r: Run)
    requires hidden <= shown && shown + 10.0 < hidden + 300.0
    ensures Disordered(r, hidden, shown)
  {
    var p := SlowLaunch(hidden, shown);
    LookPast(After(p), hidden, shown);
    var r1 := Then(p, THIRD.(createdAt := shown + 10.0));
    assert Valid(r1) && |After(r1).launches| == 3 && After(r1).handlers[2] == Committed(false) && Timely(r1);
    r := Then(r1, Issue(2));
    assert Valid(r) && After(r).inFlight == {1, 2} && After(r).SameTarget(1, 2);
    assert NewestBefore(After(r), 0, 1, 2) && OverlapBehind(After(r), 1, 2, 0);
  }

  /** The exact condition on created_at under which timely starts can overlap: a record created at `hidden` can be in
      flight, unseen behind one created at `shown`, exactly when it was created no later, and its 300 seconds are not
      over when the shown one has cooled down. Such a run is out of order, and a reservation overlooks an open launch.
      */
  lemma DisorderBreaksExclusion(hidden: Instant, shown: Instant)
    ensures (exists r :: Disordered(r, hidden, shown)) <==> hidden <= shown && shown + 10.0 < hidden + 300.0
    ensures forall r | Disordered(r, hidden, shown) :: !Ordered(r) && !Attentive(r)
  {
    if hidden <= shown && shown + 10.0 < hidden + 300.0 {
      var r := DisorderedRun(hidden, shown);
    }
    forall r | Disordered(r, hidden, shown)
      ensures hidden <= shown && shown + 10.0 < hidden + 300.0 && !Ordered(r) && !Attentive(r)
    {
      DisorderedBounds(r, hidden, shown);
    }
  }

  lemma OverlapBehindBounds(r: Run, i: LaunchId, j: LaunchId, m: LaunchId)
    requires Valid(r) && Timely(r) && OverlapBehind(After(r), i, j, m)
    ensures After(r).launches[i].createdAt <= After(r).launches[m].createdAt
    ensures After(r).launches[m].createdAt + 10.0 < After(r).launches[i].createdAt + 300.0
  {
    LaunchesAreSpaced(r);
    assert After(r).SameTarget(m, j) && After(r).SameTarget(i, i);
  }

  /** In a run with timely starts, however disordered: of two starts in flight for one button and deal, the earlier
      reserved is hidden from the later behind a record created no earlier, and was created less than 290 seconds before
      that record. */
  lemma OverlapIsHidden(r: Run, i: LaunchId, j: LaunchId)
    requires Valid(r) && Timely(r) && i in After(r).inFlight && j in After(r).inFlight && i < j
    ensures j < |After(r).launches|
    ensures After(r).SameTarget(i, j) ==> exists m: LaunchId ::
              && OverlapBehind(After(r), i, j, m)
              && After(r).launches[i].createdAt <= After(r).launches[m].createdAt
              && After(r).launches[m].createdAt + 10.0 < After(r).launches[i].createdAt + 300.0
  {
    RunKeepsRecords(r);
    if After(r).SameTarget(i, j) {
      RunKeepsHidden(r);
      var m: LaunchId :| m != i && NewestBefore(After(r), m, i, j);
      OverlapBehindBounds(r, i, j, m);
    }
  }

  lemma OverlapIsDisorder(r: Run, i: LaunchId, j: LaunchId, m: LaunchId)
    requires Valid(r) && Timely(r) && OverlapBehind(After(r), i, j, m)
    ensures !Ordered(r) && !Attentive(r)
  {
    if Attentive(r) {
      StartsExclude(r, i, j);
    }
    if Ordered(r) {
      OrderedIsAttentive(r);
    }
  }

  lemma DisorderedBounds(r: Run, hidden: Instant, shown: Instant)
    requires Disordered(r, hidden, shown)
    ensures hidden <= shown && shown + 10.0 < hidden + 300.0 && !Ordered(r) && !Attentive(r)
  {
    var s := After(r);
    var i: LaunchId, j: LaunchId, m: LaunchId :|
      OverlapBehind(s, i, j, m) && s.launches[i].createdAt == hidden && s.launches[m].createdAt == shown;
    OverlapBehindBounds(r, i, j, m);
    OverlapIsDisorder(r, i, j, m);
  }

  // Counting the 300 seconds from the reservation.

  /** In an ordered run whose starts all finish within 300 seconds of their reservations, a start of a record created at
      `createdAt` and reserved at `at` is in flight together with a later one. */
  ghost predicate Overlapping(r: Run, createdAt: Instant, at: Instant) {
    && Valid(r) && Ordered(r) && TimelySinceReservation(r)
    && var s := After(r);
       exists i, j | i in s.inFlight && j in s.inFlight ::
         && i < j < |s.launches| == |s.stamps| && s.SameTarget(i, j)
         && s.launches[i].createdAt == createdAt && s.stamps[i].at == at
  }

  /** The first start is still in flight when an administrator releases its record, 300 seconds after created_at. */
  lemma ReleasedInFlight(createdAt: Instant, at: Instant) returns (r: Run)
    requires createdAt < at
    ensures Valid(r) && Ordered(r) && TimelySinceReservation(r)
    ensures var s := After(r);
            && OneLaunch(s, createdAt) && s.stamps[0].at == at && s.inFlight == {0} && s.launches[0].releasedAt.Some?
            && createdAt + 300.0 <= s.clock < at + 300.0
  {
    var p := OneCallingLaunch(createdAt, at);
    var later := Max(at, createdAt + 300.0);
    var r1 := Then(p, Tick(later));
    assert Valid(r1) && OneLaunch(After(r1), createdAt) && Ordered(r1) && TimelySinceReservation(r1);
    r := Then(r1, Release(ADMIN, 0));
    assert Valid(r);
  }

  lemma OverlappingRun(createdAt: Instant, at: Instant) returns (r: Run)
    requires createdAt < at
    ensures Overlapping(r, createdAt, at)
  {
    var p := ReleasedInFlight(createdAt, at);
    var second := SECOND.(createdAt := After(p).clock);
    SecondReservation(After(p), After(p).clock, createdAt);
    var r1 := Then(p, second);
    assert Valid(r1) && |After(r1).launches| == 2 && After(r1).handlers[1] == Committed(false);
    assert Ordered(r1) && TimelySinceReservation(r1);
    r := Then(r1, Issue(1));
    assert Valid(r) && After(r).inFlight == {0, 1};
    assert After(r).SameTarget(0, 1);
  }

  /** Finishing within 300 seconds of the reservation is not enough, exactly when the record's transaction was older
      than its reservation: then a release can come while the start is in flight. */
  lemma ReservationTimingCanOverlap(createdAt: Instant, at: Instant)
    requires createdAt <= at
    ensures (exists r :: Overlapping(r, createdAt, at)) <==> createdAt < at
  {
    if createdAt < at {
      var r := OverlappingRun(createdAt, at);
    }
    if r :| Overlapping(r, createdAt, at) {
      var i, j :| i in After(r).inFlight && j in After(r).inFlight
               && i < j < |After(r).launches| == |After(r).stamps| && After(r).SameTarget(i, j)
               && After(r).launches[i].createdAt == createdAt && After(r).stamps[i].at == at;
      OrderedIsAttentive(r);
      StartsExcludeSinceReservation(r, i, j);
    }
  }

  // Counting the cooldown from the reservation.

  /** In an ordered run with timely starts, a later launch is reserved sooner than its cooldown after the reservation of
      a record created at `createdAt` and reserved at `at`. */
  ghost predicate Crowding(r: Run, createdAt: Instant, at: Instant) {
    && Valid(r) && Ordered(r) && Timely(r)
    && var s := After(r);
       exists i, j | 0 <= i < j < |s.launches| ::
         && |s.launches| == |s.stamps| && s.SameTarget(i, j)
         && s.launches[i].createdAt == createdAt && s.stamps[i].at == at
         && s.stamps[j].at < s.stamps[i].at + s.stamps[j].settings.cooldown as real
  }

  /** The first launch has started and its record is young enough for timely starts. */
  lemma CrowdingYoung(createdAt: Instant, at: Instant) returns (r: Run)
    requires createdAt < at < createdAt + 300.0
    ensures Crowding(r, createdAt, at)
  {
    var later := Max(at, createdAt + 10.0);
    var p := OneStartedLaunch(createdAt, at, later);
    SecondReservation(After(p), later, createdAt);
    r := Then(p, SECOND.(createdAt := later));
    assert Valid(r) && |After(r).launches| == 2 && Ordered(r) && Timely(r);
    assert After(r).SameTarget(0, 1);
  }

  lemma ReservedAndReleased(createdAt: Instant, at: Instant) returns (r: Run)
    requires createdAt + 300.0 <= at
    ensures Valid(r) && Ordered(r) && Timely(r)
    ensures var s := After(r);
            && OneLaunch(s, createdAt) && s.stamps[0].at == s.clock == at && s.inFlight == {}
            && s.launches[0].releasedAt.Some?
  {
    var p := OneReservedLaunch(createdAt, at);
    r := Then(p, Release(ADMIN, 0));
    assert Valid(r);
  }

  /** An older record can be released as soon as it is reserved, before anything is in flight. */
  lemma CrowdingOld(createdAt: Instant, at: Instant) returns (r: Run)
    requires createdAt + 300.0 <= at
    ensures Crowding(r, createdAt, at)
  {
    var p := ReservedAndReleased(createdAt, at);
    SecondReservation(After(p), at, createdAt);
    r := Then(p, SECOND.(createdAt := at));
    assert Valid(r) && |After(r).launches| == 2 && Ordered(r) && Timely(r);
    assert After(r).SameTarget(0, 1);
  }

  /** Between reservations the cooldown is kept when the earlier transaction began with its reservation. */
  lemma SpacingBetweenReservations(r: Run, i: LaunchId, j: LaunchId)
    requires Valid(r) && i < j < |After(r).launches| == |After(r).stamps| && After(r).SameTarget(i, j)
    requires After(r).launches[i].createdAt == After(r).stamps[i].at
    ensures After(r).stamps[i].at + After(r).stamps[j].settings.cooldown as real <= After(r).stamps[j].at
  {
    LaunchesAreSpaced(r);
  }

  /** Counted from reservation to reservation the cooldown can fall short, even in order, exactly when the earlier
      transaction was older than its reservation. */
  lemma ReservationsCanCrowd(createdAt: Instant, at: Instant)
    requires createdAt <= at
    ensures (exists r :: Crowding(r, createdAt, at)) <==> createdAt < at
  {
    if createdAt + 300.0 <= at {
      var r := CrowdingOld(createdAt, at);
    } else if createdAt < at {
      var r := CrowdingYoung(createdAt, at);
    }
    if r :| Crowding(r, createdAt, at) {
      var i, j :| 0 <= i < j < |After(r).launches| && |After(r).launches| == |After(r).stamps|
               && After(r).SameTarget(i, j)
               && After(r).launches[i].createdAt == createdAt && After(r).stamps[i].at == at
               && After(r).stamps[j].at < After(r).stamps[i].at + After(r).stamps[j].settings.cooldown as real;
      if createdAt == at {
        SpacingBetweenReservations(r, i, j);
      }
    }
  }
}
