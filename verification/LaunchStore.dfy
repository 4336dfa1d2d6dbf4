/** Button settings and durable launch records, and the transactions on them (app/api/workflow_buttons.py). */
module LaunchStore {
  import opened Prelude

  type PortalId = nat
  type UserId = nat
  type ButtonId = nat
  type LaunchId = nat

  datatype ButtonSettings = ButtonSettings(
    template: nat, allowed: set<UserId>, enabled: bool, cooldown: nat, blockUntilReleased: bool)
  {
    /** The bounds that the request model enforces before `save` runs. */
    predicate Valid() {
      0 < template && 10 <= cooldown <= 86400 && 0 !in allowed && |allowed| <= 1000
    }
  }

  datatype Button = Button(portal: PortalId, field: string, settings: ButtonSettings)

  datatype LaunchStatus = Starting | Unknown | Blocked | Started

  datatype Launch = Launch(
    portal: PortalId, button: ButtonId, request: nat, deal: nat, user: UserId, template: nat,
    status: LaunchStatus, workflow: Option<string>,
    releasedAt: Option<Instant>, releasedBy: Option<UserId>, createdAt: Instant)
  {
    predicate For(b: ButtonId, d: nat) {
      button == b && deal == d
    }

    /** Nothing more is expected of this launch: it started, or a person released it. */
    predicate Settled() {
      status == Started || releasedAt.Some?
    }
  }

  datatype Actor = Actor(portal: PortalId, user: UserId, admin: bool)

  datatype Refusal = NotConfigured | Forbidden | RequestIdTaken | Repeated | NotFound | TooEarly

  datatype Decision =
    | Refused(why: Refusal)
    | Existing(id: LaunchId)                       // the record of an earlier request with the same id
    | Reserved(record: Launch, settings: ButtonSettings)

  /** The reply to bizproc.workflow.start. */
  datatype StartReply = Result(workflow: string) | Malformed | Failed

  function CanLaunch(settings: ButtonSettings, who: Actor): bool {
    settings.enabled && (who.admin || who.user in settings.allowed)
  }

  function FindButton(buttons: seq<Button>, portal: PortalId, field: string): (b: Option<ButtonId>)
    ensures b.Some? ==> b.value < |buttons| && buttons[b.value].portal == portal && buttons[b.value].field == field
    ensures b.None? ==> forall i | 0 <= i < |buttons| :: !(buttons[i].portal == portal && buttons[i].field == field)
  {
    if buttons == [] then None
    else
      var last := |buttons| - 1;
      if buttons[last].portal == portal && buttons[last].field == field then Some(last)
      else FindButton(buttons[..last], portal, field)
  }

  function FindRequest(launches: seq<Launch>, portal: PortalId, request: nat): (l: Option<LaunchId>)
    ensures l.Some? ==>
              l.value < |launches| && launches[l.value].portal == portal && launches[l.value].request == request
    ensures l.None? ==>
              forall i | 0 <= i < |launches| :: !(launches[i].portal == portal && launches[i].request == request)
  {
    if launches == [] then None
    else
      var last := |launches| - 1;
      if launches[last].portal == portal && launches[last].request == request then Some(last)
      else FindRequest(launches[..last], portal, request)
  }

  /** A row that ORDER BY created_at DESC LIMIT 1 may return for one button and deal. */
  ghost predicate IsRecent(launches: seq<Launch>, b: ButtonId, deal: nat, recent: Option<LaunchId>) {
    match recent
    case None => forall i | 0 <= i < |launches| :: !launches[i].For(b, deal)
    case Some(r) =>
      && r < |launches| && launches[r].For(b, deal)
      && forall i | 0 <= i < |launches| && launches[i].For(b, deal) :: launches[i].createdAt <= launches[r].createdAt
  }

  function MostRecent(launches: seq<Launch>, b: ButtonId, deal: nat): (recent: Option<LaunchId>)
    ensures IsRecent(launches, b, deal, recent)
  {
    if launches == [] then None
    else
      var last := |launches| - 1;
      var before := MostRecent(launches[..last], b, deal);
      if launches[last].For(b, deal) && (before.None? || launches[before.value].createdAt <= launches[last].createdAt)
      then Some(last) else before
  }

  /** The guard of `launch`: an unresolved or too recent launch blocks the next one. */
  predicate Blocks(recent: Launch, cooldown: nat, now: Instant) {
    || (recent.releasedAt.None? && recent.status != Started)
    || recent.createdAt > now - cooldown as real
  }

  /** Everything `launch` decides inside the reservation transaction, in the order of its checks. */
  function Decide(buttons: seq<Button>, launches: seq<Launch>, who: Actor, field: string, deal: nat, request: nat,
                  recent: Option<LaunchId>, now: Instant, createdAt: Instant): Decision
    requires recent.Some? ==> recent.value < |launches|
  {
    var b := FindButton(buttons, who.portal, field);
    if b.None? then Refused(NotConfigured)
    else
      var settings := buttons[b.value].settings;
      var previous := FindRequest(launches, who.portal, request);
      if !CanLaunch(settings, who) then Refused(Forbidden)
      else if previous.Some? then
        var l := launches[previous.value];
        if l.button != b.value || l.deal != deal || l.user != who.user then Refused(RequestIdTaken)
        else Existing(previous.value)
      else if recent.Some? && Blocks(launches[recent.value], settings.cooldown, now) then Refused(Repeated)
      else Reserved(Launch(who.portal, b.value, request, deal, who.user, settings.template, Starting, None,
                           None, None, createdAt), settings)
  }

  /** What the reply to the remote start makes of the record. */
  function Outcome(reply: StartReply, blockUntilReleased: bool): (LaunchStatus, Option<string>) {
    match reply
    case Result(workflow) =>
      if workflow == "" || |workflow| > 100 then (Unknown, None)
      else (if blockUntilReleased then Blocked else Started, Some(workflow))
    case Malformed => (Unknown, None)
    case Failed => (Unknown, None)
  }

  function Saved(buttons: seq<Button>, portal: PortalId, field: string, settings: ButtonSettings): seq<Button> {
    var b := FindButton(buttons, portal, field);
    if b.Some? then buttons[b.value := buttons[b.value].(settings := settings)]
    else buttons + [Button(portal, field, settings)]
  }

  function ReleaseRefusal(launches: seq<Launch>, who: Actor, id: LaunchId, now: Instant): Option<Refusal> {
    if !who.admin then Some(Forbidden)
    else if |launches| <= id || launches[id].portal != who.portal then Some(NotFound)
    else if launches[id].createdAt > now - 300.0 then Some(TooEarly)
    else None
  }

  // ---------------------------------------------------------------- whose field it is

  /** A deal field as CRM lists it: of this application's button type by its full code, by the short code that other
      applications may share, or of another type. */
  datatype UserField = FullCode(name: string) | ShortCode(name: string) | OtherType(name: string)

  /** What the portal answers to the validation: nothing usable, or the listed fields and whether the application's own
      registry has the button type (None when that call fails). */
  datatype FieldReply = NoReply | Fields(items: seq<UserField>, registered: Option<bool>)

  datatype Verdict = Owned | Foreign | CheckFailed

  /** The first listed field that decides; a short code decides by the registry, or fails with it. */
  function FirstVerdict(items: seq<UserField>, registered: Option<bool>, field: string): Verdict {
    if items == [] then Foreign
    else if items[0] == FullCode(field) then Owned
    else if items[0] == ShortCode(field) && registered.None? then CheckFailed
    else if items[0] == ShortCode(field) && registered.value then Owned
    else FirstVerdict(items[1..], registered, field)
  }

  function VerdictOf(field: string, reply: FieldReply): Verdict {
    match reply
    case NoReply => CheckFailed
    case Fields(items, registered) => FirstVerdict(items, registered, field)
  }

  /** With an answering registry a field is this application's exactly when it is listed with the full code, or with the
      short code that the registry confirms; without, the order of the list matters. */
  lemma {:induction false} VerdictMeans(items: seq<UserField>, registered: Option<bool>, field: string)
    ensures registered.Some? ==>
              FirstVerdict(items, registered, field)
              == if FullCode(field) in items || (registered.value && ShortCode(field) in items) then Owned else Foreign
    ensures registered.None? ==>
              && (FirstVerdict(items, registered, field) == Foreign
                  <==> FullCode(field) !in items && ShortCode(field) !in items)
              && (FirstVerdict(items, registered, field) == Owned
                  <==> FullComesFirst(items, field))
  {
    if items != [] {
      VerdictMeans(items[1..], registered, field);
      assert items == [items[0]] + items[1..];
      if registered.None? {
        OwnedOneOn(items, field);
      }
    }
  }

  ghost predicate FullComesFirst(items: seq<UserField>, field: string) {
    exists k | 0 <= k < |items| :: items[k] == FullCode(field) && ShortCode(field) !in items[..k]
  }

  lemma OwnedOneOn(items: seq<UserField>, field: string)
    requires items != []
    ensures FullComesFirst(items, field)
       <==> items[0] == FullCode(field) || (items[0] != ShortCode(field) && FullComesFirst(items[1..], field))
  {
    if items[0] == FullCode(field) {
      assert ShortCode(field) !in items[..0];
    }
    if k :| 0 <= k < |items| && items[k] == FullCode(field) && ShortCode(field) !in items[..k] {
      if 0 < k {
        assert items[..k] == [items[0]] + items[1..][..k - 1];
        assert items[1..][k - 1] == FullCode(field);
      }
    }
    if k :| 0 <= k < |items| - 1 && items[1..][k] == FullCode(field) && ShortCode(field) !in items[1..][..k] {
      assert items[..k + 1] == [items[0]] + items[1..][..k];
      assert items[k + 1] == FullCode(field);
    }
  }

  datatype SaveRefusal = NotAdmin | CheckUnavailable | NotOurField

  // ---------------------------------------------------------------- a reservation, check by check

  /** The button that an administrator configured for this field of this portal. */
  predicate IsButton(buttons: seq<Button>, b: ButtonId, portal: PortalId, field: string) {
    b < |buttons| && buttons[b].portal == portal && buttons[b].field == field
  }

  /** Enabled, and open to this person: administrators, and whoever is on the list. */
  predicate Permits(settings: ButtonSettings, who: Actor) {
    settings.enabled && (who.admin || who.user in settings.allowed)
  }

  predicate SameRequest(launch: Launch, portal: PortalId, request: nat) {
    launch.portal == portal && launch.request == request
  }

  predicate SameUse(launch: Launch, b: ButtonId, deal: nat, user: UserId) {
    launch.button == b && launch.deal == deal && launch.user == user
  }

  /** A launch that still blocks the next one: unreleased and not started, or younger than the cooldown. */
  predicate StillBlocks(launch: Launch, cooldown: nat, now: Instant) {
    || (&& launch.releasedAt == None
        && (launch.status == Starting || launch.status == Unknown || launch.status == Blocked))
    || now < launch.createdAt + cooldown as real
  }

  /** Which answer `launch` gives for a configured button, in the order of its checks. */
  ghost predicate AnswersFor(b: ButtonId, settings: ButtonSettings, launches: seq<Launch>, who: Actor, deal: nat,
                             request: nat, recent: Option<LaunchId>, now: Instant, createdAt: Instant, d: Decision)
    requires recent.Some? ==> recent.value < |launches|
  {
    if !Permits(settings, who) then d == Refused(Forbidden)
    else if exists l | 0 <= l < |launches| :: SameRequest(launches[l], who.portal, request)
    then
      if d.Existing?
      then d.id < |launches| && SameRequest(launches[d.id], who.portal, request)
           && SameUse(launches[d.id], b, deal, who.user)
      else d == Refused(RequestIdTaken)
           && exists l | 0 <= l < |launches| ::
                SameRequest(launches[l], who.portal, request) && !SameUse(launches[l], b, deal, who.user)
    else if recent.Some? && StillBlocks(launches[recent.value], settings.cooldown, now) then d == Refused(Repeated)
    else d.Reserved? && d.settings == settings
         && d.record == Launch(who.portal, b, request, deal, who.user, settings.template, Starting, None,
                               None, None, createdAt)
  }

  /** Without a configured button there is nothing to launch. */
  ghost predicate Answers(buttons: seq<Button>, launches: seq<Launch>, who: Actor, field: string, deal: nat,
                          request: nat, recent: Option<LaunchId>, now: Instant, createdAt: Instant, d: Decision)
    requires recent.Some? ==> recent.value < |launches|
  {
    if forall b: nat :: !IsButton(buttons, b, who.portal, field) then d == Refused(NotConfigured)
    else
      exists b: nat ::
        && IsButton(buttons, b, who.portal, field)
        && AnswersFor(b, buttons[b].settings, launches, who, deal, request, recent, now, createdAt, d)
  }

  lemma DecideAnswers(buttons: seq<Button>, launches: seq<Launch>, who: Actor, field: string, deal: nat,
                      request: nat, recent: Option<LaunchId>, now: Instant, createdAt: Instant)
    requires recent.Some? ==> recent.value < |launches|
    ensures Answers(buttons, launches, who, field, deal, request, recent, now, createdAt,
                    Decide(buttons, launches, who, field, deal, request, recent, now, createdAt))
  {
    var b := FindButton(buttons, who.portal, field);
    if b.Some? {
      assert IsButton(buttons, b.value, who.portal, field);
    }
  }

  // ---------------------------------------------------------------- the tables

  class WorkflowTables {
    var buttons: seq<Button>
    var launches: seq<Launch>

    constructor ()
      ensures buttons == [] && launches == []
    {
      buttons, launches := [], [];
    }

    /** The first transaction of `launch`: decide under the portal lock and commit the reservation, if any. */
    method Reserve(who: Actor, field: string, deal: nat, request: nat, now: Instant, createdAt: Instant)
      returns (decision: Decision, ghost recent: Option<LaunchId>)
      modifies `launches
      ensures var b := FindButton(buttons, who.portal, field);
              if b.Some? then IsRecent(old(launches), b.value, deal, recent) else recent.None?
      ensures recent.Some? ==> recent.value < |old(launches)|
      ensures decision == Decide(buttons, old(launches), who, field, deal, request, recent, now, createdAt)
      ensures launches == old(launches) + if decision.Reserved? then [decision.record] else []
      ensures Answers(buttons, old(launches), who, field, deal, request, recent, now, createdAt, decision)
      ensures decision.Reserved? || decision.Existing? ==>
                exists b: nat :: IsButton(buttons, b, who.portal, field) && Permits(buttons[b].settings, who)
    {
      var b := FindButton(buttons, who.portal, field);
      var latest := if b.Some? then MostRecent(launches, b.value, deal) else None;
      recent := latest;
      decision := Decide(buttons, launches, who, field, deal, request, latest, now, createdAt);
      DecideAnswers(buttons, launches, who, field, deal, request, latest, now, createdAt);
      if decision.Reserved? {
        launches := launches + [decision.record];
      }
    }

    /** The second transaction of `launch`: only status and workflow id are written, whatever was released meanwhile. */
    method CommitOutcome(id: LaunchId, reply: StartReply, blockUntilReleased: bool)
      requires id < |launches|
      modifies `launches
      ensures launches == old(launches)[id := old(launches)[id].(status := Outcome(reply, blockUntilReleased).0,
                                                                workflow := Outcome(reply, blockUntilReleased).1)]
      ensures launches == old(launches)[id := launches[id]]
      ensures launches[id] ==
              if reply.Result? && 1 <= |reply.workflow| <= 100
              then old(launches)[id].(workflow := Some(reply.workflow),
                                      status := if blockUntilReleased then Blocked else Started)
              else old(launches)[id].(workflow := None, status := Unknown)
    {
      var status, workflow := Unknown, None;
      if reply.Result? && reply.workflow != "" && |reply.workflow| <= 100 {
        workflow := Some(reply.workflow);
        status := if blockUntilReleased then Blocked else Started;
      }
      launches := launches[id := launches[id].(status := status, workflow := workflow)];
    }

    method Release(who: Actor, id: LaunchId, now: Instant) returns (refusal: Option<Refusal>)
      modifies `launches
      ensures refusal == ReleaseRefusal(old(launches), who, id, now)
      ensures refusal == Some(Forbidden) <==> !who.admin
      ensures refusal == Some(NotFound) <==>
                who.admin && (|old(launches)| <= id || old(launches)[id].portal != who.portal)
      ensures refusal == Some(TooEarly) <==>
                && who.admin && id < |old(launches)| && old(launches)[id].portal == who.portal
                && now < old(launches)[id].createdAt + 300.0
      ensures refusal.Some? ==> refusal.value in {Forbidden, NotFound, TooEarly}
      ensures refusal.Some? ==> launches == old(launches)
      ensures refusal.None? ==>
                && id < |old(launches)|
                && launches == old(launches)[id := old(launches)[id].(releasedAt := Some(now),
                                                                      releasedBy := Some(who.user))]
    {
      refusal := ReleaseRefusal(launches, who, id, now);
      if refusal.None? {
        launches := launches[id := launches[id].(releasedAt := Some(now), releasedBy := Some(who.user))];
      }
    }

    /** Look through the listed fields until one decides. */
    method ValidateField(field: string, reply: FieldReply) returns (verdict: Verdict)
      ensures verdict == VerdictOf(field, reply)
    {
      if reply.NoReply? {
        return CheckFailed;
      }
      var items := reply.items;
      for k := 0 to |items|
        invariant FirstVerdict(items, reply.registered, field) == FirstVerdict(items[k..], reply.registered, field)
      {
        assert items[k..][1..] == items[k + 1..];
        if items[k] == FullCode(field) {
          return Owned;
        }
        if items[k] == ShortCode(field) {
          if reply.registered.None? {
            return CheckFailed;
          }
          if reply.registered.value {
            return Owned;
          }
        }
      }
      verdict := Foreign;
    }

    method Save(who: Actor, field: string, reply: FieldReply, settings: ButtonSettings)
      returns (refusal: Option<SaveRefusal>)
      requires settings.Valid()
      modifies `buttons
      ensures refusal == Some(NotAdmin) <==> !who.admin
      ensures refusal == Some(CheckUnavailable) <==> who.admin && VerdictOf(field, reply) == CheckFailed
      ensures refusal == Some(NotOurField) <==> who.admin && VerdictOf(field, reply) == Foreign
      ensures buttons == if refusal.None? then Saved(old(buttons), who.portal, field, settings) else old(buttons)
    {
      if !who.admin {
        return Some(NotAdmin);
      }
      var verdict := ValidateField(field, reply);
      if verdict == CheckFailed {
        return Some(CheckUnavailable);
      }
      if verdict == Foreign {
        return Some(NotOurField);
      }
      buttons := Saved(buttons, who.portal, field, settings);
      refusal := None;
    }
  }

  ghost predicate UniqueFields(buttons: seq<Button>) {
    forall i, j | 0 <= i < j < |buttons| ::
      !(buttons[i].portal == buttons[j].portal && buttons[i].field == buttons[j].field)
  }

  lemma ButtonFoundOnce(buttons: seq<Button>, b: ButtonId)
    requires UniqueFields(buttons) && b < |buttons|
    ensures FindButton(buttons, buttons[b].portal, buttons[b].field) == Some(b)
  {
    var found := FindButton(buttons, buttons[b].portal, buttons[b].field).value;
    assert found < b || b < found || found == b;
  }

  /** Saving configures exactly the named field: it is found with the new settings, every other lookup is unchanged. */
  lemma SaveThenFind(buttons: seq<Button>, portal: PortalId, field: string, settings: ButtonSettings,
                     otherPortal: PortalId, otherField: string)
    requires UniqueFields(buttons)
    ensures var next := Saved(buttons, portal, field, settings);
            var found := FindButton(next, otherPortal, otherField);
            && UniqueFields(next)
            && if otherPortal == portal && otherField == field
               then found.Some? && next[found.value].settings == settings
               else found == FindButton(buttons, otherPortal, otherField)
                    && (found.Some? ==> next[found.value] == buttons[found.value])
  {
    var next := Saved(buttons, portal, field, settings);
    var before := FindButton(buttons, portal, field);
    var other := FindButton(buttons, otherPortal, otherField);
    ButtonFoundOnce(next, if before.Some? then before.value else |buttons|);
    if other.Some? {
      ButtonFoundOnce(next, other.value);
    }
  }
}
