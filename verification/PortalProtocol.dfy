/** The token lifecycle of one portal as a transition system: any number of callers, installs and uninstalls
    (app/bitrix/oauth.py, app/api/installation.py). The refresh grant is section 6 of RFC 6749. */
module PortalProtocol {
  import opened Prelude
  import opened PortalStore

  type CallerId = nat

  /** Where one `call_portal` stands. */
  datatype Caller =
    | Idle
    | Waiting(force: bool)                                // wants the row lock to refresh
    | Holding(force: bool, spent: Token, checkedAt: Instant)   // has the lock, the refresh request is out
    | Ready(token: Token, retried: bool)                  // has a token for its REST call
    | Marking                                             // the refreshed token was rejected too

  /** A grant as it was stored: when, with which expiry, and which refresh token it was exchanged for. */
  datatype Entry = Entry(grant: Grant, expiresAt: Instant, at: Instant, spent: Option<Token>)

  /** A token returned by get_access_token and the instant at which its freshness was checked. */
  datatype Handed = Handed(token: Token, checkedAt: Instant)

  datatype System = System(
    skew: real, clock: Instant, portal: Option<Portal>, holder: Option<CallerId>, callers: map<CallerId, Caller>,
    entries: seq<Entry>, handed: seq<Handed>)
  {
    function At(c: CallerId): Caller {
      if c in callers then callers[c] else Idle
    }

    function Goes(c: CallerId, caller: Caller): System {
      this.(callers := callers[c := caller])
    }
  }

  datatype Event =
    | Tick(now: Instant)
    | Install(grant: Grant, tokenHash: nat, now: Instant)
    | Uninstall(tokenHash: nat)
    | Look(caller: CallerId)                                       // the unlocked read of get_access_token
    | Lock(caller: CallerId)                                       // the re-check under the row lock
    | Settle(caller: CallerId, reply: RefreshReply, now: Instant)  // the refresh request ends, the lock is released
    | Served(caller: CallerId)                                     // the REST call ends without an authentication error
    | Unauthorized(caller: CallerId)                               // the REST call rejects the token
    | Mark(caller: CallerId)
    | Quit(caller: CallerId)                                       // the caller dies or cannot decrypt; it rolls back

  predicate Enabled(s: System, e: Event) {
    match e
    case Tick(now) => s.clock <= now
    case Install(grant, _, now) => s.holder.None? && now <= s.clock && grant.Valid()
    case Uninstall(_) => s.holder.None?
    case Look(c) => s.At(c).Idle?
    case Lock(c) => s.At(c).Waiting? && s.holder.None?
    case Settle(c, reply, now) =>
      && s.At(c).Holding? && s.At(c).checkedAt <= now <= s.clock && s.portal.Some?
      && (reply.Granted? ==> reply.grant.Valid())
    case Served(c) => s.At(c).Ready?
    case Unauthorized(c) => s.At(c).Ready?
    case Mark(c) => s.At(c).Marking? && s.holder.None?
    case Quit(_) => true
  }

  function EntryOf(grant: Grant, now: Instant, spent: Option<Token>): Entry
    requires grant.Valid()
  {
    Entry(grant, TokenExpiry(grant.expires, grant.expiresIn, now).value, now, spent)
  }

  function AfterLock(s: System, c: CallerId, force: bool): System {
    match BeginRefresh(s.portal, force, s.clock, s.skew)
    case Unusable => s.Goes(c, Idle)
    case Coalesced(token) => s.Goes(c, Ready(token, force)).(handed := s.handed + [Handed(token, s.clock)])
    case Missing => s.Goes(c, Idle).(portal := WithStatus(s.portal, AuthError))
    case Spend(token, _) => s.Goes(c, Holding(force, token, s.clock)).(holder := Some(c))
  }

  function AfterSettle(s: System, c: CallerId, reply: RefreshReply, now: Instant): System
    requires Enabled(s, Settle(c, reply, now))
  {
    var caller := s.At(c);
    var t := s.(portal := Some(EndRefresh(s.portal.value, reply, now)), holder := None);
    match reply
    case Granted(grant) =>
      t.Goes(c, Ready(grant.access, caller.force))
       .(entries := s.entries + [EntryOf(grant, now, Some(caller.spent))],
         handed := if caller.force then s.handed else s.handed + [Handed(grant.access, now)])
    case _ => t.Goes(c, Idle)
  }

  function Apply(s: System, e: Event): System
    requires Enabled(s, e)
  {
    match e
    case Tick(now) => s.(clock := now)
    case Install(grant, tokenHash, now) =>
      s.(portal := Some(Installed(grant, tokenHash, now)), entries := s.entries + [EntryOf(grant, now, None)])
    case Uninstall(tokenHash) =>
      if MayUninstall(s.portal, tokenHash) then s.(portal := WithStatus(s.portal, Inactive)) else s
    case Look(c) =>
      if !Usable(s.portal) || s.portal.value.access.None? then s
      else if Fresh(s.portal.value, s.clock, s.skew) then
        s.Goes(c, Ready(s.portal.value.access.value, false))
         .(handed := s.handed + [Handed(s.portal.value.access.value, s.clock)])
      else s.Goes(c, Waiting(false))
    case Lock(c) => AfterLock(s, c, s.At(c).force)
    case Settle(c, reply, now) => AfterSettle(s, c, reply, now)
    case Served(c) => s.Goes(c, Idle)
    case Unauthorized(c) => s.Goes(c, if s.At(c).retried then Marking else Waiting(true))
    case Mark(c) => s.Goes(c, Idle).(portal := WithStatus(s.portal, AuthError))
    case Quit(c) => s.Goes(c, Idle).(holder := if s.holder == Some(c) then None else s.holder)
  }

  // ---------------------------------------------------------------- runs

  datatype Run = Start(skew: real, clock: Instant) | Then(before: Run, event: Event)

  ghost predicate Valid(r: Run)
    decreases r, 0
  {
    match r
    case Start(skew, _) => 0.0 <= skew
    case Then(before, e) => Valid(before) && Enabled(After(before), e)
  }

  ghost function After(r: Run): System
    requires Valid(r)
    decreases r, 1
  {
    match r
    case Start(skew, clock) => System(skew, clock, None, None, map[], [], [])
    case Then(before, e) => Apply(After(before), e)
  }

  ghost predicate Extends(r: Run, p: Run) {
    r == p || (r.Then? && Extends(r.before, p))
  }

  // ---------------------------------------------------------------- lineage, in every interleaving

  /** All five stored values come from the latest stored grant. */
  ghost predicate FromLatest(s: System) {
    if s.portal.None? then s.entries == []
    else
      && s.entries != []
      && var last := s.entries[|s.entries| - 1];
         && s.portal.value.access == Some(last.grant.access)
         && s.portal.value.refresh == Some(last.grant.refresh)
         && s.portal.value.expiresAt == Some(last.expiresAt)
         && s.portal.value.clientEndpoint == last.grant.clientEndpoint
         && s.portal.value.serverEndpoint == Some(last.grant.serverEndpoint)
  }

  /** One caller at a time holds the row, and the refresh token it spends is the stored one of an active portal. */
  ghost predicate LockOk(s: System) {
    forall c: CallerId :: (s.At(c).Holding? <==> s.holder == Some(c)) &&
                (s.At(c).Holding? ==>
                   && Usable(s.portal) && s.At(c).checkedAt <= s.clock
                   && s.portal.value.refresh == Some(s.At(c).spent)
                   && (!s.At(c).force ==> !Fresh(s.portal.value, s.At(c).checkedAt, s.skew)))
  }

  /** Every refresh was paid with the refresh token of the grant it replaced; the first grant is an install. */
  ghost predicate Chained(entries: seq<Entry>) {
    forall k | 0 <= k < |entries| && entries[k].spent.Some? ::
      0 < k && entries[k].spent == Some(entries[k - 1].grant.refresh)
  }

  ghost predicate Lineage(s: System) {
    0.0 <= s.skew && FromLatest(s) && LockOk(s) && Chained(s.entries)
    && forall k | 0 <= k < |s.entries| :: s.entries[k].at <= s.clock
  }

  lemma StepKeepsLatest(s: System, e: Event)
    requires Lineage(s) && Enabled(s, e)
    ensures FromLatest(Apply(s, e))
  {
  }

  lemma StepKeepsChain(s: System, e: Event)
    requires Lineage(s) && Enabled(s, e)
    ensures Chained(Apply(s, e).entries)
    ensures forall k | 0 <= k < |Apply(s, e).entries| :: Apply(s, e).entries[k].at <= Apply(s, e).clock
  {
    if e.Settle? {
      assert s.At(e.caller).Holding?;
    }
  }

  lemma StepKeepsLock(s: System, e: Event)
    requires Lineage(s) && Enabled(s, e)
    ensures LockOk(Apply(s, e))
  {
    forall c: CallerId
      ensures (Apply(s, e).At(c).Holding? <==> Apply(s, e).holder == Some(c))
    {
      assert s.At(c).Holding? <==> s.holder == Some(c);
    }
  }

  lemma {:induction false} RunKeepsLineage(r: Run)
    requires Valid(r)
    ensures Lineage(After(r))
  {
    if r.Then? {
      RunKeepsLineage(r.before);
      StepKeepsLatest(After(r.before), r.event);
      StepKeepsChain(After(r.before), r.event);
      StepKeepsLock(After(r.before), r.event);
    }
  }

  /** The refresh credentials are never found missing: install and refresh always store a whole pair. */
  lemma NeverMissing(r: Run, force: bool)
    requires Valid(r)
    ensures !BeginRefresh(After(r).portal, force, After(r).clock, After(r).skew).Missing?
  {
    RunKeepsLineage(r);
  }

  /** Who may change the status: only an install activates, only a proven uninstall deactivates, and an authentication
      error needs a rejected refresh or a second rejection after a forced one. */
  lemma StatusChanges(s: System, e: Event)
    requires Lineage(s) && Enabled(s, e) && s.portal.Some?
    ensures Apply(s, e).portal.Some?
    ensures var before, after := s.portal.value.status, Apply(s, e).portal.value.status;
            before != after ==>
              match after
              case Active => e.Install?
              case Inactive => e.Uninstall? && s.portal.value.tokenHash == Some(e.tokenHash)
              case AuthError => (e.Settle? && e.reply == Rejected) || e.Mark?
  {
  }

  ghost function Installs(r: Run): nat {
    match r
    case Start(_, _) => 0
    case Then(before, e) => Installs(before) + if e.Install? then 1 else 0
  }

  /** Once a portal is not active, every later active state has an install in between. */
  lemma {:induction false} OnlyInstallReactivates(p: Run, r: Run)
    requires Valid(p) && Valid(r) && Extends(r, p)
    requires After(p).portal.Some? && After(p).portal.value.status != Active
    ensures After(r).portal.Some?
    ensures After(r).portal.value.status == Active ==> Installs(p) < Installs(r)
    ensures Installs(p) <= Installs(r)
  {
    if r != p {
      OnlyInstallReactivates(p, r.before);
      RunKeepsLineage(r.before);
      StatusChanges(After(r.before), r.event);
    }
  }

  // ---------------------------------------------------------------- the repeat after a rejected token

  /** How many grants had been stored when the latest REST call of this caller was rejected. */
  ghost function StoredAtRejection(r: Run, c: CallerId): nat
    requires Valid(r)
  {
    match r
    case Start(_, _) => 0
    case Then(p, e) => if e == Unauthorized(c) then |After(p).entries| else StoredAtRejection(p, c)
  }

  /** The token of the k-th stored grant, which a refresh brought no earlier than the n-th. */
  ghost predicate Refreshed(s: System, k: nat, n: nat, token: Token) {
    n <= k < |s.entries| && s.entries[k].spent.Some? && s.entries[k].grant.access == token
  }

  lemma ReadyAfter(s: System, e: Event, c: CallerId)
    requires Enabled(s, e) && Apply(s, e).At(c).Ready? && Apply(s, e).At(c).retried
    ensures || Apply(s, e).At(c) == s.At(c)
            || (e.Settle? && e.caller == c && Refreshed(Apply(s, e), |s.entries|, |s.entries|, Apply(s, e).At(c).token))
    ensures e != Unauthorized(c)
  {
  }

  lemma EntriesGrow(s: System, e: Event)
    requires Enabled(s, e)
    ensures |s.entries| <= |Apply(s, e).entries|
    ensures forall k | 0 <= k < |s.entries| :: Apply(s, e).entries[k] == s.entries[k]
  {
  }

  lemma {:induction false} RejectionIsPast(r: Run, c: CallerId)
    requires Valid(r)
    ensures StoredAtRejection(r, c) <= |After(r).entries|
  {
    if r.Then? {
      RejectionIsPast(r.before, c);
      EntriesGrow(After(r.before), r.event);
    }
  }

  /** The repeat never resends the rejected token: it uses one that a refresh has stored since the rejection. */
  lemma {:induction false} RepeatUsesNewToken(r: Run, c: CallerId) returns (k: nat)
    requires Valid(r) && After(r).At(c).Ready? && After(r).At(c).retried
    ensures Refreshed(After(r), k, StoredAtRejection(r, c), After(r).At(c).token)
  {
    var s, e := After(r.before), r.event;
    ReadyAfter(s, e, c);
    EntriesGrow(s, e);
    RejectionIsPast(r.before, c);
    if Apply(s, e).At(c) == s.At(c) {
      k := RepeatUsesNewToken(r.before, c);
    } else {
      k := |s.entries|;
    }
  }

  /** A first rejection asks for a forced refresh; the rejection of the token that it brought marks the portal. */
  lemma RejectionForces(s: System, c: CallerId)
    requires Enabled(s, Unauthorized(c))
    ensures s.At(c).Ready?
    ensures var t := Apply(s, Unauthorized(c));
            && t.At(c) == (if s.At(c).retried then Marking else Waiting(true))
            && t.portal == s.portal && t.entries == s.entries
  {
  }

  /** Under the lock a forced caller of an active portal always spends the refresh token. */
  lemma ForcedCallerSpends(r: Run, c: CallerId)
    requires Valid(r) && Enabled(After(r), Lock(c)) && After(r).At(c) == Waiting(true)
    requires After(r).portal.Some? && After(r).portal.value.status == Active
    ensures Apply(After(r), Lock(c)).holder == Some(c)
    ensures After(r).portal.value.refresh.Some?
    ensures Apply(After(r), Lock(c)).At(c) == Holding(true, After(r).portal.value.refresh.value, After(r).clock)
  {
    RunKeepsLineage(r);
  }

  /** The unlocked look of get_access_token: a good token is handed out at once, otherwise the caller goes for the
      lock. */
  lemma LookMeans(s: System, c: CallerId)
    requires Enabled(s, Look(c))
    ensures var t := Apply(s, Look(c));
            && t.portal == s.portal && t.entries == s.entries && t.holder == s.holder
            && if IsActive(s.portal) && s.portal.value.access.Some?
               then
                 if StillGood(s.portal.value, s.clock, s.skew)
                 then t.At(c) == Ready(s.portal.value.access.value, false)
                      && t.handed == s.handed + [Handed(s.portal.value.access.value, s.clock)]
                 else t.At(c) == Waiting(false) && t.handed == s.handed
               else t == s
  {
  }

  // A concrete run: installed, called, rejected, refreshed under force, and about to repeat with the new token.

  const FIRST := Grant(1, 2, 0, 0, Some(3600), None)
  const NEXT := Grant(7, 8, 0, 0, Some(7200), None)

  lemma RejectedCaller() returns (r: Run)
    ensures Valid(r) && After(r).At(1) == Waiting(true) && After(r).clock == 0.0 && After(r).holder == None
    ensures After(r).portal == Some(Installed(FIRST, 9, 0.0)) && |After(r).entries| == 1
  {
    var installed := Then(Start(60.0, 0.0), Install(FIRST, 9, 0.0));
    assert Valid(installed) && After(installed).portal == Some(Installed(FIRST, 9, 0.0));
    var looked := Then(installed, Look(1));
    assert Valid(looked) && After(looked).At(1) == Ready(1, false);
    r := Then(looked, Unauthorized(1));
    assert Valid(r);
  }

  /** A stored token that is still good does not stop a forced caller: it comes back with the token of a new grant. */
  lemma RepeatHappens() returns (r: Run)
    ensures Valid(r) && After(r).At(1) == Ready(7, true) && After(r).portal.Some?
    ensures After(r).portal.value.access == Some(7) && After(r).portal.value.refresh == Some(8)
  {
    var rejected := RejectedCaller();
    var locked := Then(rejected, Lock(1));
    assert Valid(locked) && After(locked).At(1) == Holding(true, 2, 0.0);
    r := Then(locked, Settle(1, Granted(NEXT), 0.0));
    assert Valid(r);
  }

  // ---------------------------------------------------------------- coalescing, without forced refreshes

  /** No token is rejected, and every stored grant lives at least `life` beyond its storage. */
  predicate CalmEvent(s: System, e: Event, life: real)
    requires Enabled(s, e)
  {
    && !e.Unauthorized?
    && (e.Install? ==> s.clock + life <= EntryOf(e.grant, e.now, None).expiresAt)
    && (e.Settle? && e.reply.Granted? ==> e.now + life <= EntryOf(e.reply.grant, e.now, None).expiresAt)
  }

  ghost predicate Calm(r: Run, life: real)
    requires Valid(r)
  {
    r.Then? ==> Calm(r.before, life) && CalmEvent(After(r.before), r.event, life)
  }

  /** The `now` readings at which refreshed pairs were stored, in order. */
  function RefreshTimes(entries: seq<Entry>): seq<Instant> {
    if entries == [] then []
    else
      var last := entries[|entries| - 1];
      RefreshTimes(entries[..|entries| - 1]) + if last.spent.Some? then [last.at] else []
  }

  ghost predicate SpacedBy(times: seq<Instant>, gap: real) {
    forall i | 0 <= i < |times| - 1 :: times[i] + gap <= times[i + 1]
  }

  /** Nobody is about to force a refresh. */
  ghost predicate Unforced(s: System) {
    forall c: CallerId :: s.At(c).Waiting? || s.At(c).Holding? ==> !s.At(c).force
  }

  /** Refreshes are spaced, and the stored expiry is a whole life after the latest of them. */
  ghost predicate TimesOk(s: System, life: real) {
    var times := RefreshTimes(s.entries);
    && SpacedBy(times, life - s.skew)
    && (times != [] ==> s.portal.Some? && s.portal.value.expiresAt.Some?
                        && times[|times| - 1] <= s.clock
                        && times[|times| - 1] + life <= s.portal.value.expiresAt.value)
  }

  /** The handed-out token belongs to a stored grant that outlived the check by more than the skew. */
  ghost predicate HandedOk(s: System, h: Handed) {
    exists k | 0 <= k < |s.entries| ::
      s.entries[k].grant.access == h.token && h.checkedAt + s.skew < s.entries[k].expiresAt
  }

  ghost predicate CalmState(s: System, life: real) {
    Unforced(s) && TimesOk(s, life) && forall h | h in s.handed :: HandedOk(s, h)
  }

  lemma OneMoreEntry(entries: seq<Entry>, entry: Entry)
    ensures RefreshTimes(entries + [entry]) == RefreshTimes(entries) + if entry.spent.Some? then [entry.at] else []
  {
    assert (entries + [entry])[..|entries|] == entries;
  }

  lemma CallersStayUnforced(s: System, e: Event, life: real)
    requires Unforced(s) && Enabled(s, e) && CalmEvent(s, e, life)
    ensures Unforced(Apply(s, e))
  {
    forall c: CallerId | Apply(s, e).At(c).Waiting? || Apply(s, e).At(c).Holding?
      ensures !Apply(s, e).At(c).force
    {
      assert s.At(c).Waiting? || s.At(c).Holding? ==> !s.At(c).force;
    }
  }

  /** A refresh is stored only after the previous one's grant has come within the skew of its expiry. */
  lemma RefreshIsLate(s: System, e: Event, life: real)
    requires Lineage(s) && CalmState(s, life) && s.skew < life && Enabled(s, e)
    requires e.Settle?
    ensures var times := RefreshTimes(s.entries);
            times != [] ==> times[|times| - 1] + (life - s.skew) <= e.now
  {
    assert s.At(e.caller).Holding? && !s.At(e.caller).force;
  }

  predicate Stores(e: Event) {
    e.Install? || (e.Settle? && e.reply.Granted?)
  }

  /** Only a stored grant changes the expiry or the history. */
  lemma OnlyStoresMatter(s: System, e: Event)
    requires Enabled(s, e) && !Stores(e)
    ensures Apply(s, e).entries == s.entries && Apply(s, e).portal.Some? == s.portal.Some?
    ensures s.portal.Some? ==> Apply(s, e).portal.value.expiresAt == s.portal.value.expiresAt
    ensures s.clock <= Apply(s, e).clock && Apply(s, e).skew == s.skew
  {
  }

  ghost function StoredEntry(s: System, e: Event): Entry
    requires Enabled(s, e) && Stores(e)
  {
    if e.Install? then EntryOf(e.grant, e.now, None) else EntryOf(e.reply.grant, e.now, Some(s.At(e.caller).spent))
  }

  lemma StoreAppends(s: System, e: Event)
    requires Enabled(s, e) && Stores(e)
    ensures Apply(s, e).entries == s.entries + [StoredEntry(s, e)]
    ensures Apply(s, e).portal.Some? && Apply(s, e).portal.value.expiresAt == Some(StoredEntry(s, e).expiresAt)
    ensures Apply(s, e).clock == s.clock && Apply(s, e).skew == s.skew && e.now <= s.clock
  {
  }

  lemma TimesStayOk(s: System, e: Event, life: real)
    requires Lineage(s) && CalmState(s, life) && s.skew < life && Enabled(s, e) && CalmEvent(s, e, life)
    ensures TimesOk(Apply(s, e), life)
  {
    if Stores(e) {
      StoreAppends(s, e);
      OneMoreEntry(s.entries, StoredEntry(s, e));
      if e.Settle? {
        RefreshIsLate(s, e, life);
      }
    } else {
      OnlyStoresMatter(s, e);
    }
  }

  /** Stored grants stay in the history. */
  lemma EntriesStay(s: System, e: Event, k: nat)
    requires Enabled(s, e) && k < |s.entries|
    ensures k < |Apply(s, e).entries| && Apply(s, e).entries[k] == s.entries[k] && Apply(s, e).skew == s.skew
  {
  }

  lemma OldHandedStays(s: System, e: Event, h: Handed)
    requires Enabled(s, e) && HandedOk(s, h)
    ensures HandedOk(Apply(s, e), h)
  {
    var k :| 0 <= k < |s.entries| && s.entries[k].grant.access == h.token
          && h.checkedAt + s.skew < s.entries[k].expiresAt;
    EntriesStay(s, e, k);
  }

  /** A token newly handed out was stored by a grant that is still fresh, or has just been granted. */
  lemma NewHandedOk(s: System, e: Event, life: real, h: Handed)
    requires Lineage(s) && s.skew < life && Enabled(s, e) && CalmEvent(s, e, life)
    requires h in Apply(s, e).handed && h !in s.handed
    ensures HandedOk(Apply(s, e), h)
  {
    var t := Apply(s, e);
    if e.Settle? {
      StoreAppends(s, e);
    } else {
      OnlyStoresMatter(s, e);
    }
    var last := |t.entries| - 1;
    assert t.entries[last].grant.access == h.token;
  }

  lemma StepStaysCalm(s: System, e: Event, life: real)
    requires Lineage(s) && CalmState(s, life) && s.skew < life && Enabled(s, e) && CalmEvent(s, e, life)
    ensures CalmState(Apply(s, e), life)
  {
    CallersStayUnforced(s, e, life);
    TimesStayOk(s, e, life);
    forall h | h in Apply(s, e).handed
      ensures HandedOk(Apply(s, e), h)
    {
      if h in s.handed {
        OldHandedStays(s, e, h);
      } else {
        NewHandedOk(s, e, life, h);
      }
    }
  }

  lemma {:induction false} RunStaysCalm(r: Run, life: real)
    requires Valid(r) && Calm(r, life) && After(r).skew < life
    ensures CalmState(After(r), life)
  {
    if r.Then? {
      RunStaysCalm(r.before, life);
      RunKeepsLineage(r.before);
      StepStaysCalm(After(r.before), r.event, life);
    }
  }

  lemma {:induction false} SpacingAddsUp(times: seq<Instant>, gap: real, i: nat, j: nat)
    requires SpacedBy(times, gap) && i <= j < |times|
    ensures times[i] + Times(j - i, gap) <= times[j]
  {
    if i < j {
      SpacingAddsUp(times, gap, i, j - 1);
    }
  }

  lemma SpacingAsProduct(times: seq<Instant>, gap: real, i: nat, j: nat)
    requires SpacedBy(times, gap) && i <= j < |times|
    ensures times[i] + (j - i) as real * gap <= times[j]
  {
    SpacingAddsUp(times, gap, i, j);
    TimesIsProduct(j - i, gap);
  }

  /** With any number of concurrent callers and no forced refresh, the i-th and the j-th successful refresh are at least
      (j - i) gaps apart, a gap being the least lifetime of a grant less the skew. */
  lemma RefreshesCoalesce(r: Run, life: real, gap: real, i: nat, j: nat)
    requires Valid(r) && Calm(r, life) && After(r).skew < life && gap == life - After(r).skew
    requires i <= j < |RefreshTimes(After(r).entries)|
    ensures RefreshTimes(After(r).entries)[i] + (j - i) as real * gap <= RefreshTimes(After(r).entries)[j]
  {
    RunStaysCalm(r, life);
    SpacingAsProduct(RefreshTimes(After(r).entries), gap, i, j);
  }

  lemma SignOf(x: real, gap: real)
    requires 0.0 < gap && 0.0 <= x * gap
    ensures 0.0 <= x
  {
  }

  lemma FitsInto(n: nat, gap: real, window: real)
    requires 0.0 < gap && n as real * gap <= window
    ensures n <= (window / gap).Floor
  {
    assert (window / gap) * gap == window;
    assert (window / gap - n as real) * gap >= 0.0;
    SignOf(window / gap - n as real, gap);
  }

  lemma WindowHolds(n: nat, gap: real, window: real, first: Instant, last: Instant)
    requires 0.0 < gap && first + n as real * gap <= last <= first + window
    ensures n + 1 <= (window / gap).Floor + 1
  {
    FitsInto(n, gap, window);
  }

  /** So at most floor(window / gap) + 1 successful refreshes, the i-th to the j-th, fall into any window of time. */
  lemma RefreshesInWindow(r: Run, life: real, gap: real, window: real, i: nat, j: nat)
    requires Valid(r) && Calm(r, life) && After(r).skew < life && gap == life - After(r).skew
    requires i <= j < |RefreshTimes(After(r).entries)|
    requires RefreshTimes(After(r).entries)[j] <= RefreshTimes(After(r).entries)[i] + window
    ensures j - i + 1 <= (window / gap).Floor + 1
  {
    RefreshesCoalesce(r, life, gap, i, j);
    WindowHolds(j - i, gap, window, RefreshTimes(After(r).entries)[i], RefreshTimes(After(r).entries)[j]);
  }

  /** Every token that get_access_token returns is valid beyond the skew at the instant of its check. */
  lemma HandedTokensAreFresh(r: Run, life: real, h: Handed)
    requires Valid(r) && Calm(r, life) && After(r).skew < life && h in After(r).handed
    ensures HandedOk(After(r), h)
  {
    RunStaysCalm(r, life);
  }
}
