/** The stored OAuth state of one portal and its transactions (app/bitrix/oauth.py, app/api/installation.py). */
module PortalStore {
  import opened Prelude

  /** Tokens are modelled in the clear: encryption is taken to be undone exactly by decryption. */
  type Token = nat
  type Endpoint = nat

  datatype PortalStatus = Active | Inactive | AuthError

  datatype Portal = Portal(
    status: PortalStatus, access: Option<Token>, refresh: Option<Token>, expiresAt: Option<Instant>,
    clientEndpoint: Endpoint, serverEndpoint: Option<Endpoint>, tokenHash: Option<nat>)

  /** A validated grant of the authorization server: a whole token pair with its endpoints and lifetime. */
  datatype Grant = Grant(
    access: Token, refresh: Token, clientEndpoint: Endpoint, serverEndpoint: Endpoint,
    expires: Option<int>, expiresIn: Option<int>)
  {
    /** What both parsers require before a grant is used. */
    predicate Valid() {
      && (expires.Some? || expiresIn.Some?)
      && (expires.Some? ==> expires.value > 0) && (expiresIn.Some? ==> expiresIn.value > 0)
    }
  }

  /** How one refresh request ends; a misconfigured one is never sent. */
  datatype RefreshReply = Granted(grant: Grant) | Rejected | Unavailable | Misconfigured

  /** The absolute expiry wins over the relative one; None where the original raises. */
  function TokenExpiry(expires: Option<int>, expiresIn: Option<int>, now: Instant): Option<Instant> {
    if expires.Some? && expires.value > 0 then Some(expires.value as real)
    else if expiresIn.Some? && expiresIn.value > 0 then Some(now + expiresIn.value as real)
    else None
  }

  /** The expiry that a valid grant states: its absolute one, otherwise its lifetime from now on. */
  predicate Carries(grant: Grant, now: Instant, expiry: Option<Instant>) {
    expiry.Some? &&
    if grant.expires.Some? then expiry.value == grant.expires.value as real
    else grant.expiresIn.Some? && expiry.value == now + grant.expiresIn.value as real
  }

  lemma ValidGrantExpires(grant: Grant, now: Instant)
    requires grant.Valid()
    ensures TokenExpiry(grant.expires, grant.expiresIn, now).Some?
    ensures grant.expires.None? ==> now < TokenExpiry(grant.expires, grant.expiresIn, now).value
    ensures Carries(grant, now, TokenExpiry(grant.expires, grant.expiresIn, now))
  {
  }

  predicate Usable(portal: Option<Portal>) {
    portal.Some? && portal.value.status == Active
  }

  /** The stored access token outlives `now` by more than the skew. */
  predicate Fresh(portal: Portal, now: Instant, skew: real) {
    portal.access.Some? && portal.expiresAt.Some? && portal.expiresAt.value > now + skew
  }

  /** What `refresh_access_token` finds once it has the row lock. */
  datatype Begin = Unusable | Coalesced(token: Token) | Missing | Spend(token: Token, endpoint: Endpoint)

  function BeginRefresh(portal: Option<Portal>, force: bool, now: Instant, skew: real): Begin {
    if !Usable(portal) then Unusable
    else if !force && Fresh(portal.value, now, skew) then Coalesced(portal.value.access.value)
    else if portal.value.refresh.None? || portal.value.serverEndpoint.None? then Missing
    else Spend(portal.value.refresh.value, portal.value.serverEndpoint.value)
  }

  function Stored(portal: Portal, grant: Grant, now: Instant): Portal {
    portal.(access := Some(grant.access), refresh := Some(grant.refresh),
            expiresAt := TokenExpiry(grant.expires, grant.expiresIn, now),
            clientEndpoint := grant.clientEndpoint, serverEndpoint := Some(grant.serverEndpoint), status := Active)
  }

  /** The end of the refresh transaction; an unavailable server or a configuration error rolls it back. */
  function EndRefresh(portal: Portal, reply: RefreshReply, now: Instant): Portal {
    match reply
    case Granted(grant) => Stored(portal, grant, now)
    case Rejected => portal.(status := AuthError)
    case Unavailable => portal
    case Misconfigured => portal
  }

  function Installed(grant: Grant, tokenHash: nat, now: Instant): Portal {
    Portal(Active, Some(grant.access), Some(grant.refresh), TokenExpiry(grant.expires, grant.expiresIn, now),
           grant.clientEndpoint, Some(grant.serverEndpoint), Some(tokenHash))
  }

  predicate MayUninstall(portal: Option<Portal>, tokenHash: nat) {
    portal.Some? && portal.value.tokenHash == Some(tokenHash)
  }

  function WithStatus(portal: Option<Portal>, status: PortalStatus): Option<Portal> {
    if portal.Some? then Some(portal.value.(status := status)) else None
  }

  // ---------------------------------------------------------------- the transactions, column by column

  predicate IsActive(portal: Option<Portal>) {
    portal.Some? && portal.value.status == Active
  }

  /** The stored token may be handed out without asking the server. */
  predicate StillGood(portal: Portal, now: Instant, skew: real) {
    portal.access.Some? && portal.expiresAt.Some? && now + skew < portal.expiresAt.value
  }

  predicate CanRefresh(portal: Portal) {
    portal.refresh.Some? && portal.serverEndpoint.Some?
  }

  /** The row after a valid grant was stored: every column that a grant carries comes from it. */
  predicate Replaced(before: Portal, after: Portal, grant: Grant, now: Instant) {
    && after == before.(status := Active, access := Some(grant.access), refresh := Some(grant.refresh),
                        expiresAt := after.expiresAt, clientEndpoint := grant.clientEndpoint,
                        serverEndpoint := Some(grant.serverEndpoint))
    && (grant.Valid() ==> Carries(grant, now, after.expiresAt))
  }

  lemma StoredIsReplaced(portal: Portal, grant: Grant, now: Instant)
    ensures Replaced(portal, Stored(portal, grant, now), grant, now)
  {
    if grant.Valid() {
      ValidGrantExpires(grant, now);
    }
  }

  datatype OAuthError = ConfigurationError | RefreshRejected | TemporaryError | DecryptionError

  class PortalRow {
    var portal: Option<Portal>

    constructor ()
      ensures portal == None
    {
      portal := None;
    }

    /** `refresh_access_token` under the row lock: re-check, spend the refresh token once, replace the whole pair.
        `readable` says whether the stored tokens decrypt, `reply` how the request ends, at `storedAt`. */
    method RefreshAccessToken(force: bool, checkedAt: Instant, skew: real, readable: bool, reply: RefreshReply,
                              storedAt: Instant)
      returns (result: Result<Token, OAuthError>, asked: bool)
      modifies this
      ensures asked <==> BeginRefresh(old(portal), force, checkedAt, skew).Spend? && readable && !reply.Misconfigured?
      ensures match BeginRefresh(old(portal), force, checkedAt, skew) {
                case Unusable => portal == old(portal) && result == Err(ConfigurationError)
                case Coalesced(token) =>
                  portal == old(portal) && result == if readable then Ok(token) else Err(DecryptionError)
                case Missing => portal == WithStatus(old(portal), AuthError) && result == Err(RefreshRejected)
                case Spend(_, _) =>
                  if !readable then portal == old(portal) && result == Err(DecryptionError)
                  else
                    && portal == Some(EndRefresh(old(portal).value, reply, storedAt))
                    && result == (match reply
                                  case Granted(grant) => Ok(grant.access)
                                  case Rejected => Err(RefreshRejected)
                                  case Unavailable => Err(TemporaryError)
                                  case Misconfigured => Err(ConfigurationError))
              }
      // without an active portal nothing happens
      ensures !IsActive(old(portal)) ==> portal == old(portal) && result == Err(ConfigurationError) && !asked
      // unforced, a good token is handed out as it is
      ensures IsActive(old(portal)) && !force && StillGood(old(portal).value, checkedAt, skew) ==>
                && portal == old(portal) && !asked
                && result == if readable then Ok(old(portal).value.access.value) else Err(DecryptionError)
      // forced, or without a good token, the pair is replaced
      ensures IsActive(old(portal)) && (force || !StillGood(old(portal).value, checkedAt, skew)) ==>
                if !CanRefresh(old(portal).value)
                then
                  portal == Some(old(portal).value.(status := AuthError)) && result == Err(RefreshRejected) && !asked
                else if !readable then portal == old(portal) && result == Err(DecryptionError) && !asked
                else
                  match reply
                  case Granted(grant) =>
                    && asked && result == Ok(grant.access)
                    && portal.Some? && Replaced(old(portal).value, portal.value, grant, storedAt)
                  case Rejected =>
                    && asked && result == Err(RefreshRejected)
                    && portal == Some(old(portal).value.(status := AuthError))
                  case Unavailable => asked && result == Err(TemporaryError) && portal == old(portal)
                  case Misconfigured => !asked && result == Err(ConfigurationError) && portal == old(portal)
    {
      if portal.Some? && reply.Granted? {
        StoredIsReplaced(portal.value, reply.grant, storedAt);
      }
      asked := false;
      if portal.None? || portal.value.status != Active {
        return Err(ConfigurationError), false;
      }
      var row := portal.value;
      if !force && row.expiresAt.Some? && row.expiresAt.value > checkedAt + skew && row.access.Some? {
        return if readable then Ok(row.access.value) else Err(DecryptionError), false;
      }
      if row.refresh.None? || row.serverEndpoint.None? {
        portal := Some(row.(status := AuthError));
        return Err(RefreshRejected), false;
      }
      if !readable {
        return Err(DecryptionError), false;
      }
      asked := !reply.Misconfigured?;
      match reply {
        case Granted(grant) =>
          portal := Some(Stored(row, grant, storedAt));
          result := Ok(grant.access);
        case Rejected =>
          portal := Some(row.(status := AuthError));
          result := Err(RefreshRejected);
        case Unavailable =>
          result := Err(TemporaryError);
        case Misconfigured =>
          result := Err(ConfigurationError);
      }
    }

    /** `get_access_token`: hand out a good token without the lock, otherwise refresh. */
    method GetAccessToken(checkedAt: Instant, skew: real, readable: bool, relockedAt: Instant, reply: RefreshReply,
                          storedAt: Instant)
      returns (result: Result<Token, OAuthError>, asked: bool)
      modifies this
      ensures !IsActive(old(portal)) || old(portal).value.access.None? ==>
                portal == old(portal) && result == Err(ConfigurationError) && !asked
      ensures IsActive(old(portal)) && StillGood(old(portal).value, checkedAt, skew) ==>
                && portal == old(portal) && !asked
                && result == if readable then Ok(old(portal).value.access.value) else Err(DecryptionError)
      ensures asked ==>
                IsActive(old(portal)) && !StillGood(old(portal).value, checkedAt, skew)
                && !StillGood(old(portal).value, relockedAt, skew)
      ensures asked && reply.Granted? ==>
                && result == Ok(reply.grant.access)
                && portal.Some? && Replaced(old(portal).value, portal.value, reply.grant, storedAt)
      ensures IsActive(old(portal)) && old(portal).value.access.Some? && !StillGood(old(portal).value, checkedAt, skew)
              && !StillGood(old(portal).value, relockedAt, skew) && CanRefresh(old(portal).value) && readable ==>
                asked == !reply.Misconfigured?
    {
      if portal.None? || portal.value.status != Active || portal.value.access.None? {
        return Err(ConfigurationError), false;
      }
      var row := portal.value;
      if row.expiresAt.Some? && row.expiresAt.value > checkedAt + skew {
        return if readable then Ok(row.access.value) else Err(DecryptionError), false;
      }
      result, asked := RefreshAccessToken(false, relockedAt, skew, readable, reply, storedAt);
    }

    /** The second half of `call_portal`, once the REST call has rejected its token: a forced refresh, one repeat with
        the token it brought, and the mark when that is rejected too. */
    method RepeatCall(checkedAt: Instant, skew: real, readable: bool, reply: RefreshReply, storedAt: Instant,
                      rejectedAgain: bool)
      returns (used: Result<Token, OAuthError>)
      modifies this
      ensures IsActive(old(portal)) && CanRefresh(old(portal).value) && readable && reply.Granted? ==>
                && used == Ok(reply.grant.access)
                && portal.Some?
                && (rejectedAgain ==> portal.value.status == AuthError)
                && (!rejectedAgain ==> Replaced(old(portal).value, portal.value, reply.grant, storedAt))
      ensures used.Ok? ==> reply.Granted? && used.value == reply.grant.access
      ensures used.Err? ==> portal == old(portal) || portal == WithStatus(old(portal), AuthError)
    {
      var token, _ := RefreshAccessToken(true, checkedAt, skew, readable, reply, storedAt);
      used := token;
      if used.Ok? && rejectedAgain {
        MarkAuthError();
      }
    }

    method MarkAuthError()
      modifies this
      ensures portal == WithStatus(old(portal), AuthError)
      ensures portal == if old(portal).Some? then Some(old(portal).value.(status := AuthError)) else None
    {
      if portal.Some? {
        portal := Some(portal.value.(status := AuthError));
      }
    }

    method Install(grant: Grant, tokenHash: nat, now: Instant)
      requires grant.Valid()
      modifies this
      ensures portal == Some(Installed(grant, tokenHash, now)) && portal.value.expiresAt.Some?
      ensures portal == Some(Portal(Active, Some(grant.access), Some(grant.refresh), portal.value.expiresAt,
                                    grant.clientEndpoint, Some(grant.serverEndpoint), Some(tokenHash)))
      ensures Carries(grant, now, portal.value.expiresAt)
    {
      ValidGrantExpires(grant, now);
      portal := Some(Installed(grant, tokenHash, now));
    }

    method Uninstall(tokenHash: nat) returns (ok: bool)
      modifies this
      ensures ok <==> MayUninstall(old(portal), tokenHash)
      ensures portal == if ok then WithStatus(old(portal), Inactive) else old(portal)
      ensures ok <==> old(portal).Some? && old(portal).value.tokenHash == Some(tokenHash)
      ensures ok ==> portal == Some(old(portal).value.(status := Inactive))
    {
      ok := portal.Some? && portal.value.tokenHash == Some(tokenHash);
      if ok {
        portal := Some(portal.value.(status := Inactive));
      }
    }
  }
}
