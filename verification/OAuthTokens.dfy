/**
 OAuth credentials: what a token response turns into, and how a credential is
 merged into the stored bundle and read back.
 */
module OAuthTokens {
  import opened Options

  /** The credential a provider hands out or is given; `extras` holds its other fields. */
  datatype Credential = Credential(access: string, refresh: string, expires: int, extras: map<string, string>)

  datatype Stored = Stored(access: string, refresh: string, expires: int, savedAt: int, extras: map<string, string>)

  /** A refreshed credential merged with the bundle it replaces: old extras survive unless overwritten. */
  function ToStored(c: Credential, previous: Option<Stored>, now: int): Stored {
    var kept := if previous.Some? then previous.value.extras else map[];
    Stored(c.access, c.refresh, c.expires, now, kept + c.extras)
  }

  function ToCredential(s: Stored): Credential {
    Credential(s.access, s.refresh, s.expires, s.extras)
  }

  /**
   Storing then reading back gives the new token with the union of the extras,
   the new ones winning; a provider that returns the credential it was given
   changes nothing but the save time.
   */
  lemma {:induction false} StoreThenRead(c: Credential, previous: Stored, now: int)
    ensures var back := ToCredential(ToStored(c, Some(previous), now));
            && (back.access, back.refresh, back.expires) == (c.access, c.refresh, c.expires)
            && back.extras.Keys == c.extras.Keys + previous.extras.Keys
            && (forall k :: k in back.extras ==>
                  back.extras[k] == if k in c.extras then c.extras[k] else previous.extras[k])
    ensures ToStored(ToCredential(previous), Some(previous), now) == previous.(savedAt := now)
  {
    assert previous.extras + previous.extras == previous.extras;
  }

  // ------------------------------------------------------------------
  // The token endpoint
  // ------------------------------------------------------------------

  /**
   The fields of a token response. A field that is absent, or of another type,
   is "" or None; `accountId` is what the access token's claims give, if anything.
   */
  datatype Body = Body(access: string, refresh: string, expiresIn: Option<int>, accountId: Option<string>)

  datatype TokenResult =
    | Complete(credential: Credential)
    | Partial(received: Credential)   // CodexTokenResponseError carrying what arrived
    | Failed                          // an error with nothing to keep

  function AccountOf(c: Credential): string {
    if "accountId" in c.extras then c.extras["accountId"] else ""
  }

  /** How a 200 response to a refresh grant is read. `previous` is what was sent. */
  function ReadRefreshResponse(previous: Credential, body: Body, now: int): TokenResult {
    var refresh := if body.refresh != "" then body.refresh else previous.refresh;
    var expires := if body.expiresIn.Some? && body.expiresIn.value > 0 then Some(now + body.expiresIn.value * 1000)
                   else None;
    var account := AccountOf(previous);
    if body.access == "" || refresh == "" || expires == None then
      IncompleteResponse(previous, body, refresh, expires, account)
    else match body.accountId
      case Some(id) => Complete(Credential(body.access, refresh, expires.value, map["accountId" := id]))
      case None =>
        if account == "" then IncompleteResponse(previous, body, refresh, expires, "")
        else Complete(Credential(body.access, refresh, expires.value, map["accountId" := account]))
  }

  function IncompleteResponse(previous: Credential, body: Body, refresh: string, expires: Option<int>,
                              account: string): TokenResult
  {
    if body.access == "" && body.refresh == "" then Failed
    else Partial(Credential(
      if body.access != "" then body.access else previous.access,
      if refresh != "" then refresh else previous.refresh,
      match expires case Some(e) => e case None => previous.expires,
      if account != "" then map["accountId" := account] else map[]))
  }

  /** What the refresh code keeps of a result: a complete credential, or a usable partial one. */
  function Kept(r: TokenResult): Option<Credential> {
    match r
    case Complete(c) => Some(c)
    case Partial(c) => if c.access != "" && c.refresh != "" then Some(c) else None
    case Failed => None
  }

  /**
   A rotated refresh token is never dropped for being in a malformed response:
   whatever else is missing, if the body carries one, it is what gets kept. If
   the body carries none, what is kept, if anything, still has the token sent.
   */
  lemma {:induction false} RotatedTokenIsKept(previous: Credential, body: Body, now: int)
    requires previous.access != "" && previous.refresh != ""
    ensures var kept := Kept(ReadRefreshResponse(previous, body, now));
            && (kept == None <==> body.access == "" && body.refresh == "")
            && (kept.Some? ==>
                  && kept.value.refresh == (if body.refresh != "" then body.refresh else previous.refresh)
                  && kept.value.access == (if body.access != "" then body.access else previous.access))
  {
  }

  /** A complete result is one a caller can use: both tokens, a future expiry, an account. */
  lemma {:induction false} CompleteIsUsable(previous: Credential, body: Body, now: int)
    requires ReadRefreshResponse(previous, body, now).Complete?
    ensures var c := ReadRefreshResponse(previous, body, now).credential;
            && c.access == body.access != "" && c.refresh != "" && c.expires > now
            && "accountId" in c.extras
            && (body.accountId == None ==> c.extras["accountId"] == AccountOf(previous) != "")
  {
  }

  /** Whether a response has a usable lifetime; JavaScript counts it in seconds from now. */
  predicate HasLifetime(body: Body) {
    body.expiresIn.Some? && body.expiresIn.value > 0
  }

  /**
   What a response to a refresh with a usable credential amounts to. It is complete
   iff it has an access token, a lifetime and an account, its own or the previous
   one; each field comes from the response where that has it. An incomplete one
   keeps the previous expiry for want of a lifetime, and the previous account
   unless that account is what is missing.
   */
  lemma {:induction false} ResponseIsReadExactly(previous: Credential, body: Body, now: int)
    requires previous.access != "" && previous.refresh != ""
    ensures var r := ReadRefreshResponse(previous, body, now);
            var own := AccountOf(previous);
            && (r.Complete? <==> body.access != "" && HasLifetime(body) && (body.accountId.Some? || own != ""))
            && (r.Complete? ==>
                  && r.credential.expires == now + 1000 * body.expiresIn.value
                  && r.credential.refresh == (if body.refresh != "" then body.refresh else previous.refresh)
                  && r.credential.extras
                     == map["accountId" := if body.accountId.Some? then body.accountId.value else own])
            && (r.Partial? ==>
                  && r.received.expires
                     == (if HasLifetime(body) then now + 1000 * body.expiresIn.value else previous.expires)
                  && r.received.extras == if own != "" then map["accountId" := own] else map[])
  {
  }
}
