/** The auth service as a state machine on values: one event per use case, each an atomic step. */
module AuthSpec {
  import opened Prelude
  import opened TokenStore
  import opened AuthStores

  /** Token and state lifetimes, and the registered OAuth providers with the name each reports. */
  datatype Config = Config(ttl: int, stateTtl: int, providers: map<string, string>)

  datatype AuthError =
    | RevokedTokenError
    | TokenFamilyCompromised(sessionId: Uuid)
    | ExpiredTokenError
    | UserNotFound(userId: Uuid)
    | UserInactive(userId: Uuid)
    | StateMismatch
    | ProviderFailed
    | ProviderUnknown

  datatype Reply =
    | Issued(refreshToken: string, userId: Uuid, sessionId: Uuid)
    | Redirect(state: string, codeChallenge: TokenHash, codeVerifier: string)
    | Ack
    | Rejected(error: AuthError)

  const REUSE := "compromised_reuse"
  const ROTATED := "rotated"
  const LOGOUT := "user_logout"

  /** Rotation: the presented token is replaced by a successor in the same family, unless it was already
      revoked, in which case the whole family is revoked. */
  function Refresh(ttl: int, st: Store, us: Users, raw: string, tokenId: Uuid, newRaw: string, now: int):
    (Store, Reply)
  {
    var h := Sha256(raw);
    if h !in st.byHash then (st, Rejected(RevokedTokenError))
    else
      var t := st.byHash[h];
      if t.IsRevoked() then
        (RevokeSession(st, t.sessionId, REUSE, now), Rejected(TokenFamilyCompromised(t.sessionId)))
      else if t.IsExpired(now) then (st, Rejected(ExpiredTokenError))
      else if t.userId !in us.byId then (st, Rejected(UserNotFound(t.userId)))
      else if !us.byId[t.userId].isActive then (st, Rejected(UserInactive(us.byId[t.userId].id)))
      else (Rotate(ttl, st, t, us.byId[t.userId].id, tokenId, newRaw, now),
            Issued(newRaw, us.byId[t.userId].id, t.sessionId))
  }

  function Rotate(ttl: int, st: Store, t: Token, userId: Uuid, tokenId: Uuid, newRaw: string, now: int): Store {
    Save(Save(st, NewToken(tokenId, newRaw, userId, t.sessionId, ttl, now)),
         t.MarkUsed(tokenId, now).Revoke(ROTATED, now))
  }

  function LogoutReason(reason: Option<string>): string {
    if reason.Some? && reason.value != "" then reason.value else LOGOUT
  }

  function Logout(st: Store, raw: string, reason: Option<string>, now: int): Store {
    var h := Sha256(raw);
    if h !in st.byHash || st.byHash[h].IsRevoked() then st
    else RevokeSession(st, st.byHash[h].sessionId, LogoutReason(reason), now)
  }

  /** The user behind a provider profile: recorded as logged in, or created on first sight. */
  function ResolveUser(us: Users, provider: string, info: UserInfo, newId: Uuid, now: int): (Users, Option<UserRec>) {
    match FindByProvider(us, provider, info.providerUserId)
    case Some(u) =>
      if !u.isActive then (us, None)
      else (SaveUser(us, u.(lastLoginAt := Some(now))), Some(u.(lastLoginAt := Some(now))))
    case None =>
      var u := UserRec(newId, provider, info.providerUserId, info.email, true, Some(now));
      (SaveUser(us, u), Some(u))
  }

  datatype Minted = Minted(userId: Uuid, sessionId: Uuid, tokenId: Uuid, raw: string)

  /** Everything a callback carries; `exchange` is the provider's answer to the code, `None` if it fails. */
  datatype Callback = Callback(provider: string, state: string, codeVerifier: string, exchange: Option<UserInfo>)

  /** Why a callback is turned away before any user is looked up, if it is. */
  function CallbackError(providers: map<string, string>, stored: Option<StateEntry>, cb: Callback): Option<AuthError> {
    if stored.None? then Some(StateMismatch)
    else if stored.value.provider != cb.provider then Some(StateMismatch)
    else if cb.codeVerifier == "" && stored.value.codeVerifier == "" then Some(StateMismatch)
    else if cb.provider !in providers then Some(ProviderUnknown)
    else if cb.state == "" || cb.state != stored.value.state then Some(StateMismatch)
    else if cb.exchange.None? then Some(ProviderFailed)
    else None
  }

  function Consume(pending: map<string, StateEntry>, state: string, now: int): Option<StateEntry> {
    if state in pending && now < pending[state].expiresAt then Some(pending[state]) else None
  }

  function Login(ttl: int, st: Store, us: Users, provider: string, info: UserInfo, m: Minted, now: int):
    (Store, Users, Reply)
  {
    var (us', user) := ResolveUser(us, provider, info, m.userId, now);
    match user
    case None =>
      var id := match FindByProvider(us, provider, info.providerUserId) case Some(u) => u.id case None => m.userId;
      (st, us, Rejected(UserInactive(id)))
    case Some(u) =>
      (Save(st, NewToken(m.tokenId, m.raw, u.id, m.sessionId, ttl, now)), us', Issued(m.raw, u.id, m.sessionId))
  }

  // ---------------------------------------------------------------------------------------------

  /** `minted` and `secrets` are the uuid4 and token_urlsafe values handed out so far. */
  datatype State = State(
    tokens: Store,
    users: Users,
    pending: map<string, StateEntry>,
    clock: int,
    minted: set<Uuid>,
    secrets: set<string>)

  function Start(t0: int): State { State(EMPTY, Users(map[], map[]), map[], t0, {}, {}) }

  datatype Event =
    | StartOAuth(provider: string, state: string, codeVerifier: string, redirectUri: Option<string>, now: int)
    | CompleteOAuth(cb: Callback, m: Minted, now: int)
    | RefreshToken(raw: string, tokenId: Uuid, newRaw: string, now: int)
    | RevokeToken(raw: string, reason: Option<string>, now: int)
    | DeleteExpiredTokens(now: int)
    | DeactivateUser(userId: Uuid, now: int)

  /** The clock never goes back, and generated values have never been generated before. */
  predicate Enabled(s: State, e: Event) {
    && s.clock <= e.now
    && match e
       case StartOAuth(_, state, _, _, _) => state !in s.secrets && state != ""
       case CompleteOAuth(_, m, _) =>
         && m.userId !in s.minted && m.sessionId !in s.minted && m.tokenId !in s.minted
         && m.userId != m.sessionId && m.sessionId != m.tokenId && m.tokenId != m.userId
         && m.raw !in s.secrets
       case RefreshToken(_, tokenId, newRaw, _) => tokenId !in s.minted && newRaw !in s.secrets
       case _ => true
  }

  function Step(c: Config, s: State, e: Event): (State, Reply) {
    var s := s.(clock := e.now);
    match e
    case StartOAuth(provider, state, verifier, redirect, now) =>
      if provider !in c.providers then (s, Rejected(ProviderUnknown))
      else
        var entry := StateEntry(state, Challenge(verifier), verifier, provider, redirect, now + c.stateTtl);
        (s.(pending := s.pending[state := entry], secrets := s.secrets + {state}),
         Redirect(state, Challenge(verifier), verifier))
    case CompleteOAuth(cb, m, now) =>
      var stored := Consume(s.pending, cb.state, now);
      var s := s.(pending := s.pending - {cb.state});
      var refused := CallbackError(c.providers, stored, cb);
      if refused.Some? then (s, Rejected(refused.value))
      else
        var (tokens, users, reply) :=
          Login(c.ttl, s.tokens, s.users, c.providers[cb.provider], cb.exchange.value, m, now);
        (s.(tokens := tokens, users := users,
            minted := s.minted + {m.userId, m.sessionId, m.tokenId}, secrets := s.secrets + {m.raw}), reply)
    case RefreshToken(raw, tokenId, newRaw, now) =>
      var (tokens, reply) := Refresh(c.ttl, s.tokens, s.users, raw, tokenId, newRaw, now);
      (s.(tokens := tokens, minted := s.minted + {tokenId}, secrets := s.secrets + {newRaw}), reply)
    case RevokeToken(raw, reason, now) => (s.(tokens := Logout(s.tokens, raw, reason, now)), Ack)
    case DeleteExpiredTokens(now) => (s.(tokens := DeleteExpired(s.tokens, now)), Ack)
    case DeactivateUser(id, _) =>
      (if id in s.users.byId
       then s.(users := s.users.(byId := s.users.byId[id := s.users.byId[id].(isActive := false)]))
       else s, Ack)
  }

  /** Every event of the run is enabled when its turn comes. */
  predicate Legal(c: Config, s: State, es: seq<Event>)
    decreases |es|
  {
    es == [] || (Enabled(s, es[0]) && Legal(c, Step(c, s, es[0]).0, es[1..]))
  }

  function Run(c: Config, s: State, es: seq<Event>): State
    decreases |es|
  {
    if es == [] then s else Run(c, Step(c, s, es[0]).0, es[1..])
  }
}
