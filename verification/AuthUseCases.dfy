/** The use cases as methods over the shared repositories, each proved to take the step of `AuthSpec`. */
module AuthUseCases {
  import opened Prelude
  import opened TokenStore
  import opened AuthStores
  import opened AuthSpec
  import AuthInvariant
  import AuthAnswers
  import Repo = AuthRepositories

  class RefreshTokenUseCase {
    const users: Repo.InMemoryUserRepository
    const refreshTokens: Repo.InMemoryRefreshTokenRepository
    const ttl: int

    constructor (users: Repo.InMemoryUserRepository, refreshTokens: Repo.InMemoryRefreshTokenRepository, ttl: int)
      ensures this.users == users && this.refreshTokens == refreshTokens && this.ttl == ttl
    {
      this.users := users;
      this.refreshTokens := refreshTokens;
      this.ttl := ttl;
    }

    method Execute(raw: string, tokenId: Uuid, newRaw: string, now: int) returns (reply: Reply)
      requires refreshTokens.Valid() && users.Valid()
      requires Sha256(newRaw) !in refreshTokens.byHash
      modifies refreshTokens, refreshTokens.byHash.Values
      ensures refreshTokens.Valid()
      ensures (refreshTokens.View(), reply) ==
        Refresh(ttl, old(refreshTokens.View()), old(users.View()), raw, tokenId, newRaw, now)
      ensures var h, byHash, byId := Sha256(raw), old(refreshTokens.View()).byHash, old(users.View()).byId;
        reply.Issued? <==>
          && h in byHash && byHash[h].revokedAt == None && now < byHash[h].expiresAt
          && byHash[h].userId in byId && byId[byHash[h].userId].isActive
    {
      AuthAnswers.RefreshAnswers(ttl, refreshTokens.View(), users.View(), raw, tokenId, newRaw, now);
      ghost var st := refreshTokens.View();
      var stored := refreshTokens.FindByHash(Sha256(raw));
      if stored.None? {
        return Rejected(RevokedTokenError);
      }
      var token := stored.value;
      if token.revokedAt.Some? {
        var _ := refreshTokens.RevokeSession(token.sessionId, REUSE, now);
        return Rejected(TokenFamilyCompromised(token.sessionId));
      }
      if token.expiresAt <= now {
        return Rejected(ExpiredTokenError);
      }
      var found := users.FindById(token.userId);
      if found.None? {
        return Rejected(UserNotFound(token.userId));
      }
      if !found.value.isActive {
        return Rejected(UserInactive(found.value.id));
      }
      Rotate(token, found.value.id, tokenId, newRaw, now);
      reply := Issued(newRaw, found.value.id, token.sessionId);
    }

    method Rotate(token: Repo.RefreshToken, userId: Uuid, tokenId: Uuid, newRaw: string, now: int)
      requires refreshTokens.Valid()
      requires token.tokenHash in refreshTokens.byHash && refreshTokens.byHash[token.tokenHash] == token
      requires Sha256(newRaw) !in refreshTokens.byHash
      modifies refreshTokens, token
      ensures refreshTokens.Valid()
      ensures refreshTokens.View() ==
        AuthSpec.Rotate(ttl, old(refreshTokens.View()), old(token.Rec()), userId, tokenId, newRaw, now)
    {
      hide IndexExact, TokenStore.Save;
      ghost var st, before := refreshTokens.View(), token.Rec();
      refreshTokens.SessionFacts(token.sessionId);
      var successor := new Repo.RefreshToken.Create(tokenId, newRaw, userId, token.sessionId, ttl, now);
      refreshTokens.Save(successor);
      ghost var saved := refreshTokens.View();
      token.MarkUsed(tokenId, now);
      token.Revoke(ROTATED, now);
      SaveInPlace(saved, before, token.Rec());
      refreshTokens.ViewIs(saved.(byHash := saved.byHash[token.tokenHash := token.Rec()]));
      refreshTokens.Save(token);
    }
  }

  class RevokeTokenUseCase {
    const refreshTokens: Repo.InMemoryRefreshTokenRepository

    constructor (refreshTokens: Repo.InMemoryRefreshTokenRepository)
      ensures this.refreshTokens == refreshTokens
    {
      this.refreshTokens := refreshTokens;
    }

    method Execute(raw: string, reason: Option<string>, now: int)
      requires refreshTokens.Valid()
      modifies refreshTokens.byHash.Values
      ensures refreshTokens.Valid()
      ensures refreshTokens.View() == Logout(old(refreshTokens.View()), raw, reason, now)
    {
      var stored := refreshTokens.FindByHash(Sha256(raw));
      if stored.None? || stored.value.revokedAt.Some? {
        return;
      }
      var _ := refreshTokens.RevokeSession(stored.value.sessionId, LogoutReason(reason), now);
    }
  }

  class OAuthLoginUseCase {
    const users: Repo.InMemoryUserRepository
    const refreshTokens: Repo.InMemoryRefreshTokenRepository
    const ttl: int

    constructor (users: Repo.InMemoryUserRepository, refreshTokens: Repo.InMemoryRefreshTokenRepository, ttl: int)
      ensures this.users == users && this.refreshTokens == refreshTokens && this.ttl == ttl
    {
      this.users := users;
      this.refreshTokens := refreshTokens;
      this.ttl := ttl;
    }

    /** Creates the session once the state is checked and the code exchanged. */
    method Execute(provider: string, cb: Callback, storedState: string, m: Minted, now: int) returns (reply: Reply)
      requires refreshTokens.Valid() && users.Valid()
      requires Sha256(m.raw) !in refreshTokens.byHash
      modifies refreshTokens, users, users.byId.Values
      ensures refreshTokens.Valid() && (m.userId !in old(users.byId) ==> users.Valid())
      ensures (refreshTokens.View(), users.View(), reply) ==
        if cb.state == "" || cb.state != storedState then
          (old(refreshTokens.View()), old(users.View()), Rejected(StateMismatch))
        else if cb.exchange.None? then (old(refreshTokens.View()), old(users.View()), Rejected(ProviderFailed))
        else Login(ttl, old(refreshTokens.View()), old(users.View()), provider, cb.exchange.value, m, now)
      ensures reply.Issued? <==>
        && cb.state != "" && cb.state == storedState && cb.exchange.Some?
        && AuthAnswers.Welcome(old(users.View()), provider, cb.exchange.value)
    {
      hide IndexExact, UsersExact, TokenStore.Save, SaveUser;
      if cb.state == "" || cb.state != storedState {
        return Rejected(StateMismatch);
      }
      if cb.exchange.None? {
        return Rejected(ProviderFailed);
      }
      AuthAnswers.LoginIssuedIff(ttl, refreshTokens.View(), users.View(), provider, cb.exchange.value, m, now);
      var ok, user := ResolveUser(provider, cb.exchange.value, m.userId, now);
      if !ok {
        return Rejected(UserInactive(user.id));
      }
      OpenSession(user.id, m, now);
      reply := Issued(m.raw, user.id, m.sessionId);
    }

    method OpenSession(userId: Uuid, m: Minted, now: int)
      requires refreshTokens.Valid()
      requires Sha256(m.raw) !in refreshTokens.byHash
      modifies refreshTokens
      ensures refreshTokens.Valid()
      ensures refreshTokens.View() ==
        Save(old(refreshTokens.View()), NewToken(m.tokenId, m.raw, userId, m.sessionId, ttl, now))
    {
      hide IndexExact, TokenStore.Save;
      var token := new Repo.RefreshToken.Create(m.tokenId, m.raw, userId, m.sessionId, ttl, now);
      ghost var st := refreshTokens.View();
      assert token.Rec().hash == Sha256(m.raw) && Sha256(m.raw) !in st.byHash;
      refreshTokens.Save(token);
    }

    /** The stored user for the profile, or a new one; `ok` is false for a deactivated account. */
    method ResolveUser(provider: string, info: UserInfo, newId: Uuid, now: int) returns (ok: bool, user: Repo.User)
      requires users.Valid()
      modifies users, users.byId.Values
      ensures newId !in old(users.byId) ==> users.Valid()
      ensures users.View() == AuthSpec.ResolveUser(old(users.View()), provider, info, newId, now).0
      ensures ok <==> AuthSpec.ResolveUser(old(users.View()), provider, info, newId, now).1.Some?
      ensures ok <==> AuthAnswers.Welcome(old(users.View()), provider, info)
      ensures ok ==> user.Rec() == AuthSpec.ResolveUser(old(users.View()), provider, info, newId, now).1.value
      ensures !ok ==> FindByProvider(old(users.View()), provider, info.providerUserId) == Some(user.Rec())
    {
      hide UsersExact, SaveUser, AuthStores.FindByProvider;
      ghost var us := users.View();
      AuthAnswers.ResolvedIff(us, provider, info, newId, now);
      if newId !in users.byId {
        AuthInvariant.ResolveUserOk(us, provider, info, newId, now);
      }
      var existing := users.FindByProvider(provider, info.providerUserId);
      if existing.Some? {
        user := existing.value;
        ok := user.isActive;
        if ok {
          users.OwnIds();
          user.RecordLogin(now);
          users.ViewIs(us.(byId := us.byId[user.id := user.Rec()]));
          users.Save(user);
          SaveUserInPlace(us, user.Rec());
        }
      } else {
        user := new Repo.User.Create(newId, provider, info, now);
        users.Save(user);
        ok := true;
      }
    }
  }

  class AuthApiService {
    const states: Repo.InMemoryOAuthStateStore
    const login: OAuthLoginUseCase
    const providers: map<string, string>

    constructor (states: Repo.InMemoryOAuthStateStore, login: OAuthLoginUseCase, providers: map<string, string>)
      ensures this.states == states && this.login == login && this.providers == providers
    {
      this.states := states;
      this.login := login;
      this.providers := providers;
    }

    method StartOauth(provider: string, state: string, codeVerifier: string, redirectUri: Option<string>, now: int)
      returns (reply: Reply)
      modifies states
      ensures provider !in providers ==> reply == Rejected(ProviderUnknown) && states.entries == old(states.entries)
      ensures provider in providers ==>
        && reply == Redirect(state, Challenge(codeVerifier), codeVerifier)
        && states.entries == old(states.entries)[state :=
             StateEntry(state, Challenge(codeVerifier), codeVerifier, provider, redirectUri, now + states.ttl)]
    {
      if provider !in providers {
        return Rejected(ProviderUnknown);
      }
      var codeChallenge := Challenge(codeVerifier);
      states.Save(state, codeChallenge, codeVerifier, provider, redirectUri, now);
      reply := Redirect(state, codeChallenge, codeVerifier);
    }

    /** The state entry is spent by every callback that names it, whatever becomes of the callback. */
    method CompleteOauth(cb: Callback, m: Minted, now: int) returns (reply: Reply)
      requires login.refreshTokens.Valid() && login.users.Valid()
      requires Sha256(m.raw) !in login.refreshTokens.byHash
      modifies states, login.refreshTokens, login.users, login.users.byId.Values
      ensures login.refreshTokens.Valid() && (m.userId !in old(login.users.byId) ==> login.users.Valid())
      ensures states.entries == old(states.entries) - {cb.state}
      ensures var refused := CallbackError(providers, Consume(old(states.entries), cb.state, now), cb);
        (login.refreshTokens.View(), login.users.View(), reply) ==
        if refused.Some? then (old(login.refreshTokens.View()), old(login.users.View()), Rejected(refused.value))
        else Login(login.ttl, old(login.refreshTokens.View()), old(login.users.View()),
                   providers[cb.provider], cb.exchange.value, m, now)
      ensures reply.Issued? <==>
        && AuthAnswers.StateMatches(old(states.entries), cb, now)
        && cb.state != "" && cb.state == old(states.entries)[cb.state].state
        && cb.provider in providers && cb.exchange.Some?
        && AuthAnswers.Welcome(old(login.users.View()), providers[cb.provider], cb.exchange.value)
    {
      hide IndexExact, UsersExact, Login;
      var stored := states.Consume(cb.state, now);
      if stored.None? || stored.value.provider != cb.provider {
        return Rejected(StateMismatch);
      }
      var verifier := if cb.codeVerifier != "" then cb.codeVerifier else stored.value.codeVerifier;
      if verifier == "" {
        return Rejected(StateMismatch);
      }
      if cb.provider !in providers {
        return Rejected(ProviderUnknown);
      }
      reply := login.Execute(providers[cb.provider], cb, stored.value.state, m, now);
    }
  }

  /** Mutating a stored token through its reference already does what saving it again would do. */
  lemma SaveInPlace(st: Store, before: Token, after: Token)
    requires IndexExact(st)
    requires before.hash in st.byHash && st.byHash[before.hash] == before
    requires after.hash == before.hash && after.sessionId == before.sessionId
    ensures var touched := st.(byHash := st.byHash[after.hash := after]);
      IndexExact(touched) && Save(touched, after) == Save(st, after)
  {
    var touched := st.(byHash := st.byHash[after.hash := after]);
    assert touched.byHash[after.hash := after] == st.byHash[after.hash := after];
  }

  lemma SaveUserInPlace(us: Users, after: UserRec)
    ensures SaveUser(us.(byId := us.byId[after.id := after]), after) == SaveUser(us, after)
  {
    assert us.byId[after.id := after][after.id := after] == us.byId[after.id := after];
  }
}
