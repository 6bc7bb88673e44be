/** What each use case of the auth service answers and writes, told by the stored fields alone. */
module AuthAnswers {
  import opened Prelude
  import opened TokenStore
  import opened AuthStores
  import opened AuthSpec

  // ---------------------------------------------------------------------------------------------
  // Refresh
  // ---------------------------------------------------------------------------------------------

  /** A refresh is issued exactly to a stored, unrevoked, unexpired token of a stored, active user; every other
      case has its own error. */
  lemma RefreshAnswers(ttl: int, st: Store, us: Users, raw: string, tokenId: Uuid, newRaw: string, now: int)
    requires UsersExact(us)
    ensures var h, reply := Sha256(raw), Refresh(ttl, st, us, raw, tokenId, newRaw, now).1;
      && (reply.Issued? <==>
            && h in st.byHash && st.byHash[h].revokedAt == None && now < st.byHash[h].expiresAt
            && st.byHash[h].userId in us.byId && us.byId[st.byHash[h].userId].isActive)
      && (reply.Issued? ==> reply == Issued(newRaw, st.byHash[h].userId, st.byHash[h].sessionId))
      && (h !in st.byHash ==> reply == Rejected(RevokedTokenError))
      && (h in st.byHash ==>
            var t := st.byHash[h];
            && (t.revokedAt != None <==> reply == Rejected(TokenFamilyCompromised(t.sessionId)))
            && (t.revokedAt == None && t.expiresAt <= now <==> reply == Rejected(ExpiredTokenError))
            && (t.revokedAt == None && now < t.expiresAt && t.userId !in us.byId
                <==> reply == Rejected(UserNotFound(t.userId)))
            && (t.revokedAt == None && now < t.expiresAt && t.userId in us.byId && !us.byId[t.userId].isActive
                <==> reply == Rejected(UserInactive(t.userId))))
  {
  }

  /** What a refresh writes: the new token and the marks on the old one if it is issued, the family's revocation
      if it was reuse, and nothing in every other case. */
  lemma RefreshWrites(ttl: int, st: Store, us: Users, raw: string, tokenId: Uuid, newRaw: string, now: int)
    requires IndexExact(st) && UsersExact(us) && Sha256(newRaw) !in st.byHash
    ensures var (st', reply) := Refresh(ttl, st, us, raw, tokenId, newRaw, now);
      var h, k := Sha256(raw), Sha256(newRaw);
      && (reply.Issued? ==>
            && st'.byHash.Keys == st.byHash.Keys + {k}
            && st'.byHash[k] == Token(tokenId, k, reply.userId, reply.sessionId, now + ttl, now, None, None, None, None)
            && st'.byHash[h] == st.byHash[h].(usedAt := Some(now), replacedById := Some(tokenId),
                                              revokedAt := Some(now), revokedReason := Some("rotated"))
            && (forall x :: x in st.byHash && x != h ==> st'.byHash[x] == st.byHash[x]))
      && (!reply.Issued? && h in st.byHash && st.byHash[h].revokedAt != None ==>
            RevokedFamily(st, st', st.byHash[h].sessionId, "compromised_reuse", now))
      && (!reply.Issued? && !(h in st.byHash && st.byHash[h].revokedAt != None) ==> st' == st)
  {
    var h := Sha256(raw);
    if h in st.byHash {
      assert st.byHash[h].hash == h;
    }
  }

  /** The unrevoked tokens of the session, and only they, have been given the time and the reason. */
  ghost predicate RevokedFamily(st: Store, st': Store, sid: Uuid, reason: string, now: int) {
    && st'.byHash.Keys == st.byHash.Keys && st'.bySession == st.bySession
    && (forall h :: h in st.byHash ==> (
          var t := st.byHash[h];
          st'.byHash[h] ==
            if t.sessionId == sid && t.revokedAt == None
            then t.(revokedAt := Some(now), revokedReason := Some(reason))
            else t))
  }

  /** A logout revokes the family of a stored, unrevoked token, under the given reason if there is a non-empty one,
      and does nothing otherwise. */
  lemma LogoutWrites(st: Store, raw: string, reason: Option<string>, now: int)
    ensures var h, st' := Sha256(raw), Logout(st, raw, reason, now);
      if h in st.byHash && st.byHash[h].revokedAt == None then
        && (reason.Some? && reason.value != "" ==>
              RevokedFamily(st, st', st.byHash[h].sessionId, reason.value, now))
        && (reason.None? || reason.value == "" ==>
              RevokedFamily(st, st', st.byHash[h].sessionId, "user_logout", now))
      else st' == st
  {
  }

  // ---------------------------------------------------------------------------------------------
  // Login
  // ---------------------------------------------------------------------------------------------

  /** The profile is new, or its account is active. */
  predicate Welcome(us: Users, provider: string, info: UserInfo) {
    var key := (provider, info.providerUserId);
    key in us.byProvider && us.byProvider[key] in us.byId ==> us.byId[us.byProvider[key]].isActive
  }

  lemma ResolvedIff(us: Users, provider: string, info: UserInfo, newId: Uuid, now: int)
    ensures ResolveUser(us, provider, info, newId, now).1.Some? <==> Welcome(us, provider, info)
  {
  }

  lemma LoginIssuedIff(ttl: int, st: Store, us: Users, provider: string, info: UserInfo, m: Minted, now: int)
    ensures Login(ttl, st, us, provider, info, m, now).2.Issued? <==> Welcome(us, provider, info)
  {
    ResolvedIff(us, provider, info, m.userId, now);
  }

  /** A known profile logs in exactly if its account is active, as that account; an unknown one as a new account.
      The saved token belongs to the account, and a refused login changes nothing. */
  lemma LoginAnswers(ttl: int, st: Store, us: Users, provider: string, info: UserInfo, m: Minted, now: int)
    requires UsersExact(us)
    ensures var key := (provider, info.providerUserId);
      var (st', us', reply) := Login(ttl, st, us, provider, info, m, now);
      && (key in us.byProvider ==>
            var id := us.byProvider[key];
            && (reply == Issued(m.raw, id, m.sessionId) <==> us.byId[id].isActive)
            && (reply == Rejected(UserInactive(id)) <==> !us.byId[id].isActive)
            && (us.byId[id].isActive ==>
                  && us'.byId == us.byId[id := us.byId[id].(lastLoginAt := Some(now))]
                  && us'.byProvider == us.byProvider))
      && (key !in us.byProvider ==>
            && reply == Issued(m.raw, m.userId, m.sessionId)
            && us'.byId == us.byId[m.userId :=
                 UserRec(m.userId, provider, info.providerUserId, info.email, true, Some(now))]
            && us'.byProvider == us.byProvider[key := m.userId])
      && (reply.Issued? ==>
            var k := Sha256(m.raw);
            st'.byHash == st.byHash[k :=
              Token(m.tokenId, k, reply.userId, m.sessionId, now + ttl, now, None, None, None, None)])
      && (!reply.Issued? ==> st' == st && us' == us)
  {
    var key := (provider, info.providerUserId);
    if key in us.byProvider {
      var u := us.byId[us.byProvider[key]];
      assert u.Key() == key && u.id == us.byProvider[key];
      assert us.byProvider[key := u.id] == us.byProvider;
    }
  }

  // ---------------------------------------------------------------------------------------------
  // The OAuth callback
  // ---------------------------------------------------------------------------------------------

  /** The callback's state is pending, unexpired and for this provider, and a verifier is at hand. */
  predicate StateMatches(pending: map<string, StateEntry>, cb: Callback, now: int) {
    && cb.state in pending
    && now < pending[cb.state].expiresAt && pending[cb.state].provider == cb.provider
    && (cb.codeVerifier != "" || pending[cb.state].codeVerifier != "")
  }

  /** A callback spends the state it names in any case, and gets to the login exactly if the state matches, the
      provider is registered and the code exchange succeeds; otherwise it changes nothing else. */
  lemma CallbackAnswers(c: Config, s: State, cb: Callback, m: Minted, now: int)
    requires forall state :: state in s.pending ==> s.pending[state].state == state && state != ""
    ensures var (s', reply) := Step(c, s, CompleteOAuth(cb, m, now));
      && s'.pending == s.pending - {cb.state}
      && (StateMatches(s.pending, cb, now) && cb.provider in c.providers && cb.exchange.Some? ==>
            (s'.tokens, s'.users, reply) ==
            Login(c.ttl, s.tokens, s.users, c.providers[cb.provider], cb.exchange.value, m, now))
      && (!StateMatches(s.pending, cb, now) ==> reply == Rejected(StateMismatch))
      && (StateMatches(s.pending, cb, now) && cb.provider !in c.providers ==> reply == Rejected(ProviderUnknown))
      && (StateMatches(s.pending, cb, now) && cb.provider in c.providers && cb.exchange.None? ==>
            reply == Rejected(ProviderFailed))
      && (!(StateMatches(s.pending, cb, now) && cb.provider in c.providers && cb.exchange.Some?) ==>
            s'.tokens == s.tokens && s'.users == s.users)
  {
    hide Login;
  }

  /** A start for a registered provider leaves one new pending state, good for one lifetime. */
  lemma StartAnswers(c: Config, s: State, provider: string, state: string, verifier: string,
                     redirect: Option<string>, now: int)
    ensures var (s', reply) := Step(c, s, StartOAuth(provider, state, verifier, redirect, now));
      && s'.tokens == s.tokens && s'.users == s.users
      && (provider !in c.providers ==> s'.pending == s.pending && reply == Rejected(ProviderUnknown))
      && (provider in c.providers ==>
            && reply == Redirect(state, Sha256(verifier), verifier)
            && s'.pending == s.pending[state :=
                 StateEntry(state, Sha256(verifier), verifier, provider, redirect, now + c.stateTtl)])
  {
  }
}
