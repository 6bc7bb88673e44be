/** What every reachable state of the auth service satisfies. */
module AuthInvariant {
  import opened Prelude
  import opened TokenStore
  import opened AuthStores
  import opened AuthSpec

  /** The order of rotation between a token and the one stored after it in the same family. */
  predicate Superseded(t: Token, next: Token) {
    && t.replacedById == Some(next.id)
    && t.IsRevoked()
    && t.usedAt.Some?
    && t.userId == next.userId
    && t.expiresAt <= next.expiresAt
  }

  /** The tokens of one family form a single chain, oldest first; only the newest can be live. */
  ghost predicate Chain(byHash: map<TokenHash, Token>, list: seq<TokenHash>)
    requires forall h :: h in list ==> h in byHash
  {
    && (forall i :: 0 <= i < |list| - 1 ==> Superseded(byHash[list[i]], byHash[list[i + 1]]))
    && (list != [] ==> byHash[list[|list| - 1]].replacedById == None)
  }

  ghost predicate Chains(st: Store)
    requires IndexExact(st)
  {
    forall sid :: sid in st.bySession ==> Chain(st.byHash, st.bySession[sid])
  }

  /** A stored token was minted by the service, expires a fixed time after some past moment, and carries a
      reason exactly when it is revoked. */
  predicate Plausible(t: Token, ttl: int, clock: int, minted: set<Uuid>, secrets: set<string>) {
    && t.id in minted && t.sessionId in minted && t.hash.raw in secrets
    && t.expiresAt == t.createdAt + ttl && t.createdAt <= clock
    && (t.revokedAt.Some? <==> t.revokedReason.Some?)
    && (t.usedAt.Some? <==> t.replacedById.Some?)
  }

  ghost predicate TokensOk(c: Config, s: State) {
    && IndexExact(s.tokens)
    && IdsIdentify(s.tokens)
    && Chains(s.tokens)
    && (forall h :: h in s.tokens.byHash ==> Plausible(s.tokens.byHash[h], c.ttl, s.clock, s.minted, s.secrets))
    && (forall sid :: sid in s.tokens.bySession ==> sid in s.minted)
  }

  ghost predicate UsersOk(s: State) {
    && UsersExact(s.users)
    && (forall id :: id in s.users.byId ==> id in s.minted)
  }

  ghost predicate PendingOk(s: State) {
    forall state :: state in s.pending ==> state in s.secrets && s.pending[state].state == state && state != ""
  }

  ghost predicate Inv(c: Config, s: State) {
    TokensOk(c, s) && UsersOk(s) && PendingOk(s)
  }

  // ---------------------------------------------------------------------------------------------
  // Preservation, repository operation by repository operation
  // ---------------------------------------------------------------------------------------------

  /** Time and generated values only add to what a state knows. */
  lemma Later(c: Config, s: State, s': State)
    requires TokensOk(c, s) && s'.tokens == s.tokens
    requires s.clock <= s'.clock && s.minted <= s'.minted && s.secrets <= s'.secrets
    ensures TokensOk(c, s')
  {
  }

  ghost predicate Opens(c: Config, s: State, s': State, t: Token) {
    && t.sessionId !in s.minted && t.id !in s.minted && t.hash.raw !in s.secrets
    && s'.tokens == Save(s.tokens, t)
    && s.clock <= s'.clock && s.minted <= s'.minted && s.secrets <= s'.secrets
    && Plausible(t, c.ttl, s'.clock, s'.minted, s'.secrets) && t.replacedById == None
  }

  lemma NewFamilyOk(c: Config, s: State, s': State, t: Token)
    requires TokensOk(c, s) && Opens(c, s, s', t)
    ensures TokensOk(c, s')
  {
    assert t.hash !in s.tokens.byHash;
    SaveKeepsIndex(s.tokens, t);
    NewFamilyKeepsRest(c, s, s', t);
    forall sid | sid in s'.tokens.bySession ensures Chain(s'.tokens.byHash, s'.tokens.bySession[sid]) {
      if sid != t.sessionId {
        assert Chain(s.tokens.byHash, s.tokens.bySession[sid]);
      }
    }
  }

  lemma NewFamilyKeepsRest(c: Config, s: State, s': State, t: Token)
    requires TokensOk(c, s) && Opens(c, s, s', t)
    ensures SessionList(s.tokens, t.sessionId) == []
    ensures IdsIdentify(s'.tokens)
    ensures forall h :: h in s'.tokens.byHash ==> Plausible(s'.tokens.byHash[h], c.ttl, s'.clock, s'.minted, s'.secrets)
    ensures forall sid :: sid in s'.tokens.bySession ==> sid in s'.minted
  {
    hide IndexExact, Chains;
  }

  /** What rotating `t` into `next` leaves in the store. */
  ghost function Rotated(st: Store, t: Token, next: Token, now: int): Store {
    Store(st.byHash[next.hash := next][t.hash := t.MarkUsed(next.id, now).Revoke(ROTATED, now)],
          st.bySession[t.sessionId := SessionList(st, t.sessionId) + [next.hash]])
  }

  ghost predicate Rotatable(st: Store, t: Token, next: Token) {
    && t.hash in st.byHash && st.byHash[t.hash] == t && !t.IsRevoked()
    && next.hash !in st.byHash
    && next.sessionId == t.sessionId && next.userId == t.userId && next.replacedById == None
    && t.expiresAt <= next.expiresAt
  }

  lemma RotateIsRotated(st: Store, t: Token, next: Token, now: int)
    requires IndexExact(st) && Rotatable(st, t, next)
    ensures Save(Save(st, next), t.MarkUsed(next.id, now).Revoke(ROTATED, now)) == Rotated(st, t, next, now)
    ensures IndexExact(Rotated(st, t, next, now))
  {
    var used, list := t.MarkUsed(next.id, now).Revoke(ROTATED, now), st.bySession[t.sessionId];
    SaveKeepsIndex(st, next);
    assert t.hash in list + [next.hash];
    var saved := Save(st, next);
    SaveKeepsIndex(saved, used);
    assert Save(saved, used).bySession == Rotated(st, t, next, now).bySession;
  }

  lemma RotateKeepsChain(st: Store, t: Token, next: Token, now: int, sid: Uuid)
    requires IndexExact(st) && Chains(st) && Rotatable(st, t, next)
    requires IndexExact(Rotated(st, t, next, now)) && sid in Rotated(st, t, next, now).bySession
    ensures Chain(Rotated(st, t, next, now).byHash, Rotated(st, t, next, now).bySession[sid])
  {
    var byHash' := Rotated(st, t, next, now).byHash;
    var list := st.bySession[sid];
    assert Chain(st.byHash, list);
    if sid == t.sessionId {
      LiveIsLast(st, t);
      ChainGrows(st.byHash, byHash', list, next, t.MarkUsed(next.id, now).Revoke(ROTATED, now));
    } else {
      forall h | h in list ensures byHash'[h] == st.byHash[h] {
        assert st.byHash[h].sessionId == sid;
      }
    }
  }

  /** Rotation appends one token to the chain of its family. */
  lemma RotateOk(c: Config, s: State, s': State, t: Token, next: Token, now: int)
    requires TokensOk(c, s) && Rotatable(s.tokens, t, next)
    requires next.id !in s.minted
    requires s.clock <= s'.clock && s.minted <= s'.minted && s.secrets <= s'.secrets
    requires Plausible(next, c.ttl, s'.clock, s'.minted, s'.secrets)
    requires s'.tokens == Save(Save(s.tokens, next), t.MarkUsed(next.id, now).Revoke(ROTATED, now))
    ensures TokensOk(c, s')
  {
    RotateIsRotated(s.tokens, t, next, now);
    forall sid | sid in s'.tokens.bySession ensures Chain(s'.tokens.byHash, s'.tokens.bySession[sid]) {
      RotateKeepsChain(s.tokens, t, next, now, sid);
    }
    RotateKeepsRest(c, s, s', t, next, now);
  }

  lemma RotateKeepsRest(c: Config, s: State, s': State, t: Token, next: Token, now: int)
    requires TokensOk(c, s) && Rotatable(s.tokens, t, next)
    requires next.id !in s.minted
    requires s.clock <= s'.clock && s.minted <= s'.minted && s.secrets <= s'.secrets
    requires Plausible(next, c.ttl, s'.clock, s'.minted, s'.secrets)
    requires s'.tokens == Rotated(s.tokens, t, next, now)
    ensures IdsIdentify(s'.tokens)
    ensures forall h :: h in s'.tokens.byHash ==> Plausible(s'.tokens.byHash[h], c.ttl, s'.clock, s'.minted, s'.secrets)
    ensures forall sid :: sid in s'.tokens.bySession ==> sid in s'.minted
  {
    hide IndexExact, Chains;
  }

  lemma ChainGrows(was: map<TokenHash, Token>, became: map<TokenHash, Token>, list: seq<TokenHash>,
                   next: Token, used: Token)
    requires (forall h :: h in list ==> h in was) && Chain(was, list) && Distinct(list)
    requires list != [] && next.hash !in list && used.hash == list[|list| - 1]
    requires became == was[next.hash := next][used.hash := used]
    requires Superseded(used, next) && next.replacedById == None
    requires used.id == was[used.hash].id && used.userId == was[used.hash].userId
    requires used.expiresAt == was[used.hash].expiresAt
    ensures Chain(became, list + [next.hash])
  {
    var grown := list + [next.hash];
    forall i | 0 <= i < |grown| - 1 ensures Superseded(became[grown[i]], became[grown[i + 1]]) {
      if i < |list| - 1 {
        assert Superseded(was[list[i]], was[list[i + 1]]);
        assert list[i] != used.hash;
      }
    }
  }

  lemma OldersRevoked(byHash: map<TokenHash, Token>, list: seq<TokenHash>)
    requires (forall h :: h in list ==> h in byHash) && Chain(byHash, list)
    ensures forall i :: 0 <= i < |list| - 1 ==> byHash[list[i]].IsRevoked()
  {
    forall i | 0 <= i < |list| - 1 ensures byHash[list[i]].IsRevoked() {
      assert Superseded(byHash[list[i]], byHash[list[i + 1]]);
    }
  }

  /** An unrevoked token is the newest of its family. */
  lemma LiveIsLast(st: Store, t: Token)
    requires IndexExact(st) && Chains(st)
    requires t.hash in st.byHash && st.byHash[t.hash] == t && !t.IsRevoked()
    ensures t.sessionId in st.bySession && st.bySession[t.sessionId] != []
    ensures var list := st.bySession[t.sessionId]; list[|list| - 1] == t.hash
  {
    var list := st.bySession[t.sessionId];
    assert Chain(st.byHash, list);
    OldersRevoked(st.byHash, list);
    var i :| 0 <= i < |list| && list[i] == t.hash;
  }

  lemma RevokeKeepsChain(st: Store, sid: Uuid, reason: string, now: int, family: Uuid)
    requires IndexExact(st) && family in st.bySession && Chain(st.byHash, st.bySession[family])
    ensures Chain(RevokeSession(st, sid, reason, now).byHash, st.bySession[family])
  {
    var list, byHash' := st.bySession[family], RevokeSession(st, sid, reason, now).byHash;
    forall i | 0 <= i < |list| - 1 ensures Superseded(byHash'[list[i]], byHash'[list[i + 1]]) {
      assert Superseded(st.byHash[list[i]], st.byHash[list[i + 1]]);
    }
  }

  lemma RevokeSessionOk(c: Config, s: State, s': State, sid: Uuid, reason: string, now: int)
    requires TokensOk(c, s)
    requires s' == s.(tokens := RevokeSession(s.tokens, sid, reason, now))
    ensures TokensOk(c, s')
  {
    hide IndexExact, Chain, Plausible;
    RevokeSessionKeepsIndex(s.tokens, sid, reason, now);
    RevokeKeepsPlausible(c, s, s', sid, reason, now);
    forall x | x in s'.tokens.bySession ensures Chain(s'.tokens.byHash, s'.tokens.bySession[x]) {
      RevokeKeepsChain(s.tokens, sid, reason, now, x);
    }
  }

  lemma RevokeKeepsPlausible(c: Config, s: State, s': State, sid: Uuid, reason: string, now: int)
    requires TokensOk(c, s)
    requires s' == s.(tokens := RevokeSession(s.tokens, sid, reason, now))
    ensures forall h :: h in s'.tokens.byHash ==>
      Plausible(s'.tokens.byHash[h], c.ttl, s'.clock, s'.minted, s'.secrets)
    ensures IdsIdentify(s'.tokens)
  {
    hide IndexExact, Chains;
  }

  /** Expiry never decreases along a chain. */
  lemma {:induction false} ExpiryMonotone(byHash: map<TokenHash, Token>, list: seq<TokenHash>, i: nat, j: nat)
    requires (forall h :: h in list ==> h in byHash) && Chain(byHash, list)
    requires i <= j < |list|
    ensures byHash[list[i]].expiresAt <= byHash[list[j]].expiresAt
    ensures byHash[list[i]].userId == byHash[list[j]].userId
    decreases j - i
  {
    if i < j {
      assert Superseded(byHash[list[i]], byHash[list[i + 1]]);
      ExpiryMonotone(byHash, list, i + 1, j);
    }
  }

  /** A sweep removes exactly a prefix of each chain: the expired tokens are the oldest ones. */
  lemma SweepDropsPrefix(st: Store, sid: Uuid, now: int) returns (k: nat)
    requires IndexExact(st) && Chains(st) && sid in st.bySession
    ensures k <= |st.bySession[sid]|
    ensures DeleteExpired(st, now).bySession[sid] == st.bySession[sid][k..]
    ensures forall i :: 0 <= i < |st.bySession[sid]| ==>
      (i < k <==> st.byHash[st.bySession[sid][i]].IsExpired(now))
  {
    var list := st.bySession[sid];
    var kept := (st.byHash - ExpiredHashes(st, now)).Keys;
    forall i, j | 0 <= i < j < |list| && list[i] in kept ensures list[j] in kept {
      assert Chain(st.byHash, list);
      ExpiryMonotone(st.byHash, list, i, j);
    }
    k := RetainIsSuffix(list, kept);
  }

  lemma SweepKeepsChain(st: Store, now: int, sid: Uuid)
    requires IndexExact(st) && Chains(st) && sid in st.bySession
    requires IndexExact(DeleteExpired(st, now))
    ensures Chain(DeleteExpired(st, now).byHash, DeleteExpired(st, now).bySession[sid])
  {
    var list := st.bySession[sid];
    var k := SweepDropsPrefix(st, sid, now);
    var rest, byHash' := list[k..], DeleteExpired(st, now).byHash;
    assert Chain(st.byHash, list);
    forall i | 0 <= i < |rest| - 1 ensures Superseded(byHash'[rest[i]], byHash'[rest[i + 1]]) {
      assert rest[i] == list[k + i] && rest[i + 1] == list[k + i + 1];
      assert Superseded(st.byHash[list[k + i]], st.byHash[list[k + i + 1]]);
    }
  }

  lemma DeleteExpiredOk(c: Config, s: State, s': State, now: int)
    requires TokensOk(c, s)
    requires s' == s.(tokens := DeleteExpired(s.tokens, now))
    ensures TokensOk(c, s')
  {
    DeleteExpiredKeepsIndex(s.tokens, now);
    hide IndexExact, Chain;
    forall sid | sid in s'.tokens.bySession ensures Chain(s'.tokens.byHash, s'.tokens.bySession[sid]) {
      SweepKeepsChain(s.tokens, now, sid);
    }
  }

  lemma ResolveUserOk(us: Users, provider: string, info: UserInfo, newId: Uuid, now: int)
    requires UsersExact(us) && newId !in us.byId
    ensures var (us', u) := ResolveUser(us, provider, info, newId, now);
      && UsersExact(us')
      && us'.byId.Keys <= us.byId.Keys + {newId}
      && (u.Some? ==> u.value.id in us'.byId && us'.byId[u.value.id] == u.value)
  {
    var key := (provider, info.providerUserId);
    match FindByProvider(us, provider, info.providerUserId) {
      case Some(u) => assert u.Key() == key;
      case None => assert key !in us.byProvider;
    }
  }

  // ---------------------------------------------------------------------------------------------
  // One step, and every run
  // ---------------------------------------------------------------------------------------------

  lemma CallbackOk(c: Config, s: State, cb: Callback, m: Minted, now: int)
    requires Inv(c, s) && Enabled(s, CompleteOAuth(cb, m, now))
    ensures Inv(c, Step(c, s, CompleteOAuth(cb, m, now)).0)
  {
    var s' := Step(c, s, CompleteOAuth(cb, m, now)).0;
    var stored := Consume(s.pending, cb.state, now);
    if CallbackError(c.providers, stored, cb).None? {
      var info, provider := cb.exchange.value, c.providers[cb.provider];
      ResolveUserOk(s.users, provider, info, m.userId, now);
      var user := ResolveUser(s.users, provider, info, m.userId, now).1;
      if user.Some? {
        NewFamilyOk(c, s, s', NewToken(m.tokenId, m.raw, user.value.id, m.sessionId, c.ttl, now));
      } else {
        Later(c, s, s');
      }
    } else {
      Later(c, s, s');
    }
  }

  lemma RefreshOk(c: Config, s: State, raw: string, tokenId: Uuid, newRaw: string, now: int)
    requires Inv(c, s) && Enabled(s, RefreshToken(raw, tokenId, newRaw, now))
    ensures Inv(c, Step(c, s, RefreshToken(raw, tokenId, newRaw, now)).0)
  {
    var s' := Step(c, s, RefreshToken(raw, tokenId, newRaw, now)).0;
    var h := Sha256(raw);
    var later := s'.(tokens := s.tokens);
    Later(c, s, later);
    if h in s.tokens.byHash {
      var t := s.tokens.byHash[h];
      if t.IsRevoked() {
        RevokeSessionOk(c, later, s', t.sessionId, REUSE, now);
      } else if !t.IsExpired(now) && t.userId in s.users.byId && s.users.byId[t.userId].isActive {
        assert s.users.byId[t.userId].id == t.userId;
        RotateOk(c, s, s', t, NewToken(tokenId, newRaw, t.userId, t.sessionId, c.ttl, now), now);
      }
    }
  }

  lemma StepOk(c: Config, s: State, e: Event)
    requires Inv(c, s) && Enabled(s, e)
    ensures Inv(c, Step(c, s, e).0)
  {
    var s' := Step(c, s, e).0;
    match e {
      case StartOAuth(_, _, _, _, _) => Later(c, s, s');
      case CompleteOAuth(cb, m, now) => CallbackOk(c, s, cb, m, now);
      case RefreshToken(raw, tokenId, newRaw, now) => RefreshOk(c, s, raw, tokenId, newRaw, now);
      case RevokeToken(raw, reason, now) =>
        Later(c, s, s.(clock := now));
        var h := Sha256(raw);
        if h in s.tokens.byHash && !s.tokens.byHash[h].IsRevoked() {
          RevokeSessionOk(c, s.(clock := now), s', s.tokens.byHash[h].sessionId, LogoutReason(reason), now);
        }
      case DeleteExpiredTokens(now) =>
        Later(c, s, s.(clock := now));
        DeleteExpiredOk(c, s.(clock := now), s', now);
      case DeactivateUser(_, _) => Later(c, s, s');
    }
  }

  lemma {:induction false} RunOk(c: Config, s: State, es: seq<Event>)
    requires Inv(c, s) && Legal(c, s, es)
    ensures Inv(c, Run(c, s, es))
    decreases |es|
  {
    if es != [] {
      StepOk(c, s, es[0]);
      RunOk(c, Step(c, s, es[0]).0, es[1..]);
    }
  }

  lemma StartOk(c: Config, t0: int)
    ensures Inv(c, Start(t0))
  {
  }
}
