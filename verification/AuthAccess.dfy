/** Who gets in, over every run: the exact conditions of a refresh and a login, and what deactivation ends. */
module AuthAccess {
  import opened Prelude
  import opened TokenStore
  import opened AuthStores
  import opened AuthSpec
  import opened AuthInvariant
  import opened AuthTheorems
  import opened AuthAnswers

  /** In every reachable state a refresh is issued exactly to a stored, unrevoked, unexpired token whose owner is
      stored and active, in the name of that owner and session. */
  lemma RefreshIssuedIff(c: Config, s: State, raw: string, tokenId: Uuid, newRaw: string, now: int)
    requires Reachable(c, s)
    ensures var (h, reply) := (Sha256(raw), Step(c, s, RefreshToken(raw, tokenId, newRaw, now)).1);
      && (reply.Issued? <==>
            && h in s.tokens.byHash && s.tokens.byHash[h].revokedAt == None && now < s.tokens.byHash[h].expiresAt
            && s.tokens.byHash[h].userId in s.users.byId && s.users.byId[s.tokens.byHash[h].userId].isActive)
      && (reply.Issued? ==> reply == Issued(newRaw, s.tokens.byHash[h].userId, s.tokens.byHash[h].sessionId))
  {
    ReachableOk(c, s);
    hide Refresh;
    RefreshAnswers(c.ttl, s.tokens, s.users, raw, tokenId, newRaw, now);
  }

  /** In every reachable state every other refresh has its own error, and all but reuse leave the tokens alone. */
  lemma RefreshRefusals(c: Config, s: State, raw: string, tokenId: Uuid, newRaw: string, now: int)
    requires Reachable(c, s) && Enabled(s, RefreshToken(raw, tokenId, newRaw, now))
    ensures var (h, st) := (Sha256(raw), s.tokens);
      var (s', reply) := Step(c, s, RefreshToken(raw, tokenId, newRaw, now));
      && s'.users == s.users && s'.pending == s.pending
      && (h !in st.byHash ==> reply == Rejected(RevokedTokenError) && s'.tokens == st)
      && (h in st.byHash ==>
            var t := st.byHash[h];
            && (t.revokedAt != None ==>
                  && reply == Rejected(TokenFamilyCompromised(t.sessionId))
                  && RevokedFamily(st, s'.tokens, t.sessionId, "compromised_reuse", now))
            && (t.revokedAt == None && t.expiresAt <= now ==>
                  reply == Rejected(ExpiredTokenError) && s'.tokens == st)
            && (t.revokedAt == None && now < t.expiresAt && t.userId !in s.users.byId ==>
                  reply == Rejected(UserNotFound(t.userId)) && s'.tokens == st)
            && (t.revokedAt == None && now < t.expiresAt && t.userId in s.users.byId
                && !s.users.byId[t.userId].isActive ==>
                  reply == Rejected(UserInactive(t.userId)) && s'.tokens == st))
  {
    ReachableOk(c, s);
    NewHashIsFresh(c, s, newRaw);
    hide Refresh, RevokedFamily, Chains, IdsIdentify;
    RefreshAnswers(c.ttl, s.tokens, s.users, raw, tokenId, newRaw, now);
    RefreshWrites(c.ttl, s.tokens, s.users, raw, tokenId, newRaw, now);
  }

  lemma NewHashIsFresh(c: Config, s: State, newRaw: string)
    requires Inv(c, s) && newRaw !in s.secrets
    ensures Sha256(newRaw) !in s.tokens.byHash
  {
  }

  /** In every reachable state a callback whose state matches, for a registered provider and with the code
      exchanged, logs in exactly if its profile is new or its account is active: as that account, or as the new
      one.  A refused account is named, and nothing of tokens and accounts changes. */
  lemma LoginIssuedIff(c: Config, s: State, cb: Callback, m: Minted, now: int)
    requires Reachable(c, s)
    requires StateMatches(s.pending, cb, now) && cb.provider in c.providers && cb.exchange.Some?
    ensures var (s', reply) := Step(c, s, CompleteOAuth(cb, m, now));
      var key := (c.providers[cb.provider], cb.exchange.value.providerUserId);
      && (key in s.users.byProvider ==> s.users.byProvider[key] in s.users.byId)
      && (reply.Issued? <==> (key in s.users.byProvider ==> s.users.byId[s.users.byProvider[key]].isActive))
      && (reply.Issued? ==>
            && reply == Issued(m.raw, if key in s.users.byProvider then s.users.byProvider[key] else m.userId,
                               m.sessionId)
            && Sha256(m.raw) in s'.tokens.byHash && s'.tokens.byHash[Sha256(m.raw)].userId == reply.userId
            && s'.tokens.byHash[Sha256(m.raw)].sessionId == m.sessionId
            && s'.tokens.byHash[Sha256(m.raw)].expiresAt == now + c.ttl)
      && (!reply.Issued? ==>
            && reply == Rejected(UserInactive(s.users.byProvider[key]))
            && s'.tokens == s.tokens && s'.users == s.users)
  {
    ReachableOk(c, s);
    hide Login, Step;
    CallbackAnswers(c, s, cb, m, now);
    LoginAnswers(c.ttl, s.tokens, s.users, c.providers[cb.provider], cb.exchange.value, m, now);
  }

  /** A callback that does not get that far is refused, and changes neither tokens nor accounts. */
  lemma CallbackRefusedIff(c: Config, s: State, cb: Callback, m: Minted, now: int)
    requires Reachable(c, s)
    ensures var (s', reply) := Step(c, s, CompleteOAuth(cb, m, now));
      && (reply == Rejected(StateMismatch) <==> !StateMatches(s.pending, cb, now))
      && (reply == Rejected(ProviderUnknown) <==>
            StateMatches(s.pending, cb, now) && cb.provider !in c.providers)
      && (reply == Rejected(ProviderFailed) <==>
            StateMatches(s.pending, cb, now) && cb.provider in c.providers && cb.exchange.None?)
      && (reply in {Rejected(StateMismatch), Rejected(ProviderUnknown), Rejected(ProviderFailed)} ==>
            s'.tokens == s.tokens && s'.users == s.users)
      && s'.pending == s.pending - {cb.state}
  {
    ReachableOk(c, s);
    hide Login, Step;
    CallbackAnswers(c, s, cb, m, now);
    if StateMatches(s.pending, cb, now) && cb.provider in c.providers && cb.exchange.Some? {
      LoginAnswers(c.ttl, s.tokens, s.users, c.providers[cb.provider], cb.exchange.value, m, now);
    }
  }

  // ---------------------------------------------------------------------------------------------
  // Deactivation
  // ---------------------------------------------------------------------------------------------

  ghost predicate Deactivated(s: State, id: Uuid) { id in s.users.byId && !s.users.byId[id].isActive }

  lemma DeactivationDeactivates(c: Config, s: State, id: Uuid, now: int)
    ensures var s' := Step(c, s, DeactivateUser(id, now)).0;
      && (id in s.users.byId ==> Deactivated(s', id))
      && s'.users.byId.Keys == s.users.byId.Keys && s'.tokens == s.tokens
      && (forall k :: k in s.users.byId && k != id ==> s'.users.byId[k] == s.users.byId[k])
  {
  }

  lemma StepKeepsDeactivated(c: Config, s: State, e: Event, id: Uuid)
    requires Inv(c, s) && Enabled(s, e) && Deactivated(s, id)
    ensures Deactivated(Step(c, s, e).0, id)
    ensures Step(c, s, e).1.Issued? ==> Step(c, s, e).1.userId != id
  {
    hide Login, Refresh, Chains, IdsIdentify, IndexExact;
    match e {
      case CompleteOAuth(cb, m, now) =>
        hide Step;
        CallbackAnswers(c, s, cb, m, now);
        if StateMatches(s.pending, cb, now) && cb.provider in c.providers && cb.exchange.Some? {
          LoginAnswers(c.ttl, s.tokens, s.users, c.providers[cb.provider], cb.exchange.value, m, now);
        }
      case RefreshToken(raw, tokenId, newRaw, now) =>
        RefreshAnswers(c.ttl, s.tokens, s.users, raw, tokenId, newRaw, now);
      case _ =>
    }
  }

  /** A deactivated account stays so, and from then on no refresh and no login of any run is issued to it. */
  lemma {:induction false} DeactivatedNeverIssued(c: Config, s: State, es: seq<Event>, id: Uuid, i: nat)
    requires Inv(c, s) && Legal(c, s, es) && Deactivated(s, id) && i < |es|
    ensures Deactivated(Run(c, s, es), id)
    ensures ReplyAt(c, s, es, i).Issued? ==> ReplyAt(c, s, es, i).userId != id
    decreases |es|
  {
    hide Inv, Enabled, Step, Deactivated;
    StepOk(c, s, es[0]);
    StepKeepsDeactivated(c, s, es[0], id);
    var s1 := Step(c, s, es[0]).0;
    if |es| > 1 {
      DeactivatedNeverIssued(c, s1, es[1..], id, if i == 0 then 0 else i - 1);
    } else {
      assert es[1..] == [] && Run(c, s1, []) == s1;
    }
  }
}
