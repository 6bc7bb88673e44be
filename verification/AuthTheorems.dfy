/** The guarantees of the auth service over every legal run of logins, refreshes, logouts, sweeps and
    deactivations. */
module AuthTheorems {
  import opened Prelude
  import opened TokenStore
  import opened AuthStores
  import opened AuthSpec
  import opened AuthInvariant

  ghost predicate Reachable(c: Config, s: State) {
    exists t0, es :: Legal(c, Start(t0), es) && Run(c, Start(t0), es) == s
  }

  lemma ReachableOk(c: Config, s: State)
    requires Reachable(c, s)
    ensures Inv(c, s)
  {
    var t0, es :| Legal(c, Start(t0), es) && Run(c, Start(t0), es) == s;
    StartOk(c, t0);
    RunOk(c, Start(t0), es);
  }

  // ---------------------------------------------------------------------------------------------
  // One live token, one chain
  // ---------------------------------------------------------------------------------------------

  lemma AtMostOneLiveToken(c: Config, s: State, sid: Uuid)
    requires Reachable(c, s)
    ensures |OpenHashes(s.tokens, sid)| <= 1
  {
    ReachableOk(c, s);
    if h :| h in OpenHashes(s.tokens, sid) {
      LiveAlone(s.tokens, s.tokens.byHash[h]);
    }
  }

  lemma FamilyIsOneChain(c: Config, s: State, sid: Uuid)
    requires Reachable(c, s) && sid in s.tokens.bySession
    ensures var list, byHash := s.tokens.bySession[sid], s.tokens.byHash;
      && Distinct(list)
      && (forall h :: h in list <==> h in byHash && byHash[h].sessionId == sid)
      && (forall i :: 0 <= i < |list| - 1 ==>
            && byHash[list[i]].replacedById == Some(byHash[list[i + 1]].id)
            && byHash[list[i]].IsRevoked()
            && byHash[list[i]].createdAt <= byHash[list[i + 1]].createdAt
            && byHash[list[i]].userId == byHash[list[i + 1]].userId)
      && (list != [] ==> byHash[list[|list| - 1]].replacedById == None)
  {
    ReachableOk(c, s);
    var list, byHash := s.tokens.bySession[sid], s.tokens.byHash;
    assert Chain(byHash, list);
    forall i | 0 <= i < |list| - 1
      ensures byHash[list[i]].replacedById == Some(byHash[list[i + 1]].id)
      ensures byHash[list[i]].IsRevoked()
      ensures byHash[list[i]].createdAt <= byHash[list[i + 1]].createdAt
      ensures byHash[list[i]].userId == byHash[list[i + 1]].userId
    {
      assert Superseded(byHash[list[i]], byHash[list[i + 1]]);
      assert list[i] in list && list[i + 1] in list;
      assert Plausible(byHash[list[i]], c.ttl, s.clock, s.minted, s.secrets);
      assert Plausible(byHash[list[i + 1]], c.ttl, s.clock, s.minted, s.secrets);
    }
  }

  /** No link of a chain dangles: a stored token's successor is stored too, even after sweeps. */
  lemma SuccessorStored(c: Config, s: State, h: TokenHash)
    requires Reachable(c, s) && h in s.tokens.byHash && s.tokens.byHash[h].replacedById.Some?
    ensures exists k :: (
      && k in s.tokens.byHash
      && s.tokens.byHash[k].id == s.tokens.byHash[h].replacedById.value
      && s.tokens.byHash[k].sessionId == s.tokens.byHash[h].sessionId)
  {
    hide Reachable;
    InSession(c, s, h);
    var sid := s.tokens.byHash[h].sessionId;
    FamilyIsOneChain(c, s, sid);
    var list := s.tokens.bySession[sid];
    var i :| 0 <= i < |list| && list[i] == h;
    assert list[i + 1] in s.tokens.byHash;
  }

  lemma InSession(c: Config, s: State, h: TokenHash)
    requires Reachable(c, s) && h in s.tokens.byHash
    ensures s.tokens.byHash[h].sessionId in s.tokens.bySession
  {
    hide Reachable, Chains, UsersOk, PendingOk;
    ReachableOk(c, s);
  }

  /** A successful refresh moves the live role from the presented token to the new one. */
  lemma RefreshMovesLiveRole(c: Config, s: State, raw: string, tokenId: Uuid, newRaw: string, now: int)
    requires Reachable(c, s) && Enabled(s, RefreshToken(raw, tokenId, newRaw, now))
    requires Step(c, s, RefreshToken(raw, tokenId, newRaw, now)).1.Issued?
    ensures var (s', reply) := Step(c, s, RefreshToken(raw, tokenId, newRaw, now));
      && OpenHashes(s.tokens, reply.sessionId) == {Sha256(raw)}
      && OpenHashes(s'.tokens, reply.sessionId) == {Sha256(newRaw)}
      && reply.refreshToken == newRaw
      && s'.tokens.byHash[Sha256(raw)].replacedById == Some(s'.tokens.byHash[Sha256(newRaw)].id)
      && s'.tokens.byHash[Sha256(newRaw)].userId == s.tokens.byHash[Sha256(raw)].userId == reply.userId
  {
    ReachableOk(c, s);
    hide Chains, PendingOk, Save, OpenHashes;
    var t := s.tokens.byHash[Sha256(raw)];
    assert t.hash == Sha256(raw) && s.users.byId[t.userId].id == t.userId;
    var next := NewToken(tokenId, newRaw, t.userId, t.sessionId, c.ttl, now);
    assert Rotatable(s.tokens, t, next);
    RotateIsRotated(s.tokens, t, next, now);
    LiveAlone(s.tokens, t);
    RotatedAlone(s.tokens, t, next, now);
  }

  lemma LiveAlone(st: Store, t: Token)
    requires IndexExact(st) && Chains(st)
    requires t.hash in st.byHash && st.byHash[t.hash] == t && !t.IsRevoked()
    ensures OpenHashes(st, t.sessionId) == {t.hash}
  {
    forall h | h in OpenHashes(st, t.sessionId) ensures h == t.hash {
      LiveIsLast(st, t);
      LiveIsLast(st, st.byHash[h]);
    }
    assert t.hash in OpenHashes(st, t.sessionId);
  }

  lemma RotatedAlone(st: Store, t: Token, next: Token, now: int)
    requires OpenHashes(st, t.sessionId) == {t.hash} && t.hash != next.hash
    requires next.sessionId == t.sessionId && !next.IsRevoked()
    ensures OpenHashes(Rotated(st, t, next, now), t.sessionId) == {next.hash}
  {
    var st' := Rotated(st, t, next, now);
    forall h ensures h in OpenHashes(st', t.sessionId) <==> h == next.hash {
      assert h in st.byHash && Revocable(st.byHash[h], t.sessionId) <==> h in OpenHashes(st, t.sessionId);
    }
  }

  // ---------------------------------------------------------------------------------------------
  // What time cannot undo
  // ---------------------------------------------------------------------------------------------

  /** How a stored token may differ from what it was earlier: marks are only ever added. */
  predicate Evolves(before: Token, after: Token) {
    && after.id == before.id && after.hash == before.hash
    && after.userId == before.userId && after.sessionId == before.sessionId
    && after.expiresAt == before.expiresAt && after.createdAt == before.createdAt
    && (before.IsRevoked() ==> after == before)
  }

  lemma StepEvolves(c: Config, s: State, e: Event, h: TokenHash)
    requires Inv(c, s) && Enabled(s, e) && h in s.tokens.byHash
    ensures var s' := Step(c, s, e).0;
      && (h in s'.tokens.byHash <==> !(e.DeleteExpiredTokens? && s.tokens.byHash[h].expiresAt <= e.now))
      && (h in s'.tokens.byHash ==> Evolves(s.tokens.byHash[h], s'.tokens.byHash[h]))
  {
    hide Chains, UsersOk, PendingOk, IdsIdentify;
    if e.RefreshToken? {
      RefreshEvolves(c, s, e.raw, e.tokenId, e.newRaw, e.now, h);
    } else if e.CompleteOAuth? {
      CallbackEvolves(c, s, e.cb, e.m, e.now, h);
    }
  }

  lemma RefreshEvolves(c: Config, s: State, raw: string, tokenId: Uuid, newRaw: string, now: int, h: TokenHash)
    requires TokensOk(c, s) && Enabled(s, RefreshToken(raw, tokenId, newRaw, now)) && h in s.tokens.byHash
    ensures var st' := Refresh(c.ttl, s.tokens, s.users, raw, tokenId, newRaw, now).0;
      h in st'.byHash && Evolves(s.tokens.byHash[h], st'.byHash[h])
  {
    hide Chains, IdsIdentify, Refresh, Evolves;
    RefreshEvolvesStore(c.ttl, s.tokens, s.users, raw, tokenId, newRaw, now, h);
  }

  lemma RefreshEvolvesStore(ttl: int, st: Store, us: Users, raw: string, tokenId: Uuid, newRaw: string, now: int,
                            h: TokenHash)
    requires h in st.byHash && Sha256(newRaw) !in st.byHash
    requires Sha256(raw) in st.byHash ==> st.byHash[Sha256(raw)].hash == Sha256(raw)
    ensures var st' := Refresh(ttl, st, us, raw, tokenId, newRaw, now).0;
      h in st'.byHash && Evolves(st.byHash[h], st'.byHash[h])
  {
  }

  lemma CallbackEvolves(c: Config, s: State, cb: Callback, m: Minted, now: int, h: TokenHash)
    requires TokensOk(c, s) && Enabled(s, CompleteOAuth(cb, m, now)) && h in s.tokens.byHash
    ensures var st' := Step(c, s, CompleteOAuth(cb, m, now)).0.tokens;
      h in st'.byHash && st'.byHash[h] == s.tokens.byHash[h]
  {
    hide Chains, IdsIdentify, ResolveUser;
    assert Sha256(m.raw) !in s.tokens.byHash;
  }

  lemma StepRevivesNothing(c: Config, s: State, e: Event, h: TokenHash)
    requires Inv(c, s) && Enabled(s, e) && h.raw in s.secrets && h !in s.tokens.byHash
    ensures h.raw in Step(c, s, e).0.secrets && h !in Step(c, s, e).0.tokens.byHash
  {
    hide Chains, UsersOk, PendingOk, IdsIdentify, ResolveUser;
  }

  lemma {:induction false} RunRevivesNothing(c: Config, s: State, es: seq<Event>, h: TokenHash)
    requires Inv(c, s) && Legal(c, s, es) && h.raw in s.secrets && h !in s.tokens.byHash
    ensures h !in Run(c, s, es).tokens.byHash
    decreases |es|
  {
    if es != [] {
      StepOk(c, s, es[0]);
      StepRevivesNothing(c, s, es[0], h);
      RunRevivesNothing(c, Step(c, s, es[0]).0, es[1..], h);
    }
  }

  predicate Sweeps(e: Event, expiresAt: int) {
    e.DeleteExpiredTokens? && expiresAt <= e.now
  }

  /** A stored token stays stored exactly until a sweep runs at or after its expiry; its identity never changes
      and, once revoked, neither do the time and reason of its revocation. */
  lemma {:induction false} TokenHistory(c: Config, s: State, es: seq<Event>, h: TokenHash)
    requires Inv(c, s) && Legal(c, s, es) && h in s.tokens.byHash
    ensures var s' := Run(c, s, es);
      && (h in s'.tokens.byHash <==> forall i :: 0 <= i < |es| ==> !Sweeps(es[i], s.tokens.byHash[h].expiresAt))
      && (h in s'.tokens.byHash ==> Evolves(s.tokens.byHash[h], s'.tokens.byHash[h]))
    decreases |es|
  {
    if es != [] {
      var s1, rest := Step(c, s, es[0]).0, es[1..];
      assert forall i :: 0 <= i < |rest| ==> rest[i] == es[i + 1];
      StepOk(c, s, es[0]);
      StepEvolves(c, s, es[0], h);
      if h in s1.tokens.byHash {
        TokenHistory(c, s1, rest, h);
        assert !Sweeps(es[0], s.tokens.byHash[h].expiresAt);
        assert (forall i :: 0 <= i < |es| ==> !Sweeps(es[i], s.tokens.byHash[h].expiresAt)) <==>
               (forall i :: 0 <= i < |rest| ==> !Sweeps(rest[i], s.tokens.byHash[h].expiresAt)) by {
          assert forall i :: 0 < i < |es| ==> es[i] == rest[i - 1];
        }
      } else {
        RunRevivesNothing(c, s1, rest, h);
        assert Sweeps(es[0], s.tokens.byHash[h].expiresAt);
      }
    }
  }

  ghost predicate Dead(s: State, sid: Uuid) {
    sid in s.tokens.bySession && OpenHashes(s.tokens, sid) == {}
  }

  lemma StepKeepsDead(c: Config, s: State, e: Event, sid: Uuid)
    requires Inv(c, s) && Enabled(s, e) && Dead(s, sid)
    ensures Dead(Step(c, s, e).0, sid)
  {
    hide Chains, UsersOk, PendingOk, IdsIdentify;
    var s' := Step(c, s, e).0;
    forall h | h in s'.tokens.byHash && s'.tokens.byHash[h].sessionId == sid ensures s'.tokens.byHash[h].IsRevoked() {
      if h in s.tokens.byHash {
        StepEvolves(c, s, e, h);
        assert h !in OpenHashes(s.tokens, sid);
      } else {
        NewTokensAreElsewhere(c, s, e, h, sid);
      }
    }
    SessionsStay(c, s, e);
  }

  /** A token that a step adds belongs to a family with a live token, or to a new one. */
  lemma NewTokensAreElsewhere(c: Config, s: State, e: Event, h: TokenHash, sid: Uuid)
    requires Inv(c, s) && Enabled(s, e) && Dead(s, sid)
    requires h !in s.tokens.byHash && h in Step(c, s, e).0.tokens.byHash
    ensures Step(c, s, e).0.tokens.byHash[h].sessionId != sid
  {
    hide Chains, UsersOk, PendingOk, IdsIdentify, ResolveUser;
    if e.RefreshToken? {
      var t := s.tokens.byHash[Sha256(e.raw)];
      assert t.hash == Sha256(e.raw);
      assert t.hash in OpenHashes(s.tokens, t.sessionId);
    }
  }

  lemma SessionsStay(c: Config, s: State, e: Event)
    requires TokensOk(c, s) && Enabled(s, e)
    ensures var before, after := s.tokens.bySession.Keys, Step(c, s, e).0.tokens.bySession.Keys;
      before <= after <= before + if e.CompleteOAuth? && Step(c, s, e).1.Issued? then {e.m.sessionId} else {}
  {
    hide Chains, IdsIdentify, ResolveUser;
    if e.RefreshToken? {
      assert Sha256(e.raw) in s.tokens.byHash ==> s.tokens.byHash[Sha256(e.raw)].sessionId in s.tokens.bySession;
    }
  }

  lemma {:induction false} DeathIsPermanent(c: Config, s: State, es: seq<Event>, sid: Uuid)
    requires Inv(c, s) && Legal(c, s, es) && Dead(s, sid)
    ensures Dead(Run(c, s, es), sid)
    decreases |es|
  {
    if es != [] {
      StepOk(c, s, es[0]);
      StepKeepsDead(c, s, es[0], sid);
      DeathIsPermanent(c, Step(c, s, es[0]).0, es[1..], sid);
    }
  }

  /** Once a family is dead, every later refresh with any token it ever stored is turned away. */
  lemma DeadFamilyNeverRefreshes(c: Config, s: State, es: seq<Event>, sid: Uuid,
                                 raw: string, tokenId: Uuid, newRaw: string, now: int)
    requires Reachable(c, s) && Legal(c, s, es) && Dead(s, sid)
    requires Sha256(raw) in s.tokens.byHash && s.tokens.byHash[Sha256(raw)].sessionId == sid
    ensures Step(c, Run(c, s, es), RefreshToken(raw, tokenId, newRaw, now)).1 ==
      Rejected(if Sha256(raw) in Run(c, s, es).tokens.byHash then TokenFamilyCompromised(sid) else RevokedTokenError)
  {
    ReachableOk(c, s);
    DeathIsPermanent(c, s, es, sid);
    TokenHistory(c, s, es, Sha256(raw));
    var s' := Run(c, s, es);
    if Sha256(raw) in s'.tokens.byHash {
      assert Sha256(raw) !in OpenHashes(s'.tokens, sid);
    }
  }

  /** Presenting any stored token of a family that is already revoked kills the whole family. */
  lemma ReuseKillsFamily(c: Config, s: State, raw: string, tokenId: Uuid, newRaw: string, now: int)
    requires Reachable(c, s)
    requires Sha256(raw) in s.tokens.byHash && s.tokens.byHash[Sha256(raw)].IsRevoked()
    ensures var (s', reply) := Step(c, s, RefreshToken(raw, tokenId, newRaw, now));
      var sid := s.tokens.byHash[Sha256(raw)].sessionId;
      Dead(s', sid) && reply == Rejected(TokenFamilyCompromised(sid))
  {
    ReachableOk(c, s);
  }

  /** Logging out kills the family of the presented token exactly if that token is unrevoked; a superseded one
      logs nobody out. */
  lemma LogoutKillsFamily(c: Config, s: State, raw: string, reason: Option<string>, now: int)
    requires Reachable(c, s)
    requires Sha256(raw) in s.tokens.byHash
    ensures Dead(Step(c, s, RevokeToken(raw, reason, now)).0, s.tokens.byHash[Sha256(raw)].sessionId) <==>
      (Dead(s, s.tokens.byHash[Sha256(raw)].sessionId) || !s.tokens.byHash[Sha256(raw)].IsRevoked())
  {
    ReachableOk(c, s);
    var st, sid := s.tokens, s.tokens.byHash[Sha256(raw)].sessionId;
    if !st.byHash[Sha256(raw)].IsRevoked() {
      assert OpenHashes(RevokeSession(st, sid, LogoutReason(reason), now), sid) == {};
    }
  }

  /** Reuse of a superseded token is detected, and its family killed, exactly as long as no sweep has run at or
      after the token's expiry: afterwards the token is unknown and the family is left alone. */
  lemma ReuseDetectedUntilSwept(c: Config, s: State, es: seq<Event>,
                                raw: string, tokenId: Uuid, newRaw: string, now: int)
    requires Reachable(c, s) && Legal(c, s, es)
    requires Sha256(raw) in s.tokens.byHash && s.tokens.byHash[Sha256(raw)].IsRevoked()
    ensures var (s', t) := (Run(c, s, es), s.tokens.byHash[Sha256(raw)]);
      var (s'', reply) := Step(c, s', RefreshToken(raw, tokenId, newRaw, now));
      if forall i :: 0 <= i < |es| ==> !Sweeps(es[i], t.expiresAt)
      then reply == Rejected(TokenFamilyCompromised(t.sessionId)) && Dead(s'', t.sessionId)
      else reply == Rejected(RevokedTokenError) && s''.tokens == s'.tokens
  {
    hide Chains, IdsIdentify, UsersOk, PendingOk, Reachable, Run, Legal;
    ReachableOk(c, s);
    TokenHistory(c, s, es, Sha256(raw));
    RunOk(c, s, es);
  }

  // ---------------------------------------------------------------------------------------------
  // OAuth states and accounts
  // ---------------------------------------------------------------------------------------------

  /** The reply to the event at position `i` of a run. */
  function ReplyAt(c: Config, s: State, es: seq<Event>, i: nat): Reply
    requires i < |es|
    decreases i
  {
    if i == 0 then Step(c, s, es[0]).1 else ReplyAt(c, Step(c, s, es[0]).0, es[1..], i - 1)
  }

  predicate Accepts(c: Config, s: State, es: seq<Event>, i: nat, state: string) {
    i < |es| && es[i].CompleteOAuth? && es[i].cb.state == state && ReplyAt(c, s, es, i).Issued?
  }

  ghost predicate Spent(s: State, state: string) {
    state in s.secrets && state !in s.pending
  }

  lemma {:induction false} SpentNeverAccepted(c: Config, s: State, es: seq<Event>, i: nat, state: string)
    requires Inv(c, s) && Legal(c, s, es) && Spent(s, state)
    ensures !Accepts(c, s, es, i, state)
    decreases |es|
  {
    if i < |es| {
      StepOk(c, s, es[0]);
      if i > 0 {
        SpentNeverAccepted(c, Step(c, s, es[0]).0, es[1..], i - 1, state);
      }
    }
  }

  /** Each state is accepted at most once in a run. */
  lemma {:induction false} StateAcceptedOnce(c: Config, s: State, es: seq<Event>, i: nat, j: nat, state: string)
    requires Inv(c, s) && Legal(c, s, es)
    requires i < j && Accepts(c, s, es, i, state)
    ensures !Accepts(c, s, es, j, state)
    decreases |es|
  {
    if j < |es| {
      var s1 := Step(c, s, es[0]).0;
      StepOk(c, s, es[0]);
      if i == 0 {
        SpentNeverAccepted(c, s1, es[1..], j - 1, state);
      } else {
        StateAcceptedOnce(c, s1, es[1..], i - 1, j - 1, state);
      }
    }
  }

  predicate Starts(c: Config, e: Event, state: string, provider: string) {
    e.StartOAuth? && e.state == state && e.provider == provider && provider in c.providers
  }

  /** Every accepted callback answers an earlier start of the same run that issued its state, for the same
      provider, less than a state lifetime before. */
  lemma {:induction false} AcceptedStateWasStarted(c: Config, s: State, es: seq<Event>, i: nat, state: string)
    requires Inv(c, s) && Legal(c, s, es) && Accepts(c, s, es, i, state)
    ensures (exists k :: 0 <= k < i && Starts(c, es[k], state, es[i].cb.provider) && es[i].now < es[k].now + c.stateTtl)
      || (state in s.pending && s.pending[state].provider == es[i].cb.provider
          && es[i].now < s.pending[state].expiresAt)
    decreases |es|
  {
    if i > 0 {
      var s1, rest := Step(c, s, es[0]).0, es[1..];
      StepOk(c, s, es[0]);
      AcceptedStateWasStarted(c, s1, rest, i - 1, state);
      if k :| 0 <= k < i - 1 && Starts(c, rest[k], state, rest[i - 1].cb.provider)
                      && rest[i - 1].now < rest[k].now + c.stateTtl {
        assert rest[k] == es[k + 1];
      } else if state !in s.pending || s.pending[state] != s1.pending[state] {
        assert Starts(c, es[0], state, es[i].cb.provider);
      }
    }
  }

  /** Over a run from its start, each accepted login is caused by its own earlier start. */
  lemma LoginsAreCausedByStarts(c: Config, t0: int, es: seq<Event>, i: nat, state: string)
    requires Legal(c, Start(t0), es) && Accepts(c, Start(t0), es, i, state)
    ensures exists k :: 0 <= k < i && Starts(c, es[k], state, es[i].cb.provider) && es[i].now < es[k].now + c.stateTtl
    ensures forall j :: 0 <= j < |es| && j != i ==> !Accepts(c, Start(t0), es, j, state)
  {
    StartOk(c, t0);
    AcceptedStateWasStarted(c, Start(t0), es, i, state);
    forall j | 0 <= j < |es| && j != i ensures !Accepts(c, Start(t0), es, j, state) {
      if Accepts(c, Start(t0), es, j, state) {
        StateAcceptedOnce(c, Start(t0), es, if i < j then i else j, if i < j then j else i, state);
      }
    }
  }

  function StartCount(c: Config, es: seq<Event>): nat {
    if es == [] then 0
    else (if es[0].StartOAuth? && es[0].provider in c.providers then 1 else 0) + StartCount(c, es[1..])
  }

  /** Logins spend starts: sessions ever created and states still pending never outnumber the starts. */
  lemma {:induction false} SessionsNeverOutnumberStarts(c: Config, s: State, es: seq<Event>)
    requires Inv(c, s) && Legal(c, s, es)
    ensures var s' := Run(c, s, es);
      |s'.tokens.bySession.Keys| + |s'.pending.Keys| <= |s.tokens.bySession.Keys| + |s.pending.Keys| + StartCount(c, es)
    decreases |es|
  {
    if es != [] {
      StepOk(c, s, es[0]);
      StepSpendsStarts(c, s, es[0]);
      SessionsNeverOutnumberStarts(c, Step(c, s, es[0]).0, es[1..]);
    }
  }

  lemma StepSpendsStarts(c: Config, s: State, e: Event)
    requires Inv(c, s) && Enabled(s, e)
    ensures var s' := Step(c, s, e).0;
      |s'.tokens.bySession.Keys| + |s'.pending.Keys| <=
        |s.tokens.bySession.Keys| + |s.pending.Keys| + if e.StartOAuth? && e.provider in c.providers then 1 else 0
  {
    hide TokensOk, UsersOk, PendingOk, Enabled, Step;
    var s' := Step(c, s, e).0;
    var before, after := s.tokens.bySession.Keys, s'.tokens.bySession.Keys;
    SessionsStay(c, s, e);
    PendingSpent(c, s, e);
    if e.CompleteOAuth? && Step(c, s, e).1.Issued? {
      assert after <= before + {e.m.sessionId};
      assert |before + {e.m.sessionId}| <= |before| + 1;
      SubsetSize(after, before + {e.m.sessionId});
    } else {
      assert after == before;
    }
  }

  lemma PendingSpent(c: Config, s: State, e: Event)
    ensures var s' := Step(c, s, e).0;
      |s'.pending.Keys| +
      (if e.CompleteOAuth? && Step(c, s, e).1.Issued? then 1 else 0) <=
        |s.pending.Keys| + if e.StartOAuth? && e.provider in c.providers then 1 else 0
  {
    hide Login, Refresh, Logout, DeleteExpired;
    var s' := Step(c, s, e).0;
    if e.StartOAuth? && e.provider in c.providers {
      assert s'.pending.Keys == s.pending.Keys + {e.state};
    } else if e.CompleteOAuth? {
      assert s'.pending.Keys == s.pending.Keys - {e.cb.state};
    } else {
      assert s'.pending == s.pending;
    }
  }

  /** The service over a whole run from its start: at most as many sessions as starts. */
  lemma EverySessionWasStarted(c: Config, t0: int, es: seq<Event>)
    requires Legal(c, Start(t0), es)
    ensures |Run(c, Start(t0), es).tokens.bySession.Keys| <= StartCount(c, es)
  {
    StartOk(c, t0);
    SessionsNeverOutnumberStarts(c, Start(t0), es);
  }

  /** One stored user per provider profile. */
  lemma OneUserPerProfile(c: Config, s: State, a: Uuid, b: Uuid)
    requires Reachable(c, s) && a in s.users.byId && b in s.users.byId
    ensures s.users.byId[a].Key() == s.users.byId[b].Key() <==> a == b
    ensures FindByProvider(s.users, s.users.byId[a].provider, s.users.byId[a].providerUserId) == Some(s.users.byId[a])
  {
    ReachableOk(c, s);
  }

  lemma StepKeepsAccount(c: Config, s: State, e: Event, key: (string, string))
    requires Inv(c, s) && key in s.users.byProvider
    ensures key in Step(c, s, e).0.users.byProvider
    ensures Step(c, s, e).0.users.byProvider[key] == s.users.byProvider[key]
  {
    hide TokensOk, Refresh, Logout, DeleteExpired, Save;
  }

  /** A profile, once known, resolves to the same account for good. */
  lemma {:induction false} AccountsAreStable(c: Config, s: State, es: seq<Event>, key: (string, string))
    requires Inv(c, s) && Legal(c, s, es) && key in s.users.byProvider
    ensures key in Run(c, s, es).users.byProvider && Run(c, s, es).users.byProvider[key] == s.users.byProvider[key]
    decreases |es|
  {
    hide Inv, Step, Enabled;
    if es != [] {
      StepOk(c, s, es[0]);
      StepKeepsAccount(c, s, es[0], key);
      AccountsAreStable(c, Step(c, s, es[0]).0, es[1..], key);
    }
  }
}
