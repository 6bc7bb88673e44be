/** The auth service over the flat document collection: it reads only what the collection answers, decides from
    that, and cannot be told from the service over the two-index store. */
module AuthFlat {
  import opened Prelude
  import opened TokenStore
  import opened AuthStores
  import opened AuthSpec
  import opened AuthInvariant
  import opened AuthTheorems

  // ---------------------------------------------------------------------------------------------
  // Each use case, call for call
  // ---------------------------------------------------------------------------------------------

  /** The repository calls a use case makes in a given state. */
  function Calls(c: Config, s: State, e: Event): seq<Request> {
    match e
    case CompleteOAuth(cb, m, now) =>
      var (s', reply) := Step(c, s, e);
      if reply.Issued? then [SaveToken(NewToken(m.tokenId, m.raw, reply.userId, m.sessionId, c.ttl, now))] else []
    case RefreshToken(raw, tokenId, newRaw, now) =>
      [FindByHash(Sha256(raw))] +
      (if Sha256(raw) !in s.tokens.byHash then []
       else
         var t := s.tokens.byHash[Sha256(raw)];
         if t.IsRevoked() then [RevokeFamily(t.sessionId, REUSE, now)]
         else if Step(c, s, e).1.Issued? then
           [SaveToken(NewToken(tokenId, newRaw, Step(c, s, e).1.userId, t.sessionId, c.ttl, now)),
            SaveToken(t.MarkUsed(tokenId, now).Revoke(ROTATED, now))]
         else [])
    case RevokeToken(raw, reason, now) =>
      LogoutCalls(s.tokens, raw, reason, now)
    case DeleteExpiredTokens(now) => [Sweep(now)]
    case _ => []
  }

  function LogoutCalls(st: Store, raw: string, reason: Option<string>, now: int): seq<Request> {
    var h := Sha256(raw);
    [FindByHash(h)] +
    if h in st.byHash && !st.byHash[h].IsRevoked()
    then [RevokeFamily(st.byHash[h].sessionId, LogoutReason(reason), now)] else []
  }

  function ApplyFlat(docs: DocumentSet, rs: seq<Request>): DocumentSet
    decreases |rs|
  {
    if rs == [] then docs else ApplyFlat(ServeFlat(docs, rs[0]).0, rs[1..])
  }

  lemma CallAgrees(st: Store, docs: DocumentSet, r: Request)
    requires Represents(st, docs) && Admissible(docs, r)
    ensures AdmissibleRun(docs, [r])
    ensures IndexedAnswers(st, [r], FlatAnswers(docs, [r]))
    ensures Represents(ServeIndexed(st, r).0, ApplyFlat(docs, [r]))
  {
    StoreStep(st, docs, r);
    var docs' := ServeFlat(docs, r).0;
    assert [r][1..] == [];
    assert ApplyFlat(docs', []) == docs' && AdmissibleRun(docs', []);
    StoresAgreeFrom(st, docs, [r]);
  }

  lemma CallsCompose(st: Store, docs: DocumentSet, r: Request, rs: seq<Request>)
    requires Represents(st, docs) && Admissible(docs, r)
    requires AdmissibleRun(ServeFlat(docs, r).0, rs)
    ensures AdmissibleRun(docs, [r] + rs)
    ensures IndexedAnswers(st, [r] + rs, FlatAnswers(docs, [r] + rs))
    ensures ApplyFlat(docs, [r] + rs) == ApplyFlat(ServeFlat(docs, r).0, rs)
  {
    assert ([r] + rs)[1..] == rs;
    StoresAgreeFrom(st, docs, [r] + rs);
  }

  lemma FreshIsAdmissible(c: Config, s: State, docs: DocumentSet, t: Token)
    requires TokensOk(c, s) && Represents(s.tokens, docs)
    requires t.id !in s.minted && t.hash.raw !in s.secrets
    ensures Admissible(docs, SaveToken(t))
  {
    forall d | d in docs ensures d.id in s.minted && d.hash.raw in s.secrets {
      assert Plausible(s.tokens.byHash[d.hash], c.ttl, s.clock, s.minted, s.secrets);
    }
  }

  lemma RotationAgrees(c: Config, s: State, docs: DocumentSet, t: Token, next: Token, now: int)
    requires TokensOk(c, s) && Represents(s.tokens, docs) && Rotatable(s.tokens, t, next)
    requires next.id !in s.minted && next.hash.raw !in s.secrets
    ensures var used := t.MarkUsed(next.id, now).Revoke(ROTATED, now);
      var calls := [SaveToken(next), SaveToken(used)];
      && AdmissibleRun(docs, calls)
      && IndexedAnswers(s.tokens, calls, FlatAnswers(docs, calls))
      && Represents(Save(Save(s.tokens, next), used), ApplyFlat(docs, calls))
  {
    var used := t.MarkUsed(next.id, now).Revoke(ROTATED, now);
    FreshIsAdmissible(c, s, docs, next);
    StoreStep(s.tokens, docs, SaveToken(next));
    var saved, docs' := Save(s.tokens, next), UpsertDocument(docs, next);
    UsedIsAdmissible(saved, docs', t, used);
    CallAgrees(saved, docs', SaveToken(used));
    CallsCompose(s.tokens, docs, SaveToken(next), [SaveToken(used)]);
    assert [SaveToken(next)] + [SaveToken(used)] == [SaveToken(next), SaveToken(used)];
  }

  lemma UsedIsAdmissible(st: Store, docs: DocumentSet, t: Token, used: Token)
    requires Represents(st, docs) && t.hash in st.byHash && st.byHash[t.hash] == t
    requires used.id == t.id && used.hash == t.hash && used.sessionId == t.sessionId
    ensures Admissible(docs, SaveToken(used))
  {
  }

  /** One use case over either store: the same documents remain, and every call was answered alike. */
  ghost predicate Agrees(c: Config, s: State, docs: DocumentSet, e: Event) {
    && AdmissibleRun(docs, Calls(c, s, e))
    && IndexedAnswers(s.tokens, Calls(c, s, e), FlatAnswers(docs, Calls(c, s, e)))
    && Represents(Step(c, s, e).0.tokens, ApplyFlat(docs, Calls(c, s, e)))
  }

  lemma UseCaseAgrees(c: Config, s: State, docs: DocumentSet, e: Event)
    requires Inv(c, s) && Enabled(s, e) && Represents(s.tokens, docs)
    ensures Agrees(c, s, docs, e)
  {
    hide Agrees, Represents, Enabled;
    match e {
      case CompleteOAuth(cb, m, now) => CallbackAgrees(c, s, docs, cb, m, now);
      case RefreshToken(raw, tokenId, newRaw, now) => RefreshAgrees(c, s, docs, raw, tokenId, newRaw, now);
      case RevokeToken(raw, reason, now) => LogoutAgrees(c, s, docs, raw, reason, now);
      case DeleteExpiredTokens(now) => SweepingAgrees(c, s, docs, now);
      case StartOAuth(_, _, _, _, _) => IdleAgrees(c, s, docs, e);
      case DeactivateUser(_, _) => IdleAgrees(c, s, docs, e);
    }
  }

  lemma IdleAgrees(c: Config, s: State, docs: DocumentSet, e: Event)
    requires Represents(s.tokens, docs) && (e.StartOAuth? || e.DeactivateUser?)
    ensures Agrees(c, s, docs, e)
  {
    hide Represents;
  }

  lemma SweepingAgrees(c: Config, s: State, docs: DocumentSet, now: int)
    requires Represents(s.tokens, docs)
    ensures Agrees(c, s, docs, DeleteExpiredTokens(now))
  {
    hide Represents, DeleteExpired;
    CallAgrees(s.tokens, docs, Sweep(now));
  }

  lemma CallbackAgrees(c: Config, s: State, docs: DocumentSet, cb: Callback, m: Minted, now: int)
    requires Inv(c, s) && Enabled(s, CompleteOAuth(cb, m, now)) && Represents(s.tokens, docs)
    ensures Agrees(c, s, docs, CompleteOAuth(cb, m, now))
  {
    hide Represents, IndexExact, ResolveUser, FindByProvider, Save;
    var reply := Step(c, s, CompleteOAuth(cb, m, now)).1;
    if reply.Issued? {
      var t := NewToken(m.tokenId, m.raw, reply.userId, m.sessionId, c.ttl, now);
      FreshIsAdmissible(c, s, docs, t);
      CallAgrees(s.tokens, docs, SaveToken(t));
    }
  }

  lemma LogoutAgrees(c: Config, s: State, docs: DocumentSet, raw: string, reason: Option<string>, now: int)
    requires Represents(s.tokens, docs)
    ensures Agrees(c, s, docs, RevokeToken(raw, reason, now))
  {
    hide Represents, IndexExact, RevokeSession;
    var find, h := FindByHash(Sha256(raw)), Sha256(raw);
    CallAgrees(s.tokens, docs, find);
    if h in s.tokens.byHash && !s.tokens.byHash[h].IsRevoked() {
      var revoke := RevokeFamily(s.tokens.byHash[h].sessionId, LogoutReason(reason), now);
      CallAgrees(s.tokens, docs, revoke);
      CallsCompose(s.tokens, docs, find, [revoke]);
    }
  }

  lemma RefreshAgrees(c: Config, s: State, docs: DocumentSet, raw: string, tokenId: Uuid, newRaw: string, now: int)
    requires Inv(c, s) && Enabled(s, RefreshToken(raw, tokenId, newRaw, now)) && Represents(s.tokens, docs)
    ensures Agrees(c, s, docs, RefreshToken(raw, tokenId, newRaw, now))
  {
    hide Represents, RevokeSession, Save, Chains;
    var find, h, e := FindByHash(Sha256(raw)), Sha256(raw), RefreshToken(raw, tokenId, newRaw, now);
    CallAgrees(s.tokens, docs, find);
    if h in s.tokens.byHash {
      var t := s.tokens.byHash[h];
      if t.IsRevoked() {
        var revoke := RevokeFamily(t.sessionId, REUSE, now);
        CallAgrees(s.tokens, docs, revoke);
        CallsCompose(s.tokens, docs, find, [revoke]);
      } else if Step(c, s, e).1.Issued? {
        var next := NewToken(tokenId, newRaw, t.userId, t.sessionId, c.ttl, now);
        RotationAgrees(c, s, docs, t, next, now);
        CallsCompose(s.tokens, docs, find,
          [SaveToken(next), SaveToken(t.MarkUsed(tokenId, now).Revoke(ROTATED, now))]);
      }
    }
  }

  // ---------------------------------------------------------------------------------------------
  // The service that only sees the flat collection
  // ---------------------------------------------------------------------------------------------

  datatype FlatState = FlatState(
    docs: DocumentSet,
    users: Users,
    pending: map<string, StateEntry>,
    clock: int,
    minted: set<Uuid>,
    secrets: set<string>)

  function FlatStart(t0: int): FlatState { FlatState({}, Users(map[], map[]), map[], t0, {}, {}) }

  /** `find_one`: some document that the query finds, if it finds any. */
  ghost function FindOne(docs: DocumentSet, h: TokenHash): Option<Token> {
    var found := ServeFlat(docs, FindByHash(h)).1.docs;
    if found == {} then None
    else
      var d :| d in found;
      Some(d)
  }

  ghost function FlatRefresh(ttl: int, docs: DocumentSet, us: Users, raw: string, tokenId: Uuid, newRaw: string,
                             now: int): (DocumentSet, Reply)
  {
    match FindOne(docs, Sha256(raw))
    case None => (docs, Rejected(RevokedTokenError))
    case Some(t) =>
      if t.IsRevoked() then
        (ServeFlat(docs, RevokeFamily(t.sessionId, REUSE, now)).0, Rejected(TokenFamilyCompromised(t.sessionId)))
      else if t.IsExpired(now) then (docs, Rejected(ExpiredTokenError))
      else if t.userId !in us.byId then (docs, Rejected(UserNotFound(t.userId)))
      else if !us.byId[t.userId].isActive then (docs, Rejected(UserInactive(us.byId[t.userId].id)))
      else (FlatRotate(ttl, docs, t, us.byId[t.userId].id, tokenId, newRaw, now),
            Issued(newRaw, us.byId[t.userId].id, t.sessionId))
  }

  function FlatRotate(ttl: int, docs: DocumentSet, t: Token, userId: Uuid, tokenId: Uuid, newRaw: string, now: int):
    DocumentSet
  {
    var saved := ServeFlat(docs, SaveToken(NewToken(tokenId, newRaw, userId, t.sessionId, ttl, now))).0;
    ServeFlat(saved, SaveToken(t.MarkUsed(tokenId, now).Revoke(ROTATED, now))).0
  }

  ghost function FlatLogout(docs: DocumentSet, raw: string, reason: Option<string>, now: int): DocumentSet {
    match FindOne(docs, Sha256(raw))
    case None => docs
    case Some(t) =>
      if t.IsRevoked() then docs else ServeFlat(docs, RevokeFamily(t.sessionId, LogoutReason(reason), now)).0
  }

  function FlatLogin(ttl: int, docs: DocumentSet, us: Users, provider: string, info: UserInfo, m: Minted, now: int):
    (DocumentSet, Users, Reply)
  {
    var (us', user) := ResolveUser(us, provider, info, m.userId, now);
    match user
    case None =>
      var id := match FindByProvider(us, provider, info.providerUserId) case Some(u) => u.id case None => m.userId;
      (docs, us, Rejected(UserInactive(id)))
    case Some(u) =>
      (ServeFlat(docs, SaveToken(NewToken(m.tokenId, m.raw, u.id, m.sessionId, ttl, now))).0, us',
       Issued(m.raw, u.id, m.sessionId))
  }

  ghost function FlatStep(c: Config, f: FlatState, e: Event): (FlatState, Reply) {
    var f := f.(clock := e.now);
    match e
    case StartOAuth(provider, state, verifier, redirect, now) =>
      if provider !in c.providers then (f, Rejected(ProviderUnknown))
      else
        var entry := StateEntry(state, Challenge(verifier), verifier, provider, redirect, now + c.stateTtl);
        (f.(pending := f.pending[state := entry], secrets := f.secrets + {state}),
         Redirect(state, Challenge(verifier), verifier))
    case CompleteOAuth(cb, m, now) =>
      var stored := Consume(f.pending, cb.state, now);
      var f := f.(pending := f.pending - {cb.state});
      var refused := CallbackError(c.providers, stored, cb);
      if refused.Some? then (f, Rejected(refused.value))
      else
        var (docs, users, reply) :=
          FlatLogin(c.ttl, f.docs, f.users, c.providers[cb.provider], cb.exchange.value, m, now);
        (f.(docs := docs, users := users,
            minted := f.minted + {m.userId, m.sessionId, m.tokenId}, secrets := f.secrets + {m.raw}), reply)
    case RefreshToken(raw, tokenId, newRaw, now) =>
      var (docs, reply) := FlatRefresh(c.ttl, f.docs, f.users, raw, tokenId, newRaw, now);
      (f.(docs := docs, minted := f.minted + {tokenId}, secrets := f.secrets + {newRaw}), reply)
    case RevokeToken(raw, reason, now) => (f.(docs := FlatLogout(f.docs, raw, reason, now)), Ack)
    case DeleteExpiredTokens(now) => (f.(docs := ServeFlat(f.docs, Sweep(now)).0), Ack)
    case DeactivateUser(id, _) =>
      (if id in f.users.byId
       then f.(users := f.users.(byId := f.users.byId[id := f.users.byId[id].(isActive := false)]))
       else f, Ack)
  }

  ghost function FlatRun(c: Config, f: FlatState, es: seq<Event>): (FlatState, seq<Reply>)
    decreases |es|
  {
    if es == [] then (f, [])
    else
      var (f', reply) := FlatStep(c, f, es[0]);
      var (end, replies) := FlatRun(c, f', es[1..]);
      (end, [reply] + replies)
  }

  function Replies(c: Config, s: State, es: seq<Event>): seq<Reply>
    decreases |es|
  {
    if es == [] then [] else [Step(c, s, es[0]).1] + Replies(c, Step(c, s, es[0]).0, es[1..])
  }

  /** The two services hold the same tokens, and everything else alike. */
  ghost predicate Mirrors(s: State, f: FlatState) {
    && Represents(s.tokens, f.docs)
    && f.users == s.users && f.pending == s.pending && f.clock == s.clock
    && f.minted == s.minted && f.secrets == s.secrets
  }

  lemma FindOneAgrees(st: Store, docs: DocumentSet, h: TokenHash)
    requires Represents(st, docs)
    ensures FindOne(docs, h) == if h in st.byHash then Some(st.byHash[h]) else None
  {
    if h in st.byHash {
      assert st.byHash[h] in docs;
      assert st.byHash[h] in ServeFlat(docs, FindByHash(h)).1.docs;
    }
  }

  lemma RotateMirrors(c: Config, s: State, docs: DocumentSet, t: Token, tokenId: Uuid, newRaw: string, now: int)
    requires TokensOk(c, s) && Represents(s.tokens, docs)
    requires Rotatable(s.tokens, t, NewToken(tokenId, newRaw, t.userId, t.sessionId, c.ttl, now))
    requires tokenId !in s.minted && newRaw !in s.secrets
    ensures Represents(Rotate(c.ttl, s.tokens, t, t.userId, tokenId, newRaw, now),
                       FlatRotate(c.ttl, docs, t, t.userId, tokenId, newRaw, now))
  {
    hide Represents, TokensOk, Rotatable, Save;
    var next := NewToken(tokenId, newRaw, t.userId, t.sessionId, c.ttl, now);
    RotationAgrees(c, s, docs, t, next, now);
    ApplyTwo(docs, SaveToken(next), SaveToken(t.MarkUsed(tokenId, now).Revoke(ROTATED, now)));
  }

  lemma ApplyTwo(docs: DocumentSet, a: Request, b: Request)
    ensures ApplyFlat(docs, [a, b]) == ServeFlat(ServeFlat(docs, a).0, b).0
  {
    assert [a, b][1..] == [b] && [b][1..] == [];
    assert ApplyFlat(ServeFlat(docs, a).0, [b]) == ApplyFlat(ServeFlat(ServeFlat(docs, a).0, b).0, []);
  }

  lemma RefreshMirrors(c: Config, s: State, docs: DocumentSet, raw: string, tokenId: Uuid, newRaw: string, now: int)
    requires Inv(c, s) && Enabled(s, RefreshToken(raw, tokenId, newRaw, now)) && Represents(s.tokens, docs)
    ensures var (tokens, reply) := Refresh(c.ttl, s.tokens, s.users, raw, tokenId, newRaw, now);
      var (docs', reply') := FlatRefresh(c.ttl, docs, s.users, raw, tokenId, newRaw, now);
      reply == reply' && Represents(tokens, docs')
  {
    hide Represents, RevokeSession, Save, Chains, FindOne, Rotate, FlatRotate;
    var h := Sha256(raw);
    FindOneAgrees(s.tokens, docs, h);
    if h in s.tokens.byHash {
      var t := s.tokens.byHash[h];
      if t.IsRevoked() {
        StoreStep(s.tokens, docs, RevokeFamily(t.sessionId, REUSE, now));
      } else if Refresh(c.ttl, s.tokens, s.users, raw, tokenId, newRaw, now).1.Issued? {
        RotateMirrors(c, s, docs, t, tokenId, newRaw, now);
      }
    }
  }

  lemma LogoutMirrors(st: Store, docs: DocumentSet, raw: string, reason: Option<string>, now: int)
    requires Represents(st, docs)
    ensures Represents(Logout(st, raw, reason, now), FlatLogout(docs, raw, reason, now))
  {
    hide Represents, RevokeSession, FindOne;
    var h := Sha256(raw);
    FindOneAgrees(st, docs, h);
    if h in st.byHash && !st.byHash[h].IsRevoked() {
      StoreStep(st, docs, RevokeFamily(st.byHash[h].sessionId, LogoutReason(reason), now));
    }
  }

  lemma LoginMirrors(c: Config, s: State, docs: DocumentSet, provider: string, info: UserInfo, m: Minted, now: int)
    requires TokensOk(c, s) && Represents(s.tokens, docs) && m.tokenId !in s.minted && m.raw !in s.secrets
    ensures var (tokens, users, reply) := Login(c.ttl, s.tokens, s.users, provider, info, m, now);
      var (docs', users', reply') := FlatLogin(c.ttl, docs, s.users, provider, info, m, now);
      reply == reply' && users == users' && Represents(tokens, docs')
  {
    hide Represents, TokensOk, ResolveUser, FindByProvider, Save;
    var user := ResolveUser(s.users, provider, info, m.userId, now).1;
    if user.Some? {
      var t := NewToken(m.tokenId, m.raw, user.value.id, m.sessionId, c.ttl, now);
      FreshIsAdmissible(c, s, docs, t);
      StoreStep(s.tokens, docs, SaveToken(t));
    }
  }

  /** One event gets the same reply from both services and leaves them alike. */
  lemma FlatStepAgrees(c: Config, s: State, f: FlatState, e: Event)
    requires Inv(c, s) && Enabled(s, e) && Mirrors(s, f)
    ensures Mirrors(Step(c, s, e).0, FlatStep(c, f, e).0)
    ensures Step(c, s, e).1 == FlatStep(c, f, e).1
  {
    hide Represents, IndexExact, Chains, IdsIdentify, UsersOk, PendingOk, Refresh, FlatRefresh, Logout, FlatLogout,
         Login, FlatLogin, DeleteExpired;
    match e {
      case CompleteOAuth(cb, m, now) =>
        if CallbackError(c.providers, Consume(s.pending, cb.state, now), cb).None? {
          LoginMirrors(c, s, f.docs, c.providers[cb.provider], cb.exchange.value, m, now);
        }
      case RefreshToken(raw, tokenId, newRaw, now) => RefreshMirrors(c, s, f.docs, raw, tokenId, newRaw, now);
      case RevokeToken(raw, reason, now) => LogoutMirrors(s.tokens, f.docs, raw, reason, now);
      case DeleteExpiredTokens(now) => StoreStep(s.tokens, f.docs, Sweep(now));
      case StartOAuth(_, _, _, _, _) =>
      case DeactivateUser(_, _) =>
    }
  }

  lemma {:induction false} FlatRunAgrees(c: Config, s: State, f: FlatState, es: seq<Event>)
    requires Inv(c, s) && Legal(c, s, es) && Mirrors(s, f)
    ensures Mirrors(Run(c, s, es), FlatRun(c, f, es).0)
    ensures Replies(c, s, es) == FlatRun(c, f, es).1
    decreases |es|
  {
    hide Inv, Enabled, Step, FlatStep, Mirrors;
    if es != [] {
      StepOk(c, s, es[0]);
      FlatStepAgrees(c, s, f, es[0]);
      FlatRunAgrees(c, Step(c, s, es[0]).0, FlatStep(c, f, es[0]).0, es[1..]);
    }
  }

  /** Over every run from the start, the service that sees only the flat collection gives reply for reply what the
      service over the two-index store gives, and holds exactly the same tokens. */
  lemma FlatServiceAgrees(c: Config, t0: int, es: seq<Event>)
    requires Legal(c, Start(t0), es)
    ensures Replies(c, Start(t0), es) == FlatRun(c, FlatStart(t0), es).1
    ensures Mirrors(Run(c, Start(t0), es), FlatRun(c, FlatStart(t0), es).0)
  {
    hide Inv, Step, FlatStep, Legal, Run, FlatRun, Replies;
    StartOk(c, t0);
    FlatRunAgrees(c, Start(t0), FlatStart(t0), es);
  }
}
