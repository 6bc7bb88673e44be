/** The mutable entities and in-memory repositories of the auth service.

    Tokens and users are heap objects shared by reference: a caller that mutates an entity it got from a
    repository changes what the repository holds.  Every method is specified by the value functions of
    `TokenStore` and `AuthStores` on the repository's `View()`.
 */
module AuthRepositories {
  import opened Prelude
  import opened TokenStore
  import opened AuthStores

  class RefreshToken {
    const id: Uuid
    const tokenHash: TokenHash
    const userId: Uuid
    const sessionId: Uuid
    const expiresAt: int
    const createdAt: int
    var usedAt: Option<int>
    var revokedAt: Option<int>
    var revokedReason: Option<string>
    var replacedById: Option<Uuid>

    function Rec(): Token
      reads this
    {
      Token(id, tokenHash, userId, sessionId, expiresAt, createdAt, usedAt, revokedAt, revokedReason, replacedById)
    }

    constructor Create(id: Uuid, raw: string, userId: Uuid, sessionId: Uuid, ttl: int, now: int)
      ensures Rec() == NewToken(id, raw, userId, sessionId, ttl, now)
    {
      this.id := id;
      this.tokenHash := Sha256(raw);
      this.userId := userId;
      this.sessionId := sessionId;
      this.expiresAt := now + ttl;
      this.createdAt := now;
      this.usedAt := None;
      this.revokedAt := None;
      this.revokedReason := None;
      this.replacedById := None;
    }

    method MarkUsed(successor: Uuid, now: int)
      modifies this
      ensures Rec() == old(Rec()).MarkUsed(successor, now)
    {
      usedAt := Some(now);
      replacedById := Some(successor);
    }

    method Revoke(reason: string, now: int)
      modifies this
      ensures Rec() == old(Rec()).Revoke(reason, now)
    {
      revokedAt := Some(now);
      revokedReason := Some(reason);
    }
  }

  class InMemoryRefreshTokenRepository {
    var byHash: map<TokenHash, RefreshToken>
    var bySession: map<Uuid, seq<TokenHash>>

    function View(): Store
      reads this, byHash.Values
    {
      Store(map h | h in byHash :: byHash[h].Rec(), bySession)
    }

    ghost predicate Valid()
      reads this, byHash.Values
    {
      IndexExact(View())
    }

    constructor ()
      ensures Valid() && View() == EMPTY && byHash == map[]
    {
      byHash, bySession := map[], map[];
    }

    method Save(token: RefreshToken)
      requires Valid()
      modifies this
      ensures Valid() <==> Saveable(old(View()), token.Rec())
      ensures View() == TokenStore.Save(old(View()), token.Rec())
      ensures byHash == old(byHash)[token.tokenHash := token]
    {
      ghost var st := View();
      byHash := byHash[token.tokenHash := token];
      var list := if token.sessionId in bySession then bySession[token.sessionId] else [];
      if token.tokenHash !in list {
        list := list + [token.tokenHash];
      }
      bySession := bySession[token.sessionId := list];
      assert View() == TokenStore.Save(st, token.Rec()) by {
        assert View().byHash == TokenStore.Save(st, token.Rec()).byHash;
      }
      SaveExactIff(st, token.Rec());
    }

    method FindByHash(hash: TokenHash) returns (r: Option<RefreshToken>)
      requires Valid()
      ensures r == if hash in byHash then Some(byHash[hash]) else None
      ensures r.Some? <==> hash in View().byHash
      ensures r.Some? ==> r.value.Rec() == View().byHash[hash] && r.value.tokenHash == hash
    {
      if hash in byHash {
        assert View().byHash[hash].hash == hash;
        r := Some(byHash[hash]);
      } else {
        r := None;
      }
    }

    method FindBySessionId(sid: Uuid) returns (r: seq<RefreshToken>)
      requires Valid()
      ensures |r| == |SessionList(View(), sid)|
      ensures forall i :: 0 <= i < |r| ==>
        SessionList(View(), sid)[i] in byHash && r[i] == byHash[SessionList(View(), sid)[i]]
      ensures forall h :: h in byHash && byHash[h].sessionId == sid ==> byHash[h] in r
    {
      var hashes := if sid in bySession then bySession[sid] else [];
      r := [];
      for i := 0 to |hashes|
        invariant |r| == i
        invariant forall j :: 0 <= j < i ==> hashes[j] in byHash && r[j] == byHash[hashes[j]]
      {
        assert hashes[i] in View().byHash;
        if hashes[i] in byHash {
          r := r + [byHash[hashes[i]]];
        }
      }
      forall h | h in byHash && byHash[h].sessionId == sid ensures byHash[h] in r {
        assert View().byHash[h].sessionId == sid;
        var j :| 0 <= j < |hashes| && hashes[j] == h;
        assert r[j] == byHash[h];
      }
    }

    method RevokeSession(sid: Uuid, reason: string, now: int) returns (revoked: nat)
      requires Valid()
      modifies byHash.Values
      ensures Valid()
      ensures View() == TokenStore.RevokeSession(old(View()), sid, reason, now)
      ensures revoked == |OpenHashes(old(View()), sid)|
    {
      hide IndexExact, RevokeIfOpen;
      ghost var st := View();
      var hashes := if sid in bySession then bySession[sid] else [];
      SessionFacts(sid);
      revoked := 0;
      ghost var done := {};
      for i := 0 to |hashes|
        invariant forall j :: 0 <= j < |hashes| ==> (hashes[j] in done <==> j < i)
        invariant forall h :: h in done ==> h in hashes
        invariant forall h :: h in byHash ==> byHash[h].Rec() == Swept(st, done, h, reason, now)
        invariant revoked == |OpenAmong(st, done)|
      {
        var token := byHash[hashes[i]];
        OpenGrows(st, done, hashes[i]);
        if token.revokedAt == None {
          token.Revoke(reason, now);
          revoked := revoked + 1;
        }
        done := done + {hashes[i]};
      }
      SweptAll(st, sid, done, reason, now);
      ViewIs(TokenStore.RevokeSession(st, sid, reason, now));
      RevokeSessionKeepsIndex(st, sid, reason, now);
    }

    lemma ViewIs(st: Store)
      requires bySession == st.bySession
      requires forall h :: h in byHash <==> h in st.byHash
      requires forall h :: h in byHash ==> byHash[h].Rec() == st.byHash[h]
      ensures View() == st
    {
      assert View().byHash == st.byHash;
    }

    lemma SessionFacts(sid: Uuid)
      requires Valid()
      ensures Distinct(SessionList(View(), sid))
      ensures forall h :: h in SessionList(View(), sid) ==> h in byHash
      ensures forall h :: h in byHash ==> byHash[h].tokenHash == h
    {
      forall h | h in byHash ensures byHash[h].tokenHash == h {
        assert View().byHash[h].hash == h;
      }
    }

    method DeleteExpired(now: int) returns (deleted: nat)
      requires Valid()
      modifies this
      ensures Valid()
      ensures View() == TokenStore.DeleteExpired(old(View()), now)
      ensures deleted == |ExpiredHashes(old(View()), now)|
    {
      hide IndexExact, Left;
      ghost var st := View();
      var owner := map h | h in byHash && byHash[h].expiresAt <= now :: byHash[h].sessionId;
      assert owner.Keys == ExpiredHashes(st, now);
      var lists;
      deleted, lists := Unlist(bySession, owner, st);
      LeftAll(st, now);
      assert lists == TokenStore.DeleteExpired(st, now).bySession;
      byHash, bySession := byHash - owner.Keys, lists;
      ViewIs(TokenStore.DeleteExpired(st, now));
      DeleteExpiredKeepsIndex(st, now);
    }

    /** The loop of `DeleteExpired`: takes each hash off the list of the session that owns it. */
    static method Unlist(bySession: map<Uuid, seq<TokenHash>>, owner: map<TokenHash, Uuid>, ghost st: Store)
      returns (deleted: nat, lists: map<Uuid, seq<TokenHash>>)
      requires IndexExact(st) && bySession == st.bySession
      requires forall h :: h in owner ==> h in st.byHash && st.byHash[h].sessionId == owner[h]
      ensures deleted == |owner.Keys|
      ensures forall sid :: sid in lists <==> sid in st.bySession
      ensures forall sid :: sid in lists ==> lists[sid] == Left(st, owner.Keys, sid)
    {
      hide IndexExact, Left;
      var todo := owner.Keys;
      deleted, lists := 0, bySession;
      LeftNone(st);
      assert owner.Keys - todo == {};
      while todo != {}
        invariant todo <= owner.Keys
        invariant forall sid :: sid in lists <==> sid in st.bySession
        invariant forall sid :: sid in lists ==> lists[sid] == Left(st, owner.Keys - todo, sid)
        invariant deleted + |todo| == |owner.Keys|
        decreases todo
      {
        var hash :| hash in todo;
        DropOne(st, owner.Keys - todo, hash);
        PutAside(owner.Keys, todo, hash);
        lists := lists[owner[hash] := RemoveHash(lists[owner[hash]], hash)];
        todo, deleted := todo - {hash}, deleted + 1;
      }
      assert owner.Keys - todo == owner.Keys;
    }
  }

  /** The token under `h` once the hashes in `done` have been swept. */
  ghost function Swept(st: Store, done: set<TokenHash>, h: TokenHash, reason: string, now: int): Token
    requires h in st.byHash
  {
    if h in done && !st.byHash[h].IsRevoked() then st.byHash[h].Revoke(reason, now) else st.byHash[h]
  }

  ghost function OpenAmong(st: Store, hashes: set<TokenHash>): set<TokenHash> {
    set h | h in hashes && h in st.byHash && !st.byHash[h].IsRevoked()
  }

  lemma OpenGrows(st: Store, done: set<TokenHash>, h: TokenHash)
    requires h in st.byHash && h !in done
    ensures |OpenAmong(st, done + {h})| == |OpenAmong(st, done)| + if st.byHash[h].IsRevoked() then 0 else 1
  {
    assert OpenAmong(st, done + {h}) == OpenAmong(st, done) + if st.byHash[h].IsRevoked() then {} else {h};
  }

  lemma SweptAll(st: Store, sid: Uuid, done: set<TokenHash>, reason: string, now: int)
    requires IndexExact(st) && forall h :: h in done <==> h in SessionList(st, sid)
    ensures forall h :: h in st.byHash ==>
      Swept(st, done, h, reason, now) == RevokeIfOpen(st.byHash[h], sid, reason, now)
    ensures OpenAmong(st, done) == OpenHashes(st, sid)
  {
    forall h | h in st.byHash ensures h in done <==> st.byHash[h].sessionId == sid {}
  }

  /** `list.remove`: drops the first occurrence, if any. */
  function RemoveHash(list: seq<TokenHash>, hash: TokenHash): seq<TokenHash> {
    if list == [] then []
    else if list[0] == hash then list[1..]
    else [list[0]] + RemoveHash(list[1..], hash)
  }

  lemma RemoveAbsent(list: seq<TokenHash>, hash: TokenHash)
    requires hash !in list
    ensures RemoveHash(list, hash) == list
  {
  }

  lemma {:induction false} RemoveRetained(list: seq<TokenHash>, keep: set<TokenHash>, hash: TokenHash)
    requires Distinct(list) && hash in keep
    ensures RemoveHash(Retain(list, keep), hash) == Retain(list, keep - {hash})
  {
    if list != [] {
      var rest := list[1..];
      assert forall i :: 0 <= i < |rest| ==> rest[i] == list[i + 1];
      RemoveRetained(rest, keep, hash);
      if list[0] in keep {
        var r := [list[0]] + Retain(rest, keep);
        assert r[1..] == Retain(rest, keep);
        if list[0] == hash {
          assert hash !in rest;
          RetainMembers(rest, keep);
          RemoveAbsent(Retain(rest, keep), hash);
        }
      }
    }
  }

  /** The list of a session once the hashes in `gone` have been deleted. */
  ghost function Left(st: Store, gone: set<TokenHash>, sid: Uuid): seq<TokenHash> {
    Retain(SessionList(st, sid), st.byHash.Keys - gone)
  }

  lemma PutAside<T>(all: set<T>, todo: set<T>, x: T)
    requires x in todo && todo <= all
    ensures all - (todo - {x}) == all - todo + {x}
  {
  }

  lemma LeftNone(st: Store)
    requires IndexExact(st)
    ensures forall sid :: sid in st.bySession ==> Left(st, {}, sid) == st.bySession[sid]
  {
    forall sid | sid in st.bySession ensures Left(st, {}, sid) == st.bySession[sid] {
      RetainAll(st.bySession[sid], st.byHash.Keys - {});
    }
  }

  lemma LeftAll(st: Store, now: int)
    ensures TokenStore.DeleteExpired(st, now).byHash == st.byHash - ExpiredHashes(st, now)
    ensures TokenStore.DeleteExpired(st, now).bySession ==
      map sid | sid in st.bySession :: Left(st, ExpiredHashes(st, now), sid)
  {
    assert st.byHash.Keys - ExpiredHashes(st, now) == (st.byHash - ExpiredHashes(st, now)).Keys;
  }

  /** Deleting one more token touches the list of its own session only. */
  lemma DropOne(st: Store, gone: set<TokenHash>, hash: TokenHash)
    requires IndexExact(st) && hash in st.byHash && hash !in gone
    ensures st.byHash[hash].sessionId in st.bySession
    ensures forall sid :: sid in st.bySession ==>
      Left(st, gone + {hash}, sid) ==
        if sid == st.byHash[hash].sessionId then RemoveHash(Left(st, gone, sid), hash) else Left(st, gone, sid)
  {
    forall sid | sid in st.bySession
      ensures Left(st, gone + {hash}, sid) ==
        if sid == st.byHash[hash].sessionId then RemoveHash(Left(st, gone, sid), hash) else Left(st, gone, sid)
    {
      DropFromList(st, gone, hash, sid);
    }
  }

  lemma DropFromList(st: Store, gone: set<TokenHash>, hash: TokenHash, sid: Uuid)
    requires IndexExact(st) && hash in st.byHash && hash !in gone && sid in st.bySession
    ensures Left(st, gone + {hash}, sid) ==
      if sid == st.byHash[hash].sessionId then RemoveHash(Left(st, gone, sid), hash) else Left(st, gone, sid)
  {
    var keep := st.byHash.Keys - gone;
    assert st.byHash.Keys - (gone + {hash}) == keep - {hash};
    RemoveRetained(st.bySession[sid], keep, hash);
    if sid != st.byHash[hash].sessionId {
      RetainMembers(st.bySession[sid], keep);
      RemoveAbsent(Retain(st.bySession[sid], keep), hash);
    }
  }

  class User {
    const id: Uuid
    const provider: string
    const providerUserId: string
    const email: string
    var isActive: bool
    var lastLoginAt: Option<int>

    function Rec(): UserRec
      reads this
    {
      UserRec(id, provider, providerUserId, email, isActive, lastLoginAt)
    }

    constructor Create(id: Uuid, provider: string, info: UserInfo, now: int)
      ensures Rec() == UserRec(id, provider, info.providerUserId, info.email, true, Some(now))
    {
      this.id := id;
      this.provider := provider;
      this.providerUserId := info.providerUserId;
      this.email := info.email;
      this.isActive := true;
      this.lastLoginAt := Some(now);
    }

    method RecordLogin(now: int)
      modifies this
      ensures Rec() == old(Rec()).(lastLoginAt := Some(now))
    {
      lastLoginAt := Some(now);
    }

    method Deactivate()
      modifies this
      ensures Rec() == old(Rec()).(isActive := false)
    {
      isActive := false;
    }
  }

  class InMemoryUserRepository {
    var byId: map<Uuid, User>
    var byProvider: map<(string, string), Uuid>

    function View(): Users
      reads this, byId.Values
    {
      Users(map id | id in byId :: byId[id].Rec(), byProvider)
    }

    ghost predicate Valid()
      reads this, byId.Values
    {
      UsersExact(View())
    }

    constructor ()
      ensures Valid() && View() == Users(map[], map[]) && byId == map[]
    {
      byId, byProvider := map[], map[];
    }

    lemma ViewIs(us: Users)
      requires byProvider == us.byProvider
      requires forall id :: id in byId <==> id in us.byId
      requires forall id :: id in byId ==> byId[id].Rec() == us.byId[id]
      ensures View() == us
    {
      assert View().byId == us.byId;
    }

    lemma OwnIds()
      requires Valid()
      ensures forall id :: id in byId ==> byId[id].id == id
    {
      forall id | id in byId ensures byId[id].id == id {
        assert View().byId[id].id == id;
      }
    }

    method FindById(id: Uuid) returns (r: Option<User>)
      ensures r == if id in byId then Some(byId[id]) else None
    {
      r := if id in byId then Some(byId[id]) else None;
    }

    method FindByProvider(provider: string, providerUserId: string) returns (r: Option<User>)
      requires Valid()
      ensures r.Some? <==> AuthStores.FindByProvider(View(), provider, providerUserId).Some?
      ensures r.Some? ==>
        && r.value.id in byId && byId[r.value.id] == r.value
        && r.value.Rec() == AuthStores.FindByProvider(View(), provider, providerUserId).value
    {
      var key := (provider, providerUserId);
      if key in byProvider && byProvider[key] in byId {
        assert View().byId[byProvider[key]].id == byProvider[key];
        r := Some(byId[byProvider[key]]);
      } else {
        r := None;
      }
    }

    method Save(user: User)
      modifies this
      ensures View() == SaveUser(old(View()), user.Rec())
      ensures byId == old(byId)[user.id := user]
    {
      byId := byId[user.id := user];
      byProvider := byProvider[(user.provider, user.providerUserId) := user.id];
      assert View().byId == SaveUser(old(View()), user.Rec()).byId;
    }
  }

  class InMemoryOAuthStateStore {
    const ttl: int
    var entries: map<string, StateEntry>

    constructor (ttl: int)
      ensures this.ttl == ttl && entries == map[]
    {
      this.ttl := ttl;
      entries := map[];
    }

    method Save(state: string, codeChallenge: TokenHash, codeVerifier: string, provider: string,
                redirectUri: Option<string>, now: int)
      modifies this
      ensures entries ==
        old(entries)[state := StateEntry(state, codeChallenge, codeVerifier, provider, redirectUri, now + ttl)]
    {
      entries := entries[state := StateEntry(state, codeChallenge, codeVerifier, provider, redirectUri, now + ttl)];
    }

    /** Removes the entry whether or not it is still valid; hands it out only before its expiry. */
    method Consume(state: string, now: int) returns (r: Option<StateEntry>)
      modifies this
      ensures entries == old(entries) - {state}
      ensures r.Some? <==> state in old(entries) && now < old(entries)[state].expiresAt
      ensures r.Some? ==> r.value == old(entries)[state]
    {
      r := None;
      if state in entries {
        var entry := entries[state];
        entries := entries - {state};
        if now < entry.expiresAt {
          r := Some(entry);
        }
      } else {
        assert entries == entries - {state};
      }
    }
  }
}
