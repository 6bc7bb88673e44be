/** Refresh-token entity and the two stores that hold it, as values.

    `Store` mirrors the in-memory repository: a hash map of tokens and, per session, the list of hashes in
    order of insertion.  `DocumentSet` mirrors the MongoDB collection: a flat set of documents that every
    query scans.  The last part of the module shows that no caller can tell the two apart.
 */
module TokenStore {
  import opened Prelude

  type Uuid = nat

  /** SHA-256 is taken to be injective, so a hash is its preimage behind a constructor. */
  datatype TokenHash = Sha256(raw: string)

  datatype Token = Token(
    id: Uuid,
    hash: TokenHash,
    userId: Uuid,
    sessionId: Uuid,
    expiresAt: int,
    createdAt: int,
    usedAt: Option<int>,
    revokedAt: Option<int>,
    revokedReason: Option<string>,
    replacedById: Option<Uuid>)
  {
    predicate IsRevoked() { revokedAt.Some? }

    predicate IsExpired(now: int) { expiresAt <= now }

    function MarkUsed(successor: Uuid, now: int): Token {
      this.(usedAt := Some(now), replacedById := Some(successor))
    }

    function Revoke(reason: string, now: int): Token {
      this.(revokedAt := Some(now), revokedReason := Some(reason))
    }
  }

  function NewToken(id: Uuid, raw: string, userId: Uuid, sessionId: Uuid, ttl: int, now: int): Token {
    Token(id, Sha256(raw), userId, sessionId, now + ttl, now, None, None, None, None)
  }

  // ---------------------------------------------------------------------------------------------
  // The two-index store
  // ---------------------------------------------------------------------------------------------

  datatype Store = Store(byHash: map<TokenHash, Token>, bySession: map<Uuid, seq<TokenHash>>)

  const EMPTY := Store(map[], map[])

  function SessionList(st: Store, sid: Uuid): seq<TokenHash> {
    if sid in st.bySession then st.bySession[sid] else []
  }

  function Save(st: Store, t: Token): Store {
    var list := SessionList(st, t.sessionId);
    Store(st.byHash[t.hash := t],
          st.bySession[t.sessionId := if t.hash in list then list else list + [t.hash]])
  }

  predicate Revocable(t: Token, sid: Uuid) {
    t.sessionId == sid && !t.IsRevoked()
  }

  function RevokeIfOpen(t: Token, sid: Uuid, reason: string, now: int): Token {
    if Revocable(t, sid) then t.Revoke(reason, now) else t
  }

  /** Every unrevoked token of the session, found by a scan of the whole store, is revoked. */
  function RevokeSession(st: Store, sid: Uuid, reason: string, now: int): Store {
    st.(byHash := map h | h in st.byHash :: RevokeIfOpen(st.byHash[h], sid, reason, now))
  }

  function OpenHashes(st: Store, sid: Uuid): set<TokenHash> {
    set h | h in st.byHash && Revocable(st.byHash[h], sid)
  }

  function ExpiredHashes(st: Store, now: int): set<TokenHash> {
    set h | h in st.byHash && st.byHash[h].IsExpired(now)
  }

  function DeleteExpired(st: Store, now: int): Store {
    var kept := st.byHash - ExpiredHashes(st, now);
    Store(kept, map sid | sid in st.bySession :: Retain(st.bySession[sid], kept.Keys))
  }

  /** The session index lists exactly the stored hashes of each session, once each. */
  ghost predicate IndexExact(st: Store) {
    && (forall h :: h in st.byHash ==>
          && st.byHash[h].hash == h
          && st.byHash[h].sessionId in st.bySession
          && h in st.bySession[st.byHash[h].sessionId])
    && (forall sid :: sid in st.bySession ==>
          && Distinct(st.bySession[sid])
          && forall h :: h in st.bySession[sid] ==> h in st.byHash && st.byHash[h].sessionId == sid)
  }

  /** A token may be stored under a hash only if it does not move an already stored hash to another session. */
  ghost predicate Saveable(st: Store, t: Token) {
    t.hash in st.byHash ==> st.byHash[t.hash].sessionId == t.sessionId
  }

  lemma SaveKeepsIndex(st: Store, t: Token)
    requires IndexExact(st) && Saveable(st, t)
    ensures IndexExact(Save(st, t))
  {
    var list := SessionList(st, t.sessionId);
    if t.hash !in list {
      assert Distinct(list + [t.hash]);
    }
  }

  /** Saving keeps the session lists exact exactly if it does not move a stored hash to another session: the code
      would leave that hash in its old list. */
  lemma SaveExactIff(st: Store, t: Token)
    requires IndexExact(st)
    ensures IndexExact(Save(st, t)) <==> Saveable(st, t)
  {
    if Saveable(st, t) {
      SaveKeepsIndex(st, t);
    } else {
      var sid := st.byHash[t.hash].sessionId;
      assert t.hash in Save(st, t).bySession[sid];
    }
  }

  lemma RevokeSessionKeepsIndex(st: Store, sid: Uuid, reason: string, now: int)
    requires IndexExact(st)
    ensures IndexExact(RevokeSession(st, sid, reason, now))
  {
  }

  lemma DeleteExpiredKeepsIndex(st: Store, now: int)
    requires IndexExact(st)
    ensures IndexExact(DeleteExpired(st, now))
  {
    var kept := st.byHash - ExpiredHashes(st, now);
    forall sid | sid in st.bySession
      ensures Distinct(Retain(st.bySession[sid], kept.Keys))
      ensures forall h :: h in Retain(st.bySession[sid], kept.Keys) <==> h in st.bySession[sid] && h in kept
    {
      RetainDistinct(st.bySession[sid], kept.Keys);
      RetainMembers(st.bySession[sid], kept.Keys);
    }
  }

  // ---------------------------------------------------------------------------------------------
  // The flat document set
  // ---------------------------------------------------------------------------------------------

  type DocumentSet = set<Token>

  function UpsertDocument(docs: DocumentSet, t: Token): DocumentSet {
    (set d | d in docs && d.id != t.id) + {t}
  }

  function UpdateSession(docs: DocumentSet, sid: Uuid, reason: string, now: int): DocumentSet {
    set d | d in docs :: RevokeIfOpen(d, sid, reason, now)
  }

  function DropExpired(docs: DocumentSet, now: int): DocumentSet {
    set d | d in docs && !d.IsExpired(now)
  }

  /** Token ids identify stored tokens, as the primary key of the collection demands. */
  ghost predicate IdsIdentify(st: Store) {
    forall h, k :: h in st.byHash && k in st.byHash && st.byHash[h].id == st.byHash[k].id ==> h == k
  }

  datatype Request =
    | SaveToken(t: Token)
    | FindByHash(hash: TokenHash)
    | FindBySession(sid: Uuid)
    | RevokeFamily(sid: Uuid, reason: string, now: int)
    | Sweep(now: int)

  datatype Answer = Done | Found(docs: set<Token>) | Count(n: nat)

  /** What the in-memory repository does with a request. */
  function ServeIndexed(st: Store, r: Request): (Store, Answer)
    requires r.FindBySession? ==> forall h :: h in SessionList(st, r.sid) ==> h in st.byHash
  {
    match r
    case SaveToken(t) => (Save(st, t), Done)
    case FindByHash(h) => (st, Found(if h in st.byHash then {st.byHash[h]} else {}))
    case FindBySession(sid) => (st, Found(set h | h in SessionList(st, sid) :: st.byHash[h]))
    case RevokeFamily(sid, reason, now) => (RevokeSession(st, sid, reason, now), Count(|OpenHashes(st, sid)|))
    case Sweep(now) => (DeleteExpired(st, now), Count(|ExpiredHashes(st, now)|))
  }

  /** What the MongoDB repository does with a request. */
  function ServeFlat(docs: DocumentSet, r: Request): (DocumentSet, Answer) {
    match r
    case SaveToken(t) => (UpsertDocument(docs, t), Done)
    case FindByHash(h) => (docs, Found(set d | d in docs && d.hash == h))
    case FindBySession(sid) => (docs, Found(set d | d in docs && d.sessionId == sid))
    case RevokeFamily(sid, reason, now) =>
      (UpdateSession(docs, sid, reason, now), Count(|set d | d in docs && Revocable(d, sid)|))
    case Sweep(now) => (DropExpired(docs, now), Count(|set d | d in docs && d.IsExpired(now)|))
  }

  /** Saving replaces the document with the same id; id, hash and session of a stored token never change. */
  ghost predicate Admissible(docs: DocumentSet, r: Request) {
    r.SaveToken? ==>
      forall d :: d in docs && (d.id == r.t.id || d.hash == r.t.hash) ==>
                    d.id == r.t.id && d.hash == r.t.hash && d.sessionId == r.t.sessionId
  }

  ghost predicate Represents(st: Store, docs: DocumentSet) {
    && IndexExact(st) && IdsIdentify(st)
    && (forall d :: d in docs <==> d.hash in st.byHash && st.byHash[d.hash] == d)
  }

  /** Hashes and documents selected by the same test are equally many. */
  lemma {:induction false} SameCount(st: Store, hs: set<TokenHash>, ds: set<Token>)
    requires IndexExact(st)
    requires forall h :: h in hs ==> h in st.byHash && st.byHash[h] in ds
    requires forall d :: d in ds ==> d.hash in hs && st.byHash[d.hash] == d
    ensures |hs| == |ds|
    decreases hs
  {
    if h :| h in hs {
      SameCount(st, hs - {h}, ds - {st.byHash[h]});
    } else {
      assert ds == {};
    }
  }

  lemma SaveAgrees(st: Store, docs: DocumentSet, t: Token)
    requires Represents(st, docs) && Admissible(docs, SaveToken(t))
    ensures Represents(Save(st, t), UpsertDocument(docs, t))
  {
    assert t.hash in st.byHash ==> st.byHash[t.hash] in docs;
    SaveKeepsIndex(st, t);
    forall h | h in st.byHash ensures st.byHash[h] in docs {}
  }

  lemma FindBySessionAgrees(st: Store, docs: DocumentSet, sid: Uuid)
    requires Represents(st, docs)
    ensures (set h | h in SessionList(st, sid) :: st.byHash[h]) == set d | d in docs && d.sessionId == sid
  {
    forall d | d in docs && d.sessionId == sid ensures d.hash in SessionList(st, sid) {}
  }

  lemma RevokeFamilyAgrees(st: Store, docs: DocumentSet, sid: Uuid, reason: string, now: int)
    requires Represents(st, docs)
    ensures Represents(RevokeSession(st, sid, reason, now), UpdateSession(docs, sid, reason, now))
    ensures |OpenHashes(st, sid)| == |set d | d in docs && Revocable(d, sid)|
  {
    RevokeSessionKeepsIndex(st, sid, reason, now);
    UpdatedDocuments(st, docs, sid, reason, now);
    SameCount(st, OpenHashes(st, sid), set d | d in docs && Revocable(d, sid));
  }

  lemma UpdatedDocuments(st: Store, docs: DocumentSet, sid: Uuid, reason: string, now: int)
    requires Represents(st, docs)
    ensures forall d :: d in UpdateSession(docs, sid, reason, now) <==>
      d.hash in st.byHash && RevokeIfOpen(st.byHash[d.hash], sid, reason, now) == d
  {
    forall d | d in UpdateSession(docs, sid, reason, now)
      ensures d.hash in st.byHash && RevokeIfOpen(st.byHash[d.hash], sid, reason, now) == d
    {
      var e :| e in docs && RevokeIfOpen(e, sid, reason, now) == d;
      assert e.hash == d.hash;
    }
    forall d: Token | d.hash in st.byHash && RevokeIfOpen(st.byHash[d.hash], sid, reason, now) == d
      ensures d in UpdateSession(docs, sid, reason, now)
    {
      assert st.byHash[d.hash] in docs;
    }
  }

  lemma SweepAgrees(st: Store, docs: DocumentSet, now: int)
    requires Represents(st, docs)
    ensures Represents(DeleteExpired(st, now), DropExpired(docs, now))
    ensures |ExpiredHashes(st, now)| == |set d | d in docs && d.IsExpired(now)|
  {
    DeleteExpiredKeepsIndex(st, now);
    SameCount(st, ExpiredHashes(st, now), set d | d in docs && d.IsExpired(now));
  }

  lemma StoreStep(st: Store, docs: DocumentSet, r: Request)
    requires Represents(st, docs) && Admissible(docs, r)
    ensures Represents(ServeIndexed(st, r).0, ServeFlat(docs, r).0)
    ensures ServeIndexed(st, r).1 == ServeFlat(docs, r).1
  {
    match r {
      case SaveToken(t) => SaveAgrees(st, docs, t);
      case FindByHash(h) =>
      case FindBySession(sid) => FindBySessionAgrees(st, docs, sid);
      case RevokeFamily(sid, reason, now) => RevokeFamilyAgrees(st, docs, sid, reason, now);
      case Sweep(now) => SweepAgrees(st, docs, now);
    }
  }

  ghost predicate AdmissibleRun(docs: DocumentSet, rs: seq<Request>)
    decreases |rs|
  {
    rs == [] || (Admissible(docs, rs[0]) && AdmissibleRun(ServeFlat(docs, rs[0]).0, rs[1..]))
  }

  function FlatAnswers(docs: DocumentSet, rs: seq<Request>): seq<Answer>
    decreases |rs|
  {
    if rs == [] then [] else [ServeFlat(docs, rs[0]).1] + FlatAnswers(ServeFlat(docs, rs[0]).0, rs[1..])
  }

  ghost predicate IndexedAnswers(st: Store, rs: seq<Request>, answers: seq<Answer>)
    decreases |rs|
  {
    if rs == [] then answers == []
    else
      && answers != []
      && IndexExact(st)
      && answers[0] == ServeIndexed(st, rs[0]).1
      && IndexedAnswers(ServeIndexed(st, rs[0]).0, rs[1..], answers[1..])
  }

  /** Main result of this module: over every run of repository calls, started empty, the two-index store gives
      exactly the answers of the flat document set. */
  lemma StoresAgreeOnEveryRun(rs: seq<Request>)
    requires AdmissibleRun({}, rs)
    ensures IndexedAnswers(EMPTY, rs, FlatAnswers({}, rs))
  {
    StoresAgreeFrom(EMPTY, {}, rs);
  }

  lemma {:induction false} StoresAgreeFrom(st: Store, docs: DocumentSet, rs: seq<Request>)
    requires Represents(st, docs) && AdmissibleRun(docs, rs)
    ensures IndexedAnswers(st, rs, FlatAnswers(docs, rs))
    decreases |rs|
  {
    if rs != [] {
      StoreStep(st, docs, rs[0]);
      StoresAgreeFrom(ServeIndexed(st, rs[0]).0, ServeFlat(docs, rs[0]).0, rs[1..]);
      assert FlatAnswers(docs, rs)[1..] == FlatAnswers(ServeFlat(docs, rs[0]).0, rs[1..]);
    }
  }
}
