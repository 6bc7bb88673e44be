/** Users and pending OAuth states as values: the user repository with its provider index, and the one-time
    state entries kept between the redirect and the callback. */
module AuthStores {
  import opened Prelude
  import opened TokenStore

  datatype UserRec = UserRec(
    id: Uuid,
    provider: string,
    providerUserId: string,
    email: string,
    isActive: bool,
    lastLoginAt: Option<int>)
  {
    function Key(): (string, string) { (provider, providerUserId) }
  }

  datatype Users = Users(byId: map<Uuid, UserRec>, byProvider: map<(string, string), Uuid>)

  function SaveUser(us: Users, u: UserRec): Users {
    Users(us.byId[u.id := u], us.byProvider[u.Key() := u.id])
  }

  function FindByProvider(us: Users, provider: string, providerUserId: string): Option<UserRec> {
    var key := (provider, providerUserId);
    if key in us.byProvider && us.byProvider[key] in us.byId then Some(us.byId[us.byProvider[key]]) else None
  }

  /** The provider index is the exact inverse of the id index. */
  ghost predicate UsersExact(us: Users) {
    && (forall id :: id in us.byId ==>
          && us.byId[id].id == id
          && us.byId[id].Key() in us.byProvider
          && us.byProvider[us.byId[id].Key()] == id)
    && (forall key :: key in us.byProvider ==>
          && us.byProvider[key] in us.byId
          && us.byId[us.byProvider[key]].Key() == key)
  }

  /** The S256 code challenge of a verifier. */
  function Challenge(codeVerifier: string): TokenHash { Sha256(codeVerifier) }

  datatype StateEntry = StateEntry(
    state: string,
    codeChallenge: TokenHash,
    codeVerifier: string,
    provider: string,
    redirectUri: Option<string>,
    expiresAt: int)

  /** The profile an OAuth provider returns for a code. */
  datatype UserInfo = UserInfo(providerUserId: string, email: string)
}
