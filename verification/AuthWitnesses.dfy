/** Runs in which a superseded token escapes: swept before it is presented, or presented to log out. */
module AuthWitnesses {
  import opened Prelude
  import opened TokenStore
  import opened AuthStores
  import opened AuthSpec
  import opened AuthInvariant
  import opened AuthTheorems

  /** Tokens that live for 10, states for 5, and one provider. */
  function Demo(): Config { Config(10, 5, map["p" := "p"]) }

  lemma {:induction false} RunMore(c: Config, s: State, es: seq<Event>, e: Event)
    requires Legal(c, s, es) && Enabled(Run(c, s, es), e)
    ensures Legal(c, s, es + [e]) && Run(c, s, es + [e]) == Step(c, Run(c, s, es), e).0
    decreases |es|
  {
    hide Enabled, Step;
    if es == [] {
      assert [] + [e] == [e] && [e][1..] == [];
      assert Legal(c, Step(c, s, e).0, []) && Run(c, Step(c, s, e).0, []) == Step(c, s, e).0;
    } else {
      RunMore(c, Step(c, s, es[0]).0, es[1..], e);
      assert (es + [e])[1..] == es[1..] + [e];
    }
  }

  /** Login at 1 with token "a", refresh at 2 to token "b". */
  lemma RotatedFamily() returns (es: seq<Event>)
    ensures Legal(Demo(), Start(0), es)
    ensures var s := Run(Demo(), Start(0), es);
      && s.clock == 2 && s.minted == {1, 2, 3, 4} && s.secrets == {"x", "a", "b"}
      && Sha256("a") in s.tokens.byHash && Sha256("b") in s.tokens.byHash
      && var a, b := s.tokens.byHash[Sha256("a")], s.tokens.byHash[Sha256("b")];
      && a.IsRevoked() && a.expiresAt == 11 && a.sessionId == 2
      && !b.IsRevoked() && b.expiresAt == 12 && b.sessionId == 2
  {
    hide Legal, Run;
    var c, s0 := Demo(), Start(0);
    var e1 := StartOAuth("p", "x", "v", None, 0);
    var e2 := CompleteOAuth(Callback("p", "x", "", Some(UserInfo("u", "u@example.org"))), Minted(1, 2, 3, "a"), 1);
    var e3 := RefreshToken("a", 4, "b", 2);
    Nothing(c, s0);
    RunMore(c, s0, [], e1);
    var s1 := Step(c, s0, e1).0;
    assert s1.pending == map["x" := StateEntry("x", Challenge("v"), "v", "p", None, 5)] && s1.secrets == {"x"};
    RunMore(c, s0, [] + [e1], e2);
    LoggedIn(s1, e2);
    RunMore(c, s0, [] + [e1] + [e2], e3);
    Refreshed(Step(c, s1, e2).0, e3);
    es := [] + [e1] + [e2] + [e3];
  }

  lemma Nothing(c: Config, s: State)
    ensures Legal(c, s, []) && Run(c, s, []) == s
  {
  }

  lemma LoggedIn(s: State, e: Event)
    requires s == Start(0).(pending := map["x" := StateEntry("x", Challenge("v"), "v", "p", None, 5)], secrets := {"x"})
    requires e == CompleteOAuth(Callback("p", "x", "", Some(UserInfo("u", "u@example.org"))), Minted(1, 2, 3, "a"), 1)
    ensures var s' := Step(Demo(), s, e).0;
      && s'.clock == 1 && s'.minted == {1, 2, 3} && s'.secrets == {"x", "a"}
      && s'.tokens.byHash == map[Sha256("a") := NewToken(3, "a", 1, 2, 10, 1)]
      && 1 in s'.users.byId && s'.users.byId[1].isActive && s'.users.byId[1].id == 1
  {
  }

  lemma Refreshed(s: State, e: Event)
    requires s.tokens.byHash == map[Sha256("a") := NewToken(3, "a", 1, 2, 10, 1)]
    requires 1 in s.users.byId && s.users.byId[1].isActive && s.users.byId[1].id == 1
    requires e == RefreshToken("a", 4, "b", 2)
    ensures var byHash := Step(Demo(), s, e).0.tokens.byHash;
      && Sha256("a") in byHash && Sha256("b") in byHash
      && byHash[Sha256("a")] == NewToken(3, "a", 1, 2, 10, 1).MarkUsed(4, 2).Revoke(ROTATED, 2)
      && byHash[Sha256("b")] == NewToken(4, "b", 1, 2, 10, 2)
  {
  }

  /** A legal run that sweeps a superseded token while its successor is live: presenting it is not recognised as
      reuse, and the session lives on. */
  lemma ReuseMissedAfterSweep() returns (es: seq<Event>)
    ensures Legal(Demo(), Start(0), es)
    ensures var s := Run(Demo(), Start(0), es);
      var (s', reply) := Step(Demo(), s, RefreshToken("a", 5, "c", 11));
      && Enabled(s, RefreshToken("a", 5, "c", 11))
      && reply == Rejected(RevokedTokenError) && s'.tokens == s.tokens
      && Sha256("b") in OpenHashes(s'.tokens, 2)
  {
    var first := RotatedFamily();
    var s := Run(Demo(), Start(0), first);
    hide Run, Legal;
    var sweep := DeleteExpiredTokens(11);
    RunMore(Demo(), Start(0), first, sweep);
    es := first + [sweep];
  }

  /** A legal run that leaves a live session, and a superseded token of it whose logout changes nothing. */
  lemma LogoutWithSupersededToken() returns (es: seq<Event>)
    ensures Legal(Demo(), Start(0), es)
    ensures var s := Run(Demo(), Start(0), es);
      && Enabled(s, RevokeToken("a", None, 3)) && Sha256("a") in s.tokens.byHash
      && s.tokens.byHash[Sha256("a")].sessionId == 2
      && Sha256("b") in OpenHashes(s.tokens, 2)
      && Step(Demo(), s, RevokeToken("a", None, 3)).0.tokens == s.tokens
  {
    es := RotatedFamily();
  }
}
