/** A small valid configuration, and a run on it up to the first issued token set. */
module SampleRun {
  import opened Options
  import opened Text
  import opened Scopes
  import opened Clients
  import opened Policy
  import opened StoreTables
  import opened Protocol
  import opened ProtocolInvariants
  import opened ProtocolFrames
  import opened ProtocolTheorems

  const HASH := "$2a$" + "aaaaaaaaaaaaaaaaaaaaaaaaaaaaaaaaaaaaaaaaaaaaaaaaaaaaaaaa"
  const CALLBACK := "https://app/"
  const APP := Client("app", CONFIDENTIAL, "s", "", [], [], [], [], [CALLBACK], [], [], [User("u", HASH, "", "", [])])

  function SampleEnv(): Env {
    Env(ClientsFile([APP], []), u => "https://" <= u, v => v, _ => true, x => Some(x), (_, _) => true, SECOND, SECOND)
  }

  lemma SampleUser()
    ensures UsersOk(APP.users)
  {
    assert TrimLeft("u") == "u";
    assert |HASH| == 60 && "$2a$" <= HASH;
    assert UserOk(APP.users[0]);
  }

  lemma SampleClient()
    ensures ClientOk(APP, SampleEnv().urlOk)
  {
    SampleUser();
    hide UsersOk;
    assert TrimLeft("app") == "app";
    assert APP.Audience() == "app";
  }

  lemma SampleEnvIsGood()
    ensures GoodEnv(SampleEnv())
  {
    SampleClient();
    hide ClientOk;
  }

  const REQUEST := AuthorizeRequest("app", CALLBACK, "code", "", "", "", "")
  const LOGIN := AuthorizeEvent(REQUEST, "u", "p", "c", 0, 0)
  const REDEEM := CodeGrant(0, Credentials(None, "app", "s"), "c", CALLBACK, "", "f", 0, 0)
  const CTX := Ctx("u", "app", "", "f", [OPENID])

  lemma LoginWorks()
    ensures Authorize(SampleEnv(), REQUEST, "u", "p") == Some((APP, "u"))
    ensures AuthenticateClient(SampleEnv(), REDEEM.cr) == Some(APP)
    ensures SampleEnv().Find("app") == Some(APP)
  {
    assert Fields("") == [];
    assert ScopeAllowed(APP, OPENID);
  }

  lemma LoggedIn(env: Env) returns (s: Sys)
    requires env == SampleEnv()
    ensures Enabled(env, INIT, LOGIN) && Apply(env, INIT, LOGIN) == s
    ensures s.tables == EMPTY.(codes := map["c" := NewCode(REQUEST, "u", 0)])
    ensures s.drawn == {"c"} && s.clock == 0 && s.threads == map[]
  {
    hide SampleEnv, Authorize, NewCode;
    LoginWorks();
    s := DoAuthorize(env, INIT, REQUEST, "u", "p", "c", 0, 0);
  }

  /** Log in and redeem the code: one request of family "f" is in flight. */
  lemma CodeRedeemed(env: Env) returns (s: Sys)
    requires env == SampleEnv()
    ensures Reachable(env, s) && "f" in s.families && 0 in s.threads && Issuing(s.threads[0], "f")
    ensures s.threads == map[0 := Ready(CTX)] && s.drawn == {"c", "f"} && s.clock == 0 && s.tables.used == map[]
  {
    hide SampleEnv, Authorize, AuthenticateClient, ScopesAllowed, PkceParamsOk, Env.Find;
    LoginWorks();
    var s1 := LoggedIn(env);
    var code := NewCode(REQUEST, "u", 0);
    assert RedemptionOk(env, code, APP, CALLBACK, "");
    assert Enabled(env, s1, REDEEM);
    s := Apply(env, s1, REDEEM);
    assert TakeCode(s1.tables, "c", 0, 0).1 == Some(code);
    hide DoAuthorize, DoCodeGrant, TakeCode, RedemptionOk;
    var evs := [LOGIN, REDEEM];
    assert evs[1..] == [REDEEM] && [REDEEM][1..] == [];
    assert ValidRun(env, s, []) && After(env, s, []) == s;
    assert ValidRun(env, s1, [REDEEM]) && After(env, s1, [REDEEM]) == s;
    assert ValidRun(env, INIT, evs) && After(env, INIT, evs) == s;
  }

  // ----- the first token set -----

  const JTI := "j"
  const SIGN := Sign(0, JTI, 1)
  const REGISTER := Register(0)
  const STORE := StoreRefresh(0, "r", 1, 1)

  lemma SignedToken(env: Env) returns (s: Sys)
    requires env == SampleEnv()
    ensures Reachable(env, s) && "f" in s.families && s.clock == 1 && s.drawn == {"c", "f", JTI} && s.tables.used == map[]
    ensures s.threads.Keys == {0} && s.threads[0].Signed? && s.threads[0].ctx == CTX && s.threads[0].jti == JTI
    ensures var a := s.threads[0].access; a.family == "f" && a.sub == "u" && a.claimExp == SECOND && a.regExp == SECOND + 1
  {
    hide Reachable, SampleEnv, Env.Find, JoinScopes, UserRoles;
    LoginWorks();
    TokenLifetime();
    var s0 := CodeRedeemed(env);
    ReachableStep(env, s0, SIGN);
    s := DoSign(env, s0, 0, JTI, 1);
    assert Apply(env, s0, SIGN) == s;
    SignFrame(env, s0, 0, JTI, 1);
  }

  lemma TokenLifetime()
    ensures SampleEnv().accessTtl == SECOND
  {
  }

  /** Signed, registered and stored: the family has a refresh token and an access token. */
  lemma IssuedToken(env: Env) returns (s: Sys)
    requires env == SampleEnv()
    ensures Reachable(env, s) && "f" in s.families && s.clock == 1 && s.threads == map[]
    ensures JTI in s.issued && var a := s.issued[JTI]; a.family == "f" && a.claimExp == SECOND && a.regExp == SECOND + 1
    ensures JTI in s.tables.jtis && s.tables.jtis[JTI].family == "f"
    ensures "r" in s.tables.refresh && s.tables.refresh["r"] == NewEntry(env, CTX, 1) && s.tables.used == map[]
  {
    hide Reachable, SampleEnv;
    var s1 := SignedToken(env);
    ReachableStep(env, s1, REGISTER);
    var s2 := DoRegister(s1, 0);
    assert Apply(env, s1, REGISTER) == s2;
    ReachableStep(env, s2, STORE);
    s := DoStoreRefresh(env, s2, 0, "r", 1, 1);
    assert Apply(env, s2, STORE) == s;
  }
}
