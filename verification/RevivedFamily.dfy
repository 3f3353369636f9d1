/**
 Revocation without the in-flight condition is not final.  The run: a client refreshes, and before its
 new refresh token is stored somebody presents the old one again.  The replay is noticed and revokes
 the family, and the refresh then stores a token of the family just revoked.
 */
module RevivedFamily {
  import opened Policy
  import opened StoreTables
  import opened Protocol
  import opened ProtocolInvariants
  import opened ProtocolFrames
  import opened ProtocolTheorems
  import opened Finality
  import opened SampleRun

  const REFRESH := RefreshGrant(2, REDEEM.cr, "r", 1, 1)
  const REPLAY := RefreshGrant(3, REDEEM.cr, "r", 1, 1)

  lemma LiveAtOne(env: Env)
    requires env == SampleEnv()
    ensures 1 <= NewEntry(env, CTX, 1).expiresAt && NewEntry(env, CTX, 1).clientId == APP.clientId
  {
  }

  /** The client has presented its refresh token; its request is in flight. */
  lemma Refreshing(env: Env) returns (s: Sys)
    requires env == SampleEnv()
    ensures Reachable(env, s) && "f" in s.families && s.clock == 1 && s.threads == map[2 := Ready(CTX)]
    ensures "r" in s.tables.used && s.tables.used["r"] == NewEntry(env, CTX, 1)
  {
    hide Reachable, SampleEnv, AuthenticateClient, NewEntry;
    LoginWorks();
    LiveAtOne(env);
    var s1 := IssuedToken(env);
    ReachableStep(env, s1, REFRESH);
    assert TakeRefresh(s1.tables, "r", 1, 1).1 == Redeemed(NewEntry(env, CTX, 1));
    RefreshGrantFrame(env, s1, 2, REDEEM.cr, "r", 1, 1);
    s := DoRefreshGrant(env, s1, 2, REDEEM.cr, "r", 1, 1);
    assert Apply(env, s1, REFRESH) == s;
    EntryContext(env);
  }

  lemma EntryContext(env: Env)
    ensures EntryCtx(NewEntry(env, CTX, 1)) == CTX
  {
  }

  /** Presenting the old token again is reported as reuse and revokes the family. */
  lemma ReplayRevokes(env: Env, s: Sys)
    requires env == SampleEnv() && s.clock == 1 && 3 !in s.threads
    requires "r" in s.tables.used && s.tables.used["r"] == NewEntry(env, CTX, 1)
    ensures Enabled(env, s, REPLAY) && Kills(env, s, REPLAY) == {"f"}
    ensures TakeRefresh(s.tables, "r", 1, 1).1 == Reused
  {
    hide SampleEnv, AuthenticateClient, RevokeFamily;
    LoginWorks();
    LiveAtOne(env);
  }

  /** A revoked family can live on: some run notices a replay, revokes the family, and later finds it good again. */
  lemma RevokedFamilyCanRevive()
    ensures exists env, s, ev, family, evs ::
              && GoodEnv(env) && Reachable(env, s) && Enabled(env, s, ev)
              && ev.RefreshGrant? && TakeRefresh(s.tables, ev.token, ev.t1, ev.t2).1 == Reused
              && family in s.families && family in Kills(env, s, ev)
              && ValidRun(env, Apply(env, s, ev), evs)
              && !Silent(After(env, Apply(env, s, ev), evs), family)
  {
    hide Apply, Enabled, Kills, Reachable, Silent, GoodEnv, TakeRefresh;
    var env := SampleEnv();
    SampleEnvIsGood();
    var s := Refreshing(env);
    ReplayRevokes(env, s);
    RevocationIsFinalIff(env, s, REPLAY, "f");
    assert 2 in InFlight(s, "f");
    var evs :| ValidRun(env, Apply(env, s, REPLAY), evs) && !Silent(After(env, Apply(env, s, REPLAY), evs), "f");
  }
}
