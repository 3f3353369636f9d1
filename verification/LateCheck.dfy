/**
 Verification reads the clock twice, and that shows.  The run: a user token is issued and presented,
 the expiry check passes, the user logs out, and the denylist is asked only after the denial has
 ended.  The token of a dead family passes.  Between its claim and its registered expiry it is still
 refused, so that its claim has run out is not enough for it to pass.
 */
module LateCheck {
  import opened Policy
  import opened StoreTables
  import opened Protocol
  import opened ProtocolInvariants
  import opened ProtocolTheorems
  import opened Revocation
  import opened Finality
  import opened Provenance
  import opened SampleRun

  const PARSE := Parse(1, JTI, SECOND, false, 1)
  const LOGOUT_LATER := Logout("f", 1)

  /** The token has passed the expiry check when the logout comes. */
  lemma PresentedToken(env: Env) returns (s: Sys)
    requires env == SampleEnv()
    ensures Reachable(env, s) && "f" in s.families && s.clock == 1 && s.threads == map[1 := Parsed(JTI, SECOND, false)]
    ensures JTI in s.issued && var a := s.issued[JTI]; a.family == "f" && a.claimExp == SECOND && a.regExp == SECOND + 1
    ensures JTI in s.tables.jtis && s.tables.jtis[JTI].family == "f"
  {
    hide Reachable, SampleEnv;
    var s1 := IssuedToken(env);
    ReachableStep(env, s1, PARSE);
    s := Apply(env, s1, PARSE);
  }

  /** A token of a dead family can pass the second check, and not just because its claim has run out. */
  lemma DeadTokenCanPass()
    ensures exists env, s, tid, early, late ::
              && GoodEnv(env) && Reachable(env, s) && Enabled(env, s, Check(tid, early)) && Enabled(env, s, Check(tid, late))
              && s.threads[tid].jti in s.issued
              && var a := s.issued[s.threads[tid].jti];
              && Dead(s, a.family)
              && a.claimExp <= early && IsDenied(s.tables, s.threads[tid].jti, early)
              && a.regExp <= late && !IsDenied(s.tables, s.threads[tid].jti, late)
  {
    hide Reachable, GoodEnv, Inv, Dead, IsDenied, Issuing, SampleEnv;
    SampleEnvIsGood();
    var env := SampleEnv();
    var s := PresentedToken(env);
    ReachableInv(env, s);
    ReachableStep(env, s, LOGOUT_LATER);
    assert InFlight(s, "f") == {} by {
      assert !Issuing(s.threads[1], "f") by { NotIssuing(s.threads[1]); }
    }
    RevocationKills(env, s, LOGOUT_LATER, "f");
    KeepsIssued(env, s, LOGOUT_LATER, JTI);
    var r := Apply(env, s, LOGOUT_LATER);
    DenialEnds(env, s, LOGOUT_LATER, JTI, SECOND);
    DenialEnds(env, s, LOGOUT_LATER, JTI, SECOND + 1);
    assert Enabled(env, r, Check(1, SECOND)) && Enabled(env, r, Check(1, SECOND + 1));
  }

  lemma NotIssuing(pc: Pc)
    requires pc.Parsed?
    ensures forall f :: !Issuing(pc, f)
  {
  }
}
