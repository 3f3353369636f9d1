/**
 What revocation guarantees over runs: which events deny a token, that a denial lasts, and when
 revoking a family is final.
 */
module Revocation {
  import opened Policy
  import opened StoreTables
  import opened Protocol
  import opened ProtocolInvariants
  import opened ProtocolFrames
  import opened ProtocolSteps

  // ----- what denies a token -----

  lemma SweepSame(tables: Tables, t1: Time, jti: string, t: Time)
    requires t1 <= t
    ensures IsDenied(DropExpired(tables, t1), jti, t) <==> IsDenied(tables, jti, t)
  {
  }

  /** What the invariant says about one issued token. */
  lemma TokenFacts(env: Env, s: Sys, jti: string)
    requires Inv(env, s) && jti in s.issued
    ensures var a := s.issued[jti];
            && a.claimExp <= a.regExp
            && Covered(s.clock, a, jti, s.tables.jtis, s.tables.denied)
            && (jti in s.tables.jtis ==> RecordOf(a, s.tables.jtis[jti]))
            && (jti in s.tables.denied ==> s.tables.denied[jti] in {a.claimExp, a.regExp})
            && jti in s.drawn && jti != ""
  {
    ClaimBeforeRecord(env, s);
    hide CodesInv, EntriesFromOrigin, RefreshInv, OneCarrier, ThreadsOk, PendingAlone, AccessOk, OriginOk;
  }

  lemma ClaimIsTruncated(env: Env, s: Sys, jti: string)
    requires Inv(env, s) && jti in s.issued
    ensures s.issued[jti].regExp < s.issued[jti].claimExp + SECOND
  {
    hide CodesInv, FamiliesInv, EntriesFromOrigin, RefreshInv, OneCarrier, JtisInv, CoverageInv, ThreadsOk, PendingAlone;
    hide ForeignInv;
    hide DeniedInv, UserAccessOk, AppAccessOk;
  }

  /** The token is registered under a family that is being revoked. */
  predicate Reached(s: Sys, jti: string, family: string) {
    jti in s.tables.jtis && family != "" && s.tables.jtis[jti].family == family
  }

  /** Revoking a family denies a registered token of it until its registered expiry, and no other token. */
  lemma CutSame(env: Env, s: Sys, family: string, t2: Time, jti: string, t: Time)
    requires Inv(env, s) && jti in s.issued && t2 <= t
    ensures IsDenied(RevokeFamily(s.tables, family, t2), jti, t) <==>
            if Reached(s, jti, family) then t < s.issued[jti].regExp else IsDenied(s.tables, jti, t)
  {
    hide Inv;
    TokenFacts(env, s, jti);
  }

  lemma AuthorizeSweeps(env: Env, s: Sys, q: AuthorizeRequest, username: string, password: string, id: string,
                        t1: Time, t2: Time, jti: string, t: Time)
    requires t1 <= t2 <= t
    ensures DoAuthorize(env, s, q, username, password, id, t1, t2).clock == t2
    ensures IsDenied(DoAuthorize(env, s, q, username, password, id, t1, t2).tables, jti, t) <==> IsDenied(s.tables, jti, t)
  {
    hide Authorize, NewCode, DropExpired;
    SweepSame(s.tables, t1, jti, t);
  }

  lemma CodeGrantSweeps(env: Env, s: Sys, tid: nat, cr: Credentials, token: string, redirectUri: string,
                        verifier: string, family: string, t1: Time, t2: Time, jti: string, t: Time)
    requires t1 <= t2 <= t
    ensures var r := DoCodeGrant(env, s, tid, cr, token, redirectUri, verifier, family, t1, t2);
            r.clock == t2 && (IsDenied(r.tables, jti, t) <==> IsDenied(s.tables, jti, t))
  {
    hide AuthenticateClient, DoCodeGrant, DropExpired;
    CodeGrantFrame(env, s, tid, cr, token, redirectUri, verifier, family, t1, t2);
    SweepSame(s.tables, t1, jti, t);
  }

  lemma StoreSweeps(env: Env, s: Sys, tid: nat, id: string, t1: Time, t2: Time, jti: string, t: Time)
    requires tid in s.threads && s.threads[tid].Listed? && t1 <= t2 <= t
    ensures var r := DoStoreRefresh(env, s, tid, id, t1, t2);
            r.clock == t2 && (IsDenied(r.tables, jti, t) <==> IsDenied(s.tables, jti, t))
  {
    hide NewEntry, DropExpired;
    SweepSame(s.tables, t1, jti, t);
  }

  /** The family that presenting a refresh token revokes, or the empty one. */
  function ReplayedFamily(env: Env, s: Sys, cr: Credentials, token: string, t1: Time): string {
    var used := DropExpired(s.tables, t1).used;
    if token != "" && AuthenticateClient(env, cr).Some? && token in used then used[token].family else ""
  }

  lemma RefreshGrantDenies(env: Env, s: Sys, tid: nat, cr: Credentials, token: string, t1: Time, t2: Time, jti: string, t: Time)
    requires Inv(env, s) && s.clock <= t1 <= t2
    requires jti in s.issued && t2 <= t
    ensures DoRefreshGrant(env, s, tid, cr, token, t1, t2).clock == t2
    ensures IsDenied(DoRefreshGrant(env, s, tid, cr, token, t1, t2).tables, jti, t) <==>
            if Reached(s, jti, ReplayedFamily(env, s, cr, token, t1)) then t < s.issued[jti].regExp
            else IsDenied(s.tables, jti, t)
  {
    hide Inv, AuthenticateClient, DropExpired, RevokeFamily, Reached, DoRefreshGrant;
    RefreshGrantFrame(env, s, tid, cr, token, t1, t2);
    SweepSame(s.tables, t1, jti, t);
    SweepKeeps(env, s, t1);
    var s1 := Swept(s, t1);
    if token in s1.tables.used {
      CutSame(env, s1, s1.tables.used[token].family, t2, jti, t);
      SweptReach(env, s, t1, jti, s1.tables.used[token].family, t);
    }
    NoFamilyReaches(s, jti);
  }

  lemma NoFamilyReaches(s: Sys, jti: string)
    ensures !Reached(s, jti, "")
  {
  }

  /** A sweep forgets a registered token only when there is nothing left to deny. */
  lemma SweptReach(env: Env, s: Sys, t1: Time, jti: string, family: string, t: Time)
    requires Inv(env, s) && jti in s.issued && t1 <= t
    ensures Reached(Swept(s, t1), jti, family) ==> Reached(s, jti, family)
    ensures Reached(s, jti, family) && !Reached(Swept(s, t1), jti, family) ==>
              s.issued[jti].regExp <= t && !IsDenied(s.tables, jti, t)
  {
    hide Inv;
    TokenFacts(env, s, jti);
  }

  /** The family that revoking an opaque token revokes, or the empty one. */
  function OpaqueFamily(s: Sys, token: string): string {
    if token in s.tables.refresh then s.tables.refresh[token].family
    else if token in s.tables.used then s.tables.used[token].family
    else ""
  }

  lemma RevokeOpaqueDenies(env: Env, s: Sys, token: string, t2: Time, jti: string, t: Time)
    requires Inv(env, s) && jti in s.issued && t2 <= t
    ensures IsDenied(RevokeToken(s.tables, token, t2), jti, t) <==>
            if Reached(s, jti, OpaqueFamily(s, token)) then t < s.issued[jti].regExp else IsDenied(s.tables, jti, t)
  {
    hide Inv, RevokeFamily;
    var s1 := s.(tables := s.tables.(codes := s.tables.codes - {token}));
    ForgetCodeKeeps(env, s, token);
    if token in s.tables.refresh {
      CutSame(env, s1, s.tables.refresh[token].family, t2, jti, t);
      CutDrops(env, s1, token, t2);
    } else if token in s.tables.used {
      CutSame(env, s1, s.tables.used[token].family, t2, jti, t);
    }
  }

  lemma ClearedClaim(env: Env, s: Sys, tid: nat)
    requires Inv(env, s) && tid in s.threads && s.threads[tid].Cleared?
    ensures s.threads[tid].jti in s.issued ==> s.issued[s.threads[tid].jti].claimExp == s.threads[tid].claimExp
  {
    hide CodesInv, FamiliesInv, EntriesFromOrigin, RefreshInv, OneCarrier, IssuedInv, JtisInv, CoverageInv, PendingAlone;
    hide DeniedInv;
  }

  predicate Denies(s: Sys, ev: Event, jti: string) {
    ev.Deny? && ev.tid in s.threads && s.threads[ev.tid].Cleared? && s.threads[ev.tid].jti == jti
  }

  /** The events that leave the denylist alone, clock aside. */
  predicate LeavesDenials(ev: Event) {
    ev.AppGrant? || ev.Sign? || ev.Register? || ev.Abort? || ev.Parse? || ev.Check? || ev.Tick?
  }

  lemma DenialsStay(env: Env, s: Sys, ev: Event)
    requires Enabled(env, s, ev) && LeavesDenials(ev)
    ensures Apply(env, s, ev).tables.denied == s.tables.denied
    ensures Kills(env, s, ev) == {}
  {
    hide AuthenticateClient, DoAuthorize, DoCodeGrant, DoRefreshGrant, DoStoreRefresh, DoAppGrant, DoSign;
    hide RevokeFamily, RevokeToken, DenyJti, DropExpired, IsDenied, Unseen, Presentable;
    match ev
    case AppGrant(tid, cr, scope, jti, t2) => AppGrantFrame(env, s, tid, cr, scope, jti, t2);
    case Sign(tid, jti, t2) => SignFrame(env, s, tid, jti, t2);
    case Register(_) =>
    case Abort(_) =>
    case Parse(_, _, _, _, _) =>
    case Check(_, _) =>
    case Tick(_) =>
  }

  lemma GrantDenies(env: Env, s: Sys, ev: Event, jti: string, t: Time)
    requires Enabled(env, s, ev) && (ev.AuthorizeEvent? || ev.CodeGrant? || ev.StoreRefresh? || ev.FailedAdd?)
    requires ev.t2 <= t
    ensures IsDenied(Apply(env, s, ev).tables, jti, t) <==> IsDenied(s.tables, jti, t)
    ensures Kills(env, s, ev) == {}
  {
    hide DoAuthorize, DoCodeGrant, DoRefreshGrant, DoStoreRefresh, DoAppGrant, DoSign, DoRegister, DoCheck;
    hide RevokeFamily, RevokeToken, DenyJti, DropExpired, IsDenied;
    match ev
    case AuthorizeEvent(q, username, password, id, t1, t2) =>
      AuthorizeSweeps(env, s, q, username, password, id, t1, t2, jti, t);
    case CodeGrant(tid, cr, token, redirectUri, verifier, family, t1, t2) =>
      CodeGrantSweeps(env, s, tid, cr, token, redirectUri, verifier, family, t1, t2, jti, t);
    case StoreRefresh(tid, id, t1, t2) => StoreSweeps(env, s, tid, id, t1, t2, jti, t);
    case FailedAdd(t2) => SweepSame(s.tables, t2, jti, t);
  }

  /** The event revokes the family under which the token is registered. */
  predicate ReachedBy(env: Env, s: Sys, ev: Event, jti: string) {
    jti in s.tables.jtis && s.tables.jtis[jti].family in Kills(env, s, ev)
  }

  lemma CutDenies(env: Env, s: Sys, ev: Event, jti: string, t: Time)
    requires Inv(env, s) && Enabled(env, s, ev)
    requires ev.RefreshGrant? || ev.RevokeOpaque? || ev.MismatchRevoke? || ev.Logout?
    requires jti in s.issued && ev.t2 <= t
    ensures IsDenied(Apply(env, s, ev).tables, jti, t) <==>
            if ReachedBy(env, s, ev, jti) then t < s.issued[jti].regExp else IsDenied(s.tables, jti, t)
  {
    hide Inv, DoAuthorize, DoCodeGrant, DoRefreshGrant, DoStoreRefresh, DoAppGrant, DoSign, DoRegister, DoCheck;
    hide RevokeFamily, RevokeToken, DenyJti, DropExpired, IsDenied, AuthenticateClient;
    match ev
    case RefreshGrant(tid, cr, token, t1, t2) => RefreshGrantDenies(env, s, tid, cr, token, t1, t2, jti, t);
    case RevokeOpaque(token, t2) => RevokeOpaqueDenies(env, s, token, t2, jti, t);
    case MismatchRevoke(tid, t2) => CutSame(env, s, s.threads[tid].family, t2, jti, t);
    case Logout(sid, t2) => CutSame(env, s, sid, t2, jti, t);
  }

  lemma DenyDenies(env: Env, s: Sys, ev: Event, jti: string, t: Time)
    requires Inv(env, s) && Enabled(env, s, ev) && ev.Deny? && jti in s.issued
    ensures IsDenied(Apply(env, s, ev).tables, jti, t) <==>
            if Denies(s, ev, jti) then t < s.issued[jti].claimExp else IsDenied(s.tables, jti, t)
    ensures Kills(env, s, ev) == {}
  {
    hide Inv, DoAuthorize, DoCodeGrant, DoRefreshGrant, DoStoreRefresh, DoAppGrant, DoSign, DoRegister, DoCheck;
    hide RevokeFamily, RevokeToken, DropExpired, AuthenticateClient;
    ClearedClaim(env, s, ev.tid);
    TokenFacts(env, s, jti);
  }

  /**
   When a token's denial ends, after any step: with its claim when the step denies the token itself,
   with its registered expiry when the step revokes the family it is registered under, and when it
   ended before otherwise.
   */
  lemma DenialEnds(env: Env, s: Sys, ev: Event, jti: string, t: Time)
    requires Inv(env, s) && Enabled(env, s, ev) && jti in s.issued && Apply(env, s, ev).clock <= t
    ensures IsDenied(Apply(env, s, ev).tables, jti, t) <==>
            if Denies(s, ev, jti) then t < s.issued[jti].claimExp
            else if ReachedBy(env, s, ev, jti) then t < s.issued[jti].regExp
            else IsDenied(s.tables, jti, t)
  {
    hide Inv, Apply, Enabled, Kills, IsDenied;
    if LeavesDenials(ev) {
      DenialsStay(env, s, ev);
      SameDenials(s.tables, Apply(env, s, ev).tables, jti, t);
    } else if ev.Deny? {
      DenyDenies(env, s, ev, jti, t);
    } else {
      StepFrame(env, s, ev);
      if ev.AuthorizeEvent? || ev.CodeGrant? || ev.StoreRefresh? || ev.FailedAdd? {
        GrantDenies(env, s, ev, jti, t);
      } else {
        CutDenies(env, s, ev, jti, t);
      }
    }
  }

  lemma SameDenials(a: Tables, b: Tables, jti: string, t: Time)
    requires a.denied == b.denied
    ensures IsDenied(a, jti, t) <==> IsDenied(b, jti, t)
  {
  }

  /**
   A step turns a token's acceptance off exactly when it revokes the token's own family or denies
   the token itself, and no step turns it back on.  An app token has the empty family, which no
   event revokes, so only its own denial touches it.
   */
  lemma DenialHasACause(env: Env, s: Sys, ev: Event, jti: string, t: Time)
    requires Inv(env, s) && Enabled(env, s, ev)
    requires jti in s.issued && Apply(env, s, ev).clock <= t < s.issued[jti].claimExp
    ensures IsDenied(Apply(env, s, ev).tables, jti, t) <==>
            IsDenied(s.tables, jti, t) || s.issued[jti].family in Kills(env, s, ev) || Denies(s, ev, jti)
  {
    hide Inv, Apply, Enabled, Kills;
    DenialEnds(env, s, ev, jti, t);
    TokenFacts(env, s, jti);
    ClockGoesOn(env, s, ev);
  }

  lemma ClockGoesOn(env: Env, s: Sys, ev: Event)
    requires Enabled(env, s, ev)
    ensures s.clock <= Apply(env, s, ev).clock
  {
    hide Apply;
    StepFrame(env, s, ev);
  }

  lemma {:induction false} ClockRun(env: Env, s: Sys, evs: seq<Event>)
    requires ValidRun(env, s, evs)
    ensures s.clock <= After(env, s, evs).clock
    decreases |evs|
  {
    hide Apply, Enabled;
    if evs != [] {
      ClockGoesOn(env, s, evs[0]);
      ClockRun(env, Apply(env, s, evs[0]), evs[1..]);
    }
  }
}
