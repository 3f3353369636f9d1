/**
 When revoking a family is final: exactly when no request of that family was in flight between
 taking a token and storing the next one.
 */
module Finality {
  import opened Clients
  import opened Registry
  import opened Policy
  import opened StoreTables
  import opened Protocol
  import opened ProtocolInvariants
  import opened ProtocolFrames
  import opened ProtocolSteps
  import opened ProtocolTheorems
  import opened Revocation

  /** Presenting the refresh token now yields its entry. */
  predicate Redeemable(s: Sys, id: string) {
    id in s.tables.refresh && s.clock <= s.tables.refresh[id].expiresAt
  }

  /** Verifying the access token now, in an instant, accepts it. */
  predicate Acceptable(s: Sys, jti: string) {
    jti in s.issued && s.clock < s.issued[jti].claimExp && !IsDenied(s.tables, jti, s.clock)
  }

  /** Nothing of the family is good for anything. */
  ghost predicate Silent(s: Sys, family: string) {
    && (forall id :: id in s.tables.refresh && s.tables.refresh[id].family == family ==> !Redeemable(s, id))
    && (forall jti :: jti in s.issued && s.issued[jti].family == family ==> !Acceptable(s, jti))
  }

  /** No token of the family is good, and no request will store one. */
  ghost predicate Dead(s: Sys, family: string) {
    && family in s.families
    && Idle(s, family)
    && (forall jti :: jti in s.issued && s.issued[jti].family == family ==> !Acceptable(s, jti))
  }

  // ----- a family without a carrier gets none -----

  lemma SweepIdle(s: Sys, t: Time, family: string)
    requires Idle(s, family)
    ensures Idle(Swept(s, t), family)
  {
    hide Issuing;
  }

  lemma FewerIdle(s: Sys, refresh: map<string, RefreshEntry>, family: string)
    requires Idle(s, family) && Submap(refresh, s.tables.refresh)
    ensures Idle(s.(tables := s.tables.(refresh := refresh)), family)
  {
    hide Issuing;
  }

  lemma ThreadIdle(s: Sys, tid: nat, pc: Pc, family: string)
    requires Idle(s, family) && !Issuing(pc, family)
    ensures Idle(WithThread(s, tid, pc), family)
    ensures Idle(Done(s, tid), family)
  {
    hide Issuing;
  }

  lemma AuthorizeIdle(env: Env, s: Sys, q: AuthorizeRequest, username: string, password: string, id: string,
                      t1: Time, t2: Time, family: string)
    requires Idle(s, family)
    ensures Idle(DoAuthorize(env, s, q, username, password, id, t1, t2), family)
  {
    hide Idle, Authorize, NewCode, DropExpired;
    SweepIdle(s, t1, family);
    var r := DoAuthorize(env, s, q, username, password, id, t1, t2);
    if Authorize(env, q, username, password).None? {
      SameIdle(s, r, family);
    } else {
      SameIdle(Swept(s, t1), r, family);
    }
  }

  lemma CodeGrantIdle(env: Env, s: Sys, tid: nat, cr: Credentials, token: string, redirectUri: string,
                      verifier: string, id: string, t1: Time, t2: Time, family: string)
    requires Idle(s, family) && id != family
    ensures Idle(DoCodeGrant(env, s, tid, cr, token, redirectUri, verifier, id, t1, t2), family)
  {
    hide Idle, AuthenticateClient, RedemptionOk, DropExpired;
    var s1 := Swept(s, t1);
    SweepIdle(s, t1, family);
    var client := AuthenticateClient(env, cr);
    var r := DoCodeGrant(env, s, tid, cr, token, redirectUri, verifier, id, t1, t2);
    if token == "" || client.None? {
      SameIdle(s, r, family);
    } else {
      var (tables, taken) := TakeCode(s.tables, token, t1, t2);
      if taken.Some? && RedemptionOk(env, taken.value, client.value, redirectUri, verifier) {
        var pc := Ready(Ctx(taken.value.sub, taken.value.clientId, taken.value.nonce, id, taken.value.scopes));
        ThreadIdle(s1, tid, pc, family);
        SameIdle(WithThread(s1, tid, pc), r, family);
      } else {
        SameIdle(s1, r, family);
      }
    }
  }

  lemma RefreshGrantIdle(env: Env, s: Sys, tid: nat, cr: Credentials, token: string, t1: Time, t2: Time, family: string)
    requires Idle(s, family)
    ensures Idle(DoRefreshGrant(env, s, tid, cr, token, t1, t2), family)
  {
    hide Idle, AuthenticateClient, DropExpired, RevokeFamily, DoRefreshGrant;
    RefreshGrantFrame(env, s, tid, cr, token, t1, t2);
    var s1 := Swept(s, t1);
    SweepIdle(s, t1, family);
    var client := AuthenticateClient(env, cr);
    var r := DoRefreshGrant(env, s, tid, cr, token, t1, t2);
    if token == "" || client.None? {
      SameIdle(s, r, family);
    } else {
      var (tables, taken) := TakeLiveRefresh(s1.tables, token, t2);
      TakeShrinks(s1.tables, token, t2);
      FewerIdle(s1, tables.refresh, family);
      var s2 := s1.(tables := s1.tables.(refresh := tables.refresh));
      if taken.Redeemed? {
        var f := taken.entry;
        OtherFamily(s1, token, family);
        var pc := RedeemedPc(client.value, f);
        ThreadIdle(s2, tid, pc, family);
        SameIdle(WithThread(s2, tid, pc), r, family);
      } else {
        SameIdle(s2, r, family);
      }
    }
  }

  lemma TakeShrinks(tables: Tables, token: string, t2: Time)
    ensures Submap(TakeLiveRefresh(tables, token, t2).0.refresh, tables.refresh)
  {
    hide Doomed;
  }

  lemma OtherFamily(s: Sys, id: string, family: string)
    requires Idle(s, family)
    ensures id in s.tables.refresh ==> s.tables.refresh[id].family != family
  {
    hide Issuing;
  }

  lemma OtherThread(s: Sys, tid: nat, family: string)
    requires Idle(s, family)
    ensures tid in s.threads ==> !Issuing(s.threads[tid], family)
  {
    hide Issuing;
  }

  lemma StoreIdle(env: Env, s: Sys, tid: nat, id: string, t1: Time, t2: Time, family: string)
    requires Idle(s, family) && tid in s.threads && s.threads[tid].Listed?
    ensures Idle(DoStoreRefresh(env, s, tid, id, t1, t2), family)
  {
    hide DropExpired;
    SweepIdle(s, t1, family);
    OtherThread(s, tid, family);
    assert NewEntry(env, s.threads[tid].ctx, t2).family != family;
    hide Issuing, NewEntry;
  }

  lemma RevokeIdle(s: Sys, f: string, t2: Time, token: string, family: string)
    requires Idle(s, family)
    ensures Idle(s.(tables := RevokeFamily(s.tables, f, t2)), family)
    ensures Idle(s.(tables := RevokeToken(s.tables, token, t2)), family)
  {
    FewerIdle(s, RevokeFamily(s.tables, f, t2).refresh, family);
    FewerIdle(s, RevokeToken(s.tables, token, t2).refresh, family);
    hide RevokeFamily, RevokeToken, Issuing;
  }

  lemma IdleStep(env: Env, s: Sys, ev: Event, family: string)
    requires Inv(env, s) && Enabled(env, s, ev) && family in s.families && Idle(s, family)
    ensures Idle(Apply(env, s, ev), family)
  {
    hide Inv, Idle, Kills, DoAuthorize, DoCodeGrant, DoRefreshGrant, DoStoreRefresh, RevokeFamily, RevokeToken;
    hide AuthenticateClient, ResolveScopes, UserAccess, AppAccess, IsDenied, DenyJti, RegisterJti, Client.Confidential;
    hide Client.AllowsGrant;
    var r := Apply(env, s, ev);
    match ev
    case AuthorizeEvent(q, username, password, id, t1, t2) => AuthorizeIdle(env, s, q, username, password, id, t1, t2, family);
    case CodeGrant(tid, cr, token, redirectUri, verifier, id, t1, t2) =>
      KnownId(env, s, family);
      CodeGrantIdle(env, s, tid, cr, token, redirectUri, verifier, id, t1, t2, family);
    case RefreshGrant(tid, cr, token, t1, t2) => RefreshGrantIdle(env, s, tid, cr, token, t1, t2, family);
    case StoreRefresh(tid, id, t1, t2) => StoreIdle(env, s, tid, id, t1, t2, family);
    case FailedAdd(t2) => SweepIdle(s, t2, family);
    case RevokeOpaque(token, t2) =>
      RevokeIdle(s, family, t2, token, family);
      SameIdle(s.(tables := RevokeToken(s.tables, token, t2)), r, family);
    case Logout(sid, t2) =>
      RevokeIdle(s, sid, t2, "", family);
      SameIdle(s.(tables := RevokeFamily(s.tables, sid, t2)), r, family);
    case MismatchRevoke(tid, t2) =>
      RevokeIdle(s, s.threads[tid].family, t2, "", family);
      var s1 := s.(tables := RevokeFamily(s.tables, s.threads[tid].family, t2));
      ThreadIdle(s1, tid, Mismatch(family), family);
      SameIdle(Done(s1, tid), r, family);
    case _ => OtherIdle(env, s, ev, family);
  }

  lemma KnownId(env: Env, s: Sys, family: string)
    requires Inv(env, s) && family in s.families
    ensures family in s.drawn && family != ""
  {
    hide CodesInv, EntriesFromOrigin, RefreshInv, OneCarrier, IssuedInv, JtisInv, CoverageInv, ThreadsOk, PendingAlone;
    hide DeniedInv;
  }

  /** One request moved on, without becoming a carrier of the family. */
  lemma Moved(s: Sys, r: Sys, tid: nat, family: string)
    requires Idle(s, family) && r.tables.refresh == s.tables.refresh
    requires r.threads == s.threads - {tid} || (tid in r.threads && r.threads == s.threads[tid := r.threads[tid]])
    requires tid in r.threads ==> !Issuing(r.threads[tid], family)
    ensures Idle(r, family)
  {
    hide Issuing;
  }

  lemma AppGrantIdle(env: Env, s: Sys, tid: nat, cr: Credentials, scope: string, jti: string, t2: Time, family: string)
    requires tid !in s.threads && Idle(s, family)
    ensures Idle(DoAppGrant(env, s, tid, cr, scope, jti, t2), family)
  {
    hide Idle, AuthenticateClient, ResolveScopes, AppAccess, Client.Confidential, Client.AllowsGrant;
    assert s.threads - {tid} == s.threads;
    Moved(s, DoAppGrant(env, s, tid, cr, scope, jti, t2), tid, family);
  }

  lemma SignIdle(env: Env, s: Sys, tid: nat, jti: string, t2: Time, family: string)
    requires tid in s.threads && s.threads[tid].Ready? && Idle(s, family)
    ensures Idle(DoSign(env, s, tid, jti, t2), family)
  {
    hide Idle, UserAccess;
    OtherThread(s, tid, family);
    Moved(s, DoSign(env, s, tid, jti, t2), tid, family);
  }

  lemma RegisterIdle(s: Sys, tid: nat, family: string)
    requires tid in s.threads && (s.threads[tid].Signed? || s.threads[tid].AppSigned?) && Idle(s, family)
    ensures Idle(DoRegister(s, tid), family)
  {
    hide Idle;
    OtherThread(s, tid, family);
    Moved(s, DoRegister(s, tid), tid, family);
  }

  lemma CheckIdle(s: Sys, tid: nat, t2: Time, family: string)
    requires tid in s.threads && s.threads[tid].Parsed? && Idle(s, family)
    ensures Idle(DoCheck(s, tid, t2), family)
  {
    hide Idle, IsDenied;
    Moved(s, DoCheck(s, tid, t2), tid, family);
  }

  /** The events that only move one request along. */
  lemma OtherIdle(env: Env, s: Sys, ev: Event, family: string)
    requires Enabled(env, s, ev) && Idle(s, family)
    requires LeavesDenials(ev) || ev.Deny?
    ensures Idle(Apply(env, s, ev), family)
  {
    hide Idle, Kills, DoAuthorize, DoCodeGrant, DoRefreshGrant, DoStoreRefresh, DoAppGrant, DoSign, DoRegister, DoCheck;
    hide RevokeFamily, RevokeToken;
    var r := Apply(env, s, ev);
    match ev
    case AppGrant(tid, cr, scope, jti, t2) => AppGrantIdle(env, s, tid, cr, scope, jti, t2, family);
    case Sign(tid, jti, t2) => SignIdle(env, s, tid, jti, t2, family);
    case Register(tid) => RegisterIdle(s, tid, family);
    case Check(tid, t2) => CheckIdle(s, tid, t2, family);
    case Abort(tid) => Moved(s, r, tid, family);
    case Parse(tid, _, _, _, _) => Moved(s, r, tid, family);
    case Deny(tid) => Moved(s, r, tid, family);
    case Tick(_) => SameIdle(s, r, family);
  }

  lemma TablesShrinkRefresh(s: Tables, family: string, token: string, t1: Time, t2: Time)
    ensures Submap(DropExpired(s, t1).refresh, s.refresh)
    ensures Submap(RevokeFamily(s, family, t2).refresh, s.refresh)
    ensures Submap(TakeCode(s, token, t1, t2).0.refresh, s.refresh)
  {
    hide Doomed;
  }

  lemma RevokeShrinks(s: Tables, token: string, t: Time)
    ensures Submap(RevokeToken(s, token, t).refresh, s.refresh)
  {
    hide RevokeFamily;
    var s1 := s.(codes := s.codes - {token});
    if token in s1.refresh {
      TablesShrinkRefresh(s1.(refresh := s1.refresh - {token}), s1.refresh[token].family, token, t, t);
    } else if token in s1.used {
      TablesShrinkRefresh(s1, s1.used[token].family, token, t, t);
    }
  }

  lemma AuthorizeShrinks(env: Env, s: Sys, q: AuthorizeRequest, username: string, password: string, id: string, t1: Time, t2: Time)
    ensures Submap(DoAuthorize(env, s, q, username, password, id, t1, t2).tables.refresh, s.tables.refresh)
  {
    hide Authorize, NewCode, DropExpired;
    TablesShrinkRefresh(s.tables, "", id, t1, t2);
    if Authorize(env, q, username, password).None? {
    } else {
    }
  }

  lemma TakenShrinks(s: Tables, token: string, t1: Time, t2: Time)
    ensures Submap(TakeRefresh(s, token, t1, t2).0.refresh, s.refresh)
  {
    hide DropExpired, TakeLiveRefresh;
    TakeShrinks(DropExpired(s, t1), token, t2);
    TablesShrinkRefresh(s, "", token, t1, t2);
  }

  lemma GrantShrinks(env: Env, s: Sys, ev: Event)
    requires Enabled(env, s, ev) && IsGrant(ev)
    ensures Submap(Apply(env, s, ev).tables.refresh, s.tables.refresh)
  {
    hide DoAuthorize, DoCodeGrant, DoRefreshGrant, DoAppGrant, DoSign, DoCheck, DoRegister, DoStoreRefresh, Presentable, Unseen, Kills;
    hide DropExpired, RevokeFamily, RevokeToken, TakeCode, TakeRefresh, Submap, AuthenticateClient, RedeemedPc;
    SameIsSubmap(s.tables.refresh);
    match ev
    case AuthorizeEvent(q, username, password, id, t1, t2) => AuthorizeShrinks(env, s, q, username, password, id, t1, t2);
    case CodeGrant(tid, cr, token, redirectUri, verifier, id, t1, t2) =>
      CodeGrantFrame(env, s, tid, cr, token, redirectUri, verifier, id, t1, t2);
      TablesShrinkRefresh(s.tables, "", token, t1, t2);
    case RefreshGrant(tid, cr, token, t1, t2) =>
      RefreshGrantFrame(env, s, tid, cr, token, t1, t2);
      TakenShrinks(s.tables, token, t1, t2);
    case AppGrant(tid, cr, scope, jti, t2) => AppGrantFrame(env, s, tid, cr, scope, jti, t2);
    case Sign(tid, jti, t2) => SignFrame(env, s, tid, jti, t2);
  }

  /** Only storing one adds a refresh token. */
  lemma RefreshShrinks(env: Env, s: Sys, ev: Event)
    requires Enabled(env, s, ev) && !ev.StoreRefresh?
    ensures Submap(Apply(env, s, ev).tables.refresh, s.tables.refresh)
  {
    if IsGrant(ev) {
      hide Apply, Enabled, Submap;
      GrantShrinks(env, s, ev);
    } else {
      hide DoAuthorize, DoCodeGrant, DoRefreshGrant, DoAppGrant, DoSign, DoCheck, DoStoreRefresh, Presentable, Unseen, Kills;
      hide DropExpired, RevokeFamily, RevokeToken, Submap;
      SameIsSubmap(s.tables.refresh);
      match ev
      case Check(tid, t2) => CheckFrame(s, tid, t2);
      case FailedAdd(t2) => TablesShrinkRefresh(s.tables, "", "", t2, t2);
      case MismatchRevoke(tid, t2) => TablesShrinkRefresh(s.tables, s.threads[tid].family, "", t2, t2);
      case Logout(sid, t2) => TablesShrinkRefresh(s.tables, sid, "", t2, t2);
      case RevokeOpaque(token, t2) => RevokeShrinks(s.tables, token, t2);
      case _ =>
    }
  }

  lemma SameIsSubmap<K, V>(m: map<K, V>)
    ensures Submap(m, m)
  {
  }

  // ----- history only grows -----

  lemma RegisterHistory(env: Env, s: Sys, tid: nat)
    requires Inv(env, s) && tid in s.threads && Pending(s.threads[tid])
    ensures var r, p := DoRegister(s, tid), s.threads[tid];
            && r.families == s.families && p.jti !in s.issued && r.issued == s.issued[p.jti := p.access]
            && (p.Signed? ==> p.access.family == p.ctx.family)
            && (p.AppSigned? ==> p.access.family == "")
  {
    hide Inv, RegisterJti;
    SignedOk(env, s, tid);
    AppRecord(env, s.threads[tid].access);
  }

  // ----- death is final -----

  lemma StillUnacceptable(env: Env, s: Sys, ev: Event, jti: string)
    requires Inv(env, s) && Enabled(env, s, ev) && jti in s.issued && !Acceptable(s, jti)
    requires jti in Apply(env, s, ev).issued && Apply(env, s, ev).issued[jti] == s.issued[jti]
    ensures !Acceptable(Apply(env, s, ev), jti)
  {
    hide Inv, Apply, Kills, Denies;
    TokenFacts(env, s, jti);
    ClockGoesOn(env, s, ev);
    var r := Apply(env, s, ev);
    if r.clock < s.issued[jti].claimExp {
      DenialHasACause(env, s, ev, jti, r.clock);
    }
  }

  lemma DeadStep(env: Env, s: Sys, ev: Event, family: string)
    requires Inv(env, s) && Enabled(env, s, ev) && Dead(s, family)
    ensures Dead(Apply(env, s, ev), family)
  {
    hide Inv, Idle, Acceptable, DoAuthorize, DoCodeGrant, DoRefreshGrant, DoAppGrant, DoSign, DoRegister, DoStoreRefresh;
    hide DoCheck;
    hide RevokeFamily, RevokeToken, DenyJti, DropExpired, Kills;
    IdleStep(env, s, ev, family);
    KnownId(env, s, family);
    var r := Apply(env, s, ev);
    if ev.Register? {
      RegisterHistory(env, s, ev.tid);
      OtherThread(s, ev.tid, family);
    } else {
      StepFrame(env, s, ev);
    }
    forall jti | jti in r.issued && r.issued[jti].family == family ensures !Acceptable(r, jti) {
      assert jti in s.issued && r.issued[jti] == s.issued[jti];
      StillUnacceptable(env, s, ev, jti);
    }
  }

  /** A dead family stays dead through every continuation. */
  lemma {:induction false} DeadForever(env: Env, s: Sys, evs: seq<Event>, family: string)
    requires Inv(env, s) && Dead(s, family) && ValidRun(env, s, evs)
    ensures Dead(After(env, s, evs), family)
    decreases |evs|
  {
    hide Inv, Apply, Enabled, Dead;
    if evs != [] {
      InvStep(env, s, evs[0]);
      DeadStep(env, s, evs[0], family);
      DeadForever(env, Apply(env, s, evs[0]), evs[1..], family);
    }
  }

  // ----- revoking kills -----

  lemma NoneLeft(tables: Tables, family: string, t: Time)
    requires family != ""
    ensures forall id :: id in RevokeFamily(tables, family, t).refresh ==> RevokeFamily(tables, family, t).refresh[id].family != family
  {
  }

  /** An event that revokes the family leaves it without live tokens and starts no request. */
  lemma KillEmpties(env: Env, s: Sys, ev: Event, family: string)
    requires Inv(env, s) && Enabled(env, s, ev) && family in Kills(env, s, ev)
    ensures var r := Apply(env, s, ev);
            && (forall id :: id in r.tables.refresh ==> r.tables.refresh[id].family != family)
            && Submap(r.threads, s.threads)
            && (forall tid :: tid in s.threads && !s.threads[tid].Mismatch? ==> tid in r.threads)
            && !ev.Register?
  {
    hide Inv, DropExpired, RevokeFamily, AuthenticateClient, DoAuthorize, DoCodeGrant, DoStoreRefresh, DoAppGrant, DoSign;
    hide DoRegister, DoCheck;
    match ev
    case RefreshGrant(_, _, token, t1, t2) => NoneLeft(DropExpired(s.tables, t1), family, t2);
    case MismatchRevoke(tid, t2) => NoneLeft(s.tables, family, t2);
    case Logout(_, t2) => NoneLeft(s.tables, family, t2);
    case RevokeOpaque(token, t2) =>
      var tables := s.tables.(codes := s.tables.codes - {token});
      NoneLeft(tables, family, t2);
      NoneLeft(tables.(refresh := tables.refresh - {token}), family, t2);
  }

  /** Revoking a family with no request in flight kills it. */
  lemma RevocationKills(env: Env, s: Sys, ev: Event, family: string)
    requires Inv(env, s) && Enabled(env, s, ev)
    requires family in s.families && family in Kills(env, s, ev) && InFlight(s, family) == {}
    ensures Dead(Apply(env, s, ev), family)
  {
    hide Inv, Apply, Enabled, Kills;
    var r := Apply(env, s, ev);
    KillEmpties(env, s, ev, family);
    StepFrame(env, s, ev);
    assert forall tid :: tid in s.threads && Issuing(s.threads[tid], family) ==> tid in InFlight(s, family);
    assert Idle(r, family);
    forall jti | jti in r.issued && r.issued[jti].family == family ensures !Acceptable(r, jti) {
      if r.clock < s.issued[jti].claimExp {
        DenialHasACause(env, s, ev, jti, r.clock);
      }
    }
  }

  lemma DeadIsSilent(s: Sys, family: string)
    requires Dead(s, family)
    ensures Silent(s, family)
  {
    hide Issuing, Acceptable;
  }

  /** In every state of every continuation, nothing of the family is good for anything. */
  ghost predicate SilentForever(env: Env, s: Sys, family: string) {
    forall evs :: ValidRun(env, s, evs) ==> Silent(After(env, s, evs), family)
  }

  // ----- and a request in flight revives -----

  /** A name that is not among finitely many: one longer than all of them. */
  lemma FreshName(drawn: set<string>) returns (id: string)
    ensures id != "" && id !in drawn
  {
    var n := LongerThanAll(drawn);
    id := seq(n, i => 'x');
    assert |id| == n;
  }

  lemma {:induction false} LongerThanAll(drawn: set<string>) returns (n: nat)
    ensures n > 0 && forall x :: x in drawn ==> |x| < n
  {
    if drawn == {} {
      n := 1;
    } else {
      var x :| x in drawn;
      var m := LongerThanAll(drawn - {x});
      n := m + |x| + 1;
      forall y | y in drawn ensures |y| < n {
        assert y == x || y in drawn - {x};
      }
    }
  }

  /** One step in front of a continuation that speaks up. */
  lemma SpeaksEarlier(env: Env, s: Sys, ev: Event, family: string)
    requires Enabled(env, s, ev) && !SilentForever(env, Apply(env, s, ev), family)
    ensures !SilentForever(env, s, family)
  {
    hide Apply, Enabled, Silent;
    var rest :| ValidRun(env, Apply(env, s, ev), rest) && !Silent(After(env, Apply(env, s, ev), rest), family);
    var evs := [ev] + rest;
    assert evs[0] == ev && evs[1..] == rest;
    assert ValidRun(env, s, evs) && After(env, s, evs) == After(env, Apply(env, s, ev), rest);
  }

  lemma SpeaksNow(env: Env, s: Sys, family: string)
    requires !Silent(s, family)
    ensures !SilentForever(env, s, family)
  {
    hide Silent;
    var none: seq<Event> := [];
    assert ValidRun(env, s, none) && After(env, s, none) == s;
  }

  lemma ListedSpeaks(env: Env, s: Sys, tid: nat)
    requires env.refreshTtl > 0 && tid in s.threads && s.threads[tid].Listed?
    ensures !SilentForever(env, s, s.threads[tid].ctx.family)
  {
    hide SilentForever, DropExpired;
    var family := s.threads[tid].ctx.family;
    var id := FreshName(s.drawn);
    var ev := StoreRefresh(tid, id, s.clock, s.clock);
    assert Enabled(env, s, ev);
    var r := DoStoreRefresh(env, s, tid, id, s.clock, s.clock);
    assert Apply(env, s, ev) == r;
    assert id in r.tables.refresh && Redeemable(r, id) && r.tables.refresh[id].family == family;
    SpeaksNow(env, r, family);
    SpeaksEarlier(env, s, ev, family);
  }

  lemma SignedSpeaks(env: Env, s: Sys, tid: nat)
    requires env.refreshTtl > 0 && tid in s.threads && s.threads[tid].Signed?
    ensures !SilentForever(env, s, s.threads[tid].ctx.family)
  {
    hide SilentForever, RegisterJti;
    var ev := Register(tid);
    assert Apply(env, s, ev) == DoRegister(s, tid);
    ListedSpeaks(env, DoRegister(s, tid), tid);
    SpeaksEarlier(env, s, ev, s.threads[tid].ctx.family);
  }

  lemma ReadySpeaks(env: Env, s: Sys, tid: nat)
    requires env.refreshTtl > 0 && Inv(env, s) && tid in s.threads && s.threads[tid].Ready?
    ensures !SilentForever(env, s, s.threads[tid].ctx.family)
  {
    hide SilentForever, UserAccess, Inv;
    ReadyClient(env, s, tid);
    var id := FreshName(s.drawn);
    var ev := Sign(tid, id, s.clock);
    assert Apply(env, s, ev) == DoSign(env, s, tid, id, s.clock);
    SignedSpeaks(env, DoSign(env, s, tid, id, s.clock), tid);
    SpeaksEarlier(env, s, ev, s.threads[tid].ctx.family);
  }

  lemma ReadyClient(env: Env, s: Sys, tid: nat)
    requires Inv(env, s) && tid in s.threads && s.threads[tid].Ready?
    ensures env.Find(s.threads[tid].ctx.clientId).Some?
  {
    ReadyOk(env, s, tid);
    FamilyOrigin(env, s, s.threads[tid].ctx.family);
    hide Inv;
  }

  lemma FamilyOrigin(env: Env, s: Sys, family: string)
    requires Inv(env, s) && family in s.families
    ensures OriginOk(env, s.families[family])
  {
    hide CodesInv, EntriesFromOrigin, RefreshInv, OneCarrier, IssuedInv, JtisInv, CoverageInv, ThreadsOk, PendingAlone;
    hide DeniedInv, OriginOk;
  }

  /** A request in flight can bring its family back, whatever was revoked meanwhile. */
  lemma InFlightSpeaks(env: Env, s: Sys, tid: nat, family: string)
    requires env.refreshTtl > 0 && Inv(env, s) && tid in s.threads && Issuing(s.threads[tid], family)
    ensures !SilentForever(env, s, family)
  {
    hide Inv, SilentForever;
    match s.threads[tid]
    case Ready(_) => ReadySpeaks(env, s, tid);
    case Signed(_, _, _) => SignedSpeaks(env, s, tid);
    case Listed(_) => ListedSpeaks(env, s, tid);
  }

  /**
   Revoking a family is final exactly when no request of the family was in flight between taking
   its token and storing the next one: then no refresh token of it is ever redeemable again and no
   access token of it acceptable; otherwise some continuation makes one good again.
   */
  lemma RevocationIsFinalIff(env: Env, s: Sys, ev: Event, family: string)
    requires GoodEnv(env) && Reachable(env, s) && Enabled(env, s, ev)
    requires family in s.families && family in Kills(env, s, ev)
    ensures SilentForever(env, Apply(env, s, ev), family) <==> InFlight(s, family) == {}
  {
    hide Inv, Apply, Enabled, Kills, SilentForever, Issuing, Reachable, Dead, Silent, FileOk, Startable;
    ReachableInv(env, s);
    InvStep(env, s, ev);
    var r := Apply(env, s, ev);
    if InFlight(s, family) == {} {
      RevocationKills(env, s, ev, family);
      DeadSilentForever(env, r, family);
    } else {
      var tid :| tid in InFlight(s, family);
      KillEmpties(env, s, ev, family);
      StillIssuing(s, r, tid, family);
      InFlightSpeaks(env, r, tid, family);
    }
  }

  lemma StillIssuing(s: Sys, r: Sys, tid: nat, family: string)
    requires tid in s.threads && Issuing(s.threads[tid], family) && Submap(r.threads, s.threads)
    requires forall i :: i in s.threads && !s.threads[i].Mismatch? ==> i in r.threads
    ensures tid in r.threads && Issuing(r.threads[tid], family)
  {
  }

  lemma DeadSilentForever(env: Env, s: Sys, family: string)
    requires Inv(env, s) && Dead(s, family)
    ensures SilentForever(env, s, family)
  {
    hide Inv, Dead, Silent;
    forall evs | ValidRun(env, s, evs) ensures Silent(After(env, s, evs), family) {
      DeadForever(env, s, evs, family);
      DeadIsSilent(After(env, s, evs), family);
    }
  }
}
