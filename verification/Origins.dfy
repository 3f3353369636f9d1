/** Where every code and every family of a run comes from: a login that passed. */
module Origins {
  import opened Options
  import opened Scopes
  import opened Policy
  import opened StoreTables
  import opened Protocol
  import opened ProtocolFrames
  import opened ProtocolSteps

  /** Some authorization of the run let the code's subject in, and the code says what that request asked for. */
  ghost predicate Granted(env: Env, evs: seq<Event>, id: string, code: AuthCode) {
    exists i :: 0 <= i < |evs| && GrantedBy(env, evs[i], id, code)
  }

  ghost predicate GrantedBy(env: Env, ev: Event, id: string, code: AuthCode) {
    && ev.AuthorizeEvent? && ev.id == id
    && (exists c :: MayAuthorize(env, c, ev.q, ev.username, ev.password))
    && code == AuthCode(ev.t2 + 600 * SECOND, ev.username, ev.q.clientId, ev.q.redirectUri, ev.q.challenge,
                        ev.q.challengeMethod, ev.q.nonce, ParseScopes(ev.q.scope))
  }

  /** A code in the second table is in the first, or has just been granted. */
  ghost predicate CodesFrom(env: Env, ev: Event, before: map<string, AuthCode>, after: map<string, AuthCode>) {
    forall id :: id in after ==> (id in before && before[id] == after[id]) || GrantedBy(env, ev, id, after[id])
  }

  lemma AuthorizeGrants(env: Env, s: Sys, q: AuthorizeRequest, username: string, password: string, id: string, t1: Time, t2: Time)
    requires GoodEnv(env)
    ensures CodesFrom(env, AuthorizeEvent(q, username, password, id, t1, t2), s.tables.codes,
                      DoAuthorize(env, s, q, username, password, id, t1, t2).tables.codes)
  {
    hide Authorize, GoodEnv, MayAuthorize, ParseScopes;
    var who := Authorize(env, q, username, password);
    if who.Some? {
      AuthorizeIff(env, q, username, password, who.value.0);
      assert MayAuthorize(env, who.value.0, q, username, password);
    }
  }

  lemma FewerCodes(env: Env, ev: Event, before: map<string, AuthCode>, after: map<string, AuthCode>)
    requires Submap(after, before)
    ensures CodesFrom(env, ev, before, after)
  {
    hide GrantedBy;
  }

  lemma TablesShrinkCodes(s: Tables, family: string, token: string, t1: Time, t2: Time)
    ensures Submap(DropExpired(s, t1).codes, s.codes)
    ensures RevokeFamily(s, family, t2).codes == s.codes
    ensures Submap(TakeCode(s, token, t1, t2).0.codes, s.codes)
    ensures Submap(TakeRefresh(s, token, t1, t2).0.codes, s.codes)
  {
    hide Doomed;
  }

  lemma RevokeShrinksCodes(s: Tables, token: string, t: Time)
    ensures Submap(RevokeToken(s, token, t).codes, s.codes)
  {
    hide Doomed;
  }

  lemma StoreShrinksCodes(env: Env, s: Sys, tid: nat, id: string, t1: Time, t2: Time)
    requires tid in s.threads && s.threads[tid].Listed?
    ensures Submap(DoStoreRefresh(env, s, tid, id, t1, t2).tables.codes, s.tables.codes)
  {
    hide NewEntry;
  }

  lemma RegisterSameCodes(s: Sys, tid: nat)
    requires tid in s.threads && (s.threads[tid].Signed? || s.threads[tid].AppSigned?)
    ensures DoRegister(s, tid).tables.codes == s.tables.codes
  {
  }

  lemma SameSubmap(m: map<string, AuthCode>)
    ensures Submap(m, m)
  {
  }

  /** Only an authorization adds a code. */
  lemma CodesShrink(env: Env, s: Sys, ev: Event)
    requires Enabled(env, s, ev) && !ev.AuthorizeEvent?
    ensures Submap(Apply(env, s, ev).tables.codes, s.tables.codes)
  {
    hide DoAuthorize, DoCodeGrant, DoRefreshGrant, DoAppGrant, DoSign, DoRegister, DoCheck, DoStoreRefresh, Presentable, Unseen, Kills;
    hide DropExpired, RevokeFamily, RevokeToken, TakeCode, TakeRefresh, Submap, AuthenticateClient;
    SameSubmap(s.tables.codes);
    match ev
    case CodeGrant(tid, cr, token, redirectUri, verifier, id, t1, t2) =>
      CodeGrantFrame(env, s, tid, cr, token, redirectUri, verifier, id, t1, t2);
      TablesShrinkCodes(s.tables, "", token, t1, t2);
    case RefreshGrant(tid, cr, token, t1, t2) =>
      RefreshGrantFrame(env, s, tid, cr, token, t1, t2);
      TablesShrinkCodes(s.tables, "", token, t1, t2);
    case AppGrant(tid, cr, scope, jti, t2) => AppGrantFrame(env, s, tid, cr, scope, jti, t2);
    case Sign(tid, jti, t2) => SignFrame(env, s, tid, jti, t2);
    case Register(tid) => RegisterSameCodes(s, tid);
    case StoreRefresh(tid, id, t1, t2) => StoreShrinksCodes(env, s, tid, id, t1, t2);
    case FailedAdd(t2) => TablesShrinkCodes(s.tables, "", "", t2, t2);
    case MismatchRevoke(tid, t2) => TablesShrinkCodes(s.tables, s.threads[tid].family, "", t2, t2);
    case Logout(sid, t2) => TablesShrinkCodes(s.tables, sid, "", t2, t2);
    case RevokeOpaque(token, t2) => RevokeShrinksCodes(s.tables, token, t2);
    case Check(tid, t2) => CheckFrame(s, tid, t2);
    case _ =>
  }

  lemma CodesStep(env: Env, s: Sys, ev: Event)
    requires GoodEnv(env) && Enabled(env, s, ev)
    ensures CodesFrom(env, ev, s.tables.codes, Apply(env, s, ev).tables.codes)
  {
    if ev.AuthorizeEvent? {
      hide GoodEnv, DoAuthorize, CodesFrom;
      AuthorizeGrants(env, s, ev.q, ev.username, ev.password, ev.id, ev.t1, ev.t2);
    } else {
      hide Apply, Enabled, GoodEnv;
      CodesShrink(env, s, ev);
      FewerCodes(env, ev, s.tables.codes, Apply(env, s, ev).tables.codes);
    }
  }

  /** A family is new only when a code that was there has been redeemed. */
  lemma FamiliesStep(env: Env, s: Sys, ev: Event, f: string)
    requires Enabled(env, s, ev) && f in Apply(env, s, ev).families
    ensures var o := Apply(env, s, ev).families[f];
            || (f in s.families && s.families[f] == o)
            || (ev.CodeGrant? && o.codeId == ev.token && ev.token in s.tables.codes && s.tables.codes[ev.token] == o.code)
  {
    if ev.CodeGrant? {
      hide DoCodeGrant, TakeCode;
      CodeGrantFamilies(env, s, ev.tid, ev.cr, ev.token, ev.redirectUri, ev.verifier, ev.id, ev.t1, ev.t2, f);
      CodeTaken(s.tables, ev.token, ev.t1, ev.t2);
    } else {
      hide Apply, Enabled;
      StepFrame(env, s, ev);
    }
  }

  lemma CodeGrantFamilies(env: Env, s: Sys, tid: nat, cr: Credentials, token: string, redirectUri: string, verifier: string,
                          id: string, t1: Time, t2: Time, f: string)
    ensures var r := DoCodeGrant(env, s, tid, cr, token, redirectUri, verifier, id, t1, t2);
            f in r.families ==>
              || (f in s.families && r.families[f] == s.families[f])
              || (r.families[f].codeId == token && TakeCode(s.tables, token, t1, t2).1 == Some(r.families[f].code))
  {
    hide AuthenticateClient, RedemptionOk, TakeCode;
    if token == "" || AuthenticateClient(env, cr).None? {
    } else if TakeCode(s.tables, token, t1, t2).1.None? {
    } else {
    }
  }

  lemma CodeTaken(s: Tables, id: string, t1: Time, t2: Time)
    ensures var c := TakeCode(s, id, t1, t2).1; c.Some? ==> id in s.codes && s.codes[id] == c.value
  {
  }

  /** All codes and families of the state come from authorizations of `evs`. */
  ghost predicate AllGranted(env: Env, s: Sys, evs: seq<Event>) {
    && (forall id :: id in s.tables.codes ==> Granted(env, evs, id, s.tables.codes[id]))
    && (forall f :: f in s.families ==> Granted(env, evs, s.families[f].codeId, s.families[f].code))
  }

  lemma GrantedLater(env: Env, evs: seq<Event>, ev: Event, id: string, code: AuthCode)
    requires Granted(env, evs, id, code) || GrantedBy(env, ev, id, code)
    ensures Granted(env, evs + [ev], id, code)
  {
    hide GrantedBy;
    var all := evs + [ev];
    if Granted(env, evs, id, code) {
      var i :| 0 <= i < |evs| && GrantedBy(env, evs[i], id, code);
      assert all[i] == evs[i];
    } else {
      assert all[|evs|] == ev;
    }
  }

  lemma GrantedStep(env: Env, s: Sys, evs: seq<Event>, ev: Event)
    requires GoodEnv(env) && Enabled(env, s, ev) && AllGranted(env, s, evs)
    ensures AllGranted(env, Apply(env, s, ev), evs + [ev])
  {
    hide Apply, Enabled, GoodEnv, Granted, GrantedBy;
    var r := Apply(env, s, ev);
    CodesStep(env, s, ev);
    forall id | id in r.tables.codes ensures Granted(env, evs + [ev], id, r.tables.codes[id]) {
      GrantedLater(env, evs, ev, id, r.tables.codes[id]);
    }
    forall f | f in r.families ensures Granted(env, evs + [ev], r.families[f].codeId, r.families[f].code) {
      FamiliesStep(env, s, ev, f);
      GrantedLater(env, evs, ev, r.families[f].codeId, r.families[f].code);
    }
  }

  lemma {:induction false} GrantedRun(env: Env, s: Sys, before: seq<Event>, evs: seq<Event>)
    requires GoodEnv(env) && AllGranted(env, s, before) && ValidRun(env, s, evs)
    ensures AllGranted(env, After(env, s, evs), before + evs)
    decreases |evs|
  {
    hide Apply, Enabled, GoodEnv, AllGranted;
    if evs == [] {
      assert before + evs == before;
    } else {
      GrantedStep(env, s, before, evs[0]);
      assert before + [evs[0]] + evs[1..] == before + evs;
      GrantedRun(env, Apply(env, s, evs[0]), before + [evs[0]], evs[1..]);
    }
  }

  /**
   Every code in the store, and every code that a family began with, was made by an authorization of the run:
   the password was that of its subject, one of the client's own users, and its client, redirect URI, challenge,
   nonce and scopes are those of that request.
   */
  lemma EveryCodeWasGranted(env: Env, evs: seq<Event>, id: string, family: string)
    requires GoodEnv(env) && ValidRun(env, INIT, evs)
    ensures var s := After(env, INIT, evs);
            && (id in s.tables.codes ==> Granted(env, evs, id, s.tables.codes[id]))
            && (family in s.families ==> Granted(env, evs, s.families[family].codeId, s.families[family].code))
  {
    hide GoodEnv, Granted;
    GrantedRun(env, INIT, [], evs);
    assert [] + evs == evs;
  }
}
