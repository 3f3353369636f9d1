/** What the events of a grant change, and what they leave alone. */
module ProtocolFrames {
  import opened Options
  import opened Clients
  import opened Policy
  import opened StoreTables
  import opened Protocol
  import opened ProtocolInvariants

  /** No request but `tid` has moved. */
  ghost predicate OnlyMoves(s: Sys, r: Sys, tid: nat) {
    forall i :: i != tid ==> (i in r.threads <==> i in s.threads) && (i in s.threads ==> r.threads[i] == s.threads[i])
  }

  function AfterTakeCode(env: Env, s: Sys, cr: Credentials, token: string, t1: Time, t2: Time): Tables {
    if token == "" || AuthenticateClient(env, cr).None? then s.tables else TakeCode(s.tables, token, t1, t2).0
  }

  /** The code that a code grant redeems, if it redeems one. */
  function CodeYield(env: Env, s: Sys, cr: Credentials, token: string, t1: Time, t2: Time): seq<string> {
    if token != "" && AuthenticateClient(env, cr).Some? && TakeCode(s.tables, token, t1, t2).1.Some? then [token] else []
  }

  lemma CodeGrantFrame(env: Env, s: Sys, tid: nat, cr: Credentials, token: string, redirectUri: string,
                       verifier: string, family: string, t1: Time, t2: Time)
    ensures var r := DoCodeGrant(env, s, tid, cr, token, redirectUri, verifier, family, t1, t2);
            && r.clock == t2 && r.tables == AfterTakeCode(env, s, cr, token, t1, t2)
            && r.issued == s.issued && r.foreign == s.foreign && s.families.Keys <= r.families.Keys
            && OnlyMoves(s, r, tid)
  {
    hide AuthenticateClient, TakeCode, RedemptionOk;
    if token == "" || AuthenticateClient(env, cr).None? {
    } else if TakeCode(s.tables, token, t1, t2).1.None? {
    } else {
    }
  }

  lemma CodeGrantLogs(env: Env, s: Sys, tid: nat, cr: Credentials, token: string, redirectUri: string,
                      verifier: string, family: string, t1: Time, t2: Time)
    ensures var r := DoCodeGrant(env, s, tid, cr, token, redirectUri, verifier, family, t1, t2);
            && r.refreshLog == s.refreshLog && r.consumed == s.consumed && s.drawn <= r.drawn
            && r.codeLog == s.codeLog + CodeYield(env, s, cr, token, t1, t2)
  {
    hide AuthenticateClient, TakeCode, RedemptionOk;
    if token == "" || AuthenticateClient(env, cr).None? {
    } else if TakeCode(s.tables, token, t1, t2).1.None? {
    } else {
    }
  }

  function AfterTakeRefresh(env: Env, s: Sys, cr: Credentials, token: string, t1: Time, t2: Time): Tables {
    if token == "" || AuthenticateClient(env, cr).None? then s.tables else TakeRefresh(s.tables, token, t1, t2).0
  }

  function RedeemedPc(c: Client, f: RefreshEntry): Pc {
    if c.clientId != f.clientId then Mismatch(f.family) else Ready(EntryCtx(f))
  }

  /** The refresh token that a refresh grant redeems, if it redeems one. */
  function RefreshYield(env: Env, s: Sys, cr: Credentials, token: string, t1: Time, t2: Time): seq<string> {
    if token != "" && AuthenticateClient(env, cr).Some? && TakeRefresh(s.tables, token, t1, t2).1.Redeemed? then [token] else []
  }

  lemma RefreshGrantFrame(env: Env, s: Sys, tid: nat, cr: Credentials, token: string, t1: Time, t2: Time)
    ensures var r := DoRefreshGrant(env, s, tid, cr, token, t1, t2);
            && r.clock == t2 && r.tables == AfterTakeRefresh(env, s, cr, token, t1, t2)
            && r.issued == s.issued && r.foreign == s.foreign && r.families == s.families && r.drawn == s.drawn
            && OnlyMoves(s, r, tid) && r.codeLog == s.codeLog
            && r.refreshLog == s.refreshLog + RefreshYield(env, s, cr, token, t1, t2)
            && if token == "" || AuthenticateClient(env, cr).None? then r.threads == s.threads
               else match TakeRefresh(s.tables, token, t1, t2).1
                 case Redeemed(f) => r.threads == s.threads[tid := RedeemedPc(AuthenticateClient(env, cr).value, f)]
                 case _ => r.threads == s.threads
  {
    hide AuthenticateClient, TakeRefresh, Kills;
    if token == "" || AuthenticateClient(env, cr).None? {
    } else {
      match TakeRefresh(s.tables, token, t1, t2).1
      case Unknown =>
      case Reused =>
      case Redeemed(_) =>
    }
  }

  lemma AuthorizeFrame(env: Env, s: Sys, q: AuthorizeRequest, username: string, password: string, id: string, t1: Time, t2: Time)
    ensures var r := DoAuthorize(env, s, q, username, password, id, t1, t2);
            && r.clock == t2 && r.threads == s.threads
            && r.issued == s.issued && r.foreign == s.foreign && r.families == s.families && s.drawn <= r.drawn
            && r.codeLog == s.codeLog && r.refreshLog == s.refreshLog && r.consumed == s.consumed
  {
    hide Authorize, NewCode, AddCode;
    if Authorize(env, q, username, password).None? {
    } else {
    }
  }

  lemma AppGrantFrame(env: Env, s: Sys, tid: nat, cr: Credentials, scope: string, jti: string, t2: Time)
    ensures var r := DoAppGrant(env, s, tid, cr, scope, jti, t2);
            && r.clock == t2 && r.tables == s.tables
            && r.issued == s.issued && r.foreign == s.foreign && r.families == s.families && s.drawn <= r.drawn
            && OnlyMoves(s, r, tid) && r.codeLog == s.codeLog && r.refreshLog == s.refreshLog && r.consumed == s.consumed
  {
    hide AuthenticateClient, ResolveScopes, AppAccess, Client.Confidential, Client.AllowsGrant;
    var c := AuthenticateClient(env, cr);
    if c.Some? && c.value.Confidential() && c.value.AllowsGrant(GRANT_CLIENT_CREDENTIALS) {
      if ResolveScopes(c.value, scope).Some? {
      }
    }
  }

  lemma SignFrame(env: Env, s: Sys, tid: nat, jti: string, t2: Time)
    requires tid in s.threads && s.threads[tid].Ready?
    ensures var r := DoSign(env, s, tid, jti, t2);
            && r.clock == t2 && r.tables == s.tables
            && r.issued == s.issued && r.foreign == s.foreign && r.families == s.families && s.drawn <= r.drawn
            && OnlyMoves(s, r, tid) && r.codeLog == s.codeLog && r.refreshLog == s.refreshLog && r.consumed == s.consumed
  {
    hide Env.Find, UserAccess;
    if env.Find(s.threads[tid].ctx.clientId).None? {
    } else {
    }
  }

  // ----- any event -----

  /** The request that an event belongs to, if it belongs to one that lasts. */
  function RequestOf(ev: Event): Option<nat> {
    match ev
    case CodeGrant(tid, _, _, _, _, _, _, _) => Some(tid)
    case RefreshGrant(tid, _, _, _, _) => Some(tid)
    case AppGrant(tid, _, _, _, _) => Some(tid)
    case Sign(tid, _, _) => Some(tid)
    case Register(tid) => Some(tid)
    case StoreRefresh(tid, _, _, _) => Some(tid)
    case Abort(tid) => Some(tid)
    case MismatchRevoke(tid, _) => Some(tid)
    case Parse(tid, _, _, _, _) => Some(tid)
    case Check(tid, _) => Some(tid)
    case Deny(tid) => Some(tid)
    case _ => None
  }

  function CodeYieldOf(env: Env, s: Sys, ev: Event): seq<string> {
    if ev.CodeGrant? then CodeYield(env, s, ev.cr, ev.token, ev.t1, ev.t2) else []
  }

  function RefreshYieldOf(env: Env, s: Sys, ev: Event): seq<string> {
    if ev.RefreshGrant? then RefreshYield(env, s, ev.cr, ev.token, ev.t1, ev.t2) else []
  }

  /** The request is where it was. */
  ghost predicate Waits(s: Sys, r: Sys, tid: nat) {
    (tid in r.threads <==> tid in s.threads) && (tid in s.threads ==> r.threads[tid] == s.threads[tid])
  }

  /** What every event does to the clock, the requests and the history. */
  ghost predicate Frame(env: Env, s: Sys, ev: Event, r: Sys) {
    && r.clock == (if ev.Register? || ev.Abort? || ev.Deny? then s.clock else ev.t2)
    && (forall tid: nat :: RequestOf(ev) != Some(tid) ==> Waits(s, r, tid))
    && s.drawn <= r.drawn && s.families.Keys <= r.families.Keys && (!ev.CodeGrant? ==> r.families == s.families)
    && r.foreign == (if ev.Parse? && ev.jti !in s.issued then s.foreign[ev.jti := ev.claimExp] else s.foreign)
    && (!ev.Register? ==> r.issued == s.issued)
    && (!ev.RefreshGrant? ==> r.consumed == s.consumed)
    && r.codeLog == s.codeLog + CodeYieldOf(env, s, ev)
    && r.refreshLog == s.refreshLog + RefreshYieldOf(env, s, ev)
  }

  predicate IsGrant(ev: Event) {
    ev.AuthorizeEvent? || ev.CodeGrant? || ev.RefreshGrant? || ev.AppGrant? || ev.Sign?
  }

  lemma GrantStep(env: Env, s: Sys, ev: Event)
    requires Enabled(env, s, ev) && IsGrant(ev)
    ensures Frame(env, s, ev, Apply(env, s, ev))
  {
    hide DoAuthorize, DoCodeGrant, DoRefreshGrant, DoAppGrant, DoSign, DoRegister, DoStoreRefresh, DoCheck, CodeYield, RefreshYield;
    hide RevokeFamily, RevokeToken, DenyJti, DropExpired, Presentable, Unseen, AuthenticateClient, TakeRefresh;
    assert s.codeLog + [] == s.codeLog && s.refreshLog + [] == s.refreshLog;
    match ev
    case AuthorizeEvent(q, username, password, id, t1, t2) => AuthorizeFrame(env, s, q, username, password, id, t1, t2);
    case CodeGrant(tid, cr, token, redirectUri, verifier, id, t1, t2) =>
      CodeGrantFrame(env, s, tid, cr, token, redirectUri, verifier, id, t1, t2);
      CodeGrantLogs(env, s, tid, cr, token, redirectUri, verifier, id, t1, t2);
    case RefreshGrant(tid, cr, token, t1, t2) => RefreshGrantFrame(env, s, tid, cr, token, t1, t2);
    case AppGrant(tid, cr, scope, jti, t2) => AppGrantFrame(env, s, tid, cr, scope, jti, t2);
    case Sign(tid, jti, t2) => SignFrame(env, s, tid, jti, t2);
  }

  lemma RegisterFrame(s: Sys, tid: nat)
    requires tid in s.threads && (s.threads[tid].Signed? || s.threads[tid].AppSigned?)
    ensures var r := DoRegister(s, tid);
            && OnlyMoves(s, r, tid) && r == s.(tables := r.tables, issued := r.issued, threads := r.threads)
  {
    hide RegisterJti;
  }

  lemma CheckFrame(s: Sys, tid: nat, t2: Time)
    requires tid in s.threads && s.threads[tid].Parsed?
    ensures var r := DoCheck(s, tid, t2);
            && OnlyMoves(s, r, tid) && r == s.(clock := t2, threads := r.threads)
  {
    hide IsDenied;
  }

  /** The events that take a request further. */
  lemma RequestStep(env: Env, s: Sys, ev: Event)
    requires Enabled(env, s, ev) && !IsGrant(ev) && RequestOf(ev).Some?
    ensures Frame(env, s, ev, Apply(env, s, ev))
  {
    hide DoAuthorize, DoCodeGrant, DoRefreshGrant, DoAppGrant, DoSign, DoRegister, DoCheck, AddRefresh, NewEntry;
    hide RevokeFamily, RevokeToken, DenyJti, DropExpired, Presentable, Unseen, CodeYield, RefreshYield;
    assert s.codeLog + [] == s.codeLog && s.refreshLog + [] == s.refreshLog;
    match ev
    case Register(tid) => RegisterFrame(s, tid);
    case Check(tid, t2) => CheckFrame(s, tid, t2);
    case StoreRefresh(_, _, _, _) =>
    case Abort(_) =>
    case MismatchRevoke(_, _) =>
    case Parse(_, _, _, _, _) =>
    case Deny(_) =>
  }

  lemma PlainStep(env: Env, s: Sys, ev: Event)
    requires Enabled(env, s, ev) && !IsGrant(ev) && RequestOf(ev).None?
    ensures Frame(env, s, ev, Apply(env, s, ev))
  {
    hide DoAuthorize, DoCodeGrant, DoRefreshGrant, DoAppGrant, DoSign, DoRegister, DoCheck, DoStoreRefresh, CodeYield, RefreshYield;
    hide RevokeFamily, RevokeToken, DropExpired;
    assert s.codeLog + [] == s.codeLog && s.refreshLog + [] == s.refreshLog;
  }

  lemma StepFrame(env: Env, s: Sys, ev: Event)
    requires Enabled(env, s, ev)
    ensures Frame(env, s, ev, Apply(env, s, ev))
  {
    hide Apply, Enabled, Frame;
    if IsGrant(ev) {
      GrantStep(env, s, ev);
    } else if RequestOf(ev).Some? {
      RequestStep(env, s, ev);
    } else {
      PlainStep(env, s, ev);
    }
  }
}
