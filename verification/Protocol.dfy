/**
 The token lifecycle as a transition system at lock granularity.

 A grant is not one step: the code or refresh token is taken in one critical section, the access
 token is registered in a second, and the new refresh token is stored in a third.  Requests in
 flight between two sections are kept in `threads` with a program counter, so that every
 interleaving of concurrent requests is a run.  All randomness, clock readings and request
 contents are part of the event; random ids are assumed fresh.
 */
module Protocol {
  import opened Scopes
  import opened Clients
  import opened Policy
  import opened StoreTables

  /** The identity a token set is minted for. */
  datatype Ctx = Ctx(sub: string, clientId: string, nonce: string, family: string, scopes: seq<string>)

  /**
   An access token: the claims that were signed, and the expiry that was registered for it.
   `app` marks a client_credentials token, which belongs to the empty family.
   */
  datatype Access = Access(
    app: bool,
    family: string,
    sub: string,
    clientId: string,
    scopes: seq<string>,
    scopeClaim: string,
    audience: string,
    roles: seq<string>,
    claimExp: Time,
    regExp: Time)

  /** How a family began: the code, and what the redeeming request presented. */
  datatype Origin = Origin(codeId: string, code: AuthCode, client: Client, redirectUri: string, verifier: string)

  datatype Pc =
    | Ready(ctx: Ctx)                                // token taken, nothing issued yet
    | Signed(ctx: Ctx, jti: string, access: Access)  // signed, not registered
    | Listed(ctx: Ctx)                               // registered, refresh token not stored
    | Mismatch(family: string)                       // taken by the wrong client, about to revoke
    | AppSigned(jti: string, access: Access)
    | Parsed(jti: string, claimExp: Time, forRevoke: bool)
    | Cleared(jti: string, claimExp: Time)           // accepted by /revoke, about to deny

  datatype Sys = Sys(
    clock: Time,
    tables: Tables,
    threads: map<nat, Pc>,
    drawn: set<string>,               // every id drawn or seen so far
    foreign: map<string, Time>,       // ids of presented tokens of earlier processes, with their claim
    families: map<string, Origin>,    // history from here on
    issued: map<string, Access>,
    codeLog: seq<string>,
    refreshLog: seq<string>,
    consumed: map<string, RefreshEntry>)

  datatype Event =
    | AuthorizeEvent(q: AuthorizeRequest, username: string, password: string, id: string, t1: Time, t2: Time)
    | CodeGrant(tid: nat, cr: Credentials, token: string, redirectUri: string, verifier: string,
                id: string, t1: Time, t2: Time)
    | RefreshGrant(tid: nat, cr: Credentials, token: string, t1: Time, t2: Time)
    | AppGrant(tid: nat, cr: Credentials, scope: string, id: string, t2: Time)
    | Sign(tid: nat, id: string, t2: Time)
    | Register(tid: nat)
    | StoreRefresh(tid: nat, id: string, t1: Time, t2: Time)
    | FailedAdd(t2: Time)                            // no random id for a new entry: the sweep stands
    | Abort(tid: nat)
    | MismatchRevoke(tid: nat, t2: Time)
    | RevokeOpaque(token: string, t2: Time)
    | Logout(sid: string, t2: Time)
    | Parse(tid: nat, jti: string, claimExp: Time, forRevoke: bool, t2: Time)
    | Check(tid: nat, t2: Time)
    | Deny(tid: nat)
    | Tick(t2: Time)

  const INIT := Sys(0, EMPTY, map[], {}, map[], map[], map[], [], [], map[])

  // ----- when an event can happen -----

  predicate Unseen(s: Sys, id: string) {
    id != "" && id !in s.drawn
  }

  /**
   A presented token that verifies was signed by this process, and then says what was signed, or
   carries an id this process has never drawn (a token of an earlier process on the same keys),
   and then says the same every time it is presented.
   Verification reads the clock first, and requires it to be before the expiry claim.
   */
  predicate Presentable(s: Sys, jti: string, claimExp: Time) {
    && jti != ""
    && (if jti in s.issued then s.issued[jti].claimExp == claimExp
        else if jti in s.foreign then s.foreign[jti] == claimExp
        else jti !in s.drawn)
  }

  predicate Enabled(env: Env, s: Sys, ev: Event) {
    match ev
    case AuthorizeEvent(_, _, _, id, t1, t2) => s.clock <= t1 <= t2 && Unseen(s, id)
    case CodeGrant(tid, _, _, _, _, id, t1, t2) => s.clock <= t1 <= t2 && tid !in s.threads && Unseen(s, id)
    case RefreshGrant(tid, _, _, t1, t2) => s.clock <= t1 <= t2 && tid !in s.threads
    case AppGrant(tid, _, _, id, t2) => s.clock <= t2 && tid !in s.threads && Unseen(s, id)
    case Sign(tid, id, t2) => s.clock <= t2 && tid in s.threads && s.threads[tid].Ready? && Unseen(s, id)
    case Register(tid) => tid in s.threads && (s.threads[tid].Signed? || s.threads[tid].AppSigned?)
    case StoreRefresh(tid, id, t1, t2) =>
      s.clock <= t1 <= t2 && tid in s.threads && s.threads[tid].Listed? && Unseen(s, id)
    case FailedAdd(t2) => s.clock <= t2
    case Abort(tid) => tid in s.threads && (s.threads[tid].Ready? || s.threads[tid].Listed?)
    case MismatchRevoke(tid, t2) => s.clock <= t2 && tid in s.threads && s.threads[tid].Mismatch?
    case RevokeOpaque(_, t2) => s.clock <= t2
    case Logout(sid, t2) => s.clock <= t2 && sid != ""
    case Parse(tid, jti, claimExp, _, t2) =>
      s.clock <= t2 < claimExp && tid !in s.threads && Presentable(s, jti, claimExp)
    case Check(tid, t2) => s.clock <= t2 && tid in s.threads && s.threads[tid].Parsed?
    case Deny(tid) => tid in s.threads && s.threads[tid].Cleared?
    case Tick(t2) => s.clock <= t2
  }

  // ----- what an event does -----

  /** The expiry claim is a whole number of seconds, rounded down. */
  function Truncate(t: Time): (r: Time)
    ensures t - SECOND < r <= t
  {
    t - t % SECOND
  }

  function NewCode(q: AuthorizeRequest, sub: string, now: Time): AuthCode {
    AuthCode(now + CODE_TTL, sub, q.clientId, q.redirectUri, q.challenge, q.challengeMethod, q.nonce, ParseScopes(q.scope))
  }

  function DoAuthorize(env: Env, s: Sys, q: AuthorizeRequest, username: string, password: string,
                       id: string, t1: Time, t2: Time): Sys {
    match Authorize(env, q, username, password)
    case None => s.(clock := t2)
    case Some((_, sub)) =>
      s.(clock := t2, tables := AddCode(s.tables, NewCode(q, sub, t2), id, t1), drawn := s.drawn + {id})
  }

  /** The checks between taking a code and issuing tokens for it. */
  predicate RedemptionOk(env: Env, code: AuthCode, c: Client, redirectUri: string, verifier: string) {
    && c.clientId == code.clientId
    && redirectUri != "" && redirectUri == code.redirectUri
    && VerifyPkce(env, code.challenge, code.challengeMethod, verifier)
  }

  function DoCodeGrant(env: Env, s: Sys, tid: nat, cr: Credentials, token: string, redirectUri: string,
                       verifier: string, family: string, t1: Time, t2: Time): Sys {
    var client := AuthenticateClient(env, cr);
    if token == "" || client.None? then s.(clock := t2) else
    var (tables, taken) := TakeCode(s.tables, token, t1, t2);
    if taken.None? then s.(clock := t2, tables := tables) else
    var s1 := s.(clock := t2, tables := tables, codeLog := s.codeLog + [token]);
    if !RedemptionOk(env, taken.value, client.value, redirectUri, verifier) then s1 else
    s1.(drawn := s.drawn + {family},
        families := s.families[family := Origin(token, taken.value, client.value, redirectUri, verifier)],
        threads := s.threads[tid := Ready(Ctx(taken.value.sub, taken.value.clientId, taken.value.nonce, family,
                                              taken.value.scopes))])
  }

  /** The families that an event revokes. */
  function Kills(env: Env, s: Sys, ev: Event): (r: set<string>)
    ensures "" !in r
  {
    (match ev
     case RefreshGrant(_, cr, token, t1, _) =>
       var used := DropExpired(s.tables, t1).used;
       if token != "" && AuthenticateClient(env, cr).Some? && token in used then {used[token].family} else {}
     case MismatchRevoke(tid, _) =>
       if tid in s.threads && s.threads[tid].Mismatch? then {s.threads[tid].family} else {}
     case RevokeOpaque(token, _) =>
       if token in s.tables.refresh then {s.tables.refresh[token].family}
       else if token in s.tables.used then {s.tables.used[token].family}
       else {}
     case Logout(sid, _) => {sid}
     case _ => {}) - {""}
  }

  function DoRefreshGrant(env: Env, s: Sys, tid: nat, cr: Credentials, token: string, t1: Time, t2: Time): Sys {
    var client := AuthenticateClient(env, cr);
    if token == "" || client.None? then s.(clock := t2) else
    var (tables, taken) := TakeRefresh(s.tables, token, t1, t2);
    var s1 := s.(clock := t2, tables := tables);
    match taken
    case Unknown => s1
    case Reused => s1
    case Redeemed(f) =>
      s1.(refreshLog := s.refreshLog + [token],
          consumed := s.consumed[token := f],
          threads := s.threads[tid := if client.value.clientId != f.clientId then Mismatch(f.family)
                                      else Ready(Ctx(f.sub, f.clientId, f.nonce, f.family, f.scopes))])
  }

  function UserAccess(env: Env, c: Client, ctx: Ctx, now: Time): Access {
    var exp := now + env.accessTtl;
    Access(false, ctx.family, ctx.sub, c.clientId, ctx.scopes, JoinScopes(ctx.scopes), c.Audience(),
           UserRoles(c, ctx.sub), Truncate(exp), exp)
  }

  function AppAccess(env: Env, c: Client, scopes: seq<string>, now: Time): Access {
    var exp := now + env.accessTtl;
    Access(true, "", c.clientId, c.clientId, scopes, JoinScopes(scopes), c.Audience(), c.ccRoles, Truncate(exp), exp)
  }

  function DoAppGrant(env: Env, s: Sys, tid: nat, cr: Credentials, scope: string, jti: string, t2: Time): Sys {
    var s1 := s.(clock := t2);
    match AuthenticateClient(env, cr)
    case None => s1
    case Some(c) =>
      if !c.Confidential() || !c.AllowsGrant(GRANT_CLIENT_CREDENTIALS) then s1 else
      match ResolveScopes(c, scope)
      case None => s1
      case Some(scopes) =>
        s1.(drawn := s.drawn + {jti}, threads := s.threads[tid := AppSigned(jti, AppAccess(env, c, scopes, t2))])
  }

  function DoSign(env: Env, s: Sys, tid: nat, jti: string, t2: Time): Sys
    requires tid in s.threads && s.threads[tid].Ready?
  {
    var ctx := s.threads[tid].ctx;
    match env.Find(ctx.clientId)
    case None => s.(clock := t2, threads := s.threads - {tid})
    case Some(c) =>
      s.(clock := t2, drawn := s.drawn + {jti},
         threads := s.threads[tid := Signed(ctx, jti, UserAccess(env, c, ctx, t2))])
  }

  function DoRegister(s: Sys, tid: nat): Sys
    requires tid in s.threads && (s.threads[tid].Signed? || s.threads[tid].AppSigned?)
  {
    match s.threads[tid]
    case Signed(ctx, jti, a) =>
      s.(tables := RegisterJti(s.tables, jti, JtiRecord(a.regExp, ctx.sub, ctx.family)),
         issued := s.issued[jti := a],
         threads := s.threads[tid := Listed(ctx)])
    case AppSigned(jti, a) =>
      s.(tables := RegisterJti(s.tables, jti, JtiRecord(a.regExp, a.clientId, "")),
         issued := s.issued[jti := a],
         threads := s.threads - {tid})
  }

  function NewEntry(env: Env, ctx: Ctx, now: Time): RefreshEntry {
    RefreshEntry(now + env.refreshTtl, ctx.sub, ctx.clientId, ctx.nonce, ctx.family, ctx.scopes)
  }

  function DoStoreRefresh(env: Env, s: Sys, tid: nat, id: string, t1: Time, t2: Time): Sys
    requires tid in s.threads && s.threads[tid].Listed?
  {
    s.(clock := t2,
       tables := AddRefresh(s.tables, NewEntry(env, s.threads[tid].ctx, t2), id, t1),
       drawn := s.drawn + {id},
       threads := s.threads - {tid})
  }

  function DoCheck(s: Sys, tid: nat, t2: Time): Sys
    requires tid in s.threads && s.threads[tid].Parsed?
  {
    var p := s.threads[tid];
    if !IsDenied(s.tables, p.jti, t2) && p.forRevoke
    then s.(clock := t2, threads := s.threads[tid := Cleared(p.jti, p.claimExp)])
    else s.(clock := t2, threads := s.threads - {tid})
  }

  function Apply(env: Env, s: Sys, ev: Event): Sys
    requires Enabled(env, s, ev)
  {
    match ev
    case AuthorizeEvent(q, username, password, id, t1, t2) => DoAuthorize(env, s, q, username, password, id, t1, t2)
    case CodeGrant(tid, cr, token, redirectUri, verifier, family, t1, t2) =>
      DoCodeGrant(env, s, tid, cr, token, redirectUri, verifier, family, t1, t2)
    case RefreshGrant(tid, cr, token, t1, t2) => DoRefreshGrant(env, s, tid, cr, token, t1, t2)
    case AppGrant(tid, cr, scope, jti, t2) => DoAppGrant(env, s, tid, cr, scope, jti, t2)
    case Sign(tid, jti, t2) => DoSign(env, s, tid, jti, t2)
    case Register(tid) => DoRegister(s, tid)
    case StoreRefresh(tid, id, t1, t2) => DoStoreRefresh(env, s, tid, id, t1, t2)
    case FailedAdd(t2) => s.(clock := t2, tables := DropExpired(s.tables, t2))
    case Abort(tid) => s.(threads := s.threads - {tid})
    case MismatchRevoke(tid, t2) =>
      s.(clock := t2, tables := RevokeFamily(s.tables, s.threads[tid].family, t2), threads := s.threads - {tid})
    case RevokeOpaque(token, t2) => s.(clock := t2, tables := RevokeToken(s.tables, token, t2))
    case Logout(sid, t2) => s.(clock := t2, tables := RevokeFamily(s.tables, sid, t2))
    case Parse(tid, jti, claimExp, forRevoke, t2) =>
      s.(clock := t2, drawn := s.drawn + {jti},
         foreign := if jti in s.issued then s.foreign else s.foreign[jti := claimExp],
         threads := s.threads[tid := Parsed(jti, claimExp, forRevoke)])
    case Check(tid, t2) => DoCheck(s, tid, t2)
    case Deny(tid) =>
      s.(tables := DenyJti(s.tables, s.threads[tid].jti, s.threads[tid].claimExp), threads := s.threads - {tid})
    case Tick(t2) => s.(clock := t2)
  }

  // ----- runs -----

  predicate ValidRun(env: Env, s: Sys, evs: seq<Event>)
    decreases |evs|
  {
    evs == [] || (Enabled(env, s, evs[0]) && ValidRun(env, Apply(env, s, evs[0]), evs[1..]))
  }

  /** The state at the end of a run; its prefixes are runs too, so this covers every state on the way. */
  function After(env: Env, s: Sys, evs: seq<Event>): Sys
    requires ValidRun(env, s, evs)
    decreases |evs|
  {
    if evs == [] then s else After(env, Apply(env, s, evs[0]), evs[1..])
  }
}
