/**
 What the token endpoint answers to whom, said in terms of the request, the store and the clients file alone:
 the conditions of each grant, and what the tokens it hands out contain.
 */
module Answers {
  import opened Options
  import opened Text
  import opened Scopes
  import opened Clients
  import opened Policy
  import opened StoreTables
  import opened Protocol

  /** The request proves that it comes from the client. */
  predicate Proven(env: Env, cr: Credentials, c: Client) {
    c in env.file.clients && (ProvenByHeader(env, cr, c) || ProvenByForm(env, cr, c))
  }

  lemma ProvenIs(env: Env, cr: Credentials, c: Client)
    requires GoodEnv(env)
    ensures AuthenticateClient(env, cr) == Some(c) <==> Proven(env, cr, c)
    ensures Proven(env, cr, c) ==> env.Find(c.clientId) == Some(c) && UsersOk(c.users)
  {
    hide GoodEnv, AuthenticateClient, ProvenByHeader, ProvenByForm;
    AuthenticationIsProof(env, cr, c);
    if c in env.file.clients {
      Registered(env, c);
      UsersAreOk(env, c);
    }
  }

  // ----- the code grant -----

  /** The code is live at the second clock reading, and the client, the redirect URI and the verifier are the code's. */
  predicate CodeGrantOk(env: Env, s: Tables, cr: Credentials, code: string, redirectUri: string, verifier: string, now: Time, c: Client) {
    && Proven(env, cr, c) && code != "" && code in s.codes
    && var ac := s.codes[code];
    && now <= ac.expiresAt && ac.clientId == c.clientId
    && redirectUri != "" && redirectUri == ac.redirectUri
    && (ac.challenge == "" ||
        (VerifierOk(verifier) && ac.challengeMethod in {"", "S256"} && env.s256(verifier) == ac.challenge))
  }

  lemma CodeGrantIff(env: Env, s: Tables, cr: Credentials, code: string, redirectUri: string, verifier: string, t1: Time, t2: Time,
                     c: Client)
    requires GoodEnv(env) && t1 <= t2
    ensures var taken := TakeCode(s, code, t1, t2).1;
            && (code != "" && AuthenticateClient(env, cr) == Some(c) && taken.Some? &&
                RedemptionOk(env, taken.value, c, redirectUri, verifier)
                <==> CodeGrantOk(env, s, cr, code, redirectUri, verifier, t2, c))
            && (taken.Some? ==> code in s.codes && taken.value == s.codes[code])
  {
    hide GoodEnv, AuthenticateClient, Proven, VerifierOk;
    ProvenIs(env, cr, c);
  }

  /** Who redeems the code, if anybody does. */
  lemma CodeGrantWho(env: Env, s: Tables, cr: Credentials, code: string, redirectUri: string, verifier: string, t1: Time, t2: Time)
    requires GoodEnv(env) && t1 <= t2
    ensures var client, taken := AuthenticateClient(env, cr), TakeCode(s, code, t1, t2).1;
            && (forall c :: CodeGrantOk(env, s, cr, code, redirectUri, verifier, t2, c) ==>
                  code != "" && client == Some(c) && taken.Some? && RedemptionOk(env, taken.value, c, redirectUri, verifier))
            && (code != "" && client.Some? && taken.Some? && RedemptionOk(env, taken.value, client.value, redirectUri, verifier) ==>
                  CodeGrantOk(env, s, cr, code, redirectUri, verifier, t2, client.value))
            && (taken.Some? ==> code in s.codes && taken.value == s.codes[code])
            && (client.Some? ==> env.Find(client.value.clientId) == client && UsersOk(client.value.users))
  {
    hide GoodEnv, AuthenticateClient, TakeCode, RedemptionOk, CodeGrantOk, UsersOk, Proven;
    var client := AuthenticateClient(env, cr);
    forall c | CodeGrantOk(env, s, cr, code, redirectUri, verifier, t2, c)
      ensures var taken := TakeCode(s, code, t1, t2).1;
              code != "" && client == Some(c) && taken.Some? && RedemptionOk(env, taken.value, c, redirectUri, verifier)
    {
      CodeGrantIff(env, s, cr, code, redirectUri, verifier, t1, t2, c);
    }
    if client.Some? {
      ProvenIs(env, cr, client.value);
      CodeGrantIff(env, s, cr, code, redirectUri, verifier, t1, t2, client.value);
    } else {
      CodeGrantIff(env, s, cr, code, redirectUri, verifier, t1, t2, Client("", "", "", "", [], [], [], [], [], [], [], []));
    }
  }

  // ----- the refresh grant -----

  /** No live refresh token of the family is left. */
  predicate FamilyGone(s: Tables, family: string) {
    family != "" ==> forall id :: id in s.refresh ==> s.refresh[id].family != family
  }

  /** The token is live at both clock readings and not one that has been redeemed, and its entry is the client's. */
  predicate RefreshGrantOk(env: Env, s: Tables, cr: Credentials, token: string, t1: Time, t2: Time, c: Client) {
    && Proven(env, cr, c) && token != "" && token in s.refresh
    && (token in s.used ==> s.used[token].expiresAt < t1)
    && t2 <= s.refresh[token].expiresAt && s.refresh[token].clientId == c.clientId
  }

  lemma RefreshGrantIff(env: Env, s: Tables, cr: Credentials, token: string, t1: Time, t2: Time, c: Client)
    requires GoodEnv(env) && t1 <= t2
    ensures var taken := TakeRefresh(s, token, t1, t2).1;
            && (token != "" && AuthenticateClient(env, cr) == Some(c) && taken.Redeemed? && taken.entry.clientId == c.clientId
                <==> RefreshGrantOk(env, s, cr, token, t1, t2, c))
            && (taken.Redeemed? ==> token in s.refresh && taken.entry == s.refresh[token])
            && (taken.Reused? <==> token in s.used && t1 <= s.used[token].expiresAt)
  {
    hide GoodEnv, AuthenticateClient, Proven, RevokeFamily;
    ProvenIs(env, cr, c);
  }

  /** Who refreshes, if anybody does, and what anything else is. */
  lemma RefreshGrantWho(env: Env, s: Tables, cr: Credentials, token: string, t1: Time, t2: Time)
    requires GoodEnv(env) && t1 <= t2
    ensures var client, taken := AuthenticateClient(env, cr), TakeRefresh(s, token, t1, t2).1;
            && (forall c :: RefreshGrantOk(env, s, cr, token, t1, t2, c) ==>
                  token != "" && client == Some(c) && taken.Redeemed? && taken.entry.clientId == c.clientId)
            && (token != "" && client.Some? && taken.Redeemed? && taken.entry.clientId == client.value.clientId ==>
                  RefreshGrantOk(env, s, cr, token, t1, t2, client.value))
            && (forall c :: Proven(env, cr, c) ==> client == Some(c))
            && (taken.Redeemed? ==> token in s.refresh && taken.entry == s.refresh[token])
            && (taken.Redeemed? <==>
                  token in s.refresh && (token in s.used ==> s.used[token].expiresAt < t1) && t2 <= s.refresh[token].expiresAt)
            && (taken.Reused? <==> token in s.used && t1 <= s.used[token].expiresAt)
            && (client.Some? ==> env.Find(client.value.clientId) == client && UsersOk(client.value.users))
  {
    TakenHow(s, token, t1, t2);
    hide GoodEnv, AuthenticateClient, TakeRefresh, RefreshGrantOk, UsersOk, Proven;
    var client := AuthenticateClient(env, cr);
    forall c | RefreshGrantOk(env, s, cr, token, t1, t2, c)
      ensures var taken := TakeRefresh(s, token, t1, t2).1;
              token != "" && client == Some(c) && taken.Redeemed? && taken.entry.clientId == c.clientId
    {
      RefreshGrantIff(env, s, cr, token, t1, t2, c);
    }
    forall c | Proven(env, cr, c) ensures client == Some(c) {
      ProvenIs(env, cr, c);
    }
    if client.Some? {
      ProvenIs(env, cr, client.value);
      RefreshGrantIff(env, s, cr, token, t1, t2, client.value);
    }
  }

  lemma TakenHow(s: Tables, token: string, t1: Time, t2: Time)
    requires t1 <= t2
    ensures var taken := TakeRefresh(s, token, t1, t2).1;
            && (taken.Redeemed? ==> token in s.refresh && taken.entry == s.refresh[token])
            && (taken.Redeemed? <==>
                  token in s.refresh && (token in s.used ==> s.used[token].expiresAt < t1) && t2 <= s.refresh[token].expiresAt)
            && (taken.Reused? <==> token in s.used && t1 <= s.used[token].expiresAt)
  {
    hide RevokeFamily;
  }

  /** Reuse leaves no live refresh token of the family. */
  lemma ReusedCuts(s: Tables, token: string, t1: Time, t2: Time)
    requires TakeRefresh(s, token, t1, t2).1.Reused?
    ensures token !in TakeRefresh(s, token, t1, t2).0.used
    ensures token in s.used && FamilyGone(TakeRefresh(s, token, t1, t2).0, s.used[token].family)
  {
    hide Doomed;
  }

  // ----- the client credentials grant -----

  predicate AppGrantOk(env: Env, cr: Credentials, scope: string, c: Client) {
    && Proven(env, cr, c) && c.kind == "confidential" && "client_credentials" in c.grantTypes
    && (AsksForAll(c, scope) || TrimSpace(scope) in c.ccScopes)
  }

  function AppScopes(c: Client, scope: string): seq<string> {
    if AsksForAll(c, scope) then c.ccScopes else [TrimSpace(scope)]
  }

  lemma AppGrantIff(env: Env, cr: Credentials, scope: string, c: Client)
    requires GoodEnv(env)
    ensures AuthenticateClient(env, cr) == Some(c) && c.Confidential() && c.AllowsGrant(GRANT_CLIENT_CREDENTIALS) &&
            ResolveScopes(c, scope).Some?
            <==> AppGrantOk(env, cr, scope, c)
    ensures ResolveScopes(c, scope).Some? ==> ResolveScopes(c, scope).value == AppScopes(c, scope)
  {
    hide GoodEnv, AuthenticateClient, Proven, AsksForAll, ResolveScopes;
    ProvenIs(env, cr, c);
    var all := ResolveScopes(c, scope);
  }

  // ----- what the tokens contain -----

  /** The expiry claim is the registered expiry without its fraction of a second. */
  predicate ExpiresAt(a: Access, expiry: Time) {
    a.regExp == expiry && a.claimExp % SECOND == 0 && a.claimExp <= expiry < a.claimExp + SECOND
  }

  predicate AudienceOf(c: Client, audience: string) {
    audience == if c.audience != "" then c.audience else c.clientId
  }

  /** The roles are those of the client's user of that name, if there is one. */
  ghost predicate RolesOf(c: Client, sub: string, roles: seq<string>) {
    && (forall u :: u in c.users && u.username == sub ==> roles == u.roles)
    && ((forall u :: u in c.users ==> u.username != sub) ==> roles == [])
  }

  /** A user token of the client for the identity, issued at `now`. */
  ghost predicate UserToken(env: Env, c: Client, ctx: Ctx, now: Time, a: Access) {
    && !a.app && a.family == ctx.family && a.sub == ctx.sub && a.clientId == c.clientId
    && a.scopes == ctx.scopes && a.scopeClaim == Join(Dedup(NonEmpty(ctx.scopes)))
    && AudienceOf(c, a.audience) && RolesOf(c, ctx.sub, a.roles) && ExpiresAt(a, now + env.accessTtl)
  }

  lemma UserAccessIs(env: Env, c: Client, ctx: Ctx, now: Time)
    requires UsersOk(c.users)
    ensures UserToken(env, c, ctx, now, UserAccess(env, c, ctx, now))
  {
    hide UsersOk, ExpiresAt;
    RolesAre(c, ctx.sub);
    assert ExpiresAt(UserAccess(env, c, ctx, now), now + env.accessTtl) by { Truncated(env, c, ctx, now); }
  }

  lemma Truncated(env: Env, c: Client, ctx: Ctx, now: Time)
    ensures ExpiresAt(UserAccess(env, c, ctx, now), now + env.accessTtl)
  {
  }

  lemma RolesAre(c: Client, sub: string)
    requires UsersOk(c.users)
    ensures RolesOf(c, sub, UserRoles(c, sub))
  {
    hide UsersOk;
    forall u | u in c.users && u.username == sub ensures UserRoles(c, sub) == u.roles {
      UserIs(c.users, u);
    }
  }

  /** An app token of the client, issued at `now`. */
  predicate AppToken(env: Env, c: Client, scope: string, now: Time, a: Access) {
    && a.app && a.family == "" && a.sub == c.clientId && a.clientId == c.clientId
    && a.scopes == AppScopes(c, scope) && a.scopeClaim == Join(Dedup(NonEmpty(AppScopes(c, scope))))
    && AudienceOf(c, a.audience) && a.roles == c.ccRoles && ExpiresAt(a, now + env.accessTtl)
  }

  lemma AppAccessIs(env: Env, c: Client, scope: string, now: Time)
    ensures AppToken(env, c, scope, now, AppAccess(env, c, AppScopes(c, scope), now))
  {
    hide AppScopes;
  }
}
