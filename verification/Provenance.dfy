/** What the tokens of every reachable state say, and where they come from. */
module Provenance {
  import opened Options
  import opened Text
  import opened Scopes
  import opened Clients
  import opened Registry
  import opened Policy
  import opened Answers
  import opened StoreTables
  import opened Protocol
  import opened ProtocolInvariants
  import opened ProtocolFrames
  import opened ProtocolSteps
  import opened ProtocolTheorems
  import opened Revocation
  import opened Finality

  // ----- code binding -----

  /**
   Every family began with a code redeemed by the client that obtained it, at the redirect URI it
   was obtained for, which is registered for that client; a public client also proved possession of
   a well-formed verifier whose digest is the challenge.
   */
  lemma CodeBinding(env: Env, s: Sys, family: string)
    requires Reachable(env, s) && family in s.families
    ensures var o := s.families[family];
            && env.Find(o.code.clientId) == Some(o.client) && o.client.clientId == o.code.clientId
            && o.redirectUri == o.code.redirectUri && o.redirectUri in o.client.redirectUris
            && (!o.client.Confidential() ==> VerifierOk(o.verifier) && env.s256(o.verifier) == o.code.challenge)
            && (o.code.challenge != "" ==> VerifierOk(o.verifier) && env.s256(o.verifier) == o.code.challenge)
  {
    hide Inv, Reachable, ScopesAllowed, VerifierOk, Client.Confidential;
    ReachableInv(env, s);
    FamilyOrigin(env, s, family);
  }

  /** A token request that fails client authentication changes nothing but the time. */
  lemma FailedAuthenticationIsHarmless(env: Env, s: Sys, ev: Event)
    requires Enabled(env, s, ev) && (ev.CodeGrant? || ev.RefreshGrant? || ev.AppGrant?)
    requires forall c :: c in env.file.clients ==> !ProvenByHeader(env, ev.cr, c) && !ProvenByForm(env, ev.cr, c)
    requires GoodEnv(env)
    ensures Apply(env, s, ev) == s.(clock := ev.t2)
  {
    NotAuthenticated(env, ev.cr);
    hide AuthenticateClient, FileOk, Startable, TakeCode, TakeRefresh, RedemptionOk, ResolveScopes, Kills, AppAccess;
    match ev
    case CodeGrant(_, _, _, _, _, _, _, _) =>
    case RefreshGrant(_, _, _, _, _) =>
    case AppGrant(_, _, _, _, _) =>
  }

  lemma NotAuthenticated(env: Env, cr: Credentials)
    requires GoodEnv(env)
    requires forall c :: c in env.file.clients ==> !ProvenByHeader(env, cr, c) && !ProvenByForm(env, cr, c)
    ensures AuthenticateClient(env, cr) == None
  {
    hide GoodEnv, ProvenByHeader, ProvenByForm, AuthenticateClient;
    var r := AuthenticateClient(env, cr);
    if r.Some? {
      AuthenticationIsProof(env, cr, r.value);
    }
  }

  // ----- provenance -----

  lemma TokenOk(env: Env, s: Sys, jti: string)
    requires Inv(env, s) && jti in s.issued
    ensures AccessOk(env, s.families, s.issued[jti])
  {
    hide CodesInv, FamiliesInv, EntriesFromOrigin, RefreshInv, OneCarrier, JtisInv, CoverageInv, ThreadsOk, PendingAlone;
    hide DeniedInv, AccessOk;
  }

  /**
   Every user access token carries the subject, client and scopes of the code its family began
   with.  The subject is a user of that very client, each scope is built in or one of the client's
   own, for the token's own audience, and reading the scope claim back gives the granted set.
   */
  lemma UserTokenProvenance(env: Env, s: Sys, jti: string)
    requires GoodEnv(env) && Reachable(env, s) && jti in s.issued && !s.issued[jti].app
    ensures var a := s.issued[jti];
            && a.family in s.families
            && var code := s.families[a.family].code;
            && (a.sub, a.clientId, a.scopes) == (code.sub, code.clientId, code.scopes)
            && env.Find(a.clientId).Some?
            && var c := env.Find(a.clientId).value;
            && FindUser(c.users, a.sub).Some?
            && AudienceOf(c, a.audience) && RolesOf(c, a.sub, a.roles)
            && ScopesAllowed(c, a.scopes)
            && (forall sc :: sc in a.scopes ==> sc in BUILT_IN || ScopeOfAuthority(sc, TrimPrefix(a.audience, API_PREFIX)))
            && (forall sc :: sc in ParseScopes(a.scopeClaim) <==> sc in code.scopes)
  {
    hide GoodEnv, Reachable, Inv, ScopeOfAuthority, ParseScopes, JoinScopes, PkceParamsOk, RedemptionOk;
    ReachableInv(env, s);
    TokenOk(env, s, jti);
    var a := s.issued[jti];
    FamilyOrigin(env, s, a.family);
    RoundTripOfWords(a.scopes);
    var c := env.Find(a.clientId).value;
    UsersAreOk(env, c);
    RolesAre(c, a.sub);
    hide UserRoles, RolesOf;
    forall sc | sc in a.scopes ensures sc in BUILT_IN || ScopeOfAuthority(sc, TrimPrefix(a.audience, API_PREFIX)) {
      var i :| 0 <= i < |a.scopes| && a.scopes[i] == sc;
      GrantedScopeIsOwn(env, c, sc);
    }
  }

  /** Every refresh token, live or consumed, carries the identity and nonce of its family's code. */
  lemma RefreshProvenance(env: Env, s: Sys, id: string)
    requires Reachable(env, s)
    ensures id in s.tables.refresh ==> FromOrigin(s.families, EntryCtx(s.tables.refresh[id]))
    ensures id in s.consumed ==> FromOrigin(s.families, EntryCtx(s.consumed[id]))
  {
    hide Inv, Reachable, FromOrigin;
    ReachableInv(env, s);
    Entries(env, s);
  }

  lemma Entries(env: Env, s: Sys)
    requires Inv(env, s)
    ensures EntriesFromOrigin(s.tables.refresh, s.families) && EntriesFromOrigin(s.consumed, s.families)
  {
    hide EntriesFromOrigin;
  }

  /** A client_credentials token belongs to a confidential client that may use the grant and has only its configured scopes. */
  lemma AppTokenProvenance(env: Env, s: Sys, jti: string)
    requires GoodEnv(env) && Reachable(env, s) && jti in s.issued && s.issued[jti].app
    ensures var a := s.issued[jti];
            && a.family == "" && a.sub == a.clientId && env.Find(a.clientId).Some?
            && var c := env.Find(a.clientId).value;
            && c.Confidential() && c.AllowsGrant(GRANT_CLIENT_CREDENTIALS)
            && (forall sc :: sc in a.scopes ==> sc in c.ccScopes)
            && AudienceOf(c, a.audience) && a.roles == c.ccRoles
  {
    hide GoodEnv, Reachable, Inv, Client.Confidential, Client.AllowsGrant, JoinScopes;
    ReachableInv(env, s);
    TokenOk(env, s, jti);
  }

  /** No access token, of a user or of an app, carries a role that its audience does not define. */
  lemma RoleContainment(env: Env, s: Sys, jti: string)
    requires GoodEnv(env) && Reachable(env, s) && jti in s.issued
    ensures RolesContained(env, s.issued[jti].audience, s.issued[jti].roles)
  {
    hide GoodEnv, Reachable, Inv, RolesContained, UserRoles, JoinScopes, Client.Confidential, Client.AllowsGrant;
    ReachableInv(env, s);
    TokenOk(env, s, jti);
    var a := s.issued[jti];
    var c := env.Find(a.clientId).value;
    if a.app {
      AppRolesContained(env, c);
    } else {
      UserRolesContained(env, c, a.sub);
    }
  }

  // ----- coverage -----

  /**
   Every issued access token that has not expired is either registered under its own family and
   expiry, so that revoking the family reaches it, or denied until its expiry claim at least.
   */
  lemma Coverage(env: Env, s: Sys, jti: string)
    requires Reachable(env, s) && jti in s.issued && s.clock < s.issued[jti].claimExp
    ensures var a := s.issued[jti];
            || (jti in s.tables.jtis && s.tables.jtis[jti] == JtiRecord(a.regExp, a.sub, a.family) && a.claimExp <= a.regExp)
            || (jti in s.tables.denied && a.claimExp <= s.tables.denied[jti])
  {
    hide Inv, Reachable;
    ReachableInv(env, s);
    TokenFacts(env, s, jti);
  }

  /** A token that is denied stays denied until it expires, through every sweep of the denylist. */
  lemma DenialIsForGood(env: Env, s: Sys, evs: seq<Event>, jti: string, t: Time)
    requires Reachable(env, s) && ValidRun(env, s, evs) && jti in s.issued && jti in s.tables.denied
    requires After(env, s, evs).clock <= t < s.issued[jti].claimExp
    ensures IsDenied(After(env, s, evs).tables, jti, t)
  {
    hide Inv, Reachable;
    ReachableInv(env, s);
    DenialRun(env, s, evs, jti, t);
  }

  lemma {:induction false} DenialRun(env: Env, s: Sys, evs: seq<Event>, jti: string, t: Time)
    requires Inv(env, s) && ValidRun(env, s, evs) && jti in s.issued && jti in s.tables.denied
    requires After(env, s, evs).clock <= t < s.issued[jti].claimExp
    ensures IsDenied(After(env, s, evs).tables, jti, t)
    decreases |evs|
  {
    hide Inv, Apply, Enabled, Kills, Denies;
    TokenFacts(env, s, jti);
    if evs != [] {
      var s1 := Apply(env, s, evs[0]);
      InvStep(env, s, evs[0]);
      ClockRun(env, s1, evs[1..]);
      KeepsIssued(env, s, evs[0], jti);
      DenialHasACause(env, s, evs[0], jti, t);
      DenialRun(env, s1, evs[1..], jti, t);
    }
  }

  lemma KeepsIssued(env: Env, s: Sys, ev: Event, jti: string)
    requires Inv(env, s) && Enabled(env, s, ev) && jti in s.issued
    ensures jti in Apply(env, s, ev).issued && Apply(env, s, ev).issued[jti] == s.issued[jti]
  {
    hide Inv, DoAuthorize, DoCodeGrant, DoRefreshGrant, DoAppGrant, DoSign, DoRegister, DoStoreRefresh, DoCheck;
    hide RevokeFamily, RevokeToken, DenyJti, DropExpired, Kills;
    if ev.Register? {
      RegisterHistory(env, s, ev.tid);
    } else {
      StepFrame(env, s, ev);
    }
  }

  /** What has been issued stays in the history. */
  lemma {:induction false} IssuedRun(env: Env, s: Sys, evs: seq<Event>, jti: string)
    requires Inv(env, s) && ValidRun(env, s, evs) && jti in s.issued
    ensures jti in After(env, s, evs).issued && After(env, s, evs).issued[jti] == s.issued[jti]
    decreases |evs|
  {
    hide Inv, Apply, Enabled;
    if evs != [] {
      InvStep(env, s, evs[0]);
      KeepsIssued(env, s, evs[0], jti);
      IssuedRun(env, Apply(env, s, evs[0]), evs[1..], jti);
    }
  }

  // ----- what a revocation reaches, whatever is in flight -----

  lemma {:induction false} UnacceptableRun(env: Env, s: Sys, evs: seq<Event>, jti: string)
    requires Inv(env, s) && ValidRun(env, s, evs) && jti in s.issued && !Acceptable(s, jti)
    ensures var r := After(env, s, evs); jti in r.issued && r.issued[jti] == s.issued[jti] && !Acceptable(r, jti)
    decreases |evs|
  {
    hide Inv, Apply, Enabled, Acceptable;
    if evs != [] {
      InvStep(env, s, evs[0]);
      KeepsIssued(env, s, evs[0], jti);
      StillUnacceptable(env, s, evs[0], jti);
      UnacceptableRun(env, Apply(env, s, evs[0]), evs[1..], jti);
    }
  }

  /** No live refresh token of the family has one of the given ids. */
  ghost predicate NoneOf(s: Sys, family: string, ids: set<string>) {
    forall id :: id in s.tables.refresh && s.tables.refresh[id].family == family ==> id !in ids
  }

  lemma FewerOf(s: Sys, r: Sys, family: string, ids: set<string>)
    requires NoneOf(s, family, ids) && Submap(r.tables.refresh, s.tables.refresh)
    ensures NoneOf(r, family, ids)
  {
  }

  /** A refresh token that a step adds has an id nobody has seen. */
  lemma NoneOfStep(env: Env, s: Sys, ev: Event, family: string, ids: set<string>)
    requires Enabled(env, s, ev) && NoneOf(s, family, ids) && ids <= s.drawn
    ensures NoneOf(Apply(env, s, ev), family, ids)
  {
    hide Apply, NoneOf, Submap;
    if ev.StoreRefresh? {
      StoreAdds(env, s, ev.tid, ev.id, ev.t1, ev.t2, family, ids);
    } else {
      RefreshShrinks(env, s, ev);
      FewerOf(s, Apply(env, s, ev), family, ids);
    }
  }

  lemma StoreAdds(env: Env, s: Sys, tid: nat, id: string, t1: Time, t2: Time, family: string, ids: set<string>)
    requires Enabled(env, s, StoreRefresh(tid, id, t1, t2)) && NoneOf(s, family, ids) && ids <= s.drawn
    ensures NoneOf(Apply(env, s, StoreRefresh(tid, id, t1, t2)), family, ids)
  {
    hide NewEntry;
  }

  lemma {:induction false} NoneOfRun(env: Env, s: Sys, evs: seq<Event>, family: string, ids: set<string>)
    requires ValidRun(env, s, evs) && NoneOf(s, family, ids) && ids <= s.drawn
    ensures NoneOf(After(env, s, evs), family, ids)
    decreases |evs|
  {
    hide Apply, Enabled, NoneOf;
    if evs != [] {
      NoneOfStep(env, s, evs[0], family, ids);
      StepFrame(env, s, evs[0]);
      NoneOfRun(env, Apply(env, s, evs[0]), evs[1..], family, ids);
    }
  }

  lemma {:induction false} IdleRun(env: Env, s: Sys, evs: seq<Event>, family: string)
    requires Inv(env, s) && ValidRun(env, s, evs) && family in s.families && Idle(s, family)
    ensures Idle(After(env, s, evs), family)
    decreases |evs|
  {
    hide Inv, Apply, Enabled, Idle;
    if evs != [] {
      InvStep(env, s, evs[0]);
      StepFrame(env, s, evs[0]);
      IdleStep(env, s, evs[0], family);
      IdleRun(env, Apply(env, s, evs[0]), evs[1..], family);
    }
  }

  /**
   What a revocation achieves even while a request of the family is in flight.  Every access token of
   the family that was registered before it is never accepted again, and every refresh token whose id
   was drawn before it, live or consumed, never yields again.  Only what the one request in flight goes
   on to issue can live on.
   */
  lemma RevocationReaches(env: Env, s: Sys, ev: Event, evs: seq<Event>, family: string)
    requires Reachable(env, s) && Enabled(env, s, ev) && family in Kills(env, s, ev) && ValidRun(env, Apply(env, s, ev), evs)
    ensures var r := After(env, Apply(env, s, ev), evs);
            && (forall jti :: jti in s.issued && s.issued[jti].family == family ==>
                  jti in r.issued && r.issued[jti] == s.issued[jti] && !Acceptable(r, jti))
            && (forall id :: id in r.tables.refresh && r.tables.refresh[id].family == family ==> id !in s.drawn)
            && |InFlight(s, family)| <= 1
            && (family in s.families && InFlight(s, family) == {} ==> Idle(r, family))
  {
    hide Inv, Reachable, Apply, Enabled, Kills, Acceptable, Issuing, Idle;
    ReachableInv(env, s);
    Conservation(env, s, family);
    var s1 := Apply(env, s, ev);
    InvStep(env, s, ev);
    StepFrame(env, s, ev);
    KillEmpties(env, s, ev, family);
    NoneOfRun(env, s1, evs, family, s.drawn);
    forall jti | jti in s.issued && s.issued[jti].family == family
      ensures var r := After(env, s1, evs); jti in r.issued && r.issued[jti] == s.issued[jti] && !Acceptable(r, jti)
    {
      KilledToken(env, s, ev, jti);
      UnacceptableRun(env, s1, evs, jti);
    }
    if family in s.families && InFlight(s, family) == {} {
      KilledIdle(s, s1, family);
      IdleRun(env, s1, evs, family);
    }
  }

  lemma KilledToken(env: Env, s: Sys, ev: Event, jti: string)
    requires Inv(env, s) && Enabled(env, s, ev) && jti in s.issued && s.issued[jti].family in Kills(env, s, ev)
    ensures var r := Apply(env, s, ev); jti in r.issued && r.issued[jti] == s.issued[jti] && !Acceptable(r, jti)
  {
    hide Inv, Apply, Enabled, Kills;
    KeepsIssued(env, s, ev, jti);
    var r := Apply(env, s, ev);
    if r.clock < s.issued[jti].claimExp {
      DenialHasACause(env, s, ev, jti, r.clock);
    }
  }

  lemma KilledIdle(s: Sys, r: Sys, family: string)
    requires InFlight(s, family) == {} && Submap(r.threads, s.threads)
    requires forall id :: id in r.tables.refresh ==> r.tables.refresh[id].family != family
    ensures Idle(r, family)
  {
    forall tid | tid in r.threads ensures !Issuing(r.threads[tid], family) {
      assert tid !in InFlight(s, family);
    }
  }

  // ----- tokens of an earlier process -----

  /** The token is known here: issued by this process, or presented to it before. */
  predicate Known(s: Sys, jti: string) {
    jti in s.issued || jti in s.foreign
  }

  lemma PresentableStep(env: Env, s: Sys, ev: Event, jti: string, claimExp: Time)
    requires Inv(env, s) && Enabled(env, s, ev) && Presentable(s, jti, claimExp)
    requires Known(s, jti) || (ev.Parse? && (ev.jti, ev.claimExp) == (jti, claimExp))
    ensures Presentable(Apply(env, s, ev), jti, claimExp) && Known(Apply(env, s, ev), jti)
  {
    hide Inv, Apply;
    if jti in s.issued {
      KeepsIssued(env, s, ev, jti);
    } else {
      StepFrame(env, s, ev);
      InvStep(env, s, ev);
      ForeignNotIssued(env, Apply(env, s, ev));
    }
  }

  lemma {:induction false} PresentableRun(env: Env, s: Sys, evs: seq<Event>, jti: string, claimExp: Time)
    requires Inv(env, s) && ValidRun(env, s, evs) && Presentable(s, jti, claimExp) && Known(s, jti)
    ensures Presentable(After(env, s, evs), jti, claimExp)
    decreases |evs|
  {
    hide Inv, Apply, Enabled, Presentable, Known;
    if evs != [] {
      InvStep(env, s, evs[0]);
      PresentableStep(env, s, evs[0], jti, claimExp);
      PresentableRun(env, Apply(env, s, evs[0]), evs[1..], jti, claimExp);
    }
  }

  /**
   A token that has been presented, of this process or of an earlier one, can be presented again with
   the same claim in every later state, whatever happens in between.
   */
  lemma PresentableAgain(env: Env, s: Sys, ev: Event, evs: seq<Event>)
    requires Reachable(env, s) && ev.Parse? && Enabled(env, s, ev) && ValidRun(env, Apply(env, s, ev), evs)
    ensures Presentable(After(env, Apply(env, s, ev), evs), ev.jti, ev.claimExp)
  {
    hide Inv, Reachable, Apply, Presentable, Known;
    ReachableInv(env, s);
    InvStep(env, s, ev);
    PresentableStep(env, s, ev, ev.jti, ev.claimExp);
    PresentableRun(env, Apply(env, s, ev), evs, ev.jti, ev.claimExp);
  }

  lemma ForeignNotIssued(env: Env, s: Sys)
    requires Inv(env, s)
    ensures forall jti :: jti in s.foreign ==> jti !in s.issued
  {
    hide CodesInv, FamiliesInv, EntriesFromOrigin, RefreshInv, OneCarrier, IssuedInv, JtisInv, CoverageInv, ThreadsOk;
    hide PendingAlone;
    hide DeniedInv;
  }

  // ----- verification takes two clock readings -----

  /** When the denylist lets go of the token: it is denied, or its claim has run out. */
  function DenialEnd(s: Sys, jti: string): Time
    requires jti in s.issued
  {
    if jti in s.tables.denied then s.tables.denied[jti] else s.issued[jti].claimExp
  }

  /**
   Verification reads the clock once for the expiry claim and once more for the denylist.  A token
   of a dead family passes the second check exactly when its denial has ended.  That is at its claim
   or at its registered expiry, which is later by the fraction of a second the claim leaves out.
   */
  lemma DeadTokenPassesIff(env: Env, s: Sys, tid: nat, t2: Time)
    requires Reachable(env, s) && Enabled(env, s, Check(tid, t2)) && s.threads[tid].jti in s.issued
    requires Dead(s, s.issued[s.threads[tid].jti].family)
    ensures var jti := s.threads[tid].jti;
            var a := s.issued[jti];
            && (!IsDenied(s.tables, jti, t2) <==> DenialEnd(s, jti) <= t2)
            && DenialEnd(s, jti) in {a.claimExp, a.regExp}
            && a.claimExp <= a.regExp < a.claimExp + SECOND
  {
    hide Inv, Reachable, Idle;
    ReachableInv(env, s);
    TokenFacts(env, s, s.threads[tid].jti);
    ClaimIsTruncated(env, s, s.threads[tid].jti);
  }

  /** The step neither denies the token nor revokes the family it is registered under. */
  predicate Quiet(env: Env, s: Sys, ev: Event, jti: string) {
    !Denies(s, ev, jti) && !ReachedBy(env, s, ev, jti)
  }

  ghost predicate QuietRun(env: Env, s: Sys, evs: seq<Event>, jti: string)
    requires ValidRun(env, s, evs)
    decreases |evs|
  {
    evs == [] || (Quiet(env, s, evs[0], jti) && QuietRun(env, Apply(env, s, evs[0]), evs[1..], jti))
  }

  /** Through quiet steps a denial keeps its end. */
  lemma {:induction false} DenialKeepsItsEnd(env: Env, s: Sys, evs: seq<Event>, jti: string, t: Time)
    requires Inv(env, s) && ValidRun(env, s, evs) && QuietRun(env, s, evs, jti) && jti in s.issued
    requires After(env, s, evs).clock <= t
    ensures IsDenied(After(env, s, evs).tables, jti, t) <==> IsDenied(s.tables, jti, t)
    decreases |evs|
  {
    hide Inv, Apply, Enabled, Denies, ReachedBy, IsDenied;
    if evs != [] {
      var s1 := Apply(env, s, evs[0]);
      InvStep(env, s, evs[0]);
      ClockRun(env, s1, evs[1..]);
      KeepsIssued(env, s, evs[0], jti);
      DenialEnds(env, s, evs[0], jti, t);
      DenialKeepsItsEnd(env, s1, evs[1..], jti, t);
    }
  }

  /**
   Which end it is: a token denied by name is denied until its claim, a token reached by the
   revocation of its family until its registered expiry, for as long as neither happens again.
   */
  lemma DenialEndsWhere(env: Env, s: Sys, ev: Event, evs: seq<Event>, jti: string, t: Time)
    requires Reachable(env, s) && Enabled(env, s, ev) && jti in s.issued && !Quiet(env, s, ev, jti)
    requires ValidRun(env, Apply(env, s, ev), evs) && QuietRun(env, Apply(env, s, ev), evs, jti)
    requires After(env, Apply(env, s, ev), evs).clock <= t
    ensures IsDenied(After(env, Apply(env, s, ev), evs).tables, jti, t) <==>
            t < if Denies(s, ev, jti) then s.issued[jti].claimExp else s.issued[jti].regExp
  {
    hide Inv, Apply, Enabled, Reachable, Denies, ReachedBy, IsDenied;
    ReachableInv(env, s);
    InvStep(env, s, ev);
    KeepsIssued(env, s, ev, jti);
    ClockRun(env, Apply(env, s, ev), evs);
    DenialEnds(env, s, ev, jti, t);
    DenialKeepsItsEnd(env, Apply(env, s, ev), evs, jti, t);
  }
}
