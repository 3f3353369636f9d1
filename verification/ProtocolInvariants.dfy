/** What every step of the protocol keeps, part by part. */
module ProtocolInvariants {
  import opened Options
  import opened Text
  import opened Scopes
  import opened Clients
  import opened Registry
  import opened Policy
  import opened StoreTables
  import opened Protocol

  // ----- codes -----

  /** What the authorization endpoint has checked about every code it hands out. */
  ghost predicate CodeOk(env: Env, code: AuthCode) {
    var client := env.Find(code.clientId);
    && client.Some?
    && code.redirectUri in client.value.redirectUris
    && FindUser(client.value.users, code.sub).Some?
    && code.scopes != [] && AllWords(code.scopes) && ScopesAllowed(client.value, code.scopes)
    && PkceParamsOk(env, client.value, code.challenge, code.challengeMethod)
  }

  ghost predicate CodesInv(env: Env, codes: map<string, AuthCode>, drawn: set<string>, log: seq<string>) {
    && codes.Keys <= drawn
    && (forall id :: id in log ==> id in drawn && id !in codes)
    && Distinct(log)
    && (forall id :: id in codes ==> CodeOk(env, codes[id]))
  }

  // ----- families and provenance -----

  /** A family began with a redemption that passed every check. */
  ghost predicate OriginOk(env: Env, o: Origin) {
    && CodeOk(env, o.code)
    && env.Find(o.code.clientId) == Some(o.client)
    && RedemptionOk(env, o.code, o.client, o.redirectUri, o.verifier)
  }

  ghost predicate FamiliesInv(env: Env, families: map<string, Origin>, drawn: set<string>) {
    && "" !in drawn
    && families.Keys <= drawn
    && (forall f :: f in families ==> OriginOk(env, families[f]))
  }

  /** The identity is that of the code the family began with. */
  ghost predicate FromOrigin(families: map<string, Origin>, ctx: Ctx) {
    && ctx.family in families
    && var code := families[ctx.family].code;
       ctx == Ctx(code.sub, code.clientId, code.nonce, ctx.family, code.scopes)
  }

  function EntryCtx(e: RefreshEntry): Ctx {
    Ctx(e.sub, e.clientId, e.nonce, e.family, e.scopes)
  }

  ghost predicate EntriesFromOrigin(m: map<string, RefreshEntry>, families: map<string, Origin>) {
    forall id :: id in m ==> FromOrigin(families, EntryCtx(m[id]))
  }

  // ----- refresh tokens -----

  /** Live, consumed and remembered refresh tokens: what is remembered was consumed, and is never live again. */
  ghost predicate RefreshInv(refresh: map<string, RefreshEntry>, used: map<string, RefreshEntry>,
                             consumed: map<string, RefreshEntry>, log: seq<string>, drawn: set<string>) {
    && refresh.Keys <= drawn
    && (forall id :: id in log ==> id in drawn && id !in refresh)
    && Distinct(log)
    && (forall id :: id in consumed <==> id in log)
    && (forall id :: id in used ==> id in consumed && used[id] == consumed[id])
  }

  // ----- conservation -----

  /** The request holds the family's one right to a refresh token. */
  predicate Issuing(pc: Pc, family: string) {
    (pc.Ready? || pc.Signed? || pc.Listed?) && pc.ctx.family == family
  }

  /** At most one of: a live refresh token of the family, a request about to store one. */
  ghost predicate OneCarrier(refresh: map<string, RefreshEntry>, threads: map<nat, Pc>) {
    && (forall a, b :: a in refresh && b in refresh && refresh[a].family == refresh[b].family ==> a == b)
    && (forall a, tid :: a in refresh && tid in threads ==> !Issuing(threads[tid], refresh[a].family))
    && (forall i, j, f :: i in threads && j in threads && Issuing(threads[i], f) && Issuing(threads[j], f) ==> i == j)
  }

  // ----- access tokens -----

  /** A user token says what its family's code says, within its client's registration. */
  ghost predicate UserAccessOk(env: Env, families: map<string, Origin>, a: Access) {
    && a.family in families
    && var code := families[a.family].code;
    && a.sub == code.sub && a.clientId == code.clientId && a.scopes == code.scopes
    && a.scopeClaim == JoinScopes(code.scopes)
    && env.Find(a.clientId).Some?
    && a.audience == env.Find(a.clientId).value.Audience()
    && a.roles == UserRoles(env.Find(a.clientId).value, a.sub)
  }

  /** An app token speaks for its own client, within the client's static configuration. */
  ghost predicate AppAccessOk(env: Env, a: Access) {
    && a.family == "" && a.sub == a.clientId
    && env.Find(a.clientId).Some?
    && var c := env.Find(a.clientId).value;
    && c.Confidential() && c.AllowsGrant(GRANT_CLIENT_CREDENTIALS)
    && (forall sc :: sc in a.scopes ==> sc in c.ccScopes)
    && a.scopeClaim == JoinScopes(a.scopes)
    && a.audience == c.Audience() && a.roles == c.ccRoles
  }

  ghost predicate AccessOk(env: Env, families: map<string, Origin>, a: Access) {
    && a.claimExp <= a.regExp < a.claimExp + SECOND
    && if a.app then AppAccessOk(env, a) else UserAccessOk(env, families, a)
  }

  ghost predicate IssuedInv(env: Env, issued: map<string, Access>, families: map<string, Origin>, drawn: set<string>) {
    && issued.Keys <= drawn
    && (forall jti :: jti in issued ==> AccessOk(env, families, issued[jti]))
  }

  /** The record kept for a token matches what was signed. */
  predicate RecordOf(a: Access, rec: JtiRecord) {
    rec == JtiRecord(a.regExp, a.sub, a.family)
  }

  ghost predicate JtisInv(jtis: map<string, JtiRecord>, issued: map<string, Access>) {
    forall jti :: jti in jtis ==> jti in issued && RecordOf(issued[jti], jtis[jti])
  }

  /** No issued token is out of reach before its expiry claim: it can be denied, or is denied for good. */
  predicate Covered(clock: Time, a: Access, jti: string, jtis: map<string, JtiRecord>, denied: map<string, Time>) {
    || a.claimExp <= clock
    || jti in jtis
    || jti in denied
  }

  ghost predicate CoverageInv(clock: Time, issued: map<string, Access>, jtis: map<string, JtiRecord>,
                              denied: map<string, Time>) {
    forall jti :: jti in issued ==> Covered(clock, issued[jti], jti, jtis, denied)
  }

  // ----- requests in flight -----

  ghost predicate ThreadOk(env: Env, families: map<string, Origin>, issued: map<string, Access>, drawn: set<string>, pc: Pc) {
    match pc
    case Ready(ctx) => FromOrigin(families, ctx)
    case Listed(ctx) => FromOrigin(families, ctx)
    case Signed(ctx, jti, a) =>
      && FromOrigin(families, ctx) && jti in drawn && jti !in issued
      && AccessOk(env, families, a) && !a.app && a.family == ctx.family && a.sub == ctx.sub
    case AppSigned(jti, a) => jti in drawn && jti !in issued && AccessOk(env, families, a) && a.app
    case Mismatch(family) => family in families
    case Parsed(jti, claimExp, _) => jti in drawn && (jti in issued ==> issued[jti].claimExp == claimExp)
    case Cleared(jti, claimExp) => jti in drawn && (jti in issued ==> issued[jti].claimExp == claimExp)
  }

  ghost predicate ThreadsOk(env: Env, families: map<string, Origin>, issued: map<string, Access>, drawn: set<string>,
                            threads: map<nat, Pc>) {
    forall tid :: tid in threads ==> ThreadOk(env, families, issued, drawn, threads[tid])
  }

  predicate Pending(pc: Pc) {
    pc.Signed? || pc.AppSigned?
  }

  predicate NamesJti(pc: Pc) {
    Pending(pc) || pc.Parsed? || pc.Cleared?
  }

  /** A token that is signed and not yet registered is known to nobody else. */
  ghost predicate PendingAlone(threads: map<nat, Pc>) {
    forall i, j :: i in threads && j in threads && i != j && Pending(threads[i]) && NamesJti(threads[j]) ==>
      threads[i].jti != threads[j].jti
  }

  /** A token of an earlier process has an id that this process never gives out. */
  ghost predicate ForeignInv(foreign: map<string, Time>, issued: map<string, Access>, drawn: set<string>,
                             threads: map<nat, Pc>) {
    && foreign.Keys <= drawn
    && (forall jti :: jti in foreign ==> jti !in issued)
    && (forall tid :: tid in threads && Pending(threads[tid]) ==> threads[tid].jti !in foreign)
  }

  /**
   A denial of an issued token ends with its claim or with its registered expiry, and nobody is
   denied before being issued.
   */
  ghost predicate DeniedInv(denied: map<string, Time>, issued: map<string, Access>, drawn: set<string>,
                            threads: map<nat, Pc>) {
    && denied.Keys <= drawn
    && (forall jti :: jti in denied && jti in issued ==> denied[jti] in {issued[jti].claimExp, issued[jti].regExp})
    && (forall tid :: tid in threads && Pending(threads[tid]) ==> threads[tid].jti !in denied)
  }

  // ----- all together -----

  ghost predicate Inv(env: Env, s: Sys) {
    && CodesInv(env, s.tables.codes, s.drawn, s.codeLog)
    && FamiliesInv(env, s.families, s.drawn)
    && EntriesFromOrigin(s.tables.refresh, s.families)
    && EntriesFromOrigin(s.consumed, s.families)
    && RefreshInv(s.tables.refresh, s.tables.used, s.consumed, s.refreshLog, s.drawn)
    && OneCarrier(s.tables.refresh, s.threads)
    && IssuedInv(env, s.issued, s.families, s.drawn)
    && JtisInv(s.tables.jtis, s.issued)
    && CoverageInv(s.clock, s.issued, s.tables.jtis, s.tables.denied)
    && ThreadsOk(env, s.families, s.issued, s.drawn, s.threads)
    && PendingAlone(s.threads)
    && ForeignInv(s.foreign, s.issued, s.drawn, s.threads)
    && DeniedInv(s.tables.denied, s.issued, s.drawn, s.threads)
  }

  lemma InvInit(env: Env)
    ensures Inv(env, INIT)
  {
  }
}
