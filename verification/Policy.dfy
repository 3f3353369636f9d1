/**
 The read-only decisions of the authorization and token endpoints: who the client is, what it
 may ask for, and whether a code may be redeemed.

 Hashing, password checking, percent-decoding and URL parsing are fields of `Env`: nothing is
 assumed about them beyond being functions.
 */
module Policy {
  import opened Options
  import opened Text
  import opened Scopes
  import opened Clients
  import opened Registry

  const SECOND: int := 1_000_000_000
  const CODE_TTL: int := 600 * SECOND
  const S256 := "S256"
  const BUILT_IN := {"openid", "profile", "email"}

  datatype Env = Env(
    file: ClientsFile,
    urlOk: string -> bool,
    s256: string -> string,
    base64Ok: string -> bool,
    unescape: string -> Option<string>,
    passwordOk: (string, string) -> bool,
    accessTtl: int,
    refreshTtl: int)
  {
    function Find(id: string): Option<Client> {
      FindById(file.clients, id)
    }
  }

  /** The configurations the provider starts with: an accepted file and positive lifetimes. */
  predicate GoodEnv(env: Env) {
    FileOk(env.file, env.urlOk) && Startable(env.file.clients) && env.accessTtl > 0 && env.refreshTtl > 0
  }

  // ----- client authentication -----

  /** What a token request presents: the Basic header, if any, and the form fields. */
  datatype Credentials = Credentials(basic: Option<(string, string)>, formId: string, formSecret: string)

  function IdentifyFormClient(env: Env, cr: Credentials): Option<Client> {
    if cr.formId == "" then None else
    match env.Find(cr.formId)
    case None => None
    case Some(c) => if c.Confidential() && cr.formSecret != c.secret then None else Some(c)
  }

  function AuthenticateClient(env: Env, cr: Credentials): Option<Client> {
    match cr.basic
    case None => IdentifyFormClient(env, cr)
    case Some((rawId, rawSecret)) =>
      var id, secret := env.unescape(rawId), env.unescape(rawSecret);
      if id.None? || secret.None? then None else
      match env.Find(id.value)
      case None => None
      case Some(c) =>
        if !c.Confidential() then IdentifyFormClient(env, cr)
        else if secret.value != c.secret then None
        else if cr.formId != "" && cr.formId != c.clientId then None
        else Some(c)
  }

  /** The Basic header names the confidential client `c`, carries its secret, and the form agrees. */
  predicate ProvenByHeader(env: Env, cr: Credentials, c: Client) {
    && cr.basic.Some? && c.Confidential()
    && env.unescape(cr.basic.value.0) == Some(c.clientId)
    && env.unescape(cr.basic.value.1) == Some(c.secret)
    && cr.formId in {"", c.clientId}
  }

  /**
   The form names `c`, with its secret when it has one, and no Basic header speaks for a
   confidential client: there is none, or it decodes and names a public client.
   */
  predicate ProvenByForm(env: Env, cr: Credentials, c: Client) {
    && cr.formId == c.clientId != ""
    && (c.Confidential() ==> cr.formSecret == c.secret)
    && (cr.basic.Some? ==>
          && env.unescape(cr.basic.value.0).Some? && env.unescape(cr.basic.value.1).Some?
          && env.Find(env.unescape(cr.basic.value.0).value).Some?
          && !env.Find(env.unescape(cr.basic.value.0).value).value.Confidential())
  }

  /** A request is taken to come from `c` exactly when it proves so by header or by form. */
  lemma AuthenticationIsProof(env: Env, cr: Credentials, c: Client)
    requires GoodEnv(env)
    ensures AuthenticateClient(env, cr) == Some(c) <==>
            c in env.file.clients && (ProvenByHeader(env, cr, c) || ProvenByForm(env, cr, c))
  {
    hide FileOk, SoundUpTo, Client.Confidential;
    if c in env.file.clients {
      Registered(env, c);
    }
  }

  lemma Registered(env: Env, c: Client)
    requires GoodEnv(env) && c in env.file.clients
    ensures env.Find(c.clientId) == Some(c)
  {
    hide SoundUpTo, ClientOk, RegistryOk;
    var i :| 0 <= i < |env.file.clients| && env.file.clients[i] == c;
    FindByIdAt(env.file.clients, i);
  }

  // ----- authorization requests -----

  /** The nine parameters that travel through the login form, those that matter here. */
  datatype AuthorizeRequest = AuthorizeRequest(
    clientId: string,
    redirectUri: string,
    responseType: string,
    scope: string,
    nonce: string,
    challenge: string,
    challengeMethod: string)

  predicate ScopeAllowed(c: Client, sc: string) {
    sc in BUILT_IN || sc in c.allowedScopes
  }

  predicate ScopesAllowed(c: Client, scopes: seq<string>) {
    forall i :: 0 <= i < |scopes| ==> ScopeAllowed(c, scopes[i])
  }

  method ValidateScopesFor(c: Client, raw: string) returns (ok: bool)
    ensures ok <==> ScopesAllowed(c, ParseScopes(raw))
  {
    var scopes := Parse(raw);
    for i := 0 to |scopes|
      invariant forall k :: 0 <= k < i ==> ScopeAllowed(c, scopes[k])
    {
      if !ScopeAllowed(c, scopes[i]) {
        return false;
      }
    }
    return true;
  }

  predicate ChallengeOk(env: Env, challenge: string) {
    43 <= |challenge| <= 128 && env.base64Ok(challenge)
  }

  /** PKCE is mandatory for public clients, optional but checked for confidential ones. */
  predicate PkceParamsOk(env: Env, c: Client, challenge: string, challengeMethod: string) {
    if challenge == "" then c.Confidential() else challengeMethod == S256 && ChallengeOk(env, challenge)
  }

  /** The client and subject of an authorization that succeeds, or `None`. */
  function Authorize(env: Env, q: AuthorizeRequest, username: string, password: string): Option<(Client, string)> {
    match env.Find(q.clientId)
    case None => None
    case Some(c) =>
      if q.clientId == "" || q.redirectUri == "" || q.redirectUri !in c.redirectUris then None
      else if q.responseType != "code" then None
      else if !PkceParamsOk(env, c, q.challenge, q.challengeMethod) then None
      else if !ScopesAllowed(c, ParseScopes(q.scope)) then None
      else match FindUser(c.users, username)
        case None => None
        case Some(u) => if env.passwordOk(u.passwordHash, password) then Some((c, u.username)) else None
  }

  /**
   What an authorization request has to be for a code: it names the client and one of its redirect URIs, asks for a
   code, has a challenge unless the client is confidential, and asks only for built-in scopes and the client's own;
   and the password is that of the client's user of that name.
   */
  predicate MayAuthorize(env: Env, c: Client, q: AuthorizeRequest, username: string, password: string) {
    && c in env.file.clients && c.clientId == q.clientId
    && q.redirectUri != "" && q.redirectUri in c.redirectUris
    && q.responseType == "code"
    && (q.challenge == "" ==> c.kind == "confidential")
    && (q.challenge != "" ==>
          q.challengeMethod == "S256" && 43 <= |q.challenge| <= 128 && env.base64Ok(q.challenge))
    && (forall sc :: sc in ParseScopes(q.scope) ==> sc in {"openid", "profile", "email"} || sc in c.allowedScopes)
    && (exists u :: u in c.users && u.username == username && env.passwordOk(u.passwordHash, password))
  }

  lemma ScopesAllowedIs(c: Client, scopes: seq<string>)
    ensures ScopesAllowed(c, scopes) <==> forall sc :: sc in scopes ==> sc in {"openid", "profile", "email"} || sc in c.allowedScopes
  {
    if ScopesAllowed(c, scopes) {
      forall sc | sc in scopes ensures sc in {"openid", "profile", "email"} || sc in c.allowedScopes {
        var i :| 0 <= i < |scopes| && scopes[i] == sc;
        assert ScopeAllowed(c, scopes[i]);
      }
    }
  }

  /** A user is found by name exactly when it is the one of that name. */
  lemma UserIs(users: seq<User>, u: User)
    requires UsersOk(users) && u in users
    ensures FindUser(users, u.username) == Some(u)
  {
    hide UserOk;
    var i :| 0 <= i < |users| && users[i] == u;
    FindUserAt(users, i);
  }

  lemma UsersAreOk(env: Env, c: Client)
    requires GoodEnv(env) && c in env.file.clients
    ensures UsersOk(c.users) && c.clientId != ""
  {
    hide UsersOk, RegistryOk, SoundUpTo, ProfileOk, UrlsOk;
    var k :| 0 <= k < |env.file.clients| && env.file.clients[k] == c;
    assert ClientOk(env.file.clients[k], env.urlOk);
  }

  /** An authorization succeeds, for the user it names, exactly when the request is one that may. */
  lemma AuthorizeIff(env: Env, q: AuthorizeRequest, username: string, password: string, c: Client)
    requires GoodEnv(env)
    ensures Authorize(env, q, username, password) == Some((c, username)) <==> MayAuthorize(env, c, q, username, password)
    ensures Authorize(env, q, username, password).Some? ==> Authorize(env, q, username, password).value.1 == username
  {
    hide GoodEnv, UsersOk, ParseScopes, ScopesAllowed;
    ScopesAllowedIs(c, ParseScopes(q.scope));
    if c in env.file.clients {
      Registered(env, c);
      UsersAreOk(env, c);
      forall u | u in c.users ensures FindUser(c.users, u.username) == Some(u) {
        UserIs(c.users, u);
      }
    }
  }

  // ----- code redemption -----

  predicate PkceChar(c: char) {
    'A' <= c <= 'Z' || 'a' <= c <= 'z' || '0' <= c <= '9' || c in {'-', '.', '_', '~'}
  }

  predicate VerifierOk(v: string) {
    43 <= |v| <= 128 && forall i :: 0 <= i < |v| ==> PkceChar(v[i])
  }

  method ValidPkceVerifier(v: string) returns (ok: bool)
    ensures ok <==> VerifierOk(v)
    ensures ok <==>
              43 <= |v| <= 128 &&
              forall i :: 0 <= i < |v| ==> 'a' <= v[i] <= 'z' || 'A' <= v[i] <= 'Z' || '0' <= v[i] <= '9' || v[i] in "-._~"
  {
    if |v| < 43 || |v| > 128 {
      return false;
    }
    for i := 0 to |v|
      invariant forall k :: 0 <= k < i ==> PkceChar(v[k])
    {
      if !PkceChar(v[i]) {
        return false;
      }
    }
    return true;
  }

  predicate VerifyPkce(env: Env, challenge: string, challengeMethod: string, verifier: string) {
    if challenge == "" then true
    else if !VerifierOk(verifier) then false
    else if challengeMethod != "" && challengeMethod != S256 then false
    else env.s256(verifier) == challenge
  }

  // ----- client credentials -----

  /** The request names no scope, or the default scope of the client's own audience in either spelling. */
  predicate AsksForAll(c: Client, requested: string) {
    var plain := TrimPrefix(c.Audience(), API_PREFIX) + "/.default";
    TrimSpace(requested) in {"", plain, API_PREFIX + plain}
  }

  /** The scopes a client_credentials request receives, or `None` for invalid_scope. */
  function ResolveScopes(c: Client, requested: string): (r: Option<seq<string>>)
    ensures r.Some? ==> forall sc :: sc in r.value ==> sc in c.ccScopes
    ensures AsksForAll(c, requested) ==> r == Some(c.ccScopes)
    ensures !AsksForAll(c, requested) ==> (r.Some? <==> TrimSpace(requested) in c.ccScopes)
    ensures !AsksForAll(c, requested) && r.Some? ==> r.value == [TrimSpace(requested)]
  {
    var req := TrimSpace(requested);
    var audience := TrimPrefix(c.Audience(), API_PREFIX);
    assert API_PREFIX + (audience + "/.default") == API_PREFIX + audience + "/.default";
    if req == "" then Some(c.ccScopes)
    else if req == audience + "/.default" || req == API_PREFIX + audience + "/.default" then Some(c.ccScopes)
    else if req in c.ccScopes then Some([req])
    else None
  }

  /** The roles claim of a user token: the roles of the user's own record, if there is one. */
  function UserRoles(c: Client, sub: string): seq<string> {
    match FindUser(c.users, sub)
    case None => []
    case Some(u) => u.roles
  }

  // ----- from an accepted file to what tokens may say -----

  /** Roles that the registry knows for the audience, when it defines any. */
  predicate RolesContained(env: Env, aud: string, roles: seq<string>) {
    forall i :: 0 <= i < |env.file.resources| && env.file.resources[i].audience == aud ==>
      Within(roles, RoleSet(env.file.resources[i]))
  }

  lemma UserRolesContained(env: Env, c: Client, sub: string)
    requires GoodEnv(env) && c in env.file.clients
    ensures RolesContained(env, c.Audience(), UserRoles(c, sub))
  {
    hide ClientsOk, SoundUpTo, Within, ResourceOk;
    var k :| 0 <= k < |env.file.clients| && env.file.clients[k] == c;
    NoRolesWithin();
    forall i | 0 <= i < |env.file.resources| && env.file.resources[i].audience == c.Audience()
      ensures Within(UserRoles(c, sub), RoleSet(env.file.resources[i]))
    {
      assert RolesWithin(c, RoleSet(env.file.resources[i]));
    }
  }

  lemma NoRolesWithin()
    ensures forall defined :: Within([], defined)
  {
  }

  lemma AppRolesContained(env: Env, c: Client)
    requires GoodEnv(env) && c in env.file.clients
    ensures RolesContained(env, c.Audience(), c.ccRoles)
  {
    hide ClientsOk, SoundUpTo, Within, ResourceOk;
    var k :| 0 <= k < |env.file.clients| && env.file.clients[k] == c;
    forall i | 0 <= i < |env.file.resources| && env.file.resources[i].audience == c.Audience()
      ensures Within(c.ccRoles, RoleSet(env.file.resources[i]))
    {
      assert RolesWithin(c, RoleSet(env.file.resources[i]));
    }
  }

  /** A granted scope is built in or names the client's own audience, never a foreign resource. */
  lemma GrantedScopeIsOwn(env: Env, c: Client, sc: string)
    requires GoodEnv(env) && c in env.file.clients && ScopeAllowed(c, sc)
    ensures sc in BUILT_IN || ScopeOfAuthority(sc, TrimPrefix(c.Audience(), API_PREFIX))
  {
    hide RegistryOk, SoundUpTo, ScopeOfAuthority, Plain, GrantsOk, CcRolesOk, UrlsOk, UsersOk;
    var k :| 0 <= k < |env.file.clients| && env.file.clients[k] == c;
    assert ClientOk(env.file.clients[k], env.urlOk);
    if sc in c.allowedScopes {
      var i :| 0 <= i < |c.allowedScopes| && c.allowedScopes[i] == sc;
    }
  }
}
