/**
 The clients file: registered clients, their users, the optional role registry, and the
 validation that decides whether a file is accepted at start.
 */
module Clients {
  import opened Text
  import opened Scopes

  const PUBLIC := "public"
  const CONFIDENTIAL := "confidential"
  const GRANT_CODE := "authorization_code"
  const GRANT_REFRESH := "refresh_token"
  const GRANT_CLIENT_CREDENTIALS := "client_credentials"
  const API_PREFIX := "api://"

  datatype User = User(username: string, passwordHash: string, email: string, name: string, roles: seq<string>)

  datatype Client = Client(
    clientId: string,
    kind: string,
    secret: string,
    audience: string,
    grantTypes: seq<string>,
    ccScopes: seq<string>,
    allowedScopes: seq<string>,
    ccRoles: seq<string>,
    redirectUris: seq<string>,
    postLogoutUris: seq<string>,
    allowedOrigins: seq<string>,
    users: seq<User>)
  {
    predicate Confidential() {
      kind == CONFIDENTIAL
    }

    /** The audience of the client's access tokens: its own, or else its id. */
    function Audience(): string {
      if audience != "" then audience else clientId
    }

    function Grants(): seq<string> {
      if |grantTypes| == 0 then [GRANT_CODE, GRANT_REFRESH] else grantTypes
    }

    predicate AllowsGrant(grant: string) {
      grant in Grants()
    }

    predicate Interactive() {
      AllowsGrant(GRANT_CODE) || AllowsGrant(GRANT_REFRESH)
    }
  }

  datatype Resource = Resource(audience: string, appRoles: seq<string>)

  datatype ClientsFile = ClientsFile(clients: seq<Client>, resources: seq<Resource>)

  // ----- what an accepted file satisfies -----

  /** Free of blanks at both ends and not empty. */
  predicate Trimmed(s: string) {
    TrimSpace(s) != "" && s == TrimSpace(s)
  }

  /** One token of text: trimmed and without blanks inside. */
  predicate Plain(s: string) {
    Trimmed(s) && !HasBlank(s)
  }

  predicate IsBcryptHash(s: string) {
    |s| == 60 && ("$2a$" <= s || "$2b$" <= s || "$2y$" <= s)
  }

  predicate UserOk(u: User) {
    && Trimmed(u.username)
    && IsBcryptHash(u.passwordHash)
    && (forall i :: 0 <= i < |u.roles| ==> Trimmed(u.roles[i]))
    && Distinct(u.roles)
  }

  predicate UsersOk(users: seq<User>) {
    && (forall i :: 0 <= i < |users| ==> UserOk(users[i]))
    && (forall i, j :: 0 <= i < j < |users| ==> users[i].username != users[j].username)
  }

  predicate GrantsOk(c: Client) {
    && (forall i :: 0 <= i < |c.grantTypes| ==>
          c.grantTypes[i] in {GRANT_CODE, GRANT_REFRESH, GRANT_CLIENT_CREDENTIALS})
    && Distinct(c.grantTypes)
    && if GRANT_CLIENT_CREDENTIALS in c.grantTypes
       then c.Confidential() && c.ccScopes != [] && forall i :: 0 <= i < |c.ccScopes| ==> Plain(c.ccScopes[i])
       else c.ccScopes == []
  }

  predicate CcRolesOk(c: Client) {
    c.ccRoles != [] ==>
      && c.AllowsGrant(GRANT_CLIENT_CREDENTIALS)
      && (forall i :: 0 <= i < |c.ccRoles| ==> Plain(c.ccRoles[i]))
      && Distinct(c.ccRoles)
  }

  /** `sc` is `authority/name` or `api://authority/name` with a nonempty name. */
  predicate ScopeOfAuthority(sc: string, authority: string) {
    var body := TrimPrefix(sc, API_PREFIX);
    && authority != ""
    && '/' !in authority
    && authority + "/" <= body
    && |body| > |authority| + 1
  }

  predicate AllowedScopesOk(c: Client) {
    forall i :: 0 <= i < |c.allowedScopes| ==>
      Plain(c.allowedScopes[i]) && ScopeOfAuthority(c.allowedScopes[i], TrimPrefix(c.Audience(), API_PREFIX))
  }

  predicate ProfileOk(c: Client) {
    && ((c.kind == PUBLIC && c.secret == "") || (c.kind == CONFIDENTIAL && c.secret != ""))
    && !HasBlank(c.Audience())
    && GrantsOk(c)
    && CcRolesOk(c)
    && AllowedScopesOk(c)
  }

  predicate UrlsOk(c: Client, urlOk: string -> bool) {
    && (c.Interactive() ==> c.redirectUris != [])
    && (forall u :: u in c.redirectUris + c.postLogoutUris + c.allowedOrigins ==> urlOk(u))
  }

  predicate ClientOk(c: Client, urlOk: string -> bool) {
    Plain(c.clientId) && ProfileOk(c) && UrlsOk(c, urlOk) && UsersOk(c.users)
  }

  predicate DistinctIds(clients: seq<Client>) {
    forall i, j :: 0 <= i < j < |clients| ==> clients[i].clientId != clients[j].clientId
  }

  predicate ClientsOk(clients: seq<Client>, urlOk: string -> bool) {
    && (forall i :: 0 <= i < |clients| ==> ClientOk(clients[i], urlOk))
    && DistinctIds(clients)
  }

  predicate ResourceOk(r: Resource) {
    r.audience != "" && !HasBlank(r.audience) && AppRolesOk(r)
  }

  predicate AppRolesOk(r: Resource) {
    && r.appRoles != []
    && (forall i :: 0 <= i < |r.appRoles| ==> r.appRoles[i] != "" && !HasBlank(r.appRoles[i]))
    && Distinct(r.appRoles)
  }

  predicate DistinctAudiences(resources: seq<Resource>) {
    forall i, j :: 0 <= i < j < |resources| ==> resources[i].audience != resources[j].audience
  }

  predicate Within(roles: seq<string>, defined: set<string>) {
    forall i :: 0 <= i < |roles| ==> roles[i] in defined
  }

  function RoleSet(r: Resource): set<string> {
    set role | role in r.appRoles
  }

  /** Every role the client can put into a token is one of `defined`. */
  predicate RolesWithin(c: Client, defined: set<string>) {
    && Within(c.ccRoles, defined)
    && (forall i :: 0 <= i < |c.users| ==> Within(c.users[i].roles, defined))
  }

  predicate RegistryOk(resources: seq<Resource>, clients: seq<Client>) {
    && (forall i :: 0 <= i < |resources| ==> ResourceOk(resources[i]))
    && DistinctAudiences(resources)
    && (forall i, k :: 0 <= i < |resources| && 0 <= k < |clients| &&
                       resources[i].audience == clients[k].Audience() ==>
                         RolesWithin(clients[k], RoleSet(resources[i])))
  }

  predicate FileOk(file: ClientsFile, urlOk: string -> bool) {
    ClientsOk(file.clients, urlOk) && RegistryOk(file.resources, file.clients)
  }

  // ----- the validation loops -----

  /** The recurring loop: reject a repeated value with the help of a set of values seen. */
  method ValidateUser(u: User) returns (ok: bool)
    ensures ok <==> UserOk(u)
  {
    if TrimSpace(u.username) == "" || u.username != TrimSpace(u.username) || !IsBcryptHash(u.passwordHash) {
      return false;
    }
    var seen: map<string, bool> := map[];
    for i := 0 to |u.roles|
      invariant forall x :: x in seen <==> x in u.roles[..i]
      invariant forall k :: 0 <= k < i ==> Trimmed(u.roles[k])
      invariant Distinct(u.roles[..i])
    {
      var role := u.roles[i];
      if TrimSpace(role) == "" || role != TrimSpace(role) {
        return false;
      }
      if role in seen {
        assert exists k :: 0 <= k < i && u.roles[k] == u.roles[i];
        return false;
      }
      seen := seen[role := true];
    }
    assert u.roles[..|u.roles|] == u.roles;
    return true;
  }

  method ValidateUserSlice(users: seq<User>) returns (ok: bool)
    ensures ok <==> UsersOk(users)
  {
    hide UserOk;
    var seen: map<string, bool> := map[];
    for i := 0 to |users|
      invariant forall k :: 0 <= k < i ==> users[k].username in seen
      invariant forall x :: x in seen ==> exists k :: 0 <= k < i && users[k].username == x
      invariant forall k :: 0 <= k < i ==> UserOk(users[k])
      invariant forall j, k :: 0 <= j < k < i ==> users[j].username != users[k].username
    {
      var userOk := ValidateUser(users[i]);
      if !userOk || users[i].username in seen {
        return false;
      }
      seen := seen[users[i].username := true];
    }
    return true;
  }

  method ValidateGrants(c: Client) returns (ok: bool)
    ensures ok <==> GrantsOk(c)
  {
    var hasCC := false;
    var seen: map<string, bool> := map[];
    for i := 0 to |c.grantTypes|
      invariant forall x :: x in seen <==> x in c.grantTypes[..i]
      invariant forall k :: 0 <= k < i ==> c.grantTypes[k] in {GRANT_CODE, GRANT_REFRESH, GRANT_CLIENT_CREDENTIALS}
      invariant Distinct(c.grantTypes[..i])
      invariant hasCC <==> GRANT_CLIENT_CREDENTIALS in c.grantTypes[..i]
    {
      var g := c.grantTypes[i];
      if g == GRANT_CLIENT_CREDENTIALS {
        hasCC := true;
      } else if g != GRANT_CODE && g != GRANT_REFRESH {
        return false;
      }
      if g in seen {
        assert exists k :: 0 <= k < i && c.grantTypes[k] == c.grantTypes[i];
        return false;
      }
      seen := seen[g := true];
    }
    assert c.grantTypes[..|c.grantTypes|] == c.grantTypes;
    if !hasCC {
      return |c.ccScopes| == 0;
    }
    if !c.Confidential() || |c.ccScopes| == 0 {
      return false;
    }
    for i := 0 to |c.ccScopes|
      invariant forall k :: 0 <= k < i ==> Plain(c.ccScopes[k])
    {
      var sc := c.ccScopes[i];
      if TrimSpace(sc) == "" || sc != TrimSpace(sc) || HasBlank(sc) {
        return false;
      }
    }
    return true;
  }

  method ValidateCcRoles(c: Client) returns (ok: bool)
    ensures ok <==> CcRolesOk(c)
  {
    if |c.ccRoles| == 0 {
      return true;
    }
    if !c.AllowsGrant(GRANT_CLIENT_CREDENTIALS) {
      return false;
    }
    var seen: map<string, bool> := map[];
    for i := 0 to |c.ccRoles|
      invariant forall x :: x in seen <==> x in c.ccRoles[..i]
      invariant forall k :: 0 <= k < i ==> Plain(c.ccRoles[k])
      invariant Distinct(c.ccRoles[..i])
    {
      var role := c.ccRoles[i];
      if role == "" || role != TrimSpace(role) || HasBlank(role) {
        return false;
      }
      if role in seen {
        assert exists k :: 0 <= k < i && c.ccRoles[k] == c.ccRoles[i];
        return false;
      }
      seen := seen[role := true];
    }
    assert c.ccRoles[..|c.ccRoles|] == c.ccRoles;
    return true;
  }

  /** Cutting a scope at its first slash and comparing the head is exactly `ScopeOfAuthority`. */
  lemma CutIsAuthority(sc: string, authority: string)
    ensures var body := TrimPrefix(sc, API_PREFIX);
            var at := Index(body, '/');
            (at < |body| && at > 0 && at + 1 < |body| && body[..at] == authority) <==> ScopeOfAuthority(sc, authority)
  {
    var body := TrimPrefix(sc, API_PREFIX);
    var at := Index(body, '/');
    if at < |body| && body[..at] == authority {
      assert body[..at + 1] == authority + "/";
    }
    if ScopeOfAuthority(sc, authority) {
      assert body == authority + ['/'] + body[|authority| + 1..];
      IndexOfJoined(authority, '/', body[|authority| + 1..]);
    }
  }

  method ValidateAllowedScopes(c: Client) returns (ok: bool)
    ensures ok <==> AllowedScopesOk(c)
  {
    var wantAuthority := TrimPrefix(c.Audience(), API_PREFIX);
    for i := 0 to |c.allowedScopes|
      invariant forall k :: 0 <= k < i ==> Plain(c.allowedScopes[k]) && ScopeOfAuthority(c.allowedScopes[k], wantAuthority)
    {
      var sc := c.allowedScopes[i];
      if sc == "" || sc != TrimSpace(sc) || HasBlank(sc) {
        return false;
      }
      var body := TrimPrefix(sc, API_PREFIX);
      var at := Index(body, '/');
      CutIsAuthority(sc, wantAuthority);
      if at == |body| || at == 0 || at + 1 == |body| || body[..at] != wantAuthority {
        return false;
      }
    }
    return true;
  }

  method ValidateUrls(c: Client, urlOk: string -> bool) returns (ok: bool)
    ensures ok <==> UrlsOk(c, urlOk)
  {
    if c.Interactive() && |c.redirectUris| == 0 {
      return false;
    }
    var all := c.redirectUris + c.postLogoutUris + c.allowedOrigins;
    for i := 0 to |all|
      invariant forall k :: 0 <= k < i ==> urlOk(all[k])
    {
      if !urlOk(all[i]) {
        return false;
      }
    }
    return true;
  }

  method ValidateClient(c: Client, urlOk: string -> bool) returns (ok: bool)
    ensures ok <==> ClientOk(c, urlOk)
  {
    if TrimSpace(c.clientId) == "" || c.clientId != TrimSpace(c.clientId) || HasBlank(c.clientId) {
      return false;
    }
    if c.kind == PUBLIC {
      if c.secret != "" {
        return false;
      }
    } else if c.kind == CONFIDENTIAL {
      if c.secret == "" {
        return false;
      }
    } else {
      return false;
    }
    if HasBlank(c.Audience()) {
      return false;
    }
    var grants := ValidateGrants(c);
    var roles := ValidateCcRoles(c);
    var scopes := ValidateAllowedScopes(c);
    var urls := ValidateUrls(c, urlOk);
    var users := ValidateUserSlice(c.users);
    return grants && roles && scopes && urls && users;
  }

  method ValidateClientSlice(clients: seq<Client>, urlOk: string -> bool) returns (ok: bool)
    ensures ok <==> ClientsOk(clients, urlOk)
  {
    hide ClientOk;
    var seen: map<string, bool> := map[];
    for i := 0 to |clients|
      invariant forall k :: 0 <= k < i ==> clients[k].clientId in seen
      invariant forall x :: x in seen ==> exists k :: 0 <= k < i && clients[k].clientId == x
      invariant forall k :: 0 <= k < i ==> ClientOk(clients[k], urlOk)
      invariant forall j, k :: 0 <= j < k < i ==> clients[j].clientId != clients[k].clientId
    {
      var clientOk := ValidateClient(clients[i], urlOk);
      if !clientOk {
        return false;
      }
      if clients[i].clientId in seen {
        return false;
      }
      seen := seen[clients[i].clientId := true];
    }
    return true;
  }

  method ValidateResourceRoles(r: Resource) returns (ok: bool, defined: set<string>)
    ensures ok <==> AppRolesOk(r)
    ensures ok ==> defined == RoleSet(r)
  {
    defined := {};
    if |r.appRoles| == 0 {
      return false, defined;
    }
    for i := 0 to |r.appRoles|
      invariant defined == set role | role in r.appRoles[..i]
      invariant forall k :: 0 <= k < i ==> r.appRoles[k] != "" && !HasBlank(r.appRoles[k])
      invariant Distinct(r.appRoles[..i])
    {
      var role := r.appRoles[i];
      if role == "" || HasBlank(role) {
        return false, defined;
      }
      if role in defined {
        assert exists k :: 0 <= k < i && r.appRoles[k] == r.appRoles[i];
        return false, defined;
      }
      defined := defined + {role};
    }
    assert r.appRoles[..|r.appRoles|] == r.appRoles;
    return true, defined;
  }

  method CheckWithin(roles: seq<string>, defined: set<string>) returns (ok: bool)
    ensures ok <==> Within(roles, defined)
  {
    for i := 0 to |roles|
      invariant forall k :: 0 <= k < i ==> roles[k] in defined
    {
      if roles[i] !in defined {
        return false;
      }
    }
    return true;
  }

  method ValidateClientRoles(c: Client, roles: map<string, set<string>>) returns (ok: bool)
    ensures ok <==> (c.Audience() in roles ==> RolesWithin(c, roles[c.Audience()]))
  {
    if c.Audience() !in roles {
      return true;
    }
    var defined := roles[c.Audience()];
    ok := CheckWithin(c.ccRoles, defined);
    if !ok {
      return;
    }
    for i := 0 to |c.users|
      invariant forall k :: 0 <= k < i ==> Within(c.users[k].roles, defined)
    {
      ok := CheckWithin(c.users[i].roles, defined);
      if !ok {
        return;
      }
    }
    return true;
  }

  /** `roles` maps every audience of `resources` to the roles defined for it. */
  ghost predicate Indexes(roles: map<string, set<string>>, resources: seq<Resource>) {
    && (forall a :: a in roles ==> exists i :: 0 <= i < |resources| && resources[i].audience == a)
    && (forall i :: 0 <= i < |resources| ==>
          resources[i].audience in roles && roles[resources[i].audience] == RoleSet(resources[i]))
  }

  method IndexResources(resources: seq<Resource>) returns (ok: bool, roles: map<string, set<string>>)
    ensures ok <==> (forall i :: 0 <= i < |resources| ==> ResourceOk(resources[i])) && DistinctAudiences(resources)
    ensures ok ==> Indexes(roles, resources)
  {
    roles := map[];
    for i := 0 to |resources|
      invariant forall k :: 0 <= k < i ==> ResourceOk(resources[k])
      invariant forall j, k :: 0 <= j < k < i ==> resources[j].audience != resources[k].audience
      invariant forall a :: a in roles ==> exists k :: 0 <= k < i && resources[k].audience == a
      invariant forall k :: 0 <= k < i ==>
                  resources[k].audience in roles && roles[resources[k].audience] == RoleSet(resources[k])
    {
      var res := resources[i];
      if res.audience == "" || HasBlank(res.audience) {
        return false, roles;
      }
      if res.audience in roles {
        return false, roles;
      }
      var resOk, defined := ValidateResourceRoles(res);
      if !resOk {
        return false, roles;
      }
      roles := roles[res.audience := defined];
    }
    return true, roles;
  }

  method ValidateResourceRegistry(resources: seq<Resource>, clients: seq<Client>) returns (ok: bool)
    ensures ok <==> RegistryOk(resources, clients)
  {
    var roles;
    ok, roles := IndexResources(resources);
    if !ok {
      return;
    }
    for i := 0 to |clients|
      invariant forall k :: 0 <= k < i ==> (clients[k].Audience() in roles ==> RolesWithin(clients[k], roles[clients[k].Audience()]))
    {
      ok := ValidateClientRoles(clients[i], roles);
      if !ok {
        return;
      }
    }
    return true;
  }

  /** Reading a clients file accepts it exactly when both validations pass. */
  method ReadClientsFile(file: ClientsFile, urlOk: string -> bool) returns (ok: bool)
    ensures ok <==> FileOk(file, urlOk)
  {
    ok := ValidateClientSlice(file.clients, urlOk);
    if ok {
      ok := ValidateResourceRegistry(file.resources, file.clients);
    }
  }
}
