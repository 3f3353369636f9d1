/**
 The index built from an accepted client list at start, and its queries.  Every query is
 proved to answer what a plain scan of the list in file order answers.
 */
module Registry {
  import opened Options
  import opened Scopes
  import opened Clients

  // ----- the plain scans -----

  /** The first client with the given id. */
  function FindById(clients: seq<Client>, id: string): (r: Option<Client>)
    ensures r.Some? ==> r.value in clients && r.value.clientId == id
    ensures r.None? <==> forall c :: c in clients ==> c.clientId != id
  {
    if clients == [] then None
    else if clients[0].clientId == id then Some(clients[0])
    else FindById(clients[1..], id)
  }

  /** The first client with the given audience. */
  function FindByAudience(clients: seq<Client>, aud: string): (r: Option<Client>)
    ensures r.Some? ==> r.value in clients && r.value.Audience() == aud
    ensures r.None? <==> forall c :: c in clients ==> c.Audience() != aud
  {
    if clients == [] then None
    else if clients[0].Audience() == aud then Some(clients[0])
    else FindByAudience(clients[1..], aud)
  }

  function AllScopes(clients: seq<Client>): seq<string> {
    if clients == [] then []
    else AllScopes(clients[..|clients| - 1]) + clients[|clients| - 1].allowedScopes
  }

  /** The last user with the given name. */
  function LastNamed(users: seq<User>, name: string): (r: Option<User>)
    ensures r.Some? ==> r.value in users && r.value.username == name
    ensures r.None? <==> forall u :: u in users ==> u.username != name
  {
    if users == [] then None
    else
      var init, last := users[..|users| - 1], users[|users| - 1];
      assert users == init + [last];
      if last.username == name then Some(last) else LastNamed(init, name)
  }

  function Names(users: seq<User>): set<string> {
    set u | u in users :: u.username
  }

  /** The accounts of all clients: as many as each has different user names. */
  function CountNames(clients: seq<Client>): nat {
    if clients == [] then 0
    else CountNames(clients[..|clients| - 1]) + |Names(clients[|clients| - 1].users)|
  }

  function CountUsers(clients: seq<Client>): nat {
    if clients == [] then 0
    else CountUsers(clients[..|clients| - 1]) + |clients[|clients| - 1].users|
  }

  /** The user with the given name in a list without repeated names. */
  function FindUser(users: seq<User>, name: string): (r: Option<User>)
    ensures r.Some? ==> r.value in users && r.value.username == name
    ensures r.None? <==> forall u :: u in users ==> u.username != name
  {
    if users == [] then None
    else if users[0].username == name then Some(users[0])
    else FindUser(users[1..], name)
  }

  // ----- the index -----

  datatype Registered = Registered(client: Client, users: map<string, User>)

  datatype Index = Index(
    byId: map<string, Registered>,
    redirects: map<string, seq<string>>,
    logoutRedirects: map<string, seq<string>>,
    audiences: map<string, bool>,
    ids: seq<string>,
    hasConfidential: bool)

  /** The name table holds exactly the users of the list, the last one for a name that is repeated. */
  ghost predicate UsersAgree(byName: map<string, User>, users: seq<User>) {
    forall name :: (if name in byName then Some(byName[name]) else None) == LastNamed(users, name)
  }

  method NewUserStore(users: seq<User>) returns (byName: map<string, User>)
    ensures UsersAgree(byName, users)
  {
    byName := map[];
    for i := 0 to |users|
      invariant UsersAgree(byName, users[..i])
    {
      assert users[..i + 1][..i] == users[..i];
      byName := byName[users[i].username := users[i]];
    }
    assert users[..|users|] == users;
  }

  lemma NamesAgree(byName: map<string, User>, users: seq<User>)
    requires UsersAgree(byName, users)
    ensures |byName| == |Names(users)|
  {
    hide LastNamed;
    forall name ensures name in byName <==> name in Names(users) {
      assert LastNamed(users, name).Some? <==> name in byName;
    }
    assert byName.Keys == Names(users);
  }

  /** Everything the index stores for one client. */
  ghost predicate Filed(r: Index, c: Client) {
    var id := c.clientId;
    && id in r.byId && r.byId[id].client == c
    && UsersAgree(r.byId[id].users, c.users)
    && id in r.redirects && r.redirects[id] == c.redirectUris
    && id in r.logoutRedirects && r.logoutRedirects[id] == c.postLogoutUris
  }

  ghost predicate InOrder(r: Index, clients: seq<Client>) {
    && |r.ids| == |clients|
    && (forall i :: 0 <= i < |clients| ==> r.ids[i] == clients[i].clientId && Filed(r, clients[i]))
  }

  ghost predicate IdsAgree(byId: map<string, Registered>, clients: seq<Client>) {
    forall id :: id in byId <==> exists c :: c in clients && c.clientId == id
  }

  ghost predicate AudiencesAgree(audiences: map<string, bool>, clients: seq<Client>) {
    forall a :: a in audiences <==> exists c :: c in clients && c.Audience() == a
  }

  ghost predicate ProfilesAgree(hasConfidential: bool, clients: seq<Client>) {
    hasConfidential <==> exists c :: c in clients && c.Confidential()
  }

  /** The index holds exactly the clients of the list, in file order. */
  ghost predicate Agrees(r: Index, clients: seq<Client>) {
    && InOrder(r, clients)
    && IdsAgree(r.byId, clients)
    && AudiencesAgree(r.audiences, clients)
    && ProfilesAgree(r.hasConfidential, clients)
  }

  /** What agreement says about one position. */
  lemma AgreesAt(r: Index, clients: seq<Client>, i: nat)
    requires Agrees(r, clients) && i < |clients|
    ensures |r.ids| == |clients|
    ensures r.ids[i] == clients[i].clientId && r.ids[i] in r.byId
    ensures r.byId[r.ids[i]].client == clients[i] && |r.byId[r.ids[i]].users| == |Names(clients[i].users)|
  {
    hide UsersAgree, Names, LastNamed;
    assert Filed(r, clients[i]);
    NamesAgree(r.byId[clients[i].clientId].users, clients[i].users);
  }

  lemma AgreesSize(r: Index, clients: seq<Client>)
    requires Agrees(r, clients)
    ensures |r.ids| == |clients|
  {
  }

  lemma FiledStays(r: Index, d: Client, c: Client, users: map<string, User>)
    requires Filed(r, d) && d.clientId != c.clientId
    ensures Filed(Extended(r, c, users), d)
  {
    hide UsersAgree;
  }

  lemma FiledNew(r: Index, c: Client, users: map<string, User>)
    requires UsersAgree(users, c.users)
    ensures Filed(Extended(r, c, users), c)
  {
    hide UsersAgree;
  }

  lemma InOrderExtends(r: Index, clients: seq<Client>, c: Client, users: map<string, User>)
    requires InOrder(r, clients)
    requires forall d :: d in clients ==> d.clientId != c.clientId
    requires UsersAgree(users, c.users)
    ensures InOrder(Extended(r, c, users), clients + [c])
  {
    hide UsersAgree;
    var r', all := Extended(r, c, users), clients + [c];
    forall i | 0 <= i < |all| ensures r'.ids[i] == all[i].clientId && Filed(r', all[i]) {
      if i < |clients| {
        assert clients[i] in clients;
        FiledStays(r, clients[i], c, users);
      } else {
        FiledNew(r, c, users);
      }
    }
  }

  lemma NamesExtend(r: Index, clients: seq<Client>, c: Client, users: map<string, User>)
    requires IdsAgree(r.byId, clients) && AudiencesAgree(r.audiences, clients)
    requires ProfilesAgree(r.hasConfidential, clients)
    ensures IdsAgree(Extended(r, c, users).byId, clients + [c])
    ensures AudiencesAgree(Extended(r, c, users).audiences, clients + [c])
    ensures ProfilesAgree(Extended(r, c, users).hasConfidential, clients + [c])
  {
    assert forall d :: d in clients + [c] <==> d in clients || d == c;
  }

  /** One more client goes into an index that has none with its id. */
  lemma AgreesExtends(r: Index, clients: seq<Client>, c: Client, users: map<string, User>)
    requires Agrees(r, clients)
    requires c.clientId !in r.byId
    requires UsersAgree(users, c.users)
    ensures Agrees(Extended(r, c, users), clients + [c])
  {
    hide UsersAgree, InOrder, AudiencesAgree, ProfilesAgree;
    InOrderExtends(r, clients, c, users);
    hide IdsAgree;
    NamesExtend(r, clients, c, users);
  }

  lemma AgreesEmpty()
    ensures Agrees(Index(map[], map[], map[], map[], [], false), [])
  {
  }

  /** An id is taken exactly when an earlier client has it. */
  lemma TakenId(r: Index, clients: seq<Client>, n: nat, id: string)
    requires n <= |clients| && Agrees(r, clients[..n])
    ensures id in r.byId <==> exists k :: 0 <= k < n && clients[k].clientId == id
  {
    hide InOrder, AudiencesAgree, ProfilesAgree;
    assert forall k :: 0 <= k < n ==> clients[k] in clients[..n];
  }

  function Extended(r: Index, c: Client, users: map<string, User>): Index {
    Index(
      r.byId[c.clientId := Registered(c, users)],
      r.redirects[c.clientId := c.redirectUris],
      r.logoutRedirects[c.clientId := c.postLogoutUris],
      r.audiences[c.Audience() := true],
      r.ids + [c.clientId],
      r.hasConfidential || c.Confidential())
  }

  /** No interactive client without users and no repeated id among the first `n`. */
  predicate SoundUpTo(clients: seq<Client>, n: nat)
    requires n <= |clients|
  {
    && (forall i :: 0 <= i < n ==> !(clients[i].Interactive() && clients[i].users == []))
    && (forall i, j :: 0 <= i < j < n ==> clients[i].clientId != clients[j].clientId)
  }

  /** The start is refused for an empty list, an interactive client without users or a repeated id. */
  predicate Startable(clients: seq<Client>) {
    clients != [] && SoundUpTo(clients, |clients|)
  }

  lemma SoundStep(clients: seq<Client>, n: nat)
    requires n < |clients| && SoundUpTo(clients, n)
    ensures SoundUpTo(clients, n + 1) <==>
            && !(clients[n].Interactive() && clients[n].users == [])
            && !(exists k :: 0 <= k < n && clients[k].clientId == clients[n].clientId)
    ensures Startable(clients) ==> SoundUpTo(clients, n + 1)
  {
    hide Client.Interactive;
  }

  method NewClientRegistry(clients: seq<Client>) returns (r: Option<Index>)
    ensures r.Some? <==> Startable(clients)
    ensures r.Some? ==> Agrees(r.value, clients)
  {
    hide Agrees, UsersAgree, SoundUpTo, Extended, Client.Interactive;
    if |clients| == 0 {
      return None;
    }
    var idx := Index(map[], map[], map[], map[], [], false);
    AgreesEmpty();
    SoundNone(clients);
    for i := 0 to |clients|
      invariant SoundUpTo(clients, i)
      invariant Agrees(idx, clients[..i])
    {
      var c := clients[i];
      SoundStep(clients, i);
      if c.Interactive() && |c.users| == 0 {
        return None;
      }
      TakenId(idx, clients, i, c.clientId);
      if c.clientId in idx.byId {
        return None;
      }
      var users := NewUserStore(c.users);
      AgreesExtends(idx, clients[..i], c, users);
      assert clients[..i + 1] == clients[..i] + [c];
      idx := Extended(idx, c, users);
    }
    assert clients[..|clients|] == clients;
    return Some(idx);
  }

  lemma SoundNone(clients: seq<Client>)
    ensures SoundUpTo(clients, 0)
  {
  }

  // ----- the queries -----

  function Lookup(r: Index, id: string): Option<Registered> {
    if id in r.byId then Some(r.byId[id]) else None
  }

  lemma {:induction false} FindByIdAt(clients: seq<Client>, i: nat)
    requires DistinctIds(clients) && i < |clients|
    ensures FindById(clients, clients[i].clientId) == Some(clients[i])
  {
    if i > 0 {
      assert clients[0].clientId != clients[i].clientId;
      FindByIdAt(clients[1..], i - 1);
    }
  }

  lemma {:induction false} FindUserAt(users: seq<User>, i: nat)
    requires forall j, k :: 0 <= j < k < |users| ==> users[j].username != users[k].username
    requires i < |users|
    ensures FindUser(users, users[i].username) == Some(users[i])
  {
    if i > 0 {
      assert users[0].username != users[i].username;
      FindUserAt(users[1..], i - 1);
    }
  }

  /** Looking an id up in the index is finding it in the list, user table included. */
  lemma LookupIsScan(r: Index, clients: seq<Client>, id: string)
    requires Agrees(r, clients) && DistinctIds(clients)
    ensures Lookup(r, id).Some? <==> FindById(clients, id).Some?
    ensures Lookup(r, id).Some? ==> Lookup(r, id).value.client == FindById(clients, id).value
  {
    hide UsersAgree;
    if id in r.byId {
      var i :| 0 <= i < |clients| && clients[i].clientId == id;
      FindByIdAt(clients, i);
      AgreesAt(r, clients, i);
    } else {
      forall i | 0 <= i < |clients| ensures clients[i].clientId != id {
        AgreesAt(r, clients, i);
      }
    }
  }

  lemma {:induction false} LastNamedAt(users: seq<User>, i: nat)
    requires forall j, k :: 0 <= j < k < |users| ==> users[j].username != users[k].username
    requires i < |users|
    ensures LastNamed(users, users[i].username) == Some(users[i])
  {
    if i < |users| - 1 {
      var init := users[..|users| - 1];
      assert users[|users| - 1].username != users[i].username;
      LastNamedAt(init, i);
    }
  }

  /** Looking a name up in the table of a validated list is finding it in the list. */
  lemma UserLookupIsScan(byName: map<string, User>, users: seq<User>, name: string)
    requires UsersAgree(byName, users) && UsersOk(users)
    ensures (if name in byName then Some(byName[name]) else None) == FindUser(users, name)
  {
    hide UserOk;
    assert LastNamed(users, name) == FindUser(users, name) by {
      if FindUser(users, name).Some? {
        var i :| 0 <= i < |users| && users[i].username == name;
        FindUserAt(users, i);
        LastNamedAt(users, i);
      }
    }
  }

  method AudienceAllowed(r: Index, ghost clients: seq<Client>, aud: seq<string>) returns (ok: bool)
    requires Agrees(r, clients)
    ensures ok <==> exists a, c :: a in aud && c in clients && c.Audience() == a
  {
    hide Filed;
    for i := 0 to |aud|
      invariant forall k :: 0 <= k < i ==> aud[k] !in r.audiences
    {
      if aud[i] in r.audiences {
        ghost var c :| c in clients && c.Audience() == aud[i];
        assert aud[i] in aud && c in clients && c.Audience() == aud[i];
        return true;
      }
    }
    return false;
  }

  method ClientForAudience(r: Index, ghost clients: seq<Client>, aud: string) returns (c: Option<Client>)
    requires Agrees(r, clients)
    ensures c == FindByAudience(clients, aud)
  {
    hide Agrees;
    AgreesSize(r, clients);
    for i := 0 to |r.ids|
      invariant FindByAudience(clients, aud) == FindByAudience(clients[i..], aud)
    {
      AgreesAt(r, clients, i);
      var rc := r.byId[r.ids[i]];
      if rc.client.Audience() == aud {
        return Some(rc.client);
      }
      assert clients[i..][1..] == clients[i + 1..];
    }
    return None;
  }

  method AnyClientCredentials(r: Index, ghost clients: seq<Client>) returns (any: bool)
    requires Agrees(r, clients)
    ensures any <==> exists c :: c in clients && c.AllowsGrant(GRANT_CLIENT_CREDENTIALS)
  {
    hide Agrees;
    AgreesSize(r, clients);
    for i := 0 to |r.ids|
      invariant forall k :: 0 <= k < i ==> !clients[k].AllowsGrant(GRANT_CLIENT_CREDENTIALS)
    {
      AgreesAt(r, clients, i);
      if r.byId[r.ids[i]].client.AllowsGrant(GRANT_CLIENT_CREDENTIALS) {
        assert clients[i] in clients;
        return true;
      }
    }
    return false;
  }

  /** The inner loop of `DelegatedScopes`: appends the scopes not seen so far. */
  method AppendUnseen(out0: seq<string>, seen0: map<string, bool>, scopes: seq<string>, ghost before: seq<string>)
    returns (out: seq<string>, seen: map<string, bool>)
    requires out0 == Dedup(before) && forall x :: x in seen0 <==> x in out0
    ensures out == Dedup(before + scopes) && forall x :: x in seen <==> x in out
  {
    out, seen := out0, seen0;
    assert before + [] == before;
    for j := 0 to |scopes|
      invariant out == Dedup(before + scopes[..j])
      invariant forall x :: x in seen <==> x in out
    {
      var sc := scopes[j];
      ghost var upto := before + scopes[..j + 1];
      assert upto[..|upto| - 1] == before + scopes[..j] && upto[|upto| - 1] == sc;
      if sc !in seen {
        seen := seen[sc := true];
        out := out + [sc];
      }
    }
    assert scopes[..|scopes|] == scopes;
  }

  method DelegatedScopes(r: Index, ghost clients: seq<Client>) returns (out: seq<string>)
    requires Agrees(r, clients)
    ensures out == Dedup(AllScopes(clients))
  {
    hide Agrees;
    AgreesSize(r, clients);
    out := [];
    var seen: map<string, bool> := map[];
    for i := 0 to |r.ids|
      invariant out == Dedup(AllScopes(clients[..i]))
      invariant forall x :: x in seen <==> x in out
    {
      AgreesAt(r, clients, i);
      out, seen := AppendUnseen(out, seen, r.byId[r.ids[i]].client.allowedScopes, AllScopes(clients[..i]));
      assert clients[..i + 1][..i] == clients[..i];
    }
    assert clients[..|clients|] == clients;
  }

  method UserCount(r: Index, ghost clients: seq<Client>) returns (n: nat)
    requires Agrees(r, clients)
    ensures n == CountNames(clients)
    ensures (forall c :: c in clients ==> UsersOk(c.users)) ==> n == CountUsers(clients)
  {
    hide Agrees;
    AgreesSize(r, clients);
    n := 0;
    for i := 0 to |r.ids|
      invariant n == CountNames(clients[..i])
    {
      AgreesAt(r, clients, i);
      n := n + |r.byId[r.ids[i]].users|;
      assert clients[..i + 1][..i] == clients[..i];
    }
    assert clients[..|clients|] == clients;
    if forall c :: c in clients ==> UsersOk(c.users) {
      NamesAreUsers(clients);
    }
  }

  /** In validated lists the accounts are the users. */
  lemma {:induction false} NamesAreUsers(clients: seq<Client>)
    requires forall c :: c in clients ==> UsersOk(c.users)
    ensures CountNames(clients) == CountUsers(clients)
  {
    if clients != [] {
      var init, last := clients[..|clients| - 1], clients[|clients| - 1];
      assert forall c :: c in init ==> c in clients;
      NamesAreUsers(init);
      assert last in clients;
      DistinctNames(last.users);
    }
  }

  lemma {:induction false} DistinctNames(users: seq<User>)
    requires forall i, j :: 0 <= i < j < |users| ==> users[i].username != users[j].username
    ensures |Names(users)| == |users|
  {
    if users != [] {
      var init, last := users[..|users| - 1], users[|users| - 1];
      DistinctNames(init);
      assert users == init + [last];
      assert Names(users) == Names(init) + {last.username};
      assert last.username !in Names(init);
    }
  }
}
