/**
 The in-memory token store: five tables behind one mutex.

 `Tables` is the value of the five tables, and each store operation is a function from the
 tables before a critical section to the tables after it.  The class `TokenStore.Store` is the
 imperative form, and every method of it is proved against the function here.

 Clock readings are parameters.  An operation that reads the clock twice takes two readings.
 */
module StoreTables {
  import opened Options

  /** Nanoseconds on a clock that never goes back. */
  type Time = int

  datatype AuthCode = AuthCode(
    expiresAt: Time,
    sub: string,
    clientId: string,
    redirectUri: string,
    challenge: string,
    challengeMethod: string,
    nonce: string,
    scopes: seq<string>)

  datatype RefreshEntry = RefreshEntry(
    expiresAt: Time,
    sub: string,
    clientId: string,
    nonce: string,
    family: string,
    scopes: seq<string>)

  datatype JtiRecord = JtiRecord(exp: Time, sub: string, family: string)

  datatype Tables = Tables(
    codes: map<string, AuthCode>,
    refresh: map<string, RefreshEntry>,
    used: map<string, RefreshEntry>,
    jtis: map<string, JtiRecord>,
    denied: map<string, Time>)

  const EMPTY := Tables(map[], map[], map[], map[], map[])

  // ----- the operations as functions on tables -----

  function LiveCodes(m: map<string, AuthCode>, now: Time): map<string, AuthCode> {
    map id | id in m && now <= m[id].expiresAt :: m[id]
  }

  function LiveEntries(m: map<string, RefreshEntry>, now: Time): map<string, RefreshEntry> {
    map id | id in m && now <= m[id].expiresAt :: m[id]
  }

  function LiveJtis(m: map<string, JtiRecord>, now: Time): map<string, JtiRecord> {
    map jti | jti in m && now <= m[jti].exp :: m[jti]
  }

  function LiveDenials(m: map<string, Time>, now: Time): map<string, Time> {
    map jti | jti in m && now <= m[jti] :: m[jti]
  }

  function DropExpired(s: Tables, now: Time): Tables {
    Tables(LiveCodes(s.codes, now), LiveEntries(s.refresh, now), LiveEntries(s.used, now),
           LiveJtis(s.jtis, now), LiveDenials(s.denied, now))
  }

  /** The jtis that revoking `family` at `now` denies. */
  function Doomed(s: Tables, family: string, now: Time): set<string> {
    set jti | jti in s.jtis && s.jtis[jti].family == family && now < s.jtis[jti].exp
  }

  function RevokeFamily(s: Tables, family: string, now: Time): Tables {
    if family == "" then s else
    var doomed := Doomed(s, family, now);
    s.(refresh := map id | id in s.refresh && s.refresh[id].family != family :: s.refresh[id],
       used := map id | id in s.used && s.used[id].family != family :: s.used[id],
       jtis := s.jtis - doomed,
       denied := s.denied + map jti | jti in doomed :: s.jtis[jti].exp)
  }

  function AddCode(s: Tables, code: AuthCode, id: string, now: Time): Tables {
    var s1 := DropExpired(s, now);
    s1.(codes := s1.codes[id := code])
  }

  /** The tables after `takeCode`, and the code it yields. */
  function TakeCode(s: Tables, id: string, sweepAt: Time, checkAt: Time): (Tables, Option<AuthCode>) {
    TakeLiveCode(DropExpired(s, sweepAt), id, checkAt)
  }

  function TakeLiveCode(s: Tables, id: string, checkAt: Time): (Tables, Option<AuthCode>) {
    if id !in s.codes then (s, None) else
    var c := s.codes[id];
    (s.(codes := s.codes - {id}), if checkAt > c.expiresAt then None else Some(c))
  }

  function AddRefresh(s: Tables, entry: RefreshEntry, id: string, now: Time): Tables {
    var s1 := DropExpired(s, now);
    s1.(refresh := s1.refresh[id := entry])
  }

  datatype Taken = Redeemed(entry: RefreshEntry) | Reused | Unknown

  /** The tables after `takeRefresh`, and what it reports. */
  function TakeRefresh(s: Tables, id: string, sweepAt: Time, checkAt: Time): (Tables, Taken) {
    TakeLiveRefresh(DropExpired(s, sweepAt), id, checkAt)
  }

  function TakeLiveRefresh(s: Tables, id: string, checkAt: Time): (Tables, Taken) {
    if id in s.used then
      var s1 := RevokeFamily(s, s.used[id].family, checkAt);
      (s1.(used := s1.used - {id}), Reused)
    else if id !in s.refresh then
      (s, Unknown)
    else
      var f := s.refresh[id];
      var s1 := s.(refresh := s.refresh - {id});
      if checkAt > f.expiresAt then (s1, Unknown) else (s1.(used := s1.used[id := f]), Redeemed(f))
  }

  function RegisterJti(s: Tables, jti: string, rec: JtiRecord): Tables {
    s.(jtis := s.jtis[jti := rec])
  }

  function DenyJti(s: Tables, jti: string, until: Time): Tables {
    s.(denied := s.denied[jti := until])
  }

  predicate IsDenied(s: Tables, jti: string, now: Time) {
    jti in s.denied && now < s.denied[jti]
  }

  function RevokeToken(s: Tables, id: string, now: Time): Tables {
    var s1 := s.(codes := s.codes - {id});
    if id in s1.refresh then
      RevokeFamily(s1.(refresh := s1.refresh - {id}), s1.refresh[id].family, now)
    else if id in s1.used then
      RevokeFamily(s1, s1.used[id].family, now)
    else s1
  }

  // ----- sweeps and revocation are exact -----

  /** A sweep keeps exactly the entries whose expiry is not before the clock, and every other table likewise. */
  lemma SweepIsExact(s: Tables, now: Time)
    ensures var r := DropExpired(s, now);
            && (forall id :: id in r.codes <==> id in s.codes && now <= s.codes[id].expiresAt)
            && (forall id :: id in r.codes ==> r.codes[id] == s.codes[id])
            && (forall id :: id in r.refresh <==> id in s.refresh && now <= s.refresh[id].expiresAt)
            && (forall id :: id in r.refresh ==> r.refresh[id] == s.refresh[id])
            && (forall id :: id in r.used <==> id in s.used && now <= s.used[id].expiresAt)
            && (forall id :: id in r.used ==> r.used[id] == s.used[id])
            && (forall jti :: jti in r.jtis <==> jti in s.jtis && now <= s.jtis[jti].exp)
            && (forall jti :: jti in r.jtis ==> r.jtis[jti] == s.jtis[jti])
            && (forall jti :: jti in r.denied <==> jti in s.denied && now <= s.denied[jti])
            && (forall jti :: jti in r.denied ==> r.denied[jti] == s.denied[jti])
  {
  }

  /**
   Revoking a presented opaque token drops it where it is a code, and drops every live and consumed refresh token
   of its family where it is a refresh token, live or consumed; any other token changes nothing.
   */
  lemma RevokeTokenIsExact(s: Tables, token: string, now: Time)
    ensures var r := RevokeToken(s, token, now);
            && token !in r.codes
            && (forall id :: id != token ==> (id in r.codes <==> id in s.codes) && (id in s.codes ==> r.codes[id] == s.codes[id]))
            && (token in s.refresh ==> token !in r.refresh && CutFrom(s, r, s.refresh[token].family, token, now))
            && (token !in s.refresh && token in s.used ==> CutFrom(s, r, s.used[token].family, "", now))
            && (token !in s.refresh && token !in s.used ==> r == s.(codes := r.codes))
  {
    hide Doomed;
    var s1 := s.(codes := s.codes - {token});
    if token in s.refresh {
      CutIs(s1.(refresh := s1.refresh - {token}), s, s.refresh[token].family, token, now);
    } else if token in s.used {
      CutIs(s1, s, s.used[token].family, "", now);
    }
    hide RevokeFamily, CutFrom;
  }

  /** Of a nonempty family no refresh token is left, and its registered tokens are denied; other tokens, but for `but`, stay. */
  ghost predicate CutFrom(s: Tables, r: Tables, family: string, but: string, now: Time) {
    && (family != "" ==>
          && (forall id :: id in r.refresh ==> r.refresh[id].family != family)
          && (forall id :: id in r.used ==> r.used[id].family != family)
          && (forall jti :: jti in s.jtis && s.jtis[jti].family == family && now < s.jtis[jti].exp ==>
                jti in r.denied && r.denied[jti] == s.jtis[jti].exp))
    && (forall id :: id in s.refresh && s.refresh[id].family != family && id != but ==>
          id in r.refresh && r.refresh[id] == s.refresh[id])
    && (forall id :: id in s.used && s.used[id].family != family ==> id in r.used && r.used[id] == s.used[id])
    && (forall jti :: jti in s.denied && !(jti in s.jtis && s.jtis[jti].family == family) ==>
          jti in r.denied && r.denied[jti] == s.denied[jti])
  }

  lemma CutIs(s1: Tables, s: Tables, family: string, but: string, now: Time)
    requires s1 == s.(codes := s1.codes, refresh := s1.refresh)
    requires forall id :: id in s.refresh && id != but ==> id in s1.refresh && s1.refresh[id] == s.refresh[id]
    ensures CutFrom(s, RevokeFamily(s1, family, now), family, but, now)
  {
  }

  /**
   Revoking a nonempty family removes all and only its refresh tokens, live and consumed, and
   denies until their registered expiry all and only its registered tokens that have not expired.
   Everything of other families stays, and an access token of the empty family is never touched.
   */
  lemma RevocationIsExact(s: Tables, family: string, now: Time)
    ensures family == "" ==> RevokeFamily(s, family, now) == s
    ensures family != "" ==>
            var r := RevokeFamily(s, family, now);
            && r.codes == s.codes
            && (forall id :: id in r.refresh <==> id in s.refresh && s.refresh[id].family != family)
            && (forall id :: id in r.refresh ==> r.refresh[id] == s.refresh[id])
            && (forall id :: id in r.used <==> id in s.used && s.used[id].family != family)
            && (forall id :: id in r.used ==> r.used[id] == s.used[id])
            && (forall jti :: jti in r.jtis ==> jti in s.jtis && r.jtis[jti] == s.jtis[jti])
            && (forall jti :: jti in s.jtis && s.jtis[jti].family == family ==> (jti in r.jtis <==> s.jtis[jti].exp <= now))
            && (forall jti, t :: now <= t && jti in s.jtis && s.jtis[jti].family == family ==>
                 (IsDenied(r, jti, t) <==> (t < s.jtis[jti].exp || (s.jtis[jti].exp <= now && IsDenied(s, jti, t)))))
            && (forall jti, t :: !(jti in s.jtis && s.jtis[jti].family == family) ==>
                 (IsDenied(r, jti, t) <==> IsDenied(s, jti, t)) && (jti in r.jtis <==> jti in s.jtis))
  {
  }
}
