/**
 The signed login-form token and the form fields it covers.

 The MAC, the digests and base64 are fields of `Manager`; what the proofs use of them is stated as
 predicates (`GoodCodec`, `Unforged`, `CollisionFree`).
 */
module Csrf {
  import opened Options
  import opened Text
  import opened Scopes

  /** Form values: every key with its values in order. */
  type Values = map<string, seq<string>>

  const SECOND: int := 1_000_000_000
  const MAX_INT64: int := 0x7FFF_FFFF_FFFF_FFFF

  datatype Manager = Manager(
    mac: string -> string,
    encode: string -> string,
    decode: string -> Option<string>,
    paramsDigest: Values -> string,
    nonceDigest: string -> string,
    ttl: int)

  // ----- decimal numbers -----

  function Digit(d: nat): char
    requires d < 10
  {
    ['0', '1', '2', '3', '4', '5', '6', '7', '8', '9'][d]
  }

  predicate IsDigit(c: char) {
    '0' <= c <= '9'
  }

  function DigitValue(c: char): nat
    requires IsDigit(c)
  {
    (c - '0') as nat
  }

  function Digits(n: nat): (s: string)
    ensures s != "" && forall i :: 0 <= i < |s| ==> IsDigit(s[i])
  {
    if n < 10 then [Digit(n)] else Digits(n / 10) + [Digit(n % 10)]
  }

  function Value(s: string): nat
    requires forall i :: 0 <= i < |s| ==> IsDigit(s[i])
  {
    if s == "" then 0 else 10 * Value(s[..|s| - 1]) + DigitValue(s[|s| - 1])
  }

  function FormatInt(n: int): string {
    if n < 0 then "-" + Digits(-n) else Digits(n)
  }

  /** Reads an optional sign and decimal digits that fit 64 bits. */
  function ParseInt(s: string): Option<int> {
    var signed := s != "" && s[0] in {'-', '+'};
    var body := if signed then s[1..] else s;
    if body == "" || exists i :: 0 <= i < |body| && !IsDigit(body[i]) then None
    else
      var n: int := if signed && s[0] == '-' then 0 - Value(body) else Value(body);
      if -MAX_INT64 - 1 <= n <= MAX_INT64 then Some(n) else None
  }

  lemma {:induction false} ValueOfDigits(n: nat)
    ensures Value(Digits(n)) == n
  {
    if n < 10 {
      assert Digits(n)[..0] == "";
      assert DigitValue(Digit(n)) == n;
    } else {
      var init := Digits(n / 10);
      ValueOfDigits(n / 10);
      assert (init + [Digit(n % 10)])[..|init|] == init;
      assert DigitValue(Digit(n % 10)) == n % 10;
    }
  }

  /** Digits read back as the number they were made from, and hold neither sign nor separator. */
  lemma DigitsFacts(n: nat)
    ensures Value(Digits(n)) == n && Digits(n) != "" && Digits(n)[0] !in {'-', '+'}
    ensures '|' !in Digits(n) && '.' !in Digits(n) && !(exists i :: 0 <= i < |Digits(n)| && !IsDigit(Digits(n)[i]))
  {
    ValueOfDigits(n);
    assert IsDigit(Digits(n)[0]);
  }

  lemma ParseFormat(n: int)
    requires -MAX_INT64 - 1 <= n <= MAX_INT64
    ensures ParseInt(FormatInt(n)) == Some(n)
    ensures '|' !in FormatInt(n) && '.' !in FormatInt(n)
  {
    if n < 0 {
      DigitsFacts(-n);
      assert FormatInt(n)[1..] == Digits(-n);
    } else {
      DigitsFacts(n);
    }
    hide Digits, Value;
  }

  // ----- the token -----

  function Unix(t: int): int {
    t / SECOND
  }

  /** Four pieces with bars between them. */
  function Barred(a: string, b: string, c: string, d: string): string {
    a + ['|'] + (b + ['|'] + (c + ['|'] + d))
  }

  /** The payload of a token issued at `now`. */
  function Payload(m: Manager, action: string, params: Values, nonce: string, now: int): string {
    Barred(FormatInt(Unix(now + m.ttl)), action, m.paramsDigest(Canonical(params)), m.nonceDigest(nonce))
  }

  function Issue(m: Manager, action: string, params: Values, nonce: string, now: int): string {
    var payload := Payload(m, action, params, nonce, now);
    payload + "." + m.encode(m.mac(payload))
  }

  predicate ValidSignature(m: Manager, payload: string, sig: string) {
    m.decode(sig) == Some(m.mac(payload))
  }

  /** At most `n` pieces, cut at the first separators; the last piece keeps the rest. */
  function SplitN(s: string, sep: char, n: nat): seq<string>
    requires n > 0
  {
    var i := Index(s, sep);
    if n == 1 || i == |s| then [s] else [s[..i]] + SplitN(s[i + 1..], sep, n - 1)
  }

  predicate ClaimsMatch(m: Manager, parts: seq<string>, action: string, params: Values, nonce: string, now: int)
    requires |parts| == 4
  {
    var exp := ParseInt(parts[0]);
    && exp.Some? && Unix(now) <= exp.value
    && parts[1] == action && parts[2] == m.paramsDigest(Canonical(params)) && parts[3] == m.nonceDigest(nonce)
  }

  predicate Verify(m: Manager, action: string, params: Values, nonce: string, token: string, now: int) {
    var dot := Index(token, '.');
    && nonce != ""
    && dot < |token|
    && ValidSignature(m, token[..dot], token[dot + 1..])
    && var parts := SplitN(token[..dot], '|', 4);
    && |parts| == 4
    && ClaimsMatch(m, parts, action, params, nonce, now)
  }

  // ----- what is assumed of digests and MAC -----

  /** Signatures decode to what was encoded, and digests are written in an alphabet without separators. */
  ghost predicate GoodCodec(m: Manager) {
    && (forall x :: m.decode(m.encode(x)) == Some(x))
    && (forall v :: '.' !in m.paramsDigest(v) && '|' !in m.paramsDigest(v))
    && (forall x :: '.' !in m.nonceDigest(x) && '|' !in m.nonceDigest(x))
  }

  predicate Clean(action: string) {
    '.' !in action && '|' !in action
  }

  datatype Form = Form(action: string, params: Values, nonce: string, at: int)

  predicate InRange(m: Manager, now: int) {
    -MAX_INT64 - 1 <= Unix(now + m.ttl) <= MAX_INT64
  }

  /** An ideal MAC: a token that somebody presents is validly signed only if its payload was issued. */
  ghost predicate Unforged(m: Manager, issued: set<Form>, token: string) {
    var dot := Index(token, '.');
    dot < |token| && ValidSignature(m, token[..dot], token[dot + 1..]) ==>
      exists f :: f in issued && Clean(f.action) && InRange(m, f.at) && token[..dot] == Payload(m, f.action, f.params, f.nonce, f.at)
  }

  // ----- cutting a token apart -----

  lemma CutOnce(a: string, sep: char, rest: string, n: nat)
    requires sep !in a && n > 1
    ensures SplitN(a + [sep] + rest, sep, n) == [a] + SplitN(rest, sep, n - 1)
  {
    IndexOfJoined(a, sep, rest);
    var s := a + [sep] + rest;
    assert s[..|a|] == a && s[|a| + 1..] == rest;
  }

  lemma SplitTwo(c: string, d: string)
    requires '|' !in c
    ensures SplitN(c + ['|'] + d, '|', 2) == [c, d]
  {
    assert SplitN(d, '|', 1) == [d];
    hide SplitN;
    CutOnce(c, '|', d, 2);
  }

  lemma SplitThree(b: string, c: string, d: string)
    requires '|' !in b && '|' !in c
    ensures SplitN(b + ['|'] + (c + ['|'] + d), '|', 3) == [b, c, d]
  {
    hide SplitN;
    SplitTwo(c, d);
    CutOnce(b, '|', c + ['|'] + d, 3);
    assert [b] + [c, d] == [b, c, d];
  }

  lemma SplitFour(a: string, b: string, c: string, d: string)
    requires '|' !in a && '|' !in b && '|' !in c
    ensures SplitN(Barred(a, b, c, d), '|', 4) == [a, b, c, d]
  {
    hide SplitN;
    SplitThree(b, c, d);
    CutOnce(a, '|', b + ['|'] + (c + ['|'] + d), 4);
    assert [a] + [b, c, d] == [a, b, c, d];
  }

  /** The pieces of an issued payload are the pieces it was made of. */
  lemma PayloadParts(m: Manager, action: string, params: Values, nonce: string, now: int)
    requires GoodCodec(m) && Clean(action) && InRange(m, now)
    ensures var exp := Unix(now + m.ttl);
            && SplitN(Payload(m, action, params, nonce, now), '|', 4) ==
               [FormatInt(exp), action, m.paramsDigest(Canonical(params)), m.nonceDigest(nonce)]
            && '.' !in Payload(m, action, params, nonce, now)
            && ParseInt(FormatInt(exp)) == Some(exp)
  {
    hide FormatInt, ParseInt, SplitN, Unix;
    var exp := Unix(now + m.ttl);
    ParseFormat(exp);
    SplitFour(FormatInt(exp), action, m.paramsDigest(Canonical(params)), m.nonceDigest(nonce));
  }

  /** An issued token verifies for its own form exactly until it expires. */
  lemma IssuedTokenVerifies(m: Manager, action: string, params: Values, nonce: string, now: int, later: int)
    requires GoodCodec(m) && Clean(action) && InRange(m, now) && nonce != ""
    ensures Verify(m, action, params, nonce, Issue(m, action, params, nonce, now), later) <==> Unix(later) <= Unix(now + m.ttl)
  {
    hide FormatInt, ParseInt, SplitN, Unix, Payload;
    var payload := Payload(m, action, params, nonce, now);
    var sig := m.encode(m.mac(payload));
    PayloadParts(m, action, params, nonce, now);
    var token := payload + ['.'] + sig;
    assert Issue(m, action, params, nonce, now) == token;
    IndexOfJoined(payload, '.', sig);
    assert token[..|payload|] == payload && token[|payload| + 1..] == sig;
  }

  /**
   Under an ideal MAC, an accepted token was issued for a form with the same action, the same
   parameter digest and the same nonce digest, and has not expired.
   */
  lemma AcceptanceBinds(m: Manager, issued: set<Form>, action: string, params: Values, nonce: string, token: string, now: int)
    requires GoodCodec(m) && Unforged(m, issued, token) && Verify(m, action, params, nonce, token, now)
    ensures exists f :: f in issued && f.action == action && Unix(now) <= Unix(f.at + m.ttl) &&
                        m.paramsDigest(Canonical(f.params)) == m.paramsDigest(Canonical(params)) &&
                        m.nonceDigest(f.nonce) == m.nonceDigest(nonce)
  {
    hide FormatInt, ParseInt, SplitN, Unix, Payload;
    var dot := Index(token, '.');
    var payload, sig := token[..dot], token[dot + 1..];
    assert ValidSignature(m, payload, sig);
    var f :| f in issued && Clean(f.action) && InRange(m, f.at) && payload == Payload(m, f.action, f.params, f.nonce, f.at);
    PayloadParts(m, f.action, f.params, f.nonce, f.at);
  }

  // ----- the hidden fields of the login form -----

  const OAUTH_KEYS := ["client_id", "redirect_uri", "response_type", "scope", "state", "nonce",
                       "code_challenge", "code_challenge_method", "login_hint"]

  /** The values as they are encoded: a key without values leaves no trace. */
  function Canonical(v: Values): Values {
    map key | key in v && v[key] != [] :: v[key]
  }

  function First(v: Values, key: string): string {
    if key in v && v[key] != [] then v[key][0] else ""
  }

  /** The parameters that the token covers. */
  function OauthParams(form: Values): Values {
    map key | key in form && key in OAUTH_KEYS :: form[key]
  }

  method OauthParamsOf(form: Values) returns (out: Values)
    ensures out == OauthParams(form)
  {
    out := map[];
    for i := 0 to |OAUTH_KEYS|
      invariant out == map key | key in form && key in OAUTH_KEYS[..i] :: form[key]
    {
      var key := OAUTH_KEYS[i];
      assert OAUTH_KEYS[..i + 1] == OAUTH_KEYS[..i] + [key];
      if key in form {
        out := out[key := form[key]];
      }
    }
    assert OAUTH_KEYS[..|OAUTH_KEYS|] == OAUTH_KEYS;
  }

  /** The nine parameters are the ones that the token covers, with all their values. */
  lemma CoveredParams(form: Values)
    ensures forall key :: key in OauthParams(form) <==>
              key in form && key in {"client_id", "redirect_uri", "response_type", "scope", "state", "nonce", "code_challenge",
                                     "code_challenge_method", "login_hint"}
    ensures forall key :: key in OauthParams(form) ==> OauthParams(form)[key] == form[key]
  {
    assert OAUTH_KEYS == ["client_id", "redirect_uri", "response_type", "scope", "state", "nonce", "code_challenge",
                          "code_challenge_method", "login_hint"];
  }

  /**
   Under an ideal MAC and digest, a form that is accepted asks for what some form that was really issued asked
   for: the same client, redirect URI, challenge and other parameters, value for value.
   */
  lemma AcceptanceBindsRequest(m: Manager, issued: set<Form>, action: string, form: Values, nonce: string, token: string, now: int,
                               key: string)
    requires GoodCodec(m) && CollisionFree(m) && Unforged(m, issued, token) && Verify(m, action, OauthParams(form), nonce, token, now)
    requires key in {"client_id", "redirect_uri", "response_type", "scope", "state", "nonce", "code_challenge",
                     "code_challenge_method", "login_hint"}
    requires key in form && form[key] != []
    ensures exists f :: f in issued && f.action == action && key in f.params && f.params[key] == form[key]
  {
    hide GoodCodec, Unforged, Verify, Payload, Unix;
    AcceptanceBinds(m, issued, action, OauthParams(form), nonce, token, now);
    CoveredParams(form);
    var f :| f in issued && f.action == action && m.paramsDigest(Canonical(f.params)) == m.paramsDigest(Canonical(OauthParams(form)));
    assert key in Canonical(OauthParams(form));
    assert Canonical(f.params) == Canonical(OauthParams(form));
  }

  datatype Field = Field(name: string, value: string)

  function HiddenFields(q: Values, keys: seq<string>): seq<Field> {
    if keys == [] then []
    else
      var init, key := keys[..|keys| - 1], keys[|keys| - 1];
      if First(q, key) != "" then HiddenFields(q, init) + [Field(key, First(q, key))] else HiddenFields(q, init)
  }

  method OauthHiddenFields(q: Values) returns (fields: seq<Field>)
    ensures fields == HiddenFields(q, OAUTH_KEYS)
  {
    fields := [];
    for i := 0 to |OAUTH_KEYS|
      invariant fields == HiddenFields(q, OAUTH_KEYS[..i])
    {
      var key := OAUTH_KEYS[i];
      assert OAUTH_KEYS[..i + 1][..i] == OAUTH_KEYS[..i];
      if First(q, key) != "" {
        fields := fields + [Field(key, First(q, key))];
      }
    }
    assert OAUTH_KEYS[..|OAUTH_KEYS|] == OAUTH_KEYS;
  }

  /** What the browser posts: every field once, in order. */
  function Posted(fields: seq<Field>): Values {
    if fields == [] then map[]
    else
      var rest, f := Posted(fields[..|fields| - 1]), fields[|fields| - 1];
      rest[f.name := (if f.name in rest then rest[f.name] else []) + [f.value]]
  }

  lemma PostedOneMore(fields: seq<Field>, f: Field)
    requires f.name !in Posted(fields)
    ensures Posted(fields + [f]) == Posted(fields)[f.name := [f.value]]
  {
    assert (fields + [f])[..|fields|] == fields;
    assert [] + [f.value] == [f.value];
  }

  /** The nonempty first values of the keys, one each. */
  function Firsts(q: Values, keys: seq<string>): Values {
    map key | key in keys && First(q, key) != "" :: [First(q, key)]
  }

  lemma FirstsOneMore(q: Values, init: seq<string>, key: string)
    requires key !in init
    ensures Firsts(q, init + [key]) ==
            if First(q, key) != "" then Firsts(q, init)[key := [First(q, key)]] else Firsts(q, init)
  {
    hide First;
  }

  lemma {:induction false} PostedHidden(q: Values, keys: seq<string>)
    requires Distinct(keys)
    ensures Posted(HiddenFields(q, keys)) == Firsts(q, keys)
  {
    if keys != [] {
      var init, key := keys[..|keys| - 1], keys[|keys| - 1];
      assert keys == init + [key];
      PostedHidden(q, init);
      FirstsOneMore(q, init, key);
      if First(q, key) != "" {
        PostedOneMore(HiddenFields(q, init), Field(key, First(q, key)));
      }
      hide Posted, Firsts, First;
    }
  }

  lemma OauthKeysDistinct()
    ensures Distinct(OAUTH_KEYS)
  {
  }

  /** Every OAuth parameter that is present occurs once and is not empty. */
  ghost predicate Single(q: Values) {
    forall key :: key in OAUTH_KEYS && key in q && q[key] != [] ==> |q[key]| == 1 && q[key][0] != ""
  }

  ghost predicate CollisionFree(m: Manager) {
    forall a, b :: m.paramsDigest(a) == m.paramsDigest(b) ==> a == b
  }

  /**
   Posting the rendered hidden fields, along with other fields such as the credentials, gives the
   fingerprint of the original request exactly when each OAuth parameter present in it occurs once
   and is not empty.
   */
  lemma RepostKeepsFingerprint(m: Manager, q: Values, others: Values)
    requires CollisionFree(m)
    requires forall key :: key in others ==> key !in OAUTH_KEYS
    ensures m.paramsDigest(Canonical(OauthParams(Posted(HiddenFields(q, OAUTH_KEYS)) + others))) ==
            m.paramsDigest(Canonical(OauthParams(q)))
            <==> Single(q)
  {
    OauthKeysDistinct();
    PostedHidden(q, OAUTH_KEYS);
    hide HiddenFields, Posted;
    var posted := Posted(HiddenFields(q, OAUTH_KEYS));
    var a, b := Canonical(OauthParams(posted + others)), Canonical(OauthParams(q));
    RepostedCanonical(q, others, posted);
    hide First;
    if Single(q) {
      SingleIsSame(q, a, b);
    }
    if a == b {
      SameIsSingle(q, a, b);
    }
  }

  /** A complete authorization request that fails: its state is present and empty. */
  const EMPTY_STATE: Values := map["client_id" := ["app"], "redirect_uri" := ["https://app/"], "response_type" := ["code"],
                                   "scope" := ["openid"], "state" := [""]]

  /** Signing in to that request is refused, whatever is typed in with it. */
  lemma EmptyStateIsRefused(m: Manager, others: Values, action: string, nonce: string, now: int, later: int)
    requires GoodCodec(m) && CollisionFree(m) && Clean(action) && InRange(m, now)
    requires forall key :: key in others ==> key !in OAUTH_KEYS
    ensures var token := Issue(m, action, OauthParams(EMPTY_STATE), nonce, now);
            !Verify(m, action, OauthParams(Posted(HiddenFields(EMPTY_STATE, OAUTH_KEYS)) + others), nonce, token, later)
  {
    hide GoodCodec, CollisionFree, Clean, Verify, HiddenFields, Posted;
    assert !Single(EMPTY_STATE) by {
      assert OAUTH_KEYS[4] == "state";
      assert EMPTY_STATE["state"] == [""];
    }
    RepostKeepsFingerprint(m, EMPTY_STATE, others);
    OtherParamsAreRefused(m, action, OauthParams(EMPTY_STATE), OauthParams(Posted(HiddenFields(EMPTY_STATE, OAUTH_KEYS)) + others),
                          nonce, now, later);
  }

  /** A token is refused for parameters with another fingerprint. */
  lemma OtherParamsAreRefused(m: Manager, action: string, params: Values, posted: Values, nonce: string, now: int, later: int)
    requires GoodCodec(m) && Clean(action) && InRange(m, now)
    requires m.paramsDigest(Canonical(posted)) != m.paramsDigest(Canonical(params))
    ensures !Verify(m, action, posted, nonce, Issue(m, action, params, nonce, now), later)
  {
    hide FormatInt, ParseInt, SplitN, Unix, Payload;
    var payload := Payload(m, action, params, nonce, now);
    var sig := m.encode(m.mac(payload));
    PayloadParts(m, action, params, nonce, now);
    var token := payload + ['.'] + sig;
    assert Issue(m, action, params, nonce, now) == token;
    IndexOfJoined(payload, '.', sig);
    assert token[..|payload|] == payload;
  }

  /** A form rendered again from what was posted always matches: its fields occur once and are not empty. */
  lemma RetryMatches(m: Manager, q: Values, others: Values, again: Values)
    requires CollisionFree(m)
    requires forall key :: key in others || key in again ==> key !in OAUTH_KEYS
    ensures var form := Posted(HiddenFields(q, OAUTH_KEYS)) + others;
            m.paramsDigest(Canonical(OauthParams(Posted(HiddenFields(form, OAUTH_KEYS)) + again))) ==
            m.paramsDigest(Canonical(OauthParams(form)))
  {
    OauthKeysDistinct();
    PostedHidden(q, OAUTH_KEYS);
    hide HiddenFields, Posted, First;
    var form := Posted(HiddenFields(q, OAUTH_KEYS)) + others;
    assert Single(form);
    RepostKeepsFingerprint(m, form, again);
  }

  /** The reposted parameters: the nonempty first values. */
  lemma RepostedCanonical(q: Values, others: Values, posted: Values)
    requires posted == Firsts(q, OAUTH_KEYS)
    requires forall key :: key in others ==> key !in OAUTH_KEYS
    ensures Canonical(OauthParams(posted + others)) == Firsts(q, OAUTH_KEYS)
  {
    hide First;
  }

  lemma SingleIsSame(q: Values, a: Values, b: Values)
    requires Single(q) && b == Canonical(OauthParams(q))
    requires a == Firsts(q, OAUTH_KEYS)
    ensures a == b
  {
    forall key | key in OAUTH_KEYS
      ensures (key in a <==> key in b) && (key in a ==> a[key] == b[key])
    {
    }
    assert forall key :: key in a || key in b ==> key in OAUTH_KEYS;
  }

  lemma SameIsSingle(q: Values, a: Values, b: Values)
    requires a == b && b == Canonical(OauthParams(q))
    requires a == Firsts(q, OAUTH_KEYS)
    ensures Single(q)
  {
    forall key | key in OAUTH_KEYS && key in q && q[key] != [] ensures |q[key]| == 1 && q[key][0] != "" {
      assert key in b && b[key] == q[key];
      assert key in a && a[key] == [First(q, key)];
    }
  }
}
