/**
 Scope strings: how a request's scope parameter becomes a list, how a list becomes the scope
 claim of a token, and why reading the claim back gives the granted set.
 */
module Scopes {
  import opened Text

  const OPENID := "openid"

  /** The order-preserving de-duplication of `ss`: every value at its first occurrence. */
  function Dedup(ss: seq<string>): (r: seq<string>)
    ensures forall x :: x in r <==> x in ss
  {
    if ss == [] then []
    else
      var init, last := ss[..|ss| - 1], ss[|ss| - 1];
      assert ss == init + [last];
      if last in init then Dedup(init) else Dedup(init) + [last]
  }

  predicate Distinct(ss: seq<string>) {
    forall i, j :: 0 <= i < j < |ss| ==> ss[i] != ss[j]
  }

  predicate FirstAt(ss: seq<string>, p: nat, x: string) {
    p < |ss| && ss[p] == x && x !in ss[..p]
  }

  lemma FirstAtExtends(ss: seq<string>, p: nat, x: string)
    requires ss != [] && FirstAt(ss[..|ss| - 1], p, x)
    ensures FirstAt(ss, p, x)
  {
    assert ss[..p] == ss[..|ss| - 1][..p];
  }

  /** `Dedup` lists values in the order in which they first occur. */
  lemma {:induction false} DedupPositions(ss: seq<string>) returns (at: seq<nat>)
    ensures |at| == |Dedup(ss)|
    ensures forall k :: 0 <= k < |at| ==> at[k] < |ss| && FirstAt(ss, at[k], Dedup(ss)[k])
    ensures forall j, k :: 0 <= j < k < |at| ==> at[j] < at[k]
  {
    hide FirstAt;
    if ss == [] {
      at := [];
    } else {
      var init, last := ss[..|ss| - 1], ss[|ss| - 1];
      var before := DedupPositions(init);
      at := before;
      forall k | 0 <= k < |before| ensures FirstAt(ss, before[k], Dedup(init)[k]) {
        FirstAtExtends(ss, before[k], Dedup(init)[k]);
      }
      if last !in init {
        LastIsFirst(ss);
        at := before + [|init|];
      }
    }
  }

  lemma LastIsFirst(ss: seq<string>)
    requires ss != [] && ss[|ss| - 1] !in ss[..|ss| - 1]
    ensures FirstAt(ss, |ss| - 1, ss[|ss| - 1])
  {
  }

  /** `Dedup` repeats nothing, and orders values by where they first occur. */
  lemma DedupOrdersByFirstOccurrence(ss: seq<string>) returns (at: seq<nat>)
    ensures Distinct(Dedup(ss))
    ensures |at| == |Dedup(ss)|
    ensures forall k :: 0 <= k < |at| ==> at[k] < |ss| && FirstAt(ss, at[k], Dedup(ss)[k])
    ensures forall j, k :: 0 <= j < k < |at| ==> at[j] < at[k]
  {
    hide Dedup;
    at := DedupPositions(ss);
    forall j, k | 0 <= j < k < |at| ensures Dedup(ss)[j] != Dedup(ss)[k] {
      assert FirstAt(ss, at[j], Dedup(ss)[j]) && FirstAt(ss, at[k], Dedup(ss)[k]);
      assert ss[at[j]] == ss[..at[k]][at[j]];
    }
  }

  /** Splits a scope parameter; nothing at all means the openid scope. */
  function ParseScopes(raw: string): (r: seq<string>)
    ensures r != [] && AllWords(r)
  {
    if Fields(raw) == [] then [OPENID] else Fields(raw)
  }

  /** The scopes are the words of the parameter, or openid alone when it has none. */
  lemma ParseScopesIff(raw: string, scopes: seq<string>)
    ensures scopes == ParseScopes(raw) <==>
            if AllSpace(raw) then scopes == ["openid"] else AllWords(scopes) && LaidOut(raw, scopes)
  {
    FieldsIff(raw, scopes);
    FieldsIff(raw, []);
  }

  method Parse(raw: string) returns (out: seq<string>)
    ensures out == ParseScopes(raw)
  {
    if raw == "" {
      return [OPENID];
    }
    var parts := Fields(raw);
    out := [];
    for i := 0 to |parts|
      invariant out == parts[..i]
    {
      if parts[i] != "" {
        out := out + [parts[i]];
      }
    }
    if |out| == 0 {
      return [OPENID];
    }
  }

  function NonEmpty(ss: seq<string>): seq<string> {
    if ss == [] then []
    else
      var init, last := ss[..|ss| - 1], ss[|ss| - 1];
      if last == "" then NonEmpty(init) else NonEmpty(init) + [last]
  }

  /** The scope claim: the distinct nonempty scopes, separated by blanks. */
  function JoinScopes(ss: seq<string>): string {
    Join(Dedup(NonEmpty(ss)))
  }

  method JoinLoop(scopes: seq<string>) returns (claim: string)
    ensures claim == JoinScopes(scopes)
  {
    var seen: map<string, bool> := map[];
    var ordered: seq<string> := [];
    for i := 0 to |scopes|
      invariant ordered == Dedup(NonEmpty(scopes[..i]))
      invariant forall x :: x in seen <==> x in ordered
    {
      var sc := scopes[i];
      assert scopes[..i + 1][..i] == scopes[..i];
      var kept := NonEmpty(scopes[..i]);
      assert sc != "" ==> NonEmpty(scopes[..i + 1]) == kept + [sc] && (kept + [sc])[..|kept|] == kept;
      if sc == "" || sc in seen {
        continue;
      }
      seen := seen[sc := true];
      ordered := ordered + [sc];
    }
    assert scopes[..|scopes|] == scopes;
    claim := Join(ordered);
  }

  lemma {:induction false} NonEmptyOfWords(ss: seq<string>)
    requires AllWords(ss)
    ensures NonEmpty(ss) == ss
  {
    if ss != [] {
      NonEmptyOfWords(ss[..|ss| - 1]);
    }
  }

  /**
   Reading back the claim made from a list of words gives the list without repetitions, so
   whoever reads the token sees the granted scopes, all of them and no others.
   */
  lemma RoundTripOfWords(granted: seq<string>)
    requires granted != [] && AllWords(granted)
    ensures ParseScopes(JoinScopes(granted)) == Dedup(granted)
    ensures forall x :: x in ParseScopes(JoinScopes(granted)) <==> x in granted
  {
    NonEmptyOfWords(granted);
    var d := Dedup(granted);
    assert granted[0] in d;
    forall i | 0 <= i < |d| ensures IsWord(d[i]) {
      assert d[i] in granted;
    }
    FieldsOfJoin(d);
  }

  /** The scope parameter of any request survives the trip through the token's scope claim. */
  lemma ScopeRoundTrip(raw: string)
    ensures ParseScopes(JoinScopes(ParseScopes(raw))) == Dedup(ParseScopes(raw))
    ensures forall x :: x in ParseScopes(JoinScopes(ParseScopes(raw))) <==> x in ParseScopes(raw)
  {
    RoundTripOfWords(ParseScopes(raw));
  }
}
