/** The string operations the provider relies on, over sequences of characters. */
module Text {

  /** White space as the standard splitting and trimming functions see it (Unicode White_Space). */
  predicate IsSpace(c: char) {
    || c in {'\t', '\n', '\r', ' '}
    || c as int in {0x0B, 0x0C, 0x85, 0xA0, 0x1680, 0x2028, 0x2029, 0x202F, 0x205F, 0x3000}
    || 0x2000 <= c as int <= 0x200A
  }

  predicate SpaceFree(s: string) {
    forall i :: 0 <= i < |s| ==> !IsSpace(s[i])
  }

  /** A nonempty string without white space. */
  predicate IsWord(s: string) {
    s != "" && SpaceFree(s)
  }

  predicate AllWords(ws: seq<string>) {
    forall i :: 0 <= i < |ws| ==> IsWord(ws[i])
  }

  function TrimLeft(s: string): string {
    if s != "" && IsSpace(s[0]) then TrimLeft(s[1..]) else s
  }

  function TrimRight(s: string): string {
    if s != "" && IsSpace(s[|s| - 1]) then TrimRight(s[..|s| - 1]) else s
  }

  function TrimSpace(s: string): string {
    TrimRight(TrimLeft(s))
  }

  /** The check against the four ASCII blanks. */
  predicate HasBlank(s: string) {
    exists i :: 0 <= i < |s| && s[i] in {' ', '\t', '\r', '\n'}
  }

  function TrimPrefix(s: string, prefix: string): string {
    if prefix <= s then s[|prefix|..] else s
  }

  /** The position of the first `c`, or the length when there is none. */
  function Index(s: string, c: char): (i: nat)
    ensures i <= |s|
    ensures c !in s[..i]
    ensures i < |s| ==> s[i] == c
    ensures i == |s| <==> c !in s
  {
    if s == "" then 0 else if s[0] == c then 0 else 1 + Index(s[1..], c)
  }

  /** Cutting at the first separator finds it again: the part before is separator-free. */
  lemma IndexOfJoined(before: string, c: char, after: string)
    requires c !in before
    ensures Index(before + [c] + after, c) == |before|
  {
    var s := before + [c] + after;
    var i := Index(s, c);
    assert s[|before|] == c;
    assert forall j :: 0 <= j < |before| ==> s[j] == before[j];
    forall j | 0 <= j < i ensures s[j] != c {
      assert s[..i][j] == s[j];
    }
  }

  // ----- words and lines of words -----

  /** The length of the leading run of characters that are not white space. */
  function WordLength(s: string): (n: nat)
    ensures n <= |s|
    ensures SpaceFree(s[..n])
    ensures n < |s| ==> IsSpace(s[n])
  {
    if s == "" || IsSpace(s[0]) then 0 else 1 + WordLength(s[1..])
  }

  /** The maximal white-space-free pieces of `s`, in order. */
  function Fields(s: string): (ws: seq<string>)
    ensures AllWords(ws)
    decreases |s|
  {
    if s == "" then []
    else if IsSpace(s[0]) then Fields(s[1..])
    else
      var n := WordLength(s);
      [s[..n]] + Fields(s[n..])
  }

  /** The pieces separated by single blanks. */
  function Join(ws: seq<string>): string {
    if |ws| == 0 then ""
    else if |ws| == 1 then ws[0]
    else ws[0] + " " + Join(ws[1..])
  }

  lemma {:induction false} WordLengthAt(w: string, rest: string)
    requires SpaceFree(w)
    requires rest == "" || IsSpace(rest[0])
    ensures WordLength(w + rest) == |w|
  {
    if w == "" {
      assert w + rest == rest;
    } else {
      WordLengthAt(w[1..], rest);
      assert (w + rest)[1..] == w[1..] + rest;
      assert !IsSpace((w + rest)[0]);
    }
  }

  lemma {:induction false} FieldsOfJoin(ws: seq<string>)
    requires AllWords(ws)
    ensures Fields(Join(ws)) == ws
  {
    if |ws| == 0 {
    } else if |ws| == 1 {
      assert ws[0] + "" == ws[0];
      WordLengthAt(ws[0], "");
      assert !IsSpace(ws[0][0]);
      assert ws[0][|ws[0]|..] == "";
    } else {
      var w, tail := ws[0], Join(ws[1..]);
      var rest := " " + tail;
      assert Join(ws) == w + rest;
      WordLengthAt(w, rest);
      assert (w + rest)[..|w|] == w && (w + rest)[|w|..] == rest;
      assert !IsSpace((w + rest)[0]);
      assert rest[1..] == tail;
      FieldsOfJoin(ws[1..]);
    }
  }

  // ----- what splitting and trimming mean -----

  predicate AllSpace(s: string) {
    forall i :: 0 <= i < |s| ==> IsSpace(s[i])
  }

  /** `s` is the words in order, with white space around them and between any two. */
  ghost predicate LaidOut(s: string, ws: seq<string>)
    decreases |ws|
  {
    if ws == [] then AllSpace(s)
    else exists p: nat, q: nat :: Begins(s, ws[0], p, q) && LaidOut(s[q..], ws[1..])
  }

  /** After white space up to `p` comes the word, up to `q`, and then the end or more white space. */
  ghost predicate Begins(s: string, w: string, p: nat, q: nat) {
    p <= q <= |s| && AllSpace(s[..p]) && s[p..q] == w && (q == |s| || IsSpace(s[q]))
  }

  lemma {:induction false} FieldsAreLaidOut(s: string)
    ensures LaidOut(s, Fields(s))
    decreases |s|
  {
    if s != "" {
      if IsSpace(s[0]) {
        FieldsAreLaidOut(s[1..]);
        SpaceBefore(s, Fields(s));
      } else {
        var n := WordLength(s);
        FieldsAreLaidOut(s[n..]);
        var ws := [s[..n]] + Fields(s[n..]);
        assert Begins(s, ws[0], 0, n) && ws[1..] == Fields(s[n..]);
      }
    }
  }

  lemma SpaceBefore(s: string, ws: seq<string>)
    requires s != "" && IsSpace(s[0]) && LaidOut(s[1..], ws)
    ensures LaidOut(s, ws)
  {
    var t := s[1..];
    if ws == [] {
      assert forall i :: 0 < i < |s| ==> s[i] == t[i - 1];
    } else {
      var p: nat, q: nat :| Begins(t, ws[0], p, q) && LaidOut(t[q..], ws[1..]);
      BeginsLater(s, ws[0], p, q);
      assert s[q + 1..] == t[q..];
    }
  }

  lemma BeginsLater(s: string, w: string, p: nat, q: nat)
    requires s != "" && IsSpace(s[0]) && Begins(s[1..], w, p, q)
    ensures Begins(s, w, p + 1, q + 1)
  {
    var t := s[1..];
    assert s[p + 1..q + 1] == t[p..q];
    hide IsSpace;
    assert s[..p + 1] == [s[0]] + t[..p];
  }

  lemma {:induction false} SkipSpace(s: string, p: nat)
    requires p <= |s| && AllSpace(s[..p])
    ensures Fields(s) == Fields(s[p..])
    decreases p
  {
    if p > 0 {
      assert IsSpace(s[..p][0]);
      assert s[1..][..p - 1] == s[..p][1..] && s[1..][p - 1..] == s[p..];
      SkipSpace(s[1..], p - 1);
    }
  }

  lemma FirstWord(s: string, q: nat)
    requires 0 < q <= |s| && SpaceFree(s[..q]) && (q == |s| || IsSpace(s[q]))
    ensures Fields(s) == [s[..q]] + Fields(s[q..])
  {
    assert s == s[..q] + s[q..];
    WordLengthAt(s[..q], s[q..]);
    assert !IsSpace(s[..q][0]);
  }

  /** Splitting gives the words that the text is laid out from, and there is only one way to lay it out. */
  lemma FieldsIff(s: string, ws: seq<string>)
    ensures ws == Fields(s) <==> AllWords(ws) && LaidOut(s, ws)
    decreases |ws|
  {
    FieldsAreLaidOut(s);
    if AllWords(ws) && LaidOut(s, ws) {
      LaidOutIsFields(s, ws);
    }
  }

  lemma {:induction false} LaidOutIsFields(s: string, ws: seq<string>)
    requires AllWords(ws) && LaidOut(s, ws)
    ensures Fields(s) == ws
    decreases |ws|
  {
    hide IsSpace, Fields;
    if ws == [] {
      SkipSpace(s, |s|);
      assert s[..|s|] == s && s[|s|..] == "";
      NoFields();
    } else {
      var p: nat, q: nat :| Begins(s, ws[0], p, q) && LaidOut(s[q..], ws[1..]);
      SkipSpace(s, p);
      NextWord(s, ws[0], p, q);
      assert forall i :: 0 <= i < |ws| - 1 ==> ws[1..][i] == ws[i + 1];
      LaidOutIsFields(s[q..], ws[1..]);
    }
  }

  lemma NoFields()
    ensures Fields("") == []
  {
  }

  lemma NextWord(s: string, w: string, p: nat, q: nat)
    requires Begins(s, w, p, q) && IsWord(w)
    ensures Fields(s[p..]) == [w] + Fields(s[q..])
  {
    hide IsSpace, Fields;
    var t := s[p..];
    assert t[..q - p] == w && t[q - p..] == s[q..];
    FirstWord(t, q - p);
  }

  /** Trimming takes white space off both ends, and all of it. */
  lemma TrimIsExact(s: string)
    ensures var t := TrimSpace(s);
            && (exists p, q :: 0 <= p <= q <= |s| && AllSpace(s[..p]) && s[p..q] == t && AllSpace(s[q..]))
            && (t != "" ==> !IsSpace(t[0]) && !IsSpace(t[|t| - 1]))
  {
    var p := TrimmedLeft(s);
    var u := TrimLeft(s);
    var n := TrimmedRight(u);
    assert AllSpace(s[p + n..]) by {
      assert s[p + n..] == u[n..];
    }
    assert s[p..p + n] == u[..n];
  }

  lemma {:induction false} TrimmedLeft(s: string) returns (p: nat)
    ensures p <= |s| && AllSpace(s[..p]) && TrimLeft(s) == s[p..] && (p < |s| ==> !IsSpace(s[p]))
  {
    if s != "" && IsSpace(s[0]) {
      var m := TrimmedLeft(s[1..]);
      p := m + 1;
      assert s[1..][m..] == s[p..];
      assert forall i :: 0 < i < p ==> s[i] == s[1..][..m][i - 1];
    } else {
      p := 0;
    }
  }

  lemma {:induction false} TrimmedRight(s: string) returns (n: nat)
    ensures n <= |s| && AllSpace(s[n..]) && TrimRight(s) == s[..n] && (n > 0 ==> !IsSpace(s[n - 1]))
  {
    if s != "" && IsSpace(s[|s| - 1]) {
      var init := s[..|s| - 1];
      n := TrimmedRight(init);
      assert init[..n] == s[..n];
      forall i | n <= i < |s| ensures IsSpace(s[i]) {
        if i < |s| - 1 {
          assert init[n..][i - n] == s[i];
        }
      }
    } else {
      n := |s|;
    }
  }
}
