/** What rotations, starts and crashes keep of the key directory, and what a start publishes. */
module KeyRingProofs {
  import opened Options
  import opened KeyRing

  /** Thumbprints tell keys apart and never look like the legacy label. */
  ghost predicate GoodThumb(thumb: Key -> string) {
    && (forall a, b :: thumb(a) == thumb(b) ==> a == b)
    && (forall a :: thumb(a) != "" && thumb(a) != LEGACY_KID)
  }

  // ----- file names -----

  function FileFor(kid: string): string {
    if kid == LEGACY_KID then LEGACY_FILE else PemName(kid)
  }

  lemma PemNameFacts(kid: string)
    ensures PemName(kid) != LEGACY_FILE && PemName(kid) != RING_FILE && PemName(kid) != ""
    ensures PemName(kid) != Temp(RING_FILE) && PemName(kid) != Temp(LEGACY_FILE)
    ensures Temp(PemName(kid)) != LEGACY_FILE && Temp(PemName(kid)) != RING_FILE
    ensures Temp(PemName(kid)) != Temp(RING_FILE) && Temp(PemName(kid)) != Temp(LEGACY_FILE)
  {
    assert PemName(kid)[0] == 'm' && PemName(kid)[10] == '-';
    assert Temp(PemName(kid))[0] == 'm' && Temp(PemName(kid))[10] == '-';
    assert Temp(LEGACY_FILE)[10] == '.' && LEGACY_FILE[10] == '.';
    assert RING_FILE[0] == 'k' && Temp(RING_FILE)[0] == 'k';
  }

  lemma PemNamesDiffer(a: string, b: string)
    ensures PemName(a) == PemName(b) ==> a == b
    ensures Temp(PemName(a)) == Temp(PemName(b)) ==> a == b
    ensures Temp(PemName(a)) != PemName(b)
  {
    var x, y := PemName(a), PemName(b);
    assert a == x[11..|x| - 4] && b == y[11..|y| - 4];
    assert x == Temp(x)[..|Temp(x)| - 4] && y == Temp(y)[..|Temp(y)| - 4];
    assert Temp(x)[|Temp(x)| - 1] == 'p' && y[|y| - 1] == 'm';
  }

  lemma FilesDiffer(a: string, b: string)
    requires FileFor(a) == FileFor(b)
    ensures a == b
  {
    PemNameFacts(a);
    PemNameFacts(b);
    PemNamesDiffer(a, b);
  }

  // ----- well-formed directories -----

  /** The key in the entry's file is the one the kid names. */
  predicate KeyFits(thumb: Key -> string, kid: string, content: Content) {
    content.Pem? && (kid == LEGACY_KID || thumb(content.key) == kid)
  }

  /** A retiring entry with a horizon, or the last and only active one. */
  predicate EntryOk(es: seq<Entry>, i: nat)
    requires i < |es|
  {
    && es[i].kid != "" && es[i].file == FileFor(es[i].kid)
    && if i == |es| - 1 then es[i].state == Active else es[i].state == Retiring && es[i].retireAt.Some?
  }

  /** The ring a rotation writes: distinct kids, exactly one active entry, and it is the last. */
  ghost predicate RingOk(es: seq<Entry>) {
    && es != []
    && (forall i :: 0 <= i < |es| ==> EntryOk(es, i))
    && (forall i, j :: 0 <= i < j < |es| ==> es[i].kid != es[j].kid)
  }

  /** Every key whose horizon has not passed is there, and every key file holds the right key. */
  ghost predicate FilesOk(thumb: Key -> string, dir: Dir, es: seq<Entry>, now: Time) {
    forall i :: 0 <= i < |es| ==>
      && (!HorizonPassed(es[i], now) ==> es[i].file in dir)
      && (es[i].file in dir ==> KeyFits(thumb, es[i].kid, dir[es[i].file]))
  }

  ghost predicate DirOk(thumb: Key -> string, dir: Dir, now: Time) {
    if RING_FILE in dir
    then dir[RING_FILE].Ring? && RingOk(dir[RING_FILE].entries) && FilesOk(thumb, dir, dir[RING_FILE].entries, now)
    else LEGACY_FILE in dir ==> dir[LEGACY_FILE].Pem?
  }

  /** A key that was never drawn has left no trace. */
  ghost predicate Untouched(thumb: Key -> string, dir: Dir, key: Key) {
    && Temp(PemName(thumb(key))) !in dir
    && (RING_FILE in dir && dir[RING_FILE].Ring? ==>
          forall i :: 0 <= i < |dir[RING_FILE].entries| ==> dir[RING_FILE].entries[i].kid != thumb(key))
  }

  // ----- what a start does -----

  /** The entries that are still published at `now`. */
  function Keep(es: seq<Entry>, now: Time): seq<Entry> {
    if es == [] then []
    else (if HorizonPassed(es[0], now) then [] else [es[0]]) + Keep(es[1..], now)
  }

  function GoneFiles(es: seq<Entry>, now: Time): set<string> {
    set i | 0 <= i < |es| && HorizonPassed(es[i], now) :: es[i].file
  }

  /** The entries' keys, in order. */
  function KeysOf(dir: Dir, es: seq<Entry>): seq<SigningKey>
    requires forall i :: 0 <= i < |es| ==> es[i].file in dir && dir[es[i].file].Pem?
  {
    seq(|es|, i requires 0 <= i < |es| => SigningKey(es[i].kid, dir[es[i].file].key))
  }

  /** No entry is malformed or repeats a kid in `seen` or another entry's. */
  ghost predicate Prunable(es: seq<Entry>, seen: set<string>) {
    && (forall i :: 0 <= i < |es| ==> es[i].kid != "" && es[i].file != "" && es[i].state != Other && es[i].kid !in seen)
    && (forall i, j :: 0 <= i < j < |es| ==> es[i].kid != es[j].kid)
  }

  lemma {:induction false} PruneKeeps(dir: Dir, es: seq<Entry>, seen: set<string>, now: Time)
    requires Prunable(es, seen)
    ensures Prune(dir, es, seen, now) == (dir - GoneFiles(es, now), Some(Keep(es, now)))
    decreases |es|
  {
    if es == [] {
      assert GoneFiles(es, now) == {};
      assert dir - {} == dir;
    } else {
      var rest := es[1..];
      assert forall i :: 0 <= i < |rest| ==> rest[i] == es[i + 1];
      GoneCons(es, now);
      if HorizonPassed(es[0], now) {
        PruneKeeps(dir - {es[0].file}, rest, seen + {es[0].kid}, now);
        assert dir - {es[0].file} - GoneFiles(rest, now) == dir - GoneFiles(es, now);
        assert Keep(es, now) == Keep(rest, now);
      } else {
        PruneKeeps(dir, rest, seen + {es[0].kid}, now);
        assert GoneFiles(es, now) == GoneFiles(rest, now);
      }
    }
  }

  lemma GoneCons(es: seq<Entry>, now: Time)
    requires es != []
    ensures GoneFiles(es, now) == (if HorizonPassed(es[0], now) then {es[0].file} else {}) + GoneFiles(es[1..], now)
  {
    var rest := es[1..];
    forall f | f in GoneFiles(es, now)
      ensures f in (if HorizonPassed(es[0], now) then {es[0].file} else {}) + GoneFiles(rest, now)
    {
      var i :| 0 <= i < |es| && HorizonPassed(es[i], now) && es[i].file == f;
      if i > 0 {
        assert rest[i - 1] == es[i];
      }
    }
    forall f | f in GoneFiles(rest, now) ensures f in GoneFiles(es, now) {
      var i :| 0 <= i < |rest| && HorizonPassed(rest[i], now) && rest[i].file == f;
      assert es[i + 1] == rest[i];
    }
  }

  /** Everything kept loads: right key in place, and no second active entry. */
  ghost predicate Loadable(thumb: Key -> string, dir: Dir, es: seq<Entry>) {
    && (forall i :: 0 <= i < |es| ==> es[i].file in dir && KeyFits(thumb, es[i].kid, dir[es[i].file]))
    && (forall i :: 0 <= i < |es| - 1 ==> es[i].state == Retiring)
  }

  lemma {:induction false} LoadsAll(thumb: Key -> string, dir: Dir, es: seq<Entry>, before: seq<SigningKey>)
    requires Loadable(thumb, dir, es) && es != [] && es[|es| - 1].state == Active
    ensures var last := es[|es| - 1];
            LoadPublished(thumb, dir, es, KeySet(None, before)) ==
            Some(KeySet(Some(SigningKey(last.kid, dir[last.file].key)), before + KeysOf(dir, es)))
    decreases |es|
  {
    var k := SigningKey(es[0].kid, dir[es[0].file].key);
    var rest := es[1..];
    assert KeysOf(dir, es) == [k] + KeysOf(dir, rest);
    assert before + [k] + KeysOf(dir, rest) == before + KeysOf(dir, es);
    if |es| > 1 {
      assert forall i :: 0 <= i < |rest| ==> rest[i] == es[i + 1];
      LoadsAll(thumb, dir, rest, before + [k]);
    } else {
      assert rest == [] && before + [k] == before + KeysOf(dir, es);
    }
  }

  lemma {:induction false} KeepMember(es: seq<Entry>, now: Time, e: Entry)
    ensures e in Keep(es, now) <==> e in es && !HorizonPassed(e, now)
    decreases |es|
  {
    hide HorizonPassed;
    if es != [] {
      assert es == [es[0]] + es[1..];
      KeepMember(es[1..], now, e);
    }
  }

  /** What is kept is exactly what has no passed horizon. */
  lemma KeepFacts(es: seq<Entry>, now: Time)
    ensures forall e :: e in Keep(es, now) <==> e in es && !HorizonPassed(e, now)
  {
    hide Keep, HorizonPassed;
    forall e ensures e in Keep(es, now) <==> e in es && !HorizonPassed(e, now) {
      KeepMember(es, now, e);
    }
  }

  lemma {:induction false} KeepLast(es: seq<Entry>, now: Time)
    requires es != [] && !HorizonPassed(es[|es| - 1], now)
    ensures Keep(es, now) != [] && Keep(es, now)[|Keep(es, now)| - 1] == es[|es| - 1]
    decreases |es|
  {
    hide HorizonPassed;
    if |es| > 1 {
      KeepLast(es[1..], now);
    }
  }

  lemma {:induction false} KeepRetiring(es: seq<Entry>, now: Time)
    requires forall i :: 0 <= i < |es| - 1 ==> es[i].state == Retiring
    ensures forall i :: 0 <= i < |Keep(es, now)| - 1 ==> Keep(es, now)[i].state == Retiring
    decreases |es|
  {
    if |es| > 1 {
      var rest := es[1..];
      assert forall i :: 0 <= i < |rest| ==> rest[i] == es[i + 1];
      assert es[0].state == Retiring;
      KeepRetiring(rest, now);
    }
  }

  /** The key set a start loads from a directory with a ring. */
  ghost function Published(dir: Dir, es: seq<Entry>, now: Time): KeySet
    requires es != [] && es[|es| - 1].file in dir && dir[es[|es| - 1].file].Pem?
    requires forall i :: 0 <= i < |Keep(es, now)| ==> Keep(es, now)[i].file in dir && dir[Keep(es, now)[i].file].Pem?
  {
    KeySet(Some(SigningKey(es[|es| - 1].kid, dir[es[|es| - 1].file].key)), KeysOf(dir, Keep(es, now)))
  }

  lemma RingFiles(es: seq<Entry>, i: nat, j: nat)
    requires RingOk(es) && i < |es| && j < |es|
    ensures es[i].file == es[j].file ==> i == j
    ensures es[i].file != "" && es[i].file != RING_FILE && es[i].file != Temp(RING_FILE)
  {
    assert EntryOk(es, i) && EntryOk(es, j);
    PemNameFacts(es[i].kid);
    if es[i].file == es[j].file {
      FilesDiffer(es[i].kid, es[j].kid);
    }
  }

  /** Pruning removes no file of an entry that stays. */
  lemma KeptFilesStay(es: seq<Entry>, now: Time, i: nat)
    requires RingOk(es) && i < |es| && !HorizonPassed(es[i], now)
    ensures es[i].file !in GoneFiles(es, now) && RING_FILE !in GoneFiles(es, now)
  {
    forall j | 0 <= j < |es| && HorizonPassed(es[j], now) ensures es[j].file != es[i].file && es[j].file != RING_FILE {
      RingFiles(es, i, j);
      RingFiles(es, j, i);
    }
  }

  lemma RingPrunable(es: seq<Entry>)
    requires RingOk(es)
    ensures Prunable(es, {})
  {
    forall i | 0 <= i < |es| ensures es[i].kid != "" && es[i].file != "" && es[i].state != Other {
      assert EntryOk(es, i);
      RingFiles(es, i, i);
    }
  }

  lemma LastActive(es: seq<Entry>, now: Time)
    requires RingOk(es)
    ensures es[|es| - 1].state == Active && !HorizonPassed(es[|es| - 1], now)
    ensures forall i :: 0 <= i < |es| - 1 ==> es[i].state == Retiring
  {
    assert EntryOk(es, |es| - 1);
    forall i | 0 <= i < |es| - 1 ensures es[i].state == Retiring {
      assert EntryOk(es, i);
    }
  }

  /** What is kept can be loaded, before and after the pruned files are gone. */
  lemma KeptLoads(thumb: Key -> string, dir: Dir, es: seq<Entry>, now: Time)
    requires RingOk(es) && FilesOk(thumb, dir, es, now)
    ensures var kept, dir1 := Keep(es, now), dir - GoneFiles(es, now);
            && kept != [] && kept[|kept| - 1] == es[|es| - 1]
            && Loadable(thumb, dir, kept) && Loadable(thumb, dir1, kept) && KeysOf(dir1, kept) == KeysOf(dir, kept)
  {
    KeepFacts(es, now);
    LastActive(es, now);
    KeepLast(es, now);
    KeepRetiring(es, now);
    var kept, dir1 := Keep(es, now), dir - GoneFiles(es, now);
    forall i | 0 <= i < |kept|
      ensures kept[i].file in dir && kept[i].file in dir1 && KeyFits(thumb, kept[i].kid, dir[kept[i].file])
    {
      assert kept[i] in kept;
      var j :| 0 <= j < |es| && es[j] == kept[i];
      KeptFilesStay(es, now, j);
    }
    hide FilesOk, RingOk;
  }

  /**
   A start on a directory with a ring loads the active key and publishes exactly the keys whose
   horizon has not passed, in ring order, whatever was pruned by earlier starts.
   */
  lemma StartPublishes(thumb: Key -> string, dir: Dir, now: Time, made: Key)
    requires DirOk(thumb, dir, now) && RING_FILE in dir
    ensures var es := dir[RING_FILE].entries;
            && Loadable(thumb, dir, Keep(es, now)) && es != [] && es[|es| - 1] in Keep(es, now)
            && StartFrom(thumb, dir, now, made) == (dir - GoneFiles(es, now), Some(Published(dir, es, now)))
  {
    hide RingOk, FilesOk, Prunable, Loadable, KeysOf, Prune, LoadPublished;
    var es := dir[RING_FILE].entries;
    RingPrunable(es);
    PruneKeeps(dir, es, {}, now);
    KeptLoads(thumb, dir, es, now);
    LastActive(es, now);
    KeptPems(thumb, dir, Keep(es, now));
    KeptPems(thumb, dir - GoneFiles(es, now), Keep(es, now));
    LoadsAll(thumb, dir - GoneFiles(es, now), Keep(es, now), []);
    assert [] + KeysOf(dir, Keep(es, now)) == KeysOf(dir, Keep(es, now));
  }

  lemma KeptPems(thumb: Key -> string, dir: Dir, kept: seq<Entry>)
    requires Loadable(thumb, dir, kept)
    ensures forall i :: 0 <= i < |kept| ==> kept[i].file in dir && dir[kept[i].file].Pem?
  {
  }

  // ----- what a rotation does -----

  /** The new ring: everything retired, and the new key active at the end. */
  function NewRing(es: seq<Entry>, at: Time, kid: string): seq<Entry> {
    RetireAll(es, at) + [Entry(kid, PemName(kid), Active, None)]
  }

  /** The ring a rotation builds on: none yet, the legacy key alone, or the one it wrote before. */
  ghost predicate BaseOk(es: seq<Entry>) {
    es == [] || RingOk(es)
  }

  lemma BaseBefore(thumb: Key -> string, dir: Dir, now: Time)
    requires DirOk(thumb, dir, now)
    ensures RingBefore(dir).Some? && BaseOk(RingBefore(dir).value)
    ensures FilesOk(thumb, dir, RingBefore(dir).value, now)
  {
    if RING_FILE !in dir && LEGACY_FILE in dir {
      assert EntryOk(RingBefore(dir).value, 0);
    }
  }

  lemma NewRingOk(es: seq<Entry>, at: Time, kid: string)
    requires BaseOk(es) && kid != "" && kid != LEGACY_KID
    requires forall i :: 0 <= i < |es| ==> es[i].kid != kid
    ensures RingOk(NewRing(es, at, kid))
  {
    var r := NewRing(es, at, kid);
    forall i | 0 <= i < |r| ensures EntryOk(r, i) {
      if i < |es| {
        assert EntryOk(es, i);
        assert r[i] == Retire(es[i], at);
      }
    }
  }

  /** The six file operations, spelled out. */
  function Ops(es: seq<Entry>, at: Time, kid: string, key: Key): seq<FsOp> {
    var name := PemName(kid);
    [Create(Temp(name)), Write(Temp(name), Pem(key)), Rename(Temp(name), name),
     Create(Temp(RING_FILE)), Write(Temp(RING_FILE), Ring(NewRing(es, at, kid))), Rename(Temp(RING_FILE), RING_FILE)]
  }

  lemma RotationRuns(thumb: Key -> string, dir: Dir, now: Time, retention: Time, key: Key)
    requires GoodThumb(thumb) && DirOk(thumb, dir, now) && Untouched(thumb, dir, key)
    ensures RotationOps(thumb, dir, now, retention, key) ==
            Some(Ops(RingBefore(dir).value, now + retention, thumb(key), key))
    ensures forall i :: 0 <= i < |RingBefore(dir).value| ==> RingBefore(dir).value[i].kid != thumb(key)
  {
    BaseBefore(thumb, dir, now);
    var es := RingBefore(dir).value;
    forall i | 0 <= i < |es| ensures es[i].state != Other && es[i].kid != thumb(key) {
      assert RingOk(es) && EntryOk(es, i);
    }
    hide DirOk, RingOk, FilesOk;
    var kid, at := thumb(key), now + retention;
    assert SaveOps(PemName(kid), Pem(key)) + SaveOps(RING_FILE, Ring(NewRing(es, at, kid))) == Ops(es, at, kid, key);
  }

  lemma {:induction false} OpsInTwo(dir: Dir, first: seq<FsOp>, second: seq<FsOp>)
    ensures ApplyOps(dir, first + second) == ApplyOps(ApplyOps(dir, first), second)
    decreases |first|
  {
    hide ApplyOp;
    if first == [] {
      assert first + second == second;
    } else {
      assert (first + second)[1..] == first[1..] + second;
      OpsInTwo(ApplyOp(dir, first[0]), first[1..], second);
    }
  }
}
