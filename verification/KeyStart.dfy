/** What a start does, entry by entry: what it removes, what it publishes, and which rings it refuses. */
module KeyStart {
  import opened Options
  import opened KeyRing
  import opened KeyRingProofs

  // ----- pruning -----

  /** A ring is refused for an incomplete entry, an unknown state or a repeated kid, and for nothing else. */
  lemma {:induction false} PruneRefuses(dir: Dir, es: seq<Entry>, seen: set<string>, now: Time)
    ensures Prune(dir, es, seen, now).1.Some? ==> Prunable(es, seen)
    decreases |es|
  {
    if es != [] && Prune(dir, es, seen, now).1.Some? {
      var rest := es[1..];
      PruneRefuses(dir, rest, seen + {es[0].kid}, now);
      PruneRefuses(dir - {es[0].file}, rest, seen + {es[0].kid}, now);
      assert forall i :: 0 < i < |es| ==> es[i] == rest[i - 1];
    }
  }

  /**
   Pruning drops exactly the retiring entries whose horizon has passed, with their files, and keeps every
   other entry and file.
   */
  lemma PruneIsExact(dir: Dir, es: seq<Entry>, now: Time)
    ensures var (dir1, kept) := Prune(dir, es, {}, now);
            && (kept.Some? <==>
                  && (forall i :: 0 <= i < |es| ==> es[i].kid != "" && es[i].file != "" && es[i].state in {Active, Retiring})
                  && (forall i, j :: 0 <= i < j < |es| ==> es[i].kid != es[j].kid))
            && (kept.Some? ==>
                  && (forall e :: e in kept.value <==>
                        e in es && !(e.state == Retiring && e.retireAt.Some? && e.retireAt.value < now))
                  && (forall name :: name in dir1 <==>
                        name in dir && !(exists i :: 0 <= i < |es| && es[i].file == name && es[i].state == Retiring &&
                                                     es[i].retireAt.Some? && es[i].retireAt.value < now))
                  && (forall name :: name in dir1 ==> dir1[name] == dir[name]))
  {
    PruneRefuses(dir, es, {}, now);
    if Prunable(es, {}) {
      PruneKeeps(dir, es, {}, now);
      KeepFacts(es, now);
      hide Prune, Keep;
    }
  }

  // ----- loading -----

  /** The key of the entry is there, and it is the one that the kid names. */
  predicate Loads(thumb: Key -> string, dir: Dir, e: Entry) {
    e.file in dir && dir[e.file].Pem? && (e.kid == LEGACY_KID || thumb(dir[e.file].key) == e.kid)
  }

  /** A lost retiring key is dropped; any other key has to be there and fit. */
  predicate LoadsOrLost(thumb: Key -> string, dir: Dir, e: Entry) {
    Loads(thumb, dir, e) || (e.state == Retiring && !(e.file in dir && dir[e.file].Pem?))
  }

  predicate OnlyActive(es: seq<Entry>, i: nat) {
    i < |es| && es[i].state == Active && forall j :: 0 <= j < |es| && j != i ==> es[j].state != Active
  }

  predicate OneActive(es: seq<Entry>) {
    exists i: nat :: i < |es| && OnlyActive(es, i)
  }

  predicate NoActive(es: seq<Entry>) {
    forall i :: 0 <= i < |es| ==> es[i].state != Active
  }

  lemma NoActiveCons(es: seq<Entry>)
    requires es != []
    ensures NoActive(es) <==> es[0].state != Active && NoActive(es[1..])
  {
    var rest := es[1..];
    assert forall i :: 0 <= i < |rest| ==> rest[i] == es[i + 1];
    if es[0].state != Active && NoActive(rest) {
      forall i | 0 <= i < |es| ensures es[i].state != Active {
        assert i > 0 ==> es[i] == rest[i - 1];
      }
    }
  }

  lemma OnlyActiveFirst(es: seq<Entry>)
    requires es != []
    ensures OnlyActive(es, 0) <==> es[0].state == Active && NoActive(es[1..])
  {
    var rest := es[1..];
    assert forall i :: 0 <= i < |rest| ==> rest[i] == es[i + 1];
    if es[0].state == Active && NoActive(rest) {
      forall j | 0 <= j < |es| && j != 0 ensures es[j].state != Active {
        assert es[j] == rest[j - 1];
      }
    }
  }

  lemma OnlyActiveLater(es: seq<Entry>, i: nat)
    requires es != []
    ensures OnlyActive(es, i + 1) <==> es[0].state != Active && OnlyActive(es[1..], i)
  {
    var rest := es[1..];
    assert forall k :: 0 <= k < |rest| ==> rest[k] == es[k + 1];
    if es[0].state != Active && OnlyActive(rest, i) {
      forall j | 0 <= j < |es| && j != i + 1 ensures es[j].state != Active {
        assert j > 0 ==> es[j] == rest[j - 1];
      }
    }
  }

  lemma ActiveCons(es: seq<Entry>)
    requires es != []
    ensures NoActive(es) <==> es[0].state != Active && NoActive(es[1..])
    ensures OneActive(es) <==> if es[0].state == Active then NoActive(es[1..]) else OneActive(es[1..])
  {
    NoActiveCons(es);
    OnlyActiveFirst(es);
    hide NoActive;
    if OneActive(es) {
      var i: nat :| i < |es| && OnlyActive(es, i);
      if i > 0 {
        OnlyActiveLater(es, i - 1);
        assert OnlyActive(es[1..], i - 1);
      }
    }
    if es[0].state != Active && OneActive(es[1..]) {
      var i: nat :| i < |es[1..]| && OnlyActive(es[1..], i);
      OnlyActiveLater(es, i);
      assert OnlyActive(es, i + 1);
    }
    if es[0].state == Active && NoActive(es[1..]) {
      assert OnlyActive(es, 0);
    }
  }

  lemma NothingActive()
    ensures !OneActive([]) && NoActive([])
  {
  }

  ghost predicate AllLoad(thumb: Key -> string, dir: Dir, es: seq<Entry>) {
    forall i :: 0 <= i < |es| ==> LoadsOrLost(thumb, dir, es[i])
  }

  lemma AllCons(thumb: Key -> string, dir: Dir, es: seq<Entry>)
    requires es != []
    ensures AllLoad(thumb, dir, es) <==> LoadsOrLost(thumb, dir, es[0]) && AllLoad(thumb, dir, es[1..])
  {
    hide LoadsOrLost;
    var rest := es[1..];
    assert forall i :: 0 <= i < |rest| ==> rest[i] == es[i + 1];
    if LoadsOrLost(thumb, dir, es[0]) && AllLoad(thumb, dir, rest) {
      forall i | 0 <= i < |es| ensures LoadsOrLost(thumb, dir, es[i]) {
        if i > 0 {
          assert LoadsOrLost(thumb, dir, rest[i - 1]);
        }
      }
    }
  }

  lemma FirstLoads(thumb: Key -> string, dir: Dir, e: Entry)
    ensures LoadsOrLost(thumb, dir, e) <==>
            match LoadKey(dir, e.file)
            case None => e.state == Retiring
            case Some(key) => e.kid == LEGACY_KID || thumb(key) == e.kid
  {
  }

  predicate KnownState(e: Entry) {
    e.state in {Active, Retiring}
  }

  /** Loading goes through, with an active key, exactly when every key loads or is lost and one entry is active. */
  lemma {:induction false} LoadedIff(thumb: Key -> string, dir: Dir, es: seq<Entry>, ks: KeySet)
    requires forall i :: 0 <= i < |es| ==> KnownState(es[i])
    ensures var r := LoadPublished(thumb, dir, es, ks);
            (r.Some? && r.value.active.Some?) <==> AllLoad(thumb, dir, es) && if ks.active.Some? then NoActive(es) else OneActive(es)
    decreases |es|
  {
    NothingActive();
    hide NoActive, OneActive, LoadsOrLost, LoadKey;
    if es != [] {
      var e, rest, key := es[0], es[1..], LoadKey(dir, es[0].file);
      ActiveCons(es);
      AllCons(thumb, dir, es);
      FirstLoads(thumb, dir, e);
      hide AllLoad;
      assert KnownState(e);
      forall i | 0 <= i < |rest| ensures KnownState(rest[i]) {
        assert KnownState(es[i + 1]);
      }
      if key.None? {
        LoadedIff(thumb, dir, rest, ks);
      } else {
        var k := SigningKey(e.kid, key.value);
        LoadedIff(thumb, dir, rest, KeySet(if e.state == Active then Some(k) else ks.active, ks.published + [k]));
      }
    }
  }

  lemma {:induction false} KeptActive(es: seq<Entry>, now: Time)
    ensures OneActive(Keep(es, now)) <==> OneActive(es)
    ensures NoActive(Keep(es, now)) <==> NoActive(es)
    decreases |es|
  {
    hide OneActive, NoActive;
    if es != [] {
      var kept := Keep(es, now);
      KeptActive(es[1..], now);
      ActiveCons(es);
      if !HorizonPassed(es[0], now) {
        assert kept == [es[0]] + Keep(es[1..], now) && kept[1..] == Keep(es[1..], now);
        ActiveCons(kept);
      } else {
        assert kept == Keep(es[1..], now);
      }
    }
  }

  /** The directory without the files of the entries that are past their horizon. */
  function Pruned(dir: Dir, es: seq<Entry>, now: Time): Dir {
    dir - set i | 0 <= i < |es| && es[i].state == Retiring && es[i].retireAt.Some? && es[i].retireAt.value < now :: es[i].file
  }

  lemma PrunedIs(dir: Dir, es: seq<Entry>, now: Time)
    ensures Pruned(dir, es, now) == dir - GoneFiles(es, now)
  {
    assert GoneFiles(es, now) ==
           set i | 0 <= i < |es| && es[i].state == Retiring && es[i].retireAt.Some? && es[i].retireAt.value < now :: es[i].file;
  }

  /** What is left to load after pruning decides whether the start succeeds. */
  lemma StartIs(thumb: Key -> string, dir: Dir, now: Time, made: Key)
    requires RING_FILE in dir && dir[RING_FILE].Ring?
    ensures var es := dir[RING_FILE].entries;
            StartFrom(thumb, dir, now, made).1.Some? <==>
            Prunable(es, {}) &&
            var ks := LoadPublished(thumb, dir - GoneFiles(es, now), Keep(es, now), KeySet(None, [])); ks.Some? && ks.value.active.Some?
  {
    var es := dir[RING_FILE].entries;
    PruneRefuses(dir, es, {}, now);
    if Prunable(es, {}) {
      PruneKeeps(dir, es, {}, now);
    }
    hide Prune, Prunable, Keep, GoneFiles;
  }

  /**
   A start on a ring succeeds exactly when every entry is complete, in a known state and under its own kid, one
   entry is active, and every key that is not past its horizon is there and fits its kid, where retiring keys
   may be lost.
   */
  lemma StartSucceedsIff(thumb: Key -> string, dir: Dir, now: Time, made: Key)
    requires RING_FILE in dir && dir[RING_FILE].Ring?
    ensures var es := dir[RING_FILE].entries;
            StartFrom(thumb, dir, now, made).1.Some? <==>
            && (forall i :: 0 <= i < |es| ==> es[i].kid != "" && es[i].file != "" && es[i].state in {Active, Retiring})
            && (forall i, j :: 0 <= i < j < |es| ==> es[i].kid != es[j].kid)
            && OneActive(es)
            && (forall i :: 0 <= i < |es| && !(es[i].state == Retiring && es[i].retireAt.Some? && es[i].retireAt.value < now) ==>
                  LoadsOrLost(thumb, Pruned(dir, es, now), es[i]))
  {
    var es := dir[RING_FILE].entries;
    StartIs(thumb, dir, now, made);
    PrunedIs(dir, es, now);
    hide StartFrom, LoadPublished, Keep, GoneFiles, LoadsOrLost, OneActive, Pruned;
    if Prunable(es, {}) {
      KeptActive(es, now);
      KeptStates(es, now);
      LoadedIff(thumb, dir - GoneFiles(es, now), Keep(es, now), KeySet(None, []));
      KeptLoadsOrLost(thumb, dir - GoneFiles(es, now), es, now);
    }
  }

  lemma KeptStates(es: seq<Entry>, now: Time)
    requires forall i :: 0 <= i < |es| ==> es[i].state != Other
    ensures forall i :: 0 <= i < |Keep(es, now)| ==> KnownState(Keep(es, now)[i])
  {
    KeepFacts(es, now);
    hide Keep;
    forall i | 0 <= i < |Keep(es, now)| ensures KnownState(Keep(es, now)[i]) {
      assert Keep(es, now)[i] in Keep(es, now);
    }
  }

  lemma KeptLoadsOrLost(thumb: Key -> string, dir: Dir, es: seq<Entry>, now: Time)
    ensures AllLoad(thumb, dir, Keep(es, now)) <==>
            forall i :: 0 <= i < |es| && !HorizonPassed(es[i], now) ==> LoadsOrLost(thumb, dir, es[i])
  {
    KeepFacts(es, now);
    hide Keep, LoadsOrLost, HorizonPassed;
    var kept := Keep(es, now);
    if AllLoad(thumb, dir, kept) {
      forall i | 0 <= i < |es| && !HorizonPassed(es[i], now) ensures LoadsOrLost(thumb, dir, es[i]) {
        assert es[i] in kept;
      }
    }
    if forall i :: 0 <= i < |es| && !HorizonPassed(es[i], now) ==> LoadsOrLost(thumb, dir, es[i]) {
      forall i | 0 <= i < |kept| ensures LoadsOrLost(thumb, dir, kept[i]) {
        assert kept[i] in es;
      }
    }
  }

  // ----- good directories -----

  predicate Publishes(ks: KeySet, kid: string) {
    exists k :: k in ks.published && k.kid == kid
  }

  /**
   A start on a good directory publishes a kid exactly when its entry is active, or retiring and not past its
   horizon; and the file of every retiring entry that is past its horizon is gone afterwards.
   */
  lemma PublishedExactly(thumb: Key -> string, dir: Dir, now: Time, made: Key, kid: string)
    requires DirOk(thumb, dir, now) && RING_FILE in dir
    ensures var es := dir[RING_FILE].entries;
            var (dir1, ks) := StartFrom(thumb, dir, now, made);
            && ks.Some?
            && (Publishes(ks.value, kid) <==>
                exists i :: 0 <= i < |es| && es[i].kid == kid &&
                            (es[i].state == Active ||
                             (es[i].state == Retiring && !(es[i].retireAt.Some? && es[i].retireAt.value < now))))
            && (forall i :: 0 <= i < |es| && es[i].state == Retiring && es[i].retireAt.Some? && es[i].retireAt.value < now ==>
                  es[i].file !in dir1)
  {
    var es := dir[RING_FILE].entries;
    StartPublishes(thumb, dir, now, made);
    KeptPems(thumb, dir, Keep(es, now));
    KeepFacts(es, now);
    KnownStates(es);
    hide StartFrom, RingOk, FilesOk, Loadable, Keep, KeysOf, DirOk;
    PublishesKept(dir, Keep(es, now), KeySet(None, KeysOf(dir, Keep(es, now))), kid);
    KeptKid(es, Keep(es, now), now, kid);
    hide Publishes;
  }

  lemma PublishesKept(dir: Dir, kept: seq<Entry>, ks: KeySet, kid: string)
    requires forall i :: 0 <= i < |kept| ==> kept[i].file in dir && dir[kept[i].file].Pem?
    requires ks.published == KeysOf(dir, kept)
    ensures forall ks1: KeySet :: ks1.published == ks.published ==>
              (Publishes(ks1, kid) <==> exists i :: 0 <= i < |kept| && kept[i].kid == kid)
  {
    var keys := ks.published;
    assert forall i :: 0 <= i < |kept| ==> keys[i].kid == kept[i].kid;
    if exists k :: k in keys && k.kid == kid {
      var k :| k in keys && k.kid == kid;
      var j :| 0 <= j < |keys| && keys[j] == k;
      assert kept[j].kid == kid;
    }
    forall i | 0 <= i < |kept| && kept[i].kid == kid ensures exists k :: k in keys && k.kid == kid {
      assert keys[i] in keys;
    }
  }

  lemma KeptKid(es: seq<Entry>, kept: seq<Entry>, now: Time, kid: string)
    requires forall e :: e in kept <==> e in es && !HorizonPassed(e, now)
    ensures (exists i :: 0 <= i < |kept| && kept[i].kid == kid) <==>
            exists i :: 0 <= i < |es| && es[i].kid == kid && !HorizonPassed(es[i], now)
  {
    hide HorizonPassed;
    if exists j :: 0 <= j < |kept| && kept[j].kid == kid {
      var j :| 0 <= j < |kept| && kept[j].kid == kid;
      assert kept[j] in kept;
      var i :| 0 <= i < |es| && es[i] == kept[j];
    }
    if exists i :: 0 <= i < |es| && es[i].kid == kid && !HorizonPassed(es[i], now) {
      var i :| 0 <= i < |es| && es[i].kid == kid && !HorizonPassed(es[i], now);
      assert es[i] in kept;
      var j :| 0 <= j < |kept| && kept[j] == es[i];
    }
  }

  lemma KnownStates(es: seq<Entry>)
    requires RingOk(es)
    ensures forall i :: 0 <= i < |es| ==> KnownState(es[i])
  {
    forall i | 0 <= i < |es| ensures KnownState(es[i]) {
      assert EntryOk(es, i);
    }
  }
}
