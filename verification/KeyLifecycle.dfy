/** The key directory over whole histories of rotations and starts, interleaved in any way, any of which may crash. */
module KeyLifecycle {
  import opened Options
  import opened KeyRing
  import opened KeyRingProofs
  import opened KeyStart
  import opened KeyRotations
  import opened KeyRotationSteps

  // ----- directories as they are -----

  lemma TimePasses(thumb: Key -> string, dir: Dir, from: Time, now: Time)
    requires DirOk(thumb, dir, from) && from <= now
    ensures DirOk(thumb, dir, now)
  {
    hide RingOk;
  }

  lemma SameKeys(dir: Dir, other: Dir, kept: seq<Entry>)
    requires forall i :: 0 <= i < |kept| ==> kept[i].file in dir && dir[kept[i].file].Pem?
    requires forall i :: 0 <= i < |kept| ==> kept[i].file in other && other[kept[i].file] == dir[kept[i].file]
    ensures KeysOf(dir, kept) == KeysOf(other, kept)
  {
  }

  /** A start depends on the ring and on the files it names, and on nothing else. */
  lemma SameStart(thumb: Key -> string, dir: Dir, r: Dir, t: Time, made: Key)
    requires DirOk(thumb, dir, t) && DirOk(thumb, r, t) && RING_FILE in dir && RING_FILE in r && r[RING_FILE] == dir[RING_FILE]
    requires forall e :: e in dir[RING_FILE].entries ==>
               (e.file in r <==> e.file in dir) && (e.file in dir ==> r[e.file] == dir[e.file])
    ensures StartFrom(thumb, r, t, made).1 == StartFrom(thumb, dir, t, made).1
  {
    hide StartFrom, RingOk, FilesOk, Loadable, KeysOf, GoneFiles;
    var es := dir[RING_FILE].entries;
    StartPublishes(thumb, dir, t, made);
    StartPublishes(thumb, r, t, made);
    KeepFacts(es, t);
    KeptPems(thumb, dir, Keep(es, t));
    KeptPems(thumb, r, Keep(es, t));
    hide DirOk;
    forall i | 0 <= i < |Keep(es, t)| ensures Keep(es, t)[i] in es {
      assert Keep(es, t)[i] in Keep(es, t);
    }
    SameKeys(dir, r, Keep(es, t));
  }

  /** Removing any of the files that are due for removal leaves the directory well-formed. */
  lemma PrunedOk(thumb: Key -> string, dir: Dir, now: Time, gone: set<string>)
    requires DirOk(thumb, dir, now) && RING_FILE in dir && gone <= GoneFiles(dir[RING_FILE].entries, now)
    ensures DirOk(thumb, dir - gone, now) && RING_FILE !in gone
  {
    var es := dir[RING_FILE].entries;
    LastActive(es, now);
    KeptFilesStay(es, now, |es| - 1);
    forall i | 0 <= i < |es| && !HorizonPassed(es[i], now) ensures es[i].file !in GoneFiles(es, now) {
      KeptFilesStay(es, now, i);
    }
    hide RingOk, GoneFiles;
  }

  lemma {:induction false} VerifyFinds(published: seq<SigningKey>, i: nat)
    requires i < |published|
    requires forall j, k :: 0 <= j < k < |published| ==> published[j].kid != published[k].kid
    ensures VerifyKey(published, published[i].kid) == Some(published[i].key)
    decreases |published|
  {
    if i > 0 {
      assert published[0].kid != published[i].kid;
      VerifyFinds(published[1..], i - 1);
    }
  }

  lemma {:induction false} KeepDistinct(es: seq<Entry>, now: Time)
    requires forall i, j :: 0 <= i < j < |es| ==> es[i].kid != es[j].kid
    ensures forall i, j :: 0 <= i < j < |Keep(es, now)| ==> Keep(es, now)[i].kid != Keep(es, now)[j].kid
    decreases |es|
  {
    if es != [] {
      var rest := es[1..];
      assert forall i :: 0 <= i < |rest| ==> rest[i] == es[i + 1];
      KeepDistinct(rest, now);
      KeepFacts(rest, now);
      forall i | 0 <= i < |Keep(rest, now)| ensures Keep(rest, now)[i].kid != es[0].kid {
        assert Keep(rest, now)[i] in Keep(rest, now);
        var j :| 0 <= j < |rest| && rest[j] == Keep(rest, now)[i];
        assert es[j + 1] == rest[j];
      }
    }
  }

  /** A start publishes under its kid every key it keeps. */
  lemma StartFinds(thumb: Key -> string, dir: Dir, now: Time, made: Key, e: Entry, key: Key)
    requires DirOk(thumb, dir, now) && RING_FILE in dir && e in dir[RING_FILE].entries && !HorizonPassed(e, now)
    requires e.file in dir && dir[e.file] == Pem(key)
    ensures var ks := StartFrom(thumb, dir, now, made).1;
            ks.Some? && VerifyKey(ks.value.published, e.kid) == Some(key)
  {
    var es := dir[RING_FILE].entries;
    StartPublishes(thumb, dir, now, made);
    KeepFacts(es, now);
    KeepDistinct(es, now);
    KeptPems(thumb, dir, Keep(es, now));
    hide StartFrom, RingOk, FilesOk, Loadable, GoneFiles, Keep;
    var i :| 0 <= i < |Keep(es, now)| && Keep(es, now)[i] == e;
    var keys := KeysOf(dir, Keep(es, now));
    assert keys[i] == SigningKey(e.kid, key);
    VerifyFinds(keys, i);
  }

  /** The key that signs: the ring's last entry, or the legacy key. */
  ghost predicate Signs(dir: Dir, kid: string, key: Key) {
    if RING_FILE in dir
    then dir[RING_FILE].Ring? && var es := dir[RING_FILE].entries;
         es != [] && es[|es| - 1].kid == kid && es[|es| - 1].file in dir && dir[es[|es| - 1].file] == Pem(key)
    else kid == LEGACY_KID && LEGACY_FILE in dir && dir[LEGACY_FILE] == Pem(key)
  }

  /** The signing key is the active key that a start loads. */
  lemma StartSigns(thumb: Key -> string, dir: Dir, now: Time, made: Key, kid: string, key: Key)
    requires DirOk(thumb, dir, now) && Signs(dir, kid, key)
    ensures var ks := StartFrom(thumb, dir, now, made).1; ks.Some? && ks.value.active == Some(SigningKey(kid, key))
  {
    if RING_FILE in dir {
      StartPublishes(thumb, dir, now, made);
      hide RingOk, FilesOk, Loadable, GoneFiles, Keep, StartFrom;
    }
  }

  // ----- replacing the ring -----

  /** The step puts another file in the place of the ring, or writes into it. */
  predicate Replaces(w: World, ev: Event) {
    && ev.Go? && ev.id in w.begun
    && var r := w.begun[ev.id]; Renames(w.dir, r) || (r.done == 4 && r.open == Some(RING_FILE))
  }

  /** The ring that is put in place was made from the ring that it replaces. */
  ghost predicate MadeFrom(thumb: Key -> string, w: World, ev: Event, i: nat)
    requires Enabled(w, ev)
  {
    && i in w.begun && RingBefore(w.dir) == Some(w.begun[i].read)
    && Holds(thumb, Step(thumb, w, ev).dir, RING_FILE, w.begun[i])
  }

  /** The step does not replace the ring, or with one that was made from it. */
  ghost predicate Orderly(thumb: Key -> string, w: World, ev: Event)
    requires Enabled(w, ev)
  {
    Replaces(w, ev) ==> exists i :: MadeFrom(thumb, w, ev, i)
  }

  ghost predicate OrderlyRun(thumb: Key -> string, w: World, evs: seq<Event>)
    requires ValidRun(thumb, w, evs)
    decreases |evs|
  {
    evs == [] || (Orderly(thumb, w, evs[0]) && OrderlyRun(thumb, Step(thumb, w, evs[0]), evs[1..]))
  }

  /** A rotation that has not read the ring in place does not know its last key. */
  lemma NotRead(thumb: Key -> string, w: World, i: nat)
    requires GoodThumb(thumb) && Inv(thumb, w) && i in w.begun
    requires RingBefore(w.dir).Some? && RingBefore(w.dir).value != w.begun[i].read
    ensures var cur := RingBefore(w.dir).value;
            cur != [] && !Lists(w.begun[i].read, cur[|cur| - 1].kid)
  {
    hide Inv, Lists, Holds, GoodThumb;
    var cur := RingBefore(w.dir).value;
    if RING_FILE in w.dir {
      var c := CurrentRing(thumb, w);
      HeldRing(thumb, w.dir, w.begun[c]);
      SeenIs(thumb, w, i, c);
    } else {
      LegacyReads(thumb, w, i);
      NothingListed(LEGACY_KID);
    }
  }

  lemma LegacyReads(thumb: Key -> string, w: World, i: nat)
    requires Inv(thumb, w) && i in w.begun && RING_FILE !in w.dir
    ensures w.begun[i].read == [] || (LEGACY_FILE in w.dir && w.begun[i].read == [LEGACY_ENTRY])
  {
    hide KeysInv, ReadsInv, RingsInv, SeenInv, OpenInv, PemInv;
  }

  /** The rotation whose ring is put in place did not have it in place before. */
  lemma PutInPlace(thumb: Key -> string, w: World, ev: Event) returns (i: nat)
    requires GoodThumb(thumb) && Inv(thumb, w) && Enabled(w, ev) && Replaces(w, ev)
    requires var r := Step(thumb, w, ev); RING_FILE in r.dir && !Unreadable(r.dir[RING_FILE])
    ensures i in w.begun && Holds(thumb, Step(thumb, w, ev).dir, RING_FILE, w.begun[i])
    ensures !Holds(thumb, w.dir, RING_FILE, w.begun[i])
    ensures Holds(thumb, w.dir, RING_TEMP, w.begun[i]) || (i == ev.id && w.begun[i].done == 4)
  {
    hide Inv, RingOf, GoodThumb, Temp;
    RingNames("");
    var q := w.begun[ev.id];
    if q.done == 5 {
      FilesAreOk(thumb, w);
      i :| i in w.begun && w.begun[i].done >= 5 && Holds(thumb, w.dir, RING_TEMP, w.begun[i]);
      OnePlace(thumb, w, i);
    } else {
      i := ev.id;
      HolderHasWritten(thumb, w, i);
    }
  }

  lemma ReplacedRingIsThere(thumb: Key -> string, w: World, ev: Event)
    requires Inv(thumb, w) && Enabled(w, ev) && Replaces(w, ev)
    ensures RING_FILE in Step(thumb, w, ev).dir
  {
    hide Inv, RingOf, Temp;
    RingNames("");
  }

  /** A step that does not replace the ring leaves it as it is, or makes the first key. */
  lemma RingStays(thumb: Key -> string, w: World, ev: Event)
    requires GoodThumb(thumb) && Inv(thumb, w) && Enabled(w, ev) && !Replaces(w, ev)
    ensures SameFile(w.dir, Step(thumb, w, ev).dir, RING_FILE)
    ensures RING_FILE !in w.dir && (LEGACY_FILE in w.dir || ev.Begin? || ev.Go?) ==> SameFile(w.dir, Step(thumb, w, ev).dir, LEGACY_FILE)
  {
    match ev
    case Begin(_, _, _, _) =>
    case Go(id, torn) => GoLeavesRing(thumb, w, id, torn);
    case Start(_, _) => StartLeavesRing(thumb, w, ev);
    case CrashedStart(_, _, _) => StartLeavesRing(thumb, w, ev);
  }

  lemma GoLeavesRing(thumb: Key -> string, w: World, id: nat, torn: bool)
    requires Inv(thumb, w) && Enabled(w, Go(id, torn)) && !Replaces(w, Go(id, torn))
    ensures SameFile(w.dir, DoGo(thumb, w, id, torn).dir, RING_FILE) && SameFile(w.dir, DoGo(thumb, w, id, torn).dir, LEGACY_FILE)
  {
    hide Inv, RingOf, PemName, Temp;
    var q := w.begun[id];
    RingNames(thumb(q.key));
    if q.open.Some? {
      OpenIs(thumb, w, id);
    }
  }

  lemma StartLeavesRing(thumb: Key -> string, w: World, ev: Event)
    requires GoodThumb(thumb) && Inv(thumb, w) && Enabled(w, ev) && (ev.Start? || ev.CrashedStart?)
    ensures SameFile(w.dir, Step(thumb, w, ev).dir, RING_FILE)
    ensures RING_FILE !in w.dir && LEGACY_FILE in w.dir ==> SameFile(w.dir, Step(thumb, w, ev).dir, LEGACY_FILE)
  {
    hide Inv, GoodThumb, Prune, LoadPublished, GoneFiles;
    RingNames("");
    if RING_FILE in w.dir && w.dir[RING_FILE].Ring? {
      var c := CurrentRing(thumb, w);
      var gone := StartGone(w.dir, ev, thumb);
      if RING_FILE in gone {
        DueFile(thumb, w, ev.now, RING_FILE);
      }
    }
  }

  /** Every kid that the first ring lists is in the second. */
  ghost predicate KeepsListed(before: Option<seq<Entry>>, after: Option<seq<Entry>>)
    requires before.Some?
  {
    after.Some? && forall kid :: Lists(before.value, kid) ==> Lists(after.value, kid)
  }

  /**
   Whatever rotations and starts are in progress, a step keeps every listed key in the ring exactly when
   it does not replace the ring, or replaces it with one that was made from it.
   */
  lemma StepKeepsListedIff(thumb: Key -> string, w: World, ev: Event)
    requires GoodThumb(thumb) && Inv(thumb, w) && Enabled(w, ev) && RingBefore(w.dir).Some?
    ensures KeepsListed(RingBefore(w.dir), RingBefore(Step(thumb, w, ev).dir)) <==> Orderly(thumb, w, ev)
  {
    hide Inv, GoodThumb, Holds, Step, Lists, RingOf;
    if Replaces(w, ev) {
      ReplacedRingIsThere(thumb, w, ev);
      var r := Step(thumb, w, ev);
      if Unreadable(r.dir[RING_FILE]) {
        UnreadableHoldsNone(thumb, w, r.dir);
      } else {
        var i := PutInPlace(thumb, w, ev);
        PutKeepsListedIff(thumb, w, ev, i);
      }
    } else {
      RingStays(thumb, w, ev);
      if RING_FILE !in w.dir && LEGACY_FILE !in w.dir {
        assert forall kid :: !Lists([], kid) by { NoneListed(); }
      }
    }
  }

  lemma NoneListed()
    ensures forall kid :: !Lists([], kid)
  {
  }

  lemma UnreadableHoldsNone(thumb: Key -> string, w: World, dir: Dir)
    requires RING_FILE in dir && Unreadable(dir[RING_FILE])
    ensures RingBefore(dir).None? && forall i :: i in w.begun ==> !Holds(thumb, dir, RING_FILE, w.begun[i])
  {
  }

  lemma PutKeepsListedIff(thumb: Key -> string, w: World, ev: Event, i: nat)
    requires GoodThumb(thumb) && Inv(thumb, w) && Enabled(w, ev) && Replaces(w, ev) && RingBefore(w.dir).Some? && i in w.begun
    requires Holds(thumb, Step(thumb, w, ev).dir, RING_FILE, w.begun[i]) && !Holds(thumb, w.dir, RING_FILE, w.begun[i])
    ensures KeepsListed(RingBefore(w.dir), RingBefore(Step(thumb, w, ev).dir)) <==> Orderly(thumb, w, ev)
  {
    hide Inv, GoodThumb, Step, Lists, RingOf, Holds, RingBefore;
    var cur, dir := RingBefore(w.dir).value, Step(thumb, w, ev).dir;
    HeldRing(thumb, dir, w.begun[i]);
    if cur == w.begun[i].read {
      assert MadeFrom(thumb, w, ev, i);
      forall kid | Lists(cur, kid) ensures Lists(RingOf(thumb, w.begun[i]), kid) {
        NewRingLists(thumb, w.begun[i], kid);
      }
    } else {
      NotRead(thumb, w, i);
      var kid := cur[|cur| - 1].kid;
      NewRingLists(thumb, w.begun[i], kid);
      LastIsNotNew(thumb, w, i);
      LastListed(cur);
      forall j | MadeFrom(thumb, w, ev, j) ensures false {
        HeldRing(thumb, dir, w.begun[j]);
        RingTellsKey(thumb, w.begun[i], w.begun[j]);
        if i != j {
          DifferentKeys(thumb, w, i, j);
        }
      }
    }
  }

  lemma LastListed(es: seq<Entry>)
    requires es != []
    ensures Lists(es, es[|es| - 1].kid)
  {
  }

  /** The last key of the ring in place is not that of a rotation whose ring is not in place. */
  lemma LastIsNotNew(thumb: Key -> string, w: World, i: nat)
    requires GoodThumb(thumb) && Inv(thumb, w) && i in w.begun && RingBefore(w.dir).Some? && RingBefore(w.dir).value != []
    requires !Holds(thumb, w.dir, RING_FILE, w.begun[i])
    ensures var cur := RingBefore(w.dir).value; cur[|cur| - 1].kid != thumb(w.begun[i].key)
  {
    hide Inv, Holds;
    if RING_FILE in w.dir {
      var c := CurrentRing(thumb, w);
      HeldRing(thumb, w.dir, w.begun[c]);
      DifferentKeys(thumb, w, c, i);
    }
  }

  // ----- orderly steps keep the directory good -----

  /** The file of a listed key is no business of a rotation that is still at its own key file. */
  lemma ListedFileStays(thumb: Key -> string, w: World, id: nat, torn: bool, k: nat)
    requires GoodThumb(thumb) && Inv(thumb, w) && Enabled(w, Go(id, torn)) && RING_FILE in w.dir && w.dir[RING_FILE].Ring?
    requires k < |w.dir[RING_FILE].entries|
    ensures SameFile(w.dir, DoGo(thumb, w, id, torn).dir, w.dir[RING_FILE].entries[k].file)
  {
    hide Inv, GoodThumb, Holds, RingOf, DirAfter, PemName, Temp;
    var q := w.begun[id];
    var c := CurrentRing(thumb, w);
    HeldRing(thumb, w.dir, w.begun[c]);
    var e := RingOf(thumb, w.begun[c])[k];
    assert EntryOk(RingOf(thumb, w.begun[c]), k);
    RingNames(e.kid);
    if q.done < 3 {
      NotListedYet(thumb, w, c, id, k);
      if e.kid == LEGACY_KID {
        PemFixed(thumb, w.dir, q, torn);
      } else {
        OtherPem(thumb, w.dir, q, torn, e.kid);
      }
    } else {
      if q.open.Some? {
        OpenIs(thumb, w, id);
      }
      RingOpTouches(thumb, w.dir, q, torn);
      SameName(w.dir, DirAfter(thumb, w.dir, q, torn), e.file);
    }
  }

  lemma NotListedYet(thumb: Key -> string, w: World, c: nat, id: nat, k: nat)
    requires GoodThumb(thumb) && Inv(thumb, w) && c in w.begun && id in w.begun && w.begun[c].done >= 5 && w.begun[id].done < 3
    requires k < |RingOf(thumb, w.begun[c])|
    ensures RingOf(thumb, w.begun[c])[k].kid != thumb(w.begun[id].key)
  {
    hide Inv, GoodThumb, Holds, RingOf;
    var kid := RingOf(thumb, w.begun[c])[k].kid;
    assert Lists(RingOf(thumb, w.begun[c]), kid);
    NewRingLists(thumb, w.begun[c], kid);
    SeenIs(thumb, w, c, id);
    DifferentKeys(thumb, w, c, id);
  }

  /** A step of a rotation that leaves the ring alone leaves all its files alone. */
  lemma GoKeepsFiles(thumb: Key -> string, w: World, id: nat, torn: bool)
    requires GoodThumb(thumb) && Inv(thumb, w) && Enabled(w, Go(id, torn)) && RING_FILE in w.dir && w.dir[RING_FILE].Ring?
    ensures forall e :: e in w.dir[RING_FILE].entries ==> SameFile(w.dir, DoGo(thumb, w, id, torn).dir, e.file)
  {
    hide Inv, GoodThumb, SameFile, DoGo;
    forall e | e in w.dir[RING_FILE].entries ensures SameFile(w.dir, DoGo(thumb, w, id, torn).dir, e.file) {
      var k :| 0 <= k < |w.dir[RING_FILE].entries| && w.dir[RING_FILE].entries[k] == e;
      ListedFileStays(thumb, w, id, torn, k);
    }
  }

  lemma SameFilesOk(thumb: Key -> string, dir: Dir, dir1: Dir, es: seq<Entry>, now: Time)
    requires FilesOk(thumb, dir, es, now) && forall e :: e in es ==> SameFile(dir, dir1, e.file)
    ensures FilesOk(thumb, dir1, es, now)
  {
    forall i | 0 <= i < |es|
      ensures (!HorizonPassed(es[i], now) ==> es[i].file in dir1) && (es[i].file in dir1 ==> KeyFits(thumb, es[i].kid, dir1[es[i].file]))
    {
      assert es[i] in es;
    }
  }

  lemma QuietGoKeepsDir(thumb: Key -> string, w: World, id: nat, torn: bool)
    requires GoodThumb(thumb) && Inv(thumb, w) && Enabled(w, Go(id, torn)) && !Replaces(w, Go(id, torn))
    requires DirOk(thumb, w.dir, w.clock)
    ensures DirOk(thumb, DoGo(thumb, w, id, torn).dir, w.clock)
  {
    hide Inv, GoodThumb, RingOk, FilesOk, DoGo;
    GoLeavesRing(thumb, w, id, torn);
    if RING_FILE in w.dir {
      GoKeepsFiles(thumb, w, id, torn);
      SameFilesOk(thumb, w.dir, DoGo(thumb, w, id, torn).dir, w.dir[RING_FILE].entries, w.clock);
    }
  }

  /** The files of the ring that a rotation has made from the ring in place. */
  lemma NewFilesOk(thumb: Key -> string, dir: Dir, r: Rotation, now: Time)
    requires FilesOk(thumb, dir, r.read, now) && BaseOk(r.read)
    requires PemOf(thumb, r) in dir && dir[PemOf(thumb, r)] == Pem(r.key)
    ensures FilesOk(thumb, dir, RingOf(thumb, r), now)
  {
    var es := RingOf(thumb, r);
    forall i | 0 <= i < |es|
      ensures (!HorizonPassed(es[i], now) ==> es[i].file in dir) && (es[i].file in dir ==> KeyFits(thumb, es[i].kid, dir[es[i].file]))
    {
      if i < |r.read| {
        assert EntryOk(r.read, i) && es[i] == Retire(r.read[i], r.at);
      }
    }
  }

  /** The key file of the ring that is put in place is there. */
  lemma NewPemIsThere(thumb: Key -> string, w: World, ev: Event, i: nat)
    requires GoodThumb(thumb) && Inv(thumb, w) && Enabled(w, ev) && Replaces(w, ev) && MadeFrom(thumb, w, ev, i)
    ensures PemOf(thumb, w.begun[i]) in w.dir && w.dir[PemOf(thumb, w.begun[i])] == Pem(w.begun[i].key)
  {
    hide Inv, GoodThumb, Step, RingOf, PemOf, RingBefore;
    var j := PutInPlace(thumb, w, ev);
    RingTellsKey(thumb, w.begun[i], w.begun[j]);
    if i != j {
      DifferentKeys(thumb, w, i, j);
    }
    PemIs(thumb, w, i);
  }

  lemma ReplacingTouches(thumb: Key -> string, w: World, ev: Event)
    requires Inv(thumb, w) && Enabled(w, ev) && Replaces(w, ev)
    ensures OnlyRings(w.dir, Step(thumb, w, ev).dir) && Step(thumb, w, ev).clock == w.clock
  {
    hide Inv, DirAfter, OnlyRings;
    var q := w.begun[ev.id];
    if q.open.Some? {
      OpenIs(thumb, w, ev.id);
    }
    RingOpTouches(thumb, w.dir, q, ev.torn);
  }

  lemma ReplacingKeepsDir(thumb: Key -> string, w: World, ev: Event, i: nat)
    requires GoodThumb(thumb) && Inv(thumb, w) && Enabled(w, ev) && Replaces(w, ev) && MadeFrom(thumb, w, ev, i)
    requires DirOk(thumb, w.dir, w.clock)
    ensures DirOk(thumb, Step(thumb, w, ev).dir, w.clock)
    ensures forall e :: e in w.begun[i].read ==> SameFile(w.dir, Step(thumb, w, ev).dir, e.file)
  {
    hide Inv, GoodThumb, Step, FilesOk, RingBefore, PemName, OnlyRings, SameFile, Temp;
    var q, dir := w.begun[i], Step(thumb, w, ev).dir;
    ReadIs(thumb, w, i);
    RingOfIsOk(thumb, w.known, q);
    NewPemIsThere(thumb, w, ev, i);
    BaseBefore(thumb, w.dir, w.clock);
    NewFilesOk(thumb, w.dir, q, w.clock);
    ReplacingTouches(thumb, w, ev);
    forall e | e in RingOf(thumb, q) || e in q.read ensures SameFile(w.dir, dir, e.file) {
      EntryFile(thumb, w, i, e);
      SameName(w.dir, dir, e.file);
    }
    hide RingOk, RingOf, BaseOk;
    SameFilesOk(thumb, w.dir, dir, RingOf(thumb, q), w.clock);
    HeldContent(thumb, dir, q);
  }

  lemma HeldContent(thumb: Key -> string, dir: Dir, r: Rotation)
    requires Holds(thumb, dir, RING_FILE, r)
    ensures RING_FILE in dir && dir[RING_FILE] == Ring(RingOf(thumb, r))
  {
  }

  lemma EntryFile(thumb: Key -> string, w: World, i: nat, e: Entry)
    requires GoodThumb(thumb) && Inv(thumb, w) && i in w.begun && (e in RingOf(thumb, w.begun[i]) || e in w.begun[i].read)
    ensures e.file != RING_FILE && e.file != RING_TEMP
  {
    hide Inv, PemName, Temp;
    var r := w.begun[i];
    ReadIs(thumb, w, i);
    RingOfIsOk(thumb, w.known, r);
    if e in RingOf(thumb, r) {
      var k :| 0 <= k < |RingOf(thumb, r)| && RingOf(thumb, r)[k] == e;
      assert EntryOk(RingOf(thumb, r), k);
    } else {
      var k :| 0 <= k < |r.read| && r.read[k] == e;
      assert EntryOk(r.read, k);
    }
    RingNames(e.kid);
  }

  lemma StartKeepsDir(thumb: Key -> string, w: World, ev: Event)
    requires GoodThumb(thumb) && Inv(thumb, w) && Enabled(w, ev) && (ev.Start? || ev.CrashedStart?)
    requires DirOk(thumb, w.dir, w.clock)
    ensures DirOk(thumb, Step(thumb, w, ev).dir, ev.now)
  {
    hide GoodThumb, Inv, FilesOk, Prune, LoadPublished, GoneFiles;
    TimePasses(thumb, w.dir, w.clock, ev.now);
    RingNames("");
    if RING_FILE in w.dir {
      var gone := StartGone(w.dir, ev, thumb);
      hide RingOk;
      PrunedOk(thumb, w.dir, ev.now, gone);
    }
  }

  /** An orderly step keeps the directory good: every key whose horizon has not passed is there. */
  lemma OrderlyKeepsDir(thumb: Key -> string, w: World, ev: Event)
    requires GoodThumb(thumb) && Inv(thumb, w) && Enabled(w, ev) && Orderly(thumb, w, ev) && DirOk(thumb, w.dir, w.clock)
    ensures DirOk(thumb, Step(thumb, w, ev).dir, Step(thumb, w, ev).clock)
  {
    hide Inv, GoodThumb, DirOk, Replaces, MadeFrom;
    if Replaces(w, ev) {
      var i :| MadeFrom(thumb, w, ev, i);
      hide Step;
      ReplacingTouches(thumb, w, ev);
      ReplacingKeepsDir(thumb, w, ev, i);
    } else {
      match ev
      case Begin(_, now, _, _) => TimePasses(thumb, w.dir, w.clock, now);
      case Go(id, torn) => QuietGoKeepsDir(thumb, w, id, torn);
      case Start(_, _) => StartKeepsDir(thumb, w, ev);
      case CrashedStart(_, _, _) => StartKeepsDir(thumb, w, ev);
    }
  }

  lemma {:induction false} OrderlyRunKeepsDir(thumb: Key -> string, w: World, evs: seq<Event>)
    requires GoodThumb(thumb) && Inv(thumb, w) && DirOk(thumb, w.dir, w.clock) && ValidRun(thumb, w, evs) && OrderlyRun(thumb, w, evs)
    ensures DirOk(thumb, After(thumb, w, evs).dir, After(thumb, w, evs).clock)
    decreases |evs|
  {
    hide Inv, GoodThumb, DirOk, Step, Enabled, Orderly;
    if evs != [] {
      StepKeeps(thumb, w, evs[0]);
      OrderlyKeepsDir(thumb, w, evs[0]);
      OrderlyRunKeepsDir(thumb, Step(thumb, w, evs[0]), evs[1..]);
    }
  }

  // ----- the ring over every history -----

  /**
   After any history from an empty or legacy directory, with rotations and starts interleaved in any way
   and crashes anywhere, the ring is unreadable, or it has distinct kids and files and exactly one active
   entry, the last.  After an orderly history it is readable, and a start at any later time succeeds and
   publishes the active key and exactly the retiring keys whose horizon has not passed.
   */
  lemma RingIsWellFormed(thumb: Key -> string, w: World, evs: seq<Event>, now: Time, made: Key, kid: string)
    requires GoodThumb(thumb) && Initial(thumb, w) && ValidRun(thumb, w, evs)
    requires After(thumb, w, evs).clock <= now && RING_FILE in After(thumb, w, evs).dir
    ensures var dir := After(thumb, w, evs).dir;
            && (Unreadable(dir[RING_FILE]) ||
                (dir[RING_FILE].Ring? && var es := dir[RING_FILE].entries;
                 RingOk(es) && forall i, j :: 0 <= i < j < |es| ==> es[i].file != es[j].file))
            && (OrderlyRun(thumb, w, evs) ==>
                  dir[RING_FILE].Ring? && var es := dir[RING_FILE].entries;
                  && RingOk(es) && Loadable(thumb, dir, Keep(es, now)) && es[|es| - 1] in Keep(es, now)
                  && StartFrom(thumb, dir, now, made).1 == Some(Published(dir, es, now))
                  && (Publishes(Published(dir, es, now), kid) <==>
                      exists i :: 0 <= i < |es| && es[i].kid == kid &&
                                  (es[i].state == Active ||
                                   (es[i].state == Retiring && !(es[i].retireAt.Some? && es[i].retireAt.value < now)))))
  {
    hide Step, StartFrom, Loadable, GoodThumb, FilesOk, Inv, Holds;
    InvInitial(thumb, w);
    RunKeeps(thumb, w, evs);
    var v := After(thumb, w, evs);
    if !Unreadable(v.dir[RING_FILE]) {
      var c := CurrentRing(thumb, v);
      HeldContent(thumb, v.dir, v.begun[c]);
      var es := v.dir[RING_FILE].entries;
      forall i, j | 0 <= i < j < |es| ensures es[i].file != es[j].file {
        RingFiles(es, i, j);
      }
    }
    hide RingOk;
    if OrderlyRun(thumb, w, evs) {
      OrderlyRunKeepsDir(thumb, w, evs);
      TimePasses(thumb, v.dir, v.clock, now);
      StartPublishes(thumb, v.dir, now, made);
      PublishedExactly(thumb, v.dir, now, made, kid);
    }
  }

  // ----- crash consistency -----

  predicate OfRotations(evs: seq<Event>) {
    forall i :: 0 <= i < |evs| ==> evs[i].Begin? || evs[i].Go?
  }

  predicate NoneReplaces(thumb: Key -> string, w: World, evs: seq<Event>)
    requires ValidRun(thumb, w, evs)
    decreases |evs|
  {
    evs == [] || (!Replaces(w, evs[0]) && NoneReplaces(thumb, Step(thumb, w, evs[0]), evs[1..]))
  }

  /** What a start loads changes only when the ring is replaced. */
  lemma LoadsTheSame(thumb: Key -> string, w: World, ev: Event, t: Time, made: Key)
    requires GoodThumb(thumb) && Inv(thumb, w) && DirOk(thumb, w.dir, w.clock) && Enabled(w, ev)
    requires (ev.Begin? || ev.Go?) && !Replaces(w, ev) && Step(thumb, w, ev).clock <= t
    ensures StartFrom(thumb, Step(thumb, w, ev).dir, t, made).1 == StartFrom(thumb, w.dir, t, made).1
  {
    if ev.Go? {
      hide Inv, GoodThumb, RingOk, FilesOk, DoGo, LoadPublished, Prune;
      var r := DoGo(thumb, w, ev.id, ev.torn);
      GoLeavesRing(thumb, w, ev.id, ev.torn);
      if RING_FILE in w.dir {
        GoKeepsFiles(thumb, w, ev.id, ev.torn);
        QuietGoKeepsDir(thumb, w, ev.id, ev.torn);
        TimePasses(thumb, w.dir, w.clock, t);
        TimePasses(thumb, r.dir, w.clock, t);
        hide StartFrom;
        SameStart(thumb, w.dir, r.dir, t, made);
      }
    }
  }

  /**
   Rotations that stop between any two file operations, however many and however interleaved, leave a
   directory whose next start loads exactly the key set from before, as long as none of them has replaced
   the ring.  Replacing it is a single operation, so there is nothing in between.
   */
  lemma {:induction false} CrashConsistency(thumb: Key -> string, w: World, evs: seq<Event>, t: Time, made: Key)
    requires GoodThumb(thumb) && Inv(thumb, w) && DirOk(thumb, w.dir, w.clock) && ValidRun(thumb, w, evs)
    requires OfRotations(evs) && NoneReplaces(thumb, w, evs) && After(thumb, w, evs).clock <= t
    ensures StartFrom(thumb, After(thumb, w, evs).dir, t, made).1 == StartFrom(thumb, w.dir, t, made).1
    decreases |evs|
  {
    hide Inv, GoodThumb, DirOk, Step, Enabled, StartFrom;
    if evs != [] {
      var w1 := Step(thumb, w, evs[0]);
      assert Orderly(thumb, w, evs[0]);
      StepKeeps(thumb, w, evs[0]);
      OrderlyKeepsDir(thumb, w, evs[0]);
      ClockRun(thumb, w1, evs[1..]);
      LoadsTheSame(thumb, w, evs[0], t, made);
      CrashConsistency(thumb, w1, evs[1..], t, made);
    }
  }

  lemma {:induction false} ClockRun(thumb: Key -> string, w: World, evs: seq<Event>)
    requires ValidRun(thumb, w, evs)
    ensures w.clock <= After(thumb, w, evs).clock
    decreases |evs|
  {
    hide DirAfter, StartFrom, StartUpTo, RingBefore, Further, Lists;
    if evs != [] {
      ClockRun(thumb, Step(thumb, w, evs[0]), evs[1..]);
    }
  }
}
