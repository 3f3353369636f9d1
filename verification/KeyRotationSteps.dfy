/** Every step of every rotation and start keeps the invariant, in every interleaving. */
module KeyRotationSteps {
  import opened Options
  import opened KeyRing
  import opened KeyRingProofs
  import opened KeyRotations

  // ----- names and rings -----

  lemma RingNames(kid: string)
    ensures RING_FILE != RING_TEMP && LEGACY_FILE != RING_FILE && LEGACY_FILE != RING_TEMP
    ensures PemName(kid) !in {RING_FILE, RING_TEMP, LEGACY_FILE} && Temp(PemName(kid)) !in {RING_FILE, RING_TEMP, LEGACY_FILE}
    ensures PemName(kid) != Temp(PemName(kid))
    ensures Temp(LEGACY_FILE) !in {RING_FILE, RING_TEMP, LEGACY_FILE, PemName(kid), Temp(PemName(kid))}
  {
    PemNameFacts(kid);
    PemNamesDiffer(kid, kid);
    assert LEGACY_FILE[0] == 'm' && Temp(LEGACY_FILE)[0] == 'm' && RING_FILE[0] == 'k' && RING_TEMP[0] == 'k';
    assert |RING_TEMP| == |RING_FILE| + 4 && |Temp(LEGACY_FILE)| == |LEGACY_FILE| + 4;
  }

  lemma OtherNames(a: string, b: string)
    requires a != b
    ensures PemName(a) != PemName(b) && Temp(PemName(a)) != Temp(PemName(b))
    ensures PemName(a) != Temp(PemName(b)) && Temp(PemName(a)) != PemName(b)
  {
    PemNamesDiffer(a, b);
    PemNamesDiffer(b, a);
  }

  lemma {:induction false} NewRingLists(thumb: Key -> string, r: Rotation, kid: string)
    ensures Lists(RingOf(thumb, r), kid) <==> Lists(r.read, kid) || kid == thumb(r.key)
  {
    var es, n := RingOf(thumb, r), |r.read|;
    assert forall i :: 0 <= i < n ==> es[i].kid == r.read[i].kid;
    assert es[n].kid == thumb(r.key);
    if Lists(r.read, kid) {
      var i :| 0 <= i < n && r.read[i].kid == kid;
      assert es[i].kid == kid;
    }
  }

  /** A ring tells whose it is: its last entry is the new key. */
  lemma RingTellsKey(thumb: Key -> string, a: Rotation, b: Rotation)
    requires GoodThumb(thumb) && RingOf(thumb, a) == RingOf(thumb, b)
    ensures a.key == b.key
  {
    var es := RingOf(thumb, a);
    assert es[|es| - 1].kid == thumb(a.key) && es[|es| - 1].kid == thumb(b.key);
  }

  lemma RingOfIsOk(thumb: Key -> string, known: set<Key>, r: Rotation)
    requires GoodThumb(thumb) && ReadOk(thumb, known, r)
    ensures RingOk(RingOf(thumb, r))
  {
    hide RingOk;
    assert forall i :: 0 <= i < |r.read| ==> r.read[i].kid != thumb(r.key);
    NewRingOk(r.read, r.at, thumb(r.key));
  }

  /** Who holds a ring has written it. */
  lemma HolderHasWritten(thumb: Key -> string, w: World, id: nat)
    requires GoodThumb(thumb) && Inv(thumb, w) && id in w.begun && w.begun[id].done < 5
    ensures !Holds(thumb, w.dir, RING_FILE, w.begun[id]) && !Holds(thumb, w.dir, RING_TEMP, w.begun[id])
  {
    hide RingOf, ReadsInv, SeenInv, OpenInv, PemInv, LegacyInv, GoodThumb;
    forall name | name in {RING_FILE, RING_TEMP} ensures !Holds(thumb, w.dir, name, w.begun[id]) {
      if Holds(thumb, w.dir, name, w.begun[id]) {
        var i :| i in w.begun && w.begun[i].done >= 5 && Holds(thumb, w.dir, name, w.begun[i]);
        RingTellsKey(thumb, w.begun[i], w.begun[id]);
      }
    }
  }

  // ----- steps that leave both ring files alone -----

  predicate SameFile(dir: Dir, r: Dir, name: string) {
    (name in r <==> name in dir) && (name in dir ==> r[name] == dir[name])
  }

  /** The same rotation, perhaps further on. */
  predicate Later(r: Rotation, s: Rotation) {
    s == r.(done := s.done, open := s.open) && r.done <= s.done <= 6
  }

  /** Rotations may have gone on. */
  ghost predicate GoneOn(w: World, r: World) {
    && r.known == w.known && r.begun.Keys == w.begun.Keys
    && (forall i :: i in w.begun ==> Later(w.begun[i], r.begun[i]))
  }

  lemma LaterSame(thumb: Key -> string, r: Rotation, s: Rotation)
    requires Later(r, s)
    ensures RingOf(thumb, s) == RingOf(thumb, r) && PemOf(thumb, s) == PemOf(thumb, r)
  {
  }

  /** A ring is where it was, has moved from the temporary file to the ring, or has just been written. */
  ghost predicate Moved(thumb: Key -> string, dir: Dir, r: Rotation, dir1: Dir, s: Rotation) {
    && (Holds(thumb, dir1, RING_FILE, s) ==> Holds(thumb, dir, RING_FILE, r) || Holds(thumb, dir, RING_TEMP, r) || r.done == 4)
    && (Holds(thumb, dir1, RING_TEMP, s) ==> Holds(thumb, dir, RING_TEMP, r) || r.done == 4)
    && !(Holds(thumb, dir1, RING_FILE, s) && Holds(thumb, dir1, RING_TEMP, s))
  }

  lemma MovedKeeps(thumb: Key -> string, w: World, r: World)
    requires Inv(thumb, w) && GoneOn(w, r)
    requires RingFileOk(thumb, r, RING_FILE) && RingFileOk(thumb, r, RING_TEMP)
    requires forall i :: i in w.begun ==> Moved(thumb, w.dir, w.begun[i], r.dir, r.begun[i])
    ensures KeysInv(thumb, r) && ReadsInv(thumb, r) && RingsInv(thumb, r) && SeenInv(thumb, r)
  {
    hide OpenInv, PemInv, LegacyInv, RingFileOk, Holds, RingOf, Lists;
    forall i | i in w.begun ensures Later(w.begun[i], r.begun[i]) && ReadOk(thumb, r.known, r.begun[i]) {
      assert ReadOk(thumb, w.known, w.begun[i]);
    }
    forall i, j | i in w.begun && j in w.begun ensures Seen(thumb, r.dir, r.begun[i], r.begun[j]) {
      LaterSame(thumb, w.begun[j], r.begun[j]);
      assert Seen(thumb, w.dir, w.begun[i], w.begun[j]) && Later(w.begun[i], r.begun[i]) && Later(w.begun[j], r.begun[j]);
      assert Moved(thumb, w.dir, w.begun[j], r.dir, r.begun[j]);
    }
  }

  lemma SameHolds(thumb: Key -> string, dir: Dir, r: Rotation, dir1: Dir, s: Rotation, name: string)
    requires Later(r, s) && SameFile(dir, dir1, name)
    ensures Holds(thumb, dir1, name, s) <==> Holds(thumb, dir, name, r)
  {
    LaterSame(thumb, r, s);
    hide RingOf;
  }

  lemma SameFileOk(thumb: Key -> string, w: World, r: World, name: string)
    requires GoneOn(w, r) && RingFileOk(thumb, w, name) && SameFile(w.dir, r.dir, name)
    ensures RingFileOk(thumb, r, name)
  {
    hide RingOf;
    if name in w.dir && !Unreadable(w.dir[name]) {
      var i :| i in w.begun && w.begun[i].done >= 5 && Holds(thumb, w.dir, name, w.begun[i]);
      assert Later(w.begun[i], r.begun[i]);
      SameHolds(thumb, w.dir, w.begun[i], r.dir, r.begun[i], name);
    }
  }

  lemma OnePlace(thumb: Key -> string, w: World, i: nat)
    requires Inv(thumb, w) && i in w.begun
    ensures !(Holds(thumb, w.dir, RING_FILE, w.begun[i]) && Holds(thumb, w.dir, RING_TEMP, w.begun[i]))
  {
    hide KeysInv, ReadsInv, SeenInv, OpenInv, PemInv, LegacyInv, Holds;
  }

  lemma FilesAreOk(thumb: Key -> string, w: World)
    requires Inv(thumb, w)
    ensures RingFileOk(thumb, w, RING_FILE) && RingFileOk(thumb, w, RING_TEMP)
  {
    hide KeysInv, ReadsInv, SeenInv, OpenInv, PemInv, LegacyInv, Holds, RingFileOk;
  }

  /** Steps that leave both ring files alone. */
  lemma QuietKeepsRings(thumb: Key -> string, w: World, r: World)
    requires Inv(thumb, w) && GoneOn(w, r) && SameFile(w.dir, r.dir, RING_FILE) && SameFile(w.dir, r.dir, RING_TEMP)
    ensures KeysInv(thumb, r) && ReadsInv(thumb, r) && RingsInv(thumb, r) && SeenInv(thumb, r)
  {
    hide Inv, Holds, RingFileOk, SameFile;
    FilesAreOk(thumb, w);
    SameFileOk(thumb, w, r, RING_FILE);
    SameFileOk(thumb, w, r, RING_TEMP);
    forall i | i in w.begun ensures Moved(thumb, w.dir, w.begun[i], r.dir, r.begun[i]) {
      assert Later(w.begun[i], r.begun[i]);
      SameHolds(thumb, w.dir, w.begun[i], r.dir, r.begun[i], RING_FILE);
      SameHolds(thumb, w.dir, w.begun[i], r.dir, r.begun[i], RING_TEMP);
      OnePlace(thumb, w, i);
    }
    MovedKeeps(thumb, w, r);
  }

  // ----- the key file -----

  lemma PemChanges(thumb: Key -> string, dir: Dir, r: Rotation, torn: bool, name: string)
    requires r.done < 3 && name != PemOf(thumb, r) && name != Temp(PemOf(thumb, r))
    ensures SameFile(dir, DirAfter(thumb, dir, r, torn), name)
  {
    hide PemOf, Temp;
  }

  lemma PemGoes(thumb: Key -> string, dir: Dir, r: Rotation, torn: bool)
    requires r.done < 3 && PemOk(thumb, dir, r)
    ensures var s, dir1 := Further(thumb, dir, r), DirAfter(thumb, dir, r, torn);
            && Later(r, s) && s.done == r.done + 1 && s.open.None?
            && (s.done == 2 ==> Temp(PemOf(thumb, r)) in dir1 && dir1[Temp(PemOf(thumb, r))] == Pem(r.key))
            && (s.done == 3 ==> PemOf(thumb, r) in dir1 && dir1[PemOf(thumb, r)] == Pem(r.key))
  {
    RingNames(thumb(r.key));
    hide RingOf, Temp, PemName;
  }

  /** A rotation keeps its key file when it does not move, and when it has it in place. */
  lemma PemStays(thumb: Key -> string, dir: Dir, dir1: Dir, r: Rotation, s: Rotation)
    requires PemOk(thumb, dir, r) && Later(r, s) && (s.done == r.done || r.done >= 3)
    requires SameFile(dir, dir1, PemName(thumb(r.key))) && SameFile(dir, dir1, Temp(PemName(thumb(r.key))))
    requires Holds(thumb, dir1, RING_FILE, s) || Holds(thumb, dir1, RING_TEMP, s) ==>
               Holds(thumb, dir, RING_FILE, r) || Holds(thumb, dir, RING_TEMP, r) || 3 <= r.done <= 4
    requires 3 <= s.done <= 4 && s.done != r.done ==> 3 <= r.done <= 4
    ensures PemOk(thumb, dir1, s)
  {
    hide RingOf, Temp, PemName;
  }

  lemma GoPemPem(thumb: Key -> string, w: World, id: nat, torn: bool, i: nat)
    requires GoodThumb(thumb) && Inv(thumb, w) && id in w.begun && w.begun[id].done < 3 && i in w.begun
    ensures var r := DoGo(thumb, w, id, torn); PemOk(thumb, r.dir, r.begun[i])
  {
    hide DirAfter, RingOf, Temp, PemName, Inv, GoodThumb, Holds, Further;
    var q, r := w.begun[id], DoGo(thumb, w, id, torn);
    PemIs(thumb, w, i);
    PemIs(thumb, w, id);
    PemFixed(thumb, w.dir, q, torn);
    if i == id {
      PemGoes(thumb, w.dir, q, torn);
      HolderHasWritten(thumb, w, id);
      SameHolds(thumb, w.dir, q, r.dir, r.begun[i], RING_FILE);
      SameHolds(thumb, w.dir, q, r.dir, r.begun[i], RING_TEMP);
    } else {
      DoneAtMostSix(thumb, w, i);
      SameHolds(thumb, w.dir, w.begun[i], r.dir, r.begun[i], RING_FILE);
      SameHolds(thumb, w.dir, w.begun[i], r.dir, r.begun[i], RING_TEMP);
      DifferentKeys(thumb, w, i, id);
      OtherPem(thumb, w.dir, q, torn, thumb(w.begun[i].key));
      PemStays(thumb, w.dir, r.dir, w.begun[i], r.begun[i]);
    }
  }

  lemma DoneAtMostSix(thumb: Key -> string, w: World, i: nat)
    requires Inv(thumb, w) && i in w.begun
    ensures w.begun[i].done <= 6 && Later(w.begun[i], w.begun[i])
  {
    hide ReadsInv, RingsInv, SeenInv, OpenInv, PemInv, LegacyInv;
  }

  lemma PemIs(thumb: Key -> string, w: World, i: nat)
    requires Inv(thumb, w) && i in w.begun
    ensures PemOk(thumb, w.dir, w.begun[i])
  {
    hide KeysInv, ReadsInv, RingsInv, SeenInv, OpenInv, LegacyInv, PemOk;
  }

  lemma NoTempYet(thumb: Key -> string, w: World, key: Key)
    requires Inv(thumb, w) && key !in w.known
    ensures Temp(PemName(thumb(key))) !in w.dir
  {
    hide KeysInv, ReadsInv, RingsInv, SeenInv, OpenInv, LegacyInv, PemOk;
  }

  lemma GoPemKeeps(thumb: Key -> string, w: World, id: nat, torn: bool)
    requires GoodThumb(thumb) && Inv(thumb, w) && id in w.begun && w.begun[id].done < 3
    ensures Inv(thumb, DoGo(thumb, w, id, torn))
  {
    hide DirAfter, Further, RingOf, PemOf, Temp, PemName, Holds, PemOk, ReadsInv, RingsInv, SeenInv, GoodThumb;
    var q, r := w.begun[id], DoGo(thumb, w, id, torn);
    PemIs(thumb, w, id);
    PemGoes(thumb, w.dir, q, torn);
    PemFixed(thumb, w.dir, q, torn);
    assert GoneOn(w, r);
    QuietKeepsRings(thumb, w, r);
    forall i | i in w.begun ensures PemOk(thumb, r.dir, r.begun[i]) {
      GoPemPem(thumb, w, id, torn, i);
    }
    forall key | key !in w.known ensures Temp(PemName(thumb(key))) !in r.dir {
      FreshKey(thumb, w, id, key);
      NoTempYet(thumb, w, key);
      OtherPem(thumb, w.dir, q, torn, thumb(key));
    }
    assert OpenInv(r);
    assert PemInv(thumb, r);
    assert LegacyInv(r);
  }

  lemma PemFixed(thumb: Key -> string, dir: Dir, r: Rotation, torn: bool)
    requires r.done < 3
    ensures var dir1 := DirAfter(thumb, dir, r, torn);
            SameFile(dir, dir1, RING_FILE) && SameFile(dir, dir1, RING_TEMP) && SameFile(dir, dir1, LEGACY_FILE)
  {
    RingNames(thumb(r.key));
    hide DirAfter;
    PemChanges(thumb, dir, r, torn, RING_FILE);
    PemChanges(thumb, dir, r, torn, RING_TEMP);
    PemChanges(thumb, dir, r, torn, LEGACY_FILE);
  }

  lemma OtherPem(thumb: Key -> string, dir: Dir, r: Rotation, torn: bool, kid: string)
    requires r.done < 3 && kid != thumb(r.key)
    ensures SameFile(dir, DirAfter(thumb, dir, r, torn), PemName(kid))
    ensures SameFile(dir, DirAfter(thumb, dir, r, torn), Temp(PemName(kid)))
  {
    hide DirAfter;
    OtherNames(kid, thumb(r.key));
    PemChanges(thumb, dir, r, torn, PemName(kid));
    PemChanges(thumb, dir, r, torn, Temp(PemName(kid)));
  }

  lemma DifferentKeys(thumb: Key -> string, w: World, i: nat, j: nat)
    requires GoodThumb(thumb) && Inv(thumb, w) && i in w.begun && j in w.begun && i != j
    ensures thumb(w.begun[i].key) != thumb(w.begun[j].key)
  {
    hide ReadsInv, RingsInv, SeenInv, OpenInv, PemInv, LegacyInv;
  }

  lemma FreshKey(thumb: Key -> string, w: World, id: nat, key: Key)
    requires GoodThumb(thumb) && Inv(thumb, w) && id in w.begun && key !in w.known
    ensures thumb(key) != thumb(w.begun[id].key)
  {
    hide ReadsInv, RingsInv, SeenInv, OpenInv, PemInv, LegacyInv;
  }

  // ----- the ring file -----

  /** Nothing but the two ring files has changed. */
  ghost predicate OnlyRings(dir: Dir, dir1: Dir) {
    forall name :: name != RING_FILE && name != RING_TEMP ==> SameFile(dir, dir1, name)
  }

  lemma RingOpTouches(thumb: Key -> string, dir: Dir, r: Rotation, torn: bool)
    requires 3 <= r.done < 6 && (r.open.Some? ==> r.open.value in {RING_FILE, RING_TEMP})
    ensures OnlyRings(dir, DirAfter(thumb, dir, r, torn))
  {
    hide RingOf, Temp;
  }

  /** What else the invariant says, when rings have moved. */
  lemma RestKeeps(thumb: Key -> string, w: World, r: World)
    requires Inv(thumb, w) && GoneOn(w, r) && OnlyRings(w.dir, r.dir) && (RING_FILE in w.dir ==> RING_FILE in r.dir)
    requires forall i :: i in w.begun ==> Moved(thumb, w.dir, w.begun[i], r.dir, r.begun[i])
    requires forall i :: i in w.begun ==> w.begun[i].done == r.begun[i].done || w.begun[i].done >= 3
    ensures PemInv(thumb, r) && LegacyInv(r)
  {
    hide Holds, KeysInv, ReadsInv, RingsInv, SeenInv, OpenInv, PemOk, PemName, Temp, SameFile, OnlyRings;
    RingNames("");
    forall i | i in w.begun ensures PemOk(thumb, r.dir, r.begun[i]) {
      RestPem(thumb, w, r, i);
    }
    forall key | key !in r.known ensures Temp(PemName(thumb(key))) !in r.dir {
      RingNames(thumb(key));
      NoTempYet(thumb, w, key);
      SameName(w.dir, r.dir, Temp(PemName(thumb(key))));
    }
    SameName(w.dir, r.dir, LEGACY_FILE);
  }

  lemma SameName(dir: Dir, dir1: Dir, name: string)
    requires OnlyRings(dir, dir1) && name != RING_FILE && name != RING_TEMP
    ensures SameFile(dir, dir1, name) && (name in dir1 <==> name in dir) && (name in dir ==> dir1[name] == dir[name])
  {
  }

  lemma RestPem(thumb: Key -> string, w: World, r: World, i: nat)
    requires Inv(thumb, w) && GoneOn(w, r) && OnlyRings(w.dir, r.dir) && i in w.begun
    requires Moved(thumb, w.dir, w.begun[i], r.dir, r.begun[i])
    requires w.begun[i].done == r.begun[i].done || w.begun[i].done >= 3
    ensures PemOk(thumb, r.dir, r.begun[i])
  {
    hide Inv, Holds, PemOk, PemName, Temp, SameFile, OnlyRings;
    PemIs(thumb, w, i);
    RingNames(thumb(w.begun[i].key));
    assert Later(w.begun[i], r.begun[i]);
    SameName(w.dir, r.dir, PemName(thumb(w.begun[i].key)));
    SameName(w.dir, r.dir, Temp(PemName(thumb(w.begun[i].key))));
    PemStays(thumb, w.dir, r.dir, w.begun[i], r.begun[i]);
  }

  /** The open file of a rotation is one of the two, and there. */
  lemma OpenIs(thumb: Key -> string, w: World, i: nat)
    requires Inv(thumb, w) && i in w.begun && w.begun[i].open.Some?
    ensures w.begun[i].done == 4 && w.begun[i].open.value in {RING_TEMP, RING_FILE} && w.begun[i].open.value in w.dir
  {
    hide KeysInv, ReadsInv, RingsInv, SeenInv, PemInv, LegacyInv;
  }

  lemma EmptyHoldsNothing(thumb: Key -> string, dir: Dir, name: string, r: Rotation)
    requires name in dir && Unreadable(dir[name])
    ensures !Holds(thumb, dir, name, r)
  {
  }

  /** Opening the temporary file empties it. */
  lemma GoOpenKeeps(thumb: Key -> string, w: World, id: nat, torn: bool)
    requires GoodThumb(thumb) && Inv(thumb, w) && id in w.begun && w.begun[id].done == 3
    ensures Inv(thumb, DoGo(thumb, w, id, torn))
  {
    hide KeysInv, ReadsInv, RingsInv, SeenInv, PemInv, LegacyInv, Holds, RingOf, PemOf, Temp, OnlyRings, GoodThumb;
    var q, r := w.begun[id], DoGo(thumb, w, id, torn);
    RingNames("");
    assert q.open.None?;
    RingOpTouches(thumb, w.dir, q, torn);
    assert SameFile(w.dir, r.dir, RING_FILE) && RING_TEMP in r.dir && r.dir[RING_TEMP] == Empty;
    forall i | i in w.begun ensures Later(w.begun[i], r.begun[i]) {
      DoneAtMostSix(thumb, w, i);
    }
    FilesAreOk(thumb, w);
    SameFileOk(thumb, w, r, RING_FILE);
    forall i | i in w.begun ensures Moved(thumb, w.dir, w.begun[i], r.dir, r.begun[i]) {
      SameHolds(thumb, w.dir, w.begun[i], r.dir, r.begun[i], RING_FILE);
      EmptyHoldsNothing(thumb, r.dir, RING_TEMP, r.begun[i]);
    }
    MovedKeeps(thumb, w, r);
    RestKeeps(thumb, w, r);
    assert OpenInv(r);
  }

  /** Writing puts the rotation's ring, or nothing readable, where its open file is now. */
  lemma GoWriteMoves(thumb: Key -> string, w: World, id: nat, torn: bool, i: nat)
    requires GoodThumb(thumb) && Inv(thumb, w) && id in w.begun && w.begun[id].done == 4 && i in w.begun
    ensures var r := DoGo(thumb, w, id, torn);
            Later(w.begun[i], r.begun[i]) && Moved(thumb, w.dir, w.begun[i], r.dir, r.begun[i])
  {
    hide Inv, RingOf, PemOf, Temp, GoodThumb;
    RingNames("");
    DoneAtMostSix(thumb, w, i);
    OnePlace(thumb, w, i);
    HolderHasWritten(thumb, w, id);
    var q, r := w.begun[id], DoGo(thumb, w, id, torn);
    LaterSame(thumb, q, r.begun[id]);
    if q.open.Some? {
      OpenIs(thumb, w, id);
      if i != id && RingOf(thumb, w.begun[i]) == RingOf(thumb, q) {
        RingTellsKey(thumb, w.begun[i], q);
        DifferentKeys(thumb, w, i, id);
      }
    }
  }

  lemma GoWriteFile(thumb: Key -> string, w: World, id: nat, torn: bool, name: string)
    requires Inv(thumb, w) && id in w.begun && w.begun[id].done == 4 && name in {RING_FILE, RING_TEMP}
    requires GoneOn(w, DoGo(thumb, w, id, torn))
    ensures RingFileOk(thumb, DoGo(thumb, w, id, torn), name)
  {
    hide Inv, RingOf, PemOf, Temp;
    FilesAreOk(thumb, w);
    var q, r := w.begun[id], DoGo(thumb, w, id, torn);
    LaterSame(thumb, q, r.begun[id]);
    if q.open == Some(name) {
      assert r.begun[id].done == 5;
    } else {
      SameFileOk(thumb, w, r, name);
    }
  }

  lemma GoWriteKeeps(thumb: Key -> string, w: World, id: nat, torn: bool)
    requires GoodThumb(thumb) && Inv(thumb, w) && id in w.begun && w.begun[id].done == 4
    ensures Inv(thumb, DoGo(thumb, w, id, torn))
  {
    hide KeysInv, ReadsInv, RingsInv, SeenInv, PemInv, LegacyInv, Holds, RingOf, PemOf, Temp, OnlyRings, GoodThumb, Moved, RingFileOk;
    var q, r := w.begun[id], DoGo(thumb, w, id, torn);
    RingNames("");
    if q.open.Some? {
      OpenIs(thumb, w, id);
    }
    RingOpTouches(thumb, w.dir, q, torn);
    forall i | i in w.begun
      ensures Later(w.begun[i], r.begun[i]) && Moved(thumb, w.dir, w.begun[i], r.dir, r.begun[i])
    {
      GoWriteMoves(thumb, w, id, torn, i);
    }
    assert GoneOn(w, r);
    GoWriteFile(thumb, w, id, torn, RING_FILE);
    GoWriteFile(thumb, w, id, torn, RING_TEMP);
    MovedKeeps(thumb, w, r);
    RestKeeps(thumb, w, r);
    assert OpenInv(r);
  }

  /** Renaming puts in place whatever the temporary file holds. */
  lemma GoRenameMoves(thumb: Key -> string, w: World, id: nat, torn: bool, i: nat)
    requires GoodThumb(thumb) && Inv(thumb, w) && id in w.begun && Renames(w.dir, w.begun[id]) && i in w.begun
    ensures var r := DoGo(thumb, w, id, torn);
            && Later(w.begun[i], r.begun[i]) && (w.begun[i].done == r.begun[i].done || i == id)
            && (Holds(thumb, r.dir, RING_FILE, r.begun[i]) <==> Holds(thumb, w.dir, RING_TEMP, w.begun[i]))
            && !Holds(thumb, r.dir, RING_TEMP, r.begun[i])
  {
    hide Inv, RingOf, PemOf, Temp, GoodThumb;
    RingNames("");
    DoneAtMostSix(thumb, w, i);
    var r := DoGo(thumb, w, id, torn);
    LaterSame(thumb, w.begun[i], r.begun[i]);
  }

  lemma GoRenameFile(thumb: Key -> string, w: World, id: nat, torn: bool)
    requires GoodThumb(thumb) && Inv(thumb, w) && id in w.begun && Renames(w.dir, w.begun[id])
    ensures var r := DoGo(thumb, w, id, torn); RingFileOk(thumb, r, RING_FILE) && RING_TEMP !in r.dir
  {
    hide Inv, RingOf, PemOf, Temp, GoodThumb, Holds;
    RingNames("");
    FilesAreOk(thumb, w);
    var r := DoGo(thumb, w, id, torn);
    if !Unreadable(w.dir[RING_TEMP]) {
      var i :| i in w.begun && w.begun[i].done >= 5 && Holds(thumb, w.dir, RING_TEMP, w.begun[i]);
      GoRenameMoves(thumb, w, id, torn, i);
    }
  }

  lemma GoRenameKeeps(thumb: Key -> string, w: World, id: nat, torn: bool)
    requires GoodThumb(thumb) && Inv(thumb, w) && id in w.begun && Renames(w.dir, w.begun[id])
    ensures Inv(thumb, DoGo(thumb, w, id, torn))
  {
    hide KeysInv, ReadsInv, RingsInv, SeenInv, PemInv, LegacyInv, Holds, RingOf, PemOf, Temp, OnlyRings, GoodThumb;
    var q, r := w.begun[id], DoGo(thumb, w, id, torn);
    RingNames("");
    assert q.open.None?;
    RingOpTouches(thumb, w.dir, q, torn);
    forall i | i in w.begun
      ensures Later(w.begun[i], r.begun[i]) && Moved(thumb, w.dir, w.begun[i], r.dir, r.begun[i])
      ensures w.begun[i].done == r.begun[i].done || w.begun[i].done >= 3
    {
      GoRenameMoves(thumb, w, id, torn, i);
    }
    assert GoneOn(w, r);
    GoRenameFile(thumb, w, id, torn);
    MovedKeeps(thumb, w, r);
    RestKeeps(thumb, w, r);
    assert OpenInv(r);
  }

  /** Without the temporary file the rename fails. */
  lemma GoFailKeeps(thumb: Key -> string, w: World, id: nat, torn: bool)
    requires GoodThumb(thumb) && Inv(thumb, w) && id in w.begun && w.begun[id].done == 5 && RING_TEMP !in w.dir
    ensures Inv(thumb, DoGo(thumb, w, id, torn))
  {
    hide KeysInv, ReadsInv, RingsInv, SeenInv, PemInv, LegacyInv, Holds, RingOf, PemOf, Temp, OnlyRings, GoodThumb;
    var q, r := w.begun[id], DoGo(thumb, w, id, torn);
    assert r.dir == w.dir && q.open.None?;
    RingOpTouches(thumb, w.dir, q, torn);
    forall i | i in w.begun ensures Later(w.begun[i], r.begun[i]) && Moved(thumb, w.dir, w.begun[i], r.dir, r.begun[i]) {
      DoneAtMostSix(thumb, w, i);
      SameHolds(thumb, w.dir, w.begun[i], r.dir, r.begun[i], RING_FILE);
      SameHolds(thumb, w.dir, w.begun[i], r.dir, r.begun[i], RING_TEMP);
      OnePlace(thumb, w, i);
    }
    QuietKeepsRings(thumb, w, r);
    RestKeeps(thumb, w, r);
    assert OpenInv(r);
  }

  lemma GoKeeps(thumb: Key -> string, w: World, id: nat, torn: bool)
    requires GoodThumb(thumb) && Inv(thumb, w) && id in w.begun && w.begun[id].done < 6
    ensures Inv(thumb, DoGo(thumb, w, id, torn))
  {
    hide Inv, DoGo, GoodThumb;
    var done := w.begun[id].done;
    if done < 3 {
      GoPemKeeps(thumb, w, id, torn);
    } else if done == 3 {
      GoOpenKeeps(thumb, w, id, torn);
    } else if done == 4 {
      GoWriteKeeps(thumb, w, id, torn);
    } else if RING_TEMP in w.dir {
      GoRenameKeeps(thumb, w, id, torn);
    } else {
      GoFailKeeps(thumb, w, id, torn);
    }
  }

  // ----- a rotation begins -----

  /** The ring in place is that of the rotation that wrote it. */
  lemma CurrentRing(thumb: Key -> string, w: World) returns (c: nat)
    requires GoodThumb(thumb) && Inv(thumb, w) && RING_FILE in w.dir && !Unreadable(w.dir[RING_FILE])
    ensures c in w.begun && w.begun[c].done >= 5 && Holds(thumb, w.dir, RING_FILE, w.begun[c])
    ensures RingOk(RingOf(thumb, w.begun[c]))
  {
    hide RingOf, GoodThumb, RingOk;
    FilesAreOk(thumb, w);
    c :| c in w.begun && w.begun[c].done >= 5 && Holds(thumb, w.dir, RING_FILE, w.begun[c]);
    ReadIs(thumb, w, c);
    RingOfIsOk(thumb, w.known, w.begun[c]);
  }

  lemma ReadIs(thumb: Key -> string, w: World, i: nat)
    requires Inv(thumb, w) && i in w.begun
    ensures ReadOk(thumb, w.known, w.begun[i]) && w.begun[i].key in w.known
  {
    hide RingsInv, SeenInv, PemInv, LegacyInv, OpenInv, ReadOk;
  }

  lemma SeenIs(thumb: Key -> string, w: World, i: nat, j: nat)
    requires Inv(thumb, w) && i in w.begun && j in w.begun
    ensures Seen(thumb, w.dir, w.begun[i], w.begun[j])
  {
    hide RingsInv, KeysInv, ReadsInv, PemInv, LegacyInv, OpenInv, Seen;
  }

  lemma LegacyBase()
    ensures BaseOk([LEGACY_ENTRY]) && BaseOk([])
    ensures forall kid :: Lists([LEGACY_ENTRY], kid) <==> kid == LEGACY_KID
  {
    assert EntryOk([LEGACY_ENTRY], 0);
    assert [LEGACY_ENTRY][0].kid == LEGACY_KID;
  }

  /** What can be read is a ring made of known keys. */
  lemma ReadableRing(thumb: Key -> string, w: World, key: Key)
    requires GoodThumb(thumb) && Inv(thumb, w) && RingBefore(w.dir).Some? && key !in w.known
    ensures BaseOk(RingBefore(w.dir).value) && !Lists(RingBefore(w.dir).value, thumb(key))
  {
    hide Inv, RingOf, RingOk, Lists;
    if RING_FILE in w.dir {
      var c := CurrentRing(thumb, w);
      ReadIs(thumb, w, c);
      NewRingLists(thumb, w.begun[c], thumb(key));
    } else {
      LegacyBase();
      NothingListed(thumb(key));
    }
  }

  lemma NothingListed(kid: string)
    ensures !Lists([], kid)
  {
  }

  /** The reader of the ring in place has seen what it lists as it is. */
  lemma ReaderSees(thumb: Key -> string, w: World, reader: Rotation, j: nat)
    requires GoodThumb(thumb) && Inv(thumb, w) && RingBefore(w.dir) == Some(reader.read) && j in w.begun
    ensures Seen(thumb, w.dir, reader, w.begun[j])
  {
    hide Inv, RingOf, RingOk, Lists, Holds;
    if RING_FILE in w.dir {
      var c := CurrentRing(thumb, w);
      HeldRing(thumb, w.dir, w.begun[c]);
      NewRingLists(thumb, w.begun[c], thumb(w.begun[j].key));
      OnePlace(thumb, w, c);
      if Lists(w.begun[c].read, thumb(w.begun[j].key)) {
        SeenIs(thumb, w, c, j);
        if Holds(thumb, w.dir, RING_FILE, w.begun[j]) {
          SameRing(thumb, w, c, j);
          ReadIs(thumb, w, c);
        }
      } else if j != c {
        DifferentKeys(thumb, w, c, j);
      }
    } else {
      LegacyBase();
      NothingListed(thumb(w.begun[j].key));
    }
  }

  lemma HeldRing(thumb: Key -> string, dir: Dir, r: Rotation)
    requires Holds(thumb, dir, RING_FILE, r)
    ensures RingBefore(dir) == Some(RingOf(thumb, r))
  {
  }

  /** A file holds one rotation's ring. */
  lemma SameRing(thumb: Key -> string, w: World, i: nat, j: nat)
    requires GoodThumb(thumb) && Inv(thumb, w) && i in w.begun && j in w.begun
    requires Holds(thumb, w.dir, RING_FILE, w.begun[i]) && Holds(thumb, w.dir, RING_FILE, w.begun[j])
    ensures i == j
  {
    hide Inv, RingOf, GoodThumb;
    RingTellsKey(thumb, w.begun[i], w.begun[j]);
    if i != j {
      DifferentKeys(thumb, w, i, j);
    }
  }

  lemma BeginKeeps(thumb: Key -> string, w: World, id: nat, now: Time, retention: Time, key: Key)
    requires GoodThumb(thumb) && Inv(thumb, w) && id !in w.begun && key !in w.known
    ensures Inv(thumb, DoBegin(thumb, w, id, now, retention, key))
  {
    hide Lists, Holds, RingOf, GoodThumb, RingFileOk, RingBefore, ReadsInv, SeenInv, PemInv, LegacyInv, RingsInv;
    var r := DoBegin(thumb, w, id, now, retention, key);
    BeginSeen(thumb, w, id, now, retention, key);
    BeginReads(thumb, w, id, now, retention, key);
    BeginPems(thumb, w, id, now, retention, key);
    BeginLegacy(thumb, w, id, now, retention, key);
    if id in r.begun {
      BeginFiles(thumb, w, r, id);
    } else {
      MoreKnown(thumb, w, now, key);
    }
  }

  lemma BeginLegacy(thumb: Key -> string, w: World, id: nat, now: Time, retention: Time, key: Key)
    requires Inv(thumb, w) && id !in w.begun
    ensures LegacyInv(DoBegin(thumb, w, id, now, retention, key))
  {
    hide KeysInv, ReadsInv, RingsInv, SeenInv, PemInv, OpenInv, Lists;
  }

  lemma BeginReads(thumb: Key -> string, w: World, id: nat, now: Time, retention: Time, key: Key)
    requires GoodThumb(thumb) && Inv(thumb, w) && id !in w.begun && key !in w.known
    ensures ReadsInv(thumb, DoBegin(thumb, w, id, now, retention, key))
  {
    hide Inv, Lists, BaseOk, GoodThumb, RingBefore;
    var r := DoBegin(thumb, w, id, now, retention, key);
    forall i | i in r.begun ensures ReadOk(thumb, r.known, r.begun[i]) {
      if i in w.begun {
        ReadIs(thumb, w, i);
      } else {
        ReadableRing(thumb, w, key);
        forall k | k !in r.known ensures !Lists(r.begun[i].read, thumb(k)) {
          ReadableRing(thumb, w, k);
        }
      }
    }
  }

  lemma BeginSeen(thumb: Key -> string, w: World, id: nat, now: Time, retention: Time, key: Key)
    requires GoodThumb(thumb) && Inv(thumb, w) && id !in w.begun && key !in w.known
    ensures SeenInv(thumb, DoBegin(thumb, w, id, now, retention, key))
  {
    hide Inv, Lists, Holds, GoodThumb, RingBefore, RingOf;
    var r := DoBegin(thumb, w, id, now, retention, key);
    forall i, j | i in r.begun && j in r.begun ensures Seen(thumb, r.dir, r.begun[i], r.begun[j]) {
      if i in w.begun && j in w.begun {
        SeenIs(thumb, w, i, j);
      } else if j in w.begun {
        ReaderSees(thumb, w, r.begun[i], j);
      } else if i in w.begun {
        ReadIs(thumb, w, i);
      } else {
        ReadableRing(thumb, w, key);
      }
    }
  }

  lemma BeginFiles(thumb: Key -> string, w: World, r: World, id: nat)
    requires GoodThumb(thumb) && Inv(thumb, w) && r.dir == w.dir && id in r.begun && id !in w.begun
    requires r.begun == w.begun[id := r.begun[id]] && r.begun[id].key !in w.known
    ensures RingsInv(thumb, r)
  {
    hide KeysInv, ReadsInv, SeenInv, OpenInv, PemInv, LegacyInv, Holds, RingOf, GoodThumb;
    forall name | name in {RING_FILE, RING_TEMP} ensures !Holds(thumb, r.dir, name, r.begun[id]) {
      NewHoldsNothing(thumb, w, r.begun[id], name);
    }
    MoreBegun(thumb, w, r, RING_FILE);
    MoreBegun(thumb, w, r, RING_TEMP);
  }

  lemma MoreBegun(thumb: Key -> string, w: World, r: World, name: string)
    requires RingFileOk(thumb, w, name) && r.dir == w.dir && forall i :: i in w.begun ==> i in r.begun && r.begun[i] == w.begun[i]
    ensures RingFileOk(thumb, r, name)
  {
    if name in w.dir && !Unreadable(w.dir[name]) {
      var i :| i in w.begun && w.begun[i].done >= 5 && Holds(thumb, w.dir, name, w.begun[i]);
      assert i in r.begun && Holds(thumb, r.dir, name, r.begun[i]);
    }
  }

  lemma NewHoldsNothing(thumb: Key -> string, w: World, r: Rotation, name: string)
    requires GoodThumb(thumb) && Inv(thumb, w) && r.key !in w.known && name in {RING_FILE, RING_TEMP}
    ensures !Holds(thumb, w.dir, name, r)
  {
    hide Inv, RingOf, GoodThumb;
    FilesAreOk(thumb, w);
    if Holds(thumb, w.dir, name, r) {
      var i :| i in w.begun && w.begun[i].done >= 5 && Holds(thumb, w.dir, name, w.begun[i]);
      RingTellsKey(thumb, w.begun[i], r);
      ReadIs(thumb, w, i);
    }
  }

  lemma BeginPems(thumb: Key -> string, w: World, id: nat, now: Time, retention: Time, key: Key)
    requires GoodThumb(thumb) && Inv(thumb, w) && id !in w.begun && key !in w.known
    ensures PemInv(thumb, DoBegin(thumb, w, id, now, retention, key))
  {
    hide Inv, Lists, Holds, GoodThumb, RingBefore, RingOf, Temp, PemName;
    var r := DoBegin(thumb, w, id, now, retention, key);
    NoTempYet(thumb, w, key);
    forall i | i in r.begun ensures PemOk(thumb, r.dir, r.begun[i]) {
      if i in w.begun {
        PemIs(thumb, w, i);
      } else {
        NewHoldsNothing(thumb, w, r.begun[i], RING_FILE);
        NewHoldsNothing(thumb, w, r.begun[i], RING_TEMP);
      }
    }
    forall k | k !in r.known ensures Temp(PemName(thumb(k))) !in r.dir {
      NoTempYet(thumb, w, k);
    }
  }

  // ----- starts -----

  /** Files that are due for removal belong to keys that every rotation in progress knows to be retiring. */
  lemma DueFile(thumb: Key -> string, w: World, now: Time, file: string)
    requires GoodThumb(thumb) && Inv(thumb, w) && RING_FILE in w.dir && w.dir[RING_FILE].Ring?
    requires file in GoneFiles(w.dir[RING_FILE].entries, now)
    ensures file !in {RING_FILE, RING_TEMP} && forall kid :: file != Temp(PemName(kid))
    ensures forall i :: i in w.begun && file == PemOf(thumb, w.begun[i]) ==>
              && w.begun[i].done >= 5 && !Holds(thumb, w.dir, RING_TEMP, w.begun[i])
              && !Holds(thumb, w.dir, RING_FILE, w.begun[i])
  {
    hide Inv, Holds, PemName, Temp;
    var c := CurrentRing(thumb, w);
    HeldRing(thumb, w.dir, w.begun[c]);
    var es := RingOf(thumb, w.begun[c]);
    var k :| 0 <= k < |es| && HorizonPassed(es[k], now) && es[k].file == file;
    assert EntryOk(es, k);
    RingNames(es[k].kid);
    forall kid ensures file != Temp(PemName(kid)) {
      RingNames(kid);
      PemNamesDiffer(kid, es[k].kid);
    }
    forall i | i in w.begun && file == PemOf(thumb, w.begun[i])
      ensures w.begun[i].done >= 5 && !Holds(thumb, w.dir, RING_TEMP, w.begun[i]) && !Holds(thumb, w.dir, RING_FILE, w.begun[i])
    {
      DueKey(thumb, w, c, k, i, now);
    }
  }

  lemma DueKey(thumb: Key -> string, w: World, c: nat, k: nat, i: nat, now: Time)
    requires GoodThumb(thumb) && Inv(thumb, w) && c in w.begun && Holds(thumb, w.dir, RING_FILE, w.begun[c])
    requires k < |RingOf(thumb, w.begun[c])| && HorizonPassed(RingOf(thumb, w.begun[c])[k], now) && i in w.begun
    requires RingOf(thumb, w.begun[c])[k].file == PemOf(thumb, w.begun[i]) && EntryOk(RingOf(thumb, w.begun[c]), k)
    ensures w.begun[i].done >= 5 && !Holds(thumb, w.dir, RING_TEMP, w.begun[i]) && !Holds(thumb, w.dir, RING_FILE, w.begun[i])
  {
    hide Inv, Holds, PemName;
    var e, read := RingOf(thumb, w.begun[c])[k], w.begun[c].read;
    assert k < |read| && e == Retire(read[k], w.begun[c].at);
    PemNameFacts(thumb(w.begun[i].key));
    PemNamesDiffer(e.kid, thumb(w.begun[i].key));
    assert read[k].kid == thumb(w.begun[i].key);
    assert Lists(read, thumb(w.begun[i].key));
    SeenIs(thumb, w, c, i);
    if Holds(thumb, w.dir, RING_FILE, w.begun[i]) {
      SameRing(thumb, w, c, i);
      ReadIs(thumb, w, c);
    }
  }

  /** Removing files that are due keeps the invariant. */
  lemma PruneKeepsInv(thumb: Key -> string, w: World, now: Time, gone: set<string>, key: Key)
    requires GoodThumb(thumb) && Inv(thumb, w) && RING_FILE in w.dir && w.dir[RING_FILE].Ring?
    requires gone <= GoneFiles(w.dir[RING_FILE].entries, now)
    ensures Inv(thumb, w.(clock := now, dir := w.dir - gone, known := w.known + {key}))
  {
    hide Holds, RingOf, GoneFiles, Temp, PemName, Lists, PemOf, GoodThumb, RingFileOk, Seen, PemOk;
    var r := w.(clock := now, dir := w.dir - gone, known := w.known + {key});
    forall file | file in gone ensures file !in {RING_FILE, RING_TEMP} {
      DueFile(thumb, w, now, file);
    }
    forall i | i in w.begun
      ensures forall name :: name in {RING_FILE, RING_TEMP} ==>
                (Holds(thumb, r.dir, name, w.begun[i]) <==> Holds(thumb, w.dir, name, w.begun[i]))
    {
      DoneAtMostSix(thumb, w, i);
      SameHolds(thumb, w.dir, w.begun[i], r.dir, w.begun[i], RING_FILE);
      SameHolds(thumb, w.dir, w.begun[i], r.dir, w.begun[i], RING_TEMP);
    }
    WiderKeeps(thumb, w, r);
    forall i | i in w.begun ensures PemOk(thumb, r.dir, r.begun[i]) {
      PrunePem(thumb, w, now, gone, i);
    }
    forall k | k !in r.known ensures Temp(PemName(thumb(k))) !in r.dir {
      NoTempYet(thumb, w, k);
    }
    assert OpenInv(r);
  }

  lemma PrunePem(thumb: Key -> string, w: World, now: Time, gone: set<string>, i: nat)
    requires GoodThumb(thumb) && Inv(thumb, w) && RING_FILE in w.dir && w.dir[RING_FILE].Ring? && i in w.begun
    requires gone <= GoneFiles(w.dir[RING_FILE].entries, now)
    ensures PemOk(thumb, w.dir - gone, w.begun[i])
  {
    hide Inv, RingOf, GoneFiles, Temp, PemName, PemOf, GoodThumb;
    PemIs(thumb, w, i);
    PemIsName(thumb, w.begun[i]);
    if PemOf(thumb, w.begun[i]) in gone {
      DueFile(thumb, w, now, PemOf(thumb, w.begun[i]));
    }
    if Temp(PemOf(thumb, w.begun[i])) in gone {
      DueFile(thumb, w, now, Temp(PemOf(thumb, w.begun[i])));
    }
  }

  lemma PemIsName(thumb: Key -> string, r: Rotation)
    ensures PemOf(thumb, r) == PemName(thumb(r.key))
  {
  }

  /** More keys may be known, as long as the rings stay where they are. */
  lemma WiderKeeps(thumb: Key -> string, w: World, r: World)
    requires Inv(thumb, w) && r.begun == w.begun && w.known <= r.known
    requires SameFile(w.dir, r.dir, RING_FILE) && SameFile(w.dir, r.dir, RING_TEMP)
    ensures KeysInv(thumb, r) && ReadsInv(thumb, r) && RingsInv(thumb, r) && SeenInv(thumb, r)
  {
    hide Holds, RingFileOk, PemInv, LegacyInv, OpenInv, BaseOk, Lists, RingOf;
    var r1 := r.(known := w.known);
    forall i | i in w.begun ensures Later(w.begun[i], r1.begun[i]) {
      DoneAtMostSix(thumb, w, i);
    }
    QuietKeepsRings(thumb, w, r1);
    forall i | i in r.begun ensures ReadOk(thumb, r.known, r.begun[i]) {
      ReadIs(thumb, w, i);
    }
    SameWorldFile(thumb, r1, r, RING_FILE);
    SameWorldFile(thumb, r1, r, RING_TEMP);
  }

  lemma SameWorldFile(thumb: Key -> string, w: World, r: World, name: string)
    requires r == w.(known := r.known) && RingFileOk(thumb, w, name)
    ensures RingFileOk(thumb, r, name)
  {
  }

  /** Creating the legacy key, or beginning to, where there is neither ring nor key. */
  lemma FirstKeyKeeps(thumb: Key -> string, w: World, now: Time, dir: Dir, key: Key)
    requires GoodThumb(thumb) && Inv(thumb, w) && RING_FILE !in w.dir && LEGACY_FILE !in w.dir
    requires forall name :: name != LEGACY_FILE && name != Temp(LEGACY_FILE) ==> SameFile(w.dir, dir, name)
    requires LEGACY_FILE in dir ==> dir[LEGACY_FILE].Pem?
    ensures Inv(thumb, w.(clock := now, dir := dir, known := w.known + {key}))
  {
    hide Holds, RingOf, Temp, PemName, Lists, GoodThumb, RingFileOk, Seen, PemOk, PemOf;
    RingNames("");
    var r := w.(clock := now, dir := dir, known := w.known + {key});
    WiderKeeps(thumb, w, r);
    forall i | i in w.begun ensures PemOk(thumb, r.dir, r.begun[i]) {
      PemIs(thumb, w, i);
      DoneAtMostSix(thumb, w, i);
      RingNames(thumb(w.begun[i].key));
      SameHolds(thumb, w.dir, w.begun[i], dir, w.begun[i], RING_FILE);
      SameHolds(thumb, w.dir, w.begun[i], dir, w.begun[i], RING_TEMP);
      PemStays(thumb, w.dir, dir, w.begun[i], w.begun[i]);
    }
    forall k | k !in r.known ensures Temp(PemName(thumb(k))) !in r.dir {
      NoTempYet(thumb, w, k);
      RingNames(thumb(k));
      assert SameFile(w.dir, dir, Temp(PemName(thumb(k))));
    }
    assert OpenInv(r);
  }

  /** A start, finished or not, removes files that are due, or makes the first key. */
  lemma StartKeeps(thumb: Key -> string, w: World, ev: Event)
    requires GoodThumb(thumb) && Inv(thumb, w) && Enabled(w, ev) && (ev.Start? || ev.CrashedStart?)
    ensures Inv(thumb, Step(thumb, w, ev))
  {
    hide Inv, GoodThumb, Prune, LoadPublished;
    var r := Step(thumb, w, ev);
    if RING_FILE in w.dir && w.dir[RING_FILE].Ring? {
      var c := CurrentRing(thumb, w);
      var gone := StartGone(w.dir, ev, thumb);
      PruneKeepsInv(thumb, w, ev.now, gone, ev.key);
    } else if RING_FILE !in w.dir && LEGACY_FILE !in w.dir {
      RingNames("");
      FirstKeyKeeps(thumb, w, ev.now, r.dir, ev.key);
    } else {
      MoreKnown(thumb, w, ev.now, ev.key);
    }
  }

  lemma MoreKnown(thumb: Key -> string, w: World, now: Time, key: Key)
    requires GoodThumb(thumb) && Inv(thumb, w)
    ensures Inv(thumb, w.(clock := now, known := w.known + {key}))
  {
    hide Holds, RingOf, Temp, PemName, Lists, GoodThumb, RingFileOk, Seen, PemOk, PemOf;
    WiderKeeps(thumb, w, w.(clock := now, known := w.known + {key}));
  }

  /** The files that a start has removed from a directory with a good ring. */
  lemma StartGone(dir: Dir, ev: Event, thumb: Key -> string) returns (gone: set<string>)
    requires RING_FILE in dir && dir[RING_FILE].Ring? && RingOk(dir[RING_FILE].entries) && (ev.Start? || ev.CrashedStart?)
    ensures gone <= GoneFiles(dir[RING_FILE].entries, ev.now)
    ensures ev.Start? ==> StartFrom(thumb, dir, ev.now, ev.key).0 == dir - gone
    ensures ev.CrashedStart? ==> StartUpTo(dir, ev.now, ev.key, ev.steps) == dir - gone
  {
    var es := dir[RING_FILE].entries;
    RingPrunable(es);
    hide RingOk, LoadPublished;
    var seen := if ev.CrashedStart? && ev.steps <= |es| then es[..ev.steps] else es;
    PruneKeeps(dir, seen, {}, ev.now);
    gone := GoneFiles(seen, ev.now);
    hide Prune;
  }

  // ----- any step, any run -----

  /** Every step keeps the invariant, whatever else is in progress. */
  lemma StepKeeps(thumb: Key -> string, w: World, ev: Event)
    requires GoodThumb(thumb) && Inv(thumb, w) && Enabled(w, ev)
    ensures Inv(thumb, Step(thumb, w, ev))
  {
    hide Inv, GoodThumb, DoGo, DoBegin, StartFrom, StartUpTo;
    match ev
    case Begin(id, now, retention, key) => BeginKeeps(thumb, w, id, now, retention, key);
    case Go(id, torn) => GoKeeps(thumb, w, id, torn);
    case Start(_, _) => StartKeeps(thumb, w, ev);
    case CrashedStart(_, _, _) => StartKeeps(thumb, w, ev);
  }

  lemma {:induction false} RunKeeps(thumb: Key -> string, w: World, evs: seq<Event>)
    requires GoodThumb(thumb) && Inv(thumb, w) && ValidRun(thumb, w, evs)
    ensures Inv(thumb, After(thumb, w, evs))
    decreases |evs|
  {
    hide Inv, Step, GoodThumb, Enabled;
    if evs != [] {
      StepKeeps(thumb, w, evs[0]);
      RunKeeps(thumb, Step(thumb, w, evs[0]), evs[1..]);
    }
  }
}
