/**
 Rotations that overlap, and rotations that do not.  Nothing keeps two rotations apart: the exclusively
 created file has the new kid in its name, and the temporary ring file is opened by whoever comes.  Two
 rotations that overlap lose a key that signs already, or leave a ring that no start can read; one that
 has the directory to itself does neither.
 */
module KeyOverlap {
  import opened Options
  import opened KeyRing
  import opened KeyRingProofs
  import opened KeyRotations
  import opened KeyRotationSteps
  import opened KeyLifecycle
  import opened KeyRetention

  // ----- a rotation at work -----

  /** The files that the rotation works on are as it has left them. */
  ghost predicate AtWork(thumb: Key -> string, w: World, id: nat) {
    && id in w.begun && var r := w.begun[id];
    && (r.done == 0 ==> Temp(PemOf(thumb, r)) !in w.dir)
    && (r.done == 4 ==> r.open == Some(RING_TEMP) && RING_TEMP in w.dir && w.dir[RING_TEMP] == Empty)
    && (r.done == 5 ==> Holds(thumb, w.dir, RING_TEMP, r))
  }

  function OpsOf(thumb: Key -> string, r: Rotation): seq<FsOp> {
    Ops(r.read, r.at, thumb(r.key), r.key)
  }

  /** A rotation at work performs its next operation. */
  lemma AtWorkGo(thumb: Key -> string, w: World, id: nat, torn: bool)
    requires AtWork(thumb, w, id) && w.begun[id].done < 6
    ensures var q, v := w.begun[id], DoGo(thumb, w, id, torn);
            && v.dir == ApplyOp(w.dir, OpsOf(thumb, q)[q.done])
            && id in v.begun && v.begun[id].done == q.done + 1 && v.begun[id] == q.(done := q.done + 1, open := v.begun[id].open)
            && (q.done < 5 ==> AtWork(thumb, v, id))
            && (q.done == 5 ==> Holds(thumb, v.dir, RING_FILE, v.begun[id]))
  {
    RingNames(thumb(w.begun[id].key));
    hide NewRing, PemName, Temp;
  }

  lemma OthersWait(thumb: Key -> string, w: World, id: nat, torn: bool)
    requires id in w.begun
    ensures var v := DoGo(thumb, w, id, torn);
            && v.clock == w.clock && v.known == w.known && v.begun.Keys == w.begun.Keys
            && (forall i :: i in w.begun && i != id ==> v.begun[i] == w.begun[i].(open := v.begun[i].open))
            && (w.begun[id].done < 5 ==> forall i :: i in w.begun && i != id ==> v.begun[i] == w.begun[i])
  {
    hide DirAfter, Further;
  }

  function Gos(id: nat, n: nat): seq<Event> {
    seq(n, i => Go(id, false))
  }

  /** The next `n` operations of a rotation, one after the other. */
  lemma {:induction false} GosRun(thumb: Key -> string, w: World, id: nat, n: nat)
    requires AtWork(thumb, w, id) && w.begun[id].done + n <= 6
    ensures ValidRun(thumb, w, Gos(id, n))
    ensures var q, v := w.begun[id], After(thumb, w, Gos(id, n));
            && id in v.begun && v.begun[id] == q.(done := q.done + n, open := v.begun[id].open)
            && v.dir == ApplyOps(w.dir, OpsOf(thumb, q)[q.done..q.done + n])
            && (q.done + n < 6 ==> AtWork(thumb, v, id))
            && (n > 0 && q.done + n == 6 ==> Holds(thumb, v.dir, RING_FILE, v.begun[id]))
    decreases n
  {
    hide DoGo, AtWork, Holds, Ops, ApplyOp;
    AtWorkIn(thumb, w, id);
    var q := w.begun[id];
    SixOps(thumb, q);
    if n > 0 {
      assert Gos(id, n)[0] == Go(id, false) && Gos(id, n)[1..] == Gos(id, n - 1);
      AtWorkGo(thumb, w, id, false);
      var v := DoGo(thumb, w, id, false);
      var ops := OpsOf(thumb, q)[q.done..q.done + n];
      assert ops[0] == OpsOf(thumb, q)[q.done] && ops[1..] == OpsOf(thumb, q)[q.done + 1..q.done + n];
      if q.done < 5 {
        GosRun(thumb, v, id, n - 1);
      } else {
        NoMore(thumb, v, ops[1..]);
      }
    } else {
      NoMore(thumb, w, OpsOf(thumb, q)[q.done..q.done]);
    }
  }

  /** Meanwhile the other rotations wait. */
  lemma {:induction false} GosOthers(thumb: Key -> string, w: World, id: nat, n: nat)
    requires AtWork(thumb, w, id) && w.begun[id].done + n <= 6 && ValidRun(thumb, w, Gos(id, n))
    ensures var v := After(thumb, w, Gos(id, n));
            && v.clock == w.clock && v.known == w.known && v.begun.Keys == w.begun.Keys
            && (forall i :: i in w.begun && i != id ==> v.begun[i] == w.begun[i].(open := v.begun[i].open))
            && (w.begun[id].done + n <= 5 ==> forall i :: i in w.begun && i != id ==> v.begun[i] == w.begun[i])
    decreases n
  {
    hide DoGo, AtWork, Holds, Ops, ApplyOp;
    AtWorkIn(thumb, w, id);
    if n > 0 {
      assert Gos(id, n)[0] == Go(id, false) && Gos(id, n)[1..] == Gos(id, n - 1);
      AtWorkGo(thumb, w, id, false);
      OthersWait(thumb, w, id, false);
      if w.begun[id].done < 5 {
        GosOthers(thumb, DoGo(thumb, w, id, false), id, n - 1);
      }
    }
  }

  lemma AtWorkIn(thumb: Key -> string, w: World, id: nat)
    requires AtWork(thumb, w, id)
    ensures id in w.begun
  {
  }

  lemma SixOps(thumb: Key -> string, r: Rotation)
    ensures |OpsOf(thumb, r)| == 6
  {
  }

  lemma NoMore(thumb: Key -> string, w: World, ops: seq<FsOp>)
    requires ops == []
    ensures ValidRun(thumb, w, Gos(0, 0)) && After(thumb, w, Gos(0, 0)) == w && ApplyOps(w.dir, ops) == w.dir
    ensures forall id :: Gos(id, 0) == Gos(0, 0)
  {
  }

  // ----- a rotation begins -----

  lemma Untouching(thumb: Key -> string, w: World, key: Key)
    requires GoodThumb(thumb) && Inv(thumb, w) && DirOk(thumb, w.dir, w.clock) && key !in w.known
    ensures Untouched(thumb, w.dir, key) && !Lists(RingBefore(w.dir).value, thumb(key))
  {
    hide Inv, GoodThumb, PemName, Temp, RingOk, FilesOk;
    NoTempYet(thumb, w, key);
    BaseBefore(thumb, w.dir, w.clock);
    ReadableRing(thumb, w, key);
  }

  /** On a good directory a new key is accepted, and the rotation is at work on the ring that is there. */
  lemma BeginIsAccepted(thumb: Key -> string, w: World, id: nat, now: Time, retention: Time, key: Key)
    requires GoodThumb(thumb) && Inv(thumb, w) && DirOk(thumb, w.dir, w.clock) && Enabled(w, Begin(id, now, retention, key))
    ensures var v := DoBegin(thumb, w, id, now, retention, key);
            && v.dir == w.dir && AtWork(thumb, v, id)
            && v.begun == w.begun[id := Rotation(RingBefore(w.dir).value, now + retention, key, 0, None)]
  {
    hide Inv, GoodThumb, PemName, Temp, FilesOk, RingBefore, Lists;
    Untouching(thumb, w, key);
    BaseBefore(thumb, w.dir, w.clock);
    var es := RingBefore(w.dir).value;
    forall i | 0 <= i < |es| ensures es[i].state != Other {
      assert EntryOk(es, i);
    }
  }

  lemma {:induction false} RunsJoin(thumb: Key -> string, w: World, evs: seq<Event>, more: seq<Event>)
    requires ValidRun(thumb, w, evs) && ValidRun(thumb, After(thumb, w, evs), more)
    ensures ValidRun(thumb, w, evs + more) && After(thumb, w, evs + more) == After(thumb, After(thumb, w, evs), more)
    decreases |evs|
  {
    hide Step, Enabled;
    if evs == [] {
      assert evs + more == more;
    } else {
      assert (evs + more)[1..] == evs[1..] + more;
      RunsJoin(thumb, Step(thumb, w, evs[0]), evs[1..], more);
    }
  }

  lemma OneStep(thumb: Key -> string, w: World, ev: Event)
    requires Enabled(w, ev)
    ensures ValidRun(thumb, w, [ev]) && After(thumb, w, [ev]) == Step(thumb, w, ev)
  {
    hide Step, Enabled;
    assert [ev][1..] == [];
    assert ValidRun(thumb, Step(thumb, w, ev), []) && After(thumb, Step(thumb, w, ev), []) == Step(thumb, w, ev);
  }

  // ----- a rotation that has the directory to itself -----

  /** The rotation is at work, and the ring in place is the one it has read. */
  ghost predicate Undisturbed(thumb: Key -> string, w: World, id: nat) {
    AtWork(thumb, w, id) && RingBefore(w.dir) == Some(w.begun[id].read)
  }

  lemma UndisturbedGo(thumb: Key -> string, w: World, id: nat, torn: bool)
    requires GoodThumb(thumb) && Inv(thumb, w) && Undisturbed(thumb, w, id) && w.begun[id].done < 6
    ensures Orderly(thumb, w, Go(id, torn))
    ensures w.begun[id].done < 5 ==> !Replaces(w, Go(id, torn)) && Undisturbed(thumb, DoGo(thumb, w, id, torn), id)
  {
    hide Inv, GoodThumb, DoGo, RingOf, Temp;
    RingNames("");
    AtWorkGo(thumb, w, id, torn);
    if w.begun[id].done < 5 {
      GoLeavesRing(thumb, w, id, torn);
    } else {
      LaterSame(thumb, w.begun[id], DoGo(thumb, w, id, torn).begun[id]);
      assert MadeFrom(thumb, w, Go(id, torn), id);
    }
  }

  lemma UndisturbedStart(thumb: Key -> string, w: World, id: nat, ev: Event)
    requires GoodThumb(thumb) && Inv(thumb, w) && Undisturbed(thumb, w, id) && w.begun[id].read != []
    requires Enabled(w, ev) && (ev.Start? || ev.CrashedStart?)
    ensures Undisturbed(thumb, Step(thumb, w, ev), id)
  {
    hide Inv, GoodThumb, RingOf, Temp, PemName, StartFrom, StartUpTo;
    StartLeavesRing(thumb, w, ev);
    StartLeavesTemps(thumb, w, ev, id);
  }

  lemma StartLeavesTemps(thumb: Key -> string, w: World, ev: Event, id: nat)
    requires GoodThumb(thumb) && Inv(thumb, w) && Enabled(w, ev) && (ev.Start? || ev.CrashedStart?) && id in w.begun
    ensures SameFile(w.dir, Step(thumb, w, ev).dir, RING_TEMP) && SameFile(w.dir, Step(thumb, w, ev).dir, Temp(PemOf(thumb, w.begun[id])))
    ensures Step(thumb, w, ev).begun == w.begun
  {
    hide Inv, GoodThumb, Prune, LoadPublished, GoneFiles, PemName, Temp;
    var name := Temp(PemOf(thumb, w.begun[id]));
    RingNames(thumb(w.begun[id].key));
    if RING_FILE in w.dir && w.dir[RING_FILE].Ring? {
      var c := CurrentRing(thumb, w);
      var gone := StartGone(w.dir, ev, thumb);
      if RING_TEMP in gone {
        DueFile(thumb, w, ev.now, RING_TEMP);
      }
      if name in gone {
        DueFile(thumb, w, ev.now, name);
      }
    }
  }

  /** The events of one rotation, and starts. */
  predicate OwnOrStart(ev: Event, id: nat) {
    ev.Start? || ev.CrashedStart? || (ev.Go? && ev.id == id)
  }

  lemma {:induction false} AloneRun(thumb: Key -> string, w: World, id: nat, evs: seq<Event>)
    requires GoodThumb(thumb) && Inv(thumb, w) && id in w.begun && w.begun[id].read != []
    requires Undisturbed(thumb, w, id) || w.begun[id].done == 6
    requires ValidRun(thumb, w, evs) && forall i :: 0 <= i < |evs| ==> OwnOrStart(evs[i], id)
    ensures OrderlyRun(thumb, w, evs)
    decreases |evs|
  {
    hide Inv, GoodThumb, DoGo, Undisturbed, StartFrom, StartUpTo, Holds;
    if evs != [] {
      var ev, v := evs[0], Step(thumb, w, evs[0]);
      assert OwnOrStart(ev, id);
      StepKeeps(thumb, w, ev);
      if ev.Go? {
        UndisturbedAtWork(thumb, w, id);
        AtWorkGo(thumb, w, id, ev.torn);
        UndisturbedGo(thumb, w, id, ev.torn);
      } else if w.begun[id].done != 6 {
        UndisturbedStart(thumb, w, id, ev);
      }
      assert forall i :: 0 <= i < |evs| - 1 ==> evs[1..][i] == evs[i + 1];
      AloneRun(thumb, v, id, evs[1..]);
    }
  }

  lemma UndisturbedAtWork(thumb: Key -> string, w: World, id: nat)
    requires Undisturbed(thumb, w, id)
    ensures AtWork(thumb, w, id)
  {
  }

  /**
   One rotation at a time is orderly: from the moment it reads the ring of a directory that holds a key, with
   any number of starts in between, finished or not, and wherever it stops.
   */
  lemma AloneIsOrderly(thumb: Key -> string, w: World, begin: Event, evs: seq<Event>)
    requires GoodThumb(thumb) && Inv(thumb, w) && DirOk(thumb, w.dir, w.clock) && begin.Begin? && Enabled(w, begin)
    requires RING_FILE in w.dir || LEGACY_FILE in w.dir
    requires ValidRun(thumb, Step(thumb, w, begin), evs) && forall i :: 0 <= i < |evs| ==> OwnOrStart(evs[i], begin.id)
    ensures Orderly(thumb, w, begin) && OrderlyRun(thumb, Step(thumb, w, begin), evs)
  {
    hide Inv, GoodThumb, FilesOk, AtWork, OwnOrStart;
    BeginIsAccepted(thumb, w, begin.id, begin.now, begin.retention, begin.key);
    StepKeeps(thumb, w, begin);
    hide DoBegin;
    AloneRun(thumb, Step(thumb, w, begin), begin.id, evs);
  }

  /**
   The same in terms of file operations: stopping the one rotation after `n` of them leaves the directory that
   these operations make, and its next start loads exactly the key set from before unless all six are done.
   */
  lemma OneRotation(thumb: Key -> string, w: World, id: nat, now: Time, retention: Time, key: Key, n: nat, t: Time, made: Key)
    requires GoodThumb(thumb) && Inv(thumb, w) && DirOk(thumb, w.dir, w.clock) && Enabled(w, Begin(id, now, retention, key))
    requires n <= 6 && now <= t
    ensures var v := Step(thumb, w, Begin(id, now, retention, key));
            var ops := RotationOps(thumb, w.dir, now, retention, key);
            && ValidRun(thumb, v, Gos(id, n)) && ops.Some? && |ops.value| == 6
            && After(thumb, v, Gos(id, n)).dir == ApplyOps(w.dir, ops.value[..n])
            && (n < 6 ==> StartFrom(thumb, After(thumb, v, Gos(id, n)).dir, t, made).1 == StartFrom(thumb, w.dir, t, made).1)
  {
    hide Inv, GoodThumb, DirOk, StartFrom, AtWork, Ops, RotationOps, ApplyOps, Lists, RingBefore;
    BeginIsAccepted(thumb, w, id, now, retention, key);
    Untouching(thumb, w, key);
    TimePasses(thumb, w.dir, w.clock, now);
    RotationRuns(thumb, w.dir, now, retention, key);
    var begin := Begin(id, now, retention, key);
    var v := Step(thumb, w, begin);
    StepKeeps(thumb, w, begin);
    SixOps(thumb, v.begun[id]);
    GosRun(thumb, v, id, n);
    GosOthers(thumb, v, id, n);
    if n < 6 {
      ReadReadable(thumb, w.dir, w.clock);
      GosUnfinished(thumb, v, id, n);
      CrashConsistency(thumb, v, Gos(id, n), t, made);
    }
  }

  lemma ReadReadable(thumb: Key -> string, dir: Dir, now: Time)
    requires DirOk(thumb, dir, now)
    ensures RingBefore(dir).Some?
  {
  }

  lemma {:induction false} GosUnfinished(thumb: Key -> string, w: World, id: nat, n: nat)
    requires GoodThumb(thumb) && Inv(thumb, w) && Undisturbed(thumb, w, id) && w.begun[id].done + n <= 5
    ensures ValidRun(thumb, w, Gos(id, n)) && OfRotations(Gos(id, n)) && NoneReplaces(thumb, w, Gos(id, n))
    decreases n
  {
    hide Inv, GoodThumb, DoGo, Undisturbed, Holds;
    UndisturbedAtWork(thumb, w, id);
    if n > 0 {
      assert Gos(id, n)[0] == Go(id, false) && Gos(id, n)[1..] == Gos(id, n - 1);
      AtWorkGo(thumb, w, id, false);
      UndisturbedGo(thumb, w, id, false);
      StepKeeps(thumb, w, Go(id, false));
      GosUnfinished(thumb, DoGo(thumb, w, id, false), id, n - 1);
    }
  }

  // ----- two rotations that overlap -----

  /** Two rotations read the same ring. */
  lemma BothBegin(thumb: Key -> string, w: World, i: nat, j: nat, now: Time, retention: Time, a: Key, b: Key) returns (v: World)
    requires GoodThumb(thumb) && Inv(thumb, w) && DirOk(thumb, w.dir, w.clock) && w.clock <= now
    requires i != j && i !in w.begun && j !in w.begun && a != b && a !in w.known && b !in w.known
    ensures var evs := [Begin(i, now, retention, a), Begin(j, now, retention, b)];
            ValidRun(thumb, w, evs) && After(thumb, w, evs) == v
    ensures Inv(thumb, v) && DirOk(thumb, v.dir, v.clock) && v.dir == w.dir && v.clock == now && v.known == w.known + {a, b}
    ensures Undisturbed(thumb, v, i) && AtWork(thumb, v, j) && i in v.begun && j in v.begun
    ensures v.begun[i].done == 0 && v.begun[j].done == 0
    ensures v.begun[i].key == a && v.begun[j].key == b && v.begun[j].read == RingBefore(w.dir).value
    ensures !Lists(v.begun[j].read, thumb(a))
  {
    hide Inv, GoodThumb, DirOk, Lists, RingBefore;
    var first, second := Begin(i, now, retention, a), Begin(j, now, retention, b);
    ReadReadable(thumb, w.dir, w.clock);
    Untouching(thumb, w, a);
    BeginIsAccepted(thumb, w, i, now, retention, a);
    StepKeeps(thumb, w, first);
    TimePasses(thumb, w.dir, w.clock, now);
    var v1 := Step(thumb, w, first);
    BeginIsAccepted(thumb, v1, j, now, retention, b);
    StepKeeps(thumb, v1, second);
    v := Step(thumb, v1, second);
    OneStep(thumb, w, first);
    OneStep(thumb, v1, second);
    RunsJoin(thumb, w, [first], [second]);
    assert [first] + [second] == [first, second];
  }

  /**
   The update that is lost.  On any good directory, two rotations read the ring; the first one finishes, and a
   server that starts now signs with its key; then the second one finishes.  No start from then on publishes
   the key of the first, at any time, whatever the retention.
   */
  lemma LostUpdate(thumb: Key -> string, w: World, i: nat, j: nat, now: Time, retention: Time, a: Key, b: Key, made: Key)
    returns (v1: World, v2: World)
    requires GoodThumb(thumb) && Inv(thumb, w) && DirOk(thumb, w.dir, w.clock) && w.clock <= now
    requires i != j && i !in w.begun && j !in w.begun && a != b && a !in w.known && b !in w.known && made !in w.known + {a, b}
    ensures var evs := [Begin(i, now, retention, a), Begin(j, now, retention, b)] + Gos(i, 6);
            ValidRun(thumb, w, evs) && After(thumb, w, evs) == v1
    ensures var evs := [Start(now, made)] + Gos(j, 6); ValidRun(thumb, v1, evs) && After(thumb, v1, evs) == v2
    ensures var ks := StartFrom(thumb, v1.dir, now, made).1; ks.Some? && ks.value.active == Some(SigningKey(thumb(a), a))
    ensures forall t, k :: var ks := StartFrom(thumb, v2.dir, t, k).1; ks.Some? ==> VerifyKey(ks.value.published, thumb(a)) == None
  {
    hide Inv, GoodThumb, DirOk, Lists, RingBefore, DoGo, StartFrom, AtWork, Holds, NewRing, VerifyKey;
    var v := BothBegin(thumb, w, i, j, now, retention, a, b);
    GosRun(thumb, v, i, 6);
    GosOthers(thumb, v, i, 6);
    v1 := After(thumb, v, Gos(i, 6));
    RunsJoin(thumb, w, [Begin(i, now, retention, a), Begin(j, now, retention, b)], Gos(i, 6));
    FirstSigns(thumb, v, i, v1, now, made);
    var s := Step(thumb, v1, Start(now, made));
    StepKeeps(thumb, v1, Start(now, made));
    PemIs(thumb, s, j);
    assert AtWork(thumb, s, j) by { FreshAtWork(thumb, s, j); }
    GosRun(thumb, s, j, 6);
    GosOthers(thumb, s, j, 6);
    OneStep(thumb, v1, Start(now, made));
    RunsJoin(thumb, v1, [Start(now, made)], Gos(j, 6));
    v2 := After(thumb, s, Gos(j, 6));
    HeldContent(thumb, v2.dir, v2.begun[j]);
    DistinctKids(thumb, a, b);
    NewRingLists(thumb, v2.begun[j], thumb(a));
    forall t, k
      ensures var ks := StartFrom(thumb, v2.dir, t, k).1; ks.Some? ==> VerifyKey(ks.value.published, thumb(a)) == None
    {
      OnlyListedArePublished(thumb, v2.dir, t, k, thumb(a));
    }
  }

  lemma DistinctKids(thumb: Key -> string, a: Key, b: Key)
    requires GoodThumb(thumb) && a != b
    ensures thumb(a) != thumb(b)
  {
  }

  lemma FreshAtWork(thumb: Key -> string, w: World, id: nat)
    requires id in w.begun && w.begun[id].done == 0 && PemOk(thumb, w.dir, w.begun[id])
    ensures AtWork(thumb, w, id)
  {
  }

  /** A rotation that has finished undisturbed has its key in use. */
  lemma FirstSigns(thumb: Key -> string, v: World, i: nat, v1: World, now: Time, made: Key)
    requires GoodThumb(thumb) && Inv(thumb, v) && DirOk(thumb, v.dir, v.clock) && v.clock == now
    requires Undisturbed(thumb, v, i) && v.begun[i].done == 0
    requires ValidRun(thumb, v, Gos(i, 6)) && v1 == After(thumb, v, Gos(i, 6))
    ensures Inv(thumb, v1) && v1.clock == now && i in v1.begun
    ensures var ks := StartFrom(thumb, v1.dir, now, made).1;
            ks.Some? && ks.value.active == Some(SigningKey(thumb(v.begun[i].key), v.begun[i].key))
  {
    hide Inv, GoodThumb, DirOk, DoGo, StartFrom, AtWork, Undisturbed;
    UndisturbedAtWork(thumb, v, i);
    GosRun(thumb, v, i, 6);
    GosOthers(thumb, v, i, 6);
    GosOrderly(thumb, v, i, 6);
    RunKeeps(thumb, v, Gos(i, 6));
    OrderlyRunKeepsDir(thumb, v, Gos(i, 6));
    PemIs(thumb, v1, i);
    HeldContent(thumb, v1.dir, v1.begun[i]);
    NewSigns(thumb, v1, i);
    StartSigns(thumb, v1.dir, now, made, thumb(v.begun[i].key), v.begun[i].key);
  }

  lemma NewSigns(thumb: Key -> string, w: World, i: nat)
    requires i in w.begun && Holds(thumb, w.dir, RING_FILE, w.begun[i]) && PemOk(thumb, w.dir, w.begun[i])
    ensures Signs(w.dir, thumb(w.begun[i].key), w.begun[i].key)
  {
  }

  lemma {:induction false} GosOrderly(thumb: Key -> string, w: World, id: nat, n: nat)
    requires GoodThumb(thumb) && Inv(thumb, w) && Undisturbed(thumb, w, id) && w.begun[id].done + n <= 6
    ensures ValidRun(thumb, w, Gos(id, n)) && OrderlyRun(thumb, w, Gos(id, n))
    decreases n
  {
    hide Inv, GoodThumb, DoGo, Undisturbed, Holds, Orderly;
    UndisturbedAtWork(thumb, w, id);
    GosRun(thumb, w, id, n);
    if n > 0 {
      assert Gos(id, n)[0] == Go(id, false) && Gos(id, n)[1..] == Gos(id, n - 1);
      AtWorkGo(thumb, w, id, false);
      UndisturbedGo(thumb, w, id, false);
      StepKeeps(thumb, w, Go(id, false));
      if w.begun[id].done < 5 {
        GosOrderly(thumb, DoGo(thumb, w, id, false), id, n - 1);
      }
    }
  }

  lemma RenamesEmpty(thumb: Key -> string, w: World, i: nat, j: nat)
    requires AtWork(thumb, w, j) && w.begun[j].done == 4 && i in w.begun && w.begun[i].done == 5
    ensures forall t, k :: StartFrom(thumb, Step(thumb, w, Go(i, false)).dir, t, k).1 == None
  {
    RingNames("");
    hide RingOf, Prune, LoadPublished, Temp, PemName;
  }

  /**
   The ring that nobody can read.  On any good directory, two rotations read the ring; the first one has written
   the temporary ring file when the second one opens and empties it; then the first one renames it.  If the
   second one stops there, every start from then on fails.
   */
  lemma EmptiedRing(thumb: Key -> string, w: World, i: nat, j: nat, now: Time, retention: Time, a: Key, b: Key)
    returns (v1: World)
    requires GoodThumb(thumb) && Inv(thumb, w) && DirOk(thumb, w.dir, w.clock) && w.clock <= now
    requires i != j && i !in w.begun && j !in w.begun && a != b && a !in w.known && b !in w.known
    ensures var evs := [Begin(i, now, retention, a), Begin(j, now, retention, b)] + (Gos(i, 5) + (Gos(j, 4) + [Go(i, false)]));
            ValidRun(thumb, w, evs) && After(thumb, w, evs) == v1
    ensures forall t, k :: StartFrom(thumb, v1.dir, t, k).1 == None
  {
    hide Inv, GoodThumb, DirOk, Lists, RingBefore, Holds, NewRing, StartFrom, AtWork, Undisturbed, ApplyOps, Ops, Step;
    var v := BothBegin(thumb, w, i, j, now, retention, a, b);
    UndisturbedAtWork(thumb, v, i);
    GosRun(thumb, v, i, 5);
    GosOthers(thumb, v, i, 5);
    var s := After(thumb, v, Gos(i, 5));
    RunKeeps(thumb, v, Gos(i, 5));
    PemIs(thumb, s, j);
    FreshAtWork(thumb, s, j);
    GosRun(thumb, s, j, 4);
    GosOthers(thumb, s, j, 4);
    var u := After(thumb, s, Gos(j, 4));
    v1 := Step(thumb, u, Go(i, false));
    RenamesEmpty(thumb, u, i, j);
    OneStep(thumb, u, Go(i, false));
    RunsJoin(thumb, s, Gos(j, 4), [Go(i, false)]);
    RunsJoin(thumb, v, Gos(i, 5), Gos(j, 4) + [Go(i, false)]);
    RunsJoin(thumb, w, [Begin(i, now, retention, a), Begin(j, now, retention, b)], Gos(i, 5) + (Gos(j, 4) + [Go(i, false)]));
  }
}
