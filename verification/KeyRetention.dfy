/** How long a key that no longer signs stays published, and what takes it away before. */
module KeyRetention {
  import opened Options
  import opened KeyRing
  import opened KeyRingProofs
  import opened KeyStart
  import opened KeyRotations
  import opened KeyRotationSteps
  import opened KeyLifecycle

  /** The ring lists the key as retiring, not before `until`, and its file is there. */
  ghost predicate Retained(dir: Dir, kid: string, key: Key, until: Time) {
    && RING_FILE in dir && dir[RING_FILE].Ring?
    && exists i :: 0 <= i < |dir[RING_FILE].entries| && RetainedAs(dir, dir[RING_FILE].entries[i], kid, key, until)
  }

  predicate RetainedAs(dir: Dir, e: Entry, kid: string, key: Key, until: Time) {
    && e.kid == kid && e.state == Retiring && e.retireAt.Some? && until <= e.retireAt.value
    && e.file in dir && dir[e.file] == Pem(key)
  }

  lemma RetainedPrune(dir: Dir, now: Time, gone: set<string>, i: nat, kid: string, key: Key, until: Time)
    requires RING_FILE in dir && dir[RING_FILE].Ring? && RingOk(dir[RING_FILE].entries) && i < |dir[RING_FILE].entries|
    requires RetainedAs(dir, dir[RING_FILE].entries[i], kid, key, until) && now <= until
    requires gone <= GoneFiles(dir[RING_FILE].entries, now)
    ensures Retained(dir - gone, kid, key, until)
  {
    KeptFilesStay(dir[RING_FILE].entries, now, i);
    var r := dir - gone;
    hide GoneFiles, RingOk;
    assert RetainedAs(r, r[RING_FILE].entries[i], kid, key, until);
  }

  /** A ring made from the one in place keeps what that one retains. */
  lemma RetainedReplaced(thumb: Key -> string, w: World, ev: Event, i: nat, kid: string, key: Key, until: Time)
    requires GoodThumb(thumb) && Inv(thumb, w) && Enabled(w, ev) && Replaces(w, ev) && MadeFrom(thumb, w, ev, i)
    requires DirOk(thumb, w.dir, w.clock) && Retained(w.dir, kid, key, until)
    ensures Retained(Step(thumb, w, ev).dir, kid, key, until)
  {
    hide Inv, GoodThumb, Step, DirOk, SameFile;
    ReplacingKeepsDir(thumb, w, ev, i);
    var r, q := Step(thumb, w, ev).dir, w.begun[i];
    HeldContent(thumb, r, q);
    var k :| 0 <= k < |q.read| && RetainedAs(w.dir, q.read[k], kid, key, until);
    assert RingOf(thumb, q)[k] == Retire(q.read[k], q.at);
    assert q.read[k] in q.read;
    FileIsSame(w.dir, r, q.read[k].file);
    assert RetainedAs(r, r[RING_FILE].entries[k], kid, key, until);
  }

  lemma FileIsSame(dir: Dir, dir1: Dir, name: string)
    requires SameFile(dir, dir1, name)
    ensures (name in dir1 <==> name in dir) && (name in dir ==> dir1[name] == dir[name])
  {
  }

  lemma RetainedGo(thumb: Key -> string, w: World, id: nat, torn: bool, kid: string, key: Key, until: Time)
    requires GoodThumb(thumb) && Inv(thumb, w) && Enabled(w, Go(id, torn)) && !Replaces(w, Go(id, torn))
    requires Retained(w.dir, kid, key, until)
    ensures Retained(DoGo(thumb, w, id, torn).dir, kid, key, until)
  {
    hide Inv, GoodThumb, DoGo;
    var r, es := DoGo(thumb, w, id, torn).dir, w.dir[RING_FILE].entries;
    GoLeavesRing(thumb, w, id, torn);
    var k :| 0 <= k < |es| && RetainedAs(w.dir, es[k], kid, key, until);
    ListedFileStays(thumb, w, id, torn, k);
    assert RetainedAs(r, r[RING_FILE].entries[k], kid, key, until);
  }

  lemma RetainedStart(thumb: Key -> string, w: World, ev: Event, kid: string, key: Key, until: Time)
    requires GoodThumb(thumb) && Inv(thumb, w) && Enabled(w, ev) && (ev.Start? || ev.CrashedStart?) && ev.now <= until
    requires Retained(w.dir, kid, key, until)
    ensures Retained(Step(thumb, w, ev).dir, kid, key, until)
  {
    hide Inv, GoodThumb, StartFrom, StartUpTo, GoneFiles, Holds;
    var c := CurrentRing(thumb, w);
    HeldContent(thumb, w.dir, w.begun[c]);
    var es := w.dir[RING_FILE].entries;
    var k :| 0 <= k < |es| && RetainedAs(w.dir, es[k], kid, key, until);
    var gone := StartGone(w.dir, ev, thumb);
    RetainedPrune(w.dir, ev.now, gone, k, kid, key, until);
  }

  /** Until the horizon no orderly step gives a retained key up. */
  lemma RetainedStep(thumb: Key -> string, w: World, ev: Event, kid: string, key: Key, until: Time)
    requires GoodThumb(thumb) && Inv(thumb, w) && DirOk(thumb, w.dir, w.clock) && Enabled(w, ev) && Orderly(thumb, w, ev)
    requires Step(thumb, w, ev).clock <= until && Retained(w.dir, kid, key, until)
    ensures Retained(Step(thumb, w, ev).dir, kid, key, until)
  {
    hide Inv, GoodThumb, DirOk, Replaces, MadeFrom, Retained, DoGo, StartFrom, StartUpTo;
    if Replaces(w, ev) {
      var i :| MadeFrom(thumb, w, ev, i);
      RetainedReplaced(thumb, w, ev, i, kid, key, until);
    } else {
      match ev
      case Begin(_, _, _, _) =>
      case Go(id, torn) => RetainedGo(thumb, w, id, torn, kid, key, until);
      case Start(_, _) => RetainedStart(thumb, w, ev, kid, key, until);
      case CrashedStart(_, _, _) => RetainedStart(thumb, w, ev, kid, key, until);
    }
  }

  lemma {:induction false} RetainedRun(thumb: Key -> string, w: World, evs: seq<Event>, kid: string, key: Key, until: Time)
    requires GoodThumb(thumb) && Inv(thumb, w) && DirOk(thumb, w.dir, w.clock) && ValidRun(thumb, w, evs) && OrderlyRun(thumb, w, evs)
    requires After(thumb, w, evs).clock <= until && Retained(w.dir, kid, key, until)
    ensures Retained(After(thumb, w, evs).dir, kid, key, until)
    decreases |evs|
  {
    hide Inv, DirOk, GoodThumb, Retained, Step, Enabled, Orderly;
    if evs != [] {
      ClockRun(thumb, Step(thumb, w, evs[0]), evs[1..]);
      StepKeeps(thumb, w, evs[0]);
      OrderlyKeepsDir(thumb, w, evs[0]);
      RetainedStep(thumb, w, evs[0], kid, key, until);
      RetainedRun(thumb, Step(thumb, w, evs[0]), evs[1..], kid, key, until);
    }
  }

  /** Putting in place a ring made from the one there retains the key that signed before, until that rotation's horizon. */
  lemma RotationRetains(thumb: Key -> string, w: World, ev: Event, i: nat, kid: string, key: Key)
    requires GoodThumb(thumb) && Inv(thumb, w) && DirOk(thumb, w.dir, w.clock) && Enabled(w, ev) && Replaces(w, ev)
    requires MadeFrom(thumb, w, ev, i) && Signs(w.dir, kid, key)
    ensures Retained(Step(thumb, w, ev).dir, kid, key, w.begun[i].at)
  {
    hide Inv, GoodThumb, Step, SameFile;
    ReplacingKeepsDir(thumb, w, ev, i);
    BaseBefore(thumb, w.dir, w.clock);
    hide DirOk;
    var r, q := Step(thumb, w, ev).dir, w.begun[i];
    HeldContent(thumb, r, q);
    var k := |q.read| - 1;
    assert EntryOk(q.read, k) && q.read[k] in q.read;
    assert RingOf(thumb, q)[k] == Retire(q.read[k], q.at);
    FileIsSame(w.dir, r, q.read[k].file);
    assert RetainedAs(r, r[RING_FILE].entries[k], kid, key, q.at);
  }

  lemma RetainedVerifies(thumb: Key -> string, dir: Dir, now: Time, kid: string, key: Key, until: Time, start: Time, made: Key)
    requires DirOk(thumb, dir, now) && Retained(dir, kid, key, until) && now <= start <= until
    ensures var ks := StartFrom(thumb, dir, start, made).1;
            ks.Some? && VerifyKey(ks.value.published, kid) == Some(key)
  {
    var es := dir[RING_FILE].entries;
    var i :| 0 <= i < |es| && RetainedAs(dir, es[i], kid, key, until);
    TimePasses(thumb, dir, now, start);
    StartFinds(thumb, dir, start, made, es[i], key);
  }

  /**
   A token signed by the key that was active before a rotation took effect, and expiring no later than the
   horizon, finds its key on every server started after that and before the token expires, whatever other
   rotations, restarts and crashes come in between, as long as each ring that is put in place was made from
   the ring it replaces.  A server verifies with the key set it loaded at its start for as long as it runs,
   so the key is there whenever the token is presented.
   */
  lemma RetentionSafety(thumb: Key -> string, w: World, ev: Event, i: nat, evs: seq<Event>, kid: string, key: Key,
                        start: Time, made: Key, exp: Time)
    requires GoodThumb(thumb) && Inv(thumb, w) && DirOk(thumb, w.dir, w.clock) && Signs(w.dir, kid, key)
    requires Enabled(w, ev) && Replaces(w, ev) && MadeFrom(thumb, w, ev, i)
    requires ValidRun(thumb, Step(thumb, w, ev), evs) && OrderlyRun(thumb, Step(thumb, w, ev), evs)
    requires After(thumb, Step(thumb, w, ev), evs).clock <= start < exp <= w.begun[i].at
    ensures var ks := StartFrom(thumb, After(thumb, Step(thumb, w, ev), evs).dir, start, made).1;
            ks.Some? && VerifyKey(ks.value.published, kid) == Some(key)
  {
    hide GoodThumb, Inv, DirOk, Retained, Signs, Step, MadeFrom, StartFrom, Replaces, Enabled;
    var w1 := Step(thumb, w, ev);
    MadeByRotation(thumb, w, ev, i);
    RotationRetains(thumb, w, ev, i, kid, key);
    StepKeeps(thumb, w, ev);
    OrderlyKeepsDir(thumb, w, ev);
    RetainedRun(thumb, w1, evs, kid, key, w.begun[i].at);
    OrderlyRunKeepsDir(thumb, w1, evs);
    var v := After(thumb, w1, evs);
    RetainedVerifies(thumb, v.dir, v.clock, kid, key, w.begun[i].at, start, made);
  }

  // ----- and no longer than that -----

  /**
   The ring of a rotation: what was active retires at the rotation's horizon, what was retiring keeps its own, and
   the new key is active at the end.
   */
  lemma NewRingIsExact(thumb: Key -> string, r: Rotation)
    ensures var es, n := RingOf(thumb, r), |r.read|;
            && |es| == n + 1
            && (forall i :: 0 <= i < n ==>
                  es[i] == if r.read[i].state == Active then Entry(r.read[i].kid, r.read[i].file, Retiring, Some(r.at)) else r.read[i])
            && es[n] == Entry(thumb(r.key), "minidp-rsa-" + thumb(r.key) + ".pem", Active, None)
  {
  }

  /** The ring lists the kid as retiring, with that horizon. */
  ghost predicate RetiresAt(dir: Dir, kid: string, at: Time) {
    && RING_FILE in dir && dir[RING_FILE].Ring?
    && exists i :: 0 <= i < |dir[RING_FILE].entries| && dir[RING_FILE].entries[i].kid == kid &&
                   dir[RING_FILE].entries[i].state == Retiring && dir[RING_FILE].entries[i].retireAt == Some(at)
  }

  lemma RetiresReplaced(thumb: Key -> string, w: World, ev: Event, i: nat, kid: string, at: Time)
    requires Enabled(w, ev) && MadeFrom(thumb, w, ev, i) && RetiresAt(w.dir, kid, at)
    ensures RetiresAt(Step(thumb, w, ev).dir, kid, at)
  {
    hide Step, RingOf;
    var r, q := Step(thumb, w, ev).dir, w.begun[i];
    HeldContent(thumb, r, q);
    NewRingIsExact(thumb, q);
    var k :| 0 <= k < |q.read| && q.read[k].kid == kid && q.read[k].state == Retiring && q.read[k].retireAt == Some(at);
    assert r[RING_FILE].entries[k] == q.read[k];
  }

  lemma RetiresStep(thumb: Key -> string, w: World, ev: Event, kid: string, at: Time)
    requires GoodThumb(thumb) && Inv(thumb, w) && Enabled(w, ev) && Orderly(thumb, w, ev) && RetiresAt(w.dir, kid, at)
    ensures RetiresAt(Step(thumb, w, ev).dir, kid, at)
  {
    hide Inv, GoodThumb, Step, MadeFrom, Replaces;
    if Replaces(w, ev) {
      hide RetiresAt;
      var i :| MadeFrom(thumb, w, ev, i);
      RetiresReplaced(thumb, w, ev, i, kid, at);
    } else {
      RingStays(thumb, w, ev);
    }
  }

  lemma {:induction false} RetiresRun(thumb: Key -> string, w: World, evs: seq<Event>, kid: string, at: Time)
    requires GoodThumb(thumb) && Inv(thumb, w) && ValidRun(thumb, w, evs) && OrderlyRun(thumb, w, evs) && RetiresAt(w.dir, kid, at)
    ensures RetiresAt(After(thumb, w, evs).dir, kid, at)
    decreases |evs|
  {
    hide Inv, GoodThumb, Step, Enabled, Orderly, RetiresAt;
    if evs != [] {
      StepKeeps(thumb, w, evs[0]);
      RetiresStep(thumb, w, evs[0], kid, at);
      RetiresRun(thumb, Step(thumb, w, evs[0]), evs[1..], kid, at);
    }
  }

  lemma RotationRetires(thumb: Key -> string, w: World, ev: Event, i: nat, kid: string, key: Key)
    requires Enabled(w, ev) && MadeFrom(thumb, w, ev, i) && DirOk(thumb, w.dir, w.clock) && Signs(w.dir, kid, key)
    ensures RetiresAt(Step(thumb, w, ev).dir, kid, w.begun[i].at)
  {
    hide Step, RingOf;
    BaseBefore(thumb, w.dir, w.clock);
    SignerIsLast(thumb, w.dir, w.clock, kid, key);
    hide DirOk;
    var r, q := Step(thumb, w, ev).dir, w.begun[i];
    HeldContent(thumb, r, q);
    NewRingIsExact(thumb, q);
    var k := |q.read| - 1;
    assert EntryOk(q.read, k);
    assert r[RING_FILE].entries[k] == Entry(q.read[k].kid, q.read[k].file, Retiring, Some(q.at));
  }

  lemma PublishedUntil(thumb: Key -> string, dir: Dir, t: Time, made: Key, kid: string, at: Time)
    requires DirOk(thumb, dir, t) && RetiresAt(dir, kid, at)
    ensures var ks := StartFrom(thumb, dir, t, made).1; ks.Some? && (Publishes(ks.value, kid) <==> t <= at)
  {
    hide StartFrom, FilesOk, Publishes;
    PublishedExactly(thumb, dir, t, made, kid);
    var es := dir[RING_FILE].entries;
    var k :| 0 <= k < |es| && es[k].kid == kid && es[k].state == Retiring && es[k].retireAt == Some(at);
    forall i | 0 <= i < |es| && es[i].kid == kid ensures i == k {
    }
    hide RingOk;
  }

  /**
   How long a retired key is published: after a ring made from the one in place has replaced it, through any
   orderly history, a start publishes the key that signed before if and only if the rotation's horizon has not
   passed.
   */
  lemma PublishedExactlyUntilHorizon(thumb: Key -> string, w: World, ev: Event, i: nat, evs: seq<Event>, kid: string, key: Key,
                                     t: Time, made: Key)
    requires GoodThumb(thumb) && Inv(thumb, w) && DirOk(thumb, w.dir, w.clock) && Signs(w.dir, kid, key)
    requires Enabled(w, ev) && Replaces(w, ev) && MadeFrom(thumb, w, ev, i)
    requires ValidRun(thumb, Step(thumb, w, ev), evs) && OrderlyRun(thumb, Step(thumb, w, ev), evs)
    requires After(thumb, Step(thumb, w, ev), evs).clock <= t && i in w.begun
    ensures var ks := StartFrom(thumb, After(thumb, Step(thumb, w, ev), evs).dir, t, made).1;
            ks.Some? && (Publishes(ks.value, kid) <==> t <= w.begun[i].at)
  {
    hide GoodThumb, Inv, DirOk, RetiresAt, Signs, Step, MadeFrom, StartFrom, Replaces, Enabled, Publishes;
    var w1 := Step(thumb, w, ev);
    RotationRetires(thumb, w, ev, i, kid, key);
    StepKeeps(thumb, w, ev);
    OrderlyKeepsDir(thumb, w, ev);
    RetiresRun(thumb, w1, evs, kid, w.begun[i].at);
    OrderlyRunKeepsDir(thumb, w1, evs);
    var v := After(thumb, w1, evs);
    TimePasses(thumb, v.dir, v.clock, t);
    PublishedUntil(thumb, v.dir, t, made, kid, w.begun[i].at);
  }

  lemma RotationStays(thumb: Key -> string, w: World, ev: Event, id: nat)
    requires Enabled(w, ev) && id in w.begun
    ensures id in Step(thumb, w, ev).begun && Step(thumb, w, ev).begun[id].at == w.begun[id].at
    ensures Step(thumb, w, ev).begun[id].read == w.begun[id].read && Step(thumb, w, ev).begun[id].key == w.begun[id].key
  {
    hide DirAfter, StartFrom, StartUpTo, RingBefore, Lists;
  }

  lemma {:induction false} RotationStaysRun(thumb: Key -> string, w: World, evs: seq<Event>, id: nat)
    requires ValidRun(thumb, w, evs) && id in w.begun
    ensures var v := After(thumb, w, evs);
            id in v.begun && (v.begun[id].at, v.begun[id].read, v.begun[id].key) == (w.begun[id].at, w.begun[id].read, w.begun[id].key)
    decreases |evs|
  {
    hide Step, Enabled;
    if evs != [] {
      RotationStays(thumb, w, evs[0], id);
      RotationStaysRun(thumb, Step(thumb, w, evs[0]), evs[1..], id);
    }
  }

  /** The horizon of a rotation is the retention after the time it read the ring, whatever happens later. */
  lemma HorizonIsSet(thumb: Key -> string, w: World, begin: Event, evs: seq<Event>)
    requires begin.Begin? && Enabled(w, begin) && begin.id in Step(thumb, w, begin).begun && ValidRun(thumb, Step(thumb, w, begin), evs)
    ensures var v := After(thumb, Step(thumb, w, begin), evs);
            && begin.id in v.begun && v.begun[begin.id].at == begin.now + begin.retention
            && RingBefore(w.dir) == Some(v.begun[begin.id].read) && v.begun[begin.id].key == begin.key
  {
    RotationStaysRun(thumb, Step(thumb, w, begin), evs, begin.id);
    hide ValidRun, After;
  }

  const SECOND: Time := 1_000_000_000
  const SKEW: Time := 300 * SECOND

  /** The horizon used when none is configured: both token lifetimes and five minutes. */
  function DefaultRetention(accessTtl: Time, refreshTtl: Time): Time {
    accessTtl + refreshTtl + SKEW
  }

  /**
   With the default horizon, counted from the time the rotation read the ring, this covers every token that
   a server which has not been restarted still signs with the retired key, up to the refresh lifetime plus
   five minutes after that time.
   */
  lemma DefaultRetentionSafety(thumb: Key -> string, w: World, ev: Event, i: nat, evs: seq<Event>, kid: string, key: Key,
                               start: Time, made: Key, begun: Time, accessTtl: Time, refreshTtl: Time, signedAt: Time)
    requires GoodThumb(thumb) && Inv(thumb, w) && DirOk(thumb, w.dir, w.clock) && Signs(w.dir, kid, key)
    requires Enabled(w, ev) && Replaces(w, ev) && MadeFrom(thumb, w, ev, i)
    requires w.begun[i].at == begun + DefaultRetention(accessTtl, refreshTtl) && signedAt <= begun + refreshTtl + SKEW
    requires ValidRun(thumb, Step(thumb, w, ev), evs) && OrderlyRun(thumb, Step(thumb, w, ev), evs)
    requires After(thumb, Step(thumb, w, ev), evs).clock <= start < signedAt + accessTtl
    ensures var ks := StartFrom(thumb, After(thumb, Step(thumb, w, ev), evs).dir, start, made).1;
            ks.Some? && VerifyKey(ks.value.published, kid) == Some(key)
  {
    hide GoodThumb, Inv, DirOk, Signs, Step, StartFrom, MadeFrom, Replaces, Enabled;
    RetentionSafety(thumb, w, ev, i, evs, kid, key, start, made, signedAt + accessTtl);
  }

  // ----- and what a disorderly step loses -----

  lemma {:induction false} PruneKept(dir: Dir, es: seq<Entry>, seen: set<string>, now: Time)
    ensures var kept := Prune(dir, es, seen, now).1;
            kept.Some? ==> forall e :: e in kept.value ==> e in es
    decreases |es|
  {
    if es != [] {
      assert es == [es[0]] + es[1..];
      PruneKept(dir, es[1..], seen + {es[0].kid}, now);
      PruneKept(dir - {es[0].file}, es[1..], seen + {es[0].kid}, now);
    }
  }

  lemma {:induction false} LoadedKids(thumb: Key -> string, dir: Dir, kept: seq<Entry>, ks: KeySet)
    ensures var r := LoadPublished(thumb, dir, kept, ks);
            r.Some? ==> forall k :: k in r.value.published ==> k in ks.published || Lists(kept, k.kid)
    decreases |kept|
  {
    if kept != [] && LoadPublished(thumb, dir, kept, ks).Some? {
      var e, key := kept[0], LoadKey(dir, kept[0].file);
      if key.None? {
        LoadedKids(thumb, dir, kept[1..], ks);
        TailLists(kept);
      } else {
        var k := SigningKey(e.kid, key.value);
        LoadedKids(thumb, dir, kept[1..], KeySet(if e.state == Active then Some(k) else ks.active, ks.published + [k]));
        TailLists(kept);
      }
    }
  }

  lemma TailLists(es: seq<Entry>)
    requires es != []
    ensures Lists(es, es[0].kid) && forall kid :: Lists(es[1..], kid) ==> Lists(es, kid)
  {
    forall kid | Lists(es[1..], kid) ensures Lists(es, kid) {
      var i :| 0 <= i < |es| - 1 && es[1..][i].kid == kid;
      assert es[i + 1].kid == kid;
    }
  }

  lemma {:induction false} VerifiedIsPublished(published: seq<SigningKey>, kid: string)
    ensures VerifyKey(published, kid).Some? ==> exists k :: k in published && k.kid == kid
    decreases |published|
  {
    if published != [] && published[0].kid != kid {
      VerifiedIsPublished(published[1..], kid);
    }
  }

  /** A start on a ring publishes nothing that the ring does not list. */
  lemma OnlyListedArePublished(thumb: Key -> string, dir: Dir, t: Time, made: Key, kid: string)
    requires RING_FILE in dir && dir[RING_FILE].Ring?
    ensures var ks := StartFrom(thumb, dir, t, made).1;
            ks.Some? && VerifyKey(ks.value.published, kid).Some? ==> Lists(dir[RING_FILE].entries, kid)
  {
    var ks := StartFrom(thumb, dir, t, made).1;
    if ks.Some? && VerifyKey(ks.value.published, kid).Some? {
      var es := dir[RING_FILE].entries;
      var (dir1, kept) := Prune(dir, es, {}, t);
      PruneKept(dir, es, {}, t);
      LoadedKids(thumb, dir1, kept.value, KeySet(None, []));
      VerifiedIsPublished(ks.value.published, kid);
      var i :| 0 <= i < |kept.value| && kept.value[i].kid == kid;
      assert kept.value[i] in kept.value;
      assert Lists(es, kid);
    }
  }

  /** The key that a start now finds is the key that signed. */
  predicate Finds(thumb: Key -> string, dir: Dir, t: Time, made: Key, kid: string, key: Key) {
    var ks := StartFrom(thumb, dir, t, made).1;
    ks.Some? && VerifyKey(ks.value.published, kid) == Some(key)
  }

  lemma SignerIsLast(thumb: Key -> string, dir: Dir, now: Time, kid: string, key: Key)
    requires DirOk(thumb, dir, now) && Signs(dir, kid, key)
    ensures RingBefore(dir).Some? && var cur := RingBefore(dir).value; cur != [] && cur[|cur| - 1].kid == kid
  {
  }

  /**
   When the ring is replaced, before any horizon has passed: the key that signed is found by a start
   afterwards exactly when the new ring was made from the one it replaces.
   */
  lemma SigningKeySurvivesIff(thumb: Key -> string, w: World, ev: Event, kid: string, key: Key, t: Time, made: Key)
    requires GoodThumb(thumb) && Inv(thumb, w) && DirOk(thumb, w.dir, w.clock) && Signs(w.dir, kid, key)
    requires Enabled(w, ev) && Replaces(w, ev) && w.clock <= t && forall i :: i in w.begun ==> t <= w.begun[i].at
    ensures Finds(thumb, Step(thumb, w, ev).dir, t, made, kid, key) <==> Orderly(thumb, w, ev)
  {
    hide Inv, GoodThumb, DirOk, Signs, Step, MadeFrom, Replaces, Enabled;
    if Orderly(thumb, w, ev) {
      var i :| MadeFrom(thumb, w, ev, i);
      MadeByRotation(thumb, w, ev, i);
      RotationRetains(thumb, w, ev, i, kid, key);
      OrderlyKeepsDir(thumb, w, ev);
      ReplacingTouches(thumb, w, ev);
      RetainedVerifies(thumb, Step(thumb, w, ev).dir, w.clock, kid, key, w.begun[i].at, t, made);
    }
    if Finds(thumb, Step(thumb, w, ev).dir, t, made, kid, key) {
      FoundIsOrderly(thumb, w, ev, kid, key, t, made);
    }
  }

  lemma MadeByRotation(thumb: Key -> string, w: World, ev: Event, i: nat)
    requires Enabled(w, ev) && MadeFrom(thumb, w, ev, i)
    ensures i in w.begun
  {
  }

  lemma FoundIsOrderly(thumb: Key -> string, w: World, ev: Event, kid: string, key: Key, t: Time, made: Key)
    requires GoodThumb(thumb) && Inv(thumb, w) && DirOk(thumb, w.dir, w.clock) && Signs(w.dir, kid, key)
    requires Enabled(w, ev) && Replaces(w, ev) && Finds(thumb, Step(thumb, w, ev).dir, t, made, kid, key)
    ensures Orderly(thumb, w, ev)
  {
    hide Inv, GoodThumb, Step, Holds, RingOf, LoadPublished, Prune, Lists;
    SignerIsLast(thumb, w.dir, w.clock, kid, key);
    hide DirOk, Signs;
    ReplacedRingIsThere(thumb, w, ev);
    var dir, cur := Step(thumb, w, ev).dir, RingBefore(w.dir).value;
    var i := PutInPlace(thumb, w, ev);
    HeldContent(thumb, dir, w.begun[i]);
    OnlyListedArePublished(thumb, dir, t, made, kid);
    NewRingLists(thumb, w.begun[i], kid);
    LastIsNotNew(thumb, w, i);
    if cur != w.begun[i].read {
      NotRead(thumb, w, i);
    }
    assert MadeFrom(thumb, w, ev, i);
  }
}
