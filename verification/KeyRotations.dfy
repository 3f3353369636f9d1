/**
 The key directory with any number of rotations at work.

 A rotation is not one step.  It reads the ring, and then performs six file operations: it creates,
 writes and renames a key file under a name of its own, and it opens, writes and renames the ring
 through a temporary file whose name all rotations share.  Between two operations other rotations and
 starts may come in, and a rotation that never goes on is one that has crashed.

 An open file keeps its identity when it is renamed: a rotation that has opened the temporary file goes
 on to write into the ring itself when another rotation has renamed that file meanwhile, and into
 nothing when the ring has been replaced since.
 */
module KeyRotations {
  import opened Options
  import opened KeyRing
  import opened KeyRingProofs

  const RING_TEMP := Temp(RING_FILE)

  /**
   A rotation: the ring it has read, the horizon for the key that is active in it, the new key, the
   number of operations done, and the name that the ring file it has open goes by now.
   */
  datatype Rotation = Rotation(read: seq<Entry>, at: Time, key: Key, done: nat, open: Option<string>)

  /** The directory at a moment; `known` holds every key generated so far, `begun` every rotation. */
  datatype World = World(clock: Time, dir: Dir, known: set<Key>, begun: map<nat, Rotation>)

  datatype Event =
    | Begin(id: nat, now: Time, retention: Time, key: Key)
    | Go(id: nat, torn: bool)                         // the next operation; `torn` for writing over a longer file
    | Start(now: Time, key: Key)
    | CrashedStart(now: Time, key: Key, steps: nat)   // stops after `steps` steps

  predicate Enabled(w: World, ev: Event) {
    match ev
    case Begin(id, now, _, key) => w.clock <= now && key !in w.known && id !in w.begun
    case Go(id, _) => id in w.begun && w.begun[id].done < 6
    case Start(now, key) => w.clock <= now && key !in w.known
    case CrashedStart(now, key, _) => w.clock <= now && key !in w.known
  }

  function RingOf(thumb: Key -> string, r: Rotation): seq<Entry> {
    NewRing(r.read, r.at, thumb(r.key))
  }

  function PemOf(thumb: Key -> string, r: Rotation): string {
    PemName(thumb(r.key))
  }

  predicate Lists(es: seq<Entry>, kid: string) {
    exists i :: 0 <= i < |es| && es[i].kid == kid
  }

  /** Reads the ring and generates the key; an unreadable ring and a bad state refuse the rotation. */
  function DoBegin(thumb: Key -> string, w: World, id: nat, now: Time, retention: Time, key: Key): World {
    var ring := RingBefore(w.dir);
    var w1 := w.(clock := now, known := w.known + {key});
    if ring.None? || (exists i :: 0 <= i < |ring.value| && ring.value[i].state == Other) || Lists(ring.value, thumb(key)) then w1
    else w1.(begun := w.begun[id := Rotation(ring.value, now + retention, key, 0, None)])
  }

  /** What a write through an open file leaves there: what was written, or a mixture with what was there before. */
  function Written(dir: Dir, name: string, content: Content, torn: bool): Content {
    if torn && name in dir && dir[name] != Empty then Junk else content
  }

  /** The directory after the rotation's next operation. */
  function DirAfter(thumb: Key -> string, dir: Dir, r: Rotation, torn: bool): Dir {
    var pem := PemOf(thumb, r);
    if r.done == 0 then (if Temp(pem) in dir then dir else ApplyOp(dir, Create(Temp(pem))))
    else if r.done == 1 then ApplyOp(dir, Write(Temp(pem), Pem(r.key)))
    else if r.done == 2 then ApplyOp(dir, Rename(Temp(pem), pem))
    else if r.done == 3 then ApplyOp(dir, Create(RING_TEMP))
    else if r.done == 4 then
      if r.open.None? then dir
      else ApplyOp(dir, Write(r.open.value, Written(dir, r.open.value, Ring(RingOf(thumb, r)), torn)))
    else ApplyOp(dir, Rename(RING_TEMP, RING_FILE))
  }

  /** The rotation after its next operation; one that finds its own temporary key file there gives up. */
  function Further(thumb: Key -> string, dir: Dir, r: Rotation): Rotation {
    if r.done == 0 && Temp(PemOf(thumb, r)) in dir then r.(done := 6)
    else r.(done := r.done + 1, open := if r.done == 3 then Some(RING_TEMP) else None)
  }

  /** An open file after the temporary file has been renamed to the ring. */
  function Follow(r: Rotation): Rotation {
    r.(open := if r.open == Some(RING_TEMP) then Some(RING_FILE) else None)
  }

  predicate Renames(dir: Dir, r: Rotation) {
    r.done == 5 && RING_TEMP in dir
  }

  function DoGo(thumb: Key -> string, w: World, id: nat, torn: bool): World
    requires id in w.begun
  {
    var r := w.begun[id];
    var begun := if Renames(w.dir, r) then map i | i in w.begun :: Follow(w.begun[i]) else w.begun;
    w.(dir := DirAfter(thumb, w.dir, r, torn), begun := begun[id := Further(thumb, w.dir, r)])
  }

  function Step(thumb: Key -> string, w: World, ev: Event): World
    requires Enabled(w, ev)
  {
    match ev
    case Begin(id, now, retention, key) => DoBegin(thumb, w, id, now, retention, key)
    case Go(id, torn) => DoGo(thumb, w, id, torn)
    case Start(now, key) => w.(clock := now, dir := StartFrom(thumb, w.dir, now, key).0, known := w.known + {key})
    case CrashedStart(now, key, steps) => w.(clock := now, dir := StartUpTo(w.dir, now, key, steps), known := w.known + {key})
  }

  predicate ValidRun(thumb: Key -> string, w: World, evs: seq<Event>)
    decreases |evs|
  {
    evs == [] || (Enabled(w, evs[0]) && ValidRun(thumb, Step(thumb, w, evs[0]), evs[1..]))
  }

  function After(thumb: Key -> string, w: World, evs: seq<Event>): World
    requires ValidRun(thumb, w, evs)
    decreases |evs|
  {
    if evs == [] then w else After(thumb, Step(thumb, w, evs[0]), evs[1..])
  }

  /** A directory before its first rotation: empty or with the legacy key. */
  ghost predicate Initial(thumb: Key -> string, w: World) {
    && w.begun == map[] && RING_FILE !in w.dir && RING_TEMP !in w.dir
    && (LEGACY_FILE in w.dir ==> w.dir[LEGACY_FILE].Pem?)
    && (forall key :: key !in w.known ==> Temp(PemName(thumb(key))) !in w.dir)
  }

  // ----- what holds whatever the rotations do -----

  predicate Unreadable(c: Content) {
    c.Empty? || c.Junk?
  }

  predicate Holds(thumb: Key -> string, dir: Dir, name: string, r: Rotation) {
    name in dir && dir[name] == Ring(RingOf(thumb, r))
  }

  /** Keys are known and nobody else's, and the rings that were read are made of known keys. */
  ghost predicate KeysInv(thumb: Key -> string, w: World) {
    && (forall i :: i in w.begun ==> w.begun[i].key in w.known && w.begun[i].done <= 6)
    && (forall i, j :: i in w.begun && j in w.begun && i != j ==> w.begun[i].key != w.begun[j].key)
  }

  ghost predicate ReadOk(thumb: Key -> string, known: set<Key>, r: Rotation) {
    && BaseOk(r.read) && !Lists(r.read, thumb(r.key))
    && (forall key :: key !in known ==> !Lists(r.read, thumb(key)))
  }

  ghost predicate ReadsInv(thumb: Key -> string, w: World) {
    forall i :: i in w.begun ==> ReadOk(thumb, w.known, w.begun[i])
  }

  /** The file is absent, unreadable, or holds the ring of a rotation that has written it. */
  ghost predicate RingFileOk(thumb: Key -> string, w: World, name: string) {
    name in w.dir ==>
      || Unreadable(w.dir[name])
      || exists i :: i in w.begun && w.begun[i].done >= 5 && Holds(thumb, w.dir, name, w.begun[i])
  }

  /** A ring is in one place only. */
  ghost predicate RingsInv(thumb: Key -> string, w: World) {
    && RingFileOk(thumb, w, RING_FILE) && RingFileOk(thumb, w, RING_TEMP)
    && (forall i :: i in w.begun ==> !(Holds(thumb, w.dir, RING_FILE, w.begun[i]) && Holds(thumb, w.dir, RING_TEMP, w.begun[i])))
  }

  /** A new key that somebody has read was in place then: its ring is there, as it was read, or gone for good. */
  ghost predicate Seen(thumb: Key -> string, dir: Dir, reader: Rotation, r: Rotation) {
    Lists(reader.read, thumb(r.key)) ==>
      && r.done >= 5 && !Holds(thumb, dir, RING_TEMP, r)
      && (Holds(thumb, dir, RING_FILE, r) ==> reader.read == RingOf(thumb, r))
  }

  ghost predicate SeenInv(thumb: Key -> string, w: World) {
    forall i, j :: i in w.begun && j in w.begun ==> Seen(thumb, w.dir, w.begun[i], w.begun[j])
  }

  ghost predicate OpenInv(w: World) {
    forall i :: i in w.begun && w.begun[i].open.Some? ==>
      w.begun[i].done == 4 && w.begun[i].open.value in {RING_TEMP, RING_FILE} && w.begun[i].open.value in w.dir
  }

  /** The key file of a rotation is on its way, or in place as long as its ring is not lost. */
  ghost predicate PemOk(thumb: Key -> string, dir: Dir, r: Rotation) {
    && (r.done == 0 ==> Temp(PemOf(thumb, r)) !in dir)
    && (r.done == 2 ==> Temp(PemOf(thumb, r)) in dir && dir[Temp(PemOf(thumb, r))] == Pem(r.key))
    && (3 <= r.done <= 4 || Holds(thumb, dir, RING_TEMP, r) || Holds(thumb, dir, RING_FILE, r) ==>
          PemOf(thumb, r) in dir && dir[PemOf(thumb, r)] == Pem(r.key))
  }

  ghost predicate PemInv(thumb: Key -> string, w: World) {
    && (forall i :: i in w.begun ==> PemOk(thumb, w.dir, w.begun[i]))
    && (forall key :: key !in w.known ==> Temp(PemName(thumb(key))) !in w.dir)
  }

  const LEGACY_ENTRY := Entry(LEGACY_KID, LEGACY_FILE, Active, None)

  /** Before the first ring, rotations have read nothing or the legacy key that is still there. */
  ghost predicate LegacyInv(w: World) {
    RING_FILE !in w.dir ==>
      && (LEGACY_FILE in w.dir ==> w.dir[LEGACY_FILE].Pem?)
      && (forall i :: i in w.begun ==> w.begun[i].read == [] || (LEGACY_FILE in w.dir && w.begun[i].read == [LEGACY_ENTRY]))
  }

  ghost predicate Inv(thumb: Key -> string, w: World) {
    && KeysInv(thumb, w) && ReadsInv(thumb, w) && RingsInv(thumb, w) && SeenInv(thumb, w)
    && OpenInv(w) && PemInv(thumb, w) && LegacyInv(w)
  }

  lemma InvInitial(thumb: Key -> string, w: World)
    requires Initial(thumb, w)
    ensures Inv(thumb, w)
  {
  }
}
