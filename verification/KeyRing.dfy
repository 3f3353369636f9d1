/**
 The signing-key directory: rotation, retention, pruning at start, and the legacy layout.

 A directory maps file names to contents.  `StartFrom` is what a start loads and what it does to
 the directory; `RotationOps` is the list of file operations of a rotation, so that a crash is a
 prefix of the list.  Keys are opaque; a kid is the thumbprint of a key, given as a function.
 */
module KeyRing {
  import opened Options

  type Time = int
  type Key = nat

  const LEGACY_FILE := "minidp-rsa.pem"
  const RING_FILE := "keyring.json"
  const LEGACY_KID := "minidp-1"

  datatype State = Active | Retiring | Other

  datatype Entry = Entry(kid: string, file: string, state: State, retireAt: Option<Time>)

  /** A file holds a private key, a key ring, nothing, or bytes that parse as neither. */
  datatype Content = Pem(key: Key) | Ring(entries: seq<Entry>) | Empty | Junk

  type Dir = map<string, Content>

  datatype SigningKey = SigningKey(kid: string, key: Key)

  datatype KeySet = KeySet(active: Option<SigningKey>, published: seq<SigningKey>)

  function PemName(kid: string): string {
    "minidp-rsa-" + kid + ".pem"
  }

  function Temp(name: string): string {
    name + ".tmp"
  }

  // ----- a start -----

  function LoadKey(dir: Dir, file: string): Option<Key> {
    if file in dir && dir[file].Pem? then Some(dir[file].key) else None
  }

  predicate HorizonPassed(e: Entry, now: Time) {
    e.state == Retiring && e.retireAt.Some? && e.retireAt.value < now
  }

  /** The directory after pruning, and the entries that stay, or `None` for a malformed ring. */
  function Prune(dir: Dir, entries: seq<Entry>, seen: set<string>, now: Time): (Dir, Option<seq<Entry>>)
    decreases |entries|
  {
    if entries == [] then (dir, Some([])) else
    var e := entries[0];
    if e.kid == "" || e.file == "" || e.state == Other || e.kid in seen then (dir, None)
    else if HorizonPassed(e, now) then Prune(dir - {e.file}, entries[1..], seen + {e.kid}, now)
    else
      var (dir1, kept) := Prune(dir, entries[1..], seen + {e.kid}, now);
      (dir1, if kept.None? then None else Some([e] + kept.value))
  }

  /** The key set of the kept entries, or `None` when the start fails. */
  function LoadPublished(thumb: Key -> string, dir: Dir, kept: seq<Entry>, ks: KeySet): Option<KeySet>
    decreases |kept|
  {
    if kept == [] then Some(ks) else
    var e, key := kept[0], LoadKey(dir, kept[0].file);
    if key.None? then
      if e.state == Retiring then LoadPublished(thumb, dir, kept[1..], ks) else None
    else if e.kid != LEGACY_KID && thumb(key.value) != e.kid then None
    else if e.state == Active && ks.active.Some? then None
    else
      var k := SigningKey(e.kid, key.value);
      LoadPublished(thumb, dir, kept[1..], KeySet(if e.state == Active then Some(k) else ks.active, ks.published + [k]))
  }

  function Single(key: Key): KeySet {
    KeySet(Some(SigningKey(LEGACY_KID, key)), [SigningKey(LEGACY_KID, key)])
  }

  /** The directory after a start, and the key set it loads; `made` is the key a first start generates. */
  function StartFrom(thumb: Key -> string, dir: Dir, now: Time, made: Key): (Dir, Option<KeySet>) {
    if RING_FILE !in dir then
      if LEGACY_FILE in dir then
        (dir, if dir[LEGACY_FILE].Pem? then Some(Single(dir[LEGACY_FILE].key)) else None)
      else
        (dir[LEGACY_FILE := Pem(made)] - {Temp(LEGACY_FILE)}, Some(Single(made)))
    else if !dir[RING_FILE].Ring? then (dir, None)
    else
      var (dir1, kept) := Prune(dir, dir[RING_FILE].entries, {}, now);
      if kept.None? || kept.value == [] then (dir1, None) else
      var ks := LoadPublished(thumb, dir1, kept.value, KeySet(None, []));
      (dir1, if ks.None? || ks.value.active.None? then None else ks)
  }

  /**
   The directory of a start that stops early: after `n` entries of the ring have been looked at, or
   after `n` steps of writing the first key.
   */
  function StartUpTo(dir: Dir, now: Time, made: Key, n: nat): Dir {
    if RING_FILE in dir then
      if !dir[RING_FILE].Ring? then dir
      else
        var es := dir[RING_FILE].entries;
        Prune(dir, if n <= |es| then es[..n] else es, {}, now).0
    else if LEGACY_FILE in dir || n == 0 then dir
    else dir[Temp(LEGACY_FILE) := if n == 1 then Empty else Pem(made)]
  }

  /** The published key with the given kid, as token verification looks it up. */
  function VerifyKey(published: seq<SigningKey>, kid: string): Option<Key>
    decreases |published|
  {
    if published == [] then None
    else if published[0].kid == kid then Some(published[0].key)
    else VerifyKey(published[1..], kid)
  }

  // ----- a rotation -----

  /** The ring that a rotation starts from, or `None` when it cannot be read. */
  function RingBefore(dir: Dir): Option<seq<Entry>> {
    if RING_FILE in dir then
      if dir[RING_FILE].Ring? then Some(dir[RING_FILE].entries) else None
    else if LEGACY_FILE in dir then Some([Entry(LEGACY_KID, LEGACY_FILE, Active, None)])
    else Some([])
  }

  function Retire(e: Entry, at: Time): Entry {
    if e.state == Active then e.(state := Retiring, retireAt := Some(at)) else e
  }

  function RetireAll(es: seq<Entry>, at: Time): (r: seq<Entry>)
    ensures |r| == |es| && forall i :: 0 <= i < |es| ==> r[i] == Retire(es[i], at)
  {
    seq(|es|, i requires 0 <= i < |es| => Retire(es[i], at))
  }

  datatype FsOp = Create(name: string) | Write(name: string, content: Content) | Rename(from: string, to: string)

  function ApplyOp(dir: Dir, op: FsOp): Dir {
    match op
    case Create(name) => dir[name := Empty]
    case Write(name, content) => dir[name := content]
    case Rename(from, to) => if from in dir then dir[to := dir[from]] - {from} else dir
  }

  function ApplyOps(dir: Dir, ops: seq<FsOp>): Dir
    decreases |ops|
  {
    if ops == [] then dir else ApplyOps(ApplyOp(dir, ops[0]), ops[1..])
  }

  /** Saving a file: create a temporary one, write it, and rename it. */
  function SaveOps(name: string, content: Content): seq<FsOp> {
    [Create(Temp(name)), Write(Temp(name), content), Rename(Temp(name), name)]
  }

  /** The file operations of a rotation at `now`, or `None` when it is refused before the first one. */
  function RotationOps(thumb: Key -> string, dir: Dir, now: Time, retention: Time, key: Key): Option<seq<FsOp>> {
    var ring := RingBefore(dir);
    if ring.None? then None
    else if exists i :: 0 <= i < |ring.value| && ring.value[i].state == Other then None
    else
      var retired := RetireAll(ring.value, now + retention);
      var kid := thumb(key);
      if exists i :: 0 <= i < |retired| && retired[i].kid == kid then None else
      var name := PemName(kid);
      if Temp(name) in dir then None else
      Some(SaveOps(name, Pem(key)) + SaveOps(RING_FILE, Ring(retired + [Entry(kid, name, Active, None)])))
  }
}
