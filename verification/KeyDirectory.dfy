/** The key directory as the code works on it: loops that remove files and rewrite ring entries. */
module KeyDirectory {
  import opened Options
  import opened KeyRing
  import opened KeyRingProofs
  import opened KeyStart

  /** Marks every active entry as retiring, in place; an unknown state is refused. */
  method RetireRingKeys(ring: array<Entry>, at: Time) returns (ok: bool)
    modifies ring
    ensures ok <==> forall i :: 0 <= i < ring.Length ==> old(ring[i]).state != Other
    ensures ok ==> ring[..] == RetireAll(old(ring[..]), at)
    ensures ok ==> forall i :: 0 <= i < ring.Length ==>
                     ring[i] == if old(ring[i]).state == Active then Entry(old(ring[i]).kid, old(ring[i]).file, Retiring, Some(at))
                                else old(ring[i])
  {
    for i := 0 to ring.Length
      invariant forall j :: 0 <= j < i ==> old(ring[j]).state != Other && ring[j] == Retire(old(ring[j]), at)
      invariant forall j :: i <= j < ring.Length ==> ring[j] == old(ring[j])
    {
      match ring[i].state
      case Active => ring[i] := ring[i].(state := Retiring, retireAt := Some(at));
      case Retiring =>
      case Other => return false;
    }
    assert ring[..] == RetireAll(old(ring[..]), at);
    return true;
  }

  /** What is kept, and which files are left: all but the retiring entries whose horizon is before now. */
  ghost predicate Pruning(dir: Dir, ring: seq<Entry>, now: Time, dir1: Dir, kept: Option<seq<Entry>>) {
    kept.Some? ==>
      && (forall e :: e in kept.value <==> e in ring && !(e.state == Retiring && e.retireAt.Some? && e.retireAt.value < now))
      && (forall name :: name in dir1 <==>
            name in dir && !(exists i :: 0 <= i < |ring| && ring[i].file == name && ring[i].state == Retiring &&
                                         ring[i].retireAt.Some? && ring[i].retireAt.value < now))
  }

  lemma PruneIsPruning(dir: Dir, ring: seq<Entry>, now: Time)
    ensures var (dir1, kept) := Prune(dir, ring, {}, now); Pruning(dir, ring, now, dir1, kept)
  {
    hide Prune;
    PruneIsExact(dir, ring, now);
  }

  class KeyDir {
    var files: Dir

    constructor (files: Dir)
      ensures this.files == files
    {
      this.files := files;
    }

    /** Validates the entries and removes the files of those whose horizon has passed. */
    method PruneRetiredKeys(ring: seq<Entry>, now: Time) returns (kept: Option<seq<Entry>>)
      modifies this
      ensures (files, kept) == Prune(old(files), ring, {}, now)
      ensures Pruning(old(files), ring, now, files, kept)
    {
      hide Pruning;
      PruneIsPruning(files, ring, now);
      var out: seq<Entry> := [];
      var byKid: map<string, bool> := map[];
      ghost var all := Prune(files, ring, {}, now).1;
      assert ring[0..] == ring && byKid.Keys == {} && (all.Some? ==> out + all.value == all.value);
      for i := 0 to |ring|
        invariant var whole, rest := Prune(old(files), ring, {}, now), Prune(files, ring[i..], byKid.Keys, now);
                  && whole.0 == rest.0
                  && whole.1 == (if rest.1.None? then None else Some(out + rest.1.value))
      {
        var e := ring[i];
        assert ring[i..][1..] == ring[i + 1..];
        if e.kid == "" || e.file == "" || e.state == Other || e.kid in byKid {
          return None;
        }
        ghost var seen := byKid.Keys;
        byKid := byKid[e.kid := true];
        assert byKid.Keys == seen + {e.kid};
        if e.state == Retiring && e.retireAt.Some? && e.retireAt.value < now {
          files := files - {e.file};
          continue;
        }
        ghost var rest := Prune(files, ring[i + 1..], byKid.Keys, now).1;
        assert rest.Some? ==> out + ([e] + rest.value) == out + [e] + rest.value;
        out := out + [e];
      }
      assert ring[|ring|..] == [] && out + [] == out;
      return Some(out);
    }

    /** Loads the kept entries' keys; a lost retiring key is dropped, any other problem is an error. */
    method LoadPublishedKeys(thumb: Key -> string, kept: seq<Entry>) returns (ks: Option<KeySet>)
      ensures ks == LoadPublished(thumb, files, kept, KeySet(None, []))
    {
      var acc := KeySet(None, []);
      for i := 0 to |kept|
        invariant LoadPublished(thumb, files, kept, KeySet(None, [])) == LoadPublished(thumb, files, kept[i..], acc)
      {
        var e := kept[i];
        assert kept[i..][1..] == kept[i + 1..];
        var key := LoadKey(files, e.file);
        if key.None? {
          if e.state == Retiring {
            continue;
          }
          return None;
        }
        if e.kid != LEGACY_KID && thumb(key.value) != e.kid {
          return None;
        }
        var k := SigningKey(e.kid, key.value);
        if e.state == Active {
          if acc.active.Some? {
            return None;
          }
          acc := acc.(active := Some(k));
        }
        acc := acc.(published := acc.published + [k]);
      }
      return Some(acc);
    }

    /** A start: the ring when there is one, the single legacy key otherwise. */
    method KeySetFromDir(thumb: Key -> string, now: Time, made: Key) returns (ks: Option<KeySet>)
      modifies this
      ensures (files, ks) == StartFrom(thumb, old(files), now, made)
    {
      if RING_FILE !in files {
        if LEGACY_FILE in files {
          return if files[LEGACY_FILE].Pem? then Some(Single(files[LEGACY_FILE].key)) else None;
        }
        files := files[LEGACY_FILE := Pem(made)] - {Temp(LEGACY_FILE)};
        return Some(Single(made));
      }
      if !files[RING_FILE].Ring? {
        return None;
      }
      var kept := PruneRetiredKeys(files[RING_FILE].entries, now);
      if kept.None? || |kept.value| == 0 {
        return None;
      }
      ks := LoadPublishedKeys(thumb, kept.value);
      if ks.None? || ks.value.active.None? {
        return None;
      }
    }

    method Perform(op: FsOp)
      modifies this
      ensures files == ApplyOp(old(files), op)
    {
      match op
      case Create(name) => files := files[name := Empty];
      case Write(name, content) => files := files[name := content];
      case Rename(from, to) =>
        if from in files {
          files := files[to := files[from]] - {from};
        }
    }

    /** Writes a file by way of a temporary one. */
    method Save(name: string, content: Content)
      modifies this
      ensures files == ApplyOps(old(files), SaveOps(name, content))
    {
      Perform(Create(Temp(name)));
      Perform(Write(Temp(name), content));
      Perform(Rename(Temp(name), name));
      ThreeOps(old(files), Create(Temp(name)), Write(Temp(name), content), Rename(Temp(name), name));
    }

    /** A rotation that is not interrupted. */
    method RotateKeys(thumb: Key -> string, now: Time, retention: Time, key: Key) returns (ok: bool)
      modifies this
      ensures var ops := RotationOps(thumb, old(files), now, retention, key);
              ok == ops.Some? && files == if ok then ApplyOps(old(files), ops.value) else old(files)
    {
      var before := RingBefore(files);
      if before.None? {
        return false;
      }
      ghost var es := before.value;
      var ring := new Entry[|before.value|](i requires 0 <= i < |before.value| => before.value[i]);
      assert ring[..] == es;
      ok := RetireRingKeys(ring, now + retention);
      if !ok {
        return;
      }
      var kid := thumb(key);
      for i := 0 to ring.Length
        invariant forall j :: 0 <= j < i ==> ring[j].kid != kid
      {
        if ring[i].kid == kid {
          assert RetireAll(es, now + retention)[i].kid == kid;
          return false;
        }
      }
      var name := PemName(kid);
      if Temp(name) in files {
        return false;
      }
      Save(name, Pem(key));
      Save(RING_FILE, Ring(ring[..] + [Entry(kid, name, Active, None)]));
      OpsInTwo(old(files), SaveOps(name, Pem(key)), SaveOps(RING_FILE, Ring(ring[..] + [Entry(kid, name, Active, None)])));
      return true;
    }
  }

  lemma ThreeOps(dir: Dir, a: FsOp, b: FsOp, c: FsOp)
    ensures ApplyOps(dir, [a, b, c]) == ApplyOp(ApplyOp(ApplyOp(dir, a), b), c)
  {
    hide ApplyOp;
    assert [a, b, c][1..] == [b, c] && [b, c][1..] == [c] && [c][1..] == [];
    assert ApplyOps(ApplyOp(ApplyOp(dir, a), b), [c]) == ApplyOps(ApplyOp(ApplyOp(ApplyOp(dir, a), b), c), []);
  }

  /** The key function of token verification. */
  method FindVerifyKey(published: seq<SigningKey>, kid: string) returns (key: Option<Key>)
    ensures key == VerifyKey(published, kid)
  {
    for i := 0 to |published|
      invariant VerifyKey(published, kid) == VerifyKey(published[i..], kid)
    {
      if published[i].kid == kid {
        return Some(published[i].key);
      }
      assert published[i..][1..] == published[i + 1..];
    }
    return None;
  }
}
