/**
 Crash-safe replacement of a JSON file: write a private temporary file, flush it, rename it.

 A file keeps the bytes written to it and how many of them are known to be on the medium; a crash
 may lose any suffix that was not flushed.  Renaming is atomic and durable.

 Line numbers refer to apps/dc-mcp-gateway/atomic-json.js.
 */
module AtomicJson {

  import opened Basics

  type Bytes = seq<bv8>

  datatype File = File(data: Bytes, flushed: nat)
  type Files = map<string, File>

  function Lookup(files: Files, name: string): Option<File> {
    if name in files then Some(files[name]) else None
  }

  /** `after` is what a machine that crashed holding `files` may find when it comes back. */
  ghost predicate Survives(files: Files, after: map<string, Bytes>) {
    && after.Keys == files.Keys
    && forall n :: n in files ==> after[n] <= files[n].data && |after[n]| >= files[n].flushed
  }

  ghost predicate Durable(f: Option<File>) {
    f.Some? ==> f.value.flushed == |f.value.data|
  }

  /** What the operating system does with each call of one save. */
  datatype Io = Io(removes: bool, opens: bool, chmods: bool, write: nat -> int, flushes: bool, renames: bool)

  class Disk {
    var files: Files
    /** The file system after every operation so far: where a crash may strike. */
    ghost var past: seq<Files>

    ghost predicate Valid()
      reads this
    {
      |past| > 0 && past[|past| - 1] == files
    }

    constructor (files: Files)
      ensures Valid() && this.files == files && past == [files]
    {
      this.files := files;
      past := [files];
    }

    /** One operation of the operating system takes effect. */
    method Become(next: Files)
      requires Valid()
      modifies this
      ensures Valid() && files == next && past == old(past) + [next]
    {
      files := next;
      past := past + [next];
    }

    /** During a save the target is untouched, and nothing but the temporary file differs. */
    ghost predicate Undisturbed(name: string, tmp: string, start: nat, before: Files)
      reads this
    {
      && Valid() && start <= |past|
      && (forall n :: n != tmp ==> Lookup(files, n) == Lookup(before, n))
      && (forall i :: start <= i < |past| ==> Lookup(past[i], name) == Lookup(before, name))
    }

    /** Lines 14-19: the loop over short writes. */
    method WriteAll(tmp: string, buf: Bytes, write: nat -> int, ghost name: string, ghost start: nat, ghost before: Files)
      returns (ok: bool)
      requires name != tmp && Undisturbed(name, tmp, start, before) && Lookup(files, tmp) == Some(File([], 0))
      modifies this
      ensures Undisturbed(name, tmp, start, before)
      ensures tmp in files && files[tmp].flushed == 0 && files[tmp].data <= buf
      ensures ok ==> files[tmp].data == buf
      ensures !ok ==> exists k: nat :: write(k) <= 0
    {
      var off, calls := 0, 0;
      while off < |buf|
        invariant 0 <= off <= |buf| && Undisturbed(name, tmp, start, before)
        invariant Lookup(files, tmp) == Some(File(buf[..off], 0))
      {
        var asked := |buf| - off;
        var written := if write(calls) < asked then write(calls) else asked;
        if written <= 0 { return false; }
        off, calls := off + written, calls + 1;
        Become(files[tmp := File(buf[..off], 0)]);
      }
      ok := true;
    }

    /** Lines 7-28. */
    method SaveJson(name: string, tmp: string, buf: Bytes, io: Io) returns (ok: bool)
      requires Valid() && name != tmp && Durable(Lookup(files, name))
      modifies this
      ensures Valid() && |past| >= |old(past)| && Durable(Lookup(files, name))
      ensures Lookup(files, name) == if ok then Some(File(buf, |buf|)) else old(Lookup(files, name))
      ensures forall n :: n != name && n != tmp ==> Lookup(files, n) == old(Lookup(files, n))
      ensures forall i :: |old(past)| <= i < |past| ==>
                Lookup(past[i], name) == old(Lookup(files, name)) || Lookup(past[i], name) == Some(File(buf, |buf|))
      ensures io.removes && io.opens && io.chmods && io.flushes && io.renames && (forall k: nat :: io.write(k) > 0) ==> ok
    {
      ghost var before, start := files, |past|;
      ok := false;
      if !io.removes { return; }
      Become(files - {tmp});
      if !io.opens { return; }
      Become(files[tmp := File([], 0)]);
      var written := io.chmods;
      if written {
        written := WriteAll(tmp, buf, io.write, name, start, before);
      }
      if !written || !io.flushes {
        Become(files - {tmp});
        return;
      }
      Become(files[tmp := File(buf, |buf|)]);
      if !io.renames { return; }
      Become(files[name := files[tmp]] - {tmp});
      ok := true;
    }
  }

  /** `loadJson`: the parsed document, or the default when the file is missing or unreadable. */
  function Load<T>(decode: Bytes -> Option<T>, found: map<string, Bytes>, name: string, default: T): T {
    if name in found && decode(found[name]).Some? then decode(found[name]).value else default
  }

  /** The file `name` holds document `x`: written in full, or missing while `x` is the default. */
  ghost predicate Holds<T>(encode: T -> Bytes, files: Files, name: string, x: T, default: T) {
    Lookup(files, name) == Some(File(encode(x), |encode(x)|)) || (name !in files && x == default)
  }

  /**
   Loading after a crash at any moment of a save yields the old document or the new one, never a
   truncated or mixed one, for any encoding that can be read back.
   */
  lemma CrashLeavesOldOrNew<T>(
    encode: T -> Bytes, decode: Bytes -> Option<T>, start: Files, moment: Files, found: map<string, Bytes>,
    name: string, before: T, next: T, default: T)
    requires forall x :: decode(encode(x)) == Some(x)
    requires Holds(encode, start, name, before, default)
    requires Lookup(moment, name) == Lookup(start, name)
          || Lookup(moment, name) == Some(File(encode(next), |encode(next)|))
    requires Survives(moment, found)
    ensures Load(decode, found, name, default) == before || Load(decode, found, name, default) == next
  {
    if name in moment {
      assert found[name] == moment[name].data;
    }
  }
}
