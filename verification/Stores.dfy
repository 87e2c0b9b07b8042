/** Storage backends as maps from locations to bytes, and the running hash of a stream. */
module Stores {
  import opened Options
  import opened LocalPaths

  type Byte = x: int | 0 <= x < 256

  type Bytes = seq<Byte>

  type Files = map<string, Bytes>

  /** A bucket stores under the key itself, a local store under a path below its base. */
  datatype Backend = Bucket | Local(base: string)

  predicate BackendOk(b: Backend) {
    b.Local? ==> CleanAbs(b.base)
  }

  function Locate(b: Backend, key: string): Option<string> {
    match b
    case Bucket => Some(key)
    case Local(base) => PathForWrite(base, key)
  }

  /** How a write of the backend ends: it works, or it breaks and leaves anything, or nothing new. */
  datatype Fault = Works | Breaks(left: Option<Bytes>)

  predicate Succeeds(b: Backend, key: string, fault: Fault) {
    fault.Works? && Locate(b, key).Some?
  }

  function FilesAfter(b: Backend, files: Files, key: string, data: Bytes, fault: Fault): Files {
    match Locate(b, key)
    case None => files
    case Some(loc) =>
      match fault
      case Works => files[loc := data]
      case Breaks(None) => files
      case Breaks(Some(left)) => files[loc := left]
  }

  function Lookup(b: Backend, files: Files, key: string): Option<Bytes> {
    match Locate(b, key)
    case None => None
    case Some(loc) => if loc in files then Some(files[loc]) else None
  }

  // ---- hashing a stream ----

  /** A hash as a fold over bytes: crypto/sha256 up to its internals. */
  datatype Hasher = Hasher(init: int, step: (int, Byte) -> int, show: int -> string)

  function Fold(h: Hasher, acc: int, data: Bytes): int {
    if data == [] then acc else h.step(Fold(h, acc, data[..|data| - 1]), data[|data| - 1])
  }

  function Checksum(h: Hasher, data: Bytes): string {
    h.show(Fold(h, h.init, data))
  }

  lemma {:induction false} FoldAppend(h: Hasher, acc: int, data: Bytes, more: Bytes)
    ensures Fold(h, acc, data + more) == Fold(h, Fold(h, acc, data), more)
  {
    if more == [] {
      assert data + more == data;
    } else {
      var n := |more| - 1;
      FoldAppend(h, acc, data, more[..n]);
      assert (data + more)[..|data + more| - 1] == data + more[..n];
    }
  }

  function Flatten(chunks: seq<Bytes>): Bytes {
    if chunks == [] then [] else Flatten(chunks[..|chunks| - 1]) + chunks[|chunks| - 1]
  }

  /** The MultiWriter behind the TeeReader: the hash and the countingWriter. */
  class Tee {
    const hasher: Hasher
    var state: int
    var n: nat

    constructor (hasher: Hasher)
      ensures this.hasher == hasher && state == hasher.init && n == 0
    {
      this.hasher := hasher;
      state, n := hasher.init, 0;
    }

    method Write(p: Bytes)
      modifies this
      ensures state == Fold(hasher, old(state), p)
      ensures n == old(n) + |p|
    {
      for i := 0 to |p|
        invariant state == Fold(hasher, old(state), p[..i]) && n == old(n)
      {
        assert p[..i + 1][..i] == p[..i];
        state := hasher.step(state, p[i]);
      }
      assert p[..|p|] == p;
      n := n + |p|;
    }
  }

  class Store {
    const backend: Backend
    var files: Files

    constructor (backend: Backend)
      ensures this.backend == backend && files == map[]
    {
      this.backend := backend;
      files := map[];
    }

    method Put(key: string, data: Bytes, fault: Fault) returns (ok: bool)
      modifies this
      ensures ok == Succeeds(backend, key, fault)
      ensures files == FilesAfter(backend, old(files), key, data, fault)
    {
      var loc := Locate(backend, key);
      if loc.None? { return false; }
      match fault
      case Works =>
        files := files[loc.value := data];
        return true;
      case Breaks(left) =>
        if left.Some? { files := files[loc.value := left.value]; }
        return false;
    }

    /** The stream arrives in chunks; each one read goes through the tee. */
    method PutReader(key: string, chunks: seq<Bytes>, tee: Tee, fault: Fault) returns (ok: bool)
      modifies this, tee
      ensures ok == Succeeds(backend, key, fault)
      ensures files == FilesAfter(backend, old(files), key, Flatten(chunks), fault)
      ensures ok ==> tee.state == Fold(tee.hasher, old(tee.state), Flatten(chunks))
      ensures ok ==> tee.n == old(tee.n) + |Flatten(chunks)|
    {
      var loc := Locate(backend, key);
      if loc.None? { return false; }
      if fault.Breaks? {
        if fault.left.Some? { files := files[loc.value := fault.left.value]; }
        return false;
      }
      var written: Bytes := [];
      for i := 0 to |chunks|
        invariant files == old(files)
        invariant written == Flatten(chunks[..i])
        invariant tee.state == Fold(tee.hasher, old(tee.state), written)
        invariant tee.n == old(tee.n) + |written|
      {
        assert chunks[..i + 1][..i] == chunks[..i];
        FoldAppend(tee.hasher, old(tee.state), written, chunks[i]);
        tee.Write(chunks[i]);
        written := written + chunks[i];
      }
      assert chunks[..|chunks|] == chunks;
      files := files[loc.value := written];
      return true;
    }

    method Get(key: string) returns (r: Option<Bytes>)
      ensures r == Lookup(backend, files, key)
    {
      var loc := Locate(backend, key);
      if loc.None? || loc.value !in files { return None; }
      return Some(files[loc.value]);
    }
  }
}
