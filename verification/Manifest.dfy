/** artifact.Dir: writes below a namespace, the entries recorded beside them, and the manifest. */
module Manifest {
  import opened Options
  import opened Refs
  import opened Keys
  import opened Stores
  import opened Indexes
  import LocalPaths
  import Paths

  const INDEX_FILE := "index.json"

  /** JSON encoding and decoding of the manifest. */
  datatype Codec = Codec(encode: Index -> Bytes, decode: Bytes -> Option<Index>)

  ghost predicate RoundTrips(c: Codec) {
    forall ix :: c.decode(c.encode(ix)) == Some(ix)
  }

  /** A Dir and the files of its backend. */
  datatype DirState = DirState(namespace: RefResult, backend: Backend, files: Files, entries: seq<Entry>)

  datatype Answer = Done | BadNamespace(error: RefError) | BadRef(error: RefError) | StoreFailed

  function EntryOf(h: Hasher, ref: string, data: Bytes, tags: map<string, string>): Entry {
    Entry(ref, |data|, Checksum(h, data), tags)
  }

  /** One Put or PutReader of a ref; data is the whole of what is written. */
  datatype Op = Op(ref: string, data: Bytes, tags: map<string, string>, fault: Fault)

  function AnswerTo(d: DirState, ref: string, fault: Fault): Answer {
    if d.namespace.Err? then BadNamespace(d.namespace.error)
    else if CleanRef(ref).Err? then BadRef(CleanRef(ref).error)
    else if Succeeds(d.backend, Key(d.namespace.ref, CleanRef(ref).ref), fault) then Done
    else StoreFailed
  }

  function Write(h: Hasher, d: DirState, op: Op): DirState {
    if d.namespace.Err? || CleanRef(op.ref).Err? then d
    else
      var r := CleanRef(op.ref).ref;
      var key := Key(d.namespace.ref, r);
      d.(files := FilesAfter(d.backend, d.files, key, op.data, op.fault),
         entries :=
           if Succeeds(d.backend, key, op.fault) then d.entries + [EntryOf(h, r, op.data, op.tags)] else d.entries)
  }

  /** The index that Finalize writes. */
  function IndexOf(d: DirState, now: int): Index
    requires d.namespace.Ok?
  {
    Index(d.namespace.ref, now, d.entries, |d.entries|, TotalSize(d.entries))
  }

  function Finalized(c: Codec, d: DirState, now: int, fault: Fault): DirState {
    if d.namespace.Err? then d
    else
      d.(files := FilesAfter(d.backend, d.files, Key(d.namespace.ref, INDEX_FILE), c.encode(IndexOf(d, now)), fault))
  }

  datatype Loaded = Loaded(index: Index) | Malformed | NotFound | InvalidNamespace(error: RefError)

  function Load(c: Codec, d: DirState): Loaded {
    if d.namespace.Err? then InvalidNamespace(d.namespace.error)
    else
      match Lookup(d.backend, d.files, Key(d.namespace.ref, INDEX_FILE))
      case None => NotFound
      case Some(data) =>
        match c.decode(data)
        case None => Malformed
        case Some(ix) => Loaded(ix)
  }

  class Dir {
    const store: Store
    const hasher: Hasher
    const namespace: RefResult
    var entries: seq<Entry>

    ghost function Content(): DirState
      reads this, store
    {
      DirState(namespace, store.backend, store.files, entries)
    }

    /** Store.Dir: an invalid namespace is remembered, and every operation answers with it. */
    constructor (store: Store, hasher: Hasher, namespace: string)
      ensures this.store == store && this.hasher == hasher
      ensures Content() == DirState(CleanRef(namespace), store.backend, store.files, [])
    {
      this.store := store;
      this.hasher := hasher;
      this.namespace := CleanRef(namespace);
      entries := [];
    }

    method Record(e: Entry)
      modifies `entries
      ensures entries == old(entries) + [e]
    {
      entries := entries + [e];
    }

    method Put(ref: string, data: Bytes, tags: map<string, string>, fault: Fault) returns (r: Answer)
      modifies this, store
      ensures Content() == Write(hasher, old(Content()), Op(ref, data, tags, fault))
      ensures r == AnswerTo(old(Content()), ref, fault)
    {
      if namespace.Err? { return BadNamespace(namespace.error); }
      var clean := CleanRef(ref);
      if clean.Err? { return BadRef(clean.error); }
      var ok := store.Put(Key(namespace.ref, clean.ref), data, fault);
      if !ok { return StoreFailed; }
      Record(Entry(clean.ref, |data|, Checksum(hasher, data), tags));
      return Done;
    }

    /** Size and checksum are taken from the stream on its way to the store. */
    method PutReader(ref: string, chunks: seq<Bytes>, tags: map<string, string>, fault: Fault) returns (r: Answer)
      modifies this, store
      ensures Content() == Write(hasher, old(Content()), Op(ref, Flatten(chunks), tags, fault))
      ensures r == AnswerTo(old(Content()), ref, fault)
    {
      if namespace.Err? { return BadNamespace(namespace.error); }
      var clean := CleanRef(ref);
      if clean.Err? { return BadRef(clean.error); }
      var tee := new Tee(hasher);
      var ok := store.PutReader(Key(namespace.ref, clean.ref), chunks, tee, fault);
      if !ok { return StoreFailed; }
      Record(Entry(clean.ref, tee.n, hasher.show(tee.state), tags));
      return Done;
    }

    method Finalize(c: Codec, now: int, fault: Fault) returns (r: Answer)
      modifies store
      ensures Content() == Finalized(c, old(Content()), now, fault)
      ensures r == AnswerTo(old(Content()), INDEX_FILE, fault)
    {
      if namespace.Err? { return BadNamespace(namespace.error); }
      var total := 0;
      for i := 0 to |entries|
        invariant total == TotalSize(entries[..i])
      {
        assert entries[..i + 1][..i] == entries[..i];
        total := total + entries[i].size;
      }
      assert entries[..|entries|] == entries;
      IndexFileTidy();
      var ix := Index(namespace.ref, now, entries, |entries|, total);
      var ok := store.Put(Key(namespace.ref, INDEX_FILE), c.encode(ix), fault);
      return if ok then Done else StoreFailed;
    }

    method LoadIndex(c: Codec) returns (r: Loaded)
      ensures r == Load(c, Content())
    {
      if namespace.Err? { return InvalidNamespace(namespace.error); }
      var data := store.Get(Key(namespace.ref, INDEX_FILE));
      if data.None? { return NotFound; }
      var ix := c.decode(data.value);
      if ix.None? { return Malformed; }
      return Loaded(ix.value);
    }
  }

  /** A single proper component is a ref that cleanRef leaves as it is. */
  lemma OneComponent(c: string)
    requires Paths.Proper(c)
    ensures CleanRef(c) == Ok(c)
  {
    Paths.FirstSlashAt(c, "");
    CleanRefFixed(c);
  }

  lemma IndexFileTrimmed()
    ensures Trimmed(INDEX_FILE)
  {
  }

  lemma IndexFileTidy()
    ensures LocalPaths.Tidy(INDEX_FILE)
  {
    IndexFileTrimmed();
    assert Paths.Proper(INDEX_FILE);
    OneComponent(INDEX_FILE);
  }
}
