/** The manifest agrees with the store: over any sequence of writes, and after Finalize. */
module ManifestTheorems {
  import opened Options
  import opened Refs
  import opened Keys
  import opened LocalPaths
  import opened Paths
  import opened Stores
  import opened Indexes
  import opened Manifest

  /**
   What happens in the store during the life of a Dir: its own writes, and those of
   other Dirs on the same store.
   */
  datatype Event = Own(op: Op) | Other(namespace: RefResult, op: Op)

  /** Another Dir changes the files and not the entries. */
  function Step(h: Hasher, d: DirState, e: Event): DirState {
    match e
    case Own(op) => Write(h, d, op)
    case Other(ms, op) => d.(files := Write(h, d.(namespace := ms), op).files)
  }

  function RunAll(h: Hasher, d: DirState, es: seq<Event>): DirState {
    if es == [] then d else Step(h, RunAll(h, d, es[..|es| - 1]), es[|es| - 1])
  }

  /** The event is a write of this cleaned ref by the Dir itself. */
  predicate Writes(e: Event, r: string) {
    e.Own? && CleanRef(e.op.ref) == Ok(r)
  }

  /** It is recorded. */
  predicate Succeeded(d: DirState, op: Op) {
    AnswerTo(d, op.ref, op.fault).Done?
  }

  /** What a write gives: the bytes to the store, and with them the tags to the manifest. */
  datatype Written = Written(data: Bytes, tags: map<string, string>)

  /** What the latest write of r gave, if that write succeeded. */
  function Latest(d: DirState, es: seq<Event>, r: string): Option<Written> {
    if es == [] then None
    else
      var e := es[|es| - 1];
      if !Writes(e, r) then Latest(d, es[..|es| - 1], r)
      else if Succeeded(d, e.op) then Some(Written(e.op.data, e.op.tags)) else None
  }

  /** What the first successful write of r gave. */
  function Earliest(d: DirState, es: seq<Event>, r: string): Option<Written> {
    if es == [] then None
    else
      var e, before := es[|es| - 1], Earliest(d, es[..|es| - 1], r);
      if before.Some? then before
      else if Writes(e, r) && Succeeded(d, e.op) then Some(Written(e.op.data, e.op.tags)) else None
  }

  function WriteCount(es: seq<Event>, r: string): nat {
    if es == [] then 0
    else WriteCount(es[..|es| - 1], r) + (if Writes(es[|es| - 1], r) then 1 else 0)
  }

  lemma {:induction false} RunKeepsDir(h: Hasher, d: DirState, es: seq<Event>)
    ensures RunAll(h, d, es).namespace == d.namespace && RunAll(h, d, es).backend == d.backend
  {
    if es != [] { RunKeepsDir(h, d, es[..|es| - 1]); }
  }

  // ---- which refs share a place ----

  /** Ref r of namespace ns and ref q of namespace ms are stored at one location. */
  predicate SamePlace(b: Backend, ns: string, r: string, ms: string, q: string) {
    Locate(b, Key(ns, r)).Some? && Locate(b, Key(ns, r)) == Locate(b, Key(ms, q))
  }

  /** In a bucket: if namespace and ref, trimmed, give the same components. */
  lemma SamePlaceInBucket(ns: string, r: string, ms: string, q: string)
    ensures SamePlace(Bucket, ns, r, ms, q) <==> Pieces(ns) + Pieces(r) == Pieces(ms) + Pieces(q)
  {
    SameKeyIff(ns, r, ms, q);
  }

  /** In a local store: if r is accepted and those components reduce to the same path. */
  lemma SamePlaceLocal(base: string, ns: string, r: string, ms: string, q: string)
    requires CleanAbs(base)
    ensures SamePlace(Local(base), ns, r, ms, q) <==>
      && PathForWrite(base, Key(ns, r)).Some?
      && Reduce(true, Parts(base) + Split(Trim(ns)) + Split(Trim(r)))
         == Reduce(true, Parts(base) + Split(Trim(ms)) + Split(Trim(q)))
  {
    SamePathIff(base, ns, r, ms, q);
  }

  /**
   Namespaces and refs without white space around them share a place in no backend,
   unless one namespace is below the other and the refs make up for it, as "a" with
   "b/c" and "a/b" with "c".
   */
  lemma TidyPlaces(b: Backend, ns: string, r: string, ms: string, q: string)
    requires BackendOk(b) && Tidy(ns) && Tidy(r) && Tidy(ms) && Tidy(q)
    ensures SamePlace(b, ns, r, ms, q) <==>
      Locate(b, Key(ns, r)).Some? && Split(ns) + Split(r) == Split(ms) + Split(q)
  {
    TidyPieces(ns);
    TidyPieces(r);
    TidyPieces(ms);
    TidyPieces(q);
    SameKeyIff(ns, r, ms, q);
    if b.Local? { TidyPlacesLocal(b.base, ns, r, ms, q); }
  }

  lemma TidyPieces(ns: string)
    requires Tidy(ns)
    ensures Pieces(ns) == Split(ns)
  {
    CleanRefFixed(ns);
  }

  /** Below a base other than the root the location of a tidy ref is the base and the key. */
  lemma TidyPlacesLocal(base: string, ns: string, r: string, ms: string, q: string)
    requires CleanAbs(base) && Tidy(ns) && Tidy(r) && Tidy(ms) && Tidy(q)
    ensures SamePlace(Local(base), ns, r, ms, q) <==>
      Locate(Local(base), Key(ns, r)).Some? && Key(ns, r) == Key(ms, q)
  {
    DirPath(base, ns, r);
    DirPath(base, ms, q);
    SameTail(base + "/", Key(ns, r), Key(ms, q));
  }

  lemma SameTail<T>(bs: seq<T>, cs: seq<T>, ds: seq<T>)
    ensures bs + cs == bs + ds <==> cs == ds
  {
    assert (bs + cs)[|bs|..] == cs && (bs + ds)[|bs|..] == ds;
  }

  lemma TidyApart(b: Backend, ns: string, r: string, q: string)
    requires BackendOk(b) && Tidy(ns) && Tidy(r) && Tidy(q) && r != q
    ensures !SamePlace(b, ns, r, ns, q)
  {
    TidyPlaces(b, ns, r, ns, q);
    SameTail(Split(ns), Split(r), Split(q));
    JoinSplit(r);
    JoinSplit(q);
  }

  /**
   Exactly which writes leave what is stored for r, whatever they write and however
   they end: those of refs in another place.
   */
  lemma OverwritesIff(b: Backend, files: Files, ns: string, r: string, ms: string, q: string, data: Bytes)
    requires Lookup(b, files, Key(ns, r)) == Some(data)
    ensures (forall more: Bytes, fault: Fault ::
               Lookup(b, FilesAfter(b, files, Key(ms, q), more, fault), Key(ns, r)) == Some(data))
       <==> !SamePlace(b, ns, r, ms, q)
  {
    var more := data + [0];
    if SamePlace(b, ns, r, ms, q) {
      assert Lookup(b, FilesAfter(b, files, Key(ms, q), more, Works), Key(ns, r)) == Some(more);
    }
  }

  // ---- the manifest and the store ----

  /** No event after the latest write of r goes to the place of r. */
  predicate Undisturbed(d: DirState, es: seq<Event>, r: string)
    requires d.namespace.Ok?
  {
    if es == [] then true
    else
      var e := es[|es| - 1];
      Writes(e, r) || (!Disturbs(d, e, r) && Undisturbed(d, es[..|es| - 1], r))
  }

  /** The namespace to which an event writes. */
  function NamespaceOf(d: DirState, e: Event): RefResult {
    if e.Own? then d.namespace else e.namespace
  }

  /** The event is not a write of r by the Dir itself, and it goes to the place of r. */
  predicate Disturbs(d: DirState, e: Event, r: string)
    requires d.namespace.Ok?
  {
    && !Writes(e, r) && NamespaceOf(d, e).Ok? && CleanRef(e.op.ref).Ok?
    && SamePlace(d.backend, d.namespace.ref, r, NamespaceOf(d, e).ref, CleanRef(e.op.ref).ref)
  }

  /** The entry has the size and the checksum of the bytes, and the tags. */
  predicate Describes(h: Hasher, e: Option<Entry>, w: Written) {
    && e.Some? && e.value.size == |w.data| && e.value.checksum == Checksum(h, w.data)
    && e.value.tags == w.tags
  }

  /** What is stored for r. */
  function Stored(d: DirState, r: string): Option<Bytes>
    requires d.namespace.Ok?
  {
    Lookup(d.backend, d.files, Key(d.namespace.ref, r))
  }

  /** Ref r is stored as it was written, and its last entry says so. */
  predicate Agrees(h: Hasher, d: DirState, r: string, w: Written)
    requires d.namespace.Ok?
  {
    Stored(d, r) == Some(w.data) && Describes(h, LastEntry(d.entries, r), w)
  }

  lemma LastAppend(es: seq<Entry>, e: Entry, r: string)
    ensures LastEntry(es + [e], r) == if e.ref == r then Some(e) else LastEntry(es, r)
  {
    assert (es + [e])[..|es + [e]| - 1] == es;
  }

  /** A write of r itself, if it is recorded. */
  lemma WriteAgrees(h: Hasher, d: DirState, op: Op, r: string)
    requires d.namespace.Ok? && CleanRef(op.ref) == Ok(r) && Succeeded(d, op)
    ensures Agrees(h, Write(h, d, op), r, Written(op.data, op.tags))
  {
    LastAppend(d.entries, EntryOf(h, r, op.data, op.tags), r);
  }

  /** An event that does not go to the place of r, whether it works or not. */
  lemma StepKeeps(h: Hasher, d: DirState, e: Event, r: string)
    requires d.namespace.Ok? && !Writes(e, r) && !Disturbs(d, e, r) && Stored(d, r).Some?
    ensures Step(h, d, e).namespace == d.namespace
    ensures Stored(Step(h, d, e), r) == Stored(d, r)
    ensures LastEntry(Step(h, d, e).entries, r) == LastEntry(d.entries, r)
  {
    if NamespaceOf(d, e).Ok? && CleanRef(e.op.ref).Ok? {
      var ms, q := NamespaceOf(d, e).ref, CleanRef(e.op.ref).ref;
      OverwritesIff(d.backend, d.files, d.namespace.ref, r, ms, q, Stored(d, r).value);
      if e.Own? { LastAppend(d.entries, EntryOf(h, q, e.op.data, e.op.tags), r); }
    }
  }

  /**
   Over any run of writes, of this Dir and of others on the store, with failures that
   leave anything behind: if the Dir's latest write of a ref succeeded and no later
   event went to the same place, the ref is stored as that write had it and the last
   entry of the ref has the size and the checksum of the stored bytes, and the tags.
   */
  lemma {:induction false} ManifestAgrees(h: Hasher, d: DirState, es: seq<Event>, r: string)
    requires d.namespace.Ok? && Latest(d, es, r).Some? && Undisturbed(d, es, r)
    ensures RunAll(h, d, es).namespace == d.namespace
    ensures Agrees(h, RunAll(h, d, es), r, Latest(d, es, r).value)
  {
    var n := |es| - 1;
    var e, before := es[n], RunAll(h, d, es[..n]);
    RunKeepsDir(h, d, es[..n]);
    if Writes(e, r) {
      WriteAgrees(h, before, e.op, r);
    } else {
      ManifestAgrees(h, d, es[..n], r);
      StepKeeps(h, before, e, r);
    }
  }

  // ---- and only then ----

  /** The same Dirs write the same refs, with any contents and any failures. */
  predicate SameRefs(es: seq<Event>, fs: seq<Event>) {
    && |es| == |fs|
    && forall i | 0 <= i < |es| ::
         && es[i].op.ref == fs[i].op.ref && es[i].Own? == fs[i].Own?
         && (es[i].Other? ==> es[i].namespace == fs[i].namespace)
  }

  lemma {:induction false} UndisturbedByRefs(d: DirState, es: seq<Event>, fs: seq<Event>, r: string)
    requires d.namespace.Ok? && SameRefs(es, fs)
    ensures Undisturbed(d, es, r) == Undisturbed(d, fs, r)
  {
    if es != [] { UndisturbedByRefs(d, es[..|es| - 1], fs[..|fs| - 1], r); }
  }

  /** The same event, working, with contents by which r can be told from the others. */
  function MarkedEvent(e: Event, r: string): Event {
    var op := Op(e.op.ref, if Writes(e, r) then [0] else [1], map[], Works);
    if e.Own? then Own(op) else Other(e.namespace, op)
  }

  function Marked(es: seq<Event>, r: string): (fs: seq<Event>)
    ensures SameRefs(es, fs)
    ensures forall i | 0 <= i < |es| :: fs[i] == MarkedEvent(es[i], r)
  {
    seq(|es|, i requires 0 <= i < |es| => MarkedEvent(es[i], r))
  }

  lemma MarkedInit(es: seq<Event>, r: string)
    requires es != []
    ensures Marked(es, r)[..|es| - 1] == Marked(es[..|es| - 1], r)
  {
  }

  lemma DisturbStores(h: Hasher, d: DirState, e: Event, r: string)
    requires d.namespace.Ok? && Disturbs(d, e, r) && e.op.fault.Works?
    ensures Step(h, d, e).namespace == d.namespace && Stored(Step(h, d, e), r) == Some(e.op.data)
  {
  }

  /** After those events the place of r has the contents of r exactly if r was not disturbed. */
  lemma {:induction false} MarkedStored(h: Hasher, d: DirState, es: seq<Event>, r: string)
    requires d.namespace.Ok? && WriteCount(es, r) > 0 && Locate(d.backend, Key(d.namespace.ref, r)).Some?
    ensures RunAll(h, d, Marked(es, r)).namespace == d.namespace
    ensures Latest(d, Marked(es, r), r) == Some(Written([0], map[]))
    ensures Stored(RunAll(h, d, Marked(es, r)), r) == Some(if Undisturbed(d, es, r) then [0] else [1])
  {
    var n := |es| - 1;
    var all := Marked(es, r);
    var before := RunAll(h, d, all[..n]);
    RunKeepsDir(h, d, all[..n]);
    MarkedInit(es, r);
    if Writes(es[n], r) {
      WriteAgrees(h, before, all[n].op, r);
    } else {
      MarkedStored(h, d, es[..n], r);
      if Disturbs(d, es[n], r) {
        DisturbStores(h, before, all[n], r);
      } else {
        StepKeeps(h, before, all[n], r);
      }
    }
  }

  /**
   Exactly when manifest and store agree about a ref that was written, over all
   contents and failures of the events: when no event after the latest write of the ref
   goes to its place.
   */
  lemma AgreesIff(h: Hasher, d: DirState, es: seq<Event>, r: string)
    requires d.namespace.Ok? && WriteCount(es, r) > 0 && Locate(d.backend, Key(d.namespace.ref, r)).Some?
    ensures Undisturbed(d, es, r) <==>
      forall fs | SameRefs(es, fs) && Latest(d, fs, r).Some? ::
        RunAll(h, d, fs).namespace == d.namespace
        && Agrees(h, RunAll(h, d, fs), r, Latest(d, fs, r).value)
  {
    if Undisturbed(d, es, r) {
      forall fs | SameRefs(es, fs) && Latest(d, fs, r).Some?
        ensures RunAll(h, d, fs).namespace == d.namespace
        ensures Agrees(h, RunAll(h, d, fs), r, Latest(d, fs, r).value)
      {
        UndisturbedByRefs(d, es, fs, r);
        ManifestAgrees(h, d, fs, r);
      }
    } else {
      MarkedStored(h, d, es, r);
      assert SameRefs(es, Marked(es, r));
    }
  }

  /** The refs have no white space around them once they are cleaned. */
  predicate CleanlyNamed(es: seq<Event>) {
    forall i | 0 <= i < |es| :: CleanRef(es[i].op.ref).Ok? ==> Trimmed(CleanRef(es[i].op.ref).ref)
  }

  /** A Dir that is alone never disturbs itself with such refs. */
  lemma {:induction false} CleanlyUndisturbed(d: DirState, es: seq<Event>, r: string)
    requires d.namespace.Ok? && Tidy(d.namespace.ref) && BackendOk(d.backend) && Tidy(r) && CleanlyNamed(es)
    requires forall i | 0 <= i < |es| :: es[i].Own?
    ensures Undisturbed(d, es, r)
  {
    if es != [] {
      var e := es[|es| - 1];
      CleanlyUndisturbed(d, es[..|es| - 1], r);
      if CleanRef(e.op.ref).Ok? && !Writes(e, r) {
        CleanRefIdem(e.op.ref);
        TidyApart(d.backend, d.namespace.ref, r, CleanRef(e.op.ref).ref);
      }
    }
  }

  /** With untrimmed cleaned refs it fails: the second write goes to the first one's place. */
  lemma SpaceOverwrites(h: Hasher, d: DirState)
    requires d.namespace.Ok? && d.backend.Bucket? && d.entries == []
    ensures var es := [Own(Op("a", [1], map[], Works)), Own(Op("./ a", [1, 2], map[], Works))];
      var t := RunAll(h, d, es);
      && Latest(d, es, "a") == Some(Written([1], map[]))
      && LastEntry(t.entries, "a") == Some(EntryOf(h, "a", [1], map[]))
      && Lookup(t.backend, t.files, Key(d.namespace.ref, "a")) == Some([1, 2])
  {
    var p, q := Op("a", [1], map[], Works), Op("./ a", [1, 2], map[], Works);
    CleanedSpaceCollides(d.namespace.ref);
    var es := [Own(p), Own(q)];
    assert es[..1] == [Own(p)] && [Own(p)][..0] == [];
    assert RunAll(h, d, [Own(p)]) == Write(h, d, p);
    LastAppend([], EntryOf(h, "a", [1], map[]), "a");
    LastAppend([EntryOf(h, "a", [1], map[])], EntryOf(h, " a", [1, 2], map[]), "a");
  }

  // ---- answers ----

  /** Exactly when a Put works: namespace and ref are accepted, the key has a place, and the backend does not break. */
  lemma PutEnds(h: Hasher, d: DirState, op: Op)
    ensures AnswerTo(d, op.ref, op.fault).Done? <==>
      && d.namespace.Ok? && CleanRef(op.ref).Ok? && op.fault.Works?
      && Locate(d.backend, Key(d.namespace.ref, CleanRef(op.ref).ref)).Some?
    ensures AnswerTo(d, op.ref, op.fault).StoreFailed? <==>
      && d.namespace.Ok? && CleanRef(op.ref).Ok?
      && (op.fault.Breaks? || Locate(d.backend, Key(d.namespace.ref, CleanRef(op.ref).ref)).None?)
    ensures AnswerTo(d, op.ref, op.fault).BadRef? <==> d.namespace.Ok? && CleanRef(op.ref).Err?
    ensures AnswerTo(d, op.ref, op.fault).BadNamespace? <==> d.namespace.Err?
    // the manifest grows by one entry exactly then
    ensures |Write(h, d, op).entries| == |d.entries| + if AnswerTo(d, op.ref, op.fault).Done? then 1 else 0
    ensures d.entries <= Write(h, d, op).entries
  {
  }

  /** Exactly when LoadIndex ends in which way, by what is stored in the place of the index. */
  lemma LoadEnds(c: Codec, d: DirState)
    ensures Load(c, d).InvalidNamespace? <==> d.namespace.Err?
    ensures Load(c, d).NotFound? <==> d.namespace.Ok? && Stored(d, INDEX_FILE).None?
    ensures Load(c, d).Malformed? <==>
      d.namespace.Ok? && Stored(d, INDEX_FILE).Some? && c.decode(Stored(d, INDEX_FILE).value).None?
    ensures Load(c, d).Loaded? <==>
      d.namespace.Ok? && Stored(d, INDEX_FILE).Some? && c.decode(Stored(d, INDEX_FILE).value).Some?
    ensures Load(c, d).Loaded? ==> c.decode(Stored(d, INDEX_FILE).value) == Some(Load(c, d).index)
  {
  }

  // ---- the manifest file ----

  /** What is stored for a ref after Finalize: what was, or the index itself if the ref is in its place. */
  lemma FinalizeStored(c: Codec, d: DirState, now: int, fault: Fault, r: string)
    requires d.namespace.Ok? && Succeeds(d.backend, Key(d.namespace.ref, INDEX_FILE), fault) && Stored(d, r).Some?
    ensures Stored(Finalized(c, d, now, fault), r) ==
            if SamePlace(d.backend, d.namespace.ref, r, d.namespace.ref, INDEX_FILE)
            then Some(c.encode(IndexOf(d, now)))
            else Stored(d, r)
  {
  }

  /** LoadIndex after Finalize gives the entries back, with their number and the sum of their sizes. */
  lemma FinalizeThenLoad(c: Codec, d: DirState, now: int, fault: Fault)
    requires RoundTrips(c) && d.namespace.Ok? && Succeeds(d.backend, Key(d.namespace.ref, INDEX_FILE), fault)
    ensures var got := Load(c, Finalized(c, d, now, fault));
      && got.Loaded? && got.index.artifacts == d.entries && got.index.namespace == d.namespace.ref
      && got.index.count == |d.entries| && got.index.totalSize == TotalSize(d.entries)
  {
    var ix := IndexOf(d, now);
    assert c.decode(c.encode(ix)) == Some(ix);
  }

  /** The whole life of a Dir: writes, Finalize, LoadIndex. The loaded index describes what is still stored. */
  lemma LoadedAgrees(h: Hasher, c: Codec, d: DirState, es: seq<Event>, now: int, fault: Fault, r: string)
    requires RoundTrips(c) && d.namespace.Ok? && Latest(d, es, r).Some? && Undisturbed(d, es, r)
    requires Succeeds(d.backend, Key(d.namespace.ref, INDEX_FILE), fault)
    requires !SamePlace(d.backend, d.namespace.ref, r, d.namespace.ref, INDEX_FILE)
    ensures var t := Finalized(c, RunAll(h, d, es), now, fault);
      && t.namespace == d.namespace && Load(c, t).Loaded?
      && Stored(t, r) == Some(Latest(d, es, r).value.data)
      && Describes(h, LastEntry(Load(c, t).index.artifacts, r), Latest(d, es, r).value)
  {
    var w := RunAll(h, d, es);
    RunKeepsDir(h, d, es);
    ManifestAgrees(h, d, es, r);
    FinalizeStored(c, w, now, fault, r);
    FinalizeThenLoad(c, w, now, fault);
  }

  /** So a Finalize in the middle of a run, of this Dir or of another, is an event too: one of the index file's ref. */
  lemma FinalizeIsEvent(h: Hasher, c: Codec, d: DirState, now: int, fault: Fault)
    requires d.namespace.Ok?
    ensures Step(h, d, Other(d.namespace, Op(INDEX_FILE, c.encode(IndexOf(d, now)), map[], fault)))
         == Finalized(c, d, now, fault)
  {
    IndexFileTidy();
  }

  /** The successful writes of a run by the Dir itself, and the bytes that they wrote. */
  function RecordCount(d: DirState, es: seq<Event>): nat {
    if es == [] then 0
    else
      var e := es[|es| - 1];
      RecordCount(d, es[..|es| - 1]) + if e.Own? && Succeeded(d, e.op) then 1 else 0
  }

  function Volume(d: DirState, es: seq<Event>): nat {
    if es == [] then 0
    else
      var e := es[|es| - 1];
      Volume(d, es[..|es| - 1]) + if e.Own? && Succeeded(d, e.op) then |e.op.data| else 0
  }

  lemma TotalPush(es: seq<Entry>, e: Entry)
    ensures TotalSize(es + [e]) == TotalSize(es) + e.size
  {
    assert (es + [e])[..|es|] == es;
  }

  lemma {:induction false} RunTotals(h: Hasher, d: DirState, es: seq<Event>)
    requires d.namespace.Ok? && d.entries == []
    ensures |RunAll(h, d, es).entries| == RecordCount(d, es)
    ensures TotalSize(RunAll(h, d, es).entries) == Volume(d, es)
  {
    if es != [] {
      var n := |es| - 1;
      var e, before := es[n], RunAll(h, d, es[..n]);
      RunKeepsDir(h, d, es[..n]);
      RunTotals(h, d, es[..n]);
      if e.Own? && Succeeded(before, e.op) {
        TotalPush(before.entries, EntryOf(h, CleanRef(e.op.ref).ref, e.op.data, e.op.tags));
      }
    }
  }

  /** The numbers of the loaded index: the Dir's successful writes, and the bytes that they wrote. */
  lemma LoadedTotals(h: Hasher, c: Codec, d: DirState, es: seq<Event>, now: int, fault: Fault)
    requires RoundTrips(c) && d.namespace.Ok? && d.entries == []
    requires Succeeds(d.backend, Key(d.namespace.ref, INDEX_FILE), fault)
    ensures var got := Load(c, Finalized(c, RunAll(h, d, es), now, fault));
      && got.Loaded? && got.index.namespace == d.namespace.ref && got.index.generatedAt == now
      && got.index.count == RecordCount(d, es) && got.index.totalSize == Volume(d, es)
  {
    RunKeepsDir(h, d, es);
    RunTotals(h, d, es);
    var w := RunAll(h, d, es);
    var ix := IndexOf(w, now);
    assert c.decode(c.encode(ix)) == Some(ix);
  }

  // ---- Find ----

  /** Find describes the first successful write of the ref. */
  lemma {:induction false} FindIsEarliest(h: Hasher, d: DirState, es: seq<Event>, r: string)
    requires d.namespace.Ok? && d.entries == []
    ensures var e := FirstEntry(RunAll(h, d, es).entries, r);
      match Earliest(d, es, r)
      case None => e == None
      case Some(w) => Describes(h, e, w)
  {
    if es != [] {
      var n := |es| - 1;
      var e, before := es[n], RunAll(h, d, es[..n]);
      RunKeepsDir(h, d, es[..n]);
      FindIsEarliest(h, d, es[..n], r);
      if e.Own? && Succeeded(before, e.op) {
        FirstAppend(before.entries, EntryOf(h, CleanRef(e.op.ref).ref, e.op.data, e.op.tags), r);
      }
    }
  }

  lemma {:induction false} LatestHasEarliest(d: DirState, es: seq<Event>, r: string)
    requires Latest(d, es, r).Some?
    ensures Earliest(d, es, r).Some?
  {
    if !Writes(es[|es| - 1], r) { LatestHasEarliest(d, es[..|es| - 1], r); }
  }

  /**
   Exactly when Find agrees with the store: the first successful write of the ref had
   the size, the checksum and the tags of the latest one.
   */
  lemma FindAgreesIff(h: Hasher, d: DirState, es: seq<Event>, r: string)
    requires d.namespace.Ok? && d.entries == [] && Latest(d, es, r).Some? && Undisturbed(d, es, r)
    ensures RunAll(h, d, es).namespace == d.namespace && Earliest(d, es, r).Some?
    ensures var t := RunAll(h, d, es);
      var first, last := Earliest(d, es, r).value, Latest(d, es, r).value;
      && Stored(t, r) == Some(last.data)
      && (Describes(h, FirstEntry(t.entries, r), last) <==>
          && |first.data| == |last.data| && Checksum(h, first.data) == Checksum(h, last.data)
          && first.tags == last.tags)
  {
    LatestHasEarliest(d, es, r);
    FindIsEarliest(h, d, es, r);
    ManifestAgrees(h, d, es, r);
  }

  lemma {:induction false} NeverWritten(d: DirState, es: seq<Event>, r: string)
    requires WriteCount(es, r) == 0
    ensures Latest(d, es, r) == None && Earliest(d, es, r) == None
  {
    if es != [] { NeverWritten(d, es[..|es| - 1], r); }
  }

  /** A ref written once: the first write is the latest. */
  lemma {:induction false} WrittenOnce(d: DirState, es: seq<Event>, r: string)
    requires WriteCount(es, r) == 1
    ensures Earliest(d, es, r) == Latest(d, es, r)
  {
    var n := |es| - 1;
    if Writes(es[n], r) { NeverWritten(d, es[..n], r); } else { WrittenOnce(d, es[..n], r); }
  }

  /** So Find agrees with the store for every ref that was written once and not disturbed. */
  lemma FindAgreesOnce(h: Hasher, d: DirState, es: seq<Event>, r: string)
    requires d.namespace.Ok? && d.entries == [] && WriteCount(es, r) == 1
    requires Latest(d, es, r).Some? && Undisturbed(d, es, r)
    ensures var t := RunAll(h, d, es);
      && t.namespace == d.namespace && Stored(t, r) == Some(Latest(d, es, r).value.data)
      && Describes(h, FirstEntry(t.entries, r), Latest(d, es, r).value)
  {
    WrittenOnce(d, es, r);
    FindAgreesIff(h, d, es, r);
  }

  /** And not for one written twice: Find gives the size of the first write. */
  lemma FindIsStale(h: Hasher, d: DirState)
    requires d.namespace.Ok? && d.backend.Bucket? && d.entries == []
    ensures var es := [Own(Op("a", [1], map[], Works)), Own(Op("a", [1, 2], map[], Works))];
      var t := RunAll(h, d, es);
      && FirstEntry(t.entries, "a") == Some(EntryOf(h, "a", [1], map[]))
      && Lookup(t.backend, t.files, Key(d.namespace.ref, "a")) == Some([1, 2])
  {
    var p, q := Op("a", [1], map[], Works), Op("a", [1, 2], map[], Works);
    CleanA();
    var es := [Own(p), Own(q)];
    assert es[..1] == [Own(p)] && [Own(p)][..0] == [];
    assert RunAll(h, d, [Own(p)]) == Write(h, d, p);
  }
}
