/** The manifest of a Dir: its entries and the lookups on it. */
module Indexes {
  import opened Options

  datatype Entry = Entry(ref: string, size: nat, checksum: string, tags: map<string, string>)

  datatype Index = Index(namespace: string, generatedAt: int, artifacts: seq<Entry>, count: nat, totalSize: nat)

  function FirstEntry(es: seq<Entry>, ref: string): Option<Entry> {
    if es == [] then None else if es[0].ref == ref then Some(es[0]) else FirstEntry(es[1..], ref)
  }

  function LastEntry(es: seq<Entry>, ref: string): Option<Entry> {
    if es == [] then None
    else if es[|es| - 1].ref == ref then Some(es[|es| - 1])
    else LastEntry(es[..|es| - 1], ref)
  }

  function TotalSize(es: seq<Entry>): nat {
    if es == [] then 0 else TotalSize(es[..|es| - 1]) + es[|es| - 1].size
  }

  function OfKind(es: seq<Entry>, kind: string): seq<Entry> {
    if es == [] then []
    else if KindOf(es[|es| - 1]) == kind then OfKind(es[..|es| - 1], kind) + [es[|es| - 1]]
    else OfKind(es[..|es| - 1], kind)
  }

  /** tags["kind"]; a missing key of a Go map reads as "". */
  function KindOf(e: Entry): string {
    if "kind" in e.tags then e.tags["kind"] else ""
  }

  lemma {:induction false} FirstAppend(es: seq<Entry>, e: Entry, ref: string)
    ensures FirstEntry(es + [e], ref) ==
            if FirstEntry(es, ref).Some? then FirstEntry(es, ref) else if e.ref == ref then Some(e) else None
  {
    if es == [] {
      assert es + [e] == [e] && [e][1..] == [];
    } else {
      FirstAppend(es[1..], e, ref);
      assert (es + [e])[1..] == es[1..] + [e];
    }
  }

  lemma {:induction false} FirstAt(es: seq<Entry>, ref: string, i: nat)
    requires i < |es| && es[i].ref == ref && forall j | 0 <= j < i :: es[j].ref != ref
    ensures FirstEntry(es, ref) == Some(es[i])
  {
    if i > 0 { FirstAt(es[1..], ref, i - 1); }
  }

  lemma {:induction false} FirstNone(es: seq<Entry>, ref: string)
    requires forall j | 0 <= j < |es| :: es[j].ref != ref
    ensures FirstEntry(es, ref) == None
  {
    if es != [] { FirstNone(es[1..], ref); }
  }

  /** Index.Find gives the first entry of a ref. */
  method Find(ix: Index, ref: string) returns (r: Option<Entry>)
    ensures r == FirstEntry(ix.artifacts, ref)
  {
    for i := 0 to |ix.artifacts|
      invariant forall j | 0 <= j < i :: ix.artifacts[j].ref != ref
    {
      if ix.artifacts[i].ref == ref {
        FirstAt(ix.artifacts, ref, i);
        return Some(ix.artifacts[i]);
      }
    }
    FirstNone(ix.artifacts, ref);
    return None;
  }

  /** Index.ByKind keeps the entries of a kind, in order and as often as they are there. */
  method ByKind(ix: Index, kind: string) returns (out: seq<Entry>)
    ensures out == OfKind(ix.artifacts, kind)
  {
    out := [];
    for i := 0 to |ix.artifacts|
      invariant out == OfKind(ix.artifacts[..i], kind)
    {
      assert ix.artifacts[..i + 1][..i] == ix.artifacts[..i];
      if KindOf(ix.artifacts[i]) == kind {
        out := out + [ix.artifacts[i]];
      }
    }
    assert ix.artifacts[..|ix.artifacts|] == ix.artifacts;
  }

  /** Which entries ByKind gives, counted. */
  lemma {:induction false} OfKindCount(es: seq<Entry>, kind: string, e: Entry)
    ensures multiset(OfKind(es, kind))[e] == if KindOf(e) == kind then multiset(es)[e] else 0
  {
    if es != [] {
      OfKindCount(es[..|es| - 1], kind, e);
      assert es == es[..|es| - 1] + [es[|es| - 1]];
    }
  }

  /** The tag names the kind, or there is none and the kind is "". */
  predicate HasKind(e: Entry, kind: string) {
    ("kind" in e.tags && e.tags["kind"] == kind) || ("kind" !in e.tags && kind == "")
  }

  /** How many of the first i entries have the kind. */
  function KindBefore(es: seq<Entry>, kind: string, i: nat): nat
    requires i <= |es|
  {
    if i == 0 then 0 else KindBefore(es, kind, i - 1) + if HasKind(es[i - 1], kind) then 1 else 0
  }

  lemma {:induction false} KindBeforeInit(es: seq<Entry>, kind: string, n: nat, i: nat)
    requires i <= n <= |es|
    ensures KindBefore(es[..n], kind, i) == KindBefore(es, kind, i)
  {
    if i > 0 { KindBeforeInit(es, kind, n, i - 1); }
  }

  lemma {:induction false} OfKindLength(es: seq<Entry>, kind: string)
    ensures |OfKind(es, kind)| == KindBefore(es, kind, |es|)
  {
    if es != [] {
      OfKindLength(es[..|es| - 1], kind);
      KindBeforeInit(es, kind, |es| - 1, |es| - 1);
    }
  }

  /** Each entry of the kind is in ByKind's result, after as many others as are before it in the index: in order. */
  lemma {:induction false} OfKindInOrder(es: seq<Entry>, kind: string, i: nat)
    requires i < |es| && HasKind(es[i], kind)
    ensures |OfKind(es, kind)| == KindBefore(es, kind, |es|)
    ensures KindBefore(es, kind, i) < |OfKind(es, kind)|
    ensures OfKind(es, kind)[KindBefore(es, kind, i)] == es[i]
  {
    var n := |es| - 1;
    OfKindLength(es, kind);
    KindBeforeInit(es, kind, n, i);
    if i < n {
      OfKindInOrder(es[..n], kind, i);
    } else {
      OfKindLength(es[..n], kind);
    }
  }

  /** Index.Refs: a ref for every entry, in order. */
  method RefsOf(ix: Index) returns (out: seq<string>)
    ensures |out| == |ix.artifacts| && forall i | 0 <= i < |out| :: out[i] == ix.artifacts[i].ref
  {
    out := [];
    for i := 0 to |ix.artifacts|
      invariant |out| == i && forall j | 0 <= j < i :: out[j] == ix.artifacts[j].ref
    {
      out := out + [ix.artifacts[i].ref];
    }
  }
}
