/** pathForWrite of the local store: a string test for lexical containment. */
module LocalPaths {
  import opened Options
  import opened Paths
  import opened Refs
  import opened Keys

  /** What filepath.Abs returns. */
  predicate CleanAbs(base: string) {
    IsAbs(base) && Clean(base) == base
  }

  /** filepath.Join(base, key) for a nonempty base. */
  function JoinPath(base: string, key: string): string {
    Clean(base + "/" + key)
  }

  function PathForWrite(base: string, key: string): Option<string> {
    var full := JoinPath(base, key);
    if full != base && !HasPrefix(full, base + "/") then None else Some(full)
  }

  /** A clean absolute path is the slash and its components. */
  lemma CleanAbsShape(p: string)
    requires CleanAbs(p)
    ensures AllProper(Parts(p)) && p == "/" + Join(Parts(p))
    ensures p == "/" <==> Parts(p) == []
    ensures Parts(p) != [] ==> Split(p) == [""] + Parts(p)
  {
    var cs := Parts(p);
    ReduceStacked(true, Split(p));
    if cs != [] {
      JoinHead(cs);
      SplitJoin(cs);
      FirstSlashAt("", "");
      SplitAppend("", Join(cs));
      assert "" + "/" + Join(cs) == p;
    }
  }

  lemma FullIsClean(base: string, key: string)
    requires CleanAbs(base)
    ensures CleanAbs(JoinPath(base, key))
    ensures Parts(JoinPath(base, key)) == Reduce(true, Split(base) + Split(key))
  {
    var p := base + "/" + key;
    assert p[0] == base[0];
    SplitAppend(base, key);
    CleanIdem(p);
    ReduceStacked(true, Split(p));
    PartsOfRender(true, Parts(p));
  }

  lemma PrefixAccepted(base: string, full: string)
    requires CleanAbs(base) && CleanAbs(full) && base != "/" && Parts(base) <= Parts(full)
    ensures full == base || HasPrefix(full, base + "/")
  {
    CleanAbsShape(base);
    CleanAbsShape(full);
    var bs, fs := Parts(base), Parts(full);
    if bs != fs {
      var ds := fs[|bs|..];
      assert fs == bs + ds;
      JoinAppend(bs, ds);
      assert full == base + "/" + Join(ds);
    }
  }

  lemma SamePrefix(a: seq<string>, bs: seq<string>, fs: seq<string>, rest: seq<string>)
    requires a + fs == a + bs + rest
    ensures bs <= fs
  {
    assert fs == (a + fs)[|a|..];
    assert bs + rest == (a + bs + rest)[|a|..];
  }

  lemma AcceptedPrefix(base: string, full: string)
    requires CleanAbs(base) && CleanAbs(full) && base != "/" && HasPrefix(full, base + "/")
    ensures Parts(base) <= Parts(full)
  {
    CleanAbsShape(base);
    CleanAbsShape(full);
    var rest := full[|base| + 1..];
    assert full == base + "/" + rest;
    assert full != "/";
    SplitAppend(base, rest);
    SamePrefix([""], Parts(base), Parts(full), Split(rest));
  }

  lemma RootAccepts(full: string)
    requires CleanAbs(full)
    ensures full == "/" || HasPrefix(full, "/" + "/") <==> full == "/"
  {
    CleanAbsShape(full);
    if full != "/" {
      JoinHead(Parts(full));
      assert Parts(full)[0][0] in Parts(full)[0];
      assert full[1] != '/';
    }
  }

  /** The string test is containment of components, below any base but the root. */
  lemma TestIsContainment(base: string, key: string)
    requires CleanAbs(base) && base != "/"
    ensures PathForWrite(base, key).Some? <==> Parts(base) <= Parts(JoinPath(base, key))
  {
    var full := JoinPath(base, key);
    FullIsClean(base, key);
    if Parts(base) <= Parts(full) { PrefixAccepted(base, full); }
    if HasPrefix(full, base + "/") { AcceptedPrefix(base, full); }
  }

  /** Below the root everything is contained, but only the root itself passes the test. */
  lemma TestAtRoot(key: string)
    ensures PathForWrite("/", key).Some? <==> JoinPath("/", key) == "/"
  {
    RootIsClean();
    FullIsClean("/", key);
    RootAccepts(JoinPath("/", key));
  }

  lemma RootIsClean()
    ensures CleanAbs("/") && Parts("/") == []
  {
    PartsOfRender(true, []);
    assert Render(true, []) == "/";
  }

  /** Exactly when the test agrees with containment. */
  lemma TestIsContainmentIff(base: string, key: string)
    requires CleanAbs(base)
    ensures (PathForWrite(base, key).Some? <==> Parts(base) <= Parts(JoinPath(base, key)))
       <==> base != "/" || JoinPath(base, key) == "/"
  {
    if base == "/" {
      TestAtRoot(key);
      RootIsClean();
    } else {
      TestIsContainment(base, key);
    }
  }

  // ---- the keys of a Dir ----

  /** A namespace or ref as a Dir keeps it, without white space around it. */
  predicate Tidy(s: string) {
    CleanRef(s) == Ok(s) && Trimmed(s)
  }

  lemma DirReduceAtRoot(ks: seq<string>)
    requires AllProper(ks)
    ensures Reduce(true, Split("/") + ks) == ks
  {
    FirstSlashAt("", "");
    SplitAppend("", "");
    assert "" + "/" + "" == "/";
    assert Split("/") == [""] + [""];
    assert Split("/") + ks == [""] + ([""] + ks);
    ReducePrefix([""] + ks);
    ReducePrefix(ks);
    ReduceIdem(true, ks);
  }

  lemma DirReduceBelow(bs: seq<string>, ks: seq<string>)
    requires AllProper(bs) && AllProper(ks)
    ensures Reduce(true, [""] + bs + ks) == bs + ks
  {
    assert [""] + bs + ks == [""] + (bs + ks);
    ReducePrefix(bs + ks);
    ReduceIdem(true, bs + ks);
  }

  lemma DirReduce(base: string, ks: seq<string>)
    requires CleanAbs(base) && AllProper(ks)
    ensures Reduce(true, Split(base) + ks) == Parts(base) + ks
  {
    CleanAbsShape(base);
    if base == "/" {
      DirReduceAtRoot(ks);
      assert Parts(base) + ks == ks;
    } else {
      DirReduceBelow(Parts(base), ks);
    }
  }

  lemma DirKey(ns: string, ref: string)
    requires Tidy(ns) && Tidy(ref)
    ensures Split(Key(ns, ref)) == Split(ns) + Split(ref) && AllProper(Split(ns) + Split(ref))
  {
    CleanRefFixed(ns);
    CleanRefFixed(ref);
    assert ns != "" && ref != "";
    KeyComponents(ns, ref);
  }

  lemma SlashFirst(b: string, key: string)
    ensures "/" + (b + "/" + key) == "/" + b + "/" + key
  {
  }

  lemma BelowIs(base: string, full: string, key: string)
    requires CleanAbs(base) && CleanAbs(full) && base != "/" && Parts(full) == Parts(base) + Split(key)
    ensures full == base + "/" + key
  {
    CleanAbsShape(base);
    CleanAbsShape(full);
    JoinAppend(Parts(base), Split(key));
    JoinSplit(key);
    SlashFirst(Join(Parts(base)), key);
  }

  /** A path that is the base and proper components below it passes the test, unless the base is the root. */
  lemma BelowAccepted(base: string, key: string)
    requires CleanAbs(base) && Parts(JoinPath(base, key)) == Parts(base) + Split(key)
    ensures PathForWrite(base, key) == if base == "/" then None else Some(base + "/" + key)
  {
    FullIsClean(base, key);
    if base == "/" {
      TestAtRoot(key);
      CleanAbsShape(JoinPath(base, key));
    } else {
      TestIsContainment(base, key);
      BelowIs(base, JoinPath(base, key), key);
    }
  }

  /** The components of a Dir's path are those of the base, of the namespace and of the ref. */
  lemma DirPath(base: string, ns: string, ref: string)
    requires CleanAbs(base) && Tidy(ns) && Tidy(ref)
    ensures Parts(JoinPath(base, Key(ns, ref))) == Parts(base) + (Split(ns) + Split(ref))
    ensures PathForWrite(base, Key(ns, ref)) == if base == "/" then None else Some(base + "/" + Key(ns, ref))
  {
    DirKey(ns, ref);
    FullIsClean(base, Key(ns, ref));
    DirReduce(base, Split(ns) + Split(ref));
    BelowAccepted(base, Key(ns, ref));
  }

  /** Distinct refs are stored at distinct paths. */
  lemma DirPathsDistinct(base: string, ns: string, r: string, q: string)
    requires CleanAbs(base) && Tidy(ns) && Tidy(r) && Tidy(q) && r != q
    ensures PathForWrite(base, Key(ns, r)).None? || PathForWrite(base, Key(ns, r)) != PathForWrite(base, Key(ns, q))
  {
    DirPath(base, ns, r);
    DirPath(base, ns, q);
    KeyInjective(ns, r, q);
    if base != "/" {
      assert (base + "/" + Key(ns, r))[|base| + 1..] == Key(ns, r);
      assert (base + "/" + Key(ns, q))[|base| + 1..] == Key(ns, q);
    }
  }

  // ---- all refs that cleanRef accepts, with white space around them or not ----

  /** The components of any Dir's path: BuildKey trims, and Join cleans what that leaves. */
  lemma DirParts(base: string, ns: string, ref: string)
    requires CleanAbs(base)
    ensures Parts(JoinPath(base, Key(ns, ref))) == Reduce(true, Parts(base) + Split(Trim(ns)) + Split(Trim(ref)))
  {
    var n, r, bs := Trim(ns), Trim(ref), Parts(base);
    FullIsClean(base, Key(ns, ref));
    ReduceStacked(true, Split(base));
    ReduceIdem(true, bs);
    ReduceAfter(true, Split(base), bs, Split(Key(ns, ref)));
    KeyCases(ns, ref);
    KeyReduces(bs, n, r);
  }

  lemma SplitNothing()
    ensures Split("") == [""]
  {
    FirstSlashAt("", "");
  }

  lemma KeyReduces(bs: seq<string>, n: string, r: string)
    ensures var key := if n == "" then r else if r == "" then n else n + "/" + r;
      Reduce(true, bs + Split(key)) == Reduce(true, bs + Split(n) + Split(r))
  {
    if n == "" {
      NoNamespace(bs, r);
    } else if r == "" {
      NoRef(bs, n);
    } else {
      SplitAppend(n, r);
      assert bs + (Split(n) + Split(r)) == bs + Split(n) + Split(r);
    }
  }

  lemma NoNamespace(bs: seq<string>, r: string)
    ensures Reduce(true, bs + Split(r)) == Reduce(true, bs + Split("") + Split(r))
  {
    SplitNothing();
    ReduceBlank(true, bs, Split(r));
  }

  lemma NoRef(bs: seq<string>, n: string)
    ensures Reduce(true, bs + Split(n)) == Reduce(true, bs + Split(n) + Split(""))
  {
    SplitNothing();
    var cs := bs + Split(n);
    ReduceBlank(true, cs, []);
    assert cs + [""] + [] == cs + [""] && cs + [] == cs;
  }

  /**
   The trimmed ref never leaves its start and ends below it: what cleanRef tested of the
   ref before it was trimmed.
   */
  predicate StaysUnder(ref: string) {
    StaysInside(Split(Trim(ref))) && Depth(Split(Trim(ref))) > 0
  }

  lemma TidyStaysUnder(ref: string)
    requires Tidy(ref)
    ensures StaysUnder(ref)
  {
    CleanRefFixed(ref);
    ProperDepth(Split(ref));
  }

  /** Where a ref that stays under is stored. */
  lemma DirUnder(base: string, ns: string, ref: string)
    requires CleanAbs(base) && Tidy(ns) && StaysInside(Split(Trim(ref)))
    ensures Parts(JoinPath(base, Key(ns, ref))) == Parts(base) + Split(ns) + Reduce(false, Split(Trim(ref)))
  {
    DirParts(base, ns, ref);
    CleanAbsShape(base);
    CleanRefFixed(ns);
    ReduceInside(Parts(base) + Split(ns), Split(Trim(ref)));
  }

  /** A namespace that no component of the ref names. */
  function Stranger(n: nat): (ns: string)
    ensures |ns| == n + 1
  {
    seq(n + 1, _ => 'x')
  }

  lemma StrangerTidy(n: nat)
    ensures Tidy(Stranger(n)) && Split(Stranger(n)) == [Stranger(n)] && Proper(Stranger(n))
  {
    var ns := Stranger(n);
    assert ns[0] == 'x';
    FirstSlashAt(ns, "");
    CleanRefFixed(ns);
    assert !IsSpace('x');
  }

  lemma StrangerLost(base: string, ref: string)
    requires CleanAbs(base) && !StaysInside(Split(Trim(ref)))
    ensures var ns := Stranger(|Trim(ref)|);
      Tidy(ns) && !(Parts(base) + Split(ns) <= Parts(JoinPath(base, Key(ns, ref))))
  {
    var ds := Split(Trim(ref));
    var ns := Stranger(|Trim(ref)|);
    StrangerTidy(|Trim(ref)|);
    if ns in ds { SplitShorter(Trim(ref), ns); }
    CleanAbsShape(base);
    DirParts(base, ns, ref);
    ReduceOutside(Parts(base), ns, ds);
    assert (Parts(base) + [ns])[|Parts(base)|] == ns;
  }

  /**
   Exactly when a ref is stored strictly below every namespace that has no white space
   around it. cleanRef alone does not make sure of it, because BuildKey trims afterwards.
   */
  lemma DirBelowIff(base: string, ref: string)
    requires CleanAbs(base)
    ensures (forall ns | Tidy(ns) :: Parts(base) + Split(ns) < Parts(JoinPath(base, Key(ns, ref))))
       <==> StaysUnder(ref)
  {
    var ds := Split(Trim(ref));
    if StaysInside(ds) {
      ReduceDepth(ds);
      forall ns | Tidy(ns)
        ensures Parts(base) + Split(ns) < Parts(JoinPath(base, Key(ns, ref))) <==> Depth(ds) > 0
      {
        DirUnder(base, ns, ref);
      }
      StrangerTidy(0);
    } else {
      StrangerLost(base, ref);
    }
  }

  lemma NoRoomFor(bs: seq<string>, ss: seq<string>, cs: seq<string>, x: string, full: seq<string>)
    requires |ss| == |cs| && bs + ss < full && |full| <= |bs| + |cs| + 1
    requires |full| == |bs| + |cs| + 1 ==> full == bs + (cs + [x])
    ensures ss == cs
  {
    assert full == bs + cs + [x];
    assert ss == full[|bs|..|bs| + |ss|] == cs;
  }

  /** A namespace with white space around it does not have the ref "x" below it. */
  lemma SpacedNamespaceLoses(base: string, ns: string)
    requires CleanAbs(base) && !Trimmed(ns)
    ensures var x := Stranger(0);
      StaysUnder(x) && !(Parts(base) + Split(ns) < Parts(JoinPath(base, Key(ns, x))))
  {
    var x := Stranger(0);
    StrangerTidy(0);
    TidyStaysUnder(x);
    DirParts(base, ns, x);
    TrimKeepsCount(ns);
    if Parts(base) + Split(ns) < Parts(JoinPath(base, Key(ns, x))) { BelowIsTrimmed(base, ns, x); }
  }

  lemma BelowIsTrimmed(base: string, ns: string, x: string)
    requires CleanAbs(base) && |Split(Trim(ns))| == |Split(ns)|
    requires Parts(base) + Split(ns) < Reduce(true, Parts(base) + Split(Trim(ns)) + [x])
    ensures Trimmed(ns)
  {
    var bs, cs := Parts(base), Split(Trim(ns));
    CleanAbsShape(base);
    assert bs + (cs + [x]) == bs + cs + [x];
    ReduceHeight(bs, cs + [x]);
    NoRoomFor(bs, Split(ns), cs, x, Reduce(true, bs + cs + [x]));
    JoinSplit(ns);
    JoinSplit(Trim(ns));
  }

  /**
   Exactly which of the namespaces that Dir accepts have every ref that stays under
   strictly below them: those without white space around them.
   */
  lemma NamespaceBelowIff(base: string, ns: string)
    requires CleanAbs(base) && CleanRef(ns) == Ok(ns)
    ensures (forall ref | StaysUnder(ref) :: Parts(base) + Split(ns) < Parts(JoinPath(base, Key(ns, ref))))
       <==> Trimmed(ns)
  {
    if Trimmed(ns) {
      forall ref | StaysUnder(ref)
        ensures Parts(base) + Split(ns) < Parts(JoinPath(base, Key(ns, ref)))
      {
        DirUnder(base, ns, ref);
        ReduceDepth(Split(Trim(ref)));
      }
    } else {
      SpacedNamespaceLoses(base, ns);
    }
  }

  /** Exactly which keys of a Dir pathForWrite accepts. */
  lemma DirAcceptedIff(base: string, ns: string, ref: string)
    requires CleanAbs(base)
    ensures PathForWrite(base, Key(ns, ref)).Some? <==>
      var cs := Reduce(true, Parts(base) + Split(Trim(ns)) + Split(Trim(ref)));
      if base == "/" then cs == [] else Parts(base) <= cs
  {
    DirParts(base, ns, ref);
    FullIsClean(base, Key(ns, ref));
    CleanAbsShape(JoinPath(base, Key(ns, ref)));
    if base == "/" {
      TestAtRoot(Key(ns, ref));
    } else {
      TestIsContainment(base, Key(ns, ref));
    }
  }

  /** Refs that stay under are accepted below every base but the root, and none of them below the root. */
  lemma DirUnderAccepted(base: string, ns: string, ref: string)
    requires CleanAbs(base) && Tidy(ns) && StaysUnder(ref)
    ensures PathForWrite(base, Key(ns, ref)).Some? <==> base != "/"
  {
    DirUnder(base, ns, ref);
    DirParts(base, ns, ref);
    DirAcceptedIff(base, ns, ref);
    CleanAbsShape(base);
  }

  lemma CleanAbsInjective(p: string, q: string)
    requires CleanAbs(p) && CleanAbs(q)
    ensures p == q <==> Parts(p) == Parts(q)
  {
    CleanAbsShape(p);
    CleanAbsShape(q);
  }

  /** Exactly when two refs, of one namespace or of two, are stored at one path. */
  lemma SamePathIff(base: string, ns: string, r: string, ms: string, q: string)
    requires CleanAbs(base)
    ensures JoinPath(base, Key(ns, r)) == JoinPath(base, Key(ms, q))
       <==> Reduce(true, Parts(base) + Split(Trim(ns)) + Split(Trim(r)))
            == Reduce(true, Parts(base) + Split(Trim(ms)) + Split(Trim(q)))
  {
    FullIsClean(base, Key(ns, r));
    FullIsClean(base, Key(ms, q));
    CleanAbsInjective(JoinPath(base, Key(ns, r)), JoinPath(base, Key(ms, q)));
    DirParts(base, ns, r);
    DirParts(base, ms, q);
  }

  /** Namespaces that differ only in the white space around them have every path in common. */
  lemma SpacedNamespaceShares(ns: string, ms: string, ref: string)
    requires Trim(ns) == Trim(ms)
    ensures Key(ns, ref) == Key(ms, ref)
  {
    KeyCases(ns, ref);
    KeyCases(ms, ref);
  }

  /** For refs that stay inside it depends on the trimmed refs alone: they clean to the same components. */
  lemma SamePathInside(base: string, ns: string, r: string, q: string)
    requires CleanAbs(base) && Tidy(ns) && StaysInside(Split(Trim(r))) && StaysInside(Split(Trim(q)))
    ensures JoinPath(base, Key(ns, r)) == JoinPath(base, Key(ns, q))
       <==> Reduce(false, Split(Trim(r))) == Reduce(false, Split(Trim(q)))
  {
    DirUnder(base, ns, r);
    DirUnder(base, ns, q);
    FullIsClean(base, Key(ns, r));
    FullIsClean(base, Key(ns, q));
    CleanAbsInjective(JoinPath(base, Key(ns, r)), JoinPath(base, Key(ns, q)));
    var cs := Parts(base) + Split(ns);
    assert (cs + Reduce(false, Split(Trim(r))))[|cs|..] == Reduce(false, Split(Trim(r)));
    assert (cs + Reduce(false, Split(Trim(q))))[|cs|..] == Reduce(false, Split(Trim(q)));
  }

  lemma TwoComponents(c: string, d: string)
    requires SlashFree(c) && SlashFree(d)
    ensures Split(c + "/" + d) == [c, d]
  {
    FirstSlashAt(c, "");
    FirstSlashAt(d, "");
    SplitAppend(c, d);
  }

  lemma TwoProper(c: string, d: string)
    requires Proper(c) && Proper(d)
    ensures CleanRef(c + "/" + d) == Ok(c + "/" + d)
  {
    TwoComponents(c, d);
    CleanRefFixed(c + "/" + d);
  }

  /** A component without white space around it. */
  predicate Bare(x: string) {
    Proper(x) && !IsSpace(x[0]) && !IsSpace(x[|x| - 1])
  }

  /** White space in front goes, and only that. */
  lemma TrimFront(c: string, x: string)
    requires Bare(x) && (c == "" || !IsSpace(c[0]))
    ensures Trim(" " + c + "/" + x) == c + "/" + x
  {
    var s := c + "/" + x;
    assert " " + c + "/" + x == " " + s;
    assert (" " + s)[1..] == s;
    assert s[|s| - 1] == x[|x| - 1];
    assert !IsSpace('/');
  }

  lemma UpLeaves(x: string)
    ensures !StaysInside(["..", x])
  {
    var up := ["..", x];
    assert up[..1] == [".."] && [".."][..0] == [];
    assert Depth(up[..1]) == -1;
  }

  /** " ../x", for any x: cleanRef accepts it, and it is stored outside some namespace. */
  lemma SpacedLeaves(base: string, x: string)
    requires CleanAbs(base) && Bare(x)
    ensures var ref := " " + ".." + "/" + x;
      && CleanRef(ref) == Ok(ref) && !StaysUnder(ref)
      && exists ns :: Tidy(ns) && !(Parts(base) + Split(ns) <= Parts(JoinPath(base, Key(ns, ref))))
  {
    var ref := " " + ".." + "/" + x;
    assert Proper(" " + "..");
    TwoProper(" " + "..", x);
    TrimFront("..", x);
    TwoComponents("..", x);
    UpLeaves(x);
    StrangerLost(base, ref);
  }

  lemma OneInside(x: string)
    requires Proper(x)
    ensures Reduce(false, ["", x]) == [x] && StaysInside(["", x])
    ensures Reduce(false, [x]) == [x] && StaysInside([x])
  {
    var a := ["", x];
    assert a[..0] == [] && a[..1] == [""] && a[..2] == a && [""][..0] == [];
    assert [x][..0] == [] && [x][..1] == [x];
  }

  lemma BareTrimmed(x: string)
    requires Bare(x)
    ensures Trim(x) == x && CleanRef(x) == Ok(x) && Split(x) == [x]
  {
    FirstSlashAt(x, "");
    CleanRefFixed(x);
  }

  /** " /x" and "x": cleanRef accepts both, their keys are distinct, and they are stored at one path. */
  lemma SpacedShares(base: string, ns: string, x: string)
    requires CleanAbs(base) && Tidy(ns) && Bare(x)
    ensures var ref := " " + "" + "/" + x;
      && CleanRef(ref) == Ok(ref) && CleanRef(x) == Ok(x) && Key(ns, ref) != Key(ns, x)
      && JoinPath(base, Key(ns, ref)) == JoinPath(base, Key(ns, x))
  {
    var ref := " " + "" + "/" + x;
    assert " " + "" == " " && Proper(" ");
    TwoProper(" ", x);
    TrimFront("", x);
    TwoComponents("", x);
    BareTrimmed(x);
    OneInside(x);
    KeyCollides(ns, ref, x);
    SamePathInside(base, ns, ref, x);
  }

  /** " x" and "x", for any x: Dir accepts both as namespaces, and each ref is stored at one path below both. */
  lemma SpacedNamespace(base: string, x: string, ref: string)
    requires CleanAbs(base) && Bare(x)
    ensures var ns := " " + x;
      && CleanRef(ns) == Ok(ns) && CleanRef(x) == Ok(x) && !Trimmed(ns)
      && JoinPath(base, Key(ns, ref)) == JoinPath(base, Key(x, ref))
  {
    var ns := " " + x;
    assert ns[1..] == x;
    assert Proper(ns);
    FirstSlashAt(ns, "");
    CleanRefFixed(ns);
    BareTrimmed(x);
    SpacedNamespaceShares(ns, x, ref);
  }
}
