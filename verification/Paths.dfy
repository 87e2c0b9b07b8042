/** path.Clean of Go as a machine over components with a stack. */
module Paths {

  predicate SlashFree(s: string) {
    '/' !in s
  }

  predicate AllSlashFree(cs: seq<string>) {
    forall i | 0 <= i < |cs| :: SlashFree(cs[i])
  }

  /** Position of the first slash, or the length. */
  function FirstSlash(s: string): (i: nat)
    ensures i <= |s|
    ensures SlashFree(s[..i])
    ensures i < |s| ==> s[i] == '/'
  {
    if s == "" || s[0] == '/' then 0 else FirstSlash(s[1..]) + 1
  }

  /** The components between slashes; at least one, possibly empty. */
  function Split(s: string): (cs: seq<string>)
    ensures cs != [] && AllSlashFree(cs)
    decreases |s|
  {
    var i := FirstSlash(s);
    if i == |s| then [s] else [s[..i]] + Split(s[i + 1..])
  }

  /** strings.Join(cs, "/") */
  function Join(cs: seq<string>): string {
    if cs == [] then ""
    else if |cs| == 1 then cs[0]
    else cs[0] + "/" + Join(cs[1..])
  }

  lemma {:induction false} JoinSplit(s: string)
    ensures Join(Split(s)) == s
    decreases |s|
  {
    var i := FirstSlash(s);
    if i < |s| {
      JoinSplit(s[i + 1..]);
      assert Split(s)[1..] == Split(s[i + 1..]);
    }
  }

  lemma {:induction false} FirstSlashAt(c: string, rest: string)
    requires SlashFree(c)
    ensures FirstSlash(c + "/" + rest) == |c|
    ensures FirstSlash(c) == |c|
  {
    if c != "" {
      assert forall x | x in c[1..] :: x in c;
      FirstSlashAt(c[1..], rest);
      assert (c + "/" + rest)[1..] == c[1..] + "/" + rest;
      assert c[0] in c;
    }
  }

  lemma {:induction false} SplitJoin(cs: seq<string>)
    requires cs != [] && AllSlashFree(cs)
    ensures Split(Join(cs)) == cs
  {
    if |cs| == 1 {
      FirstSlashAt(cs[0], "");
    } else {
      FirstSlashAt(cs[0], Join(cs[1..]));
      SplitJoin(cs[1..]);
      var s := Join(cs);
      assert s[..|cs[0]|] == cs[0] && s[|cs[0]| + 1..] == Join(cs[1..]);
    }
  }

  lemma {:induction false} JoinAppend(cs: seq<string>, ds: seq<string>)
    requires cs != [] && ds != []
    ensures Join(cs + ds) == Join(cs) + "/" + Join(ds)
  {
    var all := cs + ds;
    assert all[0] == cs[0];
    if |cs| == 1 {
      assert all[1..] == ds;
    } else {
      JoinAppend(cs[1..], ds);
      assert all[1..] == cs[1..] + ds;
      assert Join(all) == cs[0] + "/" + (Join(cs[1..]) + "/" + Join(ds));
    }
  }

  lemma SplitAppend(s: string, t: string)
    ensures Split(s + "/" + t) == Split(s) + Split(t)
  {
    JoinSplit(s);
    JoinSplit(t);
    JoinAppend(Split(s), Split(t));
    SplitJoin(Split(s) + Split(t));
  }

  // ---- Clean ----

  predicate Proper(c: string) {
    c != "" && c != "." && c != ".." && SlashFree(c)
  }

  predicate AllProper(cs: seq<string>) {
    forall i | 0 <= i < |cs| :: Proper(cs[i])
  }

  /** One component: "" and "." do nothing, ".." takes back the component before it if that is possible. */
  function Push(rooted: bool, stack: seq<string>, c: string): seq<string> {
    if c == "" || c == "." then stack
    else if c != ".." then stack + [c]
    else if stack != [] && stack[|stack| - 1] != ".." then stack[..|stack| - 1]
    else if rooted then stack
    else stack + [".."]
  }

  function Reduce(rooted: bool, cs: seq<string>): seq<string> {
    if cs == [] then [] else Push(rooted, Reduce(rooted, cs[..|cs| - 1]), cs[|cs| - 1])
  }

  predicate IsAbs(p: string) {
    p != "" && p[0] == '/'
  }

  /** The stack for a path. */
  function Parts(p: string): seq<string> {
    Reduce(IsAbs(p), Split(p))
  }

  function Render(rooted: bool, stack: seq<string>): string {
    if rooted then "/" + Join(stack) else if stack == [] then "." else Join(stack)
  }

  /** path.Clean */
  function Clean(p: string): string {
    Render(IsAbs(p), Parts(p))
  }

  /** What a component does to the depth. */
  function Delta(c: string): int {
    if c == "" || c == "." then 0 else if c == ".." then -1 else 1
  }

  function Depth(cs: seq<string>): int {
    if cs == [] then 0 else Depth(cs[..|cs| - 1]) + Delta(cs[|cs| - 1])
  }

  /** No prefix goes above the start. */
  predicate StaysInside(cs: seq<string>) {
    forall k | 0 <= k <= |cs| :: Depth(cs[..k]) >= 0
  }

  /** What the stack always looks like. */
  predicate Stacked(rooted: bool, stack: seq<string>) {
    && (forall i | 0 <= i < |stack| :: Proper(stack[i]) || (!rooted && stack[i] == ".."))
    && forall i, j | 0 <= i < j < |stack| && stack[j] == ".." :: stack[i] == ".."
  }

  lemma {:induction false} ReduceStacked(rooted: bool, cs: seq<string>)
    requires AllSlashFree(cs)
    ensures Stacked(rooted, Reduce(rooted, cs))
  {
    if cs != [] {
      ReduceStacked(rooted, cs[..|cs| - 1]);
    }
  }

  lemma PushInside(st: seq<string>, c: string)
    requires AllProper(st) && SlashFree(c)
    ensures var t := Push(false, st, c);
      if |st| + Delta(c) >= 0 then AllProper(t) && |t| == |st| + Delta(c) else t == [".."]
  {
  }

  lemma PushOutside(st: seq<string>, c: string)
    requires Stacked(false, st) && st != [] && st[0] == ".."
    ensures Push(false, st, c) != [] && Push(false, st, c)[0] == ".."
  {
  }

  lemma PrefixDepth(cs: seq<string>, c: string, k: nat)
    requires k <= |cs| + 1
    ensures Depth((cs + [c])[..k]) == if k <= |cs| then Depth(cs[..k]) else Depth(cs) + Delta(c)
  {
    var all := cs + [c];
    if k <= |cs| {
      assert all[..k] == cs[..k];
    } else {
      assert all[..k] == all && all[..|all| - 1] == cs;
    }
  }

  lemma StaysInsideNext(cs: seq<string>, c: string)
    ensures StaysInside(cs + [c]) <==> StaysInside(cs) && Depth(cs) + Delta(c) >= 0
  {
    forall k | 0 <= k <= |cs| + 1 { PrefixDepth(cs, c, k); }
    if StaysInside(cs + [c]) {
      forall k | 0 <= k <= |cs| ensures Depth(cs[..k]) >= 0 {
        assert Depth((cs + [c])[..k]) >= 0;
      }
      assert Depth((cs + [c])[..|cs| + 1]) >= 0;
    }
  }

  /** A relative path stays inside exactly if the stack has no "..", and then the stack is as high as the depth. */
  lemma {:induction false} ReduceDepth(cs: seq<string>)
    requires AllSlashFree(cs)
    ensures var st := Reduce(false, cs);
      if StaysInside(cs) then AllProper(st) && |st| == Depth(cs) else st != [] && st[0] == ".."
  {
    if cs != [] {
      var n := |cs| - 1;
      ReduceDepth(cs[..n]);
      ReduceStacked(false, cs[..n]);
      assert cs == cs[..n] + [cs[n]];
      StaysInsideNext(cs[..n], cs[n]);
      var st := Reduce(false, cs[..n]);
      if StaysInside(cs[..n]) { PushInside(st, cs[n]); } else { PushOutside(st, cs[n]); }
    }
  }

  /** Reduced components reduce to themselves. */
  lemma {:induction false} ReduceIdem(rooted: bool, stack: seq<string>)
    requires Stacked(rooted, stack)
    ensures Reduce(rooted, stack) == stack
  {
    if stack != [] {
      var n := |stack| - 1;
      ReduceIdem(rooted, stack[..n]);
      assert stack == stack[..n] + [stack[n]];
    }
  }

  lemma {:induction false} ReduceAppend(rooted: bool, cs: seq<string>, ds: seq<string>)
    requires Stacked(rooted, cs) && AllProper(ds)
    ensures Reduce(rooted, cs + ds) == cs + ds
  {
    if ds == [] {
      assert cs + ds == cs;
      ReduceIdem(rooted, cs);
    } else {
      var n := |ds| - 1;
      ReduceAppend(rooted, cs, ds[..n]);
      assert (cs + ds)[..|cs + ds| - 1] == cs + ds[..n];
      assert ds == ds[..n] + [ds[n]];
    }
  }

  // ---- going on from a reduced path ----

  /** Only the stack matters for what comes after. */
  lemma {:induction false} ReduceAfter(rooted: bool, cs: seq<string>, ds: seq<string>, es: seq<string>)
    requires Reduce(rooted, cs) == Reduce(rooted, ds)
    ensures Reduce(rooted, cs + es) == Reduce(rooted, ds + es)
  {
    if es == [] {
      assert cs + es == cs && ds + es == ds;
    } else {
      var n := |es| - 1;
      ReduceAfter(rooted, cs, ds, es[..n]);
      assert (cs + es)[..|cs + es| - 1] == cs + es[..n];
      assert (ds + es)[..|ds + es| - 1] == ds + es[..n];
    }
  }

  /** An empty component makes no difference. */
  lemma ReduceBlank(rooted: bool, cs: seq<string>, ds: seq<string>)
    ensures Reduce(rooted, cs + [""] + ds) == Reduce(rooted, cs + ds)
  {
    assert (cs + [""])[..|cs + [""]| - 1] == cs;
    ReduceAfter(rooted, cs + [""], cs, ds);
  }

  lemma PushTwo(rooted: bool, cs: seq<string>, c: string, d: string)
    ensures Reduce(rooted, cs + [c, d]) == Push(rooted, Push(rooted, Reduce(rooted, cs), c), d)
  {
    var a := cs + [c];
    assert a[..|a| - 1] == cs && cs + [c, d] == a + [d];
    assert (a + [d])[..|a + [d]| - 1] == a;
  }

  /**
   The rules of path.Clean on components: a blank one and "." go, ".." goes with the
   proper one before it, and at the root alone. Nothing else changes.
   */
  lemma CleanRules(rooted: bool, cs: seq<string>, c: string, ds: seq<string>)
    ensures Reduce(rooted, cs + [""] + ds) == Reduce(rooted, cs + ds)
    ensures Reduce(rooted, cs + ["."] + ds) == Reduce(rooted, cs + ds)
    ensures Proper(c) ==> Reduce(rooted, cs + [c, ".."] + ds) == Reduce(rooted, cs + ds)
    ensures Reduce(true, [".."] + ds) == Reduce(true, ds)
    ensures AllProper(cs) ==> Reduce(rooted, cs) == cs
  {
    ReduceBlank(rooted, cs, ds);
    assert (cs + ["."])[..|cs|] == cs;
    ReduceAfter(rooted, cs + ["."], cs, ds);
    if Proper(c) {
      PushTwo(rooted, cs, c, "..");
      var st := Reduce(rooted, cs);
      assert (st + [c])[..|st|] == st;
      ReduceAfter(rooted, cs + [c, ".."], cs, ds);
    }
    assert [".."][..0] == [] && [] + ds == ds;
    ReduceAfter(true, [".."], [], ds);
    if AllProper(cs) { ReduceIdem(rooted, cs); }
  }

  lemma ReducePush(rooted: bool, cs: seq<string>, ds: seq<string>)
    requires ds != []
    ensures Reduce(rooted, cs + ds) == Push(rooted, Reduce(rooted, cs + ds[..|ds| - 1]), ds[|ds| - 1])
  {
    assert (cs + ds)[..|cs + ds| - 1] == cs + ds[..|ds| - 1];
  }

  lemma PushAbove(base: seq<string>, st: seq<string>, c: string)
    requires AllProper(st) && |st| + Delta(c) >= 0
    ensures Push(true, base + st, c) == base + Push(false, st, c)
  {
    if c == ".." {
      assert (base + st)[|base + st| - 1] == st[|st| - 1];
      assert (base + st)[..|base + st| - 1] == base + st[..|st| - 1];
    }
  }

  /** Components that stay inside are reduced above what is there. */
  lemma {:induction false} ReduceInside(base: seq<string>, ds: seq<string>)
    requires AllProper(base) && AllSlashFree(ds) && StaysInside(ds)
    ensures Reduce(true, base + ds) == base + Reduce(false, ds)
  {
    if ds == [] {
      assert base + ds == base;
      ReduceIdem(true, base);
    } else {
      var n := |ds| - 1;
      assert ds == ds[..n] + [ds[n]];
      StaysInsideNext(ds[..n], ds[n]);
      ReduceInside(base, ds[..n]);
      ReduceDepth(ds[..n]);
      ReducePush(true, base, ds);
      PushAbove(base, Reduce(false, ds[..n]), ds[n]);
    }
  }

  /** The component at height h of the stack is not c. */
  predicate Lost(st: seq<string>, h: nat, c: string) {
    |st| <= h || st[h] != c
  }

  lemma PushLost(st: seq<string>, h: nat, c: string, d: string)
    requires Lost(st, h, c) && d != c
    ensures Lost(Push(true, st, d), h, c)
  {
  }

  /** Components that do not stay inside lose the top of the stack, unless they name it again. */
  lemma {:induction false} ReduceOutside(base: seq<string>, c: string, ds: seq<string>)
    requires AllProper(base) && Proper(c) && AllSlashFree(ds) && !StaysInside(ds) && c !in ds
    ensures Lost(Reduce(true, base + [c] + ds), |base|, c)
  {
    assert StaysInside([]);
    if ds != [] {
      var n := |ds| - 1;
      assert ds == ds[..n] + [ds[n]];
      StaysInsideNext(ds[..n], ds[n]);
      ReducePush(true, base + [c], ds);
      var st := Reduce(true, base + [c] + ds[..n]);
      assert ds[n] in ds;
      if StaysInside(ds[..n]) {
        ReduceInside(base + [c], ds[..n]);
        ReduceDepth(ds[..n]);
        assert st == base + [c];
      } else {
        assert forall d | d in ds[..n] :: d in ds;
        ReduceOutside(base, c, ds[..n]);
        PushLost(st, |base|, c, ds[n]);
      }
    }
  }

  lemma {:induction false} ProperDepth(cs: seq<string>)
    requires AllProper(cs)
    ensures StaysInside(cs) && Depth(cs) == |cs|
  {
    if cs != [] {
      var n := |cs| - 1;
      ProperDepth(cs[..n]);
      assert cs == cs[..n] + [cs[n]];
      StaysInsideNext(cs[..n], cs[n]);
    }
  }

  lemma {:induction false} SplitShorter(s: string, c: string)
    requires c in Split(s)
    ensures |c| <= |s|
    decreases |s|
  {
    var i := FirstSlash(s);
    if i < |s| && c != s[..i] { SplitShorter(s[i + 1..], c); }
  }

  /** A path has one component more than slashes. */
  lemma {:induction false} SplitCount(s: string)
    ensures |Split(s)| == multiset(s)['/'] + 1
    decreases |s|
  {
    var i := FirstSlash(s);
    if i == |s| {
      assert s[..i] == s;
    } else {
      var front, rest := s[..i], s[i + 1..];
      assert s == front + ['/'] + rest;
      assert multiset(s)['/'] == multiset(front)['/'] + 1 + multiset(rest)['/'];
      SplitCount(rest);
    }
  }

  lemma LastApart(base: seq<string>, cs: seq<string>)
    requires cs != []
    ensures base + cs == base + cs[..|cs| - 1] + [cs[|cs| - 1]]
  {
  }

  lemma PushHeight(st: seq<string>, c: string)
    ensures |Push(true, st, c)| <= |st| + 1
    ensures |Push(true, st, c)| == |st| + 1 ==> Push(true, st, c) == st + [c]
  {
  }

  /** Components make the stack at most that much higher, and exactly that much only if all of them are put on it. */
  lemma {:induction false} ReduceHeight(base: seq<string>, cs: seq<string>)
    requires AllProper(base)
    ensures |Reduce(true, base + cs)| <= |base| + |cs|
    ensures |Reduce(true, base + cs)| == |base| + |cs| ==> Reduce(true, base + cs) == base + cs
  {
    if cs == [] {
      assert base + cs == base;
      ReduceIdem(true, base);
    } else {
      var n := |cs| - 1;
      ReduceHeight(base, cs[..n]);
      var st := Reduce(true, base + cs[..n]);
      var t := Reduce(true, base + cs);
      assert t == Push(true, st, cs[n]) by { ReducePush(true, base, cs); }
      PushHeight(st, cs[n]);
      LastApart(base, cs);
    }
  }

  // ---- reading a cleaned path back ----

  lemma JoinHead(cs: seq<string>)
    requires cs != [] && cs[0] != ""
    ensures Join(cs) != "" && Join(cs)[0] == cs[0][0]
  {
  }

  /** The components of a rendered stack. */
  lemma PartsOfRender(rooted: bool, stack: seq<string>)
    requires Stacked(rooted, stack)
    ensures IsAbs(Render(rooted, stack)) == rooted
    ensures Parts(Render(rooted, stack)) == stack
  {
    var s := Render(rooted, stack);
    if stack == [] {
      if rooted {
        assert s == "/";
        SplitAppend("", "");
        assert "" + "/" + "" == s;
        assert Split(s) == ["", ""];
        assert ["", ""][..1] == [""] && [""][..0] == [];
        assert Reduce(rooted, [""]) == [];
      } else {
        FirstSlashAt(".", "");
        assert Split(s) == ["."] && ["."][..0] == [];
      }
    } else {
      assert Proper(stack[0]) || stack[0] == "..";
      JoinHead(stack);
      assert stack[0][0] in stack[0];
      SplitJoin(stack);
      ReduceIdem(rooted, stack);
      if rooted {
        FirstSlashAt("", "");
        SplitAppend("", Join(stack));
        assert "" + "/" + Join(stack) == s;
        ReducePrefix(stack);
      }
    }
  }

  lemma {:induction false} ReducePrefix(cs: seq<string>)
    ensures Reduce(true, [""] + cs) == Reduce(true, cs)
  {
    if cs == [] {
      assert [""] + cs == [""] && [""][..0] == [];
    } else {
      var n := |cs| - 1;
      ReducePrefix(cs[..n]);
      assert ([""] + cs)[..n + 1] == [""] + cs[..n];
    }
  }

  /** Clean is idempotent. */
  lemma CleanIdem(p: string)
    ensures Clean(Clean(p)) == Clean(p)
  {
    ReduceStacked(IsAbs(p), Split(p));
    PartsOfRender(IsAbs(p), Parts(p));
  }
}
