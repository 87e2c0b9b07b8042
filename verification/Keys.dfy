/** BuildKey, and the keys of a Dir. */
module Keys {
  import opened Paths
  import opened Refs

  /** unicode.IsSpace */
  predicate IsSpace(c: char) {
    || '\t' <= c <= '\r' || c == ' ' || c == '\U{0085}' || c == '\U{00A0}' || c == '\U{1680}'
    || '\U{2000}' <= c <= '\U{200A}' || c == '\U{2028}' || c == '\U{2029}' || c == '\U{202F}'
    || c == '\U{205F}' || c == '\U{3000}'
  }

  /** By code points: the five controls, the space, next line, and the space separators of Unicode. */
  lemma SpaceCodes(c: char)
    ensures IsSpace(c) <==>
      var n := c as int;
      9 <= n <= 13 || n in {32, 133, 160, 5760, 8232, 8233, 8239, 8287, 12288} || 8192 <= n <= 8202
  {
  }

  /** strings.TrimSpace */
  function Trim(s: string): (t: string)
    ensures |t| <= |s|
    ensures |t| == |s| ==> t == s
    ensures t != "" ==> !IsSpace(t[0]) && !IsSpace(t[|t| - 1])
    decreases |s|
  {
    if s == "" then ""
    else if IsSpace(s[0]) then Trim(s[1..])
    else if IsSpace(s[|s| - 1]) then Trim(s[..|s| - 1])
    else s
  }

  /** From i on up to j the string is kept, and all before and after it is white space. */
  predicate Kept(s: string, i: nat, j: nat) {
    && i <= j <= |s|
    && (forall k | 0 <= k < i :: IsSpace(s[k]))
    && (forall k | j <= k < |s| :: IsSpace(s[k]))
  }

  lemma KeptFront(s: string, i: nat, j: nat)
    requires s != "" && IsSpace(s[0]) && Kept(s[1..], i, j)
    ensures Kept(s, i + 1, j + 1) && s[i + 1..j + 1] == s[1..][i..j]
  {
    assert forall k | 0 < k < |s| :: s[k] == s[1..][k - 1];
  }

  lemma KeptBack(s: string, i: nat, j: nat)
    requires s != "" && IsSpace(s[|s| - 1]) && Kept(s[..|s| - 1], i, j)
    ensures Kept(s, i, j) && s[i..j] == s[..|s| - 1][i..j]
  {
    assert forall k | 0 <= k < |s| - 1 :: s[k] == s[..|s| - 1][k];
  }

  lemma TrimNext(s: string)
    requires s != ""
    ensures IsSpace(s[0]) ==> Trim(s) == Trim(s[1..])
    ensures !IsSpace(s[0]) && IsSpace(s[|s| - 1]) ==> Trim(s) == Trim(s[..|s| - 1])
    ensures !IsSpace(s[0]) && !IsSpace(s[|s| - 1]) ==> Trim(s) == s
  {
  }

  lemma {:induction false} TrimKeeps(s: string) returns (i: nat, j: nat)
    ensures Kept(s, i, j) && Trim(s) == s[i..j]
    decreases |s|
  {
    i, j := 0, |s|;
    if s != "" {
      TrimNext(s);
      if IsSpace(s[0]) {
        i, j := TrimKeeps(s[1..]);
        KeptFront(s, i, j);
        i, j := i + 1, j + 1;
      } else if IsSpace(s[|s| - 1]) {
        i, j := TrimKeeps(s[..|s| - 1]);
        KeptBack(s, i, j);
      }
    }
  }

  /** Only white space goes, in front and at the end; what is left has none there. */
  lemma TrimIs(s: string) returns (i: nat, j: nat)
    ensures Kept(s, i, j) && Trim(s) == s[i..j]
    ensures i < j ==> !IsSpace(s[i]) && !IsSpace(s[j - 1])
  {
    i, j := TrimKeeps(s);
    if i < j { assert Trim(s)[0] == s[i] && Trim(s)[|Trim(s)| - 1] == s[j - 1]; }
  }

  lemma CountWithout(a: string, c: char, b: string)
    requires c != '/'
    ensures |Split(a + [c] + b)| == |Split(a + b)|
  {
    SplitCount(a + [c] + b);
    SplitCount(a + b);
    assert multiset(a + [c] + b) == multiset(a + b) + multiset{c};
  }

  lemma SlashStays()
    ensures !IsSpace('/')
  {
  }

  /** Trimming takes no slash away. */
  lemma {:induction false} TrimKeepsCount(s: string)
    ensures |Split(Trim(s))| == |Split(s)|
    decreases |s|
  {
    SlashStays();
    if s == "" {
    } else if IsSpace(s[0]) {
      CountWithout("", s[0], s[1..]);
      assert "" + [s[0]] + s[1..] == s && "" + s[1..] == s[1..];
      TrimKeepsCount(s[1..]);
    } else if IsSpace(s[|s| - 1]) {
      var front := s[..|s| - 1];
      CountWithout(front, s[|s| - 1], "");
      assert front + [s[|s| - 1]] + "" == s && front + "" == front;
      TrimKeepsCount(front);
    }
  }

  predicate Trimmed(s: string) {
    Trim(s) == s
  }

  /** What BuildKey joins: the parts trimmed, without those that are blank. */
  function Segments(parts: seq<string>): seq<string> {
    if parts == [] then []
    else
      var t := Trim(parts[|parts| - 1]);
      if t == "" then Segments(parts[..|parts| - 1]) else Segments(parts[..|parts| - 1]) + [t]
  }

  method BuildKey(parts: seq<string>) returns (key: string)
    ensures key == Join(Segments(parts))
  {
    var segments: seq<string> := [];
    for i := 0 to |parts|
      invariant segments == Segments(parts[..i])
    {
      assert parts[..i + 1][..i] == parts[..i];
      var p := Trim(parts[i]);
      if p != "" {
        segments := segments + [p];
      }
    }
    assert parts[..|parts|] == parts;
    return Join(segments);
  }

  /** Dir.key */
  function Key(ns: string, ref: string): string {
    Join(Segments([ns, ref]))
  }

  lemma OnePart(p: string)
    ensures Segments([p]) == if Trim(p) == "" then [] else [Trim(p)]
  {
    assert [p][..0] == [];
  }

  lemma TwoParts(p: string, q: string)
    ensures Segments([p, q]) == Segments([p]) + Segments([q])
  {
    OnePart(q);
    assert [p, q][..1] == [p];
  }

  lemma KeyCases(ns: string, ref: string)
    ensures var n, r := Trim(ns), Trim(ref);
      Key(ns, ref) == if n == "" then r else if r == "" then n else n + "/" + r
  {
    OnePart(ns);
    OnePart(ref);
    TwoParts(ns, ref);
    JoinPair(Trim(ns), Trim(ref));
  }

  lemma JoinPair(n: string, r: string)
    ensures Join([n, r]) == n + "/" + r && Join([n]) == n && [n] + [r] == [n, r] && [n] + [] == [n] && [] + [r] == [r]
  {
    assert [n, r][1..] == [r];
  }

  /** The key is the ref below the namespace exactly if neither has white space around it. */
  lemma KeyIsBelow(ns: string, ref: string)
    requires ns != "" && ref != ""
    ensures Key(ns, ref) == ns + "/" + ref <==> Trimmed(ns) && Trimmed(ref)
  {
    KeyCases(ns, ref);
  }

  /** The same on components: those of the namespace, then those of the ref. */
  lemma KeyComponents(ns: string, ref: string)
    requires ns != "" && ref != ""
    ensures Split(Key(ns, ref)) == Split(ns) + Split(ref) <==> Trimmed(ns) && Trimmed(ref)
  {
    KeyIsBelow(ns, ref);
    SplitAppend(ns, ref);
    JoinSplit(Key(ns, ref));
    JoinSplit(ns + "/" + ref);
  }

  /** Two refs share a key exactly if they differ only in the white space around them. */
  lemma KeyCollides(ns: string, r: string, q: string)
    ensures Key(ns, r) == Key(ns, q) <==> Trim(r) == Trim(q)
  {
    KeyCases(ns, r);
    KeyCases(ns, q);
    var n := Trim(ns);
    if n != "" && Trim(r) != "" && Trim(q) != "" && Key(ns, r) == Key(ns, q) {
      assert (n + "/" + Trim(r))[|n| + 1..] == Trim(r);
      assert (n + "/" + Trim(q))[|n| + 1..] == Trim(q);
    }
  }

  /** The components that a part gives to a key. */
  function Pieces(part: string): seq<string> {
    if Trim(part) == "" then [] else Split(Trim(part))
  }

  lemma KeyPieces(ns: string, ref: string)
    ensures var cs := Pieces(ns) + Pieces(ref);
      if cs == [] then Key(ns, ref) == "" else Key(ns, ref) != "" && Split(Key(ns, ref)) == cs
  {
    KeyCases(ns, ref);
    var n, r := Trim(ns), Trim(ref);
    if n == "" || r == "" {
      assert Pieces(ns) + [] == Pieces(ns) && [] + Pieces(ref) == Pieces(ref);
    } else {
      SplitAppend(n, r);
    }
  }

  /** Exactly when two refs, of one namespace or of two, have one key: they give it the same components. */
  lemma SameKeyIff(ns: string, r: string, ms: string, q: string)
    ensures Key(ns, r) == Key(ms, q) <==> Pieces(ns) + Pieces(r) == Pieces(ms) + Pieces(q)
  {
    KeyPieces(ns, r);
    KeyPieces(ms, q);
    JoinSplit(Key(ns, r));
    JoinSplit(Key(ms, q));
  }

  /** So refs that are trimmed once they are cleaned have distinct keys. */
  lemma KeyInjective(ns: string, r: string, q: string)
    requires Trimmed(r) && Trimmed(q) && r != q
    ensures Key(ns, r) != Key(ns, q)
  {
    KeyCollides(ns, r, q);
  }

  lemma TrimA()
    ensures Trim("a") == "a" && Trim(" a") == "a" && Trim("./ a") == "./ a"
  {
    assert " a"[1..] == "a";
  }

  lemma CleanA()
    ensures CleanRef("a") == Ok("a") && CleanRef("./ a") == Ok(" a")
  {
    FirstSlashAt("a", "");
    FirstSlashAt(" a", "");
    FirstSlashAt(".", "");
    CleanRefFixed("a");
    assert "./ a" == "." + "/" + " a";
    SplitAppend(".", " a");
    var cs := [".", " a"];
    assert cs[..1] == ["."] && ["."][..0] == [];
    assert Parts("./ a") == Reduce(false, cs) == [] + [" a"];
  }

  /** Trimmed before cleaning is not enough: "./ a" and "a" are trimmed and both accepted, and share their key. */
  lemma CleanedSpaceCollides(ns: string)
    ensures Trimmed("./ a") && Trimmed("a") && CleanRef("./ a") == Ok(" a") && CleanRef("a") == Ok("a")
    ensures Key(ns, " a") == Key(ns, "a")
  {
    TrimA();
    CleanA();
    KeyCollides(ns, " a", "a");
  }
}
