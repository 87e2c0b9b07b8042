/** strings.Contains, and what it finds in a concatenation. */
module Substrings {
  predicate MatchAt(s: string, p: string, i: nat) {
    i + |p| <= |s| && s[i..i + |p|] == p
  }

  /** strings.Contains */
  predicate Contains(s: string, p: string) {
    exists i: nat | i <= |s| :: MatchAt(s, p, i)
  }

  lemma MatchChars(s: string, p: string, i: nat)
    ensures MatchAt(s, p, i) ==> forall j | 0 <= j < |p| :: p[j] == s[i + j]
    ensures MatchAt(s, p, i) ==> forall j | i <= j < i + |p| :: s[j] in p
  {
    if MatchAt(s, p, i) {
      forall j | i <= j < i + |p| ensures s[j] in p {
        assert s[i..i + |p|][j - i] == s[j];
      }
    }
  }

  lemma ContainsRight(a: string, b: string, p: string)
    requires Contains(b, p)
    ensures Contains(a + b, p)
  {
    var i: nat :| i <= |b| && MatchAt(b, p, i);
    assert (a + b)[|a| + i..|a| + i + |p|] == b[i..i + |p|];
    assert MatchAt(a + b, p, |a| + i);
  }

  lemma ContainsLeft(a: string, b: string, p: string)
    requires Contains(a, p)
    ensures Contains(a + b, p)
  {
    var i: nat :| i <= |a| && MatchAt(a, p, i);
    assert (a + b)[i..i + |p|] == a[i..i + |p|];
    assert MatchAt(a + b, p, i);
  }

  /** A character that p lacks separates the matches of p. */
  lemma Separated(a: string, c: char, b: string, p: string)
    requires c !in p
    ensures Contains(a + [c] + b, p) <==> Contains(a, p) || Contains(b, p)
  {
    var s := a + [c] + b;
    assert s[|a|] == c;
    forall i: nat | MatchAt(s, p, i) ensures Contains(a, p) || Contains(b, p) {
      MatchChars(s, p, i);
      if i + |p| <= |a| {
        assert s[i..i + |p|] == a[i..i + |p|];
        assert MatchAt(a, p, i);
      } else if i > |a| {
        var k := i - |a| - 1;
        assert s[i..i + |p|] == b[k..k + |p|];
        assert MatchAt(b, p, k);
      }
    }
    assert s == a + ([c] + b);
    if Contains(a, p) { ContainsLeft(a, [c] + b, p); }
    if Contains(b, p) { ContainsRight(a + [c], b, p); }
  }

  /** A character of p that s lacks rules out a match. */
  lemma Missing(s: string, p: string, c: char)
    requires c in p && c !in s
    ensures !Contains(s, p)
  {
    var j :| 0 <= j < |p| && p[j] == c;
    forall i: nat | i <= |s| ensures !MatchAt(s, p, i) {
      MatchChars(s, p, i);
    }
  }

  lemma AfterSpace(msg: string, p: string)
    requires p != "" && p[0] != ' '
    ensures Contains(" " + msg, p) <==> Contains(msg, p)
  {
    var s := " " + msg;
    forall i: nat | MatchAt(s, p, i) ensures Contains(msg, p) {
      MatchChars(s, p, i);
      assert p[0] == s[i + 0] && i > 0;
      assert s[i..i + |p|] == msg[i - 1..i - 1 + |p|];
      assert MatchAt(msg, p, i - 1);
    }
    if Contains(msg, p) { ContainsRight(" ", msg, p); }
  }
}
