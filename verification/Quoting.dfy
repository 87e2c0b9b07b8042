/** strconv.Quote, which the %q verb applies to a string, and which substrings it keeps, makes and breaks. */
module Quoting {
  import opened Options
  import opened Substrings

  const HEX_DIGITS := "0123456789abcdef"

  /** n in hexadecimal, in the given number of digits. */
  function Hex(n: nat, width: nat): (h: string)
    ensures |h| == width && forall j | 0 <= j < width :: h[j] in HEX_DIGITS
  {
    if width == 0 then "" else Hex(n / 16, width - 1) + [HEX_DIGITS[n % 16]]
  }

  /** The escapes of one letter. */
  function LetterOf(c: char): Option<char> {
    match c
    case '"' => Some('"')
    case '\\' => Some('\\')
    case '\U{7}' => Some('a')
    case '\U{8}' => Some('b')
    case '\U{c}' => Some('f')
    case '\n' => Some('n')
    case '\r' => Some('r')
    case '\t' => Some('t')
    case '\U{b}' => Some('v')
    case _ => None
  }

  /** The character stands for itself. graphic is unicode.IsPrint beyond ASCII. */
  predicate Shown(graphic: char -> bool, c: char) {
    if c <= '~' then ' ' <= c && c != '"' && c != '\\'
    else c != '\U{7f}' && graphic(c)
  }

  /** What follows the backslash for any other character. */
  function EscapeOf(c: char): (e: string)
    ensures e != "" && forall j | 0 < j < |e| :: e[j] in HEX_DIGITS
  {
    if LetterOf(c).Some? then [LetterOf(c).value]
    else if c < ' ' || c == '\U{7f}' then "x" + Hex(c as int, 2)
    else if c as int < 0x10000 then "u" + Hex(c as int, 4)
    else "U" + Hex(c as int, 8)
  }

  function LastOf(c: char): char {
    EscapeOf(c)[|EscapeOf(c)| - 1]
  }

  function QuotedChar(graphic: char -> bool, c: char): string {
    if Shown(graphic, c) then [c] else ['\\'] + EscapeOf(c)
  }

  /** What stands between the quotes. */
  function Quoted(graphic: char -> bool, s: string): string {
    if s == "" then "" else QuotedChar(graphic, s[0]) + Quoted(graphic, s[1..])
  }

  // ---- which words a quoted text contains ----

  /** At least two characters that stand for themselves, and the second is no hexadecimal digit. */
  predicate Word(p: string) {
    |p| >= 2 && p[1] !in HEX_DIGITS && forall j | 0 <= j < |p| :: Shown(_ => false, p[j])
  }

  /** The text has all of the word but its first letter, after a character whose escape ends in that letter. */
  predicate Completed(graphic: char -> bool, s: string, p: string, i: nat) {
    i < |s| && p != "" && !Shown(graphic, s[i]) && LastOf(s[i]) == p[0] && MatchAt(s, p[1..], i + 1)
  }

  /** The text has the word, or quoting makes it up. */
  predicate Emerges(graphic: char -> bool, s: string, p: string) {
    Contains(s, p) || exists i: nat | i < |s| :: Completed(graphic, s, p, i)
  }

  lemma {:induction false} PrefixQuoted(graphic: char -> bool, s: string, p: string)
    requires forall j | 0 <= j < |p| :: Shown(_ => false, p[j])
    ensures p <= Quoted(graphic, s) <==> p <= s
  {
    if p != "" && s != "" {
      PrefixQuoted(graphic, s[1..], p[1..]);
      PrefixCons(QuotedChar(graphic, s[0]), Quoted(graphic, s[1..]), p);
      PrefixCons([s[0]], s[1..], p);
      assert s == [s[0]] + s[1..];
    }
  }

  lemma PrefixCons(a: string, b: string, p: string)
    requires a != "" && p != ""
    ensures p <= a + b ==> p[0] == a[0]
    ensures |a| == 1 ==> (p <= a + b <==> p[0] == a[0] && p[1..] <= b)
  {
    if |a| == 1 {
      assert (a + b)[1..] == b;
      if p[0] == a[0] && p[1..] <= b { assert p == [p[0]] + p[1..]; }
    }
  }
  /** The first character takes part in a match, or not. */
  lemma ContainsCons(c: char, b: string, p: string)
    requires p != ""
    ensures Contains([c] + b, p) <==> p <= [c] + b || Contains(b, p)
  {
    var s := [c] + b;
    forall i: nat | MatchAt(s, p, i) ensures p <= s || Contains(b, p) {
      if i == 0 {
        assert s[..|p|] == p;
      } else {
        assert s[i..i + |p|] == b[i - 1..i - 1 + |p|];
        assert MatchAt(b, p, i - 1);
      }
    }
    if p <= s { assert MatchAt(s, p, 0); }
    if Contains(b, p) { ContainsRight([c], b, p); }
  }

  /** A word begins in an escape only at its last character: the ones after it are digits. */
  lemma {:induction false} EscapeContains(e: string, b: string, p: string)
    requires Word(p) && e != "" && forall j | 0 < j < |e| :: e[j] in HEX_DIGITS
    ensures Contains(e + b, p) <==> (p[0] == e[|e| - 1] && p[1..] <= b) || Contains(b, p)
  {
    assert e + b == [e[0]] + (e[1..] + b);
    ContainsCons(e[0], e[1..] + b, p);
    if |e| == 1 {
      assert e[1..] + b == b;
      PrefixCons(e, b, p);
    } else {
      EscapeContains(e[1..], b, p);
      assert (e + b)[1] == e[1];
    }
  }

  lemma EmergesCons(graphic: char -> bool, c: char, b: string, p: string)
    requires Word(p)
    ensures Emerges(graphic, [c] + b, p) <==>
      p <= [c] + b || (!Shown(graphic, c) && LastOf(c) == p[0] && p[1..] <= b) || Emerges(graphic, b, p)
  {
    var s := [c] + b;
    ContainsCons(c, b, p);
    forall i: nat | 0 < i < |s|
      ensures Completed(graphic, s, p, i) <==> Completed(graphic, b, p, i - 1)
    {
      MatchShifts(c, b, p[1..], i + 1);
    }
    MatchShifts(c, b, p[1..], 1);
    assert Completed(graphic, s, p, 0) <==> !Shown(graphic, c) && LastOf(c) == p[0] && MatchAt(b, p[1..], 0);
    assert MatchAt(b, p[1..], 0) <==> p[1..] <= b;
    forall i: nat | i < |b| && Completed(graphic, b, p, i) ensures Completed(graphic, s, p, i + 1) { }
  }

  lemma MatchShifts(c: char, b: string, p: string, i: nat)
    requires i > 0
    ensures MatchAt([c] + b, p, i) <==> MatchAt(b, p, i - 1)
  {
    if i + |p| <= |b| + 1 { assert ([c] + b)[i..i + |p|] == b[i - 1..i - 1 + |p|]; }
  }

  /** One shown character in front. */
  lemma ShownContains(graphic: char -> bool, c: char, rest: string, b: string, p: string)
    requires Word(p) && Shown(graphic, c) && (p[1..] <= b <==> p[1..] <= rest)
    requires Contains(b, p) <==> Emerges(graphic, rest, p)
    ensures Contains([c] + b, p) <==> Emerges(graphic, [c] + rest, p)
  {
    EmergesCons(graphic, c, rest, p);
    ContainsCons(c, b, p);
    PrefixCons([c], b, p);
    PrefixCons([c], rest, p);
  }

  /** One escape in front. */
  lemma EscapedContains(graphic: char -> bool, c: char, rest: string, b: string, p: string)
    requires Word(p) && !Shown(graphic, c) && (p[1..] <= b <==> p[1..] <= rest)
    requires Contains(b, p) <==> Emerges(graphic, rest, p)
    ensures Contains(['\\'] + EscapeOf(c) + b, p) <==> Emerges(graphic, [c] + rest, p)
  {
    var e := EscapeOf(c);
    EmergesCons(graphic, c, rest, p);
    WordLacksBackslash(p);
    assert ['\\'] + e + b == "" + ['\\'] + (e + b);
    Separated("", '\\', e + b, p);
    EscapeContains(e, b, p);
    PrefixCons([c], rest, p);
    assert p[0] == c ==> Shown(graphic, c);
  }

  lemma WordLacksBackslash(p: string)
    requires Word(p)
    ensures '\\' !in p && !Contains("", p)
  {
  }

  /**
   Exactly which words a quoted text contains: those of the text itself, and those of
   which an escape ends in the first letter and the text goes on with the others.
   */
  lemma {:induction false} QuotedContains(graphic: char -> bool, s: string, p: string)
    requires Word(p)
    ensures Contains(Quoted(graphic, s), p) <==> Emerges(graphic, s, p)
  {
    if s != "" {
      var c, rest := s[0], s[1..];
      var b := Quoted(graphic, rest);
      QuotedContains(graphic, rest, p);
      PrefixQuoted(graphic, rest, p[1..]);
      assert s == [c] + rest;
      if Shown(graphic, c) {
        ShownContains(graphic, c, rest, b, p);
      } else {
        EscapedContains(graphic, c, rest, b, p);
      }
    }
  }

  // ---- quoting can be undone ----

  function DigitValue(c: char): nat {
    if '0' <= c <= '9' then c as int - '0' as int else if 'a' <= c <= 'f' then c as int - 'a' as int + 10 else 0
  }

  function HexValue(h: string): nat {
    if h == "" then 0 else HexValue(h[..|h| - 1]) * 16 + DigitValue(h[|h| - 1])
  }

  function Sixteens(width: nat): nat {
    if width == 0 then 1 else Sixteens(width - 1) * 16
  }

  lemma {:induction false} HexOf(n: nat, width: nat)
    requires n < Sixteens(width)
    ensures HexValue(Hex(n, width)) == n
  {
    if width > 0 {
      HexOf(n / 16, width - 1);
      DigitOf(n % 16);
      var h := Hex(n, width);
      assert h[..|h| - 1] == Hex(n / 16, width - 1);
    }
  }

  lemma DigitOf(d: nat)
    requires d < 16
    ensures DigitValue(HEX_DIGITS[d]) == d
  {
  }

  /** The character that a letter after the backslash stands for. */
  function LetterFor(c: char): Option<char> {
    match c
    case '"' => Some('"')
    case '\\' => Some('\\')
    case 'a' => Some('\U{7}')
    case 'b' => Some('\U{8}')
    case 't' => Some('\U{9}')
    case 'n' => Some('\U{a}')
    case 'v' => Some('\U{b}')
    case 'f' => Some('\U{c}')
    case 'r' => Some('\U{d}')
    case _ => None
  }

  /** How many digits follow the letter. */
  function DigitsAfter(c: char): nat {
    if c == 'x' then 2 else if c == 'u' then 4 else if c == 'U' then 8 else 0
  }

  predicate IsChar(n: nat) {
    n < 0xD800 || 0xE000 <= n < 0x11_0000
  }

  /** What stands between the quotes, read back. */
  function Unquoted(s: string): Option<string>
    decreases |s|
  {
    if s == "" then Some("")
    else if s[0] != '\\' then Prepend(s[0], Unquoted(s[1..]))
    else if |s| == 1 then None
    else if LetterFor(s[1]).Some? then Prepend(LetterFor(s[1]).value, Unquoted(s[2..]))
    else
      var end := 2 + DigitsAfter(s[1]);
      if end == 2 || end > |s| || !IsChar(HexValue(s[2..end])) then None
      else Prepend(HexValue(s[2..end]) as char, Unquoted(s[end..]))
  }

  function Prepend(c: char, rest: Option<string>): Option<string> {
    if rest.Some? then Some([c] + rest.value) else None
  }

  lemma LetterBack(c: char, rest: string)
    requires LetterOf(c).Some?
    ensures Unquoted(['\\'] + EscapeOf(c) + rest) == Prepend(c, Unquoted(rest))
  {
    var s := ['\\'] + EscapeOf(c) + rest;
    assert s[1] == LetterOf(c).value && s[2..] == rest;
  }

  lemma CodeWidths()
    ensures Sixteens(2) == 0x100 && Sixteens(4) == 0x1_0000 && Sixteens(8) == 0x1_0000_0000
  {
    assert Sixteens(3) == 0x1000 && Sixteens(5) == 0x10_0000 && Sixteens(7) == Sixteens(5) * 0x100;
  }

  lemma CodeBack(c: char, letter: char, width: nat, rest: string)
    requires LetterFor(letter).None? && DigitsAfter(letter) == width > 0 && c as int < Sixteens(width)
    ensures Unquoted(['\\'] + ([letter] + Hex(c as int, width)) + rest) == Prepend(c, Unquoted(rest))
  {
    HexOf(c as int, width);
    DigitsBack(c, letter, Hex(c as int, width), rest);
  }

  lemma DigitsBack(c: char, letter: char, h: string, rest: string)
    requires LetterFor(letter).None? && DigitsAfter(letter) == |h| > 0 && HexValue(h) == c as int
    ensures Unquoted(['\\'] + ([letter] + h) + rest) == Prepend(c, Unquoted(rest))
  {
    var s := ['\\'] + ([letter] + h) + rest;
    var end := 2 + |h|;
    assert s[0] == '\\' && s[1] == letter && s[2..end] == h && s[end..] == rest;
  }

  lemma EscapeBack(c: char, rest: string)
    ensures Unquoted(['\\'] + EscapeOf(c) + rest) == Prepend(c, Unquoted(rest))
  {
    CodeWidths();
    if LetterOf(c).Some? {
      LetterBack(c, rest);
    } else if c < ' ' || c == '\U{7f}' {
      CodeBack(c, 'x', 2, rest);
    } else if c as int < 0x10000 {
      CodeBack(c, 'u', 4, rest);
    } else {
      CodeBack(c, 'U', 8, rest);
    }
  }

  /** Quoting loses nothing: it can be read back, whichever characters count as printable. */
  lemma {:induction false} QuotedBack(graphic: char -> bool, s: string)
    ensures Unquoted(Quoted(graphic, s)) == Some(s)
  {
    if s != "" {
      var c, rest := s[0], Quoted(graphic, s[1..]);
      QuotedBack(graphic, s[1..]);
      assert [c] + s[1..] == s;
      if Shown(graphic, c) {
        assert ([c] + rest)[1..] == rest && c != '\\';
      } else {
        EscapeBack(c, rest);
      }
    }
  }
}
