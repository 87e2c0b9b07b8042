/** Which errors make the pool discard a browser, and how tryFetch's wrapping affects that. */
module ConnectionErrors {
  import opened Options
  import opened Substrings
  import opened Quoting

  /** An error: its message, and whether errors.Is finds ErrUnsupported in its chain. */
  datatype Error = Error(text: string, unsupported: bool)

  const PATTERNS: seq<string> := [
    "use of closed network connection",
    "unexpected EOF",
    "broken pipe",
    "connection reset by peer",
    "connection refused",
    "i/o timeout",
    "rod create panic"]

  predicate HasPattern(s: string) {
    exists j | 0 <= j < |PATTERNS| :: Contains(s, PATTERNS[j])
  }

  predicate IsConnectionError(err: Option<Error>) {
    err.Some? && HasPattern(err.value.text)
  }

  /** Which messages those are. */
  lemma ConnectionTexts(e: Error)
    ensures IsConnectionError(Some(e)) <==>
      || Contains(e.text, "use of closed network connection") || Contains(e.text, "unexpected EOF")
      || Contains(e.text, "broken pipe") || Contains(e.text, "connection reset by peer")
      || Contains(e.text, "connection refused") || Contains(e.text, "i/o timeout")
      || Contains(e.text, "rod create panic")
    ensures !IsConnectionError(None)
  {
    assert PATTERNS[0] == "use of closed network connection" && PATTERNS[1] == "unexpected EOF";
    assert PATTERNS[2] == "broken pipe" && PATTERNS[3] == "connection reset by peer";
    assert PATTERNS[4] == "connection refused" && PATTERNS[5] == "i/o timeout" && PATTERNS[6] == "rod create panic";
  }

  /** fmt.Errorf with a prefix and %w */
  function Wrap(prefix: string, e: Error): Error {
    Error(prefix + e.text, e.unsupported)
  }

  // ---- the patterns ----

  /** What no pattern has: a colon, or a character that a quoted text escapes. */
  lemma PatternLacks(j: nat, c: char)
    requires j < |PATTERNS| && c in {':', '"', '\\'}
    ensures c !in PATTERNS[j]
  {
  }

  lemma PatternLacksOthers(j: nat, c: char)
    requires j < |PATTERNS| && (c < ' ' || c > '~')
    ensures c !in PATTERNS[j]
  {
  }

  /** The second letter of a pattern ends no escape. */
  lemma PatternIsWord(j: nat)
    requires j < |PATTERNS|
    ensures Word(PATTERNS[j])
  {
    var p := PATTERNS[j];
    assert |p| >= 2 && (p[1] == 's' || p[1] == 'n' || p[1] == 'r' || p[1] == 'o' || p[1] == '/');
    LacksEscapes(p, j);
  }

  lemma LacksEscapes(p: string, j: nat)
    requires j < |PATTERNS| && p == PATTERNS[j]
    ensures forall i | 0 <= i < |p| :: Shown(_ => false, p[i])
  {
    forall i | 0 <= i < |p| ensures Shown(_ => false, p[i]) {
      var c := p[i];
      if c < ' ' || c > '~' { PatternLacksOthers(j, c); }
      if c in {'"', '\\'} { PatternLacks(j, c); }
    }
  }

  /** Every pattern begins with another character than a space, and has a u, a c, or both b and k. */
  lemma PatternShape(j: nat)
    requires j < |PATTERNS|
    ensures PATTERNS[j] != "" && PATTERNS[j][0] != ' '
    ensures 'u' in PATTERNS[j] || 'c' in PATTERNS[j] || ('b' in PATTERNS[j] && 'k' in PATTERNS[j])
  {
    assert PATTERNS[0][0] == 'u' && PATTERNS[1][0] == 'u' && PATTERNS[2][0] == 'b' && PATTERNS[2][3] == 'k';
    assert PATTERNS[3][0] == 'c' && PATTERNS[4][0] == 'c' && PATTERNS[5][9] == 'u' && PATTERNS[6][4] == 'c';
  }

  // ---- the contexts that tryFetch adds ----

  /** The prefix of a tryFetch error, between "browser:" and the wrapped message. */
  function Context(words: string): string {
    "browser" + [':'] + words + [':'] + " "
  }

  const WAIT_STABLE := " wait stable"
  const GET_HTML := " get html"
  const GET_TITLE := " get title"

  /** The navigate context shows the URL as %q does. */
  function Navigate(graphic: char -> bool, url: string): string {
    " navigate " + ['"'] + Quoted(graphic, url) + ['"']
  }

  predicate Plain(words: string) {
    'u' !in words && 'c' !in words && ('b' !in words || 'k' !in words)
  }

  lemma PlainHasNone(words: string, j: nat)
    requires Plain(words) && j < |PATTERNS|
    ensures !Contains(words, PATTERNS[j])
  {
    PatternShape(j);
    var p := PATTERNS[j];
    Missing(words, p, if 'u' in p then 'u' else if 'c' in p then 'c' else if 'b' in words then 'k' else 'b');
  }

  lemma ColonsSeparate(a: string, words: string, msg: string, p: string)
    requires ':' !in p && p != "" && p[0] != ' '
    ensures Contains(a + [':'] + words + [':'] + " " + msg, p)
       <==> Contains(a, p) || Contains(words, p) || Contains(msg, p)
  {
    assert a + [':'] + words + [':'] + " " + msg == (a + [':'] + words) + [':'] + (" " + msg);
    Separated(a + [':'] + words, ':', " " + msg, p);
    Separated(a, ':', words, p);
    AfterSpace(msg, p);
  }

  /** A context matches in the context's own words or in the wrapped message, never across. */
  lemma WrapMatches(words: string, msg: string, j: nat)
    requires j < |PATTERNS|
    ensures Contains(Context(words) + msg, PATTERNS[j]) <==> Contains(words, PATTERNS[j]) || Contains(msg, PATTERNS[j])
  {
    PatternLacks(j, ':');
    PatternShape(j);
    ColonsSeparate("browser", words, msg, PATTERNS[j]);
    PlainHasNone("browser", j);
  }

  /** Wrapping with plain words changes nothing about the classification. */
  lemma WrapPlain(words: string, e: Error)
    requires Plain(words)
    ensures IsConnectionError(Some(Wrap(Context(words), e))) <==> IsConnectionError(Some(e))
  {
    forall j: nat | j < |PATTERNS|
      ensures Contains(Context(words) + e.text, PATTERNS[j]) <==> Contains(e.text, PATTERNS[j])
    {
      WrapMatches(words, e.text, j);
      PlainHasNone(words, j);
    }
  }

  /** A quoted text between words without a pattern. */
  lemma InQuotes(open: string, quoted: string, j: nat)
    requires j < |PATTERNS| && Plain(open)
    ensures Contains(open + ['"'] + quoted + ['"'], PATTERNS[j]) <==> Contains(quoted, PATTERNS[j])
  {
    var p := PATTERNS[j];
    PatternLacks(j, '"');
    assert open + ['"'] + quoted + ['"'] == (open + ['"'] + quoted) + ['"'] + "";
    Separated(open + ['"'] + quoted, '"', "", p);
    Separated(open, '"', quoted, p);
    PlainHasNone(open, j);
    PlainHasNone("", j);
  }

  /** The URL has a pattern, or has one once it is quoted. */
  predicate UrlMatches(graphic: char -> bool, url: string) {
    exists j | 0 <= j < |PATTERNS| :: Emerges(graphic, url, PATTERNS[j])
  }

  /** A wrapped navigation error counts as a connection error exactly when the cause does or the URL matches. */
  lemma WrapNavigate(graphic: char -> bool, url: string, e: Error)
    ensures IsConnectionError(Some(Wrap(Context(Navigate(graphic, url)), e)))
       <==> UrlMatches(graphic, url) || IsConnectionError(Some(e))
  {
    forall j: nat | j < |PATTERNS|
      ensures Contains(Context(Navigate(graphic, url)) + e.text, PATTERNS[j])
         <==> Emerges(graphic, url, PATTERNS[j]) || Contains(e.text, PATTERNS[j])
    {
      WrapMatches(Navigate(graphic, url), e.text, j);
      InQuotes(" navigate ", Quoted(graphic, url), j);
      PatternIsWord(j);
      QuotedContains(graphic, url, PATTERNS[j]);
    }
  }

  /** For URLs in which nothing is escaped, quoting makes up no pattern. */
  lemma ShownMatches(graphic: char -> bool, url: string)
    requires forall i | 0 <= i < |url| :: Shown(graphic, url[i])
    ensures UrlMatches(graphic, url) <==> HasPattern(url)
  {
    forall j | 0 <= j < |PATTERNS|
      ensures Emerges(graphic, url, PATTERNS[j]) <==> Contains(url, PATTERNS[j])
    {
    }
  }

  lemma HarmlessCause()
    ensures !IsConnectionError(Some(Error("bad gateway", false)))
  {
    forall j: nat | j < |PATTERNS| ensures !Contains("bad gateway", PATTERNS[j]) { PlainHasNone("bad gateway", j); }
  }

  /** So a failure that is no connection error can be taken for one, because of its URL. */
  lemma UrlCanMislead(graphic: char -> bool)
    ensures var e := Error("bad gateway", false);
      && !IsConnectionError(Some(e))
      && IsConnectionError(Some(Wrap(Context(Navigate(graphic, "http://host/broken pipe")), e)))
  {
    HarmlessCause();
    var url := "http://host/" + "broken pipe";
    assert MatchAt("broken pipe", PATTERNS[2], 0);
    ContainsRight("http://host/", "broken pipe", PATTERNS[2]);
    assert url == "http://host/broken pipe";
    assert UrlMatches(graphic, url);
    WrapNavigate(graphic, url, Error("bad gateway", false));
  }

  lemma BackspaceHasNone()
    ensures !HasPattern(['\U{8}'] + "roken pipe")
  {
    var url := ['\U{8}'] + "roken pipe";
    forall j: nat | j < |PATTERNS| ensures !Contains(url, PATTERNS[j]) { PlainHasNone(url, j); }
  }

  /** Even a URL without a pattern can: a backspace is shown as a backslash and a b. */
  lemma EscapeCanMislead(graphic: char -> bool)
    ensures var url := ['\U{8}'] + "roken pipe";
      && !HasPattern(url)
      && IsConnectionError(Some(Wrap(Context(Navigate(graphic, url)), Error("bad gateway", false))))
  {
    var url := ['\U{8}'] + "roken pipe";
    BackspaceHasNone();
    assert url[1..] == PATTERNS[2][1..];
    assert MatchAt(url, PATTERNS[2][1..], 1);
    assert Completed(graphic, url, PATTERNS[2], 0);
    assert Emerges(graphic, url, PATTERNS[2]);
    WrapNavigate(graphic, url, Error("bad gateway", false));
  }
}
