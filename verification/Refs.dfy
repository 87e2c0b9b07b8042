/** cleanRef: which refs a Dir accepts, and as what. */
module Refs {
  import opened Paths

  datatype RefError = EmptyRef | AbsoluteRef | EscapingRef | RootRef

  datatype RefResult = Ok(ref: string) | Err(error: RefError)

  predicate HasPrefix(s: string, p: string) {
    |p| <= |s| && s[..|p|] == p
  }

  function CleanRef(r: string): RefResult {
    if r == "" then Err(EmptyRef)
    else if IsAbs(r) then Err(AbsoluteRef)
    else
      var cleaned := Clean(r);
      if cleaned == ".." || HasPrefix(cleaned, "../") then Err(EscapingRef)
      else if cleaned == "." then Err(RootRef)
      else Ok(cleaned)
  }

  lemma DotsAlone()
    ensures Split(".") == ["."] && Split("..") == [".."]
  {
    FirstSlashAt("..", "");
    FirstSlashAt(".", "");
  }

  /** What starts with "../" has ".." as its first component. */
  lemma UpFirst(s: string)
    requires HasPrefix(s, "../")
    ensures Split(s)[0] == ".."
  {
    DotsAlone();
    var rest := s[3..];
    assert s == ".." + "/" + rest;
    SplitAppend("..", rest);
  }

  lemma UpPrefix(stack: seq<string>)
    requires stack != [] && stack[0] == ".."
    ensures Join(stack) == ".." || HasPrefix(Join(stack), "../")
  {
    if |stack| > 1 { assert Join(stack)[..3] == "../"; }
  }

  /** The test on the cleaned string looks at the first component only. */
  lemma EscapeTest(stack: seq<string>)
    requires Stacked(false, stack) && stack != []
    ensures Join(stack) == ".." || HasPrefix(Join(stack), "../") <==> stack[0] == ".."
    ensures Join(stack) != "."
  {
    var s := Join(stack);
    SplitJoin(stack);
    DotsAlone();
    if HasPrefix(s, "../") { UpFirst(s); }
    if stack[0] == ".." { UpPrefix(stack); }
    assert Proper(stack[0]) || stack[0] == "..";
  }

  /** cleanRef on a relative ref, by the stack. */
  lemma CleanRefStack(r: string)
    requires r != "" && !IsAbs(r)
    ensures var st := Parts(r);
      CleanRef(r) == if st == [] then Err(RootRef) else if st[0] == ".." then Err(EscapingRef) else Ok(Join(st))
  {
    ReduceStacked(false, Split(r));
    if Parts(r) != [] { EscapeTest(Parts(r)); }
  }

  /** cleanRef accepts exactly the relative refs that never leave the namespace and end below it. */
  lemma CleanRefIff(r: string)
    ensures CleanRef(r) == Err(EmptyRef) <==> r == ""
    ensures CleanRef(r) == Err(AbsoluteRef) <==> r != "" && r[0] == '/'
    ensures CleanRef(r).Ok? <==> r != "" && !IsAbs(r) && StaysInside(Split(r)) && Depth(Split(r)) > 0
    ensures CleanRef(r) == Err(EscapingRef) <==> r != "" && !IsAbs(r) && !StaysInside(Split(r))
    ensures CleanRef(r) == Err(RootRef) <==> r != "" && !IsAbs(r) && StaysInside(Split(r)) && Depth(Split(r)) == 0
    ensures CleanRef(r).Ok? ==> Split(CleanRef(r).ref) == Parts(r) && AllProper(Parts(r))
  {
    if r != "" && !IsAbs(r) {
      CleanRefStack(r);
      ReduceDepth(Split(r));
      assert Split(r)[..|Split(r)|] == Split(r);
      if CleanRef(r).Ok? { SplitJoin(Parts(r)); }
    }
  }

  lemma ProperStays(r: string)
    requires AllProper(Split(r))
    ensures CleanRef(r) == Ok(r)
  {
    var cs := Split(r);
    JoinSplit(r);
    PartsOfRender(false, cs);
    assert Proper(cs[0]);
    EscapeTest(cs);
    JoinHead(cs);
  }

  /** The refs that cleanRef leaves as they are. */
  lemma CleanRefFixed(r: string)
    ensures CleanRef(r) == Ok(r) <==> AllProper(Split(r))
  {
    if AllProper(Split(r)) {
      ProperStays(r);
    } else {
      CleanRefIff(r);
    }
  }

  /** An accepted ref has only proper components, and accepting it again changes nothing. */
  lemma CleanRefIdem(r: string)
    requires CleanRef(r).Ok?
    ensures AllProper(Split(CleanRef(r).ref))
    ensures CleanRef(CleanRef(r).ref) == CleanRef(r)
  {
    CleanRefIff(r);
    CleanRefFixed(CleanRef(r).ref);
  }
}
