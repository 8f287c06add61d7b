/** White space, as far as ASCII goes. */
module Strings {

  predicate IsSpace(c: char) { c in " \t\n\r" || c == 11 as char || c == 12 as char }

  function TrimLeft(s: string): string {
    if s != "" && IsSpace(s[0]) then TrimLeft(s[1..]) else s
  }

  function TrimRight(s: string): string {
    if s != "" && IsSpace(s[|s| - 1]) then TrimRight(s[..|s| - 1]) else s
  }

  function TrimSpace(s: string): string { TrimRight(TrimLeft(s)) }

  /** Nothing is left after trimming. */
  predicate Blank(s: string) { TrimSpace(s) == "" }

  lemma NotBlank(s: string)
    requires s != "" && !IsSpace(s[0])
    ensures !Blank(s)
  {
    KeepsFirst(s);
  }

  lemma {:induction false} KeepsFirst(s: string)
    requires s != "" && !IsSpace(s[0])
    ensures TrimRight(s) != ""
  {
    if IsSpace(s[|s| - 1]) {
      KeepsFirst(s[..|s| - 1]);
    }
  }

  /** All white space. */
  predicate AllSpace(s: string) { forall c :: c in s ==> c in " \t\n\r" || c == 11 as char || c == 12 as char }

  lemma {:induction false} LeftBlank(s: string)
    ensures TrimLeft(s) == "" <==> AllSpace(s)
    ensures AllSpace(TrimLeft(s)) <==> AllSpace(s)
    decreases |s|
  {
    if s != "" && IsSpace(s[0]) {
      LeftBlank(s[1..]);
      assert s == [s[0]] + s[1..];
    } else if s != "" {
      assert s[0] in s;
    }
  }

  lemma {:induction false} RightBlank(s: string)
    ensures TrimRight(s) == "" <==> AllSpace(s)
    decreases |s|
  {
    if s != "" && IsSpace(s[|s| - 1]) {
      RightBlank(s[..|s| - 1]);
      assert s == s[..|s| - 1] + [s[|s| - 1]];
    } else if s != "" {
      assert s[|s| - 1] in s;
    }
  }

  lemma BlankExactly(s: string)
    ensures Blank(s) <==> AllSpace(s)
  {
    LeftBlank(s);
    RightBlank(TrimLeft(s));
  }

  /** Trimming takes away exactly the white space at both ends. */
  lemma TrimExactly(s: string) returns (before: string, after: string)
    ensures s == before + TrimSpace(s) + after && AllSpace(before) && AllSpace(after)
    ensures TrimSpace(s) != "" ==> !IsSpace(TrimSpace(s)[0]) && !IsSpace(TrimSpace(s)[|TrimSpace(s)| - 1])
  {
    before := TrimmedLeft(s);
    after := TrimmedRight(TrimLeft(s));
    assert s == before + (TrimSpace(s) + after);
  }

  lemma {:induction false} TrimmedLeft(s: string) returns (before: string)
    ensures s == before + TrimLeft(s) && AllSpace(before)
    ensures TrimLeft(s) != "" ==> !IsSpace(TrimLeft(s)[0])
    decreases |s|
  {
    before := "";
    if s != "" && IsSpace(s[0]) {
      var rest := TrimmedLeft(s[1..]);
      before := [s[0]] + rest;
      assert s == [s[0]] + s[1..];
    }
  }

  lemma {:induction false} TrimmedRight(s: string) returns (after: string)
    ensures s == TrimRight(s) + after && AllSpace(after)
    ensures TrimRight(s) != "" ==> !IsSpace(TrimRight(s)[|TrimRight(s)| - 1]) && TrimRight(s)[0] == s[0]
    decreases |s|
  {
    after := "";
    if s != "" && IsSpace(s[|s| - 1]) {
      var rest := TrimmedRight(s[..|s| - 1]);
      after := rest + [s[|s| - 1]];
      assert s == s[..|s| - 1] + [s[|s| - 1]];
    }
  }
}
