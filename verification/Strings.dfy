/** Searching and slicing of character strings, as the parser uses std::find, std::search and isspace. */
module Strings {
  const CRLF: string := "\r\n"

  /** std::find over a character range: the first position of c, or the length when c is absent. */
  function IndexOf(s: string, c: char): (i: nat)
    ensures i <= |s| && c !in s[..i]
    ensures i < |s| ==> s[i] == c
  {
    if s == [] || s[0] == c then 0 else 1 + IndexOf(s[1..], c)
  }

  lemma IndexOfUnique(s: string, c: char, i: nat)
    requires i <= |s| && c !in s[..i] && (i < |s| ==> s[i] == c)
    ensures IndexOf(s, c) == i
  {
  }

  predicate CRLFAt(s: string, i: int) {
    0 <= i && i + 1 < |s| && s[i] == '\r' && s[i + 1] == '\n'
  }

  ghost predicate NoCRLF(s: string) {
    forall i :: !CRLFAt(s, i)
  }

  datatype Option<+T> = None | Some(value: T)

  /** std::search for CRLF; None stands for the null pointer findCRLF returns. */
  function FindCRLF(s: string): (r: Option<nat>)
    ensures r.None? ==> NoCRLF(s)
    ensures r.Some? ==> CRLFAt(s, r.value) && forall j :: CRLFAt(s, j) ==> r.value <= j
  {
    if |s| < 2 then None
    else if CRLFAt(s, 0) then Some(0)
    else
      var r := FindCRLF(s[1..]);
      assert forall j :: CRLFAt(s, j) ==> CRLFAt(s[1..], j - 1);
      if r.None? then None else Some(r.value + 1)
  }

  /** More input never moves the first CRLF. */
  lemma FindCRLFPrefix(a: string, b: string)
    requires FindCRLF(a).Some?
    ensures FindCRLF(a + b) == FindCRLF(a)
  {
    var i := FindCRLF(a).value;
    assert CRLFAt(a + b, i);
    var j := FindCRLF(a + b).value;
    assert CRLFAt(a, j);
  }

  /** The first CRLF of a line followed by its terminator is that terminator. */
  lemma FindCRLFLine(line: string, rest: string)
    requires NoCRLF(line)
    ensures FindCRLF(line + CRLF + rest) == Some(|line|)
  {
    var s := line + CRLF + rest;
    assert CRLFAt(s, |line|);
    var j := FindCRLF(s).value;
    assert j < |line| ==> CRLFAt(line, j) || j + 1 == |line|;
  }

  lemma CutAtCRLF(s: string, i: nat)
    requires CRLFAt(s, i) && forall j :: CRLFAt(s, j) ==> i <= j
    ensures NoCRLF(s[..i]) && s == s[..i] + CRLF + s[i + 2..]
  {
    forall j ensures !CRLFAt(s[..i], j) {
      assert CRLFAt(s[..i], j) ==> CRLFAt(s, j);
    }
    assert s == s[..i] + [s[i]] + [s[i + 1]] + s[i + 2..];
  }

  /** The bytes before the first CRLF hold no CRLF. */
  lemma LineBeforeCRLF(s: string)
    requires FindCRLF(s).Some?
    ensures var i := FindCRLF(s).value;
            i + 2 <= |s| && NoCRLF(s[..i]) && s == s[..i] + CRLF + s[i + 2..]
  {
    CutAtCRLF(s, FindCRLF(s).value);
  }

  /** isspace in the C locale. */
  predicate IsSpace(c: char) {
    c == ' ' || c == '\t' || c == '\n' || c == '\U{0B}' || c == '\U{0C}' || c == '\r'
  }

  /** White space is the blank and the control characters 9 to 13. */
  lemma SpacesByCode(c: char)
    ensures IsSpace(c) <==> c as int == 32 || 9 <= c as int <= 13
  {
  }

  ghost predicate AllSpace(s: string) {
    forall c :: c in s ==> IsSpace(c)
  }

  predicate NoOuterSpace(s: string) {
    s != [] ==> !IsSpace(s[0]) && !IsSpace(s[|s| - 1])
  }

  /** t is s with its leading and trailing white space removed. */
  ghost predicate IsTrimOf(t: string, s: string) {
    NoOuterSpace(t) &&
    exists pre, post :: AllSpace(pre) && AllSpace(post) && s == pre + t + post
  }

  function TrimLeft(s: string): string {
    if s != [] && IsSpace(s[0]) then TrimLeft(s[1..]) else s
  }

  function TrimRight(s: string): string {
    if s != [] && IsSpace(s[|s| - 1]) then TrimRight(s[..|s| - 1]) else s
  }

  function Trim(s: string): string {
    TrimRight(TrimLeft(s))
  }

  lemma {:induction false} TrimLeftSplits(s: string) returns (pre: string)
    ensures AllSpace(pre) && s == pre + TrimLeft(s)
    ensures TrimLeft(s) != [] ==> !IsSpace(TrimLeft(s)[0])
  {
    if s != [] && IsSpace(s[0]) {
      var p := TrimLeftSplits(s[1..]);
      pre := [s[0]] + p;
    } else {
      pre := [];
    }
  }

  lemma {:induction false} TrimRightSplits(s: string) returns (post: string)
    ensures AllSpace(post) && s == TrimRight(s) + post
    ensures TrimRight(s) != [] ==> !IsSpace(TrimRight(s)[|TrimRight(s)| - 1])
  {
    if s != [] && IsSpace(s[|s| - 1]) {
      var p := TrimRightSplits(s[..|s| - 1]);
      post := p + [s[|s| - 1]];
      assert s == s[..|s| - 1] + [s[|s| - 1]];
    } else {
      post := [];
    }
  }

  /** Trim removes white space only, at the two ends only, and all of it. */
  lemma TrimIsTrim(s: string)
    ensures IsTrimOf(Trim(s), s)
  {
    var pre := TrimLeftSplits(s);
    var post := TrimRightSplits(TrimLeft(s));
    assert s == pre + Trim(s) + post;
    if Trim(s) != [] {
      assert TrimLeft(s)[0] == Trim(s)[0];
    }
  }

  lemma {:induction false} TrimRightPadding(t: string, post: string)
    requires AllSpace(post) && (t != [] ==> !IsSpace(t[|t| - 1]))
    ensures TrimRight(t + post) == t
  {
    if post == [] {
      assert t + post == t;
    } else {
      var last := |post| - 1;
      assert (t + post)[..|t + post| - 1] == t + post[..last];
      assert IsSpace(post[last]);
      TrimRightPadding(t, post[..last]);
    }
  }

  lemma {:induction false} TrimLeftPadding(pre: string, s: string)
    requires AllSpace(pre) && (s != [] ==> !IsSpace(s[0]))
    ensures TrimLeft(pre + s) == s
  {
    if pre == [] {
      assert pre + s == s;
    } else {
      assert (pre + s)[1..] == pre[1..] + s;
      assert IsSpace(pre[0]);
      TrimLeftPadding(pre[1..], s);
    }
  }

  /** Trim is the only trimming: white space around t is removed and t comes back. */
  lemma TrimPadding(pre: string, t: string, post: string)
    requires AllSpace(pre) && AllSpace(post) && NoOuterSpace(t)
    ensures Trim(pre + t + post) == t
  {
    if t == [] {
      var s := pre + post;
      assert pre + t + post == s;
      var p := TrimLeftSplits(s);
      var q := TrimLeft(s);
      assert forall c :: c in q ==> c in s;
      TrimRightPadding([], q);
      assert [] + q == q;
    } else {
      assert pre + t + post == pre + (t + post);
      TrimLeftPadding(pre, t + post);
      TrimRightPadding(t, post);
    }
  }

  function Flatten(parts: seq<string>): string {
    if parts == [] then "" else parts[0] + Flatten(parts[1..])
  }

  lemma {:induction false} FlattenAppend(parts: seq<string>, last: string)
    ensures Flatten(parts + [last]) == Flatten(parts) + last
  {
    if parts == [] {
      assert parts + [last] == [last];
      assert Flatten([last]) == last + Flatten([]);
    } else {
      assert (parts + [last])[1..] == parts[1..] + [last];
      FlattenAppend(parts[1..], last);
    }
  }
}
