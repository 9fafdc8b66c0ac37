/** The string operations of Python's `str` that the pipeline uses:
    `isspace`, `strip`, `join`, `find` and `rfind`. */
module Text {

  import opened Wrappers

  /** `c.isspace()`, which is also what `\s` matches in a `str` pattern:
      tab to carriage return, the four information separators, space, NEL,
      no-break space, and the Unicode space separators and line/paragraph
      separators. */
  predicate IsSpace(c: char) {
    || ('\t' <= c <= '\r')
    || ('\U{1C}' <= c <= '\U{1F}')
    || c == ' ' || c == '\U{85}' || c == '\U{A0}' || c == '\U{1680}'
    || ('\U{2000}' <= c <= '\U{200A}')
    || c == '\U{2028}' || c == '\U{2029}' || c == '\U{202F}' || c == '\U{205F}' || c == '\U{3000}'
  }

  /** `not s.strip()`: the string holds nothing but whitespace. */
  predicate IsBlank(s: string) {
    forall i :: 0 <= i < |s| ==> IsSpace(s[i])
  }

  /** `s.lstrip()` */
  function StripLeft(s: string): string {
    if s != [] && IsSpace(s[0]) then StripLeft(s[1..]) else s
  }

  /** `s.lstrip()` drops a blank prefix and stops at the first non-space. */
  lemma {:induction false} StripLeftShape(s: string)
    ensures |StripLeft(s)| <= |s| && StripLeft(s) == s[|s| - |StripLeft(s)|..]
    ensures IsBlank(s[..|s| - |StripLeft(s)|])
    ensures StripLeft(s) == [] || !IsSpace(StripLeft(s)[0])
  {
    if s != [] && IsSpace(s[0]) {
      StripLeftShape(s[1..]);
      var r := StripLeft(s[1..]);
      assert s[..|s| - |r|] == [s[0]] + s[1..][..|s| - 1 - |r|];
    }
  }

  /** `s.rstrip()` */
  function StripRight(s: string): string {
    if s != [] && IsSpace(s[|s| - 1]) then StripRight(s[..|s| - 1]) else s
  }

  /** `s.rstrip()` drops a blank suffix and stops at the last non-space. */
  lemma {:induction false} StripRightShape(s: string)
    ensures |StripRight(s)| <= |s| && StripRight(s) == s[..|StripRight(s)|]
    ensures IsBlank(s[|StripRight(s)|..])
    ensures StripRight(s) == [] || !IsSpace(StripRight(s)[|StripRight(s)| - 1])
  {
    if s != [] && IsSpace(s[|s| - 1]) {
      StripRightShape(s[..|s| - 1]);
      var r := StripRight(s[..|s| - 1]);
      assert s[|r|..] == s[..|s| - 1][|r|..] + [s[|s| - 1]];
    }
  }

  /** How many leading characters `s.strip()` removes. */
  function LeadingSpaces(s: string): nat {
    StripLeftShape(s);
    |s| - |StripLeft(s)|
  }

  /** `s.strip()` */
  function Strip(s: string): string {
    StripRight(StripLeft(s))
  }

  /** `s.strip()` removes exactly the outer whitespace: `s` is blank, then
      the result, then blank, the result neither starts nor ends with a
      space, and it is empty exactly when `s` is blank. */
  lemma StripRemovesOuterWhitespace(s: string)
    ensures Strip(s) == [] <==> IsBlank(s)
    ensures LeadingSpaces(s) + |Strip(s)| <= |s|
    ensures IsBlank(s[..LeadingSpaces(s)])
    ensures Strip(s) == s[LeadingSpaces(s)..LeadingSpaces(s) + |Strip(s)|]
    ensures IsBlank(s[LeadingSpaces(s) + |Strip(s)|..])
    ensures Strip(s) == [] || (!IsSpace(Strip(s)[0]) && !IsSpace(Strip(s)[|Strip(s)| - 1]))
  {
    StripLeftShape(s);
    StripRightShape(StripLeft(s));
    StrippedEmptyMeansBlank(s);
    BlankStripsToEmpty(s);
    StripIsInfix(s);
  }

  lemma StrippedEmptyMeansBlank(s: string)
    ensures StripRight(StripLeft(s)) == [] ==> IsBlank(s)
  {
    var l := StripLeft(s);
    StripLeftShape(s);
    StripRightShape(l);
    var a := |s| - |l|;
    if StripRight(l) == [] {
      assert l[0..] == l;
      assert s == s[..a] + l;
      BlankConcat(s[..a], l);
    }
  }

  lemma BlankStripsToEmpty(s: string)
    ensures IsBlank(s) ==> StripRight(StripLeft(s)) == []
  {
    var l := StripLeft(s);
    StripLeftShape(s);
    StripRightShape(l);
    if IsBlank(s) && l != [] {
      assert false;
    }
  }

  lemma StripIsInfix(s: string)
    ensures var l := StripLeft(s); var r := StripRight(l);
      && |r| <= |l| <= |s|
      && r == s[|s| - |l|..|s| - |l| + |r|]
      && IsBlank(s[|s| - |l| + |r|..])
  {
    var l := StripLeft(s);
    var r := StripRight(l);
    StripLeftShape(s);
    StripRightShape(l);
    assert s[|s| - |l| + |r|..] == l[|r|..];
  }

  /** A concatenation is blank exactly when both halves are. */
  lemma BlankConcat(a: string, b: string)
    ensures IsBlank(a + b) <==> IsBlank(a) && IsBlank(b)
  {
    if IsBlank(a + b) {
      forall i | 0 <= i < |b| ensures IsSpace(b[i]) { assert b[i] == (a + b)[|a| + i]; }
      forall i | 0 <= i < |a| ensures IsSpace(a[i]) { assert a[i] == (a + b)[i]; }
    }
  }

  /** `sep.join(parts)` */
  function Join(sep: string, parts: seq<string>): string {
    if parts == [] then []
    else if |parts| == 1 then parts[0]
    else parts[0] + sep + Join(sep, parts[1..])
  }

  /** A join starts with its first part and is as long as the parts and
      the separators between them. */
  lemma {:induction false} JoinShape(sep: string, parts: seq<string>)
    ensures parts == [] ==> Join(sep, parts) == []
    ensures parts != [] ==> parts[0] <= Join(sep, parts)
    ensures |Join(sep, parts)| == JoinedLength(sep, parts)
  {
    if |parts| > 1 {
      JoinShape(sep, parts[1..]);
    }
  }

  /** Joining one more part appends the separator and that part: with the
      single-part case, this places every part and separator of a join. */
  lemma {:induction false} JoinAppend(sep: string, parts: seq<string>, p: string)
    requires parts != []
    ensures Join(sep, parts + [p]) == Join(sep, parts) + sep + p
  {
    var ps := parts + [p];
    assert ps[0] == parts[0] && |ps| > 1;
    assert ps[1..] == parts[1..] + [p];
    if |parts| > 1 {
      JoinAppend(sep, parts[1..], p);
    }
  }

  /** The length `sep.join(parts)` must have: the parts' lengths plus one
      separator between each two neighbouring parts. */
  function JoinedLength(sep: string, parts: seq<string>): nat {
    if parts == [] then 0
    else |parts[0]| + (if |parts| == 1 then 0 else |sep| + JoinedLength(sep, parts[1..]))
  }

  /** `s.find(c)`: the first index of `c`, or -1. */
  function Find(s: string, c: char): (r: int)
    ensures r == -1 <==> c !in s
    ensures r != -1 ==> 0 <= r < |s| && s[r] == c && c !in s[..r]
  {
    if s == [] then -1
    else if s[0] == c then 0
    else
      var k := Find(s[1..], c);
      if k == -1 then -1
      else
        assert s[..k + 1] == [s[0]] + s[1..][..k];
        k + 1
  }

  /** `s.rfind(c)`: the last index of `c`, or -1. */
  function RFind(s: string, c: char): (r: int)
    ensures r == -1 <==> c !in s
    ensures r != -1 ==> 0 <= r < |s| && s[r] == c && c !in s[r + 1..]
  {
    if s == [] then -1
    else if s[|s| - 1] == c then |s| - 1
    else
      var k := RFind(s[..|s| - 1], c);
      if k == -1 then
        assert s == s[..|s| - 1] + [s[|s| - 1]];
        -1
      else
        assert s[k + 1..] == s[..|s| - 1][k + 1..] + [s[|s| - 1]];
        k
  }
}
