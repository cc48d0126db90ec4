/** The Python string operations the backend relies on: `str.isspace`,
    `str.strip()`, `str.startswith`, `in` on strings and (for the ASCII
    letters) `str.lower()`. A Dafny `string` is a sequence of Unicode scalar
    values: a Python `str` without surrogate code points. */
module Text {

  /** Python's `str.isspace` on one code point: the ASCII whitespace and
      separator controls, NEXT LINE, NO-BREAK SPACE and the Unicode space
      separators and line/paragraph separators. */
  predicate IsSpace(c: char) {
    var n := c as int;
    (0x09 <= n <= 0x0D) || (0x1C <= n <= 0x20) || n == 0x85 || n == 0xA0
    || n == 0x1680 || (0x2000 <= n <= 0x200A) || n == 0x2028 || n == 0x2029
    || n == 0x202F || n == 0x205F || n == 0x3000
  }

  predicate AllSpace(s: string) {
    forall k :: 0 <= k < |s| ==> IsSpace(s[k])
  }

  /** Neither the first nor the last character is whitespace. */
  predicate NoEdgeSpace(s: string) {
    s == [] || (!IsSpace(s[0]) && !IsSpace(s[|s| - 1]))
  }

  /** Every character of `s[lo..hi]` is whitespace. */
  predicate SpaceIn(s: string, lo: int, hi: int) {
    0 <= lo <= hi <= |s| && forall k :: lo <= k < hi ==> IsSpace(s[k])
  }

  /** `s[i..j]` is what is left of `s` once every leading and every trailing
      whitespace character is removed: the declarative meaning of
      `str.strip()`. */
  predicate StripAt(s: string, i: int, j: int) {
    0 <= i <= j <= |s| && SpaceIn(s, 0, i) && SpaceIn(s, j, |s|)
    && (i < j ==> !IsSpace(s[i]) && !IsSpace(s[j - 1]))
  }

  ghost predicate IsStripOf(s: string, r: string) {
    exists i, j :: StripAt(s, i, j) && r == s[i..j]
  }

  /** Drops the leading whitespace. */
  function TrimStart(s: string): (r: string)
    ensures |r| <= |s| && r == s[|s| - |r|..]
    ensures SpaceIn(s, 0, |s| - |r|)
    ensures r == [] || !IsSpace(r[0])
  {
    if |s| > 0 && IsSpace(s[0]) then TrimStart(s[1..]) else s
  }

  /** Drops the trailing whitespace. */
  function TrimEnd(s: string): (r: string)
    ensures |r| <= |s| && r == s[..|r|]
    ensures SpaceIn(s, |r|, |s|)
    ensures r == [] || !IsSpace(r[|r| - 1])
  {
    if |s| > 0 && IsSpace(s[|s| - 1]) then TrimEnd(s[..|s| - 1]) else s
  }

  /** The number of leading whitespace characters. */
  function Lead(s: string): (n: nat)
    ensures n <= |s| && SpaceIn(s, 0, n) && (n < |s| ==> !IsSpace(s[n]))
  {
    var t := TrimStart(s);
    assert t != [] ==> t[0] == s[|s| - |t|];
    |s| - |t|
  }

  /** Where the trailing whitespace begins. */
  function Tail(s: string): (m: nat)
    ensures m <= |s| && SpaceIn(s, m, |s|) && (0 < m ==> !IsSpace(s[m - 1]))
  {
    var t := TrimEnd(s);
    assert t != [] ==> t[|t| - 1] == s[|t| - 1];
    |t|
  }

  /** Python's `s.strip()` with no argument. */
  function Strip(s: string): (r: string)
    ensures StripAt(s, Lead(s), Lead(s) + |r|)
    ensures r == s[Lead(s)..Lead(s) + |r|]
    ensures NoEdgeSpace(r)
  {
    var n, m := Lead(s), Tail(s);
    if n < m then
      assert s[n..m][0] == s[n] && s[n..m][m - n - 1] == s[m - 1];
      s[n..m]
    else
      assert SpaceIn(s, n, |s|);
      []
  }

  /** `Strip` meets its declarative description, and is the only string that does. */
  lemma StripIsStripOf(s: string)
    ensures IsStripOf(s, Strip(s))
  {
    var i := Lead(s);
    assert StripAt(s, i, i + |Strip(s)|);
  }

  /** Every valid cut yields exactly what `Strip` returns: a cut that keeps
      something starts where the leading whitespace ends and stops where the
      trailing whitespace begins; a cut that keeps nothing means the text
      is all whitespace. */
  lemma StripAtIsStrip(s: string, i: int, j: int)
    requires StripAt(s, i, j)
    ensures s[i..j] == Strip(s)
  {
    var n, m := Lead(s), Tail(s);
    if i < j {
      assert n == i;
      assert m == j;
    } else {
      assert SpaceIn(s, 0, |s|);
      assert m <= n;
    }
  }

  /** Corollary of `StripAtIsStrip`: any two valid cuts keep the same text. */
  lemma {:induction false} StripAtUnique(s: string, i: int, j: int, i': int, j': int)
    requires StripAt(s, i, j) && StripAt(s, i', j')
    ensures s[i..j] == s[i'..j']
  {
    StripAtIsStrip(s, i, j);
    StripAtIsStrip(s, i', j');
  }

  lemma StripUnique(s: string, r: string)
    requires IsStripOf(s, r)
    ensures r == Strip(s)
  {
    var i, j :| StripAt(s, i, j) && r == s[i..j];
    StripAtIsStrip(s, i, j);
  }

  /** Whitespace around a string without edge whitespace is exactly what
      `strip()` removes. */
  lemma StripFrame(w1: string, m: string, w2: string)
    requires AllSpace(w1) && AllSpace(w2) && NoEdgeSpace(m)
    ensures Strip(w1 + m + w2) == m
  {
    var s := w1 + m + w2;
    var i, j := |w1|, |w1| + |m|;
    assert s[i..j] == m;
    assert forall k :: 0 <= k < i ==> s[k] == w1[k];
    assert forall k :: j <= k < |s| ==> s[k] == w2[k - j];
    assert i < j ==> s[i] == m[0] && s[j - 1] == m[|m| - 1];
    StripAtIsStrip(s, i, j);
  }

  lemma StripIdempotent(s: string)
    ensures Strip(Strip(s)) == Strip(s)
  {
    var r := Strip(s);
    assert r[0..|r|] == r;
    StripAtIsStrip(r, 0, |r|);
  }

  /** Only all-whitespace text strips to the empty string. */
  lemma StripEmpty(s: string)
    ensures Strip(s) == [] <==> AllSpace(s)
  {
    if AllSpace(s) {
      StripAtIsStrip(s, |s|, |s|);
    } else {
      var k :| 0 <= k < |s| && !IsSpace(s[k]);
      assert !SpaceIn(s, 0, Lead(s)) || !SpaceIn(s, Lead(s), |s|);
    }
  }

  /** Python's `s.startswith(p)`. */
  predicate StartsWith(s: string, p: string) {
    |p| <= |s| && s[..|p|] == p
  }

  /** Python's `s.endswith(t)`. */
  predicate EndsWith(s: string, t: string) {
    |t| <= |s| && s[|s| - |t|..] == t
  }

  /** Python's `t in s` on strings. */
  predicate Contains(s: string, t: string) {
    exists k | 0 <= k <= |s| - |t| :: OccursAt(s, t, k)
  }

  predicate OccursAt(s: string, t: string, k: int) {
    0 <= k && k + |t| <= |s| && s[k..k + |t|] == t
  }

  lemma ContainsMiddle(a: string, t: string, b: string)
    ensures Contains(a + t + b, t)
  {
    assert OccursAt(a + t + b, t, |a|);
  }

  /** An occurrence stays where it is when text is appended... */
  lemma OccursAppend(s: string, u: string, t: string, k: int)
    requires OccursAt(s, t, k)
    ensures OccursAt(s + u, t, k)
  {
    assert (s + u)[k..k + |t|] == s[k..k + |t|];
  }

  /** ...and moves by the length of text prepended. */
  lemma OccursPrepend(u: string, s: string, t: string, k: int)
    requires OccursAt(s, t, k)
    ensures OccursAt(u + s, t, |u| + k)
  {
    assert (u + s)[|u| + k..|u| + k + |t|] == s[k..k + |t|];
  }

  /** Python's `str.lower()` on the ASCII letters; every other character is
      left as it is. */
  function LowerChar(c: char): (r: char)
    ensures 'A' <= c <= 'Z' ==> r as int == c as int + 32
    ensures !('A' <= c <= 'Z') ==> r == c
  {
    if 'A' <= c <= 'Z' then (c as int + 32) as char else c
  }

  function Lower(s: string): (r: string)
    ensures |r| == |s|
    ensures forall k :: 0 <= k < |s| ==> r[k] == LowerChar(s[k])
  {
    if s == [] then [] else [LowerChar(s[0])] + Lower(s[1..])
  }

  /** `Lower(s)` is "oss" exactly for the eight spellings of "oss" in any
      letter case. */
  lemma LowerIsOss(s: string)
    ensures Lower(s) == "oss" <==>
      |s| == 3 && (s[0] == 'o' || s[0] == 'O') && (s[1] == 's' || s[1] == 'S')
      && (s[2] == 's' || s[2] == 'S')
  {
    if |s| == 3 {
      var l := Lower(s);
      assert l == [l[0], l[1], l[2]];
      assert "oss" == ['o', 's', 's'];
      LowerCharIs(s[0], 'o', 'O');
      LowerCharIs(s[1], 's', 'S');
      LowerCharIs(s[2], 's', 'S');
    }
  }

  /** The characters that lower-case to a given small letter: the letter
      itself and its capital. */
  lemma LowerCharIs(c: char, small: char, capital: char)
    requires 'A' <= capital <= 'Z' && small as int == capital as int + 32
    ensures LowerChar(c) == small <==> c == small || c == capital
  {
  }
}
