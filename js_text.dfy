/**
 * The part of ECMAScript's string library the practice screen relies on:
 * `String.prototype.trim`, which removes leading and trailing white space
 * and line terminators.
 */
module JsText {

  /**
   * The code points ECMAScript counts as WhiteSpace or LineTerminator:
   * TAB, LF, VT, FF, CR, SPACE, NBSP, the other space separators (Zs),
   * LINE SEPARATOR, PARAGRAPH SEPARATOR and the byte order mark.
   */
  predicate IsWhitespace(c: char) {
    var n := c as int;
    || (0x09 <= n <= 0x0D)
    || n == 0x20
    || n == 0xA0
    || n == 0x1680
    || (0x2000 <= n <= 0x200A)
    || n == 0x2028
    || n == 0x2029
    || n == 0x202F
    || n == 0x205F
    || n == 0x3000
    || n == 0xFEFF
  }

  predicate AllWhitespace(s: string) {
    forall i :: 0 <= i < |s| ==> IsWhitespace(s[i])
  }

  /** `s` without its leading white space. */
  function TrimStart(s: string): (r: string)
    ensures |r| <= |s| && r == s[|s| - |r|..]
    ensures AllWhitespace(s[..|s| - |r|])
    ensures r == [] || !IsWhitespace(r[0])
    decreases |s|
  {
    if s != [] && IsWhitespace(s[0]) then
      var r := TrimStart(s[1..]);
      assert s[..|s| - |r|] == [s[0]] + s[1..][..|s| - 1 - |r|];
      r
    else
      s
  }

  /** `s` without its trailing white space. */
  function TrimEnd(s: string): (r: string)
    ensures |r| <= |s| && r == s[..|r|]
    ensures AllWhitespace(s[|r|..])
    ensures r == [] || !IsWhitespace(r[|r| - 1])
    decreases |s|
  {
    if s != [] && IsWhitespace(s[|s| - 1]) then
      var r := TrimEnd(s[..|s| - 1]);
      assert s[|r|..] == s[..|s| - 1][|r|..] + [s[|s| - 1]];
      r
    else
      s
  }

  /**
   * `r` is `s[i..j]`, what is left of `s` once the white-space-only prefix
   * `s[..i]` and the white-space-only suffix `s[j..]` are cut off, and
   * neither end of `r` is white space.
   */
  predicate TrimmedAt(r: string, s: string, i: nat, j: nat) {
    && i <= j <= |s|
    && r == s[i..j]
    && AllWhitespace(s[..i])
    && AllWhitespace(s[j..])
    && (r == [] || (!IsWhitespace(r[0]) && !IsWhitespace(r[|r| - 1])))
  }

  /** The independent description of what trimming produces. */
  ghost predicate IsTrimmingOf(r: string, s: string) {
    exists i: nat, j: nat :: TrimmedAt(r, s, i, j)
  }

  /** ECMAScript's `s.trim()`. */
  function Trim(s: string): (r: string)
    ensures IsTrimmingOf(r, s)
    ensures r == [] <==> AllWhitespace(s)
  {
    var t := TrimStart(s);
    var r := TrimEnd(t);
    var i := |s| - |t|;
    assert r == s[i..i + |r|];
    assert s[i + |r|..] == t[|r|..];
    assert r != [] ==> r[0] == t[0];
    assert AllWhitespace(s) ==> t == [];
    assert t == [] ==> s == s[..i];
    assert TrimmedAt(r, s, i, i + |r|);
    r
  }

  /** At most one string is a trimming of `s`, so `IsTrimmingOf` pins `Trim` down. */
  lemma TrimmingIsUnique(r1: string, r2: string, s: string)
    requires IsTrimmingOf(r1, s) && IsTrimmingOf(r2, s)
    ensures r1 == r2
  {
    var i1: nat, j1: nat :| TrimmedAt(r1, s, i1, j1);
    var i2: nat, j2: nat :| TrimmedAt(r2, s, i2, j2);
    TrimmedAtUnique(r1, r2, s, i1, j1, i2, j2);
  }

  lemma TrimmedAtUnique(r1: string, r2: string, s: string, i1: nat, j1: nat, i2: nat, j2: nat)
    requires TrimmedAt(r1, s, i1, j1) && TrimmedAt(r2, s, i2, j2)
    ensures r1 == r2
  {
    if r1 != [] {
      assert r1[0] == s[i1] && r1[|r1| - 1] == s[j1 - 1];
      if i2 > i1 { WhitespaceInPrefix(s, i2, i1); assert false; }
      if j2 < j1 { WhitespaceInSuffix(s, j2, j1 - 1); assert false; }
      if r2 == [] { WhitespaceInSuffix(s, j2, i1); assert false; }
    }
    if r2 != [] {
      assert r2[0] == s[i2] && r2[|r2| - 1] == s[j2 - 1];
      if i1 > i2 { WhitespaceInPrefix(s, i1, i2); assert false; }
      if j1 < j2 { WhitespaceInSuffix(s, j1, j2 - 1); assert false; }
      if r1 == [] { WhitespaceInSuffix(s, j1, i2); assert false; }
    }
  }

  lemma WhitespaceInPrefix(s: string, k: nat, p: nat)
    requires p < k <= |s| && AllWhitespace(s[..k])
    ensures IsWhitespace(s[p])
  {
    assert s[..k][p] == s[p];
  }

  lemma WhitespaceInSuffix(s: string, k: int, p: int)
    requires 0 <= k <= p < |s| && AllWhitespace(s[k..])
    ensures IsWhitespace(s[p])
  {
    assert s[k..][p - k] == s[p];
  }

  /** Trimming twice is trimming once. */
  lemma TrimIdempotent(s: string)
    ensures Trim(Trim(s)) == Trim(s)
  {
    var r := Trim(s);
    TrimmingIsUnique(Trim(r), r, r);
  }
}
