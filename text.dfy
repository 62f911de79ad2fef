/**
 * The parts of Go's `strings` package that the core relies on.
 *
 * Go strings are byte sequences; here a string is a sequence of Unicode scalar
 * values, which gives the same answers as Go on valid UTF-8 text (every search
 * below looks for a whole pattern, and UTF-8 is self-synchronising).
 */
module Text {

  predicate StartsWith(s: string, p: string) {
    |p| <= |s| && s[..|p|] == p
  }

  /** `strings.Contains`: `t` occurs in `s` at some position. */
  predicate Contains(s: string, t: string) {
    exists i | 0 <= i <= |s| - |t| :: StartsWith(s[i..], t)
  }

  lemma ContainsAt(s: string, t: string, i: nat)
    requires i + |t| <= |s| && s[i..i + |t|] == t
    ensures Contains(s, t)
  {
    assert StartsWith(s[i..], t);
  }

  lemma ContainsLength(s: string, t: string)
    ensures Contains(s, t) ==> |s| >= |t|
  {
  }

  lemma ContainsInfix(a: string, t: string, b: string)
    ensures Contains(a + t + b, t)
  {
    ContainsAt(a + t + b, t, |a|);
  }

  /** Each of the inserted pieces occurs in a text built around them. */
  lemma {:induction false} ContainsEachPart(p0: string, x: string, p1: string, y: string, p2: string, z: string, p3: string)
    ensures Contains(p0 + x + p1 + y + p2 + z + p3, x)
    ensures Contains(p0 + x + p1 + y + p2 + z + p3, y)
    ensures Contains(p0 + x + p1 + y + p2 + z + p3, z)
  {
    var s := p0 + x + p1 + y + p2 + z + p3;
    assert s == p0 + x + (p1 + y + p2 + z + p3);
    ContainsInfix(p0, x, p1 + y + p2 + z + p3);
    assert s == (p0 + x + p1) + y + (p2 + z + p3);
    ContainsInfix(p0 + x + p1, y, p2 + z + p3);
    ContainsInfix(p0 + x + p1 + y + p2, z, p3);
  }

  lemma ContainsTail(s: string, t: string)
    requires s != [] && Contains(s[1..], t)
    ensures Contains(s, t)
  {
    var i :| 0 <= i <= |s[1..]| - |t| && StartsWith(s[1..][i..], t);
    assert s[1..][i..] == s[i + 1..];
    assert StartsWith(s[i + 1..], t);
  }

  /** An occurrence that does not start at position 0 is an occurrence in the tail. */
  lemma ContainsNotAtStart(s: string, t: string)
    requires Contains(s, t) && !StartsWith(s, t)
    ensures s != [] && Contains(s[1..], t)
  {
    var i :| 0 <= i <= |s| - |t| && StartsWith(s[i..], t);
    assert s[0..] == s;
    assert s[1..][i - 1..] == s[i..];
    assert StartsWith(s[1..][i - 1..], t);
  }

  /** An occurrence in `b` is an occurrence in `a + b`, and one in `a` is one in `a + b`. */
  lemma ContainsInAppend(a: string, b: string, t: string)
    ensures Contains(a, t) ==> Contains(a + b, t)
    ensures Contains(b, t) ==> Contains(a + b, t)
  {
    if Contains(a, t) {
      var i :| 0 <= i <= |a| - |t| && StartsWith(a[i..], t);
      assert (a + b)[i..i + |t|] == a[i..i + |t|];
      ContainsAt(a + b, t, i);
    }
    if Contains(b, t) {
      var i :| 0 <= i <= |b| - |t| && StartsWith(b[i..], t);
      assert (a + b)[|a| + i..|a| + i + |t|] == b[i..i + |t|];
      ContainsAt(a + b, t, |a| + i);
    }
  }

  lemma {:induction false} ContainsTransitive(s: string, u: string, t: string)
    requires Contains(s, u) && Contains(u, t)
    ensures Contains(s, t)
  {
    var i :| 0 <= i <= |s| - |u| && StartsWith(s[i..], u);
    var j :| 0 <= j <= |u| - |t| && StartsWith(u[j..], t);
    assert s[i..i + |u|] == u;
    assert u[j..j + |t|] == t;
    assert s[i + j..i + j + |t|] == u[j..j + |t|];
    ContainsAt(s, t, i + j);
  }

  /**
   * `strings.ReplaceAll(s, pat, rep)` for a non-empty pattern: scan left to
   * right, replace each occurrence, resume after it (occurrences never overlap).
   * No replaced text is scanned again.
   */
  function ReplaceAll(s: string, pat: string, rep: string): (r: string)
    requires pat != []
    decreases |s|
  {
    if s == [] then []
    else if StartsWith(s, pat) then rep + ReplaceAll(s[|pat|..], pat, rep)
    else [s[0]] + ReplaceAll(s[1..], pat, rep)
  }

  /** Without an occurrence there is nothing to replace. */
  lemma {:induction false} ReplaceAllWithoutOccurrence(s: string, pat: string, rep: string)
    requires pat != [] && !Contains(s, pat)
    ensures ReplaceAll(s, pat, rep) == s
    decreases |s|
  {
    if s != [] {
      assert StartsWith(s[0..], pat) ==> Contains(s, pat);
      assert s[0..] == s;
      OccurrenceInTail(s, pat);
      ReplaceAllWithoutOccurrence(s[1..], pat, rep);
      assert [s[0]] + s[1..] == s;
    }
  }

  lemma OccurrenceInTail(s: string, pat: string)
    requires s != []
    ensures Contains(s[1..], pat) ==> Contains(s, pat)
  {
    if Contains(s[1..], pat) {
      ContainsTail(s, pat);
    }
  }

  /** Deleting every occurrence never lengthens a string, and shortens it exactly when there was one. */
  lemma {:induction false} DeleteAllShrinks(s: string, pat: string)
    requires pat != []
    ensures |ReplaceAll(s, pat, [])| <= |s|
    ensures Contains(s, pat) <==> |ReplaceAll(s, pat, [])| < |s|
    decreases |s|
  {
    if s == [] {
    } else if StartsWith(s, pat) {
      DeleteAllShrinks(s[|pat|..], pat);
      assert StartsWith(s[0..], pat);
    } else {
      DeleteAllShrinks(s[1..], pat);
      if Contains(s, pat) {
        ContainsNotAtStart(s, pat);
      }
      if Contains(s[1..], pat) {
        ContainsTail(s, pat);
      }
    }
  }

  /** `unicode.IsSpace`: the Latin-1 spaces and the Unicode space separators. */
  predicate IsSpace(c: char) {
    c == ' ' || c == '\t' || c == '\n' || c == '\U{000B}' || c == '\U{000C}' || c == '\r'
    || c == '\U{0085}' || c == '\U{00A0}' || c == '\U{1680}'
    || ('\U{2000}' <= c <= '\U{200A}')
    || c == '\U{2028}' || c == '\U{2029}' || c == '\U{202F}' || c == '\U{205F}' || c == '\U{3000}'
  }

  predicate AllSpace(s: string) {
    forall i | 0 <= i < |s| :: IsSpace(s[i])
  }

  /** How many white-space characters `s` starts with. */
  function LeadingSpace(s: string): (n: nat)
    ensures n <= |s|
    ensures forall i | 0 <= i < n :: IsSpace(s[i])
    ensures n < |s| ==> !IsSpace(s[n])
  {
    if s != [] && IsSpace(s[0]) then
      var n := 1 + LeadingSpace(s[1..]);
      assert forall i | 1 <= i < n :: s[i] == s[1..][i - 1];
      n
    else 0
  }

  /** How many white-space characters `s` ends with. */
  function TrailingSpace(s: string): (n: nat)
    ensures n <= |s|
    ensures forall i | |s| - n <= i < |s| :: IsSpace(s[i])
    ensures n < |s| ==> !IsSpace(s[|s| - n - 1])
  {
    if s != [] && IsSpace(s[|s| - 1]) then
      var n := 1 + TrailingSpace(s[..|s| - 1]);
      assert forall i | |s| - n <= i < |s| - 1 :: s[i] == s[..|s| - 1][i];
      n
    else 0
  }

  /** `strings.TrimLeft(s, space)`: drop the leading white space. */
  function TrimLeft(s: string): (r: string)
    ensures r == [] || !IsSpace(r[0])
    ensures r == [] <==> AllSpace(s)
    ensures |r| <= |s| && r == s[|s| - |r|..]
    ensures AllSpace(s[..|s| - |r|])
  {
    var n := LeadingSpace(s);
    assert forall i | 0 <= i < n :: s[..n][i] == s[i];
    s[n..]
  }

  /** `strings.TrimRight(s, space)`: drop the trailing white space. */
  function TrimRight(s: string): (r: string)
    ensures r == [] || !IsSpace(r[|r| - 1])
    ensures r == [] <==> AllSpace(s)
    ensures |r| <= |s| && r == s[..|r|]
    ensures AllSpace(s[|r|..])
  {
    var n := TrailingSpace(s);
    assert forall i | |s| - n <= i < |s| :: s[|s| - n..][i - (|s| - n)] == s[i];
    s[..|s| - n]
  }

  /**
   * `strings.TrimSpace`: drop leading and trailing white space. The result is
   * the piece of `s` that starts where its leading white space ends and has
   * only white space after it, and it neither starts nor ends with white
   * space, so nothing else is dropped.
   */
  function TrimSpace(s: string): (r: string)
    ensures r == [] <==> AllSpace(s)
    ensures r != [] ==> !IsSpace(r[0]) && !IsSpace(r[|r| - 1])
    ensures var i := LeadingSpace(s);
            && i + |r| <= |s| && r == s[i..i + |r|] && AllSpace(s[..i]) && AllSpace(s[i + |r|..])
  {
    var l := TrimLeft(s);
    var r := TrimRight(l);
    TrimSpacePiece(s, LeadingSpace(s), l, r);
    r
  }

  /**
   * Where the two trims cut `s`: `l` is what is left after the space-only
   * prefix of length `i`, `r` what is left of `l` before a space-only suffix.
   */
  lemma TrimSpacePiece(s: string, i: nat, l: string, r: string)
    requires i <= |s| && l == s[i..] && AllSpace(s[..i]) && (l == [] <==> AllSpace(s)) && (l == [] || !IsSpace(l[0]))
    requires |r| <= |l| && r == l[..|r|] && AllSpace(l[|r|..]) && (r == [] <==> AllSpace(l)) && (r == [] || !IsSpace(r[|r| - 1]))
    ensures r == [] <==> AllSpace(s)
    ensures r != [] ==> !IsSpace(r[0]) && !IsSpace(r[|r| - 1])
    ensures i + |r| <= |s| && r == s[i..i + |r|] && AllSpace(s[..i]) && AllSpace(s[i + |r|..])
  {
    assert r != [] ==> r[0] == l[0];
    assert s[i + |r|..] == l[|r|..];
  }

  /** What `TrimSpace` keeps is a piece of the original. */
  lemma TrimSpaceOccurs(s: string)
    ensures Contains(s, TrimSpace(s))
  {
    ContainsAt(s, TrimSpace(s), LeadingSpace(s));
  }

  /** `strings.SplitN(s, "\n", 2)[0]`: everything before the first line feed. */
  function FirstLine(s: string): (r: string)
    ensures '\n' !in r
    ensures StartsWith(s, r)
    ensures r == s || s[|r|] == '\n'
  {
    if s == [] || s[0] == '\n' then []
    else [s[0]] + FirstLine(s[1..])
  }

  predicate IsAscii(s: string) {
    forall i | 0 <= i < |s| :: s[i] < '\U{0080}'
  }

  /**
   * `unicode.ToLower` as far as it can make a character equal to an ASCII one:
   * A-Z, U+0130 (dotted capital I) and U+212A (Kelvin sign). Every other
   * character is kept, which gives the same verdict as Go whenever the result is
   * compared with an ASCII string, the only use the core makes of it.
   */
  function LowerRune(c: char): char {
    if 'A' <= c <= 'Z' then (c as int + 32) as char
    else if c == '\U{0130}' then 'i'
    else if c == '\U{212A}' then 'k'
    else c
  }

  /** `strings.ToLower`, exact for comparisons with ASCII strings (see LowerRune). */
  function ToLower(s: string): (r: string)
    ensures |r| == |s|
    ensures forall i | 0 <= i < |s| :: r[i] == LowerRune(s[i])
  {
    seq(|s|, i requires 0 <= i < |s| => LowerRune(s[i]))
  }

  /**
   * The simple case-folding class of a character, for characters whose class
   * contains an ASCII letter: {A, a}, ..., {K, k, U+212A}, {S, s, U+017F}.
   */
  function FoldRune(c: char): char {
    if 'A' <= c <= 'Z' then (c as int + 32) as char
    else if c == '\U{017F}' then 's'
    else if c == '\U{212A}' then 'k'
    else c
  }

  /** `strings.EqualFold(s, t)` for an ASCII `t`, which is how every call site uses it. */
  predicate EqualFold(s: string, t: string)
    requires IsAscii(t)
    ensures IsAscii(s) ==> (EqualFold(s, t) <==> ToLower(s) == ToLower(t))
  {
    var r := |s| == |t| && forall i | 0 <= i < |s| :: FoldRune(s[i]) == FoldRune(t[i]);
    assert IsAscii(s) && |s| == |t| ==> (r <==> ToLower(s) == ToLower(t)) by {
      if IsAscii(s) && |s| == |t| {
        assert forall i | 0 <= i < |s| :: FoldRune(s[i]) == LowerRune(s[i]) && FoldRune(t[i]) == LowerRune(t[i]);
        if ToLower(s) == ToLower(t) {
          assert forall i | 0 <= i < |s| :: ToLower(s)[i] == ToLower(t)[i];
        }
      }
    }
    r
  }
}
