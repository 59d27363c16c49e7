/** Character classes and string predicates the name derivation and dialect detection rely on. */
module Text {

  predicate IsUpper(c: char) { 'A' <= c <= 'Z' }

  /** The characters kept by the pattern `[^a-z0-9_]` replacement: lower-case ASCII letters, digits, underscore. */
  predicate IsIdentChar(c: char) { 'a' <= c <= 'z' || '0' <= c <= '9' || c == '_' }

  predicate AllIdent(s: string) { forall i :: 0 <= i < |s| ==> IsIdentChar(s[i]) }

  /** Lower-cases one character: ASCII `A`-`Z` become `a`-`z`, every other character is kept. */
  function LowerChar(c: char): (l: char)
    ensures IsUpper(c) ==> l as int == c as int + 32 && 'a' <= l <= 'z'
    ensures !IsUpper(c) ==> l == c
    ensures !IsUpper(l)
  {
    if IsUpper(c) then (c as int + 32) as char else c
  }

  /** Lower-cases a whole string, character by character. */
  function Lower(s: string): (r: string)
    ensures |r| == |s|
    ensures forall i :: 0 <= i < |s| ==> r[i] == LowerChar(s[i])
    ensures forall i :: 0 <= i < |r| ==> !IsUpper(r[i])
  {
    seq(|s|, i requires 0 <= i < |s| => LowerChar(s[i]))
  }

  /** `w` occurs somewhere in `s` (Java's `String.contains`). */
  predicate Contains(s: string, w: string) {
    exists i | 0 <= i <= |s| :: OccursAt(s, w, i)
  }

  /** `w` occurs in `s` starting at index `i`. */
  predicate OccursAt(s: string, w: string, i: int) {
    0 <= i <= |s| - |w| && s[i..i + |w|] == w
  }

  predicate StartsWith(s: string, p: string) { |p| <= |s| && s[..|p|] == p }

  predicate EndsWith(s: string, p: string) { |p| <= |s| && s[|s| - |p|..] == p }

  /** Lower-casing is idempotent, and a string with no upper-case letter is its own lower case. */
  lemma LowerFixesNonUpper(s: string)
    requires forall i :: 0 <= i < |s| ==> !IsUpper(s[i])
    ensures Lower(s) == s
  {
  }

  /** A concatenation of identifier strings is an identifier string. */
  lemma AllIdentConcat(a: string, b: string)
    requires AllIdent(a) && AllIdent(b)
    ensures AllIdent(a + b)
  {
  }

  /** A concatenation starts with its first part and ends with its last. */
  lemma ConcatEnds(a: string, b: string, c: string)
    ensures StartsWith(a + b + c, a) && EndsWith(a + b + c, c)
  {
  }

  /** An occurrence of `w` inside `b` is an occurrence inside any `a + b + c`. */
  lemma ContainsInfix(a: string, b: string, c: string, w: string)
    requires Contains(b, w)
    ensures Contains(a + b + c, w)
  {
    var i :| 0 <= i <= |b| && OccursAt(b, w, i);
    var s := a + b + c;
    assert i + |w| <= |b|;
    assert s[|a| + i..|a| + i + |w|] == b[i..i + |w|];
    assert OccursAt(s, w, |a| + i);
  }

  /** An occurrence of `w` inside `b` is an occurrence inside any `b + c`. */
  lemma ContainsHead(b: string, c: string, w: string)
    requires Contains(b, w)
    ensures Contains(b + c, w)
  {
    var i :| 0 <= i <= |b| && OccursAt(b, w, i);
    assert (b + c)[i..i + |w|] == b[i..i + |w|];
    assert OccursAt(b + c, w, i);
  }

  /** An occurrence of `w` inside `b` is an occurrence inside any `a + b`. */
  lemma ContainsTail(a: string, b: string, w: string)
    requires Contains(b, w)
    ensures Contains(a + b, w)
  {
    var i :| 0 <= i <= |b| && OccursAt(b, w, i);
    assert (a + b)[|a| + i..|a| + i + |w|] == b[i..i + |w|];
    assert OccursAt(a + b, w, |a| + i);
  }

  /** A string in which the first character of `w` never occurs cannot contain `w`. */
  lemma NotContainsWithoutHead(s: string, w: string)
    requires |w| > 0
    requires forall i :: 0 <= i < |s| ==> s[i] != w[0]
    ensures !Contains(s, w)
  {
    forall i | 0 <= i <= |s| - |w| ensures !OccursAt(s, w, i) {
      assert s[i..i + |w|][0] == s[i];
    }
  }
}
