/** Small shared vocabulary: an optional value and the string operations the
    extension uses (ASCII lowercasing, prefix and suffix tests). */
module Prelude {

  datatype Option<T> = None | Some(value: T)

  /** Lowercasing of one character, restricted to the ASCII letters. */
  function LowerChar(c: char): (r: char)
    ensures 'A' <= c <= 'Z' ==> r as int == c as int + 32
    ensures !('A' <= c <= 'Z') ==> r == c
    ensures !('A' <= r <= 'Z')
  {
    if 'A' <= c <= 'Z' then (c as int + 32) as char else c
  }

  /** `String.prototype.toLowerCase`, on ASCII letters. */
  function Lower(s: string): (r: string)
    ensures |r| == |s|
    ensures forall i :: 0 <= i < |s| ==> r[i] == LowerChar(s[i])
  {
    seq(|s|, i requires 0 <= i < |s| => LowerChar(s[i]))
  }

  predicate IsLower(s: string) {
    forall i :: 0 <= i < |s| ==> !('A' <= s[i] <= 'Z')
  }

  lemma LowerIsLower(s: string)
    ensures IsLower(Lower(s))
  {
  }

  /** Lowercasing an already lowercase string changes nothing. */
  lemma LowerOfLower(s: string)
    requires IsLower(s)
    ensures Lower(s) == s
  {
  }

  lemma LowerConcat(a: string, b: string)
    ensures Lower(a + b) == Lower(a) + Lower(b)
  {
    assert forall i :: 0 <= i < |a + b| ==> Lower(a + b)[i] == (Lower(a) + Lower(b))[i];
  }

  predicate StartsWith(s: string, p: string) {
    |p| <= |s| && s[..|p|] == p
  }

  /** `String.prototype.endsWith`. */
  predicate EndsWith(s: string, q: string) {
    |q| <= |s| && s[|s| - |q|..] == q
  }

  /** A string ends with q exactly when it is some string followed by q. */
  lemma EndsWithIff(s: string, q: string)
    ensures EndsWith(s, q) <==> exists x :: s == x + q
  {
    if EndsWith(s, q) {
      assert s == s[..|s| - |q|] + q;
    }
    if exists x :: s == x + q {
      var x :| s == x + q;
      assert s[|s| - |q|..] == q;
    }
  }

  /** Putting something in front keeps a suffix a suffix. */
  lemma EndsWithPrepend(x: string, s: string, q: string)
    requires EndsWith(s, q)
    ensures EndsWith(x + s, q)
  {
    assert (x + s)[|x + s| - |q|..] == s[|s| - |q|..];
  }
}
