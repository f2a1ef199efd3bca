/** Substring search on strings, as JavaScript's `String.prototype.includes`. */
module Text {

  /** `s` contains `p` as a contiguous substring. */
  predicate Contains(s: string, p: string)
  {
    exists i :: 0 <= i <= |s| && p <= s[i..]
  }

  /**
   * If `s` contains `outer`, and `inner` occurs in `outer` at offset `k`,
   * then `s` contains `inner`.
   */
  lemma ContainsWithin(s: string, outer: string, inner: string, k: nat)
    requires Contains(s, outer)
    requires k <= |outer| && inner <= outer[k..]
    ensures Contains(s, inner)
  {
    var i :| 0 <= i <= |s| && outer <= s[i..];
    assert |inner| <= |outer| - k;
    forall j | 0 <= j < |inner| ensures inner[j] == s[i + k..][j] {
      calc {
        inner[j];
        outer[k..][j];
        outer[k + j];
        s[i..][k + j];
        s[i + k + j];
        s[i + k..][j];
      }
    }
    assert inner <= s[i + k..];
  }
}
