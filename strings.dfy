/** Python string predicates and slices used by the KITTI configuration. */
module Strings {

  /** `s.startswith(prefix)` */
  predicate StartsWith(s: string, prefix: string)
  {
    |prefix| <= |s| && s[..|prefix|] == prefix
  }

  /** `s.endswith(suffix)` */
  predicate EndsWith(s: string, suffix: string)
  {
    |suffix| <= |s| && s[|s| - |suffix|..] == suffix
  }

  function Min(a: nat, b: nat): nat
  {
    if a <= b then a else b
  }

  /** `s[n:]` for a non-negative `n`: Python gives "" once `n` is past the end. */
  function SliceFrom(s: string, n: nat): (r: string)
    ensures n <= |s| ==> s == s[..n] + r
    ensures |s| <= n ==> r == ""
  {
    if n <= |s| then s[n..] else ""
  }

  /** `s[:n]` for a non-negative `n`: the first `n` characters, or all of `s` when it is shorter. */
  function SliceTo(s: string, n: nat): (r: string)
    ensures |r| == Min(n, |s|)
    ensures StartsWith(s, r)
  {
    if n <= |s| then s[..n] else s
  }

  /** `s[-n:]` for a positive `n`: the last `n` characters, or all of `s` when it is shorter. */
  function SliceLast(s: string, n: nat): (r: string)
    requires 0 < n
    ensures |r| == Min(n, |s|)
    ensures EndsWith(s, r)
  {
    if n <= |s| then s[|s| - n..] else s
  }

  /** Comparing the head slice with a literal is the same test as `startswith`. */
  lemma SliceToIsStartsWith(s: string, prefix: string)
    ensures SliceTo(s, |prefix|) == prefix <==> StartsWith(s, prefix)
  {
  }

  /**
   * Comparing the tail slice `s[-len(suffix):]` with a non-empty literal is the
   * same test as `endswith`: a string shorter than the suffix is returned whole
   * and is then too short to equal it.
   */
  lemma SliceLastIsEndsWith(s: string, suffix: string)
    requires suffix != ""
    ensures SliceLast(s, |suffix|) == suffix <==> EndsWith(s, suffix)
  {
  }
}
