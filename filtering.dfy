/**
 * Selecting elements of a sequence: numpy's boolean-mask indexing
 * `xs[mask]`, the element-wise `np.bitwise_or` of two masks, and the
 * reference filter by a predicate that both are compared against.
 */
module Filtering {

  /** Reference: the elements of `xs` that satisfy `keep`, in their order. */
  function Filter<T>(xs: seq<T>, keep: T -> bool): seq<T>
  {
    if xs == [] then []
    else (if keep(xs[0]) then [xs[0]] else []) + Filter(xs[1..], keep)
  }

  /** `s` can be obtained from `t` by deleting elements (order kept). */
  predicate IsSubsequence<T(==)>(s: seq<T>, t: seq<T>)
    decreases |t|
  {
    s == [] || (t != [] && ((s[0] == t[0] && IsSubsequence(s[1..], t[1..])) || IsSubsequence(s, t[1..])))
  }

  /** `np.bitwise_or(a, b)` on two boolean lists of equal length. */
  function BitwiseOr(a: seq<bool>, b: seq<bool>): (r: seq<bool>)
    requires |a| == |b|
    ensures |r| == |a|
    ensures forall i :: 0 <= i < |r| ==> (r[i] <==> a[i] || b[i])
  {
    seq(|a|, i requires 0 <= i < |a| => a[i] || b[i])
  }

  /** `xs[mask]` for a numpy array `xs` and a boolean mask of the same length. */
  function MaskSelect<T>(xs: seq<T>, mask: seq<bool>): seq<T>
    requires |xs| == |mask|
  {
    if xs == [] then []
    else (if mask[0] then [xs[0]] else []) + MaskSelect(xs[1..], mask[1..])
  }

  /** Selecting with a mask computed element-wise from `keep` is filtering by `keep`. */
  lemma {:induction false} MaskSelectIsFilter<T>(xs: seq<T>, mask: seq<bool>, keep: T -> bool)
    requires |xs| == |mask|
    requires forall i :: 0 <= i < |xs| ==> (mask[i] <==> keep(xs[i]))
    ensures MaskSelect(xs, mask) == Filter(xs, keep)
  {
    if xs != [] {
      assert forall i :: 0 <= i < |xs| - 1 ==> (mask[1..][i] <==> keep(xs[1..][i])) by {
        forall i | 0 <= i < |xs| - 1 ensures mask[1..][i] <==> keep(xs[1..][i]) {
          assert mask[1..][i] == mask[i + 1] && xs[1..][i] == xs[i + 1];
        }
      }
      MaskSelectIsFilter(xs[1..], mask[1..], keep);
    }
  }

  /** An element is kept exactly when it occurs in the input and satisfies the predicate. */
  lemma {:induction false} FilterMembership<T>(xs: seq<T>, keep: T -> bool, x: T)
    ensures x in Filter(xs, keep) <==> x in xs && keep(x)
  {
    if xs != [] {
      FilterMembership(xs[1..], keep, x);
      assert xs == [xs[0]] + xs[1..];
    }
  }

  /** Every occurrence of a kept value survives and no other value does. */
  lemma {:induction false} FilterMultiplicity<T>(xs: seq<T>, keep: T -> bool, x: T)
    ensures multiset(Filter(xs, keep))[x] == if keep(x) then multiset(xs)[x] else 0
  {
    if xs != [] {
      FilterMultiplicity(xs[1..], keep, x);
      assert xs == [xs[0]] + xs[1..];
    }
  }

  /** The filter keeps the input's order: its result is a subsequence of the input. */
  lemma {:induction false} FilterIsSubsequence<T>(xs: seq<T>, keep: T -> bool)
    ensures IsSubsequence(Filter(xs, keep), xs)
  {
    if xs != [] {
      FilterIsSubsequence(xs[1..], keep);
      var rest := Filter(xs[1..], keep);
      if keep(xs[0]) {
        assert Filter(xs, keep) == [xs[0]] + rest;
        assert ([xs[0]] + rest)[1..] == rest;
      } else {
        assert Filter(xs, keep) == rest;
      }
    }
  }

  /** Nothing is kept only if no element satisfies the predicate. */
  lemma {:induction false} FilterEmpty<T>(xs: seq<T>, keep: T -> bool)
    ensures Filter(xs, keep) == [] <==> forall i :: 0 <= i < |xs| ==> !keep(xs[i])
  {
    if xs != [] {
      FilterEmpty(xs[1..], keep);
      if forall i :: 0 <= i < |xs| ==> !keep(xs[i]) {
        assert forall i :: 0 <= i < |xs| - 1 ==> !keep(xs[1..][i]) by {
          forall i | 0 <= i < |xs| - 1 ensures !keep(xs[1..][i]) {
            assert xs[1..][i] == xs[i + 1];
          }
        }
      } else if !keep(xs[0]) {
        var i :| 0 <= i < |xs| && keep(xs[i]);
        assert xs[1..][i - 1] == xs[i];
      }
    }
  }
}
